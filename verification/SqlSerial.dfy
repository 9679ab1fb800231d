/** Any number of SQL rebooking transactions interleave statement by statement under row
    locks; the committed tables always are those of a serial history in commit order. */
module SqlSerial {
  import opened Prelude
  import opened Airline
  import opened Rebooking
  import Conservation

  type TxId = nat

  datatype Row =
    | SegmentRow(id: Id)
    | ReservationRow(id: Id)
    | FlightRow(id: Id)
    | FareRow(key: FareKey)
    | CreditRowOf(id: Id)

  /** The next statement of a transaction. */
  datatype Pc = SelectSegment | SelectTarget | SelectCredit | Check | TakeSeats | ReturnSeats | Commit {
    function Index(): nat {
      match this
      case SelectSegment => 0
      case SelectTarget => 1
      case SelectCredit => 2
      case Check => 3
      case TakeSeats => 4
      case ReturnSeats => 5
      case Commit => 6
    }
  }

  /** A running transaction: the rows as it read them, its validation, and the fare rows it
      has written but not committed. */
  datatype Tx = Tx(
    sel: Selection, pc: Pc,
    seg: Segment, res: Reservation, fare: Fare, credit: Credit,
    now: int, v: Validation,
    written: map<FareKey, Fare>
  )

  datatype World = World(db: Db, locks: map<Row, TxId>, txs: map<TxId, Tx>, next: TxId, committed: seq<Request>)

  type Locks = map<Row, TxId>

  predicate Free(locks: Locks, t: TxId, row: Row) {
    row in locks ==> locks[row] == t
  }

  predicate Owns(locks: Locks, t: TxId, row: Row) {
    row in locks && locks[row] == t
  }

  function Taken(locks: Locks, t: TxId, rows: set<Row>): Locks {
    locks + (map row | row in rows :: t)
  }

  /** Rolling back or committing gives every row lock of the transaction back. */
  function Released(locks: Locks, t: TxId): Locks {
    map row | row in locks && locks[row] != t :: locks[row]
  }

  /** What a statement comes to: it waits for a row lock, ends the transaction, or takes
      the locks of these rows and goes on. */
  datatype Decision = Wait | Rollback | Proceed(rows: set<Row>, tx: Tx) | Publish

  /** The tables as the transaction has seen them: its own rows as read, everything else as committed. */
  function Seen(db: Db, tx: Tx): Db {
    db.(segments := db.segments[tx.sel.segment := tx.seg],
        reservations := db.reservations[tx.seg.reservation := tx.res],
        fares := db.fares[tx.sel.target := tx.fare],
        credits := if tx.sel.credit.Some? then db.credits[tx.sel.credit.value := tx.credit] else db.credits)
  }

  /** The fare row an UPDATE statement finds: its own uncommitted version, or the committed one. */
  function Current(db: Db, tx: Tx): map<FareKey, Fare> {
    db.fares + tx.written
  }

  ghost function OnSelectSegment(db: Db, locks: Locks, t: TxId, tx: Tx): Decision
    requires Schema(db)
  {
    if tx.sel.segment !in db.segments then Rollback
    else
      var seg := db.segments[tx.sel.segment];
      if Free(locks, t, SegmentRow(tx.sel.segment)) && Free(locks, t, ReservationRow(seg.reservation)) then
        Proceed({SegmentRow(tx.sel.segment), ReservationRow(seg.reservation)},
                tx.(seg := seg, res := db.reservations[seg.reservation], pc := SelectTarget))
      else Wait
  }

  ghost function OnSelectTarget(db: Db, locks: Locks, t: TxId, tx: Tx): Decision {
    var target := tx.sel.target;
    if target !in db.fares then Rollback
    else if Free(locks, t, FlightRow(target.flight)) && Free(locks, t, FareRow(target)) then
      Proceed({FlightRow(target.flight), FareRow(target)}, tx.(fare := db.fares[target], pc := SelectCredit))
    else Wait
  }

  ghost function OnSelectCredit(db: Db, locks: Locks, t: TxId, tx: Tx): Decision {
    match tx.sel.credit
    case None => Proceed({}, tx.(pc := Check))
    case Some(c) =>
      if c !in db.credits || db.credits[c].customer != tx.res.customer then Rollback
      else if Free(locks, t, CreditRowOf(c)) then Proceed({CreditRowOf(c)}, tx.(credit := db.credits[c], pc := Check))
      else Wait
  }

  /** The validation sees the rows as the transaction read them. */
  ghost function OnCheck(db: Db, tx: Tx, now: int): Decision
    requires Schema(Seen(db, tx))
  {
    var seen := Seen(db, tx);
    var snap, credit := ReadSnapshot(seen, tx.sel), ReadOwnCredit(seen, tx.sel, tx.res.customer);
    if snap.Err? || credit.Err? then Rollback
    else
      var checked := Validate(tx.sel, snap.value, credit.value, now);
      if checked.Err? then Rollback
      else Proceed({}, tx.(v := checked.value, now := now, pc := TakeSeats))
  }

  ghost function OnTakeSeats(db: Db, tx: Tx): Decision {
    var fares, target := Current(db, tx), tx.sel.target;
    if target in fares && fares[target].seats >= tx.v.passengers then
      Proceed({}, tx.(pc := ReturnSeats,
          written := tx.written[target := AddSeats(fares, target, -tx.v.passengers)[target]]))
    else Proceed({}, tx.(pc := ReturnSeats))
  }

  ghost function OnReturnSeats(db: Db, locks: Locks, t: TxId, tx: Tx): Decision {
    var fares, before := Current(db, tx), tx.v.before;
    if before !in fares then Proceed({}, tx.(pc := Commit))
    else if Free(locks, t, FareRow(before)) then
      Proceed({FareRow(before)},
              tx.(pc := Commit, written := tx.written[before := AddSeats(fares, before, tx.v.passengers)[before]]))
    else Wait
  }

  /** The next statement of transaction t. In a state that never arises, where the rows read
      do not fit the tables, the transaction rolls back. */
  ghost function Decide(db: Db, locks: Locks, t: TxId, tx: Tx, now: int): Decision {
    match tx.pc
    case SelectSegment => if Schema(db) then OnSelectSegment(db, locks, t, tx) else Rollback
    case SelectTarget => OnSelectTarget(db, locks, t, tx)
    case SelectCredit => OnSelectCredit(db, locks, t, tx)
    case Check => if Schema(Seen(db, tx)) then OnCheck(db, tx, now) else Rollback
    case TakeSeats => OnTakeSeats(db, tx)
    case ReturnSeats => OnReturnSeats(db, locks, t, tx)
    case Commit => Publish
  }

  /** Carry the decision out; a statement that has to wait changes nothing. */
  ghost function Carry(w: World, t: TxId, d: Decision): World
    requires t in w.txs
  {
    var tx := w.txs[t];
    match d
    case Wait => w
    case Rollback => w.(locks := Released(w.locks, t), txs := w.txs - {t})
    case Proceed(rows, next) => w.(locks := Taken(w.locks, t, rows), txs := w.txs[t := next])
    case Publish =>
      w.(db := Committed(w.db, tx), locks := Released(w.locks, t), txs := w.txs - {t},
         committed := w.committed + [Request(tx.sel, tx.now)])
  }

  /** The remaining statements touch only rows that the transaction holds; then its writes become visible. */
  function Committed(db: Db, tx: Tx): Db {
    var sel, v := tx.sel, tx.v;
    db.(fares := Current(db, tx),
        segments := if sel.segment in db.segments
                    then db.segments[sel.segment := Segment(db.segments[sel.segment].reservation, v.after, Changed,
                        v.newPrice, v.currency)]
                    else db.segments,
        reservations := if v.reservation in db.reservations
                        then db.reservations[v.reservation := db.reservations[v.reservation].(
                               total := db.reservations[v.reservation].total + v.difference + v.fee - v.creditUsed)]
                        else db.reservations,
        credits := if sel.credit.Some? && sel.credit.value in db.credits
                      && db.credits[sel.credit.value].remaining >= sel.amount
                   then db.credits[sel.credit.value := db.credits[sel.credit.value].(
                          remaining := db.credits[sel.credit.value].remaining - sel.amount,
                          status := if db.credits[sel.credit.value].remaining - sel.amount == 0 then Used
                              else PartiallyUsed)]
                   else db.credits,
        changes := db.changes + [Change(sel.segment, v.before, v.after, v.difference, v.fee, v.creditUsed, v.currency)])
  }

  datatype Step = Begin(sel: Selection) | Run(tx: TxId, now: int) | Fail(tx: TxId)

  /** Placeholder values for rows that have not been read yet. */
  const Unread := Tx(Selection(0, FareKey(0, 0), None, 0), SelectSegment,
                     Segment(0, FareKey(0, 0), SegmentStatus.Confirmed, 0, ""),
                     Reservation(0, ReservationStatus.Confirmed, 0, 0), Fare(0, "", 0),
                     Credit(0, 0, "", Available, 0), 0,
                     Validation(0, FareKey(0, 0), FareKey(0, 0), 0, 0, 0, 0, 0, "", 0), map[])

  ghost function Next(w: World, step: Step): World {
    match step
    case Begin(sel) => w.(txs := w.txs[w.next := Unread.(sel := sel)], next := w.next + 1)
    case Run(t, now) => if t in w.txs then Carry(w, t, Decide(w.db, w.locks, t, w.txs[t], now)) else w
    case Fail(t) => if t in w.txs then Carry(w, t, Rollback) else w
  }

  ghost function RunAll(db: Db, steps: seq<Step>): World {
    if steps == [] then World(db, map[], map[], 0, [])
    else Next(RunAll(db, steps[..|steps| - 1]), steps[|steps| - 1])
  }

  /** What a transaction knows: its locked rows still are as it read them, so its validation
      still stands, and its uncommitted fares are those of the committed ones moved. */
  ghost predicate Knows(db: Db, locks: Locks, t: TxId, tx: Tx)
    requires Schema(db)
  {
    var sel, at := tx.sel, tx.pc.Index();
    && (at > 0 ==>
          && Owns(locks, t, SegmentRow(sel.segment)) && sel.segment in db.segments && tx.seg == db.segments[sel.segment]
          && Owns(locks, t, ReservationRow(tx.seg.reservation)) && tx.res == db.reservations[tx.seg.reservation])
    && (at > 1 ==>
          && Owns(locks, t, FlightRow(sel.target.flight)) && Owns(locks, t, FareRow(sel.target))
          && sel.target in db.fares && tx.fare == db.fares[sel.target])
    && (at > 2 && sel.credit.Some? ==>
          && Owns(locks, t, CreditRowOf(sel.credit.value)) && sel.credit.value in db.credits
          && tx.credit == db.credits[sel.credit.value])
    && (at > 3 ==> Accepts(db, sel, tx.now) && Matches(db, sel, tx.v))
    && (at <= 4 ==> tx.written == map[])
    && (at == 5 ==> tx.written == map[sel.target := AddSeats(db.fares, sel.target, -tx.v.passengers)[sel.target]])
    && (at == 6 ==>
          && tx.written == MovedRows(db.fares, sel.target, tx.v.before, tx.v.passengers)
          && (tx.v.before in db.fares ==> Owns(locks, t, FareRow(tx.v.before))))
  }

  /** The two fare rows of a transaction after its seats have moved. */
  ghost function MovedRows(fares: map<FareKey, Fare>, target: FareKey, before: FareKey, n: int): map<FareKey, Fare>
    requires target in fares
  {
    map k | k in {target, before} && k in fares :: MoveSeats(fares, target, before, n)[k]
  }

  ghost predicate Inv(w: World) {
    && Schema(w.db)
    && (forall t | t in w.txs :: t < w.next && Knows(w.db, w.locks, t, w.txs[t]))
    && (forall row | row in w.locks :: w.locks[row] in w.txs)
  }

  lemma MovedRowsAreTheMove(fares: map<FareKey, Fare>, target: FareKey, before: FareKey, n: int)
    requires target in fares
    ensures fares + MovedRows(fares, target, before, n) == MoveSeats(fares, target, before, n)
  {
  }

  lemma CommittedIsRebooked(db: Db, tx: Tx)
    requires Schema(db) && Accepts(db, tx.sel, tx.now) && Matches(db, tx.sel, tx.v)
    requires Current(db, tx) == Rebooked(db, tx.sel).fares
    ensures Committed(db, tx) == Rebooked(db, tx.sel)
  {
  }

  /** A transaction that has passed its check commits exactly what it would do alone on the committed tables. */
  lemma CommitIsSerial(db: Db, locks: Locks, t: TxId, tx: Tx)
    requires Schema(db) && Knows(db, locks, t, tx) && tx.pc == Commit
    ensures Accepts(db, tx.sel, tx.now) && Committed(db, tx) == Rebooked(db, tx.sel)
  {
    SeatsMove(db, tx.sel);
    MovedRowsAreTheMove(db.fares, tx.sel.target, tx.v.before, tx.v.passengers);
    CommittedIsRebooked(db, tx);
  }

  /** A row has the same content in both databases. */
  ghost predicate SameRow(a: Db, b: Db, row: Row) {
    match row
    case SegmentRow(s) => s in a.segments ==> s in b.segments && a.segments[s] == b.segments[s]
    case ReservationRow(r) => r in a.reservations ==> r in b.reservations && a.reservations[r] == b.reservations[r]
    case FlightRow(f) => true
    case FareRow(k) => k in a.fares ==> k in b.fares && a.fares[k] == b.fares[k]
    case CreditRowOf(c) => c in a.credits ==> c in b.credits && a.credits[c] == b.credits[c]
  }

  /** Transaction u keeps its locks, and the rows under them keep their content. */
  ghost predicate Undisturbed(db: Db, locks: Locks, db': Db, locks': Locks, u: TxId) {
    && Schema(db') && db'.flights == db.flights && db'.classes == db.classes && db'.fares.Keys == db.fares.Keys
    && (forall row | Owns(locks, u, row) :: Owns(locks', u, row) && SameRow(db, db', row))
  }

  lemma KnowsFrame(db: Db, locks: Locks, db': Db, locks': Locks, u: TxId, tx: Tx)
    requires Schema(db) && Undisturbed(db, locks, db', locks', u) && Knows(db, locks, u, tx)
    ensures Knows(db', locks', u, tx)
  {
    var sel := tx.sel;
    if tx.pc.Index() > 0 {
      assert SameRow(db, db', SegmentRow(sel.segment)) && SameRow(db, db', ReservationRow(tx.seg.reservation));
    }
    if tx.pc.Index() > 1 {
      assert SameRow(db, db', FareRow(sel.target));
    }
    if tx.pc.Index() > 2 && sel.credit.Some? {
      assert SameRow(db, db', CreditRowOf(sel.credit.value));
    }
    if tx.pc.Index() > 5 && tx.v.before in db.fares {
      assert SameRow(db, db', FareRow(tx.v.before));
    }
    if tx.pc.Index() > 5 {
      assert MovedRows(db.fares, sel.target, tx.v.before, tx.v.passengers)
             == MovedRows(db'.fares, sel.target, tx.v.before, tx.v.passengers);
    }
  }

  /** A commit only changes rows that the committing transaction holds. */
  lemma CommitTouchesOwnRows(db: Db, locks: Locks, t: TxId, tx: Tx, row: Row)
    requires Schema(db) && Knows(db, locks, t, tx) && tx.pc == Commit && !Owns(locks, t, row)
    ensures SameRow(db, Rebooked(db, tx.sel), row)
  {
  }

  lemma CommitDisturbsNobody(db: Db, locks: Locks, t: TxId, tx: Tx, u: TxId)
    requires Schema(db) && Knows(db, locks, t, tx) && tx.pc == Commit && u != t
    ensures Undisturbed(db, locks, Committed(db, tx), Released(locks, t), u)
  {
    CommitIsSerial(db, locks, t, tx);
    ExecuteKeepsSchema(db, Request(tx.sel, tx.now));
    forall row | Owns(locks, u, row) ensures SameRow(db, Committed(db, tx), row) {
      CommitTouchesOwnRows(db, locks, t, tx, row);
    }
  }

  // Every statement keeps what its own transaction knows.

  /** The decision leads to a state of the transaction that it may be in. */
  ghost predicate Sound(db: Db, locks: Locks, t: TxId, d: Decision)
    requires Schema(db)
  {
    d.Proceed? ==> (forall row | row in d.rows :: Free(locks, t, row)) && Knows(db, Taken(locks, t, d.rows), t, d.tx)
  }

  lemma StillOwns(locks: Locks, t: TxId, rows: set<Row>)
    ensures forall row | Owns(locks, t, row) || row in rows :: Owns(Taken(locks, t, rows), t, row)
  {
  }

  lemma SelectsAreSound(db: Db, locks: Locks, t: TxId, tx: Tx, now: int)
    requires Schema(db) && Knows(db, locks, t, tx) && tx.pc.Index() < 3
    ensures Sound(db, locks, t, Decide(db, locks, t, tx, now))
  {
    var d := Decide(db, locks, t, tx, now);
    if d.Proceed? {
      StillOwns(locks, t, d.rows);
    }
  }

  lemma CheckIsSound(db: Db, locks: Locks, t: TxId, tx: Tx, now: int)
    requires Schema(db) && Knows(db, locks, t, tx) && tx.pc == Check
    ensures Sound(db, locks, t, Decide(db, locks, t, tx, now))
  {
    assert Seen(db, tx) == db;
    var snap, credit := ReadSnapshot(db, tx.sel), ReadOwnCredit(db, tx.sel, tx.res.customer);
    StillOwns(locks, t, {});
    if snap.Ok? && credit.Ok? {
      ValidateIsExact(db, tx.sel, now, snap.value, credit.value);
    }
  }

  lemma TakeIsSound(db: Db, locks: Locks, t: TxId, tx: Tx, now: int)
    requires Schema(db) && Knows(db, locks, t, tx) && tx.pc == TakeSeats
    ensures Sound(db, locks, t, Decide(db, locks, t, tx, now))
  {
    assert Current(db, tx) == db.fares;
    StillOwns(locks, t, {});
  }

  lemma ReturnedRows(fares: map<FareKey, Fare>, target: FareKey, before: FareKey, n: int)
    requires target in fares
    ensures var taken := AddSeats(fares, target, -n);
            && fares + map[target := taken[target]] == taken
            && MovedRows(fares, target, before, n)
               == if before in fares then map[target := taken[target]][before := AddSeats(taken, before, n)[before]]
                  else map[target := taken[target]]
  {
  }

  lemma ReturnIsSound(db: Db, locks: Locks, t: TxId, tx: Tx, now: int)
    requires Schema(db) && Knows(db, locks, t, tx) && tx.pc == ReturnSeats
    ensures Sound(db, locks, t, Decide(db, locks, t, tx, now))
  {
    ReturnedRows(db.fares, tx.sel.target, tx.v.before, tx.v.passengers);
    var d := Decide(db, locks, t, tx, now);
    if d.Proceed? {
      StillOwns(locks, t, d.rows);
    }
  }

  lemma DecisionsAreSound(db: Db, locks: Locks, t: TxId, tx: Tx, now: int)
    requires Schema(db) && Knows(db, locks, t, tx)
    ensures Sound(db, locks, t, Decide(db, locks, t, tx, now))
  {
    if tx.pc.Index() < 3 {
      SelectsAreSound(db, locks, t, tx, now);
    } else if tx.pc == Check {
      CheckIsSound(db, locks, t, tx, now);
    } else if tx.pc == TakeSeats {
      TakeIsSound(db, locks, t, tx, now);
    } else if tx.pc == ReturnSeats {
      ReturnIsSound(db, locks, t, tx, now);
    }
  }

  // The invariant over all transactions.

  lemma InvPublish(w: World, t: TxId)
    requires Inv(w) && t in w.txs && w.txs[t].pc == Commit
    ensures Inv(Carry(w, t, Publish))
  {
    var tx, n := w.txs[t], Carry(w, t, Publish);
    CommitIsSerial(w.db, w.locks, t, tx);
    ExecuteKeepsSchema(w.db, Request(tx.sel, tx.now));
    forall u | u in n.txs ensures Knows(n.db, n.locks, u, n.txs[u]) {
      CommitDisturbsNobody(w.db, w.locks, t, tx, u);
      KnowsFrame(w.db, w.locks, n.db, n.locks, u, w.txs[u]);
    }
  }

  lemma InvRollback(w: World, t: TxId)
    requires Inv(w) && t in w.txs
    ensures Inv(Carry(w, t, Rollback))
  {
    var n := Carry(w, t, Rollback);
    forall u | u in n.txs ensures Knows(n.db, n.locks, u, n.txs[u]) {
      KnowsFrame(w.db, w.locks, n.db, n.locks, u, w.txs[u]);
    }
  }

  lemma TakingDisturbsNobody(db: Db, locks: Locks, t: TxId, rows: set<Row>, u: TxId)
    requires Schema(db) && u != t && (forall row | row in rows :: Free(locks, t, row))
    ensures Undisturbed(db, locks, db, Taken(locks, t, rows), u)
  {
  }

  lemma InvProceed(w: World, t: TxId, d: Decision)
    requires Inv(w) && t in w.txs && Sound(w.db, w.locks, t, d) && d.Proceed?
    ensures Inv(Carry(w, t, d))
  {
    var n := Carry(w, t, d);
    forall u | u in n.txs && u != t ensures Knows(n.db, n.locks, u, n.txs[u]) {
      TakingDisturbsNobody(w.db, w.locks, t, d.rows, u);
      KnowsFrame(w.db, w.locks, n.db, n.locks, u, w.txs[u]);
    }
  }

  /** Only a transaction at its end publishes its writes. */
  lemma OnlyTheEndPublishes(db: Db, locks: Locks, t: TxId, tx: Tx, now: int)
    ensures Decide(db, locks, t, tx, now).Publish? <==> tx.pc == Commit
  {
  }

  lemma InvCarry(w: World, t: TxId, d: Decision)
    requires Inv(w) && t in w.txs && Sound(w.db, w.locks, t, d) && (d.Publish? ==> w.txs[t].pc == Commit)
    ensures Inv(Carry(w, t, d))
  {
    match d
    case Wait =>
    case Rollback => InvRollback(w, t);
    case Proceed(_, _) => InvProceed(w, t, d);
    case Publish => InvPublish(w, t);
  }

  lemma InvStep(w: World, step: Step)
    requires Inv(w)
    ensures Inv(Next(w, step))
  {
    match step
    case Begin(sel) =>
    case Run(t, now) =>
      if t in w.txs {
        DecisionsAreSound(w.db, w.locks, t, w.txs[t], now);
        OnlyTheEndPublishes(w.db, w.locks, t, w.txs[t], now);
        InvCarry(w, t, Decide(w.db, w.locks, t, w.txs[t], now));
      }
    case Fail(t) => if t in w.txs { InvCarry(w, t, Rollback); }
  }

  lemma {:induction false} InvRun(db: Db, steps: seq<Step>)
    requires Schema(db)
    ensures Inv(RunAll(db, steps))
  {
    if steps != [] {
      InvRun(db, steps[..|steps| - 1]);
      InvStep(RunAll(db, steps[..|steps| - 1]), steps[|steps| - 1]);
    }
  }

  /** The step leaves the committed tables alone, or commits the accepted request r. */
  ghost predicate Commits(w: World, n: World, r: Option<Request>)
    requires Schema(w.db)
  {
    match r
    case None => n.db == w.db && n.committed == w.committed
    case Some(q) => n.committed == w.committed + [q] && Accepts(w.db, q.selection, q.now) && n.db == Execute(w.db, q)
  }

  lemma CarryCommits(w: World, t: TxId, d: Decision) returns (r: Option<Request>)
    requires Inv(w) && t in w.txs && (d.Publish? ==> w.txs[t].pc == Commit)
    ensures Commits(w, Carry(w, t, d), r)
  {
    if d.Publish? {
      CommitIsSerial(w.db, w.locks, t, w.txs[t]);
      r := Some(Request(w.txs[t].sel, w.txs[t].now));
    } else {
      r := None;
    }
  }

  lemma StepCommits(w: World, step: Step) returns (r: Option<Request>)
    requires Inv(w)
    ensures Commits(w, Next(w, step), r)
  {
    r := None;
    if step.Run? && step.tx in w.txs {
      OnlyTheEndPublishes(w.db, w.locks, step.tx, w.txs[step.tx], step.now);
      r := CarryCommits(w, step.tx, Decide(w.db, w.locks, step.tx, w.txs[step.tx], step.now));
    } else if step.Fail? && step.tx in w.txs {
      r := CarryCommits(w, step.tx, Rollback);
    }
  }

  /** Every request of the history is accepted when its turn comes. */
  ghost predicate AllAccepted(db: Db, requests: seq<Request>)
    requires Schema(db)
  {
    requests != [] ==>
      var before, last := requests[..|requests| - 1], requests[|requests| - 1];
      AllAccepted(db, before) && Accepts(ExecuteAll(db, before), last.selection, last.now)
  }

  lemma AllAcceptedSnoc(db: Db, requests: seq<Request>, r: Request)
    requires Schema(db) && AllAccepted(db, requests) && Accepts(ExecuteAll(db, requests), r.selection, r.now)
    ensures AllAccepted(db, requests + [r])
  {
    assert (requests + [r])[..|requests|] == requests;
  }

  lemma SerialStep(db: Db, requests: seq<Request>, w: World, n: World, r: Option<Request>)
    requires Schema(db) && Schema(w.db) && w.db == ExecuteAll(db, requests) && AllAccepted(db, requests)
    requires w.committed == requests && Commits(w, n, r)
    ensures n.db == ExecuteAll(db, n.committed) && AllAccepted(db, n.committed)
  {
    if r.Some? {
      ExecuteAllSnoc(db, requests, r.value);
      AllAcceptedSnoc(db, requests, r.value);
    }
  }

  /** However the statements of any number of transactions interleave, wait, fail and commit, the
      committed tables are those of the serial history in commit order, and every committed
      transaction is accepted in it. */
  lemma {:induction false} InterleavingsAreSerial(db: Db, steps: seq<Step>)
    requires Schema(db)
    ensures RunAll(db, steps).db == ExecuteAll(db, RunAll(db, steps).committed)
    ensures AllAccepted(db, RunAll(db, steps).committed)
  {
    if steps != [] {
      var before, step := steps[..|steps| - 1], steps[|steps| - 1];
      InterleavingsAreSerial(db, before);
      InvRun(db, before);
      var w := RunAll(db, before);
      var r := StepCommits(w, step);
      SerialStep(db, w.committed, w, Next(w, step), r);
    }
  }

  /** What serial histories keep is therefore also kept by interleaved ones. */
  lemma InterleavingsConserve(db: Db, steps: seq<Step>, k: FareKey, r: Id)
    requires Schema(db) && k in db.fares && r in db.reservations
    ensures var end := RunAll(db, steps).db;
            && k in end.fares && Conservation.SeatTotal(end, k) == Conservation.SeatTotal(db, k)
            && (Conservation.NoNegativeSeats(db) ==> Conservation.NoNegativeSeats(end))
            && r in end.reservations && Conservation.Ledger(end, r) == Conservation.Ledger(db, r)
            && Conservation.CreditTotal(end) == Conservation.CreditTotal(db)
            && (Conservation.NoNegativeCredit(db) ==> Conservation.NoNegativeCredit(end))
  {
    var history := RunAll(db, steps).committed;
    InterleavingsAreSerial(db, steps);
    Conservation.SeatsAreConserved(db, history, k);
    Conservation.LedgerIsConserved(db, history, r);
    Conservation.CreditsAreConserved(db, history);
  }
}
