/** The SQL transactions do commit: one that nobody else keeps waiting goes through its seven
    statements and books if and only if its selection is acceptable. */
module SqlProgress {
  import opened Prelude
  import opened Airline
  import opened Rebooking
  import opened SqlSerial

  /** The rows that the transaction reads for update or updates. */
  ghost function Needs(db: Db, sel: Selection): set<Row> {
    {SegmentRow(sel.segment), FlightRow(sel.target.flight), FareRow(sel.target)}
    + (if sel.credit.Some? then {CreditRowOf(sel.credit.value)} else {})
    + (if sel.segment in db.segments
       then {ReservationRow(db.segments[sel.segment].reservation), FareRow(db.segments[sel.segment].fare)} else {})
  }

  /** Nobody else holds a row that transaction t needs. */
  ghost predicate Unhindered(w: World, t: TxId, sel: Selection) {
    forall row | row in Needs(w.db, sel) :: Free(w.locks, t, row)
  }

  ghost predicate Ran(w: World, m: World, t: TxId, now: int) {
    m == Next(w, Run(t, now))
  }

  /** The worlds that transaction t passes through when it runs its statements in one go. */
  ghost predicate IsGo(run: seq<World>, t: TxId, now: int) {
    run != [] && forall i, k {:trigger Ran(run[i], run[k], t, now)} |
      0 <= i < k < |run| && k == i + 1 :: Ran(run[i], run[k], t, now)
  }

  lemma GoPrepends(w: World, run: seq<World>, t: TxId, now: int)
    requires IsGo(run, t, now) && Ran(w, run[0], t, now)
    ensures IsGo([w] + run, t, now)
  {
    var all := [w] + run;
    forall i, k | 0 <= i < k < |all| && k == i + 1 ensures Ran(all[i], all[k], t, now) {
      if i > 0 { assert Ran(run[i - 1], run[k - 1], t, now); }
    }
  }

  lemma GoneStays(w: World, t: TxId, now: int)
    requires t !in w.txs
    ensures Ran(w, w, t, now)
  {
  }

  lemma {:induction false} GoneStaysGone(w: World, t: TxId, now: int, n: nat) returns (run: seq<World>)
    requires t !in w.txs
    ensures IsGo(run, t, now) && |run| == n + 1 && run[0] == w == run[n]
  {
    run := [w];
    if n > 0 {
      var rest := GoneStaysGone(w, t, now, n - 1);
      GoneStays(w, t, now);
      GoPrepends(w, rest, t, now);
      run := [w] + rest;
    }
  }

  /** The transaction is over, holds nothing, and has booked if and only if it was acceptable. */
  ghost predicate Outcome(w: World, n: World, t: TxId, sel: Selection, now: int)
    requires Schema(w.db)
  {
    && n.txs == w.txs - {t} && n.next == w.next && n.locks == Released(w.locks, t)
    && n.db == Execute(w.db, Request(sel, now))
    && n.committed == w.committed + (if Accepts(w.db, sel, now) then [Request(sel, now)] else [])
  }

  /** What the next statement comes to when nobody holds a row that it needs. */
  ghost predicate GoesOn(w: World, t: TxId, now: int, d: Decision)
    requires Schema(w.db) && t in w.txs
  {
    var tx := w.txs[t];
    match d
    case Wait => false
    case Rollback => !Accepts(w.db, tx.sel, now)
    case Publish => tx.pc == Commit
    case Proceed(rows, next) =>
      && next.sel == tx.sel && next.pc.Index() == tx.pc.Index() + 1 && rows <= Needs(w.db, tx.sel)
      && (next.pc.Index() > 3 ==> next.now == now)
  }

  lemma NeedsItsRows(w: World, t: TxId, sel: Selection)
    requires Unhindered(w, t, sel)
    ensures Free(w.locks, t, SegmentRow(sel.segment)) && Free(w.locks, t, FlightRow(sel.target.flight))
    ensures Free(w.locks, t, FareRow(sel.target))
    ensures sel.credit.Some? ==> Free(w.locks, t, CreditRowOf(sel.credit.value))
    ensures sel.segment in w.db.segments ==>
              && Free(w.locks, t, ReservationRow(w.db.segments[sel.segment].reservation))
              && Free(w.locks, t, FareRow(w.db.segments[sel.segment].fare))
  {
    assert SegmentRow(sel.segment) in Needs(w.db, sel) && FlightRow(sel.target.flight) in Needs(w.db, sel);
    assert FareRow(sel.target) in Needs(w.db, sel);
    assert sel.credit.Some? ==> CreditRowOf(sel.credit.value) in Needs(w.db, sel);
    assert sel.segment in w.db.segments ==>
             && ReservationRow(w.db.segments[sel.segment].reservation) in Needs(w.db, sel)
             && FareRow(w.db.segments[sel.segment].fare) in Needs(w.db, sel);
  }

  lemma SelectsGoOn(w: World, t: TxId, now: int)
    requires Inv(w) && t in w.txs && Unhindered(w, t, w.txs[t].sel) && w.txs[t].pc.Index() < 3
    ensures GoesOn(w, t, now, Decide(w.db, w.locks, t, w.txs[t], now))
  {
    assert Knows(w.db, w.locks, t, w.txs[t]);
    NeedsItsRows(w, t, w.txs[t].sel);
  }

  lemma CheckDecides(db: Db, locks: Locks, t: TxId, tx: Tx, now: int)
    requires Schema(db) && Knows(db, locks, t, tx) && tx.pc == Check
    ensures var d := Decide(db, locks, t, tx, now);
            if Accepts(db, tx.sel, now)
            then d.Proceed? && d.rows == {} && d.tx == tx.(v := d.tx.v, now := now, pc := TakeSeats)
            else d.Rollback?
  {
    assert Seen(db, tx) == db;
    var snap, credit := ReadSnapshot(db, tx.sel), ReadOwnCredit(db, tx.sel, tx.res.customer);
    if credit.Ok? {
      ValidateIsExact(db, tx.sel, now, snap.value, credit.value);
    }
  }

  lemma CheckGoesOn(w: World, t: TxId, now: int)
    requires Inv(w) && t in w.txs && w.txs[t].pc == Check
    ensures GoesOn(w, t, now, Decide(w.db, w.locks, t, w.txs[t], now))
  {
    assert Knows(w.db, w.locks, t, w.txs[t]);
    CheckDecides(w.db, w.locks, t, w.txs[t], now);
  }

  lemma TakeGoesOn(w: World, t: TxId, now: int)
    requires Inv(w) && t in w.txs && Unhindered(w, t, w.txs[t].sel) && w.txs[t].pc == TakeSeats && w.txs[t].now == now
    ensures GoesOn(w, t, now, Decide(w.db, w.locks, t, w.txs[t], now))
  {
    assert Knows(w.db, w.locks, t, w.txs[t]);
    NeedsItsRows(w, t, w.txs[t].sel);
  }

  lemma ReturnGoesOn(w: World, t: TxId, now: int)
    requires Inv(w) && t in w.txs && Unhindered(w, t, w.txs[t].sel) && w.txs[t].pc == ReturnSeats && w.txs[t].now == now
    ensures GoesOn(w, t, now, Decide(w.db, w.locks, t, w.txs[t], now))
  {
    assert Knows(w.db, w.locks, t, w.txs[t]);
    NeedsItsRows(w, t, w.txs[t].sel);
  }

  lemma WritesGoOn(w: World, t: TxId, now: int)
    requires Inv(w) && t in w.txs && Unhindered(w, t, w.txs[t].sel) && w.txs[t].pc.Index() > 3 && w.txs[t].now == now
    ensures GoesOn(w, t, now, Decide(w.db, w.locks, t, w.txs[t], now))
  {
    if w.txs[t].pc == TakeSeats {
      TakeGoesOn(w, t, now);
    } else if w.txs[t].pc == ReturnSeats {
      ReturnGoesOn(w, t, now);
    }
  }

  lemma ReleasedAfterTaking(locks: Locks, t: TxId, rows: set<Row>)
    requires forall row | row in rows :: Free(locks, t, row)
    ensures Released(Taken(locks, t, rows), t) == Released(locks, t)
  {
  }

  lemma StatementGoesOn(w: World, t: TxId, now: int)
    requires Inv(w) && t in w.txs && Unhindered(w, t, w.txs[t].sel)
    requires w.txs[t].pc.Index() > 3 ==> w.txs[t].now == now
    ensures GoesOn(w, t, now, Decide(w.db, w.locks, t, w.txs[t], now))
  {
    if w.txs[t].pc.Index() < 3 {
      SelectsGoOn(w, t, now);
    } else if w.txs[t].pc == Check {
      CheckGoesOn(w, t, now);
    } else {
      WritesGoOn(w, t, now);
    }
  }

  lemma CommitEnds(w: World, t: TxId, now: int)
    requires Inv(w) && t in w.txs && w.txs[t].pc == Commit && w.txs[t].now == now
    ensures t !in Carry(w, t, Publish).txs && Outcome(w, Carry(w, t, Publish), t, w.txs[t].sel, now)
  {
    assert Knows(w.db, w.locks, t, w.txs[t]);
    CommitIsSerial(w.db, w.locks, t, w.txs[t]);
  }

  /** The step has changed nothing but how far transaction t has come and which rows it holds. */
  ghost predicate Passes(w: World, m: World, t: TxId) {
    && m.db == w.db && m.next == w.next && m.committed == w.committed
    && m.txs - {t} == w.txs - {t} && Released(m.locks, t) == Released(w.locks, t)
  }

  /** The transaction stands before its statement and nobody keeps it waiting. */
  ghost predicate Due(w: World, t: TxId, sel: Selection, now: int, at: nat) {
    && Inv(w) && t in w.txs && w.txs[t].sel == sel && w.txs[t].pc.Index() == at && Unhindered(w, t, sel)
    && (at > 3 ==> w.txs[t].now == now)
  }

  lemma ProceedPasses(w: World, t: TxId, rows: set<Row>, tx: Tx)
    requires t in w.txs && forall row | row in rows :: Free(w.locks, t, row)
    ensures Passes(w, Carry(w, t, Proceed(rows, tx)), t)
  {
    ReleasedAfterTaking(w.locks, t, rows);
    assert w.txs[t := tx] - {t} == w.txs - {t};
  }

  /** The transaction has come to its end, or stands before its next statement. */
  ghost predicate Turned(w: World, m: World, t: TxId, sel: Selection, now: int, at: nat)
    requires Schema(w.db)
  {
    if t in m.txs then Due(m, t, sel, now, at + 1) && Passes(w, m, t) else Outcome(w, m, t, sel, now)
  }

  lemma RollsBack(w: World, t: TxId, sel: Selection, now: int)
    requires Schema(w.db) && t in w.txs && !Accepts(w.db, sel, now)
    ensures t !in Carry(w, t, Rollback).txs && Outcome(w, Carry(w, t, Rollback), t, sel, now)
  {
  }

  lemma StaysDue(w: World, m: World, t: TxId, sel: Selection, now: int, rows: set<Row>, tx: Tx)
    requires Inv(m) && t in w.txs && m == Carry(w, t, Proceed(rows, tx)) && Unhindered(w, t, sel)
    requires tx.sel == sel && (tx.pc.Index() > 3 ==> tx.now == now)
    ensures Due(m, t, sel, now, tx.pc.Index())
  {
    forall row | row in Needs(m.db, sel) ensures Free(m.locks, t, row) { assert row in Needs(w.db, sel); }
  }

  lemma Decides(w: World, m: World, t: TxId, now: int) returns (d: Decision)
    requires Inv(w) && t in w.txs && Unhindered(w, t, w.txs[t].sel) && Ran(w, m, t, now)
    requires w.txs[t].pc.Index() > 3 ==> w.txs[t].now == now
    ensures GoesOn(w, t, now, d) && m == Carry(w, t, d) && Inv(m)
  {
    d := Decide(w.db, w.locks, t, w.txs[t], now);
    StatementGoesOn(w, t, now);
    InvStep(w, Run(t, now));
  }

  lemma TurnByProceeding(w: World, m: World, t: TxId, sel: Selection, now: int, at: nat, rows: set<Row>, tx: Tx)
    requires Due(w, t, sel, now, at) && m == Carry(w, t, Proceed(rows, tx)) && Inv(m)
    requires GoesOn(w, t, now, Proceed(rows, tx))
    ensures Turned(w, m, t, sel, now, at)
  {
    StaysDue(w, m, t, sel, now, rows, tx);
    ProceedPasses(w, t, rows, tx);
  }

  lemma TurnByCommit(w: World, m: World, t: TxId, sel: Selection, now: int, at: nat)
    requires Due(w, t, sel, now, at) && m == Carry(w, t, Publish) && w.txs[t].pc == Commit
    ensures Turned(w, m, t, sel, now, at)
  {
    CommitEnds(w, t, now);
  }

  lemma OneTurn(w: World, m: World, t: TxId, sel: Selection, now: int, at: nat)
    requires Due(w, t, sel, now, at) && Ran(w, m, t, now)
    ensures Turned(w, m, t, sel, now, at)
  {
    var d := Decides(w, m, t, now);
    match d
    case Rollback => RollsBack(w, t, sel, now);
    case Publish => TurnByCommit(w, m, t, sel, now, at);
    case Proceed(rows, tx) => TurnByProceeding(w, m, t, sel, now, at, rows, tx);
  }

  lemma OutcomePasses(w: World, m: World, n: World, t: TxId, sel: Selection, now: int)
    requires Schema(w.db) && Passes(w, m, t) && Outcome(m, n, t, sel, now)
    ensures Outcome(w, n, t, sel, now)
  {
  }

  lemma {:induction false} GoFinishes(w: World, t: TxId, sel: Selection, now: int, at: nat, n: nat)
    returns (run: seq<World>)
    requires Due(w, t, sel, now, at) && n + at == 7 && n > 0
    ensures IsGo(run, t, now) && |run| == n + 1 && run[0] == w
    ensures Schema(w.db) && Outcome(w, run[n], t, sel, now)
    decreases n, 1
  {
    var m := Next(w, Run(t, now));
    OneTurn(w, m, t, sel, now, at);
    run := GoOn(w, m, t, sel, now, at, n);
    GoPrepends(w, run, t, now);
    run := [w] + run;
  }

  lemma {:induction false} GoOn(w: World, m: World, t: TxId, sel: Selection, now: int, at: nat, n: nat)
    returns (run: seq<World>)
    requires Schema(w.db) && Turned(w, m, t, sel, now, at) && n + at == 7 && n > 0
    ensures IsGo(run, t, now) && |run| == n && run[0] == m && Outcome(w, run[n - 1], t, sel, now)
    decreases n, 0
  {
    if t in m.txs {
      assert at + 1 <= 6;
      run := GoFinishes(m, t, sel, now, at + 1, n - 1);
      OutcomePasses(w, m, run[n - 1], t, sel, now);
    } else {
      run := GoneStaysGone(m, t, now, n - 1);
    }
  }

  /** The steps of a transaction that runs its n statements in one go. */
  function InOneGo(t: TxId, now: int, n: nat): seq<Step> {
    if n == 0 then [] else [Run(t, now)] + InOneGo(t, now, n - 1)
  }

  lemma RunAllSnoc(db: Db, steps: seq<Step>, step: Step)
    ensures RunAll(db, steps + [step]) == Next(RunAll(db, steps), step)
  {
    assert (steps + [step])[..|steps|] == steps;
  }

  lemma FirstOfTheGo(steps: seq<Step>, t: TxId, now: int, n: nat)
    requires n > 0
    ensures steps + InOneGo(t, now, n) == steps + [Run(t, now)] + InOneGo(t, now, n - 1)
  {
  }

  lemma {:induction false} GoIsASchedule(db: Db, steps: seq<Step>, run: seq<World>, t: TxId, now: int)
    requires IsGo(run, t, now) && RunAll(db, steps) == run[0]
    ensures RunAll(db, steps + InOneGo(t, now, |run| - 1)) == run[|run| - 1]
    decreases |run|
  {
    if |run| == 1 {
      assert steps + [] == steps;
    } else {
      assert Ran(run[0], run[1], t, now);
      RunAllSnoc(db, steps, Run(t, now));
      FirstOfTheGo(steps, t, now, |run| - 1);
      GoShortens(run, t, now);
      GoIsASchedule(db, steps + [Run(t, now)], run[1..], t, now);
    }
  }

  lemma GoShortens(run: seq<World>, t: TxId, now: int)
    requires IsGo(run, t, now) && |run| > 1
    ensures IsGo(run[1..], t, now)
  {
    forall i, k | 0 <= i < k < |run[1..]| && k == i + 1 ensures Ran(run[1..][i], run[1..][k], t, now) {
      assert Ran(run[i + 1], run[k + 1], t, now);
    }
  }

  lemma Begins(w: World, sel: Selection, now: int)
    requires Inv(w) && forall row | row in Needs(w.db, sel) :: row !in w.locks
    ensures Due(Next(w, Begin(sel)), w.next, sel, now, 0)
  {
    InvStep(w, Begin(sel));
  }

  lemma EndsAsItBegan(w: World, n: World, sel: Selection, now: int)
    requires Inv(w) && Outcome(Next(w, Begin(sel)), n, w.next, sel, now)
    ensures n.txs == w.txs && n.locks == w.locks
    ensures n.db == Execute(w.db, Request(sel, now))
    ensures n.committed == w.committed + if Accepts(w.db, sel, now) then [Request(sel, now)] else []
  {
    assert w.txs[w.next := Unread.(sel := sel)] - {w.next} == w.txs;
    assert Released(w.locks, w.next) == w.locks;
  }

  /** From every reachable world, whatever else is going on: a new transaction none of whose rows is
      locked, and which runs its seven statements in one go, commits exactly its rebooking if the
      selection is acceptable on the committed tables, and otherwise leaves them alone; either way
      it is over, and all locks are as before. */
  lemma UnhinderedTransactionsDecide(db: Db, steps: seq<Step>, sel: Selection, now: int)
    requires Schema(db) && forall row | row in Needs(RunAll(db, steps).db, sel) :: row !in RunAll(db, steps).locks
    ensures Schema(RunAll(db, steps).db)
    ensures var w := RunAll(db, steps);
            var n := RunAll(db, steps + [Begin(sel)] + InOneGo(w.next, now, 7));
            && n.txs == w.txs && n.locks == w.locks && n.db == Execute(w.db, Request(sel, now))
            && n.committed == w.committed + if Accepts(w.db, sel, now) then [Request(sel, now)] else []
  {
    var w := RunAll(db, steps);
    InvRun(db, steps);
    Begins(w, sel, now);
    RunAllSnoc(db, steps, Begin(sel));
    var run := GoFinishes(Next(w, Begin(sel)), w.next, sel, now, 0, 7);
    GoIsASchedule(db, steps + [Begin(sel)], run, w.next, now);
    EndsAsItBegan(w, run[7], sel, now);
  }

  /** From the tables alone: the schedule of one transaction books if and only if it is acceptable. */
  lemma ALoneTransactionDecides(db: Db, sel: Selection, now: int)
    requires Schema(db)
    ensures var n := RunAll(db, [Begin(sel)] + InOneGo(0, now, 7));
            && n.db == Execute(db, Request(sel, now)) && n.txs == map[] && n.locks == map[]
            && n.committed == if Accepts(db, sel, now) then [Request(sel, now)] else []
  {
    UnhinderedTransactionsDecide(db, [], sel, now);
    assert [] + [Begin(sel)] + InOneGo(0, now, 7) == [Begin(sel)] + InOneGo(0, now, 7);
  }

  /** Two transactions under way never share a row: not the segment or the reservation once they have
      read it, nor the flight and the fare they go to, nor the credit. */
  lemma RowsAreExclusive(db: Db, steps: seq<Step>, t: TxId, u: TxId)
    requires Schema(db) && t != u && t in RunAll(db, steps).txs && u in RunAll(db, steps).txs
    ensures var a, b := RunAll(db, steps).txs[t], RunAll(db, steps).txs[u];
            && (a.pc.Index() > 0 && b.pc.Index() > 0 ==>
                  a.sel.segment != b.sel.segment && a.seg.reservation != b.seg.reservation)
            && (a.pc.Index() > 1 && b.pc.Index() > 1 ==> a.sel.target.flight != b.sel.target.flight)
            && (a.pc.Index() > 2 && b.pc.Index() > 2 && a.sel.credit.Some? ==> a.sel.credit != b.sel.credit)
  {
    InvRun(db, steps);
    var w := RunAll(db, steps);
    assert Knows(w.db, w.locks, t, w.txs[t]) && Knows(w.db, w.locks, u, w.txs[u]);
  }
}
