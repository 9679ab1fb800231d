/** Deadlock freedom of the ORM rebooking transactions: new row locks are taken in one
    global order, and only locks already held are taken again. */
module LockOrder {
  import opened Prelude
  import opened Sums
  import opened Airline

  type TxId = nat

  datatype Row = SegmentLock(id: Id) | CreditLock(id: Id) | FareLock(key: FareKey) | ReservationLock(id: Id) {
    function Kind(): nat {
      match this
      case SegmentLock(_) => 0
      case CreditLock(_) => 1
      case FareLock(_) => 2
      case ReservationLock(_) => 3
    }
  }

  /** The order of the string forms of the two ids of a fare, as the sort in `_lock_fares` uses it. */
  predicate FareLess(a: FareKey, b: FareKey) {
    a.flight < b.flight || (a.flight == b.flight && a.fareClass < b.fareClass)
  }

  /** Segments first, then credits, fares and reservations; fares by key. */
  predicate Below(a: Row, b: Row) {
    a.Kind() < b.Kind() || (a.FareLock? && b.FareLock? && FareLess(a.key, b.key))
  }

  /** `_lock_fares`: both fares, without repetition, in order. */
  function SortedFares(a: FareKey, b: FareKey): (keys: seq<FareKey>)
    ensures forall k :: k in keys <==> k == a || k == b
    ensures forall i, j | 0 <= i < j < |keys| :: FareLess(keys[i], keys[j])
  {
    if a == b then [a] else if FareLess(a, b) then [a, b] else [b, a]
  }

  /** A running transaction. `before` is the segment's fare, read under the segment lock, and
      `done` counts the locking statements that have gone through. */
  datatype Tx = Tx(segment: Id, credit: Option<Id>, target: FareKey, reservation: Id, before: FareKey, done: nat) {

    function CreditRows(): seq<Row> {
      if credit.Some? then [CreditLock(credit.value)] else []
    }

    function FareRows(): seq<Row> {
      var keys := SortedFares(before, target);
      seq(|keys|, i requires 0 <= i < |keys| => FareLock(keys[i]))
    }

    /** The rows that `execute` locks, statement by statement: the first snapshot, the sorted
        fares, the second snapshot, the target and the old fare again, the reservation when the
        session is flushed, and the credit again. */
    function Requests(): seq<Row> {
      [SegmentLock(segment)] + CreditRows() + FareRows()
      + [SegmentLock(segment)] + CreditRows() + [FareLock(target), FareLock(before)]
      + [ReservationLock(reservation)] + CreditRows()
    }
  }

  /** The lock discipline: a row that is not held yet lies above every row already held. */
  lemma NewLocksAscend(tx: Tx, i: nat, j: nat)
    requires i < j < |tx.Requests()| && tx.Requests()[j] !in tx.Requests()[..j]
    ensures Below(tx.Requests()[i], tx.Requests()[j])
  {
    var r := tx.Requests();
    assert r[0] == SegmentLock(tx.segment) && r[0] in r[..j];
    var keys := SortedFares(tx.before, tx.target);
    assert tx.FareRows()[0] == FareLock(keys[0]);
    assert tx.credit.Some? ==> r[1] == CreditLock(tx.credit.value) && (j > 1 ==> r[1] in r[..j]);
    var f := if tx.credit.Some? then 2 else 1;
    assert r[f] == FareLock(keys[0]) && (j > f ==> r[f] in r[..j]);
    assert |keys| == 2 ==> r[f + 1] == FareLock(keys[1]) && (j > f + 1 ==> r[f + 1] in r[..j]);
  }

  datatype World = World(held: map<Row, TxId>, txs: map<TxId, Tx>, booking: map<Id, FareKey>, next: TxId)

  predicate Waits(w: World, t: TxId)
    requires t in w.txs
  {
    var tx := w.txs[t];
    tx.done < |tx.Requests()| && tx.Requests()[tx.done] in w.held && w.held[tx.Requests()[tx.done]] != t
  }

  function Released(held: map<Row, TxId>, t: TxId): map<Row, TxId> {
    map row | row in held && held[row] != t :: held[row]
  }

  function End(w: World, t: TxId): World {
    w.(held := Released(w.held, t), txs := w.txs - {t})
  }

  datatype Step =
    | Begin(segment: Id, credit: Option<Id>, target: FareKey, reservation: Id)
    | Advance(tx: TxId)
    | Rollback(tx: TxId)

  /** The next statement of a transaction that does not wait: take the row, reading the old
      fare under the first lock, or commit the new booking after the last. */
  function Advanced(w: World, t: TxId): World
    requires t in w.txs && !Waits(w, t)
  {
    var tx := w.txs[t];
    if tx.done < |tx.Requests()| then
      var before := if tx.done == 0 && tx.segment in w.booking then w.booking[tx.segment] else tx.before;
      w.(held := w.held[tx.Requests()[tx.done] := t], txs := w.txs[t := tx.(before := before, done := tx.done + 1)])
    else End(w, t).(booking := w.booking[tx.segment := tx.target])
  }

  function Next(w: World, step: Step): World {
    match step
    case Begin(segment, credit, target, reservation) =>
      w.(txs := w.txs[w.next := Tx(segment, credit, target, reservation, target, 0)], next := w.next + 1)
    case Advance(t) => if t in w.txs && !Waits(w, t) then Advanced(w, t) else w
    case Rollback(t) => if t in w.txs then End(w, t) else w
  }

  function RunFrom(w: World, steps: seq<Step>): World {
    if steps == [] then w else Next(RunFrom(w, steps[..|steps| - 1]), steps[|steps| - 1])
  }

  /** A transaction holds exactly the rows it has asked for, and the fare it read under the
      segment lock still is the segment's fare. */
  ghost predicate Consistent(w: World, t: TxId)
    requires t in w.txs
  {
    var tx := w.txs[t];
    && t < w.next && tx.done <= |tx.Requests()|
    && (forall row :: row in tx.Requests()[..tx.done] <==> row in w.held && w.held[row] == t)
    && (tx.done > 0 && tx.segment in w.booking ==> w.booking[tx.segment] == tx.before)
  }

  ghost predicate Inv(w: World) {
    && (forall t | t in w.txs :: Consistent(w, t))
    && (forall row | row in w.held :: w.held[row] in w.txs)
  }

  /** The first statement locks the segment, whatever is still to be read. */
  lemma ConsistentFirst(w: World, t: TxId)
    requires t in w.txs && Consistent(w, t) && !Waits(w, t) && w.txs[t].done == 0
    ensures Consistent(Advanced(w, t), t)
  {
    var tx, tx' := w.txs[t], Advanced(w, t).txs[t];
    assert tx.Requests()[0] == SegmentLock(tx.segment) && tx.Requests()[..0] == [];
    assert tx'.Requests()[..1] == [SegmentLock(tx.segment)];
  }

  lemma ConsistentLater(w: World, t: TxId)
    requires t in w.txs && Consistent(w, t) && !Waits(w, t) && 0 < w.txs[t].done < |w.txs[t].Requests()|
    ensures Consistent(Advanced(w, t), t)
  {
    var tx, tx' := w.txs[t], Advanced(w, t).txs[t];
    var rows := tx.Requests();
    assert tx'.Requests() == rows;
    assert rows[..tx.done + 1] == rows[..tx.done] + [rows[tx.done]];
  }

  lemma OthersStayConsistent(w: World, n: World, u: TxId)
    requires u in w.txs && u in n.txs && n.txs[u] == w.txs[u] && Consistent(w, u) && w.next <= n.next
    requires forall row :: (row in w.held && w.held[row] == u) <==> (row in n.held && n.held[row] == u)
    requires w.txs[u].done > 0 && w.txs[u].segment in n.booking ==>
               w.txs[u].segment in w.booking && n.booking[w.txs[u].segment] == w.booking[w.txs[u].segment]
    ensures Consistent(n, u)
  {
  }

  /** A transaction past its first statement holds its segment. */
  lemma HoldsSegment(w: World, t: TxId)
    requires t in w.txs && Consistent(w, t) && w.txs[t].done > 0
    ensures SegmentLock(w.txs[t].segment) in w.held && w.held[SegmentLock(w.txs[t].segment)] == t
  {
    var tx := w.txs[t];
    assert tx.Requests()[0] == SegmentLock(tx.segment);
    assert tx.Requests()[0] in tx.Requests()[..tx.done];
  }

  lemma InvLock(w: World, t: TxId)
    requires Inv(w) && t in w.txs && !Waits(w, t) && w.txs[t].done < |w.txs[t].Requests()|
    ensures Inv(Advanced(w, t))
  {
    var n := Advanced(w, t);
    assert Consistent(w, t);
    if w.txs[t].done == 0 {
      ConsistentFirst(w, t);
    } else {
      ConsistentLater(w, t);
    }
    forall u | u in n.txs && u != t ensures Consistent(n, u) {
      assert Consistent(w, u);
      OthersStayConsistent(w, n, u);
    }
  }

  lemma InvCommit(w: World, t: TxId)
    requires Inv(w) && t in w.txs && w.txs[t].done == |w.txs[t].Requests()|
    ensures Inv(Advanced(w, t))
  {
    var n := Advanced(w, t);
    assert Consistent(w, t);
    HoldsSegment(w, t);
    forall u | u in n.txs ensures Consistent(n, u) {
      assert Consistent(w, u);
      if w.txs[u].done > 0 { HoldsSegment(w, u); }
      OthersStayConsistent(w, n, u);
    }
  }

  lemma InvStep(w: World, step: Step)
    requires Inv(w)
    ensures Inv(Next(w, step))
  {
    var n := Next(w, step);
    match step
    case Begin(_, _, _, _) =>
      assert n.txs[w.next].Requests()[..0] == [];
      forall u | u in n.txs && u != w.next ensures Consistent(n, u) {
        assert Consistent(w, u);
        OthersStayConsistent(w, n, u);
      }
    case Advance(t) =>
      if t in w.txs && !Waits(w, t) {
        assert Consistent(w, t);
        if w.txs[t].done < |w.txs[t].Requests()| { InvLock(w, t); } else { InvCommit(w, t); }
      }
    case Rollback(t) =>
      if t in w.txs {
        forall u | u in n.txs ensures Consistent(n, u) {
          assert Consistent(w, u);
          OthersStayConsistent(w, n, u);
        }
      }
  }

  /** No transaction runs and no row is locked at the start. */
  predicate Idle(w: World) {
    w.held == map[] && w.txs == map[]
  }

  lemma {:induction false} InvRun(w: World, steps: seq<Step>)
    requires Inv(w)
    ensures Inv(RunFrom(w, steps))
  {
    if steps != [] {
      InvRun(w, steps[..|steps| - 1]);
      InvStep(RunFrom(w, steps[..|steps| - 1]), steps[|steps| - 1]);
    }
  }

  // Progress.

  /** In a nonempty set of rows, some row has none above it. */
  lemma {:induction false} HighestExists(rows: set<Row>) returns (top: Row)
    requires rows != {}
    ensures top in rows && forall row | row in rows :: !Below(top, row)
    decreases |rows|
  {
    var some :| some in rows;
    if rows == {some} {
      top := some;
    } else {
      var rest := rows - {some};
      assert rest != {};
      top := HighestExists(rest);
      if Below(top, some) {
        forall row | row in rest ensures !Below(some, row) { assert !Below(top, row); }
        top := some;
      }
    }
  }

  ghost function Awaited(w: World, t: TxId): Row
    requires t in w.txs && Waits(w, t)
  {
    w.txs[t].Requests()[w.txs[t].done]
  }

  /** The holder of an awaited row waits only for rows above it. */
  lemma HoldersWaitAbove(w: World, t: TxId)
    requires Inv(w) && t in w.txs && Waits(w, t)
    ensures var u := w.held[Awaited(w, t)];
            u in w.txs && (Waits(w, u) ==> Below(Awaited(w, t), Awaited(w, u)))
  {
    var row := Awaited(w, t);
    var u := w.held[row];
    var tx := w.txs[u];
    assert Consistent(w, u);
    if Waits(w, u) {
      assert row in tx.Requests()[..tx.done];
      var i :| 0 <= i < tx.done && tx.Requests()[i] == row;
      NewLocksAscend(tx, i, tx.done);
    }
  }

  /** Following holders upwards from awaited row to awaited row must end. */
  lemma ChainsEnd(awaits: map<TxId, Row>, held: map<Row, TxId>) returns (t: TxId)
    requires awaits != map[]
    requires forall x | x in awaits :: awaits[x] in held &&
               (held[awaits[x]] in awaits ==> Below(awaits[x], awaits[held[awaits[x]]]))
    ensures t in awaits && held[awaits[t]] !in awaits
  {
    assert exists x :: x in awaits;
    var x :| x in awaits;
    assert awaits[x] in awaits.Values;
    var top := HighestExists(awaits.Values);
    t :| t in awaits && awaits[t] == top;
  }

  lemma SomeoneIsFree(w: World) returns (t: TxId)
    requires Inv(w) && w.txs != map[]
    ensures t in w.txs && !Waits(w, t)
  {
    var awaits := map x | x in w.txs && Waits(w, x) :: Awaited(w, x);
    if awaits == map[] {
      assert exists x :: x in w.txs;
      t :| t in w.txs;
      assert t !in awaits;
    } else {
      forall x | x in awaits
        ensures awaits[x] in w.held && (w.held[awaits[x]] in awaits ==> Below(awaits[x], awaits[w.held[awaits[x]]]))
      {
        HoldersWaitAbove(w, x);
      }
      var x := ChainsEnd(awaits, w.held);
      HoldersWaitAbove(w, x);
      t := w.held[awaits[x]];
    }
  }

  /** In every state that any interleaving of any number of transactions reaches, if some
      transaction is unfinished then one of them can take its next statement. */
  lemma NoDeadlock(w: World, steps: seq<Step>) returns (t: TxId)
    requires Idle(w) && RunFrom(w, steps).txs != map[]
    ensures t in RunFrom(w, steps).txs && !Waits(RunFrom(w, steps), t)
  {
    InvRun(w, steps);
    t := SomeoneIsFree(RunFrom(w, steps));
  }

  /** Every row that the transaction reads for update or writes: its segment and reservation, the
      old and the new fare, and the credit. */
  ghost predicate Uses(tx: Tx, row: Row) {
    || row == SegmentLock(tx.segment) || row == ReservationLock(tx.reservation)
    || row == FareLock(tx.before) || row == FareLock(tx.target)
    || (tx.credit.Some? && row == CreditLock(tx.credit.value))
  }

  lemma RequestsAreUses(tx: Tx, row: Row)
    ensures row in tx.Requests() <==> Uses(tx, row)
  {
    var r, keys := tx.Requests(), SortedFares(tx.before, tx.target);
    var f := if tx.credit.Some? then 2 else 1;
    assert r[0] == SegmentLock(tx.segment) && (tx.credit.Some? ==> r[1] == CreditLock(tx.credit.value));
    assert r[f] == FareLock(keys[0]) && (|keys| == 2 ==> r[f + 1] == FareLock(keys[1]));
    assert r[|r| - 1 - |tx.CreditRows()|] == ReservationLock(tx.reservation);
    forall i | 0 <= i < |keys| ensures keys[i] == tx.before || keys[i] == tx.target { assert keys[i] in keys; }
  }

  /** In every reachable state a transaction that is about to commit holds exactly the rows it uses, and
      the fare it is about to give back is the one its segment is booked on. */
  lemma CommitsHoldTheirRows(w: World, steps: seq<Step>, t: TxId)
    requires Idle(w)
    requires var n := RunFrom(w, steps); t in n.txs && n.txs[t].done == |n.txs[t].Requests()|
    ensures var n := RunFrom(w, steps);
            && (forall row :: Uses(n.txs[t], row) <==> row in n.held && n.held[row] == t)
            && (n.txs[t].segment in n.booking ==> n.booking[n.txs[t].segment] == n.txs[t].before)
  {
    var n := RunFrom(w, steps);
    InvRun(w, steps);
    assert Consistent(n, t);
    var tx := n.txs[t];
    assert tx.Requests()[..tx.done] == tx.Requests();
    forall row ensures Uses(tx, row) <==> row in n.held && n.held[row] == t {
      RequestsAreUses(tx, row);
    }
  }

  /** So no two transactions that are about to commit use the same row. */
  lemma CommitsAreDisjoint(w: World, steps: seq<Step>, t: TxId, u: TxId, row: Row)
    requires Idle(w) && t != u
    requires var n := RunFrom(w, steps);
             && t in n.txs && n.txs[t].done == |n.txs[t].Requests()|
             && u in n.txs && n.txs[u].done == |n.txs[u].Requests()|
    ensures var n := RunFrom(w, steps); !(Uses(n.txs[t], row) && Uses(n.txs[u], row))
  {
    CommitsHoldTheirRows(w, steps, t);
    CommitsHoldTheirRows(w, steps, u);
  }

  /** The statements that the running transactions have still to make, at most. */
  ghost function Remaining(txs: map<TxId, Tx>): map<TxId, int> {
    map t | t in txs :: 11 - txs[t].done
  }

  ghost function Work(w: World): int {
    Sum(Remaining(w.txs))
  }

  lemma WorkIsPositive(w: World)
    requires Inv(w)
    ensures Work(w) >= 0
  {
    forall t | t in w.txs ensures Remaining(w.txs)[t] >= 0 { assert Consistent(w, t); }
    SumNonNegative(Remaining(w.txs));
  }

  lemma RemainingPut(txs: map<TxId, Tx>, t: TxId, tx: Tx)
    requires t in txs && tx.done == txs[t].done + 1
    ensures Sum(Remaining(txs[t := tx])) < Sum(Remaining(txs))
  {
    assert Remaining(txs[t := tx]) == Remaining(txs)[t := 11 - tx.done];
    SumUpdate(Remaining(txs), t, 11 - tx.done);
  }

  lemma RemainingDrop(txs: map<TxId, Tx>, t: TxId)
    requires t in txs && txs[t].done <= 10
    ensures Sum(Remaining(txs - {t})) < Sum(Remaining(txs))
  {
    assert Remaining(txs - {t}) == Remaining(txs) - {t};
    SumRemove(Remaining(txs), t);
  }

  lemma AdvanceWorks(w: World, t: TxId)
    requires Inv(w) && t in w.txs && !Waits(w, t)
    ensures Work(Advanced(w, t)) < Work(w)
  {
    var tx, n := w.txs[t], Advanced(w, t);
    assert Consistent(w, t);
    if tx.done < |tx.Requests()| {
      RemainingPut(w.txs, t, n.txs[t]);
    } else {
      RemainingDrop(w.txs, t);
    }
  }

  lemma {:induction false} FinishFrom(w: World) returns (steps: seq<Step>)
    requires Inv(w)
    ensures (forall step | step in steps :: step.Advance?) && RunFrom(w, steps).txs == map[]
    decreases Work(w)
  {
    WorkIsPositive(w);
    if w.txs == map[] {
      steps := [];
    } else {
      var t := SomeoneIsFree(w);
      var n := Advanced(w, t);
      AdvanceWorks(w, t);
      InvStep(w, Advance(t));
      WorkIsPositive(n);
      var rest := FinishFrom(n);
      steps := [Advance(t)] + rest;
      RunCons(w, Advance(t), rest);
    }
  }

  lemma {:induction false} RunCons(w: World, step: Step, rest: seq<Step>)
    ensures RunFrom(w, [step] + rest) == RunFrom(Next(w, step), rest)
    decreases |rest|
  {
    if rest == [] {
      assert [step] + rest == [step];
      assert [step][..0] == [];
      assert RunFrom(w, []) == w;
    } else {
      assert ([step] + rest)[..|rest|] == [step] + rest[..|rest| - 1];
      RunCons(w, step, rest[..|rest| - 1]);
    }
  }

  /** From every reachable state all transactions can run to their commit without any rollback. */
  lemma EveryoneCanFinish(w: World, steps: seq<Step>) returns (more: seq<Step>)
    requires Idle(w)
    ensures (forall step | step in more :: step.Advance?) && RunFrom(RunFrom(w, steps), more).txs == map[]
  {
    InvRun(w, steps);
    more := FinishFrom(RunFrom(w, steps));
  }
}
