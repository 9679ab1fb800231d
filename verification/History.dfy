/** The log of changes of a segment is a chain from its original to its current booking. */
module History {
  import opened Prelude
  import opened Airline

  /** The changes of segment s, in order. */
  function ChangesOf(changes: seq<Change>, s: Id): seq<Change> {
    if changes == [] then []
    else
      var before := ChangesOf(changes[..|changes| - 1], s);
      if changes[|changes| - 1].segment == s then before + [changes[|changes| - 1]] else before
  }

  lemma ChangesOfAppend(changes: seq<Change>, c: Change, s: Id)
    ensures ChangesOf(changes + [c], s) == ChangesOf(changes, s) + if c.segment == s then [c] else []
  {
    assert (changes + [c])[..|changes|] == changes;
  }

  function Differences(changes: seq<Change>): int {
    if changes == [] then 0 else Differences(changes[..|changes| - 1]) + changes[|changes| - 1].difference
  }

  /** What a history that began at `db` has recorded for segment s. */
  ghost function Recorded(db: Db, end: Db, s: Id): seq<Change>
    requires |db.changes| <= |end.changes|
  {
    ChangesOf(end.changes[|db.changes|..], s)
  }

  /** Old links to new, from fare a to fare b, and no target twice in a row. */
  ghost predicate Chained(trail: seq<Change>, a: FareKey, b: FareKey) {
    && (trail == [] ==> a == b)
    && (trail != [] ==> trail[0].before == a && trail[|trail| - 1].after == b)
    && (forall i, k | 0 <= i < k < |trail| && k == i + 1 ::
          trail[i].after == trail[k].before && trail[i].after != trail[k].after)
  }

  /** The booking of segment s is explained by its recorded changes. */
  ghost predicate Explained(db: Db, end: Db, s: Id) {
    && db.changes <= end.changes && s in db.segments && s in end.segments
    && var trail := Recorded(db, end, s);
       && Chained(trail, db.segments[s].fare, end.segments[s].fare)
       && Differences(trail) == end.segments[s].pricePaid - db.segments[s].pricePaid
       && (if trail == [] then end.segments[s] == db.segments[s] else end.segments[s].status.Changed?)
  }

  lemma ChainGrows(trail: seq<Change>, a: FareKey, b: FareKey, c: Change)
    requires Chained(trail, a, b) && c.before == b && (trail != [] ==> c.after != b)
    ensures Chained(trail + [c], a, c.after)
    ensures Differences(trail + [c]) == Differences(trail) + c.difference
  {
    assert (trail + [c])[..|trail|] == trail;
  }

  lemma ExplainedStep(db: Db, mid: Db, q: Request, s: Id)
    requires Schema(mid) && Explained(db, mid, s)
    ensures Explained(db, Execute(mid, q), s)
  {
    if Accepts(mid, q.selection, q.now) {
      var n := Rebooked(mid, q.selection);
      var c := n.changes[|mid.changes|];
      assert n.changes == mid.changes + [c];
      assert n.changes[|db.changes|..] == mid.changes[|db.changes|..] + [c];
      ChangesOfAppend(mid.changes[|db.changes|..], c, s);
      if q.selection.segment == s {
        ChainGrows(Recorded(db, mid, s), db.segments[s].fare, mid.segments[s].fare, c);
      } else {
        assert Recorded(db, n, s) == Recorded(db, mid, s);
      }
    }
  }

  /** In every history, the changes recorded for a segment link old to new from its original to
      its current fare, add up to the change of its price, and never name one target twice in a row. */
  lemma {:induction false} HistoryExplainsTheBooking(db: Db, requests: seq<Request>, s: Id)
    requires Schema(db) && s in db.segments
    ensures Explained(db, ExecuteAll(db, requests), s)
    decreases |requests|
  {
    if requests == [] {
      assert db.changes[|db.changes|..] == [];
    } else {
      var before := requests[..|requests| - 1];
      HistoryExplainsTheBooking(db, before, s);
      ExplainedStep(db, ExecuteAll(db, before), requests[|requests| - 1], s);
    }
  }

  /** `verify` answers from the log: after any history it succeeds if and only if the latest change
      recorded for the segment is to the selected fare, or, when none was, if the segment had been
      changed to that fare before. */
  lemma VerificationReadsTheLog(db: Db, requests: seq<Request>, sel: Selection)
    requires Schema(db) && sel.segment in db.segments
    ensures db.changes <= ExecuteAll(db, requests).changes
    ensures var end := ExecuteAll(db, requests);
            var trail := Recorded(db, end, sel.segment);
            Verified(end, sel) <==>
              var was := db.segments[sel.segment];
              if trail == [] then was.status == Changed && was.fare == sel.target
              else trail[|trail| - 1].after == sel.target
  {
    HistoryExplainsTheBooking(db, requests, sel.segment);
  }

  lemma {:induction false} RecordedTargets(db: Db, requests: seq<Request>, s: Id, target: FareKey)
    requires Schema(db) && s in db.segments
    requires forall q | q in requests && q.selection.segment == s :: q.selection.target == target
    ensures db.changes <= ExecuteAll(db, requests).changes
    ensures forall c | c in Recorded(db, ExecuteAll(db, requests), s) :: c.after == target
    decreases |requests|
  {
    if requests == [] {
      assert db.changes[|db.changes|..] == [];
    } else {
      var before, q := requests[..|requests| - 1], requests[|requests| - 1];
      RecordedTargets(db, before, s, target);
      var mid := ExecuteAll(db, before);
      if Accepts(mid, q.selection, q.now) {
        var n := Rebooked(mid, q.selection);
        var c := n.changes[|mid.changes|];
        assert n.changes[|db.changes|..] == mid.changes[|db.changes|..] + [c];
        ChangesOfAppend(mid.changes[|db.changes|..], c, s);
      }
    }
  }

  /** A selection replayed any number of times, among any traffic on other segments,
      changes its segment at most once. */
  lemma ReplaysAreAppliedOnce(db: Db, requests: seq<Request>, s: Id, target: FareKey)
    requires Schema(db) && s in db.segments
    requires forall q | q in requests && q.selection.segment == s :: q.selection.target == target
    ensures db.changes <= ExecuteAll(db, requests).changes && |Recorded(db, ExecuteAll(db, requests), s)| <= 1
  {
    HistoryExplainsTheBooking(db, requests, s);
    RecordedTargets(db, requests, s, target);
    var trail := Recorded(db, ExecuteAll(db, requests), s);
    if trail != [] {
      var second := if |trail| > 1 then 1 else 0;
      assert trail[0] in trail && trail[second] in trail;
    }
  }
}
