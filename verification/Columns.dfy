/** What a history of transactions does to each column of the tables, row by row: what no
    transaction ever changes, what an accepted one writes, and which changes can occur at all. */
module Columns {
  import opened Prelude
  import opened Airline

  /** A booked segment keeps its reservation and its currency. */
  predicate SameSegment(a: Segment, b: Segment) {
    b.reservation == a.reservation && b.currency == a.currency
  }

  predicate SameReservation(a: Reservation, b: Reservation) {
    b.customer == a.customer && b.status == a.status && b.passengers == a.passengers
  }

  predicate SameFare(a: Fare, b: Fare) {
    b.price == a.price && b.currency == a.currency
  }

  predicate SameCredit(a: Credit, b: Credit) {
    b.customer == a.customer && b.currency == a.currency && b.expiresAt == a.expiresAt
  }

  /** The columns that no rebooking writes, and the rows that it neither adds nor removes. */
  ghost predicate SameConstants(db: Db, end: Db) {
    && end.flights == db.flights && end.classes == db.classes
    && end.fares.Keys == db.fares.Keys && end.segments.Keys == db.segments.Keys
    && end.reservations.Keys == db.reservations.Keys && end.credits.Keys == db.credits.Keys
    && (forall k | k in db.fares :: SameFare(db.fares[k], end.fares[k]))
    && (forall s | s in db.segments :: SameSegment(db.segments[s], end.segments[s]))
    && (forall r | r in db.reservations :: SameReservation(db.reservations[r], end.reservations[r]))
    && (forall c | c in db.credits :: SameCredit(db.credits[c], end.credits[c]))
    && db.changes <= end.changes
  }

  lemma OneStepKeepsConstants(db: Db, r: Request)
    requires Schema(db)
    ensures SameConstants(db, Execute(db, r))
  {
  }

  lemma ConstantsCompose(a: Db, b: Db, c: Db)
    requires SameConstants(a, b) && SameConstants(b, c)
    ensures SameConstants(a, c)
  {
    forall k | k in a.fares ensures SameFare(a.fares[k], c.fares[k]) {
      assert SameFare(a.fares[k], b.fares[k]) && SameFare(b.fares[k], c.fares[k]);
    }
    forall s | s in a.segments ensures SameSegment(a.segments[s], c.segments[s]) {
      assert SameSegment(a.segments[s], b.segments[s]) && SameSegment(b.segments[s], c.segments[s]);
    }
    forall r | r in a.reservations ensures SameReservation(a.reservations[r], c.reservations[r]) {
      assert SameReservation(a.reservations[r], b.reservations[r]);
      assert SameReservation(b.reservations[r], c.reservations[r]);
    }
    forall x | x in a.credits ensures SameCredit(a.credits[x], c.credits[x]) {
      assert SameCredit(a.credits[x], b.credits[x]) && SameCredit(b.credits[x], c.credits[x]);
    }
  }

  /** No history changes the currency or the reservation of a segment, the customer, status or
      passengers of a reservation, the price of a fare, or whose a credit is and until when. */
  lemma {:induction false} ConstantsStay(db: Db, requests: seq<Request>)
    requires Schema(db)
    ensures SameConstants(db, ExecuteAll(db, requests))
    decreases |requests|
  {
    if requests != [] {
      var before := requests[..|requests| - 1];
      ConstantsStay(db, before);
      OneStepKeepsConstants(ExecuteAll(db, before), requests[|requests| - 1]);
      ConstantsCompose(db, ExecuteAll(db, before), ExecuteAll(db, requests));
    }
  }

  // What one request writes.

  /** The tables before request i of the history. */
  ghost function At(db: Db, requests: seq<Request>, i: nat): (mid: Db)
    requires Schema(db) && i <= |requests|
    ensures Schema(mid)
  {
    ExecuteAll(db, requests[..i])
  }

  ghost predicate Accepted(db: Db, requests: seq<Request>, i: nat)
    requires Schema(db) && i < |requests|
  {
    Accepts(At(db, requests, i), requests[i].selection, requests[i].now)
  }

  /** The segment moves to the target at its price; no other segment changes. */
  ghost predicate SegmentMoves(a: Db, b: Db, sel: Selection) {
    && sel.segment in a.segments && sel.target in a.fares
    && b.segments.Keys == a.segments.Keys
    && (forall s | s in a.segments && s != sel.segment :: b.segments[s] == a.segments[s])
    && b.segments[sel.segment].fare == sel.target && b.segments[sel.segment].status.Changed?
    && b.segments[sel.segment].pricePaid == a.fares[sel.target].price
    && b.segments[sel.segment].currency == a.segments[sel.segment].currency
    && b.segments[sel.segment].reservation == a.segments[sel.segment].reservation
  }

  /** Its passengers leave the old fare and enter the new one; no other fare changes. */
  ghost predicate SeatsMove(a: Db, b: Db, sel: Selection)
    requires sel.segment in a.segments && a.segments[sel.segment].reservation in a.reservations
  {
    var own, n := a.segments[sel.segment].fare, a.reservations[a.segments[sel.segment].reservation].passengers;
    && b.fares.Keys == a.fares.Keys
    && forall k | k in a.fares ::
         && (k != own && k != sel.target ==> b.fares[k] == a.fares[k])
         && (own == sel.target ==> b.fares[k] == a.fares[k])
         && (k == sel.target != own ==> b.fares[k].seats == a.fares[k].seats - n)
         && (k == own != sel.target ==> b.fares[k].seats == a.fares[k].seats + n)
  }

  /** What the change costs: the difference of the prices and the fee of the new fare class. */
  ghost function Cost(a: Db, sel: Selection): int
    requires sel.segment in a.segments && sel.target in a.fares && sel.target.fareClass in a.classes
  {
    a.fares[sel.target].price - a.segments[sel.segment].pricePaid + a.classes[sel.target.fareClass].changeFee
  }

  /** A refund lowers the total of the reservation; what is due is paid by the credit. */
  ghost predicate MoneyMoves(a: Db, b: Db, sel: Selection)
    requires sel.segment in a.segments && sel.target in a.fares && sel.target.fareClass in a.classes
  {
    var r, cost := a.segments[sel.segment].reservation, Cost(a, sel);
    && r in a.reservations && b.reservations.Keys == a.reservations.Keys
    && (forall q | q in a.reservations && q != r :: b.reservations[q] == a.reservations[q])
    && b.reservations[r].total == a.reservations[r].total + (if cost < 0 then cost else 0)
    && sel.amount == (if cost > 0 then cost else 0)
    && b.credits.Keys == a.credits.Keys
    && (forall c | c in a.credits && sel.credit != Some(c) :: b.credits[c] == a.credits[c])
    && (sel.credit.None? <==> cost <= 0)
    && (sel.credit.Some? ==>
          var c := sel.credit.value;
          && c in a.credits && b.credits[c].remaining == a.credits[c].remaining - cost
          && (b.credits[c].remaining == 0 ==> b.credits[c].status.Used?)
          && (b.credits[c].remaining != 0 ==> b.credits[c].status.PartiallyUsed?))
  }

  /** One row is added to the log, and it says all this. */
  ghost predicate ChangeIsLogged(a: Db, b: Db, sel: Selection)
    requires sel.segment in a.segments && sel.target in a.fares && sel.target.fareClass in a.classes
  {
    && |b.changes| == |a.changes| + 1 && a.changes <= b.changes
    && var row, seg := b.changes[|a.changes|], a.segments[sel.segment];
       && row.segment == sel.segment && row.before == seg.fare && row.after == sel.target
       && row.difference == a.fares[sel.target].price - seg.pricePaid
       && row.fee == a.classes[sel.target.fareClass].changeFee
       && row.creditUsed == sel.amount && row.currency == seg.currency
  }

  /** The rules that an accepted request meets. */
  ghost predicate Legal(a: Db, sel: Selection, now: int)
    requires Schema(a) && sel.segment in a.segments && sel.target in a.fares
  {
    var seg := a.segments[sel.segment];
    var res, from, to := a.reservations[seg.reservation], a.flights[seg.fare.flight], a.flights[sel.target.flight];
    && res.status == ReservationStatus.Confirmed && 0 < res.passengers <= a.fares[sel.target].seats
    && (seg.status == SegmentStatus.Confirmed || (seg.status == Changed && seg.fare != sel.target))
    && to.status == Scheduled && to.origin == from.origin && to.destination == from.destination
    && a.classes[seg.fare.fareClass].changeAllowed && a.classes[sel.target.fareClass].changeAllowed
    && a.fares[sel.target].currency == seg.currency
    && (sel.credit.Some? ==>
          && sel.credit.value in a.credits
          && var credit := a.credits[sel.credit.value];
             && credit.customer == res.customer && credit.currency == seg.currency && credit.expiresAt > now
             && credit.remaining >= sel.amount > 0 && (credit.status == Available || credit.status == PartiallyUsed))
  }

  /** A request is accepted if and only if its rows exist, it meets every rule, and its credit, if and
      only if something is due, pays exactly that. */
  lemma AcceptanceIsLegality(a: Db, sel: Selection, now: int)
    requires Schema(a)
    ensures Accepts(a, sel, now) <==>
            && sel.segment in a.segments && sel.target in a.fares && Legal(a, sel, now)
            && sel.amount == (if Cost(a, sel) > 0 then Cost(a, sel) else 0)
            && (sel.credit.None? <==> Cost(a, sel) <= 0)
  {
  }

  lemma AcceptedColumns(a: Db, r: Request)
    requires Schema(a) && Accepts(a, r.selection, r.now)
    ensures Wrote(a, Execute(a, r), r.selection, r.now)
  {
  }

  lemma NextTables(db: Db, requests: seq<Request>, i: nat)
    requires Schema(db) && i < |requests|
    ensures At(db, requests, i + 1) == Execute(At(db, requests, i), requests[i])
  {
    assert requests[..i + 1] == requests[..i] + [requests[i]];
    ExecuteAllSnoc(db, requests[..i], requests[i]);
  }

  /** What request i did, if it was accepted. */
  ghost predicate Wrote(a: Db, b: Db, sel: Selection, now: int)
    requires Schema(a)
  {
    && SegmentMoves(a, b, sel) && SeatsMove(a, b, sel) && MoneyMoves(a, b, sel) && ChangeIsLogged(a, b, sel)
    && Legal(a, sel, now)
  }

  /** In every history, a rejected request leaves the tables alone, and an accepted one meets every
      rule, moves its segment and its seats, moves the money, logs exactly that, and writes no
      other row. */
  lemma RequestsWriteTheirRows(db: Db, requests: seq<Request>, i: nat)
    requires Schema(db) && i < |requests|
    ensures var a, b, sel := At(db, requests, i), At(db, requests, i + 1), requests[i].selection;
            if Accepted(db, requests, i) then Wrote(a, b, sel, requests[i].now) else b == a
  {
    NextTables(db, requests, i);
    if Accepted(db, requests, i) {
      AcceptedColumns(At(db, requests, i), requests[i]);
    }
  }

  // What a whole history does to a row.

  lemma AcceptedPrefix(db: Db, requests: seq<Request>, n: nat, i: nat)
    requires Schema(db) && i < n <= |requests|
    ensures Accepted(db, requests[..n], i) <==> Accepted(db, requests, i)
  {
    assert requests[..n][..i] == requests[..i];
  }

  /** An accepted request of the history names the credit. */
  ghost predicate CreditNamed(db: Db, requests: seq<Request>, i: nat, c: Id)
    requires Schema(db)
  {
    i < |requests| && Accepted(db, requests, i) && requests[i].selection.credit == Some(c)
  }

  ghost predicate CreditUsed(db: Db, requests: seq<Request>, c: Id)
    requires Schema(db)
  {
    exists i: nat :: CreditNamed(db, requests, i, c)
  }

  lemma CreditUsedSnoc(db: Db, requests: seq<Request>, c: Id)
    requires Schema(db) && requests != []
    ensures CreditUsed(db, requests, c) <==>
            CreditUsed(db, requests[..|requests| - 1], c) || CreditNamed(db, requests, |requests| - 1, c)
  {
    var n := |requests| - 1;
    forall i: nat | i < n ensures CreditNamed(db, requests[..n], i, c) <==> CreditNamed(db, requests, i, c) {
      AcceptedPrefix(db, requests, n, i);
    }
    if CreditUsed(db, requests[..n], c) {
      var i: nat :| CreditNamed(db, requests[..n], i, c);
      assert CreditNamed(db, requests, i, c);
    }
  }

  /** The credit was spent: there is less of it, and its status says whether any remains. */
  predicate Spent(a: Credit, b: Credit) {
    b.remaining < a.remaining && b.status == if b.remaining == 0 then Used else PartiallyUsed
  }

  lemma CreditStep(db: Db, requests: seq<Request>, c: Id)
    requires Schema(db) && requests != [] && c in At(db, requests, |requests| - 1).credits
    ensures c in ExecuteAll(db, requests).credits
    ensures var n := |requests| - 1;
            var a, b := At(db, requests, n).credits[c], ExecuteAll(db, requests).credits[c];
            if CreditNamed(db, requests, n, c) then Spent(a, b) else b == a
  {
    RequestsWriteTheirRows(db, requests, |requests| - 1);
    assert requests[..|requests|] == requests;
  }

  /** A credit is touched if and only if an accepted request names it; it is then used up if nothing
      remains and partially used otherwise, with less than before. */
  lemma {:induction false} CreditsAreTouchedByName(db: Db, requests: seq<Request>, c: Id)
    requires Schema(db) && c in db.credits
    ensures c in ExecuteAll(db, requests).credits
    ensures var a, b := db.credits[c], ExecuteAll(db, requests).credits[c];
            if CreditUsed(db, requests, c) then Spent(a, b) else b == a
    decreases |requests|
  {
    if requests != [] {
      CreditsAreTouchedByName(db, requests[..|requests| - 1], c);
      CreditUsedSnoc(db, requests, c);
      CreditStep(db, requests, c);
    }
  }

  /** Request i is the latest accepted one that names the segment. */
  ghost predicate LatestFor(db: Db, requests: seq<Request>, i: nat, s: Id)
    requires Schema(db)
  {
    && i < |requests| && Accepted(db, requests, i) && requests[i].selection.segment == s
    && forall k: nat | i < k < |requests| && requests[k].selection.segment == s :: !Accepted(db, requests, k)
  }

  lemma LatestStays(db: Db, requests: seq<Request>, i: nat, s: Id)
    requires Schema(db) && requests != [] && LatestFor(db, requests[..|requests| - 1], i, s)
    requires var n := |requests| - 1; requests[n].selection.segment == s ==> !Accepted(db, requests, n)
    ensures LatestFor(db, requests, i, s)
  {
    var n := |requests| - 1;
    AcceptedPrefix(db, requests, n, i);
    forall k: nat | i < k < |requests| && requests[k].selection.segment == s ensures !Accepted(db, requests, k) {
      if k < n { AcceptedPrefix(db, requests, n, k); }
    }
  }

  /** Booked on the target now, at its price and in its currency, between the same airports as before. */
  predicate MovedTo(db: Db, a: Segment, b: Segment, target: FareKey) {
    && b.fare == target && b.status.Changed? && target in db.fares && b.pricePaid == db.fares[target].price
    && b.currency == a.currency == db.fares[target].currency && b.reservation == a.reservation
    && SameRoute(db, a.fare, target)
  }

  lemma SegmentStep(db: Db, requests: seq<Request>, s: Id)
    requires Schema(db) && requests != [] && s in At(db, requests, |requests| - 1).segments
    ensures s in ExecuteAll(db, requests).segments
    ensures var n := |requests| - 1;
            var mid, b := At(db, requests, n), ExecuteAll(db, requests).segments[s];
            if Accepted(db, requests, n) && requests[n].selection.segment == s
            then MovedTo(mid, mid.segments[s], b, requests[n].selection.target)
            else b == mid.segments[s]
  {
    RequestsWriteTheirRows(db, requests, |requests| - 1);
    assert requests[..|requests|] == requests;
  }

  lemma MovesCompose(db: Db, mid: Db, a: Segment, m: Segment, b: Segment, target: FareKey)
    requires SameConstants(db, mid) && Schema(db) && MovedTo(mid, m, b, target) && SameSegment(a, m)
    requires m == a || SameRoute(db, a.fare, m.fare)
    ensures MovedTo(db, a, b, target)
  {
    assert SameFare(db.fares[target], mid.fares[target]);
  }

  /** A segment is as it was, or as its latest accepted request made it: changed to that target at its
      price, with the route, the currency and the reservation it always had. */
  lemma {:induction false} SegmentsFollowTheirLatest(db: Db, requests: seq<Request>, s: Id) returns (i: Option<nat>)
    requires Schema(db) && s in db.segments
    ensures s in ExecuteAll(db, requests).segments
    ensures i.None? ==> ExecuteAll(db, requests).segments[s] == db.segments[s]
    ensures i.None? ==>
              forall k: nat | k < |requests| && requests[k].selection.segment == s :: !Accepted(db, requests, k)
    ensures i.Some? ==> LatestFor(db, requests, i.value, s)
    ensures i.Some? ==>
              MovedTo(db, db.segments[s], ExecuteAll(db, requests).segments[s], requests[i.value].selection.target)
    decreases |requests|
  {
    if requests == [] {
      i := None;
    } else {
      var n := |requests| - 1;
      i := SegmentsFollowTheirLatest(db, requests[..n], s);
      SegmentStep(db, requests, s);
      if Accepted(db, requests, n) && requests[n].selection.segment == s {
        var mid := At(db, requests, n);
        ConstantsStay(db, requests[..n]);
        MovesCompose(db, mid, db.segments[s], mid.segments[s], ExecuteAll(db, requests).segments[s],
                     requests[n].selection.target);
        i := Some(n);
      } else if i.Some? {
        LatestStays(db, requests, i.value, s);
      } else {
        NoneAccepted(db, requests, s);
      }
    }
  }

  lemma NoneAccepted(db: Db, requests: seq<Request>, s: Id)
    requires Schema(db) && requests != []
    requires var n := |requests| - 1; requests[n].selection.segment == s ==> !Accepted(db, requests, n)
    requires var n := |requests| - 1;
             forall k: nat | k < n && requests[k].selection.segment == s :: !Accepted(db, requests[..n], k)
    ensures forall k: nat | k < |requests| && requests[k].selection.segment == s :: !Accepted(db, requests, k)
  {
    var n := |requests| - 1;
    forall k: nat | k < |requests| && requests[k].selection.segment == s ensures !Accepted(db, requests, k) {
      if k < n {
        AcceptedPrefix(db, requests, n, k);
        assert requests[..n][k] == requests[k];
      }
    }
  }

  /** Both fares are of flights between the same airports. */
  predicate SameRoute(db: Db, a: FareKey, b: FareKey) {
    && a.flight in db.flights && b.flight in db.flights
    && db.flights[a.flight].origin == db.flights[b.flight].origin
    && db.flights[a.flight].destination == db.flights[b.flight].destination
  }

  /** A reservation keeps its whole row unless an accepted request names one of its segments. */
  lemma {:induction false} OtherReservationsAreKept(db: Db, requests: seq<Request>, r: Id)
    requires Schema(db) && r in db.reservations
    requires forall i: nat | i < |requests| && Accepted(db, requests, i) ::
               && requests[i].selection.segment in db.segments
               && db.segments[requests[i].selection.segment].reservation != r
    ensures r in ExecuteAll(db, requests).reservations && ExecuteAll(db, requests).reservations[r] == db.reservations[r]
    decreases |requests|
  {
    if requests != [] {
      var n := |requests| - 1;
      forall i: nat | i < n && Accepted(db, requests[..n], i)
        ensures requests[i].selection.segment in db.segments
                && db.segments[requests[i].selection.segment].reservation != r
      {
        AcceptedPrefix(db, requests, n, i);
      }
      OtherReservationsAreKept(db, requests[..n], r);
      RequestsWriteTheirRows(db, requests, n);
      assert requests[..n + 1] == requests;
      ConstantsStay(db, requests[..n]);
      assert forall s | s in db.segments :: SameSegment(db.segments[s], At(db, requests, n).segments[s]);
    }
  }

  lemma LogStep(db: Db, requests: seq<Request>)
    requires Schema(db) && requests != []
    ensures var n := |requests| - 1;
            var mid, b := At(db, requests, n), ExecuteAll(db, requests).changes;
            && mid.changes <= b && |b| <= |mid.changes| + 1
            && (|b| > |mid.changes| ==>
                  var row := b[|mid.changes|];
                  row.segment in mid.segments && row.currency == mid.segments[row.segment].currency)
  {
    RequestsWriteTheirRows(db, requests, |requests| - 1);
    assert requests[..|requests|] == requests;
  }

  /** Every recorded change is in the currency of its segment. */
  lemma {:induction false} ChangesCarryTheCurrency(db: Db, requests: seq<Request>, k: nat)
    requires Schema(db) && |db.changes| <= k < |ExecuteAll(db, requests).changes|
    ensures var row := ExecuteAll(db, requests).changes[k];
            row.segment in db.segments && row.currency == db.segments[row.segment].currency
    decreases |requests|
  {
    if requests != [] {
      var n := |requests| - 1;
      var mid := At(db, requests, n);
      LogStep(db, requests);
      if k < |mid.changes| {
        ChangesCarryTheCurrency(db, requests[..n], k);
      } else {
        var s := ExecuteAll(db, requests).changes[k].segment;
        ConstantsStay(db, requests[..n]);
        assert SameSegment(db.segments[s], mid.segments[s]);
      }
    }
  }
}
