/** What every history of rebookings keeps: seats, money and credits. */
module Conservation {
  import opened Prelude
  import opened Sums
  import opened Airline

  // Seats.

  function Passengers(db: Db, seg: Segment): int {
    if seg.reservation in db.reservations then db.reservations[seg.reservation].passengers else 0
  }

  /** The passengers that each segment has on fare k. */
  ghost function SeatLoad(db: Db, k: FareKey): map<Id, int> {
    map s | s in db.segments :: if db.segments[s].fare == k then Passengers(db, db.segments[s]) else 0
  }

  /** Free and booked seats of fare k together. */
  ghost function SeatTotal(db: Db, k: FareKey): int
    requires k in db.fares
  {
    db.fares[k].seats + Sum(SeatLoad(db, k))
  }

  lemma SeatLoadMoves(db: Db, sel: Selection, now: int, k: FareKey)
    requires Schema(db) && Accepts(db, sel, now)
    ensures var load := if sel.target == k then Passengers(db, db.segments[sel.segment]) else 0;
            SeatLoad(Rebooked(db, sel), k) == SeatLoad(db, k)[sel.segment := load]
  {
    var n := Rebooked(db, sel);
    forall s | s in db.segments ensures Passengers(n, n.segments[s]) == Passengers(db, db.segments[s]) {}
  }

  lemma SeatsStep(db: Db, r: Request, k: FareKey)
    requires Schema(db) && k in db.fares
    ensures k in Execute(db, r).fares && SeatTotal(Execute(db, r), k) == SeatTotal(db, k)
  {
    if Accepts(db, r.selection, r.now) {
      var sel := r.selection;
      SeatLoadMoves(db, sel, r.now, k);
      SumUpdate(SeatLoad(db, k), sel.segment,
                if sel.target == k then Passengers(db, db.segments[sel.segment]) else 0);
    }
  }

  ghost predicate NoNegativeSeats(db: Db) {
    forall k | k in db.fares :: db.fares[k].seats >= 0
  }

  /** Over any history of accepted and rejected transactions, the free seats of every fare plus
      the passengers booked on it stay the same, and free seats never become negative. */
  lemma {:induction false} SeatsAreConserved(db: Db, requests: seq<Request>, k: FareKey)
    requires Schema(db) && k in db.fares
    ensures var end := ExecuteAll(db, requests);
            && k in end.fares && SeatTotal(end, k) == SeatTotal(db, k)
            && (NoNegativeSeats(db) ==> NoNegativeSeats(end))
    decreases |requests|
  {
    if requests != [] {
      var before := requests[..|requests| - 1];
      SeatsAreConserved(db, before, k);
      SeatsStep(ExecuteAll(db, before), requests[|requests| - 1], k);
    }
  }

  // Money.

  /** The reservation of each segment; no rebooking changes it. */
  ghost function Owners(db: Db): map<Id, Id> {
    map s | s in db.segments :: db.segments[s].reservation
  }

  ghost function Prices(db: Db, r: Id): map<Id, int> {
    map s | s in db.segments :: if db.segments[s].reservation == r then db.segments[s].pricePaid else 0
  }

  /** Fees minus credits used, over the logged changes of reservation r. */
  ghost function NetFees(owners: map<Id, Id>, changes: seq<Change>, r: Id): int {
    if changes == [] then 0 else
      var c := changes[|changes| - 1];
      NetFees(owners, changes[..|changes| - 1], r)
      + if c.segment in owners && owners[c.segment] == r then c.fee - c.creditUsed else 0
  }

  lemma NetFeesAppend(owners: map<Id, Id>, changes: seq<Change>, c: Change, r: Id)
    ensures NetFees(owners, changes + [c], r) ==
            NetFees(owners, changes, r) + if c.segment in owners && owners[c.segment] == r then c.fee - c.creditUsed
                else 0
  {
    assert (changes + [c])[..|changes|] == changes;
  }

  /** The total of a reservation minus all that explains it. */
  ghost function Ledger(db: Db, r: Id): int
    requires r in db.reservations
  {
    db.reservations[r].total - Sum(Prices(db, r)) - NetFees(Owners(db), db.changes, r)
  }

  lemma LedgerStep(db: Db, q: Request, r: Id)
    requires Schema(db) && r in db.reservations
    ensures r in Execute(db, q).reservations && Ledger(Execute(db, q), r) == Ledger(db, r)
  {
    if Accepts(db, q.selection, q.now) {
      var sel, n := q.selection, Rebooked(db, q.selection);
      var seg := db.segments[sel.segment];
      var c := n.changes[|db.changes|];
      assert n.changes == db.changes + [c];
      assert Owners(n) == Owners(db);
      NetFeesAppend(Owners(db), db.changes, c, r);
      var paid := if seg.reservation == r then db.fares[sel.target].price else 0;
      assert Prices(n, r) == Prices(db, r)[sel.segment := paid];
      SumUpdate(Prices(db, r), sel.segment, paid);
    }
  }

  /** Over any history, the total of a reservation minus its segments' prices minus its changes'
      fees plus its changes' credits stays the same. */
  lemma {:induction false} LedgerIsConserved(db: Db, requests: seq<Request>, r: Id)
    requires Schema(db) && r in db.reservations
    ensures r in ExecuteAll(db, requests).reservations && Ledger(ExecuteAll(db, requests), r) == Ledger(db, r)
    decreases |requests|
  {
    if requests != [] {
      var before := requests[..|requests| - 1];
      LedgerIsConserved(db, before, r);
      LedgerStep(ExecuteAll(db, before), requests[|requests| - 1], r);
    }
  }

  // Credits.

  ghost function Remaining(db: Db): map<Id, int> {
    map c | c in db.credits :: db.credits[c].remaining
  }

  ghost function CreditsUsed(changes: seq<Change>): int {
    if changes == [] then 0 else CreditsUsed(changes[..|changes| - 1]) + changes[|changes| - 1].creditUsed
  }

  ghost function CreditTotal(db: Db): int {
    Sum(Remaining(db)) + CreditsUsed(db.changes)
  }

  ghost predicate NoNegativeCredit(db: Db) {
    forall c | c in db.credits :: db.credits[c].remaining >= 0
  }

  lemma CreditStep(db: Db, q: Request)
    requires Schema(db)
    ensures CreditTotal(Execute(db, q)) == CreditTotal(db)
    ensures NoNegativeCredit(db) ==> NoNegativeCredit(Execute(db, q))
  {
    if Accepts(db, q.selection, q.now) {
      var sel, n := q.selection, Rebooked(db, q.selection);
      assert n.changes[..|n.changes| - 1] == db.changes;
      if sel.credit.Some? {
        var left := db.credits[sel.credit.value].remaining - sel.amount;
        assert Remaining(n) == Remaining(db)[sel.credit.value := left];
        SumUpdate(Remaining(db), sel.credit.value, left);
      }
    }
  }

  /** Over any history, what all credits still hold plus what the log says was used stays the
      same, and no credit is overdrawn. */
  lemma {:induction false} CreditsAreConserved(db: Db, requests: seq<Request>)
    requires Schema(db)
    ensures CreditTotal(ExecuteAll(db, requests)) == CreditTotal(db)
    ensures NoNegativeCredit(db) ==> NoNegativeCredit(ExecuteAll(db, requests))
    decreases |requests|
  {
    if requests != [] {
      var before := requests[..|requests| - 1];
      CreditsAreConserved(db, before);
      CreditStep(ExecuteAll(db, before), requests[|requests| - 1]);
    }
  }
}
