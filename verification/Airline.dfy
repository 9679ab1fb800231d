/** The airline tables and the rules for rebooking a segment. Money is in cents. */
module Airline {
  import opened Prelude

  type Id = nat

  datatype ReservationStatus = Confirmed | Cancelled | Completed

  datatype FlightStatus = Scheduled | Delayed | Cancelled | Boarding | Departed | Completed

  datatype SegmentStatus = Confirmed | Changed | Cancelled | Flown

  datatype CreditStatus = Available | PartiallyUsed | Used | Expired {
    predicate Usable() {
      Available? || PartiallyUsed?
    }
  }

  /** The key of a row of flight_fares. */
  datatype FareKey = FareKey(flight: Id, fareClass: Id)

  datatype Flight = Flight(status: FlightStatus, origin: string, destination: string, departure: int)

  datatype FareClass = FareClass(changeAllowed: bool, changeFee: int)

  datatype Fare = Fare(price: int, currency: string, seats: int)

  datatype Segment = Segment(reservation: Id, fare: FareKey, status: SegmentStatus, pricePaid: int, currency: string)

  datatype Reservation = Reservation(customer: Id, status: ReservationStatus, total: int, passengers: nat)

  datatype Credit = Credit(customer: Id, remaining: int, currency: string, status: CreditStatus, expiresAt: int)

  /** A row of the append-only log of flight changes. */
  datatype Change = Change(segment: Id, before: FareKey, after: FareKey,
                           difference: int, fee: int, creditUsed: int, currency: string)

  datatype Db = Db(
    flights: map<Id, Flight>,
    classes: map<Id, FareClass>,
    fares: map<FareKey, Fare>,
    segments: map<Id, Segment>,
    reservations: map<Id, Reservation>,
    credits: map<Id, Credit>,
    changes: seq<Change>
  )

  datatype Selection = Selection(segment: Id, target: FareKey, credit: Option<Id>, amount: int)

  /** The foreign keys of the schema. */
  ghost predicate Schema(db: Db) {
    && (forall k | k in db.fares :: k.flight in db.flights && k.fareClass in db.classes)
    && (forall s | s in db.segments ::
          && db.segments[s].reservation in db.reservations
          && db.segments[s].fare.flight in db.flights && db.segments[s].fare.fareClass in db.classes)
  }

  /** Every booked segment has its fare row; the schema does not enforce this. */
  ghost predicate FareRows(db: Db) {
    forall s | s in db.segments :: db.segments[s].fare in db.fares
  }

  datatype Rejection =
    | SegmentNotFound
    | TargetNotFound
    | CreditNotFound
    | OriginalFareNotFound
    | SegmentNotChangeable
    | NotConfirmed
    | AlreadyApplied
    | ChangeNotAllowed
    | FlightUnavailable
    | RouteMismatch
    | CurrencyMismatch
    | NoPassengers
    | CreditInvalid
    | AmountMismatch
    | VerificationFailed

  /** What a transaction reads before it decides. */
  datatype Snapshot = Snapshot(
    segment: Id, reservation: Id, customer: Id, before: FareKey,
    segmentStatus: SegmentStatus, reservationStatus: ReservationStatus,
    origin: string, destination: string, pricePaid: int, currency: string, changeAllowed: bool,
    target: FareKey, targetStatus: FlightStatus, targetOrigin: string, targetDestination: string,
    targetPrice: int, targetCurrency: string, seats: int, targetChangeAllowed: bool, changeFee: int,
    passengers: int
  )

  datatype CreditRow = CreditRow(id: Id, credit: Credit)

  datatype Validation = Validation(
    reservation: Id, before: FareKey, after: FareKey, newPrice: int,
    difference: int, fee: int, amountDue: int, creditUsed: int, currency: string, passengers: int
  )

  /** The guard chain of `validate_rebooking_selection`. */
  function Validate(sel: Selection, snap: Snapshot, credit: Option<CreditRow>, now: int)
    : Result<Validation, Rejection>
  {
    if sel.segment != snap.segment then Err(SegmentNotChangeable)
    else if !snap.reservationStatus.Confirmed? then Err(NotConfirmed)
    else if !(snap.segmentStatus.Confirmed? || snap.segmentStatus.Changed?) then Err(SegmentNotChangeable)
    else if snap.segmentStatus.Changed? && snap.before == sel.target then Err(AlreadyApplied)
    else if !snap.changeAllowed then Err(ChangeNotAllowed)
    else if snap.target != sel.target || !snap.targetStatus.Scheduled? || snap.seats < snap.passengers then
      Err(FlightUnavailable)
    else if snap.origin != snap.targetOrigin || snap.destination != snap.targetDestination then Err(RouteMismatch)
    else if !snap.targetChangeAllowed then Err(ChangeNotAllowed)
    else if snap.targetCurrency != snap.currency then Err(CurrencyMismatch)
    else if snap.passengers <= 0 then Err(NoPassengers)
    else if sel.credit.Some? && !CreditCovers(sel, snap, credit, now) then Err(CreditInvalid)
    else if sel.credit.None? && sel.amount != 0 then Err(CreditInvalid)
    else
      var difference := snap.targetPrice - snap.pricePaid;
      var due := Max(difference + snap.changeFee, 0);
      if due != sel.amount then Err(AmountMismatch)
      else Ok(Validation(snap.reservation, snap.before, snap.target, snap.targetPrice,
                         difference, snap.changeFee, due, sel.amount, snap.currency, snap.passengers))
  }

  predicate CreditCovers(sel: Selection, snap: Snapshot, credit: Option<CreditRow>, now: int) {
    && sel.credit.Some? && credit.Some? && credit.value.id == sel.credit.value
    && var c := credit.value.credit;
       && c.customer == snap.customer && c.currency == snap.currency && c.remaining >= sel.amount
       && sel.amount > 0 && c.expiresAt > now && c.status.Usable()
  }

  // The declarative side: what an accepted selection is, and what it does to the tables.

  /** The amount by which a selection changes the price of the segment, plus the fee. */
  function Balance(db: Db, sel: Selection): int
    requires sel.segment in db.segments && sel.target in db.fares && sel.target.fareClass in db.classes
  {
    db.fares[sel.target].price - db.segments[sel.segment].pricePaid + db.classes[sel.target.fareClass].changeFee
  }

  /** The booking can be changed at all, and to this target. */
  ghost predicate Changeable(db: Db, sel: Selection)
    requires Schema(db)
  {
    && sel.segment in db.segments && sel.target in db.fares
    && var seg := db.segments[sel.segment];
       var res := db.reservations[seg.reservation];
       var from, to := db.flights[seg.fare.flight], db.flights[sel.target.flight];
       && res.status.Confirmed? && (seg.status.Confirmed? || (seg.status.Changed? && seg.fare != sel.target))
       && db.classes[seg.fare.fareClass].changeAllowed && db.classes[sel.target.fareClass].changeAllowed
       && to.status.Scheduled? && to.origin == from.origin && to.destination == from.destination
       && db.fares[sel.target].currency == seg.currency
       && 0 < res.passengers <= db.fares[sel.target].seats
  }

  /** The customer's own valid credit covers exactly what is due, or nothing is due. */
  ghost predicate Paid(db: Db, sel: Selection, now: int)
    requires Schema(db) && sel.segment in db.segments && sel.target in db.fares
  {
    var seg := db.segments[sel.segment];
    && sel.amount == Max(Balance(db, sel), 0)
    && match sel.credit
       case None => sel.amount == 0
       case Some(c) =>
         && c in db.credits && sel.amount > 0
         && var credit := db.credits[c];
            && credit.customer == db.reservations[seg.reservation].customer && credit.currency == seg.currency
            && credit.remaining >= sel.amount && credit.expiresAt > now && credit.status.Usable()
  }

  ghost predicate Accepts(db: Db, sel: Selection, now: int)
    requires Schema(db)
  {
    Changeable(db, sel) && Paid(db, sel, now)
  }

  /** The fare after n passengers left it, entered it, or both. */
  function Shifted(fare: Fare, left: bool, entered: bool, n: nat): Fare {
    fare.(seats := fare.seats + (if left then n else 0) - (if entered then n else 0))
  }

  /** The tables after an accepted rebooking. */
  function Rebooked(db: Db, sel: Selection): Db
    requires sel.segment in db.segments && sel.target in db.fares && sel.target.fareClass in db.classes
    requires db.segments[sel.segment].reservation in db.reservations
    requires sel.credit.Some? ==> sel.credit.value in db.credits
  {
    var seg := db.segments[sel.segment];
    var res := db.reservations[seg.reservation];
    var target := db.fares[sel.target];
    Db(db.flights, db.classes,
       map k | k in db.fares :: Shifted(db.fares[k], k == seg.fare, k == sel.target, res.passengers),
       db.segments[sel.segment := Segment(seg.reservation, sel.target, Changed, target.price, seg.currency)],
       db.reservations[seg.reservation := res.(total := res.total - Max(-Balance(db, sel), 0))],
       if sel.credit.None? then db.credits
       else
         var credit := db.credits[sel.credit.value];
         var left := credit.remaining - sel.amount;
         db.credits[sel.credit.value := credit.(remaining := left, status := if left == 0 then Used
             else PartiallyUsed)],
       db.changes + [Change(sel.segment, seg.fare, sel.target, target.price - seg.pricePaid,
                            db.classes[sel.target.fareClass].changeFee, Max(Balance(db, sel), 0), seg.currency)])
  }

  /** The segment was changed to the selected fare. */
  predicate Verified(db: Db, sel: Selection) {
    && sel.segment in db.segments && db.segments[sel.segment].fare == sel.target
    && db.segments[sel.segment].status.Changed?
  }

  datatype Request = Request(selection: Selection, now: int)

  /** One transaction, run on its own. */
  ghost function Execute(db: Db, r: Request): Db
    requires Schema(db)
  {
    if Accepts(db, r.selection, r.now) then Rebooked(db, r.selection) else db
  }

  lemma ExecuteKeepsSchema(db: Db, r: Request)
    requires Schema(db)
    ensures Schema(Execute(db, r))
    ensures FareRows(db) ==> FareRows(Execute(db, r))
    ensures Execute(db, r).fares.Keys == db.fares.Keys && Execute(db, r).segments.Keys == db.segments.Keys
  {
  }

  /** A whole history of accepted and rejected transactions. */
  ghost function ExecuteAll(db: Db, requests: seq<Request>): (end: Db)
    requires Schema(db)
    ensures Schema(end)
  {
    if requests == [] then db
    else
      var before := ExecuteAll(db, requests[..|requests| - 1]);
      ExecuteKeepsSchema(before, requests[|requests| - 1]);
      Execute(before, requests[|requests| - 1])
  }

  lemma ExecuteAllSnoc(db: Db, requests: seq<Request>, r: Request)
    requires Schema(db)
    ensures ExecuteAll(db, requests + [r]) == Execute(ExecuteAll(db, requests), r)
  {
    assert (requests + [r])[..|requests|] == requests;
  }
}
