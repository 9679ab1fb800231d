/** The three rebooking transactions, each updating the tables in place: objects of
    the ORM session, guarded SQL statements, and the statements of the Go runtime. */
module Rebooking {
  import opened Prelude
  import opened Airline

  /** What the transaction reads about the segment and the target. */
  function ReadSnapshot(db: Db, sel: Selection): Result<Snapshot, Rejection>
    requires sel.segment in db.segments ==>
               && db.segments[sel.segment].reservation in db.reservations
               && db.segments[sel.segment].fare.flight in db.flights
               && db.segments[sel.segment].fare.fareClass in db.classes
    requires sel.target in db.fares ==> sel.target.flight in db.flights && sel.target.fareClass in db.classes
  {
    if sel.segment !in db.segments then Err(SegmentNotFound)
    else if sel.target !in db.fares then Err(TargetNotFound)
    else
      var seg := db.segments[sel.segment];
      var res := db.reservations[seg.reservation];
      var from, to := db.flights[seg.fare.flight], db.flights[sel.target.flight];
      var fare, fareClass := db.fares[sel.target], db.classes[sel.target.fareClass];
      Ok(Snapshot(sel.segment, seg.reservation, res.customer, seg.fare, seg.status, res.status,
                  from.origin, from.destination, seg.pricePaid, seg.currency,
                      db.classes[seg.fare.fareClass].changeAllowed,
                  sel.target, to.status, to.origin, to.destination,
                  fare.price, fare.currency, fare.seats, fareClass.changeAllowed, fareClass.changeFee, res.passengers))
  }

  /** The ORM looks the credit up by its id alone; a missing one is an error. */
  function ReadCredit(db: Db, sel: Selection): Result<Option<CreditRow>, Rejection> {
    match sel.credit
    case None => Ok(None)
    case Some(c) => if c in db.credits then Ok(Some(CreditRow(c, db.credits[c]))) else Err(CreditNotFound)
  }

  /** The SQL and Go transactions look it up by id and customer. */
  function ReadOwnCredit(db: Db, sel: Selection, customer: Id): Result<Option<CreditRow>, Rejection> {
    match sel.credit
    case None => Ok(None)
    case Some(c) =>
      if c in db.credits && db.credits[c].customer == customer then Ok(Some(CreditRow(c, db.credits[c])))
      else Err(CreditNotFound)
  }

  /** The guard chain accepts exactly the selections described by `Accepts`, with the amounts that `Rebooked` books. */
  lemma ValidateIsExact(db: Db, sel: Selection, now: int, snap: Snapshot, credit: Option<CreditRow>)
    requires Schema(db) && ReadSnapshot(db, sel) == Ok(snap)
    requires ReadCredit(db, sel) == Ok(credit) || ReadOwnCredit(db, sel, snap.customer) == Ok(credit)
    ensures Validate(sel, snap, credit, now).Ok? <==> Accepts(db, sel, now)
    ensures Validate(sel, snap, credit, now).Ok? ==> Matches(db, sel, Validate(sel, snap, credit, now).value)
  {
  }

  const Nil: Id := 0

  /** A selection as the Go runtime holds it: the nil UUID stands for "no credit". */
  datatype GoSelection = GoSelection(segment: Id, target: FareKey, credit: Id, amount: int)

  /** One request as the Go runtime decodes it: a missing credit and a nil one become the same. */
  function ToGo(sel: Selection): GoSelection {
    GoSelection(sel.segment, sel.target, if sel.credit.Some? then sel.credit.value else Nil, sel.amount)
  }

  function FromGo(sel: GoSelection): Selection {
    Selection(sel.segment, sel.target, if sel.credit == Nil then None else Some(sel.credit), sel.amount)
  }

  /** The Go validator, with its own order of checks. */
  function ValidateGo(sel: GoSelection, snap: Snapshot, credit: Option<CreditRow>, now: int)
    : Result<Validation, Rejection>
  {
    if sel.segment == Nil || snap.segment != sel.segment then Err(SegmentNotChangeable)
    else if !snap.reservationStatus.Confirmed? then Err(NotConfirmed)
    else if !snap.segmentStatus.Confirmed? && !snap.segmentStatus.Changed? then Err(SegmentNotChangeable)
    else if snap.segmentStatus.Changed? && snap.before == sel.target then Err(AlreadyApplied)
    else if !snap.changeAllowed then Err(ChangeNotAllowed)
    else if snap.target != sel.target || !snap.targetStatus.Scheduled? || snap.seats < 1 then Err(FlightUnavailable)
    else if snap.origin != snap.targetOrigin || snap.destination != snap.targetDestination then Err(RouteMismatch)
    else if !snap.targetChangeAllowed then Err(ChangeNotAllowed)
    else if snap.targetCurrency != snap.currency then Err(CurrencyMismatch)
    else if snap.passengers <= 0 || snap.seats < snap.passengers then Err(FlightUnavailable)
    else if sel.credit != Nil && !CreditCovers(FromGo(sel), snap, credit, now) then Err(CreditInvalid)
    else if sel.credit == Nil && sel.amount != 0 then Err(CreditInvalid)
    else
      var difference := snap.targetPrice - snap.pricePaid;
      var due := if difference + snap.changeFee < 0 then 0 else difference + snap.changeFee;
      if due > sel.amount || sel.amount > due then Err(CreditInvalid)
      else Ok(Validation(snap.reservation, snap.before, snap.target, snap.targetPrice,
                         difference, snap.changeFee, due, sel.amount, snap.currency, snap.passengers))
  }

  /** The rejection names something that is really wrong. */
  predicate Truthful(e: Rejection, sel: Selection, snap: Snapshot, credit: Option<CreditRow>, now: int) {
    match e
    case SegmentNotChangeable =>
      || sel.segment != snap.segment || sel.segment == Nil
      || snap.segmentStatus == SegmentStatus.Cancelled || snap.segmentStatus == Flown
    case NotConfirmed => snap.reservationStatus != ReservationStatus.Confirmed
    case AlreadyApplied => snap.segmentStatus == Changed && snap.before == sel.target
    case ChangeNotAllowed => !snap.changeAllowed || !snap.targetChangeAllowed
    case FlightUnavailable =>
      snap.target != sel.target || snap.targetStatus != Scheduled || snap.seats < snap.passengers || snap.seats < 1
      || snap.passengers <= 0
    case RouteMismatch => snap.origin != snap.targetOrigin || snap.destination != snap.targetDestination
    case CurrencyMismatch => snap.targetCurrency != snap.currency
    case NoPassengers => snap.passengers <= 0
    case CreditInvalid => BadCredit(sel, snap, credit, now) || sel.amount != Due(snap)
    case AmountMismatch => sel.amount != Due(snap)
    case _ => false
  }

  /** No credit for a positive amount, or one that is missing, foreign, expired, spent or too small. */
  predicate BadCredit(sel: Selection, snap: Snapshot, credit: Option<CreditRow>, now: int) {
    match sel.credit
    case None => sel.amount != 0
    case Some(id) =>
      || credit.None? || credit.value.id != id || sel.amount <= 0
      || var c := credit.value.credit;
         || c.customer != snap.customer || c.currency != snap.currency || c.remaining < sel.amount
         || c.expiresAt <= now || c.status == Used || c.status == Expired
  }

  function Due(snap: Snapshot): int {
    var cost := snap.targetPrice - snap.pricePaid + snap.changeFee;
    if cost < 0 then 0 else cost
  }

  /** Both validators reject for a reason that holds, and for no other; nothing that is wrong is accepted. */
  lemma RejectionsAreTruthful(sel: Selection, snap: Snapshot, credit: Option<CreditRow>, now: int)
    ensures var py := Validate(sel, snap, credit, now);
            && (py.Err? ==> Truthful(py.error, sel, snap, credit, now))
            && (py.Ok? ==> sel.segment == snap.segment && snap.target == sel.target && sel.amount == Due(snap)
                           && !BadCredit(sel, snap, credit, now))
    ensures var go, bare := ValidateGo(ToGo(sel), snap, credit, now), FromGo(ToGo(sel));
            && (go.Err? ==> Truthful(go.error, bare, snap, credit, now))
            && (go.Ok? ==> sel.amount == Due(snap) && !BadCredit(bare, snap, credit, now))
  {
  }

  /** Go accepts a request if and only if its segment is not nil and Python accepts it without a nil
      credit, then with the same amounts. When the request names the nil credit, Python accepts it
      only at a positive amount and Go only at none, so they never both accept it. */
  lemma ValidatorsAgree(sel: Selection, snap: Snapshot, credit: Option<CreditRow>, now: int)
    ensures var go, py := ValidateGo(ToGo(sel), snap, credit, now), Validate(sel, snap, credit, now);
            var bare := Validate(FromGo(ToGo(sel)), snap, credit, now);
            && (go.Ok? <==> bare.Ok? && sel.segment != Nil) && (go.Ok? ==> go == bare)
            && (sel.credit != Some(Nil) ==> bare == py)
            && (sel.credit == Some(Nil) ==> !(go.Ok? && py.Ok?))
  {
  }

  function AddSeats(fares: map<FareKey, Fare>, key: FareKey, n: int): map<FareKey, Fare>
    requires key in fares
  {
    fares[key := fares[key].(seats := fares[key].seats + n)]
  }

  /** Take the seats of the target, then give back those of the old fare if it has a row. */
  function MoveSeats(fares: map<FareKey, Fare>, target: FareKey, before: FareKey, n: int): map<FareKey, Fare>
    requires target in fares
  {
    var taken := AddSeats(fares, target, -n);
    if before in taken then AddSeats(taken, before, n) else taken
  }

  /** Moving the seats one row after the other is the change that `Rebooked` describes
      at once, also when both fares are the same row. */
  lemma SeatsMove(db: Db, sel: Selection)
    requires Schema(db) && sel.segment in db.segments && sel.target in db.fares
    requires sel.credit.Some? ==> sel.credit.value in db.credits
    ensures Rebooked(db, sel).fares ==
            MoveSeats(db.fares, sel.target, db.segments[sel.segment].fare,
                      db.reservations[db.segments[sel.segment].reservation].passengers)
  {
  }

  /** The validation carries the amounts that `Rebooked` books. */
  ghost predicate Matches(db: Db, sel: Selection, v: Validation)
    requires sel.segment in db.segments && sel.target in db.fares && sel.target.fareClass in db.classes
  {
    var seg := db.segments[sel.segment];
    && v.reservation == seg.reservation && v.before == seg.fare && v.after == sel.target
    && v.newPrice == db.fares[sel.target].price && v.currency == seg.currency
    && seg.reservation in db.reservations && v.passengers == db.reservations[seg.reservation].passengers
    && v.creditUsed == sel.amount == Max(Balance(db, sel), 0)
    && v.fee == db.classes[sel.target.fareClass].changeFee && v.difference == v.newPrice - seg.pricePaid
  }

  class Database {
    const flights: map<Id, Flight>
    const classes: map<Id, FareClass>
    var fares: map<FareKey, Fare>
    var segments: map<Id, Segment>
    var reservations: map<Id, Reservation>
    var credits: map<Id, Credit>
    var changes: seq<Change>

    function Contents(): Db
      reads this
    {
      Db(flights, classes, fares, segments, reservations, credits, changes)
    }

    constructor (db: Db)
      ensures Contents() == db
    {
      flights, classes, fares, segments := db.flights, db.classes, db.fares, db.segments;
      reservations, credits, changes := db.reservations, db.credits, db.changes;
    }

    /** The seat counters of the ORM transaction; a missing original fare rolls the first one back. */
    method MoveSeatCounters(target: FareKey, before: FareKey, n: int) returns (moved: bool)
      requires target in fares
      modifies this`fares
      ensures moved <==> before in old(fares)
      ensures fares == if moved then MoveSeats(old(fares), target, before, n) else old(fares)
    {
      var saved := fares;
      fares := AddSeats(fares, target, -n);
      moved := before in fares;
      if moved {
        fares := AddSeats(fares, before, n);
      } else {
        fares := saved;
      }
    }

    /** The ORM transaction after its validation: it changes the objects of the session
        one field after the other. */
    method BookObjects(sel: Selection, v: Validation, ghost now: int) returns (r: Result<Change, Rejection>)
      requires Schema(Contents()) && Accepts(Contents(), sel, now) && Matches(Contents(), sel, v)
      modifies this
      ensures r.Ok? <==> old(segments[sel.segment].fare in fares)
      ensures Contents() == if r.Ok? then Rebooked(old(Contents()), sel) else old(Contents())
      ensures r.Ok? ==> changes == old(changes) + [r.value]
    {
      SeatsMove(Contents(), sel);
      if fares[sel.target].seats < v.passengers { return Err(FlightUnavailable); }
      var moved := MoveSeatCounters(sel.target, v.before, v.passengers);
      if !moved { return Err(OriginalFareNotFound); }
      segments := segments[sel.segment := segments[sel.segment].(fare := v.after, pricePaid := v.newPrice,
                                                                 currency := v.currency, status := Changed)];
      var reservation := reservations[v.reservation];
      reservations := reservations[v.reservation :=
        reservation.(total := reservation.total + v.difference + v.fee - v.creditUsed)];
      if sel.credit.Some? {
        var credit := credits[sel.credit.value];
        credit := credit.(remaining := credit.remaining - sel.amount);
        credit := credit.(status := if credit.remaining == 0 then Used else PartiallyUsed);
        credits := credits[sel.credit.value := credit];
      }
      var change := Change(sel.segment, v.before, v.after, v.difference, v.fee, v.creditUsed, v.currency);
      changes := changes + [change];
      r := Ok(change);
    }

    /** The ORM transaction. */
    method ExecuteOrm(sel: Selection, now: int) returns (r: Result<Change, Rejection>)
      requires Schema(Contents())
      modifies this
      ensures r.Ok? <==> old(Accepts(Contents(), sel, now) && segments[sel.segment].fare in fares)
      ensures Contents() == if r.Ok? then Rebooked(old(Contents()), sel) else old(Contents())
      ensures r.Ok? ==> changes == old(changes) + [r.value]
    {
      var read := ReadSnapshot(Contents(), sel);
      if read.Err? { return Err(read.error); }
      var snap := read.value;
      var creditRead := ReadCredit(Contents(), sel);
      if creditRead.Err? { return Err(creditRead.error); }
      ValidateIsExact(Contents(), sel, now, snap, creditRead.value);
      var validated := Validate(sel, snap, creditRead.value, now);
      if validated.Err? { return Err(validated.error); }
      r := BookObjects(sel, validated.value, now);
    }

    // The SQL statements; an UPDATE whose WHERE clause matches no row changes nothing.

    method DecrementFlightFareSeats(n: int, key: FareKey)
      modifies this`fares
      ensures fares == if key in old(fares) && old(fares)[key].seats >= n
                       then AddSeats(old(fares), key, -n) else old(fares)
    {
      if key in fares && fares[key].seats >= n {
        fares := AddSeats(fares, key, -n);
      }
    }

    method IncrementFlightFareSeats(n: int, key: FareKey)
      modifies this`fares
      ensures fares == if key in old(fares)
                       then AddSeats(old(fares), key, n) else old(fares)
    {
      if key in fares {
        fares := AddSeats(fares, key, n);
      }
    }

    /** The guarded decrement matches its row whenever the target has the seats. */
    method MoveFareSeats(n: int, target: FareKey, before: FareKey)
      requires target in fares && fares[target].seats >= n
      modifies this`fares
      ensures fares == MoveSeats(old(fares), target, before, n)
    {
      DecrementFlightFareSeats(n, target);
      IncrementFlightFareSeats(n, before);
    }

    method UpdateReservationSegment(id: Id, key: FareKey, price: int, currency: string)
      modifies this`segments
      ensures segments == if id in old(segments)
                          then old(segments)[id := Segment(old(segments)[id].reservation, key, Changed, price,
                              currency)]
                          else old(segments)
    {
      if id in segments {
        segments := segments[id := Segment(segments[id].reservation, key, Changed, price, currency)];
      }
    }

    method UpdateReservationTotal(id: Id, amount: int)
      modifies this`reservations
      ensures reservations == if id in old(reservations)
                              then old(reservations)[id := old(reservations)[id].(
                                     total := old(reservations)[id].total + amount)]
                              else old(reservations)
    {
      if id in reservations {
        reservations := reservations[id := reservations[id].(total := reservations[id].total + amount)];
      }
    }

    method ConsumeTravelCredit(id: Id, amount: int)
      modifies this`credits
      ensures credits == if id in old(credits) && old(credits)[id].remaining >= amount
                         then old(credits)[id := old(credits)[id].(
                                remaining := old(credits)[id].remaining - amount,
                                status := if old(credits)[id].remaining - amount == 0 then Used else PartiallyUsed)]
                         else old(credits)
    {
      if id in credits && credits[id].remaining >= amount {
        var left := credits[id].remaining - amount;
        credits := credits[id := credits[id].(remaining := left, status := if left == 0 then Used else PartiallyUsed)];
      }
    }

    /** The statements that follow a successful validation, in the order of the source. */
    method Book(sel: Selection, v: Validation, ghost now: int) returns (change: Change)
      requires Schema(Contents()) && Accepts(Contents(), sel, now) && Matches(Contents(), sel, v)
      modifies this
      ensures Contents() == Rebooked(old(Contents()), sel) && changes == old(changes) + [change]
    {
      SeatsMove(Contents(), sel);
      MoveFareSeats(v.passengers, v.after, v.before);
      UpdateReservationSegment(sel.segment, v.after, v.newPrice, v.currency);
      UpdateReservationTotal(v.reservation, v.difference + v.fee - v.creditUsed);
      if sel.credit.Some? {
        ConsumeTravelCredit(sel.credit.value, sel.amount);
      }
      change := Change(sel.segment, v.before, v.after, v.difference, v.fee, v.creditUsed, v.currency);
      changes := changes + [change];
    }

    /** The SQL transaction. */
    method ExecuteSql(sel: Selection, now: int) returns (r: Result<Change, Rejection>)
      requires Schema(Contents())
      modifies this
      ensures r.Ok? <==> old(Accepts(Contents(), sel, now))
      ensures Contents() == if r.Ok? then Rebooked(old(Contents()), sel) else old(Contents())
      ensures r.Ok? ==> changes == old(changes) + [r.value]
    {
      var read := ReadSnapshot(Contents(), sel);
      if read.Err? { return Err(read.error); }
      var snap := read.value;
      var creditRead := ReadOwnCredit(Contents(), sel, snap.customer);
      if creditRead.Err? { return Err(creditRead.error); }
      ValidateIsExact(Contents(), sel, now, snap, creditRead.value);
      var validated := Validate(sel, snap, creditRead.value, now);
      if validated.Err? { return Err(validated.error); }
      var change := Book(sel, validated.value, now);
      r := Ok(change);
    }

    /** The Go transaction: the same statements behind its own validator. */
    method ExecuteGo(sel: GoSelection, now: int) returns (r: Result<Change, Rejection>)
      requires Schema(Contents())
      modifies this
      ensures r.Ok? <==> old(Accepts(Contents(), FromGo(sel), now)) && sel.segment != Nil
      ensures Contents() == if r.Ok? then Rebooked(old(Contents()), FromGo(sel)) else old(Contents())
      ensures r.Ok? ==> changes == old(changes) + [r.value]
    {
      var read := ReadSnapshot(Contents(), FromGo(sel));
      if read.Err? { return Err(read.error); }
      var snap := read.value;
      var creditRead := ReadOwnCredit(Contents(), FromGo(sel), snap.customer);
      if creditRead.Err? { return Err(creditRead.error); }
      ValidateIsExact(Contents(), FromGo(sel), now, snap, creditRead.value);
      ValidatorsAgree(FromGo(sel), snap, creditRead.value, now);
      assert ToGo(FromGo(sel)) == sel;
      var validated := ValidateGo(sel, snap, creditRead.value, now);
      if validated.Err? { return Err(validated.error); }
      var change := Book(FromGo(sel), validated.value, now);
      r := Ok(change);
    }

    /** `verify` reads back what a transaction has left, with the reservation of the segment. */
    method Verify(sel: Selection) returns (r: Result<Id, Rejection>)
      ensures r.Ok? <==> Verified(Contents(), sel) && segments[sel.segment].reservation in reservations
      ensures r.Ok? ==> r.value == segments[sel.segment].reservation
      ensures r == Err(SegmentNotFound) <==> sel.segment !in segments
      ensures sel.segment in segments && segments[sel.segment].status != Changed ==> r == Err(VerificationFailed)
      ensures sel.segment in segments && segments[sel.segment].fare != sel.target ==> r == Err(VerificationFailed)
    {
      if sel.segment !in segments { return Err(SegmentNotFound); }
      var segment := segments[sel.segment];
      if segment.fare.flight != sel.target.flight || segment.fare.fareClass != sel.target.fareClass
         || segment.status != Changed { return Err(VerificationFailed); }
      if segment.reservation !in reservations { return Err(VerificationFailed); }
      r := Ok(segment.reservation);
    }
  }

  /** The three transactions for one request, each on its own copy of the tables. ORM and SQL differ
      exactly when the selection is accepted although the segment's own fare has no row. SQL and Go
      differ exactly when it is accepted with a nil segment or a nil credit, which Go does not book,
      or when it names a nil credit and would be accepted without one, which only Go books. */
  method CompareRuntimes(db: Db, sel: Selection, now: int) returns (orm: Db, sql: Db, go: Db)
    requires Schema(db)
    ensures sql == Execute(db, Request(sel, now))
    ensures orm == sql <==> !(Accepts(db, sel, now) && db.segments[sel.segment].fare !in db.fares)
    ensures go == sql <==>
            && !(Accepts(db, sel, now) && (sel.segment == Nil || sel.credit == Some(Nil)))
            && !(sel.credit == Some(Nil) && sel.segment != Nil && Accepts(db, sel.(credit := None), now))
    ensures sel.credit != Some(Nil) && !Accepts(db, sel, now) ==> orm == sql == go == db
  {
    orm := RunOrm(db, sel, now);
    sql := RunSql(db, sel, now);
    go := RunGo(db, ToGo(sel), now);
    assert FromGo(ToGo(sel)) == if sel.credit == Some(Nil) then sel.(credit := None) else sel;
  }

  method RunOrm(db: Db, sel: Selection, now: int) returns (after: Db)
    requires Schema(db)
    ensures var booked := Accepts(db, sel, now) && db.segments[sel.segment].fare in db.fares;
            after == (if booked then Rebooked(db, sel) else db) && |after.changes| == |db.changes| + if booked then 1
                else 0
  {
    var d := new Database(db);
    var r := d.ExecuteOrm(sel, now);
    after := d.Contents();
  }

  method RunSql(db: Db, sel: Selection, now: int) returns (after: Db)
    requires Schema(db)
    ensures after == Execute(db, Request(sel, now))
    ensures |after.changes| == |db.changes| + if Accepts(db, sel, now) then 1 else 0
  {
    var d := new Database(db);
    var r := d.ExecuteSql(sel, now);
    after := d.Contents();
  }

  method RunGo(db: Db, sel: GoSelection, now: int) returns (after: Db)
    requires Schema(db)
    ensures var booked := Accepts(db, FromGo(sel), now) && sel.segment != Nil;
            after == (if booked then Rebooked(db, FromGo(sel)) else db)
            && |after.changes| == |db.changes| + if booked then 1 else 0
  {
    var d := new Database(db);
    var r := d.ExecuteGo(sel, now);
    after := d.Contents();
  }

  /** Tables that keep every foreign key, with one segment of this id, booked on the first fare class
      of flight 1; that fare may have a row or not. A move to flight 2 costs nothing. */
  function Tables(segment: Id, ownRow: bool): Db {
    var flight := Flight(Scheduled, "MAD", "LIS", 0);
    var fares := map[FareKey(2, 1) := Fare(100, "EUR", 1)];
    Db(map[1 := flight, 2 := flight], map[1 := FareClass(true, 0)],
       if ownRow then fares[FareKey(1, 1) := Fare(100, "EUR", 1)] else fares,
       map[segment := Segment(3, FareKey(1, 1), SegmentStatus.Confirmed, 100, "EUR")],
       map[3 := Reservation(4, ReservationStatus.Confirmed, 100, 1)], map[], [])
  }

  /** Each difference is real: the missing fare row and the nil segment. */
  lemma TheRuntimesCanDiffer(segment: Id)
    ensures var db, sel := Tables(segment, false), Selection(segment, FareKey(2, 1), None, 0);
            Schema(db) && Accepts(db, sel, 0) && db.segments[segment].fare !in db.fares
  {
  }

  /** And the nil credit, on tables without any other oddity: the request is accepted without its
      credit, so Go books it, and refused with it by Python. */
  lemma ANilCreditSetsGoApart()
    ensures var db, sel := Tables(5, true), Selection(5, FareKey(2, 1), Some(Nil), 0);
            && Schema(db) && FareRows(db) && Nil !in db.segments && Nil !in db.credits
            && !Accepts(db, sel, 0) && Accepts(db, sel.(credit := None), 0) && FromGo(ToGo(sel)) == sel.(credit := None)
  {
  }

  /** A selection that validates executes and verifies when nothing happens in between, and a
      verified segment carries the selected fare. */
  method ValidateExecuteVerify(db: Db, sel: Selection, now: int) returns (accepted: bool, verified: bool)
    requires Schema(db) && FareRows(db)
    ensures accepted <==> Accepts(db, sel, now)
    ensures accepted ==> verified
    ensures verified <==> accepted || Verified(db, sel)
  {
    var d := new Database(db);
    var r := d.ExecuteOrm(sel, now);
    accepted := r.Ok?;
    var read := d.Verify(sel);
    verified := read.Ok?;
  }
}
