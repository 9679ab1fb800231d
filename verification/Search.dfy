/** Searching for rebooking options: grouping the rows of the query by flight, and filtering. */
module Search {
  import opened Prelude
  import opened Airline

  /** A row of the search query: a fare with its flight and its fare class. */
  datatype FareRow = FareRow(key: FareKey, flight: Flight, fareClass: FareClass, fare: Fare)

  datatype AvailableFlight = AvailableFlight(id: Id, flight: Flight, fares: seq<FareRow>)

  // Grouping.

  /** The flights of the rows, each once, in the order of their first rows. */
  function FlightIds(rows: seq<FareRow>): seq<Id> {
    if rows == [] then []
    else
      var before := FlightIds(rows[..|rows| - 1]);
      var id := rows[|rows| - 1].key.flight;
      if id in before then before else before + [id]
  }

  function RowsOf(rows: seq<FareRow>, id: Id): seq<FareRow> {
    if rows == [] then []
    else
      var before := RowsOf(rows[..|rows| - 1], id);
      if rows[|rows| - 1].key.flight == id then before + [rows[|rows| - 1]] else before
  }

  lemma {:induction false} FlightIdsAreTheFlights(rows: seq<FareRow>, id: Id)
    ensures id in FlightIds(rows) <==> exists row :: row in rows && row.key.flight == id
    ensures id in FlightIds(rows) <==> RowsOf(rows, id) != []
  {
    if rows != [] {
      var last := rows[|rows| - 1];
      FlightIdsAreTheFlights(rows[..|rows| - 1], id);
      assert rows == rows[..|rows| - 1] + [last];
      assert last in rows;
    }
  }

  /** The grouping, flight by flight: the flight as its first row has it, and exactly its rows in order. */
  function Grouped(rows: seq<FareRow>): seq<AvailableFlight> {
    var ids := FlightIds(rows);
    seq(|ids|, i requires 0 <= i < |ids| => Group(rows, ids[i]))
  }

  function Group(rows: seq<FareRow>, id: Id): AvailableFlight {
    var own := RowsOf(rows, id);
    AvailableFlight(id, if own == [] then Flight(Scheduled, "", "", 0) else own[0].flight, own)
  }

  /** The position of the first row of a flight. */
  function FirstRow(rows: seq<FareRow>, id: Id): nat {
    if rows == [] then 0
    else if id in FlightIds(rows[..|rows| - 1]) then FirstRow(rows[..|rows| - 1], id) else |rows| - 1
  }

  lemma {:induction false} FirstRowIsFirst(rows: seq<FareRow>, id: Id)
    requires id in FlightIds(rows)
    ensures var f := FirstRow(rows, id);
            f < |rows| && rows[f].key.flight == id && forall j | 0 <= j < f :: rows[j].key.flight != id
  {
    var before := rows[..|rows| - 1];
    if id in FlightIds(before) {
      FirstRowIsFirst(before, id);
    } else {
      FlightIdsAreTheFlights(before, id);
      forall j | 0 <= j < |before| ensures rows[j].key.flight != id { assert before[j] in before; }
    }
  }

  /** Every flight appears once, and flights appear in the order of their first rows. */
  lemma {:induction false} FlightsKeepFirstOccurrenceOrder(rows: seq<FareRow>, i: nat, j: nat)
    requires i < j < |FlightIds(rows)|
    ensures FlightIds(rows)[i] != FlightIds(rows)[j]
    ensures FirstRow(rows, FlightIds(rows)[i]) < FirstRow(rows, FlightIds(rows)[j])
  {
    var before := rows[..|rows| - 1];
    var ids := FlightIds(before);
    assert ids <= FlightIds(rows);
    if j < |ids| {
      FlightsKeepFirstOccurrenceOrder(before, i, j);
    } else {
      FirstRowIsFirst(before, ids[i]);
    }
  }

  lemma GroupAppend(rows: seq<FareRow>, row: FareRow, id: Id)
    ensures RowsOf(rows + [row], id) == RowsOf(rows, id) + if row.key.flight == id then [row] else []
    ensures FlightIds(rows + [row]) ==
            if row.key.flight in FlightIds(rows) then FlightIds(rows) else FlightIds(rows) + [row.key.flight]
  {
    assert (rows + [row])[..|rows|] == rows;
  }

  /** The Python repository fills a dictionary, whose keys stay in insertion order. */
  method GroupWithDictionary(rows: seq<FareRow>) returns (groups: seq<AvailableFlight>)
    ensures groups == Grouped(rows)
  {
    var keys: seq<Id>, values: map<Id, AvailableFlight> := [], map[];
    for n := 0 to |rows|
      invariant keys == FlightIds(rows[..n])
      invariant forall id :: id in values <==> id in keys
      invariant forall id | id in values :: values[id] == Group(rows[..n], id)
    {
      var row := rows[n];
      var id := row.key.flight;
      assert rows[..n + 1] == rows[..n] + [row];
      forall x ensures RowsOf(rows[..n + 1], x) == RowsOf(rows[..n], x) + if x == id then [row] else [] {
        GroupAppend(rows[..n], row, x);
      }
      GroupAppend(rows[..n], row, id);
      FlightIdsAreTheFlights(rows[..n], id);
      if id !in values {
        keys := keys + [id];
        values := values[id := AvailableFlight(id, row.flight, [])];
      }
      values := values[id := values[id].(fares := values[id].fares + [row])];
    }
    assert rows[..|rows|] == rows;
    groups := seq(|keys|, i requires 0 <= i < |keys| => values[keys[i]]);
  }

  lemma IdsAreDistinct(rows: seq<FareRow>, i: nat, j: nat)
    requires i < |FlightIds(rows)| && j < |FlightIds(rows)| && FlightIds(rows)[i] == FlightIds(rows)[j]
    ensures i == j
  {
    if i < j {
      FlightsKeepFirstOccurrenceOrder(rows, i, j);
    } else if j < i {
      FlightsKeepFirstOccurrenceOrder(rows, j, i);
    }
  }

  function Joined(group: AvailableFlight, row: FareRow): AvailableFlight {
    group.(fares := group.fares + [row])
  }

  lemma GroupGrows(before: seq<FareRow>, row: FareRow, id: Id)
    requires id in FlightIds(before)
    ensures Group(before + [row], id) ==
            if row.key.flight == id then Joined(Group(before, id), row) else Group(before, id)
  {
    FlightIdsAreTheFlights(before, id);
    GroupAppend(before, row, id);
  }

  /** A row of a flight seen before joins its group. */
  lemma GroupedJoins(before: seq<FareRow>, row: FareRow, index: nat)
    requires index < |FlightIds(before)| && FlightIds(before)[index] == row.key.flight
    ensures Grouped(before + [row]) == Grouped(before)[index := Joined(Grouped(before)[index], row)]
  {
    var ids := FlightIds(before);
    GroupAppend(before, row, row.key.flight);
    forall i | 0 <= i < |ids|
      ensures Group(before + [row], ids[i]) ==
              if i == index then Joined(Group(before, ids[i]), row) else Group(before, ids[i])
    {
      GroupGrows(before, row, ids[i]);
      if ids[i] == ids[index] { IdsAreDistinct(before, i, index); }
    }
  }

  /** Any other row starts a new group. */
  lemma GroupedStarts(before: seq<FareRow>, row: FareRow)
    requires row.key.flight !in FlightIds(before)
    ensures Grouped(before + [row]) == Grouped(before) + [AvailableFlight(row.key.flight, row.flight, [row])]
  {
    var ids := FlightIds(before);
    FlightIdsAreTheFlights(before, row.key.flight);
    GroupAppend(before, row, row.key.flight);
    forall i | 0 <= i < |ids| ensures Group(before + [row], ids[i]) == Group(before, ids[i]) {
      GroupGrows(before, row, ids[i]);
    }
  }

  /** The Go repository keeps the position of each flight in the result. */
  method GroupWithIndexes(rows: seq<FareRow>) returns (groups: seq<AvailableFlight>)
    ensures groups == Grouped(rows)
  {
    var indexes: map<Id, nat> := map[];
    groups := [];
    for n := 0 to |rows|
      invariant groups == Grouped(rows[..n])
      invariant forall id :: id in indexes <==> id in FlightIds(rows[..n])
      invariant forall id | id in indexes :: indexes[id] < |groups| && FlightIds(rows[..n])[indexes[id]] == id
    {
      var row := rows[n];
      var id := row.key.flight;
      assert rows[..n + 1] == rows[..n] + [row];
      GroupAppend(rows[..n], row, id);
      if id in indexes {
        GroupedJoins(rows[..n], row, indexes[id]);
      } else {
        GroupedStarts(rows[..n], row);
        indexes := indexes[id := |groups|];
        groups := groups + [AvailableFlight(id, row.flight, [])];
      }
      var index := indexes[id];
      groups := groups[index := Joined(groups[index], row)];
    }
    assert rows[..|rows|] == rows;
  }

  /** The positions are in ascending order, without repetition. */
  predicate Ascending(at: seq<nat>) {
    forall i, j | 0 <= i < j < |at| :: at[i] < at[j]
  }

  /** Exactly the positions below n that meet a condition, and all below n. */
  lemma AscendingGrows(at: seq<nat>, n: nat)
    requires Ascending(at) && forall i | i in at :: i < n
    ensures Ascending(at + [n]) && forall i: nat :: i in at + [n] <==> i in at || i == n
  {
    forall k | 0 <= k < |at| ensures at[k] < n { assert at[k] in at; }
  }

  /** The rows of a flight are exactly its rows, each once, in their order. */
  lemma {:induction false} RowsKeepTheirOrder(rows: seq<FareRow>, id: Id) returns (at: seq<nat>)
    ensures Ascending(at) && |RowsOf(rows, id)| == |at|
    ensures forall i: nat :: i in at <==> i < |rows| && rows[i].key.flight == id
    ensures forall k | 0 <= k < |at| :: at[k] < |rows| && RowsOf(rows, id)[k] == rows[at[k]]
  {
    at := [];
    if rows != [] {
      var n := |rows| - 1;
      at := RowsKeepTheirOrder(rows[..n], id);
      if rows[n].key.flight == id {
        AscendingGrows(at, n);
        at := at + [n];
      }
    }
  }

  /** Each group of the result is a flight with the data of its first row and with exactly its rows. */
  lemma GroupsAreTheirRows(rows: seq<FareRow>, g: nat) returns (at: seq<nat>)
    requires g < |Grouped(rows)|
    ensures var group := Grouped(rows)[g];
            && Ascending(at) && |group.fares| == |at| > 0 && at[0] < |rows| && group.flight == rows[at[0]].flight
            && (forall i: nat :: i in at <==> i < |rows| && rows[i].key.flight == group.id)
            && (forall k | 0 <= k < |at| :: at[k] < |rows| && group.fares[k] == rows[at[k]])
  {
    var id := FlightIds(rows)[g];
    FlightIdsAreTheFlights(rows, id);
    at := RowsKeepTheirOrder(rows, id);
  }

  // Filtering.

  datatype Window = Window(from: int, to: int, passengers: int)

  datatype Offer = Offer(key: FareKey, flight: Flight, fareClass: FareClass, fare: Fare, difference: int, fee: int)

  /** The flight fits the original route and the window. */
  predicate FitsFlight(original: Flight, flight: Flight, window: Window) {
    && flight.status.Scheduled? && flight.origin == original.origin && flight.destination == original.destination
    && window.from <= flight.departure <= window.to
  }

  predicate FitsFare(row: FareRow, window: Window) {
    row.fareClass.changeAllowed && row.fare.seats >= window.passengers
  }

  function OfferOf(id: Id, flight: Flight, row: FareRow, pricePaid: int): Offer {
    Offer(FareKey(id, row.key.fareClass), flight, row.fareClass, row.fare, row.fare.price - pricePaid,
        row.fareClass.changeFee)
  }

  /** The offers of one flight: its rows that fit, in order. */
  function OffersOf(candidate: AvailableFlight, rows: seq<FareRow>, window: Window, pricePaid: int): seq<Offer> {
    if rows == [] then []
    else
      var before := OffersOf(candidate, rows[..|rows| - 1], window, pricePaid);
      var row := rows[|rows| - 1];
      if FitsFare(row, window) then before + [OfferOf(candidate.id, candidate.flight, row, pricePaid)] else before
  }

  /** The offers of all candidate flights that fit, in order. */
  function Offers(original: Flight, candidates: seq<AvailableFlight>, window: Window, pricePaid: int): seq<Offer> {
    if candidates == [] then []
    else
      var before := Offers(original, candidates[..|candidates| - 1], window, pricePaid);
      var last := candidates[|candidates| - 1];
      if FitsFlight(original, last.flight, window) then before + OffersOf(last, last.fares, window, pricePaid)
      else before
  }

  datatype SearchError = InvalidWindow | InvalidPassengerCount

  /** `search_rebooking_options` after its queries. */
  method SearchOptions(original: Flight, ownClass: FareClass, pricePaid: int, candidates: seq<AvailableFlight>,
                       window: Window)
    returns (r: Result<seq<Offer>, SearchError>)
    ensures r.Err? <==> window.to < window.from || window.passengers <= 0
    ensures r.Err? ==> r.error == if window.to < window.from then InvalidWindow else InvalidPassengerCount
    ensures r.Ok? ==> r.value == if ownClass.changeAllowed then Offers(original, candidates, window, pricePaid) else []
  {
    if window.to < window.from { return Err(InvalidWindow); }
    if window.passengers <= 0 { return Err(InvalidPassengerCount); }
    if !ownClass.changeAllowed { return Ok([]); }
    var options := FilterCandidates(original, pricePaid, candidates, window);
    r := Ok(options);
  }

  /** The nested loops of both runtimes. */
  method FilterCandidates(original: Flight, pricePaid: int, candidates: seq<AvailableFlight>, window: Window)
    returns (options: seq<Offer>)
    ensures options == Offers(original, candidates, window, pricePaid)
  {
    options := [];
    for n := 0 to |candidates|
      invariant options == Offers(original, candidates[..n], window, pricePaid)
    {
      var candidate := candidates[n];
      assert candidates[..n + 1][..n] == candidates[..n];
      if candidate.flight.status != Scheduled || candidate.flight.origin != original.origin
         || candidate.flight.destination != original.destination
         || candidate.flight.departure < window.from || candidate.flight.departure > window.to {
        continue;
      }
      ghost var start := options;
      for k := 0 to |candidate.fares|
        invariant options == start + OffersOf(candidate, candidate.fares[..k], window, pricePaid)
      {
        var row := candidate.fares[k];
        assert candidate.fares[..k + 1][..k] == candidate.fares[..k];
        if !row.fareClass.changeAllowed || row.fare.seats < window.passengers {
          continue;
        }
        options := options + [OfferOf(candidate.id, candidate.flight, row, pricePaid)];
      }
      assert candidate.fares[..|candidate.fares|] == candidate.fares;
    }
    assert candidates[..|candidates|] == candidates;
  }

  /** Some candidate carries the segment's own fare class. */
  predicate Carries(candidates: seq<AvailableFlight>, fareClass: Id) {
    exists i, k :: 0 <= i < |candidates| && 0 <= k < |candidates[i].fares|
                   && candidates[i].fares[k].key.fareClass == fareClass
  }

  /** Every candidate fare of that class has this definition of the class. */
  predicate ClassIs(candidates: seq<AvailableFlight>, fareClass: Id, def: FareClass) {
    forall i, k | 0 <= i < |candidates| && 0 <= k < |candidates[i].fares| ::
      candidates[i].fares[k].key.fareClass == fareClass ==> candidates[i].fares[k].fareClass == def
  }

  /** The Go runtime finds the segment's own fare class among the candidates, and offers nothing
      when it is not there; otherwise its list is the one of the Python runtime. */
  method BuildOptions(original: Flight, fareClass: Id, ghost ownClass: FareClass, pricePaid: int,
                      candidates: seq<AvailableFlight>, window: Window) returns (options: seq<Offer>)
    requires ClassIs(candidates, fareClass, ownClass)
    ensures options == if Carries(candidates, fareClass) && ownClass.changeAllowed
                       then Offers(original, candidates, window, pricePaid) else []
  {
    var found := false;
    for n := 0 to |candidates|
      invariant found <==> Carries(candidates[..n], fareClass)
      invariant found ==> ownClass.changeAllowed
    {
      var fares := candidates[n].fares;
      assert candidates[..n + 1] == candidates[..n] + [candidates[n]];
      for k := 0 to |fares|
        invariant found <==> || Carries(candidates[..n], fareClass)
                             || exists j :: 0 <= j < k && fares[j].key.fareClass == fareClass
        invariant found ==> ownClass.changeAllowed
      {
        if fares[k].key.fareClass == fareClass {
          found := true;
          assert candidates[n].fares[k].fareClass == ownClass;
          if !fares[k].fareClass.changeAllowed { return []; }
        }
      }
      CarriesAppend(candidates[..n], candidates[n], fareClass);
    }
    assert candidates[..|candidates|] == candidates;
    if !found { return []; }
    options := FilterCandidates(original, pricePaid, candidates, window);
  }

  lemma CarriesAppend(candidates: seq<AvailableFlight>, last: AvailableFlight, fareClass: Id)
    ensures Carries(candidates + [last], fareClass) <==>
            || Carries(candidates, fareClass)
            || exists j :: 0 <= j < |last.fares| && last.fares[j].key.fareClass == fareClass
  {
    var all := candidates + [last];
    if Carries(candidates, fareClass) {
      var i, k :| 0 <= i < |candidates| && 0 <= k < |candidates[i].fares|
          && candidates[i].fares[k].key.fareClass == fareClass;
      assert all[i].fares[k].key.fareClass == fareClass;
    }
    if j :| 0 <= j < |last.fares| && last.fares[j].key.fareClass == fareClass {
      assert all[|candidates|].fares[j].key.fareClass == fareClass;
    }
  }

  // An offer comes from a row, and validates.

  lemma {:induction false} OffersOfAreRows(candidate: AvailableFlight, rows: seq<FareRow>, window: Window,
      pricePaid: int, o: Offer)
    ensures o in OffersOf(candidate, rows, window, pricePaid) <==>
            exists row :: row in rows && FitsFare(row, window)
                && o == OfferOf(candidate.id, candidate.flight, row, pricePaid)
  {
    if rows != [] {
      OffersOfAreRows(candidate, rows[..|rows| - 1], window, pricePaid, o);
      assert rows == rows[..|rows| - 1] + [rows[|rows| - 1]];
      assert rows[|rows| - 1] in rows;
    }
  }

  /** The offers are exactly those of the fitting rows of the fitting flights. */
  lemma {:induction false} OffersAreTheFittingRows(original: Flight, candidates: seq<AvailableFlight>, window: Window,
                                                  pricePaid: int, o: Offer)
    ensures o in Offers(original, candidates, window, pricePaid) <==>
            exists c, row :: c in candidates && FitsFlight(original, c.flight, window) && row in c.fares
                             && FitsFare(row, window) && o == OfferOf(c.id, c.flight, row, pricePaid)
  {
    if candidates != [] {
      var last := candidates[|candidates| - 1];
      OffersAreTheFittingRows(original, candidates[..|candidates| - 1], window, pricePaid, o);
      OffersOfAreRows(last, last.fares, window, pricePaid, o);
      assert candidates == candidates[..|candidates| - 1] + [last];
      assert last in candidates;
    }
  }

  /** A candidate and one of its fares. */
  type Pair = (nat, nat)

  predicate Before(a: Pair, b: Pair) {
    a.0 < b.0 || (a.0 == b.0 && a.1 < b.1)
  }

  predicate InOrder(pairs: seq<Pair>) {
    forall i, j | 0 <= i < j < |pairs| :: Before(pairs[i], pairs[j])
  }

  /** The fare may be offered: a scheduled flight of the original route within the window, in a class
      that allows changes, with enough seats. */
  predicate Offered(original: Flight, candidates: seq<AvailableFlight>, window: Window, pair: Pair) {
    && pair.0 < |candidates| && pair.1 < |candidates[pair.0].fares|
    && var flight, row := candidates[pair.0].flight, candidates[pair.0].fares[pair.1];
       && flight.status == Scheduled
       && flight.origin == original.origin && flight.destination == original.destination
       && window.from <= flight.departure && flight.departure <= window.to
       && row.fareClass.changeAllowed && window.passengers <= row.fare.seats
  }

  /** The offer is made of this candidate and this fare, at the price it adds to what was paid. */
  predicate MadeOf(o: Offer, candidate: AvailableFlight, row: FareRow, pricePaid: int) {
    && o.key.flight == candidate.id && o.key.fareClass == row.key.fareClass
    && o.flight == candidate.flight && o.fareClass == row.fareClass && o.fare == row.fare
    && o.difference + pricePaid == row.fare.price && o.fee == row.fareClass.changeFee
  }

  lemma {:induction false} FaresInOrder(candidate: AvailableFlight, rows: seq<FareRow>, window: Window, pricePaid: int)
    returns (at: seq<nat>)
    ensures Ascending(at) && |OffersOf(candidate, rows, window, pricePaid)| == |at|
    ensures forall k: nat :: k in at <==>
              k < |rows| && rows[k].fareClass.changeAllowed && window.passengers <= rows[k].fare.seats
    ensures forall m | 0 <= m < |at| ::
              && at[m] < |rows|
              && MadeOf(OffersOf(candidate, rows, window, pricePaid)[m], candidate, rows[at[m]], pricePaid)
  {
    at := [];
    if rows != [] {
      var n := |rows| - 1;
      at := FaresInOrder(candidate, rows[..n], window, pricePaid);
      if rows[n].fareClass.changeAllowed && window.passengers <= rows[n].fare.seats {
        AscendingGrows(at, n);
        at := at + [n];
      }
    }
  }

  /** The pairs of candidate i at these fares. */
  function PairsAt(i: nat, at: seq<nat>): (pairs: seq<Pair>)
    ensures |pairs| == |at| && forall m | 0 <= m < |at| :: pairs[m] == (i, at[m])
  {
    seq(|at|, m requires 0 <= m < |at| => (i, at[m]))
  }

  lemma PairsAtAre(i: nat, at: seq<nat>, pair: Pair)
    ensures pair in PairsAt(i, at) <==> pair.0 == i && pair.1 in at
  {
    if pair.0 == i && pair.1 in at {
      var m :| 0 <= m < |at| && at[m] == pair.1;
      assert PairsAt(i, at)[m] == pair;
    }
  }

  lemma OrderGoesOn(pairs: seq<Pair>, i: nat, at: seq<nat>)
    requires InOrder(pairs) && Ascending(at) && forall m | 0 <= m < |pairs| :: pairs[m].0 < i
    ensures InOrder(pairs + PairsAt(i, at))
  {
  }

  /** The pairs are exactly those that may be offered. */
  ghost predicate Selects(original: Flight, candidates: seq<AvailableFlight>, window: Window, pairs: seq<Pair>) {
    InOrder(pairs) && forall pair: Pair :: pair in pairs <==> Offered(original, candidates, window, pair)
  }

  /** The m-th offer is made of the m-th pair. */
  ghost predicate Makes(candidates: seq<AvailableFlight>, pricePaid: int, pairs: seq<Pair>, offers: seq<Offer>) {
    && |offers| == |pairs|
    && forall m | 0 <= m < |pairs| ::
         && pairs[m].0 < |candidates| && pairs[m].1 < |candidates[pairs[m].0].fares|
         && MadeOf(offers[m], candidates[pairs[m].0], candidates[pairs[m].0].fares[pairs[m].1], pricePaid)
  }

  /** The pairs list these offers. */
  ghost predicate Lists(original: Flight, candidates: seq<AvailableFlight>, window: Window, pricePaid: int,
                        pairs: seq<Pair>)
  {
    && Selects(original, candidates, window, pairs)
    && Makes(candidates, pricePaid, pairs, Offers(original, candidates, window, pricePaid))
  }

  lemma SelectsOneMore(original: Flight, candidates: seq<AvailableFlight>, window: Window,
                       pairs: seq<Pair>, at: seq<nat>)
    requires candidates != [] && Selects(original, candidates[..|candidates| - 1], window, pairs) && Ascending(at)
    requires forall k: nat :: k in at <==> Offered(original, candidates, window, (|candidates| - 1, k))
    ensures Selects(original, candidates, window, pairs + PairsAt(|candidates| - 1, at))
  {
    var n := |candidates| - 1;
    forall m | 0 <= m < |pairs| ensures pairs[m].0 < n { assert pairs[m] in pairs; }
    OrderGoesOn(pairs, n, at);
    forall pair: Pair ensures pair in pairs + PairsAt(n, at) <==> Offered(original, candidates, window, pair) {
      PairsAtAre(n, at, pair);
      assert pair.0 < n ==>
          (Offered(original, candidates, window, pair) <==> Offered(original, candidates[..n], window, pair));
    }
  }

  lemma MakesOneMore(candidates: seq<AvailableFlight>, pricePaid: int, pairs: seq<Pair>, offers: seq<Offer>,
                     at: seq<nat>, more: seq<Offer>)
    requires candidates != [] && Makes(candidates[..|candidates| - 1], pricePaid, pairs, offers) && |more| == |at|
    requires var last := candidates[|candidates| - 1];
             forall m | 0 <= m < |at| :: at[m] < |last.fares| && MadeOf(more[m], last, last.fares[at[m]], pricePaid)
    ensures Makes(candidates, pricePaid, pairs + PairsAt(|candidates| - 1, at), offers + more)
  {
  }

  /** The offers are those of the fares that may be offered, each once, candidate by candidate and
      fare by fare in the given order. */
  lemma {:induction false} OffersKeepTheOrder(original: Flight, candidates: seq<AvailableFlight>, window: Window,
                                              pricePaid: int)
    returns (pairs: seq<Pair>)
    ensures Lists(original, candidates, window, pricePaid, pairs)
  {
    pairs := [];
    if candidates != [] {
      var n := |candidates| - 1;
      var last := candidates[n];
      pairs := OffersKeepTheOrder(original, candidates[..n], window, pricePaid);
      var at := FaresInOrder(last, last.fares, window, pricePaid);
      if !FitsFlight(original, last.flight, window) {
        at := [];
      }
      SelectsOneMore(original, candidates, window, pairs, at);
      MakesOneMore(candidates, pricePaid, pairs, Offers(original, candidates[..n], window, pricePaid), at,
                   if at == [] then [] else OffersOf(last, last.fares, window, pricePaid));
      pairs := pairs + PairsAt(n, at);
    }
  }

  /** Every row shows the tables as they are. */
  ghost predicate RowsShow(db: Db, rows: seq<FareRow>) {
    forall row | row in rows ::
      && row.key in db.fares && row.key.flight in db.flights && row.key.fareClass in db.classes
      && row.fare == db.fares[row.key] && row.flight == db.flights[row.key.flight]
      && row.fareClass == db.classes[row.key.fareClass]
  }

  lemma {:induction false} RowsOfAreRows(rows: seq<FareRow>, id: Id)
    ensures forall row | row in RowsOf(rows, id) :: row in rows && row.key.flight == id
  {
    if rows != [] {
      RowsOfAreRows(rows[..|rows| - 1], id);
    }
  }

  lemma GroupsShow(db: Db, rows: seq<FareRow>, c: AvailableFlight, row: FareRow)
    requires RowsShow(db, rows) && c in Grouped(rows) && row in c.fares
    ensures row in rows && row.key.flight == c.id && c.id in db.flights && c.flight == db.flights[c.id]
  {
    RowsOfAreRows(rows, c.id);
    assert c.fares[0] in c.fares;
  }

  /** The reservation and the segment allow a change to this fare, and the prices can be compared. */
  ghost predicate Eligible(db: Db, segment: Id, o: Offer)
    requires Schema(db) && segment in db.segments
  {
    var seg := db.segments[segment];
    && db.reservations[seg.reservation].status.Confirmed?
    && (seg.status.Confirmed? || (seg.status.Changed? && seg.fare != o.key))
    && o.fare.currency == seg.currency
  }

  lemma OfferFacts(db: Db, rows: seq<FareRow>, segment: Id, window: Window, o: Offer)
    requires Schema(db) && RowsShow(db, rows) && segment in db.segments
    requires var seg := db.segments[segment];
             o in Offers(db.flights[seg.fare.flight], Grouped(rows), window, seg.pricePaid)
    ensures var seg := db.segments[segment];
            && o.key in db.fares && o.fare == db.fares[o.key] && o.fareClass == db.classes[o.key.fareClass]
            && FitsFlight(db.flights[seg.fare.flight], db.flights[o.key.flight], window)
            && o.fareClass.changeAllowed && o.fare.seats >= window.passengers
            && o.difference == o.fare.price - seg.pricePaid && o.fee == o.fareClass.changeFee
  {
    var seg := db.segments[segment];
    var original := db.flights[seg.fare.flight];
    OffersAreTheFittingRows(original, Grouped(rows), window, seg.pricePaid, o);
    var c, row :| c in Grouped(rows) && FitsFlight(original, c.flight, window) && row in c.fares
                  && FitsFare(row, window) && o == OfferOf(c.id, c.flight, row, seg.pricePaid);
    GroupsShow(db, rows, c, row);
    assert o.key == row.key;
  }

  /** On unchanged tables, an offered option validates exactly when the booking is eligible and the
      quoted amount is paid, at the quoted difference and fee. */
  lemma OfferedOptionsValidate(db: Db, rows: seq<FareRow>, segment: Id, window: Window, o: Offer,
                               credit: Option<Id>, amount: int, now: int)
    requires Schema(db) && RowsShow(db, rows) && segment in db.segments
    requires db.classes[db.segments[segment].fare.fareClass].changeAllowed
    requires window.passengers == db.reservations[db.segments[segment].reservation].passengers > 0
    requires var seg := db.segments[segment];
             o in Offers(db.flights[seg.fare.flight], Grouped(rows), window, seg.pricePaid)
    ensures var sel := Selection(segment, o.key, credit, amount);
            && o.key in db.fares && Balance(db, sel) == o.difference + o.fee
            && (Accepts(db, sel, now) <==> Eligible(db, segment, o) && Paid(db, sel, now))
  {
    OfferFacts(db, rows, segment, window, o);
  }
}
