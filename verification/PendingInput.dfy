/** Finding the pending human input of a session in its stored events. */
module PendingInput {
  import opened Prelude

  /** A stored event: it may request input, and its parts may answer requests. A nil event,
      nil content and parts without a response are modelled by the empty values. */
  datatype Event = Event(requested: Option<string>, responses: seq<Option<string>>)

  predicate Answers(event: Event, id: string) {
    Some(id) in event.responses
  }

  /** Event i requests an input that no event from i up to n answers. */
  ghost predicate Open(events: seq<Event>, n: nat, i: nat) {
    && i < n <= |events| && events[i].requested.Some?
    && forall k | i <= k < n :: !Answers(events[k], events[i].requested.value)
  }

  /** The positions in `at` are in order and request the ids in `pending`. */
  ghost predicate Requests(events: seq<Event>, at: seq<nat>, pending: seq<string>) {
    && |at| == |pending|
    && (forall j | 0 <= j < |at| :: at[j] < |events| && events[at[j]].requested == Some(pending[j]))
    && (forall j, k | 0 <= j < k < |at| :: at[j] < at[k])
  }

  /** Remove every occurrence of an id, as `slices.DeleteFunc` does. */
  method DeleteAll(events: seq<Event>, ghost at: seq<nat>, pending: seq<string>, id: string)
    returns (kept: seq<string>, ghost left: seq<nat>)
    requires Requests(events, at, pending)
    ensures Requests(events, left, kept)
    ensures forall i :: i in left <==> i in at && events[i].requested != Some(id)
  {
    kept, left := [], [];
    for n := 0 to |pending|
      invariant Requests(events, left, kept)
      invariant forall i | i in left :: i in at[..n]
      invariant forall i :: i in left <==> i in at[..n] && events[i].requested != Some(id)
    {
      assert at[..n + 1] == at[..n] + [at[n]];
      if pending[n] != id {
        kept, left := kept + [pending[n]], left + [at[n]];
      }
    }
    assert at[..|pending|] == at;
  }

  /** Event n requests an input. */
  predicate RequestsAt(events: seq<Event>, n: nat, i: nat) {
    i == n < |events| && events[n].requested.Some?
  }

  /** Process the answers of event n. */
  method Answer(events: seq<Event>, n: nat, ghost at: seq<nat>, pending: seq<string>)
    returns (kept: seq<string>, ghost left: seq<nat>)
    requires n < |events| && Requests(events, at, pending)
    requires forall i: nat :: i in at <==> Open(events, n, i) || RequestsAt(events, n, i)
    ensures Requests(events, left, kept)
    ensures forall i: nat :: i in left <==> Open(events, n + 1, i)
  {
    var responses := events[n].responses;
    kept, left := pending, at;
    for p := 0 to |responses|
      invariant Requests(events, left, kept)
      invariant forall i: nat :: i in left <==> i in at && events[i].requested !in responses[..p]
    {
      assert responses[..p + 1] == responses[..p] + [responses[p]];
      if responses[p].Some? {
        kept, left := DeleteAll(events, left, kept, responses[p].value);
      }
    }
    assert responses[..|responses|] == responses;
  }

  /** Event i holds the latest request that is still open. */
  ghost predicate Latest(events: seq<Event>, i: nat) {
    Open(events, |events|, i) && forall k: nat | k > i :: !Open(events, |events|, k)
  }

  /** `PendingInterrupt`: the id of the latest request that is answered neither in its own nor
      in a later event, or the empty string when every request is answered. */
  method PendingInterrupt(events: seq<Event>) returns (id: string)
    ensures forall i: nat | Latest(events, i) :: events[i].requested == Some(id)
    ensures (forall i: nat :: !Open(events, |events|, i)) ==> id == ""
  {
    var pending: seq<string> := [];
    ghost var at: seq<nat> := [];
    for n := 0 to |events|
      invariant Requests(events, at, pending)
      invariant forall i: nat :: i in at <==> Open(events, n, i)
    {
      if events[n].requested.Some? {
        forall j | 0 <= j < |at| ensures at[j] < n { assert at[j] in at && Open(events, n, at[j]); }
        pending, at := pending + [events[n].requested.value], at + [n];
      }
      pending, at := Answer(events, n, at, pending);
    }
    if pending == [] {
      id := "";
    } else {
      var last := |pending| - 1;
      id := pending[last];
      assert at[last] in at && Latest(events, at[last]);
    }
  }

  /** Whenever some request is open there is a latest one, so `PendingInterrupt` answers in every case. */
  lemma {:induction false} LatestExists(events: seq<Event>, i: nat) returns (last: nat)
    requires Open(events, |events|, i)
    ensures i <= last && Latest(events, last)
    decreases |events| - i
  {
    if k: nat :| k > i && Open(events, |events|, k) {
      last := LatestExists(events, k);
    } else {
      last := i;
    }
  }
}
