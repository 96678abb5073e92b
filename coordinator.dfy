/**
  `MapCoordinator`: the state machine that turns viewport changes into Overpass
  requests and folds the fetched results into one running result.

  The coordinator keeps the last result and its bounds. On each bounds value it
  either resets (the `.arbitrary` sentinel) or plans a request: a detail filter
  from the viewport's diameter, and the regions to fetch, which are the whole
  viewport when nothing is cached and otherwise the part of the viewport that
  the cached result does not cover. When a fetch completes, the closure that
  `sink` registered merges the fetched result into the result held AT THAT
  TIME, using the viewport captured when the request was made, and publishes
  the new result.

  The functions `AfterReceive`, `AfterComplete` and `Replay` give that
  behaviour on values; the class `MapCoordinator` does it by updating its
  fields, and its methods are proved against those functions.
 */
module Coordination {
  import opened Wrappers
  import opened Overpass
  import Detail
  import Query

  /** `Subscribers.Demand`: how many more values the subscriber accepts. */
  datatype Demand = Unlimited | Max(count: nat)

  /** The coordinator's fields, and the values its subject has sent so far. */
  datatype State<R> = State(lastResult: Option<R>, lastBounds: Option<Bounds>, published: seq<R>)

  /** The fresh coordinator: nothing cached, nothing sent. */
  function Initial<R>(): State<R>
  {
    State(None, None, [])
  }

  /** The invariant the coordinator keeps: `lastBounds == lastResult?.bounds`. */
  predicate Consistent<R>(lib: Library<R>, s: State<R>)
  {
    match s.lastResult
    case None => s.lastBounds == None
    case Some(r) => s.lastBounds == Some(lib.boundsOf(r))
  }

  /** The regions a request for `input` covers, given the cached result. */
  function FetchRegions<R>(lib: Library<R>, last: Option<R>, input: Bounds): seq<Bounds>
  {
    match last
    case None => [input]
    case Some(previous) => lib.difference(input, lib.boundsOf(previous))
  }

  /** The request `receive(input)` issues, or `None` on the sentinel. */
  function Plan<R>(lib: Library<R>, last: Option<R>, input: Bounds): Option<seq<seq<Statement>>>
  {
    if input.Arbitrary? then None
    else Some(Query.Build(FetchRegions(lib, last, input), Detail.Filter(lib.diameter(input))))
  }

  /** The state after `receive(input)` returns: the sentinel clears the cache, anything else leaves it. */
  function AfterReceive<R>(s: State<R>, input: Bounds): State<R>
  {
    if input.Arbitrary? then s.(lastResult := None, lastBounds := None) else s
  }

  /** The result a completion installs: the fetched one, or the cached one expanded with it. */
  function Merge<R>(lib: Library<R>, last: Option<R>, fetched: R, captured: Bounds): R
  {
    match last
    case None => fetched
    case Some(previous) => lib.expanded(previous, fetched, captured)
  }

  /** The state after the completion closure of a request made for `captured` runs with `fetched`. */
  function AfterComplete<R>(lib: Library<R>, s: State<R>, fetched: R, captured: Bounds): State<R>
  {
    var result := Merge(lib, s.lastResult, fetched, captured);
    State(Some(result), Some(lib.boundsOf(result)), s.published + [result])
  }

  /** What happens to a coordinator: a bounds value arrives, or a fetch completes. */
  datatype Event<R> = Received(input: Bounds) | Completed(fetched: R, captured: Bounds)

  function Step<R>(lib: Library<R>, s: State<R>, e: Event<R>): State<R>
  {
    match e
    case Received(input) => AfterReceive(s, input)
    case Completed(fetched, captured) => AfterComplete(lib, s, fetched, captured)
  }

  /** The state after a sequence of events, in order. */
  function Replay<R>(lib: Library<R>, s: State<R>, events: seq<Event<R>>): State<R>
    decreases |events|
  {
    if |events| == 0 then s else Replay(lib, Step(lib, s, events[0]), events[1..])
  }

  /** The number of completions in a sequence of events. */
  function Completions<R>(events: seq<Event<R>>): nat
  {
    if |events| == 0 then 0
    else (if events[0].Completed? then 1 else 0) + Completions(events[1..])
  }

  /** Every receive and every completion keeps `lastBounds == lastResult?.bounds`. */
  lemma {:induction false} ReplayKeepsConsistent<R>(lib: Library<R>, s: State<R>, events: seq<Event<R>>)
    requires Consistent(lib, s)
    ensures Consistent(lib, Replay(lib, s, events))
    decreases |events|
  {
    if |events| > 0 {
      ReplayKeepsConsistent(lib, Step(lib, s, events[0]), events[1..]);
    }
  }

  /**
    Each completion sends exactly one value and a receive sends none; what was
    sent before is never taken back.
   */
  lemma {:induction false} ReplayPublishesOncePerCompletion<R>(lib: Library<R>, s: State<R>, events: seq<Event<R>>)
    ensures s.published <= Replay(lib, s, events).published
    ensures |Replay(lib, s, events).published| == |s.published| + Completions(events)
    decreases |events|
  {
    if |events| > 0 {
      ReplayPublishesOncePerCompletion(lib, Step(lib, s, events[0]), events[1..]);
    }
  }

  /** A completion sends the result it installs. */
  lemma CompletionPublishesNewResult<R>(lib: Library<R>, s: State<R>, fetched: R, captured: Bounds)
    ensures var t := AfterComplete(lib, s, fetched, captured);
      t.lastResult.Some? && t.published == s.published + [t.lastResult.value]
      && (s.lastResult.None? ==> t.lastResult == Some(fetched) && t.lastBounds == Some(lib.boundsOf(fetched)))
  {
  }

  /**
    With a consistent state, the regions planned for a concrete viewport are the
    whole viewport when `lastBounds` is nil and the viewport minus `lastBounds`
    otherwise, and every group asks with the viewport's detail filter.
   */
  lemma PlanUsesLastBounds<R>(lib: Library<R>, s: State<R>, input: Bounds)
    requires Consistent(lib, s) && !input.Arbitrary?
    ensures Plan(lib, s.lastResult, input).Some?
    ensures Query.Demux(Plan(lib, s.lastResult, input).value).Some?
    ensures var tags := Query.Demux(Plan(lib, s.lastResult, input).value).value;
      var regions := if s.lastBounds.Some? then lib.difference(input, s.lastBounds.value) else [input];
      |tags| == |regions| &&
      forall i :: 0 <= i < |tags| ==>
        tags[i] == Query.Tagged(i, regions[i], Detail.Filter(lib.diameter(input)))
  {
    var regions := FetchRegions(lib, s.lastResult, input);
    var detail := Detail.Filter(lib.diameter(input));
    assert regions == if s.lastBounds.Some? then lib.difference(input, s.lastBounds.value) else [input];
    assert Plan(lib, s.lastResult, input) == Some(Query.Build(regions, detail));
    Query.DemuxBuild(regions, detail);
  }

  /** The events of a drag end: the new viewport is received, then its fetch completes. */
  function Drags<R>(viewports: seq<Bounds>, fetched: seq<R>): (events: seq<Event<R>>)
    requires |viewports| == |fetched|
    ensures |events| == 2 * |viewports|
  {
    if |viewports| == 0 then []
    else [Received(viewports[0]), Completed(fetched[0], viewports[0])] + Drags(viewports[1..], fetched[1..])
  }

  /** A merge contract the library would need: the merged result covers the requested viewport. */
  ghost predicate MergeCoversViewport<R(!new)>(lib: Library<R>)
  {
    forall previous, fetched, viewport :: lib.boundsOf(lib.expanded(previous, fetched, viewport)) == viewport
  }

  /**
    Coverage follows the viewport: if the library's merge meets that contract,
    then after a run of drags that each complete before the next begins, the
    coordinator's `lastBounds` is the last viewport. With nothing cached at the
    start, this needs at least two drags: the first fetch is installed as it
    is, so only from the second on does the merge set the bounds.
   */
  lemma {:induction false} DragsCoverLastViewport<R(!new)>(lib: Library<R>, s: State<R>, viewports: seq<Bounds>, fetched: seq<R>)
    requires MergeCoversViewport(lib)
    requires s.lastResult.Some? || |viewports| >= 2
    requires |viewports| == |fetched| > 0
    requires forall i :: 0 <= i < |viewports| ==> !viewports[i].Arbitrary?
    ensures Replay(lib, s, Drags(viewports, fetched)).lastBounds == Some(viewports[|viewports| - 1])
    decreases |viewports|
  {
    var events := Drags(viewports, fetched);
    var t := AfterComplete(lib, s, fetched[0], viewports[0]);
    assert Step(lib, s, events[0]) == s;
    assert events[1..][1..] == Drags(viewports[1..], fetched[1..]);
    assert Replay(lib, s, events) == Replay(lib, t, Drags(viewports[1..], fetched[1..]));
    if |viewports| > 1 {
      DragsCoverLastViewport(lib, t, viewports[1..], fetched[1..]);
    } else {
      assert Drags(viewports[1..], fetched[1..]) == [];
    }
  }

  /**
    A pinch end sends the sentinel and then the new viewport: whatever was
    cached, the request covers exactly that viewport, and when it completes the
    fetched result is installed as it is.
   */
  lemma PinchRefetchesViewport<R>(lib: Library<R>, s: State<R>, viewport: Bounds, fetched: R)
    requires !viewport.Arbitrary?
    ensures var reset := Replay(lib, s, [Received(Arbitrary), Received(viewport)]);
      reset.lastResult == None && reset.lastBounds == None && reset.published == s.published
      && Plan(lib, reset.lastResult, viewport) == Some(Query.Build([viewport], Detail.Filter(lib.diameter(viewport))))
    ensures var done := Replay(lib, s, [Received(Arbitrary), Received(viewport), Completed(fetched, viewport)]);
      done.lastResult == Some(fetched) && done.lastBounds == Some(lib.boundsOf(fetched))
      && done.published == s.published + [fetched]
  {
    var e3: seq<Event<R>> := [Received(Arbitrary), Received(viewport), Completed(fetched, viewport)];
    var e2 := e3[..2];
    var reset := AfterReceive(s, Arbitrary);
    assert e2[1..] == [Received(viewport)] && e3[1..] == [Received(viewport), Completed(fetched, viewport)];
    assert e3[1..][1..] == [Completed(fetched, viewport)];
    assert Replay(lib, reset, [Received(viewport)]) == Replay(lib, reset, []);
    assert Replay(lib, s, e2) == reset;
    assert Replay(lib, reset, [Completed(fetched, viewport)])
      == Replay(lib, AfterComplete(lib, reset, fetched, viewport), []);
    assert Replay(lib, s, e3) == AfterComplete(lib, reset, fetched, viewport);
  }

  /**
    A sentinel that arrives while a request is in flight: the completion finds
    nothing cached and installs the fetched result as it is, even though that
    request only asked for the part of its viewport the old result lacked.
   */
  lemma InFlightResetInstallsFetched<R>(lib: Library<R>, s: State<R>, viewport: Bounds, fetched: R)
    requires s.lastResult.Some? && !viewport.Arbitrary?
    ensures Plan(lib, s.lastResult, viewport)
      == Some(Query.Build(lib.difference(viewport, lib.boundsOf(s.lastResult.value)), Detail.Filter(lib.diameter(viewport))))
    ensures var done := Replay(lib, s, [Received(viewport), Received(Arbitrary), Completed(fetched, viewport)]);
      done.lastResult == Some(fetched) && done.lastBounds == Some(lib.boundsOf(fetched))
  {
    var e: seq<Event<R>> := [Received(viewport), Received(Arbitrary), Completed(fetched, viewport)];
    var reset := AfterReceive(s, Arbitrary);
    assert e[1..] == [Received(Arbitrary), Completed(fetched, viewport)];
    assert e[1..][1..] == [Completed(fetched, viewport)];
    assert Replay(lib, reset, [Completed(fetched, viewport)])
      == Replay(lib, AfterComplete(lib, reset, fetched, viewport), []);
    assert Replay(lib, s, e) == AfterComplete(lib, reset, fetched, viewport);
  }

  /** The coordinator object, with the fields the Swift class updates in place. */
  class MapCoordinator<R> {
    /** The Overpass library operations the coordinator calls. */
    const lib: Library<R>
    var lastResult: Option<R>
    var lastBounds: Option<Bounds>
    /** The values sent through the coordinator's subject, oldest first. */
    var published: seq<R>

    function Snapshot(): State<R>
      reads this
    {
      State(lastResult, lastBounds, published)
    }

    ghost predicate Valid()
      reads this
    {
      Consistent(lib, Snapshot())
    }

    constructor (lib: Library<R>)
      ensures Valid() && this.lib == lib
      ensures Snapshot() == Initial()
    {
      this.lib := lib;
      lastResult := None;
      lastBounds := None;
      published := [];
    }

    /**
      `receive(_ input:)`: resets on the sentinel; otherwise returns the request
      and leaves the fields alone until the fetch completes. Always asks for
      unlimited demand.
     */
    method Receive(input: Bounds) returns (demand: Demand, request: Option<seq<seq<Statement>>>)
      requires Valid()
      modifies this
      ensures Valid()
      ensures demand == Unlimited
      ensures request == Plan(lib, old(lastResult), input)
      ensures input.Arbitrary? <==> request == None
      ensures Snapshot() == AfterReceive(old(Snapshot()), input)
      ensures published == old(published)
    {
      if input.Arbitrary? {
        lastResult := None;
        lastBounds := None;
        return Unlimited, None;
      }
      var detail := Detail.Filter(lib.diameter(input));
      var bounds := [input];
      if lastResult.Some? {
        bounds := lib.difference(input, lib.boundsOf(lastResult.value));
      }
      request := Some(Query.Build(bounds, detail));
      demand := Unlimited;
    }

    /**
      The completion closure of a request made for `captured`: merges `fetched`
      into whatever is cached now, keeps `lastBounds` in step and sends the new
      result.
     */
    method Complete(fetched: R, captured: Bounds)
      requires Valid()
      modifies this
      ensures Valid()
      ensures Snapshot() == AfterComplete(lib, old(Snapshot()), fetched, captured)
      ensures lastResult == Some(Merge(lib, old(lastResult), fetched, captured))
      ensures lastBounds == Some(lib.boundsOf(lastResult.value))
      ensures published == old(published) + [lastResult.value]
    {
      if lastResult.Some? {
        var merged := lib.expanded(lastResult.value, fetched, captured);
        lastBounds := Some(lib.boundsOf(merged));
        lastResult := Some(merged);
      } else {
        lastResult := Some(fetched);
        lastBounds := Some(lib.boundsOf(fetched));
      }
      if lastResult.Some? {
        published := published + [lastResult.value];
      }
    }
  }

  /** The view's drag end: sends the new viewport. */
  method DragEnded<R>(coordinator: MapCoordinator<R>, viewport: Bounds) returns (request: Option<seq<seq<Statement>>>)
    requires coordinator.Valid() && !viewport.Arbitrary?
    modifies coordinator
    ensures coordinator.Valid() && coordinator.Snapshot() == old(coordinator.Snapshot())
    ensures request == Some(Query.Build(
      if old(coordinator.lastBounds).Some? then coordinator.lib.difference(viewport, old(coordinator.lastBounds).value) else [viewport],
      Detail.Filter(coordinator.lib.diameter(viewport))))
  {
    var demand;
    demand, request := coordinator.Receive(viewport);
  }

  /** The view's pinch end: sends the sentinel, then the new viewport. */
  method PinchEnded<R>(coordinator: MapCoordinator<R>, viewport: Bounds) returns (request: Option<seq<seq<Statement>>>)
    requires coordinator.Valid() && !viewport.Arbitrary?
    modifies coordinator
    ensures coordinator.Valid()
    ensures coordinator.lastResult == None && coordinator.lastBounds == None
    ensures coordinator.published == old(coordinator.published)
    ensures request == Some(Query.Build([viewport], Detail.Filter(coordinator.lib.diameter(viewport))))
  {
    var demand;
    demand, request := coordinator.Receive(Arbitrary);
    demand, request := coordinator.Receive(viewport);
  }
}
