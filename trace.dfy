/** Reading a trace the way the tests read their stubs and spies: how often
    something was called, in which order, and how events are renumbered
    when a plugin is inserted into the list. */
module Trace {
  import opened FetchTypes

  /** What a spy or stub counts. */
  datatype Probe = AnyDispatch | WillFetchOf(plugin: nat) | DidFailOf(plugin: nat)

  predicate Matches(e: Event, probe: Probe) {
    match probe
    case AnyDispatch => e.Dispatched?
    case WillFetchOf(i) => e.WillFetchCalled? && e.plugin == i
    case DidFailOf(i) => e.DidFailCalled? && e.plugin == i
  }

  /** The `callCount` of the spy or stub that `probe` names. */
  function Count(trace: seq<Event>, probe: Probe): (n: nat)
    ensures n <= |trace|
  {
    if trace == [] then 0
    else Count(trace[..|trace| - 1], probe) + (if Matches(trace[|trace| - 1], probe) then 1 else 0)
  }

  /** Nothing the probe matches, nothing counted; and the converse. */
  lemma {:induction false} CountZero(trace: seq<Event>, probe: Probe)
    ensures Count(trace, probe) == 0 <==> forall k :: 0 <= k < |trace| ==> !Matches(trace[k], probe)
    decreases |trace|
  {
    if trace != [] {
      var init := trace[..|trace| - 1];
      assert forall k :: 0 <= k < |init| ==> init[k] == trace[k];
      CountZero(init, probe);
    }
  }

  lemma {:induction false} CountAppend(s: seq<Event>, t: seq<Event>, probe: Probe)
    ensures Count(s + t, probe) == Count(s, probe) + Count(t, probe)
    decreases |t|
  {
    if t != [] {
      var t' := t[..|t| - 1];
      assert (s + t)[..|s + t| - 1] == s + t';
      CountAppend(s, t', probe);
    } else {
      assert s + t == s;
    }
  }

  /** The plugin an event belongs to; a dispatch belongs to none. */
  function PluginOf(e: Event): int {
    match e
    case WillFetchCalled(i, _) => i
    case Dispatched(_, _) => -1
    case DidFailCalled(i, _, _, _) => i
  }

  /** Events that happen strictly in plugin-list order. */
  ghost predicate InPluginOrder(events: seq<Event>) {
    forall a, b :: 0 <= a < b < |events| ==> PluginOf(events[a]) < PluginOf(events[b])
  }

  /** Only requestWillFetch calls, and only of plugins below `n`. */
  ghost predicate OnlyWillFetchCalls(events: seq<Event>, n: nat) {
    forall k :: 0 <= k < |events| ==> events[k].WillFetchCalled? && events[k].plugin < n
  }

  /** Only fetchDidFail calls, and only of plugins below `n`. */
  ghost predicate OnlyDidFailCalls(events: seq<Event>, n: nat) {
    forall k :: 0 <= k < |events| ==> events[k].DidFailCalled? && events[k].plugin < n
  }

  /** The event as it reads once a plugin has been inserted at position `at`:
      plugins from `at` on move up by one. */
  function ShiftEvent(e: Event, at: nat): (r: Event)
    ensures r.Dispatched? <==> e.Dispatched?
  {
    match e
    case WillFetchCalled(i, req) => WillFetchCalled(if i < at then i else i + 1, req)
    case Dispatched(_, _) => e
    case DidFailCalled(i, o, req, err) => DidFailCalled(if i < at then i else i + 1, o, req, err)
  }

  function ShiftAll(events: seq<Event>, at: nat): (r: seq<Event>)
    ensures |r| == |events|
  {
    if events == [] then []
    else ShiftAll(events[..|events| - 1], at) + [ShiftEvent(events[|events| - 1], at)]
  }

  lemma {:induction false} ShiftAllAppend(s: seq<Event>, t: seq<Event>, at: nat)
    ensures ShiftAll(s + t, at) == ShiftAll(s, at) + ShiftAll(t, at)
    decreases |t|
  {
    if t == [] {
      assert s + t == s;
    } else {
      var t' := t[..|t| - 1];
      assert (s + t)[..|s + t| - 1] == s + t';
      ShiftAllAppend(s, t', at);
    }
  }

  /** A requestWillFetch call of a plugin at or after `at`, appended, is
      renumbered on its own. */
  lemma ShiftAppendCall(calls: seq<Event>, i: nat, request: Request, at: nat)
    requires at <= i
    ensures ShiftAll(calls + [WillFetchCalled(i, request)], at)
         == ShiftAll(calls, at) + [WillFetchCalled(i + 1, request)]
  {
    // These steps are asserted for proof stability.
    assert (calls + [WillFetchCalled(i, request)])[..|calls|] == calls;
  }

  /** The same for a fetchDidFail call. */
  lemma ShiftAppendDidFail(calls: seq<Event>, i: nat, original: Request, request: Request, error: Error, at: nat)
    requires at <= i
    ensures ShiftAll(calls + [DidFailCalled(i, original, request, error)], at)
         == ShiftAll(calls, at) + [DidFailCalled(i + 1, original, request, error)]
  {
    // These steps are asserted for proof stability.
    assert (calls + [DidFailCalled(i, original, request, error)])[..|calls|] == calls;
  }

  /** Events of plugins below `at` are not renumbered. */
  lemma {:induction false} ShiftAllBelow(events: seq<Event>, at: nat)
    requires forall k :: 0 <= k < |events| ==> PluginOf(events[k]) < at
    ensures ShiftAll(events, at) == events
    decreases |events|
  {
    if events != [] {
      var init := events[..|events| - 1];
      assert forall k :: 0 <= k < |init| ==> init[k] == events[k];
      ShiftAllBelow(init, at);
      assert ShiftEvent(events[|events| - 1], at) == events[|events| - 1];
      assert events == init + [events[|events| - 1]];
    }
  }

  /** A trace made of a part without fetchDidFail calls followed by
      fetchDidFail calls in plugin order: those calls stay in plugin order,
      and when one is made no later plugin's hook has been called yet. */
  lemma ObserversAfterHead(head: seq<Event>, fails: seq<Event>, n: nat)
    requires forall k :: 0 <= k < |head| ==> !head[k].DidFailCalled?
    requires OnlyDidFailCalls(fails, n) && InPluginOrder(fails)
    ensures var trace := head + fails;
      && (forall a, b :: 0 <= a < b < |trace| && trace[b].DidFailCalled? && trace[a].DidFailCalled? ==>
            trace[a].plugin < trace[b].plugin)
      && (forall a, j: nat :: 0 <= a < |trace| && trace[a].DidFailCalled? && j > trace[a].plugin ==>
            Count(trace[..a], DidFailOf(j)) == 0)
      && (forall a :: 0 <= a < |trace| && trace[a].DidFailCalled? ==> |head| <= a && trace[a] == fails[a - |head|])
      && (forall a :: 0 <= a < |trace| && !trace[a].DidFailCalled? ==> a < |head|)
      && (forall j: nat :: Count(trace, DidFailOf(j)) == Count(fails, DidFailOf(j)))
  {
    var trace := head + fails;
    var h := |head|;
    assert forall k :: 0 <= k < |trace| ==> trace[k] == if k < h then head[k] else fails[k - h];
    forall a, j: nat | 0 <= a < |trace| && trace[a].DidFailCalled? && j > trace[a].plugin
      ensures Count(trace[..a], DidFailOf(j)) == 0
    {
      assert forall c :: 0 <= c < a ==> trace[..a][c] == trace[c];
      assert forall c :: 0 <= c < a ==> !Matches(trace[c], DidFailOf(j));
      CountZero(trace[..a], DidFailOf(j));
    }
    forall j: nat ensures Count(trace, DidFailOf(j)) == Count(fails, DidFailOf(j)) {
      CountAppend(head, fails, DidFailOf(j));
      CountZero(head, DidFailOf(j));
    }
  }

  /** A trace made of hook calls, one dispatch, then fetchDidFail calls
      holds exactly one dispatch: that one. */
  lemma SingleDispatch(calls: seq<Event>, tail: seq<Event>, n: nat)
    requires OnlyWillFetchCalls(calls, n)
    requires |tail| >= 1 && tail[0].Dispatched? && OnlyDidFailCalls(tail[1..], n)
    ensures Count(calls + tail, AnyDispatch) == 1
    ensures forall k :: 0 <= k < |calls + tail| && (calls + tail)[k].Dispatched? ==> (calls + tail)[k] == tail[0]
  {
    var rest := tail[1..];
    assert tail == [tail[0]] + rest;
    CountAppend(calls, tail, AnyDispatch);
    CountAppend([tail[0]], rest, AnyDispatch);
    assert [tail[0]][..0] == [];
    CountZero(calls, AnyDispatch);
    CountZero(rest, AnyDispatch);
    var trace := calls + tail;
    assert forall k :: 0 <= k < |trace| ==> trace[k] == if k < |calls| then calls[k] else tail[k - |calls|];
    assert forall k :: 1 <= k < |tail| ==> tail[k] == rest[k - 1];
  }

  /** In a trace made of in-order hook calls, one dispatch, then
      fetchDidFail calls, the hook calls are its head: they come before the
      dispatch and stay in plugin order. */
  lemma HookCallsAtHead(calls: seq<Event>, tail: seq<Event>, n: nat)
    requires OnlyWillFetchCalls(calls, n) && InPluginOrder(calls)
    requires |tail| >= 1 && tail[0].Dispatched? && OnlyDidFailCalls(tail[1..], n)
    ensures var trace := calls + tail;
      && (forall a, b :: 0 <= a < |trace| && 0 <= b < |trace| && trace[a].WillFetchCalled? && trace[b].Dispatched? ==>
            a < b)
      && (forall a, b :: 0 <= a < b < |trace| && trace[a].WillFetchCalled? && trace[b].WillFetchCalled? ==>
            trace[a].plugin < trace[b].plugin)
      && (forall a :: 0 <= a < |trace| && trace[a].WillFetchCalled? ==> a < |calls| && trace[a] == calls[a])
  {
    // These steps are asserted for proof stability.
    var trace := calls + tail;
    assert forall k :: 1 <= k < |tail| ==> tail[k] == tail[1..][k - 1];
    assert forall k :: 0 <= k < |trace| ==> trace[k] == if k < |calls| then calls[k] else tail[k - |calls|];
  }

  /** Renumbering leaves a dispatch in place at the head of what follows it. */
  lemma ShiftLeavesDispatch(d: Event, after: seq<Event>, at: nat)
    requires d.Dispatched?
    ensures ShiftAll([d] + after, at) == [d] + ShiftAll(after, at)
  {
    assert [d][..0] == [];
    assert ShiftAll([d], at) == [d];
    ShiftAllAppend([d], after, at);
  }
}
