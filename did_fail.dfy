/** The fetchDidFail phase of fetchWrapper.fetch: after the transport fails,
    every plugin that has the hook is told, in list order, about the original
    request, the request that was dispatched, and the error. */
module FetchDidFail {
  import opened FetchTypes
  import opened Trace

  /** The calls the phase makes over the whole list, in order. */
  function DidFailCalls(plugins: seq<Plugin>, original: Request, request: Request, error: Error): (r: seq<Event>)
    ensures |r| <= |plugins|
    decreases |plugins|
  {
    if plugins == [] then []
    else
      var n := |plugins| - 1;
      DidFailCalls(plugins[..n], original, request, error)
      + (if plugins[n].hasFetchDidFail then [DidFailCalled(n, original, request, error)] else [])
  }

  lemma DidFailCallsOfPrefix(plugins: seq<Plugin>, m: nat, original: Request, request: Request, error: Error)
    requires m < |plugins|
    ensures DidFailCalls(plugins[..m + 1], original, request, error)
         == DidFailCalls(plugins[..m], original, request, error)
            + (if plugins[m].hasFetchDidFail then [DidFailCalled(m, original, request, error)] else [])
  {
    assert plugins[..m + 1][..m] == plugins[..m];
  }

  /** Every call is a fetchDidFail call of a listed plugin that has the hook,
      in list order, and each is told the same original request, dispatched
      request and error. */
  lemma {:induction false} DidFailCallsInOrder(plugins: seq<Plugin>, original: Request, request: Request, error: Error)
    ensures var calls := DidFailCalls(plugins, original, request, error);
      && OnlyDidFailCalls(calls, |plugins|)
      && InPluginOrder(calls)
      && forall k :: 0 <= k < |calls| ==>
           calls[k] == DidFailCalled(calls[k].plugin, original, request, error)
           && plugins[calls[k].plugin].hasFetchDidFail
    decreases |plugins|
  {
    if plugins != [] {
      var n := |plugins| - 1;
      var init := plugins[..n];
      var prev := DidFailCalls(init, original, request, error);
      DidFailCallsInOrder(init, original, request, error);
      assert forall j :: 0 <= j < n ==> init[j] == plugins[j];
      if plugins[n].hasFetchDidFail {
        var calls := prev + [DidFailCalled(n, original, request, error)];
        assert DidFailCalls(plugins, original, request, error) == calls;
        assert forall k :: 0 <= k < |prev| ==> calls[k] == prev[k];
      } else {
        assert DidFailCalls(plugins, original, request, error) == prev;
      }
    }
  }

  /** The fetchDidFail hook of plugin `i` is called exactly once if the
      plugin has one, and never otherwise. */
  lemma {:induction false} DidFailCalledOnce(plugins: seq<Plugin>, original: Request, request: Request, error: Error, i: nat)
    ensures Count(DidFailCalls(plugins, original, request, error), DidFailOf(i))
            == if i < |plugins| && plugins[i].hasFetchDidFail then 1 else 0
    decreases |plugins|
  {
    if plugins != [] {
      var n := |plugins| - 1;
      var init := plugins[..n];
      var prev := DidFailCalls(init, original, request, error);
      DidFailCalledOnce(init, original, request, error, i);
      if i < n {
        assert init[i] == plugins[i];
      }
      if plugins[n].hasFetchDidFail {
        var ev := DidFailCalled(n, original, request, error);
        assert DidFailCalls(plugins, original, request, error) == prev + [ev];
        CountAppend(prev, [ev], DidFailOf(i));
        assert [ev][..0] == [];
        if i == n {
          assert Count([ev], DidFailOf(i)) == 1;
        } else {
          assert Count([ev], DidFailOf(i)) == 0;
        }
      } else {
        assert DidFailCalls(plugins, original, request, error) == prev;
      }
    }
  }

  /** A plugin without the hook appended to the list adds no call, and the
      calls made belong to plugins before it. */
  lemma AppendPluginWithoutDidFail(a: seq<Plugin>, p: Plugin, original: Request, request: Request, error: Error)
    requires !p.hasFetchDidFail
    ensures DidFailCalls(a + [p], original, request, error) == ShiftAll(DidFailCalls(a, original, request, error), |a|)
  {
    DidFailCallsOfPrefix(a + [p], |a|, original, request, error);
    assert (a + [p])[..|a|] == a;
    assert (a + [p])[..|a| + 1] == a + [p];
    var calls := DidFailCalls(a, original, request, error);
    DidFailCallsInOrder(a, original, request, error);
    assert forall k :: 0 <= k < |calls| ==> PluginOf(calls[k]) < |a|;
    ShiftAllBelow(calls, |a|);
  }

  /** Inserting a plugin without the hook at position |a| adds no call, and
      renumbers the calls of the plugins after it. */
  lemma {:induction false} SkipPluginWithoutDidFail(a: seq<Plugin>, p: Plugin, b: seq<Plugin>,
                                                    original: Request, request: Request, error: Error)
    requires !p.hasFetchDidFail
    ensures DidFailCalls(a + [p] + b, original, request, error)
         == ShiftAll(DidFailCalls(a + b, original, request, error), |a|)
    decreases |b|
  {
    if b == [] {
      assert a + [p] + b == a + [p];
      assert a + b == a;
      AppendPluginWithoutDidFail(a, p, original, request, error);
    } else {
      var b' := b[..|b| - 1];
      var q := b[|b| - 1];
      var with := a + [p] + b;
      var without := a + b;
      SkipPluginWithoutDidFail(a, p, b', original, request, error);
      assert with[..|a| + 1 + |b'|] == a + [p] + b' && with[|a| + 1 + |b'|] == q;
      assert without[..|a| + |b'|] == a + b' && without[|a| + |b'|] == q;
      var prevWith := DidFailCalls(a + [p] + b', original, request, error);
      var prevWithout := DidFailCalls(a + b', original, request, error);
      if q.hasFetchDidFail {
        assert DidFailCalls(with, original, request, error)
            == prevWith + [DidFailCalled(|a| + |b'| + 1, original, request, error)];
        assert DidFailCalls(without, original, request, error)
            == prevWithout + [DidFailCalled(|a| + |b'|, original, request, error)];
        ShiftAppendDidFail(prevWithout, |a| + |b'|, original, request, error, |a|);
      } else {
        assert DidFailCalls(with, original, request, error) == prevWith;
        assert DidFailCalls(without, original, request, error) == prevWithout;
      }
    }
  }

  /** A trace of hook calls and one dispatch, followed by the calls of this
      phase: every plugin with the hook is called exactly once and the others
      never, each call is told the original request, the dispatched request
      and the error, the calls follow the dispatch in list order, and when one
      runs no later plugin has been called yet. */
  lemma NotifiedAfterDispatch(calls: seq<Event>, d: Event, plugins: seq<Plugin>,
                              original: Request, request: Request, error: Error)
    requires OnlyWillFetchCalls(calls, |plugins|) && d.Dispatched?
    ensures var trace := calls + [d] + DidFailCalls(plugins, original, request, error);
      && (forall i: nat :: Count(trace, DidFailOf(i)) == if i < |plugins| && plugins[i].hasFetchDidFail then 1 else 0)
      && (forall a :: 0 <= a < |trace| && trace[a].DidFailCalled? ==>
            trace[a] == DidFailCalled(trace[a].plugin, original, request, error))
      && (forall a, b :: 0 <= a < b < |trace| && trace[b].DidFailCalled? && trace[a].DidFailCalled? ==>
            trace[a].plugin < trace[b].plugin)
      && (forall a, b :: 0 <= a < |trace| && 0 <= b < |trace| && trace[a].Dispatched? && trace[b].DidFailCalled? ==>
            a < b)
      && (forall a, j: nat :: 0 <= a < |trace| && trace[a].DidFailCalled? && j > trace[a].plugin ==>
            Count(trace[..a], DidFailOf(j)) == 0)
  {
    var head := calls + [d];
    var fails := DidFailCalls(plugins, original, request, error);
    DidFailCallsInOrder(plugins, original, request, error);
    assert forall k :: 0 <= k < |head| ==> !head[k].DidFailCalled?;
    ObserversAfterHead(head, fails, |plugins|);
    forall i: nat
      ensures Count(fails, DidFailOf(i)) == if i < |plugins| && plugins[i].hasFetchDidFail then 1 else 0
    {
      DidFailCalledOnce(plugins, original, request, error, i);
    }
  }
}
