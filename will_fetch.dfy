/** The requestWillFetch phase of fetchWrapper.fetch: a left fold over the
    plugin list that threads the current request through every plugin that
    has the hook, and stops at the first hook that throws. */
module RequestWillFetch {
  import opened FetchTypes
  import opened Trace

  /** Where the phase ends: with the request to dispatch, or at the plugin
      whose hook threw. `calls` records every hook call made, in order. */
  datatype ChainOutcome =
    | Completed(request: Request, calls: seq<Event>)
    | Aborted(plugin: nat, error: Error, calls: seq<Event>)

  /** Plugin `i` of the list applied to the phase so far. */
  function Step(prev: ChainOutcome, p: Plugin, i: nat, original: Request): (r: ChainOutcome)
    ensures prev.Aborted? ==> r == prev
    ensures |prev.calls| <= |r.calls| <= |prev.calls| + 1 && r.calls[..|prev.calls|] == prev.calls
  {
    match prev
    case Aborted(_, _, _) => prev
    case Completed(current, calls) =>
      match p.requestWillFetch
      case None => prev
      case Some(hook) =>
        var seen := calls + [WillFetchCalled(i, current)];
        match hook(WillFetchContext(original, current))
        case Returned(next) => Completed(next, seen)
        case Threw(e) => Aborted(i, e, seen)
  }

  /** The phase over the whole list, starting from the original request. */
  function WillFetchChain(plugins: seq<Plugin>, original: Request): (r: ChainOutcome)
    ensures |r.calls| <= |plugins|
    ensures r.Aborted? ==> r.plugin < |plugins|
    decreases |plugins|
  {
    if plugins == [] then Completed(original, [])
    else
      var n := |plugins| - 1;
      Step(WillFetchChain(plugins[..n], original), plugins[n], n, original)
  }

  lemma ChainOfPrefix(plugins: seq<Plugin>, m: nat, original: Request)
    requires m < |plugins|
    ensures WillFetchChain(plugins[..m + 1], original)
         == Step(WillFetchChain(plugins[..m], original), plugins[m], m, original)
  {
    assert plugins[..m + 1][..m] == plugins[..m];
  }

  /** The calls of the phase are requestWillFetch calls of listed plugins,
      made in list order; a hook that throws belongs to a plugin that has one. */
  lemma {:induction false} ChainCallsInOrder(plugins: seq<Plugin>, original: Request)
    ensures var out := WillFetchChain(plugins, original);
      && OnlyWillFetchCalls(out.calls, |plugins|)
      && InPluginOrder(out.calls)
      && (out.Aborted? ==> out.plugin < |plugins| && HasWillFetch(plugins[out.plugin]))
    decreases |plugins|
  {
    if plugins != [] {
      var n := |plugins| - 1;
      ChainCallsInOrder(plugins[..n], original);
    }
  }

  /** How often the hook of plugin `i` is called: once if it has one and the
      phase got that far, never otherwise. */
  lemma {:induction false} ChainCallCount(plugins: seq<Plugin>, original: Request, i: nat)
    ensures var out := WillFetchChain(plugins, original);
      Count(out.calls, WillFetchOf(i))
      == if i < |plugins| && HasWillFetch(plugins[i]) && (out.Aborted? ==> i <= out.plugin) then 1 else 0
    decreases |plugins|
  {
    if plugins != [] {
      var n := |plugins| - 1;
      var init := plugins[..n];
      var prev := WillFetchChain(init, original);
      var out := WillFetchChain(plugins, original);
      ChainCallCount(init, original, i);
      ChainCallsInOrder(init, original);
      if i < n {
        assert init[i] == plugins[i];
      }
      if prev.Aborted? {
        assert out == prev;
      } else if !HasWillFetch(plugins[n]) {
        assert out == prev;
      } else {
        var e := WillFetchCalled(n, prev.request);
        assert out.calls == prev.calls + [e];
        assert out.Aborted? ==> out.plugin == n;
        CountAppend(prev.calls, [e], WillFetchOf(i));
        assert [e][..0] == [];
        if i == n {
          assert Count([e], WillFetchOf(i)) == 1;
        } else {
          assert Count([e], WillFetchOf(i)) == 0;
        }
      }
    }
  }

  /** Each plugin with the hook is called exactly once and the others never,
      in list order; when a hook throws, no later plugin is called. */
  lemma EachHookCalledOnce(plugins: seq<Plugin>, original: Request)
    ensures var out := WillFetchChain(plugins, original);
      && OnlyWillFetchCalls(out.calls, |plugins|)
      && InPluginOrder(out.calls)
      && (out.Completed? ==>
            forall i: nat :: Count(out.calls, WillFetchOf(i))
                             == if i < |plugins| && HasWillFetch(plugins[i]) then 1 else 0)
      && (out.Aborted? ==>
            && out.plugin < |plugins| && HasWillFetch(plugins[out.plugin])
            && forall i: nat :: Count(out.calls, WillFetchOf(i))
                                == if i <= out.plugin && HasWillFetch(plugins[i]) then 1 else 0)
  {
    ChainCallsInOrder(plugins, original);
    var out := WillFetchChain(plugins, original);
    forall i: nat
      ensures Count(out.calls, WillFetchOf(i))
              == if i < |plugins| && HasWillFetch(plugins[i]) && (out.Aborted? ==> i <= out.plugin) then 1 else 0
    {
      ChainCallCount(plugins, original, i);
    }
  }

  /** Once a hook has thrown, later plugins change nothing. */
  lemma {:induction false} AbortIsFinal(plugins: seq<Plugin>, m: nat, original: Request)
    requires m <= |plugins|
    requires WillFetchChain(plugins[..m], original).Aborted?
    ensures WillFetchChain(plugins, original) == WillFetchChain(plugins[..m], original)
    decreases |plugins| - m
  {
    if m < |plugins| {
      ChainOfPrefix(plugins, m, original);
      AbortIsFinal(plugins, m + 1, original);
    } else {
      assert plugins[..m] == plugins;
    }
  }

  /** Plugins without the hook at the end of the list change nothing. */
  lemma {:induction false} HooklessSuffix(plugins: seq<Plugin>, m: nat, original: Request)
    requires m <= |plugins|
    requires forall j :: m <= j < |plugins| ==> !HasWillFetch(plugins[j])
    ensures WillFetchChain(plugins, original) == WillFetchChain(plugins[..m], original)
    decreases |plugins| - m
  {
    if m < |plugins| {
      ChainOfPrefix(plugins, m, original);
      HooklessSuffix(plugins, m + 1, original);
    } else {
      assert plugins[..m] == plugins;
    }
  }

  /** The phase stops at plugin `k` with error `e` exactly when every hook
      before `k` returned and the hook of `k`, given the request they left,
      threw `e`. */
  lemma AbortedIffHookThrew(plugins: seq<Plugin>, k: nat, e: Error, original: Request)
    ensures (WillFetchChain(plugins, original).Aborted?
             && WillFetchChain(plugins, original).plugin == k
             && WillFetchChain(plugins, original).error == e)
        <==> (&& k < |plugins|
              && WillFetchChain(plugins[..k], original).Completed?
              && HasWillFetch(plugins[k])
              && plugins[k].requestWillFetch.value(
                   WillFetchContext(original, WillFetchChain(plugins[..k], original).request))
                 == Threw(e))
  {
    var out := WillFetchChain(plugins, original);
    if out.Aborted? && out.plugin == k && out.error == e {
      EachHookCalledOnce(plugins, original);
      AbortedAt(plugins, original);
    }
    if k < |plugins| && WillFetchChain(plugins[..k], original).Completed? && HasWillFetch(plugins[k])
       && plugins[k].requestWillFetch.value(
            WillFetchContext(original, WillFetchChain(plugins[..k], original).request)) == Threw(e)
    {
      ChainOfPrefix(plugins, k, original);
      AbortIsFinal(plugins, k + 1, original);
    }
  }

  /** The forward half of AbortedIffHookThrew, by induction on the list. */
  lemma {:induction false} AbortedAt(plugins: seq<Plugin>, original: Request)
    requires WillFetchChain(plugins, original).Aborted?
    ensures var k := WillFetchChain(plugins, original).plugin;
      && k < |plugins|
      && WillFetchChain(plugins[..k], original).Completed?
      && HasWillFetch(plugins[k])
      && plugins[k].requestWillFetch.value(
           WillFetchContext(original, WillFetchChain(plugins[..k], original).request))
         == Threw(WillFetchChain(plugins, original).error)
    decreases |plugins|
  {
    var n := |plugins| - 1;
    var init := plugins[..n];
    var prev := WillFetchChain(init, original);
    if prev.Aborted? {
      AbortedAt(init, original);
      var k := prev.plugin;
      assert init[..k] == plugins[..k];
    } else {
      assert plugins[..n] == init;
    }
  }

  /** The request dispatched is the one returned by the last plugin that has
      the hook, when called with the request the plugins before it left;
      what earlier hooks returned is overridden. */
  lemma LastReturnWins(plugins: seq<Plugin>, k: nat, original: Request)
    requires k < |plugins| && HasWillFetch(plugins[k])
    requires forall j :: k < j < |plugins| ==> !HasWillFetch(plugins[j])
    requires WillFetchChain(plugins, original).Completed?
    ensures WillFetchChain(plugins[..k], original).Completed?
    ensures plugins[k].requestWillFetch.value(
              WillFetchContext(original, WillFetchChain(plugins[..k], original).request))
            == Returned(WillFetchChain(plugins, original).request)
  {
    HooklessSuffix(plugins, k + 1, original);
    ChainOfPrefix(plugins, k, original);
  }

  /** With no plugin that has the hook, the original request is dispatched
      and no hook is called. */
  lemma {:induction false} NoHookKeepsOriginal(plugins: seq<Plugin>, original: Request)
    requires forall j :: 0 <= j < |plugins| ==> !HasWillFetch(plugins[j])
    ensures WillFetchChain(plugins, original) == Completed(original, [])
  {
    HooklessSuffix(plugins, 0, original);
  }

  /** `with` is `without` once a plugin without the hook has been inserted
      at position `at`: same outcome, same request or error, the aborting
      plugin and every call renumbered. */
  ghost predicate ShiftedOutcome(with: ChainOutcome, without: ChainOutcome, at: nat) {
    && with.Completed? == without.Completed?
    && (with.Completed? ==> with.request == without.request)
    && (with.Aborted? ==>
          with.error == without.error
          && with.plugin == if without.plugin < at then without.plugin else without.plugin + 1)
    && with.calls == ShiftAll(without.calls, at)
  }

  /** Applying the same plugin, numbered `i` in the list without the
      inserted plugin and `i + 1` in the list with it, keeps the outcomes
      related. */
  lemma StepKeepsShift(with: ChainOutcome, without: ChainOutcome, q: Plugin, i: nat, at: nat, original: Request)
    requires at <= i
    requires ShiftedOutcome(with, without, at)
    ensures ShiftedOutcome(Step(with, q, i + 1, original), Step(without, q, i, original), at)
  {
    // These steps are asserted for proof stability.
    if without.Aborted? {
      assert Step(with, q, i + 1, original) == with;
      assert Step(without, q, i, original) == without;
    } else if !HasWillFetch(q) {
      assert Step(with, q, i + 1, original) == with;
      assert Step(without, q, i, original) == without;
    } else {
      var e := WillFetchCalled(i, without.request);
      var shifted := WillFetchCalled(i + 1, with.request);
      ShiftAppendCall(without.calls, i, without.request, at);
      var outcome := q.requestWillFetch.value(WillFetchContext(original, without.request));
      var afterWith := Step(with, q, i + 1, original);
      var afterWithout := Step(without, q, i, original);
      match outcome
      case Returned(next) =>
        assert afterWith == Completed(next, with.calls + [shifted]);
        assert afterWithout == Completed(next, without.calls + [e]);
      case Threw(err) =>
        assert afterWith == Aborted(i + 1, err, with.calls + [shifted]);
        assert afterWithout == Aborted(i, err, without.calls + [e]);
    }
  }

  /** A plugin without the hook appended to the list changes nothing, and
      the calls made belong to plugins before it. */
  lemma AppendPluginWithoutHook(a: seq<Plugin>, p: Plugin, original: Request)
    requires !HasWillFetch(p)
    ensures ShiftedOutcome(WillFetchChain(a + [p], original), WillFetchChain(a, original), |a|)
  {
    ChainOfPrefix(a + [p], |a|, original);
    assert (a + [p])[..|a|] == a;
    ChainCallsInOrder(a, original);
    var calls := WillFetchChain(a, original).calls;
    assert forall k :: 0 <= k < |calls| ==> PluginOf(calls[k]) < |a|;
    ShiftAllBelow(calls, |a|);
  }

  /** Inserting a plugin without the hook at position |a| leaves the outcome
      as it was, and its calls are those of the list without it, with the
      plugins after it renumbered. */
  lemma {:induction false} SkipPluginWithoutHook(a: seq<Plugin>, p: Plugin, b: seq<Plugin>, original: Request)
    requires !HasWillFetch(p)
    ensures ShiftedOutcome(WillFetchChain(a + [p] + b, original), WillFetchChain(a + b, original), |a|)
    decreases |b|
  {
    if b == [] {
      assert a + [p] + b == a + [p];
      assert a + b == a;
      AppendPluginWithoutHook(a, p, original);
    } else {
      var b' := b[..|b| - 1];
      var q := b[|b| - 1];
      var with := a + [p] + b;
      var without := a + b;
      SkipPluginWithoutHook(a, p, b', original);
      assert with[..|a| + 1 + |b'|] == a + [p] + b' && with[|a| + 1 + |b'|] == q;
      assert without[..|a| + |b'|] == a + b' && without[|a| + |b'|] == q;
      var prevWith := WillFetchChain(a + [p] + b', original);
      var prevWithout := WillFetchChain(a + b', original);
      assert WillFetchChain(with, original) == Step(prevWith, q, |a| + |b'| + 1, original);
      assert WillFetchChain(without, original) == Step(prevWithout, q, |a| + |b'|, original);
      StepKeepsShift(prevWith, prevWithout, q, |a| + |b'|, |a|, original);
    }
  }
}
