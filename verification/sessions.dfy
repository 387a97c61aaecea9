/** Facts about the session block on its own (HelmDeploymentCommand.execute, the try-with-resources
    statement): what its body sends, which resources it brackets, and what it leaves untouched. */
module Sessions {
  import opened HelmModel
  import opened Trace
  import opened Releases
  import opened Deployment

  /** An action that is a request was built from the context `h`; other actions qualify trivially. */
  predicate BuiltFrom(a: Action, h: HelmContext)
  {
    match a
    case List(r) => r == ListRequestFor(h)
    case Install(r, _) => r == InstallRequestFor(h)
    case Update(r, _) => r == UpdateRequestFor(h)
    case _ => true
  }

  ghost predicate RequestsFrom(t: seq<Action>, h: HelmContext)
  {
    forall i :: 0 <= i < |t| ==> BuiltFrom(t[i], h)
  }

  /** The environment `env` with a chart loader that succeeds with `c`. */
  function WithChart(env: Env, c: Chart): Env
  {
    env.(load := (_: string) => Loaded(c))
  }

  /** Whether the release listing for `h` has a first page. */
  ghost predicate Listed(h: HelmContext, env: Env)
  {
    |env.list(ListRequestFor(h))| > 0
  }

  lemma RequestsFromConcat(a: seq<Action>, b: seq<Action>, h: HelmContext)
    requires RequestsFrom(a, h) && RequestsFrom(b, h)
    ensures RequestsFrom(a + b, h)
  {
    forall i | 0 <= i < |a + b|
      ensures BuiltFrom((a + b)[i], h)
    {
      if i >= |a| {
        assert (a + b)[i] == b[i - |a|];
      }
    }
  }

  /** The session body: one status log, one listing, and the mutation the listing selects. */
  lemma BodyCount(h: HelmContext, env: Env, path: string, chart: Option<Chart>, k: Kind)
    ensures Count(SessionBody(h, env, path, chart), k) ==
      if k == KLogStatus || k == KList then 1
      else if k == KInstall then (if Listed(h, env) then 0 else 1)
      else if k == KUpdate then (if Listed(h, env) then 1 else 0)
      else 0
  {
    var b := SessionBody(h, env, path, chart);
    assert b == [b[0]] + ([b[1]] + ([b[2]] + []));
    CountCons(b[0], [b[1]] + ([b[2]] + []), k);
    CountCons(b[1], [b[2]] + [], k);
    CountCons(b[2], [], k);
  }

  lemma BodyResourceEvents(h: HelmContext, env: Env, path: string, chart: Option<Chart>)
    ensures ResourceEvents(SessionBody(h, env, path, chart)) == []
  {
    var b := SessionBody(h, env, path, chart);
    assert b == [b[0]] + ([b[1]] + ([b[2]] + []));
    ResourceEventsCons(b[0], [b[1]] + ([b[2]] + []));
    ResourceEventsCons(b[1], [b[2]] + []);
    ResourceEventsCons(b[2], []);
  }

  lemma BodyEraseCharts(h: HelmContext, env: Env, path: string, chart: Option<Chart>)
    ensures EraseCharts(SessionBody(h, env, path, chart)) == SessionBody(h, env, path, None)
  {
    var b := SessionBody(h, env, path, chart);
    assert b == [b[0]] + ([b[1]] + [b[2]]);
    EraseChartsCons(b[0], [b[1]] + [b[2]]);
    EraseChartsCons(b[1], [b[2]]);
    assert [b[2]][1..] == [];
  }

  lemma BodyRequests(h: HelmContext, env: Env, path: string, chart: Option<Chart>)
    ensures RequestsFrom(SessionBody(h, env, path, chart), h)
  {
  }

  /** Outside its brackets a session adds only the final error log, so every other kind of
      action is counted in its body, or not at all when the session fails to open. */
  lemma SessionCount(h: HelmContext, env: Env, path: string, kubeconfig: Option<string>, chart: Option<Chart>, k: Kind)
    requires k != KAcquire && k != KRelease && k != KLogError
    ensures Count(Session(h, env, path, kubeconfig, chart).trace, k) ==
      if env.opening == Opens then Count(SessionBody(h, env, path, chart), k) else 0
  {
    var held := Held(env.opening, kubeconfig, h.tillerNamespace);
    var body := if env.opening == Opens then SessionBody(h, env, path, chart) else [];
    CountNest(held, body, k);
    CountCons(LogError(SessionFailed), [], k);
    assert [LogError(SessionFailed)] == [LogError(SessionFailed)] + [];
    CountConcat(Nest(held, body), [LogError(SessionFailed)], k);
  }

  /** The resource events of a session are exactly the bracket of what its header acquired. */
  lemma SessionResourceEvents(h: HelmContext, env: Env, path: string, kubeconfig: Option<string>, chart: Option<Chart>)
    ensures ResourceEvents(Session(h, env, path, kubeconfig, chart).trace)
         == Nest(Held(env.opening, kubeconfig, h.tillerNamespace), [])
  {
    var held := Held(env.opening, kubeconfig, h.tillerNamespace);
    var body := if env.opening == Opens then SessionBody(h, env, path, chart) else [];
    BodyResourceEvents(h, env, path, chart);
    ResourceEventsNest(held, body);
    ResourceEventsCons(LogError(SessionFailed), []);
    assert [LogError(SessionFailed)] == [LogError(SessionFailed)] + [];
    ResourceEventsConcat(Nest(held, body), [LogError(SessionFailed)]);
  }

  /** Erasing the chart payloads of a session's trace gives the session run with a null chart. */
  lemma SessionEraseCharts(h: HelmContext, env: Env, path: string, kubeconfig: Option<string>, chart: Option<Chart>)
    ensures var s := Session(h, env, path, kubeconfig, chart);
      var s' := Session(h, env, path, kubeconfig, None);
      EraseCharts(s.trace) == s'.trace && s.state == s'.state
  {
    var held := Held(env.opening, kubeconfig, h.tillerNamespace);
    var body := if env.opening == Opens then SessionBody(h, env, path, chart) else [];
    var body' := if env.opening == Opens then SessionBody(h, env, path, None) else [];
    BodyEraseCharts(h, env, path, chart);
    assert EraseCharts(body) == body';
    EraseChartsNest(held, body);
    assert [LogError(SessionFailed)][1..] == [];
    EraseChartsConcat(Nest(held, body), [LogError(SessionFailed)]);
  }

  /** Every request a session sends is built from the context. */
  lemma SessionRequests(h: HelmContext, env: Env, path: string, kubeconfig: Option<string>, chart: Option<Chart>)
    ensures RequestsFrom(Session(h, env, path, kubeconfig, chart).trace, h)
  {
    var held := Held(env.opening, kubeconfig, h.tillerNamespace);
    var body := if env.opening == Opens then SessionBody(h, env, path, chart) else [];
    BodyRequests(h, env, path, chart);
    var t := Nest(held, body);
    forall i | 0 <= i < |t|
      ensures BuiltFrom(t[i], h)
    {
      NestMembers(held, body, t[i]);
    }
    RequestsFromConcat(t, [LogError(SessionFailed)], h);
  }

  /** An action of the session body: the status log and the three kinds of request. */
  predicate IsBodyAction(a: Action)
  {
    a.LogStatus? || a.List? || a.Install? || a.Update?
  }

  lemma OpenedSessionTrace(h: HelmContext, env: Env, path: string, kubeconfig: Option<string>, chart: Option<Chart>)
    requires env.opening == Opens
    ensures var t := Session(h, env, path, kubeconfig, chart).trace;
      var n := Nest(Held(env.opening, kubeconfig, h.tillerNamespace), SessionBody(h, env, path, chart));
      && |n| == 9 && |t| >= 9
      && (forall i :: 0 <= i < 9 ==> t[i] == n[i])
      && (forall i :: 9 <= i < |t| ==> t[i] == LogError(SessionFailed))
  {
  }

  /** An opened session acquires its three resources at positions 0 to 2, runs its body at
      positions 3 to 5, and releases the resources in reverse at positions 6 to 8; no body action
      appears anywhere else. */
  lemma SessionLayout(h: HelmContext, env: Env, path: string, kubeconfig: Option<string>, chart: Option<Chart>)
    requires env.opening == Opens
    ensures var t := Session(h, env, path, kubeconfig, chart).trace;
      var held := Held(env.opening, kubeconfig, h.tillerNamespace);
      && |t| >= 9 && |held| == 3
      && (forall m :: 0 <= m < 3 ==> t[m] == Acquire(held[m]) && t[8 - m] == Release(held[m]))
      && (forall i :: 0 <= i < |t| && IsBodyAction(t[i]) ==> 3 <= i < 6)
  {
    var held := Held(env.opening, kubeconfig, h.tillerNamespace);
    var body := SessionBody(h, env, path, chart);
    var t := Session(h, env, path, kubeconfig, chart).trace;
    OpenedSessionTrace(h, env, path, kubeconfig, chart);
    NestEnds(held, body);
    forall i | 0 <= i < 3
      ensures !IsBodyAction(t[i])
    {
      assert t[i] == Acquire(held[i]);
    }
    forall i | 6 <= i < 9
      ensures !IsBodyAction(t[i])
    {
      assert t[i] == Release(held[8 - i]);
    }
    forall i | 9 <= i < |t|
      ensures !IsBodyAction(t[i])
    {
      assert t[i] == LogError(SessionFailed);
    }
  }

  /** The session block never consults the chart loader. */
  lemma SessionIgnoresLoader(h: HelmContext, env: Env, path: string, kubeconfig: Option<string>, chart: Option<Chart>, c: Chart)
    ensures Session(h, WithChart(env, c), path, kubeconfig, chart) == Session(h, env, path, kubeconfig, chart)
  {
    assert SessionBody(h, WithChart(env, c), path, chart) == SessionBody(h, env, path, chart);
  }
}
