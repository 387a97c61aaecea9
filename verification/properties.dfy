/** Properties of whole runs of the deployment command. */
module Properties {
  import opened HelmModel
  import opened Trace
  import opened Credentials
  import opened Releases
  import opened Deployment
  import opened Sessions

  /** The credential lookup of a run, if it makes one. */
  function Lookup(d: DeploymentData): (t: seq<Action>)
    ensures |t| <= 1
    ensures |t| == 1 <==> !IsBlank(d.kubeconfigId)
    ensures |t| == 1 ==> t[0] == LookupCredential(d.kubeconfigId.value)
  {
    if IsBlank(d.kubeconfigId) then [] else [LookupCredential(d.kubeconfigId.value)]
  }

  /** The actions a run performs before the session block: the chart-load error, if any, and the
      credential lookup, if an id is given. */
  function Preamble(d: DeploymentData, env: Env): seq<Action>
  {
    (if LoadLogsError(env.load(ChartPath(d, env))) then [LogError(ChartLoadFailed)] else []) + Lookup(d)
  }

  /** The kubeconfig the client is built from: the matched credential's text, or none. */
  function ResolvedKubeconfig(d: DeploymentData, env: Env): Option<string>
  {
    match KubeConfigContent(d.kubeconfigId, env.credentials)
    case Content(text) => Some(text)
    case _ => None
  }

  /** The session a run opens once it has found its chart and resolved its credential. */
  function SessionOf(d: DeploymentData, env: Env): Run
  {
    var path := ChartPath(d, env);
    Session(d.helm, env, path, ResolvedKubeconfig(d, env), LoadedChart(env.load(path)))
  }

  /** A run that finds the chart and resolves its credential is its preamble followed by the
      session block. */
  lemma ExecuteDecomposes(d: DeploymentData, env: Env)
    requires ChartFound(d, env) && !CredentialMissing(d, env)
    ensures Execute(d, env) == Run(Preamble(d, env) + SessionOf(d, env).trace, SessionOf(d, env).state)
  {
  }

  /** A run that finds the chart but not the credential is its preamble alone. */
  lemma EscapeIsPreamble(d: DeploymentData, env: Env)
    requires ChartFound(d, env) && CredentialMissing(d, env)
    ensures Execute(d, env).trace == Preamble(d, env)
  {
  }

  /** The preamble holds at most the chart-load error and the lookup. */
  lemma PreambleCount(d: DeploymentData, env: Env, k: Kind)
    ensures Count(Preamble(d, env), k) ==
      (if k == KLookup && !IsBlank(d.kubeconfigId) then 1 else 0)
      + (if k == KLogError && LoadLogsError(env.load(ChartPath(d, env))) then 1 else 0)
    ensures ResourceEvents(Preamble(d, env)) == []
  {
    var loading: seq<Action> := if LoadLogsError(env.load(ChartPath(d, env))) then [LogError(ChartLoadFailed)] else [];
    var lookup := Lookup(d);
    assert Preamble(d, env) == loading + lookup;
    SingleOrEmptyCount(loading, k);
    SingleOrEmptyCount(lookup, k);
    CountConcat(loading, lookup, k);
    ResourceEventsConcat(loading, lookup);
  }

  lemma SingleOrEmptyCount(t: seq<Action>, k: Kind)
    requires |t| <= 1
    ensures Count(t, k) == if |t| == 1 && KindOf(t[0]) == k then 1 else 0
    ensures ResourceEvents(t) == if |t| == 1 && IsResourceEvent(t[0]) then t else []
  {
    if |t| == 1 {
      assert t[1..] == [];
    }
  }

  /** Counting over a run that opens a session: preamble plus session. */
  lemma RunCount(d: DeploymentData, env: Env, k: Kind)
    requires ChartFound(d, env) && !CredentialMissing(d, env)
    ensures Count(Execute(d, env).trace, k) == Count(Preamble(d, env), k) + Count(SessionOf(d, env).trace, k)
  {
    ExecuteDecomposes(d, env);
    CountConcat(Preamble(d, env), SessionOf(d, env).trace, k);
  }

  /** A missing chart ends the run at once: one logged error, no credential lookup, no session,
      no request, and the command state is left unset. */
  lemma EarlyExitWhenChartMissing(d: DeploymentData, env: Env)
    requires !ChartFound(d, env)
    ensures Execute(d, env) == Run([LogError(ChartNotFound(ChartPath(d, env)))], Unset)
    ensures forall k :: k != KLogError ==> Count(Execute(d, env).trace, k) == 0
  {
  }

  /** A chart that fails to load is only logged: the run goes on exactly as if the chart had
      loaded, except for that log entry and a null chart in the install or update request. */
  lemma ChartLoadFailureIsOnlyLogged(d: DeploymentData, env: Env, c: Chart)
    requires ChartFound(d, env) && env.load(ChartPath(d, env)) == LoadIOError
    ensures var ok := Execute(d, WithChart(env, c));
      Execute(d, env) == Run([LogError(ChartLoadFailed)] + EraseCharts(ok.trace), ok.state)
  {
    var env' := WithChart(env, c);
    assert ChartPath(d, env') == ChartPath(d, env);
    assert Preamble(d, env) == [LogError(ChartLoadFailed)] + Lookup(d);
    assert Preamble(d, env') == Lookup(d);
    assert EraseCharts(Lookup(d)) == Lookup(d) by {
      assert |Lookup(d)| > 0 ==> Lookup(d)[1..] == [];
    }
    if CredentialMissing(d, env) {
      EscapeIsPreamble(d, env);
      EscapeIsPreamble(d, env');
    } else {
      ChartLoadFailureBeforeSession(d, env, c);
    }
  }

  lemma ChartLoadFailureBeforeSession(d: DeploymentData, env: Env, c: Chart)
    requires ChartFound(d, env) && env.load(ChartPath(d, env)) == LoadIOError
    requires !CredentialMissing(d, env)
    requires EraseCharts(Lookup(d)) == Lookup(d)
    ensures var ok := Execute(d, WithChart(env, c));
      Execute(d, env) == Run([LogError(ChartLoadFailed)] + EraseCharts(ok.trace), ok.state)
  {
    var path := ChartPath(d, env);
    var kube := ResolvedKubeconfig(d, env);
    var s := Session(d.helm, env, path, kube, Some(c));
    LoadedRunDecomposes(d, env, c);
    FailedLoadRunDecomposes(d, env);
    SessionEraseCharts(d.helm, env, path, kube, Some(c));
    EraseChartsConcat(Lookup(d), s.trace);
    assert [LogError(ChartLoadFailed)] + Lookup(d) + EraseCharts(s.trace)
        == [LogError(ChartLoadFailed)] + (Lookup(d) + EraseCharts(s.trace));
  }

  lemma LoadedRunDecomposes(d: DeploymentData, env: Env, c: Chart)
    requires ChartFound(d, env) && !CredentialMissing(d, env)
    ensures var s := Session(d.helm, env, ChartPath(d, env), ResolvedKubeconfig(d, env), Some(c));
      Execute(d, WithChart(env, c)) == Run(Lookup(d) + s.trace, s.state)
  {
    var env' := WithChart(env, c);
    var path := ChartPath(d, env);
    assert ChartPath(d, env') == path;
    assert Preamble(d, env') == Lookup(d);
    assert ResolvedKubeconfig(d, env') == ResolvedKubeconfig(d, env);
    ExecuteDecomposes(d, env');
    SessionIgnoresLoader(d.helm, env, path, ResolvedKubeconfig(d, env), Some(c), c);
  }

  lemma FailedLoadRunDecomposes(d: DeploymentData, env: Env)
    requires ChartFound(d, env) && env.load(ChartPath(d, env)) == LoadIOError
    requires !CredentialMissing(d, env)
    ensures var s := Session(d.helm, env, ChartPath(d, env), ResolvedKubeconfig(d, env), None);
      Execute(d, env) == Run([LogError(ChartLoadFailed)] + Lookup(d) + s.trace, s.state)
  {
    assert Preamble(d, env) == [LogError(ChartLoadFailed)] + Lookup(d);
    ExecuteDecomposes(d, env);
  }

  /** When closing the chart loader throws after the chart was loaded, the error is logged and
      the run goes on with the loaded chart: it is the clean-load run after one logged error. */
  lemma ChartCloseFailureIsOnlyLogged(d: DeploymentData, env: Env, c: Chart)
    requires ChartFound(d, env) && env.load(ChartPath(d, env)) == LoadedThenCloseIOError(c)
    ensures var ok := Execute(d, WithChart(env, c));
      Execute(d, env) == Run([LogError(ChartLoadFailed)] + ok.trace, ok.state)
  {
    var env' := WithChart(env, c);
    assert ChartPath(d, env') == ChartPath(d, env);
    assert Preamble(d, env) == [LogError(ChartLoadFailed)] + Lookup(d);
    assert Preamble(d, env') == Lookup(d);
    if CredentialMissing(d, env) {
      EscapeIsPreamble(d, env);
      EscapeIsPreamble(d, env');
    } else {
      LoadedRunDecomposes(d, env, c);
      CloseFailedRunDecomposes(d, env, c);
    }
  }

  lemma CloseFailedRunDecomposes(d: DeploymentData, env: Env, c: Chart)
    requires ChartFound(d, env) && env.load(ChartPath(d, env)) == LoadedThenCloseIOError(c)
    requires !CredentialMissing(d, env)
    ensures var s := Session(d.helm, env, ChartPath(d, env), ResolvedKubeconfig(d, env), Some(c));
      Execute(d, env) == Run([LogError(ChartLoadFailed)] + (Lookup(d) + s.trace), s.state)
  {
    var s := SessionOf(d, env);
    assert Preamble(d, env) == [LogError(ChartLoadFailed)] + Lookup(d);
    ExecuteDecomposes(d, env);
    assert [LogError(ChartLoadFailed)] + Lookup(d) + s.trace == [LogError(ChartLoadFailed)] + (Lookup(d) + s.trace);
  }

  /** A kubeconfig id without a matching credential makes `execute` throw right after the lookup:
      no session is opened and no request is sent. */
  lemma MissingCredentialEscapesBeforeSession(d: DeploymentData, env: Env)
    requires ChartFound(d, env) && CredentialMissing(d, env)
    ensures var r := Execute(d, env);
      && r.state == Escaped(MissingCredential(d.kubeconfigId.value))
      && |r.trace| > 0 && r.trace[|r.trace| - 1] == LookupCredential(d.kubeconfigId.value)
      && ResourceEvents(r.trace) == []
      && Count(r.trace, KList) == 0 && Count(r.trace, KInstall) == 0 && Count(r.trace, KUpdate) == 0
  {
    EscapeIsPreamble(d, env);
    PreambleCount(d, env, KList);
    PreambleCount(d, env, KInstall);
    PreambleCount(d, env, KUpdate);
  }

  /** The credential store is consulted exactly when the chart is found and a non-blank
      kubeconfig id is given; a blank or null id means the ambient configuration, with no lookup. */
  lemma LookupOnlyForNonBlankId(d: DeploymentData, env: Env)
    ensures Count(Execute(d, env).trace, KLookup) == (if ChartFound(d, env) && !IsBlank(d.kubeconfigId) then 1 else 0)
  {
    if ChartFound(d, env) {
      PreambleCount(d, env, KLookup);
      if CredentialMissing(d, env) {
        EscapeIsPreamble(d, env);
      } else {
        RunCount(d, env, KLookup);
        var path := ChartPath(d, env);
        SessionCount(d.helm, env, path, ResolvedKubeconfig(d, env), LoadedChart(env.load(path)), KLookup);
        BodyCount(d.helm, env, path, LoadedChart(env.load(path)), KLookup);
      }
    } else {
      EarlyExitWhenChartMissing(d, env);
    }
  }

  /** How often a run sends requests of kind `k`: as often as its session body does. */
  lemma RequestCount(d: DeploymentData, env: Env, k: Kind)
    requires k == KList || k == KInstall || k == KUpdate
    ensures Count(Execute(d, env).trace, k) ==
      if ReachesSession(d, env) then Count(SessionBody(d.helm, env, ChartPath(d, env), LoadedChart(env.load(ChartPath(d, env)))), k)
      else 0
  {
    if ChartFound(d, env) {
      PreambleCount(d, env, k);
      if CredentialMissing(d, env) {
        EscapeIsPreamble(d, env);
      } else {
        RunCount(d, env, k);
        var path := ChartPath(d, env);
        SessionCount(d.helm, env, path, ResolvedKubeconfig(d, env), LoadedChart(env.load(path)), k);
      }
    } else {
      EarlyExitWhenChartMissing(d, env);
    }
  }

  /** Every run that reaches the session body lists once and then either updates (when the
      listing has a first page) or installs (when it has none), never both; a run that does not
      reach it sends none of the three requests. */
  lemma ExactlyOneMutation(d: DeploymentData, env: Env)
    ensures var t := Execute(d, env).trace;
      && Count(t, KInstall) + Count(t, KUpdate) == (if ReachesSession(d, env) then 1 else 0)
      && Count(t, KList) == (if ReachesSession(d, env) then 1 else 0)
      && (ReachesSession(d, env) ==>
            (Count(t, KUpdate) == 1 <==> |env.list(ListRequestFor(d.helm))| > 0))
  {
    var path := ChartPath(d, env);
    var chart := LoadedChart(env.load(path));
    RequestCount(d, env, KList);
    RequestCount(d, env, KInstall);
    RequestCount(d, env, KUpdate);
    BodyCount(d.helm, env, path, chart, KList);
    BodyCount(d.helm, env, path, chart, KInstall);
    BodyCount(d.helm, env, path, chart, KUpdate);
  }

  /** Every listing, install and update request a run sends is the one built from its context:
      the listing filters by the release name, the install and update requests copy their fields
      from the context as the request builders do. */
  lemma RequestsCopyContext(d: DeploymentData, env: Env)
    ensures var t := Execute(d, env).trace;
      forall i :: 0 <= i < |t| ==>
        && (t[i].Install? ==> t[i].installRequest == InstallRequestFor(d.helm))
        && (t[i].Update? ==> t[i].updateRequest == UpdateRequestFor(d.helm))
        && (t[i].List? ==> t[i].listRequest == ListRequestFor(d.helm))
  {
    var t := Execute(d, env).trace;
    RunRequests(d, env);
    forall i | 0 <= i < |t|
      ensures t[i].Install? ==> t[i].installRequest == InstallRequestFor(d.helm)
      ensures t[i].Update? ==> t[i].updateRequest == UpdateRequestFor(d.helm)
      ensures t[i].List? ==> t[i].listRequest == ListRequestFor(d.helm)
    {
      assert BuiltFrom(t[i], d.helm);
    }
  }

  lemma RunRequests(d: DeploymentData, env: Env)
    ensures RequestsFrom(Execute(d, env).trace, d.helm)
  {
    if ChartFound(d, env) {
      var pre := Preamble(d, env);
      PreambleRequests(d, env);
      if CredentialMissing(d, env) {
        EscapeIsPreamble(d, env);
      } else {
        ExecuteDecomposes(d, env);
        var path := ChartPath(d, env);
        SessionRequests(d.helm, env, path, ResolvedKubeconfig(d, env), LoadedChart(env.load(path)));
        RequestsFromConcat(pre, SessionOf(d, env).trace, d.helm);
      }
    } else {
      EarlyExitWhenChartMissing(d, env);
    }
  }

  lemma PreambleRequests(d: DeploymentData, env: Env)
    ensures RequestsFrom(Preamble(d, env), d.helm)
  {
    var loading: seq<Action> := if LoadLogsError(env.load(ChartPath(d, env))) then [LogError(ChartLoadFailed)] else [];
    RequestsFromConcat(loading, Lookup(d), d.helm);
  }

  /** Install and update faults are handled inside the helpers: how the futures end changes
      nothing about a run, and a run whose session opens and closes cleanly ends in Success. */
  lemma FutureFaultsAreSwallowed(d: DeploymentData, env: Env, install: FutureOutcome, update: FutureOutcome)
    ensures Execute(d, env.(installFuture := install, updateFuture := update)) == Execute(d, env)
    ensures ReachesSession(d, env) && !env.closeFault ==>
      Execute(d, env.(installFuture := install, updateFuture := update)).state == Success
  {
    var env' := env.(installFuture := install, updateFuture := update);
    assert ChartPath(d, env') == ChartPath(d, env);
    forall path: string, chart: Option<Chart>
      ensures SessionBody(d.helm, env', path, chart) == SessionBody(d.helm, env, path, chart)
    {
    }
  }

  /** On every path the session's resources are acquired in the order client, tunnel, manager and
      released in the opposite order, each exactly once; an opening fault releases just what was
      acquired before it. The client is built from the resolved kubeconfig and the tunnel uses
      the Tiller namespace. */
  lemma ResourcesReleasedInReverse(d: DeploymentData, env: Env)
    ensures var ev := ResourceEvents(Execute(d, env).trace);
      && Bracketed(ev)
      && |ev| <= 6
      && (forall i :: 0 <= i < |ev| / 2 ==> Rank(ev[i].resource) == i)
      && (|ev| == 6 <==> ReachesSession(d, env))
      && |ev| == (if ChartFound(d, env) && !CredentialMissing(d, env) then 2 * ConstructorsCompleted(env.opening) else 0)
      && (|ev| > 0 ==> ev[0] == Acquire(KubeClient(ResolvedKubeconfig(d, env))))
      && (|ev| > 2 ==> ev[1] == Acquire(TillerTunnel(d.helm.tillerNamespace)))
  {
    if !ChartFound(d, env) {
      EarlyExitWhenChartMissing(d, env);
      assert Execute(d, env).trace == [LogError(ChartNotFound(ChartPath(d, env)))] + [];
      ResourceEventsCons(LogError(ChartNotFound(ChartPath(d, env))), []);
    } else if CredentialMissing(d, env) {
      MissingCredentialEscapesBeforeSession(d, env);
    } else {
      var held := Held(env.opening, ResolvedKubeconfig(d, env), d.helm.tillerNamespace);
      AttemptedSessionResourceEvents(d, env);
      NestShape(held);
      NestBracketed(held);
    }
  }

  lemma AttemptedSessionResourceEvents(d: DeploymentData, env: Env)
    requires ChartFound(d, env) && !CredentialMissing(d, env)
    ensures ResourceEvents(Execute(d, env).trace)
         == Nest(Held(env.opening, ResolvedKubeconfig(d, env), d.helm.tillerNamespace), [])
  {
    ExecuteDecomposes(d, env);
    var path := ChartPath(d, env);
    PreambleCount(d, env, KList);
    ResourceEventsConcat(Preamble(d, env), SessionOf(d, env).trace);
    SessionResourceEvents(d.helm, env, path, ResolvedKubeconfig(d, env), LoadedChart(env.load(path)));
  }

  /** Resource `r` is acquired before position `i` of `t` and released after it. */
  ghost predicate HeldAround(t: seq<Action>, i: int, r: Resource)
  {
    exists j, k :: 0 <= j < i < k < |t| && t[j] == Acquire(r) && t[k] == Release(r)
  }

  lemma PreambleActions(d: DeploymentData, env: Env)
    ensures forall i :: 0 <= i < |Preamble(d, env)| ==> !IsBodyAction(Preamble(d, env)[i])
  {
  }

  /** The status log and every request of a run are issued while the client, the tunnel and the
      manager are all held: each of them is acquired before the action and released after it. */
  lemma BodyRunsWhileResourcesHeld(d: DeploymentData, env: Env)
    requires ReachesSession(d, env)
    ensures var t := Execute(d, env).trace;
      var held := Held(env.opening, ResolvedKubeconfig(d, env), d.helm.tillerNamespace);
      forall i :: 0 <= i < |t| && IsBodyAction(t[i]) ==>
        forall r :: r in held ==> HeldAround(t, i, r)
  {
    var path := ChartPath(d, env);
    var held := Held(env.opening, ResolvedKubeconfig(d, env), d.helm.tillerNamespace);
    var pre := Preamble(d, env);
    var s := SessionOf(d, env).trace;
    var t := Execute(d, env).trace;
    ExecuteDecomposes(d, env);
    PreambleActions(d, env);
    SessionLayout(d.helm, env, path, ResolvedKubeconfig(d, env), LoadedChart(env.load(path)));
    assert t == pre + s;
    assert forall i :: 0 <= i < |pre| ==> t[i] == pre[i];
    forall i, r | 0 <= i < |t| && IsBodyAction(t[i]) && r in held
      ensures HeldAround(t, i, r)
    {
      if i >= |pre| {
        assert t[i] == s[i - |pre|];
        var m :| 0 <= m < 3 && held[m] == r;
        assert t[|pre| + m] == s[m];
        assert t[|pre| + 8 - m] == s[8 - m];
      }
    }
  }
}
