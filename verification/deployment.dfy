/** One execution of the Helm deployment command (HelmDeploymentCommand.execute): locate and load
    the chart, resolve the kubeconfig, open the cluster session, create or update the release, and
    set the command state. */
module Deployment {
  import opened HelmModel
  import opened Trace
  import opened Credentials
  import opened Releases

  /** The path the chart location resolves to in the workspace. */
  function ChartPath(d: DeploymentData, env: Env): string
  {
    env.resolve(d.helm.chartLocation)
  }

  ghost predicate ChartFound(d: DeploymentData, env: Env)
  {
    env.fileExists(ChartPath(d, env))
  }

  /** A kubeconfig id is given but no visible credential carries it. */
  ghost predicate CredentialMissing(d: DeploymentData, env: Env)
  {
    !IsBlank(d.kubeconfigId) && !HasCredential(env.credentials, d.kubeconfigId.value)
  }

  /** The run gets as far as the body of the session block. */
  ghost predicate ReachesSession(d: DeploymentData, env: Env)
  {
    ChartFound(d, env) && !CredentialMissing(d, env) && env.opening == Opens
  }

  /** The chart handed to the requests: the loaded chart, even when closing the loader threw
      afterwards; null when `load` itself threw. */
  function LoadedChart(load: ChartLoad): (c: Option<Chart>)
    ensures c.None? <==> load == LoadIOError
    ensures !load.LoadIOError? ==> c == Some(load.chart)
  {
    match load
    case Loaded(chart) => Some(chart)
    case LoadedThenCloseIOError(chart) => Some(chart)
    case LoadIOError => None
  }

  /** Whether the chart-loading block logs an IOException: from `load` or from closing the loader. */
  predicate LoadLogsError(load: ChartLoad)
  {
    !load.Loaded?
  }

  /** How many of the three session constructors complete before the header stops: the one that
      throws does not count, and neither do the ones after it. */
  function ConstructorsCompleted(opening: SessionOpening): nat
  {
    match opening
    case ClientIOError => 0
    case TillerIOError => 1
    case ManagerIOError => 2
    case Opens => 3
  }

  /** The resources the session header holds when it stops, in acquisition order: all three when
      it opens, otherwise those acquired before the constructor that threw. */
  function Held(opening: SessionOpening, kubeconfig: Option<string>, tillerNamespace: string): (held: seq<Resource>)
    ensures |held| == ConstructorsCompleted(opening)
    ensures forall i :: 0 <= i < |held| ==> Rank(held[i]) == i
    ensures |held| == 3 <==> opening == Opens
    ensures |held| > 0 ==> held[0] == KubeClient(kubeconfig)
    ensures |held| > 1 ==> held[1] == TillerTunnel(tillerNamespace)
  {
    var all := [KubeClient(kubeconfig), TillerTunnel(tillerNamespace), Manager];
    match opening
    case ClientIOError => []
    case TillerIOError => all[..1]
    case ManagerIOError => all[..2]
    case Opens => all
  }

  /** The body of the session block: the status log, then create-or-update. */
  function SessionBody(h: HelmContext, env: Env, path: string, chart: Option<Chart>): (t: seq<Action>)
    ensures |t| == 3 && t[0] == LogStatus(path) && t[1] == List(ListRequestFor(h))
  {
    [LogStatus(path)] + CreateOrUpdateHelm(h, env, chart)
  }

  /** The session block: its resources bracket the body, and an IOException from opening or
      closing them is logged after they are released and turns into HasError. */
  function Session(h: HelmContext, env: Env, path: string, kubeconfig: Option<string>, chart: Option<Chart>): (r: Run)
    ensures r.state == Success <==> env.opening == Opens && !env.closeFault
    ensures r.state != Success ==> r.state == HasError && |r.trace| > 0 && r.trace[|r.trace| - 1] == LogError(SessionFailed)
  {
    var held := Held(env.opening, kubeconfig, h.tillerNamespace);
    if env.opening == Opens then
      var body := SessionBody(h, env, path, chart);
      if env.closeFault then Run(Nest(held, body) + [LogError(SessionFailed)], HasError)
      else Run(Nest(held, body), Success)
    else
      Run(Nest(held, []) + [LogError(SessionFailed)], HasError)
  }

  /** The whole command. */
  function Execute(d: DeploymentData, env: Env): (r: Run)
    ensures r.state == Unset <==> !ChartFound(d, env)
    ensures r.state.Escaped? <==> ChartFound(d, env) && CredentialMissing(d, env)
    ensures r.state.Escaped? ==> r.state.exception == MissingCredential(d.kubeconfigId.value)
    ensures r.state == Success <==> ReachesSession(d, env) && !env.closeFault
    ensures r.state == HasError <==>
      ChartFound(d, env) && !CredentialMissing(d, env) && (env.opening != Opens || env.closeFault)
  {
    var h := d.helm;
    var path := ChartPath(d, env);
    if !env.fileExists(path) then
      Run([LogError(ChartNotFound(path))], Unset)
    else
      var chart := LoadedChart(env.load(path));
      var loading := if LoadLogsError(env.load(path)) then [LogError(ChartLoadFailed)] else [];
      var lookup := if IsBlank(d.kubeconfigId) then [] else [LookupCredential(d.kubeconfigId.value)];
      match KubeConfigContent(d.kubeconfigId, env.credentials)
      case NotFound(id) =>
        Run(loading + lookup, Escaped(MissingCredential(id)))
      case Ambient =>
        var s := Session(h, env, path, None, chart);
        Run(loading + lookup + s.trace, s.state)
      case Content(text) =>
        var s := Session(h, env, path, Some(text), chart);
        Run(loading + lookup + s.trace, s.state)
  }
}
