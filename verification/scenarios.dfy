/** Concrete runs of the deployment command, for the release "demo". */
module Scenarios {
  import opened HelmModel
  import opened Trace
  import opened Credentials
  import opened Releases
  import opened Deployment
  import opened Sessions
  import opened Properties

  /** The scenarios' context: chart directory "app", release "demo", target namespace "prod". */
  function DemoContext(): HelmContext
  {
    HelmContext("app", "prod", "kube-system", "demo", 300, true)
  }

  /** The scenarios' environment: workspace /ws, the chart present and loading as `c`, no stored
      credentials, a session that opens and closes cleanly, the given listing for every request
      and the given install outcome. */
  function DemoEnv(c: Chart, pages: seq<ListPage>, install: FutureOutcome): Env
  {
    Env((p: string) => "/ws/" + p, (p: string) => p == "/ws/app", (_: string) => Loaded(c), [],
        Opens, false, (_: ListReleasesRequest) => pages, install, Resolves)
  }

  /** With the demo environment, a run is the full session around the status log, the listing
      and the selected mutation. */
  lemma DemoRun(c: Chart, pages: seq<ListPage>, install: FutureOutcome)
    ensures var h := DemoContext();
      var env := DemoEnv(c, pages, install);
      var held := [KubeClient(None), TillerTunnel("kube-system"), Manager];
      Execute(DeploymentData(h, None), env)
        == Run(Nest(held, [LogStatus("/ws/app")] + CreateOrUpdateHelm(h, env, Some(c))), Success)
  {
    var d := DeploymentData(DemoContext(), None);
    var env := DemoEnv(c, pages, install);
    assert "/ws/" + "app" == "/ws/app";
    assert ChartPath(d, env) == "/ws/app";
    assert IsBlank(d.kubeconfigId);
    assert Preamble(d, env) == [];
    ExecuteDecomposes(d, env);
  }

  lemma DemoNest(body: seq<Action>)
    ensures var client := KubeClient(None);
      var tiller := TillerTunnel("kube-system");
      Nest([client, tiller, Manager], body)
        == [Acquire(client), Acquire(tiller), Acquire(Manager)] + body + [Release(Manager), Release(tiller), Release(client)]
  {
    var held := [KubeClient(None), TillerTunnel("kube-system"), Manager];
    assert held[1..] == [TillerTunnel("kube-system"), Manager];
    assert held[1..][1..] == [Manager];
    assert held[1..][1..][1..] == [];
    var n2 := [Acquire(Manager)] + body + [Release(Manager)];
    assert Nest(held[1..][1..], body) == n2;
    var n1 := [Acquire(held[1])] + n2 + [Release(held[1])];
    assert Nest(held[1..], body) == n1;
    assert Nest(held, body) == [Acquire(held[0])] + n1 + [Release(held[0])];
  }

  /** Scenario: release "demo" absent from the cluster, everything succeeds: the three resources
      are acquired, one install request for "demo" in "prod" is sent, the resources are released
      in reverse, and the command state is Success. */
  lemma InstallScenario(c: Chart)
    ensures var h := DemoContext();
      var r := Execute(DeploymentData(h, None), DemoEnv(c, [], Resolves));
      && r.state == Success
      && r.trace == [
           Acquire(KubeClient(None)), Acquire(TillerTunnel("kube-system")), Acquire(Manager),
           LogStatus("/ws/app"),
           List(ListReleasesRequest("demo", [Failed, Deployed], "", 0, "")),
           Install(InstallReleaseRequest("prod", "demo", 300, true, false, false, false), Some(c)),
           Release(Manager), Release(TillerTunnel("kube-system")), Release(KubeClient(None))]
  {
    var h := DemoContext();
    var env := DemoEnv(c, [], Resolves);
    DemoRun(c, [], Resolves);
    var inner := CreateOrUpdateHelm(h, env, Some(c));
    assert inner == [List(ListRequestFor(h)), Install(InstallRequestFor(h), Some(c))];
    DemoNest([LogStatus("/ws/app")] + inner);
  }

  /** Scenario: the listing reports "demo" in namespace "staging" while the target is "prod". The
      release counts as existing, an update is sent, and the namespace difference is only printed. */
  lemma NamespaceCollisionScenario(c: Chart)
    ensures var page := ListPage(ReleaseInfo("demo", "staging", Deployed), []);
      var r := Execute(DeploymentData(DemoContext(), None), DemoEnv(c, [page], Resolves));
      && r.state == Success
      && r.trace == [
           Acquire(KubeClient(None)), Acquire(TillerTunnel("kube-system")), Acquire(Manager),
           LogStatus("/ws/app"),
           List(ListReleasesRequest("demo", [Failed, Deployed], "", 0, "")),
           Update(UpdateReleaseRequest("demo", 300, true, false, false, false, false, false, false), Some(c)),
           Release(Manager), Release(TillerTunnel("kube-system")), Release(KubeClient(None))]
      && IsHelmReleaseExist(DemoContext(), [page]) == ExistenceAnswer(true, Some("staging"))
  {
    var h := DemoContext();
    var pages := [ListPage(ReleaseInfo("demo", "staging", Deployed), [])];
    var env := DemoEnv(c, pages, Resolves);
    DemoRun(c, pages, Resolves);
    var inner := CreateOrUpdateHelm(h, env, Some(c));
    assert inner == [List(ListRequestFor(h)), Update(UpdateRequestFor(h), Some(c))];
    DemoNest([LogStatus("/ws/app")] + inner);
  }

  /** Scenario: the install future ends in an ExecutionException. The fault is handled inside the
      helper: the trace is the one of the clean install, and the command state is Success, not
      HasError. */
  lemma InstallFaultScenario(c: Chart)
    ensures var env := DemoEnv(c, [], ExecutionFails);
      var r := Execute(DeploymentData(DemoContext(), None), env);
      && r.state == Success
      && r.trace == [
           Acquire(KubeClient(None)), Acquire(TillerTunnel("kube-system")), Acquire(Manager),
           LogStatus("/ws/app"),
           List(ListReleasesRequest("demo", [Failed, Deployed], "", 0, "")),
           Install(InstallReleaseRequest("prod", "demo", 300, true, false, false, false), Some(c)),
           Release(Manager), Release(TillerTunnel("kube-system")), Release(KubeClient(None))]
      && InstallHelmRelease(DemoContext(), env, Some(c)).handled == Some(ExecutionFault)
  {
    var h := DemoContext();
    var env := DemoEnv(c, [], ExecutionFails);
    DemoRun(c, [], ExecutionFails);
    var inner := CreateOrUpdateHelm(h, env, Some(c));
    assert inner == [List(ListRequestFor(h)), Install(InstallRequestFor(h), Some(c))];
    DemoNest([LogStatus("/ws/app")] + inner);
  }
}
