/** The work done inside an open session: the existence query, and the install or update it
    selects (HelmDeploymentCommand.createOrUpdateHelm and the three helpers it calls). */
module Releases {
  import opened HelmModel
  import opened Trace

  /** The status codes the existence query asks for, in the order the query lists them. */
  const ActiveStatusCodes: seq<StatusCode> := [Failed, Deployed]

  /** The listing request of the existence query: filtered by the release name, restricted to
      failed and deployed releases, every other field at its default. */
  function ListRequestFor(h: HelmContext): (r: ListReleasesRequest)
    ensures r.filter == h.releaseName
    ensures forall c :: c in r.statusCodes <==> c == Failed || c == Deployed
    ensures |r.statusCodes| == 2
    ensures r.namespace == "" && r.limit == 0 && r.offset == ""
  {
    ListReleasesRequest(h.releaseName, ActiveStatusCodes, "", 0, "")
  }

  /** The answer of the existence query, and the namespace it prints when the first release's
      namespace differs from the release name. */
  datatype ExistenceAnswer = ExistenceAnswer(found: bool, printed: Option<string>)

  function IsHelmReleaseExist(h: HelmContext, pages: seq<ListPage>): (r: ExistenceAnswer)
    ensures r.found <==> |pages| > 0
    ensures r.printed.Some? <==> |pages| > 0 && pages[0].first.namespace != h.releaseName
    ensures r.printed.Some? ==> r.printed.value == pages[0].first.namespace
  {
    if |pages| > 0 then
      var release := pages[0].first;
      var printed := if h.releaseName != release.namespace then Some(release.namespace) else None;
      ExistenceAnswer(true, printed)
    else
      ExistenceAnswer(false, None)
  }

  /** The install request: target namespace, timeout, release name and wait flag from the
      context; nothing else set. */
  function InstallRequestFor(h: HelmContext): (r: InstallReleaseRequest)
    ensures r.namespace == h.targetNamespace && r.name == h.releaseName
    ensures r.timeout == h.timeout && r.wait == h.wait
    ensures !r.dryRun && !r.disableHooks && !r.reuseName
  {
    InstallReleaseRequest(h.targetNamespace, h.releaseName, h.timeout, h.wait, false, false, false)
  }

  /** The update request: release name, timeout and wait flag from the context; recreate and
      force left unset, as is everything else. */
  function UpdateRequestFor(h: HelmContext): (r: UpdateReleaseRequest)
    ensures r.name == h.releaseName && r.timeout == h.timeout && r.wait == h.wait
    ensures !r.recreate && !r.force
    ensures !r.dryRun && !r.disableHooks && !r.resetValues && !r.reuseValues
  {
    UpdateReleaseRequest(h.releaseName, h.timeout, h.wait, false, false, false, false, false, false)
  }

  /** The exceptions an install or update call can raise. */
  datatype HelperFault = IOFault | InterruptedFault | ExecutionFault

  function Raised(o: FutureOutcome): (f: Option<HelperFault>)
    ensures f.None? <==> o == Resolves
  {
    match o
    case Resolves => None
    case SubmitIOError => Some(IOFault)
    case Interrupted => Some(InterruptedFault)
    case ExecutionFails => Some(ExecutionFault)
  }

  /** A helper's run: the request it issued, and the fault its catch block handled (and only
      printed) if the call did not complete. */
  datatype HelperRun = HelperRun(actions: seq<Action>, handled: Option<HelperFault>)

  function InstallHelmRelease(h: HelmContext, env: Env, chart: Option<Chart>): (r: HelperRun)
    ensures r.actions == [Install(InstallRequestFor(h), chart)]
    ensures r.handled.Some? <==> env.installFuture != Resolves
  {
    HelperRun([Install(InstallRequestFor(h), chart)], Raised(env.installFuture))
  }

  function UpdateHelmRelease(h: HelmContext, env: Env, chart: Option<Chart>): (r: HelperRun)
    ensures r.actions == [Update(UpdateRequestFor(h), chart)]
    ensures r.handled.Some? <==> env.updateFuture != Resolves
  {
    HelperRun([Update(UpdateRequestFor(h), chart)], Raised(env.updateFuture))
  }

  /** Query, then update an existing release or install a new one. */
  function CreateOrUpdateHelm(h: HelmContext, env: Env, chart: Option<Chart>): (t: seq<Action>)
    ensures |t| == 2 && t[0] == List(ListRequestFor(h))
    ensures t[1].Update? <==> |env.list(ListRequestFor(h))| > 0
    ensures t[1].Install? <==> |env.list(ListRequestFor(h))| == 0
    ensures t[1].Install? ==> t[1] == Install(InstallRequestFor(h), chart)
    ensures t[1].Update? ==> t[1] == Update(UpdateRequestFor(h), chart)
  {
    var request := ListRequestFor(h);
    var answer := IsHelmReleaseExist(h, env.list(request));
    var helper := if answer.found then UpdateHelmRelease(h, env, chart) else InstallHelmRelease(h, env, chart);
    [List(request)] + helper.actions
  }

  /** The existence decision depends only on whether the stream has a first page: neither the
      namespaces nor the statuses of the listed releases change it. */
  lemma ExistenceIgnoresReleaseDetails(h: HelmContext, pages: seq<ListPage>, pages': seq<ListPage>)
    requires |pages| > 0 <==> |pages'| > 0
    ensures IsHelmReleaseExist(h, pages).found == IsHelmReleaseExist(h, pages').found
  {
  }

  /** Two contexts give the same install request exactly when they agree on the four copied
      fields. */
  lemma InstallRequestDeterminedByContext(h: HelmContext, h': HelmContext)
    ensures InstallRequestFor(h) == InstallRequestFor(h') <==>
      && h.targetNamespace == h'.targetNamespace
      && h.releaseName == h'.releaseName
      && h.timeout == h'.timeout
      && h.wait == h'.wait
  {
  }

  /** Two contexts give the same update request exactly when they agree on release name, timeout
      and wait flag: the target namespace plays no part. */
  lemma UpdateRequestDeterminedByContext(h: HelmContext, h': HelmContext)
    ensures UpdateRequestFor(h) == UpdateRequestFor(h') <==>
      && h.releaseName == h'.releaseName
      && h.timeout == h'.timeout
      && h.wait == h'.wait
  {
  }

  /** The listing request depends on the release name alone, and differs between names. */
  lemma ListRequestDeterminedByName(h: HelmContext, h': HelmContext)
    ensures ListRequestFor(h) == ListRequestFor(h') <==> h.releaseName == h'.releaseName
  {
  }
}
