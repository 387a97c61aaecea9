/** The values a Helm deployment run works with: the deployment context the job supplies, the
    requests it sends to Tiller, and the environment that answers every question the run asks of
    the outside world (the workspace, the file system, the credential store, the cluster).
 */
module HelmModel {

  datatype Option<+T> = None | Some(value: T)

  /** A chart loaded into memory. Only its identity matters here: the run carries it from the
      loader to the install or update request without looking inside. */
  datatype Chart = Chart(name: string, version: string)

  /** What loading the chart directory gives: the chart; the chart followed by an IOException
      from closing the loader (the chart is already assigned when the close fails); or an
      IOException from `load` itself, which leaves the chart null. */
  datatype ChartLoad = Loaded(chart: Chart) | LoadedThenCloseIOError(chart: Chart) | LoadIOError

  /** A stored kubeconfig credential: its id and the kubeconfig text it holds. */
  datatype Credential = Credential(id: string, content: string)

  /** Release status codes of the Tiller API. */
  datatype StatusCode =
    | Unknown | Deployed | Deleted | Superseded | Failed | Deleting
    | PendingInstall | PendingUpgrade | PendingRollback

  datatype ReleaseInfo = ReleaseInfo(name: string, namespace: string, status: StatusCode)

  /** One page of a release listing. The page always holds a first release: an empty page in a
      non-empty stream is not modelled. */
  datatype ListPage = ListPage(first: ReleaseInfo, rest: seq<ReleaseInfo>)

  /** The release listing request; fields the run never sets keep their protocol defaults. */
  datatype ListReleasesRequest = ListReleasesRequest(
    filter: string,
    statusCodes: seq<StatusCode>,
    namespace: string,
    limit: int,
    offset: string)

  datatype InstallReleaseRequest = InstallReleaseRequest(
    namespace: string,
    name: string,
    timeout: int,
    wait: bool,
    dryRun: bool,
    disableHooks: bool,
    reuseName: bool)

  /** The update request has no namespace field: an update addresses the release by name. */
  datatype UpdateReleaseRequest = UpdateReleaseRequest(
    name: string,
    timeout: int,
    wait: bool,
    recreate: bool,
    force: bool,
    dryRun: bool,
    disableHooks: bool,
    resetValues: bool,
    reuseValues: bool)

  /** How an install or update call ends: the future resolves, the submission itself throws an
      IOException, or waiting on the future is interrupted or ends in an ExecutionException. */
  datatype FutureOutcome = Resolves | SubmitIOError | Interrupted | ExecutionFails

  /** Which constructor of the session header, if any, throws an IOException: the Kubernetes
      client, the Tiller tunnel or the release manager. */
  datatype SessionOpening = Opens | ClientIOError | TillerIOError | ManagerIOError

  /** The Helm settings of one deployment step. */
  datatype HelmContext = HelmContext(
    chartLocation: string,
    targetNamespace: string,
    tillerNamespace: string,
    releaseName: string,
    timeout: int,
    wait: bool)

  /** The data a deployment command is executed with; a null kubeconfig id is `None`. */
  datatype DeploymentData = DeploymentData(helm: HelmContext, kubeconfigId: Option<string>)

  /** The outside world, as the answers it gives to a run.
      - resolve: the workspace path a chart location resolves to;
      - fileExists: whether a path exists on disk;
      - load: what the directory chart loader makes of a path;
      - credentials: the kubeconfig credentials visible to the job's owner under the system identity,
        in the store's order;
      - opening: whether opening the session throws, and where;
      - closeFault: whether closing the opened session throws an IOException;
      - list: the stream of response pages Tiller returns for a listing request;
      - installFuture, updateFuture: how the install and update calls end. */
  datatype Env = Env(
    resolve: string -> string,
    fileExists: string -> bool,
    load: string -> ChartLoad,
    credentials: seq<Credential>,
    opening: SessionOpening,
    closeFault: bool,
    list: ListReleasesRequest -> seq<ListPage>,
    installFuture: FutureOutcome,
    updateFuture: FutureOutcome)
}
