# Helm deployment command: a Dafny model

This project models the release reconcile step of the Kubernetes CD plugin for Jenkins,
`HelmDeploymentCommand.execute`, together with its helpers `getKubeConfigContent`,
`createOrUpdateHelm`, `isHelmReleaseExist`, `installHelmRelease` and `updateHelmRelease`.

A run does the following, in order:

1. It resolves the chart location in the job's workspace. If nothing exists at that path, it logs
   an error and returns without setting a command state.
2. It loads the chart directory. An `IOException` from `load` is logged, and the run goes on
   with a null chart. An `IOException` from closing the loader after a successful `load` is
   logged too, but the run goes on with the loaded chart.
3. It resolves the kubeconfig from the credential id. A blank id means the ambient configuration
   and involves no lookup. An id with no matching credential throws `IllegalArgumentException`.
   That exception leaves `execute`, because the call is outside the `try`.
4. It opens a session: a Kubernetes client, a Tiller tunnel in the Tiller namespace, and a
   release manager. This is one try-with-resources statement.
5. Inside the session, it lists releases named after the release, restricted to the FAILED and
   DEPLOYED status codes. It sends an update request if the listing has a first page, and an
   install request otherwise. Faults of the install or update call are caught and only printed.
6. It sets Success. The resources are then closed in reverse order. An `IOException` from
   opening or closing them is logged and sets HasError.

The model is a pure function `Deployment.Execute(d, env)`. It returns a `Run`: the trace of
observable actions, and the final command state. The actions are:

- error logs;
- the status log;
- the credential lookup;
- acquire and release of each resource;
- the list, install and update requests.

The final state is `Unset`, `Success`, `HasError` or `Escaped(MissingCredential(id))`.

Everything outside the command is answered by an oracle, `HelmModel.Env`:

- workspace path resolution;
- file existence;
- chart loading;
- the credential store;
- the session-opening and session-closing faults;
- Tiller's listing (keyed by the request);
- the outcomes of the install and update futures.

Modules:
- `HelmModel` (model.dfy): the context, request and oracle datatypes.
- `Trace` (trace.dfy): actions, command states, counting and filtering traces, and `Nest`. `Nest`
  is the trace shape of a multi-resource try-with-resources statement: acquire in order, run the
  body, release in reverse, and release only what was acquired.
- `Credentials` (credentials.dfy): `getKubeConfigContent`, with Java's notion of a blank string
  and the first-match policy.
- `Releases` (releases.dfy): the listing request, the existence query, the install and update
  requests and helpers, and `createOrUpdateHelm`.
- `Deployment` (deployment.dfy): the session block and `execute`.
- `Sessions` (sessions.dfy): facts about the session block on its own.
- `Properties` (properties.dfy): lemmas about whole runs.
- `Scenarios` (scenarios.dfy): three concrete runs, each with its complete trace and final state.

Several behaviours of the code are easy to misread; the model follows the code:
- A missing chart leaves the command state unset. It does not report a failure.
- A chart that fails to load is only logged. The run continues with a null chart, or with the
  loaded chart when only closing the loader failed.
- A missing credential escapes `execute` as an exception. It is not turned into an error state.
- Install and update faults are swallowed. Such a run still ends in Success.
- The existence query ignores the status of the release it finds. The namespace check compares
  the release *name* with the reported namespace, and it only prints the result.

## Model

All source paths are under `src/main/java/com/microsoft/jenkins/kubernetes/command/`; the table
gives them in full.

| member | source | states |
|---|---|---|
| Credentials.FirstWithId | src/main/java/com/microsoft/jenkins/kubernetes/command/HelmDeploymentCommand.java:94-100 | the result is the position of the first credential whose id equals the requested id exactly; there is no result exactly when no credential has that id |
| Credentials.KubeConfigContent | src/main/java/com/microsoft/jenkins/kubernetes/command/HelmDeploymentCommand.java:92-107 | three outcomes: ambient (no content) exactly when the id is null or blank; not-found, naming the id, exactly when a non-blank id matches no credential; otherwise the content of the first credential with that id |
| Credentials.KubeConfigViaMatching | src/main/java/com/microsoft/jenkins/kubernetes/command/HelmDeploymentCommand.java:94-104 | for a non-blank id, resolution equals filtering the store by id and taking the head: not-found if nothing remains, else the head's content |
| Releases.ListRequestFor | src/main/java/com/microsoft/jenkins/kubernetes/command/HelmDeploymentCommand.java:120-123 | the listing request filters by exactly the release name, asks for exactly the two status codes FAILED and DEPLOYED, and leaves namespace, limit and offset at their defaults |
| Releases.ListRequestDeterminedByName | src/main/java/com/microsoft/jenkins/kubernetes/command/HelmDeploymentCommand.java:120-123 | two contexts give the same listing request if and only if they have the same release name |
| Releases.IsHelmReleaseExist | src/main/java/com/microsoft/jenkins/kubernetes/command/HelmDeploymentCommand.java:124-135 | the release exists iff the response stream has a first page; the first release's namespace is printed iff it differs from the release name |
| Releases.ExistenceIgnoresReleaseDetails | src/main/java/com/microsoft/jenkins/kubernetes/command/HelmDeploymentCommand.java:125-134 | two listings that agree on being empty or not give the same existence answer, whatever namespaces and statuses they report |
| Releases.InstallRequestFor | src/main/java/com/microsoft/jenkins/kubernetes/command/HelmDeploymentCommand.java:140-144 | the install request carries the target namespace, release name, timeout and wait flag of the context; dry-run, disable-hooks and reuse-name stay unset |
| Releases.InstallRequestDeterminedByContext | src/main/java/com/microsoft/jenkins/kubernetes/command/HelmDeploymentCommand.java:140-144 | two contexts give the same install request if and only if they agree on those four fields |
| Releases.UpdateRequestFor | src/main/java/com/microsoft/jenkins/kubernetes/command/HelmDeploymentCommand.java:159-165 | the update request carries release name, timeout and wait flag; recreate and force (and every other option) stay unset |
| Releases.UpdateRequestDeterminedByContext | src/main/java/com/microsoft/jenkins/kubernetes/command/HelmDeploymentCommand.java:159-165 | two contexts give the same update request if and only if they agree on release name, timeout and wait flag, so the target namespace plays no part |
| Releases.Raised | src/main/java/com/microsoft/jenkins/kubernetes/command/HelmDeploymentCommand.java:147-149 | an install or update call raises a fault unless its future resolves |
| Releases.InstallHelmRelease | src/main/java/com/microsoft/jenkins/kubernetes/command/HelmDeploymentCommand.java:138-155 | the helper sends one install request with the chart, and handles a fault itself exactly when the future does not resolve |
| Releases.UpdateHelmRelease | src/main/java/com/microsoft/jenkins/kubernetes/command/HelmDeploymentCommand.java:157-176 | the helper sends one update request with the chart, and handles a fault itself exactly when the future does not resolve |
| Releases.CreateOrUpdateHelm | src/main/java/com/microsoft/jenkins/kubernetes/command/HelmDeploymentCommand.java:110-117 | one listing request, then an update iff the listing has a first page, and an install iff it has none |
| Deployment.LoadedChart | src/main/java/com/microsoft/jenkins/kubernetes/command/HelmDeploymentCommand.java:64-71 | the chart passed on is null exactly when `load` threw an IOException; otherwise it is the loaded chart, also when closing the loader threw afterwards |
| Deployment.Held | src/main/java/com/microsoft/jenkins/kubernetes/command/HelmDeploymentCommand.java:77-79 | the session header holds exactly the resources whose constructors completed: none when the client constructor throws, the client when the tunnel throws, client and tunnel when the manager throws, all three when it opens; in that order, the client with the resolved kubeconfig and the tunnel in the Tiller namespace |
| Deployment.Session | src/main/java/com/microsoft/jenkins/kubernetes/command/HelmDeploymentCommand.java:77-89 | the session ends in Success iff it opens and closes without an IOException; otherwise it ends in HasError, and the last action is the logged error |
| Deployment.Execute | src/main/java/com/microsoft/jenkins/kubernetes/command/HelmDeploymentCommand.java:51-90 | final state: Unset iff the chart is missing; Escaped with the id iff the chart exists and the credential is missing; Success iff the session body is reached and closing does not fail; HasError iff the chart exists, the credential resolves, and opening or closing fails |
| Trace.NestShape | src/main/java/com/microsoft/jenkins/kubernetes/command/HelmDeploymentCommand.java:77-89 | a bracket over the held resources acquires them in order and releases them in exactly the reverse order |
| Trace.NestBracketed | src/main/java/com/microsoft/jenkins/kubernetes/command/HelmDeploymentCommand.java:77-89 | the resource events of a bracket are properly nested: each release matches the acquisition at the mirrored position |
| Trace.NestEnds | src/main/java/com/microsoft/jenkins/kubernetes/command/HelmDeploymentCommand.java:77-89 | a bracket opens with the acquisitions of the held resources in order and closes with their releases in reverse order, whatever its body |
| Trace.NestMiddle | src/main/java/com/microsoft/jenkins/kubernetes/command/HelmDeploymentCommand.java:77-89 | between the acquisitions and the releases a bracket holds its body unchanged |
| Sessions.BodyCount | src/main/java/com/microsoft/jenkins/kubernetes/command/HelmDeploymentCommand.java:81-83 | the session body holds one status log, exactly one listing request, and one update if the listing has a first page or one install if it has none; nothing else |
| Sessions.SessionCount | src/main/java/com/microsoft/jenkins/kubernetes/command/HelmDeploymentCommand.java:77-89 | apart from resource events and the final error log, a session holds what its body holds when it opens, and nothing when a constructor throws |
| Sessions.SessionResourceEvents | src/main/java/com/microsoft/jenkins/kubernetes/command/HelmDeploymentCommand.java:77-89 | the resource events of a session are exactly the acquisitions of what its header opened followed by their releases in reverse |
| Sessions.SessionRequests | src/main/java/com/microsoft/jenkins/kubernetes/command/HelmDeploymentCommand.java:77-89 | every request a session sends is built from the deployment context |
| Sessions.SessionEraseCharts | src/main/java/com/microsoft/jenkins/kubernetes/command/HelmDeploymentCommand.java:81-83 | a session with a null chart is the same session with the chart payloads nulled, ending in the same state |
| Sessions.SessionLayout | src/main/java/com/microsoft/jenkins/kubernetes/command/HelmDeploymentCommand.java:77-89 | an opened session acquires its three resources first, runs its body in the middle, and releases them in reverse after it; no body action appears outside that middle |
| Properties.EarlyExitWhenChartMissing | src/main/java/com/microsoft/jenkins/kubernetes/command/HelmDeploymentCommand.java:58-62 | when the chart path does not exist the run is exactly one logged error and the state is unset: no lookup, no resource, no request |
| Properties.ChartLoadFailureIsOnlyLogged | src/main/java/com/microsoft/jenkins/kubernetes/command/HelmDeploymentCommand.java:63-71 | a failed chart load gives the run of a successful load, with the chart payloads nulled, preceded by one logged error, and with the same final state |
| Properties.ChartCloseFailureIsOnlyLogged | src/main/java/com/microsoft/jenkins/kubernetes/command/HelmDeploymentCommand.java:63-71 | when closing the loader throws after a successful load, the run is the clean-load run, with the same chart in its requests, preceded by one logged error and ending in the same state |
| Properties.LookupOnlyForNonBlankId | src/main/java/com/microsoft/jenkins/kubernetes/command/HelmDeploymentCommand.java:93-106 | the credential store is consulted exactly once when the chart exists and the id is non-blank, and never otherwise |
| Properties.MissingCredentialEscapesBeforeSession | src/main/java/com/microsoft/jenkins/kubernetes/command/HelmDeploymentCommand.java:101-103 | a missing credential ends the run right after the lookup, with the exception naming the id; no resource is acquired and no request is sent |
| Properties.RequestCount | src/main/java/com/microsoft/jenkins/kubernetes/command/HelmDeploymentCommand.java:77-117 | a run sends listing, install and update requests only from its session body, and only when it reaches that body |
| Properties.ExactlyOneMutation | src/main/java/com/microsoft/jenkins/kubernetes/command/HelmDeploymentCommand.java:110-117 | a run that reaches the session body sends one listing and exactly one of update or install, with update iff the listing has a first page; any other run sends none of them |
| Properties.RequestsCopyContext | src/main/java/com/microsoft/jenkins/kubernetes/command/HelmDeploymentCommand.java:120-165 | every listing, install and update request in any run is the one built from the deployment context |
| Properties.FutureFaultsAreSwallowed | src/main/java/com/microsoft/jenkins/kubernetes/command/HelmDeploymentCommand.java:146-175 | the outcomes of the install and update futures change nothing about a run; a run that reaches the session body and closes cleanly ends in Success |
| Properties.ResourcesReleasedInReverse | src/main/java/com/microsoft/jenkins/kubernetes/command/HelmDeploymentCommand.java:77-89 | on every path the resource events are properly nested: acquire client, then tunnel, then manager, and release each once in reverse; a run that opens the session holds two events per completed constructor, any other run none; all three appear iff the session body is reached; the client uses the resolved kubeconfig |
| Properties.BodyRunsWhileResourcesHeld | src/main/java/com/microsoft/jenkins/kubernetes/command/HelmDeploymentCommand.java:77-85 | in a run that reaches the session body, the status log and every listing, install and update request come after the acquisition and before the release of each of the client, the tunnel and the manager |
| Scenarios.InstallScenario | src/main/java/com/microsoft/jenkins/kubernetes/command/HelmDeploymentCommand.java:138-155 | release "demo" absent and target "prod": the exact trace of acquisitions, status log, listing, install for "demo" in "prod", and reverse releases; the state is Success |
| Scenarios.NamespaceCollisionScenario | src/main/java/com/microsoft/jenkins/kubernetes/command/HelmDeploymentCommand.java:125-134 | a listed "demo" in namespace "staging" still counts as existing: the exact trace holds an update for "demo" between the acquisitions and the reverse releases, the state is Success, and "staging" is only printed |
| Scenarios.InstallFaultScenario | src/main/java/com/microsoft/jenkins/kubernetes/command/HelmDeploymentCommand.java:146-154 | an install future ending in an ExecutionException is handled in the helper; the exact trace is that of a clean install and the state is Success |

## Left out

- Workspace path resolution (`FilePath.child`), file existence and chart directory parsing
  belong to Jenkins and to the chart loader library. They are oracle answers.
- The credential provider, the credential matchers, the job owner and the `ACL.SYSTEM`
  identity are reduced to one oracle sequence: the credentials visible to the run, in store order.
- The Kubernetes client, the Tiller gRPC tunnel and the release manager's networking are not
  modelled. They appear only as acquire and release events, plus oracle answers: which
  constructor throws, whether closing throws, what the listing returns, and how the futures end.
- Closing is a single flag. It means an `IOException` from closing the manager or the tunnel.
  The client's `close` throws no checked exception. Close faults that Java suppresses behind an
  opening fault change nothing, so they are not told apart.
- Future asynchrony and interruption are not modelled. Each future's outcome is an oracle value.
- `System.out.println`, `printStackTrace` and the wording of log messages are not in the trace.
  The printed namespace is kept in the existence answer, and the handled fault in the helper's
  result.
- The `assert release != null` checks after the futures are not modelled.
- An empty first response page would make `getReleases(0)` throw. The `ListPage` type rules it
  out, because every page has a first release.
- Unchecked exceptions other than the missing credential are not modelled. Examples: faults
  from the gRPC layer, or a library rejecting a null chart.
- The timeout is an unbounded integer. Java's `long` only passes through, with no arithmetic.
- Reaching the release twice in a row (install, then update) depends on cluster state across
  runs. The oracle is fixed for one run, so this is not modelled.
- `ClientWrapperFactory` is an interface with no logic, and is not part of this model.
