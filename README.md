# Azurator fast-deploy, modelled in Dafny

This project models the `fast-deploy` goal of the Azurator Maven plugin
(`AzuratorGitDeployMojo`). The goal records a build-output directory as a new commit
in a git repository whose metadata lives in a persistent staging directory. It then
force-pushes that commit to the application's SCM endpoint on azurewebsites.net.

Three pieces are modelled:

- **Server lookup** (`servers.dfy`, module `ServerLookup`). `getServer(Settings, String)`
  is a search loop, `GetServer`, proved equal to a recursive reference function
  `Lookup`/`FirstWithId`. Lemmas then show that the first match wins and that the
  result is null exactly when no server has the id.
- **Remote endpoint** (`endpoint.dfy`, module `RemoteEndpoint`).
  `Endpoint(name)` is `https://<name>.scm.azurewebsites.net:443/<name>.git`.
  `ApplicationNameOf` recovers the name, which makes the map injective.
- **Deploy pipeline** (`deploy.dfy`, module `GitDeploy`; lemmas in
  `deploy_properties.dfy`, module `DeployProperties`). JGit, the file system and
  the settings decrypter are foreign code. A `World` value fixes what each of their
  calls answers in one run: a value, or an exception. A run is observed as a trace
  of `Event`s, meaning the calls made and the lines logged.
  - `GetGitRepo`, `StageChanges`, `PushStep`, `ExecuteInternal` and `Execute` are
    imperative methods that build this trace step by step. Each is proved equal to
    a reference semantics.
  - The reference semantics, `Deploy`, makes a fixed list of "fatal" calls in order
    (`FatalCalls`), and the first call that throws ends the run (`Perform`). If none
    throws, the push step follows (`PushEvents`). That step never ends the run abruptly, given a
    well-formed push result (see "Left out").
  - The lemmas in `DeployProperties` prove the rest from this reference semantics:
    the order of the calls, open-or-create, staging, commit before push, the push's
    refspec and force flag, and the failure policy.

`Option` stands for a nullable reference. `Exception` is either `NullPointer`, raised
by the mojo's own dereferences, or `Thrown(description)` from foreign code.

Two behaviours of the code are easy to miss:

- The credential lookup, the decryption and the construction of the credentials
  provider are all evaluated inside the push's `try` block
  (`AzuratorGitDeployMojo.java:139-148`). So a failed decryption, a missing server or
  a null password ends as a warning, and the run still succeeds
  (`CredentialFailureIsOnlyAWarning`).
- With no matching server, the null server goes to the decrypter. If the decrypter
  returns null, the provider's constructor dereferences it before `call()`. No push is
  then made, and the NullPointerException is logged as a warning.

## Model

| member | source | states |
|---|---|---|
| ServerLookup.FirstWithId | azurator-maven-plugin/src/main/java/io/ingenieux/AzuratorGitDeployMojo.java:177-180 | a server found is a member of the list and its id equals the requested id |
| ServerLookup.FirstWithIdIsFirstMatch | azurator-maven-plugin/src/main/java/io/ingenieux/AzuratorGitDeployMojo.java:177-179 | a server found sits at an index whose id matches, and no earlier server has that id: the first match wins |
| ServerLookup.FirstMatchIsFound | azurator-maven-plugin/src/main/java/io/ingenieux/AzuratorGitDeployMojo.java:177-179 | conversely, the server at the first matching index is the one returned |
| ServerLookup.FirstWithIdNoneIff | azurator-maven-plugin/src/main/java/io/ingenieux/AzuratorGitDeployMojo.java:177-180 | null is returned exactly when no server in the list has the requested id |
| ServerLookup.LookupProperties | azurator-maven-plugin/src/main/java/io/ingenieux/AzuratorGitDeployMojo.java:170-181 | null settings, a null server list or an empty one give null; otherwise null iff no id matches, and a result is the first match |
| ServerLookup.GetServer | azurator-maven-plugin/src/main/java/io/ingenieux/AzuratorGitDeployMojo.java:170-181 | the early-return search loop returns exactly the reference lookup's result |
| RemoteEndpoint.Endpoint | azurator-maven-plugin/src/main/java/io/ingenieux/AzuratorGitDeployMojo.java:183-185 | the URL starts with `https://`, ends with `.git`, and is the fixed parts plus two copies of the name long |
| RemoteEndpoint.ApplicationNameOf | azurator-maven-plugin/src/main/java/io/ingenieux/AzuratorGitDeployMojo.java:183-185 | a name recovered from a URL is one whose endpoint is that URL |
| RemoteEndpoint.EndpointRoundTrip | azurator-maven-plugin/src/main/java/io/ingenieux/AzuratorGitDeployMojo.java:183-185 | stripping the fixed prefix and suffix from an endpoint gives back the application name |
| RemoteEndpoint.EndpointInjective | azurator-maven-plugin/src/main/java/io/ingenieux/AzuratorGitDeployMojo.java:183-185 | distinct application names give distinct endpoints |
| RemoteEndpoint.EndpointExample | azurator-maven-plugin/src/main/java/io/ingenieux/AzuratorGitDeployMojo.java:183-185 | the endpoint of `myapp` is `https://myapp.scm.azurewebsites.net:443/myapp.git` |
| GitDeploy.GetGitRepo | azurator-maven-plugin/src/main/java/io/ingenieux/AzuratorGitDeployMojo.java:196-216 | the repository returned has the staging directory as git dir and the source directory as work tree; its calls and failure are those of the open-or-create calls |
| GitDeploy.StageChanges | azurator-maven-plugin/src/main/java/io/ingenieux/AzuratorGitDeployMojo.java:103-118 | the loop over the untracked paths logs each one and then adds exactly those paths, as the staging calls prescribe, stopping at the first add that throws |
| GitDeploy.PushStep | azurator-maven-plugin/src/main/java/io/ingenieux/AzuratorGitDeployMojo.java:127-158 | the push block makes the push step's calls and logs, converting every exception raised inside the `try` (lookup, decryption, provider, push) into a warning, and logging each result of a returned push |
| GitDeploy.ExecuteInternal | azurator-maven-plugin/src/main/java/io/ingenieux/AzuratorGitDeployMojo.java:91-161 | the step-by-step method ends and traces exactly as the reference semantics `Deploy` does |
| GitDeploy.Execute | azurator-maven-plugin/src/main/java/io/ingenieux/AzuratorGitDeployMojo.java:83-89 | `execute` succeeds iff `executeInternal` returns normally, and otherwise fails with message "Failure" carrying the escaped exception |
| DeployProperties.PerformStopsAtFirstThrow | azurator-maven-plugin/src/main/java/io/ingenieux/AzuratorGitDeployMojo.java:91-125 | calls made in sequence end normally iff none throws, with every call made; otherwise they end right after the first call that throws, with its exception |
| DeployProperties.DeployAbortsAtFirstFatalFailure | azurator-maven-plugin/src/main/java/io/ingenieux/AzuratorGitDeployMojo.java:91-125 | a run ends normally iff no call before the push throws; otherwise its trace stops at the first failing call and nothing after it, the push included, happens |
| DeployProperties.AddingFileCallsAt | azurator-maven-plugin/src/main/java/io/ingenieux/AzuratorGitDeployMojo.java:112-115 | there is one "Adding file" log per untracked path, in iteration order |
| DeployProperties.StagingCallsShape | azurator-maven-plugin/src/main/java/io/ingenieux/AzuratorGitDeployMojo.java:103-118 | staging is the update-add of ".", the per-path logs, then the add of the untracked paths only if there are any; it fails iff one of the two adds throws |
| DeployProperties.FatalCallEvents | azurator-maven-plugin/src/main/java/io/ingenieux/AzuratorGitDeployMojo.java:92-124 | no call before the push belongs to the push step; the commit occurs once, right after staging; repository creation happens only in the open phase |
| DeployProperties.PushResultLogsAt | azurator-maven-plugin/src/main/java/io/ingenieux/AzuratorGitDeployMojo.java:153-157 | each push result is logged once at debug level, in order |
| DeployProperties.PushEventsShape | azurator-maven-plugin/src/main/java/io/ingenieux/AzuratorGitDeployMojo.java:139-157 | the push step starts by decrypting the looked-up server; a push made is forced, uses `HEAD:refs/heads/master`, and targets the derived endpoint |
| DeployProperties.NormalOnlyWithoutFatalFailure | azurator-maven-plugin/src/main/java/io/ingenieux/AzuratorGitDeployMojo.java:91-125 | a run that returns normally had no failure in open, ref reads, status, adds or commit, and a non-null master ref after the commit |
| DeployProperties.SuccessfulRunOrder | azurator-maven-plugin/src/main/java/io/ingenieux/AzuratorGitDeployMojo.java:91-161 | with no failure before the push, the run returns normally and its trace is open, ref read, status, staging, commit, ref re-read, then the push step, in that order |
| DeployProperties.CompletesIffNoFatalFailure | azurator-maven-plugin/src/main/java/io/ingenieux/AzuratorGitDeployMojo.java:91-161 | `executeInternal` returns normally exactly when every call before the push succeeds and the master ref re-read is non-null |
| DeployProperties.PushStepNeverChangesCompletion | azurator-maven-plugin/src/main/java/io/ingenieux/AzuratorGitDeployMojo.java:139-148 | changing the settings, server id, application name, decrypter or push outcome (a throw or a returned list of results) never changes how the run ends |
| DeployProperties.PushStepAlwaysRuns | azurator-maven-plugin/src/main/java/io/ingenieux/AzuratorGitDeployMojo.java:127-160 | after a successful commit and ref re-read, the push step runs, starting with the decryption of the looked-up server, and the run returns normally |
| DeployProperties.PushFollowsCommit | azurator-maven-plugin/src/main/java/io/ingenieux/AzuratorGitDeployMojo.java:105-144 | a push happens only in a normal run, after the update-add and after the commit of all with the configured message; it is forced, to `HEAD:refs/heads/master`, at the endpoint |
| DeployProperties.StagingPrecedesCommit | azurator-maven-plugin/src/main/java/io/ingenieux/AzuratorGitDeployMojo.java:101-120 | a commit carries the configured message with all set, and is preceded by the status and then exactly the staging events for the status's untracked paths |
| DeployProperties.TraceSlice | azurator-maven-plugin/src/main/java/io/ingenieux/AzuratorGitDeployMojo.java:91-125 | any stretch of the trace before the push step is the events of the corresponding calls, in order |
| DeployProperties.OpenOrCreate | azurator-maven-plugin/src/main/java/io/ingenieux/AzuratorGitDeployMojo.java:196-216 | the first step is the parent-directory creation when the staging directory is missing and the open otherwise; creation comes third, after both, and only when it was missing; when the staging directory exists, no directory or repository is created; every build uses staging as git dir and source as work tree |
| DeployProperties.CredentialFailureIsOnlyAWarning | azurator-maven-plugin/src/main/java/io/ingenieux/AzuratorGitDeployMojo.java:139-157 | a decryption that throws, a null server or a null password ends the run normally; the whole trace is the fatal calls' events, then the decryption and a warning with that exception (or a NullPointerException): no push and no result log |
| DeployProperties.PushFailureIsOnlyAWarning | azurator-maven-plugin/src/main/java/io/ingenieux/AzuratorGitDeployMojo.java:139-157 | a push that throws ends the run normally; the whole trace is the fatal calls' events, then the decryption, the forced push and the warning with the push's exception: no result log |
| DeployProperties.PushResultsLoggedAtDebug | azurator-maven-plugin/src/main/java/io/ingenieux/AzuratorGitDeployMojo.java:139-157 | a push that returns is followed only by one debug log per result, in order, and the run logs no warning |
| DeployProperties.ResultLogOnlyAfterReturnedPush | azurator-maven-plugin/src/main/java/io/ingenieux/AzuratorGitDeployMojo.java:139-157 | a push result is logged only if a push was made and returned: a thrown push, a failed credential lookup or a run that ends before the push logs no result |
| DeployProperties.ExecuteFailsOnlyOnFatalFailure | azurator-maven-plugin/src/main/java/io/ingenieux/AzuratorGitDeployMojo.java:83-125 | the run fails exactly when a call before the push fails, and the failure carries the exception of the first such call |

## Left out

- JGit internals are not modelled: status computation, index contents, commit object creation, ref resolution and the push transport. Each is a call whose answer, a value or an exception, comes from the `World`. So the idempotence of a repeated update-add and the content of commit trees are not modelled.
- Whether a commit with no changes is empty or refused is up to JGit, and is not modelled beyond "the commit call returns or throws".
- The decrypter's container lookup and the decryption itself are one opaque function of the looked-up server (`World.decrypt`), which may throw.
- The `commitId` strings (lines 94-99, 122-124) are never used, so they are not computed. Only the dereference of a null master ref after the commit is modelled, as a NullPointerException that escapes.
- File-system effects (`exists`, `mkdirs`) appear only as the `World`'s answers. `mkdirs`' boolean result is ignored by the code; a throw from `getParentFile().mkdirs()` (for example a staging directory without a parent) is modelled.
- `TextProgressMonitor` output and the exact text of log lines are I/O. Each log line is an event carrying its subject.
- Maven and Plexus wiring is not modelled: `@Parameter` defaults, `contextualize`, and the injected container. The parameters are the `Config` value.
- `serverId` and `applicationName` are non-null strings here. A null `serverId` (which the documentation of `getServer` forbids) is dereferenced only at line 178, so only when the settings hold a non-empty server list; that call runs inside the push's `try` (line 143), so the exception would end as a warning, not a failure. A null `applicationName` would be formatted as "null".
- A null entry inside the settings' server list is not modelled.
- GitDeploy.PushStep, DeployProperties.PushStepNeverChangesCompletion: a push that returns is taken to return a non-null list of non-null results, which is what JGit's `PushCommand.call()` gives. The loop over the results (lines 153-157) lies outside the `try` of lines 139-148. So a null list would log nothing, and a null element would raise a NullPointerException that escapes `executeInternal` and ends the run as "Failure". Neither malformed result can be expressed in the `World`, so these promises hold only for well-formed results.
- The `File` parameters `stagingDirectory` and `sourceDirectory` are non-null paths here. A null `stagingDirectory` would be dereferenced at line 205, before any foreign call, and the NullPointerException would end the run as "Failure". A null `sourceDirectory` is only handed to JGit's builder.
- `java.lang.Error`s are not caught by `execute` and are not modelled.
- Concurrent runs against one staging directory are not modelled. The pipeline is sequential.
