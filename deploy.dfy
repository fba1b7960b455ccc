/**
 * The fast-deploy pipeline of `AzuratorGitDeployMojo`: open or create the staging
 * repository, stage tracked and untracked changes, commit, then force-push to the
 * derived endpoint while swallowing every exception raised by the push step.
 *
 * JGit, the file system and the settings decrypter are outside the model: a `World`
 * fixes what each of their calls answers (a value or an exception), and a run is
 * observed as the trace of calls made and log lines written.
 */
module GitDeploy {

  import opened Optional
  import opened ServerLookup
  import RemoteEndpoint

  type Path = string
  type ObjectId = string

  /** A Java exception: a NullPointerException raised by the mojo's own code, or anything thrown by a foreign call. */
  datatype Exception = NullPointer | Thrown(description: string)

  /** What one foreign call does: return a value or throw. */
  datatype Try<+T> = Returns(value: T) | Throws(error: Exception)

  /** The mojo's parameters. */
  datatype Config = Config(
    applicationName: string,
    serverId: string,
    sourceDirectory: Path,
    settings: Option<Settings>,
    stagingDirectory: Path,
    versionDescription: string)

  /** The answers of the world outside the model to each call of one run. */
  datatype World = World(
    stagingExists: bool,                              // stagingDirectory.exists()
    mkdirs: Try<()>,                                  // getParentFile().mkdirs()
    build: Try<()>,                                   // RepositoryBuilder.build()
    create: Try<()>,                                  // Repository.create()
    refBefore: Try<Option<ObjectId>>,                 // getRef("master") before staging
    status: Try<seq<Path>>,                           // status().call(), as its untracked paths in iteration order
    updateAdd: Try<()>,                               // add().setUpdate(true).addFilepattern(".").call()
    add: Try<()>,                                     // the add of the untracked paths
    commit: Try<()>,                                  // commit().setAll(true).setMessage(..).call()
    refAfter: Try<Option<ObjectId>>,                  // getRef("master") after the commit
    decrypt: Option<Server> -> Try<Option<Server>>,   // the decrypter's lookup, decrypt(..).getServer()
    push: Try<seq<string>>)                           // push call(): the messages of each PushResult

  /** The repository handle: its metadata in the staging directory, its work tree the build output. */
  datatype Repository = Repository(gitDir: Path, workTree: Path)

  const MasterRef: string := "master"
  const PushRefSpec: string := "HEAD:refs/heads/master"

  /** The push as configured before `call()`. */
  datatype PushRequest = PushRequest(refSpec: string, force: bool, remote: string, username: Option<string>, password: string)

  /** One observable step of a run: a call made, or a line logged. */
  datatype Event =
    | MakeParentDirectories(of: Path)
    | BuildRepository(gitDir: Path, workTree: Path)
    | CreateRepository
    | ReadRef(name: string)
    | ComputeStatus
    | Add(update: bool, patterns: seq<Path>)
    | LogAddingFile(path: Path)
    | Commit(all: bool, message: string)
    | DecryptServer(server: Option<Server>)
    | Push(request: PushRequest)
    | LogWarning(error: Exception)
    | LogPushResult(messages: string)

  /** How a method ends: normally or by an exception that escapes it. */
  datatype Completion = Normal | Abrupt(cause: Exception)

  /** The outcome of `execute()`: success, or the failure Maven reports. */
  datatype MojoResult = Success | MojoExecutionException(message: string, cause: Exception)

  /** A run: how it ended and what it did, in order. */
  datatype Run = Run(completion: Completion, trace: seq<Event>)

  /** A call of the pipeline outside the push step, with the exception it throws, if any. */
  datatype Call = Call(event: Event, thrown: Option<Exception>)

  function Raised<T>(t: Try<T>): Option<Exception>
  {
    match t
    case Returns(_) => None
    case Throws(e) => Some(e)
  }

  function Prepend(events: seq<Event>, r: Run): Run
  {
    Run(r.completion, events + r.trace)
  }

  function Events(calls: seq<Call>): seq<Event>
  {
    seq(|calls|, k requires 0 <= k < |calls| => calls[k].event)
  }

  /** Making the calls in order: the first call that throws ends the run with its exception. */
  function Perform(calls: seq<Call>): Run
    decreases |calls|
  {
    if calls == [] then Run(Normal, [])
    else
      match calls[0].thrown
      case Some(e) => Run(Abrupt(e), [calls[0].event])
      case None => Prepend([calls[0].event], Perform(calls[1..]))
  }

  /** The calls of `getGitRepo`: create the repository when the staging directory is missing, else open it. */
  function OpenCalls(cfg: Config, w: World): seq<Call>
  {
    var build := Call(BuildRepository(cfg.stagingDirectory, cfg.sourceDirectory), Raised(w.build));
    if w.stagingExists then [build]
    else [Call(MakeParentDirectories(cfg.stagingDirectory), Raised(w.mkdirs)), build, Call(CreateRepository, Raised(w.create))]
  }

  /** The untracked paths of the status snapshot (none when the status call throws). */
  function Untracked(w: World): seq<Path>
  {
    match w.status
    case Returns(paths) => paths
    case Throws(_) => []
  }

  /** One "Adding file" log line per untracked path, in order. */
  function AddingFileCalls(paths: seq<Path>): seq<Call>
  {
    if paths == [] then [] else [Call(LogAddingFile(paths[0]), None)] + AddingFileCalls(paths[1..])
  }

  /** The second add: made only when there are untracked paths, with exactly those paths. */
  function UntrackedAddCalls(w: World, paths: seq<Path>): seq<Call>
  {
    if paths == [] then [] else [Call(Add(false, paths), Raised(w.add))]
  }

  /** Re-reading the master ref after the commit: a null ref is dereferenced and throws. */
  function RefAfterRaised(w: World): Option<Exception>
  {
    match w.refAfter
    case Throws(e) => Some(e)
    case Returns(None) => Some(NullPointer)
    case Returns(Some(_)) => None
  }

  /** Staging: update-add of ".", one log line per untracked path, then the add of the untracked paths. */
  function StagingCalls(w: World, paths: seq<Path>): seq<Call>
  {
    [Call(Add(true, ["."]), Raised(w.updateAdd))] + AddingFileCalls(paths) + UntrackedAddCalls(w, paths)
  }

  /** The commit of all changes with the configured message, then the re-read of the master ref. */
  function CommitCalls(cfg: Config, w: World): seq<Call>
  {
    [Call(Commit(true, cfg.versionDescription), Raised(w.commit)), Call(ReadRef(MasterRef), RefAfterRaised(w))]
  }

  /** The calls of the pipeline before the push step, in order; an exception from any of them escapes. */
  function FatalCalls(cfg: Config, w: World): seq<Call>
  {
    OpenCalls(cfg, w)
    + [Call(ReadRef(MasterRef), Raised(w.refBefore)), Call(ComputeStatus, Raised(w.status))]
    + StagingCalls(w, Untracked(w))
    + CommitCalls(cfg, w)
  }

  function PushResultLogs(messages: seq<string>): seq<Event>
  {
    if messages == [] then [] else [LogPushResult(messages[0])] + PushResultLogs(messages[1..])
  }

  /** The push step: every exception in it, from the credentials to the push itself, becomes a warning. */
  function PushEvents(cfg: Config, w: World): seq<Event>
  {
    var server := Lookup(cfg.settings, cfg.serverId);
    [DecryptServer(server)] +
    match w.decrypt(server)
    case Throws(e) => [LogWarning(e)]
    case Returns(None) => [LogWarning(NullPointer)]
    case Returns(Some(s)) =>
      match s.password
      case None => [LogWarning(NullPointer)]
      case Some(password) =>
        var request := PushRequest(PushRefSpec, true, RemoteEndpoint.Endpoint(cfg.applicationName), s.username, password);
        [Push(request)] +
        match w.push
        case Throws(e) => [LogWarning(e)]
        case Returns(messages) => PushResultLogs(messages)
  }

  /** The reference semantics of `executeInternal`. */
  function Deploy(cfg: Config, w: World): Run
  {
    var fatal := Perform(FatalCalls(cfg, w));
    if fatal.completion.Abrupt? then fatal else Run(Normal, fatal.trace + PushEvents(cfg, w))
  }

  /** Performing a concatenation performs the first part, then, unless it threw, the second. */
  lemma {:induction false} PerformConcat(a: seq<Call>, b: seq<Call>)
    ensures Perform(a + b) == if Perform(a).completion.Abrupt? then Perform(a) else Prepend(Perform(a).trace, Perform(b))
    decreases |a|
  {
    if a != [] {
      assert (a + b)[0] == a[0];
      assert (a + b)[1..] == a[1..] + b;
      if a[0].thrown.None? {
        PerformConcat(a[1..], b);
      }
    } else {
      assert a + b == b;
    }
  }

  /** `getGitRepo`: the repository handle, or the exception that escapes it. */
  method GetGitRepo(cfg: Config, w: World) returns (repo: Try<Repository>, trace: seq<Event>)
    ensures repo.Returns? ==> repo.value == Repository(cfg.stagingDirectory, cfg.sourceDirectory)
    ensures Run(if repo.Returns? then Normal else Abrupt(repo.error), trace) == Perform(OpenCalls(cfg, w))
  {
    trace := [];
    ghost var calls := OpenCalls(cfg, w);
    if !w.stagingExists {
      assert calls[1..][1..] == [calls[2]];
      assert Perform(calls[1..][1..]) == Perform([calls[2]]);
      trace := trace + [MakeParentDirectories(cfg.stagingDirectory)];
      if w.mkdirs.Throws? {
        return Throws(w.mkdirs.error), trace;
      }
      trace := trace + [BuildRepository(cfg.stagingDirectory, cfg.sourceDirectory)];
      if w.build.Throws? {
        return Throws(w.build.error), trace;
      }
      trace := trace + [CreateRepository];
      if w.create.Throws? {
        return Throws(w.create.error), trace;
      }
    } else {
      trace := trace + [BuildRepository(cfg.stagingDirectory, cfg.sourceDirectory)];
      if w.build.Throws? {
        return Throws(w.build.error), trace;
      }
    }
    repo := Returns(Repository(cfg.stagingDirectory, cfg.sourceDirectory));
  }

  /** One more call of a pending run: it throws and ends the run, or it returns and the run goes on. */
  lemma Advance(calls: seq<Call>, trace: seq<Event>, rest: seq<Call>)
    requires rest != [] && Perform(calls) == Prepend(trace, Perform(rest))
    ensures rest[0].thrown.Some? ==> Perform(calls) == Run(Abrupt(rest[0].thrown.value), trace + [rest[0].event])
    ensures rest[0].thrown.None? ==> Perform(calls) == Prepend(trace + [rest[0].event], Perform(rest[1..]))
  {
  }

  /** Staging: update-add every tracked path, then add exactly the untracked paths, if there are any. */
  method StageChanges(w: World, untracked: seq<Path>) returns (completion: Completion, trace: seq<Event>)
    ensures Run(completion, trace) == Perform(StagingCalls(w, untracked))
  {
    ghost var calls := StagingCalls(w, untracked);
    trace := [Add(true, ["."])];
    if w.updateAdd.Throws? {
      return Abrupt(w.updateAdd.error), trace;
    }
    ghost var tail := UntrackedAddCalls(w, untracked);
    assert calls[1..] == AddingFileCalls(untracked) + tail;

    if untracked != [] {
      var patterns: seq<Path> := [];
      var i := 0;
      while i < |untracked|
        invariant 0 <= i <= |untracked|
        invariant patterns == untracked[..i]
        invariant Perform(calls) == Prepend(trace, Perform(AddingFileCalls(untracked[i..]) + tail))
      {
        ghost var pending := AddingFileCalls(untracked[i..]) + tail;
        assert untracked[i..][1..] == untracked[i + 1..];
        assert pending[1..] == AddingFileCalls(untracked[i + 1..]) + tail;
        Advance(calls, trace, pending);
        trace := trace + [LogAddingFile(untracked[i])];
        patterns := patterns + [untracked[i]];
        i := i + 1;
      }
      assert patterns == untracked;
      assert AddingFileCalls(untracked[i..]) + tail == tail;
      Advance(calls, trace, tail);
      trace := trace + [Add(false, patterns)];
      if w.add.Throws? {
        return Abrupt(w.add.error), trace;
      }
    }
    completion := Normal;
  }

  /** `executeInternal`, step by step. */
  method ExecuteInternal(cfg: Config, w: World) returns (completion: Completion, trace: seq<Event>)
    ensures Run(completion, trace) == Deploy(cfg, w)
  {
    ghost var calls := FatalCalls(cfg, w);
    var repo;
    repo, trace := GetGitRepo(cfg, w);
    ghost var rest := [Call(ReadRef(MasterRef), Raised(w.refBefore)), Call(ComputeStatus, Raised(w.status))]
      + StagingCalls(w, Untracked(w)) + CommitCalls(cfg, w);
    assert calls == OpenCalls(cfg, w) + rest;
    PerformConcat(OpenCalls(cfg, w), rest);
    if repo.Throws? {
      return Abrupt(repo.error), trace;
    }

    // the master ref read before staging; its commit id is never used
    Advance(calls, trace, rest);
    trace := trace + [ReadRef(MasterRef)];
    if w.refBefore.Throws? {
      return Abrupt(w.refBefore.error), trace;
    }
    rest := rest[1..];

    Advance(calls, trace, rest);
    trace := trace + [ComputeStatus];
    if w.status.Throws? {
      return Abrupt(w.status.error), trace;
    }
    var untracked := w.status.value;
    rest := rest[1..];
    assert rest == StagingCalls(w, untracked) + CommitCalls(cfg, w);

    PerformConcat(StagingCalls(w, untracked), CommitCalls(cfg, w));
    var staged, stagingEvents := StageChanges(w, untracked);
    trace := trace + stagingEvents;
    if staged.Abrupt? {
      return staged, trace;
    }
    rest := CommitCalls(cfg, w);
    assert rest == CommitCalls(cfg, w);

    Advance(calls, trace, rest);
    trace := trace + [Commit(true, cfg.versionDescription)];
    if w.commit.Throws? {
      return Abrupt(w.commit.error), trace;
    }
    rest := rest[1..];

    // the master ref is re-read and dereferenced: a null ref throws
    Advance(calls, trace, rest);
    trace := trace + [ReadRef(MasterRef)];
    if w.refAfter.Throws? {
      return Abrupt(w.refAfter.error), trace;
    }
    if w.refAfter.value.None? {
      return Abrupt(NullPointer), trace;
    }
    assert rest[1..] == [];
    assert Perform(calls) == Run(Normal, trace);

    var pushed := PushStep(cfg, w);
    trace := trace + pushed;
    completion := Normal;
  }

  /** The push step: every exception inside its try block, credentials included, is logged and swallowed. */
  method PushStep(cfg: Config, w: World) returns (events: seq<Event>)
    ensures events == PushEvents(cfg, w)
  {
    var remote := RemoteEndpoint.Endpoint(cfg.applicationName);

    var pushResults: Option<seq<string>> := None;
    events := [];
    var server := GetServer(cfg.settings, cfg.serverId);
    events := events + [DecryptServer(server)];
    match w.decrypt(server) {
      case Throws(e) =>
        events := events + [LogWarning(e)];
      case Returns(None) =>
        events := events + [LogWarning(NullPointer)];
      case Returns(Some(s)) =>
        if s.password.None? {
          events := events + [LogWarning(NullPointer)];
        } else {
          events := events + [Push(PushRequest(PushRefSpec, true, remote, s.username, s.password.value))];
          match w.push {
            case Throws(e) =>
              events := events + [LogWarning(e)];
            case Returns(results) =>
              pushResults := Some(results);
          }
        }
    }
    assert pushResults.None? ==> events == PushEvents(cfg, w);
    assert pushResults.Some? ==> events + PushResultLogs(pushResults.value) == PushEvents(cfg, w);

    // push results are only logged at debug level, and only when there are any
    if pushResults.Some? {
      var results := pushResults.value;
      var j := 0;
      while j < |results|
        invariant 0 <= j <= |results|
        invariant events + PushResultLogs(results[j..]) == PushEvents(cfg, w)
      {
        assert results[j..][1..] == results[j + 1..];
        events := events + [LogPushResult(results[j])];
        j := j + 1;
      }
      assert results[j..] == [];
    }
  }

  /** `execute`: any exception escaping `executeInternal` is wrapped for Maven. */
  method Execute(cfg: Config, w: World) returns (result: MojoResult, trace: seq<Event>)
    ensures trace == Deploy(cfg, w).trace
    ensures result.Success? <==> Deploy(cfg, w).completion.Normal?
    ensures result.MojoExecutionException? ==>
      result.message == "Failure" && Deploy(cfg, w).completion == Abrupt(result.cause)
  {
    var completion;
    completion, trace := ExecuteInternal(cfg, w);
    match completion {
      case Normal => result := Success;
      case Abrupt(e) => result := MojoExecutionException("Failure", e);
    }
  }
}
