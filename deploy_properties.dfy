/**
 * What the fast-deploy pipeline promises, proved about its reference semantics
 * `GitDeploy.Deploy` (which `GitDeploy.ExecuteInternal` is proved to implement).
 */
module DeployProperties {

  import opened Optional
  import opened ServerLookup
  import RemoteEndpoint
  import opened GitDeploy

  /** Call `i` is the first of `calls` that throws. */
  ghost predicate FirstThrow(calls: seq<Call>, i: int)
  {
    0 <= i < |calls| && calls[i].thrown.Some? && forall j :: 0 <= j < i ==> calls[j].thrown.None?
  }

  /** Calls are made in order; the run ends normally when none throws, else right after the first that throws. */
  lemma {:induction false} PerformStopsAtFirstThrow(calls: seq<Call>)
    ensures Perform(calls).completion.Normal? <==> forall i :: 0 <= i < |calls| ==> calls[i].thrown.None?
    ensures Perform(calls).completion.Normal? ==> Perform(calls).trace == Events(calls)
    ensures Perform(calls).completion.Abrupt? ==>
      exists i :: FirstThrow(calls, i) &&
        Perform(calls) == Run(Abrupt(calls[i].thrown.value), Events(calls[..i + 1]))
    decreases |calls|
  {
    if calls != [] {
      if calls[0].thrown.Some? {
        assert FirstThrow(calls, 0);
        assert Events(calls[..1]) == [calls[0].event];
      } else {
        var tail := calls[1..];
        PerformStopsAtFirstThrow(tail);
        if Perform(tail).completion.Normal? {
          assert Events(calls) == [calls[0].event] + Events(tail);
          forall i | 0 <= i < |calls| ensures calls[i].thrown.None? {
            if i > 0 { assert calls[i] == tail[i - 1]; }
          }
        } else {
          var i :| FirstThrow(tail, i) && Perform(tail) == Run(Abrupt(tail[i].thrown.value), Events(tail[..i + 1]));
          assert FirstThrow(calls, i + 1);
          assert Events(calls[..i + 2]) == [calls[0].event] + Events(tail[..i + 1]);
          assert !calls[i + 1].thrown.None?;
        }
      }
    }
  }

  /** A run of the pipeline does the fatal calls up to the first that throws; the push step runs only when none threw. */
  lemma DeployAbortsAtFirstFatalFailure(cfg: Config, w: World)
    ensures Deploy(cfg, w).completion.Normal? <==>
      forall i :: 0 <= i < |FatalCalls(cfg, w)| ==> FatalCalls(cfg, w)[i].thrown.None?
    ensures Deploy(cfg, w).completion.Normal? ==>
      Deploy(cfg, w).trace == Events(FatalCalls(cfg, w)) + PushEvents(cfg, w)
    ensures Deploy(cfg, w).completion.Abrupt? ==>
      exists i :: FirstThrow(FatalCalls(cfg, w), i) &&
        Deploy(cfg, w) == Run(Abrupt(FatalCalls(cfg, w)[i].thrown.value), Events(FatalCalls(cfg, w)[..i + 1]))
  {
    PerformStopsAtFirstThrow(FatalCalls(cfg, w));
  }

  /** The log lines "Adding file" for each untracked path, in order. */
  function AddingFileLogs(paths: seq<Path>): seq<Event>
  {
    seq(|paths|, k requires 0 <= k < |paths| => LogAddingFile(paths[k]))
  }

  /** The events of staging: update-add of ".", one log line per untracked path, the add of exactly those paths if any. */
  function StagingEvents(paths: seq<Path>): seq<Event>
  {
    [Add(true, ["."])] + AddingFileLogs(paths) + (if paths == [] then [] else [Add(false, paths)])
  }

  /** The events of opening the repository: create it (after its parent directories) only when missing. */
  function OpenEvents(cfg: Config, w: World): seq<Event>
  {
    if w.stagingExists then [BuildRepository(cfg.stagingDirectory, cfg.sourceDirectory)]
    else [MakeParentDirectories(cfg.stagingDirectory), BuildRepository(cfg.stagingDirectory, cfg.sourceDirectory), CreateRepository]
  }

  lemma {:induction false} AddingFileCallsAt(paths: seq<Path>)
    ensures |AddingFileCalls(paths)| == |paths|
    ensures forall k :: 0 <= k < |paths| ==> AddingFileCalls(paths)[k] == Call(LogAddingFile(paths[k]), None)
    decreases |paths|
  {
    if paths != [] {
      AddingFileCallsAt(paths[1..]);
      assert AddingFileCalls(paths) == [Call(LogAddingFile(paths[0]), None)] + AddingFileCalls(paths[1..]);
    }
  }

  lemma EventsConcat(a: seq<Call>, b: seq<Call>)
    ensures Events(a + b) == Events(a) + Events(b)
  {
  }

  /** The calls of staging: none is a commit or a push-step event, only the two adds can throw. */
  lemma StagingCallsShape(w: World, paths: seq<Path>)
    ensures Events(StagingCalls(w, paths)) == StagingEvents(paths)
    ensures forall c :: c in StagingCalls(w, paths) ==> c.event.Add? || c.event.LogAddingFile?
    ensures (forall c :: c in StagingCalls(w, paths) ==> c.thrown.None?) <==>
      w.updateAdd.Returns? && (paths != [] ==> w.add.Returns?)
  {
    AddingFileCallsAt(paths);
    var st := StagingCalls(w, paths);
    assert st[0] == Call(Add(true, ["."]), Raised(w.updateAdd));
    if paths != [] {
      assert st[|st| - 1] == Call(Add(false, paths), Raised(w.add));
    }
    forall c | c in st ensures c.event.Add? || c.event.LogAddingFile? {
      var i :| 0 <= i < |st| && st[i] == c;
      if 0 < i <= |paths| {
        assert st[i] == AddingFileCalls(paths)[i - 1];
      }
    }
    forall c | c in st && c != st[0] && (paths == [] || c != st[|st| - 1]) ensures c.thrown.None? {
      var i :| 0 <= i < |st| && st[i] == c;
      assert st[i] == AddingFileCalls(paths)[i - 1];
    }
  }

  /** The fatal calls as four segments: open, ref read and status, staging, commit and ref re-read. */
  lemma FatalCallsLayout(cfg: Config, w: World)
    ensures var calls, o, s := FatalCalls(cfg, w), |OpenCalls(cfg, w)|, |StagingCalls(w, Untracked(w))|;
      |calls| == o + s + 4 &&
      calls[..o] == OpenCalls(cfg, w) &&
      calls[o] == Call(ReadRef(MasterRef), Raised(w.refBefore)) &&
      calls[o + 1] == Call(ComputeStatus, Raised(w.status)) &&
      calls[o + 2..o + 2 + s] == StagingCalls(w, Untracked(w)) &&
      calls[o + 2 + s] == Call(Commit(true, cfg.versionDescription), Raised(w.commit)) &&
      calls[o + 3 + s] == Call(ReadRef(MasterRef), RefAfterRaised(w))
  {
  }

  /** The trace of a run, position by position: the fatal calls made so far, then the push step. */
  lemma TraceAt(cfg: Config, w: World, j: int)
    requires 0 <= j < |Deploy(cfg, w).trace|
    ensures j < |FatalCalls(cfg, w)| ==> Deploy(cfg, w).trace[j] == FatalCalls(cfg, w)[j].event
    ensures j < |FatalCalls(cfg, w)| && (j + 1 < |Deploy(cfg, w).trace| || Deploy(cfg, w).completion.Normal?) ==>
      FatalCalls(cfg, w)[j].thrown.None?
    ensures j >= |FatalCalls(cfg, w)| ==>
      Deploy(cfg, w).completion.Normal? &&
      |Deploy(cfg, w).trace| == |FatalCalls(cfg, w)| + |PushEvents(cfg, w)| &&
      Deploy(cfg, w).trace[j] == PushEvents(cfg, w)[j - |FatalCalls(cfg, w)|]
  {
    DeployAbortsAtFirstFatalFailure(cfg, w);
  }

  /** The events of the push step, as opposed to those of the fatal calls before it. */
  predicate IsPushStepEvent(e: Event)
  {
    e.DecryptServer? || e.Push? || e.LogWarning? || e.LogPushResult?
  }

  /** Which events the fatal calls make, and where: the commit comes once, after staging. */
  lemma FatalCallEvents(cfg: Config, w: World)
    ensures forall i :: 0 <= i < |FatalCalls(cfg, w)| ==> !IsPushStepEvent(FatalCalls(cfg, w)[i].event)
    ensures forall i :: 0 <= i < |FatalCalls(cfg, w)| && FatalCalls(cfg, w)[i].event.Commit? ==>
      i == |OpenCalls(cfg, w)| + 2 + |StagingCalls(w, Untracked(w))|
    ensures forall i :: 0 <= i < |FatalCalls(cfg, w)| && i >= |OpenCalls(cfg, w)| ==>
      var e := FatalCalls(cfg, w)[i].event;
      !e.MakeParentDirectories? && !e.BuildRepository? && !e.CreateRepository?
  {
    forall i | 0 <= i < |FatalCalls(cfg, w)| {
      FatalCallAt(cfg, w, i);
    }
  }

  /** The event of one fatal call: its kind by position. */
  lemma FatalCallAt(cfg: Config, w: World, i: int)
    requires 0 <= i < |FatalCalls(cfg, w)|
    ensures !IsPushStepEvent(FatalCalls(cfg, w)[i].event)
    ensures FatalCalls(cfg, w)[i].event.Commit? ==> i == |OpenCalls(cfg, w)| + 2 + |StagingCalls(w, Untracked(w))|
    ensures i >= |OpenCalls(cfg, w)| ==>
      var e := FatalCalls(cfg, w)[i].event;
      !e.MakeParentDirectories? && !e.BuildRepository? && !e.CreateRepository?
  {
    var open, st := OpenCalls(cfg, w), StagingCalls(w, Untracked(w));
    var pre := [Call(ReadRef(MasterRef), Raised(w.refBefore)), Call(ComputeStatus, Raised(w.status))];
    var calls := FatalCalls(cfg, w);
    assert calls == open + pre + st + CommitCalls(cfg, w);
    if |open| + 2 <= i < |open| + 2 + |st| {
      StagingCallsShape(w, Untracked(w));
      assert calls[i] == st[i - |open| - 2];
      assert calls[i] in st;
    }
  }

  /** The events of the fatal calls, whatever they throw: open, ref read, status, staging, commit, ref re-read. */
  lemma FatalEventsInOrder(cfg: Config, w: World)
    ensures Events(FatalCalls(cfg, w)) ==
      OpenEvents(cfg, w) + [ReadRef(MasterRef), ComputeStatus] + StagingEvents(Untracked(w))
      + [Commit(true, cfg.versionDescription), ReadRef(MasterRef)]
  {
    var pre := [Call(ReadRef(MasterRef), Raised(w.refBefore)), Call(ComputeStatus, Raised(w.status))];
    var open, st, commit := OpenCalls(cfg, w), StagingCalls(w, Untracked(w)), CommitCalls(cfg, w);
    assert FatalCalls(cfg, w) == open + pre + st + commit;
    calc {
      Events(FatalCalls(cfg, w));
    == { EventsConcat(open + pre + st, commit); }
      Events(open + pre + st) + Events(commit);
    == { EventsConcat(open + pre, st); }
      Events(open + pre) + Events(st) + Events(commit);
    == { EventsConcat(open, pre); }
      Events(open) + Events(pre) + Events(st) + Events(commit);
    == { assert Events(open) == OpenEvents(cfg, w);
         assert Events(pre) == [ReadRef(MasterRef), ComputeStatus];
         StagingCallsShape(w, Untracked(w));
         assert Events(commit) == [Commit(true, cfg.versionDescription), ReadRef(MasterRef)]; }
      OpenEvents(cfg, w) + [ReadRef(MasterRef), ComputeStatus] + StagingEvents(Untracked(w))
      + [Commit(true, cfg.versionDescription), ReadRef(MasterRef)];
    }
  }

  /** No event of a fatal call belongs to the push step. */
  lemma FatalEventsNotPushStep(cfg: Config, w: World)
    ensures forall e :: e in Events(FatalCalls(cfg, w)) ==> !IsPushStepEvent(e)
  {
    var calls := FatalCalls(cfg, w);
    forall e | e in Events(calls) ensures !IsPushStepEvent(e) {
      var i :| 0 <= i < |calls| && Events(calls)[i] == e;
      FatalCallAt(cfg, w, i);
    }
  }

  /** Each push result is logged once, in order. */
  lemma {:induction false} PushResultLogsAt(messages: seq<string>)
    ensures |PushResultLogs(messages)| == |messages|
    ensures forall m :: 0 <= m < |messages| ==> PushResultLogs(messages)[m] == LogPushResult(messages[m])
    decreases |messages|
  {
    if messages != [] {
      PushResultLogsAt(messages[1..]);
    }
  }

  /** Every event of the push step is one of its own kinds; a push is forced, to the master refspec, at the endpoint. */
  lemma PushEventsShape(cfg: Config, w: World)
    ensures PushEvents(cfg, w)[0] == DecryptServer(Lookup(cfg.settings, cfg.serverId))
    ensures forall k :: 0 <= k < |PushEvents(cfg, w)| ==> IsPushStepEvent(PushEvents(cfg, w)[k])
    ensures forall e :: e in PushEvents(cfg, w) && e.Push? ==>
      e.request.refSpec == PushRefSpec && e.request.force &&
      e.request.remote == RemoteEndpoint.Endpoint(cfg.applicationName)
  {
    match w.push {
      case Returns(messages) =>
        PushResultLogsAt(messages);
      case Throws(_) =>
    }
  }

  /** The pipeline's fatal calls all return. */
  predicate NoFatalFailure(w: World)
  {
    (w.stagingExists || (w.mkdirs.Returns? && w.create.Returns?)) && w.build.Returns? &&
    w.refBefore.Returns? && w.status.Returns? && w.updateAdd.Returns? &&
    (w.status.value != [] ==> w.add.Returns?) &&
    w.commit.Returns? && w.refAfter.Returns? && w.refAfter.value.Some?
  }

  /** `executeInternal` returns normally only if no call before the push throws. */
  lemma NormalOnlyWithoutFatalFailure(cfg: Config, w: World)
    ensures Deploy(cfg, w).completion.Normal? ==> NoFatalFailure(w)
  {
    DeployAbortsAtFirstFatalFailure(cfg, w);
    FatalCallsLayout(cfg, w);
    var calls, o, u := FatalCalls(cfg, w), |OpenCalls(cfg, w)|, Untracked(w);
    var st := StagingCalls(w, u);
    if Deploy(cfg, w).completion.Normal? {
      assert calls[0] == calls[..o][0];
      if !w.stagingExists {
        assert calls[1] == calls[..o][1];
        assert calls[2] == calls[..o][2];
      }
      assert calls[o + 1].thrown.None?;
      StagingCallsShape(w, u);
      forall c | c in st ensures c.thrown.None? {
        var i :| 0 <= i < |st| && st[i] == c;
        assert c == calls[o + 2 + i];
      }
    }
  }

  /**
   * When no call before the push throws, `executeInternal` returns normally having made every call in the
   * fixed order: open, ref read, status, staging, commit, ref re-read, then the push step.
   */
  lemma SuccessfulRunOrder(cfg: Config, w: World)
    requires NoFatalFailure(w)
    ensures Deploy(cfg, w).completion == Normal
    ensures Deploy(cfg, w).trace ==
      OpenEvents(cfg, w) + [ReadRef(MasterRef), ComputeStatus] + StagingEvents(w.status.value)
      + [Commit(true, cfg.versionDescription), ReadRef(MasterRef)] + PushEvents(cfg, w)
  {
    DeployAbortsAtFirstFatalFailure(cfg, w);
    FatalEventsInOrder(cfg, w);
    forall i | 0 <= i < |FatalCalls(cfg, w)| {
      FatalCallReturns(cfg, w, i);
    }
  }

  /** With no fatal failure, each fatal call returns. */
  lemma FatalCallReturns(cfg: Config, w: World, i: int)
    requires NoFatalFailure(w) && 0 <= i < |FatalCalls(cfg, w)|
    ensures FatalCalls(cfg, w)[i].thrown.None?
  {
    var open, st := OpenCalls(cfg, w), StagingCalls(w, Untracked(w));
    var pre := [Call(ReadRef(MasterRef), Raised(w.refBefore)), Call(ComputeStatus, Raised(w.status))];
    var calls := FatalCalls(cfg, w);
    assert calls == open + pre + st + CommitCalls(cfg, w);
    if |open| + 2 <= i < |open| + 2 + |st| {
      StagingCallsShape(w, Untracked(w));
      assert calls[i] == st[i - |open| - 2];
      assert calls[i] in st;
    }
  }

  /** `executeInternal` returns normally exactly when no call before the push throws. */
  lemma CompletesIffNoFatalFailure(cfg: Config, w: World)
    ensures Deploy(cfg, w).completion.Normal? <==> NoFatalFailure(w)
  {
    NormalOnlyWithoutFatalFailure(cfg, w);
    if NoFatalFailure(w) {
      SuccessfulRunOrder(cfg, w);
    }
  }

  /** How a run ends does not depend on the credentials, the decrypter, the endpoint or the push. */
  lemma PushStepNeverChangesCompletion(cfg: Config, w: World, settings: Option<Settings>, serverId: string,
                                       applicationName: string, decrypt: Option<Server> -> Try<Option<Server>>,
                                       push: Try<seq<string>>)
    ensures Deploy(cfg.(settings := settings, serverId := serverId, applicationName := applicationName),
                   w.(decrypt := decrypt, push := push)).completion == Deploy(cfg, w).completion
  {
  }

  /** Once the commit is done, the push step runs and the run returns normally, whatever the push step meets. */
  lemma PushStepAlwaysRuns(cfg: Config, w: World)
    requires NoFatalFailure(w)
    ensures Deploy(cfg, w).completion == Normal
    ensures |FatalCalls(cfg, w)| < |Deploy(cfg, w).trace|
    ensures Deploy(cfg, w).trace[|FatalCalls(cfg, w)|] == DecryptServer(Lookup(cfg.settings, cfg.serverId))
  {
    CompletesIffNoFatalFailure(cfg, w);
    DeployAbortsAtFirstFatalFailure(cfg, w);
    PushEventsShape(cfg, w);
  }

  /** A push happens only after a commit of all changes with the configured message, itself after the update-add;
      it is forced, uses the master refspec and targets the derived endpoint. */
  lemma PushFollowsCommit(cfg: Config, w: World, p: int)
    requires 0 <= p < |Deploy(cfg, w).trace| && Deploy(cfg, w).trace[p].Push?
    ensures Deploy(cfg, w).completion == Normal && NoFatalFailure(w)
    ensures Deploy(cfg, w).trace[p].request.refSpec == PushRefSpec && Deploy(cfg, w).trace[p].request.force
    ensures Deploy(cfg, w).trace[p].request.remote == RemoteEndpoint.Endpoint(cfg.applicationName)
    ensures exists a, c :: (0 <= a < c < p &&
      Deploy(cfg, w).trace[a] == Add(true, ["."]) && Deploy(cfg, w).trace[c] == Commit(true, cfg.versionDescription))
  {
    var trace, calls := Deploy(cfg, w).trace, FatalCalls(cfg, w);
    TraceAt(cfg, w, p);
    FatalCallEvents(cfg, w);
    FatalCallsLayout(cfg, w);
    CompletesIffNoFatalFailure(cfg, w);
    PushEventsShape(cfg, w);
    var o, s := |OpenCalls(cfg, w)|, |StagingCalls(w, Untracked(w))|;
    TraceAt(cfg, w, o + 2);
    TraceAt(cfg, w, o + 2 + s);
  }

  /** A commit is preceded, in this order, by the status, the update-add of ".", one "Adding file" line per
      untracked path, and the add of exactly those paths when there are any. */
  lemma StagingPrecedesCommit(cfg: Config, w: World, c: int)
    requires 0 <= c < |Deploy(cfg, w).trace| && Deploy(cfg, w).trace[c].Commit?
    ensures Deploy(cfg, w).trace[c] == Commit(true, cfg.versionDescription)
    ensures w.status.Returns?
    ensures var a := c - |StagingEvents(w.status.value)|;
      1 <= a && Deploy(cfg, w).trace[a - 1] == ComputeStatus &&
      Deploy(cfg, w).trace[a..c] == StagingEvents(w.status.value)
  {
    var trace, calls := Deploy(cfg, w).trace, FatalCalls(cfg, w);
    var o, st := |OpenCalls(cfg, w)|, StagingCalls(w, Untracked(w));
    FatalCallsLayout(cfg, w);
    assert c == o + 2 + |st| by {
      TraceAt(cfg, w, c);
      FatalCallEvents(cfg, w);
      PushEventsShape(cfg, w);
    }
    TraceAt(cfg, w, o + 1);
    TraceAt(cfg, w, c);
    StagingCallsShape(w, Untracked(w));
    TraceSlice(cfg, w, o + 2, c);
  }

  /** A stretch of the trace within the fatal calls is the events of those calls. */
  lemma TraceSlice(cfg: Config, w: World, a: int, b: int)
    requires 0 <= a <= b <= |FatalCalls(cfg, w)| && b <= |Deploy(cfg, w).trace|
    ensures Deploy(cfg, w).trace[a..b] == Events(FatalCalls(cfg, w)[a..b])
  {
    DeployAbortsAtFirstFatalFailure(cfg, w);
    var trace, calls := Deploy(cfg, w).trace, FatalCalls(cfg, w);
    forall j | a <= j < b ensures trace[j] == calls[j].event {
      TraceAt(cfg, w, j);
    }
  }

  /** The repository is created (after its parent directories) only when the staging directory is missing, and
      opened otherwise; either way its git dir is the staging directory and its work tree the source directory. */
  lemma OpenOrCreate(cfg: Config, w: World)
    ensures 0 < |Deploy(cfg, w).trace|
    ensures Deploy(cfg, w).trace[0] ==
      if w.stagingExists then BuildRepository(cfg.stagingDirectory, cfg.sourceDirectory)
      else MakeParentDirectories(cfg.stagingDirectory)
    ensures forall j :: 0 <= j < |Deploy(cfg, w).trace| && Deploy(cfg, w).trace[j] == CreateRepository ==>
      !w.stagingExists && j == 2 &&
      Deploy(cfg, w).trace[..2] == [MakeParentDirectories(cfg.stagingDirectory), BuildRepository(cfg.stagingDirectory, cfg.sourceDirectory)]
    ensures forall j :: 0 <= j < |Deploy(cfg, w).trace| && Deploy(cfg, w).trace[j].BuildRepository? ==>
      Deploy(cfg, w).trace[j] == BuildRepository(cfg.stagingDirectory, cfg.sourceDirectory)
    ensures w.stagingExists ==>
      forall e :: e in Deploy(cfg, w).trace ==> !e.MakeParentDirectories? && !e.CreateRepository?
  {
    var trace := Deploy(cfg, w).trace;
    OpenPhaseAt(cfg, w, 0);
    forall j | 0 <= j < |trace| && (trace[j] == CreateRepository || trace[j].BuildRepository?)
      ensures j < |OpenCalls(cfg, w)| && trace[j] == OpenCalls(cfg, w)[j].event
      ensures trace[..j] == Events(OpenCalls(cfg, w)[..j])
    {
      OpenPhaseAt(cfg, w, j);
    }
    forall e | e in trace && w.stagingExists ensures !e.MakeParentDirectories? && !e.CreateRepository? {
      var j :| 0 <= j < |trace| && trace[j] == e;
      if e.MakeParentDirectories? || e.CreateRepository? {
        OpenPhaseAt(cfg, w, j);
      }
    }
  }

  /** An event of the opening kinds, or the first event, is made by the opening calls, as is everything before it. */
  lemma OpenPhaseAt(cfg: Config, w: World, j: int)
    requires 0 <= j < |Deploy(cfg, w).trace|
    requires var e := Deploy(cfg, w).trace[j];
      e.MakeParentDirectories? || e.BuildRepository? || e.CreateRepository? || j == 0
    ensures j < |OpenCalls(cfg, w)| && Deploy(cfg, w).trace[j] == OpenCalls(cfg, w)[j].event
    ensures Deploy(cfg, w).trace[..j] == Events(OpenCalls(cfg, w)[..j])
  {
    var trace, calls := Deploy(cfg, w).trace, FatalCalls(cfg, w);
    DeployAbortsAtFirstFatalFailure(cfg, w);
    FatalCallEvents(cfg, w);
    FatalCallsLayout(cfg, w);
    PushEventsShape(cfg, w);
    var o := |OpenCalls(cfg, w)|;
    assert 0 < |trace|;
    TraceAt(cfg, w, j);
    assert calls[j] == calls[..o][j];
    forall k | 0 <= k < j ensures trace[k] == OpenCalls(cfg, w)[k].event {
      TraceAt(cfg, w, k);
      assert calls[k] == calls[..o][k];
    }
  }

  /** A failed credential lookup, a null server or a null password ends as a warning, without a push. */
  lemma CredentialFailureIsOnlyAWarning(cfg: Config, w: World)
    requires NoFatalFailure(w)
    requires var d := w.decrypt(Lookup(cfg.settings, cfg.serverId));
      d.Throws? || d.value.None? || d.value.value.password.None?
    ensures Deploy(cfg, w).completion == Normal
    ensures var d, trace := w.decrypt(Lookup(cfg.settings, cfg.serverId)), Deploy(cfg, w).trace;
      trace[|trace| - 1] == LogWarning(if d.Throws? then d.error else NullPointer)
    ensures forall e :: e in Deploy(cfg, w).trace ==> !e.Push?
    ensures var d := w.decrypt(Lookup(cfg.settings, cfg.serverId));
      Deploy(cfg, w).trace == Events(FatalCalls(cfg, w)) +
        [DecryptServer(Lookup(cfg.settings, cfg.serverId)), LogWarning(if d.Throws? then d.error else NullPointer)]
  {
    CompletesIffNoFatalFailure(cfg, w);
    DeployAbortsAtFirstFatalFailure(cfg, w);
    FatalEventsNotPushStep(cfg, w);
  }

  /** An exception thrown by the push itself is logged as a warning and the run returns normally. */
  lemma PushFailureIsOnlyAWarning(cfg: Config, w: World)
    requires NoFatalFailure(w) && w.push.Throws?
    requires var d := w.decrypt(Lookup(cfg.settings, cfg.serverId));
      d.Returns? && d.value.Some? && d.value.value.password.Some?
    ensures Deploy(cfg, w).completion == Normal
    ensures var s, trace := w.decrypt(Lookup(cfg.settings, cfg.serverId)).value.value, Deploy(cfg, w).trace;
      2 <= |trace| &&
      trace[|trace| - 2..] == [Push(PushRequest(PushRefSpec, true, RemoteEndpoint.Endpoint(cfg.applicationName),
                                                 s.username, s.password.value)),
                               LogWarning(w.push.error)]
    ensures var s := w.decrypt(Lookup(cfg.settings, cfg.serverId)).value.value;
      Deploy(cfg, w).trace == Events(FatalCalls(cfg, w)) +
        [DecryptServer(Lookup(cfg.settings, cfg.serverId)),
         Push(PushRequest(PushRefSpec, true, RemoteEndpoint.Endpoint(cfg.applicationName), s.username, s.password.value)),
         LogWarning(w.push.error)]
  {
    CompletesIffNoFatalFailure(cfg, w);
    DeployAbortsAtFirstFatalFailure(cfg, w);
  }

  /** Push results are logged only when a push was made and returned; a thrown or missing push logs none. */
  lemma ResultLogOnlyAfterReturnedPush(cfg: Config, w: World)
    ensures (exists e :: e in Deploy(cfg, w).trace && e.LogPushResult?) ==>
      w.push.Returns? && exists e :: e in Deploy(cfg, w).trace && e.Push?
  {
    var calls, trace := FatalCalls(cfg, w), Deploy(cfg, w).trace;
    if e :| e in trace && e.LogPushResult? {
      var j :| 0 <= j < |trace| && trace[j] == e;
      TraceAt(cfg, w, j);
      if j < |calls| {
        FatalCallAt(cfg, w, j);
      } else {
        PushResultLogAt(cfg, w, j - |calls|);
        TraceAt(cfg, w, |calls| + 1);
      }
    }
  }

  /** Within the push step, a result log comes only after a push that returned. */
  lemma PushResultLogAt(cfg: Config, w: World, k: int)
    requires 0 <= k < |PushEvents(cfg, w)| && PushEvents(cfg, w)[k].LogPushResult?
    ensures w.push.Returns? && 1 < |PushEvents(cfg, w)| && PushEvents(cfg, w)[1].Push?
  {
  }

  /** When the push returns, each of its results is logged at debug level, in order, and nothing is warned. */
  lemma PushResultsLoggedAtDebug(cfg: Config, w: World)
    requires NoFatalFailure(w) && w.push.Returns?
    requires var d := w.decrypt(Lookup(cfg.settings, cfg.serverId));
      d.Returns? && d.value.Some? && d.value.value.password.Some?
    ensures Deploy(cfg, w).completion == Normal
    ensures var messages, trace := w.push.value, Deploy(cfg, w).trace;
      var s := w.decrypt(Lookup(cfg.settings, cfg.serverId)).value.value;
      |messages| < |trace| &&
      trace[|trace| - |messages| - 1] ==
        Push(PushRequest(PushRefSpec, true, RemoteEndpoint.Endpoint(cfg.applicationName), s.username, s.password.value)) &&
      trace[|trace| - |messages|..] == PushResultLogs(messages)
    ensures forall e :: e in Deploy(cfg, w).trace ==> !e.LogWarning?
  {
    var calls, messages := FatalCalls(cfg, w), w.push.value;
    DeployAbortsAtFirstFatalFailure(cfg, w);
    CompletesIffNoFatalFailure(cfg, w);
    PushResultLogsAt(messages);
    var s := w.decrypt(Lookup(cfg.settings, cfg.serverId)).value.value;
    var request := PushRequest(PushRefSpec, true, RemoteEndpoint.Endpoint(cfg.applicationName), s.username, s.password.value);
    assert PushEvents(cfg, w) == [DecryptServer(Lookup(cfg.settings, cfg.serverId)), Push(request)] + PushResultLogs(messages);
    FatalEventsNotPushStep(cfg, w);
  }

  /** `execute` fails exactly when a call before the push throws, and the failure carries that call's exception. */
  lemma ExecuteFailsOnlyOnFatalFailure(cfg: Config, w: World)
    ensures Deploy(cfg, w).completion.Normal? <==> NoFatalFailure(w)
    ensures Deploy(cfg, w).completion.Abrupt? ==>
      exists i :: FirstThrow(FatalCalls(cfg, w), i) && Deploy(cfg, w).completion.cause == FatalCalls(cfg, w)[i].thrown.value
  {
    CompletesIffNoFatalFailure(cfg, w);
    DeployAbortsAtFirstFatalFailure(cfg, w);
  }
}
