/** The mobile-build orchestrator of the deployment view
    (components/Distribution.tsx): the deployment run with its re-entrancy
    guard, the append-only log list and the progress bar driven by the
    build-log stream. */
module Deployment {
  import opened Types
  import opened Strings
  import opened Progress
  import LinkZService
  import MockServer

  const HANDSHAKE := "Initializing secure handshake with api.linkz.io..."
  const TRIGGER_COMMAND := "POST /v1/builds - target: android, profile: preview"
  const LOCAL_RUNNER := "Remote Host Unreachable. Initializing Local Runner..."
  const INTERRUPTED := "Connection interrupted."

  function BuildInitialized(buildId: string): string {
    "Build initialized. ID: " + buildId
  }

  function ConnectingTo(buildId: string): string {
    "Connecting to log stream [" + buildId + "]..."
  }

  function CriticalError(errorText: string): string {
    "Critical Error: " + errorText
  }

  /** The entry that reports the build id: a warning for an offline id
      (`local-...`), a success naming the id otherwise. */
  function BuildReport(buildId: string, stamp: Stamp): (e: LogEntry)
    ensures StartsWith(buildId, LinkZService.LOCAL_PREFIX) ==> e.message == LOCAL_RUNNER && e.kind == WARNING
    ensures !StartsWith(buildId, LinkZService.LOCAL_PREFIX) ==> e.message == BuildInitialized(buildId) && e.kind == SUCCESS
    ensures e.id == stamp.now && e.timestamp == stamp.time
  {
    if StartsWith(buildId, LinkZService.LOCAL_PREFIX) then Entry(LOCAL_RUNNER, WARNING, stamp)
    else Entry(BuildInitialized(buildId), SUCCESS, stamp)
  }

  /** The orchestrator's state: `isDeploying`, `logs` and `progress`.
      `awaitingBuild` marks a run suspended at `await triggerBuild(...)`;
      the source keeps it implicitly in the pending promise. */
  class DeploymentView {
    var isDeploying: bool
    var logs: seq<LogEntry>
    var progress: int
    var awaitingBuild: bool

    ghost predicate Valid()
      reads this
    {
      && IsProgressValue(progress)
      && (awaitingBuild ==> isDeploying)
    }

    /** The view as first rendered: idle, no logs, the bar at 0. */
    constructor ()
      ensures Valid()
      ensures !isDeploying && logs == [] && progress == 0 && !awaitingBuild
    {
      isDeploying := false;
      logs := [];
      progress := 0;
      awaitingBuild := false;
    }

    /** `addLog(message, type)`: one entry appended, stamped with the clock. */
    method AddLog(message: string, kind: LogKind, stamp: Stamp)
      modifies this`logs
      ensures logs == old(logs) + [Entry(message, kind, stamp)]
    {
      logs := logs + [Entry(message, kind, stamp)];
    }

    /** The synchronous part of `runDeployment`, up to `await triggerBuild`.
        A click while a run is in progress does nothing; otherwise the view
        is marked busy, the log is cleared and restarted with the handshake
        and the build request, and the bar is set to 5. */
    method RunDeployment(stamp: Stamp) returns (started: bool)
      requires Valid()
      modifies this
      ensures Valid()
      ensures started <==> !old(isDeploying)
      ensures !started ==> logs == old(logs) && progress == old(progress) && isDeploying && awaitingBuild == old(awaitingBuild)
      ensures started ==> isDeploying && awaitingBuild && progress == 5
      ensures started ==> logs == [Entry(HANDSHAKE, INFO, stamp), Entry(TRIGGER_COMMAND, COMMAND, stamp)]
    {
      if isDeploying {
        return false;
      }
      isDeploying := true;
      logs := [];
      progress := 5;
      AddLog(HANDSHAKE, INFO, stamp);
      AddLog(TRIGGER_COMMAND, COMMAND, stamp);
      awaitingBuild := true;
      started := true;
    }

    /** The rest of `runDeployment`, once `triggerBuild` has answered with
        `reply`. An id that is not a string makes `buildId.startsWith` throw
        (`errorText` is the message of that exception): the catch logs a
        critical error and frees the view. Otherwise the id is reported,
        the bar goes to 15 and the connection to the log stream is logged;
        the view stays busy. */
    method OnBuildTriggered(reply: BuildReply, stamp: Stamp, errorText: string)
      requires Valid() && awaitingBuild
      modifies this
      ensures Valid() && !awaitingBuild
      ensures reply.buildId.None? ==>
                && logs == old(logs) + [Entry(CriticalError(errorText), ERROR, stamp)]
                && !isDeploying && progress == old(progress)
      ensures reply.buildId.Some? ==>
                && logs == old(logs) + [BuildReport(reply.buildId.value, stamp),
                                        Entry(ConnectingTo(reply.buildId.value), INFO, stamp)]
                && isDeploying && progress == 15
    {
      awaitingBuild := false;
      match reply.buildId
      case None =>
        AddLog(CriticalError(errorText), ERROR, stamp);
        isDeploying := false;
      case Some(buildId) =>
        logs := logs + [BuildReport(buildId, stamp)];
        progress := 15;
        AddLog(ConnectingTo(buildId), INFO, stamp);
    }

    /** The `onMessage` callback handed to the stream: the five keyword tests
        set the bar (the last keyword present wins), then the entry is
        appended as it came. */
    method OnStreamLog(log: LogEntry)
      requires Valid()
      modifies this`progress, this`logs
      ensures Valid()
      ensures progress == NextProgress(old(progress), log.message)
      ensures progress == match Effect(log.message) case None => old(progress) case Some(v) => v
      ensures logs == old(logs) + [log]
    {
      NextProgressIsValue(progress, log.message);
      ProgressRule(progress, log.message);
      progress := NextProgress(progress, log.message);
      logs := logs + [log];
    }

    /** The `onError` callback handed to the stream: a warning entry. The
        stream never calls it (`BuildStream` keeps `errorCalls` at 0). */
    method OnStreamError(stamp: Stamp)
      modifies this`logs
      ensures logs == old(logs) + [Entry(INTERRUPTED, WARNING, stamp)]
    {
      AddLog(INTERRUPTED, WARNING, stamp);
    }

    /** The stream handing `entries` to `onMessage` one after the other:
        all of them are appended in order, and the bar follows the replay
        of their messages from where it stood. */
    method ReceiveAll(entries: seq<LogEntry>) returns (trace: seq<int>)
      requires Valid()
      modifies this`progress, this`logs
      ensures Valid()
      ensures logs == old(logs) + entries
      ensures trace == Replay(old(progress), Messages(entries))
      ensures progress == if entries == [] then old(progress) else trace[|trace| - 1]
    {
      ghost var ms := Messages(entries);
      ghost var start := progress;
      var i := 0;
      trace := [];
      while i < |entries|
        invariant 0 <= i <= |entries| && Valid()
        invariant logs == old(logs) + entries[..i]
        invariant trace == Replay(start, ms)[..i]
        invariant progress == if i == 0 then start else Replay(start, ms)[i - 1]
      {
        ReplayStep(start, ms, i);
        OnStreamLog(entries[i]);
        trace := trace + [progress];
        assert entries[..i + 1] == entries[..i] + [entries[i]];
        i := i + 1;
      }
      assert entries[..i] == entries;
      assert Replay(start, ms)[..i] == Replay(start, ms);
    }
  }

  /** Entries that replay some lines carry those lines' messages. */
  lemma ReplaysMessages(entries: seq<LogEntry>, lines: seq<LogLine>)
    requires LinkZService.Replays(entries, lines)
    ensures MessagesOf(Messages(entries), lines)
  {
  }

  /** A deployment with the API unreachable, from the first click to the
      end of the simulated log: the request fails, the offline id is
      reported as a local runner, the simulator plays `MOCK_BUILD_LOGS`
      through the callback, and the bar ends at 100 having never moved
      back. The view stays busy, so a second click does nothing. */
  method OfflineDeployment(stamp: Stamp) returns (view: DeploymentView, trace: seq<int>, again: bool)
    ensures view.progress == 100 && view.isDeploying && !again
    ensures NonDecreasing(trace) && |trace| == 14
    ensures |view.logs| == 18
    ensures trace == Replay(15, Messages(view.logs[4..]))
    ensures view.logs[..2] == [Entry(HANDSHAKE, INFO, stamp), Entry(TRIGGER_COMMAND, COMMAND, stamp)]
    ensures view.logs[2].message == LOCAL_RUNNER && view.logs[2].kind == WARNING
    ensures LinkZService.Replays(view.logs[4..], LinkZService.MOCK_BUILD_LOGS)
  {
    view := new DeploymentView();
    var started := view.RunDeployment(stamp);
    var reply := LinkZService.TriggerBuild(Failed(NetworkError), stamp.now);
    view.OnBuildTriggered(reply, stamp, "");
    var entries := LinkZService.SimulateWholeLog(reply.buildId.value, stamp);
    trace := view.ReceiveAll(entries);
    ReplaysMessages(entries, LinkZService.MOCK_BUILD_LOGS);
    SimulatedRunProgress(Messages(entries));
    assert view.logs[4..] == entries;
    again := view.RunDeployment(stamp);
  }

  /** A deployment against the mock server, from the first click to the end
      of the streamed log: the server's build id is reported as a success,
      the socket opens and carries every line of `BUILD_LOGS`, and the bar
      ends at 100 having never moved back. */
  method OnlineDeployment(stamp: Stamp, serverNow: nat) returns (view: DeploymentView, trace: seq<int>)
    ensures view.progress == 100 && view.isDeploying
    ensures NonDecreasing(trace) && |trace| == 29
    ensures |view.logs| == 33
    ensures trace == Replay(15, Messages(view.logs[4..]))
    ensures view.logs[2] == Entry(BuildInitialized(MockServer.ServerBuildId(serverNow)), SUCCESS, stamp)
    ensures LinkZService.Replays(view.logs[4..], MockServer.BUILD_LOGS)
  {
    view := new DeploymentView();
    var started := view.RunDeployment(stamp);
    var id := MockServer.ServerBuildId(serverNow);
    var reply := LinkZService.TriggerBuild(Reply(BuildReply(Some(id))), stamp.now);
    view.OnBuildTriggered(reply, stamp, "");
    var entries := LinkZService.StreamFromServer(id, stamp);
    trace := view.ReceiveAll(entries);
    ReplaysMessages(entries, MockServer.BUILD_LOGS);
    ServerRunProgress(Messages(entries));
    assert view.logs[4..] == entries;
  }
}
