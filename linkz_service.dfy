/** The client service layer (services/linkzService.ts): the offline
    fallbacks of every REST accessor, the decoding of build-log frames, and
    the build-log stream with its local simulator. */
module LinkZService {
  import opened Types
  import opened Strings
  import MockServer

  /** `MOCK_BUILD_LOGS`: what the local simulator plays when the socket fails.
      The longer messages are written in pieces (the text is the same) at
      points where no progress keyword can straddle a cut. */
  const MOCK_BUILD_LOGS: seq<LogLine> := [
    LogLine("╔" + "════════════════════════════════" + "═══════════════════════════════╗", COMMAND),
    LogLine("║   " + "LinkZ IAED Mobile - APK Builder " + "v2.0.1                      ║", COMMAND),
    LogLine("╚" + "════════════════════════════════" + "═══════════════════════════════╝", COMMAND),
    LogLine("# Checking Node.js...", INFO),
    LogLine("✓ Node.js 18+ detected", SUCCESS),
    LogLine("Connection to Localhost failed. " + "Running in Simulation Mode.", WARNING),
    LogLine("✅ Prerequisites checked", SUCCESS),
    LogLine("# Installing " + "dependencies" + "...", INFO),
    LogLine("$ npm install", COMMAND),
    LogLine("✅ D" + "ependencies" + " installed", SUCCESS),
    LogLine("# " + "Configuring" + " EAS Build...", INFO),
    LogLine("✅ Project configured (eas.json)", SUCCESS),
    LogLine("# " + "Building" + " APK...", INFO),
    LogLine("✅ APK Built " + "Success" + "fully!", SUCCESS)
  ]

  /** `MOCK_CATALOG`, the offline answer of `getReleases`. */
  const MOCK_CATALOG: seq<Release> := [
    map[Id := Text("1"), Title := Text("Midnight Horizon"), DisplayArtist := Text("Lunar Boy"),
        PrimaryGenre := Text("Electronic"), Status := Text("distributed"),
        CoverArtUrl := Text("https://images.unsplash.com/photo-1614613535308-eb5fbd3d2c17?q=80&w=600&auto=format&fit=crop"),
        Upc := Text("840293482391"), ReleaseType := Text("Single")],
    map[Id := Text("2"), Title := Text("Neon Dreams"), DisplayArtist := Text("Cyber Soul"),
        PrimaryGenre := Text("Synthwave"), Status := Text("ai-review"),
        CoverArtUrl := Text("https://images.unsplash.com/photo-1620641788421-7a1c342ea42e?q=80&w=600&auto=format&fit=crop"),
        Upc := Text("PENDING"), ReleaseType := Text("EP")]
  ]

  /** `MOCK_ANALYTICS`, the offline answer of `getAnalyticsData`. */
  const MOCK_ANALYTICS: seq<StreamPoint> := [
    StreamPoint("00:00", 0), StreamPoint("12:00", 0), StreamPoint("23:59", 0)
  ]

  /** The offline answer of `getDashboardStats`. */
  const OFFLINE_STATS: DashboardStats := DashboardStats(1248, 89432, 42, 98, [])

  /** The offline answer of `getNetworkStatus`. */
  const OFFLINE_HEALTH: seq<ServiceStatus> := [
    ServiceStatus("Expo Build Service", Pending, "EAS", "-"),
    ServiceStatus("Android Build", Offline, "Gradle", "-"),
    ServiceStatus("Metro Bundler", Offline, "8081", "-"),
    ServiceStatus("LinkZ API", Running, "Local Mode", "0ms")
  ]

  const WS_URL := "ws://localhost:3001"
  const LOCAL_PREFIX := "local-"

  // ---------------------------------------------------------------------
  // REST accessors: one attempt, and on any failure a fixed fallback.

  /** `triggerBuild`: the server's body when the call succeeds, otherwise the
      offline id `local-<Date.now()>`. */
  function TriggerBuild(outcome: Fetch<BuildReply>, now: nat): (r: BuildReply)
    ensures outcome.Reply? ==> r == outcome.body
    ensures outcome.Failed? ==> r.buildId.Some? && StartsWith(r.buildId.value, LOCAL_PREFIX)
  {
    match outcome
    case Reply(body) => body
    case Failed(_) =>
      var id := LOCAL_PREFIX + DecimalString(now);
      assert id[..|LOCAL_PREFIX|] == LOCAL_PREFIX;
      BuildReply(Some(id))
  }

  /** `getReleases` */
  function GetReleases(outcome: Fetch<seq<Release>>): (r: seq<Release>)
    ensures outcome.Reply? ==> r == outcome.body
    ensures outcome.Failed? ==> r == MOCK_CATALOG
  {
    match outcome
    case Reply(body) => body
    case Failed(_) => MOCK_CATALOG
  }

  /** `getAnalyticsData(timeRange)`: the range only shapes the query string. */
  function GetAnalyticsData(timeRange: string, outcome: Fetch<seq<StreamPoint>>): (r: seq<StreamPoint>)
    ensures outcome.Reply? ==> r == outcome.body
    ensures outcome.Failed? ==> r == MOCK_ANALYTICS
  {
    match outcome
    case Reply(body) => body
    case Failed(_) => MOCK_ANALYTICS
  }

  /** `getDashboardStats` */
  function GetDashboardStats(outcome: Fetch<DashboardStats>): (r: DashboardStats)
    ensures outcome.Reply? ==> r == outcome.body
    ensures outcome.Failed? ==> r == OFFLINE_STATS
  {
    match outcome
    case Reply(body) => body
    case Failed(_) => OFFLINE_STATS
  }

  /** `getNetworkStatus` */
  function GetNetworkStatus(outcome: Fetch<seq<ServiceStatus>>): (r: seq<ServiceStatus>)
    ensures outcome.Reply? ==> r == outcome.body
    ensures outcome.Failed? ==> r == OFFLINE_HEALTH
  {
    match outcome
    case Reply(body) => body
    case Failed(_) => OFFLINE_HEALTH
  }

  function Names(ss: seq<ServiceStatus>): (ns: seq<string>)
    ensures |ns| == |ss| && forall k :: 0 <= k < |ss| ==> ns[k] == ss[k].name
  {
    if ss == [] then [] else [ss[0].name] + Names(ss[1..])
  }

  function States(ss: seq<ServiceStatus>): (st: seq<ServiceState>)
    ensures |st| == |ss| && forall k :: 0 <= k < |ss| ==> st[k] == ss[k].status
  {
    if ss == [] then [] else [ss[0].status] + States(ss[1..])
  }

  /** Against the mock server a build id is local exactly when the call
      failed, so the deployment view can tell the two apart by prefix. */
  lemma LocalIdIffFailed(outcome: Fetch<BuildReply>, serverNow: nat, now: nat)
    requires outcome.Reply? ==> outcome.body == BuildReply(Some(MockServer.ServerBuildId(serverNow)))
    ensures TriggerBuild(outcome, now).buildId.Some?
    ensures StartsWith(TriggerBuild(outcome, now).buildId.value, LOCAL_PREFIX) <==> outcome.Failed?
  {
  }

  /** Offline, the catalog is the first two releases the server would send. */
  lemma OfflineCatalogIsServerPrefix()
    ensures |MOCK_CATALOG| == 2
    ensures MOCK_CATALOG == MockServer.CATALOG[..2]
  {
  }

  /** Against the mock server, `getReleases` always yields a non-empty prefix
      of the server's catalog. */
  lemma {:induction false} ReleasesAgainstMockServer(outcome: Fetch<seq<Release>>)
    requires outcome.Reply? ==> outcome.body == MockServer.CATALOG
    ensures 2 <= |GetReleases(outcome)| <= |MockServer.CATALOG|
    ensures GetReleases(outcome) == MockServer.CATALOG[..|GetReleases(outcome)|]
  {
    OfflineCatalogIsServerPrefix();
    assert MockServer.CATALOG[..|MockServer.CATALOG|] == MockServer.CATALOG;
  }

  /** Against the mock server, the dashboard counters do not depend on
      whether the call got through. */
  lemma StatsAgainstMockServer(outcome: Fetch<DashboardStats>)
    requires outcome.Reply? ==> outcome.body == MockServer.STATS
    ensures GetDashboardStats(outcome) == MockServer.STATS
  {
  }

  /** Offline, the network panel lists the same four services as the server,
      in the same order, with statuses pending, offline, offline, running. */
  lemma {:induction false} OfflineHealthShape()
    ensures Names(OFFLINE_HEALTH) == Names(MockServer.HEALTH)
    ensures States(OFFLINE_HEALTH) == [Pending, Offline, Offline, Running]
  {
  }

  // ---------------------------------------------------------------------
  // Build-log stream

  /** The path of a build's socket, `/ws/builds/${buildId}/logs`: what the
      server sees as the request URL of the connection. */
  function StreamPath(buildId: string): (path: string)
    ensures StartsWith(path, "/ws/builds/")
    ensures Contains(path, "/logs")
  {
    ContainsInfix("/ws/builds/" + buildId, "/logs", "");
    assert "/ws/builds/" + buildId + "/logs" + "" == "/ws/builds/" + buildId + "/logs";
    StartsWithConcat("/ws/builds/", buildId + "/logs");
    assert "/ws/builds/" + (buildId + "/logs") == "/ws/builds/" + buildId + "/logs";
    "/ws/builds/" + buildId + "/logs"
  }

  /** The socket address for a build: `${WS_URL}/ws/builds/${buildId}/logs`,
      the server's address followed by the build's path. */
  function StreamUrl(buildId: string): (url: string)
    ensures StartsWith(url, WS_URL) && url[|WS_URL|..] == StreamPath(buildId)
    ensures Contains(url, "/logs")
  {
    StartsWithConcat(WS_URL, StreamPath(buildId));
    ContainsConcat(WS_URL, StreamPath(buildId), "/logs");
    assert (WS_URL + StreamPath(buildId))[|WS_URL|..] == StreamPath(buildId);
    WS_URL + StreamPath(buildId)
  }

  /** `ws.onmessage`: the entry made from one frame. The message is the
      frame's `message` when that is a non-empty string, otherwise the raw
      frame text; the type is the frame's `type` when non-empty, otherwise
      'info'. A frame that does not parse (or parses to `null`, whose field
      access throws into the same handler) gives the raw text as 'info'. */
  function DecodeFrame(frame: Frame, stamp: Stamp): (e: LogEntry)
    ensures e.id == stamp.now && e.timestamp == stamp.time
    ensures frame.parsed.None? ==> e.message == frame.text && e.kind == INFO
    ensures frame.parsed.Some? && Truthy(frame.parsed.value.message) ==> e.message == frame.parsed.value.message.value
    ensures frame.parsed.Some? && !Truthy(frame.parsed.value.message) ==> e.message == frame.text
    ensures frame.parsed.Some? && Truthy(frame.parsed.value.kind) ==> e.kind == frame.parsed.value.kind.value
    ensures frame.parsed.Some? && !Truthy(frame.parsed.value.kind) ==> e.kind == INFO
    ensures e.kind != ""
    ensures frame.text != "" ==> e.message != ""
  {
    match frame.parsed
    case None => Entry(frame.text, INFO, stamp)
    case Some(fields) =>
      Entry(if Truthy(fields.message) then fields.message.value else frame.text,
            if Truthy(fields.kind) then fields.kind.value else INFO,
            stamp)
  }

  /** Decoding undoes the server's encoding: a line with a non-empty message
      and type arrives as exactly that message and type. */
  lemma DecodeServerFrame(line: LogLine, stamp: Stamp)
    requires line.message != "" && line.kind != ""
    ensures DecodeFrame(MockServer.EncodeLine(line), stamp) == Entry(line.message, line.kind, stamp)
  {
  }

  /** Every line the server streams has a non-empty message and type, so
      none of them falls back to the raw frame text or to 'info'. */
  lemma BuildLogsNonEmpty()
    ensures forall k :: 0 <= k < |MockServer.BUILD_LOGS| ==>
              MockServer.BUILD_LOGS[k].message != "" && MockServer.BUILD_LOGS[k].kind != ""
  {
  }

  /** `entries` carry the messages and types of `lines`, one for one, in order. */
  predicate Replays(entries: seq<LogEntry>, lines: seq<LogLine>) {
    |entries| == |lines|
    && forall k :: 0 <= k < |lines| ==> entries[k].message == lines[k].message && entries[k].kind == lines[k].kind
  }

  /** Where the build socket stands. `Aborted`: `close()` ran while the
      socket was still connecting, so the browser still reports the failed
      connection with an `error` event. `Ended`: no further event arrives. */
  datatype SocketPhase = NoSocket | Connecting | Open | Aborted | Ended

  /** The simulator's `mockInterval`: never set, running, or cleared. */
  datatype Timer = Unset | Live | Cleared

  /** The object `connectBuildStream` sets up and the handle it returns:
      the socket with its handlers, the fallback simulator, and `close()`.
      Every entry handed to `onMessage` is recorded in `delivered`. */
  class BuildStream {
    const url: string
    /** the list the simulator walks: `MOCK_BUILD_LOGS` */
    const mockLogs: seq<LogLine>
    var socket: SocketPhase
    var mockInterval: Timer
    /** the simulator's `logIndex` */
    var logIndex: nat
    /** the entries passed to `onMessage`, in order */
    var delivered: seq<LogEntry>
    /** how often `onError` was called */
    var errorCalls: nat
    /** `close()` has run. The source keeps no such flag; only the
        corrected error handler reads it. */
    var closed: bool
    /** `|delivered|` when the simulator started */
    ghost var simFrom: nat

    ghost predicate Valid()
      reads this
    {
      && logIndex <= |mockLogs|
      && errorCalls == 0
      && simFrom <= |delivered|
      && (mockInterval == Unset ==> logIndex == 0)
      && (mockInterval != Unset ==>
            && (socket == NoSocket || socket == Ended)
            && Replays(delivered[simFrom..], mockLogs[..logIndex]))
    }

    /** After `close()` nothing can deliver any more: the socket is gone or
        only owes its failure report, and the simulator is not running. */
    ghost predicate Quiet()
      reads this
    {
      closed ==> socket != Connecting && socket != Open && mockInterval != Live
    }

    /** `connectBuildStream(buildId, ...)`. `socketCreated` is false when
        `new WebSocket(...)` throws, in which case the simulator starts at once. */
    constructor Connect(buildId: string, socketCreated: bool)
      ensures Valid() && Quiet()
      ensures url == StreamUrl(buildId) && mockLogs == MOCK_BUILD_LOGS
      ensures delivered == [] && !closed
      ensures socketCreated ==> socket == Connecting && mockInterval == Unset
      ensures !socketCreated ==> socket == NoSocket && mockInterval == Live && logIndex == 0
    {
      url := StreamUrl(buildId);
      mockLogs := MOCK_BUILD_LOGS;
      delivered := [];
      errorCalls := 0;
      closed := false;
      logIndex := 0;
      simFrom := 0;
      if socketCreated {
        socket := Connecting;
        mockInterval := Unset;
      } else {
        socket := NoSocket;
        mockInterval := Live;
      }
    }

    /** `startSimulation()`: a fresh counter and a running interval. */
    method StartSimulation()
      requires Valid() && (socket == NoSocket || socket == Ended)
      modifies this`mockInterval, this`logIndex, this`simFrom
      ensures Valid()
      ensures mockInterval == Live && logIndex == 0
    {
      logIndex := 0;
      simFrom := |delivered|;
      mockInterval := Live;
    }

    /** `ws.onopen` (it only logs). */
    method OnOpen()
      requires Valid() && Quiet()
      modifies this`socket
      ensures Valid() && Quiet()
      ensures socket == if old(socket) == Connecting then Open else old(socket)
    {
      if socket == Connecting {
        socket := Open;
      }
    }

    /** `ws.onmessage`: one decoded entry per frame while the socket is open. */
    method OnSocketMessage(frame: Frame, stamp: Stamp)
      requires Valid() && Quiet()
      modifies this`delivered
      ensures Valid() && Quiet()
      ensures delivered == old(delivered) + (if socket == Open then [DecodeFrame(frame, stamp)] else [])
      ensures closed ==> delivered == old(delivered)
    {
      if socket == Open {
        delivered := delivered + [DecodeFrame(frame, stamp)];
      }
    }

    /** `ws.onerror` as written: whenever the browser reports the socket
        failed, the simulator starts, even after `close()`. */
    method OnSocketError()
      requires Valid()
      modifies this`socket, this`mockInterval, this`logIndex, this`simFrom
      ensures Valid()
      ensures delivered == old(delivered)
      ensures old(socket) in {Connecting, Open, Aborted} ==> socket == Ended && mockInterval == Live && logIndex == 0
      ensures old(socket) !in {Connecting, Open, Aborted} ==>
                socket == old(socket) && mockInterval == old(mockInterval) && logIndex == old(logIndex)
    {
      if socket == Connecting || socket == Open || socket == Aborted {
        socket := Ended;
        StartSimulation();
      }
    }

    /** `ws.onerror` corrected: the simulator starts only if `close()` has
        not run, so a stream that was closed stays quiet. */
    method OnSocketErrorGuarded()
      requires Valid() && Quiet()
      modifies this`socket, this`mockInterval, this`logIndex, this`simFrom
      ensures Valid() && Quiet()
      ensures delivered == old(delivered)
      ensures old(socket) in {Connecting, Open, Aborted} ==> socket == Ended
      ensures old(socket) in {Connecting, Open, Aborted} && !closed ==> mockInterval == Live && logIndex == 0
      ensures closed ==> mockInterval == old(mockInterval)
    {
      if socket == Connecting || socket == Open || socket == Aborted {
        socket := Ended;
        if !closed {
          StartSimulation();
        }
      }
    }

    /** One firing of the simulator's 800 ms interval: past the end it clears
        itself and emits nothing; otherwise it emits the next canned line
        with its message and type unchanged and advances. */
    method Tick(stamp: Stamp)
      requires Valid()
      modifies this`delivered, this`logIndex, this`mockInterval
      ensures Valid()
      ensures old(mockInterval) == Live && old(logIndex) < |mockLogs| ==>
                && delivered == old(delivered) + [Entry(mockLogs[old(logIndex)].message, mockLogs[old(logIndex)].kind, stamp)]
                && logIndex == old(logIndex) + 1 && mockInterval == Live
      ensures old(mockInterval) == Live && old(logIndex) >= |mockLogs| ==>
                delivered == old(delivered) && mockInterval == Cleared && logIndex == old(logIndex)
      ensures old(mockInterval) != Live ==>
                delivered == old(delivered) && mockInterval == old(mockInterval) && logIndex == old(logIndex)
      ensures old(Quiet()) ==> Quiet()
    {
      if mockInterval == Live {
        if logIndex >= |mockLogs| {
          mockInterval := Cleared;
          return;
        }
        var line := mockLogs[logIndex];
        delivered := delivered + [Entry(line.message, line.kind, stamp)];
        logIndex := logIndex + 1;
        assert delivered[simFrom..] == old(delivered)[simFrom..] + [Entry(line.message, line.kind, stamp)];
        assert mockLogs[..logIndex] == mockLogs[..logIndex - 1] + [line];
      }
    }

    /** `close()`: closes the socket if there is one and clears the
        simulator's interval if it was ever set. */
    method Close()
      requires Valid()
      modifies this`socket, this`mockInterval, this`closed
      ensures Valid() && Quiet() && closed
      ensures delivered == old(delivered)
      ensures socket == match old(socket)
                        case Connecting => Aborted
                        case Open => Ended
                        case other => other
      ensures mockInterval == if old(mockInterval) == Unset then Unset else Cleared
    {
      if socket == Connecting {
        socket := Aborted;
      } else if socket == Open {
        socket := Ended;
      }
      if mockInterval != Unset {
        mockInterval := Cleared;
      }
      closed := true;
    }
  }

  /** Letting a started simulator run until it clears itself. */
  method RunSimulator(stream: BuildStream, stamp: Stamp)
    requires stream.Valid() && stream.mockInterval == Live && stream.logIndex == 0
    modifies stream
    ensures stream.Valid() && stream.mockInterval == Cleared
    ensures |old(stream.delivered)| <= |stream.delivered|
    ensures stream.delivered[..|old(stream.delivered)|] == old(stream.delivered)
    ensures Replays(stream.delivered[|old(stream.delivered)|..], stream.mockLogs)
  {
    ghost var start := |stream.delivered|;
    var ticks := 0;
    while ticks <= |stream.mockLogs|
      invariant stream.Valid() && stream.simFrom == start
      invariant ticks <= |stream.mockLogs| + 1
      invariant stream.logIndex == if ticks <= |stream.mockLogs| then ticks else |stream.mockLogs|
      invariant stream.mockInterval == if ticks <= |stream.mockLogs| then Live else Cleared
      invariant stream.delivered[..start] == old(stream.delivered)
    {
      stream.Tick(stamp);
      ticks := ticks + 1;
    }
    assert stream.mockLogs[..|stream.mockLogs|] == stream.mockLogs;
  }

  /** The entries `onmessage` makes of a run of frames, one per frame. */
  function DecodeAll(frames: seq<Frame>, stamp: Stamp): (es: seq<LogEntry>)
    ensures |es| == |frames|
    ensures forall k :: 0 <= k < |frames| ==> es[k] == DecodeFrame(frames[k], stamp)
  {
    seq(|frames|, k requires 0 <= k < |frames| => DecodeFrame(frames[k], stamp))
  }

  /** What the server sends arrives intact: decoding the frames of lines
      with non-empty messages and types gives those lines back, in order. */
  lemma ServerLogArrivesIntact(lines: seq<LogLine>, stamp: Stamp)
    requires forall k :: 0 <= k < |lines| ==> lines[k].message != "" && lines[k].kind != ""
    ensures Replays(DecodeAll(MockServer.EncodeAll(lines), stamp), lines)
  {
    forall k | 0 <= k < |lines|
      ensures DecodeAll(MockServer.EncodeAll(lines), stamp)[k] == Entry(lines[k].message, lines[k].kind, stamp)
    {
      DecodeServerFrame(lines[k], stamp);
    }
  }

  /** In particular the server's whole log arrives intact. */
  lemma BuildLogsArriveIntact(stamp: Stamp)
    ensures Replays(DecodeAll(MockServer.EncodeAll(MockServer.BUILD_LOGS), stamp), MockServer.BUILD_LOGS)
  {
    BuildLogsNonEmpty();
    ServerLogArrivesIntact(MockServer.BUILD_LOGS, stamp);
  }

  /** Frames arriving one `message` event at a time on an open socket. */
  method DeliverFrames(stream: BuildStream, frames: seq<Frame>, stamp: Stamp)
    requires stream.Valid() && stream.Quiet() && stream.socket == Open
    modifies stream
    ensures stream.Valid() && stream.Quiet() && stream.socket == Open
    ensures stream.delivered == old(stream.delivered) + DecodeAll(frames, stamp)
  {
    ghost var before := stream.delivered;
    ghost var all := DecodeAll(frames, stamp);
    var k := 0;
    while k < |frames|
      invariant k <= |frames|
      invariant stream.Valid() && stream.Quiet() && stream.socket == Open
      invariant stream.delivered == before + all[..k]
    {
      stream.OnSocketMessage(frames[k], stamp);
      assert all[..k + 1] == all[..k] + [all[k]];
      k := k + 1;
    }
    assert all[..k] == all;
  }

  /** Offline, with the API unreachable: the socket is created, its
      connection fails and `error` starts the simulator, and `onMessage`
      receives the canned lines of `MOCK_BUILD_LOGS`, each once, in order,
      with their messages and types unchanged. */
  method SimulateWholeLog(buildId: string, stamp: Stamp) returns (entries: seq<LogEntry>)
    ensures Replays(entries, MOCK_BUILD_LOGS)
  {
    var stream := new BuildStream.Connect(buildId, true);
    stream.OnSocketError();
    RunSimulator(stream, stamp);
    entries := stream.delivered;
  }

  /** The same without a socket (`new WebSocket` throws, on a malformed
      address or where there is no `WebSocket`): the simulator starts at
      once and delivers the same entries. */
  method SimulateWithoutSocket(buildId: string, stamp: Stamp) returns (entries: seq<LogEntry>)
    ensures Replays(entries, MOCK_BUILD_LOGS)
  {
    var stream := new BuildStream.Connect(buildId, false);
    RunSimulator(stream, stamp);
    entries := stream.delivered;
  }

  /** The client side of an online stream: the socket for `buildId` opens
      and each frame arrives as one `message` event. */
  method ReceiveFrames(buildId: string, frames: seq<Frame>, stamp: Stamp) returns (entries: seq<LogEntry>)
    ensures entries == DecodeAll(frames, stamp)
  {
    var stream := new BuildStream.Connect(buildId, true);
    stream.OnOpen();
    DeliverFrames(stream, frames, stamp);
    entries := stream.delivered;
  }

  /** Online, against the mock server: the socket opens on the stream URL,
      the server streams its log to the connection whose request path is
      the build's path, and `onMessage` receives the lines
      of `BUILD_LOGS`, each once, in order, with their messages and types
      unchanged. */
  method StreamFromServer(buildId: string, stamp: Stamp) returns (entries: seq<LogEntry>)
    ensures Replays(entries, MockServer.BUILD_LOGS)
  {
    var frames := MockServer.StreamWholeLog(StreamPath(buildId));
    entries := ReceiveFrames(buildId, frames, stamp);
    BuildLogsArriveIntact(stamp);
  }

  /** As written, a stream closed while its socket is still connecting
      (the view unmounts, or no server listens) plays the simulator anyway:
      the failure report arrives after `close()`, which found no interval
      to clear, and the simulator hands every canned line to `onMessage`
      before its interval clears itself at the end of the list. */
  method CloseWhileConnecting(buildId: string, stamp: Stamp) returns (afterClose: seq<LogEntry>)
    ensures Replays(afterClose, MOCK_BUILD_LOGS)
    ensures |afterClose| == 14
  {
    var stream := new BuildStream.Connect(buildId, true);
    stream.Close();
    var before := stream.delivered;
    stream.OnSocketError();
    RunSimulator(stream, stamp);
    afterClose := stream.delivered[|before|..];
  }

  /** With the corrected error handler the same sequence of events, followed
      by any number of ticks and frames, delivers nothing after `close()`. */
  method CloseWhileConnectingGuarded(buildId: string, stamp: Stamp, frames: seq<Frame>) returns (afterClose: seq<LogEntry>)
    ensures afterClose == []
  {
    var stream := new BuildStream.Connect(buildId, true);
    stream.Close();
    var before := stream.delivered;
    stream.OnSocketErrorGuarded();
    var k := 0;
    while k < |frames|
      invariant stream.Valid() && stream.Quiet() && stream.closed
      invariant stream.delivered == before
    {
      stream.OnSocketMessage(frames[k], stamp);
      stream.Tick(stamp);
      k := k + 1;
    }
    afterClose := stream.delivered[|before|..];
  }
}
