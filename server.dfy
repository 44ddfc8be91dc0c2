/** The mock API server (server.js): the canned responses of its REST
    endpoints, the id `POST /v1/builds` hands out, and the per-connection
    build-log streamer on the WebSocket. */
module MockServer {
  import opened Types
  import opened Strings

  /** `BUILD_LOGS`: the lines streamed to every `/logs` socket. The longer
      messages are written in pieces (the text is the same) at points where no
      progress keyword can straddle a cut. */
  const BUILD_LOGS: seq<LogLine> := [
    LogLine("╔" + "════════════════════════════════" + "═══════════════════════════════╗", COMMAND),
    LogLine("║   " + "LinkZ IAED Mobile - APK Builder " + "v2.0.1                      ║", COMMAND),
    LogLine("╚" + "════════════════════════════════" + "═══════════════════════════════╝", COMMAND),
    LogLine("# Checking Node.js...", INFO),
    LogLine("✓ Node.js 18+ detected", SUCCESS),
    LogLine("# Checking Expo CLI...", INFO),
    LogLine("Installing Expo CLI...", WARNING),
    LogLine("$ npm install -g expo-cli", COMMAND),
    LogLine("✅ Prerequisites checked", SUCCESS),
    LogLine("# Installing " + "dependencies" + "...", INFO),
    LogLine("$ npm install", COMMAND),
    LogLine("✅ D" + "ependencies" + " installed", SUCCESS),
    LogLine("# Login to Expo account...", INFO),
    LogLine("$ eas login", COMMAND),
    LogLine("✓ Logged in as studio-156266", SUCCESS),
    LogLine("# " + "Configuring" + " EAS Build...", INFO),
    LogLine("$ eas build:configure", COMMAND),
    LogLine("✅ Project configured (eas.json)", SUCCESS),
    LogLine("# " + "Building" + " APK...", INFO),
    LogLine("$ eas build " + "-p android --profile preview", COMMAND),
    LogLine("› Uploading " + "project to EAS Build...", INFO),
    LogLine("› Build queued...", INFO),
    LogLine("› " + "Gradle" + " build running...", INFO),
    LogLine("› apply plugin: " + "'com.android.application'", INFO),
    LogLine("› c" + "ompileSdkVersion 33", INFO),
    LogLine("› Compiling resources...", INFO),
    LogLine("✅ APK Built " + "Success" + "fully!", SUCCESS),
    LogLine("Download: https://expo.dev/" + "artifacts/android/build-8239.apk", SUCCESS),
    LogLine("QR Code " + "generated for device install.", INFO)
  ]

  /** `CATALOG`, served by `GET /v1/catalog/releases`. */
  const CATALOG: seq<Release> := [
    map[Id := Text("1"), Title := Text("Midnight Horizon"), DisplayArtist := Text("Lunar Boy"),
        PrimaryGenre := Text("Electronic"), Status := Text("distributed"),
        CoverArtUrl := Text("https://images.unsplash.com/photo-1614613535308-eb5fbd3d2c17?q=80&w=600&auto=format&fit=crop"),
        Upc := Text("840293482391"), ReleaseType := Text("Single")],
    map[Id := Text("2"), Title := Text("Neon Dreams"), DisplayArtist := Text("Cyber Soul"),
        PrimaryGenre := Text("Synthwave"), Status := Text("ai-review"),
        CoverArtUrl := Text("https://images.unsplash.com/photo-1620641788421-7a1c342ea42e?q=80&w=600&auto=format&fit=crop"),
        Upc := Text("PENDING"), ReleaseType := Text("EP")],
    map[Id := Text("3"), Title := Text("Quantum Drift"), DisplayArtist := Text("Vector Space"),
        PrimaryGenre := Text("Ambient"), Status := Text("ready"),
        CoverArtUrl := Text("https://images.unsplash.com/photo-1506259091721-347f798065f5?q=80&w=600&auto=format&fit=crop"),
        Upc := Text("840293112233"), ReleaseType := Text("Album")]
  ]

  /** `ANALYTICS`, served by `GET /v1/analytics/streams`. */
  const ANALYTICS: seq<StreamPoint> := [
    StreamPoint("00:00", 1240), StreamPoint("04:00", 850), StreamPoint("08:00", 2400),
    StreamPoint("12:00", 3800), StreamPoint("16:00", 4200), StreamPoint("20:00", 5100),
    StreamPoint("23:59", 3200)
  ]

  /** The body of `GET /health`. */
  const HEALTH: seq<ServiceStatus> := [
    ServiceStatus("Expo Build Service", Running, "EAS", "45ms"),
    ServiceStatus("Android Build", Running, "Gradle", "12ms"),
    ServiceStatus("Metro Bundler", Running, "8081", "5ms"),
    ServiceStatus("LinkZ API", Running, "3001", "1ms")
  ]

  /** The body of `GET /v1/dashboard/stats`. */
  const STATS: DashboardStats := DashboardStats(1248, 89432, 42, 98, [])

  /** The id `POST /v1/builds` answers with, `build-<Date.now()>`. It can never
      be mistaken for the client's offline id, which starts with `local-`. */
  function ServerBuildId(now: nat): (id: string)
    ensures StartsWith(id, "build-")
    ensures !StartsWith(id, "local-")
    ensures forall k :: 6 <= k < |id| ==> IsDigit(id[k])
  {
    var digits := DecimalString(now);
    assert ("build-" + digits)[..6] == "build-";
    assert ("build-" + digits)[0] != "local-"[0];
    "build-" + digits
  }

  function HexDigit(d: nat): char
    requires d < 16
  {
    "0123456789abcdef"[d]
  }

  /** `JSON.stringify` of one character inside a string literal. */
  function JsonChar(c: char): (r: string)
    ensures |r| >= 1
    ensures c != '"' && c != '\\' && c >= ' ' ==> r == [c]
  {
    if c == '"' then "\\\""
    else if c == '\\' then "\\\\"
    else if c == '\U{8}' then "\\b"
    else if c == '\t' then "\\t"
    else if c == '\n' then "\\n"
    else if c == '\U{C}' then "\\f"
    else if c == '\r' then "\\r"
    else if c < ' ' then "\\u00" + [HexDigit(c as nat / 16), HexDigit(c as nat % 16)]
    else [c]
  }

  function JsonEscape(s: string): string {
    if s == [] then [] else JsonChar(s[0]) + JsonEscape(s[1..])
  }

  /** `JSON.stringify` of a log line: `{"message":...,"type":...}`. */
  function Stringify(line: LogLine): string {
    "{\"message\":\"" + JsonEscape(line.message) + "\",\"type\":\"" + JsonEscape(line.kind) + "\"}"
  }

  /** The frame `ws.send(JSON.stringify(BUILD_LOGS[i]))` puts on the wire: its
      text parses back to the line's own message and type. */
  function EncodeLine(line: LogLine): (f: Frame)
    ensures f.parsed == Some(FrameFields(Some(line.message), Some(line.kind)))
  {
    Frame(Stringify(line), Some(FrameFields(Some(line.message), Some(line.kind))))
  }

  /** The frames for a run of lines, one frame per line in the same order. */
  function EncodeAll(lines: seq<LogLine>): (fs: seq<Frame>)
    ensures |fs| == |lines|
    ensures forall k :: 0 <= k < |lines| ==> fs[k] == EncodeLine(lines[k])
  {
    seq(|lines|, k requires 0 <= k < |lines| => EncodeLine(lines[k]))
  }

  /** One socket connection of the server. A connection whose URL includes
      `/logs` gets an interval that sends the next line of `BUILD_LOGS` per
      tick and clears itself once the list is exhausted; closing the socket
      clears it too. */
  class LogSocket {
    /** `req.url.includes('/logs')` */
    const streams: bool
    /** the list the interval walks: `BUILD_LOGS` */
    const lines: seq<LogLine>
    /** the interval's counter `i` */
    var next: nat
    /** the interval is set and not yet cleared */
    var timerLive: bool
    /** every frame `ws.send` has put on this socket */
    var sent: seq<Frame>

    ghost predicate Valid()
      reads this
    {
      && next <= |lines|
      && sent == EncodeAll(lines[..next])
      && (!streams ==> next == 0 && !timerLive)
    }

    constructor Connection(url: string)
      ensures Valid()
      ensures lines == BUILD_LOGS && streams == Contains(url, "/logs")
      ensures timerLive == streams && next == 0 && sent == []
    {
      lines := BUILD_LOGS;
      streams := Contains(url, "/logs");
      timerLive := Contains(url, "/logs");
      next := 0;
      sent := [];
    }

    /** One firing of the 500 ms interval. */
    method Tick()
      requires Valid()
      modifies this
      ensures Valid()
      ensures old(timerLive) && old(next) < |lines| ==>
                next == old(next) + 1 && sent == old(sent) + [EncodeLine(lines[old(next)])] && timerLive
      ensures !(old(timerLive) && old(next) < |lines|) ==>
                next == old(next) && sent == old(sent)
      ensures old(next) == |lines| ==> !timerLive
      ensures !old(timerLive) ==> !timerLive
    {
      if timerLive {
        if next >= |lines| {
          timerLive := false;
          return;
        }
        assert lines[..next + 1] == lines[..next] + [lines[next]];
        EncodeAllAppend(lines[..next], lines[next]);
        sent := sent + [EncodeLine(lines[next])];
        next := next + 1;
      }
    }

    /** The socket's `close` event clears the interval. */
    method OnClose()
      requires Valid()
      modifies this`timerLive
      ensures Valid() && !timerLive
    {
      timerLive := false;
    }
  }

  lemma {:induction false} EncodeAllAppend(lines: seq<LogLine>, line: LogLine)
    ensures EncodeAll(lines + [line]) == EncodeAll(lines) + [EncodeLine(line)]
  {
    var xs := EncodeAll(lines + [line]);
    var ys := EncodeAll(lines) + [EncodeLine(line)];
    assert |xs| == |ys|;
    forall k | 0 <= k < |xs| ensures xs[k] == ys[k] {
      if k < |lines| {
        assert (lines + [line])[k] == lines[k];
      }
    }
  }

  /** Firing a fresh `/logs` connection's interval until it clears itself. */
  method RunInterval(socket: LogSocket)
    requires socket.Valid() && socket.timerLive && socket.next == 0
    modifies socket
    ensures socket.Valid() && !socket.timerLive
    ensures socket.sent == EncodeAll(socket.lines)
  {
    var ticks := 0;
    while ticks <= |socket.lines|
      invariant socket.Valid()
      invariant ticks <= |socket.lines| + 1
      invariant socket.next == if ticks <= |socket.lines| then ticks else |socket.lines|
      invariant socket.timerLive == (ticks <= |socket.lines|)
    {
      socket.Tick();
      ticks := ticks + 1;
    }
    assert socket.lines[..|socket.lines|] == socket.lines;
  }

  /** A `/logs` connection left open: the interval fires `|BUILD_LOGS| + 1`
      times (the last one clears it), and what went out is every line of
      `BUILD_LOGS` exactly once, in order, each as its own frame. */
  method StreamWholeLog(url: string) returns (frames: seq<Frame>)
    requires Contains(url, "/logs")
    ensures frames == EncodeAll(BUILD_LOGS)
  {
    var socket := new LogSocket.Connection(url);
    RunInterval(socket);
    frames := socket.sent;
  }

  /** A connection whose URL lacks `/logs` is sent nothing, however often the
      (never set) interval is asked to fire. */
  method SilentWithoutLogs(url: string, ticks: nat) returns (frames: seq<Frame>)
    requires !Contains(url, "/logs")
    ensures frames == []
  {
    var socket := new LogSocket.Connection(url);
    var n := 0;
    while n < ticks
      invariant socket.Valid() && !socket.streams
    {
      socket.Tick();
      n := n + 1;
    }
    frames := socket.sent;
  }
}
