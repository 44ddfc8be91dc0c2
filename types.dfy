/** The records shared by the client and the mock server (types.ts), and the
    outcome of one network call. */
module Types {

  datatype Option<T> = None | Some(value: T)

  /** The `type` of a log line: 'info' | 'success' | 'warning' | 'error' | 'command'.
      It stays a string because a frame from the socket is passed on unchecked. */
  type LogKind = string

  const INFO: LogKind := "info"
  const SUCCESS: LogKind := "success"
  const WARNING: LogKind := "warning"
  const ERROR: LogKind := "error"
  const COMMAND: LogKind := "command"

  /** A canned build-log line `{ message, type }`. */
  datatype LogLine = LogLine(message: string, kind: LogKind)

  /** What the clock gives when an entry is made: `Date.now()` and
      `new Date().toLocaleTimeString()`. */
  datatype Stamp = Stamp(now: nat, time: string)

  /** `LogEntry`: id, message, type, timestamp. */
  datatype LogEntry = LogEntry(id: nat, message: string, kind: LogKind, timestamp: string)

  function Entry(message: string, kind: LogKind, stamp: Stamp): LogEntry {
    LogEntry(stamp.now, message, kind, stamp.time)
  }

  /** The messages of a sequence of entries, in order. */
  function Messages(entries: seq<LogEntry>): (ms: seq<string>)
    ensures |ms| == |entries|
    ensures forall k :: 0 <= k < |entries| ==> ms[k] == entries[k].message
  {
    seq(|entries|, k requires 0 <= k < |entries| => entries[k].message)
  }

  /** `ServiceStatus.status` */
  datatype ServiceState = Offline | Pending | Running | Failing

  datatype ServiceStatus = ServiceStatus(name: string, status: ServiceState, port: string, latency: string)

  /** The fields of `ReleaseMetadata`; a release record is partial, so it is a
      map from the fields present to their values. */
  datatype Field =
    | Id | Title | DisplayArtist | Version | ReleaseType | PrimaryGenre | SecondaryGenre
    | ReleaseDate | LabelName | CLine | PLine | Upc | Grid | Explicit | Language | Status
    | CoverArtUrl | AiAnalysis

  datatype Value = Text(text: string) | Flag(flag: bool)

  type Release = map<Field, Value>

  /** A field inside a template literal, `${r.f}`: a missing field renders as
      `undefined`, a flag as `true` or `false`. */
  function Rendered(r: Release, f: Field): string {
    if f !in r then "undefined"
    else match r[f]
      case Text(t) => t
      case Flag(b) => if b then "true" else "false"
  }

  /** JavaScript truthiness of a field: present, and a non-empty text or a set flag. */
  predicate FieldTruthy(r: Release, f: Field) {
    f in r && match r[f] case Text(t) => t != "" case Flag(b) => b
  }

  /** JavaScript truthiness of an optional string: present and non-empty. */
  predicate Truthy(s: Option<string>) {
    s.Some? && s.value != ""
  }

  /** How an awaited promise settled: with a value, or by throwing. */
  datatype Settled<T> = Resolved(value: T) | Rejected

  /** Why a fetch gave no usable body: a network error, the abort timer firing (`TimedOut`),
      a non-OK status, or a body that is not JSON. */
  datatype FailReason = NetworkError | TimedOut | HttpStatus(code: int) | BadBody

  /** The outcome of one `fetch` plus `response.json()`. */
  datatype Fetch<T> = Reply(body: T) | Failed(reason: FailReason)

  /** A point of the stream chart `{ name, streams }`. */
  datatype StreamPoint = StreamPoint(name: string, streams: nat)

  /** The dashboard counters `{ assets, streams, nodes, metaIndex, queue }`. */
  datatype DashboardStats = DashboardStats(assets: nat, streams: nat, nodes: nat, metaIndex: nat, queue: seq<string>)

  /** The body of `POST /v1/builds`: `{ buildId }`, the id absent when the body
      has no string `buildId`. */
  datatype BuildReply = BuildReply(buildId: Option<string>)

  /** The fields of a socket frame once `JSON.parse` has read it: `message` and
      `type`, each `None` when missing or not a string. */
  datatype FrameFields = FrameFields(message: Option<string>, kind: Option<string>)

  /** A text frame on the build-log socket, with what `JSON.parse` makes of its
      text: `None` when parsing throws or yields `null`. */
  datatype Frame = Frame(text: string, parsed: Option<FrameFields>)
}
