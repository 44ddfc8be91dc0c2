# LinkZ SoundBridge in Dafny

A verified model of the behaviour at the core of LinkZ SoundBridge. LinkZ SoundBridge is a single-page dashboard for a music-distribution platform. It is paired with a small local mock server. The model covers:

- **Service layer** (`LinkZService`, services/linkzService.ts)
  - Four REST accessors. Each yields the server's body or a fixed offline fallback.
  - `triggerBuild` and its offline `local-` id.
  - The build-log stream: a WebSocket whose frames are decoded into log entries, a local simulator playing `MOCK_BUILD_LOGS` on a timer when the socket fails, and `close()`.
- **Mock server** (`MockServer`, server.js)
  - The canned data.
  - The `build-` id of `POST /v1/builds`.
  - The per-connection interval that streams `BUILD_LOGS` to a `/logs` socket.
- **Deployment orchestrator** (`Deployment` and `Progress`, components/Distribution.tsx)
  - `runDeployment` with its re-entrancy guard.
  - The append-only log list.
  - The keyword rule that moves the progress bar. For both canned logs, the model proves where the bar stands after every line.
- **Release wizard** (`ReleaseWizard`, components/ReleaseCreator.tsx)
  - The step counter clamped to [1,4] and its indicators.
  - The initial record and the one-field update.
  - The cover-art guard and prompt.
  - The two calls to the generative service and their `loading` flag.
- **Reasoning panel** (`Reasoning`, components/ReasoningEngine.tsx): the submit guard and flags, and the typing effect that reveals an answer one UTF-16 code unit per tick, as `charAt` and `length` count them.
- **Labels** (`Library` and `PageHeader`, components/ReleaseLibrary.tsx and components/Header.tsx): the status badge, the UPC placeholder and the page title.

State that the source changes in place is modelled as classes:

- the stream handle `LinkZService.BuildStream`;
- the server socket `MockServer.LogSocket`;
- the views `Deployment.DeploymentView`, `ReleaseWizard.Wizard` and `Reasoning.Engine`.

Each timer firing is one `Tick` call. Pure choices, mappings and string builders are functions. The driver methods compose the handlers into whole runs and state the outcome:

- `OfflineDeployment`, `OnlineDeployment`;
- `StreamWholeLog`, `SimulateWholeLog`, `SimulateWithoutSocket`, `StreamFromServer`;
- `FirstArtRequest`, `WalkSteps`;
- `ConsultAndReveal`.

Inputs the program gets from outside are parameters:

- a network outcome is a `Fetch<T>`;
- a settled promise of the generative service is a `Settled<T>`;
- a clock reading is a `Stamp`;
- a parsed socket frame is a `Frame`.

## Model

| member | source | states |
|---|---|---|
| MockServer.ServerBuildId | server.js:85-90 | the id starts with `build-`, never with `local-`, and continues with digits only |
| MockServer.EncodeLine | server.js:107 | a sent frame parses back to the line's own message and type |
| MockServer.EncodeAll | server.js:102-108 | one frame per line, in the same order |
| MockServer.LogSocket.Connection | server.js:96-102 | a connection streams (its interval is set) exactly when its URL includes `/logs`; nothing sent yet |
| MockServer.LogSocket.Tick | server.js:102-109 | a live interval below the end sends the next line and advances `i`; at the end it clears itself and sends nothing; a cleared interval never restarts; what was sent is always the first `i` lines encoded |
| MockServer.LogSocket.OnClose | server.js:111 | closing the socket clears the interval |
| MockServer.EncodeAllAppend | server.js:107-108 | sending one more line appends exactly its frame |
| MockServer.RunInterval | server.js:100-109 | a fresh `/logs` interval, fired until it clears itself, sends every line once, in order |
| MockServer.StreamWholeLog | server.js:96-113 | a `/logs` connection receives exactly the frames of `BUILD_LOGS`, in order |
| MockServer.SilentWithoutLogs | server.js:100 | a connection whose URL lacks `/logs` receives nothing however many ticks pass |
| LinkZService.TriggerBuild | services/linkzService.ts:114-134 | a successful call yields the server's body; any failure yields an id starting with `local-` |
| LinkZService.GetReleases | services/linkzService.ts:136-146 | the server's body on success, `MOCK_CATALOG` on any failure |
| LinkZService.GetAnalyticsData | services/linkzService.ts:148-158 | the server's body on success, `MOCK_ANALYTICS` on any failure |
| LinkZService.GetDashboardStats | services/linkzService.ts:160-176 | the server's body on success, the fixed counters on any failure |
| LinkZService.GetNetworkStatus | services/linkzService.ts:178-193 | the server's body on success, the four offline service records on any failure |
| LinkZService.LocalIdIffFailed | services/linkzService.ts:130-133 | against the mock server a build id starts with `local-` exactly when the call failed |
| LinkZService.OfflineCatalogIsServerPrefix | services/linkzService.ts:32-35 | the offline catalog is the first two releases of the server's catalog |
| LinkZService.ReleasesAgainstMockServer | services/linkzService.ts:136-146 | online or offline, the releases are a prefix of the server's catalog of length at least 2 |
| LinkZService.StatsAgainstMockServer | services/linkzService.ts:167-175 | online or offline, the dashboard counters are the same |
| LinkZService.OfflineHealthShape | services/linkzService.ts:186-191 | offline, the same four services in the same order, with statuses pending, offline, offline, running |
| LinkZService.StreamPath | services/linkzService.ts:55 | the request path the server sees starts with `/ws/builds/` and includes `/logs`, so the server streams to it |
| LinkZService.StreamUrl | services/linkzService.ts:55 | the socket URL is the server's address followed by the build's path, and includes `/logs` |
| LinkZService.DecodeFrame | services/linkzService.ts:61-73 | message is `data.message` when truthy, else the raw text; type is `data.type` when truthy, else 'info'; an unparsable frame gives the raw text as 'info'; the type is never empty |
| LinkZService.DecodeServerFrame | services/linkzService.ts:61-69 | decoding a server frame gives back the line's message and type |
| LinkZService.BuildLogsNonEmpty | server.js:29-59 | every streamed line has a non-empty message and type |
| LinkZService.BuildStream.Connect | services/linkzService.ts:48-82 | a created socket starts connecting with no simulator; when `new WebSocket` throws, the simulator starts at once from index 0 |
| LinkZService.BuildStream.StartSimulation | services/linkzService.ts:85-87 | a fresh index 0 and a running interval |
| LinkZService.BuildStream.OnOpen | services/linkzService.ts:57-59 | the socket opens and nothing is delivered |
| LinkZService.BuildStream.OnSocketMessage | services/linkzService.ts:61-73 | an open socket delivers exactly the decoded frame; after `close()` nothing is delivered |
| LinkZService.BuildStream.OnSocketError | services/linkzService.ts:75-78 | as written, a socket failure starts the simulator, whether or not `close()` ran |
| LinkZService.BuildStream.OnSocketErrorGuarded | services/linkzService.ts:75-78 | corrected: after `close()` a socket failure starts nothing |
| LinkZService.BuildStream.Tick | services/linkzService.ts:87-100 | below the end, emits the next canned line with message and type unchanged and advances; at the end, clears itself, emits nothing and keeps its index; what the simulator emitted is always the first `logIndex` lines |
| LinkZService.BuildStream.Close | services/linkzService.ts:103-108 | closes the socket if any and clears the interval if it was set; nothing is delivered by it |
| LinkZService.RunSimulator | services/linkzService.ts:85-101 | a started simulator run to its end emits every canned line exactly once, in order, after what was already delivered |
| LinkZService.DecodeAll | services/linkzService.ts:61-73 | one entry per frame, in order |
| LinkZService.ServerLogArrivesIntact | services/linkzService.ts:61-69 | decoding the frames of lines with non-empty fields gives those lines back, in order |
| LinkZService.BuildLogsArriveIntact | services/linkzService.ts:61-69 | the server's whole log arrives intact |
| LinkZService.DeliverFrames | services/linkzService.ts:61-73 | frames on an open socket are delivered one decoded entry each, in order |
| LinkZService.ReceiveFrames | services/linkzService.ts:55-73 | on a socket that opens, the entries are exactly the decoded frames, in order |
| LinkZService.SimulateWholeLog | services/linkzService.ts:75-101 | API unreachable: the socket's connection fails, `error` starts the simulator, and `onMessage` receives exactly the lines of `MOCK_BUILD_LOGS`, in order |
| LinkZService.SimulateWithoutSocket | services/linkzService.ts:80-101 | when `new WebSocket` throws, `onMessage` receives exactly the lines of `MOCK_BUILD_LOGS`, in order |
| LinkZService.StreamFromServer | services/linkzService.ts:55-73 | online, the server streams to the build's path and `onMessage` receives exactly the lines of the server's `BUILD_LOGS`, in order |
| LinkZService.CloseWhileConnecting | services/linkzService.ts:75-108 | as written, closing while connecting still delivers all 14 canned lines afterwards, in order |
| LinkZService.CloseWhileConnectingGuarded | services/linkzService.ts:103-108 | with the corrected handler, nothing is delivered after `close()` whatever frames and ticks follow |
| Strings.TrimEmptyIffBlank | components/ReasoningEngine.tsx:26 | `!s.trim()` holds exactly for texts of white space only |
| Strings.Utf16RoundTrip | components/ReasoningEngine.tsx:17-19 | decoding the UTF-16 code units of any text gives the text back |
| Strings.Utf16Append | components/ReasoningEngine.tsx:17 | the code units of a concatenation are the code units of the pieces, in order |
| Strings.DanglingHigh | components/ReasoningEngine.tsx:17 | encoded text followed by a lone high surrogate decodes to nothing |
| Strings.DecimalRoundTrip | components/ReleaseCreator.tsx:20-21 | the decimal rendering of a number reads back as that number |
| Progress.ApplyRulesSnoc | components/Distribution.tsx:73-77 | one more keyword test overrides the earlier ones when it matches |
| Progress.ApplyRulesIsLastMatch | components/Distribution.tsx:73-77 | sequential tests are "the last matching keyword wins, none keeps the value" |
| Progress.ProgressRule | components/Distribution.tsx:73-77 | the callback sets the value of the last keyword present in the message, else leaves the bar |
| Progress.CaseSensitive | components/Distribution.tsx:73 | "Dependencies" leaves the bar alone; "dependencies" sets 30 |
| Progress.CapitalisedDependencies | components/Distribution.tsx:73-77 | the capitalised word holds no keyword |
| Progress.NextProgressIsValue | components/Distribution.tsx:73-77 | the bar only ever holds 0, 5, 15, 30, 50, 70, 80 or 100 |
| Progress.ReplayStep | components/Distribution.tsx:71-79 | each value of a run is the rule applied to the previous value and that message |
| Progress.ReplayIsTrack | components/Distribution.tsx:71-79 | a run depends on its messages only through what each does to the bar |
| Progress.TrackAt | components/Distribution.tsx:73-77 | a step sets its own value, or keeps the value before it |
| Progress.TrackQuiet | components/Distribution.tsx:73-77 | through messages without keywords the bar holds still |
| Progress.TrackSegment | components/Distribution.tsx:73-77 | a keyword followed by keyword-free lines holds its value throughout |
| Progress.EffectOf | components/Distribution.tsx:73-77 | a message holding a keyword and none worth more sets that keyword's value |
| Progress.SimulatedRunLines0 | services/linkzService.ts:16-18 | the banner lines hold no keyword |
| Progress.SimulatedRunLines3 | services/linkzService.ts:19-21 | the Node.js checks and the simulation warning hold no keyword |
| Progress.SimulatedRunLines6 | services/linkzService.ts:22-24 | "# Installing dependencies..." sets 30; its neighbours hold no keyword |
| Progress.SimulatedRunLines9 | services/linkzService.ts:25-27 | "Dependencies installed" holds no keyword; "# Configuring EAS Build..." sets 50 |
| Progress.SimulatedRunLines12 | services/linkzService.ts:28-29 | "# Building APK..." sets 70; "APK Built Successfully!" sets 100 |
| Progress.ServerRunLines0 | server.js:30-32 | the banner lines hold no keyword |
| Progress.ServerRunLines3 | server.js:33-35 | no keyword |
| Progress.ServerRunLines6 | server.js:36-38 | no keyword |
| Progress.ServerRunLines9 | server.js:39-41 | "# Installing dependencies..." sets 30, the rest nothing |
| Progress.ServerRunLines12 | server.js:42-44 | no keyword |
| Progress.ServerRunLines15 | server.js:45-47 | "# Configuring EAS Build..." sets 50, the rest nothing |
| Progress.ServerRunLines18 | server.js:48-50 | "# Building APK..." sets 70, the rest nothing |
| Progress.ServerRunLines21 | server.js:51-53 | "Gradle build running" sets 80, the rest nothing |
| Progress.ServerRunLines24 | server.js:54-56 | "APK Built Successfully!" sets 100, the rest nothing |
| Progress.ServerRunLines27 | server.js:57-58 | no keyword |
| Progress.SimulatedRunShape | components/Distribution.tsx:73-77 | the track of the simulator's keyword pattern from 15, segment by segment, and that it never decreases |
| Progress.ServerRunShape | components/Distribution.tsx:73-77 | the same for the server's keyword pattern |
| Progress.SimulatedRunProgress | services/linkzService.ts:15-30 | from 15 the simulated log holds 15, then 30 at line 7, 50 at 10, 70 at 12, 100 at 13; never decreasing |
| Progress.ServerRunProgress | server.js:29-59 | from 15 the server's log holds 15, then 30 at line 9, 50 at 15, 70 at 18, 80 at 22, 100 at 26; never decreasing |
| Deployment.BuildReport | components/Distribution.tsx:58-62 | a `local-` id gives the local-runner warning, any other id a success entry naming it |
| Deployment.DeploymentView.constructor | components/Distribution.tsx:8-10 | idle, no logs, bar at 0 |
| Deployment.DeploymentView.AddLog | components/Distribution.tsx:35-42 | exactly one entry appended |
| Deployment.DeploymentView.RunDeployment | components/Distribution.tsx:44-54 | a click while deploying changes nothing; otherwise busy, logs exactly handshake (info) and build request (command), bar at 5 |
| Deployment.DeploymentView.OnBuildTriggered | components/Distribution.tsx:56-89 | a non-string id: one critical-error entry and the view freed; otherwise the id report and the connecting entry, bar at 15, still busy |
| Deployment.DeploymentView.OnStreamLog | components/Distribution.tsx:71-80 | bar set by the keyword rule, entry appended as received |
| Deployment.DeploymentView.OnStreamError | components/Distribution.tsx:81-83 | one "Connection interrupted." warning appended |
| Deployment.DeploymentView.ReceiveAll | components/Distribution.tsx:71-80 | all entries appended in order; the bar follows the replay of their messages |
| Deployment.ReplaysMessages | components/Distribution.tsx:71-79 | entries replaying lines carry those lines' messages |
| Deployment.OfflineDeployment | components/Distribution.tsx:44-84 | unreachable API: local-runner warning, 14 simulated lines logged intact, the returned trace is the bar's value after each of them (the replay from 15), never decreasing and ending at 100, view still busy so a second click does nothing |
| Deployment.OnlineDeployment | components/Distribution.tsx:44-84 | mock server: success entry with the server id, 29 streamed lines logged intact, the returned trace is the bar's value after each of them (the replay from 15), never decreasing and ending at 100 |
| ReleaseWizard.BackStep | components/ReleaseCreator.tsx:335 | never below 1; keeps an in-range step in range, never moving forward |
| ReleaseWizard.ContinueStep | components/ReleaseCreator.tsx:344 | never above 4; keeps an in-range step in range, never moving back |
| ReleaseWizard.BackContinueInverse | components/ReleaseCreator.tsx:335-344 | Back undoes Continue below step 4; Continue undoes Back above step 1 |
| ReleaseWizard.ClicksStayInRange | components/ReleaseCreator.tsx:335-344 | any series of clicks keeps the step in [1,4] |
| ReleaseWizard.ContinuesReach | components/ReleaseCreator.tsx:344 | k Continues from s reach `min(4, s+k)` |
| ReleaseWizard.BacksReach | components/ReleaseCreator.tsx:335 | k Backs from s reach `max(1, s-k)` |
| ReleaseWizard.ButtonsMatchUpdaters | components/ReleaseCreator.tsx:335-344 | Back is disabled exactly where it would change nothing; Continue is offered exactly where it would change the step |
| ReleaseWizard.CountCompleted | components/ReleaseCreator.tsx:88 | at most one check mark per step |
| ReleaseWizard.CountNumbered | components/ReleaseCreator.tsx:79-88 | over steps numbered from `from`, the check marks number `step - from`, clamped to the list |
| ReleaseWizard.Indicators | components/ReleaseCreator.tsx:79-90 | at step s exactly s-1 check marks; only the current step is lit without one; the last step never completes |
| ReleaseWizard.BeforeFirst | components/ReleaseCreator.tsx:19 | the date part is a prefix of the ISO time, free of 'T', and ends where the first 'T' is |
| ReleaseWizard.InitialRecord | components/ReleaseCreator.tsx:14-22 | exactly the seven initial fields: draft, en, Single, not explicit, the ISO time up to its first 'T', and `© <year> ` and `℗ <year> ` with the year in decimal; art cannot be requested from it |
| ReleaseWizard.CopyrightLinesNameYear | components/ReleaseCreator.tsx:20-21 | the © and ℗ lines of two initial records are equal exactly when their years are, and the digits of the © line read back as the year |
| ReleaseWizard.WithField | components/ReleaseCreator.tsx:24-26 | the named field takes the value; every other field is unchanged |
| ReleaseWizard.PromptNamesArtist | components/ReleaseCreator.tsx:32 | the prompt names the display artist when truthy, otherwise `artist` |
| ReleaseWizard.PromptEndsWithStyle | components/ReleaseCreator.tsx:32 | the prompt ends with `Style: <secondary genre>.` when that is truthy, otherwise with the fixed phrase |
| ReleaseWizard.PromptReadsFourFields | components/ReleaseCreator.tsx:32 | the prompt depends on title, genres and artist only |
| ReleaseWizard.TitleWithoutGenre | components/ReleaseCreator.tsx:29-32 | a title alone passes the guard, and the missing genre renders as `undefined` |
| ReleaseWizard.TitleOnlyPrompt | components/ReleaseCreator.tsx:32 | the full prompt of a record with only a title |
| ReleaseWizard.Wizard.constructor | components/ReleaseCreator.tsx:7-22 | step 1, the initial record, not loading, no image, no review |
| ReleaseWizard.Wizard.InputChange | components/ReleaseCreator.tsx:24-26 | the record after a one-field update |
| ReleaseWizard.Wizard.Back | components/ReleaseCreator.tsx:335 | the step becomes `max(1, s-1)` and stays in range |
| ReleaseWizard.Wizard.Continue | components/ReleaseCreator.tsx:344 | the step becomes `min(4, s+1)` and stays in range |
| ReleaseWizard.Wizard.BeginGenerateArt | components/ReleaseCreator.tsx:28-33 | a prompt goes out exactly when title or primary genre is truthy, with loading raised; otherwise nothing changes |
| ReleaseWizard.Wizard.FinishGenerateArt | components/ReleaseCreator.tsx:33-42 | a truthy image becomes the generated image and the cover-art URL; otherwise both unchanged; loading false on every path |
| ReleaseWizard.Wizard.BeginAnalyze | components/ReleaseCreator.tsx:58-61 | loading raised and the current record handed over |
| ReleaseWizard.Wizard.FinishAnalyze | components/ReleaseCreator.tsx:58-66 | a result becomes the review; a throw keeps the old review and propagates; loading false on both paths |
| ReleaseWizard.TitleThenArt | components/ReleaseCreator.tsx:24-33 | typing a title into a record without genres or artist yields the prompt with `undefined`, `artist` and the fixed style |
| ReleaseWizard.FirstArtRequest | components/ReleaseCreator.tsx:14-33 | a fresh wizard refuses to request art; after a title is typed it requests it |
| ReleaseWizard.WalkSteps | components/ReleaseCreator.tsx:335-344 | three Continues from a fresh wizard reach step 4 where Continue is gone; three Backs return to step 1 where Back is disabled |
| Reasoning.ConsultEnabledIff | components/ReasoningEngine.tsx:77 | the button is enabled exactly when not loading and the query has a non-white character |
| Reasoning.Engine.constructor | components/ReasoningEngine.tsx:6-9 | empty query, not loading, no response, nothing shown |
| Reasoning.Engine.SetInput | components/ReasoningEngine.tsx:71 | the query becomes the typed text |
| Reasoning.Engine.BeginConsult | components/ReasoningEngine.tsx:25-30 | a blank query changes nothing; otherwise loading, response cleared, reveal stopped, nothing shown |
| Reasoning.Engine.FinishConsult | components/ReasoningEngine.tsx:12-39 | the answer, or the malfunction text on a throw, becomes the response; loading false; a changed response restarts the reveal from index 0 with nothing shown; what is shown is always a prefix of the response |
| Reasoning.Engine.Tick | components/ReasoningEngine.tsx:16-19 | the response's code unit at the index is appended and the index advanced; the interval stops once the index reaches the response's UTF-16 length; what is shown is always the first `cursor` code units |
| Reasoning.Engine.Ticks | components/ReasoningEngine.tsx:16-19 | after k ticks the first `cursor + k` code units are shown |
| Reasoning.ConsultAndReveal | components/ReasoningEngine.tsx:12-39 | a blank query sends nothing; otherwise after k ticks exactly the first k UTF-16 code units of the answer (or malfunction text) are shown, typing stops exactly when all are, and then the shown units spell the whole answer |
| Reasoning.FullReveal | components/ReasoningEngine.tsx:17-19 | once every code unit is shown, the shown units decode to the answer |
| Reasoning.RevealAtCharBoundary | components/ReasoningEngine.tsx:16-19 | after as many ticks as the first i characters have code units, exactly those i characters are shown |
| Reasoning.HalfRevealedAstral | components/ReasoningEngine.tsx:17-19 | a character outside the Basic Multilingual Plane takes two ticks, and after the first the display ends in a lone high surrogate and spells no text (so "ok 🙂" needs five ticks) |
| PageHeader.ViewTitle | components/Header.tsx:11-21 | the home title belongs to the dashboard alone among the views; create-release is "DDEX 4.3 Ingestion" |
| PageHeader.TitlesDistinct | components/Header.tsx:13-18 | the six views have six different titles |
| PageHeader.UnknownViewIsHome | components/Header.tsx:19 | a value naming no view gets the dashboard's title |
| PageHeader.HomeTitleIff | components/Header.tsx:11-21 | "Artist Hub" is shown exactly for the dashboard and for values naming no view |
| Library.StatusBadge | components/ReleaseLibrary.tsx:60-79 | the slate colour exactly for statuses other than distributed, ai-review and ready, which keep their raw label; distributed is labelled Live on DSPs, ai-review Neural Review and ready Ready to Ship |
| Library.LabelsIdentifyStatus | components/ReleaseLibrary.tsx:60-79 | over the five release statuses, the badge label determines the status |
| Library.UpcShown | components/ReleaseLibrary.tsx:43 | the UPC when truthy, otherwise "PENDING"; never blank |
| Library.MockRows | components/ReleaseLibrary.tsx:5-9 | the listed rows show Live on DSPs, Ready to Ship and Neural Review, and UPCs 891238123, 891238444 and PENDING |

## Left out

- Network transport (`fetch`, `AbortController` timeouts, HTTP status checks, the WebSocket itself) is left out. Each call's outcome is an input (`Fetch<T>`, `Frame`, `socketCreated`).
- Timer periods (800 ms, 500 ms, 10 ms, 30 s) are left out, as is the interleaving of timers with other events. Each interval firing is one `Tick` call. The drivers fix one order of events.
- `Date.now()` and `toLocaleTimeString()` are a `Stamp` input. Each handler or run takes one stamp, while the source reads the clock per entry. `getFullYear()` and `toISOString()` are the constructor inputs of `ReleaseWizard.Wizard`.
- `JSON.parse` is left out. A frame carries what parsing made of it (`Frame.parsed`). A `null` result counts as unparsable: reading its `message` throws into the handler's catch. A number, string, boolean or array has no `message` or `type`, so it is a frame whose fields are both missing; the try branch then gives the same entry as an unparsable frame, the raw text as 'info'.
- LinkZService.DecodeFrame: a `message` or `type` that parses to a truthy value other than a string (a number, `true`, an object) counts as missing, so the model gives the raw text or 'info' in its place. The source passes such a value on: `{"message":42,"type":"error"}` gives message 42 of type "error". In the deployment view `includes` then throws inside the handler's `try` (components/Distribution.tsx:73), and the catch delivers the raw frame text as 'info'. The mock server sends only string fields (`LinkZService.DecodeServerFrame`).
- MockServer.EncodeLine: the parsed fields of a sent frame are stated, not derived by parsing its text with a JSON parser.
- The generative-AI client (services/gemini.ts) is not part of this model. Its results are `Settled<T>` inputs, and the prompts sent to it are the only thing modelled.
- React scheduling and batching are left out: state updates take effect at once, in statement order.
- Reasoning.Engine.Tick appends the code unit at the index before the increment. The source's updater closes over the mutable `i`, and React may run it after `i++`. The model takes the intended order.
- The cover-art upload through `FileReader` (components/ReleaseCreator.tsx:45-56) is left out. So are the `audioFile` and `artworkMode` state, which only steer the rendering.
- The progress-line width (components/ReleaseCreator.tsx:99) is floating-point arithmetic and is left out.
- JSX, CSS classes and charts are left out, and so are the Dashboard, Analytics, Sidebar and App views and the Express setup. The same goes for the auto-scroll and the 30-second network poll of the deployment view (components/Distribution.tsx:18-33).
- The unmount cleanup of the deployment view (components/Distribution.tsx:93-97) calls the stream's `close()`. It is modelled by `LinkZService.BuildStream.Close` but not wired into `Deployment.DeploymentView`.
- Deployment.DeploymentView.OnStreamError is never reached: `connectBuildStream` never calls its `onError` argument (`BuildStream.Valid` keeps `errorCalls` at 0).
- Deployment.DeploymentView.OnBuildTriggered: an id that is not a string is `None`. The text of the resulting exception is the `errorText` input.
- Deployment.OfflineDeployment: after a successful start the view stays busy. Only the error path clears `isDeploying`, as in the source.
- Library.StatusBadge: a status that is not a string, as `StatusOf` reads it, counts as missing.
- `Types.Rendered`: values other than texts and flags are not modelled.
- The `ServiceStatus` status `'error'` is the constructor `Failing`.
- Integers are unbounded. The ids and indices involved stay far below 2^53, where JavaScript numbers stop being exact.

## Findings

| source | as written | input that shows it | evidently intended | confidence | as-written member | corrected member |
|---|---|---|---|---|---|---|
| services/linkzService.ts:75-78 | `ws.onerror` starts the simulator unconditionally. `close()` (103-108) on a socket that is still connecting makes the browser fail the connection and fire `error` afterwards. The simulator then starts after `close()`. That `close()` ran while `mockInterval` was still unset, so it cleared nothing, and the new interval hands all 14 canned lines to `onMessage` before it clears itself at the end of the list. | Call `connectBuildStream` with no server listening, then `close()` before the connection fails, for example when the view unmounts. The next 14 ticks hand the canned entries to `onMessage`. | Nothing is delivered after `close()`. | medium; not executed | LinkZService.CloseWhileConnecting | LinkZService.CloseWhileConnectingGuarded |
