# OpenClaw admin panel: terminal channel, gates and config, in Dafny

This project models the core of the OpenClaw admin panel, a small Node.js
gateway in front of a local OpenClaw backend. Three pieces of its logic are
modelled and proved:

- **The browser's terminal controller** (`admin-panel/public/js/terminal.js`).
  The page keeps one WebSocket to `/ws/terminal`. It writes `output` frames to
  the terminal and reacts to `exit` frames. It sends `input` and `resize`
  frames only on an open socket. When the socket goes away it reconnects with
  exponential backoff: the delay is `min(1000·2^(n-1), 15000)` ms, and it
  gives up after 10 attempts. `ClientModel` holds one function per handler,
  the invariant, and the lemmas. `TerminalClient.Controller` is the class
  whose fields are the page's module-level variables. Each of its handlers is
  proved to move the state exactly as the matching `ClientModel` function
  does. The terminal is recorded as the list of the page's `term.write` and
  `term.writeln` calls; `ClientModel.Text` gives the exact characters each
  one puts on screen.
- **The server's gates and the terminal bridge** (`admin-panel/server.js`).
  `ServerRoutes` models the `requireAuth` middleware, the login check, the
  upgrade decision (401 without a session, a terminal for `/ws/terminal`,
  destroyed otherwise), the status probe's answers and the `/openclaw` path
  rewrite. `BridgeModel` models one terminal connection. The pty is a shell
  record (spawn options, geometry, input log, killed flag). The WebSocket is a
  log of sent frames plus a ready state. `TerminalBridge.Channel` is the
  per-connection object whose handlers update the shell and the socket in
  place. `TerminalBridge.HandleUpgrade` creates a channel exactly for the
  upgrades that the routing accepts.
- **Config loading** (`admin-panel/config.js`). `Config.LoadConfig` builds
  the defaults from the environment or from literals. It then spreads the
  parsed config file over them, so the file's keys win and the merge is
  shallow. A missing or unparseable file leaves the defaults standing.

Shared pieces:

- `Frames` defines the four frame kinds, the message a handler gets from
  `JSON.parse`, and the message each frame's serialisation parses to. Each
  end dispatches on that message's `type` by its own handler, as in the
  source; `Relay` proves what those handlers make of each other's frames.
- `Decimal` defines the decimal text of integers and `parseInt`, with its
  round trip.
- `Relay` connects the two ends of the channel: typed text reaches the
  shell's input in order, and shell output reaches the page's terminal.

Inputs that come from outside are parameters:

- the parsed JSON message;
- the bcrypt comparison (`verify`) and the hash of the built-in password;
- the process environment (a map);
- the config file's state;
- `fitAddon.proposeDimensions()`;
- the probe's completion events.

Events are values of an `Event` datatype. A run is a sequence of events that
the browser or the `ws` library can deliver in that order (`Trace`). The class
handlers require the same thing of their callers. For example, `onopen` fires
only on a CONNECTING socket, and no message arrives after `close`.

The model follows the code:

- The app's own `upgrade` handler destroys every upgrade to a path other than
  `/ws/terminal`. The proxy middleware is created with `ws: true` and may
  forward upgrades itself; that forwarding is not modelled.
- The page's `onerror` does nothing. Of the socket events, only `onclose`
  schedules a reconnect; an `exit` frame schedules one too.
- The status probe has no guard against a second `res.json` call, and that
  call throws (see Findings).

## Model

| member | source | states |
|---|---|---|
| Decimal.Show | admin-panel/public/js/terminal.js:85 | the text of a number is a non-empty run of decimal digits with no leading zero |
| Decimal.ParseInt | admin-panel/config.js:10-16 | `parseInt(s, 10)`: white space skipped, an optional sign, the longest run of digits, `NaN` (None) without one; its contract is carried by `Decimal.ParseIntShow`, `Decimal.SkipsSpaces`, `Decimal.SignedDigits` and `Decimal.LeadingZeroIgnored` |
| Decimal.SkipsSpaces | admin-panel/config.js:10-16 | `parseInt` skips every leading white space or line terminator and reads the rest as if they were absent |
| Decimal.SignedDigits | admin-panel/config.js:10-16 | a run of digits followed by anything that does not start with a digit reads as the value of those digits; what follows is ignored |
| Decimal.LeadingZeroIgnored | admin-panel/config.js:10-16 | a leading zero does not change what `parseInt` reads |
| Decimal.ParseIntShow | admin-panel/config.js:10-16 | `parseInt(s, 10)` reads back the decimal text of every non-negative integer |
| ClientModel.Delay | admin-panel/public/js/terminal.js:84 | `min(1000·2^(n-1), 15000)`; its values are stated by `ClientModel.DelaySchedule` and `ClientModel.TenDelays` |
| ClientModel.Seconds | admin-panel/public/js/terminal.js:85 | `Math.round(delay / 1000)`; `ClientModel.DisplayedSeconds` states what it gives for every delay |
| ClientModel.Connect | admin-panel/public/js/terminal.js:37-43 | `connectWebSocket`; its contract is carried by `ClientModel.ConnectGuard` |
| ClientModel.ScheduleReconnect | admin-panel/public/js/terminal.js:76-91 | `scheduleReconnect`; its three cases are stated by `ClientModel.PendingScheduleIsNoop`, `ClientModel.ExhaustedScheduleOnlyNotifies` and `ClientModel.ArmedScheduleCountsOne` |
| ClientModel.OnOpen | admin-panel/public/js/terminal.js:45-51 | `ws.onopen`; stated by `ClientModel.OpenResets` |
| ClientModel.OnMessage | admin-panel/public/js/terminal.js:53-65 | `ws.onmessage`; stated by `ClientModel.MessageDispatch` |
| ClientModel.OnClose | admin-panel/public/js/terminal.js:67-69 | `ws.onclose`; stated by `ClientModel.ExitThenCloseSchedulesOnce`, `ClientModel.FailuresRun` and `ClientModel.FailuresThenStop` |
| ClientModel.OnTimer | admin-panel/public/js/terminal.js:87-90 | the reconnect timeout's callback; stated by `ClientModel.FailuresRun` and `ClientModel.StepValid` |
| ClientModel.OnData | admin-panel/public/js/terminal.js:97-101 | `term.onData`; stated by `ClientModel.InputSentIffOpen` |
| ClientModel.HandleResize | admin-panel/public/js/terminal.js:104-110 | `handleResize`; stated by `ClientModel.ResizeSentIffDimsAndOpen` |
| ClientModel.DelaySchedule | admin-panel/public/js/terminal.js:84 | attempts 1, 2, 3 and 4 wait 1000, 2000, 4000 and 8000 ms; every attempt from the 5th on waits the 15000 ms cap |
| ClientModel.TenDelays | admin-panel/public/js/terminal.js:78-84 | the ten attempts the policy allows wait 1000, 2000, 4000, 8000 ms, then 15000 ms six times |
| ClientModel.DisplayedSeconds | admin-panel/public/js/terminal.js:84-85 | every delay is a whole number of seconds, so the rounded seconds in the notice equal delay/1000 and are one of 1, 2, 4, 8, 15 |
| ClientModel.NoticeText | admin-panel/public/js/terminal.js:84-85 | the first reconnect notice reads `[Reconectando en 1s...]` and every notice from the 5th attempt on reads `15s`, each on its own line |
| ClientModel.ConnectGuard | admin-panel/public/js/terminal.js:37-43 | `connectWebSocket` creates no socket while the current one is CONNECTING or OPEN; otherwise it creates exactly one, which is CONNECTING |
| ClientModel.PendingScheduleIsNoop | admin-panel/public/js/terminal.js:76-77 | with a reconnect timer pending, `scheduleReconnect` changes nothing |
| ClientModel.ExhaustedScheduleOnlyNotifies | admin-panel/public/js/terminal.js:78-81 | at 10 attempts or more, `scheduleReconnect` arms no timer and leaves the counter unchanged; it only writes the reload notice |
| ClientModel.ArmedScheduleCountsOne | admin-panel/public/js/terminal.js:83-90 | an armed reconnect adds exactly 1 to the counter, arms a timer with that attempt's delay and writes the matching notice; socket, sent frames and socket count are unchanged |
| ClientModel.OpenResets | admin-panel/public/js/terminal.js:45-51 | an open sets the counter to 0 and sends one `resize` frame with the proposed geometry only if dimensions are available |
| ClientModel.SentOnlyWhenOpen | admin-panel/public/js/terminal.js:97-110 | every event appends at most one frame and never rewrites earlier frames; the frame is `input` or `resize`, and is sent only when the socket is open (the resize of `onopen`) or already was open |
| ClientModel.ResizeSentIffDimsAndOpen | admin-panel/public/js/terminal.js:104-110 | a window resize sends a frame iff dimensions are available and the socket is OPEN; that frame is one `resize` frame with exactly those dimensions; without dimensions, or on a socket that is not OPEN, nothing changes |
| ClientModel.InputSentIffOpen | admin-panel/public/js/terminal.js:97-101 | typed data goes out as one `input` frame if and only if the socket is OPEN; otherwise nothing changes |
| ClientModel.MessageDispatch | admin-panel/public/js/terminal.js:53-65 | `output` writes its data; `exit` writes the termination notice, then schedules a reconnect; any other parsed type changes nothing; unparseable data is written raw |
| ClientModel.ExitThenCloseSchedulesOnce | admin-panel/public/js/terminal.js:58-69 | an `exit` frame followed by the socket's close counts exactly one attempt, arms one timer and writes one reconnect notice |
| ClientModel.StepValid | admin-panel/public/js/terminal.js:32-91 | every deliverable event keeps the invariant: counter at most 10; a pending timer has a counted attempt and that attempt's delay, and never coexists with a connecting socket |
| ClientModel.RunValid | admin-panel/public/js/terminal.js:32-110 | the invariant holds after any sequence of deliverable events |
| ClientModel.AttemptsNeverExceedMax | admin-panel/public/js/terminal.js:78-83 | from page load, whatever the browser delivers, `reconnectAttempts` never exceeds 10 |
| ClientModel.FailuresRun | admin-panel/public/js/terminal.js:67-90 | k failed connections (close, then timer) in a row count k attempts, create k sockets and write the k notices in order, while the total stays within 10 |
| ClientModel.GaveUpIsFinal | admin-panel/public/js/terminal.js:76-81 | once the last socket is closed, no timer is pending and the attempts are used up, no event creates another socket |
| ClientModel.FailuresThenStop | admin-panel/public/js/terminal.js:67-94 | from a connecting socket with k attempts left, k failed connections and one more close are a possible history; they leave exactly 10 attempts counted, k more sockets, the k notices and then the reload notice on screen, and a given-up controller that creates no further socket whatever follows |
| ClientModel.TenFailuresThenStop | admin-panel/public/js/terminal.js:76-94 | from page load, ten failed reconnects followed by one more close leave 11 sockets created, 10 attempts counted, the ten notices followed by the reload notice on screen, and no 11th attempt whatever follows |
| TerminalClient.Controller.constructor | admin-panel/public/js/terminal.js:32-94 | page load initialises the variables and connects once, giving the model's start state, which satisfies the invariant |
| TerminalClient.Controller.ConnectWebSocket | admin-panel/public/js/terminal.js:37-43 | updates the fields exactly as `ClientModel.Connect` |
| TerminalClient.Controller.ScheduleReconnect | admin-panel/public/js/terminal.js:76-91 | updates the fields exactly as `ClientModel.ScheduleReconnect` |
| TerminalClient.Controller.OnOpen | admin-panel/public/js/terminal.js:45-51 | updates the fields as the `Opened` event does, and keeps the invariant |
| TerminalClient.Controller.OnMessage | admin-panel/public/js/terminal.js:53-65 | updates the fields as the `Received` event does, and keeps the invariant |
| TerminalClient.Controller.StartClosing | admin-panel/public/js/terminal.js:38 | the socket's move to CLOSING, which the connect guard observes, keeps the invariant |
| TerminalClient.Controller.OnClose | admin-panel/public/js/terminal.js:67-69 | updates the fields as the `ClosedSocket` event does, and keeps the invariant |
| TerminalClient.Controller.OnTimer | admin-panel/public/js/terminal.js:87-90 | clears the timer and connects, as the `TimerFired` event does, and keeps the invariant |
| TerminalClient.Controller.OnData | admin-panel/public/js/terminal.js:97-101 | sends as the `Typed` event does, and keeps the invariant |
| TerminalClient.Controller.HandleResize | admin-panel/public/js/terminal.js:104-110 | sends as the `WindowResized` event does, and keeps the invariant |
| ServerRoutes.RequireAuth | admin-panel/server.js:35-38 | the handler runs (`next`) if and only if a session exists and is authenticated; otherwise the answer is a redirect to `/login` |
| ServerRoutes.Login | admin-panel/server.js:47-59 | success iff the user name equals the configured one and the password verifies against the hash. Success makes the session authenticated and records the user name. A wrong user name or password leaves the session unchanged and answers 401 with the fixed message. A missing password after a matching name makes the comparison throw and answers 500 |
| ServerRoutes.RouteUpgrade | admin-panel/server.js:112-129 | without an authenticated session, the socket gets exactly `HTTP/1.1 401 Unauthorized\r\n\r\n`, is destroyed and gets no terminal. With one, it becomes a terminal iff the URL is exactly `/ws/terminal`. Every other upgrade is destroyed |
| ServerRoutes.UpgradeGuardAgreesWithRequireAuth | admin-panel/server.js:114-121 | a terminal connection is made only for a session that passes `requireAuth`; a session that `requireAuth` redirects gets the 401 on every upgrade path, and only such a session does |
| ServerRoutes.LoginOpensTerminal | admin-panel/server.js:49-55 | after a successful login the session passes `requireAuth` and its upgrade to `/ws/terminal` becomes a terminal connection |
| ServerRoutes.FailedLoginKeepsGuard | admin-panel/server.js:56-58 | after a failed login, `requireAuth` and the upgrade routing decide for the session exactly as before |
| ServerRoutes.ReplyFor | admin-panel/server.js:78-87 | a probe completion reports `running: true` with the status code iff a response arrived; an error or the timeout reports `running: false` with no status |
| ServerRoutes.JsonCalls | admin-panel/server.js:77-88 | one `res.json` call per completion callback that runs; the first call before the headers are sent answers with that callback's reply, and every call once they are sent throws ERR_HTTP_HEADERS_SENT |
| ServerRoutes.RepliesAsWritten | admin-panel/server.js:77-88 | as written, every completion callback calls `res.json`: the first call answers with its reply and every later call throws |
| ServerRoutes.TimeoutCallsJsonTwice | admin-panel/server.js:84-87 | a timeout followed by the error event of the destroyed request makes the handler as written answer `running: false` and then call `res.json` again, which throws |
| ServerRoutes.ThrowsAnswerNothing | admin-panel/server.js:78-87 | calls made after the headers are sent put no answer on the response |
| ServerRoutes.StatusReplies | admin-panel/server.js:77-88 | a handler with a one-answer guard answers exactly once if any completion happens, with the first completion's reply |
| ServerRoutes.GuardKeepsFirstAnswer | admin-panel/server.js:77-88 | the guarded handler sends the client exactly what the handler as written sends; the handler as written throws iff more than one completion runs |
| ServerRoutes.StripMount | admin-panel/server.js:94 | a path starting with `/openclaw` loses exactly that prefix; any other path is unchanged |
| ServerRoutes.StripMountPrefixed | admin-panel/server.js:94 | stripping `/openclaw` from `/openclaw` + rest gives back rest |
| BridgeModel.Spawn | admin-panel/server.js:132-141 | a new channel's shell starts at 80×24 with no input and not killed. Its environment is the process environment with `TERM` set to `xterm-256color` and every other variable kept. Nothing has been sent and the socket is open |
| BridgeModel.OnMessage | admin-panel/server.js:158-172 | the server's `message` handler; stated by `BridgeModel.ResizeSetsGeometryOnly`, `BridgeModel.OtherMessagesIgnored`, `BridgeModel.InputInOrder` and `Relay.TypedTextReachesShell` |
| BridgeModel.OnShellOutput | admin-panel/server.js:144-148 | `shell.onData`; stated by `BridgeModel.OutputRelay` and `BridgeModel.NothingSentAfterClose` |
| BridgeModel.OnShellExit | admin-panel/server.js:150-155 | `shell.onExit`; stated by `BridgeModel.ExitSendsThenCloses` and `BridgeModel.ChannelLifecycle` |
| BridgeModel.OnSocketClosed | admin-panel/server.js:174-176 | the socket's `close` handler; stated by `BridgeModel.CloseKillsShell` |
| BridgeModel.ResizeSetsGeometryOnly | admin-panel/server.js:165-167 | a `resize` message sets the shell's cols and rows and changes nothing else |
| BridgeModel.OtherMessagesIgnored | admin-panel/server.js:158-172 | a parsed message of any type other than `input` and `resize` changes nothing; an unparseable message is written raw to the shell |
| BridgeModel.ExitSendsThenCloses | admin-panel/server.js:150-155 | on an open socket, a shell exit sends exactly one `exit` frame carrying the exit code, then closes the socket; the shell is untouched |
| BridgeModel.CloseKillsShell | admin-panel/server.js:174-176 | the socket's close kills the shell in every channel state and changes neither the shell's other fields nor the frames sent |
| BridgeModel.StepWellFormed | admin-panel/server.js:143-176 | every deliverable event keeps the channel invariant: only `output` and `exit` frames are sent, and an `exit` frame is last with the socket no longer open after it. The shell is killed exactly when the socket has closed |
| BridgeModel.RunWellFormed | admin-panel/server.js:131-177 | the invariant holds after any sequence of deliverable events |
| BridgeModel.ChannelLifecycle | admin-panel/server.js:131-177 | from spawn, whatever happens, a channel sends at most one `exit` frame. When it does, that frame is the last one and the socket is no longer open |
| BridgeModel.InputInOrder | admin-panel/server.js:158-172 | a sequence of messages appends to the shell's input exactly the data of its `input` messages and the raw text of its unparseable ones, in arrival order. It sends nothing and touches neither the socket nor the kill flag |
| BridgeModel.OutputRelay | admin-panel/server.js:144-148 | while the socket is open, each shell output chunk becomes exactly one `output` frame with the same data, in order, and nothing else changes |
| BridgeModel.NothingSentAfterClose | admin-panel/server.js:144-155 | once the socket is no longer open, no event sends another frame |
| TerminalBridge.Channel.constructor | admin-panel/server.js:132-141 | a new channel is in the spawn state of `BridgeModel.Spawn`, which satisfies the channel invariant |
| TerminalBridge.Channel.OnMessage | admin-panel/server.js:158-172 | updates shell and socket as the `Incoming` event does, and keeps the invariant |
| TerminalBridge.Channel.OnShellOutput | admin-panel/server.js:144-148 | updates the sent log as the `ShellOutput` event does, and keeps the invariant |
| TerminalBridge.Channel.OnShellExit | admin-panel/server.js:150-155 | sends `exit` and closes as the `ShellExited` event does, and keeps the invariant |
| TerminalBridge.Channel.OnSocketClosed | admin-panel/server.js:174-176 | kills the shell as the `SocketClosed` event does, and keeps the invariant |
| TerminalBridge.HandleUpgrade | admin-panel/server.js:112-141 | the outcome is the routing decision, and a fresh channel in its spawn state exists iff the upgrade became a terminal connection |
| Config.EnvOr | admin-panel/config.js:10-17 | the environment fallback of the defaults record: the variable's text when it is set and not empty, the literal otherwise |
| Config.Defaults | admin-panel/config.js:9-18 | the defaults record; its entries are stated by `Config.EnvIntIsParseInt`, `Config.UnsetEnvironmentDefaults` and the four `…FromEnvironment` lemmas |
| Config.OwnProperties | admin-panel/config.js:23 | what `{ ...fileConfig }` copies; stated by `Config.ScalarFileGivesDefaults` and `Config.CredentialsReplacedWhole` |
| Config.EnvIntIsParseInt | admin-panel/config.js:10-16 | the port defaults equal `parseInt` of the variable's text, or of the literal's text when the variable is unset or empty |
| Config.LoadConfig | admin-panel/config.js:8-30 | the keys are the defaults' keys plus the file's. Every key the file has takes the file's value. Every default key the file lacks keeps its default value. Without a usable file the result is the defaults |
| Config.NoUsableFileGivesDefaults | admin-panel/config.js:20-29 | a missing file, or one that cannot be read or parsed, gives exactly the defaults |
| Config.CredentialsReplacedWhole | admin-panel/config.js:12-23 | a file `credentials` record replaces the default one whole: a file with only a user name leaves no password hash, and the other defaults stay |
| Config.ScalarFileGivesDefaults | admin-panel/config.js:22-23 | a file that parses to a number, boolean or null contributes no key |
| Config.LiteralPortTexts | admin-panel/config.js:10-16 | the literal texts `'3000'` and `'18789'` parse to 3000 and 18789 |
| Config.UnsetEnvironmentDefaults | admin-panel/config.js:10-17 | an unset or empty variable gives the literal default: port 3000, backend port 18789, secret `openclaw-admin-default-secret`, domain `mayra-content.comuhack.com` |
| Config.AdminPortFromEnvironment | admin-panel/config.js:10 | a set, non-empty `ADMIN_PORT` gives the port `parseInt` reads from it, whatever the other variables are |
| Config.OpenclawPortFromEnvironment | admin-panel/config.js:16 | a set, non-empty `OPENCLAW_PORT` gives the backend port `parseInt` reads from it, whatever the other variables are |
| Config.SecretFromEnvironment | admin-panel/config.js:11 | a set, non-empty `SESSION_SECRET` is the session secret, whatever the other variables are |
| Config.DomainFromEnvironment | admin-panel/config.js:17 | a set, non-empty `ADMIN_DOMAIN` is the domain, whatever the other variables are |
| Config.SpelledPortsUsed | admin-panel/config.js:10-16 | a port variable that spells a number in decimal gives exactly that number |
| Relay.TypedTextReachesShell | admin-panel/server.js:158-164 | typed text on an open page is sent as one `input` frame, and the bridge writes exactly that text to the shell |
| Relay.ResizeReachesShell | admin-panel/server.js:165-167 | a window resize with dimensions on an open page becomes the shell's new geometry |
| Relay.ShellOutputReachesScreen | admin-panel/server.js:144-148 | shell output on an open channel is sent as one `output` frame, which the page writes to its terminal unchanged |
| Relay.ShellExitReachesPage | admin-panel/server.js:150-155 | the shell's exit reaches the page as an `exit` frame, on which the page writes its notice and schedules a reconnect |
| Relay.ClientFramesInOrder | admin-panel/server.js:158-172 | frames the page sent, delivered in order, put the typed texts into the shell's input in the order they were typed |
| Relay.PageSendsOnlyInputAndResize | admin-panel/public/js/terminal.js:97-110 | whatever happens, the page only ever sends `input` and `resize` frames |

## Left out

- Transport and libraries are not modelled: the WebSocket and HTTP transport, express routing and middleware, and express-session's cookies and expiry. A session is a record with an `authenticated` flag and a user name; "no session" is `None`.
- JSON parsing and serialisation are foreign. A handler receives a `Message`: `Parsed`, or `Unparseable` for anything that makes its `try` block throw, such as invalid JSON or the literal `null`. A parsed message is assumed to carry the fields its type needs. What a shell or the terminal does with a missing or non-string field is library behaviour and is not modelled.
- An exception thrown inside the server's `try` by `shell.write` or `shell.resize` themselves also falls back to a raw write. Only parse failures are modelled as taking that path.
- bcrypt is foreign. The comparison is the parameter `verify(password, hash)`. The default hash that `bcrypt.hashSync` makes of the built-in password is salted, so it is the parameter `defaultHash`.
- Login does not model the case where a config file's `credentials` lacks a string user name or hash. `Login` takes the configured user name and hash as strings.
- Spawning by node-pty and the shell itself are abstract. The shell is a record of its spawn options, geometry, input log and killed flag. A spawn failure, the shell's own output and its exit code are inputs or not modelled.
- Time and timers: a timer is a pending flag holding its delay, and delays are integers; time never passes. The status probe's 2000 ms timeout is the `GotTimeout` event. The 30-second status polling is not modelled.
- Events of a socket that the page has already replaced are not modelled. Only the current socket's events are.
- `ws.send` on a CONNECTING socket throws, and the page's guards rule that case out. On the server, a send on a socket that is no longer open is modelled as delivering nothing.
- The backend reverse proxy (lines 91-106 of admin-panel/server.js) is http-proxy-middleware. Its request forwarding, the upgrade forwarding that `ws: true` turns on, and `changeOrigin` are library behaviour and are not modelled. The app's own `on.error` callback, which answers 502 with a fixed JSON body when the backend is down (lines 97-104), is not modelled either. Only the path rewrite is modelled (`StripMount`).
- The `GET /login` page, `POST /api/logout`, static assets and page rendering are not modelled.
- DOM and UI are not modelled: xterm rendering, FitAddon geometry (supplied as `Dims`), tab switching, the status indicator texts, and the logout fetch (lines 113-179 of admin-panel/public/js/terminal.js).
- `saveConfig`, the file system, the config directory and file permissions are not modelled. The file's state is supplied as a `ConfigFile`.
- Numbers are integers: floating point, numbers too large for a double, and `parseInt` of such texts are not modelled. Whitespace skipping in `parseInt` covers ECMAScript's white space and line terminators.
- JavaScript strings are UTF-16. The index keys a spread string contributes are modelled per Dafny character, not per code unit.

## Findings

| source | as written | input that shows it | evidently intended | confidence | as-written member | corrected member |
|---|---|---|---|---|---|---|
| admin-panel/server.js:84-87 | the timeout callback destroys the probe request and answers `running: false`. Node then reports the destroyed request through its `error` event. That callback calls `res.json` again on the answered response, and the call throws ERR_HTTP_HEADERS_SENT inside the listener, where nothing in server.js catches it | a backend that accepts the connection but does not answer within 2000 ms: completions timeout, then error | one `res.json` call per status request, from the first completion | medium, not executed | ServerRoutes.TimeoutCallsJsonTwice | ServerRoutes.GuardKeepsFirstAnswer |
