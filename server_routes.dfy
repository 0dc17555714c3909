/** The decisions admin-panel/server.js takes over its inputs: the
    authentication gate, the login check, the routing of upgrade requests,
    the answers of the backend status probe and the path rewrite of the
    backend mount. */
module ServerRoutes {
  import opened Frames

  const TerminalPath := "/ws/terminal"
  const LoginPath := "/login"
  const UnauthorizedResponse := "HTTP/1.1 401 Unauthorized\r\n\r\n"
  const LoginFailedMessage := "Credenciales incorrectas"
  const MountPrefix := "/openclaw"
  /** The probe's socket timeout; time itself is not modelled, a timeout is
      one of the probe's events. */
  const ProbeTimeoutMs := 2000

  /** The part of an express-session session the server reads and writes. */
  datatype Session = Session(authenticated: bool, username: Option<string>)

  /** `req.session && req.session.authenticated`. */
  predicate IsAuthenticated(session: Option<Session>)
  {
    session.Some? && session.value.authenticated
  }

  // ---------------------------------------------------------------------
  // requireAuth

  datatype Gate = Next | RedirectTo(location: string)

  /** `requireAuth`: the protected handler runs iff the request carries an
      authenticated session; otherwise the client is sent to the login
      page. */
  function RequireAuth(session: Option<Session>): (g: Gate)
    ensures g == Next <==> IsAuthenticated(session)
    ensures g != Next ==> g == RedirectTo(LoginPath)
  {
    if IsAuthenticated(session) then Next else RedirectTo(LoginPath)
  }

  // ---------------------------------------------------------------------
  // POST /api/login

  datatype LoginReply =
    | LoginOk                                 // 200 { success: true }
    | LoginRejected(status: int, message: string)
    | LoginFailed(status: int)                // the comparison threw

  datatype LoginResult = LoginResult(session: Session, reply: LoginReply)

  /** `POST /api/login` with the body's `username` and `password` (None when
      absent), the configured user name and password hash, and the bcrypt
      comparison `verify(password, hash)`, which is foreign and supplied.
      bcrypt's `compareSync` throws when the password is not a string, and
      express answers a thrown error with status 500. */
  function Login(session: Session, username: Option<string>, password: Option<string>,
                 configuredUser: string, passwordHash: string,
                 verify: (string, string) -> bool): (r: LoginResult)
    ensures r.reply == LoginOk <==>
      username == Some(configuredUser) && password.Some? && verify(password.value, passwordHash)
    ensures r.reply == LoginOk ==> r.session == Session(true, username)
    ensures r.reply != LoginOk ==> r.session == session
    ensures r.reply.LoginRejected? ==> r.reply == LoginRejected(401, LoginFailedMessage)
    ensures r.reply.LoginFailed? <==> username == Some(configuredUser) && password.None?
  {
    if username != Some(configuredUser) then
      LoginResult(session, LoginRejected(401, LoginFailedMessage))
    else if password.None? then
      LoginResult(session, LoginFailed(500))
    else if verify(password.value, passwordHash) then
      LoginResult(session.(authenticated := true, username := username), LoginOk)
    else
      LoginResult(session, LoginRejected(401, LoginFailedMessage))
  }

  // ---------------------------------------------------------------------
  // server.on('upgrade')

  /** What the upgrade handler does with the raw socket: the strings it
      writes, whether it destroys it, and whether the socket becomes a
      terminal connection. */
  datatype UpgradeOutcome = UpgradeOutcome(written: seq<string>, destroyed: bool, terminal: bool)

  /** The upgrade decision, taken after the session has been parsed. No
      upgrade is passed on to the backend: anything but the terminal path is
      destroyed. */
  function RouteUpgrade(session: Option<Session>, url: string): (r: UpgradeOutcome)
    ensures !IsAuthenticated(session) ==> r == UpgradeOutcome([UnauthorizedResponse], true, false)
    ensures r.terminal <==> IsAuthenticated(session) && url == TerminalPath
    ensures r.terminal ==> r.written == [] && !r.destroyed
    ensures IsAuthenticated(session) && url != TerminalPath ==> r == UpgradeOutcome([], true, false)
    ensures !r.terminal ==> r.destroyed
  {
    if !IsAuthenticated(session) then UpgradeOutcome([UnauthorizedResponse], true, false)
    else if url == TerminalPath then UpgradeOutcome([], false, true)
    else UpgradeOutcome([], true, false)
  }

  /** The upgrade handler and `requireAuth` guard with the same test: a
      terminal connection is only ever made for a session that would pass
      `requireAuth`, and a session it would redirect gets the 401 on every
      upgrade path. */
  lemma UpgradeGuardAgreesWithRequireAuth(session: Option<Session>, url: string)
    ensures RouteUpgrade(session, url).terminal ==> RequireAuth(session) == Next
    ensures RequireAuth(session) != Next <==> RouteUpgrade(session, url).written == [UnauthorizedResponse]
  {
  }

  /** A successful login makes the session pass `requireAuth` and get a
      terminal connection on the terminal path. */
  lemma LoginOpensTerminal(session: Session, username: Option<string>, password: Option<string>,
                           configuredUser: string, passwordHash: string,
                           verify: (string, string) -> bool)
    requires Login(session, username, password, configuredUser, passwordHash, verify).reply == LoginOk
    ensures var s := Login(session, username, password, configuredUser, passwordHash, verify).session;
      RequireAuth(Some(s)) == Next && RouteUpgrade(Some(s), TerminalPath).terminal
  {
  }

  /** A failed login leaves what the guards decide for the session as it
      was. */
  lemma FailedLoginKeepsGuard(session: Session, username: Option<string>, password: Option<string>,
                              configuredUser: string, passwordHash: string,
                              verify: (string, string) -> bool, url: string)
    requires Login(session, username, password, configuredUser, passwordHash, verify).reply != LoginOk
    ensures var s := Login(session, username, password, configuredUser, passwordHash, verify).session;
      RequireAuth(Some(s)) == RequireAuth(Some(session))
      && RouteUpgrade(Some(s), url) == RouteUpgrade(Some(session), url)
  {
  }

  // ---------------------------------------------------------------------
  // GET /api/openclaw-status

  /** What completes the probe request: a response with its status code, a
      request error, or the 2000 ms socket timeout. */
  datatype ProbeEvent = GotResponse(statusCode: int) | GotError | GotTimeout

  /** The JSON the handler answers, `{ running, status }`. */
  datatype StatusReply = StatusReply(running: bool, status: Option<int>)

  /** The answer of one completion callback. */
  function ReplyFor(e: ProbeEvent): (r: StatusReply)
    ensures r.running <==> e.GotResponse?
    ensures r.status.Some? <==> e.GotResponse?
    ensures e.GotResponse? ==> r.status == Some(e.statusCode)
  {
    match e
    case GotResponse(code) => StatusReply(true, Some(code))
    case GotError => StatusReply(false, None)
    case GotTimeout => StatusReply(false, None)
  }

  /** What one `res.json` call does. The first one sends the answer. A later
      one finds the headers already sent, so setting `Content-Type` throws
      ERR_HTTP_HEADERS_SENT inside the completion callback, where nothing
      in the handler catches it. */
  datatype JsonCall = Answered(reply: StatusReply) | ThrewHeadersSent

  /** The `res.json` calls of the completion callbacks that run, once the
      response's headers are or are not already sent. */
  function JsonCalls(headersSent: bool, events: seq<ProbeEvent>): (cs: seq<JsonCall>)
    ensures |cs| == |events|
    ensures events != [] && !headersSent ==> cs[0] == Answered(ReplyFor(events[0]))
    ensures forall i :: 0 <= i < |cs| && (headersSent || i > 0) ==> cs[i] == ThrewHeadersSent
    decreases |events|
  {
    if events == [] then []
    else
      var call := if headersSent then ThrewHeadersSent else Answered(ReplyFor(events[0]));
      [call] + JsonCalls(true, events[1..])
  }

  /** The handler as written: every completion callback that runs calls
      `res.json`, with nothing to stop a second call. */
  function RepliesAsWritten(events: seq<ProbeEvent>): (cs: seq<JsonCall>)
    ensures |cs| == |events|
    ensures events != [] ==> cs[0] == Answered(ReplyFor(events[0]))
    ensures forall i :: 1 <= i < |cs| ==> cs[i] == ThrewHeadersSent
  {
    JsonCalls(false, events)
  }

  /** The replies that reach the client, in order. */
  function Answers(cs: seq<JsonCall>): seq<StatusReply>
  {
    if cs == [] then []
    else (if cs[0].Answered? then [cs[0].reply] else []) + Answers(cs[1..])
  }

  /** The timeout callback destroys the request, and Node then reports the
      destroyed request through its `error` event: the handler as written
      calls `res.json` a second time, and that call throws. */
  lemma TimeoutCallsJsonTwice()
    ensures RepliesAsWritten([GotTimeout, GotError]) == [Answered(StatusReply(false, None)), ThrewHeadersSent]
  {
  }

  /** The handler with a guard that lets only the first completion answer. */
  function StatusReplies(events: seq<ProbeEvent>): (rs: seq<StatusReply>)
    ensures |rs| == if events == [] then 0 else 1
    ensures events != [] ==> rs[0] == ReplyFor(events[0])
  {
    if events == [] then [] else [ReplyFor(events[0])]
  }

  /** Every call after the first throws, so it sends nothing. */
  lemma {:induction false} ThrowsAnswerNothing(events: seq<ProbeEvent>)
    ensures Answers(JsonCalls(true, events)) == []
    decreases |events|
  {
    if events != [] {
      var cs := JsonCalls(true, events);
      assert cs[1..] == JsonCalls(true, events[1..]);
      ThrowsAnswerNothing(events[1..]);
    }
  }

  /** The guarded handler sends the client exactly what the handler as
      written sends, and the handler as written throws exactly when more
      than one completion runs. */
  lemma GuardKeepsFirstAnswer(events: seq<ProbeEvent>)
    ensures StatusReplies(events) == Answers(RepliesAsWritten(events))
    ensures ThrewHeadersSent in RepliesAsWritten(events) <==> |events| >= 2
  {
    var cs := RepliesAsWritten(events);
    if events != [] {
      assert cs[1..] == JsonCalls(true, events[1..]);
      ThrowsAnswerNothing(events[1..]);
    }
    if |events| >= 2 {
      assert cs[1] == ThrewHeadersSent;
    }
  }

  // ---------------------------------------------------------------------
  // pathRewrite { '^/openclaw': '' }

  predicate HasMountPrefix(path: string)
  {
    |path| >= |MountPrefix| && path[..|MountPrefix|] == MountPrefix
  }

  /** Replace a leading `/openclaw` by nothing; other paths pass as they
      are. */
  function StripMount(path: string): (r: string)
    ensures HasMountPrefix(path) ==> MountPrefix + r == path
    ensures !HasMountPrefix(path) ==> r == path
  {
    if HasMountPrefix(path) then path[|MountPrefix|..] else path
  }

  /** The rewrite removes exactly the prefix it is given. */
  lemma StripMountPrefixed(rest: string)
    ensures StripMount(MountPrefix + rest) == rest
  {
    assert (MountPrefix + rest)[..|MountPrefix|] == MountPrefix;
  }
}
