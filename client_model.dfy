/** The browser-side terminal controller of the admin panel
    (public/js/terminal.js) as a state machine over values: one function per
    handler, and the properties of the reconnect policy proved about them. */
module ClientModel {
  import opened Frames
  import Decimal

  const MaxReconnectAttempts := 10
  const BaseDelayMs := 1000
  const MaxDelayMs := 15000

  /** `WebSocket.readyState`. */
  datatype ReadyState = Connecting | Open | Closing | Closed

  /** What `fitAddon.proposeDimensions()` returns when it returns something. */
  datatype Dims = Dims(cols: int, rows: int)

  /** The page's module-level state, with what it has written and sent.
      `ws` is None while the variable is still null; `reconnectTimer` holds the
      delay a pending timer was armed with; `screen` lists the writes to the
      terminal in order;
      `sent` lists the frames sent, in order; `sockets` counts the WebSocket
      objects created. */
  datatype ClientState = ClientState(
    ws: Option<ReadyState>,
    reconnectAttempts: nat,
    reconnectTimer: Option<nat>,
    screen: seq<TermWrite>,
    sent: seq<Frame>,
    sockets: nat)

  /** The browser events the page reacts to. */
  datatype Event =
    | Opened(dims: Option<Dims>)        // ws.onopen; dims as proposed then
    | Received(m: Message)              // ws.onmessage
    | StartedClosing                    // readyState becomes CLOSING, no handler runs
    | Errored                           // ws.onerror
    | ClosedSocket                      // ws.onclose
    | TimerFired                        // the reconnect timeout runs
    | Typed(data: string)               // term.onData
    | WindowResized(dims: Option<Dims>) // handleResize, dims as proposed then

  /** One call of `term.write` or `term.writeln` by the page. */
  datatype TermWrite =
    | Write(data: string)           // term.write(data)
    | ExitNotice                    // the notice that the process ended
    | ReconnectNotice(seconds: nat) // the notice of a scheduled reconnect
    | ReloadNotice                  // the notice to reload the page

  /** `term.writeln(s)` writes `s` and then CR LF. */
  function Line(s: string): string { s + "\r\n" }

  /** The characters each write puts on the terminal. */
  function Text(w: TermWrite): string
  {
    match w
    case Write(data) => data
    case ExitNotice => Line("\r\n[Proceso terminado]")
    case ReconnectNotice(seconds) => Line("\r\n[Reconectando en " + Decimal.Show(seconds) + "s...]")
    case ReloadNotice => Line("\r\n[No se pudo reconectar. Recarga la pagina.]")
  }

  function Pow2(k: nat): (p: nat)
    ensures p >= 1
  {
    if k == 0 then 1 else 2 * Pow2(k - 1)
  }

  function Min(a: int, b: int): int { if a <= b then a else b }

  /** `Math.min(1000 * Math.pow(2, n - 1), 15000)` for the n-th attempt. */
  function Delay(n: nat): nat
    requires n >= 1
  {
    Min(BaseDelayMs * Pow2(n - 1), MaxDelayMs)
  }

  /** `Math.round(delay / 1000)` for a non-negative delay. */
  function Seconds(delay: nat): nat
  {
    (2 * delay + 1000) / 2000
  }

  /** The state right after the page's script ran: variables initialised,
      then `connectWebSocket()` called once. */
  function Start(): ClientState
  {
    Connect(ClientState(None, 0, None, [], [], 0))
  }

  /** `connectWebSocket`: a new socket unless the current one is CONNECTING
      or OPEN. */
  function Connect(c: ClientState): ClientState
  {
    if c.ws == Some(Connecting) || c.ws == Some(Open) then c
    else c.(ws := Some(Connecting), sockets := c.sockets + 1)
  }

  /** `scheduleReconnect`. */
  function ScheduleReconnect(c: ClientState): ClientState
  {
    if c.reconnectTimer.Some? then c
    else if c.reconnectAttempts >= MaxReconnectAttempts then
      c.(screen := c.screen + [ReloadNotice])
    else
      var n := c.reconnectAttempts + 1;
      var delay := Delay(n);
      c.(reconnectAttempts := n,
         reconnectTimer := Some(delay),
         screen := c.screen + [ReconnectNotice(Seconds(delay))])
  }

  /** `ws.onopen`. */
  function OnOpen(c: ClientState, dims: Option<Dims>): ClientState
  {
    var c' := c.(ws := Some(Open), reconnectAttempts := 0);
    if dims.Some? then c'.(sent := c.sent + [Resize(dims.value.cols, dims.value.rows)]) else c'
  }

  /** `ws.onmessage`: `output` is written, `exit` prints a notice and
      schedules a reconnect, any other type is ignored, and data that did
      not parse is written as it came. */
  function OnMessage(c: ClientState, m: Message): ClientState
  {
    match m
    case Unparseable(raw) => c.(screen := c.screen + [Write(raw)])
    case Parsed(kind, data, _, _, _) =>
      if kind == OutputType then c.(screen := c.screen + [Write(data)])
      else if kind == ExitType then ScheduleReconnect(c.(screen := c.screen + [ExitNotice]))
      else c
  }

  /** `ws.onclose`. */
  function OnClose(c: ClientState): ClientState
  {
    ScheduleReconnect(c.(ws := Some(Closed)))
  }

  /** The timeout armed by `scheduleReconnect`. */
  function OnTimer(c: ClientState): ClientState
  {
    Connect(c.(reconnectTimer := None))
  }

  /** `term.onData`: an `input` frame, only on an open socket. */
  function OnData(c: ClientState, data: string): ClientState
  {
    if c.ws == Some(Open) then c.(sent := c.sent + [Input(data)]) else c
  }

  /** `handleResize`: a `resize` frame, only with dimensions and an open
      socket. */
  function HandleResize(c: ClientState, dims: Option<Dims>): ClientState
  {
    if dims.Some? && c.ws == Some(Open) then
      c.(sent := c.sent + [Resize(dims.value.cols, dims.value.rows)])
    else c
  }

  /** Whether the browser can deliver `e` in state `c`. */
  predicate Enabled(c: ClientState, e: Event)
  {
    match e
    case Opened(_) => c.ws == Some(Connecting)
    case Received(_) => c.ws == Some(Open) || c.ws == Some(Closing)
    case StartedClosing => c.ws == Some(Open)
    case Errored => c.ws.Some? && c.ws != Some(Closed)
    case ClosedSocket => c.ws.Some? && c.ws != Some(Closed)
    case TimerFired => c.reconnectTimer.Some?
    case Typed(_) => true
    case WindowResized(_) => true
  }

  function Step(c: ClientState, e: Event): ClientState
  {
    match e
    case Opened(dims) => OnOpen(c, dims)
    case Received(m) => OnMessage(c, m)
    case StartedClosing => c.(ws := Some(Closing))
    case Errored => c
    case ClosedSocket => OnClose(c)
    case TimerFired => OnTimer(c)
    case Typed(data) => OnData(c, data)
    case WindowResized(dims) => HandleResize(c, dims)
  }

  /** A sequence of events each of which the browser can deliver when it
      comes. */
  predicate Trace(c: ClientState, es: seq<Event>)
    decreases |es|
  {
    es == [] || (Enabled(c, es[0]) && Trace(Step(c, es[0]), es[1..]))
  }

  function Run(c: ClientState, es: seq<Event>): ClientState
    decreases |es|
  {
    if es == [] then c else Run(Step(c, es[0]), es[1..])
  }

  /** The invariant of the reconnect policy: the counter stays within the
      maximum, and a pending timer belongs to an attempt already counted,
      carries that attempt's delay, and never coexists with a connecting
      socket. */
  predicate Valid(c: ClientState)
  {
    && c.reconnectAttempts <= MaxReconnectAttempts
    && (c.reconnectTimer.Some? ==>
          && c.reconnectAttempts >= 1
          && c.reconnectTimer.value == Delay(c.reconnectAttempts)
          && c.ws != Some(Connecting))
  }

  // ---------------------------------------------------------------------
  // The delay sequence

  lemma {:induction false} Pow2AtLeast(k: nat)
    requires k >= 4
    ensures Pow2(k) >= 16
  {
    if k > 4 {
      Pow2AtLeast(k - 1);
    }
  }

  /** Attempts 1 to 4 wait 1, 2, 4 and 8 seconds; every later attempt waits
      the 15-second cap. */
  lemma DelaySchedule(n: nat)
    requires n >= 1
    ensures n == 1 ==> Delay(n) == 1000
    ensures n == 2 ==> Delay(n) == 2000
    ensures n == 3 ==> Delay(n) == 4000
    ensures n == 4 ==> Delay(n) == 8000
    ensures n >= 5 ==> Delay(n) == 15000
  {
    if n >= 5 {
      Pow2AtLeast(n - 1);
    }
  }

  /** The ten delays the policy can ever use. */
  lemma TenDelays()
    ensures seq(10, i requires 0 <= i < 10 => Delay(i + 1))
         == [1000, 2000, 4000, 8000, 15000, 15000, 15000, 15000, 15000, 15000]
  {
    DelaySchedule(1); DelaySchedule(2); DelaySchedule(3); DelaySchedule(4); DelaySchedule(5);
    DelaySchedule(6); DelaySchedule(7); DelaySchedule(8); DelaySchedule(9); DelaySchedule(10);
  }

  /** Every delay is a whole number of seconds, and the notice shows that
      number: the rounding in it never changes the value. */
  lemma DisplayedSeconds(n: nat)
    requires n >= 1
    ensures Delay(n) % 1000 == 0
    ensures Seconds(Delay(n)) == Delay(n) / 1000
    ensures Seconds(Delay(n)) in {1, 2, 4, 8, 15}
  {
    DelaySchedule(n);
  }

  /** The notice for attempt `n` names the delay in whole seconds, so the
      first one reads "1s" and the capped ones read "15s". */
  lemma NoticeText(n: nat)
    requires n >= 1
    ensures n == 1 ==> Text(ReconnectNotice(Seconds(Delay(n)))) == "\r\n[Reconectando en 1s...]\r\n"
    ensures n >= 5 ==> Text(ReconnectNotice(Seconds(Delay(n)))) == "\r\n[Reconectando en 15s...]\r\n"
  {
    DelaySchedule(n);
    assert Decimal.Show(1) == "1";
    assert Decimal.Show(15) == "15";
  }

  // ---------------------------------------------------------------------
  // Single handlers

  /** `connectWebSocket` creates no socket while one is CONNECTING or OPEN,
      and exactly one otherwise. */
  lemma ConnectGuard(c: ClientState)
    ensures c.ws == Some(Connecting) || c.ws == Some(Open) ==> Connect(c) == c
    ensures !(c.ws == Some(Connecting) || c.ws == Some(Open)) ==>
              Connect(c).sockets == c.sockets + 1 && Connect(c).ws == Some(Connecting)
  {
  }

  /** With a timer pending, `scheduleReconnect` changes nothing. */
  lemma PendingScheduleIsNoop(c: ClientState)
    requires c.reconnectTimer.Some?
    ensures ScheduleReconnect(c) == c
  {
  }

  /** Once the attempts are used up, `scheduleReconnect` arms no timer and
      leaves the counter alone; it only writes the reload notice. */
  lemma ExhaustedScheduleOnlyNotifies(c: ClientState)
    requires c.reconnectTimer.None? && c.reconnectAttempts >= MaxReconnectAttempts
    ensures ScheduleReconnect(c) == c.(screen := c.screen + [ReloadNotice])
  {
  }

  /** An armed reconnect counts exactly one more attempt and uses that
      attempt's delay. */
  lemma ArmedScheduleCountsOne(c: ClientState)
    requires c.reconnectTimer.None? && c.reconnectAttempts < MaxReconnectAttempts
    ensures var c' := ScheduleReconnect(c);
      && c'.reconnectAttempts == c.reconnectAttempts + 1
      && c'.reconnectTimer == Some(Delay(c'.reconnectAttempts))
      && c'.screen == c.screen + [ReconnectNotice(Seconds(Delay(c'.reconnectAttempts)))]
      && c'.ws == c.ws && c'.sent == c.sent && c'.sockets == c.sockets
  {
  }

  /** An open resets the counter and sends one `resize` frame exactly when
      dimensions are available. */
  lemma OpenResets(c: ClientState, dims: Option<Dims>)
    ensures OnOpen(c, dims).reconnectAttempts == 0
    ensures OnOpen(c, dims).ws == Some(Open)
    ensures OnOpen(c, dims).sent ==
      if dims.Some? then c.sent + [Resize(dims.value.cols, dims.value.rows)] else c.sent
  {
  }

  /** Frames are only appended, at most one per event, each an `input` or a
      `resize` frame, and no frame is sent unless the socket is open
      afterwards (the `resize` of `onopen`) or was open already (input and
      window resizes). */
  lemma SentOnlyWhenOpen(c: ClientState, e: Event)
    ensures var c' := Step(c, e);
      && |c.sent| <= |c'.sent| <= |c.sent| + 1
      && c'.sent[..|c.sent|] == c.sent
      && (|c'.sent| > |c.sent| ==> c'.ws == Some(Open) && (e.Opened? || c.ws == Some(Open)))
      && (|c'.sent| > |c.sent| ==> c'.sent[|c.sent|].Input? || c'.sent[|c.sent|].Resize?)
  {
  }

  /** Typed input goes out as an `input` frame exactly when the socket is
      open. */
  lemma InputSentIffOpen(c: ClientState, data: string)
    ensures OnData(c, data).sent == c.sent + [Input(data)] <==> c.ws == Some(Open)
    ensures c.ws != Some(Open) ==> OnData(c, data) == c
  {
    if OnData(c, data).sent == c.sent + [Input(data)] {
      assert |OnData(c, data).sent| != |c.sent|;
    }
  }

  /** A window resize sends a frame if and only if dimensions are available
      and the socket is OPEN; that frame is one `resize` frame with exactly
      those dimensions. Without dimensions nothing changes. */
  lemma ResizeSentIffDimsAndOpen(c: ClientState, dims: Option<Dims>)
    ensures HandleResize(c, dims).sent != c.sent <==> dims.Some? && c.ws == Some(Open)
    ensures dims.Some? && c.ws == Some(Open) ==>
      HandleResize(c, dims) == c.(sent := c.sent + [Resize(dims.value.cols, dims.value.rows)])
    ensures dims.None? ==> HandleResize(c, dims) == c
    ensures c.ws != Some(Open) ==> HandleResize(c, dims) == c
  {
    if dims.Some? && c.ws == Some(Open) {
      assert |HandleResize(c, dims).sent| != |c.sent|;
    }
  }

  /** Message dispatch: what each kind of message does to the state. */
  lemma MessageDispatch(c: ClientState, m: Message)
    ensures m.Unparseable? ==> OnMessage(c, m) == c.(screen := c.screen + [Write(m.raw)])
    ensures m.Parsed? && m.kind == OutputType ==> OnMessage(c, m) == c.(screen := c.screen + [Write(m.data)])
    ensures m.Parsed? && m.kind == ExitType ==>
      OnMessage(c, m) == ScheduleReconnect(c.(screen := c.screen + [ExitNotice]))
    ensures m.Parsed? && m.kind != OutputType && m.kind != ExitType ==> OnMessage(c, m) == c
  {
  }

  /** An `exit` frame followed by the socket's close schedules exactly one
      reconnect: the close finds the timer the exit armed. */
  lemma ExitThenCloseSchedulesOnce(c: ClientState, m: Message)
    requires Valid(c) && c.reconnectTimer.None?
    requires c.reconnectAttempts < MaxReconnectAttempts
    requires m.Parsed? && m.kind == ExitType
    ensures var n := c.reconnectAttempts + 1;
      var c' := OnClose(OnMessage(c, m));
      && c'.reconnectAttempts == n
      && c'.reconnectTimer == Some(Delay(n))
      && c'.screen == c.screen + [ExitNotice, ReconnectNotice(Seconds(Delay(n)))]
      && c'.ws == Some(Closed) && c'.sockets == c.sockets && c'.sent == c.sent
  {
  }

  // ---------------------------------------------------------------------
  // Invariants over runs

  lemma StepValid(c: ClientState, e: Event)
    requires Valid(c) && Enabled(c, e)
    ensures Valid(Step(c, e))
  {
  }

  lemma {:induction false} RunValid(c: ClientState, es: seq<Event>)
    requires Valid(c) && Trace(c, es)
    ensures Valid(Run(c, es))
    decreases |es|
  {
    if es != [] {
      StepValid(c, es[0]);
      RunValid(Step(c, es[0]), es[1..]);
    }
  }

  /** Whatever the browser delivers, the attempt counter never exceeds the
      maximum of 10. */
  lemma AttemptsNeverExceedMax(es: seq<Event>)
    requires Trace(Start(), es)
    ensures Run(Start(), es).reconnectAttempts <= MaxReconnectAttempts
  {
    RunValid(Start(), es);
  }

  // ---------------------------------------------------------------------
  // Ten failed reconnects

  /** `k` failed connection attempts: each socket closes, then the timer
      fires. */
  function Failures(k: nat): seq<Event>
  {
    if k == 0 then [] else [ClosedSocket, TimerFired] + Failures(k - 1)
  }

  /** The reconnect notices of attempts `from + 1` to `from + k`. */
  function NoticesAfter(from: nat, k: nat): seq<TermWrite>
    decreases k
  {
    if k == 0 then [] else [ReconnectNotice(Seconds(Delay(from + 1)))] + NoticesAfter(from + 1, k - 1)
  }

  /** One failed connection: the socket closes, then the timer fires. */
  lemma OneFailure(c: ClientState)
    requires c.ws == Some(Connecting) && c.reconnectTimer.None?
    requires c.reconnectAttempts < MaxReconnectAttempts
    ensures Enabled(c, ClosedSocket) && Enabled(Step(c, ClosedSocket), TimerFired)
    ensures Step(Step(c, ClosedSocket), TimerFired) ==
      c.(reconnectAttempts := c.reconnectAttempts + 1,
         sockets := c.sockets + 1,
         screen := c.screen + [ReconnectNotice(Seconds(Delay(c.reconnectAttempts + 1)))])
  {
  }

  lemma RunTwo(c: ClientState, e1: Event, e2: Event, rest: seq<Event>)
    ensures Run(c, [e1, e2] + rest) == Run(Step(Step(c, e1), e2), rest)
    ensures Trace(c, [e1, e2] + rest) <==>
      Enabled(c, e1) && Enabled(Step(c, e1), e2) && Trace(Step(Step(c, e1), e2), rest)
  {
    var es := [e1, e2] + rest;
    assert es[0] == e1 && es[1..] == [e2] + rest;
    assert ([e2] + rest)[0] == e2 && ([e2] + rest)[1..] == rest;
  }

  lemma {:induction false} FailuresTrace(c: ClientState, k: nat)
    requires c.ws == Some(Connecting) && c.reconnectTimer.None?
    requires c.reconnectAttempts + k <= MaxReconnectAttempts
    ensures Trace(c, Failures(k))
    decreases k
  {
    if k > 0 {
      OneFailure(c);
      RunTwo(c, ClosedSocket, TimerFired, Failures(k - 1));
      FailuresTrace(Step(Step(c, ClosedSocket), TimerFired), k - 1);
    }
  }

  lemma {:induction false} FailuresRun(c: ClientState, k: nat)
    requires c.ws == Some(Connecting) && c.reconnectTimer.None?
    requires c.reconnectAttempts + k <= MaxReconnectAttempts
    ensures Run(c, Failures(k)) ==
      c.(reconnectAttempts := c.reconnectAttempts + k,
         sockets := c.sockets + k,
         screen := c.screen + NoticesAfter(c.reconnectAttempts, k))
    decreases k
  {
    if k > 0 {
      OneFailure(c);
      var c2 := Step(Step(c, ClosedSocket), TimerFired);
      RunTwo(c, ClosedSocket, TimerFired, Failures(k - 1));
      FailuresRun(c2, k - 1);
      var n := ReconnectNotice(Seconds(Delay(c.reconnectAttempts + 1)));
      assert NoticesAfter(c.reconnectAttempts, k) == [n] + NoticesAfter(c2.reconnectAttempts, k - 1);
      AppendAssoc(c.screen, [n], NoticesAfter(c2.reconnectAttempts, k - 1));
    }
  }

  /** A state in which the controller has given up: the last socket is
      closed, no timer is pending and the attempts are used up. */
  predicate GaveUp(c: ClientState)
  {
    c.ws == Some(Closed) && c.reconnectTimer.None? && c.reconnectAttempts >= MaxReconnectAttempts
  }

  lemma {:induction false} GaveUpIsFinal(c: ClientState, es: seq<Event>)
    requires GaveUp(c) && Trace(c, es)
    ensures GaveUp(Run(c, es))
    ensures Run(c, es).sockets == c.sockets
    decreases |es|
  {
    if es != [] {
      GaveUpIsFinal(Step(c, es[0]), es[1..]);
    }
  }

  /** From a fresh connection with `k` attempts left, `k` failed
      connections and the close of the last socket use up the attempts,
      show their notices and then the reload notice, and leave the
      controller given up: whatever the browser delivers afterwards, no
      further socket is created. */
  lemma FailuresThenStop(c: ClientState, k: nat, es: seq<Event>)
    requires c.ws == Some(Connecting) && c.reconnectTimer.None?
    requires c.reconnectAttempts + k == MaxReconnectAttempts
    requires Trace(Run(c, Failures(k) + [ClosedSocket]), es)
    ensures Trace(c, Failures(k) + [ClosedSocket])
    ensures var c' := Run(c, Failures(k) + [ClosedSocket]);
      && GaveUp(c')
      && c'.reconnectAttempts == MaxReconnectAttempts
      && c'.sockets == c.sockets + k
      && c'.screen == c.screen + NoticesAfter(c.reconnectAttempts, k) + [ReloadNotice]
      && Run(c', es).sockets == c.sockets + k
  {
    var f := Failures(k);
    FailuresRun(c, k);
    FailuresTrace(c, k);
    var ck := Run(c, f);
    var close: seq<Event> := [ClosedSocket];
    assert Run(ck, close) == OnClose(ck);
    assert Trace(ck, close);
    RunAppend(c, f, close);
    TraceAppend(c, f, close);
    ExhaustedScheduleOnlyNotifies(ck.(ws := Some(Closed)));
    var c' := Run(c, f + close);
    assert c' == ck.(ws := Some(Closed), screen := ck.screen + [ReloadNotice]);
    GaveUpIsFinal(c', es);
  }

  /** From page load: ten failed reconnects, 11 sockets in all, the ten
      notices and the reload notice, and no 11th attempt whatever follows. */
  lemma TenFailuresThenStop(h: seq<Event>, es: seq<Event>)
    requires h == Failures(10) + [ClosedSocket]
    requires Trace(Run(Start(), h), es)
    ensures Trace(Start(), h)
    ensures var c := Run(Start(), h);
      && GaveUp(c)
      && c.reconnectAttempts == 10
      && c.sockets == 11
      && c.screen == NoticesAfter(0, 10) + [ReloadNotice]
      && Run(c, es).sockets == 11
  {
    var s := Start();
    assert s.ws == Some(Connecting) && s.reconnectTimer.None?;
    assert s.reconnectAttempts == 0 && s.sockets == 1 && s.screen == [];
    FailuresThenStop(s, 10, es);
    assert s.screen + NoticesAfter(0, 10) == NoticesAfter(0, 10);
  }

  lemma {:induction false} RunAppend(c: ClientState, a: seq<Event>, b: seq<Event>)
    ensures Run(c, a + b) == Run(Run(c, a), b)
    decreases |a|
  {
    if a == [] {
      assert a + b == b;
    } else {
      assert (a + b)[0] == a[0];
      assert (a + b)[1..] == a[1..] + b;
      RunAppend(Step(c, a[0]), a[1..], b);
    }
  }

  lemma {:induction false} TraceAppend(c: ClientState, a: seq<Event>, b: seq<Event>)
    requires Trace(c, a) && Trace(Run(c, a), b)
    ensures Trace(c, a + b)
    decreases |a|
  {
    if a == [] {
      assert a + b == b;
    } else {
      assert (a + b)[0] == a[0];
      assert (a + b)[1..] == a[1..] + b;
      TraceAppend(Step(c, a[0]), a[1..], b);
    }
  }
}
