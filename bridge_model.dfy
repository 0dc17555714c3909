/** The per-connection terminal bridge of admin-panel/server.js
    (`wss.on('connection', ...)`) over values: the pty is a shell record, the
    WebSocket a log of the frames sent and a ready state. */
module BridgeModel {
  import opened Frames

  const ShellFile := "bash"
  const TermName := "xterm-256color"
  const DefaultCols := 80
  const DefaultRows := 24
  const FallbackHome := "/home/ubuntu"

  /** The spawned pty as the bridge sees it: how it was spawned, its
      geometry, everything written to its input in order, and whether it was
      killed. */
  datatype Shell = Shell(
    file: string,
    args: seq<string>,
    name: string,
    cwd: string,
    env: map<string, string>,
    cols: int,
    rows: int,
    input: seq<string>,
    killed: bool)

  /** The server-side `ws.readyState` after the handshake. */
  datatype SocketState = Open | Closing | Closed

  datatype ChannelState = ChannelState(shell: Shell, sent: seq<Frame>, socket: SocketState)

  /** What can happen to a channel. */
  datatype Event =
    | Incoming(m: Message)     // ws 'message'
    | ShellOutput(data: string) // shell.onData
    | ShellExited(exitCode: int) // shell.onExit
    | SocketClosed              // ws 'close'

  /** `process.env.HOME || '/home/ubuntu'`: an empty HOME counts as unset. */
  function HomeDir(env: map<string, string>): string
  {
    if "HOME" in env && env["HOME"] != "" then env["HOME"] else FallbackHome
  }

  /** The state of a new connection: `pty.spawn('bash', [], ...)` with the
      process environment plus `TERM`, nothing sent yet. */
  function Spawn(env: map<string, string>): (ch: ChannelState)
    ensures ch.shell.cols == 80 && ch.shell.rows == 24
    ensures ch.shell.env.Keys == env.Keys + {"TERM"} && ch.shell.env["TERM"] == TermName
    ensures forall k :: k in env && k != "TERM" ==> ch.shell.env[k] == env[k]
    ensures ch.shell.input == [] && !ch.shell.killed && ch.sent == [] && ch.socket == Open
  {
    ChannelState(
      Shell(ShellFile, [], TermName, HomeDir(env), env["TERM" := TermName],
            DefaultCols, DefaultRows, [], false),
      [], Open)
  }

  /** `shell.write(s)`. */
  function Write(ch: ChannelState, s: string): ChannelState
  {
    ch.(shell := ch.shell.(input := ch.shell.input + [s]))
  }

  /** The 'message' handler: `input` writes its data, `resize` sets the
      geometry, other types do nothing, and a message that did not parse is
      written to the shell as it came. */
  function OnMessage(ch: ChannelState, m: Message): ChannelState
  {
    match m
    case Unparseable(raw) => Write(ch, raw)
    case Parsed(kind, data, cols, rows, _) =>
      if kind == InputType then Write(ch, data)
      else if kind == ResizeType then ch.(shell := ch.shell.(cols := cols, rows := rows))
      else ch
  }

  /** `shell.onData`: an `output` frame; a send on a socket that is no longer
      open delivers nothing and throws nothing that escapes. */
  function OnShellOutput(ch: ChannelState, data: string): ChannelState
  {
    if ch.socket == Open then ch.(sent := ch.sent + [Output(data)]) else ch
  }

  /** `shell.onExit`: an `exit` frame, then `ws.close()`. */
  function OnShellExit(ch: ChannelState, exitCode: int): ChannelState
  {
    if ch.socket == Open then ch.(sent := ch.sent + [Exit(exitCode)], socket := Closing) else ch
  }

  /** The 'close' handler: `shell.kill()`. */
  function OnSocketClosed(ch: ChannelState): ChannelState
  {
    ch.(socket := Closed, shell := ch.shell.(killed := true))
  }

  /** Messages and the close event come only from a socket that has not
      emitted 'close'; the shell's events can come at any time. */
  predicate Enabled(ch: ChannelState, e: Event)
  {
    match e
    case Incoming(_) => ch.socket != Closed
    case ShellOutput(_) => true
    case ShellExited(_) => true
    case SocketClosed => ch.socket != Closed
  }

  function Step(ch: ChannelState, e: Event): ChannelState
  {
    match e
    case Incoming(m) => OnMessage(ch, m)
    case ShellOutput(data) => OnShellOutput(ch, data)
    case ShellExited(code) => OnShellExit(ch, code)
    case SocketClosed => OnSocketClosed(ch)
  }

  predicate Trace(ch: ChannelState, es: seq<Event>)
    decreases |es|
  {
    es == [] || (Enabled(ch, es[0]) && Trace(Step(ch, es[0]), es[1..]))
  }

  function Run(ch: ChannelState, es: seq<Event>): ChannelState
    decreases |es|
  {
    if es == [] then ch else Run(Step(ch, es[0]), es[1..])
  }

  /** The channel invariant: the server sends only `output` and `exit`
      frames; an `exit` frame is the last frame and the socket is no longer
      open after it; the shell is killed exactly when the socket has
      closed. */
  predicate WellFormed(ch: ChannelState)
  {
    && (forall i :: 0 <= i < |ch.sent| ==> ch.sent[i].Output? || ch.sent[i].Exit?)
    && (forall i :: 0 <= i < |ch.sent| && ch.sent[i].Exit? ==> i == |ch.sent| - 1)
    && (|ch.sent| > 0 && ch.sent[|ch.sent| - 1].Exit? ==> ch.socket != Open)
    && (ch.shell.killed <==> ch.socket == Closed)
  }

  /** The number of `exit` frames in a log. */
  function ExitCount(fs: seq<Frame>): nat
  {
    if fs == [] then 0 else (if fs[0].Exit? then 1 else 0) + ExitCount(fs[1..])
  }

  // ---------------------------------------------------------------------
  // Single events

  /** `resize` sets the geometry and touches nothing else. */
  lemma ResizeSetsGeometryOnly(ch: ChannelState, m: Message)
    requires m.Parsed? && m.kind == ResizeType
    ensures OnMessage(ch, m) == ch.(shell := ch.shell.(cols := m.cols, rows := m.rows))
  {
  }

  /** A parsed message of any type other than `input` and `resize` changes
      nothing; one that did not parse is written raw. */
  lemma OtherMessagesIgnored(ch: ChannelState, m: Message)
    ensures m.Parsed? && m.kind != InputType && m.kind != ResizeType ==> OnMessage(ch, m) == ch
    ensures m.Unparseable? ==> OnMessage(ch, m) == Write(ch, m.raw)
  {
  }

  /** On an open socket, a shell exit sends one `exit` frame carrying the
      code and then closes. */
  lemma ExitSendsThenCloses(ch: ChannelState, code: int)
    requires ch.socket == Open
    ensures OnShellExit(ch, code).sent == ch.sent + [Exit(code)]
    ensures OnShellExit(ch, code).socket == Closing
    ensures OnShellExit(ch, code).shell == ch.shell
  {
  }

  /** The socket's close kills the shell, whatever state the channel is
      in, and changes nothing else about it. */
  lemma CloseKillsShell(ch: ChannelState)
    ensures OnSocketClosed(ch).shell == ch.shell.(killed := true)
    ensures OnSocketClosed(ch).sent == ch.sent
  {
  }

  // ---------------------------------------------------------------------
  // Runs

  lemma StepWellFormed(ch: ChannelState, e: Event)
    requires WellFormed(ch) && Enabled(ch, e)
    ensures WellFormed(Step(ch, e))
  {
    var ch' := Step(ch, e);
    if |ch'.sent| > |ch.sent| {
      assert ch'.sent == ch.sent + [ch'.sent[|ch.sent|]];
    }
  }

  lemma {:induction false} RunWellFormed(ch: ChannelState, es: seq<Event>)
    requires WellFormed(ch) && Trace(ch, es)
    ensures WellFormed(Run(ch, es))
    decreases |es|
  {
    if es != [] {
      StepWellFormed(ch, es[0]);
      RunWellFormed(Step(ch, es[0]), es[1..]);
    }
  }

  lemma {:induction false} ExitOnlyLast(fs: seq<Frame>)
    requires forall i :: 0 <= i < |fs| && fs[i].Exit? ==> i == |fs| - 1
    ensures ExitCount(fs) <= 1
    ensures ExitCount(fs) == 1 <==> |fs| > 0 && fs[|fs| - 1].Exit?
    decreases |fs|
  {
    if fs != [] {
      var t := fs[1..];
      assert forall i :: 0 <= i < |t| && t[i].Exit? ==> i == |t| - 1 by {
        forall i | 0 <= i < |t| && t[i].Exit? ensures i == |t| - 1 {
          assert fs[i + 1] == t[i];
        }
      }
      ExitOnlyLast(t);
      if |fs| > 1 {
        assert fs[|fs| - 1] == t[|t| - 1];
        assert !fs[0].Exit?;
      }
    }
  }

  /** Whatever happens on a channel, it sends at most one `exit` frame, that
      frame is its last, only `output` frames come before it, the socket is
      not open after it, and the shell is killed once the socket has
      closed. */
  lemma ChannelLifecycle(env: map<string, string>, es: seq<Event>)
    requires Trace(Spawn(env), es)
    ensures var ch := Run(Spawn(env), es);
      && WellFormed(ch)
      && ExitCount(ch.sent) <= 1
      && (ExitCount(ch.sent) == 1 ==> ch.sent[|ch.sent| - 1].Exit? && ch.socket != Open)
  {
    RunWellFormed(Spawn(env), es);
    ExitOnlyLast(Run(Spawn(env), es).sent);
  }

  /** What a sequence of messages writes to the shell, in order. */
  function Writes(ms: seq<Message>): seq<string>
  {
    if ms == [] then []
    else
      var w := match ms[0]
        case Unparseable(raw) => [raw]
        case Parsed(kind, data, _, _, _) => if kind == InputType then [data] else [];
      w + Writes(ms[1..])
  }

  function Incomings(ms: seq<Message>): seq<Event>
    ensures |Incomings(ms)| == |ms|
  {
    if ms == [] then [] else [Incoming(ms[0])] + Incomings(ms[1..])
  }

  /** Incoming messages reach the shell's input in arrival order, and they
      send nothing and leave the socket and the kill flag alone. */
  lemma {:induction false} InputInOrder(ch: ChannelState, ms: seq<Message>)
    ensures var ch' := Run(ch, Incomings(ms));
      && ch'.shell.input == ch.shell.input + Writes(ms)
      && ch'.sent == ch.sent && ch'.socket == ch.socket && ch'.shell.killed == ch.shell.killed
    decreases |ms|
  {
    if ms != [] {
      assert Incomings(ms)[0] == Incoming(ms[0]);
      assert Incomings(ms)[1..] == Incomings(ms[1..]);
      var ch1 := OnMessage(ch, ms[0]);
      assert Step(ch, Incomings(ms)[0]) == ch1;
      InputInOrder(ch1, ms[1..]);
      var w := ch1.shell.input[|ch.shell.input|..];
      assert ch1.shell.input == ch.shell.input + w;
      assert Writes(ms) == w + Writes(ms[1..]);
      AppendAssoc(ch.shell.input, w, Writes(ms[1..]));
    }
  }

  function ShellOutputs(ds: seq<string>): seq<Event>
  {
    if ds == [] then [] else [ShellOutput(ds[0])] + ShellOutputs(ds[1..])
  }

  function OutputFrames(ds: seq<string>): (fs: seq<Frame>)
    ensures |fs| == |ds|
    ensures forall i :: 0 <= i < |ds| ==> fs[i] == Output(ds[i])
  {
    if ds == [] then [] else [Output(ds[0])] + OutputFrames(ds[1..])
  }

  /** While the socket is open, each chunk of shell output becomes exactly
      one `output` frame with the same data, in order, and nothing else is
      sent. */
  lemma {:induction false} OutputRelay(ch: ChannelState, ds: seq<string>)
    requires ch.socket == Open
    ensures Run(ch, ShellOutputs(ds)) == ch.(sent := ch.sent + OutputFrames(ds))
    decreases |ds|
  {
    if ds != [] {
      var es := ShellOutputs(ds);
      assert es[0] == ShellOutput(ds[0]) && es[1..] == ShellOutputs(ds[1..]);
      var ch1 := ch.(sent := ch.sent + [Output(ds[0])]);
      assert Step(ch, es[0]) == ch1;
      OutputRelay(ch1, ds[1..]);
      assert OutputFrames(ds) == [Output(ds[0])] + OutputFrames(ds[1..]);
      assert ch1.sent + OutputFrames(ds[1..]) == ch.sent + OutputFrames(ds) by {
        AppendAssoc(ch.sent, [Output(ds[0])], OutputFrames(ds[1..]));
      }
    }
  }

  /** Once the socket is no longer open, no event sends another frame. */
  lemma {:induction false} NothingSentAfterClose(ch: ChannelState, es: seq<Event>)
    requires ch.socket != Open
    ensures Run(ch, es).sent == ch.sent
    ensures Run(ch, es).socket != Open
    decreases |es|
  {
    if es != [] {
      NothingSentAfterClose(Step(ch, es[0]), es[1..]);
    }
  }
}
