/** The terminal bridge of admin-panel/server.js as the object it is at run
    time: one channel per accepted connection, whose handlers update the
    shell and the socket in place. Each handler is proved to move the channel
    exactly as BridgeModel's function for that event does, and to keep the
    channel invariant. */
module TerminalBridge {
  import opened Frames
  import B = BridgeModel
  import R = ServerRoutes

  class Channel {
    var shell: B.Shell
    var sent: seq<Frame>
    var socket: B.SocketState

    function State(): B.ChannelState
      reads this
    {
      B.ChannelState(shell, sent, socket)
    }

    /** `pty.spawn('bash', [], { name, cols: 80, rows: 24, cwd, env })` for a
        new connection. */
    constructor (env: map<string, string>)
      ensures State() == B.Spawn(env)
      ensures B.WellFormed(State())
    {
      var cwd := if "HOME" in env && env["HOME"] != "" then env["HOME"] else B.FallbackHome;
      shell := B.Shell(B.ShellFile, [], B.TermName, cwd, env["TERM" := B.TermName],
                       B.DefaultCols, B.DefaultRows, [], false);
      sent := [];
      socket := B.Open;
    }

    method OnMessage(m: Message)
      requires B.WellFormed(State()) && B.Enabled(State(), B.Incoming(m))
      modifies this
      ensures State() == B.Step(old(State()), B.Incoming(m))
      ensures B.WellFormed(State())
    {
      match m
      case Unparseable(raw) =>
        shell := shell.(input := shell.input + [raw]);
      case Parsed(kind, data, cols, rows, _) =>
        if kind == InputType {
          shell := shell.(input := shell.input + [data]);
        } else if kind == ResizeType {
          shell := shell.(cols := cols, rows := rows);
        }
    }

    method OnShellOutput(data: string)
      requires B.WellFormed(State())
      modifies this
      ensures State() == B.Step(old(State()), B.ShellOutput(data))
      ensures B.WellFormed(State())
    {
      if socket == B.Open {
        sent := sent + [Output(data)];
      }
      B.StepWellFormed(old(State()), B.ShellOutput(data));
    }

    method OnShellExit(exitCode: int)
      requires B.WellFormed(State())
      modifies this
      ensures State() == B.Step(old(State()), B.ShellExited(exitCode))
      ensures B.WellFormed(State())
    {
      if socket == B.Open {
        sent := sent + [Exit(exitCode)];
        socket := B.Closing;
      }
      B.StepWellFormed(old(State()), B.ShellExited(exitCode));
    }

    method OnSocketClosed()
      requires B.WellFormed(State()) && B.Enabled(State(), B.SocketClosed)
      modifies this
      ensures State() == B.Step(old(State()), B.SocketClosed)
      ensures B.WellFormed(State())
    {
      socket := B.Closed;
      shell := shell.(killed := true);
    }
  }

  /** The upgrade handler: route the request, and for a terminal connection
      create its channel. No channel exists for any other outcome. */
  method HandleUpgrade(session: Option<R.Session>, url: string, env: map<string, string>)
    returns (outcome: R.UpgradeOutcome, channel: Channel?)
    ensures outcome == R.RouteUpgrade(session, url)
    ensures channel != null <==> outcome.terminal
    ensures channel != null ==> fresh(channel) && channel.State() == B.Spawn(env)
  {
    if !R.IsAuthenticated(session) {
      outcome := R.UpgradeOutcome([R.UnauthorizedResponse], true, false);
      channel := null;
      return;
    }
    if url == R.TerminalPath {
      outcome := R.UpgradeOutcome([], false, true);
      channel := new Channel(env);
    } else {
      outcome := R.UpgradeOutcome([], true, false);
      channel := null;
    }
  }
}
