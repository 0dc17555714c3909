/** The terminal page's controller as the object it is in
    public/js/terminal.js: the module-level variables `ws`,
    `reconnectAttempts` and `reconnectTimer` are fields that the handlers
    update in place. Each handler is proved to move the state exactly as the
    function of the same name in ClientModel does, and to keep its
    invariant. */
module TerminalClient {
  import opened Frames
  import M = ClientModel

  class Controller {
    var ws: Option<M.ReadyState>
    var reconnectAttempts: nat
    var reconnectTimer: Option<nat>
    var screen: seq<M.TermWrite>
    var sent: seq<Frame>
    var sockets: nat

    function State(): M.ClientState
      reads this
    {
      M.ClientState(ws, reconnectAttempts, reconnectTimer, screen, sent, sockets)
    }

    /** Page load: the variables are initialised, then `connectWebSocket()`
        runs once. */
    constructor ()
      ensures State() == M.Start()
      ensures M.Valid(State())
    {
      ws := None;
      reconnectAttempts := 0;
      reconnectTimer := None;
      screen := [];
      sent := [];
      sockets := 0;
      new;
      ConnectWebSocket();
    }

    method ConnectWebSocket()
      modifies this
      ensures State() == M.Connect(old(State()))
    {
      if ws == Some(M.Connecting) || ws == Some(M.Open) {
        return;
      }
      ws := Some(M.Connecting);
      sockets := sockets + 1;
    }

    method ScheduleReconnect()
      modifies this
      ensures State() == M.ScheduleReconnect(old(State()))
    {
      if reconnectTimer.Some? {
        return;
      }
      if reconnectAttempts >= M.MaxReconnectAttempts {
        screen := screen + [M.ReloadNotice];
        return;
      }
      reconnectAttempts := reconnectAttempts + 1;
      var delay := M.Min(M.BaseDelayMs * M.Pow2(reconnectAttempts - 1), M.MaxDelayMs);
      screen := screen + [M.ReconnectNotice(M.Seconds(delay))];
      reconnectTimer := Some(delay);
    }

    method OnOpen(dims: Option<M.Dims>)
      requires M.Valid(State()) && M.Enabled(State(), M.Opened(dims))
      modifies this
      ensures State() == M.Step(old(State()), M.Opened(dims))
      ensures M.Valid(State())
    {
      ws := Some(M.Open);
      reconnectAttempts := 0;
      if dims.Some? {
        sent := sent + [Resize(dims.value.cols, dims.value.rows)];
      }
    }

    method OnMessage(m: Message)
      requires M.Valid(State()) && M.Enabled(State(), M.Received(m))
      modifies this
      ensures State() == M.Step(old(State()), M.Received(m))
      ensures M.Valid(State())
    {
      M.StepValid(State(), M.Received(m));
      match m {
        case Unparseable(raw) =>
          screen := screen + [M.Write(raw)];
        case Parsed(kind, data, _, _, _) =>
          if kind == OutputType {
            screen := screen + [M.Write(data)];
          } else if kind == ExitType {
            screen := screen + [M.ExitNotice];
            ScheduleReconnect();
          }
      }
    }

    method StartClosing()
      requires M.Valid(State()) && M.Enabled(State(), M.StartedClosing)
      modifies this
      ensures State() == M.Step(old(State()), M.StartedClosing)
      ensures M.Valid(State())
    {
      ws := Some(M.Closing);
    }

    method OnClose()
      requires M.Valid(State()) && M.Enabled(State(), M.ClosedSocket)
      modifies this
      ensures State() == M.Step(old(State()), M.ClosedSocket)
      ensures M.Valid(State())
    {
      ws := Some(M.Closed);
      ScheduleReconnect();
      M.StepValid(old(State()), M.ClosedSocket);
    }

    method OnTimer()
      requires M.Valid(State()) && M.Enabled(State(), M.TimerFired)
      modifies this
      ensures State() == M.Step(old(State()), M.TimerFired)
      ensures M.Valid(State())
    {
      reconnectTimer := None;
      ConnectWebSocket();
    }

    method OnData(data: string)
      requires M.Valid(State())
      modifies this
      ensures State() == M.Step(old(State()), M.Typed(data))
      ensures M.Valid(State())
    {
      if ws == Some(M.Open) {
        sent := sent + [Input(data)];
      }
    }

    method HandleResize(dims: Option<M.Dims>)
      requires M.Valid(State())
      modifies this
      ensures State() == M.Step(old(State()), M.WindowResized(dims))
      ensures M.Valid(State())
    {
      if dims.Some? && ws == Some(M.Open) {
        sent := sent + [Resize(dims.value.cols, dims.value.rows)];
      }
    }
  }
}
