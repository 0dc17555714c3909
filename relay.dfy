/** The two ends of the terminal channel together: what the browser sends
    reaches the shell, and what the shell prints reaches the browser's
    terminal, each frame carried by its JSON text (Frames.Encode). */
module Relay {
  import opened Frames
  import C = ClientModel
  import B = BridgeModel

  /** The frames the server receives, as its message events. */
  function Delivered(fs: seq<Frame>): seq<Message>
  {
    if fs == [] then [] else [Encode(fs[0])] + Delivered(fs[1..])
  }

  /** The texts the shell gets from a sequence of client frames. */
  function InputsOf(fs: seq<Frame>): seq<string>
  {
    if fs == [] then [] else (if fs[0].Input? then [fs[0].data] else []) + InputsOf(fs[1..])
  }

  lemma {:induction false} WritesOfDelivered(fs: seq<Frame>)
    requires ClientFrames(fs)
    ensures B.Writes(Delivered(fs)) == InputsOf(fs)
    decreases |fs|
  {
    if fs != [] {
      assert Delivered(fs)[0] == Encode(fs[0]);
      assert Delivered(fs)[1..] == Delivered(fs[1..]);
      WritesOfDelivered(fs[1..]);
    }
  }

  /** Typed text on an open page is sent as one `input` frame, and that
      frame, received by the bridge, is written to the shell and nothing
      else changes. */
  lemma TypedTextReachesShell(c: C.ClientState, ch: B.ChannelState, data: string)
    requires c.ws == Some(C.Open)
    ensures C.OnData(c, data).sent == c.sent + [Input(data)]
    ensures B.OnMessage(ch, Encode(Input(data))) == B.Write(ch, data)
  {
  }

  /** A window resize with dimensions on an open page reaches the shell as
      its new geometry. */
  lemma ResizeReachesShell(c: C.ClientState, ch: B.ChannelState, d: C.Dims)
    requires c.ws == Some(C.Open)
    ensures C.HandleResize(c, Some(d)).sent == c.sent + [Resize(d.cols, d.rows)]
    ensures B.OnMessage(ch, Encode(Resize(d.cols, d.rows))) ==
      ch.(shell := ch.shell.(cols := d.cols, rows := d.rows))
  {
  }

  /** Shell output on an open channel is sent as one `output` frame, which
      the page writes to its terminal as it is. */
  lemma ShellOutputReachesScreen(ch: B.ChannelState, c: C.ClientState, data: string)
    requires ch.socket == B.Open
    ensures B.OnShellOutput(ch, data).sent == ch.sent + [Output(data)]
    ensures C.OnMessage(c, Encode(Output(data))) == c.(screen := c.screen + [C.Write(data)])
    ensures C.Text(C.Write(data)) == data
  {
  }

  /** The shell's exit reaches the page as an `exit` frame, on which the page
      prints its notice and schedules a reconnect. */
  lemma ShellExitReachesPage(ch: B.ChannelState, c: C.ClientState, code: int)
    requires ch.socket == B.Open
    ensures B.OnShellExit(ch, code).sent == ch.sent + [Exit(code)]
    ensures C.OnMessage(c, Encode(Exit(code))) ==
      C.ScheduleReconnect(c.(screen := c.screen + [C.ExitNotice]))
  {
  }

  /** Whatever the page sends, delivered in order, reaches the shell's input
      as the page's typed texts in the order they were typed. */
  lemma {:induction false} ClientFramesInOrder(ch: B.ChannelState, fs: seq<Frame>)
    requires ClientFrames(fs)
    ensures B.Run(ch, B.Incomings(Delivered(fs))).shell.input == ch.shell.input + InputsOf(fs)
  {
    B.InputInOrder(ch, Delivered(fs));
    WritesOfDelivered(fs);
  }

  /** Frames of the kinds a page sends. */
  predicate ClientFrames(fs: seq<Frame>)
  {
    forall i :: 0 <= i < |fs| ==> fs[i].Input? || fs[i].Resize?
  }

  /** Everything the page sends is an `input` or a `resize` frame, so the
      ordering lemma above covers all of it. */
  lemma {:induction false} PageSendsOnlyInputAndResize(c: C.ClientState, es: seq<C.Event>)
    requires ClientFrames(c.sent)
    ensures ClientFrames(C.Run(c, es).sent)
    decreases |es|
  {
    if es != [] {
      var c1 := C.Step(c, es[0]);
      C.SentOnlyWhenOpen(c, es[0]);
      forall i | 0 <= i < |c1.sent| ensures c1.sent[i].Input? || c1.sent[i].Resize? {
        if i < |c.sent| {
          assert c1.sent[i] == c1.sent[..|c.sent|][i];
        }
      }
      PageSendsOnlyInputAndResize(c1, es[1..]);
    }
  }
}
