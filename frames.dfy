/** The frames exchanged over the terminal WebSocket, and what a receiver's
    JSON.parse hands to its message handler. */
module Frames {

  datatype Option<T> = None | Some(value: T)

  /** Regrouping a concatenation, for the logs the models append to. */
  lemma AppendAssoc<T>(a: seq<T>, b: seq<T>, c: seq<T>)
    ensures (a + b) + c == a + (b + c)
  {
  }

  /** One frame on the terminal channel. The client sends `input` and
      `resize`; the server sends `output` and `exit`. */
  datatype Frame =
    | Input(data: string)
    | Output(data: string)
    | Resize(cols: int, rows: int)
    | Exit(exitCode: int)

  /** What a handler sees after `JSON.parse`: either an object whose fields it
      reads (`type`, `data`, `cols`, `rows`, `exitCode`), or text that made the
      `try` block throw, which the handler then treats as raw text. JSON
      parsing itself is foreign and is supplied as this value. */
  datatype Message =
    | Parsed(kind: string, data: string, cols: int, rows: int, exitCode: int)
    | Unparseable(raw: string)

  const InputType := "input"
  const OutputType := "output"
  const ResizeType := "resize"
  const ExitType := "exit"

  /** The object a receiver parses from `JSON.stringify({ type: ..., ... })`
      of a frame; fields the frame does not carry are read as 0 or "". */
  function Encode(f: Frame): (m: Message)
    ensures m.Parsed?
  {
    match f
    case Input(d) => Parsed(InputType, d, 0, 0, 0)
    case Output(d) => Parsed(OutputType, d, 0, 0, 0)
    case Resize(c, r) => Parsed(ResizeType, "", c, r, 0)
    case Exit(code) => Parsed(ExitType, "", 0, 0, code)
  }
}
