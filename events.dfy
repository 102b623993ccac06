/**
 The values that flow through the terminal UI: the raw input events the
 terminal library delivers, the normalised runtime `Event`, and the `Action`
 requests that components and the runtime put on the action channel.
 */
module Events {

  /** An unsigned 16-bit terminal coordinate or size. */
  newtype u16 = x: int | 0 <= x < 0x1_0000

  function Min(a: int, b: int): int { if a <= b then a else b }
  function Max(a: int, b: int): int { if a >= b then a else b }

  datatype Option<+T> = None | Some(value: T) {
    /** The wrapped value, or `default` when there is none. */
    function UnwrapOr(default: T): T {
      match this
      case Some(v) => v
      case None => default
    }
  }

  /** Whether a key was pressed, auto-repeated or released. */
  datatype KeyEventKind = Press | Repeat | Release

  /** A key: a printable character, or one of the other key codes (Enter, Esc, F1, ...), identified by a number. */
  datatype KeyCode = Char(ch: char) | Special(id: nat)

  /** A keyboard event; modifier and lock state are not modelled because no core code reads them. */
  datatype KeyEvent = KeyEvent(code: KeyCode, kind: KeyEventKind)

  /** A mouse event, reduced to its kind (as a number) and its position. */
  datatype MouseEvent = MouseEvent(kind: nat, column: u16, row: u16)

  /** An event as the terminal library reports it. */
  datatype RawEvent =
    | FocusGained
    | FocusLost
    | RawKey(key: KeyEvent)
    | RawMouse(mouse: MouseEvent)
    | RawPaste(text: string)
    | RawResize(columns: u16, rows: u16)

  /** One item read from the terminal event stream: an event or a read error. */
  datatype ReadResult = Read(event: RawEvent) | ReadError

  /** The runtime event that the input source forwards to the application. */
  datatype Event =
    | Init
    | Quit
    | Tick
    | Key(key: KeyEvent)
    | Mouse(mouse: MouseEvent)
    | Paste(text: string)
    | FocusGained
    | FocusLost
    | Resize(columns: u16, rows: u16)
    | Error

  /**
   A request on the action channel. The code base has two `Action` enums in
   the middle of a refactoring; this is their union.
   */
  datatype Action = Noop | Quit | Tick | Render | GetContextInfo | GetClusters
}
