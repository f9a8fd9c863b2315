/** The discrete movement helpers of src/fbl2024/movement.py. Each helper
    is one call of `send_command` with a fixed text (or `speed {n}`), so each
    one passes through the connection gate of the networking client. */
module Movement {
  import opened Text
  import Commands
  import Networking

  /** The helpers of `TelloMovement`, one constructor each. */
  datatype Action =
    | Takeoff | Land
    | Up | Down | Forward | Back | Right | Left
    | Cw | Ccw
    | SetSpeed(n: int)

  /** `set_speed`'s default argument. */
  const DefaultSpeed: int := 40

  /** The text each helper passes to `send_command`, as the source writes it. */
  function CommandText(a: Action): string {
    match a
    case Takeoff => "takeoff"
    case Land => "land"
    case Up => "up 20"
    case Down => "down 20"
    case Forward => "forward 40"
    case Back => "back 40"
    case Right => "right 40"
    case Left => "left 40"
    case Cw => "cw 90"
    case Ccw => "ccw 90"
    case SetSpeed(n) => "speed " + IntToString(n)
  }

  /** What each helper asks the drone to do, as a command of the grammar. */
  function Intended(a: Action): Commands.Command {
    match a
    case Takeoff => Commands.Takeoff
    case Land => Commands.Land
    case Up => Commands.Move(Commands.Up, 20)
    case Down => Commands.Move(Commands.Down, 20)
    case Forward => Commands.Move(Commands.Forward, 40)
    case Back => Commands.Move(Commands.Back, 40)
    case Right => Commands.Move(Commands.Right, 40)
    case Left => Commands.Move(Commands.Left, 40)
    case Cw => Commands.Clockwise(90)
    case Ccw => Commands.CounterClockwise(90)
    case SetSpeed(n) => Commands.Speed(n)
  }

  /** Each helper's text is the well-formed command it is named for: up and
      down by 20 cm, the four horizontal moves by 40 cm, turns by 90
      degrees, and `speed n`; the text reads back as that command. */
  lemma CommandTextMeansIntended(a: Action)
    ensures CommandText(a) == Commands.Format(Intended(a))
    ensures Commands.Parse(CommandText(a)) == Some(Intended(a))
  {
    CommandTextIsFormat(a);
    Commands.ParseFormat(Intended(a));
  }

  lemma CommandTextIsFormat(a: Action)
    ensures CommandText(a) == Commands.Format(Intended(a))
  {
    match a
    case Takeoff =>
    case Land =>
    case SetSpeed(n) => Commands.FormatTwoWords(Intended(a));
    case Up => VerticalOrTurnText(a);
    case Down => VerticalOrTurnText(a);
    case Cw => VerticalOrTurnText(a);
    case Ccw => VerticalOrTurnText(a);
    case Forward => HorizontalText(a);
    case Back => HorizontalText(a);
    case Right => HorizontalText(a);
    case Left => HorizontalText(a);
  }

  lemma VerticalOrTurnText(a: Action)
    requires a.Up? || a.Down? || a.Cw? || a.Ccw?
    ensures CommandText(a) == Commands.Format(Intended(a))
  {
    Commands.ArgumentLiterals();
    Commands.FormatTwoWords(Intended(a));
  }

  lemma HorizontalText(a: Action)
    requires a.Forward? || a.Back? || a.Right? || a.Left?
    ensures CommandText(a) == Commands.Format(Intended(a))
  {
    Commands.ArgumentLiterals();
    Commands.FormatTwoWords(Intended(a));
  }

  /** No two helpers send the same text. */
  lemma CommandTextInjective(a: Action, b: Action)
    ensures CommandText(a) == CommandText(b) ==> a == b
  {
    if CommandText(a) == CommandText(b) {
      CommandTextMeansIntended(a);
      CommandTextMeansIntended(b);
      assert Intended(a) == Intended(b);
      IntendedInjective(a, b);
    }
  }

  lemma IntendedInjective(a: Action, b: Action)
    requires Intended(a) == Intended(b)
    ensures a == b
  {
  }

  /** `set_speed()` with its default sends "speed 40". */
  lemma DefaultSpeedText()
    ensures CommandText(SetSpeed(DefaultSpeed)) == "speed 40"
  {
    Commands.ArgumentLiterals();
  }

  /** Every helper inherits the gate: while the link is down it transmits
      nothing and changes no field. */
  lemma HelpersAreGated(s: Networking.NetState, a: Action, ok: bool)
    requires !s.connected
    ensures Networking.Send(s, CommandText(a), true, ok) == s
  {
  }

  class TelloMovement {
    const networking: Networking.TelloNetworking

    constructor (networking: Networking.TelloNetworking)
      ensures this.networking == networking
    {
      this.networking := networking;
    }

    /** Calling one helper: exactly one gated `send_command` of its text. */
    method Perform(a: Action, ok: bool)
      modifies networking
      ensures networking.State() == Networking.Send(old(networking.State()), CommandText(a), true, ok)
    {
      networking.SendCommand(CommandText(a), true, ok);
    }
  }
}
