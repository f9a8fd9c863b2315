/** The movement helpers of the top-level movement.py used by the keyboard
    client: an RC command written straight to the socket (bypassing the
    connection gate, with socket errors caught) and the gated takeoff, land,
    emergency stop and flip commands. */
module RcMovement {
  import opened Text
  import Commands
  import Networking

  /** The gated helpers of `TelloMovement`. */
  datatype Action = Takeoff | Land | Stop | FlipLeft | FlipRight | FlipForward | FlipBackward

  function CommandText(a: Action): string {
    match a
    case Takeoff => "takeoff"
    case Land => "land"
    case Stop => "stop"
    case FlipLeft => "flip l"
    case FlipRight => "flip r"
    case FlipForward => "flip f"
    case FlipBackward => "flip b"
  }

  function Intended(a: Action): Commands.Command {
    match a
    case Takeoff => Commands.Takeoff
    case Land => Commands.Land
    case Stop => Commands.Stop
    case FlipLeft => Commands.Flip(Commands.FlipLeft)
    case FlipRight => Commands.Flip(Commands.FlipRight)
    case FlipForward => Commands.Flip(Commands.FlipForward)
    case FlipBackward => Commands.Flip(Commands.FlipBack)
  }

  /** Each helper's text is the command it is named for and reads back as it. */
  lemma CommandTextMeansIntended(a: Action)
    ensures CommandText(a) == Commands.Format(Intended(a))
    ensures Commands.Parse(CommandText(a)) == Some(Intended(a))
  {
    if a.FlipLeft? || a.FlipRight? || a.FlipForward? || a.FlipBackward? {
      FlipText(a);
    }
    Commands.ParseFormat(Intended(a));
  }

  lemma FlipText(a: Action)
    requires a.FlipLeft? || a.FlipRight? || a.FlipForward? || a.FlipBackward?
    ensures CommandText(a) == Commands.Format(Intended(a))
  {
    Commands.FormatTwoWords(Intended(a));
  }

  /** The RC state after `send_rc_control`: the text goes to the socket
      whether or not the link is up, and a failed send changes nothing. */
  function SendRc(s: Networking.NetState, lr: int, fb: int, ud: int, yaw: int, ok: bool): Networking.NetState {
    s.(sent := Commands.Transmit(s.sent, Commands.RcText(lr, fb, ud, yaw), ok))
  }

  /** RC commands bypass the gate: one is transmitted even while the link is
      down, and only the log changes. */
  lemma RcBypassesGate(s: Networking.NetState, lr: int, fb: int, ud: int, yaw: int)
    ensures SendRc(s, lr, fb, ud, yaw, true) == s.(sent := s.sent + [Commands.RcText(lr, fb, ud, yaw)])
    ensures SendRc(s, lr, fb, ud, yaw, true).connected == s.connected
  {
  }

  /** A failing socket inside `send_rc_control` is caught: no field changes,
      the link is not demoted. */
  lemma RcFailureIsSwallowed(s: Networking.NetState, lr: int, fb: int, ud: int, yaw: int)
    ensures SendRc(s, lr, fb, ud, yaw, false) == s
  {
  }

  class TelloMovement {
    const networking: Networking.TelloNetworking

    constructor (networking: Networking.TelloNetworking)
      ensures this.networking == networking
    {
      this.networking := networking;
    }

    /** `send_rc_control(left_right, forward_backward, up_down, yaw)`. */
    method SendRcControl(lr: int, fb: int, ud: int, yaw: int, ok: bool)
      modifies networking
      ensures networking.State() == SendRc(old(networking.State()), lr, fb, ud, yaw, ok)
    {
      var command := "rc " + IntToString(lr) + " " + IntToString(fb) + " "
                     + IntToString(ud) + " " + IntToString(yaw);
      if ok {
        networking.sent := networking.sent + [command];
      }
    }

    /** `takeoff`, `land`, `stop` and the flips: one gated `send_command`. */
    method Perform(a: Action, ok: bool)
      modifies networking
      ensures networking.State() == Networking.Send(old(networking.State()), CommandText(a), true, ok)
    {
      networking.SendCommand(CommandText(a), true, ok);
    }
  }
}
