/** The line tracer's movement helpers of src/fbl2024/linetrace/movement.py:
    takeoff, land and RC control, all through the tracer's `send_command`.
    The discrete moves of the other client are commented out in this file
    and do not exist here. */
module TraceMovement {
  import opened Text
  import Commands
  import TraceNetworking

  /** The link after `send_rc_control(a, b, c, d)`. */
  function SendRc(l: TraceNetworking.Link, a: int, b: int, c: int, d: int, ok: bool): TraceNetworking.Link {
    TraceNetworking.Send(l, Commands.RcText(a, b, c, d), ok)
  }

  /** The RC text carries the four values unchanged (no clamping) and reads
      back as the RC command; it is delivered whenever the socket is open
      and accepts it. */
  lemma SendRcDelivers(l: TraceNetworking.Link, a: int, b: int, c: int, d: int)
    requires l.open
    ensures SendRc(l, a, b, c, d, true).sent == l.sent + [Commands.Format(Commands.Rc(a, b, c, d))]
    ensures Commands.Parse(SendRc(l, a, b, c, d, true).sent[|l.sent|]) == Some(Commands.Rc(a, b, c, d))
    ensures SendRc(l, a, b, c, d, true).texts == l.texts
  {
    Commands.ParseFormat(Commands.Rc(a, b, c, d));
  }

  class TelloMovement {
    const networking: TraceNetworking.TelloNetworking

    constructor (networking: TraceNetworking.TelloNetworking)
      ensures this.networking == networking
    {
      this.networking := networking;
    }

    method Takeoff(ok: bool)
      modifies networking
      ensures networking.State() == TraceNetworking.Send(old(networking.State()), "takeoff", ok)
    {
      networking.SendCommand("takeoff", ok);
    }

    method Land(ok: bool)
      modifies networking
      ensures networking.State() == TraceNetworking.Send(old(networking.State()), "land", ok)
    {
      networking.SendCommand("land", ok);
    }

    method SendRcControl(a: int, b: int, c: int, d: int, ok: bool)
      modifies networking
      ensures networking.State() == SendRc(old(networking.State()), a, b, c, d, ok)
    {
      var command := "rc " + IntToString(a) + " " + IntToString(b) + " "
                     + IntToString(c) + " " + IntToString(d);
      networking.SendCommand(command, ok);
    }
  }
}
