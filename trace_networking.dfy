/** The line tracer's networking of src/fbl2024/linetrace/networking.py: no
    connection state at all. `udp_receiver` classifies every datagram with
    the slice test and swallows every error, `ask` alternates the two
    telemetry queries forever, and `send_command` only reports socket
    errors. */
module TraceNetworking {
  import opened Text
  import Telemetry
  import Commands

  datatype Link = Link(
    texts: Telemetry.Texts,   // battery_text, time_text, status_text
    sent: seq<string>,        // every datagram the socket accepted, oldest first
    open: bool)               // false after close()

  function Initial(): (l: Link)
    ensures l.texts == Telemetry.Texts("Battery:", "Time:", "Status:") && l.open && l.sent == []
  {
    Link(Telemetry.Texts("Battery:", "Time:", "Status:"), [], true)
  }

  /** `send_command`: a send on a closed socket fails like any socket error,
      and failures are only printed. */
  function Send(l: Link, command: string, ok: bool): Link {
    l.(sent := Commands.Transmit(l.sent, command, ok && l.open))
  }

  /** One pass of `udp_receiver`'s loop. */
  function Receive(l: Link, d: Telemetry.Datagram): Link {
    match d
    case Payload(raw) => l.(texts := Telemetry.PublishBySlice(l.texts, Strip(raw)))
    case Failure => l
  }

  function ReceiveAll(l: Link, ds: seq<Telemetry.Datagram>): Link
    decreases |ds|
  {
    if |ds| == 0 then l else ReceiveAll(Receive(l, ds[0]), ds[1..])
  }

  /** The queries `ask` sends in its first `n` rounds, failures aside. */
  function Alternation(n: nat): seq<string> {
    if n == 0 then [] else Alternation(n - 1) + ["battery?", "time?"]
  }

  /** The datagrams `ask` gets through in the given rounds: each round tries
      "battery?" then "time?" with its own socket outcome. */
  function AskRounds(l: Link, rounds: seq<(bool, bool)>): Link
    decreases |rounds|
  {
    if |rounds| == 0 then l
    else AskRounds(Send(Send(l, "battery?", rounds[0].0), "time?", rounds[0].1), rounds[1..])
  }

  /** One atomic step of a background thread: the receiver handling one
      datagram, or one round of `ask`. */
  datatype Activity = Heard(d: Telemetry.Datagram) | Asked(batteryOk: bool, timeOk: bool)

  function Act(l: Link, a: Activity): Link {
    match a
    case Heard(d) => Receive(l, d)
    case Asked(batteryOk, timeOk) => Send(Send(l, "battery?", batteryOk), "time?", timeOk)
  }

  /** The threads' steps, in the order they interleave. */
  function Background(l: Link, acts: seq<Activity>): Link
    decreases |acts|
  {
    if |acts| == 0 then l else Background(Act(l, acts[0]), acts[1..])
  }

  /** The constructor's start-up: the receiver and `ask` are already
      running, so their steps `a0`, `a1`, `a2` interleave before
      "command", "streamon" and "setfps low". */
  function StartUp(a0: seq<Activity>, ok1: bool, a1: seq<Activity>, ok2: bool,
                   a2: seq<Activity>, ok3: bool): Link {
    var l1 := Send(Background(Initial(), a0), "command", ok1);
    var l2 := Send(Background(l1, a1), "streamon", ok2);
    Send(Background(l2, a2), "setfps low", ok3)
  }

  /** `close()`: "streamoff", then the socket is closed. */
  function Close(l: Link, ok: bool): Link {
    Send(l, "streamoff", ok).(open := false)
  }

  /** Each datagram rewrites exactly the field its classification picks and
      leaves the other two fields and the log alone. */
  lemma ReceiveUpdatesOneField(l: Link, raw: string)
    ensures var r := Receive(l, Telemetry.Payload(raw)); var k := Telemetry.Classify(Strip(raw));
            && Telemetry.Field(r.texts, k) == Telemetry.Render(k, Strip(raw))
            && (forall k' :: k' != k ==> Telemetry.Field(r.texts, k') == Telemetry.Field(l.texts, k'))
            && r.sent == l.sent && r.open == l.open
  {
    Telemetry.PublishBySliceAgrees(l.texts, Strip(raw));
  }

  /** A receive error changes nothing, and the loop goes on with the next
      datagram. */
  lemma {:induction false} ErrorsAreSkipped(l: Link, ds: seq<Telemetry.Datagram>, i: nat)
    requires i < |ds| && ds[i].Failure?
    ensures ReceiveAll(l, ds) == ReceiveAll(l, ds[..i] + ds[i + 1..])
    decreases i
  {
    if i == 0 {
      assert ds[..0] + ds[1..] == ds[1..];
    } else {
      ErrorsAreSkipped(Receive(l, ds[0]), ds[1..], i - 1);
      assert (ds[..i] + ds[i + 1..])[1..] == ds[1..][..i - 1] + ds[1..][i..];
    }
  }

  /** The receiver never sends. */
  lemma {:induction false} ReceiveAllKeepsLog(l: Link, ds: seq<Telemetry.Datagram>)
    ensures ReceiveAll(l, ds).sent == l.sent && ReceiveAll(l, ds).open == l.open
    decreases |ds|
  {
    if |ds| > 0 {
      ReceiveAllKeepsLog(Receive(l, ds[0]), ds[1..]);
    }
  }

  /** Position `i` of the queries is "battery?" for even `i` and "time?"
      for odd `i`: `ask` strictly alternates. */
  lemma {:induction false} AlternationAt(n: nat, i: nat)
    requires i < 2 * n
    ensures |Alternation(n)| == 2 * n
    ensures Alternation(n)[i] == if i % 2 == 0 then "battery?" else "time?"
  {
    if n > 0 {
      if i < 2 * (n - 1) {
        AlternationAt(n - 1, i);
      } else {
        AlternationLength(n - 1);
      }
    }
  }

  lemma {:induction false} AlternationLength(n: nat)
    ensures |Alternation(n)| == 2 * n
  {
    if n > 0 {
      AlternationLength(n - 1);
    }
  }

  /** With every send getting through on an open socket, `ask` adds exactly
      the alternation of the queries to the log. */
  lemma {:induction false} AskRoundsAllDelivered(l: Link, rounds: seq<(bool, bool)>)
    requires l.open
    requires forall i :: 0 <= i < |rounds| ==> rounds[i].0 && rounds[i].1
    ensures AskRounds(l, rounds) == l.(sent := l.sent + Alternation(|rounds|))
    decreases |rounds|
  {
    if |rounds| > 0 {
      assert rounds[0].0 && rounds[0].1;
      var l' := Send(Send(l, "battery?", true), "time?", true);
      assert AskRounds(l, rounds) == AskRounds(l', rounds[1..]);
      assert l' == l.(sent := l.sent + ["battery?", "time?"]);
      assert forall i :: 0 <= i < |rounds[1..]| ==> rounds[1..][i] == rounds[i + 1];
      AskRoundsAllDelivered(l', rounds[1..]);
      AlternationShift(|rounds| - 1);
      assert l.sent + ["battery?", "time?"] + Alternation(|rounds| - 1)
          == l.sent + Alternation(|rounds|);
    }
  }

  lemma {:induction false} AlternationShift(n: nat)
    ensures ["battery?", "time?"] + Alternation(n) == Alternation(n + 1)
  {
    if n > 0 {
      AlternationShift(n - 1);
    }
  }

  /** A failed send does not stop `ask`: the later rounds still send, and
      every datagram that got through is one of the two queries. */
  lemma {:induction false} AskRoundsOnlyQueries(l: Link, rounds: seq<(bool, bool)>)
    ensures l.sent <= AskRounds(l, rounds).sent
    ensures forall i :: |l.sent| <= i < |AskRounds(l, rounds).sent| ==>
              AskRounds(l, rounds).sent[i] in {"battery?", "time?"}
    ensures AskRounds(l, rounds).texts == l.texts && AskRounds(l, rounds).open == l.open
    decreases |rounds|
  {
    if |rounds| > 0 {
      AskRoundsOnlyQueries(Send(Send(l, "battery?", rounds[0].0), "time?", rounds[0].1), rounds[1..]);
    }
  }

  /** The threads only ever add queries to the log, and never close the
      socket. */
  lemma {:induction false} BackgroundOnlyQueries(l: Link, acts: seq<Activity>)
    ensures l.sent <= Background(l, acts).sent
    ensures Telemetry.WithoutQueries(Background(l, acts).sent) == Telemetry.WithoutQueries(l.sent)
    ensures Background(l, acts).open == l.open
    decreases |acts|
  {
    if |acts| > 0 {
      var l' := Act(l, acts[0]);
      ActOnlyQueries(l, acts[0]);
      BackgroundOnlyQueries(l', acts[1..]);
    }
  }

  lemma ActOnlyQueries(l: Link, a: Activity)
    ensures l.sent <= Act(l, a).sent && Act(l, a).open == l.open
    ensures Telemetry.WithoutQueries(Act(l, a).sent) == Telemetry.WithoutQueries(l.sent)
  {
    if a.Asked? {
      var l1 := Send(l, "battery?", a.batteryOk);
      if a.batteryOk && l.open {
        Telemetry.WithoutQueriesSnoc(l.sent, "battery?");
      }
      if a.timeOk && l1.open {
        Telemetry.WithoutQueriesSnoc(l1.sent, "time?");
      }
    }
  }

  /** Start-up sends "command", "streamon" and "setfps low" in that order,
      each exactly when its send succeeds; a failed send does not stop the
      later ones. Whatever the threads do meanwhile, they add only queries,
      so the log without them is exactly those sends. With the threads idle
      the texts are still the initial ones. */
  lemma StartUpOrder(a0: seq<Activity>, ok1: bool, a1: seq<Activity>, ok2: bool,
                     a2: seq<Activity>, ok3: bool)
    ensures Telemetry.WithoutQueries(StartUp(a0, ok1, a1, ok2, a2, ok3).sent) ==
              (if ok1 then ["command"] else []) + (if ok2 then ["streamon"] else [])
              + (if ok3 then ["setfps low"] else [])
    ensures StartUp(a0, ok1, a1, ok2, a2, ok3).open
    ensures StartUp([], ok1, [], ok2, [], ok3).texts == Initial().texts
  {
    var c1: seq<string> := if ok1 then ["command"] else [];
    var c2: seq<string> := if ok2 then ["streamon"] else [];
    var c3: seq<string> := if ok3 then ["setfps low"] else [];
    var l0 := Background(Initial(), a0);
    BackgroundOnlyQueries(Initial(), a0);
    assert Telemetry.WithoutQueries(l0.sent) == [];
    var m1 := SendThenBackground(l0, "command", ok1, a1);
    assert Telemetry.WithoutQueries(m1.sent) == c1;
    var m2 := SendThenBackground(m1, "streamon", ok2, a2);
    assert Telemetry.WithoutQueries(m2.sent) == c1 + c2;
    SendNonQuery(m2, "setfps low", ok3);
    assert StartUp(a0, ok1, a1, ok2, a2, ok3) == Send(m2, "setfps low", ok3);
    StartUpIdleTexts(ok1, ok2, ok3);
  }

  lemma StartUpIdleTexts(ok1: bool, ok2: bool, ok3: bool)
    ensures StartUp([], ok1, [], ok2, [], ok3).texts == Initial().texts
  {
  }

  /** A start-up send followed by the threads' steps adds just that command
      to the log without the queries. */
  lemma SendThenBackground(l: Link, c: string, ok: bool, acts: seq<Activity>)
      returns (l': Link)
    requires l.open && !Telemetry.IsQuery(c)
    ensures l' == Background(Send(l, c, ok), acts) && l'.open
    ensures Telemetry.WithoutQueries(l'.sent) ==
              Telemetry.WithoutQueries(l.sent) + (if ok then [c] else [])
  {
    SendNonQuery(l, c, ok);
    BackgroundOnlyQueries(Send(l, c, ok), acts);
    l' := Background(Send(l, c, ok), acts);
  }

  lemma SendNonQuery(l: Link, c: string, ok: bool)
    requires l.open && !Telemetry.IsQuery(c)
    ensures Telemetry.WithoutQueries(Send(l, c, ok).sent) ==
              Telemetry.WithoutQueries(l.sent) + (if ok then [c] else [])
    ensures Send(l, c, ok).open
  {
    if ok {
      Telemetry.WithoutQueriesSnoc(l.sent, c);
    }
  }

  /** `close` sends "streamoff" before the socket shuts, and nothing gets
      through afterwards. */
  lemma CloseSendsStreamOffLast(l: Link, command: string, ok: bool)
    requires l.open
    ensures Close(l, true).sent == l.sent + ["streamoff"]
    ensures !Close(l, ok).open && Close(l, ok).texts == l.texts
    ensures Send(Close(l, ok), command, true).sent == Close(l, ok).sent
  {
  }

  class TelloNetworking {
    var batteryText: string
    var timeText: string
    var statusText: string
    var sent: seq<string>
    var open: bool

    function State(): Link
      reads this
    {
      Link(Telemetry.Texts(batteryText, timeText, statusText), sent, open)
    }

    /** The constructor with the threads' steps around its three start-up
      sends and the outcomes of those sends. */
    constructor (a0: seq<Activity>, ok1: bool, a1: seq<Activity>, ok2: bool,
                 a2: seq<Activity>, ok3: bool)
      ensures State() == StartUp(a0, ok1, a1, ok2, a2, ok3)
    {
      batteryText := "Battery:";
      timeText := "Time:";
      statusText := "Status:";
      sent := [];
      open := true;
      new;
      Interleave(a0);
      SendCommand("command", ok1);
      Interleave(a1);
      SendCommand("streamon", ok2);
      Interleave(a2);
      SendCommand("setfps low", ok3);
    }

    method SendCommand(command: string, ok: bool)
      modifies this
      ensures State() == Send(old(State()), command, ok)
    {
      if ok && open {
        sent := sent + [command];
      }
    }

    /** One pass of `udp_receiver`: errors are swallowed. */
    method ReceiveOne(d: Telemetry.Datagram)
      modifies this
      ensures State() == Receive(old(State()), d)
    {
      match d
      case Payload(raw) =>
        var resp := Strip(raw);
        if IsDecimal(resp) {
          batteryText := "Battery:" + resp + "%";
        } else if LastSlice(resp) == "s" {
          timeText := "Time:" + resp;
        } else {
          statusText := "Status:" + resp;
        }
      case Failure =>
    }

    /** `udp_receiver` over a finite stretch of its endless loop. */
    method UdpReceiver(ds: seq<Telemetry.Datagram>)
      modifies this
      ensures State() == ReceiveAll(old(State()), ds)
    {
      var i := 0;
      while i < |ds|
        invariant i <= |ds|
        invariant ReceiveAll(State(), ds[i..]) == ReceiveAll(old(State()), ds)
      {
        ReceiveOne(ds[i]);
        assert ds[i..][1..] == ds[i + 1..];
        i := i + 1;
      }
    }

    /** `ask` over a finite number of its rounds. */
    method Ask(rounds: seq<(bool, bool)>)
      modifies this
      ensures State() == AskRounds(old(State()), rounds)
    {
      var i := 0;
      while i < |rounds|
        invariant i <= |rounds|
        invariant AskRounds(State(), rounds[i..]) == AskRounds(old(State()), rounds)
      {
        SendCommand("battery?", rounds[i].0);
        SendCommand("time?", rounds[i].1);
        assert rounds[i..][1..] == rounds[i + 1..];
        i := i + 1;
      }
    }

    /** One step of a background thread. */
    method Step(a: Activity)
      modifies this
      ensures State() == Act(old(State()), a)
    {
      match a
      case Heard(d) => ReceiveOne(d);
      case Asked(batteryOk, timeOk) =>
        SendCommand("battery?", batteryOk);
        SendCommand("time?", timeOk);
    }

    /** The threads' steps in the order they interleave. */
    method Interleave(acts: seq<Activity>)
      modifies this
      ensures State() == Background(old(State()), acts)
    {
      var i := 0;
      while i < |acts|
        invariant i <= |acts|
        invariant Background(State(), acts[i..]) == Background(old(State()), acts)
      {
        Step(acts[i]);
        assert acts[i..][1..] == acts[i + 1..];
        i := i + 1;
      }
    }

    method CloseLink(ok: bool)
      modifies this
      ensures State() == Close(old(State()), ok)
    {
      SendCommand("streamoff", ok);
      open := false;
    }
  }
}
