/** The stand-alone test script src/fbl2024/drone_test.py. It keeps its
    state in module globals, writes every command straight to the socket
    (the helpers swallow socket errors, the start-up and shut-down sends do
    not), runs a receiver that swallows every error and a poller that
    alternates the two queries, and maps eleven keys to the discrete
    movement commands of `TelloMovement`. */
module DroneTest {
  import opened Text
  import Commands
  import Telemetry
  import Movement
  import TraceNetworking

  /** The globals the script changes. */
  datatype Globals = Globals(
    texts: Telemetry.Texts,   // battery_text, time_text, status_text
    commandText: string,      // command_text, the label of the last key command
    sent: seq<string>)        // every datagram the socket accepted, oldest first

  function Initial(): (g: Globals)
    ensures g.texts == Telemetry.Texts("Battery:", "Time:", "Status:")
    ensures g.commandText == "None" && g.sent == []
  {
    Globals(Telemetry.Texts("Battery:", "Time:", "Status:"), "None", [])
  }

  /** One pass of `udp_receiver`: the slice rule, and every error ignored. */
  function Receive(g: Globals, d: Telemetry.Datagram): Globals {
    match d
    case Payload(raw) => g.(texts := Telemetry.PublishBySlice(g.texts, Strip(raw)))
    case Failure => g
  }

  /** One round of `ask`: two sends, each with its own outcome. */
  function AskRound(g: Globals, batteryOk: bool, timeOk: bool): Globals {
    g.(sent := Commands.Transmit(Commands.Transmit(g.sent, "battery?", batteryOk), "time?", timeOk))
  }

  /** The key bindings of the main loop: the helper and the label. */
  function KeyBinding(key: int): Option<(Movement.Action, string)> {
    if key == 'w' as int then Some((Movement.Forward, "Forward"))
    else if key == 's' as int then Some((Movement.Back, "Back"))
    else if key == 'a' as int then Some((Movement.Left, "Left"))
    else if key == 'd' as int then Some((Movement.Right, "Right"))
    else if key == 't' as int then Some((Movement.Takeoff, "Take off"))
    else if key == 'l' as int then Some((Movement.Land, "Land"))
    else if key == 'r' as int then Some((Movement.Up, "Up"))
    else if key == 'c' as int then Some((Movement.Down, "Down"))
    else if key == 'q' as int then Some((Movement.Ccw, "Ccw"))
    else if key == 'e' as int then Some((Movement.Cw, "Cw"))
    else if key == 'm' as int then Some((Movement.SetSpeed(Movement.DefaultSpeed), "Changed speed"))
    else None
  }

  const EscKey: int := 27

  /** The text drawn over each shown frame. */
  function Overlay(g: Globals): seq<string> {
    ["Cmd:" + g.commandText, g.texts.battery, g.texts.time, g.texts.status]
  }

  /** One atomic step of the receiver or of `ask`; the script's threads
      take the same steps as the line tracer's. */
  function Act(g: Globals, a: TraceNetworking.Activity): Globals {
    match a
    case Heard(d) => Receive(g, d)
    case Asked(batteryOk, timeOk) => AskRound(g, batteryOk, timeOk)
  }

  /** The threads' steps, in the order they interleave. */
  function Background(g: Globals, acts: seq<TraceNetworking.Activity>): Globals
    decreases |acts|
  {
    if |acts| == 0 then g else Background(Act(g, acts[0]), acts[1..])
  }

  /** One step of the script's trace. */
  datatype Tick =
    | Thread(a: TraceNetworking.Activity)
    | Frame(empty: bool, key: int, ok: bool)   // `frame is None or frame.size == 0`, `waitKey(1)`, the send

  /** One tick; the flag is true when ESC ended the loop. */
  function Iterate(g: Globals, t: Tick): (Globals, bool) {
    match t
    case Thread(a) => (Act(g, a), false)
    case Frame(empty, key, ok) =>
      if empty then (g, false)
      else if key == EscKey then (g, true)
      else if KeyBinding(key).None? then (g, false)
      else
        var (a, caption) := KeyBinding(key).value;
        (g.(sent := Commands.Transmit(g.sent, Movement.CommandText(a), ok), commandText := caption), false)
  }

  function Run(g: Globals, ts: seq<Tick>): (Globals, bool)
    decreases |ts|
  {
    if |ts| == 0 then (g, false)
    else
      var (g', exited) := Iterate(g, ts[0]);
      if exited then (g', true) else Run(g', ts[1..])
  }

  /** The script's start-up: the poller and the receiver are started first,
      so their steps `a0`, `a1`, `a2` come before, between and after the
      "command" and "streamon" sends. Those sends' errors are not caught,
      so a failed one ends the script (`None`). */
  function StartUp(a0: seq<TraceNetworking.Activity>, commandOk: bool,
                   a1: seq<TraceNetworking.Activity>, streamOk: bool,
                   a2: seq<TraceNetworking.Activity>): Option<Globals> {
    var g0 := Background(Initial(), a0);
    if !commandOk then None
    else
      var g1 := Background(g0.(sent := g0.sent + ["command"]), a1);
      if !streamOk then None
      else Some(Background(g1.(sent := g1.sent + ["streamon"]), a2))
  }

  /** After the loop: "streamoff" straight to the socket. */
  function Finish(g: Globals, ok: bool): Globals {
    g.(sent := Commands.Transmit(g.sent, "streamoff", ok))
  }

  /** Exactly eleven keys are bound, and each sends the well-formed command
      of the helper its label names. */
  lemma KeyBindingMeaning(key: int)
    ensures KeyBinding(key).Some? <==>
            key in {'w' as int, 's' as int, 'a' as int, 'd' as int, 't' as int, 'l' as int,
                    'r' as int, 'c' as int, 'q' as int, 'e' as int, 'm' as int}
    ensures KeyBinding(key).Some? ==>
              var (a, _) := KeyBinding(key).value;
              Commands.Parse(Movement.CommandText(a)) == Some(Movement.Intended(a))
    ensures KeyBinding(EscKey).None?
  {
    KeyBindingDomain(key);
    if KeyBinding(key).Some? {
      Movement.CommandTextMeansIntended(KeyBinding(key).value.0);
    }
  }

  lemma KeyBindingDomain(key: int)
    ensures KeyBinding(key).Some? <==>
            key in {'w' as int, 's' as int, 'a' as int, 'd' as int, 't' as int, 'l' as int,
                    'r' as int, 'c' as int, 'q' as int, 'e' as int, 'm' as int}
  {
  }

  /** Different keys send different commands. */
  lemma KeyBindingInjective(k1: int, k2: int)
    requires KeyBinding(k1).Some? && KeyBinding(k2).Some?
    requires Movement.CommandText(KeyBinding(k1).value.0) == Movement.CommandText(KeyBinding(k2).value.0)
    ensures k1 == k2
  {
    Movement.CommandTextInjective(KeyBinding(k1).value.0, KeyBinding(k2).value.0);
  }

  /** 'm' keeps its default: "speed 40". */
  lemma SpeedKeySendsDefault(g: Globals)
    ensures Iterate(g, Frame(false, 'm' as int, true)).0.sent == g.sent + ["speed 40"]
  {
    Movement.DefaultSpeedText();
  }

  /** A shown frame sends at most one datagram, exactly one for a bound key
      when the socket accepts it, and an empty frame skips the key. */
  lemma FrameSendsAtMostOne(g: Globals, empty: bool, key: int, ok: bool)
    ensures var g' := Iterate(g, Frame(empty, key, ok)).0;
            && g.sent <= g'.sent && |g'.sent| <= |g.sent| + 1
            && (|g'.sent| == |g.sent| + 1 <==> !empty && KeyBinding(key).Some? && ok)
            && (empty ==> Iterate(g, Frame(empty, key, ok)) == (g, false))
  {
  }

  /** The overlay is drawn before the key is read, so a bound key's label
      appears on the next shown frame, whether or not its send got through,
      above the three texts as they were. */
  lemma NextFrameShowsLabel(g: Globals, key: int, ok: bool)
    requires KeyBinding(key).Some?
    ensures Overlay(Iterate(g, Frame(false, key, ok)).0) ==
              ["Cmd:" + KeyBinding(key).value.1, g.texts.battery, g.texts.time, g.texts.status]
  {
    KeyBindingDomain(key);
  }

  /** A frame without an ESC or bound key leaves the overlay as it was. */
  lemma UnboundKeyKeepsOverlay(g: Globals, empty: bool, key: int, ok: bool)
    requires KeyBinding(key).None? || empty
    ensures Overlay(Iterate(g, Frame(empty, key, ok)).0) == Overlay(g)
  {
  }

  /** The threads only add queries to the log and leave the label alone. */
  lemma {:induction false} BackgroundOnlyQueries(g: Globals, acts: seq<TraceNetworking.Activity>)
    ensures g.sent <= Background(g, acts).sent
    ensures Telemetry.WithoutQueries(Background(g, acts).sent) == Telemetry.WithoutQueries(g.sent)
    ensures Background(g, acts).commandText == g.commandText
    decreases |acts|
  {
    if |acts| > 0 {
      var a := acts[0];
      if a.Asked? {
        var l1 := Commands.Transmit(g.sent, "battery?", a.batteryOk);
        if a.batteryOk {
          Telemetry.WithoutQueriesSnoc(g.sent, "battery?");
        }
        if a.timeOk {
          Telemetry.WithoutQueriesSnoc(l1, "time?");
        }
      }
      BackgroundOnlyQueries(Act(g, a), acts[1..]);
    }
  }

  /** Start-up gets through exactly when both sends do. Then, whatever the
      threads did meanwhile, the log without the queries is "command"
      followed by "streamon", and the label is still "None"; with the
      threads idle the texts are the initial ones. */
  lemma StartUpSendsInOrder(a0: seq<TraceNetworking.Activity>, commandOk: bool,
                            a1: seq<TraceNetworking.Activity>, streamOk: bool,
                            a2: seq<TraceNetworking.Activity>)
    ensures StartUp(a0, commandOk, a1, streamOk, a2).Some? <==> commandOk && streamOk
    ensures StartUp(a0, commandOk, a1, streamOk, a2).Some? ==>
              var g := StartUp(a0, commandOk, a1, streamOk, a2).value;
              Telemetry.WithoutQueries(g.sent) == ["command", "streamon"] && g.commandText == "None"
    ensures StartUp([], true, [], true, []).value.texts == Initial().texts
  {
    StartUpIdleTexts();
    if commandOk && streamOk {
      var g0 := Background(Initial(), a0);
      BackgroundOnlyQueries(Initial(), a0);
      assert Telemetry.WithoutQueries(g0.sent) == [];
      var g1 := SendThenBackground(g0, "command", a1);
      assert Telemetry.WithoutQueries(g1.sent) == ["command"];
      var g2 := SendThenBackground(g1, "streamon", a2);
      assert Telemetry.WithoutQueries(g2.sent) == ["command", "streamon"];
      assert StartUp(a0, commandOk, a1, streamOk, a2) == Some(g2);
    }
  }

  /** A start-up send followed by thread steps: the send stays the last
      command of the log. */
  lemma SendThenBackground(g: Globals, c: string, acts: seq<TraceNetworking.Activity>)
    returns (g': Globals)
    requires !Telemetry.IsQuery(c)
    ensures g' == Background(g.(sent := g.sent + [c]), acts)
    ensures Telemetry.WithoutQueries(g'.sent) == Telemetry.WithoutQueries(g.sent) + [c]
    ensures g'.commandText == g.commandText
  {
    Telemetry.WithoutQueriesSnoc(g.sent, c);
    BackgroundOnlyQueries(g.(sent := g.sent + [c]), acts);
    g' := Background(g.(sent := g.sent + [c]), acts);
  }

  lemma StartUpIdleTexts()
    ensures StartUp([], true, [], true, []).Some?
    ensures StartUp([], true, [], true, []).value.texts == Initial().texts
  {
  }

  /** After start-up, whatever the threads, the loop and its end do, the
      log without the queries still begins with "command", "streamon". */
  lemma ScriptBeginsWithHandshake(a0: seq<TraceNetworking.Activity>, a1: seq<TraceNetworking.Activity>,
                                  a2: seq<TraceNetworking.Activity>, ts: seq<Tick>, streamOffOk: bool)
    ensures StartUp(a0, true, a1, true, a2).Some?
    ensures var g := StartUp(a0, true, a1, true, a2).value;
            var (g', e) := Run(g, ts);
            ["command", "streamon"] <= Telemetry.WithoutQueries((if e then Finish(g', streamOffOk) else g').sent)
  {
    StartUpSendsInOrder(a0, true, a1, true, a2);
    var g := StartUp(a0, true, a1, true, a2).value;
    var (g', e) := Run(g, ts);
    RunOnlyAppends(g, ts);
    var last := if e then Finish(g', streamOffOk) else g';
    assert g.sent <= last.sent;
    Telemetry.WithoutQueriesPrefix(g.sent, last.sent);
  }

  /** The receiver here is the line tracer's receiver over the same texts:
      the slice rule, errors skipped, nothing sent. */
  lemma ReceiverMatchesTracer(g: Globals, d: Telemetry.Datagram, open: bool)
    ensures Receive(g, d).texts == TraceNetworking.Receive(TraceNetworking.Link(g.texts, g.sent, open), d).texts
    ensures Receive(g, d).sent == g.sent && Receive(g, d).commandText == g.commandText
  {
  }

  /** A reply updates one display text the way the networking client's
      receiver does, and an error changes nothing. */
  lemma ReceiveUpdatesOneField(g: Globals, raw: string)
    ensures Receive(g, Telemetry.Failure) == g
    ensures var k := Telemetry.Classify(Strip(raw));
            && Telemetry.Field(Receive(g, Telemetry.Payload(raw)).texts, k) == Telemetry.Render(k, Strip(raw))
            && (forall k' :: k' != k ==> Telemetry.Field(Receive(g, Telemetry.Payload(raw)).texts, k') == Telemetry.Field(g.texts, k'))
  {
    var resp := Strip(raw);
    Telemetry.PublishBySliceAgrees(g.texts, resp);
    assert Receive(g, Telemetry.Payload(raw)).texts == Telemetry.Publish(g.texts, resp);
    Telemetry.PublishUpdatesOneField(g.texts, resp);
  }

  /** `ask` sends "time?" even when "battery?" failed. */
  lemma AskRoundIndependent(g: Globals)
    ensures AskRound(g, false, true).sent == g.sent + ["time?"]
    ensures AskRound(g, true, true).sent == g.sent + ["battery?", "time?"]
  {
  }

  /** The main loop never takes a datagram back: the log only grows. */
  lemma {:induction false} RunOnlyAppends(g: Globals, ts: seq<Tick>)
    ensures g.sent <= Run(g, ts).0.sent
    decreases |ts|
  {
    if |ts| > 0 {
      var (g', exited) := Iterate(g, ts[0]);
      if !exited {
        RunOnlyAppends(g', ts[1..]);
      }
    }
  }

  /** The script's globals and its functions over them. */
  class Script {
    var batteryText: string
    var timeText: string
    var statusText: string
    var commandText: string
    var sent: seq<string>

    function State(): Globals
      reads this
    {
      Globals(Telemetry.Texts(batteryText, timeText, statusText), commandText, sent)
    }

    /** The module-level initialisations. */
    constructor ()
      ensures State() == Initial()
    {
      batteryText := "Battery:";
      timeText := "Time:";
      statusText := "Status:";
      commandText := "None";
      sent := [];
    }

    /** `sock.sendto` inside `try`/`except: pass`. */
    method SendSwallowing(text: string, ok: bool)
      modifies this
      ensures State() == old(State()).(sent := Commands.Transmit(old(sent), text, ok))
    {
      if ok {
        sent := sent + [text];
      }
    }

    method ReceiveOne(d: Telemetry.Datagram)
      modifies this
      ensures State() == Receive(old(State()), d)
    {
      match d {
        case Payload(raw) =>
          var resp := Strip(raw);
          if IsDecimal(resp) {
            batteryText := "Battery:" + resp + "%";
          } else if LastSlice(resp) == "s" {
            timeText := "Time:" + resp;
          } else {
            statusText := "Status:" + resp;
          }
        case Failure =>
      }
    }

    method Ask(batteryOk: bool, timeOk: bool)
      modifies this
      ensures State() == AskRound(old(State()), batteryOk, timeOk)
    {
      SendSwallowing("battery?", batteryOk);
      SendSwallowing("time?", timeOk);
    }

    /** One step of the receiver or of `ask`. */
    method Step(a: TraceNetworking.Activity)
      modifies this
      ensures State() == Act(old(State()), a)
    {
      match a
      case Heard(d) => ReceiveOne(d);
      case Asked(batteryOk, timeOk) => Ask(batteryOk, timeOk);
    }

    /** The main loop over `ticks`, then "streamoff" when ESC ended it. */
    method MainLoop(ticks: seq<Tick>, streamOffOk: bool) returns (exited: bool)
      modifies this
      ensures var (g, e) := Run(old(State()), ticks);
              exited == e && State() == (if e then Finish(g, streamOffOk) else g)
    {
      var i := 0;
      exited := false;
      ghost var g0 := State();
      while i < |ticks| && !exited
        invariant 0 <= i <= |ticks|
        invariant !exited ==> Run(State(), ticks[i..]) == Run(g0, ticks)
        invariant exited ==> (State(), true) == Run(g0, ticks)
        decreases |ticks| - i
      {
        assert ticks[i..][1..] == ticks[i + 1..];
        match ticks[i] {
          case Thread(a) => Step(a);
          case Frame(empty, key, ok) =>
            if !empty {
              if key == EscKey {
                exited := true;
              } else {
                var binding := KeyBinding(key);
                if binding.Some? {
                  SendSwallowing(Movement.CommandText(binding.value.0), ok);
                  commandText := binding.value.1;
                }
              }
            }
        }
        i := i + 1;
      }
      if exited {
        SendSwallowing("streamoff", streamOffOk);
      }
    }
  }
}
