/** The keyboard client of the top-level main.py. A key listener keeps a
    table of which of eight movement keys are held; the camera loop reads
    one OpenCV key per frame for the discrete commands (ESC, takeoff, land,
    emergency stop), then turns the held keys into one RC command per frame.
    The listener, the telemetry receiver and the status poller run beside
    the loop; here their steps are interleaved with the loop's passes as
    ticks of one trace. */
module Teleop {
  import opened Text
  import Commands
  import Telemetry
  import Networking
  import RcMovement

  /** `SPEED`: the magnitude of every RC component the keys produce. */
  const Speed: int := 50

  /** The keys of `key_states`. */
  const Tracked: set<char> := {'w', 's', 'a', 'd', 'q', 'e', 'r', 'c'}

  /** A pynput key: a character key, or a special key (ESC among them) that
      has no `char`. */
  datatype Key = CharKey(ch: char) | SpecialKey(isEsc: bool)

  /** `key_states` as the program starts: every tracked key up. */
  function InitialKeys(): (m: map<char, bool>)
    ensures m.Keys == Tracked
    ensures forall k :: k in m ==> !m[k]
  {
    map k | k in Tracked :: false
  }

  /** A key counts as held when the table has it as pressed. */
  predicate Held(m: map<char, bool>, k: char) {
    k in m && m[k]
  }

  /** `on_press`: a tracked character key becomes held; other keys, and
      special keys (whose `char` raises AttributeError), change nothing. */
  function Pressed(m: map<char, bool>, key: Key): (m': map<char, bool>)
    ensures m'.Keys == m.Keys
    ensures key.CharKey? && key.ch in m ==> Held(m', key.ch)
    ensures forall k :: k in m && !(key.CharKey? && key.ch == k) ==> m'[k] == m[k]
  {
    if key.CharKey? && key.ch in m then m[key.ch := true] else m
  }

  /** `on_release`, apart from its return value. */
  function Released(m: map<char, bool>, key: Key): (m': map<char, bool>)
    ensures m'.Keys == m.Keys
    ensures key.CharKey? && key.ch in m ==> !Held(m', key.ch)
    ensures forall k :: k in m && !(key.CharKey? && key.ch == k) ==> m'[k] == m[k]
  {
    if key.CharKey? && key.ch in m then m[key.ch := false] else m
  }

  /** `on_release` returns False, which stops the listener, for ESC only. */
  function KeepsListening(key: Key): bool {
    key != SpecialKey(true)
  }

  /** The emergency stop's `for k in key_states: key_states[k] = False`. */
  function AllReleased(m: map<char, bool>): (m': map<char, bool>)
    ensures m'.Keys == m.Keys
    ensures forall k :: k in m' ==> !m'[k]
  {
    map k | k in m :: false
  }

  /** The four RC values (left-right, forward-back, up-down, yaw) for the
      held keys, as the if/elif chains compute them. */
  function RcFromKeys(m: map<char, bool>): (int, int, int, int) {
    var fb := if Held(m, 'w') then Speed else if Held(m, 's') then -Speed else 0;
    var lr := if Held(m, 'a') then -Speed else if Held(m, 'd') then Speed else 0;
    var ud := if Held(m, 'r') then Speed else if Held(m, 'c') then -Speed else 0;
    var yaw := if Held(m, 'q') then -Speed else if Held(m, 'e') then Speed else 0;
    (lr, fb, ud, yaw)
  }

  predicate Level(v: int) {
    v == -Speed || v == 0 || v == Speed
  }

  /** Every RC component is full speed one way, full speed the other, or
      zero; an axis moves exactly when one of its keys is held, and the key
      named first in its chain (w, a, r, q) wins over its opposite. */
  lemma RcFromKeysMeaning(m: map<char, bool>)
    ensures var (lr, fb, ud, yaw) := RcFromKeys(m); Level(lr) && Level(fb) && Level(ud) && Level(yaw)
    ensures var (lr, fb, ud, yaw) := RcFromKeys(m);
            && (fb != 0 <==> Held(m, 'w') || Held(m, 's')) && (fb == Speed <==> Held(m, 'w'))
            && (lr != 0 <==> Held(m, 'a') || Held(m, 'd')) && (lr == -Speed <==> Held(m, 'a'))
            && (ud != 0 <==> Held(m, 'r') || Held(m, 'c')) && (ud == Speed <==> Held(m, 'r'))
            && (yaw != 0 <==> Held(m, 'q') || Held(m, 'e')) && (yaw == -Speed <==> Held(m, 'q'))
  {
  }

  /** No key held: the drone hovers. In particular right after an emergency
      stop every RC component is zero. */
  lemma ReleasedKeysHover(m: map<char, bool>)
    ensures RcFromKeys(AllReleased(m)) == (0, 0, 0, 0)
  {
  }

  /** The axes are independent: pressing or releasing a key of one axis
      changes no other axis. */
  lemma AxesIndependent(m: map<char, bool>, key: Key)
    requires key.CharKey? && key.ch in {'w', 's'}
    ensures RcFromKeys(Pressed(m, key)).0 == RcFromKeys(m).0
    ensures RcFromKeys(Pressed(m, key)).2 == RcFromKeys(m).2
    ensures RcFromKeys(Pressed(m, key)).3 == RcFromKeys(m).3
    ensures RcFromKeys(Released(m, key)).0 == RcFromKeys(m).0
    ensures RcFromKeys(Released(m, key)).2 == RcFromKeys(m).2
    ensures RcFromKeys(Released(m, key)).3 == RcFromKeys(m).3
  {
    assert forall k :: k in {'a', 'd', 'r', 'c', 'q', 'e'} ==>
      (Held(Pressed(m, key), k) == Held(m, k) && Held(Released(m, key), k) == Held(m, k));
  }

  /** The text shown over the frame: the command and the three telemetry
      texts while connected, the warning alone otherwise. */
  function Overlay(connected: bool, commandText: string, t: Telemetry.Texts): seq<string> {
    if connected then ["Cmd: " + commandText, t.battery, t.time, t.status]
    else ["DRONE NOT CONNECTED!"]
  }

  /** One step of the trace: a listener callback, a receiver or poller
      round, or a pass of the camera loop. */
  datatype Tick =
    | Press(key: Key)
    | Release(key: Key)
    | Reply(d: Telemetry.Datagram, now: real)
    | StatusRound(now: real, batteryOk: bool, timeOk: bool)
    | Pass(frameOk: bool,   // `ret` of `cap.read()`
           rawKey: int,     // `cv2.waitKey(1)`, -1 when no key
           keyOk: bool,     // socket outcome of the discrete command, if any
           rcOk: bool)      // socket outcome of the RC command

  /** Everything the trace changes. */
  datatype Teleop = Teleop(
    keys: map<char, bool>,
    listening: bool,      // the listener has not stopped
    receiving: bool,      // `udp_receiver` has not left its loop
    commandText: string,
    net: Networking.NetState)

  datatype Outcome = ConnectFailed | Flying | ShutDown

  const EscCode: int := 27

  /** `waitKey(1) & 0xFF`: the low byte, so -1 reads as 255. */
  function KeyCode(rawKey: int): (k: int)
    ensures 0 <= k < 256
    ensures 0 <= rawKey < 256 ==> k == rawKey
    ensures (rawKey - k) % 256 == 0
  {
    rawKey % 256
  }

  /** The discrete branch of a pass: the gated command, its label, and the
      key table after it. */
  function Discrete(s: Teleop, key: int, ok: bool): Teleop {
    if key == 't' as int then
      s.(net := Networking.Send(s.net, RcMovement.CommandText(RcMovement.Takeoff), true, ok), commandText := "Takeoff")
    else if key == 'l' as int then
      s.(net := Networking.Send(s.net, RcMovement.CommandText(RcMovement.Land), true, ok), commandText := "Land")
    else if key == ' ' as int then
      s.(net := Networking.Send(s.net, RcMovement.CommandText(RcMovement.Stop), true, ok),
         commandText := "EMERGENCY STOP", keys := AllReleased(s.keys))
    else s
  }

  /** A pass that does not read ESC: the discrete command, then the RC
      command that the held keys give. */
  function Drive(s: Teleop, key: int, keyOk: bool, rcOk: bool): Teleop {
    var s1 := Discrete(s, key, keyOk);
    var (lr, fb, ud, yaw) := RcFromKeys(s1.keys);
    s1.(net := RcMovement.SendRc(s1.net, lr, fb, ud, yaw, rcOk))
  }

  /** One tick; the flag is true when the loop left through ESC. */
  function Iterate(s: Teleop, t: Tick): (Teleop, bool) {
    match t
    case Press(key) =>
      (if s.listening then s.(keys := Pressed(s.keys, key)) else s, false)
    case Release(key) =>
      (if s.listening then s.(keys := Released(s.keys, key), listening := KeepsListening(key)) else s, false)
    case Reply(d, now) =>
      (if s.receiving then s.(net := Networking.Receive(s.net, d, now), receiving := d.Payload?) else s, false)
    case StatusRound(now, batteryOk, timeOk) =>
      (s.(net := Networking.AskStatus(s.net, now, batteryOk, timeOk)), false)
    case Pass(frameOk, rawKey, keyOk, rcOk) =>
      var s0 := if frameOk then s else s.(net := s.net.(connected := false));
      var key := KeyCode(rawKey);
      if key == EscCode then (s0, true) else (Drive(s0, key, keyOk, rcOk), false)
  }

  function Run(s: Teleop, ts: seq<Tick>): (Teleop, bool)
    decreases |ts|
  {
    if |ts| == 0 then (s, false)
    else
      var (s', exited) := Iterate(s, ts[0]);
      if exited then (s', true) else Run(s', ts[1..])
  }

  /** The clean-up after ESC: land and stop the stream through the gate,
      then stop the listener. */
  function Shutdown(s: Teleop, landOk: bool, streamOffOk: bool): Teleop {
    var net := Networking.Send(s.net, "land", true, landOk);
    s.(net := Networking.Send(net, "streamoff", true, streamOffOk), listening := false)
  }

  /** The start-up: the handshake, `sys.exit()` when it fails, then
      "streamon" through the gate. */
  function StartUp(s: Networking.NetState, sendOk: bool, start: real, polls: seq<Networking.Poll>,
                   streamOk: bool): Option<Networking.NetState> {
    var (s1, ok) := Networking.Handshake(s, sendOk, start, polls);
    if ok then Some(Networking.Send(s1, "streamon", true, streamOk)) else None
  }

  /** All of `main`: start-up, the loop over `ticks`, and the clean-up if
      ESC was read. */
  function Session(s: Networking.NetState, keys: map<char, bool>, sendOk: bool, start: real,
                   polls: seq<Networking.Poll>, streamOk: bool, ts: seq<Tick>,
                   landOk: bool, streamOffOk: bool): (Teleop, Outcome) {
    match StartUp(s, sendOk, start, polls, streamOk)
    case None => (Teleop(keys, true, true, "None", Networking.Handshake(s, sendOk, start, polls).0), ConnectFailed)
    case Some(net) =>
      var (t, exited) := Run(Teleop(keys, true, true, "None", net), ts);
      if exited then (Shutdown(t, landOk, streamOffOk), ShutDown) else (t, Flying)
  }

  /** The key table keeps exactly the eight tracked keys. */
  lemma IterateKeepsKeys(s: Teleop, t: Tick)
    ensures Iterate(s, t).0.keys.Keys == s.keys.Keys
  {
    match t
    case Press(key) =>
    case Release(key) =>
    case Reply(d, now) =>
      assert Iterate(s, t).0.keys == s.keys;
    case StatusRound(now, batteryOk, timeOk) =>
      assert Iterate(s, t).0.keys == s.keys;
    case Pass(frameOk, rawKey, keyOk, rcOk) =>
      var s0 := if frameOk then s else s.(net := s.net.(connected := false));
      var key := KeyCode(rawKey);
      assert Iterate(s, t).0 == if key == EscCode then s0 else Drive(s0, key, keyOk, rcOk);
      DriveKeepsKeys(s0, key, keyOk, rcOk);
  }

  lemma DriveKeepsKeys(s: Teleop, key: int, keyOk: bool, rcOk: bool)
    ensures Drive(s, key, keyOk, rcOk).keys.Keys == s.keys.Keys
  {
    var s1 := Discrete(s, key, keyOk);
    assert s1.keys == (if key == ' ' as int then AllReleased(s.keys) else s.keys);
    var (lr, fb, ud, yaw) := RcFromKeys(s1.keys);
    assert Drive(s, key, keyOk, rcOk) == s1.(net := RcMovement.SendRc(s1.net, lr, fb, ud, yaw, rcOk));
  }

  lemma {:induction false} RunKeepsKeys(s: Teleop, ts: seq<Tick>)
    ensures Run(s, ts).0.keys.Keys == s.keys.Keys
    decreases |ts|
  {
    if |ts| > 0 {
      IterateKeepsKeys(s, ts[0]);
      var (s', exited) := Iterate(s, ts[0]);
      if !exited {
        RunKeepsKeys(s', ts[1..]);
      }
    }
  }

  /** Every pass that does not read ESC ends by sending one RC command for
      the keys held after its discrete command; the RC command does not wait
      for the link, so it goes out even during a dropout. */
  lemma PassEndsWithRc(s: Teleop, frameOk: bool, rawKey: int, keyOk: bool)
    requires KeyCode(rawKey) != EscCode
    ensures var (s', exited) := Iterate(s, Pass(frameOk, rawKey, keyOk, true));
            && !exited
            && |s'.net.sent| > 0
            && Commands.Parse(s'.net.sent[|s'.net.sent| - 1]) == Some(Commands.Rc(RcFromKeys(s'.keys).0, RcFromKeys(s'.keys).1, RcFromKeys(s'.keys).2, RcFromKeys(s'.keys).3))
    ensures var s0 := if frameOk then s else s.(net := s.net.(connected := false));
            var s1 := Discrete(s0, KeyCode(rawKey), keyOk);
            && s.net.sent <= s1.net.sent && |s1.net.sent| <= |s.net.sent| + 1
            && Iterate(s, Pass(frameOk, rawKey, keyOk, true)).0.net.sent ==
                 s1.net.sent + [Commands.RcText(RcFromKeys(s1.keys).0, RcFromKeys(s1.keys).1, RcFromKeys(s1.keys).2, RcFromKeys(s1.keys).3)]
  {
    var key := KeyCode(rawKey);
    var s0 := if frameOk then s else s.(net := s.net.(connected := false));
    assert Iterate(s, Pass(frameOk, rawKey, keyOk, true)) == (Drive(s0, key, keyOk, true), false);
    var s1 := Discrete(s0, key, keyOk);
    var (lr, fb, ud, yaw) := RcFromKeys(s1.keys);
    var s' := s1.(net := RcMovement.SendRc(s1.net, lr, fb, ud, yaw, true));
    assert Drive(s0, key, keyOk, true) == s';
    assert s'.net.sent == s1.net.sent + [Commands.RcText(lr, fb, ud, yaw)];
    Commands.RcTextRoundTrip(lr, fb, ud, yaw);
    DiscreteSendsAtMostOne(s0, key, keyOk);
  }

  lemma DiscreteSendsAtMostOne(s: Teleop, key: int, ok: bool)
    ensures s.net.sent <= Discrete(s, key, ok).net.sent
    ensures |Discrete(s, key, ok).net.sent| <= |s.net.sent| + 1
  {
  }

  /** `waitKey` returns -1 when no key is pressed; its low byte, 255,
      picks no discrete branch. */
  lemma NoKeyIsNoCommand(s: Teleop, ok: bool)
    ensures KeyCode(-1) == 255 && KeyCode(-1) != EscCode
    ensures Discrete(s, KeyCode(-1), ok) == s
  {
  }

  /** A lost frame leaves the link demoted at the end of its pass, whatever
      key was read: nothing in the pass promotes it. */
  lemma LostFrameDemotes(s: Teleop, rawKey: int, keyOk: bool, rcOk: bool)
    ensures !Iterate(s, Pass(false, rawKey, keyOk, rcOk)).0.net.connected
  {
    var s0 := s.(net := s.net.(connected := false));
    assert Discrete(s0, KeyCode(rawKey), keyOk).net == s0.net;
  }

  /** The frame of a pass that lost its camera frame shows only the warning:
      the link is down when the overlay is drawn. The black placeholder
      frame is taken to be built and resized without error. */
  lemma LostFrameShowsWarning(s: Teleop, rawKey: int, keyOk: bool, rcOk: bool)
    requires KeyCode(rawKey) != EscCode
    ensures var s' := Iterate(s, Pass(false, rawKey, keyOk, rcOk)).0;
            Overlay(s'.net.connected, s'.commandText, s'.net.texts) == ["DRONE NOT CONNECTED!"]
  {
    LostFrameDemotes(s, rawKey, keyOk, rcOk);
  }

  /** On a live link whose sends succeed, the frame shows the label of the
      discrete command read in that pass (or the previous label when none
      was), then the three telemetry texts as they were. */
  lemma ConnectedPassShowsCommand(s: Teleop, rawKey: int, rcOk: bool)
    requires s.net.connected && KeyCode(rawKey) != EscCode
    ensures var s' := Iterate(s, Pass(true, rawKey, true, rcOk)).0;
            var key := KeyCode(rawKey);
            var shown := if key == 't' as int then "Takeoff"
                         else if key == 'l' as int then "Land"
                         else if key == ' ' as int then "EMERGENCY STOP"
                         else s.commandText;
            Overlay(s'.net.connected, s'.commandText, s'.net.texts) ==
              ["Cmd: " + shown, s.net.texts.battery, s.net.texts.time, s.net.texts.status]
  {
    var key := KeyCode(rawKey);
    var s1 := Discrete(s, key, true);
    DiscreteKeepsLink(s, key);
    var (lr, fb, ud, yaw) := RcFromKeys(s1.keys);
    assert Iterate(s, Pass(true, rawKey, true, rcOk)).0 == s1.(net := RcMovement.SendRc(s1.net, lr, fb, ud, yaw, rcOk));
  }

  lemma DiscreteKeepsLink(s: Teleop, key: int)
    requires s.net.connected
    ensures Discrete(s, key, true).net.connected
    ensures Discrete(s, key, true).net.texts == s.net.texts
    ensures Discrete(s, key, true).commandText ==
              if key == 't' as int then "Takeoff"
              else if key == 'l' as int then "Land"
              else if key == ' ' as int then "EMERGENCY STOP"
              else s.commandText
  {
  }

  /** A frame the camera fails to deliver demotes the link in that pass, so
      a takeoff read in the same pass is not sent, while the RC command is.
      The black placeholder frame is taken to be built without error. */
  lemma LostFrameBlocksTakeoff(s: Teleop, keyOk: bool)
    ensures var (s', _) := Iterate(s, Pass(false, 't' as int, keyOk, true));
            && !s'.net.connected
            && s'.net.sent == s.net.sent + [Commands.RcText(RcFromKeys(s.keys).0, RcFromKeys(s.keys).1, RcFromKeys(s.keys).2, RcFromKeys(s.keys).3)]
  {
  }

  /** The emergency stop: "stop" through the gate, every key released, and
      a zero RC command in the same pass. */
  lemma EmergencyStopZeroes(s: Teleop)
    requires s.net.connected
    ensures var (s', _) := Iterate(s, Pass(true, ' ' as int, true, true));
            && s'.net.sent == s.net.sent + ["stop", "rc 0 0 0 0"]
            && (forall k :: k in s'.keys ==> !s'.keys[k])
            && s'.commandText == "EMERGENCY STOP"
  {
    Commands.ArgumentLiterals();
    assert Commands.RcText(0, 0, 0, 0) == "rc 0 0 0 0";
    var s1 := Discrete(s, ' ' as int, true);
    assert s1.net.sent == s.net.sent + ["stop"] && s1.keys == AllReleased(s.keys);
    ReleasedKeysHover(s.keys);
    assert Iterate(s, Pass(true, ' ' as int, true, true)).0 == s1.(net := RcMovement.SendRc(s1.net, 0, 0, 0, 0, true));
  }

  /** After ESC is released the listener has stopped: later key events
      leave the table as it is. */
  lemma ListenerStopsOnEsc(s: Teleop, key: Key)
    requires s.listening
    ensures !Iterate(s, Release(SpecialKey(true))).0.listening
    ensures var s' := Iterate(s, Release(SpecialKey(true))).0;
            Iterate(s', Press(key)).0 == s' && Iterate(s', Release(key)).0 == s'
  {
  }

  /** Once the receiver meets an error it has left its loop: later replies
      change nothing. */
  lemma ReceiverStopsOnFailure(s: Teleop, now: real, d: Telemetry.Datagram, later: real)
    requires s.receiving
    ensures var s' := Iterate(s, Reply(Telemetry.Failure, now)).0;
            !s'.receiving && !s'.net.connected && Iterate(s', Reply(d, later)).0 == s'
  {
  }

  /** The clean-up lands and stops the stream only over a live link: if ESC
      is read in a pass whose frame was lost (and the placeholder frame is
      built without error), neither "land" nor "streamoff" is sent. */
  lemma ShutdownNeedsLink(s: Teleop, landOk: bool, streamOffOk: bool)
    ensures s.net.connected && landOk && streamOffOk ==>
              Shutdown(s, landOk, streamOffOk).net.sent == s.net.sent + ["land", "streamoff"]
    ensures !s.net.connected ==> Shutdown(s, landOk, streamOffOk).net.sent == s.net.sent
    ensures var (s', exited) := Iterate(s, Pass(false, EscCode, landOk, true));
            exited && Shutdown(s', landOk, streamOffOk).net.sent == s.net.sent
  {
  }

  /** The start-up either exits or leaves the link up, showing the
      acknowledgement the handshake saw, with the stream requested. */
  lemma StartUpOutcome(s: Networking.NetState, sendOk: bool, start: real, polls: seq<Networking.Poll>)
    ensures StartUp(s, sendOk, start, polls, true).Some? <==> Networking.Handshake(s, sendOk, start, polls).1
    ensures StartUp(s, sendOk, start, polls, true).Some? ==>
              var net := StartUp(s, sendOk, start, polls, true).value;
              net.connected && net.sent[|net.sent| - 1] == "streamon"
              && net.texts.status == Networking.AckStatus
  {
    Networking.AwaitAckOutcome(Networking.Send(s, "command", false, sendOk), start, polls);
  }

  /** The table of `key_states` and its listener callbacks. */
  class KeyStates {
    var states: map<char, bool>

    constructor ()
      ensures states == InitialKeys()
    {
      states := InitialKeys();
    }

    method OnPress(key: Key)
      modifies this
      ensures states == Pressed(old(states), key)
    {
      if key.CharKey? && key.ch in states {
        states := states[key.ch := true];
      }
    }

    method OnRelease(key: Key) returns (keepListening: bool)
      modifies this
      ensures states == Released(old(states), key)
      ensures keepListening == KeepsListening(key)
    {
      if key.CharKey? && key.ch in states {
        states := states[key.ch := false];
      }
      keepListening := !(key.SpecialKey? && key.isEsc);
    }

    /** The emergency stop's loop over the table. */
    method ReleaseAll()
      modifies this
      ensures states == AllReleased(old(states))
    {
      var pending := states.Keys;
      while pending != {}
        invariant pending <= states.Keys && states.Keys == old(states).Keys
        invariant forall k :: k in states && k !in pending ==> !states[k]
        decreases pending
      {
        var k :| k in pending;
        states := states[k := false];
        pending := pending - {k};
      }
    }
  }

  function Snapshot(keyStates: KeyStates, networking: Networking.TelloNetworking,
                    listening: bool, receiving: bool, commandText: string): Teleop
    reads keyStates, networking
  {
    Teleop(keyStates.states, listening, receiving, commandText, networking.State())
  }

  /** `main` once its objects exist, with the outcomes of everything it
      waits for given up front. */
  method TeleopMain(networking: Networking.TelloNetworking, movement: RcMovement.TelloMovement,
                    keyStates: KeyStates, sendOk: bool, start: real, polls: seq<Networking.Poll>,
                    streamOk: bool, ticks: seq<Tick>, landOk: bool, streamOffOk: bool)
    returns (outcome: Outcome)
    requires movement.networking == networking
    modifies networking, keyStates
    ensures var r := Session(old(networking.State()), old(keyStates.states), sendOk, start, polls,
                             streamOk, ticks, landOk, streamOffOk);
            networking.State() == r.0.net && keyStates.states == r.0.keys && outcome == r.1
  {
    var connected := networking.Connect(sendOk, start, polls);
    if !connected {
      return ConnectFailed;
    }
    networking.SendCommand("streamon", true, streamOk);
    ghost var net := networking.State();
    assert StartUp(old(networking.State()), sendOk, start, polls, streamOk) == Some(net);
    var exited := Loop(networking, movement, keyStates, ticks);
    if exited {
      movement.Perform(RcMovement.Land, landOk);
      networking.SendCommand("streamoff", true, streamOffOk);
      outcome := ShutDown;
    } else {
      outcome := Flying;
    }
  }

  /** The camera loop and the threads beside it, from a fresh start of the
      listener and the receiver. */
  method Loop(networking: Networking.TelloNetworking, movement: RcMovement.TelloMovement,
              keyStates: KeyStates, ticks: seq<Tick>)
    returns (exited: bool)
    requires movement.networking == networking
    modifies networking, keyStates
    ensures var (t, e) := Run(Teleop(old(keyStates.states), true, true, "None", old(networking.State())), ticks);
            exited == e && networking.State() == t.net && keyStates.states == t.keys
  {
    var listening, receiving, commandText := true, true, "None";
    exited := false;
    var i := 0;
    ghost var s0 := Snapshot(keyStates, networking, listening, receiving, commandText);
    while i < |ticks| && !exited
      invariant 0 <= i <= |ticks|
      invariant !exited ==> Run(Snapshot(keyStates, networking, listening, receiving, commandText), ticks[i..]) == Run(s0, ticks)
      invariant exited ==> (Snapshot(keyStates, networking, listening, receiving, commandText), true) == Run(s0, ticks)
      decreases |ticks| - i
    {
      assert ticks[i..][1..] == ticks[i + 1..];
      listening, receiving, commandText, exited :=
        Tock(networking, movement, keyStates, listening, receiving, commandText, ticks[i]);
      i := i + 1;
    }
  }

  /** One tick of the trace on the objects. */
  method Tock(networking: Networking.TelloNetworking, movement: RcMovement.TelloMovement,
              keyStates: KeyStates, listening: bool, receiving: bool, commandText: string, t: Tick)
    returns (listening': bool, receiving': bool, commandText': string, exited: bool)
    requires movement.networking == networking
    modifies networking, keyStates
    ensures (Snapshot(keyStates, networking, listening', receiving', commandText'), exited) ==
            Iterate(old(Snapshot(keyStates, networking, listening, receiving, commandText)), t)
  {
    listening', receiving', commandText', exited := listening, receiving, commandText, false;
    match t {
      case Press(key) =>
        if listening {
          keyStates.OnPress(key);
        }
      case Release(key) =>
        if listening {
          listening' := keyStates.OnRelease(key);
        }
      case Reply(d, now) =>
        if receiving {
          receiving' := networking.ReceiveOne(d, now);
        }
      case StatusRound(now, batteryOk, timeOk) =>
        networking.AskStatusOnce(now, batteryOk, timeOk);
      case Pass(frameOk, rawKey, keyOk, rcOk) =>
        commandText', exited := FramePass(networking, movement, keyStates, listening, receiving, commandText,
                                          frameOk, rawKey, keyOk, rcOk);
    }
  }

  /** One pass of the camera loop. */
  method FramePass(networking: Networking.TelloNetworking, movement: RcMovement.TelloMovement,
                   keyStates: KeyStates, listening: bool, receiving: bool, commandText: string,
                   frameOk: bool, rawKey: int, keyOk: bool, rcOk: bool)
    returns (commandText': string, exited: bool)
    requires movement.networking == networking
    modifies networking, keyStates
    ensures (Snapshot(keyStates, networking, listening, receiving, commandText'), exited) ==
            Iterate(old(Snapshot(keyStates, networking, listening, receiving, commandText)),
                    Pass(frameOk, rawKey, keyOk, rcOk))
  {
    commandText', exited := commandText, false;
    if !frameOk {
      networking.isConnected := false;
    }
    var key := rawKey % 256;
    if key == EscCode {
      exited := true;
    } else {
      ghost var s0 := Snapshot(keyStates, networking, listening, receiving, commandText);
      commandText' := DiscreteKey(networking, movement, keyStates, commandText, key, keyOk);
      ghost var s1 := Discrete(s0, key, keyOk);
      assert Snapshot(keyStates, networking, listening, receiving, commandText') == s1;
      var (lr, fb, ud, yaw) := RcFromKeys(keyStates.states);
      movement.SendRcControl(lr, fb, ud, yaw, rcOk);
    }
  }

  /** The `if`/`elif` chain of the discrete commands. */
  method DiscreteKey(networking: Networking.TelloNetworking, movement: RcMovement.TelloMovement,
                     keyStates: KeyStates, commandText: string, key: int, ok: bool)
    returns (commandText': string)
    requires movement.networking == networking
    modifies networking, keyStates
    ensures forall listening, receiving ::
              Snapshot(keyStates, networking, listening, receiving, commandText') ==
              Discrete(old(Snapshot(keyStates, networking, listening, receiving, commandText)), key, ok)
  {
    commandText' := commandText;
    if key == 't' as int {
      movement.Perform(RcMovement.Takeoff, ok);
      commandText' := "Takeoff";
    } else if key == 'l' as int {
      movement.Perform(RcMovement.Land, ok);
      commandText' := "Land";
    } else if key == ' ' as int {
      movement.Perform(RcMovement.Stop, ok);
      commandText' := "EMERGENCY STOP";
      keyStates.ReleaseAll();
    }
  }
}
