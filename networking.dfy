/** The connection-aware Tello client of src/fbl2024/networking.py: the
    outbound command channel with its connection gate, the telemetry receiver
    that asserts liveness on every datagram, the one-shot `connect` handshake
    and the periodic status poller that demotes the connection after five
    silent seconds.

    The abstract state is the value `NetState`; the class `TelloNetworking`
    keeps the same fields and each of its methods is proved to move its
    state exactly as the matching function here does. Clock readings and
    socket outcomes are parameters. */
module Networking {
  import opened Text
  import Telemetry
  import Commands

  /** Silence, in seconds, after which the poller declares the link lost. */
  const ConnectionTimeout: real := 5.0
  /** How long `connect` waits for the acknowledgement, in seconds. */
  const ConnectWindow: real := 5.0
  const DisconnectedStatus: string := "Status: Disconnected"
  const AckStatus: string := "Status:ok"

  /** One test of `connect`'s wait loop: the clock reading and the status
      text the receiver thread has left in place at that moment. */
  datatype Poll = Poll(time: real, status: string)

  datatype NetState = NetState(
    connected: bool,                // is_connected
    lastResponse: Option<real>,     // last_response_time (None before any reply)
    texts: Telemetry.Texts,         // battery_text, time_text, status_text
    sent: seq<string>)              // every datagram handed to the socket, oldest first

  /** The state right after construction. */
  function Initial(): (s: NetState)
    ensures !s.connected && s.lastResponse == None && s.sent == []
    ensures s.texts == Telemetry.Texts("Battery:", "Time:", "Status: Disconnected")
  {
    NetState(false, None, Telemetry.Texts("Battery:", "Time:", DisconnectedStatus), [])
  }

  /** How many datagrams the receive loop takes from a stream: up to and
      including the first failure. */
  function Consumed(ds: seq<(Telemetry.Datagram, real)>): (n: nat)
    ensures n <= |ds|
    decreases |ds|
  {
    if |ds| == 0 then 0
    else if ds[0].0.Failure? then 1
    else 1 + Consumed(ds[1..])
  }

  /** The loop reads every datagram before the first failure, and stops
      right after that failure. */
  lemma {:induction false} ConsumedMeaning(ds: seq<(Telemetry.Datagram, real)>)
    ensures forall j :: 0 <= j < Consumed(ds) - 1 ==> ds[j].0.Payload?
    ensures Consumed(ds) < |ds| ==> Consumed(ds) > 0 && ds[Consumed(ds) - 1].0.Failure?
    ensures Consumed(ds) == |ds| && |ds| > 0 && ds[|ds| - 1].0.Payload? ==>
              forall j :: 0 <= j < |ds| ==> ds[j].0.Payload?
    decreases |ds|
  {
    if |ds| > 0 && ds[0].0.Payload? {
      ConsumedMeaning(ds[1..]);
      assert forall j :: 1 <= j < |ds| ==> ds[j] == ds[1..][j - 1];
    }
  }

  /** One step of the receive loop at position `i` of the stream. */
  lemma ReceiveStreamStep(s: NetState, ds: seq<(Telemetry.Datagram, real)>, i: nat)
    requires i < |ds|
    ensures ReceiveStream(s, ds[i..]) ==
            if ds[i].0.Failure? then Receive(s, ds[i].0, ds[i].1)
            else ReceiveStream(Receive(s, ds[i].0, ds[i].1), ds[i + 1..])
    ensures Consumed(ds[i..]) == if ds[i].0.Failure? then 1 else 1 + Consumed(ds[i + 1..])
  {
    assert ds[i..][1..] == ds[i + 1..];
  }

  /** `send_command(command, check_connection)`: refused while disconnected
      when the gate is on; otherwise handed to the socket, and a failing
      socket demotes the connection. */
  function Send(s: NetState, command: string, checkConnection: bool, ok: bool): NetState {
    if checkConnection && !s.connected then s
    else if ok then s.(sent := Commands.Transmit(s.sent, command, ok))
    else s.(connected := false)
  }

  /** One pass of `udp_receiver`'s loop at clock reading `now`. */
  function Receive(s: NetState, d: Telemetry.Datagram, now: real): NetState {
    match d
    case Payload(raw) =>
      s.(connected := true, lastResponse := Some(now),
         texts := Telemetry.Publish(s.texts, Strip(raw)))
    case Failure => s.(connected := false)
  }

  /** The receive loop over a stream of (datagram, clock) pairs: it stops
      after the first failure, which ends `udp_receiver`. */
  function ReceiveStream(s: NetState, ds: seq<(Telemetry.Datagram, real)>): NetState
    decreases |ds|
  {
    if |ds| == 0 then s
    else
      var s' := Receive(s, ds[0].0, ds[0].1);
      if ds[0].0.Failure? then s' else ReceiveStream(s', ds[1..])
  }

  /** The poller's timeout test, `last_response_time and now - last > 5.0`
      (a zero timestamp is falsy in Python, so it never times out). */
  predicate TimedOut(s: NetState, now: real) {
    s.lastResponse.Some? && s.lastResponse.value != 0.0
    && now - s.lastResponse.value > ConnectionTimeout
  }

  /** One iteration of `ask_status` at clock reading `now`; the two sends
      have their own socket outcomes. */
  function AskStatus(s: NetState, now: real, batteryOk: bool, timeOk: bool): NetState {
    if !s.connected then s
    else
      var checked :=
        if TimedOut(s, now)
        then s.(connected := false, texts := s.texts.(status := DisconnectedStatus))
        else s;
      Send(Send(checked, "battery?", true, batteryOk), "time?", true, timeOk)
  }

  /** `connect`'s wait loop, from the given state, over the remaining polls:
      success at the first poll inside the window that sees "Status:ok".
      A poll sequence that ends is the window closing. The receiver thread
      wrote that status text, so on success the state shows it too. */
  function AwaitAck(s: NetState, start: real, polls: seq<Poll>): (NetState, bool)
    decreases |polls|
  {
    if |polls| == 0 || !(polls[0].time - start < ConnectWindow) then (s, false)
    else if polls[0].status == AckStatus
    then (s.(connected := true, lastResponse := Some(polls[0].time), texts := s.texts.(status := AckStatus)), true)
    else AwaitAck(s, start, polls[1..])
  }

  /** `connect()`: send "command" past the gate, then wait. */
  function Handshake(s: NetState, sendOk: bool, start: real, polls: seq<Poll>): (NetState, bool) {
    AwaitAck(Send(s, "command", false, sendOk), start, polls)
  }

  /** The index of the poll at which the acknowledgement is seen, if any. */
  predicate AckAt(start: real, polls: seq<Poll>, i: int) {
    && 0 <= i < |polls|
    && polls[i].status == AckStatus
    && (forall j :: 0 <= j <= i ==> polls[j].time - start < ConnectWindow)
  }

  // ---------------------------------------------------------------------
  // Properties of the command gate

  /** With the gate on and the link down, nothing is transmitted and no
      field changes. */
  lemma GateBlocksWhileDisconnected(s: NetState, command: string, ok: bool)
    requires !s.connected
    ensures Send(s, command, true, ok) == s
  {
  }

  /** A send that passes the gate either appends the command to the log and
      changes nothing else, or fails and only demotes the connection. */
  lemma SendOutcome(s: NetState, command: string, checkConnection: bool, ok: bool)
    requires !checkConnection || s.connected
    ensures ok ==> Send(s, command, checkConnection, ok) == s.(sent := s.sent + [command])
    ensures !ok ==> Send(s, command, checkConnection, ok) == s.(connected := false)
  {
  }

  // ---------------------------------------------------------------------
  // Properties of the receiver

  /** Any datagram, whatever its content, asserts liveness and stamps the
      clock; the three texts change as the classifier says. */
  lemma ReceiveAssertsLiveness(s: NetState, raw: string, now: real)
    ensures Receive(s, Telemetry.Payload(raw), now).connected
    ensures Receive(s, Telemetry.Payload(raw), now).lastResponse == Some(now)
    ensures Receive(s, Telemetry.Payload(raw), now).sent == s.sent
    ensures Receive(s, Telemetry.Payload(raw), now).texts == Telemetry.Publish(s.texts, Strip(raw))
  {
  }

  /** The stream is processed up to and including its first failure; the
      datagrams after it have no effect and the link ends up down. */
  lemma {:induction false} ReceiveStreamStopsAtFailure(s: NetState, ds: seq<(Telemetry.Datagram, real)>, i: nat)
    requires i < |ds| && ds[i].0.Failure?
    requires forall j :: 0 <= j < i ==> ds[j].0.Payload?
    ensures ReceiveStream(s, ds) == ReceiveStream(s, ds[..i + 1])
    ensures !ReceiveStream(s, ds).connected
    decreases i
  {
    if i > 0 {
      var s' := Receive(s, ds[0].0, ds[0].1);
      ReceiveStreamStopsAtFailure(s', ds[1..], i - 1);
      assert ds[..i + 1][1..] == ds[1..][..i];
    }
  }

  /** A failure-free stream leaves the link up and stamped with the clock
      reading of its last datagram. */
  lemma {:induction false} ReceiveStreamOfPayloads(s: NetState, ds: seq<(Telemetry.Datagram, real)>)
    requires |ds| > 0
    requires forall j :: 0 <= j < |ds| ==> ds[j].0.Payload?
    ensures ReceiveStream(s, ds).connected
    ensures ReceiveStream(s, ds).lastResponse == Some(ds[|ds| - 1].1)
    ensures ReceiveStream(s, ds).sent == s.sent
    decreases |ds|
  {
    if |ds| > 1 {
      ReceiveStreamOfPayloads(Receive(s, ds[0].0, ds[0].1), ds[1..]);
    }
  }

  // ---------------------------------------------------------------------
  // Properties of the status poller

  /** While the link is down the poller sends nothing and changes nothing. */
  lemma AskStatusIdleWhileDisconnected(s: NetState, now: real, b: bool, t: bool)
    requires !s.connected
    ensures AskStatus(s, now, b, t) == s
  {
  }

  /** More than five seconds of silence demotes the link, replaces the
      status text with the disconnection marker, and the gate then
      suppresses both queries of the same iteration. */
  lemma AskStatusTimeout(s: NetState, now: real, b: bool, t: bool)
    requires s.connected && TimedOut(s, now)
    ensures AskStatus(s, now, b, t) == s.(connected := false, texts := s.texts.(status := DisconnectedStatus))
  {
  }

  /** Exactly five seconds is not yet a timeout: the strict comparison. */
  lemma AskStatusAtBoundary(s: NetState, b: bool, t: bool)
    requires s.connected && s.lastResponse.Some?
    ensures !TimedOut(s, s.lastResponse.value + ConnectionTimeout)
  {
  }

  /** A live link within the timeout gets "battery?" then "time?"; a failed
      first send demotes the link and the gate drops the second query. */
  lemma AskStatusQueries(s: NetState, now: real, b: bool, t: bool)
    requires s.connected && !TimedOut(s, now)
    ensures b && t ==> AskStatus(s, now, b, t) == s.(sent := s.sent + ["battery?", "time?"])
    ensures b && !t ==> AskStatus(s, now, b, t) == s.(sent := s.sent + ["battery?"], connected := false)
    ensures !b ==> AskStatus(s, now, b, t) == s.(connected := false)
  {
    assert s.sent + ["battery?"] + ["time?"] == s.sent + ["battery?", "time?"];
  }

  // ---------------------------------------------------------------------
  // Properties of connect

  /** `connect` succeeds exactly when some poll inside the window, with all
      earlier polls inside it too, sees "Status:ok". */
  lemma {:induction false} AwaitAckSucceedsIff(s: NetState, start: real, polls: seq<Poll>)
    ensures AwaitAck(s, start, polls).1 <==> exists i :: AckAt(start, polls, i)
    decreases |polls|
  {
    if |polls| == 0 || !(polls[0].time - start < ConnectWindow) {
      assert forall i :: AckAt(start, polls, i) ==> |polls| > 0 && polls[0].time - start < ConnectWindow;
    } else if polls[0].status == AckStatus {
      assert AckAt(start, polls, 0);
    } else {
      AwaitAckSucceedsIff(s, start, polls[1..]);
      if exists i :: AckAt(start, polls, i) {
        var i :| AckAt(start, polls, i);
        assert i > 0;
        assert AckAt(start, polls[1..], i - 1);
      }
      if exists i :: AckAt(start, polls[1..], i) {
        var i :| AckAt(start, polls[1..], i);
        assert AckAt(start, polls, i + 1);
      }
    }
  }

  /** On success the link is up, stamped with a clock reading inside the
      window, and shows "Status:ok"; on failure the state is what sending
      "command" left, so only that command and no liveness was added. The
      other texts and the log are never written. */
  lemma {:induction false} AwaitAckOutcome(s: NetState, start: real, polls: seq<Poll>)
    ensures var (r, ok) := AwaitAck(s, start, polls);
            && r.texts == (if ok then s.texts.(status := AckStatus) else s.texts) && r.sent == s.sent
            && (ok ==> r.connected && r.lastResponse.Some? && r.lastResponse.value - start < ConnectWindow)
            && (!ok ==> r == s)
    decreases |polls|
  {
    if |polls| > 0 && polls[0].time - start < ConnectWindow && polls[0].status != AckStatus {
      AwaitAckOutcome(s, start, polls[1..]);
    }
  }

  /** `connect` sends "command" even while the link is down. */
  lemma ConnectSendsCommandUngated(s: NetState, start: real, polls: seq<Poll>)
    requires !s.connected
    ensures Handshake(s, true, start, polls).0.sent == s.sent + ["command"]
  {
    AwaitAckOutcome(Send(s, "command", false, true), start, polls);
  }

  /** With no acknowledgement inside the window, `connect` fails and leaves
      the link as the "command" send left it. */
  lemma ConnectFailsWithoutAck(s: NetState, sendOk: bool, start: real, polls: seq<Poll>)
    requires forall i :: !AckAt(start, polls, i)
    ensures !Handshake(s, sendOk, start, polls).1
    ensures Handshake(s, sendOk, start, polls).0 == Send(s, "command", false, sendOk)
  {
    var s1 := Send(s, "command", false, sendOk);
    AwaitAckSucceedsIff(s1, start, polls);
    AwaitAckOutcome(s1, start, polls);
  }

  // ---------------------------------------------------------------------
  // The whole client as a sequence of atomic steps

  datatype Event =
    | Received(d: Telemetry.Datagram, now: real)
    | Sent(command: string, checkConnection: bool, ok: bool)
    | Asked(now: real, batteryOk: bool, timeOk: bool)
    | Connected(sendOk: bool, start: real, polls: seq<Poll>)
    | FrameLost   // the video loop of main.py writing is_connected = False

  function Step(s: NetState, e: Event): NetState {
    match e
    case Received(d, now) => Receive(s, d, now)
    case Sent(c, check, ok) => Send(s, c, check, ok)
    case Asked(now, b, t) => AskStatus(s, now, b, t)
    case Connected(ok, start, polls) => Handshake(s, ok, start, polls).0
    case FrameLost => s.(connected := false)
  }

  function Run(s: NetState, es: seq<Event>): NetState
    decreases |es|
  {
    if |es| == 0 then s else Run(Step(s, es[0]), es[1..])
  }

  /** Steps that can neither promote the link nor bypass the gate: no
      datagram arrives, no `connect` runs, and every send is gated. */
  predicate Quiet(e: Event) {
    match e
    case Received(d, _) => d.Failure?
    case Sent(_, check, _) => check
    case Asked(_, _, _) => true
    case Connected(_, _, _) => false
    case FrameLost => true
  }

  /** Once the link is down, no command reaches the socket until a datagram
      arrives or `connect` runs: the receiver (and the handshake) are the
      only promotion paths, and the gate holds in the meantime. */
  lemma {:induction false} SilentWhileDisconnected(s: NetState, es: seq<Event>)
    requires !s.connected
    requires forall i :: 0 <= i < |es| ==> Quiet(es[i])
    ensures !Run(s, es).connected
    ensures Run(s, es).sent == s.sent
    decreases |es|
  {
    if |es| > 0 {
      var s' := Step(s, es[0]);
      assert !s'.connected && s'.sent == s.sent;
      SilentWhileDisconnected(s', es[1..]);
    }
  }

  /** Only a datagram or a successful `connect` turns the link on. */
  lemma PromotionPaths(s: NetState, e: Event)
    requires !s.connected && Step(s, e).connected
    ensures (e.Received? && e.d.Payload?) || e.Connected?
  {
    assert (e.Sent? || e.Asked?) ==> Step(s, e) == s;
  }

  // ---------------------------------------------------------------------
  // The client object

  class TelloNetworking {
    var isConnected: bool
    var lastResponseTime: Option<real>
    var batteryText: string
    var timeText: string
    var statusText: string
    var sent: seq<string>

    function State(): NetState
      reads this
    {
      NetState(isConnected, lastResponseTime,
               Telemetry.Texts(batteryText, timeText, statusText), sent)
    }

    constructor ()
      ensures State() == Initial()
    {
      isConnected := false;
      lastResponseTime := None;
      batteryText := "Battery:";
      timeText := "Time:";
      statusText := DisconnectedStatus;
      sent := [];
    }

    method SendCommand(command: string, checkConnection: bool, ok: bool)
      modifies this
      ensures State() == Send(old(State()), command, checkConnection, ok)
    {
      if checkConnection && !isConnected {
        return;
      }
      if ok {
        sent := sent + [command];
      } else {
        isConnected := false;
      }
    }

    /** One pass of the receive loop; `more` is false once the loop ends. */
    method ReceiveOne(d: Telemetry.Datagram, now: real) returns (more: bool)
      modifies this
      ensures State() == Receive(old(State()), d, now)
      ensures more <==> d.Payload?
    {
      match d
      case Payload(raw) =>
        var resp := Strip(raw);
        lastResponseTime := Some(now);
        isConnected := true;
        if IsDecimal(resp) {
          batteryText := "Battery:" + resp + "%";
        } else if EndsWithS(resp) {
          timeText := "Time:" + resp;
        } else {
          statusText := "Status:" + resp;
        }
        more := true;
      case Failure =>
        isConnected := false;
        more := false;
    }

    /** `udp_receiver`: the receive loop over a stream of datagrams, ending
      at the first failure; `consumed` is how many it took. */
    method UdpReceiver(ds: seq<(Telemetry.Datagram, real)>) returns (consumed: nat)
      modifies this
      ensures State() == ReceiveStream(old(State()), ds)
      ensures consumed == Consumed(ds)
    {
      consumed := 0;
      var more := true;
      ghost var s0 := State();
      while consumed < |ds| && more
        invariant consumed <= |ds|
        invariant more ==> ReceiveStream(State(), ds[consumed..]) == ReceiveStream(s0, ds)
        invariant more ==> consumed + Consumed(ds[consumed..]) == Consumed(ds)
        invariant !more ==> State() == ReceiveStream(s0, ds) && consumed == Consumed(ds)
        decreases |ds| - consumed
      {
        ReceiveStreamStep(State(), ds, consumed);
        more := ReceiveOne(ds[consumed].0, ds[consumed].1);
        consumed := consumed + 1;
      }
    }

    /** One iteration of `ask_status`. */
    method AskStatusOnce(now: real, batteryOk: bool, timeOk: bool)
      modifies this
      ensures State() == AskStatus(old(State()), now, batteryOk, timeOk)
    {
      if !isConnected {
        return;
      }
      if lastResponseTime.Some? && lastResponseTime.value != 0.0
         && now - lastResponseTime.value > ConnectionTimeout {
        isConnected := false;
        statusText := DisconnectedStatus;
      }
      SendCommand("battery?", true, batteryOk);
      SendCommand("time?", true, timeOk);
    }

    /** `connect()`: send "command" ungated, then poll the status text until
      it reads "Status:ok" or the five-second window closes. */
    method Connect(sendOk: bool, start: real, polls: seq<Poll>) returns (success: bool)
      modifies this
      ensures (State(), success) == Handshake(old(State()), sendOk, start, polls)
    {
      SendCommand("command", false, sendOk);
      ghost var afterSend := State();
      var i := 0;
      while i < |polls| && polls[i].time - start < ConnectWindow
        invariant i <= |polls|
        invariant State() == afterSend
        invariant AwaitAck(afterSend, start, polls[i..]) == AwaitAck(afterSend, start, polls)
      {
        if polls[i].status == AckStatus {
          isConnected := true;
          lastResponseTime := Some(polls[i].time);
          statusText := polls[i].status;   // as the receiver left it
          return true;
        }
        assert polls[i..][1..] == polls[i + 1..];
        i := i + 1;
      }
      success := false;
    }
  }
}
