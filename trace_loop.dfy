/** The main loop of src/fbl2024/linetrace/main.py. Each captured frame is
    traced, then one key is dispatched, then a keep-alive "command" goes out
    when more than five seconds have passed since the last one. ESC ends
    the loop. Eight keys call movement helpers that the tracer's
    `TelloMovement` does not define; the resulting `AttributeError` leaves
    the loop through its `finally`. Every way out closes the link. */
module TraceLoop {
  import opened Text
  import Commands
  import Telemetry
  import TraceNetworking
  import TraceMovement
  import LineTrace

  /** What `main` does with the value of `cv2.waitKey(1)`. */
  datatype KeyAction =
    | Quit                      // ESC: break
    | Missing(helper: string)   // a helper the tracer's movement lacks
    | TakeOff | Land
    | Arm                       // '1': flag = 1
    | Disarm                    // '2': flag = 0 and a zero RC command
    | Faster | Slower           // 'y' / 'h': forward speed b up or down by 10
    | Ignored                   // no key, or a key without a branch

  const EscKey: int := 27
  /** The keep-alive period in seconds. */
  const KeepAlivePeriod: real := 5.0
  /** Forward speed step and bound of the 'y' and 'h' keys. */
  const SpeedStep: int := 10
  const MaxSpeed: int := 100

  /** The if/elif chain, in the source's order. */
  function Dispatch(key: int): KeyAction {
    if key == EscKey then Quit
    else if key == 'w' as int then Missing("forward")
    else if key == 's' as int then Missing("back")
    else if key == 'a' as int then Missing("left")
    else if key == 'd' as int then Missing("right")
    else if key == 't' as int then TakeOff
    else if key == 'l' as int then Land
    else if key == 'r' as int then Missing("up")
    else if key == 'c' as int then Missing("down")
    else if key == 'q' as int then Missing("ccw")
    else if key == 'e' as int then Missing("cw")
    else if key == '1' as int then Arm
    else if key == '2' as int then Disarm
    else if key == 'y' as int then Faster
    else if key == 'h' as int then Slower
    else Ignored
  }

  /** Exactly the eight discrete-movement keys end the program with the
      missing helper, while takeoff, land, arming and the speed keys work. */
  lemma DispatchMissingKeys(key: int)
    ensures Dispatch(key).Missing? <==>
            key in {'w' as int, 's' as int, 'a' as int, 'd' as int, 'r' as int, 'c' as int, 'q' as int, 'e' as int}
    ensures Dispatch('t' as int) == TakeOff && Dispatch('l' as int) == Land
    ensures Dispatch('1' as int) == Arm && Dispatch('2' as int) == Disarm
    ensures Dispatch('y' as int) == Faster && Dispatch('h' as int) == Slower
    ensures Dispatch(-1) == Ignored
  {
  }

  /** One pass of the `while True` loop, as the camera delivers it. */
  datatype Tick =
    | Thread(a: TraceNetworking.Activity)     // a step of the receiver or of `ask`
    | Empty                                   // `frame is None or frame.size == 0`
    | Interrupt                               // KeyboardInterrupt or SystemExit
    | Frame(trackbars: LineTrace.Thresholds,
            labels: seq<LineTrace.Component>,   // background first
            rcOk: bool,                       // socket outcome of the tracer's RC command
            key: int, keyOk: bool,            // the key and the outcome of what it sends
            now: real, aliveOk: bool)         // `time.time()` and the keep-alive's outcome

  datatype Outcome = Running | Quitted | Crashed(helper: string) | Interrupted

  /** The variables the loop changes: the tracer's fields, `pre_time` and
      the link. */
  datatype Loop = Loop(
    flag: int, b: int, thresholds: LineTrace.Thresholds,
    preTime: real,
    link: TraceNetworking.Link)

  function Min(x: int, y: int): int { if x <= y then x else y }
  function Max(x: int, y: int): int { if x >= y then x else y }

  /** The effect of a key that does not leave the loop. */
  function KeyStep(s: Loop, a: KeyAction, ok: bool): Loop
    requires !a.Quit? && !a.Missing?
  {
    match a
    case TakeOff => s.(link := TraceNetworking.Send(s.link, "takeoff", ok))
    case Land => s.(link := TraceNetworking.Send(s.link, "land", ok))
    case Arm => s.(flag := 1)
    case Disarm => s.(flag := 0, link := TraceMovement.SendRc(s.link, 0, 0, 0, 0, ok))
    case Faster => s.(b := Min(MaxSpeed, s.b + SpeedStep))
    case Slower => s.(b := Max(0, s.b - SpeedStep))
    case Ignored => s
  }

  function KeepAlive(s: Loop, now: real, ok: bool): Loop {
    if now - s.preTime > KeepAlivePeriod then
      s.(preTime := now, link := TraceNetworking.Send(s.link, "command", ok))
    else s
  }

  /** One pass of the loop body. */
  function Iterate(s: Loop, t: Tick): (Loop, Outcome) {
    match t
    case Thread(a) => (s.(link := TraceNetworking.Act(s.link, a)), Running)
    case Empty => (s, Running)
    case Interrupt => (s, Interrupted)
    case Frame(trackbars, cs, rcOk, key, keyOk, now, aliveOk) =>
      var s1 := s.(thresholds := trackbars,
                   link := LineTrace.AfterFrame(s.link, s.flag, s.b, cs, rcOk));
      var a := Dispatch(key);
      if a.Quit? then (s1, Quitted)
      else if a.Missing? then (s1, Crashed(a.helper))
      else (KeepAlive(KeyStep(s1, a, keyOk), now, aliveOk), Running)
  }

  /** The loop over a finite run of ticks: it stops at the first exit. */
  function Run(s: Loop, ts: seq<Tick>): (Loop, Outcome)
    decreases |ts|
  {
    if |ts| == 0 then (s, Running)
    else
      var (s', o) := Iterate(s, ts[0]);
      if o.Running? then Run(s', ts[1..]) else (s', o)
  }

  /** `main`'s loop and its `finally`: every exit closes the link. */
  function Session(s: Loop, ts: seq<Tick>, closeOk: bool): (Loop, Outcome) {
    var (s', o) := Run(s, ts);
    if o.Running? then (s', o) else (s'.(link := TraceNetworking.Close(s'.link, closeOk)), o)
  }

  predicate SpeedValid(b: int) {
    0 <= b <= MaxSpeed && b % SpeedStep == 0
  }

  /** The forward speed stays a multiple of 10 between 0 and 100. */
  lemma IterateKeepsSpeed(s: Loop, t: Tick)
    requires SpeedValid(s.b)
    ensures SpeedValid(Iterate(s, t).0.b)
  {
  }

  lemma {:induction false} RunKeepsSpeed(s: Loop, ts: seq<Tick>)
    requires SpeedValid(s.b)
    ensures SpeedValid(Run(s, ts).0.b)
    decreases |ts|
  {
    if |ts| > 0 {
      IterateKeepsSpeed(s, ts[0]);
      var (s', o) := Iterate(s, ts[0]);
      if o.Running? {
        RunKeepsSpeed(s', ts[1..]);
      }
    }
  }

  /** After every completed pass over a frame, the last keep-alive is at
      most five seconds old, and one was sent in that pass exactly when
      more than five seconds had passed. */
  lemma KeepAliveFresh(s: Loop, t: Tick)
    requires t.Frame? && Iterate(s, t).1.Running?
    ensures t.now - Iterate(s, t).0.preTime <= KeepAlivePeriod
    ensures Iterate(s, t).0.preTime == (if t.now - s.preTime > KeepAlivePeriod then t.now else s.preTime)
    ensures var s1 := KeyStep(s.(thresholds := t.trackbars,
                                 link := LineTrace.AfterFrame(s.link, s.flag, s.b, t.labels, t.rcOk)),
                              Dispatch(t.key), t.keyOk);
            && (t.now - s.preTime > KeepAlivePeriod && t.aliveOk && s1.link.open ==>
                  Iterate(s, t).0.link.sent == s1.link.sent + ["command"])
            && (!(t.now - s.preTime > KeepAlivePeriod) ==> Iterate(s, t).0.link == s1.link)
  {
  }

  /** The receiver and `ask` run beside the loop: their steps leave the
      tracer's fields and `pre_time` alone, and add only queries to the
      log, so the loop's own sends keep their order. */
  lemma ThreadStepOnlyQueries(s: Loop, a: TraceNetworking.Activity)
    ensures var (s', o) := Iterate(s, Thread(a));
            && o == Running
            && s'.flag == s.flag && s'.b == s.b && s'.preTime == s.preTime
            && s'.thresholds == s.thresholds
            && s.link.sent <= s'.link.sent
            && Telemetry.WithoutQueries(s'.link.sent) == Telemetry.WithoutQueries(s.link.sent)
  {
    TraceNetworking.ActOnlyQueries(s.link, a);
  }

  /** An empty frame skips the whole body, keep-alive included. */
  lemma EmptyFramesAreSkipped(s: Loop, ts: seq<Tick>)
    ensures Run(s, [Empty] + ts) == Run(s, ts)
  {
    assert ([Empty] + ts)[1..] == ts;
  }

  /** Whatever ends the loop, the `finally` closes the link: "streamoff"
      goes out while the socket is still open, and no datagram gets through
      afterwards. */
  lemma {:induction false} EveryExitCloses(s: Loop, ts: seq<Tick>, closeOk: bool)
    requires !Session(s, ts, closeOk).1.Running?
    ensures !Session(s, ts, closeOk).0.link.open
    ensures closeOk && Run(s, ts).0.link.open ==>
              Session(s, ts, closeOk).0.link.sent == Run(s, ts).0.link.sent + ["streamoff"]
  {
  }

  /** Arming sends nothing; disarming stops the drone: the flag drops and
      "rc 0 0 0 0" is sent. */
  lemma ArmAndDisarm(s: Loop, ok: bool)
    requires s.link.open
    ensures KeyStep(s, Arm, ok) == s.(flag := 1)
    ensures KeyStep(s, Disarm, true).flag == 0
    ensures KeyStep(s, Disarm, true).link.sent == s.link.sent + ["rc 0 0 0 0"]
  {
    Commands.ArgumentLiterals();
    assert Commands.RcText(0, 0, 0, 0) == "rc 0 0 0 0";
  }

  function Snapshot(tracer: LineTrace.LineTracer, networking: TraceNetworking.TelloNetworking, preTime: real): Loop
    reads tracer, networking
  {
    Loop(tracer.flag, tracer.b, tracer.thresholds, preTime, networking.State())
  }

  /** `main` after its objects exist: the loop over `ticks`, then the
      `finally` when the loop was left. */
  method TraceMain(networking: TraceNetworking.TelloNetworking, movement: TraceMovement.TelloMovement,
                   tracer: LineTrace.LineTracer, start: real, ticks: seq<Tick>, closeOk: bool)
    returns (outcome: Outcome)
    requires movement.networking == networking && tracer.movement == movement
    modifies networking, tracer
    ensures (Snapshot(tracer, networking, Session(old(Snapshot(tracer, networking, start)), ticks, closeOk).0.preTime),
             outcome) == Session(old(Snapshot(tracer, networking, start)), ticks, closeOk)
  {
    var preTime := start;
    var i := 0;
    outcome := Running;
    ghost var s0 := Snapshot(tracer, networking, start);
    while i < |ticks| && outcome.Running?
      invariant 0 <= i <= |ticks|
      invariant outcome.Running? ==> Run(Snapshot(tracer, networking, preTime), ticks[i..]) == Run(s0, ticks)
      invariant !outcome.Running? ==> (Snapshot(tracer, networking, preTime), outcome) == Run(s0, ticks)
      decreases |ticks| - i
    {
      assert ticks[i..][1..] == ticks[i + 1..];
      preTime, outcome := Pass(networking, movement, tracer, preTime, ticks[i]);
      i := i + 1;
    }
    if !outcome.Running? {
      networking.CloseLink(closeOk);
    }
  }

  /** One pass of the loop body. */
  method Pass(networking: TraceNetworking.TelloNetworking, movement: TraceMovement.TelloMovement,
              tracer: LineTrace.LineTracer, preTime: real, t: Tick)
    returns (preTime': real, outcome: Outcome)
    requires movement.networking == networking && tracer.movement == movement
    modifies networking, tracer
    ensures (Snapshot(tracer, networking, preTime'), outcome) == Iterate(old(Snapshot(tracer, networking, preTime)), t)
  {
    match t {
      case Thread(a) =>
        networking.Step(a);
        preTime', outcome := preTime, Running;
      case Empty =>
        preTime', outcome := preTime, Running;
      case Interrupt =>
        preTime', outcome := preTime, Interrupted;
      case Frame(trackbars, labels, rcOk, key, keyOk, now, aliveOk) =>
        preTime', outcome := FramePass(networking, movement, tracer, preTime, t);
    }
  }

  /** A pass over a captured frame: trace it, dispatch the key, keep the
      link alive. */
  method FramePass(networking: TraceNetworking.TelloNetworking, movement: TraceMovement.TelloMovement,
                   tracer: LineTrace.LineTracer, preTime: real, t: Tick)
    returns (preTime': real, outcome: Outcome)
    requires t.Frame?
    requires movement.networking == networking && tracer.movement == movement
    modifies networking, tracer
    ensures (Snapshot(tracer, networking, preTime'), outcome) == Iterate(old(Snapshot(tracer, networking, preTime)), t)
  {
    ghost var s0 := Snapshot(tracer, networking, preTime);
    preTime', outcome := preTime, Running;
    tracer.ProcessFrame(t.trackbars, t.labels, t.rcOk);
    ghost var s1 := Snapshot(tracer, networking, preTime);
    assert s1 == s0.(thresholds := t.trackbars,
                     link := LineTrace.AfterFrame(s0.link, s0.flag, s0.b, t.labels, t.rcOk));
    var action := Dispatch(t.key);
    if action.Quit? {
      outcome := Quitted;
    } else if action.Missing? {
      outcome := Crashed(action.helper);
    } else {
      Press(movement, tracer, preTime, action, t.keyOk);
      assert Snapshot(tracer, networking, preTime) == KeyStep(s1, action, t.keyOk);
      if t.now - preTime > KeepAlivePeriod {
        networking.SendCommand("command", t.aliveOk);
        preTime' := t.now;
      }
    }
  }

  /** The branch of the if/elif chain for a key that stays in the loop. */
  method Press(movement: TraceMovement.TelloMovement, tracer: LineTrace.LineTracer, preTime: real,
               a: KeyAction, ok: bool)
    requires !a.Quit? && !a.Missing? && tracer.movement == movement
    modifies movement.networking, tracer
    ensures Snapshot(tracer, movement.networking, preTime) ==
            KeyStep(old(Snapshot(tracer, movement.networking, preTime)), a, ok)
  {
    match a
    case TakeOff => movement.Takeoff(ok);
    case Land => movement.Land(ok);
    case Arm => tracer.flag := 1;
    case Disarm =>
      tracer.flag := 0;
      movement.SendRcControl(0, 0, 0, 0, ok);
    case Faster => tracer.b := Min(MaxSpeed, tracer.b + SpeedStep);
    case Slower => tracer.b := Max(0, tracer.b - SpeedStep);
    case Ignored =>
  }
}
