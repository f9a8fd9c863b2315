/** The line follower of src/fbl2024/linetrace/linetrace.py. OpenCV's part
    of `process_frame` (resize, crop, HSV threshold, dilation and the
    connected-component analysis) is an input here: the frame arrives as the
    list of its labelled components, background first, each with its pixel
    area and the x coordinate of its centroid. The model keeps what the
    tracer decides from them: drop the background, pick the largest
    remaining component (the first one on a tie, as `np.argmax` does) and,
    when armed, steer towards it with a yaw that has a dead band and
    saturates. */
module LineTrace {
  import opened Text
  import Commands
  import TraceNetworking
  import TraceMovement

  /** One labelled component: `stats[i][4]` and `center[i][0]`. */
  datatype Component = Component(area: nat, centroidX: real)

  /** The six HSV bounds read from the trackbars. */
  datatype Thresholds = Thresholds(hMin: int, hMax: int, sMin: int, sMax: int, vMin: int, vMax: int)

  /** The bounds the tracer starts with: every hue (0..179 in OpenCV's 8-bit
      HSV), saturation and value (0..255) passes. */
  const FullRange: Thresholds := Thresholds(0, 179, 0, 255, 0, 255)

  /** The frame is resized to 480 pixels wide; its centre column. */
  const Centre: int := 240
  /** Offsets from the centre strictly below this turn nothing. */
  const DeadBand: int := 50
  /** The largest yaw the tracer commands, either way. */
  const MaxYaw: int := 70

  /** Python's `int()` on a float: truncation toward zero. */
  function Truncate(x: real): (n: int)
    ensures x >= 0.0 ==> n as real <= x < n as real + 1.0
    ensures x < 0.0 ==> n as real - 1.0 < x <= n as real
  {
    if x >= 0.0 then x.Floor else -((-x).Floor)
  }

  function Abs(x: int): nat {
    if x < 0 then -x else x
  }

  /** `np.argmax`: the first index holding the maximum. */
  function ArgMax(xs: seq<nat>): (k: nat)
    requires |xs| > 0
    ensures k < |xs|
    ensures forall j :: 0 <= j < |xs| ==> xs[j] <= xs[k]
    ensures forall j :: 0 <= j < k ==> xs[j] < xs[k]
    decreases |xs|
  {
    if |xs| == 1 then 0
    else
      var k := ArgMax(xs[..|xs| - 1]);
      if xs[|xs| - 1] > xs[k] then |xs| - 1 else k
  }

  function Areas(cs: seq<Component>): (areas: seq<nat>)
    ensures |areas| == |cs|
    ensures forall i :: 0 <= i < |cs| ==> areas[i] == cs[i].area
  {
    if |cs| == 0 then [] else [cs[0].area] + Areas(cs[1..])
  }

  /** The component the tracer follows: the largest one, the first on a tie. */
  function Target(cs: seq<Component>): (k: nat)
    requires |cs| > 0
    ensures k < |cs|
    ensures forall j :: 0 <= j < |cs| ==> cs[j].area <= cs[k].area
    ensures forall j :: 0 <= j < k ==> cs[j].area < cs[k].area
  {
    ArgMax(Areas(cs))
  }

  /** The yaw for a target centred at column `mx`, computed in the source's
      steps: offset from the centre, dead band, sign flip, two clamps. The
      floats it uses hold integers, so integers compute the same values. */
  function Yaw(mx: int): int {
    var dx := Centre - mx;
    var d := if Abs(dx) < DeadBand then 0 else dx;
    var d := -d;
    var d := if d > MaxYaw then MaxYaw else d;
    if d < -MaxYaw then -MaxYaw else d
  }

  /** The yaw is bounded, zero inside the dead band, otherwise the offset of
      the target from the centre (a target right of centre turns clockwise),
      clipped to the bound. */
  lemma YawMeaning(mx: int)
    ensures -MaxYaw <= Yaw(mx) <= MaxYaw
    ensures Abs(mx - Centre) < DeadBand <==> Yaw(mx) == 0
    ensures Abs(mx - Centre) >= DeadBand ==>
              (mx > Centre ==> Yaw(mx) == if mx - Centre > MaxYaw then MaxYaw else mx - Centre) &&
              (mx < Centre ==> Yaw(mx) == if mx - Centre < -MaxYaw then -MaxYaw else mx - Centre)
  {
  }

  /** Moving the target right never turns the drone less clockwise. */
  lemma YawMonotone(m1: int, m2: int)
    requires m1 <= m2
    ensures Yaw(m1) <= Yaw(m2)
  {
    YawMeaning(m1);
    YawMeaning(m2);
  }

  /** Mirror-image targets turn the drone by opposite amounts. */
  lemma YawOdd(k: int)
    ensures Yaw(Centre + k) == -Yaw(Centre - k)
  {
    YawMeaning(Centre + k);
    YawMeaning(Centre - k);
  }

  /** The four RC values one frame commands, if any: only an armed tracer
      (`flag == 1`) that sees a foreground sends, with no lateral or vertical
      component, the forward speed `b`, and the yaw towards the target. */
  function FrameRc(flag: int, b: int, cs: seq<Component>): (rc: Option<(int, int, int, int)>)
    ensures rc.Some? <==> flag == 1 && |cs| >= 1
  {
    if |cs| >= 1 && flag == 1 then
      Some((0, b, 0, Yaw(Truncate(cs[Target(cs)].centroidX))))
    else None
  }

  /** `num_labels - 1` and the two `np.delete(..., 0, 0)`: label 0, the
      background, is dropped. OpenCV always reports it, so the list is never
      empty there; an empty list would leave no foreground either. */
  function Foreground(labels: seq<Component>): seq<Component> {
    if |labels| == 0 then [] else labels[1..]
  }

  /** The background is never the target, even when it is the largest
      label: the target is the largest of labels 1 and up, the first on a
      tie. */
  lemma BackgroundNeverChosen(labels: seq<Component>)
    requires |labels| >= 2
    ensures var k := Target(Foreground(labels)) + 1;
            && 1 <= k < |labels|
            && (forall j :: 1 <= j < |labels| ==> labels[j].area <= labels[k].area)
            && (forall j :: 1 <= j < k ==> labels[j].area < labels[k].area)
  {
    var cs := Foreground(labels);
    var t := Target(cs);
    forall j | 1 <= j < |labels|
      ensures labels[j].area <= labels[t + 1].area
      ensures j < t + 1 ==> labels[j].area < labels[t + 1].area
    {
      assert labels[j] == cs[j - 1];
    }
  }

  /** What an armed frame commands, in terms of the largest component. */
  lemma FrameRcSteersToLargest(flag: int, b: int, cs: seq<Component>)
    requires flag == 1 && |cs| >= 1
    ensures exists k :: 0 <= k < |cs| && (forall j :: 0 <= j < |cs| ==> cs[j].area <= cs[k].area) &&
              FrameRc(flag, b, cs) == Some((0, b, 0, Yaw(Truncate(cs[k].centroidX))))
    ensures var rc := FrameRc(flag, b, cs).value; rc.0 == 0 && rc.1 == b && rc.2 == 0 && -MaxYaw <= rc.3 <= MaxYaw
  {
    var k := Target(cs);
    YawMeaning(Truncate(cs[k].centroidX));
  }

  /** The link after a frame with the given labels: the RC command, if any,
      through the tracer's `send_rc_control`. */
  function AfterFrame(l: TraceNetworking.Link, flag: int, b: int, labels: seq<Component>, ok: bool): TraceNetworking.Link {
    match FrameRc(flag, b, Foreground(labels))
    case None => l
    case Some(rc) => TraceMovement.SendRc(l, rc.0, rc.1, rc.2, rc.3, ok)
  }

  /** A disarmed tracer sends nothing, whatever the frame holds, and
      neither does an armed one that sees only the background. */
  lemma DisarmedSendsNothing(l: TraceNetworking.Link, flag: int, b: int, labels: seq<Component>, ok: bool)
    requires flag != 1 || |labels| <= 1
    ensures AfterFrame(l, flag, b, labels, ok) == l
  {
  }

  class LineTracer {
    const movement: TraceMovement.TelloMovement
    var thresholds: Thresholds
    var flag: int
    var b: int

    constructor (movement: TraceMovement.TelloMovement)
      ensures this.movement == movement
      ensures thresholds == FullRange && flag == 0 && b == 0
    {
      this.movement := movement;
      thresholds := FullRange;
      flag := 0;
      b := 0;
    }

    /** `process_frame`: read the trackbars into the bounds, drop the
        background, then, when armed and a component exists, steer towards
        the largest one. */
    method ProcessFrame(trackbars: Thresholds, labels: seq<Component>, ok: bool)
      modifies this, movement.networking
      ensures thresholds == trackbars && flag == old(flag) && b == old(b)
      ensures movement.networking.State() ==
              AfterFrame(old(movement.networking.State()), old(flag), old(b), labels, ok)
    {
      thresholds := trackbars;
      var cs := if |labels| == 0 then [] else labels[1..];
      var numLabels := |labels| - 1;
      if numLabels >= 1 {
        var maxIndex := Target(cs);
        var mx := Truncate(cs[maxIndex].centroidX);
        if flag == 1 {
          movement.SendRcControl(0, b, 0, Yaw(mx), ok);
        }
      }
    }
  }
}
