/**
 * The drag-to-spin image widget: an image the user rotates about two axes by
 * dragging, that keeps turning under friction after release, and that eases
 * back to its default pose on a double press.
 *
 * The animation-frame scheduler is made explicit.  The one tracked frame
 * handle (`inertiaIdRef`) together with the locals of the inertia closure is
 * the field `coast`; the reset animation, whose handle the widget never
 * stores, is the field `reset`.  Clock readings are parameters.  All
 * arithmetic is on exact reals.
 */
module SpinImage {
  import opened Common

  const RotFactor: real := 0.8
  const Friction: real := 0.98
  const DoubleClickDelay: real := 300.0
  /** The nominal frame interval the inertia step assumes (it never measures one). */
  const FrameMs: real := 16.0
  const StopSpeed: real := 0.001
  const ResetDuration: real := 500.0
  const DefaultRotX: real := 10.0
  const DefaultRotY: real := -10.0

  // ---------------------------------------------------------------------
  // Dragging
  // ---------------------------------------------------------------------

  /** One pointer sample: position in pixels and clock reading in ms. */
  datatype Sample = Sample(x: real, y: real, time: real)

  /** The part of the widget state a pointer move reads and writes. */
  datatype Drag = Drag(rotX: real, rotY: real, velX: real, velY: real,
                       lastX: real, lastY: real, lastTime: real)

  /** The time between two samples, floored at 1 ms so that it never divides by zero. */
  function SampleInterval(last: real, now: real): (dt: real)
    ensures dt >= 1.0 && dt >= now - last
    ensures dt == now - last || dt == 1.0
  {
    Max(now - last, 1.0)
  }

  /** The effect of one pointer move while the pointer is down. */
  function MoveStep(d: Drag, s: Sample): Drag
  {
    var dx := s.x - d.lastX;
    var dy := s.y - d.lastY;
    var dt := SampleInterval(d.lastTime, s.time);
    Drag(d.rotX - dy * RotFactor, d.rotY + dx * RotFactor,
         (dx / dt) * 2.0, (dy / dt) * 2.0,
         s.x, s.y, s.time)
  }

  /** A whole drag: the moves of `ss`, in order. */
  function MoveAll(d: Drag, ss: seq<Sample>): Drag
    decreases |ss|
  {
    if ss == [] then d else MoveAll(MoveStep(d, ss[0]), ss[1..])
  }

  /**
   * The velocity a move records has the sign of the displacement and is at
   * most twice its size, however close together the two samples are.
   */
  lemma MoveVelocityBounded(d: Drag, s: Sample)
    ensures Abs(MoveStep(d, s).velX) <= 2.0 * Abs(s.x - d.lastX)
    ensures Abs(MoveStep(d, s).velY) <= 2.0 * Abs(s.y - d.lastY)
    ensures MoveStep(d, s).velX * (s.x - d.lastX) >= 0.0
    ensures MoveStep(d, s).velY * (s.y - d.lastY) >= 0.0
    ensures MoveStep(d, s).velX == 0.0 <==> s.x == d.lastX
    ensures MoveStep(d, s).velY == 0.0 <==> s.y == d.lastY
  {
    var dt := SampleInterval(d.lastTime, s.time);
    QuotientBounded(s.x - d.lastX, dt);
    QuotientBounded(s.y - d.lastY, dt);
  }

  lemma QuotientBounded(a: real, dt: real)
    requires dt >= 1.0
    ensures Abs(a / dt) <= Abs(a)
    ensures (a / dt) * a >= 0.0
    ensures a / dt == 0.0 <==> a == 0.0
  {
    var q := a / dt;
    assert q * dt == a;
    if a >= 0.0 {
      assert q >= 0.0;
      assert q <= q * dt;
    } else {
      assert q < 0.0;
      assert q * dt <= q;
    }
  }

  /**
   * Over a whole drag nothing is dropped or counted twice: the rotation moves
   * by 0.8 times the net pointer displacement, the session ends at the last
   * sample, and the velocity left behind is that of the last move alone.
   */
  lemma {:induction false} DragNetRotation(d: Drag, ss: seq<Sample>)
    requires ss != []
    ensures var r := MoveAll(d, ss);
            var z := ss[|ss| - 1];
            && r.rotY == d.rotY + RotFactor * (z.x - d.lastX)
            && r.rotX == d.rotX - RotFactor * (z.y - d.lastY)
            && r.lastX == z.x && r.lastY == z.y && r.lastTime == z.time
    ensures var r := MoveAll(d, ss);
            var z := ss[|ss| - 1];
            var prev := if |ss| == 1 then Sample(d.lastX, d.lastY, d.lastTime) else ss[|ss| - 2];
            var dt := SampleInterval(prev.time, z.time);
            r.velX == ((z.x - prev.x) / dt) * 2.0 && r.velY == ((z.y - prev.y) / dt) * 2.0
    decreases |ss|
  {
    var d1 := MoveStep(d, ss[0]);
    var rest := ss[1..];
    if rest == [] {
      assert MoveAll(d, ss) == MoveAll(d1, rest) == d1;
    } else {
      assert MoveAll(d, ss) == MoveAll(d1, rest);
      DragNetRotation(d1, rest);
      assert rest[|rest| - 1] == ss[|ss| - 1];
      if |rest| > 1 {
        assert rest[|rest| - 2] == ss[|ss| - 2];
      }
    }
  }

  // ---------------------------------------------------------------------
  // Inertia
  // ---------------------------------------------------------------------

  /** The locals of the inertia frame closure: its own copy of velocity and rotation. */
  datatype Coast = Coast(velX: real, velY: real, rotX: real, rotY: real)

  /**
   * One inertia frame.  Friction is applied first; the loop then stops (None,
   * nothing written) if both new speeds are below the threshold, and otherwise
   * turns by the new velocity over the nominal frame and goes on.
   */
  function CoastFrame(c: Coast): Option<Coast>
  {
    var vx := c.velX * Friction;
    var vy := c.velY * Friction;
    if Abs(vx) < StopSpeed && Abs(vy) < StopSpeed then None
    else Some(Coast(vx, vy, c.rotX - vy * FrameMs * RotFactor, c.rotY + vx * FrameMs * RotFactor))
  }

  /**
   * Because friction comes before the test, a frame stops exactly when both
   * incoming speeds are below 0.001 / 0.98; a continuing frame never speeds
   * up and turns by 12.8 times its new velocity.
   */
  lemma CoastFrameFacts(c: Coast)
    ensures CoastFrame(c).None? <==> Abs(c.velX) < StopSpeed / Friction && Abs(c.velY) < StopSpeed / Friction
    ensures CoastFrame(c).Some? ==>
              var n := CoastFrame(c).value;
              && Abs(n.velX) <= Abs(c.velX)
              && Abs(n.velY) <= Abs(c.velY)
              && n.rotY - c.rotY == 12.8 * n.velX
              && n.rotX - c.rotX == -12.8 * n.velY
  {
  }

  /** A speed after `n` friction steps. */
  function Decayed(v: real, n: nat): real
  {
    if n == 0 then v else Decayed(v, n - 1) * Friction
  }

  /** The state of the inertia loop after `n` frames (None once it has stopped). */
  function CoastAfter(c: Coast, n: nat): Option<Coast>
  {
    if n == 0 then Some(c)
    else match CoastAfter(c, n - 1)
      case None => None
      case Some(d) => CoastFrame(d)
  }

  /** While the loop runs, its horizontal velocity after `n` frames is the start velocity after `n` friction steps. */
  lemma {:induction false} CoastAfterVelX(c: Coast, n: nat)
    ensures var r := CoastAfter(c, n); r.Some? ==> r.value.velX == Decayed(c.velX, n)
  {
    if n > 0 {
      CoastAfterVelX(c, n - 1);
    }
  }

  /** The same for the vertical velocity. */
  lemma {:induction false} CoastAfterVelY(c: Coast, n: nat)
    ensures var r := CoastAfter(c, n); r.Some? ==> r.value.velY == Decayed(c.velY, n)
  {
    if n > 0 {
      CoastAfterVelY(c, n - 1);
    }
  }

  /** Bernoulli's inequality for friction 0.98: |v| 0.98^n <= 49 |v| / (49 + n). */
  lemma {:induction false} DecayedBound(v: real, n: nat)
    ensures Abs(Decayed(v, n)) * (49.0 + n as real) <= 49.0 * Abs(v)
  {
    if n > 0 {
      DecayedBound(v, n - 1);
      var k := (n - 1) as real;
      var a := Abs(Decayed(v, n - 1));
      assert Abs(Decayed(v, n)) == 0.98 * a;
      assert a * (0.02 * k) >= 0.0;
      calc {
        Abs(Decayed(v, n)) * (49.0 + n as real);
        == 0.98 * a * (50.0 + k);
        == a * (49.0 + k) - a * (0.02 * k);
        <= a * (49.0 + k);
        <= 49.0 * Abs(v);
      }
    }
  }

  lemma ScaleStrict(a: real, b: real, w: real)
    requires w > 0.0 && a * w < b * w
    ensures a < b
  {
  }

  lemma SettleArith(a: real, v: real, m: real, k: real)
    requires a >= 0.0 && 0.0 <= v <= m
    requires a * (49.0 + k) <= 49.0 * v && k > 49000.0 * m
    ensures a < 0.001
  {
    var w := 49.0 + k;
    assert a * w < 0.001 * w;
    ScaleStrict(a, 0.001, w);
  }

  /** A speed of at most m has fallen below the threshold after n > 49000 m friction steps. */
  lemma DecayedBelowThreshold(v: real, m: real, n: nat)
    requires Abs(v) <= m && n as real > 49000.0 * m
    ensures Abs(Decayed(v, n)) < StopSpeed
  {
    DecayedBound(v, n);
    SettleArith(Abs(Decayed(v, n)), Abs(v), m, n as real);
  }

  /** A frame count by which the inertia loop started from `c` has certainly stopped. */
  function StopBound(c: Coast): (n: nat)
    ensures n as real > 49000.0 * Max(Abs(c.velX), Abs(c.velY))
  {
    (49000.0 * Max(Abs(c.velX), Abs(c.velY))).Floor + 1
  }

  /** A frame whose incoming speeds are both below 0.001 / 0.98 stops the loop. */
  lemma CoastFrameStops(d: Coast)
    requires Abs(d.velX * Friction) < StopSpeed && Abs(d.velY * Friction) < StopSpeed
    ensures CoastFrame(d) == None
  {
  }

  /** Once n exceeds 49000 times the larger start speed, the loop has stopped within n frames. */
  lemma CoastStoppedBy(c: Coast, n: nat)
    requires n >= 1 && n as real > 49000.0 * Max(Abs(c.velX), Abs(c.velY))
    ensures CoastAfter(c, n) == None
  {
    var m := Max(Abs(c.velX), Abs(c.velY));
    CoastAfterVelX(c, n - 1);
    CoastAfterVelY(c, n - 1);
    DecayedBelowThreshold(c.velX, m, n);
    DecayedBelowThreshold(c.velY, m, n);
    var prev := CoastAfter(c, n - 1);
    if prev.Some? {
      CoastFrameStops(prev.value);
    }
  }

  /**
   * The inertia loop terminates for every start velocity: after StopBound(c)
   * frames it has stopped.
   */
  lemma InertiaTerminates(c: Coast)
    ensures CoastAfter(c, StopBound(c)) == None
  {
    CoastStoppedBy(c, StopBound(c));
  }

  // ---------------------------------------------------------------------
  // Reset animation
  // ---------------------------------------------------------------------

  /** The closure of one reset animation: the pose and clock reading it started from. */
  datatype ResetAnim = ResetAnim(startX: real, startY: real, startTime: real)

  /** Animation progress, capped at 1. */
  function Progress(elapsed: real): real
  {
    Min(elapsed / ResetDuration, 1.0)
  }

  /** The ease-out cubic curve, 1 - (1 - p)^3. */
  function EaseOutCubic(p: real): real
  {
    var q := 1.0 - p;
    1.0 - q * q * q
  }

  /** A gap scaled by a weight; kept apart so the verifier treats the product as one term. */
  function Scale(gap: real, e: real): real
  {
    gap * e
  }

  /** The interpolated coordinate `start + (target - start) * eased`. */
  function Lerp(start: real, target: real, e: real): real
  {
    start + Scale(target - start, e)
  }

  /** Progress lies in [0, 1] once time has started, and it reaches 1 exactly at 500 ms. */
  lemma ProgressFacts(elapsed: real)
    ensures elapsed >= 0.0 ==> 0.0 <= Progress(elapsed) <= 1.0
    ensures Progress(elapsed) == 1.0 <==> elapsed >= ResetDuration
    ensures Progress(elapsed) < 1.0 <==> elapsed < ResetDuration
  {
  }

  lemma ProgressMonotone(e1: real, e2: real)
    requires e1 <= e2
    ensures Progress(e1) <= Progress(e2)
  {
  }

  lemma CubeMonotone(a: real, b: real)
    requires 0.0 <= b <= a
    ensures b * b * b <= a * a * a
  {
    assert b * b <= a * b <= a * a;
    assert b * b * b <= a * a * b <= a * a * a;
  }

  /** The curve starts at 0, ends at 1, stays in [0, 1] and never goes back. */
  lemma EaseFacts(p: real, q: real)
    requires 0.0 <= p <= q <= 1.0
    ensures EaseOutCubic(0.0) == 0.0 && EaseOutCubic(1.0) == 1.0
    ensures 0.0 <= EaseOutCubic(p) <= EaseOutCubic(q) <= 1.0
  {
    CubeMonotone(1.0 - p, 1.0 - q);
    CubeMonotone(1.0, 1.0 - p);
    CubeMonotone(1.0 - q, 0.0);
  }

  /**
   * Interpolating with a larger eased value never overshoots and never moves
   * away from the target: the point stays between start and target and its
   * distance to the target shrinks.
   */
  lemma LerpApproaches(start: real, target: real, e1: real, e2: real)
    requires 0.0 <= e1 <= e2 <= 1.0
    ensures Abs(target - Lerp(start, target, e2)) <= Abs(target - Lerp(start, target, e1))
    ensures Min(start, target) <= Lerp(start, target, e2) <= Max(start, target)
  {
    LerpOrdered(start, target, e1, e2);
    Closer(start, target, Lerp(start, target, e1), Lerp(start, target, e2));
  }

  /** Two interpolated points keep the order of their weights, between start and target. */
  lemma LerpOrdered(start: real, target: real, e1: real, e2: real)
    requires 0.0 <= e1 <= e2 <= 1.0
    ensures start <= target ==> start <= Lerp(start, target, e1) <= Lerp(start, target, e2) <= target
    ensures target < start ==> target <= Lerp(start, target, e2) <= Lerp(start, target, e1) <= start
  {
    var g := target - start;
    if g >= 0.0 {
      ScaleUp(g, e1, e2);
    } else {
      ScaleDown(g, e1, e2);
    }
  }

  lemma ScaleUp(g: real, e1: real, e2: real)
    requires 0.0 <= e1 <= e2 <= 1.0 && g >= 0.0
    ensures 0.0 <= g * e1
    ensures g * e1 <= g * e2
    ensures g * e2 <= g
  {
    MulMonotone(g, 0.0, e1);
    MulMonotone(g, e1, e2);
    MulMonotone(g, e2, 1.0);
  }

  lemma ScaleDown(g: real, e1: real, e2: real)
    requires 0.0 <= e1 <= e2 <= 1.0 && g < 0.0
    ensures g * e1 <= 0.0
    ensures g * e2 <= g * e1
    ensures g <= g * e2
  {
    MulMonotone(-g, 0.0, e1);
    MulMonotone(-g, e1, e2);
    MulMonotone(-g, e2, 1.0);
  }

  /** The linear step of LerpApproaches, over plain numbers. */
  lemma Closer(start: real, target: real, l1: real, l2: real)
    requires start <= target ==> start <= l1 <= l2 <= target
    requires target < start ==> target <= l2 <= l1 <= start
    ensures Abs(target - l2) <= Abs(target - l1)
    ensures Min(start, target) <= l2 <= Max(start, target)
  {
  }

  lemma MulMonotone(a: real, x: real, y: real)
    requires a >= 0.0 && x <= y
    ensures a * x <= a * y
  {
  }

  // ---------------------------------------------------------------------
  // The widget
  // ---------------------------------------------------------------------

  /** A snapshot of every field of the widget except the rendered transform. */
  datatype Widget = Widget(
    rotX: real, rotY: real, velX: real, velY: real,
    isPointerDown: bool, lastX: real, lastY: real,
    lastTime: real, lastClickTime: real,
    coast: Option<Coast>, reset: Option<ResetAnim>)

  /** The transform applied to the image: rotateX(x deg) rotateY(y deg). */
  datatype Orientation = Orientation(rotXDeg: real, rotYDeg: real)

  /** One frame of the reset animation, if one is pending. */
  function ResetFrame(w: Widget, now: real): Widget
  {
    match w.reset
    case None => w
    case Some(a) =>
      var p := Progress(now - a.startTime);
      var e := EaseOutCubic(p);
      w.(rotX := Lerp(a.startX, DefaultRotX, e),
         rotY := Lerp(a.startY, DefaultRotY, e),
         reset := if p < 1.0 then w.reset else None)
  }

  /** One frame of the inertia loop, if one is pending. */
  function InertiaFrame(w: Widget): Widget
  {
    match w.coast
    case None => w
    case Some(c) =>
      match CoastFrame(c)
      case None => w.(coast := None)
      case Some(d) => w.(rotX := d.rotX, rotY := d.rotY, velX := d.velX, velY := d.velY, coast := Some(d))
  }

  /**
   * A reset frame at or after 500 ms lands exactly on the default pose and
   * does not reschedule; before that it reschedules.  It touches nothing but
   * the rotation and its own pending slot.
   */
  lemma ResetFrameFinishes(w: Widget, a: ResetAnim, now: real)
    requires w.reset == Some(a)
    ensures ResetFrame(w, now).reset.None? <==> now - a.startTime >= ResetDuration
    ensures now - a.startTime >= ResetDuration ==>
              ResetFrame(w, now).rotX == DefaultRotX && ResetFrame(w, now).rotY == DefaultRotY
    ensures ResetFrame(w, now) == w.(rotX := ResetFrame(w, now).rotX, rotY := ResetFrame(w, now).rotY,
                                     reset := ResetFrame(w, now).reset)
  {
    ProgressFacts(now - a.startTime);
  }

  /**
   * Between two reset frames of the same animation, each axis moves toward
   * the default pose without overshooting it.
   */
  lemma ResetFrameApproaches(w: Widget, a: ResetAnim, t1: real, t2: real)
    requires w.reset == Some(a)
    requires a.startTime <= t1 <= t2
    ensures Abs(DefaultRotX - ResetFrame(w, t2).rotX) <= Abs(DefaultRotX - ResetFrame(w, t1).rotX)
    ensures Abs(DefaultRotY - ResetFrame(w, t2).rotY) <= Abs(DefaultRotY - ResetFrame(w, t1).rotY)
    ensures Min(a.startX, DefaultRotX) <= ResetFrame(w, t2).rotX <= Max(a.startX, DefaultRotX)
    ensures Min(a.startY, DefaultRotY) <= ResetFrame(w, t2).rotY <= Max(a.startY, DefaultRotY)
  {
    var p1 := Progress(t1 - a.startTime);
    var p2 := Progress(t2 - a.startTime);
    ProgressFacts(t1 - a.startTime);
    ProgressFacts(t2 - a.startTime);
    ProgressMonotone(t1 - a.startTime, t2 - a.startTime);
    EaseFacts(p1, p2);
    LerpApproaches(a.startX, DefaultRotX, EaseOutCubic(p1), EaseOutCubic(p2));
    LerpApproaches(a.startY, DefaultRotY, EaseOutCubic(p1), EaseOutCubic(p2));
  }

  /**
   * An inertia frame never increases the loop's speeds, stops the loop or
   * carries it on, and leaves the drag bookkeeping, the click history and the
   * reset animation alone.
   */
  lemma InertiaFrameFacts(w: Widget, c: Coast)
    requires w.coast == Some(c)
    ensures InertiaFrame(w).coast == CoastFrame(c)
    ensures InertiaFrame(w).coast.Some? ==>
              Abs(InertiaFrame(w).coast.value.velX) <= Abs(c.velX) &&
              Abs(InertiaFrame(w).coast.value.velY) <= Abs(c.velY)
    ensures InertiaFrame(w).coast.None? ==> InertiaFrame(w) == w.(coast := None)
    ensures InertiaFrame(w).isPointerDown == w.isPointerDown && InertiaFrame(w).reset == w.reset
    ensures InertiaFrame(w).lastX == w.lastX && InertiaFrame(w).lastY == w.lastY
    ensures InertiaFrame(w).lastTime == w.lastTime && InertiaFrame(w).lastClickTime == w.lastClickTime
  {
    CoastFrameFacts(c);
  }

  class SpinModal {
    var rotX: real
    var rotY: real
    var velX: real
    var velY: real
    var isPointerDown: bool
    var lastX: real
    var lastY: real
    /** lastTimeRef */
    var lastTime: real
    /** lastClickTimeRef: 0 means "no recent press" */
    var lastClickTime: real
    /** The tracked inertia frame (inertiaIdRef non-null) and its closure's locals. */
    var coast: Option<Coast>
    /** The pending reset animation; its frame handle is never stored. */
    var reset: Option<ResetAnim>
    /** The transform last applied to the image. */
    var shown: Orientation

    function State(): Widget
      reads this
    {
      Widget(rotX, rotY, velX, velY, isPointerDown, lastX, lastY, lastTime, lastClickTime, coast, reset)
    }

    function DragPart(): Drag
      reads this
    {
      Drag(rotX, rotY, velX, velY, lastX, lastY, lastTime)
    }

    /**
     * The image always shows the current rotation (it is derived afresh, not
     * from deltas), and an inertia loop is never tracked while the pointer is
     * down.
     */
    ghost predicate Valid()
      reads this
    {
      && shown == Orientation(rotX, rotY)
      && (coast.Some? ==> !isPointerDown)
    }

    constructor ()
      ensures Valid()
      ensures State() == Widget(DefaultRotX, DefaultRotY, 0.0, 0.0, false, 0.0, 0.0, 0.0, 0.0, None, None)
    {
      rotX, rotY, velX, velY := DefaultRotX, DefaultRotY, 0.0, 0.0;
      isPointerDown := false;
      lastX, lastY, lastTime, lastClickTime := 0.0, 0.0, 0.0, 0.0;
      coast, reset := None, None;
      shown := Orientation(DefaultRotX, DefaultRotY);
    }

    /** The render effect: apply the current rotation to the image. */
    method UpdateTransform()
      modifies this`shown
      ensures shown == Orientation(rotX, rotY)
    {
      shown := Orientation(rotX, rotY);
    }

    /** Opening the modal restores the default pose and zero velocity; a running loop is not cancelled. */
    method Open()
      requires Valid()
      modifies this
      ensures Valid()
      ensures State() == old(State()).(rotX := DefaultRotX, rotY := DefaultRotY, velX := 0.0, velY := 0.0)
    {
      rotX, rotY, velX, velY := DefaultRotX, DefaultRotY, 0.0, 0.0;
      UpdateTransform();
    }

    /**
     * Cancels the tracked inertia frame, if any; safe to call at any time.
     * Also what unmounting does.
     */
    method StopInertia()
      modifies this
      ensures State() == old(State()).(coast := None) && shown == old(shown)
    {
      coast := None;
    }

    /** Cancels inertia, zeroes the velocity and starts easing back from the current pose. */
    method ResetToInitialPosition(now: real)
      requires Valid()
      modifies this
      ensures Valid()
      ensures State() == old(State()).(velX := 0.0, velY := 0.0, coast := None,
                                       reset := Some(ResetAnim(old(rotX), old(rotY), now)))
    {
      StopInertia();
      velX, velY := 0.0, 0.0;
      reset := Some(ResetAnim(rotX, rotY, now));
    }

    /**
     * Replaces any tracked inertia loop by a fresh one starting from the
     * stored velocity and rotation.  Only called once the pointer is up.
     */
    method StartInertia()
      requires Valid() && !isPointerDown
      modifies this
      ensures Valid()
      ensures State() == old(State()).(coast := Some(Coast(old(velX), old(velY), old(rotX), old(rotY))))
    {
      StopInertia();
      coast := Some(Coast(velX, velY, rotX, rotY));
    }

    /**
     * A press less than 300 ms after the last recorded one is a double press:
     * it starts the reset and forgets the last press, leaving the drag flag and
     * the last position and time as they were.  Any other press records its
     * time, starts a drag and cancels inertia, keeping the stored velocity.
     */
    method PointerDown(x: real, y: real, now: real)
      requires Valid()
      modifies this
      ensures Valid()
      ensures now - old(lastClickTime) < DoubleClickDelay ==>
                State() == old(State()).(velX := 0.0, velY := 0.0, coast := None,
                                         reset := Some(ResetAnim(old(rotX), old(rotY), now)),
                                         lastClickTime := 0.0)
      ensures now - old(lastClickTime) >= DoubleClickDelay ==>
                State() == old(State()).(lastClickTime := now, isPointerDown := true, coast := None,
                                         lastX := x, lastY := y, lastTime := now)
    {
      if now - lastClickTime < DoubleClickDelay {
        ResetToInitialPosition(now);
        lastClickTime := 0.0;
        return;
      }
      lastClickTime := now;
      isPointerDown := true;
      StopInertia();
      lastX, lastY := x, y;
      lastTime := now;
    }

    /** A move turns the image while the pointer is down and does nothing otherwise. */
    method PointerMove(x: real, y: real, now: real)
      requires Valid()
      modifies this
      ensures Valid()
      ensures old(isPointerDown) ==>
                var d := MoveStep(old(DragPart()), Sample(x, y, now));
                State() == old(State()).(rotX := d.rotX, rotY := d.rotY, velX := d.velX, velY := d.velY,
                                         lastX := d.lastX, lastY := d.lastY, lastTime := d.lastTime)
      ensures !old(isPointerDown) ==> State() == old(State())
    {
      if !isPointerDown {
        return;
      }
      var dx := x - lastX;
      var dy := y - lastY;
      var dt := Max(now - lastTime, 1.0);
      rotY := rotY + dx * RotFactor;
      rotX := rotX - dy * RotFactor;
      velX := (dx / dt) * 2.0;
      velY := (dy / dt) * 2.0;
      lastX, lastY := x, y;
      lastTime := now;
      UpdateTransform();
    }

    /** Pointer up or cancel: ends the drag and hands the stored velocity to inertia. */
    method PointerEnd()
      requires Valid()
      modifies this
      ensures Valid()
      ensures old(isPointerDown) ==>
                State() == old(State()).(isPointerDown := false,
                                         coast := Some(Coast(old(velX), old(velY), old(rotX), old(rotY))))
      ensures !old(isPointerDown) ==> State() == old(State())
    {
      if !isPointerDown {
        return;
      }
      isPointerDown := false;
      StartInertia();
    }

    /** Leaving the card ends a drag in progress exactly as a release does. */
    method PointerLeave()
      requires Valid()
      modifies this
      ensures Valid()
      ensures old(isPointerDown) ==>
                State() == old(State()).(isPointerDown := false,
                                         coast := Some(Coast(old(velX), old(velY), old(rotX), old(rotY))))
      ensures !old(isPointerDown) ==> State() == old(State())
    {
      if isPointerDown {
        PointerEnd();
      }
    }

    /**
     * One display frame at clock reading `now`.  When both animations are
     * pending the inertia loop was registered later (starting a reset
     * cancels inertia), so the reset frame runs first and the inertia frame
     * second.
     */
    method AnimationFrame(now: real)
      requires Valid()
      modifies this
      ensures Valid()
      ensures State() == InertiaFrame(ResetFrame(old(State()), now))
    {
      if reset.Some? {
        var a := reset.value;
        var progress := Progress(now - a.startTime);
        var eased := EaseOutCubic(progress);
        rotX := Lerp(a.startX, DefaultRotX, eased);
        rotY := Lerp(a.startY, DefaultRotY, eased);
        if !(progress < 1.0) {
          reset := None;
        }
        UpdateTransform();
      }
      if coast.Some? {
        var next := CoastFrame(coast.value);
        if next.None? {
          StopInertia();
          return;
        }
        var c := next.value;
        rotX, rotY, velX, velY := c.rotX, c.rotY, c.velX, c.velY;
        coast := next;
        UpdateTransform();
      }
    }
  }

  /**
   * A drag of 100 px to the right in 50 ms turns the image by 80 degrees and
   * records velocity 4; because friction comes first, the first inertia frame
   * then turns it by 4 * 0.98 * 16 * 0.8 = 50.176 degrees.
   */
  method DragThenCoastScenario()
  {
    var m := new SpinModal();
    m.PointerDown(0.0, 0.0, 1000.0);
    assert m.isPointerDown;
    m.PointerMove(100.0, 0.0, 1050.0);
    assert m.rotY == 70.0 && m.velX == 4.0 && m.velY == 0.0;
    m.PointerEnd();
    assert m.coast == Some(Coast(4.0, 0.0, 10.0, 70.0)) && m.reset == None;
    assert 4.0 * Friction == 3.92 && 3.92 * FrameMs * RotFactor == 50.176;
    assert CoastFrame(Coast(4.0, 0.0, 10.0, 70.0)) == Some(Coast(3.92, 0.0, 10.0, 70.0 + 50.176));
    m.AnimationFrame(1066.0);
    assert m.coast == Some(Coast(3.92, 0.0, 10.0, 70.0 + 50.176));
    assert m.rotY == 70.0 + 50.176 && m.velX == 3.92;
  }

  /**
   * The reset animation is not tracked: after a double press, a later press
   * and release start inertia while the reset is still pending, so both write
   * the rotation in the same frames.
   */
  method OverlappingAnimationsScenario()
  {
    var m := new SpinModal();
    m.PointerDown(0.0, 0.0, 1000.0);
    m.PointerDown(0.0, 0.0, 1100.0);
    assert m.reset == Some(ResetAnim(10.0, -10.0, 1100.0)) && m.lastClickTime == 0.0;
    assert m.isPointerDown;
    m.PointerDown(0.0, 0.0, 1400.0);
    m.PointerEnd();
    assert m.coast.Some? && m.reset.Some?;
  }
}
