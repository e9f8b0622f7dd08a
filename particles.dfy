/**
 * The particle field: flat buffers of 3 * PARTICLE_COUNT coordinates, the
 * per-gesture target update and the smoothing step toward the targets.
 */
module Particles {
  import opened Common

  /** Fraction of the remaining distance covered per frame (LERP_SPEED). */
  const LERP_SPEED: real := 0.05

  /** Length of every particle buffer: x, y, z per particle. */
  const BUFFER_LENGTH: nat := 3 * PARTICLE_COUNT

  /** Entries 3i, 3i+1, 3i+2 of a buffer, read as one point. */
  function At(s: seq<real>, i: nat): Point
    requires 3 * i + 2 < |s|
  {
    Point(s[3 * i], s[3 * i + 1], s[3 * i + 2])
  }

  /** Particle i of an array buffer. */
  function Entry(a: array<real>, i: nat): Point
    requires 3 * i + 2 < a.Length
    reads a
  {
    Point(a[3 * i], a[3 * i + 1], a[3 * i + 2])
  }

  // ---------------------------------------------------------------------
  // Index policy
  // ---------------------------------------------------------------------

  /** The shape point a particle follows in the cyclic modes: i % len. */
  function CyclicIndex(i: nat, len: nat): (k: nat)
    requires len > 0
    ensures k < len
    ensures i < len ==> k == i
  {
    i % len
  }

  // ---------------------------------------------------------------------
  // Per-mode targets
  // ---------------------------------------------------------------------

  const ROTATION_SPEED: real := 0.3

  /** idle: the tree point turned about the y axis by time * 0.3, plus a twinkle on x. */
  function IdleTarget(t: Trig, pt: Point, i: nat, time: real): (p: Point)
    ensures p.y == pt.y
  {
    var angle := time * ROTATION_SPEED;
    var c := t.cos(angle);
    var s := t.sin(angle);
    var twinkle := t.sin(time * 3.0 + i as real * 0.1) * 0.5;
    Point(pt.x * c - pt.z * s + twinkle, pt.y, pt.x * s + pt.z * c)
  }

  /** The turn about the y axis keeps a tree point's distance from the axis. */
  lemma IdleRotationKeepsRadius(t: Trig, pt: Point, i: nat, time: real)
    requires Pythagorean(t)
    ensures var p := IdleTarget(t, pt, i, time);
      var twinkle := t.sin(time * 3.0 + i as real * 0.1) * 0.5;
      (p.x - twinkle) * (p.x - twinkle) + p.z * p.z == pt.x * pt.x + pt.z * pt.z
  {
    var c := t.cos(time * ROTATION_SPEED);
    var s := t.sin(time * ROTATION_SPEED);
    assert c * c + s * s == 1.0;
    calc {
      (pt.x * c - pt.z * s) * (pt.x * c - pt.z * s) + (pt.x * s + pt.z * c) * (pt.x * s + pt.z * c);
      == pt.x * pt.x * (c * c + s * s) + pt.z * pt.z * (c * c + s * s);
      == pt.x * pt.x + pt.z * pt.z;
    }
  }

  function FistRadius(off: Point): real
  {
    2.0 + off.x * 3.0
  }

  /** fist: a small disc spinning at angle i * 0.1 + time * 2. */
  function FistTarget(t: Trig, off: Point, i: nat, time: real): (p: Point)
    ensures 0.0 <= off.z < 1.0 ==> -2.5 <= p.z < 2.5
  {
    var angle := i as real * 0.1 + time * 2.0;
    var radius := FistRadius(off);
    Point(t.cos(angle) * radius, t.sin(angle) * radius, (off.z - 0.5) * 5.0)
  }

  /** With offsets in [0, 1), a fist particle orbits at radius in [2, 5) within depth [-2.5, 2.5). */
  lemma FistOrbit(t: Trig, off: Point, i: nat, time: real)
    requires Pythagorean(t) && 0.0 <= off.x < 1.0 && 0.0 <= off.z < 1.0
    ensures 2.0 <= FistRadius(off) < 5.0
    ensures var p := FistTarget(t, off, i, time);
      p.x * p.x + p.y * p.y == FistRadius(off) * FistRadius(off) && -2.5 <= p.z < 2.5
  {
    var angle := i as real * 0.1 + time * 2.0;
    var c, s, r := t.cos(angle), t.sin(angle), FistRadius(off);
    assert c * c + s * s == 1.0;
    calc {
      (c * r) * (c * r) + (s * r) * (s * r);
      == (c * c + s * s) * (r * r);
      == r * r;
    }
  }

  /**
   * pinch: the frame point with a sparkle on x, a common pulse on y and a
   * wave on z, which keep it within 1.5 / 0.6 / 3 of the point on x / y / z.
   */
  function PinchTarget(t: Trig, pt: Point, i: nat, time: real): (p: Point)
    ensures Bounded(t) ==> Abs(p.x - pt.x) <= 1.5 && Abs(p.y - pt.y) <= 0.6 && Abs(p.z - pt.z) <= 3.0
  {
    var pulse := t.sin(time * 4.0) * 2.0;
    var sparkle := t.sin(time * 8.0 + i as real * 0.3) * 1.5;
    var wave := t.sin(time * 2.0 + i as real * 0.1) * 3.0;
    assert Bounded(t) ==>
      (-1.0 <= t.sin(time * 4.0) <= 1.0 && -1.0 <= t.sin(time * 8.0 + i as real * 0.3) <= 1.0
       && -1.0 <= t.sin(time * 2.0 + i as real * 0.1) <= 1.0);
    Point(pt.x + sparkle, pt.y + pulse * 0.3, pt.z + wave)
  }

  /** Every pinch particle's y moves by the same pulse. */
  lemma PinchPulseShared(t: Trig, pt1: Point, pt2: Point, i: nat, j: nat, time: real)
    ensures PinchTarget(t, pt1, i, time).y - pt1.y == PinchTarget(t, pt2, j, time).y - pt2.y
  {
  }

  const REVEAL_DURATION: real := 1.5
  const START_RADIUS: real := 20.0

  /** min(elapsed / 1.5, 1). */
  function Progress(elapsed: real): (p: real)
    ensures p <= 1.0
    ensures p == 1.0 <==> elapsed >= REVEAL_DURATION
    ensures elapsed >= 0.0 ==> p >= 0.0
  {
    if elapsed / REVEAL_DURATION < 1.0 then elapsed / REVEAL_DURATION else 1.0
  }

  /** 1 - (1 - p)^3. */
  function EaseOut(p: real): real
  {
    1.0 - (1.0 - p) * (1.0 - p) * (1.0 - p)
  }

  function SpinSpeed(p: real): real
  {
    2.0 - p * 1.5
  }

  /** The radius a face_reveal particle is drawn at, before its sparkle. */
  function RevealRadius(t: Trig, pt: Point, elapsed: real): real
  {
    START_RADIUS + (t.hypot(pt.x, pt.y) - START_RADIUS) * EaseOut(Progress(elapsed))
  }

  /**
   * face_reveal: the vortex point spun out from radius 20 to its own radius
   * over 1.5 time units; its z wave is at most 20 and dies out once settled.
   */
  function FaceRevealTarget(t: Trig, pt: Point, i: nat, time: real, revealStart: real): (p: Point)
    ensures time - revealStart >= REVEAL_DURATION ==> p.z == pt.z
    ensures Bounded(t) && time >= revealStart ==> Abs(p.z - pt.z) <= 20.0
  {
    var progress := Progress(time - revealStart);
    var angle := t.atan2(pt.y, pt.x) + time * SpinSpeed(progress);
    var r := RevealRadius(t, pt, time - revealStart);
    var sparkle := t.sin(time * 8.0 + i as real * 0.5) * (1.0 - progress) * 15.0;
    Point(t.cos(angle) * (r + sparkle), t.sin(angle) * (r + sparkle), pt.z + RevealWave(t, i, time, progress))
  }

  /** The z wave of a face_reveal particle, damped by 1 - progress. */
  function RevealWave(t: Trig, i: nat, time: real, progress: real): (w: real)
    ensures progress == 1.0 ==> w == 0.0
    ensures Bounded(t) && 0.0 <= progress <= 1.0 ==> Abs(w) <= 20.0
  {
    WaveBound(t.sin(time * 3.0 + i as real), 1.0 - progress, 20.0);
    t.sin(time * 3.0 + i as real) * 20.0 * (1.0 - progress)
  }

  /** A wave a * m * b with |a| <= 1 and a damping b in [0, 1] stays within m, and vanishes when b is 0. */
  lemma WaveBound(a: real, b: real, m: real)
    ensures -1.0 <= a <= 1.0 && 0.0 <= b <= 1.0 && m >= 0.0 ==> Abs(a * m * b) <= m
  {
    if -1.0 <= a <= 1.0 && 0.0 <= b <= 1.0 && m >= 0.0 {
      ProductNonnegative(m, b);
      ProductNonnegative(1.0 - a, m * b);
      ProductNonnegative(1.0 + a, m * b);
      ProductNonnegative(m, 1.0 - b);
      assert a * m * b == a * (m * b);
    }
  }

  /** Once 1.5 time units have passed the reveal has settled: full radius, no sparkle, spin 0.5, z = point's z. */
  lemma RevealSettles(t: Trig, pt: Point, i: nat, time: real, revealStart: real)
    requires time - revealStart >= REVEAL_DURATION
    ensures RevealRadius(t, pt, time - revealStart) == t.hypot(pt.x, pt.y)
    ensures SpinSpeed(Progress(time - revealStart)) == 0.5
    ensures var p := FaceRevealTarget(t, pt, i, time, revealStart);
      var angle := t.atan2(pt.y, pt.x) + time * 0.5;
      p == Point(t.cos(angle) * t.hypot(pt.x, pt.y), t.sin(angle) * t.hypot(pt.x, pt.y), pt.z)
  {
    assert Progress(time - revealStart) == 1.0;
    assert EaseOut(1.0) == 1.0;
  }

  /** At the moment of entry the particles sit on the radius-20 ring, spinning at speed 2. */
  lemma RevealStartsOnRing(t: Trig, pt: Point, time: real)
    ensures RevealRadius(t, pt, 0.0) == START_RADIUS
    ensures SpinSpeed(Progress(0.0)) == 2.0
  {
    assert Progress(0.0) == 0.0;
    assert EaseOut(0.0) == 0.0;
  }

  /** The two Math.random() draws of overflow particle i come from the stream in order. */
  function OverflowDraw(i: nat, len: nat): nat
    requires len <= i
  {
    2 * (i - len)
  }

  /** double_love and finger_k: particle i sits on text point i, or, past the text, is scattered behind it. */
  function TextTarget(t: Trig, shape: Shape, i: nat, time: real, rnd: seq<real>): (p: Point)
    requires 0 < |shape| && i < PARTICLE_COUNT && |rnd| >= 2 * PARTICLE_COUNT
    ensures i >= |shape| ==> p.z == -500.0
    ensures i < |shape| ==> p.z == shape[i].z
  {
    if i >= |shape| then
      var d := OverflowDraw(i, |shape|);
      Point((rnd[d] - 0.5) * 500.0, (rnd[d + 1] - 0.5) * 500.0, -500.0)
    else
      var pt := shape[i];
      var wobbleX := t.sin(time * 2.0 + i as real) * 0.05;
      var wobbleY := t.cos(time * 1.5 + i as real) * 0.05;
      Point(pt.x + wobbleX, pt.y + wobbleY, pt.z)
  }

  /** Text particles stay within 0.05 of their point; overflow particles land in [-250, 250)^2 at z = -500. */
  lemma TextTargetBounds(t: Trig, shape: Shape, i: nat, time: real, rnd: seq<real>)
    requires 0 < |shape| && i < PARTICLE_COUNT && |rnd| >= 2 * PARTICLE_COUNT
    requires Bounded(t) && UnitDraws(rnd)
    ensures var p := TextTarget(t, shape, i, time, rnd);
      if i < |shape| then Abs(p.x - shape[i].x) <= 0.05 && Abs(p.y - shape[i].y) <= 0.05 && p.z == shape[i].z
      else -250.0 <= p.x < 250.0 && -250.0 <= p.y < 250.0 && p.z == -500.0
  {
    if i < |shape| {
      var a := t.sin(time * 2.0 + i as real);
      var b := t.cos(time * 1.5 + i as real);
      assert -1.0 <= a <= 1.0 && -1.0 <= b <= 1.0;
    } else {
      var d := OverflowDraw(i, |shape|);
      assert 0.0 <= rnd[d] < 1.0 && 0.0 <= rnd[d + 1] < 1.0;
    }
  }

  /** Distinct overflow particles use distinct draws. */
  lemma OverflowDrawsDistinct(i: nat, j: nat, len: nat)
    requires len <= i < j
    ensures OverflowDraw(i, len) + 1 < OverflowDraw(j, len)
  {
  }

  // ---------------------------------------------------------------------
  // The mode dispatch
  // ---------------------------------------------------------------------

  /** The gesture's mode writes the whole target buffer. */
  predicate Writes(g: Gesture, shapes: ShapeMap)
  {
    match g
    case Idle => NonEmpty(shapes, ChristmasTree)
    case Fist => true
    case Pinch => NonEmpty(shapes, PhotoFrame)
    case FaceReveal => NonEmpty(shapes, Vortex)
    case DoubleLove => NonEmpty(shapes, SpecialLove)
    case Finger(k) => NonEmpty(shapes, FingerShape(k))
    case Other(_) => false
  }

  /**
   * The unguarded modes raise a TypeError before writing anything: pinch and
   * face_reveal on a missing or empty shape (shape[NaN] is undefined), and
   * double_love on a missing shape (shape.length of undefined).
   */
  predicate Throws(g: Gesture, shapes: ShapeMap)
  {
    match g
    case Pinch => !NonEmpty(shapes, PhotoFrame)
    case FaceReveal => !NonEmpty(shapes, Vortex)
    case DoubleLove => SpecialLove !in shapes
    case _ => false
  }

  lemma ThrowsWritesNothing(g: Gesture, shapes: ShapeMap)
    ensures Throws(g, shapes) ==> !Writes(g, shapes)
    ensures g.Fist? ==> Writes(g, shapes)
    ensures g.Other? ==> !Writes(g, shapes) && !Throws(g, shapes)
  {
  }

  /** Target of particle i in the mode of g. */
  function ModeTarget(t: Trig, g: Gesture, shapes: ShapeMap, offsets: seq<real>, i: nat,
                      time: real, revealStart: real, rnd: seq<real>): Point
    requires Writes(g, shapes) && i < PARTICLE_COUNT && |offsets| == BUFFER_LENGTH && |rnd| >= 2 * PARTICLE_COUNT
  {
    match g
    case Idle =>
      var shape := shapes[ChristmasTree];
      IdleTarget(t, shape[CyclicIndex(i, |shape|)], i, time)
    case Fist => FistTarget(t, At(offsets, i), i, time)
    case Pinch =>
      var shape := shapes[PhotoFrame];
      PinchTarget(t, shape[CyclicIndex(i, |shape|)], i, time)
    case FaceReveal =>
      var shape := shapes[Vortex];
      FaceRevealTarget(t, shape[CyclicIndex(i, |shape|)], i, time, revealStart)
    case DoubleLove => TextTarget(t, shapes[SpecialLove], i, time, rnd)
    case Finger(k) => TextTarget(t, shapes[FingerShape(k)], i, time, rnd)
  }

  /** In idle mode particle i keeps the height of tree point i % len. */
  lemma IdleFollowsTree(t: Trig, shapes: ShapeMap, offsets: seq<real>, i: nat, time: real, revealStart: real, rnd: seq<real>)
    requires NonEmpty(shapes, ChristmasTree) && i < PARTICLE_COUNT && |offsets| == BUFFER_LENGTH && |rnd| >= 2 * PARTICLE_COUNT
    ensures var shape := shapes[ChristmasTree];
      ModeTarget(t, Idle, shapes, offsets, i, time, revealStart, rnd).y == shape[i % |shape|].y
  {
  }

  /** In the text modes the first len particles spell the text, the rest are scattered behind it. */
  lemma TextModeLayout(t: Trig, g: Gesture, shapes: ShapeMap, offsets: seq<real>, i: nat, time: real, revealStart: real, rnd: seq<real>)
    requires g.DoubleLove? || g.Finger?
    requires Writes(g, shapes) && i < PARTICLE_COUNT && |offsets| == BUFFER_LENGTH && |rnd| >= 2 * PARTICLE_COUNT
    ensures var shape := if g.DoubleLove? then shapes[SpecialLove] else shapes[FingerShape(g.k)];
      var p := ModeTarget(t, g, shapes, offsets, i, time, revealStart, rnd);
      (i < |shape| ==> p.z == shape[i].z) && (i >= |shape| ==> p.z == -500.0)
  {
  }

  // ---------------------------------------------------------------------
  // The loops of updateTargetPositions
  // ---------------------------------------------------------------------

  /** The three writes buffer[i * 3 .. i * 3 + 2] = p; every other entry is left alone. */
  method Put(a: array<real>, i: nat, p: Point)
    requires 3 * i + 2 < a.Length
    modifies a
    ensures Entry(a, i) == p
    ensures forall j: nat :: 3 * j + 2 < a.Length && j != i ==> Entry(a, j) == old(Entry(a, j))
  {
    a[i * 3] := p.x;
    a[i * 3 + 1] := p.y;
    a[i * 3 + 2] := p.z;
  }

  method FillIdle(t: Trig, shape: Shape, target: array<real>, time: real)
    requires |shape| > 0 && target.Length == BUFFER_LENGTH
    modifies target
    ensures forall i :: 0 <= i < PARTICLE_COUNT ==> Entry(target, i) == IdleTarget(t, shape[CyclicIndex(i, |shape|)], i, time)
  {
    var len := |shape|;
    for i := 0 to PARTICLE_COUNT
      invariant forall j :: 0 <= j < i ==> Entry(target, j) == IdleTarget(t, shape[CyclicIndex(j, len)], j, time)
    {
      var pt := shape[CyclicIndex(i, len)];
      var angle := time * ROTATION_SPEED;
      var c := t.cos(angle);
      var s := t.sin(angle);
      var rotatedX := pt.x * c - pt.z * s;
      var rotatedZ := pt.x * s + pt.z * c;
      var twinkle := t.sin(time * 3.0 + i as real * 0.1) * 0.5;
      var p := Point(rotatedX + twinkle, pt.y, rotatedZ);
      assert p == IdleTarget(t, pt, i, time);
      Put(target, i, p);
    }
  }

  method FillFist(t: Trig, offsets: array<real>, target: array<real>, time: real)
    requires offsets.Length == BUFFER_LENGTH && target.Length == BUFFER_LENGTH && offsets != target
    modifies target
    ensures forall i :: 0 <= i < PARTICLE_COUNT ==> Entry(target, i) == FistTarget(t, At(offsets[..], i), i, time)
  {
    for i := 0 to PARTICLE_COUNT
      invariant forall j :: 0 <= j < i ==> Entry(target, j) == FistTarget(t, At(offsets[..], j), j, time)
    {
      var angle := i as real * 0.1 + time * 2.0;
      var radius := 2.0 + offsets[i * 3] * 3.0;
      var p := Point(t.cos(angle) * radius, t.sin(angle) * radius, (offsets[i * 3 + 2] - 0.5) * 5.0);
      assert p == FistTarget(t, At(offsets[..], i), i, time);
      Put(target, i, p);
    }
  }

  method FillPinch(t: Trig, shape: Shape, target: array<real>, time: real)
    requires |shape| > 0 && target.Length == BUFFER_LENGTH
    modifies target
    ensures forall i :: 0 <= i < PARTICLE_COUNT ==> Entry(target, i) == PinchTarget(t, shape[CyclicIndex(i, |shape|)], i, time)
  {
    var len := |shape|;
    for i := 0 to PARTICLE_COUNT
      invariant forall j :: 0 <= j < i ==> Entry(target, j) == PinchTarget(t, shape[CyclicIndex(j, len)], j, time)
    {
      var pt := shape[CyclicIndex(i, len)];
      var pulse := t.sin(time * 4.0) * 2.0;
      var sparkle := t.sin(time * 8.0 + i as real * 0.3) * 1.5;
      var p := Point(pt.x + sparkle, pt.y + pulse * 0.3, pt.z + t.sin(time * 2.0 + i as real * 0.1) * 3.0);
      assert p == PinchTarget(t, pt, i, time);
      Put(target, i, p);
    }
  }

  method FillFaceReveal(t: Trig, shape: Shape, target: array<real>, time: real, revealStart: real)
    requires |shape| > 0 && target.Length == BUFFER_LENGTH
    modifies target
    ensures forall i :: 0 <= i < PARTICLE_COUNT ==>
      Entry(target, i) == FaceRevealTarget(t, shape[CyclicIndex(i, |shape|)], i, time, revealStart)
  {
    var len := |shape|;
    for i := 0 to PARTICLE_COUNT
      invariant forall j :: 0 <= j < i ==> Entry(target, j) == FaceRevealTarget(t, shape[CyclicIndex(j, len)], j, time, revealStart)
    {
      var pt := shape[CyclicIndex(i, len)];
      Put(target, i, FaceRevealTarget(t, pt, i, time, revealStart));
    }
  }

  method FillText(t: Trig, shape: Shape, target: array<real>, time: real, rnd: seq<real>)
    requires |shape| > 0 && target.Length == BUFFER_LENGTH && |rnd| >= 2 * PARTICLE_COUNT
    modifies target
    ensures forall i :: 0 <= i < PARTICLE_COUNT ==> Entry(target, i) == TextTarget(t, shape, i, time, rnd)
  {
    var len := |shape|;
    var draw := 0;
    for i := 0 to PARTICLE_COUNT
      invariant draw == if i <= len then 0 else 2 * (i - len)
      invariant forall j :: 0 <= j < i ==> Entry(target, j) == TextTarget(t, shape, j, time, rnd)
    {
      var pt := shape[CyclicIndex(i, len)];
      var wobbleX := t.sin(time * 2.0 + i as real) * 0.05;
      var wobbleY := t.cos(time * 1.5 + i as real) * 0.05;
      var p: Point;
      if i >= len {
        assert draw == OverflowDraw(i, len);
        p := Point((rnd[draw] - 0.5) * 500.0, (rnd[draw + 1] - 0.5) * 500.0, -500.0);
        assert p == TextTarget(t, shape, i, time, rnd);
        draw := draw + 2;
      } else {
        p := Point(pt.x + wobbleX, pt.y + wobbleY, pt.z);
        assert p == TextTarget(t, shape, i, time, rnd);
      }
      Put(target, i, p);
    }
  }

  /**
   * updateTargetPositions. The return value reports the TypeError of an
   * unguarded mode; rnd is the Math.random() stream of the frame.
   */
  method UpdateTargetPositions(t: Trig, gesture: Gesture, shapes: ShapeMap, target: array<real>, offsets: array<real>,
                               time: real, revealStart: real, rnd: seq<real>) returns (thrown: bool)
    requires target.Length == BUFFER_LENGTH && offsets.Length == BUFFER_LENGTH && target != offsets
    requires |rnd| >= 2 * PARTICLE_COUNT
    modifies target
    ensures thrown <==> Throws(gesture, shapes)
    ensures Writes(gesture, shapes) ==> forall i :: 0 <= i < PARTICLE_COUNT ==>
      Entry(target, i) == ModeTarget(t, gesture, shapes, offsets[..], i, time, revealStart, rnd)
    ensures !Writes(gesture, shapes) ==> target[..] == old(target[..])
  {
    thrown := false;
    match gesture {
      case Idle =>
        if ChristmasTree in shapes && |shapes[ChristmasTree]| > 0 {
          FillIdle(t, shapes[ChristmasTree], target, time);
        }
      case Fist =>
        FillFist(t, offsets, target, time);
      case Pinch =>
        if PhotoFrame in shapes && |shapes[PhotoFrame]| > 0 {
          FillPinch(t, shapes[PhotoFrame], target, time);
        } else {
          thrown := true;
        }
      case FaceReveal =>
        if Vortex in shapes && |shapes[Vortex]| > 0 {
          FillFaceReveal(t, shapes[Vortex], target, time, revealStart);
        } else {
          thrown := true;
        }
      case DoubleLove =>
        if SpecialLove !in shapes {
          thrown := true;
        } else if |shapes[SpecialLove]| > 0 {
          FillText(t, shapes[SpecialLove], target, time, rnd);
        }
      case Finger(k) =>
        if FingerShape(k) in shapes && |shapes[FingerShape(k)]| > 0 {
          FillText(t, shapes[FingerShape(k)], target, time, rnd);
        }
      case Other(_) =>
    }
  }

  // ---------------------------------------------------------------------
  // Smoothing
  // ---------------------------------------------------------------------

  /** One smoothing step of one coordinate. */
  function Lerp(current: real, target: real): (next: real)
    ensures target - next == (1.0 - LERP_SPEED) * (target - current)
  {
    current + (target - current) * LERP_SPEED
  }

  /** A step never overshoots: the new value lies between the old value and the target. */
  lemma LerpBetween(current: real, target: real)
    ensures current <= target ==> current <= Lerp(current, target) <= target
    ensures target <= current ==> target <= Lerp(current, target) <= current
    ensures Lerp(current, target) == current <==> current == target
  {
  }

  function Pow(x: real, n: nat): real
    decreases n
  {
    if n == 0 then 1.0 else x * Pow(x, n - 1)
  }

  /** n smoothing steps toward a fixed target. */
  function LerpSteps(current: real, target: real, n: nat): real
    decreases n
  {
    if n == 0 then current else LerpSteps(Lerp(current, target), target, n - 1)
  }

  /** After n frames with a fixed target the remaining distance is 0.95^n of the initial one. */
  lemma {:induction false} LerpStepsDistance(current: real, target: real, n: nat)
    ensures target - LerpSteps(current, target, n) == Pow(1.0 - LERP_SPEED, n) * (target - current)
    decreases n
  {
    if n > 0 {
      var next := Lerp(current, target);
      var q := 1.0 - LERP_SPEED;
      LerpStepsDistance(next, target, n - 1);
      assert target - LerpSteps(current, target, n) == Pow(q, n - 1) * (target - next);
      ScaleStep(Pow(q, n - 1), q, target - current, target - next);
    }
  }

  lemma ScaleStep(a: real, q: real, d: real, e: real)
    requires e == q * d
    ensures a * e == (q * a) * d
  {
  }

  /** interpolatePositions: every entry moves 5% of the way to its target; the targets are not written. */
  method InterpolatePositions(current: array<real>, target: array<real>)
    requires current.Length == BUFFER_LENGTH && target.Length == BUFFER_LENGTH && current != target
    modifies current
    ensures forall k :: 0 <= k < BUFFER_LENGTH ==> current[k] == Lerp(old(current[k]), target[k])
  {
    for k := 0 to BUFFER_LENGTH
      invariant forall m :: 0 <= m < k ==> current[m] == Lerp(old(current[m]), target[m])
      invariant forall m :: k <= m < BUFFER_LENGTH ==> current[m] == old(current[m])
    {
      var dist := target[k] - current[k];
      current[k] := current[k] + dist * LERP_SPEED;
    }
  }

  // ---------------------------------------------------------------------
  // createParticleSystem
  // ---------------------------------------------------------------------

  /** A linear RGB colour, channels in [0, 1]. */
  datatype Color = Color(r: real, g: real, b: real)

  predicate UnitColor(c: Color)
  {
    0.0 <= c.r <= 1.0 && 0.0 <= c.g <= 1.0 && 0.0 <= c.b <= 1.0
  }

  /** Color.lerp on one channel. */
  function MixChannel(a: real, b: real, mix: real): real
  {
    a + (b - a) * mix
  }

  /** A mix with weight in [0, 1] lies between its two ends. */
  lemma MixBetween(a: real, b: real, mix: real)
    requires 0.0 <= mix <= 1.0
    ensures a <= b ==> a <= MixChannel(a, b, mix) <= b
    ensures b <= a ==> b <= MixChannel(a, b, mix) <= a
  {
    if a <= b {
      ProductNonnegative(b - a, mix);
      ProductNonnegative(b - a, 1.0 - mix);
    } else {
      ProductNonnegative(a - b, mix);
      ProductNonnegative(a - b, 1.0 - mix);
    }
  }

  lemma ProductNonnegative(x: real, y: real)
    requires 0.0 <= x && 0.0 <= y
    ensures 0.0 <= x * y
  {
  }

  /** The brightness boost: min(1, c * 1.5). */
  function BoostChannel(c: real): (r: real)
    ensures r <= 1.0
    ensures c >= 0.0 ==> r >= 0.0
    ensures r == 1.0 || r == c * 1.5
    ensures c * 1.5 >= 1.0 ==> r == 1.0
  {
    if c * 1.5 < 1.0 then c * 1.5 else 1.0
  }

  /** Seven Math.random() draws per particle: three position, three offset, one colour mix. */
  const SYSTEM_DRAWS: nat := 7 * PARTICLE_COUNT

  function ParticleColor(startColor: Color, endColor: Color, mix: real): (c: Color)
    ensures c.r <= 1.0 && c.g <= 1.0 && c.b <= 1.0
  {
    Color(BoostChannel(MixChannel(startColor.r, endColor.r, mix)),
          BoostChannel(MixChannel(startColor.g, endColor.g, mix)),
          BoostChannel(MixChannel(startColor.b, endColor.b, mix)))
  }

  /** Colours mixed from two valid colours with a draw in [0, 1) are valid after the boost. */
  lemma ParticleColorIsUnit(startColor: Color, endColor: Color, mix: real)
    requires UnitColor(startColor) && UnitColor(endColor) && 0.0 <= mix < 1.0
    ensures UnitColor(ParticleColor(startColor, endColor, mix))
  {
    MixBetween(startColor.r, endColor.r, mix);
    MixBetween(startColor.g, endColor.g, mix);
    MixBetween(startColor.b, endColor.b, mix);
  }

  /** The scattered start position of particle i: three draws mapped to [-100, 100). */
  function InitialPosition(rnd: seq<real>, i: nat): Point
    requires 7 * i + 6 < |rnd|
  {
    Point((rnd[7 * i] - 0.5) * 200.0, (rnd[7 * i + 1] - 0.5) * 200.0, (rnd[7 * i + 2] - 0.5) * 200.0)
  }

  /** The per-particle random offset: the next three draws as they are. */
  function InitialOffset(rnd: seq<real>, i: nat): Point
    requires 7 * i + 6 < |rnd|
  {
    Point(rnd[7 * i + 3], rnd[7 * i + 4], rnd[7 * i + 5])
  }

  /** The colour of particle i, mixed by its seventh draw. */
  function InitialColor(rnd: seq<real>, startColor: Color, endColor: Color, i: nat): Point
    requires 7 * i + 6 < |rnd|
  {
    ColorPoint(ParticleColor(startColor, endColor, rnd[7 * i + 6]))
  }

  /** Initial particle state: scattered positions in [-100, 100)^3, offsets as drawn, boosted colours. */
  method CreateParticleSystem(rnd: seq<real>, startColor: Color, endColor: Color)
    returns (positions: array<real>, targets: array<real>, colors: array<real>, offsets: array<real>)
    requires |rnd| == SYSTEM_DRAWS
    ensures fresh(positions) && fresh(targets) && fresh(colors) && fresh(offsets)
    ensures positions.Length == BUFFER_LENGTH && targets.Length == BUFFER_LENGTH
    ensures colors.Length == BUFFER_LENGTH && offsets.Length == BUFFER_LENGTH
    ensures positions != targets && positions != offsets && targets != offsets
    ensures colors != positions && colors != targets && colors != offsets
    ensures forall i :: 0 <= i < PARTICLE_COUNT ==>
      Entry(positions, i) == InitialPosition(rnd, i) && Entry(offsets, i) == InitialOffset(rnd, i)
      && Entry(colors, i) == InitialColor(rnd, startColor, endColor, i)
    ensures forall k :: 0 <= k < BUFFER_LENGTH ==> targets[k] == 0.0
  {
    positions := new real[BUFFER_LENGTH](_ => 0.0);
    targets := new real[BUFFER_LENGTH](_ => 0.0);
    colors := new real[BUFFER_LENGTH](_ => 0.0);
    offsets := new real[BUFFER_LENGTH](_ => 0.0);
    for i := 0 to PARTICLE_COUNT
      invariant positions != offsets && positions != colors && positions != targets
      invariant offsets != colors && offsets != targets && colors != targets
      invariant forall j :: 0 <= j < i ==> Entry(positions, j) == InitialPosition(rnd, j)
      invariant forall j :: 0 <= j < i ==> Entry(offsets, j) == InitialOffset(rnd, j)
      invariant forall j :: 0 <= j < i ==> Entry(colors, j) == InitialColor(rnd, startColor, endColor, j)
      invariant forall k :: 0 <= k < BUFFER_LENGTH ==> targets[k] == 0.0
    {
      var position := Point((rnd[7 * i] - 0.5) * 200.0, (rnd[7 * i + 1] - 0.5) * 200.0, (rnd[7 * i + 2] - 0.5) * 200.0);
      assert position == InitialPosition(rnd, i);
      Put(positions, i, position);
      var offset := Point(rnd[7 * i + 3], rnd[7 * i + 4], rnd[7 * i + 5]);
      assert offset == InitialOffset(rnd, i);
      Put(offsets, i, offset);
      var mix := rnd[7 * i + 6];
      var color := ColorPoint(ParticleColor(startColor, endColor, mix));
      assert color == InitialColor(rnd, startColor, endColor, i);
      Put(colors, i, color);
    }
  }

  /** A colour stored in a buffer slot. */
  function ColorPoint(c: Color): Point
  {
    Point(c.r, c.g, c.b)
  }

  /** With offsets drawn from [0, 1), the fist orbit bounds hold for every particle. */
  lemma InitialOffsetsAreUnit(rnd: seq<real>, offsets: seq<real>, i: nat)
    requires |rnd| == SYSTEM_DRAWS && UnitDraws(rnd) && |offsets| == BUFFER_LENGTH && i < PARTICLE_COUNT
    requires At(offsets, i) == InitialOffset(rnd, i)
    ensures 0.0 <= At(offsets, i).x < 1.0 && 0.0 <= At(offsets, i).z < 1.0
  {
    assert 0.0 <= rnd[7 * i + 3] < 1.0 && 0.0 <= rnd[7 * i + 5] < 1.0;
  }
}
