/**
 * The application state and its two entry points: onResults, which turns
 * one frame of tracked hands into a gesture label, and animate, which
 * advances the clock and moves the particle field.
 */
module App {
  import opened Common
  import opened Gestures
  import Particles
  import Shapes

  /** The fallback finger total is capped here. */
  const MAX_FINGERS: nat := 10
  /** The template matcher's answer is used only above this score. */
  const FINGERPOSE_CONFIDENCE: real := 8.0
  /** Clock advance per animation frame. */
  const TICK: real := 0.01

  // ---------------------------------------------------------------------
  // The decision procedure
  // ---------------------------------------------------------------------

  /** Sum of countFingers over the hands, accumulated left to right. */
  function SumFingers(hands: seq<Hand>): (n: nat)
    ensures n <= 5 * |hands|
    ensures hands == [] ==> n == 0
  {
    if hands == [] then 0 else SumFingers(hands[..|hands| - 1]) + CountFingers(hands[|hands| - 1]).fingerCount
  }

  /** Math.min(total, 10). */
  function CapFingers(total: nat): (n: nat)
    ensures n <= MAX_FINGERS
    ensures total <= MAX_FINGERS ==> n == total
    ensures total >= MAX_FINGERS ==> n == MAX_FINGERS
  {
    if total < MAX_FINGERS then total else MAX_FINGERS
  }

  /** The label of a finger total: 0 is fist, 1..10 is finger_k, anything else idle. */
  function CountGesture(total: int): (g: Gesture)
    ensures g == Fist <==> total == 0
    ensures g.Finger? <==> 1 <= total <= 10
    ensures g.Finger? ==> g.k == total
    ensures g == Idle <==> !(0 <= total <= 10)
  {
    if total == 0 then Fist
    else if 1 <= total <= 10 then Finger(total)
    else Idle
  }

  /** gestureMap: the template names the application knows. */
  function PoseGesture(name: string): (g: Option<Gesture>)
    ensures g.Some? ==> g.value == Fist || g.value == Pinch || (g.value.Finger? && 1 <= g.value.k <= 5)
    ensures g.Some? <==> name in {"one_finger", "two_finger", "three_finger", "four_finger", "five_finger", "fist", "pinch"}
  {
    if name == "one_finger" then Some(Finger(1))
    else if name == "two_finger" then Some(Finger(2))
    else if name == "three_finger" then Some(Finger(3))
    else if name == "four_finger" then Some(Finger(4))
    else if name == "five_finger" then Some(Finger(5))
    else if name == "fist" then Some(Fist)
    else if name == "pinch" then Some(Pinch)
    else None
  }

  /** The template matcher's answer, when it is confident enough and its name is mapped. */
  function FingerposeOverride(r: Option<PoseEstimate>): (g: Option<Gesture>)
    ensures g.Some? <==> r.Some? && r.value.score > FINGERPOSE_CONFIDENCE && PoseGesture(r.value.name).Some?
    ensures g.Some? ==> g == PoseGesture(r.value.name)
  {
    if r.Some? && r.value.name != "" && r.value.score > FINGERPOSE_CONFIDENCE then PoseGesture(r.value.name)
    else None
  }

  /** The label onResults settles on, in its priority order. */
  function Classify(hands: Option<seq<Hand>>, estimate: Estimator): (g: Gesture)
    ensures InClosedSet(g)
    ensures g == Idle <==> hands.None? || |hands.value| == 0
  {
    if hands.None? || |hands.value| == 0 then Idle
    else
      var hs := hands.value;
      if |hs| == 2 && IsFaceRevealGesture(CountFingers(hs[0]).fingerCount, CountFingers(hs[1]).fingerCount) then FaceReveal
      else if |hs| == 2 && IsHeartShape(hs[0], hs[1]) then DoubleLove
      else if |hs| == 1 && IsPinchGesture(hs[0]) then Pinch
      else if |hs| == 1 && FingerposeOverride(DetectGesture(estimate, hs[0])).Some? then
        FingerposeOverride(DetectGesture(estimate, hs[0])).value
      else CountGesture(CapFingers(SumFingers(hs)))
  }

  /** Two peace signs give face_reveal, even when the hands also form a heart. */
  lemma FaceRevealBeatsHeart(h1: Hand, h2: Hand, estimate: Estimator)
    requires CountFingers(h1).fingerCount == 2 && CountFingers(h2).fingerCount == 2
    ensures Classify(Some([h1, h2]), estimate) == FaceReveal
  {
    assert IsFaceRevealGesture(CountFingers(h1).fingerCount, CountFingers(h2).fingerCount);
  }

  /** double_love needs exactly two hands forming a heart that are not two peace signs. */
  lemma DoubleLoveNeedsTwoHands(hands: Option<seq<Hand>>, estimate: Estimator)
    requires Classify(hands, estimate) == DoubleLove
    ensures hands.Some? && |hands.value| == 2
    ensures IsHeartShape(hands.value[0], hands.value[1])
    ensures !IsFaceRevealGesture(CountFingers(hands.value[0]).fingerCount, CountFingers(hands.value[1]).fingerCount)
  {
    var hs := hands.value;
    if |hs| != 2 {
      FallbackIsCount(hs);
    }
  }

  /** Two hands forming a heart give double_love unless they are also two peace signs. */
  lemma HeartGivesDoubleLove(h1: Hand, h2: Hand, estimate: Estimator)
    requires IsHeartShape(h1, h2)
    requires !IsFaceRevealGesture(CountFingers(h1).fingerCount, CountFingers(h2).fingerCount)
    ensures Classify(Some([h1, h2]), estimate) == DoubleLove
  {
  }

  /** One hand passing the geometric pinch test gives pinch, whatever the template matcher says. */
  lemma PinchingHandGivesPinch(h: Hand, estimate: Estimator)
    requires IsPinchGesture(h)
    ensures Classify(Some([h]), estimate) == Pinch
  {
  }

  /** face_reveal needs exactly two hands each counting two fingers. */
  lemma FaceRevealNeedsTwoPeaceSigns(hands: Option<seq<Hand>>, estimate: Estimator)
    requires Classify(hands, estimate) == FaceReveal
    ensures hands.Some? && |hands.value| == 2
    ensures CountFingers(hands.value[0]).fingerCount == 2 && CountFingers(hands.value[1]).fingerCount == 2
  {
    var hs := hands.value;
    if |hs| != 2 {
      FallbackIsCount(hs);
    }
  }

  /** pinch comes only from a single hand: the geometric test or the template matcher. */
  lemma PinchNeedsOneHand(hands: Option<seq<Hand>>, estimate: Estimator)
    requires Classify(hands, estimate) == Pinch
    ensures hands.Some? && |hands.value| == 1
    ensures IsPinchGesture(hands.value[0]) || FingerposeOverride(DetectGesture(estimate, hands.value[0])) == Some(Pinch)
  {
    var hs := hands.value;
    if |hs| != 1 {
      FallbackIsCount(hs);
    }
  }

  /** The fallback label is never pinch, face_reveal, double_love or idle. */
  lemma FallbackIsCount(hs: seq<Hand>)
    ensures var g := CountGesture(CapFingers(SumFingers(hs)));
      g == Fist || (g.Finger? && 1 <= g.k <= 10)
  {
  }

  /** Except with exactly one hand, the template matcher's answer is never consulted. */
  lemma EstimatorIgnoredUnlessOneHand(hands: Option<seq<Hand>>, e1: Estimator, e2: Estimator)
    requires hands.None? || |hands.value| != 1
    ensures Classify(hands, e1) == Classify(hands, e2)
  {
  }

  /** With one hand and a confident mapped answer (and no geometric pinch), the answer wins. */
  lemma ConfidentEstimateOverrides(h: Hand, estimate: Estimator)
    requires !IsPinchGesture(h)
    requires FingerposeOverride(DetectGesture(estimate, h)).Some?
    ensures Classify(Some([h]), estimate) == FingerposeOverride(DetectGesture(estimate, h)).value
  {
  }

  /** With one or two hands the finger total never reaches the cap, so it is used as counted. */
  lemma {:induction false} TwoHandsNeverCapped(hs: seq<Hand>)
    requires |hs| <= 2
    ensures SumFingers(hs) <= MAX_FINGERS
    ensures CapFingers(SumFingers(hs)) == SumFingers(hs)
  {
    assert SumFingers(hs) <= 5 * |hs|;
  }

  /** A single hand yields at most finger_5. */
  lemma OneHandAtMostFive(h: Hand, estimate: Estimator)
    ensures var g := Classify(Some([h]), estimate); g.Finger? ==> 1 <= g.k <= 5
  {
    assert [h][..0] == [];
    assert SumFingers([h]) == CountFingers(h).fingerCount;
  }

  /** The handData loop: countFingers of every hand, in order. */
  method HandFingerCounts(hs: seq<Hand>) returns (handData: seq<nat>)
    ensures |handData| == |hs|
    ensures forall m :: 0 <= m < |hs| ==> handData[m] == CountFingers(hs[m]).fingerCount
  {
    handData := [];
    for j := 0 to |hs|
      invariant |handData| == j
      invariant forall m :: 0 <= m < j ==> handData[m] == CountFingers(hs[m]).fingerCount
    {
      handData := handData + [CountFingers(hs[j]).fingerCount];
    }
  }

  /**
   * The hands branch of onResults: the face_reveal and double_love tests on
   * two hands, the pinch test and the template matcher on one hand, and the
   * finger-count fallback, each returning as soon as it applies.
   */
  method RecognizeHands(hs: seq<Hand>, estimate: Estimator) returns (g: Gesture)
    requires |hs| > 0
    ensures g == Classify(Some(hs), estimate)
  {
    var handData := HandFingerCounts(hs);

    if |hs| == 2 {
      if IsFaceRevealGesture(handData[0], handData[1]) {
        return FaceReveal;
      }
      if IsHeartShape(hs[0], hs[1]) {
        return DoubleLove;
      }
    }

    if |hs| == 1 {
      if IsPinchGesture(hs[0]) {
        return Pinch;
      }
    }

    if |hs| == 1 {
      var fpResult := DetectGesture(estimate, hs[0]);
      if fpResult.Some? && fpResult.value.name != "" && fpResult.value.score > FINGERPOSE_CONFIDENCE {
        var mapped := PoseGesture(fpResult.value.name);
        if mapped.Some? {
          return mapped.value;
        }
      }
    }

    g := FallbackGesture(hs);
  }

  /** The fallback of onResults: total the fingers of all hands, cap at 10, label the total. */
  method FallbackGesture(hs: seq<Hand>) returns (g: Gesture)
    ensures g == CountGesture(CapFingers(SumFingers(hs)))
    ensures g == Fist || (g.Finger? && 1 <= g.k <= 10)
  {
    var totalFingers: nat := 0;
    for j := 0 to |hs|
      invariant totalFingers == SumFingers(hs[..j])
    {
      assert hs[..j + 1][..j] == hs[..j];
      totalFingers := totalFingers + CountFingers(hs[j]).fingerCount;
    }
    assert hs[..|hs|] == hs;
    totalFingers := if totalFingers < MAX_FINGERS then totalFingers else MAX_FINGERS;

    if totalFingers == 0 {
      g := Fist;
    } else if 1 <= totalFingers <= 10 {
      g := Finger(totalFingers);
    } else {
      g := Idle;
    }
  }

  // ---------------------------------------------------------------------
  // The application
  // ---------------------------------------------------------------------

  class App {
    var gesture: Gesture
    var isHandDetected: bool
    var time: real
    var revealStartTime: real

    const trig: Trig
    const shapes: ShapeMap
    const positions: array<real>
    const targetPositions: array<real>
    const randomOffsets: array<real>

    /** The buffers are distinct and full-size, the clock never runs behind the reveal, the shapes every mode needs exist. */
    ghost predicate Valid()
      reads this
    {
      positions.Length == Particles.BUFFER_LENGTH && targetPositions.Length == Particles.BUFFER_LENGTH
      && randomOffsets.Length == Particles.BUFFER_LENGTH
      && positions != targetPositions && positions != randomOffsets && targetPositions != randomOffsets
      && revealStartTime <= time
      && InClosedSet(gesture)
      && NonEmpty(shapes, PhotoFrame) && NonEmpty(shapes, Vortex) && SpecialLove in shapes
    }

    /** Module start-up: the particle buffers, the shape table and the initial state. */
    constructor (t: Trig, raster: Shapes.Rasterizer, systemDraws: seq<real>, vortexDraws: seq<real>,
                 treeDraws: seq<real>, frameDraws: seq<real>, startColor: Particles.Color, endColor: Particles.Color)
      requires |systemDraws| == Particles.SYSTEM_DRAWS
      requires |vortexDraws| == 2 * PARTICLE_COUNT && |treeDraws| == Shapes.TREE_DRAWS && |frameDraws| == 3 * PARTICLE_COUNT
      ensures Valid()
      ensures gesture == Idle && !isHandDetected && time == 0.0 && revealStartTime == 0.0
      ensures trig == t
      ensures fresh(positions) && fresh(targetPositions) && fresh(randomOffsets)
      ensures forall i :: 0 <= i < PARTICLE_COUNT ==>
        Particles.Entry(positions, i) == Particles.InitialPosition(systemDraws, i)
        && Particles.Entry(randomOffsets, i) == Particles.InitialOffset(systemDraws, i)
      ensures forall k :: 0 <= k < Particles.BUFFER_LENGTH ==> targetPositions[k] == 0.0
      ensures forall key :: key in shapes <==> Shapes.FixedKey(key) || 1 <= key.k <= 10
      ensures Shapes.FixedShapes(shapes, t, raster, vortexDraws, treeDraws, frameDraws)
      ensures Shapes.FingerShapes(shapes, raster)
    {
      var pos, tgt, col, off := Particles.CreateParticleSystem(systemDraws, startColor, endColor);
      var sh := Shapes.GenerateShapes(t, raster, vortexDraws, treeDraws, frameDraws);
      trig := t;
      shapes := sh;
      positions := pos;
      targetPositions := tgt;
      randomOffsets := off;
      gesture := Idle;
      isHandDetected := false;
      time := 0.0;
      revealStartTime := 0.0;
    }

    /** onResults, for the hands of one frame and the template matcher. */
    method OnResults(hands: Option<seq<Hand>>, estimate: Estimator)
      requires Valid()
      modifies this
      ensures Valid()
      ensures gesture == Classify(hands, estimate)
      ensures isHandDetected <==> hands.Some? && |hands.value| > 0
      ensures gesture == FaceReveal && old(gesture) != FaceReveal ==> revealStartTime == time
      ensures !(gesture == FaceReveal && old(gesture) != FaceReveal) ==> revealStartTime == old(revealStartTime)
      ensures time == old(time)
    {
      if hands.Some? && |hands.value| > 0 {
        isHandDetected := true;
        var g := RecognizeHands(hands.value, estimate);
        if g == FaceReveal && gesture != FaceReveal {
          revealStartTime := time;
        }
        gesture := g;
      } else {
        isHandDetected := false;
        gesture := Idle;
      }
    }

    /** animate: advance the clock, retarget the particles for the current gesture, smooth toward the targets. */
    method Animate(rnd: seq<real>)
      requires Valid() && |rnd| >= 2 * PARTICLE_COUNT
      modifies this, targetPositions, positions
      ensures Valid()
      ensures time == old(time) + TICK
      ensures gesture == old(gesture) && revealStartTime == old(revealStartTime) && isHandDetected == old(isHandDetected)
      ensures Particles.Writes(gesture, shapes) ==> forall i :: 0 <= i < PARTICLE_COUNT ==>
        Particles.Entry(targetPositions, i)
          == Particles.ModeTarget(trig, gesture, shapes, randomOffsets[..], i, time, revealStartTime, rnd)
      ensures !Particles.Writes(gesture, shapes) ==> targetPositions[..] == old(targetPositions[..])
      ensures forall k :: 0 <= k < Particles.BUFFER_LENGTH ==>
        positions[k] == Particles.Lerp(old(positions[k]), targetPositions[k])
    {
      time := time + TICK;
      var thrown := Particles.UpdateTargetPositions(trig, gesture, shapes, targetPositions, randomOffsets,
                                                    time, revealStartTime, rnd);
      assert !thrown;
      Particles.InterpolatePositions(positions, targetPositions);
    }
  }

  /**
   * The clock after n frames. Each App.Animate call ensures
   * time == old(time) + TICK, so n successive frames starting at start
   * leave the clock at TimeAfter(start, n): it grows by exactly n * 0.01.
   */
  function TimeAfter(start: real, n: nat): (t: real)
    ensures t == start + n as real * TICK
    ensures n > 0 ==> t > start
    decreases n
  {
    if n == 0 then start else TimeAfter(start, n - 1) + TICK
  }
}
