/**
 * Geometric gesture heuristics over one frame's hand landmarks, and the
 * reduction that picks the template matcher's best candidate.
 */
module Gestures {
  import opened Common

  /** MediaPipe reports 21 landmarks per hand, in anatomical order. */
  const LANDMARK_COUNT: nat := 21

  const WRIST: nat := 0
  const THUMB_IP: nat := 3
  const THUMB_TIP: nat := 4
  const INDEX_BASE: nat := 6
  const INDEX_TIP: nat := 8
  const MIDDLE_BASE: nat := 10
  const MIDDLE_TIP: nat := 12
  const RING_BASE: nat := 14
  const RING_TIP: nat := 16
  const PINKY_BASE: nat := 18
  const PINKY_TIP: nat := 20

  const THUMB_EXTENSION_RATIO: real := 1.1
  const PINCH_THRESHOLD: real := 0.08
  const HEART_THRESHOLD: real := 0.15

  /** One tracked hand: normalised landmarks indexed as above. */
  type Hand = h: seq<Point> | |h| == LANDMARK_COUNT
    witness seq(LANDMARK_COUNT, _ => Point(0.0, 0.0, 0.0))

  /** The record countFingers returns. */
  datatype FingerState = FingerState(
    fingerCount: nat,
    isThumbUp: bool,
    isIndexUp: bool,
    isMiddleUp: bool,
    isRingUp: bool,
    isPinkyUp: bool)

  function Flags(f: FingerState): seq<bool>
  {
    [f.isThumbUp, f.isIndexUp, f.isMiddleUp, f.isRingUp, f.isPinkyUp]
  }

  /** Number of true entries. */
  function CountTrue(s: seq<bool>): (n: nat)
    ensures n <= |s|
    ensures n == 0 <==> forall k :: 0 <= k < |s| ==> !s[k]
    ensures n == |s| <==> forall k :: 0 <= k < |s| ==> s[k]
  {
    if s == [] then 0 else (if s[0] then 1 else 0) + CountTrue(s[1..])
  }

  /** A finger is up when its tip lies above (smaller y than) its base joint. */
  predicate TipAboveBase(h: Hand, tip: nat, base: nat)
    requires tip < LANDMARK_COUNT && base < LANDMARK_COUNT
  {
    h[tip].y < h[base].y
  }

  /** The thumb is up when it is extended sideways away from the wrist. */
  predicate ThumbExtended(h: Hand)
  {
    Abs(h[THUMB_TIP].x - h[WRIST].x) > Abs(h[THUMB_IP].x - h[WRIST].x) * THUMB_EXTENSION_RATIO
  }

  /** countFingers: which digits are up, and how many. */
  function CountFingers(h: Hand): (r: FingerState)
    ensures r.isIndexUp <==> h[8].y < h[6].y
    ensures r.isMiddleUp <==> h[12].y < h[10].y
    ensures r.isRingUp <==> h[16].y < h[14].y
    ensures r.isPinkyUp <==> h[20].y < h[18].y
    ensures r.isThumbUp <==> Abs(h[4].x - h[0].x) > 1.1 * Abs(h[3].x - h[0].x)
    ensures r.fingerCount == CountTrue(Flags(r))
    ensures r.fingerCount <= 5
  {
    var isIndexUp := TipAboveBase(h, INDEX_TIP, INDEX_BASE);
    var isMiddleUp := TipAboveBase(h, MIDDLE_TIP, MIDDLE_BASE);
    var isRingUp := TipAboveBase(h, RING_TIP, RING_BASE);
    var isPinkyUp := TipAboveBase(h, PINKY_TIP, PINKY_BASE);
    var isThumbUp := ThumbExtended(h);
    var count :=
      (if isThumbUp then 1 else 0) + (if isIndexUp then 1 else 0) + (if isMiddleUp then 1 else 0)
      + (if isRingUp then 1 else 0) + (if isPinkyUp then 1 else 0);
    var r := FingerState(count, isThumbUp, isIndexUp, isMiddleUp, isRingUp, isPinkyUp);
    CountTrueOfFive(isThumbUp, isIndexUp, isMiddleUp, isRingUp, isPinkyUp);
    r
  }

  lemma CountTrueOfFive(a: bool, b: bool, c: bool, d: bool, e: bool)
    ensures CountTrue([a, b, c, d, e])
      == (if a then 1 else 0) + (if b then 1 else 0) + (if c then 1 else 0) + (if d then 1 else 0) + (if e then 1 else 0)
  {
    assert [e][1..] == [];
    assert CountTrue([e]) == if e then 1 else 0;
    assert [d, e][1..] == [e];
    assert CountTrue([d, e]) == (if d then 1 else 0) + CountTrue([e]);
    assert [c, d, e][1..] == [d, e];
    assert CountTrue([c, d, e]) == (if c then 1 else 0) + CountTrue([d, e]);
    assert [b, c, d, e][1..] == [c, d, e];
    assert CountTrue([b, c, d, e]) == (if b then 1 else 0) + CountTrue([c, d, e]);
    assert [a, b, c, d, e][1..] == [b, c, d, e];
  }

  /** An open hand: every tip above its base and the thumb extended sideways. */
  lemma OpenHandCountsFive(h: Hand)
    requires h[8].y < h[6].y && h[12].y < h[10].y && h[16].y < h[14].y && h[20].y < h[18].y
    requires ThumbExtended(h)
    ensures CountFingers(h).fingerCount == 5
    ensures forall k :: 0 <= k < 5 ==> Flags(CountFingers(h))[k]
  {
  }

  /** A closed fist: every tip at or below its base and the thumb tucked in. */
  lemma ClosedFistCountsZero(h: Hand)
    requires h[8].y >= h[6].y && h[12].y >= h[10].y && h[16].y >= h[14].y && h[20].y >= h[18].y
    requires !ThumbExtended(h)
    ensures CountFingers(h).fingerCount == 0
  {
  }

  /** Squared Euclidean distance in the image plane (hypot squared). */
  function PlanarDistanceSquared(a: Point, b: Point): (d: real)
    ensures d >= 0.0
  {
    (a.x - b.x) * (a.x - b.x) + (a.y - b.y) * (a.y - b.y)
  }

  /**
   * hypot(dx, dy) < c, for c > 0, written without the square root: both
   * sides are non-negative, so comparing squares is equivalent.
   */
  predicate Closer(a: Point, b: Point, c: real)
  {
    PlanarDistanceSquared(a, b) < c * c
  }

  /** Points closer than c lie within c of each other on both axes. */
  lemma CloserOnBothAxes(a: Point, b: Point, c: real)
    requires c > 0.0
    ensures Closer(a, b, c) ==> Abs(a.x - b.x) < c && Abs(a.y - b.y) < c
  {
    var dx := Abs(a.x - b.x);
    var dy := Abs(a.y - b.y);
    assert dx * dx == (a.x - b.x) * (a.x - b.x) && dy * dy == (a.y - b.y) * (a.y - b.y);
    if dx >= c {
      SquareMonotone(c, dx);
    }
    if dy >= c {
      SquareMonotone(c, dy);
    }
  }

  lemma SquareMonotone(c: real, d: real)
    requires 0.0 < c <= d
    ensures c * c <= d * d
  {
    assert d * d - c * c == (d - c) * (d + c);
  }

  lemma PlanarDistanceSymmetric(a: Point, b: Point)
    ensures PlanarDistanceSquared(a, b) == PlanarDistanceSquared(b, a)
  {
    assert (a.x - b.x) * (a.x - b.x) == (b.x - a.x) * (b.x - a.x);
    assert (a.y - b.y) * (a.y - b.y) == (b.y - a.y) * (b.y - a.y);
  }

  /** isHeartShape: thumb tips together and index tips together. */
  predicate IsHeartShape(hand1: Hand, hand2: Hand)
    ensures IsHeartShape(hand1, hand2) ==>
      Abs(hand1[THUMB_TIP].x - hand2[THUMB_TIP].x) < HEART_THRESHOLD && Abs(hand1[THUMB_TIP].y - hand2[THUMB_TIP].y) < HEART_THRESHOLD
      && Abs(hand1[INDEX_TIP].x - hand2[INDEX_TIP].x) < HEART_THRESHOLD && Abs(hand1[INDEX_TIP].y - hand2[INDEX_TIP].y) < HEART_THRESHOLD
  {
    CloserOnBothAxes(hand1[THUMB_TIP], hand2[THUMB_TIP], HEART_THRESHOLD);
    CloserOnBothAxes(hand1[INDEX_TIP], hand2[INDEX_TIP], HEART_THRESHOLD);
    Closer(hand1[THUMB_TIP], hand2[THUMB_TIP], HEART_THRESHOLD)
    && Closer(hand1[INDEX_TIP], hand2[INDEX_TIP], HEART_THRESHOLD)
  }

  /** The heart test does not depend on which hand is reported first. */
  lemma HeartShapeSymmetric(hand1: Hand, hand2: Hand)
    ensures IsHeartShape(hand1, hand2) <==> IsHeartShape(hand2, hand1)
  {
    PlanarDistanceSymmetric(hand1[THUMB_TIP], hand2[THUMB_TIP]);
    PlanarDistanceSymmetric(hand1[INDEX_TIP], hand2[INDEX_TIP]);
  }

  /** isFaceRevealGesture: two peace signs. */
  predicate IsFaceRevealGesture(hand1Fingers: int, hand2Fingers: int)
  {
    hand1Fingers == 2 && hand2Fingers == 2
  }

  /** A peace sign: index and middle fingers up, ring and pinky down, thumb tucked in. */
  predicate PeaceSign(h: Hand)
  {
    h[8].y < h[6].y && h[12].y < h[10].y && h[16].y >= h[14].y && h[20].y >= h[18].y && !ThumbExtended(h)
  }

  /** Two hands each showing a peace sign count two fingers each and so pass isFaceRevealGesture. */
  lemma PeaceSignsRevealFace(h1: Hand, h2: Hand)
    requires PeaceSign(h1) && PeaceSign(h2)
    ensures CountFingers(h1).isIndexUp && CountFingers(h1).isMiddleUp && CountFingers(h2).isIndexUp && CountFingers(h2).isMiddleUp
    ensures IsFaceRevealGesture(CountFingers(h1).fingerCount, CountFingers(h2).fingerCount)
  {
  }

  /** isPinchGesture: thumb and index tips together, the other three fingers curled. */
  predicate IsPinchGesture(h: Hand)
    ensures IsPinchGesture(h) ==>
      Abs(h[THUMB_TIP].x - h[INDEX_TIP].x) < PINCH_THRESHOLD && Abs(h[THUMB_TIP].y - h[INDEX_TIP].y) < PINCH_THRESHOLD
  {
    CloserOnBothAxes(h[THUMB_TIP], h[INDEX_TIP], PINCH_THRESHOLD);
    Closer(h[THUMB_TIP], h[INDEX_TIP], PINCH_THRESHOLD)
    && h[MIDDLE_TIP].y > h[MIDDLE_BASE].y
    && h[RING_TIP].y > h[RING_BASE].y
    && h[PINKY_TIP].y > h[PINKY_BASE].y
  }

  /**
   * A pinching hand has middle, ring and pinky down, so countFingers sees at
   * most the thumb and the index finger.
   */
  lemma PinchCountsAtMostTwo(h: Hand)
    requires IsPinchGesture(h)
    ensures !CountFingers(h).isMiddleUp && !CountFingers(h).isRingUp && !CountFingers(h).isPinkyUp
    ensures CountFingers(h).fingerCount <= 2
  {
  }

  /** convertLandmarks: normalised coordinates to the 640x480 pixel space, z scaled by 100. */
  function ToPixel(lm: Point): Point
  {
    Point(lm.x * 640.0, lm.y * 480.0, lm.z * 100.0)
  }

  function ConvertLandmarks(landmarks: seq<Point>): (r: seq<Point>)
    ensures |r| == |landmarks|
    ensures forall i :: 0 <= i < |r| ==> r[i] == Point(landmarks[i].x * 640.0, landmarks[i].y * 480.0, landmarks[i].z * 100.0)
  {
    if landmarks == [] then [] else [ToPixel(landmarks[0])] + ConvertLandmarks(landmarks[1..])
  }

  /** One candidate of the template matcher: a gesture name and its score. */
  datatype PoseEstimate = PoseEstimate(name: string, score: real)

  /**
   * The reduce in detectGesture: a left fold keeping the accumulator only
   * when its score is strictly greater, so of several candidates with the
   * top score the last one wins.
   */
  function BestEstimate(candidates: seq<PoseEstimate>): (best: PoseEstimate)
    requires |candidates| > 0
    ensures best in candidates
    ensures forall e :: e in candidates ==> e.score <= best.score
  {
    if |candidates| == 1 then candidates[0]
    else
      var a := BestEstimate(candidates[..|candidates| - 1]);
      var b := candidates[|candidates| - 1];
      assert candidates == candidates[..|candidates| - 1] + [b];
      if a.score > b.score then a else b
  }

  /** No candidate after position k scores as high as candidate k. */
  predicate NoLaterTie(candidates: seq<PoseEstimate>, k: nat)
    requires k < |candidates|
  {
    forall j :: k < j < |candidates| ==> candidates[j].score < candidates[k].score
  }

  /** On a tie the last top-scoring candidate wins: no later candidate has its score. */
  lemma {:induction false} BestEstimateLastOnTie(candidates: seq<PoseEstimate>)
    requires |candidates| > 0
    ensures exists k: nat :: k < |candidates| && candidates[k] == BestEstimate(candidates) && NoLaterTie(candidates, k)
  {
    var n := |candidates|;
    if n == 1 {
      assert candidates[0] == BestEstimate(candidates) && NoLaterTie(candidates, 0);
    } else {
      var prefix := candidates[..n - 1];
      var a := BestEstimate(prefix);
      var b := candidates[n - 1];
      if a.score > b.score {
        assert BestEstimate(candidates) == a;
        BestEstimateLastOnTie(prefix);
        var k: nat :| k < |prefix| && prefix[k] == a && NoLaterTie(prefix, k);
        forall j | k < j < n ensures candidates[j].score < candidates[k].score {
          if j < n - 1 {
            assert candidates[j] == prefix[j];
          }
        }
        assert candidates[k] == BestEstimate(candidates) && NoLaterTie(candidates, k);
      } else {
        assert BestEstimate(candidates) == b;
        assert candidates[n - 1] == BestEstimate(candidates) && NoLaterTie(candidates, n - 1);
      }
    }
  }

  /** GE.estimate(converted, 7.5): the foreign template matcher, with its threshold built in. */
  type Estimator = seq<Point> -> seq<PoseEstimate>

  /**
   * detectGesture: the best candidate the estimator returns for the
   * converted landmarks, or none when it returns none.
   */
  function DetectGesture(estimate: Estimator, landmarks: seq<Point>): (r: Option<PoseEstimate>)
    ensures r.None? <==> |estimate(ConvertLandmarks(landmarks))| == 0
    ensures r.Some? ==> var candidates := estimate(ConvertLandmarks(landmarks));
      r.value in candidates && forall e :: e in candidates ==> e.score <= r.value.score
  {
    var candidates := estimate(ConvertLandmarks(landmarks));
    if |candidates| > 0 then Some(BestEstimate(candidates)) else None
  }
}
