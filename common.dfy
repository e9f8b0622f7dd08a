/** Values shared by the gesture classifier, the shape library and the particle field. */
module Common {

  /** Number of particles in the field (PARTICLE_COUNT). */
  const PARTICLE_COUNT: nat := 20000

  /** JavaScript's Math.PI. */
  const PI: real := 3.141592653589793

  datatype Option<T> = None | Some(value: T)

  /** A 3-D point: a hand landmark, a shape point or one particle's entry in a buffer. */
  datatype Point = Point(x: real, y: real, z: real)

  /**
   * The host's transcendental functions. They are not interpreted: a model
   * statement that depends on their values says so through Pythagorean or
   * Bounded below.
   */
  datatype Trig = Trig(
    sin: real -> real,
    cos: real -> real,
    atan2: (real, real) -> real,
    hypot: (real, real) -> real)

  /** sin and cos obey sin^2 + cos^2 = 1. */
  ghost predicate Pythagorean(t: Trig)
  {
    forall a :: t.sin(a) * t.sin(a) + t.cos(a) * t.cos(a) == 1.0
  }

  /** sin and cos stay within [-1, 1]. */
  ghost predicate Bounded(t: Trig)
  {
    forall a :: -1.0 <= t.sin(a) <= 1.0 && -1.0 <= t.cos(a) <= 1.0
  }

  /** A stream of Math.random() draws: every draw lies in [0, 1). */
  predicate UnitDraws(s: seq<real>)
  {
    forall k :: 0 <= k < |s| ==> 0.0 <= s[k] < 1.0
  }

  function Abs(r: real): real
  {
    if r < 0.0 then -r else r
  }

  /**
   * A label that updateTargetPositions recognises: one of the five named
   * modes, or any label its finger_ branch parses.
   */
  predicate ModeLabel(s: string)
  {
    s == "idle" || s == "fist" || s == "pinch" || s == "face_reveal" || s == "double_love"
    || (|s| >= 7 && s[..7] == "finger_")
  }

  /** A label that no branch of updateTargetPositions recognises. */
  type OtherLabel = s: string | !ModeLabel(s) witness ""

  /**
   * The gesture label held in the application state. The classifier only
   * produces labels of the closed set; Other stands for any label that no
   * mode recognises, which a caller might hand to the particle field.
   */
  datatype Gesture =
    | Idle
    | Fist
    | Pinch
    | FaceReveal
    | DoubleLove
    | Finger(k: int)
    | Other(name: OtherLabel)

  /** idle, fist, pinch, face_reveal, double_love and finger_1 .. finger_10. */
  predicate InClosedSet(g: Gesture)
  {
    match g
    case Finger(k) => 1 <= k <= 10
    case Other(_) => false
    case _ => true
  }

  /** Keys of the object returned by generateShapes. */
  datatype ShapeKey =
    | Vortex
    | ChristmasTree
    | PhotoFrame
    | SpecialLove
    | Missing
    | FingerShape(k: int)

  /** A named, ordered point cloud. */
  type Shape = seq<Point>

  /** The shape table; a key that is absent is an undefined property. */
  type ShapeMap = map<ShapeKey, Shape>

  predicate NonEmpty(shapes: ShapeMap, key: ShapeKey)
  {
    key in shapes && |shapes[key]| > 0
  }
}
