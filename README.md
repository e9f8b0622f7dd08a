# 3d-interaktif: a verified model of the gesture classifier, the shape library and the particle field

The application turns a webcam feed into a morphing cloud of 20 000
particles. Each frame, the hand tracker reports zero or more hands of 21
landmarks each. `onResults` classifies them into one gesture label:
`idle`, `fist`, `pinch`, `face_reveal`, `double_love`, or `finger_1` to
`finger_10`. On every animation tick, `animate` advances the clock and
recomputes each particle's target from the shape that belongs to the
current gesture. The shapes are a Christmas tree, a photo frame, a
vortex, or a text message sampled from a canvas. The tick then moves
every particle 5% of the way toward its target.

The model has six modules. `Common` holds what the others share; each of the other five follows one source file, and the constants of src/config.js sit in the module that uses them:

- `Common` (common.dfy) holds the shared values, with the particle count of src/config.js:
  - points, the gesture labels and the shape keys;
  - the host's trigonometry, as uninterpreted functions;
  - the predicates stating what the model assumes of them: `Pythagorean`, `Bounded` and `UnitDraws`.
- `Messages` (messages.dfy, src/messages.js) holds the text lines and font sizes of the ten finger-count messages and of the two fixed text shapes.
- `Gestures` (gestures.dfy, src/gestures.js) holds the landmark heuristics as pure functions and predicates:
  - finger counting, and the heart, peace-sign and pinch tests;
  - the conversion to pixel space;
  - the best-score reduction over the template matcher's candidates.
- `Shapes` (shapes.dfy, src/shapes.js) builds each shape with the source's loops:
  - the text sampler, over a rasterised RGBA buffer;
  - the vortex, the tree and the photo frame;
  - the shape table.

  Each loop method is proved equal to a specification function, and the layout properties are lemmas about those functions.
- `Particles` (particles.dfy, src/particles.js) holds:
  - the per-mode target of one particle, as functions;
  - the in-place loops over the flat `array<real>` buffers of length 3N, which write those targets;
  - the smoothing step and the initial particle system.
- `App` (app.dfy, src/main.js) holds:
  - `Classify`, the priority order of `onResults` as one pure function;
  - the lemmas about that order;
  - the class `App`, whose `OnResults` and `Animate` update the application state in place.

Randomness comes in as explicit streams of draws, each draw in [0, 1) under `UnitDraws`. Each draw has a fixed index, so every random coordinate is a function of the stream.

The template matcher is an `Estimator` parameter, and the canvas is a `Rasterizer` parameter.

Edge cases the code handles in its own way, which the model keeps:

- Pinch and face_reveal throw a TypeError on a missing or empty shape, and double_love on a missing one, before writing any target: the code reads a property of `undefined` (src/particles.js:137-140, 154-157, 182). `Particles.Throws` names these cases, and `UpdateTargetPositions` reports them and writes nothing.
- The classifier reads landmarks 0 to 20 of every hand without checking how many there are. The model's `Hand` type always has 21.
- A pixel is lit when its red byte is strictly greater than 128 (src/shapes.js:40).
- The photo frame as written never uses its left edge; see Findings. The shape table uses the frame as written.

## Model

| member | source | states |
|---|---|---|
| Gestures.CountTrue | src/gestures.js:140-145 | the count of true flags is at most the number of flags; it is 0 exactly when none is true, and full exactly when all are |
| Gestures.CountFingers | src/gestures.js:117-155 | index, middle, ring and pinky are up iff landmark 8/12/16/20 lies above 6/10/14/18; the thumb is up iff its tip is more than 1.1 times as far from the wrist in x as landmark 3; fingerCount is the number of true flags, so at most 5 |
| Gestures.OpenHandCountsFive | src/gestures.js:131-145 | an open hand, with every tip above its base and the thumb extended, counts 5 with every flag up |
| Gestures.ClosedFistCountsZero | src/gestures.js:131-145 | a fist, with every tip at or below its base and the thumb tucked in, counts 0 |
| Gestures.PlanarDistanceSquared | src/gestures.js:166-167 | the squared planar distance that stands in for hypot is never negative |
| Gestures.IsHeartShape | src/gestures.js:160-170 | two hands form a heart only when their thumb tips and their index tips each lie within 0.15 of each other on both the x and the y axis |
| Gestures.HeartShapeSymmetric | src/gestures.js:160-170 | the heart test (thumb tips and index tips each closer than 0.15) gives the same answer whichever hand is reported first |
| Gestures.PeaceSignsRevealFace | src/gestures.js:175-177 | two hands each showing a peace sign (index and middle up, ring and pinky down, thumb tucked) have index and middle counted up and pass isFaceRevealGesture |
| Gestures.IsPinchGesture | src/gestures.js:182-200 | a pinching hand has its thumb tip and index tip within 0.08 of each other on both the x and the y axis |
| Gestures.PinchCountsAtMostTwo | src/gestures.js:182-200 | a pinching hand has middle, ring and pinky down in countFingers too, so it counts at most 2 |
| Gestures.ConvertLandmarks | src/gestures.js:83-89 | same length as the input; landmark i becomes (x * 640, y * 480, z * 100) |
| Gestures.BestEstimate | src/gestures.js:102-104 | the reduce returns one of the candidates, and no candidate scores higher |
| Gestures.BestEstimateLastOnTie | src/gestures.js:102-104 | on a tie the reduce keeps the last top-scoring candidate: the result sits at a position after which no candidate reaches its score |
| Gestures.DetectGesture | src/gestures.js:96-112 | there is no result exactly when the matcher returns no candidate; otherwise the result is a candidate with the highest score |
| Messages.FingerMessage | src/messages.js:4-55 | a message exists exactly for the counts 1 to 10, each with at least one line and a positive font size |
| Shapes.LinePositions | src/shapes.js:27-31 | one position per line; consecutive lines are 1.2 times the font size apart; the first and last lines are symmetric about the canvas middle (1024 / 2) |
| Shapes.CreateTextPoints | src/shapes.js:38-49 | the nested stride-3 loops return exactly TextPoints of the pixel buffer |
| Shapes.SampleRow | src/shapes.js:39-47 | the inner loop returns exactly the points of one sampled row, left to right |
| Shapes.TextPointsShape | src/shapes.js:38-45 | text points have z = 0, come in row-major order (top row first, left to right within a row), and number at most 342 * 683 |
| Shapes.TextPointMembership | src/shapes.js:38-45 | the world point of pixel (x, y) is in the cloud iff x and y are stride-3 positions inside 2048 x 1024 and the pixel's red byte exceeds 128; and every point of the cloud is the world point of such a pixel |
| Shapes.CreateMessagePoints | src/shapes.js:11-50 | createTextPoints is the sampled cloud of the canvas rendered with the computed line positions |
| Shapes.VortexPoint | src/shapes.js:58-65 | with draws in [0, 1), a vortex point's z lies in [-25, 25) |
| Shapes.VortexPointOnCircle | src/shapes.js:59-63 | a vortex point lies on the circle of its drawn radius, and that radius is in [160, 260) |
| Shapes.CreateVortex | src/shapes.js:56-68 | PARTICLE_COUNT points; point i is the vortex point for angle (i / N) * 20 pi and draws 2i and 2i + 1 |
| Shapes.TreeLayout | src/shapes.js:80-120 | trunk indices [0, 500) have y in (-55, -40]; star indices [500, 800) have y = 48 exactly; cone indices have y in [-29, 45) |
| Shapes.CreateChristmasTree | src/shapes.js:74-123 | PARTICLE_COUNT points; trunk points below 500, star points in [500, 800), cone points from 800 on |
| Shapes.CreateCone | src/shapes.js:80-100 | the first loop produces cone point i for every index i, from draws 5i + 1 to 5i + 4 |
| Shapes.PlaceTrunk | src/shapes.js:103-109 | indices below 500 become trunk points; every other index keeps its cone point |
| Shapes.PlaceStar | src/shapes.js:112-120 | indices in [500, 800) become star points; every other index is unchanged |
| Shapes.FrameSide | src/shapes.js:140 | the edge floor(4t) mod 4 is always one of the four sides 0 to 3 |
| Shapes.EdgePoint | src/shapes.js:144-149 | each edge point lies on the boundary of the 80 x 80 square centred at the origin |
| Shapes.AsWrittenLeftEdgeUnused | src/shapes.js:135-148 | with t = i / N on the frame branch (i < 14000), the side is never 3 (left), and the bottom edge gets only its first 80% |
| Shapes.EveryEdgeUsed | src/shapes.js:138-148 | with t = i / 14000 each of the four sides receives a frame index |
| Shapes.HaloOutsideFrame | src/shapes.js:158-166 | a halo point (index at least 14000) lies on a circle of radius in [60, 100); that is beyond the corners of the undisturbed 80 x 80 square (radius 40 * sqrt 2 < 57), though a jittered frame point can reach radius 44 * sqrt 2 > 62 |
| Shapes.CreatePhotoFrameAsWritten | src/shapes.js:129-171 | the loop as written: PARTICLE_COUNT points; point i is the frame or halo point with edge parameter i / N |
| Shapes.CreatePhotoFrame | src/shapes.js:129-171 | the corrected loop: PARTICLE_COUNT points; point i is the frame or halo point with edge parameter i / 14000 |
| Shapes.CreateFingerShapes | src/shapes.js:186-192 | the keys are exactly finger_1 to finger_10, and finger_k is the cloud of message k |
| Shapes.CreateFixedShapes | src/shapes.js:178-184 | exactly the five fixed keys, each holding its shape as its builder defines it: the vortex, the tree, the photo frame as written (edge parameter i / N), and the two fixed texts |
| Shapes.GenerateShapes | src/shapes.js:177-195 | the key set is the five fixed keys plus finger_1 to finger_10; the fixed keys hold the shapes createVortex, createChristmasTree, createPhotoFrame (as written) and createTextPoints build, and finger_k holds the cloud of message k |
| Particles.CyclicIndex | src/particles.js:103 | the cyclic shape index i mod len lies in [0, len), and is i itself when i < len |
| Particles.IdleTarget | src/particles.js:102-120 | the idle target keeps the tree point's y exactly |
| Particles.IdleRotationKeepsRadius | src/particles.js:106-117 | apart from the twinkle on x, the idle rotation keeps the tree point's distance from the vertical axis |
| Particles.FistTarget | src/particles.js:125-132 | with offset z in [0, 1), the fist target's z lies in [-2.5, 2.5) |
| Particles.FistOrbit | src/particles.js:126-131 | with offsets in [0, 1), the fist radius is in [2, 5), the target lies on the circle of that radius, and its z is in [-2.5, 2.5) |
| Particles.PinchTarget | src/particles.js:143-148 | with sin and cos in [-1, 1], a pinch target stays within 1.5, 0.6 and 3 of its frame point on x, y and z |
| Particles.PinchPulseShared | src/particles.js:143-147 | every pinch particle's y moves by the same pulse |
| Particles.Progress | src/particles.js:159-161 | the reveal progress is at most 1, equals 1 exactly once 1.5 time units have passed, and is non-negative for non-negative elapsed time |
| Particles.FaceRevealTarget | src/particles.js:159-176 | once 1.5 time units have passed, z is the vortex point's own z; from the reveal start on, with sin in [-1, 1], z stays within 20 of it |
| Particles.RevealSettles | src/particles.js:159-176 | after 1.5 time units the radius is the shape point's own radius, the spin speed is 0.5, the sparkle is gone and z is the point's z |
| Particles.RevealStartsOnRing | src/particles.js:161-170 | at the moment of entry the radius is 20 and the spin speed is 2 |
| Particles.TextTarget | src/particles.js:185-198 | a text particle keeps its text point's z; an overflow particle gets z = -500 |
| Particles.TextTargetBounds | src/particles.js:187-197 | a text particle stays within 0.05 of text point i on x and y; an overflow particle lands in [-250, 250) on x and y at z = -500 |
| Particles.OverflowDrawsDistinct | src/particles.js:190-193 | distinct overflow particles consume distinct draws of the frame's stream |
| Particles.ThrowsWritesNothing | src/particles.js:94-228 | a mode that faults writes nothing; fist always writes; an unrecognised label neither writes nor faults |
| Particles.IdleFollowsTree | src/particles.js:103-118 | in idle mode particle i takes the y of tree point i mod len |
| Particles.TextModeLayout | src/particles.js:180-227 | in double_love and finger_k the first len particles keep their text points' z, and the rest sit at z = -500 |
| Particles.FillIdle | src/particles.js:96-122 | every particle's entry in the buffer is the idle target of tree point i mod len |
| Particles.FillFist | src/particles.js:124-133 | every particle's entry is the fist target of its own random offset |
| Particles.FillPinch | src/particles.js:135-150 | every particle's entry is the pinch target of frame point i mod len |
| Particles.FillFaceReveal | src/particles.js:152-178 | every particle's entry is the face_reveal target of vortex point i mod len |
| Particles.FillText | src/particles.js:184-200 | every particle's entry is its text target; the overflow particles consume two draws each, in index order |
| Particles.UpdateTargetPositions | src/particles.js:94-228 | a fault is reported exactly in the unguarded cases; a mode that writes sets every particle's entry to its mode target; otherwise the buffer is unchanged; only the target buffer is modified |
| Particles.Lerp | src/particles.js:237-238 | one step leaves 0.95 of the remaining distance to the target |
| Particles.LerpBetween | src/particles.js:237-238 | a step never overshoots: the new value lies between the old value and the target, and stays put only at the target |
| Particles.LerpStepsDistance | src/particles.js:235-240 | after n steps toward a fixed target the remaining distance is 0.95^n of the initial one |
| Particles.InterpolatePositions | src/particles.js:235-240 | every one of the 3N entries takes one smoothing step toward its target entry; the target buffer is not written |
| Particles.MixBetween | src/particles.js:55 | a colour mix with weight in [0, 1] lies between its two end values |
| Particles.BoostChannel | src/particles.js:56-58 | the boosted channel min(1, 1.5c) is at most 1, non-negative for non-negative c, and saturates at 1 once 1.5c reaches 1 |
| Particles.ParticleColor | src/particles.js:54-58 | every channel of a particle colour is at most 1 |
| Particles.ParticleColorIsUnit | src/particles.js:54-62 | colours mixed from two valid colours with a draw in [0, 1) are valid colours |
| Particles.CreateParticleSystem | src/particles.js:33-63 | four fresh, pairwise distinct buffers of length 3N; particle i's position, offset and colour come from draws 7i to 7i + 6; the targets are all zero |
| Particles.InitialOffsetsAreUnit | src/particles.js:49-51 | offsets taken from draws in [0, 1) meet the precondition of the fist orbit bounds |
| App.SumFingers | src/main.js:163-167 | the finger total of n hands is at most 5n, and 0 with no hands |
| App.CapFingers | src/main.js:170 | the capped total is at most 10, and equals the total when the total is at most 10 |
| App.CountGesture | src/main.js:172-182 | a total of 0 gives fist, a total in 1 to 10 gives finger_total, and only an out-of-range total gives idle |
| App.PoseGesture | src/main.js:134-144 | the gesture map knows exactly seven template names, and yields only finger_1 to finger_5, fist or pinch |
| App.FingerposeOverride | src/main.js:132-146 | the template answer is used exactly when there is one, its score is above 8 and its name is mapped |
| App.Classify | src/main.js:76-192 | every label is in the closed set, and the label is idle exactly when no hand is present |
| App.FaceRevealBeatsHeart | src/main.js:89-110 | two peace signs give face_reveal even when the hands also form a heart |
| App.DoubleLoveNeedsTwoHands | src/main.js:89-110 | double_love needs exactly two hands that form a heart and are not two peace signs |
| App.FaceRevealNeedsTwoPeaceSigns | src/main.js:89-102 | face_reveal needs exactly two hands, each counting two fingers |
| App.HeartGivesDoubleLove | src/main.js:89-110 | two hands that form a heart and are not two peace signs give double_love, whatever the template matcher says |
| App.PinchingHandGivesPinch | src/main.js:113-118 | one hand that passes the geometric pinch test gives pinch, before the template matcher is asked |
| App.PinchNeedsOneHand | src/main.js:114-146 | pinch comes only from a single hand, which either passes the geometric pinch test or gets pinch from a confident template answer |
| App.FallbackIsCount | src/main.js:163-182 | the fallback always gives fist or finger_1 to finger_10, so its idle branch is unreachable |
| App.EstimatorIgnoredUnlessOneHand | src/main.js:128-130 | unless exactly one hand is present, the template matcher's answer never affects the label |
| App.ConfidentEstimateOverrides | src/main.js:128-158 | with one hand that is not pinching, a confident mapped template answer is the label |
| App.TwoHandsNeverCapped | src/main.js:163-170 | with at most two hands the total never exceeds 10, so the cap never changes it |
| App.OneHandAtMostFive | src/main.js:114-182 | a single hand never yields more than finger_5 |
| App.HandFingerCounts | src/main.js:81-86 | the handData loop records countFingers of every hand, in order |
| App.RecognizeHands | src/main.js:81-182 | the early-return ladder for a non-empty hand list returns exactly the label Classify defines |
| App.FallbackGesture | src/main.js:162-182 | the accumulating loop, the cap and the labelling give the fallback label of the finger total, always fist or finger_1 to finger_10 |
| App.App.constructor | src/main.js:11-41 | start-up: gesture idle, no hand, clock and reveal start at 0; fresh buffers with particle i's position and random offset taken from its draws and every target 0; the shape table with exactly the five fixed keys plus finger_1 to finger_10, each holding the shape generateShapes builds; the state invariant holds |
| App.App.OnResults | src/main.js:71-193 | the new gesture is Classify of the frame; a hand is detected iff the list is non-empty; revealStartTime becomes the current time exactly when face_reveal is newly entered and is unchanged otherwise; the clock and the state invariant are kept |
| App.App.Animate | src/main.js:44-56 | the clock grows by exactly 0.01; the targets are the mode targets of the current gesture, when its mode writes; every position takes one smoothing step; the gesture and reveal start are unchanged |
| App.TimeAfter | src/main.js:45 | after n ticks (n calls of Animate, each adding 0.01) the clock has grown by exactly n * 0.01, so it strictly increases |

## Left out

- The Three.js scene, camera, renderer, sprite texture, material, camera sway and resize handling are rendering only.
- Every DOM update is UI only and is left out. This covers the status text and dot, the reveal container and the image error handler. It also covers the message labels, so `Messages.Message` has no label.
- MediaPipe start-up, CDN polling and the camera stream are asynchronous I/O. A frame's hands arrive as the argument of `OnResults`.
- The Fingerpose gesture descriptions and `GE.estimate`, with its 7.5 threshold, are a foreign library. They are the `Estimator` parameter. A missing `GE` global is not modelled.
- Canvas rasterisation is a foreign call and is the `Rasterizer` parameter. This covers `fillText`, the font, the upper-casing of the lines and `getImageData`.
- `sin`, `cos`, `atan2` and `hypot` are uninterpreted. Only `Pythagorean` and `Bounded` are assumed, where a lemma says so. `Math.pow(1 - p, 3)` is the exact cube, and the easing is checked at its two ends (`RevealStartsOnRing`, `RevealSettles`) only; values in between are not bounded.
- `hypot(dx, dy) < c` is modelled as `dx^2 + dy^2 < c^2`. The two are equivalent for c > 0.
- Float32 rounding of the buffers and IEEE double arithmetic are not modelled: coordinates are exact reals.
- `Math.random` calls are streams of draws passed in. The tree's first draw per point (`t`, never used by the source) takes draw 5i and affects nothing.
- The THREE colour-space conversion of COLOR_START and COLOR_END is not modelled. The end colours are parameters.
- `requestAnimationFrame` scheduling is left out. `Animate` is a single tick.
- The `finger_` branch of updateTargetPositions parses any label that starts with `finger_`. The model has the labels `Finger(k)` for integers k, and `Other(name)` for a label that no mode recognises: its type `OtherLabel` excludes the five mode names and every `finger_` label.
  - For `Other`, the model writes nothing, as no branch of the source matches.
  - Labels such as `finger_x`, whose suffix is not a number, are not representable.
  - Unusual labels such as `finger_07` are not modelled.
  - The classifier never produces either kind.
- The gesture map's inherited object keys (such as `toString`) are not modelled. `PoseGesture` knows exactly the seven literal names.
- Hands with fewer than 21 landmarks are not modelled. The classifier reads landmarks 0 to 20 unchecked.
- The colour buffer is not kept by `App`: main.js destructures the particle system without it (src/main.js:37), and only the renderer reads it.
- `Shapes.CreatePhotoFrame`, with `t = i / 14000`, is the corrected frame of the Findings row. The shape table and the App use the frame as written, `Shapes.CreatePhotoFrameAsWritten`.

## Findings

| source | as written | input that shows it | evidently intended | confidence | as-written member | corrected member |
|---|---|---|---|---|---|---|
| src/shapes.js:135-148 | the frame branch (i < 0.7N) picks its edge from t = i / N, so t < 0.7 and floor(4t) is at most 2 | any i in [0, 14000): the side is never 3, so the left edge gets no particles, and the bottom edge gets only 80% of its length | the 70% frame share is spread over all four edges of the square, i.e. t = i / (0.7N) | medium, not executed | Shapes.CreatePhotoFrameAsWritten, Shapes.AsWrittenLeftEdgeUnused | Shapes.CreatePhotoFrame, Shapes.EveryEdgeUsed |
