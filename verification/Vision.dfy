/** The image-processing policy shared by the live detector, the HTTP API and
    the `EmotionDetector` class: which face detector runs with which
    parameters, how a face region is cut out of a frame, how pixels become
    classifier input, and how the classifier's output becomes a label.

    OpenCV (`detectMultiScale`, `equalizeHist`, `resize`, `cvtColor`,
    `GaussianBlur`, `flip`) and the Keras network are opaque: they are
    function-valued parameters, and only the decisions around them are
    modelled. Probabilities and pixel scaling are exact reals. */
module Vision {
  import opened Common
  import opened Grids
  import opened Emotions

  /** A single-channel 8-bit image. */
  type Gray = Grid<Byte>

  /** A multi-channel 8-bit image: each element holds the channel values. */
  type Color = Grid<seq<Byte>>

  /** Side of the square the network takes as input. */
  const Side: nat := 48

  /** A `Side`-by-`Side` gray image, as `cv2.resize(_, (48, 48))` returns. */
  type Face48 = g: Gray | HasShape(g, Side, Side) witness seq(48, _ => seq(48, _ => 0))

  /** The network input: one channel of `Side`-by-`Side` reals (the
      `1 x 48 x 48 x 1` array with its unit axes dropped). */
  type Features = f: seq<seq<real>> | HasShape(f, Side, Side) witness seq(48, _ => seq(48, _ => 0.0))

  /** One probability per label, in `Labels` order (`prediction[0]`). */
  type Probs = p: seq<real> | |p| == |Labels| witness [0.0, 0.0, 0.0, 0.0, 0.0, 0.0, 0.0]

  /** The loaded Keras model's `predict`. */
  type Net = Features -> Probs

  /** A detection `(x, y, w, h)`: column, row, width and height. */
  datatype Box = Box(x: nat, y: nat, w: nat, h: nat)

  /** The two Haar cascades the program loads. */
  datatype Cascade = Frontal | Profile

  /** The keyword arguments of a `detectMultiScale` call; `maxSize` is absent
      when not passed and `scaleImage` says whether `CASCADE_SCALE_IMAGE` is. */
  datatype DetectParams = DetectParams(
    scaleFactor: real, minNeighbors: nat, minSize: nat, maxSize: Option<nat>, scaleImage: bool)

  /** `cascade.detectMultiScale(gray, **params)`. */
  type Detector = (Cascade, DetectParams, Gray) -> seq<Box>

  /** One attempt of the live detector's fallback chain. */
  datatype Tier = Tier(cascade: Cascade, params: DetectParams)

  /** The live detector's attempts in order: the strict frontal pass, a
      looser frontal pass, then the profile cascade. */
  const Tiers: seq<Tier> := [
    Tier(Frontal, DetectParams(1.1, 5, 30, Some(300), true)),
    Tier(Frontal, DetectParams(1.05, 3, 20, Some(400), false)),
    Tier(Profile, DetectParams(1.1, 5, 30, None, false))
  ]

  function Attempt(detect: Detector, t: Tier, g: Gray): seq<Box> {
    detect(t.cascade, t.params, g)
  }

  /** The first non-empty result among `Tiers[i..]`, or the last tier's
      result; with the number of tiers consulted in total. */
  function FirstNonEmpty(detect: Detector, g: Gray, i: nat): (r: (seq<Box>, nat))
    requires i < |Tiers|
    ensures i < r.1 <= |Tiers|
    ensures forall k :: i <= k < r.1 - 1 ==> Attempt(detect, Tiers[k], g) == []
    ensures r.0 == Attempt(detect, Tiers[r.1 - 1], g)
    ensures r.1 < |Tiers| ==> r.0 != []
    decreases |Tiers| - i
  {
    var faces := Attempt(detect, Tiers[i], g);
    if faces != [] || i == |Tiers| - 1 then (faces, i + 1)
    else FirstNonEmpty(detect, g, i + 1)
  }

  /** `detect_faces_improved(gray)`: the faces found and how many tiers ran.
      The tiers that ran are a prefix of `Tiers`; every one but the last
      found nothing; the result is the last one's; and a tier is skipped
      only when an earlier one found something. */
  function DetectFacesImproved(detect: Detector, g: Gray): (r: (seq<Box>, nat))
    ensures 1 <= r.1 <= |Tiers|
    ensures forall k :: 0 <= k < r.1 - 1 ==> Attempt(detect, Tiers[k], g) == []
    ensures r.0 == Attempt(detect, Tiers[r.1 - 1], g)
    ensures r.1 < |Tiers| ==> r.0 != []
  {
    FirstNonEmpty(detect, g, 0)
  }

  /** No face is reported exactly when all three tiers find none. */
  lemma NoFacesIffAllTiersEmpty(detect: Detector, g: Gray)
    ensures DetectFacesImproved(detect, g).0 == []
        <==> forall k :: 0 <= k < |Tiers| ==> Attempt(detect, Tiers[k], g) == []
  {
    var r := DetectFacesImproved(detect, g);
    if r.0 == [] {
      assert r.1 == |Tiers|;
    }
  }

  /** Pixels added on each side of a detection before cropping. */
  const Padding: nat := 10

  /** The indices of an axis of length `n` that lie within `Padding` of the
      detection's extent `[start, start + extent)`:
      `[max(0, start - 10) : min(n, start + extent + 10)]`. */
  function PaddedSpan(n: nat, start: nat, extent: nat): (r: Span)
    ensures r.lo <= r.hi <= n
    ensures forall i :: r.Contains(i) <==> 0 <= i < n && start - Padding <= i < start + extent + Padding
  {
    var lo := if start < Padding then 0 else start - Padding;
    SliceSpan(n, lo, start + extent + Padding)
  }

  /** The grown detection misses the frame: no row or no column of it lies
      inside. */
  predicate RegionEmpty(g: Gray, b: Box) {
    PaddedSpan(|g|, b.y, b.h).Length() == 0 || PaddedSpan(Width(g), b.x, b.w).Length() == 0
  }

  /** The face region both the live loop and the API cut out: the detection
      grown by `Padding` on every side and clamped to the frame. */
  function PaddedCrop(g: Gray, b: Box): (r: Gray)
    ensures var rows := PaddedSpan(|g|, b.y, b.h);
            var cols := PaddedSpan(Width(g), b.x, b.w);
            && |r| == rows.Length()
            && (|r| > 0 ==> Width(r) == cols.Length())
            && (Size(r) == 0 <==> RegionEmpty(g, b))
            && forall i, j :: 0 <= i < |r| && 0 <= j < |r[i]| ==> r[i][j] == g[rows.lo + i][cols.lo + j]
  {
    var rows := PaddedSpan(|g|, b.y, b.h);
    var cols := PaddedSpan(Width(g), b.x, b.w);
    Crop(g, rows, cols)
  }

  /** Division of every pixel by 255: the network input of a `Side`-square
      face, each value in [0, 1]. */
  function Normalise(face: Face48): (f: Features)
    ensures forall i, j :: 0 <= i < Side && 0 <= j < Side ==>
              f[i][j] * 255.0 == face[i][j] as real && 0.0 <= f[i][j] <= 1.0
  {
    seq(Side, i requires 0 <= i < Side => seq(Side, j requires 0 <= j < Side => face[i][j] as real / 255.0))
  }

  /** `extract_features(image)`: nothing for a missing or empty image;
      otherwise the equalised image resized to `Side` squared, scaled to [0, 1]. */
  function ExtractFeatures(equalize: Gray -> Gray, resize: Gray -> Face48, image: Option<Gray>): (r: Option<Features>)
    ensures r.None? <==> image.None? || Size(image.value) == 0
    ensures r.Some? ==> r.value == Normalise(resize(equalize(image.value)))
  {
    if image.None? || Size(image.value) == 0 then None
    else Some(Normalise(resize(equalize(image.value))))
  }

  /** `np.argmax`: the first position of a largest value. */
  function ArgMax(p: seq<real>): (r: nat)
    requires |p| > 0
    ensures r < |p|
    ensures forall j :: 0 <= j < |p| ==> p[j] <= p[r]
    ensures forall j :: 0 <= j < r ==> p[j] < p[r]
  {
    if |p| == 1 then 0
    else
      var k := ArgMax(p[..|p| - 1]);
      if p[|p| - 1] > p[k] then |p| - 1 else k
  }

  /** A label with the probability the network gave it. */
  datatype Prediction = Prediction(emotion: Emotion, confidence: real)

  /** `labels[np.argmax(p)]` with `np.max(p)`: the label whose probability
      is largest (the earliest such label on a tie), and that probability. */
  function Classify(p: Probs): (r: Prediction)
    ensures r.confidence == p[Index(r.emotion)]
    ensures forall j :: 0 <= j < |p| ==> p[j] <= r.confidence
    ensures forall j :: 0 <= j < Index(r.emotion) ==> p[j] < r.confidence
  {
    var k := ArgMax(p);
    Prediction(Labels[k], p[k])
  }

  /** The live view shows a prediction only when its confidence is strictly
      above this. */
  const LiveThreshold: real := 0.4

  /** The API rejects a prediction whose confidence is strictly below this. */
  const ApiThreshold: real := 0.3

  /** The live view's decision: the prediction when some probability is
      strictly above `LiveThreshold`, nothing otherwise. */
  function LiveVerdict(p: Probs): (r: Option<Prediction>)
    ensures r.Some? <==> exists j :: 0 <= j < |p| && p[j] > LiveThreshold
    ensures r.Some? ==> r.value == Classify(p)
  {
    var c := Classify(p);
    if c.confidence > LiveThreshold then Some(c) else None
  }

  /** The API's decision: the prediction is kept when some probability
      reaches `ApiThreshold`. */
  lemma ApiAcceptsIffSomeReaches(p: Probs)
    ensures !(Classify(p).confidence < ApiThreshold) <==> exists j :: 0 <= j < |p| && p[j] >= ApiThreshold
  {
    var c := Classify(p);
    if !(c.confidence < ApiThreshold) {
      assert p[Index(c.emotion)] >= ApiThreshold;
    }
  }
}
