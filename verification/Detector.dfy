/** The `EmotionDetector` class the web application uses
    (moodsync/models/emotion_detector.py). It is a simpler pipeline than the
    live view's and the API's: one detector pass, an unpadded crop, and the
    arg-max label with no confidence threshold. */
module Detector {
  import opened Common
  import opened Grids
  import opened Emotions
  import opened Vision
  import opened DataUrl

  /** The image calls the class makes. */
  datatype Library = Library(
    decode: string -> Option<Color>,  // base64 decode, PIL open, RGB to BGR; nothing when any step raises
    flip: Color -> Color,             // cv2.flip(_, 1)
    toGray: Color -> Gray,            // BGR to gray
    detect: Detector,
    resizeGray: Color -> Face48)      // cv2.resize to 48 x 48, then BGR to gray

  /** The class's single detector call: no maximum size. */
  const DetectorParams: DetectParams := DetectParams(1.1, 5, 30, None, true)

  /** After `__init__`: ready with a network, or broken, when loading the
      model raised and the cascade was never set. */
  datatype State = Ready(net: Net) | Broken

  /** Why a call raised. */
  datatype Error =
    | DecodeFailed     // the base64 text or the image inside it is unreadable
    | NotInitialised   // the detector was used after `__init__` failed
    | EmptyFace        // the face region has no pixels, which `cv2.resize` refuses

  /** `image[y:y+h, x:x+w]`: exactly the detection, clamped only by
      Python's slicing. */
  function BoxCrop<T>(image: Grid<T>, b: Box): (r: Grid<T>)
    ensures var rows := SliceSpan(|image|, b.y, b.y + b.h);
            var cols := SliceSpan(Width(image), b.x, b.x + b.w);
            && |r| == rows.Length()
            && (|r| > 0 ==> Width(r) == cols.Length())
            && forall i, j :: 0 <= i < |r| && 0 <= j < |r[i]| ==> r[i][j] == image[rows.lo + i][cols.lo + j]
  {
    Crop(image, SliceSpan(|image|, b.y, b.y + b.h), SliceSpan(Width(image), b.x, b.x + b.w))
  }

  /** Every pixel of the unpadded crop lies inside the live view's and the
      API's padded crop. */
  lemma BoxCropWithinPadded(n: nat, start: nat, extent: nat, i: int)
    requires SliceSpan(n, start, start + extent).Contains(i)
    ensures PaddedSpan(n, start, extent).Contains(i)
  {
  }

  /** `extract_face(image, box)`: the crop resized, turned gray and scaled to
      [0, 1]; raises for an empty crop. */
  function ExtractFace(lib: Library, image: Color, b: Box): (r: Result<Features, Error>)
    ensures r.Err? <==> Size(BoxCrop(image, b)) == 0
    ensures r.Err? ==> r.error == EmptyFace
    ensures r.Ok? ==> r.value == Normalise(lib.resizeGray(BoxCrop(image, b)))
  {
    var face := BoxCrop(image, b);
    if Size(face) == 0 then Err(EmptyFace) else Ok(Normalise(lib.resizeGray(face)))
  }

  /** `detect_faces(image)`: one pass over the gray image, made as the live
      view's first attempt but with no maximum face size. */
  function DetectFaces(lib: Library, image: Color): (r: seq<Box>)
    ensures r == lib.detect(Tiers[0].cascade, Tiers[0].params.(maxSize := None), lib.toGray(image))
  {
    lib.detect(Frontal, DetectorParams, lib.toGray(image))
  }

  /** The class's detector call is the live view's first tier without its
      maximum size. */
  lemma DetectorIsFirstTierUnbounded()
    ensures Tiers[0].cascade == Frontal
    ensures DetectorParams == Tiers[0].params.(maxSize := None)
  {
  }

  /** `detect_emotion_from_image(image_data)`: the prediction for the first
      face of the mirrored image, or nothing when it has no face (the
      source's `(None, 0.0)`). */
  function DetectEmotionFromImage(lib: Library, st: State, imageData: string): (r: Result<Option<Prediction>, Error>)
    ensures r == Err(DecodeFailed) <==> lib.decode(StripIfComma(imageData)).None?
    ensures r == Err(NotInitialised) <==> lib.decode(StripIfComma(imageData)).Some? && st.Broken?
    ensures r == Ok(None) <==>
              lib.decode(StripIfComma(imageData)).Some? && st.Ready?
              && DetectFaces(lib, lib.flip(lib.decode(StripIfComma(imageData)).value)) == []
    ensures r == Err(EmptyFace) <==>
              lib.decode(StripIfComma(imageData)).Some? && st.Ready? &&
              var image := lib.flip(lib.decode(StripIfComma(imageData)).value);
              var faces := DetectFaces(lib, image);
              faces != [] && Size(BoxCrop(image, faces[0])) == 0
    ensures r.Ok? && r.value.Some? <==>
              lib.decode(StripIfComma(imageData)).Some? && st.Ready? &&
              var image := lib.flip(lib.decode(StripIfComma(imageData)).value);
              var faces := DetectFaces(lib, image);
              faces != [] && Size(BoxCrop(image, faces[0])) != 0
    ensures r.Ok? && r.value.Some? ==>
              var image := lib.flip(lib.decode(StripIfComma(imageData)).value);
              var faces := DetectFaces(lib, image);
              r.value.value == Classify(st.net(Normalise(lib.resizeGray(BoxCrop(image, faces[0])))))
  {
    match lib.decode(StripIfComma(imageData))
    case None => Err(DecodeFailed)
    case Some(decoded) =>
      var image := lib.flip(decoded);
      if st.Broken? then Err(NotInitialised)
      else
        var faces := DetectFaces(lib, image);
        if faces == [] then Ok(None)
        else
          match ExtractFace(lib, image, faces[0])
          case Err(e) => Err(e)
          case Ok(features) => Ok(Some(Classify(st.net(features))))
  }

  /** The pair the method returns: the label text and its probability, or
      `(None, 0.0)`. */
  function AsPair(o: Option<Prediction>): (r: (Option<string>, real))
    ensures r.0.None? <==> o.None?
    ensures o.None? ==> r.1 == 0.0
    ensures o.Some? ==> Parse(r.0.value) == Some(o.value.emotion) && r.1 == o.value.confidence
  {
    match o
    case None => (None, 0.0)
    case Some(p) =>
      ParseName(p.emotion);
      (Some(Name(p.emotion)), p.confidence)
  }

  /** No threshold on this path: a decoded image whose first face has
      pixels is always labelled with the arg-max of the network's output,
      however low its probability. */
  lemma NoThreshold(lib: Library, st: State, imageData: string)
    requires lib.decode(StripIfComma(imageData)).Some? && st.Ready?
    requires var image := lib.flip(lib.decode(StripIfComma(imageData)).value);
             var faces := DetectFaces(lib, image);
             faces != [] && Size(BoxCrop(image, faces[0])) != 0
    ensures var image := lib.flip(lib.decode(StripIfComma(imageData)).value);
            var faces := DetectFaces(lib, image);
            DetectEmotionFromImage(lib, st, imageData) ==
              Ok(Some(Classify(st.net(Normalise(lib.resizeGray(BoxCrop(image, faces[0])))))))
  {
  }

  /** One entry of `detect_emotion_from_frame`'s list. */
  datatype FaceResult = FaceResult(coords: Box, emotion: Emotion, confidence: real)

  /** The entry for one face of a frame. */
  function ClassifyFace(lib: Library, net: Net, frame: Color, b: Box): (r: Result<FaceResult, Error>)
    ensures r.Err? <==> Size(BoxCrop(frame, b)) == 0
    ensures r.Err? ==> r.error == EmptyFace
    ensures r.Ok? ==>
              var p := Classify(net(Normalise(lib.resizeGray(BoxCrop(frame, b)))));
              r.value == FaceResult(b, p.emotion, p.confidence)
  {
    match ExtractFace(lib, frame, b)
    case Err(e) => Err(e)
    case Ok(features) =>
      var p := Classify(net(features));
      Ok(FaceResult(b, p.emotion, p.confidence))
  }

  /** `detect_emotion_from_frame(frame)`: one entry per detected face, in
      detection order, echoing its box; the call raises if any face region
      is empty. */
  method DetectEmotionFromFrame(lib: Library, st: State, frame: Color) returns (r: Result<seq<FaceResult>, Error>)
    ensures st.Broken? ==> r == Err(NotInitialised)
    ensures r.Ok? ==>
              && st.Ready?
              && |r.value| == |DetectFaces(lib, frame)|
              && forall i :: 0 <= i < |r.value| ==>
                   Ok(r.value[i]) == ClassifyFace(lib, st.net, frame, DetectFaces(lib, frame)[i])
    ensures st.Ready? && r.Err? ==> r.error == EmptyFace
    ensures st.Ready? ==>
              (r.Err? <==> exists i :: 0 <= i < |DetectFaces(lib, frame)| && Size(BoxCrop(frame, DetectFaces(lib, frame)[i])) == 0)
  {
    if st.Broken? {
      return Err(NotInitialised);
    }
    var faces := DetectFaces(lib, frame);
    var results: seq<FaceResult> := [];
    for k := 0 to |faces|
      invariant |results| == k
      invariant forall i :: 0 <= i < k ==> Ok(results[i]) == ClassifyFace(lib, st.net, frame, faces[i])
    {
      var entry := ClassifyFace(lib, st.net, frame, faces[k]);
      if entry.Err? {
        return Err(entry.error);
      }
      results := results + [entry.value];
    }
    return Ok(results);
  }
}
