/** The standalone HTTP API (moodsync/emotion_api.py): `detect_faces_and_emotions`,
    which turns a decoded image into a labelled detection or a failure, and
    the checks `/api/detect-emotion` makes before calling it. */
module EmotionApi {
  import opened Common
  import opened Grids
  import opened Emotions
  import opened Vision
  import opened DataUrl
  import opened Json
  import opened PyInt

  /** `np.array(image)`: two-dimensional for a gray image, otherwise an array
      of pixels with `depth` channels each (`shape[2]`). */
  datatype ImageArray = Plane(gray: Gray) | Stack(pixels: Color, depth: nat)

  /** The two colour conversions the API asks `cv2.cvtColor` for. */
  datatype Conversion = RgbaToGray | RgbToGray

  /** The OpenCV calls the API makes. */
  datatype Library = Library(
    convert: (Conversion, Color) -> Gray,
    blur: Gray -> Gray,
    detect: Detector,
    equalize: Gray -> Gray,
    resize: Gray -> Face48)

  /** The API's single detector call: the strict frontal pass, without the
      scale-image flag and without the live view's fallbacks. */
  const ApiParams: DetectParams := DetectParams(1.1, 5, 30, Some(300), false)

  /** The failures `detect_faces_and_emotions` reports, in the order it
      checks for them. */
  datatype Failure =
    | UnsupportedChannels(channels: nat)
    | NoFaces
    | InvalidRegion
    | NoFeaturesOrModel
    | LowConfidence(confidence: real)

  /** The `error` text of each failure. */
  function Message(f: Failure): string {
    match f
    case UnsupportedChannels(n) => "Unsupported image format with " + Render(n) + " channels"
    case NoFaces => "No faces detected in the image"
    case InvalidRegion => "Invalid face region extracted"
    case NoFeaturesOrModel => "Feature extraction failed or model not available"
    case LowConfidence(_) => "Low confidence prediction"
  }

  /** The channel dispatch: a 2-D array is already gray, four channels are
      read as RGBA and three as RGB; any other count is refused, naming it. */
  function ToGray(lib: Library, image: ImageArray): (r: Result<Gray, Failure>)
    ensures r.Err? <==> image.Stack? && image.depth != 3 && image.depth != 4
    ensures r.Err? ==> r.error == UnsupportedChannels(image.depth)
    ensures image.Plane? ==> r == Ok(image.gray)
    ensures image.Stack? && image.depth == 4 ==> r == Ok(lib.convert(RgbaToGray, image.pixels))
    ensures image.Stack? && image.depth == 3 ==> r == Ok(lib.convert(RgbToGray, image.pixels))
  {
    match image
    case Plane(g) => Ok(g)
    case Stack(pixels, depth) =>
      if depth == 4 then Ok(lib.convert(RgbaToGray, pixels))
      else if depth == 3 then Ok(lib.convert(RgbToGray, pixels))
      else Err(UnsupportedChannels(depth))
  }

  /** The faces found in the blurred gray image. */
  function Faces(lib: Library, gray: Gray): seq<Box> {
    lib.detect(Frontal, ApiParams, lib.blur(gray))
  }

  /** The network's output for the first face's padded region. */
  function Probabilities(lib: Library, net: Net, gray: Gray): (p: Probs)
    requires Faces(lib, gray) != [] && !RegionEmpty(lib.blur(gray), Faces(lib, gray)[0])
  {
    var region := PaddedCrop(lib.blur(gray), Faces(lib, gray)[0]);
    net(ExtractFeatures(lib.equalize, lib.resize, Some(region)).value)
  }

  /** `{labels[i]: prediction[0][i] for i in range(len(labels))}`. */
  function AllPredictions(p: Probs): (m: map<string, real>)
    ensures forall e: Emotion :: Name(e) in m && m[Name(e)] == p[Index(e)]
    ensures forall k :: k in m ==> Parse(k).Some?
  {
    map[Name(Angry) := p[0], Name(Disgust) := p[1], Name(Fear) := p[2], Name(Happy) := p[3],
        Name(Neutral) := p[4], Name(Sad) := p[5], Name(Surprise) := p[6]]
  }

  /** A successful detection. */
  datatype Detection = Detection(emotion: Emotion, confidence: real, allPredictions: map<string, real>, face: Box)

  /** `detect_faces_and_emotions(image_array)`. */
  function DetectFacesAndEmotions(lib: Library, net: Option<Net>, image: ImageArray): (r: Result<Detection, Failure>)
    ensures (r.Err? && r.error.UnsupportedChannels?) <==> ToGray(lib, image).Err?
    ensures ToGray(lib, image).Ok? ==>
              var gray := ToGray(lib, image).value;
              && (r == Err(NoFaces) <==> Faces(lib, gray) == [])
              && (r == Err(InvalidRegion) <==> Faces(lib, gray) != [] && RegionEmpty(lib.blur(gray), Faces(lib, gray)[0]))
              && (r == Err(NoFeaturesOrModel) <==>
                    Faces(lib, gray) != [] && !RegionEmpty(lib.blur(gray), Faces(lib, gray)[0]) && net.None?)
    ensures r.Err? && r.error.LowConfidence? ==>
              var gray := ToGray(lib, image).value;
              && net.Some? && Faces(lib, gray) != [] && !RegionEmpty(lib.blur(gray), Faces(lib, gray)[0])
              && var p := Probabilities(lib, net.value, gray);
                 && r.error.confidence == Classify(p).confidence
                 && r.error.confidence < ApiThreshold && forall j :: 0 <= j < |p| ==> p[j] < ApiThreshold
    ensures r.Ok? ==>
              var gray := ToGray(lib, image).value;
              && net.Some? && Faces(lib, gray) != [] && !RegionEmpty(lib.blur(gray), Faces(lib, gray)[0])
              && var p := Probabilities(lib, net.value, gray);
                 && r.value.face == Faces(lib, gray)[0]
                 && r.value.confidence >= ApiThreshold
                 && r.value.allPredictions == AllPredictions(p)
                 && r.value.confidence == p[Index(r.value.emotion)]
                 && (forall j :: 0 <= j < |p| ==> p[j] <= r.value.confidence)
                 && (forall j :: 0 <= j < Index(r.value.emotion) ==> p[j] < r.value.confidence)
                 && Prediction(r.value.emotion, r.value.confidence) == Classify(p)
  {
    match ToGray(lib, image)
    case Err(f) => Err(f)
    case Ok(gray) =>
      var faces := Faces(lib, gray);
      if faces == [] then Err(NoFaces)
      else if RegionEmpty(lib.blur(gray), faces[0]) then Err(InvalidRegion)
      else if net.None? then Err(NoFeaturesOrModel)
      else
        var p := Probabilities(lib, net.value, gray);
        var c := Classify(p);
        if c.confidence < ApiThreshold then
          ApiAcceptsIffSomeReaches(p);
          Err(LowConfidence(c.confidence))
        else Ok(Detection(c.emotion, c.confidence, AllPredictions(p), faces[0]))
  }

  /** A sound image whose first face is cut out, read by a loaded network and
      given some probability of at least 0.3 is always labelled. */
  lemma ConfidentImagesSucceed(lib: Library, net: Net, image: ImageArray)
    requires ToGray(lib, image).Ok?
    requires var gray := ToGray(lib, image).value;
             Faces(lib, gray) != [] && !RegionEmpty(lib.blur(gray), Faces(lib, gray)[0])
    requires exists j :: 0 <= j < |Labels| && Probabilities(lib, net, ToGray(lib, image).value)[j] >= ApiThreshold
    ensures DetectFacesAndEmotions(lib, Some(net), image).Ok?
  {
  }

  /** Why `/api/detect-emotion` did not produce a detection. */
  datatype EndpointError =
    | ModelMissing          // 500: the network did not load
    | DetectorMissing       // 500: the cascade is missing or empty
    | NoImage               // 400: no body, or no `image` in it
    | ServerError           // 500: an exception escaped (malformed body or image)
    | Rejected(f: Failure)  // 200: `detect_faces_and_emotions` refused

  /** The HTTP status and what the JSON answer carries. */
  datatype Reply = Reply(status: nat, outcome: Result<Detection, EndpointError>)

  /** `needle` occurs in `s` as a contiguous run. */
  predicate Infix(needle: string, s: string) {
    exists i :: 0 <= i <= |s| && StartsWith(s[i..], needle)
  }

  /** `'image' in data` on a truthy decoded body: key membership for an
      object, element membership for a list, substring search for a string;
      nothing where Python raises `TypeError`. */
  function MentionsImage(data: Json): (r: Option<bool>)
    ensures data.JObject? ==> r == Some("image" in data.fields)
    ensures r.None? <==> data.JNull? || data.JBool? || data.JNum?
  {
    match data
    case JObject(fields) => Some("image" in fields)
    case JArray(items) => Some(JStr("image") in items)
    case JStr(text) => Some(Infix("image", text))
    case _ => None
  }

  /** The payload `/api/detect-emotion` decodes, taken from the request body.
      It succeeds exactly when the body is an object whose `image` is a
      string that the data-URL guard accepts. */
  function ImagePayload(body: Option<Json>): (r: Result<string, EndpointError>)
    ensures r.Ok? <==>
              && body.Some? && body.value.JObject? && "image" in body.value.fields
              && body.value.fields["image"].JStr?
              && StripIfDataUrl(body.value.fields["image"].s).Some?
    ensures r.Ok? ==> Some(r.value) == StripIfDataUrl(body.value.fields["image"].s)
    ensures r.Err? ==> r.error == NoImage || r.error == ServerError
    ensures r == Err(NoImage) <==> body.None? || !Truthy(body.value) || MentionsImage(body.value) == Some(false)
  {
    if body.None? || !Truthy(body.value) then Err(NoImage)
    else
      match MentionsImage(body.value)
      case None => Err(ServerError)
      case Some(false) => Err(NoImage)
      case Some(true) =>
        if !body.value.JObject? || !body.value.fields["image"].JStr? then Err(ServerError)
        else
          match StripIfDataUrl(body.value.fields["image"].s)
          case None => Err(ServerError)
          case Some(payload) => Ok(payload)
  }

  /** `/api/detect-emotion`. `decode` is base64 decoding followed by PIL and
      `np.array`, nothing when either fails. The model is checked first,
      then the cascade, then the body; every failure of the detection itself
      is still answered with status 200. */
  function DetectEmotionEndpoint(lib: Library, net: Option<Net>, detectorReady: bool, body: Option<Json>,
                                 decode: string -> Option<ImageArray>): (r: Reply)
    ensures net.None? ==> r == Reply(500, Err(ModelMissing))
    ensures net.Some? && !detectorReady ==> r == Reply(500, Err(DetectorMissing))
    ensures r.status == 200 <==>
              net.Some? && detectorReady && ImagePayload(body).Ok? && decode(ImagePayload(body).value).Some?
    ensures r.status == 200 ==>
              match DetectFacesAndEmotions(lib, net, decode(ImagePayload(body).value).value)
              case Ok(d) => r.outcome == Ok(d)
              case Err(f) => r.outcome == Err(Rejected(f))
    ensures r.status == 400 <==> net.Some? && detectorReady && ImagePayload(body) == Err(NoImage)
    ensures r.status in {200, 400, 500}
  {
    if net.None? then Reply(500, Err(ModelMissing))
    else if !detectorReady then Reply(500, Err(DetectorMissing))
    else
      match ImagePayload(body)
      case Err(e) => Reply(if e == NoImage then 400 else 500, Err(e))
      case Ok(payload) =>
        match decode(payload)
        case None => Reply(500, Err(ServerError))
        case Some(image) =>
          match DetectFacesAndEmotions(lib, net, image)
          case Ok(d) => Reply(200, Ok(d))
          case Err(f) => Reply(200, Err(Rejected(f)))
  }

  /** A body holding a data URL reaches the decoder with exactly the payload
      after the header. */
  lemma DataUrlBodyDecodesPayload(mime: string, payload: string)
    requires ',' !in mime && ',' !in payload
    ensures ImagePayload(Some(JObject(map["image" := JStr(DataImage + mime + [','] + payload)]))) == Ok(payload)
  {
    DataUrlRoundTrip(mime, payload);
  }
}
