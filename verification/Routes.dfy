/** The two JSON routes of the web application that turn a request body
    into a mood entry (moodsync/app.py): `detect_emotion`, which runs the
    `EmotionDetector` on a camera snapshot, and `save_mood`, which stores a
    manually chosen mood. Writing files and rows, the uuid and the clock
    are outside the model: the uuid's hex text is a parameter, and the
    result is what would be written. */
module Routes {
  import opened Common
  import opened Emotions
  import opened Vision
  import opened DataUrl
  import opened Json
  import opened Forms
  import D = Detector

  // ----- detect_emotion -----

  /** The name a saved snapshot gets: the lower-case label, `_`, the uuid's
      hex digits and `.jpg`. */
  function SavedFileName(emotion: Emotion, hex: string): (r: string)
    ensures |r| == |Name(emotion)| + 1 + |hex| + 4
    ensures r[..|Name(emotion)|] == Lower(Name(emotion))
    ensures r[|Name(emotion)|] == '_'
    ensures r[|Name(emotion)| + 1..|r| - 4] == hex
    ensures r[|r| - 4..] == ".jpg"
  {
    var n := |Name(emotion)|;
    var r := Lower(Name(emotion)) + "_" + hex + ".jpg";
    assert r[..n] == Lower(Name(emotion));
    assert r[n + 1..|r| - 4] == hex;
    r
  }

  /** A snapshot's file name passes the upload filter whenever the hex text
      has no dot (a uuid's hex never has one). */
  lemma SavedFileNameAllowed(emotion: Emotion, hex: string)
    requires '.' !in hex
    ensures AllowedFile(SavedFileName(emotion, hex))
  {
    var stem := Lower(Name(emotion)) + "_" + hex;
    assert SavedFileName(emotion, hex) == stem + "." + "jpg";
    assert Lower("jpg") == "jpg";
    AllowedFileByExtension(stem, "jpg");
  }

  /** A snapshot written to the upload folder: its file name and the base64
      text decoded into it. */
  datatype SavedImage = SavedImage(fileName: string, payload: string)

  datatype DetectReply =
    | NoImageData                 // 400 'No image data provided'
    | NoFaceDetected              // 400 'No face detected'
    | DetectFailed                // the detector raised: 500
    | Detected(emotion: string, confidence: real, saved: Option<SavedImage>)

  /** `detect_emotion()` up to the database write: the body must carry
      `image_data`; the detector's `(None, 0.0)` becomes a 400; otherwise the
      label and confidence are logged, and when `save_image` is truthy the
      text after the data-URL header is saved under a new file name. */
  function DetectEmotionRoute(lib: D.Library, st: D.State, body: map<string, Json>, hex: string): (r: DetectReply)
    ensures r == NoImageData <==> "image_data" !in body
    ensures r == NoFaceDetected <==>
              "image_data" in body && body["image_data"].JStr?
              && D.DetectEmotionFromImage(lib, st, body["image_data"].s) == Ok(None)
    ensures r == DetectFailed <==>
              "image_data" in body &&
              (!body["image_data"].JStr? || D.DetectEmotionFromImage(lib, st, body["image_data"].s).Err?)
    ensures r.Detected? <==>
              "image_data" in body && body["image_data"].JStr?
              && D.DetectEmotionFromImage(lib, st, body["image_data"].s).Ok?
              && D.DetectEmotionFromImage(lib, st, body["image_data"].s).value.Some?
    ensures r.Detected? ==>
              "image_data" in body && body["image_data"].JStr? &&
              var image := body["image_data"].s;
              var detection := D.DetectEmotionFromImage(lib, st, image);
              && detection.Ok? && detection.value.Some?
              && Parse(r.emotion) == Some(detection.value.value.emotion)
              && r.confidence == detection.value.value.confidence
              && (r.saved.Some? <==> "save_image" in body && Truthy(body["save_image"]))
              && (r.saved.Some? ==>
                    r.saved.value == SavedImage(SavedFileName(detection.value.value.emotion, hex), StripIfComma(image)))
  {
    if "image_data" !in body then NoImageData
    else if !body["image_data"].JStr? then DetectFailed
    else
      var image := body["image_data"].s;
      match D.DetectEmotionFromImage(lib, st, image)
      case Err(_) => DetectFailed
      case Ok(None) => NoFaceDetected
      case Ok(Some(p)) =>
        var pair := D.AsPair(Some(p));
        var save := Get(JObject(body), "save_image", JBool(false)).value;
        Detected(pair.0.value, pair.1,
                 if Truthy(save) then Some(SavedImage(SavedFileName(p.emotion, hex), StripIfComma(image))) else None)
  }

  /** A snapshot sent as a data URL is saved as exactly its payload. */
  lemma SnapshotPayload(lib: D.Library, st: D.State, body: map<string, Json>, hex: string, mime: string, payload: string)
    requires ',' !in mime && ',' !in payload
    requires "image_data" in body && body["image_data"] == JStr(DataImage + mime + [','] + payload)
    ensures var r := DetectEmotionRoute(lib, st, body, hex);
            r.Detected? && r.saved.Some? ==> r.saved.value.payload == payload
  {
    DataUrlRoundTrip(mime, payload);
  }

  // ----- save_mood -----

  /** The values `save_mood` inserts as a mood row (with the user id and the
      time, which are not modelled). */
  datatype MoodEntry = MoodEntry(
    emotion: Json,
    confidence: Json,
    intensity: Json,
    notes: Json,
    context: Json,
    imagePayload: Option<string>)

  datatype SaveReply =
    | AuthenticationRequired     // 401
    | NoData                     // 400 'No data provided'
    | EmotionRequired            // 400 'Emotion is required'
    | SaveFailed                 // an exception: 500
    | Saved(entry: MoodEntry)

  /** The defaults `save_mood` fills in for absent keys. */
  const DefaultConfidence: Json := JNum(0.0)
  const DefaultIntensity: Json := JNum(5.0)
  const DefaultNotes: Json := JStr("")

  /** The value under `key`, or `default` when it is absent. */
  function Lookup(fields: map<string, Json>, key: string, default: Json): (r: Json)
    ensures key in fields ==> r == fields[key]
    ensures key !in fields ==> r == default
  {
    Get(JObject(fields), key, default).value
  }

  /** The image handling of `save_mood`: nothing unless `image` is truthy
      and starts with `data:image`; then its second comma-separated field,
      which fails when there is no comma. A truthy non-string fails too (it
      has no `startswith`). */
  function ImagePayload(image: Json): (r: Result<Option<string>, ()>)
    ensures r.Err? <==>
              Truthy(image) && (!image.JStr? || (StartsWith(image.s, DataImage) && ',' !in image.s))
    ensures r == Ok(None) <==> !Truthy(image) || (image.JStr? && !StartsWith(image.s, DataImage))
    ensures r.Ok? && r.value.Some? ==> SecondField(image.s) == r.value
  {
    if !Truthy(image) then Ok(None)
    else if !image.JStr? then Err(())
    else if !StartsWith(image.s, DataImage) then Ok(None)
    else
      match SecondField(image.s)
      case None => Err(())
      case Some(payload) => Ok(Some(payload))
  }

  /** `save_mood()`: a logged-in user, a truthy JSON object and a truthy
      `emotion` are required; absent confidence, intensity and notes take
      their defaults; a data-URL image contributes its payload, which must
      be base64 text (`decodes` says whether `base64.b64decode` accepts a
      text), and the row must be insertable (`inserts` says whether the
      INSERT succeeds; SQLite refuses to bind a list or an object). Either
      failure raises inside the handler's `try`. */
  function SaveMood(loggedIn: bool, data: Option<Json>, decodes: string -> bool, inserts: MoodEntry -> bool): (r: SaveReply)
    ensures r == AuthenticationRequired <==> !loggedIn
    ensures r == NoData <==> loggedIn && (data.None? || !Truthy(data.value))
    ensures r == EmotionRequired <==>
              loggedIn && data.Some? && Truthy(data.value) && data.value.JObject?
              && !Truthy(Lookup(data.value.fields, "emotion", JNull))
    ensures r.Saved? <==>
              loggedIn && data.Some? && data.value.JObject? &&
              var fields := data.value.fields;
              var image := ImagePayload(Lookup(fields, "image", JNull));
              && Truthy(Lookup(fields, "emotion", JNull))
              && image.Ok? && (image.value.Some? ==> decodes(image.value.value))
              && inserts(Entry(fields, image.value))
    ensures r.Saved? ==>
              loggedIn && data.Some? && data.value.JObject? &&
              var fields := data.value.fields;
              && r.entry.emotion == Lookup(fields, "emotion", JNull) && Truthy(r.entry.emotion)
              && r.entry.confidence == Lookup(fields, "confidence", DefaultConfidence)
              && r.entry.intensity == Lookup(fields, "intensity", DefaultIntensity)
              && r.entry.notes == Lookup(fields, "notes", DefaultNotes)
              && r.entry.context == Lookup(fields, "context", JNull)
              && Ok(r.entry.imagePayload) == ImagePayload(Lookup(fields, "image", JNull))
    ensures r == SaveFailed <==>
              loggedIn && data.Some? && Truthy(data.value) &&
              (!data.value.JObject? ||
                 var fields := data.value.fields;
                 var image := ImagePayload(Lookup(fields, "image", JNull));
                 && Truthy(Lookup(fields, "emotion", JNull))
                 && (|| image.Err?
                     || (image.value.Some? && !decodes(image.value.value))
                     || !inserts(Entry(fields, image.value))))
  {
    if !loggedIn then AuthenticationRequired
    else if data.None? || !Truthy(data.value) then NoData
    else if !data.value.JObject? then SaveFailed
    else
      var fields := data.value.fields;
      var emotion := Lookup(fields, "emotion", JNull);
      if !Truthy(emotion) then EmotionRequired
      else
        match ImagePayload(Lookup(fields, "image", JNull))
        case Err(_) => SaveFailed
        case Ok(payload) =>
          if payload.Some? && !decodes(payload.value) then SaveFailed
          else if !inserts(Entry(fields, payload)) then SaveFailed
          else Saved(Entry(fields, payload))
  }

  /** The row `save_mood` would insert for a body and an image payload. */
  function Entry(fields: map<string, Json>, payload: Option<string>): (e: MoodEntry)
    ensures e.emotion == Lookup(fields, "emotion", JNull)
    ensures e.imagePayload == payload
  {
    MoodEntry(Lookup(fields, "emotion", JNull),
              Lookup(fields, "confidence", DefaultConfidence),
              Lookup(fields, "intensity", DefaultIntensity),
              Lookup(fields, "notes", DefaultNotes),
              Lookup(fields, "context", JNull),
              payload)
  }

  /** The keys `save_mood` reads. */
  const MoodKeys: set<string> := {"emotion", "confidence", "intensity", "notes", "context", "image"}

  /** Keys the handler does not read change nothing, once the body is a
      non-empty object. */
  lemma OtherKeysIgnored(loggedIn: bool, fields: map<string, Json>, key: string, v: Json,
                         decodes: string -> bool, inserts: MoodEntry -> bool)
    requires fields != map[] && key !in MoodKeys
    ensures SaveMood(loggedIn, Some(JObject(fields[key := v])), decodes, inserts)
            == SaveMood(loggedIn, Some(JObject(fields)), decodes, inserts)
  {
    var wider := fields[key := v];
    assert key in wider;
    forall k | k in MoodKeys ensures Lookup(wider, k, JNull) == Lookup(fields, k, JNull) {
    }
    forall p: Option<string> ensures Entry(wider, p) == Entry(fields, p) {
    }
  }

  /** A body naming only the emotion is saved with every default, unless
      the insert fails. */
  lemma EmotionOnlyGetsDefaults(emotion: string, decodes: string -> bool, inserts: MoodEntry -> bool)
    requires emotion != ""
    ensures var e := MoodEntry(JStr(emotion), JNum(0.0), JNum(5.0), JStr(""), JNull, None);
            SaveMood(true, Some(JObject(map["emotion" := JStr(emotion)])), decodes, inserts) ==
              if inserts(e) then Saved(e) else SaveFailed
  {
    var fields := map["emotion" := JStr(emotion)];
    assert "image" !in fields && "confidence" !in fields && "intensity" !in fields;
    assert "notes" !in fields && "context" !in fields;
    assert Lookup(fields, "emotion", JNull) == JStr(emotion);
    assert ImagePayload(Lookup(fields, "image", JNull)) == Ok(None);
  }
}
