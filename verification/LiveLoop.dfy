/** The decisions of the live view's main loop (liveemotiondetector.py). Each
    pass mirrors the frame, turns it gray, blurs it and finds faces with the
    fallback chain (`Vision.DetectFacesImproved`); each face in turn is
    cropped, classified and, when the classifier is confident, labelled with
    a suggestion from the helper; the key read at the end of the pass may quit
    or force a new suggestion.

    Camera capture, drawing and the screenshot file are left out; what the
    loop decides for a face and for a key is kept. */
module LiveLoop {
  import opened Common
  import opened Grids
  import opened Emotions
  import opened Vision
  import opened LiveTable
  import opened LiveHelper
  import opened TextWrap

  /** The OpenCV calls the handling of one face makes. */
  datatype Camera = Camera(equalize: Gray -> Gray, resize: Gray -> Face48)

  /** What a pass does with one detected face. A non-empty region always
      yields features, so the source's "features missing" branch cannot be
      taken and has no outcome here. */
  datatype FaceOutcome =
    | EmptyRegion                     // the clamped region has no pixels: skipped
    | NoModel                         // "Model not available" is shown
    | Unsure(p: Prediction)           // confidence at most 0.4: nothing drawn
    | Labelled(p: Prediction, suggestion: string, kind: string)  // box, label and helper output

  /** The draw serves any emotion of the table `t`. */
  predicate DrawServes(t: Table, d: Draw) {
    d.kind < |Kinds| && forall e: Emotion :: d.item < |t(e, Kinds[d.kind])|
  }

  /** With the program's own table, any category position below three and
      any item position below five is a possible draw. */
  lemma LiveTableDraws(d: Draw)
    requires d.kind < |Kinds| && d.item < 5
    ensures DrawServes(Pool, d)
  {
    forall e: Emotion ensures d.item < |Pool(e, Kinds[d.kind])| {
      PoolSize(e, Kinds[d.kind]);
    }
  }

  /** The body of the loop over faces, for one face `b` of `gray`. The helper
      is consulted, and so changes, only for a confident prediction. */
  function ProcessFace(cam: Camera, net: Option<Net>, t: Table, h: Helper, gray: Gray, b: Box, now: real, d: Draw)
    : (r: (Helper, FaceOutcome))
    requires DrawServes(t, d)
    ensures r.1.EmptyRegion? <==> RegionEmpty(gray, b)
    ensures r.1.NoModel? <==> !RegionEmpty(gray, b) && net.None?
    ensures (r.1.Unsure? || r.1.Labelled?) ==>
              && net.Some?
              && ExtractFeatures(cam.equalize, cam.resize, Some(PaddedCrop(gray, b))).Some?
              && r.1.p == Classify(net.value(ExtractFeatures(cam.equalize, cam.resize, Some(PaddedCrop(gray, b))).value))
    ensures r.1.Unsure? ==> r.1.p.confidence <= LiveThreshold
    ensures r.1.Labelled? ==>
              && r.1.p.confidence > LiveThreshold
              && var call := GetSuggestion(t, h, Name(r.1.p.emotion), now, d);
                 r.0 == call.0 && (r.1.suggestion, r.1.kind) == call.1
    ensures !r.1.Labelled? ==> r.0 == h
  {
    var region := PaddedCrop(gray, b);
    if Size(region) == 0 then (h, EmptyRegion)
    else if net.None? then (h, NoModel)
    else
      var features := ExtractFeatures(cam.equalize, cam.resize, Some(region));
      match LiveVerdict(net.value(features.value))
      case None => (h, Unsure(Classify(net.value(features.value))))
      case Some(p) =>
        ParseName(p.emotion);
        var call := GetSuggestion(t, h, Name(p.emotion), now, d);
        (call.0, Labelled(p, call.1.0, call.1.1))
  }

  /** The panel heading for a suggestion category (`title_map`). */
  function PanelTitle(kind: string): (title: string)
    ensures ParseKind(kind).None? <==> title == "Suggestion"
    ensures ParseKind(kind) == Some(Quotes) ==> title == "Motivational Quote"
    ensures ParseKind(kind) == Some(Activities) ==> title == "Suggested Activity"
    ensures ParseKind(kind) == Some(Tasks) ==> title == "Helpful Task"
  {
    match ParseKind(kind)
    case Some(Quotes) => "Motivational Quote"
    case Some(Activities) => "Suggested Activity"
    case Some(Tasks) => "Helpful Task"
    case None => "Suggestion"
  }

  /** The panel's body text: the suggestion wrapped at the panel width. No
      word is lost, and only a line holding a single word may be wider than
      the panel. */
  method PanelLines(suggestion: string) returns (lines: seq<string>)
    ensures WordsOf(lines) == Split(suggestion)
    ensures forall i :: 0 <= i < |lines| && |Split(lines[i])| > 1 ==> |lines[i]| <= PanelWidth
  {
    lines := WrapText(suggestion, PanelWidth);
  }

  /** The key press at the end of a pass (`cv2.waitKey(1) & 0xFF`, where no
      key reads as -1): 'q' ends the loop, 'n' zeroes the helper's timer, and
      anything else leaves the helper alone. */
  function OnKey(h: Helper, code: int): (r: (Helper, bool))
    ensures r.1 <==> code % 256 == 'q' as int
    ensures r.0 == (if code % 256 == 'n' as int then ForceRefresh(h) else h)
  {
    var key := code % 256;
    if key == 'q' as int then (h, true)
    else if key == 'n' as int then (ForceRefresh(h), false)
    else (h, false)
  }

  /** Only the low byte of the key code matters. */
  lemma OnlyLowByteMatters(h: Helper, code: int, m: int)
    ensures OnKey(h, code + 256 * m) == OnKey(h, code)
  {
    assert (code + 256 * m) % 256 == code % 256;
  }

  /** Not pressing anything neither quits nor touches the helper. */
  lemma NoKeyIsHarmless(h: Helper)
    ensures OnKey(h, -1) == (h, false)
  {
  }
}
