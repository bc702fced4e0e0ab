/** Getting the base64 payload out of an image string sent by the browser,
    which may be a data URL (`data:image/jpeg;base64,<payload>`) or the bare
    payload. Three places do this with slightly different guards: the HTTP
    API and `save_mood` strip only strings starting with `data:image`, while
    `base64_to_image` and the saved-image path of `detect_emotion` strip
    whenever a comma is present. All of them take `split(',')[1]`. */
module DataUrl {
  import opened Common

  /** `s.split(',')[1]`: the text between the first comma and the next one
      (or the end); nothing when `s` has no comma, where Python raises
      `IndexError`. */
  function SecondField(s: string): (r: Option<string>)
    ensures r.None? <==> ',' !in s
    ensures r.Some? ==>
              var i := IndexOf(s, ',').value;
              && ',' !in r.value
              && i + 1 + |r.value| <= |s|
              && s[i + 1..i + 1 + |r.value|] == r.value
              && (i + 1 + |r.value| == |s| || s[i + 1 + |r.value|] == ',')
  {
    match IndexOf(s, ',')
    case None => None
    case Some(i) =>
      var rest := s[i + 1..];
      match IndexOf(rest, ',')
      case None => Some(rest)
      case Some(j) => Some(rest[..j])
  }

  /** A comma-free header, a comma and a comma-free payload split back into
      the payload. */
  lemma SecondFieldOfPair(header: string, payload: string)
    requires ',' !in header && ',' !in payload
    ensures SecondField(header + [','] + payload) == Some(payload)
  {
    var s := header + [','] + payload;
    assert s[..|header|] == header && s[|header|] == ',';
    assert IndexOf(s, ',') == Some(|header|);
    assert s[|header| + 1..] == payload;
  }

  /** The same, whatever follows the payload after a further comma. */
  lemma SecondFieldOfJoin(header: string, payload: string, tail: string)
    requires ',' !in header && ',' !in payload
    ensures SecondField(header + [','] + payload + [','] + tail) == Some(payload)
  {
    var t := header + [','] + payload + [','] + tail;
    var rest := payload + [','] + tail;
    assert t[..|header|] == header && t[|header|] == ',';
    assert IndexOf(t, ',') == Some(|header|);
    assert t[|header| + 1..] == rest;
    assert rest[|payload|] == ',' && rest[..|payload|] == payload;
    assert IndexOf(rest, ',') == Some(|payload|);
  }

  /** The guard of `base64_to_image` and of the saved image in
      `detect_emotion`: the second comma-separated field when there is a
      comma, the whole string otherwise. */
  function StripIfComma(s: string): (r: string)
    ensures ',' !in s ==> r == s
    ensures ',' in s ==> Some(r) == SecondField(s)
  {
    match SecondField(s)
    case None => s
    case Some(field) => field
  }

  /** The prefix the API and `save_mood` look for. */
  const DataImage: string := "data:image"

  /** The guard of the API and of `save_mood`: a string starting with
      `data:image` is replaced by its second comma-separated field, which
      fails when it has no comma; any other string is kept whole. */
  function StripIfDataUrl(s: string): (r: Option<string>)
    ensures !StartsWith(s, DataImage) ==> r == Some(s)
    ensures StartsWith(s, DataImage) ==> r == SecondField(s)
    ensures r.None? <==> StartsWith(s, DataImage) && ',' !in s
  {
    if StartsWith(s, DataImage) then SecondField(s) else Some(s)
  }

  /** A data URL built from a comma-free header and payload gives back the
      payload under either guard. */
  lemma DataUrlRoundTrip(mime: string, payload: string)
    requires ',' !in mime && ',' !in payload
    ensures StripIfDataUrl(DataImage + mime + [','] + payload) == Some(payload)
    ensures StripIfComma(DataImage + mime + [','] + payload) == payload
  {
    var header := DataImage + mime;
    assert ',' !in DataImage;
    assert ',' !in header by {
      forall k | 0 <= k < |header| ensures header[k] != ',' {
        if k < |DataImage| { assert header[k] == DataImage[k]; } else { assert header[k] == mime[k - |DataImage|]; }
      }
    }
    SecondFieldOfPair(header, payload);
    assert DataImage + mime + [','] + payload == header + [','] + payload;
    assert (header + [','] + payload)[..|DataImage|] == DataImage;
  }
}
