/** The live view's suggestion debouncer (`EmotionHelper` in
    liveemotiondetector.py). It keeps the suggestion on screen steady: a new
    one is drawn only when the detected emotion changes or more than thirty
    seconds have passed since the last draw, and the 'n' key forces the next
    draw by zeroing the timer.

    `time.time()` is the parameter `now`; the two `random.choice` calls are
    the indices of a `Draw`, any in range. The suggestion table is the
    parameter `t`; the program's is `LiveTable.Pool`. */
module LiveHelper {
  import opened Common
  import opened Emotions
  import opened LiveTable

  /** Seconds after which the same emotion gets a fresh suggestion. */
  const RefreshSeconds: real := 30.0

  /** The fields of an `EmotionHelper` the suggestion logic uses. */
  datatype Helper = Helper(
    lastEmotion: Option<string>,
    lastSuggestionTime: real,
    currentSuggestion: string,
    suggestionType: string)

  /** `EmotionHelper()`: no emotion seen, timer at zero, nothing to show. */
  const Fresh := Helper(None, 0.0, "", "")

  /** The outcome of the two `random.choice` calls of a draw: a position in
      `Kinds`, then a position in that category's pool. */
  datatype Draw = Draw(kind: nat, item: nat)

  /** The draw is one `random.choice` could make for this emotion. */
  predicate DrawFits(t: Table, emotion: string, d: Draw) {
    && d.kind < |Kinds|
    && (Parse(emotion).Some? ==> d.item < |t(Parse(emotion).value, Kinds[d.kind])|)
  }

  /** The refresh condition: a different emotion from the last call's (any
      emotion, on the first call), or strictly more than thirty seconds
      since the last draw. */
  predicate Due(h: Helper, emotion: string, now: real) {
    Some(emotion) != h.lastEmotion || now - h.lastSuggestionTime > RefreshSeconds
  }

  /** `helper.get_suggestion(emotion)` at time `now`: the new helper and the
      returned `(suggestion, suggestion_type)` pair.

      The pair returned is always the one the helper now holds, and the
      emotion is always remembered. When a refresh is due for an emotion of
      the table, the pair is a suggestion of that emotion with its category,
      and the timer is set to `now`; otherwise suggestion, category and timer
      are those held before. */
  function GetSuggestion(t: Table, h: Helper, emotion: string, now: real, d: Draw): (r: (Helper, (string, string)))
    requires DrawFits(t, emotion, d)
    ensures r.1 == (r.0.currentSuggestion, r.0.suggestionType)
    ensures r.0.lastEmotion == Some(emotion)
    ensures Due(h, emotion, now) && Parse(emotion).Some? ==>
              && r.0.lastSuggestionTime == now
              && Offers(t, Parse(emotion).value, r.0.suggestionType, r.0.currentSuggestion)
    ensures !(Due(h, emotion, now) && Parse(emotion).Some?) ==>
              && r.0.lastSuggestionTime == h.lastSuggestionTime
              && r.1 == (h.currentSuggestion, h.suggestionType)
  {
    var h' :=
      if Due(h, emotion, now) && Parse(emotion).Some? then
        var kind := Kinds[d.kind];
        var pool := t(Parse(emotion).value, kind);
        h.(suggestionType := KindName(kind), currentSuggestion := pool[d.item], lastSuggestionTime := now)
      else h;
    var h'' := h'.(lastEmotion := Some(emotion));
    (h'', (h''.currentSuggestion, h''.suggestionType))
  }

  /** The 'n' key: zero the timer so that the next call draws. */
  function ForceRefresh(h: Helper): (r: Helper)
    ensures r.lastSuggestionTime == 0.0
    ensures r.(lastSuggestionTime := h.lastSuggestionTime) == h
  {
    h.(lastSuggestionTime := 0.0)
  }

  /** The first emotion of the table a fresh helper sees is always drawn for. */
  lemma FirstCallDraws(t: Table, emotion: string, now: real, d: Draw)
    requires DrawFits(t, emotion, d) && Parse(emotion).Some?
    ensures GetSuggestion(t, Fresh, emotion, now, d).0.lastSuggestionTime == now
    ensures Offers(t, Parse(emotion).value, GetSuggestion(t, Fresh, emotion, now, d).1.1,
                   GetSuggestion(t, Fresh, emotion, now, d).1.0)
  {
  }

  /** After 'n', the next call (at a time past thirty seconds of the epoch)
      draws a fresh suggestion for a table emotion, even an unchanged one. */
  lemma ForcedRefreshDraws(t: Table, h: Helper, emotion: string, now: real, d: Draw)
    requires DrawFits(t, emotion, d) && Parse(emotion).Some? && now > RefreshSeconds
    ensures GetSuggestion(t, ForceRefresh(h), emotion, now, d).0.lastSuggestionTime == now
  {
  }

  /** With the same emotion, a call no more than thirty seconds after the last
      draw returns the same pair, whatever the draw, and leaves the timer. */
  lemma SteadyWithinWindow(t: Table, h: Helper, emotion: string, now: real, d: Draw)
    requires DrawFits(t, emotion, d)
    requires h.lastEmotion == Some(emotion) && now - h.lastSuggestionTime <= RefreshSeconds
    ensures GetSuggestion(t, h, emotion, now, d).1 == (h.currentSuggestion, h.suggestionType)
    ensures GetSuggestion(t, h, emotion, now, d).0 == h
  {
  }

  /** An emotion outside the table never changes what is shown nor the timer;
      only the remembered emotion changes. */
  lemma UnknownEmotionKeepsSuggestion(t: Table, h: Helper, emotion: string, now: real, d: Draw)
    requires DrawFits(t, emotion, d) && Parse(emotion).None?
    ensures GetSuggestion(t, h, emotion, now, d).0 == h.(lastEmotion := Some(emotion))
  {
  }

  /** What the helper shows is either nothing yet or a genuine suggestion of
      the category it names, for some emotion. */
  ghost predicate Consistent(t: Table, h: Helper) {
    || (h.currentSuggestion == "" && h.suggestionType == "")
    || exists e: Emotion :: Offers(t, e, h.suggestionType, h.currentSuggestion)
  }

  /** What can happen to the helper in the live loop: a call for a shown face,
      or an 'n' key press. */
  datatype Event = Shown(emotion: string, now: real, draw: Draw) | PressN

  predicate EventFits(t: Table, ev: Event) {
    ev.Shown? ==> DrawFits(t, ev.emotion, ev.draw)
  }

  /** The helper after a sequence of events. */
  function Run(t: Table, h: Helper, events: seq<Event>): Helper
    requires forall i :: 0 <= i < |events| ==> EventFits(t, events[i])
    decreases |events|
  {
    if |events| == 0 then h
    else
      var ev := events[0];
      assert EventFits(t, ev);
      var h' := if ev.PressN? then ForceRefresh(h) else GetSuggestion(t, h, ev.emotion, ev.now, ev.draw).0;
      Run(t, h', events[1..])
  }

  /** Whatever happens, starting fresh, the panel never shows a suggestion
      under the wrong category title or text that is not a suggestion. */
  lemma {:induction false} RunConsistent(t: Table, h: Helper, events: seq<Event>)
    requires forall i :: 0 <= i < |events| ==> EventFits(t, events[i])
    requires Consistent(t, h)
    decreases |events|
    ensures Consistent(t, Run(t, h, events))
  {
    if |events| > 0 {
      var ev := events[0];
      if ev.Shown? {
        var h' := GetSuggestion(t, h, ev.emotion, ev.now, ev.draw).0;
        if Due(h, ev.emotion, ev.now) && Parse(ev.emotion).Some? {
          assert Offers(t, Parse(ev.emotion).value, h'.suggestionType, h'.currentSuggestion);
        }
        assert Consistent(t, h');
      }
      assert EventFits(t, events[0]);
      RunConsistent(t, if ev.PressN? then ForceRefresh(h) else GetSuggestion(t, h, ev.emotion, ev.now, ev.draw).0, events[1..]);
    }
  }

  /** The live view's first call for "Happy", drawing the first category and
      its first entry, shows the first Happy quote. */
  lemma HappyFirstQuote()
    ensures GetSuggestion(Pool, Fresh, "Happy", 1.0, Draw(0, 0)).1
            == ("Keep shining! Your happiness is contagious.", "quotes")
  {
  }
}
