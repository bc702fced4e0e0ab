/** The suggestion panel's word wrapper (`wrap_text` in liveemotiondetector.py)
    together with the two Python string operations it is built from:
    `str.split()` with no separator, and `' '.join(...)`. */
module TextWrap {
  import opened Common

  /** Width the live view passes when wrapping a suggestion. */
  const PanelWidth := 65

  /** A non-empty run of non-whitespace characters: what `str.split()` yields. */
  predicate IsWord(w: string) {
    |w| > 0 && forall i :: 0 <= i < |w| ==> !IsSpace(w[i])
  }

  /** Length of the longest whitespace-free prefix of `s`. */
  function WordLen(s: string): (n: nat)
    ensures n <= |s|
    ensures forall i :: 0 <= i < n ==> !IsSpace(s[i])
    ensures n < |s| ==> IsSpace(s[n])
  {
    if |s| == 0 || IsSpace(s[0]) then 0 else 1 + WordLen(s[1..])
  }

  /** Python's `s.split()`: the maximal whitespace-free runs, in order. */
  function Split(s: string): (ws: seq<string>)
    ensures forall i :: 0 <= i < |ws| ==> IsWord(ws[i])
    decreases |s|
  {
    if |s| == 0 then []
    else if IsSpace(s[0]) then Split(s[1..])
    else
      var n := WordLen(s);
      [s[..n]] + Split(s[n..])
  }

  /** Python's `' '.join(ws)`. */
  function Join(ws: seq<string>): string {
    if |ws| == 0 then ""
    else if |ws| == 1 then ws[0]
    else ws[0] + " " + Join(ws[1..])
  }

  /** Line `b` following line `a` could not have started on `a`: its first
      word, after a space, would have made `a` longer than `maxWidth`. */
  ghost predicate Filled(a: string, b: string, maxWidth: int) {
    |Split(b)| > 0 && |a| + 1 + |Split(b)[0]| > maxWidth
  }

  /** The words of a list of lines, line after line. */
  function WordsOf(lines: seq<string>): seq<string> {
    if |lines| == 0 then []
    else WordsOf(lines[..|lines| - 1]) + Split(lines[|lines| - 1])
  }

  lemma {:induction false} WordLenOfWordThenRest(w: string, t: string)
    requires forall i :: 0 <= i < |w| ==> !IsSpace(w[i])
    ensures WordLen(w + t) == |w| + WordLen(t)
  {
    if |w| > 0 {
      assert (w + t)[0] == w[0];
      assert (w + t)[1..] == w[1..] + t;
      WordLenOfWordThenRest(w[1..], t);
    } else {
      assert w + t == t;
    }
  }

  /** Splitting a word followed by a space and more text yields that word first. */
  lemma SplitWordSpace(w: string, rest: string)
    requires IsWord(w)
    ensures Split(w + " " + rest) == [w] + Split(rest)
  {
    var s := w + " " + rest;
    WordLenOfWordThenRest(w, " " + rest);
    assert s == w + (" " + rest);
    assert WordLen(s) == |w|;
    assert s[..|w|] == w;
    assert s[|w|..] == " " + rest;
    assert (" " + rest)[1..] == rest;
  }

  lemma SplitWord(w: string)
    requires IsWord(w)
    ensures Split(w) == [w]
  {
    WordLenOfWordThenRest(w, "");
    assert w + "" == w;
    assert w[..|w|] == w;
    assert w[|w|..] == "";
  }

  /** Joining words with single spaces and splitting again gives the words back. */
  lemma {:induction false} SplitJoin(ws: seq<string>)
    requires forall i :: 0 <= i < |ws| ==> IsWord(ws[i])
    ensures Split(Join(ws)) == ws
  {
    if |ws| == 1 {
      SplitWord(ws[0]);
    } else if |ws| > 1 {
      SplitJoin(ws[1..]);
      SplitWordSpace(ws[0], Join(ws[1..]));
      assert [ws[0]] + ws[1..] == ws;
    }
  }

  /** Appending a word to a non-empty group adds a space and the word. */
  lemma {:induction false} JoinSnoc(ws: seq<string>, w: string)
    requires |ws| > 0
    ensures Join(ws + [w]) == Join(ws) + " " + w
  {
    if |ws| == 1 {
      assert (ws + [w])[1..] == [w];
    } else {
      assert (ws + [w])[1..] == ws[1..] + [w];
      JoinSnoc(ws[1..], w);
    }
  }

  /** Closed lines are non-empty and hold at least one word, a line longer
      than `maxWidth` holds one word, and each line is filled. */
  ghost predicate LinesOk(lines: seq<string>, maxWidth: int) {
    && (forall i :: 0 <= i < |lines| ==> |lines[i]| > 0 && |Split(lines[i])| >= 1)
    && (forall i :: 0 <= i < |lines| && |lines[i]| > maxWidth ==> |Split(lines[i])| == 1)
    && (forall i, j :: 0 <= i < j < |lines| && j == i + 1 ==> Filled(lines[i], lines[j], maxWidth))
  }

  /** A group of words: the open line, or a closed line before joining. It is
      made of words and fits unless it is a single word. */
  ghost predicate GroupOk(g: seq<string>, maxWidth: int) {
    && (forall i :: 0 <= i < |g| ==> IsWord(g[i]))
    && (|g| > 1 ==> |Join(g)| <= maxWidth)
  }

  /** Group `h` following group `g` could not have started on `g`. */
  ghost predicate GroupFilled(g: seq<string>, h: seq<string>, maxWidth: int) {
    |h| > 0 && |Join(g)| + 1 + |h[0]| > maxWidth
  }

  /** The closed groups of the loop: non-empty, well formed, each filled. */
  ghost predicate GroupsOk(gs: seq<seq<string>>, maxWidth: int) {
    && (forall i :: 0 <= i < |gs| ==> |gs[i]| > 0 && GroupOk(gs[i], maxWidth))
    && (forall i, j :: 0 <= i < j < |gs| && j == i + 1 ==> GroupFilled(gs[i], gs[j], maxWidth))
  }

  /** The last closed group is filled with respect to what follows it: the
      open group when there is one, and anything at all otherwise (it is then
      a single over-long word). */
  ghost predicate BoundaryOk(gs: seq<seq<string>>, current: seq<string>, maxWidth: int) {
    && (|gs| > 0 && current != [] ==> GroupFilled(gs[|gs| - 1], current, maxWidth))
    && (|gs| > 0 && current == [] ==> |Join(gs[|gs| - 1])| > maxWidth)
  }

  /** All words of the groups, group after group. */
  function Flatten(gs: seq<seq<string>>): seq<string> {
    if |gs| == 0 then [] else Flatten(gs[..|gs| - 1]) + gs[|gs| - 1]
  }

  lemma FlattenSnoc(gs: seq<seq<string>>, g: seq<string>)
    ensures Flatten(gs + [g]) == Flatten(gs) + g
  {
    assert (gs + [g])[..|gs|] == gs;
  }

  lemma AppendAssoc(a: seq<string>, b: seq<string>, c: seq<string>)
    ensures a + (b + c) == a + b + c
  {
  }

  /** Closing a non-empty open group keeps the closed groups well formed. */
  lemma CloseGroup(gs: seq<seq<string>>, current: seq<string>, maxWidth: int)
    requires GroupsOk(gs, maxWidth) && GroupOk(current, maxWidth)
    requires BoundaryOk(gs, current, maxWidth) && current != []
    ensures GroupsOk(gs + [current], maxWidth)
    ensures Flatten(gs + [current]) == Flatten(gs) + current
  {
    FlattenSnoc(gs, current);
    var gs' := gs + [current];
    forall i, j | 0 <= i < j < |gs'| && j == i + 1
      ensures GroupFilled(gs'[i], gs'[j], maxWidth)
    {
      if j < |gs| {
        assert gs'[i] == gs[i] && gs'[j] == gs[j];
      }
    }
  }

  /** The word fits on the open line. */
  lemma PlaceFitting(gs: seq<seq<string>>, current: seq<string>, word: string, maxWidth: int)
    requires GroupOk(current, maxWidth) && BoundaryOk(gs, current, maxWidth)
    requires IsWord(word) && |Join(current + [word])| <= maxWidth
    ensures GroupOk(current + [word], maxWidth)
    ensures BoundaryOk(gs, current + [word], maxWidth)
    ensures Flatten(gs) + (current + [word]) == Flatten(gs) + current + [word]
  {
    assert (current + [word])[0] == if current == [] then word else current[0];
    AppendAssoc(Flatten(gs), current, [word]);
  }

  /** The word does not fit after the open line: that line is closed and the
      word opens the next one. */
  lemma PlaceAfterClosing(gs: seq<seq<string>>, current: seq<string>, word: string, maxWidth: int)
    requires GroupsOk(gs, maxWidth) && GroupOk(current, maxWidth)
    requires BoundaryOk(gs, current, maxWidth) && current != []
    requires IsWord(word) && |Join(current + [word])| > maxWidth
    ensures GroupsOk(gs + [current], maxWidth) && GroupOk([word], maxWidth)
    ensures BoundaryOk(gs + [current], [word], maxWidth)
    ensures Flatten(gs + [current]) + [word] == Flatten(gs) + current + [word]
  {
    CloseGroup(gs, current, maxWidth);
    JoinSnoc(current, word);
  }

  /** With no open line, a word that does not fit alone is a line by itself. */
  lemma PlaceAlone(gs: seq<seq<string>>, word: string, maxWidth: int)
    requires GroupsOk(gs, maxWidth) && BoundaryOk(gs, [], maxWidth)
    requires IsWord(word) && |Join([word])| > maxWidth
    ensures GroupsOk(gs + [[word]], maxWidth) && GroupOk([], maxWidth)
    ensures BoundaryOk(gs + [[word]], [], maxWidth)
    ensures Flatten(gs + [[word]]) + [] == Flatten(gs) + [] + [word]
  {
    CloseGroup(gs, [word], maxWidth);
  }

  /** One iteration of the wrapping loop: place `word` after the open group,
      closing that group first when the word does not fit on its line. */
  method Place(gs: seq<seq<string>>, current: seq<string>, word: string, maxWidth: int)
    returns (gs': seq<seq<string>>, current': seq<string>)
    requires GroupsOk(gs, maxWidth) && GroupOk(current, maxWidth)
    requires BoundaryOk(gs, current, maxWidth) && IsWord(word)
    ensures GroupsOk(gs', maxWidth) && GroupOk(current', maxWidth)
    ensures BoundaryOk(gs', current', maxWidth)
    ensures Flatten(gs') + current' == Flatten(gs) + current + [word]
  {
    if |Join(current + [word])| <= maxWidth {
      PlaceFitting(gs, current, word, maxWidth);
      gs', current' := gs, current + [word];
    } else if current != [] {
      PlaceAfterClosing(gs, current, word, maxWidth);
      gs', current' := gs + [current], [word];
    } else {
      PlaceAlone(gs, word, maxWidth);
      gs', current' := gs + [[word]], [];
    }
  }

  /** The loop of `wrap_text` over the words, as groups: every word placed in
      turn, the open group returned unclosed. */
  method FillGroups(words: seq<string>, maxWidth: int) returns (gs: seq<seq<string>>, current: seq<string>)
    requires forall i :: 0 <= i < |words| ==> IsWord(words[i])
    ensures Flatten(gs) + current == words
    ensures GroupsOk(gs, maxWidth) && GroupOk(current, maxWidth)
    ensures BoundaryOk(gs, current, maxWidth)
  {
    gs, current := [], [];
    var k := 0;
    while k < |words|
      invariant 0 <= k <= |words|
      invariant Flatten(gs) + current == words[..k]
      invariant GroupsOk(gs, maxWidth)
      invariant GroupOk(current, maxWidth)
      invariant BoundaryOk(gs, current, maxWidth)
    {
      gs, current := Place(gs, current, words[k], maxWidth);
      k := k + 1;
    }
    assert words[..k] == words;
  }

  /** Each joined group splits back into the group. */
  lemma SplitJoinAll(gs: seq<seq<string>>, maxWidth: int)
    requires GroupsOk(gs, maxWidth)
    ensures forall i :: 0 <= i < |gs| ==> Split(JoinAll(gs)[i]) == gs[i]
  {
    forall i | 0 <= i < |gs| ensures Split(JoinAll(gs)[i]) == gs[i] {
      SplitJoin(gs[i]);
    }
  }

  /** Joining each well-formed group gives well-formed lines. */
  lemma JoinGroupsOk(gs: seq<seq<string>>, maxWidth: int)
    requires GroupsOk(gs, maxWidth)
    ensures LinesOk(JoinAll(gs), maxWidth)
  {
    var lines := JoinAll(gs);
    SplitJoinAll(gs, maxWidth);
    forall i, j | 0 <= i < j < |lines| && j == i + 1
      ensures Filled(lines[i], lines[j], maxWidth)
    {
      assert GroupFilled(gs[i], gs[j], maxWidth);
    }
  }

  /** Joining groups of words keeps the words. */
  lemma {:induction false} JoinGroupsWords(gs: seq<seq<string>>)
    requires forall i, k :: 0 <= i < |gs| && 0 <= k < |gs[i]| ==> IsWord(gs[i][k])
    ensures WordsOf(JoinAll(gs)) == Flatten(gs)
  {
    if |gs| > 0 {
      var n := |gs| - 1;
      JoinGroupsWords(gs[..n]);
      assert JoinAll(gs[..n]) == JoinAll(gs)[..n];
      SplitJoin(gs[n]);
    }
  }

  /** Each group joined by single spaces. */
  function JoinAll(gs: seq<seq<string>>): (lines: seq<string>)
    ensures |lines| == |gs|
    ensures forall i :: 0 <= i < |gs| ==> lines[i] == Join(gs[i])
  {
    seq(|gs|, i requires 0 <= i < |gs| => Join(gs[i]))
  }

  /** Lines of at least one word each hold at least as many words as lines. */
  lemma {:induction false} WordsOfLength(lines: seq<string>)
    requires forall i :: 0 <= i < |lines| ==> |Split(lines[i])| >= 1
    ensures |WordsOf(lines)| >= |lines|
  {
    if |lines| > 0 {
      WordsOfLength(lines[..|lines| - 1]);
    }
  }

  /** Python's `wrap_text(text, max_width)`: greedy line filling. A word goes
      on the current line when the line with it, joined by spaces, is at most
      `maxWidth` long; otherwise the current line is closed and the word
      starts the next one, and a word that does not fit even alone becomes a
      line by itself.

      The lines hold exactly the words of `text`, in order, and no more lines
      than words (so no words, no lines); every line has at least one word; a
      line longer than `maxWidth` holds a single word; and every line is
      full: its next line's first word would not have fit. */
  method WrapText(text: string, maxWidth: int) returns (lines: seq<string>)
    ensures WordsOf(lines) == Split(text)
    ensures |lines| <= |Split(text)|
    ensures LinesOk(lines, maxWidth)
    ensures forall i :: 0 <= i < |lines| ==> lines[i] == Join(Split(lines[i]))
  {
    var gs, current := FillGroups(Split(text), maxWidth);
    if current != [] {
      CloseGroup(gs, current, maxWidth);
      gs := gs + [current];
    }
    lines := JoinAll(gs);
    JoinGroupsOk(gs, maxWidth);
    JoinGroupsWords(gs);
    WordsOfLength(lines);
    SplitJoinAll(gs, maxWidth);
  }
}
