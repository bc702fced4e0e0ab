/** The pure parts of `DatabaseManager` (moodsync/models/database.py): the
    LIMIT rule of `get_mood_history`, the statistics `get_mood_stats` derives
    from its query results (dominant emotion, average intensity, streak), and
    the statement `update_user_profile` builds. The SQL itself runs in
    SQLite and is not modelled: query results are inputs here. */
module Database {
  import opened Common
  import opened PyInt

  // ----- get_mood_history -----

  /** The history query before any LIMIT. */
  const HistoryQuery: string :=
    "SELECT * FROM moods WHERE user_id = ? AND timestamp >= datetime('now', '-' || ? || ' days') ORDER BY timestamp DESC"

  /** The query `get_mood_history` runs: a `LIMIT n` is appended only for a
      truthy `limit`, so both `None` and `0` mean no limit. */
  function HistoryStatement(limit: Option<int>): (q: string)
    ensures limit.None? || limit.value == 0 ==> q == HistoryQuery
    ensures limit.Some? && limit.value != 0 ==>
              |q| > |HistoryQuery + " LIMIT "| && q[..|HistoryQuery + " LIMIT "|] == HistoryQuery + " LIMIT "
              && ParseInt(q[|HistoryQuery + " LIMIT "|..]) == Some(limit.value)
    ensures limit.Some? && limit.value != 0 ==> q[|HistoryQuery + " LIMIT "|..] == Render(limit.value)
  {
    if limit.Some? && limit.value != 0 then
      var q := HistoryQuery + " LIMIT " + Render(limit.value);
      ParseRender(limit.value);
      assert q[|HistoryQuery + " LIMIT "|..] == Render(limit.value);
      q
    else HistoryQuery
  }

  // ----- get_mood_stats -----

  /** A row of the per-emotion count query; `emotion` is NULL for entries
      without a detected emotion. */
  datatype CountRow = CountRow(emotion: Option<string>, count: nat)

  /** The rows are in `ORDER BY count DESC` order. */
  predicate CountsDescending(rows: seq<CountRow>) {
    forall i :: 0 < i < |rows| ==> rows[i - 1].count >= rows[i].count
  }

  /** In descending order, no row counts more than the first. */
  lemma {:induction false} FirstIsLargest(rows: seq<CountRow>)
    requires CountsDescending(rows) && rows != []
    ensures forall i :: 0 <= i < |rows| ==> rows[i].count <= rows[0].count
  {
    if |rows| > 1 {
      assert CountsDescending(rows[1..]) by {
        forall i | 0 < i < |rows[1..]| ensures rows[1..][i - 1].count >= rows[1..][i].count {
          assert rows[1..][i - 1] == rows[i] && rows[1..][i] == rows[i + 1];
        }
      }
      FirstIsLargest(rows[1..]);
      forall i | 1 <= i < |rows| ensures rows[i].count <= rows[0].count {
        assert rows[i] == rows[1..][i - 1];
      }
    }
  }

  /** `dominant_emotion`: over the per-emotion counts the query returns in
      descending order, an emotion that occurs most often (the first row's
      on a tie), or nothing when there are no rows. */
  function DominantEmotion(rows: seq<CountRow>): (r: Option<string>)
    ensures rows == [] ==> r.None?
    ensures rows != [] ==> r == rows[0].emotion
    ensures rows != [] && CountsDescending(rows) ==>
              exists k :: 0 <= k < |rows| && rows[k].emotion == r
                          && forall i :: 0 <= i < |rows| ==> rows[i].count <= rows[k].count
  {
    if rows == [] then None
    else
      assert CountsDescending(rows) ==> forall i :: 0 <= i < |rows| ==> rows[i].count <= rows[0].count by {
        if CountsDescending(rows) {
          FirstIsLargest(rows);
        }
      }
      rows[0].emotion
  }

  function Sum(xs: seq<int>): int {
    if xs == [] then 0 else xs[0] + Sum(xs[1..])
  }

  /** The intensities SQL's `AVG` sees: the non-NULL ones. */
  function Present(xs: seq<Option<int>>): (r: seq<int>)
    ensures |r| <= |xs|
    ensures forall v :: v in r <==> Some(v) in xs
    ensures forall v :: multiset(r)[v] == multiset(xs)[Some(v)]
  {
    if xs == [] then []
    else
      assert xs == [xs[0]] + xs[1..];
      (if xs[0].Some? then [xs[0].value] else []) + Present(xs[1..])
  }

  /** The arithmetic mean of a non-empty sequence of integers. */
  function Mean(xs: seq<int>): (r: real)
    requires xs != []
    ensures r * |xs| as real == Sum(xs) as real
  {
    Sum(xs) as real / |xs| as real
  }

  /** `average_intensity`: the mean of the non-NULL intensities, or 0.0 when
      there are none (SQL's `AVG` is NULL then). */
  function AverageIntensity(intensities: seq<Option<int>>): (r: real)
    ensures Present(intensities) == [] ==> r == 0.0
    ensures Present(intensities) != [] ==> r == Mean(Present(intensities))
  {
    var xs := Present(intensities);
    if xs == [] then 0.0 else Mean(xs)
  }

  lemma {:induction false} SumBounds(xs: seq<int>, lo: int, hi: int)
    requires forall v :: v in xs ==> lo <= v <= hi
    ensures lo * |xs| <= Sum(xs) <= hi * |xs|
  {
    if xs != [] {
      var tail := xs[1..];
      assert forall v :: v in tail ==> v in xs;
      SumBounds(tail, lo, hi);
      assert xs[0] in xs;
      assert lo * |xs| == lo * |tail| + lo by {
        assert |xs| == |tail| + 1;
      }
      assert hi * |xs| == hi * |tail| + hi by {
        assert |xs| == |tail| + 1;
      }
    }
  }

  /** A mean lies between the bounds of the values it averages. */
  lemma MeanWithinBounds(xs: seq<int>, lo: int, hi: int)
    requires xs != [] && forall v :: v in xs ==> lo <= v <= hi
    ensures lo as real <= Mean(xs) <= hi as real
  {
    SumBounds(xs, lo, hi);
    MeanBounds(Sum(xs), |xs|, Mean(xs), lo, hi);
  }

  /** When every recorded intensity lies in `[lo, hi]`, so does the average
      (or it is the 0.0 default). */
  lemma AverageWithinBounds(intensities: seq<Option<int>>, lo: int, hi: int)
    requires forall i :: 0 <= i < |intensities| && intensities[i].Some? ==> lo <= intensities[i].value <= hi
    ensures Present(intensities) != [] ==> lo as real <= AverageIntensity(intensities) <= hi as real
  {
    if Present(intensities) != [] {
      PresentBounded(intensities, lo, hi);
      MeanWithinBounds(Present(intensities), lo, hi);
    }
  }

  lemma {:induction false} PresentBounded(intensities: seq<Option<int>>, lo: int, hi: int)
    requires forall i :: 0 <= i < |intensities| && intensities[i].Some? ==> lo <= intensities[i].value <= hi
    ensures forall v :: v in Present(intensities) ==> lo <= v <= hi
  {
    if intensities != [] {
      PresentBounded(intensities[1..], lo, hi);
    }
  }

  lemma MeanBounds(sum: int, count: nat, mean: real, lo: int, hi: int)
    requires count > 0 && mean * count as real == sum as real
    requires lo * count <= sum <= hi * count
    ensures lo as real <= mean <= hi as real
  {
    var n := count as real;
    assert (lo * count) as real == lo as real * n;
    assert (hi * count) as real == hi as real * n;
    ScaleBack(lo as real, mean, n);
    ScaleBack(mean, hi as real, n);
  }

  lemma ScaleBack(a: real, b: real, n: real)
    requires n > 0.0 && a * n <= b * n
    ensures a <= b
  {
    assert (b - a) * n == b * n - a * n;
  }

  /** The days `today`, `today - 1`, ..., `today - (n - 1)`. */
  function DaysBack(today: int, n: nat): (r: set<int>)
    ensures forall d :: d in r <==> today - n < d <= today
  {
    if n == 0 then {} else DaysBack(today, n - 1) + {today - (n - 1)}
  }

  lemma {:induction false} DaysBackSize(today: int, n: nat)
    ensures |DaysBack(today, n)| == n
  {
    if n > 0 {
      DaysBackSize(today, n - 1);
      assert today - (n - 1) !in DaysBack(today, n - 1);
    }
  }

  /** The streak: walking back from `today` (a day number, `date.today()`)
      one day at a time while the day has an entry. The result is the length
      of the run of days with entries that ends today: zero when today has
      none, and never more than the number of days with entries, which is
      why the walk stops. */
  method Streak(daysWithEntries: set<int>, today: int) returns (streak: nat)
    ensures forall d :: today - streak < d <= today ==> d in daysWithEntries
    ensures today - streak !in daysWithEntries
    ensures streak <= |daysWithEntries|
  {
    streak := 0;
    var current := today;
    while current in daysWithEntries
      invariant current == today - streak
      invariant DaysBack(today, streak) <= daysWithEntries
      invariant streak <= |daysWithEntries|
      decreases |daysWithEntries| - streak
    {
      assert DaysBack(today, streak + 1) <= daysWithEntries;
      assert streak + 1 <= |daysWithEntries| by {
        DaysBackSize(today, streak + 1);
        SubsetSize(DaysBack(today, streak + 1), daysWithEntries);
      }
      streak := streak + 1;
      current := current - 1;
    }
  }

  lemma SubsetSize<T>(a: set<T>, b: set<T>)
    requires a <= b
    ensures |a| <= |b|
  {
    assert b == a + (b - a);
  }

  // ----- update_user_profile -----

  /** The columns a profile update may set, in the order the method checks
      them. */
  datatype Column = FirstName | LastName | ProfileImage

  function ColumnName(c: Column): string {
    match c
    case FirstName => "first_name"
    case LastName => "last_name"
    case ProfileImage => "profile_image"
  }

  function Rank(c: Column): nat {
    match c
    case FirstName => 0
    case LastName => 1
    case ProfileImage => 2
  }

  /** A statement parameter. */
  datatype Param = Text(s: string) | Id(n: int)

  /** The columns given a value, with the value, in column order. */
  function Given(changes: seq<(Column, Option<string>)>): (r: seq<(Column, string)>)
    ensures |r| <= |changes|
    ensures forall c, v :: (c, v) in r <==> (c, Some(v)) in changes
  {
    if changes == [] then []
    else
      var rest := Given(changes[1..]);
      assert forall x :: x in changes[1..] ==> x in changes;
      if changes[0].1.Some? then [(changes[0].0, changes[0].1.value)] + rest else rest
  }

  /** `', '.join(parts)`. */
  function JoinComma(parts: seq<string>): string {
    if |parts| == 0 then ""
    else if |parts| == 1 then parts[0]
    else parts[0] + ", " + JoinComma(parts[1..])
  }

  lemma {:induction false} JoinCommaMarks(parts: seq<string>)
    requires forall i :: 0 <= i < |parts| ==> Marks(parts[i]) == 1
    ensures Marks(JoinComma(parts)) == |parts|
  {
    if |parts| > 1 {
      JoinCommaMarks(parts[1..]);
      Unmarked(", ");
    }
  }

  /** The statement `update_user_profile` runs. */
  datatype Statement = Statement(sql: string, params: seq<Param>)

  function Assignment(c: Column): string {
    ColumnName(c) + " = ?"
  }

  /** The `column = ?` clauses for the given fields. */
  function Clauses(given: seq<(Column, string)>): (r: seq<string>)
    ensures |r| == |given|
    ensures forall i :: 0 <= i < |r| ==> r[i] == Assignment(given[i].0)
  {
    seq(|given|, i requires 0 <= i < |given| => Assignment(given[i].0))
  }

  /** The statement text for the given clauses. */
  function UpdateSql(clauses: seq<string>): string {
    UpdatePrefix + JoinComma(clauses) + WhereSuffix
  }

  /** `update_user_profile(user_id, first_name, last_name, profile_image)`:
      nothing to run (the method returns `False`) when every field is `None`;
      otherwise an UPDATE with one `column = ?` per given field, in the
      fixed column order, and the parameters in the same order followed by
      the user id. The statement has exactly one placeholder per parameter. */
  function ProfileUpdate(userId: int, firstName: Option<string>, lastName: Option<string>, profileImage: Option<string>)
    : (r: Option<Statement>)
    ensures r.None? <==> firstName.None? && lastName.None? && profileImage.None?
    ensures r.Some? ==>
              var given := Given([(FirstName, firstName), (LastName, lastName), (ProfileImage, profileImage)]);
              && GivenInOrder(given)
              && |r.value.params| == |given| + 1
              && r.value.params[|given|] == Id(userId)
              && (forall i :: 0 <= i < |given| ==> r.value.params[i] == Text(given[i].1))
              && r.value.sql == UpdateSql(Clauses(given))
              && Marks(r.value.sql) == |r.value.params|
  {
    var changes := [(FirstName, firstName), (LastName, lastName), (ProfileImage, profileImage)];
    var given := Given(changes);
    assert given == [] <==> firstName.None? && lastName.None? && profileImage.None? by {
      NothingGiven(firstName, lastName, profileImage);
    }
    assert GivenInOrder(given) by {
      GivenKeepsOrder(changes);
    }
    if given == [] then None
    else
      assert Marks(UpdateSql(Clauses(given))) == |given| + 1 by {
        UpdateSqlMarks(given);
      }
      Some(Statement(UpdateSql(Clauses(given)), Params(given, userId)))
  }

  /** The parameters: the given values in order, then the user id. */
  function Params(given: seq<(Column, string)>, userId: int): (r: seq<Param>)
    ensures |r| == |given| + 1 && r[|given|] == Id(userId)
    ensures forall i :: 0 <= i < |given| ==> r[i] == Text(given[i].1)
  {
    seq(|given|, i requires 0 <= i < |given| => Text(given[i].1)) + [Id(userId)]
  }

  lemma NothingGiven(firstName: Option<string>, lastName: Option<string>, profileImage: Option<string>)
    ensures Given([(FirstName, firstName), (LastName, lastName), (ProfileImage, profileImage)]) == []
            <==> firstName.None? && lastName.None? && profileImage.None?
  {
    var changes := [(FirstName, firstName), (LastName, lastName), (ProfileImage, profileImage)];
    var given := Given(changes);
    if firstName.Some? { assert (FirstName, Some(firstName.value)) in changes; assert (FirstName, firstName.value) in given; }
    if lastName.Some? { assert (LastName, Some(lastName.value)) in changes; assert (LastName, lastName.value) in given; }
    if profileImage.Some? { assert (ProfileImage, Some(profileImage.value)) in changes; assert (ProfileImage, profileImage.value) in given; }
    if given != [] {
      assert given[0] in given;
      assert (given[0].0, Some(given[0].1)) in changes;
    }
  }

  lemma UpdateSqlMarks(given: seq<(Column, string)>)
    ensures Marks(UpdateSql(Clauses(given))) == |given| + 1
  {
    ClausesMarked(given);
    SqlMarks(Clauses(given));
  }

  lemma ClausesMarked(given: seq<(Column, string)>)
    ensures forall i :: 0 <= i < |given| ==> Marks(Clauses(given)[i]) == 1
  {
    forall i | 0 <= i < |given| ensures Marks(Clauses(given)[i]) == 1 {
      AssignmentMark(given[i].0);
    }
  }

  lemma SqlMarks(clauses: seq<string>)
    requires forall i :: 0 <= i < |clauses| ==> Marks(clauses[i]) == 1
    ensures Marks(UpdateSql(clauses)) == |clauses| + 1
  {
    JoinCommaMarks(clauses);
    PrefixUnmarked();
    SuffixMarked();
    MarksAround(UpdatePrefix, JoinComma(clauses), WhereSuffix);
  }

  lemma MarksAround(pre: string, mid: string, post: string)
    ensures Marks(pre + mid + post) == Marks(pre) + Marks(mid) + Marks(post)
  {
    MarksAppend(pre + mid, post);
    MarksAppend(pre, mid);
  }

  lemma MarksAppend(a: string, b: string)
    ensures Marks(a + b) == Marks(a) + Marks(b)
  {
    assert multiset(a + b) == multiset(a) + multiset(b);
  }

  lemma PrefixUnmarked()
    ensures Marks(UpdatePrefix) == 0
  {
    Unmarked(UpdatePrefix);
  }

  lemma SuffixMarked()
    ensures Marks(WhereSuffix) == 1
  {
    OneMark(WhereId);
  }

  const UpdatePrefix: string := "UPDATE users SET "
  const WhereId: string := " WHERE id = "
  const WhereSuffix: string := WhereId + "?"

  /** The number of `?` placeholders in a statement text. */
  function Marks(sql: string): nat {
    multiset(sql)['?']
  }

  lemma Unmarked(s: string)
    requires '?' !in s
    ensures Marks(s) == 0
  {
  }

  lemma AssignmentMark(c: Column)
    ensures Marks(Assignment(c)) == 1
  {
    assert Marks(" = ?") == 1 by {
      OneMark(" = ");
      assert " = " + "?" == " = ?";
    }
    assert Marks(ColumnName(c)) == 0 by {
      ColumnUnmarked(c);
    }
    MarksAppend(ColumnName(c), " = ?");
  }

  lemma ColumnUnmarked(c: Column)
    ensures Marks(ColumnName(c)) == 0
  {
    match c
    case FirstName => Unmarked("first_name");
    case LastName => Unmarked("last_name");
    case ProfileImage => Unmarked("profile_image");
  }

  /** Text without placeholders followed by one placeholder. */
  lemma OneMark(s: string)
    requires '?' !in s
    ensures Marks(s + "?") == 1
  {
    Unmarked(s);
    MarksAppend(s, "?");
  }

  predicate ChangesInOrder(changes: seq<(Column, Option<string>)>) {
    forall i, j :: 0 <= i < j < |changes| ==> Rank(changes[i].0) < Rank(changes[j].0)
  }

  predicate GivenInOrder(given: seq<(Column, string)>) {
    forall i, j :: 0 <= i < j < |given| ==> Rank(given[i].0) < Rank(given[j].0)
  }

  lemma OrderedTail(changes: seq<(Column, Option<string>)>)
    requires ChangesInOrder(changes) && changes != []
    ensures ChangesInOrder(changes[1..])
  {
    forall i, j | 0 <= i < j < |changes[1..]| ensures Rank(changes[1..][i].0) < Rank(changes[1..][j].0) {
      assert changes[1..][i] == changes[i + 1] && changes[1..][j] == changes[j + 1];
    }
  }

  /** Every field given after the first change ranks above it. */
  lemma RestRanksAbove(changes: seq<(Column, Option<string>)>)
    requires ChangesInOrder(changes) && changes != []
    ensures forall x :: x in Given(changes[1..]) ==> Rank(changes[0].0) < Rank(x.0)
  {
    forall x | x in Given(changes[1..]) ensures Rank(changes[0].0) < Rank(x.0) {
      assert (x.0, Some(x.1)) in changes[1..];
      var k :| 0 <= k < |changes[1..]| && changes[1..][k] == (x.0, Some(x.1));
      assert changes[k + 1] == (x.0, Some(x.1));
    }
  }

  /** A given field placed before fields that all rank above it keeps the
      order. */
  lemma ConsInOrder(head: (Column, string), rest: seq<(Column, string)>)
    requires GivenInOrder(rest)
    requires forall x :: x in rest ==> Rank(head.0) < Rank(x.0)
    ensures GivenInOrder([head] + rest)
  {
    var r := [head] + rest;
    forall i, j | 0 <= i < j < |r| ensures Rank(r[i].0) < Rank(r[j].0) {
      assert r[j] == rest[j - 1];
      if i == 0 {
        assert rest[j - 1] in rest;
      } else {
        assert r[i] == rest[i - 1];
      }
    }
  }

  /** The given fields come out in the order of the changes. */
  lemma {:induction false} GivenKeepsOrder(changes: seq<(Column, Option<string>)>)
    requires ChangesInOrder(changes)
    ensures GivenInOrder(Given(changes))
  {
    if changes != [] {
      OrderedTail(changes);
      GivenKeepsOrder(changes[1..]);
      RestRanksAbove(changes);
      if changes[0].1.Some? {
        ConsInOrder((changes[0].0, changes[0].1.value), Given(changes[1..]));
      }
    }
  }
}
