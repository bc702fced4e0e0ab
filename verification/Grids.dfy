/** Two-dimensional pixel arrays (numpy arrays indexed `[row][column]`) and
    the slicing the source uses to cut face regions out of them. */
module Grids {

  /** Number of columns: the length of the first row. */
  function Width<T>(g: seq<seq<T>>): nat {
    if |g| == 0 then 0 else |g[0]|
  }

  /** All rows have the same length, as in a numpy array. */
  predicate Rect<T>(g: seq<seq<T>>) {
    forall i :: 0 <= i < |g| ==> |g[i]| == Width(g)
  }

  /** A rectangular array; `|g|` is `shape[0]` and `Width(g)` is `shape[1]`. */
  type Grid<T> = g: seq<seq<T>> | Rect(g) witness []

  /** numpy's `size`: the number of elements. */
  function Size<T>(g: seq<seq<T>>): nat {
    |g| * Width(g)
  }

  /** Exactly `h` rows of exactly `w` elements. */
  predicate HasShape<T>(g: seq<seq<T>>, h: nat, w: nat) {
    |g| == h && forall i :: 0 <= i < h ==> |g[i]| == w
  }

  /** A half-open index range `[lo, hi)`. */
  datatype Span = Span(lo: nat, hi: nat) {
    function Length(): nat requires lo <= hi { hi - lo }

    predicate Contains(i: int) { lo <= i < hi }
  }

  /** The indices Python's `a[start:stop]` selects from an axis of length `n`,
      for non-negative bounds: both ends are clamped to the axis, and a stop
      before the start selects nothing. */
  function SliceSpan(n: nat, start: nat, stop: nat): (r: Span)
    ensures r.lo <= r.hi <= n
    ensures forall i :: r.Contains(i) <==> start <= i < stop && i < n
  {
    var lo := if start < n then start else n;
    var hi := if stop < n then stop else n;
    if hi < lo then Span(lo, lo) else Span(lo, hi)
  }

  /** `g[rows.lo:rows.hi, cols.lo:cols.hi]` for in-bounds spans. */
  function Crop<T>(g: Grid<T>, rows: Span, cols: Span): (r: Grid<T>)
    requires rows.lo <= rows.hi <= |g|
    requires cols.lo <= cols.hi <= Width(g)
    ensures |r| == rows.Length()
    ensures |r| > 0 ==> Width(r) == cols.Length()
    ensures Size(r) == rows.Length() * cols.Length()
    ensures forall i, j :: 0 <= i < |r| && 0 <= j < |r[i]| ==>
              r[i][j] == g[rows.lo + i][cols.lo + j]
  {
    var r := seq(rows.hi - rows.lo, i requires 0 <= i < rows.hi - rows.lo =>
      g[rows.lo + i][cols.lo..cols.hi]);
    assert Rect(r) by {
      forall i | 0 <= i < |r| ensures |r[i]| == Width(r) {
        assert |r[i]| == cols.hi - cols.lo == |r[0]|;
      }
    }
    r
  }
}
