/** `get_top_colors`: the most frequent colours of a region.  An empty
    region (or a failure while resampling it) gives `n` white sentinels;
    otherwise the resampled pixels are reduced to their distinct values with
    occurrence counts, ordered by descending count, and the first
    `min(n, #distinct)` are returned with their channels turned from BGR into
    RGB order. */
module DominantColors {
  import opened Imaging

  /** Occurrences of p in s. */
  function Count(s: seq<Pixel>, p: Pixel): (n: nat)
    ensures n > 0 <==> p in s
    decreases |s|
  {
    if s == [] then 0
    else
      assert s == s[..|s| - 1] + [s[|s| - 1]];
      Count(s[..|s| - 1], p) + (if s[|s| - 1] == p then 1 else 0)
  }

  ghost predicate NoDups<T>(s: seq<T>) {
    forall i, j :: 0 <= i < j < |s| ==> s[i] != s[j]
  }

  function Elems(s: seq<Pixel>): set<Pixel> {
    set p | p in s
  }

  /** The distinct values of s, each once, in order of first occurrence. */
  function Distinct(s: seq<Pixel>): seq<Pixel>
    decreases |s|
  {
    if s == [] then []
    else
      var u := Distinct(s[..|s| - 1]);
      if s[|s| - 1] in u then u else u + [s[|s| - 1]]
  }

  lemma {:induction false} DistinctSpec(s: seq<Pixel>)
    ensures NoDups(Distinct(s))
    ensures forall p :: p in Distinct(s) <==> p in s
    decreases |s|
  {
    if s != [] {
      assert s == s[..|s| - 1] + [s[|s| - 1]];
      DistinctSpec(s[..|s| - 1]);
    }
  }

  /** u lists colours by non-increasing number of occurrences in s. */
  ghost predicate SortedByCount(u: seq<Pixel>, s: seq<Pixel>) {
    forall i, j :: 0 <= i < j < |u| ==> Count(s, u[i]) >= Count(s, u[j])
  }

  /** Places x before the first element that occurs no more often than it. */
  function Insert(x: Pixel, u: seq<Pixel>, s: seq<Pixel>): seq<Pixel>
    decreases |u|
  {
    if u == [] || Count(s, x) >= Count(s, u[0]) then [x] + u
    else [u[0]] + Insert(x, u[1..], s)
  }

  lemma {:induction false} InsertMembers(x: Pixel, u: seq<Pixel>, s: seq<Pixel>)
    ensures |Insert(x, u, s)| == |u| + 1
    ensures forall p :: p in Insert(x, u, s) <==> p in u || p == x
    ensures NoDups(u) && x !in u ==> NoDups(Insert(x, u, s))
    decreases |u|
  {
    if u != [] && Count(s, x) < Count(s, u[0]) {
      InsertMembers(x, u[1..], s);
      assert NoDups(u) ==> NoDups(u[1..]) && u[0] !in u[1..];
    }
  }

  lemma {:induction false} InsertSorted(x: Pixel, u: seq<Pixel>, s: seq<Pixel>)
    requires SortedByCount(u, s)
    ensures SortedByCount(Insert(x, u, s), s)
    decreases |u|
  {
    if u != [] && Count(s, x) < Count(s, u[0]) {
      InsertSorted(x, u[1..], s);
      InsertMembers(x, u[1..], s);
      var rest := Insert(x, u[1..], s);
      forall p | p in rest
        ensures Count(s, u[0]) >= Count(s, p)
      {
        if p != x {
          var k :| 0 <= k < |u[1..]| && u[1..][k] == p;
          assert u[k + 1] == p;
        }
      }
    }
  }

  /** Orders a list of colours by descending count (insertion sort). */
  function SortByCount(u: seq<Pixel>, s: seq<Pixel>): seq<Pixel>
    decreases |u|
  {
    if u == [] then [] else Insert(u[0], SortByCount(u[1..], s), s)
  }

  lemma {:induction false} SortByCountSpec(u: seq<Pixel>, s: seq<Pixel>)
    requires NoDups(u)
    ensures SortedByCount(SortByCount(u, s), s) && NoDups(SortByCount(u, s))
    ensures |SortByCount(u, s)| == |u|
    ensures forall p :: p in SortByCount(u, s) <==> p in u
    decreases |u|
  {
    if u != [] {
      assert u == [u[0]] + u[1..];
      SortByCountSpec(u[1..], s);
      InsertMembers(u[0], SortByCount(u[1..], s), s);
      InsertSorted(u[0], SortByCount(u[1..], s), s);
    }
  }

  /** A duplicate-free list has as many elements as its set of values. */
  lemma {:induction false} NoDupsCard(u: seq<Pixel>)
    requires NoDups(u)
    ensures |Elems(u)| == |u|
    decreases |u|
  {
    if u != [] {
      var v := u[..|u| - 1];
      NoDupsCard(v);
      assert Elems(u) == Elems(v) + {u[|u| - 1]};
      assert u[|u| - 1] !in Elems(v);
    }
  }

  function Min(a: nat, b: nat): nat {
    if a <= b then a else b
  }

  /** What the non-empty branch of `get_top_colors` promises of its result r
      for the working pixels px: as many entries as asked for or as there are
      distinct colours, whichever is fewer; each entry an in-range RGB triple
      whose BGR form is one of the pixels; no colour twice; counts
      non-increasing along r; and no pixel left out occurs more often than
      any colour included. */
  ghost predicate IsTop(px: seq<Pixel>, n: nat, r: seq<Rgb>) {
    && |r| == Min(n, |Elems(px)|)
    && (forall i :: 0 <= i < |r| ==> InRange(r[i]) && ToPixel(r[i]) in px)
    && NoDups(r)
    && (forall i, j :: 0 <= i < j < |r| ==> Count(px, ToPixel(r[i])) >= Count(px, ToPixel(r[j])))
    && (forall p, i :: p in px && ToRgb(p) !in r && 0 <= i < |r| ==>
          Count(px, p) <= Count(px, ToPixel(r[i])))
  }

  /** Counting, ordering and cutting of the resampled pixels. */
  function RankColors(px: seq<Pixel>, n: nat): seq<Rgb> {
    var u := SortByCount(Distinct(px), px);
    var k := Min(n, |u|);
    seq(k, i requires 0 <= i < k => ToRgb(u[i]))
  }

  lemma RankColorsIsTop(px: seq<Pixel>, n: nat)
    ensures IsTop(px, n, RankColors(px, n))
  {
    DistinctSpec(px);
    var u := SortByCount(Distinct(px), px);
    SortByCountSpec(Distinct(px), px);
    RankedIsTop(px, n, u, RankColors(px, n));
  }

  lemma RankedIsTop(px: seq<Pixel>, n: nat, u: seq<Pixel>, r: seq<Rgb>)
    requires NoDups(u) && SortedByCount(u, px)
    requires forall p :: p in u <==> p in px
    requires |r| == Min(n, |u|)
    requires forall i :: 0 <= i < |r| ==> r[i] == ToRgb(u[i])
    ensures IsTop(px, n, r)
  {
    NoDupsCard(u);
    assert Elems(u) == Elems(px);
    forall p, i | p in px && ToRgb(p) !in r && 0 <= i < |r|
      ensures Count(px, p) <= Count(px, ToPixel(r[i]))
    {
      var t :| 0 <= t < |u| && u[t] == p;
      assert ToRgb(u[t]) !in r;
      assert i < t;
    }
  }

  /** `[(255, 255, 255)] * n`: the sentinel for "no data". */
  function Whites(n: nat): seq<Rgb> {
    seq(n, _ => White)
  }

  /** `get_top_colors(roi, n)`.  `resize` stands for `cv2.resize(roi, (100, 100))`
      followed by the reshape into a pixel list; None means it raised. */
  function TopColors(roi: Image, n: nat, resize: Image -> Option<seq<Pixel>>): seq<Rgb> {
    if IsEmpty(roi) then Whites(n)
    else match resize(roi)
      case None => Whites(n)
      case Some(px) => RankColors(px, n)
  }

  /** An empty region, or one whose resampling raised, gives n whites; any
      other gives the top colours of the resampled pixels.  Every entry is an
      in-range RGB triple. */
  lemma TopColorsSpec(roi: Image, n: nat, resize: Image -> Option<seq<Pixel>>)
    ensures var r := TopColors(roi, n, resize);
            && (forall i :: 0 <= i < |r| ==> InRange(r[i]))
            && (IsEmpty(roi) || resize(roi).None? ==> |r| == n && forall i :: 0 <= i < n ==> r[i] == White)
            && (!IsEmpty(roi) && resize(roi).Some? ==> IsTop(resize(roi).value, n, r))
  {
    if !IsEmpty(roi) && resize(roi).Some? {
      RankColorsIsTop(resize(roi).value, n);
    }
  }

  /** `get_top_colors` as written: the early returns and the loop that
      appends the first `min(n, #distinct)` colours, ranked by count. */
  method GetTopColors(roi: Image, n: nat, resize: Image -> Option<seq<Pixel>>) returns (colors: seq<Rgb>)
    ensures colors == TopColors(roi, n, resize)
  {
    if IsEmpty(roi) {
      return Whites(n);
    }
    var pixels := resize(roi);
    if pixels.None? {
      return Whites(n);
    }
    var ranked := SortByCount(Distinct(pixels.value), pixels.value);
    colors := [];
    for i := 0 to Min(n, |ranked|)
      invariant |colors| == i && forall j :: 0 <= j < i ==> colors[j] == ToRgb(ranked[j])
    {
      colors := colors + [ToRgb(ranked[i])];
    }
  }

  /** Asked for one colour of a region whose resampling yields pixels, the
      result is the single most frequent colour. */
  lemma TopColorOfRegion(roi: Image, resize: Image -> Option<seq<Pixel>>)
    requires !IsEmpty(roi) && resize(roi).Some? && resize(roi).value != []
    ensures |TopColors(roi, 1, resize)| == 1
    ensures forall p :: p in resize(roi).value ==>
              Count(resize(roi).value, p) <= Count(resize(roi).value, ToPixel(TopColors(roi, 1, resize)[0]))
  {
    var px := resize(roi).value;
    var r := TopColors(roi, 1, resize);
    TopColorsSpec(roi, 1, resize);
    assert px[0] in Elems(px);
    forall p | p in px
      ensures Count(px, p) <= Count(px, ToPixel(r[0]))
    {
      if ToRgb(p) in r {
        assert ToPixel(r[0]) == p;
      }
    }
  }
}
