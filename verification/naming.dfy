/** `rgb_to_name`: the name of a colour.  An exact lookup (webcolors'
    own `rgb_to_name`, an opaque collaborator here) is tried first; when it
    finds nothing, every entry of a reference table is scored by squared
    Euclidean distance in RGB, the scores are gathered in a dict keyed by
    distance (so a later entry at an equal distance overwrites an earlier
    one), and the name stored under the smallest key is returned. */
module ColorNaming {
  import opened Imaging

  /** One (name, colour) entry of the reference table, in iteration order. */
  datatype NamedColor = NamedColor(name: string, rgb: Rgb)

  function Sq(x: int): nat {
    x * x
  }

  /** `(r_c - r)**2 + (g_c - g)**2 + (b_c - b)**2`. */
  function SqDist(a: Rgb, c: Rgb): (d: nat)
    ensures d == 0 <==> a == c
  {
    Sq(a.r - c.r) + Sq(a.g - c.g) + Sq(a.b - c.b)
  }

  /** Entry i of the table is at minimal distance from c, and every later
      entry is strictly farther: i is what the distance-keyed dict keeps. */
  ghost predicate IsLastNearest(table: seq<NamedColor>, c: Rgb, i: nat) {
    && i < |table|
    && (forall j :: 0 <= j < |table| ==> SqDist(table[i].rgb, c) <= SqDist(table[j].rgb, c))
    && (forall j :: i < j < |table| ==> SqDist(table[i].rgb, c) < SqDist(table[j].rgb, c))
  }

  /** Index of the last table entry at minimal distance from c. */
  function LastNearest(table: seq<NamedColor>, c: Rgb): (i: nat)
    requires |table| > 0
    ensures IsLastNearest(table, c, i)
    decreases |table|
  {
    if |table| == 1 then 0
    else
      var k := LastNearest(table[..|table| - 1], c);
      if SqDist(table[|table| - 1].rgb, c) <= SqDist(table[k].rgb, c) then |table| - 1 else k
  }

  /** At most one index is the last nearest one. */
  lemma LastNearestUnique(table: seq<NamedColor>, c: Rgb, i: nat, j: nat)
    requires IsLastNearest(table, c, i) && IsLastNearest(table, c, j)
    ensures i == j
  {
    // both are at the minimal distance, so neither can lie after the other
    assert SqDist(table[i].rgb, c) == SqDist(table[j].rgb, c);
  }

  /** What `rgb_to_name` returns; None when it raises (no exact name and an
      empty table, where `min()` of no keys raises `ValueError`). */
  function ColorName(exact: Rgb -> Option<string>, table: seq<NamedColor>, c: Rgb): Option<string> {
    if exact(c).Some? then exact(c)
    else if |table| == 0 then None
    else Some(table[LastNearest(table, c)].name)
  }

  /** `min(keys)` over the keys of the dict; None when there are none. */
  method MinKey(keys: set<nat>) returns (m: Option<nat>)
    ensures m.None? <==> keys == {}
    ensures m.Some? ==> m.value in keys && forall k :: k in keys ==> m.value <= k
  {
    m := None;
    var rest := keys;
    ghost var seen: set<nat> := {};
    while rest != {}
      invariant rest + seen == keys && rest !! seen
      invariant m.None? <==> seen == {}
      invariant m.Some? ==> m.value in seen && forall k :: k in seen ==> m.value <= k
      decreases rest
    {
      var k :| k in rest;
      if m.None? || k < m.value {
        m := Some(k);
      }
      rest := rest - {k};
      seen := seen + {k};
    }
  }

  /** `rgb_to_name`, with the fallback's dict-filling loop. */
  method RgbToName(exact: Rgb -> Option<string>, table: seq<NamedColor>, c: Rgb)
    returns (name: Option<string>)
    ensures name == ColorName(exact, table, c)
    ensures exact(c).None? && |table| > 0 ==>
              name.Some? && exists i: nat | i < |table| :: IsLastNearest(table, c, i) && name.value == table[i].name
  {
    var found := exact(c);
    if found.Some? {
      return found;
    }
    var minColors: map<nat, string> := map[];
    // for each distance, the index of the entry whose name the dict holds
    ghost var holder: map<nat, nat> := map[];
    for k := 0 to |table|
      invariant minColors.Keys == holder.Keys
      invariant forall d :: d in holder ==>
                  holder[d] < k && SqDist(table[holder[d]].rgb, c) == d
                  && minColors[d] == table[holder[d]].name
                  && forall j :: holder[d] < j < k ==> SqDist(table[j].rgb, c) != d
      invariant forall j :: 0 <= j < k ==> SqDist(table[j].rgb, c) in holder
    {
      var d := SqDist(table[k].rgb, c);
      minColors := minColors[d := table[k].name];
      holder := holder[d := k];
    }
    assert |table| > 0 ==> SqDist(table[0].rgb, c) in minColors.Keys;
    var least := MinKey(minColors.Keys);
    if least.None? {
      return None;
    }
    var i := holder[least.value];
    assert IsLastNearest(table, c, i);
    LastNearestUnique(table, c, i, LastNearest(table, c));
    name := Some(minColors[least.value]);
  }
}
