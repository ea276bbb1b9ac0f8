/** `src/utils.py`: the pastel palette, the distances between every two
    values, and the least positive one among them. */
module Utils {

  function Abs(x: real): (r: real)
    ensures r >= 0.0 && (r == x || r == -x)
  {
    if x < 0.0 then -x else x
  }

  /** `generate_pastel_palette(n)`: the colour of hue `i / n` for each
      `i < n`; `colour` stands for the conversion from a hue at fixed
      saturation and value to a hexadecimal string. */
  method GeneratePastelPalette(numberOfColors: int, colour: real -> string) returns (palette: seq<string>)
    ensures numberOfColors < 1 ==> palette == []
    ensures numberOfColors >= 1 ==> |palette| == numberOfColors
    ensures forall i :: 0 <= i < |palette| ==> palette[i] == colour(i as real / numberOfColors as real)
  {
    if numberOfColors < 1 {
      return [];
    }
    palette := [];
    var index := 0;
    while index < numberOfColors
      invariant 0 <= index <= numberOfColors && |palette| == index
      invariant forall i :: 0 <= i < index ==> palette[i] == colour(i as real / numberOfColors as real)
    {
      var hue := index as real / numberOfColors as real;
      palette := palette + [colour(hue)];
      index := index + 1;
    }
  }

  /** The distances from `values[i]` to each later value, in order. */
  function Row(values: seq<real>, i: nat): (r: seq<real>)
    requires i < |values|
    ensures |r| == |values| - i - 1
    ensures forall k :: 0 <= k < |r| ==> r[k] == Abs(values[i] - values[i + 1 + k])
  {
    seq(|values| - i - 1, k requires 0 <= k < |values| - i - 1 => Abs(values[i] - values[i + 1 + k]))
  }

  /** The distances appended by the first `i` rounds of the outer loop. */
  function Rows(values: seq<real>, i: nat): seq<real>
    requires i <= |values|
  {
    if i == 0 then [] else Rows(values, i - 1) + Row(values, i - 1)
  }

  /** One distance per pair `a < b`, in the order the loops visit them. */
  function PairDistances(values: seq<real>): seq<real> {
    Rows(values, |values|)
  }

  predicate Sorted(s: seq<real>) {
    forall i, j :: 0 <= i < j < |s| ==> s[i] <= s[j]
  }

  lemma SortedCons(h: real, t: seq<real>)
    requires Sorted(t) && forall y :: y in t ==> h <= y
    ensures Sorted([h] + t)
  {
    forall i, j | 0 <= i < j < |[h] + t| ensures ([h] + t)[i] <= ([h] + t)[j] {
      assert ([h] + t)[j] == t[j - 1] && t[j - 1] in t;
      if i > 0 {
        assert ([h] + t)[i] == t[i - 1];
      }
    }
  }

  /** `x` put in its place in a sorted sequence. */
  function Insert(x: real, s: seq<real>): (r: seq<real>)
    requires Sorted(s)
    ensures |r| == |s| + 1 && multiset(r) == multiset(s) + multiset{x}
    ensures Sorted(r)
  {
    if s == [] then [x]
    else if x <= s[0] then [x] + s
    else
      assert s == [s[0]] + s[1..];
      var tail := Insert(x, s[1..]);
      forall y | y in tail ensures s[0] <= y {
        assert y in multiset(tail);
        assert y in multiset(s[1..]) || y == x;
      }
      SortedCons(s[0], tail);
      [s[0]] + tail
  }

  /** `list.sort()`: the same values in ascending order. */
  function Sort(s: seq<real>): (r: seq<real>)
    ensures |r| == |s| && Sorted(r) && multiset(r) == multiset(s)
  {
    if s == [] then []
    else
      assert s == s[..|s| - 1] + [s[|s| - 1]];
      Insert(s[|s| - 1], Sort(s[..|s| - 1]))
  }

  /** `get_all_distances`: the nested loops, then the sort. */
  method GetAllDistances(values: seq<real>) returns (distances: seq<real>)
    ensures distances == Sort(PairDistances(values))
  {
    if |values| < 2 {
      FewValuesNoDistances(values);
      return [];
    }
    distances := [];
    var first := 0;
    while first < |values|
      invariant 0 <= first <= |values|
      invariant distances == Rows(values, first)
    {
      var second := first + 1;
      while second < |values|
        invariant first + 1 <= second <= |values|
        invariant distances == Rows(values, first) + Row(values, first)[..second - first - 1]
      {
        assert Row(values, first)[..second - first] ==
               Row(values, first)[..second - first - 1] + [Abs(values[first] - values[second])];
        distances := distances + [Abs(values[first] - values[second])];
        second := second + 1;
      }
      assert Row(values, first)[..second - first - 1] == Row(values, first);
      assert Rows(values, first + 1) == Rows(values, first) + Row(values, first);
      first := first + 1;
    }
    distances := Sort(distances);
  }

  /** Fewer than two values have no pair. */
  lemma FewValuesNoDistances(values: seq<real>)
    requires |values| < 2
    ensures PairDistances(values) == []
  {
    if |values| == 1 {
      assert Rows(values, 1) == Rows(values, 0) + Row(values, 0);
    }
  }

  /** The first `i` rounds append `i * (2n - i - 1) / 2` distances. */
  lemma {:induction false} RowsLength(values: seq<real>, i: nat)
    requires i <= |values|
    ensures 2 * |Rows(values, i)| == i * (2 * |values| - i - 1)
  {
    if i > 0 {
      RowsLength(values, i - 1);
      var n := |values|;
      calc {
        2 * |Rows(values, i)|;
        2 * |Rows(values, i - 1)| + 2 * (n - i);
        (i - 1) * (2 * n - i) + 2 * (n - i);
        i * (2 * n - i - 1);
      }
    }
  }

  /** n values have `n * (n - 1) / 2` pairs. */
  lemma PairDistancesLength(values: seq<real>)
    ensures |PairDistances(values)| == |values| * (|values| - 1) / 2
    ensures |Sort(PairDistances(values))| == |PairDistances(values)|
  {
    RowsLength(values, |values|);
    var s := PairDistances(values);
    assert |s| == |multiset(s)| == |multiset(Sort(s))| == |Sort(s)|;
  }

  /** The first `i` rounds hold exactly the distances of the pairs whose
      first element comes before position `i`. */
  lemma {:induction false} RowsMembers(values: seq<real>, i: nat, x: real)
    requires i <= |values|
    ensures x in Rows(values, i) <==>
              exists a, b :: 0 <= a < i && a < b < |values| && x == Abs(values[a] - values[b])
  {
    if i > 0 {
      RowsMembers(values, i - 1, x);
      var row := Row(values, i - 1);
      if x in row {
        var k :| 0 <= k < |row| && row[k] == x;
        assert x == Abs(values[i - 1] - values[i + k]);
      }
      if exists b :: i - 1 < b < |values| && x == Abs(values[i - 1] - values[b]) {
        var b :| i - 1 < b < |values| && x == Abs(values[i - 1] - values[b]);
        assert row[b - i] == x;
      }
    }
  }

  /** The sorted distances are the distances of all pairs `a < b`. */
  lemma DistancesMembers(values: seq<real>, x: real)
    ensures x in Sort(PairDistances(values)) <==>
              exists a, b :: 0 <= a < b < |values| && x == Abs(values[a] - values[b])
  {
    RowsMembers(values, |values|, x);
    var s := PairDistances(values);
    assert x in Sort(s) <==> x in multiset(Sort(s));
    assert x in s <==> x in multiset(s);
  }

  /** The strictly positive elements of `s`, in order. */
  function Positives(s: seq<real>): (r: seq<real>)
    ensures forall x :: x in r <==> x in s && x > 0.0
  {
    if s == [] then []
    else if s[0] > 0.0 then [s[0]] + Positives(s[1..])
    else Positives(s[1..])
  }

  /** Python's `min` of a non-empty list. */
  function Min(s: seq<real>): (m: real)
    requires s != []
    ensures m in s && forall x :: x in s ==> m <= x
  {
    if |s| == 1 then s[0]
    else
      var rest := Min(s[1..]);
      assert forall x :: x in s ==> x == s[0] || x in s[1..];
      if s[0] <= rest then s[0] else rest
  }

  /** `get_first_positive_minimal_distance`. */
  function FirstPositiveMinimalDistance(values: seq<real>): real {
    var positive := Positives(Sort(PairDistances(values)));
    if positive != [] then Min(positive) else 0.0
  }

  /** The least distance between two different values, or 0.0 exactly when
      all values are equal (in particular when there are fewer than two). */
  lemma FirstPositiveMinimalDistanceIsLeast(values: seq<real>)
    ensures FirstPositiveMinimalDistance(values) >= 0.0
    ensures FirstPositiveMinimalDistance(values) == 0.0 <==>
              forall a, b :: 0 <= a < b < |values| ==> values[a] == values[b]
    ensures FirstPositiveMinimalDistance(values) > 0.0 ==>
              && (exists a, b :: 0 <= a < b < |values| && FirstPositiveMinimalDistance(values) == Abs(values[a] - values[b]))
              && forall a, b :: 0 <= a < b < |values| && values[a] != values[b] ==>
                   FirstPositiveMinimalDistance(values) <= Abs(values[a] - values[b])
  {
    var sorted := Sort(PairDistances(values));
    var positive := Positives(sorted);
    var r := FirstPositiveMinimalDistance(values);
    if positive != [] {
      DistancesMembers(values, r);
      forall a, b | 0 <= a < b < |values| && values[a] != values[b]
        ensures r <= Abs(values[a] - values[b])
      {
        DistancesMembers(values, Abs(values[a] - values[b]));
      }
      assert positive[0] in sorted;
      DistancesMembers(values, positive[0]);
    } else {
      forall a, b | 0 <= a < b < |values|
        ensures values[a] == values[b]
      {
        DistancesMembers(values, Abs(values[a] - values[b]));
      }
    }
  }
}
