/** `src/ui/utils/fresque_aeromaps_UI_constants.py`: the group-count bounds,
    the colour palettes and the conversion of a style dictionary to an
    HTML style attribute. */
module UIConstants {
  import Strings

  const MinNumberOfGroups := 1
  const DefaultNumberOfGroups := 3
  const MaxNumberOfGroups := 10

  /** The palette of the group-comparison graph: three colours for the
      reference lines and areas, then one per group. */
  const GroupComparisonColours: seq<string> := [
    "#8c564b", "#000000", "#d62728", "#1f77b4",
    "#ff7f0e", "#2ca02c", "#8c564b", "#9467bd",
    "#e377c2", "#7f7f7f", "#bcbd22", "#17becf",
    "#b2df8a"
  ]

  /** One `key: value` declaration. */
  function Declaration(key: string, value: string): string {
    key + ": " + value
  }

  /** The declarations of a style dictionary, in its order. */
  function Declarations(styles: seq<(string, string)>): (r: seq<string>)
    ensures |r| == |styles|
    ensures forall i :: 0 <= i < |styles| ==> r[i] == Declaration(styles[i].0, styles[i].1)
  {
    seq(|styles|, i requires 0 <= i < |styles| => Declaration(styles[i].0, styles[i].1))
  }

  /** `get_style_string`: the declarations joined by "; ", then every '_'
      turned into '-'. The dictionary is given as its items in order. */
  function StyleString(styles: seq<(string, string)>): string {
    Strings.ReplaceChar(Strings.Join(Declarations(styles), "; "), '_', '-')
  }

  /** No underscore survives, in keys or values. */
  lemma StyleStringHasNoUnderscore(styles: seq<(string, string)>)
    ensures forall i :: 0 <= i < |StyleString(styles)| ==> StyleString(styles)[i] != '_'
  {
  }

  /** An empty dictionary gives the empty string. */
  lemma EmptyStyleString()
    ensures StyleString([]) == ""
  {
  }

  /** Replacing in the joined string is replacing in every key and value
      and joining the results: the separators hold no underscore. */
  lemma {:induction false} StyleStringEntrywise(styles: seq<(string, string)>)
    ensures StyleString(styles) ==
            Strings.Join(seq(|styles|, i requires 0 <= i < |styles| =>
              Declaration(Strings.ReplaceChar(styles[i].0, '_', '-'), Strings.ReplaceChar(styles[i].1, '_', '-'))), "; ")
  {
    ReplacedJoin(Declarations(styles));
    var replaced := seq(|styles|, i requires 0 <= i < |styles| =>
      Declaration(Strings.ReplaceChar(styles[i].0, '_', '-'), Strings.ReplaceChar(styles[i].1, '_', '-')));
    forall i | 0 <= i < |styles|
      ensures Strings.ReplaceChar(Declarations(styles)[i], '_', '-') == replaced[i]
    {
      var key, value := styles[i].0, styles[i].1;
      Strings.ReplaceCharConcat(key + ": ", value, '_', '-');
      Strings.ReplaceCharConcat(key, ": ", '_', '-');
    }
    assert Replaced(Declarations(styles)) == replaced;
  }

  function Replaced(parts: seq<string>): (r: seq<string>)
    ensures |r| == |parts|
    ensures forall i :: 0 <= i < |parts| ==> r[i] == Strings.ReplaceChar(parts[i], '_', '-')
  {
    seq(|parts|, i requires 0 <= i < |parts| => Strings.ReplaceChar(parts[i], '_', '-'))
  }

  /** `"; ".join(parts).replace("_", "-")` is the join of the replaced parts. */
  lemma {:induction false} ReplacedJoin(parts: seq<string>)
    ensures Strings.ReplaceChar(Strings.Join(parts, "; "), '_', '-') == Strings.Join(Replaced(parts), "; ")
  {
    if |parts| > 1 {
      ReplacedJoin(parts[1..]);
      Strings.ReplaceCharConcat(parts[0] + "; ", Strings.Join(parts[1..], "; "), '_', '-');
      Strings.ReplaceCharConcat(parts[0], "; ", '_', '-');
      assert Replaced(parts[1..]) == Replaced(parts)[1..];
    }
  }

  /** The group-count bounds are ordered, and the palette holds three
      colours more than the largest count allows groups. */
  lemma GroupCountBounds()
    ensures MinNumberOfGroups <= DefaultNumberOfGroups <= MaxNumberOfGroups
    ensures |GroupComparisonColours| == MaxNumberOfGroups + 3
  {
  }
}
