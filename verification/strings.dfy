/** Substring search (`strings.Contains`) and the ordered pattern classifier
    that the exporter's stderr checks are built from, plus `Join` and
    `SplitLines`, which serve the folded-format model of the mock profile
    (the exporter itself joins only for logging and never splits). */
module Strings {
  import opened Wrappers

  /** `sub` occurs in `s` starting at index `i`. */
  predicate OccursAt(s: string, sub: string, i: int) {
    0 <= i && i + |sub| <= |s| && s[i..i + |sub|] == sub
  }

  /** `strings.Contains(s, sub)`: case-sensitive, character-by-character search. */
  function Contains(s: string, sub: string): (r: bool)
    ensures r <==> exists i :: OccursAt(s, sub, i)
    decreases |s|
  {
    if sub <= s then
      assert OccursAt(s, sub, 0);
      true
    else if |s| == 0 then
      false
    else
      var r := Contains(s[1..], sub);
      if r then
        var i :| OccursAt(s[1..], sub, i);
        assert OccursAt(s, sub, i + 1);
        true
      else
        assert forall i :: OccursAt(s, sub, i) ==> i > 0 && OccursAt(s[1..], sub, i - 1);
        false
  }

  /** A string contains itself wherever it is placed. */
  lemma ContainsMiddle(a: string, sub: string, b: string)
    ensures Contains(a + sub + b, sub)
  {
    assert OccursAt(a + sub + b, sub, |a|);
  }

  /** A string that lacks some character of `sub` cannot contain `sub`;
      this is how case-sensitivity is witnessed on concrete messages. */
  lemma NotContainsWithoutChar(s: string, sub: string, k: nat)
    requires k < |sub| && sub[k] !in s
    ensures !Contains(s, sub)
  {
    forall i | 0 <= i && i + |sub| <= |s|
      ensures !OccursAt(s, sub, i)
    {
      assert s[i..i + |sub|][k] == s[i + k];
    }
  }

  /** Index of the first pattern, from `from` on, that occurs in `text`. */
  function FirstMatchFrom(patterns: seq<string>, text: string, from: nat): (r: Option<nat>)
    requires from <= |patterns|
    ensures r.Some? ==> from <= r.value < |patterns| && Contains(text, patterns[r.value])
    ensures r.Some? ==> forall j :: from <= j < r.value ==> !Contains(text, patterns[j])
    ensures r.None? ==> forall j :: from <= j < |patterns| ==> !Contains(text, patterns[j])
    decreases |patterns| - from
  {
    if from == |patterns| then None
    else if Contains(text, patterns[from]) then Some(from)
    else FirstMatchFrom(patterns, text, from + 1)
  }

  /** The ordered classifier: the index of the first pattern occurring in
      `text`, or `None` when no pattern occurs. Earlier patterns win. */
  function FirstMatch(patterns: seq<string>, text: string): (r: Option<nat>)
    ensures r.Some? ==> r.value < |patterns| && Contains(text, patterns[r.value])
    ensures r.Some? ==> forall j :: 0 <= j < r.value ==> !Contains(text, patterns[j])
    ensures r.None? <==> forall j :: 0 <= j < |patterns| ==> !Contains(text, patterns[j])
  {
    FirstMatchFrom(patterns, text, 0)
  }

  /** `strings.Join(parts, sep)`, here joining the frames of a folded stack. */
  function Join(parts: seq<string>, sep: string): (r: string)
    ensures |parts| == 1 ==> r == parts[0]
    ensures |parts| > 0 ==> parts[0] <= r
  {
    if |parts| == 0 then ""
    else if |parts| == 1 then parts[0]
    else parts[0] + sep + Join(parts[1..], sep)
  }

  /** Index of the first occurrence of `c` in `s`. */
  function IndexOfChar(s: string, c: char): (k: nat)
    requires c in s
    ensures k < |s| && s[k] == c && c !in s[..k]
  {
    if s[0] == c then 0 else 1 + IndexOfChar(s[1..], c)
  }

  /** `strings.Split(s, "\n")`: the newline-separated pieces of `s`; a text
      ending in a newline has an empty last piece. Used to state the line
      structure of the mock profile. */
  function SplitLines(s: string): (r: seq<string>)
    ensures |r| > 0
    decreases |s|
  {
    if '\n' !in s then [s]
    else
      var k := IndexOfChar(s, '\n');
      [s[..k]] + SplitLines(s[k + 1..])
  }

  /** Splitting peels off a leading newline-free line. */
  lemma SplitLinesCons(a: string, b: string)
    requires '\n' !in a
    ensures SplitLines(a + "\n" + b) == [a] + SplitLines(b)
  {
    var s := a + "\n" + b;
    assert s[|a|] == '\n';
    var k := IndexOfChar(s, '\n');
    assert forall i :: 0 <= i < |a| ==> s[i] == a[i];
    assert k == |a|;
    assert s[..k] == a;
    assert s[k + 1..] == b;
  }
}
