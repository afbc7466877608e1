/** Display names: the underscore-to-space normalisation applied both to a
    record's state name and to the brushed selection, and the domain of the
    band scale, which keeps each name once, at its first occurrence. */
module Names {

  /** `s.replaceAll("_", " ")`, equally `s.replace(/_/g, " ")`: every
      underscore becomes a space and every other character stays. */
  function SpaceUnderscores(s: string): (r: string)
    ensures |r| == |s|
    ensures forall i :: 0 <= i < |s| ==> r[i] == if s[i] == '_' then ' ' else s[i]
    ensures '_' !in r
  {
    if s == [] then []
    else SpaceUnderscores(s[..|s| - 1]) + [if s[|s| - 1] == '_' then ' ' else s[|s| - 1]]
  }

  /** Normalising twice is normalising once. */
  lemma SpaceUnderscoresIdempotent(s: string)
    ensures SpaceUnderscores(SpaceUnderscores(s)) == SpaceUnderscores(s)
  {
    var r := SpaceUnderscores(s);
    assert forall i :: 0 <= i < |r| ==> r[i] != '_';
  }

  /** A name without underscores is its own normal form. */
  lemma SpaceUnderscoresKeepsPlainNames(s: string)
    requires '_' !in s
    ensures SpaceUnderscores(s) == s
  {
    assert forall i :: 0 <= i < |s| ==> s[i] != '_';
  }

  /** The domain an ordinal (band) scale keeps for `domain(names)`: the
      names in order, each after its first occurrence dropped. */
  function Distinct(names: seq<string>): (r: seq<string>)
    ensures forall x :: x in r <==> x in names
    ensures forall i, j :: 0 <= i < j < |r| ==> r[i] != r[j]
    ensures |r| <= |names|
  {
    if names == [] then []
    else
      var d := Distinct(names[..|names| - 1]);
      if names[|names| - 1] in d then d else d + [names[|names| - 1]]
  }

  /** Names that are already unique form the domain unchanged. */
  lemma {:induction false} DistinctOfUnique(names: seq<string>)
    requires forall i, j :: 0 <= i < j < |names| ==> names[i] != names[j]
    ensures Distinct(names) == names
  {
    if names != [] {
      var front := names[..|names| - 1];
      DistinctOfUnique(front);
      assert names[|names| - 1] !in front;
      assert front + [names[|names| - 1]] == names;
    }
  }
}
