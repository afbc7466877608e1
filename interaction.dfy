/** What the chart shows on interaction: the tooltip composed on `mouseover`
    of a rectangle, and the highlight overlay for the state brushed in a
    sibling view. */
module Interaction {
  import opened Wrappers
  import opened PlotData
  import opened StackLayout
  import Names

  /** `d.key === 'male' ? 'Male' : 'Female'`. */
  function Label(key: Key): (text: string)
    ensures text == "Male" <==> key == Male
    ensures text == "Female" <==> key == Female
  {
    match key
    case Male => "Male"
    case Female => assert |"Female"| != |"Male"|; "Female"
  }

  /** This key's share of the entry's total rate, in percent; 0 when the
      total rate is not positive. */
  function Share(s: Segment): (pct: real)
    ensures s.data.per100k <= 0.0 ==> pct == 0.0
    ensures s.data.per100k > 0.0 ==> pct * s.data.per100k == Value(s.data, s.key) * 100.0
  {
    if s.data.per100k > 0.0 then Value(s.data, s.key) / s.data.per100k * 100.0 else 0.0
  }

  /** A share lies between 0 and 100 when the value lies between 0 and the
      total rate. */
  lemma ShareWithinPercent(s: Segment)
    requires 0.0 <= Value(s.data, s.key) <= s.data.per100k
    ensures 0.0 <= Share(s) <= 100.0
  {
    if s.data.per100k > 0.0 {
      var v, t := Value(s.data, s.key), s.data.per100k;
      assert v / t <= t / t by {
        assert v / t == v * (1.0 / t) && t / t == t * (1.0 / t);
        assert 1.0 / t > 0.0;
      }
    }
  }

  /** For a record whose male count lies between 0 and its total count, the
      tooltip of either of its segments shows a share between 0 and 100. */
  lemma ShareOfConsistentRecord(r: StateRecord, key: Key, x0: real, x1: real)
    requires Populated(r) && 0 <= r.maleCount <= r.count
    ensures 0.0 <= Share(Segment(key, Entry(r), x0, x1)) <= 100.0
  {
    SubRatesBoundedByTotal(r);
    ShareWithinPercent(Segment(key, Entry(r), x0, x1));
  }

  /** One line of the tooltip; the numbers' text formatting is not modelled. */
  datatype TooltipLine =
    | Heading(name: string)
    | TotalDeaths(total: int)
    | ShareOfTotal(caption: string, value: real, percent: real)
    | TotalPer100k(rate: real)

  /** The tooltip of a rectangle, line by line: the state's name, its total
      deaths, this key's label, value and share, and the total rate. */
  function TooltipLines(s: Segment): (lines: seq<TooltipLine>)
    ensures |lines| == 4
    ensures lines[0].Heading? && lines[0].name == s.data.name
    ensures lines[1].TotalDeaths? && lines[1].total == s.data.total
    ensures lines[2].ShareOfTotal? && lines[2].caption == Label(s.key)
    ensures lines[2].value == Value(s.data, s.key) && lines[2].percent == Share(s)
    ensures lines[3].TotalPer100k? && lines[3].rate == s.data.per100k
  {
    [ Heading(s.data.name),
      TotalDeaths(s.data.total),
      ShareOfTotal(Label(s.key), Value(s.data, s.key), Share(s)),
      TotalPer100k(s.data.per100k) ]
  }

  /** `if (brushed)`: a brushed state counts when it is defined and not the
      empty string. */
  function Truthy(brushed: Option<string>): (truthy: bool)
    ensures truthy <==> brushed.Some? && |brushed.value| > 0
  {
    brushed.Some? && brushed.value != ""
  }

  /** The name the overlay is drawn for: the brushed state with underscores
      turned to spaces, when that name is in the band domain. */
  function HighlightedName(brushed: Option<string>, domain: seq<string>): (h: Option<string>)
    ensures h.Some? <==> Truthy(brushed) && Names.SpaceUnderscores(brushed.value) in domain
    ensures h.Some? ==> h.value == Names.SpaceUnderscores(brushed.value) && h.value in domain
    ensures h.Some? ==> '_' !in h.value
  {
    if Truthy(brushed) then
      var name := Names.SpaceUnderscores(brushed.value);
      if name in domain then Some(name) else None
    else None
  }

  /** A brushed state written with underscores matches the entry whose name
      was written with spaces, and one that matches nothing draws nothing. */
  lemma HighlightExamples()
    ensures HighlightedName(Some("New_York"), ["Texas", "New York"]) == Some("New York")
    ensures HighlightedName(Some("Texas"), ["Texas", "New York"]) == Some("Texas")
    ensures HighlightedName(Some("Nowhere"), ["Texas", "New York"]) == None
    ensures HighlightedName(None, ["Texas"]) == None
  {
    assert Names.SpaceUnderscores("New_York") == "New York";
    assert Names.SpaceUnderscores("Texas") == "Texas";
    assert Names.SpaceUnderscores("Nowhere") == "Nowhere";
  }
}
