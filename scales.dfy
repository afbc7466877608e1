/** What the chart's scales are built from: the drawable area left inside
    the fixed margins, the value domain's upper end `d3.max(plotData, d =>
    d.per100k)`, and the band scale's domain `plotData.map(d => d.name)`. */
module Scales {
  import opened Wrappers
  import opened PlotData
  import Names
  import RateSort

  /** `margin = { top: 56, right: 24, bottom: 30, left: 120 }`. */
  const MarginTop: real := 56.0
  const MarginRight: real := 24.0
  const MarginBottom: real := 30.0
  const MarginLeft: real := 120.0

  /** The smallest inner size the chart draws into. */
  const MinInner: real := 10.0

  /** `Math.max(10, width - margin.left - margin.right)`: never below 10, and
      exactly the room inside the margins whenever that room is at least 10. */
  function InnerWidth(width: real): (w: real)
    ensures w >= MinInner && w >= width - 144.0
    ensures width - 144.0 >= MinInner ==> w == width - 144.0
    ensures width - 144.0 < MinInner ==> w == MinInner
  {
    if MinInner < width - MarginLeft - MarginRight then width - MarginLeft - MarginRight else MinInner
  }

  /** `Math.max(10, height - margin.top - margin.bottom)`, likewise. */
  function InnerHeight(height: real): (h: real)
    ensures h >= MinInner && h >= height - 86.0
    ensures height - 86.0 >= MinInner ==> h == height - 86.0
    ensures height - 86.0 < MinInner ==> h == MinInner
  {
    if MinInner < height - MarginTop - MarginBottom then height - MarginTop - MarginBottom else MinInner
  }

  /** `d3.max(plotData, d => d.per100k)`: undefined for no entries, otherwise
      the largest rate, which some entry has. */
  function MaxRate(data: seq<PlotEntry>): (r: Option<real>)
    ensures r.None? <==> data == []
    ensures r.Some? ==> forall i :: 0 <= i < |data| ==> data[i].per100k <= r.value
    ensures r.Some? ==> exists i :: 0 <= i < |data| && data[i].per100k == r.value
  {
    if data == [] then None
    else
      var m := MaxRate(data[..|data| - 1]);
      var last := data[|data| - 1].per100k;
      if m.None? || m.value < last then Some(last) else m
  }

  /** After the sort the largest rate is the first entry's. */
  lemma MaxRateOfSorted(data: seq<PlotEntry>)
    requires data != [] && RateSort.Descends(data)
    ensures MaxRate(data) == Some(data[0].per100k)
  {
  }

  /** `plotData.map(d => d.name)`. */
  function NamesOf(data: seq<PlotEntry>): (names: seq<string>)
    ensures |names| == |data|
    ensures forall i :: 0 <= i < |data| ==> names[i] == data[i].name
  {
    seq(|data|, i requires 0 <= i < |data| => data[i].name)
  }

  /** `yScale.domain()`: the names in entry order, each once. */
  function BandDomain(data: seq<PlotEntry>): (domain: seq<string>)
    ensures forall x :: x in domain <==> exists i :: 0 <= i < |data| && data[i].name == x
    ensures forall i, j :: 0 <= i < j < |domain| ==> domain[i] != domain[j]
  {
    Names.Distinct(NamesOf(data))
  }

  /** When the entries' names are unique, the band domain is exactly the
      entries' names in their sorted order. */
  lemma BandDomainOfUniqueNames(data: seq<PlotEntry>)
    requires forall i, j :: 0 <= i < j < |data| ==> data[i].name != data[j].name
    ensures BandDomain(data) == NamesOf(data)
  {
    Names.DistinctOfUnique(NamesOf(data));
  }
}
