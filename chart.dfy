/** One pass of the chart's effect: skip while the canvas or the data is
    missing; otherwise clear the canvas and redraw everything from the
    current inputs. The scene is kept as the list of elements in the order
    they are appended; pixel geometry, colours and text layout are not
    modelled. */
module Chart {
  import opened Wrappers
  import opened PlotData
  import opened RateSort
  import opened StackLayout
  import opened Scales
  import opened Interaction
  import Names

  /** What the effect appends, in the terms the model keeps. */
  datatype Element =
    | Frame                                        // the `g` shifted by the margins
    | LayerGroup(key: Key)                         // one `g.layer` per stack series
    | Bar(segment: Segment, tooltip: seq<TooltipLine>)  // one `rect`, with its mouseover text
    | ValueAxis(max: Option<real>, width: real)    // top axis: [0, xMax] onto [0, innerW]
    | BandAxis(domain: seq<string>, height: real)  // left axis: the names onto [0, innerH]
    | Title(text: string)
    | Legend(labels: seq<string>)                  // one swatch per key, in key order
    | Highlight(name: string)                      // the stroked overlay for the brushed state

  const TitleText: string := "Gun Deaths by State (Per 100k)"

  /** The drawing surface: `svg.selectAll('*').remove()` and `append`. */
  class Canvas {
    var elements: seq<Element>

    constructor ()
      ensures elements == []
    {
      elements := [];
    }

    method Clear()
      modifies this
      ensures elements == []
    {
      elements := [];
    }

    method Append(e: Element)
      modifies this
      ensures elements == old(elements) + [e]
    {
      elements := elements + [e];
    }
  }

  /** `svg === undefined | props.data === undefined`: the bitwise or of the
      two tests, as 32-bit integers, is non-zero exactly when either holds. */
  function SkipDraw(svgMissing: bool, dataMissing: bool): (skip: bool)
    ensures skip <==> svgMissing || dataMissing
  {
    var a: bv32 := if svgMissing then 1 else 0;
    var b: bv32 := if dataMissing then 1 else 0;
    a | b != 0
  }

  /** The rectangles of one layer, with their tooltips. */
  function Bars(segments: seq<Segment>): (bars: seq<Element>)
    ensures |bars| == |segments|
    ensures forall j :: 0 <= j < |segments| ==> bars[j] == Bar(segments[j], TooltipLines(segments[j]))
  {
    seq(|segments|, j requires 0 <= j < |segments| => Bar(segments[j], TooltipLines(segments[j])))
  }

  /** The highlight rectangle, if any. */
  function Overlay(h: Option<string>): seq<Element> {
    if h.Some? then [Highlight(h.value)] else []
  }

  /** The sorted plot entries of a pass. */
  function Sorted(records: seq<StateRecord>): (sorted: seq<PlotEntry>)
    requires forall i :: 0 <= i < |records| ==> Populated(records[i])
    ensures |sorted| == |records|
  {
    SortByRate(Entries(records))
  }

  /** The two layer groups, then the male rectangles, then the female ones. */
  function LayerElements(sorted: seq<PlotEntry>): (elements: seq<Element>)
    ensures |elements| == 2 * |sorted| + 2
    ensures elements[0] == LayerGroup(Male) && elements[1] == LayerGroup(Female)
  {
    var layers := Stack(sorted);
    [LayerGroup(layers[0].key), LayerGroup(layers[1].key)]
    + Bars(layers[0].segments) + Bars(layers[1].segments)
  }

  /** The axes, the title, the legend and the highlight overlay. */
  function Decorations(sorted: seq<PlotEntry>, width: real, height: real,
                       brushed: Option<string>): (elements: seq<Element>)
    ensures var h := HighlightedName(brushed, BandDomain(sorted));
      && |elements| == (if h.Some? then 5 else 4)
      && (h.Some? ==> elements[4] == Highlight(h.value))
  {
    var domain := BandDomain(sorted);
    [ ValueAxis(MaxRate(sorted), InnerWidth(width)),
      BandAxis(domain, InnerHeight(height)),
      Title(TitleText),
      Legend([Label(Keys[0]), Label(Keys[1])]) ]
    + Overlay(HighlightedName(brushed, domain))
  }

  /** The layers hold one rectangle per segment of the stack, each with its
      tooltip: the j-th male one at 2 + j, the j-th female one n places later. */
  lemma LayerBars(sorted: seq<PlotEntry>, j: int)
    requires 0 <= j < |sorted|
    ensures var m, f := Stack(sorted)[0].segments[j], Stack(sorted)[1].segments[j];
      LayerElements(sorted)[2 + j] == Bar(m, TooltipLines(m)) &&
      LayerElements(sorted)[2 + |sorted| + j] == Bar(f, TooltipLines(f))
  {
    var layers := Stack(sorted);
    var groups := [LayerGroup(layers[0].key), LayerGroup(layers[1].key)];
    var male, female := Bars(layers[0].segments), Bars(layers[1].segments);
    assert (groups + male + female)[2 + j] == male[j];
    assert (groups + male + female)[2 + |sorted| + j] == female[j];
  }

  /** An element of the layers keeps its index, shifted past the margin group. */
  lemma AfterFrame(layers: seq<Element>, decorations: seq<Element>, k: int)
    requires 0 <= k < |layers|
    ensures ([Frame] + layers + decorations)[1 + k] == layers[k]
  {
  }

  /** An element of the decorations keeps its index, shifted past the margin
      group and the layers. */
  lemma AfterLayers(layers: seq<Element>, decorations: seq<Element>, k: int)
    requires 0 <= k < |decorations|
    ensures ([Frame] + layers + decorations)[1 + |layers| + k] == decorations[k]
  {
  }

  /** The margin group, the layers and the decorations of sorted entries:
      2n + 7 elements, one more with a highlight, which then comes last. */
  lemma ShapeOf(sorted: seq<PlotEntry>, width: real, height: real, brushed: Option<string>)
    ensures var scene := [Frame] + LayerElements(sorted) + Decorations(sorted, width, height, brushed);
      var h := HighlightedName(brushed, BandDomain(sorted));
      && |scene| == 2 * |sorted| + 7 + (if h.Some? then 1 else 0)
      && (h.Some? ==> scene[|scene| - 1] == Highlight(h.value))
      && scene[0] == Frame && scene[1] == LayerGroup(Male) && scene[2] == LayerGroup(Female)
  {
    var layers := LayerElements(sorted);
    var decorations := Decorations(sorted, width, height, brushed);
    AfterFrame(layers, decorations, 0);
    AfterFrame(layers, decorations, 1);
    AfterLayers(layers, decorations, |decorations| - 1);
  }

  /** Behind the margin group and the layer groups, the j-th male and female
      rectangles of sorted entries. */
  lemma BarsOf(sorted: seq<PlotEntry>, width: real, height: real, brushed: Option<string>, j: int)
    requires 0 <= j < |sorted|
    ensures var scene := [Frame] + LayerElements(sorted) + Decorations(sorted, width, height, brushed);
      var m, f := Stack(sorted)[0].segments[j], Stack(sorted)[1].segments[j];
      scene[3 + j] == Bar(m, TooltipLines(m)) && scene[3 + |sorted| + j] == Bar(f, TooltipLines(f))
  {
    var layers := LayerElements(sorted);
    var decorations := Decorations(sorted, width, height, brushed);
    AfterFrame(layers, decorations, 2 + j);
    AfterFrame(layers, decorations, 2 + |sorted| + j);
    LayerBars(sorted, j);
  }

  /** Everything one drawing pass leaves on the canvas, in append order. */
  function Scene(records: seq<StateRecord>, width: real, height: real, brushed: Option<string>): (scene: seq<Element>)
    requires forall i :: 0 <= i < |records| ==> Populated(records[i])
    ensures var h := HighlightedName(brushed, BandDomain(Sorted(records)));
      && |scene| == 2 * |records| + 7 + (if h.Some? then 1 else 0)
      && (h.Some? ==> scene[|scene| - 1] == Highlight(h.value))
    ensures scene[0] == Frame && scene[1] == LayerGroup(Male) && scene[2] == LayerGroup(Female)
  {
    var sorted := Sorted(records);
    ShapeOf(sorted, width, height, brushed);
    [Frame] + LayerElements(sorted) + Decorations(sorted, width, height, brushed)
  }

  /** Behind the margin group and the two layer groups, the scene draws the
      j-th male rectangle at 3 + j and the j-th female one n places later,
      each for the j-th segment of its layer of the stack, with its tooltip. */
  lemma SceneBars(records: seq<StateRecord>, width: real, height: real,
                  brushed: Option<string>, j: int)
    requires forall i :: 0 <= i < |records| ==> Populated(records[i])
    requires 0 <= j < |records|
    ensures var m := Stack(Sorted(records))[0].segments[j];
      Scene(records, width, height, brushed)[3 + j] == Bar(m, TooltipLines(m))
    ensures var f := Stack(Sorted(records))[1].segments[j];
      Scene(records, width, height, brushed)[3 + |records| + j] == Bar(f, TooltipLines(f))
  {
    BarsOf(Sorted(records), width, height, brushed, j);
  }

  /** Appends the rectangles of one layer, segment by segment. */
  method DrawBars(svg: Canvas, segments: seq<Segment>)
    modifies svg
    ensures svg.elements == old(svg.elements) + Bars(segments)
  {
    for j := 0 to |segments|
      invariant svg.elements == old(svg.elements) + Bars(segments[..j])
    {
      assert Bars(segments[..j + 1]) == Bars(segments[..j]) + [Bar(segments[j], TooltipLines(segments[j]))];
      svg.Append(Bar(segments[j], TooltipLines(segments[j])));
    }
    assert segments[..|segments|] == segments;
  }

  /** Builds `plotData` from the records and sorts it in place. */
  method SortedPlotData(records: seq<StateRecord>) returns (sorted: seq<PlotEntry>)
    requires forall i :: 0 <= i < |records| ==> Populated(records[i])
    ensures sorted == Sorted(records)
  {
    var plotData := BuildPlotData(records);
    var a := new PlotEntry[|plotData|](i requires 0 <= i < |plotData| => plotData[i]);
    assert a[..] == Entries(records);
    SortInPlace(a);
    sorted := a[..];
  }

  /** Appends the two layer groups and their rectangles. */
  method DrawLayers(svg: Canvas, sorted: seq<PlotEntry>)
    modifies svg
    ensures svg.elements == old(svg.elements) + LayerElements(sorted)
  {
    var layers := Stack(sorted);
    ghost var before := svg.elements;
    svg.Append(LayerGroup(layers[0].key));
    svg.Append(LayerGroup(layers[1].key));
    assert svg.elements == before + [LayerGroup(layers[0].key), LayerGroup(layers[1].key)];
    DrawBars(svg, layers[0].segments);
    DrawBars(svg, layers[1].segments);
  }

  /** Appends the axes, the title, the legend and the highlight overlay. */
  method DrawDecorations(svg: Canvas, sorted: seq<PlotEntry>, width: real, height: real,
                         brushed: Option<string>)
    modifies svg
    ensures svg.elements == old(svg.elements) + Decorations(sorted, width, height, brushed)
  {
    var innerW := InnerWidth(width);
    var innerH := InnerHeight(height);
    var xMax := MaxRate(sorted);
    var domain := BandDomain(sorted);
    svg.Append(ValueAxis(xMax, innerW));
    svg.Append(BandAxis(domain, innerH));
    svg.Append(Title(TitleText));
    svg.Append(Legend([Label(Keys[0]), Label(Keys[1])]));
    var h := HighlightedName(brushed, domain);
    if h.Some? {
      svg.Append(Highlight(h.value));
    }
  }

  /** The body of the effect. A missing canvas or missing data leaves
      everything as it was; otherwise the canvas ends up holding exactly the
      scene of the current inputs, whatever it held before. */
  method Render(svg: Canvas?, data: Option<seq<StateRecord>>, width: real, height: real,
                brushed: Option<string>)
    requires data.Some? ==> forall i :: 0 <= i < |data.value| ==> Populated(data.value[i])
    modifies svg
    ensures svg != null && data.None? ==> svg.elements == old(svg.elements)
    ensures svg != null && data.Some? ==> svg.elements == Scene(data.value, width, height, brushed)
  {
    if SkipDraw(svg == null, data.None?) {
      return;
    }
    var records := data.value;
    svg.Clear();
    svg.Append(Frame);
    assert svg.elements == [Frame];
    var sorted := SortedPlotData(records);
    DrawLayers(svg, sorted);
    assert svg.elements == [Frame] + LayerElements(sorted);
    DrawDecorations(svg, sorted, width, height, brushed);
    assert svg.elements == Scene(records, width, height, brushed);
  }

  /** Redrawing with unchanged inputs leaves the same scene. */
  method RenderTwice(svg: Canvas, records: seq<StateRecord>, width: real, height: real,
                     brushed: Option<string>)
    requires forall i :: 0 <= i < |records| ==> Populated(records[i])
    modifies svg
    ensures svg.elements == Scene(records, width, height, brushed)
  {
    Render(svg, Some(records), width, height, brushed);
    var first := svg.elements;
    Render(svg, Some(records), width, height, brushed);
    assert svg.elements == first;
  }

  /** The number of highlight rectangles among the elements. */
  function HighlightCount(elements: seq<Element>): nat {
    if elements == [] then 0
    else HighlightCount(elements[..|elements| - 1]) + if elements[|elements| - 1].Highlight? then 1 else 0
  }

  lemma {:induction false} HighlightCountAppend(s: seq<Element>, t: seq<Element>)
    ensures HighlightCount(s + t) == HighlightCount(s) + HighlightCount(t)
  {
    if t == [] {
      assert s + t == s;
    } else {
      assert (s + t)[..|s + t| - 1] == s + t[..|t| - 1];
      HighlightCountAppend(s, t[..|t| - 1]);
    }
  }

  lemma {:induction false} NoHighlights(s: seq<Element>)
    requires forall k :: 0 <= k < |s| ==> !s[k].Highlight?
    ensures HighlightCount(s) == 0
  {
    if s != [] {
      NoHighlights(s[..|s| - 1]);
    }
  }

  /** Some record's state name, with underscores as spaces, is x. */
  predicate NamesRecord(records: seq<StateRecord>, x: string) {
    exists i :: 0 <= i < |records| && Names.SpaceUnderscores(records[i].state) == x
  }

  /** The names in the band domain are exactly the normalised state names of
      the records. */
  lemma DomainNamesTheRecords(records: seq<StateRecord>, x: string)
    requires forall i :: 0 <= i < |records| ==> Populated(records[i])
    ensures x in BandDomain(Sorted(records)) <==> NamesRecord(records, x)
  {
    var entries := Entries(records);
    var sorted := Sorted(records);
    SortPermutes(entries);
    if x in BandDomain(sorted) {
      var k :| 0 <= k < |sorted| && sorted[k].name == x;
      assert sorted[k] in multiset(entries);
      var i :| 0 <= i < |entries| && entries[i] == sorted[k];
      assert Names.SpaceUnderscores(records[i].state) == x;
    }
    if NamesRecord(records, x) {
      var i :| 0 <= i < |records| && Names.SpaceUnderscores(records[i].state) == x;
      assert entries[i] in multiset(sorted);
      var k :| 0 <= k < |sorted| && sorted[k] == entries[i];
    }
  }

  lemma LayerElementsHaveNoHighlight(sorted: seq<PlotEntry>)
    ensures HighlightCount(LayerElements(sorted)) == 0
  {
    var layers := Stack(sorted);
    var groups := [LayerGroup(layers[0].key), LayerGroup(layers[1].key)];
    NoHighlights(groups);
    NoHighlights(Bars(layers[0].segments));
    NoHighlights(Bars(layers[1].segments));
    HighlightCountAppend(groups, Bars(layers[0].segments));
    HighlightCountAppend(groups + Bars(layers[0].segments), Bars(layers[1].segments));
  }

  lemma DecorationHighlights(sorted: seq<PlotEntry>, width: real, height: real,
                             brushed: Option<string>)
    ensures HighlightCount(Decorations(sorted, width, height, brushed)) ==
      if HighlightedName(brushed, BandDomain(sorted)).Some? then 1 else 0
  {
    var domain := BandDomain(sorted);
    var fixed := [ ValueAxis(MaxRate(sorted), InnerWidth(width)),
                   BandAxis(domain, InnerHeight(height)),
                   Title(TitleText),
                   Legend([Label(Keys[0]), Label(Keys[1])]) ];
    var overlay := Overlay(HighlightedName(brushed, domain));
    NoHighlights(fixed);
    HighlightCountAppend(fixed, overlay);
    if overlay != [] {
      assert overlay[..0] == [];
    }
  }

  /** A pass draws one highlight rectangle when the brushed state is set and,
      with underscores as spaces, names one of the records; otherwise none. */
  lemma HighlightDrawnIffBrushedStateShown(records: seq<StateRecord>, width: real, height: real,
                                           brushed: Option<string>)
    requires forall i :: 0 <= i < |records| ==> Populated(records[i])
    ensures HighlightCount(Scene(records, width, height, brushed)) ==
      if Truthy(brushed) && NamesRecord(records, Names.SpaceUnderscores(brushed.value)) then 1 else 0
  {
    var sorted := Sorted(records);
    NoHighlights([Frame]);
    LayerElementsHaveNoHighlight(sorted);
    DecorationHighlights(sorted, width, height, brushed);
    HighlightCountAppend([Frame], LayerElements(sorted));
    HighlightCountAppend([Frame] + LayerElements(sorted), Decorations(sorted, width, height, brushed));
    if Truthy(brushed) {
      DomainNamesTheRecords(records, Names.SpaceUnderscores(brushed.value));
    }
  }

  /** The top of every stacked bar the scene draws, the end of its female
      rectangle, lies within one hundredth of the total rate shown for its
      state. */
  lemma BarTopsNearTotalRate(records: seq<StateRecord>, width: real, height: real,
                             brushed: Option<string>, j: int)
    requires forall i :: 0 <= i < |records| ==> Populated(records[i])
    requires 0 <= j < |records|
    ensures var b := Scene(records, width, height, brushed)[3 + |records| + j];
      && b.Bar? && b.segment.key == Female
      && -0.01 <= b.segment.x1 - b.segment.data.per100k <= 0.01
  {
    var entries := Entries(records);
    var sorted := Sorted(records);
    SceneBars(records, width, height, brushed, j);
    SortPermutes(entries);
    assert sorted[j] in multiset(entries);
    var i :| 0 <= i < |entries| && entries[i] == sorted[j];
    RatesAddUpWithinCent(records[i]);
  }
}
