/** `d3.stack().keys(['male','female']).value((d, key) => d[key])(plotData)`
    with d3's default order (as given) and offset (zero baseline), and the
    per-rectangle records `{key, data, x0: v[0], x1: v[1]}` drawn from it. */
module StackLayout {
  import opened PlotData

  /** The two stack keys. */
  datatype Key = Male | Female

  /** The keys in the order passed to `.keys(...)`. */
  const Keys: seq<Key> := [Male, Female]

  /** `d[key]`. */
  function Value(e: PlotEntry, key: Key): (v: real)
    ensures key == Male ==> v == e.male
    ensures key == Female ==> v == e.female
  {
    match key
    case Male => e.male
    case Female => e.female
  }

  /** One rectangle: the entry it stands for and its interval on the value axis. */
  datatype Segment = Segment(key: Key, data: PlotEntry, x0: real, x1: real)

  /** One series of the stack: a segment per entry, in entry order. */
  datatype Layer = Layer(key: Key, segments: seq<Segment>)

  /** The first series starts every entry at 0. */
  function BaseLayer(data: seq<PlotEntry>, key: Key): (layer: Layer)
    ensures layer.key == key && |layer.segments| == |data|
    ensures forall j :: 0 <= j < |data| ==>
      layer.segments[j] == Segment(key, data[j], 0.0, Value(data[j], key))
  {
    Layer(key, seq(|data|, j requires 0 <= j < |data| =>
      Segment(key, data[j], 0.0, Value(data[j], key))))
  }

  /** The next series starts each entry where the one below ends
      (`stackOffsetNone`; the rates are finite, so no NaN fallback arises). */
  function LayerOn(below: Layer, key: Key): (layer: Layer)
    ensures layer.key == key && |layer.segments| == |below.segments|
    ensures forall j :: 0 <= j < |below.segments| ==>
      var s := below.segments[j];
      layer.segments[j] == Segment(key, s.data, s.x1, s.x1 + Value(s.data, key))
  {
    Layer(key, seq(|below.segments|, j requires 0 <= j < |below.segments| =>
      var s := below.segments[j];
      Segment(key, s.data, s.x1, s.x1 + Value(s.data, key))))
  }

  /** The stack of the two keys over the sorted entries: two layers, male
      then female; for every entry the male segment spans [0, male] and the
      female one [male, male + female], so the two are contiguous and
      together span [0, male + female]. */
  function Stack(data: seq<PlotEntry>): (layers: seq<Layer>)
    ensures |layers| == 2
    ensures layers[0].key == Male && layers[1].key == Female
    ensures |layers[0].segments| == |data| && |layers[1].segments| == |data|
    ensures forall j :: 0 <= j < |data| ==>
      var m, f := layers[0].segments[j], layers[1].segments[j];
      && m.data == data[j] && f.data == data[j]
      && m.x0 == 0.0 && m.x1 == data[j].male
      && f.x0 == m.x1 && f.x1 == data[j].male + data[j].female
  {
    var male := BaseLayer(data, Keys[0]);
    [male, LayerOn(male, Keys[1])]
  }
}
