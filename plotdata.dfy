/** The data transformer: one plot entry per state record, built by the
    effect's `for...of` loop that pushes onto `plotData`. */
module PlotData {
  import opened JsNumber
  import Names
  import Difficulty

  /** One element of `props.data.states`. The source spells the abbreviation
      field `abreviation`. */
  datatype StateRecord = StateRecord(
    state: string,
    abbreviation: string,
    count: int,
    maleCount: int,
    population: int)

  /** The object pushed for each record. */
  datatype PlotEntry = PlotEntry(
    total: int,
    male: real,
    female: real,
    population: int,
    per100k: real,
    name: string,
    easeOfDrawing: Difficulty.Ease,
    genderRatio: Num)

  /** Records the transformer can divide by: the population is positive. */
  predicate Populated(r: StateRecord) {
    r.population > 0
  }

  /** `(n / population) * 100000`, exactly. */
  function RatePer100k(n: int, population: int): real
    requires population > 0
  {
    (n as real / population as real) * 100000.0
  }

  /** The rate is the count per 100,000 people: scaled back by the
      population it gives 100,000 times the count. */
  lemma RatePer100kScales(n: int, population: int)
    requires population > 0
    ensures RatePer100k(n, population) * population as real == n as real * 100000.0
  {
    var p := population as real;
    assert (n as real / p) * p == n as real;
  }

  /** A rate as the entry stores it, `Number(rate.toFixed(2))`: within half
      a hundredth of the exact rate. */
  function RoundedRate(n: int, population: int): (rate: real)
    requires population > 0
    ensures -0.005 <= rate - RatePer100k(n, population) <= 0.005
  {
    Round2(RatePer100k(n, population))
  }

  /** The entry the loop body builds from one record. */
  function Entry(r: StateRecord): (e: PlotEntry)
    requires Populated(r)
    ensures e.total == r.count && e.population == r.population
    ensures e.name == Names.SpaceUnderscores(r.state)
    ensures e.easeOfDrawing == Difficulty.EaseOfDrawing(r.abbreviation)
    ensures -0.005 <= e.male - RatePer100k(r.maleCount, r.population) <= 0.005
    ensures -0.005 <= e.female - RatePer100k(r.count - r.maleCount, r.population) <= 0.005
    ensures -0.005 <= e.per100k - RatePer100k(r.count, r.population) <= 0.005
    ensures e.genderRatio == Divide(r.maleCount as real, r.count as real)
  {
    PlotEntry(
      r.count,
      RoundedRate(r.maleCount, r.population),
      RoundedRate(r.count - r.maleCount, r.population),
      r.population,
      RoundedRate(r.count, r.population),
      Names.SpaceUnderscores(r.state),
      Difficulty.EaseOfDrawing(r.abbreviation),
      Divide(r.maleCount as real, r.count as real))
  }

  /** The whole `plotData` array before it is sorted. */
  function Entries(records: seq<StateRecord>): (entries: seq<PlotEntry>)
    requires forall i :: 0 <= i < |records| ==> Populated(records[i])
    ensures |entries| == |records|
    ensures forall i :: 0 <= i < |records| ==> entries[i] == Entry(records[i])
  {
    seq(|records|, i requires 0 <= i < |records| => Entry(records[i]))
  }

  /** The loop of the effect: start from `[]` and push one entry per record,
      in traversal order. */
  method BuildPlotData(records: seq<StateRecord>) returns (plotData: seq<PlotEntry>)
    requires forall i :: 0 <= i < |records| ==> Populated(records[i])
    ensures |plotData| == |records|
    ensures forall i :: 0 <= i < |records| ==> plotData[i] == Entry(records[i])
  {
    plotData := [];
    for k := 0 to |records|
      invariant |plotData| == k
      invariant forall i :: 0 <= i < k ==> plotData[i] == Entry(records[i])
    {
      var entry := Entry(records[k]);
      plotData := plotData + [entry];
    }
  }

  /** The two sub-rates, rounded separately, add up to the rounded total rate
      to within one hundredth. */
  lemma RatesAddUpWithinCent(r: StateRecord)
    requires Populated(r)
    ensures -0.01 <= Entry(r).male + Entry(r).female - Entry(r).per100k <= 0.01
  {
    var m := RatePer100k(r.maleCount, r.population);
    var f := RatePer100k(r.count - r.maleCount, r.population);
    assert m + f == RatePer100k(r.count, r.population);
    RoundedPartsWithinCent(m, f);
  }

  /** More deaths in the same population give a rate at least as high, and
      no deaths give 0. */
  lemma RateMonotone(a: int, b: int, population: int)
    requires population > 0 && 0 <= a <= b
    ensures 0.0 <= RatePer100k(a, population) <= RatePer100k(b, population)
  {
    var p := population as real;
    assert a as real / p <= b as real / p by {
      assert a as real / p == a as real * (1.0 / p) && b as real / p == b as real * (1.0 / p);
      assert 1.0 / p > 0.0;
    }
  }

  /** More deaths in the same population give a stored rate at least as
      high, and never a negative one. */
  lemma RoundedRateMonotone(a: int, b: int, population: int)
    requires population > 0 && 0 <= a <= b
    ensures 0.0 <= RoundedRate(a, population) <= RoundedRate(b, population)
  {
    RateMonotone(a, b, population);
    Round2Sign(RatePer100k(a, population));
    Round2Monotone(RatePer100k(a, population), RatePer100k(b, population));
  }

  /** For a record whose male count lies between 0 and the total count, both
      sub-rates lie between 0 and the total rate. */
  lemma SubRatesBoundedByTotal(r: StateRecord)
    requires Populated(r) && 0 <= r.maleCount <= r.count
    ensures 0.0 <= Entry(r).male <= Entry(r).per100k
    ensures 0.0 <= Entry(r).female <= Entry(r).per100k
  {
    RoundedRateMonotone(r.maleCount, r.count, r.population);
    RoundedRateMonotone(r.count - r.maleCount, r.count, r.population);
  }

  /** The female rate comes from the count difference, unguarded: a male
      count above the total gives a female rate of at most 0, and below -0.005
      before rounding it stays negative. */
  lemma FemaleRateOfExcessMaleCount(r: StateRecord)
    requires Populated(r) && r.maleCount > r.count
    ensures Entry(r).female <= 0.0
    ensures RatePer100k(r.count - r.maleCount, r.population) <= -0.005 ==> Entry(r).female < 0.0
  {
    var f := RatePer100k(r.count - r.maleCount, r.population);
    assert (r.count - r.maleCount) as real / r.population as real < 0.0;
    Round2Sign(f);
  }

  /** The female rate is not the difference of the two rounded rates: with
      6 deaths, 4 of them male, in a population of 100,000,000, the total rate
      rounds to 0.01 and the male rate to 0, yet the female rate is 0. */
  lemma FemaleRateIsNotRateDifference()
    ensures var e := Entry(StateRecord("X", "XX", 6, 4, 100000000));
      e.per100k == 0.01 && e.male == 0.0 && e.female == 0.0 && e.female != e.per100k - e.male
  {
    var r := StateRecord("X", "XX", 6, 4, 100000000);
    assert RatePer100k(6, 100000000) == 0.006;
    assert RatePer100k(4, 100000000) == 0.004;
    assert RatePer100k(2, 100000000) == 0.002;
    assert HundredthsUp(0.006) == 1;
    assert HundredthsUp(0.004) == 0;
    assert HundredthsUp(0.002) == 0;
  }

  /** Texas (4000 deaths, 3500 male, 29,000,000 people) and Vermont (100
      deaths, 70 male, 620,000 people). */
  lemma TexasAndVermont()
    ensures Entry(StateRecord("Texas", "TX", 4000, 3500, 29000000)).per100k == 13.79
    ensures var v := Entry(StateRecord("Vermont", "VT", 100, 70, 620000));
      v.per100k == 16.13 && v.male == 11.29 && v.female == 4.84
  {
    assert HundredthsUp(RatePer100k(4000, 29000000)) == 1379;
    assert HundredthsUp(RatePer100k(100, 620000)) == 1613;
    assert HundredthsUp(RatePer100k(70, 620000)) == 1129;
    assert HundredthsUp(RatePer100k(30, 620000)) == 484;
  }
}
