/** `plotData.sort((a, b) => d3.descending(a.per100k, b.per100k))`.
    Array.prototype.sort is stable, and with a consistent comparator a stable
    sort has exactly one possible result, whatever algorithm the engine runs;
    the model computes it by insertion. */
module RateSort {
  import opened JsNumber
  import opened PlotData

  /** The comparator keeps a before b: a's rate is at least b's. */
  function InOrder(a: PlotEntry, b: PlotEntry): (keep: bool)
    ensures keep <==> a.per100k >= b.per100k
  {
    Descending(a.per100k, b.per100k) <= 0
  }

  /** Inserts x behind every entry the comparator keeps before it. */
  function Insert(s: seq<PlotEntry>, x: PlotEntry): (r: seq<PlotEntry>)
    ensures |r| == |s| + 1
  {
    if s == [] || InOrder(s[|s| - 1], x) then s + [x]
    else Insert(s[..|s| - 1], x) + [s[|s| - 1]]
  }

  /** The sorted array: each entry inserted in turn into the sorted prefix. */
  function SortByRate(s: seq<PlotEntry>): (r: seq<PlotEntry>)
    ensures |r| == |s|
  {
    if s == [] then [] else Insert(SortByRate(s[..|s| - 1]), s[|s| - 1])
  }

  /** Non-increasing `per100k` along the sequence. */
  ghost predicate Descends(s: seq<PlotEntry>) {
    forall i, j :: 0 <= i < j < |s| ==> s[i].per100k >= s[j].per100k
  }

  /** The entries of s whose rate is v, in their order in s. */
  function WithRate(s: seq<PlotEntry>, v: real): (r: seq<PlotEntry>)
    ensures |r| <= |s|
  {
    if s == [] then []
    else WithRate(s[..|s| - 1], v) + (if s[|s| - 1].per100k == v then [s[|s| - 1]] else [])
  }

  lemma {:induction false} WithRateAppend(s: seq<PlotEntry>, t: seq<PlotEntry>, v: real)
    ensures WithRate(s + t, v) == WithRate(s, v) + WithRate(t, v)
  {
    if t == [] {
      assert s + t == s;
    } else {
      assert (s + t)[..|s + t| - 1] == s + t[..|t| - 1];
      WithRateAppend(s, t[..|t| - 1], v);
    }
  }

  /** Inserting adds x and nothing else. */
  lemma {:induction false} InsertPermutes(s: seq<PlotEntry>, x: PlotEntry)
    ensures multiset(Insert(s, x)) == multiset(s) + multiset{x}
  {
    if s != [] && !InOrder(s[|s| - 1], x) {
      var front := s[..|s| - 1];
      InsertPermutes(front, x);
      assert s == front + [s[|s| - 1]];
    }
  }

  /** Inserting into a descending sequence keeps it descending. */
  lemma {:induction false} InsertDescends(s: seq<PlotEntry>, x: PlotEntry)
    requires Descends(s)
    ensures Descends(Insert(s, x))
  {
    if s != [] && !InOrder(s[|s| - 1], x) {
      var front, last := s[..|s| - 1], s[|s| - 1];
      InsertDescends(front, x);
      InsertPermutes(front, x);
      var r := Insert(front, x);
      forall i | 0 <= i < |r| ensures r[i].per100k >= last.per100k {
        assert r[i] in multiset(front) + multiset{x} by {
          assert r[i] in multiset(r);
        }
        if r[i] != x {
          var k :| 0 <= k < |front| && front[k] == r[i];
          assert s[k] == r[i];
        }
      }
    }
  }

  /** Inserting x leaves every other rate class as it was and appends x to its
      own: x goes behind the entries with its rate and ahead of lower ones. */
  lemma {:induction false} InsertWithRate(s: seq<PlotEntry>, x: PlotEntry, v: real)
    ensures WithRate(Insert(s, x), v) == WithRate(s, v) + (if x.per100k == v then [x] else [])
  {
    if s == [] || InOrder(s[|s| - 1], x) {
      WithRateAppend(s, [x], v);
    } else {
      var front, last := s[..|s| - 1], s[|s| - 1];
      InsertWithRate(front, x, v);
      WithRateAppend(Insert(front, x), [last], v);
    }
  }

  /** The sorted sequence has non-increasing rates. */
  lemma {:induction false} SortDescends(s: seq<PlotEntry>)
    ensures Descends(SortByRate(s))
  {
    if s != [] {
      SortDescends(s[..|s| - 1]);
      InsertDescends(SortByRate(s[..|s| - 1]), s[|s| - 1]);
    }
  }

  /** The sorted sequence is a permutation of the input. */
  lemma {:induction false} SortPermutes(s: seq<PlotEntry>)
    ensures multiset(SortByRate(s)) == multiset(s)
  {
    if s != [] {
      var front := s[..|s| - 1];
      SortPermutes(front);
      InsertPermutes(SortByRate(front), s[|s| - 1]);
      assert s == front + [s[|s| - 1]];
    }
  }

  /** Stability: entries of equal rate keep their input order. */
  lemma {:induction false} SortIsStable(s: seq<PlotEntry>, v: real)
    ensures WithRate(SortByRate(s), v) == WithRate(s, v)
  {
    if s != [] {
      var front := s[..|s| - 1];
      SortIsStable(front, v);
      InsertWithRate(SortByRate(front), s[|s| - 1], v);
    }
  }

  lemma {:induction false} WithRateMembers(s: seq<PlotEntry>, v: real, x: PlotEntry)
    requires x in WithRate(s, v)
    ensures x in s && x.per100k == v
  {
    var front := s[..|s| - 1];
    if x in WithRate(front, v) {
      WithRateMembers(front, v, x);
      assert s == front + [s[|s| - 1]];
    }
  }

  /** Agreeing on every rate class, two sequences are empty together. */
  lemma {:induction false} EmptyTogether(r: seq<PlotEntry>, t: seq<PlotEntry>)
    requires forall v :: WithRate(r, v) == WithRate(t, v)
    ensures r == [] <==> t == []
  {
    if r != [] {
      assert WithRate(t, r[|r| - 1].per100k) != [];
    }
    if t != [] {
      assert WithRate(r, t[|t| - 1].per100k) != [];
    }
  }

  /** Two non-empty sequences with non-increasing rates that agree on every
      rate class end with the same rate. */
  lemma {:induction false} SameLastRate(r: seq<PlotEntry>, t: seq<PlotEntry>)
    requires r != [] && t != [] && Descends(r) && Descends(t)
    requires forall v :: WithRate(r, v) == WithRate(t, v)
    ensures r[|r| - 1].per100k == t[|t| - 1].per100k
  {
    var rl, tl := r[|r| - 1], t[|t| - 1];
    assert WithRate(r, rl.per100k) == WithRate(r[..|r| - 1], rl.per100k) + [rl];
    WithRateMembers(t, rl.per100k, rl);
    var i :| 0 <= i < |t| && t[i] == rl;
    assert WithRate(t, tl.per100k) == WithRate(t[..|t| - 1], tl.per100k) + [tl];
    WithRateMembers(r, tl.per100k, tl);
    var j :| 0 <= j < |r| && r[j] == tl;
  }

  /** Dropping the last entry of two such sequences keeps them in agreement. */
  lemma {:induction false} SameFronts(r: seq<PlotEntry>, t: seq<PlotEntry>, rf: seq<PlotEntry>, tf: seq<PlotEntry>)
    requires r != [] && t != [] && rf == r[..|r| - 1] && tf == t[..|t| - 1]
    requires r[|r| - 1].per100k == t[|t| - 1].per100k
    requires forall v :: WithRate(r, v) == WithRate(t, v)
    ensures r[|r| - 1] == t[|t| - 1]
    ensures forall v :: WithRate(rf, v) == WithRate(tf, v)
  {
    var rl, tl := r[|r| - 1], t[|t| - 1];
    var m := rl.per100k;
    var w := WithRate(r, m);
    assert w == WithRate(rf, m) + [rl] == WithRate(tf, m) + [tl];
    assert rl == w[|w| - 1] == tl;
    assert WithRate(rf, m) == w[..|w| - 1] == WithRate(tf, m);
    forall v ensures WithRate(rf, v) == WithRate(tf, v) {
      if v != m {
        assert WithRate(r, v) == WithRate(rf, v);
        assert WithRate(t, v) == WithRate(tf, v);
      }
    }
  }

  /** Two sequences with non-increasing rates that agree on every rate class
      are the same sequence. */
  lemma {:induction false} DescendingClassesDetermine(r: seq<PlotEntry>, t: seq<PlotEntry>)
    requires Descends(r) && Descends(t)
    requires forall v :: WithRate(r, v) == WithRate(t, v)
    ensures r == t
    decreases |r|
  {
    EmptyTogether(r, t);
    if r != [] {
      var rf, tf := r[..|r| - 1], t[..|t| - 1];
      SameLastRate(r, t);
      SameFronts(r, t, rf, tf);
      DescendingClassesDetermine(rf, tf);
      assert r == rf + [r[|r| - 1]] && t == tf + [t[|t| - 1]];
    }
  }

  /** Whatever algorithm sorts, a stable sort by this comparator has one
      possible result: any sequence with non-increasing rates in which each
      rate class keeps its input order is SortByRate of the input. */
  lemma {:induction false} StableSortIsUnique(s: seq<PlotEntry>, r: seq<PlotEntry>)
    requires Descends(r)
    requires forall v :: WithRate(r, v) == WithRate(s, v)
    ensures r == SortByRate(s)
  {
    SortDescends(s);
    forall v ensures WithRate(r, v) == WithRate(SortByRate(s), v) {
      SortIsStable(s, v);
    }
    DescendingClassesDetermine(r, SortByRate(s));
  }

  /** Where insertion puts x: right behind the last entry the comparator
      keeps before it, when every later entry is one it does not. */
  lemma {:induction false} InsertAt(t: seq<PlotEntry>, j: int, x: PlotEntry)
    requires 0 <= j <= |t| && (j == 0 || InOrder(t[j - 1], x))
    requires forall k :: j <= k < |t| ==> !InOrder(t[k], x)
    ensures Insert(t, x) == t[..j] + [x] + t[j..]
  {
    if |t| == j {
      assert t[..j] == t && t[j..] == [];
    } else {
      var front := t[..|t| - 1];
      assert !InOrder(t[|t| - 1], x);
      assert Insert(t, x) == Insert(front, x) + [t[|t| - 1]];
      InsertAt(front, j, x);
      assert front[..j] == t[..j];
      assert front[j..] + [t[|t| - 1]] == t[j..];
    }
  }

  /** Sorting one more element of the input is one more insertion. */
  lemma SortByRateStep(s: seq<PlotEntry>, k: int)
    requires 0 <= k < |s|
    ensures SortByRate(s[..k + 1]) == Insert(SortByRate(s[..k]), s[k])
  {
    assert s[..k + 1][..k] == s[..k];
  }

  /** Shifts a[j..i] one place right, for the largest j at which the
      comparator keeps a[j - 1] before x (or j = 0), leaving a[j] free. */
  method ShiftPast(a: array<PlotEntry>, i: int, x: PlotEntry) returns (j: int)
    requires 0 <= i < a.Length
    modifies a
    ensures 0 <= j <= i
    ensures j == 0 || InOrder(old(a[j - 1]), x)
    ensures forall k :: j <= k < i ==> !InOrder(old(a[k]), x)
    ensures forall k :: 0 <= k < j ==> a[k] == old(a[k])
    ensures forall k :: j < k <= i ==> a[k] == old(a[k - 1])
    ensures forall k :: i < k < a.Length ==> a[k] == old(a[k])
  {
    j := i;
    while j > 0 && !InOrder(a[j - 1], x)
      invariant 0 <= j <= i
      invariant forall k :: j <= k < i ==> !InOrder(old(a[k]), x)
      invariant forall k :: 0 <= k < j ==> a[k] == old(a[k])
      invariant forall k :: j < k <= i ==> a[k] == old(a[k - 1])
      invariant forall k :: i < k < a.Length ==> a[k] == old(a[k])
    {
      a[j] := a[j - 1];
      j := j - 1;
    }
  }

  /** One pass of the sort: moves a[i] behind the entries of the sorted
      prefix a[..i] that the comparator keeps before it. */
  method InsertInPlace(a: array<PlotEntry>, i: int)
    requires 0 <= i < a.Length
    modifies a
    ensures a[..i + 1] == Insert(old(a[..i]), old(a[i]))
    ensures forall k :: i < k < a.Length ==> a[k] == old(a[k])
  {
    var x := a[i];
    ghost var sorted := a[..i];
    var j := ShiftPast(a, i, x);
    InsertAt(sorted, j, x);
    a[j] := x;
    ghost var result := sorted[..j] + [x] + sorted[j..];
    forall k | 0 <= k <= i
      ensures a[k] == result[k]
    {
    }
    assert a[..i + 1] == result;
  }

  /** Sorts `plotData` in place. */
  method SortInPlace(a: array<PlotEntry>)
    modifies a
    ensures a[..] == SortByRate(old(a[..]))
  {
    ghost var input := a[..];
    for i := 0 to a.Length
      invariant a[..i] == SortByRate(input[..i])
      invariant forall k :: i <= k < a.Length ==> a[k] == input[k]
    {
      SortByRateStep(input, i);
      InsertInPlace(a, i);
    }
    assert a[..] == a[..a.Length];
    assert input == input[..a.Length];
  }

  /** The worked example end to end: Vermont's rate (16.13) is above Texas's
      (13.79), so the sort puts Vermont first. */
  lemma VermontBeforeTexas()
    ensures var tx := Entry(StateRecord("Texas", "TX", 4000, 3500, 29000000));
      var vt := Entry(StateRecord("Vermont", "VT", 100, 70, 620000));
      SortByRate([tx, vt]) == [vt, tx]
  {
    TexasAndVermont();
    var tx := Entry(StateRecord("Texas", "TX", 4000, 3500, 29000000));
    var vt := Entry(StateRecord("Vermont", "VT", 100, 70, 620000));
    assert [tx, vt][..1] == [tx] && [tx][..0] == [];
    assert SortByRate([tx]) == [tx];
    assert !InOrder(tx, vt);
    assert Insert([tx], vt) == Insert([], vt) + [tx];
  }
}
