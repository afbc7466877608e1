/** The constant per-state "ease of drawing" table and its lookup with a
    default. The table is a JavaScript object literal: its properties are
    assigned in the order written, so a key written twice keeps the value of
    its later occurrence. */
module Difficulty {
  import opened Wrappers

  /** The entries of the object literal, in the order they are written,
      ten to a row. */
  const Row1: seq<(string, real)> := [
    ("IL", 9.0), ("AL", 2.0), ("AK", 1.0), ("AR", 3.0), ("CA", 9.51),
    ("CO", 0.0), ("DE", 3.1), ("DC", 1.3), ("FL", 8.9), ("GA", 3.9)
  ]

  const Row2: seq<(string, real)> := [
    ("HI", 4.5), ("ID", 4.0), ("IN", 4.3), ("IA", 4.1), ("KS", 1.6),
    ("KY", 7.0), ("LA", 6.5), ("MN", 2.1), ("MO", 5.5), ("ME", 7.44)
  ]

  const Row3: seq<(string, real)> := [
    ("MD", 10.0), ("MA", 6.8), ("MI", 9.7), ("MN", 5.1), ("MS", 3.8),
    ("MT", 1.4), ("NE", 1.9), ("NV", 0.5), ("NH", 3.7), ("NJ", 9.1)
  ]

  const Row4: seq<(string, real)> := [
    ("NM", 0.2), ("NY", 8.7), ("NC", 8.5), ("ND", 2.3), ("OH", 5.8),
    ("OK", 6.05), ("OR", 4.7), ("PA", 4.01), ("RI", 8.4), ("SC", 7.1)
  ]

  const Row5: seq<(string, real)> := [
    ("SD", 0.9), ("TN", 3.333333), ("TX", 8.1), ("UT", 2.8), ("VT", 2.6),
    ("VA", 8.2), ("WA", 9.2), ("WV", 7.9), ("WY", 0.0)
  ]

  const Entries: seq<(string, real)> := Row1 + Row2 + Row3 + Row4 + Row5

  /** The object after the first n entries of a literal have been assigned:
      it has exactly the keys written so far, each holding the value of its
      last write. */
  function Assigned(entries: seq<(string, real)>, n: nat): (obj: map<string, real>)
    requires n <= |entries|
    ensures forall k :: k in obj <==> exists i :: 0 <= i < n && entries[i].0 == k
    ensures forall i :: 0 <= i < n && (forall j :: i < j < n ==> entries[j].0 != entries[i].0) ==>
      obj[entries[i].0] == entries[i].1
  {
    if n == 0 then map[]
    else
      var prev := Assigned(entries, n - 1);
      AssignStep(entries, n, prev);
      prev[entries[n - 1].0 := entries[n - 1].1]
  }

  /** Writing entry n - 1 over the object built from the entries before it
      adds its key and leaves every other last write in place. */
  lemma AssignStep(entries: seq<(string, real)>, n: nat, prev: map<string, real>)
    requires 0 < n <= |entries|
    requires forall k :: k in prev <==> exists i :: 0 <= i < n - 1 && entries[i].0 == k
    requires forall i :: 0 <= i < n - 1 && (forall j :: i < j < n - 1 ==> entries[j].0 != entries[i].0) ==>
      prev[entries[i].0] == entries[i].1
    ensures var obj := prev[entries[n - 1].0 := entries[n - 1].1];
      (forall k :: k in obj <==> exists i :: 0 <= i < n && entries[i].0 == k) &&
      (forall i :: 0 <= i < n && (forall j :: i < j < n ==> entries[j].0 != entries[i].0) ==>
        obj[entries[i].0] == entries[i].1)
  {
    var key := entries[n - 1].0;
    forall i | 0 <= i < n - 1 && (forall j :: i < j < n ==> entries[j].0 != entries[i].0)
      ensures entries[i].0 != key && prev[entries[i].0] == entries[i].1
    {
      assert entries[n - 1].0 != entries[i].0;
    }
  }

  /** `drawingDifficulty`. */
  const DrawingDifficulty: map<string, real> := Assigned(Entries, |Entries|)

  /** The properties every plain object inherits from `Object.prototype`:
      a lookup of one of these names that the literal does not define itself
      finds a function or an object, not `undefined`. */
  const ObjectPrototypeNames: set<string> := {
    "constructor", "hasOwnProperty", "isPrototypeOf", "propertyIsEnumerable",
    "toLocaleString", "toString", "valueOf", "__proto__",
    "__defineGetter__", "__defineSetter__", "__lookupGetter__", "__lookupSetter__"
  }

  /** What `dd` can hold: a number from the table (or the default), or a
      non-number inherited from the prototype, named by its property. */
  datatype Ease = Rated(value: real) | Inherited(name: string)

  /** `drawingDifficulty[abbreviation]`: the literal's own property first,
      then the prototype's; `None` is `undefined`. */
  function Lookup(abbreviation: string): (dd: Option<Ease>)
    ensures abbreviation in DrawingDifficulty ==> dd == Some(Rated(DrawingDifficulty[abbreviation]))
    ensures abbreviation !in DrawingDifficulty ==>
      (dd.Some? <==> abbreviation in ObjectPrototypeNames)
    ensures abbreviation !in DrawingDifficulty && dd.Some? ==> dd == Some(Inherited(abbreviation))
  {
    if abbreviation in DrawingDifficulty then Some(Rated(DrawingDifficulty[abbreviation]))
    else if abbreviation in ObjectPrototypeNames then Some(Inherited(abbreviation))
    else None
  }

  /** The default used when the lookup finds nothing. */
  const DefaultEase: real := 5.0

  /** `dd === undefined ? 5 : dd`: the table's number for its own keys, the
      inherited property for the prototype's names, and 5 for anything else. */
  function EaseOfDrawing(abbreviation: string): (ease: Ease)
    ensures abbreviation in DrawingDifficulty ==> ease == Rated(DrawingDifficulty[abbreviation])
    ensures abbreviation !in DrawingDifficulty && abbreviation in ObjectPrototypeNames ==>
      ease == Inherited(abbreviation)
    ensures abbreviation !in DrawingDifficulty && abbreviation !in ObjectPrototypeNames ==>
      ease == Rated(DefaultEase)
  {
    match Lookup(abbreviation)
    case None => Rated(DefaultEase)
    case Some(dd) => dd
  }

  /** The table holds the value of the last entry that writes a key. */
  lemma EaseOfWrittenKey(i: int)
    requires 0 <= i < |Entries|
    requires forall j :: i < j < |Entries| ==> Entries[j].0 != Entries[i].0
    ensures EaseOfDrawing(Entries[i].0) == Rated(Entries[i].1)
  {
  }

  /** CO and WY are written with 0, and 0 is a value, not a missing key:
      the test is `=== undefined`, so they do not fall back to 5. */
  lemma ZeroIsNotMissing()
    ensures EaseOfDrawing("CO") == Rated(0.0)
    ensures EaseOfDrawing("WY") == Rated(0.0)
  {
    assert Entries[5].0 == "CO";
    assert forall j :: 5 < j < |Entries| ==> Entries[j].0 != "CO";
    EaseOfWrittenKey(5);
    EaseOfWrittenKey(|Entries| - 1);
  }

  /** MN is written twice, 2.1 and then 5.1; the later value wins. */
  lemma DuplicateKeyKeepsLaterValue()
    ensures Entries[17] == ("MN", 2.1) && Entries[23] == ("MN", 5.1)
    ensures EaseOfDrawing("MN") == Rated(5.1)
  {
    assert forall j :: 23 < j < |Entries| ==> Entries[j].0 != "MN";
    EaseOfWrittenKey(23);
  }

  /** The prototype's names are all longer than an abbreviation. */
  lemma ShortNamesAreOwn(k: string)
    requires |k| <= 2
    ensures k !in ObjectPrototypeNames
  {
  }

  /** Arizona, Connecticut and Wisconsin are not in the table, and neither is
      the empty key: they get the default. */
  lemma MissingStatesGetDefault(k: string)
    requires k in {"AZ", "CT", "WI", ""}
    ensures EaseOfDrawing(k) == Rated(DefaultEase)
  {
    ShortNamesAreOwn(k);
    assert forall j :: 0 <= j < |Entries| ==> Entries[j].0 != k;
  }

  /** A name the prototype supplies is not `undefined`, so it does not fall
      back to 5: the entry's ease of drawing is the inherited property. */
  lemma PrototypeNamesAreNotMissing(k: string)
    requires k in ObjectPrototypeNames
    ensures EaseOfDrawing(k) == Inherited(k)
  {
    assert forall j :: 0 <= j < |Entries| ==> Entries[j].0 != k;
  }
}
