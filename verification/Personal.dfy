/**
 Structural equality of saved personal blobs (`deepEqual` in client/lib/personal.js). An object is its
 list of entries in key order; what it means is a map, at every depth.
 */
module Personal {
  import opened Common

  datatype Json =
    | Null
    | Bool(b: bool)
    | Num(n: real)
    | Str(s: string)
    | Arr(items: seq<Json>)
    | Obj(entries: seq<Entry>)

  datatype Entry = Entry(key: string, value: Json)

  /** A value with the order of object keys forgotten. */
  datatype Meaning =
    | MScalar(value: Json)
    | MArr(items: seq<Meaning>)
    | MObj(fields: map<string, Meaning>)

  function Keys(entries: seq<Entry>): (keys: seq<string>)
    ensures |keys| == |entries|
    ensures forall i :: 0 <= i < |keys| ==> keys[i] == entries[i].key
  {
    seq(|entries|, i requires 0 <= i < |entries| => entries[i].key)
  }

  /** Objects hold each key once, at every depth. */
  predicate WellFormed(j: Json)
    decreases j, 0
  {
    match j
    case Arr(items) => forall i :: 0 <= i < |items| ==> WellFormed(items[i])
    case Obj(entries) =>
      Distinct(Keys(entries)) && forall i :: 0 <= i < |entries| ==> WellFormed(entries[i].value)
    case _ => true
  }

  function MeaningOf(j: Json): Meaning
    decreases j, 1
  {
    match j
    case Arr(items) => MArr(seq(|items|, i requires 0 <= i < |items| => MeaningOf(items[i])))
    case Obj(entries) => MObj(FieldsOf(entries))
    case _ => MScalar(j)
  }

  function FieldsOf(entries: seq<Entry>): map<string, Meaning>
    decreases entries, 0
  {
    if entries == [] then map[]
    else
      var last := entries[|entries| - 1];
      FieldsOf(entries[..|entries| - 1])[last.key := MeaningOf(last.value)]
  }

  /** The value under a key, if the object has it. */
  function Get(entries: seq<Entry>, key: string): (r: Option<Json>)
    ensures r.Some? <==> key in Keys(entries)
    ensures r.Some? ==> Entry(key, r.value) in entries
  {
    if entries == [] then None
    else
      var last := entries[|entries| - 1];
      assert Keys(entries) == Keys(entries[..|entries| - 1]) + [last.key];
      if last.key == key then Some(last.value) else Get(entries[..|entries| - 1], key)
  }

  // ---- the comparison --------------------------------------------------------------------------

  /** Key counts, and each of `a`'s keys present in `b` with an equal value: one direction only. */
  predicate DeepEqual(a: Json, b: Json)
    decreases a, 1
  {
    match (a, b)
    case (Arr(x), Arr(y)) => |x| == |y| && forall i :: 0 <= i < |x| ==> DeepEqual(x[i], y[i])
    case (Obj(x), Obj(y)) => |x| == |y| && forall i :: 0 <= i < |x| ==> FieldIn(x[i], y)
    case (Arr(_), _) => false
    case (Obj(_), _) => false
    case _ => a == b
  }

  predicate FieldIn(e: Entry, other: seq<Entry>)
    decreases e, 0
  {
    Get(other, e.key).Some? && DeepEqual(e.value, Get(other, e.key).value)
  }

  // ---- what it decides -------------------------------------------------------------------------

  lemma {:induction false} FieldsAreLookups(entries: seq<Entry>)
    requires Distinct(Keys(entries))
    ensures FieldsOf(entries).Keys == Elements(Keys(entries)) && |FieldsOf(entries)| == |entries|
    ensures forall k :: k in FieldsOf(entries) ==>
              Get(entries, k).Some? && FieldsOf(entries)[k] == MeaningOf(Get(entries, k).value)
  {
    hide MeaningOf;
    if entries != [] {
      var front, last := entries[..|entries| - 1], entries[|entries| - 1];
      assert Keys(entries) == Keys(front) + [last.key];
      FieldsAreLookups(front);
    }
    assert |FieldsOf(entries)| == |FieldsOf(entries).Keys|;
  }

  /** Equal sizes and one direction of membership already make two maps equal. */
  lemma OneDirectionSuffices<K, V>(a: map<K, V>, b: map<K, V>)
    requires |a| == |b| && forall k :: k in a ==> k in b && a[k] == b[k]
    ensures a == b
  {
    assert |a.Keys| == |a| && |b.Keys| == |b|;
    SubsetSize(a.Keys, b.Keys);
    assert a.Keys == b.Keys;
  }

  /** On values with distinct keys, the comparison holds exactly when the meanings are equal. */
  lemma {:induction false} DeepEqualIffSameMeaning(a: Json, b: Json)
    requires WellFormed(a) && WellFormed(b)
    ensures DeepEqual(a, b) <==> MeaningOf(a) == MeaningOf(b)
    decreases a
  {
    match (a, b)
    case (Arr(x), Arr(y)) =>
      forall i | 0 <= i < |x| && i < |y| ensures DeepEqual(x[i], y[i]) <==> MeaningOf(x[i]) == MeaningOf(y[i]) {
        DeepEqualIffSameMeaning(x[i], y[i]);
      }
      ArraysMean(x, y);
    case (Obj(x), Obj(y)) =>
      forall i | 0 <= i < |x| && Get(y, x[i].key).Some?
        ensures FieldIn(x[i], y) <==> MeaningOf(x[i].value) == MeaningOf(Get(y, x[i].key).value)
      {
        var j :| 0 <= j < |y| && y[j] == Entry(x[i].key, Get(y, x[i].key).value);
        DeepEqualIffSameMeaning(x[i].value, y[j].value);
      }
      ObjectsMean(x, y);
    case _ =>
  }

  lemma ArraysMean(x: seq<Json>, y: seq<Json>)
    ensures MeaningOf(Arr(x)) == MeaningOf(Arr(y))
            <==> |x| == |y| && forall i :: 0 <= i < |x| ==> MeaningOf(x[i]) == MeaningOf(y[i])
  {
    var mx, my := MeaningOf(Arr(x)).items, MeaningOf(Arr(y)).items;
    assert |mx| == |x| && |my| == |y|;
    if mx == my {
      forall i | 0 <= i < |x| ensures MeaningOf(x[i]) == MeaningOf(y[i]) {
        assert mx[i] == my[i];
      }
    }
  }

  ghost predicate SameField(e: Entry, other: seq<Entry>) {
    Get(other, e.key).Some? && MeaningOf(e.value) == MeaningOf(Get(other, e.key).value)
  }

  lemma FieldAt(x: seq<Entry>, i: nat)
    requires Distinct(Keys(x)) && i < |x|
    ensures x[i].key in FieldsOf(x) && FieldsOf(x)[x[i].key] == MeaningOf(x[i].value)
  {
    hide FieldsOf, MeaningOf, Get, Distinct, Keys;
    FieldsAreLookups(x);
    assert Keys(x)[i] in Elements(Keys(x));
    OwnValue(x, i);
  }

  lemma FieldSource(x: seq<Entry>, k: string) returns (i: nat)
    requires Distinct(Keys(x)) && k in FieldsOf(x)
    ensures i < |x| && x[i].key == k
  {
    hide FieldsOf, MeaningOf, Get, Distinct, Keys;
    FieldsAreLookups(x);
    i :| 0 <= i < |Keys(x)| && Keys(x)[i] == k;
  }

  /** `e` means the same as the field of its key in `other`. */
  lemma SameFieldMeans(e: Entry, other: seq<Entry>)
    requires Distinct(Keys(other))
    ensures SameField(e, other) <==> e.key in FieldsOf(other) && FieldsOf(other)[e.key] == MeaningOf(e.value)
  {
    hide FieldsOf, MeaningOf, Get, Distinct, Keys;
    FieldsAreLookups(other);
  }

  ghost predicate AllSame(x: seq<Entry>, y: seq<Entry>) {
    forall i :: 0 <= i < |x| ==> SameField(x[i], y)
  }

  lemma FieldsSize(x: seq<Entry>)
    requires Distinct(Keys(x))
    ensures |FieldsOf(x)| == |x|
  {
    FieldsAreLookups(x);
  }

  lemma SameFields(x: seq<Entry>, y: seq<Entry>)
    requires Distinct(Keys(x)) && Distinct(Keys(y))
    requires |x| == |y| && AllSame(x, y)
    ensures FieldsOf(x) == FieldsOf(y)
  {
    hide FieldsOf, MeaningOf, Get, Distinct, Keys, SameField;
    FieldsSize(x);
    FieldsSize(y);
    forall k | k in FieldsOf(x) ensures k in FieldsOf(y) && FieldsOf(x)[k] == FieldsOf(y)[k] {
      var i := FieldSource(x, k);
      FieldAt(x, i);
      SameFieldMeans(x[i], y);
    }
    OneDirectionSuffices(FieldsOf(x), FieldsOf(y));
  }

  lemma ObjectsMean(x: seq<Entry>, y: seq<Entry>)
    requires Distinct(Keys(x)) && Distinct(Keys(y))
    ensures FieldsOf(x) == FieldsOf(y) <==> |x| == |y| && AllSame(x, y)
  {
    hide FieldsOf, MeaningOf, Get, Distinct, Keys, SameField, AllSame;
    FieldsSize(x);
    FieldsSize(y);
    if |x| == |y| && AllSame(x, y) {
      SameFields(x, y);
    }
    if FieldsOf(x) == FieldsOf(y) {
      EqualFields(x, y);
    }
  }

  lemma EqualFields(x: seq<Entry>, y: seq<Entry>)
    requires Distinct(Keys(x)) && Distinct(Keys(y)) && FieldsOf(x) == FieldsOf(y)
    ensures AllSame(x, y)
  {
    hide FieldsOf, MeaningOf, Get, Distinct, Keys, SameField;
    forall i | 0 <= i < |x| ensures SameField(x[i], y) {
      FieldAt(x, i);
      SameFieldMeans(x[i], y);
    }
  }

  lemma {:induction false} OwnValue(entries: seq<Entry>, i: nat)
    requires Distinct(Keys(entries)) && i < |entries|
    ensures Get(entries, entries[i].key) == Some(entries[i].value)
  {
    var n := |entries| - 1;
    assert Keys(entries)[i] == entries[i].key && Keys(entries)[n] == entries[n].key;
    if i < n {
      assert Keys(entries[..n]) == Keys(entries)[..n];
      OwnValue(entries[..n], i);
    }
  }

  /** It is an equivalence, though it looks one way only. */
  lemma DeepEqualIsEquivalence(a: Json, b: Json, c: Json)
    requires WellFormed(a) && WellFormed(b) && WellFormed(c)
    ensures DeepEqual(a, a)
    ensures DeepEqual(a, b) <==> DeepEqual(b, a)
    ensures DeepEqual(a, b) && DeepEqual(b, c) ==> DeepEqual(a, c)
  {
    DeepEqualIffSameMeaning(a, a);
    DeepEqualIffSameMeaning(a, b);
    DeepEqualIffSameMeaning(b, a);
    DeepEqualIffSameMeaning(b, c);
    DeepEqualIffSameMeaning(a, c);
  }

  /** Reordering an object's keys, as a round trip through the daemon may, is never seen as a change. */
  lemma KeyOrderIsInvisible(entries: seq<Entry>, reordered: seq<Entry>)
    requires WellFormed(Obj(entries)) && multiset(entries) == multiset(reordered)
    requires Distinct(Keys(reordered))
    ensures DeepEqual(Obj(entries), Obj(reordered))
  {
    assert |entries| == |multiset(entries)| == |multiset(reordered)| == |reordered|;
    forall i | 0 <= i < |entries| ensures FieldIn(entries[i], reordered) {
      assert entries[i] in multiset(reordered);
      var j :| 0 <= j < |reordered| && reordered[j] == entries[i];
      OwnValue(reordered, j);
      DeepEqualIffSameMeaning(entries[i].value, entries[i].value);
    }
  }

  /** The comparison as it runs: the first difference ends it. */
  method Compare(a: Json, b: Json) returns (equal: bool)
    ensures equal == DeepEqual(a, b)
    decreases a
  {
    match (a, b) {
      case (Arr(x), Arr(y)) =>
        if |x| != |y| {
          return false;
        }
        var i := 0;
        while i < |x|
          invariant 0 <= i <= |x| && forall k :: 0 <= k < i ==> DeepEqual(x[k], y[k])
        {
          var same := Compare(x[i], y[i]);
          if !same {
            return false;
          }
          i := i + 1;
        }
        equal := true;
      case (Obj(x), Obj(y)) =>
        if |x| != |y| {
          return false;
        }
        var i := 0;
        while i < |x|
          invariant 0 <= i <= |x| && forall k :: 0 <= k < i ==> FieldIn(x[k], y)
        {
          var other := Get(y, x[i].key);
          if other.None? {
            return false;
          }
          var same := Compare(x[i].value, other.value);
          if !same {
            return false;
          }
          i := i + 1;
        }
        equal := true;
      case (Arr(_), _) => equal := false;
      case (Obj(_), _) => equal := false;
      case _ => equal := a == b;
    }
  }
}
