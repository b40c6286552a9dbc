/** The measures of the payload before assembly: a keyed object of
    measures normalised to a list, the measures sorted by index, and the
    time signature each sorted measure states. */
module Measures {
  import opened Wrappers
  import opened Payload
  import opened Sorting

  // ---------------------------------------------------------------------
  // Normalising the measures

  /** A measure read from a keyed object: the key, when it parses as an
      integer, becomes its index if it has none. */
  function WithIndexFromKey(key: Option<int>, m: Measure): (r: Measure)
    ensures r.index == if m.index.Some? then m.index else key
    ensures r.signature == m.signature && r.voices == m.voices
  {
    if m.index.None? && key.Some? then m.(index := key) else m
  }

  /** The measures of a keyed object, in key order of insertion: the values
      that are not objects dropped, the others given their key as index. */
  function KeyedMeasures(pairs: seq<(Option<int>, Option<Measure>)>): (r: seq<Option<Measure>>)
    ensures |r| <= |pairs|
    ensures forall i :: 0 <= i < |r| ==> r[i].Some?
  {
    if pairs == [] then []
    else
      var (key, value) := pairs[|pairs| - 1];
      KeyedMeasures(pairs[..|pairs| - 1]) + match value case None => [] case Some(m) => [Some(WithIndexFromKey(key, m))]
  }

  /** A keyed object yields no measure exactly when none of its values is an object. */
  lemma {:induction false} KeyedMeasuresEmpty(pairs: seq<(Option<int>, Option<Measure>)>)
    ensures KeyedMeasures(pairs) == [] <==> forall i :: 0 <= i < |pairs| ==> pairs[i].1.None?
  {
    if pairs != [] {
      var init := pairs[..|pairs| - 1];
      KeyedMeasuresEmpty(init);
      assert forall i :: 0 <= i < |init| ==> init[i] == pairs[i];
    }
  }

  /** The measures of a prefix of the pairs are a prefix of the measures. */
  lemma {:induction false} KeyedMeasuresPrefix(pairs: seq<(Option<int>, Option<Measure>)>, n: nat)
    requires n <= |pairs|
    ensures var r := KeyedMeasures(pairs);
      var p := KeyedMeasures(pairs[..n]);
      |p| <= |r| && r[..|p|] == p
    decreases |pairs| - n
  {
    if n < |pairs| {
      KeyedMeasuresPrefix(pairs, n + 1);
      assert pairs[..n + 1][..n] == pairs[..n];
    } else {
      assert pairs[..n] == pairs;
    }
  }

  /** Each value that is an object is kept, after the measures of the pairs
      before it, with its own index or else its key. */
  lemma KeyedMeasureAt(pairs: seq<(Option<int>, Option<Measure>)>, j: nat)
    requires j < |pairs| && pairs[j].1.Some?
    ensures var r := KeyedMeasures(pairs);
      var k := |KeyedMeasures(pairs[..j])|;
      && k < |r|
      && r[k] == Some(WithIndexFromKey(pairs[j].0, pairs[j].1.value))
  {
    KeyedMeasuresPrefix(pairs, j + 1);
    assert pairs[..j + 1][..j] == pairs[..j];
  }

  /** The measures the conversion goes on with, or None when it raises the
      validation error: a list is taken as it is, a keyed object is
      normalised; an empty result, and a field of any other type, are errors. */
  function NormalizeMeasures(spec: MeasuresSpec): (r: Option<seq<Option<Measure>>>)
    ensures r.Some? ==> r.value != []
  {
    match spec
    case MeasureList(items) => if items == [] then None else Some(items)
    case MeasureMap(pairs) =>
      var ms := KeyedMeasures(pairs);
      if ms == [] then None else Some(ms)
    case NoMeasures => None
  }

  /** The validation error is raised exactly for a missing (or mistyped)
      measures field, an empty list, and a keyed object without a single
      object value. */
  lemma NormalizeMeasuresFails(spec: MeasuresSpec)
    ensures NormalizeMeasures(spec).None? <==>
      || spec.NoMeasures?
      || (spec.MeasureList? && spec.items == [])
      || (spec.MeasureMap? && forall i :: 0 <= i < |spec.pairs| ==> spec.pairs[i].1.None?)
  {
    if spec.MeasureMap? {
      KeyedMeasuresEmpty(spec.pairs);
    }
  }

  // ---------------------------------------------------------------------
  // Sorting the measures

  /** The measures that are objects, in order. */
  function Objects(ms: seq<Option<Measure>>): (r: seq<Measure>)
    ensures |r| <= |ms|
    ensures forall m :: m in r <==> Some(m) in ms
  {
    if ms == [] then []
    else
      var rest := Objects(ms[1..]);
      assert forall x :: x in ms <==> x == ms[0] || x in ms[1..];
      (match ms[0] case None => [] case Some(m) => [m]) + rest
  }

  /** Taking the objects keeps their order: it distributes over concatenation. */
  lemma {:induction false} ObjectsAppend(a: seq<Option<Measure>>, b: seq<Option<Measure>>)
    ensures Objects(a + b) == Objects(a) + Objects(b)
  {
    if a == [] {
      assert a + b == b;
    } else {
      assert (a + b)[0] == a[0] && (a + b)[1..] == a[1..] + b;
      ObjectsAppend(a[1..], b);
      var h: seq<Measure> := match a[0] case None => [] case Some(m) => [m];
      assert h + (Objects(a[1..]) + Objects(b)) == (h + Objects(a[1..])) + Objects(b);
    }
  }

  /** The sort key of a measure: its index, 0 when it has none. */
  function IndexKey(m: Measure): int {
    m.index.GetOr(0)
  }

  function WithIndexKeys(ms: seq<Measure>): (r: seq<(int, Measure)>)
    ensures |r| == |ms| && forall i :: 0 <= i < |ms| ==> r[i] == (IndexKey(ms[i]), ms[i])
  {
    seq(|ms|, i requires 0 <= i < |ms| => (IndexKey(ms[i]), ms[i]))
  }

  /** The measures that are objects, stably sorted by index. */
  function SortMeasures(ms: seq<Option<Measure>>): seq<Measure> {
    Items(StableSort(WithIndexKeys(Objects(ms))))
  }

  /** The sorted measures are the measures that are objects, rearranged so
      that their indices never fall, and measures with the same index keep
      the order they had. */
  lemma SortMeasuresOrders(ms: seq<Option<Measure>>)
    ensures var r := SortMeasures(ms);
      && |r| == |Objects(ms)|
      && (forall i, j :: 0 <= i < j < |r| ==> IndexKey(r[i]) <= IndexKey(r[j]))
      && multiset(WithIndexKeys(r)) == multiset(WithIndexKeys(Objects(ms)))
      && forall k :: WithKey(WithIndexKeys(r), k) == WithKey(WithIndexKeys(Objects(ms)), k)
  {
    var keyed := WithIndexKeys(Objects(ms));
    var sorted := StableSort(keyed);
    var r := Items(sorted);
    forall i | 0 <= i < |sorted|
      ensures sorted[i].0 == IndexKey(sorted[i].1)
    {
      assert sorted[i] in multiset(sorted);
      assert sorted[i] in keyed;
    }
    assert WithIndexKeys(r) == sorted;
  }

  // ---------------------------------------------------------------------
  // Time signatures

  /** The signature of a measure when both of its numbers are positive. */
  function ValidSignature(m: Measure): (r: Option<(int, int)>)
    ensures r.Some? <==> m.signature.Some? && m.signature.value.0 > 0 && m.signature.value.1 > 0
    ensures r.Some? ==> r == m.signature
  {
    match m.signature
    case Some((beats, beatType)) => if beats > 0 && beatType > 0 then m.signature else None
    case None => None
  }

  /** The last valid signature among the measures, None when there is none. */
  function LastValid(ms: seq<Measure>): (r: Option<(int, int)>)
    ensures r.None? <==> forall i :: 0 <= i < |ms| ==> ValidSignature(ms[i]).None?
    ensures r.Some? ==> r.value.0 > 0 && r.value.1 > 0
  {
    if ms == [] then None
    else
      var v := ValidSignature(ms[|ms| - 1]);
      if v.Some? then v else LastValid(ms[..|ms| - 1])
  }

  /** The time signature measure i of the sorted measures states: the first
      one states its valid signature, else 4/4; a later one states its valid
      signature only when it differs from the last valid signature before
      it (the 4/4 default of the first measure is not a valid signature). */
  function TimeAt(ms: seq<Measure>, i: nat): (r: Option<(int, int)>)
    requires i < |ms|
    ensures i == 0 ==> r.Some?
    ensures r.Some? ==> r.value.0 > 0 && r.value.1 > 0
  {
    var v := ValidSignature(ms[i]);
    if i == 0 then Some(v.GetOr((4, 4)))
    else if v.Some? && v != LastValid(ms[..i]) then v
    else None
  }

  /** The time signature in force at measure i: the last one stated. */
  function InForce(ms: seq<Measure>, i: nat): (r: (int, int))
    requires i < |ms|
  {
    match TimeAt(ms, i)
    case Some(t) => t
    case None => InForce(ms, i - 1)
  }

  /** The stated signatures put in force, at every measure, the last valid
      signature so far, and 4/4 while there is none: no change of signature
      is lost. */
  lemma {:induction false} InForceIsLastValid(ms: seq<Measure>, i: nat)
    requires i < |ms|
    ensures InForce(ms, i) == LastValid(ms[..i + 1]).GetOr((4, 4))
  {
    assert ms[..i + 1][..i] == ms[..i];
    if i > 0 && TimeAt(ms, i).None? {
      InForceIsLastValid(ms, i - 1);
    }
  }

  /** A later measure restates the signature in force only as a valid 4/4
      after measures with none: the default is never recorded as seen. */
  lemma RestatesOnlyTheDefault(ms: seq<Measure>, i: nat)
    requires 0 < i < |ms|
    requires TimeAt(ms, i) == Some(InForce(ms, i - 1))
    ensures LastValid(ms[..i]).None? && InForce(ms, i - 1) == (4, 4)
  {
    InForceBefore(ms, i);
    OnlyTheDefault(ValidSignature(ms[i]), LastValid(ms[..i]), InForce(ms, i - 1));
  }

  lemma InForceBefore(ms: seq<Measure>, i: nat)
    requires 0 < i < |ms|
    ensures InForce(ms, i - 1) == LastValid(ms[..i]).GetOr((4, 4))
  {
    InForceIsLastValid(ms, i - 1);
    assert ms[..i - 1 + 1] == ms[..i];
  }

  lemma OnlyTheDefault(v: Option<(int, int)>, last: Option<(int, int)>, t: (int, int))
    requires v.Some? && v != last && v == Some(t) && t == last.GetOr((4, 4))
    ensures last.None? && t == (4, 4)
  {
  }

  /** An example: a 3/4 measure without a signature after it, then 3/4
      again: only the first states a signature; a measure without one at
      the start states 4/4 and a valid 4/4 after it states 4/4 again. */
  lemma TimeExamples()
    ensures var a := Measure(None, Some((3, 4)), []);
      var b := Measure(None, None, []);
      var ms := [a, b, a];
      TimeAt(ms, 0) == Some((3, 4)) && TimeAt(ms, 1) == None && TimeAt(ms, 2) == None
    ensures var b := Measure(None, None, []);
      var c := Measure(None, Some((4, 4)), []);
      var ms := [b, c];
      TimeAt(ms, 0) == Some((4, 4)) && TimeAt(ms, 1) == Some((4, 4))
  {
    var a := Measure(None, Some((3, 4)), []);
    var b := Measure(None, None, []);
    var c := Measure(None, Some((4, 4)), []);
    assert [a, b, a][..2] == [a, b];
    assert [a, b][..1] == [a];
    assert [b, c][..1] == [b];
  }
}
