/**
 * The few column operations of the table library that the backend relies on:
 * `dropna`, `unique` and `mean`, over a column held as a sequence.
 */
module Series {
  import opened Wrappers

  /** No value occurs twice. */
  predicate Distinct<T(==)>(s: seq<T>) {
    forall i, j :: 0 <= i < j < |s| ==> s[i] != s[j]
  }

  /** `dropna` on one column: the present values, in their original order. */
  function DropNulls<T(==,!new)>(s: seq<Option<T>>): (r: seq<T>)
    ensures |r| <= |s|
    ensures forall x :: x in r <==> Some(x) in s
  {
    if s == [] then []
    else
      var rest := DropNulls(s[1..]);
      assert forall x :: Some(x) in s <==> s[0] == Some(x) || Some(x) in s[1..];
      match s[0]
      case Some(v) => [v] + rest
      case None => rest
  }

  lemma {:induction false} DropNullsAppend<T(!new)>(a: seq<Option<T>>, b: seq<Option<T>>)
    ensures DropNulls(a + b) == DropNulls(a) + DropNulls(b)
  {
    if a != [] {
      assert (a + b)[1..] == a[1..] + b;
      DropNullsAppend(a[1..], b);
    } else {
      assert a + b == b;
    }
  }

  /** Index of the first occurrence of `x` in `s`. */
  function FirstIndex<T(==)>(s: seq<T>, x: T): (i: nat)
    requires x in s
    ensures i < |s| && s[i] == x
    ensures forall j :: 0 <= j < i ==> s[j] != x
  {
    if s[0] == x then 0 else 1 + FirstIndex(s[1..], x)
  }

  /**
   * `unique`: every value of `s` once, in order of first occurrence. Defined from the
   * back: the last value is kept only when it has not been seen before.
   */
  function Unique<T(==,!new)>(s: seq<T>): (r: seq<T>)
    ensures Distinct(r)
    ensures forall x :: x in r <==> x in s
    ensures |r| <= |s|
  {
    if s == [] then []
    else
      var prefix := s[..|s| - 1];
      var last := s[|s| - 1];
      var r := Unique(prefix);
      assert s == prefix + [last];
      if last in r then r else r + [last]
  }

  lemma FirstIndexExtend<T>(p: seq<T>, y: T, x: T)
    requires x in p
    ensures x in p + [y] && FirstIndex(p + [y], x) == FirstIndex(p, x)
  {
    var i := FirstIndex(p, x);
    var k := FirstIndex(p + [y], x);
    assert (p + [y])[i] == x;
    assert k < |p| ==> p[k] == (p + [y])[k];
  }

  /** The result of `unique` lists its values in the order in which they first occur in `s`. */
  lemma {:induction false} UniqueFirstOccurrenceOrder<T(!new)>(s: seq<T>)
    ensures forall i, j :: 0 <= i < j < |Unique(s)| ==>
      FirstIndex(s, Unique(s)[i]) < FirstIndex(s, Unique(s)[j])
  {
    if s != [] {
      var prefix := s[..|s| - 1];
      var last := s[|s| - 1];
      assert s == prefix + [last];
      var r := Unique(prefix);
      UniqueFirstOccurrenceOrder(prefix);
      forall x | x in r
        ensures FirstIndex(s, x) == FirstIndex(prefix, x) < |prefix|
      {
        FirstIndexExtend(prefix, last, x);
      }
      if last !in r {
        assert last !in prefix;
        assert FirstIndex(s, last) == |prefix|;
      }
    }
  }

  /** Sum of the values of a column. */
  function Sum(s: seq<real>): real {
    if s == [] then 0.0 else s[0] + Sum(s[1..])
  }

  /**
   * `mean` over exact reals; undefined (the null marker) when there is no value,
   * where the library yields a not-a-number.
   */
  function Mean(s: seq<real>): (m: Option<real>)
    ensures m.None? <==> s == []
    ensures m.Some? ==> m.value * (|s| as real) == Sum(s)
  {
    if s == [] then None else Some(Sum(s) / (|s| as real))
  }

  lemma {:induction false} SumBounds(s: seq<real>, lo: real, hi: real)
    requires forall k :: 0 <= k < |s| ==> lo <= s[k] <= hi
    ensures (|s| as real) * lo <= Sum(s) <= (|s| as real) * hi
  {
    if s != [] {
      SumBounds(s[1..], lo, hi);
    }
  }

  /** A mean lies between the smallest and the largest value it is taken over. */
  lemma MeanBetween(s: seq<real>, lo: real, hi: real)
    requires s != []
    requires forall k :: 0 <= k < |s| ==> lo <= s[k] <= hi
    ensures lo <= Mean(s).value <= hi
  {
    var n := |s| as real;
    var m := Mean(s).value;
    SumBounds(s, lo, hi);
    assert m * n == Sum(s);
  }

  /** The mean of a column holding one value throughout is that value. */
  lemma MeanOfConstant(s: seq<real>, c: real)
    requires s != []
    requires forall k :: 0 <= k < |s| ==> s[k] == c
    ensures Mean(s) == Some(c)
  {
    MeanBetween(s, c, c);
  }
}
