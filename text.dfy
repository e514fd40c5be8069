/**
 * Joining a list of strings with a separator and splitting a string on one,
 * with the semantics of the host language's `str.join` and `str.split(sep)`.
 */
module Text {
  import opened Wrappers

  /** `sep` occurs in `s` starting at position `i`. */
  predicate OccursAt(s: string, sep: string, i: nat) {
    i + |sep| <= |s| && s[i..i + |sep|] == sep
  }

  /** `sep` occurs nowhere in `s`. */
  predicate Free(s: string, sep: string) {
    forall i: nat :: i < |s| ==> !OccursAt(s, sep, i)
  }

  /** No proper prefix of `sep` is also a suffix of it, so two occurrences cannot overlap. */
  predicate BorderFree(sep: string) {
    forall k :: 0 < k < |sep| ==> sep[..k] != sep[|sep| - k..]
  }

  /** `sep.join(parts)`. */
  function Join(parts: seq<string>, sep: string): (s: string)
    ensures |parts| == 1 ==> s == parts[0]
  {
    if |parts| == 0 then ""
    else if |parts| == 1 then parts[0]
    else parts[0] + sep + Join(parts[1..], sep)
  }

  lemma OccursAtShift(s: string, sep: string, k: nat)
    requires |s| > 0
    ensures OccursAt(s[1..], sep, k) <==> OccursAt(s, sep, k + 1)
  {
    if k + 1 + |sep| <= |s| {
      assert s[1..][k..k + |sep|] == s[k + 1..k + 1 + |sep|];
    }
  }

  /** Position of the leftmost occurrence of `sep` in `s`, if any. */
  function IndexOf(s: string, sep: string): (r: Option<nat>)
    requires |sep| > 0
    ensures r.Some? ==> OccursAt(s, sep, r.value)
    ensures r.Some? ==> forall j: nat :: j < r.value ==> !OccursAt(s, sep, j)
    ensures r.None? ==> Free(s, sep)
    decreases |s|
  {
    if |s| < |sep| then None
    else if s[..|sep|] == sep then Some(0)
    else
      var r := IndexOf(s[1..], sep);
      assert forall k: nat :: OccursAt(s[1..], sep, k) <==> OccursAt(s, sep, k + 1) by {
        forall k: nat ensures OccursAt(s[1..], sep, k) <==> OccursAt(s, sep, k + 1) {
          OccursAtShift(s, sep, k);
        }
      }
      assert forall j: nat :: j > 0 ==> (OccursAt(s, sep, j) <==> OccursAt(s[1..], sep, j - 1));
      match r
      case None => None
      case Some(k) => Some(k + 1)
  }

  /** `s.split(sep)`: the pieces between the leftmost non-overlapping occurrences of `sep`. */
  function Split(s: string, sep: string): (parts: seq<string>)
    requires |sep| > 0
    ensures |parts| > 0
    decreases |s|
  {
    match IndexOf(s, sep)
    case None => [s]
    case Some(i) => [s[..i]] + Split(s[i + |sep|..], sep)
  }

  /** In `e + sep + rest`, with `sep` absent from `e`, the first occurrence of `sep` is the one just after `e`. */
  lemma FirstSeparator(e: string, sep: string, rest: string)
    requires |sep| > 0 && BorderFree(sep) && Free(e, sep)
    ensures IndexOf(e + sep + rest, sep) == Some(|e|)
  {
    var s := e + sep + rest;
    assert s[|e|..|e| + |sep|] == sep;
    assert OccursAt(s, sep, |e|);
    forall j: nat | j < |e|
      ensures !OccursAt(s, sep, j)
    {
      if j + |sep| <= |e| {
        assert s[j..j + |sep|] == e[j..j + |sep|];
        assert !OccursAt(e, sep, j);
      } else {
        // an occurrence straddling the end of `e` would make `sep` overlap itself
        var k := j + |sep| - |e|;
        assert sep[..k] != sep[|sep| - k..];
      }
    }
  }

  /**
   * Splitting a joined list gives the list back when no piece contains the
   * separator and the separator cannot overlap itself.
   */
  lemma {:induction false} SplitJoin(parts: seq<string>, sep: string)
    requires |parts| > 0 && |sep| > 0 && BorderFree(sep)
    requires forall k :: 0 <= k < |parts| ==> Free(parts[k], sep)
    ensures Split(Join(parts, sep), sep) == parts
  {
    if |parts| == 1 {
      assert Free(parts[0], sep);
    } else {
      var e, rest := parts[0], Join(parts[1..], sep);
      assert Free(e, sep);
      FirstSeparator(e, sep, rest);
      var s := e + sep + rest;
      assert s[..|e|] == e;
      assert s[|e| + |sep|..] == rest;
      SplitJoin(parts[1..], sep);
    }
  }

  /** A string without the character `c` contains no separator beginning with `c`. */
  lemma FreeOfFirstChar(s: string, sep: string)
    requires |sep| > 0 && sep[0] !in s
    ensures Free(s, sep)
  {
    forall i: nat | i < |s|
      ensures !OccursAt(s, sep, i)
    {
      if i + |sep| <= |s| {
        assert s[i..i + |sep|][0] == s[i];
      }
    }
  }
}
