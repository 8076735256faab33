/** The array queries the handlers use: `findIndex`/`find` and `filter`. */
module Seqs {

  /** `s.findIndex(p)`: the index of the first element satisfying `p`, or -1. */
  function FindIndex<T>(s: seq<T>, p: T -> bool): (r: int)
    ensures -1 <= r < |s|
    ensures 0 <= r ==> p(s[r])
    ensures forall j :: 0 <= j < |s| && (r < 0 || j < r) ==> !p(s[j])
  {
    if |s| == 0 then -1
    else if p(s[0]) then 0
    else
      var k := FindIndex(s[1..], p);
      if k < 0 then -1 else k + 1
  }

  /** The first-match characterisation determines `FindIndex` completely. */
  lemma FindIndexUnique<T>(s: seq<T>, p: T -> bool, r: int)
    requires -1 <= r < |s|
    requires 0 <= r ==> p(s[r])
    requires forall j :: 0 <= j < |s| && (r < 0 || j < r) ==> !p(s[j])
    ensures FindIndex(s, p) == r
  {
    var k := FindIndex(s, p);
    assert 0 <= k ==> p(s[k]);
  }

  /** Replacing an element by one that `p` judges the same way leaves the first match in place. */
  lemma FindIndexUpdate<T>(s: seq<T>, i: int, x: T, p: T -> bool)
    requires 0 <= i < |s|
    requires p(x) == p(s[i])
    ensures FindIndex(s[i := x], p) == FindIndex(s, p)
  {
    var t := s[i := x];
    var r := FindIndex(s, p);
    forall j | 0 <= j < |t| && (r < 0 || j < r)
      ensures !p(t[j])
    {
      if j != i { assert t[j] == s[j]; }
    }
    FindIndexUnique(t, p, r);
  }

  /** `s.filter(p)`: the elements satisfying `p`, in their original order. */
  function Filter<T>(s: seq<T>, p: T -> bool): (r: seq<T>)
    ensures |r| <= |s|
    ensures forall i :: 0 <= i < |r| ==> r[i] in s && p(r[i])
    ensures forall i :: 0 <= i < |s| && p(s[i]) ==> s[i] in r
  {
    if |s| == 0 then []
    else (if p(s[0]) then [s[0]] else []) + Filter(s[1..], p)
  }

  /** Filtering distributes over concatenation; with the one-element case this
      pins down that `Filter` keeps the original order. */
  lemma {:induction false} FilterAppend<T>(a: seq<T>, b: seq<T>, p: T -> bool)
    ensures Filter(a + b, p) == Filter(a, p) + Filter(b, p)
  {
    if |a| == 0 {
      assert a + b == b;
    } else {
      assert (a + b)[1..] == a[1..] + b;
      FilterAppend(a[1..], b, p);
    }
  }

  /** `s.splice(i, 1)`: drop the element at `i`. */
  function RemoveAt<T>(s: seq<T>, i: int): (r: seq<T>)
    requires 0 <= i < |s|
    ensures |r| == |s| - 1
    ensures forall j :: 0 <= j < i ==> r[j] == s[j]
    ensures forall j :: i <= j < |r| ==> r[j] == s[j + 1]
  {
    s[..i] + s[i + 1..]
  }

  /** Replacing an element that `p` rejects by another it rejects leaves the
      filtered sequence as it was. */
  lemma FilterUpdateRejected<T>(s: seq<T>, i: int, x: T, p: T -> bool)
    requires 0 <= i < |s| && !p(s[i]) && !p(x)
    ensures Filter(s[i := x], p) == Filter(s, p)
  {
    var a, b := s[..i], s[i + 1..];
    assert s == (a + [s[i]]) + b;
    assert s[i := x] == (a + [x]) + b;
    FilterDropRejected(a, s[i], b, p);
    FilterDropRejected(a, x, b, p);
  }

  /** Removing an element that `p` rejects leaves the filtered sequence as it was. */
  lemma FilterRemoveRejected<T>(s: seq<T>, i: int, p: T -> bool)
    requires 0 <= i < |s| && !p(s[i])
    ensures Filter(RemoveAt(s, i), p) == Filter(s, p)
  {
    var a, b := s[..i], s[i + 1..];
    assert s == (a + [s[i]]) + b;
    FilterDropRejected(a, s[i], b, p);
  }

  /** An element `p` rejects contributes nothing to the filtered sequence. */
  lemma FilterDropRejected<T>(a: seq<T>, x: T, b: seq<T>, p: T -> bool)
    requires !p(x)
    ensures Filter((a + [x]) + b, p) == Filter(a + b, p)
  {
    FilterAppend(a + [x], b, p);
    FilterAppend(a, [x], p);
    FilterAppend(a, b, p);
    assert Filter([x], p) == (if p(x) then [x] else []) + Filter([x][1..], p);
    assert Filter([x][1..], p) == [];
  }
}
