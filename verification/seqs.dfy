/** List operations the handlers use: `Array.prototype.filter`, `findIndex` and `slice`. */
module Seqs {
  import opened Wrappers

  /** `s.filter(p)`: the elements satisfying `p`, in their original order. */
  function Filter<T>(s: seq<T>, p: T -> bool): (r: seq<T>)
    ensures |r| <= |s|
  {
    if s == [] then []
    else if p(s[0]) then [s[0]] + Filter(s[1..], p)
    else Filter(s[1..], p)
  }

  /** The filter keeps exactly the elements satisfying `p`, and nothing that is not in `s`. */
  lemma {:induction false} FilterMembers<T>(s: seq<T>, p: T -> bool)
    ensures var r := Filter(s, p);
      && (forall i :: 0 <= i < |r| ==> r[i] in s && p(r[i]))
      && (forall i :: 0 <= i < |s| && p(s[i]) ==> s[i] in r)
      && multiset(r) <= multiset(s)
  {
    if s != [] {
      FilterMembers(s[1..], p);
      assert s == [s[0]] + s[1..];
    }
  }

  /** The filter keeps each element satisfying `p` exactly as often as it occurs, and drops every other. */
  lemma {:induction false} FilterCount<T>(s: seq<T>, p: T -> bool)
    ensures forall x :: multiset(Filter(s, p))[x] == if p(x) then multiset(s)[x] else 0
  {
    if s != [] {
      FilterCount(s[1..], p);
      assert s == [s[0]] + s[1..];
      assert multiset(s) == multiset{s[0]} + multiset(s[1..]);
    }
  }

  /** The filter keeps the original order: filtering a concatenation filters each part in turn. */
  lemma {:induction false} FilterAppend<T>(s1: seq<T>, s2: seq<T>, p: T -> bool)
    ensures Filter(s1 + s2, p) == Filter(s1, p) + Filter(s2, p)
  {
    if s1 == [] {
      assert s1 + s2 == s2;
    } else {
      assert (s1 + s2)[0] == s1[0];
      assert (s1 + s2)[1..] == s1[1..] + s2;
      FilterAppend(s1[1..], s2, p);
    }
  }

  /** A filter every element passes keeps the whole sequence; one none passes keeps nothing. */
  lemma {:induction false} FilterAllOrNone<T>(s: seq<T>, p: T -> bool)
    ensures (forall i :: 0 <= i < |s| ==> p(s[i])) ==> Filter(s, p) == s
    ensures (forall i :: 0 <= i < |s| ==> !p(s[i])) ==> Filter(s, p) == []
  {
    if s != [] {
      FilterAllOrNone(s[1..], p);
      assert s == [s[0]] + s[1..];
    }
  }

  /** Filtering twice is filtering once by the conjunction. */
  lemma {:induction false} FilterFilter<T>(s: seq<T>, p: T -> bool, q: T -> bool)
    ensures Filter(Filter(s, p), q) == Filter(s, x => p(x) && q(x))
  {
    if s != [] {
      FilterFilter(s[1..], p, q);
    }
  }

  /** `s.findIndex(p)`: the first index satisfying `p`, or None for JavaScript's -1. */
  function FindIndex<T>(s: seq<T>, p: T -> bool): (r: Option<nat>)
    ensures r.Some? ==> r.value < |s| && p(s[r.value])
    ensures r.Some? ==> forall j :: 0 <= j < r.value ==> !p(s[j])
    ensures r.None? <==> forall j :: 0 <= j < |s| ==> !p(s[j])
  {
    if s == [] then None
    else if p(s[0]) then Some(0)
    else match FindIndex(s[1..], p)
      case None => None
      case Some(i) => Some(i + 1)
  }

  /** `s.splice(i, 1)`: the sequence without its element at `i`, the others in order. */
  function RemoveAt<T>(s: seq<T>, i: nat): (r: seq<T>)
    requires i < |s|
    ensures |r| == |s| - 1
    ensures multiset(r) + multiset{s[i]} == multiset(s)
    ensures forall k :: 0 <= k < |r| ==> r[k] == s[if k < i then k else k + 1]
  {
    assert s == s[..i] + [s[i]] + s[i + 1..];
    s[..i] + s[i + 1..]
  }

  /** How `Array.prototype.slice` normalises an index: negative counts from the end, then clamped. */
  function SliceIndex(i: int, len: nat): (k: nat)
    ensures k <= len
    ensures 0 <= i <= len ==> k == i
    ensures i > len ==> k == len
    ensures i < 0 ==> k == if len + i < 0 then 0 else len + i
  {
    if i < 0 then (if len + i < 0 then 0 else len + i)
    else if i > len then len
    else i
  }

  /** `s.slice(start, end)`, including negative and out-of-range bounds. */
  function JsSlice<T>(s: seq<T>, start: int, end: int): (r: seq<T>)
    ensures |r| <= |s|
    ensures multiset(r) <= multiset(s)
  {
    var b, e := SliceIndex(start, |s|), SliceIndex(end, |s|);
    if b < e then
      assert s == s[..b] + s[b..e] + s[e..];
      s[b..e]
    else []
  }

  /** The page `page` (1-based) of size `limit`, as the handlers compute it. */
  function Page<T>(s: seq<T>, page: int, limit: int): seq<T> {
    JsSlice(s, (page - 1) * limit, (page - 1) * limit + limit)
  }

  /** A product of two non-negative numbers is non-negative. */
  lemma MulNonNegative(a: int, b: int)
    requires a >= 0 && b >= 0
    ensures a * b >= 0
  {
  }

  /** A window of `limit` elements starting at a non-negative `start`. */
  lemma {:induction false} WindowContents<T>(s: seq<T>, start: int, limit: int)
    requires start >= 0 && limit >= 1
    ensures var r := JsSlice(s, start, start + limit);
            && |r| == (if start >= |s| then 0 else if |s| - start < limit then |s| - start else limit)
            && forall j :: 0 <= j < |r| ==> r[j] == s[start + j]
  {
  }

  /**
   * For a 1-based page and a positive limit, the page holds the elements at
   * positions [(page-1)*limit, page*limit) of `s`, as many as exist.
   */
  lemma PageContents<T>(s: seq<T>, page: int, limit: int)
    requires page >= 1 && limit >= 1
    ensures var start := (page - 1) * limit;
            var r := Page(s, page, limit);
            && |r| == (if start >= |s| then 0 else if |s| - start < limit then |s| - start else limit)
            && forall j :: 0 <= j < |r| ==> r[j] == s[start + j]
  {
    MulNonNegative(page - 1, limit);
    WindowContents(s, (page - 1) * limit, limit);
  }
}
