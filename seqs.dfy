/** `Array.prototype.filter` and the order-preservation it guarantees. */
module Seqs {

  /** a can be obtained from b by deleting elements: the elements of a occur in b in the same order. */
  ghost predicate IsSubsequence<T>(a: seq<T>, b: seq<T>)
    decreases |b|
  {
    a == [] || (b != [] && ((a[0] == b[0] && IsSubsequence(a[1..], b[1..])) || IsSubsequence(a, b[1..])))
  }

  /** No element occurs twice. */
  ghost predicate Distinct<T>(s: seq<T>) {
    forall i, j :: 0 <= i < j < |s| ==> s[i] != s[j]
  }

  lemma {:induction false} SubsequenceRefl<T>(a: seq<T>)
    ensures IsSubsequence(a, a)
    decreases |a|
  {
    if a != [] {
      SubsequenceRefl(a[1..]);
    }
  }

  lemma {:induction false} SubsequenceTrans<T>(a: seq<T>, b: seq<T>, c: seq<T>)
    requires IsSubsequence(a, b) && IsSubsequence(b, c)
    ensures IsSubsequence(a, c)
    decreases |c|
  {
    if a != [] {
      if b[0] == c[0] && IsSubsequence(b[1..], c[1..]) {
        if a[0] == b[0] && IsSubsequence(a[1..], b[1..]) {
          SubsequenceTrans(a[1..], b[1..], c[1..]);
        } else {
          SubsequenceTrans(a, b[1..], c[1..]);
        }
      } else {
        SubsequenceTrans(a, b, c[1..]);
      }
    }
  }

  /** Every element of a subsequence is an element of the whole. */
  lemma {:induction false} SubsequenceMembers<T>(a: seq<T>, b: seq<T>, i: int)
    requires IsSubsequence(a, b) && 0 <= i < |a|
    ensures a[i] in b
    decreases |b|
  {
    if a[0] == b[0] && IsSubsequence(a[1..], b[1..]) {
      if i > 0 {
        SubsequenceMembers(a[1..], b[1..], i - 1);
      }
    } else {
      SubsequenceMembers(a, b[1..], i);
    }
  }

  /** `s.filter(f)`. */
  function Filter<T>(f: T -> bool, s: seq<T>): (r: seq<T>)
    ensures |r| <= |s|
    ensures forall i :: 0 <= i < |r| ==> f(r[i])
    ensures forall i :: 0 <= i < |s| && f(s[i]) ==> s[i] in r
    ensures IsSubsequence(r, s)
    ensures (forall i :: 0 <= i < |s| ==> f(s[i])) ==> r == s
  {
    if s == [] then []
    else
      var rest := Filter(f, s[1..]);
      if f(s[0]) then
        assert ([s[0]] + rest)[1..] == rest;
        [s[0]] + rest
      else
        rest
  }

  /**
   * The filter keeps every passing element as often as it occurs, and no
   * other: membership alone would also admit a result that drops a duplicate.
   */
  lemma {:induction false} FilterMultiset<T>(f: T -> bool, s: seq<T>)
    ensures forall x :: multiset(Filter(f, s))[x] == if f(x) then multiset(s)[x] else 0
  {
    if s != [] {
      FilterMultiset(f, s[1..]);
      assert s == [s[0]] + s[1..];
      if f(s[0]) {
        assert Filter(f, s) == [s[0]] + Filter(f, s[1..]);
      }
    }
  }

  /** Two filters in a row keep what both keep. */
  lemma {:induction false} FilterFilter<T>(f: T -> bool, g: T -> bool, s: seq<T>)
    ensures Filter(g, Filter(f, s)) == Filter(x => f(x) && g(x), s)
  {
    if s != [] {
      FilterFilter(f, g, s[1..]);
      if f(s[0]) {
        assert Filter(f, s) == [s[0]] + Filter(f, s[1..]);
        assert Filter(f, s)[1..] == Filter(f, s[1..]);
      }
    }
  }

  /** Two filters in a row keep, in order, exactly the elements that pass both tests, each as often as it occurs. */
  lemma FilterTwice<T>(f: T -> bool, g: T -> bool, s: seq<T>)
    ensures var r := Filter(g, Filter(f, s));
      IsSubsequence(r, s)
      && (forall i :: 0 <= i < |r| ==> f(r[i]) && g(r[i]))
      && (forall i :: 0 <= i < |s| && f(s[i]) && g(s[i]) ==> s[i] in r)
      && (forall x :: multiset(r)[x] == if f(x) && g(x) then multiset(s)[x] else 0)
  {
    var t := Filter(f, s);
    var r := Filter(g, t);
    FilterMultiset(f, s);
    FilterMultiset(g, t);
    SubsequenceTrans(r, t, s);
    forall i | 0 <= i < |r| ensures f(r[i]) {
      SubsequenceMembers(r, t, i);
      var j :| 0 <= j < |t| && t[j] == r[i];
    }
    forall i | 0 <= i < |s| && f(s[i]) && g(s[i]) ensures s[i] in r {
      var j :| 0 <= j < |t| && t[j] == s[i];
    }
  }
}
