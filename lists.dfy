/**
 * `Array.prototype.filter` and the facts every list view in the console relies on:
 * the result keeps the input's order (it is a subsequence) and keeps each element that
 * passes the test exactly as often as the input holds it, and no other element.
 */
module Lists {

  /** `s.filter(p)`. */
  function Filter<T>(s: seq<T>, p: T -> bool): (r: seq<T>)
    ensures |r| <= |s|
    ensures forall i :: 0 <= i < |r| ==> p(r[i])
  {
    if |s| == 0 then []
    else if p(s[0]) then [s[0]] + Filter(s[1..], p)
    else Filter(s[1..], p)
  }

  /** `a` is `b` with some elements left out and the rest in their original order. */
  predicate SubseqOf<T(==)>(a: seq<T>, b: seq<T>)
    decreases |b|
  {
    if |b| == 0 then |a| == 0
    else SubseqOf(a, b[1..]) || (|a| > 0 && a[0] == b[0] && SubseqOf(a[1..], b[1..]))
  }

  lemma {:induction false} EmptySubseq<T>(b: seq<T>)
    ensures SubseqOf([], b)
    decreases |b|
  {
    if |b| > 0 {
      EmptySubseq(b[1..]);
    }
  }

  lemma {:induction false} SubseqRefl<T>(s: seq<T>)
    ensures SubseqOf(s, s)
    decreases |s|
  {
    if |s| > 0 {
      SubseqRefl(s[1..]);
    }
  }

  lemma {:induction false} SubseqLength<T>(a: seq<T>, b: seq<T>)
    requires SubseqOf(a, b)
    ensures |a| <= |b|
    decreases |b|
  {
    if |b| > 0 {
      if SubseqOf(a, b[1..]) {
        SubseqLength(a, b[1..]);
      } else {
        SubseqLength(a[1..], b[1..]);
      }
    }
  }

  lemma {:induction false} SubseqTrans<T>(a: seq<T>, b: seq<T>, c: seq<T>)
    requires SubseqOf(a, b) && SubseqOf(b, c)
    ensures SubseqOf(a, c)
    decreases |c|
  {
    if |b| == 0 {
      EmptySubseq(c);
    } else if SubseqOf(b, c[1..]) {
      SubseqTrans(a, b, c[1..]);
    } else if SubseqOf(a, b[1..]) {
      SubseqTrans(a, b[1..], c[1..]);
    } else {
      SubseqTrans(a[1..], b[1..], c[1..]);
    }
  }

  /** A filter is a subsequence of its input. */
  lemma {:induction false} FilterIsSubseq<T>(s: seq<T>, p: T -> bool)
    ensures SubseqOf(Filter(s, p), s)
  {
    if |s| > 0 {
      FilterIsSubseq(s[1..], p);
      var r := Filter(s, p);
      if p(s[0]) {
        assert r[0] == s[0] && r[1..] == Filter(s[1..], p);
      }
    }
  }

  /** A filter keeps every element that passes, as many times as the input holds it, and nothing else. */
  lemma {:induction false} FilterCounts<T>(s: seq<T>, p: T -> bool)
    ensures forall x :: multiset(Filter(s, p))[x] == if p(x) then multiset(s)[x] else 0
  {
    if |s| > 0 {
      FilterCounts(s[1..], p);
      assert s == [s[0]] + s[1..];
    }
  }

  /** Both facts at once, the form the views state their results in. */
  lemma FilterSpec<T>(s: seq<T>, p: T -> bool)
    ensures SubseqOf(Filter(s, p), s)
    ensures forall x :: multiset(Filter(s, p))[x] == if p(x) then multiset(s)[x] else 0
  {
    FilterIsSubseq(s, p);
    FilterCounts(s, p);
  }

  /** A test every element passes leaves the list as it is. */
  lemma {:induction false} FilterKeepsAll<T>(s: seq<T>, p: T -> bool)
    requires forall i :: 0 <= i < |s| ==> p(s[i])
    ensures Filter(s, p) == s
  {
    if |s| > 0 {
      FilterKeepsAll(s[1..], p);
    }
  }

  /** A test no element passes gives the empty list. */
  lemma {:induction false} FilterKeepsNone<T>(s: seq<T>, p: T -> bool)
    requires forall i :: 0 <= i < |s| ==> !p(s[i])
    ensures Filter(s, p) == []
  {
    if |s| > 0 {
      FilterKeepsNone(s[1..], p);
    }
  }

  /** A filter is empty exactly when no element passes. */
  lemma {:induction false} FilterEmptyIff<T>(s: seq<T>, p: T -> bool)
    ensures Filter(s, p) == [] <==> forall i :: 0 <= i < |s| ==> !p(s[i])
  {
    if |s| > 0 {
      FilterEmptyIff(s[1..], p);
      assert forall i :: 0 < i < |s| ==> s[i] == s[1..][i - 1];
    }
  }

  /** Two tests that agree on every element filter alike. */
  lemma {:induction false} FilterAgree<T>(s: seq<T>, p: T -> bool, q: T -> bool)
    requires forall i :: 0 <= i < |s| ==> p(s[i]) == q(s[i])
    ensures Filter(s, p) == Filter(s, q)
  {
    if |s| > 0 {
      FilterAgree(s[1..], p, q);
    }
  }

  /** Two tests no element passes both of select at most the whole list between them. */
  lemma {:induction false} FilterDisjoint<T>(s: seq<T>, p: T -> bool, q: T -> bool)
    requires forall i :: 0 <= i < |s| ==> !(p(s[i]) && q(s[i]))
    ensures |Filter(s, p)| + |Filter(s, q)| <= |s|
  {
    if |s| > 0 {
      FilterDisjoint(s[1..], p, q);
    }
  }

  /**
   * One stage of `if (cond) filtered = filtered.filter(p)`: when `cond` holds it is a filter,
   * otherwise the list passes through.
   */
  function FilterWhen<T(==,!new)>(cond: bool, s: seq<T>, p: T -> bool): (r: seq<T>)
    ensures SubseqOf(r, s)
    ensures forall x :: multiset(r)[x] == if !cond || p(x) then multiset(s)[x] else 0
    ensures !cond ==> r == s
  {
    if cond then
      FilterSpec(s, p);
      Filter(s, p)
    else
      SubseqRefl(s);
      s
  }

  /** How many elements of `s` pass `p`. */
  function Count<T>(s: seq<T>, p: T -> bool): nat {
    if |s| == 0 then 0 else (if p(s[0]) then 1 else 0) + Count(s[1..], p)
  }

  /** The length of a filter is the number of elements that pass. */
  lemma {:induction false} FilterLength<T>(s: seq<T>, p: T -> bool)
    ensures |Filter(s, p)| == Count(s, p)
  {
    if |s| > 0 {
      FilterLength(s[1..], p);
    }
  }

  function Both<T>(p: T -> bool, q: T -> bool): T -> bool {
    x => p(x) && q(x)
  }

  /** Filtering twice is filtering once by both tests. */
  lemma {:induction false} FilterFilter<T>(s: seq<T>, p: T -> bool, q: T -> bool)
    ensures Filter(Filter(s, p), q) == Filter(s, Both(p, q))
  {
    if |s| > 0 {
      FilterFilter(s[1..], p, q);
      if p(s[0]) {
        var t := Filter(s, p);
        assert t[0] == s[0] && t[1..] == Filter(s[1..], p);
      }
    }
  }

  predicate NoDuplicates<T(==)>(s: seq<T>) {
    forall i, j :: 0 <= i < j < |s| ==> s[i] != s[j]
  }

  /**
   * The values of `s` not in `seen`, each once, in the order of first occurrence: what
   * spreading a `Set` filled from `s` yields when `seen` is empty.
   */
  function DistinctAfter<T(==)>(s: seq<T>, seen: seq<T>): (r: seq<T>)
    ensures NoDuplicates(r)
    ensures forall i :: 0 <= i < |r| ==> r[i] in s && r[i] !in seen
    ensures forall i :: 0 <= i < |s| && s[i] !in seen ==> s[i] in r
    ensures SubseqOf(r, s)
  {
    if |s| == 0 then []
    else if s[0] in seen then DistinctAfter(s[1..], seen)
    else
      var rest := DistinctAfter(s[1..], seen + [s[0]]);
      assert ([s[0]] + rest)[1..] == rest;
      [s[0]] + rest
  }

  /** `[...new Set(s)]`. */
  function Distinct<T(==)>(s: seq<T>): (r: seq<T>)
    ensures NoDuplicates(r)
    ensures forall i :: 0 <= i < |r| ==> r[i] in s
    ensures forall i :: 0 <= i < |s| ==> s[i] in r
    ensures SubseqOf(r, s)
  {
    DistinctAfter(s, [])
  }
}
