/**
 * The array methods the providers and components build their lists with:
 * `filter`, `find`, an id-targeted `map`, and the first-occurrence dedupe of
 * `[...new Set(xs)]`, each with the properties the callers rely on.
 */
module Seqs {
  import opened Wrappers

  /** `s.filter(p)`. */
  function Filter<T>(s: seq<T>, p: T -> bool): (r: seq<T>)
    ensures |r| <= |s|
    ensures forall i :: 0 <= i < |r| ==> r[i] in s && p(r[i])
    ensures forall i :: 0 <= i < |s| && p(s[i]) ==> s[i] in r
  {
    if s == [] then [] else if p(s[0]) then [s[0]] + Filter(s[1..], p) else Filter(s[1..], p)
  }

  /** `s.filter(p).length`. */
  function Count<T>(s: seq<T>, p: T -> bool): (n: nat)
    ensures n <= |s|
    ensures n == 0 <==> forall i :: 0 <= i < |s| ==> !p(s[i])
  {
    var r := Filter(s, p);
    assert r != [] ==> r[0] in s && p(r[0]);
    |r|
  }

  /**
   * `filter` keeps every passing element as often as the input has it, and
   * drops every failing one: equal records are kept or dropped together.
   */
  lemma {:induction false} FilterMultiset<T>(s: seq<T>, p: T -> bool)
    ensures forall x :: multiset(Filter(s, p))[x] == if p(x) then multiset(s)[x] else 0
  {
    if s != [] {
      FilterMultiset(s[1..], p);
      assert s == [s[0]] + s[1..];
    }
  }

  /** Counting a list with one more element in front adds one exactly when that element passes. */
  lemma CountCons<T>(x: T, s: seq<T>, p: T -> bool)
    ensures Count([x] + s, p) == (if p(x) then 1 else 0) + Count(s, p)
  {
    assert ([x] + s)[1..] == s;
  }

  /** `x => p(x) || q(x)`. */
  function Either<T>(p: T -> bool, q: T -> bool): T -> bool {
    x => p(x) || q(x)
  }

  /** Counts of two predicates no element satisfies together add up to the count of either. */
  lemma {:induction false} CountDisjoint<T>(s: seq<T>, p: T -> bool, q: T -> bool)
    requires forall i :: 0 <= i < |s| ==> !(p(s[i]) && q(s[i]))
    ensures Count(s, p) + Count(s, q) == Count(s, Either(p, q))
  {
    if s != [] {
      CountDisjoint(s[1..], p, q);
    }
  }

  /** Filtering a concatenation filters each part. */
  lemma {:induction false} FilterAppend<T>(a: seq<T>, b: seq<T>, p: T -> bool)
    ensures Filter(a + b, p) == Filter(a, p) + Filter(b, p)
  {
    if a == [] {
      assert a + b == b;
    } else {
      assert (a + b)[1..] == a[1..] + b;
      FilterAppend(a[1..], b, p);
    }
  }

  /** A filter whose predicate holds of every element keeps the whole list. */
  lemma {:induction false} FilterKeepsAll<T>(s: seq<T>, p: T -> bool)
    requires forall i :: 0 <= i < |s| ==> p(s[i])
    ensures Filter(s, p) == s
  {
    if s != [] {
      FilterKeepsAll(s[1..], p);
    }
  }

  /** `a` is `b` with some elements left out and the others in their original order. */
  ghost predicate Subsequence<T>(a: seq<T>, b: seq<T>)
    decreases |b|
  {
    if a == [] then true
    else if b == [] then false
    else (a[0] == b[0] && Subsequence(a[1..], b[1..])) || Subsequence(a, b[1..])
  }

  /** The filtered list is a subsequence of the original: kept elements stay in their original order. */
  lemma {:induction false} FilterIsSubsequence<T>(s: seq<T>, p: T -> bool)
    ensures Subsequence(Filter(s, p), s)
  {
    if s != [] {
      FilterIsSubsequence(s[1..], p);
      if p(s[0]) {
        assert Filter(s, p) == [s[0]] + Filter(s[1..], p);
        assert Filter(s, p)[1..] == Filter(s[1..], p);
      }
    }
  }

  /** `s.slice(0, n)`. */
  function Take<T>(s: seq<T>, n: nat): (r: seq<T>)
    ensures |r| == (if |s| < n then |s| else n)
  {
    if n == 0 || s == [] then [] else [s[0]] + Take(s[1..], n - 1)
  }

  /** The slice keeps the first elements in place. */
  lemma {:induction false} TakeIsPrefix<T>(s: seq<T>, n: nat)
    ensures forall i :: 0 <= i < |Take(s, n)| ==> Take(s, n)[i] == s[i]
  {
    if n > 0 && s != [] {
      TakeIsPrefix(s[1..], n - 1);
    }
  }

  /** `[f(1), f(2), ..., f(n)]`: what a loop pushing `f(k)` for `k` from 1 to `n` builds. */
  function Tabulate<T>(f: int -> T, n: nat): (r: seq<T>)
    ensures |r| == n
  {
    if n == 0 then [] else Tabulate(f, n - 1) + [f(n)]
  }

  /** Position `i` of a tabulation holds `f(i + 1)`. */
  lemma {:induction false} TabulateAt<T>(f: int -> T, n: nat)
    ensures forall i :: 0 <= i < n ==> Tabulate(f, n)[i] == f(i + 1)
  {
    if n > 0 {
      var init, all := Tabulate(f, n - 1), Tabulate(f, n);
      TabulateAt(f, n - 1);
      forall i | 0 <= i < n
        ensures all[i] == f(i + 1)
      {
        if i < n - 1 {
          assert all[i] == init[i];
        }
      }
    }
  }

  /** After a prefix `pad`, position `i` of a tabulation holds `f(i - |pad| + 1)`. */
  lemma {:induction false} PaddedTabulateAt<T>(pad: seq<T>, f: int -> T, n: nat)
    ensures forall i :: |pad| <= i < |pad| + n ==> (pad + Tabulate(f, n))[i] == f(i - |pad| + 1)
  {
    TabulateAt(f, n);
  }

  /** `s.findIndex(p)`, as an option: the first position whose element satisfies `p`. */
  function FindIndex<T>(s: seq<T>, p: T -> bool): (r: Option<nat>)
    ensures r.Some? ==> r.value < |s| && p(s[r.value]) && forall j :: 0 <= j < r.value ==> !p(s[j])
    ensures r.None? <==> forall j :: 0 <= j < |s| ==> !p(s[j])
  {
    if s == [] then None
    else if p(s[0]) then Some(0)
    else match FindIndex(s[1..], p)
      case None => None
      case Some(k) => Some(k + 1)
  }

  /** `s.find(p)`: the first element satisfying `p`, or `undefined`. */
  function Find<T>(s: seq<T>, p: T -> bool): (r: Option<T>)
    ensures r.None? <==> forall j :: 0 <= j < |s| ==> !p(s[j])
    ensures r.Some? ==> exists i :: 0 <= i < |s| && s[i] == r.value && p(s[i]) && forall j :: 0 <= j < i ==> !p(s[j])
  {
    match FindIndex(s, p)
    case None => None
    case Some(i) => Some(s[i])
  }

  /** The first element satisfying `p` is the one found. */
  lemma FindFirst<T>(s: seq<T>, p: T -> bool, k: nat)
    requires k < |s| && p(s[k]) && forall j :: 0 <= j < k ==> !p(s[j])
    ensures Find(s, p) == Some(s[k])
  {
    var r := FindIndex(s, p);
    assert r.Some? && r.value == k;
  }

  /** Searching past an element that does not match is searching the rest. */
  lemma FindSkip<T>(s: seq<T>, p: T -> bool)
    requires s != [] && !p(s[0])
    ensures Find(s, p) == Find(s[1..], p)
  {
  }

  /** A match in `s` hides every match in what is appended after it. */
  lemma {:induction false} FindAppend<T>(s: seq<T>, t: seq<T>, p: T -> bool)
    ensures Find(s + t, p) == if Find(s, p).Some? then Find(s, p) else Find(t, p)
  {
    if s == [] {
      assert s + t == t;
    } else if !p(s[0]) {
      assert (s + t)[1..] == s[1..] + t;
      FindSkip(s + t, p);
      FindSkip(s, p);
      FindAppend(s[1..], t, p);
    }
  }

  /** `s.map(x => m(x) ? f(x) : x)`: the shape of every update-by-id in the providers. */
  function MapWhere<T>(s: seq<T>, m: T -> bool, f: T -> T): (r: seq<T>)
    ensures |r| == |s|
    ensures forall i :: 0 <= i < |s| && m(s[i]) ==> r[i] == f(s[i])
    ensures forall i :: 0 <= i < |s| && !m(s[i]) ==> r[i] == s[i]
  {
    if s == [] then [] else [if m(s[0]) then f(s[0]) else s[0]] + MapWhere(s[1..], m, f)
  }

  /** Nothing matching means nothing changes. */
  lemma MapWhereNoMatch<T>(s: seq<T>, m: T -> bool, f: T -> T)
    requires forall i :: 0 <= i < |s| ==> !m(s[i])
    ensures MapWhere(s, m, f) == s
  {
  }

  /** `[...new Set(s)]`: the distinct elements, each at its first occurrence, in order. */
  function Dedupe<T(==)>(s: seq<T>): (r: seq<T>)
    ensures forall i :: 0 <= i < |r| ==> r[i] in s
    ensures forall i :: 0 <= i < |s| ==> s[i] in r
    ensures forall i, j :: 0 <= i < j < |r| ==> r[i] != r[j]
  {
    if s == [] then []
    else
      var d := Dedupe(s[..|s| - 1]);
      assert forall i :: 0 <= i < |s| - 1 ==> s[i] == s[..|s| - 1][i];
      if s[|s| - 1] in d then d else d + [s[|s| - 1]]
  }

  /** Position of the first occurrence of `x` in `s`. */
  function FirstIndex<T(==)>(s: seq<T>, x: T): (i: nat)
    requires x in s
    ensures i < |s| && s[i] == x && x !in s[..i]
  {
    if s[0] == x then 0 else 1 + FirstIndex(s[1..], x)
  }

  lemma {:induction false} FirstIndexOfPrefix<T>(s: seq<T>, n: nat, x: T)
    requires n <= |s| && x in s[..n]
    ensures FirstIndex(s[..n], x) == FirstIndex(s, x)
  {
    if s[0] != x {
      assert s[..n][1..] == s[1..][..n - 1];
      FirstIndexOfPrefix(s[1..], n - 1, x);
    }
  }

  lemma {:induction false} FirstIndexAt<T>(s: seq<T>, n: nat)
    requires n < |s| && s[n] !in s[..n]
    ensures FirstIndex(s, s[n]) == n
  {
    if n > 0 {
      assert s[0] in s[..n];
      assert s[1..][..n - 1] == s[..n][1..];
      FirstIndexAt(s[1..], n - 1);
    }
  }

  /** The dedupe lists values in the order of their first occurrences. */
  lemma {:induction false} DedupeFirstOccurrenceOrder<T>(s: seq<T>)
    ensures forall i, j :: 0 <= i < j < |Dedupe(s)| ==> FirstIndex(s, Dedupe(s)[i]) < FirstIndex(s, Dedupe(s)[j])
  {
    if s != [] {
      var n := |s| - 1;
      var init := s[..n];
      var d := Dedupe(init);
      DedupeFirstOccurrenceOrder(init);
      forall x | x in d ensures FirstIndex(s, x) == FirstIndex(init, x) && FirstIndex(s, x) < n {
        FirstIndexOfPrefix(s, n, x);
      }
      if s[n] !in d {
        assert s[n] !in init;
        FirstIndexAt(s, n);
      }
    }
  }
}
