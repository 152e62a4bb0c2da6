/** Sequence and map facts shared by the other modules. */
module Prelude {

  datatype Option<+T> = None | Some(value: T)

  ghost predicate NoDup<T>(s: seq<T>) {
    forall i, j :: 0 <= i < j < |s| ==> s[i] != s[j]
  }

  lemma Inhabited<T>(s: set<T>) returns (x: T)
    requires |s| > 0
    ensures x in s
  {
    x :| x in s;
  }

  /** The elements of s that satisfy p, in order. */
  function Filter<T>(s: seq<T>, p: T -> bool): seq<T> {
    if s == [] then []
    else Filter(s[..|s| - 1], p) + (if p(s[|s| - 1]) then [s[|s| - 1]] else [])
  }

  function Map<T, U>(s: seq<T>, f: T -> U): (r: seq<U>)
    ensures |r| == |s| && forall i :: 0 <= i < |s| ==> r[i] == f(s[i])
  {
    if s == [] then [] else Map(s[..|s| - 1], f) + [f(s[|s| - 1])]
  }

  lemma FilterNext<T>(s: seq<T>, i: nat, p: T -> bool)
    requires i < |s|
    ensures Filter(s[..i + 1], p) == if p(s[i]) then Filter(s[..i], p) + [s[i]] else Filter(s[..i], p)
  {
    assert s[..i + 1][..i] == s[..i];
    assert Filter(s[..i], p) + [] == Filter(s[..i], p);
  }

  lemma MapSnoc<T, U>(s: seq<T>, x: T, f: T -> U)
    ensures Map(s + [x], f) == Map(s, f) + [f(x)]
  {
    assert (s + [x])[..|s|] == s;
  }

  /** How many elements of s satisfy p. */
  function Count<T>(s: seq<T>, p: T -> bool): nat {
    if s == [] then 0 else Count(s[..|s| - 1], p) + (if p(s[|s| - 1]) then 1 else 0)
  }

  lemma CountSnoc<T>(s: seq<T>, x: T, p: T -> bool)
    ensures Count(s + [x], p) == Count(s, p) + (if p(x) then 1 else 0)
  {
    assert (s + [x])[..|s|] == s;
  }

  lemma {:induction false} CountConcat<T>(s: seq<T>, t: seq<T>, p: T -> bool)
    ensures Count(s + t, p) == Count(s, p) + Count(t, p)
  {
    if t == [] {
      assert s + t == s;
    } else {
      assert (s + t)[..|s + t| - 1] == s + t[..|t| - 1];
      CountConcat(s, t[..|t| - 1], p);
    }
  }

  lemma CountHead<T>(s: seq<T>, p: T -> bool)
    requires s != []
    ensures Count(s, p) == (if p(s[0]) then 1 else 0) + Count(s[1..], p)
  {
    CountConcat(s[..1], s[1..], p);
    CountSnoc([], s[0], p);
    assert s == s[..1] + s[1..];
    assert s[..1] == [] + [s[0]];
  }

  /** Rewriting rows with f turns a count by p into a count by q, when q anticipates f. */
  lemma {:induction false} CountMapped<T, U>(s: seq<T>, f: T -> U, p: U -> bool, q: T -> bool)
    requires forall x :: x in s ==> p(f(x)) == q(x)
    ensures Count(Map(s, f), p) == Count(s, q)
  {
    if s != [] {
      var n := |s| - 1;
      assert s[n] in s;
      CountMapped(s[..n], f, p, q);
      CountSnoc(Map(s[..n], f), f(s[n]), p);
    }
  }

  /** Counting among the kept rows is counting with both predicates. */
  lemma {:induction false} CountFiltered<T>(s: seq<T>, keep: T -> bool, p: T -> bool, q: T -> bool)
    requires forall x :: x in s ==> (keep(x) && p(x)) == q(x)
    ensures Count(Filter(s, keep), p) == Count(s, q)
  {
    if s != [] {
      var n := |s| - 1;
      assert s[n] in s;
      CountFiltered(s[..n], keep, p, q);
      if keep(s[n]) { CountSnoc(Filter(s[..n], keep), s[n], p); }
      else { assert Filter(s[..n], keep) + [] == Filter(s[..n], keep); }
    }
  }

  lemma {:induction false} CountFilterLe<T>(s: seq<T>, keep: T -> bool, p: T -> bool, q: T -> bool)
    requires forall x :: x in s && keep(x) && p(x) ==> q(x)
    ensures Count(Filter(s, keep), p) <= Count(s, q)
  {
    if s != [] {
      var n := |s| - 1;
      assert s[n] in s;
      CountFilterLe(s[..n], keep, p, q);
      if keep(s[n]) { CountSnoc(Filter(s[..n], keep), s[n], p); }
      else { assert Filter(s[..n], keep) + [] == Filter(s[..n], keep); }
    }
  }

  lemma {:induction false} CountLe<T>(s: seq<T>, p: T -> bool, q: T -> bool)
    requires forall x :: x in s && p(x) ==> q(x)
    ensures Count(s, p) <= Count(s, q)
  {
    if s != [] {
      assert s[|s| - 1] in s;
      CountLe(s[..|s| - 1], p, q);
    }
  }

  lemma CountEq<T>(s: seq<T>, p: T -> bool, q: T -> bool)
    requires forall x :: x in s ==> p(x) == q(x)
    ensures Count(s, p) == Count(s, q)
  {
    CountLe(s, p, q);
    CountLe(s, q, p);
  }

  lemma CountNone<T>(s: seq<T>, p: T -> bool)
    requires forall x :: x in s ==> !p(x)
    ensures Count(s, p) == 0
  {
    if s != [] {
      assert s[|s| - 1] in s;
      CountNone(s[..|s| - 1], p);
    }
  }

  lemma {:induction false} InFilter<T>(s: seq<T>, p: T -> bool, x: T)
    ensures x in Filter(s, p) <==> x in s && p(x)
  {
    if s != [] {
      assert s == s[..|s| - 1] + [s[|s| - 1]];
      InFilter(s[..|s| - 1], p, x);
    }
  }

  lemma {:induction false} FilterConcat<T>(s: seq<T>, t: seq<T>, p: T -> bool)
    ensures Filter(s + t, p) == Filter(s, p) + Filter(t, p)
  {
    if t == [] {
      assert s + t == s;
    } else {
      assert (s + t)[..|s + t| - 1] == s + t[..|t| - 1];
      FilterConcat(s, t[..|t| - 1], p);
    }
  }

  lemma {:induction false} FilterEq<T>(s: seq<T>, p: T -> bool, q: T -> bool)
    requires forall x :: x in s ==> p(x) == q(x)
    ensures Filter(s, p) == Filter(s, q)
  {
    if s != [] {
      assert s[|s| - 1] in s;
      FilterEq(s[..|s| - 1], p, q);
    }
  }

  /** xs can be read off zs by skipping some of its elements. */
  ghost predicate IsSubseq<T>(xs: seq<T>, zs: seq<T>) {
    xs == [] || (zs != [] && ((xs[0] == zs[0] && IsSubseq(xs[1..], zs[1..])) || IsSubseq(xs, zs[1..])))
  }

  lemma {:induction false} SubseqSnoc<T>(xs: seq<T>, zs: seq<T>, e: T)
    requires IsSubseq(xs, zs)
    ensures IsSubseq(xs, zs + [e]) && IsSubseq(xs + [e], zs + [e])
  {
    if zs == [] {
      assert xs + [e] == [e] && zs + [e] == [e];
      assert [e][1..] == [];
    } else {
      assert (zs + [e])[1..] == zs[1..] + [e];
      if xs == [] || IsSubseq(xs, zs[1..]) {
        SubseqSnoc(xs, zs[1..], e);
      } else {
        SubseqSnoc(xs[1..], zs[1..], e);
        assert (xs + [e])[1..] == xs[1..] + [e];
      }
    }
  }

  lemma {:induction false} SubseqAppend<T>(xs: seq<T>, zs: seq<T>, ys: seq<T>)
    requires IsSubseq(xs, zs)
    ensures IsSubseq(xs + ys, zs + ys)
  {
    if ys == [] {
      assert xs + ys == xs && zs + ys == zs;
    } else {
      var n := |ys| - 1;
      SubseqAppend(xs, zs, ys[..n]);
      SubseqSnoc(xs + ys[..n], zs + ys[..n], ys[n]);
      assert ys == ys[..n] + [ys[n]];
      assert (xs + ys[..n]) + [ys[n]] == xs + ys && (zs + ys[..n]) + [ys[n]] == zs + ys;
    }
  }

  lemma {:induction false} SubseqTrans<T>(xs: seq<T>, ys: seq<T>, zs: seq<T>)
    requires IsSubseq(xs, ys) && IsSubseq(ys, zs)
    ensures IsSubseq(xs, zs)
    decreases |zs|
  {
    if xs != [] {
      if ys[0] == zs[0] && IsSubseq(ys[1..], zs[1..]) {
        if xs[0] == ys[0] && IsSubseq(xs[1..], ys[1..]) {
          SubseqTrans(xs[1..], ys[1..], zs[1..]);
        } else {
          SubseqTrans(xs, ys[1..], zs[1..]);
        }
      } else {
        SubseqTrans(xs, ys, zs[1..]);
      }
    }
  }

  lemma FilterCons<T>(s: seq<T>, p: T -> bool)
    requires s != []
    ensures Filter(s, p) == (if p(s[0]) then [s[0]] else []) + Filter(s[1..], p)
  {
    FilterConcat(s[..1], s[1..], p);
    assert s == s[..1] + s[1..];
    assert s[..1] == [s[0]] && [s[0]][..0] == [];
  }

  lemma SubseqCons<T>(x: T, xs: seq<T>, zs: seq<T>)
    requires IsSubseq(xs, zs)
    ensures IsSubseq([x] + xs, [x] + zs) && IsSubseq(xs, [x] + zs)
  {
    assert ([x] + xs)[1..] == xs && ([x] + zs)[1..] == zs;
  }

  /** Picking rows by p keeps one sequence inside the other. */
  lemma {:induction false} SubseqFilter<T>(xs: seq<T>, zs: seq<T>, p: T -> bool)
    requires IsSubseq(xs, zs)
    ensures IsSubseq(Filter(xs, p), Filter(zs, p))
    decreases |zs|
  {
    if xs != [] {
      FilterCons(zs, p);
      if xs[0] == zs[0] && IsSubseq(xs[1..], zs[1..]) {
        SubseqFilter(xs[1..], zs[1..], p);
        FilterCons(xs, p);
        if p(zs[0]) {
          SubseqCons(zs[0], Filter(xs[1..], p), Filter(zs[1..], p));
        } else {
          assert [] + Filter(xs[1..], p) == Filter(xs[1..], p) && [] + Filter(zs[1..], p) == Filter(zs[1..], p);
        }
      } else {
        SubseqFilter(xs, zs[1..], p);
        if p(zs[0]) {
          SubseqCons(zs[0], Filter(xs, p), Filter(zs[1..], p));
        } else {
          assert [] + Filter(zs[1..], p) == Filter(zs[1..], p);
        }
      }
    }
  }

  lemma {:induction false} SubseqSelf<T>(s: seq<T>)
    ensures IsSubseq(s, s)
  {
    if s != [] { SubseqSelf(s[1..]); }
  }

  lemma {:induction false} FilterSubseq<T>(s: seq<T>, p: T -> bool)
    ensures IsSubseq(Filter(s, p), s)
  {
    if s != [] {
      var n := |s| - 1;
      FilterSubseq(s[..n], p);
      SubseqSnoc(Filter(s[..n], p), s[..n], s[n]);
      assert s == s[..n] + [s[n]];
      assert Filter(s[..n], p) + [] == Filter(s[..n], p);
    }
  }

  lemma {:induction false} FilterMultiset<T>(s: seq<T>, p: T -> bool, x: T)
    ensures multiset(Filter(s, p))[x] == if p(x) then multiset(s)[x] else 0
  {
    if s != [] {
      var n := |s| - 1;
      FilterMultiset(s[..n], p, x);
      assert s == s[..n] + [s[n]];
    }
  }

  function Get<K(==)>(m: map<K, nat>, k: K): nat { if k in m then m[k] else 0 }

  /** m[k]++ on a Go map of counters. */
  function Bump<K(==)>(m: map<K, nat>, k: K): map<K, nat> { m[k := Get(m, k) + 1] }

  /** The sum of all counters. */
  ghost function Total<K>(m: map<K, nat>): nat {
    if m == map[] then 0
    else
      var k :| k in m;
      m[k] + Total(m - {k})
  }

  /** The sum does not depend on the order in which keys are taken. */
  lemma {:induction false} TotalWithout<K>(m: map<K, nat>, k: K)
    requires k in m
    ensures Total(m) == m[k] + Total(m - {k})
  {
    var j :| j in m && Total(m) == m[j] + Total(m - {j});
    if j != k {
      TotalWithout(m - {j}, k);
      TotalWithout(m - {k}, j);
      assert (m - {j}) - {k} == (m - {k}) - {j};
    }
  }

  lemma TotalBump<K>(m: map<K, nat>, k: K)
    ensures Total(Bump(m, k)) == Total(m) + 1
  {
    TotalWithout(Bump(m, k), k);
    if k in m {
      TotalWithout(m, k);
      assert Bump(m, k) - {k} == m - {k};
    } else {
      assert Bump(m, k) - {k} == m;
    }
  }
}
