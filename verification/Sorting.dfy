/**
 What a library sort promises, whatever its algorithm: a permutation in which no
 later element is less than an earlier one. Equal elements may come in any order.
 */
module Sorting {
  predicate SortedBy<A>(less: (A, A) -> bool, s: seq<A>) {
    forall i, j | 0 <= i < j < |s| :: !less(s[j], s[i])
  }

  predicate IsSortOf<A(==)>(less: (A, A) -> bool, sorted: seq<A>, s: seq<A>) {
    SortedBy(less, sorted) && multiset(sorted) == multiset(s)
  }

  ghost predicate Transitive<A(!new)>(less: (A, A) -> bool) {
    forall x, y, z :: !less(y, x) && !less(z, y) ==> !less(z, x)
  }

  ghost predicate Antisymmetric<A(!new)>(less: (A, A) -> bool) {
    forall x, y :: less(x, y) ==> !less(y, x)
  }

  function Map<A, B>(f: A -> B, s: seq<A>): (r: seq<B>)
    ensures |r| == |s| && forall i | 0 <= i < |s| :: r[i] == f(s[i])
  {
    seq(|s|, i requires 0 <= i < |s| => f(s[i]))
  }

  function Without<A>(s: seq<A>, k: nat): seq<A>
    requires k < |s|
  {
    s[..k] + s[k + 1..]
  }

  lemma WithoutMultiset<A>(s: seq<A>, k: nat)
    requires k < |s|
    ensures multiset(s) == multiset(Without(s, k)) + multiset{s[k]}
    ensures multiset(Without(s, k)) == multiset(s) - multiset{s[k]}
  {
    assert s == s[..k] + [s[k]] + s[k + 1..];
  }

  lemma TailMultiset<A>(s: seq<A>)
    requires s != []
    ensures multiset(s[1..]) == multiset(s) - multiset{s[0]} && multiset(s) == multiset(s[1..]) + multiset{s[0]}
  {
    assert s == [s[0]] + s[1..];
  }

  lemma IndexOf<A>(s: seq<A>, x: A) returns (k: nat)
    requires x in multiset(s)
    ensures k < |s| && s[k] == x
  {
    k :| 0 <= k < |s| && s[k] == x;
  }

  lemma {:induction false} MapMultiset<A, B>(f: A -> B, a: seq<A>, b: seq<A>)
    requires multiset(a) == multiset(b)
    ensures multiset(Map(f, a)) == multiset(Map(f, b))
    decreases |a|
  {
    assert |multiset(a)| == |a| && |multiset(b)| == |b|;
    if a != [] {
      var k := IndexOf(b, a[0]);
      TailMultiset(a);
      WithoutMultiset(b, k);
      MapMultiset(f, a[1..], Without(b, k));
      MapWithout(f, a, b, k);
    }
  }

  lemma MapWithout<A, B>(f: A -> B, a: seq<A>, b: seq<A>, k: nat)
    requires a != [] && k < |b| && b[k] == a[0]
    requires multiset(Map(f, a[1..])) == multiset(Map(f, Without(b, k)))
    ensures multiset(Map(f, a)) == multiset(Map(f, b))
  {
    TailMultiset(Map(f, a));
    WithoutMultiset(Map(f, b), k);
    assert Map(f, a)[1..] == Map(f, a[1..]);
    assert Without(Map(f, b), k) == Map(f, Without(b, k));
  }

  function Sum(ns: seq<nat>): nat { if ns == [] then 0 else ns[0] + Sum(ns[1..]) }

  lemma {:induction false} SumSplits(a: seq<nat>, b: seq<nat>)
    ensures Sum(a + b) == Sum(a) + Sum(b)
  {
    if a == [] {
      assert a + b == b;
    } else {
      assert (a + b)[1..] == a[1..] + b;
      SumSplits(a[1..], b);
    }
  }

  lemma SumWithout(ns: seq<nat>, k: nat)
    requires k < |ns|
    ensures Sum(ns) == ns[k] + Sum(Without(ns, k))
  {
    SumSplits(ns[..k], ns[k + 1..]);
    SumSplits(ns[..k], [ns[k]] + ns[k + 1..]);
    assert ns == ns[..k] + ([ns[k]] + ns[k + 1..]) && ([ns[k]] + ns[k + 1..])[1..] == ns[k + 1..];
  }

  lemma {:induction false} SumIgnoresOrder(a: seq<nat>, b: seq<nat>)
    requires multiset(a) == multiset(b)
    ensures Sum(a) == Sum(b)
    decreases |a|
  {
    assert |multiset(a)| == |a| && |multiset(b)| == |b|;
    if a != [] {
      var k := IndexOf(b, a[0]);
      TailMultiset(a);
      WithoutMultiset(b, k);
      SumIgnoresOrder(a[1..], Without(b, k));
      SumWithout(b, k);
    }
  }

  lemma HeadsAgree<A>(less: (A, A) -> bool, a: seq<A>, b: seq<A>)
    requires a != [] && b != [] && multiset(a) == multiset(b) && SortedBy(less, a) && SortedBy(less, b)
    requires forall x, y | x in a && y in a :: !less(x, y) && !less(y, x) ==> x == y
    ensures a[0] == b[0]
  {
    assert a[0] in multiset(a) && b[0] in multiset(b);
    var i := IndexOf(b, a[0]);
    var j := IndexOf(a, b[0]);
    assert i > 0 ==> !less(b[i], b[0]);
    assert j > 0 ==> !less(a[j], a[0]);
  }

  /** When only equal elements tie, a multiset has one sorted arrangement. */
  lemma {:induction false} SortIsUnique<A>(less: (A, A) -> bool, a: seq<A>, b: seq<A>)
    requires multiset(a) == multiset(b) && SortedBy(less, a) && SortedBy(less, b)
    requires forall x, y | x in a && y in a :: !less(x, y) && !less(y, x) ==> x == y
    ensures a == b
    decreases |a|
  {
    assert |multiset(a)| == |a| && |multiset(b)| == |b|;
    if a != [] {
      HeadsAgree(less, a, b);
      TailMultiset(a);
      TailMultiset(b);
      SortIsUnique(less, a[1..], b[1..]);
    }
  }

  predicate NoDuplicates<A(==)>(ts: seq<A>) { forall i, j | 0 <= i < j < |ts| :: ts[i] != ts[j] }

  /** Two positions of equal value are one occurrence each. */
  lemma TwoOccurrences<A>(ts: seq<A>, i: nat, j: nat)
    requires i < j < |ts| && ts[i] == ts[j]
    ensures multiset(ts)[ts[i]] >= 2
  {
    assert ts == ts[..i] + [ts[i]] + ts[i + 1..j] + [ts[j]] + ts[j + 1..];
  }

  lemma {:induction false} DuplicatesShow<A>(ts: seq<A>, t: A)
    requires NoDuplicates(ts)
    ensures multiset(ts)[t] <= 1
  {
    if ts != [] {
      TailMultiset(ts);
      assert forall i, j | 0 <= i < j < |ts[1..]| :: ts[1..][i] == ts[i + 1] && ts[1..][j] == ts[j + 1];
      DuplicatesShow(ts[1..], t);
      assert ts[0] !in ts[1..];
    }
  }

  lemma NoDuplicatesIgnoresOrder<A>(a: seq<A>, b: seq<A>)
    requires multiset(a) == multiset(b) && NoDuplicates(a)
    ensures NoDuplicates(b)
  {
    forall i, j | 0 <= i < j < |b| ensures b[i] != b[j] {
      if b[i] == b[j] {
        TwoOccurrences(b, i, j);
        DuplicatesShow(a, b[i]);
      }
    }
  }

  function Insert<A>(less: (A, A) -> bool, x: A, s: seq<A>): seq<A> {
    if s == [] || !less(s[0], x) then [x] + s else [s[0]] + Insert(less, x, s[1..])
  }

  /** A sorted arrangement of every list. */
  function Arrange<A>(less: (A, A) -> bool, s: seq<A>): seq<A> {
    if s == [] then [] else Insert(less, s[0], Arrange(less, s[1..]))
  }

  lemma {:induction false} InsertMultiset<A>(less: (A, A) -> bool, x: A, s: seq<A>)
    ensures multiset(Insert(less, x, s)) == multiset(s) + multiset{x}
    decreases |s|
  {
    if s != [] && less(s[0], x) {
      InsertMultiset(less, x, s[1..]);
      TailMultiset(s);
    }
  }

  lemma Chain<A(!new)>(less: (A, A) -> bool, x: A, y: A, z: A)
    requires Transitive(less) && !less(y, x) && !less(z, y)
    ensures !less(z, x)
  {
  }

  lemma {:induction false} InsertSorts<A(!new)>(less: (A, A) -> bool, x: A, s: seq<A>)
    requires Transitive(less) && Antisymmetric(less) && SortedBy(less, s)
    ensures SortedBy(less, Insert(less, x, s))
    decreases |s|
  {
    var r := Insert(less, x, s);
    if s == [] || !less(s[0], x) {
      forall i, j | 0 <= i < j < |r| ensures !less(r[j], r[i]) {
        hide Transitive;
        if i == 0 && j > 1 {
          Chain(less, x, s[0], s[j - 1]);
        }
      }
    } else {
      assert !less(x, s[0]);
      var t := Insert(less, x, s[1..]);
      InsertSorts(less, x, s[1..]);
      InsertMultiset(less, x, s[1..]);
      forall j | 0 <= j < |t| ensures !less(t[j], s[0]) {
        assert t[j] in multiset(t);
        if t[j] != x {
          var k := IndexOf(s[1..], t[j]);
          assert s[k + 1] == t[j];
        }
      }
    }
  }

  lemma {:induction false} ArrangeSorts<A(!new)>(less: (A, A) -> bool, s: seq<A>)
    requires Transitive(less) && Antisymmetric(less)
    ensures IsSortOf(less, Arrange(less, s), s)
    decreases |s|
  {
    if s != [] {
      ArrangeSorts(less, s[1..]);
      InsertSorts(less, s[0], Arrange(less, s[1..]));
      InsertMultiset(less, s[0], Arrange(less, s[1..]));
      TailMultiset(s);
    }
  }
}
