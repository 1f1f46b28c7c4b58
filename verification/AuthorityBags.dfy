/**
 Lists of facts as bags: what the parts of a plan contribute to each section of its
 manifest, in no order.
 */
module AuthorityBags {
  import opened Options
  import opened ByteCoding
  import opened Sorting
  import opened AuthorityManifest
  import opened AuthorityPlan

  datatype Section = InRequested | InTargetAdded | InEffective | InUnsupported

  function Of(s: Section, f: Facts): seq<Fact> {
    match s
    case InRequested => f.requested
    case InTargetAdded => f.targetAdded
    case InEffective => f.effective
    case InUnsupported => f.unsupported
  }

  function Contents(list: seq<Fact>): multiset<Fact> { multiset(Map(Canonical, list)) }

  /** What the parts contribute to one section, in no order. */
  function Bag(s: Section, parts: seq<Facts>): multiset<Fact> {
    if parts == [] then multiset{} else Contents(Of(s, parts[0])) + Bag(s, parts[1..])
  }

  lemma ContentsJoin(a: seq<Fact>, b: seq<Fact>)
    ensures Contents(a + b) == Contents(a) + Contents(b)
  {
    hide Canonical;
    assert Map(Canonical, a + b) == Map(Canonical, a) + Map(Canonical, b);
  }

  lemma {:induction false} BagSplits(s: Section, a: seq<Facts>, b: seq<Facts>)
    ensures Bag(s, a + b) == Bag(s, a) + Bag(s, b)
  {
    hide Contents;
    if a == [] {
      assert a + b == b;
    } else {
      assert (a + b)[1..] == a[1..] + b;
      BagSplits(s, a[1..], b);
    }
  }

  lemma {:induction false} BagOfJoined(s: Section, parts: seq<Facts>)
    ensures Contents(Of(s, JoinedAll(parts))) == Bag(s, parts)
  {
    if parts == [] {
    } else {
      var front, last := parts[..|parts| - 1], parts[|parts| - 1];
      assert parts == front + [last] && [last][1..] == [];
      BagOfJoined(s, front);
      BagSplits(s, front, [last]);
      ContentsJoin(Of(s, JoinedAll(front)), Of(s, last));
      hide Contents;
    }
  }

  lemma BagTakesOut(s: Section, parts: seq<Facts>, k: nat)
    requires k < |parts|
    ensures Bag(s, parts) == Contents(Of(s, parts[k])) + Bag(s, Without(parts, k))
  {
    hide Contents;
    BagSplits(s, parts[..k], parts[k + 1..]);
    BagSplits(s, parts[..k], [parts[k]] + parts[k + 1..]);
    assert parts == parts[..k] + ([parts[k]] + parts[k + 1..]) && ([parts[k]] + parts[k + 1..])[1..] == parts[k + 1..];
  }

  lemma {:induction false} BagIgnoresOrder(s: Section, a: seq<Facts>, b: seq<Facts>)
    requires multiset(a) == multiset(b)
    ensures Bag(s, a) == Bag(s, b)
    decreases |a|
  {
    hide Contents, Of;
    assert |multiset(a)| == |a| && |multiset(b)| == |b|;
    if a != [] {
      var k := IndexOf(b, a[0]);
      TailMultiset(a);
      WithoutMultiset(b, k);
      BagIgnoresOrder(s, a[1..], Without(b, k));
      BagTakesOut(s, b, k);
    }
  }

  /** Parts with one plain fact each. */
  lemma {:induction false} BagOfOnes<A>(s: Section, f: A -> Facts, g: A -> Fact, xs: seq<A>)
    requires forall x | x in xs :: Of(s, f(x)) == [g(x)] && Canonical(g(x)) == g(x)
    ensures Bag(s, Map(f, xs)) == multiset(Map(g, xs))
  {
    hide Canonical, Of;
    if xs != [] {
      assert Map(f, xs)[1..] == Map(f, xs[1..]) && Map(g, xs) == [g(xs[0])] + Map(g, xs[1..]);
      BagOfOnes(s, f, g, xs[1..]);
      assert Map(Canonical, [g(xs[0])]) == [g(xs[0])];
    }
  }

  lemma {:induction false} BagOfNone(s: Section, parts: seq<Facts>)
    requires forall p | p in parts :: Of(s, p) == []
    ensures Bag(s, parts) == multiset{}
  {
    hide Of;
    if parts != [] {
      BagOfNone(s, parts[1..]);
      assert Map(Canonical, []) == [];
    }
  }

  lemma BagOfOne(s: Section, part: Facts)
    ensures Bag(s, [part]) == Contents(Of(s, part))
  {
    assert [part][1..] == [];
  }

  /** A fact that no part contributes. */
  lemma {:induction false} BagWithout(s: Section, parts: seq<Facts>, f: Fact)
    requires forall p | p in parts :: f !in Contents(Of(s, p))
    ensures Bag(s, parts)[f] == 0
  {
    hide Contents, Of;
    if parts != [] { BagWithout(s, parts[1..], f); }
  }

  lemma MapTail<A, B>(f: A -> B, xs: seq<A>, k: nat)
    requires k < |xs|
    ensures Without(Map(f, xs), k) == Map(f, Without(xs, k))
    ensures multiset(Map(f, xs)) == multiset(Map(f, Without(xs, k))) + multiset{f(xs[k])}
  {
    WithoutMultiset(Map(f, xs), k);
    assert Without(Map(f, xs), k) == Map(f, Without(xs, k));
  }

  lemma SameSize<A, B>(g: A -> B, g': A -> B, xs: seq<A>, ys: seq<A>)
    requires multiset(Map(g, xs)) == multiset(Map(g', ys))
    ensures |xs| == |ys|
  {
    assert |multiset(Map(g, xs))| == |xs| && |multiset(Map(g', ys))| == |ys|;
  }

  lemma Partner<A, B>(g: A -> B, g': A -> B, xs: seq<A>, ys: seq<A>) returns (k: nat)
    requires multiset(Map(g, xs)) == multiset(Map(g', ys)) && xs != []
    ensures k < |ys| && g'(ys[k]) == g(xs[0])
    ensures multiset(Map(g, Without(xs, 0))) == multiset(Map(g', Without(ys, k)))
  {
    assert Map(g, xs)[0] == g(xs[0]);
    k := IndexOf(Map(g', ys), g(xs[0]));
    MapTail(g, xs, 0);
    MapTail(g', ys, k);
    var (a, b) := (multiset(Map(g, Without(xs, 0))), multiset(Map(g', Without(ys, k))));
    hide Map, Without;
    assert a == a + multiset{g(xs[0])} - multiset{g(xs[0])} && b == b + multiset{g(xs[0])} - multiset{g(xs[0])};
  }

  /** Equal images under two maps give equal images under any map the two determine. */
  lemma {:induction false} MapCancels<A, B, C>(g: A -> B, g': A -> B, h: A -> C, xs: seq<A>, ys: seq<A>)
    requires multiset(Map(g, xs)) == multiset(Map(g', ys))
    requires forall x, y | x in xs && y in ys && g(x) == g'(y) :: h(x) == h(y)
    ensures multiset(Map(h, xs)) == multiset(Map(h, ys))
    decreases |xs|
  {
    SameSize(g, g', xs, ys);
    if xs == [] {
      assert xs == ys;
    } else {
      var k := Partner(g, g', xs, ys);
      assert h(xs[0]) == h(ys[k]);
      var (xs', ys') := (Without(xs, 0), Without(ys, k));
      assert (forall x | x in xs' :: x in xs) && (forall y | y in ys' :: y in ys);
      MapTail(h, xs, 0);
      MapTail(h, ys, k);
      hide Map, Without;
      MapCancels(g, g', h, xs', ys');
    }
  }

  // ----- bags told apart by a number

  predicate Keyed(b: multiset<Fact>, key: Fact -> int, k: int) { forall f | f in b :: key(f) == k }

  predicate Avoids(b: multiset<Fact>, key: Fact -> int, k: int) { forall f | f in b :: key(f) != k }

  lemma Picked(key: Fact -> int, k: int, a: multiset<Fact>, rest: multiset<Fact>, a': multiset<Fact>,
      rest': multiset<Fact>)
    requires a + rest == a' + rest' && Keyed(a, key, k) && Keyed(a', key, k) && Avoids(rest, key, k)
        && Avoids(rest', key, k)
    ensures a == a' && rest == rest'
  {
    forall f ensures a[f] == a'[f] && rest[f] == rest'[f] {
      assert (a + rest)[f] == a[f] + rest[f] && (a' + rest')[f] == a'[f] + rest'[f];
    }
  }

  function Total(bs: seq<multiset<Fact>>): multiset<Fact> { if bs == [] then multiset{} else bs[0] + Total(bs[1..]) }

  lemma TotalCons(b: multiset<Fact>, bs: seq<multiset<Fact>>)
    ensures Total([b] + bs) == b + Total(bs)
  {
    assert ([b] + bs)[1..] == bs;
  }

  lemma TotalOfThree(a: multiset<Fact>, b: multiset<Fact>, c: multiset<Fact>)
    ensures Total([a, b, c]) == a + b + c
  {
    TotalCons(c, []);
    TotalCons(b, [c]);
    TotalCons(a, [b, c]);
    assert [c] + [] == [c] && [b] + [c] == [b, c] && [a] + [b, c] == [a, b, c];
  }

  lemma TotalOfFour(a: multiset<Fact>, b: multiset<Fact>, c: multiset<Fact>, d: multiset<Fact>,
      rest: seq<multiset<Fact>>)
    ensures Total([a, b, c, d] + rest) == a + b + c + d + Total(rest)
  {
    TotalCons(d, rest);
    TotalCons(c, [d] + rest);
    TotalCons(b, [c] + ([d] + rest));
    TotalCons(a, [b] + ([c] + ([d] + rest)));
    assert [a, b, c, d] + rest == [a] + ([b] + ([c] + ([d] + rest)));
  }

  predicate AllKeyed(bs: seq<multiset<Fact>>, key: Fact -> int, ks: seq<int>) {
    |bs| == |ks| && forall i | 0 <= i < |bs| :: Keyed(bs[i], key, ks[i])
  }

  lemma {:induction false} TotalAvoids(bs: seq<multiset<Fact>>, key: Fact -> int, ks: seq<int>, k: int)
    requires AllKeyed(bs, key, ks) && k !in ks
    ensures Avoids(Total(bs), key, k)
  {
    if bs != [] {
      assert AllKeyed(bs[1..], key, ks[1..]);
      TotalAvoids(bs[1..], key, ks[1..], k);
      assert Keyed(bs[0], key, ks[0]) && ks[0] in ks;
    }
  }

  /** Equal totals of bags of distinct keys are equal bag by bag. */
  lemma {:induction false} Apart(key: Fact -> int, bs: seq<multiset<Fact>>, cs: seq<multiset<Fact>>, ks: seq<int>)
    requires AllKeyed(bs, key, ks) && AllKeyed(cs, key, ks) && NoDuplicates(ks) && Total(bs) == Total(cs)
    ensures bs == cs
  {
    if bs != [] {
      assert ks[0] !in ks[1..] && NoDuplicates(ks[1..]);
      assert AllKeyed(bs[1..], key, ks[1..]) && AllKeyed(cs[1..], key, ks[1..]);
      TotalAvoids(bs[1..], key, ks[1..], ks[0]);
      TotalAvoids(cs[1..], key, ks[1..], ks[0]);
      Picked(key, ks[0], bs[0], Total(bs[1..]), cs[0], Total(cs[1..]));
      hide Keyed, Avoids;
      Apart(key, bs[1..], cs[1..], ks[1..]);
      assert bs == [bs[0]] + bs[1..] && cs == [cs[0]] + cs[1..];
    }
  }

  /** Facts that are alone with their key are equal one by one, whatever else is there. */
  lemma AloneApart(key: Fact -> int, a: seq<Fact>, b: seq<Fact>, rest: multiset<Fact>, rest': multiset<Fact>)
    requires |a| == |b| && multiset(a) + rest == multiset(b) + rest'
    requires NoDuplicates(Map(key, a)) && Map(key, a) == Map(key, b)
    requires forall i | 0 <= i < |a| :: Avoids(rest', key, key(a[i]))
    ensures a == b
  {
    forall i | 0 <= i < |a| ensures a[i] == b[i] {
      assert a[i] in multiset(a) + rest;
      assert a[i] !in rest';
      var j := IndexOf(b, a[i]);
      assert Map(key, a)[i] == key(a[i]) && Map(key, b)[j] == key(b[j]) && Map(key, a)[j] == Map(key, b)[j];
    }
  }
}
