/**
 What the manifest bytes identify (internal/authority/plan.go:502-537): exactly
 the versions, the names, and each section's multiset of canonical facts.
 */
module AuthorityTheorems {
  import opened Options
  import opened ByteCoding
  import opened Sorting
  import opened AuthorityManifest

  /** The comparator of the sort: by ID, then by encoding. */
  predicate Less(f: Fact, g: Fact) {
    if f.id != g.id then Below(f.id, g.id) else Below(PutFact(f), PutFact(g))
  }

  /** What the comparator looks at. */
  function Key(f: Fact): (Text, Text) { (f.id, PutFact(f)) }

  predicate KeyLess(k: (Text, Text), l: (Text, Text)) {
    if k.0 != l.0 then Below(k.0, l.0) else Below(k.1, l.1)
  }

  /** The comparator is a strict weak order, as a sort demands; it ties facts of equal encoding only. */
  lemma LessIsAnOrder()
    ensures Transitive(Less) && Antisymmetric(Less)
    ensures forall f, g :: !Less(f, g) && !Less(g, f) <==> Key(f) == Key(g)
  {
    forall f, g
      ensures !Less(f, g) && !Less(g, f) <==> Key(f) == Key(g)
      ensures Less(f, g) ==> !Less(g, f)
    {
      BelowIsTotal(f.id, g.id);
      BelowIsTotal(PutFact(f), PutFact(g));
    }
    forall f, g, h | !Less(g, f) && !Less(h, g) ensures !Less(h, f) {
      KeyOrder(Key(f), Key(g), Key(h));
    }
  }

  lemma KeyOrder(k: (Text, Text), l: (Text, Text), m: (Text, Text))
    requires !KeyLess(l, k) && !KeyLess(m, l)
    ensures !KeyLess(m, k)
  {
    NotBelowChains(k.0, l.0, m.0);
    NotBelowChains(k.1, l.1, m.1);
    BelowIsTotal(k.0, l.0);
    BelowIsTotal(l.0, m.0);
    BelowIsTotal(k.0, m.0);
  }

  lemma NotBelowChains(a: Text, b: Text, c: Text)
    ensures !Below(b, a) && !Below(c, b) ==> !Below(c, a)
  {
    BelowIsTotal(a, b);
    BelowIsTotal(b, c);
    if Below(a, b) && Below(b, c) {
      BelowIsTransitive(a, b, c);
      BelowIsTotal(a, c);
    }
  }

  /** Section bytes depend on the multiset of keys alone, for any sort of either list. */
  lemma SectionDependsOnKeys(a: seq<Fact>, b: seq<Fact>, sortedA: seq<Fact>, sortedB: seq<Fact>)
    requires IsSortOf(Less, sortedA, a) && IsSortOf(Less, sortedB, b)
    requires multiset(Map(Key, a)) == multiset(Map(Key, b))
    ensures PutSection(sortedA) == PutSection(sortedB)
  {
    hide PutFact, Below;
    var ka, kb := Map(Key, sortedA), Map(Key, sortedB);
    MapMultiset(Key, sortedA, a);
    MapMultiset(Key, sortedB, b);
    forall x, y | !KeyLess(x, y) && !KeyLess(y, x) ensures x == y {
      BelowIsTotal(x.0, y.0);
      BelowIsTotal(x.1, y.1);
    }
    assert SortedBy(KeyLess, ka) && SortedBy(KeyLess, kb);
    SortIsUnique(KeyLess, ka, kb);
    forall i | 0 <= i < |ka| ensures Encodings(sortedA)[i] == Encodings(sortedB)[i] {
      assert ka[i].1 == kb[i].1;
    }
    assert Encodings(sortedA) == Encodings(sortedB);
  }

  predicate AllSorts(sorted: Facts, facts: Facts) {
    && IsSortOf(Less, sorted.requested, facts.requested)
    && IsSortOf(Less, sorted.targetAdded, facts.targetAdded)
    && IsSortOf(Less, sorted.effective, facts.effective)
    && IsSortOf(Less, sorted.unsupported, facts.unsupported)
  }

  function Arranged(facts: Facts): Facts {
    Facts(Arrange(Less, facts.requested), Arrange(Less, facts.targetAdded),
          Arrange(Less, facts.effective), Arrange(Less, facts.unsupported))
  }

  lemma ArrangedSorts(facts: Facts)
    ensures AllSorts(Arranged(facts), facts)
  {
    LessIsAnOrder();
    ArrangeSorts(Less, facts.requested);
    ArrangeSorts(Less, facts.targetAdded);
    ArrangeSorts(Less, facts.effective);
    ArrangeSorts(Less, facts.unsupported);
  }

  /** The manifest of unordered facts. */
  function ManifestOf(sourceVersion: Int64, overlay: Text, recipe: Text, facts: Facts): seq<Byte> {
    PutManifest(sourceVersion, overlay, recipe, Arranged(facts))
  }

  predicate SameKeys(a: Facts, b: Facts) {
    && multiset(Map(Key, a.requested)) == multiset(Map(Key, b.requested))
    && multiset(Map(Key, a.targetAdded)) == multiset(Map(Key, b.targetAdded))
    && multiset(Map(Key, a.effective)) == multiset(Map(Key, b.effective))
    && multiset(Map(Key, a.unsupported)) == multiset(Map(Key, b.unsupported))
  }

  lemma SectionsDependOnKeys(a: Facts, b: Facts, sortedA: Facts, sortedB: Facts)
    requires AllSorts(sortedA, a) && AllSorts(sortedB, b) && SameKeys(a, b)
    ensures PutSections(sortedA) == PutSections(sortedB)
  {
    hide PutSection;
    SectionDependsOnKeys(a.requested, b.requested, sortedA.requested, sortedB.requested);
    SectionDependsOnKeys(a.targetAdded, b.targetAdded, sortedA.targetAdded, sortedB.targetAdded);
    SectionDependsOnKeys(a.effective, b.effective, sortedA.effective, sortedB.effective);
    SectionDependsOnKeys(a.unsupported, b.unsupported, sortedA.unsupported, sortedB.unsupported);
  }

  /**
   Order independence. However the facts of each section were appended, and
   whichever sort arranged them, stable or not, the bytes are the same.
   */
  lemma OrderDoesNotMatter(sourceVersion: Int64, overlay: Text, recipe: Text, facts: Facts, appended: Facts,
      sorted: Facts)
    requires multiset(appended.requested) == multiset(facts.requested)
        && multiset(appended.targetAdded) == multiset(facts.targetAdded)
    requires multiset(appended.effective) == multiset(facts.effective)
        && multiset(appended.unsupported) == multiset(facts.unsupported)
    requires AllSorts(sorted, appended)
    ensures PutManifest(sourceVersion, overlay, recipe, sorted) == ManifestOf(sourceVersion, overlay, recipe, facts)
  {
    MapMultiset(Key, appended.requested, facts.requested);
    MapMultiset(Key, appended.targetAdded, facts.targetAdded);
    MapMultiset(Key, appended.effective, facts.effective);
    MapMultiset(Key, appended.unsupported, facts.unsupported);
    ArrangedSorts(facts);
    SectionsDependOnKeys(appended, facts, sorted, Arranged(facts));
  }

  /** Equal up to order, and up to MCP lists of facts without the MCP flag. */
  predicate SameSection(a: seq<Fact>, b: seq<Fact>) {
    multiset(Map(Canonical, a)) == multiset(Map(Canonical, b))
  }

  predicate SameFacts(a: Facts, b: Facts) {
    && SameSection(a.requested, b.requested) && SameSection(a.targetAdded, b.targetAdded)
    && SameSection(a.effective, b.effective) && SameSection(a.unsupported, b.unsupported)
  }

  lemma CanonicalKey(f: Fact)
    ensures Key(Canonical(f)) == Key(f)
  {
    assert PutMcp(Canonical(f).value) == PutMcp(f.value);
  }

  lemma SameSectionSameKeys(a: seq<Fact>, b: seq<Fact>)
    requires SameSection(a, b)
    ensures multiset(Map(Key, a)) == multiset(Map(Key, b))
  {
    hide Key, Canonical;
    MapMultiset(Key, Map(Canonical, a), Map(Canonical, b));
    forall f ensures Key(Canonical(f)) == Key(f) {
      CanonicalKey(f);
    }
    assert Map(Key, Map(Canonical, a)) == Map(Key, a);
    assert Map(Key, Map(Canonical, b)) == Map(Key, b);
  }

  lemma SameSorted(a: seq<Fact>, b: seq<Fact>, sortedA: seq<Fact>, sortedB: seq<Fact>)
    requires multiset(sortedA) == multiset(a) && multiset(sortedB) == multiset(b)
    requires Map(Canonical, sortedA) == Map(Canonical, sortedB)
    ensures SameSection(a, b)
  {
    MapMultiset(Canonical, sortedA, a);
    MapMultiset(Canonical, sortedB, b);
  }

  lemma SameFactsSameKeys(a: Facts, b: Facts)
    requires SameFacts(a, b)
    ensures SameKeys(a, b)
  {
    SameSectionSameKeys(a.requested, b.requested);
    SameSectionSameKeys(a.targetAdded, b.targetAdded);
    SameSectionSameKeys(a.effective, b.effective);
    SameSectionSameKeys(a.unsupported, b.unsupported);
  }

  /**
   The manifest is injective. Two manifests are the same bytes exactly when version,
   overlay, recipe and, section by section, the canonical facts are the same.
   */
  lemma ManifestIdentifies(v: Int64, overlay: Text, recipe: Text, a: Facts, v': Int64, overlay': Text, recipe': Text,
      b: Facts)
    requires |ManifestOf(v, overlay, recipe, a)| < SLICE_LIMIT
    ensures ManifestOf(v, overlay, recipe, a) == ManifestOf(v', overlay', recipe', b) <==>
              v == v' && overlay == overlay' && recipe == recipe' && SameFacts(a, b)
  {
    ArrangedSorts(a);
    ArrangedSorts(b);
    var sa, sb := Arranged(a), Arranged(b);
    hide Arranged, ReadManifest, PutSections;
    if PutManifest(v, overlay, recipe, sa) == PutManifest(v', overlay', recipe', sb) {
      ManifestRoundTrip(v, overlay, recipe, sa);
      ManifestRoundTrip(v', overlay', recipe', sb);
      SameSorted(a.requested, b.requested, sa.requested, sb.requested);
      SameSorted(a.targetAdded, b.targetAdded, sa.targetAdded, sb.targetAdded);
      SameSorted(a.effective, b.effective, sa.effective, sb.effective);
      SameSorted(a.unsupported, b.unsupported, sa.unsupported, sb.unsupported);
    }
    if SameFacts(a, b) {
      SameFactsSameKeys(a, b);
      SectionsDependOnKeys(a, b, sa, sb);
    }
  }
}
