/**
 The semantic diff of two Profile revisions (internal/cli/profile_history.go:443-480):
 facts are lines "key=value", and the answer is three sorted lists.
 */
module ProfileDiff {
  import opened Options
  import opened ByteCoding
  import opened Sorting

  type Fact = Text

  /** `strings.SplitN(fact, "=", 2)`; None for a fact without an equals sign. */
  function KeyOf(f: Fact): Option<Text> {
    match Cut(f)
    case None => None
    case Some((key, _)) => Some(key)
  }

  function ValueOf(f: Fact): Text { if Cut(f).Some? then Cut(f).value.1 else [] }

  /** The values of a key, in order, one for each occurrence. */
  function Values(fs: seq<Fact>, key: Text): seq<Text> {
    if fs == [] then []
    else Values(fs[..|fs| - 1], key) + if KeyOf(fs[|fs| - 1]) == Some(key) then [ValueOf(fs[|fs| - 1])] else []
  }

  /** A key with one value on each side, and these differ. */
  predicate Changes(a: seq<Fact>, b: seq<Fact>, key: Text) {
    |Values(a, key)| == 1 && |Values(b, key)| == 1 && Values(a, key)[0] != Values(b, key)[0]
  }

  predicate Keyed(f: Fact, keys: set<Text>) { KeyOf(f).Some? && KeyOf(f).value in keys }

  /** The facts of `from` that `other` lacks, with their repetitions. */
  function Missing(from: seq<Fact>, other: seq<Fact>): seq<Fact> {
    if from == [] then []
    else Missing(from[..|from| - 1], other) + if from[|from| - 1] in other then [] else [from[|from| - 1]]
  }

  function Unkeyed(fs: seq<Fact>, keys: set<Text>): seq<Fact> {
    if fs == [] then []
    else Unkeyed(fs[..|fs| - 1], keys) + if Keyed(fs[|fs| - 1], keys) then [] else [fs[|fs| - 1]]
  }

  /** The three lists of a diff. */
  ghost predicate IsDiff(a: seq<Fact>, b: seq<Fact>, added: seq<Fact>, removed: seq<Fact>, changed: seq<Text>) {
    var keys := set k | k in changed;
    && (forall k :: k in changed <==> Changes(a, b, k))
    && NoDuplicates(changed)
    && IsSortOf(Below, added, Unkeyed(Missing(b, a), keys))
    && IsSortOf(Below, removed, Unkeyed(Missing(a, b), keys))
    && SortedBy(Below, changed)
  }

  // ----- what the lists mean

  lemma {:induction false} InMissing(from: seq<Fact>, other: seq<Fact>, f: Fact)
    ensures f in Missing(from, other) <==> f in from && f !in other
  {
    if from != [] {
      InMissing(from[..|from| - 1], other, f);
      assert from == from[..|from| - 1] + [from[|from| - 1]];
    }
  }

  lemma {:induction false} InUnkeyed(fs: seq<Fact>, keys: set<Text>, f: Fact)
    ensures f in Unkeyed(fs, keys) <==> f in fs && !Keyed(f, keys)
  {
    if fs != [] {
      InUnkeyed(fs[..|fs| - 1], keys, f);
      assert fs == fs[..|fs| - 1] + [fs[|fs| - 1]];
    }
  }

  /** A value listed for a key is that of a fact, and every fact of the key lists its value. */
  lemma {:induction false} ValuesAreFacts(fs: seq<Fact>, key: Text, v: Text)
    requires EQUALS !in key
    ensures v in Values(fs, key) <==> key + ([EQUALS] + v) in fs
  {
    CutJoins(key, v);
    if fs != [] {
      var last := fs[|fs| - 1];
      ValuesAreFacts(fs[..|fs| - 1], key, v);
      assert fs == fs[..|fs| - 1] + [last];
      CutSplits(last);
    }
  }

  lemma {:induction false} ValuesHaveKeys(fs: seq<Fact>, key: Text)
    requires Values(fs, key) != []
    ensures EQUALS !in key && exists f | f in fs :: KeyOf(f) == Some(key)
  {
    var front, last := fs[..|fs| - 1], fs[|fs| - 1];
    assert fs == front + [last];
    if Values(front, key) != [] {
      ValuesHaveKeys(front, key);
      var f :| f in front && KeyOf(f) == Some(key);
      assert f in fs;
    } else {
      CutSplits(last);
      assert KeyOf(last) == Some(key);
    }
  }

  /**
   The diff is reconstructive: outside the changed keys, the facts of b are those of a
   without the removed ones and with the added ones, and no fact is listed twice over.
   */
  lemma DiffReconstructs(a: seq<Fact>, b: seq<Fact>, added: seq<Fact>, removed: seq<Fact>, changed: seq<Text>, f: Fact)
    requires IsDiff(a, b, added, removed, changed)
    ensures var keys := set k | k in changed;
      && (!Keyed(f, keys) ==> (f in b <==> (f in a && f !in removed) || f in added))
      && (f in added ==> f in b && f !in a) && (f in removed ==> f in a && f !in b)
      && (Keyed(f, keys) ==> f !in added && f !in removed)
  {
    var keys := set k | k in changed;
    InMissing(b, a, f);
    InMissing(a, b, f);
    InUnkeyed(Missing(b, a), keys, f);
    InUnkeyed(Missing(a, b), keys, f);
    assert f in added <==> f in multiset(added);
    assert f in removed <==> f in multiset(removed);
    assert f in Unkeyed(Missing(b, a), keys) <==> f in multiset(Unkeyed(Missing(b, a), keys));
    assert f in Unkeyed(Missing(a, b), keys) <==> f in multiset(Unkeyed(Missing(a, b), keys));
  }

  /** A changed key has exactly one fact on each side, and they differ. */
  lemma ChangedKeys(a: seq<Fact>, b: seq<Fact>, added: seq<Fact>, removed: seq<Fact>, changed: seq<Text>, key: Text)
      returns (before: Fact, after: Fact)
    requires IsDiff(a, b, added, removed, changed) && key in changed
    ensures before in a && before !in b && after in b && after !in a && KeyOf(before) == KeyOf(after) == Some(key)
    ensures forall f | f in a && KeyOf(f) == Some(key) :: f == before
    ensures forall f | f in b && KeyOf(f) == Some(key) :: f == after
  {
    hide *;
    SortedKeys(a, b, added, removed, changed, key);
    before := OnlyFact(a, key);
    after := OnlyFact(b, key);
  }

  lemma SortedKeys(a: seq<Fact>, b: seq<Fact>, added: seq<Fact>, removed: seq<Fact>, changed: seq<Text>, key: Text)
    requires IsDiff(a, b, added, removed, changed) && key in changed
    ensures |Values(a, key)| == 1 && |Values(b, key)| == 1 && Values(a, key)[0] != Values(b, key)[0]
  {
    hide Values;
  }

  /** A key with one value has one fact. */
  lemma OnlyFact(fs: seq<Fact>, key: Text) returns (f: Fact)
    requires |Values(fs, key)| == 1
    ensures f == key + ([EQUALS] + Values(fs, key)[0]) && EQUALS !in key
    ensures f in fs && KeyOf(f) == Some(key) && ValueOf(f) == Values(fs, key)[0]
    ensures forall g | g in fs && KeyOf(g) == Some(key) :: g == f
  {
    var v := Values(fs, key)[0];
    f := key + ([EQUALS] + v);
    ValuesHaveKeys(fs, key);
    CutJoins(key, v);
    ValuesAreFacts(fs, key, v);
    forall g | g in fs && KeyOf(g) == Some(key) ensures g == f {
      hide Values, Cut;
      ListedFact(fs, key, g);
    }
  }

  lemma ListedFact(fs: seq<Fact>, key: Text, g: Fact)
    requires g in fs && KeyOf(g) == Some(key)
    ensures g == key + ([EQUALS] + ValueOf(g)) && ValueOf(g) in Values(fs, key)
  {
    CutSplits(g);
    ValuesAreFacts(fs, key, ValueOf(g));
  }

  /** All three lists are empty exactly when both sides have the same facts. */
  lemma EmptyDiff(a: seq<Fact>, b: seq<Fact>, added: seq<Fact>, removed: seq<Fact>, changed: seq<Text>)
    requires IsDiff(a, b, added, removed, changed)
    ensures added == [] && removed == [] && changed == [] <==> (forall f :: f in a <==> f in b)
  {
    if added == [] && removed == [] && changed == [] {
      forall f ensures f in a <==> f in b {
        DiffReconstructs(a, b, added, removed, changed, f);
      }
    }
    if forall f :: f in a <==> f in b {
      if changed != [] {
        var before, after := ChangedKeys(a, b, added, removed, changed, changed[0]);
      }
      if added != [] { DiffReconstructs(a, b, added, removed, changed, added[0]); }
      if removed != [] { DiffReconstructs(a, b, added, removed, changed, removed[0]); }
    }
  }

  // ----- the algorithm

  ghost predicate Collected(table: map<Text, seq<Text>>, fs: seq<Fact>) {
    forall k :: if k in table then table[k] == Values(fs, k) != [] else Values(fs, k) == []
  }

  lemma OneMoreFact(fs: seq<Fact>, i: nat, table: map<Text, seq<Text>>)
    requires i < |fs| && Collected(table, fs[..i])
    ensures var (key, v) := (KeyOf(fs[i]), ValueOf(fs[i]));
      Collected(if key.None? then table
        else table[key.value := (if key.value in table then table[key.value] else []) + [v]], fs[..i + 1])
  {
    assert fs[..i + 1][..i] == fs[..i];
    hide Cut;
  }

  method Collect(fs: seq<Fact>) returns (members: set<Fact>, table: map<Text, seq<Text>>)
    ensures forall f :: f in members <==> f in fs
    ensures Collected(table, fs)
  {
    members, table := {}, map[];
    for i := 0 to |fs|
      invariant forall f :: f in members <==> f in fs[..i]
      invariant Collected(table, fs[..i])
    {
      var f := fs[i];
      OneMoreFact(fs, i, table);
      assert fs[..i + 1] == fs[..i] + [f];
      hide *;
      members := members + {f};
      var key := KeyOf(f);
      if key.Some? {
        var before := if key.value in table then table[key.value] else [];
        table := table[key.value := before + [ValueOf(f)]];
      }
    }
    assert fs[..|fs|] == fs;
  }

  method MissingFrom(from: seq<Fact>, other: seq<Fact>, members: set<Fact>) returns (list: seq<Fact>)
    requires forall f :: f in members <==> f in other
    ensures list == Missing(from, other)
  {
    list := [];
    for i := 0 to |from|
      invariant list == Missing(from[..i], other)
    {
      assert from[..i + 1][..i] == from[..i];
      if from[i] !in members { list := list + [from[i]]; }
    }
    assert from[..|from|] == from;
  }

  /** `slices.DeleteFunc` by the prefix "key=". */
  method DeletePrefixed(fs: seq<Fact>, key: Text) returns (list: seq<Fact>)
    requires EQUALS !in key
    ensures list == Unkeyed(fs, {key})
  {
    list := [];
    for i := 0 to |fs|
      invariant list == Unkeyed(fs[..i], {key})
    {
      assert fs[..i + 1][..i] == fs[..i];
      PrefixIsKey(fs[i], key);
      hide Cut;
      if !(key + [EQUALS] <= fs[i]) { list := list + [fs[i]]; }
    }
    assert fs[..|fs|] == fs;
  }

  lemma PrefixIsKey(f: Fact, key: Text)
    requires EQUALS !in key
    ensures key + [EQUALS] <= f <==> KeyOf(f) == Some(key)
  {
    CutSplits(f);
    if key + [EQUALS] <= f {
      var rest := f[|key| + 1..];
      assert f == key + ([EQUALS] + rest);
      CutJoins(key, rest);
    }
    if KeyOf(f) == Some(key) {
      assert f == (key + [EQUALS]) + ValueOf(f);
    }
  }

  lemma {:induction false} UnkeyedTwice(fs: seq<Fact>, keys: set<Text>, key: Text)
    ensures Unkeyed(Unkeyed(fs, keys), {key}) == Unkeyed(fs, keys + {key})
  {
    hide Cut;
    if fs != [] {
      UnkeyedTwice(fs[..|fs| - 1], keys, key);
      var front, last := Unkeyed(fs[..|fs| - 1], keys), fs[|fs| - 1];
      assert Keyed(last, keys + {key}) <==> Keyed(last, keys) || Keyed(last, {key});
      if Keyed(last, keys) {
        assert Unkeyed(fs, keys) == front;
      } else {
        assert Unkeyed(fs, keys) == front + [last] && (front + [last])[..|front|] == front;
      }
    }
  }

  lemma {:induction false} UnkeyedNothing(fs: seq<Fact>)
    ensures Unkeyed(fs, {}) == fs
  {
    if fs != [] {
      UnkeyedNothing(fs[..|fs| - 1]);
    }
  }

  method SortStrings(list: seq<Text>) returns (sorted: seq<Text>)
    ensures IsSortOf(Below, sorted, list)
  {
    BelowOrders();
    ArrangeSorts(Below, list);
    sorted := Arrange(Below, list);
  }

  lemma BelowOrders()
    ensures Transitive(Below) && Antisymmetric(Below)
  {
    forall x, y ensures Below(x, y) ==> !Below(y, x) {
      BelowIsTotal(x, y);
    }
    forall x, y, z | !Below(y, x) && !Below(z, y) ensures !Below(z, x) {
      BelowIsTotal(x, y);
      BelowIsTotal(y, z);
      BelowIsTotal(x, z);
      if Below(x, y) && Below(y, z) {
        BelowIsTransitive(x, y, z);
      }
    }
  }

  /** The keys of the old side are visited in no particular order. */
  method FindChanged(a: seq<Fact>, b: seq<Fact>, av: map<Text, seq<Text>>, bv: map<Text, seq<Text>>,
                     gained: seq<Fact>, lost: seq<Fact>)
      returns (added: seq<Fact>, removed: seq<Fact>, changed: seq<Text>)
    requires Collected(av, a) && Collected(bv, b) && gained == Missing(b, a) && lost == Missing(a, b)
    ensures NoDuplicates(changed) && forall k :: k in changed <==> Changes(a, b, k)
    ensures var keys := set k | k in changed;
      added == Unkeyed(Missing(b, a), keys) && removed == Unkeyed(Missing(a, b), keys)
  {
    added, removed, changed := gained, lost, [];
    UnkeyedNothing(added);
    UnkeyedNothing(removed);
    AllDecided(a, b, av);
    hide *;
    var keys := av.Keys;
    ghost var done: set<Text> := {};
    while keys != {}
      invariant keys <= av.Keys
      invariant forall k :: k in changed <==> k in done
      invariant forall k | k in done :: k in av && k !in keys && Changes(a, b, k)
      invariant forall k | k in av && k !in keys && Changes(a, b, k) :: k in done
      invariant NoDuplicates(changed)
      invariant added == Unkeyed(Missing(b, a), done) && removed == Unkeyed(Missing(a, b), done)
      decreases |keys|
    {
      var key :| key in keys;
      keys := keys - {key};
      Decide(a, b, av, bv, key);
      if key in bv && |av[key]| == 1 && |bv[key]| == 1 && av[key][0] != bv[key][0] {
        UnkeyedTwice(Missing(b, a), done, key);
        UnkeyedTwice(Missing(a, b), done, key);
        OneMoreKey(changed, key);
        changed := changed + [key];
        added := DeletePrefixed(added, key);
        removed := DeletePrefixed(removed, key);
        done := done + {key};
      }
    }
    assert done == set k | k in changed;
  }

  lemma OneMoreKey(changed: seq<Text>, key: Text)
    requires NoDuplicates(changed) && key !in changed
    ensures NoDuplicates(changed + [key])
  {
  }

  method DiffFacts(a: seq<Fact>, b: seq<Fact>) returns (added: seq<Fact>, removed: seq<Fact>, changed: seq<Text>)
    ensures IsDiff(a, b, added, removed, changed)
  {
    var am, av := Collect(a);
    var bm, bv := Collect(b);
    added := MissingFrom(b, a, am);
    removed := MissingFrom(a, b, bm);
    hide Unkeyed, Missing, Changes, Collected, SortedBy;
    added, removed, changed := FindChanged(a, b, av, bv, added, removed);
    ghost var found := changed;
    added := SortStrings(added);
    removed := SortStrings(removed);
    changed := SortStrings(changed);
    SameElements(changed, found);
  }

  lemma Decide(a: seq<Fact>, b: seq<Fact>, av: map<Text, seq<Text>>, bv: map<Text, seq<Text>>, key: Text)
    requires Collected(av, a) && Collected(bv, b) && key in av
    ensures EQUALS !in key
    ensures Changes(a, b, key) <==> key in bv && |av[key]| == 1 && |bv[key]| == 1 && av[key][0] != bv[key][0]
  {
    ValuesHaveKeys(a, key);
  }

  lemma AllDecided(a: seq<Fact>, b: seq<Fact>, av: map<Text, seq<Text>>)
    requires Collected(av, a)
    ensures forall k | Changes(a, b, k) :: k in av
  {
  }

  lemma SameElements(a: seq<Text>, b: seq<Text>)
    requires multiset(a) == multiset(b) && NoDuplicates(b)
    ensures (set k | k in a) == (set k | k in b) && NoDuplicates(a)
    ensures forall k :: k in a <==> k in b
  {
    forall k ensures k in a <==> k in b {
      assert k in multiset(a) <==> k in multiset(b);
    }
    NoDuplicatesIgnoresOrder(b, a);
  }
}
