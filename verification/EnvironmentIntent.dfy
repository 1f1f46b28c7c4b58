/**
 The environment selection of a Profile (internal/environmentintent/schema.go):
 its limits, its names, and its canonical form.
 */
module EnvironmentIntent {
  import opened Options
  import opened ByteCoding
  import opened Sorting

  const MAXIMUM_ENTRIES := 128
  const MAXIMUM_VALUE_BYTES := 32 * 1024
  const MAXIMUM_AGGREGATE_BYTES := 128 * 1024

  datatype Source = Source(kind: Text, name: Text, provider: Text, reference: Text)

  datatype Entry = Entry(id: Text, destination: Text, scope: Text, source: Source, required: bool, classification: Text)

  predicate Between(b: Byte, low: char, high: char) { low as int <= b <= high as int }

  predicate NameByte(b: Byte) { Between(b, 'A', 'Z') || b == '_' as int || Between(b, '0', '9') }

  predicate ValidName(t: Text) {
    1 <= |t| <= 128 && !Between(t[0], '0', '9') && forall i | 0 <= i < |t| :: NameByte(t[i])
  }

  predicate IdByte(b: Byte) {
    Between(b, 'a', 'z') || Between(b, '0', '9') || b == '.' as int || b == '_' as int || b == '-' as int
  }

  predicate ValidId(t: Text) {
    1 <= |t| <= 64 && Between(t[0], 'a', 'z') && forall i | 0 <= i < |t| :: IdByte(t[i])
  }

  const RESERVED_EXACT: seq<string> := [
    "HOME", "PATH", "PWD", "TMPDIR", "XDG_CONFIG_HOME", "XDG_DATA_HOME", "XDG_CACHE_HOME", "XDG_STATE_HOME",
    "TERM", "COLORTERM", "LANG", "LC_ALL", "LC_CTYPE",
    "BASH_ENV", "ENV", "ZDOTDIR", "SHELLOPTS", "BASHOPTS", "PROMPT_COMMAND"]

  const RESERVED_PREFIXES: seq<string> := ["ACS_", "DYLD_", "LD_", "LC_"]

  predicate ReservedDestination(t: Text) {
    || (exists s | s in RESERVED_EXACT :: t == Ascii(s))
    || (exists s | s in RESERVED_PREFIXES :: Ascii(s) <= t)
  }

  predicate ValidDestination(t: Text) { ValidName(t) && !ReservedDestination(t) }

  predicate ValidSource(e: Entry) {
    if e.classification == Ascii("non-secret") then
      e.source.kind == Ascii("host-environment") && ValidName(e.source.name) && e.source.provider == []
        && e.source.reference == []
    else
      && e.classification == Ascii("secret") && e.required
      && e.source.kind == Ascii("secret-reference") && e.source.name == []
      && e.source.provider == Ascii("host-environment") && ValidName(e.source.reference)
  }

  predicate ValidEntry(e: Entry) {
    ValidId(e.id) && ValidDestination(e.destination) && e.scope == Ascii("attached-process-tree") && ValidSource(e)
  }

  function Id(e: Entry): Text { e.id }

  function Destination(e: Entry): Text { e.destination }

  predicate Acceptable(es: seq<Entry>) {
    && |es| <= MAXIMUM_ENTRIES
    && (forall e | e in es :: ValidEntry(e))
    && NoDuplicates(Map(Id, es)) && NoDuplicates(Map(Destination, es))
  }

  predicate ById(e: Entry, f: Entry) { Below(e.id, f.id) }

  /** An acceptable selection sorted by ID; None for any other. */
  function CanonicalEntries(es: seq<Entry>): Option<seq<Entry>> {
    if Acceptable(es) then Some(Arrange(ById, es)) else None
  }

  lemma ByIdIsAnOrder()
    ensures Transitive(ById) && Antisymmetric(ById)
  {
    forall e, f ensures ById(e, f) ==> !ById(f, e) {
      BelowIsTotal(e.id, f.id);
    }
    forall e, f, g | !ById(f, e) && !ById(g, f) ensures !ById(g, e) {
      BelowIsTotal(e.id, f.id);
      BelowIsTotal(f.id, g.id);
      BelowIsTotal(e.id, g.id);
      if Below(e.id, f.id) && Below(f.id, g.id) {
        BelowIsTransitive(e.id, f.id, g.id);
      }
    }
  }

  lemma AcceptableIgnoresOrder(a: seq<Entry>, b: seq<Entry>)
    requires multiset(a) == multiset(b) && Acceptable(a)
    ensures Acceptable(b)
  {
    assert |multiset(a)| == |a| && |multiset(b)| == |b|;
    forall e | e in b ensures ValidEntry(e) {
      assert e in multiset(b);
    }
    MapMultiset(Id, a, b);
    MapMultiset(Destination, a, b);
    NoDuplicatesIgnoresOrder(Map(Id, a), Map(Id, b));
    NoDuplicatesIgnoresOrder(Map(Destination, a), Map(Destination, b));
  }

  /** Distinct IDs leave a sort no choice. */
  lemma OneSort(sorted: seq<Entry>, es: seq<Entry>)
    requires Acceptable(es) && IsSortOf(ById, sorted, es)
    ensures CanonicalEntries(es) == Some(sorted)
  {
    ByIdIsAnOrder();
    ArrangeSorts(ById, es);
    AcceptableIgnoresOrder(es, sorted);
    forall x, y | x in sorted && y in sorted && !ById(x, y) && !ById(y, x) ensures x == y {
      BelowIsTotal(x.id, y.id);
      var i :| 0 <= i < |sorted| && sorted[i] == x;
      var j :| 0 <= j < |sorted| && sorted[j] == y;
      assert Map(Id, sorted)[i] == Map(Id, sorted)[j];
    }
    SortIsUnique(ById, sorted, Arrange(ById, es));
  }

  /** The canonical form depends on the multiset of entries alone. */
  lemma CanonicalIgnoresOrder(a: seq<Entry>, b: seq<Entry>)
    requires multiset(a) == multiset(b)
    ensures CanonicalEntries(a) == CanonicalEntries(b)
  {
    if Acceptable(a) {
      AcceptableIgnoresOrder(a, b);
      ByIdIsAnOrder();
      ArrangeSorts(ById, b);
      OneSort(Arrange(ById, b), a);
    } else if Acceptable(b) {
      AcceptableIgnoresOrder(b, a);
    }
  }

  /** A canonical selection is its own canonical form, and holds exactly the entries given. */
  lemma CanonicalIdempotent(es: seq<Entry>)
    requires CanonicalEntries(es).Some?
    ensures var r := CanonicalEntries(es).value;
      IsSortOf(ById, r, es) && Acceptable(r) && CanonicalEntries(r) == Some(r)
  {
    ByIdIsAnOrder();
    ArrangeSorts(ById, es);
    var r := Arrange(ById, es);
    AcceptableIgnoresOrder(es, r);
    OneSort(r, r);
  }

  method SortSlice(es: seq<Entry>) returns (sorted: seq<Entry>)
    ensures IsSortOf(ById, sorted, es)
  {
    ByIdIsAnOrder();
    ArrangeSorts(ById, es);
    sorted := Arrange(ById, es);
  }

  function Elements(ts: seq<Text>): set<Text> { set k | 0 <= k < |ts| :: ts[k] }

  lemma OneMore(ts: seq<Text>, i: nat)
    requires i < |ts| && NoDuplicates(ts[..i])
    ensures Elements(ts[..i + 1]) == Elements(ts[..i]) + {ts[i]}
    ensures if ts[i] in Elements(ts[..i]) then !NoDuplicates(ts) else NoDuplicates(ts[..i + 1])
  {
    assert ts[..i + 1] == ts[..i] + [ts[i]];
  }

  /** The prefix already checked. */
  predicate Checked(es: seq<Entry>, i: nat)
    requires i <= |es|
  {
    && (forall k | 0 <= k < i :: ValidEntry(es[k]))
    && NoDuplicates(Map(Id, es)[..i]) && NoDuplicates(Map(Destination, es)[..i])
  }

  lemma CheckOne(es: seq<Entry>, i: nat)
    requires i < |es| && Checked(es, i)
    ensures var ids, destinations := Map(Id, es), Map(Destination, es);
      && Elements(ids[..i + 1]) == Elements(ids[..i]) + {es[i].id}
      && Elements(destinations[..i + 1]) == Elements(destinations[..i]) + {es[i].destination}
      && if ValidEntry(es[i]) && es[i].id !in Elements(ids[..i]) && es[i].destination !in Elements(destinations[..i])
         then Checked(es, i + 1) else !Acceptable(es)
  {
    OneMore(Map(Id, es), i);
    OneMore(Map(Destination, es), i);
    assert es[i] in es;
    assert Map(Id, es)[i] == es[i].id && Map(Destination, es)[i] == es[i].destination;
    hide ValidEntry, Elements;
  }

  lemma CheckedAll(es: seq<Entry>)
    requires |es| <= MAXIMUM_ENTRIES && Checked(es, |es|)
    ensures Acceptable(es)
  {
    assert Map(Id, es)[..|es|] == Map(Id, es) && Map(Destination, es)[..|es|] == Map(Destination, es);
    hide ValidEntry;
  }

  method Canonical(es: seq<Entry>) returns (r: Option<seq<Entry>>)
    ensures r == CanonicalEntries(es)
  {
    if |es| > MAXIMUM_ENTRIES { return None; }
    hide Checked, ValidId, ValidDestination, ValidSource, Acceptable, Map;
    var seenIds: set<Text>, seenDestinations: set<Text> := {}, {};
    CheckNone(es);
    for i := 0 to |es|
      invariant seenIds == Elements(Map(Id, es)[..i])
      invariant seenDestinations == Elements(Map(Destination, es)[..i])
      invariant Checked(es, i)
    {
      var e := es[i];
      CheckOne(es, i);
      if !ValidId(e.id) || e.id in seenIds { return None; }
      seenIds := seenIds + {e.id};
      if !ValidDestination(e.destination) || e.destination in seenDestinations { return None; }
      seenDestinations := seenDestinations + {e.destination};
      if e.scope != Ascii("attached-process-tree") { return None; }
      if !ValidSource(e) { return None; }
    }
    CheckedAll(es);
    var sorted := SortSlice(es);
    OneSort(sorted, es);
    return Some(sorted);
  }

  lemma CheckNone(es: seq<Entry>)
    ensures Checked(es, 0) && Elements(Map(Id, es)[..0]) == {} == Elements(Map(Destination, es)[..0])
  {
  }
}
