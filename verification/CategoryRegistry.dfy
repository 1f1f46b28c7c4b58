/**
 The category registry (internal/category/registry.go): Profiles and drafts over any
 list of registered capabilities, each with its own codec and reference check.
 */
module CategoryRegistry {
  import opened Options
  import opened ByteCoding
  import EnvironmentIntent

  type Id = string

  /** What an MCP server refers to: entries of other selections, by ID. */
  datatype Argument = Argument(kind: Text, ref: Text)

  datatype Server = Server(executable: Text, inputs: seq<Text>, environment: seq<Text>, arguments: seq<Argument>)

  /** A selection of any capability; the registry itself never looks inside one. */
  datatype Selection =
    | Environment(entries: seq<EnvironmentIntent.Entry>)
    | Executables(ids: seq<Text>)
    | Paths(ids: seq<Text>)
    | Servers(servers: seq<Server>)
    | Other(value: Text)

  type Encoded = Text

  /** A capability: its codec, and its check against every other selection. */
  datatype Registration = Registration(
    optional: bool,
    version: int,
    empty: Selection,
    encode: Selection -> Option<Encoded>,
    decode: Encoded -> Option<Selection>,
    admits: (Selection, map<Id, Selection>) -> bool)

  datatype Registry = Registry(byId: map<Id, Registration>, ordered: seq<Id>) {
    ghost predicate Valid() { forall id :: id in ordered <==> id in byId }
  }

  datatype Payload = Payload(version: int, selection: Encoded)

  datatype Profile = Profile(version: int, name: string, common: map<Id, Payload>, overlays: map<string, string>)

  const CURRENT_VERSION := 1
  const READ_ALIAS_VERSION := 3

  predicate SupportedVersion(version: int) { version == CURRENT_VERSION || version == READ_ALIAS_VERSION }

  datatype Conversion = Conversion(payload: Payload, selection: Selection)

  /** One capability of a candidate: the payload it gets, and the selection that is checked. */
  function Converted(r: Registration, id: Id, c: Profile): Option<Conversion> {
    if id !in c.common then
      if !r.optional then None
      else
        match r.encode(r.empty)
        case None => None
        case Some(p) => Some(Conversion(Payload(r.version, p), r.empty))
    else if c.common[id].version != r.version then None
    else
      match r.decode(c.common[id].selection)
      case None => None
      case Some(s) =>
        match r.encode(s)
        case None => None
        case Some(p) => Some(Conversion(Payload(r.version, p), s))
  }

  predicate AllConvert(g: Registry, c: Profile) {
    forall id | id in g.byId :: Converted(g.byId[id], id, c).Some?
  }

  function Selections(g: Registry, c: Profile): map<Id, Selection>
    requires AllConvert(g, c)
  {
    map id | id in g.byId :: Converted(g.byId[id], id, c).value.selection
  }

  function Payloads(g: Registry, c: Profile): map<Id, Payload>
    requires AllConvert(g, c)
  {
    map id | id in g.byId :: Converted(g.byId[id], id, c).value.payload
  }

  predicate Admitted(g: Registry, m: map<Id, Selection>) {
    forall id | id in g.byId :: id in m && g.byId[id].admits(m[id], m)
  }

  predicate Accepted(g: Registry, c: Profile) {
    && SupportedVersion(c.version) && c.common.Keys <= g.byId.Keys
    && AllConvert(g, c) && Admitted(g, Selections(g, c))
  }

  function Normal(g: Registry, c: Profile): Profile
    requires Accepted(g, c)
  {
    c.(version := CURRENT_VERSION, common := Payloads(g, c))
  }

  /** `Normalize`: versions and names first, then every codec in order, then every check in order. */
  method Normalize(g: Registry, c: Profile) returns (result: Option<Profile>)
    requires g.Valid()
    ensures result == if Accepted(g, c) then Some(Normal(g, c)) else None
  {
    if !SupportedVersion(c.version) { return None; }
    var ids := c.common.Keys;
    while ids != {}
      invariant ids <= c.common.Keys && forall id | id in c.common && id !in ids :: id in g.byId
      decreases |ids|
    {
      var id :| id in ids;
      if id !in g.byId { return None; }
      ids := ids - {id};
    }
    hide Converted, SupportedVersion, Admitted;
    var common, selections := ConvertAll(g, c);
    if common.None? { return None; }
    var ok := CheckReferences(g, selections);
    if !ok { return None; }
    return Some(c.(version := CURRENT_VERSION, common := common.value));
  }

  method CheckReferences(g: Registry, selections: map<Id, Selection>) returns (ok: bool)
    requires g.Valid() && selections.Keys == g.byId.Keys
    ensures ok == Admitted(g, selections)
  {
    for i := 0 to |g.ordered|
      invariant forall k | 0 <= k < i :: g.byId[g.ordered[k]].admits(selections[g.ordered[k]], selections)
    {
      var id := g.ordered[i];
      if !g.byId[id].admits(selections[id], selections) { return false; }
    }
    return true;
  }

  method ConvertAll(g: Registry, c: Profile) returns (common: Option<map<Id, Payload>>, selections: map<Id, Selection>)
    requires g.Valid()
    ensures common.Some? <==> AllConvert(g, c)
    ensures common.Some? ==> common.value == Payloads(g, c) && selections == Selections(g, c)
  {
    var payloads: map<Id, Payload> := map[];
    selections := map[];
    for i := 0 to |g.ordered|
      invariant forall id :: id in payloads <==> id in g.ordered[..i]
      invariant selections.Keys == payloads.Keys
      invariant forall id | id in payloads ::
          id in g.byId && Converted(g.byId[id], id, c) == Some(Conversion(payloads[id], selections[id]))
    {
      var id := g.ordered[i];
      var converted := Converted(g.byId[id], id, c);
      hide Converted;
      if converted.None? { return None, selections; }
      payloads := payloads[id := converted.value.payload];
      selections := selections[id := converted.value.selection];
    }
    return Some(payloads), selections;
  }

  // ----- what a candidate stands for

  /**
   The selection of every registered capability a candidate stands for: the one its
   payload decodes to, or the empty one of an optional capability it does not have.
   */
  predicate StandsFor(g: Registry, c: Profile, m: map<Id, Selection>) {
    m.Keys == g.byId.Keys && forall id | id in g.byId :: StandsForId(g.byId[id], id, c, m[id])
  }

  predicate StandsForId(r: Registration, id: Id, c: Profile, s: Selection) {
    && r.encode(s).Some?
    && if id in c.common then c.common[id].version == r.version && r.decode(c.common[id].selection) == Some(s)
       else r.optional && s == r.empty
  }

  lemma ConvertsExactly(r: Registration, id: Id, c: Profile, s: Selection)
    ensures StandsForId(r, id, c, s) <==> Converted(r, id, c).Some? && Converted(r, id, c).value.selection == s
    ensures StandsForId(r, id, c, s) ==> Converted(r, id, c).value.payload == Payload(r.version, r.encode(s).value)
  {
  }

  /**
   A candidate is accepted exactly when its version and its capabilities are known, it
   stands for a selection of every capability, and these pass every reference check;
   its normal form then holds each of them encoded, under the registered version.
   */
  lemma AcceptedExactly(g: Registry, c: Profile, m: map<Id, Selection>)
    ensures Accepted(g, c) && m == Selections(g, c) <==>
              && SupportedVersion(c.version) && (forall id | id in c.common :: id in g.byId)
              && StandsFor(g, c, m) && forall id | id in g.byId :: g.byId[id].admits(m[id], m)
    ensures Accepted(g, c) && m == Selections(g, c) ==>
              && Normal(g, c).version == CURRENT_VERSION && Normal(g, c).name == c.name
              && Normal(g, c).overlays == c.overlays && Normal(g, c).common.Keys == g.byId.Keys
              && forall id | id in g.byId ::
                   Normal(g, c).common[id] == Payload(g.byId[id].version, g.byId[id].encode(m[id]).value)
  {
    hide Converted, StandsForId;
    forall id, s | id in g.byId { ConvertsExactly(g.byId[id], id, c, s); }
    if StandsFor(g, c, m) { assert AllConvert(g, c) && m == Selections(g, c); }
  }

  // ----- laws of the codecs

  /** Decoding what was encoded gives a selection that encodes to the same payload. */
  ghost predicate LawfulCodec<S(!new), P>(encode: S -> Option<P>, decode: P -> Option<S>) {
    forall s :: encode(s).Some? ==> decode(encode(s).value).Some? && encode(decode(encode(s).value).value) == encode(s)
  }

  predicate Encodes(g: Registry, m: map<Id, Selection>) {
    forall id | id in g.byId :: id in m && g.byId[id].encode(m[id]).Some?
  }

  /** Every selection of m' is that of m, encoded and decoded again. */
  predicate Rereads(g: Registry, m: map<Id, Selection>, m': map<Id, Selection>) {
    && Encodes(g, m) && m.Keys == m'.Keys == g.byId.Keys
    && forall id | id in g.byId :: g.byId[id].decode(g.byId[id].encode(m[id]).value) == Some(m'[id])
  }

  /** Reference checks do not tell selections from their reread forms. */
  ghost predicate StableChecks(g: Registry) {
    forall m, m' | Rereads(g, m, m') :: Admitted(g, m) == Admitted(g, m')
  }

  ghost predicate Lawful(g: Registry) {
    StableChecks(g) && forall id | id in g.byId :: LawfulCodec(g.byId[id].encode, g.byId[id].decode)
  }

  lemma ConvertedAgain(g: Registry, c: Profile, n: Profile, id: Id)
    requires Accepted(g, c) && n == Normal(g, c) && id in g.byId && LawfulCodec(g.byId[id].encode, g.byId[id].decode)
    ensures var (r, was, now) := (g.byId[id], Converted(g.byId[id], id, c), Converted(g.byId[id], id, n));
      now.Some? && now.value.payload == was.value.payload
      && r.encode(was.value.selection).Some? && r.decode(r.encode(was.value.selection).value) ==
           Some(now.value.selection)
  {
    assert n.common[id] == Converted(g.byId[id], id, c).value.payload;
  }

  lemma AllConvertAgain(g: Registry, c: Profile)
    requires Lawful(g) && Accepted(g, c)
    ensures var n := Normal(g, c);
      AllConvert(g, n) && Payloads(g, n) == Payloads(g, c) && Rereads(g, Selections(g, c), Selections(g, n))
  {
    var n := Normal(g, c);
    hide Converted;
    forall id | id in g.byId
      ensures var (r, was, now) := (g.byId[id], Converted(g.byId[id], id, c), Converted(g.byId[id], id, n));
        now.Some? && now.value.payload == was.value.payload
        && r.encode(was.value.selection).Some? && r.decode(r.encode(was.value.selection).value) ==
             Some(now.value.selection)
    {
      ConvertedAgain(g, c, n, id);
    }
    hide LawfulCodec, Admitted, StableChecks;
    assert Payloads(g, n) == Payloads(g, c);
  }

  /** Normalizing fills every registered capability and no other, and normalizing again changes nothing. */
  lemma NormalizeIsIdempotent(g: Registry, c: Profile)
    requires Lawful(g) && Accepted(g, c)
    ensures Normal(g, c).common.Keys == g.byId.Keys && Normal(g, c).version == CURRENT_VERSION
    ensures Accepted(g, Normal(g, c)) && Normal(g, Normal(g, c)) == Normal(g, c)
  {
    AllConvertAgain(g, c);
    hide Converted, LawfulCodec, Admitted, AllConvert, Rereads;
    assert Admitted(g, Selections(g, c)) == Admitted(g, Selections(g, Normal(g, c)));
  }

  // ----- drafts

  type Draft = map<Id, Selection>

  function Encoding(r: Registration, s: Selection): Encoded
    requires r.encode(s).Some?
  {
    r.encode(s).value
  }

  /** `NewProfileWithOverlay`. */
  function NewProfile(g: Registry, name: string, d: Draft, overlays: map<string, string>): Profile
    requires Encodes(g, d)
  {
    Profile(CURRENT_VERSION, name, map id | id in g.byId ::
      Payload(g.byId[id].version, Encoding(g.byId[id], d[id])), overlays)
  }

  /** `Clone`: every selection through its own codec. */
  predicate Clones(g: Registry, d: Draft, clone: Draft) {
    && Encodes(g, d) && clone.Keys == g.byId.Keys
    && forall id | id in g.byId :: g.byId[id].decode(Encoding(g.byId[id], d[id])) == Some(clone[id])
  }

  /** `DraftFromProfile`: the selections of the normalized payloads. */
  predicate Seeds(g: Registry, c: Profile, d: Draft) {
    && Accepted(g, c) && d.Keys == g.byId.Keys
    && forall id | id in g.byId :: g.byId[id].decode(Normal(g, c).common[id].selection) == Some(d[id])
  }

  lemma NewProfileConverts(g: Registry, name: string, d: Draft, overlays: map<string, string>, clone: Draft)
    requires Lawful(g) && Clones(g, d, clone)
    ensures var c := NewProfile(g, name, d, overlays);
      AllConvert(g, c) && Selections(g, c) == clone && Payloads(g, c) == c.common
    ensures forall id | id in g.byId ::
        NewProfile(g, name, d, overlays).common[id].selection == Encoding(g.byId[id], d[id])
  {
    var c := NewProfile(g, name, d, overlays);
    forall id | id in g.byId ensures Converted(g.byId[id], id, c) == Some(Conversion(c.common[id], clone[id])) {
      assert LawfulCodec(g.byId[id].encode, g.byId[id].decode);
      assert c.common[id] == Payload(g.byId[id].version, Encoding(g.byId[id], d[id]));
    }
    hide Converted, LawfulCodec, Admitted, StableChecks;
  }

  /**
   A draft survives storage. The Profile made of a draft is its own normal form; it is
   accepted exactly when the cloned draft passes every reference check, and the
   draft it then seeds is the clone.
   */
  lemma DraftRoundTrip(g: Registry, name: string, d: Draft, overlays: map<string, string>, clone: Draft)
    requires Lawful(g) && Clones(g, d, clone)
    ensures var c := NewProfile(g, name, d, overlays);
      && (Accepted(g, c) <==> Admitted(g, clone))
      && (Accepted(g, c) ==> Normal(g, c) == c && forall e :: Seeds(g, c, e) <==> e == clone)
  {
    NewProfileConverts(g, name, d, overlays, clone);
    var c := NewProfile(g, name, d, overlays);
    hide Lawful, Admitted, AllConvert, Selections, Payloads, Encoding;
    if Accepted(g, c) {
      assert Normal(g, c) == c;
      forall e ensures Seeds(g, c, e) <==> e == clone {
        if Seeds(g, c, e) {
          assert forall id | id in g.byId :: e[id] == clone[id];
        }
      }
    }
  }
}
