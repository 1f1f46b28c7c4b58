/**
 How the common capabilities depend on each other (internal/mcpintent/schema.go:214-265,
 internal/commonprofile/environment.go, mcp.go): the references of MCP servers into the
 executable, path and environment selections, and the environment's own codec.
 */
module CommonReferences {
  import opened Options
  import opened ByteCoding
  import opened Sorting
  import opened EnvironmentIntent
  import opened CategoryRegistry

  /** `environmentByID[ref]`: a later entry replaces an earlier one. */
  function Find(es: seq<Entry>, ref: Text): Option<Entry> {
    if es == [] then None
    else if es[|es| - 1].id == ref then Some(es[|es| - 1])
    else Find(es[..|es| - 1], ref)
  }

  predicate ArgumentHolds(a: Argument, server: Server, paths: set<Text>, es: seq<Entry>) {
    if a.kind == Ascii("path") then a.ref in paths && a.ref in server.inputs
    else if a.kind == Ascii("environment") then
      && Find(es, a.ref).Some? && a.ref in server.environment
      && Find(es, a.ref).value.classification == Ascii("non-secret")
    else true
  }

  /** One server's references all lead to selected entries, and no secret reaches its arguments. */
  predicate Referenced(server: Server, executables: set<Text>, paths: set<Text>, es: seq<Entry>) {
    && server.executable in executables
    && (forall r | r in server.inputs :: r in paths)
    && (forall r | r in server.environment :: Find(es, r).Some?)
    && (forall a | a in server.arguments :: ArgumentHolds(a, server, paths, es))
  }

  predicate AllReferenced(servers: seq<Server>, executables: seq<Text>, paths: seq<Text>, es: seq<Entry>) {
    forall server | server in servers :: Referenced(server, Elements(executables), Elements(paths), es)
  }

  /** `environmentByID`, filled in order. */
  method Index(es: seq<Entry>) returns (byId: map<Text, Entry>)
    ensures forall ref :: Find(es, ref) == if ref in byId then Some(byId[ref]) else None
  {
    byId := map[];
    for i := 0 to |es|
      invariant forall ref :: Find(es[..i], ref) == if ref in byId then Some(byId[ref]) else None
    {
      assert es[..i + 1][..i] == es[..i];
      byId := byId[es[i].id := es[i]];
    }
    assert es[..|es|] == es;
  }

  method ValidateReferences(servers: seq<Server>, executables: seq<Text>, paths: seq<Text>, es: seq<Entry>)
      returns (ok: bool)
    ensures ok == AllReferenced(servers, executables, paths, es)
  {
    var executableIds, pathIds := Elements(executables), Elements(paths);
    var byId := Index(es);
    for i := 0 to |servers|
      invariant forall k | 0 <= k < i :: Referenced(servers[k], executableIds, pathIds, es)
    {
      ok := ValidateServer(servers[i], executableIds, pathIds, es, byId);
      if !ok { return; }
    }
    return true;
  }

  method ValidateServer(server: Server, executableIds: set<Text>, pathIds: set<Text>, ghost es: seq<Entry>,
      byId: map<Text, Entry>)
      returns (ok: bool)
    requires forall ref :: Find(es, ref) == if ref in byId then Some(byId[ref]) else None
    ensures ok == Referenced(server, executableIds, pathIds, es)
  {
    if server.executable !in executableIds { return false; }
    for i := 0 to |server.inputs|
      invariant forall k | 0 <= k < i :: server.inputs[k] in pathIds
    {
      if server.inputs[i] !in pathIds { return false; }
    }
    for i := 0 to |server.environment|
      invariant forall k | 0 <= k < i :: server.environment[k] in byId
    {
      if server.environment[i] !in byId { return false; }
    }
    for i := 0 to |server.arguments|
      invariant forall k | 0 <= k < i :: ArgumentHolds(server.arguments[k], server, pathIds, es)
    {
      var a := server.arguments[i];
      assert a in server.arguments
          && (Referenced(server, executableIds, pathIds, es) ==> ArgumentHolds(a, server, pathIds, es));
      if a.kind == Ascii("path") {
        if a.ref !in pathIds || a.ref !in server.inputs { return false; }
      } else if a.kind == Ascii("environment") {
        if a.ref !in byId || a.ref !in server.environment
            || byId[a.ref].classification != Ascii("non-secret") { return false; }
      }
    }
    return true;
  }

  // ----- references do not see what a codec changes

  lemma {:induction false} FoundIsThere(es: seq<Entry>, ref: Text)
    ensures match Find(es, ref)
      case Some(e) => e in es && e.id == ref
      case None => forall e | e in es :: e.id != ref
  {
    if es != [] {
      var front := es[..|es| - 1];
      FoundIsThere(front, ref);
      assert es == front + [es[|es| - 1]];
    }
  }

  lemma DistinctIds(es: seq<Entry>, e: Entry, f: Entry)
    requires NoDuplicates(Map(EnvironmentIntent.Id, es)) && e in es && f in es && e.id == f.id
    ensures e == f
  {
    var i :| 0 <= i < |es| && es[i] == e;
    var j :| 0 <= j < |es| && es[j] == f;
    assert Map(EnvironmentIntent.Id, es)[i] == Map(EnvironmentIntent.Id, es)[j];
  }

  /** With distinct IDs the order of the entries is not seen. */
  lemma FindIgnoresOrder(a: seq<Entry>, b: seq<Entry>, ref: Text)
    requires Acceptable(a) && multiset(a) == multiset(b)
    ensures Find(a, ref) == Find(b, ref)
  {
    assert NoDuplicates(Map(EnvironmentIntent.Id, a));
    hide Acceptable, NoDuplicates, Map, Find;
    FoundIsThere(a, ref);
    FoundIsThere(b, ref);
    assert forall e :: e in a <==> e in multiset(a);
    assert forall e :: e in b <==> e in multiset(b);
    if Find(a, ref).Some? && Find(b, ref).Some? {
      DistinctIds(a, Find(a, ref).value, Find(b, ref).value);
    }
  }

  /** The entry of an ID, if there is one, and only that. */
  lemma FindsExactly(es: seq<Entry>, ref: Text)
    requires Acceptable(es)
    ensures Find(es, ref).Some? <==> exists e | e in es :: e.id == ref
    ensures forall e | e in es && e.id == ref :: Find(es, ref) == Some(e)
    ensures Find(es, ref).Some? ==> Find(es, ref).value in es && Find(es, ref).value.id == ref
  {
    assert NoDuplicates(Map(EnvironmentIntent.Id, es));
    hide Acceptable, NoDuplicates, Map, Find;
    FoundIsThere(es, ref);
    forall e | e in es && e.id == ref ensures Find(es, ref) == Some(e) { DistinctIds(es, Find(es, ref).value, e); }
  }

  /**
   Among entries of distinct IDs, a server's references hold exactly when every one
   leads to a selected entry, and an argument takes a path or an environment entry only
   from its server's own lists, and a non-secret one.
   */
  lemma ReferencedExactly(s: Server, executables: seq<Text>, paths: seq<Text>, es: seq<Entry>)
    requires Acceptable(es)
    ensures Referenced(s, Elements(executables), Elements(paths), es) <==>
              && s.executable in executables
              && (forall r | r in s.inputs :: r in paths)
              && (forall r | r in s.environment :: exists e | e in es :: e.id == r)
              && (forall a | a in s.arguments && a.kind == Ascii("path") :: a.ref in paths && a.ref in s.inputs)
              && (forall a | a in s.arguments && a.kind == Ascii("environment") ::
                   a.ref in s.environment
                   && exists e | e in es :: e.id == a.ref && e.classification == Ascii("non-secret"))
  {
    assert Ascii("path") != Ascii("environment") by { assert |Ascii("path")| == 4; }
    assert forall t :: t in Elements(executables) <==> t in executables;
    assert forall t :: t in Elements(paths) <==> t in paths;
    hide Acceptable, Find, Elements, Ascii;
    forall ref { FindsExactly(es, ref); }
  }

  /** Servers whose references are the same, whatever their order. */
  predicate SameReferences(x: Server, y: Server) {
    && x.executable == y.executable && x.arguments == y.arguments
    && Elements(x.inputs) == Elements(y.inputs) && Elements(x.environment) == Elements(y.environment)
  }

  predicate Covers(a: seq<Server>, b: seq<Server>) {
    forall x | x in a :: exists y :: y in b && SameReferences(x, y)
  }

  lemma SameReferencesAgree(x: Server, y: Server, executables: set<Text>, paths: set<Text>, es: seq<Entry>,
      es': seq<Entry>)
    requires SameReferences(x, y) && forall ref :: Find(es, ref) == Find(es', ref)
    ensures Referenced(x, executables, paths, es) == Referenced(y, executables, paths, es')
  {
    InElements(x.inputs, y.inputs);
    InElements(x.environment, y.environment);
    hide Find, Elements;
    assert forall a :: ArgumentHolds(a, x, paths, es) == ArgumentHolds(a, y, paths, es');
  }

  lemma InElements(a: seq<Text>, b: seq<Text>)
    requires Elements(a) == Elements(b)
    ensures forall t :: t in a <==> t in b
  {
    assert forall t :: t in a <==> t in Elements(a);
    assert forall t :: t in b <==> t in Elements(b);
  }

  lemma CoveredAgree(a: seq<Server>, b: seq<Server>, x: seq<Text>, x': seq<Text>, p: seq<Text>, p': seq<Text>,
      es: seq<Entry>, es': seq<Entry>)
    requires Covers(a, b) && Elements(x) == Elements(x') && Elements(p) == Elements(p')
    requires forall ref :: Find(es, ref) == Find(es', ref)
    ensures AllReferenced(b, x', p', es') ==> AllReferenced(a, x, p, es)
  {
    if AllReferenced(b, x', p', es') {
      forall s | s in a ensures Referenced(s, Elements(x), Elements(p), es) {
        var t :| t in b && SameReferences(s, t);
        SameReferencesAgree(s, t, Elements(x), Elements(p), es, es');
      }
    }
  }

  // ----- the common registry is lawful

  const ENVIRONMENT := "environment"
  const EXECUTABLES := "executables"
  const PATHS := "paths"
  const MCP := "mcp"

  /** JSON, in both directions; decoding may refuse. */
  type Marshal = seq<Entry> -> Encoded
  type Unmarshal = Encoded -> Option<seq<Entry>>

  function EncodeEnvironment(marshal: Marshal, s: Selection): Option<Encoded> {
    if !s.Environment? then None
    else
      match CanonicalEntries(s.entries)
      case None => None
      case Some(es) => Some(marshal(es))
  }

  function DecodeEnvironment(unmarshal: Unmarshal, p: Encoded): Option<Selection> {
    match unmarshal(p)
    case None => None
    case Some(es) =>
      match CanonicalEntries(es)
      case None => None
      case Some(canonical) => Some(Environment(canonical))
  }

  /** The capability as it is registered: optional, and without a reference check. */
  function EnvironmentRegistration(marshal: Marshal, unmarshal: Unmarshal): Registration {
    Registration(true, 1, Environment([]), s => EncodeEnvironment(marshal, s), p => DecodeEnvironment(unmarshal, p),
      (s, m) => true)
  }

  /** What was written for admitted entries reads back as those entries. */
  ghost predicate RoundTrips(marshal: Marshal, unmarshal: Unmarshal) {
    forall es | CanonicalEntries(es) == Some(es) :: unmarshal(marshal(es)) == Some(es)
  }

  /** An environment selection encodes exactly when it is admitted, and decodes to its canonical form. */
  lemma EnvironmentCodecIsLawful(marshal: Marshal, unmarshal: Unmarshal)
    requires RoundTrips(marshal, unmarshal)
    ensures var r := EnvironmentRegistration(marshal, unmarshal);
      && LawfulCodec(r.encode, r.decode)
      && forall s: Selection ::
           (r.encode(s).Some? <==> s.Environment? && CanonicalEntries(s.entries).Some?)
           && (r.encode(s).Some? ==>
                r.decode(r.encode(s).value) == Some(Environment(CanonicalEntries(s.entries).value)))
  {
    var r := EnvironmentRegistration(marshal, unmarshal);
    forall s: Selection | r.encode(s).Some?
      ensures s.Environment? && CanonicalEntries(s.entries).Some?
      ensures r.decode(r.encode(s).value) == Some(Environment(CanonicalEntries(s.entries).value))
      ensures r.encode(r.decode(r.encode(s).value).value) == r.encode(s)
    {
      CanonicalIdempotent(s.entries);
    }
    hide CanonicalEntries;
  }

  /** The MCP check: all four selections have their own type, and every reference is selected. */
  predicate Checked(s: Selection, m: map<Id, Selection>) {
    && s.Servers?
    && EXECUTABLES in m && m[EXECUTABLES].Executables? && PATHS in m && m[PATHS].Paths?
    && ENVIRONMENT in m && m[ENVIRONMENT].Environment?
    && AllReferenced(s.servers, m[EXECUTABLES].ids, m[PATHS].ids, m[ENVIRONMENT].entries)
  }

  /** A reread selection of one of the other three types keeps its IDs, and servers their references. */
  predicate Keeps(s: Selection, s': Selection) {
    && (s.Executables? ==> s'.Executables? && Elements(s.ids) == Elements(s'.ids))
    && (s.Paths? ==> s'.Paths? && Elements(s.ids) == Elements(s'.ids))
    && (s.Servers? ==> s'.Servers? && Covers(s.servers, s'.servers) && Covers(s'.servers, s.servers))
  }

  ghost predicate KeepsReferences(r: Registration) {
    forall s: Selection | r.encode(s).Some? ::
        r.decode(r.encode(s).value).Some? ==> Keeps(s, r.decode(r.encode(s).value).value)
  }

  ghost predicate EncodesOnly(r: Registration, holds: Selection -> bool) {
    forall s: Selection | r.encode(s).Some? :: holds(s)
  }

  /**
   A registry of the common capabilities: the environment's registration, the other
   three that references reach, and any more; only MCP has a reference check.
   */
  ghost predicate Common(g: Registry, marshal: Marshal, unmarshal: Unmarshal) {
    && {ENVIRONMENT, EXECUTABLES, PATHS, MCP} <= g.byId.Keys
    && g.byId[ENVIRONMENT] == EnvironmentRegistration(marshal, unmarshal)
    && EncodesOnly(g.byId[EXECUTABLES], (s: Selection) => s.Executables?)
    && EncodesOnly(g.byId[PATHS], (s: Selection) => s.Paths?)
    && EncodesOnly(g.byId[MCP], (s: Selection) => s.Servers?)
    && (forall id | id in g.byId && id != ENVIRONMENT :: LawfulCodec(g.byId[id].encode, g.byId[id].decode))
    && (forall id | id in {EXECUTABLES, PATHS, MCP} :: KeepsReferences(g.byId[id]))
    && (forall id, s, m | id in g.byId && id != MCP :: g.byId[id].admits(s, m))
    && (forall s, m :: g.byId[MCP].admits(s, m) == Checked(s, m))
  }

  lemma RereadEnvironment(g: Registry, marshal: Marshal, unmarshal: Unmarshal, m: map<Id, Selection>,
      m': map<Id, Selection>)
    requires Common(g, marshal, unmarshal) && RoundTrips(marshal, unmarshal) && Rereads(g, m, m')
    ensures m[ENVIRONMENT].Environment? && m'[ENVIRONMENT].Environment?
    ensures forall ref :: Find(m[ENVIRONMENT].entries, ref) == Find(m'[ENVIRONMENT].entries, ref)
  {
    EnvironmentCodecIsLawful(marshal, unmarshal);
    var es := m[ENVIRONMENT].entries;
    CanonicalIdempotent(es);
    forall ref ensures Find(es, ref) == Find(m'[ENVIRONMENT].entries, ref) {
      FindIgnoresOrder(es, m'[ENVIRONMENT].entries, ref);
    }
  }

  /**
   The registry of the common capabilities is lawful: rereading every selection
   changes no reference check. Its normal form and its drafts so obey the laws of any
   lawful registry.
   */
  lemma CommonIsLawful(g: Registry, marshal: Marshal, unmarshal: Unmarshal)
    requires Common(g, marshal, unmarshal) && RoundTrips(marshal, unmarshal)
    ensures Lawful(g)
  {
    EnvironmentCodecIsLawful(marshal, unmarshal);
    forall m, m' | Rereads(g, m, m') ensures Admitted(g, m) == Admitted(g, m') {
      CommonChecksStable(g, marshal, unmarshal, m, m');
    }
    hide Rereads, Admitted, EnvironmentRegistration, Checked;
  }

  lemma CommonChecksStable(g: Registry, marshal: Marshal, unmarshal: Unmarshal, m: map<Id, Selection>,
      m': map<Id, Selection>)
    requires Common(g, marshal, unmarshal) && RoundTrips(marshal, unmarshal) && Rereads(g, m, m')
    ensures Admitted(g, m) == Admitted(g, m')
  {
    RereadEnvironment(g, marshal, unmarshal, m, m');
    RereadKeeps(g, marshal, unmarshal, m, m');
    var (es, es') := (m[ENVIRONMENT].entries, m'[ENVIRONMENT].entries);
    var (x, x', p, p') := (m[EXECUTABLES].ids, m'[EXECUTABLES].ids, m[PATHS].ids, m'[PATHS].ids);
    var (a, b) := (m[MCP].servers, m'[MCP].servers);
    CoveredAgree(a, b, x, x', p, p', es, es');
    CoveredAgree(b, a, x', x, p', p, es', es);
    hide EnvironmentRegistration, LawfulCodec, KeepsReferences, AllReferenced, Covers, Elements, Find, EncodesOnly;
    assert Checked(m[MCP], m) == Checked(m'[MCP], m');
  }

  lemma RereadKeeps(g: Registry, marshal: Marshal, unmarshal: Unmarshal, m: map<Id, Selection>, m': map<Id, Selection>)
    requires Common(g, marshal, unmarshal) && Rereads(g, m, m')
    ensures m[EXECUTABLES].Executables? && m[PATHS].Paths? && m[MCP].Servers?
    ensures Keeps(m[EXECUTABLES], m'[EXECUTABLES]) && Keeps(m[PATHS], m'[PATHS]) && Keeps(m[MCP], m'[MCP])
  {
    assert KeepsReferences(g.byId[EXECUTABLES]) && KeepsReferences(g.byId[PATHS]) && KeepsReferences(g.byId[MCP]);
    hide EnvironmentRegistration, Keeps, LawfulCodec;
  }
}
