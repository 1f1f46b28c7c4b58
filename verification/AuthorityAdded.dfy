/**
 What the facts a recipe and the runtime add show (internal/authority/plan.go:618-710):
 the recipe's decisions, its requirements, and the runtime's own authority.
 */
module AuthorityAdded {
  import opened Options
  import opened ByteCoding
  import opened Sorting
  import opened AuthorityManifest
  import opened AuthorityPlan
  import opened AuthorityBags
  import opened AuthorityRequested

  // ----- what the target adds

  function ConfiguredFact(source: FactSource, d: Decision): Fact { ConfigurationFacts(source, d).targetAdded[0] }

  function PreflightFact(source: FactSource, d: Decision): Fact { PreflightFacts(source, d).targetAdded[0] }

  function InheritedFact(source: FactSource, rule: InheritanceRule): Fact {
      InheritanceFacts(source, rule).targetAdded[0] }

  function InputFact(source: FactSource, id: Text): Fact { RuntimeInputFacts(source, id).targetAdded[0] }

  function ShownConfiguration(p: Plan): multiset<Fact> {
    var source := ByTarget(p);
    multiset(Map(d => ConfiguredFact(source, d), p.requirements.semantics.configuration))
  }
  function ShownServers(p: Plan): multiset<Fact> { multiset(ServerFacts(p).targetAdded) }
  function ShownPreflights(p: Plan): multiset<Fact> {
    var source := ByTarget(p);
    multiset(Map(d => PreflightFact(source, d), p.requirements.semantics.preflights))
  }
  function ShownInheritance(p: Plan): multiset<Fact> {
    var source := ByTarget(p);
    multiset(Map(rule => InheritedFact(source, rule), p.requirements.semantics.inheritance))
  }
  function ShownCredentials(p: Plan): multiset<Fact> { multiset(CredentialFacts(p).targetAdded) }
  function ShownTarget(p: Plan): multiset<Fact> { multiset(ExecutableFacts(p).targetAdded) }
  function ShownInputs(p: Plan): multiset<Fact> {
    var source := ByTarget(p);
    multiset(Map(id => InputFact(source, id), p.requirements.runtimeInputIds))
  }
  function ShownDestinations(p: Plan): multiset<Fact> { multiset(RuntimeFacts(p.runtime).targetAdded) }

  lemma SelectionsAddNothing(p: Plan)
    ensures Bag(InTargetAdded, [WorkspaceFacts(p)]) == multiset{}
    ensures Bag(InTargetAdded, Map(i => PathGrantFacts(p.WorkspaceAccess(), i), p.pathGrants)) == multiset{}
    ensures Bag(InTargetAdded, Map(PathExclusionFacts, p.pathExclusions)) == multiset{}
    ensures Bag(InTargetAdded, Map(ExecutableGrantFacts, p.executableGrants)) == multiset{}
    ensures Bag(InTargetAdded, Map(EnvironmentFacts, p.environment)) == multiset{}
  {
    hide Ascii, Bag, Granted;
    var s := InTargetAdded;
    BagOfNone(s, [WorkspaceFacts(p)]);
    BagOfNone(s, Map(i => PathGrantFacts(p.WorkspaceAccess(), i), p.pathGrants));
    BagOfNone(s, Map(PathExclusionFacts, p.pathExclusions));
    BagOfNone(s, Map(ExecutableGrantFacts, p.executableGrants));
    BagOfNone(s, Map(EnvironmentFacts, p.environment));
  }

  lemma ProfileAddsNothing(p: Plan)
    ensures Bag(InTargetAdded, ProfileParts(p)) == Contributed(InTargetAdded, p)
  {
    hide *;
    ProfileSplits(InTargetAdded, p);
    SelectionsAddNothing(p);
  }

  lemma ListsAdd(p: Plan)
    ensures Configured(InTargetAdded, p) == ShownConfiguration(p) && Preflighted(InTargetAdded, p) == ShownPreflights(p)
    ensures Inherited(InTargetAdded, p) == ShownInheritance(p) && Inputs(InTargetAdded, p) == ShownInputs(p)
    ensures Unsupported(InTargetAdded, p) == multiset{}
  {
    var s, semantics, source := InTargetAdded, p.requirements.semantics, ByTarget(p);
    BagOfOnes(s, d => ConfigurationFacts(source, d), d => ConfiguredFact(source, d), semantics.configuration);
    BagOfOnes(s, d => PreflightFacts(source, d), d => PreflightFact(source, d), semantics.preflights);
    BagOfOnes(s, rule => InheritanceFacts(source, rule), rule => InheritedFact(source, rule), semantics.inheritance);
    BagOfOnes(s, id => RuntimeInputFacts(source, id), id => InputFact(source, id), p.requirements.runtimeInputIds);
    BagOfNone(s, Map(d => UnsupportedFacts(source, d), semantics.unsupported));
    hide Bag, ByTarget, Ascii;
  }

  lemma SinglesAdd(p: Plan)
    ensures Contents(Of(InTargetAdded, ServerFacts(p))) == ShownServers(p)
    ensures Contents(Of(InTargetAdded, CredentialFacts(p))) == ShownCredentials(p)
  {
    hide Ascii, Contents;
    SimpleContents(ServerFacts(p).targetAdded);
    SimpleContents(CredentialFacts(p).targetAdded);
  }

  lemma TargetAdds(p: Plan)
    ensures Contents(Of(InTargetAdded, ExecutableFacts(p))) == ShownTarget(p)
  {
    hide Ascii, Contents;
    SimpleContents(ExecutableFacts(p).targetAdded);
  }

  lemma DestinationsAdd(p: Plan)
    ensures Contents(Of(InTargetAdded, RuntimeFacts(p.runtime))) == ShownDestinations(p)
  {
    hide Ascii, Contents, RuntimeEffective, RuntimeUnsupported;
    SimpleContents(RuntimeFacts(p.runtime).targetAdded);
  }

  function AddedBags(p: Plan): seq<multiset<Fact>> {
    [ShownConfiguration(p), ShownServers(p), ShownPreflights(p), ShownInheritance(p), ShownCredentials(p),
      ShownTarget(p),
     ShownInputs(p), ShownDestinations(p)]
  }

  lemma AddedTotal(p: Plan)
    ensures Contents(AllFacts(p).targetAdded) == Total(AddedBags(p)) + Contributed(InTargetAdded, p)
  {
    hide *;
    SectionBag(InTargetAdded, p);
    ProfileAddsNothing(p);
    LaterSplits(InTargetAdded, p);
    ListsAdd(p);
    SinglesAdd(p);
    TargetAdds(p);
    DestinationsAdd(p);
    NothingRequestedIsAdded(p);
    AddedBagsTotal(p);
  }

  lemma NothingRequestedIsAdded(p: Plan)
    ensures Of(InTargetAdded, AllFacts(p)) == AllFacts(p).targetAdded
        && Contents(Of(InTargetAdded, RequestedFacts(p))) == multiset{}
  {
    hide SelectionFacts, AuthenticationFacts, AllFacts;
    SimpleContents([]);
  }

  lemma AddedBagsTotal(p: Plan)
    ensures Total(AddedBags(p)) ==
            ShownConfiguration(p) + ShownServers(p) + ShownPreflights(p) + ShownInheritance(p) + ShownCredentials(p)
            + ShownTarget(p) + ShownInputs(p) + ShownDestinations(p)
  {
    hide ShownConfiguration, ShownServers, ShownPreflights, ShownInheritance, ShownCredentials, ShownTarget,
      ShownInputs;
    hide ShownDestinations, Total;
    var (a, b, c, d) := (ShownConfiguration(p), ShownServers(p), ShownPreflights(p), ShownInheritance(p));
    var (e, f, g, h) := (ShownCredentials(p), ShownTarget(p), ShownInputs(p), ShownDestinations(p));
    TotalOfFour(a, b, c, d, [e, f, g, h]);
    TotalCons(e, [f, g, h]);
    TotalOfThree(f, g, h);
    assert AddedBags(p) == [a, b, c, d] + [e, f, g, h] && [e, f, g, h] == [e] + [f, g, h];
  }

  lemma ConfigurationKind(p: Plan)
    ensures Keyed(ShownConfiguration(p), KindCode, 1533806)
  {
    Coded("generated-configuration");
    assert CodeOf("generated-configuration") == 1533806;
    var source := ByTarget(p);
    KindsOfMap(d => ConfiguredFact(source, d), p.requirements.semantics.configuration,
      Ascii("generated-configuration"));
    hide Code, Ascii, Map;
  }

  lemma ServersKind(p: Plan)
    ensures Keyed(ShownServers(p), KindCode, 1340526)
  {
    Coded("target-configuration");
    assert CodeOf("target-configuration") == 1340526;
    hide Code, Ascii, Map;
  }

  lemma PreflightsKind(p: Plan)
    ensures Keyed(ShownPreflights(p), KindCode, 1078388)
  {
    Coded("target-preflight");
    assert CodeOf("target-preflight") == 1078388;
    var source := ByTarget(p);
    KindsOfMap(d => PreflightFact(source, d), p.requirements.semantics.preflights, Ascii("target-preflight"));
    hide Code, Ascii, Map;
  }

  lemma InheritanceKind(p: Plan)
    ensures Keyed(ShownInheritance(p), KindCode, 1273957)
  {
    Coded("project-inheritance");
    assert CodeOf("project-inheritance") == 1273957;
    var source := ByTarget(p);
    KindsOfMap(rule => InheritedFact(source, rule), p.requirements.semantics.inheritance, Ascii("project-inheritance"));
    hide Code, Ascii, Map;
  }

  lemma CredentialsKind(p: Plan)
    ensures Keyed(ShownCredentials(p), KindCode, 1401710)
  {
    Coded("credential-projection");
    assert CodeOf("credential-projection") == 1401710;
    hide Code, Ascii, Map;
  }

  lemma ExecutablesKind(p: Plan)
    ensures Keyed(ShownTarget(p), KindCode, 681317)
  {
    Coded("executable");
    assert CodeOf("executable") == 681317;
    hide Code, Ascii, Map;
  }

  lemma InputsKind(p: Plan)
    ensures Keyed(ShownInputs(p), KindCode, 881268)
  {
    Coded("runtime-input");
    assert CodeOf("runtime-input") == 881268;
    var source := ByTarget(p);
    KindsOfMap(id => InputFact(source, id), p.requirements.runtimeInputIds, Ascii("runtime-input"));
    hide Code, Ascii, Map;
  }

  lemma DestinationsKind(p: Plan)
    ensures Keyed(ShownDestinations(p), KindCode, 1274734)
  {
    Coded("session-destination");
    assert CodeOf("session-destination") == 1274734;
    hide Code, Ascii, Map;
  }

  const ADDED_KINDS: seq<int> := [1533806, 1340526, 1078388, 1273957, 1401710, 681317, 881268, 1274734]

  lemma AddedKinds(p: Plan)
    ensures AllKeyed(AddedBags(p), KindCode, ADDED_KINDS)
  {
    ConfigurationKind(p);
    ServersKind(p);
    PreflightsKind(p);
    InheritanceKind(p);
    CredentialsKind(p);
    ExecutablesKind(p);
    InputsKind(p);
    DestinationsKind(p);
    hide ShownConfiguration, ShownServers, ShownPreflights, ShownInheritance, ShownCredentials, ShownTarget,
      ShownInputs;
    hide ShownDestinations, KindCode, Keyed;
  }

  lemma AddedKindsDiffer()
    ensures NoDuplicates(ADDED_KINDS)
  {
  }

  lemma AddedAgree(p: Plan, q: Plan)
    requires Contents(AllFacts(p).targetAdded) == Contents(AllFacts(q).targetAdded)
    requires Contributed(InTargetAdded, p) == Contributed(InTargetAdded, q)
    ensures AddedBags(p) == AddedBags(q)
  {
    hide *;
    AddedTotal(p);
    AddedTotal(q);
    AddedKinds(p);
    AddedKinds(q);
    AddedKindsDiffer();
    Cancels(Total(AddedBags(p)), Total(AddedBags(q)), Contributed(InTargetAdded, p));
    Apart(KindCode, AddedBags(p), AddedBags(q), ADDED_KINDS);
  }

  // ----- the fields they determine

  predicate Describes(p: Plan) {
    var semantics := p.requirements.semantics;
    || semantics.authenticationMode != [] || semantics.configuration != [] || semantics.preflights != []
    || semantics.unsupported != [] || semantics.inheritance != [] || semantics.credentialProjection != []
    || p.requirements.runtimeInputIds != []
    || (IsTarget(p.requirements.recipe) && (p.mcpServerIds != [] || p.requirements.executableId != []))
  }

  /** What a list of decisions shows: each element, and the version of the semantics if there is any. */
  lemma ListShows<A>(g: A -> Fact, g': A -> Fact, xs: seq<A>, ys: seq<A>, v: Int64, v': Int64)
    requires multiset(Map(g, xs)) == multiset(Map(g', ys))
    requires forall x, y | x in xs && y in ys && g(x) == g'(y) :: x == y
    requires (forall x | x in xs :: g(x).source.version == v) && (forall y | y in ys :: g'(y).source.version == v')
    ensures multiset(xs) == multiset(ys)
    ensures xs != [] ==> v == v'
  {
    MapCancels(g, g', (x: A) => x, xs, ys);
    assert Map((x: A) => x, xs) == xs && Map((x: A) => x, ys) == ys;
    if xs != [] {
      assert Map(g, xs)[0] in multiset(Map(g', ys));
      var k := IndexOf(Map(g', ys), Map(g, xs)[0]);
    }
  }

  predicate SameVersion(p: Plan, q: Plan) { p.requirements.semantics.version == q.requirements.semantics.version }

  lemma ConfigurationShows(p: Plan, q: Plan)
    requires ShownConfiguration(p) == ShownConfiguration(q)
    ensures multiset(p.requirements.semantics.configuration) == multiset(q.requirements.semantics.configuration)
    ensures p.requirements.semantics.configuration != [] ==> SameVersion(p, q)
  {
    hide Ascii;
    var (a, b) := (ByTarget(p), ByTarget(q));
    ListShows(d => ConfiguredFact(a, d), d => ConfiguredFact(b, d), p.requirements.semantics.configuration,
              q.requirements.semantics.configuration, a.version, b.version);
  }

  lemma PreflightsShow(p: Plan, q: Plan)
    requires ShownPreflights(p) == ShownPreflights(q)
    ensures multiset(p.requirements.semantics.preflights) == multiset(q.requirements.semantics.preflights)
    ensures p.requirements.semantics.preflights != [] ==> SameVersion(p, q)
  {
    hide Ascii;
    var (a, b) := (ByTarget(p), ByTarget(q));
    ListShows(d => PreflightFact(a, d), d => PreflightFact(b, d), p.requirements.semantics.preflights,
              q.requirements.semantics.preflights, a.version, b.version);
  }

  lemma InheritanceShows(p: Plan, q: Plan)
    requires ShownInheritance(p) == ShownInheritance(q)
    ensures multiset(p.requirements.semantics.inheritance) == multiset(q.requirements.semantics.inheritance)
    ensures p.requirements.semantics.inheritance != [] ==> SameVersion(p, q)
  {
    hide Ascii;
    var (a, b) := (ByTarget(p), ByTarget(q));
    ListShows(rule => InheritedFact(a, rule), rule => InheritedFact(b, rule), p.requirements.semantics.inheritance,
              q.requirements.semantics.inheritance, a.version, b.version);
  }

  lemma InputsShow(p: Plan, q: Plan)
    requires ShownInputs(p) == ShownInputs(q)
    ensures multiset(p.requirements.runtimeInputIds) == multiset(q.requirements.runtimeInputIds)
    ensures p.requirements.runtimeInputIds != [] ==> SameVersion(p, q)
  {
    hide Ascii;
    var (a, b) := (ByTarget(p), ByTarget(q));
    ListShows(id => InputFact(a, id), id => InputFact(b, id), p.requirements.runtimeInputIds,
              q.requirements.runtimeInputIds, a.version, b.version);
  }

  lemma Sizes(a: seq<Fact>, b: seq<Fact>)
    requires multiset(a) == multiset(b)
    ensures |a| == |b|
    ensures |a| == 1 ==> a[0] == b[0]
  {
    assert |multiset(a)| == |a| && |multiset(b)| == |b|;
    if |a| == 1 { assert a[0] in multiset(b); }
  }

  lemma CredentialsShow(p: Plan, q: Plan)
    requires ShownCredentials(p) == ShownCredentials(q)
    ensures p.requirements.semantics.credentialProjection == q.requirements.semantics.credentialProjection
    ensures p.requirements.semantics.credentialProjection != [] ==> SameVersion(p, q)
  {
    hide Ascii;
    Sizes(CredentialFacts(p).targetAdded, CredentialFacts(q).targetAdded);
  }

  predicate SameTarget(p: Plan, q: Plan) {
    IsTarget(p.requirements.recipe) ==>
      p.mcpServerIds == q.mcpServerIds && p.requirements.executableId == q.requirements.executableId
  }

  lemma ServersShow(p: Plan, q: Plan)
    requires ShownServers(p) == ShownServers(q) && p.requirements.recipe == q.requirements.recipe
    ensures IsTarget(p.requirements.recipe) ==> p.mcpServerIds == q.mcpServerIds
    ensures IsTarget(p.requirements.recipe) && p.mcpServerIds != [] ==> SameVersion(p, q)
  {
    hide Ascii;
    Sizes(ServerFacts(p).targetAdded, ServerFacts(q).targetAdded);
  }

  lemma RecipesDiffer()
    ensures !IsTarget(Ascii("shell")) && !IsTarget(Ascii("command"))
  {
    assert Ascii("shell")[0] == 115 && |Ascii("command")| == 7;
    assert Ascii("devin")[0] == 100 && Ascii("codex")[0] == 99 && Ascii("grok")[0] == 103;
  }

  lemma TargetShows(p: Plan, q: Plan)
    requires ShownTarget(p) == ShownTarget(q) && p.requirements.recipe == q.requirements.recipe
    ensures IsTarget(p.requirements.recipe) ==> p.requirements.executableId == q.requirements.executableId
    ensures IsTarget(p.requirements.recipe) && p.requirements.executableId != [] ==> SameVersion(p, q)
  {
    hide Ascii;
    RecipesDiffer();
    Sizes(ExecutableFacts(p).targetAdded, ExecutableFacts(q).targetAdded);
  }

  lemma DestinationsShow(p: Plan, q: Plan)
    requires ShownDestinations(p) == ShownDestinations(q)
    ensures p.runtime.version == q.runtime.version
  {
    hide Ascii, RuntimeEffective, RuntimeUnsupported, Map;
    Sizes(RuntimeFacts(p.runtime).targetAdded, RuntimeFacts(q.runtime).targetAdded);
  }
}
