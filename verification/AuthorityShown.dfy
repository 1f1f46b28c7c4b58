/**
 What a plan's manifest shows (internal/authority/plan.go:502-710): exactly which plans
 have the same bytes, told on the plans' own fields.
 */
module AuthorityShown {
  import opened Options
  import opened ByteCoding
  import opened Sorting
  import opened AuthorityManifest
  import opened AuthorityTheorems
  import opened AuthorityPlan
  import opened AuthorityExplanation
  import opened AuthorityBags
  import opened AuthorityRequested
  import opened AuthorityAdded
  import opened AuthorityRuntime

  // ----- equal fields, equal parts

  /** A list of parts depends on the elements alone, and on the source if there is any. */
  lemma ListBag<A>(s: Section, f: A -> Facts, f': A -> Facts, xs: seq<A>, ys: seq<A>)
    requires multiset(xs) == multiset(ys)
    requires forall x | x in xs :: f(x) == f'(x)
    ensures Bag(s, Map(f, xs)) == Bag(s, Map(f', ys))
  {
    assert Map(f, xs) == Map(f', xs);
    MapMultiset(f', xs, ys);
    BagIgnoresOrder(s, Map(f', xs), Map(f', ys));
  }

  /** The same, for elements of which only a part shows. */
  lemma PublicBag<A>(s: Section, f: A -> Facts, public: A -> A, xs: seq<A>, ys: seq<A>)
    requires multiset(Map(public, xs)) == multiset(Map(public, ys))
    requires forall x :: f(public(x)) == f(x)
    ensures Bag(s, Map(f, xs)) == Bag(s, Map(f, ys))
  {
    MapAfter(f, f, public, xs);
    MapAfter(f, f, public, ys);
    ListBag(s, f, f, Map(public, xs), Map(public, ys));
  }

  lemma SelectionsBag(s: Section, p: Plan, q: Plan)
    requires SameSelections(p, q) && p.overlay == q.overlay && p.contributions == q.contributions
    ensures Bag(s, ProfileParts(p)) == Bag(s, ProfileParts(q)) && Contributed(s, p) == Contributed(s, q)
  {
    var access := p.WorkspaceAccess();
    ProfileSplits(s, p);
    ProfileSplits(s, q);
    PrivateStays(access);
    hide PublicGrant, PublicExclusion, PublicExecutable, PublicIntent, Bag, Map, ProfileParts;
    hide PathGrantFacts, PathExclusionFacts, ExecutableGrantFacts, EnvironmentFacts, Ascii;
    PublicBag(s, i => PathGrantFacts(access, i), PublicGrant, p.pathGrants, q.pathGrants);
    PublicBag(s, PathExclusionFacts, PublicExclusion, p.pathExclusions, q.pathExclusions);
    PublicBag(s, ExecutableGrantFacts, PublicExecutable, p.executableGrants, q.executableGrants);
    PublicBag(s, EnvironmentFacts, PublicIntent, p.environment, q.environment);
    assert WorkspaceFacts(p) == WorkspaceFacts(q);
  }

  lemma PrivateStays(access: Text)
    ensures forall i :: PathGrantFacts(access, PublicGrant(i)) == PathGrantFacts(access, i)
    ensures forall i :: PathExclusionFacts(PublicExclusion(i)) == PathExclusionFacts(i)
    ensures forall i :: ExecutableGrantFacts(PublicExecutable(i)) == ExecutableGrantFacts(i)
    ensures forall i :: EnvironmentFacts(PublicIntent(i)) == EnvironmentFacts(i)
  {
    hide Ascii, Granted;
  }

  /** The decisions of a recipe and its requirements, up to their order. */
  predicate SameDecisions(p: Plan, q: Plan) {
    var (a, b) := (p.requirements.semantics, q.requirements.semantics);
    && p.requirements.recipe == q.requirements.recipe
    && multiset(a.configuration) == multiset(b.configuration) && multiset(a.preflights) == multiset(b.preflights)
    && multiset(a.inheritance) == multiset(b.inheritance) && a.credentialProjection == b.credentialProjection
    && multiset(p.requirements.runtimeInputIds) == multiset(q.requirements.runtimeInputIds)
    && SameTarget(p, q) && SameCommand(p, q)
  }

  /** What the version of the semantics is told by, apart from the controls that are not supported. */
  predicate Versioned(p: Plan) {
    var semantics := p.requirements.semantics;
    || semantics.configuration != [] || semantics.preflights != [] || semantics.inheritance != []
    || semantics.credentialProjection != [] || p.requirements.runtimeInputIds != []
    || (IsTarget(p.requirements.recipe) && (p.mcpServerIds != [] || p.requirements.executableId != []))
  }

  lemma NoElements<A>(xs: seq<A>, ys: seq<A>)
    requires multiset(xs) == multiset(ys)
    ensures xs == [] <==> ys == []
  {
    assert |multiset(xs)| == |xs| && |multiset(ys)| == |ys|;
  }

  lemma DecisionsBag(s: Section, p: Plan, q: Plan)
    requires SameDecisions(p, q) && (Versioned(p) ==> SameVersion(p, q))
    ensures Configured(s, p) == Configured(s, q) && Preflighted(s, p) == Preflighted(s, q)
    ensures Inherited(s, p) == Inherited(s, q) && Inputs(s, p) == Inputs(s, q)
  {
    var (x, y, a, b) := (ByTarget(p), ByTarget(q), p.requirements.semantics, q.requirements.semantics);
    hide ConfigurationFacts, PreflightFacts, InheritanceFacts, RuntimeInputFacts, Bag, Map;
    ListBag(s, d => ConfigurationFacts(x, d), d => ConfigurationFacts(y, d), a.configuration, b.configuration);
    ListBag(s, d => PreflightFacts(x, d), d => PreflightFacts(y, d), a.preflights, b.preflights);
    ListBag(s, rule => InheritanceFacts(x, rule), rule => InheritanceFacts(y, rule), a.inheritance, b.inheritance);
    ListBag(s, id => RuntimeInputFacts(x, id), id => RuntimeInputFacts(y, id),
            p.requirements.runtimeInputIds, q.requirements.runtimeInputIds);
  }

  lemma SinglesAgree(p: Plan, q: Plan)
    requires SameDecisions(p, q) && (Versioned(p) ==> SameVersion(p, q))
    ensures ServerFacts(p) == ServerFacts(q) && CredentialFacts(p) == CredentialFacts(q)
        && ExecutableFacts(p) == ExecutableFacts(q)
  {
    RecipesDiffer();
    hide Ascii;
  }

  lemma UnsupportedBag(s: Section, p: Plan, q: Plan)
    requires multiset(p.requirements.semantics.unsupported) == multiset(q.requirements.semantics.unsupported)
    requires p.requirements.recipe == q.requirements.recipe
    requires p.requirements.semantics.unsupported != [] ==> SameVersion(p, q)
    ensures Unsupported(s, p) == Unsupported(s, q)
  {
    var (x, y) := (ByTarget(p), ByTarget(q));
    hide UnsupportedFacts, Bag, Map;
    ListBag(s, d => UnsupportedFacts(x, d), d => UnsupportedFacts(y, d),
            p.requirements.semantics.unsupported, q.requirements.semantics.unsupported);
  }

  // ----- what is not supported

  function UnsupportedFact(source: FactSource, d: Decision): Fact { UnsupportedFacts(source, d).unsupported[0] }

  lemma UnsupportedSection(p: Plan)
    ensures Contents(AllFacts(p).unsupported) ==
            Unsupported(InUnsupported, p)
            + (Bag(InUnsupported, ProfileParts(p)) + Configured(InUnsupported, p) + Contents(RuntimeUnsupported()))
  {
    hide *;
    SectionBag(InUnsupported, p);
    LaterSplits(InUnsupported, p);
    NothingElseUnsupported(p);
    ListsNotUnsupported(p);
  }

  lemma NothingElseUnsupported(p: Plan)
    ensures Of(InUnsupported, AllFacts(p)) == AllFacts(p).unsupported
    ensures Contents(Of(InUnsupported, RequestedFacts(p))) == Contents(Of(InUnsupported, ServerFacts(p))) == multiset{}
    ensures Contents(Of(InUnsupported, CredentialFacts(p))) == Contents(Of(InUnsupported, ExecutableFacts(p))) ==
        multiset{}
    ensures Of(InUnsupported, RuntimeFacts(p.runtime)) == RuntimeUnsupported()
  {
    hide Ascii, SelectionFacts, AuthenticationFacts, RuntimeEffective, RuntimeUnsupported, Contents, AllFacts;
    SimpleContents([]);
  }

  lemma ListsNotUnsupported(p: Plan)
    ensures Preflighted(InUnsupported, p) == Inherited(InUnsupported, p) == Inputs(InUnsupported, p) == multiset{}
  {
    hide Bag, ByTarget, Ascii;
    var s, semantics, source := InUnsupported, p.requirements.semantics, ByTarget(p);
    BagOfNone(s, Map(d => PreflightFacts(source, d), semantics.preflights));
    BagOfNone(s, Map(rule => InheritanceFacts(source, rule), semantics.inheritance));
    BagOfNone(s, Map(id => RuntimeInputFacts(source, id), p.requirements.runtimeInputIds));
  }

  lemma UnsupportedShows(p: Plan, q: Plan)
    requires Contents(AllFacts(p).unsupported) == Contents(AllFacts(q).unsupported)
    requires Bag(InUnsupported, ProfileParts(p)) == Bag(InUnsupported, ProfileParts(q))
    requires Configured(InUnsupported, p) == Configured(InUnsupported, q)
    ensures multiset(p.requirements.semantics.unsupported) == multiset(q.requirements.semantics.unsupported)
    ensures p.requirements.semantics.unsupported != [] ==> SameVersion(p, q)
  {
    UnsupportedSection(p);
    UnsupportedSection(q);
    var rest := Bag(InUnsupported, ProfileParts(p)) + Configured(InUnsupported, p) + Contents(RuntimeUnsupported());
    var (x, y) := (ByTarget(p), ByTarget(q));
    var (a, b) := (p.requirements.semantics.unsupported, q.requirements.semantics.unsupported);
    hide Contents, Bag, ProfileParts, Configured, RuntimeUnsupported, AllFacts, ByTarget, Map, UnsupportedFacts;
    Cancels(Unsupported(InUnsupported, p), Unsupported(InUnsupported, q), rest);
    UnsupportedFactsShow(x, y);
    BagOfOnes(InUnsupported, d => UnsupportedFacts(x, d), d => UnsupportedFact(x, d), a);
    BagOfOnes(InUnsupported, d => UnsupportedFacts(y, d), d => UnsupportedFact(y, d), b);
    TargetVersion(p);
    TargetVersion(q);
    ListShows(d => UnsupportedFact(x, d), d => UnsupportedFact(y, d), a, b, x.version, y.version);
  }

  lemma TargetVersion(p: Plan)
    ensures ByTarget(p).version == p.requirements.semantics.version
  {
  }

  lemma UnsupportedFactsShow(x: FactSource, y: FactSource)
    ensures forall d :: Of(InUnsupported, UnsupportedFacts(x, d)) == [UnsupportedFact(x, d)]
    ensures forall d :: Of(InUnsupported, UnsupportedFacts(y, d)) == [UnsupportedFact(y, d)]
    ensures forall d ::
        Canonical(UnsupportedFact(x, d)) == UnsupportedFact(x, d) && UnsupportedFact(x, d).source.version == x.version
    ensures forall d ::
        Canonical(UnsupportedFact(y, d)) == UnsupportedFact(y, d) && UnsupportedFact(y, d).source.version == y.version
    ensures forall d, e | UnsupportedFact(x, d) == UnsupportedFact(y, e) :: d == e
  {
    forall d, e | UnsupportedFact(x, d) == UnsupportedFact(y, e) ensures d == e {
      PrefixCancels(Ascii("unsupported."), d.id, e.id);
    }
    hide Ascii;
  }

  // ----- what takes effect

  /** Everything that takes effect but the runtime's own authority. */
  function EffectiveRest(p: Plan): multiset<Fact> {
    var s := InEffective;
    Bag(s, ProfileParts(p)) + Contents([]) + Configured(s, p) + Contents(Of(s, ServerFacts(p))) + Preflighted(s, p)
    + Unsupported(s, p) + Inherited(s, p) + Contents(Of(s, CredentialFacts(p))) + Contents(Of(s, ExecutableFacts(p)))
    + Inputs(s, p)
  }

  lemma EffectiveSection(p: Plan)
    ensures Contents(AllFacts(p).effective) == multiset(RuntimeEffective(p.runtime)) + EffectiveRest(p)
  {
    SectionBag(InEffective, p);
    LaterSplits(InEffective, p);
    RuntimeTakesEffect(p);
    hide Bag, Contents, ProfileParts, LaterParts, RuntimeEffective, AllFacts, Configured, Preflighted, Unsupported,
      Inherited;
    hide Inputs, ServerFacts, CredentialFacts, ExecutableFacts, RuntimeFacts, RequestedFacts, Of;
  }

  lemma RuntimeIsSimple(r: Runtime)
    ensures forall f | f in RuntimeEffective(r) :: Simple(f)
  {
    hide Ascii, SortedTexts, Map, BySandbox;
  }

  lemma RuntimeTakesEffect(p: Plan)
    ensures Of(InEffective, AllFacts(p)) == AllFacts(p).effective && Of(InEffective, RequestedFacts(p)) == []
    ensures Contents(Of(InEffective, RuntimeFacts(p.runtime))) == multiset(RuntimeEffective(p.runtime))
  {
    hide AllFacts, Ascii, SelectionFacts, AuthenticationFacts, RuntimeEffective, RuntimeUnsupported, Map, Contents;
    RuntimeIsSimple(p.runtime);
    SimpleContents(RuntimeEffective(p.runtime));
  }

  // ----- the theorem

  /** Every field of a plan that shows, up to the order of its lists. */
  predicate SameShown(p: Plan, q: Plan) {
    && p.overlay == q.overlay && SameSelections(p, q) && SameBinding(p, q) && SameDecisions(p, q)
    && multiset(p.requirements.semantics.unsupported) == multiset(q.requirements.semantics.unsupported)
    && (Describes(p) ==> SameVersion(p, q))
    && SameRuntime(p.runtime, q.runtime)
  }

  lemma RestAgrees(p: Plan, q: Plan)
    requires p.overlay == q.overlay && p.contributions == q.contributions && SameSelections(p, q) && SameDecisions(p, q)
    requires multiset(p.requirements.semantics.unsupported) == multiset(q.requirements.semantics.unsupported)
    requires Describes(p) ==> SameVersion(p, q)
    ensures EffectiveRest(p) == EffectiveRest(q)
  {
    SelectionsBag(InEffective, p, q);
    DecisionsBag(InEffective, p, q);
    UnsupportedBag(InEffective, p, q);
    SinglesAgree(p, q);
    hide SameSelections, SameDecisions, Bag, Contents, ProfileParts, Configured, Preflighted, Unsupported, Inherited,
      Inputs;
    hide ServerFacts, CredentialFacts, ExecutableFacts, Of;
  }

  lemma SameHeader(p: Plan, q: Plan)
    requires p.overlay == q.overlay && p.requirements.recipe == q.requirements.recipe
    ensures SelectionFacts(p) == SelectionFacts(q)
    ensures p.contributions == q.contributions ==> forall s :: Contributed(s, p) == Contributed(s, q)
  {
    hide Ascii, Bag;
  }

  /** Equal sections show equal fields: requests first, then what is added, not supported, and in effect. */
  lemma SectionsShow(p: Plan, q: Plan)
    requires p.overlay == q.overlay && p.requirements.recipe == q.requirements.recipe
        && p.contributions == q.contributions
    requires SameFacts(AllFacts(p), AllFacts(q))
    ensures SameShown(p, q)
  {
    SameHeader(p, q);
    assert Contents(AllFacts(p).requested) == Contents(AllFacts(q).requested);
    assert Contents(AllFacts(p).targetAdded) == Contents(AllFacts(q).targetAdded);
    assert Contents(AllFacts(p).effective) == Contents(AllFacts(q).effective);
    assert Contents(AllFacts(p).unsupported) == Contents(AllFacts(q).unsupported);
    hide *;
    RequestsShow(p, q);
    AdditionsShow(p, q);
    RemainderShows(p, q);
    ShownTogether(p, q);
  }

  lemma RequestsShow(p: Plan, q: Plan)
    requires p.requirements.recipe == q.requirements.recipe && SelectionFacts(p) == SelectionFacts(q)
    requires Contributed(InRequested, p) == Contributed(InRequested, q)
    requires Contents(AllFacts(p).requested) == Contents(AllFacts(q).requested)
    ensures SameSelections(p, q) && SameBinding(p, q) && SameCommand(p, q)
    ensures p.requirements.semantics.authenticationMode != [] ==> SameVersion(p, q)
  {
    RequestedAgree(p, q);
    SelectionsShow(p, q);
    assert RequestedBags(p)[5] == RequestedBags(q)[5] && RequestedBags(p)[6] == RequestedBags(q)[6];
    BindingShows(p, q);
    CommandShows(p, q);
    hide SameSelections, SameBinding, SameCommand, Contents, AllFacts;
  }

  lemma AdditionsShow(p: Plan, q: Plan)
    requires p.requirements.recipe == q.requirements.recipe && SameCommand(p, q)
    requires Contributed(InTargetAdded, p) == Contributed(InTargetAdded, q)
    requires Contents(AllFacts(p).targetAdded) == Contents(AllFacts(q).targetAdded)
    ensures SameDecisions(p, q) && (Versioned(p) ==> SameVersion(p, q)) && p.runtime.version == q.runtime.version
  {
    AddedAgree(p, q);
    AddedBagsEqual(p, q);
    hide ShownConfiguration, ShownServers, ShownPreflights, ShownInheritance, ShownCredentials, ShownTarget,
      ShownInputs;
    hide ShownDestinations, SameCommand, Contents, AllFacts, IsTarget, AddedBags, SameVersion;
    ConfigurationShows(p, q);
    ServersShow(p, q);
    PreflightsShow(p, q);
    InheritanceShows(p, q);
    CredentialsShow(p, q);
    TargetShows(p, q);
    InputsShow(p, q);
    DestinationsShow(p, q);
  }

  lemma AddedBagsEqual(p: Plan, q: Plan)
    requires AddedBags(p) == AddedBags(q)
    ensures ShownConfiguration(p) == ShownConfiguration(q) && ShownServers(p) == ShownServers(q)
    ensures ShownPreflights(p) == ShownPreflights(q) && ShownInheritance(p) == ShownInheritance(q)
    ensures ShownCredentials(p) == ShownCredentials(q) && ShownTarget(p) == ShownTarget(q)
    ensures ShownInputs(p) == ShownInputs(q) && ShownDestinations(p) == ShownDestinations(q)
  {
    hide ShownConfiguration, ShownServers, ShownPreflights, ShownInheritance, ShownCredentials, ShownTarget,
      ShownInputs;
    hide ShownDestinations;
    var (a, b) := (AddedBags(p), AddedBags(q));
    assert a[0] == b[0] && a[1] == b[1] && a[2] == b[2] && a[3] == b[3];
    assert a[4] == b[4] && a[5] == b[5] && a[6] == b[6] && a[7] == b[7];
  }

  lemma RemainderShows(p: Plan, q: Plan)
    requires p.overlay == q.overlay && p.contributions == q.contributions && SameSelections(p, q) && SameDecisions(p, q)
    requires (Versioned(p) ==> SameVersion(p, q))
    requires p.requirements.semantics.authenticationMode != [] ==> SameVersion(p, q)
    requires Contents(AllFacts(p).unsupported) == Contents(AllFacts(q).unsupported)
    requires Contents(AllFacts(p).effective) == Contents(AllFacts(q).effective)
    ensures multiset(p.requirements.semantics.unsupported) == multiset(q.requirements.semantics.unsupported)
    ensures (Describes(p) ==> SameVersion(p, q)) && SameRuntime(p.runtime, q.runtime)
  {
    SelectionsBag(InUnsupported, p, q);
    DecisionsBag(InUnsupported, p, q);
    UnsupportedShows(p, q);
    assert Describes(p) ==> SameVersion(p, q);
    RestAgrees(p, q);
    EffectiveSection(p);
    EffectiveSection(q);
    hide *;
    RuntimeSectionShows(p.runtime, q.runtime, EffectiveRest(p));
  }

  lemma ShownTogether(p: Plan, q: Plan)
    requires p.overlay == q.overlay && SameSelections(p, q) && SameBinding(p, q) && SameDecisions(p, q)
    requires multiset(p.requirements.semantics.unsupported) == multiset(q.requirements.semantics.unsupported)
    requires (Describes(p) ==> SameVersion(p, q)) && SameRuntime(p.runtime, q.runtime)
    ensures SameShown(p, q)
  {
  }

  lemma BindingsAgree(p: Plan, q: Plan)
    requires SameBinding(p, q) && p.requirements.recipe == q.requirements.recipe && p.overlay == q.overlay
    requires p.requirements.semantics.authenticationMode != [] ==> SameVersion(p, q)
    ensures RequestedFacts(p) == RequestedFacts(q)
  {
    hide Ascii;
  }

  /** Equal fields give equal sections. */
  lemma ShownSection(s: Section, p: Plan, q: Plan)
    requires SameShown(p, q) && p.contributions == q.contributions
    ensures Contents(Of(s, AllFacts(p))) == Contents(Of(s, AllFacts(q)))
  {
    SectionBag(s, p);
    SectionBag(s, q);
    BindingsAgree(p, q);
    SelectionsBag(s, p, q);
    LaterSplits(s, p);
    LaterSplits(s, q);
    DecisionsBag(s, p, q);
    UnsupportedBag(s, p, q);
    SinglesAgree(p, q);
    RuntimesAgree(p.runtime, q.runtime);
    hide *;
  }

  lemma RuntimesAgree(r: Runtime, s: Runtime)
    requires SameRuntime(r, s)
    ensures RuntimeFacts(r) == RuntimeFacts(s)
  {
    RuntimeShows(r, s);
    hide RuntimeEffective, RuntimeUnsupported, Map, Ascii;
  }

  lemma SectionsAgree(p: Plan, q: Plan)
    requires SameShown(p, q) && p.contributions == q.contributions
    ensures SameFacts(AllFacts(p), AllFacts(q))
  {
    hide SameShown, AllFacts;
    ShownSection(InRequested, p, q);
    ShownSection(InTargetAdded, p, q);
    ShownSection(InEffective, p, q);
    ShownSection(InUnsupported, p, q);
  }

  /**
   Two plans with the same contributed capabilities have the same manifest exactly
   when everything that shows is the same: overlay and recipe, workspace access, every
   grant, exclusion, executable and environment entry but for its private part, the
   binding's source where the target authenticates, the recipe's decisions and
   requirements, the command, the version that any of these carries, and the runtime;
   all up to the order of lists.
   */
  lemma ManifestShowsExactly(p: Plan, q: Plan)
    requires p.contributions == q.contributions && |PlanManifest(p)| < SLICE_LIMIT
    ensures PlanManifest(p) == PlanManifest(q) <==> SameShown(p, q)
  {
    hide ManifestOf, AllFacts, SameFacts, SameSelections, SameBinding, SameRuntime, SameVersion, Describes;
    ManifestIdentifies(PROFILE_VERSION, p.overlay, p.requirements.recipe, AllFacts(p),
                       PROFILE_VERSION, q.overlay, q.requirements.recipe, AllFacts(q));
    if SameShown(p, q) { SectionsAgree(p, q); }
    if PlanManifest(p) == PlanManifest(q) { SectionsShow(p, q); }
  }
}
