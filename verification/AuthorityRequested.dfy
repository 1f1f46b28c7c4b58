/**
 What the requested facts of a plan show (internal/authority/plan.go:502-655): they are
 bags told apart by their kinds, and each bag determines fields of the plan.
 */
module AuthorityRequested {
  import opened Options
  import opened ByteCoding
  import opened Sorting
  import opened AuthorityManifest
  import opened AuthorityPlan
  import opened AuthorityBags

  // ----- kinds and identifiers told apart by a number

  function Code(t: Text): int { if |t| < 2 then 0 else |t| * 65536 + t[0] as int * 256 + t[|t| - 1] as int }

  function CodeOf(s: string): int
    requires |s| >= 2
  {
    |s| * 65536 + (s[0] as int % 256) * 256 + s[|s| - 1] as int % 256
  }

  lemma Coded(s: string)
    requires |s| >= 2
    ensures Code(Ascii(s)) == CodeOf(s)
  {
  }

  /** Not changed by the encoding. */
  predicate Simple(f: Fact) { f.value.mcp == NO_LISTS && !f.value.mcpPresent }

  lemma SimpleContents(list: seq<Fact>)
    requires forall f | f in list :: Simple(f)
    ensures Contents(list) == multiset(list)
  {
    forall i | 0 <= i < |list| ensures Canonical(list[i]) == list[i] {
      assert Simple(list[i]);
    }
    assert Map(Canonical, list) == list;
  }

  lemma KindsOfMap<A>(g: A -> Fact, xs: seq<A>, kind: Text)
    requires forall x | x in xs :: g(x).kind == kind
    ensures forall f | f in multiset(Map(g, xs)) :: f.kind == kind
  {
    forall f | f in multiset(Map(g, xs)) ensures f.kind == kind {
      var k := IndexOf(Map(g, xs), f);
      assert Map(g, xs)[k] == g(xs[k]);
    }
  }

  // ----- what is requested

  function PathShown(i: PathGrant): Fact { PathGrantFacts([], i).requested[0] }

  function ExclusionShown(i: PathExclusion): Fact { PathExclusionFacts(i).requested[0] }

  function ExecutableShown(i: ExecutableGrant): Fact { ExecutableGrantFacts(i).requested[0] }

  function IntentShown(i: EnvironmentIntent): Fact { EnvironmentFacts(i).requested[0] }

  function Contributed(s: Section, p: Plan): multiset<Fact> {
    Bag(s, Map((describe: Text -> Facts) => describe(p.overlay), p.contributions))
  }

  function ShownWorkspace(p: Plan): multiset<Fact> { multiset(WorkspaceFacts(p).requested) }
  function ShownPaths(p: Plan): multiset<Fact> { multiset(Map(PathShown, p.pathGrants)) }
  function ShownExclusions(p: Plan): multiset<Fact> { multiset(Map(ExclusionShown, p.pathExclusions)) }
  function ShownExecutables(p: Plan): multiset<Fact> { multiset(Map(ExecutableShown, p.executableGrants)) }
  function ShownEnvironment(p: Plan): multiset<Fact> { multiset(Map(IntentShown, p.environment)) }
  function ShownCommand(p: Plan): multiset<Fact> { multiset(ExecutableFacts(p).requested) }

  lemma ProfileSplits(s: Section, p: Plan)
    ensures Bag(s, ProfileParts(p)) ==
            Bag(s, [WorkspaceFacts(p)]) + Bag(s, Map(i => PathGrantFacts(p.WorkspaceAccess(), i), p.pathGrants))
            + Bag(s, Map(PathExclusionFacts, p.pathExclusions)) + Bag(s, Map(ExecutableGrantFacts, p.executableGrants))
            + Bag(s, Map(EnvironmentFacts, p.environment)) + Contributed(s, p)
  {
    var workspace := [WorkspaceFacts(p)];
    var paths := Map(i => PathGrantFacts(p.WorkspaceAccess(), i), p.pathGrants);
    var exclusions := Map(PathExclusionFacts, p.pathExclusions);
    var executables := Map(ExecutableGrantFacts, p.executableGrants);
    var environment := Map(EnvironmentFacts, p.environment);
    var contributed := Map((describe: Text -> Facts) => describe(p.overlay), p.contributions);
    hide WorkspaceFacts, PathGrantFacts, PathExclusionFacts, ExecutableGrantFacts, EnvironmentFacts, Bag, Map;
    BagSplits(s, workspace + paths + exclusions + executables + environment, contributed);
    BagSplits(s, workspace + paths + exclusions + executables, environment);
    BagSplits(s, workspace + paths + exclusions, executables);
    BagSplits(s, workspace + paths, exclusions);
    BagSplits(s, workspace, paths);
  }

  /** The recipe's parts that come from a list of the plan, by what each element contributes. */
  function Configured(s: Section, p: Plan): multiset<Fact> {
    var source := ByTarget(p);
    Bag(s, Map(d => ConfigurationFacts(source, d), p.requirements.semantics.configuration))
  }
  function Preflighted(s: Section, p: Plan): multiset<Fact> {
    var source := ByTarget(p);
    Bag(s, Map(d => PreflightFacts(source, d), p.requirements.semantics.preflights))
  }
  function Unsupported(s: Section, p: Plan): multiset<Fact> {
    var source := ByTarget(p);
    Bag(s, Map(d => UnsupportedFacts(source, d), p.requirements.semantics.unsupported))
  }
  function Inherited(s: Section, p: Plan): multiset<Fact> {
    var source := ByTarget(p);
    Bag(s, Map(rule => InheritanceFacts(source, rule), p.requirements.semantics.inheritance))
  }
  function Inputs(s: Section, p: Plan): multiset<Fact> {
    var source := ByTarget(p);
    Bag(s, Map(id => RuntimeInputFacts(source, id), p.requirements.runtimeInputIds))
  }

  lemma NineSplit(s: Section, a: seq<Facts>, x: Facts, b: seq<Facts>, c: seq<Facts>, d: seq<Facts>, y: Facts, z: Facts,
                  e: seq<Facts>, w: Facts)
    ensures Bag(s, a + [x] + b + c + d + [y, z] + e + [w]) ==
            Bag(s, a) + Contents(Of(s, x)) + Bag(s, b) + Bag(s, c) + Bag(s, d) + Contents(Of(s, y)) + Contents(Of(s, z))
            + Bag(s, e) + Contents(Of(s, w))
  {
    hide *;
    BagSplits(s, a + [x] + b + c + d + [y, z] + e, [w]);
    BagSplits(s, a + [x] + b + c + d + [y, z], e);
    BagSplits(s, a + [x] + b + c + d, [y, z]);
    BagSplits(s, [y], [z]);
    assert [y] + [z] == [y, z];
    BagSplits(s, a + [x] + b + c, d);
    BagSplits(s, a + [x] + b, c);
    BagSplits(s, a + [x], b);
    BagSplits(s, a, [x]);
    BagOfOne(s, x);
    BagOfOne(s, y);
    BagOfOne(s, z);
    BagOfOne(s, w);
  }

  lemma LaterSplits(s: Section, p: Plan)
    ensures Bag(s, LaterParts(p)) ==
            Configured(s, p) + Contents(Of(s, ServerFacts(p))) + Preflighted(s, p) + Unsupported(s, p) + Inherited(s, p)
            + Contents(Of(s, CredentialFacts(p))) + Contents(Of(s, ExecutableFacts(p))) + Inputs(s, p)
            + Contents(Of(s, RuntimeFacts(p.runtime)))
  {
    hide ConfigurationFacts, PreflightFacts, UnsupportedFacts, InheritanceFacts, RuntimeInputFacts;
    hide ServerFacts, CredentialFacts, ExecutableFacts, RuntimeFacts, Bag, Map, Contents, Of, ByTarget;
    var semantics, source := p.requirements.semantics, ByTarget(p);
    var a := Map(d => ConfigurationFacts(source, d), semantics.configuration);
    var b := Map(d => PreflightFacts(source, d), semantics.preflights);
    var c := Map(d => UnsupportedFacts(source, d), semantics.unsupported);
    var d := Map(rule => InheritanceFacts(source, rule), semantics.inheritance);
    var e := Map(id => RuntimeInputFacts(source, id), p.requirements.runtimeInputIds);
    var (x, y, z, w) := (ServerFacts(p), CredentialFacts(p), ExecutableFacts(p), RuntimeFacts(p.runtime));
    NineSplit(s, a, x, b, c, d, y, z, e, w);
    assert LaterParts(p) == a + [x] + b + c + d + [y, z] + e + [w];
  }

  lemma ProfileRequested(p: Plan)
    ensures Bag(InRequested, ProfileParts(p)) ==
            ShownWorkspace(p) + ShownPaths(p) + ShownExclusions(p) + ShownExecutables(p) + ShownEnvironment(p)
            + Contributed(InRequested, p)
  {
    var s := InRequested;
    ProfileSplits(s, p);
    BagOfOne(s, WorkspaceFacts(p));
    SimpleContents(WorkspaceFacts(p).requested);
    BagOfOnes(s, i => PathGrantFacts(p.WorkspaceAccess(), i), PathShown, p.pathGrants);
    BagOfOnes(s, PathExclusionFacts, ExclusionShown, p.pathExclusions);
    BagOfOnes(s, ExecutableGrantFacts, ExecutableShown, p.executableGrants);
    BagOfOnes(s, EnvironmentFacts, IntentShown, p.environment);
    hide WorkspaceFacts, PathGrantFacts, PathExclusionFacts, ExecutableGrantFacts, EnvironmentFacts, Bag, Map;
  }

  lemma ListsRequestNothing(p: Plan)
    ensures Configured(InRequested, p) == Preflighted(InRequested, p) == Unsupported(InRequested, p) == multiset{}
    ensures Inherited(InRequested, p) == Inputs(InRequested, p) == multiset{}
  {
    var s, semantics, source := InRequested, p.requirements.semantics, ByTarget(p);
    BagOfNone(s, Map(d => ConfigurationFacts(source, d), semantics.configuration));
    BagOfNone(s, Map(d => PreflightFacts(source, d), semantics.preflights));
    BagOfNone(s, Map(d => UnsupportedFacts(source, d), semantics.unsupported));
    BagOfNone(s, Map(rule => InheritanceFacts(source, rule), semantics.inheritance));
    BagOfNone(s, Map(id => RuntimeInputFacts(source, id), p.requirements.runtimeInputIds));
    hide Bag, ByTarget, Ascii;
  }

  lemma OnlyCommandsRequest(p: Plan)
    ensures Of(InRequested, ServerFacts(p)) == Of(InRequested, CredentialFacts(p)) ==
        Of(InRequested, RuntimeFacts(p.runtime)) == []
    ensures Contents(Of(InRequested, ExecutableFacts(p))) == ShownCommand(p) && Contents([]) == multiset{}
  {
    hide Ascii, RuntimeEffective, RuntimeUnsupported;
    SimpleContents([]);
    SimpleContents(ExecutableFacts(p).requested);
  }

  lemma LaterRequested(p: Plan)
    ensures Bag(InRequested, LaterParts(p)) == ShownCommand(p)
  {
    hide *;
    LaterSplits(InRequested, p);
    ListsRequestNothing(p);
    OnlyCommandsRequest(p);
  }

  lemma SelectionContents(p: Plan)
    ensures Contents(RequestedFacts(p).requested) == multiset(SelectionFacts(p)) + multiset(AuthenticationFacts(p))
  {
    SimpleContents(SelectionFacts(p) + AuthenticationFacts(p));
    hide SelectionFacts, AuthenticationFacts, Contents;
  }

  lemma SectionBag(s: Section, p: Plan)
    ensures Contents(Of(s, AllFacts(p))) ==
            Bag(s, ProfileParts(p)) + Contents(Of(s, RequestedFacts(p))) + Bag(s, LaterParts(p))
  {
    var (a, b, c) := (JoinedAll(ProfileParts(p)), RequestedFacts(p), JoinedAll(LaterParts(p)));
    BagOfJoined(s, ProfileParts(p));
    BagOfJoined(s, LaterParts(p));
    hide ProfileParts, LaterParts, RequestedFacts, JoinedAll, Bag, Contents;
    ContentsJoin(Of(s, a) + Of(s, b), Of(s, c));
    ContentsJoin(Of(s, a), Of(s, b));
    assert Of(s, AllFacts(p)) == Of(s, a) + Of(s, b) + Of(s, c);
  }

  lemma RequestedBag(p: Plan)
    ensures Contents(AllFacts(p).requested) ==
            ShownWorkspace(p) + ShownPaths(p) + ShownExclusions(p) + ShownExecutables(p) + ShownEnvironment(p)
            + Contributed(InRequested, p) + multiset(SelectionFacts(p)) + multiset(AuthenticationFacts(p))
              + ShownCommand(p)
  {
    hide *;
    SectionBag(InRequested, p);
    ProfileRequested(p);
    LaterRequested(p);
    SelectionContents(p);
    OfRequested(AllFacts(p));
    OfRequested(RequestedFacts(p));
  }

  lemma OfRequested(f: Facts)
    ensures Of(InRequested, f) == f.requested
  {
  }

  lemma WorkspaceKind(p: Plan)
    ensures forall f | f in ShownWorkspace(p) :: Code(f.kind) == 620389
  {
    Coded("workspace");
    assert CodeOf("workspace") == 620389;
    hide Code, Ascii, Map;
  }

  lemma PathKind(p: Plan)
    ensures forall f | f in ShownPaths(p) :: Code(f.kind) == 681581
  {
    Coded("filesystem");
    assert CodeOf("filesystem") == 681581;
    KindsOfMap(PathShown, p.pathGrants, Ascii("filesystem"));
    hide Code, Ascii, Map;
  }

  lemma ExclusionKind(p: Plan)
    ensures forall f | f in ShownExclusions(p) :: Code(f.kind) == 1336942
  {
    Coded("filesystem-exclusion");
    assert CodeOf("filesystem-exclusion") == 1336942;
    KindsOfMap(ExclusionShown, p.pathExclusions, Ascii("filesystem-exclusion"));
    hide Code, Ascii, Map;
  }

  lemma ExecutableKind(p: Plan)
    ensures forall f | f in ShownExecutables(p) :: Code(f.kind) == 1402233
  {
    Coded("executable-visibility");
    assert CodeOf("executable-visibility") == 1402233;
    KindsOfMap(ExecutableShown, p.executableGrants, Ascii("executable-visibility"));
    hide Code, Ascii, Map;
  }

  lemma IntentKind(p: Plan)
    ensures forall f | f in ShownEnvironment(p) :: Code(f.kind) == 746868
  {
    Coded("environment");
    assert CodeOf("environment") == 746868;
    KindsOfMap(IntentShown, p.environment, Ascii("environment"));
    hide Code, Ascii, Map;
  }

  lemma BindingKind(p: Plan)
    ensures forall f | f in multiset(AuthenticationFacts(p)) :: Code(f.kind) == 946023
  {
    Coded("opaque-binding");
    assert CodeOf("opaque-binding") == 946023;
    hide Code, Ascii, Map;
  }

  lemma CommandKind(p: Plan)
    ensures forall f | f in ShownCommand(p) :: Code(f.kind) == 484196
  {
    Coded("command");
    assert CodeOf("command") == 484196;
    hide Code, Ascii, Map;
  }

  function KindCode(f: Fact): int { Code(f.kind) }

  const REQUESTED_KINDS: seq<int> := [620389, 681581, 1336942, 1402233, 746868, 946023, 484196]

  function RequestedBags(p: Plan): seq<multiset<Fact>> {
    [ShownWorkspace(p), ShownPaths(p), ShownExclusions(p), ShownExecutables(p), ShownEnvironment(p),
     multiset(AuthenticationFacts(p)), ShownCommand(p)]
  }

  lemma RequestedKinds(p: Plan)
    ensures AllKeyed(RequestedBags(p), KindCode, REQUESTED_KINDS)
  {
    WorkspaceKind(p);
    PathKind(p);
    ExclusionKind(p);
    ExecutableKind(p);
    IntentKind(p);
    BindingKind(p);
    CommandKind(p);
    hide ShownWorkspace, ShownPaths, ShownExclusions, ShownExecutables, ShownEnvironment, AuthenticationFacts,
      ShownCommand, Code;
  }

  lemma RequestedTotal(p: Plan)
    ensures Contents(AllFacts(p).requested) ==
            Total(RequestedBags(p)) + (Contributed(InRequested, p) + multiset(SelectionFacts(p)))
  {
    RequestedBag(p);
    hide ShownWorkspace, ShownPaths, ShownExclusions, ShownExecutables, ShownEnvironment, AuthenticationFacts,
      ShownCommand;
    hide Contents, Contributed, SelectionFacts, AllFacts;
    hide Total;
    var (w, x, e, v) := (ShownWorkspace(p), ShownPaths(p), ShownExclusions(p), ShownExecutables(p));
    var (n, a, c) := (ShownEnvironment(p), multiset(AuthenticationFacts(p)), ShownCommand(p));
    TotalOfFour(w, x, e, v, [n, a, c]);
    TotalOfThree(n, a, c);
    assert RequestedBags(p) == [w, x, e, v] + [n, a, c];
  }

  lemma RequestedAgree(p: Plan, q: Plan)
    requires Contents(AllFacts(p).requested) == Contents(AllFacts(q).requested)
    requires SelectionFacts(p) == SelectionFacts(q) && Contributed(InRequested, p) == Contributed(InRequested, q)
    ensures RequestedBags(p) == RequestedBags(q)
  {
    hide *;
    RequestedTotal(p);
    RequestedTotal(q);
    RequestedKinds(p);
    RequestedKinds(q);
    Cancels(Total(RequestedBags(p)), Total(RequestedBags(q)),
      Contributed(InRequested, p) + multiset(SelectionFacts(p)));
    DistinctKinds();
    Apart(KindCode, RequestedBags(p), RequestedBags(q), REQUESTED_KINDS);
  }

  lemma Cancels(a: multiset<Fact>, b: multiset<Fact>, c: multiset<Fact>)
    requires a + c == b + c
    ensures a == b
  {
    assert a == (a + c) - c && b == (b + c) - c;
  }

  lemma DistinctKinds()
    ensures NoDuplicates(REQUESTED_KINDS)
  {
  }

  // ----- the fields that requested facts determine

  lemma GrantsShow(x: PathGrant, y: PathGrant)
    ensures PathShown(x) == PathShown(y) <==> PublicGrant(x) == PublicGrant(y)
  {
    hide Ascii;
    assert PathShown(x).value.names[0] == x.reference && PathShown(y).value.names[0] == y.reference;
  }

  lemma ExclusionsShow(x: PathExclusion, y: PathExclusion)
    ensures ExclusionShown(x) == ExclusionShown(y) <==> PublicExclusion(x) == PublicExclusion(y)
  {
    hide Ascii;
    assert ExclusionShown(x).value.names[0] == x.reference && ExclusionShown(y).value.names[0] == y.reference;
  }

  lemma ExecutablesShow(x: ExecutableGrant, y: ExecutableGrant)
    ensures ExecutableShown(x) == ExecutableShown(y) <==> PublicExecutable(x) == PublicExecutable(y)
  {
    assert Ascii("workspace-relative")[0] == 119 && Ascii("fixed-search-name")[0] == 102;
    assert ExecutableShown(x).value.names[0] == x.reference && ExecutableShown(y).value.names[0] == y.reference;
    hide Ascii;
  }

  lemma PrefixCancels(prefix: Text, a: Text, b: Text)
    requires prefix + a == prefix + b
    ensures a == b
  {
    assert a == (prefix + a)[|prefix|..] && b == (prefix + b)[|prefix|..];
  }

  lemma IntentsShow(x: EnvironmentIntent, y: EnvironmentIntent)
    ensures IntentShown(x) == IntentShown(y) <==> PublicIntent(x) == PublicIntent(y)
  {
    if IntentShown(x) == IntentShown(y) { PrefixCancels(Ascii("common.environment."), x.id, y.id); }
    hide Ascii;
  }

  /** The selections of a Profile, up to the order of their entries and what stays private. */
  predicate SameSelections(p: Plan, q: Plan) {
    && p.WorkspaceAccess() == q.WorkspaceAccess()
    && multiset(Map(PublicGrant, p.pathGrants)) == multiset(Map(PublicGrant, q.pathGrants))
    && multiset(Map(PublicExclusion, p.pathExclusions)) == multiset(Map(PublicExclusion, q.pathExclusions))
    && multiset(Map(PublicExecutable, p.executableGrants)) == multiset(Map(PublicExecutable, q.executableGrants))
    && multiset(Map(PublicIntent, p.environment)) == multiset(Map(PublicIntent, q.environment))
  }

  lemma SelectionsShow(p: Plan, q: Plan)
    requires RequestedBags(p) == RequestedBags(q)
    ensures SameSelections(p, q)
  {
    assert RequestedBags(p)[0] == RequestedBags(q)[0] && RequestedBags(p)[1] == RequestedBags(q)[1];
    assert RequestedBags(p)[2] == RequestedBags(q)[2] && RequestedBags(p)[3] == RequestedBags(q)[3];
    assert RequestedBags(p)[4] == RequestedBags(q)[4];
    AccessShows(p, q);
    hide PathShown, ExclusionShown, ExecutableShown, IntentShown, ShownWorkspace, Map, PublicGrant, PublicExclusion;
    hide PublicExecutable, PublicIntent;
    forall x, y { GrantsShow(x, y); }
    forall x, y { ExclusionsShow(x, y); }
    forall x, y { ExecutablesShow(x, y); }
    forall x, y { IntentsShow(x, y); }
    MapCancels(PathShown, PathShown, PublicGrant, p.pathGrants, q.pathGrants);
    MapCancels(ExclusionShown, ExclusionShown, PublicExclusion, p.pathExclusions, q.pathExclusions);
    MapCancels(ExecutableShown, ExecutableShown, PublicExecutable, p.executableGrants, q.executableGrants);
    MapCancels(IntentShown, IntentShown, PublicIntent, p.environment, q.environment);
  }

  lemma SingleBag(f: Fact, g: Fact)
    requires multiset([f]) == multiset([g])
    ensures f == g
  {
    assert f in multiset([g]);
  }

  lemma AccessShows(p: Plan, q: Plan)
    requires ShownWorkspace(p) == ShownWorkspace(q)
    ensures p.WorkspaceAccess() == q.WorkspaceAccess()
  {
    SingleBag(WorkspaceFacts(p).requested[0], WorkspaceFacts(q).requested[0]);
    hide Ascii;
  }

  /** Where the binding comes from; unset means the overlay. */
  function BindingSource(p: Plan): Text { if p.authSource == [] then Ascii("overlay") else p.authSource }

  predicate SameBinding(p: Plan, q: Plan) {
    var (a, b) := (p.requirements.semantics.authenticationMode, q.requirements.semantics.authenticationMode);
    a == b && (a != [] ==> BindingSource(p) == BindingSource(q))
  }

  lemma BindingShows(p: Plan, q: Plan)
    requires multiset(AuthenticationFacts(p)) == multiset(AuthenticationFacts(q))
    ensures SameBinding(p, q)
    ensures p.requirements.semantics.authenticationMode != [] ==>
              p.requirements.semantics.version == q.requirements.semantics.version
  {
    if p.requirements.semantics.authenticationMode != [] || q.requirements.semantics.authenticationMode != [] {
      assert |multiset(AuthenticationFacts(p))| == |AuthenticationFacts(p)|;
      assert |multiset(AuthenticationFacts(q))| == |AuthenticationFacts(q)|;
      SingleBag(AuthenticationFact(p), AuthenticationFact(q));
    }
    hide Ascii;
  }

  predicate SameCommand(p: Plan, q: Plan) {
    p.requirements.recipe == Ascii("command") ==>
      p.commandForm == q.commandForm && p.commandArguments == q.commandArguments
  }

  lemma CommandShows(p: Plan, q: Plan)
    requires ShownCommand(p) == ShownCommand(q) && p.requirements.recipe == q.requirements.recipe
    ensures SameCommand(p, q)
  {
    assert Ascii("shell")[0] == 115 && Ascii("command")[0] == 99;
    if p.requirements.recipe == Ascii("command") {
      SingleBag(ExecutableFacts(p).requested[0], ExecutableFacts(q).requested[0]);
    }
    hide Ascii;
  }
}
