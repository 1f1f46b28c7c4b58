/**
 How a plan is explained (internal/authority/plan.go:502-537): its facts are appended
 part by part, each list is sorted, and the manifest of the result is hashed.
 */
module AuthorityExplanation {
  import opened Options
  import opened ByteCoding
  import opened Sorting
  import opened AuthorityManifest
  import opened AuthorityTheorems
  import opened AuthorityEncoder
  import opened AuthorityPlan

  const PROFILE_VERSION: Int64 := 1

  function WithAuthRef(plan: Plan, value: Text): Plan { plan.(authRef := value, authSource := OverlaySource()) }

  function WithAuthOverride(plan: Plan, value: Text): Plan { plan.(authRef := value, authSource := OverrideSource()) }

  function PlanManifest(plan: Plan): seq<Byte> {
    ManifestOf(PROFILE_VERSION, plan.overlay, plan.requirements.recipe, AllFacts(plan))
  }

  /** `sort.Slice`: callers may rely only on the contract, not on which sort it is. */
  method SortSlice(list: seq<Fact>) returns (sorted: seq<Fact>)
    ensures IsSortOf(Less, sorted, list)
  {
    LessIsAnOrder();
    ArrangeSorts(Less, list);
    sorted := Arrange(Less, list);
  }

  /** The `add` closure, over one list of parts. */
  method AddAll(start: Facts, parts: seq<Facts>) returns (facts: Facts)
    ensures facts == Joined(start, JoinedAll(parts))
  {
    facts := start;
    NothingJoined(start, parts);
    for i := 0 to |parts|
      invariant facts == Joined(start, JoinedAll(parts[..i]))
    {
      OneMoreJoined(start, parts, i);
      hide *;
      facts := Facts(facts.requested + parts[i].requested, facts.targetAdded + parts[i].targetAdded,
                     facts.effective + parts[i].effective, facts.unsupported + parts[i].unsupported);
    }
    assert parts[..|parts|] == parts;
  }

  lemma NothingJoined(start: Facts, parts: seq<Facts>)
    ensures Joined(start, JoinedAll(parts[..0])) == start
  {
  }

  lemma OneMoreJoined(start: Facts, parts: seq<Facts>, i: nat)
    requires i < |parts|
    ensures var (f, c) := (Joined(start, JoinedAll(parts[..i])), parts[i]);
      Joined(start, JoinedAll(parts[..i + 1])) ==
      Facts(f.requested + c.requested, f.targetAdded + c.targetAdded, f.effective + c.effective,
        f.unsupported + c.unsupported)
  {
    assert parts[..i + 1][..i] == parts[..i];
  }

  /** What is hashed depends on the plan alone, whatever order the facts were appended and sorted in. */
  method BuildExplanation(plan: Plan) returns (facts: Facts, manifest: seq<Byte>)
    ensures manifest == PlanManifest(plan)
    ensures AllSorts(facts, AllFacts(plan))
  {
    hide JoinedAll, ProfileParts, RequestedFacts, LaterParts, IsSortOf, ManifestOf, PutManifest;
    facts := AddAll(NO_FACTS, ProfileParts(plan));
    facts := Joined(facts, RequestedFacts(plan));
    facts := AddAll(facts, LaterParts(plan));
    assert facts == AllFacts(plan);
    hide Joined;
    var requested := SortSlice(facts.requested);
    var targetAdded := SortSlice(facts.targetAdded);
    var effective := SortSlice(facts.effective);
    var unsupported := SortSlice(facts.unsupported);
    facts := Facts(requested, targetAdded, effective, unsupported);
    OrderDoesNotMatter(PROFILE_VERSION, plan.overlay, plan.requirements.recipe, AllFacts(plan), AllFacts(plan), facts);
    manifest := CanonicalManifest(PROFILE_VERSION, plan.overlay, plan.requirements.recipe, facts);
  }

  // ----- which parts of a plan the manifest shows

  /** The same recipe, but for its machine-local paths. */
  predicate SameRecipe(p: Plan, q: Plan) {
    && p.requirements.recipe == q.requirements.recipe && p.requirements.semantics == q.requirements.semantics
    && p.requirements.executableId == q.requirements.executableId
    && p.requirements.runtimeInputIds == q.requirements.runtimeInputIds
    && p.mcpServerIds == q.mcpServerIds && p.commandForm == q.commandForm && p.commandArguments == q.commandArguments
    && p.runtime == q.runtime && p.overlay == q.overlay
  }

  lemma SameLaterParts(p: Plan, q: Plan)
    requires SameRecipe(p, q)
    ensures LaterParts(p) == LaterParts(q)
  {
    assert ServerFacts(p) == ServerFacts(q) && CredentialFacts(p) == CredentialFacts(q)
        && ExecutableFacts(p) == ExecutableFacts(q);
    hide ServerFacts, CredentialFacts, ExecutableFacts, RuntimeFacts, ConfigurationFacts, PreflightFacts,
      UnsupportedFacts,
         InheritanceFacts, RuntimeInputFacts, Map;
  }

  /**
   The manifest shows only what is public: plans that differ only in their
   authentication reference, in the target's paths, in the host paths of grants and
   exclusions, or in the host names and references of environment values, have the
   same bytes.
   */
  lemma ManifestIsPublic(p: Plan, q: Plan)
    requires Public(p) == Public(q)
    ensures PlanManifest(p) == PlanManifest(q)
  {
    PublicShows(p);
    PublicShows(q);
  }

  lemma PublicShows(plan: Plan)
    ensures PlanManifest(Public(plan)) == PlanManifest(plan)
  {
    PublicProfileParts(plan);
    SameLaterParts(Public(plan), plan);
    assert RequestedFacts(Public(plan)) == RequestedFacts(plan);
    hide ProfileParts, LaterParts, RequestedFacts, Joined, JoinedAll, ManifestOf, Map;
  }

  /** The binding touches one list of facts. */
  lemma BoundFacts(plan: Plan, value: Text, source: Text)
    ensures var p := plan.(authRef := value, authSource := source);
      AllFacts(p) ==
        Joined(Joined(JoinedAll(ProfileParts(plan)),
        NO_FACTS.(requested := SelectionFacts(plan) + AuthenticationFacts(p))),
                            JoinedAll(LaterParts(plan)))
  {
    var p := plan.(authRef := value, authSource := source);
    SameLaterParts(p, plan);
    assert ProfileParts(p) == ProfileParts(plan) && SelectionFacts(p) == SelectionFacts(plan);
    hide ProfileParts, LaterParts, SelectionFacts, AuthenticationFacts, Joined, JoinedAll;
  }

  /**
   Where the binding came from is in the manifest exactly when the target
   authenticates: an override for one run and an overlay reference then give
   different bytes, whatever their values; otherwise the same bytes.
   */
  lemma OverrideIsVisible(plan: Plan, value: Text, other: Text)
    requires |PlanManifest(WithAuthRef(plan, value))| < SLICE_LIMIT
    ensures PlanManifest(WithAuthRef(plan, value)) != PlanManifest(WithAuthOverride(plan, other)) <==>
            plan.requirements.semantics.authenticationMode != []
  {
    var p, q := WithAuthRef(plan, value), WithAuthOverride(plan, other);
    BoundFacts(plan, value, OverlaySource());
    BoundFacts(plan, other, OverrideSource());
    SourcesDiffer(plan, value, other);
    hide SelectionFacts, AuthenticationFact, ManifestOf, JoinedAll, ProfileParts, LaterParts, AllFacts, SameSection,
      OverlaySource, OverrideSource;
    if plan.requirements.semantics.authenticationMode != [] {
      var head := JoinedAll(ProfileParts(plan)).requested + SelectionFacts(plan);
      var tail := JoinedAll(LaterParts(plan)).requested;
      assert AllFacts(p).requested == head + [AuthenticationFact(p)] + tail;
      assert AllFacts(q).requested == head + [AuthenticationFact(q)] + tail;
      OneFactDiffers(head, tail, AuthenticationFact(p), AuthenticationFact(q));
      ManifestIdentifies(PROFILE_VERSION, p.overlay, p.requirements.recipe, AllFacts(p),
                         PROFILE_VERSION, q.overlay, q.requirements.recipe, AllFacts(q));
    }
  }

  lemma SourcesDiffer(plan: Plan, value: Text, other: Text)
    ensures var p, q := WithAuthRef(plan, value), WithAuthOverride(plan, other);
      Canonical(AuthenticationFact(p)) != Canonical(AuthenticationFact(q))
  {
    var f, g := AuthenticationFact(WithAuthRef(plan, value)), AuthenticationFact(WithAuthOverride(plan, other));
    assert |f.reason| == 7 && |g.reason| == 16;
  }

  lemma OneFactDiffers(head: seq<Fact>, tail: seq<Fact>, f: Fact, g: Fact)
    requires Canonical(f) != Canonical(g)
    ensures !SameSection(head + [f] + tail, head + [g] + tail)
  {
    hide Canonical;
    var h, t := Map(Canonical, head), Map(Canonical, tail);
    assert Map(Canonical, head + [f] + tail) == h + [Canonical(f)] + t;
    assert Map(Canonical, head + [g] + tail) == h + [Canonical(g)] + t;
    assert multiset(h + [Canonical(f)] + t)[Canonical(f)] == multiset(h)[Canonical(f)] + 1 + multiset(t)[Canonical(f)];
    assert multiset(h + [Canonical(g)] + t)[Canonical(f)] == multiset(h)[Canonical(f)] + multiset(t)[Canonical(f)];
  }
}
