/**
 What each selection of a plan adds to its manifest (internal/authority/plan.go:539-678):
 what is requested, what of it takes effect because nothing else grants it already, and
 which decisions of a recipe are also listed as not supported.
 */
module AuthorityEffect {
  import opened Options
  import opened ByteCoding
  import opened Sorting
  import opened AuthorityManifest
  import opened AuthorityPlan
  import opened AuthorityBags
  import opened AuthorityRequested

  /** The bag of one section of a plan's manifest. */
  function Listed(s: Section, p: Plan): multiset<Fact> { Contents(Of(s, AllFacts(p))) }

  /** One more plan that requests, and brings into effect, no other facts than these. */
  predicate Adds(p: Plan, q: Plan, requested: multiset<Fact>, targetAdded: multiset<Fact>, effective: multiset<Fact>,
      unsupported: multiset<Fact>)
  {
    && Listed(InRequested, q) == Listed(InRequested, p) + requested
    && Listed(InTargetAdded, q) == Listed(InTargetAdded, p) + targetAdded
    && Listed(InEffective, q) == Listed(InEffective, p) + effective
    && Listed(InUnsupported, q) == Listed(InUnsupported, p) + unsupported
  }

  lemma {:induction false} PartAdded(s: Section, a: seq<Facts>, part: Facts, b: seq<Facts>)
    ensures Bag(s, a + [part] + b) == Bag(s, a + b) + Contents(Of(s, part))
  {
    hide Contents, Of;
    BagSplits(s, a, b);
    BagSplits(s, a + [part], b);
    BagSplits(s, a, [part]);
    BagOfOne(s, part);
  }

  /** A part is inserted among those of the Profile, or among the later ones. */
  lemma InsertedPart(p: Plan, q: Plan, a: seq<Facts>, part: Facts, b: seq<Facts>, early: bool)
    requires RequestedFacts(q) == RequestedFacts(p)
    requires if early then ProfileParts(p) == a + b && ProfileParts(q) == a + [part] + b
        && LaterParts(q) == LaterParts(p)
             else LaterParts(p) == a + b && LaterParts(q) == a + [part] + b && ProfileParts(q) == ProfileParts(p)
    requires forall s, f | f in Of(s, part) :: Simple(f)
    ensures Adds(p, q, multiset(part.requested), multiset(part.targetAdded), multiset(part.effective),
              multiset(part.unsupported))
  {
    hide Contents, Bag, AllFacts, RequestedFacts, ProfileParts, LaterParts, Simple;
    forall s ensures Listed(s, q) == Listed(s, p) + multiset(Of(s, part)) {
      SectionBag(s, p);
      SectionBag(s, q);
      PartAdded(s, a, part, b);
      SimpleContents(Of(s, part));
    }
    assert Of(InRequested, part) == part.requested && Of(InTargetAdded, part) == part.targetAdded;
    assert Of(InEffective, part) == part.effective && Of(InUnsupported, part) == part.unsupported;
  }

  /** Plans that select differently have the same recipe and runtime. */
  lemma SameRecipe(p: Plan, q: Plan)
    requires q == p.(pathGrants := q.pathGrants, pathExclusions := q.pathExclusions,
                     executableGrants := q.executableGrants, environment := q.environment)
    ensures RequestedFacts(q) == RequestedFacts(p) && LaterParts(q) == LaterParts(p)
    ensures q.WorkspaceAccess() == p.WorkspaceAccess() && WorkspaceFacts(q) == WorkspaceFacts(p)
  {
    hide Ascii, Map, ConfigurationFacts, PreflightFacts, UnsupportedFacts, InheritanceFacts, RuntimeInputFacts,
      RuntimeFacts;
    hide Adding, RequirementFacts, CommandFact, IsTarget, ByRecipe, Mode, Names;
  }

  function Paths(p: Plan): seq<Facts> { Map(i => PathGrantFacts(p.WorkspaceAccess(), i), p.pathGrants) }

  function Exclusions(p: Plan): seq<Facts> { Map(PathExclusionFacts, p.pathExclusions) }

  function Executables(p: Plan): seq<Facts> { Map(ExecutableGrantFacts, p.executableGrants) }

  function Intents(p: Plan): seq<Facts> { Map(EnvironmentFacts, p.environment) }

  function Contributions(p: Plan): seq<Facts> {
    Map((describe: Text -> Facts) => describe(p.overlay), p.contributions)
  }

  lemma PartsOf(p: Plan)
    ensures ProfileParts(p) ==
            [WorkspaceFacts(p)] + Paths(p) + Exclusions(p) + Executables(p) + Intents(p) + Contributions(p)
  {
    hide PathGrantFacts, PathExclusionFacts, ExecutableGrantFacts, EnvironmentFacts, WorkspaceFacts, Map;
  }

  /** A selection appended to its list is one more part between the others. */
  lemma Selected(p: Plan, q: Plan, a: seq<Facts>, part: Facts, b: seq<Facts>)
    requires q == p.(pathGrants := q.pathGrants, pathExclusions := q.pathExclusions,
                     executableGrants := q.executableGrants, environment := q.environment)
    requires [WorkspaceFacts(p)] + Paths(p) + Exclusions(p) + Executables(p) + Intents(p) + Contributions(p) == a + b
    requires [WorkspaceFacts(p)] + Paths(q) + Exclusions(q) + Executables(q) + Intents(q) + Contributions(p) ==
        a + [part] + b
    requires forall s, f | f in Of(s, part) :: Simple(f)
    ensures Adds(p, q, multiset(part.requested), multiset(part.targetAdded), multiset(part.effective),
              multiset(part.unsupported))
  {
    hide *;
    SameRecipe(p, q);
    SameContributions(p, q);
    PartsOf(p);
    PartsOf(q);
    InsertedPart(p, q, a, part, b, true);
  }

  lemma SameContributions(p: Plan, q: Plan)
    requires p.contributions == q.contributions && p.overlay == q.overlay
    ensures Contributions(p) == Contributions(q)
  {
  }

  /**
   One more path grant is requested with its access and type, under its own name; it takes
   effect unless it is in the workspace, which is always readable, and writable when the
   workspace is.
   */
  lemma GrantAdds(p: Plan, i: PathGrant) returns (requested: Fact, effective: Fact)
    ensures requested.id == Ascii("common.paths.") + i.id && effective.id == Ascii("path.") + i.id
    ensures requested.value.access == i.access && requested.value.mode == i.kind
        && requested.value.logicalLocation == i.id
    ensures effective.value == requested.value
    ensures var inside := i.reference == Ascii("workspace-relative");
      var writable := p.workspaceAccess == [] || p.workspaceAccess == Ascii("read-write");
      Adds(p, p.(pathGrants := p.pathGrants + [i]), multiset{requested}, multiset{},
           if inside && (i.access == Ascii("read-only") || writable) then multiset{} else multiset{effective},
           multiset{})
  {
    hide Adds, Paths, Exclusions, Executables, Intents, Contributions, WorkspaceFacts;
    var q, part := p.(pathGrants := p.pathGrants + [i]), PathGrantFacts(p.WorkspaceAccess(), i);
    requested := part.requested[0];
    effective := Granted("path.", i.id, "filesystem", requested.value, "common_path_identity_unchecked", "paths");
    OneMorePath(p, q, i);
    Selected(p, q, [WorkspaceFacts(p)] + Paths(p), part,
      Exclusions(p) + Executables(p) + Intents(p) + Contributions(p));
  }

  lemma OneMorePath(p: Plan, q: Plan, i: PathGrant)
    requires q == p.(pathGrants := p.pathGrants + [i])
    ensures Paths(q) == Paths(p) + [PathGrantFacts(p.WorkspaceAccess(), i)]
    ensures Exclusions(q) == Exclusions(p) && Executables(q) == Executables(p) && Intents(q) == Intents(p)
  {
    hide PathGrantFacts;
    assert q.WorkspaceAccess() == p.WorkspaceAccess();
  }

  /** One more exclusion is requested, and always takes effect. */
  lemma ExclusionAdds(p: Plan, i: PathExclusion) returns (requested: Fact, effective: Fact)
    ensures requested.id == effective.id == Ascii("common.exclusions.") + i.id && effective.value == requested.value
    ensures requested.value.access == Ascii("denied") && requested.value.mode == i.kind
        && requested.value.logicalLocation == i.id
    ensures Adds(p, p.(pathExclusions := p.pathExclusions + [i]), multiset{requested}, multiset{}, multiset{effective},
              multiset{})
  {
    hide Adds, Paths, Exclusions, Executables, Intents, Contributions, WorkspaceFacts;
    var q, part := p.(pathExclusions := p.pathExclusions + [i]), PathExclusionFacts(i);
    requested, effective := part.requested[0], part.effective[0];
    OneMoreExclusion(p, q, i);
    Selected(p, q, [WorkspaceFacts(p)] + Paths(p) + Exclusions(p), part,
      Executables(p) + Intents(p) + Contributions(p));
  }

  lemma OneMoreExclusion(p: Plan, q: Plan, i: PathExclusion)
    requires q == p.(pathExclusions := p.pathExclusions + [i])
    ensures Exclusions(q) == Exclusions(p) + [PathExclusionFacts(i)]
    ensures Paths(q) == Paths(p) && Executables(q) == Executables(p) && Intents(q) == Intents(p)
  {
    hide PathExclusionFacts;
    assert q.WorkspaceAccess() == p.WorkspaceAccess();
  }

  /** One more executable is requested; it takes effect unless the workspace holds it. */
  lemma ExecutableAdds(p: Plan, i: ExecutableGrant) returns (requested: Fact, effective: Fact)
    ensures requested.id == Ascii("common.executables.") + i.id && effective.id == Ascii("executable.") + i.id
    ensures requested.value.access == Ascii("read-execute") && requested.value.logicalLocation == i.id
    ensures effective.value == requested.value
    ensures Adds(p, p.(executableGrants := p.executableGrants + [i]), multiset{requested}, multiset{},
              if i.reference == Ascii("workspace-relative") then multiset{} else multiset{effective}, multiset{})
  {
    hide Adds, Paths, Exclusions, Executables, Intents, Contributions, WorkspaceFacts;
    var q, part := p.(executableGrants := p.executableGrants + [i]), ExecutableGrantFacts(i);
    requested := part.requested[0];
    effective := Granted("executable.", i.id, "filesystem", requested.value, "profile_visibility_identity_unchecked",
      "executables");
    OneMoreExecutable(p, q, i);
    Selected(p, q, [WorkspaceFacts(p)] + Paths(p) + Exclusions(p) + Executables(p), part,
      Intents(p) + Contributions(p));
  }

  lemma OneMoreExecutable(p: Plan, q: Plan, i: ExecutableGrant)
    requires q == p.(executableGrants := p.executableGrants + [i])
    ensures Executables(q) == Executables(p) + [ExecutableGrantFacts(i)]
    ensures Paths(q) == Paths(p) && Exclusions(q) == Exclusions(p) && Intents(q) == Intents(p)
  {
    hide ExecutableGrantFacts;
    assert q.WorkspaceAccess() == p.WorkspaceAccess();
  }

  /** One more environment entry is requested, and takes effect, with its destination and no value. */
  lemma IntentAdds(p: Plan, i: EnvironmentIntent) returns (requested: Fact, effective: Fact)
    ensures requested.id == Ascii("common.environment.") + i.id && effective.id == Ascii("environment.") + i.id
    ensures requested.value.environment.destination == i.destination && effective.value == requested.value
    ensures requested.value.environment.required == Some(i.required)
    ensures Adds(p, p.(environment := p.environment + [i]), multiset{requested}, multiset{}, multiset{effective},
              multiset{})
  {
    hide Adds, Paths, Exclusions, Executables, Intents, Contributions, WorkspaceFacts;
    var q, part := p.(environment := p.environment + [i]), EnvironmentFacts(i);
    requested, effective := part.requested[0], part.effective[0];
    OneMoreIntent(p, q, i);
    Selected(p, q, [WorkspaceFacts(p)] + Paths(p) + Exclusions(p) + Executables(p) + Intents(p), part,
      Contributions(p));
  }

  lemma OneMoreIntent(p: Plan, q: Plan, i: EnvironmentIntent)
    requires q == p.(environment := p.environment + [i])
    ensures Intents(q) == Intents(p) + [EnvironmentFacts(i)]
    ensures Paths(q) == Paths(p) && Exclusions(q) == Exclusions(p) && Executables(q) == Executables(p)
  {
    hide EnvironmentFacts;
    assert q.WorkspaceAccess() == p.WorkspaceAccess();
  }

  /** The decision turns off something a caller could ask for. */
  predicate TurnsOff(d: Decision) {
    || d.id in {Ascii("codex.apps"), Ascii("codex.plugins"), Ascii("grok.plugins")}
    || (d.id in {Ascii("codex.mcp"), Ascii("grok.mcp")} && d.mode == Ascii("disabled"))
  }

  function Configured(p: Plan, d: Decision): Plan {
    var semantics := p.requirements.semantics;
    p.(requirements := p.requirements.(semantics := semantics.(configuration := semantics.configuration + [d])))
  }

  /** One more decision of the recipe is added by the target, and listed as not supported if it turns something off. */
  lemma DecisionAdds(p: Plan, d: Decision) returns (added: Fact)
    ensures added.id == d.id && added.value.mode == d.mode
    ensures Adds(p, Configured(p, d), multiset{}, multiset{added}, multiset{},
              if TurnsOff(d) then multiset{added} else multiset{})
  {
    hide Adds, ProfileParts, LaterParts, RequestedFacts, Configurations, Further;
    var part := ConfigurationFacts(ByTarget(p), d);
    added := part.targetAdded[0];
    SelectionsUnchanged(p, Configured(p, d));
    OneMoreDecision(p, d);
    InsertedPart(p, Configured(p, d), Configurations(p), part, Further(p), false);
  }

  function Configurations(p: Plan): seq<Facts> {
    var source := ByTarget(p);
    Map(d => ConfigurationFacts(source, d), p.requirements.semantics.configuration)
  }

  /** The later parts that follow the configuration. */
  function Further(p: Plan): seq<Facts> {
    var semantics, source := p.requirements.semantics, ByTarget(p);
    [ServerFacts(p)]
    + Map(d => PreflightFacts(source, d), semantics.preflights)
    + Map(d => UnsupportedFacts(source, d), semantics.unsupported)
    + Map(rule => InheritanceFacts(source, rule), semantics.inheritance)
    + [CredentialFacts(p), ExecutableFacts(p)]
    + Map(id => RuntimeInputFacts(source, id), p.requirements.runtimeInputIds)
    + [RuntimeFacts(p.runtime)]
  }

  lemma ConfiguredFirst(p: Plan)
    ensures LaterParts(p) == Configurations(p) + Further(p)
  {
    hide ServerFacts, CredentialFacts, ExecutableFacts, RuntimeFacts, ByTarget, Map;
  }

  lemma SelectionsUnchanged(p: Plan, q: Plan)
    requires q == p.(requirements := q.requirements)
    requires q.requirements == p.requirements.(semantics := q.requirements.semantics)
    requires var (a, b) := (p.requirements.semantics, q.requirements.semantics);
      a.authenticationMode == b.authenticationMode && a.version == b.version
    ensures ProfileParts(q) == ProfileParts(p) && RequestedFacts(q) == RequestedFacts(p)
  {
    hide Ascii, Map;
  }

  lemma OneMoreDecision(p: Plan, d: Decision)
    ensures LaterParts(p) == Configurations(p) + Further(p)
    ensures LaterParts(Configured(p, d)) == Configurations(p) + [ConfigurationFacts(ByTarget(p), d)] + Further(p)
  {
    hide LaterParts, Further, ConfigurationFacts;
    ConfiguredFirst(p);
    ConfiguredFirst(Configured(p, d));
    SameFurther(p, d);
  }

  lemma SameFurther(p: Plan, d: Decision)
    ensures Further(Configured(p, d)) == Further(p)
  {
    hide Ascii, Map, ConfigurationFacts, PreflightFacts, UnsupportedFacts, InheritanceFacts, RuntimeInputFacts,
      RuntimeFacts;
    hide Adding, RequirementFacts, CommandFact, IsTarget, ByRecipe, Mode, Names;
  }
}
