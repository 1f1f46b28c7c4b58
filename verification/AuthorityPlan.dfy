/**
 The facts of an execution plan (internal/authority/plan.go:502-710): what the plan
 holds, and the facts each part of it contributes, in the order they are appended.
 Contributed capabilities describe themselves, from the overlay alone.
 */
module AuthorityPlan {
  import opened Options
  import opened ByteCoding
  import opened Sorting
  import opened AuthorityManifest

  datatype PathGrant = PathGrant(id: Text, access: Text, kind: Text, reference: Text, path: Text)

  datatype PathExclusion = PathExclusion(id: Text, kind: Text, reference: Text, path: Text)

  datatype ExecutableGrant = ExecutableGrant(id: Text, reference: Text, name: Text, path: Text)

  datatype EnvironmentIntent = EnvironmentIntent(
    id: Text,
    destination: Text,
    scope: Text,
    sourceKind: Text,
    sourceName: Text,
    provider: Text,
    reference: Text,
    required: bool,
    classification: Text)

  datatype Decision = Decision(id: Text, mode: Text)

  datatype InheritanceRule = InheritanceRule(id: Text, logicalRoots: seq<Text>)

  datatype Semantics = Semantics(
    version: Int64,
    authenticationMode: Text,
    configuration: seq<Decision>,
    preflights: seq<Decision>,
    unsupported: seq<Decision>,
    inheritance: seq<InheritanceRule>,
    credentialProjection: Text)

  datatype Requirements = Requirements(
    recipe: Text,
    executable: Text,
    executableId: Text,
    runtimeInputs: seq<Text>,
    runtimeInputIds: seq<Text>,
    existingHome: Text,
    protectedPaths: seq<Text>,
    semantics: Semantics)

  datatype Runtime = Runtime(
    version: Int64,
    processMode: Text,
    systemReadMode: Text,
    metadataMode: Text,
    sessionAccess: Text,
    networkMode: Text,
    loopbackPorts: seq<int>,
    loginCallback: bool,
    terminalMode: Text,
    deviceMode: Text,
    fixedPath: Text,
    syntheticNames: seq<Text>,
    inheritedNames: seq<Text>,
    sysctlNames: seq<Text>,
    machServices: seq<Text>)

  datatype Plan = Plan(
    contributions: seq<Text -> Facts>,
    workspaceAccess: Text,
    overlay: Text,
    requirements: Requirements,
    authRef: Text,
    authSource: Text,
    runtime: Runtime,
    commandForm: Text,
    commandArguments: Int64,
    pathGrants: seq<PathGrant>,
    pathExclusions: seq<PathExclusion>,
    materialOrigins: seq<Text>,
    executableGrants: seq<ExecutableGrant>,
    environment: seq<EnvironmentIntent>,
    mcpServerIds: seq<Text>)
  {
    function WorkspaceAccess(): Text { if workspaceAccess == [] then Ascii("read-write") else workspaceAccess }
  }

  const NO_FACTS := Facts([], [], [], [])

  const BLANK := FactValue([], [], [], [], [], None, [], None, NO_ENVIRONMENT, NO_LISTS, false)

  function Mode(mode: Text): FactValue { BLANK.(mode := mode) }

  function Names(names: seq<Text>): FactValue { BLANK.(names := names) }

  function Requires(id: Text): FactValue { BLANK.(requirementId := id) }

  /** Every Go slice is shorter than the limit. */
  function Length<A>(s: seq<A>): Int64 { if |s| < SLICE_LIMIT then |s| else 0 }

  function ByProfile(id: string): FactSource { FactSource(Ascii("profile"), Ascii(id), 1) }

  function ByTarget(plan: Plan): FactSource {
    FactSource(Ascii("target"), plan.requirements.recipe, plan.requirements.semantics.version)
  }

  predicate IsRelative(reference: Text) { reference == Ascii("workspace-relative") }

  predicate IsSearched(reference: Text) { reference == Ascii("fixed-search-name") }

  predicate IsSecret(sourceKind: Text) { sourceKind == Ascii("secret-reference") }

  // ----- the Profile's own selections

  function Granted(prefix: string, id: Text, kind: string, value: FactValue, reason: string, capability: string): Fact {
    Fact(Ascii(prefix) + id, Ascii(kind), value, Ascii(reason), ByProfile(capability))
  }

  function WorkspaceFacts(plan: Plan): Facts {
    var value := BLANK.(access := plan.WorkspaceAccess());
    NO_FACTS.(requested := [Granted("common.workspace", [], "workspace", value, "stored_intent", "workspace")])
  }

  /** A grant the workspace covers already is requested, but adds nothing. */
  function PathGrantFacts(workspace: Text, i: PathGrant): Facts {
    var shown := if IsRelative(i.reference) then i.path else [];
    var value := BLANK.(access := i.access, mode := i.kind, logicalLocation := i.id, logicalReference := shown,
                        names := [i.reference]);
    var covered := IsRelative(i.reference) && (i.access == Ascii("read-only") || workspace == Ascii("read-write"));
    NO_FACTS.(
      requested := [Granted("common.paths.", i.id, "filesystem", value, "stored_intent", "paths")],
      effective := if covered then []
                   else [Granted("path.", i.id, "filesystem", value, "common_path_identity_unchecked", "paths")])
  }

  function PathExclusionFacts(i: PathExclusion): Facts {
    var shown := if IsRelative(i.reference) then i.path else [];
    var value := BLANK.(access := Ascii("denied"), mode := i.kind, logicalLocation := i.id, logicalReference := shown,
                        names := [i.reference]);
    var fact := Granted("common.exclusions.", i.id, "filesystem-exclusion", value, "stored_intent", "exclusions");
    NO_FACTS.(requested := [fact], effective := [fact.(reason := Ascii("exclusion_identity_unchecked"))])
  }

  function ExecutableGrantFacts(i: ExecutableGrant): Facts {
    var shown := if IsRelative(i.reference) then i.path else if IsSearched(i.reference) then i.name else [];
    var value := BLANK.(access := Ascii("read-execute"), logicalLocation := i.id, logicalReference := shown,
                        names := [i.reference]);
    var reason := if IsRelative(i.reference) then "stored_intent_covered_by_workspace_read" else "stored_intent";
    var unchecked := "profile_visibility_identity_unchecked";
    var visible := Granted("executable.", i.id, "filesystem", value, unchecked, "executables");
    NO_FACTS.(
      requested := [Granted("common.executables.", i.id, "executable-visibility", value, reason, "executables")],
      effective := if IsRelative(i.reference) then [] else [visible])
  }

  function EnvironmentFacts(i: EnvironmentIntent): Facts {
    var provider := if IsSecret(i.sourceKind) then i.provider else [];
    var value := BLANK.(environment := Environment(i.destination, i.scope, i.sourceKind, provider, i.classification,
                                                   Some(i.required)));
    var stored, unresolved := "stored_intent_value_omitted", "attached_process_tree_binding_unresolved";
    NO_FACTS.(
      requested := [Granted("common.environment.", i.id, "environment", value, stored, "environment")],
      effective := [Granted("environment.", i.id, "environment", value, unresolved, "environment")])
  }

  function ProfileParts(plan: Plan): seq<Facts> {
    [WorkspaceFacts(plan)]
    + Map(i => PathGrantFacts(plan.WorkspaceAccess(), i), plan.pathGrants)
    + Map(PathExclusionFacts, plan.pathExclusions)
    + Map(ExecutableGrantFacts, plan.executableGrants)
    + Map(EnvironmentFacts, plan.environment)
    + Map((describe: Text -> Facts) => describe(plan.overlay), plan.contributions)
  }

  // ----- the recipe

  function OverlaySource(): Text { Ascii("overlay") }

  function OverrideSource(): Text { Ascii("one_run_override") }

  function AuthenticationFact(plan: Plan): Fact {
    Fact(plan.requirements.recipe + Ascii(".authentication"), Ascii("opaque-binding"),
         Mode(plan.requirements.semantics.authenticationMode),
         if plan.authSource == [] then OverlaySource() else plan.authSource, ByTarget(plan))
  }

  function AuthenticationFacts(plan: Plan): seq<Fact> {
    if plan.requirements.semantics.authenticationMode == [] then [] else [AuthenticationFact(plan)]
  }

  function SelectionFacts(plan: Plan): seq<Fact> {
    var recipe, byCommand := plan.requirements.recipe, FactSource(Ascii("command"), plan.requirements.recipe, 0);
    [Fact(Ascii("execution.recipe"), Ascii("recipe"), Mode(recipe), Ascii("selected_intent"), byCommand)]
    + if plan.overlay == [] then []
      else [Fact(Ascii("target.overlay"), Ascii("overlay"), Mode(plan.overlay), Ascii("selected_target"),
                 FactSource(Ascii("profile"), plan.overlay, 1))]
  }

  /** What the recipe requests; everything else of it comes after. */
  function RequestedFacts(plan: Plan): Facts {
    NO_FACTS.(requested := SelectionFacts(plan) + AuthenticationFacts(plan))
  }

  predicate Disables(d: Decision) {
    || d.id == Ascii("codex.apps") || d.id == Ascii("codex.plugins") || d.id == Ascii("grok.plugins")
    || ((d.id == Ascii("codex.mcp") || d.id == Ascii("grok.mcp")) && d.mode == Ascii("disabled"))
  }

  function ByRecipe(source: FactSource, id: Text, kind: string, value: FactValue): Fact {
    Fact(id, Ascii(kind), value, Ascii("fixed_target_recipe"), source)
  }

  function ConfigurationFacts(source: FactSource, d: Decision): Facts {
    var fact := ByRecipe(source, d.id, "generated-configuration", Mode(d.mode));
    NO_FACTS.(targetAdded := [fact], unsupported := if Disables(d) then [fact] else [])
  }

  predicate IsTarget(recipe: Text) { recipe == Ascii("devin") || recipe == Ascii("codex") || recipe == Ascii("grok") }

  function ServerFacts(plan: Plan): Facts {
    if plan.mcpServerIds == [] || !IsTarget(plan.requirements.recipe) then NO_FACTS
    else
      var ids := plan.mcpServerIds;
      var value := Names(ids).(mode := Ascii("selected-session-stdio-projection"), count := Some(Length(ids)));
      Adding(ByRecipe(ByTarget(plan), Ascii("target.mcp-servers"), "target-configuration", value))
  }

  function Adding(fact: Fact): Facts { NO_FACTS.(targetAdded := [fact]) }

  function PreflightFacts(source: FactSource, d: Decision): Facts {
    Adding(ByRecipe(source, d.id, "target-preflight", Mode(d.mode)))
  }

  function UnsupportedFacts(source: FactSource, d: Decision): Facts {
    var id := Ascii("unsupported.") + d.id;
    NO_FACTS.(unsupported := [Fact(id, Ascii("target-control"), Mode(d.mode), Ascii("not_supported"), source)])
  }

  function InheritanceFacts(source: FactSource, rule: InheritanceRule): Facts {
    Adding(Fact(rule.id, Ascii("project-inheritance"), Names(rule.logicalRoots), Ascii("target_inheritance"), source))
  }

  function CredentialFacts(plan: Plan): Facts {
    var projection := plan.requirements.semantics.credentialProjection;
    var id := plan.requirements.recipe + Ascii(".credentials");
    if projection == [] then NO_FACTS
    else Adding(ByRecipe(ByTarget(plan), id, "credential-projection", Mode(projection)))
  }

  function CommandFact(id: string, kind: string, value: FactValue): Fact {
    Fact(Ascii(id), Ascii(kind), value, Ascii("validated_command_recipe"),
         FactSource(Ascii("command"), Ascii("run"), 0))
  }

  /** What the shell, an explicit command, or a target's registered executable adds. */
  function ExecutableFacts(plan: Plan): Facts {
    var recipe := plan.requirements.recipe;
    if recipe == Ascii("shell") then
      Adding(Fact(Ascii("sandbox.shell"), Ascii("executable"), Requires(Ascii("system-zsh-no-rc")),
                  Ascii("fixed_recipe"), FactSource(Ascii("acs"), Ascii("sandbox"), 0)))
    else if recipe == Ascii("command") then
      var arguments := Mode(plan.commandForm).(count := Some(plan.commandArguments));
      NO_FACTS.(targetAdded := [CommandFact("run.command", "executable", Mode(Ascii("literal-no-shell")))],
                requested := [CommandFact("run.literal-argv", "command", arguments)])
    else if IsTarget(recipe) && plan.requirements.executableId != [] then
      RequirementFacts(ByTarget(plan), Ascii("target.executable"), Ascii("target.executable-access"),
                       "executable", "read-execute", plan.requirements.executableId)
    else NO_FACTS
  }

  function RequirementFacts(source: FactSource, id: Text, accessId: Text, kind: string, access: string,
                            requirement: Text): Facts
  {
    var reason, accessed := Ascii("registered_requirement"), Requires(requirement).(access := Ascii(access));
    NO_FACTS.(targetAdded := [Fact(id, Ascii(kind), Requires(requirement), reason, source)],
              effective := [Fact(accessId, Ascii("filesystem"), accessed, reason, source)])
  }

  function RuntimeInputFacts(source: FactSource, id: Text): Facts {
    RequirementFacts(source, Ascii("target.runtime.") + id, Ascii("target.runtime-access.") + id,
                     "runtime-input", "read", id)
  }

  function RecipeParts(plan: Plan): seq<Facts> {
    var semantics, source := plan.requirements.semantics, ByTarget(plan);
    Map(d => ConfigurationFacts(source, d), semantics.configuration)
    + [ServerFacts(plan)]
    + Map(d => PreflightFacts(source, d), semantics.preflights)
    + Map(d => UnsupportedFacts(source, d), semantics.unsupported)
    + Map(rule => InheritanceFacts(source, rule), semantics.inheritance)
    + [CredentialFacts(plan), ExecutableFacts(plan)]
    + Map(id => RuntimeInputFacts(source, id), plan.requirements.runtimeInputIds)
  }

  // ----- the runtime

  function Decimal(n: nat): Text {
    if n < 10 then [48 + n] else Decimal(n / 10) + [48 + n % 10]
  }

  function Itoa(n: int): Text { if n < 0 then Ascii("-") + Decimal(-n) else Decimal(n) }

  function SortedTexts(ts: seq<Text>): seq<Text> { Arrange(Below, ts) }

  function BySandbox(version: Int64): FactSource { FactSource(Ascii("acs"), Ascii("native-sandbox"), version) }

  function InRuntime(r: Runtime, id: string, kind: string, value: FactValue): Fact {
    Fact(Ascii("runtime.") + Ascii(id), Ascii(kind), value, Ascii("acs_runtime"), BySandbox(r.version))
  }

  function LoopbackValue(r: Runtime): FactValue {
    var scope := if r.loginCallback then Ascii("codex-login-localhost-1455-inbound") else [];
    Mode(Ascii("denied-except-listed-ports-macos")).(
      names := SortedTexts(Map(Itoa, r.loopbackPorts)), environment := NO_ENVIRONMENT.(scope := scope))
  }

  function RuntimeEffective(r: Runtime): seq<Fact> {
    [InRuntime(r, "executable-visibility", "executable-visibility", Mode(Ascii("non-exclusive-intrinsic-readable"))),
     InRuntime(r, "devices", "device", Mode(r.deviceMode)),
     InRuntime(r, "environment", "environment",
               Mode(Ascii("conditional-inheritance-values-omitted")).(names := SortedTexts(r.inheritedNames))),
     InRuntime(r, "environment.fixed-path", "environment", Mode(r.fixedPath).(names := [Ascii("PATH")])),
     InRuntime(r, "environment.synthetic", "environment",
               Mode(Ascii("session-relative-values-omitted")).(names := SortedTexts(r.syntheticNames))),
     InRuntime(r, "mach-services", "mach-service", Names(SortedTexts(r.machServices))),
     InRuntime(r, "metadata", "filesystem-metadata", Mode(r.metadataMode)),
     InRuntime(r, "network", "network", Mode(r.networkMode)),
     InRuntime(r, "network.loopback", "network", LoopbackValue(r)),
     InRuntime(r, "process", "process", Mode(r.processMode)),
     Fact(Ascii("runtime.session"), Ascii("filesystem"), BLANK.(access := r.sessionAccess), Ascii("intrinsic_session"),
          FactSource(Ascii("acs"), Ascii("session"), r.version)),
     InRuntime(r, "sysctls", "sysctl", Names(SortedTexts(r.sysctlNames))),
     InRuntime(r, "system-read", "filesystem", Mode(r.systemReadMode).(access := Ascii("read"))),
     InRuntime(r, "terminal", "terminal", Mode(r.terminalMode))]
  }

  function NotSupported(id: string, kind: string, mode: string, source: string): Fact {
    Fact(Ascii("unsupported.") + Ascii(id), Ascii(kind), Mode(Ascii(mode)), Ascii("not_supported"),
         FactSource(Ascii("acs"), Ascii(source), 0))
  }

  function RuntimeUnsupported(): seq<Fact> {
    [NotSupported("exclusive-execution-filtering", "executable", "non-exclusive-visibility-only", "native-sandbox"),
     NotSupported("arbitrary-host-paths", "filesystem", "arbitrary-grants", "native-sandbox"),
     NotSupported("host-environment", "environment", "arbitrary-values", "native-sandbox"),
     NotSupported("network-destinations", "network", "general-destination-filtering", "native-sandbox"),
     NotSupported("sandbox-bypass", "isolation", "bypass", "native-sandbox"),
     NotSupported("target-pass-through", "target-control", "arbitrary-options", "recipes"),
     NotSupported("raw-policy", "isolation", "caller-supplied", "native-sandbox")]
  }

  const SESSION_DESTINATIONS: seq<string> := [
    "session-home", "session-temporary", "session-home/.config", "session-home/.local/share", "session-home/.cache",
    "session-home/.local/state"]

  function RuntimeFacts(r: Runtime): Facts {
    var destinations := Names(Map(Ascii, SESSION_DESTINATIONS));
    Facts([],
          [Fact(Ascii("runtime.session-destinations"), Ascii("session-destination"), destinations,
                Ascii("intrinsic_session"), FactSource(Ascii("acs"), Ascii("session"), r.version))],
          RuntimeEffective(r), RuntimeUnsupported())
  }

  // ----- all of them

  function Joined(a: Facts, b: Facts): Facts {
    Facts(a.requested + b.requested, a.targetAdded + b.targetAdded, a.effective + b.effective,
      a.unsupported + b.unsupported)
  }

  function JoinedAll(fs: seq<Facts>): Facts {
    if fs == [] then NO_FACTS else Joined(JoinedAll(fs[..|fs| - 1]), fs[|fs| - 1])
  }

  function LaterParts(plan: Plan): seq<Facts> { RecipeParts(plan) + [RuntimeFacts(plan.runtime)] }

  function AllFacts(plan: Plan): Facts {
    Joined(Joined(JoinedAll(ProfileParts(plan)), RequestedFacts(plan)), JoinedAll(LaterParts(plan)))
  }

  // ----- what no fact shows

  function PublicGrant(i: PathGrant): PathGrant { if IsRelative(i.reference) then i else i.(path := []) }

  function PublicExclusion(i: PathExclusion): PathExclusion { if IsRelative(i.reference) then i else i.(path := []) }

  function PublicExecutable(i: ExecutableGrant): ExecutableGrant {
    i.(name := if IsSearched(i.reference) then i.name else [], path := if IsRelative(i.reference) then i.path else [])
  }

  function PublicIntent(i: EnvironmentIntent): EnvironmentIntent {
    i.(sourceName := [], reference := [], provider := if IsSecret(i.sourceKind) then i.provider else [])
  }

  /**
   A plan without its machine-local bindings: the authentication reference, the
   target's executable, home and paths, the host paths of grants and exclusions, and
   the host names and references environment values come from.
   */
  function Public(plan: Plan): Plan {
    plan.(
      authRef := [],
      requirements :=
        plan.requirements.(executable := [], runtimeInputs := [], existingHome := [], protectedPaths := []),
      pathGrants := Map(PublicGrant, plan.pathGrants),
      pathExclusions := Map(PublicExclusion, plan.pathExclusions),
      materialOrigins := [],
      executableGrants := Map(PublicExecutable, plan.executableGrants),
      environment := Map(PublicIntent, plan.environment))
  }

  lemma MapAfter<A, B>(f: A -> B, g: A -> B, hide_: A -> A, s: seq<A>)
    requires forall i | 0 <= i < |s| :: f(hide_(s[i])) == g(s[i])
    ensures Map(f, Map(hide_, s)) == Map(g, s)
  {
  }

  lemma PublicProfileParts(plan: Plan)
    ensures ProfileParts(Public(plan)) == ProfileParts(plan)
  {
    var p, access := Public(plan), plan.WorkspaceAccess();
    assert p.WorkspaceAccess() == access;
    MapAfter(i => PathGrantFacts(access, i), i => PathGrantFacts(access, i), PublicGrant, plan.pathGrants);
    MapAfter(PathExclusionFacts, PathExclusionFacts, PublicExclusion, plan.pathExclusions);
    MapAfter(ExecutableGrantFacts, ExecutableGrantFacts, PublicExecutable, plan.executableGrants);
    MapAfter(EnvironmentFacts, EnvironmentFacts, PublicIntent, plan.environment);
    hide PathGrantFacts, PathExclusionFacts, ExecutableGrantFacts, EnvironmentFacts, WorkspaceFacts;
  }
}
