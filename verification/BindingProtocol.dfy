/**
 The quarantine protocol of one named identity, as a transition system.

 Every durable effect of the executor sequences is one step: login
 (internal/executor/codex_auth_service.go), status and recovery
 (internal/executor/codex_auth_binding.go), the interactive launch
 (internal/executor/codex_execution.go), the contained process they share
 (internal/executor/codex_auth_contained.go), the background settler, and logout.
 Between any two steps the owner may crash, the contained process may write its
 credential file or end, and other invocations may wait for the lock. The
 identity lock is exclusive, so the world has at most one owner.
 */
module BindingProtocol {
  import opened Options
  import opened Quarantine
  import opened CredentialStore

  datatype Kind = Login | Status | Interactive

  /** Each operation contains two processes: the version probe, then the operation itself. */
  datatype Round = Probe | Command

  /** What an operation returns: its disposition, and whether it returns an error. */
  datatype Report = Report(disposition: Disposition, failed: bool)

  const REJECTED := Report(Unset, true)
  const UNCERTAIN := Report(Quarantined, true)
  const SUCCEEDED := Report(Unset, false)
  const NO_GENERATION := Generation("", "")

  /** The next effect of a foreground operation. */
  datatype Pc =
    | Inspecting
    | Loading
    | Preparing
    | Publishing
    | Confirming
    | Unpublishing
    | Retiring
    | Protecting
    | Projecting
    | Materializing
    | Advancing(round: Round)
    | Arming(round: Round)
    | Pending(round: Round)
    | Spawning(round: Round)
    | Running(round: Round)
    | Deciding(succeeded: bool, proven: bool, handle: bool)
    | Permitting
    | Concluding(succeeded: bool)
    | Committing
    | Finalizing
    | Abandoning(report: Report)
    | Removing(report: Report)
    | Unmarking(report: Report)
    | Releasing(report: Report)

  /** The next effect of a recovery that captured a marker. */
  datatype RecoveryPc =
    | Taking
    | Proving
    | Restoring
    | Discarding(report: Report)
    | Clearing(report: Report)
    | Leaving(report: Report)

  /** A foreground operation. `checked` says that the generation check of its current call has passed. */
  datatype Operation = Operation(kind: Kind, pc: Pc, generation: Generation, record: Option<Record>, checked: bool)

  datatype Recovering = Recovering(snapshot: Marker, at: RecoveryPc, checked: bool)

  datatype Settling = Settling(generation: Generation, checked: bool)

  /** The holder of the identity lock. */
  datatype Owner =
    | Foreground(operation: Operation)
    | Settlement(settling: Settling)
    | Observing(expected: Option<Marker>)
    | Recovery(recovering: Recovering)
    | LoggingOut(cleared: bool)

  /** A private Session root: its credential file, and whether a prepared process still retains its lease. */
  datatype Session = Session(auth: Option<Auth>, retained: bool)

  /** A background goroutine that waits for one contained process tree. */
  datatype Settler = Settler(generation: Generation, ready: bool)

  /**
   Durable state (record, marker, sessions), contained process trees (live, and
   the challenges whose tree is over), the lock owner, and waiting invocations.
   */
  datatype World = World(
    record: Option<Record>,
    marker: Option<Marker>,
    sessions: map<SessionId, Session>,
    live: set<Generation>,
    ended: set<Challenge>,
    owner: Option<Owner>,
    settlers: set<Settler>,
    waiters: set<Marker>,
    usedSessions: set<SessionId>,
    usedChallenges: set<Challenge>)

  datatype Preparation = NotPrepared | Unretained | Retained

  datatype Removal = Removed | RemovedWithError | Kept(auth: Option<Auth>)

  /**
   How a call sees the projected credential: the file may fail to read, and its
   verification to reach the signing keys.
   */
  datatype Look = Faithful | Unreadable | Unverified

  function Seen(look: Look, auth: Option<Auth>): Option<Auth> { if look.Unreadable? then None else auth }

  const REFUSES: Verifier := _ => None

  function Through(look: Look, verify: Verifier): Verifier { if look.Unverified? then REFUSES else verify }

  datatype Lease = Active | Invalid | Taken | Missing

  datatype PublicationEvent =
    | BeginOperation(kind: Kind)
    | InspectMarker(fails: bool)
    | LoadRecord(fails: bool)
    | CreateSession(ok: bool, session: SessionId, challenge: Challenge)
    | Publish(fault: Fault)
    | ConfirmPublication(fails: bool, protects: bool)
    | RemoveUnpublished(removal: Removal)
    | Protect(ok: bool)

  datatype ContainmentEvent =
    | Project(ok: bool, leftover: Option<Auth>)
    | Materialize(ok: bool)
    | RefuseRun
    | CheckGeneration(fails: bool)
    | WriteMarker(fault: Fault, challenge: Challenge)
    | Arm(ok: bool)
    | Spawn(preparation: Preparation)
    | Settle(succeeds: bool, accepted: bool, cleanupProven: bool)
    | Decide

  datatype ConclusionEvent =
    | CommitRecord(unprotected: bool, look: Look, providerFault: ProviderFault)
    | FinalizeRecord(unprotected: bool, look: Look, providerFault: ProviderFault)
    | RemoveSession(removal: Removal)
    | Release
    | CrashOwner

  datatype SettlerEvent =
    | CleanupDone(settler: Settler)
    | SettlerLocks(settler: Settler)
    | CheckSettlement(fails: bool)
    | WriteSettlement(fault: Fault)
    | CrashSettler(settler: Settler)

  datatype RecoveryEvent =
    | StartWaiting
    | StopWaiting(marker: Marker)
    | RecoverLocks(expected: Option<Marker>)
    | RecoverInspects(fails: bool)
    | RecoverTakes(lease: Lease)
    | RecoverProves(proven: bool)
    | RecoverChecks(fails: bool)
    | RecoverFinalizes(unavailable: bool, look: Look, providerFault: ProviderFault)
    | RecoverRemoves(removal: Removal)
    | RecoverClears(registryFails: bool, fault: Fault)

  datatype LogoutEvent =
    | LogoutLocks
    | LogoutInspects(fails: bool)
    | LogoutDeletes(providerFault: ProviderFault)

  /** The contained process tree acts on its own, whether or not anything waits for it. */
  datatype ProcessEvent =
    | ProcessDies(generation: Generation)
    | ProcessWrites(generation: Generation, auth: Option<Auth>)

  datatype Event =
    | Publication(publication: PublicationEvent)
    | Containment(containment: ContainmentEvent)
    | Conclusion(conclusion: ConclusionEvent)
    | Background(background: SettlerEvent)
    | Recover(recovery: RecoveryEvent)
    | Logout(logout: LogoutEvent)
    | Process(process: ProcessEvent)

  predicate InForeground(w: World) {
    w.owner.Some? && w.owner.value.Foreground?
  }

  predicate InRecovery(w: World) {
    w.owner.Some? && w.owner.value.Recovery?
  }

  function Fg(w: World): Operation
    requires InForeground(w)
  {
    w.owner.value.operation
  }

  function Rec(w: World): Recovering
    requires InRecovery(w)
  {
    w.owner.value.recovering
  }

  predicate At(w: World, pc: Pc) { InForeground(w) && Fg(w).pc == pc }

  function Moved(w: World, pc: Pc): World
    requires InForeground(w)
  {
    w.(owner := Some(Foreground(Fg(w).(pc := pc, checked := false))))
  }

  function Unowned(w: World): World { w.(owner := None) }

  function RecoveryMoved(w: World, at: RecoveryPc): World
    requires InRecovery(w)
  {
    w.(owner := Some(Recovery(Rec(w).(at := at, checked := false))))
  }

  /** The credential file of a Session root, None when the root or the file cannot be read. */
  function AuthOf(w: World, session: SessionId): Option<Auth> {
    if session in w.sessions then w.sessions[session].auth else None
  }

  function WithAuth(w: World, session: SessionId, auth: Option<Auth>): World {
    if session in w.sessions
    then w.(sessions := w.sessions[session := w.sessions[session].(auth := auth)])
    else w
  }

  function WithRetained(w: World, session: SessionId, retained: bool): World {
    if session in w.sessions
    then w.(sessions := w.sessions[session := w.sessions[session].(retained := retained)])
    else w
  }

  function Dropped(w: World, session: SessionId): World {
    w.(sessions := map s | s in w.sessions && s != session :: w.sessions[s])
  }

  /** A failed removal may already have deleted the credential file, never changed it. */
  predicate PossibleRemoval(w: World, session: SessionId, removal: Removal) {
    removal.Kept? ==> removal.auth.None? || removal.auth == AuthOf(w, session)
  }

  predicate IsPublished(marker: Option<Marker>, g: Generation) {
    marker.Some? && marker.value.session == g.session && marker.value.challenge == g.challenge
      && marker.value.phase.Prepared?
  }

  /** The locations whose effect is a marker update under a generation check. */
  predicate UpdatesMarker(pc: Pc) {
    pc.Retiring? || pc.Advancing? || pc.Pending? || pc.Permitting? || pc.Concluding? || pc.Abandoning? || pc.Unmarking?
  }

  predicate ChecksGeneration(pc: Pc) {
    UpdatesMarker(pc) || pc.Committing? || pc.Finalizing?
  }

  function OpAt(pc: Pc, challenge: Challenge): MarkerOp {
    match pc
    case Advancing(_) => AdvanceChallenge(challenge)
    case Pending(_) => MarkCleanupPending
    case Permitting => MarkRefreshAllowed
    case _ => MarkRecoverable
  }

  function PhasesAt(pc: Pc): set<Phase> {
    match pc
    case Committing => {Recoverable}
    case Finalizing => {Recoverable}
    case Unmarking(_) => ANY_PHASE
    case _ => AdmittedPhases(OpAt(pc, ""))
  }

  /** Where a foreground operation goes after its call at pc succeeds. */
  function AfterSuccess(kind: Kind, pc: Pc): Pc {
    match pc
    case Advancing(round) => Arming(round)
    case Pending(round) => Spawning(round)
    case Permitting => Concluding(true)
    case Concluding(true) => if kind.Login? then Committing else Finalizing
    case Concluding(false) => Removing(if kind.Status? then Report(Discarded, true) else REJECTED)
    case Abandoning(report) => Removing(report)
    case Unmarking(report) => Releasing(report)
    case _ => Releasing(UNCERTAIN)
  }

  /** Where it goes when the generation check or the update reports an error. */
  function AfterFailure(pc: Pc): Pc {
    match pc
    case Advancing(_) => Deciding(false, true, false)
    case Pending(_) => Deciding(false, true, false)
    case Abandoning(report) => Removing(report)
    case Committing => Removing(REJECTED)
    case _ => Releasing(UNCERTAIN)
  }

  predicate PublicationEnabled(w: World, e: PublicationEvent) {
    match e
    case BeginOperation(_) => w.owner.None?
    case InspectMarker(_) => At(w, Inspecting)
    case LoadRecord(_) => At(w, Loading)
    case CreateSession(ok, session, challenge) =>
      && At(w, Preparing)
      && (ok ==> && ValidSession(session) && session !in w.usedSessions
                 && ValidChallenge(challenge) && challenge !in w.usedChallenges)
    case Publish(_) => At(w, Publishing)
    case ConfirmPublication(_, _) => At(w, Confirming)
    case RemoveUnpublished(removal) =>
      At(w, Unpublishing) && PossibleRemoval(w, Fg(w).generation.session, removal)
    case Protect(_) => At(w, Protecting)
  }

  function PublicationNext(w: World, e: PublicationEvent): World
    requires PublicationEnabled(w, e)
  {
    match e
    case BeginOperation(kind) => w.(owner := Some(Foreground(Operation(kind, Inspecting, NO_GENERATION, None, false))))
    case InspectMarker(fails) => Moved(w, if fails || w.marker.Some? then Releasing(REJECTED) else Loading)
    case LoadRecord(fails) => Loaded(w, fails)
    case CreateSession(ok, session, challenge) => SessionCreated(w, ok, session, challenge)
    case Publish(fault) =>
      var g := Fg(w).generation;
      var effect := Created(w.marker, Marker(g.session, Prepared, g.challenge, false), fault);
      Moved(w.(marker := effect.marker), if effect.Ok() then Protecting else Confirming)
    case ConfirmPublication(fails, protects) =>
      if fails then Moved(w, Releasing(UNCERTAIN))
      else if !IsPublished(w.marker, Fg(w).generation) then Moved(w, Unpublishing)
      else Moved(w, if protects then Retiring else Removing(UNCERTAIN))
    case RemoveUnpublished(removal) =>
      SessionRemoved(w, Fg(w).generation.session, removal, Releasing(REJECTED))
    case Protect(ok) =>
      Moved(w, if !ok then Abandoning(REJECTED) else if Fg(w).kind.Login? then Advancing(Probe) else Projecting)
  }

  predicate ContainmentEnabled(w: World, e: ContainmentEvent) {
    match e
    case Project(_, _) => At(w, Projecting) && Fg(w).record.Some?
    case Materialize(_) => At(w, Materializing)
    case RefuseRun => InForeground(w) && Fg(w).pc.Advancing? && !Fg(w).checked
    case CheckGeneration(_) => InForeground(w) && ChecksGeneration(Fg(w).pc) && !Fg(w).checked
    case WriteMarker(_, challenge) =>
      && InForeground(w) && UpdatesMarker(Fg(w).pc) && Fg(w).checked
      && (Fg(w).pc.Advancing? ==> ValidChallenge(challenge) && challenge !in w.usedChallenges)
    case Arm(_) => InForeground(w) && Fg(w).pc.Arming?
    case Spawn(_) => InForeground(w) && Fg(w).pc.Spawning?
    case Settle(_, _, cleanupProven) =>
      && InForeground(w) && Fg(w).pc.Running?
      && (cleanupProven ==> Fg(w).generation !in w.live)
    case Decide => InForeground(w) && Fg(w).pc.Deciding?
  }

  function ContainmentNext(w: World, e: ContainmentEvent): World
    requires ContainmentEnabled(w, e)
  {
    match e
    case Project(ok, leftover) => Projected(w, ok, leftover)
    case Materialize(ok) => Moved(w, if ok then Advancing(Probe) else Abandoning(REJECTED))
    case RefuseRun => Moved(w, Deciding(false, true, false))
    case CheckGeneration(fails) => GenerationChecked(w, fails)
    case WriteMarker(fault, challenge) => MarkerWritten(w, fault, challenge)
    case Arm(ok) => Moved(w, if ok then Pending(Fg(w).pc.round) else Deciding(false, true, false))
    case Spawn(preparation) => Spawned(w, preparation)
    case Settle(succeeds, accepted, cleanupProven) => Settled(w, succeeds, accepted, cleanupProven)
    case Decide => Decided(w)
  }

  predicate ConclusionEnabled(w: World, e: ConclusionEvent) {
    match e
    case CommitRecord(_, _, _) => At(w, Committing) && Fg(w).checked
    case FinalizeRecord(_, _, _) => At(w, Finalizing) && Fg(w).checked && Fg(w).record.Some?
    case RemoveSession(removal) =>
      InForeground(w) && Fg(w).pc.Removing? && PossibleRemoval(w, Fg(w).generation.session, removal)
    case Release =>
      || (InForeground(w) && Fg(w).pc.Releasing?)
      || (InRecovery(w) && Rec(w).at.Leaving?)
    case CrashOwner => w.owner.Some?
  }

  function ConclusionNext(verify: Verifier, w: World, e: ConclusionEvent): World
    requires ConclusionEnabled(w, e)
  {
    match e
    case CommitRecord(unprotected, look, fault) => RecordCommitted(verify, w, unprotected, look, fault)
    case FinalizeRecord(unprotected, look, fault) => RecordFinalized(verify, w, unprotected, look, fault)
    case RemoveSession(removal) =>
      SessionRemoved(w, Fg(w).generation.session, removal, Unmarking(Fg(w).pc.report))
    case Release => Unowned(w)
    case CrashOwner => Unowned(w)
  }

  predicate BackgroundEnabled(w: World, e: SettlerEvent) {
    match e
    case CleanupDone(x) => x in w.settlers && !x.ready && x.generation.challenge in w.ended
    case SettlerLocks(x) => x in w.settlers && x.ready && w.owner.None?
    case CheckSettlement(_) => w.owner.Some? && w.owner.value.Settlement? && !w.owner.value.settling.checked
    case WriteSettlement(_) => w.owner.Some? && w.owner.value.Settlement? && w.owner.value.settling.checked
    case CrashSettler(x) => x in w.settlers
  }

  function BackgroundNext(w: World, e: SettlerEvent): World
    requires BackgroundEnabled(w, e)
  {
    match e
    case CleanupDone(x) =>
      WithRetained(w, x.generation.session, false).(settlers := w.settlers - {x} + {x.(ready := true)})
    case SettlerLocks(x) => w.(settlers := w.settlers - {x}, owner := Some(Settlement(Settling(x.generation, false))))
    case CheckSettlement(fails) =>
      if fails || !IsCurrent(w.marker, w.owner.value.settling.generation, {CleanupPending}) then Unowned(w)
      else w.(owner := Some(Settlement(w.owner.value.settling.(checked := true))))
    case WriteSettlement(fault) => Unowned(w.(marker := Written(w.marker, MarkRecoverable, fault).marker))
    case CrashSettler(x) => w.(settlers := w.settlers - {x})
  }

  predicate RecoverEnabled(w: World, e: RecoveryEvent) {
    match e
    case StartWaiting => w.owner.Some? && w.marker.Some? && w.marker.value.phase.Recoverable?
    case StopWaiting(m) => m in w.waiters
    case RecoverLocks(expected) => w.owner.None? && (expected.Some? ==> expected.value in w.waiters)
    case RecoverInspects(_) => w.owner.Some? && w.owner.value.Observing?
    case RecoverTakes(lease) =>
      && InRecovery(w) && Rec(w).at.Taking?
      && (lease.Taken? ==> Rec(w).snapshot.session in w.sessions)
      && (lease.Missing? ==> Rec(w).snapshot.session !in w.sessions)
    case RecoverProves(proven) =>
      && InRecovery(w) && Rec(w).at.Proving?
      && (proven ==> Rec(w).snapshot.challenge in w.ended)
    case RecoverChecks(_) => InRecovery(w) && (Rec(w).at.Restoring? || Rec(w).at.Clearing?) && !Rec(w).checked
    case RecoverFinalizes(_, _, _) => InRecovery(w) && Rec(w).at.Restoring? && Rec(w).checked
    case RecoverRemoves(removal) =>
      && InRecovery(w) && Rec(w).at.Discarding?
      && PossibleRemoval(w, Rec(w).snapshot.session, removal)
    case RecoverClears(_, _) => InRecovery(w) && Rec(w).at.Clearing? && Rec(w).checked
  }

  function RecoverNext(verify: Verifier, w: World, e: RecoveryEvent): World
    requires RecoverEnabled(w, e)
  {
    match e
    case StartWaiting => w.(waiters := w.waiters + {w.marker.value})
    case StopWaiting(m) => w.(waiters := w.waiters - {m})
    case RecoverLocks(expected) => w.(owner := Some(Observing(expected)))
    case RecoverInspects(fails) =>
      var expected := w.owner.value.expected;
      if fails || w.marker.None? || (expected.Some? && w.marker != expected) then Unowned(w)
      else w.(owner := Some(Recovery(Recovering(w.marker.value, Taking, false))))
    case RecoverTakes(lease) => LeaseTaken(w, lease)
    case RecoverProves(proven) => RecoveryMoved(w, if proven then Restoring else Leaving(UNCERTAIN))
    case RecoverChecks(fails) => RecoveryChecked(w, fails)
    case RecoverFinalizes(unavailable, look, fault) => RecoveryFinalized(verify, w, unavailable, look, fault)
    case RecoverRemoves(removal) => RecoveryRemoved(w, removal)
    case RecoverClears(registryFails, fault) => RecoveryCleared(w, registryFails, fault)
  }

  predicate LogoutEnabled(w: World, e: LogoutEvent) {
    match e
    case LogoutLocks => w.owner.None?
    case LogoutInspects(_) => w.owner == Some(LoggingOut(false))
    case LogoutDeletes(_) => w.owner == Some(LoggingOut(true))
  }

  function LogoutNext(w: World, e: LogoutEvent): World
    requires LogoutEnabled(w, e)
  {
    match e
    case LogoutLocks => w.(owner := Some(LoggingOut(false)))
    case LogoutInspects(fails) => if fails || w.marker.Some? then Unowned(w) else w.(owner := Some(LoggingOut(true)))
    case LogoutDeletes(fault) => Unowned(if fault.Refused? then w else w.(record := None))
  }

  predicate ProcessEnabled(w: World, e: ProcessEvent) {
    match e
    case ProcessDies(g) => g in w.live
    case ProcessWrites(g, _) => g in w.live
  }

  function ProcessNext(w: World, e: ProcessEvent): World
    requires ProcessEnabled(w, e)
  {
    match e
    case ProcessDies(g) => w.(live := w.live - {g}, ended := w.ended + {g.challenge})
    case ProcessWrites(g, auth) => WithAuth(w, g.session, auth)
  }

  predicate Enabled(w: World, e: Event) {
    match e
    case Publication(x) => PublicationEnabled(w, x)
    case Containment(x) => ContainmentEnabled(w, x)
    case Conclusion(x) => ConclusionEnabled(w, x)
    case Background(x) => BackgroundEnabled(w, x)
    case Recover(x) => RecoverEnabled(w, x)
    case Logout(x) => LogoutEnabled(w, x)
    case Process(x) => ProcessEnabled(w, x)
  }

  function Next(verify: Verifier, w: World, e: Event): World
    requires Enabled(w, e)
  {
    match e
    case Publication(x) => PublicationNext(w, x)
    case Containment(x) => ContainmentNext(w, x)
    case Conclusion(x) => ConclusionNext(verify, w, x)
    case Background(x) => BackgroundNext(w, x)
    case Recover(x) => RecoverNext(verify, w, x)
    case Logout(x) => LogoutNext(w, x)
    case Process(x) => ProcessNext(w, x)
  }

  function Loaded(w: World, fails: bool): World
    requires At(w, Loading)
  {
    if fails then Moved(w, Releasing(REJECTED))
    else if Fg(w).kind.Login? then Moved(w, if w.record.Some? then Releasing(REJECTED) else Preparing)
    else if w.record.None? then Moved(w, Releasing(REJECTED))
    else Moved(w.(owner := Some(Foreground(Fg(w).(record := w.record)))), Preparing)
  }

  function SessionCreated(w: World, ok: bool, session: SessionId, challenge: Challenge): World
    requires At(w, Preparing)
  {
    if !ok then Moved(w, Releasing(REJECTED))
    else Moved(w.(sessions := w.sessions[session := Session(None, false)],
                  usedSessions := w.usedSessions + {session},
                  usedChallenges := w.usedChallenges + {challenge},
                  owner := Some(Foreground(Fg(w).(generation := Generation(session, challenge))))), Publishing)
  }

  function Projected(w: World, ok: bool, leftover: Option<Auth>): World
    requires At(w, Projecting) && Fg(w).record.Some?
  {
    var h := Fg(w);
    if ok then Moved(WithAuth(w, h.generation.session, Some(h.record.value.auth)),
                     if h.kind.Status? then Advancing(Probe) else Materializing)
    else Moved(WithAuth(w, h.generation.session, leftover),
               Abandoning(if h.kind.Status? then Report(Discarded, true) else REJECTED))
  }

  function GenerationChecked(w: World, fails: bool): World
    requires InForeground(w)
  {
    var h := Fg(w);
    if !fails && IsCurrent(w.marker, h.generation, PhasesAt(h.pc))
        && (h.pc.Finalizing? ==> w.marker.value.refreshAllowed)
    then w.(owner := Some(Foreground(h.(checked := true))))
    else Moved(w, AfterFailure(h.pc))
  }

  /** An advance moves the binding's own challenge only when it reports success. */
  function MarkerWritten(w: World, fault: Fault, challenge: Challenge): World
    requires InForeground(w)
  {
    var h := Fg(w);
    var effect := if h.pc.Unmarking? then Deleted(w.marker, fault) else Written(w.marker, OpAt(h.pc, challenge), fault);
    var written := w.(marker := effect.marker,
                      usedChallenges := if h.pc.Advancing? then w.usedChallenges + {challenge} else w.usedChallenges);
    if !effect.Ok() then Moved(written, AfterFailure(h.pc))
    else if h.pc.Advancing? then
      Moved(written.(owner := Some(Foreground(h.(generation := h.generation.(challenge := challenge))))),
        AfterSuccess(h.kind, h.pc))
    else Moved(written, AfterSuccess(h.kind, h.pc))
  }

  /** A process tree may exist as soon as preparation succeeds, whether or not its handle could be retained. */
  function Spawned(w: World, preparation: Preparation): World
    requires InForeground(w) && Fg(w).pc.Spawning?
  {
    var h := Fg(w);
    match preparation
    case NotPrepared => Moved(w.(ended := w.ended + {h.generation.challenge}), Deciding(false, true, false))
    case Unretained => Moved(w.(live := w.live + {h.generation}), Deciding(false, false, false))
    case Retained =>
      Moved(WithRetained(w.(live := w.live + {h.generation}), h.generation.session, true), Running(h.pc.round))
  }

  function Settled(w: World, succeeds: bool, accepted: bool, cleanupProven: bool): World
    requires InForeground(w) && Fg(w).pc.Running?
  {
    var h := Fg(w);
    if !cleanupProven then Moved(w, Deciding(false, false, true))
    else
      var released := WithRetained(w, h.generation.session, false);
      if !succeeds || (h.pc.round.Probe? && !accepted) then Moved(released, Deciding(false, true, false))
      else Moved(released, if h.pc.round.Probe? then Advancing(Command) else Deciding(true, true, false))
  }

  function Decided(w: World): World
    requires InForeground(w) && Fg(w).pc.Deciding?
  {
    var h := Fg(w);
    if !h.pc.proven then
      Moved(if h.pc.handle then w.(settlers := w.settlers + {Settler(h.generation, false)})
        else w, Releasing(UNCERTAIN))
    else if h.pc.succeeded && !h.kind.Login? then Moved(w, Permitting)
    else Moved(w, Concluding(h.pc.succeeded))
  }

  function RecordCommitted(verify: Verifier, w: World, unprotected: bool, look: Look, fault: ProviderFault): World
    requires At(w, Committing)
  {
    if unprotected then Moved(w, Removing(REJECTED))
    else
      var seen := Seen(look, AuthOf(w, Fg(w).generation.session));
      var v := Committed(Through(look, verify), w.record, seen, fault);
      Moved(w.(record := v.record), Removing(if v.error.None? then SUCCEEDED else REJECTED))
  }

  function RecordFinalized(verify: Verifier, w: World, unprotected: bool, look: Look, fault: ProviderFault): World
    requires At(w, Finalizing) && Fg(w).record.Some?
  {
    if unprotected then Moved(w, Releasing(UNCERTAIN))
    else
      var seen := Seen(look, AuthOf(w, Fg(w).generation.session));
      var v := StatusVerdict(Through(look, verify), w.record, Fg(w).record.value, seen, fault);
      Moved(w.(record := v.record),
            if v.disposition.Quarantined? then Releasing(UNCERTAIN) else Removing(Report(v.disposition, v.error.Some?)))
  }

  /** Removal that reports success leaves a root behind while a process still retains its lease. */
  function SessionRemoved(w: World, session: SessionId, removal: Removal, then_: Pc): World
    requires InForeground(w)
  {
    match removal
    case Removed =>
      Moved(if session in w.sessions && w.sessions[session].retained then w else Dropped(w, session), then_)
    case RemovedWithError => Moved(Dropped(w, session), Releasing(UNCERTAIN))
    case Kept(auth) => Moved(WithAuth(w, session, auth), Releasing(UNCERTAIN))
  }

  /** A cleanup proof is demanded of a pending marker only. */
  function LeaseTaken(w: World, lease: Lease): World
    requires InRecovery(w)
  {
    match lease
    case Active => RecoveryMoved(w, Leaving(UNCERTAIN))
    case Invalid => RecoveryMoved(w, Leaving(UNCERTAIN))
    case Missing => RecoveryMoved(w, Clearing(Report(Discarded, false)))
    case Taken =>
      match Rec(w).snapshot.phase
      case Prepared => RecoveryMoved(w, Discarding(Report(Discarded, false)))
      case CleanupPending => RecoveryMoved(w, Proving)
      case Recoverable => RecoveryMoved(w, Restoring)
  }

  function RecoveryChecked(w: World, fails: bool): World
    requires InRecovery(w)
  {
    var h := Rec(w);
    if !fails && w.marker == Some(h.snapshot) then w.(owner := Some(Recovery(h.(checked := true))))
    else if !fails && h.at.Clearing? && w.marker.None? then RecoveryMoved(w, Leaving(h.at.report))
    else RecoveryMoved(w, Leaving(UNCERTAIN))
  }

  function RecoveryFinalized(verify: Verifier, w: World, unavailable: bool, look: Look, fault: ProviderFault): World
    requires InRecovery(w)
  {
    if unavailable then RecoveryMoved(w, Leaving(UNCERTAIN))
    else
      var snapshot := Rec(w).snapshot;
      var seen := Seen(look, AuthOf(w, snapshot.session));
      var v := RecoveryVerdict(Through(look, verify), w.record, snapshot.refreshAllowed, seen, fault);
      RecoveryMoved(w.(record := v.record),
                    if v.disposition.Quarantined? then Leaving(UNCERTAIN)
                    else Discarding(Report(v.disposition, v.error.Some?)))
  }

  /** Recovery removes the root whatever an earlier invocation retained: that lease died with it. */
  function RecoveryRemoved(w: World, removal: Removal): World
    requires InRecovery(w) && Rec(w).at.Discarding?
  {
    var h := Rec(w);
    match removal
    case Removed => RecoveryMoved(Dropped(w, h.snapshot.session), Clearing(h.at.report))
    case RemovedWithError => RecoveryMoved(Dropped(w, h.snapshot.session), Leaving(UNCERTAIN))
    case Kept(auth) => RecoveryMoved(WithAuth(w, h.snapshot.session, auth), Leaving(UNCERTAIN))
  }

  function RecoveryCleared(w: World, registryFails: bool, fault: Fault): World
    requires InRecovery(w) && Rec(w).at.Clearing?
  {
    var effect := Deleted(w.marker, fault);
    if registryFails then RecoveryMoved(w, Leaving(UNCERTAIN))
    else RecoveryMoved(w.(marker := effect.marker), if effect.Ok() then Leaving(Rec(w).at.report)
        else Leaving(UNCERTAIN))
  }

  /** Before the first operation: any record may be stored, and nothing else exists. */
  predicate Init(w: World) {
    && w.marker.None? && w.sessions == map[] && w.live == {} && w.ended == {}
    && w.owner.None? && w.settlers == {} && w.waiters == {} && w.usedSessions == {} && w.usedChallenges == {}
  }

  predicate Step(verify: Verifier, w: World, e: Event, w': World) {
    Enabled(w, e) && w' == Next(verify, w, e)
  }
}
