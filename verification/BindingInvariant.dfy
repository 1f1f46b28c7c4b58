/**
 The invariant of the quarantine protocol: what every location of every actor
 knows about the marker, the Session roots, the process trees and the record.
 */
module BindingInvariant {
  import opened Options
  import opened Quarantine
  import opened CredentialStore
  import opened BindingProtocol

  predicate Named(w: World, session: SessionId) { w.marker.Some? && w.marker.value.session == session }

  /** The marker is exactly this generation, without refresh permission. */
  predicate Exactly(w: World, g: Generation, phase: Phase) {
    w.marker == Some(Marker(g.session, phase, g.challenge, false))
  }

  predicate Permitted(w: World) { w.marker.Some? && w.marker.value.refreshAllowed }

  /** Fresh names: nothing on disk and no process tree carries a Session or challenge not yet handed out. */
  predicate Bounded(w: World) {
    && w.sessions.Keys <= w.usedSessions
    && w.ended <= w.usedChallenges
    && (w.marker.Some? ==> w.marker.value.session in w.usedSessions && w.marker.value.challenge in w.usedChallenges)
  }

  /** A live process tree is the marker's own pending generation, without refresh permission, in an existing root. */
  predicate LiveNamed(w: World) {
    forall g | g in w.live :: Exactly(w, g, CleanupPending) && g.session in w.sessions && g.challenge !in w.ended
  }

  /** A root that holds credentials is the one the marker names. */
  predicate CredentialsNamed(w: World) {
    forall s | s in w.sessions && w.sessions[s].auth.Some? :: Named(w, s)
  }

  predicate PreparedUnpermitted(w: World) { Permitted(w) ==> !w.marker.value.phase.Prepared? }

  predicate SettlersDone(w: World) {
    forall x | x in w.settlers && x.ready :: x.generation.challenge in w.ended
  }

  /** A login found no record; any other operation holds the stored one. */
  predicate Held(w: World, h: Operation) {
    if h.kind.Login? then h.record.None? && w.record.None? else h.record.Some? && w.record == h.record
  }

  predicate Rooted(w: World, h: Operation) {
    h.generation.session in w.sessions && !w.sessions[h.generation.session].retained
  }

  /** What a report says about the record. */
  predicate Truthful(verify: Verifier, w: World, h: Operation, report: Report) {
    && (report.disposition.Discarded? ==> !h.kind.Login? && h.record.Some? && w.record == h.record)
    && (report.disposition.Refreshed? ==>
          && !h.kind.Login? && h.record.Some? && w.record.Some?
          && w.record.value.metadata == h.record.value.metadata && w.record.value.auth != h.record.value.auth
          && verify(w.record.value.auth) == Some(w.record.value.metadata))
    && (report.disposition.Quarantined? ==> report.failed)
    && (!report.failed ==>
          if h.kind.Login? then h.record.None? && w.record.Some?
              && verify(w.record.value.auth) == Some(w.record.value.metadata)
          else report.disposition.Discarded? || report.disposition.Refreshed?)
  }

  /** A report that claims an outcome is given only once root and marker are gone. */
  predicate Concluded(w: World, session: SessionId, report: Report) {
    !report.failed || report.disposition.Discarded? || report.disposition.Refreshed? ==>
      w.marker.None? && session !in w.sessions
  }

  predicate ForegroundSane(verify: Verifier, w: World, h: Operation) {
    var g := h.generation;
    && (h.checked ==> ChecksGeneration(h.pc) && IsCurrent(w.marker, g, PhasesAt(h.pc)))
    && match h.pc
       case Inspecting => h.record.None?
       case Loading => w.marker.None? && h.record.None?
       case Preparing => w.marker.None? && Held(w, h)
       case Publishing => w.marker.None? && Held(w, h) && Rooted(w, h) && g.challenge in w.usedChallenges
       case Confirming => (w.marker.None? || Exactly(w, g, Prepared)) && Held(w, h) && Rooted(w, h)
       case Unpublishing => w.marker.None? && Rooted(w, h)
       case Retiring => Exactly(w, g, Prepared) && Rooted(w, h)
       case Protecting => Exactly(w, g, Prepared) && Held(w, h) && Rooted(w, h)
       case Projecting => Exactly(w, g, Prepared) && Held(w, h) && Rooted(w, h) && !h.kind.Login?
       case Materializing => Exactly(w, g, Prepared) && Held(w, h) && Rooted(w, h) && !h.kind.Login?
       case Advancing(round) =>
         && Exactly(w, g, if round.Probe? then Prepared else CleanupPending)
         && w.live == {} && Held(w, h) && Rooted(w, h)
       case Arming(_) => Exactly(w, g, Prepared) && Held(w, h) && Rooted(w, h) && g.challenge !in w.ended
       case Pending(_) => Exactly(w, g, Prepared) && Held(w, h) && Rooted(w, h) && g.challenge !in w.ended
       case Spawning(_) =>
         && Exactly(w, g, CleanupPending) && w.live == {} && g.challenge !in w.ended
         && Held(w, h) && Rooted(w, h)
       case Running(_) => Exactly(w, g, CleanupPending) && Held(w, h) && g.session in w.sessions
       case Deciding(succeeded, proven, _) =>
         && Named(w, g.session) && !Permitted(w) && Held(w, h)
         && (proven ==> w.live == {} && Rooted(w, h))
         && (succeeded ==> proven)
       case Permitting => Named(w, g.session) && !Permitted(w) && w.live == {} && Held(w, h) && Rooted(w, h)
         && !h.kind.Login?
       case Concluding(succeeded) =>
         && Named(w, g.session) && w.live == {} && Held(w, h) && Rooted(w, h)
         && (Permitted(w) ==> succeeded && !h.kind.Login?)
       case Committing => Named(w, g.session) && !Permitted(w) && w.live == {} && Held(w, h) && Rooted(w, h)
         && h.kind.Login?
       case Finalizing => Named(w, g.session) && w.live == {} && Held(w, h) && Rooted(w, h) && !h.kind.Login?
       case Abandoning(report) =>
         && Exactly(w, g, Prepared) && Rooted(w, h)
         && report.failed && Truthful(verify, w, h, report)
       case Removing(report) =>
         && Named(w, g.session) && w.live == {} && Rooted(w, h) && Truthful(verify, w, h, report)
       case Unmarking(report) =>
         && Named(w, g.session) && w.live == {} && g.session !in w.sessions && Truthful(verify, w, h, report)
       case Releasing(report) => Concluded(w, g.session, report) && Truthful(verify, w, h, report)
  }

  predicate RecoverySane(verify: Verifier, w: World, h: Recovering) {
    && (h.checked ==> (h.at.Restoring? || h.at.Clearing?) && w.marker == Some(h.snapshot))
    && match h.at
       case Taking => w.marker == Some(h.snapshot)
       case Proving => w.marker == Some(h.snapshot)
       case Restoring => w.marker == Some(h.snapshot) && w.live == {}
       case Discarding(report) =>
         && w.marker == Some(h.snapshot) && w.live == {}
         && (report.disposition.Quarantined? ==> report.failed)
       case Clearing(report) =>
         && w.marker == Some(h.snapshot) && w.live == {} && h.snapshot.session !in w.sessions
         && (report.disposition.Quarantined? ==> report.failed)
       case Leaving(report) =>
         Concluded(w, h.snapshot.session, report) && (report.disposition.Quarantined? ==> report.failed)
  }

  predicate OwnerSane(verify: Verifier, w: World) {
    match w.owner
    case None => true
    case Some(Foreground(h)) => ForegroundSane(verify, w, h)
    case Some(Settlement(s)) =>
      s.generation.challenge in w.ended && (s.checked ==> IsCurrent(w.marker, s.generation, {CleanupPending}))
    case Some(Observing(_)) => true
    case Some(Recovery(h)) => RecoverySane(verify, w, h)
    case Some(LoggingOut(cleared)) => cleared ==> w.marker.None?
  }

  predicate Inv(verify: Verifier, w: World) {
    && Bounded(w)
    && LiveNamed(w)
    && CredentialsNamed(w)
    && PreparedUnpermitted(w)
    && SettlersDone(w)
    && OwnerSane(verify, w)
  }

  /** The owner moves on, or changes the record: only its new location needs showing. */
  lemma ForegroundKeepsInv(verify: Verifier, w: World, w': World, h: Operation)
    requires Inv(verify, w) && ForegroundSane(verify, w', h)
    requires w' == w.(record := w'.record, owner := Some(Foreground(h)))
    ensures Inv(verify, w')
  {
    hide ForegroundSane, RecoverySane;
  }

  lemma RecoveryKeepsInv(verify: Verifier, w: World, w': World, h: Recovering)
    requires Inv(verify, w) && RecoverySane(verify, w', h)
    requires w' == w.(record := w'.record, owner := Some(Recovery(h)))
    ensures Inv(verify, w')
  {
    hide ForegroundSane, RecoverySane;
  }

  /** Letting go of a lease changes nothing an owner relies on. */
  lemma LeaseReleaseKeepsForeground(verify: Verifier, w: World, session: SessionId, h: Operation)
    requires ForegroundSane(verify, w, h)
    ensures ForegroundSane(verify, WithRetained(w, session, false), h)
  {
    var w' := WithRetained(w, session, false);
    assert Rooted(w, h) ==> Rooted(w', h);
    assert Held(w, h) ==> Held(w', h);
  }

  lemma LeaseReleaseKeepsInv(verify: Verifier, w: World, session: SessionId)
    requires Inv(verify, w)
    ensures Inv(verify, WithRetained(w, session, false))
  {
    var w' := WithRetained(w, session, false);
    match w.owner
    case Some(Foreground(h)) => LeaseReleaseKeepsForeground(verify, w, session, h);
    case Some(Recovery(h)) => assert RecoverySane(verify, w', h);
    case _ =>
    hide ForegroundSane, RecoverySane;
  }

  /** Settlers and waiters come and go beside the owner. */
  predicate Beside(w: World, w': World) { w' == w.(settlers := w'.settlers, waiters := w'.waiters) }

  lemma BystandersKeepForeground(verify: Verifier, w: World, w': World, h: Operation)
    requires ForegroundSane(verify, w, h) && Beside(w, w')
    ensures ForegroundSane(verify, w', h)
  {
    assert Rooted(w, h) ==> Rooted(w', h);
    assert Held(w, h) ==> Held(w', h);
  }

  lemma BystandersKeepInv(verify: Verifier, w: World, w': World)
    requires Inv(verify, w) && SettlersDone(w') && Beside(w, w')
    ensures Inv(verify, w')
  {
    match w.owner
    case Some(Foreground(h)) => BystandersKeepForeground(verify, w, w', h);
    case Some(Recovery(h)) => assert RecoverySane(verify, w', h);
    case _ =>
    hide ForegroundSane, RecoverySane;
  }

  lemma PublicationKeepsInv(verify: Verifier, w: World, e: PublicationEvent)
    requires Inv(verify, w) && PublicationEnabled(w, e)
    ensures Inv(verify, PublicationNext(w, e))
  {
    hide Inv;
    match e
    case BeginOperation(_) => OpeningKeepsInv(verify, w, e);
    case InspectMarker(_) => OpeningKeepsInv(verify, w, e);
    case LoadRecord(fails) => LoadedKeepsInv(verify, w, fails);
    case CreateSession(ok, session, challenge) => SessionCreatedKeepsInv(verify, w, ok, session, challenge);
    case Publish(_) => PublishKeepsInv(verify, w, e);
    case ConfirmPublication(_, _) => ConfirmKeepsInv(verify, w, e);
    case RemoveUnpublished(removal) => UnpublishedKeepsInv(verify, w, removal);
    case Protect(_) => OpeningKeepsInv(verify, w, e);
  }

  lemma OpeningKeepsInv(verify: Verifier, w: World, e: PublicationEvent)
    requires Inv(verify, w) && PublicationEnabled(w, e) && (e.BeginOperation? || e.InspectMarker? || e.Protect?)
    ensures Inv(verify, PublicationNext(w, e))
  {
  }

  lemma PublishKeepsInv(verify: Verifier, w: World, e: PublicationEvent)
    requires Inv(verify, w) && PublicationEnabled(w, e) && e.Publish?
    ensures Inv(verify, PublicationNext(w, e))
  {
  }

  lemma ConfirmKeepsInv(verify: Verifier, w: World, e: PublicationEvent)
    requires Inv(verify, w) && PublicationEnabled(w, e) && e.ConfirmPublication?
    ensures Inv(verify, PublicationNext(w, e))
  {
    if !e.fails && IsPublished(w.marker, Fg(w).generation) {
      PublishedKeepsInv(verify, w, e);
    }
  }

  lemma PublishedKeepsInv(verify: Verifier, w: World, e: PublicationEvent)
    requires Inv(verify, w) && PublicationEnabled(w, e) && e.ConfirmPublication?
    requires !e.fails && IsPublished(w.marker, Fg(w).generation)
    ensures Inv(verify, PublicationNext(w, e))
  {
  }

  lemma LoadedKeepsInv(verify: Verifier, w: World, fails: bool)
    requires Inv(verify, w) && At(w, Loading)
    ensures Inv(verify, Loaded(w, fails))
  {
  }

  lemma SessionCreatedKeepsInv(verify: Verifier, w: World, ok: bool, session: SessionId, challenge: Challenge)
    requires Inv(verify, w) && PublicationEnabled(w, CreateSession(ok, session, challenge))
    ensures Inv(verify, SessionCreated(w, ok, session, challenge))
  {
  }

  lemma CheckPassedKeepsInv(verify: Verifier, w: World, fails: bool)
    requires Inv(verify, w) && ContainmentEnabled(w, CheckGeneration(fails))
    requires Fg(GenerationChecked(w, fails)).checked
    ensures Inv(verify, GenerationChecked(w, fails))
  {
    var w' := GenerationChecked(w, fails);
    hide Bounded, CredentialsNamed, PreparedUnpermitted, SettlersDone, RecoverySane;
    ForegroundKeepsInv(verify, w, w', Fg(w'));
  }

  lemma CheckFailedKeepsInv(verify: Verifier, w: World, fails: bool)
    requires Inv(verify, w) && ContainmentEnabled(w, CheckGeneration(fails))
    requires !Fg(GenerationChecked(w, fails)).checked
    ensures Inv(verify, GenerationChecked(w, fails))
  {
    var w' := GenerationChecked(w, fails);
    hide Bounded, CredentialsNamed, PreparedUnpermitted, SettlersDone, RecoverySane;
    ForegroundKeepsInv(verify, w, w', Fg(w'));
  }

  lemma ProgressKeepsInv(verify: Verifier, w: World, e: ContainmentEvent)
    requires Inv(verify, w) && ContainmentEnabled(w, e) && (e.Materialize? || e.RefuseRun? || e.Arm?)
    ensures Inv(verify, ContainmentNext(w, e))
  {
    var w' := ContainmentNext(w, e);
    hide Bounded, CredentialsNamed, PreparedUnpermitted, SettlersDone, Concluded, RecoverySane, IsCurrent;
    ForegroundKeepsInv(verify, w, w', Fg(w'));
  }

  lemma ProjectedKeepsInv(verify: Verifier, w: World, ok: bool, leftover: Option<Auth>)
    requires Inv(verify, w) && ContainmentEnabled(w, Project(ok, leftover))
    ensures Inv(verify, Projected(w, ok, leftover))
  {
  }

  lemma SpawnedKeepsInv(verify: Verifier, w: World, preparation: Preparation)
    requires Inv(verify, w) && ContainmentEnabled(w, Spawn(preparation))
    ensures Inv(verify, Spawned(w, preparation))
  {
  }

  lemma SettledKeepsInv(verify: Verifier, w: World, succeeds: bool, accepted: bool, cleanupProven: bool)
    requires Inv(verify, w) && ContainmentEnabled(w, Settle(succeeds, accepted, cleanupProven))
    ensures Inv(verify, Settled(w, succeeds, accepted, cleanupProven))
  {
    LeaseReleaseKeepsInv(verify, w, Fg(w).generation.session);
    var w1 := if cleanupProven then WithRetained(w, Fg(w).generation.session, false) else w;
    var w' := Settled(w, succeeds, accepted, cleanupProven);
    hide Bounded, CredentialsNamed, PreparedUnpermitted, SettlersDone, RecoverySane;
    ForegroundKeepsInv(verify, w1, w', Fg(w'));
  }

  lemma ProvenDecidedKeepsInv(verify: Verifier, w: World)
    requires Inv(verify, w) && ContainmentEnabled(w, Decide) && Fg(w).pc.proven
    ensures Inv(verify, Decided(w))
  {
    var w' := Decided(w);
    hide Bounded, CredentialsNamed, PreparedUnpermitted, SettlersDone, RecoverySane;
    ForegroundKeepsInv(verify, w, w', Fg(w'));
  }

  lemma UnprovenDecidedKeepsInv(verify: Verifier, w: World)
    requires Inv(verify, w) && ContainmentEnabled(w, Decide) && !Fg(w).pc.proven
    ensures Inv(verify, Decided(w))
  {
  }

  lemma RetiringWrittenKeepsInv(verify: Verifier, w: World, fault: Fault, challenge: Challenge)
    requires Inv(verify, w) && ContainmentEnabled(w, WriteMarker(fault, challenge))
    requires Fg(w).pc.Retiring?
    ensures Inv(verify, MarkerWritten(w, fault, challenge))
  {
  }

  lemma UnmarkingWrittenKeepsInv(verify: Verifier, w: World, fault: Fault, challenge: Challenge)
    requires Inv(verify, w) && ContainmentEnabled(w, WriteMarker(fault, challenge))
    requires Fg(w).pc.Unmarking?
    ensures Inv(verify, MarkerWritten(w, fault, challenge))
  {
  }

  lemma AdvancingWrittenKeepsInv(verify: Verifier, w: World, fault: Fault, challenge: Challenge)
    requires Inv(verify, w) && ContainmentEnabled(w, WriteMarker(fault, challenge))
    requires Fg(w).pc.Advancing?
    ensures Inv(verify, MarkerWritten(w, fault, challenge))
  {
  }

  lemma PendingWrittenKeepsInv(verify: Verifier, w: World, fault: Fault, challenge: Challenge)
    requires Inv(verify, w) && ContainmentEnabled(w, WriteMarker(fault, challenge))
    requires Fg(w).pc.Pending?
    ensures Inv(verify, MarkerWritten(w, fault, challenge))
  {
  }

  lemma PermittingWrittenKeepsInv(verify: Verifier, w: World, fault: Fault, challenge: Challenge)
    requires Inv(verify, w) && ContainmentEnabled(w, WriteMarker(fault, challenge))
    requires Fg(w).pc.Permitting?
    ensures Inv(verify, MarkerWritten(w, fault, challenge))
  {
  }

  lemma AbandoningWrittenKeepsInv(verify: Verifier, w: World, fault: Fault, challenge: Challenge)
    requires Inv(verify, w) && ContainmentEnabled(w, WriteMarker(fault, challenge))
    requires Fg(w).pc.Abandoning?
    ensures Inv(verify, MarkerWritten(w, fault, challenge))
  {
  }

  lemma ConcludingWrittenKeepsInv(verify: Verifier, w: World, fault: Fault, challenge: Challenge)
    requires Inv(verify, w) && ContainmentEnabled(w, WriteMarker(fault, challenge))
    requires Fg(w).pc.Concluding? && Written(w.marker, MarkRecoverable, fault).Ok()
    ensures Inv(verify, MarkerWritten(w, fault, challenge))
  {
    var h, w' := Fg(w), MarkerWritten(w, fault, challenge);
    var effect := Written(w.marker, MarkRecoverable, fault);
    assert w' == w.(marker := effect.marker, owner := w'.owner);
    assert Held(w', h) && Rooted(w', h);
    assert ForegroundSane(verify, w', Fg(w'));
  }

  lemma UnconcludedKeepsInv(verify: Verifier, w: World, fault: Fault, challenge: Challenge)
    requires Inv(verify, w) && ContainmentEnabled(w, WriteMarker(fault, challenge))
    requires Fg(w).pc.Concluding? && !Written(w.marker, MarkRecoverable, fault).Ok()
    ensures Inv(verify, MarkerWritten(w, fault, challenge))
  {
  }

  lemma MarkerWrittenKeepsInv(verify: Verifier, w: World, fault: Fault, challenge: Challenge)
    requires Inv(verify, w) && ContainmentEnabled(w, WriteMarker(fault, challenge))
    requires InForeground(w)
    requires Fg(w).pc.Retiring? || Fg(w).pc.Advancing? || Fg(w).pc.Pending? || Fg(w).pc.Permitting?
        || Fg(w).pc.Concluding?
             || Fg(w).pc.Abandoning? || Fg(w).pc.Unmarking?
    ensures Inv(verify, MarkerWritten(w, fault, challenge))
  {
    hide *;
    var pc := Fg(w).pc;
    if pc.Advancing? {
      AdvancingWrittenKeepsInv(verify, w, fault, challenge);
    } else if pc.Pending? {
      PendingWrittenKeepsInv(verify, w, fault, challenge);
    } else if pc.Permitting? {
      PermittingWrittenKeepsInv(verify, w, fault, challenge);
    } else if pc.Concluding? {
      if Written(w.marker, MarkRecoverable, fault).Ok() {
        ConcludingWrittenKeepsInv(verify, w, fault, challenge);
      } else {
        UnconcludedKeepsInv(verify, w, fault, challenge);
      }
    } else if pc.Abandoning? {
      AbandoningWrittenKeepsInv(verify, w, fault, challenge);
    } else if pc.Retiring? {
      RetiringWrittenKeepsInv(verify, w, fault, challenge);
    } else {
      UnmarkingWrittenKeepsInv(verify, w, fault, challenge);
    }
  }

  lemma ContainmentKeepsInv(verify: Verifier, w: World, e: ContainmentEvent)
    requires Inv(verify, w) && ContainmentEnabled(w, e)
    ensures Inv(verify, ContainmentNext(w, e))
  {
    hide Inv;
    match e
    case Project(ok, leftover) => ProjectedKeepsInv(verify, w, ok, leftover);
    case CheckGeneration(fails) =>
      if Fg(GenerationChecked(w, fails)).checked {
        CheckPassedKeepsInv(verify, w, fails);
      } else {
        CheckFailedKeepsInv(verify, w, fails);
      }
    case WriteMarker(fault, challenge) => MarkerWrittenKeepsInv(verify, w, fault, challenge);
    case Spawn(preparation) => SpawnedKeepsInv(verify, w, preparation);
    case Settle(succeeds, accepted, proven) => SettledKeepsInv(verify, w, succeeds, accepted, proven);
    case Decide =>
      if Fg(w).pc.proven {
        ProvenDecidedKeepsInv(verify, w);
      } else {
        UnprovenDecidedKeepsInv(verify, w);
      }
    case _ => ProgressKeepsInv(verify, w, e);
  }

  lemma RecordCommittedKeepsInv(verify: Verifier, w: World, e: ConclusionEvent)
    requires Inv(verify, w) && ConclusionEnabled(w, e) && e.CommitRecord?
    ensures Inv(verify, ConclusionNext(verify, w, e))
  {
    var w' := ConclusionNext(verify, w, e);
    hide Bounded, CredentialsNamed, PreparedUnpermitted, SettlersDone, RecoverySane;
    ForegroundKeepsInv(verify, w, w', Fg(w'));
  }

  /** What status finalization may do, however it looked. */
  lemma StatusVerdictFacts(verify: Verifier, look: Look, held: Record, projected: Option<Auth>, fault: ProviderFault)
    ensures var v := StatusVerdict(Through(look, verify), Some(held), held, Seen(look, projected), fault);
      && v.record.Some? && v.record.value.metadata == held.metadata && !v.disposition.Unset?
      && (v.disposition.Discarded? ==> v.record == Some(held))
      && (v.disposition.Refreshed? ==>
            v.error.None? && v.record.value.auth != held.auth && verify(v.record.value.auth) == Some(held.metadata))
  {
  }

  lemma RecordFinalizedKeepsInv(verify: Verifier, w: World, e: ConclusionEvent)
    requires Inv(verify, w) && ConclusionEnabled(w, e) && e.FinalizeRecord?
    ensures Inv(verify, ConclusionNext(verify, w, e))
  {
    var w' := ConclusionNext(verify, w, e);
    StatusVerdictFacts(verify, e.look, Fg(w).record.value, AuthOf(w, Fg(w).generation.session), e.providerFault);
    hide StatusVerdict, Seen, Through, AuthOf;
    hide Bounded, CredentialsNamed, PreparedUnpermitted, SettlersDone, RecoverySane;
    ForegroundKeepsInv(verify, w, w', Fg(w'));
  }

  /** Removal by the owner: the root goes with its credentials, and a claimed outcome needs no lease left. */
  lemma SessionRemovedKeepsInv(verify: Verifier, w: World, removal: Removal)
    requires Inv(verify, w) && InForeground(w) && Fg(w).pc.Removing?
    requires PossibleRemoval(w, Fg(w).generation.session, removal)
    ensures Inv(verify, SessionRemoved(w, Fg(w).generation.session, removal, Unmarking(Fg(w).pc.report)))
  {
  }

  lemma UnpublishedKeepsInv(verify: Verifier, w: World, removal: Removal)
    requires Inv(verify, w) && InForeground(w) && Fg(w).pc.Unpublishing?
    requires PossibleRemoval(w, Fg(w).generation.session, removal)
    ensures Inv(verify, SessionRemoved(w, Fg(w).generation.session, removal, Releasing(REJECTED)))
  {
  }

  lemma UnownedKeepsInv(verify: Verifier, w: World)
    requires Inv(verify, w)
    ensures Inv(verify, Unowned(w))
  {
  }

  lemma ConclusionKeepsInv(verify: Verifier, w: World, e: ConclusionEvent)
    requires Inv(verify, w) && ConclusionEnabled(w, e)
    ensures Inv(verify, ConclusionNext(verify, w, e))
  {
    hide Inv;
    match e
    case CommitRecord(_, _, _) => RecordCommittedKeepsInv(verify, w, e);
    case FinalizeRecord(_, _, _) => RecordFinalizedKeepsInv(verify, w, e);
    case RemoveSession(removal) => SessionRemovedKeepsInv(verify, w, removal);
    case Release => UnownedKeepsInv(verify, w);
    case CrashOwner => UnownedKeepsInv(verify, w);
  }

  lemma CleanupDoneKeepsInv(verify: Verifier, w: World, x: Settler)
    requires Inv(verify, w) && BackgroundEnabled(w, CleanupDone(x))
    ensures Inv(verify, BackgroundNext(w, CleanupDone(x)))
  {
    LeaseReleaseKeepsInv(verify, w, x.generation.session);
    BystandersKeepInv(verify, WithRetained(w, x.generation.session, false), BackgroundNext(w, CleanupDone(x)));
    hide Inv;
  }

  lemma SettlementKeepsInv(verify: Verifier, w: World, e: SettlerEvent)
    requires Inv(verify, w) && BackgroundEnabled(w, e) && !e.CleanupDone? && !e.CrashSettler?
    ensures Inv(verify, BackgroundNext(w, e))
  {
    hide ForegroundSane, RecoverySane;
  }

  lemma BackgroundKeepsInv(verify: Verifier, w: World, e: SettlerEvent)
    requires Inv(verify, w) && BackgroundEnabled(w, e)
    ensures Inv(verify, BackgroundNext(w, e))
  {
    match e
    case CleanupDone(x) => CleanupDoneKeepsInv(verify, w, x);
    case CrashSettler(x) => BystandersKeepInv(verify, w, BackgroundNext(w, e));
    case _ => SettlementKeepsInv(verify, w, e);
    hide ForegroundSane, RecoverySane, LiveNamed, CredentialsNamed;
  }

  lemma RecoveryFinalizedKeepsInv(verify: Verifier, w: World, e: RecoveryEvent)
    requires Inv(verify, w) && RecoverEnabled(w, e) && e.RecoverFinalizes?
    ensures Inv(verify, RecoverNext(verify, w, e))
  {
  }

  lemma RecoveryRemovedKeepsInv(verify: Verifier, w: World, removal: Removal)
    requires Inv(verify, w) && RecoverEnabled(w, RecoverRemoves(removal))
    ensures Inv(verify, RecoveryRemoved(w, removal))
  {
  }

  lemma RecoveryClearedKeepsInv(verify: Verifier, w: World, registryFails: bool, fault: Fault)
    requires Inv(verify, w) && RecoverEnabled(w, RecoverClears(registryFails, fault))
    ensures Inv(verify, RecoveryCleared(w, registryFails, fault))
  {
  }

  lemma LeaseTakenKeepsInv(verify: Verifier, w: World, lease: Lease)
    requires Inv(verify, w) && RecoverEnabled(w, RecoverTakes(lease))
    ensures Inv(verify, LeaseTaken(w, lease))
  {
  }

  lemma RecoveryCheckedKeepsInv(verify: Verifier, w: World, e: RecoveryEvent)
    requires Inv(verify, w) && RecoverEnabled(w, e) && (e.RecoverChecks? || e.RecoverInspects?)
    ensures Inv(verify, RecoverNext(verify, w, e))
  {
  }

  lemma WaitingKeepsInv(verify: Verifier, w: World, e: RecoveryEvent)
    requires Inv(verify, w) && RecoverEnabled(w, e) && (e.StartWaiting? || e.StopWaiting? || e.RecoverLocks?)
    ensures Inv(verify, RecoverNext(verify, w, e))
  {
    if e.StartWaiting? || e.StopWaiting? { BystandersKeepInv(verify, w, RecoverNext(verify, w, e)); }
    hide ForegroundSane, RecoverySane, LiveNamed, CredentialsNamed;
  }

  lemma RecoveryProvedKeepsInv(verify: Verifier, w: World, e: RecoveryEvent)
    requires Inv(verify, w) && RecoverEnabled(w, e) && e.RecoverProves?
    ensures Inv(verify, RecoverNext(verify, w, e))
  {
    var w' := RecoverNext(verify, w, e);
    hide Bounded, CredentialsNamed, PreparedUnpermitted, SettlersDone, ForegroundSane;
    RecoveryKeepsInv(verify, w, w', Rec(w'));
  }

  lemma RecoverKeepsInv(verify: Verifier, w: World, e: RecoveryEvent)
    requires Inv(verify, w) && RecoverEnabled(w, e)
    ensures Inv(verify, RecoverNext(verify, w, e))
  {
    hide Inv;
    match e
    case RecoverChecks(_) => RecoveryCheckedKeepsInv(verify, w, e);
    case RecoverInspects(_) => RecoveryCheckedKeepsInv(verify, w, e);
    case RecoverProves(_) => RecoveryProvedKeepsInv(verify, w, e);
    case RecoverTakes(lease) => LeaseTakenKeepsInv(verify, w, lease);
    case RecoverFinalizes(_, _, _) => RecoveryFinalizedKeepsInv(verify, w, e);
    case RecoverRemoves(removal) => RecoveryRemovedKeepsInv(verify, w, removal);
    case RecoverClears(registryFails, fault) => RecoveryClearedKeepsInv(verify, w, registryFails, fault);
    case _ => WaitingKeepsInv(verify, w, e);
  }

  lemma LogoutKeepsInv(verify: Verifier, w: World, e: LogoutEvent)
    requires Inv(verify, w) && LogoutEnabled(w, e)
    ensures Inv(verify, LogoutNext(w, e))
  {
  }

  lemma ProcessKeepsInv(verify: Verifier, w: World, e: ProcessEvent)
    requires Inv(verify, w) && ProcessEnabled(w, e)
    ensures Inv(verify, ProcessNext(w, e))
  {
  }

  /** Every step keeps the invariant. */
  lemma NextKeepsInv(verify: Verifier, w: World, e: Event)
    requires Inv(verify, w) && Enabled(w, e)
    ensures Inv(verify, Next(verify, w, e))
  {
    hide Inv;
    match e
    case Publication(x) => PublicationKeepsInv(verify, w, x);
    case Containment(x) => ContainmentKeepsInv(verify, w, x);
    case Conclusion(x) => ConclusionKeepsInv(verify, w, x);
    case Background(x) => BackgroundKeepsInv(verify, w, x);
    case Recover(x) => RecoverKeepsInv(verify, w, x);
    case Logout(x) => LogoutKeepsInv(verify, w, x);
    case Process(x) => ProcessKeepsInv(verify, w, x);
  }
}
