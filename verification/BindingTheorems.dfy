/**
 What the quarantine protocol guarantees over every run: any interleaving of
 foreground operations, settlers, recoveries, logouts and contained processes,
 with a crash or an uncertain write at any step.
 */
module BindingTheorems {
  import opened Options
  import opened Quarantine
  import opened CredentialStore
  import opened BindingProtocol
  import opened BindingInvariant

  predicate Steps(verify: Verifier, ws: seq<World>, es: seq<Event>) {
    |ws| == |es| + 1 && forall i | 0 <= i < |es| :: Step(verify, ws[i], es[i], ws[i + 1])
  }

  predicate Run(verify: Verifier, ws: seq<World>, es: seq<Event>) {
    Steps(verify, ws, es) && Init(ws[0])
  }

  lemma RunLength(verify: Verifier, ws: seq<World>, es: seq<Event>)
    requires Run(verify, ws, es)
    ensures |ws| == |es| + 1
  {
  }

  lemma {:induction false} RunsKeepInv(verify: Verifier, ws: seq<World>, es: seq<Event>, i: nat)
    requires Run(verify, ws, es) && i < |ws|
    ensures Inv(verify, ws[i])
  {
    if i > 0 {
      RunsKeepInv(verify, ws, es, i - 1);
      assert Step(verify, ws[i - 1], es[i - 1], ws[i]);
      NextKeepsInv(verify, ws[i - 1], es[i - 1]);
    }
  }

  /**
   Process safety. At every instant of every run a process tree that may be alive
   is named by the marker as the pending generation, without refresh permission.
   */
  lemma LiveProcessIsNamed(verify: Verifier, ws: seq<World>, es: seq<Event>, i: nat, g: Generation)
    requires Run(verify, ws, es) && i < |ws| && g in ws[i].live
    ensures ws[i].marker == Some(Marker(g.session, CleanupPending, g.challenge, false))
  {
    RunsKeepInv(verify, ws, es, i);
  }

  /** The marker a step may change: the generation its actor captured. */
  function Captured(w: World): Option<Generation> {
    match w.owner
    case Some(Foreground(h)) => Some(h.generation)
    case Some(Settlement(s)) => Some(s.generation)
    case Some(Recovery(h)) => Some(Generation(h.snapshot.session, h.snapshot.challenge))
    case _ => None
  }

  /**
   A step over a marker leaves it, advances it within its Session, or deletes it; over
   no marker it publishes a prepared one.
   */
  predicate MarkerStep(w: World, w': World) {
    w'.marker == w.marker ||
    match w.marker
    case None =>
      && w'.marker.Some? && w'.marker.value.phase.Prepared? && !w'.marker.value.refreshAllowed
      && Captured(w) == Some(Generation(w'.marker.value.session, w'.marker.value.challenge))
    case Some(m) =>
      && Captured(w) == Some(Generation(m.session, m.challenge))
      && (w'.marker.Some? ==> w'.marker.value.session == m.session)
  }

  lemma PublicationMarkerStep(verify: Verifier, w: World, e: PublicationEvent)
    requires Inv(verify, w) && PublicationEnabled(w, e)
    ensures MarkerStep(w, PublicationNext(w, e))
  {
  }

  lemma ContainmentMarkerStep(verify: Verifier, w: World, e: ContainmentEvent)
    requires Inv(verify, w) && ContainmentEnabled(w, e)
    ensures MarkerStep(w, ContainmentNext(w, e))
  {
  }

  lemma OtherMarkerStep(verify: Verifier, w: World, e: Event)
    requires Inv(verify, w) && Enabled(w, e) && !e.Publication? && !e.Containment?
    ensures MarkerStep(w, Next(verify, w, e))
  {
  }

  lemma NextMarkerStep(verify: Verifier, w: World, e: Event)
    requires Inv(verify, w) && Enabled(w, e)
    ensures MarkerStep(w, Next(verify, w, e))
  {
    hide Inv, MarkerStep;
    hide PublicationEnabled, ContainmentEnabled, ConclusionEnabled, BackgroundEnabled, RecoverEnabled, LogoutEnabled,
      ProcessEnabled;
    hide PublicationNext, ContainmentNext, ConclusionNext, BackgroundNext, RecoverNext, LogoutNext, ProcessNext;
    match e
    case Publication(x) => PublicationMarkerStep(verify, w, x);
    case Containment(x) => ContainmentMarkerStep(verify, w, x);
    case _ => OtherMarkerStep(verify, w, e);
  }

  /**
   Generation safety. No step changes or deletes a marker of a generation its
   actor did not capture: a late settler, a binding stranded by an uncertain
   write, and a recovery that waited all leave a newer marker alone.
   */
  lemma OnlyCapturedGenerationsChange(verify: Verifier, ws: seq<World>, es: seq<Event>, i: nat)
    requires Run(verify, ws, es) && i < |es|
    ensures MarkerStep(ws[i], ws[i + 1])
  {
    RunsKeepInv(verify, ws, es, i);
    assert Step(verify, ws[i], es[i], ws[i + 1]);
    NextMarkerStep(verify, ws[i], es[i]);
    hide Inv, Enabled, Next, MarkerStep;
  }

  /** What a step may do to Session roots. */
  predicate RootStep(w: World, w': World) {
    && (forall s | s in w.sessions && s !in w'.sessions :: forall g | g in w.live :: g.session != s)
    && (w.marker.Some? ==> w'.sessions.Keys <= w.sessions.Keys)
  }

  /** What a step may do to the record, apart from its content. */
  predicate RecordStep(verify: Verifier, w: World, w': World) {
    w'.record != w.record ==>
      && w.live == {}
      && (w.record.Some? && w'.record.Some? ==> w'.record.value.metadata == w.record.value.metadata)
      && (w'.record.None? ==> w.marker.None?)
      && (w.record.None? ==>
           w.marker.Some? && w'.record.Some? && verify(w'.record.value.auth) == Some(w'.record.value.metadata))
  }

  lemma PublicationRootAndRecordStep(verify: Verifier, w: World, e: PublicationEvent)
    requires Inv(verify, w) && PublicationEnabled(w, e)
    ensures RootStep(w, PublicationNext(w, e)) && RecordStep(verify, w, PublicationNext(w, e))
  {
  }

  lemma ContainmentRootAndRecordStep(verify: Verifier, w: World, e: ContainmentEvent)
    requires Inv(verify, w) && ContainmentEnabled(w, e)
    ensures RootStep(w, ContainmentNext(w, e)) && RecordStep(verify, w, ContainmentNext(w, e))
  {
  }

  lemma ConclusionRootAndRecordStep(verify: Verifier, w: World, e: ConclusionEvent)
    requires Inv(verify, w) && ConclusionEnabled(w, e)
    ensures RootStep(w, ConclusionNext(verify, w, e)) && RecordStep(verify, w, ConclusionNext(verify, w, e))
  {
  }

  lemma RecoverRootAndRecordStep(verify: Verifier, w: World, e: RecoveryEvent)
    requires Inv(verify, w) && RecoverEnabled(w, e)
    ensures RootStep(w, RecoverNext(verify, w, e)) && RecordStep(verify, w, RecoverNext(verify, w, e))
  {
    hide ForegroundSane;
  }

  lemma OtherRootAndRecordStep(verify: Verifier, w: World, e: Event)
    requires Inv(verify, w) && Enabled(w, e) && (e.Background? || e.Logout? || e.Process?)
    ensures RootStep(w, Next(verify, w, e)) && RecordStep(verify, w, Next(verify, w, e))
  {
    hide ForegroundSane, RecoverySane;
  }

  lemma NextRootAndRecordStep(verify: Verifier, w: World, e: Event)
    requires Inv(verify, w) && Enabled(w, e)
    ensures RootStep(w, Next(verify, w, e)) && RecordStep(verify, w, Next(verify, w, e))
  {
    hide Inv, RootStep, RecordStep;
    hide PublicationEnabled, ContainmentEnabled, ConclusionEnabled, BackgroundEnabled, RecoverEnabled, LogoutEnabled,
      ProcessEnabled;
    hide PublicationNext, ContainmentNext, ConclusionNext, BackgroundNext, RecoverNext, LogoutNext, ProcessNext;
    match e
    case Publication(x) => PublicationRootAndRecordStep(verify, w, x);
    case Containment(x) => ContainmentRootAndRecordStep(verify, w, x);
    case Conclusion(x) => ConclusionRootAndRecordStep(verify, w, x);
    case Recover(x) => RecoverRootAndRecordStep(verify, w, x);
    case _ => OtherRootAndRecordStep(verify, w, e);
  }

  /**
   Nothing removes a Session root with a live process tree, and over an existing
   marker no root is created. The record changes only while no tree is live: it is
   created verified over a marker, keeps its metadata, and is deleted only without
   a marker.
   */
  lemma RootsAndRecordsChangeSafely(verify: Verifier, ws: seq<World>, es: seq<Event>, i: nat)
    requires Run(verify, ws, es) && i < |es|
    ensures RootStep(ws[i], ws[i + 1]) && RecordStep(verify, ws[i], ws[i + 1])
  {
    RunsKeepInv(verify, ws, es, i);
    assert Step(verify, ws[i], es[i], ws[i + 1]);
    NextRootAndRecordStep(verify, ws[i], es[i]);
    hide Inv, Enabled, Next, RootStep, RecordStep;
  }

  /**
   Credential custody. At every instant a root that holds credentials is the one
   the marker names, and while a marker exists no operation is past its inspection
   without owning that marker, and no logout is about to delete the record.
   */
  lemma CredentialsAreNamed(verify: Verifier, ws: seq<World>, es: seq<Event>, i: nat, session: SessionId)
    requires Run(verify, ws, es) && i < |ws|
    ensures AuthOf(ws[i], session).Some? ==> ws[i].marker.Some? && ws[i].marker.value.session == session
    ensures ws[i].marker.Some? ==>
              && ws[i].owner != Some(LoggingOut(true))
              && !At(ws[i], Loading) && !At(ws[i], Preparing) && !At(ws[i], Publishing)
  {
    RunsKeepInv(verify, ws, es, i);
  }

  /** Metadata of a record is fixed from its creation until it is deleted. */
  lemma {:induction false} MetadataIsStable(verify: Verifier, ws: seq<World>, es: seq<Event>, i: nat, j: nat)
    requires Run(verify, ws, es) && i <= j < |ws|
    requires forall k | i <= k <= j :: ws[k].record.Some?
    ensures ws[i].record.value.metadata == ws[j].record.value.metadata
    decreases j
  {
    hide Run;
    RunLength(verify, ws, es);
    if i < j {
      MetadataIsStable(verify, ws, es, i, j - 1);
      RecordKeepsMetadata(verify, ws, es, j - 1);
    }
  }

  lemma RecordKeepsMetadata(verify: Verifier, ws: seq<World>, es: seq<Event>, i: nat)
    requires Run(verify, ws, es) && i < |es| && ws[i].record.Some? && ws[i + 1].record.Some?
    ensures ws[i + 1].record.value.metadata == ws[i].record.value.metadata
  {
    hide Run, RootStep;
    RootsAndRecordsChangeSafely(verify, ws, es, i);
  }

  /** The record an operation holds is the one stored when it was loaded, earlier in the same operation. */
  lemma {:induction false} HeldRecordWasLoaded(verify: Verifier, ws: seq<World>, es: seq<Event>, i: nat)
      returns (a: nat)
    requires Run(verify, ws, es) && i < |ws|
    requires InForeground(ws[i]) && Fg(ws[i]).record.Some?
    ensures a < i && es[a] == Publication(LoadRecord(false)) && ws[a].record == Fg(ws[i]).record
    ensures forall k | a < k < i :: InForeground(ws[k])
    decreases i
  {
    assert Step(verify, ws[i - 1], es[i - 1], ws[i]);
    RunsKeepInv(verify, ws, es, i - 1);
    ForegroundKeepsRecord(verify, ws[i - 1], es[i - 1]);
    if es[i - 1] == Publication(LoadRecord(false)) {
      a := i - 1;
    } else {
      a := HeldRecordWasLoaded(verify, ws, es, i - 1);
    }
  }

  predicate KeepsRecord(w: World, e: Event, w': World) {
    InForeground(w') && Fg(w').record.Some? ==>
      && InForeground(w)
      && if e == Publication(LoadRecord(false)) then w.record == Fg(w').record else Fg(w).record == Fg(w').record
  }

  lemma PublicationKeepsRecord(verify: Verifier, w: World, e: PublicationEvent)
    requires Inv(verify, w) && PublicationEnabled(w, e)
    ensures KeepsRecord(w, Publication(e), PublicationNext(w, e))
  {
  }

  lemma ContainmentKeepsRecord(verify: Verifier, w: World, e: ContainmentEvent)
    requires ContainmentEnabled(w, e)
    ensures KeepsRecord(w, Containment(e), ContainmentNext(w, e))
  {
    hide Written, Deleted;
  }

  lemma OtherKeepsRecord(verify: Verifier, w: World, e: Event)
    requires Enabled(w, e) && !e.Publication? && !e.Containment?
    ensures KeepsRecord(w, e, Next(verify, w, e))
  {
    hide Written, Deleted;
  }

  lemma ForegroundKeepsRecord(verify: Verifier, w: World, e: Event)
    requires Inv(verify, w) && Enabled(w, e)
    ensures KeepsRecord(w, e, Next(verify, w, e))
  {
    hide Inv, KeepsRecord;
    match e
    case Publication(x) => PublicationKeepsRecord(verify, w, x);
    case Containment(x) => ContainmentKeepsRecord(verify, w, x);
    case _ => OtherKeepsRecord(verify, w, e);
  }

  /**
   Truth of a status or launch report, between the world where the operation loaded
   the record and the world where it returns. A discarded projection left the record
   unchanged, a committed refresh replaced it under equal metadata by a verified
   credential, both with root and marker gone; an operation without error reports
   one of the two.
   */
  lemma ReportsAreTrue(verify: Verifier, ws: seq<World>, es: seq<Event>, i: nat, report: Report) returns (a: nat)
    requires Run(verify, ws, es) && i < |ws|
    requires At(ws[i], Releasing(report)) && !Fg(ws[i]).kind.Login?
    requires !report.failed || report.disposition.Discarded? || report.disposition.Refreshed?
    ensures report.disposition.Discarded? || report.disposition.Refreshed?
    ensures a < i && es[a] == Publication(LoadRecord(false)) && forall k | a < k < i :: InForeground(ws[k])
    ensures ws[i].marker.None? && Fg(ws[i]).generation.session !in ws[i].sessions
    ensures ws[a].record.Some? && ws[i].record.Some?
    ensures report.disposition.Discarded? ==> ws[i].record == ws[a].record
    ensures report.disposition.Refreshed? ==>
              && ws[i].record.value.metadata == ws[a].record.value.metadata
              && ws[i].record.value.auth != ws[a].record.value.auth
              && verify(ws[i].record.value.auth) == Some(ws[a].record.value.metadata)
  {
    RunsKeepInv(verify, ws, es, i);
    a := HeldRecordWasLoaded(verify, ws, es, i);
  }

  /** A login without error stored a verified record, and left neither root nor marker. */
  lemma LoginsAreTrue(verify: Verifier, ws: seq<World>, es: seq<Event>, i: nat, report: Report)
    requires Run(verify, ws, es) && i < |ws|
    requires At(ws[i], Releasing(report)) && Fg(ws[i]).kind.Login? && !report.failed
    ensures ws[i].marker.None? && Fg(ws[i]).generation.session !in ws[i].sessions
    ensures ws[i].record.Some? && verify(ws[i].record.value.auth) == Some(ws[i].record.value.metadata)
  {
    RunsKeepInv(verify, ws, es, i);
  }

  /** The operation's own process, after the version probe. */
  predicate InCommand(pc: Pc) {
    (pc.Advancing? || pc.Arming? || pc.Pending? || pc.Spawning? || pc.Running?) && pc.round.Command?
  }

  predicate ProbeAccepted(w: World, e: Event) {
    At(w, Running(Probe)) && e == Containment(Settle(true, true, true))
  }

  lemma CallsInCommand(w: World, e: ContainmentEvent)
    requires ContainmentEnabled(w, e) && InForeground(ContainmentNext(w, e)) && InCommand(Fg(ContainmentNext(w, e)).pc)
    ensures InCommand(Fg(w).pc) || ProbeAccepted(w, Containment(e))
  {
    hide Written, Deleted, IsCurrent;
  }

  lemma NextInCommand(verify: Verifier, w: World, e: Event)
    requires Enabled(w, e) && InForeground(Next(verify, w, e)) && InCommand(Fg(Next(verify, w, e)).pc)
    ensures InForeground(w) && (InCommand(Fg(w).pc) || ProbeAccepted(w, e))
  {
    hide Written, Deleted, Created, StatusVerdict, RecoveryVerdict, Committed, Seen, Through, ContainmentNext;
    if e.Containment? { CallsInCommand(w, e.containment); }
  }

  /** No operation contains its own process before the version probe of the same operation ran and was accepted. */
  lemma {:induction false} CommandsFollowAProbe(verify: Verifier, ws: seq<World>, es: seq<Event>, i: nat)
      returns (a: nat)
    requires Run(verify, ws, es) && i < |ws| && InForeground(ws[i]) && InCommand(Fg(ws[i]).pc)
    ensures a < i && ProbeAccepted(ws[a], es[a]) && forall k | a < k < i :: InForeground(ws[k])
  {
    hide Next, Enabled, InCommand, ProbeAccepted;
    assert i > 0;
    assert Step(verify, ws[i - 1], es[i - 1], ws[i]);
    NextInCommand(verify, ws[i - 1], es[i - 1]);
    if ProbeAccepted(ws[i - 1], es[i - 1]) {
      a := i - 1;
    } else {
      a := CommandsFollowAProbe(verify, ws, es, i - 1);
    }
  }

  /** The marker names the root, and the root is there. */
  predicate Kept(w: World, session: SessionId) { Named(w, session) && session in w.sessions }

  predicate Keeping(w: World) {
    InForeground(w) ==> (Fg(w).pc.Retiring? || Fg(w).pc == Releasing(UNCERTAIN)) && Kept(w, Fg(w).generation.session)
  }

  lemma NextKeeping(verify: Verifier, w: World, e: Event)
    requires Inv(verify, w) && InForeground(w) && Keeping(w) && Enabled(w, e)
    ensures Keeping(Next(verify, w, e))
    ensures InForeground(Next(verify, w, e)) ==> Fg(Next(verify, w, e)).generation == Fg(w).generation
  {
    hide RecoverySane, LiveNamed, CredentialsNamed, SettlersDone, Bounded;
  }

  /**
   A publication that took effect but reported failure is left to recovery: once the
   Session is protected, the operation that published removes neither the root nor the
   marker that names it, and returns an uncertain result.
   */
  lemma {:induction false} UncertainPublicationIsKept(verify: Verifier, ws: seq<World>, es: seq<Event>, a: nat, b: nat)
    requires Run(verify, ws, es) && a < b < |ws| && es[a] == Publication(ConfirmPublication(false, true))
    requires forall k | a < k <= b :: InForeground(ws[k])
    requires ws[a].marker.Some?
    ensures (Fg(ws[b]).pc.Retiring? || Fg(ws[b]).pc == Releasing(UNCERTAIN)) && InForeground(ws[a])
    ensures Kept(ws[b], Fg(ws[a]).generation.session) && Fg(ws[b]).generation == Fg(ws[a]).generation
    decreases b
  {
    hide Inv, Init, Next, Keeping;
    RunsKeepInv(verify, ws, es, b - 1);
    assert Step(verify, ws[b - 1], es[b - 1], ws[b]);
    if b == a + 1 {
      ConfirmsKeeping(verify, ws[a]);
    } else {
      UncertainPublicationIsKept(verify, ws, es, a, b - 1);
      KeepingIs(ws[b - 1]);
      NextKeeping(verify, ws[b - 1], es[b - 1]);
    }
    KeepingIs(ws[b]);
  }

  lemma KeepingIs(w: World)
    requires InForeground(w)
    ensures Keeping(w) <==>
              (Fg(w).pc.Retiring? || Fg(w).pc == Releasing(UNCERTAIN)) && Kept(w, Fg(w).generation.session)
  {
  }

  lemma ConfirmsKeeping(verify: Verifier, w: World)
    requires Inv(verify, w) && w.marker.Some? && Enabled(w, Publication(ConfirmPublication(false, true)))
    ensures var w' := Next(verify, w, Publication(ConfirmPublication(false, true)));
      InForeground(w') && Keeping(w') && Fg(w').generation == Fg(w).generation
  {
  }

  /** The record was replaced by a verified credential under equal metadata. */
  predicate Renewed(verify: Verifier, base: Option<Record>, record: Option<Record>) {
    && base.Some? && record.Some? && record.value.metadata == base.value.metadata
    && record.value.auth != base.value.auth && verify(record.value.auth) == Some(base.value.metadata)
  }

  /**
   What a disposition says about the record, against the one a recovery found; one that
   says nothing leaves open which.
   */
  predicate Tells(verify: Verifier, disposition: Disposition, base: Option<Record>, record: Option<Record>) {
    && (disposition.Discarded? ==> record == base)
    && (disposition.Refreshed? ==> Renewed(verify, base, record))
    && (record == base || Renewed(verify, base, record))
  }

  predicate Recovers(w: World) { w.owner.Some? && (w.owner.value.Observing? || w.owner.value.Recovery?) }

  /** Until a recovery finalizes, the record is the one it found when it took the lock; after that, its report tells. */
  predicate RecoveredFrom(verify: Verifier, base: Option<Record>, w: World)
    requires Recovers(w)
  {
    if w.owner.value.Observing? then w.record == base
    else
      match Rec(w).at
      case Discarding(report) => Tells(verify, report.disposition, base, w.record)
      case Clearing(report) => Tells(verify, report.disposition, base, w.record)
      case Leaving(report) => Tells(verify, report.disposition, base, w.record)
      case _ => w.record == base
  }

  lemma RecoveryVerdictTells(verify: Verifier, look: Look, stored: Option<Record>, permitted: bool,
      projected: Option<Auth>, fault: ProviderFault)
    ensures var v := RecoveryVerdict(Through(look, verify), stored, permitted, Seen(look, projected), fault);
      Tells(verify, v.disposition, stored, v.record)
  {
  }

  lemma RecoverStepTells(verify: Verifier, base: Option<Record>, w: World, e: RecoveryEvent)
    requires RecoverEnabled(w, e) && Recovers(w) && RecoveredFrom(verify, base, w)
        && Recovers(RecoverNext(verify, w, e))
    ensures RecoveredFrom(verify, base, RecoverNext(verify, w, e))
  {
    if e.RecoverFinalizes? {
      RecoveryVerdictTells(verify, e.look, w.record, Rec(w).snapshot.refreshAllowed, AuthOf(w, Rec(w).snapshot.session),
        e.providerFault);
    }
    hide RecoveryVerdict, Seen, Through, Deleted, Dropped;
  }

  lemma RecoveryStepTells(verify: Verifier, base: Option<Record>, w: World, e: Event)
    requires Enabled(w, e) && Recovers(Next(verify, w, e))
    requires Recovers(w) ==> RecoveredFrom(verify, base, w)
    ensures Recovers(w) ==> RecoveredFrom(verify, base, Next(verify, w, e))
    ensures !Recovers(w) ==> e.Recover? && e.recovery.RecoverLocks? && Next(verify, w, e).record == w.record
  {
    hide Tells, StatusVerdict, Committed, Seen, Through, Written, Deleted;
    if e.Recover? && Recovers(w) { RecoverStepTells(verify, base, w, e.recovery); }
  }

  /** A recovery under way took the lock earlier, and what it has told since is about the record it then found. */
  lemma {:induction false} RecoveryBegan(verify: Verifier, ws: seq<World>, es: seq<Event>, i: nat) returns (a: nat)
    requires Run(verify, ws, es) && i < |ws| && Recovers(ws[i])
    ensures a < i && es[a].Recover? && es[a].recovery.RecoverLocks?
    ensures forall k | a < k <= i :: Recovers(ws[k])
    ensures RecoveredFrom(verify, ws[a].record, ws[i])
    decreases i
  {
    hide RecoveredFrom, Inv, Enabled, Next;
    assert i > 0 by { hide Enabled; }
    assert Step(verify, ws[i - 1], es[i - 1], ws[i]);
    if Recovers(ws[i - 1]) {
      a := RecoveryBegan(verify, ws, es, i - 1);
      RecoveryStepTells(verify, ws[a].record, ws[i - 1], es[i - 1]);
    } else {
      a := i - 1;
      RecoveryStepTells(verify, ws[a].record, ws[a], es[a]);
      RecoveryOpens(verify, ws[a], es[a]);
    }
  }

  lemma RecoveryOpens(verify: Verifier, w: World, e: Event)
    requires Enabled(w, e) && e.Recover? && e.recovery.RecoverLocks?
    ensures Recovers(Next(verify, w, e)) && RecoveredFrom(verify, w.record, Next(verify, w, e))
  {
  }

  /**
   Truth of a recovery's report, between the world where it took the lock and the
   world where it leaves. An outcome is claimed only with the captured root and the
   marker gone; a discarded projection left the record that the recovery found, and a
   refresh replaced it under equal metadata by a verified credential.
   */
  lemma RecoveriesAreTrue(verify: Verifier, ws: seq<World>, es: seq<Event>, i: nat, report: Report) returns (a: nat)
    requires Run(verify, ws, es) && i < |ws|
    requires InRecovery(ws[i]) && Rec(ws[i]).at == Leaving(report)
    requires !report.failed || report.disposition.Discarded? || report.disposition.Refreshed?
    ensures ws[i].marker.None? && Rec(ws[i]).snapshot.session !in ws[i].sessions
    ensures a < i && es[a].Recover? && es[a].recovery.RecoverLocks? && forall k | a < k <= i :: Recovers(ws[k])
    ensures Tells(verify, report.disposition, ws[a].record, ws[i].record)
  {
    RunsKeepInv(verify, ws, es, i);
    a := RecoveryBegan(verify, ws, es, i);
  }
}
