/**
 What recovery, settlement and logout do when nothing fails: a recovery leaves the
 record its quarantined file calls for and neither root nor marker, and always can
 unless a process tree it may not interrupt is unproven.
 */
module BindingRecovery {
  import opened Options
  import opened Quarantine
  import opened CredentialStore
  import opened BindingProtocol
  import opened BindingInvariant
  import opened BindingTheorems

  /** The recovering owner's calls succeed; whatever else happens is free. */
  predicate FailsNowhere(e: Event) {
    match e
    case Recover(x) => RecoverySucceeds(x)
    case Conclusion(_) => false
    case _ => true
  }

  predicate RecoverySucceeds(e: RecoveryEvent) {
    match e
    case RecoverInspects(fails) => !fails
    case RecoverTakes(lease) => lease.Taken? || lease.Missing?
    case RecoverProves(proven) => proven
    case RecoverChecks(fails) => !fails
    case RecoverFinalizes(unavailable, look, fault) => !unavailable && look.Faithful? && fault.Done?
    case RecoverRemoves(removal) => removal.Removed?
    case RecoverClears(registryFails, fault) => !registryFails && fault.NoFault?
    case _ => true
  }

  /**
   What a recovery of marker `m` must leave as the record, and report, when the named
   root held `file`: another credential of the same identity is stored if the marker
   allows a refresh, one of another identity is an error, and anything else is dropped.
   */
  predicate Recovered(verify: Verifier, m: Marker, base: Option<Record>, file: Option<Auth>, record: Option<Record>,
      report: Report)
  {
    if m.refreshAllowed && base.Some? && file.Some? && file.value != base.value.auth then
      if verify(file.value) == Some(base.value.metadata)
      then record == Some(Record(base.value.metadata, file.value)) && report == Report(Refreshed, false)
      else record == base && report == Report(Discarded, true)
    else record == base && report == Report(Discarded, false)
  }

  predicate Untouched(w: World, m: Marker, base: Option<Record>, file: Option<Auth>) {
    w.marker == Some(m) && w.record == base && (m.refreshAllowed ==> AuthOf(w, m.session) == file)
  }

  /** A recovery that nothing has failed yet. */
  predicate Unfailed(verify: Verifier, w: World, m: Marker, base: Option<Record>, file: Option<Auth>) {
    match w.owner
    case Some(Observing(expected)) => (expected.Some? ==> expected.value == m) && Untouched(w, m, base, file)
    case Some(Recovery(h)) => h.snapshot == m && UnfailedAt(verify, w, h.at, m, base, file)
    case _ => false
  }

  predicate UnfailedAt(verify: Verifier, w: World, at: RecoveryPc, m: Marker, base: Option<Record>,
      file: Option<Auth>)
  {
    match at
    case Taking => Untouched(w, m, base, file)
    case Proving => m.phase.CleanupPending? && Untouched(w, m, base, file)
    case Restoring => Untouched(w, m, base, file)
    case Discarding(report) => w.marker == Some(m) && Recovered(verify, m, base, file, w.record, report)
    case Clearing(report) =>
      w.marker == Some(m) && m.session !in w.sessions && Recovered(verify, m, base, file, w.record, report)
    case Leaving(report) =>
      w.marker.None? && m.session !in w.sessions && Recovered(verify, m, base, file, w.record, report)
  }

  lemma RecoverStaysUnfailed(verify: Verifier, w: World, e: RecoveryEvent, m: Marker, base: Option<Record>,
      file: Option<Auth>)
    requires Inv(verify, w) && Unfailed(verify, w, m, base, file) && RecoverEnabled(w, e) && RecoverySucceeds(e)
    ensures Unfailed(verify, RecoverNext(verify, w, e), m, base, file)
  {
    hide ForegroundSane, LiveNamed, CredentialsNamed, SettlersDone, Bounded;
  }

  lemma ProcessStaysUnfailed(verify: Verifier, w: World, e: ProcessEvent, m: Marker, base: Option<Record>,
      file: Option<Auth>)
    requires Inv(verify, w) && Unfailed(verify, w, m, base, file) && ProcessEnabled(w, e)
    ensures Unfailed(verify, ProcessNext(w, e), m, base, file)
  {
    hide Recovered, ForegroundSane, RecoverySane, CredentialsNamed, SettlersDone, Bounded;
  }

  lemma BackgroundStaysUnfailed(verify: Verifier, w: World, e: SettlerEvent, m: Marker, base: Option<Record>,
      file: Option<Auth>)
    requires Unfailed(verify, w, m, base, file) && BackgroundEnabled(w, e)
    ensures Unfailed(verify, BackgroundNext(w, e), m, base, file)
  {
    hide Recovered;
  }

  lemma NextStaysUnfailed(verify: Verifier, w: World, e: Event, m: Marker, base: Option<Record>, file: Option<Auth>)
    requires Inv(verify, w) && Unfailed(verify, w, m, base, file) && Enabled(w, e) && FailsNowhere(e)
    ensures Unfailed(verify, Next(verify, w, e), m, base, file)
  {
    if e.Recover? {
      RecoverStaysUnfailed(verify, w, e.recovery, m, base, file);
    } else if e.Process? {
      ProcessStaysUnfailed(verify, w, e.process, m, base, file);
    } else if e.Background? {
      BackgroundStaysUnfailed(verify, w, e.background, m, base, file);
    }
  }

  /** A recovery takes the lock; one that waited comes for the marker it saw. */
  predicate LocksFor(e: Event, m: Marker) {
    e.Recover? && e.recovery.RecoverLocks? && (e.recovery.expected.Some? ==> e.recovery.expected.value == m)
  }

  lemma {:induction false} StaysUnfailed(verify: Verifier, ws: seq<World>, es: seq<Event>, a: nat, b: nat, m: Marker)
    requires Run(verify, ws, es) && a < b <= |es| && LocksFor(es[a], m) && ws[a].marker == Some(m)
    requires forall k | a < k < b :: FailsNowhere(es[k])
    ensures Unfailed(verify, ws[b], m, ws[a].record, AuthOf(ws[a], m.session))
    decreases b
  {
    hide Inv, Init, UnfailedAt, FailsNowhere, Enabled;
    RunsKeepInv(verify, ws, es, b - 1);
    assert Step(verify, ws[b - 1], es[b - 1], ws[b]);
    if b > a + 1 {
      StaysUnfailed(verify, ws, es, a, b - 1, m);
      NextStaysUnfailed(verify, ws[b - 1], es[b - 1], m, ws[a].record, AuthOf(ws[a], m.session));
    }
  }

  /**
   A recovery that nothing fails leaves the record that the file in the quarantined
   root called for when it took the lock, with root and marker gone, and says so.
   */
  lemma RecoveriesSucceed(verify: Verifier, ws: seq<World>, es: seq<Event>, a: nat, b: nat, m: Marker, report: Report)
    requires Run(verify, ws, es) && a < b <= |es| && LocksFor(es[a], m) && ws[a].marker == Some(m)
    requires forall k | a < k < b :: FailsNowhere(es[k])
    requires InRecovery(ws[b]) && Rec(ws[b]).at == Leaving(report)
    ensures Recovered(verify, m, ws[a].record, AuthOf(ws[a], m.session), ws[b].record, report)
    ensures ws[b].marker.None? && m.session !in ws[b].sessions
  {
    StaysUnfailed(verify, ws, es, a, b, m);
    hide Recovered, Run;
  }

  // ----- a recovery can always succeed

  /** A pending marker needs the proof that its process tree is over. */
  predicate Provable(w: World, m: Marker) { m.phase.CleanupPending? ==> m.challenge in w.ended }

  predicate Resting(w: World) { InRecovery(w) && Rec(w).at.Leaving? }

  function Distance(w: World): nat {
    if InRecovery(w) then
      match Rec(w).at
      case Taking => 10
      case Proving => 8
      case Restoring => 7 - Once(Rec(w).checked)
      case Discarding(_) => 5
      case Clearing(_) => 3 - Once(Rec(w).checked)
      case Leaving(_) => 0
    else 12
  }

  function Once(checked: bool): nat { if checked then 1 else 0 }

  /** The next event of a recovery in which nothing fails. */
  function Onward(w: World): RecoveryEvent {
    if InRecovery(w) then
      match Rec(w).at
      case Taking => RecoverTakes(if Rec(w).snapshot.session in w.sessions then Taken else Missing)
      case Proving => RecoverProves(true)
      case Discarding(_) => RecoverRemoves(Removed)
      case Restoring => if Rec(w).checked then RecoverFinalizes(false, Faithful, Done) else RecoverChecks(false)
      case _ => if Rec(w).checked then RecoverClears(false, NoFault) else RecoverChecks(false)
    else RecoverInspects(false)
  }

  /** The next event is a step that fails nowhere and comes nearer to the end. */
  predicate Nearer(verify: Verifier, w: World, m: Marker) {
    var e := Onward(w);
    RecoverEnabled(w, e) && RecoverySucceeds(e)
    && var w' := RecoverNext(verify, w, e); Provable(w', m) && Distance(w') < Distance(w)
  }

  lemma OpeningNears(verify: Verifier, w: World, m: Marker, base: Option<Record>, file: Option<Auth>)
    requires Unfailed(verify, w, m, base, file) && Provable(w, m)
    requires InRecovery(w) ==> Rec(w).at.Taking? || Rec(w).at.Proving?
    ensures Nearer(verify, w, m)
  {
    hide Recovered, RecoveryFinalized, RecoveryRemoved, RecoveryCleared, RecoveryChecked;
  }

  lemma CheckNears(verify: Verifier, w: World, m: Marker, base: Option<Record>, file: Option<Auth>)
    requires Unfailed(verify, w, m, base, file) && Provable(w, m)
    requires InRecovery(w) && !Rec(w).checked && (Rec(w).at.Restoring? || Rec(w).at.Clearing?)
    ensures Nearer(verify, w, m)
  {
    hide Recovered, RecoveryFinalized, RecoveryRemoved, RecoveryCleared, LeaseTaken;
  }

  lemma ClosingNears(verify: Verifier, w: World, m: Marker)
    requires Provable(w, m) && InRecovery(w)
    requires Rec(w).at.Discarding? || (Rec(w).checked && (Rec(w).at.Restoring? || Rec(w).at.Clearing?))
    ensures Nearer(verify, w, m)
  {
    hide RecoveryVerdict, RecoveryChecked, LeaseTaken, Deleted;
  }

  lemma OnwardNears(verify: Verifier, w: World, m: Marker, base: Option<Record>, file: Option<Auth>)
    requires Inv(verify, w) && Unfailed(verify, w, m, base, file) && Provable(w, m) && !Resting(w)
    ensures Enabled(w, Recover(Onward(w)))
    ensures var e := Recover(Onward(w));
      var w' := Next(verify, w, e);
      Step(verify, w, e, w') && FailsNowhere(e)
      && Inv(verify, w') && Unfailed(verify, w', m, base, file) && Provable(w', m) && Distance(w') < Distance(w)
  {
    hide Inv, UnfailedAt, Provable, RecoverEnabled, RecoverNext, RecoverySucceeds;
    if InRecovery(w) && (Rec(w).at.Restoring? || Rec(w).at.Clearing?) && !Rec(w).checked {
      CheckNears(verify, w, m, base, file);
    } else if InRecovery(w) && !Rec(w).at.Taking? && !Rec(w).at.Proving? {
      ClosingNears(verify, w, m);
    } else {
      OpeningNears(verify, w, m, base, file);
    }
    NextKeepsInv(verify, w, Recover(Onward(w)));
    NextStaysUnfailed(verify, w, Recover(Onward(w)), m, base, file);
  }

  predicate Unfailing(verify: Verifier, ws: seq<World>, es: seq<Event>) {
    Steps(verify, ws, es) && forall k | 0 <= k < |es| :: FailsNowhere(es[k])
  }

  lemma {:induction false} Proceeds(verify: Verifier, w: World, m: Marker, base: Option<Record>, file: Option<Auth>)
      returns (ws: seq<World>, es: seq<Event>)
    requires Inv(verify, w) && Unfailed(verify, w, m, base, file) && Provable(w, m)
    ensures Unfailing(verify, ws, es) && ws[0] == w && Resting(ws[|es|]) && Unfailed(verify, ws[|es|], m, base, file)
    decreases Distance(w)
  {
    hide Inv, Unfailed, Provable, Step, FailsNowhere, Distance, Resting;
    if Resting(w) {
      ws, es := [w], [];
    } else {
      var e := Recover(Onward(w));
      OnwardNears(verify, w, m, base, file);
      ws, es := Proceeds(verify, Next(verify, w, e), m, base, file);
      ws, es := [w] + ws, [e] + es;
    }
  }

  lemma Opens(verify: Verifier, w: World, m: Marker)
    requires Inv(verify, w) && w.owner.None? && w.marker == Some(m) && Provable(w, m)
    ensures var e := Recover(RecoverLocks(None));
      Enabled(w, e) && Step(verify, w, e, Next(verify, w, e)) && FailsNowhere(e)
      && Inv(verify, Next(verify, w, e)) && Provable(Next(verify, w, e), m)
      && Unfailed(verify, Next(verify, w, e), m, w.record, AuthOf(w, m.session))
  {
    hide Inv;
    NextKeepsInv(verify, w, Recover(RecoverLocks(None)));
  }

  lemma Ends(verify: Verifier, w: World, m: Marker, base: Option<Record>, file: Option<Auth>)
    requires Unfailed(verify, w, m, base, file) && Resting(w)
    ensures w.marker.None? && m.session !in w.sessions
    ensures Recovered(verify, m, base, file, w.record, Rec(w).at.report)
  {
    hide Recovered;
  }

  /**
   Every quarantined identity can be recovered: from every reachable world without an
   owner, whose marker is not a pending one without a proof, a recovery has a
   continuation in which nothing fails, and ends as it must.
   */
  lemma RecoveriesComplete(verify: Verifier, past: seq<World>, pastEvents: seq<Event>, m: Marker)
      returns (ws: seq<World>, es: seq<Event>, report: Report)
    requires Run(verify, past, pastEvents)
    requires var w := past[|pastEvents|]; w.owner.None? && w.marker == Some(m) && Provable(w, m)
    ensures Unfailing(verify, ws, es) && ws[0] == past[|pastEvents|] && es != [] && LocksFor(es[0], m)
    ensures InRecovery(ws[|es|]) && Rec(ws[|es|]).at == Leaving(report)
    ensures Recovered(verify, m, ws[0].record, AuthOf(ws[0], m.session), ws[|es|].record, report)
    ensures ws[|es|].marker.None? && m.session !in ws[|es|].sessions
  {
    hide Inv, Unfailed, Next, Enabled, FailsNowhere, Provable;
    var w, e := past[|pastEvents|], Recover(RecoverLocks(None));
    RunsKeepInv(verify, past, pastEvents, |pastEvents|);
    Opens(verify, w, m);
    ws, es := Proceeds(verify, Next(verify, w, e), m, w.record, AuthOf(w, m.session));
    Ends(verify, ws[|es|], m, w.record, AuthOf(w, m.session));
    report := Rec(ws[|es|]).at.report;
    ws, es := [w] + ws, [e] + es;
  }

  // ----- settlement and logout

  /**
   A settler whose process tree is over, when nothing fails, makes exactly its own
   pending generation recoverable, and lets go of the lock.
   */
  lemma SettlementsSucceed(verify: Verifier, w: World, x: Settler) returns (ws: seq<World>, es: seq<Event>)
    requires x in w.settlers && x.ready && w.owner.None?
    ensures Steps(verify, ws, es) && ws[0] == w && es != [] && es[0] == Background(SettlerLocks(x))
    ensures forall e | e in es :: e.Background?
    ensures ws[|es|] == w.(settlers := w.settlers - {x}, marker := ws[|es|].marker)
    ensures var g := x.generation;
      ws[|es|].marker ==
        if w.marker.Some? && w.marker.value.phase.CleanupPending? && g.session != "" && g.challenge != ""
          && w.marker.value.session == g.session && w.marker.value.challenge == g.challenge
        then Some(w.marker.value.(phase := Recoverable)) else w.marker
  {
    var w1 := Next(verify, w, Background(SettlerLocks(x)));
    var w2 := Next(verify, w1, Background(CheckSettlement(false)));
    ws, es := [w, w1, w2], [Background(SettlerLocks(x)), Background(CheckSettlement(false))];
    assert Step(verify, w, es[0], w1) && Step(verify, w1, es[1], w2);
    if w2.owner.Some? {
      var w3 := Next(verify, w2, Background(WriteSettlement(NoFault)));
      ws, es := ws + [w3], es + [Background(WriteSettlement(NoFault))];
      assert Step(verify, w2, es[2], w3);
    }
  }

  /**
   A process tree that outlives its bounded cleanup is not forgotten: when the operation
   gives up, returns and the tree ends on its own later, the settler it left behind makes
   the marker recoverable without any other invocation.
   */
  lemma UnprovenCleanupsAreSettled(verify: Verifier, w: World, succeeds: bool, accepted: bool)
      returns (ws: seq<World>, es: seq<Event>)
    requires Inv(verify, w) && InForeground(w) && Fg(w).pc.Running? && Fg(w).generation in w.live
    requires Fg(w).generation.session != "" && Fg(w).generation.challenge != ""
    ensures Steps(verify, ws, es) && ws[0] == w && es != [] && es[0] == Containment(Settle(succeeds, accepted, false))
    ensures forall e | e in es ::
        e.Background? || e in [es[0], Containment(Decide), Conclusion(Release), Process(ProcessDies(Fg(w).generation))]
    ensures ws[|es|].owner.None? && ws[|es|].record == w.record && ws[|es|].live == w.live - {Fg(w).generation}
    ensures ws[|es|].marker == Some(Marker(Fg(w).generation.session, Recoverable, Fg(w).generation.challenge, false))
  {
    hide RecoverySane, LiveNamed, CredentialsNamed, SettlersDone, Bounded, PreparedUnpermitted;
    var g := Fg(w).generation;
    var x := Settler(g, false);
    var w1 := Next(verify, w, Containment(Settle(succeeds, accepted, false)));
    var w2 := Next(verify, w1, Containment(Decide));
    var w3 := Next(verify, w2, Conclusion(Release));
    var w4 := Next(verify, w3, Process(ProcessDies(g)));
    var w5 := Next(verify, w4, Background(CleanupDone(x)));
    assert w5.owner.None? && w5.marker == w.marker && w5.record == w.record && w5.live == w.live - {g};
    var rest, events := SettlementsSucceed(verify, w5, Settler(g, true));
    ws := [w, w1, w2, w3, w4] + rest;
    es := [Containment(Settle(succeeds, accepted, false)), Containment(Decide), Conclusion(Release),
      Process(ProcessDies(g)), Background(CleanupDone(x))] + events;
    assert Step(verify, w, es[0], w1) && Step(verify, w1, es[1], w2) && Step(verify, w2, es[2], w3);
    assert Step(verify, w3, es[3], w4) && Step(verify, w4, es[4], w5);
  }

  /** A logout that nothing fails deletes the record of an identity without a marker, and refuses one with a marker. */
  lemma LogoutsSucceed(verify: Verifier, w: World) returns (ws: seq<World>, es: seq<Event>)
    requires w.owner.None?
    ensures Steps(verify, ws, es) && ws[0] == w && |es| >= 2
        && es[..2] == [Logout(LogoutLocks), Logout(LogoutInspects(false))]
    ensures ws[|es|] == if w.marker.None? then w.(record := None) else w
  {
    var w1 := Next(verify, w, Logout(LogoutLocks));
    var w2 := Next(verify, w1, Logout(LogoutInspects(false)));
    ws, es := [w, w1, w2], [Logout(LogoutLocks), Logout(LogoutInspects(false))];
    assert Step(verify, w, es[0], w1) && Step(verify, w1, es[1], w2);
    if w.marker.None? {
      var w3 := Next(verify, w2, Logout(LogoutDeletes(Done)));
      ws, es := ws + [w3], es + [Logout(LogoutDeletes(Done))];
      assert Step(verify, w2, es[2], w3);
    }
  }
}
