/**
 What an operation does when nothing fails: every login, status and launch whose outside
 calls succeed ends with the record its credential file calls for, and always can.
 */
module BindingProgress {
  import opened Options
  import opened Quarantine
  import opened CredentialStore
  import opened BindingProtocol
  import opened BindingInvariant
  import opened BindingTheorems

  /** The owner's calls succeed; whatever else happens is free. */
  predicate FaultFree(e: Event) {
    match e
    case Publication(x) => PublicationSucceeds(x)
    case Containment(x) => ContainmentSucceeds(x)
    case Conclusion(x) => ConclusionSucceeds(x)
    case _ => true
  }

  predicate PublicationSucceeds(e: PublicationEvent) {
    match e
    case BeginOperation(_) => true
    case InspectMarker(fails) => !fails
    case LoadRecord(fails) => !fails
    case CreateSession(ok, _, _) => ok
    case Publish(fault) => fault.NoFault?
    case Protect(ok) => ok
    case _ => false
  }

  predicate ContainmentSucceeds(e: ContainmentEvent) {
    match e
    case Project(ok, _) => ok
    case Materialize(ok) => ok
    case RefuseRun => false
    case CheckGeneration(fails) => !fails
    case WriteMarker(fault, _) => fault.NoFault?
    case Arm(ok) => ok
    case Spawn(preparation) => preparation.Retained?
    case Settle(succeeds, accepted, cleanupProven) => succeeds && accepted && cleanupProven
    case Decide => true
  }

  predicate ConclusionSucceeds(e: ConclusionEvent) {
    match e
    case CommitRecord(unprotected, look, fault) => !unprotected && look.Faithful? && fault.Done?
    case FinalizeRecord(unprotected, look, fault) => !unprotected && look.Faithful? && fault.Done?
    case RemoveSession(removal) => removal.Removed?
    case _ => false
  }

  /**
   What the operation must leave as the record, and report, when its file held `file`
   after the last contained process. A login stores a credential that verifies; any
   other operation keeps its record, unless the file holds another credential of the
   same identity.
   */
  predicate Told(verify: Verifier, base: Option<Record>, file: Option<Auth>, record: Option<Record>, report: Report) {
    if base.None? then
      if file.Some? && verify(file.value).Some? then
        record == Some(Record(verify(file.value).value, file.value)) && report == Report(Unset, false)
      else record.None? && report.failed
    else if file == Some(base.value.auth) then record == base && report == Report(Discarded, false)
    else if file.Some? && verify(file.value) == Some(base.value.metadata) then
      record == Some(Record(base.value.metadata, file.value)) && report == Report(Refreshed, false)
    else record == base && report == Report(Discarded, true)
  }

  /** The marker is this generation. */
  predicate Owns(w: World, g: Generation, phase: Phase, refresh: bool) {
    w.marker == Some(Marker(g.session, phase, g.challenge, refresh))
  }

  /**
   An operation that nothing has failed yet: it began over `base`, and its file held
   `file` when its command settled.
   */
  predicate Smooth(verify: Verifier, w: World, base: Option<Record>, file: Option<Auth>) {
    InForeground(w) && SmoothAt(verify, w, Fg(w), base, file)
  }

  predicate SmoothAt(verify: Verifier, w: World, h: Operation, base: Option<Record>, file: Option<Auth>) {
    var (g, refresh) := (h.generation, !h.kind.Login?);
    && (base.None? <==> h.kind.Login?)
    && (Early(h.pc) || (h.record == base && ValidSession(g.session) && ValidChallenge(g.challenge)))
    && (Late(h.pc) || w.record == base)
    && (AfterCommand(h.pc) ==> AuthOf(w, g.session) == file)
    && match h.pc
       case Inspecting => w.marker.None? && h.record.None?
       case Loading => w.marker.None? && h.record.None?
       case Preparing => w.marker.None? && h.record == base
       case Publishing => w.marker.None?
       case Protecting => Owns(w, g, Prepared, false)
       case Projecting => refresh && Owns(w, g, Prepared, false)
       case Materializing => h.kind.Interactive? && Owns(w, g, Prepared, false)
       case Advancing(round) => Owns(w, g, if round.Probe? then Prepared else CleanupPending, false)
       case Arming(_) => Owns(w, g, Prepared, false)
       case Pending(_) => Owns(w, g, Prepared, false)
       case Spawning(_) => Owns(w, g, CleanupPending, false)
       case Running(_) => Owns(w, g, CleanupPending, false)
       case Deciding(succeeded, proven, _) => succeeded && proven && Owns(w, g, CleanupPending, false)
       case Permitting => refresh && Owns(w, g, CleanupPending, false)
       case Concluding(succeeded) => succeeded && Owns(w, g, CleanupPending, refresh)
       case Committing => !refresh && Owns(w, g, Recoverable, false)
       case Finalizing => refresh && Owns(w, g, Recoverable, true)
       case Removing(report) => Owns(w, g, Recoverable, refresh) && Told(verify, base, file, w.record, report)
       case Unmarking(report) =>
         && Owns(w, g, Recoverable, refresh) && g.session !in w.sessions
         && Told(verify, base, file, w.record, report)
       case Releasing(report) =>
         w.marker.None? && g.session !in w.sessions && Told(verify, base, file, w.record, report)
       case _ => false
  }

  /** Before the Session exists. */
  predicate Early(pc: Pc) { pc.Inspecting? || pc.Loading? || pc.Preparing? }

  /** After the command settled, while its file is still there. */
  predicate AfterCommand(pc: Pc) {
      pc.Deciding? || pc.Permitting? || pc.Concluding? || pc.Committing? || pc.Finalizing? }

  /** After the record was decided. */
  predicate Late(pc: Pc) { pc.Removing? || pc.Unmarking? || pc.Releasing? }

  /** What counts as the file: what was there when the last contained process settled. */
  function FileAfter(w: World, e: Event, file: Option<Auth>): Option<Auth> {
    if InForeground(w) && e.Containment? && e.containment.Settle? then AuthOf(w, Fg(w).generation.session) else file
  }

  // ----- every step that succeeds keeps it

  lemma PublicationStaysSmooth(verify: Verifier, w: World, e: PublicationEvent, base: Option<Record>,
      file: Option<Auth>)
    requires Smooth(verify, w, base, file) && PublicationEnabled(w, e) && PublicationSucceeds(e)
    ensures Smooth(verify, PublicationNext(w, e), base, file)
  {
    hide Told;
    if e.Publish? { assert ValidMarker(Marker(Fg(w).generation.session, Prepared, Fg(w).generation.challenge, false)); }
    hide ValidSession, ValidChallenge;
  }

  lemma CallsStaySmooth(verify: Verifier, w: World, e: ContainmentEvent, base: Option<Record>, file: Option<Auth>)
    requires Smooth(verify, w, base, file) && ContainmentEnabled(w, e) && ContainmentSucceeds(e)
    requires e.Project? || e.Materialize? || e.Arm? || e.Spawn? || e.Decide?
    ensures Smooth(verify, ContainmentNext(w, e), base, file)
  {
    hide Told, ValidSession, ValidChallenge;
  }

  lemma SettleStaysSmooth(verify: Verifier, w: World, e: ContainmentEvent, base: Option<Record>, file: Option<Auth>)
    requires Smooth(verify, w, base, file) && ContainmentEnabled(w, e) && ContainmentSucceeds(e) && e.Settle?
    ensures Smooth(verify, ContainmentNext(w, e), base, AuthOf(w, Fg(w).generation.session))
  {
    hide Told, ValidSession, ValidChallenge;
  }

  lemma NotEmpty(g: Generation)
    requires ValidSession(g.session) && ValidChallenge(g.challenge)
    ensures g.session != "" && g.challenge != ""
  {
  }

  lemma CheckStaysSmooth(verify: Verifier, w: World, base: Option<Record>, file: Option<Auth>)
    requires Smooth(verify, w, base, file) && ContainmentEnabled(w, CheckGeneration(false))
    ensures GenerationChecked(w, false) == w.(owner := Some(Foreground(Fg(w).(checked := true))))
    ensures Smooth(verify, GenerationChecked(w, false), base, file)
  {
    NotEmpty(Fg(w).generation);
    hide Told, ValidSession, ValidChallenge;
  }

  lemma AdvanceStaysSmooth(verify: Verifier, w: World, c: Challenge, base: Option<Record>, file: Option<Auth>)
    requires Inv(verify, w) && Smooth(verify, w, base, file) && ContainmentEnabled(w, WriteMarker(NoFault, c))
    requires Fg(w).pc.Advancing?
    ensures Smooth(verify, MarkerWritten(w, NoFault, c), base, file)
    ensures Fg(MarkerWritten(w, NoFault, c)).pc == Arming(Fg(w).pc.round)
  {
    assert w.marker.value.challenge in w.usedChallenges;
    hide Inv, Told, ValidSession, ValidChallenge;
  }

  lemma WriteStaysSmooth(verify: Verifier, w: World, c: Challenge, base: Option<Record>, file: Option<Auth>)
    requires Smooth(verify, w, base, file) && ContainmentEnabled(w, WriteMarker(NoFault, c)) && !Fg(w).pc.Advancing?
    ensures Smooth(verify, MarkerWritten(w, NoFault, c), base, file)
  {
    hide Told, ValidSession, ValidChallenge;
  }

  lemma ContainmentStaysSmooth(verify: Verifier, w: World, e: ContainmentEvent, base: Option<Record>,
      file: Option<Auth>)
    requires Inv(verify, w) && Smooth(verify, w, base, file) && ContainmentEnabled(w, e) && ContainmentSucceeds(e)
    ensures Smooth(verify, ContainmentNext(w, e), base, FileAfter(w, Containment(e), file))
  {
    match e
    case CheckGeneration(_) => CheckStaysSmooth(verify, w, base, file);
    case WriteMarker(_, c) =>
      if Fg(w).pc.Advancing? { AdvanceStaysSmooth(verify, w, c, base, file); }
          else { WriteStaysSmooth(verify, w, c, base, file); }
    case Settle(_, _, _) => SettleStaysSmooth(verify, w, e, base, file);
    case _ => CallsStaySmooth(verify, w, e, base, file);
    hide Inv, Smooth, MarkerWritten, GenerationChecked;
  }

  lemma CommitStaysSmooth(verify: Verifier, w: World, base: Option<Record>, file: Option<Auth>)
    requires Smooth(verify, w, base, file) && ConclusionEnabled(w, CommitRecord(false, Faithful, Done))
    ensures Smooth(verify, RecordCommitted(verify, w, false, Faithful, Done), base, file)
  {
    hide ValidSession, ValidChallenge;
  }

  lemma FinalizeStaysSmooth(verify: Verifier, w: World, base: Option<Record>, file: Option<Auth>)
    requires Smooth(verify, w, base, file) && ConclusionEnabled(w, FinalizeRecord(false, Faithful, Done))
    ensures Smooth(verify, RecordFinalized(verify, w, false, Faithful, Done), base, file)
  {
    hide ValidSession, ValidChallenge;
  }

  lemma RemovalStaysSmooth(verify: Verifier, w: World, base: Option<Record>, file: Option<Auth>)
    requires Inv(verify, w) && Smooth(verify, w, base, file) && ConclusionEnabled(w, RemoveSession(Removed))
    ensures Smooth(verify, ConclusionNext(verify, w, RemoveSession(Removed)), base, file)
  {
    assert Rooted(w, Fg(w));
    hide Inv, Told, ValidSession, ValidChallenge;
  }

  lemma LeaseReleaseStaysSmooth(verify: Verifier, w: World, session: SessionId, base: Option<Record>,
      file: Option<Auth>)
    requires Smooth(verify, w, base, file)
    ensures Smooth(verify, WithRetained(w, session, false), base, file)
  {
    hide Told, ValidSession, ValidChallenge;
  }

  lemma BystandersStaySmooth(verify: Verifier, w: World, w': World, base: Option<Record>, file: Option<Auth>)
    requires Smooth(verify, w, base, file) && Beside(w, w')
    ensures Smooth(verify, w', base, file)
  {
    hide Told, ValidSession, ValidChallenge;
  }

  lemma ProcessStaysSmooth(verify: Verifier, w: World, e: ProcessEvent, base: Option<Record>, file: Option<Auth>)
    requires Inv(verify, w) && Smooth(verify, w, base, file) && ProcessEnabled(w, e)
    ensures Smooth(verify, ProcessNext(w, e), base, file)
  {
    assert AfterCommand(Fg(w).pc) ==> w.live == {};
    hide Inv, Told, ValidSession, ValidChallenge;
  }

  /** Others may let go of a lease, start or stop waiting, and processes may write or end. */
  lemma OthersStaySmooth(verify: Verifier, w: World, e: Event, base: Option<Record>, file: Option<Auth>)
    requires Inv(verify, w) && Smooth(verify, w, base, file) && Enabled(w, e)
    requires !e.Publication? && !e.Containment? && !e.Conclusion?
    ensures Smooth(verify, Next(verify, w, e), base, file)
  {
    hide Inv, SmoothAt;
    if e.Process? {
      ProcessStaysSmooth(verify, w, e.process, base, file);
    } else if e.Background? && e.background.CleanupDone? {
      var session := e.background.settler.generation.session;
      LeaseReleaseStaysSmooth(verify, w, session, base, file);
      BystandersStaySmooth(verify, WithRetained(w, session, false), Next(verify, w, e), base, file);
    } else if (e.Background? && e.background.CrashSettler?)
        || (e.Recover? && (e.recovery.StartWaiting? || e.recovery.StopWaiting?)) {
      BystandersStaySmooth(verify, w, Next(verify, w, e), base, file);
    }
  }

  lemma NextStaysSmooth(verify: Verifier, w: World, e: Event, base: Option<Record>, file: Option<Auth>)
    requires Inv(verify, w) && Smooth(verify, w, base, file) && Enabled(w, e) && FaultFree(e)
    ensures Smooth(verify, Next(verify, w, e), base, FileAfter(w, e, file))
  {
    if e.Publication? {
      PublicationStaysSmooth(verify, w, e.publication, base, file);
    } else if e.Containment? {
      ContainmentStaysSmooth(verify, w, e.containment, base, file);
    } else if e.Conclusion? {
      match e.conclusion {
        case CommitRecord(_, _, _) => CommitStaysSmooth(verify, w, base, file);
        case FinalizeRecord(_, _, _) => FinalizeStaysSmooth(verify, w, base, file);
        case _ => RemovalStaysSmooth(verify, w, base, file);
      }
    } else {
      OthersStaySmooth(verify, w, e, base, file);
    }
    hide Inv, Smooth, PublicationNext, ContainmentNext, RecordCommitted, RecordFinalized, SessionRemoved;
    hide BackgroundNext, RecoverNext, LogoutNext, ProcessNext;
  }

  // ----- whole operations

  predicate Settles(e: Event) { e.Containment? && e.containment.Settle? }

  /** Past its command. */
  predicate Past(pc: Pc) { AfterCommand(pc) || Late(pc) }

  /** An operation gets past its command by settling only, and decides its record at its conclusion only. */
  predicate Passes(w: World, e: Event, w': World)
    requires InForeground(w) && InForeground(w')
  {
    && (Past(Fg(w').pc) && !Settles(e) ==> Past(Fg(w).pc))
    && (Late(Fg(w').pc) && !e.Conclusion? ==> Late(Fg(w).pc))
  }

  lemma CallsPass(verify: Verifier, w: World, e: ContainmentEvent, base: Option<Record>, file: Option<Auth>)
    requires Smooth(verify, w, base, file) && ContainmentEnabled(w, e) && ContainmentSucceeds(e)
    requires Smooth(verify, ContainmentNext(w, e), base, file)
    ensures Passes(w, Containment(e), ContainmentNext(w, e))
  {
    hide Told, ValidSession, ValidChallenge, IsCurrent, Deleted, AuthOf;
    if e.CheckGeneration? { CheckStaysSmooth(verify, w, base, file); }
  }

  lemma OnlySettlingPasses(verify: Verifier, w: World, e: Event, base: Option<Record>, file: Option<Auth>)
    requires Smooth(verify, w, base, file) && Enabled(w, e) && FaultFree(e)
    requires Smooth(verify, Next(verify, w, e), base, file)
    ensures Passes(w, e, Next(verify, w, e))
  {
    hide Told, ValidSession, ValidChallenge, StatusVerdict, Committed, AuthOf, MarkerWritten, GenerationChecked,
      Settled;
    if e.Containment? { CallsPass(verify, w, e.containment, base, file); }
  }

  /** The operation's last contained process settled here, and left its file as `file`. */
  predicate SettledWith(ws: seq<World>, es: seq<Event>, c: nat, b: nat, file: Option<Auth>)
    requires c < b <= |es| <= |ws|
  {
    && Settles(es[c]) && (forall k | c < k < b :: !Settles(es[k]))
    && InForeground(ws[c]) && AuthOf(ws[c], Fg(ws[c]).generation.session) == file
  }

  lemma BeginsSmooth(verify: Verifier, w: World, e: PublicationEvent)
    requires Enabled(w, Publication(e)) && e.BeginOperation?
    requires w.marker.None? && (w.record.None? <==> e.kind.Login?)
    ensures var w' := Next(verify, w, Publication(e));
      Smooth(verify, w', w.record, None) && !Past(Fg(w').pc)
  {
  }

  lemma SmoothStep(verify: Verifier, w: World, e: Event, base: Option<Record>, before: Option<Auth>)
      returns (file: Option<Auth>)
    requires Inv(verify, w) && Smooth(verify, w, base, before) && Enabled(w, e) && FaultFree(e)
    ensures Smooth(verify, Next(verify, w, e), base, file)
    ensures file == FileAfter(w, e, before)
    ensures Settles(e) || (Past(Fg(Next(verify, w, e)).pc) ==> Past(Fg(w).pc))
  {
    hide Inv, SmoothAt, Next, Enabled, FaultFree, Past;
    file := FileAfter(w, e, before);
    NextStaysSmooth(verify, w, e, base, before);
    if !Settles(e) { OnlySettlingPasses(verify, w, e, base, before); }
  }

  lemma {:induction false} StaysSmooth(verify: Verifier, ws: seq<World>, es: seq<Event>, a: nat, b: nat)
      returns (c: nat, file: Option<Auth>)
    requires Run(verify, ws, es) && a < b <= |es| && es[a].Publication? && es[a].publication.BeginOperation?
    requires ws[a].marker.None? && (ws[a].record.None? <==> es[a].publication.kind.Login?)
    requires forall k | a < k < b :: FaultFree(es[k])
    ensures Smooth(verify, ws[b], ws[a].record, file)
    ensures Past(Fg(ws[b]).pc) ==> a < c < b && SettledWith(ws, es, c, b, file)
    decreases b
  {
    hide Inv, Init, SmoothAt, Next, Enabled, FaultFree, Past;
    RunsKeepInv(verify, ws, es, b - 1);
    assert Step(verify, ws[b - 1], es[b - 1], ws[b]);
    if b == a + 1 {
      c, file := a, None;
      BeginsSmooth(verify, ws[a], es[a].publication);
    } else {
      var before;
      c, before := StaysSmooth(verify, ws, es, a, b - 1);
      file := SmoothStep(verify, ws[b - 1], es[b - 1], ws[a].record, before);
      if Settles(es[b - 1]) { c := b - 1; }
    }
  }

  /**
   Nothing fails, so it succeeds. A login over no record, or a status or launch over a
   stored one, that finds no marker and whose own calls all succeed, returns with
   neither root nor marker, and with the record and the report that the file called
   for when the command settled. Its processes may write and end as they like, other
   invocations may wait, and earlier background settlements go on.
   */
  lemma OperationsSucceed(verify: Verifier, ws: seq<World>, es: seq<Event>, a: nat, b: nat, report: Report)
      returns (c: nat, file: Option<Auth>)
    requires Run(verify, ws, es) && a < b <= |es| && es[a].Publication? && es[a].publication.BeginOperation?
    requires ws[a].marker.None? && (ws[a].record.None? <==> es[a].publication.kind.Login?)
    requires forall k | a < k < b :: FaultFree(es[k])
    requires At(ws[b], Releasing(report))
    ensures a < c < b && SettledWith(ws, es, c, b, file)
    ensures Told(verify, ws[a].record, file, ws[b].record, report)
    ensures ws[b].marker.None? && Fg(ws[b]).generation.session !in ws[b].sessions
  {
    c, file := StaysSmooth(verify, ws, es, a, b);
    hide Told, SettledWith, Run;
  }
}
