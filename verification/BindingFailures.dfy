/**
 What an operation does when one of its calls fails without leaving anything uncertain:
 it gives up, removes its root and then its marker, and reports the failure over the
 record it found.
 */
module BindingFailures {
  import opened Options
  import opened Quarantine
  import opened CredentialStore
  import opened BindingProtocol
  import opened BindingInvariant
  import opened BindingTheorems
  import opened BindingProgress

  /** The write did not take effect. */
  predicate NoEffect(fault: Fault) { fault.InspectFails? || fault.BeforeRename? }

  /**
   A failure that leaves nothing uncertain: the Session could not be set up, the marker not
   written, the process not started or not run with success, or the login not stored.
   */
  predicate FailsCleanly(w: World, e: Event)
    requires InForeground(w)
  {
    var pc := Fg(w).pc;
    match e
    case Publication(Protect(ok)) => !ok
    case Containment(Project(ok, _)) => !ok
    case Containment(Materialize(ok)) => !ok
    case Containment(RefuseRun) => true
    case Containment(CheckGeneration(fails)) => fails && (pc.Advancing? || pc.Pending? || pc.Committing?)
    case Containment(WriteMarker(fault, _)) => NoEffect(fault) && (pc.Advancing? || pc.Pending?)
    case Containment(Arm(ok)) => !ok
    case Containment(Spawn(preparation)) => preparation.NotPrepared?
    case Containment(Settle(succeeds, accepted, proven)) =>
      proven && (!succeeds || (pc == Running(Probe) && !accepted))
    case Conclusion(CommitRecord(unprotected, look, fault)) => unprotected || look.Unreadable? || look.Unverified?
        || fault.Refused?
    case _ => false
  }

  /** What the operation then reports: a status also says that its projection was discarded, once there was one. */
  function FailureReport(kind: Kind, e: Event): Report {
    if kind.Status? && !e.Publication? then Report(Discarded, true) else Report(Unset, true)
  }

  predicate OwnsInAnyPhase(w: World, g: Generation) {
    w.marker.Some? && w.marker.value.session == g.session && w.marker.value.challenge == g.challenge
    && !w.marker.value.refreshAllowed
  }

  /** An operation on its way out after a clean failure, over the record it found. */
  predicate Retreats(w: World, base: Option<Record>, report: Report) {
    InForeground(w) && RetreatsAt(w, Fg(w), base, report)
  }

  predicate RetreatsAt(w: World, h: Operation, base: Option<Record>, report: Report) {
    var g := h.generation;
    && w.record == base && ValidSession(g.session) && ValidChallenge(g.challenge)
    && match h.pc
       case Abandoning(r) => r == report && OwnsInAnyPhase(w, g)
       case Deciding(succeeded, proven, _) =>
         !succeeded && proven && OwnsInAnyPhase(w, g) && report == FailureReport(h.kind, Containment(Decide))
       case Concluding(succeeded) =>
         !succeeded && OwnsInAnyPhase(w, g) && report == FailureReport(h.kind, Containment(Decide))
       case Removing(r) => r == report && OwnsInAnyPhase(w, g)
       case Unmarking(r) => r == report && OwnsInAnyPhase(w, g) && g.session !in w.sessions
       case Releasing(r) => r == report && w.marker.None? && g.session !in w.sessions
       case _ => false
  }

  lemma CallFailureRetreats(verify: Verifier, w: World, e: ContainmentEvent, base: Option<Record>, file: Option<Auth>)
    requires Smooth(verify, w, base, file) && ContainmentEnabled(w, e) && FailsCleanly(w, Containment(e))
    ensures Retreats(ContainmentNext(w, e), base, FailureReport(Fg(w).kind, Containment(e)))
  {
    hide Told, ValidSession, ValidChallenge;
  }

  lemma FailureRetreats(verify: Verifier, w: World, e: Event, base: Option<Record>, file: Option<Auth>)
    requires Smooth(verify, w, base, file) && Enabled(w, e) && FailsCleanly(w, e)
    ensures Retreats(Next(verify, w, e), base, FailureReport(Fg(w).kind, e))
  {
    hide ValidSession, ValidChallenge, ContainmentNext, ContainmentEnabled, Told;
    if e.Containment? { CallFailureRetreats(verify, w, e.containment, base, file); }
  }

  lemma CallsRetreat(verify: Verifier, w: World, e: ContainmentEvent, base: Option<Record>, report: Report)
    requires Retreats(w, base, report) && ContainmentEnabled(w, e) && ContainmentSucceeds(e)
    ensures Retreats(ContainmentNext(w, e), base, report)
  {
    NotEmpty(Fg(w).generation);
    if w.marker.Some? { AnyPhase(w.marker.value.phase); }
    hide ValidSession, ValidChallenge;
  }

  lemma AnyPhase(phase: Phase)
    ensures phase in ANY_PHASE
  {
    match phase
    case Prepared =>
    case CleanupPending =>
    case Recoverable =>
  }

  lemma RemovalRetreats(verify: Verifier, w: World, e: ConclusionEvent, base: Option<Record>, report: Report)
    requires Inv(verify, w) && Retreats(w, base, report) && ConclusionEnabled(w, e) && ConclusionSucceeds(e)
    ensures Retreats(ConclusionNext(verify, w, e), base, report)
  {
    assert Fg(w).pc.Removing? ==> Rooted(w, Fg(w));
    hide Inv, ValidSession, ValidChallenge;
  }

  lemma OthersRetreat(verify: Verifier, w: World, e: Event, base: Option<Record>, report: Report)
    requires Retreats(w, base, report) && Enabled(w, e) && (e.Background? || e.Recover? || e.Logout? || e.Process?)
    ensures Retreats(Next(verify, w, e), base, report)
  {
    hide ValidSession, ValidChallenge;
  }

  lemma NextRetreats(verify: Verifier, w: World, e: Event, base: Option<Record>, report: Report)
    requires Inv(verify, w) && Retreats(w, base, report) && Enabled(w, e) && FaultFree(e)
    ensures Retreats(Next(verify, w, e), base, report)
  {
    hide Inv, ContainmentNext, ConclusionNext, BackgroundNext, RecoverNext, LogoutNext, ProcessNext;
    match e
    case Publication(_) =>
    case Containment(x) => CallsRetreat(verify, w, x, base, report);
    case Conclusion(x) => RemovalRetreats(verify, w, x, base, report);
    case _ => OthersRetreat(verify, w, e, base, report);
  }

  lemma {:induction false} StaysRetreating(verify: Verifier, ws: seq<World>, es: seq<Event>, a: nat, b: nat,
      base: Option<Record>, report: Report)
    requires Run(verify, ws, es) && a <= b < |ws| && Retreats(ws[a], base, report)
    requires forall k | a <= k < b :: FaultFree(es[k])
    ensures Retreats(ws[b], base, report)
    decreases b
  {
    hide Inv, Init, Retreats, Next, Enabled, FaultFree;
    if a < b {
      StaysRetreating(verify, ws, es, a, b - 1, base, report);
      RunsKeepInv(verify, ws, es, b - 1);
      assert Step(verify, ws[b - 1], es[b - 1], ws[b]);
      NextRetreats(verify, ws[b - 1], es[b - 1], base, report);
    }
  }

  /**
   A failure is clean. An operation that found no marker, and whose calls succeed but for
   one that fails without leaving anything uncertain, returns an error over the record it
   found, with neither root nor marker.
   */
  lemma FailuresAreClean(verify: Verifier, ws: seq<World>, es: seq<Event>, a: nat, f: nat, b: nat, report: Report)
    requires Run(verify, ws, es) && a < f < b <= |es| && es[a].Publication? && es[a].publication.BeginOperation?
    requires ws[a].marker.None? && (ws[a].record.None? <==> es[a].publication.kind.Login?)
    requires forall k | a < k < b && k != f :: FaultFree(es[k])
    requires InForeground(ws[f]) && FailsCleanly(ws[f], es[f]) && At(ws[b], Releasing(report))
    ensures report == FailureReport(Fg(ws[f]).kind, es[f]) && ws[b].record == ws[a].record
    ensures ws[b].marker.None? && Fg(ws[b]).generation.session !in ws[b].sessions
  {
    var c, file := StaysSmooth(verify, ws, es, a, f);
    assert Step(verify, ws[f], es[f], ws[f + 1]);
    FailureRetreats(verify, ws[f], es[f], ws[a].record, file);
    StaysRetreating(verify, ws, es, f + 1, b, ws[a].record, FailureReport(Fg(ws[f]).kind, es[f]));
    hide Run, FailsCleanly, Smooth;
  }
}
