/**
 An operation can always finish: from wherever it stands without a failure so far,
 a run leads on in which nothing fails and its file holds whatever credential its
 command is to leave there.
 */
module BindingCompletion {
  import opened Options
  import opened Quarantine
  import opened CredentialStore
  import opened BindingProtocol
  import opened BindingInvariant
  import opened BindingTheorems
  import opened BindingProgress

  /** A Session name and three challenges, as an operation draws them. */
  datatype Names = Names(session: SessionId, publication: Challenge, probe: Challenge, command: Challenge)

  predicate Unused(w: World, c: Challenge) { ValidChallenge(c) && c !in w.usedChallenges }

  predicate Fresh(w: World, n: Names) {
    && ValidSession(n.session) && n.session !in w.usedSessions
    && Unused(w, n.publication) && n.publication != n.probe && n.publication != n.command
    && FreshRounds(w, n)
  }

  predicate FreshRounds(w: World, n: Names) {
    Unused(w, n.probe) && Unused(w, n.command) && n.probe != n.command
  }

  /** The names an operation has still to draw are fresh. */
  predicate Provided(w: World, pc: Pc, n: Names) {
    match pc
    case Inspecting => Fresh(w, n)
    case Loading => Fresh(w, n)
    case Preparing => Fresh(w, n)
    case Publishing => FreshRounds(w, n)
    case Protecting => FreshRounds(w, n)
    case Projecting => FreshRounds(w, n)
    case Materializing => FreshRounds(w, n)
    case Advancing(round) => if round.Probe? then FreshRounds(w, n) else Unused(w, n.command)
    case Arming(round) => round.Probe? ==> Unused(w, n.command)
    case Pending(round) => round.Probe? ==> Unused(w, n.command)
    case Spawning(round) => round.Probe? ==> Unused(w, n.command)
    case Running(round) => round.Probe? ==> Unused(w, n.command)
    case _ => true
  }

  /** The command, if it is running, can still leave `auth` in the file, or has. */
  predicate Leaves(w: World, h: Operation, auth: Auth) {
    h.pc == Running(Command) ==> h.generation in w.live || AuthOf(w, h.generation.session) == Some(auth)
  }

  predicate Heads(verify: Verifier, w: World, base: Option<Record>, n: Names, auth: Auth) {
    && Inv(verify, w) && Smooth(verify, w, base, Some(auth))
    && Provided(w, Fg(w).pc, n) && Leaves(w, Fg(w), auth)
  }

  /** How far a location is from the end. */
  function Distance(pc: Pc): nat {
    match pc
    case Inspecting => 24
    case Loading => 23
    case Preparing => 22
    case Publishing => 21
    case Protecting => 20
    case Projecting => 19
    case Materializing => 18
    case Advancing(round) => if round.Probe? then 17 else 11
    case Arming(round) => if round.Probe? then 16 else 10
    case Pending(round) => if round.Probe? then 15 else 9
    case Spawning(round) => if round.Probe? then 14 else 8
    case Running(round) => if round.Probe? then 13 else 7
    case Deciding(_, _, _) => 6
    case Permitting => 5
    case Concluding(_) => 4
    case Committing => 3
    case Finalizing => 3
    case Removing(_) => 2
    case Unmarking(_) => 1
    case _ => 0
  }

  function Rank(w: World, auth: Auth): nat
    requires InForeground(w)
  {
    var h := Fg(w);
    3 * Distance(h.pc) +
    if !h.pc.Running? then (if h.checked then 0 else 1)
    else if h.generation !in w.live then 0
    else if h.pc.round.Command? && AuthOf(w, h.generation.session) != Some(auth) then 2
    else 1
  }

  /** The next event of a run in which nothing fails. */
  function Forth(w: World, n: Names, auth: Auth): Event
    requires InForeground(w)
  {
    var h := Fg(w);
    if ChecksGeneration(h.pc) && !h.checked then Containment(CheckGeneration(false))
    else match h.pc
      case Inspecting => Publication(InspectMarker(false))
      case Loading => Publication(LoadRecord(false))
      case Preparing => Publication(CreateSession(true, n.session, n.publication))
      case Publishing => Publication(Publish(NoFault))
      case Protecting => Publication(Protect(true))
      case Projecting => Containment(Project(true, None))
      case Materializing => Containment(Materialize(true))
      case Advancing(round) => Containment(WriteMarker(NoFault, if round.Probe? then n.probe else n.command))
      case Arming(_) => Containment(Arm(true))
      case Spawning(_) => Containment(Spawn(Retained))
      case Running(round) => Executing(w, round, auth)
      case Deciding(_, _, _) => Containment(Decide)
      case Committing => Conclusion(CommitRecord(false, Faithful, Done))
      case Finalizing => Conclusion(FinalizeRecord(false, Faithful, Done))
      case Removing(_) => Conclusion(RemoveSession(Removed))
      case _ => Containment(WriteMarker(NoFault, ""))
  }

  /** The contained process writes its credential, ends, and is waited for. */
  function Executing(w: World, round: Round, auth: Auth): Event
    requires InForeground(w)
  {
    var g := Fg(w).generation;
    if g !in w.live then Containment(Settle(true, true, true))
    else if round.Command? && AuthOf(w, g.session) != Some(auth) then Process(ProcessWrites(g, Some(auth)))
    else Process(ProcessDies(g))
  }

  /** The next event is a step that fails nowhere, keeps the names provided, and comes nearer to the end. */
  predicate Nearer(verify: Verifier, w: World, n: Names, auth: Auth)
    requires InForeground(w)
  {
    var e := Forth(w, n, auth);
    && Enabled(w, e) && FaultFree(e)
    && var w' := Next(verify, w, e);
    && InForeground(w') && Provided(w', Fg(w').pc, n) && Leaves(w', Fg(w'), auth)
    && Rank(w', auth) < Rank(w, auth)
    && (Settles(e) ==> !Past(Fg(w').pc) || AuthOf(w, Fg(w).generation.session) == Some(auth))
  }

  lemma CheckNears(verify: Verifier, w: World, base: Option<Record>, n: Names, auth: Auth)
    requires Heads(verify, w, base, n, auth) && ChecksGeneration(Fg(w).pc) && !Fg(w).checked
    ensures Nearer(verify, w, n, auth)
  {
    hide Inv, SmoothAt, GenerationChecked;
    CheckStaysSmooth(verify, w, base, Some(auth));
  }

  lemma AdvanceNears(verify: Verifier, w: World, base: Option<Record>, n: Names, auth: Auth)
    requires Heads(verify, w, base, n, auth) && Fg(w).pc.Advancing? && Fg(w).checked
    ensures Nearer(verify, w, n, auth)
  {
    hide Inv, SmoothAt, ValidChallenge, Written, Executing;
    hide PublicationEnabled, PublicationNext, ConclusionEnabled, ConclusionNext;
    var c := if Fg(w).pc.round.Probe? then n.probe else n.command;
    AdvanceStaysSmooth(verify, w, c, base, Some(auth));
  }

  lemma WriteNears(verify: Verifier, w: World, base: Option<Record>, n: Names, auth: Auth)
    requires Heads(verify, w, base, n, auth) && UpdatesMarker(Fg(w).pc) && !Fg(w).pc.Advancing? && Fg(w).checked
    ensures Nearer(verify, w, n, auth)
  {
    hide Inv, Told, ValidChallenge, ValidSession;
  }

  lemma OpeningNears(verify: Verifier, w: World, base: Option<Record>, n: Names, auth: Auth)
    requires Heads(verify, w, base, n, auth)
    requires Fg(w).pc.Inspecting? || Fg(w).pc.Loading? || Fg(w).pc.Protecting?
    ensures Nearer(verify, w, n, auth)
  {
    hide Inv, Told, ValidSession, ValidChallenge, Executing;
    hide ContainmentEnabled, ContainmentNext, ContainmentSucceeds, ConclusionEnabled, ConclusionNext;
  }

  lemma CreationNears(verify: Verifier, w: World, base: Option<Record>, n: Names, auth: Auth)
    requires Heads(verify, w, base, n, auth) && Fg(w).pc.Preparing?
    ensures Nearer(verify, w, n, auth)
  {
    hide Inv, SmoothAt, ValidSession, ValidChallenge, Executing;
    hide ContainmentEnabled, ContainmentNext, ContainmentSucceeds, ConclusionEnabled, ConclusionNext;
  }

  lemma PublishNears(verify: Verifier, w: World, base: Option<Record>, n: Names, auth: Auth)
    requires Heads(verify, w, base, n, auth) && Fg(w).pc.Publishing?
    ensures Nearer(verify, w, n, auth)
  {
    assert ValidMarker(Marker(Fg(w).generation.session, Prepared, Fg(w).generation.challenge, false));
    hide Inv, Told, ValidMarker, Executing;
    hide ContainmentEnabled, ContainmentNext, ContainmentSucceeds, ConclusionEnabled, ConclusionNext;
  }

  lemma SetupNears(verify: Verifier, w: World, base: Option<Record>, n: Names, auth: Auth)
    requires Heads(verify, w, base, n, auth) && (Fg(w).pc.Projecting? || Fg(w).pc.Materializing?)
    ensures Nearer(verify, w, n, auth)
  {
    hide Inv, Told, ValidChallenge, ValidSession, Executing, IsCurrent, MarkerWritten, GenerationChecked;
    hide PublicationEnabled, PublicationNext, ConclusionEnabled, ConclusionNext, Settled;
  }

  lemma CallNears(verify: Verifier, w: World, base: Option<Record>, n: Names, auth: Auth)
    requires Heads(verify, w, base, n, auth) && (Fg(w).pc.Arming? || Fg(w).pc.Deciding?)
    ensures Nearer(verify, w, n, auth)
  {
    hide Inv, Told, ValidChallenge, ValidSession, Executing, IsCurrent, MarkerWritten, GenerationChecked;
    hide PublicationEnabled, PublicationNext, ConclusionEnabled, ConclusionNext, Settled, Spawned;
  }

  lemma SpawnNears(verify: Verifier, w: World, base: Option<Record>, n: Names, auth: Auth)
    requires Heads(verify, w, base, n, auth) && Fg(w).pc.Spawning?
    ensures Nearer(verify, w, n, auth)
  {
    hide Inv, Told, ValidChallenge, ValidSession, Executing, IsCurrent, MarkerWritten, GenerationChecked;
    hide PublicationEnabled, PublicationNext, ConclusionEnabled, ConclusionNext, Settled, Decided;
  }

  lemma RunsInRoot(verify: Verifier, w: World)
    requires Inv(verify, w) && InForeground(w) && Fg(w).pc.Running?
    ensures Fg(w).generation.session in w.sessions
  {
  }

  lemma ExecutingNears(verify: Verifier, w: World, base: Option<Record>, n: Names, auth: Auth)
    requires Heads(verify, w, base, n, auth) && Fg(w).pc.Running?
    ensures Nearer(verify, w, n, auth)
  {
    hide Inv, Told, ValidChallenge, ValidSession, IsCurrent, MarkerWritten, GenerationChecked;
    hide PublicationEnabled, PublicationNext, ConclusionEnabled, ConclusionNext;
    RunsInRoot(verify, w);
  }

  lemma ConclusionNears(verify: Verifier, w: World, base: Option<Record>, n: Names, auth: Auth)
    requires Heads(verify, w, base, n, auth)
        && (Fg(w).pc.Removing? || (Fg(w).checked && (Fg(w).pc.Committing? || Fg(w).pc.Finalizing?)))
    ensures Nearer(verify, w, n, auth)
  {
    hide Inv, Told, ValidChallenge, ValidSession, StatusVerdict, Committed, IsCurrent, MarkerWritten;
    hide PublicationEnabled, PublicationNext;
  }

  lemma ForthNears(verify: Verifier, w: World, base: Option<Record>, n: Names, auth: Auth)
    requires Heads(verify, w, base, n, auth) && !Fg(w).pc.Releasing?
    ensures Nearer(verify, w, n, auth)
    ensures Heads(verify, Next(verify, w, Forth(w, n, auth)), base, n, auth)
  {
    var e, pc := Forth(w, n, auth), Fg(w).pc;
    if ChecksGeneration(pc) && !Fg(w).checked {
      CheckNears(verify, w, base, n, auth);
    } else if pc.Advancing? {
      AdvanceNears(verify, w, base, n, auth);
    } else if UpdatesMarker(pc) {
      WriteNears(verify, w, base, n, auth);
    } else if pc.Running? {
      ExecutingNears(verify, w, base, n, auth);
    } else if pc.Preparing? {
      CreationNears(verify, w, base, n, auth);
    } else if pc.Publishing? {
      PublishNears(verify, w, base, n, auth);
    } else if pc.Inspecting? || pc.Loading? || pc.Protecting? {
      OpeningNears(verify, w, base, n, auth);
    } else if pc.Committing? || pc.Finalizing? || pc.Removing? {
      ConclusionNears(verify, w, base, n, auth);
    } else if pc.Projecting? || pc.Materializing? {
      SetupNears(verify, w, base, n, auth);
    } else if pc.Spawning? {
      SpawnNears(verify, w, base, n, auth);
    } else {
      CallNears(verify, w, base, n, auth);
    }
    NextKeepsInv(verify, w, e);
    NextStaysSmooth(verify, w, e, base, Some(auth));
    hide *;
  }

  // ----- whole operations

  /** A stretch of a run in which nothing fails. */
  predicate Flawless(verify: Verifier, ws: seq<World>, es: seq<Event>) {
    Steps(verify, ws, es) && forall k | 0 <= k < |es| :: FaultFree(es[k])
  }

  lemma HeadsOwns(verify: Verifier, w: World, base: Option<Record>, n: Names, auth: Auth)
    requires Heads(verify, w, base, n, auth)
    ensures InForeground(w) && (base.None? <==> Fg(w).kind.Login?)
  {
  }

  lemma NearerSteps(verify: Verifier, w: World, n: Names, auth: Auth)
    requires InForeground(w) && Nearer(verify, w, n, auth)
    ensures Step(verify, w, Forth(w, n, auth), Next(verify, w, Forth(w, n, auth))) && FaultFree(Forth(w, n, auth))
    ensures InForeground(Next(verify, w, Forth(w, n, auth)))
    ensures Rank(Next(verify, w, Forth(w, n, auth)), auth) < Rank(w, auth)
  {
  }

  /** The record of a status or launch is decided at its finalization only. */
  lemma OnlyFinalizingDecides(verify: Verifier, w: World, base: Option<Record>, n: Names, auth: Auth)
    requires Heads(verify, w, base, n, auth) && base.Some? && !Late(Fg(w).pc)
        && !(Fg(w).pc.Finalizing? && Fg(w).checked)
    requires Nearer(verify, w, n, auth) && Heads(verify, Next(verify, w, Forth(w, n, auth)), base, n, auth)
    ensures !Late(Fg(Next(verify, w, Forth(w, n, auth))).pc)
  {
    hide Inv, SmoothAt, Provided, Leaves, Nearer, Told, Next, Enabled, FaultFree;
    NearerSteps(verify, w, n, auth);
    OnlySettlingPasses(verify, w, Forth(w, n, auth), base, Some(auth));
    NeverCommits(verify, w, base, n, auth);
  }

  lemma NeverCommits(verify: Verifier, w: World, base: Option<Record>, n: Names, auth: Auth)
    requires Heads(verify, w, base, n, auth) && base.Some? && !Late(Fg(w).pc)
        && !(Fg(w).pc.Finalizing? && Fg(w).checked)
    ensures !Forth(w, n, auth).Conclusion?
  {
    hide Inv, Told;
  }

  /**
   From wherever an operation stands without a failure so far, a stretch without one
   ends it, or gets a status or launch to its finalization.
   */
  lemma {:induction false} Finishes(verify: Verifier, w: World, base: Option<Record>, n: Names, auth: Auth, early: bool)
      returns (ws: seq<World>, es: seq<Event>)
    requires Heads(verify, w, base, n, auth) && (early ==> base.Some? && !Late(Fg(w).pc))
    ensures Flawless(verify, ws, es) && ws[0] == w && Heads(verify, ws[|es|], base, n, auth)
    ensures if early then At(ws[|es|], Finalizing) && Fg(ws[|es|]).checked else Fg(ws[|es|]).pc.Releasing?
    decreases Rank(w, auth)
  {
    hide Heads, Nearer, Step, FaultFree;
    HeadsOwns(verify, w, base, n, auth);
    if if early then Fg(w).pc.Finalizing? && Fg(w).checked else Fg(w).pc.Releasing? {
      ws, es := [w], [];
    } else {
      var e := Forth(w, n, auth);
      ForthNears(verify, w, base, n, auth);
      NearerSteps(verify, w, n, auth);
      if early { OnlyFinalizingDecides(verify, w, base, n, auth); }
      ws, es := Finishes(verify, Next(verify, w, e), base, n, auth, early);
      HeadsOwns(verify, ws[|es|], base, n, auth);
      ws, es := [w] + ws, [e] + es;
    }
  }

  lemma BeginHeads(verify: Verifier, w: World, kind: Kind, n: Names, auth: Auth)
    requires Inv(verify, w) && w.owner.None? && w.marker.None? && (w.record.None? <==> kind.Login?) && Fresh(w, n)
    ensures var e := Publication(BeginOperation(kind));
      Enabled(w, e) && Step(verify, w, e, Next(verify, w, e)) && FaultFree(e)
      && Heads(verify, Next(verify, w, e), w.record, n, auth) && At(Next(verify, w, e), Inspecting)
      && !Late(Inspecting)
  {
    hide Inv;
    NextKeepsInv(verify, w, Publication(BeginOperation(kind)));
  }

  /** An operation may begin over a record, a login over none, wherever there is neither owner nor marker. */
  lemma Begins(verify: Verifier, w: World, kind: Kind, n: Names, auth: Auth, early: bool)
      returns (ws: seq<World>, es: seq<Event>)
    requires Inv(verify, w) && w.owner.None? && w.marker.None? && (w.record.None? <==> kind.Login?) && Fresh(w, n)
    requires early ==> w.record.Some?
    ensures Flawless(verify, ws, es) && ws[0] == w && Heads(verify, ws[|es|], w.record, n, auth)
    ensures es != [] && es[0] == Publication(BeginOperation(kind))
    ensures if early then At(ws[|es|], Finalizing) && Fg(ws[|es|]).checked else Fg(ws[|es|]).pc.Releasing?
  {
    hide Inv, Heads, Fresh, Next, Enabled, FaultFree, Late;
    var e := Publication(BeginOperation(kind));
    BeginHeads(verify, w, kind, n, auth);
    var w' := Next(verify, w, e);
    ws, es := Finishes(verify, w', w.record, n, auth, early);
    HeadsOwns(verify, ws[|es|], w.record, n, auth);
    ws, es := [w] + ws, [e] + es;
  }

  /**
   Every operation can succeed. From every reachable world without owner and marker, a
   login where no record is stored, and a status or launch where one is, has a
   continuation in which nothing fails and its command leaves any given credential in
   the file; it ends with neither root nor marker, and with the record and the report
   that credential calls for.
   */
  lemma OperationsComplete(verify: Verifier, past: seq<World>, pastEvents: seq<Event>, kind: Kind, n: Names, auth: Auth)
      returns (ws: seq<World>, es: seq<Event>, report: Report)
    requires Run(verify, past, pastEvents)
    requires var w := past[|pastEvents|];
      w.owner.None? && w.marker.None? && (w.record.None? <==> kind.Login?) && Fresh(w, n)
    ensures Flawless(verify, ws, es) && ws[0] == past[|pastEvents|]
    ensures es != [] && es[0] == Publication(BeginOperation(kind)) && At(ws[|es|], Releasing(report))
    ensures Told(verify, ws[0].record, Some(auth), ws[|es|].record, report)
    ensures ws[|es|].marker.None? && Fg(ws[|es|]).generation.session !in ws[|es|].sessions
  {
    RunsKeepInv(verify, past, pastEvents, |pastEvents|);
    ws, es := Begins(verify, past[|pastEvents|], kind, n, auth, false);
    report := Fg(ws[|es|]).pc.report;
    hide Inv, Flawless, Told, Fresh, Run;
  }
}
