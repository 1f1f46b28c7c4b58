/**
 What finalization owes, and exactly when it pays: a status or launch that finishes,
 and one that crashes anywhere and is recovered, leave the same record, unless a call
 fails to see a projection that still had to be stored.
 */
module BindingFinalization {
  import opened Options
  import opened Quarantine
  import opened CredentialStore
  import opened BindingProtocol
  import opened BindingInvariant
  import opened BindingTheorems

  /**
   The record finalization still owes: with refresh permission, the projection in
   the named root finalized against the stored record; otherwise the record itself.
   */
  function Owed(verify: Verifier, w: World): Option<Record> {
    if w.record.Some? && Permitted(w)
    then Some(Finalized(verify, w.record.value, AuthOf(w, w.marker.value.session)))
    else w.record
  }

  /** Nobody is about to remove a projection that still has to be stored. */
  predicate Paid(verify: Verifier, w: World) {
    (InForeground(w) && Fg(w).pc.Removing?) || (InRecovery(w) && Rec(w).at.Discarding?) ==> Owed(verify, w) == w.record
  }

  /** A finalizing call that discards what it could not see, though it had to be stored. */
  predicate Loses(verify: Verifier, w: World, e: Event) {
    && Owed(verify, w) != w.record
    && match e
       case Conclusion(FinalizeRecord(unprotected, look, _)) => !unprotected && !look.Faithful?
       case Recover(RecoverFinalizes(unavailable, look, _)) => !unavailable && !look.Faithful?
       case _ => false
  }

  // ----- one step

  lemma PublicationOwes(verify: Verifier, w: World, e: PublicationEvent)
    requires Inv(verify, w) && PublicationEnabled(w, e)
    ensures Permitted(w) ==> Owed(verify, PublicationNext(w, e)) == Owed(verify, w)
    ensures Paid(verify, PublicationNext(w, e))
  {
    hide RecoverySane, Truthful, Concluded, LiveNamed, SettlersDone, Bounded, Finalized;
  }

  /** With permission a foreground operation is past its processes. */
  lemma PermittedLocations(verify: Verifier, w: World)
    requires Inv(verify, w) && Permitted(w) && InForeground(w)
    ensures var pc := Fg(w).pc;
      && !pc.Projecting? && !pc.Advancing? && !pc.Pending? && !pc.Spawning? && !pc.Running? && !pc.Deciding?
      && !pc.Permitting? && !pc.Arming? && !pc.Materializing?
    ensures Fg(w).pc.Unmarking? ==> AuthOf(w, w.marker.value.session).None?
  {
  }

  lemma WriteOwes(verify: Verifier, w: World, fault: Fault, challenge: Challenge)
    requires InForeground(w) && w.marker.Some? && Permitted(w)
    requires !Fg(w).pc.Advancing? && !Fg(w).pc.Pending? && !Fg(w).pc.Permitting?
    requires Fg(w).pc.Unmarking? ==> AuthOf(w, w.marker.value.session).None?
    ensures Owed(verify, MarkerWritten(w, fault, challenge)) == Owed(verify, w)
  {
  }

  lemma ContainmentOwes(verify: Verifier, w: World, e: ContainmentEvent)
    requires Inv(verify, w) && ContainmentEnabled(w, e) && Permitted(w)
    ensures Owed(verify, ContainmentNext(w, e)) == Owed(verify, w)
  {
    PermittedLocations(verify, w);
    hide Inv;
    if e.WriteMarker? {
      WriteOwes(verify, w, e.fault, e.challenge);
    }
  }

  /** An operation moves on to removal by itself only without refresh permission. */
  lemma ContainmentPays(verify: Verifier, w: World, e: ContainmentEvent)
    requires Inv(verify, w) && ContainmentEnabled(w, e)
    ensures Paid(verify, ContainmentNext(w, e))
  {
    hide Finalized;
  }

  lemma FinalizeOwes(verify: Verifier, w: World, e: ConclusionEvent)
    requires Inv(verify, w) && ConclusionEnabled(w, e) && (e.FinalizeRecord? || e.CommitRecord?)
    ensures Permitted(w) ==> Owed(verify, ConclusionNext(verify, w, e)) == Owed(verify, w)
    ensures Paid(verify, ConclusionNext(verify, w, e)) <==> !Loses(verify, w, Conclusion(e))
  {
    if w.record.Some? && w.marker.Some? {
      FinalizedIdempotent(verify, w.record.value, AuthOf(w, w.marker.value.session));
    }
  }

  lemma ConclusionOwes(verify: Verifier, w: World, e: ConclusionEvent)
    requires Inv(verify, w) && ConclusionEnabled(w, e) && Paid(verify, w) && !e.FinalizeRecord? && !e.CommitRecord?
    ensures Permitted(w) ==> Owed(verify, ConclusionNext(verify, w, e)) == Owed(verify, w)
    ensures Paid(verify, ConclusionNext(verify, w, e))
  {
  }

  lemma RecoverFinalizeOwes(verify: Verifier, w: World, e: RecoveryEvent)
    requires Inv(verify, w) && RecoverEnabled(w, e) && e.RecoverFinalizes?
    ensures Permitted(w) ==> Owed(verify, RecoverNext(verify, w, e)) == Owed(verify, w)
    ensures Paid(verify, RecoverNext(verify, w, e)) <==> !Loses(verify, w, Recover(e))
  {
    if w.record.Some? && w.marker.Some? {
      FinalizedIdempotent(verify, w.record.value, AuthOf(w, w.marker.value.session));
    }
  }

  lemma RecoveryOwes(verify: Verifier, w: World, e: RecoveryEvent)
    requires Inv(verify, w) && RecoverEnabled(w, e) && Paid(verify, w) && !e.RecoverFinalizes?
    ensures Permitted(w) ==> Owed(verify, RecoverNext(verify, w, e)) == Owed(verify, w)
    ensures Paid(verify, RecoverNext(verify, w, e))
  {
  }

  lemma BackgroundOwes(verify: Verifier, w: World, e: SettlerEvent)
    requires Inv(verify, w) && BackgroundEnabled(w, e) && Paid(verify, w)
    ensures Permitted(w) ==> Owed(verify, BackgroundNext(w, e)) == Owed(verify, w)
    ensures Paid(verify, BackgroundNext(w, e))
  {
  }

  lemma OutsideOwes(verify: Verifier, w: World, e: Event)
    requires Inv(verify, w) && Enabled(w, e) && Paid(verify, w) && (e.Logout? || e.Process?)
    ensures Permitted(w) ==> Owed(verify, Next(verify, w, e)) == Owed(verify, w)
    ensures Paid(verify, Next(verify, w, e))
  {
  }

  /**
   Whatever step comes next, the record finalization owes stays the same; and the
   next step leaves nobody about to remove what is owed, exactly when it is not a
   finalization that discards what it could not see.
   */
  lemma NextOwes(verify: Verifier, w: World, e: Event)
    requires Inv(verify, w) && Enabled(w, e) && Paid(verify, w)
    ensures Permitted(w) ==> Owed(verify, Next(verify, w, e)) == Owed(verify, w)
    ensures Paid(verify, Next(verify, w, e)) <==> !Loses(verify, w, e)
  {
    hide Inv, Paid, Owed;
    hide PublicationEnabled, ContainmentEnabled, ConclusionEnabled, BackgroundEnabled, RecoverEnabled, LogoutEnabled,
      ProcessEnabled;
    hide PublicationNext, ContainmentNext, ConclusionNext, BackgroundNext, RecoverNext, LogoutNext, ProcessNext;
    match e
    case Publication(x) => PublicationOwes(verify, w, x);
    case Containment(x) =>
      ContainmentPays(verify, w, x);
      if Permitted(w) { ContainmentOwes(verify, w, x); }
    case Conclusion(x) =>
      if x.FinalizeRecord? || x.CommitRecord? { FinalizeOwes(verify, w, x); } else { ConclusionOwes(verify, w, x); }
    case Recover(x) =>
      if x.RecoverFinalizes? { RecoverFinalizeOwes(verify, w, x); } else { RecoveryOwes(verify, w, x); }
    case Background(x) => BackgroundOwes(verify, w, x);
    case _ => OutsideOwes(verify, w, e);
  }

  // ----- whole runs

  predicate Lossless(verify: Verifier, ws: seq<World>, es: seq<Event>) {
    |ws| >= |es| && forall i | 0 <= i < |es| :: !Loses(verify, ws[i], es[i])
  }

  lemma {:induction false} LosslessRunsArePaid(verify: Verifier, ws: seq<World>, es: seq<Event>, i: nat)
    requires Run(verify, ws, es) && Lossless(verify, ws, es) && i < |ws|
    ensures Paid(verify, ws[i])
  {
    hide Inv, Loses, Next, Enabled;
    if i > 0 {
      LosslessRunsArePaid(verify, ws, es, i - 1);
      RunsKeepInv(verify, ws, es, i - 1);
      assert Step(verify, ws[i - 1], es[i - 1], ws[i]);
      NextOwes(verify, ws[i - 1], es[i - 1]);
    }
  }

  /** A stretch of a run that starts with refresh permission and ends when the marker is gone. */
  predicate Finalization(verify: Verifier, ws: seq<World>, es: seq<Event>) {
    && Steps(verify, ws, es) && es != []
    && (forall i | 0 <= i < |es| :: Permitted(ws[i]))
    && ws[|es|].marker.None?
  }

  lemma {:induction false} FinalizationPays(verify: Verifier, ws: seq<World>, es: seq<Event>)
    requires Finalization(verify, ws, es) && Lossless(verify, ws, es) && Inv(verify, ws[0]) && Paid(verify, ws[0])
    ensures ws[|es|].record == Owed(verify, ws[0])
    decreases |es|
  {
    assert Step(verify, ws[0], es[0], ws[1]);
    NextKeepsInv(verify, ws[0], es[0]);
    NextOwes(verify, ws[0], es[0]);
    hide Inv, Loses, Paid, Next, Enabled;
    if |es| > 1 {
      FinalizationPays(verify, ws[1..], es[1..]);
    }
  }

  /**
   Crash equivalence. From any reachable world with refresh permission, any two
   continuations that get as far as deleting the marker leave the same record:
   the one where the owner finishes, and the one where it crashes anywhere, before
   or after the provider call, and recoveries take over. Every outside call may
   fail, except that no finalization discards unseen what it had to store.
   */
  lemma CrashEquivalence(verify: Verifier, past: seq<World>, pastEvents: seq<Event>,
                         ws: seq<World>, es: seq<Event>, ws': seq<World>, es': seq<Event>)
    requires Run(verify, past, pastEvents) && Paid(verify, past[|pastEvents|])
    requires Finalization(verify, ws, es) && Lossless(verify, ws, es) && ws[0] == past[|pastEvents|]
    requires Finalization(verify, ws', es') && Lossless(verify, ws', es') && ws'[0] == past[|pastEvents|]
    ensures ws[|es|].record == ws'[|es'|].record == Owed(verify, past[|pastEvents|])
    ensures ws[|es|].record.Some? <==> past[|pastEvents|].record.Some?
  {
    RunsKeepInv(verify, past, pastEvents, |pastEvents|);
    FinalizationPays(verify, ws, es);
    FinalizationPays(verify, ws', es');
  }

  // ----- a loss is final

  /** Removing a root and then the marker, without any failure, leaves the record. */
  lemma OwnerRemoves(verify: Verifier, w: World, report: Report) returns (ws: seq<World>, es: seq<Event>)
    requires At(w, Removing(report)) && Permitted(w) && Rooted(w, Fg(w))
    requires IsCurrent(w.marker, Fg(w).generation, ANY_PHASE)
    ensures Finalization(verify, ws, es) && Lossless(verify, ws, es) && ws[0] == w && ws[|es|].record == w.record
  {
    var w1 := Moved(Dropped(w, Fg(w).generation.session), Unmarking(report));
    var w2 := w1.(owner := Some(Foreground(Fg(w1).(checked := true))));
    var w3 := Moved(w2.(marker := None), Releasing(report));
    es := [Conclusion(RemoveSession(Removed)), Containment(CheckGeneration(false)),
      Containment(WriteMarker(NoFault, ""))];
    ws := [w, w1, w2, w3];
    assert Step(verify, w, es[0], w1);
    assert Step(verify, w1, es[1], w2);
    assert Step(verify, w2, es[2], w3);
    hide Step;
  }

  lemma RecoveryRemoves(verify: Verifier, w: World, report: Report) returns (ws: seq<World>, es: seq<Event>)
    requires InRecovery(w) && Rec(w).at == Discarding(report) && Permitted(w) && w.marker == Some(Rec(w).snapshot)
    ensures Finalization(verify, ws, es) && Lossless(verify, ws, es) && ws[0] == w && ws[|es|].record == w.record
  {
    var w1 := RecoveryMoved(Dropped(w, Rec(w).snapshot.session), Clearing(report));
    var w2 := w1.(owner := Some(Recovery(Rec(w1).(checked := true))));
    var w3 := RecoveryMoved(w2.(marker := None), Leaving(report));
    es := [Recover(RecoverRemoves(Removed)), Recover(RecoverChecks(false)), Recover(RecoverClears(false, NoFault))];
    ws := [w, w1, w2, w3];
    assert Step(verify, w, es[0], w1);
    assert Step(verify, w1, es[1], w2);
    assert Step(verify, w2, es[2], w3);
    hide Step;
  }

  lemma Preceded(verify: Verifier, w: World, e: Event, ws: seq<World>, es: seq<Event>)
    requires Enabled(w, e) && Permitted(w) && Finalization(verify, ws, es) && ws[0] == Next(verify, w, e)
    ensures Finalization(verify, [w] + ws, [e] + es)
    ensures Lossless(verify, ws, es) && !Loses(verify, w, e) ==> Lossless(verify, [w] + ws, [e] + es)
  {
    hide Enabled, Next, Permitted, Loses;
  }

  /** The owner at its finalization, with something to store. */
  lemma FinalizeDecides(verify: Verifier, w: World, look: Look, fault: ProviderFault)
      returns (ws: seq<World>, es: seq<Event>)
    requires Inv(verify, w) && Owed(verify, w) != w.record && Enabled(w, Conclusion(FinalizeRecord(false, look, fault)))
    requires look.Faithful? ==> fault.Done?
    ensures Finalization(verify, ws, es) && ws[0] == w && es[0] == Conclusion(FinalizeRecord(false, look, fault))
    ensures look.Faithful? ==> Lossless(verify, ws, es)
    ensures ws[|es|].record == if look.Faithful? then Owed(verify, w) else w.record
  {
    var e := Conclusion(FinalizeRecord(false, look, fault));
    var w' := Next(verify, w, e);
    var rest, restEvents := OwnerRemoves(verify, w', Fg(w').pc.report);
    Preceded(verify, w, e, rest, restEvents);
    ws, es := [w] + rest, [e] + restEvents;
  }

  lemma RecoverDecides(verify: Verifier, w: World, look: Look, fault: ProviderFault)
      returns (ws: seq<World>, es: seq<Event>)
    requires Inv(verify, w) && Owed(verify, w) != w.record && Enabled(w, Recover(RecoverFinalizes(false, look, fault)))
    requires look.Faithful? ==> fault.Done?
    ensures Finalization(verify, ws, es) && ws[0] == w && es[0] == Recover(RecoverFinalizes(false, look, fault))
    ensures look.Faithful? ==> Lossless(verify, ws, es)
    ensures ws[|es|].record == if look.Faithful? then Owed(verify, w) else w.record
  {
    var e := Recover(RecoverFinalizes(false, look, fault));
    var w' := Next(verify, w, e);
    var rest, restEvents := RecoveryRemoves(verify, w', Rec(w').at.report);
    Preceded(verify, w, e, rest, restEvents);
    ws, es := [w] + rest, [e] + restEvents;
  }

  /**
   The converse of crash equivalence: from any world, a finalization that loses has a
   continuation that deletes the marker and leaves the old record, while the same
   call, had it seen the projection, has one that leaves the record owed.
   */
  lemma LossesDiffer(verify: Verifier, w: World, e: Event)
    returns (ws: seq<World>, es: seq<Event>, ws': seq<World>, es': seq<Event>)
    requires Inv(verify, w) && Enabled(w, e) && Loses(verify, w, e)
    ensures Finalization(verify, ws, es) && ws[0] == w && es[0] == e
    ensures Finalization(verify, ws', es') && Lossless(verify, ws', es') && ws'[0] == w
    ensures ws[|es|].record == w.record && ws'[|es'|].record == Owed(verify, w) && ws[|es|].record != ws'[|es'|].record
  {
    if e.Conclusion? {
      ws, es := FinalizeDecides(verify, w, e.conclusion.look, e.conclusion.providerFault);
      ws', es' := FinalizeDecides(verify, w, Faithful, Done);
    } else {
      ws, es := RecoverDecides(verify, w, e.recovery.look, e.recovery.providerFault);
      ws', es' := RecoverDecides(verify, w, Faithful, Done);
    }
    hide Inv, Owed, Finalization, Lossless;
  }
}
