/**
 Crash equivalence needs its condition: wherever a status or launch may begin, a
 stretch in which nothing fails leads it to store a refreshed credential, and from
 there a call that sees its projection and one that does not leave different records.
 */
module BindingLoss {
  import opened Options
  import opened CredentialStore
  import opened BindingProtocol
  import opened BindingInvariant
  import opened BindingTheorems
  import opened BindingFinalization
  import opened BindingProgress
  import opened BindingCompletion

  /** About to finalize over a credential that replaces the record, an operation loses it by not seeing it. */
  lemma OwesReplacement(verify: Verifier, w: World, r: Record, auth: Auth)
    requires Inv(verify, w) && Smooth(verify, w, Some(r), Some(auth)) && At(w, Finalizing) && Fg(w).checked
    requires verify(auth) == Some(r.metadata) && auth != r.auth
    ensures w.record == Some(r) && Owed(verify, w) == Some(Record(r.metadata, auth))
    ensures forall look, fault :: Enabled(w, Conclusion(FinalizeRecord(false, look, fault)))
  {
    hide Inv, Told;
  }

  /**
   For every record, every credential that replaces it, and every reachable world with
   that record and neither owner nor marker: an operation that begins there comes to
   finalize without a failure, and then a call that does not see the projection and
   one that does have continuations to a deleted marker that differ in the record.
   */
  lemma UnseenRefreshIsLost(verify: Verifier, past: seq<World>, pastEvents: seq<Event>, kind: Kind, n: Names, r: Record,
      auth: Auth, look: Look, fault: ProviderFault)
    returns (ws: seq<World>, es: seq<Event>, lost: seq<World>, lossy: seq<Event>, kept: seq<World>, keeping: seq<Event>)
    requires Run(verify, past, pastEvents) && past[|pastEvents|].record == Some(r) && !kind.Login?
    requires past[|pastEvents|].owner.None? && past[|pastEvents|].marker.None? && Fresh(past[|pastEvents|], n)
    requires verify(auth) == Some(r.metadata) && auth != r.auth && !look.Faithful?
    ensures Flawless(verify, ws, es) && ws[0] == past[|pastEvents|]
        && es != [] && es[0] == Publication(BeginOperation(kind))
    ensures Finalization(verify, lost, lossy) && lost[0] == ws[|es|]
        && lossy[0] == Conclusion(FinalizeRecord(false, look, fault))
    ensures Finalization(verify, kept, keeping) && Lossless(verify, kept, keeping) && kept[0] == ws[|es|]
    ensures lost[|lossy|].record == Some(r) && kept[|keeping|].record == Some(Record(r.metadata, auth))
  {
    hide Inv, Smooth, Finalization, Lossless, Fresh, Init, Owed, Enabled, Step;
    RunsKeepInv(verify, past, pastEvents, |pastEvents|);
    ws, es := Begins(verify, past[|pastEvents|], kind, n, auth, true);
    OwesReplacement(verify, ws[|es|], r, auth);
    lost, lossy, kept, keeping := LossesDiffer(verify, ws[|es|], Conclusion(FinalizeRecord(false, look, fault)));
  }
}
