/**
 The durable authority over named credentials
 (internal/codexauthresource/store.go): provider records, identity locks, and
 the bindings through which an operation may touch either or the marker.

 Token verification is a fixed function; reading the projected credential file
 is a parameter, None when it cannot be read.
 */
module CredentialStore {
  import opened Options
  import opened Quarantine

  type Auth = seq<char>

  datatype Metadata = Metadata(name: Name, login: string, workspace: string, fingerprint: string)

  datatype Record = Record(metadata: Metadata, auth: Auth)

  type Verifier = Auth -> Option<Metadata>

  /** A provider call succeeds, is refused without effect, or reports failure after taking effect. */
  datatype ProviderFault = Done | Refused | Uncertain

  datatype Disposition = Unset | Discarded | Refreshed | Quarantined

  datatype StoreError =
    | MarkerError(error: Error)
    | Busy
    | Quarantine
    | Unavailable
    | Exists
    | NotFound
    | ProjectionInvalid
    | Unsupported
    | GenerationChanged
    | Cancelled

  /** The (Session, challenge) pair a binding captured; empty strings before publication. */
  datatype Generation = Generation(session: SessionId, challenge: Challenge)

  const ANY_PHASE: set<Phase> := {Prepared, CleanupPending, Recoverable}

  /** `currentGeneration`: the marker on disk is exactly the captured generation, in an admitted phase. */
  predicate IsCurrent(marker: Option<Marker>, generation: Generation, phases: set<Phase>) {
    && generation.session != "" && generation.challenge != ""
    && marker.Some?
    && marker.value.session == generation.session
    && marker.value.challenge == generation.challenge
    && marker.value.phase in phases
  }

  /** The error of `currentGeneration`: a binding that published nothing is refused before the marker is read. */
  function CurrentError(marker: Option<Marker>, generation: Generation, phases: set<Phase>,
      fault: Fault): (e: Option<Error>)
    ensures e.None? <==> !fault.InspectFails? && IsCurrent(marker, generation, phases)
  {
    if generation.session == "" || generation.challenge == "" then Some(BindingQuarantined)
    else if fault.InspectFails? then Some(ProviderUnavailable)
    else if IsCurrent(marker, generation, phases) then None
    else Some(BindingQuarantined)
  }

  /** The phases `currentGeneration` admits before each update. */
  function AdmittedPhases(op: MarkerOp): set<Phase> {
    match op
    case MarkCleanupPending => {Prepared, CleanupPending}
    case MarkRecoverable => ANY_PHASE
    case MarkRefreshAllowed => {CleanupPending, Recoverable}
    case AdvanceChallenge(_) => {Prepared, CleanupPending}
  }

  /** A binding's update: the generation check, then the store's own update. */
  function Guarded(current: Option<Marker>, generation: Generation, phases: set<Phase>, op: MarkerOp,
                   checkFault: Fault, writeFault: Fault): Effect {
    if checkFault.InspectFails? then Effect(current, Some(ProviderUnavailable))
    else if !IsCurrent(current, generation, phases) then Effect(current, Some(BindingQuarantined))
    else Written(current, op, writeFault)
  }

  function GuardedDelete(current: Option<Marker>, generation: Generation, checkFault: Fault,
      writeFault: Fault): Effect
  {
    if checkFault.InspectFails? then Effect(current, Some(ProviderUnavailable))
    else if !IsCurrent(current, generation, ANY_PHASE) then Effect(current, Some(BindingQuarantined))
    else Deleted(current, writeFault)
  }

  /**
   What finalization leaves as the record: a projection replaces it only when it
   differs, verifies, and carries exactly the record's metadata.
   */
  function Finalized(verify: Verifier, record: Record, projected: Option<Auth>): Record {
    if projected.None? || projected.value == record.auth then record
    else if verify(projected.value) == Some(record.metadata) then Record(record.metadata, projected.value)
    else record
  }

  /**
   Finalizing twice is finalizing once: after a crash that follows the provider
   replacement, recovery reads the same projection and finds equal bytes.
   */
  lemma FinalizedIdempotent(verify: Verifier, record: Record, projected: Option<Auth>)
    ensures var once := Finalized(verify, record, projected);
      && Finalized(verify, once, projected) == once
      && once.metadata == record.metadata
      && (once != record <==>
           projected.Some? && projected.value != record.auth && verify(projected.value) == Some(record.metadata))
  {
  }

  /**
   Generation safety of one call: whatever fails, a binding's update or delete
   changes the marker only if the marker was the generation it captured, and a
   stale binding is refused.
   */
  lemma GuardedTouchesOwnGeneration(current: Option<Marker>, generation: Generation, phases: set<Phase>, op: MarkerOp,
                                    checkFault: Fault, writeFault: Fault)
    ensures var e := Guarded(current, generation, phases, op, checkFault, writeFault);
      && (e.marker != current ==>
           IsCurrent(current, generation, phases) && e.marker.Some? && e.marker.value.session == generation.session)
      && (!IsCurrent(current, generation, phases) ==> e.marker == current && e.error.Some?)
    ensures var e := GuardedDelete(current, generation, checkFault, writeFault);
      && (e.marker != current ==> IsCurrent(current, generation, ANY_PHASE) && e.marker.None?)
      && (!IsCurrent(current, generation, ANY_PHASE) ==> e.marker == current && e.error.Some?)
  {
  }

  /** The marker an update makes of one that admits it, None where it must be refused. */
  function Updated(m: Marker, op: MarkerOp): Option<Marker> {
    match op
    case MarkCleanupPending => if m.phase.Recoverable? then None else Some(m.(phase := CleanupPending))
    case MarkRecoverable => Some(m.(phase := Recoverable))
    case MarkRefreshAllowed => if m.phase.Prepared? then None else Some(m.(refreshAllowed := true))
    case AdvanceChallenge(c) =>
      if m.phase.Recoverable? || !ValidChallenge(c) || c == m.challenge then None
      else Some(m.(challenge := c, phase := Prepared))
  }

  /**
   A binding's update succeeds exactly when nothing fails, the marker is the generation it
   captured, and its phase admits the update; what it then leaves is that update of it. An
   update that changes nothing writes nothing, so only the inspection can fail.
   */
  lemma GuardedSucceedsExactly(current: Option<Marker>, generation: Generation, op: MarkerOp, checkFault: Fault,
      writeFault: Fault)
    ensures var e := Guarded(current, generation, AdmittedPhases(op), op, checkFault, writeFault);
      && (e.error.None? <==>
           && generation.session != "" && generation.challenge != "" && !checkFault.InspectFails? && current.Some?
           && current.value.session == generation.session && current.value.challenge == generation.challenge
           && Updated(current.value, op).Some?
           && (writeFault.NoFault? || (Updated(current.value, op) == current && !writeFault.InspectFails?)))
      && (e.error.None? ==> e.marker == Updated(current.value, op))
  {
    if current.Some? {
      match current.value.phase
      case Prepared =>
      case CleanupPending =>
      case Recoverable =>
    }
  }

  /**
   After an update that took effect but reported failure, the binding that issued
   an advance is stale: every later call of that binding leaves the marker alone.
   */
  lemma UncertainAdvanceStrandsBinding(current: Option<Marker>, generation: Generation, next: Challenge, op: MarkerOp,
                                       phases: set<Phase>, checkFault: Fault, writeFault: Fault)
    requires IsCurrent(current, generation, AdmittedPhases(AdvanceChallenge(next)))
    requires ValidChallenge(next) && next != generation.challenge
    ensures var advanced :=
        Guarded(current, generation, AdmittedPhases(AdvanceChallenge(next)), AdvanceChallenge(next), NoFault,
        AfterRename);
      && advanced.error.Some? && advanced.marker.value.challenge == next
      && Guarded(advanced.marker, generation, phases, op, checkFault, writeFault).marker == advanced.marker
      && Guarded(advanced.marker, generation, phases, op, checkFault, writeFault).error.Some?
      && GuardedDelete(advanced.marker, generation, checkFault, writeFault).marker == advanced.marker
      && GuardedDelete(advanced.marker, generation, checkFault, writeFault).error.Some?
  {
  }

  /** What a finalizing call leaves as the record, and what it returns. */
  datatype Verdict = Verdict(record: Option<Record>, disposition: Disposition, error: Option<StoreError>)

  /** Replacing the record by a projection, once it has verified. */
  function Replacing(stored: Option<Record>, record: Record, fault: ProviderFault): Verdict {
    match fault
    case Done => Verdict(Some(record), Refreshed, None)
    case Refused => Verdict(stored, Quarantined, Some(Quarantine))
    case Uncertain => Verdict(Some(record), Quarantined, Some(Quarantine))
  }

  /** Status finalization past its guards: against the record the binding holds. */
  function StatusVerdict(verify: Verifier, stored: Option<Record>, held: Record, projected: Option<Auth>,
      fault: ProviderFault): Verdict
  {
    if projected.None? then Verdict(stored, Discarded, Some(ProjectionInvalid))
    else if projected.value == held.auth then Verdict(stored, Discarded, None)
    else if verify(projected.value) != Some(held.metadata) then Verdict(stored, Discarded, Some(ProjectionInvalid))
    else Replacing(stored, Record(held.metadata, projected.value), fault)
  }

  /** Recovery finalization past its guards: against the record it loads, and lenient about an unreadable projection. */
  function RecoveryVerdict(verify: Verifier, stored: Option<Record>, refreshAllowed: bool, projected: Option<Auth>,
      fault: ProviderFault): Verdict
  {
    if stored.None? || !refreshAllowed || projected.None? || projected.value == stored.value.auth
        then Verdict(stored, Discarded, None)
    else if verify(projected.value) != Some(stored.value.metadata)
        then Verdict(stored, Discarded, Some(ProjectionInvalid))
    else Replacing(stored, Record(stored.value.metadata, projected.value), fault)
  }

  datatype LoginVerdict = LoginVerdict(record: Option<Record>, error: Option<StoreError>)

  /** Commit of a login past its guards: a record is created from a verified credential, never replaced. */
  function Committed(verify: Verifier, stored: Option<Record>, projected: Option<Auth>,
      fault: ProviderFault): LoginVerdict
  {
    if projected.None? then LoginVerdict(stored, Some(Unsupported))
    else if verify(projected.value).None? then LoginVerdict(stored, Some(ProjectionInvalid))
    else if stored.Some? || fault.Refused? then LoginVerdict(stored, Some(Unavailable))
    else LoginVerdict(Some(Record(verify(projected.value).value, projected.value)), if fault.Done? then None
        else Some(Unavailable))
  }

  /**
   Both finalizations do the same to the record: they leave it, or leave what
   `Finalized` says, and say which: discarded means unchanged, refreshed means the
   projection under the old metadata, and only an uncertain write leaves it open. Status
   reports no error exactly when it could read what the record holds, or stored the
   projection; recovery also forgives a projection it cannot read or may not store.
   */
  lemma VerdictsAreTruthful(verify: Verifier, held: Record, projected: Option<Auth>, fault: ProviderFault)
    ensures forall v | v == StatusVerdict(verify, Some(held), held, projected, fault)
        || v == RecoveryVerdict(verify, Some(held), true, projected, fault) ::
              && (v.record == Some(held) || v.record == Some(Finalized(verify, held, projected)))
              && (v.disposition.Discarded? ==> v.record == Some(held) == Some(Finalized(verify, held, projected)))
              && (v.disposition.Refreshed? <==> fault.Done? && Finalized(verify, held, projected) != held)
              && (v.disposition.Refreshed? ==> v.record == Some(Finalized(verify, held, projected)) && v.error.None?)
              && (v.disposition.Quarantined? <==> !fault.Done? && Finalized(verify, held, projected) != held)
    ensures StatusVerdict(verify, Some(held), held, projected, fault).record ==
        RecoveryVerdict(verify, Some(held), true, projected, fault).record
    ensures StatusVerdict(verify, Some(held), held, projected, fault).error.None? <==>
              && projected.Some?
              && (projected.value == held.auth || (verify(projected.value) == Some(held.metadata) && fault.Done?))
    ensures forall stored: Option<Record>, permitted: bool ::
        RecoveryVerdict(verify, stored, permitted, projected, fault).error.None? <==>
          || stored.None? || !permitted || projected.None? || projected.value == stored.value.auth
          || (verify(projected.value) == Some(stored.value.metadata) && fault.Done?)
  {
  }

  /** The private credential records, one per identity. */
  class Provider {
    var records: map<Name, Record>

    constructor ()
      ensures records == map[]
    {
      records := map[];
    }

    function At(name: Name): (r: Option<Record>)
      reads this
    {
      if name in records then Some(records[name]) else None
    }

    /** Stores a record that does not exist yet. */
    method Create(name: Name, record: Record, fault: ProviderFault) returns (ok: bool)
      modifies this
      ensures ok == (fault.Done? && old(At(name)).None?)
      ensures At(name) == if old(At(name)).None? && !fault.Refused? then Some(record) else old(At(name))
      ensures forall n | n != name :: At(n) == old(At(n))
    {
      if name in records || fault.Refused? { return false; }
      records := records[name := record];
      return fault.Done?;
    }

    method Replace(name: Name, record: Record, fault: ProviderFault) returns (ok: bool)
      modifies this
      ensures ok == fault.Done?
      ensures At(name) == if fault.Refused? then old(At(name)) else Some(record)
      ensures forall n | n != name :: At(n) == old(At(n))
    {
      if fault.Refused? { return false; }
      records := records[name := record];
      return fault.Done?;
    }

    method Delete(name: Name, fault: ProviderFault) returns (ok: bool)
      modifies this
      ensures ok == fault.Done?
      ensures At(name) == if fault.Refused? then old(At(name)) else None
      ensures forall n | n != name :: At(n) == old(At(n))
    {
      if fault.Refused? { return false; }
      records := map n | n in records && n != name :: records[n];
      return fault.Done?;
    }
  }

  /** The exclusive identity locks. */
  class Locks {
    var held: set<Name>

    constructor ()
      ensures held == {}
    {
      held := {};
    }

    method TryLock(name: Name) returns (ok: bool)
      modifies this
      ensures ok == (name !in old(held))
      ensures held == old(held) + {name}
    {
      ok := name !in held;
      held := held + {name};
    }

    method Release(name: Name)
      modifies this
      ensures held == old(held) - {name}
    {
      held := held - {name};
    }
  }

  class Store {
    const provider: Provider
    const locks: Locks
    const markers: FileQuarantine
    const verify: Verifier

    constructor (provider: Provider, locks: Locks, markers: FileQuarantine, verify: Verifier)
      ensures this.provider == provider && this.locks == locks && this.markers == markers && this.verify == verify
    {
      this.provider, this.locks, this.markers, this.verify := provider, locks, markers, verify;
    }

    /** Takes the identity lock, and gives it back when a marker is found although none may exist. */
    method Acquire(name: Name, allowMarker: bool, fault: Fault) returns (error: Option<StoreError>)
      modifies locks
      ensures error.None? <==>
          name !in old(locks.held) && (allowMarker || (!fault.InspectFails? && markers.At(name).None?))
      ensures locks.held == if error.None? then old(locks.held) + {name} else old(locks.held)
    {
      var locked := locks.TryLock(name);
      if !locked { return Some(Busy); }
      if !allowMarker {
        var marker, inspectError := markers.Inspect(name, fault);
        if inspectError.Some? || marker.Some? {
          locks.Release(name);
          return if inspectError.Some? then Some(MarkerError(inspectError.value)) else Some(Busy);
        }
      }
      return None;
    }

    /** A login binding exists only for an unmarked identity without a record. */
    method AcquireLogin(name: Name, fault: Fault, providerFails: bool)
        returns (binding: Option<Binding>, error: Option<StoreError>)
      modifies locks
      ensures binding.Some? == error.None?
      ensures binding.Some? <==>
                (name !in old(locks.held) && !fault.InspectFails? && markers.At(name).None? && !providerFails
                  && provider.At(name).None?)
      ensures binding.Some? ==> && fresh(binding.value) && binding.value.Owns(this, name) && binding.value.record.None?
                                && binding.value.generation == Generation("", "")
      ensures locks.held == if error.None? then old(locks.held) + {name} else old(locks.held)
    {
      binding := None;
      error := Acquire(name, false, fault);
      if error.Some? { return; }
      if providerFails || name in provider.records {
        locks.Release(name);
        error := Some(if providerFails then Unavailable else Exists);
        return;
      }
      var b := new Binding(this, name, None);
      binding := Some(b);
    }

    /** A status or launch binding exists only for an unmarked identity, and holds its record. */
    method AcquireStatus(name: Name, fault: Fault, providerFails: bool)
        returns (binding: Option<Binding>, error: Option<StoreError>)
      modifies locks
      ensures binding.Some? == error.None?
      ensures binding.Some? <==>
                (name !in old(locks.held) && !fault.InspectFails? && markers.At(name).None? && !providerFails
                  && provider.At(name).Some?)
      ensures binding.Some? ==>
          && fresh(binding.value) && binding.value.Owns(this, name) && binding.value.record == provider.At(name)
                                && binding.value.generation == Generation("", "")
      ensures locks.held == if error.None? then old(locks.held) + {name} else old(locks.held)
    {
      binding := None;
      error := Acquire(name, false, fault);
      if error.Some? { return; }
      if providerFails || name !in provider.records {
        locks.Release(name);
        error := Some(if providerFails then Unavailable else NotFound);
        return;
      }
      var b := new Binding(this, name, Some(provider.records[name]));
      binding := Some(b);
    }

    /** Logout removes a record only while no marker of the identity exists. */
    method Logout(name: Name, fault: Fault, providerFault: ProviderFault) returns (error: Option<StoreError>)
      modifies locks, provider
      ensures locks.held == old(locks.held)
      ensures forall n | n != name :: provider.At(n) == old(provider.At(n))
      ensures provider.At(name) != old(provider.At(name)) ==>
                provider.At(name).None? && markers.At(name).None? && name !in old(locks.held)
      ensures error.None? <==>
          name !in old(locks.held) && !fault.InspectFails? && markers.At(name).None? && providerFault.Done?
      ensures error.None? ==> provider.At(name).None?
    {
      error := Acquire(name, false, fault);
      if error.Some? { return; }
      var ok := provider.Delete(name, providerFault);
      locks.Release(name);
      if !ok { error := Some(Unavailable); }
    }
  }

  /** One identity lock, the generation it published, and for status the validated record. */
  class Binding {
    const store: Store
    const name: Name
    var locked: bool
    var record: Option<Record>
    var generation: Generation

    predicate Owns(store: Store, name: Name)
      reads this
    {
      this.store == store && this.name == name && locked
    }

    constructor (store: Store, name: Name, record: Option<Record>)
      ensures Owns(store, name) && this.record == record && generation == Generation("", "")
    {
      this.store, this.name, this.locked, this.record, this.generation := store, name, true, record, Generation("", "");
    }

    method Release()
      modifies this, store.locks
      ensures !locked && generation == old(generation)
      ensures store.locks.held == if old(locked) then old(store.locks.held) - {name} else old(store.locks.held)
      ensures record.None? || !old(locked)
    {
      if !locked { return; }
      locked, record := false, None;
      store.locks.Release(name);
    }

    /** The generation is captured before the marker is created, so a failed publication can be recognised. */
    method PublishPrepared(session: SessionId, challenge: Challenge, fault: Fault) returns (error: Option<StoreError>)
      modifies this, store.markers
      ensures locked == old(locked) && record == old(record)
      ensures !old(locked) ==>
          error.Some? && generation == old(generation) && store.markers.At(name) == old(store.markers.At(name))
      ensures old(locked) ==>
                var e := Created(old(store.markers.At(name)), Marker(session, Prepared, challenge, false), fault);
                generation == Generation(session, challenge) && store.markers.At(name) == e.marker
                  && error.None? == e.Ok()
      ensures forall n | n != name :: store.markers.At(n) == old(store.markers.At(n))
    {
      if !locked { return Some(Unavailable); }
      generation := Generation(session, challenge);
      var e := store.markers.Create(name, Marker(session, Prepared, challenge, false), fault);
      return if e.Some? then Some(MarkerError(e.value)) else None;
    }

    /** Distinguishes a publication that took effect from one that did not, after an uncertain error. */
    method Published(fault: Fault) returns (published: bool, error: Option<StoreError>)
      ensures error.None? <==> locked && !fault.InspectFails?
      ensures error.None? ==> (published <==> exists refreshAllowed ::
                store.markers.At(name) ==
                  Some(Marker(generation.session, Prepared, generation.challenge, refreshAllowed)))
    {
      if !locked { return false, Some(Unavailable); }
      var marker, e := store.markers.Inspect(name, fault);
      if e.Some? { return false, Some(MarkerError(e.value)); }
      published := marker.Some? && marker.value.session == generation.session
                   && marker.value.challenge == generation.challenge && marker.value.phase.Prepared?;
      assert published ==>
          marker == Some(Marker(generation.session, Prepared, generation.challenge, marker.value.refreshAllowed));
      return published, None;
    }

    method CurrentGeneration(phases: set<Phase>, fault: Fault) returns (marker: Option<Marker>, error: Option<Error>)
      ensures error.None? ==> IsCurrent(store.markers.At(name), generation, phases) && marker == store.markers.At(name)
      ensures error == CurrentError(store.markers.At(name), generation, phases, fault)
    {
      if generation.session == "" || generation.challenge == "" { return None, Some(BindingQuarantined); }
      var m, e := store.markers.Inspect(name, fault);
      if e.Some? { return None, e; }
      if m.None? || m.value.session != generation.session || m.value.challenge != generation.challenge
          || m.value.phase !in phases
      {
        return None, Some(BindingQuarantined);
      }
      return m, None;
    }

    /** The one shape of `MarkCleanupPending`, `MarkRefreshAllowed` and `MarkRecoverable`. */
    method Mark(op: MarkerOp, checkFault: Fault, writeFault: Fault) returns (ok: bool)
      requires !op.AdvanceChallenge?
      modifies store.markers
      ensures var e := Guarded(old(store.markers.At(name)), generation, AdmittedPhases(op), op, checkFault, writeFault);
        if locked then store.markers.At(name) == e.marker && ok == e.Ok()
        else store.markers.At(name) == old(store.markers.At(name)) && !ok
      ensures forall n | n != name :: store.markers.At(n) == old(store.markers.At(n))
    {
      if !locked { return false; }
      var _, e := CurrentGeneration(AdmittedPhases(op), checkFault);
      if e.Some? { return false; }
      var w := store.markers.Update(name, op, writeFault);
      return w.None?;
    }

    /** The binding follows the new challenge only when the update reported success. */
    method AdvanceCleanupChallenge(challenge: Challenge, checkFault: Fault, writeFault: Fault) returns (ok: bool)
      modifies this, store.markers
      ensures locked == old(locked) && record == old(record)
      ensures var op := AdvanceChallenge(challenge);
        var e := Guarded(old(store.markers.At(name)), old(generation), AdmittedPhases(op), op, checkFault, writeFault);
        if old(locked) && ValidChallenge(challenge) && challenge != old(generation).challenge
        then store.markers.At(name) == e.marker && ok == e.Ok()
        else store.markers.At(name) == old(store.markers.At(name)) && !ok
      ensures generation == if ok then old(generation).(challenge := challenge) else old(generation)
      ensures forall n | n != name :: store.markers.At(n) == old(store.markers.At(n))
    {
      if !locked || !ValidChallenge(challenge) || challenge == generation.challenge { return false; }
      var _, e := CurrentGeneration({Prepared, CleanupPending}, checkFault);
      if e.Some? { return false; }
      var w := store.markers.Update(name, AdvanceChallenge(challenge), writeFault);
      if w.Some? { return false; }
      generation := generation.(challenge := challenge);
      return true;
    }

    /** The background settler takes its own lock, and may only move its own pending generation. */
    method SettlePending(expected: Generation, checkFault: Fault, writeFault: Fault) returns (ok: bool, busy: bool)
      modifies store.locks, store.markers
      ensures store.locks.held == old(store.locks.held)
      ensures busy <==> expected == generation && name in old(store.locks.held)
      ensures var e :=
          Guarded(old(store.markers.At(name)), generation, {CleanupPending}, MarkRecoverable, checkFault, writeFault);
        if expected == generation && !busy then store.markers.At(name) == e.marker && ok == e.Ok()
        else store.markers.At(name) == old(store.markers.At(name)) && !ok
      ensures forall n | n != name :: store.markers.At(n) == old(store.markers.At(n))
    {
      if expected != generation { return false, false; }
      var lockError := store.Acquire(name, true, NoFault);
      if lockError.Some? { return false, true; }
      var _, e := CurrentGeneration({CleanupPending}, checkFault);
      if e.Some? { store.locks.Release(name); return false, false; }
      var w := store.markers.Update(name, MarkRecoverable, writeFault);
      store.locks.Release(name);
      return w.None?, false;
    }

    method DeleteMarkerAfterProjectionRemoval(checkFault: Fault, writeFault: Fault) returns (ok: bool)
      modifies store.markers
      ensures var e := GuardedDelete(old(store.markers.At(name)), generation, checkFault, writeFault);
        if locked then store.markers.At(name) == e.marker && ok == e.Ok()
        else store.markers.At(name) == old(store.markers.At(name)) && !ok
      ensures forall n | n != name :: store.markers.At(n) == old(store.markers.At(n))
    {
      if !locked { return false; }
      var _, e := CurrentGeneration(ANY_PHASE, checkFault);
      if e.Some? { return false; }
      var w := store.markers.Delete(name, writeFault);
      return w.None?;
    }

    /** A record is created only from a recoverable own generation and a verified credential. */
    method CommitLogin(projected: Option<Auth>, protected: bool, fault: Fault, providerFault: ProviderFault)
        returns (metadata: Option<Metadata>, error: Option<StoreError>)
      modifies store.provider
      ensures forall n | n != name :: store.provider.At(n) == old(store.provider.At(n))
      ensures LoginVerdict(store.provider.At(name), error) ==
              if !locked || record.Some? then LoginVerdict(old(store.provider.At(name)), Some(Unavailable))
              else if CurrentError(store.markers.At(name), generation, {Recoverable}, fault).Some? then
                LoginVerdict(old(store.provider.At(name)),
                  Some(MarkerError(CurrentError(store.markers.At(name), generation, {Recoverable}, fault).value)))
              else if !protected then LoginVerdict(old(store.provider.At(name)), Some(Quarantine))
              else Committed(store.verify, old(store.provider.At(name)), projected, providerFault)
      ensures metadata == if error.None? then Some(store.provider.At(name).value.metadata) else None
    {
      if !locked || record.Some? { return None, Some(Unavailable); }
      var _, e := CurrentGeneration({Recoverable}, fault);
      if e.Some? { return None, Some(MarkerError(e.value)); }
      if !protected { return None, Some(Quarantine); }
      if projected.None? { return None, Some(Unsupported); }
      var verified := store.verify(projected.value);
      if verified.None? { return None, Some(ProjectionInvalid); }
      var ok := store.provider.Create(name, Record(verified.value, projected.value), providerFault);
      if !ok { return None, Some(Unavailable); }
      return verified, None;
    }

    /**
     Status finalization. A refreshed disposition says the record now is the
     projection under unchanged metadata; a discarded one that nothing was written.
     */
    method FinalizeStatus(projected: Option<Auth>, protected: bool, fault: Fault, providerFault: ProviderFault)
        returns (disposition: Disposition, error: Option<StoreError>)
      modifies store.provider
      ensures forall n | n != name :: store.provider.At(n) == old(store.provider.At(n))
      ensures Verdict(store.provider.At(name), disposition, error) ==
              if !locked || record.None? then Verdict(old(store.provider.At(name)), Quarantined, Some(Unavailable))
              else if fault.InspectFails? || !IsCurrent(store.markers.At(name), generation, {Recoverable})
                      || !store.markers.At(name).value.refreshAllowed || !protected
                           then Verdict(old(store.provider.At(name)), Quarantined, Some(Quarantine))
              else StatusVerdict(store.verify, old(store.provider.At(name)), record.value, projected, providerFault)
    {
      if !locked || record.None? { return Quarantined, Some(Unavailable); }
      var marker, e := CurrentGeneration({Recoverable}, fault);
      if e.Some? || !marker.value.refreshAllowed { return Quarantined, Some(Quarantine); }
      if !protected { return Quarantined, Some(Quarantine); }
      if projected.None? { return Discarded, Some(ProjectionInvalid); }
      if projected.value == record.value.auth { return Discarded, None; }
      var verified := store.verify(projected.value);
      if verified.None? { return Discarded, Some(ProjectionInvalid); }
      if verified.value != record.value.metadata { return Discarded, Some(ProjectionInvalid); }
      var ok := store.provider.Replace(name, Record(verified.value, projected.value), providerFault);
      if !ok { return Quarantined, Some(Quarantine); }
      return Refreshed, None;
    }
  }

  /** A lock over an existing marker; it can neither create a record nor see one. */
  class RecoveryBinding {
    const store: Store
    const name: Name
    const marker: Marker
    var locked: bool

    constructor (store: Store, name: Name, marker: Marker)
      ensures this.store == store && this.name == name && this.marker == marker && locked
    {
      this.store, this.name, this.marker, this.locked := store, name, marker, true;
    }

    method Release()
      modifies this, store.locks
      ensures !locked
      ensures store.locks.held == if old(locked) then old(store.locks.held) - {name} else old(store.locks.held)
    {
      if !locked { return; }
      locked := false;
      store.locks.Release(name);
    }

    /** An absent marker is already deleted; any marker but the captured one is left alone. */
    method DeleteMarkerAfterProjectionRemoval(checkFault: Fault, writeFault: Fault) returns (ok: bool)
      modifies store.markers
      ensures locked && !checkFault.InspectFails? && old(store.markers.At(name)) == Some(marker) ==>
                var e := Deleted(old(store.markers.At(name)), writeFault);
                store.markers.At(name) == e.marker && ok == e.Ok()
      ensures !locked || checkFault.InspectFails? || old(store.markers.At(name)) != Some(marker) ==>
                && store.markers.At(name) == old(store.markers.At(name))
                && (ok <==> locked && !checkFault.InspectFails? && old(store.markers.At(name)).None?)
      ensures forall n | n != name :: store.markers.At(n) == old(store.markers.At(n))
    {
      if !locked { return false; }
      var current, e := store.markers.Inspect(name, checkFault);
      if e.Some? { return false; }
      if current.None? { return true; }
      if current.value != marker { return false; }
      var w := store.markers.Delete(name, writeFault);
      return w.None?;
    }

    /** Recovery finalization computes the same record as status finalization, from the record it loads. */
    method FinalizeRecovery(projected: Option<Auth>, protected: bool, fault: Fault, loadFails: bool,
        providerFault: ProviderFault)
        returns (disposition: Disposition, error: Option<StoreError>)
      modifies store.provider
      ensures forall n | n != name :: store.provider.At(n) == old(store.provider.At(n))
      ensures Verdict(store.provider.At(name), disposition, error) ==
              if !locked || marker.phase.Prepared? || fault.InspectFails? || store.markers.At(name) != Some(marker)
                  || !protected || loadFails
              then Verdict(old(store.provider.At(name)), Quarantined, Some(Quarantine))
              else RecoveryVerdict(store.verify, old(store.provider.At(name)), marker.refreshAllowed, projected,
                  providerFault)
    {
      if !locked || marker.phase.Prepared? { return Quarantined, Some(Quarantine); }
      var current, e := store.markers.Inspect(name, fault);
      if e.Some? || current != Some(marker) { return Quarantined, Some(Quarantine); }
      if !protected { return Quarantined, Some(Quarantine); }
      if loadFails { return Quarantined, Some(Quarantine); }
      if name !in store.provider.records || !marker.refreshAllowed { return Discarded, None; }
      var record := store.provider.records[name];
      if projected.None? { return Discarded, None; }
      if projected.value == record.auth { return Discarded, None; }
      var verified := store.verify(projected.value);
      if verified.None? { return Discarded, Some(ProjectionInvalid); }
      if verified.value != record.metadata { return Discarded, Some(ProjectionInvalid); }
      var ok := store.provider.Replace(name, Record(verified.value, projected.value), providerFault);
      if !ok { return Quarantined, Some(Quarantine); }
      return Refreshed, None;
    }
  }

  datatype Locking = Free | InUse | Broken

  /** What one turn of the recovery acquisition loop meets: the lock, then the marker on disk and the context. */
  datatype Poll = Poll(lock: Locking, inspectFails: bool, cancelled: bool, marker: Option<Marker>)

  datatype Acquisition =
    | Captured(marker: Marker)
    | NothingToRecover
    | Failed(error: StoreError)

  /** What the loop makes of the polls from one turn on, having seen `expected` while it waited. */
  function Polled(polls: seq<Poll>, expected: Option<Marker>): Acquisition
    decreases |polls|
  {
    if polls == [] then Failed(Cancelled)
    else
      var poll := polls[0];
      if poll.lock.Broken? then Failed(Unavailable)
      else if poll.lock.Free? then
        if poll.inspectFails then Failed(MarkerError(ProviderUnavailable))
        else if poll.marker.None? then NothingToRecover
        else if expected.Some? && poll.marker != expected then Failed(GenerationChanged)
        else Captured(poll.marker.value)
      else if poll.inspectFails then Failed(if poll.cancelled then Cancelled else Busy)
      else if expected.None? then
        if poll.marker.None? || !poll.marker.value.phase.Recoverable? then Failed(Busy)
            else Polled(polls[1..], poll.marker)
      else if poll.marker.Some? && poll.marker != expected then Failed(GenerationChanged)
      else Polled(polls[1..], expected)
  }

  /**
   A recovery that had to wait captures only the recoverable generation it first saw:
   every marker it met on the way was that one. Any other marker, met while waiting
   or at the end, ends it with the generation-changed error.
   */
  lemma {:induction false} WaitingRecoveryKeepsItsGeneration(polls: seq<Poll>, expected: Option<Marker>)
      returns (turn: nat)
    ensures var result := Polled(polls, expected);
      && (result.Captured? ==>
            && turn < |polls| && polls[turn].lock.Free? && !polls[turn].inspectFails
                 && polls[turn].marker == Some(result.marker)
            && (expected.Some? ==> expected == Some(result.marker))
            && (forall i | 0 <= i < turn ::
                  polls[i].lock.InUse? && !polls[i].inspectFails
                    && (polls[i].marker.Some? ==> polls[i].marker == Some(result.marker)))
            && (0 < turn && expected.None? ==> result.marker.phase.Recoverable?))
      && (result == Failed(GenerationChanged) ==>
            && turn < |polls| && !polls[turn].inspectFails && polls[turn].marker.Some?
            && (expected.Some? || 0 < turn) && (expected.Some? ==> polls[turn].marker != expected))
    decreases |polls|
  {
    turn := 0;
    if polls != [] && polls[0].lock.InUse? && !polls[0].inspectFails && Polled(polls, expected) != Failed(Busy) {
      var next := if expected.None? then polls[0].marker else expected;
      if expected.None? || polls[0].marker.None? || polls[0].marker == expected {
        var rest := WaitingRecoveryKeepsItsGeneration(polls[1..], next);
        assert forall i | 0 <= i < |polls| - 1 :: polls[1..][i] == polls[i + 1];
        turn := rest + 1;
        assert forall i | 0 < i < turn && i < |polls| :: polls[i] == polls[1..][i - 1];
      }
    }
  }

  /**
   `AcquireRecovery` retries while the identity is busy, but waits only for a
   recoverable marker. The loop ends with the polls, when the context is cancelled
   during the wait between two of them.
   */
  method AcquireRecovery(polls: seq<Poll>) returns (result: Acquisition)
    ensures result == Polled(polls, None)
  {
    var expected: Option<Marker> := None;
    for turn := 0 to |polls|
      invariant Polled(polls, None) == Polled(polls[turn..], expected)
    {
      var poll := polls[turn];
      assert polls[turn..][1..] == polls[turn + 1..];
      if poll.lock.Broken? { return Failed(Unavailable); }
      if poll.lock.Free? {
        if poll.inspectFails { return Failed(MarkerError(ProviderUnavailable)); }
        if poll.marker.None? { return NothingToRecover; }
        if expected.Some? && poll.marker != expected { return Failed(GenerationChanged); }
        return Captured(poll.marker.value);
      }
      if poll.inspectFails { return Failed(if poll.cancelled then Cancelled else Busy); }
      if expected.None? {
        if poll.marker.None? || !poll.marker.value.phase.Recoverable? { return Failed(Busy); }
        expected := poll.marker;
      } else if poll.marker.Some? && poll.marker != expected {
        return Failed(GenerationChanged);
      }
    }
    return Failed(Cancelled);
  }
}
