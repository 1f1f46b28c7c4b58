/**
 The durable quarantine marker of one named identity
 (internal/codexauthresource/quarantine.go).

 A marker file is replaced by writing a temporary, renaming it into place and
 synchronising the directory. The rename can take effect and the synchronisation
 still report failure, so every write below carries the place where it fails.
 */
module Quarantine {
  import opened Options

  type Name = string
  type SessionId = string
  type Challenge = string

  datatype Phase = Prepared | CleanupPending | Recoverable

  datatype Marker = Marker(session: SessionId, phase: Phase, challenge: Challenge, refreshAllowed: bool)

  datatype Error = ProviderUnavailable | BindingQuarantined | IdentityBusy

  /** Where a directory operation fails, if it does. */
  datatype Fault = NoFault | InspectFails | BeforeRename | AfterRename

  datatype MarkerOp =
    | MarkCleanupPending
    | MarkRecoverable
    | MarkRefreshAllowed
    | AdvanceChallenge(challenge: Challenge)

  /** The marker on disk after an operation, and the error it reports. */
  datatype Effect = Effect(marker: Option<Marker>, error: Option<Error>) {
    predicate Ok() { error.None? }
  }

  datatype Mutation = Changed(marker: Marker) | Unchanged | Rejected

  predicate LowerHex(c: char) { '0' <= c <= '9' || 'a' <= c <= 'f' }

  predicate ValidChallenge(c: Challenge) { |c| == 64 && forall i | 0 <= i < |c| :: LowerHex(c[i]) }

  predicate SessionChar(c: char) {
    '0' <= c <= '9' || 'a' <= c <= 'z' || 'A' <= c <= 'Z' || c == '.' || c == '_' || c == '-'
  }

  predicate ValidSession(s: SessionId) {
    "session-" <= s && 9 <= |s| <= 136 && forall i | 8 <= i < |s| :: SessionChar(s[i])
  }

  predicate ValidMarker(m: Marker) { ValidSession(m.session) && ValidChallenge(m.challenge) }

  /** What one update closure does to the marker it was handed. */
  function Mutate(op: MarkerOp, m: Marker): Mutation {
    match op
    case MarkCleanupPending =>
      if m.phase.CleanupPending? then Unchanged
      else if !m.phase.Prepared? then Rejected
      else Changed(m.(phase := CleanupPending))
    case MarkRecoverable =>
      if m.phase.Recoverable? then Unchanged else Changed(m.(phase := Recoverable))
    case MarkRefreshAllowed =>
      if m.phase.Prepared? then Rejected
      else if m.refreshAllowed then Unchanged
      else Changed(m.(refreshAllowed := true))
    case AdvanceChallenge(c) =>
      if !ValidChallenge(c) || m.phase.Recoverable? || m.challenge == c then Rejected
      else Changed(m.(challenge := c, phase := Prepared))
  }

  /** `update`: inspect, mutate, then rename a temporary over the marker. */
  function Written(current: Option<Marker>, op: MarkerOp, fault: Fault): Effect {
    if op.AdvanceChallenge? && !ValidChallenge(op.challenge) then Effect(current, Some(BindingQuarantined))
    else if fault.InspectFails? then Effect(current, Some(ProviderUnavailable))
    else if current.None? then Effect(None, Some(BindingQuarantined))
    else match Mutate(op, current.value)
      case Rejected => Effect(current, Some(BindingQuarantined))
      case Unchanged => Effect(current, None)
      case Changed(m) =>
        match fault
        case BeforeRename => Effect(current, Some(ProviderUnavailable))
        case AfterRename => Effect(Some(m), Some(BindingQuarantined))
        case _ => Effect(Some(m), None)
  }

  /** `Create`: the rename never replaces an existing marker. */
  function Created(current: Option<Marker>, m: Marker, fault: Fault): Effect {
    if !ValidMarker(m) || fault.InspectFails? || fault.BeforeRename? then Effect(current, Some(ProviderUnavailable))
    else if current.Some? then Effect(current, Some(IdentityBusy))
    else if fault.AfterRename? then Effect(Some(m), Some(BindingQuarantined))
    else Effect(Some(m), None)
  }

  /** `Delete`: an absent marker is deleted already, but the directory is still synchronised. */
  function Deleted(current: Option<Marker>, fault: Fault): Effect {
    match fault
    case NoFault => Effect(None, None)
    case AfterRename => Effect(None, Some(ProviderUnavailable))
    case _ => Effect(current, Some(ProviderUnavailable))
  }

  function Apply(current: Option<Marker>, ops: seq<(MarkerOp, Fault)>): Option<Marker>
    decreases |ops|
  {
    if ops == [] then current
    else Apply(Written(current, ops[0].0, ops[0].1).marker, ops[1..])
  }

  /**
   No sequence of updates, whatever fails inside it, moves a marker to another
   Session, takes a refresh permission back, or leaves the recoverable phase.
   */
  lemma {:induction false} UpdatesOnlyAdvance(m: Marker, ops: seq<(MarkerOp, Fault)>)
    ensures var r := Apply(Some(m), ops);
      && r.Some? && r.value.session == m.session
      && (m.refreshAllowed ==> r.value.refreshAllowed)
      && (m.phase.Recoverable? ==> r.value == m.(refreshAllowed := r.value.refreshAllowed))
    decreases |ops|
  {
    if ops != [] {
      UpdatesOnlyAdvance(Written(Some(m), ops[0].0, ops[0].1).marker.value, ops[1..]);
    }
  }

  /**
   The pair (prepared, refreshAllowed) is not excluded by the marker operations:
   one update enters it exactly when it is an accepted advance of a permitted,
   cleanup-pending marker whose rename takes effect. Only the order in which the
   executor calls the operations rules the pair out.
   */
  lemma PreparedWithPermission(m: Marker, op: MarkerOp, fault: Fault)
    requires !(m.phase.Prepared? && m.refreshAllowed)
    ensures var r := Written(Some(m), op, fault).marker.value;
      r.phase.Prepared? && r.refreshAllowed <==>
        && m.refreshAllowed && m.phase.CleanupPending?
        && op.AdvanceChallenge? && ValidChallenge(op.challenge) && op.challenge != m.challenge
        && !fault.InspectFails? && !fault.BeforeRename?
  {
  }

  /** One directory entry of the marker scan: not a marker file, a name that does not parse, or a marker file. */
  datatype Entry = Skipped | Unparsable | Candidate(name: Name, fault: Fault)

  /** The directory of marker files, one per identity name. */
  class FileQuarantine {
    var files: map<Name, Marker>

    constructor ()
      ensures files == map[]
    {
      files := map[];
    }

    function At(name: Name): (m: Option<Marker>)
      reads this
    {
      if name in files then Some(files[name]) else None
    }

    method Inspect(name: Name, fault: Fault) returns (marker: Option<Marker>, error: Option<Error>)
      ensures fault.InspectFails? ==> marker.None? && error == Some(ProviderUnavailable)
      ensures !fault.InspectFails? ==> marker == At(name) && error.None?
    {
      if fault.InspectFails? { return None, Some(ProviderUnavailable); }
      if name !in files { return None, None; }
      return Some(files[name]), None;
    }

    method Create(name: Name, marker: Marker, fault: Fault) returns (error: Option<Error>)
      modifies this
      ensures Effect(At(name), error) == Created(old(At(name)), marker, fault)
      ensures forall n | n != name :: At(n) == old(At(n))
    {
      if !ValidMarker(marker) { return Some(ProviderUnavailable); }
      if fault.InspectFails? || fault.BeforeRename? { return Some(ProviderUnavailable); }
      if name in files { return Some(IdentityBusy); }
      files := files[name := marker];
      if fault.AfterRename? { return Some(BindingQuarantined); }
      return None;
    }

    method Update(name: Name, op: MarkerOp, fault: Fault) returns (error: Option<Error>)
      modifies this
      ensures Effect(At(name), error) == Written(old(At(name)), op, fault)
      ensures forall n | n != name :: At(n) == old(At(n))
    {
      if op.AdvanceChallenge? && !ValidChallenge(op.challenge) { return Some(BindingQuarantined); }
      var marker, inspectError := Inspect(name, fault);
      if inspectError.Some? { return inspectError; }
      if marker.None? { return Some(BindingQuarantined); }
      var mutation := Mutate(op, marker.value);
      match mutation {
        case Rejected => return Some(BindingQuarantined);
        case Unchanged => return None;
        case Changed(m) =>
          if fault.BeforeRename? { return Some(ProviderUnavailable); }
          files := files[name := m];
          if fault.AfterRename? { return Some(BindingQuarantined); }
          return None;
      }
    }

    method Delete(name: Name, fault: Fault) returns (error: Option<Error>)
      modifies this
      ensures Effect(At(name), error) == Deleted(old(At(name)), fault)
      ensures forall n | n != name :: At(n) == old(At(n))
    {
      if fault.InspectFails? || fault.BeforeRename? { return Some(ProviderUnavailable); }
      files := map n | n in files && n != name :: files[n];
      if fault.AfterRename? { return Some(ProviderUnavailable); }
      return None;
    }

    /**
     The bounded scan for the identity whose marker names a Session. The listing
     is what the directory read returned, at most one entry more than the limit.
     The answer is the only match, and nothing is answered past an unusable entry.
     */
    method FindBySession(listing: seq<Entry>, session: SessionId, limit: nat)
        returns (name: Option<Name>, error: Option<Error>)
      requires forall i, j | 0 <= i < j < |listing| && listing[i].Candidate? && listing[j].Candidate? ::
          listing[i].name != listing[j].name
      ensures name.Some? ==>
          error.None? && exists i | 0 <= i < |listing| :: Matches(listing[i], session) && listing[i].name == name.value
      ensures error.None? ==> ValidSession(session) && 0 < limit && |listing| <= limit
      ensures error.None? ==> forall i | 0 <= i < |listing| ::
                Usable(listing[i]) && (Matches(listing[i], session) ==> name == Some(listing[i].name))
      ensures error == Some(BindingQuarantined) ==>
                exists i, j :: 0 <= i < j < |listing| && Matches(listing[i], session) && Matches(listing[j], session)
      ensures ValidSession(session) && 0 < limit && |listing| <= limit && error == Some(ProviderUnavailable) ==>
                exists i | 0 <= i < |listing| :: !Usable(listing[i])
      ensures error.None? || error == Some(ProviderUnavailable) || error == Some(BindingQuarantined)
    {
      if !ValidSession(session) || limit == 0 || |listing| > limit { return None, Some(ProviderUnavailable); }
      name, error := None, None;
      ghost var at := 0;
      for k := 0 to |listing|
        invariant error.None?
        invariant name.Some? ==> 0 <= at < k && Matches(listing[at], session) && listing[at].name == name.value
        invariant forall i | 0 <= i < k ::
            Usable(listing[i]) && (Matches(listing[i], session) ==> name.Some? && i == at)
      {
        match listing[k] {
          case Skipped =>
          case Unparsable => return None, Some(ProviderUnavailable);
          case Candidate(candidate, fault) =>
            var marker, inspectError := Inspect(candidate, fault);
            if inspectError.Some? { return None, inspectError; }
            if marker.Some? && marker.value.session == session {
              assert Matches(listing[k], session);
              if name.Some? { return None, Some(BindingQuarantined); }
              name, at := Some(candidate), k;
            }
        }
      }
    }

    predicate Usable(entry: Entry) {
      entry.Skipped? || (entry.Candidate? && !entry.fault.InspectFails?)
    }

    predicate Matches(entry: Entry, session: SessionId)
      reads this
    {
      entry.Candidate? && At(entry.name).Some? && At(entry.name).value.session == session
    }
  }
}
