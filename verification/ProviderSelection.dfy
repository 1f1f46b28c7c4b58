/**
 The credential provider selection file
 (internal/codexauthresource/provider_selection_linux.go): any number of writers,
 each of which may fail or die anywhere, a directory whose renames become durable
 when it is synchronised, and losses of power that undo what is not.
 */
module ProviderSelection {
  import opened Options
  import opened ByteCoding

  datatype ProviderId = ProviderFile | ProviderSecretService | Unsupported(name: string)

  /** The document a writer stores. */
  function Document(id: ProviderId): Text {
    Ascii("{\"version\":1,\"provider\":\"")
    + Ascii(match id case ProviderFile => "file" case ProviderSecretService => "secret-service"
      case Unsupported(name) => name)
    + Ascii("\"}")
  }

  /** The strict decoder: only the two supported identifiers, and every stored document decodes. */
  ghost predicate Decodes(decode: Text -> Option<ProviderId>) {
    && (forall id: ProviderId :: !id.Unsupported? ==> decode(Document(id)) == Some(id))
    && (forall t: Text :: decode(t).Some? ==> !decode(t).value.Unsupported?)
  }

  datatype Failure = ProviderChoice | ProviderConflict | ProviderNotSelected

  type Return = Option<Failure>

  datatype Pc =
    | Checking
    | Creating
    | Writing
    | Flushing
    | Renaming
    | Rereading
    | Matching(chosen: ProviderId)
    | SyncingDirectory

  datatype Writer = Writer(id: ProviderId, pc: Pc, temporary: Text)

  /** `returned` lists every call that has returned, with its identifier and its error. */
  datatype World = World(stored: Option<Text>, durable: Option<Text>, writers: map<nat, Writer>,
      returned: seq<(ProviderId, Return)>)

  datatype Event =
    | Call(w: nat, id: ProviderId)
    | Read(w: nat, fails: bool)
    | Create(w: nat, fails: bool)
    | Write(w: nat, length: nat)
    | Flush(w: nat, fails: bool)
    | Rename(w: nat, fails: bool)
    | Sync(w: nat, fails: bool, reaches: bool)
    | Crash(w: nat)
    | Persist
    | PowerLoss

  predicate At(s: World, w: nat, pc: Pc) { w in s.writers && s.writers[w].pc == pc }

  predicate Enabled(s: World, e: Event) {
    match e
    case Call(w, _) => w !in s.writers
    case Read(w, _) => At(s, w, Checking) || At(s, w, Rereading)
    case Create(w, _) => At(s, w, Creating)
    case Write(w, length) => At(s, w, Writing) && length <= |Document(s.writers[w].id)|
    case Flush(w, _) => At(s, w, Flushing)
    case Rename(w, _) => At(s, w, Renaming)
    case Sync(w, _, _) => w in s.writers && (s.writers[w].pc.Matching? || s.writers[w].pc.SyncingDirectory?)
    case Crash(w) => w in s.writers
    case Persist => true
    case PowerLoss => true
  }

  function Gone(s: World, w: nat): World { s.(writers := map x | x in s.writers && x != w :: s.writers[x]) }

  /** The temporary goes with the call. */
  function Returns(s: World, w: nat, result: Return): World
    requires w in s.writers
  {
    Gone(s, w).(returned := s.returned + [(s.writers[w].id, result)])
  }

  function Goes(s: World, w: nat, pc: Pc): World
    requires w in s.writers
  {
    s.(writers := s.writers[w := s.writers[w].(pc := pc)])
  }

  function Next(decode: Text -> Option<ProviderId>, s: World, e: Event): World
    requires Enabled(s, e)
  {
    match e
    case Call(w, id) =>
      if id.Unsupported? then s.(returned := s.returned + [(id, Some(ProviderChoice))])
      else s.(writers := s.writers[w := Writer(id, Checking, [])])
    case Read(w, fails) =>
      if s.stored.None? then
        if s.writers[w].pc.Checking? then Goes(s, w, Creating) else Returns(s, w, Some(ProviderNotSelected))
      else if fails || decode(s.stored.value).None? then Returns(s, w, Some(ProviderChoice))
      else if decode(s.stored.value).value != s.writers[w].id then Returns(s, w, Some(ProviderConflict))
      else Goes(s, w, Matching(s.writers[w].id))
    case Create(w, fails) => if fails then Returns(s, w, Some(ProviderChoice)) else Goes(s, w, Writing)
    case Write(w, length) =>
      var document := Document(s.writers[w].id);
      if length < |document| then Returns(s, w, Some(ProviderChoice))
      else s.(writers := s.writers[w := Writer(s.writers[w].id, Flushing, document[..length])])
    case Flush(w, fails) => if fails then Returns(s, w, Some(ProviderChoice)) else Goes(s, w, Renaming)
    case Rename(w, fails) =>
      if fails then Returns(s, w, Some(ProviderChoice))
      else if s.stored.Some? then Goes(s, w, Rereading)
      else Goes(s.(stored := Some(s.writers[w].temporary)), w, SyncingDirectory)
    case Sync(w, fails, reaches) =>
      var s' := if fails && !reaches then s else s.(durable := s.stored);
      Returns(s', w, if fails then Some(ProviderChoice) else None)
    case Crash(w) => Gone(s, w)
    case Persist => s.(durable := s.stored)
    case PowerLoss => s.(stored := s.durable, writers := map[])
  }

  predicate Init(s: World) { s.durable == s.stored && s.writers == map[] && s.returned == [] }

  predicate Run(decode: Text -> Option<ProviderId>, ss: seq<World>, es: seq<Event>) {
    && |ss| == |es| + 1 && Init(ss[0])
    && forall i | 0 <= i < |es| :: Enabled(ss[i], es[i]) && ss[i + 1] == Next(decode, ss[i], es[i])
  }

  /** A whole document of a supported identifier. */
  predicate Whole(t: Text) { t == Document(ProviderFile) || t == Document(ProviderSecretService) }

  ghost predicate WriterSane(decode: Text -> Option<ProviderId>, s: World, x: Writer) {
    && !x.id.Unsupported?
    && (x.pc.Flushing? || x.pc.Renaming? ==> x.temporary == Document(x.id))
    && (x.pc.Matching? || x.pc.SyncingDirectory? ==> s.stored.Some? && decode(s.stored.value) == Some(x.id))
  }

  ghost predicate Inv(decode: Text -> Option<ProviderId>, initial: Option<Text>, s: World) {
    && (s.durable.Some? ==> s.stored == s.durable)
    && (initial.Some? ==> s.stored == s.durable == initial)
    && (s.stored.Some? ==> s.stored == initial || Whole(s.stored.value))
    && (forall w | w in s.writers :: WriterSane(decode, s, s.writers[w]))
    && (forall r | r in s.returned && r.1.None? :: s.durable.Some? && decode(s.durable.value) == Some(r.0))
  }

  /** A step of one writer that leaves the directory alone. */
  lemma WriterKeepsInv(decode: Text -> Option<ProviderId>, initial: Option<Text>, s: World, e: Event)
    requires Decodes(decode) && Inv(decode, initial, s) && Enabled(s, e) && !e.Rename? && !e.Sync? && !e.Persist?
        && !e.PowerLoss?
    ensures Inv(decode, initial, Next(decode, s, e))
  {
    hide Document;
    var s' := Next(decode, s, e);
    assert s'.stored == s.stored && s'.durable == s.durable;
    assert forall r | r in s'.returned && r.1.None? :: r in s.returned;
    hide Whole, Decodes;
  }

  lemma DirectoryKeepsInv(decode: Text -> Option<ProviderId>, initial: Option<Text>, s: World, e: Event)
    requires Decodes(decode) && Inv(decode, initial, s) && Enabled(s, e) && (e.Rename? || e.Persist? || e.PowerLoss?)
    ensures Inv(decode, initial, Next(decode, s, e))
  {
    hide Document;
  }

  lemma SyncKeepsInv(decode: Text -> Option<ProviderId>, initial: Option<Text>, s: World, e: Event)
    requires Decodes(decode) && Inv(decode, initial, s) && Enabled(s, e) && e.Sync?
    ensures Inv(decode, initial, Next(decode, s, e))
  {
    hide Document;
  }

  lemma NextKeepsInv(decode: Text -> Option<ProviderId>, initial: Option<Text>, s: World, e: Event)
    requires Decodes(decode) && Inv(decode, initial, s) && Enabled(s, e)
    ensures Inv(decode, initial, Next(decode, s, e))
  {
    hide *;
    if e.Sync? {
      SyncKeepsInv(decode, initial, s, e);
    } else if e.Rename? || e.Persist? || e.PowerLoss? {
      DirectoryKeepsInv(decode, initial, s, e);
    } else {
      WriterKeepsInv(decode, initial, s, e);
    }
  }

  lemma {:induction false} RunsKeepInv(decode: Text -> Option<ProviderId>, ss: seq<World>, es: seq<Event>, i: nat)
    requires Decodes(decode) && Run(decode, ss, es) && i < |ss|
    ensures Inv(decode, ss[0].stored, ss[i])
  {
    hide Decodes;
    if i > 0 {
      RunsKeepInv(decode, ss, es, i - 1);
      NextKeepsInv(decode, ss[0].stored, ss[i - 1], es[i - 1]);
    }
  }

  /** What is visible is never partial: it is what was there at first, or a whole document. */
  lemma NeverPartial(decode: Text -> Option<ProviderId>, ss: seq<World>, es: seq<Event>, i: nat)
    requires Decodes(decode) && Run(decode, ss, es) && i < |ss| && ss[i].stored.Some?
    ensures ss[i].stored == ss[0].stored || Whole(ss[i].stored.value)
  {
    RunsKeepInv(decode, ss, es, i);
  }

  /** What is visible never changes, short of a power loss before it was synchronised; what is durable never changes. */
  lemma {:induction false} WriteOnce(decode: Text -> Option<ProviderId>, ss: seq<World>, es: seq<Event>, i: nat, j: nat)
    requires Decodes(decode) && Run(decode, ss, es) && i <= j < |ss|
    ensures ss[i].durable.Some? ==> ss[j].durable == ss[i].durable && ss[j].stored == ss[i].durable
    ensures ss[i].stored.Some? && (forall k | i <= k < j :: !es[k].PowerLoss?) ==> ss[j].stored == ss[i].stored
    decreases j
  {
    hide Decodes, Document;
    RunsKeepInv(decode, ss, es, i);
    DurableIsStored(decode, ss[0].stored, ss[i]);
    if i < j {
      WriteOnce(decode, ss, es, i, j - 1);
      RunsKeepInv(decode, ss, es, j - 1);
      assert Enabled(ss[j - 1], es[j - 1]) && ss[j] == Next(decode, ss[j - 1], es[j - 1]);
      hide Enabled, Next, Inv;
      StepIsStable(decode, ss[0].stored, ss[j - 1], es[j - 1]);
    }
  }

  lemma DurableIsStored(decode: Text -> Option<ProviderId>, initial: Option<Text>, s: World)
    requires Inv(decode, initial, s)
    ensures s.durable.Some? ==> s.stored == s.durable
  {
  }

  lemma StepIsStable(decode: Text -> Option<ProviderId>, initial: Option<Text>, s: World, e: Event)
    requires Inv(decode, initial, s) && Enabled(s, e)
    ensures s.durable.Some? ==> Next(decode, s, e).durable == s.durable && Next(decode, s, e).stored == s.durable
    ensures s.stored.Some? && !e.PowerLoss? ==> Next(decode, s, e).stored == s.stored
  {
    hide Document, WriterSane, Whole;
  }

  /**
   Agreement. A call that returns without error asked for the stored identifier, and
   it stays stored for good, through crashes and power losses: all calls that
   ever return without error asked for the same one.
   */
  lemma SuccessesAgree(decode: Text -> Option<ProviderId>, ss: seq<World>, es: seq<Event>, i: nat, j: nat,
      r: (ProviderId, Return), q: (ProviderId, Return))
    requires Decodes(decode) && Run(decode, ss, es) && i <= j < |ss|
    requires r in ss[i].returned && r.1.None? && q in ss[j].returned && q.1.None?
    ensures r.0 == q.0 && ss[j].stored.Some? && decode(ss[j].stored.value) == Some(r.0)
  {
    RunsKeepInv(decode, ss, es, i);
    RunsKeepInv(decode, ss, es, j);
    WriteOnce(decode, ss, es, i, j);
  }

  // ----- a call that nothing fails

  /** What a call returns when nothing fails and no other call comes in between. */
  function Answer(decode: Text -> Option<ProviderId>, stored: Option<Text>, id: ProviderId): Return {
    if id.Unsupported? then Some(ProviderChoice)
    else if stored.None? then None
    else match decode(stored.value)
      case None => Some(ProviderChoice)
      case Some(found) => if found == id then None else Some(ProviderConflict)
  }

  predicate Steps(decode: Text -> Option<ProviderId>, ss: seq<World>, es: seq<Event>) {
    |ss| == |es| + 1 && forall i | 0 <= i < |es| :: Enabled(ss[i], es[i]) && ss[i + 1] == Next(decode, ss[i], es[i])
  }

  lemma Then(decode: Text -> Option<ProviderId>, s: World, e: Event, ss: seq<World>, es: seq<Event>)
      returns (ts: seq<World>, fs: seq<Event>)
    requires Enabled(s, e) && Steps(decode, ss, es) && ss[0] == Next(decode, s, e)
    ensures Steps(decode, ts, fs) && ts == [s] + ss && fs == [e] + es
  {
    ts, fs := [s] + ss, [e] + es;
    hide Enabled, Next;
    assert forall i | 0 < i < |fs| :: fs[i] == es[i - 1] && ts[i] == ss[i - 1] && ts[i + 1] == ss[i];
  }

  /** Creating the document: past the check, over a directory without one. */
  lemma Creates(decode: Text -> Option<ProviderId>, s: World, w: nat) returns (ss: seq<World>, es: seq<Event>)
    requires At(s, w, Creating) && s.stored.None?
    ensures var document := Some(Document(s.writers[w].id));
      Steps(decode, ss, es) && ss[0] == s && (forall e | e in es :: Flawless(e, w))
      && ss[|es|] == Returns(s.(stored := document, durable := document), w, None)
  {
    var id, document := s.writers[w].id, Document(s.writers[w].id);
    var s1 := Goes(s, w, Writing);
    var s2 := s1.(writers := s1.writers[w := Writer(id, Flushing, document)]);
    var s3 := Goes(s2, w, Renaming);
    var s4 := Goes(s3.(stored := Some(document)), w, SyncingDirectory);
    var s5 := Returns(s4.(durable := s4.stored), w, None);
    assert document[..|document|] == document;
    ss := [s, s1, s2, s3, s4, s5];
    es := [Create(w, false), Write(w, |document|), Flush(w, false), Rename(w, false), Sync(w, false, true)];
  }

  /** An event of this call, without a failure. */
  predicate Flawless(e: Event, w: nat) {
    match e
    case Call(x, _) => x == w
    case Read(x, fails) => x == w && !fails
    case Create(x, fails) => x == w && !fails
    case Write(x, _) => x == w
    case Flush(x, fails) => x == w && !fails
    case Rename(x, fails) => x == w && !fails
    case Sync(x, fails, _) => x == w && !fails
    case _ => false
  }

  /**
   From wherever the directory is, a call has a continuation of its own events, none of
   which fails: without a stored document it stores and synchronises its own and
   succeeds; over one it succeeds exactly when that decodes to its identifier, and
   otherwise tells which way it does not.
   */
  lemma CallsAnswer(decode: Text -> Option<ProviderId>, s: World, w: nat, id: ProviderId)
      returns (ss: seq<World>, es: seq<Event>)
    requires w !in s.writers
    ensures Steps(decode, ss, es) && ss[0] == s && es != [] && es[0] == Call(w, id)
    ensures forall e | e in es :: Flawless(e, w)
    ensures var answer := Answer(decode, s.stored, id);
      var stored := if s.stored.None? && !id.Unsupported? then Some(Document(id)) else s.stored;
      ss[|es|] == s.(stored := stored, durable := if answer.None? then stored else s.durable,
                     returned := s.returned + [(id, answer)])
  {
    var s1 := Next(decode, s, Call(w, id));
    if id.Unsupported? {
      ss, es := [s, s1], [Call(w, id)];
    } else {
      var s2 := Next(decode, s1, Read(w, false));
      if s.stored.None? {
        ss, es := Creates(decode, s2, w);
        ss, es := Then(decode, s1, Read(w, false), ss, es);
      } else if Answer(decode, s.stored, id).None? {
        ss, es := [s1, s2, Next(decode, s2, Sync(w, false, true))], [Read(w, false), Sync(w, false, true)];
      } else {
        ss, es := [s1, s2], [Read(w, false)];
      }
      ss, es := Then(decode, s, Call(w, id), ss, es);
    }
  }
}
