/**
 Which draft a save carries: the one the user confirmed, over every run, and runs in
 which each kind of builder commits the draft that was edited, chosen or previewed.
 */
module BuilderDrafts {
  import opened Options
  import opened SaveRuntime
  import opened BuilderModel
  import opened BuilderRun
  import opened BuilderTheorems
  import opened BuilderSaver
  import opened BuilderPaths
  import opened BuilderStart
  import opened BuilderConfirmations

  /** What a confirmation on this screen is about: the draft shown on the preview, or the one being edited. */
  function Shown(m: Model): Draft { if m.screen.MutationPreview? then m.preview.draft else m.draft }

  predicate SavesShown(m: Model, m': Model, command: Command) {
    command.Save? ==> command.draft == Shown(m) && m'.draft == Shown(m) && m'.screen.Saving?
  }

  lemma OverviewSaves(m: Model, k: Key, a: Answers)
    requires m.screen.Overview?
    ensures var (m', command) := UpdateOverview(m, k, a); SavesShown(m, m', command)
  {
  }

  lemma FailureSaves(m: Model, k: Key, a: Answers)
    requires m.screen.SaveFailure?
    ensures var (m', command) := UpdateSaveFailure(m, k, a); SavesShown(m, m', command)
  {
    hide Is;
  }

  lemma PreviewSaves(m: Model, k: Key, a: Answers)
    requires m.screen.MutationPreview? && m.mutation.Some?
    ensures var (m', command) := UpdateMutationPreview(m, k, a); SavesShown(m, m', command)
  {
    hide Read, Printable, ScrollTo;
  }

  lemma OtherSaves(m: Model, k: Key, a: Answers)
    ensures var (m', command) := UpdateConfirmation(m, k, a); m.screen.Confirm? ==> SavesShown(m, m', command)
    ensures !BeginCancellation(m).1.Save? && !UpdateEditor(m, k, a).1.Save? && !UpdateLoadFailure(m, k).1.Save?
    ensures !UpdateDiscard(m, k).1.Save? && !UpdateCreation(m, k, a).1.Save?
    ensures m.mutation.Some? ==> !UpdateReload(m, k, a).1.Save?
  {
  }

  /** One update saves nothing but the draft its screen shows. */
  lemma UpdateSavesShown(m: Model, t: Tracker, panicked: bool, message: Message, a: Answers)
    ensures var step := Update(m, t, panicked, message, a); SavesShown(m, step.model, step.command)
  {
    hide BeginCancellation, UpdateOverview, UpdateSaveFailure, UpdateEditor, UpdateLoadFailure, UpdateConfirmation;
    hide UpdateDiscard, UpdateMutationPreview, UpdateReload, UpdateCreation, SavesShown;
    if message.KeyPressed? {
      OtherSaves(m, message.key, a);
      if m.screen.Overview? { OverviewSaves(m, message.key, a); }
      if m.screen.SaveFailure? { FailureSaves(m, message.key, a); }
      if m.screen.MutationPreview? && m.mutation.Some? { PreviewSaves(m, message.key, a); }
    }
    UnsavedShown(m);
    if message.SaveCompleted? { EndingNeverSaves(m, t, message.message); }
    hide SaveEnded;
  }

  lemma UnsavedShown(m: Model)
    ensures forall m', command: Command | !command.Save? :: SavesShown(m, m', command)
  {
  }

  // ----- over whole runs

  predicate ConfirmedBy(s: Session, e: Event) {
    e.Deliver? && e.message.KeyPressed? && Confirms(s.model, e.message.key, e.answers)
  }

  /** At step j the user confirmed, and a save of exactly the draft then shown was issued. */
  predicate Issues(ss: seq<Session>, es: seq<Event>, j: nat, draft: Draft)
    requires |ss| == |es| + 1 && j < |es|
  {
    && ConfirmedBy(ss[j], es[j]) && !Busy(ss[j].model) && draft == Shown(ss[j].model)
    && ss[j + 1].model.screen.Saving? && ss[j + 1].commands == ss[j].commands + [draft]
  }

  /** Where the commands and the attempts after a step come from. */
  predicate Descends(s: Session, e: Event, s': Session) {
    && (forall d | d in s'.commands ::
         d in s.commands
         || (ConfirmedBy(s, e) && !Busy(s.model) && d == Shown(s.model)
             && s'.model.screen.Saving? && s'.commands == s.commands + [d]))
    && (forall k | 0 <= k < |s'.tracker.attempts| ::
         if k < |s.tracker.attempts| then s'.tracker.attempts[k].draft == s.tracker.attempts[k].draft
         else s'.tracker.attempts[k].draft in s.commands)
  }

  lemma DeliverDescends(s: Session, message: Message, a: Answers)
    requires Inv(s) && !message.SaveCompleted?
    ensures Descends(s, Deliver(message, a), Updated(s, message, a))
  {
    UpdateSavesShown(s.model, s.tracker, s.panicked, message, a);
    UpdateEffect(s.model, s.tracker, s.panicked, message, a);
    SavesAreConfirmed(s.model, s.tracker, s.panicked, message, a);
    hide Update, Inv;
  }

  lemma SaveDescends(s: Session, i: nat)
    requires Inv(s) && Enabled(s, DeliverSave(i))
    ensures Descends(s, DeliverSave(i), Next(s, DeliverSave(i)))
  {
    SameAttempts(s, i);
    UpdateSavesShown(s.model, s.tracker, s.panicked, SaveCompleted(s.inbox[i]), UNASKED);
    EndingNeverSaves(s.model, s.tracker, s.inbox[i]);
    hide SaveEnded, Inv;
  }

  lemma NextDescends(s: Session, e: Event)
    requires Inv(s) && Enabled(s, e)
    ensures Descends(s, e, Next(s, e))
  {
    hide Updated, Update, Inv, Descends, Decided;
    if e.Deliver? {
      DeliverDescends(s, e.message, e.answers);
    } else if e.DeliverSave? {
      SaveDescends(s, e.i);
    } else {
      OtherDescends(s, e);
    }
  }

  lemma OtherDescends(s: Session, e: Event)
    requires Enabled(s, e) && !e.Deliver? && !e.DeliverSave?
    ensures Descends(s, e, Next(s, e))
  {
    hide Updated, Update, Decided;
  }

  lemma LastStepDescends(ss: seq<Session>, es: seq<Event>, i: nat)
    requires Run(ss, es) && i < |ss|
    ensures |ss| == |es| + 1 && (i == 0 ==> ss[i].commands == [] && ss[i].tracker.attempts == [])
    ensures i > 0 ==> Descends(ss[i - 1], es[i - 1], ss[i])
  {
    hide Inv, Next, Enabled;
    if i > 0 {
      RunsKeepInv(ss, es, i - 1);
      assert Taken(ss[i - 1], es[i - 1], ss[i]);
      NextDescends(ss[i - 1], es[i - 1]);
    }
  }

  lemma {:induction false} CommandsWereIssued(ss: seq<Session>, es: seq<Event>, i: nat, draft: Draft) returns (j: nat)
    requires Run(ss, es) && i < |ss| && draft in ss[i].commands
    ensures j < i && Issues(ss, es, j, draft)
  {
    hide Run, Inv;
    LastStepDescends(ss, es, i);
    if draft in ss[i - 1].commands { j := CommandsWereIssued(ss, es, i - 1, draft); } else { j := i - 1; }
  }

  /**
   Every save callback of a run was given the draft the user saw when confirming: at
   an earlier step, on a screen where no save ran, that draft was on the preview, or
   the one being edited, and a key that confirms what is shown there issued it.
   */
  lemma {:induction false} AttemptsCarryTheConfirmedDraft(ss: seq<Session>, es: seq<Event>, i: nat, k: nat)
      returns (j: nat)
    requires Run(ss, es) && i < |ss| && k < |ss[i].tracker.attempts|
    ensures j < i && Issues(ss, es, j, ss[i].tracker.attempts[k].draft)
  {
    hide Run, Inv;
    LastStepDescends(ss, es, i);
    if k < |ss[i - 1].tracker.attempts| {
      j := AttemptsCarryTheConfirmedDraft(ss, es, i - 1, k);
    } else {
      j := CommandsWereIssued(ss, es, i - 1, ss[i].tracker.attempts[k].draft);
    }
  }

  // ----- cancellations

  /** The message that an event delivers to the model. */
  function Delivered(s: Session, e: Event): Option<Message>
    requires Enabled(s, e)
  {
    match e
    case Deliver(message, _) => Some(message)
    case DeliverSave(i) => Some(SaveCompleted(s.inbox[i]))
    case _ => None
  }

  /** At step j the session could be cancelled without losing an edit, or with the user's consent. */
  predicate Asked(ss: seq<Session>, es: seq<Event>, j: nat)
    requires j < |ss| && j < |es|
  {
    Enabled(ss[j], es[j]) && Delivered(ss[j], es[j]).Some? && MayCancel(ss[j].model, Delivered(ss[j], es[j]).value)
  }

  lemma NextAsks(s: Session, e: Event)
    requires Enabled(s, e) && !s.model.outcome.cancelled && Next(s, e).model.outcome.cancelled
    ensures Delivered(s, e).Some? && MayCancel(s.model, Delivered(s, e).value)
  {
    hide Update, Decided, MayCancel;
    match e
    case Deliver(message, a) => UpdateGuarded(s.model, s.tracker, s.panicked, message, a);
    case DeliverSave(i) => UpdateGuarded(s.model, s.tracker, s.panicked, SaveCompleted(s.inbox[i]), UNASKED);
    case _ =>
  }

  lemma NextEnds(s: Session, e: Event)
    requires Enabled(s, e) && !Next(s, e).stage.Running? && Next(s, e).stage.outcome.cancelled
    ensures s.model.outcome.cancelled || (!s.stage.Running? && s.stage.outcome.cancelled)
  {
    hide Update, Uncertain, CancellationOnly, Is, Join, Without;
  }

  lemma {:induction false} CancelledModelsWereAsked(ss: seq<Session>, es: seq<Event>, i: nat) returns (j: nat)
    requires Run(ss, es) && i < |ss| && ss[i].model.outcome.cancelled
    ensures j < i && Asked(ss, es, j)
  {
    hide Next, Enabled, MayCancel, Delivered;
    assert i > 0;
    assert Taken(ss[i - 1], es[i - 1], ss[i]);
    if ss[i - 1].model.outcome.cancelled {
      j := CancelledModelsWereAsked(ss, es, i - 1);
    } else {
      j := i - 1;
      NextAsks(ss[j], es[j]);
    }
  }

  /**
   A session that ends as cancelled never drops an edit the user was not asked about: it
   was cancelled where the draft was as it had been given, by accepting the question
   whether to discard it, or on the creation screen.
   */
  lemma {:induction false} CancellationsWereAsked(ss: seq<Session>, es: seq<Event>, i: nat) returns (j: nat)
    requires Run(ss, es) && i < |ss| && !ss[i].stage.Running? && ss[i].stage.outcome.cancelled
    ensures j < i && Asked(ss, es, j)
  {
    hide Next, Enabled, MayCancel, Delivered;
    assert i > 0;
    assert Taken(ss[i - 1], es[i - 1], ss[i]);
    NextEnds(ss[i - 1], es[i - 1]);
    if ss[i - 1].model.outcome.cancelled {
      j := CancelledModelsWereAsked(ss, es, i - 1);
    } else {
      j := CancellationsWereAsked(ss, es, i - 1);
    }
  }

  // ----- warnings

  /** The user acknowledges the warning of a preview, read to its end. */
  predicate Acknowledges(s: Session, e: Event) {
    && e.Deliver? && e.message == KeyPressed(Letter("a")) && s.model.screen.MutationPreview?
    && s.model.preview.offset + e.answers.height >= e.answers.lines
  }

  lemma NextAcknowledges(s: Session, e: Event)
    requires Enabled(s, e) && Next(s, e).model.preview.acknowledged
    ensures Next(s, e).model.preview.draft == s.model.preview.draft
    ensures s.model.preview.acknowledged || Acknowledges(s, e)
  {
    hide Update, Decided;
    match e
    case Deliver(message, a) => UpdateGuarded(s.model, s.tracker, s.panicked, message, a);
    case DeliverSave(i) => UpdateGuarded(s.model, s.tracker, s.panicked, SaveCompleted(s.inbox[i]), UNASKED);
    case _ =>
  }

  /** An acknowledged warning was acknowledged by the user, on the preview of the draft it is now about. */
  lemma {:induction false} WarningsWereAcknowledged(ss: seq<Session>, es: seq<Event>, i: nat) returns (j: nat)
    requires Run(ss, es) && i < |ss| && !ss[0].model.preview.acknowledged && ss[i].model.preview.acknowledged
    ensures j < i && Acknowledges(ss[j], es[j]) && ss[j].model.preview.draft == ss[i].model.preview.draft
  {
    hide Next, Enabled, Acknowledges;
    assert Taken(ss[i - 1], es[i - 1], ss[i]);
    NextAcknowledges(ss[i - 1], es[i - 1]);
    if ss[i - 1].model.preview.acknowledged {
      j := WarningsWereAcknowledged(ss, es, i - 1);
    } else {
      j := i - 1;
    }
  }

  // ----- where a draft comes from

  /**
   A draft changes only to what an open editor, the creation screen or a reload
   answers, or to the draft previewed.
   */
  predicate DraftStep(m: Model, a: Answers, m': Model) {
    && (m'.draft != m.draft ==>
         || ((m.screen.Category? || m.screen.Creation? || m.screen.Reload?) && m'.draft == a.draft)
         || (m.screen.MutationPreview? && m'.draft == m.preview.draft))
    && (m'.preview.draft != m.preview.draft ==> m'.screen.MutationPreview? && m'.preview.draft == m'.draft)
  }

  lemma SameDrafts(m: Model, a: Answers)
    ensures forall m': Model | m'.draft == m.draft && m'.preview.draft == m.preview.draft :: DraftStep(m, a, m')
  {
  }

  lemma CommonDrafts(m: Model, a: Answers)
    ensures DraftStep(m, a, Prepares(m, a).0) && DraftStep(m, a, StartSave(m, a).0)
    ensures DraftStep(m, a, BeginCancellation(m).0) && DraftStep(m, a, OpenCategory(m).0)
        && DraftStep(m, a, Reloading(m).0)
  {
  }

  lemma OverviewDrafts(m: Model, k: Key, a: Answers)
    requires m.screen.Overview?
    ensures DraftStep(m, a, UpdateOverview(m, k, a).0)
  {
    CommonDrafts(m, a);
    SameDrafts(m, a);
    hide Prepares, StartSave, BeginCancellation, OpenCategory, DraftStep;
  }

  lemma FailureDrafts(m: Model, k: Key, a: Answers)
    requires m.screen.SaveFailure?
    ensures DraftStep(m, a, UpdateSaveFailure(m, k, a).0)
  {
    CommonDrafts(m, a);
    SameDrafts(m, a);
    hide Is, Prepares, StartSave, BeginCancellation, DraftStep;
  }

  lemma CommitDrafts(m: Model, k: Key, a: Answers)
    requires m.screen.MutationPreview? && m.mutation.Some?
    ensures DraftStep(m, a, CommitPrepared(m, a).0) && DraftStep(m, a, AbandonPreview(m).0)
  {
  }

  lemma PreviewDrafts(m: Model, k: Key, a: Answers)
    requires m.screen.MutationPreview? && m.mutation.Some?
    ensures DraftStep(m, a, UpdateMutationPreview(m, k, a).0)
  {
    hide Read, Printable, ScrollTo, CommitPrepared, AbandonPreview, DraftStep;
    CommitDrafts(m, k, a);
    SameDrafts(m, a);
  }

  lemma ReloadDrafts(m: Model, k: Key, a: Answers)
    requires m.screen.Reload? && m.mutation.Some?
    ensures DraftStep(m, a, UpdateReload(m, k, a).0)
  {
  }

  lemma OtherDrafts(m: Model, k: Key, a: Answers)
    ensures DraftStep(m, a, UpdateLoadFailure(m, k).0) && DraftStep(m, a, UpdateDiscard(m, k).0)
    ensures m.screen.Confirm? ==> DraftStep(m, a, UpdateConfirmation(m, k, a).0)
  {
    CommonDrafts(m, a);
    CommonDrafts(m.(menu := m.menu.(confirmFailed := false)), a);
    SameDrafts(m, a);
    hide StartSave, Reloading;
  }

  lemma EditorDrafts(m: Model, k: Key, a: Answers)
    ensures m.screen.Category? ==> DraftStep(m, a, UpdateEditor(m, k, a).0)
    ensures m.screen.Creation? ==> DraftStep(m, a, UpdateCreation(m, k, a).0)
  {
  }

  lemma MessageDrafts(m: Model, t: Tracker, message: Message, a: Answers)
    ensures message.Discovered? ==> DraftStep(m, a, DiscoveryCompleted(m, message.category, message.ok))
    ensures message.SaveCompleted? ==> DraftStep(m, a, SaveEnded(m, t, message.message).0)
  {
    hide Uncertain, Is;
  }

  lemma KeyDrafts(m: Model, t: Tracker, panicked: bool, k: Key, a: Answers)
    requires !m.screen.Creation?
    ensures DraftStep(m, a, UpdateKey(m, t, panicked, k, a).model)
  {
    hide BeginCancellation, UpdateOverview, UpdateSaveFailure, UpdateEditor, UpdateLoadFailure, UpdateConfirmation;
    hide UpdateDiscard, UpdateMutationPreview, UpdateReload, DraftStep;
    SameDrafts(m, a);
    CommonDrafts(m, a);
    if m.screen.LoadFailure? || m.screen.Discard? || m.screen.Confirm? { OtherDrafts(m, k, a); }
    if m.screen.Category? { EditorDrafts(m, k, a); }
    if m.screen.Overview? { OverviewDrafts(m, k, a); }
    if m.screen.SaveFailure? { FailureDrafts(m, k, a); }
    if m.screen.MutationPreview? && m.mutation.Some? { PreviewDrafts(m, k, a); }
    if m.screen.Reload? && m.mutation.Some? { ReloadDrafts(m, k, a); }
  }

  lemma UpdateDrafts(m: Model, t: Tracker, panicked: bool, message: Message, a: Answers)
    ensures DraftStep(m, a, Update(m, t, panicked, message, a).model)
  {
    hide UpdateKey, UpdateCreation, SaveEnded, DiscoveryCompleted, DraftStep;
    SameDrafts(m, a);
    MessageDrafts(m, t, message, a);
    if message.KeyPressed? {
      EditorDrafts(m, message.key, a);
      if !m.screen.Creation? { KeyDrafts(m, t, panicked, message.key, a); }
    }
  }

  /** And whatever key an open editor handles, its draft is taken. */
  lemma EditsAreKept(m: Model, t: Tracker, k: Key, a: Answers)
    requires m.screen.Category? && !m.menu.tooSmall && m.terminalError.None? && !a.panics && !Interrupts(k)
    requires !(m.mutation.Some? && a.listFocused && k == Letter("r"))
    ensures Update(m, t, false, KeyPressed(k), a).model.draft == a.draft
  {
  }
}
