/**
 What the user must have done before anything is saved or thrown away: a save is
 issued only by the key that confirms what the screen shows, a preview only once it
 was read to its end, its warning acknowledged and its confirmation typed, and an
 edited draft is dropped only by accepting the question whether to discard it.
 */
module BuilderConfirmations {
  import opened Options
  import opened SaveRuntime
  import opened BuilderModel

  /** The key confirms a save, on the screen the model shows. */
  predicate Confirms(m: Model, k: Key, a: Answers) {
    match m.screen
    case Overview =>
      && m.mutation.None? && m.menu.overviewCursor == |m.menu.loads| && (k.SpaceKey? || k.EnterKey? || k.RightKey?)
      && a.selected && !a.failedCategories
    case Confirm => (k == Letter("y") || k.EnterKey?) && (m.menu.confirmFailed ==> a.selected)
    case SaveFailure => m.mutation.None? && (k == Letter("r") || k.EnterKey? || k.SpaceKey?)
    case MutationPreview =>
      && m.mutation.Some? && m.preview.offset + a.height >= a.lines
      && (m.preview.prepared.warning ==> m.preview.acknowledged)
      && if m.mutation.value.confirmation != "" then k.EnterKey? && m.preview.typed == m.mutation.value.confirmation
         else k == Letter("y") || k.EnterKey?
    case _ => false
  }

  lemma OverviewConfirms(m: Model, k: Key, a: Answers)
    requires m.screen.Overview?
    ensures UpdateOverview(m, k, a).1.Save? ==> Confirms(m, k, a)
  {
  }

  lemma FailureConfirms(m: Model, k: Key, a: Answers)
    requires m.screen.SaveFailure?
    ensures UpdateSaveFailure(m, k, a).1.Save? ==> Confirms(m, k, a)
  {
    hide Is;
  }

  lemma PreviewConfirms(m: Model, k: Key, a: Answers)
    requires m.screen.MutationPreview? && m.mutation.Some?
    ensures UpdateMutationPreview(m, k, a).1.Save? ==> Confirms(m, k, a)
  {
    hide Printable, ScrollTo;
  }

  lemma OthersConfirm(m: Model, k: Key, a: Answers)
    ensures m.screen.Confirm? && UpdateConfirmation(m, k, a).1.Save? ==> Confirms(m, k, a)
    ensures !BeginCancellation(m).1.Save? && !UpdateEditor(m, k, a).1.Save? && !UpdateLoadFailure(m, k).1.Save?
    ensures !UpdateDiscard(m, k).1.Save? && !UpdateCreation(m, k, a).1.Save?
    ensures m.mutation.Some? ==> !UpdateReload(m, k, a).1.Save?
  {
  }

  lemma EndingNeverSaves(m: Model, t: Tracker, x: SaveMessage)
    ensures !SaveEnded(m, t, x).2.Save?
  {
    hide Uncertain, Is;
  }

  /** One update issues a save only for a key that confirms it. */
  lemma SavesAreConfirmed(m: Model, t: Tracker, panicked: bool, message: Message, a: Answers)
    ensures Update(m, t, panicked, message, a).command.Save? ==> message.KeyPressed? && Confirms(m, message.key, a)
  {
    hide BeginCancellation, UpdateOverview, UpdateSaveFailure, UpdateEditor, UpdateLoadFailure, UpdateConfirmation;
    hide UpdateDiscard, UpdateMutationPreview, UpdateReload, UpdateCreation, SaveEnded, Confirms;
    if message.KeyPressed? {
      OthersConfirm(m, message.key, a);
      if m.screen.Overview? { OverviewConfirms(m, message.key, a); }
      if m.screen.SaveFailure? { FailureConfirms(m, message.key, a); }
      if m.screen.MutationPreview? && m.mutation.Some? { PreviewConfirms(m, message.key, a); }
    }
    if message.SaveCompleted? { EndingNeverSaves(m, t, message.message); }
  }

  // ----- a preview starts unread, and nothing edited is dropped without a question

  /**
   A warning is acknowledged only on its preview, read to the end, by the key that says
   so; a preview is always entered unread, unacknowledged and with nothing typed, except
   when the question whether to leave it was declined; and from a failed save it is
   entered again only where the failure was not a conflict.
   */
  predicate PreviewStep(m: Model, message: Message, a: Answers, m': Model) {
    && (m'.preview.acknowledged && !m.preview.acknowledged ==>
         && message == KeyPressed(Letter("a")) && m.screen.MutationPreview?
         && m'.preview == m.preview.(acknowledged := true) && m.preview.offset + a.height >= a.lines)
    && ((m'.screen.MutationPreview? && !m.screen.MutationPreview? && !m.screen.Discard?)
         || m'.preview.draft != m.preview.draft ==>
         !m'.preview.acknowledged && m'.preview.typed == "" && m'.preview.offset == 0)
    && (m'.screen.MutationPreview? && m.screen.SaveFailure? ==> !(m.saveError.Some? && Is(m.saveError.value, Conflict)))
  }

  /** No edit would be lost, or the user accepts to lose it; the creation screen has nothing to lose. */
  predicate MayCancel(m: Model, message: Message) {
    || m.screen.Creation?
    || (m.initialValid && m.draft == m.initialDraft)
    || (m.screen.Discard? && message.KeyPressed? && (message.key == Letter("y") || message.key.EnterKey?))
  }

  /** A session newly says that it was cancelled only where it may, and with the draft there was. */
  predicate CancelStep(m: Model, message: Message, m': Model) {
    !m.outcome.cancelled && m'.outcome.cancelled ==>
      MayCancel(m, message) && m'.draft == m.draft && (!m.screen.Creation? ==> m'.outcome.draft == m.draft)
  }

  predicate Guarded(m: Model, message: Message, a: Answers, m': Model) {
    PreviewStep(m, message, a, m') && CancelStep(m, message, m')
  }

  lemma CommonGuarded(m: Model, k: Key, a: Answers)
    ensures Guarded(m, KeyPressed(k), a, BeginCancellation(m).0) && Guarded(m, KeyPressed(k), a, Reloading(m).0)
    ensures !(m.screen.SaveFailure? && m.saveError.Some? && Is(m.saveError.value, Conflict)) ==>
              Guarded(m, KeyPressed(k), a, Prepares(m, a).0)
    ensures Guarded(m, KeyPressed(k), a, StartSave(m, a).0)
  {
  }

  lemma OverviewGuarded(m: Model, k: Key, a: Answers)
    requires m.screen.Overview?
    ensures Guarded(m, KeyPressed(k), a, UpdateOverview(m, k, a).0)
  {
    hide BeginCancellation, Prepares, StartSave;
    CommonGuarded(m, k, a);
  }

  lemma FailureGuarded(m: Model, k: Key, a: Answers)
    requires m.screen.SaveFailure?
    ensures Guarded(m, KeyPressed(k), a, UpdateSaveFailure(m, k, a).0)
  {
    hide BeginCancellation, Prepares, StartSave, Is;
    CommonGuarded(m, k, a);
  }

  lemma LeavingGuarded(m: Model, k: Key, a: Answers)
    requires m.screen.MutationPreview? && m.mutation.Some?
    ensures Guarded(m, KeyPressed(k), a, CommitPrepared(m, a).0) && Guarded(m, KeyPressed(k), a, AbandonPreview(m).0)
  {
  }

  lemma PreviewGuarded(m: Model, k: Key, a: Answers)
    requires m.screen.MutationPreview? && m.mutation.Some?
    ensures Guarded(m, KeyPressed(k), a, UpdateMutationPreview(m, k, a).0)
  {
    hide Printable, ScrollTo, CommitPrepared, AbandonPreview;
    LeavingGuarded(m, k, a);
  }

  lemma ReloadGuarded(m: Model, k: Key, a: Answers)
    requires m.screen.Reload? && m.mutation.Some?
    ensures Guarded(m, KeyPressed(k), a, UpdateReload(m, k, a).0)
  {
  }

  lemma ConfirmationGuarded(m: Model, k: Key, a: Answers)
    requires m.screen.Confirm?
    ensures Guarded(m, KeyPressed(k), a, UpdateConfirmation(m, k, a).0)
  {
  }

  lemma ViewsGuarded(m: Model, k: Key, a: Answers)
    ensures m.screen.Category? ==> Guarded(m, KeyPressed(k), a, UpdateEditor(m, k, a).0)
    ensures m.screen.LoadFailure? ==> Guarded(m, KeyPressed(k), a, UpdateLoadFailure(m, k).0)
  {
  }

  lemma EndsGuarded(m: Model, k: Key, a: Answers)
    ensures m.screen.Discard? ==> Guarded(m, KeyPressed(k), a, UpdateDiscard(m, k).0)
    ensures m.screen.Creation? ==> Guarded(m, KeyPressed(k), a, UpdateCreation(m, k, a).0)
  {
  }

  lemma StayingGuarded(m: Model, t: Tracker, panicked: bool, message: Message, a: Answers)
    ensures Guarded(m, message, a, m) && Guarded(m, message, a, m.(screen := CancellingSave))
    ensures Guarded(m, message, a, CallbackPanic(m, t, panicked).model)
    ensures message.Resized? ==> Guarded(m, message, a, m.(menu := m.menu.(tooSmall := message.tooSmall)))
  {
  }

  lemma MessageGuarded(m: Model, t: Tracker, message: Message, a: Answers)
    ensures message.Discovered? ==> Guarded(m, message, a, DiscoveryCompleted(m, message.category, message.ok))
    ensures message.SaveCompleted? ==> Guarded(m, message, a, SaveEnded(m, t, message.message).0)
  {
    hide Uncertain, Is;
  }

  lemma KeyGuarded(m: Model, t: Tracker, panicked: bool, k: Key, a: Answers)
    requires !m.screen.Creation?
    ensures Guarded(m, KeyPressed(k), a, UpdateKey(m, t, panicked, k, a).model)
  {
    hide BeginCancellation, UpdateOverview, UpdateSaveFailure, UpdateEditor, UpdateLoadFailure, UpdateConfirmation;
    hide UpdateDiscard, UpdateMutationPreview, UpdateReload, Guarded, CallbackPanic;
    StayingGuarded(m, t, panicked, KeyPressed(k), a);
    CommonGuarded(m, k, a);
    ViewsGuarded(m, k, a);
    if m.screen.Discard? { EndsGuarded(m, k, a); }
    if m.screen.Confirm? { ConfirmationGuarded(m, k, a); }
    if m.screen.Overview? { OverviewGuarded(m, k, a); }
    if m.screen.SaveFailure? { FailureGuarded(m, k, a); }
    if m.screen.MutationPreview? && m.mutation.Some? { PreviewGuarded(m, k, a); }
    if m.screen.Reload? && m.mutation.Some? { ReloadGuarded(m, k, a); }
  }

  /**
   Whatever one update handles: a warning is acknowledged and a preview entered only as
   they may be, and a cancellation never drops an edit the user was not asked about.
   */
  lemma UpdateGuarded(m: Model, t: Tracker, panicked: bool, message: Message, a: Answers)
    ensures Guarded(m, message, a, Update(m, t, panicked, message, a).model)
  {
    hide UpdateKey, UpdateCreation, SaveEnded, DiscoveryCompleted, Guarded, CallbackPanic;
    StayingGuarded(m, t, panicked, message, a);
    MessageGuarded(m, t, message, a);
    if message.KeyPressed? {
      EndsGuarded(m, message.key, a);
      if !m.screen.Creation? { KeyGuarded(m, t, panicked, message.key, a); }
    }
  }

  // ----- sequences of keys and completions

  /** The model handles messages: no panic, no error that ends the session, and room to show it. */
  predicate Attentive(m: Model, a: Answers) { m.terminalError.None? && !m.menu.tooSmall && !a.panics }

  /**
   A running save can be cancelled: Ctrl+C asks the callback to stop, and when it reports
   an ordinary cancellation the session ends as cancelled, or asks first if an edit would
   be lost; one that committed all the same is reported as the creation it is.
   */
  lemma SavesCanBeCancelled(m: Model, t: Tracker, x: SaveMessage, a: Answers, b: Answers)
    requires m.screen.Saving? && m.saveCancel && Attentive(m, a) && !m.outcome.create && !m.outcome.cancelled
    ensures var asked := Update(m, t, false, KeyPressed(CtrlC), a);
      asked == Step(m.(screen := CancellingSave), t, false, NoCommand)
      && var (ended, e) := (Update(asked.model, t, false, SaveCompleted(x), b), x.saved.error);
      && (e.Some? && !Uncertain(e.value) && Is(e.value, Canceled) ==>
           if m.initialValid && m.draft == m.initialDraft
           then ended.command.Quit? && ended.model.outcome == Outcome(m.draft, "", false, true)
           else && ended.command.NoCommand? && ended.model.screen.Discard? && ended.model.returnScreen.Overview?
                && ended.model.draft == m.draft && !ended.model.outcome.cancelled)
      && (e.None? ==> ended.command.Quit? && ended.model.outcome == Outcome(x.draft, x.saved.path, true, false))
  {
    hide Is, Uncertain;
  }

  /**
   A conflict is resolved by reloading: the reloaded draft replaces the edited one and is
   what counts as unchanged, every category must be loaded again, and a compact mutation
   is prepared anew.
   */
  lemma ReloadsReplaceTheDraft(m: Model, t: Tracker, a: Answers, b: Answers)
    requires m.screen.SaveFailure? && m.mutation.Some? && m.mutation.value.reloads && Attentive(m, a) && !b.panics
    requires !b.reloadFails
    ensures var asked := Update(m, t, false, KeyPressed(Letter("l")), a);
      asked == Step(m.(screen := Reload), t, false, NoCommand)
      && var m' := Update(asked.model, t, false, KeyPressed(Letter("y")), b).model;
      && m'.draft == b.draft && m'.initialDraft == b.draft && m'.initialValid == !b.cloneFails
      && |m'.menu.loads| == |m.menu.loads| && (forall load | load in m'.menu.loads :: load.Unloaded?)
      && (!m.mutation.value.compact ==> m'.screen.Overview? && m'.saveError.None?)
      && (m.mutation.value.compact && !b.cloneFails && b.prepare.Some? ==>
           m'.screen.MutationPreview? && m'.preview == Preview(Prepared(true, b.prepare.value), b.draft, 0, false, ""))
  {
  }

  /**
   A category is loaded before it is edited: opening one that is not loaded waits, whatever
   else completes meanwhile; its own completion shows the editor, and once back on the
   overview it opens at once.
   */
  lemma CategoriesLoadOnce(m: Model, t: Tracker, other: nat, ok: bool, a: Answers)
    requires m.screen.Overview? && Attentive(m, a) && m.menu.overviewCursor < |m.menu.loads|
    requires var i := m.menu.overviewCursor; m.menu.loads[i].Unloaded? && other != i && a.listFocused
    ensures var i := m.menu.overviewCursor;
      var asked := Update(m, t, false, KeyPressed(EnterKey), a);
      var waiting := m.menu.loads[i := InFlight];
      && asked.command.Discover? && asked.model.screen.Loading? && asked.model.menu.loads == waiting
      && Update(asked.model, t, false, Discovered(other, ok), a).model.screen.Loading?
      && var shown := Update(asked.model, t, false, Discovered(i, true), a).model;
      && shown.screen.Category? && shown.menu.loads == waiting[i := Loaded]
      && Update(asked.model, t, false, Discovered(i, false), a).model.screen.LoadFailure?
      && var back := Update(shown, t, false, KeyPressed(EscKey), a).model;
      && back.screen.Overview? && back.draft == a.draft
      && Update(back, t, false, KeyPressed(EnterKey), a).model == back.(screen := Category)
  {
  }
}
