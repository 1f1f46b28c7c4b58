/**
 Models from which every reported creation is a committed one: the condition that
 each update keeps. `BuilderStart` says which builders start in it.
 */
module BuilderSaver {
  import opened Options
  import opened SaveRuntime
  import opened BuilderModel
  import opened BuilderRun
  import opened BuilderTheorems

  /** On this screen, or about to return to it from the discard question. */
  predicate On(m: Model, screen: Screen) { m.screen == screen || (m.screen.Discard? && m.returnScreen == screen) }

  /** What can be entered on the preview, key by key. */
  predicate Typable(s: string) { |s| <= 64 && Printable(s) }

  /** Wherever a save can start there is a saver, or a confirmation that cannot be typed. */
  predicate Ready(m: Model) {
    && (Busy(m) || m.outcome.create ==> m.saver)
    && match m.mutation
       case None => m.saver || m.screen.Creation?
       case Some(x) =>
         && !On(m, Confirm) && Typable(m.preview.typed)
         && (Typable(x.confirmation) ==> !x.compact && (On(m, MutationPreview) ==> m.preview.prepared.saves))
  }

  predicate Keeps(m: Model, m': Model) { m'.mutation == m.mutation && Ready(m') }

  lemma CancellationKeeps(m: Model)
    requires Ready(m) && !m.screen.Creation? && !m.screen.Discard? && !Busy(m)
    ensures Keeps(m, BeginCancellation(m).0)
  {
  }

  lemma StartKeeps(m: Model, a: Answers)
    requires m.saver
    requires m.mutation.Some? ==>
      Typable(m.preview.typed) && (Typable(m.mutation.value.confirmation) ==> !m.mutation.value.compact)
    ensures Keeps(m, StartSave(m, a).0)
  {
    hide Typable;
  }

  lemma PreparesKeeps(m: Model, n: Model, a: Answers)
    requires Ready(m) && n.mutation == m.mutation && m.mutation.Some? && n.saver == m.saver
    requires n.outcome == m.outcome && n.preview.typed == m.preview.typed && !Busy(m)
    ensures Keeps(m, Prepares(n, a).0)
  {
  }

  /** A move to a screen where nothing can be saved without a saver. */
  predicate Shifts(m: Model, n: Model) {
    && n.mutation == m.mutation && n.saver == m.saver && n.outcome == m.outcome && n.preview.typed == m.preview.typed
    && !Busy(n) && !n.screen.MutationPreview? && !n.screen.Discard? && (n.screen.Confirm? ==> m.mutation.None?)
  }

  lemma ShiftsKeep(m: Model)
    requires Ready(m) && !m.screen.Creation?
    ensures forall n | Shifts(m, n) :: Keeps(m, n)
  {
  }

  lemma OpeningShifts(m: Model)
    requires m.screen.Overview? || m.screen.Category? || m.screen.LoadFailure?
    ensures Shifts(m, OpenCategory(m).0) && Shifts(m, Reloading(m).0)
  {
  }

  lemma OverviewKeeps(m: Model, k: Key, a: Answers)
    requires Ready(m) && m.screen.Overview?
    ensures Keeps(m, UpdateOverview(m, k, a).0)
  {
    CancellationKeeps(m);
    if m.mutation.None? {
      StartKeeps(m, a);
    } else {
      PreparesKeeps(m, m, a);
    }
    ShiftsKeep(m);
    OpeningShifts(m);
    hide BeginCancellation, StartSave, Prepares, OpenCategory, Keeps, Ready;
  }

  lemma FailureKeeps(m: Model, k: Key, a: Answers)
    requires Ready(m) && m.screen.SaveFailure?
    ensures Keeps(m, UpdateSaveFailure(m, k, a).0)
  {
    CancellationKeeps(m);
    if m.mutation.None? {
      StartKeeps(m, a);
    } else {
      PreparesKeeps(m, m, a);
    }
    ShiftsKeep(m);
    hide BeginCancellation, StartSave, Prepares, Keeps, Ready, Is;
  }

  lemma BrowseKeeps(m: Model, k: Key, a: Answers)
    requires Ready(m)
    ensures m.screen.Category? ==> Keeps(m, UpdateEditor(m, k, a).0)
    ensures m.screen.LoadFailure? ==> Keeps(m, UpdateLoadFailure(m, k).0)
  {
    if m.screen.Category? || m.screen.LoadFailure? {
      ShiftsKeep(m);
      OpeningShifts(m);
    }
    hide Reloading, Keeps, Ready;
  }

  lemma DiscardKeeps(m: Model, k: Key)
    requires Ready(m) && m.screen.Discard? && ReturnsIdle(m)
    ensures Keeps(m, UpdateDiscard(m, k).0)
  {
  }

  lemma ConfirmKeeps(m: Model, k: Key, a: Answers)
    requires Ready(m) && m.screen.Confirm?
    ensures Keeps(m, UpdateConfirmation(m, k, a).0)
  {
    StartKeeps(m.(menu := m.menu.(confirmFailed := false)), a);
    hide StartSave;
  }

  lemma CommitKeeps(m: Model, a: Answers)
    requires Ready(m) && m.screen.MutationPreview? && m.mutation.Some? && Typable(m.mutation.value.confirmation)
    ensures Keeps(m, CommitPrepared(m, a).0)
  {
    StartKeeps(m.(saver := m.preview.prepared.saves, draft := m.preview.draft), a);
    hide StartSave, Typable;
  }

  /** A change of the preview alone, to a text that can have been typed. */
  lemma ViewingKeeps(m: Model, preview: Preview)
    requires Ready(m) && m.screen.MutationPreview? && m.mutation.Some?
    requires preview.prepared == m.preview.prepared && Typable(preview.typed)
    ensures Keeps(m, m.(preview := preview))
  {
    hide Typable;
  }

  lemma AbandoningKeeps(m: Model)
    requires Ready(m) && m.screen.MutationPreview? && m.mutation.Some?
    ensures Keeps(m, AbandonPreview(m).0)
  {
    hide Typable;
  }

  lemma TypingKeeps(m: Model, k: Key, a: Answers)
    requires Ready(m) && m.screen.MutationPreview? && m.mutation.Some?
    ensures Keeps(m, TypeConfirmation(m, k, a).0)
  {
    var typed := m.preview.typed;
    if k.BackspaceKey? {
      if typed != "" { ViewingKeeps(m, m.preview.(typed := typed[..|typed| - 1])); }
    } else if k.EnterKey? {
      ViewingKeeps(m, m.preview.(typed := ""));
      if typed == m.mutation.value.confirmation { CommitKeeps(m, a); }
    } else if Typable(typed + a.text) {
      ViewingKeeps(m, m.preview.(typed := typed + a.text));
    }
    hide CommitPrepared, Ready;
  }

  lemma PreviewKeeps(m: Model, k: Key, a: Answers)
    requires Ready(m) && m.screen.MutationPreview? && m.mutation.Some?
    ensures Keeps(m, UpdateMutationPreview(m, k, a).0)
  {
    hide CommitPrepared, AbandonPreview, TypeConfirmation, Read, ScrollTo, Keeps;
    AbandoningKeeps(m);
    TypingKeeps(m, k, a);
    ViewingKeeps(m, m.preview.(offset := ScrollTo(m.preview.offset, k, a)));
    ViewingKeeps(m, m.preview.(acknowledged := true));
    ViewingKeeps(m, m.preview);
    if m.mutation.value.confirmation == "" { CommitKeeps(m, a); }
  }

  lemma ReloadKeeps(m: Model, k: Key, a: Answers)
    requires Ready(m) && m.screen.Reload? && m.mutation.Some?
    ensures Keeps(m, UpdateReload(m, k, a).0)
  {
    var n := Reloaded(m, a);
    PreparesKeeps(m, n, a);
    ShiftsKeep(m);
    assert Shifts(m, n) && Shifts(m, m) && Shifts(m, m.(screen := SaveFailure)) && Shifts(m, Failed(m, a.failure));
    hide Prepares, Reloaded, Ready, Keeps, Shifts, Failed;
  }

  lemma ScreenKeeps(m: Model, k: Key, a: Answers)
    requires Ready(m) && ReturnsIdle(m)
    ensures m.screen.Overview? ==> Keeps(m, UpdateOverview(m, k, a).0)
    ensures m.screen.SaveFailure? ==> Keeps(m, UpdateSaveFailure(m, k, a).0)
    ensures m.screen.Discard? ==> Keeps(m, UpdateDiscard(m, k).0)
    ensures m.screen.Confirm? ==> Keeps(m, UpdateConfirmation(m, k, a).0)
    ensures m.screen.MutationPreview? && m.mutation.Some? ==> Keeps(m, UpdateMutationPreview(m, k, a).0)
    ensures m.screen.Reload? && m.mutation.Some? ==> Keeps(m, UpdateReload(m, k, a).0)
  {
    hide *;
    if m.screen.Overview? { OverviewKeeps(m, k, a); }
    if m.screen.SaveFailure? { FailureKeeps(m, k, a); }
    if m.screen.Discard? { DiscardKeeps(m, k); }
    if m.screen.Confirm? { ConfirmKeeps(m, k, a); }
    if m.screen.MutationPreview? && m.mutation.Some? { PreviewKeeps(m, k, a); }
    if m.screen.Reload? && m.mutation.Some? { ReloadKeeps(m, k, a); }
  }

  lemma KeyKeeps(m: Model, t: Tracker, k: Key, a: Answers)
    requires Ready(m) && ReturnsIdle(m) && !m.screen.Creation?
    ensures Keeps(m, UpdateKey(m, t, false, k, a).model)
  {
    hide BeginCancellation, UpdateOverview, UpdateSaveFailure, UpdateEditor, UpdateLoadFailure;
    hide UpdateDiscard, UpdateConfirmation, UpdateMutationPreview, UpdateReload, Typable;
    if !Busy(m) {
      if !m.screen.Discard? { CancellationKeeps(m); }
      BrowseKeeps(m, k, a);
      ScreenKeeps(m, k, a);
    }
  }

  lemma UpdateKeeps(m: Model, t: Tracker, panicked: bool, message: Message, a: Answers)
    requires Ready(m) && ReturnsIdle(m)
    ensures Keeps(m, Update(m, t, panicked, message, a).model)
  {
    if message.KeyPressed? && !m.screen.Creation? {
      KeyKeeps(m, t, message.key, a);
    } else if message.KeyPressed? {
      CreationKeeps(m, message.key, a);
    } else if message.SaveCompleted? {
      CompletionKeeps(m, t, message.message);
    } else if message.Discovered? {
      DiscoveryKeeps(m, message.category, message.ok);
    }
    hide UpdateKey, UpdateCreation, SaveEnded, DiscoveryCompleted;
  }

  lemma CreationKeeps(m: Model, k: Key, a: Answers)
    requires Ready(m) && m.screen.Creation?
    ensures Keeps(m, UpdateCreation(m, k, a).0)
  {
  }

  lemma DiscoveryKeeps(m: Model, category: nat, ok: bool)
    requires Ready(m)
    ensures Keeps(m, DiscoveryCompleted(m, category, ok))
  {
  }

  lemma CompletionKeeps(m: Model, t: Tracker, x: SaveMessage)
    requires Ready(m)
    ensures Keeps(m, SaveEnded(m, t, x).0)
  {
    hide Uncertain, Is;
  }

  lemma {:induction false} StaysReady(ss: seq<Session>, es: seq<Event>, i: nat)
    requires Run(ss, es) && i < |ss| && Ready(ss[0].model)
    ensures Ready(ss[i].model) && !ss[i].hollow
  {
    if i > 0 {
      StaysReady(ss, es, i - 1);
      RunsKeepInv(ss, es, i - 1);
      assert Taken(ss[i - 1], es[i - 1], ss[i]);
      hide Next, Enabled, Inv, Ready;
      NextKeepsReady(ss[i - 1], es[i - 1]);
    }
  }

  lemma NextKeepsReady(s: Session, e: Event)
    requires Inv(s) && Enabled(s, e) && Ready(s.model) && !s.hollow
    ensures Ready(Next(s, e).model) && !Next(s, e).hollow
  {
    assert ReturnsIdle(s.model);
    hide Updated, Inv, Ready, ReturnsIdle;
    if e.Deliver? {
      DeliverKeeps(s, e.message, e.answers);
    } else if e.DeliverSave? {
      DeliverKeeps(s.(inbox := BuilderRun.Without(s.inbox, e.i)), SaveCompleted(s.inbox[e.i]), UNASKED);
    }
  }

  lemma DeliverKeeps(s: Session, message: Message, a: Answers)
    requires Ready(s.model) && ReturnsIdle(s.model) && !s.hollow
    ensures Ready(Updated(s, message, a).model) && !Updated(s, message, a).hollow
  {
    UpdateKeeps(s.model, s.tracker, s.panicked, message, a);
    hide Update;
  }

  /**
   In a session that starts ready, a creation reported without error is the last
   callback's, committed, with its draft and path.
   */
  lemma CreationsAreCommitted(ss: seq<Session>, es: seq<Event>, i: nat)
    requires Run(ss, es) && i < |ss| && Ready(ss[0].model) && ss[i].stage.Finished?
    ensures ss[i].stage.error.None? && ss[i].stage.outcome.create ==> Commits(ss[i].tracker, ss[i].stage.outcome)
  {
    RunsKeepInv(ss, es, i);
    StaysReady(ss, es, i);
  }
}
