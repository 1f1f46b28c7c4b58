/**
 Runs without a failure, in which every builder that can save commits the draft the
 user edited, chose or previewed, under the path its callback returned.
 */
module BuilderCommits {
  import opened Options
  import opened SaveRuntime
  import opened BuilderModel
  import opened BuilderRun
  import opened BuilderSaver
  import opened BuilderPaths
  import opened BuilderStart

  /** Nothing was saved or decided yet. */
  predicate Untouched(s: Session) { Fresh(s) && s.commands == [] && s.inbox == [] && !s.quit && !s.hollow }

  /** The tracker once the one callback has committed. */
  function OneCommit(draft: Draft, path: string): Tracker {
    Tracker(false, Some(0), [Attempt(draft, Some(Saved(path, None)))])
  }

  lemma Settles(s: Session, draft: Draft, path: string)
    requires s.stage.Running? && s.quit && !s.panicked && !s.interrupted && s.tracker == OneCommit(draft, path)
    requires s.model.terminalError.None? && s.model.outcome == Outcome(draft, path, true, false)
    ensures Reports(s, draft, Some(path))
  {
    var outcome := Outcome(draft, path, true, false);
    var stopping := s.(stage := Stopping(outcome, None));
    var settling := stopping.(tracker := Stopped(s.tracker), stage := Settling(outcome, None));
    var last := settling.(stage := Finished(outcome, None));
    assert Taken(s, TerminalEnds(None), stopping) && Taken(stopping, CloseGate, settling);
    assert Taken(settling, Settle, last);
    hide Taken, Reaches;
    Stays(last);
    Continues(settling, Settle, last, last);
    Continues(stopping, CloseGate, settling, last);
    Continues(s, TerminalEnds(None), stopping, last);
  }

  lemma Handled(s: Session, draft: Draft, path: string)
    requires s.stage.Running? && !s.panicked && !s.interrupted && s.tracker == OneCommit(draft, path)
    requires s.model.screen.Saving? && s.model.terminalError.None?
    requires s.inbox == [SaveMessage(draft, Saved(path, None), Some(0))]
    ensures Reports(s, draft, Some(path))
  {
    var m' := s.model.(saveCancel := false, outcome := Outcome(draft, path, true, false));
    var s' := s.(inbox := [], model := m', quit := true);
    assert BuilderRun.Without(s.inbox, 0) == [];
    assert Taken(s, DeliverSave(0), s') by { hide Uncertain; }
    Settles(s', draft, path);
    After(s, DeliverSave(0), s', draft, Some(path));
  }

  lemma After(s: Session, e: Event, s': Session, draft: Draft, saved: Option<string>)
    requires Taken(s, e, s') && Reports(s', draft, saved)
    ensures Reports(s, draft, saved)
  {
    hide Taken, Reaches;
    var last: Session :| Reaches(s', last) && EndsWith(last, draft, saved);
    Continues(s, e, s', last);
  }

  /** From the command to the settled session, with a callback that commits. */
  lemma Stored(s: Session, path: string)
    requires s.stage.Running? && !s.panicked && !s.interrupted && s.tracker == Tracker(false, None, []) && s.inbox == []
    requires s.model.screen.Saving? && s.model.terminalError.None? && s.commands == [s.model.draft]
    ensures Reports(s, s.model.draft, Some(path))
  {
    hide Reports;
    var draft := s.model.draft;
    var running := s.(commands := [], tracker := Tracker(false, Some(0), [Attempt(draft, None)]));
    var told := running.(tracker := OneCommit(draft, path), inbox := [SaveMessage(draft, Saved(path, None), Some(0))]);
    assert BuilderRun.Without(s.commands, 0) == [];
    assert Taken(s, Execute(0), running) && Taken(running, Complete(0, Returned(path, None)), told);
    hide Taken;
    Handled(told, draft, path);
    After(running, Complete(0, Returned(path, None)), told, draft, Some(path));
    After(s, Execute(0), running, draft, Some(path));
  }

  /** A key that confirms, in a session where nothing was saved yet. */
  lemma Confirms(s: Session, k: Key, a: Answers, m': Model, path: string)
    requires Untouched(s) && Presses(s.model, k, a, m', Save(m'.draft))
    requires m'.screen.Saving? && m'.terminalError.None? && !m'.outcome.create
    ensures Reports(s, m'.draft, Some(path))
  {
    hide Reports, Update;
    var s' := s.(model := m', commands := [m'.draft]);
    assert Taken(s, Deliver(KeyPressed(k), a), s');
    Stored(s', path);
    After(s, Deliver(KeyPressed(k), a), s', m'.draft, Some(path));
  }

  // ----- to the confirmation

  function Begun(m: Model, draft: Draft): Model {
    m.(saver := true, saveError := None, draft := draft, screen := Saving, saveCancel := true)
  }

  lemma OverviewCommits(s: Session, path: string)
    requires OnOverview(s) && Untouched(s) && s.model.mutation.None? && s.model.saver
    ensures Reports(s, s.model.draft, Some(path))
  {
    hide Reports;
    var m := OnConfirm(s.model);
    Confirms(s.(model := m), EnterKey, Page(1, 1), Begun(m, m.draft), path);
    DownToConfirm(s, m.draft, Some(path));
  }

  lemma PreviewCommits(s: Session, lines: nat, height: nat, path: string)
    requires OnPreview(s) && Untouched(s) && s.model.preview.prepared.saves
    requires s.model.preview.typed == "" && Typable(s.model.mutation.value.confirmation)
    ensures Reports(s, s.model.preview.draft, Some(path))
  {
    hide Reports;
    var ready := s.(model := ReadyToCommit(s.model, lines, height));
    ReadyCommits(ready, lines, height, path);
    ReadsAndTypes(s, lines, height, s.model.preview.draft, Some(path));
  }

  lemma ReadyCommits(s: Session, lines: nat, height: nat, path: string)
    requires OnPreview(s) && Untouched(s) && s.model.preview.prepared.saves && lines <= s.model.preview.offset + height
    requires s.model.preview.acknowledged || !s.model.preview.prepared.warning
    requires s.model.preview.typed == s.model.mutation.value.confirmation
    ensures Reports(s, s.model.preview.draft, Some(path))
  {
    hide Reports;
    Confirms(s, EnterKey, Page(lines, height), Begun(s.model, s.model.preview.draft), path);
  }

  lemma MutationCommits(s: Session, lines: nat, height: nat, warning: bool, path: string)
    requires OnOverview(s) && Untouched(s) && s.model.mutation.Some?
    requires Typable(s.model.mutation.value.confirmation)
    ensures Reports(s, s.model.draft, Some(path))
  {
    hide Reports;
    var m := OnConfirm(s.model);
    var a := Page(1, 1).(prepare := Some(warning));
    var previewed := PrepareMutation(m, a).value;
    PreviewCommits(s.(model := previewed), lines, height, path);
    Calmly(s.(model := m), EnterKey, a, previewed, NoCommand, m.draft, Some(path));
    DownToConfirm(s, m.draft, Some(path));
  }

  // ----- an edit first

  /** On the overview again, with the draft that an editor left in the first category. */
  function Edited(m: Model, draft: Draft): Model
    requires m.menu.loads != []
  {
    m.(draft := draft, menu := m.menu.(loads := m.menu.loads[0 := Loaded], activeCategory := 0))
  }

  lemma EditsFirst(s: Session, edited: Draft, result: Draft, saved: Option<string>)
    requires OnOverview(s) && s.model.menu.overviewCursor == 0 && s.model.menu.loads != []
        && s.model.menu.loads[0].Unloaded?
    requires Reports(s.(model := Edited(s.model, edited)), result, saved)
    ensures Reports(s, result, saved)
  {
    hide Reports, Presses, Taken, Inv;
    var m, editor := s.model, UNASKED.(draft := edited, listFocused := true);
    var loading := m.(menu := m.menu.(loads := m.menu.loads[0 := InFlight], activeCategory := 0), screen := Loading);
    var listed := Edited(m, m.draft).(screen := Category);
    var changed := listed.(draft := edited);
    LeavesEditor(changed, Edited(m, edited), editor);
    Calmly(s.(model := changed), EscKey, editor, Edited(m, edited), NoCommand, result, saved);
    TakesEdit(listed, changed, editor);
    Calmly(s.(model := listed), Letter("x"), editor, changed, NoCommand, result, saved);
    Discovers(s.(model := loading), s.(model := listed));
    After(s.(model := loading), Deliver(Discovered(0, true), UNASKED), s.(model := listed), result, saved);
    OpensFirst(m, loading);
    Calmly(s, EnterKey, UNASKED, loading, Discover, result, saved);
  }

  lemma OpensFirst(m: Model, m': Model)
    requires m.screen.Overview? && !m.menu.tooSmall && m.terminalError.None? && m.menu.overviewCursor == 0
    requires m.menu.loads != [] && m.menu.loads[0].Unloaded?
    requires m' == m.(menu := m.menu.(loads := m.menu.loads[0 := InFlight], activeCategory := 0), screen := Loading)
    ensures Presses(m, EnterKey, UNASKED, m', Discover)
  {
  }

  lemma Discovers(s: Session, s': Session)
    requires Fresh(s) && s.model.screen.Loading? && s.model.menu.activeCategory == 0
    requires s.model.menu.loads != [] && s.model.menu.loads[0].InFlight? && !s.model.outcome.create
    requires s' ==
        s.(model := s.model.(menu := s.model.menu.(loads := s.model.menu.loads[0 := Loaded]), screen := Category))
    ensures Taken(s, Deliver(Discovered(0, true), UNASKED), s')
  {
  }

  lemma TakesEdit(m: Model, m': Model, a: Answers)
    requires m.screen.Category? && !m.menu.tooSmall && m.terminalError.None? && !a.panics && m' == m.(draft := a.draft)
    ensures Presses(m, Letter("x"), a, m', NoCommand)
  {
  }

  lemma LeavesEditor(m: Model, m': Model, a: Answers)
    requires m.screen.Category? && !m.menu.tooSmall && m.terminalError.None? && !a.panics && a.listFocused
    requires m' == m.(draft := a.draft, screen := Overview)
    ensures Presses(m, EscKey, a, m', NoCommand)
  {
  }

  // ----- a creation: the preset, then the overview

  lemma {:induction false} PresetFirst(s: Session, preset: Draft, result: Draft, saved: Option<string>)
    requires Fresh(s) && s.model.screen.Creation? && !s.model.menu.tooSmall && !s.model.outcome.create
    requires s.model.menu.creationCursor <= 4
    requires var m := s.model.(menu := s.model.menu.(creationCursor := 4));
      Reports(s.(model := m.(draft := preset, initialDraft := preset, saver := true, screen := Overview)), result,
        saved)
    ensures Reports(s, result, saved)
    decreases 4 - s.model.menu.creationCursor
  {
    hide Reports;
    var m := s.model;
    if m.menu.creationCursor == 4 {
      var chosen := m.(draft := preset, initialDraft := preset, saver := true, screen := Overview);
      assert m.(menu := m.menu.(creationCursor := 4)) == m;
      Calmly(s, EnterKey, UNASKED.(draft := preset), chosen, NoCommand, result, saved);
    } else {
      var m' := m.(menu := m.menu.(creationCursor := m.menu.creationCursor + 1));
      assert m'.(menu := m'.menu.(creationCursor := 4)) == m.(menu := m.menu.(creationCursor := 4));
      PresetFirst(s.(model := m'), preset, result, saved);
      Calmly(s, DownKey, UNASKED, m', NoCommand, result, saved);
    }
  }

  /** A builder that can save: one with a saver, a creation, or a mutation whose confirmation can be typed. */
  predicate CanSave(b: Builder) {
    match b
    case Editing(saver) => saver
    case Creating => true
    case Mutating(x, _) => Typable(x.confirmation)
  }

  /** A compact mutation commits what it was given; any other builder with a category can be edited first. */
  function Result(b: Builder, draft: Draft, edited: Draft, categories: nat): Draft {
    if (b.Mutating? && b.mutation.compact) || (categories == 0 && !b.Creating?) then draft else edited
  }

  /**
   Every builder that can save has a run that commits, with one callback: the draft an
   editor or the creation screen answered, or, where there is nothing to edit, the draft
   the builder was given; and the session reports that draft and the callback's path.
   */
  lemma BuildersCommit(b: Builder, draft: Draft, edited: Draft, initialValid: bool, categories: nat,
                       lines: nat, height: nat, path: string)
    requires CanSave(b)
    ensures Reports(StartOf(b, draft, initialValid, categories), Result(b, draft, edited, categories), Some(path))
  {
    hide Reports;
    var s, result := StartOf(b, draft, initialValid, categories), Result(b, draft, edited, categories);
    if b.Creating? {
      var m := s.model.(menu := s.model.menu.(creationCursor := 4));
      OverviewCommits(s.(model := m.(draft := edited, initialDraft := edited, saver := true, screen := Overview)),
        path);
      PresetFirst(s, edited, result, Some(path));
    } else if b.Mutating? && b.mutation.compact {
      PreviewCommits(s, lines, height, path);
    } else {
      var e := if categories == 0 then s else s.(model := Edited(s.model, edited));
      if b.Editing? { OverviewCommits(e, path); } else { MutationCommits(e, lines, height, b.warning, path); }
      if categories != 0 { EditsFirst(s, edited, result, Some(path)); }
    }
  }
}
