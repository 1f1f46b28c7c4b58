/**
 The builders the program starts (internal/builder/model.go:130-144, mutation.go:34-83,
 creation.go:20-24), and exactly which of them report only committed creations.
 */
module BuilderStart {
  import opened Options
  import opened SaveRuntime
  import opened BuilderModel
  import opened BuilderRun
  import opened BuilderTheorems
  import opened BuilderSaver
  import opened BuilderPaths

  /** A draft edited on the overview, a creation, or a mutation whose first preview may need acknowledging. */
  datatype Builder = Editing(saver: bool) | Creating | Mutating(mutation: Mutation, warning: bool)

  function NewModel(draft: Draft, initialValid: bool, categories: nat): Model {
    Model(draft, draft, initialValid, Menu(seq(categories, _ => Unloaded), 0, 0, 0, false, false), None,
          Preview(UNPREPARED, "", 0, false, ""), false, false, None, Overview, Overview, NO_OUTCOME, None)
  }

  /** A compact mutation builder opens on its preview, with nothing typed. */
  function Opened(b: Builder, m: Model): Model {
    match b
    case Editing(saver) => m.(saver := saver)
    case Creating => m.(screen := Creation)
    case Mutating(x, warning) =>
      var m' := m.(mutation := Some(x));
      if x.compact then PrepareMutation(m', UNASKED.(prepare := Some(warning))).value else m'
  }

  function StartOf(b: Builder, draft: Draft, initialValid: bool, categories: nat): Session {
    Session(Opened(b, NewModel(draft, initialValid, categories)), Tracker(false, None, []), false, [], [],
            false, false, false, false, Running)
  }

  /**
   A saver is given, or chosen on the creation screen; a preview that can be left and
   still confirmed is not the first screen.
   */
  predicate Safe(b: Builder) {
    match b
    case Editing(saver) => saver
    case Creating => true
    case Mutating(x, _) => !(x.compact && Typable(x.confirmation))
  }

  predicate ReportsCommitted(s: Session)
    requires s.stage.Finished?
  {
    s.stage.error.None? && s.stage.outcome.create ==> Commits(s.tracker, s.stage.outcome)
  }

  /** Every run from here that finishes reports only a creation that its last callback committed. */
  ghost predicate OnlyCommitted(start: Session) {
    forall ss: seq<Session>, es: seq<Event>, i: nat | Run(ss, es) && ss[0] == start && i < |ss|
        && ss[i].stage.Finished? ::
       ReportsCommitted(ss[i])
  }

  // ----- an editing builder without a saver

  lemma EditingReportsUnsaved(s: Session)
    requires OnOverview(s) && s.model.mutation.None? && !s.model.saver
    ensures Reports(s, s.model.draft, None)
  {
    hide Reports;
    var m := OnConfirm(s.model);
    Unsaved(s.(model := m), EnterKey, Page(1, 1), m.(outcome := Outcome(m.draft, "", true, false)));
    DownToConfirm(s, m.draft, None);
  }

  // ----- a compact builder: confirm on the preview that was just left

  lemma LeftThenConfirmed(s: Session, height: nat)
    requires OnPreview(s) && s.model.mutation.value.compact && 1 <= height && s.model.preview.prepared == UNPREPARED
    requires s.model.preview.typed == s.model.mutation.value.confirmation
    ensures Reports(s, s.model.preview.draft, None)
  {
    var m := s.model;
    hide Reports;
    Unsaved(s, EnterKey, Page(1, height),
      m.(saver := false, draft := m.preview.draft, outcome := Outcome(m.preview.draft, "", true, false)));
  }

  /** What Esc leaves of the preview. */
  function Emptied(m: Model): Model { m.(preview := m.preview.(prepared := UNPREPARED)) }

  lemma EscLeaves(s: Session, a: Answers)
    requires OnPreview(s) && s.model.mutation.value.compact && !a.panics
    ensures var m := Emptied(s.model);
      if m.initialValid && m.draft == m.initialDraft
      then Presses(s.model, EscKey, a, m.(outcome := Outcome(m.draft, "", false, true)), Quit)
      else Presses(s.model, EscKey, a, m.(returnScreen := MutationPreview, screen := Discard), NoCommand)
  {
  }

  lemma NDeclines(m: Model, a: Answers)
    requires m.screen.Discard? && !m.menu.tooSmall && m.terminalError.None? && !a.panics
    ensures Presses(m, Letter("n"), a, m.(screen := m.returnScreen), NoCommand)
  {
  }

  /** Esc empties the preview; nothing moves the session off its screen before the terminal stops. */
  lemma TypedThenLeft(s: Session, lines: nat, height: nat)
    requires OnPreview(s) && s.model.mutation.value.compact && 1 <= height
    requires s.model.preview.typed == s.model.mutation.value.confirmation
    ensures Reports(s, s.model.preview.draft, None)
  {
    hide Reports, Presses;
    var draft := s.model.preview.draft;
    var m := Emptied(s.model);
    EscLeaves(s, Page(lines, height));
    if m.initialValid && m.draft == m.initialDraft {
      var m' := m.(outcome := Outcome(m.draft, "", false, true));
      LeftThenConfirmed(s.(model := m', quit := true), height);
      Calmly(s, EscKey, Page(lines, height), m', Quit, draft, None);
    } else {
      var asked, declined := m.(returnScreen := MutationPreview, screen := Discard),
        m.(returnScreen := MutationPreview);
      LeftThenConfirmed(s.(model := declined), height);
      NDeclines(asked, Page(1, height));
      Calmly(s.(model := asked), Letter("n"), Page(1, height), declined, NoCommand, draft, None);
      Calmly(s, EscKey, Page(lines, height), asked, NoCommand, draft, None);
    }
  }

  // ----- exactly the safe builders report only committed creations

  lemma SafeStartsReady(b: Builder, draft: Draft, initialValid: bool, categories: nat)
    requires Safe(b)
    ensures var s := StartOf(b, draft, initialValid, categories); Init(s) && Ready(s.model)
  {
  }

  /**
   A builder that is not safe has a run that reports a creation although no callback
   ever started: whatever the size of the preview and of the terminal, warning or
   not, and whether or not the draft can be compared.
   */
  lemma UnsafeReportsUnsaved(b: Builder, draft: Draft, initialValid: bool, categories: nat, lines: nat, height: nat)
    requires !Safe(b) && 1 <= height
    ensures Reports(StartOf(b, draft, initialValid, categories), draft, None)
  {
    hide Reports;
    var s := StartOf(b, draft, initialValid, categories);
    if b.Editing? {
      EditingReportsUnsaved(s);
    } else {
      TypedThenLeft(s.(model := ReadyToCommit(s.model, lines, height)), lines, height);
      ReadsAndTypes(s, lines, height, draft, None);
    }
  }

  /** Over every run, exactly the safe builders report only creations that were committed. */
  lemma OnlyCommittedExactly(b: Builder, draft: Draft, initialValid: bool, categories: nat)
    ensures OnlyCommitted(StartOf(b, draft, initialValid, categories)) <==> Safe(b)
  {
    hide Route, Taken, Reaches, Init, Ready, StartOf;
    var s := StartOf(b, draft, initialValid, categories);
    if Safe(b) {
      SafeStartsReady(b, draft, initialValid, categories);
      forall ss: seq<Session>, es: seq<Event>, i: nat | Run(ss, es) && ss[0] == s && i < |ss| && ss[i].stage.Finished?
        ensures ReportsCommitted(ss[i])
      {
        CreationsAreCommitted(ss, es, i);
      }
    } else {
      UnsafeReportsUnsaved(b, draft, initialValid, categories, 1, 1);
      UnsavedRefutes(b, draft, initialValid, categories);
    }
  }

  lemma UnsavedRefutes(b: Builder, draft: Draft, initialValid: bool, categories: nat)
    requires Reports(StartOf(b, draft, initialValid, categories), draft, None)
    ensures !OnlyCommitted(StartOf(b, draft, initialValid, categories))
  {
    hide Taken;
    var s := StartOf(b, draft, initialValid, categories);
    var last: Session :| Reaches(s, last) && EndsWith(last, draft, None);
    var ss, es :| Route(ss, es, s, last);
    assert Run(ss, es) && !ReportsCommitted(ss[|es|]);
  }
}
