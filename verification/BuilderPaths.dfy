/**
 Runs of a builder session put together key by key, up to the report they end with.
 */
module BuilderPaths {
  import opened Options
  import opened SaveRuntime
  import opened BuilderModel
  import opened BuilderRun
  import opened BuilderSaver

  predicate Route(ss: seq<Session>, es: seq<Event>, s: Session, t: Session) {
    && |ss| == |es| + 1 && ss[0] == s && ss[|es|] == t
    && forall i | 0 <= i < |es| :: Taken(ss[i], es[i], ss[i + 1])
  }

  ghost predicate Reaches(s: Session, t: Session) { exists ss, es :: Route(ss, es, s, t) }

  lemma Stays(s: Session)
    ensures Reaches(s, s)
  {
    assert Route([s], [], s, s);
  }

  lemma Continues(s: Session, e: Event, t: Session, u: Session)
    requires Taken(s, e, t) && Reaches(t, u)
    ensures Reaches(s, u)
  {
    hide Taken;
    var ss, es :| Route(ss, es, t, u);
    assert Route([s] + ss, [e] + es, s, u);
  }

  /** The user's answers while the preview fills `lines` lines of a screen that shows `height` of them. */
  function Page(lines: nat, height: nat): Answers { UNASKED.(lines := lines, height := height, selected := true) }

  /** A key that changes the model alone. */
  predicate Presses(m: Model, k: Key, a: Answers, m': Model, command: Command) {
    Update(m, Tracker(false, None, []), false, KeyPressed(k), a) == Step(m', Tracker(false, None, []), false, command)
  }

  lemma Pressed(s: Session, k: Key, a: Answers, m': Model, command: Command)
    requires s.stage.Running? && !s.panicked && s.tracker == Tracker(false, None, [])
    requires Presses(s.model, k, a, m', command) && !command.Save?
    requires command.Quit? || !m'.outcome.create
    ensures var s' :=
        s.(model := m', quit := s.quit || command.Quit?, hollow := s.hollow || Hollow(s.model, m', KeyPressed(k)));
      Taken(s, Deliver(KeyPressed(k), a), s')
  {
    hide Update;
  }

  /** Asked to quit with a decision made, the session ends with it. */
  lemma Ends(s: Session) returns (last: Session)
    requires s.stage.Running? && s.quit && !s.interrupted && !s.panicked && s.model.terminalError.None?
        && s.tracker.current.None?
    ensures Reaches(s, last) && last.stage == Finished(s.model.outcome, None)
        && last.tracker.attempts == s.tracker.attempts
  {
    var s1 := s.(stage := Stopping(s.model.outcome, None));
    var s2 := s1.(tracker := Stopped(s.tracker), stage := Settling(s.model.outcome, None));
    last := s2.(stage := Finished(s.model.outcome, None));
    Stays(last);
    Continues(s2, Settle, last, last);
    Continues(s1, CloseGate, s2, last);
    Continues(s, TerminalEnds(None), s1, last);
  }

  /** A creation of `draft` reported without error: by the one callback that ran, under a path, or by none. */
  predicate EndsWith(s: Session, draft: Draft, saved: Option<string>) {
    match saved
    case None => s.stage == Finished(Outcome(draft, "", true, false), None) && s.tracker.attempts == []
    case Some(path) =>
      && s.stage == Finished(Outcome(draft, path, true, false), None)
      && s.tracker.attempts == [Attempt(draft, Some(Saved(path, None)))]
  }

  ghost predicate Reports(s: Session, draft: Draft, saved: Option<string>) {
    exists last: Session :: Reaches(s, last) && EndsWith(last, draft, saved)
  }

  /** A session nothing has happened to but keys. */
  predicate Fresh(s: Session) {
    && s.stage.Running? && !s.panicked && !s.interrupted && s.tracker == Tracker(false, None, [])
    && s.model.terminalError.None?
  }

  lemma Calmly(s: Session, k: Key, a: Answers, m': Model, command: Command, draft: Draft, saved: Option<string>)
    requires Fresh(s) && Presses(s.model, k, a, m', command) && !command.Save? && !m'.outcome.create
    requires Reports(s.(model := m', quit := s.quit || command.Quit?), draft, saved)
    ensures Reports(s, draft, saved)
  {
    hide Update, Reaches;
    Pressed(s, k, a, m', command);
    var s' := s.(model := m', quit := s.quit || command.Quit?);
    var last: Session :| Reaches(s', last) && EndsWith(last, draft, saved);
    Continues(s, Deliver(KeyPressed(k), a), s', last);
  }

  lemma Unsaved(s: Session, k: Key, a: Answers, m': Model)
    requires Fresh(s) && Presses(s.model, k, a, m', Quit) && m'.outcome == Outcome(m'.draft, "", true, false)
        && m'.terminalError.None?
    ensures Reports(s, m'.draft, None)
  {
    hide Update, Reaches;
    Pressed(s, k, a, m', Quit);
    var s' := s.(model := m', quit := true, hollow := s.hollow || Hollow(s.model, m', KeyPressed(k)));
    var last := Ends(s');
    Continues(s, Deliver(KeyPressed(k), a), s', last);
  }

  // ----- stretches of keys that every builder shares

  predicate OnOverview(s: Session) {
    && Fresh(s) && s.model.screen.Overview? && !s.model.menu.tooSmall && !s.model.outcome.create
    && s.model.menu.overviewCursor <= |s.model.menu.loads|
  }

  /** The cursor on the row that confirms. */
  function OnConfirm(m: Model): Model { m.(menu := m.menu.(overviewCursor := |m.menu.loads|)) }

  lemma {:induction false} DownToConfirm(s: Session, draft: Draft, saved: Option<string>)
    requires OnOverview(s) && Reports(s.(model := OnConfirm(s.model)), draft, saved)
    ensures Reports(s, draft, saved)
    decreases |s.model.menu.loads| - s.model.menu.overviewCursor
  {
    var m := s.model;
    var at := m.menu.overviewCursor;
    hide Reports;
    if at < |m.menu.loads| {
      var m' := m.(menu := m.menu.(overviewCursor := at + 1));
      DownToConfirm(s.(model := m'), draft, saved);
      Calmly(s, DownKey, Page(1, 1), m', NoCommand, draft, saved);
    } else {
      assert OnConfirm(m) == m;
    }
  }

  predicate OnPreview(s: Session) {
    && Fresh(s) && s.model.screen.MutationPreview? && s.model.mutation.Some? && !s.model.menu.tooSmall
    && 0 <= s.model.preview.offset && !s.model.outcome.create
  }

  lemma LetterTypes(s: Session, a: Answers)
    requires OnPreview(s) && Read(s.model, a) && !a.panics && s.model.mutation.value.confirmation != ""
    requires s.model.preview.acknowledged || !s.model.preview.prepared.warning
    requires Typable(s.model.preview.typed + a.text)
    ensures Presses(s.model, Letter(a.text), a, Typed(s.model, s.model.preview.typed + a.text), NoCommand)
  {
    assert forall c | c in a.text :: c in s.model.preview.typed + a.text;
  }

  lemma TypableNext(name: string, n: nat)
    requires Typable(name) && n < |name|
    ensures name[..n] + name[n..n + 1] == name[..n + 1] && Typable(name[..n + 1])
  {
    assert forall c | c in name[..n + 1] :: c in name;
  }

  lemma TypesOne(s: Session, lines: nat, height: nat, draft: Draft, saved: Option<string>)
    requires OnPreview(s) && lines <= s.model.preview.offset + height
    requires s.model.preview.acknowledged || !s.model.preview.prepared.warning
    requires var (typed, name) := (s.model.preview.typed, s.model.mutation.value.confirmation);
      && Typable(name) && typed < name && Reports(s.(model := Typed(s.model, name[..|typed| + 1])), draft, saved)
    ensures Reports(s, draft, saved)
  {
    hide Reports, Presses, Typable;
    var m, name := s.model, s.model.mutation.value.confirmation;
    var n := |m.preview.typed|;
    TypableNext(name, n);
    assert m.preview.typed == name[..n];
    var a := Page(lines, height).(text := name[n..n + 1]);
    LetterTypes(s, a);
    Calmly(s, Letter(a.text), a, Typed(m, name[..n + 1]), NoCommand, draft, saved);
  }

  lemma {:induction false} TypesTheRest(s: Session, lines: nat, height: nat, draft: Draft, saved: Option<string>)
    requires OnPreview(s) && lines <= s.model.preview.offset + height
    requires s.model.preview.acknowledged || !s.model.preview.prepared.warning
    requires Typable(s.model.mutation.value.confirmation)
        && s.model.preview.typed <= s.model.mutation.value.confirmation
    requires Reports(s.(model := Typed(s.model, s.model.mutation.value.confirmation)), draft, saved)
    ensures Reports(s, draft, saved)
    decreases |s.model.mutation.value.confirmation| - |s.model.preview.typed|
  {
    hide Reports, Typable;
    var m, name := s.model, s.model.mutation.value.confirmation;
    var n := |m.preview.typed|;
    if n == |name| {
      assert Typed(m, name) == m;
    } else {
      var typed := Typed(m, name[..n + 1]);
      assert Typed(typed, name) == Typed(m, name);
      TypesTheRest(s.(model := typed), lines, height, draft, saved);
      TypesOne(s, lines, height, draft, saved);
    }
  }

  /** On the last page, past the warning, with the confirmation typed. */
  function ReadyToCommit(m: Model, lines: nat, height: nat): Model
    requires m.mutation.Some?
  {
    m.(preview := m.preview.(offset := Max(0, lines - height), typed := m.mutation.value.confirmation,
                             acknowledged := m.preview.prepared.warning || m.preview.acknowledged))
  }

  lemma EndReads(s: Session, lines: nat, height: nat)
    requires OnPreview(s)
    ensures Presses(s.model, EndKey, Page(lines, height), Scrolled(s.model, Max(0, lines - height)), NoCommand)
  {
  }

  lemma AcknowledgesWarning(s: Session, lines: nat, height: nat)
    requires OnPreview(s) && lines <= s.model.preview.offset + height
    requires s.model.preview.prepared.warning && !s.model.preview.acknowledged
    ensures Presses(s.model, Letter("a"), Page(lines, height),
                    s.model.(preview := s.model.preview.(acknowledged := true)), NoCommand)
  {
  }

  lemma ReadsAndTypes(s: Session, lines: nat, height: nat, draft: Draft, saved: Option<string>)
    requires OnPreview(s) && s.model.preview.typed == "" && Typable(s.model.mutation.value.confirmation)
    requires Reports(s.(model := ReadyToCommit(s.model, lines, height)), draft, saved)
    ensures Reports(s, draft, saved)
  {
    hide Reports, Presses, Typable;
    var page := Page(lines, height);
    var read := Scrolled(s.model, Max(0, lines - height));
    var known :=
      read.(preview := read.preview.(acknowledged := s.model.preview.prepared.warning || s.model.preview.acknowledged));
    assert Typed(known, known.mutation.value.confirmation) == ReadyToCommit(s.model, lines, height);
    TypesTheRest(s.(model := known), lines, height, draft, saved);
    if read.preview.prepared.warning && !read.preview.acknowledged {
      AcknowledgesWarning(s.(model := read), lines, height);
      Calmly(s.(model := read), Letter("a"), page, known, NoCommand, draft, saved);
    } else {
      assert known == read;
    }
    EndReads(s, lines, height);
    Calmly(s, EndKey, page, read, NoCommand, draft, saved);
  }
}
