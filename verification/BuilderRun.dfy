/**
 A whole builder session (internal/builder/model.go:493-596): the screen machine,
 save commands that run beside it, the terminal watcher, callbacks that panic or
 end without an outcome, and the settlement after the terminal has returned.
 */
module BuilderRun {
  import opened Options
  import opened SaveRuntime
  import opened BuilderModel

  datatype Stage =
    | Running
    | Stopping(outcome: Outcome, error: Option<Err>)
    | Settling(outcome: Outcome, error: Option<Err>)
    | Finished(outcome: Outcome, error: Option<Err>)

  /**
   `commands` are save commands not yet run, `inbox` the completions not yet seen by
   the model. `quit` says that the terminal was asked to stop, `hollow` that a save
   was started when there was no saver.
   */
  datatype Session = Session(
    model: Model,
    tracker: Tracker,
    panicked: bool,
    commands: seq<Draft>,
    inbox: seq<SaveMessage>,
    quit: bool,
    watched: bool,
    interrupted: bool,
    hollow: bool,
    stage: Stage)

  datatype Event =
    | Deliver(message: Message, answers: Answers)
    | DeliverSave(i: nat)
    | Execute(i: nat)
    | Complete(k: nat, ending: Ending)
    | CallbackPanics
    | Interrupt
    | WatcherSeesPanic
    | TerminalEnds(error: Option<Err>)
    | CloseGate
    | Settle

  predicate Enabled(s: Session, e: Event) {
    match e
    case Deliver(message, _) => s.stage.Running? && !message.SaveCompleted?
    case DeliverSave(i) => s.stage.Running? && i < |s.inbox|
    case Execute(i) => i < |s.commands|
    case Complete(k, _) => Executing(s.tracker, k)
    case CallbackPanics => !s.stage.Finished?
    case Interrupt => !s.watched && (s.stage.Running? || s.stage.Stopping?)
    case WatcherSeesPanic => !s.watched && s.panicked && (s.stage.Running? || s.stage.Stopping?)
    case TerminalEnds(error) => s.stage.Running? && (error.None? ==> s.quit)
    case CloseGate => s.stage.Stopping?
    case Settle => s.stage.Settling? && Settled(s.tracker)
  }

  function Without<A>(xs: seq<A>, i: nat): seq<A>
    requires i < |xs|
  {
    xs[..i] + xs[i + 1..]
  }

  /** A save was started without a saver. */
  predicate Hollow(m: Model, m': Model, message: Message) {
    m'.outcome.create && !m'.saver && !message.SaveCompleted? && m'.terminalError.None?
  }

  function Updated(s: Session, message: Message, a: Answers): Session {
    var step := Update(s.model, s.tracker, s.panicked, message, a);
    s.(model := step.model, tracker := step.tracker, panicked := step.panicked,
       commands := if step.command.Save? then s.commands + [step.command.draft] else s.commands,
       quit := s.quit || step.command.Quit?,
       hollow := s.hollow || Hollow(s.model, step.model, message))
  }

  const UNASKED := Answers(false, "", false, false, false, false, false, None, false, Canceled, "", 0, 0)

  function Next(s: Session, e: Event): Session
    requires Enabled(s, e)
  {
    match e
    case Deliver(message, a) => Updated(s, message, a)
    case DeliverSave(i) => Updated(s.(inbox := Without(s.inbox, i)), SaveCompleted(s.inbox[i]), UNASKED)
    case Execute(i) =>
      var draft := s.commands[i];
      if s.tracker.closed then s.(commands := Without(s.commands, i), inbox := s.inbox + [Refusal(draft)])
      else s.(commands := Without(s.commands, i), tracker := Admitted(s.tracker, draft))
    case Complete(k, ending) =>
      var t := Completed(s.tracker, k, ending);
      s.(tracker := t, inbox := s.inbox + [SaveMessage(t.attempts[k].draft, t.attempts[k].result.value, Some(k))])
    case CallbackPanics => s.(panicked := true, tracker := if s.panicked then s.tracker else Stopped(s.tracker))
    case Interrupt => s.(tracker := Stopped(s.tracker), watched := true, interrupted := true, quit := true)
    case WatcherSeesPanic => s.(tracker := Stopped(s.tracker), watched := true, quit := true)
    case TerminalEnds(error) =>
      s.(stage := if error.Some? then Stopping(NO_OUTCOME, error) else Stopping(s.model.outcome, s.model.terminalError))
    case CloseGate =>
      s.(tracker := Stopped(s.tracker),
         stage :=
           Settling(s.stage.outcome, if s.interrupted && s.stage.error.None? then Some(Canceled) else s.stage.error))
    case Settle =>
      var (outcome, error) := Decided(s.stage.outcome, s.stage.error, s.tracker, s.panicked);
      s.(stage := Finished(outcome, error))
  }

  /** A session starts on any screen but those a save or a discard leads to. */
  predicate Init(s: Session) {
    && !Busy(s.model) && !s.model.screen.Discard? && s.model.outcome == NO_OUTCOME && s.model.terminalError.None?
    && s.tracker == Tracker(false, None, []) && !s.panicked && s.commands == [] && s.inbox == []
    && !s.quit && !s.watched && !s.interrupted && !s.hollow && s.stage.Running?
  }

  predicate Taken(s: Session, e: Event, s': Session) { Enabled(s, e) && s' == Next(s, e) }

  predicate Run(ss: seq<Session>, es: seq<Event>) {
    && |ss| == |es| + 1 && Init(ss[0])
    && forall i | 0 <= i < |es| :: Taken(ss[i], es[i], ss[i + 1])
  }

  // ----- what one update may do

  /** Moves that neither start nor end a save. */
  predicate Quiet(m: Model, m': Model, command: Command) {
    && !command.Save?
    && m'.saveCancel == m.saveCancel && m'.terminalError == m.terminalError
    && (Busy(m) ==> Busy(m') && m'.outcome == m.outcome && !command.Quit?)
    && (!Busy(m) ==> !Busy(m'))
    && (m'.outcome == m.outcome || m'.outcome.cancelled || (m'.outcome.create && !m'.saver))
    && (m'.outcome.create ==> m.outcome.create || !m'.saver)
    && (m.outcome.create || m.outcome.cancelled ==> m'.outcome.create || m'.outcome.cancelled)
    && (command.Quit? ==> m'.outcome.create || m'.outcome.cancelled || m'.terminalError.Some?)
  }

  /** Moves that start a save: from no other save, with an untouched outcome. */
  predicate Starts(m: Model, m': Model, command: Command) {
    && command.Save? && !Busy(m)
    && m'.screen.Saving? && m'.saveCancel
    && m'.outcome == m.outcome && m'.terminalError == m.terminalError
  }

  predicate ReturnsIdle(m: Model) { m.screen.Discard? ==> m.returnScreen != Saving && m.returnScreen != CancellingSave }

  predicate Moves(m: Model, m': Model, command: Command) {
    (Quiet(m, m', command) || Starts(m, m', command)) && ReturnsIdle(m')
  }

  /** The parts of a model that decide how a session ends. */
  predicate Agree(m: Model, n: Model) {
    m.screen == n.screen && m.returnScreen == n.returnScreen && m.saveCancel == n.saveCancel
    && m.outcome == n.outcome && m.terminalError == n.terminalError
  }

  lemma CancellationMoves(m: Model, n: Model)
    requires Agree(m, n) && !Busy(m) && !m.screen.Discard?
    ensures var (m', command) := BeginCancellation(n); Moves(m, m', command)
  {
  }

  lemma StartMoves(m: Model, n: Model, a: Answers)
    requires Agree(m, n) && !Busy(m) && !m.screen.Discard?
    ensures var (m', command) := StartSave(n, a); Moves(m, m', command)
  {
  }

  lemma PrepareMoves(m: Model, n: Model, a: Answers)
    requires n.saveCancel == m.saveCancel && n.outcome == m.outcome && n.terminalError == m.terminalError && !Busy(m)
    requires n.saver == m.saver || !m.outcome.create
    ensures var (m', command) := Prepares(n, a); Moves(m, m', command)
  {
  }

  /** A change of screen, draft or cursor alone. */
  predicate Wanders(m: Model, n: Model) {
    && n.saveCancel == m.saveCancel && n.outcome == m.outcome && n.terminalError == m.terminalError
         && n.saver == m.saver
    && !Busy(n) && !n.screen.Discard?
  }

  lemma WandersMoves(m: Model)
    requires !Busy(m)
    ensures forall n, command | Wanders(m, n) && (command == NoCommand || command == Discover) :: Moves(m, n, command)
  {
  }

  lemma OpeningWanders(m: Model)
    requires !Busy(m) && !m.screen.Discard?
    ensures var (m', command) := OpenCategory(m); Wanders(m, m') && (command == NoCommand || command == Discover)
    ensures var (m', command) := Reloading(m); Wanders(m, m') && command == Discover
  {
  }

  lemma OverviewMoves(m: Model, k: Key, a: Answers)
    requires m.screen.Overview?
    ensures var (m', command) := UpdateOverview(m, k, a); Moves(m, m', command)
  {
    if k.EscKey? || (Opens(k) && m.menu.overviewCursor == |m.menu.loads| + 1) {
      CancellationMoves(m, m);
    } else if Opens(k) && m.menu.overviewCursor == |m.menu.loads| {
      StartMoves(m, m, a);
      PrepareMoves(m, m, a);
      WandersMoves(m);
    } else {
      OpeningWanders(m);
      WandersMoves(m);
    }
    hide BeginCancellation, StartSave, Prepares, OpenCategory, Moves;
  }

  lemma TypingMoves(m: Model, k: Key, a: Answers)
    requires m.screen.MutationPreview? && m.mutation.Some?
    ensures var (m', command) := TypeConfirmation(m, k, a); Moves(m, m', command)
    ensures var (m', command) := CommitPrepared(m, a); Moves(m, m', command)
  {
    StartMoves(m, m.(saver := m.preview.prepared.saves, draft := m.preview.draft), a);
    WandersMoves(m);
    hide StartSave, Moves;
  }

  lemma AbandoningMoves(m: Model)
    requires m.screen.MutationPreview? && m.mutation.Some?
    ensures var (m', command) := AbandonPreview(m); Moves(m, m', command)
  {
    CancellationMoves(m, m.(preview := m.preview.(prepared := UNPREPARED)));
    WandersMoves(m);
    hide BeginCancellation, Moves;
  }

  lemma ViewingMoves(m: Model, preview: Preview)
    requires m.screen.MutationPreview?
    ensures Moves(m, m.(preview := preview), NoCommand)
  {
  }

  lemma PreviewMoves(m: Model, k: Key, a: Answers)
    requires m.screen.MutationPreview? && m.mutation.Some?
    ensures var (m', command) := UpdateMutationPreview(m, k, a); Moves(m, m', command)
  {
    hide AbandonPreview, TypeConfirmation, CommitPrepared, Read, Scrolls, ScrollTo, Moves;
    TypingMoves(m, k, a);
    AbandoningMoves(m);
    ViewingMoves(m, m.preview);
    ViewingMoves(m, m.preview.(offset := ScrollTo(m.preview.offset, k, a)));
    ViewingMoves(m, m.preview.(acknowledged := true));
  }

  lemma FailureMoves(m: Model, k: Key, a: Answers)
    requires m.screen.SaveFailure?
    ensures var (m', command) := UpdateSaveFailure(m, k, a); Moves(m, m', command)
  {
    CancellationMoves(m, m);
    StartMoves(m, m, a);
    PrepareMoves(m, m, a);
    WandersMoves(m);
    hide BeginCancellation, StartSave, Prepares, Is, Moves;
  }

  lemma ReloadMoves(m: Model, k: Key, a: Answers)
    requires m.screen.Reload? && m.mutation.Some?
    ensures var (m', command) := UpdateReload(m, k, a); Moves(m, m', command)
  {
    PrepareMoves(m, Reloaded(m, a), a);
    hide Prepares;
  }

  lemma EditorMoves(m: Model, k: Key, a: Answers)
    requires m.screen.Category?
    ensures var (m', command) := UpdateEditor(m, k, a); Moves(m, m', command)
  {
    WandersMoves(m);
    OpeningWanders(m);
    hide Reloading, Moves;
  }

  lemma ConfirmationMoves(m: Model, k: Key, a: Answers)
    requires m.screen.Confirm?
    ensures var (m', command) := UpdateConfirmation(m, k, a); Moves(m, m', command)
  {
    StartMoves(m, m.(menu := m.menu.(confirmFailed := false)), a);
    WandersMoves(m);
    hide StartSave, Moves;
  }

  lemma LoadFailureMoves(m: Model, k: Key)
    requires m.screen.LoadFailure?
    ensures var (m', command) := UpdateLoadFailure(m, k); Moves(m, m', command)
  {
    WandersMoves(m);
    OpeningWanders(m);
    hide Reloading, Moves;
  }

  lemma DiscardMoves(m: Model, k: Key)
    requires m.screen.Discard? && ReturnsIdle(m)
    ensures var (m', command) := UpdateDiscard(m, k); Moves(m, m', command)
  {
  }

  lemma CreationMoves(m: Model, k: Key, a: Answers)
    requires m.screen.Creation?
    ensures var (m', command) := UpdateCreation(m, k, a);
      if m'.terminalError == m.terminalError then Moves(m, m', command)
      else m' == m.(draft := m'.draft, terminalError := m'.terminalError) && m'.terminalError.Some? && command == Quit
  {
  }

  lemma DiscoveryMoves(m: Model, category: nat, ok: bool)
    requires ReturnsIdle(m)
    ensures Moves(m, DiscoveryCompleted(m, category, ok), NoCommand)
  {
  }

  /** One update, seen from the session: a caught panic, a refusal after the end, or a move. */
  predicate Effect(m: Model, t: Tracker, panicked: bool, step: Step) {
    || step == CallbackPanic(m, t, panicked)
    || (&& step.tracker == t && step.panicked == panicked
        && if m.terminalError.Some? then step.model == m && step.command == Quit
           else
             || Moves(m, step.model, step.command)
             || (step.model == m.(draft := step.model.draft, terminalError := step.model.terminalError)
                 && step.model.terminalError.Some? && step.command == Quit))
  }

  lemma KeyEffect(m: Model, t: Tracker, k: Key, a: Answers)
    requires ReturnsIdle(m) && !m.screen.Creation? && m.terminalError.None?
    ensures Effect(m, t, false, UpdateKey(m, t, false, k, a))
  {
    if Interrupts(k) && !m.screen.Saving? && !m.screen.CancellingSave? && !m.screen.Discard? {
      CancellationMoves(m, m);
    } else if m.screen.Saving? || m.screen.CancellingSave? {
    } else if m.menu.tooSmall {
    } else {
      ScreenEffect(m, t, k, a);
    }
  }

  lemma ScreenEffect(m: Model, t: Tracker, k: Key, a: Answers)
    requires ReturnsIdle(m) && !m.screen.Creation? && m.terminalError.None? && !Busy(m)
    requires !m.menu.tooSmall && (Interrupts(k) ==> m.screen.Discard?)
    ensures Effect(m, t, false, UpdateKey(m, t, false, k, a))
  {
    hide UpdateOverview, UpdateEditor, UpdateConfirmation, UpdateLoadFailure, UpdateSaveFailure, UpdateDiscard,
      UpdateMutationPreview, UpdateReload, Moves;
    WandersMoves(m);
    match m.screen
    case Overview => OverviewMoves(m, k, a);
    case Category => EditorMoves(m, k, a);
    case Confirm => ConfirmationMoves(m, k, a);
    case LoadFailure => LoadFailureMoves(m, k);
    case SaveFailure => FailureMoves(m, k, a);
    case Discard => DiscardMoves(m, k);
    case MutationPreview => if m.mutation.Some? { PreviewMoves(m, k, a); }
    case Reload => if m.mutation.Some? { ReloadMoves(m, k, a); }
    case _ =>
  }

  lemma UpdateEffect(m: Model, t: Tracker, panicked: bool, message: Message, a: Answers)
    requires ReturnsIdle(m) && !message.SaveCompleted?
    ensures Effect(m, t, panicked, Update(m, t, panicked, message, a))
  {
    hide UpdateKey, UpdateCreation, DiscoveryCompleted, Moves;
    if panicked || message.PanicSeen? || m.terminalError.Some? || (a.panics && !message.Resized?) {
    } else if message.KeyPressed? {
      if m.screen.Creation? {
        CreationMoves(m, message.key, a);
      } else {
        KeyEffect(m, t, message.key, a);
      }
    } else if message.Discovered? {
      DiscoveryMoves(m, message.category, message.ok);
    } else {
      ResizeMoves(m, message.tooSmall);
    }
  }

  lemma ResizeMoves(m: Model, small: bool)
    requires ReturnsIdle(m)
    ensures Moves(m, m.(menu := m.menu.(tooSmall := small)), NoCommand)
  {
  }

  // ----- the invariant of a session

  function Count(t: Tracker): nat { |t.attempts| }

  /** The last attempt's result; None when there is no attempt or it still runs. */
  function LastResult(t: Tracker): Option<Saved> {
    if t.attempts == [] then None else t.attempts[|t.attempts| - 1].result
  }

  predicate LastRuns(t: Tracker) { t.attempts != [] && LastResult(t).None? }

  /** Nothing was attempted, or the last attempt ended in an ordinary failure. */
  predicate Clear(t: Tracker) { t.attempts == [] || (LastResult(t).Some? && LastResult(t).value.Ordinary()) }

  predicate PastClear(t: Tracker) {
    forall k | 0 <= k < |t.attempts| - 1 :: t.attempts[k].result.Some? && t.attempts[k].result.value.Ordinary()
  }

  /** The tracker keeps the last attempt until its ordinary failure has been seen. */
  predicate Tracked(t: Tracker) {
    && (t.current.Some? ==> t.attempts != [] && t.current == Some(|t.attempts| - 1))
    && (!Clear(t) ==> t.current.Some?)
  }

  predicate Commits(t: Tracker, outcome: Outcome) {
    LastResult(t).Some? && LastResult(t).value.Commits()
    && outcome == Outcome(t.attempts[|t.attempts| - 1].draft, LastResult(t).value.path, true, false)
  }

  function Flying(s: Session): nat { |s.commands| + |s.inbox| + if LastRuns(s.tracker) then 1 else 0 }

  predicate Genuine(t: Tracker, x: SaveMessage) {
    match x.attempt
    case None => x == Refusal(x.draft) && Clear(t) && t.closed
    case Some(k) => t.attempts != [] && k == |t.attempts| - 1 && t.attempts[k] == Attempt(x.draft, Some(x.saved))
  }

  predicate FlightSane(s: Session) {
    && Flying(s) <= 1
    && (s.commands != [] ==> Clear(s.tracker))
    && (forall x | x in s.inbox :: Genuine(s.tracker, x))
    && (Flying(s) == 1 ==> s.model.terminalError.Some? || (Busy(s.model) && s.model.saveCancel))
  }

  predicate ModelSane(s: Session) {
    var m := s.model;
    && ReturnsIdle(m)
    && (m.terminalError.None? && Busy(m) && Flying(s) == 0 ==> Commits(s.tracker, m.outcome))
    && (m.terminalError.None? && Flying(s) == 0 && !Clear(s.tracker) ==> Busy(m))
    && (m.outcome.create ==> s.hollow || Commits(s.tracker, m.outcome))
    && (s.quit ==> m.outcome.create || m.outcome.cancelled || m.terminalError.Some? || s.interrupted || s.panicked)
  }

  predicate StageSane(s: Session) {
    match s.stage
    case Running => true
    case Stopping(outcome, error) =>
      && (error.None? ==> s.quit && outcome == s.model.outcome && s.model.terminalError.None?)
    case Settling(outcome, error) =>
      && s.tracker.closed
      && (error.None? ==> s.quit && !s.interrupted && outcome == s.model.outcome && s.model.terminalError.None?)
    case Finished(outcome, error) => s.tracker.closed && !LastRuns(s.tracker) && Truth(s, outcome, error)
  }

  /** What the result of a session says about its save callbacks. */
  predicate Truth(s: Session, outcome: Outcome, error: Option<Err>) {
    var t := s.tracker;
    && (LastResult(t).Some? && LastResult(t).value.Commits() ==>
          Commits(t, outcome)
            && (error.Some? ==>
            error.value.Transaction? && error.value.state == Committed && !CancellationOnly(error.value)))
    && (LastResult(t).Some? && LastResult(t).value.error.Some? && Uncertain(LastResult(t).value.error.value) ==>
          error.Some? && outcome == NO_OUTCOME)
    && (error.None? ==> outcome.create || outcome.cancelled)
    && (error.None? && outcome.cancelled ==> Clear(t))
    && (error.None? && outcome.create ==> s.hollow || Commits(t, outcome))
  }

  predicate Inv(s: Session) {
    && PastClear(s.tracker) && Tracked(s.tracker)
    && FlightSane(s) && ModelSane(s) && StageSane(s)
  }

  // ----- every event keeps it

  lemma MoveKeepsInv(s: Session, message: Message, a: Answers)
    requires Inv(s) && s.stage.Running? && !message.SaveCompleted?
    requires var step := Update(s.model, s.tracker, s.panicked, message, a);
      step.tracker == s.tracker && step.panicked == s.panicked && s.model.terminalError.None?
        && Moves(s.model, step.model, step.command)
    ensures Inv(Updated(s, message, a))
  {
    hide Update, Uncertain, PastClear, Genuine;
  }

  lemma EndingKeepsInv(s: Session, message: Message, a: Answers)
    requires Inv(s) && s.stage.Running? && !message.SaveCompleted?
    requires var step := Update(s.model, s.tracker, s.panicked, message, a);
      && Effect(s.model, s.tracker, s.panicked, step)
      && (step != CallbackPanic(s.model, s.tracker, s.panicked) && s.model.terminalError.None? ==>
           !Moves(s.model, step.model, step.command))
    ensures Inv(Updated(s, message, a))
  {
    hide Update, Moves, Uncertain;
  }

  lemma DeliverKeepsInv(s: Session, message: Message, a: Answers)
    requires Inv(s) && s.stage.Running? && !message.SaveCompleted?
    ensures Inv(Updated(s, message, a))
  {
    UpdateEffect(s.model, s.tracker, s.panicked, message, a);
    var step := Update(s.model, s.tracker, s.panicked, message, a);
    hide Update, Updated, Inv, Moves;
    if step == CallbackPanic(s.model, s.tracker, s.panicked) || s.model.terminalError.Some?
        || !Moves(s.model, step.model, step.command)
    {
      EndingKeepsInv(s, message, a);
    } else {
      MoveKeepsInv(s, message, a);
    }
  }

  lemma SaveKeepsInv(s: Session, i: nat)
    requires Inv(s) && Enabled(s, DeliverSave(i))
    ensures Inv(Next(s, DeliverSave(i)))
  {
    var x := s.inbox[i];
    assert x in s.inbox && Without(s.inbox, i) == [];
    if s.panicked || s.model.terminalError.Some? {
      LateSaveKeepsInv(s, i);
    } else {
      HandledSaveKeepsInv(s, i);
    }
  }

  lemma LateSaveKeepsInv(s: Session, i: nat)
    requires Inv(s) && Enabled(s, DeliverSave(i)) && (s.panicked || s.model.terminalError.Some?)
    requires Without(s.inbox, i) == []
    ensures Inv(Next(s, DeliverSave(i)))
  {
    hide Uncertain, SaveEnded;
  }

  /** What handling a completion does, by what the transaction reported. */
  predicate Handles(m: Model, x: SaveMessage, m': Model, command: Command) {
    if x.saved.Commits() then
      && m' == m.(saveCancel := false, outcome := Outcome(x.draft, x.saved.path, true, false)) && command == Quit
    else if !x.saved.Ordinary() then
      m' == m.(saveCancel := false, terminalError := x.saved.error) && command == Quit
    else
      && !Busy(m') && ReturnsIdle(m') && m'.terminalError == m.terminalError && !command.Save?
      && (m'.outcome == m.outcome || (m'.outcome.cancelled && !m'.outcome.create))
      && (command.Quit? ==> m'.outcome.cancelled)
  }

  lemma SaveEndedHandles(m: Model, t: Tracker, x: SaveMessage)
    requires Busy(m)
    ensures var (m', t', command) := SaveEnded(m, t, x); Handles(m, x, m', command) && t' == Acknowledged(t, x)
  {
    hide Uncertain, Is;
  }

  lemma HandledSaveKeepsInv(s: Session, i: nat)
    requires Inv(s) && Enabled(s, DeliverSave(i)) && !s.panicked && s.model.terminalError.None?
    requires Without(s.inbox, i) == [] && s.inbox[i] in s.inbox
    ensures Inv(Next(s, DeliverSave(i)))
  {
    var x := s.inbox[i];
    assert Genuine(s.tracker, x) && Busy(s.model) && s.commands == [] && !LastRuns(s.tracker);
    assert !Uncertain(Canceled);
    SaveEndedHandles(s.model, s.tracker, x);
    var (m', t', command) := SaveEnded(s.model, s.tracker, x);
    var s' := s.(inbox := [], model := m', tracker := t', quit := s.quit || command.Quit?);
    assert Next(s, DeliverSave(i)) == s';
    HandlingKeepsInv(s, x, m', command);
  }

  lemma HandlingKeepsInv(s: Session, x: SaveMessage, m': Model, command: Command)
    requires Inv(s) && s.stage.Running? && !s.panicked && s.model.terminalError.None?
    requires s.inbox == [x] && s.commands == [] && !LastRuns(s.tracker) && Genuine(s.tracker, x) && !Uncertain(Canceled)
    requires Handles(s.model, x, m', command)
    ensures Inv(s.(inbox := [], model := m', tracker := Acknowledged(s.tracker, x), quit := s.quit || command.Quit?))
  {
    hide Uncertain;
  }

  lemma ExecuteKeepsInv(s: Session, i: nat)
    requires Inv(s) && Enabled(s, Execute(i))
    ensures Inv(Next(s, Execute(i)))
  {
    assert Without(s.commands, i) == [] && s.inbox == [] && !LastRuns(s.tracker) && Clear(s.tracker);
    if s.tracker.closed {
      RefusalKeepsInv(s, i);
    } else {
      AdmissionKeepsInv(s, i);
    }
  }

  lemma RefusalKeepsInv(s: Session, i: nat)
    requires Inv(s) && Enabled(s, Execute(i)) && s.tracker.closed
    requires Without(s.commands, i) == [] && s.inbox == [] && Clear(s.tracker)
    ensures Inv(Next(s, Execute(i)))
  {
    hide Uncertain, PastClear, Tracked, Clear, Commits;
  }

  lemma AdmissionKeepsInv(s: Session, i: nat)
    requires Inv(s) && Enabled(s, Execute(i)) && !s.tracker.closed
    requires Without(s.commands, i) == [] && s.inbox == [] && Clear(s.tracker)
    ensures Inv(Next(s, Execute(i)))
  {
    hide Uncertain, Truth;
  }

  lemma CompleteKeepsInv(s: Session, k: nat, ending: Ending)
    requires Inv(s) && Enabled(s, Complete(k, ending))
    ensures Inv(Next(s, Complete(k, ending)))
  {
    assert k == |s.tracker.attempts| - 1 && !s.stage.Finished?;
    hide Truth;
  }

  lemma ClosingKeepsInv(s: Session)
    requires Inv(s) && !s.stage.Finished?
    ensures Inv(s.(tracker := Stopped(s.tracker)))
  {
    hide Uncertain, Truth;
  }

  /** A panic, a signal or the watcher: nothing the save callbacks did changes. */
  lemma StopKeepsInv(s: Session, e: Event)
    requires Inv(s) && Enabled(s, e) && (e.CallbackPanics? || e.Interrupt? || e.WatcherSeesPanic?)
    ensures Inv(Next(s, e))
  {
    ClosingKeepsInv(s);
    hide Uncertain, Truth, Commits, Clear, LastRuns, PastClear, Tracked, Genuine, Settled, Executing, ReturnsIdle, Busy;
  }

  lemma TerminalKeepsInv(s: Session, e: Event)
    requires Inv(s) && Enabled(s, e) && (e.TerminalEnds? || e.CloseGate?)
    ensures Inv(Next(s, e))
  {
    ClosingKeepsInv(s);
    hide Uncertain, Truth, Commits, Clear, LastRuns, PastClear, Tracked, Genuine, Settled, Executing, ReturnsIdle, Busy;
  }

  lemma DecisionIsTrue(s: Session)
    requires Inv(s) && Enabled(s, Settle)
    ensures StageSane(Next(s, Settle))
  {
    hide FlightSane, PastClear, ReturnsIdle, Busy;
  }

  lemma SettleKeepsInv(s: Session)
    requires Inv(s) && Enabled(s, Settle)
    ensures Inv(Next(s, Settle))
  {
    DecisionIsTrue(s);
    hide Decided, StageSane, Genuine, Uncertain, Commits, Clear, LastRuns, PastClear, Tracked;
  }

  lemma NextKeepsInv(s: Session, e: Event)
    requires Inv(s) && Enabled(s, e)
    ensures Inv(Next(s, e))
  {
    match e
    case Deliver(message, a) => DeliverKeepsInv(s, message, a);
    case DeliverSave(i) => SaveKeepsInv(s, i);
    case Execute(i) => ExecuteKeepsInv(s, i);
    case Complete(k, ending) => CompleteKeepsInv(s, k, ending);
    case Settle => SettleKeepsInv(s);
    case TerminalEnds(_) => TerminalKeepsInv(s, e);
    case CloseGate => TerminalKeepsInv(s, e);
    case _ => StopKeepsInv(s, e);
  }
}
