/**
 The builder's screens (internal/builder/model.go, mutation.go, creation.go): a
 value whose `Update` returns the next value and a command. What callbacks,
 editors and the terminal contribute to one update is a parameter.
 */
module BuilderModel {
  import opened Options
  import opened SaveRuntime

  datatype Key =
    | UpKey | DownKey | LeftKey | RightKey | SpaceKey | EnterKey | EscKey | BackspaceKey
    | PageUpKey | PageDownKey | HomeKey | EndKey | CtrlC | CtrlD | Letter(text: string)

  datatype Screen =
    | Overview | Creation | Category | Confirm | Loading | LoadFailure
    | Saving | CancellingSave | SaveFailure | Discard | MutationPreview | Reload

  datatype LoadState = Unloaded | InFlight | Loaded | LoadFailed

  /** A prepared mutation: whether it carries a commit, and whether it must be acknowledged. */
  datatype Prepared = Prepared(saves: bool, warning: bool)

  /** The zero value an abandoned preview leaves behind. */
  const UNPREPARED := Prepared(false, false)

  /** The options of a mutation builder; an empty confirmation asks for none. */
  datatype Mutation = Mutation(compact: bool, confirmation: string, reloads: bool)

  /** The editors and cursors of the overview and creation screens. */
  datatype Menu = Menu(loads: seq<LoadState>, activeCategory: nat, overviewCursor: nat, creationCursor: nat,
      confirmFailed: bool, tooSmall: bool)

  datatype Preview = Preview(prepared: Prepared, draft: Draft, offset: int, acknowledged: bool, typed: string)

  datatype Model = Model(
    draft: Draft,
    initialDraft: Draft,
    initialValid: bool,
    menu: Menu,
    mutation: Option<Mutation>,
    preview: Preview,
    saver: bool,
    saveCancel: bool,
    saveError: Option<Err>,
    screen: Screen,
    returnScreen: Screen,
    outcome: Outcome,
    terminalError: Option<Err>)

  datatype Message =
    | PanicSeen
    | Discovered(category: nat, ok: bool)
    | SaveCompleted(message: SaveMessage)
    | Resized(tooSmall: bool)
    | KeyPressed(key: Key)

  /**
   What the outside answers during one update: drafts from editors and reloads,
   failures of clones, presets, preparations and reloads, the rendered preview, and
   whether any callback panics.
   */
  datatype Answers = Answers(
    panics: bool,
    draft: Draft,
    cloneFails: bool,
    selected: bool,
    failedCategories: bool,
    listFocused: bool,
    presetFails: bool,
    prepare: Option<bool>,
    reloadFails: bool,
    failure: Err,
    text: string,
    lines: nat,
    height: nat)

  datatype Command = NoCommand | Quit | Discover | Save(draft: Draft)

  datatype Step = Step(model: Model, tracker: Tracker, panicked: bool, command: Command)

  predicate Busy(m: Model) { m.screen.Saving? || m.screen.CancellingSave? }

  predicate Opens(k: Key) { k.SpaceKey? || k.EnterKey? || k.RightKey? }
  predicate Back(k: Key) { k.LeftKey? || k.EscKey? }
  predicate Accepts(k: Key) { k == Letter("y") || k.EnterKey? }
  predicate Declines(k: Key) { k == Letter("n") || k.EscKey? || k.LeftKey? }
  predicate Retries(k: Key) { k == Letter("r") || k.EnterKey? || k.SpaceKey? }
  predicate Interrupts(k: Key) { k.CtrlC? || k.CtrlD? }

  function CallbackPanic(m: Model, t: Tracker, panicked: bool): Step {
    Step(m.(outcome := NO_OUTCOME, terminalError := Some(ProgramPanic)), if panicked then t else Stopped(t), true, Quit)
  }

  function BeginCancellation(m: Model): (Model, Command) {
    if m.initialValid && m.draft == m.initialDraft
    then (m.(outcome := Outcome(m.draft, "", false, true)), Quit)
    else (m.(returnScreen := m.screen, screen := Discard), NoCommand)
  }

  function StartSave(m: Model, a: Answers): (Model, Command) {
    if !m.saver then (m.(outcome := Outcome(m.draft, "", true, false)), Quit)
    else if a.cloneFails then (Failed(m, a.failure), NoCommand)
    else (m.(saveError := None, screen := Saving, saveCancel := true), Save(m.draft))
  }

  /** None when preparation fails; nothing is then changed but what the caller reports. */
  function PrepareMutation(m: Model, a: Answers): Option<Model> {
    if a.cloneFails || a.prepare.None? then None
    else Some(m.(preview := Preview(Prepared(true, a.prepare.value), m.draft, 0, false, ""), screen := MutationPreview))
  }

  function Failed(m: Model, e: Err): Model { m.(saveError := Some(e), screen := SaveFailure) }

  function Prepares(m: Model, a: Answers): (Model, Command) {
    match PrepareMutation(m, a)
    case None => (Failed(m, a.failure), NoCommand)
    case Some(prepared) => (prepared, NoCommand)
  }

  function UpdateOverview(m: Model, k: Key, a: Answers): (Model, Command) {
    var n, at := |m.menu.loads|, m.menu.overviewCursor;
    if k.UpKey? then (m.(menu := m.menu.(overviewCursor := if at > 0 then at - 1 else 0)), NoCommand)
    else if k.DownKey? then (m.(menu := m.menu.(overviewCursor := if at < n + 1 then at + 1 else at)), NoCommand)
    else if Opens(k) then
      if at == n then
        if m.mutation.Some? then Prepares(m, a)
        else if a.failedCategories then (m.(menu := m.menu.(confirmFailed := true), screen := Confirm), NoCommand)
        else if !a.selected then (m.(screen := Confirm), NoCommand)
        else StartSave(m, a)
      else if at == n + 1 then BeginCancellation(m)
      else OpenCategory(m)
    else if k.EscKey? then BeginCancellation(m)
    else (m, NoCommand)
  }

  function OpenCategory(m: Model): (Model, Command) {
    var i := m.menu.overviewCursor;
    if i >= |m.menu.loads| then (m, NoCommand)
    else
      match m.menu.loads[i]
      case InFlight => (m.(menu := m.menu.(activeCategory := i)), NoCommand)
      case Loaded => (m.(menu := m.menu.(activeCategory := i), screen := Category), NoCommand)
      case _ => Reloading(m.(menu := m.menu.(activeCategory := i)))
  }

  function Reloading(m: Model): (Model, Command) {
    var i := m.menu.activeCategory;
    (m.(menu := if i < |m.menu.loads| then m.menu.(loads := m.menu.loads[i := InFlight])
      else m.menu, screen := Loading), Discover)
  }

  function UpdateEditor(m: Model, k: Key, a: Answers): (Model, Command) {
    if m.mutation.Some? && a.listFocused && k == Letter("r") then Reloading(m)
    else if a.listFocused && Back(k) then (m.(draft := a.draft, screen := Overview), NoCommand)
    else (m.(draft := a.draft), NoCommand)
  }

  function UpdateConfirmation(m: Model, k: Key, a: Answers): (Model, Command) {
    var m' := m.(menu := m.menu.(confirmFailed := false));
    if Accepts(k) then
      if m.menu.confirmFailed && !a.selected then (m', NoCommand) else StartSave(m', a)
    else if Declines(k) then (m.(screen := Overview), NoCommand)
    else (m, NoCommand)
  }

  function UpdateLoadFailure(m: Model, k: Key): (Model, Command) {
    if k == Letter("e") then (m.(screen := Category), NoCommand)
    else if Retries(k) then Reloading(m)
    else if Back(k) then (m.(screen := Overview), NoCommand)
    else (m, NoCommand)
  }

  function UpdateSaveFailure(m: Model, k: Key, a: Answers): (Model, Command) {
    if m.mutation.Some? then MutationSaveFailure(m, k, a)
    else if Retries(k) then StartSave(m, a)
    else if k.EscKey? then BeginCancellation(m)
    else (m, NoCommand)
  }

  /** A conflict may not be retried, only reloaded or abandoned. */
  function MutationSaveFailure(m: Model, k: Key, a: Answers): (Model, Command)
    requires m.mutation.Some?
  {
    if k.EscKey? then BeginCancellation(m)
    else if k == Letter("l") && m.mutation.value.reloads then (m.(screen := Reload), NoCommand)
    else if !(m.saveError.Some? && Is(m.saveError.value, Conflict)) && (k == Letter("r") || k.EnterKey?) then
      Prepares(m, a)
    else (m, NoCommand)
  }

  function UpdateDiscard(m: Model, k: Key): (Model, Command) {
    if Accepts(k) then (m.(outcome := Outcome(m.draft, "", false, true)), Quit)
    else if Declines(k) then (m.(screen := m.returnScreen), NoCommand)
    else (m, NoCommand)
  }

  function Max(a: int, b: int): int { if a < b then b else a }
  function Min(a: int, b: int): int { if a < b then a else b }

  /** The whole prepared text has been paged to. */
  predicate Read(m: Model, a: Answers) { m.preview.offset + a.height >= a.lines }

  predicate Scrolls(k: Key) { k.UpKey? || k.DownKey? || k.PageDownKey? || k.PageUpKey? || k.EndKey? || k.HomeKey? }

  function ScrollTo(at: int, k: Key, a: Answers): int {
    var last := a.lines - a.height;
    match k
    case UpKey => if at > 0 then at - 1 else at
    case DownKey => if at < last then at + 1 else at
    case PageDownKey => Min(at + a.height, Max(0, last))
    case PageUpKey => Max(0, at - a.height)
    case EndKey => Max(0, last)
    case _ => 0
  }

  function Scrolled(m: Model, offset: int): Model { m.(preview := m.preview.(offset := offset)) }

  function UpdateMutationPreview(m: Model, k: Key, a: Answers): (Model, Command)
    requires m.mutation.Some?
  {
    if Scrolls(k) then (Scrolled(m, ScrollTo(m.preview.offset, k, a)), NoCommand)
    else if k.EscKey? || k.LeftKey? then AbandonPreview(m)
    else if !Read(m, a) then (m, NoCommand)
    else if m.preview.prepared.warning && !m.preview.acknowledged then
      (if k == Letter("a") then m.(preview := m.preview.(acknowledged := true)) else m, NoCommand)
    else if m.mutation.value.confirmation != "" then TypeConfirmation(m, k, a)
    else if k == Letter("y") || k.EnterKey? then CommitPrepared(m, a)
    else (m, NoCommand)
  }

  /** In a compact builder the preview is the first screen, so leaving it cancels; the preview is already cleared. */
  function AbandonPreview(m: Model): (Model, Command)
    requires m.mutation.Some?
  {
    var m' := m.(preview := m.preview.(prepared := UNPREPARED));
    if m.mutation.value.compact then BeginCancellation(m') else (m'.(screen := Overview), NoCommand)
  }

  predicate Control(c: char) { c < ' ' || '\U{7f}' <= c < '\U{a0}' }

  predicate Printable(s: string) { forall c | c in s :: !Control(c) }

  function Typed(m: Model, typed: string): Model { m.(preview := m.preview.(typed := typed)) }

  function TypeConfirmation(m: Model, k: Key, a: Answers): (Model, Command)
    requires m.mutation.Some?
  {
    var typed := m.preview.typed;
    if k.BackspaceKey? then (if typed == "" then m else Typed(m, typed[..|typed| - 1]), NoCommand)
    else if k.EnterKey? then
      if typed != m.mutation.value.confirmation then (Typed(m, ""), NoCommand) else CommitPrepared(m, a)
    else (if |typed| + |a.text| <= 64 && Printable(a.text) then Typed(m, typed + a.text) else m, NoCommand)
  }

  /** The prepared closure becomes the saver, whatever it is. */
  function CommitPrepared(m: Model, a: Answers): (Model, Command) {
    StartSave(m.(saver := m.preview.prepared.saves, draft := m.preview.draft), a)
  }

  function Reloaded(m: Model, a: Answers): Model {
    m.(draft := a.draft, initialDraft := a.draft, initialValid := !a.cloneFails,
       menu := m.menu.(loads := seq(|m.menu.loads|, _ => Unloaded)),
       saveError := None, screen := Overview, preview := m.preview.(prepared := UNPREPARED))
  }

  function UpdateReload(m: Model, k: Key, a: Answers): (Model, Command)
    requires m.mutation.Some?
  {
    if k == Letter("n") || k.EscKey? then (m.(screen := SaveFailure), NoCommand)
    else if k == Letter("y") then
      if a.reloadFails then (Failed(m, a.failure), NoCommand)
      else if m.mutation.value.compact then Prepares(Reloaded(m, a), a)
      else (Reloaded(m, a), NoCommand)
    else (m, NoCommand)
  }

  function UpdateCreation(m: Model, k: Key, a: Answers): (Model, Command) {
    var at := m.menu.creationCursor;
    if m.menu.tooSmall && !Interrupts(k) && !k.EscKey? then (m, NoCommand)
    else if Interrupts(k) || k.EscKey? then (m.(outcome := m.outcome.(cancelled := true)), Quit)
    else if k.UpKey? then (m.(menu := m.menu.(creationCursor := if at > 0 then at - 1 else 0)), NoCommand)
    else if k.DownKey? then (m.(menu := m.menu.(creationCursor := if at < 4 then at + 1 else at)), NoCommand)
    else if (k.SpaceKey? || k.EnterKey?) && at == 4 then
      if a.presetFails then (m.(draft := a.draft, terminalError := Some(a.failure)), Quit)
      else (m.(draft := a.draft, initialDraft := a.draft, saver := true, screen := Overview), NoCommand)
    else (m, NoCommand)
  }

  function CompleteDiscovery(m: Model, category: nat, completed: Screen): Model {
    if category != m.menu.activeCategory then m
    else if m.screen.Loading? then m.(screen := completed)
    else if m.screen.Discard? && m.returnScreen.Loading? then m.(returnScreen := completed)
    else m
  }

  function DiscoveryCompleted(m: Model, category: nat, ok: bool): Model {
    if category >= |m.menu.loads| || !m.menu.loads[category].InFlight? then m
    else CompleteDiscovery(m.(menu := m.menu.(loads := m.menu.loads[category := if ok then Loaded else LoadFailed])),
                           category, if ok then Category else LoadFailure)
  }

  /** The transaction's own outcome decides; only an ordinary failure lets the user go on. */
  function SaveEnded(m: Model, t: Tracker, message: SaveMessage): (Model, Tracker, Command) {
    if !Busy(m) then (m, t, NoCommand)
    else
      var m' := m.(saveCancel := false);
      var err := message.saved.error;
      if err.Some? && Uncertain(err.value) then (m'.(terminalError := err), t, Quit)
      else
        var t' := Acknowledged(t, message);
        if m.screen.CancellingSave? && err.Some? && Is(err.value, Canceled) then
          var (m'', command) := BeginCancellation(m'.(screen := Overview));
          (m'', t', command)
        else if err.Some? then (Failed(m', err.value), t', NoCommand)
        else (m'.(outcome := Outcome(message.draft, message.saved.path, true, false)), t', Quit)
  }

  function UpdateKey(m: Model, t: Tracker, panicked: bool, k: Key, a: Answers): Step {
    if Interrupts(k) && m.screen.Saving? then
      // The cancel function is nil once the completion has been handled; calling it panics.
      if m.saveCancel then Step(m.(screen := CancellingSave), t, panicked, NoCommand) else CallbackPanic(m, t, panicked)
    else if (m.screen.MutationPreview? || m.screen.Reload?) && m.mutation.None? && !Interrupts(k)
        && !m.menu.tooSmall then
      // There are no options to consult.
      CallbackPanic(m, t, panicked)
    else
      var (m', command) :=
        if Interrupts(k) && !m.screen.CancellingSave? && !m.screen.Discard? then BeginCancellation(m)
        else if m.menu.tooSmall then (m, NoCommand)
        else
          match m.screen
          case Overview => UpdateOverview(m, k, a)
          case Category => UpdateEditor(m, k, a)
          case Confirm => UpdateConfirmation(m, k, a)
          case LoadFailure => UpdateLoadFailure(m, k)
          case SaveFailure => UpdateSaveFailure(m, k, a)
          case Discard => UpdateDiscard(m, k)
          case MutationPreview => UpdateMutationPreview(m, k, a)
          case Reload => UpdateReload(m, k, a)
          case _ => (m, NoCommand);
      Step(m', t, panicked, command)
  }

  /** A panic of any callback discards what the update had done to the model. */
  function Update(m: Model, t: Tracker, panicked: bool, message: Message, a: Answers): Step {
    if panicked || message.PanicSeen? then CallbackPanic(m, t, panicked)
    else if m.terminalError.Some? then Step(m, t, panicked, Quit)
    else if a.panics && (message.KeyPressed? || message.Discovered?) then CallbackPanic(m, t, panicked)
    else if m.screen.Creation? && message.KeyPressed? then
      var (m', command) := UpdateCreation(m, message.key, a);
      Step(m', t, panicked, command)
    else
      match message
      case Discovered(category, ok) => Step(DiscoveryCompleted(m, category, ok), t, panicked, NoCommand)
      case SaveCompleted(x) =>
        var (m', t', command) := SaveEnded(m, t, x);
        Step(m', t', panicked, command)
      case Resized(small) => Step(m.(menu := m.menu.(tooSmall := small)), t, panicked, NoCommand)
      case KeyPressed(k) => UpdateKey(m, t, panicked, k, a)
  }
}
