/**
 What a builder session guarantees over every interleaving of keys, messages,
 signals, panics and callbacks that end without an outcome.
 */
module BuilderTheorems {
  import opened Options
  import opened SaveRuntime
  import opened BuilderModel
  import opened BuilderRun

  lemma {:induction false} RunsKeepInv(ss: seq<Session>, es: seq<Event>, i: nat)
    requires Run(ss, es) && i < |ss|
    ensures Inv(ss[i])
  {
    hide Inv, Next;
    if i == 0 {
      InitHasInv(ss[0]);
    } else {
      RunsKeepInv(ss, es, i - 1);
      assert Taken(ss[i - 1], es[i - 1], ss[i]);
      NextKeepsInv(ss[i - 1], es[i - 1]);
    }
  }

  lemma InitHasInv(s: Session)
    requires Init(s)
    ensures Inv(s)
  {
  }

  /**
   The outcome tells the truth about every save callback of the session. All have
   ended. One that committed is the last, and the result carries its draft and
   path, with no error or one that says committed. One that ended unknown, or needs
   recovery, makes the result an error with no outcome. A cancellation without
   error means every callback failed in the ordinary way. No error at all means a
   decision was made.
   */
  lemma OutcomesAreTrue(ss: seq<Session>, es: seq<Event>, i: nat)
    requires Run(ss, es) && i < |ss| && ss[i].stage.Finished?
    ensures var (outcome, error, attempts) := (ss[i].stage.outcome, ss[i].stage.error, ss[i].tracker.attempts);
      && (forall k | 0 <= k < |attempts| :: attempts[k].result.Some?)
      && (forall k | 0 <= k < |attempts| && attempts[k].result.value.Commits() ::
            && k == |attempts| - 1
            && outcome == Outcome(attempts[k].draft, attempts[k].result.value.path, true, false)
            && (error.Some? ==>
                 error.value.Transaction? && error.value.state == Committed && !CancellationOnly(error.value)))
      && (forall k | 0 <= k < |attempts| && !attempts[k].result.value.Commits()
           && Uncertain(attempts[k].result.value.error.value) ::
            error.Some? && outcome == NO_OUTCOME)
      && (error.None? && outcome.cancelled ==> forall k | 0 <= k < |attempts| :: attempts[k].result.value.Ordinary())
      && (error.None? ==> outcome.create || outcome.cancelled)
  {
    RunsKeepInv(ss, es, i);
    hide Uncertain, CancellationOnly;
  }

  /** How one event may change the attempts. */
  predicate AttemptStep(s: Session, s': Session) {
    var (xs, ys) := (s.tracker.attempts, s'.tracker.attempts);
    || ys == xs
    || (Clear(s.tracker) && !s.stage.Finished? && |ys| == |xs| + 1 && ys[..|xs|] == xs)
    || (LastRuns(s.tracker) && !s.stage.Finished? && |ys| == |xs| && ys[..|xs| - 1] == xs[..|xs| - 1])
  }

  lemma UpdateKeepsAttempts(s: Session, message: Message, a: Answers)
    requires Inv(s)
    ensures Updated(s, message, a).tracker.attempts == s.tracker.attempts
  {
    if !message.SaveCompleted? {
      UpdateEffect(s.model, s.tracker, s.panicked, message, a);
      hide Update, Moves;
    } else {
      hide BeginCancellation, Uncertain, Is;
    }
  }

  lemma NextAttemptStep(s: Session, e: Event)
    requires Inv(s) && Enabled(s, e)
    ensures AttemptStep(s, Next(s, e))
  {
    match e
    case Deliver(message, a) => UpdateKeepsAttempts(s, message, a);
    case DeliverSave(i) =>
      SameAttempts(s, i);
    case _ => hide Update, Updated, Uncertain;
  }

  lemma SameAttempts(s: Session, i: nat)
    requires Inv(s) && Enabled(s, DeliverSave(i))
    ensures Next(s, DeliverSave(i)).tracker.attempts == s.tracker.attempts
  {
    hide BeginCancellation, Uncertain, Is, Inv;
  }

  /** A callback that committed, or ended unknown, is the last one ever started, and its result stands. */
  lemma {:induction false} NoSaveAfterAnOutcome(ss: seq<Session>, es: seq<Event>, i: nat, j: nat, k: nat)
    requires Run(ss, es) && i <= j < |ss|
    requires k < |ss[i].tracker.attempts| && ss[i].tracker.attempts[k].result.Some?
        && !ss[i].tracker.attempts[k].result.value.Ordinary()
    ensures k == |ss[i].tracker.attempts| - 1 && ss[j].tracker.attempts == ss[i].tracker.attempts
    decreases j
  {
    hide Next;
    RunsKeepInv(ss, es, i);
    if i < j {
      NoSaveAfterAnOutcome(ss, es, i, j - 1, k);
      RunsKeepInv(ss, es, j - 1);
      assert Taken(ss[j - 1], es[j - 1], ss[j]);
      NextAttemptStep(ss[j - 1], es[j - 1]);
    }
  }

  /** Once the session has returned, no callback starts and no result changes. */
  lemma {:induction false} NothingAfterReturn(ss: seq<Session>, es: seq<Event>, i: nat, j: nat)
    requires Run(ss, es) && i <= j < |ss| && ss[i].stage.Finished?
    ensures ss[j].stage == ss[i].stage && ss[j].tracker.attempts == ss[i].tracker.attempts
    decreases j
  {
    hide Inv, Next, Enabled, Init;
    if i < j {
      NothingAfterReturn(ss, es, i, j - 1);
      RunsKeepInv(ss, es, j - 1);
      assert Taken(ss[j - 1], es[j - 1], ss[j]);
      FinishedStays(ss[j - 1], es[j - 1]);
    }
  }

  lemma FinishedStays(s: Session, e: Event)
    requires Inv(s) && Enabled(s, e) && s.stage.Finished?
    ensures Next(s, e).stage == s.stage && Next(s, e).tracker.attempts == s.tracker.attempts
  {
    NextAttemptStep(s, e);
    hide Updated, Decided, Truth;
  }

  /** At most one callback runs, and while one is in flight Ctrl+C always finds a cancel function. */
  lemma OneSaveAtATime(ss: seq<Session>, es: seq<Event>, i: nat)
    requires Run(ss, es) && i < |ss|
    ensures Flying(ss[i]) <= 1
    ensures forall k | 0 <= k < |ss[i].tracker.attempts| - 1 :: ss[i].tracker.attempts[k].result.Some?
    ensures Flying(ss[i]) == 1 && ss[i].model.terminalError.None? ==> ss[i].model.saveCancel && Busy(ss[i].model)
  {
    RunsKeepInv(ss, es, i);
  }

  /** The terminal is told to stop: a signal, or a panic that was seen. */
  predicate Stops(e: Event) { e.Interrupt? || e.WatcherSeesPanic? || e.CallbackPanics? || e.CloseGate? }

  lemma ClosedStaysClosed(s: Session, e: Event)
    requires Inv(s) && Enabled(s, e) && s.tracker.closed
    ensures Next(s, e).tracker.closed && |Next(s, e).tracker.attempts| == |s.tracker.attempts|
  {
    if e.Deliver? { UpdateKeepsAttempts(s, e.message, e.answers); }
    if e.DeliverSave? { SameAttempts(s, e.i); }
    hide Inv, BeginCancellation, Uncertain, Is;
    hide UpdateKey, UpdateCreation, DiscoveryCompleted;
  }

  predicate PanicClosed(s: Session) { s.panicked ==> s.tracker.closed }

  lemma NextPanicClosed(s: Session, e: Event)
    requires Inv(s) && Enabled(s, e) && PanicClosed(s)
    ensures PanicClosed(Next(s, e))
  {
    if s.tracker.closed { ClosedStaysClosed(s, e); }
    hide Inv, BeginCancellation, UpdateKey, UpdateCreation, DiscoveryCompleted, SaveEnded;
    if e.Deliver? { PanicsClose(s.model, s.tracker, s.panicked, e.message, e.answers); }
    if e.DeliverSave? { PanicsClose(s.model, s.tracker, s.panicked, SaveCompleted(s.inbox[e.i]), UNASKED); }
    hide Update;
  }

  lemma PanicsClose(m: Model, t: Tracker, panicked: bool, message: Message, a: Answers)
    ensures Update(m, t, panicked, message, a).panicked && !panicked ==>
        Update(m, t, panicked, message, a).tracker.closed
  {
    hide BeginCancellation, UpdateCreation, DiscoveryCompleted, SaveEnded, UpdateOverview, UpdateSaveFailure;
    hide UpdateEditor, UpdateLoadFailure, UpdateConfirmation, UpdateDiscard, UpdateMutationPreview, UpdateReload;
  }

  lemma {:induction false} PanickedIsClosed(ss: seq<Session>, es: seq<Event>, i: nat)
    requires Run(ss, es) && i < |ss|
    ensures PanicClosed(ss[i])
  {
    hide Inv, Next, Enabled;
    if i > 0 {
      PanickedIsClosed(ss, es, i - 1);
      RunsKeepInv(ss, es, i - 1);
      assert Taken(ss[i - 1], es[i - 1], ss[i]);
      NextPanicClosed(ss[i - 1], es[i - 1]);
    }
  }

  lemma StoppingCloses(s: Session, e: Event)
    requires PanicClosed(s) && Enabled(s, e) && Stops(e)
    ensures Next(s, e).tracker.closed && |Next(s, e).tracker.attempts| == |s.tracker.attempts|
  {
  }

  /**
   After a signal, a panic or the shutdown of the terminal no callback starts, whatever
   keys and commands were under way.
   */
  lemma {:induction false} NoSaveAfterAStop(ss: seq<Session>, es: seq<Event>, i: nat, j: nat)
    requires Run(ss, es) && i < j < |ss| && Stops(es[i])
    ensures ss[j].tracker.closed && |ss[j].tracker.attempts| == |ss[i].tracker.attempts|
    decreases j
  {
    hide Inv, Next, Enabled;
    RunsKeepInv(ss, es, j - 1);
    assert Taken(ss[j - 1], es[j - 1], ss[j]);
    if j == i + 1 {
      PanickedIsClosed(ss, es, i);
      StoppingCloses(ss[i], es[i]);
    } else {
      NoSaveAfterAStop(ss, es, i, j - 1);
      ClosedStaysClosed(ss[j - 1], es[j - 1]);
    }
  }
}
