/**
 One save transaction at a time, and how the builder's run settles it
 (internal/builder/save_runtime.go, panic_runtime.go, and model.go:550-596).
 */
module SaveRuntime {
  import opened Options

  type Draft = string
  type Path = string

  /** How far the repository's transaction got. */
  datatype CommitState = NotCommitted | Committed | Unknown

  /** Go errors, as far as `errors.Is`, `errors.As` and `Unwrap` can see. */
  datatype Err =
    | Canceled
    | DeadlineExceeded
    | ProgramPanic
    | Conflict
    | Plain(text: string)
    | Wrapped(inner: Err)
    | Transaction(state: CommitState, recoveryRequired: bool, cause: Err)
    | Joined(children: seq<Err>)

  /** `errors.As` for a transaction error: the first one in depth-first order. */
  function FirstTransaction(e: Err): Option<Err>
    decreases e, 0
  {
    match e
    case Transaction(_, _, _) => Some(e)
    case Wrapped(inner) => FirstTransaction(inner)
    case Joined(children) => FirstAmong(children)
    case _ => None
  }

  function FirstAmong(es: seq<Err>): Option<Err>
    decreases es, 1
  {
    if es == [] then None
    else
      match FirstTransaction(es[0])
      case Some(t) => Some(t)
      case None => FirstAmong(es[1..])
  }

  /** `errors.Is` for one of the leaf errors. */
  predicate Is(e: Err, target: Err)
    decreases e
  {
    e == target ||
    match e
    case Wrapped(inner) => Is(inner, target)
    case Transaction(_, _, cause) => Is(cause, target)
    case Joined(children) => exists i | 0 <= i < |children| :: Is(children[i], target)
    case _ => false
  }

  /** The transaction may have published, or needs recovery: neither retry nor cancellation is safe. */
  predicate Uncertain(e: Err) {
    var t := FirstTransaction(e);
    t.Some? && t.value.Transaction? && (t.value.state != NotCommitted || t.value.recoveryRequired)
  }

  /** Every branch of the error is a cancellation, and there is at least one. */
  predicate CancellationOnly(e: Err)
    decreases e
  {
    match e
    case Canceled => true
    case DeadlineExceeded => true
    case Wrapped(inner) => CancellationOnly(inner)
    case Transaction(_, _, cause) => CancellationOnly(cause)
    case Joined(children) => children != [] && forall i | 0 <= i < |children| :: CancellationOnly(children[i])
    case _ => false
  }

  /** A cancellation-only error carries no infrastructure error in any branch. */
  lemma {:induction false} CancellationHidesNothing(e: Err, text: string)
    requires CancellationOnly(e)
    ensures !Is(e, Plain(text)) && !Is(e, ProgramPanic) && !Is(e, Conflict)
    decreases e
  {
    match e
    case Wrapped(inner) => CancellationHidesNothing(inner, text);
    case Transaction(_, _, cause) => CancellationHidesNothing(cause, text);
    case Joined(children) =>
      forall i | 0 <= i < |children| ensures !Is(children[i], Plain(text)) && !Is(children[i], ProgramPanic)
          && !Is(children[i], Conflict)
      {
        CancellationHidesNothing(children[i], text);
      }
    case _ =>
  }

  /** The errors at the ends of every branch, in order; a join of nothing is one. */
  function Leaves(e: Err): seq<Err>
    decreases e, 0
  {
    match e
    case Wrapped(inner) => Leaves(inner)
    case Transaction(_, _, cause) => Leaves(cause)
    case Joined(children) => if children == [] then [e] else LeavesOf(children)
    case _ => [e]
  }

  function LeavesOf(es: seq<Err>): seq<Err>
    decreases es, 1
  {
    if es == [] then [] else Leaves(es[0]) + LeavesOf(es[1..])
  }

  /** The transactions that no other one encloses, in order. */
  function Transactions(e: Err): seq<Err>
    decreases e, 0
  {
    match e
    case Transaction(_, _, _) => [e]
    case Wrapped(inner) => Transactions(inner)
    case Joined(children) => TransactionsOf(children)
    case _ => []
  }

  function TransactionsOf(es: seq<Err>): seq<Err>
    decreases es, 1
  {
    if es == [] then [] else Transactions(es[0]) + TransactionsOf(es[1..])
  }

  /** An error is a cancellation only when every branch ends in one. */
  lemma {:induction false} CancellationOnlyExactly(e: Err)
    ensures CancellationOnly(e) <==> forall l | l in Leaves(e) :: l.Canceled? || l.DeadlineExceeded?
    decreases e, 0
  {
    match e
    case Wrapped(inner) => CancellationOnlyExactly(inner);
    case Transaction(_, _, cause) => CancellationOnlyExactly(cause);
    case Joined(children) => if children != [] { AllCancellations(children); } else { assert e in Leaves(e); }
    case _ => assert e in Leaves(e);
  }

  lemma {:induction false} AllCancellations(es: seq<Err>)
    ensures (forall i | 0 <= i < |es| :: CancellationOnly(es[i])) <==>
              forall l | l in LeavesOf(es) :: l.Canceled? || l.DeadlineExceeded?
    decreases es, 1
  {
    if es != [] {
      CancellationOnlyExactly(es[0]);
      AllCancellations(es[1..]);
      assert es == [es[0]] + es[1..];
      assert forall i | 0 <= i < |es| :: CancellationOnly(es[i]) <==> CancellationOnly(([es[0]] + es[1..])[i]);
      hide CancellationOnly;
    }
  }

  /** What decides whether a retry is safe is the first transaction of the error. */
  lemma {:induction false} UncertainExactly(e: Err)
    ensures FirstTransaction(e) == if Transactions(e) == [] then None else Some(Transactions(e)[0])
    ensures Uncertain(e) <==>
              Transactions(e) != [] && Transactions(e)[0].Transaction?
              && (Transactions(e)[0].state != NotCommitted || Transactions(e)[0].recoveryRequired)
    decreases e, 0
  {
    match e
    case Wrapped(inner) => UncertainExactly(inner);
    case Joined(children) => FirstOfAll(children);
    case _ =>
  }

  lemma {:induction false} FirstOfAll(es: seq<Err>)
    ensures FirstAmong(es) == if TransactionsOf(es) == [] then None else Some(TransactionsOf(es)[0])
    decreases es, 1
  {
    if es != [] {
      UncertainExactly(es[0]);
      FirstOfAll(es[1..]);
    }
  }

  /** `errors.Join` of two results. */
  function Join(a: Option<Err>, b: Option<Err>): Option<Err> {
    match (a, b)
    case (None, None) => None
    case (Some(x), None) => Some(Joined([x]))
    case (None, Some(y)) => Some(Joined([y]))
    case (Some(x), Some(y)) => Some(Joined([x, y]))
  }

  /** How a save callback ends, if it does. */
  datatype Ending = Returned(path: Path, error: Option<Err>) | Panicked | Exited

  datatype Saved = Saved(path: Path, error: Option<Err>) {
    /** The callback reported that it committed. */
    predicate Commits() { error.None? }

    /** An ordinary failure: nothing was committed and nothing is left to recover. */
    predicate Ordinary() { error.Some? && !Uncertain(error.value) }
  }

  /** A callback that supplies no outcome leaves an unknown one. */
  function Concluded(ending: Ending): Saved {
    match ending
    case Returned(path, error) => Saved(path, error)
    case Panicked => Saved("", Some(Transaction(Unknown, true, Wrapped(ProgramPanic))))
    case Exited => Saved("", Some(Transaction(Unknown, true, Plain("save ended without a repository outcome"))))
  }

  datatype Attempt = Attempt(draft: Draft, result: Option<Saved>)

  datatype SaveMessage = SaveMessage(draft: Draft, saved: Saved, attempt: Option<nat>)

  /** The gate, and the attempt that a shutdown would have to settle. */
  datatype Tracker = Tracker(closed: bool, current: Option<nat>, attempts: seq<Attempt>)

  function Stopped(t: Tracker): Tracker { t.(closed := true) }

  function Admitted(t: Tracker, draft: Draft): Tracker {
    if t.closed then t
    else t.(current := Some(|t.attempts|), attempts := t.attempts + [Attempt(draft, None)])
  }

  predicate Executing(t: Tracker, k: nat) { k < |t.attempts| && t.attempts[k].result.None? }

  function Completed(t: Tracker, k: nat, ending: Ending): Tracker
    requires Executing(t, k)
  {
    t.(attempts := t.attempts[k := t.attempts[k].(result := Some(Concluded(ending)))])
  }

  function Refusal(draft: Draft): SaveMessage { SaveMessage(draft, Saved("", Some(Canceled)), None) }

  function Acknowledged(t: Tracker, message: SaveMessage): Tracker {
    if message.saved.Ordinary() && message.attempt.Some? && t.current == message.attempt then t.(current := None) else t
  }

  datatype Outcome = Outcome(draft: Draft, path: Path, create: bool, cancelled: bool)

  const NO_OUTCOME := Outcome("", "", false, false)

  /** What settlement waits for: nothing, or the current attempt's result. */
  predicate Settled(t: Tracker) {
    t.current.Some? ==> t.current.value < |t.attempts| && t.attempts[t.current.value].result.Some?
  }

  /** The decision of `settleRuntime` once the gate is closed and the attempt has ended. */
  function Decided(outcome: Outcome, err: Option<Err>, t: Tracker, panicked: bool): (Outcome, Option<Err>)
    requires Settled(t)
  {
    var outcome' := if panicked then NO_OUTCOME else outcome;
    var err' := if panicked && !(err.Some? && Is(err.value, ProgramPanic)) then Join(err, Some(ProgramPanic)) else err;
    if t.current.None? then (outcome', err')
    else
      var attempt := t.attempts[t.current.value];
      var saved := attempt.result.value;
      if saved.Commits() then
        (Outcome(attempt.draft, saved.path, true, false),
         if err'.Some? && !CancellationOnly(err'.value) then Some(Transaction(Committed, false, err'.value)) else None)
      else if Uncertain(saved.error.value) || err'.Some? || (!outcome'.create && !outcome'.cancelled) then
        (NO_OUTCOME, Join(err', saved.error))
      else (outcome', err')
  }

  /** `saveRuntime`: the same state, changed in place. */
  class Gate {
    var closed: bool
    var current: Option<nat>
    var attempts: seq<Attempt>

    constructor ()
      ensures State() == Tracker(false, None, [])
    {
      closed, current, attempts := false, None, [];
    }

    function State(): Tracker
      reads this
    {
      Tracker(closed, current, attempts)
    }

    /** The first half of `execute`, under the mutex. A closed gate starts no callback. */
    method Admit(draft: Draft) returns (attempt: Option<nat>)
      modifies this
      ensures State() == Admitted(old(State()), draft)
      ensures attempt == if old(closed) then None else Some(|old(attempts)|)
    {
      if closed { return None; }
      attempts := attempts + [Attempt(draft, None)];
      current := Some(|attempts| - 1);
      return current;
    }

    /** The deferred half of `execute`: the result is stored before the attempt is done. */
    method Complete(k: nat, ending: Ending) returns (message: SaveMessage)
      requires Executing(State(), k)
      modifies this
      ensures State() == Completed(old(State()), k, ending)
      ensures message == SaveMessage(attempts[k].draft, attempts[k].result.value, Some(k))
    {
      var saved := Saved("", Some(Transaction(Unknown, true, Plain("save ended without a repository outcome"))));
      match ending {
        case Returned(path, error) => saved := Saved(path, error);
        case Panicked => saved := Saved("", Some(Transaction(Unknown, true, Wrapped(ProgramPanic))));
        case Exited =>
      }
      attempts := attempts[k := attempts[k].(result := Some(saved))];
      return SaveMessage(attempts[k].draft, saved, Some(k));
    }

    method Acknowledge(message: SaveMessage)
      modifies this
      ensures State() == Acknowledged(old(State()), message)
    {
      if message.saved.error.None? || message.attempt.None? { return; }
      if Uncertain(message.saved.error.value) { return; }
      if current == message.attempt { current := None; }
    }

    method Stop() returns (attempt: Option<nat>)
      modifies this
      ensures State() == Stopped(old(State())) && attempt == current
    {
      closed := true;
      attempt := current;
    }
  }

  /** `panicRuntime`: a latch that closes the gate before it wakes the watcher. */
  class PanicLatch {
    var done: bool
    const saves: Gate

    constructor (saves: Gate)
      ensures !done && this.saves == saves
    {
      done, this.saves := false, saves;
    }

    method Record()
      modifies this, saves
      ensures done
      ensures saves.State() == if old(done) then old(saves.State()) else Stopped(old(saves.State()))
    {
      if done { return; }
      var _ := saves.Stop();
      done := true;
    }
  }

  method SettleRuntime(outcome: Outcome, err: Option<Err>, tracker: Gate, panics: PanicLatch)
      returns (final: Outcome, finalErr: Option<Err>)
    requires Settled(tracker.State())
    modifies tracker
    ensures tracker.State() == Stopped(old(tracker.State()))
    ensures (final, finalErr) == Decided(outcome, err, tracker.State(), panics.done)
  {
    var settled := tracker.Stop();
    final, finalErr := outcome, err;
    if panics.done {
      final := NO_OUTCOME;
      if err.None? || !Is(err.value, ProgramPanic) { finalErr := Join(err, Some(ProgramPanic)); }
    }
    if settled.Some? {
      var attempt := tracker.attempts[settled.value];
      var saved := attempt.result.value;
      if saved.error.None? {
        final := Outcome(attempt.draft, saved.path, true, false);
        if finalErr.Some? && !CancellationOnly(finalErr.value) {
          return final, Some(Transaction(Committed, false, finalErr.value));
        }
        return final, None;
      }
      if Uncertain(saved.error.value) || finalErr.Some? || (!final.create && !final.cancelled) {
        return NO_OUTCOME, Join(finalErr, saved.error);
      }
    }
  }
}
