/**
 The signal supervisor of a launch (internal/executor/executor.go:1152-1293). Its
 methods run one at a time under a mutex; what they send, print or end is logged
 in the order decided.
 */
module SignalSupervisor {
  import opened Options

  /** A resize notification, or a termination told apart by its number. */
  datatype Signal = Resize | Termination(number: nat)

  type Child = nat

  datatype Action = CancelPreflight | Deliver(child: Child, signal: Signal) | Notice | ForceExit(signal: Signal)

  datatype State = State(
    child: Option<Child>,
    pending: Option<Signal>,
    starting: bool,
    cleaningUp: bool,
    cleanupInterrupts: nat,
    log: seq<Action>)

  const INITIAL := State(None, None, false, false, 0, [])

  function Logged(s: State, a: Action): State { s.(log := s.log + [a]) }

  function Handled(s: State, signal: Signal): State {
    if s.cleaningUp then
      if signal.Resize? then s
      else
        var s' := s.(cleanupInterrupts := s.cleanupInterrupts + 1);
        Logged(s', if s'.cleanupInterrupts == 1 then Notice else ForceExit(signal))
    else if s.child.Some? then Logged(s, Deliver(s.child.value, signal))
    else if s.starting then if s.pending.None? || !signal.Resize? then s.(pending := Some(signal)) else s
    else if !signal.Resize? then Logged(s.(pending := Some(signal)), CancelPreflight)
    else s
  }

  /** A reservation is refused while a signal is pending. */
  predicate Accepts(s: State) { s.pending.None? }

  function Reserved(s: State): State { if Accepts(s) then s.(starting := true) else s }

  function Cancelled(s: State): State { s.(starting := false) }

  /** The locked part of `startReserved`, after the child's own start. */
  function Started(s: State, child: Child, ok: bool): State {
    if !ok then s.(starting := false)
    else
      var s' := s.(starting := false, child := Some(child), pending := None);
      if s.pending.Some? then Logged(s', Deliver(child, s.pending.value)) else s'
  }

  function Cleaning(s: State): State { s.(child := None, starting := false, cleaningUp := true) }

  /** The supervisor itself: the same state, changed field by field. */
  class Supervisor {
    var child: Option<Child>
    var pending: Option<Signal>
    var starting: bool
    var cleaningUp: bool
    var cleanupInterrupts: nat
    ghost var log: seq<Action>

    constructor ()
      ensures Now() == INITIAL
    {
      child, pending, starting, cleaningUp, cleanupInterrupts, log := None, None, false, false, 0, [];
    }

    ghost function Now(): State
      reads this
    {
      State(child, pending, starting, cleaningUp, cleanupInterrupts, log)
    }

    method HandleSignal(received: Signal)
      modifies this
      ensures Now() == Handled(old(Now()), received)
    {
      if cleaningUp {
        if received.Resize? { return; }
        cleanupInterrupts := cleanupInterrupts + 1;
        var first := cleanupInterrupts == 1;
        log := log + [if first then Notice else ForceExit(received)];
        return;
      }
      if child.None? {
        if starting {
          if pending.None? || !received.Resize? { pending := Some(received); }
          return;
        }
        if !received.Resize? {
          pending := Some(received);
          log := log + [CancelPreflight];
        }
        return;
      }
      log := log + [Deliver(child.value, received)];
    }

    method ReserveInteractive() returns (ok: bool)
      modifies this
      ensures Now() == Reserved(old(Now())) && ok == old(Accepts(Now()))
    {
      if pending.Some? { return false; }
      starting := true;
      return true;
    }

    method CancelInteractiveReservation()
      modifies this
      ensures Now() == Cancelled(old(Now()))
    {
      starting := false;
    }

    /** The result says whether the child started, whatever the replayed signal did to it. */
    method StartReserved(started: Child, startFails: bool, signalFails: bool) returns (running: bool, ok: bool)
      modifies this
      ensures Now() == Started(old(Now()), started, !startFails)
      ensures running == !startFails && ok == (!startFails && (old(pending).Some? ==> !signalFails))
    {
      starting := false;
      if startFails { return false, false; }
      child := Some(started);
      var replay := pending;
      pending := None;
      if replay.None? { return true, true; }
      log := log + [Deliver(started, replay.value)];
      return true, !signalFails;
    }

    method BeginCleanup()
      modifies this
      ensures Now() == Cleaning(old(Now()))
    {
      child, starting, cleaningUp := None, false, true;
    }
  }

  // ----- traces

  datatype Event =
    | Handle(signal: Signal)
    | Reserve
    | Cancel
    | Start(child: Child, ok: bool)
    | Clean

  /** A start happens only under a reservation. */
  predicate Enabled(s: State, e: Event) { e.Start? ==> s.starting }

  function Next(s: State, e: Event): State {
    match e
    case Handle(signal) => Handled(s, signal)
    case Reserve => Reserved(s)
    case Cancel => Cancelled(s)
    case Start(child, ok) => Started(s, child, ok)
    case Clean => Cleaning(s)
  }

  predicate Trace(ss: seq<State>, es: seq<Event>) {
    |ss| == |es| + 1 && forall i | 0 <= i < |es| :: Enabled(ss[i], es[i]) && ss[i + 1] == Next(ss[i], es[i])
  }

  /** Nothing can be forwarded any more: a signal is pending with no reservation open. */
  predicate Blocked(s: State) { s.child.None? && !s.starting && s.pending.Some? }

  function Deliveries(log: seq<Action>): seq<Action> {
    if log == [] then []
    else Deliveries(log[..|log| - 1]) + if log[|log| - 1].Deliver? then [log[|log| - 1]] else []
  }

  /**
   A termination handled in preflight makes every later reservation fail, so no child
   is ever started or signalled after it.
   */
  lemma {:induction false} PreflightTerminationBlocks(ss: seq<State>, es: seq<Event>, i: nat, j: nat)
    requires Trace(ss, es) && i < j < |ss|
    requires es[i].Handle? && !es[i].signal.Resize?
    requires ss[i].child.None? && !ss[i].starting && !ss[i].cleaningUp
    ensures Blocked(ss[j]) && Reserved(ss[j]) == ss[j] && ss[i + 1].log == ss[i].log + [CancelPreflight]
    ensures Deliveries(ss[j].log) == Deliveries(ss[i].log)
    decreases j
  {
    assert ss[i + 1] == Next(ss[i], es[i]);
    if j > i + 1 {
      PreflightTerminationBlocks(ss, es, i, j - 1);
      assert Enabled(ss[j - 1], es[j - 1]) && ss[j] == Next(ss[j - 1], es[j - 1]);
    }
  }

  /** What a reservation must replay: its last termination, else a resize, else nothing. */
  function Owed(signals: seq<Signal>): Option<Signal> {
    if signals == [] then None
    else
      var last := signals[|signals| - 1];
      if !last.Resize? then Some(last)
      else match Owed(signals[..|signals| - 1])
        case Some(earlier) => Some(earlier)
        case None => Some(Resize)
  }

  lemma {:induction false} OwedIsTheLastTermination(signals: seq<Signal>)
    ensures Owed(signals).None? <==> signals == []
    ensures Owed(signals) == Some(Resize) <==> signals != [] && forall k | 0 <= k < |signals| :: signals[k].Resize?
    ensures forall k | 0 <= k < |signals| && !signals[k].Resize?
        && (forall l | k < l < |signals| :: signals[l].Resize?) :: Owed(signals) == Some(signals[k])
  {
    if signals != [] {
      var front := signals[..|signals| - 1];
      OwedIsTheLastTermination(front);
      forall k | 0 <= k < |signals| && !signals[k].Resize? && (forall l | k < l < |signals| :: signals[l].Resize?)
        ensures Owed(signals) == Some(signals[k])
      {
        if k < |front| {
          assert front[k] == signals[k] && signals[|front|].Resize?;
          assert forall l | k < l < |front| :: front[l] == signals[l];
        }
      }
      if forall k | 0 <= k < |signals| :: signals[k].Resize? {
        assert forall k | 0 <= k < |front| :: front[k] == signals[k];
      } else {
        var k :| 0 <= k < |signals| && !signals[k].Resize?;
        if k < |front| { assert !front[k].Resize?; }
      }
    }
  }

  function SignalsOf(es: seq<Event>): seq<Signal>
    requires forall e | e in es :: e.Handle?
  {
    if es == [] then [] else SignalsOf(es[..|es| - 1]) + [es[|es| - 1].signal]
  }

  lemma OneMoreSignal(es: seq<Event>, i: nat, j: nat)
    requires i <= j < |es| && es[j].Handle? && forall e | e in es[i..j] :: e.Handle?
    ensures forall e | e in es[i..j + 1] :: e.Handle?
    ensures SignalsOf(es[i..j + 1]) == SignalsOf(es[i..j]) + [es[j].signal]
  {
    var stretch := es[i..j + 1];
    assert stretch == es[i..j] + [es[j]] && stretch[..|stretch| - 1] == es[i..j];
  }

  lemma HandledOwes(s: State, signals: seq<Signal>, signal: Signal)
    requires s.starting && s.child.None? && !s.cleaningUp && s.pending == Owed(signals)
    ensures Handled(s, signal) == s.(pending := Owed(signals + [signal]))
  {
    assert (signals + [signal])[..|signals|] == signals;
  }

  lemma {:induction false} ReservationCollects(ss: seq<State>, es: seq<Event>, i: nat, j: nat)
    requires Trace(ss, es) && i < j < |ss|
    requires es[i].Reserve? && ss[i].pending.None? && ss[i].child.None? && !ss[i].cleaningUp
    requires forall k :: i < k < j ==> es[k].Handle?
    ensures forall e | e in es[i + 1..j] :: e.Handle?
    ensures ss[j] == ss[i].(starting := true, pending := Owed(SignalsOf(es[i + 1..j])))
    decreases j
  {
    if j == i + 1 {
      assert ss[i + 1] == Next(ss[i], es[i]) && es[i + 1..j] == [];
    } else {
      ReservationCollects(ss, es, i, j - 1);
      assert ss[j] == Next(ss[j - 1], es[j - 1]) && es[j - 1].Handle?;
      HandledOwes(ss[j - 1], SignalsOf(es[i + 1..j - 1]), es[j - 1].signal);
      OneMoreSignal(es, i + 1, j - 1);
      hide Owed, SignalsOf, Handled;
    }
  }

  /**
   Signals handled during a reservation are replayed to the child that then starts:
   the last termination if there was one, which no resize erases and only a later
   termination supersedes; a resize if there were only resizes.
   */
  lemma ReservationReplays(ss: seq<State>, es: seq<Event>, i: nat, j: nat)
    requires Trace(ss, es) && i < j < |es|
    requires es[i].Reserve? && ss[i].pending.None? && ss[i].child.None? && !ss[i].cleaningUp
    requires (forall k | i < k < j :: es[k].Handle?) && es[j].Start? && es[j].ok
    ensures forall e | e in es[i + 1..j] :: e.Handle?
    ensures var owed := Owed(SignalsOf(es[i + 1..j]));
      && ss[j + 1].child == Some(es[j].child) && ss[j + 1].pending.None?
      && ss[j + 1].log == ss[i].log + if owed.Some? then [Deliver(es[j].child, owed.value)] else []
  {
    ReservationCollects(ss, es, i, j);
    assert ss[j + 1] == Next(ss[j], es[j]);
  }

  /** How many terminations a stretch of events handles. */
  function Terminations(es: seq<Event>): nat {
    if es == [] then 0
    else Terminations(es[..|es| - 1]) + if Terminates(es[|es| - 1]) then 1 else 0
  }

  lemma OneMoreTermination(es: seq<Event>, i: nat, j: nat)
    requires i <= j < |es|
    ensures Terminations(es[i..j + 1]) == Terminations(es[i..j]) + if Terminates(es[j]) then 1 else 0
  {
    var stretch := es[i..j + 1];
    assert stretch[..|stretch| - 1] == es[i..j] && stretch[|stretch| - 1] == es[j];
  }

  function Count(log: seq<Action>, exits: bool): nat {
    if log == [] then 0
    else Count(log[..|log| - 1], exits) + if (if exits then log[|log| - 1].ForceExit? else log[|log| - 1].Notice?)
        then 1 else 0
  }

  predicate Terminates(e: Event) { e.Handle? && !e.signal.Resize? }

  lemma CleanupStep(s: State, e: Event)
    requires Enabled(s, e) && s.cleaningUp && (s.starting ==> s.pending.None?)
    ensures var s' := Next(s, e);
      && s'.cleaningUp && (s'.starting ==> s'.pending.None?)
      && s'.cleanupInterrupts == s.cleanupInterrupts + (if Terminates(e) then 1 else 0)
      && s'.log == s.log + if !Terminates(e) then [] else if s.cleanupInterrupts == 0 then [Notice]
           else [ForceExit(e.signal)]
  {
  }

  lemma OneMoreAction(log: seq<Action>, a: Action)
    ensures Deliveries(log + [a]) == Deliveries(log) + if a.Deliver? then [a] else []
    ensures Count(log + [a], true) == Count(log, true) + if a.ForceExit? then 1 else 0
    ensures Count(log + [a], false) == Count(log, false) + if a.Notice? then 1 else 0
  {
    assert (log + [a])[..|log|] == log;
  }

  /** In cleanup since `start`, after `t` terminations: one notice, then one forced exit each, and no delivery. */
  predicate Exits(start: State, s: State, t: nat) {
    && s.cleaningUp && s.cleanupInterrupts == t && (s.starting ==> s.pending.None?)
    && Deliveries(s.log) == Deliveries(start.log)
    && Count(s.log, false) == Count(start.log, false) + (if t == 0 then 0 else 1)
    && Count(s.log, true) == Count(start.log, true) + (if t < 2 then 0 else t - 1)
  }

  lemma ExitsStep(start: State, s: State, e: Event, t: nat)
    requires Exits(start, s, t) && Enabled(s, e)
    ensures Exits(start, Next(s, e), t + if Terminates(e) then 1 else 0)
  {
    CleanupStep(s, e);
    hide Next, Enabled, Deliveries, Count;
    if Terminates(e) {
      OneMoreAction(s.log, if s.cleanupInterrupts == 0 then Notice else ForceExit(e.signal));
    } else {
      assert s.log + [] == s.log;
    }
  }

  /**
   In cleanup nothing is newly forwarded, resizes are dropped, the first termination
   prints the notice, and only from the second on does one force the exit.
   */
  lemma {:induction false} CleanupOnlyExits(ss: seq<State>, es: seq<Event>, i: nat, j: nat)
    requires Trace(ss, es) && i < j < |ss| && es[i].Clean? && ss[i].cleanupInterrupts == 0 && !ss[i].cleaningUp
    ensures Exits(ss[i], ss[j], Terminations(es[i + 1..j]))
    decreases j
  {
    hide Deliveries, Count;
    if j == i + 1 {
      assert ss[i + 1] == Next(ss[i], es[i]) && es[i + 1..j] == [];
    } else {
      CleanupOnlyExits(ss, es, i, j - 1);
      var s, e := ss[j - 1], es[j - 1];
      assert Enabled(s, e) && ss[j] == Next(s, e);
      hide Next, Enabled, Exits, Trace, Terminations;
      ExitsStep(ss[i], s, e, Terminations(es[i + 1..j - 1]));
      OneMoreTermination(es, i + 1, j - 1);
    }
  }

  // ----- when a reservation is refused

  predicate StartsChild(e: Event) { e.Start? && e.ok }

  predicate CleanedBefore(es: seq<Event>, n: nat)
    requires n <= |es|
  {
    exists k :: 0 <= k < n && es[k].Clean?
  }

  predicate StartedBefore(es: seq<Event>, n: nat)
    requires n <= |es|
  {
    exists k :: 0 <= k < n && StartsChild(es[k])
  }

  predicate EndsReservation(e: Event) { e.Cancel? || e.Start? || e.Clean? }

  /** A reservation was made and has not ended. */
  predicate InReservation(es: seq<Event>, n: nat)
    requires n <= |es|
  {
    exists r :: 0 <= r < n && es[r].Reserve? && forall k :: r < k < n ==> !EndsReservation(es[k])
  }

  /** A signal that is kept for a child yet to start: any termination, or a resize during a reservation. */
  predicate Kept(es: seq<Event>, i: nat)
    requires i < |es|
  {
    es[i].Handle? && !CleanedBefore(es, i) && (!es[i].signal.Resize? || InReservation(es, i))
  }

  /** No child was started, and a signal was kept for one before any cleanup. */
  predicate Refused(es: seq<Event>, n: nat)
    requires n <= |es|
  {
    !StartedBefore(es, n) && exists i :: 0 <= i < n && Kept(es, i)
  }

  lemma OneMoreEvent(es: seq<Event>, n: nat)
    requires n < |es|
    ensures CleanedBefore(es, n + 1) <==> CleanedBefore(es, n) || es[n].Clean?
    ensures StartedBefore(es, n + 1) <==> StartedBefore(es, n) || StartsChild(es[n])
    ensures InReservation(es, n + 1) <==> es[n].Reserve? || (InReservation(es, n) && !EndsReservation(es[n]))
    ensures Refused(es, n + 1) <==> !StartedBefore(es, n + 1) && (Refused(es, n) || Kept(es, n))
  {
    hide Kept, EndsReservation, StartsChild;
  }

  /** What the events so far say about the state. */
  predicate Agrees(s: State, es: seq<Event>, n: nat)
    requires n <= |es|
  {
    && (s.cleaningUp <==> CleanedBefore(es, n))
    && (if StartedBefore(es, n) then s.child.Some? || s.cleaningUp else s.child.None?)
    && (s.pending.Some? <==> Refused(es, n))
    && (!StartedBefore(es, n) && s.pending.None? ==> (s.starting <==> InReservation(es, n)))
  }

  lemma AgreesNext(s: State, es: seq<Event>, n: nat)
    requires n < |es| && Agrees(s, es, n) && Enabled(s, es[n])
    ensures Agrees(Next(s, es[n]), es, n + 1)
  {
    OneMoreEvent(es, n);
    hide CleanedBefore, StartedBefore, InReservation, Refused;
  }

  lemma {:induction false} TracesAgree(ss: seq<State>, es: seq<Event>, n: nat)
    requires Trace(ss, es) && ss[0] == INITIAL && n <= |es|
    ensures Agrees(ss[n], es, n)
  {
    if n > 0 {
      TracesAgree(ss, es, n - 1);
      assert Enabled(ss[n - 1], es[n - 1]) && ss[n] == Next(ss[n - 1], es[n - 1]);
      AgreesNext(ss[n - 1], es, n - 1);
      hide Agrees, Next, Enabled;
    }
  }

  /**
   In every trace of a new supervisor, a reservation is refused exactly when no child
   has been started and, before any cleanup, a termination was handled or a resize was
   handled during a reservation.
   */
  lemma RefusedExactly(ss: seq<State>, es: seq<Event>, j: nat)
    requires Trace(ss, es) && ss[0] == INITIAL && j < |es| && es[j].Reserve?
    ensures Accepts(ss[j]) <==> !Refused(es, j)
    ensures ss[j + 1] == if Refused(es, j) then ss[j] else ss[j].(starting := true)
  {
    TracesAgree(ss, es, j);
  }

  /**
   A first reservation, which is all an execution makes, is refused exactly when a
   termination came before it and before any cleanup.
   */
  lemma FirstReservation(ss: seq<State>, es: seq<Event>, j: nat)
    requires Trace(ss, es) && ss[0] == INITIAL && j < |es| && es[j].Reserve?
    requires forall k :: 0 <= k < j ==> !es[k].Reserve?
    ensures Accepts(ss[j]) <==> forall i :: 0 <= i < j && Terminates(es[i]) ==> CleanedBefore(es, i)
  {
    TracesAgree(ss, es, j);
    NoneStartedUnreserved(ss, es, j);
    forall i | 0 <= i < j
      ensures Kept(es, i) <==> Terminates(es[i]) && !CleanedBefore(es, i)
    {
    }
  }

  lemma {:induction false} NoneStartedUnreserved(ss: seq<State>, es: seq<Event>, n: nat)
    requires Trace(ss, es) && ss[0] == INITIAL && n <= |es|
    requires forall k :: 0 <= k < n ==> !es[k].Reserve?
    ensures !ss[n].starting && !StartedBefore(es, n)
  {
    if n > 0 {
      NoneStartedUnreserved(ss, es, n - 1);
      assert Enabled(ss[n - 1], es[n - 1]) && ss[n] == Next(ss[n - 1], es[n - 1]);
    }
  }

  /** After a failed start, a resize handled during its reservation refuses the next one: no termination is needed. */
  lemma ResizeCanBlock(child: Child)
    ensures var es := [Reserve, Handle(Resize), Start(child, false), Reserve];
      exists ss :: Trace(ss, es) && ss[0] == INITIAL && !Accepts(ss[3])
  {
    var es := [Reserve, Handle(Resize), Start(child, false), Reserve];
    var open := INITIAL.(starting := true);
    var kept := open.(pending := Some(Resize));
    var failed := kept.(starting := false);
    assert Trace([INITIAL, open, kept, failed, failed], es);
  }

  // ----- while a child runs

  /** One delivery for every signal handled, in order. */
  function Forwarded(child: Child, es: seq<Event>): seq<Action> {
    if es == [] then []
    else
      var last := es[|es| - 1];
      Forwarded(child, es[..|es| - 1]) + if last.Handle? then [Deliver(child, last.signal)] else []
  }

  lemma OneMoreForwarded(child: Child, es: seq<Event>, i: nat, j: nat)
    requires i <= j < |es|
    ensures Forwarded(child, es[i..j + 1]) ==
      Forwarded(child, es[i..j]) + if es[j].Handle? then [Deliver(child, es[j].signal)] else []
  {
    var stretch := es[i..j + 1];
    assert stretch[..|stretch| - 1] == es[i..j] && stretch[|stretch| - 1] == es[j];
  }

  lemma NothingForwarded(child: Child)
    ensures Forwarded(child, []) == []
  {
  }

  lemma RunningStep(s: State, e: Event)
    requires s.child.Some? && !s.cleaningUp && !e.Clean? && !StartsChild(e)
    ensures Next(s, e).log == s.log + if e.Handle? then [Deliver(s.child.value, e.signal)] else []
    ensures Next(s, e).child == s.child
  {
  }

  /**
   From the start of a child to the next cleanup or start, every signal handled is
   delivered to it, in order, and nothing else is sent, printed or ended.
   */
  lemma {:induction false} ChildHearsEverySignal(ss: seq<State>, es: seq<Event>, i: nat, j: nat)
    requires Trace(ss, es) && ss[0] == INITIAL && i < j < |ss|
    requires StartsChild(es[i]) && !CleanedBefore(es, j) && forall k :: i < k < j ==> !StartsChild(es[k])
    ensures ss[j].log == ss[i + 1].log + Forwarded(es[i].child, es[i + 1..j])
    ensures ss[j].child == Some(es[i].child)
    decreases j
  {
    hide Forwarded, InReservation, Refused, StartedBefore, Handled;
    assert ss[j] == Next(ss[j - 1], es[j - 1]);
    if j == i + 1 {
      NothingForwarded(es[i].child);
      assert es[j..j] == [];
    } else {
      assert !es[j - 1].Clean?;
      ChildHearsEverySignal(ss, es, i, j - 1);
      TracesAgree(ss, es, j - 1);
      RunningStep(ss[j - 1], es[j - 1]);
      OneMoreForwarded(es[i].child, es, i + 1, j - 1);
    }
  }
}
