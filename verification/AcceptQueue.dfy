/**
 The hand-off of accepted connections: the accept loop, the bounded queue with its
 processor, and the workers of the goroutine pool, interleaved step by step, with the
 WaitGroup that `Shutdown` waits on.  Connections are numbered as they are accepted,
 once their deadline is set.
 */
module AcceptQueue {

  /** Where the accept loop is. */
  datatype Acceptor =
    | Accepting
    | Adding(conn: nat)      // before `wg.Add(1)`
    | Submitting(conn: nat)
    | Enqueueing(conn: nat)  // the pool has refused it
    | Releasing(conn: nat)   // the queue is full as well
    | Rejecting(conn: nat)   // released, before `conn.Close()`
    | Stopped

  /** Where the queue processor is. */
  datatype Processor =
    | Selecting
    | Resubmitting(conn: nat)
    | Refused(conn: nat)     // before `conn.Close()`
    | RefusedClosed(conn: nat)
    | Draining
    | Drained(conn: nat)     // before `conn.Close()`
    | DrainedClosed(conn: nat)
    | Returned

  datatype State = State(
    capacity: nat,
    base: nat,                  // WaitGroup units of the other goroutines
    draining: bool,
    cancelled: bool,
    acceptor: Acceptor,
    processor: Processor,
    queue: seq<nat>,
    running: multiset<nat>,     // submitted to the pool
    closing: multiset<nat>,     // handled and closed, before the deferred `wg.Done()`
    finished: multiset<nat>,
    wg: int,
    accepted: nat,
    // what has happened so far
    released: multiset<nat>,    // `wg.Done()` calls
    closes: multiset<nat>,      // `conn.Close()` calls
    handled: set<nat>,          // handed to a worker
    late: seq<nat>)             // enqueued after the processor returned

  datatype Action =
    | Accept
    | Add
    | Submit
    | SubmitFails
    | Enqueue
    | HandOver                  // a send that meets the waiting receiver
    | RejectFull
    | Release
    | Reject
    | Stop
    | Receive
    | Resubmit
    | ResubmitFails
    | CloseRefused
    | ReleaseRefused
    | BeginDrain
    | DrainOne
    | CloseDrained
    | ReleaseDrained
    | EndDrain
    | Handle(conn: nat)         // `handleConnection` ends with its own deferred close
    | CloseHandled(conn: nat)   // any other close: the session's, an idle cleanup, the server's disconnect
    | Finish(conn: nat)
    | Drain                     // `Shutdown` enters drain mode
    | Cancel                    // and cancels the context

  function Init(capacity: nat, base: nat): State {
    State(capacity, base, false, false, Accepting, Selecting, [], multiset{}, multiset{}, multiset{}, base, 0,
          multiset{}, multiset{}, {}, [])
  }

  predicate Enabled(s: State, a: Action) {
    match a
    case Accept => s.acceptor.Accepting?
    case Add => s.acceptor.Adding?
    case Submit => s.acceptor.Submitting?
    case SubmitFails => s.acceptor.Submitting?
    case Enqueue => s.acceptor.Enqueueing? && |s.queue| < s.capacity
    case HandOver => s.acceptor.Enqueueing? && s.queue == [] && s.processor.Selecting?
    case RejectFull => s.acceptor.Enqueueing? && |s.queue| >= s.capacity
    case Release => s.acceptor.Releasing?
    case Reject => s.acceptor.Rejecting?
    case Stop => s.acceptor.Accepting? && (s.draining || s.cancelled)
    case Receive => s.processor.Selecting? && s.queue != []
    case Resubmit => s.processor.Resubmitting?
    case ResubmitFails => s.processor.Resubmitting?
    case CloseRefused => s.processor.Refused?
    case ReleaseRefused => s.processor.RefusedClosed?
    case BeginDrain => s.processor.Selecting? && s.cancelled
    case DrainOne => s.processor.Draining? && s.queue != []
    case CloseDrained => s.processor.Drained?
    case ReleaseDrained => s.processor.DrainedClosed?
    case EndDrain => s.processor.Draining? && s.queue == []
    case Handle(c) => c in s.running
    case CloseHandled(c) => c in s.handled
    case Finish(c) => c in s.closing
    case Drain => true
    case Cancel => s.draining
  }

  function WgDone(s: State, c: nat): State {
    s.(wg := s.wg - 1, released := s.released + multiset{c})
  }

  function Close(s: State, c: nat): State {
    s.(closes := s.closes + multiset{c})
  }

  function Work(s: State, c: nat): State {
    s.(running := s.running + multiset{c}, handled := s.handled + {c})
  }

  function End(s: State, c: nat): State {
    s.(finished := s.finished + multiset{c})
  }

  function Do(s: State, a: Action): State
    requires Enabled(s, a)
  {
    match a
    case Accept => s.(acceptor := Adding(s.accepted), accepted := s.accepted + 1)
    case Add => s.(acceptor := Submitting(s.acceptor.conn), wg := s.wg + 1)
    case Submit => Work(s, s.acceptor.conn).(acceptor := Accepting)
    case SubmitFails => s.(acceptor := Enqueueing(s.acceptor.conn))
    case Enqueue =>
      s.(acceptor := Accepting, queue := s.queue + [s.acceptor.conn],
         late := if s.processor.Returned? then s.late + [s.acceptor.conn] else s.late)
    case HandOver => s.(acceptor := Accepting, processor := Resubmitting(s.acceptor.conn))
    case RejectFull => s.(acceptor := Releasing(s.acceptor.conn))
    case Release => WgDone(s, s.acceptor.conn).(acceptor := Rejecting(s.acceptor.conn))
    case Reject => End(Close(s, s.acceptor.conn), s.acceptor.conn).(acceptor := Accepting)
    case Stop => s.(acceptor := Stopped)
    case Receive => s.(processor := Resubmitting(s.queue[0]), queue := s.queue[1..])
    case Resubmit => Work(s, s.processor.conn).(processor := Selecting)
    case ResubmitFails => s.(processor := Refused(s.processor.conn))
    case CloseRefused => Close(s, s.processor.conn).(processor := RefusedClosed(s.processor.conn))
    case ReleaseRefused => End(WgDone(s, s.processor.conn), s.processor.conn).(processor := Selecting)
    case BeginDrain => s.(processor := Draining)
    case DrainOne => s.(processor := Drained(s.queue[0]), queue := s.queue[1..])
    case CloseDrained => Close(s, s.processor.conn).(processor := DrainedClosed(s.processor.conn))
    case ReleaseDrained => End(WgDone(s, s.processor.conn), s.processor.conn).(processor := Draining)
    case EndDrain => s.(processor := Returned)
    case Handle(c) => Close(s, c).(running := s.running - multiset{c}, closing := s.closing + multiset{c})
    case CloseHandled(c) => Close(s, c)
    case Finish(c) => End(WgDone(s, c), c).(closing := s.closing - multiset{c})
    case Drain => s.(draining := true)
    case Cancel => s.(cancelled := true)
  }

  predicate Runs(s: State, actions: seq<Action>)
    decreases |actions|
  {
    actions == [] || (Enabled(s, actions[0]) && Runs(Do(s, actions[0]), actions[1..]))
  }

  function Final(s: State, actions: seq<Action>): State
    requires Runs(s, actions)
    decreases |actions|
  {
    if actions == [] then s else Final(Do(s, actions[0]), actions[1..])
  }

  // ---------------------------------------------------------------------------
  // Who holds what

  function Once(b: bool): nat {
    if b then 1 else 0
  }

  /** The accept loop is placing `c`. */
  predicate Placing(a: Acceptor, c: nat) {
    !a.Accepting? && !a.Stopped? && a.conn == c
  }

  /** The accept loop holds a WaitGroup unit for what it is placing. */
  predicate AcceptorUnit(a: Acceptor) {
    a.Submitting? || a.Enqueueing? || a.Releasing?
  }

  /** The processor is placing a connection that it took from the queue. */
  predicate ProcessorUnit(p: Processor) {
    !p.Selecting? && !p.Draining? && !p.Returned?
  }

  predicate Taken(p: Processor, c: nat) {
    ProcessorUnit(p) && p.conn == c
  }

  /** How often `c` is held, queued, handled or finished. */
  function Places(s: State, c: nat): nat {
    Once(Placing(s.acceptor, c)) + Once(Taken(s.processor, c)) + multiset(s.queue)[c]
    + s.running[c] + s.closing[c] + s.finished[c]
  }

  /** How many WaitGroup units are held for `c`. */
  function Units(s: State, c: nat): nat {
    Once(AcceptorUnit(s.acceptor) && s.acceptor.conn == c) + Once(Taken(s.processor, c)) + multiset(s.queue)[c]
    + s.running[c] + s.closing[c]
  }

  /** How many are held in all. */
  function AllUnits(s: State): nat {
    Once(AcceptorUnit(s.acceptor)) + Once(ProcessorUnit(s.processor)) + |s.queue| + |s.running| + |s.closing|
  }

  /** How many closes of `c` by the two loops are still to come, if no worker gets it. */
  function Unclosed(s: State, c: nat): nat {
    Once(Placing(s.acceptor, c)) + multiset(s.queue)[c]
    + Once(Taken(s.processor, c) && !s.processor.RefusedClosed? && !s.processor.DrainedClosed?)
  }

  /** A worker has `c`, or had it. */
  predicate HandledOk(s: State, c: nat) {
    && s.running[c] + s.closing[c] + s.finished[c] == 1
    && s.closes[c] >= s.closing[c] + s.finished[c]
  }

  predicate InvOf(s: State, c: nat) {
    && Places(s, c) == Once(c < s.accepted)
    && Units(s, c) + s.released[c] == Once(c < s.accepted && s.acceptor != Adding(c))
    && if c in s.handled then HandledOk(s, c)
       else s.running[c] == s.closing[c] == 0 && Unclosed(s, c) + s.closes[c] == Once(c < s.accepted)
  }

  predicate Counted(s: State) {
    && s.wg == s.base + AllUnits(s)
    && AllUnits(s) + |s.finished| + Once(s.acceptor.Adding? || s.acceptor.Rejecting?) == s.accepted
    && |s.queue| <= s.capacity
    && (if s.processor.Returned? then s.queue == s.late else s.late == [])
  }

  lemma InitInv(capacity: nat, base: nat, c: nat)
    ensures InvOf(Init(capacity, base), c) && Counted(Init(capacity, base))
  {
  }

  lemma HeadOf(q: seq<nat>)
    requires q != []
    ensures multiset(q) == multiset{q[0]} + multiset(q[1..])
  {
    assert q == [q[0]] + q[1..];
  }

  lemma MovesKeep(s: State, a: Action, c: nat)
    requires Enabled(s, a) && InvOf(s, c)
      && (a.Add? || a.SubmitFails? || a.RejectFull? || a.ResubmitFails? || a.HandOver?)
    ensures InvOf(Do(s, a), c)
  {
  }

  lemma ShutdownKeeps(s: State, a: Action, c: nat)
    requires Enabled(s, a) && InvOf(s, c) && (a.Drain? || a.Cancel?)
    ensures InvOf(Do(s, a), c)
  {
  }

  lemma SignalsKeep(s: State, a: Action, c: nat)
    requires Enabled(s, a) && InvOf(s, c) && (a.Stop? || a.BeginDrain? || a.EndDrain?)
    ensures InvOf(Do(s, a), c)
  {
  }

  lemma StartsKeep(s: State, a: Action, c: nat)
    requires Enabled(s, a) && InvOf(s, c) && (a.Submit? || a.Resubmit?)
    ensures InvOf(Do(s, a), c)
  {
  }

  lemma AcceptsKeep(s: State, a: Action, c: nat)
    requires Enabled(s, a) && InvOf(s, c) && a.Accept?
    ensures InvOf(Do(s, a), c)
  {
  }

  lemma EnqueuesKeep(s: State, a: Action, c: nat)
    requires Enabled(s, a) && InvOf(s, c) && a.Enqueue?
    ensures InvOf(Do(s, a), c)
  {
    assert multiset(s.queue + [s.acceptor.conn]) == multiset(s.queue) + multiset{s.acceptor.conn};
  }

  lemma DequeuesKeep(s: State, a: Action, c: nat)
    requires Enabled(s, a) && InvOf(s, c) && (a.Receive? || a.DrainOne?)
    ensures InvOf(Do(s, a), c)
  {
    HeadOf(s.queue);
  }

  lemma ReleasesKeep(s: State, a: Action, c: nat)
    requires Enabled(s, a) && InvOf(s, c) && a.Release?
    ensures InvOf(Do(s, a), c)
  {
  }

  lemma RejectsKeep(s: State, a: Action, c: nat)
    requires Enabled(s, a) && InvOf(s, c) && a.Reject?
    ensures InvOf(Do(s, a), c)
  {
  }

  lemma ClosesKeep(s: State, a: Action, c: nat)
    requires Enabled(s, a) && InvOf(s, c) && (a.CloseRefused? || a.CloseDrained?)
    ensures InvOf(Do(s, a), c)
  {
  }

  lemma WorkerClosesKeep(s: State, a: Action, c: nat)
    requires Enabled(s, a) && InvOf(s, c) && a.CloseHandled?
    ensures InvOf(Do(s, a), c)
  {
  }

  lemma DropsKeep(s: State, a: Action, c: nat)
    requires Enabled(s, a) && InvOf(s, c) && (a.ReleaseRefused? || a.ReleaseDrained?)
    ensures InvOf(Do(s, a), c)
  {
  }

  lemma HandlesKeep(s: State, a: Action, c: nat)
    requires Enabled(s, a) && InvOf(s, c) && a.Handle?
    ensures InvOf(Do(s, a), c)
  {
  }

  lemma FinishesKeep(s: State, a: Action, c: nat)
    requires Enabled(s, a) && InvOf(s, c) && a.Finish?
    ensures InvOf(Do(s, a), c)
  {
  }

  lemma StepKeepsInv(s: State, a: Action, c: nat)
    requires Enabled(s, a) && InvOf(s, c)
    ensures InvOf(Do(s, a), c)
  {
    hide InvOf, Do, Enabled;
    match a
    case Add => MovesKeep(s, a, c);
    case SubmitFails => MovesKeep(s, a, c);
    case RejectFull => MovesKeep(s, a, c);
    case ResubmitFails => MovesKeep(s, a, c);
    case HandOver => MovesKeep(s, a, c);
    case Stop => SignalsKeep(s, a, c);
    case BeginDrain => SignalsKeep(s, a, c);
    case EndDrain => SignalsKeep(s, a, c);
    case Drain => ShutdownKeeps(s, a, c);
    case Cancel => ShutdownKeeps(s, a, c);
    case Submit => StartsKeep(s, a, c);
    case Resubmit => StartsKeep(s, a, c);
    case Accept => AcceptsKeep(s, a, c);
    case Enqueue => EnqueuesKeep(s, a, c);
    case Receive => DequeuesKeep(s, a, c);
    case DrainOne => DequeuesKeep(s, a, c);
    case Release => ReleasesKeep(s, a, c);
    case Reject => RejectsKeep(s, a, c);
    case CloseRefused => ClosesKeep(s, a, c);
    case CloseDrained => ClosesKeep(s, a, c);
    case ReleaseRefused => DropsKeep(s, a, c);
    case ReleaseDrained => DropsKeep(s, a, c);
    case Handle(_) => HandlesKeep(s, a, c);
    case CloseHandled(_) => WorkerClosesKeep(s, a, c);
    case Finish(_) => FinishesKeep(s, a, c);
  }

  predicate Steady(a: Action) {
    || a.SubmitFails? || a.RejectFull? || a.ResubmitFails? || a.CloseRefused? || a.CloseDrained? || a.CloseHandled?
    || a.BeginDrain? || a.EndDrain? || a.Stop? || a.Drain? || a.Cancel?
  }

  predicate Starting(a: Action) {
    a.Accept? || a.Add? || a.Submit? || a.Resubmit?
  }

  predicate Queueing(a: Action) {
    a.Enqueue? || a.HandOver? || a.Receive? || a.DrainOne?
  }

  lemma SteadyKeepsCount(s: State, a: Action)
    requires Enabled(s, a) && Counted(s) && Steady(a)
    ensures Counted(Do(s, a)) && Do(s, a).base == s.base && Do(s, a).capacity == s.capacity
  {
  }

  lemma StartingKeepsCount(s: State, a: Action)
    requires Enabled(s, a) && Counted(s) && Starting(a)
    ensures Counted(Do(s, a)) && Do(s, a).base == s.base && Do(s, a).capacity == s.capacity
  {
  }

  lemma QueueingKeepsCount(s: State, a: Action)
    requires Enabled(s, a) && Counted(s) && Queueing(a)
    ensures Counted(Do(s, a)) && Do(s, a).base == s.base && Do(s, a).capacity == s.capacity
  {
  }

  predicate Dropping(a: Action) {
    a.Release? || a.Reject? || a.ReleaseRefused? || a.ReleaseDrained?
  }

  lemma DroppingKeepsCount(s: State, a: Action)
    requires Enabled(s, a) && Counted(s) && Dropping(a)
    ensures Counted(Do(s, a)) && Do(s, a).base == s.base && Do(s, a).capacity == s.capacity
  {
  }

  lemma WorkerKeepsCount(s: State, a: Action)
    requires Enabled(s, a) && Counted(s) && (a.Handle? || a.Finish?)
    ensures Counted(Do(s, a)) && Do(s, a).base == s.base && Do(s, a).capacity == s.capacity
  {
  }

  lemma StepKeepsCount(s: State, a: Action)
    requires Enabled(s, a) && Counted(s)
    ensures Counted(Do(s, a)) && Do(s, a).base == s.base && Do(s, a).capacity == s.capacity
  {
    hide Counted, Do, Enabled;
    if Steady(a) {
      SteadyKeepsCount(s, a);
    } else if Starting(a) {
      StartingKeepsCount(s, a);
    } else if Queueing(a) {
      QueueingKeepsCount(s, a);
    } else if Dropping(a) {
      DroppingKeepsCount(s, a);
    } else {
      WorkerKeepsCount(s, a);
    }
  }

  lemma {:induction false} RunKeepsInv(s: State, actions: seq<Action>, c: nat)
    requires Runs(s, actions) && InvOf(s, c) && Counted(s)
    ensures InvOf(Final(s, actions), c) && Counted(Final(s, actions)) && Final(s, actions).base == s.base
    decreases |actions|
  {
    hide InvOf, Counted, Do, Enabled;
    if actions != [] {
      StepKeepsInv(s, actions[0], c);
      StepKeepsCount(s, actions[0]);
      RunKeepsInv(Do(s, actions[0]), actions[1..], c);
    }
  }

  // ---------------------------------------------------------------------------
  // Theorems

  datatype Phase = PhasePlacing | PhaseQueued | PhaseHandled | PhaseFinished

  predicate InPhase(s: State, c: nat, p: Phase) {
    match p
    case PhasePlacing => Placing(s.acceptor, c) || Taken(s.processor, c)
    case PhaseQueued => c in s.queue
    case PhaseHandled => c in s.running || c in s.closing
    case PhaseFinished => c in s.finished
  }

  /**
   In every interleaving: an accepted connection is in exactly one phase, in one place;
   the WaitGroup holds one unit for each connection from its `Add` until its one `Done`
   - for all that are not finished, but for the one before its `Add` or between its
   `Done` and its `Close` in the accept loop.  A connection is not closed while it is
   being placed or is queued; when it is finished, it has been closed exactly once if no
   worker got it (rejected, refused or drained), and at least once otherwise.
   */
  lemma {:induction false} HandedOverOnce(capacity: nat, base: nat, actions: seq<Action>, c: nat)
    requires Runs(Init(capacity, base), actions)
    ensures var s := Final(Init(capacity, base), actions);
      && s.wg - base == AllUnits(s) == s.accepted - |s.finished| - Once(s.acceptor.Adding? || s.acceptor.Rejecting?)
      && (c < s.accepted ==>
          Places(s, c) == 1 && exists p :: InPhase(s, c, p) && forall q :: InPhase(s, c, q) ==> q == p)
      && (c >= s.accepted ==> forall q :: !InPhase(s, c, q))
      && s.released[c] <= 1 && Units(s, c) <= 1
      && (c in s.finished ==> s.released[c] == 1 && Units(s, c) == 0)
      && (c !in s.handled ==> s.closes[c] <= 1 && (c in s.finished ==> s.closes[c] == 1))
      && (c in s.handled ==> InPhase(s, c, PhaseHandled) || (c in s.finished && s.closes[c] >= 1))
      && (InPhase(s, c, PhaseHandled) ==> c in s.handled)
      && (Placing(s.acceptor, c) || c in s.queue ==> s.closes[c] == 0)
  {
    InitInv(capacity, base, c);
    RunKeepsInv(Init(capacity, base), actions, c);
    PhaseOf(Final(Init(capacity, base), actions), c);
  }

  lemma PhaseOf(s: State, c: nat)
    requires InvOf(s, c)
    ensures c < s.accepted ==> exists p :: InPhase(s, c, p) && forall q :: InPhase(s, c, q) ==> q == p
    ensures c >= s.accepted ==> forall q :: !InPhase(s, c, q)
  {
    if c < s.accepted {
      var p := if Placing(s.acceptor, c) || Taken(s.processor, c) then PhasePlacing
        else if c in s.queue then PhaseQueued
        else if c in s.finished then PhaseFinished
        else PhaseHandled;
      assert InPhase(s, c, p) && forall q :: InPhase(s, c, q) ==> q == p;
    }
  }

  /**
   When both loops have ended and every worker is done, the WaitGroup is back at its
   base exactly if nothing was put into the queue after the processor had drained it.
   */
  lemma {:induction false} QuietGateway(capacity: nat, base: nat, actions: seq<Action>)
    requires Runs(Init(capacity, base), actions)
    ensures var s := Final(Init(capacity, base), actions);
      s.acceptor.Stopped? && s.processor.Returned? && s.running == multiset{} && s.closing == multiset{} ==>
      s.wg == base + |s.late| && s.queue == s.late
  {
    InitInv(capacity, base, 0);
    RunKeepsInv(Init(capacity, base), actions, 0);
  }

  /** Once the processor has returned, what is queued stays queued and keeps its unit. */
  lemma {:induction false} LateIsStuck(s: State, actions: seq<Action>)
    requires Runs(s, actions) && s.processor.Returned?
    ensures var s' := Final(s, actions);
      s'.processor.Returned? && s.queue <= s'.queue && forall c :: c in s.queue ==> Units(s', c) >= 1
    decreases |actions|
  {
    if actions != [] {
      LateIsStuck(Do(s, actions[0]), actions[1..]);
    }
  }

  /** The interleaving that does so: the context is cancelled between a refused submit and the enqueue. */
  const LateEnqueue: seq<Action> := [Accept, Add, SubmitFails, Drain, Cancel, BeginDrain, EndDrain, Enqueue, Stop]

  lemma {:induction false} RunOn(s: State, xs: seq<Action>, ys: seq<Action>)
    requires Runs(s, xs) && Runs(Final(s, xs), ys)
    ensures Runs(s, xs + ys) && Final(s, xs + ys) == Final(Final(s, xs), ys)
    decreases |xs|
  {
    hide Do, Enabled;
    if xs == [] {
      assert xs + ys == ys;
    } else {
      RunOn(Do(s, xs[0]), xs[1..], ys);
      assert (xs + ys)[1..] == xs[1..] + ys;
    }
  }

  /** `actions` lead from `s` to `t`. */
  predicate Leads(s: State, actions: seq<Action>, t: State) {
    Runs(s, actions) && Final(s, actions) == t
  }

  lemma {:induction false} ThreeSteps(s: State, a: Action, b: Action, c: Action)
    requires Enabled(s, a) && Enabled(Do(s, a), b) && Enabled(Do(Do(s, a), b), c)
    ensures Leads(s, [a, b, c], Do(Do(Do(s, a), b), c))
  {
    hide Do, Enabled;
    var s1, s2 := Do(s, a), Do(Do(s, a), b);
    assert [a, b, c][1..] == [b, c] && [b, c][1..] == [c] && [c][1..] == [];
    assert Leads(Do(s2, c), [], Do(s2, c));
    assert Leads(s2, [c], Do(s2, c));
    assert Leads(s1, [b, c], Do(s2, c));
  }

  /** The connection has been refused by the pool. */
  function RefusedByPool(capacity: nat, base: nat): State {
    Init(capacity, base).(acceptor := Enqueueing(0), wg := base + 1, accepted := 1)
  }

  /** And now the processor has seen the cancelled context. */
  function Cancelled(capacity: nat, base: nat): State {
    RefusedByPool(capacity, base).(draining := true, cancelled := true, processor := Draining)
  }

  lemma ToRefused(capacity: nat, base: nat)
    ensures Leads(Init(capacity, base), [Accept, Add, SubmitFails], RefusedByPool(capacity, base))
  {
    hide Leads;
    ThreeSteps(Init(capacity, base), Accept, Add, SubmitFails);
  }

  lemma ToCancelled(capacity: nat, base: nat)
    ensures Leads(RefusedByPool(capacity, base), [Drain, Cancel, BeginDrain], Cancelled(capacity, base))
  {
    hide Leads;
    ThreeSteps(RefusedByPool(capacity, base), Drain, Cancel, BeginDrain);
  }

  lemma ToStuck(capacity: nat, base: nat) returns (t: State)
    requires capacity > 0
    ensures Leads(Cancelled(capacity, base), [EndDrain, Enqueue, Stop], t)
    ensures t.acceptor.Stopped? && t.processor.Returned? && t.late == [0] && t.wg == base + 1
  {
    hide Leads;
    var s := Cancelled(capacity, base);
    ThreeSteps(s, EndDrain, Enqueue, Stop);
    t := Do(Do(Do(s, EndDrain), Enqueue), Stop);
  }

  lemma {:induction false} LateEnqueueHappens(capacity: nat, base: nat)
    requires capacity > 0
    ensures Runs(Init(capacity, base), LateEnqueue)
    ensures var s := Final(Init(capacity, base), LateEnqueue);
      s.acceptor.Stopped? && s.processor.Returned? && s.late == [0] && s.wg == base + 1
  {
    hide Runs, Final, Init, RefusedByPool, Cancelled;
    var s, s1 := Init(capacity, base), RefusedByPool(capacity, base);
    ToRefused(capacity, base);
    ToCancelled(capacity, base);
    var t := ToStuck(capacity, base);
    RunOn(s1, [Drain, Cancel, BeginDrain], [EndDrain, Enqueue, Stop]);
    RunOn(s, [Accept, Add, SubmitFails], [Drain, Cancel, BeginDrain] + [EndDrain, Enqueue, Stop]);
    assert LateEnqueue == [Accept, Add, SubmitFails] + ([Drain, Cancel, BeginDrain] + [EndDrain, Enqueue, Stop]);
  }

  // ---------------------------------------------------------------------------
  // Order and guards

  /** What a step puts into the queue; a hand-over passes through it. */
  function Enqueued(s: State, a: Action): seq<nat>
    requires Enabled(s, a)
  {
    if a.Enqueue? || a.HandOver? then [s.acceptor.conn] else []
  }

  /** What the processor comes to hold by a step. */
  function TakenUp(s: State, a: Action): seq<nat>
    requires Enabled(s, a)
  {
    var p := Do(s, a).processor;
    if !ProcessorUnit(s.processor) && ProcessorUnit(p) then [p.conn] else []
  }

  function AllEnqueued(s: State, actions: seq<Action>): seq<nat>
    requires Runs(s, actions)
    decreases |actions|
  {
    if actions == [] then [] else Enqueued(s, actions[0]) + AllEnqueued(Do(s, actions[0]), actions[1..])
  }

  function AllTaken(s: State, actions: seq<Action>): seq<nat>
    requires Runs(s, actions)
    decreases |actions|
  {
    if actions == [] then [] else TakenUp(s, actions[0]) + AllTaken(Do(s, actions[0]), actions[1..])
  }

  predicate ByAcceptor(a: Action) {
    || a.Accept? || a.Add? || a.Submit? || a.SubmitFails? || a.Enqueue? || a.HandOver? || a.RejectFull?
    || a.Release? || a.Reject? || a.Stop?
  }

  lemma NotQueueingAcceptor(s: State, a: Action)
    requires Enabled(s, a) && !Queueing(a) && ByAcceptor(a)
    ensures Enqueued(s, a) == [] && TakenUp(s, a) == [] && Do(s, a).queue == s.queue
  {
  }

  lemma NotQueueingOthers(s: State, a: Action)
    requires Enabled(s, a) && !Queueing(a) && !ByAcceptor(a)
    ensures Enqueued(s, a) == [] && TakenUp(s, a) == [] && Do(s, a).queue == s.queue
  {
  }

  lemma QueueingMoves(s: State, a: Action)
    requires Enabled(s, a) && Queueing(a)
    ensures s.queue + Enqueued(s, a) == TakenUp(s, a) + Do(s, a).queue
  {
    if a.Receive? || a.DrainOne? {
      assert s.queue == [s.queue[0]] + s.queue[1..];
    }
  }

  lemma FifoStep(s: State, a: Action)
    requires Enabled(s, a)
    ensures s.queue + Enqueued(s, a) == TakenUp(s, a) + Do(s, a).queue
  {
    hide Do, Enabled, Enqueued, TakenUp;
    if Queueing(a) {
      QueueingMoves(s, a);
    } else if ByAcceptor(a) {
      NotQueueingAcceptor(s, a);
    } else {
      NotQueueingOthers(s, a);
    }
  }

  lemma Chain(q: seq<nat>, e: seq<nat>, es: seq<nat>, t: seq<nat>, ts: seq<nat>, q': seq<nat>, last: seq<nat>)
    requires q + e == t + q' && q' + es == ts + last
    ensures q + (e + es) == t + ts + last
  {
    assert q + (e + es) == (q + e) + es;
    assert (t + q') + es == t + (q' + es);
    assert t + (ts + last) == t + ts + last;
  }

  lemma {:induction false} FifoRun(s: State, actions: seq<Action>)
    requires Runs(s, actions)
    ensures s.queue + AllEnqueued(s, actions) == AllTaken(s, actions) + Final(s, actions).queue
    decreases |actions|
  {
    hide Do, Enabled, Enqueued, TakenUp;
    if actions != [] {
      var a, s', more := actions[0], Do(s, actions[0]), actions[1..];
      FifoStep(s, a);
      FifoRun(s', more);
      Chain(s.queue, Enqueued(s, a), AllEnqueued(s', more), TakenUp(s, a), AllTaken(s', more), s'.queue,
            Final(s', more).queue);
    }
  }

  /** The accept loop places the latest connection. */
  predicate PlacesLatest(s: State) {
    !s.acceptor.Accepting? && !s.acceptor.Stopped? ==> s.acceptor.conn + 1 == s.accepted
  }

  /** No connection below this one is enqueued any more. */
  function NextPlaced(s: State): nat {
    if s.acceptor.Accepting? || s.acceptor.Stopped? || s.accepted == 0 then s.accepted else s.accepted - 1
  }

  predicate Increasing(xs: seq<nat>, from: nat) {
    (forall i :: 0 <= i < |xs| ==> xs[i] >= from) && (forall i, j :: 0 <= i < j < |xs| ==> xs[i] < xs[j])
  }

  lemma OthersLeaveAcceptor(s: State, a: Action)
    requires Enabled(s, a) && !ByAcceptor(a)
    ensures Do(s, a).acceptor == s.acceptor && Do(s, a).accepted == s.accepted && Enqueued(s, a) == []
  {
  }

  lemma AcceptorLeavesProcessor(s: State, a: Action)
    requires Enabled(s, a) && ByAcceptor(a) && !a.HandOver?
    ensures Do(s, a).processor == s.processor && Do(s, a).cancelled == s.cancelled && Do(s, a).draining == s.draining
    ensures Do(s, a).acceptor.Stopped? ==> a.Stop?
  {
  }

  lemma AcceptorPlaces(s: State, a: Action)
    requires Enabled(s, a) && PlacesLatest(s) && ByAcceptor(a)
    ensures var s' := Do(s, a);
      && PlacesLatest(s') && NextPlaced(s') >= NextPlaced(s)
      && (Enqueued(s, a) == [] || (Enqueued(s, a) == [NextPlaced(s)] && NextPlaced(s') > NextPlaced(s)))
  {
  }

  lemma PlacesStep(s: State, a: Action)
    requires Enabled(s, a) && PlacesLatest(s)
    ensures var s' := Do(s, a);
      && PlacesLatest(s') && NextPlaced(s') >= NextPlaced(s)
      && (Enqueued(s, a) == [] || (Enqueued(s, a) == [NextPlaced(s)] && NextPlaced(s') > NextPlaced(s)))
  {
    hide Do, Enabled, Enqueued, ByAcceptor;
    if ByAcceptor(a) {
      AcceptorPlaces(s, a);
    } else {
      OthersLeaveAcceptor(s, a);
    }
  }

  lemma {:induction false} EnqueuedIncreasing(s: State, actions: seq<Action>)
    requires Runs(s, actions) && PlacesLatest(s)
    ensures Increasing(AllEnqueued(s, actions), NextPlaced(s))
    decreases |actions|
  {
    hide Do, Enabled, Enqueued, NextPlaced, PlacesLatest;
    if actions != [] {
      PlacesStep(s, actions[0]);
      EnqueuedIncreasing(Do(s, actions[0]), actions[1..]);
    }
  }

  /** In every interleaving, connections leave the queue in the order they entered it, which is that of acceptance. */
  lemma {:induction false} QueueIsFifo(capacity: nat, base: nat, actions: seq<Action>)
    requires Runs(Init(capacity, base), actions)
    ensures var s := Init(capacity, base);
      && AllEnqueued(s, actions) == AllTaken(s, actions) + Final(s, actions).queue
      && Increasing(AllEnqueued(s, actions), 0)
  {
    hide Runs, Final, AllEnqueued, AllTaken;
    var s := Init(capacity, base);
    FifoRun(s, actions);
    EnqueuedIncreasing(s, actions);
    assert [] + AllEnqueued(s, actions) == AllEnqueued(s, actions);
  }

  /** A connection is rejected only by a step at which the queue is full, and queued only at one at which it is not. */
  lemma RejectedOnlyWhenFull(s: State, a: Action)
    requires Enabled(s, a) && s.acceptor.Enqueueing? && !Do(s, a).acceptor.Enqueueing?
    ensures Do(s, a).acceptor.Releasing? ==> |s.queue| >= s.capacity
    ensures |Do(s, a).queue| > |s.queue| ==> |s.queue| < s.capacity
  {
  }

  /** The loops end, and the queue is drained, only when the gateway shuts down. */
  predicate ToldToStop(s: State) {
    && (s.acceptor.Stopped? ==> s.draining || s.cancelled)
    && (s.processor.Draining? || s.processor.Drained? || s.processor.DrainedClosed? || s.processor.Returned? ==>
          s.cancelled)
    && (s.cancelled ==> s.draining)
  }

  lemma OthersToldToStop(s: State, a: Action)
    requires Enabled(s, a) && ToldToStop(s) && (!ByAcceptor(a) || a.HandOver? || a.Stop?)
    ensures ToldToStop(Do(s, a))
  {
  }

  lemma StopStep(s: State, a: Action)
    requires Enabled(s, a) && ToldToStop(s)
    ensures ToldToStop(Do(s, a))
  {
    hide Do, Enabled;
    if ByAcceptor(a) && !a.HandOver? && !a.Stop? {
      AcceptorLeavesProcessor(s, a);
    } else {
      OthersToldToStop(s, a);
    }
  }

  lemma {:induction false} StopsOnlyWhenTold(s: State, actions: seq<Action>)
    requires Runs(s, actions) && ToldToStop(s)
    ensures ToldToStop(Final(s, actions))
    decreases |actions|
  {
    hide Do, Enabled, ToldToStop;
    if actions != [] {
      StopStep(s, actions[0]);
      StopsOnlyWhenTold(Do(s, actions[0]), actions[1..]);
    }
  }
}
