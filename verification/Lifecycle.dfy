/**
 Admission and drain of a managed server: request handlers that register under a lock, any
 number of Shutdown calls, and one waiter that closes `done` after the last handler left.
 */
module Lifecycle {

  /** A request: before the lock, refused, registered but not yet in the wrapped handler, running it, or finished. */
  datatype Request = Arrived | Refused | Registered | Running | Finished

  /** A Shutdown call, by the point it has reached; the last two record how it returned. */
  datatype Shutdown = Called | StoppingSet | Cancelled | ServerDown | Waiting | ReturnedDone | ReturnedExpired

  datatype Waiter = NotStarted | WaitingForHandlers | WaitOver | Closed

  datatype State = State(
    stopping: bool,
    handlers: nat,
    waiter: Waiter,
    closes: nat,
    contextCancelled: bool,
    requests: map<nat, Request>,
    shutdowns: map<nat, Shutdown>)

  datatype Action =
    | Arrive(i: nat)
    | Decide(i: nat)
    | EnterHandler(i: nat)
    | LeaveHandler(i: nat)
    | CallShutdown(j: nat)
    | SetStopping(j: nat)
    | CancelContext(j: nat)
    | StopServer(j: nat)
    | StartWaiter(j: nat)
    | ReturnDone(j: nat)
    | ReturnExpired(j: nat)
    | WaitReturns
    | CloseDone

  const INITIAL := State(false, 0, NotStarted, 0, false, map[], map[])

  predicate At(m: map<nat, Shutdown>, j: nat, p: Shutdown) {
    j in m && m[j] == p
  }

  predicate Is(m: map<nat, Request>, i: nat, p: Request) {
    i in m && m[i] == p
  }

  predicate Enabled(s: State, a: Action) {
    match a
    case Arrive(i) => i !in s.requests
    case Decide(i) => Is(s.requests, i, Arrived)
    case EnterHandler(i) => Is(s.requests, i, Registered)
    case LeaveHandler(i) => Is(s.requests, i, Running)
    case CallShutdown(j) => j !in s.shutdowns
    case SetStopping(j) => At(s.shutdowns, j, Called)
    case CancelContext(j) => At(s.shutdowns, j, StoppingSet)
    case StopServer(j) => At(s.shutdowns, j, Cancelled)
    case StartWaiter(j) => At(s.shutdowns, j, ServerDown)
    case ReturnDone(j) => At(s.shutdowns, j, Waiting) && s.closes > 0
    case ReturnExpired(j) => At(s.shutdowns, j, Waiting)
    case WaitReturns => s.waiter.WaitingForHandlers? && s.handlers == 0
    case CloseDone => s.waiter.WaitOver?
  }

  function SetRequest(s: State, i: nat, r: Request): State {
    s.(requests := s.requests[i := r])
  }

  function SetShutdown(s: State, j: nat, p: Shutdown): State {
    s.(shutdowns := s.shutdowns[j := p])
  }

  function Next(s: State, a: Action): State
    requires Enabled(s, a)
  {
    match a
    case Arrive(i) => SetRequest(s, i, Arrived)
    case Decide(i) =>
      if s.stopping then SetRequest(s, i, Refused)
      else SetRequest(s, i, Registered).(handlers := s.handlers + 1)
    case EnterHandler(i) => SetRequest(s, i, Running)
    case LeaveHandler(i) =>
      SetRequest(s, i, Finished).(handlers := if s.handlers > 0 then s.handlers - 1 else 0)
    case CallShutdown(j) => SetShutdown(s, j, Called)
    case SetStopping(j) => SetShutdown(s, j, StoppingSet).(stopping := true)
    case CancelContext(j) => SetShutdown(s, j, Cancelled).(contextCancelled := true)
    case StopServer(j) => SetShutdown(s, j, ServerDown)
    case StartWaiter(j) =>
      // the once: only the first call starts the waiter
      SetShutdown(s, j, Waiting).(waiter := if s.waiter.NotStarted? then WaitingForHandlers else s.waiter)
    case ReturnDone(j) => SetShutdown(s, j, ReturnedDone)
    case ReturnExpired(j) => SetShutdown(s, j, ReturnedExpired)
    case WaitReturns => s.(waiter := WaitOver)
    case CloseDone => s.(waiter := Closed, closes := s.closes + 1)
  }

  /** Requests that count in the wait group. */
  function Inside(s: State): set<nat> {
    set i | i in s.requests && (s.requests[i].Registered? || s.requests[i].Running?)
  }

  ghost predicate Inv(s: State) {
    && s.handlers == |Inside(s)|
    && (s.waiter.NotStarted? || s.stopping)
    && (s.waiter.WaitOver? || s.waiter.Closed? ==> Inside(s) == {})
    && s.closes == (if s.waiter.Closed? then 1 else 0)
    && (forall j :: j in s.shutdowns ==>
          && (!s.shutdowns[j].Called? ==> s.stopping)
          && (!s.shutdowns[j].Called? && !s.shutdowns[j].StoppingSet? ==> s.contextCancelled)
          && (s.shutdowns[j].ReturnedDone? ==> s.waiter.Closed?)
          && (s.shutdowns[j].Waiting? || s.shutdowns[j].ReturnedDone? || s.shutdowns[j].ReturnedExpired? ==>
                !s.waiter.NotStarted?))
  }

  lemma InsideAfter(s: State, a: Action)
    requires Inv(s) && Enabled(s, a)
    ensures var s' := Next(s, a);
            match a
            case Decide(i) =>
              if s.stopping then Inside(s') == Inside(s)
              else i !in Inside(s) && Inside(s') == Inside(s) + {i}
            case LeaveHandler(i) => i in Inside(s) && Inside(s') == Inside(s) - {i}
            case _ => Inside(s') == Inside(s)
  {
    hide Inside;
    match a {
      case Arrive(i) => InsideMoves(s, i, Arrived);
      case Decide(i) =>
        InsideMoves(s, i, if s.stopping then Refused else Registered);
        SameInside(Next(s, a), SetRequest(s, i, if s.stopping then Refused else Registered));
      case EnterHandler(i) => InsideMoves(s, i, Running);
      case LeaveHandler(i) =>
        InsideMoves(s, i, Finished);
        SameInside(Next(s, a), SetRequest(s, i, Finished));
      case _ => SameInside(s, Next(s, a));
    }
  }

  /** One request moves in or out, or stays where it was. */
  lemma InsideMoves(s: State, i: nat, r: Request)
    ensures Inside(SetRequest(s, i, r)) == if r.Registered? || r.Running? then Inside(s) + {i} else Inside(s) - {i}
    ensures i in Inside(s) <==> i in s.requests && (s.requests[i].Registered? || s.requests[i].Running?)
  {
  }

  lemma SameInside(s: State, s': State)
    ensures s.requests == s'.requests ==> Inside(s) == Inside(s')
  {
  }

  lemma StepKeepsInv(s: State, a: Action)
    requires Inv(s) && Enabled(s, a)
    ensures Inv(Next(s, a))
  {
    hide Inside;
    InsideAfter(s, a);
  }

  /** Any interleaving; an action that is not enabled is passed over. */
  function Step(s: State, a: Action): State {
    if Enabled(s, a) then Next(s, a) else s
  }

  function Execute(actions: seq<Action>): State {
    if actions == [] then INITIAL else Step(Execute(actions[..|actions| - 1]), actions[|actions| - 1])
  }

  lemma {:induction false} RunKeepsInv(actions: seq<Action>)
    ensures Inv(Execute(actions))
  {
    if actions == [] {
      assert Inside(INITIAL) == {};
    } else {
      var before := Execute(actions[..|actions| - 1]);
      RunKeepsInv(actions[..|actions| - 1]);
      if Enabled(before, actions[|actions| - 1]) {
        StepKeepsInv(before, actions[|actions| - 1]);
      }
    }
  }

  // ---------------------------------------------------------------- what every run keeps

  /** The wait only ever begins after admission was closed, so no registration follows it. */
  lemma WaitBeginsAfterStopping(actions: seq<Action>, i: nat)
    ensures var s := Execute(actions);
            !s.waiter.NotStarted? ==>
              && s.stopping
              && (Enabled(s, Decide(i)) ==> Next(s, Decide(i)).requests[i].Refused?)
  {
    RunKeepsInv(actions);
  }

  /** The locked decision: before the first Shutdown has set the flag every arrival is registered, after it none is. */
  lemma DecisionIs(s: State, i: nat)
    requires Enabled(s, Decide(i))
    ensures var s' := Next(s, Decide(i));
            && i in s'.requests && s'.stopping == s.stopping
            && (!s.stopping ==> s'.requests[i] == Registered && s'.handlers == s.handlers + 1)
            && (s.stopping ==> s'.requests[i] == Refused && s'.handlers == s.handlers)
  {
  }

  /** A request that is not inside by the time the flag is set, because it has not been decided or comes later. */
  predicate Outside(s: State, i: nat) {
    s.stopping && (i !in s.requests || s.requests[i].Arrived? || s.requests[i].Refused?)
  }

  lemma StepKeepsOutside(s: State, a: Action, i: nat)
    requires Outside(s, i)
    ensures Outside(Step(s, a), i)
  {
  }

  lemma {:induction false} StaysOutside(actions: seq<Action>, more: seq<Action>, i: nat)
    requires Outside(Execute(actions), i)
    ensures Outside(Execute(actions + more), i)
  {
    hide Outside, Step;
    if more == [] {
      assert actions + more == actions;
    } else {
      var last := |more| - 1;
      StaysOutside(actions, more[..last], i);
      assert (actions + more)[..|actions + more| - 1] == actions + more[..last];
      StepKeepsOutside(Execute(actions + more[..last]), more[last], i);
    }
  }

  /** Admission, once closed, stays closed: a request undecided by then is never let in, whatever follows. */
  lemma RefusedForEver(actions: seq<Action>, more: seq<Action>, i: nat)
    requires var s := Execute(actions);
             (exists j :: j in s.shutdowns && s.shutdowns[j] != Called)
             && (i in s.requests ==> s.requests[i] == Arrived || s.requests[i] == Refused)
    ensures var s := Execute(actions + more);
            s.stopping && (i in s.requests ==> s.requests[i] == Arrived || s.requests[i] == Refused)
  {
    RunKeepsInv(actions);
    StaysOutside(actions, more, i);
  }

  /** `done` is closed at most once in any run. */
  lemma DoneClosedOnce(actions: seq<Action>)
    ensures Execute(actions).closes <= 1
  {
    RunKeepsInv(actions);
  }

  lemma StepKeepsCloses(s: State, a: Action)
    requires Enabled(s, a)
    ensures Next(s, a).closes >= s.closes
  {
  }

  lemma {:induction false} ClosedStaysClosed(actions: seq<Action>, more: seq<Action>)
    ensures Execute(actions + more).closes >= Execute(actions).closes
  {
    hide Inv, Next, Enabled;
    if more == [] {
      assert actions + more == actions;
    } else {
      var last := |more| - 1;
      ClosedStaysClosed(actions, more[..last]);
      assert (actions + more)[..|actions + more| - 1] == actions + more[..last];
      var before := Execute(actions + more[..last]);
      if Enabled(before, more[last]) {
        StepKeepsCloses(before, more[last]);
      }
    }
  }

  /** After `done` is closed no wrapped handler is registered or running, and none is after any further steps. */
  lemma DrainedForEver(actions: seq<Action>, more: seq<Action>, i: nat)
    requires Execute(actions).closes > 0
    ensures var s := Execute(actions + more);
            s.closes == 1 && !Is(s.requests, i, Registered) && !Is(s.requests, i, Running)
  {
    ClosedStaysClosed(actions, more);
    RunKeepsInv(actions + more);
    hide Execute;
    assert i !in Inside(Execute(actions + more));
  }

  /** A Shutdown that returns because `done` was closed returns to a drained server whose context is cancelled. */
  lemma CleanReturnMeansDrained(actions: seq<Action>, j: nat)
    requires At(Execute(actions).shutdowns, j, ReturnedDone)
    ensures var s := Execute(actions);
            s.stopping && s.contextCancelled && s.handlers == 0 && Inside(s) == {}
  {
    RunKeepsInv(actions);
  }

  /** Every Shutdown that has got as far as waiting has a waiter, and once the handlers are gone it can finish. */
  lemma WaitersCanFinish(actions: seq<Action>, j: nat)
    requires At(Execute(actions).shutdowns, j, Waiting) && Inside(Execute(actions)) == {}
    ensures var s := Execute(actions);
            Enabled(s, WaitReturns) || Enabled(s, CloseDone) || Enabled(s, ReturnDone(j))
  {
    RunKeepsInv(actions);
  }

  /** The handler count never goes below zero: each registered handler leaves exactly once. */
  lemma LeaveNeverUnderflows(actions: seq<Action>, i: nat)
    requires Enabled(Execute(actions), LeaveHandler(i))
    ensures Execute(actions).handlers > 0
  {
    RunKeepsInv(actions);
    assert i in Inside(Execute(actions));
  }
}
