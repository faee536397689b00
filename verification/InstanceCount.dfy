/**
 The process-wide instance gauges under concurrent constructors and closers: an atomic add,
 a compare-and-swap loop for the high-water mark, and one decrement per closed instance.
 */
module InstanceCount {
  import opened Common

  /** One instance: inside its constructor's loop (before or after the load), usable, or closed. */
  datatype Life =
    | Counted(mine: int, startPeak: int, retries: nat)
    | Loaded(mine: int, startPeak: int, retries: nat, seen: int)
    | Live
    | Closed

  /** The two gauges, every instance so far, and the true high-water mark of `active`. */
  datatype State = State(active: int, peak: int, lives: map<nat, Life>, high: int)

  datatype Action = Add(i: nat) | LoadPeak(i: nat) | CompareAndSwap(i: nat) | Close(i: nat)

  const INITIAL := State(0, 0, map[], 0)

  predicate InLoop(l: Life) {
    l.Counted? || l.Loaded?
  }

  function Open(s: State): set<nat> {
    set i | i in s.lives && s.lives[i] != Closed
  }

  predicate Enabled(s: State, a: Action) {
    match a
    case Add(i) => i !in s.lives
    case LoadPeak(i) => i in s.lives && s.lives[i].Counted?
    case CompareAndSwap(i) => i in s.lives && s.lives[i].Loaded?
    case Close(i) => i in s.lives && (s.lives[i].Live? || s.lives[i].Closed?)
  }

  function Next(s: State, a: Action): State
    requires Enabled(s, a)
  {
    match a
    case Add(i) =>
      var now := s.active + 1;
      State(now, s.peak, s.lives[i := Counted(now, s.peak, 0)], Max(s.high, now))
    case LoadPeak(i) =>
      var l := s.lives[i];
      s.(lives := s.lives[i := Loaded(l.mine, l.startPeak, l.retries, s.peak)])
    case CompareAndSwap(i) =>
      var l := s.lives[i];
      if l.mine <= l.seen then s.(lives := s.lives[i := Live])
      else if s.peak == l.seen then s.(peak := l.mine, lives := s.lives[i := Live])
      else s.(lives := s.lives[i := Counted(l.mine, l.startPeak, l.retries + 1)])
    case Close(i) =>
      if s.lives[i].Closed? then s
      else s.(active := s.active - 1, lives := s.lives[i := Closed])
  }

  predicate Bounded(s: State, l: Life) {
    && (InLoop(l) ==>
          l.mine <= s.high && l.startPeak + l.retries <= s.peak && l.retries <= Max(0, l.mine - l.startPeak))
    && (l.Loaded? ==> l.startPeak + l.retries <= l.seen <= s.peak)
  }

  /** A constructor still in its loop is about to publish a mark above the current peak. */
  ghost predicate MarkPending(s: State) {
    exists i :: i in s.lives && InLoop(s.lives[i]) && s.lives[i].mine == s.high
  }

  ghost predicate Inv(s: State) {
    && s.active == |Open(s)|
    && s.peak <= s.high
    && s.active <= s.high
    && (s.peak == s.high || MarkPending(s))
    && forall i :: i in s.lives ==> Bounded(s, s.lives[i])
  }

  lemma StepKeepsInv(s: State, a: Action)
    requires Inv(s) && Enabled(s, a)
    ensures Inv(Next(s, a))
  {
    match a
    case Add(i) => AddKeepsInv(s, i);
    case Close(i) => CloseKeepsInv(s, i);
    case _ => LoopKeepsInv(s, a);
  }

  lemma AddKeepsInv(s: State, i: nat)
    requires Inv(s) && Enabled(s, Add(i))
    ensures Inv(Next(s, Add(i)))
  {
    hide MarkPending;
    var s' := Next(s, Add(i));
    assert Open(s') == Open(s) + {i};
    if s'.high == s.high {
      NewMark(s, s', i);
    } else {
      MarkIs(s', i);
    }
  }

  lemma MarkIs(s: State, i: nat)
    requires i in s.lives && InLoop(s.lives[i]) && s.lives[i].mine == s.high
    ensures MarkPending(s)
  {
  }

  lemma NewMark(s: State, s': State, i: nat)
    requires s.peak == s.high || MarkPending(s)
    requires i !in s.lives && s'.peak == s.peak && s'.high == s.high && i in s'.lives
    requires s'.lives == s.lives[i := s'.lives[i]]
    ensures s'.peak == s'.high || MarkPending(s')
  {
    if s.peak != s.high {
      var j :| j in s.lives && InLoop(s.lives[j]) && s.lives[j].mine == s.high;
      MarkIs(s', j);
    }
  }

  lemma CloseKeepsInv(s: State, i: nat)
    requires Inv(s) && Enabled(s, Close(i))
    ensures Inv(Next(s, Close(i)))
  {
    hide MarkPending;
    var s' := Next(s, Close(i));
    if s' != s {
      assert Open(s') == Open(s) - {i};
      KeepsMark(s, s', i);
    }
  }

  lemma LoopKeepsInv(s: State, a: Action)
    requires Inv(s) && Enabled(s, a) && (a.LoadPeak? || a.CompareAndSwap?)
    ensures Inv(Next(s, a))
  {
    hide MarkPending;
    var s' := Next(s, a);
    assert Open(s') == Open(s);
    assert Bounded(s, s.lives[a.i]);
    KeepsMark(s, s', a.i);
  }

  /** Only the instance that moves can settle a pending mark. */
  lemma KeepsMark(s: State, s': State, i: nat)
    requires s.peak == s.high || MarkPending(s)
    requires s'.high == s.high && s.peak <= s'.peak <= s'.high
    requires i in s.lives && i in s'.lives && s'.lives == s.lives[i := s'.lives[i]]
    requires InLoop(s.lives[i]) ==>
               s'.peak >= s.lives[i].mine || (InLoop(s'.lives[i]) && s'.lives[i].mine == s.lives[i].mine)
    ensures s'.peak == s'.high || MarkPending(s')
  {
    if s.peak != s.high {
      var j :| j in s.lives && InLoop(s.lives[j]) && s.lives[j].mine == s.high;
      assert j == i || s'.lives[j] == s.lives[j];
    }
  }

  /** Any interleaving; an action that is not enabled is passed over. */
  function Step(s: State, a: Action): State {
    if Enabled(s, a) then Next(s, a) else s
  }

  function Execute(actions: seq<Action>): State {
    if actions == [] then INITIAL else Step(Execute(actions[..|actions| - 1]), actions[|actions| - 1])
  }

  lemma {:induction false} RunKeepsInv(actions: seq<Action>)
    ensures Inv(Execute(actions))
  {
    if actions != [] {
      var before := Execute(actions[..|actions| - 1]);
      RunKeepsInv(actions[..|actions| - 1]);
      if Enabled(before, actions[|actions| - 1]) {
        StepKeepsInv(before, actions[|actions| - 1]);
      }
    }
  }

  /** The largest value `active` has had along a run. */
  ghost function HighWater(actions: seq<Action>): int {
    if actions == [] then 0 else Max(HighWater(actions[..|actions| - 1]), Execute(actions).active)
  }

  lemma {:induction false} HighIsHighWater(actions: seq<Action>)
    ensures Execute(actions).high == HighWater(actions)
  {
    if actions != [] {
      HighIsHighWater(actions[..|actions| - 1]);
    }
  }

  /** In every run the gauge counts the instances that are counted and not closed. */
  lemma ActiveCountsOpenInstances(actions: seq<Action>)
    ensures Execute(actions).active == |Open(Execute(actions))|
  {
    RunKeepsInv(actions);
  }

  /** The published peak never exceeds the true high-water mark, and equals it when no constructor is in its loop. */
  lemma PeakIsHighWater(actions: seq<Action>)
    ensures var s := Execute(actions);
            && s.peak <= HighWater(actions)
            && ((forall i :: i in s.lives ==> !InLoop(s.lives[i])) ==> s.peak == HighWater(actions))
  {
    HighIsHighWater(actions);
    RunKeepsInv(actions);
  }

  /** A failed swap means another constructor raised the peak, so the loop of each ends within its distance to go. */
  lemma RetriesAreBounded(actions: seq<Action>, i: nat)
    requires i in Execute(actions).lives && InLoop(Execute(actions).lives[i])
    ensures var s := Execute(actions);
            var l := s.lives[i];
            && l.retries <= Max(0, l.mine - l.startPeak)
            && (l.Loaded? && l.mine > l.seen && s.peak != l.seen ==> l.mine - s.peak < l.mine - l.seen)
  {
    RunKeepsInv(actions);
    assert Bounded(Execute(actions), Execute(actions).lives[i]);
  }

  /** An instance that has been closed stays closed, and closing it again changes nothing. */
  lemma ReleasedOnce(s: State, a: Action, i: nat)
    requires Inv(s) && Enabled(s, a) && i in s.lives && s.lives[i].Closed?
    ensures i in Next(s, a).lives && Next(s, a).lives[i].Closed?
    ensures a == Close(i) ==> Next(s, a) == s
  {
  }

  /** Closing a usable instance gives back exactly one. */
  lemma CloseGivesBackOne(s: State, i: nat)
    requires Inv(s) && i in s.lives && s.lives[i] == Live
    ensures Enabled(s, Close(i))
    ensures var s' := Next(s, Close(i));
            && s'.active == s.active - 1 >= 0 && s'.peak == s.peak
            && i in s'.lives && s'.lives[i] == Closed
            && Open(s') == Open(s) - {i}
  {
    assert i in Open(s);
  }

  /** Without interference the three steps of a constructor have the effect of one call of the gauges' registration. */
  lemma SoloIsRegister(s: State, i: nat)
    requires i !in s.lives
    ensures var s' := Step(Step(Step(s, Add(i)), LoadPeak(i)), CompareAndSwap(i));
            && s'.active == s.active + 1
            && s'.peak == Max(s.peak, s'.active)
            && s'.lives == s.lives[i := Live]
  {
    var s' := Step(Step(Step(s, Add(i)), LoadPeak(i)), CompareAndSwap(i));
    assert s'.lives == s.lives[i := Live];
  }
}
