/**
 The two admission budgets: bounded leases and bounded memory, three counted refusals, running
 peaks, and a release that counts once. `Counters` is what both objects hold; the leases behind
 them are the abstract machine they implement.
 */
module Admission {
  import opened Common

  const STATUS_OK := 0
  const STATUS_TOO_LARGE := 413
  const STATUS_UNAVAILABLE := 503

  datatype Counters = Counters(
    maxActive: int,
    maxMemory: int,
    active: int,
    reserved: int,
    peakActive: int,
    peakReserved: int,
    rejectedActive: nat,
    rejectedMemory: nat,
    rejectedSize: nat)

  datatype Verdict = Admitted | TooLarge | TooMany | MemoryFull

  function New(maxActive: int, maxMemory: int): Counters {
    Counters(maxActive, maxMemory, 0, 0, 0, 0, 0, 0, 0)
  }

  function Decide(c: Counters, needed: int): Verdict {
    if needed <= 0 || needed > c.maxMemory then TooLarge
    else if c.active >= c.maxActive then TooMany
    else if needed > c.maxMemory - c.reserved then MemoryFull
    else Admitted
  }

  function Grant(c: Counters, needed: int): Counters {
    match Decide(c, needed)
    case TooLarge => c.(rejectedSize := c.rejectedSize + 1)
    case TooMany => c.(rejectedActive := c.rejectedActive + 1)
    case MemoryFull => c.(rejectedMemory := c.rejectedMemory + 1)
    case Admitted =>
      c.(active := c.active + 1, reserved := c.reserved + needed,
         peakActive := Max(c.peakActive, c.active + 1), peakReserved := Max(c.peakReserved, c.reserved + needed))
  }

  function GiveBack(c: Counters, needed: int): Counters {
    c.(active := c.active - 1, reserved := c.reserved - needed)
  }

  function Status(v: Verdict): int {
    match v
    case Admitted => STATUS_OK
    case TooLarge => STATUS_TOO_LARGE
    case _ => STATUS_UNAVAILABLE
  }

  // ---------------------------------------------------------------- the abstract machine

  /** Every lease ever granted, in order; an open one is still holding its memory. */
  datatype Lease = Lease(size: int, open: bool)

  datatype World = World(counters: Counters, leases: seq<Lease>, attempts: nat)

  datatype Action = Request(needed: int) | Return(lease: nat)

  function OpenCount(leases: seq<Lease>): nat {
    if leases == [] then 0
    else OpenCount(leases[..|leases| - 1]) + if leases[|leases| - 1].open then 1 else 0
  }

  function OpenTotal(leases: seq<Lease>): int {
    if leases == [] then 0
    else OpenTotal(leases[..|leases| - 1]) + if leases[|leases| - 1].open then leases[|leases| - 1].size else 0
  }

  /** A request that reaches the locked decision, or a return, which any holder may repeat. */
  function Step(w: World, a: Action): World {
    match a
    case Request(needed) =>
      World(Grant(w.counters, needed),
            if Decide(w.counters, needed).Admitted? then w.leases + [Lease(needed, true)] else w.leases,
            w.attempts + 1)
    case Return(i) =>
      if i < |w.leases| && w.leases[i].open then
        World(GiveBack(w.counters, w.leases[i].size), w.leases[i := w.leases[i].(open := false)], w.attempts)
      else w
  }

  function Run(maxActive: int, maxMemory: int, actions: seq<Action>): World {
    if actions == [] then World(New(maxActive, maxMemory), [], 0)
    else Step(Run(maxActive, maxMemory, actions[..|actions| - 1]), actions[|actions| - 1])
  }

  ghost predicate Inv(w: World) {
    && w.counters.active == OpenCount(w.leases)
    && w.counters.reserved == OpenTotal(w.leases)
    && w.counters.active <= Max(0, w.counters.maxActive)
    && w.counters.reserved <= Max(0, w.counters.maxMemory)
    && (forall i :: 0 <= i < |w.leases| ==> 0 < w.leases[i].size <= w.counters.maxMemory)
    && |w.leases| + w.counters.rejectedSize + w.counters.rejectedActive + w.counters.rejectedMemory == w.attempts
  }

  lemma {:induction false} CloseLease(leases: seq<Lease>, i: nat)
    requires i < |leases| && leases[i].open
    ensures var closed := leases[i := leases[i].(open := false)];
            OpenCount(closed) == OpenCount(leases) - 1 && OpenTotal(closed) == OpenTotal(leases) - leases[i].size
  {
    var last := |leases| - 1;
    var closed := leases[i := leases[i].(open := false)];
    if i < last {
      CloseLease(leases[..last], i);
      assert closed[..last] == leases[..last][i := leases[i].(open := false)];
    } else {
      assert closed[..last] == leases[..last];
    }
  }

  lemma OpenLease(leases: seq<Lease>, size: int)
    ensures var granted := leases + [Lease(size, true)];
            OpenCount(granted) == OpenCount(leases) + 1 && OpenTotal(granted) == OpenTotal(leases) + size
  {
    assert (leases + [Lease(size, true)])[..|leases|] == leases;
  }

  lemma StepKeepsInv(w: World, a: Action)
    requires Inv(w)
    ensures Inv(Step(w, a))
  {
    hide OpenCount, OpenTotal;
    match a
    case Request(needed) => OpenLease(w.leases, needed);
    case Return(i) =>
      if i < |w.leases| && w.leases[i].open {
        CloseLease(w.leases, i);
      }
  }

  lemma {:induction false} RunKeepsInv(maxActive: int, maxMemory: int, actions: seq<Action>)
    ensures Inv(Run(maxActive, maxMemory, actions))
    ensures Run(maxActive, maxMemory, actions).counters.maxActive == maxActive
    ensures Run(maxActive, maxMemory, actions).counters.maxMemory == maxMemory
  {
    if actions != [] {
      RunKeepsInv(maxActive, maxMemory, actions[..|actions| - 1]);
      StepKeepsInv(Run(maxActive, maxMemory, actions[..|actions| - 1]), actions[|actions| - 1]);
    }
  }

  /**
   Conservation, over every run of requests and repeated returns: the gauges are the open
   leases and their sizes, both stay inside the limits, and every attempt is accounted for.
   */
  lemma Conservation(maxActive: int, maxMemory: int, actions: seq<Action>)
    requires maxActive >= 0 && maxMemory >= 0
    ensures var w := Run(maxActive, maxMemory, actions);
            && 0 <= w.counters.active == OpenCount(w.leases) <= maxActive
            && w.counters.reserved == OpenTotal(w.leases) <= maxMemory
            && |w.leases| + w.counters.rejectedSize + w.counters.rejectedActive + w.counters.rejectedMemory
               == w.attempts
  {
    RunKeepsInv(maxActive, maxMemory, actions);
  }

  /** The counters decide exactly as a machine that looks at the open leases themselves. */
  lemma DecisionFollowsLeases(maxActive: int, maxMemory: int, actions: seq<Action>, needed: int)
    ensures var w := Run(maxActive, maxMemory, actions);
            Decide(w.counters, needed).Admitted? <==>
            0 < needed <= maxMemory && OpenCount(w.leases) < maxActive && OpenTotal(w.leases) + needed <= maxMemory
  {
    RunKeepsInv(maxActive, maxMemory, actions);
  }

  /** The largest number of open leases, and of reserved bytes, at any point of a run. */
  function HighestActive(maxActive: int, maxMemory: int, actions: seq<Action>): int {
    if actions == [] then 0
    else Max(HighestActive(maxActive, maxMemory, actions[..|actions| - 1]),
             OpenCount(Run(maxActive, maxMemory, actions).leases))
  }

  function HighestReserved(maxActive: int, maxMemory: int, actions: seq<Action>): int {
    if actions == [] then 0
    else Max(HighestReserved(maxActive, maxMemory, actions[..|actions| - 1]),
             OpenTotal(Run(maxActive, maxMemory, actions).leases))
  }

  lemma PeaksStep(w: World, a: Action)
    requires w.counters.active <= w.counters.peakActive && w.counters.reserved <= w.counters.peakReserved
    requires forall i :: 0 <= i < |w.leases| ==> 0 < w.leases[i].size
    ensures var c, c' := w.counters, Step(w, a).counters;
            && c'.peakActive == Max(c.peakActive, c'.active)
            && c'.peakReserved == Max(c.peakReserved, c'.reserved)
  {
  }

  lemma {:induction false} PeaksAreRunningMaxima(maxActive: int, maxMemory: int, actions: seq<Action>)
    ensures var c := Run(maxActive, maxMemory, actions).counters;
            && c.peakActive == HighestActive(maxActive, maxMemory, actions)
            && c.peakReserved == HighestReserved(maxActive, maxMemory, actions)
            && c.active <= c.peakActive && c.reserved <= c.peakReserved
  {
    hide Step, OpenCount, OpenTotal;
    RunKeepsInv(maxActive, maxMemory, actions);
    if actions != [] {
      PeaksAreRunningMaxima(maxActive, maxMemory, actions[..|actions| - 1]);
      RunKeepsInv(maxActive, maxMemory, actions[..|actions| - 1]);
      PeaksStep(Run(maxActive, maxMemory, actions[..|actions| - 1]), actions[|actions| - 1]);
    }
  }

  /** However the leases came about, k of them that are open and at least s bytes each fit: k * s <= maxMemory. */
  lemma LeasesFitMemory(maxActive: int, maxMemory: int, actions: seq<Action>, s: nat)
    requires maxMemory >= 0
    requires var leases := Run(maxActive, maxMemory, actions).leases;
             forall i :: 0 <= i < |leases| && leases[i].open ==> leases[i].size >= s
    ensures OpenCount(Run(maxActive, maxMemory, actions).leases) * s <= maxMemory
  {
    RunKeepsInv(maxActive, maxMemory, actions);
    TotalAtLeast(Run(maxActive, maxMemory, actions).leases, s);
  }

  lemma {:induction false} TotalAtLeast(leases: seq<Lease>, s: nat)
    requires forall i :: 0 <= i < |leases| && leases[i].open ==> leases[i].size >= s
    ensures OpenCount(leases) * s <= OpenTotal(leases)
  {
    if leases != [] {
      TotalAtLeast(leases[..|leases| - 1], s);
    }
  }

  /** Returning a lease undoes granting it, peaks aside; returning it twice is returning it once. */
  lemma ReturnUndoesRequest(w: World, needed: int)
    requires Decide(w.counters, needed).Admitted?
    ensures var granted := Step(w, Request(needed));
            var returned := Step(granted, Return(|w.leases|));
            && returned.counters.active == w.counters.active
            && returned.counters.reserved == w.counters.reserved
            && Step(returned, Return(|w.leases|)) == returned
  {
  }

  // ---------------------------------------------------------------- the two objects

  /** http_budget.go: the lock-protected counters behind HTTP generation requests. */
  class HttpRequestBudget {
    const maxRequests: int
    const maxMemory: int
    var active: int
    var peakActive: int
    var reserved: int
    var peakReserved: int
    var rejectedRequests: nat
    var rejectedMemory: nat
    var rejectedSize: nat
    ghost var granted: seq<HttpLease>
    ghost var attempts: nat

    constructor (maxRequests: int, maxMemory: int)
      ensures Usage() == New(maxRequests, maxMemory)
      ensures Valid() && Machine() == World(New(maxRequests, maxMemory), [], 0)
    {
      this.maxRequests, this.maxMemory := maxRequests, maxMemory;
      active, peakActive, reserved, peakReserved := 0, 0, 0, 0;
      rejectedRequests, rejectedMemory, rejectedSize := 0, 0, 0;
      granted, attempts := [], 0;
    }

    /** The abstract machine this object and the leases it granted amount to. */
    ghost function Machine(): World
      reads this, granted
    {
      World(Usage(),
            seq(|granted|, i requires 0 <= i < |granted| reads this, granted =>
              Lease(granted[i].needed, !granted[i].done)),
            attempts)
    }

    /** The leases know their places, and the gauges are exactly the leases not yet released. */
    ghost predicate Valid()
      reads this, granted
    {
      && (forall i :: 0 <= i < |granted| ==> granted[i].budget == this && granted[i].index == i)
      && Inv(Machine())
    }

    function Usage(): Counters
      reads this
    {
      Counters(maxRequests, maxMemory, active, reserved, peakActive, peakReserved,
               rejectedRequests, rejectedMemory, rejectedSize)
    }

    method TryReserve(needed: int) returns (lease: HttpLease?, code: int)
      requires Valid()
      modifies this
      ensures Valid() && Machine() == Step(old(Machine()), Request(needed))
      ensures granted == old(granted) + if lease != null then [lease] else []
      ensures Usage() == Grant(old(Usage()), needed)
      ensures code == Status(Decide(old(Usage()), needed))
      ensures code == if needed <= 0 || needed > maxMemory then 413
                      else if old(active) >= maxRequests || needed > maxMemory - old(reserved) then 503 else 0
      ensures rejectedSize == old(rejectedSize) + if code == 413 then 1 else 0
      ensures rejectedRequests
           == old(rejectedRequests) + if code == 503 && old(active) >= maxRequests then 1 else 0
      ensures rejectedMemory == old(rejectedMemory) + if code == 503 && old(active) < maxRequests then 1 else 0
      ensures active == old(active) + (if code == 0 then 1 else 0)
      ensures reserved == old(reserved) + (if code == 0 then needed else 0)
      ensures peakActive == if code == 0 then Max(old(peakActive), active) else old(peakActive)
      ensures peakReserved == if code == 0 then Max(old(peakReserved), reserved) else old(peakReserved)
      ensures lease != null <==> code == STATUS_OK
      ensures lease != null ==> fresh(lease) && lease.budget == this && lease.needed == needed && !lease.done
    {
      hide Inv, OpenCount, OpenTotal;
      attempts := attempts + 1;
      ghost var before := old(Machine());
      StepKeepsInv(before, Request(needed));
      if needed <= 0 || needed > maxMemory {
        rejectedSize := rejectedSize + 1;
        assert Machine().leases == before.leases;
        return null, STATUS_TOO_LARGE;
      }
      if active >= maxRequests {
        rejectedRequests := rejectedRequests + 1;
        assert Machine().leases == before.leases;
        return null, STATUS_UNAVAILABLE;
      }
      if needed > maxMemory - reserved {
        rejectedMemory := rejectedMemory + 1;
        assert Machine().leases == before.leases;
        return null, STATUS_UNAVAILABLE;
      }
      active := active + 1;
      reserved := reserved + needed;
      peakActive := Max(peakActive, active);
      peakReserved := Max(peakReserved, reserved);
      lease := new HttpLease(this, needed, |granted|);
      granted := granted + [lease];
      assert Machine().leases == Step(before, Request(needed)).leases;
      return lease, STATUS_OK;
    }

    /** A request whose client is already gone is refused without counting it. */
    method Admit(cancelled: bool, needed: int) returns (lease: HttpLease?, code: int)
      requires Valid()
      modifies this
      ensures Valid() && Machine() == if cancelled then old(Machine()) else Step(old(Machine()), Request(needed))
      ensures granted == old(granted) + if lease != null then [lease] else []
      ensures Usage() == if cancelled then old(Usage()) else Grant(old(Usage()), needed)
      ensures code == if cancelled then STATUS_UNAVAILABLE else Status(Decide(old(Usage()), needed))
      ensures lease != null <==> code == STATUS_OK
      ensures lease != null ==> fresh(lease) && lease.budget == this && lease.needed == needed && !lease.done
    {
      if cancelled {
        return null, STATUS_UNAVAILABLE;
      }
      lease, code := TryReserve(needed);
    }
  }

  class HttpLease {
    const budget: HttpRequestBudget
    const needed: int
    ghost const index: nat
    var done: bool

    constructor (budget: HttpRequestBudget, needed: int, ghost index: nat)
      ensures this.budget == budget && this.needed == needed && this.index == index && !done
    {
      this.budget, this.needed, this.index, done := budget, needed, index, false;
    }

    ghost predicate Granted()
      reads budget
    {
      index < |budget.granted| && budget.granted[index] == this
    }

    method Release()
      requires budget.Valid() && Granted()
      modifies this, budget
      ensures budget.Valid() && Granted() && done
      ensures budget.Machine() == Step(old(budget.Machine()), Return(index)) && budget.granted == old(budget.granted)
      ensures budget.Usage() == if old(done) then old(budget.Usage()) else GiveBack(old(budget.Usage()), needed)
      ensures budget.active == old(budget.active) - (if old(done) then 0 else 1)
      ensures budget.reserved == old(budget.reserved) - (if old(done) then 0 else needed)
    {
      if !done {
        done := true;
        budget.active := budget.active - 1;
        budget.reserved := budget.reserved - needed;
      }
      ghost var before := old(budget.Machine());
      StepKeepsInv(before, Return(index));
      assert budget.Machine().leases == Step(before, Return(index)).leases;
    }
  }

  /** ws_budget.go: the same machine, written as one switch. */
  class WebSocketBudget {
    const maxConnections: int
    const maxMemory: int
    var active: int
    var peakActive: int
    var reserved: int
    var peakReserved: int
    var rejectedConnections: nat
    var rejectedMemory: nat
    var rejectedSize: nat
    ghost var granted: seq<WebSocketLease>
    ghost var attempts: nat

    constructor (maxConnections: int, maxMemory: int)
      ensures Usage() == New(maxConnections, maxMemory)
      ensures Valid() && Machine() == World(New(maxConnections, maxMemory), [], 0)
    {
      this.maxConnections, this.maxMemory := maxConnections, maxMemory;
      active, peakActive, reserved, peakReserved := 0, 0, 0, 0;
      rejectedConnections, rejectedMemory, rejectedSize := 0, 0, 0;
      granted, attempts := [], 0;
    }

    /** The abstract machine this object and the leases it granted amount to. */
    ghost function Machine(): World
      reads this, granted
    {
      World(Usage(),
            seq(|granted|, i requires 0 <= i < |granted| reads this, granted =>
              Lease(granted[i].needed, !granted[i].done)),
            attempts)
    }

    /** The leases know their places, and the gauges are exactly the leases not yet released. */
    ghost predicate Valid()
      reads this, granted
    {
      && (forall i :: 0 <= i < |granted| ==> granted[i].budget == this && granted[i].index == i)
      && Inv(Machine())
    }

    function Usage(): Counters
      reads this
    {
      Counters(maxConnections, maxMemory, active, reserved, peakActive, peakReserved,
               rejectedConnections, rejectedMemory, rejectedSize)
    }

    /** The switch under the lock. */
    method Reserve(needed: int) returns (code: int)
      modifies this
      ensures Usage() == Grant(old(Usage()), needed) && code == Status(Decide(old(Usage()), needed))
      ensures code == if needed <= 0 || needed > maxMemory then 413
                      else if old(active) >= maxConnections || needed > maxMemory - old(reserved) then 503 else 0
      ensures rejectedSize == old(rejectedSize) + if code == 413 then 1 else 0
      ensures rejectedConnections
           == old(rejectedConnections) + if code == 503 && old(active) >= maxConnections then 1 else 0
      ensures rejectedMemory == old(rejectedMemory) + if code == 503 && old(active) < maxConnections then 1 else 0
      ensures active == old(active) + (if code == 0 then 1 else 0)
      ensures reserved == old(reserved) + (if code == 0 then needed else 0)
      ensures peakActive == if code == 0 then Max(old(peakActive), active) else old(peakActive)
      ensures peakReserved == if code == 0 then Max(old(peakReserved), reserved) else old(peakReserved)
      ensures granted == old(granted) && attempts == old(attempts)
    {
      code := 0;
      if needed <= 0 || needed > maxMemory {
        rejectedSize := rejectedSize + 1;
        code := STATUS_TOO_LARGE;
      } else if active >= maxConnections {
        rejectedConnections := rejectedConnections + 1;
        code := STATUS_UNAVAILABLE;
      } else if needed > maxMemory - reserved {
        rejectedMemory := rejectedMemory + 1;
        code := STATUS_UNAVAILABLE;
      } else {
        active := active + 1;
        reserved := reserved + needed;
        peakActive := Max(peakActive, active);
        peakReserved := Max(peakReserved, reserved);
      }
    }

    method Admit(cancelled: bool, needed: int) returns (lease: WebSocketLease?, code: int)
      requires Valid()
      modifies this
      ensures Valid() && Machine() == if cancelled then old(Machine()) else Step(old(Machine()), Request(needed))
      ensures granted == old(granted) + if lease != null then [lease] else []
      ensures Usage() == if cancelled then old(Usage()) else Grant(old(Usage()), needed)
      ensures code == if cancelled then STATUS_UNAVAILABLE else Status(Decide(old(Usage()), needed))
      ensures lease != null <==> code == STATUS_OK
      ensures lease != null ==> fresh(lease) && lease.budget == this && lease.needed == needed && !lease.done
    {
      hide Inv, OpenCount, OpenTotal, Grant, Decide;
      if cancelled {
        return null, STATUS_UNAVAILABLE;
      }
      ghost var before := old(Machine());
      StepKeepsInv(before, Request(needed));
      code := Reserve(needed);
      attempts := attempts + 1;
      if code != 0 {
        assert Machine().leases == before.leases;
        return null, code;
      }
      lease := new WebSocketLease(this, needed, |granted|);
      granted := granted + [lease];
      assert Machine().leases == Step(before, Request(needed)).leases;
    }
  }

  class WebSocketLease {
    const budget: WebSocketBudget
    const needed: int
    ghost const index: nat
    var done: bool

    constructor (budget: WebSocketBudget, needed: int, ghost index: nat)
      ensures this.budget == budget && this.needed == needed && this.index == index && !done
    {
      this.budget, this.needed, this.index, done := budget, needed, index, false;
    }

    ghost predicate Granted()
      reads budget
    {
      index < |budget.granted| && budget.granted[index] == this
    }

    method Release()
      requires budget.Valid() && Granted()
      modifies this, budget
      ensures budget.Valid() && Granted() && done
      ensures budget.Machine() == Step(old(budget.Machine()), Return(index)) && budget.granted == old(budget.granted)
      ensures budget.Usage() == if old(done) then old(budget.Usage()) else GiveBack(old(budget.Usage()), needed)
      ensures budget.active == old(budget.active) - (if old(done) then 0 else 1)
      ensures budget.reserved == old(budget.reserved) - (if old(done) then 0 else needed)
    {
      if !done {
        done := true;
        budget.active := budget.active - 1;
        budget.reserved := budget.reserved - needed;
      }
      ghost var before := old(budget.Machine());
      StepKeepsInv(before, Return(index));
      assert budget.Machine().leases == Step(before, Return(index)).leases;
    }
  }
}
