/**
 The program's frame operations as steps of the pipeline machine: receiving a message, handing
 the frame on or giving it up, and releasing it. A numbering of the buffers, in the order they
 are made, relates the objects to the machine.
 */
module FrameStream {
  import opened Common
  import opened FrameLeases
  import opened FramePool

  type Numbering = map<array<byte>, nat>

  ghost predicate Numbered(free: seq<array<byte>>, numbers: Numbering, pooled: seq<nat>) {
    && |free| == |pooled|
    && forall i :: 0 <= i < |free| ==> free[i] in numbers && numbers[free[i]] == pooled[i]
  }

  lemma NumberedRest(free: seq<array<byte>>, numbers: Numbering, pooled: seq<nat>)
    requires Numbered(free, numbers, pooled)
    ensures free == [] <==> pooled == []
    ensures free != [] ==>
              free[0] in numbers && numbers[free[0]] == pooled[0] && Numbered(free[1..], numbers, pooled[1..])
  {
  }

  lemma NumberedMore(free: seq<array<byte>>, numbers: Numbering, pooled: seq<nat>, buffer: array<byte>)
    requires Numbered(free, numbers, pooled) && buffer in numbers
    ensures Numbered(free + [buffer], numbers, pooled + [numbers[buffer]])
    ensures Numbered(Offer(free, buffer), numbers, Offer(pooled, numbers[buffer]))
  {
  }

  /** The pool holds the machine's pooled buffers, in the same order. */
  ghost predicate Shows(pool: BufferPool, numbers: Numbering, s: State)
    reads pool
  {
    Numbered(pool.free, numbers, s.pool)
  }

  /** A frame of the program and one of the machine: the lease not yet used up, the same buffer. */
  ghost predicate Matches(lease: FrameLease, pool: BufferPool, numbers: Numbering, f: Frame)
    reads lease
  {
    && lease.pool == pool && !lease.done && lease.data != null
    && lease.data in numbers && numbers[lease.data] == f.buffer
  }

  /**
   What a sized message does: nothing is leased before a binary message arrives, and a bad one gives
   its buffer back.
   */
  function Received(s: State, m: Message, size: nat, code: seq<byte> -> nat, limit: nat): State {
    if !m.Binary? then Step(s, StopBeforeRead, limit)
    else
      var t := Step(s, Acquire, limit);
      if Verdict(m, size) == None then Step(Step(t, Fill(code(m.bytes)), limit), Complete, limit)
      else Step(t, FailRead, limit)
  }

  lemma ReceivedIs(s: State, m: Message, size: nat, code: seq<byte> -> nat, limit: nat)
    requires s.producer.Looping? && s.leases !in s.released && |s.pool| <= POOL_CAPACITY
    ensures var s' := Received(s, m, size, code, limit);
            var buffer := if s.pool == [] then s.made else s.pool[0];
            if !m.Binary? then s' == s.(producer := Finished)
            else
              && s'.pool == Left(s.pool, buffer, Verdict(m, size) == None)
              && s'.producer
                 == if Verdict(m, size) == None then Offering(Frame(s.leases, buffer, code(m.bytes))) else Finished
  {
  }

  /** One read of the producer loop is the machine's acquire, fill and complete, or its failing steps. */
  method Receive(m: Message, pool: BufferPool, size: nat,
                 ghost numbers: Numbering, ghost s: State, ghost code: seq<byte> -> nat, ghost limit: nat)
    returns (frame: Option<StreamFrame>, error: Option<ReadError>, ghost numbers': Numbering, ghost s': State)
    requires size > 0 && Usable(pool, size) && Shows(pool, numbers, s)
    requires Inv(s, limit) && s.producer.Looping? && forall b :: b in numbers ==> allocated(b)
    modifies pool, pool.free
    ensures Usable(pool, size) && error == Verdict(m, size) && (frame.Some? <==> error == None)
    ensures s' == Received(s, m, size, code, limit) && Inv(s', limit)
    ensures Shows(pool, numbers', s')
    ensures forall b :: b in numbers ==> b in numbers' && numbers'[b] == numbers[b]
    ensures frame.Some? ==>
              && s'.producer.Offering? && s'.producer.frame.payload == code(frame.value.data[..])
              && frame.value.lease != null && frame.value.lease.data == frame.value.data
              && Matches(frame.value.lease, pool, numbers', s'.producer.frame)
  {
    ReceivedKeepsInv(s, m, size, code, limit);
    NextLeaseIsNew(s, limit);
    ReceivedIs(s, m, size, code, limit);
    hide Received, Inv, Verdict, Numbered, Usable, Left, Renumbered;
    s' := Received(s, m, size, code, limit);
    numbers' := numbers;
    ghost var before := pool.free;
    NumberedRest(before, numbers, s.pool);
    frame, error := ReadStreamFrame(m, pool, size);
    if m.Binary? {
      ghost var good := frame.Some?;
      ghost var buffer := if good then frame.value.data else if before == [] then pool.free[0] else before[0];
      numbers' := Renumbered(before, numbers, s.made, buffer);
      LeftIs(before, pool.free, buffer, good);
      RenumberedKeeps(before, numbers, s.made, buffer);
      LeftIsNumbered(before, numbers, s.pool, s.made, buffer, good);
    }
  }

  /** A buffer taken from an empty pool is newly made. */
  ghost function Renumbered(before: seq<array<byte>>, numbers: Numbering, made: nat, buffer: array<byte>): Numbering {
    if before == [] then numbers[buffer := made] else numbers
  }

  /** The pool once a buffer was taken from its front, and given back at its end unless it went into a frame. */
  ghost function Left<T>(before: seq<T>, buffer: T, good: bool): seq<T> {
    (if before == [] then [] else before[1..]) + if good then [] else [buffer]
  }

  lemma LeftIs<T>(before: seq<T>, after: seq<T>, buffer: T, good: bool)
    requires before == [] && good ==> after == []
    requires before == [] && !good ==> |after| == 1 && after[0] == buffer
    requires before != [] && good ==> after == before[1..]
    requires before != [] && !good ==> buffer == before[0] && after == before[1..] + [before[0]]
    ensures after == Left(before, buffer, good)
  {
  }

  lemma RenumberedKeeps(before: seq<array<byte>>, numbers: Numbering, made: nat, buffer: array<byte>)
    requires before == [] ==> buffer !in numbers
    ensures forall b :: b in numbers ==> b in Renumbered(before, numbers, made, buffer)
                                         && Renumbered(before, numbers, made, buffer)[b] == numbers[b]
  {
  }

  lemma LeftIsNumbered(before: seq<array<byte>>, numbers: Numbering, pooled: seq<nat>, made: nat, buffer: array<byte>,
                       good: bool)
    requires Numbered(before, numbers, pooled) && (before != [] ==> buffer == before[0])
    ensures var numbers' := Renumbered(before, numbers, made, buffer);
            var number := if pooled == [] then made else pooled[0];
            && buffer in numbers' && numbers'[buffer] == number
            && Numbered(Left(before, buffer, good), numbers', Left(pooled, number, good))
  {
  }

  lemma NextLeaseIsNew(s: State, limit: nat)
    requires Inv(s, limit)
    ensures s.leases !in s.released && |s.pool| <= POOL_CAPACITY
  {
  }

  lemma ReceivedKeepsInv(s: State, m: Message, size: nat, code: seq<byte> -> nat, limit: nat)
    requires Inv(s, limit)
    ensures Inv(Received(s, m, size, code, limit), limit)
  {
    hide Inv;
    if !m.Binary? {
      StepInv(s, StopBeforeRead, limit);
    } else {
      var t := Step(s, Acquire, limit);
      StepInv(s, Acquire, limit);
      StepInv(t, FailRead, limit);
      StepInv(t, Fill(code(m.bytes)), limit);
      StepInv(Step(t, Fill(code(m.bytes)), limit), Complete, limit);
    }
  }

  lemma StepInv(s: State, a: Action, limit: nat)
    requires Inv(s, limit)
    ensures Inv(Step(s, a, limit), limit)
  {
    hide Inv;
    if Enabled(s, a, limit) {
      StepKeepsInv(s, a, limit);
    }
  }

  /** A cancelled hand-over releases the frame; the machine's buffer goes back with it. */
  method GiveUp(lease: FrameLease, pool: BufferPool, ghost numbers: Numbering, ghost s: State, ghost limit: nat)
    requires Shows(pool, numbers, s) && Inv(s, limit)
    requires s.producer.Offering? && Matches(lease, pool, numbers, s.producer.frame)
    modifies lease, pool
    ensures lease.done && Shows(pool, numbers, Step(s, CancelSend, limit))
  {
    ProducerLease(s, limit);
    hide Inv, Numbered, Step, Offer;
    NumberedMore(pool.free, numbers, s.pool, lease.data);
    lease.Release();
  }

  lemma ProducerLease(s: State, limit: nat)
    requires Inv(s, limit) && s.producer.Offering?
    ensures s.producer.frame.lease !in s.released
    ensures Step(s, CancelSend, limit).pool == Offer(s.pool, s.producer.frame.buffer)
  {
    LeaseIsOpen(s, Producing(s.producer), 0);
  }

  /** The lease stands for the consumer's frame of that number, or has been released already. */
  ghost predicate Stands(lease: FrameLease, id: nat, pool: BufferPool, numbers: Numbering, s: State)
    reads lease
  {
    && lease.pool == pool
    && (lease.done <==> id in s.released)
    && (!lease.done ==>
          var k := Find(s.held, id);
          k < |s.held| && Matches(lease, pool, numbers, s.held[k]))
  }

  /** Releasing through any copy of a frame is one release of the machine, the first time and every later time. */
  method ReleaseFrame(lease: FrameLease, id: nat, pool: BufferPool,
                      ghost numbers: Numbering, ghost s: State, ghost limit: nat)
    requires Shows(pool, numbers, s) && Inv(s, limit) && Stands(lease, id, pool, numbers, s)
    modifies lease, pool
    ensures var s' := Step(s, Release(id), limit);
            Shows(pool, numbers, s') && Inv(s', limit) && Stands(lease, id, pool, numbers, s') && lease.done
  {
    StepInv(s, Release(id), limit);
    ReleasedIs(s, id, limit);
    hide Inv, Step, Numbered, Find, Offer;
    if !lease.done {
      NumberedMore(pool.free, numbers, s.pool, lease.data);
    }
    lease.Release();
  }

  lemma ReleasedIs(s: State, id: nat, limit: nat)
    requires Inv(s, limit) && (id in s.released || Find(s.held, id) < |s.held|)
    ensures var s', k := Step(s, Release(id), limit), Find(s.held, id);
            && id in s'.released
            && (id in s.released ==> s' == s)
            && (id !in s.released ==> s'.pool == Offer(s.pool, s.held[k].buffer))
  {
    hide Owned, Data, Sizes, Placed, Leased, Buffers, Leases;
    var k := Find(s.held, id);
    if k < |s.held| {
      LeaseIsOpen(s, s.held, k);
    }
  }
}
