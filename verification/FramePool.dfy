/**
 The client's frame pipeline as interleaved steps: one producer, a queue of one frame, a
 consumer that may copy, keep and repeatedly release its frames, and the recycling pool.
 `limit` is how many unreleased frames the consumer lets itself hold; releasing each frame
 before taking the next is limit 1.
 */
module FramePool {
  import opened FrameLeases

  const QUEUE_CAPACITY := 1

  /** A frame as the program passes it around: its lease and its data, with the payload it was read as. */
  datatype Frame = Frame(lease: nat, buffer: nat, payload: nat)

  datatype Producer =
    | Looping
    | Reading(lease: nat, buffer: nat)
    | Offering(frame: Frame)
    | Finished

  /**
   Buffers are numbered in the order they are made, leases in the order they are taken.
   `held` lists the frames the consumer has received and not yet released.
   */
  datatype State = State(
    producer: Producer,
    queue: seq<Frame>,
    held: seq<Frame>,
    pool: seq<nat>,
    dropped: seq<nat>,
    made: nat,
    leases: nat,
    released: set<nat>,
    contents: map<nat, nat>)

  datatype Action =
    | Acquire
    | Fill(payload: nat)
    | Complete
    | FailRead
    | StopBeforeRead
    | Send
    | CancelSend
    | Take
    | Release(lease: nat)

  const INITIAL := State(Looping, [], [], [], [], 0, 0, {}, map[])

  function Find(frames: seq<Frame>, lease: nat): (k: nat)
    ensures k <= |frames|
    ensures k < |frames| ==> frames[k].lease == lease
    ensures k == |frames| ==> forall i :: 0 <= i < |frames| ==> frames[i].lease != lease
  {
    if frames == [] then 0
    else if frames[0].lease == lease then 0
    else 1 + Find(frames[1..], lease)
  }

  predicate Enabled(s: State, a: Action, limit: nat) {
    match a
    case Acquire => s.producer.Looping?
    case Fill(_) => s.producer.Reading?
    case Complete => s.producer.Reading?
    case FailRead => s.producer.Reading?
    case StopBeforeRead => s.producer.Looping?
    case Send => s.producer.Offering? && |s.queue| < QUEUE_CAPACITY
    case CancelSend => s.producer.Offering?
    case Take => |s.queue| > 0 && |s.held| < limit
    case Release(lease) => lease in s.released || Find(s.held, lease) < |s.held|
  }

  /** The lease's once: the first release offers the buffer to the pool, later ones do nothing. */
  function GiveBack(s: State, lease: nat, buffer: nat): State {
    if lease in s.released then s
    else
      s.(pool := Offer(s.pool, buffer),
         dropped := if |s.pool| < POOL_CAPACITY then s.dropped else s.dropped + [buffer],
         released := s.released + {lease})
  }

  function Payload(contents: map<nat, nat>, buffer: nat): nat {
    if buffer in contents then contents[buffer] else 0
  }

  function Next(s: State, a: Action, limit: nat): State
    requires Enabled(s, a, limit)
  {
    match a
    case Acquire =>
      if s.pool != [] then s.(producer := Reading(s.leases, s.pool[0]), pool := s.pool[1..], leases := s.leases + 1)
      else
        s.(producer := Reading(s.leases, s.made), made := s.made + 1, leases := s.leases + 1,
           contents := s.contents[s.made := 0])
    case Fill(payload) => s.(contents := s.contents[s.producer.buffer := payload])
    case Complete =>
      s.(producer := Offering(Frame(s.producer.lease, s.producer.buffer, Payload(s.contents, s.producer.buffer))))
    case FailRead => GiveBack(s, s.producer.lease, s.producer.buffer).(producer := Finished)
    case StopBeforeRead => s.(producer := Finished)
    case Send => s.(producer := Looping, queue := s.queue + [s.producer.frame])
    case CancelSend => GiveBack(s, s.producer.frame.lease, s.producer.frame.buffer).(producer := Finished)
    case Take => s.(queue := s.queue[1..], held := s.held + [s.queue[0]])
    case Release(lease) =>
      var k := Find(s.held, lease);
      if k == |s.held| then s
      else GiveBack(s, lease, s.held[k].buffer).(held := s.held[..k] + s.held[k + 1..])
  }

  // ---------------------------------------------------------------- ownership

  function Buffers(frames: seq<Frame>): (r: seq<nat>)
    ensures |r| == |frames|
  {
    seq(|frames|, i requires 0 <= i < |frames| => frames[i].buffer)
  }

  function Leases(frames: seq<Frame>): (r: seq<nat>)
    ensures |r| == |frames|
  {
    seq(|frames|, i requires 0 <= i < |frames| => frames[i].lease)
  }

  function Producing(p: Producer): seq<Frame> {
    match p
    case Reading(lease, buffer) => [Frame(lease, buffer, 0)]
    case Offering(frame) => [frame]
    case _ => []
  }

  ghost function Together(producing: multiset<nat>, queued: multiset<nat>, held: multiset<nat>,
                          pooled: multiset<nat>, dropped: multiset<nat>): multiset<nat> {
    producing + queued + held + pooled + dropped
  }

  /** Every place a buffer can be: with the producer, queued, with the consumer, pooled, or dropped. */
  ghost function Placed(s: State): multiset<nat> {
    Together(multiset(Buffers(Producing(s.producer))), multiset(Buffers(s.queue)), multiset(Buffers(s.held)),
             multiset(s.pool), multiset(s.dropped))
  }

  /** Every lease not yet released is with exactly one frame. */
  ghost function Leased(s: State): multiset<nat> {
    multiset(Leases(Producing(s.producer))) + multiset(Leases(s.queue)) + multiset(Leases(s.held))
  }

  ghost predicate Intact(contents: map<nat, nat>, frames: seq<Frame>) {
    forall k :: 0 <= k < |frames| ==> Payload(contents, frames[k].buffer) == frames[k].payload
  }

  /** Every buffer made is in exactly one place. */
  ghost predicate Owned(s: State) {
    && (forall b: nat :: Placed(s)[b] == if b < s.made then 1 else 0)
    && |Placed(s)| == s.made
  }

  /** A lease is with exactly one frame until it is released. */
  ghost predicate LeasesOpen(s: State) {
    && (forall l: nat :: Leased(s)[l] == if l < s.leases && l !in s.released then 1 else 0)
    && (forall l: nat :: l in s.released ==> l < s.leases)
  }

  /** Completed frames still hold what was read into them. */
  ghost predicate Data(s: State) {
    && Intact(s.contents, s.queue)
    && Intact(s.contents, s.held)
    && (s.producer.Offering? ==> Payload(s.contents, s.producer.frame.buffer) == s.producer.frame.payload)
  }

  ghost predicate Sizes(s: State, limit: nat) {
    && |s.queue| <= QUEUE_CAPACITY && |s.pool| <= POOL_CAPACITY && |s.held| <= limit
    && s.made <= |s.dropped| + 2 + limit
    && (limit <= 1 ==> s.dropped == [])
  }

  ghost predicate Inv(s: State, limit: nat) {
    Owned(s) && LeasesOpen(s) && Data(s) && Sizes(s, limit)
  }

  // ---------------------------------------------------------------- moving one frame

  lemma RemoveAt<T>(s: seq<T>, k: nat)
    requires k < |s|
    ensures multiset(s) == multiset(s[..k] + s[k + 1..]) + multiset{s[k]}
  {
    assert s == s[..k] + [s[k]] + s[k + 1..];
  }

  lemma FramesAppend(frames: seq<Frame>, f: Frame)
    ensures multiset(Buffers(frames + [f])) == multiset(Buffers(frames)) + multiset{f.buffer}
    ensures multiset(Leases(frames + [f])) == multiset(Leases(frames)) + multiset{f.lease}
  {
    assert Buffers(frames + [f]) == Buffers(frames) + [f.buffer];
    assert Leases(frames + [f]) == Leases(frames) + [f.lease];
  }

  lemma FramesRemove(frames: seq<Frame>, k: nat)
    requires k < |frames|
    ensures var rest := frames[..k] + frames[k + 1..];
            && multiset(Buffers(frames)) == multiset(Buffers(rest)) + multiset{frames[k].buffer}
            && multiset(Leases(frames)) == multiset(Leases(rest)) + multiset{frames[k].lease}
  {
    var rest := frames[..k] + frames[k + 1..];
    assert Buffers(rest) == Buffers(frames)[..k] + Buffers(frames)[k + 1..];
    assert Leases(rest) == Leases(frames)[..k] + Leases(frames)[k + 1..];
    RemoveAt(Buffers(frames), k);
    RemoveAt(Leases(frames), k);
  }

  lemma ProducerHasOne(p: Producer)
    requires p.Reading? || p.Offering?
    ensures var f := if p.Reading? then Frame(p.lease, p.buffer, 0) else p.frame;
            && multiset(Buffers(Producing(p))) == multiset{f.buffer}
            && multiset(Leases(Producing(p))) == multiset{f.lease}
  {
    var f := if p.Reading? then Frame(p.lease, p.buffer, 0) else p.frame;
    assert Buffers(Producing(p)) == [f.buffer] && Leases(Producing(p)) == [f.lease];
  }

  lemma ProducerHasNone(p: Producer)
    requires p.Looping? || p.Finished?
    ensures multiset(Buffers(Producing(p))) == multiset{} && multiset(Leases(Producing(p))) == multiset{}
  {
    assert Buffers(Producing(p)) == [] && Leases(Producing(p)) == [];
  }

  lemma CountPlaces(s: State)
    ensures |Placed(s)| == |Producing(s.producer)| + |s.queue| + |s.held| + |s.pool| + |s.dropped|
  {
  }

  lemma Member(s: State, frames: seq<Frame>, k: nat)
    requires (frames == s.queue || frames == s.held || frames == Producing(s.producer)) && k < |frames|
    ensures frames[k].buffer in Placed(s) && frames[k].lease in Leased(s)
  {
    assert frames[k].buffer == Buffers(frames)[k] && frames[k].lease == Leases(frames)[k];
    assert Buffers(frames)[k] in multiset(Buffers(frames)) && Leases(frames)[k] in multiset(Leases(frames));
  }

  /** Writing to the producer's buffer cannot reach a frame that is queued or with the consumer. */
  lemma ProducerBufferIsPrivate(s: State, frames: seq<Frame>, k: nat)
    requires Owned(s) && s.producer.Reading? && (frames == s.queue || frames == s.held) && k < |frames|
    ensures frames[k].buffer != s.producer.buffer
  {
    ProducerHasOne(s.producer);
    var b := frames[k].buffer;
    assert b == Buffers(frames)[k] && Buffers(frames)[k] in multiset(Buffers(frames));
    assert b == s.producer.buffer ==> Placed(s)[b] >= 2;
  }

  // ---------------------------------------------------------------- every step keeps the invariant

  lemma AcquireKeepsInv(s: State, limit: nat)
    requires Inv(s, limit) && s.producer.Looping?
    ensures Inv(Next(s, Acquire, limit), limit)
  {
    var s' := Next(s, Acquire, limit);
    ProducerHasNone(s.producer);
    ProducerHasOne(s'.producer);
    AcquirePlaces(s, s');
    AcquireLeases(s, s');
    AcquireData(s, s');
    CountPlaces(s);
  }

  lemma AcquirePlaces(s: State, s': State)
    requires Owned(s) && s.producer.Looping? && s' == Next(s, Acquire, 0)
    requires multiset(Buffers(Producing(s.producer))) == multiset{}
    requires multiset(Buffers(Producing(s'.producer))) == multiset{s'.producer.buffer}
    ensures Owned(s')
  {
    hide Buffers, Placed;
    AcquireMoves(s, s');
  }

  lemma AcquireMoves(s: State, s': State)
    requires s.producer.Looping? && s' == Next(s, Acquire, 0)
    requires multiset(Buffers(Producing(s.producer))) == multiset{}
    requires multiset(Buffers(Producing(s'.producer))) == multiset{s'.producer.buffer}
    ensures Placed(s') == if s.pool == [] then Placed(s) + multiset{s.made} else Placed(s)
  {
    hide Buffers;
    if s.pool != [] {
      assert s.pool == [s.pool[0]] + s.pool[1..];
      assert multiset(s.pool) == multiset{s.pool[0]} + multiset(s'.pool);
    }
  }

  lemma AcquireLeases(s: State, s': State)
    requires LeasesOpen(s) && s.producer.Looping? && s' == Next(s, Acquire, 0)
    requires multiset(Leases(Producing(s.producer))) == multiset{}
    requires multiset(Leases(Producing(s'.producer))) == multiset{s'.producer.lease}
    ensures LeasesOpen(s')
  {
    hide Buffers, Leases;
    assert Leased(s') == Leased(s) + multiset{s.leases};
  }

  lemma AcquireData(s: State, s': State)
    requires Owned(s) && Data(s) && s.producer.Looping? && s' == Next(s, Acquire, 0)
    ensures Data(s')
  {
    forall k | 0 <= k < |s.queue| ensures s.queue[k].buffer < s.made {
      Member(s, s.queue, k);
    }
    forall k | 0 <= k < |s.held| ensures s.held[k].buffer < s.made {
      Member(s, s.held, k);
    }
  }

  lemma FillKeepsInv(s: State, payload: nat, limit: nat)
    requires Inv(s, limit) && s.producer.Reading?
    ensures Inv(Next(s, Fill(payload), limit), limit)
  {
    var s' := Next(s, Fill(payload), limit);
    assert Placed(s') == Placed(s) && Leased(s') == Leased(s);
    forall k | 0 <= k < |s.queue| ensures s.queue[k].buffer != s.producer.buffer {
      ProducerBufferIsPrivate(s, s.queue, k);
    }
    forall k | 0 <= k < |s.held| ensures s.held[k].buffer != s.producer.buffer {
      ProducerBufferIsPrivate(s, s.held, k);
    }
  }

  /** Steps that move a frame along without making, returning or writing a buffer. */
  lemma MoveKeepsInv(s: State, a: Action, limit: nat)
    requires Inv(s, limit) && Enabled(s, a, limit) && (a.Complete? || a.StopBeforeRead? || a.Send? || a.Take?)
    ensures Inv(Next(s, a, limit), limit)
  {
    hide Owned, LeasesOpen, Placed, Leased;
    var s' := Next(s, a, limit);
    MovePlaces(s, a, limit);
    assert Owned(s') && LeasesOpen(s') by { SamePlaces(s, s'); }
    assert a.Send? ==> [s.producer.frame][0] == s.producer.frame;
  }

  lemma SamePlaces(s: State, s': State)
    requires Owned(s) && LeasesOpen(s) && Placed(s') == Placed(s) && Leased(s') == Leased(s)
    requires s'.made == s.made && s'.leases == s.leases && s'.released == s.released
    ensures Owned(s') && LeasesOpen(s')
  {
  }

  lemma MovePlaces(s: State, a: Action, limit: nat)
    requires Enabled(s, a, limit) && (a.Complete? || a.StopBeforeRead? || a.Send? || a.Take?)
    ensures Placed(Next(s, a, limit)) == Placed(s) && Leased(Next(s, a, limit)) == Leased(s)
  {
    match a
    case Complete =>
      ProducerHasOne(s.producer);
      ProducerHasOne(Next(s, a, limit).producer);
    case StopBeforeRead =>
      ProducerHasNone(s.producer);
      ProducerHasNone(Finished);
    case Send => SendPlaces(s, limit);
    case Take => TakePlaces(s, limit);
  }

  lemma SentTogether(p: multiset<nat>, q: multiset<nat>, h: multiset<nat>, f: multiset<nat>, d: multiset<nat>,
                     m: multiset<nat>)
    ensures Together(p + m, q, h, f, d) == Together(p, q + m, h, f, d)
    ensures Together(p, q + m, h, f, d) == Together(p, q, h + m, f, d)
  {
  }

  lemma ReturnedTogether(p: multiset<nat>, p': multiset<nat>, q: multiset<nat>, h: multiset<nat>, h': multiset<nat>,
                         f: multiset<nat>, d: multiset<nat>, m: multiset<nat>)
    requires p + h == p' + h' + m
    ensures Together(p, q, h, f, d) == Together(p', q, h', f + m, d) == Together(p', q, h', f, d + m)
  {
    var rest := q + f + d;
    assert Together(p, q, h, f, d) == (p + h) + rest;
    assert Together(p', q, h', f + m, d) == (p' + h' + m) + rest;
    assert Together(p', q, h', f, d + m) == (p' + h' + m) + rest;
  }

  lemma SendPlaces(s: State, limit: nat)
    requires Enabled(s, Send, limit)
    ensures Placed(Next(s, Send, limit)) == Placed(s) && Leased(Next(s, Send, limit)) == Leased(s)
  {
    hide Buffers, Leases, Together;
    ProducerHasOne(s.producer);
    ProducerHasNone(Looping);
    FramesAppend(s.queue, s.producer.frame);
    SentTogether(multiset{}, multiset(Buffers(s.queue)), multiset(Buffers(s.held)), multiset(s.pool),
                 multiset(s.dropped), multiset{s.producer.frame.buffer});
    assert multiset{} + multiset{s.producer.frame.buffer} == multiset{s.producer.frame.buffer};
  }

  lemma TakePlaces(s: State, limit: nat)
    requires Enabled(s, Take, limit)
    ensures Placed(Next(s, Take, limit)) == Placed(s) && Leased(Next(s, Take, limit)) == Leased(s)
  {
    hide Buffers, Leases, Together;
    assert s.queue[..0] + s.queue[1..] == s.queue[1..];
    FramesRemove(s.queue, 0);
    FramesAppend(s.held, s.queue[0]);
    SentTogether(multiset(Buffers(Producing(s.producer))), multiset(Buffers(s.queue[1..])), multiset(Buffers(s.held)),
                 multiset(s.pool), multiset(s.dropped), multiset{s.queue[0].buffer});
  }

  /** One frame leaves the producer or the consumer and its buffer goes to the pool or is dropped. */
  ghost predicate ReturnsFrame(s: State, s': State, f: Frame) {
    && f.lease !in s.released && f.lease < s.leases
    && s' == GiveBack(s, f.lease, f.buffer).(producer := s'.producer, held := s'.held)
    && multiset(Buffers(Producing(s.producer))) + multiset(Buffers(s.held))
       == multiset(Buffers(Producing(s'.producer))) + multiset(Buffers(s'.held)) + multiset{f.buffer}
    && multiset(Leases(Producing(s.producer))) + multiset(Leases(s.held))
       == multiset(Leases(Producing(s'.producer))) + multiset(Leases(s'.held)) + multiset{f.lease}
  }

  /** Returning one frame's buffer: nothing is dropped unless the pool is already full. */
  lemma ReturnKeepsInv(s: State, s': State, f: Frame, limit: nat)
    requires Inv(s, limit) && ReturnsFrame(s, s', f) && Data(s') && |s'.held| <= |s.held|
    ensures Inv(s', limit)
  {
    hide Data;
    ReturnPlaces(s, s', f);
    ReturnLeases(s, s', f);
    CountPlaces(s);
    assert |multiset(Buffers(Producing(s.producer))) + multiset(Buffers(s.held))| >= 1;
  }

  lemma ReturnPlaces(s: State, s': State, f: Frame)
    requires Owned(s) && ReturnsFrame(s, s', f)
    ensures Owned(s')
  {
    hide Buffers, Leases, Together;
    assert multiset(s.pool + [f.buffer]) == multiset(s.pool) + multiset{f.buffer};
    assert multiset(s.dropped + [f.buffer]) == multiset(s.dropped) + multiset{f.buffer};
    ReturnedTogether(multiset(Buffers(Producing(s.producer))), multiset(Buffers(Producing(s'.producer))),
                     multiset(Buffers(s.queue)), multiset(Buffers(s.held)), multiset(Buffers(s'.held)),
                     multiset(s.pool), multiset(s.dropped), multiset{f.buffer});
    assert Placed(s') == Placed(s);
  }

  lemma ReturnLeases(s: State, s': State, f: Frame)
    requires LeasesOpen(s) && ReturnsFrame(s, s', f)
    ensures LeasesOpen(s')
  {
    hide Buffers, Leases;
    var before := multiset(Leases(Producing(s.producer))) + multiset(Leases(s.held));
    var after := multiset(Leases(Producing(s'.producer))) + multiset(Leases(s'.held));
    assert Leased(s) == before + multiset(Leases(s.queue));
    assert Leased(s') == after + multiset(Leases(s'.queue));
    assert Leased(s) == Leased(s') + multiset{f.lease};
  }

  /** A lease held by some frame has not been released. */
  lemma LeaseIsOpen(s: State, frames: seq<Frame>, k: nat)
    requires LeasesOpen(s)
    requires (frames == s.queue || frames == s.held || frames == Producing(s.producer)) && k < |frames|
    ensures frames[k].lease < s.leases && frames[k].lease !in s.released
  {
    Member(s, frames, k);
  }

  lemma ProducerReleaseKeepsInv(s: State, a: Action, limit: nat)
    requires Inv(s, limit) && Enabled(s, a, limit) && (a.FailRead? || a.CancelSend?)
    ensures Inv(Next(s, a, limit), limit)
  {
    hide Owned, Placed, Leased, Buffers, Leases;
    ProducerHasOne(s.producer);
    ProducerHasNone(Finished);
    LeaseIsOpen(s, Producing(s.producer), 0);
    ReturnKeepsInv(s, Next(s, a, limit), Producing(s.producer)[0], limit);
  }

  lemma DataWithout(s: State, s': State, k: nat)
    requires Data(s) && k < |s.held| && s'.held == s.held[..k] + s.held[k + 1..]
    requires s'.contents == s.contents && s'.queue == s.queue && s'.producer == s.producer
    ensures Data(s')
  {
  }

  lemma ConsumerReleaseKeepsInv(s: State, lease: nat, limit: nat)
    requires Inv(s, limit) && Enabled(s, Release(lease), limit)
    ensures Inv(Next(s, Release(lease), limit), limit)
  {
    hide Owned, Placed, Leased, Buffers, Leases, Data, Sizes, LeasesOpen, Find, Offer;
    var k := Find(s.held, lease);
    if k < |s.held| {
      var s' := Next(s, Release(lease), limit);
      LeaseIsOpen(s, s.held, k);
      FramesRemove(s.held, k);
      DataWithout(s, s', k);
      ReturnKeepsInv(s, s', s.held[k], limit);
    }
  }

  lemma StepKeepsInv(s: State, a: Action, limit: nat)
    requires Inv(s, limit) && Enabled(s, a, limit)
    ensures Inv(Next(s, a, limit), limit)
  {
    hide Inv;
    match a
    case Acquire => AcquireKeepsInv(s, limit);
    case Fill(payload) => FillKeepsInv(s, payload, limit);
    case FailRead => ProducerReleaseKeepsInv(s, a, limit);
    case CancelSend => ProducerReleaseKeepsInv(s, a, limit);
    case Release(lease) => ConsumerReleaseKeepsInv(s, lease, limit);
    case _ => MoveKeepsInv(s, a, limit);
  }

  lemma InitialInv(limit: nat)
    ensures Inv(INITIAL, limit)
  {
    ProducerHasNone(INITIAL.producer);
    assert Placed(INITIAL) == multiset{} && Leased(INITIAL) == multiset{};
  }

  /** Any interleaving under the consumer's limit; an action that is not enabled is passed over. */
  function Step(s: State, a: Action, limit: nat): State {
    if Enabled(s, a, limit) then Next(s, a, limit) else s
  }

  function Execute(actions: seq<Action>, limit: nat): State {
    if actions == [] then INITIAL
    else Step(Execute(actions[..|actions| - 1], limit), actions[|actions| - 1], limit)
  }

  lemma {:induction false} RunKeepsInv(actions: seq<Action>, limit: nat)
    ensures Inv(Execute(actions, limit), limit)
  {
    hide Inv;
    if actions == [] {
      InitialInv(limit);
    } else {
      var before := Execute(actions[..|actions| - 1], limit);
      RunKeepsInv(actions[..|actions| - 1], limit);
      if Enabled(before, actions[|actions| - 1], limit) {
        StepKeepsInv(before, actions[|actions| - 1], limit);
      }
    }
  }

  // ---------------------------------------------------------------- what every run keeps

  /** Each buffer made so far is in exactly one place: producer, queue, consumer, pool, or dropped. */
  lemma BuffersHaveOneOwner(actions: seq<Action>, limit: nat)
    ensures var s := Execute(actions, limit);
            forall buffer: nat :: Placed(s)[buffer] == if buffer < s.made then 1 else 0
  {
    hide Execute, Placed;
    RunKeepsInv(actions, limit);
  }

  /** A frame keeps the payload it was completed with for as long as it is queued or unreleased. */
  lemma DeliveredDataIsStable(actions: seq<Action>, limit: nat)
    ensures var s := Execute(actions, limit);
            && Intact(s.contents, s.queue) && Intact(s.contents, s.held)
            && forall k :: 0 <= k < |s.held| ==> s.held[k].lease !in s.released
  {
    hide Execute;
    RunKeepsInv(actions, limit);
    var s := Execute(actions, limit);
    forall k | 0 <= k < |s.held| ensures s.held[k].lease !in s.released {
      LeaseIsOpen(s, s.held, k);
    }
  }

  function Payloads(frames: seq<Frame>): (r: seq<nat>)
    ensures |r| == |frames| && forall i :: 0 <= i < |r| ==> r[i] == frames[i].payload
  {
    seq(|frames|, i requires 0 <= i < |frames| => frames[i].payload)
  }

  /** What the producer had in its frames when it sent them, oldest first. */
  ghost function Sent(actions: seq<Action>, limit: nat): seq<nat> {
    if actions == [] then []
    else
      var before := Execute(actions[..|actions| - 1], limit);
      Sent(actions[..|actions| - 1], limit)
      + if actions[|actions| - 1].Send? && Enabled(before, Send, limit) then [before.producer.frame.payload] else []
  }

  /** What the frames that came to the consumer had in them when it took them, oldest first. */
  ghost function Taken(actions: seq<Action>, limit: nat): seq<nat> {
    if actions == [] then []
    else
      var before, after := Execute(actions[..|actions| - 1], limit), Execute(actions, limit);
      Taken(actions[..|actions| - 1], limit)
      + if |after.held| > |before.held| then [after.held[|after.held| - 1].payload] else []
  }

  lemma OneStepInOrder(s: State, a: Action, limit: nat)
    requires Enabled(s, a, limit)
    ensures var s' := Next(s, a, limit);
            (if |s'.held| > |s.held| then [s'.held[|s'.held| - 1].payload] else []) + Payloads(s'.queue)
            == Payloads(s.queue) + if a.Send? then [s.producer.frame.payload] else []
  {
    assert s.queue != [] ==> Payloads(s.queue) == [s.queue[0].payload] + Payloads(s.queue[1..]);
  }

  /** In every run the consumer takes exactly the frames that were sent, in order; what is missing is still queued. */
  lemma {:induction false} FramesArriveInOrder(actions: seq<Action>, limit: nat)
    ensures Taken(actions, limit) + Payloads(Execute(actions, limit).queue) == Sent(actions, limit)
    ensures |Execute(actions, limit).queue| <= 1
  {
    hide Next, Enabled, Inv;
    QueueOfOne(actions, limit);
    if actions != [] {
      FramesArriveInOrder(actions[..|actions| - 1], limit);
      var before := Execute(actions[..|actions| - 1], limit);
      if Enabled(before, actions[|actions| - 1], limit) {
        OneStepInOrder(before, actions[|actions| - 1], limit);
        var earlier, after := Taken(actions[..|actions| - 1], limit), Execute(actions, limit);
        var more := if |after.held| > |before.held| then [after.held[|after.held| - 1].payload] else [];
        assert earlier + more + Payloads(after.queue) == earlier + (more + Payloads(after.queue));
      }
    }
  }

  lemma QueueOfOne(actions: seq<Action>, limit: nat)
    ensures |Execute(actions, limit).queue| <= 1
  {
    hide Execute, Placed, Leased, Buffers, Leases;
    RunKeepsInv(actions, limit);
  }

  /** Releasing a lease again, from any copy of its frame, changes nothing. */
  lemma ReleaseIsIdempotent(actions: seq<Action>, limit: nat, lease: nat)
    ensures var s := Execute(actions, limit);
            lease in s.released ==> Step(s, Release(lease), limit) == s
  {
    RunKeepsInv(actions, limit);
    var s := Execute(actions, limit);
    hide Execute, Owned, Data, Sizes, Placed, Leased, Buffers, Leases;
    var k := Find(s.held, lease);
    if k < |s.held| {
      LeaseIsOpen(s, s.held, k);
    }
  }

  /**
   Buffers are made only for frames in flight: one producing, one queued, those held, and
   replacements for dropped ones.
   */
  lemma AllocationBound(actions: seq<Action>, limit: nat)
    ensures var s := Execute(actions, limit); s.made <= |s.dropped| + 2 + limit
  {
    hide Execute, Placed, Leased, Buffers, Leases;
    RunKeepsInv(actions, limit);
  }

  ghost predicate NeverDrops(limit: nat) {
    forall actions :: Execute(actions, limit).dropped == []
  }

  /**
   The drop branch is dead exactly for consumers that hold at most one frame; then three buffers are
   enough for ever.
   */
  lemma DropsExactlyAboveOne(limit: nat)
    ensures NeverDrops(limit) <==> limit <= 1
    ensures limit <= 1 ==> forall actions :: Execute(actions, limit).made <= 3
  {
    if limit <= 1 {
      forall actions ensures Execute(actions, limit).dropped == [] && Execute(actions, limit).made <= 3 {
        RunKeepsInv(actions, limit);
        AllocationBound(actions, limit);
      }
    } else {
      var run := DroppingRun(limit);
    }
  }

  /** One more action at the end of a run. */
  lemma Do(run: seq<Action>, s: State, a: Action, limit: nat) returns (run': seq<Action>, s': State)
    requires s == Execute(run, limit) && Enabled(s, a, limit)
    ensures s' == Execute(run', limit) == Next(s, a, limit)
  {
    run' := run + [a];
    assert run'[..|run|] == run;
    s' := Next(s, a, limit);
  }

  lemma NothingRun(limit: nat)
    ensures Execute([], limit) == INITIAL
  {
  }

  /** Receive a whole frame and leave it queued. */
  lemma DoFrame(run: seq<Action>, s: State, limit: nat) returns (run': seq<Action>, s': State)
    requires s == Execute(run, limit) && s.producer.Looping? && s.queue == [] && s.pool == []
    ensures s' == Execute(run', limit)
    ensures s'.(contents := s.contents)
         == s.(queue := [Frame(s.leases, s.made, 0)], made := s.made + 1, leases := s.leases + 1)
  {
    hide Execute, Inv;
    run', s' := Do(run, s, Acquire, limit);
    run', s' := Do(run', s', Complete, limit);
    run', s' := Do(run', s', Send, limit);
  }

  /**
   Two frames kept, one queued and one being read when the consumer lets go: the fourth buffer finds
   the pool full.
   */
  lemma DroppingRun(limit: nat) returns (run: seq<Action>)
    requires limit >= 2
    ensures Execute(run, limit).dropped == [3]
  {
    hide Execute, Inv;
    var s;
    NothingRun(limit);
    run, s := DoFrame([], INITIAL, limit);
    run, s := Do(run, s, Take, limit);
    run, s := DoFrame(run, s, limit);
    run, s := Do(run, s, Take, limit);
    run, s := DoFrame(run, s, limit);
    run, s := Do(run, s, Acquire, limit);
    assert s.held == [Frame(0, 0, 0), Frame(1, 1, 0)] && s.queue == [Frame(2, 2, 0)] && s.producer == Reading(3, 3);
    run := ReleaseAll(run, s, limit);
  }

  lemma ReleaseAll(run: seq<Action>, s: State, limit: nat) returns (run': seq<Action>)
    requires limit >= 2 && s == Execute(run, limit)
    requires s.held == [Frame(0, 0, 0), Frame(1, 1, 0)] && s.queue == [Frame(2, 2, 0)] && s.producer == Reading(3, 3)
    requires s.pool == [] && s.dropped == [] && s.released == {}
    ensures Execute(run', limit).dropped == [3]
  {
    hide Execute, Inv;
    var t;
    run', t := ReleaseBoth(run, s, limit);
    run', t := Do(run', t, Take, limit);
    assert t.held == [Frame(2, 2, 0)];
    run', t := Do(run', t, Release(2), limit);
    assert t.pool == [0, 1, 2] && t.dropped == [];
    run', t := Do(run', t, FailRead, limit);
  }

  lemma ReleaseBoth(run: seq<Action>, s: State, limit: nat) returns (run': seq<Action>, t: State)
    requires s == Execute(run, limit) && s.held == [Frame(0, 0, 0), Frame(1, 1, 0)]
    requires s.pool == [] && s.released == {}
    ensures t == Execute(run', limit) == s.(held := [], pool := [0, 1], released := {0, 1})
  {
    hide Execute, Inv;
    run', t := Do(run, s, Release(0), limit);
    assert t.held == [Frame(1, 1, 0)];
    run', t := Do(run', t, Release(1), limit);
  }

  /** Three buffers are really used, so the bound is tight. */
  lemma ThreeBuffersAreUsed() returns (run: seq<Action>)
    ensures Execute(run, 1).made == 3
  {
    hide Execute, Inv;
    var s;
    NothingRun(1);
    run, s := DoFrame([], INITIAL, 1);
    run, s := Do(run, s, Take, 1);
    run, s := DoFrame(run, s, 1);
    run, s := Do(run, s, Acquire, 1);
  }
}
