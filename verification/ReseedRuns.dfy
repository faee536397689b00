/**
 What the reseed loop attempts and what its attempts lead to: one attempt per generator and
 tick, each success from its own segment of the source, a source failure charged to every
 generator not yet reached, and cancellation cutting a tick off between two turns.
 */
module ReseedRuns {
  import opened Common
  import opened Generators

  const MIN_BUFFER := 32
  const MAX_BUFFER := 0x10_0000

  function Segment(stream: nat -> byte, start: nat, n: nat): (s: seq<byte>)
    ensures |s| == n
  {
    seq(n, i requires 0 <= i < n => stream(start + i))
  }

  // ---------------------------------------------------------------- what one attempt does

  datatype Outcome = Supplied(start: nat) | SourceFailed | BadSize
  datatype Attempt = Attempt(target: Drbg, outcome: Outcome)

  const SOURCE_ERROR := SourceFailure(0)

  function Try(p: Primitives, g: Gen, o: Outcome, stream: nat -> byte, size: nat): (r: Gen)
    requires Sound(g)
    ensures Sound(r)
  {
    match o
    case SourceFailed => NoteFailure(g, SOURCE_ERROR)
    case BadSize => NoteFailure(g, BadBufferSize)
    case Supplied(start) =>
      match Rekey(p, g, Segment(stream, start, size))
      case (None, g') => g'
      case (Some(e), g') => NoteFailure(g', e)
  }

  /** The generator d after a list of attempts, most of which may concern others. */
  ghost function After(p: Primitives, g: Gen, d: Drbg, attempts: seq<Attempt>, stream: nat -> byte, size: nat): (r: Gen)
    requires Sound(g)
    ensures Sound(r)
  {
    if attempts == [] then g
    else
      var last := attempts[|attempts| - 1];
      var before := After(p, g, d, attempts[..|attempts| - 1], stream, size);
      if last.target == d then Try(p, before, last.outcome, stream, size) else before
  }

  ghost function Successes(attempts: seq<Attempt>, open: set<Drbg>): nat {
    if attempts == [] then 0
    else
      var last := attempts[|attempts| - 1];
      Successes(attempts[..|attempts| - 1], open) + if last.outcome.Supplied? && last.target in open then 1 else 0
  }

  ghost function SuccessesOf(attempts: seq<Attempt>, d: Drbg): nat {
    if attempts == [] then 0
    else
      var last := attempts[|attempts| - 1];
      SuccessesOf(attempts[..|attempts| - 1], d) + if last.outcome.Supplied? && last.target == d then 1 else 0
  }

  ghost function AttemptsAt(attempts: seq<Attempt>, d: Drbg): nat {
    if attempts == [] then 0
    else AttemptsAt(attempts[..|attempts| - 1], d) + if attempts[|attempts| - 1].target == d then 1 else 0
  }

  /** A failed attempt leaves the key, the stream, the byte budget and the epoch as they were. */
  lemma FailureKeepsKey(p: Primitives, g: Gen, o: Outcome, stream: nat -> byte, size: nat)
    requires Sound(g) && (!o.Supplied? || g.closed || size < MIN_BUFFER)
    ensures var r := Try(p, g, o, stream, size);
            && r.failures == g.failures + 1 && r.lastError.Some?
            && r.(failures := g.failures, lastError := g.lastError) == g
  {
  }

  /** Every attempt counts once: as a success for an open generator that was supplied, else as a failure. */
  lemma {:induction false} EachAttemptCountsOnce(p: Primitives, g: Gen, d: Drbg, attempts: seq<Attempt>,
                                                 stream: nat -> byte, size: nat)
    requires Sound(g) && size >= MIN_BUFFER
    ensures var r := After(p, g, d, attempts, stream, size);
            var successes := if g.closed then 0 else SuccessesOf(attempts, d);
            && r.closed == g.closed
            && r.reseeds == g.reseeds + successes
            && r.epoch == g.epoch + successes
            && r.failures == g.failures + AttemptsAt(attempts, d) - successes
            && successes <= AttemptsAt(attempts, d)
  {
    if attempts != [] {
      EachAttemptCountsOnce(p, g, d, attempts[..|attempts| - 1], stream, size);
    }
  }

  // ---------------------------------------------------------------- what a run attempts

  /** What the loop is fed with: which source calls stop short, and how large a seed is. */
  datatype Feed = Feed(shortAt: nat -> Option<nat>, size: nat)

  /** Where the source stands: its next byte, and the number of its next call. */
  datatype Mark = Mark(position: nat, call: nat)

  predicate Short(f: Feed, call: nat) {
    f.shortAt(call).Some? && f.shortAt(call).value < f.size
  }

  /** How many of the next n calls succeed before the first that stops short. */
  function FirstShort(f: Feed, call: nat, n: nat): (k: nat)
    ensures k <= n && (k < n ==> Short(f, call + k))
    ensures forall c: nat :: call <= c < call + k ==> !Short(f, c)
    decreases n
  {
    if n == 0 || Short(f, call) then 0 else 1 + FirstShort(f, call + 1, n - 1)
  }

  /** Where the i-th segment of a tick begins. */
  function SegmentStart(from: nat, i: nat, size: nat): nat {
    from + i * size
  }

  /** A whole tick: contiguous segments up to the first short call, failures for the rest of the list. */
  function FullTick(f: Feed, m: Mark, generators: seq<Drbg>): (attempts: seq<Attempt>)
    ensures |attempts| == |generators|
  {
    var k := FirstShort(f, m.call, |generators|);
    seq(|generators|, i requires 0 <= i < |generators| =>
      Attempt(generators[i], if i < k then Supplied(SegmentStart(m.position, i, f.size)) else SourceFailed))
  }

  /** Where a whole tick over n generators leaves the source: a short call has used up its bytes, too. */
  function TickEnd(f: Feed, m: Mark, n: nat): Mark {
    var k := FirstShort(f, m.call, n);
    if k == n then Mark(SegmentStart(m.position, n, f.size), m.call + n)
    else Mark(SegmentStart(m.position, k, f.size) + f.shortAt(m.call + k).value, m.call + k + 1)
  }

  function MarkAfter(f: Feed, m: Mark, n: nat, ticks: nat): Mark {
    if ticks == 0 then m else TickEnd(f, MarkAfter(f, m, n, ticks - 1), n)
  }

  function FullTicks(f: Feed, m: Mark, generators: seq<Drbg>, ticks: nat): seq<Attempt> {
    if ticks == 0 then []
    else FullTicks(f, m, generators, ticks - 1) + FullTick(f, MarkAfter(f, m, |generators|, ticks - 1), generators)
  }

  /**
   The first source call whose turn cancellation cuts off. Every turn polls twice, before its
   source call and after it, and goes ahead only if both polls find nothing.
   */
  function CallLimit(cancelledFrom: Option<nat>, polls: nat, call: nat): Option<nat> {
    match cancelledFrom
    case None => None
    case Some(c) => Some(call + if c <= polls then 0 else (c - polls) / 2)
  }

  predicate Allowed(limit: Option<nat>, call: nat) {
    limit.None? || call <= limit.value
  }

  /**
   The attempts of a run in which the ticker fires that often: as many whole ticks as fire before
   cancellation, and of the tick it cuts off the turns before the cut.
   */
  ghost predicate IsRun(attempts: seq<Attempt>, ticks: nat, f: Feed, m: Mark, generators: seq<Drbg>,
                        limit: Option<nat>, scheduled: nat)
  {
    var n := |generators|;
    var here := MarkAfter(f, m, n, ticks);
    && ticks <= scheduled
    && Allowed(limit, here.call)
    && (ticks == scheduled ==> attempts == FullTicks(f, m, generators, ticks))
    && (ticks < scheduled ==>
          && !Allowed(limit, TickEnd(f, here, n).call)
          && attempts == FullTicks(f, m, generators, ticks) + FullTick(f, here, generators)[..limit.value - here.call])
  }

  ghost function Rest(generators: seq<Drbg>, i: nat, outcome: Outcome): (r: seq<Attempt>)
    requires i <= |generators|
    ensures |r| == |generators| - i
  {
    seq(|generators| - i, k requires 0 <= k < |generators| - i => Attempt(generators[i + k], outcome))
  }

  datatype Signal = TickerFired | ContextDone

  /** How often the ticker fires before the context is seen to be done. */
  function Scheduled(schedule: seq<Signal>): (k: nat)
    ensures k <= |schedule| && (k < |schedule| ==> schedule[k].ContextDone?)
    ensures forall i :: 0 <= i < k ==> schedule[i].TickerFired?
  {
    if schedule == [] || schedule[0].ContextDone? then 0
    else
      var k := Scheduled(schedule[1..]);
      assert forall i :: 0 < i < 1 + k ==> schedule[i] == schedule[1..][i - 1];
      1 + k
  }

  // ---------------------------------------------------------------- what the attempts are

  /**
   What each attempt of a list does to a generator. Supplied and open, its key becomes the digest of
   the old key and the source's bytes from the attempt's start; otherwise only the failure is noted.
   */
  lemma AttemptIs(p: Primitives, g: Gen, d: Drbg, attempts: seq<Attempt>, i: nat, stream: nat -> byte, size: nat)
    requires Sound(g) && size >= 32 && i < |attempts|
    ensures After(p, g, d, [], stream, size) == g
    ensures var a := attempts[i];
            var before, after := After(p, g, d, attempts[..i], stream, size),
                                 After(p, g, d, attempts[..i + 1], stream, size);
            && before.closed == g.closed
            && (a.target != d ==> after == before)
            && (a.target == d && a.outcome.Supplied? && !g.closed ==>
                  && after.generated == 0 && !after.closed && after.algorithm == before.algorithm
                  && after.reseeds == before.reseeds + 1 && after.epoch == before.epoch + 1
                  && after.failures == before.failures && after.lastError == None
                  && exists s: seq<byte> ::
                       && |s| == size
                       && (forall k :: 0 <= k < size ==> s[k] == stream(a.outcome.start + k))
                       && after.key == p.sha512(before.key + s)[..32]
                       && after.nonce == p.sha512(before.key + s)[32..48])
            && (a.target == d && !(a.outcome.Supplied? && !g.closed) ==>
                  && after.failures == before.failures + 1
                  && after.lastError == Some(match a.outcome
                                             case Supplied(_) => ClosedPipe
                                             case SourceFailed => SourceFailure(0)
                                             case BadSize => BadBufferSize)
                  && after.key == before.key && after.nonce == before.nonce && after.generated == before.generated
                  && after.reseeds == before.reseeds && after.epoch == before.epoch)
  {
    hide After, Try;
    var a, before := attempts[i], After(p, g, d, attempts[..i], stream, size);
    assert attempts[..i + 1] == attempts[..i] + [a];
    AfterOneMore(p, g, d, attempts[..i], a, stream, size);
    NothingYet(p, g, d, stream, size);
    KeepsOpen(p, g, d, attempts[..i], stream, size);
    OneAttemptIs(p, before, a.outcome, stream, size);
  }

  lemma NothingYet(p: Primitives, g: Gen, d: Drbg, stream: nat -> byte, size: nat)
    requires Sound(g)
    ensures After(p, g, d, [], stream, size) == g
  {
  }

  lemma KeepsOpen(p: Primitives, g: Gen, d: Drbg, attempts: seq<Attempt>, stream: nat -> byte, size: nat)
    requires Sound(g) && size >= MIN_BUFFER
    ensures After(p, g, d, attempts, stream, size).closed == g.closed
  {
    EachAttemptCountsOnce(p, g, d, attempts, stream, size);
  }

  lemma OneAttemptIs(p: Primitives, g: Gen, o: Outcome, stream: nat -> byte, size: nat)
    requires Sound(g) && size >= 32
    ensures var r := Try(p, g, o, stream, size);
            if o.Supplied? && !g.closed then
              && r.generated == 0 && !r.closed && r.algorithm == g.algorithm
              && r.reseeds == g.reseeds + 1 && r.epoch == g.epoch + 1
              && r.failures == g.failures && r.lastError == None
              && exists s: seq<byte> ::
                   && |s| == size
                   && (forall k :: 0 <= k < size ==> s[k] == stream(o.start + k))
                   && r.key == p.sha512(g.key + s)[..32] && r.nonce == p.sha512(g.key + s)[32..48]
            else
              && r.failures == g.failures + 1
              && r.lastError == Some(match o
                                     case Supplied(_) => ClosedPipe
                                     case SourceFailed => SourceFailure(0)
                                     case BadSize => BadBufferSize)
              && r.key == g.key && r.nonce == g.nonce && r.generated == g.generated
              && r.reseeds == g.reseeds && r.epoch == g.epoch
  {
    if o.Supplied? {
      var s := Segment(stream, o.start, size);
      KeysAreDigests(p, g, s, g.algorithm);
      assert |s| == size;
    }
  }

  /** The source calls of a tick that stop short decide which of its turns are supplied, and from where. */
  lemma TickAttempts(f: Feed, m: Mark, generators: seq<Drbg>, i: nat)
    requires i < |generators|
    ensures var a := FullTick(f, m, generators)[i];
            && a.target == generators[i]
            && (a.outcome == SourceFailed <==>
                  exists c: nat :: m.call <= c <= m.call + i && f.shortAt(c).Some? && f.shortAt(c).value < f.size)
            && (a.outcome != SourceFailed ==> a.outcome == Supplied(m.position + i * f.size))
  {
    var k := FirstShort(f, m.call, |generators|);
    if k <= i {
      assert Short(f, m.call + k);
      assert f.shortAt(m.call + k).Some?;
    } else {
      forall c: nat | m.call <= c <= m.call + i ensures !(f.shortAt(c).Some? && f.shortAt(c).value < f.size) {
        assert !Short(f, c);
      }
    }
  }

  /**
   Which turns cancellation lets go ahead: each polls twice, so the turn of a source call, with all
   before it, has polled twice for every call up to and including its own.
   */
  lemma TurnGoesAhead(cancelledFrom: Option<nat>, polls: nat, call: nat, turn: nat)
    requires call <= turn
    ensures var limit := CallLimit(cancelledFrom, polls, call);
            (limit.Some? ==> turn < limit.value)
            <==> (cancelledFrom.Some? ==> cancelledFrom.value >= polls + 2 * (turn - call + 1))
  {
  }

  // ---------------------------------------------------------------- turns and ticks

  /** What the limit says of a turn does not depend on when it is asked. */
  lemma LimitStays(cancelledFrom: Option<nat>, polls: nat, call: nat)
    requires !(cancelledFrom.Some? && cancelledFrom.value <= polls + 1)
    ensures CallLimit(cancelledFrom, polls + 2, call + 1) == CallLimit(cancelledFrom, polls, call)
    ensures Allowed(CallLimit(cancelledFrom, polls, call), call + 1)
  {
  }

  lemma LimitIsHere(cancelledFrom: Option<nat>, polls: nat, call: nat)
    requires cancelledFrom.Some? && cancelledFrom.value <= polls + 1
    ensures CallLimit(cancelledFrom, polls, call) == Some(call)
  {
  }

  lemma TurnSupplied(f: Feed, m: Mark, generators: seq<Drbg>, k: nat)
    requires k < |generators| && k <= FirstShort(f, m.call, |generators|) && !Short(f, m.call + k)
    ensures k < FirstShort(f, m.call, |generators|)
    ensures var full := FullTick(f, m, generators);
            full[..k + 1] == full[..k] + [Attempt(generators[k], Supplied(SegmentStart(m.position, k, f.size)))]
  {
    hide FirstShort, SegmentStart, Short;
  }

  lemma TurnFailed(f: Feed, m: Mark, generators: seq<Drbg>, k: nat)
    requires k < |generators| && k <= FirstShort(f, m.call, |generators|) && Short(f, m.call + k)
    ensures FullTick(f, m, generators) == FullTick(f, m, generators)[..k] + Rest(generators, k, SourceFailed)
    ensures TickEnd(f, m, |generators|)
         == Mark(SegmentStart(m.position, k, f.size) + f.shortAt(m.call + k).value, m.call + k + 1)
  {
    hide FirstShort, SegmentStart;
    assert FirstShort(f, m.call, |generators|) == k;
  }

  lemma TickWhole(f: Feed, m: Mark, generators: seq<Drbg>)
    requires |generators| <= FirstShort(f, m.call, |generators|)
    ensures FullTick(f, m, generators)[..|generators|] == FullTick(f, m, generators)
    ensures TickEnd(f, m, |generators|) == Mark(SegmentStart(m.position, |generators|, f.size), m.call + |generators|)
  {
    hide FirstShort, SegmentStart, FullTick;
  }

  lemma TickGoesOn(f: Feed, m: Mark, n: nat, k: nat)
    requires k < n && k <= FirstShort(f, m.call, n)
    ensures TickEnd(f, m, n).call > m.call + k
  {
    hide FirstShort, SegmentStart;
  }

  lemma LimitAhead(cancelledFrom: Option<nat>, polls: nat, call: nat)
    ensures Allowed(CallLimit(cancelledFrom, polls, call), call)
  {
  }

  lemma NextTick(f: Feed, m: Mark, generators: seq<Drbg>, ticks: nat)
    ensures FullTicks(f, m, generators, 0) == [] && MarkAfter(f, m, |generators|, 0) == m
    ensures var here := MarkAfter(f, m, |generators|, ticks);
            && FullTicks(f, m, generators, ticks + 1)
               == FullTicks(f, m, generators, ticks) + FullTick(f, here, generators)
            && MarkAfter(f, m, |generators|, ticks + 1) == TickEnd(f, here, |generators|)
  {
  }

  lemma WholeRun(f: Feed, m: Mark, generators: seq<Drbg>, ticks: nat, limit: Option<nat>)
    requires Allowed(limit, MarkAfter(f, m, |generators|, ticks).call)
    ensures IsRun(FullTicks(f, m, generators, ticks), ticks, f, m, generators, limit, ticks)
  {
  }

  lemma CutRun(f: Feed, m: Mark, generators: seq<Drbg>, ticks: nat, limit: Option<nat>, scheduled: nat)
    requires var here := MarkAfter(f, m, |generators|, ticks);
             && ticks < scheduled && Allowed(limit, here.call) && !Allowed(limit, TickEnd(f, here, |generators|).call)
             && limit.value - here.call <= |generators|
    ensures var here := MarkAfter(f, m, |generators|, ticks);
            IsRun(FullTicks(f, m, generators, ticks) + FullTick(f, here, generators)[..limit.value - here.call],
                  ticks, f, m, generators, limit, scheduled)
  {
  }

  // ---------------------------------------------------------------- segments

  lemma SegmentsFollow(from: nat, i: nat, size: nat)
    ensures SegmentStart(from, 0, size) == from
    ensures SegmentStart(from, i + 1, size) == SegmentStart(from, i, size) + size
  {
  }

  lemma {:induction false} SegmentOrder(from: nat, i: nat, j: nat, size: nat)
    requires i <= j
    ensures SegmentStart(from, i, size) + (if i < j then size else 0) <= SegmentStart(from, j, size)
  {
    hide SegmentStart;
    if i < j {
      SegmentsFollow(from, j - 1, size);
      SegmentOrder(from, i, j - 1, size);
    }
  }

  /** The supplied segments lie between two positions, each behind the one before it. */
  ghost predicate Ordered(attempts: seq<Attempt>, from: nat, to: nat, size: nat) {
    && from <= to
    && (forall i :: 0 <= i < |attempts| && attempts[i].outcome.Supplied? ==>
          from <= attempts[i].outcome.start && attempts[i].outcome.start + size <= to)
    && (forall i, j :: 0 <= i < j < |attempts| && attempts[i].outcome.Supplied? && attempts[j].outcome.Supplied? ==>
          attempts[i].outcome.start + size <= attempts[j].outcome.start)
  }

  lemma OrderedJoin(a: seq<Attempt>, b: seq<Attempt>, from: nat, middle: nat, to: nat, size: nat)
    requires Ordered(a, from, middle, size) && Ordered(b, middle, to, size)
    ensures Ordered(a + b, from, to, size)
  {
  }

  lemma TickOrdered(f: Feed, m: Mark, generators: seq<Drbg>)
    ensures Ordered(FullTick(f, m, generators), m.position, TickEnd(f, m, |generators|).position, f.size)
  {
    hide SegmentStart;
    var attempts, k := FullTick(f, m, generators), FirstShort(f, m.call, |generators|);
    SegmentsFollow(m.position, 0, f.size);
    SegmentOrder(m.position, 0, k, f.size);
    forall i | 0 <= i < k
      ensures m.position <= attempts[i].outcome.start
      ensures attempts[i].outcome.start + f.size <= SegmentStart(m.position, k, f.size)
    {
      SegmentOrder(m.position, 0, i, f.size);
      SegmentOrder(m.position, i, k, f.size);
    }
    forall i, j | 0 <= i < j < k ensures attempts[i].outcome.start + f.size <= attempts[j].outcome.start {
      SegmentOrder(m.position, i, j, f.size);
    }
  }

  lemma {:induction false} TicksOrdered(f: Feed, m: Mark, generators: seq<Drbg>, ticks: nat)
    ensures Ordered(FullTicks(f, m, generators, ticks), m.position, MarkAfter(f, m, |generators|, ticks).position,
                    f.size)
  {
    hide Ordered, FullTick, TickEnd;
    if ticks == 0 {
      NoSegments(m.position, f.size);
    } else {
      TicksOrdered(f, m, generators, ticks - 1);
      var here := MarkAfter(f, m, |generators|, ticks - 1);
      TickOrdered(f, here, generators);
      OrderedJoin(FullTicks(f, m, generators, ticks - 1), FullTick(f, here, generators), m.position, here.position,
                  TickEnd(f, here, |generators|).position, f.size);
    }
  }

  lemma NoSegments(from: nat, size: nat)
    ensures Ordered([], from, from, size)
  {
  }

  lemma OrderedPrefix(attempts: seq<Attempt>, n: nat, from: nat, to: nat, size: nat)
    requires Ordered(attempts, from, to, size) && n <= |attempts|
    ensures Ordered(attempts[..n], from, to, size)
  {
  }

  /** Over a whole run no two successes ever share a source byte: every segment lies behind all earlier ones. */
  lemma SegmentsAreDisjoint(attempts: seq<Attempt>, ticks: nat, f: Feed, m: Mark, generators: seq<Drbg>,
                            limit: Option<nat>, scheduled: nat, i: nat, j: nat)
    requires IsRun(attempts, ticks, f, m, generators, limit, scheduled) && i < j < |attempts|
    requires attempts[i].outcome.Supplied? && attempts[j].outcome.Supplied?
    ensures m.position <= attempts[i].outcome.start
    ensures attempts[i].outcome.start + f.size <= attempts[j].outcome.start
  {
    var here := MarkAfter(f, m, |generators|, ticks);
    TicksOrdered(f, m, generators, ticks);
    if ticks < scheduled {
      var cut := limit.value - here.call;
      var to := TickEnd(f, here, |generators|).position;
      TickOrdered(f, here, generators);
      OrderedPrefix(FullTick(f, here, generators), cut, here.position, to, f.size);
      OrderedJoin(FullTicks(f, m, generators, ticks), FullTick(f, here, generators)[..cut], m.position, here.position,
                  to, f.size);
    }
  }

  // ---------------------------------------------------------------- counts

  lemma NoAttempts(open: set<Drbg>)
    ensures Successes([], open) == 0
  {
  }

  lemma SuccessOrNot(attempts: seq<Attempt>, turn: Attempt, open: set<Drbg>)
    requires turn.outcome.Supplied?
    ensures Successes(attempts + [turn], open) == Successes(attempts, open) + if turn.target in open then 1 else 0
  {
    assert (attempts + [turn])[..|attempts|] == attempts;
  }

  lemma FailuresAddNothing(attempts: seq<Attempt>, generators: seq<Drbg>, i: nat, open: set<Drbg>)
    requires i <= |generators|
    ensures Successes(attempts + Rest(generators, i, SourceFailed), open) == Successes(attempts, open)
  {
    SuccessesJoin(attempts, Rest(generators, i, SourceFailed), open);
    FailuresAloneAddNothing(Rest(generators, i, SourceFailed), open);
  }

  lemma AfterOneMore(p: Primitives, g: Gen, d: Drbg, attempts: seq<Attempt>, a: Attempt, stream: nat -> byte, size: nat)
    requires Sound(g)
    ensures var before := After(p, g, d, attempts, stream, size);
            After(p, g, d, attempts + [a], stream, size)
            == if a.target == d then Try(p, before, a.outcome, stream, size) else before
  {
    assert (attempts + [a])[..|attempts|] == attempts;
  }

  lemma TryKeepsClosed(p: Primitives, g: Gen, o: Outcome, stream: nat -> byte, size: nat)
    requires Sound(g)
    ensures Try(p, g, o, stream, size).closed == g.closed
  {
  }

  lemma {:induction false} SuccessesJoin(a: seq<Attempt>, b: seq<Attempt>, open: set<Drbg>)
    ensures Successes(a + b, open) == Successes(a, open) + Successes(b, open)
  {
    if b == [] {
      assert a + b == a;
    } else {
      var last := |b| - 1;
      assert (a + b)[..|a + b| - 1] == a + b[..last];
      SuccessesJoin(a, b[..last], open);
    }
  }

  lemma {:induction false} FailuresAloneAddNothing(failed: seq<Attempt>, open: set<Drbg>)
    requires forall a :: a in failed ==> !a.outcome.Supplied?
    ensures Successes(failed, open) == 0
  {
    if failed != [] {
      FailuresAloneAddNothing(failed[..|failed| - 1], open);
    }
  }

  lemma {:induction false} AttemptsJoin(a: seq<Attempt>, b: seq<Attempt>, d: Drbg)
    ensures AttemptsAt(a + b, d) == AttemptsAt(a, d) + AttemptsAt(b, d)
  {
    if b == [] {
      assert a + b == a;
    } else {
      var last := |b| - 1;
      assert (a + b)[..|a + b| - 1] == a + b[..last];
      AttemptsJoin(a, b[..last], d);
    }
  }

  /** A completed tick reaches every generator as often as it is listed ... */
  lemma {:induction false} CompleteTickReachesAll(attempts: seq<Attempt>, generators: seq<Drbg>, d: Drbg)
    requires |attempts| == |generators|
    requires forall i :: 0 <= i < |attempts| ==> attempts[i].target == generators[i]
    ensures AttemptsAt(attempts, d) == multiset(generators)[d]
  {
    if attempts != [] {
      var last := |attempts| - 1;
      CompleteTickReachesAll(attempts[..last], generators[..last], d);
      assert generators == generators[..last] + [generators[last]];
    }
  }

  /** ... and raises its successes and failures together by exactly that. */
  lemma TickCountsOnce(p: Primitives, g: Gen, d: Drbg, f: Feed, m: Mark, generators: seq<Drbg>, stream: nat -> byte)
    requires Sound(g) && f.size >= MIN_BUFFER
    ensures var r := After(p, g, d, FullTick(f, m, generators), stream, f.size);
            && r.reseeds + r.failures == g.reseeds + g.failures + multiset(generators)[d]
            && r.reseeds >= g.reseeds && r.failures >= g.failures
  {
    EachAttemptCountsOnce(p, g, d, FullTick(f, m, generators), stream, f.size);
    CompleteTickReachesAll(FullTick(f, m, generators), generators, d);
  }

  function Repeated(ticks: nat, times: nat): nat {
    ticks * times
  }

  lemma OnceMore(ticks: nat, times: nat)
    ensures Repeated(ticks, times) == if ticks == 0 then 0 else Repeated(ticks - 1, times) + times
  {
  }

  lemma NoAttemptsAt(d: Drbg)
    ensures AttemptsAt([], d) == 0
  {
  }

  lemma TickTargets(f: Feed, m: Mark, generators: seq<Drbg>)
    ensures forall i :: 0 <= i < |generators| ==> FullTick(f, m, generators)[i].target == generators[i]
  {
  }

  lemma {:induction false} TicksReachAll(f: Feed, m: Mark, generators: seq<Drbg>, ticks: nat, d: Drbg)
    ensures AttemptsAt(FullTicks(f, m, generators, ticks), d) == Repeated(ticks, multiset(generators)[d])
  {
    hide FullTick, MarkAfter, Repeated, AttemptsAt;
    if ticks > 0 {
      var here := MarkAfter(f, m, |generators|, ticks - 1);
      var tick := FullTick(f, here, generators);
      TickTargets(f, here, generators);
      TicksReachAll(f, m, generators, ticks - 1, d);
      CompleteTickReachesAll(tick, generators, d);
      AttemptsJoin(FullTicks(f, m, generators, ticks - 1), tick, d);
    }
    OnceMore(ticks, multiset(generators)[d]);
    if ticks == 0 {
      NoAttemptsAt(d);
    }
  }

  /**
   Over a whole run a generator's successes and failures together rise by the number of whole
   ticks times how often it is listed, plus its turns before the cut in a tick that is cut off.
   */
  lemma RunCountsOnce(p: Primitives, g: Gen, d: Drbg, attempts: seq<Attempt>, ticks: nat, f: Feed, m: Mark,
                      generators: seq<Drbg>, limit: Option<nat>, scheduled: nat, stream: nat -> byte)
    requires Sound(g) && f.size >= MIN_BUFFER
    requires IsRun(attempts, ticks, f, m, generators, limit, scheduled)
    ensures var r := After(p, g, d, attempts, stream, f.size);
            var cut := if ticks == scheduled then 0 else limit.value - MarkAfter(f, m, |generators|, ticks).call;
            && cut <= |generators|
            && r.reseeds + r.failures
               == g.reseeds + g.failures + Repeated(ticks, multiset(generators)[d]) + multiset(generators[..cut])[d]
            && (limit.None? ==> ticks == scheduled)
  {
    hide IsRun, FullTicks, FullTick, After, Repeated, AttemptsAt, SuccessesOf, TickEnd, MarkAfter;
    var here := MarkAfter(f, m, |generators|, ticks);
    RunParts(attempts, ticks, f, m, generators, limit, scheduled);
    EachAttemptCountsOnce(p, g, d, attempts, stream, f.size);
    TicksReachAll(f, m, generators, ticks, d);
    if ticks < scheduled {
      var cut := limit.value - here.call;
      TickTargets(f, here, generators);
      CompleteTickReachesAll(FullTick(f, here, generators)[..cut], generators[..cut], d);
      AttemptsJoin(FullTicks(f, m, generators, ticks), FullTick(f, here, generators)[..cut], d);
    } else {
      assert generators[..0] == [] && multiset(generators[..0])[d] == 0;
    }
  }

  lemma RunParts(attempts: seq<Attempt>, ticks: nat, f: Feed, m: Mark, generators: seq<Drbg>,
                 limit: Option<nat>, scheduled: nat)
    requires IsRun(attempts, ticks, f, m, generators, limit, scheduled)
    ensures ticks <= scheduled
    ensures var here := MarkAfter(f, m, |generators|, ticks);
            if ticks == scheduled then attempts == FullTicks(f, m, generators, ticks)
            else
              && limit.Some? && 0 <= limit.value - here.call <= |generators|
              && attempts
                 == FullTicks(f, m, generators, ticks) + FullTick(f, here, generators)[..limit.value - here.call]
  {
  }

  /** The generators in a list without repetitions, each with its own successes. */
  ghost function SumOfSuccesses(ds: seq<Drbg>, open: set<Drbg>, attempts: seq<Attempt>): nat {
    if ds == [] then 0
    else
      var d := ds[|ds| - 1];
      SumOfSuccesses(ds[..|ds| - 1], open, attempts) + if d in open then SuccessesOf(attempts, d) else 0
  }

  ghost predicate Distinct(ds: seq<Drbg>) {
    forall i, j :: 0 <= i < j < |ds| ==> ds[i] != ds[j]
  }

  lemma {:induction false} OneMoreSuccess(ds: seq<Drbg>, open: set<Drbg>, attempts: seq<Attempt>)
    requires Distinct(ds) && attempts != []
    ensures var last := attempts[|attempts| - 1];
            SumOfSuccesses(ds, open, attempts)
            == SumOfSuccesses(ds, open, attempts[..|attempts| - 1])
               + if last.outcome.Supplied? && last.target in open && last.target in ds then 1 else 0
  {
    if ds != [] {
      var shorter := ds[..|ds| - 1];
      assert ds == shorter + [ds[|ds| - 1]];
      OneMoreSuccess(shorter, open, attempts);
    }
  }

  lemma {:induction false} NoSuccesses(ds: seq<Drbg>, open: set<Drbg>)
    ensures SumOfSuccesses(ds, open, []) == 0
  {
    if ds != [] {
      NoSuccesses(ds[..|ds| - 1], open);
    }
  }

  lemma {:induction false} SuccessesAreShared(ds: seq<Drbg>, open: set<Drbg>, attempts: seq<Attempt>)
    requires Distinct(ds) && forall a :: a in attempts ==> a.target in ds
    ensures Successes(attempts, open) == SumOfSuccesses(ds, open, attempts)
  {
    if attempts == [] {
      NoSuccesses(ds, open);
    } else {
      var last := |attempts| - 1;
      SuccessesAreShared(ds, open, attempts[..last]);
      OneMoreSuccess(ds, open, attempts);
      assert attempts[last] in attempts;
    }
  }

  /** ds names each listed generator once. */
  ghost predicate Lists(ds: seq<Drbg>, generators: seq<Drbg>) {
    && Distinct(ds)
    && (forall d | d in ds :: d in generators)
    && (forall d | d in generators :: d in ds)
  }

  lemma RunTargets(attempts: seq<Attempt>, ticks: nat, f: Feed, m: Mark, generators: seq<Drbg>,
                   limit: Option<nat>, scheduled: nat)
    requires IsRun(attempts, ticks, f, m, generators, limit, scheduled)
    ensures forall a :: a in attempts ==> a.target in generators
  {
    hide FullTick;
    var here := MarkAfter(f, m, |generators|, ticks);
    FullTicksTargets(f, m, generators, ticks);
    TickTargets(f, here, generators);
    RunParts(attempts, ticks, f, m, generators, limit, scheduled);
  }

  lemma {:induction false} FullTicksTargets(f: Feed, m: Mark, generators: seq<Drbg>, ticks: nat)
    ensures forall a :: a in FullTicks(f, m, generators, ticks) ==> a.target in generators
  {
    hide FullTick, MarkAfter;
    if ticks > 0 {
      FullTicksTargets(f, m, generators, ticks - 1);
      TickTargets(f, MarkAfter(f, m, |generators|, ticks - 1), generators);
    }
  }

  /** By how much the success counts of some generators have risen together since p. */
  ghost function Rise(ds: seq<Drbg>, p: map<Drbg, Gen>): int
    requires forall d :: d in ds ==> d in p
    reads ds
  {
    if ds == [] then 0
    else
      var d := ds[|ds| - 1];
      Rise(ds[..|ds| - 1], p) + d.reseeds - p[d].reseeds
  }
}
