/**
 The loop that feeds source bytes to the serving generators, with one seed buffer reused in
 place. The generators may be listed more than once.
 */
module ReseedLoop {
  import opened Common
  import opened Generators
  import opened ReseedRuns

  /** The already opened source: its bytes, and the calls that stop short. */
  class ByteSource {
    const stream: nat -> byte
    const shortAt: nat -> Option<nat>
    var position: nat
    var calls: nat

    constructor (stream: nat -> byte, shortAt: nat -> Option<nat>)
      ensures this.stream == stream && this.shortAt == shortAt && position == 0 && calls == 0
    {
      this.stream, this.shortAt := stream, shortAt;
      position, calls := 0, 0;
    }

    /** io.ReadFull: the whole buffer, or fewer bytes and an error. */
    method ReadFull(buffer: array<byte>) returns (ok: bool)
      modifies this, buffer
      ensures calls == old(calls) + 1
      ensures ok <==> shortAt(old(calls)) == None || shortAt(old(calls)).value >= buffer.Length
      ensures ok ==>
                position == old(position) + buffer.Length && buffer[..] == Segment(stream, old(position), buffer.Length)
      ensures ok ==> forall k :: 0 <= k < buffer.Length ==> buffer[k] == stream(old(position) + k)
      ensures !ok ==> position == old(position) + shortAt(old(calls)).value
    {
      var short := shortAt(calls);
      var n := if short.Some? && short.value < buffer.Length then short.value else buffer.Length;
      for i := 0 to n
        invariant unchanged(this)
        invariant forall k :: 0 <= k < i ==> buffer[k] == stream(position + k)
      {
        buffer[i] := stream(position + i);
      }
      position, calls := position + n, calls + 1;
      ok := n == buffer.Length;
      if ok {
        assert buffer[..] == Segment(stream, old(position), buffer.Length);
      }
    }
  }

  /** Cancellation: once a poll has seen it, every later poll does. */
  class Context {
    const cancelledFrom: Option<nat>
    var polls: nat

    constructor (cancelledFrom: Option<nat>)
      ensures this.cancelledFrom == cancelledFrom && polls == 0
    {
      this.cancelledFrom := cancelledFrom;
      polls := 0;
    }

    method Err() returns (cancelled: bool)
      modifies this
      ensures polls == old(polls) + 1
      ensures cancelled <==> cancelledFrom.Some? && cancelledFrom.value <= old(polls)
    {
      cancelled := cancelledFrom.Some? && cancelledFrom.value <= polls;
      polls := polls + 1;
    }
  }

  class Metrics {
    var reseeds: nat
    constructor ()
      ensures reseeds == 0
    {
      reseeds := 0;
    }
  }

  // ---------------------------------------------------------------- the loop

  /** Every listed generator is in the state its own attempts lead to from its state in p. */
  ghost predicate Tracks(generators: seq<Drbg>, p: map<Drbg, Gen>, attempts: seq<Attempt>, stream: nat -> byte,
                         size: nat)
    reads generators
  {
    forall d :: d in generators ==>
      && d in p && Sound(p[d])
      && d.closed == p[d].closed
      && d.State() == After(d.primitives, p[d], d, attempts, stream, size)
  }

  ghost function OpenIn(p: map<Drbg, Gen>): set<Drbg> {
    set d | d in p && !p[d].closed
  }

  ghost predicate IsZero(buffer: array<byte>)
    reads buffer
  {
    forall k :: 0 <= k < buffer.Length ==> buffer[k] == 0
  }

  method Clear(buffer: array<byte>)
    modifies buffer
    ensures IsZero(buffer)
  {
    for i := 0 to buffer.Length
      invariant forall k :: 0 <= k < i ==> buffer[k] == 0
    {
      buffer[i] := 0;
    }
  }

  /** Charge an error to every generator from index i on. */
  method RecordPending(generators: seq<Drbg>, i: nat, error: Error, outcome: Outcome,
                       ghost p: map<Drbg, Gen>, ghost attempts: seq<Attempt>, ghost stream: nat -> byte,
                       ghost size: nat)
    requires i <= |generators| && Tracks(generators, p, attempts, stream, size)
    requires (outcome.SourceFailed? && error == SOURCE_ERROR) || (outcome.BadSize? && error == BadBufferSize)
    modifies generators
    ensures Tracks(generators, p, attempts + Rest(generators, i, outcome), stream, size)
  {
    hide Tracks;
    ghost var rest := Rest(generators, i, outcome);
    assert attempts + rest[..0] == attempts;
    for j := i to |generators|
      invariant Tracks(generators, p, attempts + rest[..j - i], stream, size)
    {
      RecordOne(generators, j, error, outcome, p, attempts + rest[..j - i], stream, size);
      assert attempts + rest[..j + 1 - i] == attempts + rest[..j - i] + [Attempt(generators[j], outcome)];
    }
    assert rest[..|generators| - i] == rest;
  }

  method RecordOne(generators: seq<Drbg>, j: nat, error: Error, outcome: Outcome,
                   ghost p: map<Drbg, Gen>, ghost attempts: seq<Attempt>, ghost stream: nat -> byte, ghost size: nat)
    requires j < |generators| && Tracks(generators, p, attempts, stream, size)
    requires (outcome.SourceFailed? && error == SOURCE_ERROR) || (outcome.BadSize? && error == BadBufferSize)
    modifies generators
    ensures Tracks(generators, p, attempts + [Attempt(generators[j], outcome)], stream, size)
  {
    hide After;
    generators[j].RecordReseedFailure(Some(error));
    forall d | d in generators
      ensures d.State() == After(d.primitives, p[d], d, attempts + [Attempt(generators[j], outcome)], stream, size)
    {
      AfterOneMore(d.primitives, p[d], d, attempts, Attempt(generators[j], outcome), stream, size);
    }
  }

  datatype Progress = Cancelled | SourceDown | Attempted

  /**
   How a turn moves the context and the source: cut off by cancellation, failed by a short call, or
   one segment on.
   */
  ghost predicate Turned(r: Progress, ctx: Context, polls: nat, source: ByteSource, m: Mark, size: nat)
    reads ctx, source
  {
    && (r.Cancelled? <==> ctx.cancelledFrom.Some? && ctx.cancelledFrom.value <= polls + 1)
    && (!r.Cancelled? ==>
          && ctx.polls == polls + 2 && source.calls == m.call + 1
          && (r.SourceDown? <==> Short(Feed(source.shortAt, size), m.call))
          && source.position == m.position + if r.SourceDown? then source.shortAt(m.call).value else size)
  }

  /** One generator's turn: read a whole seed, reseed, wipe the buffer, count. */
  method Refresh(ctx: Context, source: ByteSource, seed: array<byte>, d: Drbg, metrics: Metrics)
    returns (r: Progress)
    requires d.Valid() && IsZero(seed) && MIN_BUFFER <= seed.Length
    modifies ctx, source, seed, d, metrics
    ensures d.Valid()
    ensures r.Attempted? ==>
              && IsZero(seed)
              && source.position == old(source.position) + seed.Length
              && d.State() == Try(d.primitives, old(d.State()), Supplied(old(source.position)), source.stream,
                                  seed.Length)
              && metrics.reseeds == old(metrics.reseeds) + if old(d.closed) then 0 else 1
    ensures !r.Attempted? ==> d.State() == old(d.State()) && metrics.reseeds == old(metrics.reseeds)
    ensures r.SourceDown? ==> IsZero(seed)
    ensures Turned(r, ctx, old(ctx.polls), source, Mark(old(source.position), old(source.calls)), seed.Length)
    ensures r.Cancelled? <==> ctx.cancelledFrom.Some? && ctx.cancelledFrom.value < old(ctx.polls) + 2
    ensures var short := source.shortAt(old(source.calls));
            && (r.SourceDown? ==> short.Some? && short.value < seed.Length)
            && (r.Attempted? ==> short.None? || short.value >= seed.Length)
    ensures r.Attempted? && !old(d.closed) ==>
              && d.generated == 0 && d.reseeds == old(d.reseeds) + 1 && d.reseedEpoch == old(d.reseedEpoch) + 1
              && d.reseedFailures == old(d.reseedFailures) && d.lastReseedError == None
              && exists s: seq<byte> ::
                   && |s| == seed.Length
                   && (forall k :: 0 <= k < |s| ==> s[k] == source.stream(old(source.position) + k))
                   && d.key == d.primitives.sha512(old(d.key) + s)[..32]
                   && d.nonce == d.primitives.sha512(old(d.key) + s)[32..48]
    ensures r.Attempted? && old(d.closed) ==>
              && d.key == old(d.key) && d.nonce == old(d.nonce) && d.reseeds == old(d.reseeds)
              && d.reseedFailures == old(d.reseedFailures) + 1 && d.lastReseedError == Some(ClosedPipe)
  {
    var cancelled := ctx.Err();
    if cancelled {
      return Cancelled;
    }
    var ok := source.ReadFull(seed);
    if !ok {
      Clear(seed);
      cancelled := ctx.Err();
      return if cancelled then Cancelled else SourceDown;
    }
    cancelled := ctx.Err();
    if cancelled {
      return Cancelled;
    }
    ghost var drawn := seed[..];
    var reseedError := d.Reseed(seed[..]);
    assert |drawn| == seed.Length;
    assert forall k :: 0 <= k < |drawn| ==> drawn[k] == source.stream(old(source.position) + k);
    Clear(seed);
    if reseedError.Some? {
      d.RecordReseedFailure(reseedError);
    } else {
      metrics.reseeds := metrics.reseeds + 1;
    }
    return Attempted;
  }

  /** The same turn seen from the whole list: only that generator has one more attempt behind it. */
  method RefreshListed(ctx: Context, source: ByteSource, seed: array<byte>, generators: seq<Drbg>, i: nat,
                       metrics: Metrics, ghost p: map<Drbg, Gen>, ghost attempts: seq<Attempt>)
    returns (r: Progress)
    requires i < |generators| && IsZero(seed) && MIN_BUFFER <= seed.Length
    requires Tracks(generators, p, attempts, source.stream, seed.Length)
    modifies ctx, source, seed, generators, metrics
    ensures var turn := Attempt(generators[i], Supplied(old(source.position)));
            Tracks(generators, p, if r.Attempted? then attempts + [turn] else attempts, source.stream, seed.Length)
    ensures r.Attempted? ==>
              && source.position == old(source.position) + seed.Length
              && metrics.reseeds == old(metrics.reseeds) + if generators[i] in OpenIn(p) then 1 else 0
    ensures !r.Attempted? ==> metrics.reseeds == old(metrics.reseeds)
    ensures !r.Cancelled? ==> IsZero(seed)
    ensures Turned(r, ctx, old(ctx.polls), source, Mark(old(source.position), old(source.calls)), seed.Length)
  {
    hide After, Try, Turned;
    ghost var turn := Attempt(generators[i], Supplied(source.position));
    TryKeepsClosed(generators[i].primitives, generators[i].State(), turn.outcome, source.stream, seed.Length);
    r := Refresh(ctx, source, seed, generators[i], metrics);
    if r.Attempted? {
      forall d | d in generators
        ensures d.State() == After(d.primitives, p[d], d, attempts + [turn], source.stream, seed.Length)
      {
        AfterOneMore(d.primitives, p[d], d, attempts, turn, source.stream, seed.Length);
      }
    }
  }

  /**
   One tick: a whole one, or on cancellation, with the buffer possibly still holding source bytes,
   its turns before the cut.
   */
  method Tick(ctx: Context, source: ByteSource, seed: array<byte>, generators: seq<Drbg>, metrics: Metrics,
              ghost p: map<Drbg, Gen>, ghost earlier: seq<Attempt>)
    returns (completed: bool, ghost attempts: seq<Attempt>)
    requires IsZero(seed) && MIN_BUFFER <= seed.Length
    requires Tracks(generators, p, earlier, source.stream, seed.Length)
    modifies ctx, source, seed, generators, metrics
    ensures Tracks(generators, p, earlier + attempts, source.stream, seed.Length)
    ensures metrics.reseeds == old(metrics.reseeds) + Successes(attempts, OpenIn(p))
    ensures var f, m := Feed(source.shortAt, seed.Length), Mark(old(source.position), old(source.calls));
            var limit := CallLimit(ctx.cancelledFrom, old(ctx.polls), m.call);
            var end := TickEnd(f, m, |generators|);
            && (completed <==> Allowed(limit, end.call))
            && (completed ==>
                  && IsZero(seed)
                  && attempts == FullTick(f, m, generators)
                  && Mark(source.position, source.calls) == end
                  && CallLimit(ctx.cancelledFrom, ctx.polls, source.calls) == limit)
            && (!completed ==>
                  && limit.value - m.call <= |generators|
                  && attempts == FullTick(f, m, generators)[..limit.value - m.call])
  {
    hide Tracks, OpenIn, SegmentStart, Successes, Rest, FullTick, TickEnd, FirstShort, IsZero, CallLimit, Short;
    ghost var f, m := Feed(source.shortAt, seed.Length), Mark(source.position, source.calls);
    ghost var limit, full := CallLimit(ctx.cancelledFrom, ctx.polls, source.calls), FullTick(f, m, generators);
    attempts := [];
    assert earlier + attempts == earlier;
    SegmentsFollow(m.position, 0, seed.Length);
    NoAttempts(OpenIn(p));
    LimitAhead(ctx.cancelledFrom, ctx.polls, source.calls);
    for i := 0 to |generators|
      invariant IsZero(seed) && i <= FirstShort(f, m.call, |generators|) && attempts == full[..i]
      invariant Tracks(generators, p, earlier + attempts, source.stream, seed.Length)
      invariant source.position == SegmentStart(m.position, i, seed.Length) && source.calls == m.call + i
      invariant CallLimit(ctx.cancelledFrom, ctx.polls, source.calls) == limit && Allowed(limit, source.calls)
      invariant metrics.reseeds == old(metrics.reseeds) + Successes(attempts, OpenIn(p))
    {
      ghost var polls, turn := ctx.polls, Attempt(generators[i], Supplied(source.position));
      var r := RefreshListed(ctx, source, seed, generators, i, metrics, p, earlier + attempts);
      if r.Cancelled? {
        LimitIsHere(ctx.cancelledFrom, polls, m.call + i);
        TickGoesOn(f, m, |generators|, i);
        return false, attempts;
      }
      LimitStays(ctx.cancelledFrom, polls, m.call + i);
      if r.SourceDown? {
        TurnFailed(f, m, generators, i);
        RecordPending(generators, i, SOURCE_ERROR, SourceFailed, p, earlier + attempts, source.stream, seed.Length);
        assert earlier + attempts + Rest(generators, i, SourceFailed) == earlier + full;
        FailuresAddNothing(attempts, generators, i, OpenIn(p));
        return true, full;
      }
      TurnSupplied(f, m, generators, i);
      SegmentsFollow(m.position, i, seed.Length);
      assert earlier + attempts + [turn] == earlier + full[..i + 1];
      SuccessOrNot(attempts, turn, OpenIn(p));
      attempts := full[..i + 1];
    }
    TickWhole(f, m, generators);
    completed := true;
  }

  /** The per-generator success counts since p add up to the global count of the same attempts. */
  lemma GlobalCountIsSum(ds: seq<Drbg>, generators: seq<Drbg>, p: map<Drbg, Gen>, attempts: seq<Attempt>,
                         stream: nat -> byte, size: nat)
    requires size >= MIN_BUFFER && Tracks(generators, p, attempts, stream, size) && Lists(ds, generators)
    requires forall a :: a in attempts ==> a.target in generators
    ensures Successes(attempts, OpenIn(p)) == Rise(ds, p)
  {
    assert Tracks(ds, p, attempts, stream, size);
    SuccessesAreShared(ds, OpenIn(p), attempts);
    RiseOfSuccesses(ds, p, attempts, stream, size);
  }

  lemma GlobalCountIsEverySum(generators: seq<Drbg>, p: map<Drbg, Gen>, attempts: seq<Attempt>, stream: nat -> byte,
                              size: nat)
    requires size >= MIN_BUFFER && Tracks(generators, p, attempts, stream, size)
    requires forall a :: a in attempts ==> a.target in generators
    ensures forall d :: d in generators ==> d in p
    ensures forall ds: seq<Drbg> :: Lists(ds, generators) ==> Successes(attempts, OpenIn(p)) == Rise(ds, p)
  {
    forall ds: seq<Drbg> | Lists(ds, generators) ensures Successes(attempts, OpenIn(p)) == Rise(ds, p) {
      GlobalCountIsSum(ds, generators, p, attempts, stream, size);
    }
  }

  lemma {:induction false} RiseOfSuccesses(ds: seq<Drbg>, p: map<Drbg, Gen>, attempts: seq<Attempt>,
                                           stream: nat -> byte, size: nat)
    requires size >= MIN_BUFFER && Tracks(ds, p, attempts, stream, size)
    ensures SumOfSuccesses(ds, OpenIn(p), attempts) == Rise(ds, p)
  {
    hide After, SuccessesOf;
    if ds != [] {
      var d := ds[|ds| - 1];
      RiseOfSuccesses(ds[..|ds| - 1], p, attempts, stream, size);
      EachAttemptCountsOnce(d.primitives, p[d], d, attempts, stream, size);
    }
  }

  /** The select loop: tick after tick until the schedule or a cancelled tick ends it. */
  method KeepTicking(ctx: Context, source: ByteSource, seed: array<byte>, generators: seq<Drbg>, metrics: Metrics,
                     schedule: seq<Signal>, ghost p: map<Drbg, Gen>)
    returns (ghost attempts: seq<Attempt>, ghost ticks: nat)
    requires IsZero(seed) && MIN_BUFFER <= seed.Length && Tracks(generators, p, [], source.stream, seed.Length)
    modifies ctx, source, seed, generators, metrics
    ensures var m := Mark(old(source.position), old(source.calls));
            IsRun(attempts, ticks, Feed(source.shortAt, seed.Length), m, generators,
                  CallLimit(ctx.cancelledFrom, old(ctx.polls), m.call), Scheduled(schedule))
    ensures Tracks(generators, p, attempts, source.stream, seed.Length)
    ensures metrics.reseeds == old(metrics.reseeds) + Successes(attempts, OpenIn(p))
  {
    hide Tracks, OpenIn, FullTick, TickEnd, Successes, CallLimit, IsZero, IsRun, FullTicks, MarkAfter, Scheduled;
    ghost var f, m := Feed(source.shortAt, seed.Length), Mark(source.position, source.calls);
    ghost var limit := CallLimit(ctx.cancelledFrom, ctx.polls, source.calls);
    attempts, ticks := [], 0;
    NoAttempts(OpenIn(p));
    NextTick(f, m, generators, 0);
    LimitAhead(ctx.cancelledFrom, ctx.polls, source.calls);
    for i := 0 to |schedule|
      invariant IsZero(seed) && i == ticks <= Scheduled(schedule)
      invariant attempts == FullTicks(f, m, generators, ticks)
      invariant Mark(source.position, source.calls) == MarkAfter(f, m, |generators|, ticks)
      invariant CallLimit(ctx.cancelledFrom, ctx.polls, source.calls) == limit && Allowed(limit, source.calls)
      invariant Tracks(generators, p, attempts, source.stream, seed.Length)
      invariant metrics.reseeds == old(metrics.reseeds) + Successes(attempts, OpenIn(p))
    {
      if schedule[i] == ContextDone {
        break;
      }
      NextTick(f, m, generators, ticks);
      var completed;
      ghost var more;
      completed, more := Tick(ctx, source, seed, generators, metrics, p, attempts);
      SuccessesJoin(attempts, more, OpenIn(p));
      attempts := attempts + more;
      if !completed {
        CutRun(f, m, generators, ticks, limit, Scheduled(schedule));
        return;
      }
      ticks := ticks + 1;
    }
    WholeRun(f, m, generators, ticks, limit);
  }

  /**
   The whole loop over a schedule of ticker and cancellation signals. Its attempts are those of
   the run that the schedule, the source and the cancellation determine, every generator ends in
   the state its own attempts lead to, and a buffer size outside the bounds is charged to all of
   them before a byte is read.
   */
  method Run(ctx: Context, source: ByteSource, size: int, generators: seq<Drbg>, metrics: Metrics,
             schedule: seq<Signal>)
    returns (ghost attempts: seq<Attempt>, ghost p: map<Drbg, Gen>, ghost ticks: nat)
    requires forall d :: d in generators ==> d.Valid()
    modifies ctx, source, generators, metrics
    ensures p == old(map d | d in generators :: d.State())
    ensures size < 32 || size > 0x10_0000 ==>
              && attempts == Rest(generators, 0, BadSize) && unchanged(source) && unchanged(metrics)
              && |attempts| == |generators|
              && forall i :: 0 <= i < |generators| ==> attempts[i] == Attempt(generators[i], BadSize)
    ensures 32 <= size <= 0x10_0000 ==>
              var m := Mark(old(source.position), old(source.calls));
              IsRun(attempts, ticks, Feed(source.shortAt, size), m, generators,
                    CallLimit(ctx.cancelledFrom, old(ctx.polls), m.call), Scheduled(schedule))
    ensures Tracks(generators, p, attempts, source.stream, if size < 0 then 0 else size)
    ensures metrics.reseeds == old(metrics.reseeds) + Successes(attempts, OpenIn(p))
    ensures forall d :: d in generators ==>
              && d in p && Sound(p[d])
              && d.State() == After(d.primitives, p[d], d, attempts, source.stream, if size < 0 then 0 else size)
    ensures 32 <= size <= 0x10_0000 ==>
              forall ds: seq<Drbg> :: Lists(ds, generators) ==> metrics.reseeds == old(metrics.reseeds) + Rise(ds, p)
  {
    hide Tracks, OpenIn, FullTick, TickEnd, Successes, CallLimit, IsRun, FullTicks, MarkAfter, Rise, Lists,
         After, Sound;
    attempts, ticks := [], 0;
    p := map d | d in generators :: d.State();
    NothingAttempted(generators, p, source.stream, if size < 0 then 0 else size);
    if size < MIN_BUFFER || size > MAX_BUFFER {
      RecordPending(generators, 0, BadBufferSize, BadSize, p, [], source.stream, if size < 0 then 0 else size);
      attempts := [] + Rest(generators, 0, BadSize);
      assert attempts == Rest(generators, 0, BadSize);
      FailuresAloneAddNothing(attempts, OpenIn(p));
      TracksEach(generators, p, attempts, source.stream, if size < 0 then 0 else size);
      return;
    }
    var seed := new byte[size](_ => 0);
    ghost var m, limit := Mark(source.position, source.calls), CallLimit(ctx.cancelledFrom, ctx.polls, source.calls);
    attempts, ticks := KeepTicking(ctx, source, seed, generators, metrics, schedule, p);
    Clear(seed);
    RunTargets(attempts, ticks, Feed(source.shortAt, size), m, generators, limit, Scheduled(schedule));
    GlobalCountIsEverySum(generators, p, attempts, source.stream, size);
    TracksEach(generators, p, attempts, source.stream, size);
  }

  lemma NothingAttempted(generators: seq<Drbg>, p: map<Drbg, Gen>, stream: nat -> byte, size: nat)
    requires forall d :: d in generators ==> d.Valid() && d in p && p[d] == d.State()
    ensures Tracks(generators, p, [], stream, size)
  {
  }

  lemma TracksEach(generators: seq<Drbg>, p: map<Drbg, Gen>, attempts: seq<Attempt>, stream: nat -> byte, size: nat)
    requires Tracks(generators, p, attempts, stream, size)
    ensures forall d :: d in generators ==>
              && d in p && Sound(p[d])
              && d.State() == After(d.primitives, p[d], d, attempts, stream, size)
  {
  }
}
