/**
 Running statistics over a byte stream that arrives in chunks, and the reading loop that
 reports them. Everything is tied to the bytes seen so far, so the chunking cannot matter.
 Sums are exact; p-values and the entropy are not part of the model.
 */
module StreamStatistics {
  import opened Common
  import opened SerialCorrelation

  /** The set bits of a byte. */
  function Ones(v: nat): nat {
    if v == 0 then 0 else v % 2 + Ones(v / 2)
  }

  function AllOnes(data: seq<Sample>): nat {
    if data == [] then 0 else AllOnes(data[..|data| - 1]) + Ones(data[|data| - 1])
  }

  /** They are its eight binary digits added up. */
  lemma OnesAreDigits(v: Sample)
    ensures Ones(v) == v % 2 + v / 2 % 2 + v / 4 % 2 + v / 8 % 2 + v / 16 % 2 + v / 32 % 2 + v / 64 % 2 + v / 128 % 2
  {
    hide Ones;
    Halves(v);
    OneDigit(v);
    OneDigit(v / 2);
    OneDigit(v / 4);
    OneDigit(v / 8);
    OneDigit(v / 16);
    OneDigit(v / 32);
    OneDigit(v / 64);
    OneDigit(v / 128);
  }

  lemma Halves(v: Sample)
    ensures v / 2 / 2 == v / 4 && v / 4 / 2 == v / 8 && v / 8 / 2 == v / 16 && v / 16 / 2 == v / 32
    ensures v / 32 / 2 == v / 64 && v / 64 / 2 == v / 128 && v / 128 / 2 == 0 && v / 256 == 0
  {
  }

  lemma OneDigit(v: nat)
    ensures Ones(v) == v % 2 + Ones(v / 2) && Ones(0) == 0
  {
  }

  /** How often each byte value occurs. */
  ghost predicate Histogram(h: array<nat>, data: seq<Sample>)
    reads h
  {
    h.Length == 256 && forall v: Sample :: h[v] == multiset(data)[v]
  }

  /** What one more sample adds to each running sum. */
  lemma OneMoreSample(x: seq<real>, r: real)
    ensures var y := x + [r];
            && Sum(y) == Sum(x) + r
            && Squares(y) == Squares(x) + Times(r, r)
            && Products(y) == Products(x) + (if x == [] then 0.0 else Times(x[|x| - 1], r))
  {
    hide Times;
    assert (x + [r])[..|x|] == x;
  }

  lemma OneMoreByte(seen: seq<Sample>, v: Sample)
    ensures Reals(seen + [v]) == Reals(seen) + [v as real]
    ensures AllOnes(seen + [v]) == AllOnes(seen) + Ones(v)
  {
    hide Ones;
    assert (seen + [v])[..|seen|] == seen;
  }

  /** One more byte in the histogram. */
  method CountByte(h: array<nat>, v: Sample, ghost seen: seq<Sample>)
    requires Histogram(h, seen)
    modifies h
    ensures Histogram(h, seen + [v])
  {
    h[v] := h[v] + 1;
  }

  class StreamTester {
    var total: nat
    const hist: array<nat>
    var bitOnes: nat
    var sum: real
    var sumSq: real
    var sumProd: real
    var prev: Sample
    var havePrev: bool
    var pairs: nat

    /** The fields are what one pass over all of data would leave. */
    ghost predicate Holds(data: seq<Sample>)
      reads this, hist
    {
      && total == |data|
      && Histogram(hist, data)
      && bitOnes == AllOnes(data)
      && Sums(data)
    }

    ghost predicate Sums(data: seq<Sample>)
      reads `sum, `sumSq, `sumProd, `havePrev, `prev, `pairs
    {
      var x := Reals(data);
      && sum == Sum(x) && sumSq == Squares(x) && sumProd == Products(x)
      && havePrev == (data != [])
      && (data != [] ==> prev == data[|data| - 1])
      && pairs == (if data == [] then 0 else |data| - 1)
    }

    constructor ()
      ensures fresh(hist) && Holds([])
    {
      total, bitOnes, pairs, prev, havePrev := 0, 0, 0, 0, false;
      sum, sumSq, sumProd := 0.0, 0.0, 0.0;
      hist := new nat[256](_ => 0);
    }

    /** One more chunk: the state of the whole input so far, wherever it was cut. */
    method Add(b: seq<Sample>, ghost before: seq<Sample>)
      requires Holds(before)
      modifies this, hist
      ensures Holds(before + b)
    {
      hide Histogram, AllOnes, Sums;
      if |b| == 0 {
        assert before + b == before;
        return;
      }
      assert before + b[..0] == before;
      for i := 0 to |b|
        invariant total == |before|
        invariant Histogram(hist, before + b[..i]) && bitOnes == AllOnes(before + b[..i])
        invariant Sums(before + b[..i])
      {
        ghost var seen := before + b[..i];
        assert before + b[..i + 1] == seen + [b[i]];
        AddByte(b[i], seen);
      }
      assert b[..|b|] == b;
      total := total + |b|;
    }

    /** The loop body: histogram, bit count and correlation sums of one byte. */
    method AddByte(v: Sample, ghost seen: seq<Sample>)
      requires Histogram(hist, seen) && bitOnes == AllOnes(seen) && Sums(seen)
      modifies this, hist
      ensures Histogram(hist, seen + [v]) && bitOnes == AllOnes(seen + [v]) && Sums(seen + [v])
      ensures total == old(total)
    {
      hide Times, Sum, Squares, Products, AllOnes, Ones, Histogram;
      OneMoreByte(seen, v);
      OneMoreSample(Reals(seen), v as real);
      CountByte(hist, v, seen);
      bitOnes := bitOnes + Ones(v);
      var r := v as real;
      sum := sum + r;
      sumSq := sumSq + Times(r, r);
      if havePrev {
        sumProd := sumProd + Times(prev as real, r);
        pairs := pairs + 1;
      }
      prev := v;
      havePrev := true;
    }

    /** The correlation up to r, with both clamps. */
    method ComputeSerial(ghost data: seq<Sample>) returns (r: real)
      requires Holds(data)
      ensures r == StreamResult(data)
    {
      if total < 3 || pairs == 0 {
        return 0.0;
      }
      var numerator := sumProd - sum * sum / total as real;
      var denominator := sumSq - sum * sum / total as real;
      if denominator == 0.0 {
        return 0.0;
      }
      assert numerator == StreamNumerator(Reals(data)) && denominator == StreamDenominator(Reals(data));
      r := numerator / denominator;
      if r >= 1.0 {
        r := CLAMP;
      }
      if r <= -1.0 {
        r := -CLAMP;
      }
    }
  }

  // ---------------------------------------------------------------- chunking

  function Concat(chunks: seq<seq<Sample>>): seq<Sample> {
    if chunks == [] then [] else Concat(chunks[..|chunks| - 1]) + chunks[|chunks| - 1]
  }

  lemma ConcatOneMore(chunks: seq<seq<Sample>>, chunk: seq<Sample>)
    ensures Concat(chunks + [chunk]) == Concat(chunks) + chunk
  {
    assert (chunks + [chunk])[..|chunks|] == chunks;
  }

  /** Feeding any chunks one by one leaves exactly what one Add of their concatenation does. */
  method AddAll(t: StreamTester, chunks: seq<seq<Sample>>)
    requires t.Holds([])
    modifies t, t.hist
    ensures t.Holds(Concat(chunks))
  {
    for i := 0 to |chunks|
      invariant t.Holds(Concat(chunks[..i]))
    {
      assert chunks[..i + 1][..i] == chunks[..i];
      t.Add(chunks[i], Concat(chunks[..i]));
    }
    assert chunks[..|chunks|] == chunks;
  }

  /** A tester's fields are a function of the bytes it has seen: two that saw the same bytes agree on all of them. */
  lemma StateIsDetermined(a: StreamTester, b: StreamTester, data: seq<Sample>)
    requires a.Holds(data) && b.Holds(data)
    ensures a.total == b.total && a.hist[..] == b.hist[..] && a.bitOnes == b.bitOnes
    ensures a.sum == b.sum && a.sumSq == b.sumSq && a.sumProd == b.sumProd
    ensures a.havePrev == b.havePrev && a.pairs == b.pairs && (data != [] ==> a.prev == b.prev)
  {
    forall i | 0 <= i < 256 ensures a.hist[i] == b.hist[i] {
      var v: Sample := i;
      assert a.hist[v] == multiset(data)[v] == b.hist[v];
    }
  }

  // ---------------------------------------------------------------- the reading loop

  /** What the loop meets next: a cancelled context, or a read of some bytes that may also end the input. */
  datatype Ending = More | EndOfFile | Broken
  datatype Event = Cancelled | Got(data: seq<Sample>, ending: Ending)
  datatype Outcome = Completed | Failed | ContextDone | Pending

  /** The chunks that are read before the loop stops. */
  function Chunks(events: seq<Event>): seq<seq<Sample>> {
    if events == [] || events[0].Cancelled? then []
    else if events[0].ending.More? then [events[0].data] + Chunks(events[1..])
    else [events[0].data]
  }

  function HowItEnds(events: seq<Event>): Outcome {
    if events == [] then Pending
    else if events[0].Cancelled? then ContextDone
    else if events[0].ending.More? then HowItEnds(events[1..])
    else if events[0].ending.EndOfFile? then Completed
    else Failed
  }

  /** Reads that do not end the input only add their chunks in front. */
  lemma {:induction false} EventsSoFar(before: seq<Event>, rest: seq<Event>)
    requires forall k :: 0 <= k < |before| ==> before[k].Got? && before[k].ending.More?
    ensures Chunks(before + rest) == Chunks(before) + Chunks(rest)
    ensures HowItEnds(before + rest) == HowItEnds(rest)
  {
    if before == [] {
      assert before + rest == rest;
    } else {
      EventsSoFar(before[1..], rest);
      assert (before + rest)[1..] == before[1..] + rest;
    }
  }

  /** The loop at event i: stop with the chunks so far, stop with one more, or go on with one more. */
  lemma AtEvent(events: seq<Event>, i: nat)
    requires i < |events|
    requires forall k :: 0 <= k < i ==> events[k].Got? && events[k].ending.More?
    ensures events[i].Cancelled? ==> Chunks(events) == Chunks(events[..i]) && HowItEnds(events) == ContextDone
    ensures events[i].Got? ==>
              var chunks := Chunks(events[..i]) + [events[i].data];
              match events[i].ending
              case More => Chunks(events[..i + 1]) == chunks
              case EndOfFile => Chunks(events) == chunks && HowItEnds(events) == Completed
              case Broken => Chunks(events) == chunks && HowItEnds(events) == Failed
  {
    EventsSoFar(events[..i], events[i..]);
    EventsSoFar(events[..i], [events[i]]);
    assert events == events[..i] + events[i..] && events[..i + 1] == events[..i] + [events[i]];
  }

  /** In terms of the events: every read up to the one that ends the loop is taken, that one too unless it is none. */
  lemma ChunksAre(events: seq<Event>, i: nat)
    requires i <= |events| && forall k :: 0 <= k < i ==> events[k].Got? && events[k].ending.More?
    requires i < |events| ==> events[i].Cancelled? || !events[i].ending.More?
    ensures |Chunks(events)| == i + if i < |events| && events[i].Got? then 1 else 0
    ensures forall k :: 0 <= k < |Chunks(events)| ==> events[k].Got? && Chunks(events)[k] == events[k].data
    ensures HowItEnds(events) == if i == |events| then Pending
                                 else if events[i].Cancelled? then ContextDone
                                 else if events[i].ending.EndOfFile? then Completed else Failed
  {
    ChunksOfReads(events[..i]);
    if i < |events| {
      AtEvent(events, i);
    } else {
      assert events[..i] == events;
      NeverEnded(events);
    }
  }

  lemma {:induction false} ChunksOfReads(events: seq<Event>)
    requires forall k :: 0 <= k < |events| ==> events[k].Got? && events[k].ending.More?
    ensures |Chunks(events)| == |events| && forall k :: 0 <= k < |events| ==> Chunks(events)[k] == events[k].data
  {
    if events != [] {
      ChunksOfReads(events[1..]);
    }
  }

  lemma NeverEnded(events: seq<Event>)
    requires forall k :: 0 <= k < |events| ==> events[k].Got? && events[k].ending.More?
    ensures HowItEnds(events) == Pending
  {
    EventsSoFar(events, []);
    assert events + [] == events;
  }

  /** A report: how many bytes were in, and their correlation. */
  datatype Report = Report(total: nat, serialR: real)

  /** The next threshold and the periodic reports after some chunks. */
  function Watch(chunks: seq<seq<Sample>>, interval: nat, chunkSize: nat): (nat, seq<Report>) {
    if chunks == [] then (if interval == 0 then chunkSize else interval, [])
    else
      var (next, reports) := Watch(chunks[..|chunks| - 1], interval, chunkSize);
      var total := |Concat(chunks)|;
      if |chunks[|chunks| - 1]| > 0 && total >= next
      then (next + interval, reports + [Report(total, StreamResult(Concat(chunks)))])
      else (next, reports)
  }

  /**
   A read is reported if it brought something and the total has reached the next threshold, which
   is one interval (one buffer, if the interval is zero) and one more for each report so far; the
   report is of everything up to and including that read.
   */
  lemma {:induction false} WatchIs(chunks: seq<seq<Sample>>, chunk: seq<Sample>, interval: nat, chunkSize: nat)
    ensures Watch([], interval, chunkSize).1 == []
    ensures var (next, reports) := Watch(chunks, interval, chunkSize);
            var seen := Concat(chunks) + chunk;
            var threshold := (if interval == 0 then chunkSize else interval) + |reports| * interval;
            && next == threshold
            && Watch(chunks + [chunk], interval, chunkSize).1
               == reports
                  + if chunk != [] && |seen| >= threshold then [Report(|seen|, StreamResult(seen))] else []
  {
    hide StreamResult, Concat;
    assert (chunks + [chunk])[..|chunks|] == chunks;
    ConcatOneMore(chunks, chunk);
    if chunks != [] {
      var last := |chunks| - 1;
      OneMoreStep(|Watch(chunks[..last], interval, chunkSize).1|, interval);
      WatchIs(chunks[..last], chunks[last], interval, chunkSize);
      assert chunks[..last] + [chunks[last]] == chunks;
    }
  }

  lemma OneMoreStep(n: nat, interval: nat)
    ensures (n + 1) * interval == n * interval + interval
  {
  }

  /** What a callback is given. */
  method Result(tester: StreamTester, ghost data: seq<Sample>) returns (report: Report)
    requires tester.Holds(data)
    ensures report == Report(|data|, StreamResult(data))
  {
    var r := tester.ComputeSerial(data);
    report := Report(tester.total, r);
  }

  /** One successful read: the chunk is added, and a threshold it passes is reported once. */
  method Observe(tester: StreamTester, data: seq<Sample>, next: nat, reports: seq<Report>, interval: nat,
                 ghost before: seq<seq<Sample>>, ghost chunkSize: nat)
    returns (newNext: nat, newReports: seq<Report>)
    requires tester.Holds(Concat(before)) && (next, reports) == Watch(before, interval, chunkSize)
    modifies tester, tester.hist
    ensures tester.Holds(Concat(before + [data]))
    ensures (newNext, newReports) == Watch(before + [data], interval, chunkSize)
  {
    hide StreamResult, Histogram, AllOnes, Sum, Squares, Products, Times;
    newNext, newReports := next, reports;
    ghost var chunks := before + [data];
    assert chunks[..|before|] == before;
    if |data| > 0 {
      tester.Add(data, Concat(before));
      if tester.total >= next {
        var report := Result(tester, Concat(chunks));
        newNext, newReports := next + interval, reports + [report];
      }
    } else {
      assert Concat(chunks) == Concat(before);
    }
  }

  /**
   The whole loop: periodic reports as the thresholds pass, one more at the end of the input,
   and none after a failure or cancellation.
   */
  method RunFromReader(events: seq<Event>, chunkSize: nat, callbackInterval: nat)
    returns (outcome: Outcome, reports: seq<Report>)
    ensures outcome == HowItEnds(events)
    ensures var chunks := Chunks(events);
            reports == Watch(chunks, callbackInterval, chunkSize).1
                       + if outcome.Completed? then [Report(|Concat(chunks)|, StreamResult(Concat(chunks)))] else []
  {
    hide StreamResult, StreamTester.Holds;
    var tester := new StreamTester();
    ghost var chunks := [];
    reports := [];
    var next := callbackInterval;
    if next == 0 {
      next := chunkSize;
    }
    assert Concat(chunks) == [] && Watch(chunks, callbackInterval, chunkSize) == (next, reports);
    assert Chunks(events[..0]) == [];
    hide Concat, Watch, Chunks, HowItEnds;
    for i := 0 to |events|
      invariant forall k :: 0 <= k < i ==> events[k].Got? && events[k].ending.More?
      invariant chunks == Chunks(events[..i])
      invariant fresh(tester) && fresh(tester.hist) && tester.Holds(Concat(chunks))
      invariant (next, reports) == Watch(chunks, callbackInterval, chunkSize)
    {
      AtEvent(events, i);
      if events[i].Cancelled? {
        return ContextDone, reports;
      }
      next, reports := Observe(tester, events[i].data, next, reports, callbackInterval, chunks, chunkSize);
      chunks := chunks + [events[i].data];
      if events[i].ending.EndOfFile? {
        var report := Result(tester, Concat(chunks));
        return Completed, reports + [report];
      }
      if events[i].ending.Broken? {
        return Failed, reports;
      }
    }
    assert events[..|events|] == events;
    NeverEnded(events);
    outcome := Pending;
  }

  /** Readers never deliver more than the buffer they are given. */
  predicate FitBuffer(chunks: seq<seq<Sample>>, chunkSize: nat) {
    forall k :: 0 <= k < |chunks| ==> |chunks[k]| <= chunkSize
  }

  lemma UniqueQuotient(total: nat, interval: nat, q: nat)
    requires interval > 0 && q * interval <= total < (q + 1) * interval
    ensures total / interval == q
  {
    var r := total / interval;
    assert total == r * interval + total % interval;
    assert r < q ==> (r + 1) * interval <= q * interval;
    assert r > q ==> r * interval >= (q + 1) * interval;
  }

  /** While no chunk is longer than the interval, the reports keep pace with the thresholds. */
  lemma {:induction false} WatchKeepsPace(chunks: seq<seq<Sample>>, interval: nat, chunkSize: nat)
    requires FitBuffer(chunks, chunkSize) && 0 < chunkSize <= interval
    ensures var (next, reports) := Watch(chunks, interval, chunkSize);
            var total := |Concat(chunks)|;
            next == (|reports| + 1) * interval && |reports| * interval <= total < next
  {
    if chunks != [] {
      var last := |chunks| - 1;
      WatchKeepsPace(chunks[..last], interval, chunkSize);
      var (next, reports) := Watch(chunks[..last], interval, chunkSize);
      NextThreshold(|reports|, interval);
    }
  }

  lemma NextThreshold(n: nat, interval: nat)
    ensures (n + 2) * interval == (n + 1) * interval + interval
  {
  }

  ghost predicate OneReportPerInterval(interval: nat, chunkSize: nat)
    requires interval > 0
  {
    forall chunks | FitBuffer(chunks, chunkSize) ::
      |Watch(chunks, interval, chunkSize).1| == |Concat(chunks)| / interval
  }

  /**
   The periodic reports number floor(total / interval) for every reader exactly when the interval is
   no shorter than the buffer.
   */
  lemma OnePerIntervalExactlyWhen(interval: nat, chunkSize: nat)
    requires interval > 0 && chunkSize > 0
    ensures OneReportPerInterval(interval, chunkSize) <==> chunkSize <= interval
  {
    if chunkSize <= interval {
      forall chunks | FitBuffer(chunks, chunkSize)
        ensures |Watch(chunks, interval, chunkSize).1| == |Concat(chunks)| / interval
      {
        WatchKeepsPace(chunks, interval, chunkSize);
        UniqueQuotient(|Concat(chunks)|, interval, |Watch(chunks, interval, chunkSize).1|);
      }
    } else {
      var chunks := FullChunks(interval, chunkSize);
      FullChunksFallBehind(interval, interval, chunkSize);
      assert |Concat(chunks)| / interval == chunkSize by {
        assert interval * chunkSize == chunkSize * interval;
        UniqueQuotient(|Concat(chunks)|, interval, chunkSize);
      }
      assert FitBuffer(chunks, chunkSize);
    }
  }

  /** n reads that each fill the buffer. */
  function FullChunks(n: nat, chunkSize: nat): (c: seq<seq<Sample>>)
    ensures |c| == n && FitBuffer(c, chunkSize)
  {
    seq(n, _ => seq(chunkSize, _ => 0))
  }

  /** At most one report per read: with longer reads than intervals there are fewer reports than intervals. */
  lemma {:induction false} FullChunksFallBehind(n: nat, interval: nat, chunkSize: nat)
    ensures |Concat(FullChunks(n, chunkSize))| == n * chunkSize
    ensures |Watch(FullChunks(n, chunkSize), interval, chunkSize).1| <= n
  {
    if n > 0 {
      FullChunksFallBehind(n - 1, interval, chunkSize);
      assert FullChunks(n, chunkSize)[..n - 1] == FullChunks(n - 1, chunkSize);
      assert n * chunkSize == (n - 1) * chunkSize + chunkSize;
    }
  }
}
