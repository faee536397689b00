/**
 Lifetime peaks of server activity: the largest average rate over any interval between two
 accepted observations. Time counts nanoseconds after Go's zero time, which marks a monitor
 that has seen nothing; rates are exact.
 */
module ActivityPeaks {

  datatype Kind = GeneratedBytes | WsFrames | HttpRequests | WsRejections | HttpRejections

  datatype Counters = Counters(
    generatedBytes: nat, wsFrames: nat, httpRequests: nat, wsRejections: nat, httpRejections: nat)
  {
    function Of(kind: Kind): nat {
      match kind
      case GeneratedBytes => generatedBytes
      case WsFrames => wsFrames
      case HttpRequests => httpRequests
      case WsRejections => wsRejections
      case HttpRejections => httpRejections
    }
  }

  datatype Peaks = Peaks(
    generatedBytesPerSecond: real, wsFramesPerSecond: real, httpRequestsPerSecond: real,
    wsRejectionsPerMinute: real, httpRejectionsPerMinute: real)
  {
    function Of(kind: Kind): real {
      match kind
      case GeneratedBytes => generatedBytesPerSecond
      case WsFrames => wsFramesPerSecond
      case HttpRequests => httpRequestsPerSecond
      case WsRejections => wsRejectionsPerMinute
      case HttpRejections => httpRejectionsPerMinute
    }
  }

  datatype Observation = Observation(now: nat, counters: Counters)
  datatype Interval = Interval(from: Observation, to: Observation)

  const NOTHING := Observation(0, Counters(0, 0, 0, 0, 0))
  const MAX_DURATION := 0x7fff_ffff_ffff_ffff

  /** Rejections are shown per minute, everything else per second. */
  function Scale(kind: Kind): real {
    if kind.WsRejections? || kind.HttpRejections? then 60.0 else 1.0
  }

  /** Go's difference of two times, which stops at the longest duration. */
  function Since(now: nat, last: nat): (d: int) {
    var d := now - last;
    if d > MAX_DURATION then MAX_DURATION else if d < -MAX_DURATION - 1 then -MAX_DURATION - 1 else d
  }

  function Seconds(d: int): real {
    d as real / 1000000000.0
  }

  function RateOver(increase: int, seconds: real, scale: real): real
    requires seconds > 0.0
  {
    increase as real / seconds * scale
  }

  // ---------------------------------------------------------------- what a history amounts to

  /** The observation that later ones are compared with. */
  function Stored(h: seq<Observation>): Observation {
    if h == [] then NOTHING
    else
      var s, o := Stored(h[..|h| - 1]), h[|h| - 1];
      if s.now == 0 || o.now > s.now then o else s
  }

  /** The accepted intervals, oldest first. */
  function Intervals(h: seq<Observation>): seq<Interval> {
    if h == [] then []
    else
      var s, o := Stored(h[..|h| - 1]), h[|h| - 1];
      Intervals(h[..|h| - 1]) + if s.now != 0 && o.now > s.now then [Interval(s, o)] else []
  }

  ghost predicate Counted(i: Interval, kind: Kind) {
    i.from.now < i.to.now && i.from.counters.Of(kind) <= i.to.counters.Of(kind)
  }

  function Rate(i: Interval, kind: Kind): real
    requires Counted(i, kind)
  {
    RateOver(i.to.counters.Of(kind) - i.from.counters.Of(kind), Seconds(Since(i.to.now, i.from.now)), Scale(kind))
  }

  /** p is the largest rate over the intervals in which the counter did not fall, or zero without any. */
  ghost predicate IsPeak(p: real, kind: Kind, intervals: seq<Interval>) {
    && p >= 0.0
    && (forall i | i in intervals && Counted(i, kind) :: Rate(i, kind) <= p)
    && (p == 0.0 || exists i :: i in intervals && Counted(i, kind) && Rate(i, kind) == p)
  }

  /** The stored observation is the earliest of those with the latest time. */
  lemma {:induction false} StoredIsEarliestLatest(h: seq<Observation>)
    ensures forall o | o in h :: o.now <= Stored(h).now
    ensures Stored(h).now > 0 ==>
              exists k :: 0 <= k < |h| && h[k] == Stored(h) && forall j | 0 <= j < k :: h[j].now < h[k].now
  {
    if h != [] {
      var rest, o := h[..|h| - 1], h[|h| - 1];
      StoredIsEarliestLatest(rest);
      assert h == rest + [o];
      if Stored(h) == o {
        assert forall j | 0 <= j < |h| - 1 :: rest[j] in rest && h[j] == rest[j];
        if o.now > 0 && o.now <= Stored(rest).now {
          assert Stored(rest) == o;
        }
      }
    }
  }

  /** Accepted intervals advance, join end to start, and lead up to the stored observation. */
  lemma {:induction false} IntervalsJoin(h: seq<Observation>)
    ensures var iv := Intervals(h);
            && (forall k :: 0 <= k < |iv| ==> iv[k].from.now < iv[k].to.now)
            && (forall k :: 0 < k < |iv| ==> iv[k - 1].to == iv[k].from)
            && (iv != [] ==> iv[|iv| - 1].to == Stored(h) && Stored(h).now > 0)
  {
    if h != [] {
      IntervalsJoin(h[..|h| - 1]);
    }
  }

  /** Nothing is ever taken off the list. */
  lemma {:induction false} IntervalsGrow(h: seq<Observation>, more: seq<Observation>)
    ensures Intervals(h) <= Intervals(h + more)
  {
    if more == [] {
      assert h + more == h;
    } else {
      assert (h + more)[..|h + more| - 1] == h + more[..|more| - 1];
      IntervalsGrow(h, more[..|more| - 1]);
    }
  }

  /** An observation as the monitor stores it: later than all before it, and after the zero time. */
  predicate IsRecord(h: seq<Observation>, j: nat)
    requires j < |h|
  {
    h[j].now > 0 && forall k :: 0 <= k < j ==> h[k].now < h[j].now
  }

  /** The stored observation is the last such one. */
  lemma StoredIs(h: seq<Observation>, i: nat)
    requires i < |h| && IsRecord(h, i) && forall k :: i < k < |h| ==> h[k].now <= h[i].now
    ensures Stored(h) == h[i]
  {
    hide Stored;
    StoredIsEarliestLatest(h);
    assert h[i] in h;
    var k :| 0 <= k < |h| && h[k] == Stored(h) && forall j | 0 <= j < k :: h[j].now < h[k].now;
  }

  lemma LastIsStored(h: seq<Observation>)
    requires Stored(h).now > 0
    ensures exists i :: 0 <= i < |h| && h[i] == Stored(h) && IsRecord(h, i)
                        && forall k :: i < k < |h| ==> h[k].now <= h[i].now
  {
    hide Stored;
    StoredIsEarliestLatest(h);
    var i :| 0 <= i < |h| && h[i] == Stored(h) && forall j | 0 <= j < i :: h[j].now < h[i].now;
    forall k | i < k < |h| ensures h[k].now <= h[i].now {
      assert h[k] in h;
    }
    assert IsRecord(h, i);
  }

  lemma OneMoreInterval(h: seq<Observation>, o: Observation)
    ensures var s := Stored(h);
            Intervals(h + [o]) == Intervals(h) + if s.now != 0 && o.now > s.now then [Interval(s, o)] else []
  {
    assert (h + [o])[..|h|] == h;
  }

  /** Between two such neighbours lies an interval, in every longer history. */
  lemma RecordsEndIntervals(h: seq<Observation>, i: nat, j: nat)
    requires i < j < |h| && 0 < h[i].now < h[j].now
    requires forall k :: 0 <= k < i ==> h[k].now < h[i].now
    requires forall k :: i < k < j ==> h[k].now <= h[i].now
    ensures Interval(h[i], h[j]) in Intervals(h)
  {
    hide Intervals, Stored;
    assert IsRecord(h[..j], i);
    StoredIs(h[..j], i);
    OneMoreInterval(h[..j], h[j]);
    assert h[..j] + [h[j]] + h[j + 1..] == h;
    IntervalsGrow(h[..j] + [h[j]], h[j + 1..]);
    assert Interval(h[i], h[j]) in Intervals(h[..j] + [h[j]]);
  }

  /** Two stored observations without a third in between. */
  ghost predicate Neighbours(h: seq<Observation>, i: nat, j: nat) {
    && i < j < |h| && 0 < h[i].now < h[j].now
    && (forall k :: 0 <= k < i ==> h[k].now < h[i].now)
    && forall k :: i < k < j ==> h[k].now <= h[i].now
  }

  lemma {:induction false} IntervalIsBetween(h: seq<Observation>, iv: Interval) returns (i: nat, j: nat)
    requires iv in Intervals(h)
    ensures Neighbours(h, i, j) && iv == Interval(h[i], h[j])
  {
    hide Stored, Neighbours;
    var rest, o := h[..|h| - 1], h[|h| - 1];
    if iv in Intervals(rest) {
      i, j := IntervalIsBetween(rest, iv);
      NeighboursStay(rest, i, j, o);
    } else {
      i := NewNeighbours(rest, o);
      j := |rest|;
    }
    assert rest + [o] == h;
  }

  lemma NeighboursStay(h: seq<Observation>, i: nat, j: nat, o: Observation)
    requires Neighbours(h, i, j)
    ensures Neighbours(h + [o], i, j) && (h + [o])[i] == h[i] && (h + [o])[j] == h[j]
  {
  }

  lemma NewNeighbours(h: seq<Observation>, o: Observation) returns (i: nat)
    requires Stored(h).now > 0 && o.now > Stored(h).now
    ensures Neighbours(h + [o], i, |h|) && (h + [o])[i] == Stored(h)
  {
    hide Stored;
    LastIsStored(h);
    i :| 0 <= i < |h| && h[i] == Stored(h) && IsRecord(h, i) && forall k :: i < k < |h| ==> h[k].now <= h[i].now;
  }

  /** And every interval lies between two such neighbours. */
  lemma IntervalsLieBetweenRecords(h: seq<Observation>, iv: Interval)
    requires iv in Intervals(h)
    ensures exists i, j ::
              && 0 <= i < j < |h| && iv == Interval(h[i], h[j]) && 0 < h[i].now < h[j].now
              && (forall k :: 0 <= k < i ==> h[k].now < h[i].now)
              && forall k :: i < k < j ==> h[k].now <= h[i].now
  {
    hide Intervals;
    var i, j := IntervalIsBetween(h, iv);
  }

  /** The history determines each peak. */
  lemma PeakIsUnique(p: real, q: real, kind: Kind, intervals: seq<Interval>)
    requires IsPeak(p, kind, intervals) && IsPeak(q, kind, intervals)
    ensures p == q
  {
  }

  lemma PeaksNeverFall(p: real, q: real, kind: Kind, before: seq<Interval>, after: seq<Interval>)
    requires IsPeak(p, kind, before) && IsPeak(q, kind, before + after)
    ensures p <= q
  {
    if p > 0.0 {
      var i :| i in before && Counted(i, kind) && Rate(i, kind) == p;
      assert i in before + after;
    }
  }

  /** A longer history never has a lower peak. */
  lemma LongerNeverFalls(p: real, q: real, kind: Kind, h: seq<Observation>, more: seq<Observation>)
    requires IsPeak(p, kind, Intervals(h)) && IsPeak(q, kind, Intervals(h + more))
    ensures p <= q
  {
    hide Intervals, IsPeak;
    IntervalsGrow(h, more);
    var rest := Intervals(h + more)[|Intervals(h)|..];
    assert Intervals(h) + rest == Intervals(h + more);
    PeaksNeverFall(p, q, kind, Intervals(h), rest);
  }

  lemma PeakStays(p: real, kind: Kind, before: seq<Interval>, i: Interval)
    requires IsPeak(p, kind, before) && !Counted(i, kind)
    ensures IsPeak(p, kind, before + [i])
  {
    hide Rate;
    if p != 0.0 {
      var top :| top in before && Counted(top, kind) && Rate(top, kind) == p;
      assert top in before + [i];
    }
  }

  lemma PeakRises(p: real, kind: Kind, before: seq<Interval>, i: Interval)
    requires IsPeak(p, kind, before) && Counted(i, kind)
    ensures var rate := Rate(i, kind);
            IsPeak(if rate > p then rate else p, kind, before + [i])
  {
    hide Rate;
    if Rate(i, kind) > p {
      assert i in before + [i];
    } else if p != 0.0 {
      var top :| top in before && Counted(top, kind) && Rate(top, kind) == p;
      assert top in before + [i];
    }
  }

  // ---------------------------------------------------------------- peaks bound averages

  function Product(a: real, b: real): real {
    a * b
  }

  lemma Distributes(a: real, b: real, c: real)
    ensures Product(a + b, c) == Product(a, c) + Product(b, c)
    ensures Product(c, a + b) == Product(c, a) + Product(c, b)
  {
  }

  lemma ProductGrows(a: real, b: real, c: real)
    requires a <= b && c >= 0.0
    ensures Product(a, c) <= Product(b, c)
    ensures Product(c, a) <= Product(c, b)
  {
  }

  lemma RateTimesSpan(increase: int, seconds: real, scale: real)
    requires seconds > 0.0
    ensures Product(RateOver(increase, seconds, scale), seconds) == Product(increase as real, scale)
  {
    var q := increase as real / seconds;
    assert q * seconds == increase as real;
    assert (q * scale) * seconds == (q * seconds) * scale;
  }

  lemma RateBound(increase: int, seconds: real, longer: real, scale: real, p: real)
    requires 0.0 < seconds <= longer && p >= 0.0
    requires RateOver(increase, seconds, scale) <= p
    ensures Product(increase as real, scale) <= Product(p, longer)
  {
    hide Product, RateOver;
    RateTimesSpan(increase, seconds, scale);
    ProductGrows(RateOver(increase, seconds, scale), p, seconds);
    ProductGrows(seconds, longer, p);
  }

  lemma RateFromBound(increase: int, seconds: real, scale: real, p: real)
    requires seconds > 0.0
    requires Product(increase as real, scale) <= Product(p, seconds)
    ensures RateOver(increase, seconds, scale) <= p
  {
    hide RateOver;
    RateTimesSpan(increase, seconds, scale);
    var r := RateOver(increase, seconds, scale);
    if r > p {
      assert (r - p) * seconds > 0.0;
      assert r * seconds == p * seconds + (r - p) * seconds;
    }
  }

  ghost predicate NeverFalls(kind: Kind, iv: seq<Interval>) {
    forall i | i in iv :: Counted(i, kind)
  }

  ghost predicate Joined(iv: seq<Interval>) {
    forall k :: 0 < k < |iv| ==> iv[k - 1].to == iv[k].from
  }

  function Increase(from: Observation, to: Observation, kind: Kind): int {
    to.counters.Of(kind) - from.counters.Of(kind)
  }

  function Elapsed(from: Observation, to: Observation): real {
    Seconds(to.now - from.now)
  }

  lemma OneIntervalFits(p: real, kind: Kind, i: Interval)
    requires Counted(i, kind) && p >= 0.0 && Rate(i, kind) <= p
    ensures Product(Increase(i.from, i.to, kind) as real, Scale(kind)) <= Product(p, Elapsed(i.from, i.to))
  {
    hide Product, RateOver;
    RateBound(Increase(i.from, i.to, kind), Seconds(Since(i.to.now, i.from.now)), Elapsed(i.from, i.to),
              Scale(kind), p);
  }

  lemma JoinedFits(p: real, kind: Kind, a: Observation, b: Observation, c: Observation)
    requires Product(Increase(a, b, kind) as real, Scale(kind)) <= Product(p, Elapsed(a, b))
    requires Product(Increase(b, c, kind) as real, Scale(kind)) <= Product(p, Elapsed(b, c))
    ensures Product(Increase(a, c, kind) as real, Scale(kind)) <= Product(p, Elapsed(a, c))
  {
    hide Product;
    Distributes(Increase(a, b, kind) as real, Increase(b, c, kind) as real, Scale(kind));
    assert Elapsed(a, c) == Elapsed(a, b) + Elapsed(b, c);
    Distributes(Elapsed(a, b), Elapsed(b, c), p);
  }

  /** A counter's whole increase over joined intervals fits under its peak rate times the whole time. */
  lemma {:induction false} IncreaseFits(p: real, kind: Kind, iv: seq<Interval>)
    requires iv != [] && Joined(iv) && NeverFalls(kind, iv)
    requires p >= 0.0 && forall i | i in iv :: Rate(i, kind) <= p
    ensures var (first, last) := (iv[0].from, iv[|iv| - 1].to);
            && first.now < last.now
            && Product(Increase(first, last, kind) as real, Scale(kind)) <= Product(p, Elapsed(first, last))
  {
    hide Product, Increase, Elapsed, Rate;
    var i := iv[|iv| - 1];
    assert i in iv;
    OneIntervalFits(p, kind, i);
    if |iv| > 1 {
      var rest := iv[..|iv| - 1];
      IncreaseFits(p, kind, rest);
      JoinedFits(p, kind, iv[0].from, i.from, i.to);
    }
  }

  /** If a counter never falls, its peak is at least its average from the first accepted observation to the last. */
  lemma PeakBoundsAverage(p: real, kind: Kind, h: seq<Observation>)
    requires Intervals(h) != [] && IsPeak(p, kind, Intervals(h)) && NeverFalls(kind, Intervals(h))
    ensures var (first, last) := (Intervals(h)[0].from, Stored(h));
            && first.now < last.now
            && RateOver(Increase(first, last, kind), Elapsed(first, last), Scale(kind)) <= p
  {
    hide Product, Rate, Intervals, Stored, RateOver;
    IntervalsJoin(h);
    IncreaseFits(p, kind, Intervals(h));
    var (first, last) := (Intervals(h)[0].from, Stored(h));
    RateFromBound(Increase(first, last, kind), Elapsed(first, last), Scale(kind), p);
  }

  // ---------------------------------------------------------------- the monitor

  lemma RateIs(increase: int, seconds: real)
    requires seconds > 0.0
    ensures RateOver(increase, seconds, 1.0) == increase as real / seconds
    ensures RateOver(increase, seconds, 60.0) == increase as real / seconds * 60.0
  {
  }

  class ActivityPeakMonitor {
    var previous: Counters
    var last: nat
    var peak: Peaks

    /** The fields are what this history of observations amounts to. */
    ghost predicate Holds(h: seq<Observation>)
      reads this
    {
      && Observation(last, previous) == Stored(h)
      && forall kind: Kind :: IsPeak(peak.Of(kind), kind, Intervals(h))
    }

    constructor ()
      ensures Holds([])
    {
      previous, last, peak := Counters(0, 0, 0, 0, 0), 0, Peaks(0.0, 0.0, 0.0, 0.0, 0.0);
    }

    method Observe(now: nat, current: Counters, ghost h: seq<Observation>)
      requires Holds(h)
      modifies this
      ensures Holds(h + [Observation(now, current)])
      ensures old(last) == 0 ==> last == now && previous == current && peak == old(peak)
      ensures 0 < old(last) && now <= old(last) ==> unchanged(this)
      ensures 0 < old(last) < now ==>
                && last == now && previous == current
                && var was, top, elapsed := old(previous), old(peak), now - old(last);
                   var seconds := (if elapsed > 0x7fff_ffff_ffff_ffff then 0x7fff_ffff_ffff_ffff else elapsed) as real
                                  / 1000000000.0;
                   && seconds > 0.0
                   && (var rate := (current.generatedBytes - was.generatedBytes) as real / seconds;
                       peak.generatedBytesPerSecond
                       == if current.generatedBytes < was.generatedBytes || rate <= top.generatedBytesPerSecond
                          then top.generatedBytesPerSecond else rate)
                   && (var rate := (current.wsFrames - was.wsFrames) as real / seconds;
                       peak.wsFramesPerSecond
                       == if current.wsFrames < was.wsFrames || rate <= top.wsFramesPerSecond
                          then top.wsFramesPerSecond else rate)
                   && (var rate := (current.httpRequests - was.httpRequests) as real / seconds;
                       peak.httpRequestsPerSecond
                       == if current.httpRequests < was.httpRequests || rate <= top.httpRequestsPerSecond
                          then top.httpRequestsPerSecond else rate)
                   && (var rate := (current.wsRejections - was.wsRejections) as real / seconds * 60.0;
                       peak.wsRejectionsPerMinute
                       == if current.wsRejections < was.wsRejections || rate <= top.wsRejectionsPerMinute
                          then top.wsRejectionsPerMinute else rate)
                   && (var rate := (current.httpRejections - was.httpRejections) as real / seconds * 60.0;
                       peak.httpRejectionsPerMinute
                       == if current.httpRejections < was.httpRejections || rate <= top.httpRejectionsPerMinute
                          then top.httpRejectionsPerMinute else rate)
      ensures forall kind: Kind :: peak.Of(kind) >= old(peak).Of(kind)
    {
      hide IsPeak, RateOver;
      ghost var o := Observation(now, current);
      assert (h + [o])[..|h|] == h;
      if last == 0 {
        last, previous := now, current;
        assert Intervals(h + [o]) == Intervals(h);
        return;
      }
      var since := Since(now, last);
      var seconds := Seconds(since);
      if seconds <= 0.0 {
        assert Intervals(h + [o]) == Intervals(h);
        return;
      }
      ghost var i := Interval(Stored(h), o);
      ghost var before := Intervals(h);
      assert Intervals(h + [o]) == before + [i] && Stored(h + [o]) == o;
      assert IsPeak(peak.Of(GeneratedBytes), GeneratedBytes, before);
      assert IsPeak(peak.Of(WsFrames), WsFrames, before);
      assert IsPeak(peak.Of(HttpRequests), HttpRequests, before);
      assert IsPeak(peak.Of(WsRejections), WsRejections, before);
      assert IsPeak(peak.Of(HttpRejections), HttpRejections, before);
      hide Intervals, Stored;
      var a := Raised(current.generatedBytes, previous.generatedBytes, peak.generatedBytesPerSecond, seconds,
                      GeneratedBytes, i, before);
      var b := Raised(current.wsFrames, previous.wsFrames, peak.wsFramesPerSecond, seconds, WsFrames, i, before);
      var c := Raised(current.httpRequests, previous.httpRequests, peak.httpRequestsPerSecond, seconds, HttpRequests,
                      i, before);
      var d := Raised(current.wsRejections, previous.wsRejections, peak.wsRejectionsPerMinute, seconds, WsRejections,
                      i, before);
      var e := Raised(current.httpRejections, previous.httpRejections, peak.httpRejectionsPerMinute, seconds,
                      HttpRejections, i, before);
      RateIs(current.generatedBytes - previous.generatedBytes, seconds);
      RateIs(current.wsFrames - previous.wsFrames, seconds);
      RateIs(current.httpRequests - previous.httpRequests, seconds);
      RateIs(current.wsRejections - previous.wsRejections, seconds);
      RateIs(current.httpRejections - previous.httpRejections, seconds);
      peak := Peaks(a, b, c, d, e);
      previous, last := current, now;
    }

    /** One counter: a fall is ignored, anything else may raise its peak. */
    static method Raised(current: nat, previous: nat, peak: real, seconds: real, kind: Kind,
                         ghost i: Interval, ghost before: seq<Interval>)
      returns (raised: real)
      requires IsPeak(peak, kind, before)
      requires i.from.now < i.to.now && seconds == Seconds(Since(i.to.now, i.from.now))
      requires current == i.to.counters.Of(kind) && previous == i.from.counters.Of(kind)
      ensures IsPeak(raised, kind, before + [i]) && seconds > 0.0
      ensures raised == if current < previous || RateOver(current - previous, seconds, Scale(kind)) <= peak then peak
                        else RateOver(current - previous, seconds, Scale(kind))
    {
      hide RateOver;
      if current < previous {
        PeakStays(peak, kind, before, i);
        return peak;
      }
      var rate := RateOver(current - previous, seconds, Scale(kind));
      raised := if rate > peak then rate else peak;
      PeakRises(peak, kind, before, i);
    }
  }

  /**
   Whatever a monitor observed before and after, its peaks are at least the rates between any two
   neighbouring stored observations whose counters did not fall.
   */
  lemma PeaksCoverHistory(m: ActivityPeakMonitor, h: seq<Observation>, i: nat, j: nat)
    requires m.Holds(h) && i < j < |h| && 0 < h[i].now < h[j].now
    requires forall k :: 0 <= k < i ==> h[k].now < h[i].now
    requires forall k :: i < k < j ==> h[k].now <= h[i].now
    ensures var elapsed := h[j].now - h[i].now;
            var seconds := (if elapsed > 0x7fff_ffff_ffff_ffff then 0x7fff_ffff_ffff_ffff else elapsed) as real
                           / 1000000000.0;
            var a, b, top := h[i].counters, h[j].counters, m.peak;
            && seconds > 0.0
            && (a.generatedBytes <= b.generatedBytes ==>
                  (b.generatedBytes - a.generatedBytes) as real / seconds <= top.generatedBytesPerSecond)
            && (a.wsFrames <= b.wsFrames ==>
                  (b.wsFrames - a.wsFrames) as real / seconds <= top.wsFramesPerSecond)
            && (a.httpRequests <= b.httpRequests ==>
                  (b.httpRequests - a.httpRequests) as real / seconds <= top.httpRequestsPerSecond)
            && (a.wsRejections <= b.wsRejections ==>
                  (b.wsRejections - a.wsRejections) as real / seconds * 60.0 <= top.wsRejectionsPerMinute)
            && (a.httpRejections <= b.httpRejections ==>
                  (b.httpRejections - a.httpRejections) as real / seconds * 60.0 <= top.httpRejectionsPerMinute)
  {
    hide Intervals, Stored, RateOver, IsPeak;
    RecordsEndIntervals(h, i, j);
    var iv := Interval(h[i], h[j]);
    var seconds := Seconds(Since(h[j].now, h[i].now));
    forall kind: Kind | Counted(iv, kind) ensures Rate(iv, kind) <= m.peak.Of(kind) {
      PeakIsAbove(m.peak.Of(kind), kind, Intervals(h), iv);
    }
    var a, b := h[i].counters, h[j].counters;
    RateIs(b.generatedBytes - a.generatedBytes, seconds);
    assert Counted(iv, GeneratedBytes) <==> a.generatedBytes <= b.generatedBytes;
    assert m.peak.Of(GeneratedBytes) == m.peak.generatedBytesPerSecond;
    RateIs(b.wsFrames - a.wsFrames, seconds);
    assert Counted(iv, WsFrames) <==> a.wsFrames <= b.wsFrames;
    assert m.peak.Of(WsFrames) == m.peak.wsFramesPerSecond;
    RateIs(b.httpRequests - a.httpRequests, seconds);
    assert Counted(iv, HttpRequests) <==> a.httpRequests <= b.httpRequests;
    assert m.peak.Of(HttpRequests) == m.peak.httpRequestsPerSecond;
    RateIs(b.wsRejections - a.wsRejections, seconds);
    assert Counted(iv, WsRejections) <==> a.wsRejections <= b.wsRejections;
    assert m.peak.Of(WsRejections) == m.peak.wsRejectionsPerMinute;
    RateIs(b.httpRejections - a.httpRejections, seconds);
    assert Counted(iv, HttpRejections) <==> a.httpRejections <= b.httpRejections;
    assert m.peak.Of(HttpRejections) == m.peak.httpRejectionsPerMinute;
  }

  lemma PeakIsAbove(p: real, kind: Kind, intervals: seq<Interval>, i: Interval)
    requires IsPeak(p, kind, intervals) && i in intervals && Counted(i, kind)
    ensures Rate(i, kind) <= p
  {
  }

  /** A monitor's fields are a function of its history: two that observed the same agree on all of them. */
  lemma MonitorsAgree(a: ActivityPeakMonitor, b: ActivityPeakMonitor, h: seq<Observation>)
    requires a.Holds(h) && b.Holds(h)
    ensures a.last == b.last && a.previous == b.previous && a.peak == b.peak
  {
    hide IsPeak, Intervals;
    forall kind: Kind ensures a.peak.Of(kind) == b.peak.Of(kind) {
      PeakIsUnique(a.peak.Of(kind), b.peak.Of(kind), kind, Intervals(h));
    }
    assert a.peak.Of(GeneratedBytes) == b.peak.Of(GeneratedBytes) && a.peak.Of(WsFrames) == b.peak.Of(WsFrames);
    assert a.peak.Of(HttpRequests) == b.peak.Of(HttpRequests) && a.peak.Of(WsRejections) == b.peak.Of(WsRejections);
    assert a.peak.Of(HttpRejections) == b.peak.Of(HttpRejections);
  }
}
