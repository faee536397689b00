/**
 The analysis of an uploaded file that arrives in reads: everything is counted and hashed, a
 bounded prefix is analysed, a shorter one is kept as a preview. SHA-256 is a parameter; the
 entropy is not part of the model.
 */
module UploadAnalysis {
  import opened Common
  import opened StreamStatistics
  import BitReversal

  const MAX_UPLOAD_BYTES := 33554432
  const PREVIEW_BYTES := 2048

  datatype Analysis<D> = Analysis(
    totalBytes: nat,
    analyzedBytes: nat,
    histogram: seq<nat>,
    ones: nat,
    zeros: nat,
    preview: seq<Sample>,
    sha256: D)

  datatype Answer<D> =
    | Analyzed(analysis: Analysis<D>)
    | InvalidLimit | Canceled | SourceFailed | EmptyUpload | StillReading

  /** The first n bytes, or all of them. */
  function Prefix(data: seq<Sample>, n: nat): (p: seq<Sample>)
    ensures |p| == Min(|data|, n) && p <= data
  {
    data[..Min(|data|, n)]
  }

  /** What an analysis says of the whole input, without any mention of reads. */
  ghost predicate Describes<D>(a: Analysis<D>, data: seq<Sample>, limit: nat, digest: seq<Sample> -> D) {
    && a.totalBytes == |data|
    && a.analyzedBytes == Min(|data|, limit)
    && |a.histogram| == 256
    && (forall v: Sample :: a.histogram[v] == multiset(Prefix(data, limit))[v])
    && a.ones == AllOnes(Prefix(data, limit))
    && a.ones + a.zeros == 8 * a.analyzedBytes
    && a.preview == Prefix(data, Min(PREVIEW_BYTES, limit))
    && a.sha256 == digest(data)
  }

  /**
   In full: everything is counted and digested, the first bytes up to the limit are analysed, and
   of those at most 2048 are kept as the preview.
   */
  lemma DescriptionIs<D>(a: Analysis<D>, data: seq<Sample>, limit: nat, digest: seq<Sample> -> D)
    requires Describes(a, data, limit, digest)
    ensures var part := if |data| <= limit then data else data[..limit];
            && a.totalBytes == |data| && a.sha256 == digest(data)
            && a.analyzedBytes == |part| && a.ones == AllOnes(part) && a.zeros == 8 * |part| - AllOnes(part)
            && |a.histogram| == 256 && (forall v: Sample :: a.histogram[v] == multiset(part)[v])
            && a.preview == if |part| <= 2048 then part else part[..2048]
  {
    var part := if |data| <= limit then data else data[..limit];
    assert Prefix(data, limit) == part;
    assert Prefix(data, Min(2048, limit)) == if |part| <= 2048 then part else part[..2048];
  }

  /** Only the bytes matter: any two analyses of one input are equal, however it was cut into reads. */
  lemma CuttingDoesNotMatter<D>(a: Analysis<D>, b: Analysis<D>, data: seq<Sample>, limit: nat, digest: seq<Sample> -> D)
    requires Describes(a, data, limit, digest) && Describes(b, data, limit, digest)
    ensures a == b
  {
    forall i | 0 <= i < 256 ensures a.histogram[i] == b.histogram[i] {
      var v: Sample := i;
      assert a.histogram[v] == b.histogram[v];
    }
    assert a.histogram == b.histogram;
  }

  // ---------------------------------------------------------------- bits and bytes

  lemma {:induction false} OnesAtMost(v: nat, width: nat)
    requires v < BitReversal.Pow2(width)
    ensures Ones(v) <= width
  {
    if v > 0 {
      OnesAtMost(v / 2, width - 1);
    }
  }

  /** No byte has more than eight set bits, so the count of zeros never wraps below zero. */
  lemma {:induction false} AllOnesAtMost(data: seq<Sample>)
    ensures AllOnes(data) <= 8 * |data|
  {
    if data != [] {
      AllOnesAtMost(data[..|data| - 1]);
      assert BitReversal.Pow2(8) == 256;
      OnesAtMost(data[|data| - 1], 8);
    }
  }

  function Scaled(count: nat, weight: nat): nat {
    count * weight
  }

  /** The sum over the first n entries of a histogram, each with its weight. */
  function Weighted(h: seq<nat>, weight: Sample -> nat, n: nat): nat
    requires n <= |h| <= 256
  {
    if n == 0 then 0 else Weighted(h, weight, n - 1) + Scaled(h[n - 1], weight(n - 1))
  }

  lemma {:induction false} WeightedStep(h: seq<nat>, g: seq<nat>, v: Sample, weight: Sample -> nat, n: nat)
    requires |h| == |g| == 256 && n <= 256
    requires h == g[v := g[v] + 1]
    ensures Weighted(h, weight, n) == Weighted(g, weight, n) + if v < n then weight(v) else 0
  {
    if n > 0 {
      WeightedStep(h, g, v, weight, n - 1);
      assert Scaled(g[v] + 1, weight(v)) == Scaled(g[v], weight(v)) + weight(v);
    }
  }

  /** Counting by value and counting byte by byte give the same sum, for every weight. */
  lemma {:induction false} HistogramSums(h: seq<nat>, data: seq<Sample>, weight: Sample -> nat)
    requires |h| == 256 && forall v: Sample :: h[v] == multiset(data)[v]
    ensures Weighted(h, weight, 256) == SumOf(data, weight)
    decreases |data|
  {
    if data == [] {
      NoWeight(h, weight, 256);
    } else {
      var v: Sample := data[|data| - 1];
      var rest: seq<Sample> := data[..|data| - 1];
      assert data == rest + [v];
      assert h[v] == multiset(rest)[v] + 1;
      var g := h[v := h[v] - 1];
      assert forall u: Sample :: g[u] == multiset(rest)[u];
      HistogramSums(g, rest, weight);
      WeightedStep(h, g, v, weight, 256);
    }
  }

  function SumOf(data: seq<Sample>, weight: Sample -> nat): nat {
    if data == [] then 0 else SumOf(data[..|data| - 1], weight) + weight(data[|data| - 1])
  }

  lemma {:induction false} NoWeight(h: seq<nat>, weight: Sample -> nat, n: nat)
    requires n <= |h| == 256 && forall v: Sample :: h[v] == 0
    ensures Weighted(h, weight, n) == 0
  {
    if n > 0 {
      NoWeight(h, weight, n - 1);
      var v: Sample := n - 1;
      assert h[v] == 0;
    }
  }

  lemma {:induction false} SumsOfOnes(data: seq<Sample>)
    ensures SumOf(data, v => 1) == |data| && SumOf(data, v => Ones(v)) == AllOnes(data)
  {
    if data != [] {
      SumsOfOnes(data[..|data| - 1]);
    }
  }

  /**
   The parts of every analysis agree with each other: the histogram alone determines the analysed
   length and the set bits.
   */
  lemma HistogramExplainsCounts<D>(a: Analysis<D>, data: seq<Sample>, limit: nat, digest: seq<Sample> -> D)
    requires Describes(a, data, limit, digest)
    ensures Weighted(a.histogram, v => 1, 256) == a.analyzedBytes
    ensures Weighted(a.histogram, v => Ones(v), 256) == a.ones <= 8 * a.analyzedBytes
    ensures a.preview <= Prefix(data, limit)
  {
    var analyzed := Prefix(data, limit);
    HistogramSums(a.histogram, analyzed, v => 1);
    HistogramSums(a.histogram, analyzed, v => Ones(v));
    SumsOfOnes(analyzed);
    AllOnesAtMost(analyzed);
  }

  // ---------------------------------------------------------------- the reading loop

  /** The inner loop over the analysed part of one read. */
  method CountBytes(hist: array<nat>, ones: nat, bytes: seq<Sample>, ghost before: seq<Sample>) returns (newOnes: nat)
    requires Histogram(hist, before) && ones == AllOnes(before)
    modifies hist
    ensures Histogram(hist, before + bytes) && newOnes == AllOnes(before + bytes)
  {
    hide Ones, AllOnes, Histogram;
    newOnes := ones;
    assert before + bytes[..0] == before;
    for i := 0 to |bytes|
      invariant Histogram(hist, before + bytes[..i]) && newOnes == AllOnes(before + bytes[..i])
    {
      ghost var seen := before + bytes[..i];
      assert before + bytes[..i + 1] == seen + [bytes[i]];
      OneMoreByte(seen, bytes[i]);
      CountByte(hist, bytes[i], seen);
      newOnes := newOnes + Ones(bytes[i]);
    }
    assert bytes[..|bytes|] == bytes;
  }

  /** A prefix grows by as much of the next read as still fits. */
  lemma PrefixGrows(data: seq<Sample>, more: seq<Sample>, n: nat)
    ensures Prefix(data + more, n) == Prefix(data, n) + more[..Min(|more|, n - |Prefix(data, n)|)]
  {
  }

  /** Everything the loop keeps, as a function of the bytes written to the digest so far. */
  ghost predicate Progress(hist: array<nat>, total: nat, analyzed: nat, ones: nat, preview: seq<Sample>,
                           written: seq<Sample>, limit: nat)
    reads hist
  {
    && Histogram(hist, Prefix(written, limit)) && ones == AllOnes(Prefix(written, limit))
    && total == |written| && analyzed == Min(total, limit)
    && preview == Prefix(written, Min(PREVIEW_BYTES, limit))
  }

  /** One read that delivered something. */
  method AnalyzeRead(hist: array<nat>, total: nat, analyzed: nat, ones: nat, preview: seq<Sample>, limit: nat,
                     bytes: seq<Sample>, ghost written: seq<Sample>)
    returns (newTotal: nat, newAnalyzed: nat, newOnes: nat, newPreview: seq<Sample>)
    requires Progress(hist, total, analyzed, ones, preview, written, limit)
    modifies hist
    ensures Progress(hist, newTotal, newAnalyzed, newOnes, newPreview, written + bytes, limit)
  {
    hide Histogram, AllOnes;
    PrefixGrows(written, bytes, limit);
    PrefixGrows(written, bytes, Min(PREVIEW_BYTES, limit));
    var part := Min(|bytes|, limit - analyzed);
    newOnes := CountBytes(hist, ones, bytes[..part], Prefix(written, limit));
    newTotal, newAnalyzed := total + |bytes|, analyzed + part;
    newPreview := preview + bytes[..Min(part, PREVIEW_BYTES - |preview|)];
  }

  /** After the loop: an empty upload is an error, otherwise zeros and digest complete the result. */
  method Summary<D>(hist: array<nat>, total: nat, analyzed: nat, ones: nat, preview: seq<Sample>, limit: nat,
                    digest: seq<Sample> -> D, written: seq<Sample>)
    returns (answer: Answer<D>)
    requires limit > 0 && Progress(hist, total, analyzed, ones, preview, written, limit)
    ensures if written == [] then answer == EmptyUpload
            else answer.Analyzed? && Describes(answer.analysis, written, limit, digest)
  {
    if total == 0 {
      return EmptyUpload;
    }
    hide AllOnes;
    AllOnesAtMost(Prefix(written, limit));
    var zeros := 8 * analyzed - ones;
    return Analyzed(Analysis(total, analyzed, hist[..], ones, zeros, preview, digest(written)));
  }

  method AnalyzeUpload<D>(events: seq<Event>, limit: int, digest: seq<Sample> -> D) returns (answer: Answer<D>)
    ensures limit < 1 || limit > 33_554_432 <==> answer.InvalidLimit?
    ensures !answer.InvalidLimit? ==>
              var data := Concat(Chunks(events));
              match HowItEnds(events)
              case ContextDone => answer == Canceled
              case Failed => answer == SourceFailed
              case Pending => answer == StillReading
              case Completed =>
                if data == [] then answer == EmptyUpload
                else answer.Analyzed? && Describes(answer.analysis, data, limit, digest)
  {
    if limit < 1 || limit > MAX_UPLOAD_BYTES {
      return InvalidLimit;
    }
    var hist := new nat[256](_ => 0);
    var written: seq<Sample> := [];
    var total, analyzed, ones := 0, 0, 0;
    var preview: seq<Sample> := [];
    ghost var chunks := [];
    assert Chunks(events[..0]) == [] && Progress(hist, total, analyzed, ones, preview, written, limit);
    hide Progress, Chunks, HowItEnds, Describes, Concat;
    for i := 0 to |events|
      invariant chunks == Chunks(events[..i]) && written == Concat(chunks)
      invariant forall k :: 0 <= k < i ==> events[k].Got? && events[k].ending.More?
      invariant fresh(hist) && Progress(hist, total, analyzed, ones, preview, written, limit)
    {
      AtEvent(events, i);
      if events[i].Cancelled? {
        return Canceled;
      }
      var bytes := events[i].data;
      ConcatOneMore(chunks, bytes);
      chunks := chunks + [bytes];
      if |bytes| > 0 {
        total, analyzed, ones, preview := AnalyzeRead(hist, total, analyzed, ones, preview, limit, bytes, written);
        written := written + bytes;
      } else {
        assert written + bytes == written;
      }
      if events[i].ending.EndOfFile? {
        answer := Summary(hist, total, analyzed, ones, preview, limit, digest, written);
        return;
      }
      if events[i].ending.Broken? {
        return SourceFailed;
      }
    }
    assert events[..|events|] == events;
    NeverEnded(events);
    return StillReading;
  }
}
