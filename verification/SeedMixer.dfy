/**
 Mixing CPU random words into the bytes another source delivered. The source and the CPU are
 parameters: what the source leaves in the buffer, and the result of each draw.
 */
module SeedMixer {

  type Word = w: int | 0 <= w < 0x1_0000_0000_0000_0000

  datatype Draw = Value(word: Word) | Failure(error: string)

  // ---------------------------------------------------------------- bytes of a word

  /** A word after k shifts by eight bits. */
  function Shifted(w: nat, k: nat): nat {
    if k == 0 then w else Shifted(w, k - 1) / 256
  }

  function ByteOf(w: nat, k: nat): (b: nat)
    ensures b < 256
  {
    Shifted(w, k) % 256
  }

  function Scale(digit: nat, k: nat): nat {
    if k == 0 then digit else 256 * Scale(digit, k - 1)
  }

  /** The value of the low k bytes, least significant first. */
  function Joined(w: nat, k: nat): nat {
    if k == 0 then 0 else Joined(w, k - 1) + Scale(ByteOf(w, k - 1), k - 1)
  }

  lemma {:induction false} ScaleAdds(high: nat, low: nat, k: nat)
    ensures Scale(256 * high + low, k) == Scale(high, k + 1) + Scale(low, k)
  {
    if k > 0 {
      ScaleAdds(high, low, k - 1);
    }
  }

  lemma {:induction false} SplitAt(w: nat, k: nat)
    ensures w == Joined(w, k) + Scale(Shifted(w, k), k)
  {
    if k > 0 {
      SplitAt(w, k - 1);
      var high := Shifted(w, k - 1);
      assert high == 256 * (high / 256) + high % 256;
      ScaleAdds(high / 256, high % 256, k - 1);
    }
  }

  lemma {:induction false} ScaleZero(k: nat)
    ensures Scale(0, k) == 0
  {
    if k > 0 {
      ScaleZero(k - 1);
    }
  }

  lemma ShiftedOut(w: Word)
    ensures Shifted(w, 8) == 0
  {
    assert Shifted(w, 1) < 0x100_0000_0000_0000 && Shifted(w, 2) < 0x1_0000_0000_0000;
    assert Shifted(w, 3) < 0x100_0000_0000 && Shifted(w, 4) < 0x1_0000_0000;
    assert Shifted(w, 5) < 0x100_0000 && Shifted(w, 6) < 0x1_0000 && Shifted(w, 7) < 0x100;
  }

  lemma ByteIs(w: nat)
    ensures ByteOf(w, 0) == w % 0x100
    ensures ByteOf(w, 1) == w / 0x100 % 0x100
    ensures ByteOf(w, 2) == w / 0x1_0000 % 0x100
    ensures ByteOf(w, 3) == w / 0x100_0000 % 0x100
    ensures ByteOf(w, 4) == w / 0x1_0000_0000 % 0x100
    ensures ByteOf(w, 5) == w / 0x100_0000_0000 % 0x100
    ensures ByteOf(w, 6) == w / 0x1_0000_0000_0000 % 0x100
    ensures ByteOf(w, 7) == w / 0x100_0000_0000_0000 % 0x100
  {
    assert Shifted(w, 1) == w / 0x100;
    assert Shifted(w, 2) == w / 0x1_0000;
    assert Shifted(w, 3) == w / 0x100_0000;
    assert Shifted(w, 4) == w / 0x1_0000_0000;
    assert Shifted(w, 5) == w / 0x100_0000_0000;
    assert Shifted(w, 6) == w / 0x1_0000_0000_0000;
    assert Shifted(w, 7) == w / 0x100_0000_0000_0000;
  }

  /** Eight bytes in little-endian order are the whole word: none is used twice and none is lost. */
  lemma WordIsItsBytes(w: Word)
    ensures Joined(w, 8) == w
  {
    SplitAt(w, 8);
    ShiftedOut(w);
    ScaleZero(8);
  }

  // ---------------------------------------------------------------- what one read must leave

  /** Byte i lies in the data and no draw up to its own word has failed. */
  ghost predicate Covered(draws: nat -> Draw, n: nat, i: nat) {
    i < n && forall w: nat :: w <= i / 8 ==> draws(w).Value?
  }

  ghost function Mixed(source: seq<bv8>, n: nat, draws: nat -> Draw): (m: seq<bv8>)
    ensures |m| == |source|
  {
    seq(|source|, i requires 0 <= i < |source| =>
      if Covered(draws, n, i) then source[i] ^ (ByteOf(draws(i / 8).word, i % 8) as bv8) else source[i])
  }

  lemma XorTwice(a: bv8, b: bv8)
    ensures (a ^ b) ^ b == a
  {
  }

  /** For fixed draws the mixing undoes itself. */
  lemma MixingIsAnInvolution(source: seq<bv8>, n: nat, draws: nat -> Draw)
    ensures Mixed(Mixed(source, n, draws), n, draws) == source
  {
    var once := Mixed(source, n, draws);
    forall i | 0 <= i < |source| ensures Mixed(once, n, draws)[i] == source[i] {
      if Covered(draws, n, i) {
        XorTwice(source[i], ByteOf(draws(i / 8).word, i % 8) as bv8);
      }
    }
  }

  /** It is therefore a bijection: no two sources are merged, and every result has a source. */
  lemma MixingIsABijection(a: seq<bv8>, b: seq<bv8>, n: nat, draws: nat -> Draw)
    ensures Mixed(a, n, draws) == Mixed(b, n, draws) ==> a == b
    ensures exists source :: |source| == |b| && Mixed(source, n, draws) == b
  {
    MixingIsAnInvolution(a, n, draws);
    MixingIsAnInvolution(b, n, draws);
    assert Mixed(Mixed(b, n, draws), n, draws) == b;
  }

  /** A failed draw is the last one, and leaves everything from its word on as the source gave it. */
  lemma FailureLeavesTheRest(source: seq<bv8>, n: nat, draws: nat -> Draw, w: nat)
    requires n <= |source| && 8 * w <= n && draws(w).Failure?
    ensures Mixed(source, n, draws)[8 * w..] == source[8 * w..]
  {
    var m := Mixed(source, n, draws);
    forall i | 8 * w <= i < |source| ensures m[i] == source[i] {
      assert w <= i / 8;
      assert Covered(draws, n, i) ==> draws(w).Value?;
    }
  }

  /** The bytes of one successful word: masked up to n, untouched past it. */
  lemma OneWord(source: seq<bv8>, n: nat, draws: nat -> Draw, w: nat, i: nat)
    requires 8 * w <= i < |source| && i < 8 * w + 8
    requires forall k :: 0 <= k <= w ==> draws(k).Value?
    ensures Mixed(source, n, draws)[i]
         == if i < n then source[i] ^ (ByteOf(draws(w).word, i - 8 * w) as bv8) else source[i]
  {
    assert i / 8 == w && i % 8 == i - 8 * w;
    assert Covered(draws, n, i) <==> i < n;
  }

  lemma RestIs(m: seq<bv8>, source: seq<bv8>, from: nat)
    requires from <= |m| == |source| && m[from..] == source[from..]
    ensures forall i :: from <= i < |m| ==> m[i] == source[i]
  {
    forall i | from <= i < |m| ensures m[i] == source[i] {
      assert m[i] == m[from..][i - from];
    }
  }

  lemma NothingAfter(source: seq<bv8>, n: nat, draws: nat -> Draw)
    ensures forall i :: n <= i < |source| ==> Mixed(source, n, draws)[i] == source[i]
  {
    forall i | n <= i < |source| ensures Mixed(source, n, draws)[i] == source[i] {
      assert !Covered(draws, n, i);
    }
  }

  /** Byte by byte, when the draws stop at the first failure. */
  lemma MixedIs(source: seq<bv8>, n: nat, draws: nat -> Draw, drawn: nat)
    requires n <= |source| && drawn <= (n + 7) / 8
    requires forall w :: 0 <= w < drawn - 1 ==> draws(w).Value?
    requires drawn < (n + 7) / 8 ==> drawn > 0 && draws(drawn - 1).Failure?
    ensures forall i :: 0 <= i < |source| ==>
              Mixed(source, n, draws)[i]
              == if i < n && i / 8 < drawn && draws(i / 8).Value?
                 then source[i] ^ (ByteOf(draws(i / 8).word, i % 8) as bv8) else source[i]
  {
    hide ByteOf;
    forall i | 0 <= i < |source|
      ensures Covered(draws, n, i) <==> i < n && i / 8 < drawn && draws(i / 8).Value?
    {
      if i < n && i / 8 >= drawn {
        assert draws(drawn - 1).Failure?;
      }
    }
  }

  // ---------------------------------------------------------------- the mixer

  class Mixer {
    const hasCallback: bool
    var warned: bool
    var reports: seq<string>

    /** Over all reads so far the callback has run at most once. */
    ghost predicate Valid()
      reads this
    {
      |reports| == if warned && hasCallback then 1 else 0
    }

    constructor (hasCallback: bool)
      ensures Valid() && !warned && this.hasCallback == hasCallback
    {
      this.hasCallback := hasCallback;
      warned, reports := false, [];
    }

    /**
     The source has filled the buffer and answered n bytes and perhaps an error, which are handed
     on. Each following word is drawn and mixed in until one fails; drawn counts the draws.
     */
    method Read(p: array<bv8>, n: nat, sourceError: string, draws: nat -> Draw)
      returns (count: nat, error: string, drawn: nat)
      requires Valid() && n <= p.Length
      modifies this, p
      ensures Valid() && count == n && error == sourceError
      ensures p[..] == Mixed(old(p[..]), n, draws)
      ensures forall w :: 0 <= w < drawn - 1 ==> draws(w).Value?
      ensures drawn <= (n + 7) / 8
      ensures drawn < (n + 7) / 8 ==> drawn > 0 && draws(drawn - 1).Failure?
      ensures forall i :: 0 <= i < p.Length ==>
                p[i] == if i < n && i / 8 < drawn && draws(i / 8).Value?
                        then old(p[i]) ^ (ByteOf(draws(i / 8).word, i % 8) as bv8) else old(p[i])
      ensures var failed := drawn > 0 && draws(drawn - 1).Failure?;
              && warned == (old(warned) || failed)
              && reports
                 == old(reports) + if failed && !old(warned) && hasCallback then [draws(drawn - 1).error] else []
    {
      hide Mixed;
      ghost var source := p[..];
      count, error, drawn := n, sourceError, 0;
      var offset := 0;
      while offset < n
        invariant offset == 8 * drawn && drawn <= (n + 7) / 8
        invariant forall w :: 0 <= w < drawn ==> draws(w).Value?
        invariant Valid() && warned == old(warned) && reports == old(reports)
        invariant forall i :: 0 <= i < p.Length ==>
                    p[i] == if i < offset then Mixed(source, n, draws)[i] else source[i]
      {
        var draw := draws(drawn);
        drawn := drawn + 1;
        if draw.Failure? {
          if !warned {
            warned := true;
            if hasCallback {
              reports := reports + [draw.error];
            }
          }
          FailureLeavesTheRest(source, n, draws, drawn - 1);
          RestIs(Mixed(source, n, draws), source, 8 * (drawn - 1));
          break;
        }
        MixWord(p, offset, n, draw.word, source, draws);
        offset := offset + 8;
      }
      NothingAfter(source, n, draws);
      MixedIs(source, n, draws, drawn);
      assert p[..] == Mixed(source, n, draws);
    }

    /** The inner loop: up to eight bytes, shifting the word as it goes. */
    method MixWord(p: array<bv8>, offset: nat, n: nat, word: Word, ghost source: seq<bv8>, ghost draws: nat -> Draw)
      requires offset < n <= p.Length == |source| && offset % 8 == 0
      requires forall w :: 0 <= w <= offset / 8 ==> draws(w).Value?
      requires draws(offset / 8) == Value(word)
      requires forall i :: offset <= i < p.Length ==> p[i] == source[i]
      modifies p
      ensures forall i :: 0 <= i < offset ==> p[i] == old(p[i])
      ensures forall i :: offset <= i < p.Length ==>
                p[i] == if i < offset + 8 then Mixed(source, n, draws)[i] else source[i]
    {
      hide Mixed;
      var end := if offset + 8 < n then offset + 8 else n;
      var value := word;
      for i := offset to end
        invariant value == Shifted(word, i - offset)
        invariant forall k :: 0 <= k < offset ==> p[k] == old(p[k])
        invariant forall k :: offset <= k < p.Length ==>
                    p[k] == if k < i then Mixed(source, n, draws)[k] else source[k]
      {
        OneWord(source, n, draws, offset / 8, i);
        p[i] := p[i] ^ (value % 256) as bv8;
        value := value / 256;
      }
      forall i | end <= i < p.Length && i < offset + 8
        ensures Mixed(source, n, draws)[i] == source[i]
      {
        OneWord(source, n, draws, offset / 8, i);
      }
    }
  }
}
