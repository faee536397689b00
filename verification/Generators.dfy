/**
 One deterministic generator: its cipher stream, the per-key output budget, and reseeding.
 The cipher keystream and the digest are uninterpreted parameters; `Gen` is the value of a
 generator, and the class `Drbg` is the object that updates it in place.
 */
module Generators {
  import opened Common

  type Digest = d: seq<byte> | |d| == 64 witness seq(64, _ => 0)

  /** Library code: one keystream byte for (algorithm, key, nonce, position), and SHA-512. */
  datatype Primitives = Primitives(
    keystream: (string, seq<byte>, seq<byte>, nat) -> byte,
    sha512: seq<byte> -> Digest)

  const CHACHA20 := "chacha20"
  const AES_256_CTR := "aes-256-ctr"
  const MAX_BYTES_PER_KEY := 0x40_0000_0000
  const MAX_DERIVE_BYTES := 0x10_0000
  const WORD_64 := 0x1_0000_0000_0000_0000

  datatype Result<+T> = Ok(value: T) | Err(error: Error)
  datatype Error =
    | ClosedPipe
    | OutputLimit
    | ShortSeed
    | ShortReseed
    | Unsupported
    | ReadTooLong
    | BadDeriveSize
    | SourceFailure(reason: nat)
    | BadBufferSize

  /** A cipher.Stream: its key material and how far it has been consumed. */
  datatype Cipher = Cipher(algorithm: string, key: seq<byte>, nonce: seq<byte>, position: nat)

  datatype Gen = Gen(
    algorithm: string,
    key: seq<byte>,
    nonce: seq<byte>,
    cipher: Option<Cipher>,
    closed: bool,
    counted: bool,
    generated: nat,
    reseeds: nat,
    failures: nat,
    lastError: Option<Error>,
    epoch: nat)

  predicate Supported(algorithm: string) {
    algorithm == CHACHA20 || algorithm == AES_256_CTR
  }

  function NewCipher(algorithm: string, key: seq<byte>, nonce: seq<byte>): Result<Cipher> {
    if Supported(algorithm) then Ok(Cipher(algorithm, key, nonce, 0)) else Err(Unsupported)
  }

  /** Bytes from, from + 1, ..., from + n - 1 of a stream. */
  function Keystream(p: Primitives, c: Cipher, from: nat, n: nat): (s: seq<byte>)
    ensures |s| == n
  {
    seq(n, i requires 0 <= i < n => p.keystream(c.algorithm, c.key, c.nonce, from + i))
  }

  /** Subtraction of 64-bit unsigned words. */
  function Minus64(a: nat, b: nat): nat
    requires a < WORD_64
  {
    (a - b) % WORD_64
  }

  /** What every generator keeps: the installed cipher is the one its key, nonce and byte count describe. */
  ghost predicate Sound(g: Gen) {
    && Supported(g.algorithm)
    && g.generated <= MAX_BYTES_PER_KEY
    && (g.closed ==> g.cipher == None && !g.counted)
    && (!g.closed ==> g.counted && |g.key| == 32 && |g.nonce| == 16)
    && (!g.closed ==> g.cipher == Some(Cipher(g.algorithm, g.key, g.nonce, g.generated)))
  }

  /** Bytes this key may still produce, as the source computes it. */
  function Budget(g: Gen): (b: nat) {
    Minus64(MAX_BYTES_PER_KEY, g.generated)
  }

  function Create(p: Primitives, seed: seq<byte>, algorithm: string): (r: Result<Gen>)
    ensures r.Ok? <==> Supported(algorithm) && |seed| >= 32
    ensures r.Ok? ==> Sound(r.value) && !r.value.closed && r.value.generated == 0 && r.value.epoch == 0
  {
    if !Supported(algorithm) then Err(Unsupported)
    else if |seed| < 32 then Err(ShortSeed)
    else
      var h := p.sha512(seed);
      match NewCipher(algorithm, h[..32], h[32..48])
      case Err(e) => Err(e)
      case Ok(c) => Ok(Gen(algorithm, h[..32], h[32..48], Some(c), false, true, 0, 0, 0, None, 0))
  }

  /** The locked read: all n bytes, or an error and no change. */
  function Read(p: Primitives, g: Gen, n: nat): (r: (Result<seq<byte>>, Gen))
    requires Sound(g)
    ensures Sound(r.1)
    ensures r.0.Ok? <==> !g.closed && g.generated + n <= MAX_BYTES_PER_KEY
    ensures r.0.Ok? ==> |r.0.value| == n && r.1 == g.(generated := g.generated + n, cipher := r.1.cipher)
    ensures r.0.Err? ==> r.1 == g
  {
    if g.closed then (Err(ClosedPipe), g)
    else if n > Budget(g) then (Err(OutputLimit), g)
    else
      var c := g.cipher.value;
      (Ok(Keystream(p, c, c.position, n)),
       g.(cipher := Some(c.(position := c.position + n)), generated := g.generated + n))
  }

  /** Reseeding hashes the old key with the seed and starts a fresh stream. */
  function Rekey(p: Primitives, g: Gen, seed: seq<byte>): (r: (Option<Error>, Gen))
    requires Sound(g)
    ensures Sound(r.1)
    ensures r.0 == None <==> !g.closed && |seed| >= 32
    ensures r.0 == None ==> r.1.generated == 0 && r.1.epoch == g.epoch + 1 && r.1.reseeds == g.reseeds + 1
    ensures r.0 != None ==> r.1 == g
  {
    if g.closed then (Some(ClosedPipe), g)
    else if |seed| < 32 then (Some(ShortReseed), g)
    else
      var h := p.sha512(g.key + seed);
      match NewCipher(g.algorithm, h[..32], h[32..48])
      case Err(e) => (Some(e), g)
      case Ok(c) =>
        (None, g.(key := h[..32], nonce := h[32..48], cipher := Some(c), generated := 0,
                  reseeds := g.reseeds + 1, lastError := None, epoch := g.epoch + 1))
  }

  function NoteFailure(g: Gen, error: Error): Gen {
    g.(failures := g.failures + 1, lastError := Some(error))
  }

  function Retire(g: Gen): Gen {
    if g.closed then g
    else g.(key := Zeros(|g.key|), nonce := Zeros(|g.nonce|), cipher := None, closed := true, counted := false)
  }

  function Zeros(n: nat): seq<byte> {
    seq(n, _ => 0)
  }

  // ---------------------------------------------------------------- a generator's whole life

  datatype Op = ReadOp(n: nat) | ReseedOp(seed: seq<byte>) | FailOp(error: Error) | CloseOp

  function Apply(p: Primitives, g: Gen, op: Op): Gen
    requires Sound(g)
  {
    match op
    case ReadOp(n) => Read(p, g, n).1
    case ReseedOp(seed) => Rekey(p, g, seed).1
    case FailOp(error) => NoteFailure(g, error)
    case CloseOp => Retire(g)
  }

  lemma ApplyKeepsSound(p: Primitives, g: Gen, op: Op)
    requires Sound(g)
    ensures Sound(Apply(p, g, op))
  {
  }

  /** The generator after any sequence of operations, accepted or refused. */
  function Run(p: Primitives, g: Gen, ops: seq<Op>): (r: Gen)
    requires Sound(g)
    ensures Sound(r)
  {
    if ops == [] then g
    else
      var last := |ops| - 1;
      ApplyKeepsSound(p, Run(p, g, ops[..last]), ops[last]);
      Apply(p, Run(p, g, ops[..last]), ops[last])
  }

  /** In every reachable state the budget is the plain difference: the 64-bit subtraction never wraps. */
  lemma BudgetNeverWraps(p: Primitives, seed: seq<byte>, algorithm: string, ops: seq<Op>)
    requires Create(p, seed, algorithm).Ok?
    ensures var g := Run(p, Create(p, seed, algorithm).value, ops);
            0 <= MAX_BYTES_PER_KEY - g.generated == Budget(g)
  {
    SmallDifference(MAX_BYTES_PER_KEY - Run(p, Create(p, seed, algorithm).value, ops).generated);
  }

  lemma SmallDifference(d: nat)
    requires d <= MAX_BYTES_PER_KEY
    ensures d % WORD_64 == d
  {
  }

  /** The counter block AES-CTR encrypts for a stream position (section 6.5 of NIST SP 800-38A). */
  function CounterBlock(initial: nat, position: nat): nat {
    (initial + position / 16) % 0x1_0000_0000_0000_0000_0000_0000_0000_0000
  }

  /**
   A byte handed out by any reachable generator lies in one of the 2^32 blocks ChaCha20 can
   address (section 2.3 of RFC 8439), and no two of its AES-CTR blocks share a counter.
   */
  lemma CountersStayUnique(p: Primitives, seed: seq<byte>, algorithm: string, ops: seq<Op>,
                           n: nat, initial: nat, a: nat, b: nat)
    requires Create(p, seed, algorithm).Ok?
    requires var g := Run(p, Create(p, seed, algorithm).value, ops);
             Read(p, g, n).0.Ok? && a < g.generated + n && b < g.generated + n
    ensures a / 64 <= 0xFFFF_FFFF
    ensures CounterBlock(initial, a) == CounterBlock(initial, b) <==> a / 16 == b / 16
  {
    if a / 16 != b / 16 {
      DistinctResidues(initial, a / 16, b / 16);
    }
  }

  lemma DistinctResidues(base: nat, i: nat, j: nat)
    requires i < 0x1_0000_0000 * 4 && j < 0x1_0000_0000 * 4 && i != j
    ensures (base + i) % 0x1_0000_0000_0000_0000_0000_0000_0000_0000
         != (base + j) % 0x1_0000_0000_0000_0000_0000_0000_0000_0000
  {
  }

  /** What a read hands out: the keystream of its key, byte for byte, from where the generator had got to. */
  lemma ReadBytes(p: Primitives, g: Gen, n: nat)
    requires Sound(g)
    ensures Read(p, g, n).0 == Err(ClosedPipe) <==> g.closed
    ensures Read(p, g, n).0 == Err(OutputLimit) <==> !g.closed && g.generated + n > 0x40_0000_0000
    ensures !g.closed && g.generated + n <= 0x40_0000_0000 ==>
              var (bytes, g') := Read(p, g, n);
              && bytes.Ok? && |bytes.value| == n
              && (forall k :: 0 <= k < n ==>
                    bytes.value[k] == p.keystream(g.algorithm, g.key, g.nonce, g.generated + k))
              && g'.generated == g.generated + n && g'.key == g.key && g'.nonce == g.nonce
              && g'.epoch == g.epoch && g'.algorithm == g.algorithm && !g'.closed
  {
    SmallDifference(MAX_BYTES_PER_KEY - g.generated);
  }

  /** What seeding and reseeding hash: the seed, behind the old key if there was one, whatever its length. */
  lemma KeysAreDigests(p: Primitives, g: Gen, seed: seq<byte>, algorithm: string)
    requires Sound(g)
    ensures (algorithm == "chacha20" || algorithm == "aes-256-ctr") && |seed| >= 32 ==>
              var r := Create(p, seed, algorithm);
              && r.Ok? && r.value.algorithm == algorithm
              && r.value.key == p.sha512(seed)[..32] && r.value.nonce == p.sha512(seed)[32..48]
              && r.value.reseeds == 0 && r.value.failures == 0 && r.value.lastError == None
    ensures !g.closed && |seed| >= 32 ==>
              var (error, g') := Rekey(p, g, seed);
              && error == None && g'.algorithm == g.algorithm && g'.failures == g.failures && g'.lastError == None
              && g'.key == p.sha512(g.key + seed)[..32] && g'.nonce == p.sha512(g.key + seed)[32..48]
  {
  }

  /** Splitting a read changes neither the bytes nor the generator. */
  lemma ReadInTwoParts(p: Primitives, g: Gen, m: nat, n: nat)
    requires Sound(g) && !g.closed && g.generated + m + n <= MAX_BYTES_PER_KEY
    ensures var (first, middle) := Read(p, g, m);
            var (second, last) := Read(p, middle, n);
            first.Ok? && second.Ok? && Read(p, g, m + n) == (Ok(first.value + second.value), last)
  {
    var c := g.cipher.value;
    assert Keystream(p, c, c.position, m + n) == Keystream(p, c, c.position, m) + Keystream(p, c, c.position + m, n);
  }

  // ---------------------------------------------------------------- the object

  /** The two process-wide instance gauges. */
  class InstanceGauges {
    var active: int
    var peak: int

    constructor ()
      ensures active == 0 && peak == 0
    {
      active, peak := 0, 0;
    }

    /**
     Count one instance, raising the high-water mark by compare-and-swap. Called alone, as here, the
     loop leaves on its first pass; `InstanceCount` has the constructors and closers run together.
     */
    method Register()
      modifies this
      ensures active == old(active) + 1
      ensures peak == Max(old(peak), active)
    {
      active := active + 1;
      var mine := active;
      var done := false;
      while !done
        invariant active == mine == old(active) + 1
        invariant peak == if done then Max(old(peak), mine) else old(peak)
        decreases !done
      {
        var seen := peak;
        if mine <= seen {
          done := true;
        } else if peak == seen {
          peak := mine;
          done := true;
        }
      }
    }

    method Unregister()
      modifies this
      ensures active == old(active) - 1 && peak == old(peak)
    {
      active := active - 1;
    }
  }

  class Drbg {
    const primitives: Primitives
    const algorithm: string
    const gauges: InstanceGauges
    var key: seq<byte>
    var nonce: seq<byte>
    var cipher: Option<Cipher>
    var closed: bool
    var counted: bool
    var generated: nat
    var reseeds: nat
    var reseedFailures: nat
    var lastReseedError: Option<Error>
    var reseedEpoch: nat

    function State(): Gen
      reads this
    {
      Gen(algorithm, key, nonce, cipher, closed, counted, generated, reseeds, reseedFailures, lastReseedError,
          reseedEpoch)
    }

    ghost predicate Valid()
      reads this
    {
      Sound(State())
    }

    constructor FromState(p: Primitives, g: Gen, gauges: InstanceGauges)
      ensures primitives == p && this.gauges == gauges && State() == g
    {
      primitives, algorithm, this.gauges := p, g.algorithm, gauges;
      key, nonce, cipher, closed, counted := g.key, g.nonce, g.cipher, g.closed, g.counted;
      generated, reseeds, reseedFailures := g.generated, g.reseeds, g.failures;
      lastReseedError, reseedEpoch := g.lastError, g.epoch;
    }

    static method NewWithAlgorithm(p: Primitives, seed: seq<byte>, algorithm: string, gauges: InstanceGauges)
      returns (d: Drbg?, error: Option<Error>)
      modifies gauges
      ensures match Create(p, seed, algorithm)
              case Ok(g) => d != null && fresh(d) && error == None && d.State() == g
                            && d.primitives == p && d.gauges == gauges
                            && gauges.active == old(gauges.active) + 1
                            && gauges.peak == Max(old(gauges.peak), gauges.active)
              case Err(e) => d == null && error == Some(e) && unchanged(gauges)
      ensures error == if algorithm != "chacha20" && algorithm != "aes-256-ctr" then Some(Unsupported)
                       else if |seed| < 32 then Some(ShortSeed) else None
      ensures error == None ==>
                && d != null && d.Valid() && d.algorithm == algorithm
                && d.key == p.sha512(seed)[..32] && d.nonce == p.sha512(seed)[32..48]
                && d.generated == 0 && d.reseedEpoch == 0 && !d.closed
                && d.reseeds == 0 && d.reseedFailures == 0 && d.lastReseedError == None
    {
      if !Supported(algorithm) {
        return null, Some(Unsupported);
      }
      if |seed| < 32 {
        return null, Some(ShortSeed);
      }
      var h := p.sha512(seed);
      var key, nonce := h[..32], h[32..48];
      var c := NewCipher(algorithm, key, nonce);
      assert c.Ok?;  // the algorithm was checked above, so the cipher is always constructed
      gauges.Register();
      d := new Drbg.FromState(p, Gen(algorithm, key, nonce, Some(c.value), false, true, 0, 0, 0, None, 0), gauges);
      error := None;
    }

    /** Fill the buffer: clear it, then combine it with the keystream. */
    method ReadLocked(p: array<byte>) returns (n: nat, error: Option<Error>)
      requires Valid()
      modifies `cipher, `generated, p
      ensures Valid()
      ensures var (result, after) := Read(primitives, old(State()), p.Length);
              && State() == after
              && match result
                 case Ok(bytes) => error == None && n == p.Length && p[..] == bytes
                 case Err(e) => error == Some(e) && n == 0 && p[..] == old(p[..])
      ensures error == if old(closed) then Some(ClosedPipe)
                       else if old(generated) + p.Length > 0x40_0000_0000 then Some(OutputLimit) else None
      ensures error == None ==>
                && n == p.Length && generated == old(generated) + p.Length
                && forall k :: 0 <= k < p.Length ==>
                     p[k] == primitives.keystream(algorithm, old(key), old(nonce), old(generated) + k)
      ensures error != None ==> unchanged(this) && unchanged(p) && n == 0
    {
      if closed {
        return 0, Some(ClosedPipe);
      }
      if p.Length > Minus64(MAX_BYTES_PER_KEY, generated) {
        return 0, Some(OutputLimit);
      }
      ghost var before := State();
      var stream := cipher.value;
      for i := 0 to p.Length
        invariant forall k :: 0 <= k < i ==> p[k] == 0
        invariant unchanged(this)
      {
        p[i] := 0;
      }
      for i := 0 to p.Length
        invariant unchanged(this)
        invariant forall k :: 0 <= k < i ==>
                    p[k] == primitives.keystream(stream.algorithm, stream.key, stream.nonce, stream.position + k)
        invariant forall k :: i <= k < p.Length ==> p[k] == 0
      {
        p[i] := p[i] ^ primitives.keystream(stream.algorithm, stream.key, stream.nonce, stream.position + i);
      }
      cipher := Some(stream.(position := stream.position + p.Length));
      generated := generated + p.Length;
      assert p[..] == Keystream(primitives, stream, stream.position, p.Length);
      return p.Length, None;
    }

    method Reseed(seed: seq<byte>) returns (error: Option<Error>)
      requires Valid()
      modifies this
      ensures Valid()
      ensures (error, State()) == Rekey(primitives, old(State()), seed)
      ensures error == if old(closed) then Some(ClosedPipe) else if |seed| < 32 then Some(ShortReseed) else None
      ensures error == None ==>
                && key == primitives.sha512(old(key) + seed)[..32]
                && nonce == primitives.sha512(old(key) + seed)[32..48]
                && generated == 0 && !closed && lastReseedError == None
                && reseeds == old(reseeds) + 1 && reseedEpoch == old(reseedEpoch) + 1
                && reseedFailures == old(reseedFailures)
      ensures error != None ==> unchanged(this)
    {
      if closed {
        return Some(ClosedPipe);
      }
      if |seed| < 32 {
        return Some(ShortReseed);
      }
      var digest := primitives.sha512(key + seed);
      var newKey, newNonce := digest[..32], digest[32..48];
      var c := NewCipher(algorithm, newKey, newNonce);
      assert c.Ok?;  // a sound generator's algorithm is supported, so the cipher is always constructed
      key, nonce := Zeros(|key|), Zeros(|nonce|);
      key, nonce := newKey, newNonce;
      cipher := Some(c.value);
      generated := 0;
      reseeds := reseeds + 1;
      lastReseedError := None;
      reseedEpoch := reseedEpoch + 1;
      return None;
    }

    method RecordReseedFailure(error: Option<Error>)
      modifies `reseedFailures, `lastReseedError
      ensures State() == match error
              case None => old(State())
              case Some(e) => NoteFailure(old(State()), e)
      ensures reseedFailures == old(reseedFailures) + if error == None then 0 else 1
      ensures lastReseedError == if error == None then old(lastReseedError) else error
    {
      if error == None {
        return;
      }
      reseedFailures := reseedFailures + 1;
      lastReseedError := error;
    }

    /** The instance count is given back exactly once, however often this is called. */
    method Close()
      requires Valid()
      modifies `key, `nonce, `cipher, `closed, `counted, gauges
      ensures Valid() && State() == Retire(old(State()))
      ensures closed && cipher == None
      ensures if old(closed) then key == old(key) && nonce == old(nonce)
              else (forall k :: 0 <= k < |key| ==> key[k] == 0) && (forall k :: 0 <= k < |nonce| ==> nonce[k] == 0)
      ensures gauges.active == old(gauges.active) - (if old(closed) then 0 else 1) && gauges.peak == old(gauges.peak)
    {
      if closed {
        return;
      }
      key, nonce := Zeros(|key|), Zeros(|nonce|);
      cipher := None;
      closed := true;
      if counted {
        counted := false;
        gauges.Unregister();
      }
    }

    /** Bounded seed material: sizes outside the range are refused before anything is read. */
    method Derive(size: int) returns (result: Result<seq<byte>>)
      requires Valid()
      modifies this
      ensures Valid()
      ensures if 1 <= size <= MAX_DERIVE_BYTES then (result, State()) == Read(primitives, old(State()), size)
              else result == Err(BadDeriveSize) && State() == old(State())
      ensures result.Ok? <==>
                1 <= size <= 0x10_0000 && !old(closed) && old(generated) + size <= 0x40_0000_0000
      ensures result.Ok? ==>
                && |result.value| == size && generated == old(generated) + size
                && forall k :: 0 <= k < size ==>
                     result.value[k] == primitives.keystream(algorithm, old(key), old(nonce), old(generated) + k)
    {
      if size < 1 || size > MAX_DERIVE_BYTES {
        return Err(BadDeriveSize);
      }
      var seed := new byte[size](_ => 0);
      var _, error := ReadLocked(seed);
      if error.Some? {
        return Err(error.value);
      }
      return Ok(seed[..]);
    }
  }
}
