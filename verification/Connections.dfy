/**
 The private stream of one connection: a child generator created on the first read and
 rekeyed from the parent when the parent was reseeded or the child's budget would be crossed.
 */
module Connections {
  import opened Common
  import opened Generators

  const SEED_BYTES := 64

  datatype Conn = Conn(child: Option<Gen>, epoch: nat, closed: bool)

  /** A child always shares its parent's algorithm and stays open until the connection closes. */
  ghost predicate Fits(c: Conn, parent: Gen) {
    && Sound(parent)
    && (c.child.Some? ==> Sound(c.child.value) && !c.child.value.closed && c.child.value.algorithm == parent.algorithm)
    && (c.closed ==> c.child == None)
  }

  predicate NeedsRefresh(c: Conn, parentEpoch: nat, n: nat)
    requires c.child.Some? ==> Sound(c.child.value)
  {
    || c.child == None
    || c.epoch != parentEpoch
    || n > Budget(c.child.value)
  }

  /** Give the connection a child keyed from a fresh parent seed. */
  function Refresh(p: Primitives, c: Conn, algorithm: string, seed: seq<byte>, epoch: nat): (r: Conn)
    requires Supported(algorithm) && |seed| == SEED_BYTES
    requires c.child.Some? ==> Sound(c.child.value) && !c.child.value.closed && c.child.value.algorithm == algorithm
    ensures r.child.Some? && r.epoch == epoch && r.closed == c.closed
    ensures Sound(r.child.value) && !r.child.value.closed && r.child.value.algorithm == algorithm
    ensures r.child.value.generated == 0
    ensures var prior := if c.child.Some? then c.child.value.key else [];
            && r.child.value.key == p.sha512(prior + seed)[..32]
            && r.child.value.nonce == p.sha512(prior + seed)[32..48]
  {
    var child := match c.child
      case None => assert [] + seed == seed; Create(p, seed, algorithm).value
      case Some(old_) => Rekey(p, old_, seed).1;
    c.(child := Some(child), epoch := epoch)
  }

  /** One whole Read with nobody else running: the result, the connection and the parent afterwards. */
  function ReadOnce(p: Primitives, c: Conn, parent: Gen, n: nat): (r: (Result<seq<byte>>, Conn, Gen))
    requires Fits(c, parent)
    ensures Fits(r.1, r.2)
  {
    if c.closed then (Err(ClosedPipe), c, parent)
    else if n == 0 then (Ok([]), c, parent)
    else if n > MAX_BYTES_PER_KEY then (Err(ReadTooLong), c, parent)
    else if NeedsRefresh(c, parent.epoch, n) then
      match Read(p, parent, SEED_BYTES)
      case (Err(e), _) => (Err(e), c, parent)
      case (Ok(seed), parent') =>
        var c' := Refresh(p, c, parent.algorithm, seed, parent.epoch);
        var (bytes, child) := Read(p, c'.child.value, n);
        (bytes, c'.(child := Some(child)), parent')
    else
      var (bytes, child) := Read(p, c.child.value, n);
      (bytes, c.(child := Some(child)), parent)
  }

  /**
   A read fails exactly when the connection is closed, the request is longer than any key
   may produce, or a refresh is due and the parent cannot supply a seed. In particular the
   child read after a refresh never fails.
   */
  lemma ReadFailsExactlyWhen(p: Primitives, c: Conn, parent: Gen, n: nat)
    requires Fits(c, parent)
    ensures ReadOnce(p, c, parent, n).0.Err? <==>
            || c.closed
            || n > MAX_BYTES_PER_KEY
            || (n > 0 && NeedsRefresh(c, parent.epoch, n)
                && (parent.closed || parent.generated + SEED_BYTES > MAX_BYTES_PER_KEY))
  {
    if c.child.Some? {
      SmallDifference(MAX_BYTES_PER_KEY - c.child.value.generated);
    }
  }

  /** A failed read changes nothing at all: no child, epoch or parent byte is lost. */
  lemma FailedReadChangesNothing(p: Primitives, c: Conn, parent: Gen, n: nat)
    requires Fits(c, parent) && ReadOnce(p, c, parent, n).0.Err?
    ensures ReadOnce(p, c, parent, n) == (ReadOnce(p, c, parent, n).0, c, parent)
  {
    ReadFailsExactlyWhen(p, c, parent, n);
  }

  /** The parent gives up 64 bytes per refresh and nothing otherwise; a served read leaves the connection current. */
  lemma ParentPaysPerRefresh(p: Primitives, c: Conn, parent: Gen, n: nat)
    requires Fits(c, parent) && ReadOnce(p, c, parent, n).0.Ok? && n > 0
    ensures var (bytes, c', parent') := ReadOnce(p, c, parent, n);
            var refreshed := NeedsRefresh(c, parent.epoch, n);
            && |bytes.value| == n
            && c'.child.Some? && c'.epoch == parent.epoch == parent'.epoch
            && parent'.generated == parent.generated + (if refreshed then SEED_BYTES else 0)
            && c'.child.value.generated == n + (if refreshed then 0 else c.child.value.generated)
            && (!refreshed ==> parent' == parent && c'.child.value.key == c.child.value.key)
  {
    ReadFailsExactlyWhen(p, c, parent, n);
  }

  /** Which refusal a failed read gives, and that an empty read gives nothing and asks nothing. */
  lemma RefusalsAre(p: Primitives, c: Conn, parent: Gen, n: nat)
    requires Fits(c, parent)
    ensures var answer := ReadOnce(p, c, parent, n).0;
            var due := c.child == None || c.epoch != parent.epoch || c.child.value.generated + n > 0x40_0000_0000;
            && (c.closed ==> answer == Err(ClosedPipe))
            && (!c.closed && n == 0 ==> ReadOnce(p, c, parent, n) == (Ok([]), c, parent))
            && (!c.closed && n > 0x40_0000_0000 ==> answer == Err(ReadTooLong))
            && (!c.closed && 0 < n <= 0x40_0000_0000 ==>
                  && (answer == Err(ClosedPipe) <==> due && parent.closed)
                  && (answer == Err(OutputLimit) <==>
                        due && !parent.closed && parent.generated + 64 > 0x40_0000_0000)
                  && (answer.Ok? <==> !due || (!parent.closed && parent.generated + 64 <= 0x40_0000_0000)))
  {
    ReadFailsExactlyWhen(p, c, parent, n);
    if c.child.Some? {
      SmallDifference(MAX_BYTES_PER_KEY - c.child.value.generated);
    }
  }

  /**
   What a served read hands out. A refresh is due on the first read, after an observed reseed and
   when the key's 2^38 bytes would be exceeded; otherwise the child's stream just goes on.
   */
  lemma BytesServed(p: Primitives, c: Conn, parent: Gen, n: nat)
    requires Fits(c, parent) && ReadOnce(p, c, parent, n).0.Ok? && n > 0
    ensures var (answer, c', parent') := ReadOnce(p, c, parent, n);
            var due := c.child == None || c.epoch != parent.epoch || c.child.value.generated + n > 0x40_0000_0000;
            && c'.child.Some? && !c'.closed && |answer.value| == n
            && var child' := c'.child.value;
               if due then
                 && c'.epoch == parent.epoch
                 && parent'.generated == parent.generated + 64 && parent'.key == parent.key
                 && child'.generated == n
                 && (exists seed: seq<byte> ::
                       && |seed| == 64
                       && (forall k :: 0 <= k < 64 ==>
                             seed[k] == p.keystream(parent.algorithm, parent.key, parent.nonce, parent.generated + k))
                       && var prior := if c.child == None then [] else c.child.value.key;
                          && child'.key == p.sha512(prior + seed)[..32]
                          && child'.nonce == p.sha512(prior + seed)[32..48])
                 && forall k :: 0 <= k < n ==>
                      answer.value[k] == p.keystream(parent.algorithm, child'.key, child'.nonce, k)
               else
                 && parent' == parent && c'.epoch == c.epoch
                 && child'.key == c.child.value.key && child'.nonce == c.child.value.nonce
                 && child'.generated == c.child.value.generated + n
                 && forall k :: 0 <= k < n ==>
                      answer.value[k]
                      == p.keystream(parent.algorithm, child'.key, child'.nonce, c.child.value.generated + k)
  {
    if c.child.Some? {
      SmallDifference(MAX_BYTES_PER_KEY - c.child.value.generated);
    }
    if NeedsRefresh(c, parent.epoch, n) {
      ReadBytes(p, parent, SEED_BYTES);
      var seed := Read(p, parent, SEED_BYTES).0.value;
      var fresh_ := Refresh(p, c, parent.algorithm, seed, parent.epoch).child.value;
      hide Refresh;
      ReadBytes(p, fresh_, n);
      assert |seed| == 64;
    } else {
      ReadBytes(p, c.child.value, n);
    }
  }

  // ---------------------------------------------------------------- the log a connection refines

  /** Reads one after another; the parent is left alone in between. */
  function ReadMany(p: Primitives, c: Conn, parent: Gen, sizes: seq<nat>): (r: (Result<seq<byte>>, Conn, Gen))
    requires Fits(c, parent)
    ensures Fits(r.1, r.2)
    decreases |sizes|
  {
    if sizes == [] then (Ok([]), c, parent)
    else
      var last := |sizes| - 1;
      match ReadMany(p, c, parent, sizes[..last])
      case (Err(e), c', parent') => (Err(e), c', parent')
      case (Ok(before), c', parent') =>
        match ReadOnce(p, c', parent', sizes[last])
        case (Err(e), c'', parent'') => (Err(e), c'', parent'')
        case (Ok(bytes), c'', parent'') => (Ok(before + bytes), c'', parent'')
  }

  /** One more read: its bytes follow those before, unless one of them failed. */
  lemma OneMoreRead(p: Primitives, c: Conn, parent: Gen, sizes: seq<nat>, n: nat)
    requires Fits(c, parent)
    ensures ReadMany(p, c, parent, []) == (Ok([]), c, parent)
    ensures var (before, c', parent') := ReadMany(p, c, parent, sizes);
            var (bytes, c'', parent'') := ReadOnce(p, c', parent', n);
            ReadMany(p, c, parent, sizes + [n])
            == if before.Err? then (before, c', parent')
               else (if bytes.Err? then bytes else Ok(before.value + bytes.value), c'', parent'')
  {
    assert (sizes + [n])[..|sizes|] == sizes;
  }

  function Total(sizes: seq<nat>): nat {
    if sizes == [] then 0 else Total(sizes[..|sizes| - 1]) + sizes[|sizes| - 1]
  }

  /** What is still to be read fits one key: the child's if it is current, a fresh one otherwise. */
  predicate FitsOneKey(c: Conn, parent: Gen, n: nat) {
    && n <= MAX_BYTES_PER_KEY
    && (c.child.Some? && c.epoch == parent.epoch ==> c.child.value.generated + n <= MAX_BYTES_PER_KEY)
  }

  /** Two reads that fit one key are one read of their total. */
  lemma ReadsJoin(p: Primitives, c: Conn, parent: Gen, m: nat, n: nat)
    requires Fits(c, parent) && FitsOneKey(c, parent, m + n) && ReadOnce(p, c, parent, m + n).0.Ok?
    ensures var (first, c', parent') := ReadOnce(p, c, parent, m);
            var (second, c'', parent'') := ReadOnce(p, c', parent', n);
            first.Ok? && second.Ok? && ReadOnce(p, c, parent, m + n) == (Ok(first.value + second.value), c'', parent'')
  {
    var whole := ReadOnce(p, c, parent, m + n).0.value;
    assert whole + [] == whole == [] + whole;
    if m > 0 && n > 0 {
      if c.child.Some? {
        SmallDifference(MAX_BYTES_PER_KEY - c.child.value.generated);
      }
      SmallDifference(MAX_BYTES_PER_KEY - m);
      if NeedsRefresh(c, parent.epoch, m) {
        var (seed, _) := Read(p, parent, SEED_BYTES);
        ReadInTwoParts(p, Refresh(p, c, parent.algorithm, seed.value, parent.epoch).child.value, m, n);
      } else {
        SmallDifference(MAX_BYTES_PER_KEY - c.child.value.generated - m);
        ReadInTwoParts(p, c.child.value, m, n);
      }
    }
  }

  /** A shorter read succeeds wherever a longer one that fits the same key does. */
  lemma ShorterReadSucceeds(p: Primitives, c: Conn, parent: Gen, m: nat, n: nat)
    requires Fits(c, parent) && FitsOneKey(c, parent, m + n) && ReadOnce(p, c, parent, m + n).0.Ok?
    ensures FitsOneKey(c, parent, m) && ReadOnce(p, c, parent, m).0.Ok?
  {
    ReadsJoin(p, c, parent, m, n);
  }

  /**
   Any sequence of reads whose total fits one key yields the bytes, the connection and the
   parent of a single read of the total.
   */
  lemma {:induction false} ReadsFormOneStream(p: Primitives, c: Conn, parent: Gen, sizes: seq<nat>)
    requires Fits(c, parent) && !c.closed && Total(sizes) <= 0x40_0000_0000
    requires c.child.Some? && c.epoch == parent.epoch ==> c.child.value.generated + Total(sizes) <= 0x40_0000_0000
    requires ReadOnce(p, c, parent, Total(sizes)).0.Ok?
    ensures ReadMany(p, c, parent, sizes) == ReadOnce(p, c, parent, Total(sizes))
    decreases |sizes|
  {
    hide ReadOnce, FitsOneKey;
    if sizes == [] {
      EmptyRead(p, c, parent);
    } else {
      var last := |sizes| - 1;
      ShorterReadSucceeds(p, c, parent, Total(sizes[..last]), sizes[last]);
      ReadsFormOneStream(p, c, parent, sizes[..last]);
      ReadsJoin(p, c, parent, Total(sizes[..last]), sizes[last]);
    }
  }

  lemma EmptyRead(p: Primitives, c: Conn, parent: Gen)
    requires Fits(c, parent) && !c.closed
    ensures ReadOnce(p, c, parent, 0) == (Ok([]), c, parent)
  {
  }

  // ---------------------------------------------------------------- the object

  class ConnectionReader {
    const parent: Drbg
    var child: Drbg?
    var epoch: nat
    var closed: bool

    ghost function State(): Conn
      reads this, child
    {
      Conn(if child == null then None else Some(child.State()), epoch, closed)
    }

    ghost predicate Valid()
      reads this, parent, child
    {
      && (child != null ==> child != parent && child.primitives == parent.primitives && child.gauges == parent.gauges)
      && Fits(State(), parent.State())
    }

    constructor (parent: Drbg)
      requires parent.Valid()
      ensures Valid() && this.parent == parent && State() == Conn(None, 0, false)
    {
      this.parent := parent;
      child, epoch, closed := null, 0, false;
    }

    method Read(p: array<byte>) returns (n: nat, error: Option<Error>)
      requires Valid()
      modifies this, parent, child, p, parent.gauges
      ensures Valid() && (old(child) != null ==> child == old(child)) && (child != old(child) ==> fresh(child))
      ensures var (result, after, parentAfter) := ReadOnce(parent.primitives, old(State()), old(parent.State()),
                                                           p.Length);
              && State() == after
              && parent.State() == parentAfter
              && match result
                 case Ok(bytes) => error == None && n == p.Length && p[..] == bytes
                 case Err(e) => error == Some(e) && n == 0 && p[..] == old(p[..])
      ensures parent.gauges.active == old(parent.gauges.active) + (if child == old(child) then 0 else 1)
      ensures error == None && p.Length > 0 ==>
                var due := old(child == null || epoch != parent.reseedEpoch
                               || child.generated + p.Length > 0x40_0000_0000);
                && child != null && n == p.Length
                && (forall k :: 0 <= k < n ==>
                      p[k] == parent.primitives.keystream(parent.algorithm, child.key, child.nonce,
                                                          child.generated - n + k))
                && parent.generated == old(parent.generated) + (if due then 64 else 0)
                && if due then child.generated == n && epoch == parent.reseedEpoch
                   else child.key == old(child.key) && child.nonce == old(child.nonce)
                        && child.generated == old(child.generated) + n
    {
      hide Generators.Read, Refresh, Sound;
      if closed {
        return 0, Some(ClosedPipe);
      }
      if p.Length == 0 {
        return 0, None;
      }
      if p.Length > MAX_BYTES_PER_KEY {
        return 0, Some(ReadTooLong);
      }
      RefusalsAre(parent.primitives, State(), parent.State(), p.Length);
      if child == null || epoch != parent.reseedEpoch || p.Length > Minus64(MAX_BYTES_PER_KEY, child.generated) {
        error := RefreshChild();
        if error.Some? {
          return 0, error;
        }
      }
      n, error := child.ReadLocked(p);
    }

    /** A seed and the epoch it belongs to from the parent, then a new child or a reseed of the old one. */
    method RefreshChild() returns (error: Option<Error>)
      requires Valid() && !closed
      modifies `child, `epoch, parent, child, parent.gauges
      ensures Valid() && (old(child) != null ==> child == old(child)) && (child != old(child) ==> fresh(child))
      ensures match Generators.Read(parent.primitives, old(parent.State()), SEED_BYTES)
              case (Ok(seed), parentAfter) =>
                && error == None && parent.State() == parentAfter && child != null
                && State() == Refresh(parent.primitives, old(State()), parent.algorithm, seed, old(parent.reseedEpoch))
                && parent.gauges.active == old(parent.gauges.active) + (if child == old(child) then 0 else 1)
              case (Err(e), _) =>
                error == Some(e) && State() == old(State()) && parent.State() == old(parent.State())
                && child == old(child) && parent.gauges.active == old(parent.gauges.active)
    {
      var buffer := new byte[SEED_BYTES](_ => 0);
      var _, failure := parent.ReadLocked(buffer);
      var newEpoch := parent.reseedEpoch;
      if failure.Some? {
        return failure;
      }
      var seed := buffer[..];
      if child == null {
        assert [] + seed == seed;
        var created, createError := Drbg.NewWithAlgorithm(parent.primitives, seed, parent.algorithm, parent.gauges);
        assert createError == None;
        child := created;
      } else {
        var rekeyError := child.Reseed(seed);
        assert rekeyError == None;
      }
      epoch := newEpoch;
      return None;
    }

    /** Idempotent; an idle connection has no instance to give back. */
    method Close()
      requires Valid()
      modifies this, child, parent.gauges
      ensures Valid() && State() == Conn(None, old(epoch), true)
      ensures parent.gauges.active == old(parent.gauges.active) - (if old(child) == null then 0 else 1)
      ensures old(child) != null ==> old(child).closed
    {
      if !closed && child != null {
        child.Close();
        child := null;
      }
      closed := true;
    }
  }
}
