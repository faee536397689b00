/**
 What the bytes of the reseed protocol are. Every range in the ledger holds the keystream of the
 key its instance had, byte for byte at the ledger's positions, and every child key ever used is
 the digest of 64 bytes that the ledger handed out from the parent's stream for it alone.
 */
module ReseedStreams {
  import opened Common
  import opened Generators
  import opened Connections
  import opened Ledger
  import opened ReseedProtocol

  /** The key of a stream: the parent's by generation, a child's as it was named. */
  function KeyOf(s: State, owner: Instance, generation: nat): Option<Keys> {
    match owner
    case Root => if generation < |s.keys| then Some(s.keys[generation]) else None
    case _ =>
      if StreamId(owner, generation) in s.childKeys then Some(s.childKeys[StreamId(owner, generation)].keys) else None
  }

  /** The key a child of that name hashes in front of its seed: its previous one, none for a first key. */
  function Prior(s: State, id: StreamId): seq<byte> {
    if id.generation > 0 && StreamId(id.owner, id.generation - 1) in s.childKeys
    then s.childKeys[StreamId(id.owner, id.generation - 1)].keys.key
    else []
  }

  /** A range's bytes are its key's stream from where the range starts. */
  ghost predicate RangeBytes(p: Primitives, s: State, r: Range<Instance, Purpose>) {
    && KeyOf(s, r.owner, r.generation).Some?
    && |r.purpose.bytes| == r.length
    && var k := KeyOf(s, r.owner, r.generation).value;
       forall j :: 0 <= j < r.length ==>
         r.purpose.bytes[j] == p.keystream(s.parent.algorithm, k.key, k.nonce, r.start + j)
  }

  ghost predicate LogBytes(p: Primitives, s: State) {
    forall k :: 0 <= k < |s.log| ==> RangeBytes(p, s, s.log[k])
  }

  /** A child's key is the digest of the seed at its entry, which was drawn for exactly that key. */
  ghost predicate DerivedKey(p: Primitives, s: State, id: StreamId) {
    && id in s.childKeys && id.owner != Root
    && (id.generation > 0 ==> StreamId(id.owner, id.generation - 1) in s.childKeys)
    && var c := s.childKeys[id];
       && c.entry < |s.log|
       && var r := s.log[c.entry];
          && r.owner == Root && r.length == SEED_BYTES
          && r.purpose == SeedFor(id.owner, id.generation, r.purpose.bytes)
          && c.keys.key == p.sha512(Prior(s, id) + r.purpose.bytes)[..32]
          && c.keys.nonce == p.sha512(Prior(s, id) + r.purpose.bytes)[32..48]
  }

  ghost predicate KeysDerived(p: Primitives, s: State) {
    forall id :: id in s.childKeys ==> DerivedKey(p, s, id)
  }

  /** The named keys are those of every child so far, and the ones in use are the children's own. */
  ghost predicate KeysInUse(s: State) {
    && (forall i, g: nat :: StreamId(Reader(i), g) in s.childKeys <==> i in s.readers && g < s.readers[i].keysMade)
    && (forall i, g: nat :: StreamId(OneShot(i), g) in s.childKeys <==> i in s.oneShots && g == 0)
    && (forall i :: i in s.readers ==> ReaderKey(s, i))
    && (forall i :: i in s.oneShots ==> OneShotKey(s, i))
  }

  ghost predicate ReaderKey(s: State, i: nat)
    requires i in s.readers
  {
    var r := s.readers[i];
    r.conn.child.Some? && r.keysMade > 0 ==>
      KeyOf(s, Reader(i), r.keysMade - 1) == Some(Keys(r.conn.child.value.key, r.conn.child.value.nonce))
  }

  ghost predicate OneShotKey(s: State, i: nat)
    requires i in s.oneShots
  {
    KeyOf(s, OneShot(i), 0) == Some(Keys(s.oneShots[i].child.key, s.oneShots[i].child.nonce))
  }

  ghost predicate StreamsInv(p: Primitives, s: State) {
    LogBytes(p, s) && KeysDerived(p, s) && KeysInUse(s)
  }

  // ---------------------------------------------------------------- what a step leaves alone

  /** Keys, once there, stay. */
  ghost predicate KeysGrow(s: State, s': State) {
    && s'.parent.algorithm == s.parent.algorithm
    && s.keys <= s'.keys
    && forall id :: id in s.childKeys ==> id in s'.childKeys && s'.childKeys[id] == s.childKeys[id]
  }

  lemma RangeStays(p: Primitives, s: State, s': State, r: Range<Instance, Purpose>)
    requires KeysGrow(s, s') && RangeBytes(p, s, r)
    ensures RangeBytes(p, s', r)
  {
    assert KeyOf(s', r.owner, r.generation) == KeyOf(s, r.owner, r.generation);
  }

  lemma LogBytesStay(p: Primitives, s: State, s': State)
    requires LogBytes(p, s) && KeysGrow(s, s') && s'.log == s.log
    ensures LogBytes(p, s')
  {
    hide RangeBytes;
    forall k | 0 <= k < |s'.log| ensures RangeBytes(p, s', s'.log[k]) {
      RangeStays(p, s, s', s.log[k]);
    }
  }

  lemma LogBytesExtend(p: Primitives, s: State, s': State, r: Range<Instance, Purpose>)
    requires LogBytes(p, s) && KeysGrow(s, s') && s'.log == s.log + [r] && RangeBytes(p, s', r)
    ensures LogBytes(p, s')
  {
    hide RangeBytes;
    forall k | 0 <= k < |s'.log| ensures RangeBytes(p, s', s'.log[k]) {
      if k < |s.log| {
        RangeStays(p, s, s', s.log[k]);
      }
    }
  }

  lemma DerivedStays(p: Primitives, s: State, s': State, id: StreamId)
    requires DerivedKey(p, s, id) && KeysGrow(s, s') && s.log <= s'.log
    ensures DerivedKey(p, s', id)
  {
    assert Prior(s', id) == Prior(s, id);
    assert s'.log[s.childKeys[id].entry] == s.log[s.childKeys[id].entry];
  }

  lemma KeysDerivedStay(p: Primitives, s: State, s': State)
    requires KeysDerived(p, s) && KeysGrow(s, s') && s'.childKeys == s.childKeys && s.log <= s'.log
    ensures KeysDerived(p, s')
  {
    hide DerivedKey;
    forall id | id in s'.childKeys ensures DerivedKey(p, s', id) {
      DerivedStays(p, s, s', id);
    }
  }

  /** One more child key. */
  lemma KeysDerivedExtend(p: Primitives, s: State, s': State, id: StreamId)
    requires KeysDerived(p, s) && KeysGrow(s, s') && s.log <= s'.log
    requires forall j :: j in s'.childKeys ==> j in s.childKeys || j == id
    requires DerivedKey(p, s', id)
    ensures KeysDerived(p, s')
  {
    hide DerivedKey;
    forall j | j in s'.childKeys ensures DerivedKey(p, s', j) {
      if j != id {
        assert DerivedKey(p, s, j);
        DerivedStays(p, s, s', j);
      }
    }
  }

  /** No child is made or rekeyed; one may be dropped, and streams may advance. */
  ghost predicate SameKeys(s: State, s': State) {
    && s'.childKeys == s.childKeys
    && s.readers.Keys <= s'.readers.Keys && s'.oneShots.Keys == s.oneShots.Keys
    && (forall i :: i in s'.readers ==>
          if i in s.readers then
            && s'.readers[i].keysMade == s.readers[i].keysMade
            && (s'.readers[i].conn.child.Some? ==>
                  && s.readers[i].conn.child.Some?
                  && SameKey(s.readers[i].conn.child.value, s'.readers[i].conn.child.value))
          else s'.readers[i].keysMade == 0)
    && (forall i :: i in s.oneShots ==> SameKey(s.oneShots[i].child, s'.oneShots[i].child))
  }

  predicate SameKey(g: Gen, g': Gen) {
    g'.key == g.key && g'.nonce == g.nonce
  }

  lemma KeysInUseStay(s: State, s': State)
    requires KeysInUse(s) && SameKeys(s, s')
    ensures KeysInUse(s')
  {
    forall i | i in s'.readers ensures ReaderKey(s', i) {
      assert i in s.readers ==> ReaderKey(s, i);
    }
    forall i | i in s'.oneShots ensures OneShotKey(s', i) {
      assert OneShotKey(s, i);
    }
  }

  /** What a quiet step leaves as it was. */
  ghost predicate Quiet(s: State, s': State) {
    KeysGrow(s, s') && SameKeys(s, s') && s'.log == s.log
  }

  /** A step that hands out nothing and makes no child. */
  lemma QuietStep(p: Primitives, s: State, s': State)
    requires StreamsInv(p, s) && Quiet(s, s')
    ensures StreamsInv(p, s')
  {
    assert s'.childKeys == s.childKeys;
    hide LogBytes, KeysDerived, KeysInUse, KeysGrow, SameKeys;
    LogBytesStay(p, s, s');
    KeysDerivedStay(p, s, s');
    KeysInUseStay(s, s');
  }

  /** A step that hands out one range and makes no child. */
  lemma HandOut(p: Primitives, s: State, s': State, r: Range<Instance, Purpose>)
    requires StreamsInv(p, s) && KeysGrow(s, s') && SameKeys(s, s') && s'.log == s.log + [r] && RangeBytes(p, s', r)
    ensures StreamsInv(p, s')
  {
    assert s'.childKeys == s.childKeys;
    hide LogBytes, KeysDerived, KeysInUse, KeysGrow, SameKeys, RangeBytes;
    LogBytesExtend(p, s, s', r);
    KeysDerivedStay(p, s, s');
    KeysInUseStay(s, s');
  }

  // ---------------------------------------------------------------- every step

  /** A reader that only changes its phase, or lets its child go. */
  lemma QuietReader(s: State, s': State, i: nat)
    requires i in s.readers && i in s'.readers && s'.readers == s.readers[i := s'.readers[i]]
    requires s'.readers[i].keysMade == s.readers[i].keysMade
    requires s'.readers[i].conn.child == s.readers[i].conn.child || s'.readers[i].conn.child == None
    requires s'.parent == s.parent && s'.keys == s.keys && s'.oneShots == s.oneShots && s'.log == s.log
    requires s'.childKeys == s.childKeys
    ensures Quiet(s, s')
  {
  }

  lemma QuietParent(s: State, s': State)
    requires s'.readers == s.readers && s'.oneShots == s.oneShots && s'.log == s.log && s'.childKeys == s.childKeys
    requires s.keys <= s'.keys && s'.parent.algorithm == s.parent.algorithm
    ensures Quiet(s, s')
  {
  }

  /** What a quiet step of a reader looks like. */
  ghost predicate ReaderOnly(s: State, s': State, i: nat) {
    && i in s.readers && i in s'.readers && s'.readers == s.readers[i := s'.readers[i]]
    && s'.readers[i].keysMade == s.readers[i].keysMade
    && (s'.readers[i].conn.child == s.readers[i].conn.child || s'.readers[i].conn.child == None)
    && s'.parent == s.parent && s'.keys == s.keys && s'.oneShots == s.oneShots && s'.log == s.log
    && s'.childKeys == s.childKeys
  }

  lemma PhaseActionIsQuiet(p: Primitives, s: State, a: Action)
    requires Inv(p, s) && Enabled(s, a) && (a.Start? || a.ObserveEpoch? || a.TakeLock? || a.SnapshotEpoch?)
    ensures ReaderOnly(s, Next(p, s, a), a.i)
  {
    hide Inv, NeedsRefresh;
  }

  lemma CloseIsQuiet(p: Primitives, s: State, i: nat)
    requires Inv(p, s) && Enabled(s, CloseReader(i))
    ensures ReaderOnly(s, Next(p, s, CloseReader(i)), i)
  {
    hide Inv;
  }

  lemma QuietReaderActions(p: Primitives, s: State, a: Action)
    requires Inv(p, s) && Enabled(s, a)
    requires a.Start? || a.ObserveEpoch? || a.TakeLock? || a.SnapshotEpoch? || a.CloseReader?
    ensures Quiet(s, Next(p, s, a))
  {
    hide Inv, Next, Enabled, Quiet;
    if a.CloseReader? {
      CloseIsQuiet(p, s, a.i);
    } else {
      PhaseActionIsQuiet(p, s, a);
    }
    QuietReader(s, Next(p, s, a), a.i);
  }

  lemma QuietParentActions(p: Primitives, s: State, a: Action)
    requires Inv(p, s) && Enabled(s, a)
    requires || a.BeginReseed? || a.InstallKey? || a.PublishEpoch? || a.ReturnReseed? || a.NoteReseedFailure?
             || a.CloseParent?
    ensures Quiet(s, Next(p, s, a))
  {
    hide ReadersInv, OneShotsInv, LogInv, ServedInv, RetiredInv, Quiet;
    QuietParent(s, Next(p, s, a));
  }

  lemma OpenIsQuiet(p: Primitives, s: State, i: nat)
    requires Inv(p, s) && Enabled(s, Open(i))
    ensures Quiet(s, Next(p, s, Open(i)))
  {
    hide Inv;
  }

  lemma DirectReadStreams(p: Primitives, s: State, n: nat)
    requires Inv(p, s) && StreamsInv(p, s) && Enabled(s, DirectRead(n))
    ensures StreamsInv(p, Next(p, s, DirectRead(n)))
  {
    hide ReadersInv, OneShotsInv, LogInv, ServedInv, RetiredInv, LogBytes, KeysDerived, KeysInUse;
    var s' := Next(p, s, DirectRead(n));
    ReadBytes(p, s.parent, n);
    if s' != s {
      HandOut(p, s, s', s'.log[|s.log|]);
    }
  }

  /** A seed that was drawn, or refused. */
  lemma DrawIs(p: Primitives, s: State, i: nat)
    requires Inv(p, s) && Enabled(s, DrawSeed(i))
    ensures |s.keys| > 0
    ensures var s' := Next(p, s, DrawSeed(i));
            && KeysGrow(s, s') && SameKeys(s, s')
            && (s'.log == s.log
                || (&& |s'.log| == |s.log| + 1 && s'.log == s.log + [s'.log[|s.log|]]
                    && s'.keys == s.keys
                    && var r := s'.log[|s.log|];
                       && r.owner == Root && r.generation == |s.keys| - 1 && |r.purpose.bytes| == r.length
                       && forall j :: 0 <= j < r.length ==>
                            r.purpose.bytes[j]
                            == p.keystream(s'.parent.algorithm, s'.keys[r.generation].key, s'.keys[r.generation].nonce,
                                           r.start + j)))
  {
    hide ReadersInv, OneShotsInv, LogInv, ServedInv, RetiredInv;
    ReadBytes(p, s.parent, SEED_BYTES);
  }

  lemma DrawSeedStreams(p: Primitives, s: State, i: nat)
    requires Inv(p, s) && StreamsInv(p, s) && Enabled(s, DrawSeed(i))
    ensures StreamsInv(p, Next(p, s, DrawSeed(i)))
  {
    hide Next, Inv, Enabled, StreamsInv, KeysGrow, SameKeys, RangeBytes;
    DrawIs(p, s, i);
    var s' := Next(p, s, DrawSeed(i));
    if s'.log == s.log {
      QuietStep(p, s, s');
    } else {
      RootRange(p, s', s'.log[|s.log|]);
      HandOut(p, s, s', s'.log[|s.log|]);
    }
  }

  lemma ServeStreams(p: Primitives, s: State, i: nat)
    requires Inv(p, s) && StreamsInv(p, s) && Enabled(s, Serve(i))
    ensures StreamsInv(p, Next(p, s, Serve(i)))
  {
    ServeHandsOut(p, s, i);
    hide Next, Inv, Enabled, StreamsInv, KeysGrow, SameKeys, RangeBytes;
    var s' := Next(p, s, Serve(i));
    HandOut(p, s, s', s'.log[|s.log|]);
  }

  /** What a served read does, down to its bytes. */
  lemma ServeIs(p: Primitives, s: State, i: nat)
    requires Inv(p, s) && Enabled(s, Serve(i))
    ensures i in s.readers && s.readers[i].phase.Serving?
    ensures var r, s' := s.readers[i], Next(p, s, Serve(i));
            && r.conn.child.Some? && r.keysMade > 0
            && |s'.log| == |s.log| + 1 && s'.log == s.log + [s'.log[|s.log|]]
            && s' == s.(readers := s'.readers, log := s'.log, served := s'.served)
            && i in s'.readers && s'.readers == s.readers[i := s'.readers[i]]
            && s'.readers[i].keysMade == r.keysMade && s'.readers[i].conn.child.Some?
            && (var child, bytes := r.conn.child.value, s'.log[|s.log|].purpose.bytes;
                && SameKey(child, s'.readers[i].conn.child.value)
                && s'.log[|s.log|]
                   == Range(Reader(i), r.keysMade - 1, child.generated, r.phase.n, Output(bytes))
                && |bytes| == r.phase.n
                && forall j :: 0 <= j < r.phase.n ==>
                     bytes[j] == p.keystream(s.parent.algorithm, child.key, child.nonce, child.generated + j))
  {
    hide ReadersInv, OneShotsInv, LogInv, ServedInv, RetiredInv, ParentInv, Genuine, Keystream;
    AboutReader(p, s, i);
    ReadBytes(p, s.readers[i].conn.child.value, s.readers[i].phase.n);
  }

  lemma ServeHandsOut(p: Primitives, s: State, i: nat)
    requires Inv(p, s) && KeysInUse(s) && Enabled(s, Serve(i))
    ensures var s' := Next(p, s, Serve(i));
            && |s'.log| == |s.log| + 1 && s'.log == s.log + [s'.log[|s.log|]]
            && KeysGrow(s, s') && SameKeys(s, s') && RangeBytes(p, s', s'.log[|s.log|])
  {
    hide Next, Inv, Enabled, KeysInUse;
    ServeIs(p, s, i);
    AboutReaderKey(s, i);
  }

  lemma AboutReaderKey(s: State, i: nat)
    requires KeysInUse(s) && i in s.readers
    ensures ReaderKey(s, i)
  {
  }

  lemma ReadOneShotStreams(p: Primitives, s: State, i: nat, n: nat)
    requires Inv(p, s) && StreamsInv(p, s) && Enabled(s, ReadOneShot(i, n))
    ensures StreamsInv(p, Next(p, s, ReadOneShot(i, n)))
  {
    var s' := Next(p, s, ReadOneShot(i, n));
    if s' != s {
      OneShotHandsOut(p, s, i, n);
      hide Next, Inv, Enabled, StreamsInv, KeysGrow, SameKeys, RangeBytes;
      HandOut(p, s, s', s'.log[|s.log|]);
    }
  }

  /** What a one-shot child's read does when it is not refused, down to its bytes. */
  lemma OneShotReadIs(p: Primitives, s: State, i: nat, n: nat)
    requires Inv(p, s) && Enabled(s, ReadOneShot(i, n)) && Next(p, s, ReadOneShot(i, n)) != s
    ensures i in s.oneShots
    ensures var s', child := Next(p, s, ReadOneShot(i, n)), s.oneShots[i].child;
            && |s'.log| == |s.log| + 1 && s'.log == s.log + [s'.log[|s.log|]]
            && s' == s.(oneShots := s'.oneShots, log := s'.log)
            && i in s'.oneShots && s'.oneShots == s.oneShots[i := s'.oneShots[i]]
            && SameKey(child, s'.oneShots[i].child)
            && (var bytes := s'.log[|s.log|].purpose.bytes;
                && s'.log[|s.log|] == Range(OneShot(i), 0, child.generated, n, Output(bytes))
                && |bytes| == n
                && forall j :: 0 <= j < n ==>
                     bytes[j] == p.keystream(s.parent.algorithm, child.key, child.nonce, child.generated + j))
  {
    hide ReadersInv, LogInv, ServedInv, RetiredInv, ParentInv, Genuine;
    assert OneShotInv(p, s, i, s.oneShots[i]);
    ReadBytes(p, s.oneShots[i].child, n);
    hide Read, Sound, OneShotsInv, OneShotInv;
  }

  lemma OneShotHandsOut(p: Primitives, s: State, i: nat, n: nat)
    requires Inv(p, s) && KeysInUse(s) && Enabled(s, ReadOneShot(i, n)) && Next(p, s, ReadOneShot(i, n)) != s
    ensures var s' := Next(p, s, ReadOneShot(i, n));
            && |s'.log| == |s.log| + 1 && s'.log == s.log + [s'.log[|s.log|]]
            && KeysGrow(s, s') && SameKeys(s, s') && RangeBytes(p, s', s'.log[|s.log|])
  {
    hide Next, Inv, Enabled;
    OneShotReadIs(p, s, i, n);
    assert OneShotKey(s, i);
    hide KeysInUse;
  }

  lemma RekeyStreams(p: Primitives, s: State, i: nat)
    requires Inv(p, s) && StreamsInv(p, s) && Enabled(s, RekeyChild(i))
    ensures StreamsInv(p, Next(p, s, RekeyChild(i)))
  {
    var s' := Next(p, s, RekeyChild(i));
    RekeyedKey(p, s, i);
    var id := StreamId(Reader(i), s.readers[i].keysMade);
    NewName(s, id);
    KeysInUseAtRekey(p, s, i);
    hide Next, Inv, Enabled, LogBytes, KeysDerived, KeysInUse, DerivedKey;
    LogBytesStay(p, s, s');
    KeysDerivedExtend(p, s, s', id);
  }

  lemma NewName(s: State, id: StreamId)
    requires KeysInUse(s)
    requires match id.owner
             case Root => false
             case Reader(i) => i !in s.readers || id.generation >= s.readers[i].keysMade
             case OneShot(i) => i !in s.oneShots
    ensures id !in s.childKeys
  {
    assert id == StreamId(id.owner, id.generation);
  }

  /** What the refresh of a child does to the named keys. */
  lemma RekeyIs(p: Primitives, s: State, i: nat)
    requires Inv(p, s) && Enabled(s, RekeyChild(i))
    ensures i in s.readers && s.readers[i].phase.Fetched?
    ensures var r, s' := s.readers[i], Next(p, s, RekeyChild(i));
            var prior := if r.conn.child.Some? then r.conn.child.value.key else [];
            var h := p.sha512(prior + r.phase.seed.bytes);
            && s'.parent == s.parent && s'.keys == s.keys && s'.log == s.log && s'.oneShots == s.oneShots
            && s'.childKeys
               == s.childKeys[StreamId(Reader(i), r.keysMade) := ChildKey(Keys(h[..32], h[32..48]), r.phase.seed.entry)]
            && i in s'.readers && s'.readers == s.readers[i := s'.readers[i]]
            && s'.readers[i].keysMade == r.keysMade + 1 && s'.readers[i].conn.child.Some?
            && Keys(s'.readers[i].conn.child.value.key, s'.readers[i].conn.child.value.nonce)
               == Keys(h[..32], h[32..48])
  {
    hide ReadersInv, OneShotsInv, LogInv, ServedInv, RetiredInv;
    AboutReader(p, s, i);
  }

  lemma RekeyedKey(p: Primitives, s: State, i: nat)
    requires Inv(p, s) && StreamsInv(p, s) && Enabled(s, RekeyChild(i))
    ensures i in s.readers
    ensures var s', id := Next(p, s, RekeyChild(i)), StreamId(Reader(i), s.readers[i].keysMade);
            && s'.childKeys.Keys == s.childKeys.Keys + {id}
            && KeysGrow(s, s') && s'.log == s.log && DerivedKey(p, s', id)
  {
    hide LogBytes, KeysDerived, LogInv, ServedInv, RetiredInv, OneShotsInv, Next;
    AboutReader(p, s, i);
    AboutReaderKey(s, i);
    var r, id := s.readers[i], StreamId(Reader(i), s.readers[i].keysMade);
    NewName(s, id);
    assert r.keysMade > 0 ==> StreamId(Reader(i), r.keysMade - 1) in s.childKeys;
    var prior := if r.conn.child.Some? then r.conn.child.value.key else [];
    assert Prior(s, id) == prior;
    assert r.conn.child.Some? || r.keysMade == 0;
    var seed := r.phase.seed;
    assert s.log[seed.entry] == Range(Root, seed.generation, seed.position, SEED_BYTES,
                                      SeedFor(Reader(i), r.keysMade, seed.bytes));
    hide Inv, ConnInv, PhaseInv, KeysInUse, Genuine, Sound;
    RekeyIs(p, s, i);
    var s' := Next(p, s, RekeyChild(i));
    assert Prior(s', id) == prior;
  }

  /** A reader's child comes into use under the key that was just named. */
  lemma ReaderKeyTurns(s: State, s': State, i: nat, c: ChildKey)
    requires KeysInUse(s) && i in s.readers && i in s'.readers && s'.readers == s.readers[i := s'.readers[i]]
    requires s'.oneShots == s.oneShots && s'.keys == s.keys
    requires s'.childKeys == s.childKeys[StreamId(Reader(i), s.readers[i].keysMade) := c]
    requires s'.readers[i].keysMade == s.readers[i].keysMade + 1 && s'.readers[i].conn.child.Some?
    requires Keys(s'.readers[i].conn.child.value.key, s'.readers[i].conn.child.value.nonce) == c.keys
    ensures KeysInUse(s')
  {
    forall j | j in s'.readers ensures ReaderKey(s', j) {
      assert j in s.readers && ReaderKey(s, j);
    }
    forall j | j in s'.oneShots ensures OneShotKey(s', j) {
      assert OneShotKey(s, j);
    }
  }

  /** A one-shot child comes into use under the key that was just named. */
  lemma OneShotKeyStarts(s: State, s': State, i: nat, c: ChildKey)
    requires KeysInUse(s) && i !in s.oneShots && i in s'.oneShots && s'.oneShots == s.oneShots[i := s'.oneShots[i]]
    requires s'.readers == s.readers && s'.keys == s.keys
    requires s'.childKeys == s.childKeys[StreamId(OneShot(i), 0) := c]
    requires Keys(s'.oneShots[i].child.key, s'.oneShots[i].child.nonce) == c.keys
    ensures KeysInUse(s')
  {
    forall j | j in s'.readers ensures ReaderKey(s', j) {
      assert j in s.readers && ReaderKey(s, j);
    }
    forall j | j in s'.oneShots ensures OneShotKey(s', j) {
      assert j != i ==> OneShotKey(s, j);
    }
  }

  lemma KeysInUseAtRekey(p: Primitives, s: State, i: nat)
    requires Inv(p, s) && KeysInUse(s) && Enabled(s, RekeyChild(i))
    ensures KeysInUse(Next(p, s, RekeyChild(i)))
  {
    hide Inv, Next, Enabled, KeysInUse;
    RekeyIs(p, s, i);
    var s' := Next(p, s, RekeyChild(i));
    ReaderKeyTurns(s, s', i, s'.childKeys[StreamId(Reader(i), s.readers[i].keysMade)]);
  }

  lemma SpawnStreams(p: Primitives, s: State, i: nat)
    requires Inv(p, s) && StreamsInv(p, s) && Enabled(s, SpawnOneShot(i))
    ensures StreamsInv(p, Next(p, s, SpawnOneShot(i)))
  {
    var s' := Next(p, s, SpawnOneShot(i));
    if s' != s {
      SpawnedKey(p, s, i);
      KeysInUseAtSpawn(p, s, i);
      hide Next, Inv, Enabled, LogBytes, KeysDerived, KeysInUse, DerivedKey, RangeBytes;
      LogBytesExtend(p, s, s', s'.log[|s.log|]);
      KeysDerivedExtend(p, s, s', StreamId(OneShot(i), 0));
    }
  }

  /** What making a one-shot child does. */
  lemma SpawnIs(p: Primitives, s: State, i: nat)
    requires Inv(p, s) && Enabled(s, SpawnOneShot(i)) && Next(p, s, SpawnOneShot(i)) != s
    ensures i !in s.oneShots && |s.keys| > 0 && s.keys[|s.keys| - 1] == Keys(s.parent.key, s.parent.nonce)
    ensures var s' := Next(p, s, SpawnOneShot(i));
            && |s'.log| == |s.log| + 1 && s'.log == s.log + [s'.log[|s.log|]]
            && var r := s'.log[|s.log|];
               var h := p.sha512(r.purpose.bytes);
               && r == Range(Root, |s.keys| - 1, s.parent.generated, SEED_BYTES,
                             SeedFor(OneShot(i), 0, r.purpose.bytes))
               && |r.purpose.bytes| == SEED_BYTES
               && (forall j :: 0 <= j < SEED_BYTES ==>
                     r.purpose.bytes[j]
                     == p.keystream(s.parent.algorithm, s.parent.key, s.parent.nonce, s.parent.generated + j))
               && s'.childKeys == s.childKeys[StreamId(OneShot(i), 0) := ChildKey(Keys(h[..32], h[32..48]), |s.log|)]
               && s'.keys == s.keys && s'.parent.algorithm == s.parent.algorithm && s'.readers == s.readers
               && i in s'.oneShots && s'.oneShots == s.oneShots[i := s'.oneShots[i]]
               && Keys(s'.oneShots[i].child.key, s'.oneShots[i].child.nonce) == Keys(h[..32], h[32..48])
  {
    hide ReadersInv, OneShotsInv, LogInv, ServedInv, RetiredInv;
    ReadBytes(p, s.parent, SEED_BYTES);
    KeysAreDigests(p, s.parent, Read(p, s.parent, SEED_BYTES).0.value, s.parent.algorithm);
    hide Read, Create;
  }

  lemma SpawnedKey(p: Primitives, s: State, i: nat)
    requires Inv(p, s) && StreamsInv(p, s) && Enabled(s, SpawnOneShot(i)) && Next(p, s, SpawnOneShot(i)) != s
    ensures var s', id := Next(p, s, SpawnOneShot(i)), StreamId(OneShot(i), 0);
            && s'.childKeys.Keys == s.childKeys.Keys + {id}
            && |s'.log| == |s.log| + 1 && s'.log == s.log + [s'.log[|s.log|]]
            && KeysGrow(s, s') && RangeBytes(p, s', s'.log[|s.log|]) && DerivedKey(p, s', id)
  {
    hide Next, Inv, Enabled, LogBytes, KeysDerived, KeysInUse, RangeBytes, DerivedKey;
    SpawnIs(p, s, i);
    NewName(s, StreamId(OneShot(i), 0));
    var s' := Next(p, s, SpawnOneShot(i));
    RootRange(p, s', s'.log[|s.log|]);
    OneShotDerived(p, s', i);
  }

  /** A range of the parent's current key. */
  lemma RootRange(p: Primitives, s: State, r: Range<Instance, Purpose>)
    requires r.owner == Root && r.generation < |s.keys| && |r.purpose.bytes| == r.length
    requires forall j :: 0 <= j < r.length ==>
               r.purpose.bytes[j]
               == p.keystream(s.parent.algorithm, s.keys[r.generation].key, s.keys[r.generation].nonce, r.start + j)
    ensures RangeBytes(p, s, r)
  {
  }

  lemma OneShotDerived(p: Primitives, s: State, i: nat)
    requires StreamId(OneShot(i), 0) in s.childKeys && s.childKeys[StreamId(OneShot(i), 0)].entry < |s.log|
    requires var c := s.childKeys[StreamId(OneShot(i), 0)];
             var r := s.log[c.entry];
             && r == Range(Root, r.generation, r.start, SEED_BYTES, SeedFor(OneShot(i), 0, r.purpose.bytes))
             && c.keys == Keys(p.sha512(r.purpose.bytes)[..32], p.sha512(r.purpose.bytes)[32..48])
    ensures DerivedKey(p, s, StreamId(OneShot(i), 0))
  {
    var bytes := s.log[s.childKeys[StreamId(OneShot(i), 0)].entry].purpose.bytes;
    assert Prior(s, StreamId(OneShot(i), 0)) + bytes == bytes;
  }

  lemma KeysInUseAtSpawn(p: Primitives, s: State, i: nat)
    requires Inv(p, s) && KeysInUse(s) && Enabled(s, SpawnOneShot(i)) && Next(p, s, SpawnOneShot(i)) != s
    ensures KeysInUse(Next(p, s, SpawnOneShot(i)))
  {
    hide Inv, Next, Enabled, KeysInUse;
    SpawnIs(p, s, i);
    var s' := Next(p, s, SpawnOneShot(i));
    OneShotKeyStarts(s, s', i, s'.childKeys[StreamId(OneShot(i), 0)]);
  }

  lemma QuietReaderStep(p: Primitives, s: State, a: Action)
    requires Inv(p, s) && StreamsInv(p, s) && Enabled(s, a)
    requires a.Start? || a.ObserveEpoch? || a.TakeLock? || a.SnapshotEpoch? || a.CloseReader?
    ensures StreamsInv(p, Next(p, s, a))
  {
    hide Inv, Next, Enabled, StreamsInv, Quiet;
    QuietReaderActions(p, s, a);
    QuietStep(p, s, Next(p, s, a));
  }

  lemma StepKeepsStreams(p: Primitives, s: State, a: Action)
    requires Inv(p, s) && StreamsInv(p, s) && Enabled(s, a)
    ensures StreamsInv(p, Next(p, s, a))
  {
    hide *;
    match a
    case DirectRead(n) => DirectReadStreams(p, s, n);
    case DrawSeed(i) => DrawSeedStreams(p, s, i);
    case Serve(i) => ServeStreams(p, s, i);
    case ReadOneShot(i, n) => ReadOneShotStreams(p, s, i, n);
    case RekeyChild(i) => RekeyStreams(p, s, i);
    case SpawnOneShot(i) => SpawnStreams(p, s, i);
    case Open(i) =>
      OpenIsQuiet(p, s, i);
      QuietStep(p, s, Next(p, s, a));
    case Start(_, _) => QuietReaderStep(p, s, a);
    case ObserveEpoch(_) => QuietReaderStep(p, s, a);
    case TakeLock(_) => QuietReaderStep(p, s, a);
    case SnapshotEpoch(_) => QuietReaderStep(p, s, a);
    case CloseReader(_) => QuietReaderStep(p, s, a);
    case _ =>
      QuietParentActions(p, s, a);
      QuietStep(p, s, Next(p, s, a));
  }

  lemma {:induction false} RunKeepsStreams(p: Primitives, seed: seq<byte>, algorithm: string, actions: seq<Action>)
    requires Create(p, seed, algorithm).Ok?
    ensures StreamsInv(p, Reached(p, seed, algorithm, actions))
  {
    hide Inv, Next, Enabled, LogBytes, KeysDerived;
    if actions == [] {
      NoLog(p, Reached(p, seed, algorithm, actions));
    } else {
      var a := actions[|actions| - 1];
      var before := Reached(p, seed, algorithm, actions[..|actions| - 1]);
      RunKeepsStreams(p, seed, algorithm, actions[..|actions| - 1]);
      if Enabled(before, a) {
        StepKeepsStreams(p, before, a);
      }
    }
  }

  lemma NoLog(p: Primitives, s: State)
    requires s.log == [] && s.childKeys == map[]
    ensures LogBytes(p, s) && KeysDerived(p, s)
  {
  }

  // ---------------------------------------------------------------- what every run keeps

  /** Keys, once there, stay: every step only adds keys. */
  lemma KeysNeverChange(p: Primitives, s: State, a: Action)
    requires Inv(p, s) && StreamsInv(p, s) && Enabled(s, a)
    ensures KeysGrow(s, Next(p, s, a))
  {
    hide *;
    NamesAreUsed(p, s);
    match a
    case RekeyChild(i) => RekeyedKey(p, s, i);
    case SpawnOneShot(i) => if Next(p, s, a) == s { SameKeysGrow(s); } else { SpawnedKey(p, s, i); }
    case Serve(i) => ServeHandsOut(p, s, i);
    case ReadOneShot(i, n) => if Next(p, s, a) == s { SameKeysGrow(s); } else { OneShotHandsOut(p, s, i, n); }
    case DirectRead(_) => RootReadsKeepKeys(p, s, a);
    case DrawSeed(_) => RootReadsKeepKeys(p, s, a);
    case Open(i) => OpenIsQuiet(p, s, i); QuietGrows(s, Next(p, s, a));
    case Start(_, _) => QuietReaderActions(p, s, a); QuietGrows(s, Next(p, s, a));
    case ObserveEpoch(_) => QuietReaderActions(p, s, a); QuietGrows(s, Next(p, s, a));
    case TakeLock(_) => QuietReaderActions(p, s, a); QuietGrows(s, Next(p, s, a));
    case SnapshotEpoch(_) => QuietReaderActions(p, s, a); QuietGrows(s, Next(p, s, a));
    case CloseReader(_) => QuietReaderActions(p, s, a); QuietGrows(s, Next(p, s, a));
    case _ => QuietParentActions(p, s, a); QuietGrows(s, Next(p, s, a));
  }

  lemma NamesAreUsed(p: Primitives, s: State)
    requires StreamsInv(p, s)
    ensures KeysInUse(s)
  {
  }

  lemma SameKeysGrow(s: State)
    ensures KeysGrow(s, s)
  {
  }

  lemma QuietGrows(s: State, s': State)
    requires Quiet(s, s')
    ensures KeysGrow(s, s')
  {
  }

  lemma RootReadsKeepKeys(p: Primitives, s: State, a: Action)
    requires Inv(p, s) && Enabled(s, a) && (a.DirectRead? || a.DrawSeed?)
    ensures KeysGrow(s, Next(p, s, a))
  {
    hide ReadersInv, OneShotsInv, LogInv, ServedInv, RetiredInv, Keystream;
  }

  /** A key that has been named keeps its value and its entry through any further interleaving. */
  lemma {:induction false} KeysStay(p: Primitives, s: State, actions: seq<Action>)
    requires Inv(p, s) && StreamsInv(p, s)
    ensures StreamsInv(p, Execute(p, s, actions)) && KeysGrow(s, Execute(p, s, actions))
  {
    hide Inv, Next, Enabled, StreamsInv;
    if actions != [] {
      var a := actions[|actions| - 1];
      var before := Execute(p, s, actions[..|actions| - 1]);
      KeysStay(p, s, actions[..|actions| - 1]);
      if Enabled(before, a) {
        KeysNeverChange(p, before, a);
        StepKeepsStreams(p, before, a);
      }
    }
  }

  lemma FirstStreams(p: Primitives, seed: seq<byte>, algorithm: string)
    requires Create(p, seed, algorithm).Ok?
    ensures var s := Initial(Create(p, seed, algorithm).value);
            && Inv(p, s) && StreamsInv(p, s) && s.parent.algorithm == algorithm
            && s.keys == [Keys(p.sha512(seed)[..32], p.sha512(seed)[32..48])]
  {
    InitialInv(p, seed, algorithm);
    KeysAreDigests(p, Create(p, seed, algorithm).value, seed, algorithm);
  }

  lemma AboutRun(p: Primitives, seed: seq<byte>, algorithm: string, actions: seq<Action>)
    requires Create(p, seed, algorithm).Ok?
    ensures var s := Reached(p, seed, algorithm, actions);
            && Inv(p, s) && StreamsInv(p, s) && s.parent.algorithm == algorithm
            && |s.keys| > 0 && s.keys[0] == Keys(p.sha512(seed)[..32], p.sha512(seed)[32..48])
  {
    hide Inv, StreamsInv;
    FirstStreams(p, seed, algorithm);
    KeysStay(p, Initial(Create(p, seed, algorithm).value), actions);
  }

  /**
   Every byte handed out in a run, to a caller or as part of a seed, is the byte of its key's
   stream at the ledger's position.
   */
  lemma BytesAreTheStreams(p: Primitives, seed: seq<byte>, algorithm: string, actions: seq<Action>, i: nat, j: nat)
    requires Create(p, seed, algorithm).Ok?
    requires var log := Reached(p, seed, algorithm, actions).log; i < |log| && j < log[i].length
    ensures var s := Reached(p, seed, algorithm, actions);
            var r := s.log[i];
            var id := StreamId(r.owner, r.generation);
            && |r.purpose.bytes| == r.length
            && (if r.owner == Root then r.generation < |s.keys| else id in s.childKeys)
            && var k := if r.owner == Root then s.keys[r.generation] else s.childKeys[id].keys;
               r.purpose.bytes[j] == p.keystream(algorithm, k.key, k.nonce, r.start + j)
  {
    hide *;
    AboutRun(p, seed, algorithm, actions);
    RangeIs(p, Reached(p, seed, algorithm, actions), i, j);
  }

  lemma RangeIs(p: Primitives, s: State, i: nat, j: nat)
    requires StreamsInv(p, s) && i < |s.log| && j < s.log[i].length
    ensures var r := s.log[i];
            var id := StreamId(r.owner, r.generation);
            && |r.purpose.bytes| == r.length
            && (if r.owner == Root then r.generation < |s.keys| else id in s.childKeys)
            && var k := if r.owner == Root then s.keys[r.generation] else s.childKeys[id].keys;
               r.purpose.bytes[j] == p.keystream(s.parent.algorithm, k.key, k.nonce, r.start + j)
  {
    hide KeysDerived, KeysInUse;
    assert RangeBytes(p, s, s.log[i]);
  }

  /**
   Every key a child ever had is the digest of 64 bytes, behind its previous key if it had one;
   those bytes are a stretch of one parent key's stream, handed out for that child and key.
   */
  lemma ChildKeysAreDerived(p: Primitives, seed: seq<byte>, algorithm: string, actions: seq<Action>, id: StreamId)
    requires Create(p, seed, algorithm).Ok?
    requires id in Reached(p, seed, algorithm, actions).childKeys
    ensures var s := Reached(p, seed, algorithm, actions);
            var c := s.childKeys[id];
            && c.entry < |s.log|
            && (id.generation > 0 ==> StreamId(id.owner, id.generation - 1) in s.childKeys)
            && var r := s.log[c.entry];
               var bytes := r.purpose.bytes;
               var prior := if id.generation == 0 then []
                            else s.childKeys[StreamId(id.owner, id.generation - 1)].keys.key;
               && r == Range(Root, r.generation, r.start, 64, SeedFor(id.owner, id.generation, bytes))
               && |bytes| == 64 && r.generation < |s.keys|
               && (forall j :: 0 <= j < 64 ==>
                     bytes[j] == p.keystream(algorithm, s.keys[r.generation].key, s.keys[r.generation].nonce,
                                             r.start + j))
               && c.keys.key == p.sha512(prior + bytes)[..32] && c.keys.nonce == p.sha512(prior + bytes)[32..48]
  {
    hide *;
    AboutRun(p, seed, algorithm, actions);
    NamedIsDerived(p, Reached(p, seed, algorithm, actions), id);
    DerivedIs(p, Reached(p, seed, algorithm, actions), id);
  }

  lemma DerivedIs(p: Primitives, s: State, id: StreamId)
    requires DerivedKey(p, s, id)
    requires s.childKeys[id].entry < |s.log| && RangeBytes(p, s, s.log[s.childKeys[id].entry])
    ensures var c := s.childKeys[id];
            && c.entry < |s.log|
            && (id.generation > 0 ==> StreamId(id.owner, id.generation - 1) in s.childKeys)
            && var r := s.log[c.entry];
               var bytes := r.purpose.bytes;
               var prior := if id.generation == 0 then []
                            else s.childKeys[StreamId(id.owner, id.generation - 1)].keys.key;
               && r == Range(Root, r.generation, r.start, 64, SeedFor(id.owner, id.generation, bytes))
               && |bytes| == 64 && r.generation < |s.keys|
               && (forall j :: 0 <= j < 64 ==>
                     bytes[j] == p.keystream(s.parent.algorithm, s.keys[r.generation].key, s.keys[r.generation].nonce,
                                             r.start + j))
               && c.keys.key == p.sha512(prior + bytes)[..32] && c.keys.nonce == p.sha512(prior + bytes)[32..48]
  {
  }

  lemma NamedIsDerived(p: Primitives, s: State, id: StreamId)
    requires StreamsInv(p, s) && id in s.childKeys
    ensures DerivedKey(p, s, id) && s.childKeys[id].entry < |s.log| && RangeBytes(p, s, s.log[s.childKeys[id].entry])
  {
  }

  /** No two keys of any children, at any time, come from overlapping stretches of the parent's stream. */
  lemma SeedsServeOneKey(p: Primitives, seed: seq<byte>, algorithm: string, actions: seq<Action>,
                         a: StreamId, b: StreamId)
    requires Create(p, seed, algorithm).Ok? && a != b
    requires var named := Reached(p, seed, algorithm, actions).childKeys; a in named && b in named
    ensures var s := Reached(p, seed, algorithm, actions);
            && s.childKeys[a].entry < |s.log| && s.childKeys[b].entry < |s.log|
            && var x, y := s.log[s.childKeys[a].entry], s.log[s.childKeys[b].entry];
               || x.generation != y.generation
               || x.start + 64 <= y.start
               || y.start + 64 <= x.start
  {
    ChildKeysAreDerived(p, seed, algorithm, actions, a);
    ChildKeysAreDerived(p, seed, algorithm, actions, b);
    var s := Reached(p, seed, algorithm, actions);
    hide Reached, Keystream;
    SeedsNeverOverlap(p, seed, algorithm, actions, s.childKeys[a].entry, s.childKeys[b].entry);
  }

  /**
   The keys in use are the named ones: the parent's the last of its keys, a reader's child the
   last key made for it, a one-shot child the digest of the 64 bytes it was made from.
   */
  lemma KeysInUseAreNamed(p: Primitives, seed: seq<byte>, algorithm: string, actions: seq<Action>, i: nat)
    requires Create(p, seed, algorithm).Ok?
    ensures var s := Reached(p, seed, algorithm, actions);
            && |s.keys| > 0
            && (!s.parent.closed ==> s.keys[|s.keys| - 1] == Keys(s.parent.key, s.parent.nonce))
            && (i in s.readers && s.readers[i].conn.child.Some? ==>
                  var r := s.readers[i];
                  && r.keysMade > 0 && StreamId(Reader(i), r.keysMade - 1) in s.childKeys
                  && s.childKeys[StreamId(Reader(i), r.keysMade - 1)].keys
                     == Keys(r.conn.child.value.key, r.conn.child.value.nonce))
            && (i in s.oneShots ==>
                  var o := s.oneShots[i];
                  && StreamId(OneShot(i), 0) in s.childKeys
                  && s.childKeys[StreamId(OneShot(i), 0)].keys == Keys(o.child.key, o.child.nonce)
                  && |o.seed.bytes| == 64
                  && o.child.key == p.sha512(o.seed.bytes)[..32] && o.child.nonce == p.sha512(o.seed.bytes)[32..48])
  {
    hide *;
    AboutRun(p, seed, algorithm, actions);
    var s := Reached(p, seed, algorithm, actions);
    ParentKeyIs(p, s);
    if i in s.readers && s.readers[i].conn.child.Some? {
      ReaderKeyIs(p, s, i);
    }
    if i in s.oneShots {
      OneShotKeyIs(p, s, i);
    }
  }

  lemma ParentKeyIs(p: Primitives, s: State)
    requires Inv(p, s)
    ensures |s.keys| > 0 && (!s.parent.closed ==> s.keys[|s.keys| - 1] == Keys(s.parent.key, s.parent.nonce))
  {
    hide ReadersInv, OneShotsInv, LogInv, ServedInv, RetiredInv;
  }

  lemma ReaderKeyIs(p: Primitives, s: State, i: nat)
    requires Inv(p, s) && StreamsInv(p, s) && i in s.readers && s.readers[i].conn.child.Some?
    ensures var r := s.readers[i];
            && r.keysMade > 0 && StreamId(Reader(i), r.keysMade - 1) in s.childKeys
            && s.childKeys[StreamId(Reader(i), r.keysMade - 1)].keys
               == Keys(r.conn.child.value.key, r.conn.child.value.nonce)
  {
    hide Genuine, Sound, PhaseInv, OneShotsInv, LogInv, ServedInv, RetiredInv, LogBytes, KeysDerived;
    AboutReader(p, s, i);
    AboutReaderKey(s, i);
  }

  lemma OneShotKeyIs(p: Primitives, s: State, i: nat)
    requires Inv(p, s) && StreamsInv(p, s) && i in s.oneShots
    ensures var o := s.oneShots[i];
            && StreamId(OneShot(i), 0) in s.childKeys
            && s.childKeys[StreamId(OneShot(i), 0)].keys == Keys(o.child.key, o.child.nonce)
            && |o.seed.bytes| == 64
            && o.child.key == p.sha512(o.seed.bytes)[..32] && o.child.nonce == p.sha512(o.seed.bytes)[32..48]
  {
    hide Keystream, Sound, ReadersInv, LogInv, ServedInv, RetiredInv, LogBytes, KeysDerived;
    assert OneShotKey(s, i) && OneShotInv(p, s, i, s.oneShots[i]);
  }
}
