/**
 The parent generator shared by concurrent reseeds, direct reads, one-shot children and
 connection readers, one atomic step at a time.

 A connection read takes its own mutex, loads the parent's epoch without the parent's lock,
 and only a refresh takes that lock, to draw a seed and snapshot the epoch together. A reseed
 installs the new key and then publishes the new epoch, both under the lock, so a reader can
 observe the old epoch while the new key is already in place. A critical section that touches
 nothing but lock-protected fields is one step.

 Beside the program's own variables the state keeps history: every key the parent has had,
 which of them supplied the seed of each child, the ledger of stream ranges, and the reads served.
 */
module ReseedProtocol {
  import opened Common
  import opened Generators
  import opened Connections
  import opened Ledger

  datatype Instance = Root | Reader(id: nat) | OneShot(id: nat)

  /** What a stretch of a stream was used for: bytes for a caller, or the seed of a child's key. */
  datatype Purpose = Output(bytes: seq<byte>) | SeedFor(child: Instance, generation: nat, bytes: seq<byte>)

  /** One stream: an instance under one of its keys. */
  datatype StreamId = StreamId(owner: Instance, generation: nat)

  datatype Keys = Keys(key: seq<byte>, nonce: seq<byte>)

  /** A child's key, and the ledger entry of the seed it was made from. */
  datatype ChildKey = ChildKey(keys: Keys, entry: nat)

  datatype Stage = Entered(seed: seq<byte>) | Installed | Published
  datatype Lock = Free | HeldByReader(id: nat) | HeldByReseed(stage: Stage)

  /** A 64-byte seed and where it came from: key generation, stream position, ledger entry. */
  datatype Seed = Seed(bytes: seq<byte>, generation: nat, position: nat, entry: nat)

  /**
   Where a connection's Read has got to: between reads what the last one returned, and during one
   floor, the newest generation whose reseed had returned when it began.
   */
  datatype Phase =
    | Idle(answer: Option<Result<seq<byte>>>)
    | Started(n: nat, floor: nat)
    | NeedsSeed(n: nat, floor: nat)
    | Holding(n: nat, floor: nat)
    | Drawn(n: nat, floor: nat, seed: Seed)
    | Fetched(n: nat, floor: nat, seed: Seed, epoch: nat)
    | Serving(n: nat, floor: nat)

  datatype ReaderState = ReaderState(conn: Conn, phase: Phase, seed: Seed, prior: seq<byte>, keysMade: nat)
  datatype OneShotState = OneShotState(child: Gen, seed: Seed)

  /** A read that was served: the bytes, and which stretch under which seed they are. */
  datatype Service = Service(reader: nat, floor: nat, seed: Seed, keyIndex: nat, prior: seq<byte>, start: nat,
                             bytes: seq<byte>)
  {
    function Generation(): nat {
      seed.generation
    }
  }

  datatype State = State(
    parent: Gen,
    lock: Lock,
    keys: seq<Keys>,
    returned: nat,
    readers: map<nat, ReaderState>,
    oneShots: map<nat, OneShotState>,
    log: seq<Range<Instance, Purpose>>,
    retired: map<StreamId, nat>,
    childKeys: map<StreamId, ChildKey>,
    served: seq<Service>)

  datatype Action =
    | Open(i: nat)
    | Start(i: nat, n: nat)
    | ObserveEpoch(i: nat)
    | TakeLock(i: nat)
    | DrawSeed(i: nat)
    | SnapshotEpoch(i: nat)
    | RekeyChild(i: nat)
    | Serve(i: nat)
    | CloseReader(i: nat)
    | BeginReseed(seed: seq<byte>)
    | InstallKey
    | PublishEpoch
    | ReturnReseed
    | DirectRead(n: nat)
    | SpawnOneShot(i: nat)
    | ReadOneShot(i: nat, n: nat)
    | NoteReseedFailure(error: Error)
    | CloseParent

  const NO_SEED := Seed([], 0, 0, 0)

  function Newest(s: State): int {
    |s.keys| - 1
  }

  function SetReader(s: State, i: nat, r: ReaderState): State {
    s.(readers := s.readers[i := r])
  }

  function SetPhase(s: State, i: nat, phase: Phase): State
    requires i in s.readers
  {
    SetReader(s, i, s.readers[i].(phase := phase))
  }

  function Record(s: State, owner: Instance, generation: nat, start: nat, length: nat, purpose: Purpose): State {
    s.(log := s.log + [Range(owner, generation, start, length, purpose)])
  }

  /** A child comes into use under a key made from the seed at that ledger entry. */
  function NameKey(s: State, owner: Instance, generation: nat, child: Gen, entry: nat): State {
    s.(childKeys := s.childKeys[StreamId(owner, generation) := ChildKey(Keys(child.key, child.nonce), entry)])
  }

  /** A key goes out of use after handing out so many bytes of its stream. */
  function RetireStream(s: State, owner: Instance, generation: nat, total: nat): State {
    s.(retired := s.retired[StreamId(owner, generation) := total])
  }

  /** A reader's current key goes out of use, if it has one. */
  function RetireChild(s: State, i: nat): State
    requires i in s.readers
  {
    var r := s.readers[i];
    if r.conn.child.Some? && r.keysMade > 0
    then RetireStream(s, Reader(i), r.keysMade - 1, r.conn.child.value.generated)
    else s
  }

  // ---------------------------------------------------------------- steps

  ghost predicate Enabled(s: State, a: Action) {
    match a
    case Open(i) => i !in s.readers
    case Start(i, _) => i in s.readers && s.readers[i].phase.Idle?
    case ObserveEpoch(i) => i in s.readers && s.readers[i].phase.Started?
    case TakeLock(i) => i in s.readers && s.readers[i].phase.NeedsSeed? && s.lock.Free?
    case DrawSeed(i) => i in s.readers && s.readers[i].phase.Holding?
    case SnapshotEpoch(i) => i in s.readers && s.readers[i].phase.Drawn?
    case RekeyChild(i) => i in s.readers && s.readers[i].phase.Fetched?
    case Serve(i) => i in s.readers && s.readers[i].phase.Serving?
    case CloseReader(i) => i in s.readers && s.readers[i].phase.Idle?
    case BeginReseed(_) => s.lock.Free?
    case InstallKey => s.lock.HeldByReseed? && s.lock.stage.Entered?
    case PublishEpoch => s.lock.HeldByReseed? && s.lock.stage.Installed?
    case ReturnReseed => s.lock.HeldByReseed? && s.lock.stage.Published?
    case DirectRead(_) => s.lock.Free?
    case SpawnOneShot(i) => s.lock.Free? && i !in s.oneShots
    case ReadOneShot(i, _) => i in s.oneShots
    case NoteReseedFailure(_) => s.lock.Free?
    case CloseParent => s.lock.Free?
  }

  ghost function Next(p: Primitives, s: State, a: Action): State
    requires Inv(p, s) && Enabled(s, a)
  {
    match a
    case Open(i) => SetReader(s, i, ReaderState(Conn(None, 0, false), Idle(None), NO_SEED, [], 0))
    case Start(i, n) =>
      if s.readers[i].conn.closed then SetPhase(s, i, Idle(Some(Err(ClosedPipe))))
      else if n == 0 then SetPhase(s, i, Idle(Some(Ok([]))))
      else if n > MAX_BYTES_PER_KEY then SetPhase(s, i, Idle(Some(Err(ReadTooLong))))
      else SetPhase(s, i, Started(n, s.returned))
    case ObserveEpoch(i) => NextObserve(p, s, i)
    case TakeLock(i) =>
      SetPhase(s, i, Holding(s.readers[i].phase.n, s.readers[i].phase.floor)).(lock := HeldByReader(i))
    case DrawSeed(i) => NextDraw(p, s, i)
    case SnapshotEpoch(i) =>
      var f := s.readers[i].phase;
      SetPhase(s, i, Fetched(f.n, f.floor, f.seed, s.parent.epoch)).(lock := Free)
    case RekeyChild(i) => NextRekey(p, s, i)
    case Serve(i) => NextServe(p, s, i)
    case CloseReader(i) =>
      SetReader(RetireChild(s, i), i, s.readers[i].(conn := s.readers[i].conn.(child := None, closed := true)))
    case BeginReseed(seed) => s.(lock := HeldByReseed(Entered(seed)))
    case InstallKey => NextInstall(p, s)
    case PublishEpoch => s.(parent := s.parent.(epoch := s.parent.epoch + 1), lock := HeldByReseed(Published))
    case ReturnReseed => s.(lock := Free, returned := Newest(s))
    case DirectRead(n) =>
      var (bytes, parent) := Read(p, s.parent, n);
      if bytes.Err? then s
      else Record(s.(parent := parent), Root, Newest(s), s.parent.generated, n, Output(bytes.value))
    case SpawnOneShot(i) => NextSpawn(p, s, i)
    case ReadOneShot(i, n) =>
      var o := s.oneShots[i];
      var (bytes, child) := Read(p, o.child, n);
      if bytes.Err? then s
      else
        Record(s.(oneShots := s.oneShots[i := o.(child := child)]), OneShot(i), 0, o.child.generated, n,
               Output(bytes.value))
    case NoteReseedFailure(error) => s.(parent := NoteFailure(s.parent, error))
    case CloseParent => s.(parent := Retire(s.parent))
  }

  /** The lock-free comparison that decides whether this read refreshes. */
  ghost function NextObserve(p: Primitives, s: State, i: nat): State
    requires Inv(p, s) && Enabled(s, ObserveEpoch(i))
  {
    var r := s.readers[i];
    if NeedsRefresh(r.conn, s.parent.epoch, r.phase.n) then SetPhase(s, i, NeedsSeed(r.phase.n, r.phase.floor))
    else SetPhase(s, i, Serving(r.phase.n, r.phase.floor))
  }

  /** Draw the seed under the lock; a refusal ends the read and gives the lock back. */
  ghost function NextDraw(p: Primitives, s: State, i: nat): State
    requires Inv(p, s) && Enabled(s, DrawSeed(i))
  {
    var r := s.readers[i];
    var (bytes, parent) := Read(p, s.parent, SEED_BYTES);
    if bytes.Err? then SetPhase(s, i, Idle(Some(bytes))).(lock := Free)
    else
      var seed := Seed(bytes.value, Newest(s), s.parent.generated, |s.log|);
      Record(SetPhase(s, i, Drawn(r.phase.n, r.phase.floor, seed)).(parent := parent),
             Root, Newest(s), s.parent.generated, SEED_BYTES, SeedFor(Reader(i), r.keysMade, bytes.value))
  }

  ghost function NextRekey(p: Primitives, s: State, i: nat): State
    requires Inv(p, s) && Enabled(s, RekeyChild(i))
  {
    var r := s.readers[i];
    var f := r.phase;
    var prior := if r.conn.child.Some? then r.conn.child.value.key else [];
    var conn := Refresh(p, r.conn, s.parent.algorithm, f.seed.bytes, f.epoch);
    NameKey(SetReader(RetireChild(s, i), i, ReaderState(conn, Serving(f.n, f.floor), f.seed, prior, r.keysMade + 1)),
            Reader(i), r.keysMade, conn.child.value, f.seed.entry)
  }

  ghost function NextServe(p: Primitives, s: State, i: nat): State
    requires Inv(p, s) && Enabled(s, Serve(i))
  {
    var r := s.readers[i];
    var child := r.conn.child.value;
    var (bytes, child') := Read(p, child, r.phase.n);
    if bytes.Err? then SetPhase(s, i, Idle(Some(bytes)))
    else
      Record(SetReader(s, i, r.(conn := r.conn.(child := Some(child')), phase := Idle(Some(bytes)))),
             Reader(i), r.keysMade - 1, child.generated, r.phase.n, Output(bytes.value))
      .(served := s.served + [Service(i, r.phase.floor, r.seed, r.keysMade - 1, r.prior, child.generated, bytes.value)])
  }

  /** The key changes here, the epoch only in the next step. */
  ghost function NextInstall(p: Primitives, s: State): State
    requires Inv(p, s) && Enabled(s, InstallKey)
  {
    var (error, parent) := Rekey(p, s.parent, s.lock.stage.seed);
    if error != None then s.(lock := Free)
    else
      RetireStream(s, Root, Newest(s), s.parent.generated)
      .(parent := parent.(epoch := s.parent.epoch), keys := s.keys + [Keys(parent.key, parent.nonce)],
        lock := HeldByReseed(Installed))
  }

  ghost function NextSpawn(p: Primitives, s: State, i: nat): State
    requires Inv(p, s) && Enabled(s, SpawnOneShot(i))
  {
    var (bytes, parent) := Read(p, s.parent, SEED_BYTES);
    if bytes.Err? then s
    else
      var seed := Seed(bytes.value, Newest(s), s.parent.generated, |s.log|);
      var child := Create(p, bytes.value, s.parent.algorithm).value;
      NameKey(Record(s.(parent := parent, oneShots := s.oneShots[i := OneShotState(child, seed)]),
                     Root, Newest(s), s.parent.generated, SEED_BYTES, SeedFor(OneShot(i), 0, bytes.value)),
              OneShot(i), 0, child, |s.log|)
  }

  // ---------------------------------------------------------------- the invariant

  /** The seed is the 64 bytes at its position under the parent key of its generation, as its ledger entry says. */
  ghost predicate Genuine(p: Primitives, s: State, seed: Seed, child: Instance, generation: nat) {
    && seed.generation < |s.keys|
    && |seed.bytes| == SEED_BYTES
    && (var k := s.keys[seed.generation];
        seed.bytes == Keystream(p, Cipher(s.parent.algorithm, k.key, k.nonce, 0), seed.position, SEED_BYTES))
    && seed.entry < |s.log|
    && s.log[seed.entry]
       == Range(Root, seed.generation, seed.position, SEED_BYTES, SeedFor(child, generation, seed.bytes))
  }

  ghost predicate ParentInv(s: State) {
    && Sound(s.parent)
    && |s.keys| > 0
    && (!s.parent.closed ==> s.keys[Newest(s)] == Keys(s.parent.key, s.parent.nonce))
    && Newest(s) == s.parent.epoch + (if s.lock == HeldByReseed(Installed) then 1 else 0)
    && s.returned + (if s.lock == HeldByReseed(Published) then 1 else 0) == s.parent.epoch
    && (s.lock.HeldByReader? ==> s.lock.id in s.readers)
  }

  /** The stored epoch is the number of reseeds behind the key that produced the child's seed. */
  ghost predicate ConnInv(p: Primitives, s: State, i: nat, r: ReaderState) {
    && (r.conn.closed ==> r.conn.child == None && r.phase.Idle?)
    && r.seed.generation <= s.parent.epoch
    && (r.conn.child == None && !r.conn.closed ==> r.seed.generation == 0 && r.keysMade == 0)
    && (r.conn.child.Some? ==>
          var child := r.conn.child.value;
          && Sound(child) && !child.closed && child.algorithm == s.parent.algorithm
          && r.keysMade > 0
          && r.conn.epoch == r.seed.generation
          && Genuine(p, s, r.seed, Reader(i), r.keysMade - 1)
          && child.key == p.sha512(r.prior + r.seed.bytes)[..32]
          && child.nonce == p.sha512(r.prior + r.seed.bytes)[32..48])
  }

  ghost predicate PhaseInv(p: Primitives, s: State, i: nat, r: ReaderState) {
    && (r.phase.Holding? || r.phase.Drawn? <==> s.lock == HeldByReader(i))
    && match r.phase
       case Idle(_) => true
       case Started(n, floor) => floor <= s.returned && n <= MAX_BYTES_PER_KEY
       case NeedsSeed(n, floor) => floor <= s.returned && n <= MAX_BYTES_PER_KEY
       case Holding(n, floor) => floor <= s.returned && n <= MAX_BYTES_PER_KEY
       case Drawn(n, floor, seed) =>
         && floor <= s.returned && n <= MAX_BYTES_PER_KEY
         && seed.generation == Newest(s)
         && Genuine(p, s, seed, Reader(i), r.keysMade)
       case Fetched(n, floor, seed, epoch) =>
         && n <= MAX_BYTES_PER_KEY
         && floor <= epoch == seed.generation <= s.parent.epoch
         && r.seed.generation <= epoch
         && Genuine(p, s, seed, Reader(i), r.keysMade)
       case Serving(n, floor) =>
         && floor <= r.seed.generation
         && r.conn.child.Some? && r.conn.child.value.generated + n <= MAX_BYTES_PER_KEY
  }

  ghost predicate OneShotInv(p: Primitives, s: State, i: nat, o: OneShotState) {
    && Sound(o.child) && !o.child.closed && o.child.algorithm == s.parent.algorithm
    && Genuine(p, s, o.seed, OneShot(i), 0)
    && o.child.key == p.sha512(o.seed.bytes)[..32]
    && o.child.nonce == p.sha512(o.seed.bytes)[32..48]
  }

  /**
   How many bytes an instance has generated under one of its keys: its own counter while in use, the
   last value after.
   */
  function Generated(s: State, owner: Instance, generation: nat): nat {
    match owner
    case Root =>
      if generation == Newest(s) then s.parent.generated else Final(s, owner, generation)
    case Reader(i) =>
      if i in s.readers && s.readers[i].conn.child.Some? && generation == s.readers[i].keysMade - 1
      then s.readers[i].conn.child.value.generated
      else Final(s, owner, generation)
    case OneShot(i) =>
      if i in s.oneShots && generation == 0 then s.oneShots[i].child.generated else 0
  }

  /** Keys that have yet to come have generated nothing. */
  function Final(s: State, owner: Instance, generation: nat): nat {
    if StreamId(owner, generation) in s.retired then s.retired[StreamId(owner, generation)] else 0
  }

  /** Only keys that have been in use and are so no longer are retired. */
  ghost predicate RetiredInv(s: State) {
    forall k :: k in s.retired ==>
      match k.owner
      case Root => k.generation < Newest(s)
      case Reader(i) =>
        && i in s.readers
        && k.generation < s.readers[i].keysMade - (if s.readers[i].conn.child.Some? then 1 else 0)
      case OneShot(_) => false
  }

  /** The ledger tiles every stream of every instance exactly as far as it has been generated. */
  ghost predicate LogInv(s: State) {
    && Contiguous(s.log)
    && (forall k :: 0 <= k < |s.log| && s.log[k].purpose.SeedFor? ==>
          s.log[k].owner == Root && s.log[k].length == SEED_BYTES)
    && forall o, g: nat :: Handed(s.log, o, g) == Generated(s, o, g)
  }

  /** The stream of a child keyed from a seed, after its previous key if it had one. */
  function ChildStream(p: Primitives, algorithm: string, prior: seq<byte>, seed: seq<byte>): Cipher {
    var h := p.sha512(prior + seed);
    Cipher(algorithm, h[..32], h[32..48], 0)
  }

  /** The bytes are the stretch they claim to be, under a genuine seed. */
  ghost predicate Authentic(p: Primitives, s: State, e: Service) {
    && Genuine(p, s, e.seed, Reader(e.reader), e.keyIndex)
    && e.bytes == Keystream(p, ChildStream(p, s.parent.algorithm, e.prior, e.seed.bytes), e.start, |e.bytes|)
  }

  /** Every served read is as fresh as its start demanded, and each reader's generations never go back. */
  ghost predicate ServedInv(p: Primitives, s: State) {
    && (forall k :: 0 <= k < |s.served| ==>
          && Authentic(p, s, s.served[k])
          && s.served[k].floor <= s.served[k].Generation()
          && s.served[k].reader in s.readers
          && s.served[k].Generation() <= s.readers[s.served[k].reader].seed.generation)
    && (forall j, k :: 0 <= j < k < |s.served| && s.served[j].reader == s.served[k].reader ==>
          s.served[j].Generation() <= s.served[k].Generation())
  }

  ghost predicate ReadersInv(p: Primitives, s: State) {
    forall i :: i in s.readers ==> ConnInv(p, s, i, s.readers[i]) && PhaseInv(p, s, i, s.readers[i])
  }

  ghost predicate OneShotsInv(p: Primitives, s: State) {
    forall i :: i in s.oneShots ==> OneShotInv(p, s, i, s.oneShots[i])
  }

  ghost predicate Inv(p: Primitives, s: State) {
    && ParentInv(s)
    && ReadersInv(p, s)
    && OneShotsInv(p, s)
    && RetiredInv(s)
    && LogInv(s)
    && ServedInv(p, s)
  }

  // ---------------------------------------------------------------- what a step leaves alone

  /** Histories only grow, and the published epoch never goes back. */
  ghost predicate Grows(s: State, s': State) {
    && s'.parent.algorithm == s.parent.algorithm
    && s.keys <= s'.keys
    && s.log <= s'.log
    && s.parent.epoch <= s'.parent.epoch
    && s.returned <= s'.returned
  }

  lemma GenuineStays(p: Primitives, s: State, s': State, seed: Seed, child: Instance, generation: nat)
    requires Grows(s, s') && Genuine(p, s, seed, child, generation)
    ensures Genuine(p, s', seed, child, generation)
  {
  }

  /** A reader whose own record and hold on the lock do not change keeps its invariant. */
  lemma ReaderStays(p: Primitives, s: State, s': State, i: nat, r: ReaderState)
    requires Grows(s, s') && ConnInv(p, s, i, r) && PhaseInv(p, s, i, r)
    requires s.lock == HeldByReader(i) <==> s'.lock == HeldByReader(i)
    requires s.lock == HeldByReader(i) ==> s'.keys == s.keys
    ensures ConnInv(p, s', i, r) && PhaseInv(p, s', i, r)
  {
    if r.conn.child.Some? {
      GenuineStays(p, s, s', r.seed, Reader(i), r.keysMade - 1);
    }
    if r.phase.Drawn? || r.phase.Fetched? {
      GenuineStays(p, s, s', r.phase.seed, Reader(i), r.keysMade);
    }
  }

  /** All readers but one keep their invariants when only that one, or the shared state, moves. */
  lemma OthersStay(p: Primitives, s: State, s': State, moved: set<nat>)
    requires ReadersInv(p, s) && Grows(s, s')
    requires forall i :: i in s'.readers && i !in moved ==> i in s.readers && s'.readers[i] == s.readers[i]
    requires forall i :: i !in moved ==> (s.lock == HeldByReader(i) <==> s'.lock == HeldByReader(i))
    requires forall i :: i !in moved && s.lock == HeldByReader(i) ==> s'.keys == s.keys
    requires forall i :: i in moved && i in s'.readers ==>
               ConnInv(p, s', i, s'.readers[i]) && PhaseInv(p, s', i, s'.readers[i])
    ensures ReadersInv(p, s')
  {
    forall i | i in s'.readers ensures ConnInv(p, s', i, s'.readers[i]) && PhaseInv(p, s', i, s'.readers[i]) {
      if i !in moved {
        ReaderStays(p, s, s', i, s.readers[i]);
      }
    }
  }

  lemma OneShotsStay(p: Primitives, s: State, s': State)
    requires OneShotsInv(p, s) && Grows(s, s') && s'.oneShots == s.oneShots
    ensures OneShotsInv(p, s')
  {
    forall i | i in s'.oneShots ensures OneShotInv(p, s', i, s'.oneShots[i]) {
      GenuineStays(p, s, s', s.oneShots[i].seed, OneShot(i), 0);
    }
  }

  lemma AboutReader(p: Primitives, s: State, i: nat)
    requires ReadersInv(p, s) && i in s.readers
    ensures ConnInv(p, s, i, s.readers[i]) && PhaseInv(p, s, i, s.readers[i])
  {
  }

  lemma LogStays(s: State, s': State)
    requires LogInv(s) && s'.log == s.log
    requires forall o, g: nat :: Generated(s, o, g) == Generated(s', o, g)
    ensures LogInv(s')
  {
  }

  /** Handing out one more range keeps the ledger tiled when it starts where its key had got to. */
  lemma LogExtends(s: State, s': State, r: Range<Instance, Purpose>)
    requires LogInv(s) && s'.log == s.log + [r]
    requires Generated(s, r.owner, r.generation) == r.start
    requires r.purpose.SeedFor? ==> r.owner == Root && r.length == SEED_BYTES
    requires forall o, g: nat ::
               Generated(s', o, g) == Generated(s, o, g) + if r.owner == o && r.generation == g then r.length else 0
    ensures LogInv(s')
  {
    Append(s.log, r);
  }

  /** No stream moves and no key turns. */
  ghost predicate SameStreams(s: State, s': State) {
    && s'.keys == s.keys && s'.parent.generated == s.parent.generated && s'.oneShots == s.oneShots
    && s'.retired == s.retired
    && s'.readers.Keys == s.readers.Keys
    && forall i :: i in s.readers ==>
         s'.readers[i].conn.child == s.readers[i].conn.child && s'.readers[i].keysMade == s.readers[i].keysMade
  }

  lemma StreamsStay(s: State, s': State)
    requires RetiredInv(s) && SameStreams(s, s')
    ensures RetiredInv(s') && forall o, g: nat :: Generated(s', o, g) == Generated(s, o, g)
  {
  }

  /** A reader's key goes out of use: nothing succeeds it, or a fresh key does. */
  lemma KeyTurns(s: State, s': State, i: nat)
    requires RetiredInv(s) && i in s.readers && (s.readers[i].conn.child.Some? ==> s.readers[i].keysMade > 0)
    requires s'.parent == s.parent && s'.keys == s.keys && s'.oneShots == s.oneShots
    requires s'.retired == RetireChild(s, i).retired
    requires i in s'.readers && s'.readers == s.readers[i := s'.readers[i]]
    requires var r, r' := s.readers[i], s'.readers[i];
             if r'.conn.child.Some? then r'.keysMade == r.keysMade + 1 && r'.conn.child.value.generated == 0
             else r'.keysMade == r.keysMade
    ensures RetiredInv(s') && forall o, g: nat :: Generated(s', o, g) == Generated(s, o, g)
  {
    assert StreamId(Reader(i), s.readers[i].keysMade) !in s.retired;
  }

  /** A reader's child hands out n more bytes. */
  lemma ChildAdvances(s: State, s': State, i: nat, n: nat)
    requires RetiredInv(s) && i in s.readers && s.readers[i].conn.child.Some? && s.readers[i].keysMade > 0
    requires s'.parent == s.parent && s'.keys == s.keys && s'.oneShots == s.oneShots && s'.retired == s.retired
    requires i in s'.readers && s'.readers == s.readers[i := s'.readers[i]]
    requires var r, r' := s.readers[i], s'.readers[i];
             && r'.keysMade == r.keysMade && r'.conn.child.Some?
             && r'.conn.child.value.generated == r.conn.child.value.generated + n
    ensures RetiredInv(s')
    ensures forall o, g: nat ::
              Generated(s', o, g)
              == Generated(s, o, g) + if o == Reader(i) && g == s.readers[i].keysMade - 1 then n else 0
  {
  }

  /** No reader's child or key moves; a one-shot child that is new starts at zero. */
  ghost predicate SameChildren(s: State, s': State) {
    && s'.readers.Keys == s.readers.Keys
    && (forall i :: i in s.readers ==>
          s'.readers[i].conn.child == s.readers[i].conn.child && s'.readers[i].keysMade == s.readers[i].keysMade)
    && s.oneShots.Keys <= s'.oneShots.Keys
    && (forall i :: i in s'.oneShots ==>
          if i in s.oneShots then s'.oneShots[i] == s.oneShots[i] else s'.oneShots[i].child.generated == 0)
  }

  /** The parent hands out n more bytes. */
  lemma ParentAdvances(s: State, s': State, n: nat)
    requires RetiredInv(s) && s'.keys == s.keys && s'.retired == s.retired
    requires s'.parent.generated == s.parent.generated + n && SameChildren(s, s')
    ensures RetiredInv(s')
    ensures forall o, g: nat :: Generated(s', o, g) == Generated(s, o, g) + if o == Root && g == Newest(s) then n else 0
  {
  }

  /** A one-shot child hands out n more bytes. */
  lemma OneShotAdvances(s: State, s': State, i: nat, n: nat)
    requires RetiredInv(s) && s'.parent == s.parent && s'.keys == s.keys && s'.readers == s.readers
    requires s'.retired == s.retired
    requires i in s.oneShots && i in s'.oneShots && s'.oneShots == s.oneShots[i := s'.oneShots[i]]
    requires s'.oneShots[i].child.generated == s.oneShots[i].child.generated + n
    ensures RetiredInv(s')
    ensures Generated(s, OneShot(i), 0) == s.oneShots[i].child.generated
    ensures forall o, g: nat :: Generated(s', o, g) == Generated(s, o, g) + if o == OneShot(i) && g == 0 then n else 0
  {
  }

  lemma CurrentKey(s: State, i: nat)
    requires i in s.readers && s.readers[i].conn.child.Some? && s.readers[i].keysMade > 0
    ensures Generated(s, Reader(i), s.readers[i].keysMade - 1) == s.readers[i].conn.child.value.generated
  {
  }

  /** The parent's key goes out of use and a fresh one takes its place. */
  lemma ParentTurns(s: State, s': State)
    requires RetiredInv(s) && |s.keys| > 0 && |s'.keys| == |s.keys| + 1 && s'.parent.generated == 0
    requires s'.readers == s.readers && s'.oneShots == s.oneShots
    requires s'.retired == RetireStream(s, Root, Newest(s), s.parent.generated).retired
    ensures RetiredInv(s') && forall o, g: nat :: Generated(s', o, g) == Generated(s, o, g)
  {
    assert StreamId(Root, Newest(s')) !in s.retired;
  }

  /** The parent's stream is handed out n bytes further, and the ledger with it. */
  lemma ParentReads(s: State, s': State, n: nat, purpose: Purpose)
    requires ParentInv(s) && RetiredInv(s) && LogInv(s)
    requires s'.keys == s.keys && s'.retired == s.retired && s'.parent.generated == s.parent.generated + n
    requires SameChildren(s, s')
    requires s'.log == s.log + [Range(Root, Newest(s), s.parent.generated, n, purpose)]
    requires purpose.SeedFor? ==> n == SEED_BYTES
    ensures RetiredInv(s') && LogInv(s')
  {
    hide RetiredInv, LogInv, Generated, ParentInv;
    RootKey(s);
    ParentAdvances(s, s', n);
    LogExtends(s, s', Range(Root, Newest(s), s.parent.generated, n, purpose));
  }

  /** A reader's stream is handed out n bytes further, and the ledger with it. */
  lemma ChildReads(s: State, s': State, i: nat, n: nat, purpose: Purpose)
    requires RetiredInv(s) && LogInv(s) && purpose.Output?
    requires i in s.readers && s.readers[i].conn.child.Some? && s.readers[i].keysMade > 0
    requires s'.parent == s.parent && s'.keys == s.keys && s'.oneShots == s.oneShots && s'.retired == s.retired
    requires i in s'.readers && s'.readers == s.readers[i := s'.readers[i]]
    requires var r, r' := s.readers[i], s'.readers[i];
             && r'.keysMade == r.keysMade && r'.conn.child.Some?
             && r'.conn.child.value.generated == r.conn.child.value.generated + n
             && s'.log == s.log + [Range(Reader(i), r.keysMade - 1, r.conn.child.value.generated, n, purpose)]
    ensures RetiredInv(s') && LogInv(s')
  {
    hide RetiredInv, LogInv, Generated;
    CurrentKey(s, i);
    ChildAdvances(s, s', i, n);
    LogExtends(s, s', Range(Reader(i), s.readers[i].keysMade - 1, s.readers[i].conn.child.value.generated, n, purpose));
  }

  lemma ServedStays(p: Primitives, s: State, s': State)
    requires ServedInv(p, s) && Grows(s, s') && s'.served == s.served
    requires forall i :: i in s.readers ==>
               i in s'.readers && s.readers[i].seed.generation <= s'.readers[i].seed.generation
    ensures ServedInv(p, s')
  {
    hide Genuine;
    forall k | 0 <= k < |s.served| ensures Authentic(p, s', s.served[k]) {
      assert Authentic(p, s, s.served[k]);
      GenuineStays(p, s, s', s.served[k].seed, Reader(s.served[k].reader), s.served[k].keyIndex);
    }
  }

  // ---------------------------------------------------------------- every step keeps the invariant

  /** Steps of one reader that move neither the parent nor the ledger. */
  lemma PhaseStepKeepsInv(p: Primitives, s: State, i: nat, phase: Phase, lock: Lock)
    requires Inv(p, s) && i in s.readers
    requires lock == s.lock || (lock == HeldByReader(i) && s.lock.Free?) || (lock.Free? && s.lock == HeldByReader(i))
    requires var s' := SetPhase(s, i, phase).(lock := lock);
             ConnInv(p, s', i, s'.readers[i]) && PhaseInv(p, s', i, s'.readers[i])
    ensures Inv(p, SetPhase(s, i, phase).(lock := lock))
  {
    hide ReadersInv, OneShotsInv, LogInv, ServedInv, ConnInv, PhaseInv, RetiredInv, Generated;
    var s' := SetPhase(s, i, phase).(lock := lock);
    StreamsStay(s, s');
    OthersStay(p, s, s', {i});
    OneShotsStay(p, s, s');
    LogStays(s, s');
    ServedStays(p, s, s');
  }

  lemma ReaderPhaseActionKeepsInv(p: Primitives, s: State, a: Action)
    requires Inv(p, s) && Enabled(s, a)
    requires a.Start? || a.ObserveEpoch? || a.TakeLock? || a.SnapshotEpoch?
    ensures Inv(p, Next(p, s, a))
  {
    match a {
      case Start(i, n) => ReaderStarts(p, s, i, n);
      case ObserveEpoch(i) => ReaderObserves(p, s, i);
      case TakeLock(i) => ReaderTakesLock(p, s, i);
      case SnapshotEpoch(i) => ReaderSnapshots(p, s, i);
    }
    hide Next, Inv, Enabled, ConnInv, PhaseInv;
    var s' := Next(p, s, a);
    PhaseStepKeepsInv(p, s, a.i, s'.readers[a.i].phase, s'.lock);
  }

  /** Only one reader's phase moves, and possibly its hold on the lock. */
  ghost predicate PhaseMoves(p: Primitives, s: State, s': State, i: nat) {
    && i in s.readers && i in s'.readers
    && s' == SetPhase(s, i, s'.readers[i].phase).(lock := s'.lock)
    && (|| s'.lock == s.lock
        || (s'.lock == HeldByReader(i) && s.lock.Free?)
        || (s'.lock.Free? && s.lock == HeldByReader(i)))
    && ConnInv(p, s', i, s'.readers[i]) && PhaseInv(p, s', i, s'.readers[i])
  }

  lemma ConnStays(p: Primitives, s: State, s': State, i: nat, phase: Phase)
    requires Inv(p, s) && i in s.readers && Grows(s, s') && (s.readers[i].conn.closed ==> phase.Idle?)
    ensures ConnInv(p, s', i, s.readers[i].(phase := phase))
  {
    hide Genuine, OneShotsInv, LogInv, ServedInv, RetiredInv;
    AboutReader(p, s, i);
    if s.readers[i].conn.child.Some? {
      GenuineStays(p, s, s', s.readers[i].seed, Reader(i), s.readers[i].keysMade - 1);
    }
  }

  lemma OpenWhileReading(p: Primitives, s: State, i: nat)
    requires Inv(p, s) && i in s.readers
    ensures s.readers[i].conn.closed ==> s.readers[i].phase.Idle?
    ensures PhaseInv(p, s, i, s.readers[i])
    ensures s.returned <= s.parent.epoch
  {
    AboutReader(p, s, i);
  }

  /** A phase that a reader without the lock can move to. */
  ghost predicate Reachable(s: State, r: ReaderState, phase: Phase) {
    match phase
    case Idle(_) => true
    case Started(n, floor) => !r.conn.closed && floor <= s.returned && n <= MAX_BYTES_PER_KEY
    case NeedsSeed(n, floor) => !r.conn.closed && floor <= s.returned && n <= MAX_BYTES_PER_KEY
    case Serving(n, floor) =>
      && !r.conn.closed && floor <= r.seed.generation
      && r.conn.child.Some? && r.conn.child.value.generated + n <= MAX_BYTES_PER_KEY
    case _ => false
  }

  lemma NewPhase(p: Primitives, s: State, i: nat, phase: Phase)
    requires Inv(p, s) && i in s.readers && s.lock != HeldByReader(i) && Reachable(s, s.readers[i], phase)
    ensures PhaseMoves(p, s, SetPhase(s, i, phase), i)
  {
    hide Inv, ConnInv;
    ConnStays(p, s, SetPhase(s, i, phase), i, phase);
  }

  lemma ReaderStarts(p: Primitives, s: State, i: nat, n: nat)
    requires Inv(p, s) && Enabled(s, Start(i, n))
    ensures PhaseMoves(p, s, Next(p, s, Start(i, n)), i)
  {
    hide Inv, PhaseMoves;
    OpenWhileReading(p, s, i);
    NewPhase(p, s, i, Next(p, s, Start(i, n)).readers[i].phase);
  }

  /** What the comparison establishes: a seed is needed, or the child is current and has room for the read. */
  lemma ObserveDecides(p: Primitives, s: State, i: nat)
    requires Inv(p, s) && Enabled(s, ObserveEpoch(i))
    ensures i in s.readers && s.readers[i].phase.Started? && !s.readers[i].conn.closed
    ensures var r, s' := s.readers[i], Next(p, s, ObserveEpoch(i));
            var (n, floor) := (r.phase.n, r.phase.floor);
            && floor <= s.returned && n <= MAX_BYTES_PER_KEY
            && s.lock != HeldByReader(i)
            && (|| s' == SetPhase(s, i, NeedsSeed(n, floor))
                || (&& s' == SetPhase(s, i, Serving(n, floor))
                    && floor <= r.seed.generation
                    && r.conn.child.Some? && r.conn.child.value.generated + n <= MAX_BYTES_PER_KEY))
  {
    hide ReadersInv, OneShotsInv, LogInv, ServedInv, Genuine, RetiredInv;
    AboutReader(p, s, i);
    if s.readers[i].conn.child.Some? {
      SmallDifference(MAX_BYTES_PER_KEY - s.readers[i].conn.child.value.generated);
    }
  }

  lemma ReaderObserves(p: Primitives, s: State, i: nat)
    requires Inv(p, s) && Enabled(s, ObserveEpoch(i))
    ensures PhaseMoves(p, s, Next(p, s, ObserveEpoch(i)), i)
  {
    hide Inv, PhaseMoves, Next;
    ObserveDecides(p, s, i);
    NewPhase(p, s, i, Next(p, s, ObserveEpoch(i)).readers[i].phase);
  }

  lemma ReaderTakesLock(p: Primitives, s: State, i: nat)
    requires Inv(p, s) && Enabled(s, TakeLock(i))
    ensures PhaseMoves(p, s, Next(p, s, TakeLock(i)), i)
  {
    hide ReadersInv, OneShotsInv, LogInv, ServedInv, Genuine, RetiredInv, ConnInv;
    OpenWhileReading(p, s, i);
    var s' := Next(p, s, TakeLock(i));
    ConnStays(p, s, s', i, s'.readers[i].phase);
  }

  lemma ReaderSnapshots(p: Primitives, s: State, i: nat)
    requires Inv(p, s) && Enabled(s, SnapshotEpoch(i))
    ensures PhaseMoves(p, s, Next(p, s, SnapshotEpoch(i)), i)
  {
    hide ReadersInv, OneShotsInv, LogInv, ServedInv, Genuine, RetiredInv;
    AboutReader(p, s, i);
    var s' := Next(p, s, SnapshotEpoch(i));
    ConnStays(p, s, s', i, s'.readers[i].phase);
    GenuineStays(p, s, s', s.readers[i].phase.seed, Reader(i), s.readers[i].keysMade);
  }

  /**
   The parent may move alone: on its current key without reading, or to a fresh key while no reader
   holds the lock.
   */
  lemma ParentMoves(p: Primitives, s: State, s': State)
    requires Inv(p, s) && ParentInv(s') && Grows(s, s')
    requires s'.readers == s.readers && s'.oneShots == s.oneShots && s'.log == s.log && s'.served == s.served
    requires !s.lock.HeldByReader? && !s'.lock.HeldByReader?
    requires if s'.keys == s.keys then s'.parent.generated == s.parent.generated && s'.retired == s.retired
             else |s'.keys| == |s.keys| + 1 && s'.parent.generated == 0
                  && s'.retired == RetireStream(s, Root, Newest(s), s.parent.generated).retired
    ensures Inv(p, s')
  {
    assert |s.keys| > 0;
    hide ReadersInv, OneShotsInv, LogInv, ServedInv, ParentInv, RetiredInv, Generated;
    OthersStay(p, s, s', {});
    OneShotsStay(p, s, s');
    if s'.keys == s.keys {
      StreamsStay(s, s');
    } else {
      ParentTurns(s, s');
    }
    LogStays(s, s');
    ServedStays(p, s, s');
  }

  /** Steps that change the parent, the lock or the return mark but no reader, child or ledger entry. */
  lemma ParentActionKeepsInv(p: Primitives, s: State, a: Action)
    requires Inv(p, s) && Enabled(s, a)
    requires || a.BeginReseed? || a.InstallKey? || a.PublishEpoch? || a.ReturnReseed?
             || a.NoteReseedFailure? || a.CloseParent?
    ensures Inv(p, Next(p, s, a))
  {
    hide ReadersInv, OneShotsInv, LogInv, ServedInv, NextInstall;
    if a.InstallKey? {
      InstallKeepsInv(p, s);
    } else {
      ParentMoves(p, s, Next(p, s, a));
    }
  }

  lemma InstallKeepsInv(p: Primitives, s: State)
    requires Inv(p, s) && Enabled(s, InstallKey)
    ensures Inv(p, Next(p, s, InstallKey))
  {
    hide ReadersInv, OneShotsInv, LogInv, ServedInv;
    ParentMoves(p, s, Next(p, s, InstallKey));
  }

  lemma DirectReadKeepsInv(p: Primitives, s: State, n: nat)
    requires Inv(p, s) && Enabled(s, DirectRead(n))
    ensures Inv(p, Next(p, s, DirectRead(n)))
  {
    hide ReadersInv, OneShotsInv, LogInv, ServedInv, Generated, RetiredInv;
    var s' := Next(p, s, DirectRead(n));
    if s' != s {
      ParentReads(s, s', n, s'.log[|s.log|].purpose);
      OthersStay(p, s, s', {});
      OneShotsStay(p, s, s');
      ServedStays(p, s, s');
    }
  }

  lemma DrawSeedKeepsInv(p: Primitives, s: State, i: nat)
    requires Inv(p, s) && Enabled(s, DrawSeed(i))
    ensures Inv(p, Next(p, s, DrawSeed(i)))
  {
    if Read(p, s.parent, SEED_BYTES).0.Err? {
      RefusedDrawKeepsInv(p, s, i);
    } else {
      GrantedDrawKeepsInv(p, s, i);
    }
  }

  lemma RefusedDrawKeepsInv(p: Primitives, s: State, i: nat)
    requires Inv(p, s) && Enabled(s, DrawSeed(i)) && Read(p, s.parent, SEED_BYTES).0.Err?
    ensures Inv(p, Next(p, s, DrawSeed(i)))
  {
    hide ReadersInv, OneShotsInv, LogInv, ServedInv, Genuine, Generated, RetiredInv;
    AboutReader(p, s, i);
    var r, s' := s.readers[i], Next(p, s, DrawSeed(i));
    if r.conn.child.Some? {
      GenuineStays(p, s, s', r.seed, Reader(i), r.keysMade - 1);
    }
    PhaseStepKeepsInv(p, s, i, Idle(Some(Read(p, s.parent, SEED_BYTES).0)), Free);
  }

  lemma GrantedDrawKeepsInv(p: Primitives, s: State, i: nat)
    requires Inv(p, s) && Enabled(s, DrawSeed(i)) && Read(p, s.parent, SEED_BYTES).0.Ok?
    ensures Inv(p, Next(p, s, DrawSeed(i)))
  {
    hide Next, Inv, Enabled, Read;
    DrawnReader(p, s, i);
    ReaderDraws(p, s, Next(p, s, DrawSeed(i)), i, Read(p, s.parent, SEED_BYTES).0.value);
  }

  /** A reader holding the lock takes a seed from the parent's stream. */
  lemma ReaderDraws(p: Primitives, s: State, s': State, i: nat, bytes: seq<byte>)
    requires Inv(p, s) && i in s.readers && ParentInv(s') && s.lock == HeldByReader(i)
    requires var r, r' := s.readers[i], s'.readers;
             && i in r' && r'[i].conn == r.conn && r'[i].seed == r.seed && r'[i].keysMade == r.keysMade
             && s' == Record(SetReader(s, i, r'[i]).(parent := s'.parent), Root, Newest(s), s.parent.generated,
                             SEED_BYTES, SeedFor(Reader(i), r.keysMade, bytes))
    requires s'.parent.generated == s.parent.generated + SEED_BYTES
    requires s'.parent.epoch == s.parent.epoch && s'.parent.algorithm == s.parent.algorithm
    requires ConnInv(p, s', i, s'.readers[i]) && PhaseInv(p, s', i, s'.readers[i])
    ensures Inv(p, s')
  {
    hide ReadersInv, OneShotsInv, LogInv, ServedInv, Genuine, Generated, RetiredInv, ConnInv, PhaseInv, ParentInv;
    ParentReads(s, s', SEED_BYTES, SeedFor(Reader(i), s.readers[i].keysMade, bytes));
    OthersStay(p, s, s', {i});
    OneShotsStay(p, s, s');
    ServedStays(p, s, s');
  }

  lemma RootKey(s: State)
    requires ParentInv(s)
    ensures |s.keys| > 0 && Generated(s, Root, Newest(s)) == s.parent.generated
  {
  }

  /** The reader that drew keeps its connection and now holds a genuine seed. */
  lemma DrawnReader(p: Primitives, s: State, i: nat)
    requires Inv(p, s) && Enabled(s, DrawSeed(i)) && Read(p, s.parent, SEED_BYTES).0.Ok?
    ensures Sound(s.parent)
    ensures var s', bytes := Next(p, s, DrawSeed(i)), Read(p, s.parent, SEED_BYTES).0.value;
            && i in s.readers && s.lock == HeldByReader(i) && ParentInv(s')
            && (var r, r' := s.readers[i], s'.readers;
                && i in r' && r'[i].conn == r.conn && r'[i].seed == r.seed && r'[i].keysMade == r.keysMade
                && s' == Record(SetReader(s, i, r'[i]).(parent := s'.parent), Root, Newest(s), s.parent.generated,
                                SEED_BYTES, SeedFor(Reader(i), r.keysMade, bytes)))
            && s'.parent.generated == s.parent.generated + SEED_BYTES
            && s'.parent.epoch == s.parent.epoch && s'.parent.algorithm == s.parent.algorithm
            && ConnInv(p, s', i, s'.readers[i]) && PhaseInv(p, s', i, s'.readers[i])
  {
    hide ReadersInv, OneShotsInv, LogInv, ServedInv, Genuine, Generated, RetiredInv;
    AboutReader(p, s, i);
    var r, s' := s.readers[i], Next(p, s, DrawSeed(i));
    SeedIsGenuine(p, s, s', s'.readers[i].phase.seed, Reader(i), r.keysMade);
    if r.conn.child.Some? {
      GenuineStays(p, s, s', r.seed, Reader(i), r.keysMade - 1);
    }
  }

  /** What a locked read of 64 bytes returns is the parent key's stream at its position. */
  lemma SeedIsGenuine(p: Primitives, s: State, s': State, seed: Seed, child: Instance, generation: nat)
    requires ParentInv(s) && Read(p, s.parent, SEED_BYTES).0.Ok?
    requires s'.keys == s.keys && s'.parent.algorithm == s.parent.algorithm
    requires s'.log == s.log + [Range(Root, Newest(s), s.parent.generated, SEED_BYTES,
                                      SeedFor(child, generation, seed.bytes))]
    requires seed == Seed(Read(p, s.parent, SEED_BYTES).0.value, Newest(s), s.parent.generated, |s.log|)
    ensures Genuine(p, s', seed, child, generation)
  {
  }

  /** A reader's key goes out of use, and nothing but that reader moves. */
  lemma ReaderTurns(p: Primitives, s: State, s': State, i: nat)
    requires Inv(p, s) && i in s.readers && (s.readers[i].conn.child.Some? ==> s.readers[i].keysMade > 0)
    requires i in s'.readers && s' == SetReader(RetireChild(s, i), i, s'.readers[i]).(childKeys := s'.childKeys)
    requires var r, r' := s.readers[i], s'.readers[i];
             && r.seed.generation <= r'.seed.generation
             && if r'.conn.child.Some? then r'.keysMade == r.keysMade + 1 && r'.conn.child.value.generated == 0
                else r'.keysMade == r.keysMade
    requires ConnInv(p, s', i, s'.readers[i]) && PhaseInv(p, s', i, s'.readers[i])
    ensures Inv(p, s')
  {
    hide ReadersInv, OneShotsInv, LogInv, ServedInv, Genuine, RetiredInv, Generated, ConnInv, PhaseInv;
    KeyTurns(s, s', i);
    OthersStay(p, s, s', {i});
    OneShotsStay(p, s, s');
    LogStays(s, s');
    ServedStays(p, s, s');
  }

  lemma RekeyChildKeepsInv(p: Primitives, s: State, i: nat)
    requires Inv(p, s) && Enabled(s, RekeyChild(i))
    ensures Inv(p, Next(p, s, RekeyChild(i)))
  {
    hide Next, Inv, Enabled, ConnInv, PhaseInv, RetireChild;
    RekeyedReader(p, s, i);
    ReaderTurns(p, s, Next(p, s, RekeyChild(i)), i);
  }

  /** The refreshed child is seeded by exactly the seed that was drawn for it. */
  lemma RekeyedReader(p: Primitives, s: State, i: nat)
    requires Inv(p, s) && Enabled(s, RekeyChild(i))
    ensures i in s.readers && i in Next(p, s, RekeyChild(i)).readers
    ensures var r, s' := s.readers[i], Next(p, s, RekeyChild(i));
            var r' := s'.readers[i];
            && s' == SetReader(RetireChild(s, i), i, r').(childKeys := s'.childKeys)
            && ConnInv(p, s', i, r') && PhaseInv(p, s', i, r')
            && (r.conn.child.Some? ==> r.keysMade > 0)
            && r'.conn.child.Some? && r'.conn.child.value.generated == 0 && r'.keysMade == r.keysMade + 1
            && r.seed.generation <= r'.seed.generation
  {
    hide ReadersInv, OneShotsInv, LogInv, ServedInv, Genuine, RetiredInv, Generated;
    AboutReader(p, s, i);
    var s' := Next(p, s, RekeyChild(i));
    GenuineStays(p, s, s', s.readers[i].phase.seed, Reader(i), s.readers[i].keysMade);
  }

  lemma ServeKeepsInv(p: Primitives, s: State, i: nat)
    requires Inv(p, s) && Enabled(s, Serve(i))
    ensures Inv(p, Next(p, s, Serve(i)))
  {
    hide Next, Inv, Enabled, ConnInv, PhaseInv, Authentic;
    ServedBytes(p, s, i);
    ServedReader(p, s, i);
    ReaderServes(p, s, Next(p, s, Serve(i)), i);
  }

  /** A reader hands out the next stretch of its child's stream, and nothing else moves. */
  lemma ReaderServes(p: Primitives, s: State, s': State, i: nat)
    requires Inv(p, s) && i in s.readers && i in s'.readers && s'.readers == s.readers[i := s'.readers[i]]
    requires s'.parent == s.parent && s'.keys == s.keys && s'.oneShots == s.oneShots && s'.retired == s.retired
    requires s'.lock == s.lock && s'.returned == s.returned
    requires s.readers[i].conn.child.Some? && s.readers[i].keysMade > 0
    requires var r, r' := s.readers[i], s'.readers[i];
             && r'.keysMade == r.keysMade && r'.conn.child.Some? && r'.seed == r.seed
             && r'.conn.child.value.generated == r.conn.child.value.generated + ServedLength(r)
             && |s'.log| == |s.log| + 1 && s'.log[|s.log|].purpose.Output?
             && s'.log == s.log + [Range(Reader(i), r.keysMade - 1, r.conn.child.value.generated, ServedLength(r),
                                         s'.log[|s.log|].purpose)]
    requires ConnInv(p, s', i, s'.readers[i]) && PhaseInv(p, s', i, s'.readers[i])
    requires |s'.served| == |s.served| + 1 && s'.served[..|s.served|] == s.served
    requires var e := s'.served[|s.served|];
             && Authentic(p, s, e) && e.reader == i
             && e.floor <= e.Generation() == s.readers[i].seed.generation
    ensures Inv(p, s')
  {
    hide ReadersInv, OneShotsInv, LogInv, ServedInv, Genuine, RetiredInv, ConnInv, PhaseInv, Authentic;
    ChildReads(s, s', i, ServedLength(s.readers[i]), s'.log[|s.log|].purpose);
    OthersStay(p, s, s', {i});
    OneShotsStay(p, s, s');
    assert s'.served == s.served + [s'.served[|s.served|]];
    ServedExtends(p, s, s', s'.served[|s.served|]);
  }

  function ServedLength(r: ReaderState): nat {
    if r.phase.Serving? then r.phase.n else 0
  }

  lemma ServedReader(p: Primitives, s: State, i: nat)
    requires Inv(p, s) && Enabled(s, Serve(i))
    ensures i in s.readers && s.readers[i].conn.child.Some? && s.readers[i].keysMade > 0
    ensures var r, s' := s.readers[i], Next(p, s, Serve(i));
            && i in s'.readers && s'.readers == s.readers[i := s'.readers[i]]
            && s'.parent == s.parent && s'.keys == s.keys && s'.oneShots == s.oneShots && s'.retired == s.retired
            && s'.lock == s.lock && s'.returned == s.returned
            && |s'.log| == |s.log| + 1 && s'.log[|s.log|].purpose.Output?
            && s'.log == s.log + [Range(Reader(i), r.keysMade - 1, r.conn.child.value.generated, ServedLength(r),
                                        s'.log[|s.log|].purpose)]
            && var r' := s'.readers[i];
               && r'.keysMade == r.keysMade && r'.conn.child.Some? && r'.seed == r.seed
               && r'.conn.child.value.generated == r.conn.child.value.generated + ServedLength(r)
               && ConnInv(p, s', i, r') && PhaseInv(p, s', i, r')
               && r.phase.Serving? && r.phase.floor <= r.seed.generation
  {
    hide ReadersInv, OneShotsInv, LogInv, ServedInv, Genuine, RetiredInv, Generated;
    AboutReader(p, s, i);
    GenuineStays(p, s, Next(p, s, Serve(i)), s.readers[i].seed, Reader(i), s.readers[i].keysMade - 1);
  }

  /** What a served read hands out is the child's stream from where it had got to. */
  lemma ServedBytes(p: Primitives, s: State, i: nat)
    requires Inv(p, s) && Enabled(s, Serve(i))
    ensures var s' := Next(p, s, Serve(i));
            var r := s.readers[i];
            && |s'.served| == |s.served| + 1 && s'.served[..|s.served|] == s.served
            && var e := s'.served[|s.served|];
               && Authentic(p, s, e)
               && e.reader == i && e.floor == r.phase.floor && e.seed == r.seed
               && s'.readers[i].phase == Idle(Some(Ok(e.bytes)))
  {
    hide ReadersInv, OneShotsInv, LogInv, ServedInv, Genuine, RetiredInv, Generated;
    AboutReader(p, s, i);
    var r, child := s.readers[i], s.readers[i].conn.child.value;
    var c := ChildStream(p, s.parent.algorithm, r.prior, r.seed.bytes);
    assert Keystream(p, child.cipher.value, child.generated, r.phase.n) == Keystream(p, c, child.generated, r.phase.n);
  }

  lemma ServedExtends(p: Primitives, s: State, s': State, e: Service)
    requires ServedInv(p, s) && Grows(s, s') && s'.served == s.served + [e] && e.reader in s.readers
    requires Authentic(p, s, e)
    requires e.floor <= e.Generation() == s.readers[e.reader].seed.generation
    requires forall i :: i in s.readers ==>
               i in s'.readers && s.readers[i].seed.generation == s'.readers[i].seed.generation
    ensures ServedInv(p, s')
  {
    hide Genuine;
    forall k | 0 <= k < |s'.served| ensures Authentic(p, s', s'.served[k]) {
      var f := s'.served[k];
      assert k < |s.served| ==> f == s.served[k];
      assert Authentic(p, s, f);
      GenuineStays(p, s, s', f.seed, Reader(f.reader), f.keyIndex);
    }
  }

  lemma CloseReaderKeepsInv(p: Primitives, s: State, i: nat)
    requires Inv(p, s) && Enabled(s, CloseReader(i))
    ensures Inv(p, Next(p, s, CloseReader(i)))
  {
    hide Inv, ConnInv, PhaseInv, RetireChild;
    ClosedReader(p, s, i);
    ReaderTurns(p, s, Next(p, s, CloseReader(i)), i);
  }

  lemma ClosedReader(p: Primitives, s: State, i: nat)
    requires Inv(p, s) && Enabled(s, CloseReader(i))
    ensures var s' := Next(p, s, CloseReader(i));
            && ConnInv(p, s', i, s'.readers[i]) && PhaseInv(p, s', i, s'.readers[i])
            && (s.readers[i].conn.child.Some? ==> s.readers[i].keysMade > 0)
  {
    hide ReadersInv, OneShotsInv, LogInv, ServedInv, Genuine, RetiredInv, Generated;
    AboutReader(p, s, i);
  }

  lemma OpenKeepsInv(p: Primitives, s: State, i: nat)
    requires Inv(p, s) && Enabled(s, Open(i))
    ensures Inv(p, Next(p, s, Open(i)))
  {
    hide ReadersInv, OneShotsInv, LogInv, ServedInv;
    var s' := Next(p, s, Open(i));
    OthersStay(p, s, s', {i});
    OneShotsStay(p, s, s');
    LogStays(s, s');
    ServedStays(p, s, s');
  }

  lemma SpawnKeepsInv(p: Primitives, s: State, i: nat)
    requires Inv(p, s) && Enabled(s, SpawnOneShot(i))
    ensures Inv(p, Next(p, s, SpawnOneShot(i)))
  {
    hide ReadersInv, LogInv, ServedInv, Genuine, Generated, RetiredInv;
    var s' := Next(p, s, SpawnOneShot(i));
    if s' != s {
      ParentReads(s, s', SEED_BYTES, s'.log[|s.log|].purpose);
      SeedIsGenuine(p, s, s', s'.oneShots[i].seed, OneShot(i), 0);
      OthersStay(p, s, s', {});
      OtherOneShotsStay(p, s, s', i);
      ServedStays(p, s, s');
    }
  }

  lemma OtherOneShotsStay(p: Primitives, s: State, s': State, moved: nat)
    requires OneShotsInv(p, s) && Grows(s, s')
    requires forall j :: j in s'.oneShots && j != moved ==> j in s.oneShots && s'.oneShots[j] == s.oneShots[j]
    requires moved in s'.oneShots ==> OneShotInv(p, s', moved, s'.oneShots[moved])
    ensures OneShotsInv(p, s')
  {
    forall j | j in s'.oneShots && j != moved ensures OneShotInv(p, s', j, s'.oneShots[j]) {
      GenuineStays(p, s, s', s.oneShots[j].seed, OneShot(j), 0);
    }
  }

  /** What a one-shot child's read does when it is not refused. */
  ghost predicate OneShotReads(p: Primitives, s: State, s': State, i: nat, n: nat) {
    && i in s.oneShots && i in s'.oneShots && |s'.log| == |s.log| + 1
    && s'.oneShots == s.oneShots[i := s'.oneShots[i]]
    && s'.oneShots[i].child.generated == s.oneShots[i].child.generated + n
    && s'.log[|s.log|].purpose.Output?
    && s'.log == s.log + [Range(OneShot(i), 0, s.oneShots[i].child.generated, n, s'.log[|s.log|].purpose)]
    && s' == s.(oneShots := s'.oneShots, log := s'.log)
    && OneShotInv(p, s', i, s'.oneShots[i])
  }

  lemma OneShotActionReads(p: Primitives, s: State, i: nat, n: nat)
    requires Inv(p, s) && Enabled(s, ReadOneShot(i, n)) && Next(p, s, ReadOneShot(i, n)) != s
    ensures OneShotReads(p, s, Next(p, s, ReadOneShot(i, n)), i, n)
  {
    hide ReadersInv, LogInv, ServedInv, Genuine, Generated, RetiredInv, ParentInv;
    assert OneShotInv(p, s, i, s.oneShots[i]);
    GenuineStays(p, s, Next(p, s, ReadOneShot(i, n)), s.oneShots[i].seed, OneShot(i), 0);
  }

  lemma OneShotReadKeepsInv(p: Primitives, s: State, s': State, i: nat, n: nat)
    requires Inv(p, s) && OneShotReads(p, s, s', i, n)
    ensures Inv(p, s')
  {
    hide ReadersInv, OneShotsInv, LogInv, ServedInv, Genuine, Generated, RetiredInv, OneShotInv;
    OneShotAdvances(s, s', i, n);
    LogExtends(s, s', s'.log[|s.log|]);
    OthersStay(p, s, s', {});
    OtherOneShotsStay(p, s, s', i);
    ServedStays(p, s, s');
  }

  lemma ReadOneShotKeepsInv(p: Primitives, s: State, i: nat, n: nat)
    requires Inv(p, s) && Enabled(s, ReadOneShot(i, n))
    ensures Inv(p, Next(p, s, ReadOneShot(i, n)))
  {
    hide Next, Inv, Enabled, OneShotReads;
    if Next(p, s, ReadOneShot(i, n)) != s {
      OneShotActionReads(p, s, i, n);
      OneShotReadKeepsInv(p, s, Next(p, s, ReadOneShot(i, n)), i, n);
    }
  }

  lemma StepKeepsInv(p: Primitives, s: State, a: Action)
    requires Inv(p, s) && Enabled(s, a)
    ensures Inv(p, Next(p, s, a))
  {
    hide *;
    match a
    case Open(i) => OpenKeepsInv(p, s, i);
    case DrawSeed(i) => DrawSeedKeepsInv(p, s, i);
    case RekeyChild(i) => RekeyChildKeepsInv(p, s, i);
    case Serve(i) => ServeKeepsInv(p, s, i);
    case CloseReader(i) => CloseReaderKeepsInv(p, s, i);
    case DirectRead(n) => DirectReadKeepsInv(p, s, n);
    case SpawnOneShot(i) => SpawnKeepsInv(p, s, i);
    case ReadOneShot(i, n) => ReadOneShotKeepsInv(p, s, i, n);
    case Start(_, _) => ReaderPhaseActionKeepsInv(p, s, a);
    case ObserveEpoch(_) => ReaderPhaseActionKeepsInv(p, s, a);
    case TakeLock(_) => ReaderPhaseActionKeepsInv(p, s, a);
    case SnapshotEpoch(_) => ReaderPhaseActionKeepsInv(p, s, a);
    case _ => ParentActionKeepsInv(p, s, a);
  }

  // ---------------------------------------------------------------- whole runs

  function Initial(parent: Gen): State {
    State(parent, Free, [Keys(parent.key, parent.nonce)], 0, map[], map[], [], map[], map[], [])
  }

  /** Any interleaving from a newly created parent; an action that is not enabled is passed over. */
  ghost function Execute(p: Primitives, s: State, actions: seq<Action>): (r: State)
    requires Inv(p, s)
    ensures Inv(p, r)
  {
    if actions == [] then s
    else
      var before := Execute(p, s, actions[..|actions| - 1]);
      var a := actions[|actions| - 1];
      if Enabled(before, a) then StepKeepsInv(p, before, a); Next(p, before, a) else before
  }

  lemma InitialInv(p: Primitives, seed: seq<byte>, algorithm: string)
    requires Create(p, seed, algorithm).Ok?
    ensures Inv(p, Initial(Create(p, seed, algorithm).value))
  {
  }

  ghost function Reached(p: Primitives, seed: seq<byte>, algorithm: string, actions: seq<Action>): (s: State)
    requires Create(p, seed, algorithm).Ok?
    ensures Inv(p, s)
  {
    InitialInv(p, seed, algorithm);
    Execute(p, Initial(Create(p, seed, algorithm).value), actions)
  }

  /**
   In every interleaving, a read that starts after a reseed returned is served under that
   reseed's generation or a later one, and a reader's generation never goes back. The bytes it
   gets are the stream of a child keyed from a stretch of exactly that parent generation's stream.
   */
  lemma ServedReadsAreFresh(p: Primitives, seed: seq<byte>, algorithm: string, actions: seq<Action>, j: nat, k: nat)
    requires Create(p, seed, algorithm).Ok?
    requires j <= k < |Reached(p, seed, algorithm, actions).served|
    ensures var s := Reached(p, seed, algorithm, actions);
            var e := s.served[k];
            && e.floor <= e.Generation() < |s.keys|
            && (s.served[j].reader == e.reader ==> s.served[j].Generation() <= e.Generation())
            && (var h := p.sha512(e.prior + e.seed.bytes);
                forall x :: 0 <= x < |e.bytes| ==>
                  e.bytes[x] == p.keystream(s.parent.algorithm, h[..32], h[32..48], e.start + x))
            && |e.seed.bytes| == 64
            && (var k := s.keys[e.Generation()];
                forall x :: 0 <= x < 64 ==>
                  e.seed.bytes[x] == p.keystream(s.parent.algorithm, k.key, k.nonce, e.seed.position + x))
  {
    hide *;
    var s := Reached(p, seed, algorithm, actions);
    AboutService(p, s, j, k);
  }

  lemma AboutService(p: Primitives, s: State, j: nat, k: nat)
    requires Inv(p, s) && j <= k < |s.served|
    ensures var e := s.served[k];
            && e.floor <= e.Generation() < |s.keys|
            && (s.served[j].reader == e.reader ==> s.served[j].Generation() <= e.Generation())
            && (var h := p.sha512(e.prior + e.seed.bytes);
                forall x :: 0 <= x < |e.bytes| ==>
                  e.bytes[x] == p.keystream(s.parent.algorithm, h[..32], h[32..48], e.start + x))
            && |e.seed.bytes| == 64
            && (var key := s.keys[e.Generation()];
                forall x :: 0 <= x < 64 ==>
                  e.seed.bytes[x] == p.keystream(s.parent.algorithm, key.key, key.nonce, e.seed.position + x))
  {
    hide Genuine, ParentInv, ReadersInv, OneShotsInv, RetiredInv, LogInv;
    assert Authentic(p, s, s.served[k]);
    GenuineBytes(p, s, s.served[k].seed, Reader(s.served[k].reader), s.served[k].keyIndex);
  }

  /** A genuine seed, byte for byte. */
  lemma GenuineBytes(p: Primitives, s: State, seed: Seed, child: Instance, generation: nat)
    requires Genuine(p, s, seed, child, generation)
    ensures seed.generation < |s.keys| && |seed.bytes| == 64
    ensures var k := s.keys[seed.generation];
            forall x :: 0 <= x < 64 ==>
              seed.bytes[x] == p.keystream(s.parent.algorithm, k.key, k.nonce, seed.position + x)
  {
  }

  /**
   In every reachable state the epoch a reader stores is the number of reseeds behind the
   parent key whose stream its child's seed was cut from, and the child's key is the digest
   of that seed (after its previous key, if it had one).
   */
  lemma StoredEpochIsSeedGeneration(p: Primitives, seed: seq<byte>, algorithm: string, actions: seq<Action>, i: nat)
    requires Create(p, seed, algorithm).Ok?
    requires var s := Reached(p, seed, algorithm, actions);
             i in s.readers && s.readers[i].conn.child.Some?
    ensures var s := Reached(p, seed, algorithm, actions);
            var r := s.readers[i];
            && r.conn.epoch == r.seed.generation < |s.keys|
            && |r.seed.bytes| == 64
            && (var k := s.keys[r.conn.epoch];
                forall x :: 0 <= x < 64 ==>
                  r.seed.bytes[x] == p.keystream(s.parent.algorithm, k.key, k.nonce, r.seed.position + x))
            && r.conn.child.value.key == p.sha512(r.prior + r.seed.bytes)[..32]
            && r.conn.child.value.nonce == p.sha512(r.prior + r.seed.bytes)[32..48]
  {
    hide *;
    var s := Reached(p, seed, algorithm, actions);
    AboutChild(p, s, i);
  }

  lemma AboutChild(p: Primitives, s: State, i: nat)
    requires Inv(p, s) && i in s.readers && s.readers[i].conn.child.Some?
    ensures var r := s.readers[i];
            && r.conn.epoch == r.seed.generation < |s.keys|
            && |r.seed.bytes| == 64
            && (var k := s.keys[r.conn.epoch];
                forall x :: 0 <= x < 64 ==>
                  r.seed.bytes[x] == p.keystream(s.parent.algorithm, k.key, k.nonce, r.seed.position + x))
            && r.conn.child.value.key == p.sha512(r.prior + r.seed.bytes)[..32]
            && r.conn.child.value.nonce == p.sha512(r.prior + r.seed.bytes)[32..48]
  {
    hide ParentInv, OneShotsInv, RetiredInv, LogInv, ServedInv, PhaseInv, Genuine, Sound;
    AboutReader(p, s, i);
    GenuineBytes(p, s, s.readers[i].seed, Reader(i), s.readers[i].keysMade - 1);
  }

  /**
   In every run the ranges handed out under each key of each instance, in use or long retired,
   tile exactly the positions below what that instance generated under it: each position below
   the total lies in one range and only one, and no other position in any.
   */
  lemma StreamsAreTiled(p: Primitives, seed: seq<byte>, algorithm: string, actions: seq<Action>,
                        owner: Instance, generation: nat, position: nat)
    requires Create(p, seed, algorithm).Ok?
    ensures var s := Reached(p, seed, algorithm, actions);
            && (forall i, j | 0 <= i < |s.log| && 0 <= j < |s.log| ::
                  Within(s.log[i], owner, generation, position) && Within(s.log[j], owner, generation, position) ==>
                    i == j)
            && (position < Generated(s, owner, generation)
                <==> exists i :: 0 <= i < |s.log| && Within(s.log[i], owner, generation, position))
  {
    var s := Reached(p, seed, algorithm, actions);
    RangesCover(s.log, owner, generation, position);
    assert Handed(s.log, owner, generation) == Generated(s, owner, generation);
    forall i, j | 0 <= i < |s.log| && 0 <= j < |s.log| && Within(s.log[i], owner, generation, position)
               && Within(s.log[j], owner, generation, position)
      ensures i == j
    {
      if i != j {
        RangesDisjoint(s.log, i, j, position);
      }
    }
  }

  /** A retired key stays retired with the total it had: no step hands out another byte of its stream. */
  lemma RetiredStaysRetired(p: Primitives, s: State, a: Action, k: StreamId)
    requires Inv(p, s) && Enabled(s, a) && k in s.retired
    ensures var s' := Next(p, s, a);
            && k in s'.retired && s'.retired[k] == s.retired[k]
            && Handed(s'.log, k.owner, k.generation) == Handed(s.log, k.owner, k.generation) == s.retired[k]
  {
    StepKeepsInv(p, s, a);
    RetiredEntryStays(p, s, a, k);
    RetiredTotal(s, k);
    RetiredTotal(Next(p, s, a), k);
  }

  lemma RetiredTotal(s: State, k: StreamId)
    requires RetiredInv(s) && LogInv(s) && k in s.retired
    ensures Handed(s.log, k.owner, k.generation) == s.retired[k]
  {
    assert k == StreamId(k.owner, k.generation);
    assert Handed(s.log, k.owner, k.generation) == Generated(s, k.owner, k.generation);
  }

  lemma RetiredEntryStays(p: Primitives, s: State, a: Action, k: StreamId)
    requires Inv(p, s) && Enabled(s, a) && k in s.retired
    ensures k in Next(p, s, a).retired && Next(p, s, a).retired[k] == s.retired[k]
  {
    if a.InstallKey? {
      RetiredAtInstall(p, s, k);
    } else if a.RekeyChild? || a.CloseReader? {
      RetiredAtTurn(p, s, a, k);
    } else {
      OnlyTurnsRetire(p, s, a);
    }
  }

  lemma OnlyTurnsRetire(p: Primitives, s: State, a: Action)
    requires Inv(p, s) && Enabled(s, a) && !a.InstallKey? && !a.RekeyChild? && !a.CloseReader?
    ensures Next(p, s, a).retired == s.retired
  {
    hide Inv, Next, Enabled;
    if a.Serve? || a.DrawSeed? || a.Start? || a.ObserveEpoch? || a.TakeLock? || a.SnapshotEpoch? || a.Open? {
      ReadersRetireNothing(p, s, a);
    } else {
      OthersRetireNothing(p, s, a);
    }
  }

  lemma ReadersRetireNothing(p: Primitives, s: State, a: Action)
    requires Inv(p, s) && Enabled(s, a)
    requires a.Serve? || a.DrawSeed? || a.Start? || a.ObserveEpoch? || a.TakeLock? || a.SnapshotEpoch? || a.Open?
    ensures Next(p, s, a).retired == s.retired
  {
    hide Inv, Read, NeedsRefresh;
  }

  lemma OthersRetireNothing(p: Primitives, s: State, a: Action)
    requires Inv(p, s) && Enabled(s, a)
    requires || a.BeginReseed? || a.PublishEpoch? || a.ReturnReseed? || a.DirectRead? || a.SpawnOneShot?
             || a.ReadOneShot? || a.NoteReseedFailure? || a.CloseParent?
    ensures Next(p, s, a).retired == s.retired
  {
    hide Inv, Read, Create, Retire;
  }

  lemma RetiredAtInstall(p: Primitives, s: State, k: StreamId)
    requires Inv(p, s) && Enabled(s, InstallKey) && k in s.retired
    ensures k in Next(p, s, InstallKey).retired && Next(p, s, InstallKey).retired[k] == s.retired[k]
  {
    hide ReadersInv, OneShotsInv, LogInv, ServedInv, ParentInv, Rekey;
  }

  lemma RetiredAtTurn(p: Primitives, s: State, a: Action, k: StreamId)
    requires Inv(p, s) && Enabled(s, a) && (a.RekeyChild? || a.CloseReader?) && k in s.retired
    ensures k in Next(p, s, a).retired && Next(p, s, a).retired[k] == s.retired[k]
  {
    hide ReadersInv, OneShotsInv, LogInv, ServedInv, ParentInv, Refresh;
  }

  lemma {:induction false} RetiredForEver(p: Primitives, s: State, actions: seq<Action>, k: StreamId)
    requires Inv(p, s) && k in s.retired
    ensures var s' := Execute(p, s, actions);
            && k in s'.retired && s'.retired[k] == s.retired[k]
            && Handed(s'.log, k.owner, k.generation) == s.retired[k]
  {
    hide Inv, Next, Enabled;
    if actions == [] {
      InvParts(p, s);
      RetiredTotal(s, k);
    } else {
      RetiredForEver(p, s, actions[..|actions| - 1], k);
      var before := Execute(p, s, actions[..|actions| - 1]);
      if Enabled(before, actions[|actions| - 1]) {
        RetiredStaysRetired(p, before, actions[|actions| - 1], k);
      }
    }
  }

  lemma InvParts(p: Primitives, s: State)
    requires Inv(p, s)
    ensures RetiredInv(s) && LogInv(s)
  {
  }

  /** The seed of a live child, if there is such a child. */
  function LiveSeed(s: State, child: Instance): Option<Seed> {
    match child
    case Root => None
    case Reader(i) => if i in s.readers && s.readers[i].conn.child.Some? then Some(s.readers[i].seed) else None
    case OneShot(i) => if i in s.oneShots then Some(s.oneShots[i].seed) else None
  }

  /**
   No two seeds ever drawn in a run, for whatever children, dead or alive, overlap in the parent's
   stream under one key.
   */
  lemma SeedsNeverOverlap(p: Primitives, seed: seq<byte>, algorithm: string, actions: seq<Action>, i: nat, j: nat)
    requires Create(p, seed, algorithm).Ok?
    ensures var log := Reached(p, seed, algorithm, actions).log;
            i < |log| && j < |log| && i != j && log[i].purpose.SeedFor? && log[j].purpose.SeedFor? ==>
              (|| log[i].generation != log[j].generation
               || log[i].start + SEED_BYTES <= log[j].start
               || log[j].start + SEED_BYTES <= log[i].start)
  {
    var log := Reached(p, seed, algorithm, actions).log;
    if i < |log| && j < |log| && i != j {
      RangesDisjoint(log, i, j, if log[i].start < log[j].start then log[j].start else log[i].start);
    }
  }

  /** No two children that exist at the same time were seeded from overlapping stretches of the parent's stream. */
  lemma LiveSeedsDoNotOverlap(p: Primitives, seed: seq<byte>, algorithm: string, actions: seq<Action>,
                              a: Instance, b: Instance)
    requires Create(p, seed, algorithm).Ok? && a != b
    requires var s := Reached(p, seed, algorithm, actions); LiveSeed(s, a).Some? && LiveSeed(s, b).Some?
    ensures var s := Reached(p, seed, algorithm, actions);
            var x, y := LiveSeed(s, a).value, LiveSeed(s, b).value;
            || x.generation != y.generation
            || x.position + SEED_BYTES <= y.position
            || y.position + SEED_BYTES <= x.position
  {
    var s := Reached(p, seed, algorithm, actions);
    var x, y := LiveSeed(s, a).value, LiveSeed(s, b).value;
    LiveSeedIsGenuine(p, s, a);
    LiveSeedIsGenuine(p, s, b);
    RangesDisjoint(s.log, x.entry, y.entry, if x.position < y.position then y.position else x.position);
  }

  lemma LiveSeedIsGenuine(p: Primitives, s: State, child: Instance)
    requires Inv(p, s) && LiveSeed(s, child).Some?
    ensures exists generation :: Genuine(p, s, LiveSeed(s, child).value, child, generation)
  {
    match child
    case Reader(i) =>
      AboutReader(p, s, i);
      assert Genuine(p, s, s.readers[i].seed, child, s.readers[i].keysMade - 1);
    case OneShot(i) =>
      assert OneShotInv(p, s, i, s.oneShots[i]);
  }

  /** Once a reader has decided to serve, its child cannot refuse. */
  lemma ServingNeverFails(p: Primitives, seed: seq<byte>, algorithm: string, actions: seq<Action>, i: nat)
    requires Create(p, seed, algorithm).Ok?
    requires var s := Reached(p, seed, algorithm, actions); i in s.readers && s.readers[i].phase.Serving?
    ensures var r := Reached(p, seed, algorithm, actions).readers[i];
            r.conn.child.Some? && Read(p, r.conn.child.value, r.phase.n).0.Ok?
  {
    ServingHasRoom(p, Reached(p, seed, algorithm, actions), i);
  }

  // ---------------------------------------------------------------- agreement with the sequential read

  ghost function Try(p: Primitives, s: State, a: Action): (r: State)
    requires Inv(p, s)
    ensures Inv(p, r)
  {
    if Enabled(s, a) then StepKeepsInv(p, s, a); Next(p, s, a) else s
  }

  ghost function Decide(p: Primitives, s: State, i: nat, n: nat): (r: State)
    requires Inv(p, s)
    ensures Inv(p, r)
  {
    Try(p, Try(p, s, Start(i, n)), ObserveEpoch(i))
  }

  /** The first half of a fetch: the lock and the seed, or the refusal that ends the read. */
  ghost function Draw(p: Primitives, s: State, i: nat): (r: State)
    requires Inv(p, s)
    ensures Inv(p, r)
  {
    Try(p, Try(p, s, TakeLock(i)), DrawSeed(i))
  }

  ghost function FetchSeed(p: Primitives, s: State, i: nat): (r: State)
    requires Inv(p, s)
    ensures Inv(p, r)
  {
    Try(p, Try(p, Draw(p, s, i), SnapshotEpoch(i)), RekeyChild(i))
  }

  /** The steps of one Read taken without interruption. */
  ghost function Solo(p: Primitives, s: State, i: nat, n: nat): (r: State)
    requires Inv(p, s)
    ensures Inv(p, r)
  {
    Try(p, FetchSeed(p, Decide(p, s, i, n), i), Serve(i))
  }

  lemma SoloDecides(p: Primitives, s: State, i: nat, n: nat)
    requires Inv(p, s) && i in s.readers && s.readers[i].phase.Idle?
    requires Fits(s.readers[i].conn, s.parent)
    ensures var conn := s.readers[i].conn;
            Decide(p, s, i, n) ==
            if conn.closed || n == 0 || n > MAX_BYTES_PER_KEY then
              SetPhase(s, i, Idle(Some(ReadOnce(p, conn, s.parent, n).0)))
            else if NeedsRefresh(conn, s.parent.epoch, n) then SetPhase(s, i, NeedsSeed(n, s.returned))
            else SetPhase(s, i, Serving(n, s.returned))
  {
    hide Inv;
    var s1 := Try(p, s, Start(i, n));
    if s1.readers[i].phase.Started? {
      assert s1 == SetPhase(s, i, Started(n, s.returned));
      var s2 := Try(p, s1, ObserveEpoch(i));
      assert s2.readers == s.readers[i := s2.readers[i]];
    }
  }

  lemma SoloDraws(p: Primitives, s: State, i: nat)
    requires Inv(p, s) && s.lock.Free? && i in s.readers
    requires s.readers[i].phase.Idle? || s.readers[i].phase.Serving? || s.readers[i].phase.NeedsSeed?
    ensures var r, s' := s.readers[i], Draw(p, s, i);
            && i in s'.readers && s'.readers[i].conn == r.conn
            && if !r.phase.NeedsSeed? then s' == s
               else match Read(p, s.parent, SEED_BYTES)
                    case (Err(e), _) =>
                      s'.lock.Free? && s'.parent == s.parent && s'.readers[i] == r.(phase := Idle(Some(Err(e))))
                    case (Ok(seed), parent) =>
                      && s'.parent == parent
                      && s'.readers[i].phase.Drawn? && s'.readers[i].phase.seed.bytes == seed
                      && s'.readers[i].phase.n == r.phase.n && s'.readers[i].phase.floor == r.phase.floor
  {
    hide Inv;
    var s1 := Try(p, s, TakeLock(i));
    assert s1.readers.Keys == s.readers.Keys && s1.readers[i].conn == s.readers[i].conn;
  }

  lemma SoloFetches(p: Primitives, s: State, i: nat)
    requires Inv(p, s) && s.lock.Free? && i in s.readers && Fits(s.readers[i].conn, s.parent)
    requires s.readers[i].phase.Idle? || s.readers[i].phase.Serving? || s.readers[i].phase.NeedsSeed?
    ensures var r, s' := s.readers[i], FetchSeed(p, s, i);
            && s'.lock.Free? && i in s'.readers
            && if !r.phase.NeedsSeed? then s' == s
               else match Read(p, s.parent, SEED_BYTES)
                    case (Err(e), _) => s'.parent == s.parent && s'.readers[i] == r.(phase := Idle(Some(Err(e))))
                    case (Ok(seed), parent) =>
                      && s'.parent == parent
                      && s'.readers[i].conn == Refresh(p, r.conn, s.parent.algorithm, seed, s.parent.epoch)
                      && s'.readers[i].phase == Serving(r.phase.n, r.phase.floor)
  {
    SoloDraws(p, s, i);
    hide Inv, Draw, Read, Sound, Refresh, Try;
    SoloRekeys(p, Draw(p, s, i), i);
  }

  /** The second half of a fetch: the epoch, the lock given back, and the child's new key. */
  lemma SoloRekeys(p: Primitives, s: State, i: nat)
    requires Inv(p, s) && i in s.readers && Fits(s.readers[i].conn, s.parent)
    requires s.readers[i].phase.Idle? || s.readers[i].phase.Serving? || s.readers[i].phase.Drawn?
    ensures var r, s' := s.readers[i], Try(p, Try(p, s, SnapshotEpoch(i)), RekeyChild(i));
            if !r.phase.Drawn? then s' == s
            else
              && s'.lock.Free? && s'.parent == s.parent && i in s'.readers
              && |r.phase.seed.bytes| == SEED_BYTES
              && s'.readers[i].conn
                 == Refresh(p, r.conn, s.parent.algorithm, r.phase.seed.bytes, s.parent.epoch)
              && s'.readers[i].phase == Serving(r.phase.n, r.phase.floor)
  {
    hide Inv, Read, Refresh, ReadersInv, OneShotsInv, LogInv, ServedInv, RetiredInv, Sound;
    if s.readers[i].phase.Drawn? {
      SeedIsWhole(p, s, i);
      var s1 := Try(p, s, SnapshotEpoch(i));
      assert i in s1.readers && s1.readers[i].conn == s.readers[i].conn;
    }
  }

  lemma SeedIsWhole(p: Primitives, s: State, i: nat)
    requires Inv(p, s) && i in s.readers && s.readers[i].phase.Drawn?
    ensures |s.readers[i].phase.seed.bytes| == SEED_BYTES
  {
    hide OneShotsInv, LogInv, ServedInv, RetiredInv, Keystream;
    AboutReader(p, s, i);
  }

  /** Without interference the steps amount to the sequential read of the connection object, down to its answer. */
  lemma SoloIsSequential(p: Primitives, s: State, i: nat, n: nat)
    requires Inv(p, s) && s.lock.Free? && i in s.readers && s.readers[i].phase.Idle?
    ensures Fits(s.readers[i].conn, s.parent)
    ensures var (answer, conn, parent) := ReadOnce(p, s.readers[i].conn, s.parent, n);
            var s' := Solo(p, s, i, n);
            && s'.lock.Free? && i in s'.readers && s'.readers[i].phase == Idle(Some(answer))
            && s'.readers[i].conn == conn && s'.parent == parent
  {
    hide Inv, Decide, FetchSeed, Try, NeedsRefresh, Sound, Read, Refresh;
    FitsReader(p, s, i);
    SoloDecides(p, s, i, n);
    SoloFinishes(p, Decide(p, s, i, n), i);
  }

  /** What is left of a read once it has decided. */
  lemma SoloFinishes(p: Primitives, s: State, i: nat)
    requires Inv(p, s) && s.lock.Free? && i in s.readers && Fits(s.readers[i].conn, s.parent)
    requires s.readers[i].phase.Idle? || s.readers[i].phase.Serving? || s.readers[i].phase.NeedsSeed?
    ensures var r, s' := s.readers[i], Try(p, FetchSeed(p, s, i), Serve(i));
            && s'.lock.Free? && i in s'.readers
            && match r.phase
               case Idle(_) => s' == s
               case Serving(n, _) =>
                 && r.conn.child.Some? && Sound(r.conn.child.value)
                 && var (answer, child) := Read(p, r.conn.child.value, n);
                    && s'.parent == s.parent && s'.readers[i].phase == Idle(Some(answer))
                    && s'.readers[i].conn == r.conn.(child := Some(child))
               case NeedsSeed(n, _) =>
                 match Read(p, s.parent, SEED_BYTES)
                 case (Err(e), _) =>
                   s'.parent == s.parent && s'.readers[i].conn == r.conn && s'.readers[i].phase == Idle(Some(Err(e)))
                 case (Ok(seed), parent) =>
                   var conn := Refresh(p, r.conn, s.parent.algorithm, seed, s.parent.epoch);
                   var (answer, child) := Read(p, conn.child.value, n);
                   && s'.parent == parent && s'.readers[i].phase == Idle(Some(answer))
                   && s'.readers[i].conn == conn.(child := Some(child))
  {
    hide Inv, FetchSeed, Try, Sound, Read, Refresh;
    SoloFetches(p, s, i);
    SoloServes(p, FetchSeed(p, s, i), i);
  }

  lemma SoloServes(p: Primitives, s: State, i: nat)
    requires Inv(p, s) && s.lock.Free? && i in s.readers
    ensures var r, s' := s.readers[i], Try(p, s, Serve(i));
            && s'.lock.Free? && i in s'.readers && s'.parent == s.parent
            && if !r.phase.Serving? then s' == s
               else
                 && r.conn.child.Some? && Sound(r.conn.child.value)
                 && s'.readers[i].conn == r.conn.(child := Some(Read(p, r.conn.child.value, r.phase.n).1))
                 && s'.readers[i].phase == Idle(Some(Read(p, r.conn.child.value, r.phase.n).0))
  {
    hide ReadersInv, OneShotsInv, LogInv, ServedInv, RetiredInv, Genuine, Keystream, Inv;
    if s.readers[i].phase.Serving? {
      ServingHasRoom(p, s, i);
    }
    hide Sound, Read;
  }

  lemma ServingHasRoom(p: Primitives, s: State, i: nat)
    requires Inv(p, s) && i in s.readers && s.readers[i].phase.Serving?
    ensures s.readers[i].conn.child.Some? && Sound(s.readers[i].conn.child.value)
    ensures Read(p, s.readers[i].conn.child.value, s.readers[i].phase.n).0.Ok?
  {
    hide OneShotsInv, LogInv, ServedInv, RetiredInv, Keystream, Genuine;
    AboutReader(p, s, i);
  }

  lemma FitsReader(p: Primitives, s: State, i: nat)
    requires Inv(p, s) && i in s.readers
    ensures Fits(s.readers[i].conn, s.parent)
  {
    AboutReader(p, s, i);
  }
}
