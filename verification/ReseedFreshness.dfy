/**
 What a reseed and a close mean for everybody else. The key a reseed installs is the digest of
 the old one with the seed it was given, reads that begin after it returned never see an older
 key, and what was closed stays closed.
 */
module ReseedFreshness {
  import opened Common
  import opened Generators
  import opened Connections
  import opened Ledger
  import opened ReseedProtocol

  // ---------------------------------------------------------------- the parent's keys

  /** A reseed with that seed is among the actions. */
  predicate Asked(actions: seq<Action>, seed: seq<byte>) {
    BeginReseed(seed) in actions
  }

  /** A parent key is the digest of the one before it and a seed some reseed was called with. */
  ghost predicate FromReseed(p: Primitives, keys: seq<Keys>, g: nat, actions: seq<Action>)
    requires 0 < g < |keys|
  {
    exists seed ::
      && Asked(actions, seed) && |seed| >= 32
      && keys[g].key == p.sha512(keys[g - 1].key + seed)[..32]
      && keys[g].nonce == p.sha512(keys[g - 1].key + seed)[32..48]
  }

  ghost predicate ParentKeys(p: Primitives, s: State, actions: seq<Action>) {
    && (s.lock.HeldByReseed? && s.lock.stage.Entered? ==> Asked(actions, s.lock.stage.seed))
    && forall g :: 0 < g < |s.keys| ==> FromReseed(p, s.keys, g, actions)
  }

  /** A reseed waiting in the lock has just been called, and the keys are as they were. */
  ghost predicate NoNewKey(s: State, s': State, a: Action) {
    && s'.keys == s.keys
    && (s'.lock.HeldByReseed? && s'.lock.stage.Entered? ==> s'.lock == s.lock || a == BeginReseed(s'.lock.stage.seed))
  }

  /** The new key: the digest of the old one and the reseed's own bytes. */
  ghost predicate NewKey(p: Primitives, s: State, s': State) {
    && s.lock.HeldByReseed? && s.lock.stage.Entered? && |s.lock.stage.seed| >= 32 && !s.parent.closed
    && |s.keys| > 0 && |s'.keys| == |s.keys| + 1 && s.keys <= s'.keys
    && s'.lock == HeldByReseed(Installed)
    && var h := p.sha512(s.keys[|s.keys| - 1].key + s.lock.stage.seed);
       s'.keys[|s.keys|] == Keys(h[..32], h[32..48])
  }

  lemma InstallIs(p: Primitives, s: State)
    requires Inv(p, s) && Enabled(s, InstallKey)
    ensures s.lock.HeldByReseed? && s.lock.stage.Entered?
    ensures var s' := Next(p, s, InstallKey);
            if s.parent.closed || |s.lock.stage.seed| < 32 then s' == s.(lock := Free)
            else
              && NewKey(p, s, s')
              && s'.parent.key == p.sha512(s.parent.key + s.lock.stage.seed)[..32]
              && s'.parent.nonce == p.sha512(s.parent.key + s.lock.stage.seed)[32..48]
              && s'.parent.generated == 0 && !s'.parent.closed && s'.parent.epoch == s.parent.epoch
              && s'.parent.reseeds == s.parent.reseeds + 1 && s'.parent.lastError == None
              && s'.parent.failures == s.parent.failures && s'.parent.algorithm == s.parent.algorithm
              && s'.readers == s.readers && s'.oneShots == s.oneShots && s'.returned == s.returned
  {
    hide ReadersInv, OneShotsInv, LogInv, ServedInv, RetiredInv;
    KeysAreDigests(p, s.parent, s.lock.stage.seed, s.parent.algorithm);
    hide Rekey;
  }

  lemma OnlyInstallsAddKeys(p: Primitives, s: State, a: Action)
    requires Inv(p, s) && Enabled(s, a) && !a.InstallKey?
    ensures NoNewKey(s, Next(p, s, a), a)
  {
    hide Inv, Next, NoNewKey;
    if a.RekeyChild? || a.CloseReader? {
      TurnsAddNoParentKey(p, s, a);
    } else {
      OthersAddNoParentKey(p, s, a);
    }
  }

  lemma TurnsAddNoParentKey(p: Primitives, s: State, a: Action)
    requires Inv(p, s) && Enabled(s, a) && (a.RekeyChild? || a.CloseReader?)
    ensures NoNewKey(s, Next(p, s, a), a)
  {
    hide Inv, Refresh;
  }

  lemma OthersAddNoParentKey(p: Primitives, s: State, a: Action)
    requires Inv(p, s) && Enabled(s, a) && !a.InstallKey? && !a.RekeyChild? && !a.CloseReader?
    ensures NoNewKey(s, Next(p, s, a), a)
  {
    hide Inv, Read, NeedsRefresh, Refresh, Create, Retire, RetireChild;
  }

  lemma KeysStayAsked(p: Primitives, s: State, s': State, actions: seq<Action>, a: Action)
    requires ParentKeys(p, s, actions) && NoNewKey(s, s', a)
    ensures ParentKeys(p, s', actions + [a])
  {
    forall g | 0 < g < |s'.keys| ensures FromReseed(p, s'.keys, g, actions + [a]) {
      KeyStaysAsked(p, s.keys, s'.keys, g, actions, a);
    }
  }

  lemma KeyStaysAsked(p: Primitives, keys: seq<Keys>, keys': seq<Keys>, g: nat, actions: seq<Action>, a: Action)
    requires 0 < g < |keys| && keys <= keys' && FromReseed(p, keys, g, actions)
    ensures FromReseed(p, keys', g, actions + [a])
  {
    var seed :|
      && Asked(actions, seed) && |seed| >= 32
      && keys[g].key == p.sha512(keys[g - 1].key + seed)[..32]
      && keys[g].nonce == p.sha512(keys[g - 1].key + seed)[32..48];
    assert Asked(actions + [a], seed);
  }

  lemma KeyIsAsked(p: Primitives, s: State, s': State, actions: seq<Action>)
    requires ParentKeys(p, s, actions) && NewKey(p, s, s')
    ensures ParentKeys(p, s', actions + [InstallKey])
  {
    var seed := s.lock.stage.seed;
    assert Asked(actions + [InstallKey], seed);
    forall g | 0 < g < |s'.keys| ensures FromReseed(p, s'.keys, g, actions + [InstallKey]) {
      if g < |s.keys| {
        KeyStaysAsked(p, s.keys, s'.keys, g, actions, InstallKey);
      } else {
        assert s'.keys[g - 1] == s.keys[g - 1];
      }
    }
  }

  lemma {:induction false} ParentKeysOfRun(p: Primitives, seed: seq<byte>, algorithm: string, actions: seq<Action>)
    requires Create(p, seed, algorithm).Ok?
    ensures ParentKeys(p, Reached(p, seed, algorithm, actions), actions)
  {
    hide Inv, Next, Enabled, ParentKeys, NoNewKey, NewKey;
    if actions == [] {
      NoKeysYet(p, Create(p, seed, algorithm).value);
    } else {
      var a, earlier := actions[|actions| - 1], actions[..|actions| - 1];
      var before := Reached(p, seed, algorithm, earlier);
      ParentKeysOfRun(p, seed, algorithm, earlier);
      assert earlier + [a] == actions;
      StepKeepsParentKeys(p, before, earlier, a);
    }
  }

  lemma NoKeysYet(p: Primitives, parent: Gen)
    ensures ParentKeys(p, Initial(parent), [])
  {
  }

  lemma StepKeepsParentKeys(p: Primitives, s: State, actions: seq<Action>, a: Action)
    requires Inv(p, s) && ParentKeys(p, s, actions)
    ensures ParentKeys(p, if Enabled(s, a) then Next(p, s, a) else s, actions + [a])
  {
    hide Inv, Next, Enabled, ParentKeys, NewKey;
    if !Enabled(s, a) {
      KeysStayAsked(p, s, s, actions, a);
    } else if !a.InstallKey? {
      OnlyInstallsAddKeys(p, s, a);
      KeysStayAsked(p, s, Next(p, s, a), actions, a);
    } else {
      InstallIs(p, s);
      if s.parent.closed || |s.lock.stage.seed| < 32 {
        KeysStayAsked(p, s, Next(p, s, a), actions, a);
      } else {
        KeyIsAsked(p, s, Next(p, s, a), actions);
      }
    }
  }

  /**
   In every run the parent's keys form a chain: the first is the digest of its own seed, each later
   one the digest of the key before it and the bytes some reseed of the run was called with.
   */
  lemma ParentKeysAreDerived(p: Primitives, seed: seq<byte>, algorithm: string, actions: seq<Action>, g: nat)
    requires Create(p, seed, algorithm).Ok?
    requires 0 < g < |Reached(p, seed, algorithm, actions).keys|
    ensures var keys := Reached(p, seed, algorithm, actions).keys;
            exists k :: 0 <= k < |actions| && actions[k].BeginReseed? && |actions[k].seed| >= 32
                        && keys[g].key == p.sha512(keys[g - 1].key + actions[k].seed)[..32]
                        && keys[g].nonce == p.sha512(keys[g - 1].key + actions[k].seed)[32..48]
  {
    hide Inv, Reached;
    ParentKeysOfRun(p, seed, algorithm, actions);
    var keys := Reached(p, seed, algorithm, actions).keys;
    assert FromReseed(p, keys, g, actions);
    var x :|
      && Asked(actions, x) && |x| >= 32
      && keys[g].key == p.sha512(keys[g - 1].key + x)[..32]
      && keys[g].nonce == p.sha512(keys[g - 1].key + x)[32..48];
    var k :| 0 <= k < |actions| && actions[k] == BeginReseed(x);
  }

  // ---------------------------------------------------------------- freshness

  /** From here on reader i is served nothing older than g, counting from the reads served so far. */
  ghost predicate FreshFrom(s: State, i: nat, count: nat, g: int) {
    && s.returned >= g
    && (i in s.readers && !s.readers[i].phase.Idle? ==> s.readers[i].phase.floor >= g)
    && count <= |s.served|
    && forall k :: count <= k < |s.served| && s.served[k].reader == i ==> s.served[k].floor >= g
  }

  lemma StepKeepsFresh(p: Primitives, s: State, a: Action, i: nat, count: nat, g: int)
    requires Inv(p, s) && Enabled(s, a) && FreshFrom(s, i, count, g)
    ensures FreshFrom(Next(p, s, a), i, count, g)
  {
    hide Inv, Next, FreshFrom;
    if a.RekeyChild? || a.CloseReader? || a.ReturnReseed? {
      TurnsKeepFresh(p, s, a, i, count, g);
    } else {
      OthersKeepFresh(p, s, a, i, count, g);
    }
  }

  lemma TurnsKeepFresh(p: Primitives, s: State, a: Action, i: nat, count: nat, g: int)
    requires Inv(p, s) && Enabled(s, a) && FreshFrom(s, i, count, g)
    requires a.RekeyChild? || a.CloseReader? || a.ReturnReseed?
    ensures FreshFrom(Next(p, s, a), i, count, g)
  {
    hide Inv, Refresh;
    ReturnIsLater(p, s);
  }

  lemma ReturnIsLater(p: Primitives, s: State)
    requires Inv(p, s)
    ensures s.returned <= Newest(s)
  {
    hide ReadersInv, OneShotsInv, LogInv, ServedInv, RetiredInv;
  }

  lemma OthersKeepFresh(p: Primitives, s: State, a: Action, i: nat, count: nat, g: int)
    requires Inv(p, s) && Enabled(s, a) && FreshFrom(s, i, count, g)
    requires !a.RekeyChild? && !a.CloseReader? && !a.ReturnReseed?
    ensures FreshFrom(Next(p, s, a), i, count, g)
  {
    hide Inv, Next, Enabled, FreshFrom;
    if a.Serve? {
      ServeKeepsFresh(p, s, a.i, i, count, g);
    } else if IsReaderStep(a) {
      ReadersKeepFresh(p, s, a, i, count, g);
    } else {
      ParentKeepsFresh(p, s, a, i, count, g);
    }
  }

  predicate IsReaderStep(a: Action) {
    a.Open? || a.Start? || a.ObserveEpoch? || a.TakeLock? || a.DrawSeed? || a.SnapshotEpoch?
  }

  lemma ServeKeepsFresh(p: Primitives, s: State, j: nat, i: nat, count: nat, g: int)
    requires Inv(p, s) && Enabled(s, Serve(j)) && FreshFrom(s, i, count, g)
    ensures FreshFrom(Next(p, s, Serve(j)), i, count, g)
  {
    hide Inv, Read;
  }

  lemma ReadersKeepFresh(p: Primitives, s: State, a: Action, i: nat, count: nat, g: int)
    requires Inv(p, s) && Enabled(s, a) && FreshFrom(s, i, count, g) && IsReaderStep(a)
    ensures FreshFrom(Next(p, s, a), i, count, g)
  {
    hide Inv, Read, NeedsRefresh;
  }

  lemma ParentKeepsFresh(p: Primitives, s: State, a: Action, i: nat, count: nat, g: int)
    requires Inv(p, s) && Enabled(s, a) && FreshFrom(s, i, count, g)
    requires a.BeginReseed? || a.InstallKey? || a.PublishEpoch? || a.DirectRead? || a.SpawnOneShot?
             || a.ReadOneShot? || a.NoteReseedFailure? || a.CloseParent?
    ensures FreshFrom(Next(p, s, a), i, count, g)
  {
    hide Inv, Read, Create, Rekey, Retire;
  }

  lemma {:induction false} RunKeepsFresh(p: Primitives, s: State, actions: seq<Action>, i: nat, count: nat, g: int)
    requires Inv(p, s) && FreshFrom(s, i, count, g)
    ensures FreshFrom(Execute(p, s, actions), i, count, g)
  {
    hide Inv, Next, Enabled, FreshFrom;
    if actions != [] {
      var a := actions[|actions| - 1];
      var before := Execute(p, s, actions[..|actions| - 1]);
      RunKeepsFresh(p, s, actions[..|actions| - 1], i, count, g);
      if Enabled(before, a) {
        StepKeepsFresh(p, before, a, i, count, g);
      }
    }
  }

  /**
   Whatever has happened and whatever follows, a read that has not begun yet is served under the
   newest key the parent has now, unless a reseed is just installing that key and has not returned;
   then under that key or the one before it, and in either case no older one.
   */
  lemma LaterReadsAreFresh(p: Primitives, seed: seq<byte>, algorithm: string, past: seq<Action>, future: seq<Action>,
                           i: nat, k: nat)
    requires Create(p, seed, algorithm).Ok?
    requires var s := Reached(p, seed, algorithm, past);
             && (i in s.readers ==> s.readers[i].phase.Idle?)
             && |s.served| <= k < |Execute(p, s, future).served|
             && Execute(p, s, future).served[k].reader == i
    ensures var s := Reached(p, seed, algorithm, past);
            var returning := s.lock == HeldByReseed(Installed) || s.lock == HeldByReseed(Published);
            Execute(p, s, future).served[k].Generation() >= |s.keys| - 1 - (if returning then 1 else 0)
  {
    hide *;
    var s := Reached(p, seed, algorithm, past);
    StartsFresh(p, s, i);
    RunKeepsFresh(p, s, future, i, |s.served|, s.returned);
    ServedAbove(p, Execute(p, s, future), i, |s.served|, s.returned, k);
  }

  lemma StartsFresh(p: Primitives, s: State, i: nat)
    requires Inv(p, s) && (i in s.readers ==> s.readers[i].phase.Idle?)
    ensures FreshFrom(s, i, |s.served|, s.returned)
    ensures s.returned == |s.keys| - 1 - (if s.lock == HeldByReseed(Installed) || s.lock == HeldByReseed(Published)
                                          then 1 else 0)
  {
    hide ReadersInv, OneShotsInv, LogInv, ServedInv, RetiredInv;
  }

  lemma ServedAbove(p: Primitives, s: State, i: nat, count: nat, g: int, k: nat)
    requires Inv(p, s) && FreshFrom(s, i, count, g) && count <= k < |s.served| && s.served[k].reader == i
    ensures s.served[k].Generation() >= g
  {
    hide ParentInv, ReadersInv, OneShotsInv, LogInv, RetiredInv, Authentic;
  }

  // ---------------------------------------------------------------- a reseed by itself

  /** The parent after a whole reseed call that nobody interrupts, and nothing else but the lock and the marks. */
  lemma SoloReseedIsReseed(p: Primitives, s: State, seed: seq<byte>)
    requires Inv(p, s) && s.lock.Free?
    ensures var s' := SoloReseed(p, s, seed);
            && s'.lock.Free? && s'.readers == s.readers && s'.oneShots == s.oneShots && s'.served == s.served
            && s'.log == s.log
            && s'.parent == Rekey(p, s.parent, seed).1
            && if s.parent.closed || |seed| < 32 then s'.parent == s.parent && s'.keys == s.keys
               else
                 && s'.keys == s.keys + [Keys(s'.parent.key, s'.parent.nonce)] && s'.returned == |s.keys|
                 && s'.parent.key == p.sha512(s.parent.key + seed)[..32]
                 && s'.parent.nonce == p.sha512(s.parent.key + seed)[32..48]
                 && s'.parent.generated == 0 && s'.parent.epoch == s.parent.epoch + 1
  {
    hide Inv, Sound;
    ParentIsSound(p, s);
    KeysAreDigests(p, s.parent, seed, s.parent.algorithm);
  }

  lemma ParentIsSound(p: Primitives, s: State)
    requires Inv(p, s)
    ensures Sound(s.parent)
  {
    hide ReadersInv, OneShotsInv, LogInv, ServedInv, RetiredInv;
  }

  ghost function SoloReseed(p: Primitives, s: State, seed: seq<byte>): (r: State)
    requires Inv(p, s)
    ensures Inv(p, r)
  {
    Try(p, Try(p, Try(p, Try(p, s, BeginReseed(seed)), InstallKey), PublishEpoch), ReturnReseed)
  }

  // ---------------------------------------------------------------- closing

  ghost predicate ReaderClosed(s: State, i: nat, count: nat) {
    && i in s.readers && s.readers[i].conn.closed && s.readers[i].conn.child == None && s.readers[i].phase.Idle?
    && count <= |s.served| && forall k :: count <= k < |s.served| ==> s.served[k].reader != i
  }

  lemma StepKeepsClosed(p: Primitives, s: State, a: Action, i: nat, count: nat)
    requires Inv(p, s) && Enabled(s, a) && ReaderClosed(s, i, count)
    ensures ReaderClosed(Next(p, s, a), i, count)
    ensures a.Start? && a.i == i ==> Next(p, s, a).readers[i].phase == Idle(Some(Err(ClosedPipe)))
  {
    hide Inv, Next, Enabled, ReaderClosed;
    if a.Serve? || a.RekeyChild? || a.CloseReader? {
      LateStepsKeepClosed(p, s, a, i, count);
    } else {
      OthersKeepClosed(p, s, a, i, count);
    }
  }

  lemma LateStepsKeepClosed(p: Primitives, s: State, a: Action, i: nat, count: nat)
    requires Inv(p, s) && Enabled(s, a) && ReaderClosed(s, i, count) && (a.Serve? || a.RekeyChild? || a.CloseReader?)
    ensures ReaderClosed(Next(p, s, a), i, count)
  {
    hide Inv, Read, Refresh;
  }

  lemma OthersKeepClosed(p: Primitives, s: State, a: Action, i: nat, count: nat)
    requires Inv(p, s) && Enabled(s, a) && ReaderClosed(s, i, count) && !a.Serve? && !a.RekeyChild? && !a.CloseReader?
    ensures ReaderClosed(Next(p, s, a), i, count)
    ensures a.Start? && a.i == i ==> Next(p, s, a).readers[i].phase == Idle(Some(Err(ClosedPipe)))
  {
    hide Inv, Read, NeedsRefresh, Create, Rekey, Retire;
  }

  lemma CloseIsClosed(p: Primitives, s: State, i: nat)
    requires Inv(p, s) && Enabled(s, CloseReader(i))
    ensures ReaderClosed(Next(p, s, CloseReader(i)), i, |s.served|)
  {
    hide Inv;
  }

  /** A closed connection stays closed, has no child, is served nothing, and answers every read as closed. */
  lemma {:induction false} ClosedForEver(p: Primitives, s: State, i: nat, actions: seq<Action>)
    requires Inv(p, s) && Enabled(s, CloseReader(i))
    ensures var closed := Next(p, s, CloseReader(i));
            && Inv(p, closed)
            && var s' := Execute(p, closed, actions);
               && ReaderClosed(s', i, |s.served|)
               && (actions != [] && actions[|actions| - 1].Start? && actions[|actions| - 1].i == i ==>
                     s'.readers[i].phase == Idle(Some(Err(ClosedPipe))))
  {
    hide Inv, Next, Enabled, ReaderClosed;
    StepKeepsInv(p, s, CloseReader(i));
    CloseIsClosed(p, s, i);
    if actions != [] {
      ClosedForEver(p, s, i, actions[..|actions| - 1]);
      var before := Execute(p, Next(p, s, CloseReader(i)), actions[..|actions| - 1]);
      var a := actions[|actions| - 1];
      if Enabled(before, a) {
        StepKeepsClosed(p, before, a, i, |s.served|);
      } else {
        IdleCanStart(before, a, i, |s.served|);
      }
    }
  }

  lemma IdleCanStart(s: State, a: Action, i: nat, count: nat)
    requires ReaderClosed(s, i, count) && !Enabled(s, a)
    ensures !(a.Start? && a.i == i)
  {
  }

  ghost predicate ParentClosed(s: State, keys: seq<Keys>, log: seq<Range<Instance, Purpose>>) {
    && s.parent.closed && s.keys == keys && log <= s.log
    && forall k :: |log| <= k < |s.log| ==> s.log[k].owner != Root
  }

  lemma StepKeepsParentClosed(p: Primitives, s: State, a: Action, keys: seq<Keys>, log: seq<Range<Instance, Purpose>>)
    requires Inv(p, s) && Enabled(s, a) && ParentClosed(s, keys, log)
    ensures ParentClosed(Next(p, s, a), keys, log)
  {
    hide Inv, Next, Enabled, ParentClosed;
    if a.InstallKey? || a.CloseParent? || a.DirectRead? || a.DrawSeed? || a.SpawnOneShot? {
      ClosedParentRefuses(p, s, a, keys, log);
    } else {
      OthersLeaveParentClosed(p, s, a, keys, log);
    }
  }

  lemma ClosedParentRefuses(p: Primitives, s: State, a: Action, keys: seq<Keys>, log: seq<Range<Instance, Purpose>>)
    requires Inv(p, s) && Enabled(s, a) && ParentClosed(s, keys, log)
    requires a.InstallKey? || a.CloseParent? || a.DirectRead? || a.DrawSeed? || a.SpawnOneShot?
    ensures ParentClosed(Next(p, s, a), keys, log)
  {
    hide ReadersInv, OneShotsInv, LogInv, ServedInv, RetiredInv, Sound, Create, Keystream;
  }

  lemma OthersLeaveParentClosed(p: Primitives, s: State, a: Action, keys: seq<Keys>,
                                log: seq<Range<Instance, Purpose>>)
    requires Inv(p, s) && Enabled(s, a) && ParentClosed(s, keys, log)
    requires !(a.InstallKey? || a.CloseParent? || a.DirectRead? || a.DrawSeed? || a.SpawnOneShot?)
    ensures ParentClosed(Next(p, s, a), keys, log)
  {
    hide Inv, Read, NeedsRefresh, Refresh;
  }

  lemma CloseParentCloses(p: Primitives, s: State)
    requires Inv(p, s) && Enabled(s, CloseParent)
    ensures ParentClosed(Next(p, s, CloseParent), s.keys, s.log)
  {
    hide Inv;
  }

  /** Once the parent is closed no reseed gives it a key and not one more byte of any of its streams is handed out. */
  lemma {:induction false} ParentClosedForEver(p: Primitives, s: State, actions: seq<Action>)
    requires Inv(p, s) && Enabled(s, CloseParent)
    ensures var closed := Next(p, s, CloseParent);
            && Inv(p, closed)
            && var s' := Execute(p, closed, actions);
               && s'.parent.closed && s'.keys == s.keys && s.log <= s'.log
               && forall k :: |s.log| <= k < |s'.log| ==> s'.log[k].owner != Root
  {
    hide Inv, Next, Enabled;
    StepKeepsInv(p, s, CloseParent);
    RunKeepsParentClosed(p, s, actions);
  }

  lemma {:induction false} RunKeepsParentClosed(p: Primitives, s: State, actions: seq<Action>)
    requires Inv(p, s) && Enabled(s, CloseParent) && Inv(p, Next(p, s, CloseParent))
    ensures ParentClosed(Execute(p, Next(p, s, CloseParent), actions), s.keys, s.log)
  {
    hide Inv, Next, Enabled, ParentClosed;
    CloseParentCloses(p, s);
    if actions != [] {
      RunKeepsParentClosed(p, s, actions[..|actions| - 1]);
      var before := Execute(p, Next(p, s, CloseParent), actions[..|actions| - 1]);
      if Enabled(before, actions[|actions| - 1]) {
        StepKeepsParentClosed(p, before, actions[|actions| - 1], s.keys, s.log);
      }
    }
  }
}
