/** A log of stream ranges in the order they were handed out, by owner and key generation. */
module Ledger {

  datatype Range<O, P> = Range(owner: O, generation: nat, start: nat, length: nat, purpose: P)

  /** How many bytes of one key of one owner the log hands out. */
  ghost function Handed<O, P>(log: seq<Range<O, P>>, owner: O, generation: nat): nat {
    if log == [] then 0
    else
      var last := log[|log| - 1];
      Handed(log[..|log| - 1], owner, generation)
      + if last.owner == owner && last.generation == generation then last.length else 0
  }

  /** Every range starts where its key had got to. */
  ghost predicate Contiguous<O, P>(log: seq<Range<O, P>>) {
    forall i :: 0 <= i < |log| ==> log[i].start == Handed(log[..i], log[i].owner, log[i].generation)
  }

  lemma Append<O, P>(log: seq<Range<O, P>>, r: Range<O, P>)
    requires Contiguous(log) && r.start == Handed(log, r.owner, r.generation)
    ensures Contiguous(log + [r])
    ensures forall o, g :: Handed(log + [r], o, g)
                        == Handed(log, o, g) + if r.owner == o && r.generation == g then r.length else 0
  {
    var log' := log + [r];
    assert log'[..|log|] == log;
    forall i | 0 <= i < |log'| ensures log'[i].start == Handed(log'[..i], log'[i].owner, log'[i].generation) {
      if i < |log| {
        assert log'[..i] == log[..i];
      }
    }
  }

  lemma {:induction false} HandedGrows<O, P>(log: seq<Range<O, P>>, i: nat, owner: O, generation: nat)
    requires i <= |log|
    ensures Handed(log[..i], owner, generation) <= Handed(log, owner, generation)
    decreases |log|
  {
    if i < |log| {
      HandedGrows(log[..|log| - 1], i, owner, generation);
      assert log[..|log| - 1][..i] == log[..i];
    } else {
      assert log[..i] == log;
    }
  }

  predicate Within<O(==), P>(r: Range<O, P>, owner: O, generation: nat, position: nat) {
    r.owner == owner && r.generation == generation && r.start <= position < r.start + r.length
  }

  /** No stream position is handed out twice. */
  lemma RangesDisjoint<O, P>(log: seq<Range<O, P>>, i: nat, j: nat, position: nat)
    requires Contiguous(log) && i < |log| && j < |log| && i != j
    ensures !(Within(log[i], log[j].owner, log[j].generation, position)
              && Within(log[j], log[j].owner, log[j].generation, position))
  {
    var a, b := if i < j then i else j, if i < j then j else i;
    assert log[..a + 1][..a] == log[..a];
    assert log[..b][..a + 1] == log[..a + 1];
    HandedGrows(log[..b], a + 1, log[a].owner, log[a].generation);
  }

  /** Every position below the total is handed out, and none above it. */
  lemma {:induction false} RangesCover<O, P>(log: seq<Range<O, P>>, owner: O, generation: nat, position: nat)
    requires Contiguous(log)
    ensures position < Handed(log, owner, generation)
       <==> exists i :: 0 <= i < |log| && Within(log[i], owner, generation, position)
  {
    if log != [] {
      var last := |log| - 1;
      var shorter := log[..last];
      assert forall i :: 0 <= i < last ==> log[..i] == shorter[..i] && log[i] == shorter[i];
      RangesCover(shorter, owner, generation, position);
      if Within(log[last], owner, generation, position) {
        assert position < Handed(log, owner, generation);
      } else if position < Handed(log, owner, generation) {
        assert position < Handed(shorter, owner, generation);
        var i :| 0 <= i < last && Within(shorter[i], owner, generation, position);
        assert Within(log[i], owner, generation, position);
      } else {
        forall i | 0 <= i < |log| ensures !Within(log[i], owner, generation, position) {
          if i < last {
            assert !Within(shorter[i], owner, generation, position);
          }
        }
      }
    }
  }
}
