/** Conversation snapshots, keyed by thread, in insertion order. */
module Checkpoints {
  import opened Wire
  import opened Compaction

  datatype Checkpoint = Checkpoint(id: string, threadId: string, messages: seq<Message>, iteration: int)

  /** All checkpoints of a thread, oldest first. */
  function ForThread(cs: seq<Checkpoint>, t: string): seq<Checkpoint> {
    if cs == [] then []
    else if cs[0].threadId == t then [cs[0]] + ForThread(cs[1..], t)
    else ForThread(cs[1..], t)
  }

  function LatestOf(cs: seq<Checkpoint>): Option<Checkpoint> {
    if cs == [] then None else Some(cs[|cs| - 1])
  }

  lemma {:induction false} ForThreadAppend(cs: seq<Checkpoint>, ds: seq<Checkpoint>, t: string)
    ensures ForThread(cs + ds, t) == ForThread(cs, t) + ForThread(ds, t)
  {
    if cs == [] {
      assert cs + ds == ds;
    } else {
      ForThreadAppend(cs[1..], ds, t);
      assert (cs + ds)[1..] == cs[1..] + ds;
    }
  }

  lemma {:induction false} ForThreadOnly(cs: seq<Checkpoint>, t: string)
    ensures forall i :: 0 <= i < |ForThread(cs, t)| ==> ForThread(cs, t)[i].threadId == t
    ensures (forall i :: 0 <= i < |cs| ==> cs[i].threadId == t) ==> ForThread(cs, t) == cs
    ensures (forall i :: 0 <= i < |cs| ==> cs[i].threadId != t) ==> ForThread(cs, t) == []
  {
    if cs != [] { ForThreadOnly(cs[1..], t); }
  }

  // ----- removing

  /** `List.Remove`: without the first element equal to `c`. */
  function RemoveFirst(cs: seq<Checkpoint>, c: Checkpoint): seq<Checkpoint> {
    if cs == [] then [] else if cs[0] == c then cs[1..] else [cs[0]] + RemoveFirst(cs[1..], c)
  }

  /** Removing a thread's oldest checkpoint removes exactly that, whatever else is stored. */
  lemma {:induction false} RemoveOldest(cs: seq<Checkpoint>, t: string, u: string)
    requires ForThread(cs, t) != []
    ensures var cs' := RemoveFirst(cs, ForThread(cs, t)[0]);
      && ForThread(cs', t) == ForThread(cs, t)[1..]
      && (u != t ==> ForThread(cs', u) == ForThread(cs, u))
  {
    ForThreadOnly(cs, t);
    if cs[0].threadId != t {
      RemoveOldest(cs[1..], t, u);
      assert RemoveFirst(cs, ForThread(cs, t)[0])[1..] == RemoveFirst(cs[1..], ForThread(cs, t)[0]);
    }
  }

  /** How many checkpoints a prune takes away. */
  function Excess(count: nat, keep: int): nat { if count > keep then count - keep else 0 }

  class InMemoryCheckpointStore {
    var checkpoints: seq<Checkpoint>

    constructor ()
      ensures checkpoints == []
    {
      checkpoints := [];
    }

    method Save(c: Checkpoint)
      modifies this
      ensures checkpoints == old(checkpoints) + [c]
    {
      checkpoints := checkpoints + [c];
    }

    /** Searches backwards; insertion order decides what is latest. */
    method LoadLatest(t: string) returns (r: Option<Checkpoint>)
      ensures r == LatestOf(ForThread(checkpoints, t))
    {
      var i := |checkpoints|;
      while i > 0
        invariant 0 <= i <= |checkpoints|
        invariant forall j :: i <= j < |checkpoints| ==> checkpoints[j].threadId != t
      {
        i := i - 1;
        if checkpoints[i].threadId == t {
          LatestAt(checkpoints, i, t);
          return Some(checkpoints[i]);
        }
      }
      ForThreadOnly(checkpoints, t);
      return None;
    }

    /** None stands for the out-of-range exception a negative `keep` runs into. */
    method Prune(t: string, keep: int) returns (removed: Option<nat>)
      modifies this
      ensures keep >= 0 ==> removed == Some(Excess(|ForThread(old(checkpoints), t)|, keep))
      ensures keep >= 0 ==>
        ForThread(checkpoints, t) == ForThread(old(checkpoints), t)[Excess(|ForThread(old(checkpoints), t)|, keep)..]
      ensures keep < 0 ==> removed.None? && ForThread(checkpoints, t) == []
      ensures forall u :: u != t ==> ForThread(checkpoints, u) == ForThread(old(checkpoints), u)
    {
      var forThread := ForThread(checkpoints, t);
      var removeCount := Excess(|forThread|, keep);
      var i := 0;
      while i < removeCount
        invariant 0 <= i <= removeCount && i <= |forThread|
        invariant ForThread(checkpoints, t) == forThread[i..]
        invariant forall u :: u != t ==> ForThread(checkpoints, u) == ForThread(old(checkpoints), u)
      {
        if i >= |forThread| { return None; }
        ghost var before := checkpoints;
        assert ForThread(checkpoints, t)[0] == forThread[i];
        checkpoints := RemoveFirst(checkpoints, forThread[i]);
        RemoveOldest(before, t, t);
        forall u | u != t ensures ForThread(checkpoints, u) == ForThread(before, u) { RemoveOldest(before, t, u); }
        i := i + 1;
      }
      return Some(removeCount);
    }
  }

  lemma LatestAt(cs: seq<Checkpoint>, i: nat, t: string)
    requires i < |cs| && cs[i].threadId == t && (forall j :: i < j < |cs| ==> cs[j].threadId != t)
    ensures LatestOf(ForThread(cs, t)) == Some(cs[i])
  {
    assert cs == cs[..i] + ([cs[i]] + cs[i + 1..]);
    ForThreadAppend(cs[..i], [cs[i]] + cs[i + 1..], t);
    ForThreadOnly(cs[i + 1..], t);
    assert ([cs[i]] + cs[i + 1..])[1..] == cs[i + 1..];
  }

  /** Pruning leaves what a resume finds alone exactly when it keeps at least one, or there is nothing. */
  lemma PruneKeepsLatestIff(mine: seq<Checkpoint>, keep: nat)
    ensures LatestOf(mine[Excess(|mine|, keep)..]) == LatestOf(mine) <==> keep >= 1 || mine == []
  {
  }
}
