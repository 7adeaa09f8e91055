/**
 * The channels that connect proposers and acceptors, as FIFO queues.
 * Each acceptor reads one prepare channel and one accept channel; each
 * proposer round owns one reply channel. A send appends to a queue, a
 * receive takes its head. Buffer capacities and blocking are not modelled:
 * a send that would block is one the caller chooses to let time out.
 */
module Transport {
  import opened Messages

  /** Queue `c` of `qs` with `m` appended; every other queue unchanged. */
  function Push<T>(qs: seq<seq<T>>, c: nat, m: T): (r: seq<seq<T>>)
    requires c < |qs|
    ensures |r| == |qs|
    ensures r[c] == qs[c] + [m]
    ensures forall d :: 0 <= d < |qs| && d != c ==> r[d] == qs[d]
  {
    qs[c := qs[c] + [m]]
  }

  /** The sequence holding `m` exactly `k` times. */
  function Repeat<T>(m: T, k: nat): (r: seq<T>)
    ensures |r| == k
    ensures forall i :: 0 <= i < k ==> r[i] == m
  {
    if k == 0 then [] else Repeat(m, k - 1) + [m]
  }

  /** Every target named in `targets` is a queue of `qs`. */
  predicate TargetsIn<T>(qs: seq<seq<T>>, targets: seq<nat>)
  {
    forall i :: 0 <= i < |targets| ==> targets[i] < |qs|
  }

  /**
   * The queues after offering `m` to each target in index order, where the
   * send to the target at position i is skipped (it timed out) exactly when
   * i is in `skipped`.
   */
  function Broadcast<T>(qs: seq<seq<T>>, targets: seq<nat>, skipped: set<nat>, m: T): (r: seq<seq<T>>)
    requires TargetsIn(qs, targets)
    ensures |r| == |qs|
    decreases |targets|
  {
    if |targets| == 0 then qs
    else
      var last := |targets| - 1;
      var prev := Broadcast(qs, targets[..last], skipped, m);
      if last in skipped then prev else Push(prev, targets[last], m)
  }

  /** How many sends of a broadcast over `targets` reach queue `c`. */
  function Hits(targets: seq<nat>, skipped: set<nat>, c: nat): nat
    decreases |targets|
  {
    if |targets| == 0 then 0
    else
      var last := |targets| - 1;
      Hits(targets[..last], skipped, c)
      + (if last !in skipped && targets[last] == c then 1 else 0)
  }

  /** A broadcast appends `m` to queue `c` once per send that reaches it, and nothing else. */
  lemma {:induction false} BroadcastQueue<T>(qs: seq<seq<T>>, targets: seq<nat>, skipped: set<nat>, m: T, c: nat)
    requires TargetsIn(qs, targets)
    requires c < |qs|
    ensures Broadcast(qs, targets, skipped, m)[c] == qs[c] + Repeat(m, Hits(targets, skipped, c))
    decreases |targets|
  {
    if |targets| > 0 {
      var last := |targets| - 1;
      BroadcastQueue(qs, targets[..last], skipped, m, c);
    }
  }

  predicate Distinct(targets: seq<nat>)
  {
    forall i, j :: 0 <= i < j < |targets| ==> targets[i] != targets[j]
  }

  /**
   * Over distinct targets, a broadcast reaches a queue at most once, and it
   * reaches it exactly when some position not skipped names it.
   */
  lemma {:induction false} HitsDistinct(targets: seq<nat>, skipped: set<nat>, c: nat)
    requires Distinct(targets)
    ensures Hits(targets, skipped, c) <= 1
    ensures Hits(targets, skipped, c) == 1
        <==> exists i :: 0 <= i < |targets| && i !in skipped && targets[i] == c
    decreases |targets|
  {
    if |targets| > 0 {
      var last := |targets| - 1;
      var init := targets[..last];
      HitsDistinct(init, skipped, c);
      if last !in skipped && targets[last] == c {
        // c occurs nowhere earlier, so the earlier sends never reached it
        assert forall i :: 0 <= i < |init| ==> init[i] != c;
      } else {
        if exists i :: 0 <= i < |targets| && i !in skipped && targets[i] == c {
          var i :| 0 <= i < |targets| && i !in skipped && targets[i] == c;
          assert i < last && init[i] == c;
        }
      }
    }
  }

  /**
   * Over distinct targets, a broadcast appends `m` once to each queue named
   * at a position whose send did not time out, and leaves every other queue
   * as it was.
   */
  lemma BroadcastDistinct<T>(qs: seq<seq<T>>, targets: seq<nat>, skipped: set<nat>, m: T)
    requires TargetsIn(qs, targets) && Distinct(targets)
    ensures forall c :: 0 <= c < |qs| ==>
      Broadcast(qs, targets, skipped, m)[c]
        == qs[c] + (if exists i :: 0 <= i < |targets| && i !in skipped && targets[i] == c then [m] else [])
  {
    forall c | 0 <= c < |qs|
      ensures Broadcast(qs, targets, skipped, m)[c]
        == qs[c] + (if exists i :: 0 <= i < |targets| && i !in skipped && targets[i] == c then [m] else [])
    {
      BroadcastQueue(qs, targets, skipped, m, c);
      HitsDistinct(targets, skipped, c);
      assert Repeat(m, 0) == [];
      assert Repeat(m, 1) == [m];
    }
  }

  /**
   * The channels of a running system. `Valid` says that every pending
   * prepare request names a reply channel that exists: reply channels are
   * only ever created, never destroyed, and a round names its own.
   */
  class Network {
    var prepareQueues: seq<seq<PrepareRequest>>
    var acceptQueues: seq<seq<AcceptRequest>>
    var replyQueues: seq<seq<PrepareResponse>>

    ghost predicate Valid()
      reads this
    {
      forall c, k :: 0 <= c < |prepareQueues| && 0 <= k < |prepareQueues[c]| ==>
        prepareQueues[c][k].replyTo < |replyQueues|
    }

    /** `acceptors` prepare channels and as many accept channels, all empty; no reply channel yet. */
    constructor (acceptors: nat)
      ensures Valid()
      ensures |prepareQueues| == acceptors && forall c :: 0 <= c < acceptors ==> prepareQueues[c] == []
      ensures |acceptQueues| == acceptors && forall c :: 0 <= c < acceptors ==> acceptQueues[c] == []
      ensures replyQueues == []
    {
      prepareQueues := Repeat([], acceptors);
      acceptQueues := Repeat([], acceptors);
      replyQueues := [];
    }

    /** Makes a fresh, empty reply channel and returns its identifier. */
    method NewReplyChannel() returns (ch: ChannelId)
      requires Valid()
      modifies this
      ensures Valid()
      ensures ch == |old(replyQueues)|
      ensures replyQueues == old(replyQueues) + [[]]
      ensures prepareQueues == old(prepareQueues) && acceptQueues == old(acceptQueues)
    {
      ch := |replyQueues|;
      replyQueues := replyQueues + [[]];
    }
  }
}
