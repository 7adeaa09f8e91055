/**
 * The proposer of single-decree Paxos (paxos/proposer.go). One proposer
 * runs one round: it offers a prepare request to every acceptor, waits for
 * two responses, adopts the value of the highest-numbered proposal any of
 * them reports, and offers an accept request for that value to every
 * acceptor.
 *
 * The round's Run is split where it waits for responses: `Prepare` is the
 * phase-1 broadcast, `Finish` the collection, the adoption and the phase-2
 * broadcast. Between the two a driver lets acceptors handle their requests,
 * which in the running system happens concurrently.
 */
module Proposers {
  import opened Messages
  import opened Transport

  /** The number of responses a round waits for, fixed whatever the number of acceptors. */
  const Quorum: nat := 2

  /**
   * `p` is what the adoption scan should yield for `rs`: the sentinel when
   * no response reports a number above it, otherwise the highest-numbered
   * reported proposal, taken from the earliest response that reports it.
   */
  ghost predicate IsAdopted(rs: seq<PrepareResponse>, p: Proposal)
  {
    if forall i :: 0 <= i < |rs| ==> rs[i].accepted.number <= NoNumber then
      p == Unaccepted
    else
      exists i :: 0 <= i < |rs| && rs[i].accepted == p
        && (forall j :: 0 <= j < |rs| ==> rs[j].accepted.number <= p.number)
        && (forall j :: 0 <= j < i ==> rs[j].accepted.number < p.number)
  }

  /**
   * The adoption scan: a running maximum over the reported proposals,
   * starting from the sentinel and replaced only by a strictly higher number.
   */
  function Adopt(rs: seq<PrepareResponse>): (last: Proposal)
    ensures IsAdopted(rs, last)
    ensures NoNumber <= last.number
    decreases |rs|
  {
    if |rs| == 0 then Unaccepted
    else
      var prev := Adopt(rs[..|rs| - 1]);
      var r := rs[|rs| - 1];
      var last := if r.accepted.number > prev.number then r.accepted else prev;
      AdoptExtend(rs[..|rs| - 1], prev, r);
      assert rs[..|rs| - 1] + [r] == rs;
      last
  }

  /** One more step of the running maximum keeps the description of its result. */
  lemma AdoptExtend(rs: seq<PrepareResponse>, prev: Proposal, r: PrepareResponse)
    requires IsAdopted(rs, prev) && NoNumber <= prev.number
    ensures IsAdopted(rs + [r], if r.accepted.number > prev.number then r.accepted else prev)
  {
    var rs' := rs + [r];
    var last := if r.accepted.number > prev.number then r.accepted else prev;
    if r.accepted.number > prev.number {
      assert rs'[|rs|].accepted == last;
      assert forall j :: 0 <= j < |rs| ==> rs'[j].accepted.number <= prev.number;
      if forall i :: 0 <= i < |rs| ==> rs[i].accepted.number <= NoNumber {
      } else {
        var i :| 0 <= i < |rs| && rs[i].accepted == prev
          && (forall j :: 0 <= j < |rs| ==> rs[j].accepted.number <= prev.number);
      }
    } else if forall i :: 0 <= i < |rs| ==> rs[i].accepted.number <= NoNumber {
      assert forall i :: 0 <= i < |rs'| ==> rs'[i].accepted.number <= NoNumber;
    } else {
      var i :| 0 <= i < |rs| && rs[i].accepted == prev
        && (forall j :: 0 <= j < |rs| ==> rs[j].accepted.number <= prev.number)
        && (forall j :: 0 <= j < i ==> rs[j].accepted.number < prev.number);
      assert rs'[i].accepted == prev;
    }
  }

  /** Only one proposal meets the description of the adoption scan's result. */
  lemma AdoptedUnique(rs: seq<PrepareResponse>, p: Proposal, q: Proposal)
    requires IsAdopted(rs, p) && IsAdopted(rs, q)
    ensures p == q
  {
  }

  /**
   * The value the round asks acceptors to accept: the adopted proposal's
   * value if a response reported anything above the sentinel, else the
   * proposer's own.
   */
  function ChooseValue(rs: seq<PrepareResponse>, val: Int64): (v: Int64)
    ensures (forall i :: 0 <= i < |rs| ==> rs[i].accepted.number <= NoNumber) ==> v == val
    ensures (exists i :: 0 <= i < |rs| && rs[i].accepted.number > NoNumber) ==>
      exists i :: 0 <= i < |rs| && rs[i].accepted.number > NoNumber && v == rs[i].accepted.value
        && forall j :: 0 <= j < |rs| ==> rs[j].accepted.number <= rs[i].accepted.number
  {
    var last := Adopt(rs);
    if last.number != NoNumber then last.value else val
  }

  /** The adoption scan as the loop the round runs: yields exactly `Adopt(rs)`. */
  method ScanAccepted(rs: seq<PrepareResponse>) returns (last: Proposal)
    ensures IsAdopted(rs, last)
    ensures last == Adopt(rs)
  {
    last := Unaccepted;
    for i := 0 to |rs|
      invariant last == Adopt(rs[..i])
    {
      assert rs[..i + 1][..i] == rs[..i];
      if rs[i].accepted.number > last.number {
        last := rs[i].accepted;
      }
    }
    assert rs[..|rs|] == rs;
  }

  /**
   * A proposer: its name, its proposal number, the value it wants chosen
   * (overwritten when it adopts another) and the channels of the acceptors.
   */
  class Proposer {
    var name: string
    var num: Int64
    var val: Int64
    var prepareChans: seq<nat>
    var acceptChans: seq<nat>

    /** A new proposer keeps everything it is given, unchanged. */
    constructor (name: string, num: Int64, val: Int64, prepareChans: seq<nat>, acceptChans: seq<nat>)
      ensures this.name == name && this.num == num && this.val == val
      ensures this.prepareChans == prepareChans && this.acceptChans == acceptChans
    {
      this.name := name;
      this.num := num;
      this.val := val;
      this.prepareChans := prepareChans;
      this.acceptChans := acceptChans;
    }

    /**
     * Phase 1: makes the round's private reply channel and offers one
     * prepare request naming it to each acceptor in order. The send to the
     * acceptor at position i times out, and is skipped, exactly when i is in
     * `timedOut`; the broadcast goes on regardless. Returns the reply channel.
     */
    method Prepare(net: Network, timedOut: set<nat>) returns (round: ChannelId)
      requires net.Valid()
      requires TargetsIn(net.prepareQueues, prepareChans)
      modifies net
      ensures net.Valid()
      ensures round == |old(net.replyQueues)| && net.replyQueues == old(net.replyQueues) + [[]]
      ensures net.prepareQueues
           == Broadcast(old(net.prepareQueues), prepareChans, timedOut, PrepareRequest(num, round))
      ensures net.acceptQueues == old(net.acceptQueues)
    {
      round := net.NewReplyChannel();
      var req := PrepareRequest(num, round);
      for i := 0 to |prepareChans|
        invariant net.Valid()
        invariant net.replyQueues == old(net.replyQueues) + [[]]
        invariant net.acceptQueues == old(net.acceptQueues)
        invariant net.prepareQueues == Broadcast(old(net.prepareQueues), prepareChans[..i], timedOut, req)
      {
        assert prepareChans[..i + 1][..i] == prepareChans[..i];
        if i !in timedOut {
          PushKeepsValid(net.prepareQueues, prepareChans[i], req, |net.replyQueues|);
          net.prepareQueues := Push(net.prepareQueues, prepareChans[i], req);
        }
      }
      assert prepareChans[..|prepareChans|] == prepareChans;
    }

    /**
     * The rest of the round. Takes responses from the round's reply channel
     * until it holds `Quorum` of them; if the channel runs dry first, the
     * round times out and ends with nothing sent. Otherwise the proposer
     * adopts a value and offers one accept request, with its own number, to
     * each acceptor in order, skipping the sends at the positions in
     * `timedOut`. Returns the accept request, if the round got that far.
     */
    method Finish(net: Network, round: ChannelId, timedOut: set<nat>) returns (sent: Option<AcceptRequest>)
      requires net.Valid()
      requires round < |net.replyQueues|
      requires TargetsIn(net.acceptQueues, acceptChans)
      modifies this`val, net
      ensures net.Valid()
      ensures net.prepareQueues == old(net.prepareQueues)
      ensures var q := old(net.replyQueues[round]);
              |q| < Quorum ==>
                && sent == None
                && val == old(val)
                && net.replyQueues == old(net.replyQueues)[round := []]
                && net.acceptQueues == old(net.acceptQueues)
      ensures var q := old(net.replyQueues[round]);
              |q| >= Quorum ==>
                var v := ChooseValue(q[..Quorum], old(val));
                && sent == Some(AcceptRequest(num, v))
                && val == v
                && net.replyQueues == old(net.replyQueues)[round := q[Quorum..]]
                && net.acceptQueues == Broadcast(old(net.acceptQueues), acceptChans, timedOut, sent.value)
    {
      ghost var q := net.replyQueues[round];
      var responses: seq<PrepareResponse> := [];
      while |responses| < Quorum
        invariant |responses| <= Quorum && |responses| <= |q|
        invariant responses == q[..|responses|]
        invariant net.replyQueues == old(net.replyQueues)[round := q[|responses|..]]
        invariant net.prepareQueues == old(net.prepareQueues)
        invariant net.acceptQueues == old(net.acceptQueues)
        invariant val == old(val)
      {
        if net.replyQueues[round] == [] {
          // the collection timeout fires before a quorum has answered
          sent := None;
          return;
        }
        var r := net.replyQueues[round][0];
        net.replyQueues := net.replyQueues[round := net.replyQueues[round][1..]];
        responses := responses + [r];
      }

      assert responses == q[..Quorum];
      var last := ScanAccepted(responses);
      if last.number != NoNumber {
        val := last.value;
      }
      var req := AcceptRequest(num, val);
      for i := 0 to |acceptChans|
        invariant net.Valid()
        invariant net.replyQueues == old(net.replyQueues)[round := q[Quorum..]]
        invariant net.prepareQueues == old(net.prepareQueues)
        invariant val == req.value
        invariant net.acceptQueues == Broadcast(old(net.acceptQueues), acceptChans[..i], timedOut, req)
      {
        assert acceptChans[..i + 1][..i] == acceptChans[..i];
        if i !in timedOut {
          net.acceptQueues := Push(net.acceptQueues, acceptChans[i], req);
        }
      }
      assert acceptChans[..|acceptChans|] == acceptChans;
      sent := Some(req);
    }
  }

  /** Appending a prepare request that names an existing reply channel keeps every pending one valid. */
  lemma PushKeepsValid(qs: seq<seq<PrepareRequest>>, c: nat, req: PrepareRequest, channels: nat)
    requires c < |qs| && req.replyTo < channels
    requires forall d, k :: 0 <= d < |qs| && 0 <= k < |qs[d]| ==> qs[d][k].replyTo < channels
    ensures forall d, k :: 0 <= d < |Push(qs, c, req)| && 0 <= k < |Push(qs, c, req)[d]| ==>
      Push(qs, c, req)[d][k].replyTo < channels
  {
  }
}
