/**
 * Rounds driven one after the other against three acceptors, wired as the
 * demonstration program wires them (main.go): acceptor i reads prepare
 * channel i and accept channel i, and every proposer addresses channels
 * 0, 1 and 2 in that order. A round is phase 1, one turn of each acceptor,
 * the rest of the round, and one more turn of each acceptor. Any send of
 * either broadcast may time out.
 *
 * `Round` states on values what such a round does; `RunRound` drives the
 * objects and is proved to do exactly that. The lemmas then show the
 * protocol's point on `Round`: once a value is chosen by two of the three
 * acceptors, every later round proposes that value.
 */
module Cluster {
  import opened Messages
  import opened Transport
  import opened Acceptors
  import opened Proposers

  /** What a round sent in phase 2, if anything, and the acceptors' states afterwards. */
  datatype RoundResult = RoundResult(sent: Option<AcceptRequest>, states: seq<AcceptorState>)

  /** Acceptor state after phase 1 of a round numbered `num`; `reached` says the prepare got through. */
  function AfterPrepare(s: AcceptorState, num: Int64, reached: bool): AcceptorState
  {
    if reached then Step(s, Prepare(num)) else s
  }

  /** What an acceptor in state `s` answers to phase 1 of a round numbered `num`. */
  function Answer(s: AcceptorState, num: Int64, reached: bool): (rs: seq<PrepareResponse>)
    ensures |rs| <= 1
    ensures |rs| == 1 <==> reached && num > s.maxNum
    ensures |rs| == 1 ==> rs[0] == PrepareResponse(num, s.accepted)
  {
    var out := Output(s, Prepare(num));
    if reached && out.Some? then [out.value] else []
  }

  /** Acceptor state after phase 2 of a round that sent `sent`. */
  function AfterAccept(s: AcceptorState, sent: Option<AcceptRequest>, reached: bool): AcceptorState
  {
    if reached && sent.Some? then Step(s, Accept(sent.value)) else s
  }

  /**
   * One round numbered `num` with value `val` against acceptors in states
   * `ss`; the sends to the acceptors in `skip1` (phase 1) and `skip2`
   * (phase 2) time out. The responses reach the round in channel order.
   */
  function Round(ss: seq<AcceptorState>, num: Int64, val: Int64, skip1: set<nat>, skip2: set<nat>): (r: RoundResult)
    requires |ss| == 3
    ensures |r.states| == 3
    ensures r.sent.Some? ==> r.sent.value.number == num
  {
    var rs := Answer(ss[0], num, 0 !in skip1) + Answer(ss[1], num, 1 !in skip1) + Answer(ss[2], num, 2 !in skip1);
    var sent := if |rs| < Quorum then None else Some(AcceptRequest(num, ChooseValue(rs[..Quorum], val)));
    RoundResult(sent, [
      AfterAccept(AfterPrepare(ss[0], num, 0 !in skip1), sent, 0 !in skip2),
      AfterAccept(AfterPrepare(ss[1], num, 1 !in skip1), sent, 1 !in skip2),
      AfterAccept(AfterPrepare(ss[2], num, 2 !in skip1), sent, 2 !in skip2)])
  }

  /**
   * Value `v` is chosen at number `n`: two of the three acceptors hold
   * proposals numbered n or above, and every proposal any acceptor holds
   * that is numbered n or above carries v.
   */
  ghost predicate Chosen(ss: seq<AcceptorState>, n: Int64, v: Int64)
  {
    && |ss| == 3 && NoNumber < n
    && (forall i :: 0 <= i < 3 ==> Inv(ss[i]))
    && (forall i :: 0 <= i < 3 && n <= ss[i].accepted.number ==> ss[i].accepted.value == v)
    && exists i, j :: 0 <= i < j < 3 && n <= ss[i].accepted.number && n <= ss[j].accepted.number
  }

  /**
   * The two responses a round acts on always include one from an acceptor
   * that holds a proposal numbered n or above, when two of three do: any two
   * of three acceptors overlap with any other two.
   */
  lemma QuorumsIntersect(ss: seq<AcceptorState>, n: Int64, v: Int64, num: Int64, skip1: set<nat>)
    requires Chosen(ss, n, v)
    requires var rs := Answer(ss[0], num, 0 !in skip1) + Answer(ss[1], num, 1 !in skip1) + Answer(ss[2], num, 2 !in skip1);
             Quorum <= |rs|
    ensures var rs := Answer(ss[0], num, 0 !in skip1) + Answer(ss[1], num, 1 !in skip1) + Answer(ss[2], num, 2 !in skip1);
            && (exists k :: 0 <= k < Quorum && n <= rs[k].accepted.number)
            && (forall k :: 0 <= k < Quorum && n <= rs[k].accepted.number ==> rs[k].accepted.value == v)
  {
    var a0, a1, a2 := Answer(ss[0], num, 0 !in skip1), Answer(ss[1], num, 1 !in skip1), Answer(ss[2], num, 2 !in skip1);
    var rs := a0 + a1 + a2;
    var i, j :| 0 <= i < j < 3 && n <= ss[i].accepted.number && n <= ss[j].accepted.number;
    // the two acceptors whose answers come first
    var x, y: nat;
    if |a0| == 1 && |a1| == 1 {
      x, y := 0, 1;
    } else if |a0| == 1 {
      x, y := 0, 2;
    } else {
      x, y := 1, 2;
    }
    assert rs[0] == PrepareResponse(num, ss[x].accepted);
    assert rs[1] == PrepareResponse(num, ss[y].accepted);
    if x == i || y == i {
      assert n <= rs[if x == i then 0 else 1].accepted.number;
    } else {
      assert n <= rs[if x == j then 0 else 1].accepted.number;
    }
  }

  /**
   * When a value is chosen at n, a round that collects a quorum proposes
   * that value, and its number is above n.
   */
  lemma ChosenValueProposed(ss: seq<AcceptorState>, n: Int64, v: Int64, num: Int64, val: Int64, skip1: set<nat>)
    requires Chosen(ss, n, v)
    requires var rs := Answer(ss[0], num, 0 !in skip1) + Answer(ss[1], num, 1 !in skip1) + Answer(ss[2], num, 2 !in skip1);
             Quorum <= |rs|
    ensures var rs := Answer(ss[0], num, 0 !in skip1) + Answer(ss[1], num, 1 !in skip1) + Answer(ss[2], num, 2 !in skip1);
            ChooseValue(rs[..Quorum], val) == v && n < num
  {
    var a0, a1, a2 := Answer(ss[0], num, 0 !in skip1), Answer(ss[1], num, 1 !in skip1), Answer(ss[2], num, 2 !in skip1);
    var rs := a0 + a1 + a2;
    QuorumsIntersect(ss, n, v, num, skip1);
    var k :| 0 <= k < Quorum && n <= rs[k].accepted.number;
    var qs := rs[..Quorum];
    assert qs[k].accepted.number > NoNumber;
    var w := ChooseValue(qs, val);
    var m :| 0 <= m < |qs| && qs[m].accepted.number > NoNumber && w == qs[m].accepted.value
      && forall j :: 0 <= j < |qs| ==> qs[j].accepted.number <= qs[m].accepted.number;
    assert qs[k].accepted.number <= qs[m].accepted.number;
    // every response reports a proposal numbered below the round's number
    if k < |a0| {
      assert rs[k] == a0[k];
    } else if k < |a0| + |a1| {
      assert rs[k] == a1[k - |a0|];
    } else {
      assert rs[k] == a2[k - |a0| - |a1|];
    }
  }

  /**
   * One acceptor through a round whose accept request, if any, carries v
   * whenever its number is n or above: it keeps its invariant, never lowers
   * its accepted number, and any proposal it holds numbered n or above
   * still carries v.
   */
  lemma AcceptorKeepsChosen(s: AcceptorState, n: Int64, v: Int64, num: Int64, sent: Option<AcceptRequest>, r1: bool, r2: bool)
    requires Inv(s) && (n <= s.accepted.number ==> s.accepted.value == v)
    requires sent.Some? && n <= sent.value.number ==> sent.value.value == v
    ensures KeepsFrom(s, AfterAccept(AfterPrepare(s, num, r1), sent, r2), n, v)
  {
  }

  /**
   * A chosen value stays chosen through any round, whatever its number,
   * value and timeouts, and a round that gets to phase 2 proposes exactly
   * that value, under a number above n.
   */
  lemma RoundKeepsChosen(ss: seq<AcceptorState>, n: Int64, v: Int64, num: Int64, val: Int64, skip1: set<nat>, skip2: set<nat>)
    requires Chosen(ss, n, v)
    ensures var r := Round(ss, num, val, skip1, skip2);
            && (r.sent.Some? ==> r.sent.value.value == v && n < r.sent.value.number)
            && Chosen(r.states, n, v)
  {
    var rs := Answer(ss[0], num, 0 !in skip1) + Answer(ss[1], num, 1 !in skip1) + Answer(ss[2], num, 2 !in skip1);
    var r := Round(ss, num, val, skip1, skip2);
    if Quorum <= |rs| {
      ChosenValueProposed(ss, n, v, num, val, skip1);
    }
    AcceptorKeepsChosen(ss[0], n, v, num, r.sent, 0 !in skip1, 0 !in skip2);
    AcceptorKeepsChosen(ss[1], n, v, num, r.sent, 1 !in skip1, 1 !in skip2);
    AcceptorKeepsChosen(ss[2], n, v, num, r.sent, 2 !in skip1, 2 !in skip2);
    KeepsChosenPointwise(ss, r.states, n, v);
  }

  /** Acceptor state t, reached from s, keeps the invariant, holds no lower a proposal, and holds v above n. */
  ghost predicate KeepsFrom(s: AcceptorState, t: AcceptorState, n: Int64, v: Int64)
  {
    Inv(t) && s.accepted.number <= t.accepted.number && (n <= t.accepted.number ==> t.accepted.value == v)
  }

  /** Acceptors that each keep their invariant, move only up and hold v above n keep v chosen. */
  lemma KeepsChosenPointwise(ss: seq<AcceptorState>, ts: seq<AcceptorState>, n: Int64, v: Int64)
    requires Chosen(ss, n, v) && |ts| == 3
    requires KeepsFrom(ss[0], ts[0], n, v) && KeepsFrom(ss[1], ts[1], n, v) && KeepsFrom(ss[2], ts[2], n, v)
    ensures Chosen(ts, n, v)
  {
    var i, j :| 0 <= i < j < 3 && n <= ss[i].accepted.number && n <= ss[j].accepted.number;
    assert forall k :: 0 <= k < 3 ==> KeepsFrom(ss[k], ts[k], n, v);
  }

  /**
   * Two acceptors holding the same value is not enough on its own for
   * arbitrary states: here two hold (5, 1), yet a round that hears from the
   * first and the third adopts the third's higher-numbered (7, 2). These
   * states are not reachable from fresh acceptors (a round numbered 7 could
   * not have had two answers from acceptors that promised 5 and 7), so this
   * shows only that the premise of `RoundKeepsChosen` is needed.
   */
  lemma AgreementNeeded()
    ensures var ss := [AcceptorState(5, Proposal(5, 1)), AcceptorState(5, Proposal(5, 1)), AcceptorState(7, Proposal(7, 2))];
            Round(ss, 8, 3, {1}, {}).sent == Some(AcceptRequest(8, 2))
  {
    var rs := [PrepareResponse(8, Proposal(5, 1)), PrepareResponse(8, Proposal(7, 2))];
    assert Answer(AcceptorState(7, Proposal(7, 2)), 8, true) == [rs[1]];
    assert rs[..Quorum] == rs;
  }

  /** The inputs of one round: its number, its value and the sends that time out in each phase. */
  datatype RoundInput = RoundInput(num: Int64, val: Int64, skip1: set<nat>, skip2: set<nat>)

  /** The phase-2 requests of rounds run one after the other, and the acceptors' final states. */
  function RunRounds(ss: seq<AcceptorState>, ins: seq<RoundInput>): (h: (seq<Option<AcceptRequest>>, seq<AcceptorState>))
    requires |ss| == 3
    ensures |h.0| == |ins| && |h.1| == 3
    decreases |ins|
  {
    if |ins| == 0 then ([], ss)
    else
      var r := Round(ss, ins[0].num, ins[0].val, ins[0].skip1, ins[0].skip2);
      var rest := RunRounds(r.states, ins[1..]);
      ([r.sent] + rest.0, rest.1)
  }

  /**
   * Once chosen, always chosen: however many rounds follow, with whatever
   * numbers, values and timeouts, every accept request sent carries the
   * chosen value.
   */
  lemma {:induction false} ChosenIsFinal(ss: seq<AcceptorState>, n: Int64, v: Int64, ins: seq<RoundInput>)
    requires Chosen(ss, n, v)
    ensures Chosen(RunRounds(ss, ins).1, n, v)
    ensures forall k :: 0 <= k < |ins| && RunRounds(ss, ins).0[k].Some? ==> RunRounds(ss, ins).0[k].value.value == v
    decreases |ins|
  {
    if |ins| > 0 {
      var r := Round(ss, ins[0].num, ins[0].val, ins[0].skip1, ins[0].skip2);
      RoundKeepsChosen(ss, n, v, ins[0].num, ins[0].val, ins[0].skip1, ins[0].skip2);
      ChosenIsFinal(r.states, n, v, ins[1..]);
      var h := RunRounds(ss, ins);
      forall k | 0 <= k < |ins| && h.0[k].Some?
        ensures h.0[k].value.value == v
      {
        if k > 0 {
          assert h.0[k] == RunRounds(r.states, ins[1..]).0[k - 1];
        }
      }
    }
  }

  /** Three acceptors that have seen nothing. */
  function FreshCluster(): (ss: seq<AcceptorState>)
    ensures |ss| == 3
  {
    [Initial(), Initial(), Initial()]
  }

  /**
   * On fresh acceptors, a round numbered 0 or above whose accept request
   * reaches two of them chooses its own value.
   */
  lemma FirstRoundChooses(num: Int64, val: Int64, skip1: set<nat>, skip2: set<nat>)
    requires NoNumber < num
    requires var r := Round(FreshCluster(), num, val, skip1, skip2); r.sent.Some?
    requires exists i, j :: 0 <= i < j < 3 && i !in skip2 && j !in skip2
    ensures var r := Round(FreshCluster(), num, val, skip1, skip2);
            r.sent == Some(AcceptRequest(num, val)) && Chosen(r.states, num, val)
  {
    var r := Round(FreshCluster(), num, val, skip1, skip2);
    FreshRoundValue(num, val, skip1, skip2);
    var req := AcceptRequest(num, val);
    FreshAcceptorTakes(num, req, 0 !in skip1, 0 !in skip2);
    FreshAcceptorTakes(num, req, 1 !in skip1, 1 !in skip2);
    FreshAcceptorTakes(num, req, 2 !in skip1, 2 !in skip2);
    var i, j :| 0 <= i < j < 3 && i !in skip2 && j !in skip2;
    assert r.states == [AfterAccept(AfterPrepare(Initial(), num, 0 !in skip1), Some(req), 0 !in skip2),
                        AfterAccept(AfterPrepare(Initial(), num, 1 !in skip1), Some(req), 1 !in skip2),
                        AfterAccept(AfterPrepare(Initial(), num, 2 !in skip1), Some(req), 2 !in skip2)];
    assert r.states[i].accepted.number == num && r.states[j].accepted.number == num;
  }

  /** A round against fresh acceptors that sends anything sends its own value: nobody has accepted anything. */
  lemma FreshRoundValue(num: Int64, val: Int64, skip1: set<nat>, skip2: set<nat>)
    ensures var r := Round(FreshCluster(), num, val, skip1, skip2);
            r.sent.Some? ==> r.sent.value == AcceptRequest(num, val)
  {
    var rs := Answer(Initial(), num, 0 !in skip1) + Answer(Initial(), num, 1 !in skip1) + Answer(Initial(), num, 2 !in skip1);
    if Quorum <= |rs| {
      var qs := rs[..Quorum];
      assert forall k :: 0 <= k < |qs| ==> qs[k].accepted.number <= NoNumber;
    }
  }

  /**
   * A fresh acceptor through a round numbered num above the sentinel that
   * sends `req` numbered num: it keeps its invariant, holds nothing but
   * `req` numbered num or above, and holds `req` when the accept reached it.
   */
  lemma FreshAcceptorTakes(num: Int64, req: AcceptRequest, r1: bool, r2: bool)
    requires NoNumber < num && req.number == num
    ensures var t := AfterAccept(AfterPrepare(Initial(), num, r1), Some(req), r2);
            && Inv(t)
            && (num <= t.accepted.number ==> t.accepted == ToProposal(req))
            && (r2 ==> t.accepted == ToProposal(req))
  {
  }

  /**
   * A round numbered at or below the sentinel never gets an answer from
   * acceptors that have started, so it never sends an accept request: an
   * acceptor only ever holds a proposal numbered -1 when it has accepted
   * nothing from a proposer.
   */
  lemma SentinelRoundAborts(ss: seq<AcceptorState>, num: Int64, val: Int64, skip1: set<nat>, skip2: set<nat>)
    requires |ss| == 3 && forall i :: 0 <= i < 3 ==> NoNumber <= ss[i].maxNum
    requires num <= NoNumber
    ensures Round(ss, num, val, skip1, skip2) == RoundResult(None, ss)
  {
  }

  /**
   * An accept request numbered -1 reaching a fresh acceptor is taken, since
   * -1 is not below the fresh promise -1. The proposal it stores carries the
   * sentinel number, so a later round that hears of it treats it as nothing
   * accepted and keeps its own value.
   */
  lemma SentinelAcceptForgotten(v: Int64, num: Int64, val: Int64)
    requires NoNumber < num
    ensures var s := Step(Initial(), Accept(AcceptRequest(NoNumber, v)));
            && s == AcceptorState(NoNumber, Proposal(NoNumber, v))
            && Answer(s, num, true) == [PrepareResponse(num, Proposal(NoNumber, v))]
            && ChooseValue(Answer(s, num, true) + Answer(s, num, true), val) == val
  {
  }

  /** Broadcasting over channels 0, 1, 2 of three empty queues puts `m` in each queue not skipped. */
  lemma BroadcastToThree<T>(qs: seq<seq<T>>, skipped: set<nat>, m: T)
    requires qs == [[], [], []]
    ensures Broadcast(qs, [0, 1, 2], skipped, m)
         == [if 0 in skipped then [] else [m], if 1 in skipped then [] else [m], if 2 in skipped then [] else [m]]
  {
    var t1, t2, t3: seq<nat> := [0], [0, 1], [0, 1, 2];
    assert t3[..2] == t2 && t2[..1] == t1 && t1[..0] == [];
    var b1 := if 0 in skipped then qs else Push(qs, 0, m);
    assert Broadcast(qs, t1, skipped, m) == b1;
    var b2 := if 1 in skipped then b1 else Push(b1, 1, m);
    assert Broadcast(qs, t2, skipped, m) == b2;
    var b3 := if 2 in skipped then b2 else Push(b2, 2, m);
    assert Broadcast(qs, t3, skipped, m) == b3;
    assert qs[0] + [m] == [m] && qs[1] + [m] == [m] && qs[2] + [m] == [m];
    assert b3[0] == (if 0 in skipped then [] else [m]);
    assert b3[1] == (if 1 in skipped then [] else [m]);
    assert b3[2] == (if 2 in skipped then [] else [m]);
  }

  /** Three prepare channels and three accept channels, all empty. */
  ghost predicate AllEmpty(net: Network)
    reads net
  {
    net.prepareQueues == [[], [], []] && net.acceptQueues == [[], [], []]
  }

  /** Acceptor `a` is running, keeps its invariant and reads channel `c` of both families. */
  ghost predicate OnChannel(a: Acceptor, c: nat)
    reads a
  {
    a.Valid() && a.running && a.prepareChan == c && a.acceptChan == c
  }

  /** Three fresh acceptors on channels 0, 1, 2 of a fresh network. */
  method NewCluster() returns (net: Network, a1: Acceptor, a2: Acceptor, a3: Acceptor)
    ensures fresh(net) && fresh(a1) && fresh(a2) && fresh(a3)
    ensures net.Valid() && AllEmpty(net) && net.replyQueues == []
    ensures OnChannel(a1, 0) && OnChannel(a2, 1) && OnChannel(a3, 2)
    ensures [a1.State(), a2.State(), a3.State()] == FreshCluster()
  {
    net := new Network(3);
    a1 := new Acceptor("A1", 0, 0);
    a2 := new Acceptor("A2", 1, 1);
    a3 := new Acceptor("A3", 2, 2);
  }

  /**
   * One turn of acceptor `a` whose accept channel is empty and whose
   * prepare channel holds `req` if `reached`, else nothing. It handles the
   * request, if any, and answers on the request's reply channel.
   */
  method ServePrepare(net: Network, a: Acceptor, req: PrepareRequest, reached: bool)
    requires a.Valid() && a.running && net.Valid()
    requires a.prepareChan < |net.prepareQueues| && a.acceptChan < |net.acceptQueues|
    requires net.prepareQueues[a.prepareChan] == (if reached then [req] else [])
    requires net.acceptQueues[a.acceptChan] == []
    requires req.replyTo < |net.replyQueues|
    modifies a`maxNum, a`accepted, a`running, net
    ensures a.Valid() && a.running && net.Valid()
    ensures a.State() == AfterPrepare(old(a.State()), req.number, reached)
    ensures net.prepareQueues == old(net.prepareQueues)[a.prepareChan := []]
    ensures net.acceptQueues == old(net.acceptQueues)
    ensures net.replyQueues == old(net.replyQueues)[req.replyTo :=
      old(net.replyQueues)[req.replyTo] + Answer(old(a.State()), req.number, reached)]
  {
    ghost var replies := net.replyQueues;
    assert [req][1..] == [];
    AdvanceCases(a.Snapshot(net), a.prepareChan, a.acceptChan, Turn(false, false));
    var h := a.Serve(net, false, false);
    if Answer(old(a.State()), req.number, reached) == [] {
      assert replies[req.replyTo] + [] == replies[req.replyTo];
    }
  }

  /**
   * One turn of acceptor `a` whose prepare channel is empty and whose
   * accept channel holds `req` if `reached`, else nothing.
   */
  method ServeAccept(net: Network, a: Acceptor, req: AcceptRequest, reached: bool)
    requires a.Valid() && a.running && net.Valid()
    requires a.prepareChan < |net.prepareQueues| && a.acceptChan < |net.acceptQueues|
    requires net.prepareQueues[a.prepareChan] == []
    requires net.acceptQueues[a.acceptChan] == (if reached then [req] else [])
    modifies a`maxNum, a`accepted, a`running, net
    ensures a.Valid() && a.running && net.Valid()
    ensures a.State() == AfterAccept(old(a.State()), Some(req), reached)
    ensures net.prepareQueues == old(net.prepareQueues)
    ensures net.acceptQueues == old(net.acceptQueues)[a.acceptChan := []]
    ensures net.replyQueues == old(net.replyQueues)
  {
    assert [req][1..] == [];
    AdvanceCases(a.Snapshot(net), a.prepareChan, a.acceptChan, Turn(false, false));
    var h := a.Serve(net, false, false);
  }

  /**
   * Phase 1 of `p`, the sends to the acceptors in `skip1` timing out, then
   * one turn of each acceptor: the round's reply channel holds the answers
   * in channel order.
   */
  method PhaseOne(net: Network, a1: Acceptor, a2: Acceptor, a3: Acceptor, p: Proposer, skip1: set<nat>)
    returns (round: ChannelId)
    requires a1 != a2 && a2 != a3 && a1 != a3
    requires net.Valid() && AllEmpty(net)
    requires OnChannel(a1, 0) && OnChannel(a2, 1) && OnChannel(a3, 2)
    requires p.prepareChans == [0, 1, 2]
    modifies net, a1`maxNum, a1`accepted, a1`running, a2`maxNum, a2`accepted, a2`running,
      a3`maxNum, a3`accepted, a3`running
    ensures net.Valid() && AllEmpty(net)
    ensures OnChannel(a1, 0) && OnChannel(a2, 1) && OnChannel(a3, 2)
    ensures a1.State() == AfterPrepare(old(a1.State()), p.num, 0 !in skip1)
    ensures a2.State() == AfterPrepare(old(a2.State()), p.num, 1 !in skip1)
    ensures a3.State() == AfterPrepare(old(a3.State()), p.num, 2 !in skip1)
    ensures round == |old(net.replyQueues)| && |net.replyQueues| == round + 1
    ensures net.replyQueues[round]
         == Answer(old(a1.State()), p.num, 0 !in skip1) + Answer(old(a2.State()), p.num, 1 !in skip1)
            + Answer(old(a3.State()), p.num, 2 !in skip1)
  {
    var req := PrepareRequest(p.num, |net.replyQueues|);
    BroadcastToThree(net.prepareQueues, skip1, req);
    ghost var s1, s2, s3 := a1.State(), a2.State(), a3.State();
    ghost var before := net.prepareQueues;
    round := p.Prepare(net, skip1);
    assert net.prepareQueues == Broadcast(before, [0, 1, 2], skip1, req);
    assert a1.State() == s1 && a2.State() == s2 && a3.State() == s3;
    ServePrepares(net, a1, a2, a3, req, skip1);
    assert net.replyQueues[round] == Answer(s1, p.num, 0 !in skip1) + Answer(s2, p.num, 1 !in skip1) + Answer(s3, p.num, 2 !in skip1);
  }

  /**
   * One turn of each acceptor when prepare channel i holds `req` unless i
   * is in `skip1`: their answers land on the reply channel in channel order.
   */
  method ServePrepares(net: Network, a1: Acceptor, a2: Acceptor, a3: Acceptor, req: PrepareRequest, skip1: set<nat>)
    requires a1 != a2 && a2 != a3 && a1 != a3
    requires net.Valid() && req.replyTo < |net.replyQueues| && net.replyQueues[req.replyTo] == []
    requires net.prepareQueues
          == [if 0 in skip1 then [] else [req], if 1 in skip1 then [] else [req], if 2 in skip1 then [] else [req]]
    requires net.acceptQueues == [[], [], []]
    requires OnChannel(a1, 0) && OnChannel(a2, 1) && OnChannel(a3, 2)
    modifies net, a1`maxNum, a1`accepted, a1`running, a2`maxNum, a2`accepted, a2`running,
      a3`maxNum, a3`accepted, a3`running
    ensures net.Valid() && AllEmpty(net)
    ensures OnChannel(a1, 0) && OnChannel(a2, 1) && OnChannel(a3, 2)
    ensures a1.State() == AfterPrepare(old(a1.State()), req.number, 0 !in skip1)
    ensures a2.State() == AfterPrepare(old(a2.State()), req.number, 1 !in skip1)
    ensures a3.State() == AfterPrepare(old(a3.State()), req.number, 2 !in skip1)
    ensures |net.replyQueues| == |old(net.replyQueues)|
    ensures net.replyQueues[req.replyTo]
         == Answer(old(a1.State()), req.number, 0 !in skip1) + Answer(old(a2.State()), req.number, 1 !in skip1)
            + Answer(old(a3.State()), req.number, 2 !in skip1)
  {
    ServePrepare(net, a1, req, 0 !in skip1);
    ServePrepare(net, a2, req, 1 !in skip1);
    ServePrepare(net, a3, req, 2 !in skip1);
  }

  /** Phase 2's accept request in the accept channels not skipped, and one turn of each acceptor. */
  method ServeAccepts(net: Network, a1: Acceptor, a2: Acceptor, a3: Acceptor, req: AcceptRequest, skip2: set<nat>)
    requires a1 != a2 && a2 != a3 && a1 != a3
    requires net.Valid() && net.prepareQueues == [[], [], []]
    requires net.acceptQueues
          == [if 0 in skip2 then [] else [req], if 1 in skip2 then [] else [req], if 2 in skip2 then [] else [req]]
    requires OnChannel(a1, 0) && OnChannel(a2, 1) && OnChannel(a3, 2)
    modifies net, a1`maxNum, a1`accepted, a1`running, a2`maxNum, a2`accepted, a2`running,
      a3`maxNum, a3`accepted, a3`running
    ensures net.Valid() && AllEmpty(net) && net.replyQueues == old(net.replyQueues)
    ensures OnChannel(a1, 0) && OnChannel(a2, 1) && OnChannel(a3, 2)
    ensures a1.State() == AfterAccept(old(a1.State()), Some(req), 0 !in skip2)
    ensures a2.State() == AfterAccept(old(a2.State()), Some(req), 1 !in skip2)
    ensures a3.State() == AfterAccept(old(a3.State()), Some(req), 2 !in skip2)
  {
    ServeAccept(net, a1, req, 0 !in skip2);
    ServeAccept(net, a2, req, 1 !in skip2);
    ServeAccept(net, a3, req, 2 !in skip2);
  }

  /**
   * One whole round of `p` against the three acceptors, the sends at the
   * positions in `skip1` and `skip2` timing out. It sends what `Round`
   * says, and leaves the acceptors in the states `Round` gives.
   */
  method RunRound(net: Network, a1: Acceptor, a2: Acceptor, a3: Acceptor, p: Proposer, skip1: set<nat>, skip2: set<nat>)
    returns (sent: Option<AcceptRequest>)
    requires a1 != a2 && a2 != a3 && a1 != a3
    requires net.Valid() && AllEmpty(net)
    requires OnChannel(a1, 0) && OnChannel(a2, 1) && OnChannel(a3, 2)
    requires p.prepareChans == [0, 1, 2] && p.acceptChans == [0, 1, 2]
    modifies net, a1`maxNum, a1`accepted, a1`running, a2`maxNum, a2`accepted, a2`running,
      a3`maxNum, a3`accepted, a3`running, p`val
    ensures net.Valid() && AllEmpty(net)
    ensures OnChannel(a1, 0) && OnChannel(a2, 1) && OnChannel(a3, 2)
    ensures RoundResult(sent, [a1.State(), a2.State(), a3.State()])
         == Round([old(a1.State()), old(a2.State()), old(a3.State())], p.num, old(p.val), skip1, skip2)
    ensures p.val == (if sent.Some? then sent.value.value else old(p.val))
    ensures |net.replyQueues| == |old(net.replyQueues)| + 1
  {
    var round := PhaseOne(net, a1, a2, a3, p, skip1);
    sent := PhaseTwo(net, a1, a2, a3, p, round, skip2);
  }

  /**
   * Phase 2 of `p` once its round's replies are in: it sends the accept
   * request when two replies are there, and each acceptor the request
   * reaches takes one turn.
   */
  method PhaseTwo(net: Network, a1: Acceptor, a2: Acceptor, a3: Acceptor, p: Proposer, round: ChannelId, skip2: set<nat>)
    returns (sent: Option<AcceptRequest>)
    requires a1 != a2 && a2 != a3 && a1 != a3
    requires net.Valid() && AllEmpty(net) && round < |net.replyQueues|
    requires OnChannel(a1, 0) && OnChannel(a2, 1) && OnChannel(a3, 2)
    requires p.acceptChans == [0, 1, 2]
    modifies net, a1`maxNum, a1`accepted, a1`running, a2`maxNum, a2`accepted, a2`running,
      a3`maxNum, a3`accepted, a3`running, p`val
    ensures net.Valid() && AllEmpty(net) && |net.replyQueues| == |old(net.replyQueues)|
    ensures OnChannel(a1, 0) && OnChannel(a2, 1) && OnChannel(a3, 2)
    ensures var q := old(net.replyQueues[round]);
            sent == if |q| < Quorum then None else Some(AcceptRequest(p.num, ChooseValue(q[..Quorum], old(p.val))))
    ensures p.val == (if sent.Some? then sent.value.value else old(p.val))
    ensures a1.State() == AfterAccept(old(a1.State()), sent, 0 !in skip2)
    ensures a2.State() == AfterAccept(old(a2.State()), sent, 1 !in skip2)
    ensures a3.State() == AfterAccept(old(a3.State()), sent, 2 !in skip2)
  {
    ghost var acceptBefore := net.acceptQueues;
    ghost var channels := |net.replyQueues|;
    sent := p.Finish(net, round, skip2);
    assert |net.replyQueues| == channels;
    if sent.Some? {
      BroadcastToThree(acceptBefore, skip2, sent.value);
      ServeAccepts(net, a1, a2, a3, sent.value, skip2);
    }
  }

  /** Every acceptor holding proposal (n, v) with promise n. */
  function AllHold(n: Int64, v: Int64): (ss: seq<AcceptorState>)
    ensures |ss| == 3
  {
    [AcceptorState(n, Proposal(n, v)), AcceptorState(n, Proposal(n, v)), AcceptorState(n, Proposal(n, v))]
  }

  /**
   * The demonstration's rounds run one after the other with every send
   * delivered: (1, 41), then (2, 42), then (3, 10). The later rounds learn
   * of 41 from the acceptors and propose it instead of their own values, so
   * every acceptor ends holding (3, 41).
   */
  method SequentialRounds() returns (sent: seq<Option<AcceptRequest>>, final: seq<AcceptorState>)
    ensures sent == [Some(AcceptRequest(1, 41)), Some(AcceptRequest(2, 41)), Some(AcceptRequest(3, 41))]
    ensures final == AllHold(3, 41)
  {
    var net, a1, a2, a3 := NewCluster();
    DemoRounds();
    var sent1 := DemoRound(net, a1, a2, a3, "P1", 1, 41);
    var sent2 := DemoRound(net, a1, a2, a3, "P2", 2, 42);
    var sent3 := DemoRound(net, a1, a2, a3, "P3", 3, 10);
    sent := [sent1, sent2, sent3];
    final := [a1.State(), a2.State(), a3.State()];
  }

  /** One round of the demonstration with every send delivered: a new proposer `name` proposes (num, val). */
  method DemoRound(net: Network, a1: Acceptor, a2: Acceptor, a3: Acceptor, name: string, num: Int64, val: Int64)
    returns (sent: Option<AcceptRequest>)
    requires a1 != a2 && a2 != a3 && a1 != a3
    requires net.Valid() && AllEmpty(net)
    requires OnChannel(a1, 0) && OnChannel(a2, 1) && OnChannel(a3, 2)
    modifies net, a1`maxNum, a1`accepted, a1`running, a2`maxNum, a2`accepted, a2`running,
      a3`maxNum, a3`accepted, a3`running
    ensures net.Valid() && AllEmpty(net)
    ensures OnChannel(a1, 0) && OnChannel(a2, 1) && OnChannel(a3, 2)
    ensures RoundResult(sent, [a1.State(), a2.State(), a3.State()])
         == Round([old(a1.State()), old(a2.State()), old(a3.State())], num, val, {}, {})
  {
    var p := new Proposer(name, num, val, [0, 1, 2], [0, 1, 2]);
    sent := RunRound(net, a1, a2, a3, p, {}, {});
  }

  /** The states and requests of the demonstration's rounds, computed on values. */
  lemma DemoRounds()
    ensures Round(FreshCluster(), 1, 41, {}, {}) == RoundResult(Some(AcceptRequest(1, 41)), AllHold(1, 41))
    ensures Round(AllHold(1, 41), 2, 42, {}, {}) == RoundResult(Some(AcceptRequest(2, 41)), AllHold(2, 41))
    ensures Round(AllHold(2, 41), 3, 10, {}, {}) == RoundResult(Some(AcceptRequest(3, 41)), AllHold(3, 41))
  {
    assert Answer(Initial(), 1, true) == [PrepareResponse(1, Unaccepted)];
    DemoLearns(1, 2, 41, 42);
    DemoLearns(2, 3, 41, 10);
  }

  /** A fully delivered round numbered m > n against acceptors all holding (n, v) proposes v. */
  lemma DemoLearns(n: Int64, m: Int64, v: Int64, val: Int64)
    requires NoNumber < n < m
    ensures Round(AllHold(n, v), m, val, {}, {}) == RoundResult(Some(AcceptRequest(m, v)), AllHold(m, v))
  {
  }

  /**
   * After the first demonstration round, 41 is chosen: whatever rounds
   * follow, with whatever numbers, values and timeouts, they propose only 41.
   */
  lemma DemoValueSticks(ins: seq<RoundInput>)
    ensures var h := RunRounds(Round(FreshCluster(), 1, 41, {}, {}).states, ins);
            forall k :: 0 <= k < |ins| && h.0[k].Some? ==> h.0[k].value.value == 41
  {
    DemoRounds();
    DemoChosen();
    ChosenIsFinal(AllHold(1, 41), 1, 41, ins);
  }

  /** All three acceptors holding (1, 41) means 41 is chosen at 1. */
  lemma DemoChosen()
    ensures Chosen(AllHold(1, 41), 1, 41)
  {
    var ss := AllHold(1, 41);
    assert 0 <= 0 < 1 < 3 && 1 <= ss[0].accepted.number && 1 <= ss[1].accepted.number;
  }

  /**
   * A round numbered 0 that starts after the first demonstration round
   * gets no answer, aborts, and changes no acceptor.
   */
  lemma StaleRoundAborts()
    ensures Round(AllHold(1, 41), 0, 99, {}, {}) == RoundResult(None, AllHold(1, 41))
  {
  }
}
