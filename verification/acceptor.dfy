/**
 * The acceptor of single-decree Paxos (paxos/acceptor.go). Its whole state
 * is the highest proposal number it has seen and the last proposal it has
 * accepted; each incoming request is handled by a compare-and-update rule,
 * and a request that loses the comparison is dropped without an answer.
 *
 * The rule is given twice: as pure functions on `AcceptorState`, about
 * which the protocol's properties are proved over whole traces of
 * requests, and as the class `Acceptor`, whose methods update the fields in
 * place as the Go loop does and are proved to follow the pure rule.
 */
module Acceptors {
  import opened Messages
  import opened Transport

  datatype AcceptorState = AcceptorState(maxNum: Int64, accepted: Proposal)

  /** A request as it reaches an acceptor. */
  datatype Event = Prepare(n: Int64) | Accept(req: AcceptRequest)

  /** The acceptor's invariant: it never holds a proposal above its promise. */
  predicate Inv(s: AcceptorState)
  {
    s.accepted.number <= s.maxNum
  }

  /** The state of an acceptor that has seen nothing: both numbers are the sentinel. */
  function Initial(): (s: AcceptorState)
    ensures Inv(s)
    ensures s.maxNum == NoNumber && s.accepted.number == NoNumber
  {
    AcceptorState(NoNumber, Unaccepted)
  }

  /**
   * The state after handling one request: a prepare is honoured only above
   * the promise, an accept at or above it.
   */
  function Step(s: AcceptorState, e: Event): (r: AcceptorState)
    ensures Inv(s) ==> Inv(r)
    ensures s.maxNum <= r.maxNum
    ensures Inv(s) ==> s.accepted.number <= r.accepted.number
    ensures e.Prepare? ==> r.accepted == s.accepted
    ensures e.Prepare? && e.n > s.maxNum ==> r.maxNum == e.n
    ensures e.Prepare? && e.n <= s.maxNum ==> r == s
    ensures e.Accept? && e.req.number < s.maxNum ==> r == s
    ensures e.Accept? && e.req.number >= s.maxNum ==> r.maxNum == e.req.number && r.accepted == ToProposal(e.req)
  {
    match e
    case Prepare(n) => if n > s.maxNum then s.(maxNum := n) else s
    case Accept(req) => if req.number >= s.maxNum then AcceptorState(req.number, ToProposal(req)) else s
  }

  /**
   * What the acceptor sends back for one request. Only a prepare that is
   * honoured is answered, with the echoed number and the proposal accepted
   * so far; every other request, and every change-free step, goes unanswered.
   */
  function Output(s: AcceptorState, e: Event): (r: Option<PrepareResponse>)
    ensures r.Some? ==> e.Prepare? && r.value.number == e.n && r.value.accepted == s.accepted
    ensures e.Prepare? ==> (r.None? <==> Step(s, e) == s)
    ensures Inv(s) && r.Some? ==> r.value.accepted.number < r.value.number
  {
    match e
    case Prepare(n) => if n > s.maxNum then Some(PrepareResponse(n, s.accepted)) else None
    case Accept(_) => None
  }

  /** The state after handling every request of `evs` in order. */
  function Replay(s: AcceptorState, evs: seq<Event>): (r: AcceptorState)
    ensures s.maxNum <= r.maxNum
    decreases |evs|
  {
    if |evs| == 0 then s else Replay(Step(s, evs[0]), evs[1..])
  }

  /** The responses sent while handling `evs` in order. */
  function Responses(s: AcceptorState, evs: seq<Event>): (r: seq<PrepareResponse>)
    ensures |r| <= |evs|
    decreases |evs|
  {
    if |evs| == 0 then []
    else
      var out := Output(s, evs[0]);
      (if out.Some? then [out.value] else []) + Responses(Step(s, evs[0]), evs[1..])
  }

  /**
   * Across any sequence of requests the invariant is kept, and the accepted
   * proposal's number never decreases.
   */
  lemma {:induction false} ReplayMonotone(s: AcceptorState, evs: seq<Event>)
    requires Inv(s)
    ensures Inv(Replay(s, evs))
    ensures s.accepted.number <= Replay(s, evs).accepted.number
    decreases |evs|
  {
    if |evs| > 0 {
      ReplayMonotone(Step(s, evs[0]), evs[1..]);
    }
  }

  /** Every response reports a proposal numbered strictly below the response's own number. */
  lemma {:induction false} ResponsesBelowNumber(s: AcceptorState, evs: seq<Event>)
    requires Inv(s)
    ensures forall k :: 0 <= k < |Responses(s, evs)| ==>
      Responses(s, evs)[k].accepted.number < Responses(s, evs)[k].number
    decreases |evs|
  {
    if |evs| > 0 {
      ResponsesBelowNumber(Step(s, evs[0]), evs[1..]);
    }
  }

  /**
   * Value stickiness: while only prepares arrive, the accepted proposal
   * stays put and every response reports it.
   */
  lemma {:induction false} PreparesKeepAccepted(s: AcceptorState, evs: seq<Event>)
    requires forall k :: 0 <= k < |evs| ==> evs[k].Prepare?
    ensures Replay(s, evs).accepted == s.accepted
    ensures forall k :: 0 <= k < |Responses(s, evs)| ==> Responses(s, evs)[k].accepted == s.accepted
    decreases |evs|
  {
    if |evs| > 0 {
      PreparesKeepAccepted(Step(s, evs[0]), evs[1..]);
    }
  }

  /**
   * The accepted proposal only ever changes to the proposal of some accept
   * request that arrived.
   */
  lemma {:induction false} AcceptedComesFromRequest(s: AcceptorState, evs: seq<Event>)
    ensures Replay(s, evs).accepted == s.accepted
         || exists k :: 0 <= k < |evs| && evs[k].Accept? && Replay(s, evs).accepted == ToProposal(evs[k].req)
    decreases |evs|
  {
    if |evs| > 0 {
      var t := Step(s, evs[0]);
      AcceptedComesFromRequest(t, evs[1..]);
      if Replay(t, evs[1..]).accepted != t.accepted {
        var k :| 0 <= k < |evs[1..]| && evs[1..][k].Accept? && Replay(t, evs[1..]).accepted == ToProposal(evs[1..][k].req);
        assert evs[k + 1] == evs[1..][k];
      } else if t.accepted != s.accepted {
        assert evs[0].Accept?;
      }
    }
  }

  /**
   * A promise is kept: once the acceptor has promised n, whatever it
   * accepts afterwards is numbered n or higher.
   */
  lemma {:induction false} PromiseKept(s: AcceptorState, evs: seq<Event>, n: Int64)
    requires Inv(s) && n <= s.maxNum
    ensures Replay(s, evs).accepted == s.accepted || n <= Replay(s, evs).accepted.number
    decreases |evs|
  {
    if |evs| > 0 {
      var t := Step(s, evs[0]);
      PromiseKept(t, evs[1..], n);
      if t.accepted != s.accepted {
        ReplayMonotone(t, evs[1..]);
      }
    }
  }

  /** Handling one more request after a sequence of them is one more step. */
  lemma {:induction false} ReplayAppend(s: AcceptorState, evs: seq<Event>, e: Event)
    ensures Replay(s, evs + [e]) == Step(Replay(s, evs), e)
    decreases |evs|
  {
    if |evs| == 0 {
      assert [e][1..] == [];
    } else {
      assert (evs + [e])[1..] == evs[1..] + [e];
      ReplayAppend(Step(s, evs[0]), evs[1..], e);
    }
  }

  /** One turn's outcome of the select: which channel wins a tie, and whether an idle wait expires. */
  datatype Turn = Turn(pickAccept: bool, idleExpired: bool)

  /**
   * An acceptor's protocol state and running flag together with the
   * channels it touches: every prepare and accept queue, and every reply
   * queue, since it answers on whichever one a request names.
   */
  datatype Node = Node(
    state: AcceptorState,
    running: bool,
    prepareQueues: seq<seq<PrepareRequest>>,
    acceptQueues: seq<seq<AcceptRequest>>,
    replyQueues: seq<seq<PrepareResponse>>)

  /** The acceptor reads queues `pc` and `ac`, and each request queued for it names an existing reply queue. */
  predicate WellFormed(n: Node, pc: nat, ac: nat)
  {
    && pc < |n.prepareQueues| && ac < |n.acceptQueues|
    && forall k :: 0 <= k < |n.prepareQueues[pc]| ==> n.prepareQueues[pc][k].replyTo < |n.replyQueues|
  }

  /**
   * The request one turn of the select takes: the head of the prepare
   * queue, or of the accept queue, with `pickAccept` deciding when both
   * are non-empty. A running acceptor with a request pending always takes
   * one; a stopped one takes nothing.
   */
  function Taken(n: Node, pc: nat, ac: nat, t: Turn): (e: Option<Event>)
    requires pc < |n.prepareQueues| && ac < |n.acceptQueues|
    ensures e.Some? <==> n.running && (n.prepareQueues[pc] != [] || n.acceptQueues[ac] != [])
    ensures e.Some? && e.value.Prepare? ==>
      n.prepareQueues[pc] != [] && e.value.n == n.prepareQueues[pc][0].number
    ensures e.Some? && e.value.Accept? ==>
      n.acceptQueues[ac] != [] && e.value.req == n.acceptQueues[ac][0]
  {
    var pq, aq := n.prepareQueues[pc], n.acceptQueues[ac];
    if !n.running then None
    else if pq != [] && (aq == [] || !t.pickAccept) then Some(Prepare(pq[0].number))
    else if aq != [] then Some(Accept(aq[0]))
    else None
  }

  /**
   * The acceptor and its channels after one turn: the taken request leaves
   * its queue and is handled by the rule, and an honoured prepare is
   * answered on the reply queue it names. With nothing pending, an expired
   * idle timeout stops the acceptor.
   */
  function Advance(n: Node, pc: nat, ac: nat, t: Turn): (r: Node)
    requires WellFormed(n, pc, ac)
    ensures WellFormed(r, pc, ac)
    ensures |r.prepareQueues| == |n.prepareQueues| && |r.acceptQueues| == |n.acceptQueues|
    ensures |r.replyQueues| == |n.replyQueues|
    ensures Taken(n, pc, ac, t).Some? ==> r.running && r.state == Step(n.state, Taken(n, pc, ac, t).value)
    ensures Taken(n, pc, ac, t).None? ==>
      && r.state == n.state && r.prepareQueues == n.prepareQueues
      && r.acceptQueues == n.acceptQueues && r.replyQueues == n.replyQueues
      && r.running == (n.running && !t.idleExpired)
  {
    var pq, aq := n.prepareQueues[pc], n.acceptQueues[ac];
    if !n.running then n
    else if pq != [] && (aq == [] || !t.pickAccept) then
      var e := Prepare(pq[0].number);
      var out := Output(n.state, e);
      n.(state := Step(n.state, e),
         prepareQueues := n.prepareQueues[pc := pq[1..]],
         replyQueues := if out.Some? then Push(n.replyQueues, pq[0].replyTo, out.value) else n.replyQueues)
    else if aq != [] then
      n.(state := Step(n.state, Accept(aq[0])), acceptQueues := n.acceptQueues[ac := aq[1..]])
    else n.(running := !t.idleExpired)
  }

  /**
   * One turn, case by case. If the select takes the head prepare, that
   * request leaves its queue, the rule handles it, and an honoured prepare
   * is answered on the reply queue it names. If it takes the head accept,
   * that request leaves its queue, the rule handles it, and nothing is sent.
   * Otherwise nothing changes, except that a running acceptor with both
   * queues empty stops when the idle timeout expires.
   */
  lemma AdvanceCases(n: Node, pc: nat, ac: nat, t: Turn)
    requires WellFormed(n, pc, ac)
    ensures var pq, aq := n.prepareQueues[pc], n.acceptQueues[ac];
            var r := Advance(n, pc, ac, t);
            var takePrepare := n.running && pq != [] && (aq == [] || !t.pickAccept);
            var takeAccept := n.running && aq != [] && (pq == [] || t.pickAccept);
            && (takePrepare ==>
                  var ev := Prepare(pq[0].number);
                  var out := Output(n.state, ev);
                  && Taken(n, pc, ac, t) == Some(ev)
                  && r.state == Step(n.state, ev) && r.running
                  && r.prepareQueues == n.prepareQueues[pc := pq[1..]]
                  && r.acceptQueues == n.acceptQueues
                  && r.replyQueues == (if out.Some? then Push(n.replyQueues, pq[0].replyTo, out.value) else n.replyQueues))
            && (takeAccept ==>
                  var ev := Accept(aq[0]);
                  && Taken(n, pc, ac, t) == Some(ev)
                  && r.state == Step(n.state, ev) && r.running
                  && r.prepareQueues == n.prepareQueues
                  && r.acceptQueues == n.acceptQueues[ac := aq[1..]]
                  && r.replyQueues == n.replyQueues)
            && (!takePrepare && !takeAccept ==>
                  && Taken(n, pc, ac, t) == None
                  && r == n.(running := n.running && !(pq == [] && aq == [] && t.idleExpired)))
  {
  }

  /**
   * The acceptor's loop over `turns`, until they run out or the acceptor
   * stops: the final acceptor and channels, and the requests handled in order.
   */
  function RunTurns(n: Node, pc: nat, ac: nat, turns: seq<Turn>): (r: (Node, seq<Event>))
    requires WellFormed(n, pc, ac)
    ensures |r.1| <= |turns|
    ensures !n.running ==> r == (n, [])
    decreases |turns|
  {
    if |turns| == 0 || !n.running then (n, [])
    else
      var e := Taken(n, pc, ac, turns[0]);
      var rest := RunTurns(Advance(n, pc, ac, turns[0]), pc, ac, turns[1..]);
      (rest.0, (if e.Some? then [e.value] else []) + rest.1)
  }

  /** The loop from turn i on is turn i followed by the loop from turn i + 1 on. */
  lemma RunTurnsUnfold(n: Node, pc: nat, ac: nat, turns: seq<Turn>, i: nat)
    requires WellFormed(n, pc, ac) && n.running && i < |turns|
    ensures var e := Taken(n, pc, ac, turns[i]);
            var rest := RunTurns(Advance(n, pc, ac, turns[i]), pc, ac, turns[i + 1..]);
            RunTurns(n, pc, ac, turns[i..]) == (rest.0, (if e.Some? then [e.value] else []) + rest.1)
  {
    assert turns[i..][0] == turns[i] && turns[i..][1..] == turns[i + 1..];
  }

  /** A loop that started at `start` and has reached `cur` after `i` of `turns`, having handled
      `handled`, ends where the whole fold ends once it runs the remaining turns. */
  ghost predicate Resumes(start: Node, cur: Node, pc: nat, ac: nat, turns: seq<Turn>, i: nat, handled: seq<Event>)
  {
    && WellFormed(start, pc, ac) && WellFormed(cur, pc, ac) && i <= |turns|
    && var rest := RunTurns(cur, pc, ac, turns[i..]);
       RunTurns(start, pc, ac, turns) == (rest.0, handled + rest.1)
  }

  /** Serving one more turn keeps the loop's account. */
  lemma RunTurnsStep(start: Node, n: Node, pc: nat, ac: nat, turns: seq<Turn>, i: nat, handled: seq<Event>)
    requires Resumes(start, n, pc, ac, turns, i, handled) && n.running && i < |turns|
    ensures var e := Taken(n, pc, ac, turns[i]);
            Resumes(start, Advance(n, pc, ac, turns[i]), pc, ac, turns, i + 1,
                    handled + (if e.Some? then [e.value] else []))
  {
    RunTurnsUnfold(n, pc, ac, turns, i);
    var e := Taken(n, pc, ac, turns[i]);
    var now := if e.Some? then [e.value] else [];
    var rest := RunTurns(Advance(n, pc, ac, turns[i]), pc, ac, turns[i + 1..]);
    assert (handled + now) + rest.1 == handled + (now + rest.1);
  }

  /** Once the turns run out or the acceptor stops, the loop has done what the whole fold does. */
  lemma ResumesDone(start: Node, n: Node, pc: nat, ac: nat, turns: seq<Turn>, i: nat, handled: seq<Event>)
    requires Resumes(start, n, pc, ac, turns, i, handled) && (i == |turns| || !n.running)
    ensures RunTurns(start, pc, ac, turns) == (n, handled)
  {
    assert handled + [] == handled;
  }

  /** The numbers of the prepare requests among `evs`, in order. */
  function PrepareNumbers(evs: seq<Event>): seq<Int64>
    decreases |evs|
  {
    if |evs| == 0 then []
    else (if evs[0].Prepare? then [evs[0].n] else []) + PrepareNumbers(evs[1..])
  }

  /** The accept requests among `evs`, in order. */
  function AcceptsOf(evs: seq<Event>): seq<AcceptRequest>
    decreases |evs|
  {
    if |evs| == 0 then []
    else (if evs[0].Accept? then [evs[0].req] else []) + AcceptsOf(evs[1..])
  }

  /**
   * The reply queues after an acceptor starting in state `s` handles `evs`
   * in order, where the i-th prepare among them came with the i-th request
   * of `reqs`: each honoured prepare appends its response to the reply
   * queue its request names.
   */
  function Replies(qs: seq<seq<PrepareResponse>>, s: AcceptorState, evs: seq<Event>, reqs: seq<PrepareRequest>)
    : (r: seq<seq<PrepareResponse>>)
    requires forall k :: 0 <= k < |reqs| ==> reqs[k].replyTo < |qs|
    ensures |r| == |qs|
    decreases |evs|
  {
    if |evs| == 0 then qs
    else if evs[0].Prepare? && |reqs| > 0 then
      var out := Output(s, evs[0]);
      Replies(if out.Some? then Push(qs, reqs[0].replyTo, out.value) else qs, Step(s, evs[0]), evs[1..], reqs[1..])
    else
      Replies(qs, Step(s, evs[0]), evs[1..], reqs)
  }

  /**
   * The acceptor started as `n` and, handling `evs`, ended as `m`: it
   * handled a prefix of its prepare queue and a prefix of its accept queue,
   * interleaved, and left the rest queued; its state is the rule replayed
   * over the handled requests; and the reply queues gained exactly the
   * responses to the honoured prepares, each on the channel its request named.
   */
  ghost predicate Traced(n: Node, pc: nat, ac: nat, m: Node, evs: seq<Event>)
    requires WellFormed(n, pc, ac)
  {
    var pq, aq := n.prepareQueues[pc], n.acceptQueues[ac];
    var kp, ka := |PrepareNumbers(evs)|, |AcceptsOf(evs)|;
    && kp <= |pq| && ka <= |aq|
    && (forall k :: 0 <= k < kp ==> PrepareNumbers(evs)[k] == pq[k].number)
    && AcceptsOf(evs) == aq[..ka]
    && m.prepareQueues == n.prepareQueues[pc := pq[kp..]]
    && m.acceptQueues == n.acceptQueues[ac := aq[ka..]]
    && m.replyQueues == Replies(n.replyQueues, n.state, evs, pq)
    && m.state == Replay(n.state, evs)
  }

  /** A turn that takes a prepare, followed by a traced run, is a traced run. */
  lemma TracedPrepare(n: Node, pc: nat, ac: nat, t: Turn, m: Node, rest: seq<Event>)
    requires WellFormed(n, pc, ac)
    requires Taken(n, pc, ac, t).Some? && Taken(n, pc, ac, t).value.Prepare?
    requires Traced(Advance(n, pc, ac, t), pc, ac, m, rest)
    ensures Traced(n, pc, ac, m, [Taken(n, pc, ac, t).value] + rest)
  {
    var e := Taken(n, pc, ac, t).value;
    var evs := [e] + rest;
    var n' := Advance(n, pc, ac, t);
    var pq := n.prepareQueues[pc];
    assert evs[0] == e && evs[1..] == rest;
    assert n'.prepareQueues[pc] == pq[1..];
    assert n'.acceptQueues == n.acceptQueues;
    var kp := |PrepareNumbers(rest)|;
    assert PrepareNumbers(evs) == [e.n] + PrepareNumbers(rest);
    assert AcceptsOf(evs) == AcceptsOf(rest);
    assert pq[1..][kp..] == pq[kp + 1..];
  }

  /** A turn that takes an accept, followed by a traced run, is a traced run. */
  lemma TracedAccept(n: Node, pc: nat, ac: nat, t: Turn, m: Node, rest: seq<Event>)
    requires WellFormed(n, pc, ac)
    requires Taken(n, pc, ac, t).Some? && Taken(n, pc, ac, t).value.Accept?
    requires Traced(Advance(n, pc, ac, t), pc, ac, m, rest)
    ensures Traced(n, pc, ac, m, [Taken(n, pc, ac, t).value] + rest)
  {
    var e := Taken(n, pc, ac, t).value;
    var evs := [e] + rest;
    var n' := Advance(n, pc, ac, t);
    var aq := n.acceptQueues[ac];
    assert evs[0] == e && evs[1..] == rest;
    assert Replies(n.replyQueues, n.state, evs, n.prepareQueues[pc])
        == Replies(n.replyQueues, n'.state, rest, n.prepareQueues[pc]);
    assert n'.prepareQueues == n.prepareQueues;
    assert n'.acceptQueues[ac] == aq[1..];
    assert n'.replyQueues == n.replyQueues;
    var ka := |AcceptsOf(rest)|;
    assert aq[1..][ka..] == aq[ka + 1..];
    assert [aq[0]] + aq[1..][..ka] == aq[..ka + 1];
  }

  /** The acceptor's loop over any turns is a traced run. */
  lemma {:induction false} RunTurnsTrace(n: Node, pc: nat, ac: nat, turns: seq<Turn>)
    requires WellFormed(n, pc, ac)
    ensures Traced(n, pc, ac, RunTurns(n, pc, ac, turns).0, RunTurns(n, pc, ac, turns).1)
    decreases |turns|
  {
    var pq, aq := n.prepareQueues[pc], n.acceptQueues[ac];
    if |turns| == 0 || !n.running {
      assert pq[0..] == pq && aq[0..] == aq && aq[..0] == [];
    } else {
      var t := turns[0];
      var n' := Advance(n, pc, ac, t);
      var e := Taken(n, pc, ac, t);
      RunTurnsTrace(n', pc, ac, turns[1..]);
      var (m, rest) := RunTurns(n', pc, ac, turns[1..]);
      if e.None? {
        assert n' == n.(running := n'.running);
      } else if e.value.Prepare? {
        TracedPrepare(n, pc, ac, t, m, rest);
      } else {
        TracedAccept(n, pc, ac, t, m, rest);
      }
    }
  }

  /**
   * An acceptor: its name, the two channels it reads, its protocol state,
   * and whether its loop is still running (it stops for good when it has
   * been idle too long).
   */
  class Acceptor {
    var name: string
    var prepareChan: nat
    var acceptChan: nat
    var maxNum: Int64
    var accepted: Proposal
    var running: bool

    function State(): AcceptorState
      reads this
    {
      AcceptorState(maxNum, accepted)
    }

    ghost predicate Valid()
      reads this
    {
      Inv(State())
    }

    /** This acceptor together with the channels of `net`, as a value. */
    function Snapshot(net: Network): Node
      reads this, net
    {
      Node(State(), running, net.prepareQueues, net.acceptQueues, net.replyQueues)
    }

    /**
     * A new acceptor on the given channels, in the state its loop starts
     * from: no promise, nothing accepted.
     */
    constructor (name: string, prepareChan: nat, acceptChan: nat)
      ensures Valid() && running
      ensures this.name == name && this.prepareChan == prepareChan && this.acceptChan == acceptChan
      ensures maxNum == NoNumber && accepted == Unaccepted
      ensures State() == Initial()
    {
      this.name := name;
      this.prepareChan := prepareChan;
      this.acceptChan := acceptChan;
      maxNum := NoNumber;
      accepted := Unaccepted;
      running := true;
    }

    /** Handles a prepare request numbered n. */
    method OnPrepare(n: Int64) returns (r: Option<PrepareResponse>)
      requires Valid()
      modifies this`maxNum
      ensures Valid()
      ensures n > old(maxNum) ==> maxNum == n && r == Some(PrepareResponse(n, accepted))
      ensures n <= old(maxNum) ==> maxNum == old(maxNum) && r == None
      ensures r.Some? ==> r.value.accepted.number < r.value.number
      ensures State() == Step(old(State()), Prepare(n))
      ensures r == Output(old(State()), Prepare(n))
    {
      if n > maxNum {
        maxNum := n;
        r := Some(PrepareResponse(n, accepted));
      } else {
        r := None;
      }
    }

    /** Handles an accept request. */
    method OnAccept(req: AcceptRequest)
      requires Valid()
      modifies this`maxNum, this`accepted
      ensures Valid()
      ensures req.number >= old(maxNum) ==> maxNum == req.number && accepted == Proposal(req.number, req.value)
      ensures req.number < old(maxNum) ==> maxNum == old(maxNum) && accepted == old(accepted)
      ensures old(maxNum) <= maxNum && old(accepted.number) <= accepted.number
      ensures State() == Step(old(State()), Accept(req))
    {
      if req.number >= maxNum {
        maxNum := req.number;
        accepted := ToProposal(req);
      }
    }

    /**
     * One turn of the acceptor's loop: it does exactly what `Taken` and
     * `Advance` say, which `AdvanceCases` spells out case by case. When both
     * channels hold a request, `pickAccept` says which one the select takes;
     * when both are empty, `idleExpired` says whether the idle timeout fires,
     * which stops the loop for good. A stopped acceptor handles nothing. The
     * handled request is returned.
     */
    method Serve(net: Network, pickAccept: bool, idleExpired: bool) returns (handled: Option<Event>)
      requires Valid() && net.Valid()
      requires prepareChan < |net.prepareQueues| && acceptChan < |net.acceptQueues|
      modifies this`maxNum, this`accepted, this`running, net
      ensures Valid() && net.Valid()
      ensures handled == Taken(old(Snapshot(net)), prepareChan, acceptChan, Turn(pickAccept, idleExpired))
      ensures Snapshot(net) == Advance(old(Snapshot(net)), prepareChan, acceptChan, Turn(pickAccept, idleExpired))
    {
      handled := None;
      if !running {
        return;
      }
      var pq := net.prepareQueues[prepareChan];
      var aq := net.acceptQueues[acceptChan];
      if pq != [] && (aq == [] || !pickAccept) {
        var req := pq[0];
        net.prepareQueues := net.prepareQueues[prepareChan := pq[1..]];
        var out := OnPrepare(req.number);
        if out.Some? {
          net.replyQueues := Push(net.replyQueues, req.replyTo, out.value);
        }
        handled := Some(Prepare(req.number));
      } else if aq != [] {
        var req := aq[0];
        net.acceptQueues := net.acceptQueues[acceptChan := aq[1..]];
        OnAccept(req);
        handled := Some(Accept(req));
      } else if idleExpired {
        running := false;
      }
    }

    /**
     * The acceptor's loop, one iteration per turn, until the turns run out
     * or the idle timeout stops it. Returns the requests it handled, in
     * order. The acceptor and the channels end as `RunTurns` says, which
     * `RunTurnsTrace` relates to the queues: the handled requests are the
     * heads of its two queues, the rule replayed over them gives its
     * state, and the responses land on the channels the requests named.
     */
    method Run(net: Network, turns: seq<Turn>) returns (handled: seq<Event>)
      requires Valid() && net.Valid()
      requires prepareChan < |net.prepareQueues| && acceptChan < |net.acceptQueues|
      modifies this`maxNum, this`accepted, this`running, net
      ensures Valid() && net.Valid()
      ensures WellFormed(old(Snapshot(net)), prepareChan, acceptChan)
      ensures Snapshot(net) == RunTurns(old(Snapshot(net)), prepareChan, acceptChan, turns).0
      ensures handled == RunTurns(old(Snapshot(net)), prepareChan, acceptChan, turns).1
      ensures Traced(old(Snapshot(net)), prepareChan, acceptChan, Snapshot(net), handled)
      ensures old(maxNum) <= maxNum && old(accepted.number) <= accepted.number
      ensures !old(running) ==> handled == [] && !running
    {
      ghost var start := Snapshot(net);
      ghost var cur := start;
      handled := [];
      var i := 0;
      assert turns[0..] == turns && [] + RunTurns(start, prepareChan, acceptChan, turns).1 == RunTurns(start, prepareChan, acceptChan, turns).1;
      while i < |turns| && running
        invariant Valid() && net.Valid() && Snapshot(net) == cur
        invariant Resumes(start, cur, prepareChan, acceptChan, turns, i, handled)
      {
        var t := turns[i];
        assert Turn(t.pickAccept, t.idleExpired) == t;
        RunTurnsStep(start, cur, prepareChan, acceptChan, turns, i, handled);
        var h := Serve(net, t.pickAccept, t.idleExpired);
        handled := handled + (if h.Some? then [h.value] else []);
        cur := Advance(cur, prepareChan, acceptChan, t);
        i := i + 1;
      }
      ResumesDone(start, cur, prepareChan, acceptChan, turns, i, handled);
      RunTurnsTrace(start, prepareChan, acceptChan, turns);
      ReplayMonotone(start.state, handled);
    }
  }
}
