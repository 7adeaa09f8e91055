# Single-decree Paxos in Dafny

This project models the protocol engine of single-decree-paxos-go: the
message records, the acceptor and the proposer. The protocol is the one of
Lamport's "Paxos Made Simple" (2001), section 2.2, "Choosing a Value".

- `messages.dfy` (module `Messages`) holds the four message records as
  datatypes. Numbers and values are Go `int64`s (`Int64`). The number -1 is
  the "nothing accepted" sentinel (`NoNumber`).
- `transport.dfy` (module `Transport`) models the channels as FIFO queues held
  by a `Network` object. There is one prepare queue and one accept queue per
  acceptor, and one reply queue per proposer round. A reply channel is the
  index of its queue. `Broadcast` is the proposer's send loop, where each send
  may time out and be skipped.
- `acceptor.dfy` (module `Acceptors`) states the acceptor's compare-and-update
  rule twice:
  - as pure functions (`Step`, `Output`), with lemmas over whole request
    traces (`Replay`, `Responses`);
  - as the class `Acceptor`, whose methods update `maxNum` and `accepted` in
    place and are proved to follow the pure rule. `Serve` is one iteration of
    the `for`/`select` loop, and `Run` is the loop itself.
- `proposer.dfy` (module `Proposers`) holds the adoption scan:
  - the pure running maximum `Adopt`, with its characterisation `IsAdopted`;
  - the loop `ScanAccepted`, proved equal to `Adopt`;
  - the class `Proposer`, whose round is split where it waits for responses.
    `Prepare` is phase 1. `Finish` is the collection of two responses, the
    adoption and phase 2.
- `cluster.dfy` (module `Cluster`) wires three acceptors and any number of
  proposer rounds the way main.go does:
  - `Round` is a pure statement of one round against three acceptor states.
  - `RunRound` drives the objects and is proved to do exactly what `Round`
    says.
  - The safety argument is proved on `Round` (`RoundKeepsChosen`,
    `ChosenIsFinal`). Call v chosen at n when two conditions hold. First, two
    of the three acceptors hold proposals numbered n or above. Second, every
    proposal numbered n or above that any acceptor holds carries v. Once v is
    chosen at n, it stays chosen and every later round proposes v. For
    arbitrary acceptor states the second condition is needed. With states
    (5, (5, 1)), (5, (5, 1)) and (7, (7, 2)), two acceptors hold value 1, yet
    a round numbered 8 that hears only from the first and third acceptors
    proposes 2 (`AgreementNeeded`). Those states cannot arise from fresh
    acceptors: the first two promised 5 and never lower a promise, so a
    round numbered 7 could have had only one answer and never sent
    (7, 2). The example shows what the lemma's premise needs, not a
    behaviour of the protocol.
  - The demonstration's rounds (1, 41), (2, 42) and (3, 10) end with every
    acceptor holding (3, 41) when each round completes before the next
    begins (`SequentialRounds`).

Two details follow the code exactly:

- **Initial accepted proposal.** The acceptor's initial accepted proposal is
  `Proposal{ProposalNumber: -1}`. Its value is Go's zero value, so the
  proposal is (-1, 0).
- **Quorum.** The collection waits for exactly 2 responses, whatever the
  number of acceptors. A majority quorum, ⌊N/2⌋+1 of N acceptors, equals 2
  only for N = 2 or 3. `Cluster` fixes N = 3, where 2 is a majority.

## Model

| member | source | states |
|---|---|---|
| Messages.ToProposal | paxos/acceptor.go:85-88 | the proposal an acceptor records from an accept request converts back to exactly that request: no field is lost |
| Messages.ProposalRoundTrip | paxos/messages.go:17-26 | a proposal and an accept request carry the same two int64 fields, so a proposal survives the round trip unchanged |
| Transport.Network.constructor | main.go:104-114 | one empty prepare queue and one empty accept queue per acceptor, and no reply channel yet |
| Transport.Network.NewReplyChannel | paxos/proposer.go:59 | a round's reply channel is new and empty, distinct from every existing one; nothing else changes |
| Transport.Broadcast | paxos/proposer.go:68-75 | the queues after the send loop offers one message to each target in index order, skipping the timed-out positions; the number of queues is unchanged (BroadcastQueue and BroadcastDistinct give each queue's content) |
| Transport.BroadcastQueue | paxos/proposer.go:68-75 | a broadcast appends the message to each queue once per send that reaches it, in order, and changes nothing else |
| Transport.HitsDistinct | paxos/proposer.go:68-75 | over distinct targets, a broadcast reaches a queue at most once, and reaches it iff some position not timed out names it |
| Transport.BroadcastDistinct | paxos/proposer.go:123-133 | over distinct targets, each queue named at a position that did not time out gains the message exactly once, and every other queue is unchanged |
| Acceptors.Initial | paxos/acceptor.go:49-52 | a new acceptor has promise -1 and an accepted proposal numbered -1, and satisfies the invariant accepted.number <= maxNum |
| Acceptors.Step | paxos/acceptor.go:60-88 | a prepare above the promise raises the promise to its number and keeps the accepted proposal; a prepare at or below the promise changes nothing; an accept at or above the promise sets the promise to its number and records its proposal; a stale accept changes nothing; the invariant is preserved and both numbers never decrease |
| Acceptors.Output | paxos/acceptor.go:60-68 | a response is produced only for a prepare, and it echoes the request's number with the accepted proposal at reply time; a prepare goes unanswered iff it changes nothing; under the invariant, the reported number is strictly below the response's number |
| Acceptors.Replay | paxos/acceptor.go:56-103 | the state after handling a sequence of requests in order; the promise never decreases |
| Acceptors.Responses | paxos/acceptor.go:56-103 | the responses sent while handling a sequence of requests in order; there is at most one per request |
| Acceptors.ReplayMonotone | paxos/acceptor.go:56-103 | across any sequence of requests, the invariant holds and the accepted number never decreases |
| Acceptors.ResponsesBelowNumber | paxos/acceptor.go:60-66 | every response an acceptor ever sends reports a proposal numbered strictly below the response's own number |
| Acceptors.PreparesKeepAccepted | paxos/acceptor.go:60-68 | while only prepares arrive, the accepted proposal is unchanged and every response reports it |
| Acceptors.AcceptedComesFromRequest | paxos/acceptor.go:83-88 | the accepted proposal is either the initial one or the proposal of some accept request that arrived |
| Acceptors.PromiseKept | paxos/acceptor.go:60-88 | once the acceptor has promised n, anything it accepts afterwards is numbered n or above |
| Acceptors.ReplayAppend | paxos/acceptor.go:56-103 | handling one more request after a sequence of them is one more step of the rule |
| Acceptors.Taken | paxos/acceptor.go:56-78 | one turn of the select takes a request iff the acceptor is running and a request is pending; the request it takes is the head of the prepare queue or of the accept queue |
| Acceptors.Advance | paxos/acceptor.go:56-102 | after one turn, the taken request has been handled by the rule and the acceptor keeps running; with nothing taken, state and channels are unchanged, and a running acceptor stops iff the idle timeout expired; the channel shapes are preserved |
| Acceptors.AdvanceCases | paxos/acceptor.go:56-102 | one turn case by case: a stopped acceptor does nothing; a pending prepare (taken when no accept is pending or the tie goes to prepares) is dequeued, handled by the rule and answered on its own reply channel when honoured; otherwise a pending accept is dequeued and handled; with both channels empty the acceptor stops iff the idle timeout expired |
| Acceptors.RunTurns | paxos/acceptor.go:56-103 | the loop over the turns, until they run out or the acceptor stops, handles at most one request per turn; a stopped acceptor handles nothing and changes nothing |
| Acceptors.RunTurnsUnfold | paxos/acceptor.go:56-103 | from any turn on, the loop of a running acceptor is that turn followed by the loop over the turns after it |
| Acceptors.RunTurnsStep | paxos/acceptor.go:56-103 | serving one more turn, and appending what it took to the requests handled so far, keeps the account that the rest of the loop ends where the whole loop ends |
| Acceptors.ResumesDone | paxos/acceptor.go:56-103 | once the turns run out or the acceptor stops, the loop's node and handled requests are those of the whole loop |
| Acceptors.Replies | paxos/acceptor.go:60-68 | each honoured prepare among the handled requests appends its response to the reply queue its request names; the number of reply queues is unchanged |
| Acceptors.TracedPrepare | paxos/acceptor.go:58-68 | a turn that takes the head prepare, followed by a traced run, is a traced run |
| Acceptors.TracedAccept | paxos/acceptor.go:78-88 | a turn that takes the head accept, followed by a traced run, is a traced run |
| Acceptors.RunTurnsTrace | paxos/acceptor.go:56-103 | the loop handles a prefix of the prepare queue and a prefix of the accept queue, interleaved, and leaves the rest queued. Its state is the rule replayed over the handled requests. The reply queues gain exactly the responses to the honoured prepares, each on the channel its request named |
| Acceptors.Acceptor.constructor | paxos/acceptor.go:28-52 | stores the name and both channels, and starts the loop with promise -1 and the unaccepted proposal (-1, 0) |
| Acceptors.Acceptor.OnPrepare | paxos/acceptor.go:60-77 | for n > maxNum, raises maxNum to n and returns (n, accepted); otherwise changes nothing and returns nothing; the reported number is below n; agrees with Step and Output |
| Acceptors.Acceptor.OnAccept | paxos/acceptor.go:83-96 | for n >= maxNum, sets maxNum to n and accepted to (n, v); otherwise changes nothing; both numbers are monotone; agrees with Step |
| Acceptors.Acceptor.Serve | paxos/acceptor.go:56-102 | one turn of the select: it takes the head of a non-empty channel (the tie choice is a parameter), applies the rule and answers on that request's own reply channel; with both channels empty and the idle timeout fired, it stops for good; a stopped acceptor does nothing; in all, it does exactly what Taken and Advance say |
| Acceptors.Acceptor.Run | paxos/acceptor.go:41-106 | the acceptor and the channels end exactly as RunTurns says, and the run is traced (see RunTurnsTrace): the handled requests are the heads of its queues, in order, its state is the rule replayed over them, and the reply queues gain exactly their responses; both numbers are monotone; a stopped acceptor handles nothing |
| Proposers.Adopt | paxos/proposer.go:103-110 | the scan yields the sentinel when no response reports a number above -1; otherwise it yields the highest-numbered reported proposal, from the earliest response that reports that number |
| Proposers.AdoptExtend | paxos/proposer.go:106-110 | one more iteration of the running maximum keeps that characterisation |
| Proposers.AdoptedUnique | paxos/proposer.go:103-110 | exactly one proposal meets the characterisation, so it pins the scan's result down |
| Proposers.ScanAccepted | paxos/proposer.go:103-110 | the scan loop yields exactly Adopt of the responses |
| Proposers.ChooseValue | paxos/proposer.go:112-114 | the proposer keeps its own value iff no response reports a number above -1; otherwise it takes the value of a reported proposal of maximal number |
| Proposers.Proposer.constructor | paxos/proposer.go:34-45 | stores name, num, val and both channel lists unchanged |
| Proposers.Proposer.Prepare | paxos/proposer.go:59-75 | creates the round's private reply channel and offers PrepareRequest(num, that channel) to each acceptor in index order, skipping the timed-out positions; accept queues are untouched |
| Proposers.Proposer.Finish | paxos/proposer.go:77-135 | with fewer than 2 responses queued, the round aborts: nothing is sent and val is kept. Otherwise it takes the first 2 responses, sets val to ChooseValue of them, and offers AcceptRequest(num, val) to each acceptor in index order, skipping the timed-out positions |
| Proposers.PushKeepsValid | paxos/proposer.go:61-70 | a prepare request naming an existing reply channel keeps every pending request's reply channel existing |
| Cluster.Answer | paxos/acceptor.go:60-68 | an acceptor answers a round at most once; it answers iff the prepare reached it and n exceeds its promise, and the answer is (n, accepted) |
| Cluster.Round | paxos/proposer.go:50-136 | an accept request sent by a round always carries the round's own number |
| Cluster.QuorumsIntersect | paxos/proposer.go:79 | when two of three acceptors hold proposals numbered n or above, the two responses a round acts on include one of them |
| Cluster.ChosenValueProposed | paxos/proposer.go:103-119 | when v is chosen at n, a round that collects two responses proposes v, with a number above n |
| Cluster.AcceptorKeepsChosen | paxos/acceptor.go:60-88 | an acceptor going through a round that only proposes v at numbers n or above keeps its invariant, never holds a lower-numbered proposal than before, and still holds v if it holds anything numbered n or above |
| Cluster.KeepsChosenPointwise | paxos/proposer.go:79 | if each of the three acceptors keeps its invariant, holds no lower-numbered proposal than before and holds v whenever it holds something numbered n or above, a value chosen at n stays chosen |
| Cluster.RoundKeepsChosen | paxos/proposer.go:59-133 | suppose two acceptors hold proposals numbered n or above, and every proposal numbered n or above carries v. Then this stays so through any round, whatever its number, value and timeouts, and a round that reaches phase 2 proposes v at a number above n |
| Cluster.AgreementNeeded | paxos/proposer.go:103-114 | for arbitrary states, two acceptors holding (5, 1) do not by themselves fix the value: a round numbered 8 that hears from one of them and from an acceptor holding (7, 2) proposes 2 (these states are unreachable from fresh acceptors, so this shows only that the premise of RoundKeepsChosen is needed) |
| Cluster.RunRounds | main.go:127-131 | rounds run one after the other: one phase-2 outcome per round, and three acceptor states at the end |
| Cluster.ChosenIsFinal | paxos/proposer.go:50-136 | once v is chosen, every accept request of every later round, in any number of rounds, carries v |
| Cluster.FirstRoundChooses | paxos/proposer.go:112-119 | on fresh acceptors, a round numbered 0 or above whose accept request reaches two acceptors chooses its own value |
| Cluster.FreshRoundValue | paxos/proposer.go:112-114 | a round against fresh acceptors that sends anything sends its own value, since no response reports an accepted proposal |
| Cluster.FreshAcceptorTakes | paxos/acceptor.go:60-88 | a fresh acceptor that a round above -1 reaches with its accept holds exactly that proposal, and no fresh acceptor holds any other proposal numbered at or above the round; the invariant holds |
| Cluster.SentinelRoundAborts | paxos/acceptor.go:60 | a round numbered -1 or below gets no answer, sends nothing and changes no acceptor |
| Cluster.SentinelAcceptForgotten | paxos/acceptor.go:83-88 | a fresh acceptor takes accept (-1, v) and stores (-1, v); a later round reads it as nothing accepted and keeps its own value |
| Cluster.NewCluster | main.go:104-124 | three fresh acceptors on channels 0, 1 and 2 of an empty network |
| Cluster.ServePrepare | paxos/acceptor.go:58-77 | an acceptor's turn with one prepare queued appends exactly its Answer to the request's reply channel and changes its state as the rule says |
| Cluster.ServeAccept | paxos/acceptor.go:78-96 | an acceptor's turn with one accept queued changes its state as the rule says and sends nothing |
| Cluster.ServePrepares | paxos/acceptor.go:58-77 | one turn of each acceptor, with the prepare queued where it was not skipped, applies the rule to each and leaves their answers on the reply channel in channel order |
| Cluster.ServeAccepts | paxos/acceptor.go:78-96 | one turn of each acceptor, with the accept request queued where it was not skipped, applies the rule to each, empties the channels and sends nothing |
| Cluster.PhaseTwo | paxos/proposer.go:77-135 | once a round's replies are in, it sends nothing and changes no acceptor when fewer than 2 arrived; otherwise it sends (num, ChooseValue of the first 2 replies), the proposer's val becomes that value, and each acceptor the request reaches applies the accept rule; the channels end empty |
| Cluster.PhaseOne | paxos/proposer.go:59-75 | phase 1 followed by one turn of each acceptor leaves the answers on the round's reply channel, in channel order |
| Cluster.RunRound | paxos/proposer.go:50-136 | driving the objects through a round sends exactly the request Round says and leaves the acceptors in exactly the states Round gives; the proposer's val becomes the sent value, or stays as it was when nothing is sent; the round adds exactly one reply channel |
| Cluster.DemoRounds | main.go:127-131 | rounds (1, 41), (2, 42) and (3, 10), fully delivered one after the other (P1's round completes before P2's begins), send (1, 41), (2, 41) and (3, 41) |
| Cluster.DemoLearns | paxos/proposer.go:103-114 | a round above n against acceptors all holding (n, v) adopts and proposes v |
| Cluster.DemoValueSticks | main.go:127-131 | after the first demonstration round, every later round, with any inputs, proposes only 41 |
| Cluster.SequentialRounds | main.go:126-131 | the demonstration driven through the objects, with P1's round completing before P2's begins, ends with every acceptor holding (3, 41) |
| Cluster.DemoRound | main.go:126-131 | a new proposer's fully delivered round driven through the objects sends what Round says and leaves the acceptors in the states Round gives, with the channels empty again |
| Cluster.StaleRoundAborts | paxos/acceptor.go:75-77 | a round (0, 99) after the first demonstration round gets no answer, sends nothing and changes no acceptor |

## Left out

- Goroutines, `select` fairness, buffered channels and `sync.WaitGroup` are
  not modelled as concurrency. Sends never block, so buffer capacity is not
  modelled.
  - Which channel a `select` takes when both are ready is a parameter of
    `Serve`.
  - In `Cluster`, only one interleaving is modelled: each round's phase 1,
    then one turn of each acceptor in channel order, then the rest of the
    round, then one more turn of each acceptor. Rounds do not overlap.
- Wall-clock timeouts (`time.After`) are modelled as parameters:
  - which sends of a broadcast time out;
  - whether the idle acceptor gives up.

  A round's collection times out exactly when its reply queue runs dry
  before two responses have arrived. The durations, including the acceptor's
  switch from 10 s to 3 s after its first accept, are not modelled.
- Logging through logrus is not modelled; it is output only.
- The `shutdown` flag of the acceptor loop and the global one in main.go are
  never set, so the loop ends only on the idle timeout.
- The `waitGroup` fields and `Done` calls are not modelled.
- main.go's own `acceptor` function is a copy of `Acceptor.Run` and is not
  modelled separately. main.go starts the third proposer after a one-second delay.
  That is a timing choice, and the demonstration models it as that round
  coming last.
- The proposer's `Run` is split into `Prepare` and `Finish` so that a driver
  can let the acceptors act between the two. No state is held across the
  split other than the returned reply channel.
- `NewAcceptor` and the start of `Acceptor.Run`, where the locals are
  initialised, are merged into one constructor. The acceptor's protocol
  state lives in fields rather than locals.
- The channel-identity assertions of the Go tests are not modelled;
  pointer equality of channels has no counterpart in the model.
- Acceptors.Acceptor.Run: it stops when the given turns run out, which is
  not the loop's real end. The loop's real end is only the idle timeout.
  Nothing else writes to the channels while it runs.
- Cluster.RoundKeepsChosen: the safety argument covers the three-acceptor
  wiring of main.go and the sequential interleaving above. It does not
  cover N acceptors or concurrent rounds. With more than three acceptors,
  the hard-coded quorum of 2 is not a majority. `Chosen` is established
  from a run only for a first round on fresh acceptors
  (`FirstRoundChooses`, the demonstration's `DemoChosen`). No lemma shows
  that two acceptors accepting (n, v) in a later round, after earlier
  rounds that aborted or partly delivered, gives `Chosen`.
- Cluster.SequentialRounds: main.go runs P1 and P2 at the same time. When
  P2's prepare reaches the acceptors between P1's prepare and P1's accept,
  P1's accept (1, 41) is refused and the run ends with (3, 42). Only the
  order in which P1's round completes first is modelled.
