/**
 * The messages exchanged between proposers and acceptors of single-decree
 * Paxos (paxos/messages.go). All four records are immutable values; the
 * reply channel of a PrepareRequest becomes the identifier of a reply queue
 * held by the transport.
 */
module Messages {

  /** Go's int64: every proposal number and value in the protocol is one. */
  const MinInt64: int := -0x8000_0000_0000_0000
  const MaxInt64: int := 0x7FFF_FFFF_FFFF_FFFF
  type Int64 = x: int | MinInt64 <= x <= MaxInt64

  /** Identifies a reply channel: an index into the transport's reply queues. */
  type ChannelId = nat

  datatype Option<T> = None | Some(value: T)

  /** A value paired with the number of the proposal that carries it. */
  datatype Proposal = Proposal(number: Int64, value: Int64)

  /** Phase 1a: the proposal number and the issuing round's private reply channel. */
  datatype PrepareRequest = PrepareRequest(number: Int64, replyTo: ChannelId)

  /** Phase 1b: the echoed number and the acceptor's accepted proposal at reply time. */
  datatype PrepareResponse = PrepareResponse(number: Int64, accepted: Proposal)

  /** Phase 2a: the proposal number and the value to accept. */
  datatype AcceptRequest = AcceptRequest(number: Int64, value: Int64)

  /** The number -1 means "nothing accepted", for acceptors and proposers alike. */
  const NoNumber: Int64 := -1

  /**
   * The accepted proposal of an acceptor that has accepted nothing: the
   * sentinel number and Go's zero value for the value field.
   */
  const Unaccepted: Proposal := Proposal(NoNumber, 0)

  /** The proposal an acceptor records when it takes an accept request. */
  function ToProposal(req: AcceptRequest): (p: Proposal)
    ensures ToRequest(p) == req
  {
    Proposal(req.number, req.value)
  }

  /** The accept request a proposer builds for a proposal number and a value. */
  function ToRequest(p: Proposal): (req: AcceptRequest)
  {
    AcceptRequest(p.number, p.value)
  }

  /** Converting a proposal to an accept request and back loses nothing. */
  lemma ProposalRoundTrip(p: Proposal)
    ensures ToProposal(ToRequest(p)) == p
  {
  }
}
