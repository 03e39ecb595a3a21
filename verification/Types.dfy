/** Values exchanged by the engine: blocks, votes, seals, parsed peer messages and
    errors, already decoded from their wire form, and the environment of one step. */
module Types {

  datatype Option<+T> = None | Some(value: T)

  datatype PeerId = PeerId(key: string)

  datatype BlockId = BlockId(hash: string)

  datatype PbftError =
    | WrongNumSeals(expected: nat, found: nat)
    | BlockMismatch(known: PbftBlock, other: PbftBlock)
    | ViewMismatch(messageView: nat, currentView: nat)
    | InternalError
    | SerializationError
    | Timeout
    | NoWorkingBlock
    | NotReadyForMessage
    | NotFromPrimary
    | NoBlockNew

  /** Result<(), PbftError> */
  datatype Outcome = Ok | Err(error: PbftError)

  datatype Result<+T> = Success(value: T) | Failure(error: PbftError)

  datatype PbftBlock = PbftBlock(blockId: BlockId, signerId: PeerId, blockNum: nat, summary: string)

  datatype MessageType = PrePrepare | Prepare | Commit | BlockNew | ViewChange | Unset
  {
    predicate IsMulticast() {
      PrePrepare? || Prepare? || Commit?
    }
  }

  datatype PbftMessage = PbftMessage(msgType: MessageType, view: nat, seqNum: nat, signerId: PeerId, block: PbftBlock)

  /** Serialized consensus header and its signature; empty for self-made messages. */
  datatype Header = Header(bytes: string, signature: string)

  const UNSIGNED := Header("", "")

  datatype SignedVote = SignedVote(header: Header, message: PbftMessage)

  datatype Seal = Seal(previousId: BlockId, summary: string, votes: seq<SignedVote>)

  /** PbftMessageWrapper: a view change carries a seal instead of a block. */
  datatype Wrapper =
    | Message(pbft: PbftMessage)
    | ViewChangeMessage(view: nat, seqNum: nat, signerId: PeerId, seal: Seal)

  datatype ParsedMessage = ParsedMessage(header: Header, message: Wrapper, fromSelf: bool)
  {
    function Type(): MessageType {
      match message
      case Message(m) => m.msgType
      case ViewChangeMessage(_, _, _, _) => ViewChange
    }

    function View(): nat {
      match message
      case Message(m) => m.view
      case ViewChangeMessage(v, _, _, _) => v
    }

    function SeqNum(): nat {
      match message
      case Message(m) => m.seqNum
      case ViewChangeMessage(_, s, _, _) => s
    }

    function SignerId(): PeerId {
      match message
      case Message(m) => m.signerId
      case ViewChangeMessage(_, _, p, _) => p
    }

    function Block(): PbftBlock
      requires message.Message?
    {
      message.pbft.block
    }

    /** A vote of this type at this sequence number and view. */
    predicate At(t: MessageType, s: nat, v: nat) {
      Type() == t && SeqNum() == s && View() == v
    }

    /** A vote of this type at this sequence number and view for this block. */
    predicate VotesFor(t: MessageType, s: nat, v: nat, b: PbftBlock) {
      At(t, s, v) && message.Message? && Block() == b
    }
  }

  /** A message this node made itself (`from_bytes`). */
  function SelfMessage(w: Wrapper): ParsedMessage {
    ParsedMessage(UNSIGNED, w, true)
  }

  /** A message rebuilt from its parsed content alone (`from_pbft_message`). */
  function FromPbftMessage(m: PbftMessage): ParsedMessage {
    ParsedMessage(UNSIGNED, Message(m), false)
  }

  /** A block's payload as bytes: absent, not parsable as a seal, or a seal. */
  datatype Payload = Empty | Malformed | Sealed(seal: Seal)

  datatype Block = Block(blockId: BlockId, previousId: BlockId, signerId: PeerId, blockNum: nat, payload: Payload, summary: string)

  function PbftBlockFromBlock(b: Block): PbftBlock {
    PbftBlock(b.blockId, b.signerId, b.blockNum, b.summary)
  }

  /** `q` lists the elements of `s`, each once. */
  ghost predicate Enumerates(q: seq<ParsedMessage>, s: set<ParsedMessage>) {
    && |q| == |s|
    && (forall m :: m in q <==> m in s)
  }

  /** What one step takes from outside: the iteration order of hash sets, signature and
      digest checks of a seal's votes, the on-chain peer list as of a block, and the clock. */
  datatype Env = Env(
    iter: set<ParsedMessage> -> seq<ParsedMessage>,
    authentic: SignedVote -> bool,
    peersAt: BlockId -> seq<PeerId>,
    now: int)
  {
    ghost predicate Valid() {
      && (forall s: set<ParsedMessage> :: Enumerates(iter(s), s))
      && (forall b :: |peersAt(b)| >= 4)
    }

    /** `first()` of the set's iteration. */
    function First(s: set<ParsedMessage>): (m: Option<ParsedMessage>)
      requires Valid()
      ensures m.None? <==> s == {}
      ensures m.Some? ==> m.value in s
    {
      var q := iter(s);
      assert Enumerates(q, s);
      if |q| == 0 then None else
        assert q[0] in q;
        Some(q[0])
    }
  }
}
