/** The node as the source has it: methods that update state, log and validator connection
    in place, and that deliver every broadcast to the sender by calling themselves. Each is
    proved to do what the function of the same step in `Protocol` says. */
module NodeInPlace {
  import opened Types
  import opened State
  import opened MessageLog
  import opened Protocol
  import H = Handlers

  /** How deep self-delivery can still go: a PrePrepare or a view change in Normal mode leads
      to one further message, a view change in ViewChanging mode or a vote to none. */
  function Depth(t: MessageType, mode: Mode): nat {
    match t
    case PrePrepare => 2
    case ViewChange => if mode == Normal then 2 else 1
    case _ => 0
  }

  class PbftNode {
    const service: H.Service
    const log: PbftLog

    ghost function Value(state: PbftState): Node
      reads this, service, log, state, state.timeout
    {
      H.Value(state, log, service)
    }

    /** A primary asks for a first block. */
    constructor (maxLogSize: nat, isPrimary: bool)
      ensures fresh(service) && fresh(log)
      ensures log.Value() == LogValue({}, maxLogSize, [], {})
      ensures service.calls == if isPrimary then [InitializeBlock(None)] else []
    {
      service := new H.Service();
      log := new PbftLog(maxLogSize);
      new;
      if isPrimary {
        service.Call(InitializeBlock(None));
      }
    }

    method OnPeerMessage(m: ParsedMessage, state: PbftState, env: Env) returns (r: Outcome)
      requires state.Value().Sound() && env.Valid()
      modifies state, state.timeout, log, service
      ensures Reply(Value(state), r) == Protocol.OnPeerMessage(old(Value(state)), m, env)
      decreases Depth(m.Type(), state.mode), 0
    {
      match m.Type() {
        case PrePrepare =>
          r := H.PrePrepareHandler(state, log, m, env, service);
          if r == Err(NoBlockNew) {
            log.PushBacklog(m);
            return Ok;
          }
          if r.Err? {
            return;
          }
          r := BroadcastPbftMessage(m.SeqNum(), Prepare, m.Block(), state, env);

        case Prepare =>
          r := log.AddMessage(m, state.view);
          if r.Err? {
            return;
          }
          if m.SeqNum() == state.seqNum && CheckPrepared(log.messages, m.SeqNum(), m.View(), state.f, env) {
            r := CheckBlocksIfNotChecking(m, state);
          }

        case Commit =>
          r := log.AddMessage(m, state.view);
          if r.Err? {
            return;
          }
          if m.SeqNum() == state.seqNum && CheckCommittable(log.messages, m.SeqNum(), m.View(), state.f, env) {
            r := CommitBlockIfCommitting(m, state);
          }

        case ViewChange =>
          r := log.AddMessage(m, state.view);
          if r.Err? {
            return;
          }
          var done;
          r, done := ProposeViewChangeIfEnoughMessages(m, state, env);
          if r.Err? || done {
            return;
          }
          r := H.ViewChangeInPlace(state, log, service, m, env);

        case _ =>
          r := Ok;
      }
    }

    method CheckBlocksIfNotChecking(m: ParsedMessage, state: PbftState) returns (r: Outcome)
      requires m.message.Message?
      modifies state, service
      ensures r == Ok && Value(state) == Protocol.CheckBlocksIfNotChecking(old(Value(state)), m.Block().blockId)
    {
      if state.phase != Checking {
        var _ := state.SwitchPhase(Checking);
        service.Call(CheckBlocks(m.Block().blockId));
      }
      return Ok;
    }

    method CommitBlockIfCommitting(m: ParsedMessage, state: PbftState) returns (r: Outcome)
      requires m.message.Message?
      modifies state, service
      ensures r == Ok
      ensures Value(state) == if old(state.phase) == Committing then CommitNow(old(Value(state)), m.Block().blockId) else old(Value(state))
    {
      if state.phase == Committing {
        r := H.CommitHandler(state, service, m.Block().blockId, log);
      } else {
        r := Ok;
      }
    }

    /** `done` tells the caller to stop: the message started nothing. */
    method ProposeViewChangeIfEnoughMessages(m: ParsedMessage, state: PbftState, env: Env) returns (r: Outcome, done: bool)
      requires state.Value().Sound() && env.Valid()
      modifies state, state.timeout, log, service
      ensures var n := old(Value(state));
              if n.state.mode == ViewChanging then
                r == Ok && !done && Value(state) == n
              else if LogHasRequiredMsgs(n.log.messages, ViewChange, m, false, n.state.f + 1) && m.View() > n.state.view then
                Reply(Value(state), r) == Protocol.ProposeViewChange(n, env) && (r.Ok? ==> !done)
              else
                r == Ok && done && Value(state) == n
      decreases if state.mode == Normal then 1 else 0, 4
    {
      if state.mode != ViewChanging {
        if LogHasRequiredMsgs(log.messages, ViewChange, m, false, state.f + 1) && m.View() > state.view {
          r := ProposeViewChange(state, env);
          done := false;
        } else {
          r, done := Ok, true;
        }
      } else {
        r, done := Ok, false;
      }
    }

    method ProposeViewChange(state: PbftState, env: Env) returns (r: Outcome)
      requires state.Value().Sound() && env.Valid()
      modifies state, state.timeout, log, service
      ensures Reply(Value(state), r) == Protocol.ProposeViewChange(old(Value(state)), env)
      decreases if state.mode == Normal then 1 else 0, 3
    {
      if state.mode == ViewChanging {
        return Ok;
      }
      state.mode := ViewChanging;
      var found := log.Value().GetConsensusSeal(state.seqNum - 1);
      match found
      case Failure(e) => r := Err(e);
      case Success(seal) =>
        r := BroadcastMessage(ViewChangeMessage(state.view + 1, state.seqNum - 1, state.id, seal), state, env);
    }

    method BroadcastPbftMessage(seqNum: nat, t: MessageType, block: PbftBlock, state: PbftState, env: Env) returns (r: Outcome)
      requires state.Value().Sound() && env.Valid() && t.IsMulticast()
      modifies state, state.timeout, log, service
      ensures var n := old(Value(state));
              if t != n.state.ExpectedType() then r == Ok && Value(state) == n
              else var w := OwnMessage(n, t, seqNum, block);
                Reply(Value(state), r) == Protocol.OnPeerMessage(n.Call(Broadcast(w)), SelfMessage(w), env)
      decreases Depth(t, state.mode), 2
    {
      if t.IsMulticast() && t != state.phase.MessageType() {
        return Ok;
      }
      r := BroadcastMessage(Message(PbftMessage(t, state.view, seqNum, state.id, block)), state, env);
    }

    method BroadcastMessage(w: Wrapper, state: PbftState, env: Env) returns (r: Outcome)
      requires state.Value().Sound() && env.Valid()
      modifies state, state.timeout, log, service
      ensures Reply(Value(state), r) == Protocol.OnPeerMessage(old(Value(state)).Call(Broadcast(w)), SelfMessage(w), env)
      decreases Depth(SelfMessage(w).Type(), state.mode), 1
    {
      service.Call(Broadcast(w));
      r := OnPeerMessage(SelfMessage(w), state, env);
    }

    // ---------- Seals ----------

    /** Folds the votes into the set of their signers, stopping at the first bad vote. */
    method VerifyVotes(seal: Seal, env: Env) returns (r: Outcome, voters: set<PeerId>)
      ensures r.Ok? <==> forall v :: v in seal.votes ==> VoteVerifies(v, seal, env)
      ensures r.Ok? ==> voters == VoterIds(seal)
      ensures r.Err? ==> r == Err(InternalError)
    {
      voters := {};
      for i := 0 to |seal.votes|
        invariant forall v :: v in seal.votes[..i] ==> VoteVerifies(v, seal, env)
        invariant voters == set v | v in seal.votes[..i] :: v.message.signerId
      {
        var vote := seal.votes[i];
        assert vote in seal.votes && seal.votes[..i + 1] == seal.votes[..i] + [vote];
        if vote.message.block.blockId != seal.previousId || !env.authentic(vote) {
          return Err(InternalError), {};
        }
        voters := voters + {vote.message.signerId};
      }
      assert seal.votes[..|seal.votes|] == seal.votes;
      r := Ok;
    }

    method VerifyConsensusSeal(block: Block, state: PbftState, env: Env) returns (r: Result<Option<Seal>>)
      ensures r == Protocol.VerifyConsensusSeal(Value(state), block, env)
    {
      if block.blockNum < 2 {
        return Success(None);
      }
      match block.payload
      case Empty => return Failure(InternalError);
      case Malformed => return Failure(SerializationError);
      case Sealed(seal) =>
        if seal.previousId != block.previousId || seal.summary != block.summary {
          return Failure(InternalError);
        }
        var verified, voters := VerifyVotes(seal, env);
        if verified.Err? {
          return Failure(verified.error);
        }
        var peers := set p | p in env.peersAt(block.previousId) && p != block.signerId;
        if !(voters <= peers) || |voters| < 2 * state.f {
          return Failure(InternalError);
        }
        return Success(Some(seal));
    }

    method BuildSeal(state: PbftState, summary: string, env: Env) returns (r: Result<Seal>)
      requires state.Value().Sound() && env.Valid()
      ensures r == Protocol.BuildSeal(Value(state), summary, env)
    {
      var found := GetEnoughMessages(log.messages, Commit, state.seqNum - 1, 2 * state.f);
      if found.None? {
        return Failure(InternalError);
      }
      EnoughMessagesAreSome(log.messages, Commit, state.seqNum - 1, 2 * state.f);
      var messages := env.iter(found.value);
      assert Enumerates(messages, found.value);
      return Success(SealFrom(messages, summary));
    }

    // ---------- Updates from the validator ----------

    method UpdateMembership(id: BlockId, state: PbftState, env: Env) returns (changed: bool)
      requires state.Value().Sound() && env.Valid()
      modifies state
      ensures changed <==> MembershipChanged(old(state.Value()), env.peersAt(id))
      ensures state.Value() == Protocol.UpdateMembership(old(state.Value()), env.peersAt(id))
    {
      var peers := env.peersAt(id);
      if (set p | p in peers) != (set p | p in state.peerIds) {
        state.peerIds := peers;
        state.f := (|peers| - 1) / 3;
        return true;
      }
      return false;
    }

    /** The next working block is one already announced for the next sequence number, if any. */
    method ReadyForNextBlock(state: PbftState, env: Env)
      requires state.Value().Sound() && env.Valid()
      modifies state
      ensures Value(state) == old(Value(state)).(state := NextBlock(old(Value(state)), env))
    {
      var _ := state.SwitchPhase(PrePreparing);
      state.seqNum := state.seqNum + 1;
      var next := env.First(OfTypeSeq(log.messages, BlockNew, state.seqNum));
      state.workingBlock := if next.Some? then Some(next.value.Block()) else None;
    }

    /** Force a view change for fairness, or because the membership changed. */
    method RotateIfDue(id: BlockId, state: PbftState, env: Env)
      requires state.Value().Sound() && env.Valid()
      modifies state, service
      ensures Value(state) == Protocol.RotateIfDue(old(Value(state)), id, env)
    {
      var forced := state.seqNum > 0 && state.seqNum % state.forcedViewChangePeriod == 0;
      if !forced {
        forced := UpdateMembership(id, state, env);
      }
      if forced {
        H.ForceViewChangeInPlace(state, service, log);
      }
    }

    method OnBlockCommit(id: BlockId, state: PbftState, env: Env)
      requires state.Value().Sound() && env.Valid()
      modifies state, state.timeout, log, service
      ensures Value(state) == Protocol.OnBlockCommit(old(Value(state)), id, env)
    {
      var isWorkingBlock := state.workingBlock.Some? && state.workingBlock.value.blockId == id;
      if state.phase != Finished || !isWorkingBlock {
        return;
      }
      ReadyForNextBlock(state, env);
      RotateIfDue(id, state, env);
      log.GarbageCollect(state.seqNum, id);
      state.timeout.Start(env.now);

      if state.role == Primary && state.workingBlock.None? {
        service.Call(InitializeBlock(Some(id)));
      }
    }

    /** Adds the messages in turn; the first one refused ends the loop. */
    method AddAll(messages: seq<ParsedMessage>, state: PbftState) returns (r: Outcome)
      modifies log
      ensures log.Value() == AddMessages(old(log.Value()), messages, state.view)
      ensures r == AddMessagesOutcome(old(log.Value()), messages, state.view)
    {
      ghost var start := log.Value();
      assert messages[0..] == messages;
      for i := 0 to |messages|
        invariant AddMessages(log.Value(), messages[i..], state.view) == AddMessages(start, messages, state.view)
        invariant AddMessagesOutcome(log.Value(), messages[i..], state.view) == AddMessagesOutcome(start, messages, state.view)
      {
        assert messages[i..][0] == messages[i] && messages[i..][1..] == messages[i + 1..];
        r := log.AddMessage(messages[i], state.view);
        if r.Err? {
          return;
        }
      }
      return Ok;
    }

    method Catchup(state: PbftState, block: Block, seal: Seal, env: Env) returns (r: Outcome)
      requires state.Value().Sound() && env.Valid() && |seal.votes| > 0
      modifies state, state.timeout, log, service
      ensures Reply(Value(state), r) == Protocol.Catchup(old(Value(state)), block, seal, env)
    {
      match state.workingBlock
      case None =>
        return Err(NoWorkingBlock);
      case Some(working) =>
        if block.blockNum != working.blockNum + 1 || block.previousId != working.blockId {
          return Err(BlockMismatch(PbftBlockFromBlock(block), working));
        }
        var messages := SealMessages(seal);
        if messages[0].View() > state.view {
          state.view := messages[0].View();
        }
        r := AddAll(messages, state);
        if r.Err? {
          return;
        }
        state.phase := Committing;
        var id := messages[0].Block().blockId;
        r := H.CommitHandler(state, service, id, log);
        OnBlockCommit(id, state, env);
    }

    method OnBlockNew(block: Block, state: PbftState, env: Env) returns (r: Outcome)
      requires state.Value().Sound() && env.Valid()
      modifies state, state.timeout, log, service
      ensures Reply(Value(state), r) == Protocol.OnBlockNew(old(Value(state)), block, env)
    {
      if block.blockNum < state.seqNum {
        return Ok;
      }
      var verified := VerifyConsensusSeal(block, state, env);
      match verified {
        case Success(Some(seal)) => log.AddConsensusSeal(block.blockId, state.seqNum, seal);
        case Success(None) =>
        case Failure(e) =>
          service.Call(FailBlock(block.blockId));
          r := ProposeViewChange(state, env);
          return if r.Err? then r else Err(e);
      }

      var pbftBlock := PbftBlockFromBlock(block);
      var m := FromPbftMessage(PbftMessage(BlockNew, state.view, block.blockNum, state.id, pbftBlock));
      r := log.AddMessage(m, state.view);

      if block.blockNum == state.seqNum + 1 && state.phase != Finished {
        VerifiedSealHasVotes(old(Value(state)), block, env);
        r := Catchup(state, block, verified.value.value, env);
      } else if block.blockNum == state.seqNum {
        state.workingBlock := Some(pbftBlock);
        if state.role == Primary {
          r := BroadcastPbftMessage(state.seqNum, PrePrepare, pbftBlock, state, env);
        }
      }
    }

    method OnBlockValid(id: BlockId, state: PbftState, env: Env) returns (r: Outcome)
      requires state.Value().Sound() && env.Valid()
      modifies state, state.timeout, log, service
      ensures Reply(Value(state), r) == Protocol.OnBlockValid(old(Value(state)), id, env)
    {
      match state.workingBlock
      case None =>
        return Err(NoWorkingBlock);
      case Some(block) =>
        if block.blockId != id {
          return Err(NotReadyForMessage);
        }
        var _ := state.SwitchPhase(Committing);
        r := BroadcastPbftMessage(state.seqNum, Commit, block, state, env);
    }

    // ---------- Periodic work ----------

    method TryPublish(summary: Option<string>, state: PbftState, env: Env) returns (r: Outcome)
      requires state.Value().Sound() && env.Valid()
      modifies service
      ensures Reply(Value(state), r) == Protocol.TryPublish(old(Value(state)), summary, env)
    {
      if state.role != Primary || state.phase != PrePreparing || summary.None? {
        return Ok;
      }
      if state.seqNum <= 1 {
        service.Call(FinalizeBlock(Empty));
        return Ok;
      }
      var built := BuildSeal(state, summary.value, env);
      match built
      case Failure(e) => return Err(e);
      case Success(seal) =>
        service.Call(FinalizeBlock(Sealed(seal)));
        return Ok;
    }

    method RetryBacklog(state: PbftState, env: Env) returns (r: Outcome)
      requires state.Value().Sound() && env.Valid()
      modifies state, state.timeout, log, service
      ensures Reply(Value(state), r) == Protocol.RetryBacklog(old(Value(state)), env)
    {
      var popped := log.PopBacklog();
      if popped.Some? {
        r := OnPeerMessage(popped.value, state, env);
      } else {
        r := Ok;
      }
    }
  }
}
