/** What sets a step off, in the terms of blocks, votes, peers and clock readings: when a block is
    welcome, when a round ends, when a node has cause to change views and which view it then
    enters. All is said of the node and the event before the step. */
module Causes {
  import opened Types
  import opened Timing
  import opened State
  import opened MessageLog
  import opened Protocol
  import opened Quorums
  import opened Commits
  import opened Views
  import opened Lag

  // ---------- Blocks ----------

  ghost predicate Voted(seal: Seal, p: PeerId) {
    exists v :: v in seal.votes && v.message.signerId == p
  }

  ghost predicate AllVoted(seal: Seal, q: set<PeerId>) {
    forall p :: p in q ==> Voted(seal, p)
  }

  /** An authentic vote for the parent, from a peer as of the parent other than the block's signer. */
  ghost predicate VoteCounts(v: SignedVote, block: Block, env: Env) {
    && v.message.block.blockId == block.previousId && env.authentic(v)
    && v.message.signerId in env.peersAt(block.previousId) && v.message.signerId != block.signerId
  }

  /** The seal is for this block's parent and summary, all its votes count, and at least 2f distinct
      peers have voted. */
  ghost predicate Vouches(seal: Seal, block: Block, f: nat, env: Env) {
    && seal.previousId == block.previousId && seal.summary == block.summary
    && (forall v :: v in seal.votes ==> VoteCounts(v, block, env))
    && exists q: set<PeerId> :: |q| >= 2 * f && AllVoted(seal, q)
  }

  /** From block 2 on a block needs a seal that vouches for its parent. */
  ghost predicate Welcome(n: Node, block: Block, env: Env) {
    block.blockNum < 2 || (block.payload.Sealed? && Vouches(block.payload.seal, block, n.state.f, env))
  }

  lemma WelcomeExactly(n: Node, block: Block, env: Env)
    ensures VerifyConsensusSeal(n, block, env).Success? <==> Welcome(n, block, env)
    ensures Welcome(n, block, env) ==> VerifyConsensusSeal(n, block, env).value == if block.blockNum < 2 then None else Some(block.payload.seal)
  {
    if block.blockNum >= 2 && block.payload.Sealed? {
      var seal := block.payload.seal;
      if Vouches(seal, block, n.state.f, env) {
        var q: set<PeerId> :| |q| >= 2 * n.state.f && AllVoted(seal, q);
        SubsetCardinality(q, VoterIds(seal));
      }
      if VerifyConsensusSeal(n, block, env).Success? {
        VotesCount(n, block, env);
        assert AllVoted(seal, VoterIds(seal));
      }
    }
  }

  lemma VotesCount(n: Node, block: Block, env: Env)
    requires block.blockNum >= 2 && block.payload.Sealed? && VerifyConsensusSeal(n, block, env).Success?
    ensures forall v :: v in block.payload.seal.votes ==> VoteCounts(v, block, env)
  {
    var seal := block.payload.seal;
    forall v | v in seal.votes ensures VoteCounts(v, block, env) {
      assert VoteVerifies(v, seal, env) && v.message.signerId in VoterIds(seal);
    }
  }

  /** A block as messages name it. */
  function Described(block: Block): PbftBlock {
    PbftBlock(block.blockId, block.signerId, block.blockNum, block.summary)
  }

  // ---------- Rounds ----------

  /** The step ends the round: the validator has committed the block that the node finished, or the
      next block arrives with a seal for the one the node is working on. */
  ghost predicate EndsRound(n: Node, ev: Event, env: Env) {
    match ev
    case UpdateBlockCommit(id) => n.state.phase == Finished && n.state.workingBlock.Some? && n.state.workingBlock.value.blockId == id
    case UpdateBlockNew(block) =>
      && block.blockNum == n.state.seqNum + 1 && n.state.phase != Finished && Welcome(n, block, env)
      && block.payload.Sealed? && SealFits(n, block, block.payload.seal)
    case _ => false
  }

  /** The view in which the round ends. */
  ghost function LastView(n: Node, ev: Event): nat
    requires ev.UpdateBlockNew? && ev.block.payload.Sealed? ==> |ev.block.payload.seal.votes| > 0
  {
    if ev.UpdateBlockNew? && ev.block.payload.Sealed? then SealView(n, ev.block.payload.seal) else n.state.view
  }

  ghost predicate SameMembers(a: seq<PeerId>, b: seq<PeerId>) {
    forall p :: p in a <==> p in b
  }

  lemma MembershipExactly(s: StateValue, peers: seq<PeerId>)
    ensures MembershipChanged(s, peers) <==> !SameMembers(peers, s.peerIds)
  {
    var now, before := set p | p in peers, set p | p in s.peerIds;
    if SameMembers(peers, s.peerIds) {
      assert now == before;
    } else {
      var p :| (p in peers) != (p in s.peerIds);
      assert (p in now) != (p in before);
    }
  }

  /** The number of the round forces a view change for fairness. */
  ghost predicate Forced(n: Node)
    requires n.state.Sound()
  {
    (n.state.seqNum + 1) % n.state.forcedViewChangePeriod == 0
  }

  /** An announcement of this block for this number is among the messages. */
  ghost predicate AnnouncedFor(msgs: set<ParsedMessage>, s: nat, b: PbftBlock) {
    exists m :: m in msgs && m.Type() == BlockNew && m.SeqNum() == s && m.Block() == b
  }

  /** The block is announced for the round after this one, before the step or by it. */
  ghost predicate AnnouncedNext(n: Node, ev: Event, b: PbftBlock) {
    || AnnouncedFor(n.log.messages, n.state.seqNum + 1, b)
    || (ev.UpdateBlockNew? && ev.block.blockNum == n.state.seqNum + 1 && b == Described(ev.block))
  }

  // ---------- View changes ----------

  /** This is the seal stored for the number, and the only one. */
  ghost predicate OnlySeal(seals: set<SealEntry>, s: nat, seal: Seal) {
    exists e :: e in seals && e.seqNum == s && e.seal == seal && forall k :: k in seals && k.seqNum == s ==> k == e
  }

  lemma FoundExactly(log: LogValue, s: nat, seal: Seal)
    ensures log.GetConsensusSeal(s) == Success(seal) <==> OnlySeal(log.seals, s, seal)
  {
    var found := log.SealsAt(s);
    if |found| == 1 {
      var e := TheOnly(found);
      assert e in found && forall k :: k in log.seals && k.seqNum == s ==> k in found;
      assert OnlySeal(log.seals, s, e.seal);
    }
    if e :| e in log.seals && e.seqNum == s && e.seal == seal && forall k :: k in log.seals && k.seqNum == s ==> k == e {
      assert found == {e};
    }
  }

  /** The timer was found to be out, or is now. */
  ghost predicate TimerIsOut(t: TimeoutValue, now: int) {
    t.state == Expired || (t.state == Active && now - t.startedAt > t.duration)
  }

  /** The node has cause to change views: a block that is not welcome, an invalid one, a timer that
      is out, or f + 1 view changes to a higher view. */
  ghost predicate HasCause(n: Node, ev: Event, env: Env) {
    match ev
    case UpdateBlockNew(block) => block.blockNum >= n.state.seqNum && !Welcome(n, block, env)
    case UpdateBlockInvalid(_) => true
    case TickWorking(_) => TimerIsOut(n.state.timeout, env.now)
    case _ => var m := MessageOf(n, ev); m.Some? && m.value.Type() == ViewChange && Joins(n, m.value)
  }

  ghost predicate Joins(n: Node, m: ParsedMessage) {
    |OfTypeSeqView(n.log.messages + {m}, ViewChange, m.SeqNum(), m.View())| >= n.state.f + 1 && m.View() > n.state.view
  }

  /** The view that the step enters by a view change, if it completes one. */
  ghost function ViewEntered(n: Node, ev: Event, env: Env): Option<nat>
    requires n.state.Sound()
  {
    if ev.UpdatePeerMessage? || ev.TickBacklog? then
      var m := MessageOf(n, ev);
      if m.Some? && m.value.Type() == ViewChange then ViewOnMessage(n, m.value) else None
    else if HasCause(n, ev, env) then ViewOnProposal(n) else None
  }
}
