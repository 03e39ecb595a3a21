/** What a node's log still holds later: nothing is dropped within a sequence number, so the
    votes for the next seal, the seal of the last block and queued PrePrepares all keep. */
module Retention {
  import opened Types
  import opened State
  import opened MessageLog
  import opened Protocol
  import opened Ledger
  import opened Quorums
  import opened Ladder
  import opened Commits
  import opened Views
  import opened Seals

  /** Messages are only added, seals are untouched, the round goes on with the same peers. */
  ghost predicate Keeps(n: Node, n': Node) {
    && n'.state.seqNum == n.state.seqNum
    && n'.state.f == n.state.f
    && n'.state.peerIds == n.state.peerIds
    && n.log.messages <= n'.log.messages
    && n'.log.seals == n.log.seals
  }

  lemma KeepsOnPrepare(n: Node, m: ParsedMessage, env: Env)
    requires n.state.Sound() && env.Valid() && m.Type() == Prepare
    ensures Keeps(n, OnPrepare(n, m, env).node)
  {
  }

  lemma KeepsOnPrePrepare(n: Node, m: ParsedMessage, env: Env)
    requires n.state.Sound() && env.Valid() && m.Type() == PrePrepare
    ensures Keeps(n, OnPrePrepare(n, m, env).node)
  {
    var n1 := WithPrePrepare(n, m, env.now);
    var w := OwnMessage(n1, Prepare, m.SeqNum(), m.Block());
    KeepsOnPrepare(n1.Call(Broadcast(w)), SelfMessage(w), env);
  }

  lemma KeepsOnCommit(n: Node, m: ParsedMessage, env: Env)
    requires n.state.Sound() && env.Valid() && m.Type() == Commit
    ensures Keeps(n, OnCommit(n, m, env).node)
  {
  }

  lemma KeepsPropose(n: Node, env: Env)
    requires n.state.Sound()
    ensures Keeps(n, ProposeViewChange(n, env).node)
  {
    if n.state.mode == Normal && n.log.GetConsensusSeal(n.state.seqNum - 1).Success? {
    }
  }

  lemma KeepsOnViewChange(n: Node, m: ParsedMessage, env: Env)
    requires n.state.Sound() && m.Type() == ViewChange
    ensures Keeps(n, OnViewChange(n, m, env).node)
  {
    var n1 := n.(log := n.log.AddMessage(m, n.state.view));
    KeepsPropose(n1, env);
    var n2 := if n.state.mode == ViewChanging then n1 else ProposeViewChange(n1, env).node;
    assert Keeps(n2, ViewChangeHandler(n2, m, env));
  }

  lemma KeepsOnPeerMessage(n: Node, m: ParsedMessage, env: Env)
    requires n.state.Sound() && env.Valid()
    ensures Keeps(n, OnPeerMessage(n, m, env).node)
  {
    match m.Type()
    case PrePrepare => KeepsOnPrePrepare(n, m, env);
    case Prepare => KeepsOnPrepare(n, m, env);
    case Commit => KeepsOnCommit(n, m, env);
    case ViewChange => KeepsOnViewChange(n, m, env);
    case _ =>
  }

  /** The node once a block is verified and logged, before it is used. */
  ghost function Announced(n: Node, ev: Event, env: Env): Node {
    if ev.UpdateBlockNew? && ev.block.blockNum >= n.state.seqNum && VerifyConsensusSeal(n, ev.block, env).Success?
    then LogBlock(n, ev.block, VerifyConsensusSeal(n, ev.block, env).value) else n
  }

  /** A step either keeps the announced log, or ends the round by committing the working block. */
  lemma LogOfStep(n: Node, ev: Event, env: Env)
    requires n.state.Sound() && env.Valid() && WellSealed(ev)
    ensures var n' := Step(n, ev, env); var a := Announced(n, ev, env);
            || Keeps(a, n')
            || (ev.UpdateBlockCommit? && n.state.phase == Finished && IsWorkingBlock(n, ev.committedId) && n' == OnBlockCommit(n, ev.committedId, env))
            || (ev.UpdateBlockNew? && CatchesUpOn(n, ev.block, env) && n' == OnBlockCommit(AtCatchupCommit(a, ev.block.payload.seal), ev.block.previousId, env))
  {
    match ev
    case UpdateBlockNew(block) => LogOnBlockNew(n, block, env);
    case UpdateBlockValid(id) =>
      ValidBlockSends(n, id, env);
      if n.state.workingBlock.Some? {
        KeepsOnCommit(WithOwnCommit(n), SelfMessage(OwnMessage(n, Commit, n.state.seqNum, n.state.workingBlock.value)), env);
      }
    case UpdateBlockInvalid(id) => KeepsPropose(n, env);
    case UpdateBlockCommit(id) =>
    case UpdatePeerMessage(header, message, sender) => KeepsOnPeerMessage(n, ParsedMessage(header, message, false), env);
    case UpdateOther =>
    case TickWorking(summary) => KeepsWorkingTick(n, summary, env);
    case TickBacklog =>
      if n.log.backlog != [] {
        KeepsOnPeerMessage(n.(log := n.log.(backlog := n.log.backlog[1..])), n.log.backlog[0], env);
      }
  }

  lemma KeepsWorkingTick(n: Node, summary: Option<string>, env: Env)
    requires n.state.Sound() && env.Valid()
    ensures Keeps(n, WorkingTick(n, summary, env))
  {
    var n1 := TryPublish(n, summary, env).node;
    KeepsPropose(n1.(state := n1.state.(timeout := n1.state.timeout.Checked(env.now))), env);
  }

  lemma LogOnBlockNew(n: Node, block: Block, env: Env)
    requires n.state.Sound() && env.Valid() && SealOfCommits(block)
    ensures var n' := OnBlockNew(n, block, env).node; var a := Announced(n, UpdateBlockNew(block), env);
            || Keeps(a, n')
            || (CatchesUpOn(n, block, env) && n' == OnBlockCommit(AtCatchupCommit(a, block.payload.seal), block.previousId, env))
  {
    if block.blockNum >= n.state.seqNum {
      match VerifyConsensusSeal(n, block, env)
      case Failure(e) => KeepsPropose(n.Call(FailBlock(block.blockId)), env);
      case Success(found) =>
        var a := LogBlock(n, block, found);
        if block.blockNum == n.state.seqNum + 1 && n.state.phase != Finished {
          VerifiedSealHasVotes(n, block, env);
          assert found.value.votes[0] in found.value.votes;
          CatchupAllOrNothing(a, block, found.value, env);
        } else if block.blockNum == n.state.seqNum {
          KeepsAdoptBlock(a, block, env);
        }
    }
  }

  lemma KeepsAdoptBlock(n: Node, block: Block, env: Env)
    requires n.state.Sound() && env.Valid()
    ensures Keeps(n, AdoptBlock(n, block, env).node)
  {
    var pbftBlock := PbftBlockFromBlock(block);
    var n1 := n.(state := n.state.(workingBlock := Some(pbftBlock)));
    var w := OwnMessage(n1, PrePrepare, n.state.seqNum, pbftBlock);
    KeepsOnPrePrepare(n1.Call(Broadcast(w)), SelfMessage(w), env);
  }

  // ---------- Votes for the next seal ----------

  lemma {:induction false} ImageNoLarger<A, B>(s: set<A>, f: A -> B)
    ensures |Image(s, f)| <= |s|
  {
    if s == {} {
      assert Image(s, f) == {};
    } else {
      var x :| x in s;
      ImageNoLarger(s - {x}, f);
      SubsetCardinality(Image(s, f), Image(s - {x}, f) + {f(x)});
    }
  }

  /** The votes of a seal with 2f voters are themselves enough for the next seal. */
  lemma SealReadyAtCatchup(n: Node, block: Block, seal: Seal)
    requires |seal.votes| > 0 && block.payload == Sealed(seal) && SealOfCommits(block) && SealFits(n, block, seal)
    requires block.blockNum == n.state.seqNum + 1
    ensures |Group(AtCatchupCommit(n, seal).log.messages, Commit, n.state.seqNum, SealView(n, seal))| >= |VoterIds(seal)|
  {
    var ms := SealMessages(seal);
    var v := SealView(n, seal);
    forall m | m in ms ensures m.Type() == Commit && m.View() == ms[0].View() && m.SeqNum() == n.state.seqNum {
      SealMessagesAre(block, seal, m);
    }
    assert seal.votes[0] in seal.votes;
    AddMessagesOfOneView(n.log, ms, v, ms[0].View());
    var msgs := AtCatchupCommit(n, seal).log.messages;
    var group := Group(msgs, Commit, n.state.seqNum, v);
    var signer := (m: ParsedMessage) => m.SignerId();
    forall p | p in VoterIds(seal) ensures p in Image(group, signer) {
      var x :| x in seal.votes && x.message.signerId == p;
      var i :| 0 <= i < |seal.votes| && seal.votes[i] == x;
      assert ms[i] in ms && ms[i] in group && signer(ms[i]) == p;
    }
    ImageNoLarger(group, signer);
    SubsetCardinality(VoterIds(seal), Image(group, signer));
  }

  /** The messages a round has left when the step ends it: those logged, and the votes of the
      seal if it ends by catching up. */
  ghost function RoundVotes(n: Node, ev: Event): set<ParsedMessage> {
    n.log.messages + if ev.UpdateBlockNew? && ev.block.payload.Sealed? then set m | m in SealMessages(ev.block.payload.seal) else {}
  }

  /** The id of the block that a step commits for good, if it ends the round. */
  ghost function CommittedBy(n: Node, ev: Event): BlockId {
    match ev
    case UpdateBlockCommit(id) => id
    case UpdateBlockNew(block) => block.previousId
    case _ => BlockId("")
  }

  /** In some view these are enough Commits of others for the fault bound that the step leaves. */
  ghost predicate EnoughForSeal(n: Node, ev: Event, env: Env)
    requires n.state.Sound() && env.Valid()
  {
    EnoughCommits(RoundVotes(n, ev), n.state.seqNum, 2 * NextFaultBound(n, CommittedBy(n, ev), env))
  }

  /** Within a round a seal that can be built stays so. When a step ends the round, the next seal
      can be built exactly if the Commits at hand suffice for the new fault bound, and always if
      that did not grow. */
  ghost predicate SealMoves(n: Node, ev: Event, env: Env, n': Node)
    requires n.state.Sound() && env.Valid() && n'.state.Sound()
  {
    if n'.state.seqNum == n.state.seqNum then SealReady(n) ==> SealReady(n')
    else
      && (SealReady(n') <==> EnoughForSeal(n, ev, env))
      && (NextFaultBound(n, CommittedBy(n, ev), env) <= n.state.f ==> SealReady(n'))
  }

  lemma CatchupLogs(n: Node, ev: Event, env: Env, v: nat)
    requires n.state.Sound() && env.Valid() && ev.UpdateBlockNew? && SealOfCommits(ev.block) && CatchesUpOn(n, ev.block, env)
    ensures Group(AtCatchupCommit(Announced(n, ev, env), ev.block.payload.seal).log.messages, Commit, n.state.seqNum, v)
            == Group(RoundVotes(n, ev), Commit, n.state.seqNum, v)
  {
    var seal, a := ev.block.payload.seal, Announced(n, ev, env);
    var ms := SealMessages(seal);
    assert seal.votes[0] in seal.votes;
    forall m | m in ms ensures m.Type() == Commit && m.View() == ms[0].View() {
      SealMessagesAre(ev.block, seal, m);
    }
    AddMessagesOfOneView(a.log, ms, SealView(a, seal), ms[0].View());
    AddMessagesAddsSome(a.log, ms, SealView(a, seal));
  }

  lemma SealReadyAfterCatchup(n: Node, ev: Event, env: Env, n': Node)
    requires n.state.Sound() && env.Valid() && ev.UpdateBlockNew? && SealOfCommits(ev.block) && CatchesUpOn(n, ev.block, env)
    requires n' == OnBlockCommit(AtCatchupCommit(Announced(n, ev, env), ev.block.payload.seal), ev.block.previousId, env)
    ensures SealMoves(n, ev, env, n')
  {
    var c := AtCatchupCommit(Announced(n, ev, env), ev.block.payload.seal);
    CatchupStands(n, ev, env, c);
    EnoughAtCatchup(n, ev, env, c);
    VerifiedSealSuffices(n, ev, env, c);
    SealMovesFrom(n, ev, env, c, n');
  }

  lemma CatchupStands(n: Node, ev: Event, env: Env, c: Node)
    requires n.state.Sound() && env.Valid() && ev.UpdateBlockNew? && CatchesUpOn(n, ev.block, env)
    requires c == AtCatchupCommit(Announced(n, ev, env), ev.block.payload.seal)
    ensures c.state.Sound() && c.state.phase == Finished && IsWorkingBlock(c, ev.block.previousId)
    ensures c.state.seqNum == n.state.seqNum && NextFaultBound(c, ev.block.previousId, env) == NextFaultBound(n, ev.block.previousId, env)
  {
    assert ev.block.payload.seal.votes[0] in ev.block.payload.seal.votes;
  }

  lemma SealMovesFrom(n: Node, ev: Event, env: Env, c: Node, n': Node)
    requires n.state.Sound() && env.Valid() && c.state.Sound() && c.state.phase == Finished && IsWorkingBlock(c, CommittedBy(n, ev))
    requires c.state.seqNum == n.state.seqNum && NextFaultBound(c, CommittedBy(n, ev), env) == NextFaultBound(n, CommittedBy(n, ev), env)
    requires EnoughCommits(c.log.messages, n.state.seqNum, 2 * n.state.f)
    requires EnoughForSeal(n, ev, env) <==> EnoughCommits(c.log.messages, n.state.seqNum, 2 * NextFaultBound(n, CommittedBy(n, ev), env))
    requires n' == OnBlockCommit(c, CommittedBy(n, ev), env)
    ensures SealMoves(n, ev, env, n')
  {
    var id := CommittedBy(n, ev);
    AdvanceOnBlockCommit(c, id, env);
    SealReadyExactly(c, id, env);
    if NextFaultBound(n, id, env) <= n.state.f {
      FewerCommitsNeeded(c.log.messages, n.state.seqNum, 2 * n.state.f, 2 * NextFaultBound(n, id, env));
    }
  }

  lemma VerifiedSealSuffices(n: Node, ev: Event, env: Env, c: Node)
    requires n.state.Sound() && env.Valid() && ev.UpdateBlockNew? && SealOfCommits(ev.block) && CatchesUpOn(n, ev.block, env)
    requires c == AtCatchupCommit(Announced(n, ev, env), ev.block.payload.seal)
    ensures EnoughCommits(c.log.messages, n.state.seqNum, 2 * n.state.f)
  {
    var seal, a := ev.block.payload.seal, Announced(n, ev, env);
    SealReadyAtCatchup(a, ev.block, seal);
    assert |Group(c.log.messages, Commit, n.state.seqNum, SealView(a, seal))| >= 2 * n.state.f;
  }

  lemma EnoughAtCatchup(n: Node, ev: Event, env: Env, c: Node)
    requires n.state.Sound() && env.Valid() && ev.UpdateBlockNew? && SealOfCommits(ev.block) && CatchesUpOn(n, ev.block, env)
    requires c == AtCatchupCommit(Announced(n, ev, env), ev.block.payload.seal)
    ensures EnoughForSeal(n, ev, env) <==> EnoughCommits(c.log.messages, n.state.seqNum, 2 * NextFaultBound(n, ev.block.previousId, env))
  {
    forall v: nat ensures Group(c.log.messages, Commit, n.state.seqNum, v) == Group(RoundVotes(n, ev), Commit, n.state.seqNum, v) {
      CatchupLogs(n, ev, env, v);
    }
    SameCommits(RoundVotes(n, ev), c.log.messages, n.state.seqNum, 2 * NextFaultBound(n, ev.block.previousId, env));
  }

  /** Every step treats the next seal so, by votes and by catching up. */
  lemma SealReadyStep(n: Node, ev: Event, env: Env)
    requires n.state.Sound() && env.Valid() && WellSealed(ev) && OnLadder(n) && OwnMessagesMarked(n)
    ensures SealMoves(n, ev, env, Step(n, ev, env))
  {
    LogOfStep(n, ev, env);
    var n' := Step(n, ev, env);
    if Keeps(Announced(n, ev, env), n') {
      if SealReady(n) {
        SealReadyStays(n, n');
      }
    } else if ev.UpdateBlockCommit? {
      SealMovesOnCommit(n, ev.committedId, env);
    } else {
      SealReadyAfterCatchup(n, ev, env, n');
    }
  }

  lemma SealMovesOnCommit(n: Node, id: BlockId, env: Env)
    requires n.state.Sound() && env.Valid() && OnLadder(n) && OwnMessagesMarked(n) && n.state.phase == Finished && IsWorkingBlock(n, id)
    ensures SealMoves(n, UpdateBlockCommit(id), env, OnBlockCommit(n, id, env))
  {
    AdvanceOnBlockCommit(n, id, env);
    SealReadyAfterBlockCommit(n, id, env);
    SealReadyExactly(n, id, env);
    assert RoundVotes(n, UpdateBlockCommit(id)) == n.log.messages;
  }

  // ---------- The seal of the last block ----------

  /** Blocks reach the node as they are on the chain. */
  ghost predicate Genuine(ev: Event, chain: BlockId -> Block) {
    ev.UpdateBlockNew? ==> ev.block == chain(ev.block.blockId)
  }

  /** A step stores no seal but that of an announced block. */
  lemma SealsOfStep(n: Node, ev: Event, env: Env, e: SealEntry)
    requires n.state.Sound() && env.Valid() && WellSealed(ev)
    ensures e in Step(n, ev, env).log.seals ==> e in Announced(n, ev, env).log.seals
  {
    LogOfStep(n, ev, env);
    if ev.UpdateBlockNew? && CatchesUpOn(n, ev.block, env) {
      var a := Announced(n, ev, env);
      AddMessagesAddsSome(a.log, SealMessages(ev.block.payload.seal), SealView(a, ev.block.payload.seal));
    }
  }

  lemma SealsGenuineStep(n: Node, ev: Event, env: Env, chain: BlockId -> Block)
    requires n.state.Sound() && env.Valid() && WellSealed(ev) && Genuine(ev, chain) && SealsGenuine(n, chain)
    ensures SealsGenuine(Step(n, ev, env), chain)
  {
    forall e | e in Step(n, ev, env).log.seals ensures chain(e.blockId).payload == Sealed(e.seal) {
      SealsOfStep(n, ev, env, e);
    }
  }

  lemma SameRoundKeeps(n: Node, ev: Event, env: Env)
    requires n.state.Sound() && env.Valid() && WellSealed(ev)
    requires Step(n, ev, env).state.seqNum == n.state.seqNum
    ensures Keeps(Announced(n, ev, env), Step(n, ev, env))
  {
    LogOfStep(n, ev, env);
    if !Keeps(Announced(n, ev, env), Step(n, ev, env)) {
      if ev.UpdateBlockCommit? {
        AdvanceOnBlockCommit(n, ev.committedId, env);
      } else {
        AdvanceOnBlockCommit(AtCatchupCommit(Announced(n, ev, env), ev.block.payload.seal), ev.block.previousId, env);
      }
      assert false;
    }
  }

  /** Within a sequence number the seal found for the previous one never changes. */
  lemma PastSealKept(n: Node, ev: Event, env: Env)
    requires n.state.Sound() && env.Valid() && WellSealed(ev)
    requires Step(n, ev, env).state.seqNum == n.state.seqNum
    ensures Step(n, ev, env).log.GetConsensusSeal(n.state.seqNum - 1) == n.log.GetConsensusSeal(n.state.seqNum - 1)
    ensures n.log.seals <= Step(n, ev, env).log.seals
  {
    SameRoundKeeps(n, ev, env);
    PastSealsAnnounced(n, ev, env);
  }

  lemma PastSealsAnnounced(n: Node, ev: Event, env: Env)
    requires n.state.Sound()
    ensures Announced(n, ev, env).log.SealsAt(n.state.seqNum - 1) == n.log.SealsAt(n.state.seqNum - 1)
    ensures n.log.seals <= Announced(n, ev, env).log.seals
  {
  }

  /** A block accepted while the node is at its number leaves its seal in the log. */
  lemma SealStoredOnDelivery(n: Node, block: Block, env: Env)
    requires n.state.Sound() && env.Valid() && SealOfCommits(block)
    requires block.blockNum == n.state.seqNum >= 2 && VerifyConsensusSeal(n, block, env).Success?
    ensures SealEntry(block.blockId, block.blockNum, block.payload.seal) in OnBlockNew(n, block, env).node.log.seals
    ensures OnBlockNew(n, block, env).node.state.seqNum == n.state.seqNum
  {
    LogOnBlockNew(n, block, env);
  }

  lemma SealFoundAfterCatchup(n: Node, block: Block, seal: Seal, env: Env, chain: BlockId -> Block)
    requires n.state.Sound() && env.Valid() && SealsGenuine(n, chain)
    requires SealFits(n, block, seal) && seal.votes[0].message.block.blockId == block.previousId
    ensures var found := OnBlockCommit(AtCatchupCommit(n, seal), block.previousId, env).log.GetConsensusSeal(n.state.seqNum);
            && (found.Success? <==> HasSeal(n.log.seals, block.previousId, n.state.seqNum))
            && (found.Success? ==> chain(block.previousId).payload == Sealed(found.value))
  {
    AddMessagesAddsSome(n.log, SealMessages(seal), SealView(n, seal));
    SealKeptAtCommit(AtCatchupCommit(n, seal), block.previousId, env, chain);
  }

  /** A seal for this block was stored in the current round, or is stored by this step. */
  ghost predicate SealDelivered(n: Node, ev: Event, id: BlockId) {
    HasSeal(n.log.seals, id, n.state.seqNum) || (ev.UpdateBlockNew? && ev.block.blockId == id)
  }

  lemma AnnouncedSeals(n: Node, ev: Event, env: Env, id: BlockId, chain: BlockId -> Block)
    requires n.state.Sound() && ev.UpdateBlockNew? && Genuine(ev, chain) && SealsGenuine(n, chain) && CatchesUpOn(n, ev.block, env)
    ensures HasSeal(Announced(n, ev, env).log.seals, id, n.state.seqNum) <==> SealDelivered(n, ev, id)
    ensures SealsGenuine(Announced(n, ev, env), chain)
  {
    var a, own := Announced(n, ev, env), SealEntry(ev.block.blockId, n.state.seqNum, ev.block.payload.seal);
    assert a.log.seals == n.log.seals + {own};
    assert forall x :: SealEntry(id, n.state.seqNum, x) in a.log.seals <==> SealEntry(id, n.state.seqNum, x) in n.log.seals || SealEntry(id, n.state.seqNum, x) == own;
  }

  lemma SealFoundAfterCatchingUp(n: Node, ev: Event, env: Env, chain: BlockId -> Block, n': Node)
    requires n.state.Sound() && env.Valid() && ev.UpdateBlockNew? && Genuine(ev, chain) && SealsGenuine(n, chain)
    requires CatchesUpOn(n, ev.block, env)
    requires n' == OnBlockCommit(AtCatchupCommit(Announced(n, ev, env), ev.block.payload.seal), ev.block.previousId, env)
    ensures var found := n'.log.GetConsensusSeal(n.state.seqNum);
            && (found.Success? <==> SealDelivered(n, ev, ev.block.previousId))
            && (found.Success? ==> chain(ev.block.previousId).payload == Sealed(found.value))
  {
    var seal := ev.block.payload.seal;
    assert seal.votes[0] in seal.votes;
    AnnouncedSeals(n, ev, env, ev.block.previousId, chain);
    SealFoundAfterCatchup(Announced(n, ev, env), ev.block, seal, env, chain);
  }

  /** When a step ends the round of block `id`, a seal for that round is found afterwards exactly
      if the block was delivered in it, and it is the seal carried by the block. */
  lemma SealFoundAfterRound(n: Node, ev: Event, env: Env, chain: BlockId -> Block)
    requires n.state.Sound() && env.Valid() && WellSealed(ev) && Genuine(ev, chain) && SealsGenuine(n, chain)
    requires Step(n, ev, env).state.seqNum > n.state.seqNum
    ensures var id := CommittedBy(n, ev);
            var found := Step(n, ev, env).log.GetConsensusSeal(n.state.seqNum);
            && (found.Success? <==> SealDelivered(n, ev, id))
            && (found.Success? ==> chain(id).payload == Sealed(found.value))
  {
    LogOfStep(n, ev, env);
    if ev.UpdateBlockCommit? {
      SealKeptAtCommit(n, ev.committedId, env, chain);
    } else {
      SealFoundAfterCatchingUp(n, ev, env, chain, Step(n, ev, env));
    }
  }

  // ---------- Peers ----------

  /** With the same peers on chain at every block, the peer list never changes. */
  lemma PeersKept(n: Node, ev: Event, env: Env)
    requires n.state.Sound() && env.Valid() && WellSealed(ev)
    requires forall b :: env.peersAt(b) == n.state.peerIds
    ensures Step(n, ev, env).state.peerIds == n.state.peerIds
  {
    LogOfStep(n, ev, env);
    if ev.UpdateBlockCommit? {
      PeersOnBlockCommit(n, ev.committedId, env);
    }
    if ev.UpdateBlockNew? && CatchesUpOn(n, ev.block, env) {
      PeersOnBlockCommit(AtCatchupCommit(Announced(n, ev, env), ev.block.payload.seal), ev.block.previousId, env);
    }
  }

  lemma PeersOnBlockCommit(n: Node, id: BlockId, env: Env)
    requires n.state.Sound() && env.Valid() && env.peersAt(id) == n.state.peerIds
    ensures OnBlockCommit(n, id, env).state.peerIds == n.state.peerIds
  {
    assert !MembershipChanged(NextBlock(n, env), env.peersAt(id));
  }
}
