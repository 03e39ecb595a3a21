/** What a step does to the log: exactly which messages are logged and pruned, which seals are stored
    and dropped. The queue is accounted for in `Backlog`. */
module Logs {
  import opened Types
  import opened State
  import opened MessageLog
  import opened Protocol
  import opened Ledger
  import opened Ladder
  import opened Commits
  import opened Views
  import opened Retention
  import opened Lag
  import opened Minds
  import opened Causes
  import opened Account
  import opened Requests

  /** The message is logged in `n'` exactly if it was in `n` or `when`. */
  ghost predicate LogsIf(n: Node, n': Node, m: ParsedMessage, when: bool) {
    m in n'.log.messages <==> m in n.log.messages || when
  }

  // ---------- Votes ----------

  /** The node's own answer to a PrePrepare. */
  ghost predicate IsAnswer(n: Node, m: ParsedMessage, s: nat, b: PbftBlock) {
    m == SelfMessage(Message(PbftMessage(Prepare, n.state.view, s, n.state.id, b)))
  }

  lemma LogsOnPrePrepare(n: Node, pp: ParsedMessage, env: Env, m: ParsedMessage)
    requires n.state.Sound() && env.Valid() && pp.Type() == PrePrepare && PrePreparesAgree(n.log.messages)
    ensures LogsIf(n, OnPrePrepare(n, pp, env).node, m, Acceptable(n, pp) && (m == pp || (MayAnswer(n, pp.SeqNum()) && IsAnswer(n, m, pp.SeqNum(), pp.Block()))))
  {
    AcceptedExactlyIfAcceptable(n, pp, env);
  }

  /** A message from a peer that the node takes: a view change in any case, a vote for a block if it is
      of the current view, a PrePrepare if it is acceptable. */
  ghost predicate Admissible(n: Node, m: ParsedMessage)
    requires n.state.Sound()
  {
    match m.Type()
    case PrePrepare => Acceptable(n, m)
    case Prepare => m.View() == n.state.view
    case Commit => m.View() == n.state.view
    case ViewChange => true
    case _ => false
  }

  /** What the node says to that: a Prepare, or its own view change if it joins one. */
  ghost predicate IsReply(n: Node, got: ParsedMessage, m: ParsedMessage)
    requires n.state.Sound()
  {
    || (got.Type() == PrePrepare && Acceptable(n, got) && MayAnswer(n, got.SeqNum()) && IsAnswer(n, m, got.SeqNum(), got.Block()))
    || (got.Type() == ViewChange && Joins(n, got) && IsProposal(n, m))
  }

  ghost predicate IsProposal(n: Node, m: ParsedMessage)
    requires n.state.Sound()
  {
    m == SelfMessage(m.message) && Proposes(n, Broadcast(m.message))
  }

  lemma LogsOnProposal(n: Node, env: Env, m: ParsedMessage)
    requires n.state.Sound()
    ensures LogsIf(n, ProposeViewChange(n, env).node, m, IsProposal(n, m))
    ensures ProposeViewChange(n, env).node.log.seals == n.log.seals
  {
    ProposesExactly(n, Broadcast(m.message));
  }

  lemma LogsOnViewChange(n: Node, got: ParsedMessage, env: Env, m: ParsedMessage)
    requires n.state.Sound() && got.Type() == ViewChange
    ensures LogsIf(n, OnViewChange(n, got, env).node, m, m == got || (Joins(n, got) && IsProposal(n, m)))
    ensures OnViewChange(n, got, env).node.log.seals == n.log.seals
  {
    var n1 := n.(log := n.log.AddMessage(got, n.state.view));
    LogsOnProposal(n1, env, m);
    assert IsProposal(n1, m) <==> IsProposal(n, m);
    StateOnHandlerLog(n1, got, env);
    StateOnHandlerLog(ProposeViewChange(n1, env).node, got, env);
  }

  lemma StateOnHandlerLog(n: Node, m: ParsedMessage, env: Env)
    requires n.state.Sound()
    ensures ViewChangeHandler(n, m, env).log == n.log
  {
  }

  lemma LogsOnPeerMessage(n: Node, got: ParsedMessage, env: Env, m: ParsedMessage)
    requires n.state.Sound() && env.Valid() && PrePreparesAgree(n.log.messages)
    ensures LogsIf(n, OnPeerMessage(n, got, env).node, m, (m == got && Admissible(n, got)) || IsReply(n, got, m))
    ensures OnPeerMessage(n, got, env).node.log.seals == n.log.seals
  {
    KeepsOnPeerMessage(n, got, env);
    match got.Type()
    case PrePrepare => LogsOnPrePrepare(n, got, env, m);
    case Prepare =>
    case Commit =>
    case ViewChange => LogsOnViewChange(n, got, env, m);
    case _ =>
  }

  // ---------- Blocks ----------

  /** The announcement of a block, made by the node for itself. */
  ghost function Announcement(n: Node, block: Block): ParsedMessage {
    ParsedMessage(UNSIGNED, Message(PbftMessage(BlockNew, n.state.view, block.blockNum, n.state.id, Described(block))), false)
  }

  /** The block is new to the node and welcome. */
  ghost predicate Announces(n: Node, ev: Event, env: Env) {
    ev.UpdateBlockNew? && ev.block.blockNum >= n.state.seqNum && Welcome(n, ev.block, env)
  }

  /** A vote of the seal, as the node logs it: without its signature. */
  ghost predicate IsSealVote(seal: Seal, m: ParsedMessage) {
    exists v :: v in seal.votes && m == ParsedMessage(UNSIGNED, Message(v.message), false)
  }

  /** What a new block puts in the log. */
  ghost predicate FromNewBlock(n: Node, ev: Event, env: Env, m: ParsedMessage)
    requires n.state.Sound() && env.Valid()
  {
    || (Announces(n, ev, env) && m == Announcement(n, ev.block))
    || (ev.UpdateBlockNew? && EndsRound(n, ev, env) && IsSealVote(ev.block.payload.seal, m))
    || (ev.UpdateBlockNew? && HasCause(n, ev, env) && IsProposal(n, m))
    || (ev.UpdateBlockNew? && TakesOwn(n, ev.block, env)
        && (m == SelfMessage(Message(PbftMessage(PrePrepare, n.state.view, n.state.seqNum, n.state.id, Described(ev.block))))
            || IsAnswer(n, m, n.state.seqNum, Described(ev.block))))
  }

  lemma LogsOnFailing(n: Node, block: Block, env: Env, m: ParsedMessage)
    requires n.state.Sound() && env.Valid() && HasCause(n, UpdateBlockNew(block), env)
    ensures LogsIf(n, OnBlockNew(n, block, env).node, m, IsProposal(n, m))
    ensures OnBlockNew(n, block, env).node.log.seals == n.log.seals
  {
    WelcomeExactly(n, block, env);
    LogsOnProposal(n.Call(FailBlock(block.blockId)), env, m);
    assert IsProposal(n.Call(FailBlock(block.blockId)), m) <==> IsProposal(n, m);
  }

  /** The node that has logged the block. */
  ghost function Noted(n: Node, block: Block): Node {
    LogBlock(n, block, if block.blockNum < 2 || !block.payload.Sealed? then None else Some(block.payload.seal))
  }

  lemma NotedHas(n: Node, block: Block, m: ParsedMessage, e: SealEntry)
    ensures LogsIf(n, Noted(n, block), m, m == Announcement(n, block))
    ensures e in Noted(n, block).log.seals <==> e in n.log.seals || StoresSeal(n, block, e)
  {
  }

  ghost predicate StoresSeal(n: Node, block: Block, e: SealEntry) {
    block.blockNum >= 2 && block.payload.Sealed? && e == SealEntry(block.blockId, n.state.seqNum, block.payload.seal)
  }

  lemma LogsOnAdoption(n: Node, block: Block, env: Env, m: ParsedMessage)
    requires n.state.Sound() && env.Valid() && PrePreparesAgree(n.log.messages) && TakesBlock(n, UpdateBlockNew(block), env)
    ensures LogsIf(n, OnBlockNew(n, block, env).node, m, FromNewBlock(n, UpdateBlockNew(block), env, m))
    ensures OnBlockNew(n, block, env).node.log.seals == Noted(n, block).log.seals
  {
    WelcomeExactly(n, block, env);
    var a := Noted(n, block);
    var b := PbftBlockFromBlock(block);
    var n1 := a.(state := a.state.(workingBlock := Some(b)));
    assert SamePrePrepares(n, n1) && BlockNewMessage(n, block) in n1.log.messages;
    NotedHas(n, block, m, SealEntry(block.blockId, 0, Seal(block.blockId, "", [])));
    if n.state.IsPrimary() && n.state.phase == PrePreparing {
      var w := OwnMessage(n1, PrePrepare, n.state.seqNum, b);
      var n2 := n1.Call(Broadcast(w));
      LogsOnPrePrepare(n2, SelfMessage(w), env, m);
      KeepsOnPrePrepare(n2, SelfMessage(w), env);
      assert Acceptable(n2, SelfMessage(w)) <==> TakesOwn(n, block, env);
    }
  }

  lemma LogsBeforeCatchup(n: Node, block: Block, env: Env, m: ParsedMessage)
    requires n.state.Sound() && env.Valid() && SealOfCommits(block) && EndsRound(n, UpdateBlockNew(block), env)
    ensures var c := AtCatchupCommit(Noted(n, block), block.payload.seal);
            LogsIf(n, c, m, FromNewBlock(n, UpdateBlockNew(block), env, m)) && c.log.seals == Noted(n, block).log.seals && c.log.maxLogSize == n.log.maxLogSize
  {
    var seal, a := block.payload.seal, Noted(n, block);
    var ms := SealMessages(seal);
    assert seal.votes[0] in seal.votes;
    forall x | x in ms ensures x.Type() == Commit && x.View() == ms[0].View() {
      SealMessagesAre(block, seal, x);
    }
    AddMessagesOfOneView(a.log, ms, SealView(a, seal), ms[0].View());
    AddMessagesAddsSome(a.log, ms, SealView(a, seal));
    SealMessagesAreVotes(seal, m);
    NotedHas(n, block, m, SealEntry(block.blockId, 0, seal));
  }

  lemma SealMessagesAreVotes(seal: Seal, m: ParsedMessage)
    ensures m in SealMessages(seal) <==> IsSealVote(seal, m)
  {
    var ms := SealMessages(seal);
    if m in ms {
      var i :| 0 <= i < |ms| && ms[i] == m;
      assert seal.votes[i] in seal.votes;
    }
    if IsSealVote(seal, m) {
      var v :| v in seal.votes && m == ParsedMessage(UNSIGNED, Message(v.message), false);
      var i :| 0 <= i < |seal.votes| && seal.votes[i] == v;
      assert ms[i] == m;
    }
  }

  /** The messages at the end of a round, before any are pruned. */
  ghost predicate AtRoundEnd(n: Node, ev: Event, env: Env, msgs: set<ParsedMessage>)
    requires n.state.Sound() && env.Valid()
  {
    forall m :: m in msgs <==> m in n.log.messages || FromNewBlock(n, ev, env, m)
  }

  /** A full log loses what is older than the round that ends. */
  ghost predicate Prunes(n: Node, ev: Event, env: Env, m: ParsedMessage)
    requires n.state.Sound() && env.Valid()
  {
    EndsRound(n, ev, env) && m.SeqNum() < n.state.seqNum && exists msgs :: AtRoundEnd(n, ev, env, msgs) && |msgs| >= n.log.maxLogSize
  }

  lemma LogsOnCommit(c: Node, id: BlockId, env: Env, m: ParsedMessage, e: SealEntry)
    requires c.state.Sound() && env.Valid() && EndsRound(c, UpdateBlockCommit(id), env)
    ensures m in OnBlockCommit(c, id, env).log.messages <==> m in c.log.messages && !(|c.log.messages| >= c.log.maxLogSize && m.SeqNum() < c.state.seqNum)
    ensures e in OnBlockCommit(c, id, env).log.seals <==> e in c.log.seals && e.blockId == id
  {
    assert OnBlockCommit(c, id, env).log == c.log.GarbageCollect(c.state.seqNum + 1, id);
  }

  lemma PrunesExactly(n: Node, ev: Event, env: Env, m: ParsedMessage, msgs: set<ParsedMessage>)
    requires n.state.Sound() && env.Valid() && EndsRound(n, ev, env) && AtRoundEnd(n, ev, env, msgs)
    ensures Prunes(n, ev, env, m) <==> |msgs| >= n.log.maxLogSize && m.SeqNum() < n.state.seqNum
  {
    forall other | AtRoundEnd(n, ev, env, other) ensures other == msgs {
    }
  }

  // ---------- Every step ----------

  /** What the step puts in the log. */
  ghost predicate Adds(n: Node, ev: Event, env: Env, m: ParsedMessage)
    requires n.state.Sound() && env.Valid()
  {
    match ev
    case UpdateBlockNew(_) => FromNewBlock(n, ev, env, m)
    case UpdateBlockValid(id) => m == SelfMessage(m.message) && SendsLast(n, id, Broadcast(m.message))
    case UpdateBlockCommit(_) => false
    case UpdatePeerMessage(_, _, _) => FromPeer(n, ev, m)
    case TickBacklog => FromPeer(n, ev, m)
    case _ => HasCause(n, ev, env) && IsProposal(n, m)
  }

  ghost predicate FromPeer(n: Node, ev: Event, m: ParsedMessage)
    requires n.state.Sound()
  {
    var got := MessageOf(n, ev);
    got.Some? && ((m == got.value && Admissible(n, m)) || IsReply(n, got.value, m))
  }

  /** The seal of a new and welcome block is stored for the round it comes in. */
  ghost predicate Stores(n: Node, ev: Event, env: Env, e: SealEntry) {
    Announces(n, ev, env) && StoresSeal(n, ev.block, e)
  }

  /** The log after the step: what was there and what is added, without what is pruned; the seals
      stored, and after the end of a round only that of its block. */
  ghost predicate LogFollows(n: Node, ev: Event, env: Env, n': Node, m: ParsedMessage, e: SealEntry)
    requires n.state.Sound() && env.Valid()
  {
    && (m in n'.log.messages <==> (m in n.log.messages || Adds(n, ev, env, m)) && !Prunes(n, ev, env, m))
    && (e in n'.log.seals <==> (e in n.log.seals || Stores(n, ev, env, e)) && (EndsRound(n, ev, env) ==> e.blockId == CommittedBy(n, ev)))
  }

  lemma LogsOnCatchup(n: Node, block: Block, env: Env, m: ParsedMessage, e: SealEntry)
    requires n.state.Sound() && env.Valid() && SealOfCommits(block) && EndsRound(n, UpdateBlockNew(block), env)
    ensures LogFollows(n, UpdateBlockNew(block), env, OnBlockNew(n, block, env).node, m, e)
  {
    var seal, ev := block.payload.seal, UpdateBlockNew(block);
    WelcomeExactly(n, block, env);
    assert seal.votes[0] in seal.votes;
    CatchupAllOrNothing(Noted(n, block), block, seal, env);
    var c := AtCatchupCommit(Noted(n, block), seal);
    forall x ensures LogsIf(n, c, x, FromNewBlock(n, ev, env, x)) {
      LogsBeforeCatchup(n, block, env, x);
    }
    assert AtRoundEnd(n, ev, env, c.log.messages);
    LogsBeforeCatchup(n, block, env, m);
    NotedHas(n, block, m, e);
    LogsOnCommit(c, block.previousId, env, m, e);
    PrunesExactly(n, ev, env, m, c.log.messages);
  }

  lemma LogsOnBlockNew(n: Node, block: Block, env: Env, m: ParsedMessage, e: SealEntry)
    requires n.state.Sound() && env.Valid() && PrePreparesAgree(n.log.messages) && SealOfCommits(block)
    ensures LogFollows(n, UpdateBlockNew(block), env, OnBlockNew(n, block, env).node, m, e)
  {
    WelcomeExactly(n, block, env);
    if HasCause(n, UpdateBlockNew(block), env) {
      LogsOnFailing(n, block, env, m);
    } else if EndsRound(n, UpdateBlockNew(block), env) {
      LogsOnCatchup(n, block, env, m, e);
    } else if TakesBlock(n, UpdateBlockNew(block), env) {
      LogsOnAdoption(n, block, env, m);
      NotedHas(n, block, m, e);
    } else if block.blockNum > n.state.seqNum {
      LogsOnLateBlock(n, block, env);
      NotedHas(n, block, m, e);
    }
  }

  lemma LogsOnLateBlock(n: Node, block: Block, env: Env)
    requires n.state.Sound() && env.Valid() && SealOfCommits(block) && block.blockNum > n.state.seqNum && Welcome(n, block, env)
    requires !EndsRound(n, UpdateBlockNew(block), env)
    ensures OnBlockNew(n, block, env).node == Noted(n, block)
  {
    WelcomeExactly(n, block, env);
    if block.blockNum == n.state.seqNum + 1 && n.state.phase != Finished {
      VerifiedSealHasVotes(n, block, env);
      assert block.payload.seal.votes[0] in block.payload.seal.votes;
      CatchupAllOrNothing(Noted(n, block), block, block.payload.seal, env);
    }
  }

  lemma LogsOnDelivery(n: Node, ev: Event, env: Env, m: ParsedMessage, e: SealEntry)
    requires n.state.Sound() && env.Valid() && PrePreparesAgree(n.log.messages) && (ev.UpdatePeerMessage? || ev.TickBacklog?)
    ensures LogFollows(n, ev, env, Step(n, ev, env), m, e)
  {
    var got := MessageOf(n, ev);
    if got.Some? {
      var n1 := if ev.TickBacklog? then n.(log := n.log.(backlog := n.log.backlog[1..])) else n;
      LogsOnPeerMessage(n1, got.value, env, m);
      assert Step(n, ev, env) == OnPeerMessage(n1, got.value, env).node;
      assert IsReply(n1, got.value, m) <==> IsReply(n, got.value, m);
      assert Admissible(n1, m) <==> Admissible(n, m);
    }
  }

  lemma LogsOnBlockValid(n: Node, id: BlockId, env: Env, m: ParsedMessage)
    requires n.state.Sound() && env.Valid()
    ensures LogsIf(n, OnBlockValid(n, id, env).node, m, m == SelfMessage(m.message) && SendsLast(n, id, Broadcast(m.message)))
    ensures OnBlockValid(n, id, env).node.log.seals == n.log.seals
  {
    ValidBlockSends(n, id, env);
  }

  lemma LogsOnTick(n: Node, summary: Option<string>, env: Env, m: ParsedMessage)
    requires n.state.Sound() && env.Valid()
    ensures LogsIf(n, WorkingTick(n, summary, env), m, HasCause(n, TickWorking(summary), env) && IsProposal(n, m))
    ensures WorkingTick(n, summary, env).log.seals == n.log.seals
  {
    var n1 := TryPublish(n, summary, env).node;
    var n2 := n1.(state := n1.state.(timeout := n1.state.timeout.Checked(env.now)));
    PublishedBy(n, summary, env);
    LogsOnProposal(n2, env, m);
    assert IsProposal(n2, m) <==> IsProposal(n, m);
  }

  /** Every step leaves the log that its causes give: exactly these messages, exactly these seals. */
  lemma LogOfEveryStep(n: Node, ev: Event, env: Env, m: ParsedMessage, e: SealEntry)
    requires n.state.Sound() && env.Valid() && WellSealed(ev) && PrePreparesAgree(n.log.messages)
    ensures LogFollows(n, ev, env, Step(n, ev, env), m, e)
  {
    match ev
    case UpdateBlockNew(block) => LogsOnBlockNew(n, block, env, m, e);
    case UpdateBlockValid(id) => LogsOnBlockValid(n, id, env, m);
    case UpdateBlockInvalid(id) => LogsOnProposal(n, env, m);
    case UpdateBlockCommit(id) =>
      if EndsRound(n, ev, env) {
        LogsOnCommit(n, id, env, m, e);
        assert AtRoundEnd(n, ev, env, n.log.messages);
        PrunesExactly(n, ev, env, m, n.log.messages);
      }
    case UpdatePeerMessage(_, _, _) => LogsOnDelivery(n, ev, env, m, e);
    case UpdateOther =>
    case TickWorking(summary) => LogsOnTick(n, summary, env, m);
    case TickBacklog => LogsOnDelivery(n, ev, env, m, e);
  }

  /** A new block is ignored if it is older than the round, and otherwise logged or failed: logged
      exactly if it is welcome. No other event announces a block. */
  lemma NewBlockIsLoggedOrFailed(n: Node, ev: Event, env: Env, m: ParsedMessage)
    requires n.state.Sound() && env.Valid() && WellSealed(ev) && PrePreparesAgree(n.log.messages) && m.Type() == BlockNew && m !in n.log.messages
    ensures m in Step(n, ev, env).log.messages <==> Announces(n, ev, env) && m == Announcement(n, ev.block)
    ensures ev.UpdateBlockNew? ==> Makes(n, Step(n, ev, env), FailBlock(ev.block.blockId), ev.block.blockNum >= n.state.seqNum && !Announces(n, ev, env))
    ensures ev.UpdateBlockNew? && ev.block.blockNum < n.state.seqNum ==> Step(n, ev, env) == n
  {
    LogOfEveryStep(n, ev, env, m, SealEntry(BlockId(""), 0, Seal(BlockId(""), "", [])));
    OnlyAnnouncements(n, ev, env, m);
    if ev.UpdateBlockNew? {
      BlocksFailed(n, ev, env, ev.block.blockId);
    }
  }

  lemma OnlyAnnouncements(n: Node, ev: Event, env: Env, m: ParsedMessage)
    requires n.state.Sound() && env.Valid() && WellSealed(ev) && m.Type() == BlockNew
    ensures Adds(n, ev, env, m) <==> Announces(n, ev, env) && m == Announcement(n, ev.block)
  {
  }
}
