/** Which block a node asks its validator to check: the engine names the block of the Prepare
    that arrives, not of the PrePrepare, so this says when the two are the same. */
module Checks {
  import opened Types
  import opened State
  import opened MessageLog
  import opened Protocol
  import opened Ledger
  import opened Quorums
  import opened Ladder
  import opened Commits
  import opened Runs

  /** Some block with this id is prepared in the current round. */
  ghost predicate NamesPrepared(n: Node, id: BlockId) {
    exists b: PbftBlock :: b.blockId == id && PreparedFor(n.log.messages, n.state.seqNum, n.state.view, n.state.f, b)
  }

  /** Some block with this id is pre-prepared in the current round. */
  ghost predicate NamesPrePrepared(n: Node, id: BlockId) {
    exists b: PbftBlock :: b.blockId == id && HasPrePrepare(n.log.messages, n.state.seqNum, n.state.view, b)
  }

  /** The Prepare makes the node ask: its round is prepared, and it is not asking already. */
  ghost predicate Asks(n: Node, m: ParsedMessage) {
    && m.At(Prepare, n.state.seqNum, n.state.view)
    && n.state.phase != Checking
    && Prepared(n.log.messages + {m}, n.state.seqNum, n.state.view, n.state.f)
  }

  /** A Prepare makes the node ask for the block it is for. That is the prepared block exactly if
      it is the pre-prepared one, and always so for a node at rest in Preparing. */
  lemma CheckOnPrepare(n: Node, m: ParsedMessage, env: Env)
    requires n.state.Sound() && env.Valid() && m.Type() == Prepare && PrePreparesAgree(n.log.messages)
    ensures var n' := OnPrepare(n, m, env).node; var id := m.Block().blockId;
            && n'.calls == n.calls + (if Asks(n, m) then [CheckBlocks(id)] else [])
            && (Asks(n, m) ==> (NamesPrepared(n', id) <==> NamesPrePrepared(n, id)))
            && (Asks(n, m) && n.state.phase == Preparing && RestsPreparing(n) ==> NamesPrePrepared(n, id))
  {
    var s, v, f := n.state.seqNum, n.state.view, n.state.f;
    assert forall k :: k in n.log.messages + {m} && k.Type() == PrePrepare ==> k in n.log.messages;
    ChecksMeanCertificates(n.log.messages + {m}, s, v, f, env);
    if Asks(n, m) {
      assert OnPrepare(n, m, env).node.log.messages == n.log.messages + {m};
      var b :| PreparedFor(n.log.messages + {m}, s, v, f, b);
      assert HasPrePrepare(n.log.messages, s, v, b);
      NewCertificateIsForTheVote(n.log.messages, m, s, v, f, b);
    } else {
      assert n.calls + [] == n.calls;
    }
  }

  // ---------- Handlers that ask for nothing ----------

  /** The calls from `n` to `n'` ask for no block but these. */
  ghost predicate AsksWithin(n: Node, n': Node, ids: set<BlockId>) {
    && n.calls <= n'.calls
    && forall i :: |n.calls| <= i < |n'.calls| && n'.calls[i].CheckBlocks? ==> n'.calls[i].checked in ids
  }

  lemma AsksChain(a: Node, b: Node, c: Node, ids: set<BlockId>)
    requires AsksWithin(a, b, {}) && AsksWithin(b, c, ids)
    ensures AsksWithin(a, c, ids)
  {
  }

  lemma HandlerAsksNothing(n: Node, m: ParsedMessage, env: Env)
    requires n.state.Sound()
    ensures AsksWithin(n, ViewChangeHandler(n, m, env), {})
  {
  }

  lemma ProposalAsksNothing(n: Node, env: Env)
    requires n.state.Sound()
    ensures AsksWithin(n, ProposeViewChange(n, env).node, {})
  {
    var found := n.log.GetConsensusSeal(n.state.seqNum - 1);
    if n.state.mode == Normal && found.Success? {
      var n1 := WithOwnViewChange(n, found.value);
      HandlerAsksNothing(n1, SelfMessage(OwnViewChange(n, found.value)), env);
      AsksChain(n, n1, ProposeViewChange(n, env).node, {});
    }
  }

  lemma ViewChangeAsksNothing(n: Node, m: ParsedMessage, env: Env)
    requires n.state.Sound() && m.Type() == ViewChange
    ensures AsksWithin(n, OnViewChange(n, m, env).node, {})
  {
    var n1 := n.(log := n.log.AddMessage(m, n.state.view));
    ProposalAsksNothing(n1, env);
    var n2 := if n.state.mode == ViewChanging then n1 else ProposeViewChange(n1, env).node;
    HandlerAsksNothing(n2, m, env);
    AsksChain(n, n2, ViewChangeHandler(n2, m, env), {});
  }

  lemma BlockCommitAsksNothing(n: Node, id: BlockId, env: Env)
    requires n.state.Sound() && env.Valid()
    ensures AsksWithin(n, OnBlockCommit(n, id, env), {})
  {
    if n.state.phase == Finished && IsWorkingBlock(n, id) {
      var n1 := n.(state := NextBlock(n, env));
      var n2 := RotateIfDue(n1, id, env);
      assert AsksWithin(n, n2, {});
      AsksChain(n, n2, Settle(n2, id, env.now), {});
    }
  }

  lemma CatchupAsksNothing(n: Node, block: Block, seal: Seal, env: Env)
    requires n.state.Sound() && env.Valid() && |seal.votes| > 0
    ensures AsksWithin(n, Catchup(n, block, seal, env).node, {})
  {
    var ms := SealMessages(seal);
    var view := Max(n.state.view, ms[0].View());
    var n1 := n.(state := n.state.(view := view, phase := Committing), log := AddMessages(n.log, ms, view));
    var id := ms[0].Block().blockId;
    assert AsksWithin(n, CommitNow(n1, id), {});
    BlockCommitAsksNothing(CommitNow(n1, id), id, env);
    AsksChain(n, CommitNow(n1, id), OnBlockCommit(CommitNow(n1, id), id, env), {});
  }

  lemma WorkingTickAsksNothing(n: Node, summary: Option<string>, env: Env)
    requires n.state.Sound() && env.Valid()
    ensures AsksWithin(n, WorkingTick(n, summary, env), {})
  {
    var n1 := TryPublish(n, summary, env).node;
    var n2 := n1.(state := n1.state.(timeout := n1.state.timeout.Checked(env.now)));
    assert AsksWithin(n, n2, {});
    ProposalAsksNothing(n2, env);
    AsksChain(n, n2, ProposeViewChange(n2, env).node, {});
  }

  // ---------- Handlers that may ask ----------

  /** What is asked for between `n` and `n'` is prepared at `n'`. */
  ghost predicate AsksForPrepared(n: Node, n': Node) {
    && n.calls <= n'.calls
    && forall i :: |n.calls| <= i < |n'.calls| && n'.calls[i].CheckBlocks? ==> NamesPrepared(n', n'.calls[i].checked)
  }

  lemma NothingIsPrepared(n: Node, n': Node)
    requires AsksWithin(n, n', {})
    ensures AsksForPrepared(n, n')
  {
  }

  /** A node that answers a PrePrepare asks for the block it has just accepted. */
  lemma PrePrepareAsksForPrepared(n: Node, m: ParsedMessage, env: Env)
    requires n.state.Sound() && env.Valid() && m.Type() == PrePrepare && PrePreparesAgree(n.log.messages)
    ensures AsksForPrepared(n, OnPrePrepare(n, m, env).node)
  {
    if PrePrepareProblem(n, m, env).None? {
      NoProblemAdmits(n, m, env);
      var n1 := WithPrePrepare(n, m, env.now);
      var w := OwnMessage(n1, Prepare, m.SeqNum(), m.Block());
      var n2 := n1.Call(Broadcast(w));
      CheckOnPrepare(n2, SelfMessage(w), env);
      assert m in n2.log.messages && m.VotesFor(PrePrepare, m.SeqNum(), n2.state.view, m.Block());
      assert m.SeqNum() == n.state.seqNum ==> NamesPrePrepared(n2, m.Block().blockId);
    }
  }

  lemma AdoptionAsksForPrepared(n: Node, block: Block, env: Env)
    requires n.state.Sound() && env.Valid() && PrePreparesAgree(n.log.messages)
    ensures AsksForPrepared(n, AdoptBlock(n, block, env).node)
  {
    var pbftBlock := PbftBlockFromBlock(block);
    var n1 := n.(state := n.state.(workingBlock := Some(pbftBlock)));
    var w := OwnMessage(n1, PrePrepare, n.state.seqNum, pbftBlock);
    PrePrepareAsksForPrepared(n1.Call(Broadcast(w)), SelfMessage(w), env);
  }

  lemma BlockNewAsksForPrepared(n: Node, block: Block, env: Env)
    requires n.state.Sound() && env.Valid() && PrePreparesAgree(n.log.messages)
    ensures AsksForPrepared(n, OnBlockNew(n, block, env).node)
  {
    var n' := OnBlockNew(n, block, env).node;
    if block.blockNum >= n.state.seqNum {
      match VerifyConsensusSeal(n, block, env)
      case Failure(_) =>
        var n1 := n.Call(FailBlock(block.blockId));
        ProposalAsksNothing(n1, env);
        AsksChain(n, n1, n', {});
        NothingIsPrepared(n, n');
      case Success(seal) =>
        var n1 := LogBlock(n, block, seal);
        assert forall m :: m in n1.log.messages && m.Type() == PrePrepare ==> m in n.log.messages;
        if block.blockNum == n.state.seqNum + 1 && n.state.phase != Finished {
          VerifiedSealHasVotes(n, block, env);
          CatchupAsksNothing(n1, block, seal.value, env);
          NothingIsPrepared(n, n');
        } else if block.blockNum == n.state.seqNum {
          AdoptionAsksForPrepared(n1, block, env);
        }
    }
  }

  // ---------- Every step ----------

  /** The event is a Prepare that makes the node ask for a block other than the pre-prepared one. */
  ghost predicate StrayPrepare(n: Node, ev: Event) {
    var m := MessageOf(n, ev);
    m.Some? && m.value.Type() == Prepare && Asks(n, m.value) && !NamesPrePrepared(n, m.value.Block().blockId)
  }

  /** The step asks for a block that is not prepared in its round. */
  ghost predicate AsksAstray(n: Node, n': Node) {
    exists i :: |n.calls| <= i < |n'.calls| && n'.calls[i].CheckBlocks? && !NamesPrepared(n', n'.calls[i].checked)
  }

  lemma MessageAsks(n: Node, ev: Event, env: Env)
    requires n.state.Sound() && env.Valid() && PrePreparesAgree(n.log.messages) && (ev.UpdatePeerMessage? || ev.TickBacklog?)
    ensures AsksAstray(n, Step(n, ev, env)) <==> StrayPrepare(n, ev)
  {
    var m := MessageOf(n, ev);
    if m.Some? {
      var n1 := if ev.TickBacklog? then n.(log := n.log.(backlog := n.log.backlog[1..])) else n;
      assert Step(n, ev, env) == OnPeerMessage(n1, m.value, env).node;
      match m.value.Type()
      case PrePrepare => PrePrepareAsksForPrepared(n1, m.value, env);
      case Prepare =>
        CheckOnPrepare(n1, m.value, env);
        assert Asks(n1, m.value) ==> OnPrepare(n1, m.value, env).node.calls[|n.calls|] == CheckBlocks(m.value.Block().blockId);
      case Commit => assert AsksWithin(n1, OnCommit(n1, m.value, env).node, {});
      case ViewChange => ViewChangeAsksNothing(n1, m.value, env);
      case _ =>
    }
  }

  /** A step asks for a block that is not prepared exactly if it is the arrival of a stray
      Prepare. */
  lemma ChecksOfStep(n: Node, ev: Event, env: Env)
    requires n.state.Sound() && env.Valid() && PrePreparesAgree(n.log.messages)
    ensures AsksAstray(n, Step(n, ev, env)) <==> StrayPrepare(n, ev)
  {
    match ev
    case UpdateBlockNew(block) => BlockNewAsksForPrepared(n, block, env);
    case UpdateBlockValid(id) =>
      ValidBlockSends(n, id, env);
      if n.state.workingBlock.Some? {
        assert AsksWithin(n, WithOwnCommit(n), {});
      }
    case UpdateBlockInvalid(_) => ProposalAsksNothing(n, env);
    case UpdateBlockCommit(id) => BlockCommitAsksNothing(n, id, env);
    case UpdatePeerMessage(_, _, _) => MessageAsks(n, ev, env);
    case UpdateOther =>
    case TickWorking(summary) => WorkingTickAsksNothing(n, summary, env);
    case TickBacklog => MessageAsks(n, ev, env);
  }

  /** No Prepare is stray for a node at rest in Preparing: it can only complete the certificate. */
  lemma PreparingNodeIsNotLedAstray(n: Node, ev: Event, env: Env)
    requires n.state.Sound() && env.Valid() && PrePreparesAgree(n.log.messages) && n.state.phase == Preparing && RestsPreparing(n)
    ensures !StrayPrepare(n, ev)
  {
    var m := MessageOf(n, ev);
    if m.Some? && m.value.Type() == Prepare {
      CheckOnPrepare(n, m.value, env);
    }
  }

  /** In every run a step asks for a block that is not prepared exactly if a stray Prepare
      arrives, and never from Preparing. */
  lemma ChecksOverRuns(t: Trace, k: nat)
    requires t.Valid() && t.Sealed() && k < |t.events|
    ensures AsksAstray(t.nodes[k], t.nodes[k + 1]) <==> StrayPrepare(t.nodes[k], t.events[k])
    ensures t.nodes[k].state.phase == Preparing ==> !AsksAstray(t.nodes[k], t.nodes[k + 1])
  {
    InvariantOfRun(t, k);
    assert t.StepsAt(k);
    ChecksOfStep(t.nodes[k], t.events[k], t.envs[k]);
    if t.nodes[k].state.phase == Preparing {
      PreparingNodeIsNotLedAstray(t.nodes[k], t.events[k], t.envs[k]);
    }
  }
}
