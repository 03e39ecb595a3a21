/** What each operation reports to the engine, which only logs it: exactly when it succeeds, with
    which error it fails, and that a failure leaves the node as it was, but for the mode and the
    calls that go with giving up on a primary. */
module Outcomes {
  import opened Types
  import opened State
  import opened MessageLog
  import opened Protocol
  import opened Ledger
  import opened Commits
  import opened Views
  import opened Seals
  import opened Lag
  import opened Backlog
  import opened Causes
  import opened Account
  import opened Requests
  import opened Logs

  /** How many seals are stored for a number. */
  function SealCount(seals: set<SealEntry>, s: nat): nat {
    |set e | e in seals && e.seqNum == s|
  }

  /** Exactly one seal is stored for the round before. */
  predicate SealAtHand(n: Node)
    requires n.state.Sound()
  {
    SealCount(n.log.seals, n.state.seqNum - 1) == 1
  }

  lemma SealsAtCount(log: LogValue, s: nat)
    ensures |log.SealsAt(s)| == SealCount(log.seals, s)
  {
    assert log.SealsAt(s) == set e | e in log.seals && e.seqNum == s;
  }

  /** Giving up on the primary fails exactly if the node does so for the first time and has not exactly
      one seal for the round before; then only the mode has changed. */
  lemma ProposalReports(n: Node, env: Env)
    requires n.state.Sound()
    ensures var r := ProposeViewChange(n, env);
            && (r.result.Ok? <==> n.state.mode == ViewChanging || SealAtHand(n))
            && (r.result.Err? ==> r == Reply(n.(state := n.state.(mode := ViewChanging)), Err(WrongNumSeals(1, SealCount(n.log.seals, n.state.seqNum - 1)))))
  {
    SealsAtCount(n.log, n.state.seqNum - 1);
  }

  /** A PrePrepare is reported to fail exactly if it is neither acceptable nor early, and nothing has
      changed then: it is not from the primary, contradicts one that is logged, or is of another
      view, and this is told in this order. */
  lemma PrePrepareReports(n: Node, m: ParsedMessage, env: Env)
    requires n.state.Sound() && env.Valid() && m.Type() == PrePrepare && PrePreparesAgree(n.log.messages)
    ensures var r := OnPrePrepare(n, m, env);
            && (r.result.Ok? <==> Acceptable(n, m) || Early(n, m))
            && (r.result.Err? ==> r.node == n && PrePrepareError(n, m, r.result.error))
  {
    AcceptedExactlyIfAcceptable(n, m, env);
    var existing := GetOneMsg(n.log.messages, PrePrepare, m.SeqNum(), m.View(), env);
    assert existing.Some? ==> existing.value in n.log.messages;
  }

  ghost predicate PrePrepareError(n: Node, m: ParsedMessage, e: PbftError)
    requires n.state.Sound() && m.Type() == PrePrepare
  {
    if m.SignerId() != n.state.peerIds[n.state.view % |n.state.peerIds|] then e == NotFromPrimary
    else if exists k :: k in n.log.messages && k.At(PrePrepare, m.SeqNum(), m.View()) && k.Block() != m.Block() then
      exists b :: HasPrePrepare(n.log.messages, m.SeqNum(), m.View(), b) && b != m.Block() && e == BlockMismatch(b, m.Block())
    else m.View() != n.state.view && e == ViewMismatch(m.View(), n.state.view)
  }

  /** A vote for a block fails exactly if it is of another view, and changes nothing then. */
  lemma VoteReports(n: Node, m: ParsedMessage, env: Env)
    requires n.state.Sound() && env.Valid() && m.Type() in {Prepare, Commit}
    ensures var r := OnPeerMessage(n, m, env);
            && (r.result.Ok? <==> m.View() == n.state.view)
            && (r.result.Err? ==> r == Reply(n, Err(ViewMismatch(m.View(), n.state.view))))
  {
  }

  /** A view change fails exactly if the node has to join it and has not exactly one seal for the
      round before; then it is logged, and the mode has changed. */
  lemma ViewChangeReports(n: Node, m: ParsedMessage, env: Env)
    requires n.state.Sound() && env.Valid() && m.Type() == ViewChange
    ensures var r := OnPeerMessage(n, m, env);
            && (r.result.Err? <==> n.state.mode == Normal && Joins(n, m) && !SealAtHand(n))
            && (r.result.Err? ==> r == Reply(Having(n, m).(state := n.state.(mode := ViewChanging)), Err(WrongNumSeals(1, SealCount(n.log.seals, n.state.seqNum - 1)))))
  {
    assert n.log.AddMessage(m, n.state.view) == Having(n, m).log;
    ProposalReports(Having(n, m), env);
  }

  /** A new block is reported to fail exactly if it is not older than the round and not welcome, or is
      the next one, comes to a node not done with its round, and does not end it, or is the one of the
      round and a waiting primary finds its own PrePrepare for it refused. */
  lemma BlockNewReports(n: Node, block: Block, env: Env)
    requires n.state.Sound() && env.Valid() && SealOfCommits(block) && PrePreparesAgree(n.log.messages)
    ensures OnBlockNew(n, block, env).result.Err? <==> HasCause(n, UpdateBlockNew(block), env) || InVain(n, block, env) || TurnedDown(n, block, env)
  {
    if HasCause(n, UpdateBlockNew(block), env) {
      FailureReports(n, block, env);
    } else if InVain(n, block, env) {
      LateBlockReports(n, block, env);
    } else if TakesBlock(n, UpdateBlockNew(block), env) {
      AdoptionReports(n, block, env);
    } else if EndsRound(n, UpdateBlockNew(block), env) {
      CatchupReports(n, block, env);
    } else if block.blockNum > n.state.seqNum {
      WelcomeExactly(n, block, env);
    }
  }

  lemma FailureReports(n: Node, block: Block, env: Env)
    requires n.state.Sound() && env.Valid() && HasCause(n, UpdateBlockNew(block), env)
    ensures OnBlockNew(n, block, env).result == Err(FailureReport(n, block))
  {
    WelcomeExactly(n, block, env);
    ProposalReports(n.Call(FailBlock(block.blockId)), env);
  }

  /** A waiting primary whose own PrePrepare is refused: the view has another primary, or another block
      is pre-prepared. */
  ghost predicate TurnedDown(n: Node, block: Block, env: Env)
    requires n.state.Sound() && env.Valid()
  {
    TakesBlock(n, UpdateBlockNew(block), env) && n.state.role == Primary && n.state.phase == PrePreparing && !TakesOwn(n, block, env)
  }

  /** The next block, to a node not done with its round, with nothing to be done about it. */
  ghost predicate InVain(n: Node, block: Block, env: Env) {
    block.blockNum == n.state.seqNum + 1 && n.state.phase != Finished && Welcome(n, block, env) && !EndsRound(n, UpdateBlockNew(block), env)
  }

  ghost function CatchupError(n: Node, block: Block): PbftError {
    if n.state.workingBlock.None? then NoWorkingBlock
    else if n.state.workingBlock.value.blockId != block.previousId || n.state.workingBlock.value.blockNum + 1 != block.blockNum
    then BlockMismatch(Described(block), n.state.workingBlock.value)
    else if block.payload.Sealed? && block.payload.seal.votes != [] then ViewMismatch(block.payload.seal.votes[0].message.view, n.state.view)
    else InternalError
  }

  /** What is wrong with the seal, unless the node cannot even give up on its primary. */
  ghost function FailureReport(n: Node, block: Block): PbftError
    requires n.state.Sound()
  {
    if n.state.mode == Normal && !SealAtHand(n) then WrongNumSeals(1, SealCount(n.log.seals, n.state.seqNum - 1))
    else if block.payload.Malformed? then SerializationError else InternalError
  }

  lemma LateBlockReports(n: Node, block: Block, env: Env)
    requires n.state.Sound() && env.Valid() && SealOfCommits(block) && InVain(n, block, env)
    ensures OnBlockNew(n, block, env) == Reply(Noted(n, block), Err(CatchupError(n, block)))
  {
    WelcomeExactly(n, block, env);
    VerifiedSealHasVotes(n, block, env);
    var seal := block.payload.seal;
    assert seal.votes[0] in seal.votes;
    CatchupAllOrNothing(Noted(n, block), block, seal, env);
    CatchupMoves(Noted(n, block), block, seal, env);
    assert SealMessages(seal)[0].View() == seal.votes[0].message.view;
  }

  lemma CatchupReports(n: Node, block: Block, env: Env)
    requires n.state.Sound() && env.Valid() && EndsRound(n, UpdateBlockNew(block), env)
    ensures OnBlockNew(n, block, env).result.Ok?
  {
    WelcomeExactly(n, block, env);
    assert block.payload.seal.votes[0] in block.payload.seal.votes;
    CatchupMoves(Noted(n, block), block, block.payload.seal, env);
  }

  lemma AdoptionReports(n: Node, block: Block, env: Env)
    requires n.state.Sound() && env.Valid() && PrePreparesAgree(n.log.messages) && TakesBlock(n, UpdateBlockNew(block), env)
    ensures OnBlockNew(n, block, env).result.Err? <==> TurnedDown(n, block, env)
  {
    WelcomeExactly(n, block, env);
    var a := Noted(n, block);
    var n1 := a.(state := a.state.(workingBlock := Some(Described(block))));
    assert SamePrePrepares(n, n1) && BlockNewMessage(n, block) in n1.log.messages;
    if n.state.IsPrimary() && n.state.phase == PrePreparing {
      var w := OwnMessage(n1, PrePrepare, n.state.seqNum, Described(block));
      PrePrepareReports(n1.Call(Broadcast(w)), SelfMessage(w), env);
      assert !Early(n1.Call(Broadcast(w)), SelfMessage(w));
    }
  }

  /** An answer of the validator fails exactly if it is not about the working block, and changes
      nothing then. */
  lemma ValidReports(n: Node, id: BlockId, env: Env)
    requires n.state.Sound() && env.Valid()
    ensures var r := OnBlockValid(n, id, env);
            && (r.result.Ok? <==> WorksOn(n, id))
            && (r.result.Err? ==> r == Reply(n, Err(if n.state.workingBlock.None? then NoWorkingBlock else NotReadyForMessage)))
  {
  }

  /** Publishing fails exactly if a waiting primary has a summary but not the votes for a seal. */
  lemma PublishReports(n: Node, summary: Option<string>, env: Env)
    requires n.state.Sound() && env.Valid()
    ensures var r := TryPublish(n, summary, env);
            && (r.result.Err? <==> n.state.role == Primary && n.state.phase == PrePreparing && summary.Some? && !Publishes(n, TickWorking(summary)))
            && (r.result.Err? ==> r == Reply(n, Err(InternalError)))
  {
    if summary.Some? {
      BuiltSealHolds(n, summary.value, env);
    }
  }
}
