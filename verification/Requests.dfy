/** What a step asks of the validator: exactly when a block is published, failed, ignored or
    initialized, and exactly when a PrePrepare, a Commit or a view change is sent. Prepares are
    accounted for in `Minds`, checks in `Checks`, commits in `Commits`. */
module Requests {
  import opened Types
  import opened Timing
  import opened State
  import opened Protocol
  import opened Ledger
  import opened Provenance
  import opened Commits
  import opened Views
  import opened Seals
  import opened Retention
  import opened Lag
  import opened Causes
  import opened Account

  /** The calls from one node to a later one. */
  ghost function Made(n: Node, n': Node): seq<ServiceCall>
    requires n.calls <= n'.calls
  {
    n'.calls[|n.calls|..]
  }

  /** The calls accounted for here. */
  predicate Accounted(c: ServiceCall) {
    !c.CheckBlocks? && !c.CommitBlock? && (c.Broadcast? ==> SelfMessage(c.message).Type() != Prepare)
  }

  /** From one node to the other the call is made exactly if `when`. */
  ghost predicate Makes(n: Node, n': Node, c: ServiceCall, when: bool) {
    n.calls <= n'.calls && (c in Made(n, n') <==> when)
  }

  lemma MakesChain(a: Node, b: Node, d: Node, c: ServiceCall, x: bool, y: bool)
    requires Makes(a, b, c, x) && Makes(b, d, c, y)
    ensures Makes(a, d, c, x || y)
  {
    assert Made(a, d) == Made(a, b) + Made(b, d);
  }

  lemma MakesThese(n: Node, n': Node, cs: seq<ServiceCall>, c: ServiceCall)
    requires n'.calls == n.calls + cs
    ensures Makes(n, n', c, c in cs)
  {
    assert Made(n, n') == cs;
  }

  // ---------- Votes ----------

  lemma MakesOnPrepare(n: Node, m: ParsedMessage, env: Env, c: ServiceCall)
    requires n.state.Sound() && env.Valid() && m.Type() == Prepare && Accounted(c)
    ensures Makes(n, OnPrepare(n, m, env).node, c, false)
  {
    var n' := OnPrepare(n, m, env).node;
    MakesThese(n, n', if n'.calls == n.calls then [] else [CheckBlocks(m.Block().blockId)], c);
  }

  lemma MakesOnPrePrepare(n: Node, m: ParsedMessage, env: Env, c: ServiceCall)
    requires n.state.Sound() && env.Valid() && m.Type() == PrePrepare && Accounted(c)
    ensures Makes(n, OnPrePrepare(n, m, env).node, c, false)
  {
    var n' := OnPrePrepare(n, m, env).node;
    if n'.calls == n.calls {
      MakesThese(n, n', [], c);
    } else {
      var n1 := WithPrePrepare(n, m, env.now);
      var w := OwnMessage(n1, Prepare, m.SeqNum(), m.Block());
      MakesThese(n, n1.Call(Broadcast(w)), [Broadcast(w)], c);
      MakesOnPrepare(n1.Call(Broadcast(w)), SelfMessage(w), env, c);
      MakesChain(n, n1.Call(Broadcast(w)), n', c, false, false);
    }
  }

  lemma MakesOnCommit(n: Node, m: ParsedMessage, env: Env, c: ServiceCall)
    requires n.state.Sound() && env.Valid() && m.Type() == Commit && Accounted(c)
    ensures Makes(n, OnCommit(n, m, env).node, c, false)
  {
    var n' := OnCommit(n, m, env).node;
    MakesThese(n, n', if n'.calls == n.calls then [] else [CommitBlock(m.Block().blockId, n.state.view, n.state.seqNum)], c);
  }

  // ---------- View changes ----------

  ghost predicate LeadsView(n: Node, v: nat)
    requires n.state.Sound()
  {
    n.state.id == n.state.peerIds[v % |n.state.peerIds|]
  }

  ghost predicate WorksOn(n: Node, id: BlockId) {
    n.state.workingBlock.Some? && n.state.workingBlock.value.blockId == id
  }

  /** What a new primary asks for on entering the view: its block, if it has one, is ignored, and
      another one is begun. */
  ghost predicate OnEntry(n: Node, v: nat, c: ServiceCall)
    requires n.state.Sound()
  {
    LeadsView(n, v) && (c == InitializeBlock(None) || (c.IgnoreBlock? && WorksOn(n, c.ignored)))
  }

  lemma MakesTakeRole(n: Node, c: ServiceCall)
    requires n.state.Sound()
    ensures Makes(n, TakeRole(n), c, OnEntry(n, n.state.view, c))
  {
    MakesThese(n, TakeRole(n), RoleCalls(n), c);
  }

  lemma MakesOnHandler(n: Node, m: ParsedMessage, env: Env, c: ServiceCall)
    requires n.state.Sound()
    ensures Makes(n, ViewChangeHandler(n, m, env), c, EnoughViewChanges(n.log.messages, m.SeqNum(), m.View(), n.state.f) && OnEntry(n, m.View(), c))
  {
    MakesTakeRole(n.(state := n.state.(view := m.View())), c);
  }

  /** The view change that a node sends if it proposes one. */
  ghost predicate Proposes(n: Node, c: ServiceCall)
    requires n.state.Sound()
  {
    && n.state.mode == Normal && c.Broadcast? && c.message.ViewChangeMessage?
    && c.message.view == n.state.view + 1 && c.message.seqNum == n.state.seqNum - 1 && c.message.signerId == n.state.id
    && OnlySeal(n.log.seals, n.state.seqNum - 1, c.message.seal)
  }

  ghost predicate OnProposal(n: Node, c: ServiceCall)
    requires n.state.Sound()
  {
    Proposes(n, c) || (ViewOnProposal(n).Some? && OnEntry(n, n.state.view + 1, c))
  }

  lemma MakesOnProposal(n: Node, env: Env, c: ServiceCall)
    requires n.state.Sound()
    ensures Makes(n, ProposeViewChange(n, env).node, c, OnProposal(n, c))
  {
    var n', found := ProposeViewChange(n, env).node, n.log.GetConsensusSeal(n.state.seqNum - 1);
    ProposesExactly(n, c);
    if n.state.mode == ViewChanging || found.Failure? {
      MakesThese(n, n', [], c);
    } else {
      var n1, w := WithOwnViewChange(n, found.value), OwnViewChange(n, found.value);
      MakesThese(n, n1, [Broadcast(w)], c);
      MakesOnHandler(n1, SelfMessage(w), env, c);
      MakesChain(n, n1, n', c, c == Broadcast(w), ViewOnProposal(n).Some? && OnEntry(n, n.state.view + 1, c));
    }
  }

  lemma ProposesExactly(n: Node, c: ServiceCall)
    requires n.state.Sound()
    ensures var found := n.log.GetConsensusSeal(n.state.seqNum - 1);
            Proposes(n, c) <==> n.state.mode == Normal && found.Success? && c == Broadcast(OwnViewChange(n, found.value))
  {
    var found := n.log.GetConsensusSeal(n.state.seqNum - 1);
    if c.Broadcast? && c.message.ViewChangeMessage? {
      FoundExactly(n.log, n.state.seqNum - 1, c.message.seal);
    }
  }

  /** The node that has the message too. */
  ghost function Having(n: Node, m: ParsedMessage): Node {
    n.(log := n.log.(messages := n.log.messages + {m}))
  }

  /** A node that joins goes through the next view if its own proposal completes that, and then
      enters the one named if that is complete; the block is dropped on the way. */
  ghost predicate OnJoining(n: Node, m: ParsedMessage, c: ServiceCall)
    requires n.state.Sound()
  {
    var found := n.log.GetConsensusSeal(n.state.seqNum - 1);
    || OnProposal(n, c)
    || (found.Success? && EnoughViewChanges(n.log.messages + {SelfMessage(OwnViewChange(n, found.value))}, m.SeqNum(), m.View(), n.state.f)
        && OnEntry(if ViewOnProposal(n).Some? then WithoutBlock(n) else n, m.View(), c))
  }

  ghost function WithoutBlock(n: Node): Node {
    n.(state := n.state.(workingBlock := None))
  }

  lemma MakesOnJoining(n: Node, m: ParsedMessage, env: Env, c: ServiceCall)
    requires n.state.Sound() && n.state.mode == Normal
    ensures var r := ProposeViewChange(n, env); Makes(n, if r.result.Err? then r.node else ViewChangeHandler(r.node, m, env), c, OnJoining(n, m, c))
  {
    var found := n.log.GetConsensusSeal(n.state.seqNum - 1);
    MakesOnProposal(n, env, c);
    if found.Success? {
      var n2 := ProposeViewChange(n, env).node;
      StateOnProposal(n, env);
      assert n2.log.messages == n.log.messages + {SelfMessage(OwnViewChange(n, found.value))};
      MakesOnHandler(n2, m, env, c);
      MakesChain(n, n2, ViewChangeHandler(n2, m, env), c, OnProposal(n, c),
                 EnoughViewChanges(n2.log.messages, m.SeqNum(), m.View(), n2.state.f) && OnEntry(n2, m.View(), c));
    }
  }

  ghost predicate OnMessage(n: Node, m: ParsedMessage, c: ServiceCall)
    requires n.state.Sound()
  {
    && m.Type() == ViewChange
    && if n.state.mode == Normal then Joins(n, m) && OnJoining(Having(n, m), m, c) else ViewOnMessage(n, m).Some? && OnEntry(n, m.View(), c)
  }

  lemma MakesOnPeerMessage(n: Node, m: ParsedMessage, env: Env, c: ServiceCall)
    requires n.state.Sound() && env.Valid() && Accounted(c)
    ensures Makes(n, OnPeerMessage(n, m, env).node, c, OnMessage(n, m, c))
  {
    match m.Type()
    case PrePrepare => MakesOnPrePrepare(n, m, env, c);
    case Prepare => MakesOnPrepare(n, m, env, c);
    case Commit => MakesOnCommit(n, m, env, c);
    case ViewChange =>
      if n.state.mode == ViewChanging {
        MakesOnHandler(n.(log := n.log.AddMessage(m, n.state.view)), m, env, c);
      } else if Joins(n, m) {
        assert n.log.AddMessage(m, n.state.view) == Having(n, m).log;
        MakesOnJoining(Having(n, m), m, env, c);
      } else {
        MakesThese(n, OnViewChange(n, m, env).node, [], c);
      }
    case _ => MakesThese(n, n, [], c);
  }

  // ---------- The end of a round ----------

  /** A new view after the round: forced, or for changed peers. */
  ghost predicate Rotates(n: Node, ev: Event, env: Env)
    requires n.state.Sound()
  {
    Forced(n) || !SameMembers(env.peersAt(CommittedBy(n, ev)), n.state.peerIds)
  }

  /** What is asked for at the end of a round, said of the node after it: as primary of a new view
      the calls on entering it, and as any primary without a block one on the committed block. */
  ghost predicate OnEnd(n': Node, rotates: bool, id: BlockId, c: ServiceCall)
    requires n'.state.Sound()
  {
    || (rotates && OnEntry(n', n'.state.view, c))
    || (n'.state.role == Primary && n'.state.workingBlock.None? && c == InitializeBlock(Some(id)))
  }

  lemma MakesOnBlockCommit(n: Node, id: BlockId, env: Env, c: ServiceCall)
    requires n.state.Sound() && env.Valid() && EndsRound(n, UpdateBlockCommit(id), env)
    ensures Makes(n, OnBlockCommit(n, id, env), c, OnEnd(OnBlockCommit(n, id, env), Rotates(n, UpdateBlockCommit(id), env), id, c))
  {
    var n1 := n.(state := NextBlock(n, env));
    var n2 := RotateIfDue(n1, id, env);
    MakesOnRotation(n1, id, env, c);
    MakesOnSettling(n2, id, env.now, c);
    MakesChain(n1, n2, Settle(n2, id, env.now), c, Rotates(n, UpdateBlockCommit(id), env) && OnEntry(n2, n2.state.view, c),
               n2.state.role == Primary && n2.state.workingBlock.None? && c == InitializeBlock(Some(id)));
  }

  lemma MakesOnRotation(n: Node, id: BlockId, env: Env, c: ServiceCall)
    requires n.state.Sound() && env.Valid()
    ensures var n' := RotateIfDue(n, id, env);
            Makes(n, n', c, (n.state.seqNum % n.state.forcedViewChangePeriod == 0 || !SameMembers(env.peersAt(id), n.state.peerIds)) && OnEntry(n', n'.state.view, c))
  {
    MembershipExactly(n.state, env.peersAt(id));
    if n.state.seqNum % n.state.forcedViewChangePeriod == 0 {
      MakesTakeRole(n.(state := n.state.(view := n.state.view + 1)), c);
    } else if MembershipChanged(n.state, env.peersAt(id)) {
      var s := UpdateMembership(n.state, env.peersAt(id));
      MakesTakeRole(n.(state := s.(view := s.view + 1)), c);
    }
  }

  lemma MakesOnSettling(n: Node, id: BlockId, now: int, c: ServiceCall)
    requires n.state.Sound()
    ensures Makes(n, Settle(n, id, now), c, n.state.role == Primary && n.state.workingBlock.None? && c == InitializeBlock(Some(id)))
  {
    MakesThese(n, Settle(n, id, now), if n.state.IsPrimary() && n.state.workingBlock.None? then [InitializeBlock(Some(id))] else [], c);
  }

  lemma MakesOnCatchup(n: Node, block: Block, env: Env, c: ServiceCall)
    requires n.state.Sound() && env.Valid() && SealOfCommits(block) && EndsRound(n, UpdateBlockNew(block), env) && Accounted(c)
    ensures var n' := OnBlockNew(n, block, env).node; Makes(n, n', c, OnEnd(n', Rotates(n, UpdateBlockNew(block), env), block.previousId, c))
  {
    var seal := block.payload.seal;
    WelcomeExactly(n, block, env);
    assert seal.votes[0] in seal.votes;
    var a := LogBlock(n, block, Some(seal));
    CatchupAllOrNothing(a, block, seal, env);
    MakesFromCatchup(n, block, AtCatchupCommit(a, seal), env, c);
  }

  lemma MakesFromCatchup(n: Node, block: Block, b: Node, env: Env, c: ServiceCall)
    requires n.state.Sound() && b.state.Sound() && env.Valid() && block.payload.Sealed? && |block.payload.seal.votes| > 0 && Accounted(c)
    requires EndsRound(b, UpdateBlockCommit(block.previousId), env) && b.state == n.state.(view := b.state.view, phase := Finished)
    requires b.calls == n.calls + [CommitBlock(block.previousId, b.state.view, n.state.seqNum)]
    ensures var n' := OnBlockCommit(b, block.previousId, env); Makes(n, n', c, OnEnd(n', Rotates(n, UpdateBlockNew(block), env), block.previousId, c))
  {
    var n' := OnBlockCommit(b, block.previousId, env);
    MakesThese(n, b, [CommitBlock(block.previousId, b.state.view, n.state.seqNum)], c);
    MakesOnBlockCommit(b, block.previousId, env, c);
    MakesChain(n, b, n', c, false, OnEnd(n', Rotates(n, UpdateBlockNew(block), env), block.previousId, c));
  }

  // ---------- Publishing ----------

  /** The step publishes: a primary that waits has a summary, and a seal unless it is block 1. */
  ghost predicate Publishes(n: Node, ev: Event)
    requires n.state.Sound()
  {
    && ev.TickWorking? && ev.summary.Some? && n.state.role == Primary && n.state.phase == PrePreparing
    && (n.state.seqNum == 1 || exists v: nat :: |SealSource(n, v)| >= 2 * n.state.f)
  }

  /** Block 1 has no payload; from block 2 on it is a seal with the summary, of exactly the Commits of
      others for the block before, in the highest view that has 2f of them. */
  ghost predicate PayloadIs(n: Node, summary: string, p: Payload)
    requires n.state.Sound()
  {
    if n.state.seqNum == 1 then p == Empty
    else p.Sealed? && p.seal.summary == summary && exists v: nat :: SealViewIs(n, v) && MadeFrom(p.seal, SealSource(n, v))
  }

  /** The calls from one node to the other: a block is published by the first of them if `when`, and
      by no other. */
  ghost predicate Finalizes(n: Node, n': Node, when: bool) {
    n.calls <= n'.calls && (when ==> |Made(n, n')| > 0) && forall i :: 0 <= i < |Made(n, n')| ==> (Made(n, n')[i].FinalizeBlock? <==> when && i == 0)
  }

  lemma PublishedBy(n: Node, summary: Option<string>, env: Env)
    requires n.state.Sound() && env.Valid()
    ensures var n', when := TryPublish(n, summary, env).node, Publishes(n, TickWorking(summary));
            && n' == n.(calls := n'.calls) && Finalizes(n, n', when)
            && (when ==> |Made(n, n')| == 1 && PayloadIs(n, summary.value, Made(n, n')[0].payload))
            && (!when ==> n' == n)
  {
    var n' := TryPublish(n, summary, env).node;
    if n.state.role == Primary && n.state.phase == PrePreparing && summary.Some? && n.state.seqNum >= 2 {
      BuiltSealHolds(n, summary.value, env);
    }
    if n'.calls != n.calls {
      assert Made(n, n') == [n'.calls[|n.calls|]];
    }
  }

  lemma FinalizesChain(a: Node, b: Node, d: Node, when: bool)
    requires Finalizes(a, b, when) && Finalizes(b, d, false)
    ensures Finalizes(a, d, when) && (when ==> Made(a, d)[0] == Made(a, b)[0])
  {
    assert Made(a, d) == Made(a, b) + Made(b, d);
  }

  lemma NoneFinalized(n: Node, n': Node)
    requires n.calls <= n'.calls && forall p :: Makes(n, n', FinalizeBlock(p), false)
    ensures Finalizes(n, n', false)
  {
    assert forall c :: c in Made(n, n') && c.FinalizeBlock? ==> Makes(n, n', FinalizeBlock(c.payload), false);
  }

  lemma ProposalFinalizesNone(n: Node, env: Env)
    requires n.state.Sound()
    ensures Finalizes(n, ProposeViewChange(n, env).node, false)
  {
    forall p ensures Makes(n, ProposeViewChange(n, env).node, FinalizeBlock(p), false) {
      MakesOnProposal(n, env, FinalizeBlock(p));
    }
    MakesOnProposal(n, env, InitializeBlock(None));
    NoneFinalized(n, ProposeViewChange(n, env).node);
  }

  lemma PublishedOnTick(n: Node, summary: Option<string>, env: Env)
    requires n.state.Sound() && env.Valid()
    ensures var n', when := WorkingTick(n, summary, env), Publishes(n, TickWorking(summary));
            Finalizes(n, n', when) && (when ==> PayloadIs(n, summary.value, Made(n, n')[0].payload))
  {
    var n1, when := TryPublish(n, summary, env).node, Publishes(n, TickWorking(summary));
    PublishedBy(n, summary, env);
    var n2 := n1.(state := n1.state.(timeout := n1.state.timeout.Checked(env.now)));
    assert Finalizes(n, n2, when) && Made(n, n2) == Made(n, n1);
    if n2.state.timeout.state == Expired {
      ProposalFinalizesNone(n2, env);
      FinalizesChain(n, n2, WorkingTick(n, summary, env), when);
    }
  }

  // ---------- Every step ----------

  /** The call that the step makes, among those accounted for except publications; of the node after
      the step only what its state is matters. */
  ghost predicate Expected(n: Node, ev: Event, env: Env, n': Node, c: ServiceCall)
    requires n.state.Sound() && n'.state.Sound()
  {
    match ev
    case UpdateBlockNew(block) =>
      if HasCause(n, ev, env) then c == FailBlock(block.blockId) || OnProposal(n, c)
      else if EndsRound(n, ev, env) then OnEnd(n', Rotates(n, ev, env), block.previousId, c)
      else SendsFirst(n, ev, env, c)
    case UpdateBlockValid(id) => SendsLast(n, id, c)
    case UpdateBlockCommit(id) => EndsRound(n, ev, env) && OnEnd(n', Rotates(n, ev, env), id, c)
    case UpdatePeerMessage(_, _, _) => MessageOf(n, ev).Some? && OnMessage(n, MessageOf(n, ev).value, c)
    case TickBacklog => MessageOf(n, ev).Some? && OnMessage(n, MessageOf(n, ev).value, c)
    case _ => HasCause(n, ev, env) && OnProposal(n, c)
  }

  /** The PrePrepare of a waiting primary for the block it is given. */
  ghost predicate SendsFirst(n: Node, ev: Event, env: Env, c: ServiceCall) {
    && TakesBlock(n, ev, env) && n.state.role == Primary && n.state.phase == PrePreparing
    && c == Broadcast(Message(PbftMessage(PrePrepare, n.state.view, n.state.seqNum, n.state.id, Described(ev.block))))
  }

  /** The Commit of a node that has prepared, for its working block when that is found valid. */
  ghost predicate SendsLast(n: Node, id: BlockId, c: ServiceCall) {
    && WorksOn(n, id) && n.state.phase in {Checking, Committing}
    && c == Broadcast(Message(PbftMessage(Commit, n.state.view, n.state.seqNum, n.state.id, n.state.workingBlock.value)))
  }

  lemma MakesOnAdoption(n: Node, block: Block, env: Env, c: ServiceCall)
    requires n.state.Sound() && env.Valid() && TakesBlock(n, UpdateBlockNew(block), env) && Accounted(c)
    ensures Makes(n, OnBlockNew(n, block, env).node, c, SendsFirst(n, UpdateBlockNew(block), env, c))
  {
    WelcomeExactly(n, block, env);
    var n' := OnBlockNew(n, block, env).node;
    var a := LogBlock(n, block, VerifyConsensusSeal(n, block, env).value);
    var n1 := a.(state := a.state.(workingBlock := Some(PbftBlockFromBlock(block))));
    if n.state.IsPrimary() && n.state.phase == PrePreparing {
      var w := OwnMessage(n1, PrePrepare, n.state.seqNum, PbftBlockFromBlock(block));
      MakesThese(n, n1.Call(Broadcast(w)), [Broadcast(w)], c);
      MakesOnPrePrepare(n1.Call(Broadcast(w)), SelfMessage(w), env, c);
      MakesChain(n, n1.Call(Broadcast(w)), n', c, c == Broadcast(w), false);
    } else {
      MakesThese(n, n', [], c);
    }
  }

  lemma MakesOnFailing(n: Node, block: Block, env: Env, c: ServiceCall)
    requires n.state.Sound() && env.Valid() && HasCause(n, UpdateBlockNew(block), env)
    ensures Makes(n, OnBlockNew(n, block, env).node, c, c == FailBlock(block.blockId) || OnProposal(n, c))
  {
    WelcomeExactly(n, block, env);
    var n1 := n.Call(FailBlock(block.blockId));
    MakesThese(n, n1, [FailBlock(block.blockId)], c);
    MakesOnProposal(n1, env, c);
    SameProposal(n, n1, c);
    MakesChain(n, n1, ProposeViewChange(n1, env).node, c, c == FailBlock(block.blockId), OnProposal(n, c));
  }

  lemma MakesOnBlockNew(n: Node, block: Block, env: Env, c: ServiceCall)
    requires n.state.Sound() && env.Valid() && SealOfCommits(block) && Accounted(c)
    ensures Makes(n, OnBlockNew(n, block, env).node, c, Expected(n, UpdateBlockNew(block), env, OnBlockNew(n, block, env).node, c))
  {
    if HasCause(n, UpdateBlockNew(block), env) {
      MakesOnFailing(n, block, env, c);
    } else if EndsRound(n, UpdateBlockNew(block), env) {
      MakesOnCatchup(n, block, env, c);
    } else if TakesBlock(n, UpdateBlockNew(block), env) {
      MakesOnAdoption(n, block, env, c);
    } else {
      NothingOnLateBlock(n, block, env);
      MakesThese(n, OnBlockNew(n, block, env).node, [], c);
    }
  }

  lemma NothingOnLateBlock(n: Node, block: Block, env: Env)
    requires n.state.Sound() && env.Valid() && SealOfCommits(block)
    requires !HasCause(n, UpdateBlockNew(block), env) && !EndsRound(n, UpdateBlockNew(block), env) && !TakesBlock(n, UpdateBlockNew(block), env)
    ensures OnBlockNew(n, block, env).node.calls == n.calls
  {
    if block.blockNum > n.state.seqNum {
      WelcomeExactly(n, block, env);
      if block.blockNum == n.state.seqNum + 1 && n.state.phase != Finished {
        VerifiedSealHasVotes(n, block, env);
        assert block.payload.seal.votes[0] in block.payload.seal.votes;
        CatchupAllOrNothing(LogBlock(n, block, Some(block.payload.seal)), block, block.payload.seal, env);
      }
    }
  }

  lemma MakesOnBlockValid(n: Node, id: BlockId, env: Env, c: ServiceCall)
    requires n.state.Sound() && env.Valid() && Accounted(c)
    ensures Makes(n, OnBlockValid(n, id, env).node, c, SendsLast(n, id, c))
  {
    var n' := OnBlockValid(n, id, env).node;
    ValidBlockSends(n, id, env);
    if WorksOn(n, id) && n.state.phase in {Checking, Committing} {
      var n1, w := WithOwnCommit(n), OwnMessage(n, Commit, n.state.seqNum, n.state.workingBlock.value);
      MakesThese(n, n1, [Broadcast(w)], c);
      MakesOnCommit(n1, SelfMessage(w), env, c);
      MakesChain(n, n1, n', c, c == Broadcast(w), false);
    } else {
      MakesThese(n, n', [], c);
    }
  }

  lemma MakesOnTick(n: Node, summary: Option<string>, env: Env, c: ServiceCall)
    requires n.state.Sound() && env.Valid() && !c.FinalizeBlock?
    ensures Makes(n, WorkingTick(n, summary, env), c, HasCause(n, TickWorking(summary), env) && OnProposal(n, c))
  {
    var n1 := TryPublish(n, summary, env).node;
    PublishingMakesNoOther(n, summary, env, c);
    var n2 := n1.(state := n1.state.(timeout := n1.state.timeout.Checked(env.now)));
    assert Makes(n, n2, c, false) by {
      assert Made(n, n2) == Made(n, n1);
    }
    if HasCause(n, TickWorking(summary), env) {
      MakesAfterTimeout(n, n2, env, c);
    }
  }

  lemma PublishingMakesNoOther(n: Node, summary: Option<string>, env: Env, c: ServiceCall)
    requires n.state.Sound() && env.Valid() && !c.FinalizeBlock?
    ensures var n1 := TryPublish(n, summary, env).node; n1 == n.(calls := n1.calls) && Makes(n, n1, c, false)
  {
    PublishedBy(n, summary, env);
    var n1 := TryPublish(n, summary, env).node;
    MakesThese(n, n1, n1.calls[|n.calls|..], c);
  }

  lemma MakesAfterTimeout(n: Node, n2: Node, env: Env, c: ServiceCall)
    requires n.state.Sound() && n2.state == n.state.(timeout := n2.state.timeout) && n2.log == n.log && Makes(n, n2, c, false)
    ensures Makes(n, ProposeViewChange(n2, env).node, c, OnProposal(n, c))
  {
    SameProposal(n, n2, c);
    MakesOnProposal(n2, env, c);
    MakesChain(n, n2, ProposeViewChange(n2, env).node, c, false, OnProposal(n, c));
  }

  /** Timer and calls do not decide what a proposal asks for. */
  lemma SameProposal(n: Node, n1: Node, c: ServiceCall)
    requires n.state.Sound() && n1.state == n.state.(timeout := n1.state.timeout) && n1.log == n.log
    ensures OnProposal(n1, c) <==> OnProposal(n, c)
  {
  }

  lemma MakesOnDelivery(n: Node, ev: Event, env: Env, c: ServiceCall)
    requires n.state.Sound() && env.Valid() && Accounted(c) && (ev.UpdatePeerMessage? || ev.TickBacklog?)
    ensures Makes(n, Step(n, ev, env), c, MessageOf(n, ev).Some? && OnMessage(n, MessageOf(n, ev).value, c))
  {
    var m := MessageOf(n, ev);
    if m.Some? {
      var n1 := if ev.TickBacklog? then n.(log := n.log.(backlog := n.log.backlog[1..])) else n;
      MakesOnPeerMessage(n1, m.value, env, c);
      assert Step(n, ev, env) == OnPeerMessage(n1, m.value, env).node;
      QueueAsksNothing(n, n1, m.value, c);
    } else {
      MakesThese(n, Step(n, ev, env), [], c);
    }
  }

  lemma QueueAsksNothing(n: Node, n1: Node, m: ParsedMessage, c: ServiceCall)
    requires n.state.Sound() && n1 == n.(log := n.log.(backlog := n1.log.backlog))
    ensures OnMessage(n1, m, c) <==> OnMessage(n, m, c)
  {
    QueueDecidesNothing(n, n1, m);
    if n.state.mode == Normal {
      QueueOnJoining(Having(n, m), Having(n1, m), m, c);
    }
  }

  lemma QueueOnJoining(n: Node, n1: Node, m: ParsedMessage, c: ServiceCall)
    requires n.state.Sound() && n1 == n.(log := n.log.(backlog := n1.log.backlog))
    ensures OnJoining(n1, m, c) <==> OnJoining(n, m, c)
  {
    assert n1.log.SealsAt(n.state.seqNum - 1) == n.log.SealsAt(n.state.seqNum - 1);
  }

  /** Every step makes exactly the calls that its causes give. */
  lemma CallsOfStep(n: Node, ev: Event, env: Env, c: ServiceCall)
    requires n.state.Sound() && env.Valid() && WellSealed(ev) && Accounted(c) && !c.FinalizeBlock?
    ensures Makes(n, Step(n, ev, env), c, Expected(n, ev, env, Step(n, ev, env), c))
  {
    match ev
    case UpdateBlockNew(block) => MakesOnBlockNew(n, block, env, c);
    case UpdateBlockValid(id) => MakesOnBlockValid(n, id, env, c);
    case UpdateBlockInvalid(id) => MakesOnProposal(n, env, c);
    case UpdateBlockCommit(id) =>
      if EndsRound(n, ev, env) {
        MakesOnBlockCommit(n, id, env, c);
      } else {
        MakesThese(n, Step(n, ev, env), [], c);
      }
    case UpdatePeerMessage(_, _, _) => MakesOnDelivery(n, ev, env, c);
    case UpdateOther => MakesThese(n, n, [], c);
    case TickWorking(summary) => MakesOnTick(n, summary, env, c);
    case TickBacklog => MakesOnDelivery(n, ev, env, c);
  }

  // ---------- Call by call ----------

  /** A block is failed exactly if it is new, not older than the round, and not welcome. */
  lemma BlocksFailed(n: Node, ev: Event, env: Env, id: BlockId)
    requires n.state.Sound() && env.Valid() && WellSealed(ev)
    ensures Makes(n, Step(n, ev, env), FailBlock(id), ev.UpdateBlockNew? && ev.block.blockId == id && HasCause(n, ev, env))
  {
    CallsOfStep(n, ev, env, FailBlock(id));
  }

  /** A view change is sent exactly if there is cause, the node is in Normal mode, and exactly one seal
      is stored for the round before; it carries that seal. */
  lemma ViewChangesSent(n: Node, ev: Event, env: Env, w: Wrapper)
    requires n.state.Sound() && env.Valid() && WellSealed(ev) && w.ViewChangeMessage?
    ensures Makes(n, Step(n, ev, env), Broadcast(w), HasCause(n, ev, env) && Proposes(n, Broadcast(w)))
  {
    CallsOfStep(n, ev, env, Broadcast(w));
    var m := MessageOf(n, ev);
    if m.Some? {
      assert Proposes(Having(n, m.value), Broadcast(w)) <==> Proposes(n, Broadcast(w));
    }
  }

  /** A block on a committed one is begun exactly if the step ends the round of that one and leaves
      the node a primary without a working block. */
  lemma BlocksBegun(n: Node, ev: Event, env: Env, id: BlockId)
    requires n.state.Sound() && env.Valid() && WellSealed(ev)
    ensures var n' := Step(n, ev, env);
            Makes(n, n', InitializeBlock(Some(id)), EndsRound(n, ev, env) && CommittedBy(n, ev) == id && n'.state.role == Primary && n'.state.workingBlock.None?)
  {
    CallsOfStep(n, ev, env, InitializeBlock(Some(id)));
  }

  /** The next view, if a node that joins a view change completes it by its own proposal. */
  ghost function PassedView(n: Node, ev: Event): Option<nat>
    requires n.state.Sound()
  {
    var m := MessageOf(n, ev);
    if m.Some? && m.value.Type() == ViewChange && n.state.mode == Normal && Joins(n, m.value) then ViewOnProposal(Having(n, m.value)) else None
  }

  /** A new primary ignores its block and begins another, with no predecessor named: exactly on
      entering a view that it leads, by rotation after a round or by a view change. */
  lemma LeadershipTaken(n: Node, ev: Event, env: Env, c: ServiceCall)
    requires n.state.Sound() && env.Valid() && WellSealed(ev) && (c == InitializeBlock(None) || c.IgnoreBlock?)
    ensures Makes(n, Step(n, ev, env), c,
                  if EndsRound(n, ev, env) then Rotates(n, ev, env) && OnEntry(Step(n, ev, env), Step(n, ev, env).state.view, c)
                  else EntersLeading(n, PassedView(n, ev), ViewEntered(n, ev, env), c))
  {
    CallsOfStep(n, ev, env, c);
    LeadershipExpected(n, ev, env, Step(n, ev, env), c);
  }

  /** On the way through one view to another, or into one only. */
  ghost predicate EntersLeading(n: Node, passed: Option<nat>, entered: Option<nat>, c: ServiceCall)
    requires n.state.Sound()
  {
    || (passed.Some? && OnEntry(n, passed.value, c))
    || (entered.Some? && OnEntry(if passed.Some? then WithoutBlock(n) else n, entered.value, c))
  }

  lemma LeadershipExpected(n: Node, ev: Event, env: Env, n': Node, c: ServiceCall)
    requires n.state.Sound() && n'.state.Sound() && (c == InitializeBlock(None) || c.IgnoreBlock?)
    ensures Expected(n, ev, env, n', c) <==>
            if EndsRound(n, ev, env) then Rotates(n, ev, env) && OnEntry(n', n'.state.view, c) else EntersLeading(n, PassedView(n, ev), ViewEntered(n, ev, env), c)
  {
    var m := MessageOf(n, ev);
    if m.Some? && m.value.Type() == ViewChange {
      LeadershipOnMessage(n, m.value, c);
    }
  }

  lemma LeadershipOnMessage(n: Node, m: ParsedMessage, c: ServiceCall)
    requires n.state.Sound() && (c == InitializeBlock(None) || c.IgnoreBlock?) && m.Type() == ViewChange
    ensures OnMessage(n, m, c) <==> EntersLeading(n, if n.state.mode == Normal && Joins(n, m) then ViewOnProposal(Having(n, m)) else None, ViewOnMessage(n, m), c)
  {
    if n.state.mode == Normal {
      LeadershipOnJoining(n, m, c);
    }
  }

  lemma LeadershipOnJoining(n: Node, m: ParsedMessage, c: ServiceCall)
    requires n.state.Sound() && n.state.mode == Normal && (c == InitializeBlock(None) || c.IgnoreBlock?)
    ensures Joins(n, m) && OnJoining(Having(n, m), m, c)
            <==> EntersLeading(n, if Joins(n, m) then ViewOnProposal(Having(n, m)) else None, ViewOnMessage(n, m), c)
  {
    var n1 := Having(n, m);
    assert n1.log.SealsAt(n.state.seqNum - 1) == n.log.SealsAt(n.state.seqNum - 1);
  }

  /** A PrePrepare is sent exactly for a welcome block of the round, by a primary that waits. */
  lemma PrePreparesSent(n: Node, ev: Event, env: Env, p: PbftMessage)
    requires n.state.Sound() && env.Valid() && WellSealed(ev) && p.msgType == PrePrepare
    ensures Makes(n, Step(n, ev, env), Broadcast(Message(p)), SendsFirst(n, ev, env, Broadcast(Message(p))))
  {
    CallsOfStep(n, ev, env, Broadcast(Message(p)));
  }

  /** A Commit is sent exactly for the working block, found valid, by a node that has prepared. */
  lemma CommitsSent(n: Node, ev: Event, env: Env, p: PbftMessage)
    requires n.state.Sound() && env.Valid() && WellSealed(ev) && p.msgType == Commit
    ensures Makes(n, Step(n, ev, env), Broadcast(Message(p)), ev.UpdateBlockValid? && SendsLast(n, ev.validId, Broadcast(Message(p))))
  {
    CallsOfStep(n, ev, env, Broadcast(Message(p)));
  }

  /** A step publishes at most one block, and exactly if a waiting primary has what it takes. */
  lemma PublishedOfStep(n: Node, ev: Event, env: Env)
    requires n.state.Sound() && env.Valid() && WellSealed(ev)
    ensures var n' := Step(n, ev, env);
            Finalizes(n, n', Publishes(n, ev)) && (Publishes(n, ev) ==> PayloadIs(n, ev.summary.value, Made(n, n')[0].payload))
  {
    if ev.TickWorking? {
      PublishedOnTick(n, ev.summary, env);
    } else {
      NoPublishingOtherwise(n, ev, env);
    }
  }

  lemma NoPublishingOtherwise(n: Node, ev: Event, env: Env)
    requires n.state.Sound() && env.Valid() && WellSealed(ev) && !ev.TickWorking?
    ensures Finalizes(n, Step(n, ev, env), false)
  {
    EffectOfStep(n, ev, env);
    forall p ensures Makes(n, Step(n, ev, env), FinalizeBlock(p), false) {
      NotPublished(n, ev, env, FinalizeBlock(p));
    }
    NoneFinalized(n, Step(n, ev, env));
  }

  lemma NotPublished(n: Node, ev: Event, env: Env, c: ServiceCall)
    requires n.state.Sound() && env.Valid() && WellSealed(ev) && !ev.TickWorking? && c.FinalizeBlock?
    ensures Makes(n, Step(n, ev, env), c, false)
  {
    match ev
    case UpdateBlockNew(block) => MakesOnBlockNew(n, block, env, c);
    case UpdateBlockValid(id) => MakesOnBlockValid(n, id, env, c);
    case UpdateBlockInvalid(id) => MakesOnProposal(n, env, c);
    case UpdateBlockCommit(id) =>
      if EndsRound(n, ev, env) {
        MakesOnBlockCommit(n, id, env, c);
      } else {
        MakesThese(n, Step(n, ev, env), [], c);
      }
    case UpdatePeerMessage(_, _, _) => MakesOnDelivery(n, ev, env, c);
    case UpdateOther => MakesThese(n, n, [], c);
    case TickBacklog => MakesOnDelivery(n, ev, env, c);
  }
}
