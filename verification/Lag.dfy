/** Lagging nodes: a node can enter a round, a sequence number and view, whose PrePrepare it has
    logged before, and then waits in PrePreparing for one it already has. This says exactly
    which steps bring that about and which end it. */
module Lag {
  import opened Types
  import opened Timing
  import opened State
  import opened MessageLog
  import opened Protocol
  import opened Ledger
  import opened Ladder
  import opened Provenance
  import opened Commits
  import opened Views
  import opened Runs

  ghost predicate PrePreparedAt(msgs: set<ParsedMessage>, s: nat, v: nat) {
    exists m :: m in msgs && m.At(PrePrepare, s, v)
  }

  /** The node waits for a PrePrepare that is in its log. */
  ghost predicate Lags(n: Node) {
    n.state.phase == PrePreparing && PrePreparedAt(n.log.messages, n.state.seqNum, n.state.view)
  }

  // ---------- The round a step enters ----------

  datatype Round = Round(seqNum: nat, view: nat)

  ghost predicate EnoughViewChanges(msgs: set<ParsedMessage>, s: nat, v: nat, f: nat) {
    |OfTypeSeqView(msgs, ViewChange, s, v)| >= 2 * f + 1
  }

  /** The view that the node enters at once if it proposes to change views. */
  ghost function ViewOnProposal(n: Node): Option<nat>
    requires n.state.Sound()
  {
    var found := n.log.GetConsensusSeal(n.state.seqNum - 1);
    if n.state.mode == ViewChanging || found.Failure? then None
    else if EnoughViewChanges(n.log.messages + {SelfMessage(OwnViewChange(n, found.value))}, n.state.seqNum - 1, n.state.view + 1, n.state.f)
    then Some(n.state.view + 1) else None
  }

  /** The view that the node enters on a view change: the one named if its own proposal or that
      message completes it, or else the next one if its own proposal completes that. */
  ghost function ViewOnMessage(n: Node, m: ParsedMessage): Option<nat>
    requires n.state.Sound()
  {
    var msgs, found := n.log.messages + {m}, n.log.GetConsensusSeal(n.state.seqNum - 1);
    if n.state.mode == ViewChanging then
      if EnoughViewChanges(msgs, m.SeqNum(), m.View(), n.state.f) then Some(m.View()) else None
    else if |OfTypeSeqView(msgs, ViewChange, m.SeqNum(), m.View())| < n.state.f + 1 || m.View() <= n.state.view || found.Failure? then None
    else if EnoughViewChanges(msgs + {SelfMessage(OwnViewChange(n, found.value))}, m.SeqNum(), m.View(), n.state.f) then Some(m.View())
    else ViewOnProposal(n.(log := n.log.(messages := msgs)))
  }

  ghost function InRound(n: Node, v: Option<nat>): Option<Round> {
    if v.Some? then Some(Round(n.state.seqNum, v.value)) else None
  }

  /** The round after the current one, reached by committing `id` in view `v`. */
  ghost function NextRound(n: Node, id: BlockId, v: nat, env: Env): Round
    requires n.state.Sound()
  {
    Round(n.state.seqNum + 1, if RotationDue(n, id, env) then v + 1 else v)
  }

  /** The round that the step enters: the next one by a commit or a catch-up, or the current
      number again, in any view, by a view change. */
  ghost function RoundEntered(n: Node, ev: Event, env: Env): Option<Round>
    requires n.state.Sound() && env.Valid()
  {
    match ev
    case UpdateBlockNew(block) =>
      if CatchesUpOn(n, block, env) then Some(NextRound(n, block.previousId, SealView(n, block.payload.seal), env))
      else if block.blockNum >= n.state.seqNum && VerifyConsensusSeal(n, block, env).Failure? then InRound(n, ViewOnProposal(n))
      else None
    case UpdateBlockInvalid(_) => InRound(n, ViewOnProposal(n))
    case UpdateBlockCommit(id) =>
      if n.state.phase == Finished && IsWorkingBlock(n, id) then Some(NextRound(n, id, n.state.view, env)) else None
    case TickWorking(_) => if n.state.timeout.Checked(env.now).state == Expired then InRound(n, ViewOnProposal(n)) else None
    case _ =>
      var m := MessageOf(n, ev);
      if m.Some? && m.value.Type() == ViewChange then InRound(n, ViewOnMessage(n, m.value)) else None
  }

  /** The step takes a PrePrepare for the current round: one delivered, or the node's own for a
      block it is to propose. */
  ghost predicate TakesPrePrepare(n: Node, ev: Event, env: Env)
    requires n.state.Sound() && env.Valid()
  {
    var m := MessageOf(n, ev);
    || (m.Some? && m.value.SeqNum() == n.state.seqNum && Acceptable(n, m.value))
    || (ev.UpdateBlockNew? && TakesOwn(n, ev.block, env))
  }

  ghost predicate TakesOwn(n: Node, block: Block, env: Env)
    requires n.state.Sound() && env.Valid()
  {
    && block.blockNum == n.state.seqNum && VerifyConsensusSeal(n, block, env).Success?
    && n.state.IsPrimary() && n.state.phase == PrePreparing && n.state.id == n.state.PrimaryId()
    && forall k :: k in n.log.messages && k.At(PrePrepare, n.state.seqNum, n.state.view) ==> k.Block() == PbftBlockFromBlock(block)
  }

  // ---------- Handler by handler ----------

  /** The node is in the round `r`, at its beginning, and lags if its PrePrepare was logged. */
  ghost predicate Enters(n: Node, r: Round, n': Node) {
    && n'.state.seqNum == r.seqNum && n'.state.view == r.view && n'.state.phase == PrePreparing
    && (Lags(n') <==> PrePreparedAt(n.log.messages, r.seqNum, r.view))
  }

  /** The node is in the same round, and lags if it did, unless a PrePrepare was `taken`. */
  ghost predicate Stays(n: Node, taken: bool, n': Node) {
    && n'.state.seqNum == n.state.seqNum && n'.state.view == n.state.view
    && (Lags(n') <==> Lags(n) && !taken)
  }

  ghost predicate EntersOrStays(n: Node, r: Option<Round>, taken: bool, n': Node) {
    if r.Some? then Enters(n, r.value, n') else Stays(n, taken, n')
  }

  /** The same PrePrepares are logged. */
  ghost predicate SamePrePrepares(n: Node, n': Node) {
    forall m: ParsedMessage :: m.Type() == PrePrepare ==> (m in n'.log.messages <==> m in n.log.messages)
  }

  lemma LagOnPrepare(n: Node, m: ParsedMessage, env: Env)
    requires n.state.Sound() && env.Valid() && m.Type() == Prepare
    ensures Stays(n, false, OnPrepare(n, m, env).node) && SamePrePrepares(n, OnPrepare(n, m, env).node)
    ensures n.state.phase != PrePreparing ==> OnPrepare(n, m, env).node.state.phase != PrePreparing
  {
  }

  lemma LagOnCommit(n: Node, m: ParsedMessage, env: Env)
    requires n.state.Sound() && env.Valid() && m.Type() == Commit
    ensures Stays(n, false, OnCommit(n, m, env).node)
  {
  }

  lemma LagOnPrePrepare(n: Node, m: ParsedMessage, env: Env)
    requires n.state.Sound() && env.Valid() && m.Type() == PrePrepare && PrePreparesAgree(n.log.messages)
    ensures Stays(n, m.SeqNum() == n.state.seqNum && Acceptable(n, m), OnPrePrepare(n, m, env).node)
  {
    AcceptedExactlyIfAcceptable(n, m, env);
    if Acceptable(n, m) {
      var n1 := WithPrePrepare(n, m, env.now);
      var w := OwnMessage(n1, Prepare, m.SeqNum(), m.Block());
      LagOnPrepare(n1.Call(Broadcast(w)), SelfMessage(w), env);
      assert m.SeqNum() != n.state.seqNum ==> Stays(n, false, n1);
    }
  }

  lemma LagOnHandler(n: Node, m: ParsedMessage, env: Env)
    requires n.state.Sound()
    ensures var n' := ViewChangeHandler(n, m, env);
            if EnoughViewChanges(n.log.messages, m.SeqNum(), m.View(), n.state.f) then
              Enters(n, Round(n.state.seqNum, m.View()), n') && n'.log == n.log && n'.state.f == n.state.f
            else n' == n
  {
  }

  lemma LagOnPropose(n: Node, env: Env)
    requires n.state.Sound()
    ensures var n' := ProposeViewChange(n, env).node;
            && EntersOrStays(n, InRound(n, ViewOnProposal(n)), false, n') && SamePrePrepares(n, n')
            && n'.state.f == n.state.f && n'.state.seqNum == n.state.seqNum
  {
    var found := n.log.GetConsensusSeal(n.state.seqNum - 1);
    if n.state.mode == Normal && found.Success? {
      LagOnHandler(WithOwnViewChange(n, found.value), SelfMessage(OwnViewChange(n, found.value)), env);
    }
  }

  lemma LagOnViewChange(n: Node, m: ParsedMessage, env: Env)
    requires n.state.Sound() && m.Type() == ViewChange
    ensures EntersOrStays(n, InRound(n, ViewOnMessage(n, m)), false, OnViewChange(n, m, env).node)
  {
    var n1 := n.(log := n.log.AddMessage(m, n.state.view));
    assert SamePrePrepares(n, n1) && n1.log.messages == n.log.messages + {m};
    if n.state.mode == ViewChanging {
      LagOnHandler(n1, m, env);
    } else if |OfTypeSeqView(n1.log.messages, ViewChange, m.SeqNum(), m.View())| >= n.state.f + 1 && m.View() > n.state.view {
      assert n1.log.SealsAt(n.state.seqNum - 1) == n.log.SealsAt(n.state.seqNum - 1);
      LagOnJoining(n1, m, env);
      LagFrom(n, n1, InRound(n, ViewOnMessage(n, m)), OnViewChange(n, m, env).node);
    }
  }

  lemma LagFrom(n: Node, n1: Node, r: Option<Round>, n': Node)
    requires SamePrePrepares(n, n1) && n1.state == n.state && EntersOrStays(n1, r, false, n')
    ensures EntersOrStays(n, r, false, n')
  {
  }

  /** The node proposes, and then counts the view change that made it do so. */
  lemma LagOnJoining(n: Node, m: ParsedMessage, env: Env)
    requires n.state.Sound() && n.state.mode == Normal
    ensures var r, found := ProposeViewChange(n, env), n.log.GetConsensusSeal(n.state.seqNum - 1);
            && (found.Failure? ==> r.result.Err? && Stays(n, false, r.node))
            && (found.Success? ==>
                  r.result.Ok? && EntersOrStays(n, InRound(n, if EnoughViewChanges(n.log.messages + {SelfMessage(OwnViewChange(n, found.value))}, m.SeqNum(), m.View(), n.state.f)
                                                              then Some(m.View()) else ViewOnProposal(n)), false, ViewChangeHandler(r.node, m, env)))
  {
    LagOnPropose(n, env);
    LagOnHandler(ProposeViewChange(n, env).node, m, env);
  }

  lemma LagOnPeerMessage(n: Node, m: ParsedMessage, env: Env)
    requires n.state.Sound() && env.Valid() && PrePreparesAgree(n.log.messages)
    ensures EntersOrStays(n, if m.Type() == ViewChange then InRound(n, ViewOnMessage(n, m)) else None,
                          m.SeqNum() == n.state.seqNum && Acceptable(n, m), OnPeerMessage(n, m, env).node)
  {
    match m.Type()
    case PrePrepare => LagOnPrePrepare(n, m, env);
    case Prepare => LagOnPrepare(n, m, env);
    case Commit => LagOnCommit(n, m, env);
    case ViewChange => LagOnViewChange(n, m, env);
    case _ =>
  }

  lemma LagOnBlockCommit(n: Node, id: BlockId, env: Env)
    requires n.state.Sound() && env.Valid() && n.state.phase == Finished && IsWorkingBlock(n, id)
    ensures Enters(n, NextRound(n, id, n.state.view, env), OnBlockCommit(n, id, env))
  {
    var n' := OnBlockCommit(n, id, env);
    AdvanceOnBlockCommit(n, id, env);
    ViewOnBlockCommit(n, id, env);
    assert n'.log == n.log.GarbageCollect(n.state.seqNum + 1, id);
  }

  lemma LagOnCatchup(n: Node, block: Block, env: Env)
    requires n.state.Sound() && env.Valid() && SealOfCommits(block) && CatchesUpOn(n, block, env)
    ensures Enters(n, NextRound(n, block.previousId, SealView(n, block.payload.seal), env), OnBlockNew(n, block, env).node)
  {
    var seal := block.payload.seal;
    VerifiedSealHasVotes(n, block, env);
    assert seal.votes[0] in seal.votes;
    var a := LogBlock(n, block, Some(seal));
    CatchupAllOrNothing(a, block, seal, env);
    SealAddsNoPrePrepare(a, block, seal);
    LagAtCatchup(n, AtCatchupCommit(a, seal), block.previousId, env);
  }

  lemma LagAtCatchup(n: Node, c: Node, id: BlockId, env: Env)
    requires n.state.Sound() && c.state.Sound() && env.Valid() && c.state.phase == Finished && IsWorkingBlock(c, id) && SamePrePrepares(n, c)
    requires c.state == n.state.(view := c.state.view, phase := Finished)
    ensures Enters(n, NextRound(n, id, c.state.view, env), OnBlockCommit(c, id, env))
  {
    LagOnBlockCommit(c, id, env);
    EntersFrom(n, c, NextRound(n, id, c.state.view, env), OnBlockCommit(c, id, env));
  }

  lemma EntersFrom(n: Node, a: Node, r: Round, n': Node)
    requires SamePrePrepares(n, a) && Enters(a, r, n')
    ensures Enters(n, r, n')
  {
  }

  lemma SealAddsNoPrePrepare(n: Node, block: Block, seal: Seal)
    requires |seal.votes| > 0 && block.payload == Sealed(seal) && SealOfCommits(block)
    ensures SamePrePrepares(n, AtCatchupCommit(n, seal))
  {
    AddMessagesAddsSome(n.log, SealMessages(seal), SealView(n, seal));
    forall m | m in SealMessages(seal) ensures m.Type() != PrePrepare {
      SealMessagesAre(block, seal, m);
    }
  }

  lemma LagOnAdoption(n: Node, block: Block, env: Env)
    requires n.state.Sound() && env.Valid() && PrePreparesAgree(n.log.messages) && block.blockNum == n.state.seqNum
    requires VerifyConsensusSeal(n, block, env).Success?
    ensures Stays(n, TakesOwn(n, block, env), OnBlockNew(n, block, env).node)
  {
    var a := LogBlock(n, block, VerifyConsensusSeal(n, block, env).value);
    var pbftBlock := PbftBlockFromBlock(block);
    var n1 := a.(state := a.state.(workingBlock := Some(pbftBlock)));
    assert SamePrePrepares(n, n1) && BlockNewMessage(n, block) in n1.log.messages;
    if n.state.IsPrimary() && n.state.phase == PrePreparing {
      var w := OwnMessage(n1, PrePrepare, n.state.seqNum, pbftBlock);
      LagOnPrePrepare(n1.Call(Broadcast(w)), SelfMessage(w), env);
    }
  }

  lemma LagOnBlockNew(n: Node, block: Block, env: Env)
    requires n.state.Sound() && env.Valid() && PrePreparesAgree(n.log.messages) && SealOfCommits(block)
    ensures EntersOrStays(n, RoundEntered(n, UpdateBlockNew(block), env), TakesOwn(n, block, env), OnBlockNew(n, block, env).node)
  {
    if block.blockNum >= n.state.seqNum {
      if VerifyConsensusSeal(n, block, env).Failure? {
        LagOnPropose(n.Call(FailBlock(block.blockId)), env);
      } else if CatchesUpOn(n, block, env) {
        LagOnCatchup(n, block, env);
      } else if block.blockNum == n.state.seqNum {
        LagOnAdoption(n, block, env);
      } else {
        LateBlockWithoutCatchup(n, block, env);
      }
    }
  }

  lemma LateBlockWithoutCatchup(n: Node, block: Block, env: Env)
    requires n.state.Sound() && env.Valid() && SealOfCommits(block) && VerifyConsensusSeal(n, block, env).Success?
    requires block.blockNum > n.state.seqNum && !CatchesUpOn(n, block, env)
    ensures Stays(n, false, OnBlockNew(n, block, env).node)
  {
    var a := LogBlock(n, block, VerifyConsensusSeal(n, block, env).value);
    assert SamePrePrepares(n, a);
    if block.blockNum == n.state.seqNum + 1 && n.state.phase != Finished {
      VerifiedSealHasVotes(n, block, env);
      var seal := block.payload.seal;
      assert seal.votes[0] in seal.votes;
      CatchupAllOrNothing(a, block, seal, env);
    }
  }

  lemma LagOnBlockValid(n: Node, id: BlockId, env: Env)
    requires n.state.Sound() && env.Valid()
    ensures Stays(n, false, OnBlockValid(n, id, env).node)
  {
    ValidBlockSends(n, id, env);
    if n.state.workingBlock.Some? {
      LagOnCommit(WithOwnCommit(n), SelfMessage(OwnMessage(n, Commit, n.state.seqNum, n.state.workingBlock.value)), env);
    }
  }

  lemma LagOnWorkingTick(n: Node, summary: Option<string>, env: Env)
    requires n.state.Sound() && env.Valid()
    ensures EntersOrStays(n, RoundEntered(n, TickWorking(summary), env), false, WorkingTick(n, summary, env))
  {
    IdleTryPublish(n, summary, env);
    var n1 := TryPublish(n, summary, env).node;
    assert n1.log == n.log;
    var n2 := n1.(state := n1.state.(timeout := n1.state.timeout.Checked(env.now)));
    assert ViewOnProposal(n2) == ViewOnProposal(n);
    if n2.state.timeout.state == Expired {
      LagOnPropose(n2, env);
    }
  }

  lemma LagOnMessage(n: Node, ev: Event, env: Env)
    requires n.state.Sound() && env.Valid() && PrePreparesAgree(n.log.messages) && (ev.UpdatePeerMessage? || ev.TickBacklog?)
    ensures EntersOrStays(n, RoundEntered(n, ev, env), TakesPrePrepare(n, ev, env), Step(n, ev, env))
  {
    var m := MessageOf(n, ev);
    if m.Some? {
      var n1 := if ev.TickBacklog? then n.(log := n.log.(backlog := n.log.backlog[1..])) else n;
      LagOnPeerMessage(n1, m.value, env);
      QueueDecidesNothing(n, n1, m.value);
      assert Step(n, ev, env) == OnPeerMessage(n1, m.value, env).node;
    }
  }

  lemma QueueDecidesNothing(n: Node, n1: Node, m: ParsedMessage)
    requires n.state.Sound() && n1 == n.(log := n.log.(backlog := n1.log.backlog))
    ensures ViewOnMessage(n1, m) == ViewOnMessage(n, m) && (Acceptable(n1, m) <==> Acceptable(n, m))
  {
    var s := n.state.seqNum - 1;
    assert n1.log.SealsAt(s) == n.log.SealsAt(s);
  }

  // ---------- Every step ----------

  /** After a step that enters a round, the node lags exactly if the PrePrepare of that round was
      logged before; after any other step, exactly if it lagged and took no PrePrepare. */
  lemma LagOfStep(n: Node, ev: Event, env: Env)
    requires n.state.Sound() && env.Valid() && WellSealed(ev) && PrePreparesAgree(n.log.messages)
    ensures EntersOrStays(n, RoundEntered(n, ev, env), TakesPrePrepare(n, ev, env), Step(n, ev, env))
  {
    match ev
    case UpdateBlockNew(block) => LagOnBlockNew(n, block, env);
    case UpdateBlockValid(id) => LagOnBlockValid(n, id, env);
    case UpdateBlockInvalid(id) => LagOnPropose(n, env);
    case UpdateBlockCommit(id) =>
      if n.state.phase == Finished && IsWorkingBlock(n, id) {
        LagOnBlockCommit(n, id, env);
      }
    case UpdatePeerMessage(_, _, _) => LagOnMessage(n, ev, env);
    case UpdateOther =>
    case TickWorking(summary) => LagOnWorkingTick(n, summary, env);
    case TickBacklog => LagOnMessage(n, ev, env);
  }

  /** A vote for a block: a Prepare or a Commit. */
  ghost predicate IsVote(c: ServiceCall) {
    c.Broadcast? && c.message.Message? && c.message.pbft.msgType in {Prepare, Commit}
  }

  /** A node that waits for a PrePrepare and takes none votes for nothing. */
  lemma WaitingNodeIsMute(n: Node, ev: Event, env: Env, c: ServiceCall)
    requires n.state.Sound() && env.Valid() && WellSealed(ev) && PrePreparesAgree(n.log.messages)
    requires n.state.phase == PrePreparing && !TakesPrePrepare(n, ev, env) && IsVote(c)
    ensures c in Step(n, ev, env).calls ==> c in n.calls
  {
    EffectOfStep(n, ev, env);
    if c in Step(n, ev, env).calls && c !in n.calls {
      assert MaySend(n, ev, c.message);
      if ev.UpdateBlockNew? {
        RefusedOwnIsMute(n, ev.block, env, c);
      } else {
        var m := MessageOf(n, ev).value;
        AcceptedExactlyIfAcceptable(n, m, env);
      }
    }
  }

  lemma RefusedOwnIsMute(n: Node, block: Block, env: Env, c: ServiceCall)
    requires n.state.Sound() && env.Valid() && PrePreparesAgree(n.log.messages) && block.blockNum == n.state.seqNum
    requires n.state.IsPrimary() && n.state.phase == PrePreparing && !TakesOwn(n, block, env) && IsVote(c)
    ensures c in OnBlockNew(n, block, env).node.calls ==> c in n.calls
  {
    if VerifyConsensusSeal(n, block, env).Success? {
      var a := LogBlock(n, block, VerifyConsensusSeal(n, block, env).value);
      var pbftBlock := PbftBlockFromBlock(block);
      var n1 := a.(state := a.state.(workingBlock := Some(pbftBlock)));
      var w := OwnMessage(n1, PrePrepare, n.state.seqNum, pbftBlock);
      assert SamePrePrepares(n, n1) && BlockNewMessage(n, block) in n1.log.messages;
      AcceptedExactlyIfAcceptable(n1.Call(Broadcast(w)), SelfMessage(w), env);
    } else {
      ProposalIsMute(n.Call(FailBlock(block.blockId)), env, c);
    }
  }

  lemma ProposalIsMute(n: Node, env: Env, c: ServiceCall)
    requires n.state.Sound() && IsVote(c)
    ensures c in ProposeViewChange(n, env).node.calls ==> c in n.calls
  {
    EffectPropose(n, n, env, UpdateOther);
  }

  // ---------- Every run ----------

  /** `begins` held at a step before `k`, and `lasts` at every step from then on. */
  ghost predicate Since(begins: nat -> bool, lasts: nat -> bool, k: nat) {
    exists i :: 0 <= i < k && begins(i) && Throughout(lasts, i + 1, k)
  }

  ghost predicate Throughout(lasts: nat -> bool, i: nat, k: nat) {
    forall j :: i <= j < k ==> lasts(j)
  }

  lemma SinceNext(begins: nat -> bool, lasts: nat -> bool, k: nat)
    ensures Since(begins, lasts, k + 1) <==> begins(k) || (Since(begins, lasts, k) && lasts(k))
  {
    if begins(k) {
      assert Throughout(lasts, k + 1, k + 1);
    } else if Since(begins, lasts, k) && lasts(k) {
      var i :| 0 <= i < k && begins(i) && Throughout(lasts, i + 1, k);
      assert Throughout(lasts, i + 1, k + 1);
    }
    if Since(begins, lasts, k + 1) {
      var after := k + 1;
      var i :| 0 <= i < after && begins(i) && Throughout(lasts, i + 1, after);
      if i < k {
        assert lasts(k) && Throughout(lasts, i + 1, k);
      }
    }
  }

  /** Step `i` of the run enters a round whose PrePrepare was logged before. */
  ghost predicate EntersLagging(t: Trace, i: nat)
    requires t.Valid() && i < |t.events|
  {
    var r := RoundEntered(t.nodes[i], t.events[i], t.envs[i]);
    r.Some? && PrePreparedAt(t.nodes[i].log.messages, r.value.seqNum, r.value.view)
  }

  /** Step `j` of the run enters no round and takes no PrePrepare for the current one. */
  ghost predicate Lingers(t: Trace, j: nat)
    requires t.Valid() && j < |t.events|
  {
    RoundEntered(t.nodes[j], t.events[j], t.envs[j]).None? && !TakesPrePrepare(t.nodes[j], t.events[j], t.envs[j])
  }

  lemma LagAt(t: Trace, k: nat)
    requires t.Valid() && t.Sealed() && k < |t.events|
    ensures Lags(t.nodes[k + 1]) <==> EntersLagging(t, k) || (Lags(t.nodes[k]) && Lingers(t, k))
  {
    InvariantOfRun(t, k);
    assert t.StepsAt(k) && WellSealed(t.events[k]);
    LagOfStep(t.nodes[k], t.events[k], t.envs[k]);
  }

  ghost function Entering(t: Trace): nat -> bool
    requires t.Valid()
  {
    (i: nat) => i < |t.events| && EntersLagging(t, i)
  }

  ghost function Lingering(t: Trace): nat -> bool
    requires t.Valid()
  {
    (j: nat) => j < |t.events| && Lingers(t, j)
  }

  lemma LagNext(t: Trace, k: nat)
    requires t.Valid() && t.Sealed() && k < |t.events|
    ensures Lags(t.nodes[k + 1]) <==> Entering(t)(k) || (Lags(t.nodes[k]) && Lingering(t)(k))
  {
    LagAt(t, k);
  }

  lemma FreshNodeDoesNotLag(n: Node)
    requires Fresh(n)
    ensures !Lags(n)
  {
    FreshNodeIs(n);
  }

  /** In every run a node lags exactly if it entered, at some step, a round whose PrePrepare it
      had logged before, and since then has entered no other and taken no PrePrepare. */
  lemma {:induction false} LagOverRuns(t: Trace, k: nat)
    requires t.Valid() && t.Sealed() && k < |t.nodes|
    ensures Lags(t.nodes[k]) <==> Since(Entering(t), Lingering(t), k)
  {
    if k == 0 {
      FreshNodeDoesNotLag(t.nodes[0]);
    } else {
      LagOverRuns(t, k - 1);
      LagNext(t, k - 1);
      SinceNext(Entering(t), Lingering(t), k - 1);
    }
  }

  /** A step that enters a round takes no PrePrepare. */
  lemma EnteringTakesNone(n: Node, ev: Event, env: Env)
    requires n.state.Sound() && env.Valid()
    ensures RoundEntered(n, ev, env).Some? ==> !TakesPrePrepare(n, ev, env)
  {
  }

  /** As long as it lags, a node takes no part in any round: it sends no Prepare and no Commit, even
      where it goes from one round that it lags in to another. */
  lemma {:induction false} LaggingNodeIsMute(t: Trace, i: nat, k: nat, c: ServiceCall)
    requires t.Valid() && t.Sealed() && i <= k < |t.nodes| && IsVote(c)
    requires forall j :: i <= j <= k ==> Lags(t.nodes[j])
    ensures c in t.nodes[k].calls ==> c in t.nodes[i].calls
    decreases k - i
  {
    if i < k {
      LaggingNodeIsMute(t, i, k - 1, c);
      MuteAt(t, k - 1, c);
    }
  }

  lemma MuteAt(t: Trace, k: nat, c: ServiceCall)
    requires t.Valid() && t.Sealed() && k < |t.events| && IsVote(c) && Lags(t.nodes[k]) && Lags(t.nodes[k + 1])
    ensures c in t.nodes[k + 1].calls ==> c in t.nodes[k].calls
  {
    InvariantOfRun(t, k);
    assert t.StepsAt(k) && WellSealed(t.events[k]);
    LagOfStep(t.nodes[k], t.events[k], t.envs[k]);
    EnteringTakesNone(t.nodes[k], t.events[k], t.envs[k]);
    WaitingNodeIsMute(t.nodes[k], t.events[k], t.envs[k], c);
  }
}
