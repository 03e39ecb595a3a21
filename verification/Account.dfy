/** A full account of what a step does to the state: every field but the phase, which climbs by the
    ladder, is determined by the causes of the step. */
module Account {
  import opened Types
  import opened Timing
  import opened State
  import opened MessageLog
  import opened Protocol
  import opened Ledger
  import opened Ladder
  import opened Commits
  import opened Views
  import opened Retention
  import opened Lag
  import opened Causes

  // ---------- The three ways a step can go ----------

  /** A view change to `v` is complete: the block is dropped and the wait begins anew. */
  ghost predicate EntersView(n: Node, v: nat, now: int, n': Node)
    requires n.state.Sound()
  {
    && n'.state == n.state.(view := v, role := n'.state.role, mode := Normal, workingBlock := None, phase := PrePreparing,
                            timeout := TimeoutValue(Active, n.state.timeout.duration, now))
    && (n'.state.role == Primary <==> n.state.id == n.state.peerIds[v % |n.state.peerIds|])
  }

  /** The block that the step makes the working block, in the current round. */
  ghost predicate TakesBlock(n: Node, ev: Event, env: Env) {
    ev.UpdateBlockNew? && ev.block.blockNum == n.state.seqNum && Welcome(n, ev.block, env)
  }

  /** The step stays in the round and view: it may change the mode, the working block and the timer. */
  ghost predicate StaysInView(n: Node, ev: Event, env: Env, n': Node)
    requires n.state.Sound() && env.Valid()
  {
    n'.state == n.state.(
      phase := n'.state.phase,
      mode := if HasCause(n, ev, env) then ViewChanging else n.state.mode,
      workingBlock := if TakesBlock(n, ev, env) then Some(Described(ev.block)) else n.state.workingBlock,
      timeout := if TakesPrePrepare(n, ev, env) then TimeoutValue(Inactive, n.state.timeout.duration, env.now)
                 else if ev.TickWorking? && TimerIsOut(n.state.timeout, env.now) then n.state.timeout.(state := Expired)
                 else n.state.timeout)
  }

  /** The round is over: the next number, the peers of the chain unless a view change is forced, a new
      view and role if one is forced or the peers differ, an announced block if there is one, and
      the timer running. */
  ghost predicate EndedRound(n: Node, ev: Event, env: Env, n': Node)
    requires n.state.Sound() && env.Valid() && EndsRound(n, ev, env)
  {
    var chain, v := env.peersAt(CommittedBy(n, ev)), LastView(n, ev);
    var changed := !Forced(n) && !SameMembers(chain, n.state.peerIds);
    var peers := if changed then chain else n.state.peerIds;
    var rotates := Forced(n) || changed;
    && n'.state == n.state.(seqNum := n.state.seqNum + 1, phase := PrePreparing, view := if rotates then v + 1 else v,
                            peerIds := peers, f := (|peers| - 1) / 3, role := n'.state.role, workingBlock := n'.state.workingBlock,
                            timeout := TimeoutValue(Active, n.state.timeout.duration, env.now))
    && (if rotates then n'.state.role == Primary <==> n.state.id == peers[(v + 1) % |peers|] else n'.state.role == n.state.role)
    && (n'.state.workingBlock.Some? <==> exists b :: AnnouncedNext(n, ev, b))
    && (n'.state.workingBlock.Some? ==> AnnouncedNext(n, ev, n'.state.workingBlock.value))
  }

  // ---------- Votes ----------

  /** Votes move the phase, and a PrePrepare that is `taken` stops the timer. */
  ghost predicate Climbs(n: Node, taken: bool, now: int, n': Node) {
    n'.state == n.state.(phase := n'.state.phase, timeout := if taken then TimeoutValue(Inactive, n.state.timeout.duration, now) else n.state.timeout)
  }

  lemma ClimbsOnPrePrepare(n: Node, m: ParsedMessage, env: Env)
    requires n.state.Sound() && env.Valid() && m.Type() == PrePrepare && PrePreparesAgree(n.log.messages)
    ensures Climbs(n, Acceptable(n, m) && m.SeqNum() == n.state.seqNum, env.now, OnPrePrepare(n, m, env).node)
  {
    AcceptedExactlyIfAcceptable(n, m, env);
    if Acceptable(n, m) {
      var n1 := WithPrePrepare(n, m, env.now);
      ClimbsOnPrepare(n1.Call(Broadcast(OwnMessage(n1, Prepare, m.SeqNum(), m.Block()))), SelfMessage(OwnMessage(n1, Prepare, m.SeqNum(), m.Block())), env);
    }
  }

  lemma ClimbsOnPrepare(n: Node, m: ParsedMessage, env: Env)
    requires n.state.Sound() && env.Valid() && m.Type() == Prepare
    ensures Climbs(n, false, env.now, OnPrepare(n, m, env).node)
  {
  }

  lemma ClimbsOnCommit(n: Node, m: ParsedMessage, env: Env)
    requires n.state.Sound() && env.Valid() && m.Type() == Commit
    ensures Climbs(n, false, env.now, OnCommit(n, m, env).node)
  {
  }

  // ---------- View changes ----------

  /** The view is entered if there is one, and otherwise the mode is `mode`. */
  ghost predicate EntersOr(n: Node, v: Option<nat>, mode: Mode, now: int, n': Node)
    requires n.state.Sound()
  {
    if v.Some? then EntersView(n, v.value, now, n') else n'.state == n.state.(mode := mode)
  }

  lemma StateOnHandler(n: Node, m: ParsedMessage, env: Env)
    requires n.state.Sound()
    ensures var n' := ViewChangeHandler(n, m, env);
            if EnoughViewChanges(n.log.messages, m.SeqNum(), m.View(), n.state.f) then EntersView(n, m.View(), env.now, n') else n' == n
  {
  }

  lemma StateOnProposal(n: Node, env: Env)
    requires n.state.Sound()
    ensures EntersOr(n, ViewOnProposal(n), ViewChanging, env.now, ProposeViewChange(n, env).node)
  {
    var found := n.log.GetConsensusSeal(n.state.seqNum - 1);
    if n.state.mode == Normal && found.Success? {
      StateOnHandler(WithOwnViewChange(n, found.value), SelfMessage(OwnViewChange(n, found.value)), env);
    }
  }

  lemma StateOnViewChange(n: Node, m: ParsedMessage, env: Env)
    requires n.state.Sound() && m.Type() == ViewChange
    ensures EntersOr(n, ViewOnMessage(n, m), if Joins(n, m) then ViewChanging else n.state.mode, env.now, OnViewChange(n, m, env).node)
  {
    var n1 := n.(log := n.log.AddMessage(m, n.state.view));
    assert n1.log.messages == n.log.messages + {m};
    if n.state.mode == ViewChanging {
      StateOnHandler(n1, m, env);
    } else if Joins(n, m) {
      assert n1.log.SealsAt(n.state.seqNum - 1) == n.log.SealsAt(n.state.seqNum - 1);
      StateOnJoining(n1, m, env);
    }
  }

  lemma StateOnJoining(n: Node, m: ParsedMessage, env: Env)
    requires n.state.Sound() && n.state.mode == Normal
    ensures var r, found := ProposeViewChange(n, env), n.log.GetConsensusSeal(n.state.seqNum - 1);
            && (found.Failure? ==> r.result.Err? && r.node.state == n.state.(mode := ViewChanging))
            && (found.Success? ==>
                  r.result.Ok? && EntersOr(n, if EnoughViewChanges(n.log.messages + {SelfMessage(OwnViewChange(n, found.value))}, m.SeqNum(), m.View(), n.state.f)
                                              then Some(m.View()) else ViewOnProposal(n), ViewChanging, env.now, ViewChangeHandler(r.node, m, env)))
  {
    StateOnProposal(n, env);
    var n1 := ProposeViewChange(n, env).node;
    StateOnHandler(n1, m, env);
    var found := n.log.GetConsensusSeal(n.state.seqNum - 1);
    if found.Success? {
      assert n1.log.messages == n.log.messages + {SelfMessage(OwnViewChange(n, found.value))};
    }
  }

  // ---------- The end of a round ----------

  lemma StateOnBlockCommit(n: Node, id: BlockId, env: Env)
    requires n.state.Sound() && env.Valid() && EndsRound(n, UpdateBlockCommit(id), env)
    ensures EndedRound(n, UpdateBlockCommit(id), env, OnBlockCommit(n, id, env))
  {
    var n1 := n.(state := NextBlock(n, env));
    NextBlockIsAnnounced(n, n.log.messages, n.state.seqNum + 1, env);
    forall b ensures AnnouncedNext(n, UpdateBlockCommit(id), b) <==> AnnouncedFor(n.log.messages, n.state.seqNum + 1, b) {
    }
    StateOnRotation(n1, id, env);
    assert OnBlockCommit(n, id, env) == Settle(RotateIfDue(n1, id, env), id, env.now);
  }

  /** A view change that is forced, or one for changed peers, or none. */
  lemma StateOnRotation(n: Node, id: BlockId, env: Env)
    requires n.state.Sound() && env.Valid()
    ensures var n', chain, v := RotateIfDue(n, id, env), env.peersAt(id), n.state.view;
            var forced := n.state.seqNum % n.state.forcedViewChangePeriod == 0;
            var peers := if forced || SameMembers(chain, n.state.peerIds) then n.state.peerIds else chain;
            if forced || !SameMembers(chain, n.state.peerIds) then
              && n'.state == n.state.(view := v + 1, peerIds := peers, f := (|peers| - 1) / 3, role := n'.state.role)
              && (n'.state.role == Primary <==> n.state.id == peers[(v + 1) % |peers|])
            else n' == n
  {
    MembershipExactly(n.state, env.peersAt(id));
  }

  lemma NextBlockIsAnnounced(n: Node, msgs: set<ParsedMessage>, s: nat, env: Env)
    requires n.state.Sound() && env.Valid() && msgs == n.log.messages && s == n.state.seqNum + 1
    ensures var w := NextBlock(n, env).workingBlock;
            (w.Some? <==> exists b :: AnnouncedFor(msgs, s, b)) && (w.Some? ==> AnnouncedFor(msgs, s, w.value))
  {
    var next := env.First(OfTypeSeq(msgs, BlockNew, s));
    forall b | AnnouncedFor(msgs, s, b) ensures next.Some? {
      var m :| m in msgs && m.Type() == BlockNew && m.SeqNum() == s && m.Block() == b;
      assert m in OfTypeSeq(msgs, BlockNew, s);
    }
    if next.Some? {
      assert AnnouncedFor(msgs, s, next.value.Block());
    }
  }

  lemma StateOnCatchup(n: Node, block: Block, env: Env)
    requires n.state.Sound() && env.Valid() && SealOfCommits(block) && EndsRound(n, UpdateBlockNew(block), env)
    ensures EndedRound(n, UpdateBlockNew(block), env, OnBlockNew(n, block, env).node)
  {
    var seal := block.payload.seal;
    WelcomeExactly(n, block, env);
    assert seal.votes[0] in seal.votes;
    var a := LogBlock(n, block, Some(seal));
    CatchupAllOrNothing(a, block, seal, env);
    var c := AtCatchupCommit(a, seal);
    StateOnBlockCommit(c, block.previousId, env);
    CatchupAnnounces(n, block, seal);
    EndedFrom(n, block, c, env, OnBlockNew(n, block, env).node);
  }

  /** The node about to end its round by catching up has the new block announced, besides those that
      were. */
  lemma CatchupAnnounces(n: Node, block: Block, seal: Seal)
    requires block.blockNum == n.state.seqNum + 1 && |seal.votes| > 0 && block.payload == Sealed(seal) && SealOfCommits(block)
    ensures var c := AtCatchupCommit(LogBlock(n, block, Some(seal)), seal);
            forall b :: AnnouncedFor(c.log.messages, n.state.seqNum + 1, b) <==> AnnouncedNext(n, UpdateBlockNew(block), b)
  {
    var a := LogBlock(n, block, Some(seal));
    var c := AtCatchupCommit(a, seal);
    assert a.log.messages == n.log.messages + {BlockNewMessage(n, block)};
    AddMessagesAddsSome(a.log, SealMessages(seal), SealView(a, seal));
    forall m | m in SealMessages(seal) ensures m.Type() != BlockNew {
      SealMessagesAre(block, seal, m);
    }
    assert BlockNewMessage(n, block) in c.log.messages;
  }

  lemma EndedFrom(n: Node, block: Block, c: Node, env: Env, n': Node)
    requires n.state.Sound() && c.state.Sound() && env.Valid() && EndsRound(n, UpdateBlockNew(block), env)
    requires EndsRound(c, UpdateBlockCommit(block.previousId), env) && EndedRound(c, UpdateBlockCommit(block.previousId), env, n')
    requires c.state == n.state.(view := SealView(n, block.payload.seal), phase := Finished)
    requires forall b :: AnnouncedFor(c.log.messages, n.state.seqNum + 1, b) <==> AnnouncedNext(n, UpdateBlockNew(block), b)
    ensures EndedRound(n, UpdateBlockNew(block), env, n')
  {
    forall b ensures AnnouncedNext(c, UpdateBlockCommit(block.previousId), b) <==> AnnouncedNext(n, UpdateBlockNew(block), b) {
      assert AnnouncedFor(c.log.messages, n.state.seqNum + 1, b) <==> AnnouncedNext(c, UpdateBlockCommit(block.previousId), b);
    }
  }

  // ---------- Every event ----------

  /** The state after a step is the one that its causes give. */
  ghost predicate StateFollows(n: Node, ev: Event, env: Env, n': Node)
    requires n.state.Sound() && env.Valid()
  {
    if EndsRound(n, ev, env) then EndedRound(n, ev, env, n')
    else if ViewEntered(n, ev, env).Some? then EntersView(n, ViewEntered(n, ev, env).value, env.now, n')
    else StaysInView(n, ev, env, n')
  }

  lemma StateOnFailedBlock(n: Node, block: Block, env: Env)
    requires n.state.Sound() && env.Valid() && HasCause(n, UpdateBlockNew(block), env)
    ensures StateFollows(n, UpdateBlockNew(block), env, OnBlockNew(n, block, env).node)
  {
    WelcomeExactly(n, block, env);
    var n1 := n.Call(FailBlock(block.blockId));
    StateOnProposal(n1, env);
    assert ViewOnProposal(n1) == ViewOnProposal(n);
  }

  lemma StateOnAdoption(n: Node, block: Block, env: Env)
    requires n.state.Sound() && env.Valid() && PrePreparesAgree(n.log.messages) && TakesBlock(n, UpdateBlockNew(block), env)
    ensures StaysInView(n, UpdateBlockNew(block), env, OnBlockNew(n, block, env).node)
  {
    WelcomeExactly(n, block, env);
    var a := LogBlock(n, block, VerifyConsensusSeal(n, block, env).value);
    var b := PbftBlockFromBlock(block);
    var n1 := a.(state := a.state.(workingBlock := Some(b)));
    assert SamePrePrepares(n, n1) && BlockNewMessage(n, block) in n1.log.messages;
    if n.state.IsPrimary() && n.state.phase == PrePreparing {
      var w := OwnMessage(n1, PrePrepare, n.state.seqNum, b);
      ClimbsOnPrePrepare(n1.Call(Broadcast(w)), SelfMessage(w), env);
    }
  }

  lemma StateOnBlockNew(n: Node, block: Block, env: Env)
    requires n.state.Sound() && env.Valid() && PrePreparesAgree(n.log.messages) && SealOfCommits(block)
    ensures StateFollows(n, UpdateBlockNew(block), env, OnBlockNew(n, block, env).node)
  {
    if HasCause(n, UpdateBlockNew(block), env) {
      StateOnFailedBlock(n, block, env);
    } else if EndsRound(n, UpdateBlockNew(block), env) {
      StateOnCatchup(n, block, env);
    } else if TakesBlock(n, UpdateBlockNew(block), env) {
      StateOnAdoption(n, block, env);
    } else if block.blockNum >= n.state.seqNum {
      StateOnLateBlock(n, block, env);
    }
  }

  lemma StateOnLateBlock(n: Node, block: Block, env: Env)
    requires n.state.Sound() && env.Valid() && SealOfCommits(block) && block.blockNum > n.state.seqNum && Welcome(n, block, env)
    requires !EndsRound(n, UpdateBlockNew(block), env)
    ensures OnBlockNew(n, block, env).node.state == n.state
  {
    WelcomeExactly(n, block, env);
    if block.blockNum == n.state.seqNum + 1 && n.state.phase != Finished {
      var seal := block.payload.seal;
      VerifiedSealHasVotes(n, block, env);
      assert seal.votes[0] in seal.votes;
      CatchupAllOrNothing(LogBlock(n, block, Some(seal)), block, seal, env);
    }
  }

  lemma StateOnMessage(n: Node, ev: Event, env: Env)
    requires n.state.Sound() && env.Valid() && PrePreparesAgree(n.log.messages) && (ev.UpdatePeerMessage? || ev.TickBacklog?)
    ensures StateFollows(n, ev, env, Step(n, ev, env))
  {
    var m := MessageOf(n, ev);
    if m.Some? {
      var n1 := if ev.TickBacklog? then n.(log := n.log.(backlog := n.log.backlog[1..])) else n;
      StateOnPeerMessage(n1, m.value, env);
      QueueDecidesNothing(n, n1, m.value);
      assert Step(n, ev, env) == OnPeerMessage(n1, m.value, env).node;
    }
  }

  lemma StateOnPeerMessage(n: Node, m: ParsedMessage, env: Env)
    requires n.state.Sound() && env.Valid() && PrePreparesAgree(n.log.messages)
    ensures var n' := OnPeerMessage(n, m, env).node;
            if m.Type() == ViewChange then EntersOr(n, ViewOnMessage(n, m), if Joins(n, m) then ViewChanging else n.state.mode, env.now, n')
            else Climbs(n, Acceptable(n, m) && m.SeqNum() == n.state.seqNum, env.now, n')
  {
    match m.Type()
    case PrePrepare => ClimbsOnPrePrepare(n, m, env);
    case Prepare => ClimbsOnPrepare(n, m, env);
    case Commit => ClimbsOnCommit(n, m, env);
    case ViewChange => StateOnViewChange(n, m, env);
    case _ =>
  }

  lemma StateOnTick(n: Node, summary: Option<string>, env: Env)
    requires n.state.Sound() && env.Valid()
    ensures StateFollows(n, TickWorking(summary), env, WorkingTick(n, summary, env))
  {
    var n1 := TryPublish(n, summary, env).node;
    var n2 := n1.(state := n1.state.(timeout := n1.state.timeout.Checked(env.now)));
    assert n1.state == n.state && n1.log == n.log;
    assert ViewOnProposal(n2) == ViewOnProposal(n);
    StateOnProposal(n2, env);
  }

  lemma StateOnBlockValid(n: Node, id: BlockId, env: Env)
    requires n.state.Sound() && env.Valid()
    ensures Climbs(n, false, env.now, OnBlockValid(n, id, env).node)
  {
    ValidBlockSends(n, id, env);
    if n.state.workingBlock.Some? {
      ClimbsOnCommit(WithOwnCommit(n), SelfMessage(OwnMessage(n, Commit, n.state.seqNum, n.state.workingBlock.value)), env);
    }
  }

  /** Every step leaves the state that its causes give. */
  lemma StateOfStep(n: Node, ev: Event, env: Env)
    requires n.state.Sound() && env.Valid() && WellSealed(ev) && PrePreparesAgree(n.log.messages)
    ensures StateFollows(n, ev, env, Step(n, ev, env))
  {
    match ev
    case UpdateBlockNew(block) => StateOnBlockNew(n, block, env);
    case UpdateBlockValid(id) => StateOnBlockValid(n, id, env);
    case UpdateBlockInvalid(id) => StateOnProposal(n, env);
    case UpdateBlockCommit(id) =>
      if EndsRound(n, ev, env) {
        StateOnBlockCommit(n, id, env);
      }
    case UpdatePeerMessage(_, _, _) => StateOnMessage(n, ev, env);
    case UpdateOther =>
    case TickWorking(summary) => StateOnTick(n, summary, env);
    case TickBacklog => StateOnMessage(n, ev, env);
  }
}
