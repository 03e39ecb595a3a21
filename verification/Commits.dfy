/** Committing: a step commits at most one block, the normal path commits the block that holds
    the certificate, catch-up commits the sealed working block, and over a whole run the
    committed sequence numbers follow one another without a gap. */
module Commits {
  import opened Types
  import opened State
  import opened MessageLog
  import opened Protocol
  import opened Ledger
  import opened Quorums
  import opened Ladder

  /** The commit calls, in order. */
  function CommitCalls(calls: seq<ServiceCall>): seq<ServiceCall> {
    if calls == [] then []
    else
      var last := calls[|calls| - 1];
      CommitCalls(calls[..|calls| - 1]) + if last.CommitBlock? then [last] else []
  }

  lemma CommitCallsAfter(n: Node, c: ServiceCall)
    ensures CommitCalls(n.Call(c).calls) == CommitCalls(n.calls) + if c.CommitBlock? then [c] else []
  {
    assert (n.calls + [c])[..|n.calls|] == n.calls;
  }

  lemma {:induction false} CommitCallsAre(calls: seq<ServiceCall>, c: ServiceCall)
    ensures c in CommitCalls(calls) <==> c in calls && c.CommitBlock?
  {
    if calls != [] {
      CommitCallsAre(calls[..|calls| - 1], c);
      assert calls == calls[..|calls| - 1] + [calls[|calls| - 1]];
    }
  }

  // ---------- The four ways a step can move ----------

  /** No commit: the sequence number stays and Finished is not entered. */
  ghost predicate Idle(n: Node, n': Node) {
    && CommitCalls(n'.calls) == CommitCalls(n.calls)
    && n'.state.seqNum == n.state.seqNum
    && (n'.state.phase == Finished ==> n.state.phase == Finished)
  }

  /** One commit at the current view and sequence number. */
  ghost predicate CommitsOne(n: Node, n': Node, c: ServiceCall) {
    && CommitCalls(n'.calls) == CommitCalls(n.calls) + [c]
    && c.CommitBlock?
    && c.seqNum == n.state.seqNum == n'.state.seqNum
    && c.view == n.state.view
  }

  /** From Finished on to the next sequence number. */
  ghost predicate Advances(n: Node, n': Node) {
    && CommitCalls(n'.calls) == CommitCalls(n.calls)
    && n.state.phase == Finished
    && n'.state.phase == PrePreparing
    && n'.state.seqNum == n.state.seqNum + 1
  }

  /** One commit at the current sequence number, and on to the next. */
  ghost predicate CatchesUp(n: Node, n': Node, c: ServiceCall) {
    && CommitCalls(n'.calls) == CommitCalls(n.calls) + [c]
    && c.CommitBlock?
    && c.seqNum == n.state.seqNum
    && n'.state.phase == PrePreparing
    && n'.state.seqNum == n.state.seqNum + 1
  }

  lemma IdleOnPrepare(n: Node, m: ParsedMessage, env: Env)
    requires n.state.Sound() && env.Valid() && m.Type() == Prepare
    ensures Idle(n, OnPrepare(n, m, env).node)
  {
    CommitCallsAfter(n, CheckBlocks(m.Block().blockId));
  }

  lemma IdleSendPrepare(n: Node, m: ParsedMessage, env: Env)
    requires n.state.Sound() && env.Valid() && m.Type() == PrePrepare
    ensures Idle(n, SendPrepare(n, m, env).node)
  {
    var w := OwnMessage(n, Prepare, m.SeqNum(), m.Block());
    CommitCallsAfter(n, Broadcast(w));
    IdleOnPrepare(n.Call(Broadcast(w)), SelfMessage(w), env);
  }

  lemma IdleOnPrePrepare(n: Node, m: ParsedMessage, env: Env)
    requires n.state.Sound() && env.Valid() && m.Type() == PrePrepare
    ensures Idle(n, OnPrePrepare(n, m, env).node)
  {
    IdleSendPrepare(WithPrePrepare(n, m, env.now), m, env);
  }

  lemma {:induction false} CommitCallsAppend(calls: seq<ServiceCall>, more: seq<ServiceCall>)
    ensures CommitCalls(calls + more) == CommitCalls(calls) + CommitCalls(more)
    decreases |more|
  {
    if more == [] {
      assert calls + more == calls;
    } else {
      var k := |more| - 1;
      CommitCallsAppend(calls, more[..k]);
      assert (calls + more)[..|calls + more| - 1] == calls + more[..k];
    }
  }

  lemma {:induction false} NoCommitCalls(calls: seq<ServiceCall>)
    requires forall c :: c in calls ==> !c.CommitBlock?
    ensures CommitCalls(calls) == []
  {
    if calls != [] {
      NoCommitCalls(calls[..|calls| - 1]);
    }
  }

  lemma IdleTakeRole(n: Node)
    requires |n.state.peerIds| > 0
    ensures Idle(n, TakeRole(n))
  {
    CommitCallsAppend(n.calls, RoleCalls(n));
    NoCommitCalls(RoleCalls(n));
  }

  lemma IdleViewChangeHandler(n: Node, m: ParsedMessage, env: Env)
    requires n.state.Sound()
    ensures Idle(n, ViewChangeHandler(n, m, env))
  {
    IdleTakeRole(n.(state := n.state.(view := m.View())));
  }

  lemma IdleTransitive(a: Node, b: Node, c: Node)
    requires Idle(a, b) && Idle(b, c)
    ensures Idle(a, c)
  {
  }

  lemma IdleOwnViewChange(n: Node, seal: Seal)
    requires n.state.Sound()
    ensures Idle(n, WithOwnViewChange(n, seal))
  {
    CommitCallsAfter(n, Broadcast(OwnViewChange(n, seal)));
  }

  lemma IdlePropose(n: Node, env: Env)
    requires n.state.Sound()
    ensures Idle(n, ProposeViewChange(n, env).node)
  {
    if n.state.mode == Normal && n.log.GetConsensusSeal(n.state.seqNum - 1).Success? {
      var seal := n.log.GetConsensusSeal(n.state.seqNum - 1).value;
      var n1 := WithOwnViewChange(n, seal);
      var n' := ViewChangeHandler(n1, SelfMessage(OwnViewChange(n, seal)), env);
      assert ProposeViewChange(n, env).node == n';
      IdleOwnViewChange(n, seal);
      IdleViewChangeHandler(n1, SelfMessage(OwnViewChange(n, seal)), env);
      IdleTransitive(n, n1, n');
    }
  }

  lemma IdleOnViewChange(n: Node, m: ParsedMessage, env: Env)
    requires n.state.Sound() && m.Type() == ViewChange
    ensures Idle(n, OnViewChange(n, m, env).node)
  {
    var n1 := n.(log := n.log.AddMessage(m, n.state.view));
    IdlePropose(n1, env);
    var n2 := if n.state.mode == ViewChanging then n1 else ProposeViewChange(n1, env).node;
    IdleViewChangeHandler(n2, m, env);
  }

  lemma AdvanceOnBlockCommit(n: Node, id: BlockId, env: Env)
    requires n.state.Sound() && env.Valid()
    ensures OnBlockCommit(n, id, env) == n || Advances(n, OnBlockCommit(n, id, env))
    ensures n.state.phase == Finished && IsWorkingBlock(n, id) ==> Advances(n, OnBlockCommit(n, id, env))
  {
    if n.state.phase == Finished && IsWorkingBlock(n, id) {
      var n1 := n.(state := NextBlock(n, env));
      RotationIsIdle(n1, id, env);
      var n2 := RotateIfDue(n1, id, env);
      CommitCallsAfter(n2, InitializeBlock(Some(id)));
      assert n2.calls + [] == n2.calls;
    }
  }

  lemma RotationIsIdle(n: Node, id: BlockId, env: Env)
    requires n.state.Sound() && env.Valid()
    ensures var n' := RotateIfDue(n, id, env);
            CommitCalls(n'.calls) == CommitCalls(n.calls) && n'.state.phase == n.state.phase && n'.state.seqNum == n.state.seqNum
  {
    if n.state.AtForcedViewChange() {
      IdleTakeRole(n.(state := n.state.(view := n.state.view + 1)));
    } else {
      var s := UpdateMembership(n.state, env.peersAt(id));
      IdleTakeRole(n.(state := s.(view := s.view + 1)));
    }
  }

  // ---------- The normal path ----------

  /** The validator's answer names the block pre-prepared at the current view and sequence number. */
  ghost predicate ValidNamesPrePrepared(n: Node, ev: Event) {
    ev.UpdateBlockValid? ==>
      forall b :: HasPrePrepare(n.log.messages, n.state.seqNum, n.state.view, b) ==> b.blockId == ev.validId
  }

  /** The committed block is the one with the full certificate at that view and sequence number. */
  ghost predicate CertifiedCommit(msgs: set<ParsedMessage>, f: nat, c: ServiceCall)
    requires c.CommitBlock?
  {
    exists b: PbftBlock :: b.blockId == c.committed && CommittableFor(msgs, c.seqNum, c.view, f, b)
  }

  /** The handler commits the block of the message that arrived, not of the PrePrepare; it is
      the certified one because a node at rest in Committing is not yet committable. */
  lemma CommitOnVote(n: Node, m: ParsedMessage, env: Env)
    requires n.state.Sound() && env.Valid() && m.Type() == Commit && LedgerInv(n)
    requires RestsCommitting(n) || (forall b :: HasPrePrepare(n.log.messages, n.state.seqNum, n.state.view, b) ==> b.blockId == m.Block().blockId)
    ensures var n' := OnCommit(n, m, env).node;
            || Idle(n, n')
            || (exists c :: CommitsOne(n, n', c) && n.state.phase == Committing && CertifiedCommit(n'.log.messages, n.state.f, c))
  {
    var n' := OnCommit(n, m, env).node;
    var msgs, s, v, f := n.log.messages, n.state.seqNum, n.state.view, n.state.f;
    if m.View() == v && m.SeqNum() == s && CheckCommittable(msgs + {m}, s, v, f, env) && n.state.phase == Committing {
      QuietOnCommit(n, m, env);
      QuietKeepsLedger(n, n');
      ChecksMeanCertificates(msgs + {m}, s, v, f, env);
      var b :| CommittableFor(msgs + {m}, s, v, f, b);
      var c := CommitBlock(m.Block().blockId, v, s);
      CommitCallsAfter(n, c);
      NewCertificateIsForTheVote(msgs, m, s, v, f, b);
      assert HasPrePrepare(msgs, s, v, b);
      assert b.blockId == m.Block().blockId;
      assert CommitsOne(n, n', c);
    }
  }

  lemma CommitOnPeerMessage(n: Node, m: ParsedMessage, env: Env)
    requires n.state.Sound() && env.Valid() && LedgerInv(n) && LadderInv(n)
    ensures var n' := OnPeerMessage(n, m, env).node;
            || Idle(n, n')
            || (exists c :: CommitsOne(n, n', c) && n.state.phase == Committing && CertifiedCommit(n'.log.messages, n.state.f, c))
  {
    match m.Type()
    case PrePrepare => IdleOnPrePrepare(n, m, env);
    case Prepare => IdleOnPrepare(n, m, env);
    case Commit => CommitOnVote(n, m, env);
    case ViewChange => IdleOnViewChange(n, m, env);
    case _ =>
  }

  /** The node about to handle its own Commit. */
  ghost function WithOwnCommit(n: Node): Node
    requires n.state.workingBlock.Some?
  {
    var s := n.state.SwitchPhase(Committing);
    n.(state := s, calls := n.calls + [Broadcast(OwnMessage(n, Commit, n.state.seqNum, n.state.workingBlock.value))])
  }

  lemma ValidBlockSends(n: Node, id: BlockId, env: Env)
    requires n.state.Sound() && env.Valid()
    ensures OnBlockValid(n, id, env).node ==
            if IsWorkingBlock(n, id) && (n.state.phase == Checking || n.state.phase == Committing) then
              OnCommit(WithOwnCommit(n), SelfMessage(OwnMessage(n, Commit, n.state.seqNum, n.state.workingBlock.value)), env).node
            else n
  {
  }

  lemma OwnCommitKeepsLedger(n: Node)
    requires n.state.workingBlock.Some? && LedgerInv(n)
    ensures LedgerInv(WithOwnCommit(n))
    ensures CommitCalls(WithOwnCommit(n).calls) == CommitCalls(n.calls)
  {
    assert QuietlyExtends(n, WithOwnCommit(n));
    QuietKeepsLedger(n, WithOwnCommit(n));
    CommitCallsAfter(n, Broadcast(OwnMessage(n, Commit, n.state.seqNum, n.state.workingBlock.value)));
  }

  lemma CommitOnBlockValid(n: Node, id: BlockId, env: Env)
    requires n.state.Sound() && env.Valid() && LedgerInv(n) && ValidNamesPrePrepared(n, UpdateBlockValid(id))
    ensures var n' := OnBlockValid(n, id, env).node;
            || Idle(n, n')
            || (exists c :: CommitsOne(n, n', c) && CertifiedCommit(n'.log.messages, n.state.f, c))
  {
    ValidBlockSends(n, id, env);
    if IsWorkingBlock(n, id) && (n.state.phase == Checking || n.state.phase == Committing) {
      var n1 := WithOwnCommit(n);
      var m := SelfMessage(OwnMessage(n, Commit, n.state.seqNum, n.state.workingBlock.value));
      OwnCommitKeepsLedger(n);
      CommitOnVote(n1, m, env);
      var n' := OnCommit(n1, m, env).node;
      if !Idle(n1, n') {
        var c :| CommitsOne(n1, n', c) && CertifiedCommit(n'.log.messages, n.state.f, c);
        assert CommitsOne(n, n', c);
      }
    }
  }

  // ---------- Catch-up ----------

  lemma {:induction false} AddMessagesSucceeds(log: LogValue, ms: seq<ParsedMessage>, view: nat)
    ensures AddMessagesOutcome(log, ms, view).Ok? <==> forall m :: m in ms ==> m.Type() == ViewChange || m.View() == view
    decreases ms
  {
    if ms == [] {
    } else if !log.Refuses(ms[0], view) {
      AddMessagesSucceeds(log.AddMessage(ms[0], view), ms[1..], view);
      assert ms == [ms[0]] + ms[1..];
    } else {
      assert ms[0] in ms;
    }
  }

  /** The seal names the working block and its votes can all be logged. */
  ghost predicate SealFits(n: Node, block: Block, seal: Seal) {
    && n.state.workingBlock.Some?
    && block.blockNum == n.state.workingBlock.value.blockNum + 1
    && block.previousId == n.state.workingBlock.value.blockId
    && |seal.votes| > 0
    && forall v :: v in seal.votes ==> v.message.msgType == ViewChange || v.message.view == Max(n.state.view, seal.votes[0].message.view)
  }

  /** The whole effect of a catch-up that goes through. */
  ghost predicate CaughtUp(n: Node, block: Block, seal: Seal, env: Env, n': Node)
    requires SealFits(n, block, seal)
  {
    && (forall v :: v in seal.votes ==> v.message.block.blockId == n.state.workingBlock.value.blockId && env.authentic(v))
    && (forall p :: p in VoterIds(seal) ==> p in env.peersAt(block.previousId) && p != block.signerId)
    && |VoterIds(seal)| >= 2 * n.state.f
    && CatchesUp(n, n', CommitBlock(n.state.workingBlock.value.blockId, Max(n.state.view, seal.votes[0].message.view), n.state.seqNum))
    && n'.state.view >= n.state.view
  }

  lemma CatchupMoves(n: Node, block: Block, seal: Seal, env: Env)
    requires n.state.Sound() && env.Valid() && |seal.votes| > 0
    requires seal.votes[0].message.block.blockId == block.previousId
    ensures var r := Catchup(n, block, seal, env);
            && (r.result.Ok? <==> SealFits(n, block, seal))
            && (r.result.Err? ==> Idle(n, r.node) && r.node.state.seqNum == n.state.seqNum)
            && (r.result.Ok? ==>
                  && CatchesUp(n, r.node, CommitBlock(n.state.workingBlock.value.blockId, Max(n.state.view, seal.votes[0].message.view), n.state.seqNum))
                  && r.node.state.view >= n.state.view)
  {
    if n.state.workingBlock.Some? && block.blockNum == n.state.workingBlock.value.blockNum + 1 && block.previousId == n.state.workingBlock.value.blockId {
      var ms := SealMessages(seal);
      var view := Max(n.state.view, ms[0].View());
      AddMessagesSucceeds(n.log, ms, view);
      SealMessagesFit(seal, view);
      if AddMessagesOutcome(n.log, ms, view).Ok? {
        var n1 := n.(state := n.state.(view := view, phase := Committing), log := AddMessages(n.log, ms, view));
        CommitNowMoves(n, n1, ms[0].Block().blockId, env);
      }
    }
  }

  /** Committing at once and then being told so moves the node on with that one commit. */
  lemma CommitNowMoves(n: Node, n1: Node, id: BlockId, env: Env)
    requires n.state.Sound() && n1.state.Sound() && env.Valid() && IsWorkingBlock(n1, id)
    requires n1.calls == n.calls && n1.state.seqNum == n.state.seqNum && n1.state.view >= n.state.view && n1.state.phase == Committing
    ensures CatchesUp(n, OnBlockCommit(CommitNow(n1, id), id, env), CommitBlock(id, n1.state.view, n.state.seqNum))
    ensures OnBlockCommit(CommitNow(n1, id), id, env).state.view >= n.state.view
  {
    CommitCallsAfter(n1, CommitBlock(id, n1.state.view, n.state.seqNum));
    AdvanceOnBlockCommit(CommitNow(n1, id), id, env);
  }

  lemma SealMessagesFit(seal: Seal, view: nat)
    ensures (forall m :: m in SealMessages(seal) ==> m.Type() == ViewChange || m.View() == view)
            <==> (forall v :: v in seal.votes ==> v.message.msgType == ViewChange || v.message.view == view)
  {
    var ms := SealMessages(seal);
    forall v | v in seal.votes ensures FromPbftMessage(v.message) in ms {
      var i :| 0 <= i < |seal.votes| && seal.votes[i] == v;
      assert ms[i] == FromPbftMessage(v.message);
    }
    forall m | m in ms ensures exists v :: v in seal.votes && m == FromPbftMessage(v.message) {
      var i :| 0 <= i < |ms| && ms[i] == m;
      assert seal.votes[i] in seal.votes;
    }
  }

  /** Catch-up, for every block one past the current one: it goes through exactly when the seal
      verifies and fits, it then commits exactly the working block and moves on by one, and
      otherwise it commits nothing. */
  lemma CatchupIsCorrect(n: Node, block: Block, env: Env)
    requires n.state.Sound() && env.Valid()
    requires block.blockNum == n.state.seqNum + 1 && n.state.phase != Finished
    ensures var r := OnBlockNew(n, block, env);
            var verified := VerifyConsensusSeal(n, block, env);
            && (r.result.Ok? <==> verified.Success? && SealFits(n, block, block.payload.seal))
            && (r.result.Ok? ==> CaughtUp(n, block, block.payload.seal, env, r.node))
            && (r.result.Err? ==> Idle(n, r.node))
  {
    match VerifyConsensusSeal(n, block, env)
    case Failure(e) =>
      var n1 := n.Call(FailBlock(block.blockId));
      CommitCallsAfter(n, FailBlock(block.blockId));
      IdlePropose(n1, env);
    case Success(found) =>
      VerifiedSealHasVotes(n, block, env);
      var seal := found.value;
      assert seal.votes[0] in seal.votes;
      CatchupMoves(LogBlock(n, block, found), block, seal, env);
  }

  // ---------- Every step ----------

  /** Idle, one certified commit, an advance, or a catch-up to a verified seal. */
  ghost predicate CommitMove(n: Node, ev: Event, env: Env, n': Node) {
    || Idle(n, n')
    || (exists c :: CommitsOne(n, n', c) && CertifiedCommit(n'.log.messages, n.state.f, c))
    || Advances(n, n')
    || (ev.UpdateBlockNew? && ev.block.payload.Sealed? && SealFits(n, ev.block, ev.block.payload.seal)
        && CaughtUp(n, ev.block, ev.block.payload.seal, env, n'))
  }

  lemma CommitOnBlockNew(n: Node, block: Block, env: Env)
    requires n.state.Sound() && env.Valid()
    ensures CommitMove(n, UpdateBlockNew(block), env, OnBlockNew(n, block, env).node)
  {
    if block.blockNum >= n.state.seqNum {
      if block.blockNum == n.state.seqNum + 1 && n.state.phase != Finished {
        CatchupIsCorrect(n, block, env);
        if VerifyConsensusSeal(n, block, env).Success? { VerifiedSealHasVotes(n, block, env); }
      } else {
        match VerifyConsensusSeal(n, block, env)
        case Failure(e) =>
          CommitCallsAfter(n, FailBlock(block.blockId));
          IdlePropose(n.Call(FailBlock(block.blockId)), env);
        case Success(seal) =>
          if block.blockNum == n.state.seqNum {
            IdleAdoptBlock(LogBlock(n, block, seal), block, env);
          }
      }
    }
  }

  lemma IdleAdoptBlock(n: Node, block: Block, env: Env)
    requires n.state.Sound() && env.Valid()
    ensures Idle(n, AdoptBlock(n, block, env).node)
  {
    var pbftBlock := PbftBlockFromBlock(block);
    var n1 := n.(state := n.state.(workingBlock := Some(pbftBlock)));
    if n.state.IsPrimary() && n.state.ExpectedType() == PrePrepare {
      var w := OwnMessage(n1, PrePrepare, n.state.seqNum, pbftBlock);
      CommitCallsAfter(n1, Broadcast(w));
      IdleOnPrePrepare(n1.Call(Broadcast(w)), SelfMessage(w), env);
    }
  }

  lemma IdleWorkingTick(n: Node, summary: Option<string>, env: Env)
    requires n.state.Sound() && env.Valid()
    ensures Idle(n, WorkingTick(n, summary, env))
  {
    IdleTryPublish(n, summary, env);
    var n1 := TryPublish(n, summary, env).node;
    var n2 := n1.(state := n1.state.(timeout := n1.state.timeout.Checked(env.now)));
    IdlePropose(n2, env);
    IdleTransitive(n, n2, ProposeViewChange(n2, env).node);
  }

  lemma IdleTryPublish(n: Node, summary: Option<string>, env: Env)
    requires n.state.Sound() && env.Valid()
    ensures Idle(n, TryPublish(n, summary, env).node) && TryPublish(n, summary, env).node.state == n.state
  {
    var n1 := TryPublish(n, summary, env).node;
    if n1.calls != n.calls {
      CommitCallsAfter(n, n1.calls[|n.calls|]);
    }
  }

  lemma CommitOfStep(n: Node, ev: Event, env: Env)
    requires n.state.Sound() && env.Valid() && LedgerInv(n) && LadderInv(n) && ValidNamesPrePrepared(n, ev)
    ensures CommitMove(n, ev, env, Step(n, ev, env))
  {
    match ev
    case UpdateBlockNew(block) => CommitOnBlockNew(n, block, env);
    case UpdateBlockValid(id) => CommitOnBlockValid(n, id, env);
    case UpdateBlockInvalid(id) => IdlePropose(n, env);
    case UpdateBlockCommit(id) => AdvanceOnBlockCommit(n, id, env);
    case UpdatePeerMessage(header, message, sender) => CommitOnPeerMessage(n, ParsedMessage(header, message, false), env);
    case UpdateOther =>
    case TickWorking(summary) => IdleWorkingTick(n, summary, env);
    case TickBacklog =>
      if n.log.backlog != [] {
        var n1 := n.(log := n.log.(backlog := n.log.backlog[1..]));
        QuietKeepsLedger(n, n1);
        SameRoundKeepsLadder(n, n1);
        CommitOnPeerMessage(n1, n.log.backlog[0], env);
        var n' := OnPeerMessage(n1, n.log.backlog[0], env).node;
        if c :| CommitsOne(n1, n', c) && CertifiedCommit(n'.log.messages, n1.state.f, c) {
          assert CommitsOne(n, n', c);
        }
      }
  }

  // ---------- Whole runs ----------

  /** The commits so far cover every sequence number from `first` on, in order and without a gap,
      up to the current one. */
  ghost predicate Chained(cs: seq<ServiceCall>, first: nat, seqNum: nat)
    requires forall c :: c in cs ==> c.CommitBlock?
  {
    if cs == [] then seqNum == first
    else
      && cs[0].seqNum == first
      && (forall k :: 0 <= k < |cs| - 1 ==> cs[k].seqNum <= cs[k + 1].seqNum <= cs[k].seqNum + 1)
      && cs[|cs| - 1].seqNum <= seqNum <= cs[|cs| - 1].seqNum + 1
  }

  ghost predicate ChainInv(n: Node, first: nat) {
    var cs := CommitCalls(n.calls);
    && (forall c :: c in cs ==> c.CommitBlock?)
    && Chained(cs, first, n.state.seqNum)
    && (n.state.phase == Finished ==> cs != [] && cs[|cs| - 1].seqNum == n.state.seqNum)
  }

  lemma ChainedExtends(cs: seq<ServiceCall>, c: ServiceCall, first: nat, seqNum: nat)
    requires (forall k :: k in cs ==> k.CommitBlock?) && Chained(cs, first, seqNum)
    requires c.CommitBlock? && c.seqNum == seqNum
    ensures Chained(cs + [c], first, seqNum) && Chained(cs + [c], first, seqNum + 1)
  {
    var ds := cs + [c];
    forall k | 0 <= k < |ds| - 1
      ensures ds[k].seqNum <= ds[k + 1].seqNum <= ds[k].seqNum + 1
    {
      if k < |cs| - 1 {
        assert ds[k] == cs[k] && ds[k + 1] == cs[k + 1];
      }
    }
  }

  lemma ChainOfStep(n: Node, ev: Event, env: Env, first: nat)
    requires n.state.Sound() && env.Valid() && LedgerInv(n) && LadderInv(n) && ValidNamesPrePrepared(n, ev)
    requires ChainInv(n, first)
    ensures ChainInv(Step(n, ev, env), first)
  {
    CommitOfStep(n, ev, env);
    ChainOfMove(n, ev, env, Step(n, ev, env), first);
  }

  lemma ChainOfMove(n: Node, ev: Event, env: Env, n': Node, first: nat)
    requires CommitMove(n, ev, env, n') && ChainInv(n, first)
    ensures ChainInv(n', first)
  {
    var cs := CommitCalls(n.calls);
    if Idle(n, n') {
    } else if Advances(n, n') {
    } else if c :| CommitsOne(n, n', c) {
      ChainedExtends(cs, c, first, n.state.seqNum);
    } else {
      var c := CommitBlock(n.state.workingBlock.value.blockId, Max(n.state.view, ev.block.payload.seal.votes[0].message.view), n.state.seqNum);
      ChainedExtends(cs, c, first, n.state.seqNum);
    }
  }
}
