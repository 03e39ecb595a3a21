/** The phase ladder: each phase is entered only on the evidence it stands for, a node in Preparing
    or Committing has no certificate that would take it further, and the timer runs exactly in
    PrePreparing. A node in PrePreparing may have the PrePrepare it waits for: see `Lag`. */
module Ladder {
  import opened Types
  import opened State
  import opened MessageLog
  import opened Protocol
  import opened Ledger
  import opened Quorums

  /** The evidence for the phase, at the current sequence number and view. */
  ghost predicate OnLadder(n: Node) {
    var msgs, s, v, f := n.log.messages, n.state.seqNum, n.state.view, n.state.f;
    match n.state.phase
    case PrePreparing => true
    case Preparing => exists b :: HasPrePrepare(msgs, s, v, b)
    case Checking => Prepared(msgs, s, v, f)
    case Committing => Prepared(msgs, s, v, f)
    case Finished => Committable(msgs, s, v, f)
  }

  /** A node waiting for Prepares is not prepared, one waiting for Commits not committable. */
  ghost predicate AtRest(n: Node) {
    RestsPreparing(n) && RestsCommitting(n)
  }

  ghost predicate RestsPreparing(n: Node) {
    n.state.phase == Preparing ==> !Prepared(n.log.messages, n.state.seqNum, n.state.view, n.state.f)
  }

  ghost predicate RestsCommitting(n: Node) {
    n.state.phase == Committing ==> !Committable(n.log.messages, n.state.seqNum, n.state.view, n.state.f)
  }

  ghost predicate TimerMatchesPhase(n: Node) {
    n.state.timeout.Running() <==> n.state.phase == PrePreparing
  }

  ghost predicate LadderInv(n: Node) {
    OnLadder(n) && AtRest(n) && TimerMatchesPhase(n)
  }

  // ---------- Steps that leave the votes of the current sequence number alone ----------

  ghost predicate SameRound(n: Node, n': Node) {
    && n'.state.seqNum == n.state.seqNum
    && n'.state.view == n.state.view
    && n'.state.phase == n.state.phase
    && n'.state.f == n.state.f
    && n'.state.timeout.Running() == n.state.timeout.Running()
    && SameVotesAt(n.log.messages, n'.log.messages, n.state.seqNum, n.state.view)
  }

  lemma SameRoundKeepsLadder(n: Node, n': Node)
    requires LadderInv(n)
    requires SameRound(n, n') || (n'.state.phase == PrePreparing && n'.state.timeout.Running())
    ensures LadderInv(n')
  {
    if SameRound(n, n') {
      SameVotesSameCertificates(n.log.messages, n'.log.messages, n.state.seqNum, n.state.view, n.state.f);
    }
  }

  // ---------- Votes ----------

  lemma LadderOnPrepare(n: Node, m: ParsedMessage, env: Env)
    requires n.state.Sound() && env.Valid() && m.Type() == Prepare && LedgerInv(n)
    requires OnLadder(n) && RestsCommitting(n) && TimerMatchesPhase(n)
    requires RestsPreparing(n) || (m.SeqNum() == n.state.seqNum && m.View() == n.state.view)
    ensures LadderInv(OnPrepare(n, m, env).node)
  {
    if m.View() == n.state.view {
      if m.SeqNum() == n.state.seqNum {
        LadderOnCurrentPrepare(n, m, env);
      } else {
        SameRoundKeepsLadder(n, OnPrepare(n, m, env).node);
      }
    }
  }

  lemma LadderOnCurrentPrepare(n: Node, m: ParsedMessage, env: Env)
    requires n.state.Sound() && env.Valid() && m.At(Prepare, n.state.seqNum, n.state.view) && PrePreparesAgree(n.log.messages)
    requires OnLadder(n) && RestsCommitting(n) && TimerMatchesPhase(n)
    ensures LadderInv(OnPrepare(n, m, env).node)
  {
    var msgs, s, v, f := n.log.messages, n.state.seqNum, n.state.view, n.state.f;
    ChecksMeanCertificates(msgs + {m}, s, v, f, env);
    StatusGrows(msgs, msgs + {m}, s, v, f);
    PrepareAddsNoCommittable(msgs, m, s, v, f, env);
    PrePrepareStays(msgs, msgs + {m}, s, v);
  }

  lemma PrePrepareStays(msgs: set<ParsedMessage>, msgs': set<ParsedMessage>, s: nat, v: nat)
    requires msgs <= msgs'
    ensures (exists b :: HasPrePrepare(msgs, s, v, b)) ==> (exists b :: HasPrePrepare(msgs', s, v, b))
  {
    if b :| HasPrePrepare(msgs, s, v, b) {
      assert HasPrePrepare(msgs', s, v, b);
    }
  }

  /** Once prepared, a further Prepare cannot make the block committable. */
  lemma PrepareAddsNoCommittable(msgs: set<ParsedMessage>, m: ParsedMessage, s: nat, v: nat, f: nat, env: Env)
    requires env.Valid() && m.Type() == Prepare && PrePreparesAgree(msgs)
    ensures Prepared(msgs, s, v, f) && Committable(msgs + {m}, s, v, f) ==> Committable(msgs, s, v, f)
  {
    if Prepared(msgs, s, v, f) && Committable(msgs + {m}, s, v, f) {
      var b :| PreparedFor(msgs, s, v, f, b);
      var c :| CommittableFor(msgs + {m}, s, v, f, c);
      assert HasPrePrepare(msgs, s, v, c);
      ChecksMeanCertificates(msgs, s, v, f, env);
      assert VotesFor(msgs + {m}, Commit, s, v, b) == VotesFor(msgs, Commit, s, v, b);
      assert CommittableFor(msgs, s, v, f, b);
    }
  }

  lemma LadderOnCommit(n: Node, m: ParsedMessage, env: Env)
    requires n.state.Sound() && env.Valid() && m.Type() == Commit && LedgerInv(n)
    requires OnLadder(n) && RestsPreparing(n) && TimerMatchesPhase(n)
    requires RestsCommitting(n) || (m.SeqNum() == n.state.seqNum && m.View() == n.state.view)
    ensures LadderInv(OnCommit(n, m, env).node)
  {
    var n' := OnCommit(n, m, env).node;
    var msgs, msgs', s, v, f := n.log.messages, n'.log.messages, n.state.seqNum, n.state.view, n.state.f;
    if m.View() == v {
      assert msgs' == msgs + {m};
      if m.SeqNum() == s {
        QuietOnCommit(n, m, env);
        QuietKeepsLedger(n, n');
        ChecksMeanCertificates(msgs', s, v, f, env);
        StatusGrows(msgs, msgs', s, v, f);
        PrePrepareStays(msgs, msgs', s, v);
        CommitAddsNoPrepared(msgs, m, s, v, f);
      } else {
        SameRoundKeepsLadder(n, n');
      }
    }
  }

  lemma CommitAddsNoPrepared(msgs: set<ParsedMessage>, m: ParsedMessage, s: nat, v: nat, f: nat)
    requires m.Type() == Commit
    ensures Prepared(msgs + {m}, s, v, f) ==> Prepared(msgs, s, v, f)
  {
    if b :| PreparedFor(msgs + {m}, s, v, f, b) {
      NewCertificateIsForTheVote(msgs, m, s, v, f, b);
    }
  }

  // ---------- PrePrepares ----------

  lemma LadderWithPrePrepare(n: Node, m: ParsedMessage, env: Env)
    requires n.state.Sound() && env.Valid() && LedgerInv(n) && LadderInv(n) && Admits(n, m)
    ensures var n' := WithPrePrepare(n, m, env.now);
            && OnLadder(n') && RestsCommitting(n') && TimerMatchesPhase(n')
            && (RestsPreparing(n') || m.SeqNum() == n'.state.seqNum)
  {
    var n' := WithPrePrepare(n, m, env.now);
    var msgs, s, v, f := n.log.messages, n.state.seqNum, n.state.view, n.state.f;
    if m.SeqNum() != s {
      SameRoundKeepsLadder(n, n');
    } else {
      assert m.VotesFor(PrePrepare, s, v, m.Block());
      assert HasPrePrepare(msgs + {m}, s, v, m.Block());
      StatusGrows(msgs, msgs + {m}, s, v, f);
      if n.state.phase != PrePreparing {
        RepeatedPrePrepare(n, m, env);
      }
    }
  }

  /** A further PrePrepare for the block already accepted changes no certificate. */
  lemma RepeatedPrePrepare(n: Node, m: ParsedMessage, env: Env)
    requires env.Valid() && Admits(n, m) && OnLadder(n) && n.state.phase != PrePreparing && m.SeqNum() == n.state.seqNum
    ensures Committable(n.log.messages + {m}, n.state.seqNum, n.state.view, n.state.f) ==>
              Committable(n.log.messages, n.state.seqNum, n.state.view, n.state.f)
  {
    var known :| HasPrePrepare(n.log.messages, n.state.seqNum, n.state.view, known);
    PrePrepareAddsNoCommittable(n.log.messages, m, n.state.seqNum, n.state.view, n.state.f, known, env);
  }

  lemma PrePrepareAddsNoCommittable(msgs: set<ParsedMessage>, m: ParsedMessage, s: nat, v: nat, f: nat, known: PbftBlock, env: Env)
    requires env.Valid() && m.Type() == PrePrepare && PrePreparesAgree(msgs + {m}) && HasPrePrepare(msgs, s, v, known)
    ensures Committable(msgs + {m}, s, v, f) ==> Committable(msgs, s, v, f)
  {
    if b :| CommittableFor(msgs + {m}, s, v, f, b) {
      CertificatesGrow(msgs, msgs + {m}, s, v, f, known);
      ChecksMeanCertificates(msgs + {m}, s, v, f, env);
      assert VotesFor(msgs + {m}, Prepare, s, v, b) == VotesFor(msgs, Prepare, s, v, b);
      assert VotesFor(msgs + {m}, Commit, s, v, b) == VotesFor(msgs, Commit, s, v, b);
      assert CommittableFor(msgs, s, v, f, b);
    }
  }

  lemma LadderSendPrepare(n: Node, m: ParsedMessage, env: Env)
    requires n.state.Sound() && env.Valid() && LedgerInv(n)
    requires m in n.log.messages && m.Type() == PrePrepare && m.View() == n.state.view
    requires OnLadder(n) && RestsCommitting(n) && TimerMatchesPhase(n) && (RestsPreparing(n) || m.SeqNum() == n.state.seqNum)
    ensures LadderInv(SendPrepare(n, m, env).node)
  {
    if n.state.ExpectedType() == Prepare {
      var w := OwnMessage(n, Prepare, m.SeqNum(), m.Block());
      SendingPrepare(n, m);
      LadderOnPrepare(n.Call(Broadcast(w)), SelfMessage(w), env);
    }
  }

  lemma LadderOnPrePrepare(n: Node, m: ParsedMessage, env: Env)
    requires n.state.Sound() && env.Valid() && m.Type() == PrePrepare && LedgerInv(n) && LadderInv(n)
    ensures LadderInv(OnPrePrepare(n, m, env).node)
  {
    if PrePrepareProblem(n, m, env).None? {
      NoProblemAdmits(n, m, env);
      LadderWithPrePrepare(n, m, env);
      LedgerWithPrePrepare(n, m, env.now);
      LadderSendPrepare(WithPrePrepare(n, m, env.now), m, env);
    }
  }

  // ---------- View changes ----------

  lemma RoundViewChangeHandler(n: Node, m: ParsedMessage, env: Env)
    requires n.state.Sound()
    ensures var n' := ViewChangeHandler(n, m, env);
            SameRound(n, n') || (n'.state.phase == PrePreparing && n'.state.timeout.Running())
  {
  }

  lemma LadderPropose(n: Node, env: Env)
    requires n.state.Sound() && LadderInv(n)
    ensures LadderInv(ProposeViewChange(n, env).node)
  {
    if n.state.mode == Normal {
      var n1 := n.(state := n.state.(mode := ViewChanging));
      SameRoundKeepsLadder(n, n1);
      match n.log.GetConsensusSeal(n.state.seqNum - 1)
      case Failure(e) =>
      case Success(seal) =>
        var w := OwnViewChange(n, seal);
        var n2 := n1.Call(Broadcast(w));
        var n3 := n2.(log := n2.log.AddMessage(SelfMessage(w), n2.state.view));
        SameRoundKeepsLadder(n1, n3);
        RoundViewChangeHandler(n3, SelfMessage(w), env);
        SameRoundKeepsLadder(n3, ViewChangeHandler(n3, SelfMessage(w), env));
    }
  }

  lemma LadderOnViewChange(n: Node, m: ParsedMessage, env: Env)
    requires n.state.Sound() && m.Type() == ViewChange && LadderInv(n)
    ensures LadderInv(OnViewChange(n, m, env).node)
  {
    var n1 := n.(log := n.log.AddMessage(m, n.state.view));
    SameRoundKeepsLadder(n, n1);
    LadderPropose(n1, env);
    var n2 := if n.state.mode == ViewChanging then n1 else ProposeViewChange(n1, env).node;
    RoundViewChangeHandler(n2, m, env);
    SameRoundKeepsLadder(n2, ViewChangeHandler(n2, m, env));
  }

  lemma LadderOnPeerMessage(n: Node, m: ParsedMessage, env: Env)
    requires n.state.Sound() && env.Valid() && LedgerInv(n) && LadderInv(n)
    ensures LadderInv(OnPeerMessage(n, m, env).node)
  {
    match m.Type()
    case PrePrepare => LadderOnPrePrepare(n, m, env);
    case Prepare => LadderOnPrepare(n, m, env);
    case Commit => LadderOnCommit(n, m, env);
    case ViewChange => LadderOnViewChange(n, m, env);
    case _ =>
  }

  // ---------- Blocks ----------

  lemma RoundOnBlockCommit(n: Node, id: BlockId, env: Env)
    requires n.state.Sound() && env.Valid()
    ensures var n' := OnBlockCommit(n, id, env);
            n' == n || (n'.state.phase == PrePreparing && n'.state.timeout.Running())
  {
  }

  /** With votes of one view the seal's messages are all added or none is. */
  lemma {:induction false} AddMessagesOfOneView(log: LogValue, ms: seq<ParsedMessage>, view: nat, w: nat)
    requires forall m :: m in ms ==> m.Type() == Commit && m.View() == w
    ensures w == view ==> AddMessagesOutcome(log, ms, view).Ok? && (forall m :: m in ms ==> m in AddMessages(log, ms, view).messages)
    ensures w != view && ms != [] ==> AddMessagesOutcome(log, ms, view).Err? && AddMessages(log, ms, view) == log
    decreases ms
  {
    if ms != [] {
      var log1 := log.AddMessage(ms[0], view);
      AddMessagesOfOneView(log1, ms[1..], view, w);
      AddMessagesAddsSome(log1, ms[1..], view);
    }
  }

  lemma SealMessagesAre(block: Block, seal: Seal, m: ParsedMessage)
    requires block.payload == Sealed(seal) && SealOfCommits(block) && m in SealMessages(seal)
    ensures m.Type() == Commit && m.View() == seal.votes[0].message.view && m.SeqNum() + 1 == block.blockNum
  {
    var ms := SealMessages(seal);
    var i :| 0 <= i < |ms| && ms[i] == m;
    assert seal.votes[i] in seal.votes;
  }

  lemma LadderCatchup(n: Node, block: Block, seal: Seal, env: Env)
    requires n.state.Sound() && env.Valid() && |seal.votes| > 0 && LadderInv(n)
    requires block.payload == Sealed(seal) && SealOfCommits(block)
    requires seal.previousId == block.previousId && seal.votes[0].message.block.blockId == seal.previousId
    ensures LadderInv(Catchup(n, block, seal, env).node)
  {
    if n.state.workingBlock.Some? && block.previousId == n.state.workingBlock.value.blockId {
      var ms := SealMessages(seal);
      var view := Max(n.state.view, ms[0].View());
      forall m | m in ms ensures m.Type() == Commit && m.View() == ms[0].View() {
        SealMessagesAre(block, seal, m);
      }
      AddMessagesOfOneView(n.log, ms, view, ms[0].View());
      var n1 := n.(state := n.state.(view := view), log := AddMessages(n.log, ms, view));
      var id := ms[0].Block().blockId;
      var n2 := CommitNow(n1.(state := n1.state.(phase := Committing)), id);
      RoundOnBlockCommit(n2, id, env);
    }
  }

  lemma LadderOnBlockNew(n: Node, block: Block, env: Env)
    requires n.state.Sound() && env.Valid() && LedgerInv(n) && LadderInv(n) && SealOfCommits(block)
    ensures LadderInv(OnBlockNew(n, block, env).node)
  {
    if block.blockNum >= n.state.seqNum {
      match VerifyConsensusSeal(n, block, env)
      case Failure(e) =>
        var n1 := n.Call(FailBlock(block.blockId));
        SameRoundKeepsLadder(n, n1);
        LadderPropose(n1, env);
      case Success(seal) =>
        var n1 := LogBlock(n, block, seal);
        LedgerLogBlock(n, block, seal);
        SameRoundKeepsLadder(n, n1);
        if block.blockNum == n.state.seqNum + 1 && n.state.phase != Finished {
          VerifiedSealHasVotes(n, block, env);
          assert seal.value.votes[0] in seal.value.votes;
          LadderCatchup(n1, block, seal.value, env);
        } else if block.blockNum == n.state.seqNum {
          LadderAdoptBlock(n1, block, env);
        }
    }
  }

  lemma LadderAdoptBlock(n: Node, block: Block, env: Env)
    requires n.state.Sound() && env.Valid() && LedgerInv(n) && LadderInv(n) && block.blockNum == n.state.seqNum
    requires HasBlockNew(n.log.messages, block.blockNum, PbftBlockFromBlock(block))
    ensures LadderInv(AdoptBlock(n, block, env).node)
  {
    var pbftBlock := PbftBlockFromBlock(block);
    var n1 := n.(state := n.state.(workingBlock := Some(pbftBlock)));
    assert LedgerInv(n1);
    SameRoundKeepsLadder(n, n1);
    if n.state.IsPrimary() && n.state.ExpectedType() == PrePrepare {
      var w := OwnMessage(n1, PrePrepare, n.state.seqNum, pbftBlock);
      var n2 := n1.Call(Broadcast(w));
      QuietKeepsLedger(n1, n2);
      SameRoundKeepsLadder(n1, n2);
      LadderOnPrePrepare(n2, SelfMessage(w), env);
    }
  }

  lemma LadderOnBlockValid(n: Node, id: BlockId, env: Env)
    requires n.state.Sound() && env.Valid() && LedgerInv(n) && LadderInv(n)
    ensures LadderInv(OnBlockValid(n, id, env).node)
  {
    if IsWorkingBlock(n, id) {
      var n1 := n.(state := n.state.SwitchPhase(Committing));
      if n1.state.ExpectedType() == Commit {
        var w := OwnMessage(n1, Commit, n.state.seqNum, n.state.workingBlock.value);
        var n2 := n1.Call(Broadcast(w));
        assert QuietlyExtends(n, n2);
        QuietKeepsLedger(n, n2);
        LadderOnCommit(n2, SelfMessage(w), env);
      }
    }
  }

  lemma LadderWorkingTick(n: Node, summary: Option<string>, env: Env)
    requires n.state.Sound() && env.Valid() && LadderInv(n)
    ensures LadderInv(WorkingTick(n, summary, env))
  {
    var n1 := TryPublish(n, summary, env).node;
    var n2 := n1.(state := n1.state.(timeout := n1.state.timeout.Checked(env.now)));
    SameRoundKeepsLadder(n, n2);
    LadderPropose(n2, env);
  }

  /** Every step keeps every node on the ladder, at rest, with its timer in step. */
  lemma LadderStep(n: Node, ev: Event, env: Env)
    requires n.state.Sound() && env.Valid() && LedgerInv(n) && LadderInv(n) && WellSealed(ev)
    ensures LadderInv(Step(n, ev, env))
  {
    match ev
    case UpdateBlockNew(block) => LadderOnBlockNew(n, block, env);
    case UpdateBlockValid(id) => LadderOnBlockValid(n, id, env);
    case UpdateBlockInvalid(id) => LadderPropose(n, env);
    case UpdateBlockCommit(id) =>
      RoundOnBlockCommit(n, id, env);
    case UpdatePeerMessage(header, message, sender) => LadderOnPeerMessage(n, ParsedMessage(header, message, false), env);
    case UpdateOther =>
    case TickWorking(summary) => LadderWorkingTick(n, summary, env);
    case TickBacklog =>
      if n.log.backlog != [] {
        var n1 := n.(log := n.log.(backlog := n.log.backlog[1..]));
        QuietKeepsLedger(n, n1);
        SameRoundKeepsLadder(n, n1);
        LadderOnPeerMessage(n1, n.log.backlog[0], env);
      }
  }
}
