/** Block bookkeeping and vote uniqueness: what every step keeps about announced blocks,
    accepted PrePrepares and the Prepares a node has ever broadcast. */
module Ledger {
  import opened Types
  import opened State
  import opened MessageLog
  import opened Protocol

  // ---------- Hypotheses on what is delivered ----------

  /** A delivered seal has the shape that build_seal gives it: Commit votes, all of one view,
      for the sequence number before the block's. */
  ghost predicate SealOfCommits(block: Block) {
    block.payload.Sealed? ==>
      var votes := block.payload.seal.votes;
      forall v :: v in votes ==> v.message.msgType == Commit && v.message.view == votes[0].message.view && v.message.seqNum + 1 == block.blockNum
  }

  ghost predicate WellSealed(ev: Event) {
    ev.UpdateBlockNew? ==> SealOfCommits(ev.block)
  }

  // ---------- The invariant ----------

  /** This node has broadcast a vote of this type for this block at this view and sequence number. */
  ghost predicate Sent(n: Node, t: MessageType, v: nat, s: nat, b: PbftBlock) {
    SentIn(n.calls, n.state.id, t, v, s, b)
  }

  ghost predicate SentIn(calls: seq<ServiceCall>, id: PeerId, t: MessageType, v: nat, s: nat, b: PbftBlock) {
    Broadcast(Message(PbftMessage(t, v, s, id, b))) in calls
  }

  ghost predicate HasPrePrepare(msgs: set<ParsedMessage>, s: nat, v: nat, b: PbftBlock) {
    exists m :: m in msgs && m.VotesFor(PrePrepare, s, v, b)
  }

  ghost predicate NoBlockNewAt(msgs: set<ParsedMessage>, s: nat) {
    forall m :: m in msgs && m.Type() == BlockNew ==> m.SeqNum() != s
  }

  ghost predicate BlockNewsNumbered(msgs: set<ParsedMessage>) {
    forall m :: m in msgs && m.Type() == BlockNew ==> m.Block().blockNum == m.SeqNum()
  }

  ghost predicate PrePreparesBacked(msgs: set<ParsedMessage>) {
    forall m :: m in msgs && m.Type() == PrePrepare ==> HasBlockNew(msgs, m.SeqNum(), m.Block())
  }

  ghost predicate PrePreparesAgree(msgs: set<ParsedMessage>) {
    forall m, k :: m in msgs && k in msgs && m.Type() == PrePrepare && k.Type() == PrePrepare && m.SeqNum() == k.SeqNum() && m.View() == k.View() ==>
      m.Block() == k.Block()
  }

  ghost predicate WorkingBlockLogged(n: Node) {
    n.state.workingBlock.Some? ==>
      && n.state.workingBlock.value.blockNum == n.state.seqNum
      && HasBlockNew(n.log.messages, n.state.seqNum, n.state.workingBlock.value)
  }

  /** A Prepare once sent is backed by its PrePrepare in the log, or its sequence number is
      past and can never be pre-prepared again because its announcements are gone. */
  ghost predicate PreparesRemembered(n: Node) {
    forall v: nat, s: nat, b :: SentIn(n.calls, n.state.id, Prepare, v, s, b) ==>
      || HasPrePrepare(n.log.messages, s, v, b)
      || (s + 1 < n.state.seqNum && NoBlockNewAt(n.log.messages, s))
  }

  ghost predicate PreparesUnique(n: Node) {
    forall v, s, b, c :: SentIn(n.calls, n.state.id, Prepare, v, s, b) && SentIn(n.calls, n.state.id, Prepare, v, s, c) ==> b == c
  }

  ghost predicate LedgerInv(n: Node) {
    && BlockNewsNumbered(n.log.messages)
    && PrePreparesBacked(n.log.messages)
    && PrePreparesAgree(n.log.messages)
    && WorkingBlockLogged(n)
    && PreparesRemembered(n)
    && PreparesUnique(n)
  }

  // ---------- Preservation ----------

  /** Only votes other than PrePrepares were logged, nothing was forgotten, no Prepare was
      sent, and the node still works on the same block or on none. */
  ghost predicate QuietlyExtends(n: Node, n': Node) {
    && n'.state.id == n.state.id
    && n'.state.seqNum == n.state.seqNum
    && (n'.state.workingBlock == n.state.workingBlock || n'.state.workingBlock.None?)
    && n.log.messages <= n'.log.messages
    && (forall m :: m in n'.log.messages && m !in n.log.messages ==> m.Type() != BlockNew && m.Type() != PrePrepare)
    && (forall v, s, b :: SentIn(n'.calls, n'.state.id, Prepare, v, s, b) ==> SentIn(n.calls, n.state.id, Prepare, v, s, b))
  }

  lemma QuietKeepsLedger(n: Node, n': Node)
    requires LedgerInv(n) && QuietlyExtends(n, n')
    ensures LedgerInv(n')
  {
    var msgs, msgs' := n.log.messages, n'.log.messages;
    assert forall s, b :: HasBlockNew(msgs, s, b) ==> HasBlockNew(msgs', s, b);
    assert forall s, v, b :: HasPrePrepare(msgs, s, v, b) ==> HasPrePrepare(msgs', s, v, b);
    forall m | m in msgs' && m.Type() == PrePrepare
      ensures HasBlockNew(msgs', m.SeqNum(), m.Block())
    {
      assert HasBlockNew(msgs, m.SeqNum(), m.Block());
    }
  }

  lemma QuietOnPrepare(n: Node, m: ParsedMessage, env: Env)
    requires n.state.Sound() && env.Valid() && m.Type() == Prepare
    ensures QuietlyExtends(n, OnPrepare(n, m, env).node)
  {
  }

  lemma QuietOnCommit(n: Node, m: ParsedMessage, env: Env)
    requires n.state.Sound() && env.Valid() && m.Type() == Commit
    ensures QuietlyExtends(n, OnCommit(n, m, env).node)
  {
  }

  lemma QuietViewChangeHandler(n: Node, m: ParsedMessage, env: Env)
    requires n.state.Sound()
    ensures QuietlyExtends(n, ViewChangeHandler(n, m, env))
  {
  }

  lemma QuietPropose(n: Node, env: Env)
    requires n.state.Sound()
    ensures QuietlyExtends(n, ProposeViewChange(n, env).node)
  {
  }

  lemma QuietTransitive(a: Node, b: Node, c: Node)
    requires QuietlyExtends(a, b) && QuietlyExtends(b, c)
    ensures QuietlyExtends(a, c)
  {
  }

  lemma QuietOnViewChange(n: Node, m: ParsedMessage, env: Env)
    requires n.state.Sound() && m.Type() == ViewChange
    ensures QuietlyExtends(n, OnViewChange(n, m, env).node)
  {
    var n1 := n.(log := n.log.AddMessage(m, n.state.view));
    assert QuietlyExtends(n, n1);
    var n2 := if n.state.mode == ViewChanging then n1 else ProposeViewChange(n1, env).node;
    QuietPropose(n1, env);
    QuietTransitive(n, n1, n2);
    QuietViewChangeHandler(n2, m, env);
    QuietTransitive(n, n2, ViewChangeHandler(n2, m, env));
  }

  /** What the handler has made sure of when it accepts a PrePrepare. */
  ghost predicate Admits(n: Node, m: ParsedMessage) {
    && m.Type() == PrePrepare
    && m.View() == n.state.view
    && HasBlockNew(n.log.messages, m.SeqNum(), m.Block())
    && PrePreparesAgree(n.log.messages + {m})
  }

  lemma NoProblemAdmits(n: Node, m: ParsedMessage, env: Env)
    requires n.state.Sound() && env.Valid() && m.Type() == PrePrepare && PrePreparesAgree(n.log.messages)
    requires PrePrepareProblem(n, m, env).None?
    ensures Admits(n, m)
  {
    var existing := GetOneMsg(n.log.messages, PrePrepare, m.SeqNum(), m.View(), env);
    forall k | k in n.log.messages && k.Type() == PrePrepare && m.SeqNum() == k.SeqNum() && m.View() == k.View()
      ensures k.Block() == m.Block()
    {
      assert k.At(PrePrepare, m.SeqNum(), m.View());
      assert existing.Some? && existing.value in n.log.messages;
    }
  }

  /** A PrePrepare that a node takes when it sees it. */
  ghost predicate Acceptable(n: Node, m: ParsedMessage)
    requires n.state.Sound()
  {
    && m.Type() == PrePrepare
    && m.SignerId() == n.state.PrimaryId()
    && m.View() == n.state.view
    && HasBlockNew(n.log.messages, m.SeqNum(), m.Block())
    && (forall k :: k in n.log.messages && k.At(PrePrepare, m.SeqNum(), m.View()) ==> k.Block() == m.Block())
  }

  /** Whatever the hash order, a PrePrepare is taken exactly if it is acceptable. */
  lemma AcceptedExactlyIfAcceptable(n: Node, m: ParsedMessage, env: Env)
    requires n.state.Sound() && env.Valid() && m.Type() == PrePrepare && PrePreparesAgree(n.log.messages)
    ensures PrePrepareProblem(n, m, env).None? <==> Acceptable(n, m)
    ensures Acceptable(n, m) ==> m in OnPrePrepare(n, m, env).node.log.messages
    ensures !Acceptable(n, m) ==> OnPrePrepare(n, m, env).node.log.messages == n.log.messages
  {
    var existing := GetOneMsg(n.log.messages, PrePrepare, m.SeqNum(), m.View(), env);
    assert existing.Some? ==> existing.value in n.log.messages;
    if PrePrepareProblem(n, m, env).None? {
      NoProblemAdmits(n, m, env);
      var n1 := WithPrePrepare(n, m, env.now);
      assert m in n1.log.messages;
      var w := OwnMessage(n1, Prepare, m.SeqNum(), m.Block());
      QuietOnPrepare(n1.Call(Broadcast(w)), SelfMessage(w), env);
    }
  }

  lemma LedgerWithPrePrepare(n: Node, m: ParsedMessage, now: int)
    requires n.state.Sound() && LedgerInv(n) && Admits(n, m)
    ensures LedgerInv(WithPrePrepare(n, m, now))
  {
    var msgs, msgs' := n.log.messages, n.log.messages + {m};
    assert forall s, b :: HasBlockNew(msgs, s, b) ==> HasBlockNew(msgs', s, b);
    assert forall s, v, b :: HasPrePrepare(msgs, s, v, b) ==> HasPrePrepare(msgs', s, v, b);
  }

  lemma LedgerSendPrepare(n: Node, m: ParsedMessage, env: Env)
    requires n.state.Sound() && env.Valid() && LedgerInv(n)
    requires m in n.log.messages && m.Type() == PrePrepare && m.View() == n.state.view
    ensures LedgerInv(SendPrepare(n, m, env).node)
  {
    if n.state.ExpectedType() == Prepare {
      var w := OwnMessage(n, Prepare, m.SeqNum(), m.Block());
      var n1 := n.Call(Broadcast(w));
      SendingPrepare(n, m);
      QuietOnPrepare(n1, SelfMessage(w), env);
      QuietKeepsLedger(n1, OnPrepare(n1, SelfMessage(w), env).node);
    }
  }

  lemma LedgerOnPrePrepare(n: Node, m: ParsedMessage, env: Env)
    requires n.state.Sound() && env.Valid() && m.Type() == PrePrepare && LedgerInv(n)
    ensures LedgerInv(OnPrePrepare(n, m, env).node)
  {
    if PrePrepareProblem(n, m, env).None? {
      NoProblemAdmits(n, m, env);
      LedgerWithPrePrepare(n, m, env.now);
      LedgerSendPrepare(WithPrePrepare(n, m, env.now), m, env);
    }
  }

  /** Broadcasting a Prepare for an accepted PrePrepare contradicts no earlier Prepare. */
  lemma SendingPrepare(n: Node, m: ParsedMessage)
    requires LedgerInv(n) && m in n.log.messages && m.Type() == PrePrepare && m.View() == n.state.view
    ensures LedgerInv(n.Call(Broadcast(OwnMessage(n, Prepare, m.SeqNum(), m.Block()))))
  {
    var w := OwnMessage(n, Prepare, m.SeqNum(), m.Block());
    var n1 := n.Call(Broadcast(w));
    assert m.VotesFor(PrePrepare, m.SeqNum(), m.View(), m.Block());
    assert HasPrePrepare(n.log.messages, m.SeqNum(), m.View(), m.Block());
    forall b | SentIn(n.calls, n.state.id, Prepare, m.View(), m.SeqNum(), b)
      ensures b == m.Block()
    {
      assert HasBlockNew(n.log.messages, m.SeqNum(), m.Block());
      assert HasPrePrepare(n.log.messages, m.SeqNum(), m.View(), b);
    }
    assert forall v, s, b :: SentIn(n1.calls, n1.state.id, Prepare, v, s, b) ==>
        SentIn(n.calls, n.state.id, Prepare, v, s, b) || (v == m.View() && s == m.SeqNum() && b == m.Block());
  }

  lemma LedgerOnPeerMessage(n: Node, m: ParsedMessage, env: Env)
    requires n.state.Sound() && env.Valid() && LedgerInv(n)
    ensures LedgerInv(OnPeerMessage(n, m, env).node)
  {
    var n' := OnPeerMessage(n, m, env).node;
    match m.Type() {
      case PrePrepare => LedgerOnPrePrepare(n, m, env);
      case Prepare => QuietOnPrepare(n, m, env); QuietKeepsLedger(n, n');
      case Commit => QuietOnCommit(n, m, env); QuietKeepsLedger(n, n');
      case ViewChange => QuietOnViewChange(n, m, env); QuietKeepsLedger(n, n');
      case _ =>
    }
  }

  /** Pruning drops whole sequence numbers, and only past ones. */
  lemma LedgerGarbageCollect(n: Node, id: BlockId)
    requires n.state.Sound() && LedgerInv(n)
    ensures LedgerInv(n.(log := n.log.GarbageCollect(n.state.seqNum, id)))
  {
    var n' := n.(log := n.log.GarbageCollect(n.state.seqNum, id));
    var msgs, msgs' := n.log.messages, n'.log.messages;
    if msgs' != msgs {
      assert forall m :: m in msgs' <==> m in msgs && m.SeqNum() >= n.state.seqNum - 1;
      assert forall s: nat, b :: HasBlockNew(msgs, s, b) && s >= n.state.seqNum - 1 ==> HasBlockNew(msgs', s, b);
      forall v: nat, s: nat, b | SentIn(n.calls, n.state.id, Prepare, v, s, b)
        ensures HasPrePrepare(msgs', s, v, b) || (s + 1 < n.state.seqNum && NoBlockNewAt(msgs', s))
      {
        if s + 1 >= n.state.seqNum {
          assert HasPrePrepare(msgs, s, v, b);
          assert HasPrePrepare(msgs', s, v, b);
        }
      }
    }
  }

  lemma LedgerOnBlockCommit(n: Node, id: BlockId, env: Env)
    requires n.state.Sound() && env.Valid() && LedgerInv(n)
    ensures LedgerInv(OnBlockCommit(n, id, env))
  {
    if n.state.phase == Finished && IsWorkingBlock(n, id) {
      var n1 := n.(state := NextBlock(n, env));
      LedgerNextBlock(n, env);
      var n2 := RotateIfDue(n1, id, env);
      assert QuietlyExtends(n1, n2);
      QuietKeepsLedger(n1, n2);
      LedgerGarbageCollect(n2, id);
      var n3 := n2.(log := n2.log.GarbageCollect(n2.state.seqNum, id));
      QuietKeepsLedger(n3, Settle(n2, id, env.now));
    }
  }

  lemma LedgerNextBlock(n: Node, env: Env)
    requires n.state.Sound() && env.Valid() && LedgerInv(n)
    ensures LedgerInv(n.(state := NextBlock(n, env)))
  {
    var n1 := n.(state := NextBlock(n, env));
    var next := env.First(OfTypeSeq(n.log.messages, BlockNew, n.state.seqNum + 1));
    if next.Some? {
      assert HasBlockNew(n1.log.messages, n1.state.seqNum, next.value.Block());
    }
  }

  /** Adding messages in turn adds a part of them. */
  lemma {:induction false} AddMessagesAddsSome(log: LogValue, ms: seq<ParsedMessage>, view: nat)
    ensures var log' := AddMessages(log, ms, view);
            && log'.(messages := log.messages) == log
            && log.messages <= log'.messages
            && (forall m :: m in log'.messages ==> m in log.messages || m in ms)
    decreases ms
  {
    if ms == [] || log.Refuses(ms[0], view) {
    } else {
      AddMessagesAddsSome(log.AddMessage(ms[0], view), ms[1..], view);
    }
  }

  lemma LedgerCatchup(n: Node, block: Block, seal: Seal, env: Env)
    requires n.state.Sound() && env.Valid() && |seal.votes| > 0 && LedgerInv(n)
    requires block.payload == Sealed(seal) && SealOfCommits(block)
    ensures LedgerInv(Catchup(n, block, seal, env).node)
  {
    var ms := SealMessages(seal);
    var view := Max(n.state.view, ms[0].View());
    var n1 := n.(state := n.state.(view := view), log := AddMessages(n.log, ms, view));
    AddMessagesAddsSome(n.log, ms, view);
    forall m | m in ms ensures m.Type() == Commit {
      var i :| 0 <= i < |ms| && ms[i] == m;
      assert seal.votes[i] in seal.votes;
    }
    assert QuietlyExtends(n, n1);
    QuietKeepsLedger(n, n1);
    var id := ms[0].Block().blockId;
    var n2 := CommitNow(n1.(state := n1.state.(phase := Committing)), id);
    QuietKeepsLedger(n1, n2);
    LedgerOnBlockCommit(n2, id, env);
  }

  lemma LedgerLogBlock(n: Node, block: Block, seal: Option<Seal>)
    requires LedgerInv(n) && block.blockNum >= n.state.seqNum
    ensures LedgerInv(LogBlock(n, block, seal))
    ensures HasBlockNew(LogBlock(n, block, seal).log.messages, block.blockNum, PbftBlockFromBlock(block))
  {
    var n1 := LogBlock(n, block, seal);
    var m := BlockNewMessage(n, block);
    var msgs, msgs' := n.log.messages, n1.log.messages;
    assert msgs' == msgs + {m};
    assert forall s, b :: HasBlockNew(msgs, s, b) ==> HasBlockNew(msgs', s, b);
    assert forall s, v, b :: HasPrePrepare(msgs, s, v, b) ==> HasPrePrepare(msgs', s, v, b);
  }

  lemma LedgerAdoptBlock(n: Node, block: Block, env: Env)
    requires n.state.Sound() && env.Valid() && LedgerInv(n) && block.blockNum == n.state.seqNum
    requires HasBlockNew(n.log.messages, block.blockNum, PbftBlockFromBlock(block))
    ensures LedgerInv(AdoptBlock(n, block, env).node)
  {
    var pbftBlock := PbftBlockFromBlock(block);
    var n1 := n.(state := n.state.(workingBlock := Some(pbftBlock)));
    assert LedgerInv(n1);
    if n.state.IsPrimary() && n.state.ExpectedType() == PrePrepare {
      var w := OwnMessage(n1, PrePrepare, n.state.seqNum, pbftBlock);
      QuietKeepsLedger(n1, n1.Call(Broadcast(w)));
      LedgerOnPrePrepare(n1.Call(Broadcast(w)), SelfMessage(w), env);
    }
  }

  lemma LedgerOnBlockNew(n: Node, block: Block, env: Env)
    requires n.state.Sound() && env.Valid() && LedgerInv(n) && SealOfCommits(block)
    ensures LedgerInv(OnBlockNew(n, block, env).node)
  {
    if block.blockNum >= n.state.seqNum {
      match VerifyConsensusSeal(n, block, env)
      case Failure(e) =>
        var n1 := n.Call(FailBlock(block.blockId));
        QuietPropose(n1, env);
        QuietTransitive(n, n1, ProposeViewChange(n1, env).node);
        QuietKeepsLedger(n, ProposeViewChange(n1, env).node);
      case Success(seal) =>
        var n1 := LogBlock(n, block, seal);
        LedgerLogBlock(n, block, seal);
        if block.blockNum == n.state.seqNum + 1 && n.state.phase != Finished {
          VerifiedSealHasVotes(n, block, env);
          LedgerCatchup(n1, block, seal.value, env);
        } else if block.blockNum == n.state.seqNum {
          LedgerAdoptBlock(n1, block, env);
        }
    }
  }

  lemma LedgerOnBlockValid(n: Node, id: BlockId, env: Env)
    requires n.state.Sound() && env.Valid() && LedgerInv(n)
    ensures LedgerInv(OnBlockValid(n, id, env).node)
  {
    var n' := OnBlockValid(n, id, env).node;
    if n.state.workingBlock.Some? {
      var n1 := n.(state := n.state.SwitchPhase(Committing));
      var w := OwnMessage(n1, Commit, n.state.seqNum, n.state.workingBlock.value);
      var n2 := n1.Call(Broadcast(w));
      QuietOnCommit(n2, SelfMessage(w), env);
      assert QuietlyExtends(n, n2);
      QuietTransitive(n, n2, OnCommit(n2, SelfMessage(w), env).node);
    }
    assert QuietlyExtends(n, n');
    QuietKeepsLedger(n, n');
  }

  lemma LedgerWorkingTick(n: Node, summary: Option<string>, env: Env)
    requires n.state.Sound() && env.Valid() && LedgerInv(n)
    ensures LedgerInv(WorkingTick(n, summary, env))
  {
    var n1 := TryPublish(n, summary, env).node;
    var n2 := n1.(state := n1.state.(timeout := n1.state.timeout.Checked(env.now)));
    assert QuietlyExtends(n, n2);
    QuietPropose(n2, env);
    QuietTransitive(n, n2, ProposeViewChange(n2, env).node);
    QuietKeepsLedger(n, WorkingTick(n, summary, env));
  }

  /** Every step keeps the ledger. */
  lemma LedgerStep(n: Node, ev: Event, env: Env)
    requires n.state.Sound() && env.Valid() && LedgerInv(n) && WellSealed(ev)
    ensures LedgerInv(Step(n, ev, env))
  {
    match ev
    case UpdateBlockNew(block) => LedgerOnBlockNew(n, block, env);
    case UpdateBlockValid(id) => LedgerOnBlockValid(n, id, env);
    case UpdateBlockInvalid(id) => QuietPropose(n, env); QuietKeepsLedger(n, ProposeViewChange(n, env).node);
    case UpdateBlockCommit(id) => LedgerOnBlockCommit(n, id, env);
    case UpdatePeerMessage(header, message, sender) => LedgerOnPeerMessage(n, ParsedMessage(header, message, false), env);
    case UpdateOther =>
    case TickWorking(summary) => LedgerWorkingTick(n, summary, env);
    case TickBacklog =>
      if n.log.backlog != [] {
        var n1 := n.(log := n.log.(backlog := n.log.backlog[1..]));
        QuietKeepsLedger(n, n1);
        LedgerOnPeerMessage(n1, n.log.backlog[0], env);
      }
  }
}
