/** Progress in the normal case: a node that waits for a block, is given it with its PrePrepare, and
    then hears 2f Prepares and 2f Commits from others, whatever their order, commits exactly that
    block and goes on to the next. */
module Progress {
  import opened Types
  import opened State
  import opened MessageLog
  import opened Protocol
  import opened Ledger
  import opened Quorums
  import opened Commits
  import opened Runs

  // ---------- What one message does to a node ----------

  function WithMessage(n: Node, m: ParsedMessage): Node {
    n.(log := n.log.(messages := n.log.messages + {m}))
  }

  lemma PrePrepareIsAnswered(n: Node, m: ParsedMessage, env: Env)
    requires n.state.Sound() && env.Valid() && PrePreparesAgree(n.log.messages) && Acceptable(n, m)
    requires m.SeqNum() == n.state.seqNum && n.state.phase == PrePreparing
    requires var own := OwnMessage(n, Prepare, m.SeqNum(), m.Block());
             !Prepared(n.log.messages + {m} + {SelfMessage(own)}, n.state.seqNum, n.state.view, n.state.f)
    ensures var own := OwnMessage(n, Prepare, m.SeqNum(), m.Block());
            OnPrePrepare(n, m, env).node
            == WithMessage(WithMessage(n, m), SelfMessage(own)).(
                 state := n.state.(phase := Preparing, timeout := n.state.timeout.Stopped(env.now)), calls := n.calls + [Broadcast(own)])
  {
    AcceptedExactlyIfAcceptable(n, m, env);
    NoProblemAdmits(n, m, env);
    var own := SelfMessage(OwnMessage(n, Prepare, m.SeqNum(), m.Block()));
    OneVoteMore(n.log.messages + {m}, own);
    ChecksMeanCertificates(n.log.messages + {m} + {own}, n.state.seqNum, n.state.view, n.state.f, env);
  }

  lemma OneVoteMore(msgs: set<ParsedMessage>, m: ParsedMessage)
    requires PrePreparesAgree(msgs) && m.Type() != PrePrepare
    ensures PrePreparesAgree(msgs + {m})
  {
  }

  lemma PrepareIsCounted(n: Node, m: ParsedMessage, env: Env)
    requires n.state.Sound() && env.Valid() && PrePreparesAgree(n.log.messages) && m.At(Prepare, n.state.seqNum, n.state.view)
    requires n.state.phase == Preparing
    ensures OnPrepare(n, m, env).node ==
            if Prepared(n.log.messages + {m}, n.state.seqNum, n.state.view, n.state.f)
            then WithMessage(n, m).(state := n.state.(phase := Checking), calls := n.calls + [CheckBlocks(m.Block().blockId)])
            else WithMessage(n, m)
  {
    OneVoteMore(n.log.messages, m);
    ChecksMeanCertificates(n.log.messages + {m}, n.state.seqNum, n.state.view, n.state.f, env);
  }

  lemma CommitIsCounted(n: Node, m: ParsedMessage, env: Env)
    requires n.state.Sound() && env.Valid() && PrePreparesAgree(n.log.messages) && m.At(Commit, n.state.seqNum, n.state.view)
    ensures OnCommit(n, m, env).node ==
            if n.state.phase == Committing && Committable(n.log.messages + {m}, n.state.seqNum, n.state.view, n.state.f)
            then WithMessage(n, m).(state := n.state.(phase := Finished), calls := n.calls + [CommitBlock(m.Block().blockId, n.state.view, n.state.seqNum)])
            else WithMessage(n, m)
  {
    OneVoteMore(n.log.messages, m);
    ChecksMeanCertificates(n.log.messages + {m}, n.state.seqNum, n.state.view, n.state.f, env);
  }

  // ---------- What many votes do ----------

  /** These are votes for one block, none twice and none logged before. */
  ghost predicate NewVotes(ms: seq<ParsedMessage>, msgs: set<ParsedMessage>, t: MessageType, s: nat, v: nat, b: PbftBlock) {
    && (forall i, j :: 0 <= i < j < |ms| ==> ms[i] != ms[j])
    && (forall m :: m in ms ==> m.VotesFor(t, s, v, b) && m !in msgs && !m.fromSelf)
  }

  ghost function Elements(ms: seq<ParsedMessage>): set<ParsedMessage> {
    set m | m in ms
  }

  lemma FirstVote(ms: seq<ParsedMessage>, msgs: set<ParsedMessage>, t: MessageType, s: nat, v: nat, b: PbftBlock)
    requires ms != [] && NewVotes(ms, msgs, t, s, v, b)
    ensures NewVotes(ms[1..], msgs + {ms[0]}, t, s, v, b)
    ensures |VotesFor(msgs + {ms[0]}, t, s, v, b)| == |VotesFor(msgs, t, s, v, b)| + 1
    ensures msgs + {ms[0]} + Elements(ms[1..]) == msgs + Elements(ms)
  {
    assert VotesFor(msgs + {ms[0]}, t, s, v, b) == VotesFor(msgs, t, s, v, b) + {ms[0]};
    assert ms == [ms[0]] + ms[1..];
  }

  /** With one block pre-prepared, certificates are a matter of counting. */
  lemma CertificatesCount(msgs: set<ParsedMessage>, s: nat, v: nat, f: nat, b: PbftBlock, env: Env)
    requires env.Valid() && PrePreparesAgree(msgs) && HasPrePrepare(msgs, s, v, b)
    ensures Prepared(msgs, s, v, f) <==> |VotesFor(msgs, Prepare, s, v, b)| >= 2 * f + 1
    ensures Committable(msgs, s, v, f) <==> |VotesFor(msgs, Prepare, s, v, b)| >= 2 * f + 1 && |VotesFor(msgs, Commit, s, v, b)| >= 2 * f + 1
  {
    ChecksMeanCertificates(msgs, s, v, f, env);
    assert PreparedFor(msgs, s, v, f, b) <==> |VotesFor(msgs, Prepare, s, v, b)| >= 2 * f + 1;
    assert CommittableFor(msgs, s, v, f, b) <==> |VotesFor(msgs, Prepare, s, v, b)| >= 2 * f + 1 && |VotesFor(msgs, Commit, s, v, b)| >= 2 * f + 1;
  }

  /** The node after these messages, one by one. */
  ghost function Hear(n: Node, ms: seq<ParsedMessage>, env: Env): (r: Node)
    requires n.state.Sound() && env.Valid()
    ensures r.state.Sound()
    decreases ms
  {
    if ms == [] then n else Hear(OnPeerMessage(n, ms[0], env).node, ms[1..], env)
  }

  lemma {:induction false} HearingIsReachable(n: Node, ms: seq<ParsedMessage>, env: Env)
    requires Reachable(n) && n.state.Sound() && env.Valid() && forall m :: m in ms ==> !m.fromSelf
    ensures Reachable(Hear(n, ms, env))
    decreases ms
  {
    if ms != [] {
      MessageIsReachable(n, ms[0], env);
      HearingIsReachable(OnPeerMessage(n, ms[0], env).node, ms[1..], env);
    }
  }

  /** The Prepares that complete the certificate take the node to Checking, with the last of them. */
  lemma {:induction false} HearPrepares(n: Node, ms: seq<ParsedMessage>, b: PbftBlock, env: Env)
    requires n.state.Sound() && env.Valid() && PrePreparesAgree(n.log.messages) && n.state.phase == Preparing
    requires HasPrePrepare(n.log.messages, n.state.seqNum, n.state.view, b) && NewVotes(ms, n.log.messages, Prepare, n.state.seqNum, n.state.view, b)
    requires ms != [] && |VotesFor(n.log.messages, Prepare, n.state.seqNum, n.state.view, b)| + |ms| == 2 * n.state.f + 1
    ensures Hear(n, ms, env) ==
            n.(state := n.state.(phase := Checking), log := n.log.(messages := n.log.messages + Elements(ms)), calls := n.calls + [CheckBlocks(b.blockId)])
    decreases ms
  {
    var s, v, m := n.state.seqNum, n.state.view, ms[0];
    FirstVote(ms, n.log.messages, Prepare, s, v, b);
    CertificatesCount(n.log.messages + {m}, s, v, n.state.f, b, env);
    PrepareIsCounted(n, m, env);
    if |ms| > 1 {
      HearPrepares(WithMessage(n, m), ms[1..], b, env);
    } else {
      assert Elements(ms[1..]) == {};
    }
  }

  /** The Commits that complete the certificate make the node commit, with the last of them. */
  lemma {:induction false} HearCommits(n: Node, ms: seq<ParsedMessage>, b: PbftBlock, env: Env)
    requires n.state.Sound() && env.Valid() && PrePreparesAgree(n.log.messages) && n.state.phase == Committing
    requires PreparedFor(n.log.messages, n.state.seqNum, n.state.view, n.state.f, b)
    requires NewVotes(ms, n.log.messages, Commit, n.state.seqNum, n.state.view, b)
    requires ms != [] && |VotesFor(n.log.messages, Commit, n.state.seqNum, n.state.view, b)| + |ms| == 2 * n.state.f + 1
    ensures Hear(n, ms, env) ==
            n.(state := n.state.(phase := Finished), log := n.log.(messages := n.log.messages + Elements(ms)),
               calls := n.calls + [CommitBlock(b.blockId, n.state.view, n.state.seqNum)])
    decreases ms
  {
    var s, v, m := n.state.seqNum, n.state.view, ms[0];
    FirstVote(ms, n.log.messages, Commit, s, v, b);
    CertificatesGrow(n.log.messages, n.log.messages + {m}, s, v, n.state.f, b);
    CertificatesCount(n.log.messages + {m}, s, v, n.state.f, b, env);
    CommitIsCounted(n, m, env);
    if |ms| > 1 {
      HearCommits(WithMessage(n, m), ms[1..], b, env);
    } else {
      assert Elements(ms[1..]) == {};
    }
  }

  // ---------- A whole round ----------

  /** The node waits at the beginning of a round of which nothing is logged yet. */
  ghost predicate Waits(n: Node) {
    && n.state.phase == PrePreparing
    && forall m :: m in n.log.messages && m.SeqNum() == n.state.seqNum && m.View() == n.state.view ==> !m.Type().IsMulticast()
  }

  /** The block of the round, which verifies, and its PrePrepare from the primary. */
  ghost predicate Offered(n: Node, block: Block, pp: ParsedMessage, env: Env)
    requires n.state.Sound()
  {
    && block.blockNum == n.state.seqNum && VerifyConsensusSeal(n, block, env).Success?
    && pp.VotesFor(PrePrepare, n.state.seqNum, n.state.view, PbftBlockFromBlock(block)) && pp.SignerId() == n.state.PrimaryId() && !pp.fromSelf
  }

  ghost function Opened(n: Node, block: Block, pp: ParsedMessage, env: Env): (r: Node)
    requires n.state.Sound() && env.Valid()
    ensures r.state.Sound()
  {
    OnPeerMessage(OnBlockNew(n, block, env).node, pp, env).node
  }

  ghost function OwnVote(n: Node, t: MessageType, b: PbftBlock): Wrapper {
    OwnMessage(n, t, n.state.seqNum, b)
  }

  lemma RoundOpens(n: Node, block: Block, pp: ParsedMessage, env: Env)
    requires n.state.Sound() && env.Valid() && PrePreparesAgree(n.log.messages) && Waits(n) && !n.state.IsPrimary() && Offered(n, block, pp, env)
    ensures var b := PbftBlockFromBlock(block); var a := LogBlock(n, block, VerifyConsensusSeal(n, block, env).value);
            Opened(n, block, pp, env) ==
            n.(state := n.state.(workingBlock := Some(b), phase := Preparing, timeout := n.state.timeout.Stopped(env.now)),
               log := a.log.(messages := a.log.messages + {pp} + {SelfMessage(OwnVote(n, Prepare, b))}),
               calls := n.calls + [Broadcast(OwnVote(n, Prepare, b))])
  {
    var b := PbftBlockFromBlock(block);
    var a := LogBlock(n, block, VerifyConsensusSeal(n, block, env).value);
    var n1 := a.(state := a.state.(workingBlock := Some(b)));
    assert BlockNewMessage(n, block) in n1.log.messages;
    assert forall m :: m in n1.log.messages && m.Type().IsMulticast() ==> m in n.log.messages;
    OwnPrepareAlone(n1, pp, SelfMessage(OwnVote(n, Prepare, b)), b, env);
    PrePrepareIsAnswered(n1, pp, env);
  }

  lemma OwnPrepareAlone(n: Node, pp: ParsedMessage, own: ParsedMessage, b: PbftBlock, env: Env)
    requires n.state.Sound() && env.Valid() && PrePreparesAgree(n.log.messages) && Waits(n)
    requires pp.VotesFor(PrePrepare, n.state.seqNum, n.state.view, b) && own.VotesFor(Prepare, n.state.seqNum, n.state.view, b)
    ensures var msgs := n.log.messages + {pp} + {own};
            && PrePreparesAgree(msgs) && HasPrePrepare(msgs, n.state.seqNum, n.state.view, b)
            && VotesFor(msgs, Prepare, n.state.seqNum, n.state.view, b) == {own} && VotesFor(msgs, Commit, n.state.seqNum, n.state.view, b) == {}
            && !Prepared(msgs, n.state.seqNum, n.state.view, n.state.f)
  {
    var msgs := n.log.messages + {pp} + {own};
    assert pp in msgs;
    CertificatesCount(msgs, n.state.seqNum, n.state.view, n.state.f, b, env);
  }

  /** The primary of the view proposes the block that it is given. */
  lemma RoundIsProposed(n: Node, block: Block, env: Env)
    requires n.state.Sound() && env.Valid() && PrePreparesAgree(n.log.messages) && Waits(n) && n.state.IsPrimary() && n.state.id == n.state.PrimaryId()
    requires block.blockNum == n.state.seqNum && VerifyConsensusSeal(n, block, env).Success?
    ensures var b := PbftBlockFromBlock(block); var a := LogBlock(n, block, VerifyConsensusSeal(n, block, env).value);
            OnBlockNew(n, block, env).node ==
            n.(state := n.state.(workingBlock := Some(b), phase := Preparing, timeout := n.state.timeout.Stopped(env.now)),
               log := a.log.(messages := a.log.messages + {SelfMessage(OwnVote(n, PrePrepare, b))} + {SelfMessage(OwnVote(n, Prepare, b))}),
               calls := n.calls + [Broadcast(OwnVote(n, PrePrepare, b))] + [Broadcast(OwnVote(n, Prepare, b))])
  {
    var b := PbftBlockFromBlock(block);
    var a := LogBlock(n, block, VerifyConsensusSeal(n, block, env).value);
    var w := OwnVote(n, PrePrepare, b);
    var n1 := a.(state := a.state.(workingBlock := Some(b))).Call(Broadcast(w));
    assert BlockNewMessage(n, block) in n1.log.messages;
    assert forall m :: m in n1.log.messages && m.Type().IsMulticast() ==> m in n.log.messages;
    OwnPrepareAlone(n1, SelfMessage(w), SelfMessage(OwnVote(n, Prepare, b)), b, env);
    PrePrepareIsAnswered(n1, SelfMessage(w), env);
  }

  /** A block found valid in Checking, before enough Commits are there. */
  lemma ValidIsAnswered(n: Node, env: Env)
    requires n.state.Sound() && env.Valid() && PrePreparesAgree(n.log.messages) && n.state.workingBlock.Some? && n.state.phase == Checking
    requires !Committable(n.log.messages + {SelfMessage(OwnVote(n, Commit, n.state.workingBlock.value))}, n.state.seqNum, n.state.view, n.state.f)
    ensures var own := OwnVote(n, Commit, n.state.workingBlock.value);
            OnBlockValid(n, n.state.workingBlock.value.blockId, env).node
            == WithMessage(n, SelfMessage(own)).(state := n.state.(phase := Committing), calls := n.calls + [Broadcast(own)])
  {
    ValidBlockSends(n, n.state.workingBlock.value.blockId, env);
    CommitIsCounted(WithOwnCommit(n), SelfMessage(OwnVote(n, Commit, n.state.workingBlock.value)), env);
  }

  /** The node has answered the PrePrepare for `b`, and of the votes has only its own Prepare. */
  ghost predicate OwnPrepareOnly(n: Node, b: PbftBlock) {
    var msgs, s, v := n.log.messages, n.state.seqNum, n.state.view;
    && n.state.phase == Preparing && n.state.workingBlock == Some(b)
    && PrePreparesAgree(msgs) && HasPrePrepare(msgs, s, v, b)
    && |VotesFor(msgs, Prepare, s, v, b)| == 1 && VotesFor(msgs, Commit, s, v, b) == {}
  }

  /** The node has prepared `b`, and of the Commits has only its own. */
  ghost predicate OwnCommitOnly(n: Node, b: PbftBlock) {
    var msgs, s, v := n.log.messages, n.state.seqNum, n.state.view;
    && n.state.phase == Committing && n.state.workingBlock == Some(b)
    && PrePreparesAgree(msgs) && PreparedFor(msgs, s, v, n.state.f, b)
    && |VotesFor(msgs, Commit, s, v, b)| == 1
  }

  lemma OpenedRound(n: Node, block: Block, pp: ParsedMessage, env: Env)
    requires n.state.Sound() && env.Valid() && PrePreparesAgree(n.log.messages) && Waits(n) && !n.state.IsPrimary() && Offered(n, block, pp, env)
    ensures OwnPrepareOnly(Opened(n, block, pp, env), PbftBlockFromBlock(block))
  {
    RoundOpens(n, block, pp, env);
    var a := LogBlock(n, block, VerifyConsensusSeal(n, block, env).value);
    assert forall m :: m in a.log.messages && m.Type().IsMulticast() ==> m in n.log.messages;
    OwnPrepareAlone(a, pp, SelfMessage(OwnVote(n, Prepare, PbftBlockFromBlock(block))), PbftBlockFromBlock(block), env);
  }

  lemma ProposedRound(n: Node, block: Block, env: Env)
    requires n.state.Sound() && env.Valid() && PrePreparesAgree(n.log.messages) && Waits(n) && n.state.IsPrimary() && n.state.id == n.state.PrimaryId()
    requires block.blockNum == n.state.seqNum && VerifyConsensusSeal(n, block, env).Success?
    ensures OwnPrepareOnly(OnBlockNew(n, block, env).node, PbftBlockFromBlock(block))
  {
    RoundIsProposed(n, block, env);
    var b := PbftBlockFromBlock(block);
    var a := LogBlock(n, block, VerifyConsensusSeal(n, block, env).value);
    assert forall m :: m in a.log.messages && m.Type().IsMulticast() ==> m in n.log.messages;
    OwnPrepareAlone(a, SelfMessage(OwnVote(n, PrePrepare, b)), SelfMessage(OwnVote(n, Prepare, b)), b, env);
  }

  /** From Preparing to Committing: the certificate of Prepares, and the validator's answer. */
  lemma RoundPrepares(n: Node, b: PbftBlock, prepares: seq<ParsedMessage>, env: Env)
    requires n.state.Sound() && env.Valid() && OwnPrepareOnly(n, b)
    requires NewVotes(prepares, n.log.messages, Prepare, n.state.seqNum, n.state.view, b) && |prepares| == 2 * n.state.f
    ensures var own := OwnVote(n, Commit, b); var n' := OnBlockValid(Hear(n, prepares, env), b.blockId, env).node;
            && OwnCommitOnly(n', b)
            && n' == n.(state := n.state.(phase := Committing), log := n.log.(messages := n.log.messages + Elements(prepares) + {SelfMessage(own)}),
                        calls := n.calls + [CheckBlocks(b.blockId)] + [Broadcast(own)])
  {
    HearPrepares(n, prepares, b, env);
    var n2 := Hear(n, prepares, env);
    var own := SelfMessage(OwnVote(n, Commit, b));
    PreparesOnly(n.log.messages, prepares, n.state.seqNum, n.state.view, b, own);
    CountElements(prepares, n.log.messages, Prepare, n.state.seqNum, n.state.view, b);
    CertificatesCount(n2.log.messages + {own}, n.state.seqNum, n.state.view, n.state.f, b, env);
    ValidIsAnswered(n2, env);
  }

  lemma PreparesOnly(msgs: set<ParsedMessage>, prepares: seq<ParsedMessage>, s: nat, v: nat, b: PbftBlock, own: ParsedMessage)
    requires PrePreparesAgree(msgs) && HasPrePrepare(msgs, s, v, b) && own.VotesFor(Commit, s, v, b) && VotesFor(msgs, Commit, s, v, b) == {}
    requires forall m :: m in prepares ==> m.VotesFor(Prepare, s, v, b)
    ensures var msgs' := msgs + Elements(prepares);
            && PrePreparesAgree(msgs') && PrePreparesAgree(msgs' + {own}) && HasPrePrepare(msgs' + {own}, s, v, b)
            && VotesFor(msgs' + {own}, Commit, s, v, b) == {own}
            && VotesFor(msgs' + {own}, Prepare, s, v, b) == VotesFor(msgs', Prepare, s, v, b)
  {
    var msgs' := msgs + Elements(prepares);
    assert forall m :: m in msgs' + {own} && m.Type() == PrePrepare ==> m in msgs;
    CertificatesGrow(msgs, msgs' + {own}, s, v, 0, b);
  }

  lemma {:induction false} CountElements(ms: seq<ParsedMessage>, msgs: set<ParsedMessage>, t: MessageType, s: nat, v: nat, b: PbftBlock)
    requires NewVotes(ms, msgs, t, s, v, b)
    ensures |VotesFor(msgs + Elements(ms), t, s, v, b)| == |VotesFor(msgs, t, s, v, b)| + |ms|
    decreases ms
  {
    if ms == [] {
      assert msgs + Elements(ms) == msgs;
    } else {
      FirstVote(ms, msgs, t, s, v, b);
      CountElements(ms[1..], msgs + {ms[0]}, t, s, v, b);
    }
  }

  ghost function Ended(n: Node, id: BlockId, commits: seq<ParsedMessage>, env: Env): Node
    requires n.state.Sound() && env.Valid()
  {
    OnBlockCommit(Hear(n, commits, env), id, env)
  }

  /** From Committing to the next round: the certificate of Commits, and the validator's word. */
  lemma RoundCommits(n: Node, b: PbftBlock, commits: seq<ParsedMessage>, env: Env)
    requires n.state.Sound() && env.Valid() && OwnCommitOnly(n, b)
    requires NewVotes(commits, n.log.messages, Commit, n.state.seqNum, n.state.view, b) && |commits| == 2 * n.state.f
    ensures var n' := Ended(n, b.blockId, commits, env);
            && CommitCalls(n'.calls) == CommitCalls(n.calls) + [CommitBlock(b.blockId, n.state.view, n.state.seqNum)]
            && n'.state.seqNum == n.state.seqNum + 1 && n'.state.phase == PrePreparing
  {
    HearCommits(n, commits, b, env);
    CommitCallsAfter(n, CommitBlock(b.blockId, n.state.view, n.state.seqNum));
    AdvanceOnBlockCommit(Hear(n, commits, env), b.blockId, env);
  }

  /** The round of a secondary: block and PrePrepare, Prepares, the validator's answer, Commits, and
      the validator's word that the block is committed. */
  ghost function Halfway(n: Node, block: Block, pp: ParsedMessage, prepares: seq<ParsedMessage>, env: Env): (r: Node)
    requires n.state.Sound() && env.Valid()
    ensures r.state.Sound()
  {
    OnBlockValid(Hear(Opened(n, block, pp, env), prepares, env), block.blockId, env).node
  }

  ghost function RoundOf(n: Node, block: Block, pp: ParsedMessage, prepares: seq<ParsedMessage>, commits: seq<ParsedMessage>, env: Env): Node
    requires n.state.Sound() && env.Valid()
  {
    Ended(Halfway(n, block, pp, prepares, env), block.blockId, commits, env)
  }

  lemma HalfwayRound(n: Node, block: Block, pp: ParsedMessage, prepares: seq<ParsedMessage>, commits: seq<ParsedMessage>, env: Env)
    requires n.state.Sound() && env.Valid() && PrePreparesAgree(n.log.messages) && Waits(n) && !n.state.IsPrimary() && Offered(n, block, pp, env)
    requires NewVotes(prepares, n.log.messages, Prepare, n.state.seqNum, n.state.view, PbftBlockFromBlock(block)) && |prepares| == 2 * n.state.f
    requires NewVotes(commits, n.log.messages, Commit, n.state.seqNum, n.state.view, PbftBlockFromBlock(block))
    ensures var n' := Halfway(n, block, pp, prepares, env);
            && OwnCommitOnly(n', PbftBlockFromBlock(block)) && NewVotes(commits, n'.log.messages, Commit, n.state.seqNum, n.state.view, PbftBlockFromBlock(block))
            && n'.state.seqNum == n.state.seqNum && n'.state.view == n.state.view && n'.state.f == n.state.f
            && CommitCalls(n'.calls) == CommitCalls(n.calls)
  {
    var b := PbftBlockFromBlock(block);
    RoundOpens(n, block, pp, env);
    OpenedRound(n, block, pp, env);
    RoundPrepares(Opened(n, block, pp, env), b, prepares, env);
    QuietCalls(n, Broadcast(OwnVote(n, Prepare, b)), CheckBlocks(b.blockId), Broadcast(OwnVote(n, Commit, b)));
  }

  lemma QuietCalls(n: Node, x: ServiceCall, y: ServiceCall, z: ServiceCall)
    requires !x.CommitBlock? && !y.CommitBlock? && !z.CommitBlock?
    ensures CommitCalls(n.calls + [x] + [y] + [z]) == CommitCalls(n.calls)
  {
    CommitCallsAfter(n, x);
    CommitCallsAfter(n.Call(x), y);
    CommitCallsAfter(n.Call(x).Call(y), z);
  }

  /** For every fault bound: a secondary that waits, is offered a block, hears 2f Prepares and 2f
      Commits of others for it and finds it valid, commits that block and no other and waits for
      the next one; and this is a run. */
  lemma NormalRound(n: Node, block: Block, pp: ParsedMessage, prepares: seq<ParsedMessage>, commits: seq<ParsedMessage>, env: Env)
    requires n.state.Sound() && env.Valid() && PrePreparesAgree(n.log.messages) && Waits(n) && !n.state.IsPrimary() && Offered(n, block, pp, env)
    requires NewVotes(prepares, n.log.messages, Prepare, n.state.seqNum, n.state.view, PbftBlockFromBlock(block)) && |prepares| == 2 * n.state.f
    requires NewVotes(commits, n.log.messages, Commit, n.state.seqNum, n.state.view, PbftBlockFromBlock(block)) && |commits| == 2 * n.state.f
    ensures var n' := RoundOf(n, block, pp, prepares, commits, env);
            && CommitCalls(n'.calls) == CommitCalls(n.calls) + [CommitBlock(block.blockId, n.state.view, n.state.seqNum)]
            && n'.state.seqNum == n.state.seqNum + 1 && n'.state.phase == PrePreparing
    ensures Reachable(n) && SealOfCommits(block) ==> Reachable(RoundOf(n, block, pp, prepares, commits, env))
  {
    HalfwayRound(n, block, pp, prepares, commits, env);
    RoundCommits(Halfway(n, block, pp, prepares, env), PbftBlockFromBlock(block), commits, env);
    if Reachable(n) && SealOfCommits(block) {
      HalfwayIsReachable(n, block, pp, prepares, env);
      EndIsReachable(Halfway(n, block, pp, prepares, env), block.blockId, commits, env);
    }
  }

  lemma EndIsReachable(n: Node, id: BlockId, commits: seq<ParsedMessage>, env: Env)
    requires Reachable(n) && n.state.Sound() && env.Valid() && forall m :: m in commits ==> !m.fromSelf
    ensures Reachable(Ended(n, id, commits, env))
  {
    HearingIsReachable(n, commits, env);
    StepIsReachable(Hear(n, commits, env), UpdateBlockCommit(id), env);
  }

  lemma HalfwayIsReachable(n: Node, block: Block, pp: ParsedMessage, prepares: seq<ParsedMessage>, env: Env)
    requires Reachable(n) && n.state.Sound() && env.Valid() && SealOfCommits(block) && !pp.fromSelf && forall m :: m in prepares ==> !m.fromSelf
    ensures Reachable(Halfway(n, block, pp, prepares, env))
  {
    StepIsReachable(n, UpdateBlockNew(block), env);
    MessageIsReachable(OnBlockNew(n, block, env).node, pp, env);
    HearingIsReachable(Opened(n, block, pp, env), prepares, env);
    StepIsReachable(Hear(Opened(n, block, pp, env), prepares, env), UpdateBlockValid(block.blockId), env);
  }
}
