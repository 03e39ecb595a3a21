/** Runs in which the engine misses what one would expect of it: of a cluster with one faulty peer
    among four wherever that suffices, of one node where it does not. The exact conditions are
    in `Views`, `Seals`, `Lag`, `Checks` and `Publication`. */
module Boundaries {
  import opened Types
  import opened State
  import opened MessageLog
  import opened Protocol
  import opened Ledger
  import opened Quorums
  import opened Commits
  import opened Views
  import opened Lag
  import opened Checks
  import opened Progress
  import opened Network
  import opened Agreement
  import opened Scenario
  import opened Rounds

  // ---------- What the faulty peer sends ----------

  const OTHER := PbftBlock(BlockId("x"), D, 2, "")
  const STRAY_PREPARE := Signed(Vote(Prepare, A, 1, 0, RivalSum(1)))
  const STRAY_COMMIT := Signed(Vote(Commit, A, 2, 0, OTHER))

  function NoSeal(): Seal {
    Seal(BlockId(""), "", [])
  }

  function Proposal(p: PeerId, v: nat, seal: Seal): Wrapper {
    ViewChangeMessage(v, 2, p, seal)
  }

  function LeadingVotes(s: nat): set<ParsedMessage> {
    {Signed(Vote(PrePrepare, A, s, 0, Sum(s))), Signed(Vote(Prepare, A, s, 0, Sum(s))), Signed(Vote(Commit, A, s, 0, Sum(s)))}
  }

  /** It leads the first two rounds well, votes in the third, joins two view changes, and sends two
      votes for other blocks. */
  function Plot(): set<ParsedMessage> {
    LeadingVotes(1) + LeadingVotes(2)
    + {Signed(Vote(Prepare, A, 3, 2, Sum(3))), Signed(Vote(Commit, A, 3, 2, Sum(3))), Signed(Proposal(A, 2, NoSeal())), Signed(Proposal(A, 3, NoSeal()))}
    + {STRAY_PREPARE, STRAY_COMMIT}
  }

  ghost predicate Plots(bad: set<ParsedMessage>) {
    && ByFaulty(bad) && OneCopyEach(bad) && Leads(bad, 1, Sum(1)) && Leads(bad, 2, Sum(2))
    && STRAY_PREPARE in bad && STRAY_COMMIT in bad && Supports(bad, 3, 2, Sum(3))
    && Signed(Proposal(A, 2, NoSeal())) in bad && Signed(Proposal(A, 3, NoSeal())) in bad
  }

  lemma PlotIs() returns (bad: set<ParsedMessage>)
    ensures Plots(bad)
  {
    forall m | m in Plot() ensures m.header == SIGNED && !m.fromSelf && m.SignerId() == A && (m.message.ViewChangeMessage? ==> m.message.seal == NoSeal()) {
    }
    forall m | m in Plot() && m.message.Message? ensures m.message.pbft.msgType != ViewChange {
    }
    bad := Plot();
  }

  // ---------- A view change that lowers the view ----------

  /** The peer has given up on its primary, and its proposal is the only one it knows of. */
  ghost predicate GaveUp(n: Node, p: PeerId, v: nat, seal: Seal) {
    && n.state.id == p && n.state.seqNum == 3 && n.state.view == v && n.state.mode == ViewChanging
    && n.state.peerIds == FOUR && n.state.f == 1 && n.state.forcedViewChangePeriod == 3
    && OfTypeSeqView(n.log.messages, ViewChange, 2, v + 1) == {SelfMessage(Proposal(p, v + 1, seal))}
    && (forall m :: m in n.log.messages ==> m.SeqNum() <= 3 && (m.SeqNum() == 3 ==> m.View() <= v) && (m.Type() == ViewChange ==> m.View() <= v + 1))
    && n.log.GetConsensusSeal(2) == Success(seal)
    && Broadcast(Proposal(p, v + 1, seal)) in n.calls
  }

  lemma NodeGivesUp(n: Node, p: PeerId, v: nat, seal: Seal, env: Env)
    requires n.state.Sound() && env.Valid() && Stands(n, p, 3, v) && n.log.GetConsensusSeal(2) == Success(seal)
    ensures var n' := ProposeViewChange(n, env).node; GaveUp(n', p, v, seal) && n.log.messages <= n'.log.messages
  {
    var n1 := WithOwnViewChange(n, seal);
    assert OfTypeSeqView(n1.log.messages, ViewChange, 2, v + 1) == {SelfMessage(Proposal(p, v + 1, seal))};
    assert n1.log.SealsAt(2) == n.log.SealsAt(2);
    assert ProposeViewChange(n, env).node == n1;
  }

  lemma GivesUp(bad: set<ParsedMessage>, nodes: map<PeerId, Node>, p: PeerId, v: nat, seal: Seal) returns (nodes': map<PeerId, Node>)
    requires Stage(bad, nodes) && p in nodes && Stands(nodes[p], p, 3, v) && nodes[p].log.GetConsensusSeal(2) == Success(seal)
    ensures Stage(bad, nodes') && CallsKept(nodes, nodes') && p in nodes' && nodes' == nodes[p := nodes'[p]]
    ensures GaveUp(nodes'[p], p, v, seal) && nodes[p].log.messages <= nodes'[p].log.messages
  {
    StageNode(bad, nodes, p);
    NodeGivesUp(nodes[p], p, v, seal, PlainEnv(FOUR));
    nodes' := Act(bad, nodes, p, nodes[p], UpdateBlockInvalid(IdOf(3)));
  }

  lemma SecondProposal(n: Node, p: PeerId, v: nat, seal: Seal, x: ParsedMessage, env: Env)
    requires n.state.Sound() && env.Valid() && GaveUp(n, p, v, seal) && x.At(ViewChange, 2, v + 1) && !x.fromSelf
    ensures OnPeerMessage(n, x, env).node == WithMessage(n, x)
    ensures OfTypeSeqView(n.log.messages + {x}, ViewChange, 2, v + 1) == {SelfMessage(Proposal(p, v + 1, seal)), x}
  {
    assert OfTypeSeqView(n.log.messages + {x}, ViewChange, 2, v + 1) == {SelfMessage(Proposal(p, v + 1, seal)), x};
    assert |{SelfMessage(Proposal(p, v + 1, seal)), x}| == 2;
  }

  lemma ThirdProposal(n: Node, v: nat, own: ParsedMessage, x: ParsedMessage, y: ParsedMessage, env: Env)
    requires n.state.Sound() && env.Valid() && n.state.mode == ViewChanging && n.state.f == 1 && y.At(ViewChange, 2, v)
    requires OfTypeSeqView(n.log.messages, ViewChange, 2, v) == {own, x} && own != x && own != y && x != y
    ensures var n' := OnPeerMessage(n, y, env).node;
            && n'.state.view == v && n'.state.RoleMatches() && n'.state.mode == Normal && n'.state.phase == PrePreparing && n'.state.workingBlock.None?
            && n'.state.seqNum == n.state.seqNum && n'.state.id == n.state.id && n'.state.peerIds == n.state.peerIds && n'.state.f == n.state.f
            && n'.state.forcedViewChangePeriod == n.state.forcedViewChangePeriod
            && n'.log == n.log.(messages := n.log.messages + {y}) && |OfTypeSeqView(n'.log.messages, ViewChange, 2, v)| == 3
  {
    assert OfTypeSeqView(n.log.messages + {y}, ViewChange, 2, v) == {own, x, y};
    assert |{own, x, y}| == 3;
  }

  lemma NodeEnters(n: Node, p: PeerId, v: nat, seal: Seal, x: ParsedMessage, y: ParsedMessage)
    requires n.state.Sound() && GaveUp(n, p, v, seal) && x != y && !x.fromSelf && !y.fromSelf && x.At(ViewChange, 2, v + 1) && y.At(ViewChange, 2, v + 1)
    ensures var n' := Hear(n, [x, y], PlainEnv(FOUR));
            && Ready(n', p, 3, v + 1) && n'.log.GetConsensusSeal(2) == Success(seal) && n.log.messages <= n'.log.messages
            && |OfTypeSeqView(n'.log.messages, ViewChange, 2, v + 1)| == 3
  {
    var env, n1 := PlainEnv(FOUR), WithMessage(n, x);
    HearTwo(n, x, y, env);
    SecondProposal(n, p, v, seal, x, env);
    ThirdProposal(n1, v + 1, SelfMessage(Proposal(p, v + 1, seal)), x, y, env);
    NextViewIsReady(n, OnPeerMessage(n1, y, env).node, p, v, seal, x, y);
  }

  lemma NextViewIsReady(n: Node, n': Node, p: PeerId, v: nat, seal: Seal, x: ParsedMessage, y: ParsedMessage)
    requires GaveUp(n, p, v, seal) && x.At(ViewChange, 2, v + 1) && y.At(ViewChange, 2, v + 1) && n'.state.Sound()
    requires n'.state.view == v + 1 && n'.state.RoleMatches() && n'.state.mode == Normal && n'.state.phase == PrePreparing && n'.state.workingBlock.None?
    requires n'.state.seqNum == n.state.seqNum && n'.state.id == n.state.id && n'.state.peerIds == n.state.peerIds && n'.state.f == n.state.f
    requires n'.state.forcedViewChangePeriod == n.state.forcedViewChangePeriod && n'.log == n.log.(messages := n.log.messages + {x} + {y})
    ensures Ready(n', p, 3, v + 1) && n'.log.GetConsensusSeal(2) == Success(seal) && n.log.messages <= n'.log.messages
  {
    assert n'.log.SealsAt(2) == n.log.SealsAt(2);
  }

  lemma HearTwo(n: Node, x: ParsedMessage, y: ParsedMessage, env: Env)
    requires n.state.Sound() && env.Valid()
    ensures Hear(n, [x, y], env) == OnPeerMessage(OnPeerMessage(n, x, env).node, y, env).node
  {
    var n1 := OnPeerMessage(n, x, env).node;
    assert [x, y][1..] == [y] && [y][1..] == [];
    assert Hear(n1, [y], env) == Hear(OnPeerMessage(n1, y, env).node, [], env);
  }

  /** The peer enters the next view on its own proposal and two others. */
  lemma Enters(bad: set<ParsedMessage>, nodes: map<PeerId, Node>, p: PeerId, v: nat, seal: Seal, x: ParsedMessage, y: ParsedMessage)
    returns (nodes': map<PeerId, Node>)
    requires Stage(bad, nodes) && p in nodes && GaveUp(nodes[p], p, v, seal) && x != y && x.At(ViewChange, 2, v + 1) && y.At(ViewChange, 2, v + 1)
    requires Audible(bad, nodes, p, [x, y])
    ensures Stage(bad, nodes') && CallsKept(nodes, nodes') && p in nodes' && nodes' == nodes[p := nodes'[p]]
    ensures Ready(nodes'[p], p, 3, v + 1) && nodes'[p].log.GetConsensusSeal(2) == Success(seal) && nodes[p].log.messages <= nodes'[p].log.messages
    ensures |OfTypeSeqView(nodes'[p].log.messages, ViewChange, 2, v + 1)| == 3
  {
    assert x in [x, y] && y in [x, y];
    StageNode(bad, nodes, p);
    NodeEnters(nodes[p], p, v, seal, x, y);
    Listen(bad, nodes, p, nodes[p], [x, y]);
    nodes' := nodes[p := Hear(nodes[p], [x, y], PlainEnv(FOUR))];
  }

  lemma TwoProposals(bad: set<ParsedMessage>, nodes: map<PeerId, Node>, p: PeerId, q: PeerId, v: nat, seal: Seal)
    requires p in nodes && q in nodes && p != q && p != A && q != A
    requires Signed(Proposal(A, v, NoSeal())) in bad && Broadcast(Proposal(q, v, seal)) in nodes[q].calls
    ensures Audible(bad, nodes, p, [Signed(Proposal(q, v, seal)), Signed(Proposal(A, v, NoSeal()))])
    ensures Signed(Proposal(q, v, seal)) != Signed(Proposal(A, v, NoSeal()))
  {
    SentIsOnNet(bad, nodes, q, Proposal(q, v, seal));
  }

  ghost predicate InThird(n: Node, p: PeerId, v: nat) {
    Stands(n, p, 3, v) && n.log.GetConsensusSeal(2) == Success(SealFor(1))
  }

  ghost predicate ReadyForThird(n: Node, p: PeerId, v: nat) {
    Ready(n, p, 3, v) && InThird(n, p, v)
  }

  ghost predicate OthersKept(nodes: map<PeerId, Node>, nodes': map<PeerId, Node>, p: PeerId, q: PeerId) {
    nodes'.Keys == nodes.Keys && forall r :: r in nodes && r != p && r != q ==> nodes'[r] == nodes[r]
  }

  /** Two peers give up in view 1 and go on, with the faulty one, to view 2. */
  lemma BothEnter(bad: set<ParsedMessage>, nodes: map<PeerId, Node>, p: PeerId, q: PeerId) returns (nodes': map<PeerId, Node>)
    requires Stage(bad, nodes) && Signed(Proposal(A, 2, NoSeal())) in bad && p in nodes && q in nodes && p != q
    requires InThird(nodes[p], p, 1) && InThird(nodes[q], q, 1)
    ensures Stage(bad, nodes') && CallsKept(nodes, nodes') && OthersKept(nodes, nodes', p, q)
    ensures ReadyForThird(nodes'[p], p, 2) && ReadyForThird(nodes'[q], q, 2) && |OfTypeSeqView(nodes'[p].log.messages, ViewChange, 2, 2)| == 3
    ensures Broadcast(Proposal(p, 2, SealFor(1))) in nodes'[p].calls && Broadcast(Proposal(q, 2, SealFor(1))) in nodes'[q].calls
  {
    var given := BothGiveUp(bad, nodes, p, q);
    nodes' := BothGoOn(bad, given, p, q);
  }

  lemma BothGoOn(bad: set<ParsedMessage>, nodes: map<PeerId, Node>, p: PeerId, q: PeerId) returns (nodes': map<PeerId, Node>)
    requires Stage(bad, nodes) && Signed(Proposal(A, 2, NoSeal())) in bad && p in nodes && q in nodes && p != q
    requires GaveUp(nodes[p], p, 1, SealFor(1)) && GaveUp(nodes[q], q, 1, SealFor(1))
    ensures Stage(bad, nodes') && CallsKept(nodes, nodes') && OthersKept(nodes, nodes', p, q)
    ensures ReadyForThird(nodes'[p], p, 2) && ReadyForThird(nodes'[q], q, 2) && |OfTypeSeqView(nodes'[p].log.messages, ViewChange, 2, 2)| == 3
  {
    var mid := EntersSecond(bad, nodes, p, q);
    nodes' := EntersSecond(bad, mid, q, p);
  }

  lemma BothGiveUp(bad: set<ParsedMessage>, nodes: map<PeerId, Node>, p: PeerId, q: PeerId) returns (nodes': map<PeerId, Node>)
    requires Stage(bad, nodes) && p in nodes && q in nodes && p != q && InThird(nodes[p], p, 1) && InThird(nodes[q], q, 1)
    ensures Stage(bad, nodes') && CallsKept(nodes, nodes') && OthersKept(nodes, nodes', p, q)
    ensures GaveUp(nodes'[p], p, 1, SealFor(1)) && GaveUp(nodes'[q], q, 1, SealFor(1))
  {
    var mid := GivesUp(bad, nodes, p, 1, SealFor(1));
    nodes' := GivesUp(bad, mid, q, 1, SealFor(1));
  }

  lemma EntersSecond(bad: set<ParsedMessage>, nodes: map<PeerId, Node>, p: PeerId, q: PeerId) returns (nodes': map<PeerId, Node>)
    requires Stage(bad, nodes) && Signed(Proposal(A, 2, NoSeal())) in bad && p in nodes && q in nodes && p != q
    requires GaveUp(nodes[p], p, 1, SealFor(1)) && Broadcast(Proposal(q, 2, SealFor(1))) in nodes[q].calls
    ensures Stage(bad, nodes') && CallsKept(nodes, nodes') && p in nodes' && nodes' == nodes[p := nodes'[p]]
    ensures ReadyForThird(nodes'[p], p, 2) && |OfTypeSeqView(nodes'[p].log.messages, ViewChange, 2, 2)| == 3
  {
    PeersDiffer();
    StageNode(bad, nodes, p);
    TwoProposals(bad, nodes, p, q, 2, SealFor(1));
    nodes' := Enters(bad, nodes, p, 1, SealFor(1), Signed(Proposal(q, 2, SealFor(1))), Signed(Proposal(A, 2, NoSeal())));
  }

  /** All three have given up in view 1, and b and c go on to view 2. */
  lemma ReachViewTwo(bad: set<ParsedMessage>) returns (nodes: map<PeerId, Node>)
    requires Plots(bad)
    ensures Stage(bad, nodes) && B in nodes && C in nodes && D in nodes
    ensures Ready(nodes[B], B, 3, 2) && nodes[B].log.GetConsensusSeal(2) == Success(SealFor(1)) && |OfTypeSeqView(nodes[B].log.messages, ViewChange, 2, 2)| == 3
    ensures Ready(nodes[C], C, 3, 2) && nodes[C].log.GetConsensusSeal(2) == Success(SealFor(1))
    ensures Broadcast(Proposal(D, 2, SealFor(1))) in nodes[D].calls
  {
    PeersDiffer();
    nodes := AfterTwoRounds(bad);
    nodes := GivesUp(bad, nodes, D, 1, SealFor(1));
    nodes := BothEnter(bad, nodes, B, C);
  }

  /** Peer b goes on to view 3 and gives up there too. */
  lemma ReachViewThree(bad: set<ParsedMessage>) returns (nodes: map<PeerId, Node>)
    requires Plots(bad)
    ensures Stage(bad, nodes) && B in nodes && D in nodes && Broadcast(Proposal(D, 2, SealFor(1))) in nodes[D].calls
    ensures GaveUp(nodes[B], B, 3, SealFor(1)) && |OfTypeSeqView(nodes[B].log.messages, ViewChange, 2, 2)| >= 3
  {
    PeersDiffer();
    nodes := ReachViewTwo(bad);
    ghost var counted := OfTypeSeqView(nodes[B].log.messages, ViewChange, 2, 2);
    nodes := GivesUp(bad, nodes, B, 2, SealFor(1));
    nodes := GivesUp(bad, nodes, C, 2, SealFor(1));
    TwoProposals(bad, nodes, B, C, 3, SealFor(1));
    nodes := Enters(bad, nodes, B, 2, SealFor(1), Signed(Proposal(C, 3, SealFor(1))), Signed(Proposal(A, 3, NoSeal())));
    nodes := GivesUp(bad, nodes, B, 3, SealFor(1));
    SubsetCardinality(counted, OfTypeSeqView(nodes[B].log.messages, ViewChange, 2, 2));
  }

  lemma LateProposalFallsBack(n: Node, m: ParsedMessage)
    requires GaveUp(n, B, 3, SealFor(1)) && |OfTypeSeqView(n.log.messages, ViewChange, 2, 2)| >= 3 && m.At(ViewChange, 2, 2) && !m.fromSelf
    ensures FallsBack(n, Deliver(m))
  {
    assert ParsedMessage(m.header, m.message, false) == m;
    SubsetCardinality(OfTypeSeqView(n.log.messages, ViewChange, 2, 2), OfTypeSeqView(n.log.messages + {m}, ViewChange, 2, 2));
  }

  /** In the third round peers b and c go through view 2 to view 3, and when b gives up there the
      late proposal of d for view 2 takes it back: a correct node's view falls, within the fault
      bound. */
  lemma ViewChangeCanLowerTheView()
    ensures exists c, h, k: nat, p :: ShownStep(c, h, k, p) && h.states[k + 1].nodes[p].state.view < h.states[k].nodes[p].state.view
  {
    var bad := PlotIs();
    PeersDiffer();
    var nodes := ReachViewThree(bad);
    var n, m := nodes[B], Signed(Proposal(D, 2, SealFor(1)));
    SentIsOnNet(bad, nodes, D, Proposal(D, 2, SealFor(1)));
    StageNode(bad, nodes, B);
    LateProposalFallsBack(n, m);
    ViewMovement(n, Deliver(m), PlainEnv(FOUR));
    var h, k := StepIsShown(bad, nodes, B, n, Deliver(m));
  }

  // ---------- A catch-up that leaves the role behind ----------

  /** Peers c and d have gone on to view 2 without b, and d has sent its Commit there. */
  lemma VotesWithoutB(bad: set<ParsedMessage>) returns (nodes: map<PeerId, Node>)
    requires Plots(bad)
    ensures Stage(bad, nodes) && nodes.Keys == {B, C, D} && Ready(nodes[B], B, 3, 1) && VotersSent(nodes, 2) && VotersSent(nodes, 3)
  {
    PeersDiffer();
    nodes := InViewTwo(bad);
    BlockFits(bad, nodes, 3);
    OnChain(3);
    nodes := Proposes(bad, nodes, C, 3, 2, BlockAt(3));
    nodes := DVotes(bad, nodes);
  }

  lemma InViewTwo(bad: set<ParsedMessage>) returns (nodes: map<PeerId, Node>)
    requires Plots(bad)
    ensures Stage(bad, nodes) && nodes.Keys == {B, C, D} && VotersSent(nodes, 2)
    ensures Ready(nodes[B], B, 3, 1) && Ready(nodes[C], C, 3, 2) && Ready(nodes[D], D, 3, 2)
  {
    PeersDiffer();
    nodes := AfterTwoRounds(bad);
    nodes := BothEnter(bad, nodes, C, D);
  }

  lemma DVotes(bad: set<ParsedMessage>, nodes: map<PeerId, Node>) returns (nodes': map<PeerId, Node>)
    requires Plots(bad) && Stage(bad, nodes) && nodes.Keys == {B, C, D} && Ready(nodes[D], D, 3, 2) && Fit(bad, nodes, BlockAt(3))
    requires Broadcast(Vote(PrePrepare, C, 3, 2, Sum(3))) in nodes[C].calls && Broadcast(Vote(Prepare, C, 3, 2, Sum(3))) in nodes[C].calls
    ensures Stage(bad, nodes') && CallsKept(nodes, nodes') && nodes' == nodes[D := nodes'[D]] && Broadcast(Vote(Commit, D, 3, 2, Sum(3))) in nodes'[D].calls
  {
    PeersDiffer();
    var mid := DPrepares(bad, nodes);
    nodes' := DCommits(bad, mid);
    Overwrite(nodes, D, mid[D], nodes'[D]);
  }

  lemma DPrepares(bad: set<ParsedMessage>, nodes: map<PeerId, Node>) returns (nodes': map<PeerId, Node>)
    requires Stage(bad, nodes) && nodes.Keys == {B, C, D} && Ready(nodes[D], D, 3, 2) && Fit(bad, nodes, BlockAt(3))
    requires Broadcast(Vote(PrePrepare, C, 3, 2, Sum(3))) in nodes[C].calls
    ensures Stage(bad, nodes') && CallsKept(nodes, nodes') && D in nodes' && nodes' == nodes[D := nodes'[D]] && Preparer(nodes'[D], D, 3, 2, BlockAt(3))
  {
    PeersDiffer();
    OnChain(3);
    SentIsOnNet(bad, nodes, C, Vote(PrePrepare, C, 3, 2, Sum(3)));
    nodes' := OpensFor(bad, nodes, D, C, 3, 2, BlockAt(3));
  }

  lemma DCommits(bad: set<ParsedMessage>, nodes: map<PeerId, Node>) returns (nodes': map<PeerId, Node>)
    requires Plots(bad) && Stage(bad, nodes) && nodes.Keys == {B, C, D} && Preparer(nodes[D], D, 3, 2, BlockAt(3))
    requires Broadcast(Vote(Prepare, C, 3, 2, Sum(3))) in nodes[C].calls
    ensures Stage(bad, nodes') && CallsKept(nodes, nodes') && D in nodes' && nodes' == nodes[D := nodes'[D]]
    ensures Broadcast(Vote(Commit, D, 3, 2, Sum(3))) in nodes'[D].calls
  {
    PeersDiffer();
    OnChain(3);
    nodes' := PeerPrepares(bad, nodes, D, C, 3, 2, BlockAt(3));
  }

  lemma WorkingBlockKept(n: Node, m: ParsedMessage, env: Env)
    requires n.state.Sound() && env.Valid() && m.Type() == PrePrepare
    ensures OnPrePrepare(n, m, env).node.state.workingBlock == n.state.workingBlock && OnPrePrepare(n, m, env).node.state.seqNum == n.state.seqNum
    ensures OnPrePrepare(n, m, env).node.state.forcedViewChangePeriod == n.state.forcedViewChangePeriod
  {
  }

  /** The block of its round becomes the working block of a primary, whatever else it does with it. */
  lemma AdoptingNode(n: Node, block: Block, env: Env)
    requires n.state.Sound() && env.Valid() && block.blockNum == n.state.seqNum && VerifyConsensusSeal(n, block, env).Success? && n.state.phase == PrePreparing
    ensures var n' := OnBlockNew(n, block, env).node;
            && n'.state.workingBlock == Some(PbftBlockFromBlock(block)) && n'.state.phase != Finished && KeepsView(n, n')
            && n'.state.seqNum == n.state.seqNum && n'.state.forcedViewChangePeriod == n.state.forcedViewChangePeriod
  {
    var a := LogBlock(n, block, VerifyConsensusSeal(n, block, env).value);
    ViewKeptByAdoption(a, block, env);
    IdleAdoptBlock(a, block, env);
    var n1 := a.(state := a.state.(workingBlock := Some(PbftBlockFromBlock(block))));
    var w := OwnMessage(n1, PrePrepare, n.state.seqNum, PbftBlockFromBlock(block));
    WorkingBlockKept(n1.Call(Broadcast(w)), SelfMessage(w), env);
  }

  lemma LeftBehind(n: Node)
    requires n.state.Sound() && n.state.id == B && n.state.peerIds == FOUR && n.state.f == 1 && n.state.forcedViewChangePeriod == 3
    requires n.state.seqNum == 3 && n.state.view == 1 && n.state.phase != Finished && n.state.workingBlock == Some(Sum(3))
    ensures LeavesRoleBehind(n, UpdateBlockNew(BlockAt(4)), PlainEnv(FOUR))
  {
    PeersDiffer();
    BlockVerifies(n, 4);
    SealVotes(3);
  }

  /** The role is the one that the view gives, or it is not. */
  ghost predicate Matched(n: Node) {
    n.state.Sound() && n.state.RoleMatches()
  }

  ghost predicate Mismatched(n: Node) {
    n.state.Sound() && !n.state.RoleMatches()
  }

  lemma BAdoptsThird(bad: set<ParsedMessage>) returns (nodes: map<PeerId, Node>)
    requires Plots(bad)
    ensures Stage(bad, nodes) && nodes.Keys == {B, C, D} && Fit(bad, nodes, BlockAt(4)) && Matched(nodes[B])
    ensures LeavesRoleBehind(nodes[B], UpdateBlockNew(BlockAt(4)), PlainEnv(FOUR))
  {
    PeersDiffer();
    var before := VotesWithoutB(bad);
    StageNode(bad, before, B);
    BlockFits(bad, before, 3);
    AdoptingNode(before[B], BlockAt(3), PlainEnv(FOUR));
    nodes := HearsOf(bad, before, B, before[B], BlockAt(3));
    BlockFits(bad, nodes, 4);
    LeftBehind(nodes[B]);
  }

  /** In the third round b leads view 1, and c, d and the faulty peer go on to view 2 and vote for a
      block there. With the block after it b catches up, and is then the primary, in its own
      eyes, of a view that c leads. */
  lemma CatchupCanLeaveRoleBehind()
    ensures exists c, h, k: nat, p :: ShownStep(c, h, k, p) && Matched(h.states[k].nodes[p]) && Mismatched(h.states[k + 1].nodes[p])
  {
    var bad := PlotIs();
    var nodes := BAdoptsThird(bad);
    var n, ev := nodes[B], UpdateBlockNew(BlockAt(4));
    StageNode(bad, nodes, B);
    RoleOfStep(n, ev, PlainEnv(FOUR));
    var h, k := StepIsShown(bad, nodes, B, n, ev);
  }

  // ---------- A node that lags ----------

  /** All peers have sent their Commits for the first block, and b has committed it. */
  lemma BFinishesFirst(bad: set<ParsedMessage>) returns (nodes: map<PeerId, Node>)
    requires Plots(bad)
    ensures Stage(bad, nodes) && nodes.Keys == {B, C, D} && AllSent(nodes, Commit, 1, Sum(1))
    ensures Finisher(nodes[B], B, 1, 0, BlockAt(1), CommitsFor(C, 1, 0, Sum(1)))
  {
    PeersDiffer();
    OnChain(1);
    var committing := AllCommitting(bad);
    nodes := PeerFinishes(bad, committing, B, C, 1, 0, BlockAt(1));
    SentStays(committing, nodes, Commit, 1, Sum(1));
  }

  lemma AllCommitting(bad: set<ParsedMessage>) returns (nodes: map<PeerId, Node>)
    requires Plots(bad)
    ensures Stage(bad, nodes) && nodes.Keys == {B, C, D} && AllSent(nodes, Commit, 1, Sum(1)) && Committer(nodes[B], B, 1, 0, BlockAt(1))
  {
    OnChain(1);
    Opening(bad);
    NewcomersReady();
    BlockFits(bad, Newcomers(), 1);
    var open := AllOpen(bad, Newcomers(), 1, BlockAt(1));
    nodes := AllPrepare(bad, open, 1, BlockAt(1));
  }

  lemma EarlyPrePrepareIsLogged(n: Node, m: ParsedMessage, env: Env)
    requires n.state.Sound() && env.Valid() && PrePreparesAgree(n.log.messages) && Acceptable(n, m)
    requires n.state.phase == Finished && m.SeqNum() != n.state.seqNum
    ensures OnPrePrepare(n, m, env).node == WithMessage(n, m)
  {
    AcceptedExactlyIfAcceptable(n, m, env);
  }

  /** A node that has finished its block takes the next one and its PrePrepare without answering. */
  lemma EarlyNode(n: Node, block: Block, pp: ParsedMessage, env: Env)
    requires n.state.Sound() && env.Valid() && PrePreparesAgree(n.log.messages) && n.state.phase == Finished
    requires block.blockNum == n.state.seqNum + 1 && VerifyConsensusSeal(n, block, env).Success?
    requires pp.VotesFor(PrePrepare, block.blockNum, n.state.view, PbftBlockFromBlock(block)) && pp.SignerId() == n.state.PrimaryId()
    requires forall m :: m in n.log.messages ==> m.SeqNum() <= n.state.seqNum
    ensures Opened(n, block, pp, env) == WithMessage(LogBlock(n, block, VerifyConsensusSeal(n, block, env).value), pp)
  {
    var a := LogBlock(n, block, VerifyConsensusSeal(n, block, env).value);
    assert BlockNewMessage(n, block) in a.log.messages;
    EarlyPrePrepareIsLogged(a, pp, env);
  }

  lemma CommitsIntoLag(n: Node, id: BlockId, env: Env)
    requires n.state.Sound() && env.Valid() && n.state.phase == Finished && IsWorkingBlock(n, id) && !RotationDue(n, id, env)
    requires PrePreparedAt(n.log.messages, n.state.seqNum + 1, n.state.view)
    ensures Lags(OnBlockCommit(n, id, env))
  {
    LagOnBlockCommit(n, id, env);
  }

  /** Peer b, finished with the first block, hears of the second and of its PrePrepare. */
  lemma BHearsEarly(bad: set<ParsedMessage>) returns (nodes: map<PeerId, Node>)
    requires Plots(bad)
    ensures Stage(bad, nodes) && B in nodes && nodes[B].state.Sound() && nodes[B].state.phase == Finished && IsWorkingBlock(nodes[B], IdOf(1))
    ensures !RotationDue(nodes[B], IdOf(1), PlainEnv(FOUR)) && PrePreparedAt(nodes[B].log.messages, nodes[B].state.seqNum + 1, nodes[B].state.view)
  {
    PeersDiffer();
    OnChain(2);
    var before := BFinishesFirst(bad);
    var n, block, pp := before[B], BlockAt(2), Signed(Vote(PrePrepare, A, 2, 0, Sum(2)));
    BlockFits(bad, before, 2);
    StageNode(bad, before, B);
    assert Audible(bad, before, B, [pp]);
    nodes := BothArrive(bad, before, n, block, pp);
    EarlyNode(n, block, pp, PlainEnv(FOUR));
    assert pp in nodes[B].log.messages && pp.At(PrePrepare, 2, 0);
  }

  lemma BothArrive(bad: set<ParsedMessage>, nodes: map<PeerId, Node>, n: Node, block: Block, pp: ParsedMessage) returns (nodes': map<PeerId, Node>)
    requires Stage(bad, nodes) && B in nodes && nodes[B] == n && n.state.Sound() && Fit(bad, nodes, block) && Audible(bad, nodes, B, [pp])
    ensures nodes' == nodes[B := Opened(n, block, pp, PlainEnv(FOUR))] && Stage(bad, nodes')
  {
    var n1 := OnBlockNew(n, block, PlainEnv(FOUR)).node;
    var mid := HearsOf(bad, nodes, B, n, block);
    StageNode(bad, mid, B);
    StillAudible(bad, nodes, B, n1, [pp]);
    Arrives(bad, mid, B, n1, pp);
    nodes' := nodes[B := Opened(n, block, pp, PlainEnv(FOUR))];
    Overwrite(nodes, B, n1, nodes'[B]);
  }

  /** A PrePrepare taken in Finished for the next block is not answered then, nor after the commit:
      the node enters the round lagging. */
  lemma CommitCanLeaveNodeLagging()
    ensures exists c, h, k: nat, p :: Shown(c, h, k, p) && Lags(h.states[k].nodes[p])
  {
    var bad := PlotIs();
    var nodes := BHearsEarly(bad);
    var n := nodes[B];
    StageNode(bad, nodes, B);
    CommitsIntoLag(n, IdOf(1), PlainEnv(FOUR));
    var h, k := StepIsShown(bad, nodes, B, n, UpdateBlockCommit(IdOf(1)));
    assert Shown(Four(), h, k + 1, B) && Lags(h.states[k + 1].nodes[B]);
  }

  // ---------- A stray Prepare ----------

  lemma RivalIsStray(n: Node, m: ParsedMessage, b: PbftBlock, env: Env)
    requires n.state.Sound() && env.Valid() && OwnCommitOnly(n, b) && m.At(Prepare, n.state.seqNum, n.state.view) && m.Block().blockId != b.blockId
    ensures Asks(n, m) && !NamesPrePrepared(n, m.Block().blockId)
  {
    CertificatesGrow(n.log.messages, n.log.messages + {m}, n.state.seqNum, n.state.view, n.state.f, b);
    ChecksMeanCertificates(n.log.messages, n.state.seqNum, n.state.view, n.state.f, env);
    assert HasPrePrepare(n.log.messages, n.state.seqNum, n.state.view, b);
  }

  /** In Committing a late Prepare for another block makes b ask its validator for that block. */
  lemma LatePrepareCanLeadAstray()
    ensures exists c, h, k: nat, p :: ShownStep(c, h, k, p) && AsksAstray(h.states[k].nodes[p], h.states[k + 1].nodes[p])
  {
    var bad := PlotIs();
    PeersDiffer();
    OnChain(1);
    var nodes := AllCommitting(bad);
    var n, ev := nodes[B], Deliver(STRAY_PREPARE);
    StageNode(bad, nodes, B);
    RivalIsStray(n, STRAY_PREPARE, Sum(1), PlainEnv(FOUR));
    assert MessageOf(n, ev) == Some(STRAY_PREPARE);
    ChecksOfStep(n, ev, PlainEnv(FOUR));
    var h, k := StepIsShown(bad, nodes, B, n, ev);
  }

  // ---------- Two headers for one vote ----------

  const AGAIN := Header("i", "s")

  /** The faulty peer's vote under two headers. */
  function Copies(t: MessageType, b: PbftBlock): seq<ParsedMessage> {
    [Signed(Vote(t, A, 1, 0, b)), ParsedMessage(AGAIN, Vote(t, A, 1, 0, b), false)]
  }

  function Deceit(b: PbftBlock): set<ParsedMessage> {
    {Signed(Vote(PrePrepare, A, 1, 0, b)), Copies(Prepare, b)[0], Copies(Prepare, b)[1], Copies(Commit, b)[0], Copies(Commit, b)[1]}
  }

  lemma CopiesAre(t: MessageType, b: PbftBlock)
    ensures Copies(t, b)[0] != Copies(t, b)[1] && forall m :: m in Copies(t, b) <==> m == Copies(t, b)[0] || m == Copies(t, b)[1]
  {
    assert SIGNED.bytes[0] == 'h' && AGAIN.bytes[0] == 'i';
  }

  lemma CopiesCount(bad: set<ParsedMessage>, nodes: map<PeerId, Node>, p: PeerId, t: MessageType, b: PbftBlock)
    requires p in nodes && p != A && VotesAreOwn(nodes[p], t, 1, 0) && Copies(t, b)[0] in bad && Copies(t, b)[1] in bad
    ensures Audible(bad, nodes, p, Copies(t, b)) && NewVotes(Copies(t, b), nodes[p].log.messages, t, 1, 0, b)
  {
    CopiesAre(t, b);
  }

  /** One faulty peer and two headers for each of its votes make a correct peer commit. */
  lemma Deceived(bad: set<ParsedMessage>, nodes: map<PeerId, Node>, p: PeerId, block: Block) returns (nodes': map<PeerId, Node>)
    requires Stage(bad, nodes) && p in nodes && Ready(nodes[p], p, 1, 0) && Fit(bad, nodes, block) && block.blockNum == 1 && Deceit(PbftBlockFromBlock(block)) <= bad
    ensures Stage(bad, nodes') && CallsKept(nodes, nodes') && p in nodes' && nodes' == nodes[p := nodes'[p]] && CommitBlock(block.blockId, 0, 1) in nodes'[p].calls
  {
    PeersDiffer();
    assert Leads(bad, 1, PbftBlockFromBlock(block));
    var open := PeerOpens(bad, nodes, p, 1, block);
    var mid := DeceivedHalfway(bad, open, p, block);
    nodes' := DeceivedToTheEnd(bad, mid, p, block);
    Overwrite(nodes, p, open[p], mid[p]);
    Overwrite(nodes, p, mid[p], nodes'[p]);
  }

  lemma DeceivedToTheEnd(bad: set<ParsedMessage>, nodes: map<PeerId, Node>, p: PeerId, block: Block) returns (nodes': map<PeerId, Node>)
    requires Stage(bad, nodes) && p in nodes && Committer(nodes[p], p, 1, 0, block) && Deceit(PbftBlockFromBlock(block)) <= bad
    ensures Stage(bad, nodes') && CallsKept(nodes, nodes') && p in nodes' && nodes' == nodes[p := nodes'[p]] && CommitBlock(block.blockId, 0, 1) in nodes'[p].calls
  {
    PeersDiffer();
    StageNode(bad, nodes, p);
    CopiesCount(bad, nodes, p, Commit, PbftBlockFromBlock(block));
    var n';
    n', nodes' := CommitRound(bad, nodes, p, nodes[p], 1, 0, block, Copies(Commit, PbftBlockFromBlock(block)));
  }

  lemma DeceivedHalfway(bad: set<ParsedMessage>, nodes: map<PeerId, Node>, p: PeerId, block: Block) returns (nodes': map<PeerId, Node>)
    requires Stage(bad, nodes) && p in nodes && Preparer(nodes[p], p, 1, 0, block) && Deceit(PbftBlockFromBlock(block)) <= bad
    ensures Stage(bad, nodes') && CallsKept(nodes, nodes') && p in nodes' && nodes' == nodes[p := nodes'[p]] && Committer(nodes'[p], p, 1, 0, block)
  {
    PeersDiffer();
    StageNode(bad, nodes, p);
    CopiesCount(bad, nodes, p, Prepare, PbftBlockFromBlock(block));
    var n';
    n', nodes' := PrepareRound(bad, nodes, p, nodes[p], 1, 0, block, Copies(Prepare, PbftBlockFromBlock(block)));
  }

  lemma BothDeceived(bad: set<ParsedMessage>) returns (nodes: map<PeerId, Node>)
    requires ByFaulty(bad) && Deceit(Sum(1)) <= bad && Deceit(RivalSum(1)) <= bad
    ensures Stage(bad, nodes) && B in nodes && C in nodes
    ensures CommitBlock(IdOf(1), 0, 1) in nodes[B].calls && CommitBlock(RivalAt(1).blockId, 0, 1) in nodes[C].calls
  {
    PeersDiffer();
    OnChain(1);
    Opening(bad);
    NewcomersReady();
    BlockFits(bad, Newcomers(), 1);
    var first := Deceived(bad, Newcomers(), B, BlockAt(1));
    BlockFits(bad, first, 1);
    RivalFits(bad, first, 1);
    nodes := Deceived(bad, first, C, RivalAt(1));
  }

  /** On a network that delivers a vote under two headers, where everything else is as it should be,
      one faulty peer among four makes two correct nodes commit different blocks at one view and
      sequence number: log entries are not signers. */
  lemma TwoHeadersBreakAgreement()
    ensures exists c: Cluster, h: History, k: nat, p, q ::
              h.Free(c) && h.Vetted(c) && k < |h.states| && p in h.states[k].nodes && q in h.states[k].nodes && Disagree(h.states[k].nodes[p], h.states[k].nodes[q])
  {
    OnChain(1);
    var bad := Deceit(Sum(1)) + Deceit(RivalSum(1));
    var nodes := BothDeceived(bad);
    var h :| Ends(h, bad, nodes);
    DeceitEnds(h, bad, nodes);
  }

  /** Two nodes have committed different blocks at one view and sequence number. */
  ghost predicate Disagree(n: Node, m: Node) {
    exists d, e :: d in n.calls && e in m.calls && d.CommitBlock? && e.CommitBlock? && d.view == e.view && d.seqNum == e.seqNum && d.committed != e.committed
  }

  lemma DeceitEnds(h: History, bad: set<ParsedMessage>, nodes: map<PeerId, Node>)
    requires Ends(h, bad, nodes) && B in nodes && C in nodes
    requires CommitBlock(IdOf(1), 0, 1) in nodes[B].calls && CommitBlock(RivalAt(1).blockId, 0, 1) in nodes[C].calls
    ensures h.Free(Four()) && h.Vetted(Four()) && |h.moves| < |h.states| && h.states[|h.moves|].nodes == nodes && Disagree(nodes[B], nodes[C])
  {
    OnChain(1);
  }
}
