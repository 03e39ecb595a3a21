/** A run in which views disagree: one faulty peer among four, everything as it should be, and yet
    correct nodes commit different blocks at one sequence number, in different views. The block
    that the next seal then names is another than the one that its publisher committed. */
module Rift {
  import opened Types
  import opened State
  import opened MessageLog
  import opened Protocol
  import opened Seals
  import opened Progress
  import opened Network
  import opened Agreement
  import opened Publication
  import opened Scenario
  import opened Rounds
  import opened Boundaries

  // ---------- What the faulty peer sends ----------

  /** In the third round it votes for one block in view 1 and for another in view 2. */
  ghost predicate Splits(bad: set<ParsedMessage>) {
    && ByFaulty(bad) && OneCopyEach(bad) && Leads(bad, 1, Sum(1)) && Leads(bad, 2, Sum(2))
    && Supports(bad, 3, 1, Sum(3)) && Supports(bad, 3, 2, RivalSum(3))
    && Signed(Proposal(A, 2, NoSeal())) in bad && Signed(Proposal(A, 3, NoSeal())) in bad
  }

  function Ballots(s: nat, v: nat, b: PbftBlock): set<ParsedMessage> {
    {Signed(Vote(Prepare, A, s, v, b)), Signed(Vote(Commit, A, s, v, b))}
  }

  lemma SplitIs() returns (bad: set<ParsedMessage>)
    ensures Splits(bad)
  {
    bad := LeadingVotes(1) + LeadingVotes(2) + Ballots(3, 1, Sum(3)) + Ballots(3, 2, RivalSum(3))
           + {Signed(Proposal(A, 2, NoSeal())), Signed(Proposal(A, 3, NoSeal()))};
    forall m | m in bad ensures m.header == SIGNED && !m.fromSelf && m.SignerId() == A && (m.message.ViewChangeMessage? ==> m.message.seal == NoSeal()) {
    }
    forall m | m in bad && m.message.Message? ensures m.message.pbft.msgType != ViewChange {
    }
  }

  // ---------- Two blocks committed ----------

  /** Peer b leads view 1 and proposes the third block, and all answer. */
  lemma ThirdOpens(bad: set<ParsedMessage>) returns (nodes: map<PeerId, Node>)
    requires Splits(bad)
    ensures Stage(bad, nodes) && nodes.Keys == {B, C, D} && VotersSent(nodes, 2) && InThird(nodes[B], B, 1) && InThird(nodes[C], C, 1)
    ensures Preparer(nodes[B], B, 3, 1, BlockAt(3)) && Preparer(nodes[C], C, 3, 1, BlockAt(3)) && Preparer(nodes[D], D, 3, 1, BlockAt(3))
  {
    var ready := AfterTwoRounds(bad);
    StageNode(bad, ready, B);
    BlockFits(bad, ready, 3);
    nodes := AllAnswer(bad, ready);
  }

  lemma AllAnswer(bad: set<ParsedMessage>, nodes: map<PeerId, Node>) returns (nodes': map<PeerId, Node>)
    requires Stage(bad, nodes) && nodes.Keys == {B, C, D} && AllReady(nodes, 3, 1) && Fit(bad, nodes, BlockAt(3))
    ensures Stage(bad, nodes') && CallsKept(nodes, nodes') && SealsKept(nodes[B], nodes'[B]) && SealsKept(nodes[C], nodes'[C])
    ensures Preparer(nodes'[B], B, 3, 1, BlockAt(3)) && Preparer(nodes'[C], C, 3, 1, BlockAt(3)) && Preparer(nodes'[D], D, 3, 1, BlockAt(3))
  {
    PeersDiffer();
    OnChain(3);
    var first := Proposes(bad, nodes, B, 3, 1, BlockAt(3));
    SentIsOnNet(bad, first, B, Vote(PrePrepare, B, 3, 1, Sum(3)));
    var second := OpensFor(bad, first, C, B, 3, 1, BlockAt(3));
    SentIsOnNet(bad, second, B, Vote(PrePrepare, B, 3, 1, Sum(3)));
    nodes' := OpensFor(bad, second, D, B, 3, 1, BlockAt(3));
  }

  /** Peers c and d prepare the block, and d commits it. */
  lemma DCommitsThird(bad: set<ParsedMessage>) returns (nodes: map<PeerId, Node>)
    requires Splits(bad)
    ensures Stage(bad, nodes) && nodes.Keys == {B, C, D} && VotersSent(nodes, 2) && InThird(nodes[B], B, 1) && InThird(nodes[C], C, 1) && Early(nodes[D])
  {
    PeersDiffer();
    OnChain(3);
    var prepared := ThirdIsPrepared(bad);
    nodes := PeerEnds(bad, prepared, D, C, 3, 1, BlockAt(3));
  }

  lemma PreparesInThird(bad: set<ParsedMessage>, nodes: map<PeerId, Node>, p: PeerId, q: PeerId, v: nat, block: Block) returns (nodes': map<PeerId, Node>)
    requires Stage(bad, nodes) && p in nodes && q in nodes && p != q && InThird(nodes[p], p, v) && Preparer(nodes[p], p, 3, v, block)
    requires Supports(bad, 3, v, PbftBlockFromBlock(block)) && Broadcast(Vote(Prepare, q, 3, v, PbftBlockFromBlock(block))) in nodes[q].calls
    ensures Stage(bad, nodes') && CallsKept(nodes, nodes') && p in nodes' && nodes' == nodes[p := nodes'[p]]
    ensures InThird(nodes'[p], p, v) && Committer(nodes'[p], p, 3, v, block)
  {
    nodes' := PeerPrepares(bad, nodes, p, q, 3, v, block);
  }

  lemma ThirdIsPrepared(bad: set<ParsedMessage>) returns (nodes: map<PeerId, Node>)
    requires Splits(bad)
    ensures Stage(bad, nodes) && nodes.Keys == {B, C, D} && VotersSent(nodes, 2) && InThird(nodes[B], B, 1) && InThird(nodes[C], C, 1)
    ensures Committer(nodes[D], D, 3, 1, BlockAt(3)) && Broadcast(Vote(Commit, C, 3, 1, Sum(3))) in nodes[C].calls
  {
    var open := ThirdOpens(bad);
    nodes := CAndDPrepare(bad, open);
  }

  lemma CAndDPrepare(bad: set<ParsedMessage>, nodes: map<PeerId, Node>) returns (nodes': map<PeerId, Node>)
    requires Stage(bad, nodes) && nodes.Keys == {B, C, D} && Supports(bad, 3, 1, Sum(3)) && InThird(nodes[C], C, 1)
    requires Preparer(nodes[B], B, 3, 1, BlockAt(3)) && Preparer(nodes[C], C, 3, 1, BlockAt(3)) && Preparer(nodes[D], D, 3, 1, BlockAt(3))
    ensures Stage(bad, nodes') && CallsKept(nodes, nodes') && nodes'[B] == nodes[B] && InThird(nodes'[C], C, 1)
    ensures Committer(nodes'[D], D, 3, 1, BlockAt(3)) && Broadcast(Vote(Commit, C, 3, 1, Sum(3))) in nodes'[C].calls
  {
    PeersDiffer();
    OnChain(3);
    var mid := PreparesInThird(bad, nodes, C, B, 1, BlockAt(3));
    nodes' := PeerPrepares(bad, mid, D, B, 3, 1, BlockAt(3));
  }

  /** Peer d has committed the third block and goes on, in this view. */
  ghost predicate Ahead(n: Node, v: nat) {
    && Ready(n, D, 4, v) && n.log.GetConsensusSeal(3) == Success(SealFor(2)) && CommitBlock(IdOf(3), 1, 3) in n.calls
  }

  /** It is still in the view in which it committed. */
  ghost predicate Early(n: Node) {
    Ahead(n, 1) && forall m :: m in n.log.messages && m.Type() == Commit && m.SeqNum() == 3 ==> m.View() <= 1
  }

  /** Peers b and c give up, and with the faulty one go on to view 2, where c proposes another block
      and both vote for it. */
  lemma RivalIsPrepared(bad: set<ParsedMessage>) returns (nodes: map<PeerId, Node>)
    requires Splits(bad)
    ensures Stage(bad, nodes) && nodes.Keys == {B, C, D} && Early(nodes[D])
    ensures Voted(nodes[B], B) && Voted(nodes[C], C) && Committer(nodes[B], B, 3, 2, RivalAt(3)) && Committer(nodes[C], C, 3, 2, RivalAt(3))
  {
    PeersDiffer();
    var before := DCommitsThird(bad);
    var entered := BothEnter(bad, before, B, C);
    BlockFits(bad, entered, 3);
    RivalFits(bad, entered, 3);
    var open := BothAnswer(bad, entered);
    nodes := BothPrepare(bad, open);
  }

  /** The peer has asked for view 2 and is in it, in the third round. */
  ghost predicate Voted(n: Node, p: PeerId) {
    InThird(n, p, 2) && Broadcast(Proposal(p, 2, SealFor(1))) in n.calls
  }

  lemma BothPrepare(bad: set<ParsedMessage>, nodes: map<PeerId, Node>) returns (nodes': map<PeerId, Node>)
    requires Stage(bad, nodes) && nodes.Keys == {B, C, D} && Supports(bad, 3, 2, RivalSum(3))
    requires Voted(nodes[B], B) && Voted(nodes[C], C) && Preparer(nodes[B], B, 3, 2, RivalAt(3)) && Preparer(nodes[C], C, 3, 2, RivalAt(3))
    ensures Stage(bad, nodes') && nodes'.Keys == {B, C, D} && nodes'[D] == nodes[D]
    ensures Voted(nodes'[B], B) && Voted(nodes'[C], C) && Committer(nodes'[B], B, 3, 2, RivalAt(3)) && Committer(nodes'[C], C, 3, 2, RivalAt(3))
  {
    PeersDiffer();
    var mid := PreparesInThird(bad, nodes, B, C, 2, RivalAt(3));
    nodes' := PreparesInThird(bad, mid, C, B, 2, RivalAt(3));
  }

  lemma BothAnswer(bad: set<ParsedMessage>, nodes: map<PeerId, Node>) returns (nodes': map<PeerId, Node>)
    requires Stage(bad, nodes) && nodes.Keys == {B, C, D} && Fit(bad, nodes, RivalAt(3))
    requires Voted(nodes[B], B) && Voted(nodes[C], C) && Ready(nodes[B], B, 3, 2) && Ready(nodes[C], C, 3, 2)
    ensures Stage(bad, nodes') && nodes'.Keys == {B, C, D} && nodes'[D] == nodes[D]
    ensures Voted(nodes'[B], B) && Voted(nodes'[C], C) && Preparer(nodes'[B], B, 3, 2, RivalAt(3)) && Preparer(nodes'[C], C, 3, 2, RivalAt(3))
  {
    PeersDiffer();
    var mid := Proposes(bad, nodes, C, 3, 2, RivalAt(3));
    SentIsOnNet(bad, mid, C, Vote(PrePrepare, C, 3, 2, RivalSum(3)));
    nodes' := OpensFor(bad, mid, B, C, 3, 2, RivalAt(3));
  }

  lemma RivalIsCommitted(bad: set<ParsedMessage>) returns (nodes: map<PeerId, Node>)
    requires Splits(bad)
    ensures Stage(bad, nodes) && nodes.Keys == {B, C, D} && Early(nodes[D]) && Voted(nodes[B], B) && Voted(nodes[C], C)
    ensures CommitBlock(RivalAt(3).blockId, 2, 3) in nodes[B].calls
    ensures Broadcast(Vote(Commit, B, 3, 2, RivalSum(3))) in nodes[B].calls && Broadcast(Vote(Commit, C, 3, 2, RivalSum(3))) in nodes[C].calls
  {
    PeersDiffer();
    var prepared := RivalIsPrepared(bad);
    nodes := PeerFinishes(bad, prepared, B, C, 3, 2, RivalAt(3));
  }

  /** Two nodes have committed different blocks at one sequence number. */
  ghost predicate CommittedApart(n: Node, m: Node) {
    exists d, e :: d in n.calls && e in m.calls && d.CommitBlock? && e.CommitBlock? && d.seqNum == e.seqNum && d.committed != e.committed
  }

  /** Within the fault bound, on a network that delivers one copy of each vote, and with honest
      validators, peers b and d commit different blocks at number 3: d in view 1, b in view 2. */
  lemma ViewsCanCommitApart()
    ensures exists c, h, k: nat, p, q :: Shown(c, h, k, p) && Shown(c, h, k, q) && CommittedApart(h.states[k].nodes[p], h.states[k].nodes[q])
  {
    var bad := SplitIs();
    var nodes := RivalIsCommitted(bad);
    var h :| Ends(h, bad, nodes);
    OnChain(3);
    assert CommitBlock(RivalAt(3).blockId, 2, 3) in nodes[B].calls && CommitBlock(IdOf(3), 1, 3) in nodes[D].calls;
    RiftIsShown(h, bad, nodes, B, D);
  }

  lemma RiftIsShown(h: History, bad: set<ParsedMessage>, nodes: map<PeerId, Node>, p: PeerId, q: PeerId)
    requires Ends(h, bad, nodes) && OneCopyEach(bad) && p in nodes && q in nodes && CommittedApart(nodes[p], nodes[q])
    ensures exists c, h, k: nat, p, q :: Shown(c, h, k, p) && Shown(c, h, k, q) && CommittedApart(h.states[k].nodes[p], h.states[k].nodes[q])
  {
    assert Shown(Four(), h, |h.moves|, p) && Shown(Four(), h, |h.moves|, q);
  }

  // ---------- The seal that follows ----------

  /** The first of three view changes to the next view is logged, the second makes the node join,
      the third makes it enter. */
  lemma FirstIsLogged(n: Node, v: nat, x: ParsedMessage, env: Env)
    requires n.state.Sound() && env.Valid() && Ahead(n, v) && x.At(ViewChange, 2, v + 1) && !x.fromSelf
    ensures OnPeerMessage(n, x, env).node == WithMessage(n, x) && OfTypeSeqView(n.log.messages + {x}, ViewChange, 2, v + 1) == {x}
  {
    assert OfTypeSeqView(n.log.messages + {x}, ViewChange, 2, v + 1) == {x};
  }

  /** The node after joining the view change. */
  ghost function Joined(n: Node, x: ParsedMessage, y: ParsedMessage): Node
    requires n.state.Sound()
  {
    WithOwnViewChange(WithMessage(WithMessage(n, x), y), SealFor(2))
  }

  lemma SecondMakesItJoin(n: Node, v: nat, x: ParsedMessage, y: ParsedMessage, env: Env)
    requires n.state.Sound() && env.Valid() && Ahead(n, v) && x.At(ViewChange, 2, v + 1) && y.At(ViewChange, 2, v + 1) && x != y
    ensures OnPeerMessage(WithMessage(n, x), y, env).node == Joined(n, x, y)
    ensures OfTypeSeqView(Joined(n, x, y).log.messages, ViewChange, 2, v + 1) == {x, y}
  {
    JoinedCounts(n, v, x, y);
    assert |{x, y}| == 2;
    assert WithMessage(WithMessage(n, x), y).log.SealsAt(3) == n.log.SealsAt(3);
  }

  lemma JoinedCounts(n: Node, v: nat, x: ParsedMessage, y: ParsedMessage)
    requires n.state.Sound() && Ahead(n, v) && x.At(ViewChange, 2, v + 1) && y.At(ViewChange, 2, v + 1)
    ensures OfTypeSeqView(n.log.messages + {x} + {y}, ViewChange, 2, v + 1) == {x, y} == OfTypeSeqView(Joined(n, x, y).log.messages, ViewChange, 2, v + 1)
    ensures |OfTypeSeqView(Joined(n, x, y).log.messages, ViewChange, 3, v + 1)| == 1
  {
    assert OfTypeSeqView(Joined(n, x, y).log.messages, ViewChange, 3, v + 1) == {SelfMessage(OwnViewChange(n, SealFor(2)))};
  }

  lemma Follows(n: Node, v: nat, x: ParsedMessage, y: ParsedMessage, z: ParsedMessage, env: Env)
    requires n.state.Sound() && env.Valid() && Ahead(n, v) && x != y && x != z && y != z && !x.fromSelf && !y.fromSelf && !z.fromSelf
    requires x.At(ViewChange, 2, v + 1) && y.At(ViewChange, 2, v + 1) && z.At(ViewChange, 2, v + 1)
    ensures var n' := Hear(n, [x, y, z], env);
            Ahead(n', v + 1) && n.log.messages <= n'.log.messages && forall m :: m in n'.log.messages && m !in n.log.messages ==> m.Type() == ViewChange
  {
    FirstIsLogged(n, v, x, env);
    SecondMakesItJoin(n, v, x, y, env);
    HearThree(n, x, y, z, env);
    ThirdProposal(Joined(n, x, y), v + 1, x, y, z, env);
    NowAhead(n, OnPeerMessage(Joined(n, x, y), z, env).node, v, x, y, z);
  }

  lemma NowAhead(n: Node, n': Node, v: nat, x: ParsedMessage, y: ParsedMessage, z: ParsedMessage)
    requires n.state.Sound() && n'.state.Sound() && Ahead(n, v) && x.At(ViewChange, 2, v + 1) && y.At(ViewChange, 2, v + 1) && z.At(ViewChange, 2, v + 1)
    requires n'.state.view == v + 1 && n'.state.RoleMatches() && n'.state.mode == Normal && n'.state.phase == PrePreparing && n'.state.workingBlock.None?
    requires n'.state.seqNum == n.state.seqNum && n'.state.id == n.state.id && n'.state.peerIds == n.state.peerIds && n'.state.f == n.state.f
    requires n'.state.forcedViewChangePeriod == n.state.forcedViewChangePeriod && n'.log == Joined(n, x, y).log.(messages := Joined(n, x, y).log.messages + {z})
    requires n.calls <= n'.calls
    ensures Ahead(n', v + 1) && n.log.messages <= n'.log.messages && forall m :: m in n'.log.messages && m !in n.log.messages ==> m.Type() == ViewChange
  {
    assert n'.log.SealsAt(3) == n.log.SealsAt(3);
  }

  lemma HearThree(n: Node, x: ParsedMessage, y: ParsedMessage, z: ParsedMessage, env: Env)
    requires n.state.Sound() && env.Valid()
    ensures Hear(n, [x, y, z], env) == OnPeerMessage(OnPeerMessage(OnPeerMessage(n, x, env).node, y, env).node, z, env).node
  {
    assert [x, y, z][1..] == [y, z];
    HearTwo(OnPeerMessage(n, x, env).node, y, z, env);
  }

  /** Peer d follows the others into the next view. */
  lemma DFollows(bad: set<ParsedMessage>, nodes: map<PeerId, Node>, v: nat) returns (nodes': map<PeerId, Node>)
    requires Stage(bad, nodes) && nodes.Keys == {B, C, D} && Ahead(nodes[D], v) && Signed(Proposal(A, v + 1, NoSeal())) in bad
    requires Broadcast(Proposal(B, v + 1, SealFor(1))) in nodes[B].calls && Broadcast(Proposal(C, v + 1, SealFor(1))) in nodes[C].calls
    ensures Stage(bad, nodes') && D in nodes' && nodes' == nodes[D := nodes'[D]] && Ahead(nodes'[D], v + 1)
    ensures nodes[D].log.messages <= nodes'[D].log.messages
    ensures forall m :: m in nodes'[D].log.messages && m !in nodes[D].log.messages ==> m.Type() == ViewChange
  {
    PeersDiffer();
    StageNode(bad, nodes, D);
    var x, y, z := Signed(Proposal(A, v + 1, NoSeal())), Signed(Proposal(B, v + 1, SealFor(1))), Signed(Proposal(C, v + 1, SealFor(1)));
    SentIsOnNet(bad, nodes, B, y.message);
    SentIsOnNet(bad, nodes, C, z.message);
    Follows(nodes[D], v, x, y, z, PlainEnv(FOUR));
    Listen(bad, nodes, D, nodes[D], [x, y, z]);
    nodes' := nodes[D := Hear(nodes[D], [x, y, z], PlainEnv(FOUR))];
  }

  /** A Commit of this peer for the other third block. */
  ghost function RivalCommit(p: PeerId): ParsedMessage {
    Signed(Vote(Commit, p, 3, 2, RivalSum(3)))
  }

  lemma LateCommitIsLogged(n: Node, p: PeerId, env: Env)
    requires n.state.Sound() && env.Valid() && Ahead(n, 2)
    ensures OnPeerMessage(n, RivalCommit(p), env).node == WithMessage(n, RivalCommit(p)) && Ahead(WithMessage(n, RivalCommit(p)), 2)
  {
    assert WithMessage(n, RivalCommit(p)).log.SealsAt(3) == n.log.SealsAt(3);
  }

  /** Of the Commits for the third round, those of view 2 are the ones of b and c, and there is none later. */
  ghost predicate HeardRival(n: Node) {
    && RivalCommit(B) in n.log.messages && RivalCommit(C) in n.log.messages
    && forall m :: m in n.log.messages && m.Type() == Commit && m.SeqNum() == 3 ==> m.View() <= 1 || m == RivalCommit(B) || m == RivalCommit(C)
  }

  lemma DHearsRival(bad: set<ParsedMessage>, nodes: map<PeerId, Node>) returns (nodes': map<PeerId, Node>)
    requires Stage(bad, nodes) && nodes.Keys == {B, C, D} && Ahead(nodes[D], 2)
    requires forall m :: m in nodes[D].log.messages && m.Type() == Commit && m.SeqNum() == 3 ==> m.View() <= 1
    requires Broadcast(Vote(Commit, B, 3, 2, RivalSum(3))) in nodes[B].calls && Broadcast(Vote(Commit, C, 3, 2, RivalSum(3))) in nodes[C].calls
    ensures Stage(bad, nodes') && D in nodes' && nodes' == nodes[D := nodes'[D]] && Ahead(nodes'[D], 2) && HeardRival(nodes'[D])
  {
    PeersDiffer();
    StageNode(bad, nodes, D);
    var n, env := nodes[D], PlainEnv(FOUR);
    SentIsOnNet(bad, nodes, B, RivalCommit(B).message);
    SentIsOnNet(bad, nodes, C, RivalCommit(C).message);
    LateCommitIsLogged(n, B, env);
    LateCommitIsLogged(WithMessage(n, RivalCommit(B)), C, env);
    HearTwo(n, RivalCommit(B), RivalCommit(C), env);
    Listen(bad, nodes, D, n, [RivalCommit(B), RivalCommit(C)]);
    nodes' := nodes[D := Hear(n, [RivalCommit(B), RivalCommit(C)], env)];
  }

  /** Peer d, with all that has happened, leads view 3. */
  lemma DLeadsViewThree(bad: set<ParsedMessage>) returns (nodes: map<PeerId, Node>)
    requires Splits(bad)
    ensures Stage(bad, nodes) && D in nodes && Ahead(nodes[D], 3) && HeardRival(nodes[D])
  {
    PeersDiffer();
    nodes := DInViewTwo(bad);
    nodes := GivesUp(bad, nodes, B, 2, SealFor(1));
    nodes := GivesUp(bad, nodes, C, 2, SealFor(1));
    nodes := DFollows(bad, nodes, 2);
  }

  lemma DInViewTwo(bad: set<ParsedMessage>) returns (nodes: map<PeerId, Node>)
    requires Splits(bad)
    ensures Stage(bad, nodes) && nodes.Keys == {B, C, D} && Ahead(nodes[D], 2) && HeardRival(nodes[D]) && Voted(nodes[B], B) && Voted(nodes[C], C)
  {
    PeersDiffer();
    nodes := RivalIsCommitted(bad);
    nodes := DFollows(bad, nodes, 1);
    nodes := DHearsRival(bad, nodes);
  }

  /** The votes picked for the next seal are fit for one, and name another block than this one
      that the node itself committed: nothing it publishes on that block is accepted. */
  ghost predicate LeadsAnother(n: Node, v: nat, d: ServiceCall) {
    && n.state.Sound() && n.state.IsPrimary() && n.state.phase == PrePreparing
    && d in n.calls && d.CommitBlock? && d.seqNum + 1 == n.state.seqNum
    && SealViewIs(n, v) && Presentable(SealSource(n, v), n.state.f) && RefusedOn(n, d.committed)
  }

  lemma RivalIsNamed(n: Node)
    requires n.state.Sound() && Ahead(n, 3) && HeardRival(n)
    ensures LeadsAnother(n, 2, CommitBlock(IdOf(3), 1, 3))
  {
    PeersDiffer();
    OnChain(3);
    RivalSource(n);
    OtherNameIsRefused(n, 2, IdOf(3));
  }

  lemma RivalSource(n: Node)
    requires n.state.Sound() && n.state.seqNum == 4 && n.state.f == 1 && HeardRival(n)
    ensures SealViewIs(n, 2) && Presentable(SealSource(n, 2), 1) && !Names(SealSource(n, 2), IdOf(3))
  {
    PeersDiffer();
    OnChain(3);
    assert SealSource(n, 2) == {RivalCommit(B), RivalCommit(C)} && Signers({RivalCommit(B), RivalCommit(C)}) == {B, C};
    assert |{B, C}| == 2 && |{RivalCommit(B), RivalCommit(C)}| == 2;
    forall u: nat | u > 2 ensures |SealSource(n, u)| < 2 {
      assert SealSource(n, u) == {};
    }
    assert RivalCommit(B) in SealSource(n, 2);
  }

  /** In the same run d follows the others to view 3 and leads it. The votes of view 2 that it has
      heard are then picked for its seal, and nobody accepts what it builds on the block that it
      committed. */
  lemma SealCanNameAnotherBlock()
    ensures exists c, h, k: nat, p, v: nat, d :: Shown(c, h, k, p) && LeadsAnother(h.states[k].nodes[p], v, d)
  {
    var bad := SplitIs();
    var nodes := DLeadsViewThree(bad);
    StageNode(bad, nodes, D);
    RivalIsNamed(nodes[D]);
    var h :| Ends(h, bad, nodes);
    assert Shown(Four(), h, |h.moves|, D) && h.states[|h.moves|].nodes[D] == nodes[D];
  }
}
