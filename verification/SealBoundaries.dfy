/** Runs in which the next seal cannot be built, or is built and refused. The exact conditions are
    in `Seals` and `Publication`. */
module SealBoundaries {
  import opened Types
  import opened State
  import opened MessageLog
  import opened Protocol
  import opened Ledger
  import opened Quorums
  import opened Provenance
  import opened Commits
  import opened Views
  import opened Seals
  import opened Runs
  import opened Retention
  import opened Progress
  import opened Publication
  import opened Scenario
  import opened Rounds
  import opened Boundaries

  // ---------- A growing network ----------

  const SEVEN := FOUR + [PeerId("e"), PeerId("f"), PeerId("g")]

  lemma NewPeerChangesMembership(s: StateValue, peers: seq<PeerId>, p: PeerId)
    requires p in peers && p !in s.peerIds
    ensures MembershipChanged(s, peers)
  {
    var now, before := set q | q in peers, set q | q in s.peerIds;
    assert p in now && p !in before;
  }

  lemma GrownBound(n: Node, id: BlockId)
    requires n.state.Sound() && n.state.peerIds == FOUR && n.state.seqNum == 1 && n.state.forcedViewChangePeriod == 3
    ensures NextFaultBound(n, id, PlainEnv(SEVEN)) == 2
  {
    assert SEVEN[4] == PeerId("e") && PeerId("e") !in FOUR;
    NewPeerChangesMembership(n.state, SEVEN, PeerId("e"));
  }

  lemma TwoAreTooFew(n: Node, s: nat, commits: seq<ParsedMessage>)
    requires |commits| == 2 && forall m :: m in n.log.messages && m.Type() == Commit && m.SeqNum() == s ==> m in commits || m.fromSelf
    ensures !EnoughCommits(n.log.messages, s, 4)
  {
    forall v: nat ensures |Group(n.log.messages, Commit, s, v)| < 4 {
      SubsetCardinality(Group(n.log.messages, Commit, s, v), {commits[0], commits[1]});
    }
  }

  /** When the peers on chain grow from four to seven, the Commits that finished the block no
      longer suffice for the seal of the next one. */
  lemma GrowthCanWithholdTheSeal()
    ensures exists n, id, env: Env ::
              && Reachable(n) && n.state.Sound() && env.Valid() && n.state.phase == Finished && IsWorkingBlock(n, id)
              && !SealReady(Step(n, UpdateBlockCommit(id), env))
  {
    var bad := PlotIs();
    var nodes := BFinishesFirst(bad);
    var n, id := nodes[B], IdOf(1);
    StageNode(bad, nodes, B);
    OnChain(1);
    GrownBound(n, id);
    TwoAreTooFew(n, 1, CommitsFor(C, 1, 0, Sum(1)));
    SealWithheld(n, id, PlainEnv(SEVEN));
  }

  lemma SealWithheld(n: Node, id: BlockId, env: Env)
    requires n.state.Sound() && env.Valid() && n.state.phase == Finished && IsWorkingBlock(n, id)
    requires !EnoughCommits(n.log.messages, n.state.seqNum, 4) && NextFaultBound(n, id, env) == 2
    ensures !SealReady(Step(n, UpdateBlockCommit(id), env))
  {
    SealReadyExactly(n, id, env);
  }

  // ---------- A stray Commit ----------

  /** A primary about to publish, with enough votes for a seal that nobody accepts. */
  ghost predicate LeadsInVain(n: Node) {
    n.state.Sound() && n.state.IsPrimary() && n.state.phase == PrePreparing && SealReady(n) && SealRefused(n)
  }

  lemma SpoiledPrimaryLeadsInVain(n: Node)
    requires n.state.Sound() && n.state.IsPrimary() && n.state.phase == PrePreparing && n.state.seqNum >= 2
    requires SealViewIs(n, 0) && Spoiled(SealSource(n, 0))
    ensures LeadsInVain(n)
  {
    SpoiledSealIsRefused(n, 0);
    assert |Group(n.log.messages, Commit, n.state.seqNum - 1, 0)| >= 2 * n.state.f;
  }

  /** Peer b has committed the second block. */
  lemma BFinishesSecond(bad: set<ParsedMessage>) returns (nodes: map<PeerId, Node>)
    requires Plots(bad)
    ensures Stage(bad, nodes) && nodes.Keys == {B, C, D} && Finisher(nodes[B], B, 2, 0, BlockAt(2), CommitsFor(C, 2, 0, Sum(2)))
  {
    PeersDiffer();
    OnChain(2);
    var ready := AfterOneRound(bad);
    BlockFits(bad, ready, 2);
    var open := AllOpen(bad, ready, 2, BlockAt(2));
    var prepared := AllPrepare(bad, open, 2, BlockAt(2));
    nodes := PeerFinishes(bad, prepared, B, C, 2, 0, BlockAt(2));
  }

  /** With a view change forced at every third block, b leads the third round. */
  lemma ThirdRoundIsLed(n: Node, id: BlockId)
    requires n.state.Sound() && n.state.phase == Finished && IsWorkingBlock(n, id) && n.state.seqNum == 2 && n.state.forcedViewChangePeriod == 3
    requires n.state.view == 0 && n.state.id == B && n.state.peerIds == FOUR
    ensures var n' := OnBlockCommit(n, id, PlainEnv(FOUR));
            && n'.state.seqNum == 3 && n'.state.view == 1 && n'.state.f == 1 && n'.state.IsPrimary() && n'.state.phase == PrePreparing
            && n'.state.id == B && n'.state.peerIds == FOUR && n.calls <= n'.calls
            && forall v: nat :: Group(n'.log.messages, Commit, 2, v) == Group(n.log.messages, Commit, 2, v)
  {
    PeersDiffer();
    var env := PlainEnv(FOUR);
    AdvanceOnBlockCommit(n, id, env);
    ViewOnBlockCommit(n, id, env);
    PeersOnBlockCommit(n, id, env);
    forall v: nat ensures Group(OnBlockCommit(n, id, env).log.messages, Commit, 2, v) == Group(n.log.messages, Commit, 2, v) {
      PruningKeepsPrevious(n, id, env, v);
    }
  }

  /** The votes of others for the second block are those of the faulty peer and of c. */
  lemma SecondVotes(n: Node, v: nat)
    requires Finisher(n, B, 2, 0, BlockAt(2), CommitsFor(C, 2, 0, Sum(2)))
    ensures Group(n.log.messages, Commit, 2, v) == if v == 0 then {CommitsFor(C, 2, 0, Sum(2))[0], CommitsFor(C, 2, 0, Sum(2))[1]} else {}
  {
    var cs := CommitsFor(C, 2, 0, Sum(2));
    assert cs[0] in cs && cs[1] in cs && forall m :: m in cs ==> m == cs[0] || m == cs[1];
  }

  lemma StraySource(n: Node, n': Node)
    requires Finisher(n, B, 2, 0, BlockAt(2), CommitsFor(C, 2, 0, Sum(2))) && n'.state.Sound() && n'.state.f == 1 && n'.state.seqNum == 3
    requires forall v: nat :: Group(n'.log.messages, Commit, 2, v) == Group(n.log.messages + {STRAY_COMMIT}, Commit, 2, v)
    ensures SealViewIs(n', 0) && Spoiled(SealSource(n', 0))
  {
    var x := CommitsFor(C, 2, 0, Sum(2))[0];
    SecondVotes(n, 0);
    assert x in SealSource(n', 0) && STRAY_COMMIT in SealSource(n', 0);
    assert |OTHER.blockId.hash| == 1 && |Sum(2).blockId.hash| == 2;
    SubsetCardinality({x, STRAY_COMMIT}, SealSource(n', 0));
    forall u: nat | u > 0 ensures |SealSource(n', u)| < 2 {
      SecondVotes(n, u);
      assert Group(n.log.messages + {STRAY_COMMIT}, Commit, 2, u) == {};
    }
  }

  lemma LedAstray(n: Node)
    requires n.state.Sound() && Finisher(n, B, 2, 0, BlockAt(2), CommitsFor(C, 2, 0, Sum(2)))
    ensures LeadsInVain(OnBlockCommit(WithMessage(n, STRAY_COMMIT), IdOf(2), PlainEnv(FOUR)))
  {
    OnChain(2);
    var n1 := WithMessage(n, STRAY_COMMIT);
    ThirdRoundIsLed(n1, IdOf(2));
    StraySource(n, OnBlockCommit(n1, IdOf(2), PlainEnv(FOUR)));
    SpoiledPrimaryLeadsInVain(OnBlockCommit(n1, IdOf(2), PlainEnv(FOUR)));
  }

  /** One Commit for another block, from the faulty peer, in the view that finished the round: the
      next primary builds a seal with it, and nothing it publishes is accepted. */
  lemma OneStrayCommitSpoilsTheSeal()
    ensures exists c, h, k: nat, p :: Shown(c, h, k, p) && LeadsInVain(h.states[k].nodes[p])
  {
    var bad := PlotIs();
    var nodes := BFinishesSecond(bad);
    StageNode(bad, nodes, B);
    var mid := StrayArrives(bad, nodes, nodes[B]);
    LedAstray(nodes[B]);
    var h, k := StepIsShown(bad, mid, B, mid[B], UpdateBlockCommit(IdOf(2)));
    assert Shown(Four(), h, k + 1, B) && LeadsInVain(h.states[k + 1].nodes[B]);
  }

  lemma StrayArrives(bad: set<ParsedMessage>, nodes: map<PeerId, Node>, n: Node) returns (nodes': map<PeerId, Node>)
    requires Plots(bad) && Stage(bad, nodes) && B in nodes && nodes[B] == n && n.state.Sound() && n.state.phase == Finished && n.state.seqNum == 2 && n.state.view == 0
    ensures nodes' == nodes[B := WithMessage(n, STRAY_COMMIT)] && Stage(bad, nodes')
  {
    PeersDiffer();
    StageNode(bad, nodes, B);
    CommitIsCounted(n, STRAY_COMMIT, PlainEnv(FOUR));
    assert Audible(bad, nodes, B, [STRAY_COMMIT]);
    Arrives(bad, nodes, B, n, STRAY_COMMIT);
    nodes' := nodes[B := WithMessage(n, STRAY_COMMIT)];
  }

  // ---------- Votes without signature ----------

  /** Peer d has voted for the second block while b has only heard of it. */
  lemma BIsLate(bad: set<ParsedMessage>) returns (nodes: map<PeerId, Node>)
    requires Plots(bad)
    ensures Stage(bad, nodes) && nodes.Keys == {B, C, D} && Ready(nodes[B], B, 2, 0) && Fit(bad, nodes, BlockAt(2)) && VotersSent(nodes, 2)
  {
    PeersDiffer();
    OnChain(2);
    var ready := AfterOneRound(bad);
    BlockFits(bad, ready, 2);
    var open := BothOpen(bad, ready);
    nodes := PeerPrepares(bad, open, D, C, 2, 0, BlockAt(2));
    FitStays(bad, open, nodes, BlockAt(2));
  }

  lemma BothOpen(bad: set<ParsedMessage>, nodes: map<PeerId, Node>) returns (nodes': map<PeerId, Node>)
    requires Leads(bad, 2, Sum(2)) && Stage(bad, nodes) && AllReady(nodes, 2, 0) && Fit(bad, nodes, BlockAt(2))
    ensures Stage(bad, nodes') && nodes'.Keys == {B, C, D} && nodes'[B] == nodes[B] && Fit(bad, nodes', BlockAt(2))
    ensures Preparer(nodes'[D], D, 2, 0, BlockAt(2)) && Broadcast(Vote(Prepare, C, 2, 0, Sum(2))) in nodes'[C].calls
  {
    PeersDiffer();
    OnChain(2);
    nodes' := PeerOpens(bad, nodes, C, 2, BlockAt(2));
    nodes' := PeerOpens(bad, nodes', D, 2, BlockAt(2));
  }

  lemma LateNode(n: Node)
    requires n.state.Sound() && Ready(n, B, 2, 0)
    ensures CatchesUpLate(OnBlockNew(n, BlockAt(2), PlainEnv(FOUR)).node)
  {
    PeersDiffer();
    OnChain(2);
    BlockVerifies(n, 2);
    var n1 := OnBlockNew(n, BlockAt(2), PlainEnv(FOUR)).node;
    BlockVerifies(n1, 3);
    SealVotes(2);
  }

  lemma BHasTheBlock(bad: set<ParsedMessage>) returns (nodes: map<PeerId, Node>)
    requires Plots(bad)
    ensures Stage(bad, nodes) && B in nodes && Fit(bad, nodes, BlockAt(3)) && CatchesUpLate(nodes[B])
  {
    var before := BIsLate(bad);
    StageNode(bad, before, B);
    LateNode(before[B]);
    nodes := HearsOf(bad, before, B, before[B], BlockAt(2));
    BlockFits(bad, nodes, 3);
  }

  /** In the second round without having voted, with the third block about to arrive. */
  ghost predicate CatchesUpLate(n: Node) {
    && n.state.Sound() && n.state.id == B && n.state.seqNum == 2 && n.state.view == 0 && n.state.peerIds == FOUR && n.state.f == 1
    && n.state.forcedViewChangePeriod == 3 && CatchesUpOn(n, BlockAt(3), PlainEnv(FOUR)) && SealOfCommits(BlockAt(3))
    && forall m :: m in n.log.messages && m.Type() == Commit ==> m.SeqNum() < 2
  }

  lemma CaughtUpSource(n: Node, n': Node)
    requires n'.state.Sound() && n'.state.f == 1 && n'.state.seqNum == 3 && forall m :: m in n.log.messages && m.Type() == Commit ==> m.SeqNum() < 2
    requires forall v: nat :: SealSource(n', v) == Group(RoundVotes(n, UpdateBlockNew(BlockAt(3))), Commit, 2, v)
    ensures SealViewIs(n', 0)
  {
    PeersDiffer();
    var d, a := FromPbftMessage(VoteOn(2, 0, D).message), FromPbftMessage(VoteOn(2, 0, A).message);
    assert SealMessages(SealFor(2)) == [d, a];
    assert d in SealMessages(SealFor(2)) && a in SealMessages(SealFor(2));
    SubsetCardinality({d, a}, SealSource(n', 0));
    forall u: nat | u > 0 ensures |SealSource(n', u)| < 2 {
      assert SealSource(n', u) == {};
    }
  }

  lemma CaughtUpNode(n: Node)
    requires n.state.Sound() && n.state.id == B && n.state.seqNum == 2 && n.state.view == 0 && n.state.peerIds == FOUR && n.state.f == 1
    requires n.state.forcedViewChangePeriod == 3 && CatchesUpOn(n, BlockAt(3), PlainEnv(FOUR)) && SealOfCommits(BlockAt(3))
    ensures var n' := OnBlockNew(n, BlockAt(3), PlainEnv(FOUR)).node;
            n'.state.seqNum == 3 && n'.state.IsPrimary() && n'.state.phase == PrePreparing && n'.state.f == 1
  {
    PeersDiffer();
    var env := PlainEnv(FOUR);
    CatchupIsCorrect(n, BlockAt(3), env);
    SamePeers(n, UpdateBlockNew(BlockAt(3)));
    CaughtUpRole(n);
  }

  lemma CaughtUpRole(n: Node)
    requires n.state.Sound() && n.state.id == B && n.state.seqNum == 2 && n.state.view == 0 && n.state.peerIds == FOUR && n.state.f == 1
    requires n.state.forcedViewChangePeriod == 3 && CatchesUpOn(n, BlockAt(3), PlainEnv(FOUR)) && SealOfCommits(BlockAt(3))
    ensures OnBlockNew(n, BlockAt(3), PlainEnv(FOUR)).node.state.IsPrimary()
  {
    CatchupRotates(n, BlockAt(3), PlainEnv(FOUR));
    SamePeers(n, UpdateBlockNew(BlockAt(3)));
    SecondLeads(OnBlockNew(n, BlockAt(3), PlainEnv(FOUR)).node.state);
  }

  lemma SecondLeads(s: StateValue)
    requires s.Sound() && s.id == B && s.peerIds == FOUR && s.view == 1 && s.RoleMatches()
    ensures s.IsPrimary()
  {
    PeersDiffer();
  }

  lemma CatchupRotates(n: Node, block: Block, env: Env)
    requires n.state.Sound() && env.Valid() && CatchesUpOn(n, block, env) && SealOfCommits(block) && (n.state.seqNum + 1) % n.state.forcedViewChangePeriod == 0
    ensures var n' := OnBlockNew(n, block, env).node;
            n'.state.view == SealView(n, block.payload.seal) + 1 && n'.state.RoleMatches() && n'.state.id == n.state.id
  {
    ViewOnBlockNew(n, block, env);
    EffectOfStep(n, UpdateBlockNew(block), env);
  }

  lemma CatchesUpInVain(n: Node)
    requires CatchesUpLate(n)
    ensures LeadsInVain(OnBlockNew(n, BlockAt(3), PlainEnv(FOUR)).node)
  {
    var env := PlainEnv(FOUR);
    var n' := OnBlockNew(n, BlockAt(3), env).node;
    CaughtUpNode(n);
    forall v: nat ensures SealSource(n', v) == Group(RoundVotes(n, UpdateBlockNew(BlockAt(3))), Commit, 2, v) {
      SourceAfterCatchup(n, BlockAt(3), env, v);
    }
    CaughtUpSource(n, n');
    CatchupSpoilsTheSeal(n, BlockAt(3), env);
    SpoiledPrimaryLeadsInVain(n');
  }

  /** A primary that caught up to its round builds the next seal from votes without signatures, and
      nothing it publishes is accepted. */
  lemma CatchupCanSpoilTheSeal()
    ensures exists c, h, k: nat, p :: Shown(c, h, k, p) && LeadsInVain(h.states[k].nodes[p])
  {
    var bad := PlotIs();
    var nodes := BHasTheBlock(bad);
    StageNode(bad, nodes, B);
    CatchesUpInVain(nodes[B]);
    var h, k := StepIsShown(bad, nodes, B, nodes[B], UpdateBlockNew(BlockAt(3)));
    assert Shown(Four(), h, k + 1, B) && LeadsInVain(h.states[k + 1].nodes[B]);
  }
}
