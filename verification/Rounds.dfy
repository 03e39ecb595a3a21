/** Rounds of the cluster of `Scenario`: the faulty peer leads view 0 and votes as it should, and the
    correct ones prepare and commit block after block. */
module Rounds {
  import opened Types
  import opened State
  import opened MessageLog
  import opened Protocol
  import opened Ledger
  import opened Commits
  import opened Views
  import opened Seals
  import opened Retention
  import opened Progress
  import opened Network
  import opened Scenario

  // ---------- A round of one peer ----------

  /** The peer is at this number and view, and has heard of nothing beyond. */
  ghost predicate Stands(n: Node, p: PeerId, s: nat, v: nat) {
    && n.state.id == p && n.state.seqNum == s && n.state.view == v && n.state.mode == Normal
    && n.state.peerIds == FOUR && n.state.f == 1 && n.state.forcedViewChangePeriod == 3 && n.state.RoleMatches()
    && forall m :: m in n.log.messages ==> m.SeqNum() <= s && (m.SeqNum() == s || m.Type() == ViewChange ==> m.View() <= v)
  }

  ghost predicate Ready(n: Node, p: PeerId, s: nat, v: nat) {
    Stands(n, p, s, v) && Waits(n) && n.state.workingBlock.None?
  }

  function Vote(t: MessageType, p: PeerId, s: nat, v: nat, b: PbftBlock): Wrapper {
    Message(PbftMessage(t, v, s, p, b))
  }

  ghost predicate SealStored(n: Node, s: nat, block: Block) {
    block.payload.Sealed? ==> SealEntry(block.blockId, s, block.payload.seal) in n.log.seals
  }

  ghost predicate VotesAreOwn(n: Node, t: MessageType, s: nat, v: nat) {
    forall m :: m in n.log.messages && m.At(t, s, v) ==> m.fromSelf
  }

  /** The seals of earlier rounds are still there. */
  ghost predicate SealsKept(n: Node, n': Node) {
    forall k: nat :: k < n.state.seqNum ==> n'.log.SealsAt(k) == n.log.SealsAt(k)
  }

  ghost predicate Preparer(n: Node, p: PeerId, s: nat, v: nat, block: Block) {
    && Stands(n, p, s, v) && OwnPrepareOnly(n, PbftBlockFromBlock(block)) && SealStored(n, s, block)
    && VotesAreOwn(n, Prepare, s, v) && VotesAreOwn(n, Commit, s, v)
    && Broadcast(Vote(Prepare, p, s, v, PbftBlockFromBlock(block))) in n.calls
  }

  ghost predicate Committer(n: Node, p: PeerId, s: nat, v: nat, block: Block) {
    && Stands(n, p, s, v) && OwnCommitOnly(n, PbftBlockFromBlock(block)) && SealStored(n, s, block)
    && VotesAreOwn(n, Commit, s, v)
    && Broadcast(Vote(Commit, p, s, v, PbftBlockFromBlock(block))) in n.calls
  }

  ghost predicate Finisher(n: Node, p: PeerId, s: nat, v: nat, block: Block, commits: seq<ParsedMessage>) {
    && Stands(n, p, s, v) && n.state.phase == Finished && n.state.workingBlock == Some(PbftBlockFromBlock(block)) && SealStored(n, s, block)
    && (forall m :: m in commits ==> m in n.log.messages)
    && (forall m :: m in n.log.messages && m.At(Commit, s, v) ==> m in commits || m.fromSelf)
    && CommitBlock(block.blockId, v, s) in n.calls
  }

  /** The block is on the chain, its seal holds genuine votes, and it verifies. */
  ghost predicate Fit(bad: set<ParsedMessage>, nodes: map<PeerId, Node>, block: Block) {
    && block == Chain()(block.blockId) && SealOfCommits(block) && SealHonest(Scene(bad, nodes), block)
    && forall n: Node {:trigger VerifyConsensusSeal(n, block, PlainEnv(FOUR))} :: n.state.f == 1 ==>
         VerifyConsensusSeal(n, block, PlainEnv(FOUR)) == Success(if block.payload.Sealed? then Some(block.payload.seal) else None)
  }

  /** What makes a node a preparer: the block is announced and its PrePrepare logged and answered. */
  lemma AnswerMakesPreparer(n: Node, n': Node, p: PeerId, s: nat, v: nat, block: Block, pp: ParsedMessage)
    requires n.state.Sound() && Ready(n, p, s, v) && block.blockNum == s && pp.At(PrePrepare, s, v) && OwnPrepareOnly(n', PbftBlockFromBlock(block))
    requires n'.state == n.state.(workingBlock := n'.state.workingBlock, phase := n'.state.phase, timeout := n'.state.timeout)
    requires var own := OwnVote(n, Prepare, PbftBlockFromBlock(block));
             n'.log.messages == n.log.messages + {BlockNewMessage(n, block)} + {pp} + {SelfMessage(own)} && Broadcast(own) in n'.calls
    requires n'.log.seals == if block.payload.Sealed? then n.log.seals + {SealEntry(block.blockId, s, block.payload.seal)} else n.log.seals
    ensures Preparer(n', p, s, v, block) && SealsKept(n, n')
  {
    forall k: nat | k < s ensures n'.log.SealsAt(k) == n.log.SealsAt(k) {
    }
  }

  lemma OpeningNode(n: Node, p: PeerId, s: nat, v: nat, block: Block, pp: ParsedMessage)
    requires n.state.Sound() && PrePreparesAgree(n.log.messages) && Ready(n, p, s, v) && FOUR[v % 4] != p && block.blockNum == s
    requires VerifyConsensusSeal(n, block, PlainEnv(FOUR)) == Success(if block.payload.Sealed? then Some(block.payload.seal) else None)
    requires pp.VotesFor(PrePrepare, s, v, PbftBlockFromBlock(block)) && pp.SignerId() == FOUR[v % 4] && !pp.fromSelf
    ensures Preparer(Opened(n, block, pp, PlainEnv(FOUR)), p, s, v, block) && SealsKept(n, Opened(n, block, pp, PlainEnv(FOUR)))
  {
    assert Offered(n, block, pp, PlainEnv(FOUR));
    RoundOpens(n, block, pp, PlainEnv(FOUR));
    OpenedRound(n, block, pp, PlainEnv(FOUR));
    AnswerMakesPreparer(n, Opened(n, block, pp, PlainEnv(FOUR)), p, s, v, block, pp);
  }

  lemma OpenRound(bad: set<ParsedMessage>, nodes: map<PeerId, Node>, p: PeerId, n: Node, s: nat, v: nat, block: Block, pp: ParsedMessage)
    returns (n': Node, nodes': map<PeerId, Node>)
    requires Stage(bad, nodes) && p in nodes && nodes[p] == n && n.state.Sound() && Ready(n, p, s, v) && FOUR[v % 4] != p
    requires Fit(bad, nodes, block) && block.blockNum == s && Audible(bad, nodes, p, [pp])
    requires pp.VotesFor(PrePrepare, s, v, PbftBlockFromBlock(block)) && pp.SignerId() == FOUR[v % 4]
    ensures nodes' == nodes[p := n'] && Stage(bad, nodes') && n.calls <= n'.calls && Preparer(n', p, s, v, block) && SealsKept(n, n')
  {
    assert pp in [pp];
    var n1 := OnBlockNew(n, block, PlainEnv(FOUR)).node;
    StageNode(bad, nodes, p);
    var mid := HearsOf(bad, nodes, p, n, block);
    StageNode(bad, mid, p);
    StillAudible(bad, nodes, p, n1, [pp]);
    n' := Opened(n, block, pp, PlainEnv(FOUR));
    Arrives(bad, mid, p, n1, pp);
    Overwrite(nodes, p, n1, n');
    nodes' := nodes[p := n'];
    OpeningNode(n, p, s, v, block, pp);
  }

  lemma ProposingNode(n: Node, p: PeerId, s: nat, v: nat, block: Block)
    requires n.state.Sound() && PrePreparesAgree(n.log.messages) && Ready(n, p, s, v) && FOUR[v % 4] == p && block.blockNum == s
    requires VerifyConsensusSeal(n, block, PlainEnv(FOUR)) == Success(if block.payload.Sealed? then Some(block.payload.seal) else None)
    ensures var n' := OnBlockNew(n, block, PlainEnv(FOUR)).node;
            Preparer(n', p, s, v, block) && SealsKept(n, n') && Broadcast(Vote(PrePrepare, p, s, v, PbftBlockFromBlock(block))) in n'.calls
  {
    RoundIsProposed(n, block, PlainEnv(FOUR));
    ProposedRound(n, block, PlainEnv(FOUR));
    AnswerMakesPreparer(n, OnBlockNew(n, block, PlainEnv(FOUR)).node, p, s, v, block, SelfMessage(OwnVote(n, PrePrepare, PbftBlockFromBlock(block))));
  }

  /** The primary of the view hears of the block and proposes it. */
  lemma Proposes(bad: set<ParsedMessage>, nodes: map<PeerId, Node>, p: PeerId, s: nat, v: nat, block: Block) returns (nodes': map<PeerId, Node>)
    requires Stage(bad, nodes) && p in nodes && Ready(nodes[p], p, s, v) && FOUR[v % 4] == p && Fit(bad, nodes, block) && block.blockNum == s
    ensures Stage(bad, nodes') && CallsKept(nodes, nodes') && Fit(bad, nodes', block) && p in nodes' && nodes' == nodes[p := nodes'[p]]
    ensures Preparer(nodes'[p], p, s, v, block) && SealsKept(nodes[p], nodes'[p])
    ensures Broadcast(Vote(PrePrepare, p, s, v, PbftBlockFromBlock(block))) in nodes'[p].calls
  {
    StageNode(bad, nodes, p);
    ProposingNode(nodes[p], p, s, v, block);
    nodes' := HearsOf(bad, nodes, p, nodes[p], block);
    FitStays(bad, nodes, nodes', block);
  }

  lemma HearsOf(bad: set<ParsedMessage>, nodes: map<PeerId, Node>, p: PeerId, n: Node, block: Block) returns (nodes': map<PeerId, Node>)
    requires Stage(bad, nodes) && p in nodes && nodes[p] == n && n.state.Sound() && Fit(bad, nodes, block)
    ensures nodes' == nodes[p := OnBlockNew(n, block, PlainEnv(FOUR)).node] && Stage(bad, nodes') && n.calls <= nodes'[p].calls
  {
    nodes' := Act(bad, nodes, p, n, UpdateBlockNew(block));
  }

  lemma PreparingNode(n: Node, p: PeerId, s: nat, v: nat, block: Block, prepares: seq<ParsedMessage>)
    requires n.state.Sound() && Preparer(n, p, s, v, block) && NewVotes(prepares, n.log.messages, Prepare, s, v, PbftBlockFromBlock(block)) && |prepares| == 2
    ensures var n' := OnBlockValid(Hear(n, prepares, PlainEnv(FOUR)), block.blockId, PlainEnv(FOUR)).node; Committer(n', p, s, v, block) && SealsKept(n, n')
  {
    RoundPrepares(n, PbftBlockFromBlock(block), prepares, PlainEnv(FOUR));
  }

  lemma PreparedNames(n: Node, p: PeerId, s: nat, v: nat, block: Block, prepares: seq<ParsedMessage>)
    requires n.state.Sound() && Preparer(n, p, s, v, block) && NewVotes(prepares, n.log.messages, Prepare, s, v, PbftBlockFromBlock(block)) && |prepares| == 2
    ensures ValidNamesPrePrepared(Hear(n, prepares, PlainEnv(FOUR)), UpdateBlockValid(block.blockId))
  {
    var b := PbftBlockFromBlock(block);
    HearPrepares(n, prepares, b, PlainEnv(FOUR));
    PreparesOnly(n.log.messages, prepares, s, v, b, SelfMessage(OwnVote(n, Commit, b)));
  }

  lemma PrepareRound(bad: set<ParsedMessage>, nodes: map<PeerId, Node>, p: PeerId, n: Node, s: nat, v: nat, block: Block, prepares: seq<ParsedMessage>)
    returns (n': Node, nodes': map<PeerId, Node>)
    requires Stage(bad, nodes) && p in nodes && nodes[p] == n && n.state.Sound() && Preparer(n, p, s, v, block)
    requires Audible(bad, nodes, p, prepares) && |prepares| == 2 && NewVotes(prepares, n.log.messages, Prepare, s, v, PbftBlockFromBlock(block))
    ensures nodes' == nodes[p := n'] && Stage(bad, nodes') && n.calls <= n'.calls && Committer(n', p, s, v, block) && SealsKept(n, n')
  {
    PreparingNode(n, p, s, v, block, prepares);
    PreparedNames(n, p, s, v, block, prepares);
    Listen(bad, nodes, p, n, prepares);
    var n1 := Hear(n, prepares, PlainEnv(FOUR));
    nodes' := FoundValid(bad, nodes[p := n1], p, n1, block.blockId);
    n' := nodes'[p];
    Overwrite(nodes, p, n1, n');
  }

  lemma FoundValid(bad: set<ParsedMessage>, nodes: map<PeerId, Node>, p: PeerId, n: Node, id: BlockId) returns (nodes': map<PeerId, Node>)
    requires Stage(bad, nodes) && p in nodes && nodes[p] == n && n.state.Sound() && ValidNamesPrePrepared(n, UpdateBlockValid(id))
    ensures nodes' == nodes[p := OnBlockValid(n, id, PlainEnv(FOUR)).node] && Stage(bad, nodes') && n.calls <= nodes'[p].calls
  {
    nodes' := Act(bad, nodes, p, n, UpdateBlockValid(id));
  }

  lemma CommittingNode(n: Node, p: PeerId, s: nat, v: nat, block: Block, commits: seq<ParsedMessage>)
    requires n.state.Sound() && Committer(n, p, s, v, block) && NewVotes(commits, n.log.messages, Commit, s, v, PbftBlockFromBlock(block)) && |commits| == 2
    ensures Finisher(Hear(n, commits, PlainEnv(FOUR)), p, s, v, block, commits) && SealsKept(n, Hear(n, commits, PlainEnv(FOUR)))
  {
    HearCommits(n, commits, PbftBlockFromBlock(block), PlainEnv(FOUR));
  }

  lemma CommitRound(bad: set<ParsedMessage>, nodes: map<PeerId, Node>, p: PeerId, n: Node, s: nat, v: nat, block: Block, commits: seq<ParsedMessage>)
    returns (n': Node, nodes': map<PeerId, Node>)
    requires Stage(bad, nodes) && p in nodes && nodes[p] == n && n.state.Sound() && Committer(n, p, s, v, block)
    requires Audible(bad, nodes, p, commits) && |commits| == 2 && NewVotes(commits, n.log.messages, Commit, s, v, PbftBlockFromBlock(block))
    ensures nodes' == nodes[p := n'] && Stage(bad, nodes') && n.calls <= n'.calls && Finisher(n', p, s, v, block, commits) && SealsKept(n, n')
  {
    CommittingNode(n, p, s, v, block, commits);
    Listen(bad, nodes, p, n, commits);
    n' := Hear(n, commits, PlainEnv(FOUR));
    nodes' := nodes[p := n'];
  }

  function NextView(s: nat, v: nat): nat {
    if (s + 1) % 3 == 0 then v + 1 else v
  }

  /** The messages of this round are of this view or earlier ones. */
  ghost predicate NoneLater(n: Node, s: nat, v: nat) {
    forall m :: m in n.log.messages && m.SeqNum() == s ==> m.View() <= v
  }

  ghost predicate SealFound(n: Node, s: nat, block: Block) {
    block.payload.Sealed? ==> n.log.GetConsensusSeal(s) == Success(block.payload.seal)
  }

  lemma EndingNode(n: Node, p: PeerId, s: nat, v: nat, block: Block, commits: seq<ParsedMessage>)
    requires n.state.Sound() && Finisher(n, p, s, v, block, commits)
    ensures var n' := OnBlockCommit(n, block.blockId, PlainEnv(FOUR)); Ready(n', p, s + 1, NextView(s, v)) && NoneLater(n', s, v)
  {
    var env := PlainEnv(FOUR);
    AdvanceOnBlockCommit(n, block.blockId, env);
    ViewOnBlockCommit(n, block.blockId, env);
    RoleOfStep(n, UpdateBlockCommit(block.blockId), env);
    PeersOnBlockCommit(n, block.blockId, env);
    NothingAhead(n, block.blockId, env);
  }

  lemma EndingSeal(n: Node, p: PeerId, s: nat, v: nat, block: Block, commits: seq<ParsedMessage>)
    requires n.state.Sound() && Finisher(n, p, s, v, block, commits) && SealsGenuine(n, Chain()) && block == Chain()(block.blockId)
    ensures SealFound(OnBlockCommit(n, block.blockId, PlainEnv(FOUR)), s, block)
  {
    SealKeptAtCommit(n, block.blockId, PlainEnv(FOUR), Chain());
  }

  lemma NothingAhead(n: Node, id: BlockId, env: Env)
    requires n.state.Sound() && env.Valid() && n.state.phase == Finished && IsWorkingBlock(n, id)
    requires forall m :: m in n.log.messages ==> m.SeqNum() <= n.state.seqNum
    ensures var n' := OnBlockCommit(n, id, env);
            && n'.state.workingBlock.None? && n'.log.messages <= n.log.messages
            && n'.state.id == n.state.id && n'.state.mode == n.state.mode && n'.state.forcedViewChangePeriod == n.state.forcedViewChangePeriod
  {
    assert OfTypeSeq(n.log.messages, BlockNew, n.state.seqNum + 1) == {};
  }

  lemma EndRound(bad: set<ParsedMessage>, nodes: map<PeerId, Node>, p: PeerId, n: Node, s: nat, v: nat, block: Block, commits: seq<ParsedMessage>)
    returns (n': Node, nodes': map<PeerId, Node>)
    requires Stage(bad, nodes) && p in nodes && nodes[p] == n && n.state.Sound() && Finisher(n, p, s, v, block, commits) && block == Chain()(block.blockId)
    ensures nodes' == nodes[p := n'] && Stage(bad, nodes') && n.calls <= n'.calls
    ensures Ready(n', p, s + 1, NextView(s, v)) && NoneLater(n', s, v) && SealFound(n', s, block)
  {
    StageNode(bad, nodes, p);
    EndingNode(n, p, s, v, block, commits);
    EndingSeal(n, p, s, v, block, commits);
    nodes' := Act(bad, nodes, p, n, UpdateBlockCommit(block.blockId));
    n' := nodes'[p];
  }

  // ---------- Rounds of all peers ----------

  ghost predicate CallsKept(nodes: map<PeerId, Node>, nodes': map<PeerId, Node>) {
    nodes'.Keys == nodes.Keys && forall p :: p in nodes ==> nodes[p].calls <= nodes'[p].calls
  }

  ghost predicate AllReady(nodes: map<PeerId, Node>, s: nat, v: nat) {
    B in nodes && C in nodes && D in nodes && Ready(nodes[B], B, s, v) && Ready(nodes[C], C, s, v) && Ready(nodes[D], D, s, v)
  }

  /** The faulty peer votes for the block. */
  ghost predicate Supports(bad: set<ParsedMessage>, s: nat, v: nat, b: PbftBlock) {
    Signed(Vote(Prepare, A, s, v, b)) in bad && Signed(Vote(Commit, A, s, v, b)) in bad
  }

  /** The faulty peer leads view 0 and votes as it should. */
  ghost predicate Leads(bad: set<ParsedMessage>, s: nat, b: PbftBlock) {
    Signed(Vote(PrePrepare, A, s, 0, b)) in bad && Supports(bad, s, 0, b)
  }

  /** All have sent this vote in view 0. */
  ghost predicate AllSent(nodes: map<PeerId, Node>, t: MessageType, s: nat, b: PbftBlock) {
    && B in nodes && C in nodes && D in nodes
    && Broadcast(Vote(t, B, s, 0, b)) in nodes[B].calls
    && Broadcast(Vote(t, C, s, 0, b)) in nodes[C].calls
    && Broadcast(Vote(t, D, s, 0, b)) in nodes[D].calls
  }

  lemma SentStays(nodes: map<PeerId, Node>, nodes': map<PeerId, Node>, t: MessageType, s: nat, b: PbftBlock)
    requires AllSent(nodes, t, s, b) && CallsKept(nodes, nodes')
    ensures AllSent(nodes', t, s, b)
  {
  }

  lemma FitStays(bad: set<ParsedMessage>, nodes: map<PeerId, Node>, nodes': map<PeerId, Node>, block: Block)
    requires Fit(bad, nodes, block) && CallsKept(nodes, nodes')
    ensures Fit(bad, nodes', block)
  {
    if block.payload.Sealed? {
      forall v | v in block.payload.seal.votes && v.message.signerId in nodes'
        ensures Broadcast(Message(v.message)) in nodes'[v.message.signerId].calls
      {
        assert Broadcast(Message(v.message)) in nodes[v.message.signerId].calls;
      }
    }
  }

  lemma PeerOpens(bad: set<ParsedMessage>, nodes: map<PeerId, Node>, p: PeerId, s: nat, block: Block) returns (nodes': map<PeerId, Node>)
    requires Stage(bad, nodes) && p in nodes && Ready(nodes[p], p, s, 0) && Fit(bad, nodes, block) && block.blockNum == s && Leads(bad, s, PbftBlockFromBlock(block))
    ensures Stage(bad, nodes') && CallsKept(nodes, nodes') && Fit(bad, nodes', block)
    ensures p in nodes' && nodes' == nodes[p := nodes'[p]] && Preparer(nodes'[p], p, s, 0, block)
  {
    PeersDiffer();
    StageNode(bad, nodes, p);
    nodes' := OpensFor(bad, nodes, p, A, s, 0, block);
  }

  /** The peer hears of the block and of the PrePrepare that `q`, the primary of the view, has sent for it. */
  lemma OpensFor(bad: set<ParsedMessage>, nodes: map<PeerId, Node>, p: PeerId, q: PeerId, s: nat, v: nat, block: Block) returns (nodes': map<PeerId, Node>)
    requires Stage(bad, nodes) && p in nodes && Ready(nodes[p], p, s, v) && Fit(bad, nodes, block) && block.blockNum == s && FOUR[v % 4] == q && p != q
    requires Signed(Vote(PrePrepare, q, s, v, PbftBlockFromBlock(block))) in NetOf(bad, nodes)
    ensures Stage(bad, nodes') && CallsKept(nodes, nodes') && Fit(bad, nodes', block)
    ensures p in nodes' && nodes' == nodes[p := nodes'[p]] && Preparer(nodes'[p], p, s, v, block) && SealsKept(nodes[p], nodes'[p])
  {
    var pp := Signed(Vote(PrePrepare, q, s, v, PbftBlockFromBlock(block)));
    StageNode(bad, nodes, p);
    var n';
    n', nodes' := OpenRound(bad, nodes, p, nodes[p], s, v, block, pp);
    FitStays(bad, nodes, nodes', block);
  }

  lemma TwoVotes(bad: set<ParsedMessage>, nodes: map<PeerId, Node>, p: PeerId, q: PeerId, t: MessageType, s: nat, v: nat, b: PbftBlock)
    requires p in nodes && q in nodes && p != q && p != A && q != A && VotesAreOwn(nodes[p], t, s, v)
    requires Signed(Vote(t, A, s, v, b)) in bad && Broadcast(Vote(t, q, s, v, b)) in nodes[q].calls
    ensures var ms := [Signed(Vote(t, A, s, v, b)), Signed(Vote(t, q, s, v, b))];
            Audible(bad, nodes, p, ms) && NewVotes(ms, nodes[p].log.messages, t, s, v, b)
  {
    SentIsOnNet(bad, nodes, q, Vote(t, q, s, v, b));
  }

  lemma PeerPrepares(bad: set<ParsedMessage>, nodes: map<PeerId, Node>, p: PeerId, q: PeerId, s: nat, v: nat, block: Block) returns (nodes': map<PeerId, Node>)
    requires Stage(bad, nodes) && p in nodes && q in nodes && p != q && Preparer(nodes[p], p, s, v, block) && Supports(bad, s, v, PbftBlockFromBlock(block))
    requires Broadcast(Vote(Prepare, q, s, v, PbftBlockFromBlock(block))) in nodes[q].calls
    ensures Stage(bad, nodes') && CallsKept(nodes, nodes') && p in nodes' && nodes' == nodes[p := nodes'[p]]
    ensures Committer(nodes'[p], p, s, v, block) && SealsKept(nodes[p], nodes'[p])
  {
    PeersDiffer();
    var b := PbftBlockFromBlock(block);
    StageNode(bad, nodes, p);
    TwoVotes(bad, nodes, p, q, Prepare, s, v, b);
    var n';
    n', nodes' := PrepareRound(bad, nodes, p, nodes[p], s, v, block, [Signed(Vote(Prepare, A, s, v, b)), Signed(Vote(Prepare, q, s, v, b))]);
  }

  ghost function CommitsFor(q: PeerId, s: nat, v: nat, b: PbftBlock): seq<ParsedMessage> {
    [Signed(Vote(Commit, A, s, v, b)), Signed(Vote(Commit, q, s, v, b))]
  }

  lemma PeerFinishes(bad: set<ParsedMessage>, nodes: map<PeerId, Node>, p: PeerId, q: PeerId, s: nat, v: nat, block: Block) returns (nodes': map<PeerId, Node>)
    requires Stage(bad, nodes) && p in nodes && q in nodes && p != q && Committer(nodes[p], p, s, v, block) && Supports(bad, s, v, PbftBlockFromBlock(block))
    requires Broadcast(Vote(Commit, q, s, v, PbftBlockFromBlock(block))) in nodes[q].calls
    ensures Stage(bad, nodes') && CallsKept(nodes, nodes') && p in nodes' && nodes' == nodes[p := nodes'[p]]
    ensures Finisher(nodes'[p], p, s, v, block, CommitsFor(q, s, v, PbftBlockFromBlock(block))) && SealsKept(nodes[p], nodes'[p])
  {
    PeersDiffer();
    StageNode(bad, nodes, p);
    TwoVotes(bad, nodes, p, q, Commit, s, v, PbftBlockFromBlock(block));
    var n';
    n', nodes' := CommitRound(bad, nodes, p, nodes[p], s, v, block, CommitsFor(q, s, v, PbftBlockFromBlock(block)));
  }

  lemma PeerEnds(bad: set<ParsedMessage>, nodes: map<PeerId, Node>, p: PeerId, q: PeerId, s: nat, v: nat, block: Block) returns (nodes': map<PeerId, Node>)
    requires Stage(bad, nodes) && p in nodes && q in nodes && p != q && Committer(nodes[p], p, s, v, block) && Supports(bad, s, v, PbftBlockFromBlock(block))
    requires Broadcast(Vote(Commit, q, s, v, PbftBlockFromBlock(block))) in nodes[q].calls && block == Chain()(block.blockId)
    ensures Stage(bad, nodes') && CallsKept(nodes, nodes') && p in nodes' && nodes' == nodes[p := nodes'[p]]
    ensures Ready(nodes'[p], p, s + 1, NextView(s, v)) && NoneLater(nodes'[p], s, v) && SealFound(nodes'[p], s, block) && CommitBlock(block.blockId, v, s) in nodes'[p].calls
  {
    var mid := PeerFinishes(bad, nodes, p, q, s, v, block);
    StageNode(bad, mid, p);
    var n';
    n', nodes' := EndRound(bad, mid, p, mid[p], s, v, block, CommitsFor(q, s, v, PbftBlockFromBlock(block)));
    Overwrite(nodes, p, mid[p], n');
  }

  /** All peers are in Preparing, each with its own Prepare sent. */
  lemma AllOpen(bad: set<ParsedMessage>, nodes: map<PeerId, Node>, s: nat, block: Block) returns (nodes': map<PeerId, Node>)
    requires Stage(bad, nodes) && AllReady(nodes, s, 0) && Fit(bad, nodes, block) && block.blockNum == s && Leads(bad, s, PbftBlockFromBlock(block))
    ensures Stage(bad, nodes') && CallsKept(nodes, nodes') && AllSent(nodes', Prepare, s, PbftBlockFromBlock(block))
    ensures Preparer(nodes'[B], B, s, 0, block) && Preparer(nodes'[C], C, s, 0, block) && Preparer(nodes'[D], D, s, 0, block)
  {
    PeersDiffer();
    nodes' := PeerOpens(bad, nodes, B, s, block);
    nodes' := PeerOpens(bad, nodes', C, s, block);
    nodes' := PeerOpens(bad, nodes', D, s, block);
  }

  /** All peers are in Committing, each with its own Commit sent. */
  lemma AllPrepare(bad: set<ParsedMessage>, nodes: map<PeerId, Node>, s: nat, block: Block) returns (nodes': map<PeerId, Node>)
    requires Stage(bad, nodes) && AllSent(nodes, Prepare, s, PbftBlockFromBlock(block)) && Leads(bad, s, PbftBlockFromBlock(block))
    requires Preparer(nodes[B], B, s, 0, block) && Preparer(nodes[C], C, s, 0, block) && Preparer(nodes[D], D, s, 0, block)
    ensures Stage(bad, nodes') && CallsKept(nodes, nodes') && AllSent(nodes', Commit, s, PbftBlockFromBlock(block))
    ensures Committer(nodes'[B], B, s, 0, block) && Committer(nodes'[C], C, s, 0, block) && Committer(nodes'[D], D, s, 0, block)
  {
    PeersDiffer();
    var mid := TwoPrepare(bad, nodes, s, block);
    SentStays(nodes, mid, Prepare, s, PbftBlockFromBlock(block));
    nodes' := PeerPrepares(bad, mid, D, B, s, 0, block);
    CommittersSent(nodes', s, block);
  }

  lemma CommittersSent(nodes: map<PeerId, Node>, s: nat, block: Block)
    requires B in nodes && C in nodes && D in nodes
    requires Committer(nodes[B], B, s, 0, block) && Committer(nodes[C], C, s, 0, block) && Committer(nodes[D], D, s, 0, block)
    ensures AllSent(nodes, Commit, s, PbftBlockFromBlock(block))
  {
  }

  lemma TwoPrepare(bad: set<ParsedMessage>, nodes: map<PeerId, Node>, s: nat, block: Block) returns (nodes': map<PeerId, Node>)
    requires Stage(bad, nodes) && AllSent(nodes, Prepare, s, PbftBlockFromBlock(block)) && Leads(bad, s, PbftBlockFromBlock(block))
    requires Preparer(nodes[B], B, s, 0, block) && Preparer(nodes[C], C, s, 0, block)
    ensures Stage(bad, nodes') && CallsKept(nodes, nodes') && nodes'[D] == nodes[D]
    ensures Committer(nodes'[B], B, s, 0, block) && Committer(nodes'[C], C, s, 0, block)
  {
    PeersDiffer();
    var mid := PeerPrepares(bad, nodes, B, C, s, 0, block);
    nodes' := PeerPrepares(bad, mid, C, B, s, 0, block);
  }

  /** All peers have committed the block and are ready for the next. */
  lemma AllEnd(bad: set<ParsedMessage>, nodes: map<PeerId, Node>, s: nat, block: Block) returns (nodes': map<PeerId, Node>)
    requires Stage(bad, nodes) && AllSent(nodes, Commit, s, PbftBlockFromBlock(block)) && Leads(bad, s, PbftBlockFromBlock(block)) && block == Chain()(block.blockId)
    requires Committer(nodes[B], B, s, 0, block) && Committer(nodes[C], C, s, 0, block) && Committer(nodes[D], D, s, 0, block)
    ensures Stage(bad, nodes') && CallsKept(nodes, nodes') && AllReady(nodes', s + 1, NextView(s, 0)) && AllSent(nodes', Commit, s, PbftBlockFromBlock(block))
    ensures SealFound(nodes'[B], s, block) && SealFound(nodes'[C], s, block) && SealFound(nodes'[D], s, block)
  {
    PeersDiffer();
    nodes' := PeerEnds(bad, nodes, B, C, s, 0, block);
    nodes' := PeerEnds(bad, nodes', C, B, s, 0, block);
    nodes' := PeerEnds(bad, nodes', D, B, s, 0, block);
    SentStays(nodes, nodes', Commit, s, PbftBlockFromBlock(block));
  }

  lemma OneRound(bad: set<ParsedMessage>, nodes: map<PeerId, Node>, s: nat, block: Block) returns (nodes': map<PeerId, Node>)
    requires Stage(bad, nodes) && AllReady(nodes, s, 0) && Fit(bad, nodes, block) && block.blockNum == s && Leads(bad, s, PbftBlockFromBlock(block))
    ensures Stage(bad, nodes') && CallsKept(nodes, nodes') && AllReady(nodes', s + 1, NextView(s, 0)) && AllSent(nodes', Commit, s, PbftBlockFromBlock(block))
    ensures SealFound(nodes'[B], s, block) && SealFound(nodes'[C], s, block) && SealFound(nodes'[D], s, block)
  {
    var open := AllOpen(bad, nodes, s, block);
    var prepared := AllPrepare(bad, open, s, block);
    nodes' := AllEnd(bad, prepared, s, block);
  }

  /** The correct voters of the seal for block `k` have sent their votes. */
  ghost predicate VotersSent(nodes: map<PeerId, Node>, k: nat) {
    && C in nodes && D in nodes
    && (k == 1 ==> Broadcast(Message(VoteOn(1, 0, C).message)) in nodes[C].calls && Broadcast(Message(VoteOn(1, 0, D).message)) in nodes[D].calls)
    && (k >= 2 ==> Broadcast(Message(SealFor(k).votes[0].message)) in nodes[D].calls)
  }

  lemma BlockFits(bad: set<ParsedMessage>, nodes: map<PeerId, Node>, k: nat)
    requires k >= 1 && nodes.Keys == {B, C, D} && (k >= 2 ==> VotersSent(nodes, k - 1))
    ensures Fit(bad, nodes, BlockAt(k)) && PbftBlockFromBlock(BlockAt(k)) == Sum(k)
  {
    OnChain(k);
    SealIsHonest(bad, nodes, k);
    forall n: Node | n.state.f == 1
      ensures VerifyConsensusSeal(n, BlockAt(k), PlainEnv(FOUR)) == Success(if BlockAt(k).payload.Sealed? then Some(BlockAt(k).payload.seal) else None)
    {
      BlockVerifies(n, k);
    }
    BlockVerifies(Newcomer(B), k);
  }

  lemma SealIsHonest(bad: set<ParsedMessage>, nodes: map<PeerId, Node>, k: nat)
    requires k >= 1 && nodes.Keys == {B, C, D} && (k >= 2 ==> VotersSent(nodes, k - 1))
    ensures SealHonest(Scene(bad, nodes), BlockAt(k))
  {
    PeersDiffer();
    if k >= 2 {
      SealVotes(k - 1);
    }
  }

  lemma RivalFits(bad: set<ParsedMessage>, nodes: map<PeerId, Node>, k: nat)
    requires k >= 1 && Fit(bad, nodes, BlockAt(k))
    ensures Fit(bad, nodes, RivalAt(k))
  {
    OnChain(k);
    forall n: Node | n.state.f == 1
      ensures VerifyConsensusSeal(n, RivalAt(k), PlainEnv(FOUR)) == Success(if RivalAt(k).payload.Sealed? then Some(RivalAt(k).payload.seal) else None)
    {
      assert VerifyConsensusSeal(n, RivalAt(k), PlainEnv(FOUR)) == VerifyConsensusSeal(n, BlockAt(k), PlainEnv(FOUR));
    }
  }

  /** One round behind them, all peers are ready for the second. */
  lemma AfterOneRound(bad: set<ParsedMessage>) returns (nodes: map<PeerId, Node>)
    requires ByFaulty(bad) && Leads(bad, 1, Sum(1))
    ensures Stage(bad, nodes) && AllReady(nodes, 2, 0) && AllSent(nodes, Commit, 1, Sum(1))
  {
    Opening(bad);
    NewcomersReady();
    BlockFits(bad, Newcomers(), 1);
    nodes := OneRound(bad, Newcomers(), 1, BlockAt(1));
  }

  lemma NewcomersReady()
    ensures AllReady(Newcomers(), 1, 0)
  {
    PeersDiffer();
  }

  /** Two rounds behind them, all peers are ready for the third, in view 1 by rotation, and have the
      seal of the second block. */
  lemma AfterTwoRounds(bad: set<ParsedMessage>) returns (nodes: map<PeerId, Node>)
    requires ByFaulty(bad) && Leads(bad, 1, Sum(1)) && Leads(bad, 2, Sum(2))
    ensures Stage(bad, nodes) && AllReady(nodes, 3, 1) && AllSent(nodes, Commit, 2, Sum(2))
    ensures SealFound(nodes[B], 2, BlockAt(2)) && SealFound(nodes[C], 2, BlockAt(2)) && SealFound(nodes[D], 2, BlockAt(2))
  {
    var first := AfterOneRound(bad);
    BlockFits(bad, first, 2);
    nodes := OneRound(bad, first, 2, BlockAt(2));
  }
}
