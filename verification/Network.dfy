/** A cluster of 3f + 1 peers, at most f of them faulty: correct peers run the node of this
    project, faulty ones send what they like, and a network may delay, drop and reorder. */
module Network {
  import opened Types
  import opened State
  import opened MessageLog
  import opened Protocol
  import opened Ledger
  import opened Quorums
  import opened Ladder
  import opened Provenance
  import opened Commits
  import opened Views
  import opened Seals
  import opened Retention
  import opened Runs

  datatype Cluster = Cluster(peers: seq<PeerId>, faulty: set<PeerId>, f: nat, chain: BlockId -> Block)
  {
    ghost predicate Valid() {
      && f >= 1
      && |peers| == 3 * f + 1
      && |Members()| == |peers|
      && faulty <= Members()
      && |faulty| <= f
    }

    ghost function Members(): set<PeerId> {
      set p | p in peers
    }

    ghost predicate Correct(p: PeerId) {
      p in peers && p !in faulty
    }
  }

  /** The correct nodes, and the signed messages that the network may deliver. */
  datatype System = System(nodes: map<PeerId, Node>, net: set<ParsedMessage>)

  // ---------- Steps ----------

  /** The same vote: one type, view, sequence number and signer, and one block if it has one. */
  ghost predicate SameVote(m: ParsedMessage, k: ParsedMessage) {
    && m.Type() == k.Type() && m.View() == k.View() && m.SeqNum() == k.SeqNum() && m.SignerId() == k.SignerId()
    && (m.Type() != ViewChange ==> m.message.pbft.block == k.message.pbft.block)
  }

  /** The network delivers each vote under one header only. */
  ghost predicate OneCopyEach(net: set<ParsedMessage>) {
    forall m, k :: m in net && k in net && SameVote(m, k) ==> m == k
  }

  /** What may happen at a correct node: delivery of what is on the network, from another peer;
      blocks with seals of the right shape; any answer of the validator; the passing of time. */
  ghost predicate MayHappen(c: Cluster, s: System, p: PeerId, ev: Event, env: Env)
    requires p in s.nodes
  {
    && env.Valid()
    && (forall b :: env.peersAt(b) == c.peers)
    && WellSealed(ev)
    && (ev.UpdatePeerMessage? ==>
          var m := ParsedMessage(ev.header, ev.message, false);
          m in s.net && m.SignerId() != p)
  }

  datatype Move = NodeMove(p: PeerId, ev: Event, env: Env) | FaultyMove

  /** A correct node takes a step and its broadcasts may go on the network, or faulty peers put
      messages of their own there. */
  ghost predicate MovesFreely(c: Cluster, s: System, move: Move, s': System) {
    && s.net <= s'.net
    && match move
       case NodeMove(p, ev, env) =>
         && p in s.nodes && s.nodes[p].state.Sound() && MayHappen(c, s, p, ev, env)
         && s'.nodes == s.nodes[p := Step(s.nodes[p], ev, env)]
         && (forall m :: m in s'.net && m !in s.net ==> !m.fromSelf && m.SignerId() == p && Broadcast(m.message) in s'.nodes[p].calls)
       case FaultyMove =>
         && s'.nodes == s.nodes
         && (forall m :: m in s'.net && m !in s.net ==> !m.fromSelf && m.SignerId() in c.faulty)
  }

  /** The same, on a network that delivers each vote under one header only. */
  ghost predicate Moves(c: Cluster, s: System, move: Move, s': System) {
    MovesFreely(c, s, move, s') && OneCopyEach(s'.net)
  }

  /** A vote in a seal that names a correct peer is one that this peer has sent. */
  ghost predicate SealHonest(s: System, block: Block) {
    block.payload.Sealed? ==>
      forall v :: v in block.payload.seal.votes && v.message.signerId in s.nodes ==>
        Broadcast(Message(v.message)) in s.nodes[v.message.signerId].calls
  }

  /** What the validator and the signatures stand for: blocks arrive as they are on the chain,
      with seals of genuine votes, and what is found valid is what was pre-prepared. */
  ghost predicate Vetted(c: Cluster, s: System, move: Move) {
    move.NodeMove? && move.p in s.nodes ==>
      && Genuine(move.ev, c.chain)
      && ValidNamesPrePrepared(s.nodes[move.p], move.ev)
      && (move.ev.UpdateBlockNew? ==> SealHonest(s, move.ev.block))
  }

  ghost predicate Starts(c: Cluster, s: System) {
    && (forall p :: p in s.nodes <==> c.Correct(p))
    && (forall p :: p in s.nodes ==> Fresh(s.nodes[p]) && s.nodes[p].state.id == p && s.nodes[p].state.peerIds == c.peers)
    && s.net == {}
  }

  // ---------- The invariant ----------

  /** A vote from a correct peer is one that it has sent. */
  ghost predicate Vouched(s: System, m: ParsedMessage) {
    m.SignerId() in s.nodes ==> Broadcast(m.message) in s.nodes[m.SignerId()].calls
  }

  ghost predicate NetHonest(c: Cluster, s: System) {
    && OneCopyEach(s.net)
    && forall m :: m in s.net ==> !m.fromSelf && m.SignerId() in c.peers && Vouched(s, m)
  }

  /** A logged message is the node's own, or came over the network from another peer. */
  ghost predicate Sourced(s: System, p: PeerId, m: ParsedMessage)
    requires p in s.nodes
  {
    SelfDelivered(s.nodes[p], m) || (m in s.net && m.SignerId() != p)
  }

  /** Prepares and view changes are counted by log entry; these entries have known sources. */
  ghost predicate LogSourced(s: System, p: PeerId)
    requires p in s.nodes
  {
    forall m :: m in s.nodes[p].log.messages && (m.Type() == Prepare || m.Type() == ViewChange) ==> Sourced(s, p, m)
  }

  ghost predicate NodeOk(c: Cluster, s: System, p: PeerId)
    requires p in s.nodes
  {
    var n := s.nodes[p];
    && n.state.Sound() && n.state.id == p && n.state.peerIds == c.peers
    && NodeInv(n) && LogSourced(s, p)
  }

  ghost predicate SystemInv(c: Cluster, s: System) {
    && (forall p :: p in s.nodes <==> c.Correct(p))
    && NetHonest(c, s)
    && (forall p :: p in s.nodes ==> s.nodes[p].state.id == p)
    && (forall p {:trigger NodeOk(c, s, p)} :: p in s.nodes ==> NodeOk(c, s, p))
  }

  /** A set of 2f + 1 peers whose correct members have all sent a Prepare for the block. */
  ghost predicate PrepareQuorum(c: Cluster, s: System, q: set<PeerId>, v: nat, sn: nat, b: PbftBlock) {
    && q <= c.Members()
    && |q| >= 2 * c.f + 1
    && forall p :: p in q && p in s.nodes ==> Sent(s.nodes[p], Prepare, v, sn, b)
  }

  ghost predicate QuorumPrepared(c: Cluster, s: System, v: nat, sn: nat, b: PbftBlock) {
    exists q :: PrepareQuorum(c, s, q, v, sn, b)
  }

  ghost predicate BlocksGenuine(n: Node, chain: BlockId -> Block) {
    forall m :: m in n.log.messages && m.Type() == BlockNew ==> m.Block() == PbftBlockFromBlock(chain(m.Block().blockId))
  }

  /** Correct nodes send Commits only for blocks that a quorum has prepared. */
  ghost predicate CommitsBacked(c: Cluster, s: System, p: PeerId)
    requires p in s.nodes
  {
    forall v, sn, b :: Sent(s.nodes[p], Commit, v, sn, b) ==> QuorumPrepared(c, s, v, sn, b)
  }

  /** Some block with this id has been prepared by a quorum. */
  ghost predicate IdPrepared(c: Cluster, s: System, v: nat, sn: nat, id: BlockId) {
    exists b: PbftBlock :: b.blockId == id && QuorumPrepared(c, s, v, sn, b)
  }

  /** Correct nodes commit, on either path, only blocks that a quorum has prepared. */
  ghost predicate DecisionsBacked(c: Cluster, s: System, p: PeerId)
    requires p in s.nodes
  {
    forall d :: d in s.nodes[p].calls && d.CommitBlock? ==> IdPrepared(c, s, d.view, d.seqNum, d.committed)
  }

  ghost predicate NodeBacked(c: Cluster, s: System, p: PeerId)
    requires p in s.nodes
  {
    BlocksGenuine(s.nodes[p], c.chain) && CommitsBacked(c, s, p) && DecisionsBacked(c, s, p)
  }

  ghost predicate AllBacked(c: Cluster, s: System) {
    forall p {:trigger NodeBacked(c, s, p)} :: p in s.nodes ==> NodeBacked(c, s, p)
  }

  // ---------- Quorums ----------

  /** Two sets of members meet in at least the excess of their sizes. */
  lemma SetsMeet<T>(all: set<T>, a: set<T>, b: set<T>)
    requires a <= all && b <= all
    ensures |a * b| >= |a| + |b| - |all|
  {
    SubsetCardinality(a + b, all);
    assert |a + b| + |a * b| == |a| + |b|;
  }

  ghost predicate IsQuorum(members: set<PeerId>, f: nat, a: set<PeerId>) {
    a <= members && |a| >= 2 * f + 1
  }

  lemma {:induction false} SubsetOfSize<T>(s: set<T>, k: nat) returns (t: set<T>)
    requires k <= |s|
    ensures t <= s && |t| == k
  {
    if k == 0 {
      t := {};
    } else {
      var x :| x in s;
      var u := SubsetOfSize(s - {x}, k - 1);
      t := u + {x};
    }
  }

  /** With the fault bound the engine derives from the number of peers, any two quorums meet in
      4f + 2 - n peers at least; this is more than f, for every two, exactly if n is 3f + 1. */
  lemma QuorumsMeetSafely(members: set<PeerId>, peers: seq<PeerId>, f: nat)
    requires |peers| == |members| >= 4 && f == MaxFaulty(peers)
    ensures forall a, b :: IsQuorum(members, f, a) && IsQuorum(members, f, b) ==> |a * b| >= 4 * f + 2 - |members|
    ensures (forall a, b :: IsQuorum(members, f, a) && IsQuorum(members, f, b) ==> |a * b| > f) <==> |members| == 3 * f + 1
  {
    forall a, b | IsQuorum(members, f, a) && IsQuorum(members, f, b) ensures |a * b| >= 4 * f + 2 - |members| {
      SetsMeet(members, a, b);
    }
    if |members| != 3 * f + 1 {
      var a := SubsetOfSize(members, 2 * f + 1);
      var shared := SubsetOfSize(a, 4 * f + 2 - |members|);
      var b := (members - a) + shared;
      assert |members - a| == |members| - |a|;
      assert a * b == shared;
      assert IsQuorum(members, f, a) && IsQuorum(members, f, b);
    }
  }

  /** Two quorums have a correct peer in common. */
  lemma QuorumsShareCorrect(c: Cluster, a: set<PeerId>, b: set<PeerId>) returns (p: PeerId)
    requires c.Valid() && a <= c.Members() && b <= c.Members() && |a| >= 2 * c.f + 1 && |b| >= 2 * c.f + 1
    ensures p in a && p in b && c.Correct(p)
  {
    SetsMeet(c.Members(), a, b);
    p := CorrectAmong(c, a * b);
  }

  /** More than f members include a correct one. */
  lemma CorrectAmong(c: Cluster, a: set<PeerId>) returns (p: PeerId)
    requires c.Valid() && a <= c.Members() && |a| > c.f
    ensures p in a && c.Correct(p)
  {
    if a <= c.faulty {
      SubsetCardinality(a, c.faulty);
      assert false;
    }
    p :| p in a && p !in c.faulty;
  }

  /** One block at most is prepared by a quorum at one view and sequence number. */
  lemma QuorumBlockUnique(c: Cluster, s: System, v: nat, sn: nat, b: PbftBlock, d: PbftBlock)
    requires c.Valid() && SystemInv(c, s) && QuorumPrepared(c, s, v, sn, b) && QuorumPrepared(c, s, v, sn, d)
    ensures b == d
  {
    var q :| PrepareQuorum(c, s, q, v, sn, b);
    var r :| PrepareQuorum(c, s, r, v, sn, d);
    var p := QuorumsShareCorrect(c, q, r);
    assert NodeOk(c, s, p);
    assert Sent(s.nodes[p], Prepare, v, sn, b) && Sent(s.nodes[p], Prepare, v, sn, d);
  }

  // ---------- Entries and signers ----------

  /** Votes of one type, view and sequence number, for one block unless they are view changes. */
  ghost predicate OneBallot(entries: set<ParsedMessage>) {
    forall m, k :: m in entries && k in entries && m.SignerId() == k.SignerId() ==> SameVote(m, k)
  }

  /** No signer has two entries in one ballot. */
  lemma EntriesHaveDistinctSigners(c: Cluster, s: System, p: PeerId, entries: set<ParsedMessage>)
    requires p in s.nodes && NetHonest(c, s) && s.nodes[p].state.id == p && ViewChangesSettled(s.nodes[p])
    requires OneBallot(entries) && forall m :: m in entries ==> Sourced(s, p, m)
    ensures |Signers(entries)| == |entries|
  {
    forall m, k | m in entries && k in entries && m.SignerId() == k.SignerId()
      ensures m == k
    {
      assert Sourced(s, p, m) && Sourced(s, p, k) && SameVote(m, k);
      if m.fromSelf {
        OwnVoteIsOne(s.nodes[p], m, k);
      }
    }
    var signer := (m: ParsedMessage) => m.SignerId();
    InjectiveImage(entries, signer);
    assert Signers(entries) == Image(entries, signer);
  }

  lemma OwnVoteIsOne(n: Node, m: ParsedMessage, k: ParsedMessage)
    requires ViewChangesSettled(n) && SelfDelivered(n, m) && SelfDelivered(n, k) && SameVote(m, k)
    ensures m == k
  {
    if m.Type() == ViewChange {
      assert m.message.ViewChangeMessage? && k.message.ViewChangeMessage?;
    }
  }

  /** A prepared certificate in a correct node's log is a quorum of Prepares sent. */
  lemma CertificateIsQuorum(c: Cluster, s: System, p: PeerId, msgs: set<ParsedMessage>, v: nat, sn: nat, b: PbftBlock)
    requires p in s.nodes && c.Correct(p) && NetHonest(c, s) && ViewChangesSettled(s.nodes[p])
    requires forall q :: q in s.nodes ==> s.nodes[q].state.id == q
    requires forall m :: m in msgs && m.Type() == Prepare ==> Sourced(s, p, m)
    requires PreparedFor(msgs, sn, v, c.f, b)
    ensures QuorumPrepared(c, s, v, sn, b)
  {
    var votes := VotesFor(msgs, Prepare, sn, v, b);
    EntriesHaveDistinctSigners(c, s, p, votes);
    var q := Signers(votes);
    forall x | x in q
      ensures x in c.Members() && (x in s.nodes ==> Sent(s.nodes[x], Prepare, v, sn, b))
    {
      var m :| m in votes && m.SignerId() == x;
      assert Sourced(s, p, m);
      assert m.message == Message(PbftMessage(Prepare, v, sn, x, b));
    }
    assert PrepareQuorum(c, s, q, v, sn, b);
  }

  // ---------- Preservation ----------

  /** Nothing sent is taken back, and nothing leaves the network. */
  ghost predicate Grows(s: System, s': System) {
    && s'.nodes.Keys == s.nodes.Keys
    && s.net <= s'.net
    && forall p :: p in s.nodes ==> s'.nodes[p].state.id == s.nodes[p].state.id && s.nodes[p].calls <= s'.nodes[p].calls
  }

  lemma QuorumsStay(c: Cluster, s: System, s': System, v: nat, sn: nat, b: PbftBlock)
    requires Grows(s, s') && QuorumPrepared(c, s, v, sn, b)
    ensures QuorumPrepared(c, s', v, sn, b)
  {
    var q :| PrepareQuorum(c, s, q, v, sn, b);
    forall p | p in q && p in s'.nodes ensures Sent(s'.nodes[p], Prepare, v, sn, b) {
      assert Sent(s.nodes[p], Prepare, v, sn, b);
    }
    assert PrepareQuorum(c, s', q, v, sn, b);
  }

  lemma SystemGrows(c: Cluster, s: System, move: Move, s': System)
    requires Moves(c, s, move, s')
    ensures Grows(s, s')
  {
    if move.NodeMove? {
      EffectOfStep(s.nodes[move.p], move.ev, move.env);
    }
  }

  /** Votes and commits of nodes that did not move stay backed. */
  lemma BackedStays(c: Cluster, s: System, s': System, p: PeerId)
    requires Grows(s, s') && p in s.nodes && s'.nodes[p] == s.nodes[p]
    requires CommitsBacked(c, s, p) && DecisionsBacked(c, s, p)
    ensures CommitsBacked(c, s', p) && DecisionsBacked(c, s', p)
  {
    forall v, sn, b | Sent(s'.nodes[p], Commit, v, sn, b) ensures QuorumPrepared(c, s', v, sn, b) {
      assert Sent(s.nodes[p], Commit, v, sn, b);
      QuorumsStay(c, s, s', v, sn, b);
    }
    forall d | d in s'.nodes[p].calls && d.CommitBlock? ensures IdPrepared(c, s', d.view, d.seqNum, d.committed) {
      IdStays(c, s, s', d.view, d.seqNum, d.committed);
    }
  }

  lemma IdStays(c: Cluster, s: System, s': System, v: nat, sn: nat, id: BlockId)
    requires Grows(s, s') && IdPrepared(c, s, v, sn, id)
    ensures IdPrepared(c, s', v, sn, id)
  {
    var b: PbftBlock :| b.blockId == id && QuorumPrepared(c, s, v, sn, b);
    QuorumsStay(c, s, s', v, sn, b);
  }

  lemma NetStaysHonest(c: Cluster, s: System, move: Move, s': System)
    requires c.Valid() && SystemInv(c, s) && Moves(c, s, move, s') && Grows(s, s')
    ensures NetHonest(c, s')
  {
    forall m | m in s'.net ensures !m.fromSelf && m.SignerId() in c.peers && Vouched(s', m) {
      if m in s.net {
        assert Vouched(s, m);
      }
    }
  }

  lemma SourcedStays(s: System, s': System, p: PeerId, m: ParsedMessage)
    requires Grows(s, s') && p in s.nodes && Sourced(s, p, m)
    ensures Sourced(s', p, m)
  {
  }

  /** The node that moved is in order again. */
  lemma MoverOk(c: Cluster, s: System, p: PeerId, ev: Event, env: Env, s': System)
    requires c.Valid() && SystemInv(c, s) && Moves(c, s, NodeMove(p, ev, env), s') && Grows(s, s')
    ensures NodeOk(c, s', p)
  {
    var n := s.nodes[p];
    assert NodeOk(c, s, p);
    NodeInvStep(n, ev, env);
    PeersKept(n, ev, env);
    EffectOfStep(n, ev, env);
    var n' := Step(n, ev, env);
    MoverLog(c, s, p, ev, n', s');
  }

  lemma MoverLog(c: Cluster, s: System, p: PeerId, ev: Event, n': Node, s': System)
    requires p in s.nodes && NodeOk(c, s, p) && Grows(s, s') && s'.nodes[p] == n'
    requires StepEffect(s.nodes[p], ev, n') && WellSealed(ev)
    requires ev.UpdatePeerMessage? ==> ParsedMessage(ev.header, ev.message, false) in s.net && ParsedMessage(ev.header, ev.message, false).SignerId() != p
    ensures LogSourced(s', p)
  {
    var n := s.nodes[p];
    forall m | m in n'.log.messages && (m.Type() == Prepare || m.Type() == ViewChange)
      ensures Sourced(s', p, m)
    {
      if m in n.log.messages {
        SourcedStays(s, s', p, m);
      } else if !SelfDelivered(n', m) {
        BlockMessagesAre(n, ev, m);
        assert Delivered(n, ev, m);
      }
    }
  }

  lemma BlocksStayGenuine(n: Node, ev: Event, n': Node, chain: BlockId -> Block)
    requires BlocksGenuine(n, chain) && StepEffect(n, ev, n') && WellSealed(ev) && Genuine(ev, chain)
    ensures BlocksGenuine(n', chain)
  {
    forall m | m in n'.log.messages && m.Type() == BlockNew
      ensures m.Block() == PbftBlockFromBlock(chain(m.Block().blockId))
    {
      if m !in n.log.messages {
        BlockMessagesAre(n, ev, m);
      }
    }
  }

  /** A block brings its announcement and Commits. */
  lemma BlockMessagesAre(n: Node, ev: Event, m: ParsedMessage)
    requires WellSealed(ev)
    ensures FromBlock(n, ev, m) ==> m == BlockNewMessage(n, ev.block) || m.Type() == Commit
  {
    if FromBlock(n, ev, m) && m != BlockNewMessage(n, ev.block) {
      SealMessagesAre(ev.block, ev.block.payload.seal, m);
    }
  }

  /** A Commit is sent only for a block that the node holds a prepared certificate for. */
  lemma CommitSentIsPrepared(c: Cluster, n: Node, ev: Event, p: PbftMessage)
    requires NodeInv(n) && BlocksGenuine(n, c.chain) && ValidNamesPrePrepared(n, ev) && SendsCommit(n, ev, p)
    ensures PreparedFor(n.log.messages, p.seqNum, p.view, n.state.f, p.block)
  {
    var msgs := n.log.messages;
    var b :| PreparedFor(msgs, n.state.seqNum, n.state.view, n.state.f, b);
    var pp :| pp in msgs && pp.VotesFor(PrePrepare, n.state.seqNum, n.state.view, b);
    assert HasBlockNew(msgs, n.state.seqNum, b);
    var working := n.state.workingBlock.value;
    assert HasBlockNew(msgs, n.state.seqNum, working);
    assert b.blockId == ev.validId == working.blockId;
  }

  lemma MoverCommitsBacked(c: Cluster, s: System, p: PeerId, ev: Event, env: Env, s': System)
    requires c.Valid() && SystemInv(c, s) && Moves(c, s, NodeMove(p, ev, env), s') && Grows(s, s')
    requires NodeBacked(c, s, p) && Vetted(c, s, NodeMove(p, ev, env))
    ensures BlocksGenuine(s'.nodes[p], c.chain) && CommitsBacked(c, s', p)
  {
    var n := s.nodes[p];
    assert NodeOk(c, s, p);
    EffectOfStep(n, ev, env);
    BlocksStayGenuine(n, ev, s'.nodes[p], c.chain);
    forall v, sn, b | Sent(s'.nodes[p], Commit, v, sn, b) ensures QuorumPrepared(c, s', v, sn, b) {
      var w := Message(PbftMessage(Commit, v, sn, p, b));
      if Broadcast(w) in n.calls {
        assert Sent(n, Commit, v, sn, b);
      } else {
        assert MaySend(n, ev, w);
        OnlySendsCommit(n, ev, w.pbft);
        CommitSentIsPrepared(c, n, ev, w.pbft);
        HeldCertificate(c, s, p, v, sn, b);
      }
      QuorumsStay(c, s, s', v, sn, b);
    }
  }

  /** What a correct node holds a prepared certificate for, a quorum has prepared. */
  lemma HeldCertificate(c: Cluster, s: System, p: PeerId, v: nat, sn: nat, b: PbftBlock)
    requires c.Valid() && p in s.nodes && c.Correct(p) && NetHonest(c, s) && NodeOk(c, s, p)
    requires forall q :: q in s.nodes ==> s.nodes[q].state.id == q
    requires PreparedFor(s.nodes[p].log.messages, sn, v, s.nodes[p].state.f, b)
    ensures QuorumPrepared(c, s, v, sn, b)
  {
    CertificateIsQuorum(c, s, p, s.nodes[p].log.messages, v, sn, b);
  }

  lemma SealVoteAt(n: Node, block: Block, seal: Seal, x: SignedVote)
    requires WorkingBlockLogged(n) && block.payload == Sealed(seal) && SealOfCommits(block) && SealFits(n, block, seal) && x in seal.votes
    ensures x.message == PbftMessage(Commit, SealView(n, seal), n.state.seqNum, x.message.signerId, x.message.block)
  {
  }

  /** A seal that verifies names a correct voter, whose Commit is backed. */
  lemma SealIsBacked(c: Cluster, s: System, n: Node, block: Block, seal: Seal)
    requires c.Valid() && SystemInv(c, s) && AllBacked(c, s) && WorkingBlockLogged(n)
    requires block.payload == Sealed(seal) && SealOfCommits(block) && SealHonest(s, block) && SealFits(n, block, seal)
    requires VoterIds(seal) <= c.Members() && |VoterIds(seal)| >= 2 * c.f
    requires forall v :: v in seal.votes ==> v.message.block.blockId == n.state.workingBlock.value.blockId
    ensures IdPrepared(c, s, SealView(n, seal), n.state.seqNum, n.state.workingBlock.value.blockId)
  {
    var q := CorrectAmong(c, VoterIds(seal));
    var x :| x in seal.votes && x.message.signerId == q;
    SealVoteAt(n, block, seal, x);
    SenderIsBacked(c, s, q, x.message);
  }

  lemma SenderIsBacked(c: Cluster, s: System, q: PeerId, p: PbftMessage)
    requires SystemInv(c, s) && AllBacked(c, s) && q in s.nodes && Broadcast(Message(p)) in s.nodes[q].calls
    requires p.msgType == Commit && p.signerId == q
    ensures QuorumPrepared(c, s, p.view, p.seqNum, p.block)
  {
    assert NodeBacked(c, s, q);
    assert p == PbftMessage(Commit, p.view, p.seqNum, q, p.block);
    assert Sent(s.nodes[q], Commit, p.view, p.seqNum, p.block);
  }

  lemma MoverDecisionsBacked(c: Cluster, s: System, p: PeerId, ev: Event, env: Env, s': System)
    requires c.Valid() && SystemInv(c, s) && Moves(c, s, NodeMove(p, ev, env), s') && Grows(s, s')
    requires NetHonest(c, s') && NodeOk(c, s', p)
    requires AllBacked(c, s) && Vetted(c, s, NodeMove(p, ev, env))
    ensures DecisionsBacked(c, s', p)
  {
    var n, n' := s.nodes[p], s'.nodes[p];
    assert NodeOk(c, s, p) && NodeBacked(c, s, p);
    CommitOfStep(n, ev, env);
    forall d | d in n'.calls && d.CommitBlock? ensures IdPrepared(c, s', d.view, d.seqNum, d.committed) {
      CommitCallsAre(n'.calls, d);
      CommitCallsAre(n.calls, d);
      if d in n.calls {
        IdStays(c, s, s', d.view, d.seqNum, d.committed);
      } else {
        NewDecision(c, s, p, ev, env, s', d);
      }
    }
  }

  lemma NewDecision(c: Cluster, s: System, p: PeerId, ev: Event, env: Env, s': System, d: ServiceCall)
    requires c.Valid() && SystemInv(c, s) && p in s.nodes && MayHappen(c, s, p, ev, env) && Grows(s, s')
    requires NetHonest(c, s') && NodeOk(c, s', p)
    requires AllBacked(c, s) && Vetted(c, s, NodeMove(p, ev, env))
    requires CommitMove(s.nodes[p], ev, env, s'.nodes[p])
    requires d in CommitCalls(s'.nodes[p].calls) && d !in CommitCalls(s.nodes[p].calls) && d.CommitBlock?
    ensures IdPrepared(c, s', d.view, d.seqNum, d.committed)
  {
    var n, n' := s.nodes[p], s'.nodes[p];
    assert NodeOk(c, s, p);
    if e :| CommitsOne(n, n', e) && CertifiedCommit(n'.log.messages, n.state.f, e) {
      assert d == e;
      CertifiedDecision(c, s', p, d);
    } else {
      SealedDecision(c, s, n, ev, env, n', d);
      IdStays(c, s, s', d.view, d.seqNum, d.committed);
    }
  }

  lemma CertifiedDecision(c: Cluster, s: System, p: PeerId, d: ServiceCall)
    requires c.Valid() && p in s.nodes && c.Correct(p) && NetHonest(c, s) && NodeOk(c, s, p)
    requires forall q :: q in s.nodes ==> s.nodes[q].state.id == q
    requires d.CommitBlock? && CertifiedCommit(s.nodes[p].log.messages, s.nodes[p].state.f, d)
    ensures IdPrepared(c, s, d.view, d.seqNum, d.committed)
  {
    var b: PbftBlock :| b.blockId == d.committed && CommittableFor(s.nodes[p].log.messages, d.seqNum, d.view, s.nodes[p].state.f, b);
    HeldCertificate(c, s, p, d.view, d.seqNum, b);
  }

  lemma SealedDecision(c: Cluster, s: System, n: Node, ev: Event, env: Env, n': Node, d: ServiceCall)
    requires c.Valid() && SystemInv(c, s) && AllBacked(c, s) && WorkingBlockLogged(n) && n.state.f == c.f
    requires ev.UpdateBlockNew? && ev.block.payload.Sealed? && SealFits(n, ev.block, ev.block.payload.seal)
    requires CaughtUp(n, ev.block, ev.block.payload.seal, env, n') && SealOfCommits(ev.block) && SealHonest(s, ev.block)
    requires forall b :: env.peersAt(b) == c.peers
    requires d in CommitCalls(n'.calls) && d !in CommitCalls(n.calls) && d.CommitBlock?
    ensures IdPrepared(c, s, d.view, d.seqNum, d.committed)
  {
    var seal := ev.block.payload.seal;
    assert d == CommitBlock(n.state.workingBlock.value.blockId, SealView(n, seal), n.state.seqNum);
    SealIsBacked(c, s, n, ev.block, seal);
  }

  /** Every move keeps the whole system in order, whatever the validators answer. */
  lemma SystemInvStep(c: Cluster, s: System, move: Move, s': System)
    requires c.Valid() && SystemInv(c, s) && Moves(c, s, move, s')
    ensures SystemInv(c, s')
  {
    SystemGrows(c, s, move, s');
    NetStaysHonest(c, s, move, s');
    forall p | p in s'.nodes ensures NodeOk(c, s', p) {
      assert NodeOk(c, s, p);
      if move.NodeMove? && move.p == p {
        MoverOk(c, s, p, move.ev, move.env, s');
      } else {
        StillOk(c, s, s', p);
      }
    }
  }

  /** With vetted blocks and answers, every Commit sent and every block committed by a correct
      node stays backed by a quorum of Prepares. */
  lemma AllBackedStep(c: Cluster, s: System, move: Move, s': System)
    requires c.Valid() && SystemInv(c, s) && AllBacked(c, s) && Moves(c, s, move, s') && Vetted(c, s, move)
    ensures AllBacked(c, s')
  {
    SystemGrows(c, s, move, s');
    SystemInvStep(c, s, move, s');
    forall p | p in s'.nodes ensures NodeBacked(c, s', p) {
      assert NodeOk(c, s', p) && NodeBacked(c, s, p);
      if move.NodeMove? && move.p == p {
        MoverCommitsBacked(c, s, p, move.ev, move.env, s');
        MoverDecisionsBacked(c, s, p, move.ev, move.env, s');
      } else {
        BackedStays(c, s, s', p);
      }
    }
  }

  lemma StillOk(c: Cluster, s: System, s': System, p: PeerId)
    requires Grows(s, s') && p in s.nodes && s'.nodes[p] == s.nodes[p] && NodeOk(c, s, p)
    ensures NodeOk(c, s', p)
  {
  }

  lemma StartInv(c: Cluster, s: System)
    requires c.Valid() && Starts(c, s)
    ensures SystemInv(c, s) && AllBacked(c, s)
  {
    forall p | p in s.nodes ensures NodeOk(c, s, p) && NodeBacked(c, s, p) {
      FreshNodeIs(s.nodes[p]);
      FreshNodeInv(s.nodes[p]);
    }
  }
}
