/** Whether the seal that a correct node publishes is accepted by the others. Being able to build
    one is not enough: votes logged again from a seal have lost their signature, votes for
    another block are picked along with the rest, and nothing ties the block that the votes name
    to the block that the new one is built on. */
module Publication {
  import opened Types
  import opened MessageLog
  import opened Protocol
  import opened Ledger
  import opened Ladder
  import opened Provenance
  import opened Commits
  import opened Views
  import opened Seals
  import opened Retention
  import opened Runs
  import opened Network
  import opened Agreement

  // ---------- What spoils a seal ----------

  /** A vote without a signature is not authentic. */
  ghost predicate RejectsUnsigned(env: Env) {
    forall v: SignedVote :: v.header == UNSIGNED ==> !env.authentic(v)
  }

  /** Whatever the node publishes now, and on whatever block, no node accepts. */
  ghost predicate SealRefused(n: Node)
    requires n.state.Sound()
  {
    forall summary, env: Env, block, k: Node, env': Env ::
      env.Valid() && PublishedAs(n, summary, env, block) && RejectsUnsigned(env') ==>
        VerifyConsensusSeal(k, block, env').Failure?
  }

  /** The seal cannot be good for any block that carries it. */
  ghost predicate Spoiled(source: set<ParsedMessage>)
    requires forall m :: m in source ==> m.message.Message?
  {
    || (exists m :: m in source && m.header == UNSIGNED)
    || (exists m, l :: m in source && l in source && m.Block().blockId != l.Block().blockId)
  }

  lemma SpoiledIsNotGood(source: set<ParsedMessage>, block: Block, f: nat, env: Env)
    requires (forall m :: m in source ==> m.message.Message?) && Spoiled(source) && RejectsUnsigned(env)
    ensures !GoodSource(source, block, f, env)
  {
    if m :| m in source && m.header == UNSIGNED {
      assert SignedVoteOf(m).header == UNSIGNED;
    }
  }

  /** One unsigned vote, or votes for two blocks, among those of the highest view that has enough,
      and nothing the node publishes is accepted. */
  lemma SpoiledSealIsRefused(n: Node, v: nat)
    requires n.state.Sound() && n.state.seqNum >= 2 && SealViewIs(n, v) && Spoiled(SealSource(n, v))
    ensures SealRefused(n)
  {
    forall summary, env: Env, block, k: Node, env': Env |
      env.Valid() && PublishedAs(n, summary, env, block) && RejectsUnsigned(env')
      ensures VerifyConsensusSeal(k, block, env').Failure?
    {
      PublishedBlockVerifies(n, summary, env, v, k, block, env');
      SpoiledIsNotGood(SealSource(n, v), block, k.state.f, env');
      VerifiedSealIsItself(k, block, env');
    }
  }

  lemma VerifiedSealIsItself(k: Node, block: Block, env: Env)
    requires block.blockNum >= 2 && block.payload.Sealed?
    ensures VerifyConsensusSeal(k, block, env).Success? ==> VerifyConsensusSeal(k, block, env) == Success(Some(block.payload.seal))
  {
  }

  // ---------- What catching up does to the next seal ----------

  /** After a catch-up the next seal is built from the Commits logged before and the votes of the
      seal caught up with. */
  lemma SourceAfterCatchup(n: Node, block: Block, env: Env, v: nat)
    requires n.state.Sound() && env.Valid() && SealOfCommits(block) && CatchesUpOn(n, block, env)
    ensures var n' := OnBlockNew(n, block, env).node;
            n'.state.seqNum == n.state.seqNum + 1 && SealSource(n', v) == Group(RoundVotes(n, UpdateBlockNew(block)), Commit, n.state.seqNum, v)
  {
    var ev := UpdateBlockNew(block);
    var a := Announced(n, ev, env);
    VerifiedSealHasVotes(n, block, env);
    assert block.payload.seal.votes[0] in block.payload.seal.votes;
    CatchupAllOrNothing(a, block, block.payload.seal, env);
    var c := AtCatchupCommit(a, block.payload.seal);
    CatchupStands(n, ev, env, c);
    AdvanceOnBlockCommit(c, block.previousId, env);
    PruningKeepsPrevious(c, block.previousId, env, v);
    CatchupLogs(n, ev, env, v);
  }

  /** The votes of that seal are now unsigned, so if their view is the highest that has enough, as
      it is unless later votes came in before, nothing the node publishes is accepted. */
  lemma CatchupSpoilsTheSeal(n: Node, block: Block, env: Env)
    requires n.state.Sound() && env.Valid() && SealOfCommits(block) && CatchesUpOn(n, block, env)
    requires SealViewIs(OnBlockNew(n, block, env).node, SealView(n, block.payload.seal))
    ensures Spoiled(SealSource(OnBlockNew(n, block, env).node, SealView(n, block.payload.seal)))
    ensures SealRefused(OnBlockNew(n, block, env).node)
  {
    var seal, v := block.payload.seal, SealView(n, block.payload.seal);
    SourceAfterCatchup(n, block, env, v);
    var m := SealMessages(seal)[0];
    assert m in SealMessages(seal) && seal.votes[0] in seal.votes;
    SealMessagesAre(block, seal, m);
    assert m in SealSource(OnBlockNew(n, block, env).node, v) && m.header == UNSIGNED;
    SpoiledSealIsRefused(OnBlockNew(n, block, env).node, v);
  }

  // ---------- Where a correct node's Commits come from ----------

  /** A Commit in the log has a known source, or was logged again from a seal without signature. */
  ghost predicate CommitsSourced(s: System, p: PeerId)
    requires p in s.nodes
  {
    forall m :: m in s.nodes[p].log.messages && m.Type() == Commit ==> Sourced(s, p, m) || (m.header == UNSIGNED && !m.fromSelf)
  }

  lemma CommitsStaySourced(c: Cluster, s: System, move: Move, s': System, p: PeerId)
    requires c.Valid() && SystemInv(c, s) && Moves(c, s, move, s') && Grows(s, s') && p in s.nodes && CommitsSourced(s, p)
    ensures CommitsSourced(s', p)
  {
    assert NodeOk(c, s, p);
    forall m | m in s'.nodes[p].log.messages && m.Type() == Commit ensures Sourced(s', p, m) || (m.header == UNSIGNED && !m.fromSelf) {
      if m in s.nodes[p].log.messages {
        if Sourced(s, p, m) {
          SourcedStays(s, s', p, m);
        }
      } else {
        NewCommitIsSourced(c, s, p, move.ev, move.env, s', m);
      }
    }
  }

  lemma NewCommitIsSourced(c: Cluster, s: System, p: PeerId, ev: Event, env: Env, s': System, m: ParsedMessage)
    requires p in s.nodes && NodeOk(c, s, p) && MayHappen(c, s, p, ev, env) && Grows(s, s') && s'.nodes[p] == Step(s.nodes[p], ev, env)
    requires m in s'.nodes[p].log.messages && m !in s.nodes[p].log.messages && m.Type() == Commit
    ensures Sourced(s', p, m) || (m.header == UNSIGNED && !m.fromSelf)
  {
    EffectOfStep(s.nodes[p], ev, env);
    if FromBlock(s.nodes[p], ev, m) {
      assert m in SealMessages(ev.block.payload.seal);
    }
  }

  lemma NextSourced(c: Cluster, h: History, k: nat, p: PeerId)
    requires h.Valid(c) && k < |h.moves| && p in h.states[k].nodes && p in h.states[k + 1].nodes && CommitsSourced(h.states[k], p)
    ensures CommitsSourced(h.states[k + 1], p)
  {
    InvariantOfHistory(c, h, k);
    NextGrows(c, h, k);
    assert h.MovesAt(c, k);
    CommitsStaySourced(c, h.states[k], h.moves[k], h.states[k + 1], p);
  }

  lemma {:induction false} SourcedOverHistory(c: Cluster, h: History, k: nat, p: PeerId)
    requires h.Valid(c) && k < |h.states| && p in h.states[k].nodes
    ensures CommitsSourced(h.states[k], p)
  {
    if k == 0 {
      FreshNodeIs(h.states[0].nodes[p]);
    } else {
      NextGrows(c, h, k - 1);
      SourcedOverHistory(c, h, k - 1, p);
      NextSourced(c, h, k - 1, p);
    }
  }

  // ---------- When a correct node's seal is accepted ----------

  /** Signatures on the network are good, and a vote without one is not authentic. */
  ghost predicate KnowsSignatures(env: Env, net: set<ParsedMessage>) {
    && RejectsUnsigned(env)
    && forall m :: m in net && m.message.Message? && m.header != UNSIGNED ==> env.authentic(SignedVoteOf(m))
  }

  /** The votes are signed, name one block, and come from at least 2f signers. */
  ghost predicate Presentable(source: set<ParsedMessage>, f: nat)
    requires forall m :: m in source ==> m.message.Message?
  {
    !Spoiled(source) && |Signers(source)| >= 2 * f
  }

  /** All the votes name this block. */
  ghost predicate Names(source: set<ParsedMessage>, id: BlockId)
    requires forall m :: m in source ==> m.message.Message?
  {
    forall m :: m in source ==> m.Block().blockId == id
  }

  /** In a cluster the rest of what a verifier asks for holds by itself: signed votes in a correct
      node's log are authentic and come from other peers. */
  lemma GoodExactlyIfPresentable(c: Cluster, s: System, p: PeerId, v: nat, block: Block, env': Env)
    requires c.Valid() && SystemInv(c, s) && p in s.nodes && CommitsSourced(s, p) && s.nodes[p].state.Sound()
    requires block.signerId == p && env'.peersAt(block.previousId) == c.peers && KnowsSignatures(env', s.net)
    ensures GoodSource(SealSource(s.nodes[p], v), block, c.f, env')
            <==> Presentable(SealSource(s.nodes[p], v), c.f) && Names(SealSource(s.nodes[p], v), block.previousId)
  {
    var source := SealSource(s.nodes[p], v);
    if Spoiled(source) {
      SpoiledIsNotGood(source, block, c.f, env');
    } else {
      forall m | m in source ensures env'.authentic(SignedVoteOf(m)) && m.SignerId() in c.peers && m.SignerId() != p {
        assert Sourced(s, p, m);
      }
    }
  }

  /** What a correct node publishes, at any point of any run and on whatever block, is accepted by
      every correct node, at any point, exactly if the Commits its seal was built from are all
      signed, come from at least 2f signers, and name the block that it is built on. */
  lemma SealAcceptance(c: Cluster, h: History, i: nat, p: PeerId, summary: string, env: Env, v: nat, j: nat, q: PeerId, block: Block, env': Env)
    requires h.Valid(c) && i < |h.states| && j < |h.states| && p in h.states[i].nodes && q in h.states[j].nodes
    requires var n := h.states[i].nodes[p]; n.state.Sound() && n.state.seqNum >= 2 && env.Valid() && PublishedAs(n, summary, env, block) && SealViewIs(n, v)
    requires block.signerId == p && env'.peersAt(block.previousId) == c.peers && KnowsSignatures(env', h.states[i].net)
    ensures block.payload.Sealed?
    ensures VerifyConsensusSeal(h.states[j].nodes[q], block, env') == Success(Some(block.payload.seal))
            <==> Presentable(SealSource(h.states[i].nodes[p], v), c.f) && Names(SealSource(h.states[i].nodes[p], v), block.previousId)
  {
    BoundIsTheClusters(c, h, j, q);
    PublishedBlockVerifies(h.states[i].nodes[p], summary, env, v, h.states[j].nodes[q], block, env');
    InvariantOfHistory(c, h, i);
    SourcedOverHistory(c, h, i, p);
    GoodExactlyIfPresentable(c, h.states[i], p, v, block, env');
  }

  lemma BoundIsTheClusters(c: Cluster, h: History, k: nat, p: PeerId)
    requires h.Valid(c) && k < |h.states| && p in h.states[k].nodes
    ensures h.states[k].nodes[p].state.f == c.f
  {
    InvariantOfHistory(c, h, k);
    assert NodeOk(c, h.states[k], p);
  }

  // ---------- When the votes name the block built on ----------

  /** Votes fit for a seal include one of a correct node, which a quorum of Prepares stands behind. */
  lemma PresentableIsBacked(c: Cluster, s: System, p: PeerId, v: nat) returns (b: PbftBlock)
    requires c.Valid() && SystemInv(c, s) && AllBacked(c, s) && p in s.nodes && CommitsSourced(s, p) && s.nodes[p].state.Sound()
    requires Presentable(SealSource(s.nodes[p], v), c.f)
    ensures QuorumPrepared(c, s, v, s.nodes[p].state.seqNum - 1, b) && Names(SealSource(s.nodes[p], v), b.blockId)
  {
    var source := SealSource(s.nodes[p], v);
    forall m | m in source ensures m in s.net && m.SignerId() in c.peers {
      assert Sourced(s, p, m);
    }
    var q := CorrectAmong(c, Signers(source));
    var m :| m in source && m.SignerId() == q;
    SenderIsBacked(c, s, q, m.message.pbft);
    b := m.Block();
  }

  /** In a run with vetted blocks and answers, votes fit for a seal name the block that any correct
      node has committed in their view, at the number before: so a block built on one that was
      committed in the view picked is accepted exactly if the votes are signed and come from
      at least 2f signers. */
  lemma CommittedBlockIsNamed(c: Cluster, h: History, i: nat, p: PeerId, v: nat, j: nat, q: PeerId, d: ServiceCall)
    requires h.Valid(c) && h.Vetted(c) && i < |h.states| && j < |h.states| && p in h.states[i].nodes && q in h.states[j].nodes
    requires h.states[i].nodes[p].state.Sound() && Presentable(SealSource(h.states[i].nodes[p], v), c.f)
    requires d in h.states[j].nodes[q].calls && d.CommitBlock? && d.view == v && d.seqNum + 1 == h.states[i].nodes[p].state.seqNum
    ensures Names(SealSource(h.states[i].nodes[p], v), d.committed)
  {
    var last := if i < j then j else i;
    InvariantOfHistory(c, h, i);
    BackedOverHistory(c, h, i);
    SourcedOverHistory(c, h, i, p);
    var b := PresentableIsBacked(c, h.states[i], p, v);
    HistoryGrows(c, h, i, last);
    QuorumsStay(c, h.states[i], h.states[last], v, d.seqNum, b);
    DecisionLasts(c, h, j, last, q, d);
    var a: PbftBlock :| a.blockId == d.committed && QuorumPrepared(c, h.states[last], v, d.seqNum, a);
    InvariantOfHistory(c, h, last);
    QuorumBlockUnique(c, h.states[last], v, d.seqNum, a, b);
  }

  /** The last block that the node told its validator to commit. */
  ghost function LastCommit(n: Node): Option<ServiceCall> {
    var cs := CommitCalls(n.calls);
    if cs == [] then None else Some(cs[|cs| - 1])
  }

  /** So a correct node that builds on the block it committed last, in the view that its seal is
      picked from, is accepted exactly if the votes are signed and come from at least 2f signers. */
  lemma SealOnCommittedBlock(c: Cluster, h: History, i: nat, p: PeerId, summary: string, env: Env, v: nat, j: nat, q: PeerId, block: Block, env': Env)
    requires h.Valid(c) && h.Vetted(c) && i < |h.states| && j < |h.states| && p in h.states[i].nodes && q in h.states[j].nodes
    requires var n := h.states[i].nodes[p]; n.state.Sound() && n.state.seqNum >= 2 && env.Valid() && PublishedAs(n, summary, env, block) && SealViewIs(n, v)
    requires block.signerId == p && env'.peersAt(block.previousId) == c.peers && KnowsSignatures(env', h.states[i].net)
    requires var d := LastCommit(h.states[i].nodes[p]);
             d.Some? && d.value.CommitBlock? && d.value.committed == block.previousId && d.value.view == v && d.value.seqNum + 1 == block.blockNum
    ensures block.payload.Sealed?
    ensures VerifyConsensusSeal(h.states[j].nodes[q], block, env') == Success(Some(block.payload.seal))
            <==> Presentable(SealSource(h.states[i].nodes[p], v), c.f)
  {
    var n := h.states[i].nodes[p];
    SealAcceptance(c, h, i, p, summary, env, v, j, q, block, env');
    CommitCallsAre(n.calls, LastCommit(n).value);
    if Presentable(SealSource(n, v), c.f) {
      CommittedBlockIsNamed(c, h, i, p, v, i, p, LastCommit(n).value);
    }
  }

  /** If the votes of the view picked name another block, nothing built on this one is accepted,
      however good the votes are. */
  ghost predicate RefusedOn(n: Node, id: BlockId)
    requires n.state.Sound()
  {
    forall summary, env: Env, block, k: Node, env': Env ::
      env.Valid() && PublishedAs(n, summary, env, block) && block.previousId == id ==> VerifyConsensusSeal(k, block, env').Failure?
  }

  lemma OtherNameIsRefused(n: Node, v: nat, id: BlockId)
    requires n.state.Sound() && n.state.seqNum >= 2 && SealViewIs(n, v) && !Names(SealSource(n, v), id)
    ensures RefusedOn(n, id)
  {
    forall summary, env: Env, block, k: Node, env': Env |
      env.Valid() && PublishedAs(n, summary, env, block) && block.previousId == id
      ensures VerifyConsensusSeal(k, block, env').Failure?
    {
      PublishedBlockVerifies(n, summary, env, v, k, block, env');
      VerifiedSealIsItself(k, block, env');
    }
  }

  /** Signed votes for one and the same block always come from enough signers: no signer has two of
      them. */
  lemma OneBlockIsPresentable(c: Cluster, h: History, i: nat, p: PeerId, v: nat, b: PbftBlock)
    requires h.Valid(c) && i < |h.states| && p in h.states[i].nodes
    requires var n := h.states[i].nodes[p]; n.state.Sound() && SealViewIs(n, v)
    requires forall m :: m in SealSource(h.states[i].nodes[p], v) ==> m.header != UNSIGNED && m.Block() == b
    ensures Presentable(SealSource(h.states[i].nodes[p], v), c.f)
  {
    var s := h.states[i];
    var source := SealSource(s.nodes[p], v);
    InvariantOfHistory(c, h, i);
    SourcedOverHistory(c, h, i, p);
    BoundIsTheClusters(c, h, i, p);
    assert NodeOk(c, s, p);
    EntriesHaveDistinctSigners(c, s, p, source);
  }
}
