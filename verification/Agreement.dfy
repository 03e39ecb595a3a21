/** What the cluster guarantees in every run: within a view correct nodes never prepare or
    commit different blocks at one sequence number, and they change views only on the word of
    correct nodes. */
module Agreement {
  import opened Types
  import opened Timing
  import opened State
  import opened MessageLog
  import opened Protocol
  import opened Ledger
  import opened Quorums
  import opened Commits
  import opened Views
  import opened Seals
  import opened Runs
  import opened Network

  datatype History = History(states: seq<System>, moves: seq<Move>)
  {
    ghost predicate Valid(c: Cluster) {
      && c.Valid()
      && |states| == |moves| + 1
      && Starts(c, states[0])
      && (forall k :: 0 <= k < |moves| ==> MovesAt(c, k))
    }

    ghost predicate MovesAt(c: Cluster, k: nat)
      requires k < |moves| && |states| == |moves| + 1
    {
      Moves(c, states[k], moves[k], states[k + 1])
    }

    /** The same without the promise that each vote is delivered under one header only. */
    ghost predicate Free(c: Cluster) {
      && c.Valid()
      && |states| == |moves| + 1
      && Starts(c, states[0])
      && (forall k :: 0 <= k < |moves| ==> MovesFreelyAt(c, k))
    }

    ghost predicate MovesFreelyAt(c: Cluster, k: nat)
      requires k < |moves| && |states| == |moves| + 1
    {
      MovesFreely(c, states[k], moves[k], states[k + 1])
    }

    /** Blocks, seals and validity answers can be relied on throughout. */
    ghost predicate Vetted(c: Cluster)
      requires |states| == |moves| + 1
    {
      forall k :: 0 <= k < |moves| ==> VettedAt(c, k)
    }

    ghost predicate VettedAt(c: Cluster, k: nat)
      requires k < |moves| && |states| == |moves| + 1
    {
      Network.Vetted(c, states[k], moves[k])
    }
  }

  lemma NextInv(c: Cluster, h: History, k: nat)
    requires h.Valid(c) && k < |h.moves| && SystemInv(c, h.states[k])
    ensures SystemInv(c, h.states[k + 1])
  {
    assert h.MovesAt(c, k);
    SystemInvStep(c, h.states[k], h.moves[k], h.states[k + 1]);
  }

  lemma {:induction false} InvariantOfHistory(c: Cluster, h: History, k: nat)
    requires h.Valid(c) && k < |h.states|
    ensures SystemInv(c, h.states[k])
  {
    if k == 0 {
      StartInv(c, h.states[0]);
    } else {
      InvariantOfHistory(c, h, k - 1);
      NextInv(c, h, k - 1);
    }
  }

  lemma NextGrows(c: Cluster, h: History, k: nat)
    requires h.Valid(c) && k < |h.moves|
    ensures Grows(h.states[k], h.states[k + 1])
  {
    assert h.MovesAt(c, k);
    SystemGrows(c, h.states[k], h.moves[k], h.states[k + 1]);
  }

  lemma GrowsTransitive(r: System, s: System, t: System)
    requires Grows(r, s) && Grows(s, t)
    ensures Grows(r, t)
  {
  }

  lemma {:induction false} HistoryGrows(c: Cluster, h: History, i: nat, j: nat)
    requires h.Valid(c) && i <= j < |h.states|
    ensures Grows(h.states[i], h.states[j])
    decreases j - i
  {
    if i < j {
      HistoryGrows(c, h, i, j - 1);
      NextGrows(c, h, j - 1);
      GrowsTransitive(h.states[i], h.states[j - 1], h.states[j]);
    }
  }

  // ---------- Agreement within a view ----------

  /** A certificate held by a correct node at any time stands for a quorum ever after. */
  lemma CertificateLasts(c: Cluster, h: History, i: nat, j: nat, p: PeerId, v: nat, sn: nat, b: PbftBlock)
    requires h.Valid(c) && i <= j < |h.states| && p in h.states[i].nodes
    requires PreparedFor(h.states[i].nodes[p].log.messages, sn, v, c.f, b)
    ensures QuorumPrepared(c, h.states[j], v, sn, b)
  {
    InvariantOfHistory(c, h, i);
    assert NodeOk(c, h.states[i], p);
    HeldCertificate(c, h.states[i], p, v, sn, b);
    HistoryGrows(c, h, i, j);
    QuorumsStay(c, h.states[i], h.states[j], v, sn, b);
  }

  /** In no run, whatever the validators answer, do two correct nodes, at whatever times, hold
      prepared certificates for different blocks at one view and sequence number. */
  lemma PreparedAgreement(c: Cluster, h: History, i: nat, p: PeerId, j: nat, q: PeerId, v: nat, sn: nat, b: PbftBlock, d: PbftBlock)
    requires h.Valid(c) && i < |h.states| && j < |h.states| && p in h.states[i].nodes && q in h.states[j].nodes
    requires PreparedFor(h.states[i].nodes[p].log.messages, sn, v, c.f, b)
    requires PreparedFor(h.states[j].nodes[q].log.messages, sn, v, c.f, d)
    ensures b == d
  {
    var last := if i < j then j else i;
    CertificateLasts(c, h, i, last, p, v, sn, b);
    CertificateLasts(c, h, j, last, q, v, sn, d);
    InvariantOfHistory(c, h, last);
    QuorumBlockUnique(c, h.states[last], v, sn, b, d);
  }

  lemma {:induction false} BackedOverHistory(c: Cluster, h: History, k: nat)
    requires h.Valid(c) && h.Vetted(c) && k < |h.states|
    ensures AllBacked(c, h.states[k])
  {
    if k == 0 {
      StartInv(c, h.states[0]);
    } else {
      BackedOverHistory(c, h, k - 1);
      NextBacked(c, h, k - 1);
    }
  }

  lemma NextBacked(c: Cluster, h: History, k: nat)
    requires h.Valid(c) && h.Vetted(c) && k < |h.moves| && AllBacked(c, h.states[k])
    ensures AllBacked(c, h.states[k + 1])
  {
    InvariantOfHistory(c, h, k);
    assert h.MovesAt(c, k) && h.VettedAt(c, k);
    AllBackedStep(c, h.states[k], h.moves[k], h.states[k + 1]);
  }

  lemma DecisionLasts(c: Cluster, h: History, i: nat, j: nat, p: PeerId, d: ServiceCall)
    requires h.Valid(c) && h.Vetted(c) && i <= j < |h.states| && p in h.states[i].nodes
    requires d in h.states[i].nodes[p].calls && d.CommitBlock?
    ensures IdPrepared(c, h.states[j], d.view, d.seqNum, d.committed)
  {
    BackedOverHistory(c, h, i);
    assert NodeBacked(c, h.states[i], p);
    HistoryGrows(c, h, i, j);
    IdStays(c, h.states[i], h.states[j], d.view, d.seqNum, d.committed);
  }

  /** In no run do correct nodes tell their validators to commit different blocks at one view
      and sequence number, whether by votes or by catching up from a seal. */
  lemma CommitAgreement(c: Cluster, h: History, i: nat, p: PeerId, j: nat, q: PeerId, d: ServiceCall, e: ServiceCall)
    requires h.Valid(c) && h.Vetted(c) && i < |h.states| && j < |h.states| && p in h.states[i].nodes && q in h.states[j].nodes
    requires d in h.states[i].nodes[p].calls && e in h.states[j].nodes[q].calls
    requires d.CommitBlock? && e.CommitBlock? && d.view == e.view && d.seqNum == e.seqNum
    ensures d.committed == e.committed
  {
    var last := if i < j then j else i;
    var s := h.states[last];
    DecisionLasts(c, h, i, last, p, d);
    DecisionLasts(c, h, j, last, q, e);
    var b: PbftBlock :| b.blockId == d.committed && QuorumPrepared(c, s, d.view, d.seqNum, b);
    var a: PbftBlock :| a.blockId == e.committed && QuorumPrepared(c, s, e.view, e.seqNum, a);
    InvariantOfHistory(c, h, last);
    QuorumBlockUnique(c, s, d.view, d.seqNum, a, b);
  }

  /** At this number the node has sent Prepares for one block at most, in whatever views. */
  ghost predicate OneMind(n: Node, sn: nat) {
    forall v, u, b, a :: Sent(n, Prepare, v, sn, b) && Sent(n, Prepare, u, sn, a) ==> b == a
  }

  /** Two blocks that quorums have prepared at one number, in whatever views, are one block unless
      a correct node has prepared both. */
  lemma QuorumsOfOneMind(c: Cluster, s: System, v: nat, u: nat, sn: nat, b: PbftBlock, a: PbftBlock)
    requires c.Valid() && SystemInv(c, s) && QuorumPrepared(c, s, v, sn, b) && QuorumPrepared(c, s, u, sn, a)
    requires forall r :: r in s.nodes ==> OneMind(s.nodes[r], sn)
    ensures b == a
  {
    var q :| PrepareQuorum(c, s, q, v, sn, b);
    var r :| PrepareQuorum(c, s, r, u, sn, a);
    var p := QuorumsShareCorrect(c, q, r);
    assert NodeOk(c, s, p);
    assert Sent(s.nodes[p], Prepare, v, sn, b) && Sent(s.nodes[p], Prepare, u, sn, a);
  }

  /** Across views as well, correct nodes commit one block at a number, by votes or by catching up,
      as long as no correct node prepares two blocks at that number. */
  lemma AgreementAcrossViews(c: Cluster, h: History, i: nat, p: PeerId, j: nat, q: PeerId, d: ServiceCall, e: ServiceCall, last: nat)
    requires h.Valid(c) && h.Vetted(c) && i <= last < |h.states| && j <= last && p in h.states[i].nodes && q in h.states[j].nodes
    requires d in h.states[i].nodes[p].calls && e in h.states[j].nodes[q].calls
    requires d.CommitBlock? && e.CommitBlock? && d.seqNum == e.seqNum
    requires forall r :: r in h.states[last].nodes ==> OneMind(h.states[last].nodes[r], d.seqNum)
    ensures d.committed == e.committed
  {
    var s := h.states[last];
    DecisionLasts(c, h, i, last, p, d);
    DecisionLasts(c, h, j, last, q, e);
    var b: PbftBlock :| b.blockId == d.committed && QuorumPrepared(c, s, d.view, d.seqNum, b);
    var a: PbftBlock :| a.blockId == e.committed && QuorumPrepared(c, s, e.view, e.seqNum, a);
    InvariantOfHistory(c, h, last);
    QuorumsOfOneMind(c, s, d.view, e.view, d.seqNum, b, a);
  }

  // ---------- View changes ----------

  /** The node has sent a view change for this view and sequence number. */
  ghost predicate ProposedView(n: Node, v: nat, sn: nat) {
    exists w :: Broadcast(w) in n.calls && SelfMessage(w).At(ViewChange, sn, v)
  }

  /** These are at least `k` correct nodes that have sent a view change for this view and
      sequence number. */
  ghost predicate Backers(s: System, q: set<PeerId>, v: nat, sn: nat, k: nat) {
    |q| >= k && forall p :: p in q ==> p in s.nodes && ProposedView(s.nodes[p], v, sn)
  }

  ghost predicate ViewBackedAt(s: System, v: nat, sn: nat, k: nat) {
    exists q :: Backers(s, q, v, sn, k)
  }

  /** At least `k` correct nodes have proposed this view, all at one sequence number. */
  ghost predicate ViewBacked(s: System, v: nat, k: nat) {
    exists sn :: ViewBackedAt(s, v, sn, k)
  }

  /** Of the view changes that a correct node counts, all but f come from correct nodes. */
  lemma CountedViewChanges(c: Cluster, s: System, p: PeerId, msgs: set<ParsedMessage>, v: nat, sn: nat, k: nat)
    requires c.Valid() && SystemInv(c, s) && p in s.nodes
    requires forall m :: m in msgs && m.Type() == ViewChange ==> Sourced(s, p, m)
    requires |OfTypeSeqView(msgs, ViewChange, sn, v)| >= c.f + k
    ensures ViewBackedAt(s, v, sn, k)
  {
    var entries := OfTypeSeqView(msgs, ViewChange, sn, v);
    assert NodeOk(c, s, p);
    EntriesHaveDistinctSigners(c, s, p, entries);
    var q := Signers(entries) - c.faulty;
    assert |Signers(entries)| == |Signers(entries) * c.faulty| + |q|;
    SubsetCardinality(Signers(entries) * c.faulty, c.faulty);
    forall x | x in q ensures x in s.nodes && ProposedView(s.nodes[x], v, sn) {
      var m :| m in entries && m.SignerId() == x;
      assert Sourced(s, p, m);
      assert SelfMessage(m.message).At(ViewChange, sn, v);
    }
    assert Backers(s, q, v, sn, k);
  }

  /** A view that a correct node holds 2f + 1 view changes for was proposed by f + 1 correct nodes. */
  lemma CertifiedViewIsBacked(c: Cluster, s: System, p: PeerId, v: nat)
    requires c.Valid() && SystemInv(c, s) && p in s.nodes && ViewCertified(s.nodes[p], v)
    ensures ViewBacked(s, v, c.f + 1)
  {
    assert NodeOk(c, s, p);
    var msgs := s.nodes[p].log.messages;
    var sn :| |OfTypeSeqView(msgs, ViewChange, sn, v)| >= 2 * s.nodes[p].state.f + 1;
    CountedViewChanges(c, s, p, msgs, v, sn, c.f + 1);
  }

  /** In every run, when a correct node changes its view other than after a block, f + 1 correct
      nodes have proposed the new view. */
  lemma AdoptedViewIsBacked(c: Cluster, h: History, k: nat, p: PeerId)
    requires h.Valid(c) && k < |h.moves| && h.moves[k].NodeMove? && p == h.moves[k].p
    requires p in h.states[k].nodes && p in h.states[k + 1].nodes
    requires h.states[k + 1].nodes[p].state.view != h.states[k].nodes[p].state.view
    requires h.states[k + 1].nodes[p].state.seqNum == h.states[k].nodes[p].state.seqNum
    ensures ViewBacked(h.states[k + 1], h.states[k + 1].nodes[p].state.view, c.f + 1)
  {
    var ev, env := h.moves[k].ev, h.moves[k].env;
    assert h.MovesAt(c, k);
    var n := h.states[k].nodes[p];
    ViewMovement(n, ev, env);
    SameRoundNoRotation(n, ev, env);
    InvariantOfHistory(c, h, k + 1);
    CertifiedViewIsBacked(c, h.states[k + 1], p, h.states[k + 1].nodes[p].state.view);
  }

  /** Rotation and catch-up end the round. */
  lemma SameRoundNoRotation(n: Node, ev: Event, env: Env)
    requires n.state.Sound() && env.Valid() && WellSealed(ev)
    requires Step(n, ev, env).state.seqNum == n.state.seqNum
    ensures ev.UpdateBlockNew? ==> !CatchesUpOn(n, ev.block, env)
    ensures ev.UpdateBlockCommit? ==> Step(n, ev, env) == n
  {
    if ev.UpdateBlockNew? && CatchesUpOn(n, ev.block, env) {
      CatchupIsCorrect(n, ev.block, env);
      assert false;
    }
    if ev.UpdateBlockCommit? {
      AdvanceOnBlockCommit(n, ev.committedId, env);
    }
  }

  // ---------- The first to change views ----------

  /** The node gives up on the primary of its own accord: its timer ran out, the block was found
      invalid, or the block's seal does not verify. */
  ghost predicate OwnCause(n: Node, ev: Event, env: Env) {
    || ev.UpdateBlockInvalid?
    || (ev.TickWorking? && n.state.timeout.Checked(env.now).state == Expired)
    || (ev.UpdateBlockNew? && ev.block.blockNum >= n.state.seqNum && VerifyConsensusSeal(n, ev.block, env).Failure?)
  }

  /** The node is in Normal mode and has never proposed a view change. */
  ghost predicate Content(n: Node) {
    n.state.mode == Normal && forall w :: Broadcast(w) in n.calls ==> SelfMessage(w).Type() != ViewChange
  }

  lemma ContentOnVote(n: Node, m: ParsedMessage, env: Env)
    requires n.state.Sound() && env.Valid() && Content(n)
    ensures m.Type() == Prepare ==> Content(OnPrepare(n, m, env).node)
    ensures m.Type() == Commit ==> Content(OnCommit(n, m, env).node)
  {
  }

  lemma ContentAfterSending(n: Node, w: Wrapper)
    requires Content(n) && SelfMessage(w).Type() != ViewChange
    ensures Content(n.Call(Broadcast(w)))
  {
  }

  lemma ContentOnPrePrepare(n: Node, m: ParsedMessage, env: Env)
    requires n.state.Sound() && env.Valid() && Content(n) && m.Type() == PrePrepare
    ensures Content(OnPrePrepare(n, m, env).node)
  {
    var n1 := WithPrePrepare(n, m, env.now);
    var w := OwnMessage(n1, Prepare, m.SeqNum(), m.Block());
    ContentAfterSending(n1, w);
    ContentOnVote(n1.Call(Broadcast(w)), SelfMessage(w), env);
  }

  lemma ContentOnBlockCommit(n: Node, id: BlockId, env: Env)
    requires n.state.Sound() && env.Valid() && Content(n)
    ensures Content(OnBlockCommit(n, id, env))
  {
  }

  lemma ContentOnBlockNew(n: Node, block: Block, env: Env)
    requires n.state.Sound() && env.Valid() && Content(n) && SealOfCommits(block) && !OwnCause(n, UpdateBlockNew(block), env)
    ensures Content(OnBlockNew(n, block, env).node)
  {
    if block.blockNum >= n.state.seqNum {
      var a := LogBlock(n, block, VerifyConsensusSeal(n, block, env).value);
      if block.blockNum == n.state.seqNum + 1 && n.state.phase != Finished {
        VerifiedSealHasVotes(n, block, env);
        var seal := block.payload.seal;
        assert seal.votes[0] in seal.votes;
        CatchupAllOrNothing(a, block, seal, env);
        ContentOnBlockCommit(AtCatchupCommit(a, seal), block.previousId, env);
      } else if block.blockNum == n.state.seqNum {
        ContentAdoptBlock(a, block, env);
      }
    }
  }

  lemma ContentAdoptBlock(n: Node, block: Block, env: Env)
    requires n.state.Sound() && env.Valid() && Content(n)
    ensures Content(AdoptBlock(n, block, env).node)
  {
    var pbftBlock := PbftBlockFromBlock(block);
    var n1 := n.(state := n.state.(workingBlock := Some(pbftBlock)));
    var w := OwnMessage(n1, PrePrepare, n.state.seqNum, pbftBlock);
    ContentAfterSending(n1, w);
    ContentOnPrePrepare(n1.Call(Broadcast(w)), SelfMessage(w), env);
  }

  lemma ContentOnBlockValid(n: Node, id: BlockId, env: Env)
    requires n.state.Sound() && env.Valid() && Content(n)
    ensures Content(OnBlockValid(n, id, env).node)
  {
    ValidBlockSends(n, id, env);
    if n.state.workingBlock.Some? {
      ContentOnVote(WithOwnCommit(n), SelfMessage(OwnMessage(n, Commit, n.state.seqNum, n.state.workingBlock.value)), env);
    }
  }

  /** A content node stays so unless it has a cause of its own or f + 1 view changes tell it to. */
  lemma ContentStep(n: Node, ev: Event, env: Env)
    requires n.state.Sound() && env.Valid() && WellSealed(ev) && Content(n) && BacklogOfPrePrepares(n) && !OwnCause(n, ev, env)
    requires var m := MessageOf(n, ev);
      m.Some? && m.value.Type() == ViewChange ==>
        |OfTypeSeqView(n.log.messages + {m.value}, ViewChange, m.value.SeqNum(), m.value.View())| < n.state.f + 1
    ensures Content(Step(n, ev, env))
  {
    match ev
    case UpdateBlockNew(block) => ContentOnBlockNew(n, block, env);
    case UpdateBlockValid(id) => ContentOnBlockValid(n, id, env);
    case UpdateBlockInvalid(id) =>
    case UpdateBlockCommit(id) => ContentOnBlockCommit(n, id, env);
    case UpdatePeerMessage(header, message, sender) =>
      var m := ParsedMessage(header, message, false);
      if m.SignerId() == sender {
        ContentOnPeerMessage(n, m, env);
      }
    case UpdateOther =>
    case TickWorking(summary) =>
    case TickBacklog =>
      if n.log.backlog != [] {
        ContentOnPrePrepare(n.(log := n.log.(backlog := n.log.backlog[1..])), n.log.backlog[0], env);
      }
  }

  lemma ContentOnPeerMessage(n: Node, m: ParsedMessage, env: Env)
    requires n.state.Sound() && env.Valid() && Content(n)
    requires m.Type() == ViewChange ==> |OfTypeSeqView(n.log.messages + {m}, ViewChange, m.SeqNum(), m.View())| < n.state.f + 1
    ensures Content(OnPeerMessage(n, m, env).node)
  {
    match m.Type()
    case PrePrepare => ContentOnPrePrepare(n, m, env);
    case Prepare => ContentOnVote(n, m, env);
    case Commit => ContentOnVote(n, m, env);
    case ViewChange =>
    case _ =>
  }

  ghost predicate AllContent(s: System) {
    forall p :: p in s.nodes ==> Content(s.nodes[p])
  }

  /** The move of a correct node that gave up on its primary of its own accord. */
  ghost predicate OwnCauseAt(c: Cluster, h: History, k: nat)
    requires h.Valid(c) && k < |h.moves|
  {
    h.moves[k].NodeMove? && h.moves[k].p in h.states[k].nodes && OwnCause(h.states[k].nodes[h.moves[k].p], h.moves[k].ev, h.moves[k].env)
  }

  /** As long as all correct nodes are content, only a move with a cause of the mover's own can
      make one of them start a view change. */
  lemma ContentMove(c: Cluster, h: History, k: nat)
    requires h.Valid(c) && k < |h.moves| && AllContent(h.states[k]) && !OwnCauseAt(c, h, k)
    ensures AllContent(h.states[k + 1])
  {
    var s, move := h.states[k], h.moves[k];
    assert h.MovesAt(c, k);
    if move.NodeMove? {
      var p, ev := move.p, move.ev;
      var n := s.nodes[p];
      InvariantOfHistory(c, h, k);
      assert NodeOk(c, s, p);
      var m := MessageOf(n, ev);
      if m.Some? && m.value.Type() == ViewChange {
        NotEnoughViewChanges(c, s, p, m.value);
      }
      ContentStep(n, ev, move.env);
    }
  }

  /** While no correct node has proposed a view change, none can hold f + 1 of them. */
  lemma NotEnoughViewChanges(c: Cluster, s: System, p: PeerId, m: ParsedMessage)
    requires c.Valid() && SystemInv(c, s) && AllContent(s) && p in s.nodes && m in s.net && m.SignerId() != p
    ensures |OfTypeSeqView(s.nodes[p].log.messages + {m}, ViewChange, m.SeqNum(), m.View())| < c.f + 1
  {
    var msgs := s.nodes[p].log.messages + {m};
    assert NodeOk(c, s, p);
    if |OfTypeSeqView(msgs, ViewChange, m.SeqNum(), m.View())| >= c.f + 1 {
      CountedViewChanges(c, s, p, msgs, m.View(), m.SeqNum(), 1);
      ContentNotBacked(s, m.View(), m.SeqNum());
      assert false;
    }
  }

  lemma ContentNotBacked(s: System, v: nat, sn: nat)
    requires AllContent(s)
    ensures !ViewBackedAt(s, v, sn, 1)
  {
    forall q ensures !Backers(s, q, v, sn, 1) {
      if |q| >= 1 {
        var p :| p in q;
        assert p in s.nodes ==> Content(s.nodes[p]);
      }
    }
  }

  /** In every run, if a correct node is ever changing views or has ever proposed to, then some
      correct node did so first on its own timer, a block found invalid, or a bad seal: faulty
      peers alone cannot start a view change. */
  lemma {:induction false} ViewChangesHaveHonestCause(c: Cluster, h: History, k: nat, p: PeerId)
    requires h.Valid(c) && k < |h.states| && p in h.states[k].nodes && !Content(h.states[k].nodes[p])
    ensures exists i :: 0 <= i < k && OwnCauseAt(c, h, i)
  {
    if forall i :: 0 <= i < k ==> !OwnCauseAt(c, h, i) {
      StillContent(c, h, k);
    }
  }

  lemma {:induction false} StillContent(c: Cluster, h: History, k: nat)
    requires h.Valid(c) && k < |h.states| && forall i :: 0 <= i < k ==> !OwnCauseAt(c, h, i)
    ensures AllContent(h.states[k])
  {
    if k == 0 {
      forall p | p in h.states[0].nodes ensures Content(h.states[0].nodes[p]) {
        FreshNodeContent(h.states[0].nodes[p]);
      }
    } else {
      StillContent(c, h, k - 1);
      ContentMove(c, h, k - 1);
    }
  }

  lemma FreshNodeContent(n: Node)
    requires Fresh(n)
    ensures Content(n)
  {
    FreshNodeIs(n);
  }

  // ---------- The first round of a cluster ----------

  lemma SealsSinceNext(c: Cluster, h: History, k: nat, p: PeerId, first: nat)
    requires h.Valid(c) && k < |h.moves| && p in h.states[k].nodes && p in h.states[k + 1].nodes && SealsSince(h.states[k].nodes[p], first)
    ensures SealsSince(h.states[k + 1].nodes[p], first)
  {
    assert h.MovesAt(c, k);
    if h.moves[k].NodeMove? && h.moves[k].p == p {
      SealsSinceStep(h.states[k].nodes[p], h.moves[k].ev, h.moves[k].env, first);
    }
  }

  lemma {:induction false} SealsSinceStart(c: Cluster, h: History, k: nat, p: PeerId)
    requires h.Valid(c) && k < |h.states| && p in h.states[k].nodes && p in h.states[0].nodes
    ensures SealsSince(h.states[k].nodes[p], h.states[0].nodes[p].state.seqNum)
  {
    if k == 0 {
      FreshNodeIs(h.states[0].nodes[p]);
    } else {
      NextGrows(c, h, k - 1);
      SealsSinceStart(c, h, k - 1, p);
      SealsSinceNext(c, h, k - 1, p, h.states[0].nodes[p].state.seqNum);
    }
  }

  /** Every correct node is still at the sequence number it started at. */
  ghost predicate FirstRound(c: Cluster, h: History, k: nat)
    requires h.Valid(c) && k < |h.states|
  {
    forall p :: p in h.states[k].nodes ==>
      p in h.states[0].nodes && h.states[k].nodes[p].state.seqNum == h.states[0].nodes[p].state.seqNum
  }

  lemma FirstRoundUnbacked(c: Cluster, h: History, k: nat, v: nat, sn: nat, least: nat)
    requires h.Valid(c) && k < |h.states| && FirstRound(c, h, k) && least >= 1
    ensures !ViewBackedAt(h.states[k], v, sn, least)
  {
    var s := h.states[k];
    InvariantOfHistory(c, h, k);
    forall q ensures !Backers(s, q, v, sn, least) {
      if |q| >= least {
        var p :| p in q;
        if p in s.nodes {
          assert NodeOk(c, s, p);
          SealsSinceStart(c, h, k, p);
          NotProposedInFirstRound(s.nodes[p], h.states[0].nodes[p].state.seqNum, v, sn);
        }
      }
    }
  }

  lemma NotProposedInFirstRound(n: Node, first: nat, v: nat, sn: nat)
    requires SealsSince(n, first) && ViewChangesSettled(n) && n.state.seqNum == first
    ensures !ProposedView(n, v, sn)
  {
    forall w | Broadcast(w) in n.calls ensures !SelfMessage(w).At(ViewChange, sn, v) {
      if SelfMessage(w).Type() == ViewChange {
        ViewChangesArePast(n, w);
        assert false;
      }
    }
  }

  lemma SeqNumsOnlyGrow(c: Cluster, h: History, k: nat, p: PeerId)
    requires h.Valid(c) && k < |h.moves| && p in h.states[k].nodes && p in h.states[k + 1].nodes
    ensures h.states[k + 1].nodes[p].state.seqNum >= h.states[k].nodes[p].state.seqNum
  {
    assert h.MovesAt(c, k);
    if h.moves[k].NodeMove? && h.moves[k].p == p {
      SeqNumOnlyGrows(h.states[k].nodes[p], h.moves[k].ev, h.moves[k].env);
    }
  }

  lemma FirstRoundBefore(c: Cluster, h: History, k: nat)
    requires h.Valid(c) && k < |h.moves| && FirstRound(c, h, k + 1)
    ensures FirstRound(c, h, k)
  {
    NextGrows(c, h, k);
    HistoryGrows(c, h, 0, k);
    forall p | p in h.states[k].nodes
      ensures p in h.states[0].nodes && h.states[k].nodes[p].state.seqNum == h.states[0].nodes[p].state.seqNum
    {
      StillAtStart(c, h, k, p);
    }
  }

  lemma StillAtStart(c: Cluster, h: History, k: nat, p: PeerId)
    requires h.Valid(c) && k < |h.moves| && p in h.states[0].nodes && p in h.states[k].nodes && p in h.states[k + 1].nodes
    requires h.states[k + 1].nodes[p].state.seqNum == h.states[0].nodes[p].state.seqNum
    ensures h.states[k].nodes[p].state.seqNum == h.states[0].nodes[p].state.seqNum
  {
    SeqNumsOnlyGrow(c, h, k, p);
    SealsSinceStart(c, h, k, p);
  }

  lemma OthersStand(c: Cluster, h: History, k: nat, p: PeerId)
    requires h.Valid(c) && k < |h.moves| && p in h.states[k].nodes && p in h.states[k + 1].nodes
    ensures (h.moves[k].NodeMove? && h.moves[k].p == p) || h.states[k + 1].nodes[p] == h.states[k].nodes[p]
  {
    assert h.MovesAt(c, k);
  }

  lemma FirstRoundKeepsView(c: Cluster, h: History, k: nat, p: PeerId)
    requires h.Valid(c) && k < |h.moves| && FirstRound(c, h, k) && FirstRound(c, h, k + 1)
    requires p in h.states[k].nodes && p in h.states[k + 1].nodes
    ensures h.states[k + 1].nodes[p].state.view == h.states[k].nodes[p].state.view
  {
    OthersStand(c, h, k, p);
    if h.states[k + 1].nodes[p].state.view != h.states[k].nodes[p].state.view {
      AdoptedViewIsBacked(c, h, k, p);
      FirstRoundAllUnbacked(c, h, k + 1, h.states[k + 1].nodes[p].state.view);
      assert false;
    }
  }

  lemma FirstRoundAllUnbacked(c: Cluster, h: History, k: nat, v: nat)
    requires h.Valid(c) && k < |h.states| && FirstRound(c, h, k)
    ensures !ViewBacked(h.states[k], v, c.f + 1)
  {
    var least := c.f + 1;
    forall sn ensures !ViewBackedAt(h.states[k], v, sn, least) {
      FirstRoundUnbacked(c, h, k, v, sn, least);
    }
  }

  /** In no run does a correct node leave view 0 while all correct nodes are still in the round
      they started in: the first primary cannot be replaced before it gets a block committed. */
  lemma {:induction false} FirstPrimaryStays(c: Cluster, h: History, k: nat, p: PeerId)
    requires h.Valid(c) && k < |h.states| && FirstRound(c, h, k) && p in h.states[k].nodes
    ensures h.states[k].nodes[p].state.view == 0
  {
    if k == 0 {
      assert Fresh(h.states[0].nodes[p]);
    } else {
      FirstRoundBefore(c, h, k - 1);
      HistoryGrows(c, h, k - 1, k);
      FirstPrimaryStays(c, h, k - 1, p);
      FirstRoundKeepsView(c, h, k - 1, p);
    }
  }
}
