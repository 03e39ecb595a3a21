/** One node over a whole run: any sequence of updates and ticks, each with its own clock, hash
    order, settings and signature checks, from the state the engine starts in. */
module Runs {
  import opened Types
  import opened State
  import opened MessageLog
  import opened Protocol
  import opened Ledger
  import opened Ladder
  import opened Provenance
  import opened Commits
  import opened Views
  import opened Seals
  import opened Retention

  datatype Trace = Trace(nodes: seq<Node>, events: seq<Event>, envs: seq<Env>)
  {
    /** Each node is the step of the one before, and the first is a fresh node. */
    ghost predicate Valid() {
      && |nodes| == |events| + 1 == |envs| + 1
      && Fresh(nodes[0])
      && (forall k :: 0 <= k < |envs| ==> envs[k].Valid())
      && (forall k :: 0 <= k < |nodes| ==> nodes[k].state.Sound())
      && (forall k :: 0 <= k < |events| ==> StepsAt(k))
    }

    /** Each node steps to the next as long as the state is in the range of the arithmetic. */
    ghost predicate Follows() {
      && |nodes| == |events| + 1 == |envs| + 1
      && Fresh(nodes[0])
      && (forall k :: 0 <= k < |envs| ==> envs[k].Valid())
      && (forall k :: 0 <= k < |events| ==> FollowsAt(k))
    }

    ghost predicate FollowsAt(k: nat)
      requires k < |events| && |nodes| == |events| + 1 == |envs| + 1 && envs[k].Valid()
    {
      nodes[k].state.Sound() ==> nodes[k + 1] == Step(nodes[k], events[k], envs[k])
    }

    ghost predicate StepsAt(k: nat)
      requires k < |events| && |nodes| == |events| + 1 == |envs| + 1
    {
      nodes[k].state.Sound() && envs[k].Valid() && nodes[k + 1] == Step(nodes[k], events[k], envs[k])
    }

    /** Delivered seals have the shape build_seal gives them. */
    ghost predicate Sealed() {
      forall k :: 0 <= k < |events| ==> WellSealed(events[k])
    }

    /** The validator finds valid what was pre-prepared. */
    ghost predicate Checked()
      requires |nodes| == |events| + 1
    {
      forall k :: 0 <= k < |events| ==> ValidNamesPrePrepared(nodes[k], events[k])
    }
  }

  ghost predicate Fresh(n: Node) {
    exists id, head: nat, peers: seq<PeerId>, timeout, period: nat, size: nat, now ::
      |peers| >= 4 && period > 0 && n == InitialNode(id, head, peers, timeout, period, size, now)
  }

  ghost predicate BacklogOfPrePrepares(n: Node) {
    forall m :: m in n.log.backlog ==> m.Type() == PrePrepare
  }

  /** The view changes a node has sent: one for each view and sequence number, and those of
      the current round carry the seal that is found for it now. */
  ghost predicate ViewChangesSettled(n: Node) {
    && (forall p :: Broadcast(Message(p)) in n.calls ==> p.msgType != ViewChange)
    && (forall v, s, p, seal :: Broadcast(ViewChangeMessage(v, s, p, seal)) in n.calls ==> p == n.state.id)
    && (forall v: nat, s: nat, seal :: Broadcast(ViewChangeMessage(v, s, n.state.id, seal)) in n.calls ==>
          s < n.state.seqNum && (s + 1 == n.state.seqNum ==> n.log.GetConsensusSeal(s) == Success(seal)))
    && (forall v, s, seal, other ::
          Broadcast(ViewChangeMessage(v, s, n.state.id, seal)) in n.calls && Broadcast(ViewChangeMessage(v, s, n.state.id, other)) in n.calls ==>
          seal == other)
  }

  ghost predicate NodeInv(n: Node) {
    LedgerInv(n) && LadderInv(n) && OwnMessagesMarked(n) && BacklogOfPrePrepares(n) && ViewChangesSettled(n)
  }

  lemma FreshNodeIs(n: Node)
    requires Fresh(n)
    ensures n.state.Sound() && n.state.RoleMatches() && TimerMatchesPhase(n)
    ensures n.state.phase == PrePreparing && n.state.workingBlock.None?
    ensures n.log.messages == {} && n.log.backlog == [] && n.log.seals == {}
    ensures n.calls == [] || n.calls == [InitializeBlock(None)]
  {
  }

  lemma FreshNodeInv(n: Node)
    requires Fresh(n)
    ensures NodeInv(n) && ChainInv(n, n.state.seqNum) && n.state.RoleMatches()
  {
    FreshNodeIs(n);
    EmptyNodeInv(n);
  }

  lemma EmptyNodeInv(n: Node)
    requires n.state.phase == PrePreparing && n.state.workingBlock.None? && TimerMatchesPhase(n)
    requires n.log.messages == {} && n.log.backlog == []
    requires n.calls == [] || n.calls == [InitializeBlock(None)]
    ensures NodeInv(n) && ChainInv(n, n.state.seqNum)
  {
    assert CommitCalls([]) == [];
    assert [InitializeBlock(None)][..0] == [];
    assert CommitCalls(n.calls) == [];
  }

  /** No run ever leaves the range in which no arithmetic or indexing can panic. */
  lemma NoPanicOverRuns(t: Trace)
    requires t.Follows()
    ensures t.Valid()
  {
    forall k | 0 <= k < |t.nodes| ensures t.nodes[k].state.Sound() {
      SoundAt(t, k);
    }
    forall k | 0 <= k < |t.events| ensures t.StepsAt(k) {
      assert t.FollowsAt(k);
    }
  }

  lemma {:induction false} SoundAt(t: Trace, k: nat)
    requires t.Follows() && k < |t.nodes|
    ensures t.nodes[k].state.Sound()
  {
    if k == 0 {
      FreshNodeIs(t.nodes[0]);
    } else {
      SoundAt(t, k - 1);
      assert t.FollowsAt(k - 1);
    }
  }

  lemma NodeInvStep(n: Node, ev: Event, env: Env)
    requires n.state.Sound() && env.Valid() && NodeInv(n) && WellSealed(ev)
    ensures NodeInv(Step(n, ev, env))
  {
    LedgerStep(n, ev, env);
    LadderStep(n, ev, env);
    OwnMarkedStep(n, ev, env);
    EffectOfStep(n, ev, env);
    ViewChangesSettledStep(n, ev, env);
  }

  lemma SeqNumOnlyGrows(n: Node, ev: Event, env: Env)
    requires n.state.Sound() && env.Valid() && WellSealed(ev)
    ensures Step(n, ev, env).state.seqNum >= n.state.seqNum
  {
    LogOfStep(n, ev, env);
    if ev.UpdateBlockNew? && CatchesUpOn(n, ev.block, env) {
      var seal := ev.block.payload.seal;
      AdvanceOnBlockCommit(AtCatchupCommit(Announced(n, ev, env), seal), ev.block.previousId, env);
    }
  }

  lemma ViewChangesSettledStep(n: Node, ev: Event, env: Env)
    requires n.state.Sound() && env.Valid() && WellSealed(ev) && ViewChangesSettled(n)
    ensures ViewChangesSettled(Step(n, ev, env))
  {
    EffectOfStep(n, ev, env);
    SeqNumOnlyGrows(n, ev, env);
    if Step(n, ev, env).state.seqNum == n.state.seqNum {
      PastSealKept(n, ev, env);
    }
    SettledAfter(n, ev, Step(n, ev, env));
  }

  lemma SettledAfter(n: Node, ev: Event, n': Node)
    requires ViewChangesSettled(n) && StepEffect(n, ev, n') && n'.state.seqNum >= n.state.seqNum >= 1
    requires n'.state.seqNum == n.state.seqNum ==> n'.log.GetConsensusSeal(n.state.seqNum - 1) == n.log.GetConsensusSeal(n.state.seqNum - 1)
    ensures ViewChangesSettled(n')
  {
    forall p | Broadcast(Message(p)) in n'.calls ensures p.msgType != ViewChange {
      assert Broadcast(Message(p)) in n.calls || MaySend(n, ev, Message(p));
    }
    forall v, s, p, seal | Broadcast(ViewChangeMessage(v, s, p, seal)) in n'.calls
      ensures Broadcast(ViewChangeMessage(v, s, p, seal)) in n.calls || MaySend(n, ev, ViewChangeMessage(v, s, p, seal))
    {
    }
  }

  lemma RunExtends(t: Trace, ev: Event, env: Env)
    requires t.Valid() && env.Valid()
    ensures Trace(t.nodes + [Step(t.nodes[|t.nodes| - 1], ev, env)], t.events + [ev], t.envs + [env]).Valid()
  {
    var u := Trace(t.nodes + [Step(t.nodes[|t.nodes| - 1], ev, env)], t.events + [ev], t.envs + [env]);
    forall k | 0 <= k < |u.events| ensures u.StepsAt(k) {
      if k < |t.events| {
        assert t.StepsAt(k);
        assert u.nodes[k] == t.nodes[k] && u.nodes[k + 1] == t.nodes[k + 1];
      }
    }
  }

  /** Some run with well-shaped seals leads to this node. */
  ghost predicate Reachable(n: Node) {
    exists t: Trace :: t.Valid() && t.Sealed() && n == t.nodes[|t.nodes| - 1]
  }

  lemma FreshIsReachable(n: Node)
    requires Fresh(n)
    ensures Reachable(n) && n.state.Sound()
  {
    FreshNodeIs(n);
    var t := Trace([n], [], []);
    assert t.Valid() && t.Sealed();
  }

  lemma StepIsReachable(n: Node, ev: Event, env: Env)
    requires Reachable(n) && n.state.Sound() && env.Valid() && WellSealed(ev)
    ensures Reachable(Step(n, ev, env))
  {
    var t: Trace :| t.Valid() && t.Sealed() && n == t.nodes[|t.nodes| - 1];
    RunExtends(t, ev, env);
    var u := Trace(t.nodes + [Step(n, ev, env)], t.events + [ev], t.envs + [env]);
    assert u.Valid() && u.Sealed() && u.nodes[|u.nodes| - 1] == Step(n, ev, env);
  }

  lemma MessageIsReachable(n: Node, m: ParsedMessage, env: Env)
    requires Reachable(n) && n.state.Sound() && env.Valid() && !m.fromSelf
    ensures Reachable(OnPeerMessage(n, m, env).node)
  {
    StepIsReachable(n, Deliver(m), env);
    assert ParsedMessage(m.header, m.message, false) == m;
  }

  // ---------- Invariants of every run ----------

  lemma {:induction false} InvariantOfRun(t: Trace, k: nat)
    requires t.Valid() && t.Sealed() && k < |t.nodes|
    ensures NodeInv(t.nodes[k])
  {
    if k == 0 {
      FreshNodeInv(t.nodes[0]);
    } else {
      InvariantOfRun(t, k - 1);
      assert t.StepsAt(k - 1);
      NodeInvStep(t.nodes[k - 1], t.events[k - 1], t.envs[k - 1]);
    }
  }

  /** Nothing sent is ever taken back. */
  lemma {:induction false} CallsOnlyGrow(t: Trace, i: nat, j: nat)
    requires t.Valid() && t.Sealed() && i <= j < |t.nodes|
    ensures t.nodes[i].calls <= t.nodes[j].calls && t.nodes[j].state.id == t.nodes[i].state.id
    decreases j - i
  {
    if i < j {
      CallsOnlyGrow(t, i, j - 1);
      assert t.StepsAt(j - 1);
      EffectOfStep(t.nodes[j - 1], t.events[j - 1], t.envs[j - 1]);
    }
  }

  /** In no run does a node send Prepares for two blocks at one view and sequence number,
      whatever view changes, commits and pruning lie between. */
  lemma PreparesUniqueOverRuns(t: Trace, i: nat, j: nat, v: nat, s: nat, b: PbftBlock, c: PbftBlock)
    requires t.Valid() && t.Sealed() && i < |t.nodes| && j < |t.nodes|
    requires Sent(t.nodes[i], Prepare, v, s, b) && Sent(t.nodes[j], Prepare, v, s, c)
    ensures b == c
  {
    var last := if i < j then j else i;
    CallsOnlyGrow(t, i, last);
    CallsOnlyGrow(t, j, last);
    InvariantOfRun(t, last);
    assert SentIn(t.nodes[last].calls, t.nodes[last].state.id, Prepare, v, s, b);
    assert SentIn(t.nodes[last].calls, t.nodes[last].state.id, Prepare, v, s, c);
  }

  /** In every reachable state the phase has its evidence, the node is at rest, and the timer
      runs exactly while the node waits for a PrePrepare. */
  lemma PhasesOverRuns(t: Trace, k: nat)
    requires t.Valid() && t.Sealed() && k < |t.nodes|
    ensures OnLadder(t.nodes[k]) && AtRest(t.nodes[k]) && TimerMatchesPhase(t.nodes[k])
  {
    InvariantOfRun(t, k);
  }

  /** In every reachable state the working block has the current number and was announced, and
      every logged PrePrepare still has its announcement. */
  lemma BookkeepingOverRuns(t: Trace, k: nat)
    requires t.Valid() && t.Sealed() && k < |t.nodes|
    ensures WorkingBlockLogged(t.nodes[k]) && PrePreparesBacked(t.nodes[k].log.messages)
    ensures BacklogOfPrePrepares(t.nodes[k])
  {
    InvariantOfRun(t, k);
  }

  lemma ChainNext(t: Trace, k: nat, first: nat)
    requires t.Valid() && t.Checked() && k < |t.events| && NodeInv(t.nodes[k]) && ChainInv(t.nodes[k], first)
    ensures ChainInv(t.nodes[k + 1], first)
  {
    assert t.StepsAt(k) && ValidNamesPrePrepared(t.nodes[k], t.events[k]);
    ChainOfStep(t.nodes[k], t.events[k], t.envs[k], first);
  }

  /** Over a run the commits follow one another from the first sequence number to the current
      one, in order and without a gap. */
  lemma {:induction false} CommitsChainOverRuns(t: Trace, k: nat)
    requires t.Valid() && t.Sealed() && t.Checked() && k < |t.nodes|
    ensures ChainInv(t.nodes[k], t.nodes[0].state.seqNum)
  {
    if k == 0 {
      FreshNodeInv(t.nodes[0]);
    } else {
      CommitsChainOverRuns(t, k - 1);
      InvariantOfRun(t, k - 1);
      ChainNext(t, k - 1, t.nodes[0].state.seqNum);
    }
  }

  /** Every commit of a run was of the block with the full certificate at that view and sequence
      number, or of the working block on a verified seal. */
  lemma CommitsOverRuns(t: Trace, k: nat)
    requires t.Valid() && t.Sealed() && t.Checked() && k < |t.events|
    ensures CommitMove(t.nodes[k], t.events[k], t.envs[k], t.nodes[k + 1])
  {
    InvariantOfRun(t, k);
    assert t.StepsAt(k) && ValidNamesPrePrepared(t.nodes[k], t.events[k]);
    CommitOfStep(t.nodes[k], t.events[k], t.envs[k]);
  }

  /** As long as no catch-up left the role behind, the role is the one the view gives. */
  lemma {:induction false} RoleOverRuns(t: Trace, k: nat)
    requires t.Valid() && t.Sealed() && k < |t.nodes|
    requires forall j :: 0 <= j < k ==> !LeavesRoleBehind(t.nodes[j], t.events[j], t.envs[j])
    ensures t.nodes[k].state.RoleMatches()
  {
    if k == 0 {
      FreshNodeIs(t.nodes[0]);
    } else {
      RoleOverRuns(t, k - 1);
      assert t.StepsAt(k - 1);
      RoleOfStep(t.nodes[k - 1], t.events[k - 1], t.envs[k - 1]);
    }
  }

  ghost predicate RoundEndsAt(t: Trace, k: nat)
    requires t.Valid() && k < |t.events|
  {
    t.nodes[k + 1].state.seqNum > t.nodes[k].state.seqNum
  }

  /** If step `k` ends a round, the Commits at hand suffice for the fault bound it leaves. */
  ghost predicate EnoughAt(t: Trace, k: nat)
    requires t.Valid() && k < |t.events|
  {
    RoundEndsAt(t, k) ==> EnoughForSeal(t.nodes[k], t.events[k], t.envs[k])
  }

  lemma SealReadyNext(t: Trace, k: nat)
    requires t.Valid() && t.Sealed() && k < |t.events|
    ensures SealMoves(t.nodes[k], t.events[k], t.envs[k], t.nodes[k + 1]) && t.nodes[k + 1].state.seqNum >= t.nodes[k].state.seqNum
  {
    InvariantOfRun(t, k);
    assert t.StepsAt(k) && WellSealed(t.events[k]);
    SeqNumOnlyGrows(t.nodes[k], t.events[k], t.envs[k]);
    SealReadyStep(t.nodes[k], t.events[k], t.envs[k]);
  }

  /** Right after a round the next seal can be built, for every summary, exactly if the Commits at
      hand suffice for the new fault bound; and they do if that did not grow. */
  lemma SealBuiltAfterRound(t: Trace, k: nat, summary: string, env: Env)
    requires t.Valid() && t.Sealed() && k < |t.events| && RoundEndsAt(t, k) && env.Valid()
    ensures BuildSeal(t.nodes[k + 1], summary, env).Success? <==> EnoughAt(t, k)
    ensures NextFaultBound(t.nodes[k], CommittedBy(t.nodes[k], t.events[k]), t.envs[k]) <= t.nodes[k].state.f ==> EnoughAt(t, k)
  {
    SealReadyNext(t, k);
    SealReadyBuilds(t.nodes[k + 1], summary, env);
  }

  /** A step keeps the seal buildable if the Commits at hand suffice where it ends a round. */
  lemma SealStaysReady(t: Trace, k: nat)
    requires t.Valid() && t.Sealed() && k < |t.events| && EnoughAt(t, k) && (SealReady(t.nodes[k]) || RoundEndsAt(t, k))
    ensures SealReady(t.nodes[k + 1])
  {
    SealReadyNext(t, k);
  }

  lemma {:induction false} SealReadyOverRuns(t: Trace, i: nat, k: nat)
    requires t.Valid() && t.Sealed() && i < k < |t.nodes| && RoundEndsAt(t, i)
    requires forall j :: i <= j < k ==> EnoughAt(t, j)
    ensures SealReady(t.nodes[k])
    decreases k
  {
    if i < k - 1 {
      SealReadyOverRuns(t, i, k - 1);
    }
    SealStaysReady(t, k - 1);
  }

  /** From the end of any round on, at every point of the run, the next seal can be built, for
      every summary and hash order, if the Commits at hand sufficed at the end of each round. */
  lemma SealBuiltOverRuns(t: Trace, i: nat, k: nat, summary: string, env: Env)
    requires t.Valid() && t.Sealed() && i < k < |t.nodes| && RoundEndsAt(t, i) && env.Valid()
    requires forall j :: i <= j < k ==> EnoughAt(t, j)
    ensures BuildSeal(t.nodes[k], summary, env).Success?
  {
    SealReadyOverRuns(t, i, k);
    SealReadyBuilds(t.nodes[k], summary, env);
  }

  // ---------- The seal for a view change ----------

  lemma {:induction false} SealsGenuineOverRuns(t: Trace, k: nat, chain: BlockId -> Block)
    requires t.Valid() && t.Sealed() && k < |t.nodes|
    requires forall j :: 0 <= j < |t.events| ==> Genuine(t.events[j], chain)
    ensures SealsGenuine(t.nodes[k], chain)
  {
    if k > 0 {
      SealsGenuineOverRuns(t, k - 1, chain);
      assert t.StepsAt(k - 1);
      SealsGenuineStep(t.nodes[k - 1], t.events[k - 1], t.envs[k - 1], chain);
    }
  }

  lemma {:induction false} EntryKept(t: Trace, i: nat, j: nat, e: SealEntry)
    requires t.Valid() && t.Sealed() && i <= j < |t.nodes| && e in t.nodes[i].log.seals
    requires forall k :: i <= k <= j ==> t.nodes[k].state.seqNum == t.nodes[i].state.seqNum
    ensures e in t.nodes[j].log.seals
    decreases j - i
  {
    if i < j {
      EntryKept(t, i, j - 1, e);
      assert t.StepsAt(j - 1);
      PastSealKept(t.nodes[j - 1], t.events[j - 1], t.envs[j - 1]);
    }
  }

  lemma {:induction false} FoundSealKept(t: Trace, i: nat, j: nat, s: nat)
    requires t.Valid() && t.Sealed() && i <= j < |t.nodes|
    requires forall k :: i <= k <= j ==> t.nodes[k].state.seqNum == s + 1
    ensures t.nodes[j].log.GetConsensusSeal(s) == t.nodes[i].log.GetConsensusSeal(s)
    decreases j - i
  {
    if i < j {
      FoundSealKept(t, i, j - 1, s);
      assert t.StepsAt(j - 1);
      PastSealKept(t.nodes[j - 1], t.events[j - 1], t.envs[j - 1]);
    }
  }

  lemma StoredAt(t: Trace, d: nat)
    requires t.Valid() && t.Sealed() && d < |t.events|
    requires t.events[d].UpdateBlockNew? && t.events[d].block.blockNum == t.nodes[d].state.seqNum >= 2
    requires VerifyConsensusSeal(t.nodes[d], t.events[d].block, t.envs[d]).Success?
    ensures t.events[d].block.payload.Sealed?
    ensures SealEntry(t.events[d].block.blockId, t.events[d].block.blockNum, t.events[d].block.payload.seal) in t.nodes[d + 1].log.seals
  {
    assert t.StepsAt(d) && WellSealed(t.events[d]);
    SealStoredOnDelivery(t.nodes[d], t.events[d].block, t.envs[d]);
  }

  lemma FoundAt(t: Trace, chain: BlockId -> Block, c: nat, e: SealEntry)
    requires t.Valid() && t.Sealed() && c < |t.events|
    requires forall k :: 0 <= k < |t.events| ==> Genuine(t.events[k], chain)
    requires e in t.nodes[c].log.seals && e.seqNum == t.nodes[c].state.seqNum < t.nodes[c + 1].state.seqNum
    requires e.blockId == CommittedBy(t.nodes[c], t.events[c])
    ensures t.nodes[c + 1].log.GetConsensusSeal(e.seqNum) == Success(e.seal)
  {
    assert t.StepsAt(c) && WellSealed(t.events[c]) && Genuine(t.events[c], chain);
    SealsGenuineOverRuns(t, c, chain);
    SealFoundAfterRound(t.nodes[c], t.events[c], t.envs[c], chain);
    assert e == SealEntry(e.blockId, e.seqNum, e.seal);
  }

  /** If a block was delivered at step `d` while the node was at its number, and committed at a
      later step `c` of the same round, then until the next commit the node finds exactly the
      seal carried by that block for its view changes. */
  lemma SealRetention(t: Trace, chain: BlockId -> Block, d: nat, c: nat, j: nat)
    requires t.Valid() && t.Sealed() && d < c < j < |t.nodes|
    requires forall k :: 0 <= k < |t.events| ==> Genuine(t.events[k], chain)
    requires t.events[d].UpdateBlockNew? && t.events[d].block.blockNum == t.nodes[d].state.seqNum >= 2
    requires VerifyConsensusSeal(t.nodes[d], t.events[d].block, t.envs[d]).Success?
    requires forall k :: d <= k <= c ==> t.nodes[k].state.seqNum == t.nodes[d].state.seqNum
    requires CommittedBy(t.nodes[c], t.events[c]) == t.events[d].block.blockId
    requires forall k :: c < k <= j ==> t.nodes[k].state.seqNum == t.nodes[d].state.seqNum + 1
    ensures t.events[d].block.payload.Sealed?
    ensures t.nodes[j].log.GetConsensusSeal(t.nodes[j].state.seqNum - 1) == Success(t.events[d].block.payload.seal)
  {
    StoredAt(t, d);
    var e := SealEntry(t.events[d].block.blockId, t.nodes[d].state.seqNum, t.events[d].block.payload.seal);
    EntryKept(t, d + 1, c, e);
    FoundAt(t, chain, c, e);
    FoundSealKept(t, c + 1, j, e.seqNum);
  }

  // ---------- The first round ----------

  /** Seals are stored, and view changes sent, only for sequence numbers from `first` on. */
  ghost predicate SealsSince(n: Node, first: nat) {
    && first <= n.state.seqNum
    && (forall e :: e in n.log.seals ==> e.seqNum >= first)
    && (forall w :: Broadcast(w) in n.calls && SelfMessage(w).Type() == ViewChange ==> SelfMessage(w).SeqNum() >= first)
  }

  lemma SealsSinceStep(n: Node, ev: Event, env: Env, first: nat)
    requires n.state.Sound() && env.Valid() && WellSealed(ev) && SealsSince(n, first)
    ensures SealsSince(Step(n, ev, env), first)
  {
    SealsSinceLog(n, ev, env, first);
    SeqNumOnlyGrows(n, ev, env);
    EffectOfStep(n, ev, env);
    SentSince(n, ev, Step(n, ev, env), first);
  }

  lemma SealsSinceLog(n: Node, ev: Event, env: Env, first: nat)
    requires n.state.Sound() && env.Valid() && WellSealed(ev) && SealsSince(n, first)
    ensures forall e :: e in Step(n, ev, env).log.seals ==> e.seqNum >= first
  {
    forall e | e in Step(n, ev, env).log.seals ensures e.seqNum >= first {
      SealsOfStep(n, ev, env, e);
    }
  }

  lemma SentSince(n: Node, ev: Event, n': Node, first: nat)
    requires StepEffect(n, ev, n') && SealsSince(n, first)
    ensures forall w :: Broadcast(w) in n'.calls && SelfMessage(w).Type() == ViewChange ==> SelfMessage(w).SeqNum() >= first
  {
    forall w | Broadcast(w) in n'.calls && SelfMessage(w).Type() == ViewChange
      ensures SelfMessage(w).SeqNum() >= first
    {
      if Broadcast(w) !in n.calls {
        assert MaySend(n, ev, w);
        var entries := n.log.SealsAt(w.seqNum);
        assert |entries| == 1;
        var e :| e in entries;
      }
    }
  }

  /** In the round it starts in, a node stores no seal it could put in a view change, so it never
      sends one, whatever happens. */
  lemma {:induction false} FirstRoundSendsNoViewChange(t: Trace, k: nat, w: Wrapper)
    requires t.Valid() && t.Sealed() && k < |t.nodes| && t.nodes[k].state.seqNum == t.nodes[0].state.seqNum
    ensures Broadcast(w) in t.nodes[k].calls ==> SelfMessage(w).Type() != ViewChange
  {
    SealsSinceOverRuns(t, k);
    InvariantOfRun(t, k);
    if Broadcast(w) in t.nodes[k].calls && SelfMessage(w).Type() == ViewChange {
      ViewChangesArePast(t.nodes[k], w);
      assert false;
    }
  }

  /** A view change names a past sequence number. */
  lemma ViewChangesArePast(n: Node, w: Wrapper)
    requires ViewChangesSettled(n) && Broadcast(w) in n.calls && SelfMessage(w).Type() == ViewChange
    ensures SelfMessage(w).SeqNum() < n.state.seqNum
  {
  }

  lemma {:induction false} SealsSinceOverRuns(t: Trace, k: nat)
    requires t.Valid() && t.Sealed() && k < |t.nodes|
    ensures SealsSince(t.nodes[k], t.nodes[0].state.seqNum)
  {
    if k == 0 {
      FreshNodeIs(t.nodes[0]);
    } else {
      SealsSinceOverRuns(t, k - 1);
      assert t.StepsAt(k - 1) && WellSealed(t.events[k - 1]);
      SealsSinceStep(t.nodes[k - 1], t.events[k - 1], t.envs[k - 1], t.nodes[0].state.seqNum);
    }
  }
}
