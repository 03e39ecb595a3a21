/** The account of a step carried over whole runs: the peers in use, the block taken up for the next
    round, the blocks announced, what is published, and the timer in terms of clock readings. */
module Course {
  import opened Types
  import opened Timing
  import opened State
  import opened MessageLog
  import opened Protocol
  import opened Ledger
  import opened Commits
  import opened Views
  import opened Retention
  import opened Runs
  import opened Lag
  import opened Causes
  import opened Account
  import opened Requests
  import opened Logs

  // ---------- One step of a run ----------

  ghost predicate EndsRoundAt(t: Trace, k: nat)
    requires t.Valid() && k < |t.events|
  {
    EndsRound(t.nodes[k], t.events[k], t.envs[k])
  }

  lemma StateAt(t: Trace, k: nat)
    requires t.Valid() && t.Sealed() && k < |t.events|
    ensures StateFollows(t.nodes[k], t.events[k], t.envs[k], t.nodes[k + 1])
  {
    InvariantOfRun(t, k);
    assert t.StepsAt(k) && WellSealed(t.events[k]);
    StateOfStep(t.nodes[k], t.events[k], t.envs[k]);
  }

  lemma LogAt(t: Trace, k: nat, m: ParsedMessage, e: SealEntry)
    requires t.Valid() && t.Sealed() && k < |t.events|
    ensures LogFollows(t.nodes[k], t.events[k], t.envs[k], t.nodes[k + 1], m, e)
  {
    InvariantOfRun(t, k);
    assert t.StepsAt(k) && WellSealed(t.events[k]);
    LogOfEveryStep(t.nodes[k], t.events[k], t.envs[k], m, e);
  }

  // ---------- Peers ----------

  /** The peer list on chain as of the block that step `k` commits for good. */
  ghost function ChainPeers(t: Trace, k: nat): seq<PeerId>
    requires t.Valid() && k < |t.events|
  {
    t.envs[k].peersAt(CommittedBy(t.nodes[k], t.events[k]))
  }

  /** The step looks at the peer list on chain: it ends a round, and no view change is forced. */
  ghost predicate ReadsPeers(t: Trace, k: nat)
    requires t.Valid() && k < |t.events|
  {
    EndsRoundAt(t, k) && !Forced(t.nodes[k])
  }

  lemma {:induction false} PeersBetween(t: Trace, i: nat, k: nat)
    requires t.Valid() && t.Sealed() && i <= k < |t.nodes| && forall j :: i <= j < k ==> !ReadsPeers(t, j)
    ensures t.nodes[k].state.peerIds == t.nodes[i].state.peerIds
    decreases k - i
  {
    if i < k {
      PeersBetween(t, i, k - 1);
      assert !ReadsPeers(t, k - 1);
      StateAt(t, k - 1);
    }
  }

  /** From a round that ends with no view change forced until the next such round, the peers are those
      that the chain had then: its own list if they were others than before, the old list if they
      were the same ones, and in the first case the view moved on by one with it. */
  lemma PeersOverRuns(t: Trace, i: nat, k: nat)
    requires t.Valid() && t.Sealed() && i < k < |t.nodes| && ReadsPeers(t, i) && forall j :: i < j < k ==> !ReadsPeers(t, j)
    ensures var n, n', chain := t.nodes[i].state, t.nodes[i + 1].state, ChainPeers(t, i);
            && SameMembers(t.nodes[k].state.peerIds, chain)
            && t.nodes[k].state.peerIds == (if SameMembers(chain, n.peerIds) then n.peerIds else chain)
            && t.nodes[k].state.f == (|t.nodes[k].state.peerIds| - 1) / 3
            && n'.view == LastView(t.nodes[i], t.events[i]) + if SameMembers(chain, n.peerIds) then 0 else 1
  {
    StateAt(t, i);
    PeersBetween(t, i + 1, k);
  }

  /** Until the first such round they are the ones that the node was set up with. */
  lemma FirstPeers(t: Trace, k: nat)
    requires t.Valid() && t.Sealed() && k < |t.nodes| && forall j :: 0 <= j < k ==> !ReadsPeers(t, j)
    ensures t.nodes[k].state.peerIds == t.nodes[0].state.peerIds
  {
    PeersBetween(t, 0, k);
  }

  // ---------- Blocks ----------

  /** Step `j` announces a block by this message. */
  ghost predicate AnnouncedAt(t: Trace, j: nat, m: ParsedMessage)
    requires t.Valid() && j < |t.events|
  {
    Announces(t.nodes[j], t.events[j], t.envs[j]) && m == Announcement(t.nodes[j], t.events[j].block)
  }

  lemma AnnouncementAt(t: Trace, k: nat, m: ParsedMessage)
    requires t.Valid() && t.Sealed() && k < |t.events| && m.Type() == BlockNew
    ensures m in t.nodes[k + 1].log.messages ==> m in t.nodes[k].log.messages || AnnouncedAt(t, k, m)
    ensures (m in t.nodes[k].log.messages || AnnouncedAt(t, k, m)) && t.nodes[k + 1].state.seqNum <= m.SeqNum() + 1 ==> m in t.nodes[k + 1].log.messages
  {
    LogAt(t, k, m, SealEntry(BlockId(""), 0, Seal(BlockId(""), "", [])));
    StateAt(t, k);
    assert WellSealed(t.events[k]);
    OnlyAnnouncements(t.nodes[k], t.events[k], t.envs[k], m);
  }

  /** In every run, an announcement is logged only if some step before announced its block: one that
      was not older than the round and, from block 2 on, carried a seal for its own parent and
      summary from at least 2f peers other than its signer. It is kept at least through the round
      after its own. */
  lemma {:induction false} AnnouncementsOverRuns(t: Trace, k: nat, m: ParsedMessage)
    requires t.Valid() && t.Sealed() && k < |t.nodes| && m.Type() == BlockNew
    ensures m in t.nodes[k].log.messages ==> exists j :: 0 <= j < k && AnnouncedAt(t, j, m)
    ensures (exists j :: 0 <= j < k && AnnouncedAt(t, j, m)) && t.nodes[k].state.seqNum <= m.SeqNum() + 1 ==> m in t.nodes[k].log.messages
  {
    if k == 0 {
      FreshNodeIs(t.nodes[0]);
    } else {
      AnnouncementsOverRuns(t, k - 1, m);
      AnnouncementAt(t, k - 1, m);
      StateAt(t, k - 1);
    }
  }

  /** In every run, the block a node works on was announced for the current round by a step before. */
  lemma WorkingBlockIsWelcome(t: Trace, k: nat)
    requires t.Valid() && t.Sealed() && k < |t.nodes| && t.nodes[k].state.workingBlock.Some?
    ensures var b := t.nodes[k].state.workingBlock.value;
            b.blockNum == t.nodes[k].state.seqNum
            && exists j, m :: 0 <= j < k && AnnouncedAt(t, j, m) && b == Described(t.events[j].block)
  {
    BookkeepingOverRuns(t, k);
    var b := t.nodes[k].state.workingBlock.value;
    var m :| m in t.nodes[k].log.messages && m.Type() == BlockNew && m.SeqNum() == t.nodes[k].state.seqNum && m.Block() == b;
    AnnouncementsOverRuns(t, k, m);
    var j :| 0 <= j < k && AnnouncedAt(t, j, m);
    assert b == Described(t.events[j].block);
  }

  /** The step leaves the working block alone: it ends no round, enters no view and takes no block. */
  ghost predicate LeavesBlock(t: Trace, k: nat)
    requires t.Valid() && k < |t.events|
  {
    !EndsRoundAt(t, k) && ViewEntered(t.nodes[k], t.events[k], t.envs[k]).None? && !TakesBlock(t.nodes[k], t.events[k], t.envs[k])
  }

  lemma {:induction false} BlockBetween(t: Trace, i: nat, k: nat)
    requires t.Valid() && t.Sealed() && i <= k < |t.nodes| && forall j :: i <= j < k ==> LeavesBlock(t, j)
    ensures t.nodes[k].state.workingBlock == t.nodes[i].state.workingBlock
    decreases k - i
  {
    if i < k {
      BlockBetween(t, i, k - 1);
      assert LeavesBlock(t, k - 1);
      StateAt(t, k - 1);
    }
  }

  /** From the end of a round, by votes or by catching up, until another block or view comes, there is a
      working block exactly if one is announced for the new number, and it is such a one. */
  lemma NextBlockOverRuns(t: Trace, i: nat, k: nat)
    requires t.Valid() && t.Sealed() && i < k < |t.nodes| && EndsRoundAt(t, i) && forall j :: i < j < k ==> LeavesBlock(t, j)
    ensures var w := t.nodes[k].state.workingBlock;
            && (w.Some? <==> exists b :: AnnouncedNext(t.nodes[i], t.events[i], b))
            && (w.Some? ==> AnnouncedNext(t.nodes[i], t.events[i], w.value))
  {
    StateAt(t, i);
    BlockBetween(t, i + 1, k);
  }

  // ---------- Publishing ----------

  /** In every run a node publishes exactly when it waits as primary, has a summary and, from block 2
      on, the votes for a seal; and it is then the primary of its view unless a catch-up left
      its role behind. */
  lemma PublishingOverRuns(t: Trace, k: nat)
    requires t.Valid() && t.Sealed() && k < |t.events|
    ensures var n, n', when := t.nodes[k], t.nodes[k + 1], Publishes(t.nodes[k], t.events[k]);
            && Finalizes(n, n', when) && (when ==> PayloadIs(n, t.events[k].summary.value, Made(n, n')[0].payload))
            && (when && (forall j :: 0 <= j < k ==> !LeavesRoleBehind(t.nodes[j], t.events[j], t.envs[j])) ==> LeadsView(n, n.state.view))
  {
    assert t.StepsAt(k) && WellSealed(t.events[k]);
    PublishedOfStep(t.nodes[k], t.events[k], t.envs[k]);
    if forall j :: 0 <= j < k ==> !LeavesRoleBehind(t.nodes[j], t.events[j], t.envs[j]) {
      RoleOverRuns(t, k);
    }
  }

  // ---------- The timer ----------

  /** Step `k` starts the timer anew. */
  ghost predicate Restarts(t: Trace, k: nat)
    requires t.Valid() && k < |t.events|
  {
    EndsRoundAt(t, k) || ViewEntered(t.nodes[k], t.events[k], t.envs[k]).Some?
  }

  ghost predicate StopsTimer(t: Trace, k: nat)
    requires t.Valid() && k < |t.events|
  {
    !Restarts(t, k) && TakesPrePrepare(t.nodes[k], t.events[k], t.envs[k])
  }

  /** The timer runs from `i` on: at the start, or after a step that starts it. */
  ghost predicate RunsFrom(t: Trace, i: nat)
    requires t.Valid() && i < |t.nodes|
  {
    i == 0 || Restarts(t, i - 1)
  }

  /** What the clock read then. */
  ghost function Reading(t: Trace, i: nat): int
    requires t.Valid() && i < |t.nodes|
  {
    if i == 0 then t.nodes[0].state.timeout.startedAt else t.envs[i - 1].now
  }

  ghost predicate Undisturbed(t: Trace, i: nat, k: nat)
    requires t.Valid() && i <= k < |t.nodes|
  {
    forall j :: i <= j < k ==> !Restarts(t, j) && !StopsTimer(t, j)
  }

  /** At step `j`, a working tick, the clock reads more than the duration past the start at `i`. */
  ghost predicate FoundOut(t: Trace, i: nat, j: nat)
    requires t.Valid() && i < |t.nodes| && j < |t.events|
  {
    t.events[j].TickWorking? && t.envs[j].now - Reading(t, i) > t.nodes[0].state.timeout.duration
  }

  lemma {:induction false} DurationKept(t: Trace, k: nat)
    requires t.Valid() && t.Sealed() && k < |t.nodes|
    ensures t.nodes[k].state.timeout.duration == t.nodes[0].state.timeout.duration
  {
    if k > 0 {
      DurationKept(t, k - 1);
      StateAt(t, k - 1);
    }
  }

  lemma TimerFrom(t: Trace, i: nat)
    requires t.Valid() && t.Sealed() && i < |t.nodes| && RunsFrom(t, i)
    ensures t.nodes[i].state.timeout == TimeoutValue(Active, t.nodes[0].state.timeout.duration, Reading(t, i))
  {
    if i > 0 {
      DurationKept(t, i - 1);
      StateAt(t, i - 1);
    }
  }

  /** Once started and not disturbed, the timer is out exactly if some working tick since then found it
      past its duration by the clock. */
  lemma {:induction false} TimerOverRuns(t: Trace, i: nat, k: nat)
    requires t.Valid() && t.Sealed() && i <= k < |t.nodes| && RunsFrom(t, i) && Undisturbed(t, i, k)
    ensures t.nodes[k].state.timeout
            == TimeoutValue(if exists j :: i <= j < k && FoundOut(t, i, j) then Expired else Active, t.nodes[0].state.timeout.duration, Reading(t, i))
    decreases k - i
  {
    if i == k {
      TimerFrom(t, i);
    } else {
      TimerOverRuns(t, i, k - 1);
      StateAt(t, k - 1);
      assert !Restarts(t, k - 1) && !StopsTimer(t, k - 1);
      assert FoundOut(t, i, k - 1) ==> exists j :: i <= j < k && FoundOut(t, i, j);
    }
  }

  /** A working tick is cause to change views exactly if it, or one before it since the timer was
      started, found the timer past its duration; the node is then changing views, or has
      completed a view change. */
  lemma TimeoutOverRuns(t: Trace, i: nat, k: nat)
    requires t.Valid() && t.Sealed() && i <= k < |t.events| && RunsFrom(t, i) && Undisturbed(t, i, k) && t.events[k].TickWorking?
    ensures HasCause(t.nodes[k], t.events[k], t.envs[k]) <==> exists j :: i <= j <= k && FoundOut(t, i, j)
    ensures HasCause(t.nodes[k], t.events[k], t.envs[k]) ==> t.nodes[k + 1].state.mode == ViewChanging || Restarts(t, k)
  {
    TimerOverRuns(t, i, k);
    StateAt(t, k);
    assert FoundOut(t, i, k) ==> exists j :: i <= j <= k && FoundOut(t, i, j);
  }

  // ---------- The first round ----------

  /** The engine starts after the head of the chain, in view 0 and Normal mode, with the peers it was
      given, as primary exactly if it is the first of them; only then does it begin a block. The
      first block that it ever commits is the one after the head. */
  lemma FirstRoundFollowsHead(t: Trace, k: nat, id: PeerId, head: nat, peers: seq<PeerId>, timeout: int, period: nat, size: nat, now: int)
    requires t.Valid() && t.Sealed() && t.Checked() && k < |t.nodes| && |peers| >= 4 && period > 0
    requires t.nodes[0] == InitialNode(id, head, peers, timeout, period, size, now)
    ensures var s := t.nodes[0].state;
            && s.seqNum == head + 1 && s.view == 0 && s.mode == Normal && s.peerIds == peers && s.f == (|peers| - 1) / 3 && s.forcedViewChangePeriod == period
            && (s.role == Primary <==> id == peers[0]) && s.timeout == TimeoutValue(Active, timeout, now)
            && t.nodes[0].calls == (if id == peers[0] then [InitializeBlock(None)] else [])
    ensures var cs := CommitCalls(t.nodes[k].calls);
            (forall c :: c in cs ==> c.CommitBlock?) && Chained(cs, head + 1, t.nodes[k].state.seqNum)
  {
    CommitsChainOverRuns(t, k);
  }
}
