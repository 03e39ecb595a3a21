/** Views and roles: how each step may move the view, on whose word, and when the role still
    fits the view afterwards. */
module Views {
  import opened Types
  import opened State
  import opened MessageLog
  import opened Protocol
  import opened Ledger
  import opened Ladder
  import opened Commits

  /** 2f + 1 view changes for this view, at one sequence number, are logged. */
  ghost predicate ViewCertified(n: Node, v: nat) {
    exists s :: |OfTypeSeqView(n.log.messages, ViewChange, s, v)| >= 2 * n.state.f + 1
  }

  /** A node already changing views completes a view change to a lower view. */
  ghost predicate FallsBack(n: Node, ev: Event) {
    var m := MessageOf(n, ev);
    && n.state.mode == ViewChanging
    && m.Some? && m.value.Type() == ViewChange
    && m.value.View() < n.state.view
    && |OfTypeSeqView(n.log.messages + {m.value}, ViewChange, m.value.SeqNum(), m.value.View())| >= 2 * n.state.f + 1
  }

  ghost predicate KeepsRole(n: Node, n': Node) {
    n'.state.role == n.state.role && n'.state.id == n.state.id && n'.state.peerIds == n.state.peerIds
  }

  lemma ViewOfHandler(n: Node, m: ParsedMessage, env: Env)
    requires n.state.Sound()
    ensures var n' := ViewChangeHandler(n, m, env);
            if |OfTypeSeqView(n.log.messages, ViewChange, m.SeqNum(), m.View())| >= 2 * n.state.f + 1 then
              n'.state.view == m.View() && ViewCertified(n', m.View()) && n'.state.mode == Normal && n'.state.RoleMatches()
            else n' == n
    ensures ViewChangeHandler(n, m, env).log == n.log && ViewChangeHandler(n, m, env).state.f == n.state.f
  {
  }

  lemma ViewOfPropose(n: Node, env: Env)
    requires n.state.Sound()
    ensures var n' := ProposeViewChange(n, env).node;
            && n'.state.f == n.state.f
            && n.log.messages <= n'.log.messages
            && (|| (n'.state.view == n.state.view && KeepsRole(n, n'))
                || (n.state.mode == Normal && n'.state.view == n.state.view + 1 && ViewCertified(n', n'.state.view) && n'.state.RoleMatches()))
  {
    if n.state.mode == Normal && n.log.GetConsensusSeal(n.state.seqNum - 1).Success? {
      var seal := n.log.GetConsensusSeal(n.state.seqNum - 1).value;
      ViewOfHandler(WithOwnViewChange(n, seal), SelfMessage(OwnViewChange(n, seal)), env);
    }
  }

  /** The view after a step is the one before, or was put there by 2f + 1 view changes, and
      then the role is the one the view gives. */
  ghost predicate MovesOnCertificate(n: Node, n': Node)
    requires n'.state.Sound()
  {
    || (n'.state.view == n.state.view && KeepsRole(n, n'))
    || (ViewCertified(n', n'.state.view) && n'.state.RoleMatches())
  }

  lemma ViewOnViewChange(n: Node, m: ParsedMessage, env: Env)
    requires n.state.Sound() && m.Type() == ViewChange
    ensures var n' := OnViewChange(n, m, env).node;
            && MovesOnCertificate(n, n')
            && (n'.state.view < n.state.view <==>
                  && n.state.mode == ViewChanging
                  && m.View() < n.state.view
                  && |OfTypeSeqView(n.log.messages + {m}, ViewChange, m.SeqNum(), m.View())| >= 2 * n.state.f + 1)
  {
    var n1 := n.(log := n.log.AddMessage(m, n.state.view));
    assert n1.log.messages == n.log.messages + {m};
    ViewOfPropose(n1, env);
    var n2 := if n.state.mode == ViewChanging then n1 else ProposeViewChange(n1, env).node;
    ViewOfHandler(n2, m, env);
  }

  lemma ViewOnPeerMessage(n: Node, m: ParsedMessage, env: Env)
    requires n.state.Sound() && env.Valid()
    ensures var n' := OnPeerMessage(n, m, env).node;
            && MovesOnCertificate(n, n')
            && (n'.state.view < n.state.view <==>
                  && n.state.mode == ViewChanging
                  && m.Type() == ViewChange && m.View() < n.state.view
                  && |OfTypeSeqView(n.log.messages + {m}, ViewChange, m.SeqNum(), m.View())| >= 2 * n.state.f + 1)
  {
    if m.Type() == ViewChange {
      ViewOnViewChange(n, m, env);
    } else {
      ViewKeptByVotes(n, m, env);
    }
  }

  // ---------- Rotation ----------

  /** The next sequence number forces a view change, or the peer list on chain is another set. */
  ghost predicate RotationDue(n: Node, id: BlockId, env: Env)
    requires n.state.Sound()
  {
    (n.state.seqNum + 1) % n.state.forcedViewChangePeriod == 0 || MembershipChanged(n.state, env.peersAt(id))
  }

  /** After a block the view is `v`, or one past it with the role set anew if rotation is due. */
  ghost predicate Rotated(n: Node, id: BlockId, env: Env, v: nat, n': Node)
    requires n.state.Sound() && n'.state.Sound()
  {
    if RotationDue(n, id, env) then n'.state.view == v + 1 && n'.state.RoleMatches()
    else n'.state.view == v && KeepsRole(n, n')
  }

  lemma ViewOnBlockCommit(n: Node, id: BlockId, env: Env)
    requires n.state.Sound() && env.Valid()
    ensures var n' := OnBlockCommit(n, id, env);
            if n.state.phase == Finished && IsWorkingBlock(n, id) then Rotated(n, id, env, n.state.view, n') else n' == n
  {
  }

  /** The view that catching up with this block leaves, before any rotation. */
  function SealView(n: Node, seal: Seal): nat
    requires |seal.votes| > 0
  {
    Max(n.state.view, seal.votes[0].message.view)
  }

  ghost predicate CatchesUpOn(n: Node, block: Block, env: Env)
    requires n.state.Sound()
  {
    && block.blockNum == n.state.seqNum + 1
    && n.state.phase != Finished
    && VerifyConsensusSeal(n, block, env).Success?
    && block.payload.Sealed?
    && SealFits(n, block, block.payload.seal)
  }

  /** A catch-up that raises the view past the node's turn or onto it, with no rotation due:
      the view moves, the role stays. */
  ghost predicate LeavesRoleBehind(n: Node, ev: Event, env: Env)
    requires n.state.Sound()
  {
    && ev.UpdateBlockNew?
    && CatchesUpOn(n, ev.block, env)
    && !RotationDue(n, n.state.workingBlock.value.blockId, env)
    && (n.state.id == n.state.PrimaryAt(n.state.view)) != (n.state.id == n.state.PrimaryAt(SealView(n, ev.block.payload.seal)))
  }

  /** The node whose catch-up has got as far as the commit. */
  ghost function AtCatchupCommit(n: Node, seal: Seal): Node
    requires |seal.votes| > 0
  {
    var view := SealView(n, seal);
    var n1 := n.(state := n.state.(view := view, phase := Committing), log := AddMessages(n.log, SealMessages(seal), view));
    CommitNow(n1, seal.votes[0].message.block.blockId)
  }

  /** With Commit votes of one view, catch-up either goes all the way or changes nothing. */
  lemma CatchupAllOrNothing(n: Node, block: Block, seal: Seal, env: Env)
    requires n.state.Sound() && env.Valid() && |seal.votes| > 0
    requires block.payload == Sealed(seal) && SealOfCommits(block)
    requires seal.votes[0].message.block.blockId == block.previousId
    ensures Catchup(n, block, seal, env).node ==
            if SealFits(n, block, seal) then OnBlockCommit(AtCatchupCommit(n, seal), seal.votes[0].message.block.blockId, env) else n
  {
    var ms := SealMessages(seal);
    var view := SealView(n, seal);
    forall m | m in ms ensures m.Type() == Commit && m.View() == ms[0].View() {
      SealMessagesAre(block, seal, m);
    }
    AddMessagesOfOneView(n.log, ms, view, ms[0].View());
    SealMessagesFit(seal, view);
  }

  lemma ViewOfCatchup(n: Node, block: Block, seal: Seal, env: Env)
    requires n.state.Sound() && env.Valid() && |seal.votes| > 0
    requires block.payload == Sealed(seal) && SealOfCommits(block)
    requires seal.votes[0].message.block.blockId == block.previousId
    ensures var n' := Catchup(n, block, seal, env).node;
            if SealFits(n, block, seal) then Rotated(n, n.state.workingBlock.value.blockId, env, SealView(n, seal), n') else n' == n
  {
    CatchupAllOrNothing(n, block, seal, env);
    if SealFits(n, block, seal) {
      ViewOnBlockCommit(AtCatchupCommit(n, seal), block.previousId, env);
    }
  }

  lemma ViewKeptByVotes(n: Node, m: ParsedMessage, env: Env)
    requires n.state.Sound() && env.Valid()
    ensures m.Type() == PrePrepare ==> KeepsView(n, OnPrePrepare(n, m, env).node)
    ensures m.Type() == Prepare ==> KeepsView(n, OnPrepare(n, m, env).node)
    ensures m.Type() == Commit ==> KeepsView(n, OnCommit(n, m, env).node)
  {
    if m.Type() == PrePrepare {
      var n1 := WithPrePrepare(n, m, env.now);
      var w := OwnMessage(n1, Prepare, m.SeqNum(), m.Block());
      ViewKeptByPrepare(n1.Call(Broadcast(w)), SelfMessage(w), env);
    } else if m.Type() == Prepare {
      ViewKeptByPrepare(n, m, env);
    }
  }

  lemma ViewKeptByPrepare(n: Node, m: ParsedMessage, env: Env)
    requires n.state.Sound() && env.Valid() && m.Type() == Prepare
    ensures KeepsView(n, OnPrepare(n, m, env).node)
  {
  }

  ghost predicate KeepsView(n: Node, n': Node) {
    n'.state.view == n.state.view && KeepsRole(n, n')
  }

  lemma ViewKeptByAdoption(n: Node, block: Block, env: Env)
    requires n.state.Sound() && env.Valid()
    ensures KeepsView(n, AdoptBlock(n, block, env).node)
  {
    var n1 := n.(state := n.state.(workingBlock := Some(PbftBlockFromBlock(block))));
    var w := OwnMessage(n1, PrePrepare, n.state.seqNum, PbftBlockFromBlock(block));
    ViewKeptByVotes(n1.Call(Broadcast(w)), SelfMessage(w), env);
  }

  lemma ViewKeptByValidBlock(n: Node, id: BlockId, env: Env)
    requires n.state.Sound() && env.Valid()
    ensures KeepsView(n, OnBlockValid(n, id, env).node)
  {
    ValidBlockSends(n, id, env);
    if n.state.workingBlock.Some? {
      ViewKeptByVotes(WithOwnCommit(n), SelfMessage(OwnMessage(n, Commit, n.state.seqNum, n.state.workingBlock.value)), env);
    }
  }

  lemma ViewOnWorkingTick(n: Node, summary: Option<string>, env: Env)
    requires n.state.Sound() && env.Valid()
    ensures MovesOnCertificate(n, WorkingTick(n, summary, env)) && WorkingTick(n, summary, env).state.view >= n.state.view
  {
    var n1 := TryPublish(n, summary, env).node;
    ViewOfPropose(n1.(state := n1.state.(timeout := n1.state.timeout.Checked(env.now))), env);
  }

  lemma ViewOfLateBlock(n: Node, block: Block, env: Env)
    requires n.state.Sound() && env.Valid() && SealOfCommits(block) && VerifyConsensusSeal(n, block, env).Success?
    requires block.blockNum == n.state.seqNum + 1 && n.state.phase != Finished
    ensures var n' := OnBlockNew(n, block, env).node;
            && n'.state.view >= n.state.view
            && if CatchesUpOn(n, block, env) then Rotated(n, n.state.workingBlock.value.blockId, env, SealView(n, block.payload.seal), n')
               else KeepsView(n, n')
  {
    VerifiedSealHasVotes(n, block, env);
    var seal := block.payload.seal;
    assert seal.votes[0] in seal.votes;
    var a := LogBlock(n, block, Some(seal));
    ViewOfCatchup(a, block, seal, env);
    assert OnBlockNew(n, block, env).node == Catchup(a, block, seal, env).node;
    assert SealFits(a, block, seal) <==> CatchesUpOn(n, block, env);
  }

  lemma ViewOnBlockNew(n: Node, block: Block, env: Env)
    requires n.state.Sound() && env.Valid() && SealOfCommits(block)
    ensures var n' := OnBlockNew(n, block, env).node;
            && n'.state.view >= n.state.view
            && if CatchesUpOn(n, block, env) then Rotated(n, n.state.workingBlock.value.blockId, env, SealView(n, block.payload.seal), n')
               else MovesOnCertificate(n, n')
  {
    if block.blockNum >= n.state.seqNum {
      match VerifyConsensusSeal(n, block, env)
      case Failure(e) => ViewOfPropose(n.Call(FailBlock(block.blockId)), env);
      case Success(found) =>
        if block.blockNum == n.state.seqNum + 1 && n.state.phase != Finished {
          ViewOfLateBlock(n, block, env);
        } else if block.blockNum == n.state.seqNum {
          ViewKeptByAdoption(LogBlock(n, block, found), block, env);
        }
    }
  }

  // ---------- Every step ----------

  lemma ViewOfStep(n: Node, ev: Event, env: Env)
    requires n.state.Sound() && env.Valid() && WellSealed(ev)
    ensures var n' := Step(n, ev, env);
            && (n'.state.view < n.state.view <==> FallsBack(n, ev))
            && if ev.UpdateBlockCommit? && n.state.phase == Finished && IsWorkingBlock(n, ev.committedId) then
                 Rotated(n, ev.committedId, env, n.state.view, n')
               else if ev.UpdateBlockNew? && CatchesUpOn(n, ev.block, env) then
                 Rotated(n, n.state.workingBlock.value.blockId, env, SealView(n, ev.block.payload.seal), n')
               else MovesOnCertificate(n, n')
  {
    match ev
    case UpdateBlockNew(block) => ViewOnBlockNew(n, block, env);
    case UpdateBlockValid(id) => ViewKeptByValidBlock(n, id, env);
    case UpdateBlockInvalid(id) => ViewOfPropose(n, env);
    case UpdateBlockCommit(id) => ViewOnBlockCommit(n, id, env);
    case UpdatePeerMessage(header, message, sender) => ViewOnPeerMessage(n, ParsedMessage(header, message, false), env);
    case UpdateOther =>
    case TickWorking(summary) => ViewOnWorkingTick(n, summary, env);
    case TickBacklog =>
      if n.log.backlog != [] {
        ViewOnPeerMessage(n.(log := n.log.(backlog := n.log.backlog[1..])), n.log.backlog[0], env);
      }
  }

  /** No step lowers the view, except the completion of a view change to a lower view by a node
      that was already changing views; and a view that changed was certified by 2f + 1 view
      changes, is one past the old one after a block, or comes from a verified seal. */
  lemma ViewMovement(n: Node, ev: Event, env: Env)
    requires n.state.Sound() && env.Valid() && WellSealed(ev)
    ensures var n' := Step(n, ev, env);
            && (n'.state.view < n.state.view <==> FallsBack(n, ev))
            && (n'.state.view != n.state.view ==>
                  || ViewCertified(n', n'.state.view)
                  || (ev.UpdateBlockCommit? && n'.state.view == n.state.view + 1 && n.state.phase == Finished && RotationDue(n, ev.committedId, env))
                  || (ev.UpdateBlockNew? && CatchesUpOn(n, ev.block, env) && n'.state.view in {SealView(n, ev.block.payload.seal), SealView(n, ev.block.payload.seal) + 1}))
  {
    ViewOfStep(n, ev, env);
  }

  /** The role fits the view after a step exactly when the step is not a catch-up that left it
      behind. */
  lemma RoleOfStep(n: Node, ev: Event, env: Env)
    requires n.state.Sound() && env.Valid() && WellSealed(ev) && n.state.RoleMatches()
    ensures Step(n, ev, env).state.RoleMatches() <==> !LeavesRoleBehind(n, ev, env)
  {
    ViewOfStep(n, ev, env);
  }

  /** Whatever the role was before, a step that changes the view sets it, unless the step is a
      catch-up with no rotation due. */
  lemma RoleRestored(n: Node, ev: Event, env: Env)
    requires n.state.Sound() && env.Valid() && WellSealed(ev)
    requires Step(n, ev, env).state.view != n.state.view
    requires ev.UpdateBlockNew? && CatchesUpOn(n, ev.block, env) ==> RotationDue(n, n.state.workingBlock.value.blockId, env)
    ensures Step(n, ev, env).state.RoleMatches()
  {
    ViewOfStep(n, ev, env);
  }

  // ---------- What the mode and the peer list do not decide ----------

  ghost function InMode(n: Node, mode: Mode): Node {
    n.(state := n.state.(mode := mode))
  }

  /** A node that is changing views handles PrePrepares, Prepares and Commits like any other: the
      mode decides nothing about them. */
  lemma VotesIgnoreTheMode(n: Node, m: ParsedMessage, env: Env, mode: Mode)
    requires n.state.Sound() && env.Valid() && m.Type() != ViewChange
    ensures var r := OnPeerMessage(n, m, env); OnPeerMessage(InMode(n, mode), m, env) == Reply(InMode(r.node, mode), r.result)
  {
    if m.Type() == PrePrepare {
      assert PrePrepareProblem(InMode(n, mode), m, env) == PrePrepareProblem(n, m, env);
      assert WithPrePrepare(InMode(n, mode), m, env.now) == InMode(WithPrePrepare(n, m, env.now), mode);
    }
  }

  /** Four peers, the first of them not in this list. */
  lemma OtherPeers(peers: seq<PeerId>) returns (others: seq<PeerId>)
    ensures |others| == 4 && others[0] !in peers
  {
    var p := FreshPeer(peers);
    others := [p, p, p, p];
  }

  lemma {:induction false} FreshPeer(peers: seq<PeerId>) returns (p: PeerId)
    ensures p !in peers && forall q :: q in peers ==> |q.key| < |p.key|
  {
    if peers == [] {
      p := PeerId("x");
    } else {
      var q := FreshPeer(peers[1..]);
      p := PeerId(q.key + peers[0].key + "x");
    }
  }

  /** The peer list on chain is not looked at exactly if the next number forces a view change: only
      then does the list in use stay the same after a commit whatever the chain says. */
  lemma ForcedRotationIgnoresPeers(n: Node, id: BlockId, env: Env)
    requires n.state.Sound() && env.Valid() && n.state.phase == Finished && IsWorkingBlock(n, id)
    ensures (forall peersAt: BlockId -> seq<PeerId> :: env.(peersAt := peersAt).Valid() ==>
               OnBlockCommit(n, id, env.(peersAt := peersAt)).state.peerIds == n.state.peerIds)
            <==> (n.state.seqNum + 1) % n.state.forcedViewChangePeriod == 0
  {
    if (n.state.seqNum + 1) % n.state.forcedViewChangePeriod != 0 {
      var others := OtherPeers(n.state.peerIds);
      var peersAt := (b: BlockId) => others;
      var now, before := set p | p in others, set p | p in n.state.peerIds;
      assert others[0] in now && others[0] !in before;
      assert env.(peersAt := peersAt).Valid();
      assert OnBlockCommit(n, id, env.(peersAt := peersAt)).state.peerIds == others;
    }
  }
}
