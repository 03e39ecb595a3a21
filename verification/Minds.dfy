/** What stands between a node that prepares a block and another block at the same number: the view.
    A node that has prepared a block prepares another one as soon as a later view offers it, and
    this is the only way to a fork. */
module Minds {
  import opened Types
  import opened State
  import opened Protocol
  import opened Ledger
  import opened Provenance
  import opened Lag
  import opened Runs
  import opened Network
  import opened Agreement

  // ---------- Which Prepares a step sends ----------

  /** The phase lets a PrePrepare for this number be answered. */
  ghost predicate MayAnswer(n: Node, s: nat) {
    n.state.phase in {Preparing, Checking} || (n.state.phase == PrePreparing && s == n.state.seqNum)
  }

  /** The step answers a PrePrepare for this block, delivered or the node's own. */
  ghost predicate AnswersWith(n: Node, ev: Event, env: Env, s: nat, b: PbftBlock)
    requires n.state.Sound() && env.Valid()
  {
    var m := MessageOf(n, ev);
    || (m.Some? && Acceptable(n, m.value) && m.value.SeqNum() == s && m.value.Block() == b && MayAnswer(n, s))
    || (ev.UpdateBlockNew? && TakesOwn(n, ev.block, env) && s == n.state.seqNum && b == PbftBlockFromBlock(ev.block))
  }

  lemma PreparesOnPrePrepare(n: Node, m: ParsedMessage, env: Env, v: nat, s: nat, b: PbftBlock)
    requires n.state.Sound() && env.Valid() && PrePreparesAgree(n.log.messages) && m.Type() == PrePrepare
    ensures SentIn(OnPrePrepare(n, m, env).node.calls, n.state.id, Prepare, v, s, b)
            <==> Sent(n, Prepare, v, s, b) || (Acceptable(n, m) && MayAnswer(n, m.SeqNum()) && v == n.state.view && s == m.SeqNum() && b == m.Block())
  {
    AcceptedExactlyIfAcceptable(n, m, env);
  }

  lemma PreparesOnOwn(n: Node, block: Block, env: Env, v: nat, s: nat, b: PbftBlock)
    requires n.state.Sound() && env.Valid() && PrePreparesAgree(n.log.messages) && TakesOwn(n, block, env)
    ensures SentIn(OnBlockNew(n, block, env).node.calls, n.state.id, Prepare, v, s, b)
            <==> Sent(n, Prepare, v, s, b) || (v == n.state.view && s == n.state.seqNum && b == PbftBlockFromBlock(block))
  {
    var a := LogBlock(n, block, VerifyConsensusSeal(n, block, env).value);
    var pbftBlock := PbftBlockFromBlock(block);
    var w := OwnMessage(n, PrePrepare, n.state.seqNum, pbftBlock);
    var n1 := a.(state := a.state.(workingBlock := Some(pbftBlock))).Call(Broadcast(w));
    assert SamePrePrepares(n, n1) && BlockNewMessage(n, block) in n1.log.messages;
    PreparesOnPrePrepare(n1, SelfMessage(w), env, v, s, b);
  }

  lemma PreparesOnMessage(n: Node, ev: Event, env: Env, v: nat, s: nat, b: PbftBlock)
    requires n.state.Sound() && env.Valid() && PrePreparesAgree(n.log.messages) && MessageOf(n, ev).Some? && MessageOf(n, ev).value.Type() == PrePrepare
    ensures SentIn(Step(n, ev, env).calls, n.state.id, Prepare, v, s, b)
            <==> Sent(n, Prepare, v, s, b) || (v == n.state.view && AnswersWith(n, ev, env, s, b))
  {
    var m := MessageOf(n, ev).value;
    var n1 := if ev.TickBacklog? then n.(log := n.log.(backlog := n.log.backlog[1..])) else n;
    PreparesOnPrePrepare(n1, m, env, v, s, b);
    QueueDecidesNothing(n, n1, m);
    assert Step(n, ev, env) == OnPeerMessage(n1, m, env).node;
  }

  /** A step sends exactly the Prepares sent before and, in the current view, the one that answers
      a PrePrepare. */
  lemma PreparesOfStep(n: Node, ev: Event, env: Env, v: nat, s: nat, b: PbftBlock)
    requires n.state.Sound() && env.Valid() && WellSealed(ev) && PrePreparesAgree(n.log.messages)
    ensures Sent(Step(n, ev, env), Prepare, v, s, b) <==> Sent(n, Prepare, v, s, b) || (v == n.state.view && AnswersWith(n, ev, env, s, b))
  {
    EffectOfStep(n, ev, env);
    if MessageOf(n, ev).Some? && MessageOf(n, ev).value.Type() == PrePrepare {
      PreparesOnMessage(n, ev, env, v, s, b);
    } else if ev.UpdateBlockNew? && TakesOwn(n, ev.block, env) {
      PreparesOnOwn(n, ev.block, env, v, s, b);
    } else {
      OthersSendNone(n, ev, env, v, s, b);
    }
  }

  lemma OthersSendNone(n: Node, ev: Event, env: Env, v: nat, s: nat, b: PbftBlock)
    requires n.state.Sound() && env.Valid() && WellSealed(ev) && PrePreparesAgree(n.log.messages)
    requires !(MessageOf(n, ev).Some? && MessageOf(n, ev).value.Type() == PrePrepare) && !(ev.UpdateBlockNew? && TakesOwn(n, ev.block, env))
    ensures Sent(Step(n, ev, env), Prepare, v, s, b) ==> Sent(n, Prepare, v, s, b)
  {
    EffectOfStep(n, ev, env);
    var p := PbftMessage(Prepare, v, s, n.state.id, b);
    if Sent(Step(n, ev, env), Prepare, v, s, b) && !Sent(n, Prepare, v, s, b) {
      assert MaySend(n, ev, Message(p));
      OnlyOwn(n, ev, p);
      RefusedOwnIsMute(n, ev.block, env, Broadcast(Message(p)));
    }
  }

  lemma OnlyOwn(n: Node, ev: Event, p: PbftMessage)
    requires MaySend(n, ev, Message(p)) && p.msgType == Prepare && !(MessageOf(n, ev).Some? && MessageOf(n, ev).value.Type() == PrePrepare)
    ensures ev.UpdateBlockNew? && ev.block.blockNum == n.state.seqNum && n.state.IsPrimary() && n.state.phase == PrePreparing
  {
  }

  // ---------- Changes of mind ----------

  /** The step answers a PrePrepare for another block than one that the node has prepared at this number. */
  ghost predicate ChangesMind(n: Node, ev: Event, env: Env, s: nat)
    requires n.state.Sound() && env.Valid()
  {
    exists v, b, a :: Sent(n, Prepare, v, s, b) && AnswersWith(n, ev, env, s, a) && a != b
  }

  /** A node of one mind at a number stays so exactly if the step is not such an answer. */
  lemma OneMindOfStep(n: Node, ev: Event, env: Env, s: nat)
    requires n.state.Sound() && env.Valid() && WellSealed(ev) && PrePreparesAgree(n.log.messages) && OneMind(n, s)
    ensures OneMind(Step(n, ev, env), s) <==> !ChangesMind(n, ev, env, s)
  {
    var n' := Step(n, ev, env);
    if ChangesMind(n, ev, env, s) {
      var v, b, a :| Sent(n, Prepare, v, s, b) && AnswersWith(n, ev, env, s, a) && a != b;
      PreparesOfStep(n, ev, env, v, s, b);
      PreparesOfStep(n, ev, env, n.state.view, s, a);
    } else {
      forall v, u, b, a | Sent(n', Prepare, v, s, b) && Sent(n', Prepare, u, s, a) ensures b == a {
        PreparesOfStep(n, ev, env, v, s, b);
        PreparesOfStep(n, ev, env, u, s, a);
        OneAnswer(n, ev, env, s, b, a);
      }
    }
  }

  lemma OneAnswer(n: Node, ev: Event, env: Env, s: nat, b: PbftBlock, a: PbftBlock)
    requires n.state.Sound() && env.Valid()
    ensures AnswersWith(n, ev, env, s, b) && AnswersWith(n, ev, env, s, a) ==> b == a
  {
  }

  /** Only a change of view makes it possible: within a view no other block can be answered. */
  lemma ChangeCrossesViews(n: Node, ev: Event, env: Env, v: nat, s: nat, b: PbftBlock, a: PbftBlock)
    requires n.state.Sound() && env.Valid() && LedgerInv(n) && Sent(n, Prepare, v, s, b) && AnswersWith(n, ev, env, s, a) && a != b
    ensures v != n.state.view
  {
    assert forall k :: k in n.log.messages && k.At(PrePrepare, s, n.state.view) ==> k.Block() == a;
  }

  // ---------- Every run of a cluster ----------

  /** In the move after state `k` a correct node changes its mind at this number. */
  ghost predicate ChangesMindAt(h: History, k: nat, sn: nat) {
    && k < |h.moves| && k < |h.states| && h.moves[k].NodeMove? && h.moves[k].p in h.states[k].nodes
    && h.states[k].nodes[h.moves[k].p].state.Sound() && h.moves[k].env.Valid()
    && ChangesMind(h.states[k].nodes[h.moves[k].p], h.moves[k].ev, h.moves[k].env, sn)
  }

  ghost predicate AllOfOneMind(s: System, sn: nat) {
    forall p :: p in s.nodes ==> OneMind(s.nodes[p], sn)
  }

  lemma MindsOfMove(c: Cluster, h: History, k: nat, sn: nat)
    requires h.Valid(c) && k < |h.moves| && AllOfOneMind(h.states[k], sn)
    ensures AllOfOneMind(h.states[k + 1], sn) <==> !ChangesMindAt(h, k, sn)
  {
    assert h.MovesAt(c, k);
    InvariantOfHistory(c, h, k);
    match h.moves[k]
    case FaultyMove =>
    case NodeMove(p, ev, env) =>
      assert NodeOk(c, h.states[k], p);
      OneMindOfStep(h.states[k].nodes[p], ev, env, sn);
      assert h.states[k + 1].nodes[p] == Step(h.states[k].nodes[p], ev, env);
  }

  /** In every run all correct nodes have prepared one block at most at a number exactly if none has
      changed its mind there. */
  lemma {:induction false} MindsOverHistory(c: Cluster, h: History, k: nat, sn: nat)
    requires h.Valid(c) && k < |h.states|
    ensures AllOfOneMind(h.states[k], sn) <==> forall j :: 0 <= j < k ==> !ChangesMindAt(h, j, sn)
  {
    if k == 0 {
      forall p | p in h.states[0].nodes ensures OneMind(h.states[0].nodes[p], sn) {
        FreshNodeIs(h.states[0].nodes[p]);
      }
    } else {
      MindsOverHistory(c, h, k - 1, sn);
      if AllOfOneMind(h.states[k - 1], sn) {
        MindsOfMove(c, h, k - 1, sn);
      } else {
        NextGrows(c, h, k - 1);
        MindsStayApart(h.states[k - 1], h.states[k], sn);
      }
    }
  }

  lemma MindsStayApart(s: System, s': System, sn: nat)
    requires Grows(s, s') && !AllOfOneMind(s, sn)
    ensures !AllOfOneMind(s', sn)
  {
    var p :| p in s.nodes && !OneMind(s.nodes[p], sn);
    var v, u, b, a :| Sent(s.nodes[p], Prepare, v, sn, b) && Sent(s.nodes[p], Prepare, u, sn, a) && b != a;
    assert Sent(s'.nodes[p], Prepare, v, sn, b) && Sent(s'.nodes[p], Prepare, u, sn, a);
  }

  /** The promise that committed blocks are final, as far as it holds: in no run do correct nodes
      commit different blocks at one number, in whatever views, by votes or by catching up, unless
      a correct node has before answered a PrePrepare for another block than the one it had
      prepared there. */
  lemma ForkNeedsChangeOfMind(c: Cluster, h: History, i: nat, p: PeerId, j: nat, q: PeerId, d: ServiceCall, e: ServiceCall)
    requires h.Valid(c) && h.Vetted(c) && i < |h.states| && j < |h.states| && p in h.states[i].nodes && q in h.states[j].nodes
    requires d in h.states[i].nodes[p].calls && e in h.states[j].nodes[q].calls
    requires d.CommitBlock? && e.CommitBlock? && d.seqNum == e.seqNum && d.committed != e.committed
    ensures d.view != e.view
    ensures exists k :: 0 <= k < Max(i, j) && ChangesMindAt(h, k, d.seqNum)
  {
    var last := if i < j then j else i;
    if d.view == e.view {
      CommitAgreement(c, h, i, p, j, q, d, e);
    }
    if AllOfOneMind(h.states[last], d.seqNum) {
      AgreementAcrossViews(c, h, i, p, j, q, d, e, last);
    }
    MindsOverHistory(c, h, last, d.seqNum);
  }
}
