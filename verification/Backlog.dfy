/** The queue of PrePrepares that came before their block: every retry moves it up by one, so
    each is looked at again in bounded time. */
module Backlog {
  import opened Types
  import opened State
  import opened Protocol
  import opened Ledger
  import opened Commits
  import opened Views
  import opened Runs

  /** A PrePrepare from the primary of the view, for a block that is not announced. */
  ghost predicate Early(n: Node, m: ParsedMessage)
    requires n.state.Sound()
  {
    && m.Type() == PrePrepare && m.SignerId() == n.state.peerIds[n.state.view % |n.state.peerIds|]
    && forall k :: k in n.log.messages && k.Type() == BlockNew && k.SeqNum() == m.SeqNum() ==> k.Block() != m.Block()
  }

  /** The queue without its front, if the step takes that. */
  function Rest(n: Node, ev: Event): seq<ParsedMessage> {
    if ev.TickBacklog? && n.log.backlog != [] then n.log.backlog[1..] else n.log.backlog
  }

  /** A step takes the front of the queue if it is a retry, and adds the message it delivers exactly
      if that is early, at the end. */
  lemma QueueOfStep(n: Node, ev: Event, env: Env)
    requires n.state.Sound() && env.Valid()
    ensures var m := MessageOf(n, ev);
            Step(n, ev, env).log.backlog == Rest(n, ev) + if m.Some? && Early(n, m.value) then [m.value] else []
  {
    match ev
    case UpdateBlockNew(block) => QueueOnBlockNew(n, block, env);
    case UpdateBlockValid(id) => ValidBlockSends(n, id, env);
    case UpdateBlockInvalid(id) => QueueOnProposal(n, env);
    case UpdateBlockCommit(id) =>
    case UpdatePeerMessage(header, message, sender) => QueueOnPeerMessage(n, ParsedMessage(header, message, false), env);
    case UpdateOther =>
    case TickWorking(summary) =>
      var n1 := TryPublish(n, summary, env).node;
      QueueOnProposal(n1.(state := n1.state.(timeout := n1.state.timeout.Checked(env.now))), env);
    case TickBacklog =>
      if n.log.backlog != [] {
        QueueOnPeerMessage(n.(log := n.log.(backlog := n.log.backlog[1..])), n.log.backlog[0], env);
      }
  }

  lemma QueueOnProposal(n: Node, env: Env)
    requires n.state.Sound()
    ensures ProposeViewChange(n, env).node.log.backlog == n.log.backlog
  {
  }

  lemma QueueOnPrePrepare(n: Node, m: ParsedMessage, env: Env)
    requires n.state.Sound() && env.Valid() && m.Type() == PrePrepare
    ensures OnPrePrepare(n, m, env).node.log.backlog == n.log.backlog + if Early(n, m) then [m] else []
  {
  }

  lemma QueueOnViewChange(n: Node, m: ParsedMessage, env: Env)
    requires n.state.Sound() && m.Type() == ViewChange
    ensures OnViewChange(n, m, env).node.log.backlog == n.log.backlog
  {
    QueueOnProposal(n.(log := n.log.AddMessage(m, n.state.view)), env);
  }

  lemma QueueOnPeerMessage(n: Node, m: ParsedMessage, env: Env)
    requires n.state.Sound() && env.Valid()
    ensures OnPeerMessage(n, m, env).node.log.backlog == n.log.backlog + if Early(n, m) then [m] else []
  {
    if m.Type() == PrePrepare {
      QueueOnPrePrepare(n, m, env);
    } else if m.Type() == ViewChange {
      QueueOnViewChange(n, m, env);
    }
  }

  lemma QueueOnCatchup(n: Node, block: Block, seal: Seal, env: Env)
    requires n.state.Sound() && env.Valid() && |seal.votes| > 0
    ensures Catchup(n, block, seal, env).node.log.backlog == n.log.backlog
  {
    AddMessagesAddsSome(n.log, SealMessages(seal), SealView(n, seal));
  }

  /** The node's own PrePrepare is never early: its block is announced. */
  lemma QueueOnAdoption(n: Node, block: Block, env: Env)
    requires n.state.Sound() && env.Valid() && block.blockNum == n.state.seqNum && BlockNewMessage(n, block) in n.log.messages
    ensures AdoptBlock(n, block, env).node.log.backlog == n.log.backlog
  {
    var n1 := n.(state := n.state.(workingBlock := Some(PbftBlockFromBlock(block))));
    var w := OwnMessage(n1, PrePrepare, n.state.seqNum, PbftBlockFromBlock(block));
    QueueOnPrePrepare(n1.Call(Broadcast(w)), SelfMessage(w), env);
    assert !Early(n1.Call(Broadcast(w)), SelfMessage(w));
  }

  lemma QueueOnBlockNew(n: Node, block: Block, env: Env)
    requires n.state.Sound() && env.Valid()
    ensures OnBlockNew(n, block, env).node.log.backlog == n.log.backlog
  {
    if block.blockNum >= n.state.seqNum && VerifyConsensusSeal(n, block, env).Success? {
      var found := VerifyConsensusSeal(n, block, env).value;
      if block.blockNum == n.state.seqNum + 1 && n.state.phase != Finished {
        VerifiedSealHasVotes(n, block, env);
        QueueOnCatchup(LogBlock(n, block, found), block, found.value, env);
      } else if block.blockNum == n.state.seqNum {
        QueueOnAdoption(LogBlock(n, block, found), block, env);
      }
    }
  }

  /** The retries among the events from `i` to `j`. */
  function Retries(evs: seq<Event>, i: nat, j: nat): nat
    requires i <= j <= |evs|
    decreases j
  {
    if i == j then 0 else Retries(evs, i, j - 1) + if evs[j - 1].TickBacklog? then 1 else 0
  }

  lemma QueueNext(t: Trace, k: nat, p: nat)
    requires t.Valid() && k < |t.events| && p < |t.nodes[k].log.backlog|
    ensures var q := if t.events[k].TickBacklog? then p - 1 else p;
            q >= 0 ==> q < |t.nodes[k + 1].log.backlog| && t.nodes[k + 1].log.backlog[q] == t.nodes[k].log.backlog[p]
  {
    assert t.StepsAt(k);
    QueueOfStep(t.nodes[k], t.events[k], t.envs[k]);
  }

  /** After `q` retries a queued message has moved up by exactly `q` places. */
  lemma {:induction false} QueueMovesUp(t: Trace, i: nat, j: nat, p: nat)
    requires t.Valid() && i <= j < |t.nodes| && p < |t.nodes[i].log.backlog|
    requires Retries(t.events, i, j) <= p
    ensures var q := Retries(t.events, i, j);
            p - q < |t.nodes[j].log.backlog| && t.nodes[j].log.backlog[p - q] == t.nodes[i].log.backlog[p]
    decreases j
  {
    if i < j {
      QueueMovesUp(t, i, j - 1, p);
      QueueNext(t, j - 1, p - Retries(t.events, i, j - 1));
    }
  }

  /** A PrePrepare at place `p` of the queue is handled by the (p+1)-th retry from then on,
      whatever else happens in between and is queued behind it, and accepted there exactly if
      it is acceptable at that time. */
  lemma BacklogService(t: Trace, i: nat, j: nat, p: nat)
    requires t.Valid() && t.Sealed() && i <= j < |t.events| && p < |t.nodes[i].log.backlog|
    requires Retries(t.events, i, j) == p && t.events[j].TickBacklog?
    ensures var m := t.nodes[i].log.backlog[p];
            && t.nodes[j].log.backlog != [] && t.nodes[j].log.backlog[0] == m
            && (Acceptable(t.nodes[j], m) ==> m in t.nodes[j + 1].log.messages)
            && (!Acceptable(t.nodes[j], m) ==> t.nodes[j + 1].log.messages == t.nodes[j].log.messages)
  {
    QueueMovesUp(t, i, j, p);
    InvariantOfRun(t, j);
    var n, env := t.nodes[j], t.envs[j];
    var m := n.log.backlog[0];
    var n1 := n.(log := n.log.(backlog := n.log.backlog[1..]));
    assert t.StepsAt(j);
    AcceptedExactlyIfAcceptable(n1, m, env);
  }

  /** An early PrePrepare, whoever delivers it, goes to the end of the queue. The retry that reaches its
      place logs it if it is acceptable by then, queues it again if it is still early, and otherwise
      drops it. */
  lemma EarlyIsServed(t: Trace, i: nat, j: nat, m: ParsedMessage)
    requires t.Valid() && t.Sealed() && i < j < |t.events| && MessageOf(t.nodes[i], t.events[i]) == Some(m) && Early(t.nodes[i], m)
    requires Retries(t.events, i + 1, j) == |Rest(t.nodes[i], t.events[i])| && t.events[j].TickBacklog?
    ensures var n, n' := t.nodes[j], t.nodes[j + 1];
            && n.log.backlog != [] && n.log.backlog[0] == m
            && (Acceptable(n, m) ==> m in n'.log.messages)
            && n'.log.backlog == n.log.backlog[1..] + if Early(n, m) then [m] else []
  {
    assert t.StepsAt(i) && t.StepsAt(j);
    QueueOfStep(t.nodes[i], t.events[i], t.envs[i]);
    BacklogService(t, i + 1, j, |Rest(t.nodes[i], t.events[i])|);
    QueueOfStep(t.nodes[j], t.events[j], t.envs[j]);
  }
}
