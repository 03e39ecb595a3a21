/** Where logged messages and validator calls come from: the effect of one step on the log
    and on the record of calls, handler by handler and for every event. */
module Provenance {
  import opened Types
  import opened State
  import opened MessageLog
  import opened Protocol
  import opened Ledger

  /** A node's own message, delivered to itself after it was broadcast. */
  ghost predicate SelfDelivered(n: Node, m: ParsedMessage) {
    && m.fromSelf && m.header == UNSIGNED && m.SignerId() == n.state.id
    && Broadcast(m.message) in n.calls
    && Loggable(m.Type())
  }

  /** The types a node takes from its peers and from itself. */
  predicate Loggable(t: MessageType) {
    t.IsMulticast() || t == ViewChange
  }

  /** The message that the event hands to the node. */
  ghost predicate Delivered(n: Node, ev: Event, m: ParsedMessage) {
    Loggable(m.Type()) && MessageOf(n, ev) == Some(m)
  }

  /** A message made from a new block: its announcement, or a vote of its seal. */
  ghost predicate FromBlock(n: Node, ev: Event, m: ParsedMessage) {
    ev.UpdateBlockNew? &&
    (m == BlockNewMessage(n, ev.block) || (ev.block.payload.Sealed? && m in SealMessages(ev.block.payload.seal)))
  }

  /** Calls that neither send a message nor commit a block. */
  predicate Silent(c: ServiceCall) {
    !c.Broadcast? && !c.CommitBlock?
  }

  /** The node may send this message in this step. */
  ghost predicate MaySend(n: Node, ev: Event, w: Wrapper) {
    match w
    case Message(p) => SendsPrePrepare(n, ev, p) || SendsPrepare(n, ev, p) || SendsCommit(n, ev, p)
    case ViewChangeMessage(v, s, p, seal) =>
      && n.state.mode == Normal && v == n.state.view + 1 && s + 1 == n.state.seqNum && p == n.state.id
      && n.log.GetConsensusSeal(s) == Success(seal)
  }

  /** A PrePrepare is sent for a new block of the current number, by a primary that waits for one. */
  ghost predicate SendsPrePrepare(n: Node, ev: Event, p: PbftMessage) {
    && ev.UpdateBlockNew? && ev.block.blockNum == n.state.seqNum
    && n.state.IsPrimary() && n.state.phase == PrePreparing
    && p == PbftMessage(PrePrepare, n.state.view, n.state.seqNum, n.state.id, PbftBlockFromBlock(ev.block))
  }

  /** A Prepare is sent for the block of the node's own PrePrepare, or of one that is delivered
      from the primary of the current view for an announced block; a node that waits for a
      PrePrepare sends it for the current number only. */
  ghost predicate SendsPrepare(n: Node, ev: Event, p: PbftMessage) {
    || (n.state.id == p.signerId && p.msgType == Prepare && SendsPrePrepare(n, ev, p.(msgType := PrePrepare)))
    || (exists m :: Delivered(n, ev, m) && Answers(n, m, p))
  }

  ghost predicate Answers(n: Node, m: ParsedMessage, p: PbftMessage) {
    && m.Type() == PrePrepare && m.View() == n.state.view
    && |n.state.peerIds| > 0 && m.SignerId() == n.state.PrimaryId()
    && HasBlockNew(n.log.messages, m.SeqNum(), m.Block())
    && p == PbftMessage(Prepare, n.state.view, m.SeqNum(), n.state.id, m.Block())
    && (n.state.phase in {Preparing, Checking} || (n.state.phase == PrePreparing && m.SeqNum() == n.state.seqNum))
  }

  /** A Commit is sent for the working block, found valid, by a node that has prepared. */
  ghost predicate SendsCommit(n: Node, ev: Event, p: PbftMessage) {
    && ev.UpdateBlockValid?
    && IsWorkingBlock(n, ev.validId)
    && (n.state.phase == Checking || n.state.phase == Committing)
    && p == PbftMessage(Commit, n.state.view, n.state.seqNum, n.state.id, n.state.workingBlock.value)
  }

  lemma OnlySendsCommit(n: Node, ev: Event, p: PbftMessage)
    requires MaySend(n, ev, Message(p)) && p.msgType == Commit
    ensures SendsCommit(n, ev, p)
  {
  }

  /** What happens from `n` to `n'` during a step begun in `o`: the identity is kept, only
      `given` or own broadcasts are logged or queued, and only what may be sent is sent. */
  ghost predicate Effect(o: Node, n: Node, n': Node, given: set<ParsedMessage>, ev: Event) {
    && n'.state.id == n.state.id == o.state.id
    && n.calls <= n'.calls
    && (forall m :: m in n'.log.messages ==> m in n.log.messages || m in given || SelfDelivered(n', m))
    && (forall m :: m in n'.log.backlog ==> m in n.log.backlog || (m.Type() == PrePrepare && (m in given || SelfDelivered(n', m))))
    && (forall c :: c in n'.calls && c.Broadcast? ==> c in n.calls || MaySend(o, ev, c.message))
  }

  lemma EffectChain(o: Node, a: Node, b: Node, c: Node, given: set<ParsedMessage>, more: set<ParsedMessage>, ev: Event)
    requires Effect(o, a, b, given, ev) && Effect(o, b, c, more, ev)
    ensures Effect(o, a, c, given + more, ev)
    ensures forall m :: SelfDelivered(b, m) ==> SelfDelivered(c, m)
  {
    assert forall x :: x in b.calls ==> x in c.calls;
  }

  /** A message just broadcast may be logged as the node's own. */
  lemma EffectOwn(o: Node, a: Node, b: Node, m: ParsedMessage, ev: Event)
    requires Effect(o, a, b, {m}, ev) && SelfDelivered(b, m)
    ensures Effect(o, a, b, {}, ev)
  {
  }

  lemma EffectOnPrepare(o: Node, n: Node, m: ParsedMessage, env: Env, ev: Event)
    requires n.state.Sound() && env.Valid() && m.Type() == Prepare && o.state.id == n.state.id
    ensures Effect(o, n, OnPrepare(n, m, env).node, {m}, ev)
    ensures forall c :: c in OnPrepare(n, m, env).node.calls ==> c in n.calls || Silent(c)
  {
  }

  lemma EffectOnCommit(o: Node, n: Node, m: ParsedMessage, env: Env, ev: Event)
    requires n.state.Sound() && env.Valid() && m.Type() == Commit && o.state.id == n.state.id
    ensures Effect(o, n, OnCommit(n, m, env).node, {m}, ev)
    ensures forall c :: c in OnCommit(n, m, env).node.calls ==> c in n.calls || c.CommitBlock?
  {
  }

  /** Broadcasting a message and handling it as one's own. */
  lemma EffectBroadcast(o: Node, n: Node, w: Wrapper, n': Node, ev: Event)
    requires MaySend(o, ev, w) && Loggable(SelfMessage(w).Type()) && n.state.id == o.state.id
    requires Effect(o, n.Call(Broadcast(w)), n', {SelfMessage(w)}, ev)
    ensures Effect(o, n, n', {}, ev)
  {
    var n1 := n.Call(Broadcast(w));
    assert Broadcast(w) in n1.calls;
    assert SelfDelivered(n', SelfMessage(w));
    EffectOwn(o, n1, n', SelfMessage(w), ev);
    assert Effect(o, n, n1, {}, ev);
    EffectChain(o, n, n1, n', {}, {}, ev);
  }

  lemma EffectWithPrePrepare(o: Node, n: Node, m: ParsedMessage, now: int, ev: Event)
    requires n.state.Sound() && o.state.id == n.state.id
    ensures Effect(o, n, WithPrePrepare(n, m, now), {m}, ev) && WithPrePrepare(n, m, now).calls == n.calls
  {
  }

  lemma EffectSendPrepare(o: Node, n: Node, m: ParsedMessage, env: Env, ev: Event)
    requires n.state.Sound() && env.Valid() && m.Type() == PrePrepare && o.state.id == n.state.id
    requires n.state.ExpectedType() == Prepare ==> MaySend(o, ev, OwnMessage(n, Prepare, m.SeqNum(), m.Block()))
    ensures Effect(o, n, SendPrepare(n, m, env).node, {}, ev)
    ensures forall c :: c in SendPrepare(n, m, env).node.calls ==> c in n.calls || Silent(c) || c.Broadcast?
  {
    if n.state.ExpectedType() == Prepare {
      var w := OwnMessage(n, Prepare, m.SeqNum(), m.Block());
      var n1 := n.Call(Broadcast(w));
      EffectOnPrepare(o, n1, SelfMessage(w), env, ev);
      EffectBroadcast(o, n, w, OnPrepare(n1, SelfMessage(w), env).node, ev);
    }
  }

  /** The Prepare that answers `m`, if one is sent at all. */
  ghost function Answer(n: Node, m: ParsedMessage): Wrapper
    requires m.Type() == PrePrepare
  {
    OwnMessage(n, Prepare, m.SeqNum(), m.Block())
  }

  lemma AcceptedIsAnswered(n: Node, m: ParsedMessage, env: Env)
    requires n.state.Sound() && env.Valid() && m.Type() == PrePrepare && PrePrepareProblem(n, m, env).None?
    ensures var n1 := WithPrePrepare(n, m, env.now);
            Answer(n1, m) == Answer(n, m) && (n1.state.ExpectedType() == Prepare ==> Answers(n, m, Answer(n, m).pbft))
  {
  }

  lemma EffectOnPrePrepare(o: Node, n: Node, m: ParsedMessage, env: Env, ev: Event)
    requires n.state.Sound() && env.Valid() && m.Type() == PrePrepare && o.state.id == n.state.id
    requires Answers(n, m, Answer(n, m).pbft) ==> MaySend(o, ev, Answer(n, m))
    ensures Effect(o, n, OnPrePrepare(n, m, env).node, {m}, ev)
    ensures forall c :: c in OnPrePrepare(n, m, env).node.calls ==> c in n.calls || Silent(c) || c.Broadcast?
  {
    if PrePrepareProblem(n, m, env).None? {
      var n1 := WithPrePrepare(n, m, env.now);
      var n' := SendPrepare(n1, m, env).node;
      AcceptedIsAnswered(n, m, env);
      EffectWithPrePrepare(o, n, m, env.now, ev);
      EffectSendPrepare(o, n1, m, env, ev);
      EffectChain(o, n, n1, n', {m}, {}, ev);
      assert {m} + {} == {m} && OnPrePrepare(n, m, env).node == n';
    }
  }

  lemma EffectViewChangeHandler(o: Node, n: Node, m: ParsedMessage, env: Env, ev: Event)
    requires n.state.Sound() && o.state.id == n.state.id
    ensures Effect(o, n, ViewChangeHandler(n, m, env), {}, ev)
    ensures ViewChangeHandler(n, m, env).log == n.log
    ensures forall c :: c in ViewChangeHandler(n, m, env).calls ==> c in n.calls || Silent(c)
  {
  }

  /** The node is still in the view, mode and sequence number in which the step began, with
      the same seals. */
  ghost predicate Unmoved(o: Node, n: Node) {
    && n.state.id == o.state.id
    && n.state.view == o.state.view
    && n.state.mode == o.state.mode
    && n.state.seqNum == o.state.seqNum
    && n.log.seals == o.log.seals
  }

  /** Phase, peers and log are still those in which the step began. */
  ghost predicate SameStanding(o: Node, n: Node) {
    n.state.phase == o.state.phase && n.state.peerIds == o.state.peerIds && n.log.messages == o.log.messages
  }

  lemma EffectOwnViewChange(o: Node, n: Node, seal: Seal, ev: Event)
    requires n.state.Sound() && Unmoved(o, n) && n.state.mode == Normal
    requires n.log.GetConsensusSeal(n.state.seqNum - 1) == Success(seal)
    ensures Effect(o, n, WithOwnViewChange(n, seal), {}, ev)
  {
    EffectBroadcast(o, n, OwnViewChange(n, seal), WithOwnViewChange(n, seal), ev);
  }

  lemma EffectPropose(o: Node, n: Node, env: Env, ev: Event)
    requires n.state.Sound() && Unmoved(o, n)
    ensures Effect(o, n, ProposeViewChange(n, env).node, {}, ev)
    ensures forall c :: c in ProposeViewChange(n, env).node.calls ==> c in n.calls || Silent(c) || c.Broadcast?
  {
    if n.state.mode == Normal && n.log.GetConsensusSeal(n.state.seqNum - 1).Success? {
      var seal := n.log.GetConsensusSeal(n.state.seqNum - 1).value;
      EffectProposeWith(o, n, seal, env, ev);
      assert ProposeViewChange(n, env).node == ViewChangeHandler(WithOwnViewChange(n, seal), SelfMessage(OwnViewChange(n, seal)), env);
    }
  }

  lemma EffectProposeWith(o: Node, n: Node, seal: Seal, env: Env, ev: Event)
    requires n.state.Sound() && Unmoved(o, n) && n.state.mode == Normal && n.log.GetConsensusSeal(n.state.seqNum - 1) == Success(seal)
    ensures var n' := ViewChangeHandler(WithOwnViewChange(n, seal), SelfMessage(OwnViewChange(n, seal)), env);
            Effect(o, n, n', {}, ev) && forall c :: c in n'.calls ==> c in n.calls || Silent(c) || c.Broadcast?
  {
    EffectOwnViewChange(o, n, seal, ev);
    EffectCountOwn(o, n, WithOwnViewChange(n, seal), SelfMessage(OwnViewChange(n, seal)), env, ev);
    assert WithOwnViewChange(n, seal).calls == n.calls + [Broadcast(OwnViewChange(n, seal))];
  }

  lemma EffectCountOwn(o: Node, n: Node, n1: Node, m: ParsedMessage, env: Env, ev: Event)
    requires n1.state.Sound() && Effect(o, n, n1, {}, ev)
    ensures Effect(o, n, ViewChangeHandler(n1, m, env), {}, ev)
    ensures forall c :: c in ViewChangeHandler(n1, m, env).calls ==> c in n1.calls || Silent(c)
  {
    EffectViewChangeHandler(o, n1, m, env, ev);
    EffectChain(o, n, n1, ViewChangeHandler(n1, m, env), {}, {}, ev);
  }

  lemma EffectOnViewChange(o: Node, n: Node, m: ParsedMessage, env: Env, ev: Event)
    requires n.state.Sound() && m.Type() == ViewChange && Unmoved(o, n)
    ensures Effect(o, n, OnViewChange(n, m, env).node, {m}, ev)
    ensures forall c :: c in OnViewChange(n, m, env).node.calls ==> c in n.calls || Silent(c) || c.Broadcast?
  {
    var n1 := n.(log := n.log.AddMessage(m, n.state.view));
    assert Effect(o, n, n1, {m}, ev);
    EffectPropose(o, n1, env, ev);
    var n2 := if n.state.mode == ViewChanging then n1 else ProposeViewChange(n1, env).node;
    EffectViewChangeHandler(o, n2, m, env, ev);
    EffectChain(o, n, n1, n2, {m}, {}, ev);
    EffectChain(o, n, n2, ViewChangeHandler(n2, m, env), {m}, {}, ev);
  }

  lemma EffectOnPeerMessage(o: Node, n: Node, m: ParsedMessage, env: Env, ev: Event)
    requires n.state.Sound() && env.Valid() && Unmoved(o, n) && SameStanding(o, n) && (Loggable(m.Type()) ==> Delivered(o, ev, m))
    ensures Effect(o, n, OnPeerMessage(n, m, env).node, if Loggable(m.Type()) then {m} else {}, ev)
    ensures forall c :: c in OnPeerMessage(n, m, env).node.calls && c.CommitBlock? ==> c in n.calls || m.Type() == Commit
  {
    match m.Type()
    case PrePrepare => EffectOnPrePrepare(o, n, m, env, ev);
    case Prepare => EffectOnPrepare(o, n, m, env, ev);
    case Commit => EffectOnCommit(o, n, m, env, ev);
    case ViewChange => EffectOnViewChange(o, n, m, env, ev);
    case _ =>
  }

  lemma EffectRotateIfDue(o: Node, n: Node, id: BlockId, env: Env, ev: Event)
    requires n.state.Sound() && env.Valid() && n.state.id == o.state.id
    ensures Effect(o, n, RotateIfDue(n, id, env), {}, ev)
    ensures forall c :: c in RotateIfDue(n, id, env).calls ==> c in n.calls || Silent(c)
  {
  }

  lemma EffectOnBlockCommit(o: Node, n: Node, id: BlockId, env: Env, ev: Event)
    requires n.state.Sound() && env.Valid() && n.state.id == o.state.id
    ensures Effect(o, n, OnBlockCommit(n, id, env), {}, ev)
    ensures forall c :: c in OnBlockCommit(n, id, env).calls ==> c in n.calls || Silent(c)
  {
    if n.state.phase == Finished && IsWorkingBlock(n, id) {
      var n1 := n.(state := NextBlock(n, env));
      EffectRotateIfDue(o, n1, id, env, ev);
      var n2 := RotateIfDue(n1, id, env);
      assert Effect(o, n, n1, {}, ev) && Effect(o, n2, Settle(n2, id, env.now), {}, ev);
      EffectChain(o, n, n1, n2, {}, {}, ev);
      EffectChain(o, n, n2, Settle(n2, id, env.now), {}, {}, ev);
    }
  }

  lemma EffectCatchup(o: Node, n: Node, block: Block, seal: Seal, env: Env, ev: Event)
    requires n.state.Sound() && env.Valid() && |seal.votes| > 0 && n.state.id == o.state.id
    ensures Effect(o, n, Catchup(n, block, seal, env).node, (set m | m in SealMessages(seal)), ev)
  {
    var ms := SealMessages(seal);
    var view := Max(n.state.view, ms[0].View());
    AddMessagesAddsSome(n.log, ms, view);
    var n1 := n.(state := n.state.(view := view), log := AddMessages(n.log, ms, view));
    var id := ms[0].Block().blockId;
    var n2 := CommitNow(n1.(state := n1.state.(phase := Committing)), id);
    var given := set m | m in ms;
    assert Effect(o, n, n1, given, ev) && Effect(o, n, n2, given, ev);
    EffectOnBlockCommit(o, n2, id, env, ev);
    EffectChain(o, n, n2, OnBlockCommit(n2, id, env), given, {}, ev);
    assert given + {} == given;
  }

  lemma EffectAdoptBlock(o: Node, n: Node, block: Block, env: Env, ev: Event)
    requires n.state.Sound() && env.Valid() && n.state == o.state
    requires ev == UpdateBlockNew(block) && block.blockNum == n.state.seqNum
    ensures Effect(o, n, AdoptBlock(n, block, env).node, {}, ev)
    ensures forall c :: c in AdoptBlock(n, block, env).node.calls && c.CommitBlock? ==> c in n.calls
  {
    var pbftBlock := PbftBlockFromBlock(block);
    var n1 := n.(state := n.state.(workingBlock := Some(pbftBlock)));
    assert Effect(o, n, n1, {}, ev);
    if n.state.IsPrimary() && n.state.ExpectedType() == PrePrepare {
      var w := OwnMessage(n1, PrePrepare, n.state.seqNum, pbftBlock);
      var n2 := n1.Call(Broadcast(w));
      EffectOnPrePrepare(o, n2, SelfMessage(w), env, ev);
      EffectBroadcast(o, n1, w, OnPrePrepare(n2, SelfMessage(w), env).node, ev);
      EffectChain(o, n, n1, OnPrePrepare(n2, SelfMessage(w), env).node, {}, {}, ev);
    }
  }

  /** The effect of a whole step: what is logged, queued and sent has its source in the event. */
  ghost predicate StepEffect(n: Node, ev: Event, n': Node) {
    && n'.state.id == n.state.id
    && n.calls <= n'.calls
    && (forall m :: m in n'.log.messages ==> m in n.log.messages || SelfDelivered(n', m) || Delivered(n, ev, m) || FromBlock(n, ev, m))
    && (forall m :: m in n'.log.backlog ==> m in n.log.backlog || (m.Type() == PrePrepare && (SelfDelivered(n', m) || Delivered(n, ev, m))))
    && (forall c :: c in n'.calls && c.Broadcast? ==> c in n.calls || MaySend(n, ev, c.message))
  }

  /** An effect whose given messages are those of the event is the effect of the event. */
  lemma EffectIsStepEffect(n: Node, n': Node, given: set<ParsedMessage>, ev: Event)
    requires Effect(n, n, n', given, ev)
    requires forall m :: m in given ==> Delivered(n, ev, m) || (FromBlock(n, ev, m) && m.Type() != PrePrepare)
    ensures StepEffect(n, ev, n')
  {
  }

  lemma EffectOnBlockNew(n: Node, block: Block, env: Env)
    requires n.state.Sound() && env.Valid() && SealOfCommits(block)
    ensures StepEffect(n, UpdateBlockNew(block), OnBlockNew(n, block, env).node)
  {
    var ev := UpdateBlockNew(block);
    if block.blockNum >= n.state.seqNum {
      match VerifyConsensusSeal(n, block, env)
      case Failure(e) =>
        var n1 := n.Call(FailBlock(block.blockId));
        EffectPropose(n, n1, env, ev);
        EffectChain(n, n, n1, ProposeViewChange(n1, env).node, {}, {}, ev);
      case Success(seal) =>
        var n1 := LogBlock(n, block, seal);
        assert Effect(n, n, n1, {BlockNewMessage(n, block)}, ev);
        if block.blockNum == n.state.seqNum + 1 && n.state.phase != Finished {
          VerifiedSealHasVotes(n, block, env);
          var ms := set m | m in SealMessages(seal.value);
          forall m | m in ms ensures m.Type() == Commit {
            var i :| 0 <= i < |seal.value.votes| && m == FromPbftMessage(seal.value.votes[i].message);
            assert seal.value.votes[i] in seal.value.votes;
          }
          EffectCatchup(n, n1, block, seal.value, env, ev);
          var n' := Catchup(n1, block, seal.value, env).node;
          EffectChain(n, n, n1, n', {BlockNewMessage(n, block)}, ms, ev);
          EffectIsStepEffect(n, n', {BlockNewMessage(n, block)} + ms, ev);
        } else if block.blockNum == n.state.seqNum {
          EffectAdoptBlock(n, n1, block, env, ev);
          var n' := AdoptBlock(n1, block, env).node;
          EffectChain(n, n, n1, n', {BlockNewMessage(n, block)}, {}, ev);
          EffectIsStepEffect(n, n', {BlockNewMessage(n, block)} + {}, ev);
        }
    }
  }

  lemma EffectOnBlockValid(n: Node, id: BlockId, env: Env)
    requires n.state.Sound() && env.Valid()
    ensures StepEffect(n, UpdateBlockValid(id), OnBlockValid(n, id, env).node)
  {
    var ev := UpdateBlockValid(id);
    if IsWorkingBlock(n, id) {
      var n1 := n.(state := n.state.SwitchPhase(Committing));
      if n1.state.ExpectedType() == Commit {
        var w := OwnMessage(n1, Commit, n.state.seqNum, n.state.workingBlock.value);
        var n2 := n1.Call(Broadcast(w));
        EffectOnCommit(n, n2, SelfMessage(w), env, ev);
        EffectBroadcast(n, n1, w, OnCommit(n2, SelfMessage(w), env).node, ev);
      }
    }
  }

  lemma EffectWorkingTick(n: Node, summary: Option<string>, env: Env)
    requires n.state.Sound() && env.Valid()
    ensures StepEffect(n, TickWorking(summary), WorkingTick(n, summary, env))
    ensures forall c :: c in WorkingTick(n, summary, env).calls ==> c in n.calls || Silent(c) || c.Broadcast?
  {
    var n1 := TryPublish(n, summary, env).node;
    var n2 := n1.(state := n1.state.(timeout := n1.state.timeout.Checked(env.now)));
    assert Effect(n, n, n2, {}, TickWorking(summary));
    EffectPropose(n, n2, env, TickWorking(summary));
    EffectChain(n, n, n2, ProposeViewChange(n2, env).node, {}, {}, TickWorking(summary));
  }

  lemma EffectRetryBacklog(n: Node, env: Env)
    requires n.state.Sound() && env.Valid()
    ensures StepEffect(n, TickBacklog, RetryBacklog(n, env).node)
  {
    if n.log.backlog != [] {
      var n1 := n.(log := n.log.(backlog := n.log.backlog[1..]));
      var m := n.log.backlog[0];
      EffectOnPeerMessage(n, n1, m, env, TickBacklog);
      assert Effect(n, n, n1, {}, TickBacklog);
      var given := if Loggable(m.Type()) then {m} else {};
      EffectChain(n, n, n1, OnPeerMessage(n1, m, env).node, {}, given, TickBacklog);
      EffectIsStepEffect(n, OnPeerMessage(n1, m, env).node, {} + given, TickBacklog);
    }
  }

  /** Every logged message is the node's own, was delivered, or came with a block; every
      message sent is one the node may send then; nothing sent is ever taken back. */
  lemma EffectOfStep(n: Node, ev: Event, env: Env)
    requires n.state.Sound() && env.Valid() && WellSealed(ev)
    ensures StepEffect(n, ev, Step(n, ev, env))
  {
    match ev
    case UpdateBlockNew(block) => EffectOnBlockNew(n, block, env);
    case UpdateBlockValid(id) => EffectOnBlockValid(n, id, env);
    case UpdateBlockInvalid(id) => EffectPropose(n, n, env, ev);
    case UpdateBlockCommit(id) => EffectOnBlockCommit(n, n, id, env, ev);
    case UpdatePeerMessage(header, message, sender) =>
      if ParsedMessage(header, message, false).SignerId() == sender {
        EffectOnPeerMessage(n, n, ParsedMessage(header, message, false), env, ev);
      }
    case UpdateOther =>
    case TickWorking(summary) => EffectWorkingTick(n, summary, env);
    case TickBacklog => EffectRetryBacklog(n, env);
  }
}
