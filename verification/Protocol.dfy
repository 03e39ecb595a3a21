/** What each handler of a node does to the node, as functions on values. The recursion of
    the engine (a broadcast is also delivered to its sender) is laid out flat here: a
    PrePrepare leads to at most a Prepare, a view change proposal to at most one ViewChange. */
module Protocol {
  import opened Types
  import opened Timing
  import opened State
  import opened MessageLog

  /** Calls into the validator, in order. A commit is recorded with the view and sequence
      number at which it was made. */
  datatype ServiceCall =
    | Broadcast(message: Wrapper)
    | CheckBlocks(checked: BlockId)
    | CommitBlock(committed: BlockId, view: nat, seqNum: nat)
    | InitializeBlock(previousId: Option<BlockId>)
    | FinalizeBlock(payload: Payload)
    | IgnoreBlock(ignored: BlockId)
    | FailBlock(failed: BlockId)

  datatype Node = Node(state: StateValue, log: LogValue, calls: seq<ServiceCall>)
  {
    function Call(c: ServiceCall): Node {
      this.(calls := calls + [c])
    }
  }

  datatype Reply = Reply(node: Node, result: Outcome)

  function InitialNode(id: PeerId, headBlockNum: nat, peers: seq<PeerId>, timeout: int, period: nat, maxLogSize: nat, now: int): (n: Node)
    requires |peers| >= 4 && period > 0
    ensures n.state.Sound()
  {
    var s := InitialState(id, headBlockNum, peers, timeout, period, now);
    Node(s.(timeout := s.timeout.Started(now)),
         LogValue({}, maxLogSize, [], {}),
         if s.IsPrimary() then [InitializeBlock(None)] else [])
  }

  // ---------- Message handlers ----------

  predicate HasBlockNew(msgs: set<ParsedMessage>, s: nat, b: PbftBlock) {
    exists m :: m in msgs && m.Type() == BlockNew && m.SeqNum() == s && m.Block() == b
  }

  /** The first reason to turn a PrePrepare away, in the order the handler looks for them. */
  function PrePrepareProblem(n: Node, m: ParsedMessage, env: Env): Option<PbftError>
    requires n.state.Sound() && env.Valid() && m.Type() == PrePrepare
  {
    if m.SignerId() != n.state.PrimaryId() then Some(NotFromPrimary)
    else if !HasBlockNew(n.log.messages, m.SeqNum(), m.Block()) then Some(NoBlockNew)
    else
      var existing := GetOneMsg(n.log.messages, PrePrepare, m.SeqNum(), m.View(), env);
      if existing.Some? && existing.value.Block() != m.Block() then Some(BlockMismatch(existing.value.Block(), m.Block()))
      else if n.log.Refuses(m, n.state.view) then Some(ViewMismatch(m.View(), n.state.view))
      else None
  }

  /** The node with the PrePrepare logged; one for the current sequence number ends the wait. */
  function WithPrePrepare(n: Node, m: ParsedMessage, now: int): (r: Node)
    requires n.state.Sound()
    ensures r.state.Sound()
  {
    var log := n.log.(messages := n.log.messages + {m});
    if m.SeqNum() == n.state.seqNum then
      n.(log := log, state := n.state.SwitchPhase(Preparing).(timeout := n.state.timeout.Stopped(now)))
    else n.(log := log)
  }

  /** handlers::pre_prepare */
  function AcceptPrePrepare(n: Node, m: ParsedMessage, env: Env): (r: Reply)
    requires n.state.Sound() && env.Valid() && m.Type() == PrePrepare
    ensures r.node.state.Sound()
  {
    var problem := PrePrepareProblem(n, m, env);
    if problem.Some? then Reply(n, Err(problem.value)) else Reply(WithPrePrepare(n, m, env.now), Ok)
  }

  function CheckBlocksIfNotChecking(n: Node, id: BlockId): Node {
    if n.state.phase != Checking then
      n.(state := n.state.SwitchPhase(Checking)).Call(CheckBlocks(id))
    else n
  }

  function OnPrepare(n: Node, m: ParsedMessage, env: Env): (r: Reply)
    requires n.state.Sound() && env.Valid() && m.Type() == Prepare
    ensures r.node.state.Sound()
  {
    if n.log.Refuses(m, n.state.view) then Reply(n, n.log.AddMessageOutcome(m, n.state.view))
    else
      var n1 := n.(log := n.log.AddMessage(m, n.state.view));
      if m.SeqNum() == n.state.seqNum && CheckPrepared(n1.log.messages, m.SeqNum(), m.View(), n.state.f, env) then
        Reply(CheckBlocksIfNotChecking(n1, m.Block().blockId), Ok)
      else Reply(n1, Ok)
  }

  /** handlers::commit */
  function CommitNow(n: Node, id: BlockId): Node {
    n.(state := n.state.SwitchPhase(Finished)).Call(CommitBlock(id, n.state.view, n.state.seqNum))
  }

  function OnCommit(n: Node, m: ParsedMessage, env: Env): (r: Reply)
    requires n.state.Sound() && env.Valid() && m.Type() == Commit
    ensures r.node.state.Sound()
  {
    if n.log.Refuses(m, n.state.view) then Reply(n, n.log.AddMessageOutcome(m, n.state.view))
    else
      var n1 := n.(log := n.log.AddMessage(m, n.state.view));
      if && m.SeqNum() == n.state.seqNum
         && CheckCommittable(n1.log.messages, m.SeqNum(), m.View(), n.state.f, env)
         && n.state.phase == Committing
      then Reply(CommitNow(n1, m.Block().blockId), Ok)
      else Reply(n1, Ok)
  }

  function OwnMessage(n: Node, t: MessageType, s: nat, b: PbftBlock): Wrapper {
    Message(PbftMessage(t, n.state.view, s, n.state.id, b))
  }

  /** A node in the right phase answers a PrePrepare with a Prepare, to itself as well. */
  function SendPrepare(n: Node, m: ParsedMessage, env: Env): (r: Reply)
    requires n.state.Sound() && env.Valid() && m.Type() == PrePrepare
    ensures r.node.state.Sound()
  {
    if n.state.ExpectedType() != Prepare then Reply(n, Ok)
    else
      var w := OwnMessage(n, Prepare, m.SeqNum(), m.Block());
      OnPrepare(n.Call(Broadcast(w)), SelfMessage(w), env)
  }

  function OnPrePrepare(n: Node, m: ParsedMessage, env: Env): (r: Reply)
    requires n.state.Sound() && env.Valid() && m.Type() == PrePrepare
    ensures r.node.state.Sound()
  {
    var problem := PrePrepareProblem(n, m, env);
    if problem.None? then SendPrepare(WithPrePrepare(n, m, env.now), m, env)
    else if problem.value == NoBlockNew then Reply(n.(log := n.log.PushBacklog(m)), Ok)
    else Reply(n, Err(problem.value))
  }

  // ---------- View changes ----------

  /** A new primary drops its working block and asks for a new one. */
  function RoleCalls(n: Node): seq<ServiceCall>
    requires |n.state.peerIds| > 0
  {
    if n.state.id == n.state.PrimaryId() then
      (if n.state.workingBlock.Some? then [IgnoreBlock(n.state.workingBlock.value.blockId)] else []) + [InitializeBlock(None)]
    else []
  }

  /** Takes the role that the node's view gives it. */
  function TakeRole(n: Node): Node
    requires |n.state.peerIds| > 0
  {
    n.(state := n.state.(role := if n.state.id == n.state.PrimaryId() then Primary else Secondary),
       calls := n.calls + RoleCalls(n))
  }

  /** handlers::view_change */
  function ViewChangeHandler(n: Node, m: ParsedMessage, env: Env): (r: Node)
    requires n.state.Sound()
    ensures r.state.Sound()
  {
    if !LogHasRequiredMsgs(n.log.messages, ViewChange, m, false, 2 * n.state.f + 1) then n
    else
      var n1 := TakeRole(n.(state := n.state.(view := m.View())));
      n1.(state := n1.state.DiscardCurrentBlock(env.now))
  }

  /** handlers::force_view_change */
  function ForceViewChange(n: Node): (r: Node)
    requires n.state.Sound()
    ensures r.state.Sound()
  {
    TakeRole(n.(state := n.state.(view := n.state.view + 1)))
  }

  function OwnViewChange(n: Node, seal: Seal): Wrapper
    requires n.state.seqNum >= 1
  {
    ViewChangeMessage(n.state.view + 1, n.state.seqNum - 1, n.state.id, seal)
  }

  /** The node with its own view change sent and logged, before it is counted. */
  function WithOwnViewChange(n: Node, seal: Seal): (r: Node)
    requires n.state.Sound()
    ensures r.state.Sound()
  {
    var w := OwnViewChange(n, seal);
    n.(state := n.state.(mode := ViewChanging),
       log := n.log.AddMessage(SelfMessage(w), n.state.view),
       calls := n.calls + [Broadcast(w)])
  }

  function ProposeViewChange(n: Node, env: Env): (r: Reply)
    requires n.state.Sound()
    ensures r.node.state.Sound()
  {
    if n.state.mode == ViewChanging then Reply(n, Ok)
    else match n.log.GetConsensusSeal(n.state.seqNum - 1)
      case Failure(e) => Reply(n.(state := n.state.(mode := ViewChanging)), Err(e))
      case Success(seal) => Reply(ViewChangeHandler(WithOwnViewChange(n, seal), SelfMessage(OwnViewChange(n, seal)), env), Ok)
  }

  function OnViewChange(n: Node, m: ParsedMessage, env: Env): (r: Reply)
    requires n.state.Sound() && m.Type() == ViewChange
    ensures r.node.state.Sound()
  {
    var n1 := n.(log := n.log.AddMessage(m, n.state.view));
    if n.state.mode == ViewChanging then Reply(ViewChangeHandler(n1, m, env), Ok)
    else if LogHasRequiredMsgs(n1.log.messages, ViewChange, m, false, n.state.f + 1) && m.View() > n.state.view then
      var r := ProposeViewChange(n1, env);
      if r.result.Err? then r else Reply(ViewChangeHandler(r.node, m, env), Ok)
    else Reply(n1, Ok)
  }

  function OnPeerMessage(n: Node, m: ParsedMessage, env: Env): (r: Reply)
    requires n.state.Sound() && env.Valid()
    ensures r.node.state.Sound()
  {
    match m.Type()
    case PrePrepare => OnPrePrepare(n, m, env)
    case Prepare => OnPrepare(n, m, env)
    case Commit => OnCommit(n, m, env)
    case ViewChange => OnViewChange(n, m, env)
    case _ => Reply(n, Ok)
  }

  // ---------- Seals ----------

  /** The signer named by a vote that is authentic and for the sealed block. */
  predicate VoteVerifies(v: SignedVote, seal: Seal, env: Env) {
    v.message.block.blockId == seal.previousId && env.authentic(v)
  }

  function VoterIds(seal: Seal): set<PeerId> {
    set v | v in seal.votes :: v.message.signerId
  }

  function VerifyConsensusSeal(n: Node, block: Block, env: Env): Result<Option<Seal>> {
    if block.blockNum < 2 then Success(None)
    else match block.payload
      case Empty => Failure(InternalError)
      case Malformed => Failure(SerializationError)
      case Sealed(seal) =>
        if seal.previousId != block.previousId || seal.summary != block.summary then Failure(InternalError)
        else if exists v :: v in seal.votes && !VoteVerifies(v, seal, env) then Failure(InternalError)
        else
          var peers := set p | p in env.peersAt(block.previousId) && p != block.signerId;
          if !(VoterIds(seal) <= peers) || |VoterIds(seal)| < 2 * n.state.f then Failure(InternalError)
          else Success(Some(seal))
  }

  function SignedVoteOf(m: ParsedMessage): SignedVote
    requires m.message.Message?
  {
    SignedVote(m.header, m.message.pbft)
  }

  function SealFrom(ms: seq<ParsedMessage>, summary: string): Seal
    requires |ms| > 0 && forall m :: m in ms ==> m.message.Message?
  {
    Seal(ms[0].Block().blockId, summary, seq(|ms|, i requires 0 <= i < |ms| => SignedVoteOf(ms[i])))
  }

  function BuildSeal(n: Node, summary: string, env: Env): Result<Seal>
    requires n.state.Sound() && env.Valid()
  {
    match GetEnoughMessages(n.log.messages, Commit, n.state.seqNum - 1, 2 * n.state.f)
    case None => Failure(InternalError)
    case Some(votes) =>
      var ms := env.iter(votes);
      assert Enumerates(ms, votes);
      EnoughMessagesAreSome(n.log.messages, Commit, n.state.seqNum - 1, 2 * n.state.f);
      Success(SealFrom(ms, summary))
  }

  // ---------- Updates from the validator ----------

  function UpdateMembership(s: StateValue, peers: seq<PeerId>): (r: StateValue)
    requires s.Sound() && |peers| >= 4
    ensures r.Sound()
  {
    if MembershipChanged(s, peers) then s.(peerIds := peers, f := MaxFaulty(peers)) else s
  }

  predicate MembershipChanged(s: StateValue, peers: seq<PeerId>) {
    (set p | p in peers) != (set p | p in s.peerIds)
  }

  /** The state for the next sequence number: its block is one already announced, if any. */
  function NextBlock(n: Node, env: Env): (s: StateValue)
    requires n.state.Sound() && env.Valid()
    ensures s.Sound()
  {
    var next := env.First(OfTypeSeq(n.log.messages, BlockNew, n.state.seqNum + 1));
    n.state.SwitchPhase(PrePreparing).(
      seqNum := n.state.seqNum + 1,
      workingBlock := if next.Some? then Some(next.value.Block()) else None)
  }

  /** Membership is read only where no view change is due for fairness. */
  function RotateIfDue(n: Node, id: BlockId, env: Env): (r: Node)
    requires n.state.Sound() && env.Valid()
    ensures r.state.Sound()
  {
    if n.state.AtForcedViewChange() then ForceViewChange(n)
    else if MembershipChanged(n.state, env.peersAt(id)) then
      ForceViewChange(n.(state := UpdateMembership(n.state, env.peersAt(id))))
    else n
  }

  predicate IsWorkingBlock(n: Node, id: BlockId) {
    n.state.workingBlock.Some? && n.state.workingBlock.value.blockId == id
  }

  /** The log is pruned and the timer restarted for the new sequence number. */
  function Settle(n: Node, id: BlockId, now: int): (r: Node)
    requires n.state.Sound()
    ensures r.state.Sound()
  {
    n.(log := n.log.GarbageCollect(n.state.seqNum, id),
       state := n.state.(timeout := n.state.timeout.Started(now)),
       calls := n.calls + if n.state.IsPrimary() && n.state.workingBlock.None? then [InitializeBlock(Some(id))] else [])
  }

  function OnBlockCommit(n: Node, id: BlockId, env: Env): (r: Node)
    requires n.state.Sound() && env.Valid()
    ensures r.state.Sound()
  {
    if n.state.phase != Finished || !IsWorkingBlock(n, id) then n
    else Settle(RotateIfDue(n.(state := NextBlock(n, env)), id, env), id, env.now)
  }

  function SealMessages(seal: Seal): seq<ParsedMessage> {
    seq(|seal.votes|, i requires 0 <= i < |seal.votes| => FromPbftMessage(seal.votes[i].message))
  }

  function Max(a: nat, b: nat): nat {
    if a < b then b else a
  }

  function Catchup(n: Node, block: Block, seal: Seal, env: Env): (r: Reply)
    requires n.state.Sound() && env.Valid() && |seal.votes| > 0
    ensures r.node.state.Sound()
  {
    match n.state.workingBlock
    case None => Reply(n, Err(NoWorkingBlock))
    case Some(working) =>
      if block.blockNum != working.blockNum + 1 || block.previousId != working.blockId then
        Reply(n, Err(BlockMismatch(PbftBlockFromBlock(block), working)))
      else
        var ms := SealMessages(seal);
        var view := Max(n.state.view, ms[0].View());
        var n1 := n.(state := n.state.(view := view), log := AddMessages(n.log, ms, view));
        var added := AddMessagesOutcome(n.log, ms, view);
        if added.Err? then Reply(n1, added)
        else
          var id := ms[0].Block().blockId;
          Reply(OnBlockCommit(CommitNow(n1.(state := n1.state.(phase := Committing)), id), id, env), Ok)
  }

  function BlockNewMessage(n: Node, block: Block): ParsedMessage {
    FromPbftMessage(PbftMessage(BlockNew, n.state.view, block.blockNum, n.state.id, PbftBlockFromBlock(block)))
  }

  /** A verified block is logged with its seal, if it carries one. */
  function LogBlock(n: Node, block: Block, seal: Option<Seal>): Node {
    var log := match seal
      case Some(seal) => n.log.AddConsensusSeal(block.blockId, n.state.seqNum, seal)
      case None => n.log;
    n.(log := log.AddMessage(BlockNewMessage(n, block), n.state.view))
  }

  function AdoptBlock(n: Node, block: Block, env: Env): (r: Reply)
    requires n.state.Sound() && env.Valid()
    ensures r.node.state.Sound()
  {
    var pbftBlock := PbftBlockFromBlock(block);
    var n1 := n.(state := n.state.(workingBlock := Some(pbftBlock)));
    if n.state.IsPrimary() && n.state.ExpectedType() == PrePrepare then
      var w := OwnMessage(n1, PrePrepare, n.state.seqNum, pbftBlock);
      OnPrePrepare(n1.Call(Broadcast(w)), SelfMessage(w), env)
    else Reply(n1, Ok)
  }

  function OnBlockNew(n: Node, block: Block, env: Env): (r: Reply)
    requires n.state.Sound() && env.Valid()
    ensures r.node.state.Sound()
  {
    if block.blockNum < n.state.seqNum then Reply(n, Ok)
    else match VerifyConsensusSeal(n, block, env)
      case Failure(e) =>
        var r := ProposeViewChange(n.Call(FailBlock(block.blockId)), env);
        Reply(r.node, if r.result.Err? then r.result else Err(e))
      case Success(seal) =>
        var n1 := LogBlock(n, block, seal);
        if block.blockNum == n.state.seqNum + 1 && n.state.phase != Finished then
          VerifiedSealHasVotes(n, block, env);
          Catchup(n1, block, seal.value, env)
        else if block.blockNum == n.state.seqNum then AdoptBlock(n1, block, env)
        else Reply(n1, Ok)
  }

  function OnBlockValid(n: Node, id: BlockId, env: Env): (r: Reply)
    requires n.state.Sound() && env.Valid()
    ensures r.node.state.Sound()
  {
    match n.state.workingBlock
    case None => Reply(n, Err(NoWorkingBlock))
    case Some(block) =>
      if block.blockId != id then Reply(n, Err(NotReadyForMessage))
      else
        var n1 := n.(state := n.state.SwitchPhase(Committing));
        if n1.state.ExpectedType() == Commit then
          var w := OwnMessage(n1, Commit, n.state.seqNum, block);
          OnCommit(n1.Call(Broadcast(w)), SelfMessage(w), env)
        else Reply(n1, Ok)
  }

  // ---------- Periodic work ----------

  /** `summary` is the validator's summary of the block under construction, if it has one. */
  function TryPublish(n: Node, summary: Option<string>, env: Env): (r: Reply)
    requires n.state.Sound() && env.Valid()
    ensures r.node.state.Sound()
  {
    if !n.state.IsPrimary() || n.state.phase != PrePreparing || summary.None? then Reply(n, Ok)
    else if n.state.seqNum <= 1 then Reply(n.Call(FinalizeBlock(Empty)), Ok)
    else match BuildSeal(n, summary.value, env)
      case Failure(e) => Reply(n, Err(e))
      case Success(seal) => Reply(n.Call(FinalizeBlock(Sealed(seal))), Ok)
  }

  /** Engine, on the working ticker: publish, then look at the faulty-primary timer. */
  function WorkingTick(n: Node, summary: Option<string>, env: Env): (r: Node)
    requires n.state.Sound() && env.Valid()
    ensures r.state.Sound()
  {
    var n1 := TryPublish(n, summary, env).node;
    var n2 := n1.(state := n1.state.(timeout := n1.state.timeout.Checked(env.now)));
    if n2.state.timeout.state == Expired then ProposeViewChange(n2, env).node else n2
  }

  function RetryBacklog(n: Node, env: Env): (r: Reply)
    requires n.state.Sound() && env.Valid()
    ensures r.node.state.Sound()
  {
    if n.log.backlog == [] then Reply(n, Ok)
    else OnPeerMessage(n.(log := n.log.(backlog := n.log.backlog[1..])), n.log.backlog[0], env)
  }

  // ---------- One step of the engine ----------

  datatype Event =
    | UpdateBlockNew(block: Block)
    | UpdateBlockValid(validId: BlockId)
    | UpdateBlockInvalid(invalidId: BlockId)
    | UpdateBlockCommit(committedId: BlockId)
    | UpdatePeerMessage(header: Header, message: Wrapper, senderId: PeerId)
    | UpdateOther
    | TickWorking(summary: Option<string>)
    | TickBacklog

  /** The event of this message coming from its signer. */
  function Deliver(m: ParsedMessage): Event {
    UpdatePeerMessage(m.header, m.message, m.SignerId())
  }

  /** The message an event delivers to the node, whether new or from the backlog. */
  function MessageOf(n: Node, ev: Event): Option<ParsedMessage> {
    match ev
    case UpdatePeerMessage(header, message, sender) =>
      var m := ParsedMessage(header, message, false);
      if m.SignerId() == sender then Some(m) else None
    case TickBacklog => if n.log.backlog == [] then None else Some(n.log.backlog[0])
    case _ => None
  }

  function Step(n: Node, ev: Event, env: Env): (r: Node)
    requires n.state.Sound() && env.Valid()
    ensures r.state.Sound()
  {
    match ev
    case UpdateBlockNew(block) => OnBlockNew(n, block, env).node
    case UpdateBlockValid(id) => OnBlockValid(n, id, env).node
    case UpdateBlockInvalid(id) => ProposeViewChange(n, env).node
    case UpdateBlockCommit(id) => OnBlockCommit(n, id, env)
    case UpdatePeerMessage(header, message, sender) =>
      var m := ParsedMessage(header, message, false);
      if m.SignerId() != sender then n else OnPeerMessage(n, m, env).node
    case UpdateOther => n
    case TickWorking(summary) => WorkingTick(n, summary, env)
    case TickBacklog => RetryBacklog(n, env).node
  }

  // ---------- Facts the definitions above rest on ----------

  lemma EnoughMessagesAreSome(msgs: set<ParsedMessage>, t: MessageType, s: nat, minimum: nat)
    ensures GetEnoughMessages(msgs, t, s, minimum).Some? ==>
              && GetEnoughMessages(msgs, t, s, minimum).value != {}
              && |GetEnoughMessages(msgs, t, s, minimum).value| > 0
  {
    var views := EnoughViews(msgs, t, s, minimum);
    if views != {} {
      var v := Highest(views);
      var m :| m in msgs && m.Type() == t && m.SeqNum() == s && !m.fromSelf && m.View() == v;
      assert m in Group(msgs, t, s, v);
    }
  }

  lemma VerifiedSealHasVotes(n: Node, block: Block, env: Env)
    requires n.state.Sound() && block.blockNum >= 2 && VerifyConsensusSeal(n, block, env).Success?
    ensures VerifyConsensusSeal(n, block, env).value.Some?
    ensures |VerifyConsensusSeal(n, block, env).value.value.votes| > 0
  {
    var seal := VerifyConsensusSeal(n, block, env).value.value;
    assert |seal.votes| == 0 ==> VoterIds(seal) == {};
  }
}
