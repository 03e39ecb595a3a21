/** The handlers of src/handlers.rs, working in place on a node's state, log and validator
    connection. */
module Handlers {
  import opened Types
  import opened State
  import opened MessageLog
  import opened Protocol

  /** The connection to the validator, as the list of calls made on it. */
  class Service {
    var calls: seq<ServiceCall>

    constructor ()
      ensures calls == []
    {
      calls := [];
    }

    method Call(c: ServiceCall)
      modifies this
      ensures calls == old(calls) + [c]
    {
      calls := calls + [c];
    }
  }

  ghost function Value(state: PbftState, log: PbftLog, service: Service): Node
    reads state, state.timeout, log, service
  {
    Node(state.Value(), log.Value(), service.calls)
  }

  method PrePrepareHandler(state: PbftState, log: PbftLog, m: ParsedMessage, env: Env, ghost service: Service) returns (r: Outcome)
    requires state.Value().Sound() && env.Valid() && m.Type() == PrePrepare
    modifies state, state.timeout, log
    ensures Reply(Value(state, log, service), r) == AcceptPrePrepare(old(Value(state, log, service)), m, env)
  {
    if m.SignerId() != state.peerIds[state.view % |state.peerIds|] {
      return Err(NotFromPrimary);
    }
    var blockNews := OfTypeSeq(log.messages, BlockNew, m.SeqNum());
    var announced := exists bn :: bn in blockNews && bn.Block() == m.Block();
    assert announced <==> HasBlockNew(log.messages, m.SeqNum(), m.Block());
    if !announced {
      return Err(NoBlockNew);
    }
    var existing := GetOneMsg(log.messages, PrePrepare, m.SeqNum(), m.View(), env);
    if existing.Some? && existing.value.Block() != m.Block() {
      return Err(BlockMismatch(existing.value.Block(), m.Block()));
    }
    r := log.AddMessage(m, state.view);
    if r.Err? {
      return;
    }
    if m.SeqNum() == state.seqNum {
      var _ := state.SwitchPhase(Preparing);
      state.timeout.Stop(env.now);
    }
    return Ok;
  }

  method CommitHandler(state: PbftState, service: Service, id: BlockId, ghost log: PbftLog) returns (r: Outcome)
    modifies state, service
    ensures r == Ok && Value(state, log, service) == CommitNow(old(Value(state, log, service)), id)
  {
    service.Call(CommitBlock(id, state.view, state.seqNum));
    var _ := state.SwitchPhase(Finished);
    return Ok;
  }

  method BecomePrimary(state: PbftState, service: Service)
    modifies state, service
    ensures state.Value() == old(state.Value()).(role := Primary)
    ensures service.calls == old(service.calls)
                             + (if state.workingBlock.Some? then [IgnoreBlock(state.workingBlock.value.blockId)] else [])
                             + [InitializeBlock(None)]
  {
    state.UpgradeRole();
    if state.workingBlock.Some? {
      service.Call(IgnoreBlock(state.workingBlock.value.blockId));
    }
    service.Call(InitializeBlock(None));
  }

  method AdoptRole(state: PbftState, service: Service, ghost log: PbftLog)
    requires |state.peerIds| > 0
    modifies state, service
    ensures Value(state, log, service) == TakeRole(old(Value(state, log, service)))
  {
    if state.id == state.peerIds[state.view % |state.peerIds|] {
      BecomePrimary(state, service);
    } else {
      state.DowngradeRole();
    }
  }

  method ViewChangeInPlace(state: PbftState, log: PbftLog, service: Service, m: ParsedMessage, env: Env) returns (r: Outcome)
    requires state.Value().Sound() && env.Valid()
    modifies state, state.timeout, service
    ensures r == Ok && Value(state, log, service) == ViewChangeHandler(old(Value(state, log, service)), m, env)
  {
    if !LogHasRequiredMsgs(log.messages, ViewChange, m, false, 2 * state.f + 1) {
      return Ok;
    }
    state.view := m.View();
    AdoptRole(state, service, log);
    state.DiscardCurrentBlock(env.now);
    return Ok;
  }

  method ForceViewChangeInPlace(state: PbftState, service: Service, ghost log: PbftLog)
    requires state.Value().Sound()
    modifies state, service
    ensures Value(state, log, service) == ForceViewChange(old(Value(state, log, service)))
  {
    state.view := state.view + 1;
    AdoptRole(state, service, log);
  }
}
