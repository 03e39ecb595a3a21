/** A node's consensus state: its value with the transitions on it, and the mutable record. */
module State {
  import opened Types
  import opened Timing

  datatype Role = Primary | Secondary

  datatype Phase = PrePreparing | Preparing | Checking | Committing | Finished
  {
    function Next(): Phase {
      match this
      case PrePreparing => Preparing
      case Preparing => Checking
      case Checking => Committing
      case Committing => Finished
      case Finished => PrePreparing
    }

    /** The type of message a node sends in this phase. */
    function MessageType(): MessageType {
      match this
      case PrePreparing => PrePrepare
      case Preparing => Prepare
      case Checking => Prepare
      case Committing => Commit
      case Finished => Unset
    }
  }

  datatype Mode = Normal | ViewChanging

  function MaxFaulty(peers: seq<PeerId>): nat
    requires |peers| >= 1
  {
    (|peers| - 1) / 3
  }

  datatype StateValue = StateValue(
    id: PeerId,
    seqNum: nat,
    view: nat,
    phase: Phase,
    role: Role,
    mode: Mode,
    peerIds: seq<PeerId>,
    f: nat,
    timeout: TimeoutValue,
    forcedViewChangePeriod: nat,
    workingBlock: Option<PbftBlock>)
  {
    /** The range in which no arithmetic or indexing of the engine can panic. */
    predicate Sound() {
      && seqNum >= 1
      && |peerIds| >= 4
      && f == MaxFaulty(peerIds)
      && forcedViewChangePeriod > 0
    }

    function ExpectedType(): MessageType {
      phase.MessageType()
    }

    function PrimaryAt(v: nat): PeerId
      requires |peerIds| > 0
    {
      peerIds[v % |peerIds|]
    }

    function PrimaryId(): PeerId
      requires |peerIds| > 0
    {
      PrimaryAt(view)
    }

    predicate IsPrimary() {
      role == Primary
    }

    function SwitchPhase(p: Phase): StateValue {
      if phase.Next() == p then this.(phase := p) else this
    }

    predicate AtForcedViewChange()
      requires forcedViewChangePeriod > 0
    {
      seqNum > 0 && seqNum % forcedViewChangePeriod == 0
    }

    function DiscardCurrentBlock(now: int): StateValue {
      this.(workingBlock := None, phase := PrePreparing, mode := Normal, timeout := timeout.Started(now))
    }

    /** The role agrees with the rotation: primary exactly at peer `view mod n`. */
    predicate RoleMatches()
      requires |peerIds| > 0
    {
      IsPrimary() <==> id == PrimaryId()
    }
  }

  function InitialState(id: PeerId, headBlockNum: nat, peers: seq<PeerId>, timeout: int, period: nat, now: int): (s: StateValue)
    requires |peers| >= 4 && period > 0
    ensures s.Sound() && s.RoleMatches()
  {
    StateValue(id, headBlockNum + 1, 0, PrePreparing, if peers[0] == id then Primary else Secondary, Normal,
               peers, MaxFaulty(peers), TimeoutValue(Inactive, timeout, now), period, None)
  }

  class PbftState {
    const id: PeerId
    var seqNum: nat
    var view: nat
    var phase: Phase
    var role: Role
    var mode: Mode
    var peerIds: seq<PeerId>
    var f: nat
    const timeout: Timeout
    const forcedViewChangePeriod: nat
    var workingBlock: Option<PbftBlock>

    ghost function Value(): StateValue
      reads this, timeout
    {
      StateValue(id, seqNum, view, phase, role, mode, peerIds, f, timeout.Value(), forcedViewChangePeriod, workingBlock)
    }

    /** A network that is too small is refused, as the source does by panicking. */
    constructor (id: PeerId, headBlockNum: nat, peers: seq<PeerId>, timeoutDuration: int, period: nat, now: int)
      requires |peers| >= 4 && period > 0
      ensures Value() == InitialState(id, headBlockNum, peers, timeoutDuration, period, now)
      ensures fresh(timeout)
    {
      this.id := id;
      seqNum := headBlockNum + 1;
      view := 0;
      phase := PrePreparing;
      role := if peers[0] == id then Primary else Secondary;
      mode := Normal;
      peerIds := peers;
      f := (|peers| - 1) / 3;
      timeout := new Timeout(timeoutDuration, now);
      forcedViewChangePeriod := period;
      workingBlock := None;
    }

    method UpgradeRole()
      modifies this
      ensures Value() == old(Value()).(role := Primary)
    {
      role := Primary;
    }

    method DowngradeRole()
      modifies this
      ensures Value() == old(Value()).(role := Secondary)
    {
      role := Secondary;
    }

    /** Only the successor of the current phase is accepted. */
    method SwitchPhase(desired: Phase) returns (changed: Option<Phase>)
      modifies this
      ensures Value() == old(Value()).SwitchPhase(desired)
      ensures changed == if old(phase).Next() == desired then Some(desired) else None
    {
      var next;
      match phase {
        case PrePreparing => next := Preparing;
        case Preparing => next := Checking;
        case Checking => next := Committing;
        case Committing => next := Finished;
        case Finished => next := PrePreparing;
      }
      if desired == next {
        phase := desired;
        changed := Some(desired);
      } else {
        changed := None;
      }
    }

    method DiscardCurrentBlock(now: int)
      modifies this, timeout
      ensures Value() == old(Value()).DiscardCurrentBlock(now)
    {
      workingBlock := None;
      phase := PrePreparing;
      mode := Normal;
      timeout.Start(now);
    }
  }
}
