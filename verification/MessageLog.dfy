/** The message log: quorum predicates over a set of messages, the backlog queue, the
    stored seals and garbage collection. */
module MessageLog {
  import opened Types

  datatype SealEntry = SealEntry(blockId: BlockId, seqNum: nat, seal: Seal)

  // ---------- Queries over the logged messages ----------

  function OfTypeSeq(msgs: set<ParsedMessage>, t: MessageType, s: nat): set<ParsedMessage> {
    set m | m in msgs && m.Type() == t && m.SeqNum() == s
  }

  function OfTypeSeqView(msgs: set<ParsedMessage>, t: MessageType, s: nat, v: nat): set<ParsedMessage> {
    set m | m in msgs && m.At(t, s, v)
  }

  /** The logged votes of one type at one sequence number and view, for one block. */
  function VotesFor(msgs: set<ParsedMessage>, t: MessageType, s: nat, v: nat, b: PbftBlock): set<ParsedMessage> {
    set m | m in msgs && m.VotesFor(t, s, v, b)
  }

  function GetOneMsg(msgs: set<ParsedMessage>, t: MessageType, s: nat, v: nat, env: Env): (r: Option<ParsedMessage>)
    requires env.Valid()
    ensures r.Some? ==> r.value in msgs && r.value.At(t, s, v)
    ensures r.None? <==> forall m :: m in msgs ==> !m.At(t, s, v)
  {
    var found := OfTypeSeqView(msgs, t, s, v);
    var r := env.First(found);
    assert r.None? ==> forall m :: m in msgs && m.At(t, s, v) ==> m in found;
    r
  }

  predicate LogHasRequiredMsgs(msgs: set<ParsedMessage>, t: MessageType, ref: ParsedMessage, checkBlock: bool, required: nat)
    requires checkBlock ==> ref.message.Message?
  {
    if checkBlock then
      |VotesFor(msgs, t, ref.SeqNum(), ref.View(), ref.Block())| >= required
    else
      |OfTypeSeqView(msgs, t, ref.SeqNum(), ref.View())| >= required
  }

  predicate CheckPrepared(msgs: set<ParsedMessage>, s: nat, v: nat, f: nat, env: Env)
    requires env.Valid()
  {
    match GetOneMsg(msgs, PrePrepare, s, v, env)
    case Some(pp) => LogHasRequiredMsgs(msgs, Prepare, pp, true, 2 * f + 1)
    case None => false
  }

  predicate CheckCommittable(msgs: set<ParsedMessage>, s: nat, v: nat, f: nat, env: Env)
    requires env.Valid()
  {
    && CheckPrepared(msgs, s, v, f, env)
    && LogHasRequiredMsgs(msgs, Commit, GetOneMsg(msgs, PrePrepare, s, v, env).value, true, 2 * f + 1)
  }

  /** The non-self messages of one type, sequence number and view. */
  function Group(msgs: set<ParsedMessage>, t: MessageType, s: nat, v: nat): set<ParsedMessage> {
    set m | m in msgs && m.At(t, s, v) && !m.fromSelf
  }

  /** The views whose group holds at least `minimum` messages. */
  function EnoughViews(msgs: set<ParsedMessage>, t: MessageType, s: nat, minimum: nat): set<nat> {
    set m | m in msgs && m.Type() == t && m.SeqNum() == s && !m.fromSelf && |Group(msgs, t, s, m.View())| >= minimum :: m.View()
  }

  lemma HasMaximum(s: set<nat>)
    requires s != {}
    ensures exists v :: v in s && forall u :: u in s ==> u <= v
  {
    var v :| v in s;
    if s == {v} {
    } else {
      HasMaximum(s - {v});
      var w :| w in s - {v} && forall u :: u in s - {v} ==> u <= w;
      var x := if v < w then w else v;
      assert x in s && forall u :: u in s ==> u <= x by {
        forall u | u in s ensures u <= x { if u != v { assert u in s - {v}; } }
      }
    }
  }

  function Highest(s: set<nat>): (v: nat)
    requires s != {}
    ensures v in s && forall u :: u in s ==> u <= v
  {
    HasMaximum(s);
    var v :| v in s && forall u :: u in s ==> u <= v;
    v
  }

  function GetEnoughMessages(msgs: set<ParsedMessage>, t: MessageType, s: nat, minimum: nat): Option<set<ParsedMessage>> {
    var views := EnoughViews(msgs, t, s, minimum);
    if views == {} then None else Some(Group(msgs, t, s, Highest(views)))
  }

  // ---------- The log as a value ----------

  lemma SingletonIsUnique<T>(s: set<T>)
    requires |s| == 1
    ensures exists e :: s == {e}
  {
    var e :| e in s;
    assert |s - {e}| == 0;
    assert s == {e};
  }

  function TheOnly(s: set<SealEntry>): (e: SealEntry)
    requires |s| == 1
    ensures s == {e}
  {
    SingletonIsUnique(s);
    var e :| e in s;
    e
  }

  datatype LogValue = LogValue(
    messages: set<ParsedMessage>,
    maxLogSize: nat,
    backlog: seq<ParsedMessage>,
    seals: set<SealEntry>)
  {
    /** Whether a message of another view than the node's is turned away. */
    predicate Refuses(m: ParsedMessage, view: nat) {
      m.Type() != ViewChange && m.View() != view
    }

    function AddMessage(m: ParsedMessage, view: nat): LogValue {
      if Refuses(m, view) then this else this.(messages := messages + {m})
    }

    function AddMessageOutcome(m: ParsedMessage, view: nat): Outcome {
      if Refuses(m, view) then Err(ViewMismatch(m.View(), view)) else Ok
    }

    function AddConsensusSeal(blockId: BlockId, seqNum: nat, seal: Seal): LogValue {
      this.(seals := seals + {SealEntry(blockId, seqNum, seal)})
    }

    function SealsAt(s: nat): set<SealEntry> {
      set e | e in seals && e.seqNum == s
    }

    function GetConsensusSeal(s: nat): Result<Seal> {
      var possible := SealsAt(s);
      if |possible| != 1 then Failure(WrongNumSeals(1, |possible|)) else Success(TheOnly(possible).seal)
    }

    function GarbageCollect(current: nat, blockId: BlockId): LogValue
      requires current >= 1
    {
      this.(messages := if |messages| >= maxLogSize then set m | m in messages && m.SeqNum() >= current - 1 else messages,
            seals := set e | e in seals && e.blockId == blockId)
    }

    function PushBacklog(m: ParsedMessage): LogValue {
      this.(backlog := backlog + [m])
    }
  }

  /** Messages are added in turn until one is refused; those before it stay. */
  function AddMessages(log: LogValue, ms: seq<ParsedMessage>, view: nat): LogValue
    decreases ms
  {
    if ms == [] || log.Refuses(ms[0], view) then log
    else AddMessages(log.AddMessage(ms[0], view), ms[1..], view)
  }

  function AddMessagesOutcome(log: LogValue, ms: seq<ParsedMessage>, view: nat): Outcome
    decreases ms
  {
    if ms == [] then Ok
    else if log.Refuses(ms[0], view) then log.AddMessageOutcome(ms[0], view)
    else AddMessagesOutcome(log.AddMessage(ms[0], view), ms[1..], view)
  }

  class PbftLog {
    var messages: set<ParsedMessage>
    const maxLogSize: nat
    var backlog: seq<ParsedMessage>
    var seals: set<SealEntry>

    function Value(): LogValue
      reads this
    {
      LogValue(messages, maxLogSize, backlog, seals)
    }

    constructor (maxLogSize: nat)
      ensures Value() == LogValue({}, maxLogSize, [], {})
    {
      messages := {};
      this.maxLogSize := maxLogSize;
      backlog := [];
      seals := {};
    }

    method AddMessage(msg: ParsedMessage, view: nat) returns (r: Outcome)
      modifies this
      ensures Value() == old(Value()).AddMessage(msg, view)
      ensures r == old(Value()).AddMessageOutcome(msg, view)
    {
      if msg.Type() != ViewChange && msg.View() != view {
        return Err(ViewMismatch(msg.View(), view));
      }
      messages := messages + {msg};
      return Ok;
    }

    method AddConsensusSeal(blockId: BlockId, seqNum: nat, seal: Seal)
      modifies this
      ensures Value() == old(Value()).AddConsensusSeal(blockId, seqNum, seal)
    {
      seals := seals + {SealEntry(blockId, seqNum, seal)};
    }

    method GarbageCollect(currentSeqNum: nat, blockId: BlockId)
      requires currentSeqNum >= 1
      modifies this
      ensures Value() == old(Value()).GarbageCollect(currentSeqNum, blockId)
    {
      if |messages| >= maxLogSize {
        messages := set m | m in messages && m.SeqNum() >= currentSeqNum - 1;
      }
      seals := set e | e in seals && e.blockId == blockId;
    }

    method PushBacklog(msg: ParsedMessage)
      modifies this
      ensures Value() == old(Value()).PushBacklog(msg)
    {
      backlog := backlog + [msg];
    }

    method PopBacklog() returns (msg: Option<ParsedMessage>)
      modifies this
      ensures old(backlog) == [] ==> msg == None && Value() == old(Value())
      ensures old(backlog) != [] ==> msg == Some(old(backlog)[0]) && Value() == old(Value()).(backlog := old(backlog)[1..])
    {
      if backlog == [] {
        msg := None;
      } else {
        msg := Some(backlog[0]);
        backlog := backlog[1..];
      }
    }
  }
}
