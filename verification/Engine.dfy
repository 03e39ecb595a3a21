/** The engine's dispatch of validator updates and its two tickers. */
module Engine {
  import opened Types
  import opened State
  import opened Protocol
  import opened NodeInPlace
  import opened Runs

  datatype TickerValue = TickerValue(last: int, timeout: int)
  {
    predicate Due(now: int) {
      now - last >= timeout
    }

    /** The ticker after its turn at `now`, with its work, if due, done at `done`. */
    function Ticked(now: int, done: int): TickerValue {
      if Due(now) then this.(last := done) else this
    }
  }

  class Ticker {
    var last: int
    const timeout: int

    function Value(): TickerValue
      reads this
    {
      TickerValue(last, timeout)
    }

    constructor (period: int, now: int)
      ensures Value() == TickerValue(now, period)
    {
      last := now;
      timeout := period;
    }

    method Restart(now: int)
      modifies this
      ensures Value() == TickerValue(now, timeout)
    {
      last := now;
    }
  }

  /** One arm of the update dispatch, or one ticker callback. Errors are only logged. */
  method Handle(node: PbftNode, ev: Event, state: PbftState, env: Env)
    requires state.Value().Sound() && env.Valid()
    modifies state, state.timeout, node.log, node.service
    ensures node.Value(state) == Step(old(node.Value(state)), ev, env)
  {
    match ev {
      case UpdateBlockNew(block) => var _ := node.OnBlockNew(block, state, env);
      case UpdateBlockValid(id) => var _ := node.OnBlockValid(id, state, env);
      case UpdateBlockInvalid(_) => var _ := node.ProposeViewChange(state, env);
      case UpdateBlockCommit(id) => node.OnBlockCommit(id, state, env);
      case UpdatePeerMessage(header, message, sender) =>
        var m := ParsedMessage(header, message, false);
        if m.SignerId() == sender {
          var _ := node.OnPeerMessage(m, state, env);
        }
      case UpdateOther =>
      case TickWorking(summary) =>
        var _ := node.TryPublish(summary, state, env);
        var expired := state.timeout.CheckExpired(env.now);
        if expired {
          var _ := node.ProposeViewChange(state, env);
        }
      case TickBacklog => var _ := node.RetryBacklog(state, env);
    }
  }

  // ---------- The event loop ----------

  /** What the update channel yields: an update, nothing in time, or the end. */
  datatype Incoming = Received(ev: Event) | Nothing | Closed

  /** One turn of the loop, with what each of its parts takes from outside, and the clock as each
      ticker's work is done. */
  datatype Turn = Turn(incoming: Incoming, onUpdate: Env, summary: Option<string>, onWorking: Env, workingDone: int, onBacklog: Env, backlogDone: int)
  {
    ghost predicate Valid() {
      onUpdate.Valid() && onWorking.Valid() && onBacklog.Valid()
    }
  }

  /** An event with what it takes from outside. */
  datatype Occurrence = Occurrence(ev: Event, env: Env)

  ghost function Occurrences(t: Trace): seq<Occurrence>
    requires |t.events| == |t.envs|
  {
    seq(|t.events|, i requires 0 <= i < |t.events| => Occurrence(t.events[i], t.envs[i]))
  }

  /** What a turn brings about, in order: the update, the working tick, the backlog tick. */
  ghost function TurnOccurrences(turn: Turn, workingDue: bool, backlogDue: bool): seq<Occurrence> {
    if turn.incoming.Closed? then [] else
      (if turn.incoming.Received? then [Occurrence(turn.incoming.ev, turn.onUpdate)] else [])
      + (if workingDue then [Occurrence(TickWorking(turn.summary), turn.onWorking)] else [])
      + (if backlogDue then [Occurrence(TickBacklog, turn.onBacklog)] else [])
  }

  /** What all turns bring about, up to the one in which the channel closes. */
  ghost function LoopOccurrences(turns: seq<Turn>, working: TickerValue, backlog: TickerValue): seq<Occurrence> {
    if turns == [] || turns[0].incoming.Closed? then []
    else
      var w, b := turns[0].onWorking.now, turns[0].onBacklog.now;
      TurnOccurrences(turns[0], working.Due(w), backlog.Due(b)) + LoopOccurrences(turns[1..], working.Ticked(w, turns[0].workingDone), backlog.Ticked(b, turns[0].backlogDone))
  }

  lemma LoopContinues(done: seq<Occurrence>, turns: seq<Turn>, k: nat, working: TickerValue, backlog: TickerValue)
    requires k < |turns| && !turns[k].incoming.Closed?
    ensures var w, b := turns[k].onWorking.now, turns[k].onBacklog.now;
            done + LoopOccurrences(turns[k..], working, backlog)
            == done + TurnOccurrences(turns[k], working.Due(w), backlog.Due(b)) + LoopOccurrences(turns[k + 1..], working.Ticked(w, turns[k].workingDone), backlog.Ticked(b, turns[k].backlogDone))
  {
    assert turns[k..][0] == turns[k] && turns[k..][1..] == turns[k + 1..];
  }

  lemma LoopEnds(turns: seq<Turn>, k: nat, working: TickerValue, backlog: TickerValue)
    requires k <= |turns| && (k < |turns| ==> turns[k].incoming.Closed?)
    ensures LoopOccurrences(turns[k..], working, backlog) == []
  {
  }

  // ---------- When the tickers fall ----------

  /** The clock at a ticker's turn, and as its work, if it had any, was done. */
  datatype Beat = Beat(now: int, done: int)

  ghost function WorkingBeats(turns: seq<Turn>): seq<Beat> {
    seq(|turns|, i requires 0 <= i < |turns| => Beat(turns[i].onWorking.now, turns[i].workingDone))
  }

  ghost function BacklogBeats(turns: seq<Turn>): seq<Beat> {
    seq(|turns|, i requires 0 <= i < |turns| => Beat(turns[i].onBacklog.now, turns[i].backlogDone))
  }

  /** The ticker after these turns. */
  ghost function After(w: TickerValue, beats: seq<Beat>): TickerValue
    decreases beats
  {
    if beats == [] then w else After(w.Ticked(beats[0].now, beats[0].done), beats[1..])
  }

  ghost predicate TicksAt(w: TickerValue, beats: seq<Beat>, k: nat)
    requires k < |beats|
  {
    After(w, beats[..k]).Due(beats[k].now)
  }

  lemma {:induction false} AfterOneMore(w: TickerValue, beats: seq<Beat>, k: nat)
    requires k < |beats|
    ensures After(w, beats[..k + 1]) == After(w, beats[..k]).Ticked(beats[k].now, beats[k].done)
    decreases beats
  {
    if k == 0 {
      assert beats[..1][1..] == [] && beats[..0] == [];
    } else {
      AfterOneMore(w.Ticked(beats[0].now, beats[0].done), beats[1..], k - 1);
      assert beats[..k + 1][1..] == beats[1..][..k] && beats[..k][1..] == beats[1..][..k - 1];
    }
  }

  /** The ticker keeps the reading of its last work. */
  lemma {:induction false} LastWork(w: TickerValue, beats: seq<Beat>, i: nat, k: nat)
    requires i < k <= |beats| && TicksAt(w, beats, i) && forall j :: i < j < k ==> !TicksAt(w, beats, j)
    ensures After(w, beats[..k]) == TickerValue(beats[i].done, w.timeout)
    decreases k
  {
    PeriodKept(w, beats[..i]);
    AfterOneMore(w, beats, k - 1);
    if i < k - 1 {
      LastWork(w, beats, i, k - 1);
      assert !TicksAt(w, beats, k - 1);
    }
  }

  lemma {:induction false} PeriodKept(w: TickerValue, beats: seq<Beat>)
    ensures After(w, beats).timeout == w.timeout
    decreases beats
  {
    if beats != [] {
      PeriodKept(w.Ticked(beats[0].now, beats[0].done), beats[1..]);
    }
  }

  lemma {:induction false} NoWorkYet(w: TickerValue, beats: seq<Beat>, k: nat)
    requires k <= |beats| && forall j :: 0 <= j < k ==> !TicksAt(w, beats, j)
    ensures After(w, beats[..k]) == w
  {
    if k > 0 {
      NoWorkYet(w, beats, k - 1);
      assert !TicksAt(w, beats, k - 1);
      AfterOneMore(w, beats, k - 1);
    }
  }

  /** A ticker works at a turn exactly if a whole period has passed since its last work was done, or
      since it was set up if it has not worked yet. */
  lemma TicksExactly(w: TickerValue, beats: seq<Beat>, i: nat, k: nat)
    requires k < |beats|
    ensures (forall j :: 0 <= j < k ==> !TicksAt(w, beats, j)) ==> (TicksAt(w, beats, k) <==> beats[k].now - w.last >= w.timeout)
    ensures i < k && TicksAt(w, beats, i) && (forall j :: i < j < k ==> !TicksAt(w, beats, j)) ==>
              (TicksAt(w, beats, k) <==> beats[k].now - beats[i].done >= w.timeout)
  {
    if forall j :: 0 <= j < k ==> !TicksAt(w, beats, j) {
      NoWorkYet(w, beats, k);
    }
    if i < k && TicksAt(w, beats, i) && forall j :: i < j < k ==> !TicksAt(w, beats, j) {
      LastWork(w, beats, i, k);
    }
  }

  /** In the event loop each turn has its update and the work of the tickers that fall then. */
  lemma {:induction false} LoopTurnByTurn(turns: seq<Turn>, working: TickerValue, backlog: TickerValue, k: nat)
    requires k < |turns| && forall j :: 0 <= j <= k ==> !turns[j].incoming.Closed?
    ensures LoopOccurrences(turns[..k + 1], working, backlog)
            == LoopOccurrences(turns[..k], working, backlog)
               + TurnOccurrences(turns[k], TicksAt(working, WorkingBeats(turns), k), TicksAt(backlog, BacklogBeats(turns), k))
    decreases turns
  {
    if k == 0 {
      FirstTurn(turns, working, backlog);
    } else {
      var w := working.Ticked(turns[0].onWorking.now, turns[0].workingDone);
      var b := backlog.Ticked(turns[0].onBacklog.now, turns[0].backlogDone);
      LoopTurnByTurn(turns[1..], w, b, k - 1);
      SameTurnInTail(turns, working, backlog, k);
      LoopUnfolds(turns, working, backlog, k);
      LoopUnfolds(turns, working, backlog, k + 1);
      Prepended(TurnOccurrences(turns[0], working.Due(turns[0].onWorking.now), backlog.Due(turns[0].onBacklog.now)),
                LoopOccurrences(turns[1..][..k - 1], w, b), LoopOccurrences(turns[1..][..k], w, b),
                TurnOccurrences(turns[1..][k - 1], TicksAt(w, WorkingBeats(turns[1..]), k - 1), TicksAt(b, BacklogBeats(turns[1..]), k - 1)));
    }
  }

  lemma Prepended(first: seq<Occurrence>, some: seq<Occurrence>, more: seq<Occurrence>, last: seq<Occurrence>)
    requires more == some + last
    ensures first + more == first + some + last
  {
  }

  lemma SameTurnInTail(turns: seq<Turn>, working: TickerValue, backlog: TickerValue, k: nat)
    requires 0 < k < |turns|
    ensures var w := working.Ticked(turns[0].onWorking.now, turns[0].workingDone);
            var b := backlog.Ticked(turns[0].onBacklog.now, turns[0].backlogDone);
            TurnOccurrences(turns[k], TicksAt(working, WorkingBeats(turns), k), TicksAt(backlog, BacklogBeats(turns), k))
            == TurnOccurrences(turns[1..][k - 1], TicksAt(w, WorkingBeats(turns[1..]), k - 1), TicksAt(b, BacklogBeats(turns[1..]), k - 1))
  {
    TicksAfterOne(working, WorkingBeats(turns), k);
    TicksAfterOne(backlog, BacklogBeats(turns), k);
    assert WorkingBeats(turns)[1..] == WorkingBeats(turns[1..]) && BacklogBeats(turns)[1..] == BacklogBeats(turns[1..]);
  }

  lemma FirstTurn(turns: seq<Turn>, working: TickerValue, backlog: TickerValue)
    requires turns != [] && !turns[0].incoming.Closed?
    ensures LoopOccurrences(turns[..1], working, backlog)
            == LoopOccurrences(turns[..0], working, backlog)
               + TurnOccurrences(turns[0], TicksAt(working, WorkingBeats(turns), 0), TicksAt(backlog, BacklogBeats(turns), 0))
  {
    assert turns[..1][1..] == [] && turns[..0] == [];
    assert WorkingBeats(turns)[..0] == [] && BacklogBeats(turns)[..0] == [];
  }

  lemma TicksAfterOne(w: TickerValue, beats: seq<Beat>, k: nat)
    requires 0 < k < |beats|
    ensures TicksAt(w, beats, k) <==> TicksAt(w.Ticked(beats[0].now, beats[0].done), beats[1..], k - 1)
  {
    assert beats[..k][1..] == beats[1..][..k - 1];
  }

  lemma LoopUnfolds(turns: seq<Turn>, working: TickerValue, backlog: TickerValue, k: nat)
    requires 0 < k <= |turns| && !turns[0].incoming.Closed?
    ensures var w, b := turns[0].onWorking.now, turns[0].onBacklog.now;
            LoopOccurrences(turns[..k], working, backlog)
            == TurnOccurrences(turns[0], working.Due(w), backlog.Due(b))
               + LoopOccurrences(turns[1..][..k - 1], working.Ticked(w, turns[0].workingDone), backlog.Ticked(b, turns[0].backlogDone))
  {
    assert turns[..k][1..] == turns[1..][..k - 1];
  }

  /** `u` is the run `t` with one more event, at the node it leads to. */
  ghost predicate Extends(t: Trace, ev: Event, env: Env, u: Trace)
    requires t.Valid()
  {
    && u.Valid() && u.nodes[0] == t.nodes[0]
    && Occurrences(u) == Occurrences(t) + [Occurrence(ev, env)]
  }

  lemma ExtendedRun(t: Trace, ev: Event, env: Env, n: Node)
    requires t.Valid() && env.Valid() && n == Step(t.nodes[|t.nodes| - 1], ev, env)
    ensures Extends(t, ev, env, Trace(t.nodes + [n], t.events + [ev], t.envs + [env]))
  {
    RunExtends(t, ev, env);
  }

  /** Sets up a node at the head of the chain and starts its timer. */
  method Start(id: PeerId, headBlockNum: nat, peers: seq<PeerId>, timeout: int, period: nat, maxLogSize: nat, now: int)
    returns (node: PbftNode, state: PbftState)
    requires |peers| >= 4 && period > 0
    ensures fresh(node) && fresh(node.log) && fresh(node.service) && fresh(state) && fresh(state.timeout)
    ensures node.Value(state) == InitialNode(id, headBlockNum, peers, timeout, period, maxLogSize, now)
  {
    state := new PbftState(id, headBlockNum, peers, timeout, period, now);
    node := new PbftNode(maxLogSize, state.role == Primary);
    state.timeout.Start(now);
  }

  /** Handles one event and records it. */
  method Record(node: PbftNode, ev: Event, state: PbftState, env: Env, ghost t: Trace) returns (ghost u: Trace)
    requires env.Valid() && t.Valid() && t.nodes[|t.nodes| - 1] == node.Value(state)
    modifies state, state.timeout, node.log, node.service
    ensures Extends(t, ev, env, u) && u.nodes[|u.nodes| - 1] == node.Value(state)
  {
    Handle(node, ev, state, env);
    ExtendedRun(t, ev, env, node.Value(state));
    u := Trace(t.nodes + [node.Value(state)], t.events + [ev], t.envs + [env]);
  }

  /** Each ticker's work, if it is due; a ticker restarts once its work is done. */
  method RunTickers(node: PbftNode, state: PbftState, working: Ticker, backlog: Ticker, turn: Turn, ghost t: Trace) returns (ghost u: Trace)
    requires working != backlog && turn.Valid() && t.Valid() && t.nodes[|t.nodes| - 1] == node.Value(state)
    modifies state, state.timeout, node.log, node.service, working, backlog
    ensures u.Valid() && u.nodes[|u.nodes| - 1] == node.Value(state) && u.nodes[0] == t.nodes[0]
    ensures Occurrences(u) == Occurrences(t)
                              + (if old(working.Value()).Due(turn.onWorking.now) then [Occurrence(TickWorking(turn.summary), turn.onWorking)] else [])
                              + (if old(backlog.Value()).Due(turn.onBacklog.now) then [Occurrence(TickBacklog, turn.onBacklog)] else [])
    ensures working.Value() == old(working.Value()).Ticked(turn.onWorking.now, turn.workingDone)
    ensures backlog.Value() == old(backlog.Value()).Ticked(turn.onBacklog.now, turn.backlogDone)
  {
    u := t;
    if turn.onWorking.now - working.last >= working.timeout {
      u := Record(node, TickWorking(turn.summary), state, turn.onWorking, u);
      working.Restart(turn.workingDone);
    }
    if turn.onBacklog.now - backlog.last >= backlog.timeout {
      u := Record(node, TickBacklog, state, turn.onBacklog, u);
      backlog.Restart(turn.backlogDone);
    }
  }

  /** The update of a turn, if one came in time. */
  method TakeUpdate(node: PbftNode, state: PbftState, turn: Turn, ghost t: Trace) returns (ghost u: Trace)
    requires turn.Valid() && t.Valid() && t.nodes[|t.nodes| - 1] == node.Value(state)
    modifies state, state.timeout, node.log, node.service
    ensures u.Valid() && u.nodes[|u.nodes| - 1] == node.Value(state) && u.nodes[0] == t.nodes[0]
    ensures Occurrences(u) == Occurrences(t) + if turn.incoming.Received? then [Occurrence(turn.incoming.ev, turn.onUpdate)] else []
  {
    u := t;
    if turn.incoming.Received? {
      u := Record(node, turn.incoming.ev, state, turn.onUpdate, u);
    }
  }

  /** One turn: the update, then each ticker's work if it is due. `more` tells whether to go on. */
  method TakeTurn(node: PbftNode, state: PbftState, working: Ticker, backlog: Ticker, turn: Turn, ghost t: Trace) returns (more: bool, ghost u: Trace)
    requires working != backlog && turn.Valid() && t.Valid() && t.nodes[|t.nodes| - 1] == node.Value(state)
    modifies state, state.timeout, node.log, node.service, working, backlog
    ensures u.Valid() && u.nodes[|u.nodes| - 1] == node.Value(state) && u.nodes[0] == t.nodes[0]
    ensures Occurrences(u) == Occurrences(t)
                              + TurnOccurrences(turn, old(working.Value()).Due(turn.onWorking.now), old(backlog.Value()).Due(turn.onBacklog.now))
    ensures more <==> !turn.incoming.Closed?
    ensures more ==> working.Value() == old(working.Value()).Ticked(turn.onWorking.now, turn.workingDone)
    ensures more ==> backlog.Value() == old(backlog.Value()).Ticked(turn.onBacklog.now, turn.backlogDone)
  {
    if turn.incoming.Closed? {
      return false, t;
    }
    u := TakeUpdate(node, state, turn, t);
    u := RunTickers(node, state, working, backlog, turn, u);
    more := true;
  }

  /** The event loop, until the channel closes or the turns given are used up: whatever arrives
      and however the tickers fall, the node goes through a run of steps, one for each update
      received and each tick due, in order. */
  method EventLoop(node: PbftNode, state: PbftState, working: Ticker, backlog: Ticker, turns: seq<Turn>) returns (ghost t: Trace)
    requires Fresh(node.Value(state)) && working != backlog
    requires forall k :: 0 <= k < |turns| ==> turns[k].Valid()
    modifies state, state.timeout, node.log, node.service, working, backlog
    ensures t.Valid() && t.nodes[0] == old(node.Value(state)) && t.nodes[|t.nodes| - 1] == node.Value(state)
    ensures Occurrences(t) == LoopOccurrences(turns, old(working.Value()), old(backlog.Value()))
  {
    FreshNodeIs(node.Value(state));
    t := Trace([node.Value(state)], [], []);
    ghost var all := LoopOccurrences(turns, working.Value(), backlog.Value());
    assert turns[0..] == turns;
    for k := 0 to |turns|
      invariant t.Valid() && t.nodes[0] == old(node.Value(state)) && t.nodes[|t.nodes| - 1] == node.Value(state)
      invariant Occurrences(t) + LoopOccurrences(turns[k..], working.Value(), backlog.Value()) == all
    {
      ghost var done, w, b := Occurrences(t), working.Value(), backlog.Value();
      var more;
      more, t := TakeTurn(node, state, working, backlog, turns[k], t);
      if !more {
        LoopEnds(turns, k, w, b);
        return;
      }
      LoopContinues(done, turns, k, w, b);
    }
    LoopEnds(turns, |turns|, working.Value(), backlog.Value());
  }
}
