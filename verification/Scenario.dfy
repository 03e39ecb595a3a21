/** A cluster of four at work: peers b, c and d are correct, a is faulty. Runs of the whole cluster
    are put together here from the steps of its peers; `Rounds` and the runs after it stand on them. */
module Scenario {
  import opened Types
  import opened Protocol
  import opened Ledger
  import opened Provenance
  import opened Commits
  import opened Seals
  import opened Retention
  import opened Runs
  import opened Progress
  import opened Network
  import opened Agreement

  // ---------- Peers ----------

  const A := PeerId("a")
  const B := PeerId("b")
  const C := PeerId("c")
  const D := PeerId("d")
  const FOUR := [A, B, C, D]
  const SIGNED := Header("h", "s")

  lemma PeersDiffer()
    ensures A != B && A != C && A != D && B != C && B != D && C != D
    ensures forall p :: p in FOUR <==> p in {A, B, C, D}
    ensures FOUR[0] == A && FOUR[1] == B && FOUR[2] == C && FOUR[3] == D
  {
    assert A.key[0] == 'a' && B.key[0] == 'b' && C.key[0] == 'c' && D.key[0] == 'd';
  }

  ghost function Listing(s: set<ParsedMessage>): (q: seq<ParsedMessage>)
    ensures Enumerates(q, s)
  {
    if s == {} then [] else
      var m :| m in s;
      [m] + Listing(s - {m})
  }

  /** An environment with these peers throughout, in which every signed vote is authentic and no
      unsigned one. */
  ghost function PlainEnv(peers: seq<PeerId>): (env: Env)
    requires |peers| >= 4
    ensures env.Valid()
  {
    Env((s: set<ParsedMessage>) => Listing(s), (v: SignedVote) => v.header != UNSIGNED, _ => peers, 0)
  }

  // ---------- Blocks ----------

  /** The id of block `k`: as long as its number. */
  function IdOf(k: nat): (id: BlockId)
    ensures |id.hash| == k
  {
    BlockId(seq(k, _ => 'i'))
  }

  function Sum(k: nat): PbftBlock {
    PbftBlock(IdOf(k), if k < 3 then A else C, k, "")
  }

  function VoteOn(k: nat, view: nat, p: PeerId): SignedVote {
    SignedVote(SIGNED, PbftMessage(Commit, view, k, p, Sum(k)))
  }

  /** The seal for block `k`: of c and d for the first, of d and a for the others; the third block
      is voted for in view 2. */
  function SealFor(k: nat): Seal {
    if k == 1 then Seal(IdOf(1), "", [VoteOn(1, 0, C), VoteOn(1, 0, D)])
    else Seal(IdOf(k), "", [VoteOn(k, if k == 3 then 2 else 0, D), VoteOn(k, if k == 3 then 2 else 0, A)])
  }

  function BlockAt(k: nat): Block
    requires k >= 1
  {
    Block(IdOf(k), IdOf(k - 1), Sum(k).signerId, k, if k == 1 then Empty else Sealed(SealFor(k - 1)), "")
  }

  /** Another block of the same number, on the same one before it. */
  function RivalAt(k: nat): Block
    requires k >= 1
  {
    BlockAt(k).(blockId := BlockId(seq(k, _ => 'x')))
  }

  function RivalSum(k: nat): PbftBlock
    requires k >= 1
  {
    PbftBlockFromBlock(RivalAt(k))
  }

  ghost function Chain(): BlockId -> Block {
    (id: BlockId) => if |id.hash| == 0 then BlockAt(1) else if id.hash[0] == 'x' then RivalAt(|id.hash|) else BlockAt(|id.hash|)
  }

  lemma OnChain(k: nat)
    requires k >= 1
    ensures Chain()(IdOf(k)) == BlockAt(k) && PbftBlockFromBlock(BlockAt(k)) == Sum(k)
    ensures Chain()(RivalAt(k).blockId) == RivalAt(k) && RivalAt(k).blockId != IdOf(k)
  {
    assert IdOf(k).hash[0] == 'i' && RivalAt(k).blockId.hash[0] == 'x';
  }

  lemma SealVotes(k: nat)
    ensures forall v :: v in SealFor(k).votes <==> v == SealFor(k).votes[0] || v == SealFor(k).votes[1]
  {
  }

  lemma BlockVerifies(n: Node, k: nat)
    requires n.state.f == 1 && k >= 1
    ensures VerifyConsensusSeal(n, BlockAt(k), PlainEnv(FOUR)) == Success(if k == 1 then None else Some(SealFor(k - 1)))
    ensures SealOfCommits(BlockAt(k))
  {
    PeersDiffer();
    if k >= 2 {
      SealVotes(k - 1);
      assert VoterIds(SealFor(k - 1)) == {SealFor(k - 1).votes[0].message.signerId, SealFor(k - 1).votes[1].message.signerId};
    }
  }

  // ---------- Runs of the cluster ----------

  ghost function Four(): (c: Cluster)
    ensures c.Valid()
  {
    PeersDiffer();
    var c := Cluster(FOUR, {A}, 1, Chain());
    assert c.Members() == {A, B, C, D};
    c
  }

  function Signed(w: Wrapper): ParsedMessage {
    ParsedMessage(SIGNED, w, false)
  }

  /** Everything that correct nodes have sent is on the network, besides what the faulty one put there. */
  ghost function NetOf(bad: set<ParsedMessage>, nodes: map<PeerId, Node>): set<ParsedMessage> {
    bad + set p, x | p in nodes && x in nodes[p].calls && x.Broadcast? :: Signed(x.message)
  }

  ghost function Scene(bad: set<ParsedMessage>, nodes: map<PeerId, Node>): System {
    System(nodes, NetOf(bad, nodes))
  }

  ghost predicate ByFaulty(bad: set<ParsedMessage>) {
    forall m :: m in bad ==> m.SignerId() == A && !m.fromSelf
  }

  ghost predicate SignsOwn(n: Node) {
    forall w :: Broadcast(w) in n.calls ==> SelfMessage(w).SignerId() == n.state.id
  }

  /** A correct node in the middle of a run. */
  ghost predicate Actor(p: PeerId, n: Node) {
    && n.state.Sound() && n.state.id == p && n.state.peerIds == FOUR && n.state.f == 1
    && NodeInv(n) && SignsOwn(n) && SealsGenuine(n, Chain()) && Reachable(n)
  }

  ghost predicate Actors(nodes: map<PeerId, Node>) {
    nodes.Keys == {B, C, D} && forall p {:trigger Actor(p, nodes[p])} :: p in nodes ==> Actor(p, nodes[p])
  }

  /** The run ends here; it keeps to one copy of each vote if the faulty peer does. */
  ghost predicate Ends(h: History, bad: set<ParsedMessage>, nodes: map<PeerId, Node>) {
    && h.Free(Four()) && h.Vetted(Four()) && (OneCopyEach(bad) ==> h.Valid(Four()))
    && h.states[|h.moves|] == Scene(bad, nodes)
  }

  ghost predicate LastStep(h: History, bad: set<ParsedMessage>, nodes: map<PeerId, Node>, nodes': map<PeerId, Node>) {
    Ends(h, bad, nodes') && |h.moves| > 0 && h.states[|h.moves| - 1] == Scene(bad, nodes)
  }

  ghost predicate Stage(bad: set<ParsedMessage>, nodes: map<PeerId, Node>) {
    ByFaulty(bad) && Actors(nodes) && exists h :: Ends(h, bad, nodes)
  }

  /** What may happen next at `p`. */
  ghost predicate MayAct(bad: set<ParsedMessage>, nodes: map<PeerId, Node>, p: PeerId, ev: Event) {
    && p in nodes && WellSealed(ev) && Genuine(ev, Chain()) && ValidNamesPrePrepared(nodes[p], ev)
    && (ev.UpdateBlockNew? ==> SealHonest(Scene(bad, nodes), ev.block))
    && (ev.UpdatePeerMessage? ==>
          var m := ParsedMessage(ev.header, ev.message, false);
          m in NetOf(bad, nodes) && m.SignerId() != p)
  }

  lemma OnNet(bad: set<ParsedMessage>, nodes: map<PeerId, Node>, m: ParsedMessage)
    requires m in NetOf(bad, nodes) && m !in bad && Actors(nodes)
    ensures m == Signed(m.message) && m.SignerId() in nodes && Broadcast(m.message) in nodes[m.SignerId()].calls
  {
    var p :| p in nodes && Broadcast(m.message) in nodes[p].calls && m == Signed(m.message);
    assert Actor(p, nodes[p]) && SelfMessage(m.message).SignerId() == p;
  }

  lemma SentIsOnNet(bad: set<ParsedMessage>, nodes: map<PeerId, Node>, p: PeerId, w: Wrapper)
    requires p in nodes && Broadcast(w) in nodes[p].calls
    ensures Signed(w) in NetOf(bad, nodes)
  {
    var x := Broadcast(w);
    assert x in nodes[p].calls && x.Broadcast?;
  }

  lemma OwnVotesDiffer(n: Node, v: Wrapper, w: Wrapper)
    requires ViewChangesSettled(n) && SignsOwn(n) && Broadcast(v) in n.calls && Broadcast(w) in n.calls && SameVote(Signed(v), Signed(w))
    ensures v == w
  {
    if v.ViewChangeMessage? {
      assert w.ViewChangeMessage?;
    }
  }

  /** A network of such messages holds one copy of each vote. */
  lemma OneCopyOnNet(bad: set<ParsedMessage>, nodes: map<PeerId, Node>)
    requires ByFaulty(bad) && OneCopyEach(bad) && Actors(nodes)
    ensures OneCopyEach(NetOf(bad, nodes))
  {
    PeersDiffer();
    forall m, k | m in NetOf(bad, nodes) && k in NetOf(bad, nodes) && SameVote(m, k) ensures m == k {
      if m !in bad {
        OnNet(bad, nodes, m);
        OnNet(bad, nodes, k);
        assert Actor(m.SignerId(), nodes[m.SignerId()]);
        OwnVotesDiffer(nodes[m.SignerId()], m.message, k.message);
      } else if k !in bad {
        OnNet(bad, nodes, k);
        assert false;
      }
    }
  }

  lemma SignsOwnStep(n: Node, ev: Event, env: Env)
    requires n.state.Sound() && env.Valid() && WellSealed(ev) && SignsOwn(n)
    ensures SignsOwn(Step(n, ev, env)) && Step(n, ev, env).state.id == n.state.id && n.calls <= Step(n, ev, env).calls
  {
    EffectOfStep(n, ev, env);
    SignsOwnAfter(n, ev, Step(n, ev, env));
  }

  lemma SignsOwnAfter(n: Node, ev: Event, n': Node)
    requires StepEffect(n, ev, n') && SignsOwn(n)
    ensures SignsOwn(n')
  {
    forall w | Broadcast(w) in n'.calls ensures SelfMessage(w).SignerId() == n.state.id {
      assert Broadcast(w) in n.calls || MaySend(n, ev, w);
    }
  }

  lemma SamePeers(n: Node, ev: Event)
    requires n.state.Sound() && WellSealed(ev) && n.state.peerIds == FOUR
    ensures Step(n, ev, PlainEnv(FOUR)).state.peerIds == FOUR && Step(n, ev, PlainEnv(FOUR)).state.f == 1
  {
    PeersKept(n, ev, PlainEnv(FOUR));
  }

  lemma ActorActs(p: PeerId, n: Node, ev: Event)
    requires Actor(p, n) && WellSealed(ev) && Genuine(ev, Chain())
    ensures Actor(p, Step(n, ev, PlainEnv(FOUR))) && n.calls <= Step(n, ev, PlainEnv(FOUR)).calls
  {
    var env := PlainEnv(FOUR);
    SamePeers(n, ev);
    SignsOwnStep(n, ev, env);
    NodeInvStep(n, ev, env);
    SealsGenuineStep(n, ev, env, Chain());
    StepIsReachable(n, ev, env);
  }

  lemma RunGoesOn(h: History, move: Move, s': System)
    requires h.Free(Four()) && h.Vetted(Four()) && MovesFreely(Four(), h.states[|h.moves|], move, s') && Network.Vetted(Four(), h.states[|h.moves|], move)
    ensures var u := History(h.states + [s'], h.moves + [move]);
            && u.Free(Four()) && u.Vetted(Four())
            && (h.Valid(Four()) && OneCopyEach(s'.net) ==> u.Valid(Four()))
  {
    var u := History(h.states + [s'], h.moves + [move]);
    forall k | 0 <= k < |u.moves| ensures u.MovesFreelyAt(Four(), k) && u.VettedAt(Four(), k) {
      if k < |h.moves| {
        assert h.MovesFreelyAt(Four(), k) && h.VettedAt(Four(), k);
        assert u.states[k] == h.states[k] && u.states[k + 1] == h.states[k + 1];
      }
    }
    if h.Valid(Four()) && OneCopyEach(s'.net) {
      forall k | 0 <= k < |u.moves| ensures u.MovesAt(Four(), k) {
        assert u.MovesFreelyAt(Four(), k);
        if k < |h.moves| {
          assert h.MovesAt(Four(), k);
          assert u.states[k + 1] == h.states[k + 1];
        }
      }
    }
  }

  lemma SceneMoves(bad: set<ParsedMessage>, nodes: map<PeerId, Node>, p: PeerId, ev: Event, n': Node)
    requires p in nodes && nodes[p].state.Sound() && MayAct(bad, nodes, p, ev) && n' == Step(nodes[p], ev, PlainEnv(FOUR))
    requires nodes[p].calls <= n'.calls && SignsOwn(n') && n'.state.id == p
    ensures MovesFreely(Four(), Scene(bad, nodes), NodeMove(p, ev, PlainEnv(FOUR)), Scene(bad, nodes[p := n']))
    ensures Network.Vetted(Four(), Scene(bad, nodes), NodeMove(p, ev, PlainEnv(FOUR)))
  {
    NetGrows(bad, nodes, p, n');
    assert forall b :: PlainEnv(FOUR).peersAt(b) == FOUR;
  }

  lemma NetGrows(bad: set<ParsedMessage>, nodes: map<PeerId, Node>, p: PeerId, n': Node)
    requires p in nodes && nodes[p].calls <= n'.calls && SignsOwn(n') && n'.state.id == p
    ensures NetOf(bad, nodes) <= NetOf(bad, nodes[p := n'])
    ensures forall m :: m in NetOf(bad, nodes[p := n']) && m !in NetOf(bad, nodes) ==> !m.fromSelf && m.SignerId() == p && Broadcast(m.message) in n'.calls
  {
    var nodes' := nodes[p := n'];
    forall m | m in NetOf(bad, nodes) ensures m in NetOf(bad, nodes') {
      if m !in bad {
        var q :| q in nodes && Broadcast(m.message) in nodes[q].calls && m == Signed(m.message);
        SentIsOnNet(bad, nodes', q, m.message);
      }
    }
    forall m | m in NetOf(bad, nodes') && m !in NetOf(bad, nodes) ensures !m.fromSelf && m.SignerId() == p && Broadcast(m.message) in n'.calls {
      var q :| q in nodes' && Broadcast(m.message) in nodes'[q].calls && m == Signed(m.message);
      if q != p {
        SentIsOnNet(bad, nodes, q, m.message);
      }
      assert SelfMessage(m.message).SignerId() == p;
    }
  }

  lemma EndsNext(before: History, bad: set<ParsedMessage>, nodes: map<PeerId, Node>, move: Move, nodes': map<PeerId, Node>) returns (h: History)
    requires Ends(before, bad, nodes) && MovesFreely(Four(), Scene(bad, nodes), move, Scene(bad, nodes')) && Network.Vetted(Four(), Scene(bad, nodes), move)
    requires OneCopyEach(bad) ==> OneCopyEach(NetOf(bad, nodes'))
    ensures LastStep(h, bad, nodes, nodes')
  {
    RunGoesOn(before, move, Scene(bad, nodes'));
    h := History(before.states + [Scene(bad, nodes')], before.moves + [move]);
    assert h.states[|h.moves|] == Scene(bad, nodes');
  }

  lemma StayActors(nodes: map<PeerId, Node>, p: PeerId, n': Node)
    requires p in nodes && Actor(p, n') && Actors(nodes)
    ensures Actors(nodes[p := n'])
  {
    var nodes' := nodes[p := n'];
    forall q | q in nodes' ensures Actor(q, nodes'[q]) {
      assert q != p ==> Actor(q, nodes[q]);
    }
  }

  /** What is known of every correct peer. */
  ghost predicate Known(p: PeerId, n: Node) {
    && n.state.Sound() && n.state.id == p && n.state.peerIds == FOUR && n.state.f == 1
    && PrePreparesAgree(n.log.messages) && SignsOwn(n) && SealsGenuine(n, Chain()) && Reachable(n)
  }

  lemma StageNode(bad: set<ParsedMessage>, nodes: map<PeerId, Node>, p: PeerId)
    requires Stage(bad, nodes) && p in nodes
    ensures Known(p, nodes[p]) && nodes.Keys == {B, C, D}
  {
    assert Actor(p, nodes[p]);
  }

  /** One more step of one of the correct peers. */
  lemma Act(bad: set<ParsedMessage>, nodes: map<PeerId, Node>, p: PeerId, n: Node, ev: Event) returns (nodes': map<PeerId, Node>)
    requires Stage(bad, nodes) && MayAct(bad, nodes, p, ev) && nodes[p] == n && n.state.Sound()
    ensures nodes' == nodes[p := Step(n, ev, PlainEnv(FOUR))] && Stage(bad, nodes') && n.calls <= nodes'[p].calls
  {
    var h;
    nodes', h := ActInRun(bad, nodes, p, n, ev);
  }

  lemma ActInRun(bad: set<ParsedMessage>, nodes: map<PeerId, Node>, p: PeerId, n: Node, ev: Event) returns (nodes': map<PeerId, Node>, h: History)
    requires Stage(bad, nodes) && MayAct(bad, nodes, p, ev) && nodes[p] == n && n.state.Sound()
    ensures nodes' == nodes[p := Step(n, ev, PlainEnv(FOUR))] && Stage(bad, nodes') && n.calls <= nodes'[p].calls
    ensures LastStep(h, bad, nodes, nodes')
  {
    assert Actor(p, nodes[p]);
    ActorActs(p, n, ev);
    SceneMoves(bad, nodes, p, ev, Step(n, ev, PlainEnv(FOUR)));
    StayActors(nodes, p, Step(n, ev, PlainEnv(FOUR)));
    nodes' := nodes[p := Step(n, ev, PlainEnv(FOUR))];
    h := ActWith(bad, nodes, NodeMove(p, ev, PlainEnv(FOUR)), nodes');
  }

  lemma ActWith(bad: set<ParsedMessage>, nodes: map<PeerId, Node>, move: Move, nodes': map<PeerId, Node>) returns (h: History)
    requires Stage(bad, nodes) && Actors(nodes')
    requires MovesFreely(Four(), Scene(bad, nodes), move, Scene(bad, nodes')) && Network.Vetted(Four(), Scene(bad, nodes), move)
    ensures Stage(bad, nodes') && LastStep(h, bad, nodes, nodes')
  {
    if OneCopyEach(bad) {
      OneCopyOnNet(bad, nodes');
    }
    var before :| Ends(before, bad, nodes);
    h := EndsNext(before, bad, nodes, move, nodes');
  }

  ghost function Newcomer(p: PeerId): Node {
    InitialNode(p, 0, FOUR, 4000, 3, 1000, 0)
  }

  ghost function Newcomers(): map<PeerId, Node> {
    map p | p in {B, C, D} :: Newcomer(p)
  }

  lemma NewcomerIs(p: PeerId)
    ensures Fresh(Newcomer(p)) && Newcomer(p).state.id == p && Newcomer(p).state.peerIds == FOUR && forall w :: Broadcast(w) !in Newcomer(p).calls
  {
    FreshNodeIs(Newcomer(p));
  }

  lemma NewcomerActs(p: PeerId)
    ensures Actor(p, Newcomer(p))
  {
    NewcomerIs(p);
    FreshNodeIs(Newcomer(p));
    FreshNodeInv(Newcomer(p));
    FreshIsReachable(Newcomer(p));
  }

  /** The run begins, and the faulty peer puts all it will ever send on the network. */
  lemma Opening(bad: set<ParsedMessage>)
    requires ByFaulty(bad)
    ensures Stage(bad, Newcomers())
  {
    NewcomersAct();
    NewcomersAreSilent(bad);
    NewcomersAreSilent({});
    var h0 := FirstScene();
    var h := FaultyActs(h0, bad);
  }

  lemma NewcomersAct()
    ensures Actors(Newcomers())
  {
    forall p | p in Newcomers() ensures Actor(p, Newcomers()[p]) {
      NewcomerActs(p);
    }
  }

  lemma CorrectPeers()
    ensures forall p :: Four().Correct(p) <==> p in {B, C, D}
  {
    PeersDiffer();
  }

  lemma NewcomersStart()
    ensures Starts(Four(), System(Newcomers(), {}))
  {
    CorrectPeers();
    forall p | p in Newcomers() ensures Fresh(Newcomers()[p]) && Newcomers()[p].state.id == p && Newcomers()[p].state.peerIds == FOUR {
      NewcomerIs(p);
    }
  }

  lemma NewcomersAreSilent(bad: set<ParsedMessage>)
    ensures NetOf(bad, Newcomers()) == bad
  {
    forall p, w | p in Newcomers() ensures Broadcast(w) !in Newcomers()[p].calls {
      NewcomerIs(p);
    }
  }

  lemma FirstScene() returns (h: History)
    ensures Ends(h, {}, Newcomers())
  {
    NewcomersStart();
    NewcomersAreSilent({});
    h := History([Scene({}, Newcomers())], []);
  }

  lemma FaultyActs(before: History, bad: set<ParsedMessage>) returns (h: History)
    requires Ends(before, {}, Newcomers()) && ByFaulty(bad) && NetOf(bad, Newcomers()) == bad && NetOf({}, Newcomers()) == {}
    ensures Ends(h, bad, Newcomers())
  {
    RunGoesOn(before, FaultyMove, Scene(bad, Newcomers()));
    h := History(before.states + [Scene(bad, Newcomers())], before.moves + [FaultyMove]);
    assert h.states[|h.moves|] == Scene(bad, Newcomers());
  }

  lemma Overwrite(nodes: map<PeerId, Node>, p: PeerId, n: Node, n': Node)
    ensures nodes[p := n][p := n'] == nodes[p := n']
    ensures p in nodes ==> nodes[p := nodes[p]] == nodes
  {
  }

  lemma DeliveryIs(n: Node, m: ParsedMessage, env: Env)
    requires n.state.Sound() && env.Valid() && !m.fromSelf
    ensures Step(n, Deliver(m), env) == OnPeerMessage(n, m, env).node
  {
    assert ParsedMessage(m.header, m.message, false) == m;
  }

  /** A message on the network arrives at the peer. */
  lemma Arrives(bad: set<ParsedMessage>, nodes: map<PeerId, Node>, p: PeerId, n: Node, m: ParsedMessage)
    requires Stage(bad, nodes) && p in nodes && nodes[p] == n && n.state.Sound() && Audible(bad, nodes, p, [m])
    ensures var n' := OnPeerMessage(n, m, PlainEnv(FOUR)).node; Stage(bad, nodes[p := n']) && n.calls <= n'.calls
  {
    assert m in [m] && ParsedMessage(m.header, m.message, false) == m;
    DeliveryIs(n, m, PlainEnv(FOUR));
    var nodes' := Act(bad, nodes, p, n, Deliver(m));
  }

  /** The peer hears messages that are on the network. */
  lemma {:induction false} Listen(bad: set<ParsedMessage>, nodes: map<PeerId, Node>, p: PeerId, n: Node, ms: seq<ParsedMessage>)
    requires Stage(bad, nodes) && p in nodes && nodes[p] == n && n.state.Sound() && Audible(bad, nodes, p, ms)
    ensures var n' := Hear(n, ms, PlainEnv(FOUR)); Stage(bad, nodes[p := n']) && n.calls <= n'.calls
    decreases ms
  {
    Overwrite(nodes, p, n, n);
    if ms != [] {
      var n1 := OnPeerMessage(n, ms[0], PlainEnv(FOUR)).node;
      Arrives(bad, nodes, p, n, ms[0]);
      StageNode(bad, nodes[p := n1], p);
      StillAudible(bad, nodes, p, n1, ms);
      Listen(bad, nodes[p := n1], p, n1, ms[1..]);
      Overwrite(nodes, p, n1, Hear(n1, ms[1..], PlainEnv(FOUR)));
    }
  }

  ghost predicate Audible(bad: set<ParsedMessage>, nodes: map<PeerId, Node>, p: PeerId, ms: seq<ParsedMessage>) {
    forall m :: m in ms ==> m in NetOf(bad, nodes) && m.SignerId() != p && !m.fromSelf
  }

  lemma StillAudible(bad: set<ParsedMessage>, nodes: map<PeerId, Node>, p: PeerId, n': Node, ms: seq<ParsedMessage>)
    requires p in nodes && nodes[p].calls <= n'.calls && SignsOwn(n') && n'.state.id == p && Audible(bad, nodes, p, ms)
    ensures Audible(bad, nodes[p := n'], p, ms) && (ms != [] ==> Audible(bad, nodes[p := n'], p, ms[1..]))
  {
    NetGrows(bad, nodes, p, n');
  }

  // ---------- What such a run shows ----------

  /** A correct peer at some point of a run of a cluster within its fault bound. */
  ghost predicate Shown(c: Cluster, h: History, k: nat, p: PeerId) {
    h.Valid(c) && h.Vetted(c) && k < |h.states| && p in h.states[k].nodes
  }

  /** A step of a correct peer in such a run. */
  ghost predicate ShownStep(c: Cluster, h: History, k: nat, p: PeerId) {
    Shown(c, h, k, p) && Shown(c, h, k + 1, p)
  }

  /** The step of a peer, shown in a run. */
  lemma StepIsShown(bad: set<ParsedMessage>, nodes: map<PeerId, Node>, p: PeerId, n: Node, ev: Event) returns (h: History, k: nat)
    requires Stage(bad, nodes) && OneCopyEach(bad) && MayAct(bad, nodes, p, ev) && nodes[p] == n && n.state.Sound()
    ensures ShownStep(Four(), h, k, p) && h.states[k].nodes[p] == n && h.states[k + 1].nodes[p] == Step(n, ev, PlainEnv(FOUR))
  {
    var nodes';
    nodes', h := ActInRun(bad, nodes, p, n, ev);
    k := EndIsShown(h, bad, nodes, nodes', p);
  }

  lemma EndIsShown(h: History, bad: set<ParsedMessage>, nodes: map<PeerId, Node>, nodes': map<PeerId, Node>, p: PeerId) returns (k: nat)
    requires LastStep(h, bad, nodes, nodes') && OneCopyEach(bad) && p in nodes && p in nodes'
    ensures ShownStep(Four(), h, k, p) && h.states[k].nodes == nodes && h.states[k + 1].nodes == nodes'
  {
    k := |h.moves| - 1;
  }
}
