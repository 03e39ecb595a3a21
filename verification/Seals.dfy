/** Consensus seals: what a built seal holds, when it verifies elsewhere, that the votes for
    the next seal survive each commit, and which seal a node keeps for a view change. */
module Seals {
  import opened Types
  import opened State
  import opened MessageLog
  import opened Protocol
  import opened Ledger
  import opened Quorums
  import opened Ladder
  import opened Provenance
  import opened Commits

  ghost function Image<A, B>(s: set<A>, f: A -> B): set<B> {
    set a | a in s :: f(a)
  }

  lemma {:induction false} InjectiveImage<A, B>(s: set<A>, f: A -> B)
    requires forall a, b :: a in s && b in s && f(a) == f(b) ==> a == b
    ensures |Image(s, f)| == |s|
  {
    if s == {} {
      assert Image(s, f) == {};
    } else {
      var x :| x in s;
      InjectiveImage(s - {x}, f);
      assert f(x) !in Image(s - {x}, f);
      assert Image(s, f) == Image(s - {x}, f) + {f(x)};
    }
  }

  // ---------- Building and verifying ----------

  /** The Commits that a seal for the previous block is made from. */
  ghost function SealSource(n: Node, v: nat): set<ParsedMessage>
    requires n.state.Sound()
  {
    Group(n.log.messages, Commit, n.state.seqNum - 1, v)
  }

  /** The highest view whose non-self Commits for the previous block number at least 2f. */
  ghost predicate SealViewIs(n: Node, v: nat)
    requires n.state.Sound()
  {
    && |SealSource(n, v)| >= 2 * n.state.f
    && forall u: nat :: u > v ==> |SealSource(n, u)| < 2 * n.state.f
  }

  lemma EnoughViewsAre(msgs: set<ParsedMessage>, t: MessageType, s: nat, minimum: nat, v: nat)
    requires minimum > 0
    ensures v in EnoughViews(msgs, t, s, minimum) <==> |Group(msgs, t, s, v)| >= minimum
  {
    if |Group(msgs, t, s, v)| >= minimum {
      var m :| m in Group(msgs, t, s, v);
      assert m.View() == v && m in msgs;
    }
  }

  /** The seal holds exactly these messages as votes, each once, and names the block of one. */
  ghost predicate MadeFrom(seal: Seal, source: set<ParsedMessage>)
    requires forall m :: m in source ==> m.message.Message?
  {
    && |seal.votes| == |source|
    && (forall m :: m in source ==> SignedVoteOf(m) in seal.votes)
    && (forall x :: x in seal.votes ==> exists m :: m in source && x == SignedVoteOf(m))
    && (exists m :: m in source && seal.previousId == m.Block().blockId)
  }

  /** A seal is built exactly if some view has 2f non-self Commits for the previous block; it
      then holds exactly those of the highest such view, each once. */
  lemma BuiltSealHolds(n: Node, summary: string, env: Env)
    requires n.state.Sound() && env.Valid()
    ensures var r := BuildSeal(n, summary, env);
            && (r.Success? <==> exists v: nat :: |SealSource(n, v)| >= 2 * n.state.f)
            && (r.Success? ==> r.value.summary == summary && exists v: nat :: SealViewIs(n, v) && MadeFrom(r.value, SealSource(n, v)))
  {
    var msgs, s, minimum := n.log.messages, n.state.seqNum - 1, 2 * n.state.f;
    var views := EnoughViews(msgs, Commit, s, minimum);
    forall v: nat ensures v in views <==> |SealSource(n, v)| >= minimum {
      EnoughViewsAre(msgs, Commit, s, minimum, v);
    }
    if views == {} {
      forall v: nat ensures |SealSource(n, v)| < minimum {
        assert v !in views;
      }
    } else {
      var v := Highest(views);
      assert SealViewIs(n, v);
      var r := BuildSeal(n, summary, env);
      var source := SealSource(n, v);
      var ms := env.iter(source);
      assert Enumerates(ms, source) && r.value == SealFrom(ms, summary);
      VotesOfSeal(ms, summary);
      assert ms[0] in ms;
      assert MadeFrom(r.value, source);
    }
  }

  lemma VotesOfSeal(ms: seq<ParsedMessage>, summary: string)
    requires |ms| > 0 && forall m :: m in ms ==> m.message.Message?
    ensures |SealFrom(ms, summary).votes| == |ms|
    ensures forall m :: m in ms ==> SignedVoteOf(m) in SealFrom(ms, summary).votes
    ensures forall x :: x in SealFrom(ms, summary).votes ==> exists m :: m in ms && x == SignedVoteOf(m)
  {
    var votes := SealFrom(ms, summary).votes;
    forall m | m in ms ensures SignedVoteOf(m) in votes {
      var i :| 0 <= i < |ms| && ms[i] == m;
      assert votes[i] == SignedVoteOf(m);
    }
    forall x | x in votes ensures exists m :: m in ms && x == SignedVoteOf(m) {
      var i :| 0 <= i < |votes| && votes[i] == x;
      assert ms[i] in ms;
    }
  }

  /** The block that carries the seal fits it. */
  ghost predicate Carries(block: Block, seal: Seal) {
    && block.blockNum >= 2
    && block.payload == Sealed(seal)
    && block.previousId == seal.previousId
    && block.summary == seal.summary
  }

  ghost function Signers(ms: set<ParsedMessage>): set<PeerId> {
    set m | m in ms :: m.SignerId()
  }

  lemma VotersAreSigners(seal: Seal, source: set<ParsedMessage>)
    requires (forall m :: m in source ==> m.message.Message?) && MadeFrom(seal, source)
    ensures VoterIds(seal) == Signers(source)
  {
    forall p ensures p in VoterIds(seal) <==> p in Signers(source) {
      if p in VoterIds(seal) {
        var x :| x in seal.votes && x.message.signerId == p;
        var m :| m in source && x == SignedVoteOf(m);
        assert m.SignerId() == p;
      }
      if p in Signers(source) {
        var m :| m in source && m.SignerId() == p;
        assert SignedVoteOf(m) in seal.votes;
      }
    }
  }

  /** The Commits behind a seal agree on the block, are authentic, and come from at least 2f
      peers other than the publisher. */
  ghost predicate GoodSource(source: set<ParsedMessage>, block: Block, f: nat, env: Env)
    requires forall m :: m in source ==> m.message.Message?
  {
    && (forall m :: m in source ==> m.Block().blockId == block.previousId && env.authentic(SignedVoteOf(m)))
    && (forall p :: p in Signers(source) ==> p in env.peersAt(block.previousId) && p != block.signerId)
    && |Signers(source)| >= 2 * f
  }

  lemma VerifiesExactlyIfGood(seal: Seal, source: set<ParsedMessage>, k: Node, block: Block, env: Env)
    requires (forall m :: m in source ==> m.message.Message?) && MadeFrom(seal, source) && Carries(block, seal)
    ensures VerifyConsensusSeal(k, block, env).Success? <==> GoodSource(source, block, k.state.f, env)
    ensures VerifyConsensusSeal(k, block, env).Success? ==> VerifyConsensusSeal(k, block, env).value == Some(seal)
  {
    VotersAreSigners(seal, source);
    assert (forall x :: x in seal.votes ==> VoteVerifies(x, seal, env)) <==>
        (forall m :: m in source ==> VoteVerifies(SignedVoteOf(m), seal, env));
  }

  /** Round trip: a built seal, carried by its block to a node with the same fault bound, is
      returned by verification exactly if its Commits are good for that block. */
  lemma SealRoundTrip(n: Node, summary: string, env: Env, v: nat, k: Node, block: Block, env': Env)
    requires n.state.Sound() && env.Valid() && BuildSeal(n, summary, env).Success? && SealViewIs(n, v)
    requires Carries(block, BuildSeal(n, summary, env).value) && k.state.f == n.state.f
    ensures VerifyConsensusSeal(k, block, env') == Success(Some(BuildSeal(n, summary, env).value))
            <==> GoodSource(SealSource(n, v), block, n.state.f, env')
    ensures VerifyConsensusSeal(k, block, env').Success? ==> VerifyConsensusSeal(k, block, env').value == Some(BuildSeal(n, summary, env).value)
  {
    var seal := BuildSeal(n, summary, env).value;
    BuiltSealHolds(n, summary, env);
    var u: nat :| SealViewIs(n, u) && MadeFrom(seal, SealSource(n, u));
    assert u == v;
    VerifiesExactlyIfGood(seal, SealSource(n, v), k, block, env');
  }

  /** In particular a seal of Commits from distinct peers is accepted. */
  lemma DistinctVotersSuffice(n: Node, summary: string, env: Env, v: nat, k: Node, block: Block, env': Env)
    requires n.state.Sound() && env.Valid() && BuildSeal(n, summary, env).Success? && SealViewIs(n, v)
    requires Carries(block, BuildSeal(n, summary, env).value) && k.state.f == n.state.f
    requires forall m :: m in SealSource(n, v) ==>
      && m.Block().blockId == block.previousId && env'.authentic(SignedVoteOf(m))
      && m.SignerId() in env'.peersAt(block.previousId) && m.SignerId() != block.signerId
    requires forall m, l :: m in SealSource(n, v) && l in SealSource(n, v) && m.SignerId() == l.SignerId() ==> m == l
    ensures VerifyConsensusSeal(k, block, env') == Success(Some(BuildSeal(n, summary, env).value))
  {
    var source := SealSource(n, v);
    var signer := (m: ParsedMessage) => m.SignerId();
    InjectiveImage(source, signer);
    assert Signers(source) == Image(source, signer);
    assert GoodSource(source, block, n.state.f, env');
    SealRoundTrip(n, summary, env, v, k, block, env');
  }

  /** A block that the validator makes of what a node publishes: its number, its summary and the
      payload published. What it builds on is for the validator to say, not for the seal. */
  ghost predicate PublishedAs(n: Node, summary: string, env: Env, block: Block)
    requires n.state.Sound() && env.Valid()
  {
    && TryPublish(n, Some(summary), env).node.calls == n.calls + [FinalizeBlock(block.payload)]
    && block.blockNum == n.state.seqNum && block.summary == summary
  }

  /** From publisher to verifier: a block published, on whatever block, is accepted without a seal
      if it is block 1, and from block 2 on exactly if the Commits its seal was built from are
      good for it. */
  lemma PublishedBlockVerifies(n: Node, summary: string, env: Env, v: nat, k: Node, block: Block, env': Env)
    requires n.state.Sound() && env.Valid() && PublishedAs(n, summary, env, block)
    requires n.state.seqNum >= 2 ==> SealViewIs(n, v)
    ensures n.state.seqNum == 1 ==> block.payload == Empty && VerifyConsensusSeal(k, block, env') == Success(None)
    ensures n.state.seqNum >= 2 ==>
              && block.payload.Sealed?
              && (VerifyConsensusSeal(k, block, env') == Success(Some(block.payload.seal)) <==> GoodSource(SealSource(n, v), block, k.state.f, env'))
  {
    var n' := TryPublish(n, Some(summary), env).node;
    assert n'.calls[|n.calls|] == FinalizeBlock(block.payload);
    if n.state.seqNum >= 2 {
      BuiltSealHolds(n, summary, env);
      var seal := block.payload.seal;
      var u: nat :| SealViewIs(n, u) && MadeFrom(seal, SealSource(n, u));
      assert u == v;
      if block.previousId == seal.previousId {
        VerifiesExactlyIfGood(seal, SealSource(n, v), k, block, env');
      }
    }
  }

  // ---------- The votes for the next seal ----------

  /** Messages marked as the node's own carry its id and no header. */
  ghost predicate OwnMessagesMarked(n: Node) {
    && (forall m :: m in n.log.messages && m.fromSelf ==> m.header == UNSIGNED && m.SignerId() == n.state.id)
    && (forall m :: m in n.log.backlog && m.fromSelf ==> m.header == UNSIGNED && m.SignerId() == n.state.id)
  }

  lemma OwnMarkedStep(n: Node, ev: Event, env: Env)
    requires n.state.Sound() && env.Valid() && WellSealed(ev) && OwnMessagesMarked(n)
    ensures OwnMessagesMarked(Step(n, ev, env))
  {
    EffectOfStep(n, ev, env);
  }

  /** Of the votes for one block at most one is the node's own. */
  lemma NonSelfVotes(n: Node, s: nat, v: nat, b: PbftBlock)
    requires OwnMessagesMarked(n)
    ensures |Group(n.log.messages, Commit, s, v)| + 1 >= |VotesFor(n.log.messages, Commit, s, v, b)|
  {
    var own := SelfMessage(Message(PbftMessage(Commit, v, s, n.state.id, b)));
    var votes := VotesFor(n.log.messages, Commit, s, v, b);
    assert votes - {own} <= Group(n.log.messages, Commit, s, v);
    SubsetCardinality(votes - {own}, Group(n.log.messages, Commit, s, v));
  }

  /** In some view there are this many Commits of others for this sequence number. */
  ghost predicate EnoughCommits(msgs: set<ParsedMessage>, s: nat, needed: nat) {
    exists v: nat :: |Group(msgs, Commit, s, v)| >= needed
  }

  lemma FewerCommitsNeeded(msgs: set<ParsedMessage>, s: nat, needed: nat, fewer: nat)
    requires EnoughCommits(msgs, s, needed) && fewer <= needed
    ensures EnoughCommits(msgs, s, fewer)
  {
    var v: nat :| |Group(msgs, Commit, s, v)| >= needed;
    assert |Group(msgs, Commit, s, v)| >= fewer;
  }

  lemma SameCommits(msgs: set<ParsedMessage>, msgs': set<ParsedMessage>, s: nat, needed: nat)
    requires forall v: nat :: Group(msgs', Commit, s, v) == Group(msgs, Commit, s, v)
    ensures EnoughCommits(msgs', s, needed) <==> EnoughCommits(msgs, s, needed)
  {
  }

  /** 2f Commits of others for the previous block are at hand in some view. */
  ghost predicate SealReady(n: Node)
    requires n.state.Sound()
  {
    EnoughCommits(n.log.messages, n.state.seqNum - 1, 2 * n.state.f)
  }

  lemma SealReadyBuilds(n: Node, summary: string, env: Env)
    requires n.state.Sound() && env.Valid()
    ensures SealReady(n) <==> BuildSeal(n, summary, env).Success?
  {
    BuiltSealHolds(n, summary, env);
    if SealReady(n) {
      var v: nat :| |Group(n.log.messages, Commit, n.state.seqNum - 1, v)| >= 2 * n.state.f;
      assert |SealSource(n, v)| >= 2 * n.state.f;
    }
  }

  /** The 2f + 1 Commits that finished a block are enough for the next seal, pruning included, as
      long as the fault bound does not grow. */
  lemma SealReadyAfterBlockCommit(n: Node, id: BlockId, env: Env)
    requires n.state.Sound() && env.Valid() && OnLadder(n) && OwnMessagesMarked(n)
    requires n.state.phase == Finished && IsWorkingBlock(n, id)
    ensures NextFaultBound(n, id, env) <= n.state.f ==> SealReady(OnBlockCommit(n, id, env))
  {
    var msgs, s, v, f := n.log.messages, n.state.seqNum, n.state.view, n.state.f;
    var b :| CommittableFor(msgs, s, v, f, b);
    NonSelfVotes(n, s, v, b);
    assert |Group(msgs, Commit, s, v)| >= 2 * f;
    assert EnoughCommits(msgs, s, 2 * f);
    SealReadyExactly(n, id, env);
    if NextFaultBound(n, id, env) <= f {
      FewerCommitsNeeded(msgs, s, 2 * f, 2 * NextFaultBound(n, id, env));
    }
  }

  /** The fault bound after a commit: read anew where the peers changed and no forced view change
      is due. */
  ghost function NextFaultBound(n: Node, id: BlockId, env: Env): nat
    requires n.state.Sound() && env.Valid()
  {
    if (n.state.seqNum + 1) % n.state.forcedViewChangePeriod != 0 && MembershipChanged(n.state, env.peersAt(id))
    then MaxFaulty(env.peersAt(id)) else n.state.f
  }

  /** After a commit the next seal can be built exactly if the Commits of others at hand for the
      block suffice for the new fault bound, in some view. */
  lemma SealReadyExactly(n: Node, id: BlockId, env: Env)
    requires n.state.Sound() && env.Valid() && n.state.phase == Finished && IsWorkingBlock(n, id)
    ensures SealReady(OnBlockCommit(n, id, env)) <==> EnoughCommits(n.log.messages, n.state.seqNum, 2 * NextFaultBound(n, id, env))
  {
    var n' := OnBlockCommit(n, id, env);
    AdvanceOnBlockCommit(n, id, env);
    assert n'.state.f == NextFaultBound(n, id, env);
    forall v: nat ensures Group(n'.log.messages, Commit, n.state.seqNum, v) == Group(n.log.messages, Commit, n.state.seqNum, v) {
      PruningKeepsPrevious(n, id, env, v);
    }
    SameCommits(n.log.messages, n'.log.messages, n.state.seqNum, 2 * n'.state.f);
  }

  lemma PruningKeepsPrevious(n: Node, id: BlockId, env: Env, v: nat)
    requires n.state.Sound() && env.Valid() && n.state.phase == Finished && IsWorkingBlock(n, id)
    ensures Group(OnBlockCommit(n, id, env).log.messages, Commit, n.state.seqNum, v) == Group(n.log.messages, Commit, n.state.seqNum, v)
  {
    var n' := OnBlockCommit(n, id, env);
    assert n'.log == n.log.GarbageCollect(n.state.seqNum + 1, id);
  }

  /** Until the next block, logging more messages cannot take the seal away. */
  lemma SealReadyStays(n: Node, n': Node)
    requires n.state.Sound() && n'.state.Sound() && SealReady(n)
    requires n.log.messages <= n'.log.messages && n'.state.seqNum == n.state.seqNum && n'.state.f == n.state.f
    ensures SealReady(n')
  {
    var s := n.state.seqNum - 1;
    var v: nat :| |Group(n.log.messages, Commit, s, v)| >= 2 * n.state.f;
    SubsetCardinality(Group(n.log.messages, Commit, s, v), Group(n'.log.messages, Commit, s, v));
    assert |Group(n'.log.messages, Commit, s, v)| >= 2 * n'.state.f;
  }

  // ---------- The seal kept for a view change ----------

  /** Every stored seal is the one carried by its block. */
  ghost predicate SealsGenuine(n: Node, chain: BlockId -> Block) {
    forall e :: e in n.log.seals ==> chain(e.blockId).payload == Sealed(e.seal)
  }

  /** A seal for this block was stored while the node was at this sequence number. */
  ghost predicate HasSeal(seals: set<SealEntry>, id: BlockId, s: nat) {
    exists seal :: SealEntry(id, s, seal) in seals
  }

  /** Committing a block leaves a seal for the past sequence number exactly if the block was
      delivered while the node was at that number, and then it is the seal in that block. */
  lemma SealKeptAtCommit(n: Node, id: BlockId, env: Env, chain: BlockId -> Block)
    requires n.state.Sound() && env.Valid() && SealsGenuine(n, chain)
    requires n.state.phase == Finished && IsWorkingBlock(n, id)
    ensures var found := OnBlockCommit(n, id, env).log.GetConsensusSeal(n.state.seqNum);
            && (found.Success? <==> HasSeal(n.log.seals, id, n.state.seqNum))
            && (found.Success? ==> chain(id).payload == Sealed(found.value))
  {
    var n' := OnBlockCommit(n, id, env);
    assert n'.log == n.log.GarbageCollect(n.state.seqNum + 1, id);
    var kept := n'.log.SealsAt(n.state.seqNum);
    forall e | e in kept ensures e == SealEntry(id, n.state.seqNum, e.seal) && chain(id).payload == Sealed(e.seal) {
    }
    if seal :| SealEntry(id, n.state.seqNum, seal) in n.log.seals {
      assert SealEntry(id, n.state.seqNum, seal) in kept;
      assert kept == {SealEntry(id, n.state.seqNum, seal)};
    } else {
      assert kept == {};
    }
  }
}
