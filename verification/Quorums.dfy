/** Counting votes: what the quorum predicates of the log mean, independently of hash order,
    how they react to a new message, and why garbage collection cannot be seen by them. */
module Quorums {
  import opened Types
  import opened MessageLog
  import opened Ledger

  lemma {:induction false} SubsetCardinality<T>(a: set<T>, b: set<T>)
    requires a <= b
    ensures |a| <= |b|
  {
    assert b == a + (b - a);
  }

  // ---------- Certificates ----------

  /** A PrePrepare for this block and 2f + 1 matching Prepares are logged. */
  ghost predicate PreparedFor(msgs: set<ParsedMessage>, s: nat, v: nat, f: nat, b: PbftBlock) {
    HasPrePrepare(msgs, s, v, b) && |VotesFor(msgs, Prepare, s, v, b)| >= 2 * f + 1
  }

  /** Prepared, with 2f + 1 matching Commits. */
  ghost predicate CommittableFor(msgs: set<ParsedMessage>, s: nat, v: nat, f: nat, b: PbftBlock) {
    PreparedFor(msgs, s, v, f, b) && |VotesFor(msgs, Commit, s, v, b)| >= 2 * f + 1
  }

  ghost predicate Prepared(msgs: set<ParsedMessage>, s: nat, v: nat, f: nat) {
    exists b :: PreparedFor(msgs, s, v, f, b)
  }

  ghost predicate Committable(msgs: set<ParsedMessage>, s: nat, v: nat, f: nat) {
    exists b :: CommittableFor(msgs, s, v, f, b)
  }

  /** The PrePrepare found first decides nothing: the checks hold exactly if some block has
      the certificate, and that block is the only one pre-prepared there. */
  lemma ChecksMeanCertificates(msgs: set<ParsedMessage>, s: nat, v: nat, f: nat, env: Env)
    requires env.Valid() && PrePreparesAgree(msgs)
    ensures CheckPrepared(msgs, s, v, f, env) <==> Prepared(msgs, s, v, f)
    ensures CheckCommittable(msgs, s, v, f, env) <==> Committable(msgs, s, v, f)
    ensures forall b, c :: HasPrePrepare(msgs, s, v, b) && HasPrePrepare(msgs, s, v, c) ==> b == c
  {
    match GetOneMsg(msgs, PrePrepare, s, v, env)
    case None =>
    case Some(pp) =>
      assert pp.VotesFor(PrePrepare, s, v, pp.Block());
      assert HasPrePrepare(msgs, s, v, pp.Block());
      assert CheckPrepared(msgs, s, v, f, env) ==> PreparedFor(msgs, s, v, f, pp.Block());
      assert CheckCommittable(msgs, s, v, f, env) ==> CommittableFor(msgs, s, v, f, pp.Block());
  }

  // ---------- Growing logs ----------

  lemma CertificatesGrow(msgs: set<ParsedMessage>, msgs': set<ParsedMessage>, s: nat, v: nat, f: nat, b: PbftBlock)
    requires msgs <= msgs'
    ensures HasPrePrepare(msgs, s, v, b) ==> HasPrePrepare(msgs', s, v, b)
    ensures PreparedFor(msgs, s, v, f, b) ==> PreparedFor(msgs', s, v, f, b)
    ensures CommittableFor(msgs, s, v, f, b) ==> CommittableFor(msgs', s, v, f, b)
  {
    SubsetCardinality(VotesFor(msgs, Prepare, s, v, b), VotesFor(msgs', Prepare, s, v, b));
    SubsetCardinality(VotesFor(msgs, Commit, s, v, b), VotesFor(msgs', Commit, s, v, b));
  }

  /** What holds of some block in the smaller log holds in the larger one. */
  lemma StatusGrows(msgs: set<ParsedMessage>, msgs': set<ParsedMessage>, s: nat, v: nat, f: nat)
    requires msgs <= msgs'
    ensures Prepared(msgs, s, v, f) ==> Prepared(msgs', s, v, f)
    ensures Committable(msgs, s, v, f) ==> Committable(msgs', s, v, f)
  {
    if b :| PreparedFor(msgs, s, v, f, b) {
      CertificatesGrow(msgs, msgs', s, v, f, b);
    }
    if b :| CommittableFor(msgs, s, v, f, b) {
      CertificatesGrow(msgs, msgs', s, v, f, b);
    }
  }

  /** No message at this sequence number and view, of a type that certificates count, is
      in one log and not in the other. */
  ghost predicate SameVotesAt(msgs: set<ParsedMessage>, msgs': set<ParsedMessage>, s: nat, v: nat) {
    forall m: ParsedMessage :: m.SeqNum() == s && m.View() == v && m.Type().IsMulticast() ==> (m in msgs <==> m in msgs')
  }

  lemma SameVotesSameCertificates(msgs: set<ParsedMessage>, msgs': set<ParsedMessage>, s: nat, v: nat, f: nat)
    requires SameVotesAt(msgs, msgs', s, v)
    ensures forall b :: HasPrePrepare(msgs, s, v, b) <==> HasPrePrepare(msgs', s, v, b)
    ensures forall b :: PreparedFor(msgs, s, v, f, b) <==> PreparedFor(msgs', s, v, f, b)
    ensures forall b :: CommittableFor(msgs, s, v, f, b) <==> CommittableFor(msgs', s, v, f, b)
    ensures Prepared(msgs, s, v, f) <==> Prepared(msgs', s, v, f)
    ensures Committable(msgs, s, v, f) <==> Committable(msgs', s, v, f)
  {
    forall b
      ensures VotesFor(msgs, Prepare, s, v, b) == VotesFor(msgs', Prepare, s, v, b)
      ensures VotesFor(msgs, Commit, s, v, b) == VotesFor(msgs', Commit, s, v, b)
    {
    }
  }

  /** A certificate that appears with one message is a certificate that message votes for. */
  lemma NewCertificateIsForTheVote(msgs: set<ParsedMessage>, m: ParsedMessage, s: nat, v: nat, f: nat, b: PbftBlock)
    requires m.Type() != PrePrepare
    ensures PreparedFor(msgs + {m}, s, v, f, b) && !PreparedFor(msgs, s, v, f, b) ==> m.VotesFor(Prepare, s, v, b)
    ensures CommittableFor(msgs + {m}, s, v, f, b) && !CommittableFor(msgs, s, v, f, b) ==>
              m.VotesFor(Commit, s, v, b) || m.VotesFor(Prepare, s, v, b)
  {
    assert HasPrePrepare(msgs + {m}, s, v, b) ==> HasPrePrepare(msgs, s, v, b);
    assert !m.VotesFor(Prepare, s, v, b) ==> VotesFor(msgs + {m}, Prepare, s, v, b) == VotesFor(msgs, Prepare, s, v, b);
    assert !m.VotesFor(Commit, s, v, b) ==> VotesFor(msgs + {m}, Commit, s, v, b) == VotesFor(msgs, Commit, s, v, b);
  }

  // ---------- Garbage collection ----------

  /** Nothing the node asks of its log at or above the previous sequence number changes. */
  lemma GarbageCollectionIsInvisible(log: LogValue, current: nat, id: BlockId, s: nat, v: nat, f: nat, t: MessageType, minimum: nat, ref: ParsedMessage)
    requires current >= 1 && s + 1 >= current && ref.SeqNum() == s
    ensures var msgs, msgs' := log.messages, log.GarbageCollect(current, id).messages;
            && OfTypeSeq(msgs', t, s) == OfTypeSeq(msgs, t, s)
            && OfTypeSeqView(msgs', t, s, v) == OfTypeSeqView(msgs, t, s, v)
            && (forall b :: PreparedFor(msgs', s, v, f, b) <==> PreparedFor(msgs, s, v, f, b))
            && (forall b :: CommittableFor(msgs', s, v, f, b) <==> CommittableFor(msgs, s, v, f, b))
            && GetEnoughMessages(msgs', t, s, minimum) == GetEnoughMessages(msgs, t, s, minimum)
            && (forall env: Env :: env.Valid() ==>
                  && (CheckPrepared(msgs', s, v, f, env) <==> CheckPrepared(msgs, s, v, f, env))
                  && (CheckCommittable(msgs', s, v, f, env) <==> CheckCommittable(msgs, s, v, f, env)))
            && (LogHasRequiredMsgs(msgs', t, ref, false, minimum) <==> LogHasRequiredMsgs(msgs, t, ref, false, minimum))
  {
    var msgs, msgs' := log.messages, log.GarbageCollect(current, id).messages;
    assert SameVotesAt(msgs, msgs', s, v);
    SameVotesSameCertificates(msgs, msgs', s, v, f);
    assert forall u, t :: OfTypeSeqView(msgs', t, s, u) == OfTypeSeqView(msgs, t, s, u);
    assert forall u, t, b :: VotesFor(msgs', t, s, u, b) == VotesFor(msgs, t, s, u, b);
    assert forall u :: Group(msgs', t, s, u) == Group(msgs, t, s, u);
    assert EnoughViews(msgs', t, s, minimum) == EnoughViews(msgs, t, s, minimum);
  }
}
