/** Agreement within and across views, carry-over and locks, in every world that satisfies the invariant. */
module Agreement {
  import opened Types
  import opened Quorums
  import opened Certificates
  import opened TrustedMachine
  import opened Protocol
  import opened Safety

  /** A certificate whose signers all count the block as prepared. */
  ghost predicate Prepared(cfg: Config, w: World, cert: Vote) {
    CertSent(cfg, w, cert) && Binding(cfg, cert.data)
  }

  /** A leader proposes one block per view. */
  lemma OneProposal(cfg: Config, w: World, v: View, h1: Hash, h2: Hash)
    requires Inv(cfg, w) && ProposedAt(cfg, w, v, h1) && ProposedAt(cfg, w, v, h2)
    ensures h1 == h2 && v > 0
  {
    var d1 :| ProposedData(cfg, w, d1) && d1.propv == v && d1.proph == h1;
    var d2 :| ProposedData(cfg, w, d2) && d2.propv == v && d2.proph == h2;
    var _ := ProposalFacts(cfg, w, d1);
    var _ := ProposalFacts(cfg, w, d2);
    hide ProposedData;
    assert NodeOk(cfg, w, w[cfg.LeaderOf(v)]);
    OneRecordPerRound(w[cfg.LeaderOf(v)].signed, d1, d2);
  }

  /** What a proposal rests on: its block extends the highest claim of a valid sent proof. */
  lemma ProposalFacts(cfg: Config, w: World, d: RData) returns (proof: seq<OneJust>)
    requires Inv(cfg, w) && ProposedData(cfg, w, d)
    ensures d.phase == Prepare && d.propv > 0
    ensures cfg.LeaderOf(d.propv) in w && d in w[cfg.LeaderOf(d.propv)].signed
    ensures ValidProof(cfg, d.propv, proof) && ProofSent(w, proof)
    ensures d.proph.digest.Of? && d.proph.digest.block.prev.digest == Highest(proof).1.digest
  {
    var p :| LdrMsg(p) in w[cfg.LeaderOf(d.propv)].issued && BacksData(cfg, w, p, d);
    proof := p.proof;
    hide NodeOk;
    ClaimOfEntry(cfg, w, d.propv, proof, 0);
  }

  /** An entry of a sent proof claims a view below its own, in which its block was proposed. */
  lemma ClaimOfEntry(cfg: Config, w: World, v: View, proof: seq<OneJust>, k: nat)
    requires Inv(cfg, w) && ValidProof(cfg, v, proof) && ProofSent(w, proof) && k < |proof|
    ensures var d := proof[k].rdata;
      && d.justv < v && Claim(cfg, w, d.justv, d.justh)
      && d.phase == NewView && d.propv == v && d.proph == NO_HASH
      && proof[k].sign.signer in w && d in w[proof[k].sign.signer].signed
  {
    hide NodeOk, Claim, Distinct, BoundAt;
    assert EntryOk(cfg, v, proof[k]);
    assert proof[k] in proof && Sent(w, EntryMsg(proof[k])) && MsgOk(cfg, w, EntryMsg(proof[k]));
    assert proof[k].sign in [proof[k].sign];
    assert SignOk(cfg, w, NewView, proof[k].rdata, proof[k].sign);
  }

  /** The highest claim of a sent proof for view v: a view below v, and a block proposed there. */
  lemma HighestClaim(cfg: Config, w: World, v: View, proof: seq<OneJust>)
    requires Inv(cfg, w) && ValidProof(cfg, v, proof) && ProofSent(w, proof)
    ensures Highest(proof).0 < v && Claim(cfg, w, Highest(proof).0, Highest(proof).1)
  {
    hide Inv, Claim, EntryOk;
    var k := HighestIsMax(proof);
    ClaimOfEntry(cfg, w, v, proof, k);
  }

  /** A prepared certificate and a proof for a later view share a replica, which reports the
      certificate's view or a later one. */
  lemma ProofReports(cfg: Config, w: World, cert: Vote, v: View, proof: seq<OneJust>)
    requires cfg.Valid() && Inv(cfg, w) && Prepared(cfg, w, cert) && cert.data.propv < v
    requires ValidProof(cfg, v, proof) && ProofSent(w, proof)
    ensures Highest(proof).0 >= cert.data.propv
  {
    CertSigners(cfg, cert.data, cert.signs);
    ProofSigners(cfg, v, proof);
    var signs := EntrySigns(proof);
    QuorumsIntersect(cfg, SignersOf(cert.signs), SignersOf(signs));
    hide NodeOk, Claim, IsQuorum, ValidCert, EntryOk;
    var q :| q in SignersOf(cert.signs) * SignersOf(signs);
    var s :| s in cert.signs && s.signer == q;
    var k :| 0 <= k < |signs| && signs[k].signer == q;
    assert MsgOk(cfg, w, CertMsg(cert)) && SignOk(cfg, w, cert.data.phase, cert.data, s);
    ClaimOfEntry(cfg, w, v, proof, k);
    assert BoundAt(w[q], cert.data.propv) && proof[k].rdata in w[q].signed;
    var _ := HighestIsMax(proof);
  }

  lemma ProofSigners(cfg: Config, v: View, proof: seq<OneJust>)
    requires cfg.Valid() && ValidProof(cfg, v, proof)
    ensures IsQuorum(cfg, SignersOf(EntrySigns(proof)))
  {
    DistinctSignersCount(EntrySigns(proof));
    forall s | s in EntrySigns(proof) ensures s.signer in cfg.nodes {
      var k :| 0 <= k < |proof| && EntrySigns(proof)[k] == s;
      assert EntryOk(cfg, v, proof[k]);
    }
  }

  lemma PreparedProposed(cfg: Config, w: World, cert: Vote)
    requires Inv(cfg, w) && Prepared(cfg, w, cert)
    ensures ProposedAt(cfg, w, cert.data.propv, cert.data.proph)
  {
    hide NodeOk, ValidCert, ProposedAt;
    assert MsgOk(cfg, w, CertMsg(cert));
  }

  /** What a sent proof for a later view leads to: the prepared block or a descendant of it. */
  lemma {:induction false} ProofDescends(cfg: Config, w: World, cert: Vote, v: View, proof: seq<OneJust>)
    requires cfg.Valid() && Inv(cfg, w) && Prepared(cfg, w, cert) && cert.data.propv < v
    requires ValidProof(cfg, v, proof) && ProofSent(w, proof)
    ensures Highest(proof).0 >= cert.data.propv
    ensures Ancestor(cert.data.proph.digest, Highest(proof).1.digest)
    ensures Highest(proof).0 == cert.data.propv ==> Highest(proof).1.digest == cert.data.proph.digest
    decreases v
  {
    hide Inv, ValidProof, ProofSent, Prepared, ProposedData;
    ProofReports(cfg, w, cert, v, proof);
    HighestClaim(cfg, w, v, proof);
    PreparedProposed(cfg, w, cert);
    var (hv, hh) := Highest(proof);
    OneProposal(cfg, w, cert.data.propv, cert.data.proph, cert.data.proph);
    if hv == cert.data.propv {
      OneProposal(cfg, w, hv, cert.data.proph, hh);
    } else {
      var d :| ProposedData(cfg, w, d) && d.propv == hv && d.proph == hh;
      var proof' := ProposalFacts(cfg, w, d);
      ProofDescends(cfg, w, cert, hv, proof');
      AncestorTrans(cert.data.proph.digest, Highest(proof').1.digest, hh.digest);
    }
  }

  /** Carry-over: an accumulator that a trusted component accepts in a later view names a view at least
      as high as every prepared certificate's, and its block, and the one proposed on it, is or descends
      from the certificate's. */
  lemma CarryOver(cfg: Config, w: World, cert: Vote, t: Trusted, id: PID, block: Block, acc: Accum, proof: seq<OneJust>)
    requires cfg.Valid() && Inv(cfg, w) && Prepared(cfg, w, cert) && cert.data.propv < t.view
    requires TeePrepare(cfg, t, id, block, acc, proof).1.Some? && ProofSent(w, proof)
    ensures acc.prepv >= cert.data.propv
    ensures Ancestor(cert.data.proph.digest, acc.hash.digest)
    ensures Ancestor(cert.data.proph.digest, Of(block)) && cert.data.proph.digest != Of(block)
  {
    AcceptedProposal(cfg, t, id, block, acc, proof);
    hide TeePrepare;
    ProofDescends(cfg, w, cert, t.view, proof);
    hide Inv, ValidProof, ProofSent, Prepared;
    AncestorTrans(cert.data.proph.digest, acc.hash.digest, Of(block));
    NotOwnAncestor(block, cert.data.proph.digest);
  }

  /** The parent chain of a block never comes back to the block. */
  lemma {:induction false} NotOwnAncestor(block: Block, g: Digest)
    requires Ancestor(g, block.prev.digest)
    ensures g != Of(block)
  {
    if g == Of(block) { AncestorSize(g, block.prev.digest); }
  }

  function Depth(g: Digest): nat {
    if g.Genesis? then 0 else Depth(g.block.prev.digest) + 1
  }

  lemma {:induction false} AncestorSize(a: Digest, d: Digest)
    requires Ancestor(a, d)
    ensures Depth(a) <= Depth(d)
  {
    if a != d { AncestorSize(a, d.block.prev.digest); }
  }

  lemma LockHeld(cfg: Config, w: World, q: PID)
    requires Inv(cfg, w) && q in w
    ensures LockClaim(cfg, w, w[q].t.lockv, w[q].t.lockh)
  {
    hide LockClaim;
    assert NodeOk(cfg, w, w[q]);
  }

  lemma LowestClaim(cfg: Config, w: World, v: View, proof: seq<OneJust>)
    requires Inv(cfg, w) && ValidProof(cfg, v, proof) && ProofSent(w, proof)
    ensures Highest(proof).0 == 0 ==> Highest(proof).1.digest == Genesis
  {
    hide Inv;
    HighestClaim(cfg, w, v, proof);
  }

  /** Locks never block honest progress: whatever block a replica is locked on, a block that extends the
      highest claim of any valid sent proof for a later view passes its safe-parent test. */
  lemma LocksNeverBlock(cfg: Config, w: World, q: PID, v: View, block: Block, acc: Accum, proof: seq<OneJust>)
    requires cfg.Valid() && Inv(cfg, w) && q in w && w[q].t.lockv < v
    requires ValidProof(cfg, v, proof) && ProofSent(w, proof) && Summarises(acc, v, proof)
    requires Extends(block, acc.hash)
    ensures SafeParent(w[q].t, block, acc)
  {
    var t := w[q].t;
    LockHeld(cfg, w, q);
    hide Inv, ValidCert, ValidProof, ProofSent, Claim;
    if t.lockv == 0 {
      LowestClaim(cfg, w, v, proof);
    } else {
      var cert :| CertSent(cfg, w, cert) && cert.data.phase == PreCommit
                  && cert.data.propv == t.lockv && cert.data.proph.digest == t.lockh.digest;
      ProofDescends(cfg, w, cert, v, proof);
    }
  }

  /** Agreement: of two final certificates, in any views, the block of the one in the lower view is an
      ancestor of the other's; in one view they have the same block. */
  lemma FinalAgree(cfg: Config, w: World, c1: Vote, c2: Vote)
    requires cfg.Valid() && Inv(cfg, w)
    requires CertSent(cfg, w, c1) && Final(cfg, c1.data) && CertSent(cfg, w, c2) && Final(cfg, c2.data)
    requires c1.data.propv <= c2.data.propv
    ensures Ancestor(c1.data.proph.digest, c2.data.proph.digest)
    ensures c1.data.propv == c2.data.propv ==> c1.data.proph.digest == c2.data.proph.digest
  {
    hide Inv, ValidCert;
    PreparedProposed(cfg, w, c1);
    PreparedProposed(cfg, w, c2);
    if c1.data.propv == c2.data.propv {
      OneProposal(cfg, w, c1.data.propv, c1.data.proph, c2.data.proph);
    } else {
      hide ProposedData;
      var d :| ProposedData(cfg, w, d) && d.propv == c2.data.propv && d.proph == c2.data.proph;
      var proof := ProposalFacts(cfg, w, d);
      hide CertSent, ValidProof;
      ProofDescends(cfg, w, c1, d.propv, proof);
      AncestorTrans(c1.data.proph.digest, Highest(proof).1.digest, c2.data.proph.digest);
    }
  }

  /** Everything any two nodes executed lies on one parent chain, in view order. */
  lemma ExecutedAgree(cfg: Config, w: World, p: PID, q: PID, d1: RData, d2: RData)
    requires cfg.Valid() && Inv(cfg, w) && p in w && q in w
    requires d1 in w[p].executed && d2 in w[q].executed && d1.propv <= d2.propv
    ensures Ancestor(d1.proph.digest, d2.proph.digest)
    ensures d1.propv == d2.propv ==> d1.proph.digest == d2.proph.digest
  {
    assert NodeOk(cfg, w, w[p]) && NodeOk(cfg, w, w[q]);
    hide Inv, CertSent;
    var c1 :| CertSent(cfg, w, c1) && c1.data == d1;
    var c2 :| CertSent(cfg, w, c2) && c2.data == d2;
    FinalAgree(cfg, w, c1, c2);
  }
}
