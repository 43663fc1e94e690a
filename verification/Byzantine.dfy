/** Agreement within a view when some replicas behave arbitrarily.  The honest replicas are modelled in full;
    of a faulty replica with trusted hardware only its trusted component is, driven by whatever calls its host
    makes; the others send anything.  No signature of an honest replica or a trusted component is forged. */
module Byzantine {
  import opened Types
  import opened Quorums
  import opened Certificates
  import opened TrustedMachine
  import opened Replicas
  import opened Protocol
  import S = Safety

  /** The trusted component of a replica whose host is faulty. */
  datatype Component = Component(t: Trusted, signed: seq<RData>)

  datatype World = World(nodes: S.World, comps: map<PID, Component>)

  /** Every trusted component is modelled, and at most f replicas without one are faulty. */
  predicate Setting(cfg: Config, honest: set<PID>) {
    honest <= cfg.nodes.Keys && |cfg.nodes.Keys - honest - cfg.TeeNodes()| <= cfg.f
  }

  /** At most f replicas are faulty in all, hosts of trusted components included. */
  predicate FewFaulty(cfg: Config, honest: set<PID>) {
    |cfg.nodes.Keys - honest| <= cfg.f
  }

  /** The node made its signature on round `d` public. */
  ghost predicate Made(a: Node, d: RData) {
    exists tag :: VoteMsg(tag, Vote(d, [Sign(true, a.id, RoundText(d))])) in a.issued
  }

  ghost predicate Genuine(w: World, s: Sign) {
    s.text.RoundText? ==>
      if s.signer in w.nodes then Made(w.nodes[s.signer], s.text.data)
      else s.signer in w.comps ==> s.text.data in w.comps[s.signer].signed
  }

  /** No signature of an honest replica or a trusted component in the message is forged. */
  ghost predicate Unforged(w: World, m: Msg) {
    match m
    case VoteMsg(tag, v) => forall s :: s in v.signs ==> Genuine(w, s)
    case LdrMsg(p) => Genuine(w, p.sign)
  }

  ghost predicate CertKnown(cfg: Config, w: World, cert: Vote) {
    ValidCert(cfg, cert.data, cert.signs) && forall s :: s in cert.signs ==> Genuine(w, s)
  }

  /** The trusted component of d's leader signed a proposal of d's block for d's view, and an honest leader
      has sent it. */
  ghost predicate Led(cfg: Config, w: World, d: RData) {
    var leader := cfg.LeaderOf(d.propv);
    exists p: Proposal :: p.acc.view == d.propv && BlockHash(p.block) == d.proph && LedBy(w, leader, p)
  }

  ghost predicate LedBy(w: World, leader: PID, p: Proposal) {
    if leader in w.nodes then LdrMsg(p) in w.nodes[leader].issued && LdrData(p) in w.nodes[leader].signed
    else leader in w.comps && LdrData(p) in w.comps[leader].signed
  }

  ghost predicate NodeOk(cfg: Config, w: World, a: Node) {
    && S.Local(a)
    && (forall m :: m in a.Known() ==> Unforged(w, m))
    && (forall d :: Made(a, d) ==> d in a.signed)
    && (FewFaulty(cfg, w.nodes.Keys) ==>
         forall d :: Made(a, d) && d.phase != NewView && TeeLed(cfg, d.propv) ==> Led(cfg, w, d))
    && (FewFaulty(cfg, w.nodes.Keys) && a.view > 0 && cfg.LeaderOf(a.view) == a.id && cfg.IsTEE(a.id)
         && !HasProposed(a) ==>
          a.t.view == a.view && a.t.phase == Prepare)
    && (forall d :: d in a.executed ==> Final(cfg, d) && exists cert :: CertKnown(cfg, w, cert) && cert.data == d)
  }

  predicate CompOk(c: Component) {
    Ordered(c.t) && Increasing(c.signed) && Below(c.signed, StateKey(c.t))
  }

  ghost predicate Inv(cfg: Config, w: World) {
    && Setting(cfg, w.nodes.Keys) && w.comps.Keys == cfg.TeeNodes() - w.nodes.Keys
    && (forall q :: q in w.nodes ==> w.nodes[q].id == q && NodeOk(cfg, w, w.nodes[q]))
    && (forall q :: q in w.comps ==> CompOk(w.comps[q]))
  }

  function Put(w: World, q: PID, b: Node): World {
    w.(nodes := w.nodes[q := b])
  }

  ghost predicate Grows(w: World, w': World) {
    && S.Grows(w.nodes, w'.nodes) && w.comps.Keys == w'.comps.Keys
    && (forall q, d :: q in w.comps && d in w.comps[q].signed ==> d in w'.comps[q].signed)
  }

  lemma MoveGrows(w: World, q: PID, b: Node)
    requires q in w.nodes && S.Progress(w.nodes[q], b)
    ensures Grows(w, Put(w, q, b))
  {
    S.MoveGrows(w.nodes, q, b);
  }

  // ---- what certificates say

  /** What the invariant says of one node, and of what it made public. */
  lemma NodeFacts(cfg: Config, w: World, q: PID)
    requires Inv(cfg, w) && q in w.nodes
    ensures w.nodes[q].id == q && S.Local(w.nodes[q])
    ensures forall d :: Made(w.nodes[q], d) ==> d in w.nodes[q].signed
  {
    hide Made, Led, CertKnown, Unforged, Setting, S.Local;
    assert NodeOk(cfg, w, w.nodes[q]);
  }

  ghost predicate SignedBy(signed: map<PID, seq<RData>>, cert: Vote) {
    forall s :: s in cert.signs && s.signer in signed ==> cert.data in signed[s.signer]
  }

  /** Same-view uniqueness from non-equivocation alone: if all but at most f replicas, none of those trusted,
      sign rounds in increasing order, two certificates for one view and phase, of either kind, carry the
      same round data. */
  lemma SoundSignersAgree(cfg: Config, signed: map<PID, seq<RData>>, c1: Vote, c2: Vote)
    requires cfg.Valid() && cfg.TeeNodes() <= signed.Keys && |cfg.nodes.Keys - signed.Keys| <= cfg.f
    requires forall q :: q in signed ==> Increasing(signed[q])
    requires ValidCert(cfg, c1.data, c1.signs) && SignedBy(signed, c1)
    requires ValidCert(cfg, c2.data, c2.signs) && SignedBy(signed, c2)
    requires c1.data.propv == c2.data.propv && c1.data.phase == c2.data.phase
    ensures c1.data == c2.data
  {
    CertSigners(cfg, c1.data, c1.signs);
    CertSigners(cfg, c2.data, c2.signs);
    var q := HonestInBoth(cfg, SignersOf(c1.signs), SignersOf(c2.signs), signed.Keys);
    hide ValidCert, IsQuorum;
    OneRecordPerRound(signed[q], c1.data, c2.data);
  }

  /** In particular when trusted components, and the twins of honest replicas, are driven by arbitrary
      sequences of calls, whoever their hosts are. */
  lemma DrivenSignersAgree(cfg: Config, calls: map<PID, seq<Call>>, c1: Vote, c2: Vote)
    requires cfg.Valid() && cfg.TeeNodes() <= calls.Keys && |cfg.nodes.Keys - calls.Keys| <= cfg.f
    requires ValidCert(cfg, c1.data, c1.signs) && SignedBy(map q | q in calls :: RunCalls(cfg, q, calls[q]).1, c1)
    requires ValidCert(cfg, c2.data, c2.signs) && SignedBy(map q | q in calls :: RunCalls(cfg, q, calls[q]).1, c2)
    requires c1.data.propv == c2.data.propv && c1.data.phase == c2.data.phase
    ensures c1.data == c2.data
  {
    var signed := map q | q in calls :: RunCalls(cfg, q, calls[q]).1;
    assert signed.Keys == calls.Keys;
    forall q | q in signed ensures Increasing(signed[q]) { NonEquivocation(cfg, q, calls[q]); }
    SoundSignersAgree(cfg, signed, c1, c2);
  }

  /** Everything signed in a world. */
  function Signed(w: World): map<PID, seq<RData>> {
    map q | q in w.nodes.Keys + w.comps.Keys :: if q in w.nodes then w.nodes[q].signed else w.comps[q].signed
  }

  lemma SignedInOrder(cfg: Config, w: World)
    requires Inv(cfg, w)
    ensures cfg.TeeNodes() <= Signed(w).Keys && |cfg.nodes.Keys - Signed(w).Keys| <= cfg.f
    ensures forall q :: q in Signed(w) ==> Increasing(Signed(w)[q])
  {
    assert Signed(w).Keys == w.nodes.Keys + w.comps.Keys;
    Quorums.SubsetSize(cfg.nodes.Keys - Signed(w).Keys, cfg.nodes.Keys - w.nodes.Keys - cfg.TeeNodes());
    hide Made, Led, Unforged, CertKnown;
    forall q | q in Signed(w) ensures Increasing(Signed(w)[q]) {
      if q in w.nodes { assert NodeOk(cfg, w, w.nodes[q]); }
    }
  }

  lemma CertSignedBy(cfg: Config, w: World, cert: Vote)
    requires Inv(cfg, w) && CertKnown(cfg, w, cert)
    ensures SignedBy(Signed(w), cert)
  {
    hide Led, Made;
    forall s | s in cert.signs && s.signer in Signed(w) ensures cert.data in Signed(w)[s.signer] {
      assert SigOk(cfg, s, RoundText(cert.data)) && Genuine(w, s);
      if s.signer in w.nodes { assert NodeOk(cfg, w, w.nodes[s.signer]); }
    }
  }

  /** Same-view uniqueness: any two certificates for one view and phase, of either kind, carry the same
      round data, however many hosts of trusted components are faulty. */
  lemma CertificatesAgree(cfg: Config, w: World, c1: Vote, c2: Vote)
    requires cfg.Valid() && Inv(cfg, w) && CertKnown(cfg, w, c1) && CertKnown(cfg, w, c2)
    requires c1.data.propv == c2.data.propv && c1.data.phase == c2.data.phase
    ensures c1.data == c2.data
  {
    SignedInOrder(cfg, w);
    CertSignedBy(cfg, w, c1);
    CertSignedBy(cfg, w, c2);
    hide Inv, Genuine, SignedBy, Signed;
    SoundSignersAgree(cfg, Signed(w), c1, c2);
  }

  /** With few faulty replicas a certificate has an honest signer, who made its signature public. */
  lemma HonestSigner(cfg: Config, w: World, cert: Vote) returns (q: PID)
    requires cfg.Valid() && FewFaulty(cfg, w.nodes.Keys) && CertKnown(cfg, w, cert)
    ensures q in w.nodes && Made(w.nodes[q], cert.data)
  {
    CertSigners(cfg, cert.data, cert.signs);
    q := HonestInOne(cfg, SignersOf(cert.signs), w.nodes.Keys);
    SignatureMade(cfg, w, cert, q);
  }

  lemma SignatureMade(cfg: Config, w: World, cert: Vote, q: PID)
    requires CertKnown(cfg, w, cert) && q in w.nodes && q in SignersOf(cert.signs)
    ensures Made(w.nodes[q], cert.data)
  {
    var s :| s in cert.signs && s.signer == q;
    assert SigOk(cfg, s, RoundText(cert.data)) && Genuine(w, s);
  }

  /** A proposal known to an honest replica that passes the proposal test was signed by its leader's component,
      when the leader is trusted. */
  lemma ProposalSigned(cfg: Config, w: World, q: PID, p: Proposal)
    requires Inv(cfg, w) && q in w.nodes && LdrMsg(p) in w.nodes[q].Known() && VerifyLdrPrepare(cfg, p)
    requires TeeLed(cfg, p.acc.view)
    ensures var leader := cfg.LeaderOf(p.acc.view); leader in Signed(w) && LdrData(p) in Signed(w)[leader]
  {
    LeaderSignature(cfg, p);
    hide Made, Led, CertKnown, S.Local, VerifyLdrPrepare, FewFaulty, Setting;
    assert NodeOk(cfg, w, w.nodes[q]);
    assert Unforged(w, LdrMsg(p));
    var leader := cfg.LeaderOf(p.acc.view);
    if leader in w.nodes { assert NodeOk(cfg, w, w.nodes[leader]); }
  }

  lemma LeaderSignature(cfg: Config, p: Proposal)
    requires VerifyLdrPrepare(cfg, p)
    ensures p.sign.signer == cfg.LeaderOf(p.acc.view) && p.sign.text == RoundText(LdrData(p))
  {
    assert [p.sign][0] == p.sign;
  }

  /** A trusted leader leads to one block, even when its host is faulty. */
  lemma LedToOne(cfg: Config, w: World, d1: RData, d2: RData)
    requires Inv(cfg, w) && Led(cfg, w, d1) && Led(cfg, w, d2) && d1.propv == d2.propv
    ensures d1.proph == d2.proph
  {
    var leader := cfg.LeaderOf(d1.propv);
    var p1: Proposal :| p1.acc.view == d1.propv && BlockHash(p1.block) == d1.proph && LedBy(w, leader, p1);
    var p2: Proposal :| p2.acc.view == d2.propv && BlockHash(p2.block) == d2.proph && LedBy(w, leader, p2);
    SignedInOrder(cfg, w);
    hide Inv;
    assert leader in Signed(w);
    OneRecordPerRound(Signed(w)[leader], LdrData(p1), LdrData(p2));
  }

  lemma CertLed(cfg: Config, w: World, cert: Vote)
    requires cfg.Valid() && Inv(cfg, w) && CertKnown(cfg, w, cert) && FewFaulty(cfg, w.nodes.Keys)
    requires cert.data.phase != NewView && TeeLed(cfg, cert.data.propv)
    ensures Led(cfg, w, cert.data)
  {
    var q := HonestSigner(cfg, w, cert);
    hide Made, Led, CertKnown;
    assert NodeOk(cfg, w, w.nodes[q]);
  }

  /** Two final certificates of one view are for one block: always when they are of one phase, as they are
      under a leader without trusted hardware, and otherwise when few replicas are faulty. */
  lemma FinalsAgree(cfg: Config, w: World, c1: Vote, c2: Vote)
    requires cfg.Valid() && Inv(cfg, w) && CertKnown(cfg, w, c1) && CertKnown(cfg, w, c2)
    requires Final(cfg, c1.data) && Final(cfg, c2.data) && c1.data.propv == c2.data.propv
    requires FewFaulty(cfg, w.nodes.Keys) || c1.data.phase == c2.data.phase
    ensures c1.data.proph == c2.data.proph
  {
    hide Inv, CertKnown, Led, FewFaulty;
    if c1.data.phase == c2.data.phase {
      CertificatesAgree(cfg, w, c1, c2);
    } else {
      CertLed(cfg, w, c1);
      CertLed(cfg, w, c2);
      LedToOne(cfg, w, c1.data, c2.data);
    }
  }

  lemma ExecutedAgree(cfg: Config, w: World, p: PID, q: PID, d1: RData, d2: RData)
    requires cfg.Valid() && Inv(cfg, w) && p in w.nodes && q in w.nodes
    requires d1 in w.nodes[p].executed && d2 in w.nodes[q].executed && d1.propv == d2.propv
    requires FewFaulty(cfg, w.nodes.Keys) || d1.phase == d2.phase
    ensures d1.proph == d2.proph
  {
    hide Made, Led, CertKnown, S.Local, Unforged;
    assert NodeOk(cfg, w, w.nodes[p]) && NodeOk(cfg, w, w.nodes[q]);
    hide Inv;
    var c1 :| CertKnown(cfg, w, c1) && c1.data == d1;
    var c2 :| CertKnown(cfg, w, c2) && c2.data == d2;
    FinalsAgree(cfg, w, c1, c2);
  }

  // ---- what was established stays so

  lemma MadeGrows(a: Node, b: Node, d: RData)
    requires Made(a, d) && a.id == b.id && a.issued <= b.issued
    ensures Made(b, d)
  {
    var tag :| VoteMsg(tag, Vote(d, [Sign(true, a.id, RoundText(d))])) in a.issued;
    assert VoteMsg(tag, Vote(d, [Sign(true, b.id, RoundText(d))])) in b.issued;
  }

  lemma GenuineGrows(w: World, w': World, s: Sign)
    requires Grows(w, w') && Genuine(w, s)
    ensures Genuine(w', s)
  {
    if s.signer in w.nodes && s.text.RoundText? { MadeGrows(w.nodes[s.signer], w'.nodes[s.signer], s.text.data); }
  }

  lemma UnforgedGrows(w: World, w': World, m: Msg)
    requires Grows(w, w') && Unforged(w, m)
    ensures Unforged(w', m)
  {
    hide Genuine, Grows;
    match m
    case VoteMsg(tag, v) =>
      forall s | s in v.signs ensures Genuine(w', s) { GenuineGrows(w, w', s); }
    case LdrMsg(p) => GenuineGrows(w, w', p.sign);
  }

  lemma LedGrows(cfg: Config, w: World, w': World, d: RData)
    requires Grows(w, w') && Led(cfg, w, d)
    ensures Led(cfg, w', d)
  {
    var leader := cfg.LeaderOf(d.propv);
    var p: Proposal :| p.acc.view == d.propv && BlockHash(p.block) == d.proph && LedBy(w, leader, p);
    assert LedBy(w', leader, p);
  }

  lemma CertGrows(cfg: Config, w: World, w': World, cert: Vote)
    requires Grows(w, w') && CertKnown(cfg, w, cert)
    ensures CertKnown(cfg, w', cert)
  {
    hide Genuine, Grows;
    forall s | s in cert.signs ensures Genuine(w', s) { GenuineGrows(w, w', s); }
  }

  lemma SameHonest(w: World, w': World)
    requires Grows(w, w')
    ensures w'.nodes.Keys == w.nodes.Keys
  {
  }

  lemma NodeGrows(cfg: Config, w: World, w': World, a: Node)
    requires Grows(w, w') && NodeOk(cfg, w, a)
    ensures NodeOk(cfg, w', a)
  {
    hide Made, Led, CertKnown, Unforged, Grows, S.Local;
    forall m | m in a.Known() ensures Unforged(w', m) { UnforgedGrows(w, w', m); }
    SameHonest(w, w');
    if FewFaulty(cfg, w.nodes.Keys) {
      forall d | Made(a, d) && d.phase != NewView && TeeLed(cfg, d.propv) ensures Led(cfg, w', d) {
        LedGrows(cfg, w, w', d);
      }
    }
    forall d | d in a.executed ensures exists cert :: CertKnown(cfg, w', cert) && cert.data == d {
      var cert :| CertKnown(cfg, w, cert) && cert.data == d;
      CertGrows(cfg, w, w', cert);
    }
  }

  lemma MoveNode(cfg: Config, w: World, q: PID, b: Node)
    requires Inv(cfg, w) && q in w.nodes && S.Progress(w.nodes[q], b) && NodeOk(cfg, Put(w, q, b), b)
    ensures Inv(cfg, Put(w, q, b))
  {
    hide NodeOk, Setting;
    var w' := Put(w, q, b);
    MoveGrows(w, q, b);
    assert w'.nodes.Keys == w.nodes.Keys;
    S.ProgressId(w.nodes[q], b);
    hide S.Progress, Grows;
    forall p | p in w'.nodes ensures w'.nodes[p].id == p && NodeOk(cfg, w', w'.nodes[p]) {
      if p != q { NodeGrows(cfg, w, w', w.nodes[p]); }
    }
  }

  // ---- what each action makes public

  /** The only round newly made public is d, when the only new vote message of one signature is for d. */
  ghost predicate AddsVote(a: Node, b: Node, d: RData) {
    && b.id == a.id && a.issued <= b.issued
    && (forall tag, v :: VoteMsg(tag, v) in b.issued && VoteMsg(tag, v) !in a.issued && |v.signs| == 1 ==> v.data == d)
  }

  lemma OnlyMade(a: Node, b: Node, d: RData)
    requires AddsVote(a, b, d)
    ensures forall e :: Made(b, e) ==> Made(a, e) || e == d
  {
    forall e | Made(b, e) ensures Made(a, e) || e == d {
      var tag :| VoteMsg(tag, Vote(e, [Sign(true, b.id, RoundText(e))])) in b.issued;
      if VoteMsg(tag, Vote(e, [Sign(true, b.id, RoundText(e))])) in a.issued { assert Made(a, e); }
    }
  }

  /** The node after voting: good, once its vote is signed by itself and led by the view's leader. */
  lemma VotedOk(cfg: Config, w: World, a: Node, b: Node, tag: Phase, d: RData)
    requires NodeOk(cfg, w, a) && a.id in w.nodes && w.nodes[a.id] == b && S.Local(b)
    requires b == a.(t := b.t, view := b.view, signed := b.signed, issued := b.issued)
    requires AddsVote(a, b, d) && VoteMsg(tag, Vote(d, [Sign(true, a.id, RoundText(d))])) in b.issued
    requires d in b.signed && (forall e :: e in a.signed ==> e in b.signed)
    requires forall m :: m in b.issued && m !in a.issued ==>
      (m == VoteMsg(tag, Vote(d, [Sign(true, a.id, RoundText(d))]))
          || (m.LdrMsg? && m.proposal.sign == Sign(true, a.id, RoundText(d))))
    requires FewFaulty(cfg, w.nodes.Keys) && d.phase != NewView && TeeLed(cfg, d.propv) ==> Led(cfg, w, d)
    requires FewFaulty(cfg, w.nodes.Keys) && b.view > 0 && cfg.LeaderOf(b.view) == b.id && cfg.IsTEE(b.id)
             && !HasProposed(b) ==>
      b.t.view == b.view && b.t.phase == Prepare
    ensures NodeOk(cfg, w, b)
  {
    OnlyMade(a, b, d);
    assert Made(b, d);
    hide AddsVote, Made, Led, CertKnown, S.Local, HasProposed;
    forall m | m in b.Known() ensures Unforged(w, m) {
      if m in b.issued && m !in a.issued {
      } else {
        assert m in a.Known();
      }
    }
  }

  lemma EnterKeeps(cfg: Config, w: World, q: PID)
    requires Inv(cfg, w) && q in w.nodes && Enabled(cfg, w.nodes[q], EnterView)
    ensures Inv(cfg, Put(w, q, Apply(cfg, w.nodes[q], EnterView)))
  {
    var a := w.nodes[q];
    var b := Apply(cfg, a, EnterView);
    Prelude(cfg, w, q, EnterView);
    EnterMakes(cfg, Put(w, q, b), a, b);
    hide NodeOk, Apply, Enabled;
    MoveNode(cfg, w, q, b);
  }

  /** Before looking at what an action added. */
  lemma Prelude(cfg: Config, w: World, q: PID, act: Act)
    requires Inv(cfg, w) && q in w.nodes && Enabled(cfg, w.nodes[q], act)
    ensures var b := Apply(cfg, w.nodes[q], act);
      && S.Progress(w.nodes[q], b) && S.Local(b) && Grows(w, Put(w, q, b)) && NodeOk(cfg, Put(w, q, b), w.nodes[q])
      && w.nodes[q].id == q && S.Local(w.nodes[q])
  {
    hide Apply, Enabled, S.Local, S.Progress, Grows;
    S.ActLocal(cfg, w.nodes[q], act);
    MoveGrows(w, q, Apply(cfg, w.nodes[q], act));
    NodeGrows(cfg, w, Put(w, q, Apply(cfg, w.nodes[q], act)), w.nodes[q]);
  }

  lemma EnterMakes(cfg: Config, w: World, a: Node, b: Node)
    requires S.Local(a) && b == Apply(cfg, a, EnterView) && a.id in w.nodes && w.nodes[a.id] == b
    requires NodeOk(cfg, w, a) && S.Local(b)
    ensures NodeOk(cfg, w, b)
  {
    S.PreparedBefore(a);
    SignPastLaw(a.t, a.id, a.view);
    hide SignPast, S.Local, Led, CertKnown, Unforged, Made;
    var (t, ds, v) := SignPast(a.t, a.id, a.view);
    assert v.data in ds;
    VotedOk(cfg, w, a, b, NewView, v.data);
  }

  lemma ProposeKeeps(cfg: Config, w: World, q: PID, acc: Accum, block: Block, proof: seq<OneJust>)
    requires Inv(cfg, w) && q in w.nodes && Enabled(cfg, w.nodes[q], Propose(acc, block, proof))
    ensures Inv(cfg, Put(w, q, Apply(cfg, w.nodes[q], Propose(acc, block, proof))))
  {
    var act := Propose(acc, block, proof);
    var b := Apply(cfg, w.nodes[q], act);
    Prelude(cfg, w, q, act);
    hide Inv, NodeOk, Apply, Grows, S.Progress, Enabled;
    ProposeMakes(cfg, Put(w, q, b), w.nodes[q], b, acc, block, proof);
    MoveNode(cfg, w, q, b);
  }

  lemma ProposeMakes(cfg: Config, w: World, a: Node, b: Node, acc: Accum, block: Block, proof: seq<OneJust>)
    requires S.Local(a) && Enabled(cfg, a, Propose(acc, block, proof)) && b == Apply(cfg, a, Propose(acc, block, proof))
    requires NodeOk(cfg, w, a) && S.Local(b) && a.id in w.nodes && w.nodes[a.id] == b
    ensures NodeOk(cfg, w, b)
  {
    var vote, p := ProposeFacts(cfg, a, b, acc, block, proof);
    if FewFaulty(cfg, w.nodes.Keys) && cfg.IsTEE(a.id) {
      assert a.t.phase == Prepare;
      assert LedBy(w, a.id, p);
    }
    assert LdrMsg(p) in b.issued && p.acc.view == b.view;
    hide Apply, Enabled, S.Local, CertKnown, Unforged, Made, NodeOk;
    VotedOk(cfg, w, a, b, Prepare, vote.data);
  }

  lemma ProposeFacts(cfg: Config, a: Node, b: Node, acc: Accum, block: Block, proof: seq<OneJust>)
    returns (vote: Vote, p: Proposal)
    requires S.Local(a) && Enabled(cfg, a, Propose(acc, block, proof)) && b == Apply(cfg, a, Propose(acc, block, proof))
    ensures vote == Vote(vote.data, [Sign(true, a.id, RoundText(vote.data))])
    ensures p == Proposal(acc, block, proof, Sign(true, a.id, RoundText(vote.data)))
    ensures vote.data.propv == a.view == acc.view && a.view > 0 && cfg.LeaderOf(a.view) == a.id && !HasProposed(a)
    ensures vote.data.proph == BlockHash(block) && vote.data.phase == a.t.phase
    ensures a.t.phase == Prepare ==> vote.data == LdrData(p)
    ensures b == a.(t := b.t, signed := a.signed + [vote.data],
                    issued := a.issued + {LdrMsg(p)} + {VoteMsg(Prepare, vote)})
  {
    AcceptedProposal(cfg, a.t, a.id, block, acc, proof);
    S.PrepareInView(cfg, a, block, acc, proof);
    hide TeePrepare, ValidProof, HasProposed;
    vote := TeePrepare(cfg, a.t, a.id, block, acc, proof).1.value;
    p := Proposal(acc, block, proof, vote.signs[0]);
  }

  /** A checked proposal of a trusted leader was made by it. */
  lemma ProposalLed(cfg: Config, w: World, q: PID, p: Proposal)
    requires Inv(cfg, w) && q in w.nodes && LdrMsg(p) in w.nodes[q].Known() && VerifyLdrPrepare(cfg, p)
    requires TeeLed(cfg, p.acc.view)
    requires FewFaulty(cfg, w.nodes.Keys)
    ensures Led(cfg, w, LdrData(p))
  {
    var leader := cfg.LeaderOf(p.acc.view);
    assert NodeOk(cfg, w, w.nodes[q]);
    LeaderSignature(cfg, p);
    assert Genuine(w, p.sign);
    hide Made, Led;
    if leader in w.nodes {
      assert NodeOk(cfg, w, w.nodes[leader]);
    } else {
      assert LedBy(w, leader, p);
      assert Led(cfg, w, LdrData(p)) by { LedByLeads(cfg, w, p); }
    }
  }

  lemma LedByLeads(cfg: Config, w: World, p: Proposal)
    requires LedBy(w, cfg.LeaderOf(p.acc.view), p)
    ensures Led(cfg, w, LdrData(p))
  {
  }

  lemma VoteForKeeps(cfg: Config, w: World, q: PID, p: Proposal)
    requires Inv(cfg, w) && q in w.nodes && Enabled(cfg, w.nodes[q], VoteFor(p))
    ensures Inv(cfg, Put(w, q, Apply(cfg, w.nodes[q], VoteFor(p))))
  {
    var b := Apply(cfg, w.nodes[q], VoteFor(p));
    Prelude(cfg, w, q, VoteFor(p));
    hide Inv, NodeOk, Apply, Grows, S.Progress, Led, VerifyLdrPrepare;
    if FewFaulty(cfg, w.nodes.Keys) && TeeLed(cfg, p.acc.view) {
      ProposalLed(cfg, w, q, p);
      LedGrows(cfg, w, Put(w, q, b), LdrData(p));
    }
    VoteForMakes(cfg, Put(w, q, b), w.nodes[q], b, p);
    hide Enabled;
    MoveNode(cfg, w, q, b);
  }

  lemma VoteForMakes(cfg: Config, w: World, a: Node, b: Node, p: Proposal)
    requires S.Local(a) && Enabled(cfg, a, VoteFor(p)) && b == Apply(cfg, a, VoteFor(p))
    requires NodeOk(cfg, w, a) && S.Local(b) && a.id in w.nodes && w.nodes[a.id] == b
    requires FewFaulty(cfg, w.nodes.Keys) && TeeLed(cfg, p.acc.view) ==> Led(cfg, w, LdrData(p))
    ensures NodeOk(cfg, w, b)
  {
    var vote := S.VoteFacts(cfg, a, b, p);
    VoteHash(cfg, a, b, p);
    assert cfg.LeaderOf(a.view) != a.id;
    hide Apply, Enabled, S.Local, CertKnown, Unforged, Made, NodeOk, VerifyLdrPrepare, S.Binding, S.BoundAt;
    var d := vote.data;
    assert vote == Vote(d, [Sign(true, a.id, RoundText(d))]);
    assert b.signed[|a.signed|] == d;
    SameLed(cfg, w, LdrData(p), d);
    VotedOk(cfg, w, a, b, Prepare, d);
  }

  lemma VoteHash(cfg: Config, a: Node, b: Node, p: Proposal)
    requires S.Local(a) && Enabled(cfg, a, VoteFor(p)) && b == Apply(cfg, a, VoteFor(p))
    ensures |b.signed| == |a.signed| + 1 && b.signed[|a.signed|].proph == BlockHash(p.block)
  {
    AcceptedProposal(cfg, a.t, a.id, p.block, p.acc, p.proof);
    hide TeePrepare;
  }

  lemma SameLed(cfg: Config, w: World, d: RData, e: RData)
    requires d.propv == e.propv && d.proph == e.proph
    ensures Led(cfg, w, d) <==> Led(cfg, w, e)
  {
  }

  lemma StoreKeeps(cfg: Config, w: World, q: PID, cert: Vote)
    requires cfg.Valid() && Inv(cfg, w) && q in w.nodes && Enabled(cfg, w.nodes[q], StoreQC(cert))
    ensures Inv(cfg, Put(w, q, Apply(cfg, w.nodes[q], StoreQC(cert))))
  {
    var b := Apply(cfg, w.nodes[q], StoreQC(cert));
    Prelude(cfg, w, q, StoreQC(cert));
    StoreKnown(cfg, w.nodes[q], cert);
    hide Apply, Grows, S.Progress, S.Local, Led, Enabled, NodeOk, ValidCert, Inv, HasProposed, FewFaulty, TeeLed;
    hide LeadsView;
    if FewFaulty(cfg, w.nodes.Keys) && TeeLed(cfg, cert.data.propv) {
      StoreLed(cfg, w, q, cert);
      LedGrows(cfg, w, Put(w, q, b), cert.data);
    }
    LeaderIsTee(cfg, w.nodes[q], cert);
    StoreMakes(cfg, Put(w, q, b), w.nodes[q], b, cert);
    MoveNode(cfg, w, q, b);
  }

  predicate LeadsView(cfg: Config, a: Node, v: View) {
    cfg.LeaderOf(a.view) == a.id && v == a.view
  }

  lemma StoreKnown(cfg: Config, a: Node, cert: Vote)
    requires Enabled(cfg, a, StoreQC(cert))
    ensures ValidCert(cfg, cert.data, cert.signs) && CertMsg(cert) in a.Known() && cert.data.phase != NewView
  {
    hide ValidCert;
  }

  lemma StoreLed(cfg: Config, w: World, q: PID, cert: Vote)
    requires cfg.Valid() && Inv(cfg, w) && q in w.nodes && CertMsg(cert) in w.nodes[q].Known()
    requires ValidCert(cfg, cert.data, cert.signs) && cert.data.phase != NewView
    requires FewFaulty(cfg, w.nodes.Keys) && TeeLed(cfg, cert.data.propv)
    ensures Led(cfg, w, cert.data)
    ensures LeadsView(cfg, w.nodes[q], cert.data.propv) && w.nodes[q].id == q ==> HasProposed(w.nodes[q])
  {
    hide Inv, Led, ValidCert, FewFaulty, TeeLed, HasProposed;
    KnownCert(cfg, w, q, cert.data.phase, cert);
    CertLed(cfg, w, cert);
    if cfg.LeaderOf(w.nodes[q].view) == q && cert.data.propv == w.nodes[q].view { LedProposed(cfg, w, q, cert.data); }
  }

  lemma LeaderIsTee(cfg: Config, a: Node, cert: Vote)
    ensures cfg.IsTEE(a.id) && LeadsView(cfg, a, cert.data.propv) ==> TeeLed(cfg, cert.data.propv)
  {
  }

  lemma KnownCert(cfg: Config, w: World, q: PID, tag: Phase, cert: Vote)
    requires Inv(cfg, w) && q in w.nodes && VoteMsg(tag, cert) in w.nodes[q].Known()
    requires ValidCert(cfg, cert.data, cert.signs)
    ensures CertKnown(cfg, w, cert)
  {
    hide Genuine, S.Local, Made, Led, ValidCert;
    assert NodeOk(cfg, w, w.nodes[q]);
    assert Unforged(w, VoteMsg(tag, cert));
  }

  lemma LedProposed(cfg: Config, w: World, q: PID, d: RData)
    requires Led(cfg, w, d) && cfg.LeaderOf(d.propv) == q && q in w.nodes && w.nodes[q].view == d.propv
    ensures HasProposed(w.nodes[q])
  {
  }

  lemma StoreMakes(cfg: Config, w: World, a: Node, b: Node, cert: Vote)
    requires S.Local(a) && Enabled(cfg, a, StoreQC(cert)) && b == Apply(cfg, a, StoreQC(cert))
    requires NodeOk(cfg, w, a) && S.Local(b) && a.id in w.nodes && w.nodes[a.id] == b
    requires FewFaulty(cfg, w.nodes.Keys) && TeeLed(cfg, cert.data.propv) ==> Led(cfg, w, cert.data)
    requires FewFaulty(cfg, w.nodes.Keys) && cfg.IsTEE(a.id) && LeadsView(cfg, a, cert.data.propv) ==> HasProposed(a)
    ensures NodeOk(cfg, w, b)
  {
    var vote, tag := S.StoreFacts(cfg, a, b, cert);
    hide Apply, Enabled, S.Local, CertKnown, Unforged, Made, NodeOk, S.BoundAt;
    var d := vote.data;
    assert vote == Vote(d, [Sign(true, a.id, RoundText(d))]);
    assert b.signed[|a.signed|] == d;
    SameLed(cfg, w, cert.data, d);
    if HasProposed(a) { S.StillProposed(a, b); }
    hide Led, HasProposed;
    VotedOk(cfg, w, a, b, tag, d);
  }

  lemma IssueKeeps(cfg: Config, w: World, q: PID, cert: Vote)
    requires Inv(cfg, w) && q in w.nodes && Enabled(cfg, w.nodes[q], IssueQC(cert))
    ensures Inv(cfg, Put(w, q, Apply(cfg, w.nodes[q], IssueQC(cert))))
  {
    var b := Apply(cfg, w.nodes[q], IssueQC(cert));
    Prelude(cfg, w, q, IssueQC(cert));
    S.IssueFacts(cfg, w.nodes[q], cert);
    hide Enabled, Apply, Inv, NodeOk, S.Progress, Grows;
    NothingNewMade(cfg, w, q, b, cert);
    IssueMakes(cfg, Put(w, q, b), w.nodes[q], b, cert);
    MoveNode(cfg, w, q, b);
  }

  /** A certificate of known votes is as genuine as they are, and makes nothing new public. */
  lemma IssueMakes(cfg: Config, w: World, a: Node, b: Node, cert: Vote)
    requires NodeOk(cfg, w, a) && a.id in w.nodes && w.nodes[a.id] == b && VotesKnown(a, cert)
    requires b == a.(issued := a.issued + {CertMsg(cert)}) && (forall d :: Made(b, d) ==> Made(a, d))
    ensures NodeOk(cfg, w, b)
  {
    hide CertKnown, Led, Made;
    forall s | s in cert.signs ensures Genuine(w, s) {
      assert Unforged(w, CertMsg(Vote(cert.data, [s])));
      assert s in [s];
    }
    if HasProposed(a) { S.StillProposed(a, b); }
    hide Genuine, HasProposed, VotesKnown;
    assert Unforged(w, CertMsg(cert));
    hide Unforged;
    forall m | m in b.Known() ensures Unforged(w, m) {
      assert m in a.Known() || m == CertMsg(cert);
    }
  }

  lemma NothingNewMade(cfg: Config, w: World, q: PID, b: Node, cert: Vote)
    requires Inv(cfg, w) && q in w.nodes && VotesKnown(w.nodes[q], cert)
    requires b == w.nodes[q].(issued := w.nodes[q].issued + {CertMsg(cert)})
    ensures forall d :: Made(b, d) ==> Made(w.nodes[q], d)
  {
    var a := w.nodes[q];
    assert NodeOk(cfg, w, a);
    hide NodeOk, Inv;
    forall d | Made(b, d) ensures Made(a, d) {
      var s := Sign(true, a.id, RoundText(d));
      var tag :| VoteMsg(tag, Vote(d, [s])) in b.issued;
      if VoteMsg(tag, Vote(d, [s])) !in a.issued {
        assert cert == Vote(d, [s]) && s in cert.signs;
        OwnVoteKnown(cfg, w, q, tag, d);
      }
    }
  }

  /** A replica's own signature in a message it knows is one it made public. */
  lemma OwnVoteKnown(cfg: Config, w: World, q: PID, tag: Phase, d: RData)
    requires Inv(cfg, w) && q in w.nodes && VoteMsg(tag, Vote(d, [Sign(true, q, RoundText(d))])) in w.nodes[q].Known()
    ensures Made(w.nodes[q], d)
  {
    hide Made, Led;
    assert NodeOk(cfg, w, w.nodes[q]);
    assert Sign(true, q, RoundText(d)) in [Sign(true, q, RoundText(d))];
    assert Genuine(w, Sign(true, q, RoundText(d)));
  }

  lemma ExecuteKeeps(cfg: Config, w: World, q: PID, cert: Vote)
    requires Inv(cfg, w) && q in w.nodes && Enabled(cfg, w.nodes[q], Act.Execute(cert))
    ensures Inv(cfg, Put(w, q, Apply(cfg, w.nodes[q], Act.Execute(cert))))
  {
    var b := Apply(cfg, w.nodes[q], Act.Execute(cert));
    Prelude(cfg, w, q, Act.Execute(cert));
    S.ExecuteFacts(cfg, w.nodes[q], cert);
    hide S.Progress, Grows, NodeOk, ValidCert, Apply, Enabled, Inv, S.Local, Final;
    KnownCert(cfg, w, q, cert.data.phase, cert);
    CertGrows(cfg, w, Put(w, q, b), cert);
    SameMade(w.nodes[q], b);
    ExecuteMakes(cfg, Put(w, q, b), w.nodes[q], b, cert);
    MoveNode(cfg, w, q, b);
  }

  lemma SameMade(a: Node, b: Node)
    requires a.id == b.id && a.issued == b.issued && a.view == b.view
    ensures forall d :: Made(b, d) <==> Made(a, d)
    ensures HasProposed(a) <==> HasProposed(b)
  {
  }

  lemma ExecuteMakes(cfg: Config, w: World, a: Node, b: Node, cert: Vote)
    requires NodeOk(cfg, w, a) && b == a.(executed := a.executed + [cert.data])
    requires Final(cfg, cert.data) && CertKnown(cfg, w, cert)
    requires (forall d :: Made(b, d) <==> Made(a, d)) && (HasProposed(a) <==> HasProposed(b))
    ensures NodeOk(cfg, w, b)
  {
    hide Made, Led, CertKnown, Unforged, HasProposed;
  }

  lemma ReceiveKeeps(cfg: Config, w: World, q: PID, m: Msg)
    requires Inv(cfg, w) && q in w.nodes && Unforged(w, m)
    ensures Inv(cfg, Put(w, q, w.nodes[q].(inbox := w.nodes[q].inbox + {m})))
  {
    var a := w.nodes[q];
    var b := a.(inbox := a.inbox + {m});
    var w' := Put(w, q, b);
    MoveGrows(w, q, b);
    NodeGrows(cfg, w, w', a);
    UnforgedGrows(w, w', m);
    SameMade(a, b);
    hide Inv, Grows, Unforged;
    ReceiveMakes(cfg, w', a, b, m);
    hide NodeOk;
    MoveNode(cfg, w, q, b);
  }

  lemma ReceiveMakes(cfg: Config, w: World, a: Node, b: Node, m: Msg)
    requires NodeOk(cfg, w, a) && b == a.(inbox := a.inbox + {m}) && Unforged(w, m)
    requires (forall d :: Made(b, d) <==> Made(a, d)) && (HasProposed(a) <==> HasProposed(b))
    ensures NodeOk(cfg, w, b)
  {
    hide Made, Led, CertKnown, Unforged, HasProposed;
  }

  /** A faulty host makes a call of its choice. */
  function Driven(cfg: Config, q: PID, c: Component, call: Call): Component {
    var (t, v) := Perform(cfg, c.t, q, call);
    Component(t, if v.Some? then c.signed + [v.value.data] else c.signed)
  }

  lemma DriveKeeps(cfg: Config, w: World, q: PID, call: Call)
    requires Inv(cfg, w) && q in w.comps
    ensures Inv(cfg, w.(comps := w.comps[q := Driven(cfg, q, w.comps[q], call)]))
  {
    hide NodeOk, Setting;
    var c := w.comps[q];
    var w' := w.(comps := w.comps[q := Driven(cfg, q, c, call)]);
    DrivenOk(cfg, q, c, call);
    assert w'.comps.Keys == w.comps.Keys;
    assert Grows(w, w') by { DriveGrows(cfg, w, q, call); }
    hide Grows, Driven;
    forall p | p in w'.nodes ensures w'.nodes[p].id == p && NodeOk(cfg, w', w'.nodes[p]) {
      NodeGrows(cfg, w, w', w.nodes[p]);
    }
  }

  lemma DriveGrows(cfg: Config, w: World, q: PID, call: Call)
    requires q in w.comps
    ensures Grows(w, w.(comps := w.comps[q := Driven(cfg, q, w.comps[q], call)]))
  {
    hide Perform;
    forall p | p in w.nodes ensures S.Progress(w.nodes[p], w.nodes[p]) {
    }
    assert w.comps[q := Driven(cfg, q, w.comps[q], call)].Keys == w.comps.Keys;
  }

  lemma DrivenOk(cfg: Config, q: PID, c: Component, call: Call)
    requires CompOk(c)
    ensures CompOk(Driven(cfg, q, c, call))
  {
    PerformLaw(cfg, c.t, q, call);
    hide Perform;
    var (t, v) := Perform(cfg, c.t, q, call);
    if v.Some? { SignedGrows(c.signed, v.value.data, StateKey(t)); }
  }

  lemma ActKeeps(cfg: Config, w: World, q: PID, act: Act)
    requires cfg.Valid() && Inv(cfg, w) && q in w.nodes && Enabled(cfg, w.nodes[q], act)
    ensures Inv(cfg, Put(w, q, Apply(cfg, w.nodes[q], act)))
  {
    hide Inv, Enabled, Apply;
    match act
    case EnterView => EnterKeeps(cfg, w, q);
    case Propose(acc, block, proof) => ProposeKeeps(cfg, w, q, acc, block, proof);
    case VoteFor(p) => VoteForKeeps(cfg, w, q, p);
    case StoreQC(cert) => StoreKeeps(cfg, w, q, cert);
    case IssueQC(cert) => IssueKeeps(cfg, w, q, cert);
    case Execute(cert) => ExecuteKeeps(cfg, w, q, cert);
  }

  lemma {:induction false} RunsKeep(cfg: Config, w: World, q: PID, acts: seq<Act>, b: Node)
    requires cfg.Valid() && Inv(cfg, w) && q in w.nodes && Runs(cfg, w.nodes[q], acts, b)
    ensures Inv(cfg, Put(w, q, b))
    decreases |acts|
  {
    hide Inv, Enabled, Apply;
    if acts == [] {
      assert Put(w, q, b) == w;
    } else {
      var a1 := Apply(cfg, w.nodes[q], acts[0]);
      ActKeeps(cfg, w, q, acts[0]);
      RunsKeep(cfg, Put(w, q, a1), q, acts[1..], b);
      assert Put(Put(w, q, a1), q, b) == Put(w, q, b);
    }
  }
}
