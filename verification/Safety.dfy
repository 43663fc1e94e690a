/** What every run of the whole system keeps, as long as replicas only crash, omit, delay and time out:
    the invariant behind agreement, and its preservation by each protocol action of each node. */
module Safety {
  import opened Types
  import opened Certificates
  import opened TrustedMachine
  import opened Replicas
  import opened Protocol

  type World = map<PID, Node>

  ghost predicate Sent(w: World, m: Msg) {
    exists q :: q in w && m in w[q].issued
  }

  // ---- one node

  predicate Local(a: Node) {
    && a.t.view >= 1 && Lockstep(a.t, a.view) && Ordered(a.t)
    && (a.t.phase == Prepare ==> a.t.prepv < a.t.view)
    && Increasing(a.signed) && Below(a.signed, StateKey(a.t))
  }

  /** How a node moves: it forgets nothing, and its new new-views claim what it has prepared. */
  predicate Progress(a: Node, b: Node) {
    && b.id == a.id
    && a.issued <= b.issued
    && (forall d :: d in a.signed ==> d in b.signed)
    && (forall d :: d in b.signed && d !in a.signed && d.phase == NewView ==> d.justv >= a.t.prepv)
    && a.t.prepv <= b.t.prepv
  }

  /** A node that counts as prepared at view v says so in every new-view for a later view. */
  predicate BoundAt(a: Node, v: View) {
    && a.t.prepv >= v
    && forall d :: d in a.signed && d.phase == NewView && d.propv > v ==> d.justv >= v
  }

  lemma BoundProgress(a: Node, b: Node, v: View)
    requires BoundAt(a, v) && Progress(a, b)
    ensures BoundAt(b, v)
  {
  }

  /** A signature on the current round keeps the order. */
  lemma SignedLocal(a: Node, t: Trusted, v: Vote, b: Node)
    requires Local(a) && StepLaw(a.t, t, Some(v), a.id) && a.t.phase != NewView && a.t.view == a.view
    requires b.id == a.id && b.t == t && b.view == a.view && b.signed == a.signed + [v.data] && a.issued <= b.issued
    ensures Local(b) && Progress(a, b)
  {
    SignedGrows(a.signed, v.data, StateKey(t));
  }

  lemma EnterLocal(cfg: Config, a: Node)
    requires Local(a)
    ensures Local(Apply(cfg, a, EnterView)) && Progress(a, Apply(cfg, a, EnterView))
  {
    SignPastLaw(a.t, a.id, a.view);
    hide SignPast;
    var (t, ds, v) := SignPast(a.t, a.id, a.view);
    var b := Apply(cfg, a, EnterView);
    forall d | d in ds && d.phase == NewView ensures d == v.data {
      var i :| 0 <= i < |ds| && ds[i] == d;
    }
  }

  lemma ActLocal(cfg: Config, a: Node, act: Act)
    requires Local(a) && Enabled(cfg, a, act)
    ensures Local(Apply(cfg, a, act)) && Progress(a, Apply(cfg, a, act))
  {
    var b := Apply(cfg, a, act);
    match act
    case EnterView =>
      EnterLocal(cfg, a);
    case Propose(acc, block, proof) =>
      PrepareInView(cfg, a, block, acc, proof);
      SignedLocal(a, b.t, TeePrepare(cfg, a.t, a.id, block, acc, proof).1.value, b);
    case VoteFor(p) =>
      PrepareInView(cfg, a, p.block, p.acc, p.proof);
      SignedLocal(a, b.t, TeePrepare(cfg, a.t, a.id, p.block, p.acc, p.proof).1.value, b);
    case StoreQC(cert) =>
      StoreLaw(cfg, a.t, a.id, cert);
      SignedLocal(a, b.t, TeeStore(cfg, a.t, a.id, cert).1.value, b);
    case IssueQC(cert) =>
    case Execute(cert) =>
  }

  lemma PrepareInView(cfg: Config, a: Node, block: Block, acc: Accum, proof: seq<OneJust>)
    requires Local(a) && acc.view == a.view && TeePrepare(cfg, a.t, a.id, block, acc, proof).1.Some?
    ensures var (t, v) := TeePrepare(cfg, a.t, a.id, block, acc, proof);
      StepLaw(a.t, t, v, a.id) && a.t.phase != NewView && a.t.view == a.view
  {
    PrepareLaw(cfg, a.t, a.id, block, acc, proof);
    AcceptedProposal(cfg, a.t, a.id, block, acc, proof);
  }

  // ---- what the messages of a world establish

  /** The round data `d` is what the leader of its view proposed, on a full set of sent new-views. */
  ghost predicate ProposedData(cfg: Config, w: World, d: RData) {
    var leader := cfg.LeaderOf(d.propv);
    && leader in w && d in w[leader].signed
    && exists p :: LdrMsg(p) in w[leader].issued && BacksData(cfg, w, p, d)
  }

  ghost predicate BacksData(cfg: Config, w: World, p: Proposal, d: RData) {
    && LdrData(p) == d
    && ValidProof(cfg, d.propv, p.proof) && Summarises(p.acc, d.propv, p.proof)
    && Extends(p.block, p.acc.hash) && WellMade(cfg, p.block, p.acc)
    && ProofSent(w, p.proof)
  }

  ghost predicate ProofSent(w: World, proof: seq<OneJust>) {
    forall e :: e in proof ==> Sent(w, EntryMsg(e))
  }

  /** The block with hash `h` was proposed in view `v`. */
  ghost predicate ProposedAt(cfg: Config, w: World, v: View, h: Hash) {
    exists d :: ProposedData(cfg, w, d) && d.propv == v && d.proph == h
  }

  /** What (prepv, preph) and the claims in new-views stand for: a proposed block, and under a leader without
      trusted hardware one with a certificate. */
  ghost predicate Claim(cfg: Config, w: World, v: View, h: Hash) {
    if v == 0 then h == NEW_HASH else ProposedAt(cfg, w, v, h) && (TeeLed(cfg, v) || Certified(cfg, w, v, h))
  }

  ghost predicate CertSent(cfg: Config, w: World, cert: Vote) {
    Sent(w, CertMsg(cert)) && ValidCert(cfg, cert.data, cert.signs)
  }

  /** A valid PREPARE or PRE-COMMIT certificate of view v for the block of this hash was sent. */
  ghost predicate Certified(cfg: Config, w: World, v: View, h: Hash) {
    exists cert :: CertSent(cfg, w, cert) && cert.data.propv == v && cert.data.proph == h
                   && (cert.data.phase == Prepare || cert.data.phase == PreCommit)
  }

  ghost predicate LockClaim(cfg: Config, w: World, v: View, h: Hash) {
    if v == 0 then h.digest == Genesis
    else exists cert :: CertSent(cfg, w, cert) && cert.data.phase == PreCommit
                        && cert.data.propv == v && cert.data.proph.digest == h.digest
  }

  /** Votes after which the voter counts the block as prepared. */
  predicate Binding(cfg: Config, d: RData) {
    d.phase == PreCommit || d.phase == Commit || (d.phase == Prepare && TeeLed(cfg, d.propv))
  }

  // ---- the invariant

  ghost predicate NodeOk(cfg: Config, w: World, a: Node) {
    && Local(a)
    && (forall m :: m in a.inbox ==> Sent(w, m))
    && (a.view > 0 && cfg.LeaderOf(a.view) == a.id && !HasProposed(a) ==> (a.t.view == a.view && a.t.phase == Prepare))
    && Claim(cfg, w, a.t.prepv, a.t.preph)
    && LockClaim(cfg, w, a.t.lockv, a.t.lockh)
    && (forall d :: d in a.executed ==> Final(cfg, d) && exists cert :: CertSent(cfg, w, cert) && cert.data == d)
  }

  /** A signature in a vote message was made by its signer on this round, and was sent as a vote. */
  ghost predicate SignOk(cfg: Config, w: World, tag: Phase, d: RData, s: Sign) {
    && s.text == RoundText(d) && s.signer in w
    && d in w[s.signer].signed
    && Sent(w, VoteMsg(tag, Vote(d, [s])))
    && (tag == d.phase && Binding(cfg, d) ==> BoundAt(w[s.signer], d.propv))
  }

  ghost predicate VoteOk(cfg: Config, w: World, tag: Phase, m: Vote) {
    && m.signs != []
    && (forall s :: s in m.signs ==> SignOk(cfg, w, tag, m.data, s))
    && (tag == NewView ==>
      && m.data.phase == NewView && m.data.proph == NO_HASH
      && m.data.justv < m.data.propv && Claim(cfg, w, m.data.justv, m.data.justh))
    && (tag == Prepare && m.data.phase == Prepare ==> ProposedData(cfg, w, m.data))
    && (tag == m.data.phase && tag != NewView ==> ProposedAt(cfg, w, m.data.propv, m.data.proph))
    && (tag == PreCommit ==> !TeeLed(cfg, m.data.propv))
    && (tag == m.data.phase && (tag == PreCommit || tag == Commit) ==> m.data.justh == NEW_HASH && m.data.justv == 0)
  }

  ghost predicate MsgOk(cfg: Config, w: World, m: Msg) {
    match m
    case VoteMsg(tag, v) => VoteOk(cfg, w, tag, v)
    case LdrMsg(p) => VerifyLdrPrepare(cfg, p) && BacksData(cfg, w, p, LdrData(p)) && ProposedData(cfg, w, LdrData(p))
  }

  ghost predicate Inv(cfg: Config, w: World) {
    && w.Keys == cfg.nodes.Keys
    && (forall q :: q in w ==> w[q].id == q && NodeOk(cfg, w, w[q]))
    && (forall m :: Sent(w, m) ==> MsgOk(cfg, w, m))
  }

  // ---- a world that moves on keeps what it established

  ghost predicate Grows(w: World, w': World) {
    w.Keys == w'.Keys && forall q :: q in w ==> Progress(w[q], w'[q])
  }

  lemma SentGrows(w: World, w': World, m: Msg)
    requires Grows(w, w') && Sent(w, m)
    ensures Sent(w', m)
  {
  }

  lemma BacksGrows(cfg: Config, w: World, w': World, p: Proposal, d: RData)
    requires Grows(w, w') && BacksData(cfg, w, p, d)
    ensures BacksData(cfg, w', p, d)
  {
    forall e | e in p.proof ensures Sent(w', EntryMsg(e)) { SentGrows(w, w', EntryMsg(e)); }
  }

  lemma ProposedGrows(cfg: Config, w: World, w': World, d: RData)
    requires Grows(w, w') && ProposedData(cfg, w, d)
    ensures ProposedData(cfg, w', d)
  {
    var leader := cfg.LeaderOf(d.propv);
    var p :| LdrMsg(p) in w[leader].issued && BacksData(cfg, w, p, d);
    BacksGrows(cfg, w, w', p, d);
  }

  lemma ProposedAtGrows(cfg: Config, w: World, w': World, v: View, h: Hash)
    requires Grows(w, w') && ProposedAt(cfg, w, v, h)
    ensures ProposedAt(cfg, w', v, h)
  {
    var d :| ProposedData(cfg, w, d) && d.propv == v && d.proph == h;
    ProposedGrows(cfg, w, w', d);
  }

  lemma ClaimGrows(cfg: Config, w: World, w': World, v: View, h: Hash)
    requires Grows(w, w') && Claim(cfg, w, v, h)
    ensures Claim(cfg, w', v, h)
  {
    if v != 0 {
      ProposedAtGrows(cfg, w, w', v, h);
      if Certified(cfg, w, v, h) { CertifiedGrows(cfg, w, w', v, h); }
    }
  }

  lemma CertifiedGrows(cfg: Config, w: World, w': World, v: View, h: Hash)
    requires Grows(w, w') && Certified(cfg, w, v, h)
    ensures Certified(cfg, w', v, h)
  {
    hide ValidCert, Grows;
    var cert :| CertSent(cfg, w, cert) && cert.data.propv == v && cert.data.proph == h
                && (cert.data.phase == Prepare || cert.data.phase == PreCommit);
    SentGrows(w, w', CertMsg(cert));
    assert CertSent(cfg, w', cert);
  }

  lemma LockGrows(cfg: Config, w: World, w': World, v: View, h: Hash)
    requires Grows(w, w') && LockClaim(cfg, w, v, h)
    ensures LockClaim(cfg, w', v, h)
  {
    hide ValidCert;
    if v != 0 {
      var cert :| CertSent(cfg, w, cert) && cert.data.phase == PreCommit
                  && cert.data.propv == v && cert.data.proph.digest == h.digest;
      SentGrows(w, w', CertMsg(cert));
      assert CertSent(cfg, w', cert);
    }
  }

  lemma SignGrows(cfg: Config, w: World, w': World, tag: Phase, d: RData, s: Sign)
    requires Grows(w, w') && SignOk(cfg, w, tag, d, s)
    ensures SignOk(cfg, w', tag, d, s)
  {
    SentGrows(w, w', VoteMsg(tag, Vote(d, [s])));
    if tag == d.phase && Binding(cfg, d) { BoundProgress(w[s.signer], w'[s.signer], d.propv); }
  }

  lemma MsgGrows(cfg: Config, w: World, w': World, m: Msg)
    requires Grows(w, w') && MsgOk(cfg, w, m)
    ensures MsgOk(cfg, w', m)
  {
    hide SignOk, ProposedData, ProposedAt, Claim, VerifyLdrPrepare, BacksData;
    match m
    case VoteMsg(tag, v) =>
      forall s | s in v.signs ensures SignOk(cfg, w', tag, v.data, s) { SignGrows(cfg, w, w', tag, v.data, s); }
      if tag == NewView { ClaimGrows(cfg, w, w', v.data.justv, v.data.justh); }
      if tag == Prepare && v.data.phase == Prepare { ProposedGrows(cfg, w, w', v.data); }
      if tag == v.data.phase && tag != NewView { ProposedAtGrows(cfg, w, w', v.data.propv, v.data.proph); }
    case LdrMsg(p) =>
      BacksGrows(cfg, w, w', p, LdrData(p));
      ProposedGrows(cfg, w, w', LdrData(p));
  }

  lemma NodeGrows(cfg: Config, w: World, w': World, a: Node)
    requires Grows(w, w') && NodeOk(cfg, w, a)
    ensures NodeOk(cfg, w', a)
  {
    hide Claim, LockClaim, Local;
    forall m | m in a.inbox ensures Sent(w', m) { SentGrows(w, w', m); }
    ClaimGrows(cfg, w, w', a.t.prepv, a.t.preph);
    LockGrows(cfg, w, w', a.t.lockv, a.t.lockh);
    forall d | d in a.executed ensures exists cert :: CertSent(cfg, w', cert) && cert.data == d {
      var cert :| CertSent(cfg, w, cert) && cert.data == d;
      SentGrows(w, w', CertMsg(cert));
      assert CertSent(cfg, w', cert);
    }
  }

  /** Moving one node: it remains to look at that node and at its new messages. */
  lemma MoveNode(cfg: Config, w: World, q: PID, b: Node)
    requires Inv(cfg, w) && q in w && Progress(w[q], b)
    requires NodeOk(cfg, w[q := b], b)
    requires forall m :: m in b.issued && m !in w[q].issued ==> MsgOk(cfg, w[q := b], m)
    ensures Inv(cfg, w[q := b])
  {
    hide NodeOk, MsgOk, Progress;
    var w' := w[q := b];
    MoveGrows(w, q, b);
    forall p | p in w' ensures w'[p].id == p && NodeOk(cfg, w', w'[p]) {
      if p != q { NodeGrows(cfg, w, w', w[p]); } else { ProgressId(w[q], b); }
    }
    forall m | Sent(w', m) ensures MsgOk(cfg, w', m) {
      if !(m in b.issued && m !in w[q].issued) {
        SentBefore(w, q, b, m);
        MsgGrows(cfg, w, w', m);
      }
    }
  }

  lemma ProgressId(a: Node, b: Node)
    requires Progress(a, b)
    ensures b.id == a.id
  {
  }

  lemma SentBefore(w: World, q: PID, b: Node, m: Msg)
    requires q in w && Sent(w[q := b], m) && !(m in b.issued && m !in w[q].issued)
    ensures Sent(w, m)
  {
    var p :| p in w[q := b] && m in w[q := b][p].issued;
    assert p in w && m in w[p].issued;
  }

  lemma MoveGrows(w: World, q: PID, b: Node)
    requires q in w && Progress(w[q], b)
    ensures Grows(w, w[q := b])
  {
    assert w[q := b].Keys == w.Keys;
  }

  // ---- each action keeps the invariant

  /** A node's own new vote is a good signature in the world it leads to. */
  lemma OwnVote(cfg: Config, w: World, q: PID, tag: Phase, v: Vote)
    requires q in w && VoteMsg(tag, v) in w[q].issued && v.data in w[q].signed
    requires v.signs == [Sign(true, q, RoundText(v.data))]
    requires tag == v.data.phase && Binding(cfg, v.data) ==> BoundAt(w[q], v.data.propv)
    ensures v.signs != [] && forall s :: s in v.signs ==> SignOk(cfg, w, tag, v.data, s)
  {
    assert v == Vote(v.data, [v.signs[0]]);
  }

  /** Having just signed round d, a node that counts as prepared in its view is bound there. */
  lemma BoundNow(a: Node, b: Node, d: RData)
    requires Local(a) && RoundKey(d) == StateKey(a.t) && d.phase != NewView
    requires b.signed == a.signed + [d] && b.t.prepv >= d.propv
    ensures BoundAt(b, d.propv)
  {
  }

  /** Before looking at what an action added: everything established stays so. */
  lemma ActGrows(cfg: Config, w: World, q: PID, act: Act)
    requires Inv(cfg, w) && q in w && Enabled(cfg, w[q], act)
    ensures var b := Apply(cfg, w[q], act);
      Progress(w[q], b) && Local(b) && Grows(w, w[q := b]) && NodeOk(cfg, w[q := b], w[q])
  {
    hide Local, Progress, Enabled, Apply;
    assert NodeOk(cfg, w, w[q]);
    ActLocal(cfg, w[q], act);
    MoveGrows(w, q, Apply(cfg, w[q], act));
    NodeGrows(cfg, w, w[q := Apply(cfg, w[q], act)], w[q]);
  }

  lemma EnterKeeps(cfg: Config, w: World, q: PID)
    requires Inv(cfg, w) && q in w && Enabled(cfg, w[q], EnterView)
    ensures Inv(cfg, w[q := Apply(cfg, w[q], EnterView)])
  {
    var a := w[q];
    var b := Apply(cfg, a, EnterView);
    ActGrows(cfg, w, q, EnterView);
    EnterMakes(cfg, w[q := b], a, b);
    hide Enabled, Apply, MsgOk, NodeOk;
    MoveNode(cfg, w, q, b);
  }

  lemma EnterMakes(cfg: Config, w: World, a: Node, b: Node)
    requires Local(a) && b == Apply(cfg, a, EnterView) && a.id in w && w[a.id] == b
    requires NodeOk(cfg, w, a) && Local(b)
    ensures NodeOk(cfg, w, b)
    ensures forall m :: m in b.issued && m !in a.issued ==> MsgOk(cfg, w, m)
  {
    SignPastLaw(a.t, a.id, a.view);
    PreparedBefore(a);
    hide SignPast, Local, Claim, LockClaim, SignOk, BoundAt;
    var (t, ds, v) := SignPast(a.t, a.id, a.view);
    assert v.data in ds;
    OwnVote(cfg, w, a.id, NewView, v);
    assert MsgOk(cfg, w, VoteMsg(NewView, v));
  }

  lemma PreparedBefore(a: Node)
    requires Local(a)
    ensures a.t.prepv < a.view + 1 && StateKey(a.t) <= 4 * (a.view + 1)
  {
  }

  lemma ProposeKeeps(cfg: Config, w: World, q: PID, acc: Accum, block: Block, proof: seq<OneJust>)
    requires Inv(cfg, w) && q in w && Enabled(cfg, w[q], Propose(acc, block, proof))
    ensures Inv(cfg, w[q := Apply(cfg, w[q], Propose(acc, block, proof))])
  {
    var a := w[q];
    var act := Propose(acc, block, proof);
    var b := Apply(cfg, a, act);
    var w' := w[q := b];
    ActGrows(cfg, w, q, act);
    hide TeePrepare, MsgOk, NodeOk, Apply;
    forall e | e in proof ensures Sent(w', EntryMsg(e)) {
      KnownSent(cfg, w, q, EntryMsg(e));
      SentGrows(w, w', EntryMsg(e));
    }
    ProposeMakes(cfg, w', a, b, acc, block, proof);
    hide Enabled;
    MoveNode(cfg, w, q, b);
  }

  lemma ProposeMakes(cfg: Config, w: World, a: Node, b: Node, acc: Accum, block: Block, proof: seq<OneJust>)
    requires Local(a) && Enabled(cfg, a, Propose(acc, block, proof)) && b == Apply(cfg, a, Propose(acc, block, proof))
    requires NodeOk(cfg, w, a) && Local(b) && a.id in w && w[a.id] == b && ProofSent(w, proof) && a.id in cfg.nodes
    ensures NodeOk(cfg, w, b)
    ensures forall m :: m in b.issued && m !in a.issued ==> MsgOk(cfg, w, m)
  {
    hide TeePrepare, ValidProof, Summarises, Claim, LockClaim, BoundAt, VerifyLdrPrepare, Local, ProposedData, MsgOk;
    var p, vote := ProposeFacts(cfg, a, b, acc, block, proof);
    assert cfg.LeaderOf(a.view) == a.id && acc.sign.signer == a.id;
    assert LdrMsg(p) in b.issued;
    hide Apply, Enabled, ProposedAt, NodeOk, WellMade, ProofSent, BacksData;
    ProposedNow(cfg, w, a.id, p, vote);
    ProposedHere(cfg, w, vote.data);
    ProposedMsgs(cfg, w, a.id, p, vote);
    VotedNode(cfg, w, a, b, vote.data);
  }

  lemma ProposedNow(cfg: Config, w: World, leader: PID, p: Proposal, vote: Vote)
    requires leader in w && LdrMsg(p) in w[leader].issued && vote.data in w[leader].signed
    requires vote.data == LdrData(p) && cfg.LeaderOf(vote.data.propv) == leader
    requires ValidProof(cfg, p.acc.view, p.proof) && Summarises(p.acc, p.acc.view, p.proof)
    requires Extends(p.block, p.acc.hash) && WellMade(cfg, p.block, p.acc) && ProofSent(w, p.proof)
    ensures ProposedData(cfg, w, vote.data) && BacksData(cfg, w, p, vote.data)
  {
    hide ValidProof, Summarises;
    assert BacksData(cfg, w, p, vote.data);
  }

  lemma ProposedMsgs(cfg: Config, w: World, leader: PID, p: Proposal, vote: Vote)
    requires leader in w && VoteMsg(Prepare, vote) in w[leader].issued && vote.data in w[leader].signed
    requires vote.data == LdrData(p) && vote.signs == [p.sign] && p.sign == Sign(true, leader, RoundText(vote.data))
    requires cfg.LeaderOf(p.acc.view) == leader && leader in cfg.nodes && p.acc.sign.signer == leader
    requires ProposedData(cfg, w, vote.data) && BacksData(cfg, w, p, vote.data)
    requires Binding(cfg, vote.data) ==> BoundAt(w[leader], vote.data.propv)
    ensures MsgOk(cfg, w, LdrMsg(p)) && MsgOk(cfg, w, VoteMsg(Prepare, vote))
  {
    OwnVote(cfg, w, leader, Prepare, vote);
    ProposedHere(cfg, w, vote.data);
    hide ProposedData, SignOk, ValidProof, Summarises, ProofSent;
  }

  /** What a leader's proposal step adds. */
  lemma ProposeFacts(cfg: Config, a: Node, b: Node, acc: Accum, block: Block, proof: seq<OneJust>)
    returns (p: Proposal, vote: Vote)
    requires Local(a) && Enabled(cfg, a, Propose(acc, block, proof)) && b == Apply(cfg, a, Propose(acc, block, proof))
    requires a.view > 0 && !HasProposed(a) ==> a.t.phase == Prepare
    ensures p == Proposal(acc, block, proof, Sign(true, a.id, RoundText(vote.data))) && vote.data == LdrData(p)
    ensures b.issued == a.issued + {LdrMsg(p)} + {VoteMsg(Prepare, vote)} && vote.data.propv == a.view > 0
    ensures vote.signs == [Sign(true, a.id, RoundText(vote.data))]
    ensures ValidProof(cfg, a.view, proof) && Summarises(acc, a.view, proof) && Extends(block, acc.hash)
    ensures WellMade(cfg, block, acc)
    ensures b == a.(t := b.t, signed := a.signed + [vote.data], issued := b.issued)
    ensures b.t.lockv == a.t.lockv && b.t.lockh == a.t.lockh
    ensures if TeeLed(cfg, a.view) then b.t.prepv == a.view && b.t.preph == vote.data.proph
            else b.t.prepv == a.t.prepv && b.t.preph == a.t.preph
    ensures Binding(cfg, vote.data) ==> BoundAt(b, a.view)
  {
    AcceptedProposal(cfg, a.t, a.id, block, acc, proof);
    hide TeePrepare, ValidProof, BoundAt;
    vote := TeePrepare(cfg, a.t, a.id, block, acc, proof).1.value;
    p := Proposal(acc, block, proof, vote.signs[0]);
    ProposeBound(cfg, a, b, vote.data);
  }

  lemma ProposedHere(cfg: Config, w: World, d: RData)
    requires ProposedData(cfg, w, d)
    ensures ProposedAt(cfg, w, d.propv, d.proph)
  {
  }

  lemma ProposeBound(cfg: Config, a: Node, b: Node, d: RData)
    requires Local(a) && RoundKey(d) == StateKey(a.t) && d.phase == Prepare && b.signed == a.signed + [d]
    requires TeeLed(cfg, d.propv) ==> b.t.prepv >= d.propv
    ensures Binding(cfg, d) ==> BoundAt(b, d.propv)
  {
    if Binding(cfg, d) { BoundNow(a, b, d); }
  }

  lemma KnownSent(cfg: Config, w: World, q: PID, m: Msg)
    requires Inv(cfg, w) && q in w && m in w[q].Known()
    ensures Sent(w, m) && MsgOk(cfg, w, m)
  {
  }

  /** A vote tagged with its own phase and backed by a proposal is a good message. */
  lemma VoteMsgOk(cfg: Config, w: World, q: PID, tag: Phase, v: Vote)
    requires q in w && VoteMsg(tag, v) in w[q].issued && v.data in w[q].signed && tag != NewView
    requires v.signs == [Sign(true, q, RoundText(v.data))]
    requires tag == v.data.phase && Binding(cfg, v.data) ==> BoundAt(w[q], v.data.propv)
    requires tag == v.data.phase ==> ProposedAt(cfg, w, v.data.propv, v.data.proph)
    requires tag == Prepare && v.data.phase == Prepare ==> ProposedData(cfg, w, v.data)
    requires tag == PreCommit ==> !TeeLed(cfg, v.data.propv)
    requires tag == PreCommit || tag == Commit ==> v.data.justh == NEW_HASH && v.data.justv == 0
    ensures MsgOk(cfg, w, VoteMsg(tag, v))
  {
    OwnVote(cfg, w, q, tag, v);
    hide ProposedAt, ProposedData, SignOk;
  }

  /** What a backup's vote for a proposal adds. */
  lemma VoteFacts(cfg: Config, a: Node, b: Node, p: Proposal) returns (vote: Vote)
    requires Local(a) && Enabled(cfg, a, VoteFor(p)) && b == Apply(cfg, a, VoteFor(p))
    ensures vote.signs == [Sign(true, a.id, RoundText(vote.data))] && vote.data.propv == p.acc.view == a.view
    ensures vote.data.phase == Prepare ==> vote.data == LdrData(p)
    ensures b == a.(t := b.t, signed := a.signed + [vote.data], issued := a.issued + {VoteMsg(Prepare, vote)})
    ensures b.t.lockv == a.t.lockv && b.t.lockh == a.t.lockh
    ensures a.view > 0
    ensures if TeeLed(cfg, a.view) then b.t.prepv == a.view && b.t.preph == LdrData(p).proph
            else b.t.prepv == a.t.prepv && b.t.preph == a.t.preph
    ensures vote.data.phase == Prepare && Binding(cfg, vote.data) ==> BoundAt(b, a.view)
  {
    AcceptedProposal(cfg, a.t, a.id, p.block, p.acc, p.proof);
    PrepareInView(cfg, a, p.block, p.acc, p.proof);
    hide TeePrepare, ValidProof, BoundAt;
    vote := TeePrepare(cfg, a.t, a.id, p.block, p.acc, p.proof).1.value;
    if vote.data.phase == Prepare { ProposeBound(cfg, a, b, vote.data); }
  }

  lemma VoteForKeeps(cfg: Config, w: World, q: PID, p: Proposal)
    requires Inv(cfg, w) && q in w && Enabled(cfg, w[q], VoteFor(p))
    ensures Inv(cfg, w[q := Apply(cfg, w[q], VoteFor(p))])
  {
    var a := w[q];
    var b := Apply(cfg, a, VoteFor(p));
    var w' := w[q := b];
    ActGrows(cfg, w, q, VoteFor(p));
    KnownSent(cfg, w, q, LdrMsg(p));
    ProposedGrows(cfg, w, w', LdrData(p));
    VoteForMakes(cfg, w', a, b, p);
    hide Apply, Enabled, MsgOk, NodeOk;
    MoveNode(cfg, w, q, b);
  }

  lemma VoteForMakes(cfg: Config, w: World, a: Node, b: Node, p: Proposal)
    requires Local(a) && Enabled(cfg, a, VoteFor(p)) && b == Apply(cfg, a, VoteFor(p))
    requires NodeOk(cfg, w, a) && Local(b) && a.id in w && w[a.id] == b && ProposedData(cfg, w, LdrData(p))
    ensures NodeOk(cfg, w, b)
    ensures forall m :: m in b.issued && m !in a.issued ==> MsgOk(cfg, w, m)
  {
    var vote := VoteFacts(cfg, a, b, p);
    assert cfg.LeaderOf(a.view) != a.id;
    hide Apply, Enabled, Claim, LockClaim, BoundAt, VerifyLdrPrepare, Local, ProposedData, ProposedAt, MsgOk, NodeOk;
    ProposedHere(cfg, w, LdrData(p));
    VotedNode(cfg, w, a, b, LdrData(p));
    VoteMsgOk(cfg, w, a.id, Prepare, vote);
  }

  /** A node that has only voted: the lock is kept, and what it has prepared is as before or what was proposed. */
  lemma VotedNode(cfg: Config, w: World, a: Node, b: Node, d: RData)
    requires NodeOk(cfg, w, a) && Local(b) && a.issued <= b.issued
    requires b == a.(t := b.t, signed := b.signed, issued := b.issued)
    requires b.t.lockv == a.t.lockv && b.t.lockh == a.t.lockh
    requires a.view > 0 && d.propv == a.view
    requires if TeeLed(cfg, a.view) then b.t.prepv == a.view && b.t.preph == d.proph
             else b.t.prepv == a.t.prepv && b.t.preph == a.t.preph
    requires ProposedAt(cfg, w, d.propv, d.proph) && (cfg.LeaderOf(a.view) == a.id ==> HasProposed(b))
    ensures NodeOk(cfg, w, b)
  {
    hide ProposedAt, Local, LockClaim, HasProposed;
  }

  /** What storing a certificate adds. */
  lemma StoreFacts(cfg: Config, a: Node, b: Node, cert: Vote) returns (vote: Vote, tag: Phase)
    requires Local(a) && Enabled(cfg, a, StoreQC(cert)) && b == Apply(cfg, a, StoreQC(cert))
    ensures tag == (if cert.data.phase == Prepare then PreCommit else Commit)
    ensures vote.signs == [Sign(true, a.id, RoundText(vote.data))]
    ensures vote.data.propv == cert.data.propv == a.view > 0 && vote.data.proph == cert.data.proph
    ensures vote.data.justh == NEW_HASH && vote.data.justv == 0
    ensures b == a.(t := b.t, signed := a.signed + [vote.data], issued := a.issued + {VoteMsg(tag, vote)})
    ensures b.t.prepv == a.view && b.t.preph == cert.data.proph
    ensures if cert.data.phase == PreCommit then b.t.lockv == a.view && b.t.lockh == cert.data.proph
            else b.t.lockv == a.t.lockv && b.t.lockh == a.t.lockh
    ensures BoundAt(b, a.view)
    ensures tag == PreCommit ==> !TeeLed(cfg, a.view)
  {
    StoreLaw(cfg, a.t, a.id, cert);
    vote := TeeStore(cfg, a.t, a.id, cert).1.value;
    tag := if cert.data.phase == Prepare then PreCommit else Commit;
    BoundNow(a, b, vote.data);
  }

  lemma StoreKeeps(cfg: Config, w: World, q: PID, cert: Vote)
    requires Inv(cfg, w) && q in w && Enabled(cfg, w[q], StoreQC(cert))
    ensures Inv(cfg, w[q := Apply(cfg, w[q], StoreQC(cert))])
  {
    var a := w[q];
    var b := Apply(cfg, a, StoreQC(cert));
    var w' := w[q := b];
    ActGrows(cfg, w, q, StoreQC(cert));
    StoreRests(cfg, w, q, cert);
    hide Inv, MsgOk, NodeOk, Grows, Progress, Apply;
    SentGrows(w, w', CertMsg(cert));
    ProposedAtGrows(cfg, w, w', cert.data.propv, cert.data.proph);
    StoreMakes(cfg, w', a, b, cert);
    hide Enabled;
    MoveNode(cfg, w, q, b);
  }

  lemma StoreRests(cfg: Config, w: World, q: PID, cert: Vote)
    requires Inv(cfg, w) && q in w && Enabled(cfg, w[q], StoreQC(cert))
    ensures Sent(w, CertMsg(cert)) && ProposedAt(cfg, w, cert.data.propv, cert.data.proph)
    ensures cfg.LeaderOf(w[q].view) == w[q].id ==> HasProposed(w[q])
  {
    hide NodeOk, ProposedAt;
    KnownSent(cfg, w, q, CertMsg(cert));
    if cfg.LeaderOf(w[q].view) == w[q].id { LeaderProposed(cfg, w, w[q], cert.data); }
  }

  /** A block proposed in a view was proposed by the leader of that view. */
  lemma LeaderProposed(cfg: Config, w: World, a: Node, d: RData)
    requires ProposedAt(cfg, w, d.propv, d.proph)
    requires a.id in w && w[a.id] == a && cfg.LeaderOf(a.view) == a.id && d.propv == a.view
    ensures HasProposed(a)
  {
    hide ValidProof, Summarises;
    var d' :| ProposedData(cfg, w, d') && d'.propv == d.propv && d'.proph == d.proph;
    var p :| LdrMsg(p) in a.issued && BacksData(cfg, w, p, d');
    assert p.acc.view == a.view;
  }

  lemma StoreMakes(cfg: Config, w: World, a: Node, b: Node, cert: Vote)
    requires Local(a) && Enabled(cfg, a, StoreQC(cert)) && b == Apply(cfg, a, StoreQC(cert))
    requires NodeOk(cfg, w, a) && Local(b) && a.id in w && w[a.id] == b
    requires Sent(w, CertMsg(cert)) && ProposedAt(cfg, w, cert.data.propv, cert.data.proph)
    requires cfg.LeaderOf(a.view) == a.id ==> HasProposed(a)
    ensures NodeOk(cfg, w, b)
    ensures forall m :: m in b.issued && m !in a.issued ==> MsgOk(cfg, w, m)
  {
    var vote, tag := StoreFacts(cfg, a, b, cert);
    assert ValidCert(cfg, cert.data, cert.signs);
    hide Apply, Enabled, ProposedAt, ValidCert, Local, MsgOk, BoundAt, NodeOk;
    StoredNode(cfg, w, a, b, cert);
    VoteMsgOk(cfg, w, a.id, tag, vote);
  }

  lemma StoredNode(cfg: Config, w: World, a: Node, b: Node, cert: Vote)
    requires NodeOk(cfg, w, a) && Local(b) && a.issued <= b.issued
    requires b == a.(t := b.t, signed := b.signed, issued := b.issued)
    requires CertSent(cfg, w, cert) && ProposedAt(cfg, w, cert.data.propv, cert.data.proph)
    requires cert.data.propv == a.view > 0 && b.t.prepv == a.view && b.t.preph == cert.data.proph
    requires cert.data.phase == Prepare || cert.data.phase == PreCommit
    requires if cert.data.phase == PreCommit then b.t.lockv == a.view && b.t.lockh == cert.data.proph
             else b.t.lockv == a.t.lockv && b.t.lockh == a.t.lockh
    requires cfg.LeaderOf(a.view) == a.id ==> HasProposed(a)
    ensures NodeOk(cfg, w, b)
  {
    hide ProposedAt, CertSent, Local;
    assert Certified(cfg, w, a.view, cert.data.proph);
    if HasProposed(a) { StillProposed(a, b); }
  }

  lemma StillProposed(a: Node, b: Node)
    requires HasProposed(a) && a.issued <= b.issued && b.view == a.view
    ensures HasProposed(b)
  {
    var p :| LdrMsg(p) in a.issued && p.acc.view == a.view;
    assert LdrMsg(p) in b.issued;
  }

  /** A certificate put together from sent votes is as good as they are. */
  lemma CertFromVotes(cfg: Config, w: World, cert: Vote)
    requires cert.signs != [] && cert.data.phase != NewView && Sent(w, CertMsg(cert))
    requires forall s :: s in cert.signs ==> MsgOk(cfg, w, CertMsg(Vote(cert.data, [s])))
    ensures MsgOk(cfg, w, CertMsg(cert))
  {
    hide ProposedAt, ProposedData, SignOk;
    forall s | s in cert.signs ensures SignOk(cfg, w, cert.data.phase, cert.data, s) {
      assert MsgOk(cfg, w, CertMsg(Vote(cert.data, [s])));
      assert s in [s];
    }
    assert cert.signs[0] in cert.signs;
    assert MsgOk(cfg, w, CertMsg(Vote(cert.data, [cert.signs[0]])));
  }

  lemma IssueKeeps(cfg: Config, w: World, q: PID, cert: Vote)
    requires Inv(cfg, w) && q in w && Enabled(cfg, w[q], IssueQC(cert))
    ensures Inv(cfg, w[q := Apply(cfg, w[q], IssueQC(cert))])
  {
    hide Inv, Enabled, Apply, NodeOk, Progress, Grows, Local;
    IssueFacts(cfg, w[q], cert);
    ActGrows(cfg, w, q, IssueQC(cert));
    IssueStep(cfg, w, q, Apply(cfg, w[q], IssueQC(cert)), cert);
  }

  lemma IssueStep(cfg: Config, w: World, q: PID, b: Node, cert: Vote)
    requires Inv(cfg, w) && q in w && Progress(w[q], b) && Grows(w, w[q := b]) && NodeOk(cfg, w[q := b], w[q])
    requires VotesKnown(w[q], cert) && cert.signs != [] && cert.data.phase != NewView
    requires b == w[q].(issued := w[q].issued + {CertMsg(cert)})
    ensures Inv(cfg, w[q := b])
  {
    hide Inv, NodeOk, MsgOk, Progress, Grows, VotesKnown;
    assert CertMsg(cert) in w[q := b][q].issued;
    IssueMakes(cfg, w, w[q := b], q, cert);
    SilentStep(cfg, w[q := b], w[q], b);
    MoveNode(cfg, w, q, b);
  }

  lemma IssueFacts(cfg: Config, a: Node, cert: Vote)
    requires Enabled(cfg, a, IssueQC(cert))
    ensures VotesKnown(a, cert) && cert.signs != [] && cert.data.phase != NewView
    ensures Apply(cfg, a, IssueQC(cert)) == a.(issued := a.issued + {CertMsg(cert)})
  {
  }

  lemma IssueMakes(cfg: Config, w: World, w': World, q: PID, cert: Vote)
    requires Inv(cfg, w) && q in w && VotesKnown(w[q], cert) && Grows(w, w')
    requires cert.signs != [] && cert.data.phase != NewView && Sent(w', CertMsg(cert))
    ensures MsgOk(cfg, w', CertMsg(cert))
  {
    forall s | s in cert.signs ensures MsgOk(cfg, w', CertMsg(Vote(cert.data, [s]))) {
      hide MsgOk, Grows, Inv;
      KnownSent(cfg, w, q, CertMsg(Vote(cert.data, [s])));
      MsgGrows(cfg, w, w', CertMsg(Vote(cert.data, [s])));
    }
    hide *;
    CertFromVotes(cfg, w', cert);
  }

  /** A node that only sends more stays good. */
  lemma SilentStep(cfg: Config, w: World, a: Node, b: Node)
    requires NodeOk(cfg, w, a) && b == a.(issued := b.issued) && a.issued <= b.issued
    ensures NodeOk(cfg, w, b)
  {
    hide Claim, LockClaim, CertSent;
    if HasProposed(a) { StillProposed(a, b); }
  }

  lemma ExecuteFacts(cfg: Config, a: Node, cert: Vote)
    requires Enabled(cfg, a, Act.Execute(cert))
    ensures ValidCert(cfg, cert.data, cert.signs) && CertMsg(cert) in a.Known() && Final(cfg, cert.data)
    ensures Apply(cfg, a, Act.Execute(cert)) == a.(executed := a.executed + [cert.data])
  {
    hide ValidCert;
  }

  lemma ExecuteKeeps(cfg: Config, w: World, q: PID, cert: Vote)
    requires Inv(cfg, w) && q in w && Enabled(cfg, w[q], Act.Execute(cert))
    ensures Inv(cfg, w[q := Apply(cfg, w[q], Act.Execute(cert))])
  {
    var a := w[q];
    var b := Apply(cfg, a, Act.Execute(cert));
    var w' := w[q := b];
    ActGrows(cfg, w, q, Act.Execute(cert));
    ExecuteFacts(cfg, a, cert);
    hide NodeOk, MsgOk, Enabled, Apply, Local, Progress, Inv, Grows, ValidCert, Final;
    KnownSent(cfg, w, q, CertMsg(cert));
    SentGrows(w, w', CertMsg(cert));
    ExecuteMakes(cfg, w', a, b, cert);
    MoveNode(cfg, w, q, b);
  }

  lemma ExecuteMakes(cfg: Config, w: World, a: Node, b: Node, cert: Vote)
    requires NodeOk(cfg, w, a) && b == a.(executed := a.executed + [cert.data])
    requires Final(cfg, cert.data) && CertSent(cfg, w, cert)
    ensures NodeOk(cfg, w, b)
  {
    hide CertSent, Claim, LockClaim;
  }

  lemma ActKeeps(cfg: Config, w: World, q: PID, act: Act)
    requires Inv(cfg, w) && q in w && Enabled(cfg, w[q], act)
    ensures Inv(cfg, w[q := Apply(cfg, w[q], act)])
  {
    hide Inv, Enabled, Apply;
    match act
    case EnterView => EnterKeeps(cfg, w, q);
    case Propose(acc, block, proof) => ProposeKeeps(cfg, w, q, acc, block, proof);
    case VoteFor(p) => VoteForKeeps(cfg, w, q, p);
    case StoreQC(cert) => StoreKeeps(cfg, w, q, cert);
    case IssueQC(cert) => IssueKeeps(cfg, w, q, cert);
    case Execute(cert) => ExecuteKeeps(cfg, w, q, cert);
  }

  /** Receiving a message that somebody sent. */
  lemma ReceiveKeeps(cfg: Config, w: World, q: PID, m: Msg)
    requires Inv(cfg, w) && q in w && Sent(w, m)
    ensures Inv(cfg, w[q := w[q].(inbox := w[q].inbox + {m})])
  {
    var a := w[q];
    var b := a.(inbox := a.inbox + {m});
    var w' := w[q := b];
    MoveGrows(w, q, b);
    NodeGrows(cfg, w, w', a);
    SentGrows(w, w', m);
    ReceiveMakes(cfg, w', a, b, m);
    hide NodeOk, MsgOk;
    MoveNode(cfg, w, q, b);
  }

  lemma ReceiveMakes(cfg: Config, w: World, a: Node, b: Node, m: Msg)
    requires NodeOk(cfg, w, a) && b == a.(inbox := a.inbox + {m}) && Sent(w, m)
    ensures NodeOk(cfg, w, b)
  {
    hide Claim, LockClaim, CertSent;
  }

  /** Any sequence of actions of one node keeps the invariant. */
  lemma {:induction false} RunsKeep(cfg: Config, w: World, q: PID, acts: seq<Act>, b: Node)
    requires Inv(cfg, w) && q in w && Runs(cfg, w[q], acts, b)
    ensures Inv(cfg, w[q := b])
    decreases |acts|
  {
    hide Inv, Enabled, Apply;
    if acts == [] {
      assert w[q := b] == w;
    } else {
      var a1 := Apply(cfg, w[q], acts[0]);
      ActKeeps(cfg, w, q, acts[0]);
      RunsKeep(cfg, w[q := a1], q, acts[1..], b);
      assert w[q := a1][q := b] == w[q := b];
    }
  }
}
