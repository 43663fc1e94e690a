/** The protocol reduced to what matters for safety: a node enters a view, proposes, votes, stores a
    certificate, builds one, executes one.  Every handler step is a sequence of these actions. */
module Protocol {
  import opened Types
  import opened Certificates
  import opened TrustedMachine
  import opened Replicas

  /** View 0 means not started yet. */
  datatype Node = Node(id: PID, t: Trusted, view: View, signed: seq<RData>,
                       inbox: set<Msg>, issued: set<Msg>, executed: seq<RData>)
  {
    function Known(): set<Msg> { inbox + issued }
  }

  datatype Act =
    | EnterView
    | Propose(acc: Accum, block: Block, proof: seq<OneJust>)
    | VoteFor(proposal: Proposal)
    | StoreQC(cert: Vote)
    | IssueQC(cert: Vote)
    | Execute(cert: Vote)

  ghost predicate HasProposed(a: Node) {
    exists p :: LdrMsg(p) in a.issued && p.acc.view == a.view
  }

  /** The message a proof entry was taken from. */
  function EntryMsg(e: OneJust): Msg { VoteMsg(NewView, Vote(e.rdata, [e.sign])) }

  function CertMsg(cert: Vote): Msg { VoteMsg(cert.data.phase, cert) }

  /** What any trusted component asks of a proposal whoever made it: a set block of at most maxTxs
      transactions and a signed accumulator. */
  predicate WellMade(cfg: Config, block: Block, acc: Accum) {
    block.isSet && |block.txs| <= cfg.maxTxs && acc.isSet && SigOk(cfg, acc.sign, acc.Data())
  }

  /** Each signature of the certificate is known to the node as a vote of its own. */
  predicate VotesKnown(a: Node, cert: Vote) {
    forall s :: s in cert.signs ==> CertMsg(Vote(cert.data, [s])) in a.Known()
  }

  /** A certificate whose block may be executed: PREPARE under a trusted leader, COMMIT otherwise. */
  predicate Final(cfg: Config, d: RData) {
    (d.phase == Prepare && TeeLed(cfg, d.propv)) || d.phase == Commit
  }

  function AddMsg(a: Node, m: Msg): Node { a.(issued := a.issued + {m}) }

  ghost predicate Enabled(cfg: Config, a: Node, act: Act) {
    match act
    case EnterView =>
      Lockstep(a.t, a.view)
    case Propose(acc, block, proof) =>
      && cfg.LeaderOf(a.view) == a.id && acc.view == a.view && acc.sign.signer == a.id
      && !HasProposed(a)
      && (forall e :: e in proof ==> EntryMsg(e) in a.Known())
      && WellMade(cfg, block, acc)
      && TeePrepare(cfg, a.t, a.id, block, acc, proof).1.Some?
    case VoteFor(p) =>
      && cfg.LeaderOf(a.view) != a.id && p.acc.view == a.view
      && LdrMsg(p) in a.Known() && VerifyLdrPrepare(cfg, p)
      && TeePrepare(cfg, a.t, a.id, p.block, p.acc, p.proof).1.Some?
    case StoreQC(cert) =>
      && (cert.data.phase == PreCommit || (cert.data.phase == Prepare && !TeeLed(cfg, a.view)))
      && CertMsg(cert) in a.Known() && cert.data.propv == a.view && StoreAccepts(cfg, a.t, cert)
    case IssueQC(cert) =>
      && cert.data.phase != NewView && ValidCert(cfg, cert.data, cert.signs)
      && VotesKnown(a, cert)
    case Execute(cert) =>
      && Final(cfg, cert.data) && ValidCert(cfg, cert.data, cert.signs) && CertMsg(cert) in a.Known()
  }

  function Apply(cfg: Config, a: Node, act: Act): Node {
    match act
    case EnterView =>
      var (t, ds, v) := SignPast(a.t, a.id, a.view);
      AddMsg(a.(t := t, signed := a.signed + ds, view := a.view + 1), VoteMsg(NewView, v))
    case Propose(acc, block, proof) =>
      var (t, v) := TeePrepare(cfg, a.t, a.id, block, acc, proof);
      if v.None? then a else
        var b := a.(t := t, signed := a.signed + [v.value.data]);
        AddMsg(AddMsg(b, LdrMsg(Proposal(acc, block, proof, v.value.signs[0]))), VoteMsg(Prepare, v.value))
    case VoteFor(p) =>
      var (t, v) := TeePrepare(cfg, a.t, a.id, p.block, p.acc, p.proof);
      if v.None? then a else
        AddMsg(a.(t := t, signed := a.signed + [v.value.data]), VoteMsg(Prepare, v.value))
    case StoreQC(cert) =>
      var (t, v) := TeeStore(cfg, a.t, a.id, cert);
      var tag := if cert.data.phase == Prepare then PreCommit else Commit;
      if v.None? then a else
        AddMsg(a.(t := t, signed := a.signed + [v.value.data]), VoteMsg(tag, v.value))
    case IssueQC(cert) =>
      AddMsg(a, CertMsg(cert))
    case Execute(cert) =>
      a.(executed := a.executed + [cert.data])
  }

  ghost predicate Runs(cfg: Config, a: Node, acts: seq<Act>, b: Node)
    decreases |acts|
  {
    if acts == [] then a == b
    else Enabled(cfg, a, acts[0]) && Runs(cfg, Apply(cfg, a, acts[0]), acts[1..], b)
  }

  /** b is reached from a by some actions of this node. */
  ghost predicate Reaches(cfg: Config, a: Node, b: Node) {
    exists acts :: Runs(cfg, a, acts, b)
  }

  lemma ReachesSelf(cfg: Config, a: Node)
    ensures Reaches(cfg, a, a)
  {
    assert Runs(cfg, a, [], a);
  }

  lemma ReachesByOne(cfg: Config, a: Node, act: Act)
    requires Enabled(cfg, a, act)
    ensures Reaches(cfg, a, Apply(cfg, a, act))
  {
    var b := Apply(cfg, a, act);
    assert [act][1..] == [] && Runs(cfg, b, [], b);
    assert Runs(cfg, a, [act], b);
  }

  lemma {:induction false} RunsTrans(cfg: Config, a: Node, s1: seq<Act>, b: Node, s2: seq<Act>, c: Node)
    requires Runs(cfg, a, s1, b) && Runs(cfg, b, s2, c)
    ensures Runs(cfg, a, s1 + s2, c)
    decreases |s1|
  {
    if s1 == [] {
      assert s1 + s2 == s2;
    } else {
      RunsTrans(cfg, Apply(cfg, a, s1[0]), s1[1..], b, s2, c);
      assert (s1 + s2)[1..] == s1[1..] + s2;
    }
  }

  lemma ReachesTrans(cfg: Config, a: Node, b: Node, c: Node)
    requires Reaches(cfg, a, b) && Reaches(cfg, b, c)
    ensures Reaches(cfg, a, c)
  {
    var s1 :| Runs(cfg, a, s1, b);
    var s2 :| Runs(cfg, b, s2, c);
    RunsTrans(cfg, a, s1, b, s2, c);
  }

  /** Actions keep a node's number. */
  lemma {:induction false} RunsId(cfg: Config, a: Node, acts: seq<Act>, b: Node)
    requires Runs(cfg, a, acts, b)
    ensures b.id == a.id
    decreases |acts|
  {
    if acts != [] { RunsId(cfg, Apply(cfg, a, acts[0]), acts[1..], b); }
  }
}
