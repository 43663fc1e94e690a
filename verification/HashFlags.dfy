/** Where the hash flags of new-views come from: among honest replicas and trusted components, and with at most
    f faulty replicas in all, new-views that are equal up to hash flags are identical.  So the leader's
    accumulator can only fail on a hand-over with a new-view of a faulty replica without trusted hardware.

    In these runs a faulty host calls its trusted component with certificates whose signatures are genuine. */
module HashFlags {
  import opened Types
  import opened Quorums
  import opened Certificates
  import opened TrustedMachine
  import opened Replicas
  import opened Protocol
  import opened LeaderRoundTrip
  import S = Safety
  import B = Byzantine
  import Runs = ByzantineRuns
  import System
  import R = Refinement

  /** A block's hash is marked as set, the all-'0' value is not. */
  predicate Flagged(h: Hash) {
    h.isSet <==> h.digest.Of?
  }

  /** A prepared block with its view; at the start it is the genesis block, marked as set. */
  predicate ClaimOk(v: View, h: Hash) {
    if v == 0 then h == NEW_HASH else Flagged(h)
  }

  predicate RecordOk(d: RData) {
    Flagged(d.proph) && (d.proph.digest == Genesis ==> ClaimOk(d.justv, d.justh))
  }

  predicate TrustedOk(t: Trusted) {
    t.view >= 1 && ClaimOk(t.prepv, t.preph)
  }

  /** Every call keeps the flags, if a stored certificate has them. */
  lemma PerformFlags(cfg: Config, t: Trusted, id: PID, c: Call)
    requires TrustedOk(t) && (c.StoreCall? && StoreAccepts(cfg, t, c.cert) ==> RecordOk(c.cert.data))
    ensures var (t', v) := Perform(cfg, t, id, c); TrustedOk(t') && (v.Some? ==> RecordOk(v.value.data))
  {
    match c
    case SignCall =>
    case PrepareCall(block, acc, proof) =>
      if TeePrepare(cfg, t, id, block, acc, proof).1.Some? { AcceptedProposal(cfg, t, id, block, acc, proof); }
      hide TeePrepare;
      RefusedPrepare(cfg, t, id, block, acc, proof);
    case StoreCall(cert) =>
      hide ValidCert;
  }

  lemma RefusedPrepare(cfg: Config, t: Trusted, id: PID, block: Block, acc: Accum, proof: seq<OneJust>)
    ensures TeePrepare(cfg, t, id, block, acc, proof).1.None? ==> TeePrepare(cfg, t, id, block, acc, proof).0 == t
  {
    hide EnclaveAccepts, TwinAccepts;
  }

  /** Moving to the next view signs without a block. */
  lemma {:induction false} SignPastFlags(t: Trusted, id: PID, view: View)
    requires TrustedOk(t)
    ensures var (t', ds, w) := SignPast(t, id, view);
      TrustedOk(t') && forall d :: d in ds ==> RecordOk(d) && d.proph == NO_HASH
    decreases if StateKey(t) < 4 * (view + 1) then 4 * (view + 1) - StateKey(t) else 0
  {
    var (t1, v) := TeeSign(t, id);
    if v.data.propv <= view { SignPastFlags(t1, id, view); }
  }

  // ---- worlds

  predicate NodeFlags(a: Node) {
    && TrustedOk(a.t)
    && (forall d :: d in a.signed ==> RecordOk(d))
    && (forall d :: d in a.signed && d.phase == NewView ==> d.proph == NO_HASH)
  }

  predicate CompFlags(c: B.Component) {
    TrustedOk(c.t) && forall d :: d in c.signed ==> RecordOk(d)
  }

  predicate Uniform(w: B.World) {
    (forall q :: q in w.nodes ==> NodeFlags(w.nodes[q])) && (forall q :: q in w.comps ==> CompFlags(w.comps[q]))
  }

  /** A certificate has a signer that is honest or trusted, so its record has the flags. */
  lemma CertFlags(cfg: Config, w: B.World, cert: Vote)
    requires cfg.Valid() && B.Inv(cfg, w) && Uniform(w) && B.CertKnown(cfg, w, cert)
    ensures RecordOk(cert.data)
  {
    B.SignedInOrder(cfg, w);
    B.CertSignedBy(cfg, w, cert);
    CertSigners(cfg, cert.data, cert.signs);
    hide B.Inv, IsQuorum, ValidCert, RecordOk;
    var q := HonestInOne(cfg, SignersOf(cert.signs), B.Signed(w).Keys);
    var s :| s in cert.signs && s.signer == q;
    assert cert.data in B.Signed(w)[q];
  }

  lemma ActFlags(cfg: Config, w: B.World, q: PID, act: Act)
    requires cfg.Valid() && B.Inv(cfg, w) && Uniform(w) && q in w.nodes && Enabled(cfg, w.nodes[q], act)
    ensures Uniform(B.Put(w, q, Apply(cfg, w.nodes[q], act)))
  {
    hide B.Inv, Enabled, Apply, NodeFlags, CompFlags, S.Local, RecordOk;
    B.NodeFacts(cfg, w, q);
    if act.StoreQC? { StoredFlags(cfg, w, q, act.cert); }
    NodeActFlags(cfg, w.nodes[q], act);
    PutUniform(w, q, Apply(cfg, w.nodes[q], act));
  }

  lemma PutUniform(w: B.World, q: PID, b: Node)
    requires Uniform(w) && q in w.nodes && NodeFlags(b)
    ensures Uniform(B.Put(w, q, b))
  {
    hide NodeFlags, CompFlags;
  }

  lemma StoredFlags(cfg: Config, w: B.World, q: PID, cert: Vote)
    requires cfg.Valid() && B.Inv(cfg, w) && Uniform(w) && q in w.nodes && Enabled(cfg, w.nodes[q], StoreQC(cert))
    ensures RecordOk(cert.data)
  {
    hide B.Inv, ValidCert, Uniform;
    B.KnownCert(cfg, w, q, cert.data.phase, cert);
    CertFlags(cfg, w, cert);
  }

  lemma NodeActFlags(cfg: Config, a: Node, act: Act)
    requires S.Local(a) && NodeFlags(a) && Enabled(cfg, a, act) && (act.StoreQC? ==> RecordOk(act.cert.data))
    ensures NodeFlags(Apply(cfg, a, act))
  {
    match act
    case EnterView =>
      SignPastFlags(a.t, a.id, a.view);
      hide SignPast;
    case Propose(acc, block, proof) =>
      S.PrepareInView(cfg, a, block, acc, proof);
      PerformFlags(cfg, a.t, a.id, PrepareCall(block, acc, proof));
      hide TeePrepare, RecordOk;
    case VoteFor(p) =>
      S.PrepareInView(cfg, a, p.block, p.acc, p.proof);
      PerformFlags(cfg, a.t, a.id, PrepareCall(p.block, p.acc, p.proof));
      hide TeePrepare, RecordOk;
    case StoreQC(cert) =>
      PerformFlags(cfg, a.t, a.id, StoreCall(cert));
      hide RecordOk, ValidCert;
    case IssueQC(cert) =>
    case Execute(cert) =>
  }

  lemma {:induction false} RunsFlags(cfg: Config, w: B.World, q: PID, acts: seq<Act>, b: Node)
    requires cfg.Valid() && B.Inv(cfg, w) && Uniform(w) && q in w.nodes && Protocol.Runs(cfg, w.nodes[q], acts, b)
    ensures Uniform(B.Put(w, q, b))
    decreases |acts|
  {
    hide B.Inv, Enabled, Apply, Uniform;
    if acts == [] {
      assert B.Put(w, q, b) == w;
    } else {
      var a1 := Apply(cfg, w.nodes[q], acts[0]);
      B.ActKeeps(cfg, w, q, acts[0]);
      ActFlags(cfg, w, q, acts[0]);
      RunsFlags(cfg, B.Put(w, q, a1), q, acts[1..], b);
      assert B.Put(B.Put(w, q, a1), q, b) == B.Put(w, q, b);
    }
  }

  /** The signatures of a certificate that a faulty host presents are genuine. */
  ghost predicate CallGenuine(w: B.World, call: Call) {
    call.StoreCall? ==> forall s :: s in call.cert.signs ==> B.Genuine(w, s)
  }

  lemma DriveFlags(cfg: Config, w: B.World, q: PID, call: Call)
    requires cfg.Valid() && B.Inv(cfg, w) && Uniform(w) && q in w.comps && CallGenuine(w, call)
    ensures Uniform(w.(comps := w.comps[q := B.Driven(cfg, q, w.comps[q], call)]))
  {
    var c := w.comps[q];
    hide B.Inv, RecordOk;
    if call.StoreCall? && StoreAccepts(cfg, c.t, call.cert) { PresentedFlags(cfg, w, c.t, call); }
    assert CompFlags(c);
    hide StoreAccepts;
    DrivenFlags(cfg, q, c, call);
    hide CompFlags, NodeFlags, B.Driven;
  }

  lemma PresentedFlags(cfg: Config, w: B.World, t: Trusted, call: Call)
    requires cfg.Valid() && B.Inv(cfg, w) && Uniform(w) && CallGenuine(w, call)
    requires call.StoreCall? && StoreAccepts(cfg, t, call.cert)
    ensures RecordOk(call.cert.data)
  {
    assert B.CertKnown(cfg, w, call.cert);
    hide B.Inv, RecordOk, StoreAccepts, Uniform;
    CertFlags(cfg, w, call.cert);
  }

  lemma DrivenFlags(cfg: Config, q: PID, c: B.Component, call: Call)
    requires CompFlags(c) && (call.StoreCall? && StoreAccepts(cfg, c.t, call.cert) ==> RecordOk(call.cert.data))
    ensures CompFlags(B.Driven(cfg, q, c, call))
  {
    PerformFlags(cfg, c.t, q, call);
    hide Perform, RecordOk, StoreAccepts;
  }

  // ---- runs

  ghost predicate GenuineCalls(states: seq<Runs.State>, schedule: seq<Runs.Deed>)
    requires |states| == |schedule| + 1
  {
    forall i :: 0 <= i < |schedule| && schedule[i].Drives? ==> CallGenuine(Runs.World(states[i]), schedule[i].call)
  }

  ghost predicate Reachable(cfg: Config, honest: set<PID>, s: Runs.State) {
    exists states, schedule ::
      Runs.IsRun(cfg, honest, states, schedule) && GenuineCalls(states, schedule) && states[|schedule|] == s
  }

  lemma InitialFlags(cfg: Config, honest: set<PID>)
    ensures Uniform(Runs.World(Runs.InitialState(cfg, honest)))
  {
  }

  lemma HappensFlags(cfg: Config, s: Runs.State, d: Runs.Deed)
    requires cfg.Valid() && Runs.Good(cfg, s) && Uniform(Runs.World(s)) && Runs.Possible(s, d)
    requires d.Drives? ==> CallGenuine(Runs.World(s), d.call)
    ensures Uniform(Runs.World(Runs.Happens(cfg, s, d)))
  {
    match d
    case Drives(q, call) =>
      hide Uniform, B.Inv, B.Driven, System.ReplicaOk;
      DriveFlags(cfg, Runs.World(s), q, call);
    case Occurs(o) =>
      EventFlags(cfg, s, o);
  }

  lemma EventFlags(cfg: Config, s: Runs.State, o: System.Occurrence)
    requires cfg.Valid() && Runs.Good(cfg, s) && Uniform(Runs.World(s)) && Runs.Possible(s, Runs.Occurs(o))
    ensures Uniform(Runs.World(s.(honest := System.Happens(cfg, s.honest, o))))
  {
    var r := s.honest[o.at];
    var r' := Step(cfg, r, o.event);
    Runs.GoodReplica(cfg, s, o.at);
    System.StepOk(cfg, r, o.at, o.event);
    hide Runs.Good, System.ReplicaOk, Step, B.Inv, B.Unforged;
    MoveFlags(cfg, s, o, R.Abs(r'));
    Runs.WorldPut(s, o.at, r');
  }

  lemma MoveFlags(cfg: Config, s: Runs.State, o: System.Occurrence, b: Node)
    requires cfg.Valid() && B.Inv(cfg, Runs.World(s)) && Uniform(Runs.World(s)) && Runs.Possible(s, Runs.Occurs(o))
    requires Reaches(cfg, R.Abs(R.Received(s.honest[o.at], o.event)), b)
    ensures Uniform(B.Put(Runs.World(s), o.at, b))
  {
    hide B.Inv, Runs.Possible, Reaches, NodeFlags, CompFlags;
    Runs.OccursAt(s, o);
    Runs.ReceivedInv(cfg, s, o);
    var w := Runs.World(s);
    var a := R.Abs(R.Received(s.honest[o.at], o.event));
    SameFlags(w.nodes[o.at], a);
    PutUniform(w, o.at, a);
    hide Uniform;
    ReachesFlags(cfg, B.Put(w, o.at, a), o.at, b);
    assert B.Put(B.Put(w, o.at, a), o.at, b) == B.Put(w, o.at, b);
  }

  lemma SameFlags(a: Node, b: Node)
    requires NodeFlags(a) && b.t == a.t && b.signed == a.signed
    ensures NodeFlags(b)
  {
  }

  lemma ReachesFlags(cfg: Config, w: B.World, q: PID, b: Node)
    requires cfg.Valid() && B.Inv(cfg, w) && Uniform(w) && q in w.nodes && Reaches(cfg, w.nodes[q], b)
    ensures Uniform(B.Put(w, q, b))
  {
    hide B.Inv, Uniform;
    var acts :| Protocol.Runs(cfg, w.nodes[q], acts, b);
    RunsFlags(cfg, w, q, acts, b);
  }

  lemma {:induction false} RunFlags(cfg: Config, honest: set<PID>, states: seq<Runs.State>, schedule: seq<Runs.Deed>,
                                    i: nat)
    requires cfg.Valid() && B.Setting(cfg, honest) && Runs.IsRun(cfg, honest, states, schedule)
    requires GenuineCalls(states, schedule) && i <= |schedule|
    ensures Uniform(Runs.World(states[i]))
  {
    hide Uniform, Runs.Good, Runs.Happens, Runs.Possible, CallGenuine;
    if i == 0 {
      InitialFlags(cfg, honest);
    } else {
      RunFlags(cfg, honest, states, schedule, i - 1);
      Runs.RunGood(cfg, honest, states, schedule, i - 1);
      assert states[i - 1 + 1] == Runs.Happens(cfg, states[i - 1], schedule[i - 1]);
      HappensFlags(cfg, states[i - 1], schedule[i - 1]);
    }
  }

  // ---- the result

  /** The signer is honest or has trusted hardware. */
  predicate SoundSigner(cfg: Config, honest: set<PID>, p: PID) {
    p in honest || cfg.IsTEE(p)
  }

  /** With at most f faulty replicas in all, a hand-over without new-views of faulty replicas that lack trusted
      hardware never makes the accumulator fail: its new-views differ in more than flags or are identical. */
  lemma SoundHandOver(cfg: Config, honest: set<PID>, s: Runs.State, v: View, nvs: seq<Vote>, id: PID)
    requires cfg.Valid() && B.Setting(cfg, honest) && B.FewFaulty(cfg, honest) && Reachable(cfg, honest, s)
    requires NvQuorum(cfg, v, nvs) && id in cfg.nodes
    requires forall i :: 0 <= i < |nvs| ==> SoundSigner(cfg, honest, nvs[i].signs[0].signer)
    requires forall i :: 0 <= i < |nvs| ==> B.Unforged(Runs.World(s), VoteMsg(NewView, nvs[i]))
    ensures AllSame(nvs) ==> Identical(nvs)
    ensures Summarises(NewViewsToAccum(cfg, id, nvs, |nvs|), v, ProofOf(cfg, nvs))
  {
    var states, schedule :|
      Runs.IsRun(cfg, honest, states, schedule) && GenuineCalls(states, schedule) && states[|schedule|] == s;
    Runs.RunGood(cfg, honest, states, schedule, |schedule|);
    RunFlags(cfg, honest, states, schedule, |schedule|);
    hide Runs.IsRun, GenuineCalls, Runs.Good, Uniform, B.Unforged, SoundSigner, AllSame, Identical, B.FewFaulty;
    hide B.Setting;
    hide NewViewsToAccum, ProofOf, Summarises, Reachable, NvQuorum;
    HandOverIn(cfg, s, v, nvs, id);
  }

  lemma HandOverIn(cfg: Config, s: Runs.State, v: View, nvs: seq<Vote>, id: PID)
    requires cfg.Valid() && Runs.Good(cfg, s) && Uniform(Runs.World(s)) && B.FewFaulty(cfg, s.honest.Keys)
    requires NvQuorum(cfg, v, nvs) && id in cfg.nodes
    requires forall i :: 0 <= i < |nvs| ==> SoundSigner(cfg, s.honest.Keys, nvs[i].signs[0].signer)
    requires forall i :: 0 <= i < |nvs| ==> B.Unforged(Runs.World(s), VoteMsg(NewView, nvs[i]))
    ensures AllSame(nvs) ==> Identical(nvs)
    ensures Summarises(NewViewsToAccum(cfg, id, nvs, |nvs|), v, ProofOf(cfg, nvs))
  {
    assert Runs.World(s).nodes.Keys == s.honest.Keys;
    hide System.ReplicaOk, B.Inv, Uniform, B.Unforged, SoundSigner, AllSame, Identical, B.FewFaulty;
    hide NewViewsToAccum, ProofOf, Summarises, ValidProof;
    if AllSame(nvs) { SoundIdentical(cfg, Runs.World(s), v, nvs); }
    AccumulatorRoundTrip(cfg, id, v, nvs);
  }

  lemma SoundIdentical(cfg: Config, w: B.World, v: View, nvs: seq<Vote>)
    requires cfg.Valid() && B.Inv(cfg, w) && Uniform(w) && B.FewFaulty(cfg, w.nodes.Keys)
    requires NvQuorum(cfg, v, nvs) && AllSame(nvs)
    requires forall i :: 0 <= i < |nvs| ==> SoundSigner(cfg, w.nodes.Keys, nvs[i].signs[0].signer)
    requires forall i :: 0 <= i < |nvs| ==> B.Unforged(w, VoteMsg(NewView, nvs[i]))
    ensures Identical(nvs)
  {
    var k := HonestEntry(cfg, w, v, nvs);
    hide B.Inv, NvQuorum, B.FewFaulty, Uniform, B.Unforged, SoundSigner, RecordOk;
    forall i | 0 <= i < |nvs| ensures nvs[i].data == nvs[0].data {
      EntryFlags(cfg, w, v, nvs, i);
      EntryFlags(cfg, w, v, nvs, 0);
      OneRecord(nvs[k].data, nvs[0].data, nvs[i].data);
    }
  }

  /** Records that are equal up to flags, and to one that names no block, are identical. */
  lemma OneRecord(e: RData, d1: RData, d2: RData)
    requires e.proph == NO_HASH && SameRound(e, d1) && SameRound(d2, d1) && RecordOk(d1) && RecordOk(d2)
    ensures d1 == d2
  {
  }

  /** One of the new-views is of an honest replica, and so names no block of its own. */
  lemma HonestEntry(cfg: Config, w: B.World, v: View, nvs: seq<Vote>) returns (k: nat)
    requires cfg.Valid() && B.Inv(cfg, w) && Uniform(w) && B.FewFaulty(cfg, w.nodes.Keys) && NvQuorum(cfg, v, nvs)
    requires forall i :: 0 <= i < |nvs| ==> B.Unforged(w, VoteMsg(NewView, nvs[i]))
    ensures k < |nvs| && nvs[k].data.proph == NO_HASH
  {
    NvSigners(cfg, v, nvs);
    var signs := FirstSigns(nvs);
    var q := HonestInOne(cfg, SignersOf(signs), w.nodes.Keys);
    k :| 0 <= k < |signs| && signs[k].signer == q;
    assert NvEntry(cfg, v, nvs[k]);
    hide B.Inv, B.Unforged, NvQuorum, Uniform, IsQuorum, B.FewFaulty;
    HonestNewView(cfg, w, v, nvs[k]);
  }

  lemma HonestNewView(cfg: Config, w: B.World, v: View, m: Vote)
    requires B.Inv(cfg, w) && Uniform(w) && NvEntry(cfg, v, m) && B.Unforged(w, VoteMsg(NewView, m))
    requires m.signs[0].signer in w.nodes
    ensures m.data.proph == NO_HASH
  {
    var q := m.signs[0].signer;
    assert m.signs[0] in m.signs && B.Genuine(w, m.signs[0]);
    hide B.Made, B.Inv, B.Unforged, B.Genuine, RecordOk;
    B.NodeFacts(cfg, w, q);
    assert NodeFlags(w.nodes[q]);
  }

  lemma NvSigners(cfg: Config, v: View, nvs: seq<Vote>)
    requires cfg.Valid() && NvQuorum(cfg, v, nvs)
    ensures IsQuorum(cfg, SignersOf(FirstSigns(nvs)))
  {
    var signs := FirstSigns(nvs);
    DistinctSignersCount(signs);
    forall s | s in signs ensures s.signer in cfg.nodes {
      var i :| 0 <= i < |signs| && signs[i] == s;
      assert NvEntry(cfg, v, nvs[i]);
    }
    if |nvs| != cfg.QSize() {
      forall s | s in signs ensures cfg.IsTEE(s.signer) {
        var i :| 0 <= i < |signs| && signs[i] == s;
        assert cfg.IsTEE(nvs[i].signs[0].signer);
      }
    }
  }

  lemma SoundKnown(cfg: Config, w: B.World, q: PID)
    requires B.Inv(cfg, w) && SoundSigner(cfg, w.nodes.Keys, q)
    ensures q in w.nodes || q in w.comps
  {
    hide B.NodeOk;
  }

  lemma EntryFlags(cfg: Config, w: B.World, v: View, nvs: seq<Vote>, i: nat)
    requires B.Inv(cfg, w) && Uniform(w) && NvQuorum(cfg, v, nvs) && i < |nvs|
    requires SoundSigner(cfg, w.nodes.Keys, nvs[i].signs[0].signer) && B.Unforged(w, VoteMsg(NewView, nvs[i]))
    ensures RecordOk(nvs[i].data)
  {
    var q := nvs[i].signs[0].signer;
    assert NvEntry(cfg, v, nvs[i]) && nvs[i].signs[0] in nvs[i].signs && B.Genuine(w, nvs[i].signs[0]);
    SoundKnown(cfg, w, q);
    hide B.Made, B.Inv, B.Unforged, RecordOk, NvQuorum;
    if q in w.nodes {
      B.NodeFacts(cfg, w, q);
      assert NodeFlags(w.nodes[q]);
    } else {
      assert CompFlags(w.comps[q]);
    }
  }
}
