/** Runs of the whole system: any schedule of starts, timeouts, submitted transactions and deliveries of
    messages that were sent, in any order and any number of times.  A replica that the schedule stops
    mentioning has crashed; a message it never delivers is lost. */
module System {
  import opened Types
  import opened Certificates
  import opened TrustedMachine
  import opened Replicas
  import opened Protocol
  import opened Refinement
  import S = Safety
  import A = Agreement

  type State = map<PID, Replica>

  datatype Occurrence = Occurrence(at: PID, event: Event)

  predicate WasSent(sys: State, m: Msg) {
    exists q :: q in sys && m in sys[q].issued
  }

  function InitialSystem(cfg: Config): (sys: State)
    ensures sys.Keys == cfg.nodes.Keys
  {
    map q | q in cfg.nodes :: InitialReplica(q)
  }

  /** Nothing happens at a replica that does not exist, and only sent messages are delivered. */
  predicate Possible(sys: State, o: Occurrence) {
    o.at in sys && (o.event.Deliver? ==> WasSent(sys, o.event.msg))
  }

  function Happens(cfg: Config, sys: State, o: Occurrence): (sys': State)
    requires cfg.maxSigs > 0 && o.at in sys
    ensures sys'.Keys == sys.Keys
  {
    sys[o.at := Step(cfg, sys[o.at], o.event)]
  }

  /** The states that a schedule leads through, from the start. */
  ghost predicate IsRun(cfg: Config, states: seq<State>, schedule: seq<Occurrence>) {
    && cfg.maxSigs > 0
    && |states| == |schedule| + 1 && states[0] == InitialSystem(cfg)
    && forall i :: 0 <= i < |schedule| ==>
         Possible(states[i], schedule[i]) && states[i + 1] == Happens(cfg, states[i], schedule[i])
  }

  ghost predicate Reachable(cfg: Config, sys: State) {
    exists states, schedule :: IsRun(cfg, states, schedule) && states[|schedule|] == sys
  }

  lemma ReachableInitially(cfg: Config)
    requires cfg.maxSigs > 0
    ensures Reachable(cfg, InitialSystem(cfg))
  {
    assert IsRun(cfg, [InitialSystem(cfg)], []);
    assert [InitialSystem(cfg)][0] == InitialSystem(cfg);
  }

  /** A reachable system and one more occurrence. */
  lemma ReachableNext(cfg: Config, sys: State, o: Occurrence)
    requires cfg.maxSigs > 0 && Reachable(cfg, sys) && Possible(sys, o)
    ensures Reachable(cfg, Happens(cfg, sys, o))
  {
    hide WasSent, Happens, InitialSystem;
    var states, schedule :| IsRun(cfg, states, schedule) && states[|schedule|] == sys;
    var states', schedule' := states + [Happens(cfg, sys, o)], schedule + [o];
    forall i | 0 <= i < |schedule'|
      ensures Possible(states'[i], schedule'[i]) && states'[i + 1] == Happens(cfg, states'[i], schedule'[i])
    {
      if i < |schedule| {
        assert schedule'[i] == schedule[i] && states'[i] == states[i] && states'[i + 1] == states[i + 1];
      }
    }
    assert IsRun(cfg, states', schedule') && states'[|schedule'|] == Happens(cfg, sys, o);
  }

  /** A reachable system and one event. */
  lemma Next(cfg: Config, sys: State, q: PID, e: Event) returns (sys': State)
    requires cfg.maxSigs > 0 && Reachable(cfg, sys) && q in sys
    requires e.Deliver? ==> WasSent(sys, e.msg)
    ensures Reachable(cfg, sys') && sys' == sys[q := Step(cfg, sys[q], e)]
  {
    hide Reachable, Step, WasSent;
    ReachableNext(cfg, sys, Occurrence(q, e));
    sys' := Happens(cfg, sys, Occurrence(q, e));
  }

  function World(sys: State): S.World {
    map q | q in sys :: Abs(sys[q])
  }

  // ---- every reachable system

  /** A replica that has not started has handled nothing; one that has keeps its invariant. */
  ghost predicate ReplicaOk(cfg: Config, r: Replica, q: PID) {
    r.id == q && (Fresh(r) || Inv(cfg, r))
  }

  ghost predicate Good(cfg: Config, sys: State) {
    && S.Inv(cfg, World(sys))
    && forall q :: q in sys ==> ReplicaOk(cfg, sys[q], q)
  }

  /** In every run a replica executes at most one block per view, and remembers exactly the views it executed. */
  lemma ExecutesOnceInEveryRun(cfg: Config, sys: State, q: PID)
    requires cfg.Valid() && Reachable(cfg, sys) && q in sys && sys[q].started
    ensures var r := sys[q];
      && (forall i, j :: 0 <= i < j < |r.executed| ==> r.executed[i].propv != r.executed[j].propv)
      && (forall v :: v in r.processedCommit <==> exists i :: 0 <= i < |r.executed| && r.executed[i].propv == v)
  {
    hide Reachable, Good, LogOk, FutureOk;
    ReachableGood(cfg, sys);
    GoodAt(cfg, sys, q);
  }

  lemma WasSentIsSent(sys: State, m: Msg)
    ensures WasSent(sys, m) <==> S.Sent(World(sys), m)
  {
    if WasSent(sys, m) {
      var q :| q in sys && m in sys[q].issued;
      assert m in World(sys)[q].issued;
    }
  }

  /** In every run a new-view that was sent claims a block of an earlier view, the genesis block or a proposed one;
      under a leader without trusted hardware a certificate for that block in the claimed view was sent. */
  lemma ClaimsCertifiedInEveryRun(cfg: Config, sys: State, m: Vote)
    requires cfg.Valid() && Reachable(cfg, sys) && WasSent(sys, VoteMsg(NewView, m))
    ensures m.data.justv < m.data.propv && (m.data.justv == 0 ==> m.data.justh == NEW_HASH)
    ensures m.data.justv > 0 && !cfg.IsTEE(cfg.LeaderOf(m.data.justv)) ==>
      exists cert: Vote :: WasSent(sys, VoteMsg(cert.data.phase, cert)) && ValidCert(cfg, cert.data, cert.signs)
        && (cert.data.phase == Prepare || cert.data.phase == PreCommit)
        && cert.data.propv == m.data.justv && cert.data.proph == m.data.justh
  {
    hide Reachable, S.Inv, S.Claim, ValidCert, WasSent, S.Sent;
    ReachableGood(cfg, sys);
    WasSentIsSent(sys, VoteMsg(NewView, m));
    ClaimInWorld(cfg, World(sys), m);
    if m.data.justv > 0 && !TeeLed(cfg, m.data.justv) {
      var cert := ClaimCertificate(cfg, World(sys), m.data.justv, m.data.justh);
      WasSentIsSent(sys, CertMsg(cert));
    } else {
      NoClaim(cfg, World(sys), m.data.justv, m.data.justh);
    }
  }

  lemma ClaimInWorld(cfg: Config, w: S.World, m: Vote)
    requires S.Inv(cfg, w) && S.Sent(w, VoteMsg(NewView, m))
    ensures m.data.justv < m.data.propv && S.Claim(cfg, w, m.data.justv, m.data.justh)
  {
    hide S.NodeOk, S.Claim, S.SignOk;
    assert S.MsgOk(cfg, w, VoteMsg(NewView, m));
  }

  lemma NoClaim(cfg: Config, w: S.World, v: View, h: Hash)
    requires S.Claim(cfg, w, v, h)
    ensures v == 0 ==> h == NEW_HASH
  {
  }

  lemma ClaimCertificate(cfg: Config, w: S.World, v: View, h: Hash) returns (cert: Vote)
    requires S.Claim(cfg, w, v, h) && v > 0 && !TeeLed(cfg, v)
    ensures S.Sent(w, CertMsg(cert)) && ValidCert(cfg, cert.data, cert.signs)
    ensures (cert.data.phase == Prepare || cert.data.phase == PreCommit) && cert.data.propv == v && cert.data.proph == h
  {
    hide ValidCert, S.ProposedAt;
    cert :| S.CertSent(cfg, w, cert) && cert.data.propv == v && cert.data.proph == h
            && (cert.data.phase == Prepare || cert.data.phase == PreCommit);
  }

  /** What a good system says about one replica. */
  lemma GoodAt(cfg: Config, sys: State, q: PID)
    requires Good(cfg, sys) && q in sys
    ensures sys[q].id == q && (sys[q].started ==> Inv(cfg, sys[q]))
    ensures S.Inv(cfg, World(sys)) && World(sys)[q] == Abs(sys[q]) && S.NodeOk(cfg, World(sys), World(sys)[q])
  {
    hide Inv;
    assert ReplicaOk(cfg, sys[q], q);
  }

  /** A system with one replica replaced. */
  lemma ReplaceGood(cfg: Config, sys: State, q: PID, r: Replica)
    requires Good(cfg, sys) && q in sys && ReplicaOk(cfg, r, q) && S.Inv(cfg, World(sys)[q := Abs(r)])
    ensures Good(cfg, sys[q := r])
  {
    hide S.Inv, ReplicaOk;
    assert World(sys[q := r]) == World(sys)[q := Abs(r)];
  }

  lemma InitialGood(cfg: Config)
    ensures Good(cfg, InitialSystem(cfg))
  {
    var w := World(InitialSystem(cfg));
    assert w.Keys == cfg.nodes.Keys;
    forall q | q in w ensures w[q].id == q && S.NodeOk(cfg, w, w[q]) {
      InitialNode(cfg, w, q);
    }
  }

  lemma InitialNode(cfg: Config, w: S.World, q: PID)
    requires q in w && w[q] == Abs(InitialReplica(q))
    ensures S.NodeOk(cfg, w, w[q])
  {
  }

  lemma StepGood(cfg: Config, sys: State, o: Occurrence)
    requires cfg.Valid() && Good(cfg, sys) && Possible(sys, o)
    ensures Good(cfg, Happens(cfg, sys, o))
  {
    hide Step, ReplicaOk, Received, S.NodeOk, S.MsgOk, Reaches;
    assert o.at in World(sys).Keys;
    hide S.Inv;
    var r := sys[o.at];
    var w: S.World := World(sys)[o.at := Abs(Received(r, o.event))];
    var r' := Step(cfg, r, o.event);
    assert ReplicaOk(cfg, r, o.at);
    StepOk(cfg, r, o.at, o.event);
    ReceivedGood(cfg, sys, o);
    RanFrom(cfg, w, o.at, Abs(r'));
    assert World(sys[o.at := r']) == w[o.at := Abs(r')];
  }

  lemma RanFrom(cfg: Config, w: S.World, q: PID, b: Node)
    requires cfg.Valid() && S.Inv(cfg, w) && q in w && Reaches(cfg, w[q], b)
    ensures S.Inv(cfg, w[q := b])
  {
    hide S.Inv, Runs;
    var acts :| Runs(cfg, w[q], acts, b);
    S.RunsKeep(cfg, w, q, acts, b);
  }

  /** An event keeps a replica's own invariant and is a sequence of protocol actions. */
  lemma StepOk(cfg: Config, r: Replica, q: PID, e: Event)
    requires cfg.Valid() && q in cfg.nodes && ReplicaOk(cfg, r, q)
    ensures ReplicaOk(cfg, Step(cfg, r, e), q) && Reaches(cfg, Abs(Received(r, e)), Abs(Step(cfg, r, e)))
  {
    hide Step, Inv, Fresh;
    StepRefines(cfg, r, e);
    var acts :| Runs(cfg, Abs(Received(r, e)), acts, Abs(Step(cfg, r, e)));
    RunsId(cfg, Abs(Received(r, e)), acts, Abs(Step(cfg, r, e)));
  }

  lemma ReceivedGood(cfg: Config, sys: State, o: Occurrence)
    requires Good(cfg, sys) && Possible(sys, o)
    ensures S.Inv(cfg, World(sys)[o.at := Abs(Received(sys[o.at], o.event))])
  {
    hide S.Inv;
    var w := World(sys);
    var r := sys[o.at];
    if o.event.Deliver? && r.started {
      var q :| q in sys && o.event.msg in sys[q].issued;
      assert o.event.msg in w[q].issued;
      S.ReceiveKeeps(cfg, w, o.at, o.event.msg);
    } else {
      assert w[o.at := Abs(r)] == w;
    }
  }

  /** Every reachable system is good. */
  lemma ReachableGood(cfg: Config, sys: State)
    requires cfg.Valid() && Reachable(cfg, sys)
    ensures Good(cfg, sys) && sys.Keys == cfg.nodes.Keys
  {
    var states, schedule :| IsRun(cfg, states, schedule) && states[|schedule|] == sys;
    RunGood(cfg, states, schedule, |schedule|);
  }

  lemma {:induction false} RunGood(cfg: Config, states: seq<State>, schedule: seq<Occurrence>, i: nat)
    requires cfg.Valid() && IsRun(cfg, states, schedule) && i <= |schedule|
    ensures Good(cfg, states[i]) && states[i].Keys == cfg.nodes.Keys
  {
    hide Good, Happens;
    if i == 0 {
      InitialGood(cfg);
    } else {
      RunGood(cfg, states, schedule, i - 1);
      assert states[i - 1 + 1] == Happens(cfg, states[i - 1], schedule[i - 1]);
      StepGood(cfg, states[i - 1], schedule[i - 1]);
    }
  }

  // ---- the results, for every run

  /** Agreement: all blocks executed by any replicas in any views lie on one parent chain, in view order,
      and two replicas never execute different blocks in one view. */
  lemma AgreementInEveryRun(cfg: Config, sys: State, p: PID, q: PID, d1: RData, d2: RData)
    requires cfg.Valid() && Reachable(cfg, sys) && p in sys && q in sys
    requires d1 in sys[p].executed && d2 in sys[q].executed
    ensures d1.propv <= d2.propv ==> Ancestor(d1.proph.digest, d2.proph.digest)
    ensures d2.propv <= d1.propv ==> Ancestor(d2.proph.digest, d1.proph.digest)
    ensures d1.propv == d2.propv ==> d1.proph.digest == d2.proph.digest
  {
    ReachableGood(cfg, sys);
    hide Reachable, S.Inv;
    var w := World(sys);
    if d1.propv <= d2.propv { A.ExecutedAgree(cfg, w, p, q, d1, d2); }
    if d2.propv <= d1.propv { A.ExecutedAgree(cfg, w, q, p, d2, d1); }
  }

  /** The entries of a new-view proof were all sent in this run. */
  predicate EntriesSent(sys: State, proof: seq<OneJust>) {
    forall e :: e in proof ==> WasSent(sys, EntryMsg(e))
  }

  lemma SentInWorld(sys: State, proof: seq<OneJust>)
    requires EntriesSent(sys, proof)
    ensures S.ProofSent(World(sys), proof)
  {
    forall e | e in proof ensures S.Sent(World(sys), EntryMsg(e)) {
      var q :| q in sys && EntryMsg(e) in sys[q].issued;
      assert EntryMsg(e) in World(sys)[q].issued;
    }
  }

  /** Carry-over: an accumulator that any replica's trusted component accepts names a view at least as high
      as every view decided below its own, and its block is or descends from each block decided there. */
  lemma CarryOverInEveryRun(cfg: Config, sys: State, p: PID, d: RData,
                            q: PID, block: Block, acc: Accum, proof: seq<OneJust>)
    requires cfg.Valid() && Reachable(cfg, sys) && p in sys && q in sys
    requires d in sys[p].executed && d.propv < sys[q].t.view
    requires TeePrepare(cfg, sys[q].t, q, block, acc, proof).1.Some?
    requires EntriesSent(sys, proof)
    ensures acc.prepv >= d.propv
    ensures Ancestor(d.proph.digest, acc.hash.digest)
    ensures Ancestor(d.proph.digest, Of(block)) && d.proph.digest != Of(block)
  {
    ReachableGood(cfg, sys);
    hide Reachable, TeePrepare;
    SentInWorld(sys, proof);
    var w := World(sys);
    assert S.NodeOk(cfg, w, w[p]);
    hide S.Inv, S.CertSent;
    var cert :| S.CertSent(cfg, w, cert) && cert.data == d;
    A.CarryOver(cfg, w, cert, sys[q].t, q, block, acc, proof);
  }

  /** Locks never block honest progress: when a valid quorum of new-views for a view later than a replica's
      lock is accumulated, a block on the accumulated hash passes that replica's safe-parent test. */
  lemma LocksNeverBlockInEveryRun(cfg: Config, sys: State, q: PID, v: View,
                                  block: Block, acc: Accum, proof: seq<OneJust>)
    requires cfg.Valid() && Reachable(cfg, sys) && q in sys && sys[q].t.lockv < v
    requires EntriesSent(sys, proof)
    requires ValidProof(cfg, v, proof) && Summarises(acc, v, proof) && Extends(block, acc.hash)
    ensures SafeParent(sys[q].t, block, acc)
  {
    ReachableGood(cfg, sys);
    hide Reachable, S.Inv, ValidProof;
    SentInWorld(sys, proof);
    A.LocksNeverBlock(cfg, World(sys), q, v, block, acc, proof);
  }

  /** Lockstep: once started, a replica's trusted component is in its view with something left to sign, or
      has begun nothing of the next view; and it never signs two records for one (view, phase). */
  lemma LockstepInEveryRun(cfg: Config, sys: State, q: PID)
    requires cfg.Valid() && Reachable(cfg, sys) && q in sys
    ensures var r := sys[q];
      && (r.started ==> Lockstep(r.t, r.view))
      && Increasing(r.signed) && Below(r.signed, StateKey(r.t)) && Ordered(r.t)
  {
    ReachableGood(cfg, sys);
    hide Reachable;
    assert S.NodeOk(cfg, World(sys), World(sys)[q]);
    assert ReplicaOk(cfg, sys[q], q);
  }
}
