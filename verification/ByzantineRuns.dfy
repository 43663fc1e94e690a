/** Runs of the honest replicas among arbitrary ones: any schedule of starts, timeouts, submitted
    transactions, deliveries of any messages in which no signature of an honest replica or of a trusted
    component is forged, and any calls of faulty hosts into their trusted components. */
module ByzantineRuns {
  import opened Types
  import opened Certificates
  import opened TrustedMachine
  import opened Replicas
  import opened Protocol
  import opened Refinement
  import opened StoredBlocks
  import System
  import B = Byzantine

  datatype State = State(honest: System.State, comps: map<PID, B.Component>)

  datatype Deed = Occurs(o: System.Occurrence) | Drives(at: PID, call: Call)

  function World(s: State): B.World {
    B.World(System.World(s.honest), s.comps)
  }

  function InitialState(cfg: Config, honest: set<PID>): State {
    State(map q | q in honest :: InitialReplica(q),
          map q | q in cfg.TeeNodes() - honest :: B.Component(INITIAL, []))
  }

  ghost predicate Possible(s: State, d: Deed) {
    match d
    case Occurs(o) => o.at in s.honest && (o.event.Deliver? ==> B.Unforged(World(s), o.event.msg))
    case Drives(q, call) => q in s.comps
  }

  function Happens(cfg: Config, s: State, d: Deed): State
    requires cfg.maxSigs > 0
  {
    match d
    case Occurs(o) => if o.at in s.honest then s.(honest := System.Happens(cfg, s.honest, o)) else s
    case Drives(q, call) => if q in s.comps then s.(comps := s.comps[q := B.Driven(cfg, q, s.comps[q], call)]) else s
  }

  ghost predicate IsRun(cfg: Config, honest: set<PID>, states: seq<State>, schedule: seq<Deed>) {
    && cfg.maxSigs > 0
    && |states| == |schedule| + 1 && states[0] == InitialState(cfg, honest)
    && forall i :: 0 <= i < |schedule| ==>
         Possible(states[i], schedule[i]) && states[i + 1] == Happens(cfg, states[i], schedule[i])
  }

  ghost predicate Reachable(cfg: Config, honest: set<PID>, s: State) {
    exists states, schedule :: IsRun(cfg, honest, states, schedule) && states[|schedule|] == s
  }

  lemma ReachableInitially(cfg: Config, honest: set<PID>)
    requires cfg.maxSigs > 0
    ensures Reachable(cfg, honest, InitialState(cfg, honest))
  {
    assert IsRun(cfg, honest, [InitialState(cfg, honest)], []);
    assert [InitialState(cfg, honest)][0] == InitialState(cfg, honest);
  }

  /** A reachable state and one more deed. */
  lemma ReachableNext(cfg: Config, honest: set<PID>, s: State, d: Deed)
    requires cfg.maxSigs > 0 && Reachable(cfg, honest, s) && Possible(s, d)
    ensures Reachable(cfg, honest, Happens(cfg, s, d))
  {
    hide Possible, Happens, InitialState;
    var states, schedule :| IsRun(cfg, honest, states, schedule) && states[|schedule|] == s;
    var states', schedule' := states + [Happens(cfg, s, d)], schedule + [d];
    forall i | 0 <= i < |schedule'|
      ensures Possible(states'[i], schedule'[i]) && states'[i + 1] == Happens(cfg, states'[i], schedule'[i])
    {
      if i < |schedule| {
        assert schedule'[i] == schedule[i] && states'[i] == states[i] && states'[i + 1] == states[i + 1];
      }
    }
    assert IsRun(cfg, honest, states', schedule') && states'[|schedule'|] == Happens(cfg, s, d);
  }

  // ---- the invariant

  ghost predicate Good(cfg: Config, s: State) {
    && B.Inv(cfg, World(s))
    && forall q :: q in s.honest ==> System.ReplicaOk(cfg, s.honest[q], q)
  }

  lemma InitialGood(cfg: Config, honest: set<PID>)
    requires B.Setting(cfg, honest)
    ensures Good(cfg, InitialState(cfg, honest)) && InitialState(cfg, honest).honest.Keys == honest
  {
    hide Inv, B.NodeOk, B.Setting;
    var w := World(InitialState(cfg, honest));
    assert w.nodes.Keys == honest && w.comps.Keys == cfg.TeeNodes() - honest;
    forall q | q in w.nodes ensures w.nodes[q].id == q && B.NodeOk(cfg, w, w.nodes[q]) {
      InitialNode(cfg, w, q);
    }
  }

  lemma InitialNode(cfg: Config, w: B.World, q: PID)
    requires q in w.nodes && w.nodes[q] == Abs(InitialReplica(q))
    ensures B.NodeOk(cfg, w, w.nodes[q])
  {
  }

  lemma HappensGood(cfg: Config, s: State, d: Deed)
    requires cfg.Valid() && Good(cfg, s) && Possible(s, d)
    ensures Good(cfg, Happens(cfg, s, d)) && Happens(cfg, s, d).honest.Keys == s.honest.Keys
  {
    hide System.ReplicaOk, B.Inv, B.Driven;
    match d
    case Occurs(o) => StepGood(cfg, s, o);
    case Drives(q, call) => B.DriveKeeps(cfg, World(s), q, call);
  }

  lemma StepGood(cfg: Config, s: State, o: System.Occurrence)
    requires cfg.Valid() && Good(cfg, s) && Possible(s, Occurs(o))
    ensures Good(cfg, s.(honest := System.Happens(cfg, s.honest, o)))
  {
    hide Step, Good;
    var r' := Step(cfg, s.honest[o.at], o.event);
    GoodReplica(cfg, s, o.at);
    System.StepOk(cfg, s.honest[o.at], o.at, o.event);
    hide System.ReplicaOk, B.Inv, Reaches;
    MoveGood(cfg, s, o);
    WorldPut(s, o.at, r');
    PutGood(cfg, s, o.at, r');
  }

  lemma GoodReplica(cfg: Config, s: State, q: PID)
    requires Good(cfg, s) && q in s.honest
    ensures q in cfg.nodes && System.ReplicaOk(cfg, s.honest[q], q) && B.Inv(cfg, World(s))
  {
    hide System.ReplicaOk, B.NodeOk;
    assert q in World(s).nodes.Keys;
  }

  lemma PutGood(cfg: Config, s: State, q: PID, r: Replica)
    requires Good(cfg, s) && q in s.honest && System.ReplicaOk(cfg, r, q)
    requires B.Inv(cfg, World(s.(honest := s.honest[q := r])))
    ensures Good(cfg, s.(honest := s.honest[q := r]))
  {
    hide System.ReplicaOk, B.Inv;
  }

  lemma WorldPut(s: State, q: PID, r: Replica)
    requires q in s.honest
    ensures World(s.(honest := s.honest[q := r])) == B.Put(World(s), q, Abs(r))
  {
  }

  lemma MoveGood(cfg: Config, s: State, o: System.Occurrence)
    requires cfg.Valid() && B.Inv(cfg, World(s)) && Possible(s, Occurs(o))
    requires Reaches(cfg, Abs(Received(s.honest[o.at], o.event)), Abs(Step(cfg, s.honest[o.at], o.event)))
    ensures B.Inv(cfg, B.Put(World(s), o.at, Abs(Step(cfg, s.honest[o.at], o.event))))
  {
    hide B.Inv, Step, B.Unforged, Possible;
    ReceivedInv(cfg, s, o);
    OccursAt(s, o);
    var w := World(s);
    var r := s.honest[o.at];
    var a := Abs(Received(r, o.event));
    var b := Abs(Step(cfg, r, o.event));
    var acts :| Runs(cfg, a, acts, b);
    B.RunsKeep(cfg, B.Put(w, o.at, a), o.at, acts, b);
    assert B.Put(B.Put(w, o.at, a), o.at, b) == B.Put(w, o.at, b);
  }

  lemma OccursAt(s: State, o: System.Occurrence)
    requires Possible(s, Occurs(o))
    ensures o.at in s.honest && o.at in World(s).nodes && World(s).nodes[o.at] == Abs(s.honest[o.at])
  {
    hide B.Unforged;
  }

  lemma ReceivedInv(cfg: Config, s: State, o: System.Occurrence)
    requires B.Inv(cfg, World(s)) && Possible(s, Occurs(o))
    ensures B.Inv(cfg, B.Put(World(s), o.at, Abs(Received(s.honest[o.at], o.event))))
  {
    hide B.Inv, B.Unforged;
    var w := World(s);
    var r := s.honest[o.at];
    if o.event.Deliver? && r.started {
      B.ReceiveKeeps(cfg, w, o.at, o.event.msg);
    } else {
      assert B.Put(w, o.at, Abs(r)) == w;
    }
  }

  lemma ReachableGood(cfg: Config, honest: set<PID>, s: State)
    requires cfg.Valid() && B.Setting(cfg, honest) && Reachable(cfg, honest, s)
    ensures Good(cfg, s) && s.honest.Keys == honest
  {
    var states, schedule :| IsRun(cfg, honest, states, schedule) && states[|schedule|] == s;
    RunGood(cfg, honest, states, schedule, |schedule|);
  }

  lemma {:induction false} RunGood(cfg: Config, honest: set<PID>, states: seq<State>, schedule: seq<Deed>, i: nat)
    requires cfg.Valid() && B.Setting(cfg, honest) && IsRun(cfg, honest, states, schedule) && i <= |schedule|
    ensures Good(cfg, states[i]) && states[i].honest.Keys == honest
  {
    hide Good, Happens, Possible, B.Setting;
    if i == 0 {
      InitialGood(cfg, honest);
    } else {
      RunGood(cfg, honest, states, schedule, i - 1);
      assert states[i - 1 + 1] == Happens(cfg, states[i - 1], schedule[i - 1]);
      HappensGood(cfg, states[i - 1], schedule[i - 1]);
    }
  }

  // ---- the results, for every run

  /** In every run, whatever honest replicas hold or have executed for a view with a trusted leader is the block
      of a proposal that they know and that passes the proposal test. */
  lemma {:induction false} RunStored(cfg: Config, honest: set<PID>, states: seq<State>, schedule: seq<Deed>, i: nat)
    requires cfg.Valid() && B.Setting(cfg, honest) && IsRun(cfg, honest, states, schedule) && i <= |schedule|
    ensures AllStored(cfg, states[i])
  {
    hide Happens, Possible, B.Setting, Good, AllStored;
    if i == 0 {
      InitialStored(cfg, honest);
    } else {
      RunStored(cfg, honest, states, schedule, i - 1);
      RunGood(cfg, honest, states, schedule, i - 1);
      assert states[i - 1 + 1] == Happens(cfg, states[i - 1], schedule[i - 1]);
      HappensStored(cfg, states[i - 1], schedule[i - 1]);
    }
  }

  ghost predicate AllStored(cfg: Config, s: State) {
    forall q :: q in s.honest && s.honest[q].started ==> Stored(cfg, s.honest[q])
  }

  lemma InitialStored(cfg: Config, honest: set<PID>)
    ensures AllStored(cfg, InitialState(cfg, honest))
  {
    hide Stored;
  }

  lemma HappensStored(cfg: Config, s: State, d: Deed)
    requires cfg.Valid() && Good(cfg, s) && AllStored(cfg, s)
    ensures AllStored(cfg, Happens(cfg, s, d))
  {
    hide Good, Stored, Step, B.Driven;
    if d.Occurs? && d.o.at in s.honest {
      GoodReplica(cfg, s, d.o.at);
      hide B.Inv, Inv;
      StepStored(cfg, s.honest[d.o.at], d.o.event);
    }
  }

  /** The component of d's leader signed a proposal for d's view of the block that d names. */
  ghost predicate LeaderSigned(cfg: Config, s: State, d: RData) {
    var signed := B.Signed(World(s));
    var leader := cfg.LeaderOf(d.propv);
    leader in signed && exists p: Proposal ::
      LdrData(p) in signed[leader] && p.acc.view == d.propv && EqHashes(BlockHash(p.block), d.proph)
  }

  /** In every run, with any number of faulty hosts, what an honest replica executes in a view with a trusted
      leader was proposed there by the leader's component. */
  lemma ExecutedProposedInEveryRun(cfg: Config, honest: set<PID>, s: State, q: PID, d: RData)
    requires cfg.Valid() && B.Setting(cfg, honest) && Reachable(cfg, honest, s)
    requires q in s.honest && d in s.honest[q].executed && TeeLed(cfg, d.propv)
    ensures LeaderSigned(cfg, s, d)
  {
    ReachableGood(cfg, honest, s);
    var states, schedule :| IsRun(cfg, honest, states, schedule) && states[|schedule|] == s;
    RunStored(cfg, honest, states, schedule, |schedule|);
    hide Reachable, IsRun, Good, B.Setting;
    ExecutedProposed(cfg, s, q, d);
  }

  lemma NotFreshOnceExecuted(r: Replica)
    requires r.executed != []
    ensures !Fresh(r)
  {
  }

  lemma ExecutedProposed(cfg: Config, s: State, q: PID, d: RData)
    requires cfg.Valid() && Good(cfg, s) && AllStored(cfg, s)
    requires q in s.honest && d in s.honest[q].executed && TeeLed(cfg, d.propv)
    ensures LeaderSigned(cfg, s, d)
  {
    hide VerifyLdrPrepare, B.Inv, B.Signed, Good, LogOk, FutureOk, BlocksBacked, TrustedPhase, MayPropose;
    GoodReplica(cfg, s, q);
    NotFreshOnceExecuted(s.honest[q]);
    assert s.honest[q].started && Stored(cfg, s.honest[q]);
    var p: Proposal :| LdrMsg(p) in Known(s.honest[q]) && VerifyLdrPrepare(cfg, p) && p.acc.view == d.propv
                       && EqHashes(BlockHash(p.block), d.proph);
    assert World(s).nodes[q] == Abs(s.honest[q]) && LdrMsg(p) in World(s).nodes[q].Known();
    B.ProposalSigned(cfg, World(s), q, p);
  }

  /** Two honest replicas never execute different blocks in one view, however many hosts of trusted components
      are faulty.  The executed round data name the block by equal hashes, flags included, when at most f
      replicas are faulty in all or both blocks were decided in one phase. */
  lemma SameViewAgreementInEveryRun(cfg: Config, honest: set<PID>, s: State, p: PID, q: PID, d1: RData, d2: RData)
    requires cfg.Valid() && B.Setting(cfg, honest) && Reachable(cfg, honest, s) && p in s.honest && q in s.honest
    requires d1 in s.honest[p].executed && d2 in s.honest[q].executed && d1.propv == d2.propv
    ensures EqHashes(d1.proph, d2.proph)
    ensures B.FewFaulty(cfg, honest) || d1.phase == d2.phase ==> d1.proph == d2.proph
  {
    ReachableGood(cfg, honest, s);
    hide Good, B.FewFaulty, B.Setting;
    if B.FewFaulty(cfg, honest) || d1.phase == d2.phase {
      hide Reachable;
      SameViewAgreement(cfg, s, p, q, d1, d2);
    } else {
      ExecutedFinal(cfg, s, p, d1);
      ExecutedFinal(cfg, s, q, d2);
      ExecutedProposedInEveryRun(cfg, honest, s, p, d1);
      ExecutedProposedInEveryRun(cfg, honest, s, q, d2);
      hide Reachable;
      ProposedOnce(cfg, s, d1, d2);
    }
  }

  lemma ExecutedFinal(cfg: Config, s: State, q: PID, d: RData)
    requires Good(cfg, s) && q in s.honest && d in s.honest[q].executed
    ensures Final(cfg, d)
  {
    hide System.ReplicaOk, B.Made, B.Led, B.CertKnown, B.Unforged, B.Setting, Final;
    assert B.NodeOk(cfg, World(s), World(s).nodes[q]);
  }

  lemma ProposedOnce(cfg: Config, s: State, d1: RData, d2: RData)
    requires Good(cfg, s) && LeaderSigned(cfg, s, d1) && LeaderSigned(cfg, s, d2) && d1.propv == d2.propv
    ensures EqHashes(d1.proph, d2.proph)
  {
    hide B.Inv, System.ReplicaOk, B.Signed;
    B.SignedInOrder(cfg, World(s));
    var signed := B.Signed(World(s))[cfg.LeaderOf(d1.propv)];
    var p1: Proposal :| LdrData(p1) in signed && p1.acc.view == d1.propv && EqHashes(BlockHash(p1.block), d1.proph);
    var p2: Proposal :| LdrData(p2) in signed && p2.acc.view == d2.propv && EqHashes(BlockHash(p2.block), d2.proph);
    OneRecordPerRound(signed, LdrData(p1), LdrData(p2));
  }

  lemma SameViewAgreement(cfg: Config, s: State, p: PID, q: PID, d1: RData, d2: RData)
    requires cfg.Valid() && Good(cfg, s) && p in s.honest && q in s.honest
    requires d1 in s.honest[p].executed && d2 in s.honest[q].executed && d1.propv == d2.propv
    requires B.FewFaulty(cfg, s.honest.Keys) || d1.phase == d2.phase
    ensures d1.proph == d2.proph
  {
    hide B.Inv, System.ReplicaOk, B.FewFaulty;
    var w := World(s);
    assert w.nodes.Keys == s.honest.Keys;
    B.ExecutedAgree(cfg, w, p, q, d1, d2);
  }

  /** In the same runs, any two certificates for one view and phase that are not forged, two trusted ones, a
      trusted and a mixed one or two mixed ones, carry the same round data, however many hosts of trusted
      components are faulty. */
  lemma CertificatesAgreeInEveryRun(cfg: Config, honest: set<PID>, s: State, ph: Phase, c1: Vote, c2: Vote)
    requires cfg.Valid() && B.Setting(cfg, honest) && Reachable(cfg, honest, s)
    requires ValidQC(cfg, ph, c1) && ValidQC(cfg, ph, c2) && c1.data.propv == c2.data.propv
    requires B.Unforged(World(s), VoteMsg(ph, c1)) && B.Unforged(World(s), VoteMsg(ph, c2))
    ensures c1.data == c2.data
  {
    ReachableGood(cfg, honest, s);
    hide Reachable, B.Inv, System.ReplicaOk, ValidCert, B.Genuine;
    B.CertificatesAgree(cfg, World(s), c1, c2);
  }

  /** What an honest replica sends is never forged, so these runs include every delivery of it to the others. */
  lemma HonestMessagesDeliverable(cfg: Config, honest: set<PID>, s: State, q: PID, m: Msg)
    requires cfg.Valid() && B.Setting(cfg, honest) && Reachable(cfg, honest, s) && q in s.honest
    requires m in s.honest[q].issued
    ensures B.Unforged(World(s), m)
  {
    ReachableGood(cfg, honest, s);
    hide Reachable, B.Unforged, B.Led, B.Made, System.ReplicaOk;
    var w := World(s);
    assert B.NodeOk(cfg, w, w.nodes[q]);
  }
}
