/** A run after which a leader at its threshold does not propose. */
module Witnesses {
  import opened Types
  import opened Certificates
  import opened TrustedMachine
  import opened Accumulators
  import opened VoteLog
  import opened Replicas
  import opened LeaderRoundTrip
  import R = Refinement
  import System

  lemma RangeFour()
    ensures Range(4) == {0, 1, 2, 3}
  {
    assert Range(4) == Range(3) + {3} && Range(3) == Range(2) + {2};
    assert Range(2) == Range(1) + {1} && Range(1) == Range(0) + {0};
  }

  // ---- a leader that does not react

  /** One replica, which is trusted and leads every view. */
  function OneReplica(): Config {
    Config(0, map[0 := true], 1, 0, 0, true, 0)
  }

  function NvData(v: View, h: Hash, hv: View): RData { RData(NO_HASH, v, h, hv, NewView) }

  function Nv(d: RData): Vote { SingleVote(0, d) }

  /** The replica has started, and has proposed in view 1. */
  predicate HasStarted(r: Replica) {
    && r.id == 0 && r.started && r.view == 1 && r.phase == Prepare
    && r.processedNewViews == {1}
    && r.t.view == 1 && r.t.phase == PreCommit
    && r.log.votes.Keys == {Slot(NewView, true, 1), Slot(Prepare, true, 1)}
  }

  /** What matters of this configuration. */
  ghost predicate Alone(cfg: Config) {
    && cfg.Valid() && cfg.TQSize() == cfg.QSize() == cfg.maxSigs == 1 && cfg.FastQC()
    && cfg.nodes.Keys == {0} && cfg.IsTEE(0)
    && (forall v :: cfg.LeaderOf(v) == 0)
  }

  lemma OneAlone()
    ensures Alone(OneReplica())
  {
    OneReplicaValid();
    forall v ensures OneReplica().LeaderOf(v) == 0 { OneLeads(v); }
    hide OneReplica;
  }

  lemma OneLeads(v: View)
    ensures OneReplica().LeaderOf(v) == 0
  {
  }

  lemma OneReplicaValid()
    ensures var cfg := OneReplica();
      && cfg.Valid() && cfg.TQSize() == cfg.QSize() == cfg.maxSigs == 1 && cfg.FastQC()
      && cfg.nodes.Keys == {0} && cfg.IsTEE(0)
  {
    var cfg := OneReplica();
    assert Range(1) == Range(0) + {0};
    assert cfg.nodes.Keys == Range(1);
    assert cfg.TeeNodes() == {0};
  }

  lemma LeadsAlone(cfg: Config)
    requires Alone(cfg)
    ensures cfg.maxSigs > 0 && cfg.Valid() && forall v :: cfg.LeaderOf(v) == 0
  {
  }

  lemma StartAlone(cfg: Config) returns (r: Replica)
    requires Alone(cfg)
    ensures r == Step(cfg, InitialReplica(0), Start) && HasStarted(r)
  {
    r := Step(cfg, InitialReplica(0), Start);
    var d := NvData(1, NEW_HASH, 0);
    LeadsAlone(cfg);
    hide HandleNewView, HandleMsg, StartNewView, HasStarted, Alone;
    Begins(cfg, 0, []);
    FirstNewView(cfg, Begun(0), d);
  }

  /** A new-view that is the first of its view in an unused slot. */
  lemma LogFirst(cfg: Config, r: Replica, d: RData)
    requires Alone(cfg) && d.phase == NewView && Slot(NewView, true, d.propv) !in r.log.votes
    ensures var r1 := LogVote(r, NewView, true, Nv(d));
      && ValidVote(cfg, NewView, Nv(d))
      && r1 == r.(log := r1.log) && r1.log.votes == r.log.votes[Slot(NewView, true, d.propv) := [Nv(d)]]
      && GetMsgs(r1.log, Slot(NewView, true, d.propv), 1) == [Nv(d)] && NewViewThreshold(cfg, r1.log, d.propv)
  {
  }

  lemma FirstNewView(cfg: Config, r: Replica, d: RData)
    requires Alone(cfg) && d == NvData(1, NEW_HASH, 0) && r.id == 0 && r.started && r.view == 1 && r.phase == NewView
    requires r.processedNewViews == {} && r.t == INITIAL.(phase := Prepare) && r.log == EMPTY_LOG
    ensures HasStarted(HandleNewView(cfg, r, Nv(d)))
  {
    LogFirst(cfg, r, d);
    hide LogVote, NewViewThreshold, ValidVote, ProcessQC, GetMsgs;
    var r1 := LogVote(r, NewView, true, Nv(d));
    ProposeAlone(cfg, r1, d);
    PrepareAlone(cfg, r1, d);
    hide PrepareComb;
  }

  lemma PrepareAlone(cfg: Config, r: Replica, d: RData)
    requires Alone(cfg) && r.view == 1 && r.processedNewViews == {}
    requires GetMsgs(r.log, Slot(NewView, true, 1), 1) == [Nv(d)]
    ensures PrepareComb(cfg, r) == ProcessQC(cfg, r, [Nv(d)], 1)
  {
    hide ProcessQC, GetMsgs;
  }

  lemma ProposeAlone(cfg: Config, r: Replica, d: RData)
    requires Alone(cfg) && d == NvData(1, NEW_HASH, 0) && r.id == 0 && r.view == 1 && r.processedNewViews == {}
    requires r.t == INITIAL.(phase := Prepare) && r.log.votes.Keys == {Slot(NewView, true, 1)}
    ensures var r' := ProcessQC(cfg, r, [Nv(d)], 1);
      && r'.view == 1 && r'.processedNewViews == {1} && r'.t.view == 1 && r'.t.phase == PreCommit
           && r'.started == r.started && r'.id == 0
      && r'.log.votes.Keys == {Slot(NewView, true, 1), Slot(Prepare, true, 1)}
  {
    AloneAccepts(cfg, r, d);
    assert cfg.maxSigs > 0 && cfg.IsTEE(0);
    hide TeePrepare, NewViewsToAccum, ProofOf, CreateNewBlock, ProcessQC, Alone;
    var txs, p, t, vote := R.ProcessQCAccepted(cfg, r, [Nv(d)], 1);
    assert t.view == 1 && t.phase == PreCommit && vote.data.propv == 1;
    hide AcceptProposal, LogVote;
    OwnVoteLogged(R.Proposed(cfg, r, txs, p, t, vote), vote);
  }

  lemma OwnVoteLogged(r: Replica, vote: Vote)
    requires r.log.votes.Keys == {Slot(NewView, true, 1)} && vote.data.propv == 1
    ensures var r' := LogVote(r, Prepare, true, vote);
      r' == r.(log := r'.log) && r'.log.votes.Keys == {Slot(NewView, true, 1), Slot(Prepare, true, 1)}
  {
    hide SetInsert, From;
  }

  lemma AloneAccepts(cfg: Config, r: Replica, d: RData)
    requires Alone(cfg) && d == NvData(1, NEW_HASH, 0) && r.id == 0 && r.t == INITIAL.(phase := Prepare)
    ensures var acc := NewViewsToAccum(cfg, 0, [Nv(d)], 1);
      TeePrepare(cfg, r.t, 0, CreateNewBlock(cfg, r, acc.hash).1, acc, ProofOf(cfg, [Nv(d)])).1.Some?
  {
    var nvs := [Nv(d)];
    var acc := NewViewsToAccum(cfg, 0, nvs, 1);
    var proof := ProofOf(cfg, nvs);
    assert NvQuorum(cfg, 1, nvs) && AllSame(nvs) && Identical(nvs);
    AccumulatorRoundTrip(cfg, 0, 1, nvs);
    assert proof == [ToEntry(Nv(d))];
    HighestOfSame(proof, d);
    hide NewViewsToAccum, ProofOf, ValidProof, NvQuorum, Alone;
    AcceptsProposal(cfg, r.t, 0, CreateNewBlock(cfg, r, acc.hash).1, acc, proof);
  }

  /** It has entered view 2, holds enough new-views for it, and has not proposed. */
  predicate Stuck(cfg: Config, r: Replica, m: Vote) {
    && r.id == 0 && r.started && r.view == 2 && r.phase == Prepare && r.processedNewViews == {1}
    && m.data.propv == 2 && ValidVote(cfg, NewView, m) && VoteMsg(NewView, m) in r.issued
    && NewViewThreshold(cfg, r.log, 2) && NewViewThreshold(cfg, Logged(cfg, r, m).log, 2)
  }

  lemma TimeoutAlone(cfg: Config, r: Replica) returns (m: Vote)
    requires Alone(cfg) && HasStarted(r)
    ensures Stuck(cfg, Step(cfg, r, Timeout), m)
  {
    LeadsAlone(cfg);
    SignPastLaw(r.t, 0, 1);
    var (t, ds, w) := SignPast(r.t, 0, 1);
    m := w;
    var d := NvData(2, r.t.preph, r.t.prepv);
    assert m == Nv(d);
    var r3 := Issue(r.(t := t, signed := r.signed + ds, view := 2), VoteMsg(NewView, m));
    NoThreshold(cfg, r3);
    hide Alone, SignPast, LogVote, PrepareComb, NewViewThreshold, ValidVote, Stuck, Logged;
    assert HandleEarlier(cfg, r3) == r3;
    assert Step(cfg, r, Timeout) == HandleNewView(cfg, r3, m);
    NotReacting(cfg, r3, d);
  }

  lemma NoThreshold(cfg: Config, r: Replica)
    requires Alone(cfg) && r.view == 2 && Slot(NewView, true, 2) !in r.log.votes
    requires Slot(NewView, false, 2) !in r.log.votes
    ensures !NewViewThreshold(cfg, r.log, 2)
  {
  }

  lemma NotReacting(cfg: Config, r: Replica, d: RData)
    requires Alone(cfg) && r.id == 0 && r.started && r.view == 2 && r.phase == Prepare && r.processedNewViews == {1}
    requires d.propv == 2 && d.phase == NewView && VoteMsg(NewView, Nv(d)) in r.issued
    requires Slot(NewView, true, 2) !in r.log.votes && Slot(NewView, false, 2) !in r.log.votes
    ensures Stuck(cfg, HandleNewView(cfg, r, Nv(d)), Nv(d))
  {
    LogFirst(cfg, r, d);
    var r1 := LogVote(r, NewView, true, Nv(d));
    assert HandleNewView(cfg, r, Nv(d)) == r1 by { hide PrepareComb; }
    LogAgain(cfg, r1, d);
  }

  /** Storing a new-view again changes nothing. */
  lemma LogAgain(cfg: Config, r: Replica, d: RData)
    requires Alone(cfg) && Slot(NewView, true, d.propv) in r.log.votes
    requires r.log.votes[Slot(NewView, true, d.propv)] == [Nv(d)]
    ensures Logged(cfg, r, Nv(d)).log == r.log
  {
    FromSingle([Nv(d)], Nv(d));
    SinglesConcat([Nv(d)]);
    assert Concat([Nv(d)])[0] == Nv(d).signs[0];
    hide From, AllSigners, Concat;
  }

  /** A reachable state in which a leader at its threshold does not propose: it has started, proposed in view
      1 and timed out.  Receiving the new-view again does not help. */
  lemma LeaderStuck() returns (cfg: Config, sys: System.State, m: Vote)
    ensures cfg.Valid() && System.Reachable(cfg, sys) && 0 in sys && System.WasSent(sys, VoteMsg(NewView, m))
    ensures var r := sys[0];
      && r.started && Leads(cfg, r, r.view) && r.view !in r.processedNewViews && NewViewThreshold(cfg, r.log, r.view)
      && m.data.propv == r.view && ValidVote(cfg, NewView, m) && NewViewThreshold(cfg, Logged(cfg, r, m).log, r.view)
      && r.view !in HandleMsg(cfg, r, VoteMsg(NewView, m)).processedNewViews
  {
    hide OneReplica, Alone, Stuck, System.Reachable, System.WasSent, HandleMsg, NewViewThreshold, ValidVote, Logged;
    cfg := OneReplica();
    OneAlone();
    LeadsAlone(cfg);
    sys, m := StartThenTimeout(cfg);
    StuckMeans(cfg, sys, m);
    ThresholdProposesInEveryRun(cfg, sys, 0, m);
  }

  lemma StuckMeans(cfg: Config, sys: System.State, m: Vote)
    requires Alone(cfg) && 0 in sys && Stuck(cfg, sys[0], m)
    ensures System.WasSent(sys, VoteMsg(NewView, m))
    ensures var r := sys[0];
      && r.started && Leads(cfg, r, r.view) && r.view !in r.processedNewViews && NewViewThreshold(cfg, r.log, r.view)
      && m.data.propv == r.view && ValidVote(cfg, NewView, m) && NewViewThreshold(cfg, Logged(cfg, r, m).log, r.view)
      && r.phase == Prepare
  {
    hide NewViewThreshold, ValidVote, Logged;
  }

  lemma StartThenTimeout(cfg: Config) returns (sys: System.State, m: Vote)
    requires Alone(cfg)
    ensures System.Reachable(cfg, sys) && 0 in sys && Stuck(cfg, sys[0], m)
  {
    LeadsAlone(cfg);
    AloneNodes(cfg);
    hide Alone, Stuck, HasStarted, System.Reachable, Step, System.WasSent;
    var s0 := System.InitialSystem(cfg);
    System.ReachableInitially(cfg);
    System.ReachableNext(cfg, s0, System.Occurrence(0, Start));
    var s1 := System.Happens(cfg, s0, System.Occurrence(0, Start));
    var r1 := StartAlone(cfg);
    assert s1[0] == r1;
    System.ReachableNext(cfg, s1, System.Occurrence(0, Timeout));
    sys := System.Happens(cfg, s1, System.Occurrence(0, Timeout));
    m := TimeoutAlone(cfg, r1);
    assert sys[0] == Step(cfg, r1, Timeout);
  }

  lemma AloneNodes(cfg: Config)
    requires Alone(cfg)
    ensures cfg.nodes.Keys == {0}
  {
  }
}
