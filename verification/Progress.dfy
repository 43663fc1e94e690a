/** The agreement results are about runs that decide: for every n there is a run in which two replicas decide
    in each of the views 1 to n, under a trusted leader and with two trusted replicas alone. */
module Progress {
  import opened Types
  import opened Quorums
  import opened Certificates
  import opened TrustedMachine
  import opened VoteLog
  import opened Replicas
  import opened LeaderRoundTrip
  import R = Refinement
  import CatchUp
  import PhaseOrder
  import W = Witnesses
  import System
  import Leading

  // ---- the scene

  /** Four replicas, three of them trusted; replica 0 leads, and replicas do not stop. */
  function TheConfig(): Config {
    Config(1, map[0 := true, 1 := true, 2 := true, 3 := false], 3, 100, 0, true, 0)
  }

  ghost predicate Scene(cfg: Config) {
    && cfg.Valid() && cfg.TQSize() == 2 && cfg.QSize() == 3 && cfg.FastQC() && cfg.maxViews == 0
    && cfg.nodes.Keys == {0, 1, 2, 3} && cfg.IsTEE(0) && cfg.IsTEE(1)
    && (forall v :: cfg.LeaderOf(v) == 0)
  }

  lemma TheScene()
    ensures Scene(TheConfig())
  {
    W.RangeFour();
    assert TheConfig().TeeNodes() == {0, 1, 2};
    forall v ensures TheConfig().LeaderOf(v) == 0 { Leads0(v); }
  }

  lemma Leads0(v: View)
    ensures TheConfig().LeaderOf(v) == 0
  {
  }

  predicate IsNv(m: Vote, p: PID, v: View) {
    m == SingleVote(p, m.data) && m.data.phase == NewView && m.data.propv == v
  }

  /** The leader has entered view v and holds its own new-view only. */
  ghost predicate LeaderAt(r: Replica, v: View) {
    && r.id == 0 && r.started && r.view == v && r.phase == NewView
    && r.t.view == v && r.t.phase == Prepare
    && (forall x :: x in r.processedNewViews || x in r.processedCommit ==> x < v)
    && (forall slot :: slot in r.log.votes && slot != Slot(NewView, true, v) ==> slot.view < v)
    && Slot(NewView, true, v) in r.log.votes
    && exists m :: r.log.votes[Slot(NewView, true, v)] == [m] && IsNv(m, 0, v)
  }

  /** Replica 1 has entered view v and sent its new-view. */
  ghost predicate BackupAt(r: Replica, v: View) {
    && r.id == 1 && r.started && r.view == v && r.t.view == v && r.t.phase == Prepare
    && (forall x :: x in r.blocks || x in r.processedCommit ==> x < v)
    && r.log.proposals == map[]
    && exists m :: IsNv(m, 1, v) && VoteMsg(NewView, m) in r.issued
  }

  predicate Decided(r: Replica, u: View) {
    exists d :: d in r.executed && d.propv == u
  }

  predicate DecidedUpTo(r: Replica, v: View) {
    forall u :: 1 <= u < v ==> Decided(r, u)
  }

  ghost predicate RoundAt(cfg: Config, sys: System.State, v: View) {
    && System.Reachable(cfg, sys) && 0 in sys && 1 in sys && v > 0
    && LeaderAt(sys[0], v) && BackupAt(sys[1], v)
    && DecidedUpTo(sys[0], v) && DecidedUpTo(sys[1], v)
  }

  // ---- proposing

  /** The leader has proposed p. */
  ghost predicate HasProposal(r: Replica, v: View, p: Proposal) {
    && r.id == 0 && r.started && r.view == v && r.phase == Prepare
    && (forall x :: x in r.processedNewViews ==> x <= v) && (forall x :: x in r.processedCommit ==> x < v)
    && v in r.blocks && r.blocks[v] == p.block && p.acc.view == v && LdrMsg(p) in r.issued
    && (forall slot :: slot in r.log.votes && slot != Slot(NewView, true, v) && slot != Slot(Prepare, true, v) ==>
         slot.view < v)
    && Slot(Prepare, true, v) in r.log.votes && r.log.votes[Slot(Prepare, true, v)] == [SingleVote(0, LdrData(p))]
  }

  /** A second trusted new-view is logged next to the leader's own. */
  lemma SecondLogged(cfg: Config, r: Replica, v: View, m: Vote)
    requires Scene(cfg) && LeaderAt(r, v) && IsNv(m, 1, v)
    ensures var r1 := Logged(cfg, r, m);
      && r1 == r.(inbox := r1.inbox, log := r1.log) && ValidVote(cfg, NewView, m)
      && r1.log.votes.Keys == r.log.votes.Keys && |Entries(r1.log, Slot(NewView, true, v))| == 2
      && NewViewThreshold(cfg, r1.log, v)
  {
    var own :| r.log.votes[Slot(NewView, true, v)] == [own] && IsNv(own, 0, v);
    SecondSigner(own, m);
    hide From, SetInsert;
  }

  /** A vote of replica 1 next to one of replica 0. */
  lemma SecondSigner(own: Vote, m: Vote)
    requires own == SingleVote(0, own.data) && m == SingleVote(1, m.data)
    ensures !From([own], SignersOf(m.signs)) && SetInsert([own], m) == [own, m]
  {
    FromSingle([own], m);
    SinglesConcat([own]);
    assert Concat([own])[0].signer == 0 && SignersOf(Concat([own])) == {0};
    assert SetInsert([own], m) == [own] + SetInsert([own][1..], m);
    assert SetInsert([], m) == [m];
    hide From, AllSigners, Concat, SetInsert;
  }

  lemma Proposes(cfg: Config, sys: System.State, v: View, m: Vote) returns (p: Proposal)
    requires Scene(cfg) && System.Good(cfg, sys) && 0 in sys && LeaderAt(sys[0], v) && v > 0
    requires IsNv(m, 1, v) && System.WasSent(sys, VoteMsg(NewView, m))
    ensures var r' := Step(cfg, sys[0], Deliver(VoteMsg(NewView, m)));
      HasProposal(r', v, p) && r'.executed == sys[0].executed
  {
    hide LeaderAt, Scene, System.Good, System.WasSent, HasProposal, Step, NewViewThreshold, ValidVote, Logged;
    SecondLogged(cfg, sys[0], v, m);
    LeaderNotProposed(cfg, sys[0], v);
    SecondAccepted(cfg, sys, m);
    p := ProposesLocally(cfg, sys[0], v, m);
  }

  lemma SecondAccepted(cfg: Config, sys: System.State, m: Vote)
    requires cfg.Valid() && System.Good(cfg, sys) && 0 in sys && 0 in cfg.nodes && sys[0].started
    requires Leads(cfg, sys[0], sys[0].view) && sys[0].view !in sys[0].processedNewViews && m.data.propv == sys[0].view
    requires ValidVote(cfg, NewView, m) && System.WasSent(sys, VoteMsg(NewView, m))
    requires var r1 := Logged(cfg, sys[0], m);
      r1 == sys[0].(inbox := r1.inbox, log := r1.log) && NewViewThreshold(cfg, r1.log, sys[0].view)
    ensures sys[0].view in PrepareComb(cfg, Logged(cfg, sys[0], m)).processedNewViews
  {
    hide NewViewThreshold, ValidVote, Logged, System.Good, System.WasSent, PrepareComb;
    LoggedGood(cfg, sys, 0, m);
    var sys1: System.State := sys[0 := Logged(cfg, sys[0], m)];
    assert sys1[0] == Logged(cfg, sys[0], m);
    ProposalSucceeds(cfg, sys1, 0);
  }

  lemma ProposesLocally(cfg: Config, r: Replica, v: View, m: Vote) returns (p: Proposal)
    requires Scene(cfg) && LeaderAt(r, v) && IsNv(m, 1, v)
    requires v in PrepareComb(cfg, Logged(cfg, r, m)).processedNewViews
    ensures var r' := Step(cfg, r, Deliver(VoteMsg(NewView, m))); HasProposal(r', v, p) && r'.executed == r.executed
  {
    SecondLogged(cfg, r, v, m);
    LeaderNotProposed(cfg, r, v);
    var r1 := Logged(cfg, r, m);
    LeaderReady(r, r1, v);
    hide NewViewThreshold, ValidVote, Logged, PrepareComb, Step, LeaderAt, Scene, HasProposal;
    p := ProposedAs(cfg, r1, v);
    StepIsPrepare(cfg, r, v, m);
    ProposalHeld(r, r1, PrepareComb(cfg, r1), v, p);
  }

  lemma LeaderReady(r: Replica, r1: Replica, v: View)
    requires LeaderAt(r, v) && r1 == r.(inbox := r1.inbox, log := r1.log) && r1.log.votes.Keys == r.log.votes.Keys
    ensures r1.t.view == v && r1.t.phase == Prepare && r.phase == NewView
    ensures forall slot :: slot in r1.log.votes && slot != Slot(NewView, true, v) ==> slot.view < v
  {
  }

  lemma ProposalHeld(r: Replica, r1: Replica, r2: Replica, v: View, p: Proposal)
    requires LeaderAt(r, v) && r1 == r.(inbox := r1.inbox, log := r1.log) && r1.log.votes.Keys == r.log.votes.Keys
    requires ProposedFrom(r1, r2, v, p)
    ensures HasProposal(r2.(phase := Prepare), v, p) && r2.executed == r.executed
  {
  }

  ghost predicate ProposedFrom(r: Replica, r': Replica, v: View, p: Proposal) {
    && r' == r.(transactions := r'.transactions, t := r'.t, signed := r'.signed,
                processedNewViews := r.processedNewViews + {v}, blocks := r.blocks[v := p.block],
                issued := r'.issued, log := r'.log)
    && p.acc.view == v && LdrMsg(p) in r'.issued
    && r'.log.votes == r.log.votes[Slot(Prepare, true, v) := [SingleVote(0, LdrData(p))]]
  }

  lemma LeaderNotProposed(cfg: Config, r: Replica, v: View)
    requires Scene(cfg) && LeaderAt(r, v)
    ensures cfg.Valid() && 0 in cfg.nodes && r.started && r.view == v && Leads(cfg, r, v) && v !in r.processedNewViews
    ensures r.id == 0 && cfg.IsTEE(0)
  {
  }

  lemma ProposedAs(cfg: Config, r: Replica, v: View) returns (p: Proposal)
    requires cfg.Valid() && 0 in cfg.nodes && r.id == 0 && r.view == v && v !in r.processedNewViews
    requires r.t.view == v && r.t.phase == Prepare && cfg.IsTEE(0)
    requires forall slot :: slot in r.log.votes && slot != Slot(NewView, true, v) ==> slot.view < v
    requires v in PrepareComb(cfg, r).processedNewViews
    ensures ProposedFrom(r, PrepareComb(cfg, r), v, p)
  {
    var nvs, required := ProcessedFrom(cfg, r);
    ProcessedMeansAccepted(cfg, r, nvs, required);
    hide PrepareComb, ProcessQC, NewViewsToAccum, ProofOf, CreateNewBlock, TeePrepare;
    var txs, t, vote;
    txs, p, t, vote := R.ProcessQCAccepted(cfg, r, nvs, required);
    Leading.AcceptedView(cfg, r, p);
    assert vote == SingleVote(0, LdrData(p));
    hide AcceptProposal, SetInsert, From;
  }

  lemma ProcessedFrom(cfg: Config, r: Replica) returns (nvs: seq<Vote>, required: nat)
    requires cfg.maxSigs > 0 && r.view !in r.processedNewViews && r.view in PrepareComb(cfg, r).processedNewViews
    ensures PrepareComb(cfg, r) == ProcessQC(cfg, r, nvs, required)
  {
    hide ProcessQC;
    var tee := GetMsgs(r.log, Slot(NewView, true, r.view), cfg.TQSize());
    var non := GetMsgs(r.log, Slot(NewView, false, r.view), cfg.QSize());
    if cfg.FastQC() && |tee| >= cfg.TQSize() {
      nvs, required := tee, cfg.TQSize();
    } else {
      nvs, required := MixIn(MixIn([], tee, cfg.QSize()), non, cfg.QSize()), cfg.QSize();
    }
  }

  lemma ProcessedMeansAccepted(cfg: Config, r: Replica, nvs: seq<Vote>, required: nat)
    requires cfg.maxSigs > 0 && r.view !in r.processedNewViews
    requires r.view in ProcessQC(cfg, r, nvs, required).processedNewViews
    ensures var acc := NewViewsToAccum(cfg, r.id, nvs, required);
      TeePrepare(cfg, r.t, r.id, CreateNewBlock(cfg, r, acc.hash).1, acc, ProofOf(cfg, nvs)).1.Some?
  {
    hide TeePrepare, NewViewsToAccum, ProofOf, Store;
  }

  lemma StepIsPrepare(cfg: Config, r: Replica, v: View, m: Vote)
    requires cfg.Valid() && r.started && r.view == v && r.phase == NewView && Leads(cfg, r, v) && m.data.propv == v
    requires ValidVote(cfg, NewView, m) && m.signs != [] && NewViewThreshold(cfg, Logged(cfg, r, m).log, v)
    requires var r2 := PrepareComb(cfg, Logged(cfg, r, m)); v in r2.processedNewViews && r2.view == v
    ensures Step(cfg, r, Deliver(VoteMsg(NewView, m))) == PrepareComb(cfg, Logged(cfg, r, m)).(phase := Prepare)
  {
    hide PrepareComb, NewViewThreshold, ValidVote, Store;
    hide HandleLdrPrepare, HandlePrepare, HandlePreCommit, HandleCommit, StartNewView;
  }

  // ---- voting

  /** Replica 1 has voted for p in view v. */
  ghost predicate HasVoted(r: Replica, v: View, p: Proposal) {
    && r.id == 1 && r.started && r.view == v && r.t.view == v && r.t.phase == PreCommit
    && (forall x :: x in r.blocks ==> x <= v) && v in r.blocks && r.blocks[v] == p.block
    && (forall x :: x in r.processedCommit ==> x < v)
    && r.log.proposals == map[] && VoteMsg(Prepare, SingleVote(1, LdrData(p))) in r.issued
  }

  lemma Votes(cfg: Config, sys: System.State, v: View, p: Proposal)
    requires Scene(cfg) && System.Good(cfg, sys) && 1 in sys && BackupAt(sys[1], v) && p.acc.view == v
    requires System.WasSent(sys, LdrMsg(p))
    ensures var r' := Step(cfg, sys[1], Deliver(LdrMsg(p))); HasVoted(r', v, p) && r'.executed == sys[1].executed
  {
    hide System.Good, VerifyLdrPrepare, TeePrepare, System.WasSent;
    BackupAccepts(cfg, sys, 1, p);
    VotesLocally(cfg, sys[1], v, p);
  }

  lemma VotesLocally(cfg: Config, r: Replica, v: View, p: Proposal)
    requires Scene(cfg) && BackupAt(r, v) && p.acc.view == v && VerifyLdrPrepare(cfg, p) && Extends(p.block, p.acc.hash)
    requires p.acc.size == cfg.QSize() || p.acc.size == cfg.TQSize()
    requires TeePrepare(cfg, r.t, 1, p.block, p.acc, p.proof).1.Some?
    ensures var r' := Step(cfg, r, Deliver(LdrMsg(p))); HasVoted(r', v, p) && r'.executed == r.executed
  {
    AcceptedProposal(cfg, r.t, 1, p.block, p.acc, p.proof);
    hide VerifyLdrPrepare, TeePrepare, HandleNewView, HandlePrepare, HandlePreCommit, HandleCommit, StartNewView;
    hide StoreProposal;
  }

  // ---- deciding

  function TheCert(p: Proposal): Vote {
    Vote(LdrData(p), [Sign(true, 0, RoundText(LdrData(p))), Sign(true, 1, RoundText(LdrData(p)))])
  }

  lemma CertHolds(cfg: Config, p: Proposal)
    requires Scene(cfg)
    ensures ValidQC(cfg, Prepare, TheCert(p)) && ValidVote(cfg, Prepare, SingleVote(1, LdrData(p)))
  {
    QuorumSizes(cfg);
    var signs := TheCert(p).signs;
    assert signs[0].signer == 0 && signs[1].signer == 1;
  }

  /** The vote of replica 1 completes the trusted certificate. */
  lemma Counts(cfg: Config, r: Replica, v: View, p: Proposal)
    requires Scene(cfg) && HasProposal(r, v, p)
    ensures var (log, tee, non) := CountVote(cfg, r.log, Prepare, SingleVote(1, LdrData(p)));
      && tee == 2 && non == 0 && log.votes.Keys == r.log.votes.Keys
      && LogCert(cfg, r.(log := log), Prepare, LdrData(p), true) == TheCert(p)
  {
    CountsTwo(cfg, r, v, p);
    CertOfTwo(cfg, CountVote(cfg, r.log, Prepare, SingleVote(1, LdrData(p))).0, p);
    hide CountVote;
  }

  lemma CountsTwo(cfg: Config, r: Replica, v: View, p: Proposal)
    requires cfg.IsTEE(1) && HasProposal(r, v, p)
    ensures var (log, tee, non) := CountVote(cfg, r.log, Prepare, SingleVote(1, LdrData(p)));
      && tee == 2 && non == 0 && log.votes.Keys == r.log.votes.Keys
      && Entries(log, Slot(Prepare, true, v)) == [SingleVote(0, LdrData(p)), SingleVote(1, LdrData(p))]
  {
    SecondSigner(SingleVote(0, LdrData(p)), SingleVote(1, LdrData(p)));
    hide From, SetInsert, Concat;
    assert Entries(r.log, Slot(Prepare, false, v)) == [];
    NoneConcat();
  }

  lemma CertOfTwo(cfg: Config, log: LogState, p: Proposal)
    requires cfg.TQSize() == 2
    requires Entries(log, Slot(Prepare, true, p.acc.view)) == [SingleVote(0, LdrData(p)), SingleVote(1, LdrData(p))]
    ensures GetSigns(log, Slot(Prepare, true, p.acc.view), cfg.TQSize()) == TheCert(p).signs
  {
    SinglesConcat([SingleVote(0, LdrData(p)), SingleVote(1, LdrData(p))]);
    hide Concat;
  }

  lemma NoneConcat()
    ensures Concat([]) == []
  {
  }

  /** The leader right before it executes. */
  function Deciding(cfg: Config, r: Replica, p: Proposal): Replica {
    var m := SingleVote(1, LdrData(p));
    var log := CountVote(cfg, r.log, Prepare, m).0;
    Issue(r.(inbox := r.inbox + {VoteMsg(Prepare, m)}, log := log, phase := NewView), VoteMsg(Prepare, TheCert(p)))
  }

  lemma Decides(cfg: Config, r: Replica, v: View, p: Proposal)
    requires Scene(cfg) && HasProposal(r, v, p)
    ensures Step(cfg, r, Deliver(VoteMsg(Prepare, SingleVote(1, LdrData(p)))))
      == ExecuteComb(cfg, Deciding(cfg, r, p), LdrData(p))
  {
    CertHolds(cfg, p);
    Counts(cfg, r, v, p);
    hide HandleLdrPrepare, HandleNewView, HandlePreCommit, HandleCommit, StartNewView, StoreFuture, RespondToPrepare;
    hide AdvanceComb, ExecuteComb, CountVote, ValidVote, ValidQC, LogCert;
    var m := SingleVote(1, LdrData(p));
    var r0 := r.(inbox := r.inbox + {VoteMsg(Prepare, m)});
    var r1 := r0.(log := CountVote(cfg, r.log, Prepare, m).0, phase := NewView);
    LogOnly(cfg, r.(log := r1.log), r1, LdrData(p));
    assert HandlePrepare(cfg, r0, m) == DecideComb(cfg, r1, LdrData(p), true);
  }

  lemma LogOnly(cfg: Config, r: Replica, r1: Replica, data: RData)
    requires r1.log == r.log
    ensures LogCert(cfg, r1, Prepare, data, true) == LogCert(cfg, r, Prepare, data, true)
  {
  }

  /** Executing under no stop starts the next view. */
  lemma Executes(cfg: Config, r: Replica, d: RData)
    requires Scene(cfg) && d.propv !in r.processedCommit && d.propv in r.blocks
    requires BlockHash(r.blocks[d.propv]) == d.proph
    ensures ExecuteComb(cfg, r, d) == StartNewView(cfg, CatchUp.Executed(r, d))
  {
    hide StartNewView;
  }

  /** Entering the next view: the state with the new-view sent. */
  lemma Enters(cfg: Config, r: Replica, v: View) returns (r3: Replica, m: Vote)
    requires r.view == v && Lockstep(r.t, v)
    ensures r3 == r.(t := r3.t, signed := r3.signed, view := v + 1, issued := r.issued + {VoteMsg(NewView, m)})
    ensures r3.t.view == v + 1 && r3.t.phase == Prepare && IsNv(m, r.id, v + 1)
    ensures var (t, ds, w) := SignPast(r.t, r.id, v);
      m == w && r3 == Issue(r.(t := t, signed := r.signed + ds, view := v + 1), VoteMsg(NewView, w))
  {
    SignPastLaw(r.t, r.id, v);
    hide SignPast;
    var (t, ds, w) := SignPast(r.t, r.id, v);
    m := w;
    r3 := Issue(r.(t := t, signed := r.signed + ds, view := v + 1), VoteMsg(NewView, w));
  }

  lemma LeaderEnters(cfg: Config, r: Replica, v: View)
    requires Scene(cfg) && r.id == 0 && r.started && r.view == v && r.phase == NewView && Lockstep(r.t, v)
    requires forall x :: x in r.processedNewViews || x in r.processedCommit ==> x <= v
    requires forall slot :: slot in r.log.votes ==> slot.view <= v
    ensures var r' := StartNewView(cfg, r); LeaderAt(r', v + 1) && r'.executed == r.executed && r.issued <= r'.issued
  {
    var r3, m := Enters(cfg, r, v);
    NoneYet(cfg, r3, v);
    OwnFirst(cfg, r3, v, m);
    hide SignPast, NewViewThreshold, PrepareComb, HandleNewView, Lockstep, LeaderAt, Scene;
    assert HandleEarlier(cfg, r3) == r3;
  }

  lemma NoneYet(cfg: Config, r: Replica, v: View)
    requires Scene(cfg) && forall slot :: slot in r.log.votes ==> slot.view <= v
    ensures !NewViewThreshold(cfg, r.log, v + 1) && Leads(cfg, r, r.view) == (r.id == 0) && cfg.maxSigs > 0
  {
  }

  lemma OwnFirst(cfg: Config, r: Replica, v: View, m: Vote)
    requires Scene(cfg) && r.id == 0 && r.started && r.view == v + 1 && r.phase == NewView && IsNv(m, 0, v + 1)
    requires r.t.view == v + 1 && r.t.phase == Prepare
    requires forall x :: x in r.processedNewViews || x in r.processedCommit ==> x <= v
    requires forall slot :: slot in r.log.votes ==> slot.view <= v
    ensures var r' := HandleNewView(cfg, r, m);
      LeaderAt(r', v + 1) && r'.executed == r.executed && r'.issued == r.issued
  {
    assert ValidVote(cfg, NewView, m) && cfg.IsTEE(0);
    var r1 := LogVote(r, NewView, true, m);
    assert r1.log.votes == r.log.votes[Slot(NewView, true, v + 1) := [m]];
    assert !NewViewThreshold(cfg, r1.log, v + 1);
    hide PrepareComb, ValidVote, NewViewThreshold;
    assert HandleNewView(cfg, r, m) == r1;
  }

  lemma BackupEnters(cfg: Config, r: Replica, v: View)
    requires Scene(cfg) && r.id == 1 && r.started && r.view == v && Lockstep(r.t, v)
    requires forall x :: x in r.blocks || x in r.processedCommit ==> x <= v
    requires r.log.proposals == map[]
    ensures var r' := StartNewView(cfg, r); BackupAt(r', v + 1) && r'.executed == r.executed
  {
    var r3, m := Enters(cfg, r, v);
    hide SignPast, NewViewThreshold, PrepareComb, HandleNewView, Lockstep, ReplayCertificates;
    assert ReplayProposal(cfg, r3) == r3;
    assert HandleEarlier(cfg, r3) == r3;
  }

  /** With replica 1's vote the leader decides and enters the next view. */
  lemma LeaderDecides(cfg: Config, r: Replica, v: View, p: Proposal)
    requires Scene(cfg) && HasProposal(r, v, p) && Lockstep(r.t, v)
    ensures var r' := Step(cfg, r, Deliver(VoteMsg(Prepare, SingleVote(1, LdrData(p)))));
      && LeaderAt(r', v + 1) && r'.executed == r.executed + [LdrData(p)] && VoteMsg(Prepare, TheCert(p)) in r'.issued
  {
    var r1 := Deciding(cfg, r, p);
    Decides(cfg, r, v, p);
    ReadyToEnter(cfg, r, v, p);
    hide Step, CountVote, ExecuteComb, StartNewView, LeaderAt, Lockstep, Deciding, HasProposal, Scene;
    Executes(cfg, r1, LdrData(p));
    LeaderEnters(cfg, CatchUp.Executed(r1, LdrData(p)), v);
  }

  lemma ReadyToEnter(cfg: Config, r: Replica, v: View, p: Proposal)
    requires Scene(cfg) && HasProposal(r, v, p)
    ensures var d := LdrData(p); var r1 := Deciding(cfg, r, p); var r2 := CatchUp.Executed(r1, d);
      && d.propv !in r1.processedCommit && d.propv in r1.blocks && BlockHash(r1.blocks[d.propv]) == d.proph
      && r2.id == 0 && r2.started && r2.view == v && r2.phase == NewView && r2.t == r.t
      && (forall x :: x in r2.processedNewViews || x in r2.processedCommit ==> x <= v)
      && (forall slot :: slot in r2.log.votes ==> slot.view <= v)
      && r2.executed == r.executed + [d] && VoteMsg(Prepare, TheCert(p)) in r2.issued
  {
    hide CountVote, Scene, LogCert, TheCert;
    Counts(cfg, r, v, p);
  }

  /** With the certificate replica 1 decides too. */
  lemma BackupDecides(cfg: Config, r: Replica, v: View, p: Proposal)
    requires Scene(cfg) && HasVoted(r, v, p) && p.acc.view == v && Lockstep(r.t, v)
    ensures var r' := Step(cfg, r, Deliver(VoteMsg(Prepare, TheCert(p))));
      BackupAt(r', v + 1) && r'.executed == r.executed + [LdrData(p)]
  {
    CertHolds(cfg, p);
    var r0 := r.(inbox := r.inbox + {VoteMsg(Prepare, TheCert(p))});
    var r2 := CatchUp.Executed(r0, LdrData(p));
    BackupHandles(cfg, r, v, p);
    hide Step, ExecuteComb, StartNewView, BackupAt, ValidQC, ValidVote, Lockstep;
    Executes(cfg, r0, LdrData(p));
    BackupEnters(cfg, r2, v);
  }

  lemma BackupHandles(cfg: Config, r: Replica, v: View, p: Proposal)
    requires Scene(cfg) && HasVoted(r, v, p) && p.acc.view == v && ValidQC(cfg, Prepare, TheCert(p))
    ensures Step(cfg, r, Deliver(VoteMsg(Prepare, TheCert(p))))
         == ExecuteComb(cfg, r.(inbox := r.inbox + {VoteMsg(Prepare, TheCert(p))}), LdrData(p))
  {
    assert cfg.IsTEE(0);
    hide HandleLdrPrepare, HandleNewView, HandlePreCommit, HandleCommit, StartNewView, StoreFuture, StoreAndSend;
    hide AdvanceComb, DecideComb, ExecuteComb, CountVote, ValidVote, ValidQC, LogCert;
  }

  // ---- the runs

  lemma Held(cfg: Config, sys: System.State, q: PID)
    requires Scene(cfg) && System.Reachable(cfg, sys) && q in sys && sys[q].started
    ensures System.Good(cfg, sys) && Lockstep(sys[q].t, sys[q].view)
  {
    hide System.Reachable, System.Good, R.Inv;
    System.ReachableGood(cfg, sys);
    System.GoodAt(cfg, sys, q);
    CatchUp.InvFacts(cfg, sys[q]);
  }

  lemma SentBy(sys: System.State, q: PID, m: Msg)
    requires q in sys && m in sys[q].issued
    ensures System.WasSent(sys, m)
  {
  }

  /** In view v: the leader proposes ... */
  lemma ToProposal(cfg: Config, sys: System.State, v: View) returns (sys': System.State, p: Proposal)
    requires Scene(cfg) && RoundAt(cfg, sys, v)
    ensures System.Reachable(cfg, sys') && 0 in sys' && 1 in sys' && sys' == sys[0 := sys'[0]]
    ensures sys'[0].executed == sys[0].executed
    ensures HasProposal(sys'[0], v, p) && p.acc.view == v && System.WasSent(sys', LdrMsg(p))
  {
    var m :| IsNv(m, 1, v) && VoteMsg(NewView, m) in sys[1].issued;
    SentBy(sys, 1, VoteMsg(NewView, m));
    Held(cfg, sys, 0);
    hide Scene, System.Reachable, System.Good, System.WasSent, Step, LeaderAt, BackupAt, IsNv, Lockstep;
    p := Proposes(cfg, sys, v, m);
    sys' := System.Next(cfg, sys, 0, Deliver(VoteMsg(NewView, m)));
    SentBy(sys', 0, LdrMsg(p));
  }

  /** ... and replica 1 votes. */
  lemma ToVote(cfg: Config, sys: System.State, v: View) returns (sys': System.State, p: Proposal)
    requires Scene(cfg) && RoundAt(cfg, sys, v)
    ensures System.Reachable(cfg, sys') && 0 in sys' && 1 in sys'
    ensures HasProposal(sys'[0], v, p) && HasVoted(sys'[1], v, p)
    ensures sys'[0].executed == sys[0].executed && sys'[1].executed == sys[1].executed
  {
    hide Scene, System.Reachable, System.Good, System.WasSent, Step, LeaderAt, BackupAt, HasVoted, HasProposal;
    var sys1;
    sys1, p := ToProposal(cfg, sys, v);
    Voter(cfg, sys1, v);
    Votes(cfg, sys1, v, p);
    sys' := System.Next(cfg, sys1, 1, Deliver(LdrMsg(p)));
  }

  lemma Voter(cfg: Config, sys: System.State, v: View)
    requires Scene(cfg) && System.Reachable(cfg, sys) && 1 in sys && BackupAt(sys[1], v)
    ensures System.Good(cfg, sys) && cfg.maxSigs > 0
  {
    Held(cfg, sys, 1);
  }

  /** And both decide, which leads to the same situation in the next view. */
  lemma NextRound(cfg: Config, sys: System.State, v: View) returns (sys': System.State)
    requires Scene(cfg) && RoundAt(cfg, sys, v)
    ensures RoundAt(cfg, sys', v + 1)
  {
    hide System.Reachable, System.Good, System.WasSent, Step, LeaderAt, BackupAt, HasVoted, HasProposal, Lockstep;
    hide TheCert, DecidedUpTo;
    var sys1, p := ToVote(cfg, sys, v);
    var d := LdrData(p);
    RoundFacts(sys1[0], sys1[1], v, p);
    Held(cfg, sys1, 0);
    Held(cfg, sys1, 1);
    SentBy(sys1, 1, VoteMsg(Prepare, SingleVote(1, d)));
    LeaderDecides(cfg, sys1[0], v, p);
    BackupDecides(cfg, sys1[1], v, p);
    hide Scene;
    var sys2 := System.Next(cfg, sys1, 0, Deliver(VoteMsg(Prepare, SingleVote(1, d))));
    SentBy(sys2, 0, VoteMsg(Prepare, TheCert(p)));
    sys' := System.Next(cfg, sys2, 1, Deliver(VoteMsg(Prepare, TheCert(p))));
    OneMore(sys[0], sys'[0], v, d);
    OneMore(sys[1], sys'[1], v, d);
  }

  lemma RoundFacts(leader: Replica, backup: Replica, v: View, p: Proposal)
    requires HasProposal(leader, v, p) && HasVoted(backup, v, p)
    ensures leader.started && leader.view == v && backup.started && backup.view == v && p.acc.view == v
    ensures VoteMsg(Prepare, SingleVote(1, LdrData(p))) in backup.issued
  {
  }

  lemma OneMore(r: Replica, r': Replica, v: View, d: RData)
    requires DecidedUpTo(r, v) && r'.executed == r.executed + [d] && d.propv == v
    ensures DecidedUpTo(r', v + 1)
  {
    forall u | 1 <= u < v + 1 ensures Decided(r', u) {
      if u < v {
        assert Decided(r, u);
        var e :| e in r.executed && e.propv == u;
        assert e in r'.executed;
      } else {
        assert d in r'.executed;
      }
    }
  }

  lemma FirstRound(cfg: Config) returns (sys: System.State)
    requires Scene(cfg)
    ensures RoundAt(cfg, sys, 1)
  {
    hide System.Reachable, System.WasSent, Step, LeaderAt, BackupAt;
    var s0 := System.InitialSystem(cfg);
    System.ReachableInitially(cfg);
    LeaderStarts(cfg);
    BackupStarts(cfg);
    var s1 := System.Next(cfg, s0, 0, Start);
    sys := System.Next(cfg, s1, 1, Start);
  }

  lemma LeaderStarts(cfg: Config)
    requires Scene(cfg)
    ensures LeaderAt(Step(cfg, InitialReplica(0), Start), 1)
  {
    hide HandleNewView, HandleMsg, StartNewView, LeaderAt, Step;
    Begins(cfg, 0, []);
    OwnFirst(cfg, Begun(0), 0, SingleVote(0, FIRST_ROUND));
  }

  lemma BackupStarts(cfg: Config)
    requires Scene(cfg)
    ensures BackupAt(Step(cfg, InitialReplica(1), Start), 1)
  {
    hide HandleNewView, HandleMsg, StartNewView, Step;
    Begins(cfg, 1, []);
    assert IsNv(SingleVote(1, FIRST_ROUND), 1, 1);
  }

  lemma {:induction false} ManyRounds(cfg: Config, n: nat) returns (sys: System.State)
    requires Scene(cfg)
    ensures RoundAt(cfg, sys, n + 1)
  {
    hide Scene, RoundAt;
    if n == 0 {
      sys := FirstRound(cfg);
    } else {
      sys := ManyRounds(cfg, n - 1);
      sys := NextRound(cfg, sys, n);
    }
  }

  /** For every n there is a run in which two replicas have decided in each of the views 1 to n. */
  lemma RunsDecide(n: nat) returns (cfg: Config, sys: System.State)
    ensures cfg.Valid() && System.Reachable(cfg, sys) && 0 in sys && 1 in sys
    ensures forall u :: 1 <= u <= n ==> Decided(sys[0], u) && Decided(sys[1], u)
  {
    hide TheConfig, System.Reachable, LeaderAt, BackupAt, Decided;
    cfg := TheConfig();
    TheScene();
    sys := ManyRounds(cfg, n);
  }

  /** A run of honest replicas in which a proposal that is delivered a second time is answered out of phase. */
  lemma SecondDelivery() returns (cfg: Config, sys: System.State, p: Proposal)
    ensures cfg.Valid() && System.Reachable(cfg, sys) && 1 in sys && sys[1].started
    ensures System.WasSent(sys, LdrMsg(p))
    ensures !CatchUp.NewVotesInPhase(sys[1], Step(cfg, sys[1], Deliver(LdrMsg(p))))
  {
    hide TheConfig;
    cfg := TheConfig();
    TheScene();
    var sys0 := FirstRound(cfg);
    var sys1;
    sys1, p := ToProposal(cfg, sys0, 1);
    sys := System.Next(cfg, sys1, 1, Deliver(LdrMsg(p)));
    hide System.Reachable, Scene, Step, HasProposal;
    Twice(cfg, sys1, 1, p);
    assert 0 in sys && LdrMsg(p) in sys[0].issued by { ProposalIssued(sys1[0], 1, p); }
    SentBy(sys, 0, LdrMsg(p));
  }

  lemma ProposalIssued(r: Replica, v: View, p: Proposal)
    requires HasProposal(r, v, p)
    ensures LdrMsg(p) in r.issued
  {
  }

  lemma Twice(cfg: Config, sys: System.State, v: View, p: Proposal)
    requires Scene(cfg) && System.Reachable(cfg, sys) && 1 in sys && BackupAt(sys[1], v) && p.acc.view == v
    requires System.WasSent(sys, LdrMsg(p))
    ensures var r' := Step(cfg, sys[1], Deliver(LdrMsg(p)));
      r'.started && !CatchUp.NewVotesInPhase(r', Step(cfg, r', Deliver(LdrMsg(p))))
  {
    Voter(cfg, sys, v);
    hide System.Reachable, System.Good, System.WasSent;
    BackupAccepts(cfg, sys, 1, p);
    CatchUp.VotesPastInRun(cfg, sys, 1);
    Votes(cfg, sys, v, p);
    var r0 := sys[1].(inbox := sys[1].inbox + {LdrMsg(p)});
    assert R.Abs(r0).issued == sys[1].issued;
    AnswersOnce(cfg, r0, p);
    hide CatchUp.VotesPast, VerifyLdrPrepare, TeePrepare;
    PhaseOrder.RepeatedProposal(cfg, r0, p);
    Redelivered(cfg, sys[1], p);
  }

  lemma AnswersOnce(cfg: Config, r: Replica, p: Proposal)
    requires Scene(cfg) && r.id == 1 && r.view == p.acc.view && VerifyLdrPrepare(cfg, p) && Extends(p.block, p.acc.hash)
    requires p.acc.size == cfg.QSize() || p.acc.size == cfg.TQSize()
    requires TeePrepare(cfg, r.t, 1, p.block, p.acc, p.proof).1.Some?
    ensures PhaseOrder.Answer(cfg, r, LdrMsg(p)) == Some(Prepare)
  {
    hide VerifyLdrPrepare, TeePrepare;
  }

  /** The second delivery finds the message received already. */
  lemma Redelivered(cfg: Config, r: Replica, p: Proposal)
    requires cfg.maxSigs > 0 && r.started
    ensures var r0 := r.(inbox := r.inbox + {LdrMsg(p)}); var r1 := HandleLdrPrepare(cfg, r0, p);
      Step(cfg, r, Deliver(LdrMsg(p))) == r1 && r1.started
          && Step(cfg, r1, Deliver(LdrMsg(p))) == HandleLdrPrepare(cfg, r1, p)
  {
    hide VerifyLdrPrepare, TeePrepare, StoreProposal;
    hide HandleNewView, HandlePrepare, HandlePreCommit, HandleCommit, StartNewView;
    var r1 := HandleLdrPrepare(cfg, r.(inbox := r.inbox + {LdrMsg(p)}), p);
    assert r1.inbox == r1.inbox + {LdrMsg(p)};
    assert r1 == r1.(inbox := r1.inbox + {LdrMsg(p)});
  }
}
