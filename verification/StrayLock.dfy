/** A reachable run in which catching up signs out of phase.  One host of a trusted component is faulty: it
    leads every view and drives its component through the same proposal twice, so that a PREPARE and a
    PRE-COMMIT signature on the block exist; an honest replica that receives the proposal twice does the same.
    A third replica that is still in view 1 receives both certificates early, and is about to stop. */
module StrayLock {
  import opened Types
  import opened Certificates
  import opened TrustedMachine
  import opened Accumulators
  import opened VoteLog
  import opened Replicas
  import opened Refinement
  import opened CatchUp
  import System
  import B = Byzantine
  import Runs = ByzantineRuns
  import L = LeaderRoundTrip
  import W = Witnesses

  // ---- the scene

  /** Four replicas, three of them trusted; replica 0 leads, and a replica stops after one view. */
  function TheConfig(): Config {
    Config(1, map[0 := true, 1 := true, 2 := true, 3 := false], 3, 0, 1, true, 0)
  }

  const HONEST: set<PID> := {1, 2, 3}

  ghost predicate Scene(cfg: Config) {
    && cfg.Valid() && cfg.TQSize() == 2 && cfg.maxSigs == 3 && cfg.maxViews == 1
    && cfg.nodes.Keys == {0, 1, 2, 3} && cfg.TeeNodes() == {0, 1, 2}
    && cfg.f == 1 && (forall v :: cfg.LeaderOf(v) == 0)
  }

  lemma TheScene()
    ensures Scene(TheConfig())
  {
    W.RangeFour();
    assert TheConfig().TeeNodes() == {0, 1, 2};
  }

  lemma TheSetting(cfg: Config)
    requires Scene(cfg)
    ensures B.Setting(cfg, HONEST) && B.FewFaulty(cfg, HONEST)
    ensures cfg.TeeNodes() - HONEST == {0}
  {
    assert cfg.nodes.Keys - HONEST == {0};
    assert cfg.nodes.Keys - HONEST - cfg.TeeNodes() == {};
  }

  const NV := RData(NO_HASH, 2, NEW_HASH, 0, NewView)
  const BLOCK := Block(0, true, NEW_HASH, [])
  const ACC := SignedAccum(0, 2, 0, NEW_HASH, 2)
  const PROOF := [OneJust(true, NV, Sign(true, 0, RoundText(NV))), OneJust(true, NV, Sign(true, 2, RoundText(NV)))]

  /** The round signed for the block in phase ph. */
  function Round(ph: Phase): RData { RData(BlockHash(BLOCK), 2, NEW_HASH, 0, ph) }

  function TheProposal(): Proposal { Proposal(ACC, BLOCK, PROOF, Sign(true, 0, RoundText(Round(Prepare)))) }

  function TheCert(ph: Phase): Vote {
    Vote(Round(ph), [Sign(true, 0, RoundText(Round(ph))), Sign(true, 2, RoundText(Round(ph)))])
  }

  lemma ProofHolds(cfg: Config)
    requires Scene(cfg)
    ensures ValidProof(cfg, 2, PROOF) && Summarises(ACC, 2, PROOF)
  {
    assert PROOF[0].rdata == NV && PROOF[1].rdata == NV;
    HighestOfSame(PROOF, NV);
    var signs := EntrySigns(PROOF);
    assert signs[0].signer == 0 && signs[1].signer == 2;
    forall i | 0 <= i < |PROOF| ensures EntryOk(cfg, 2, PROOF[i]) {
      assert i == 0 || i == 1;
    }
  }

  lemma CertHolds(cfg: Config, ph: Phase)
    requires Scene(cfg)
    ensures ValidQC(cfg, ph, TheCert(ph))
  {
    var signs := TheCert(ph).signs;
    assert signs[0].signer == 0 && signs[1].signer == 2;
  }

  /** Every trusted component in view 2 that is not locked accepts the proposal, in whatever phase. */
  lemma Accepts(cfg: Config, t: Trusted, id: PID)
    requires Scene(cfg) && t.view == 2 && t.lockh == NEW_HASH && t.lockv == 0
    ensures TeePrepare(cfg, t, id, BLOCK, ACC, PROOF)
         == (Increment(t.(preph := BlockHash(BLOCK), prepv := 2)), Some(SingleVote(id, Round(t.phase))))
  {
    ProofHolds(cfg);
    hide ValidProof, Summarises;
    L.AcceptsProposal(cfg, t, id, BLOCK, ACC, PROOF);
    AcceptedProposal(cfg, t, id, BLOCK, ACC, PROOF);
  }

  // ---- the replicas

  lemma Starts(cfg: Config, q: PID)
    requires Scene(cfg) && q != 0
    ensures Step(cfg, InitialReplica(q), Start) == Begun(q)
  {
    Begins(cfg, q, []);
  }

  /** Ready for the proposal of view 2. */
  predicate InSecond(r: Replica, ph: Phase) {
    r.id == 2 && r.started && r.view == 2 && r.t.view == 2 && r.t.phase == ph && r.t.lockh == NEW_HASH && r.t.lockv == 0
  }

  lemma TimesOut(cfg: Config)
    requires Scene(cfg)
    ensures InSecond(Step(cfg, Begun(2), Timeout), Prepare)
  {
    var r := Begun(2);
    SignPastLaw(r.t, 2, 1);
    hide SignPast;
    var (t, ds, w) := SignPast(r.t, 2, 1);
    var r3 := Issue(r.(t := t, signed := r.signed + ds, view := 2), VoteMsg(NewView, w));
    NothingEarlier(cfg, r3);
    assert !Leads(cfg, r3, r3.view);
    hide HandleNewView, HandleEarlier, Leads, Scene;
  }

  lemma NothingEarlier(cfg: Config, r: Replica)
    requires Scene(cfg) && r.id == 2 && r.blocks == map[] && r.log == EMPTY_LOG
    ensures HandleEarlier(cfg, r) == r
  {
    assert ReplayProposal(cfg, r) == r;
    hide PrepareComb, ReplayProposal, ReplayCertificates;
  }

  /** Each time the proposal is delivered it is answered, in the phase the component is in. */
  lemma VotesAgain(cfg: Config, r: Replica, ph: Phase)
    requires Scene(cfg) && InSecond(r, ph) && (ph == Prepare || ph == PreCommit)
    ensures var r' := Step(cfg, r, Deliver(LdrMsg(TheProposal())));
      && InSecond(r', if ph == Prepare then PreCommit else Commit)
      && r'.issued == r.issued + {VoteMsg(Prepare, SingleVote(2, Round(ph)))}
  {
    ProposalPasses(cfg);
    Accepts(cfg, r.t, 2);
    hide TeePrepare, VerifyLdrPrepare, HandleNewView, HandlePrepare, HandlePreCommit, HandleCommit, StartNewView;
    hide StoreProposal;
  }

  lemma ProposalPasses(cfg: Config)
    requires Scene(cfg)
    ensures VerifyLdrPrepare(cfg, TheProposal()) && ACC.size == cfg.TQSize() && Extends(BLOCK, ACC.hash)
  {
    assert [ACC.sign][0] == ACC.sign;
  }

  /** The replica in view 1 with the proposal and both certificates of view 2. */
  function Waiting(inbox: set<Msg>): Replica {
    Begun(3).(inbox := inbox, log := LogState(map[], map[2 := [TheProposal()]]),
                future := map[Future(Prepare, 2) := [TheCert(Prepare)], Future(PreCommit, 2) := [TheCert(PreCommit)]])
  }

  lemma Waits(cfg: Config) returns (inbox: set<Msg>)
    requires Scene(cfg)
    ensures Step(cfg, Step(cfg, Step(cfg, Begun(3), Deliver(LdrMsg(TheProposal()))),
                           Deliver(VoteMsg(Prepare, TheCert(Prepare)))),
                 Deliver(VoteMsg(PreCommit, TheCert(PreCommit)))) == Waiting(inbox)
  {
    var r0 := Begun(3);
    var r1 := r0.(inbox := r0.inbox + {LdrMsg(TheProposal())}, log := LogState(map[], map[2 := [TheProposal()]]));
    StoresProposal(cfg, r0);
    var r2 := r1.(inbox := r1.inbox + {VoteMsg(Prepare, TheCert(Prepare))},
                  future := map[Future(Prepare, 2) := [TheCert(Prepare)]]);
    CachesCert(cfg, r1, Prepare);
    var r3 := r2.(inbox := r2.inbox + {VoteMsg(PreCommit, TheCert(PreCommit))},
                  future := r2.future[Future(PreCommit, 2) := [TheCert(PreCommit)]]);
    CachesCert(cfg, r2, PreCommit);
    inbox := r3.inbox;
    hide Step;
    assert r3 == Waiting(inbox);
  }

  lemma StoresProposal(cfg: Config, r: Replica)
    requires Scene(cfg) && r == Begun(3)
    ensures Step(cfg, r, Deliver(LdrMsg(TheProposal())))
         == r.(inbox := r.inbox + {LdrMsg(TheProposal())}, log := LogState(map[], map[2 := [TheProposal()]]))
  {
    ProposalPasses(cfg);
    hide VerifyLdrPrepare, RespondToLdrPrepare, HandleNewView, HandlePrepare, HandlePreCommit, HandleCommit;
    hide StartNewView;
  }

  lemma CachesCert(cfg: Config, r: Replica, ph: Phase)
    requires Scene(cfg) && (ph == Prepare || ph == PreCommit) && r.started && r.view == 1 && Future(ph, 2) !in r.future
    ensures Step(cfg, r, Deliver(VoteMsg(ph, TheCert(ph))))
         == r.(inbox := r.inbox + {VoteMsg(ph, TheCert(ph))}, future := r.future[Future(ph, 2) := [TheCert(ph)]])
  {
    CertHolds(cfg, ph);
    hide ValidQC, ValidVote, CountVote, HandleLdrPrepare, HandleNewView, HandleCommit, StartNewView, RespondToPrepare;
    hide StoreAndSend, DecideComb, AdvanceComb;
  }

  // ---- the run

  /** Where the two replicas that matter and the faulty host's component are. */
  ghost predicate At(s: Runs.State, a: Replica, b: Replica, c: B.Component) {
    && s.honest.Keys == HONEST && s.comps.Keys == {0}
    && s.honest[2] == a && s.honest[3] == b && s.comps[0] == c
  }

  /** A reachable state with these, in which the faulty host makes a call. */
  lemma Drive(cfg: Config, s: Runs.State, a: Replica, b: Replica, c: B.Component, call: Call) returns (s': Runs.State)
    requires cfg.maxSigs > 0 && Runs.Reachable(cfg, HONEST, s) && At(s, a, b, c)
    ensures Runs.Reachable(cfg, HONEST, s') && At(s', a, b, B.Driven(cfg, 0, c, call))
  {
    hide Runs.Reachable, B.Driven;
    Runs.ReachableNext(cfg, HONEST, s, Runs.Drives(0, call));
    s' := Runs.Happens(cfg, s, Runs.Drives(0, call));
  }

  /** The same with an event at replica 2, or 3. */
  lemma EventAtTwo(cfg: Config, s: Runs.State, a: Replica, b: Replica, c: B.Component, e: Event)
      returns (s': Runs.State)
    requires cfg.maxSigs > 0 && Runs.Reachable(cfg, HONEST, s) && At(s, a, b, c)
    requires e.Deliver? ==> B.Unforged(Runs.World(s), e.msg)
    ensures Runs.Reachable(cfg, HONEST, s') && At(s', Step(cfg, a, e), b, c)
  {
    hide Runs.Reachable, Step, B.Unforged;
    Runs.ReachableNext(cfg, HONEST, s, Runs.Occurs(System.Occurrence(2, e)));
    s' := Runs.Happens(cfg, s, Runs.Occurs(System.Occurrence(2, e)));
  }

  lemma EventAtThree(cfg: Config, s: Runs.State, a: Replica, b: Replica, c: B.Component, e: Event)
      returns (s': Runs.State)
    requires cfg.maxSigs > 0 && Runs.Reachable(cfg, HONEST, s) && At(s, a, b, c)
    requires e.Deliver? ==> B.Unforged(Runs.World(s), e.msg)
    ensures Runs.Reachable(cfg, HONEST, s') && At(s', a, Step(cfg, b, e), c)
  {
    hide Runs.Reachable, Step, B.Unforged;
    Runs.ReachableNext(cfg, HONEST, s, Runs.Occurs(System.Occurrence(3, e)));
    s' := Runs.Happens(cfg, s, Runs.Occurs(System.Occurrence(3, e)));
  }

  lemma ProposalUnforged(s: Runs.State, a: Replica, b: Replica, c: B.Component)
    requires At(s, a, b, c) && Round(Prepare) in c.signed
    ensures B.Unforged(Runs.World(s), LdrMsg(TheProposal()))
  {
  }

  lemma CertUnforged(s: Runs.State, a: Replica, b: Replica, c: B.Component, ph: Phase)
    requires At(s, a, b, c) && Round(ph) in c.signed
    requires a.id == 2 && VoteMsg(Prepare, SingleVote(2, Round(ph))) in a.issued
    ensures B.Unforged(Runs.World(s), VoteMsg(ph, TheCert(ph)))
  {
    var w := Runs.World(s);
    assert w.nodes[2] == Abs(a);
    assert VoteMsg(Prepare, Vote(Round(ph), [Sign(true, w.nodes[2].id, RoundText(Round(ph)))])) in w.nodes[2].issued;
    assert B.Made(w.nodes[2], Round(ph));
  }

  lemma DrivenSigns(cfg: Config, c: B.Component)
    ensures var c' := B.Driven(cfg, 0, c, SignCall);
      && c'.t == Increment(c.t) && StateKey(c'.t) == StateKey(c.t) + 1
      && (forall d :: d in c.signed ==> d in c'.signed)
      && RData(NO_HASH, c.t.view, c.t.preph, c.t.prepv, c.t.phase) in c'.signed
  {
  }

  lemma DrivenProposes(cfg: Config, c: B.Component)
    requires Scene(cfg) && c.t.view == 2 && c.t.lockh == NEW_HASH && c.t.lockv == 0
    ensures var c' := B.Driven(cfg, 0, c, PrepareCall(BLOCK, ACC, PROOF));
      && c'.t == Increment(c.t.(preph := BlockHash(BLOCK), prepv := 2))
      && (forall d :: d in c.signed ==> d in c'.signed) && Round(c.t.phase) in c'.signed
  {
    Accepts(cfg, c.t, 0);
    hide TeePrepare, Scene;
  }

  /** The faulty host: five signatures lead to view 2, two proposals to both signatures on the block. */
  lemma FaultyLeader(cfg: Config, s: Runs.State, a: Replica, b: Replica) returns (s': Runs.State, c: B.Component)
    requires Scene(cfg) && Runs.Reachable(cfg, HONEST, s) && At(s, a, b, B.Component(INITIAL, []))
    ensures Runs.Reachable(cfg, HONEST, s') && At(s', a, b, c)
    ensures NV in c.signed && Round(Prepare) in c.signed && Round(PreCommit) in c.signed
  {
    assert cfg.maxSigs > 0;
    hide At, Runs.Reachable, B.Driven, Scene;
    s', c := SignFive(cfg, s, a, b);
    DrivenProposes(cfg, c);
    s' := Drive(cfg, s', a, b, c, PrepareCall(BLOCK, ACC, PROOF));
    c := B.Driven(cfg, 0, c, PrepareCall(BLOCK, ACC, PROOF));
    DrivenProposes(cfg, c);
    s' := Drive(cfg, s', a, b, c, PrepareCall(BLOCK, ACC, PROOF));
    c := B.Driven(cfg, 0, c, PrepareCall(BLOCK, ACC, PROOF));
  }

  /** The component after n signatures from its start. */
  function AfterSigns(cfg: Config, n: nat): B.Component {
    if n == 0 then B.Component(INITIAL, []) else B.Driven(cfg, 0, AfterSigns(cfg, n - 1), SignCall)
  }

  lemma SignFive(cfg: Config, s: Runs.State, a: Replica, b: Replica) returns (s': Runs.State, c: B.Component)
    requires cfg.maxSigs > 0 && Runs.Reachable(cfg, HONEST, s) && At(s, a, b, B.Component(INITIAL, []))
    ensures Runs.Reachable(cfg, HONEST, s') && At(s', a, b, c)
    ensures c.t == Trusted(2, Prepare, NEW_HASH, 0, NEW_HASH, 0) && NV in c.signed
  {
    s' := SignMany(cfg, s, a, b, 5);
    c := AfterSigns(cfg, 5);
    FiveSigned(cfg);
  }

  /** The phase of a component after k rounds have been signed. */
  function PhaseAfter(k: nat): Phase {
    if k == 0 then NewView else if k == 1 then Prepare else if k == 2 then PreCommit else if k == 3 then Commit
    else if k == 4 then NewView else Prepare
  }

  lemma FiveSigned(cfg: Config)
    ensures var c := AfterSigns(cfg, 5); c.t == Trusted(2, Prepare, NEW_HASH, 0, NEW_HASH, 0) && NV in c.signed
  {
    hide B.Driven;
    for k := 0 to 5
      invariant AfterSigns(cfg, k).t == Trusted(if k < 4 then 1 else 2, PhaseAfter(k), NEW_HASH, 0, NEW_HASH, 0)
      invariant k == 5 ==> NV in AfterSigns(cfg, k).signed
    {
      DrivenSigns(cfg, AfterSigns(cfg, k));
    }
  }

  lemma {:induction false} SignMany(cfg: Config, s: Runs.State, a: Replica, b: Replica, n: nat) returns (s': Runs.State)
    requires cfg.maxSigs > 0 && Runs.Reachable(cfg, HONEST, s) && At(s, a, b, B.Component(INITIAL, []))
    ensures Runs.Reachable(cfg, HONEST, s') && At(s', a, b, AfterSigns(cfg, n))
  {
    hide At, Runs.Reachable, B.Driven;
    if n == 0 {
      s' := s;
    } else {
      s' := SignMany(cfg, s, a, b, n - 1);
      s' := Drive(cfg, s', a, b, AfterSigns(cfg, n - 1), SignCall);
    }
  }

  /** The honest replica that votes twice. */
  lemma DoubleVoter(cfg: Config, s: Runs.State, b: Replica, c: B.Component) returns (s': Runs.State, a: Replica)
    requires Scene(cfg) && Runs.Reachable(cfg, HONEST, s) && At(s, InitialReplica(2), b, c)
    requires Round(Prepare) in c.signed
    ensures Runs.Reachable(cfg, HONEST, s') && At(s', a, b, c) && a.id == 2
    ensures VoteMsg(Prepare, SingleVote(2, Round(Prepare))) in a.issued
    ensures VoteMsg(Prepare, SingleVote(2, Round(PreCommit))) in a.issued
  {
    hide At, Runs.Reachable, Step, B.Unforged;
    var e := Deliver(LdrMsg(TheProposal()));
    s' := EventAtTwo(cfg, s, InitialReplica(2), b, c, Start);
    Starts(cfg, 2);
    s' := EventAtTwo(cfg, s', Begun(2), b, c, Timeout);
    TimesOut(cfg);
    a := Step(cfg, Begun(2), Timeout);
    ProposalUnforged(s', a, b, c);
    s' := EventAtTwo(cfg, s', a, b, c, e);
    VotesAgain(cfg, a, Prepare);
    a := Step(cfg, a, e);
    ProposalUnforged(s', a, b, c);
    s' := EventAtTwo(cfg, s', a, b, c, e);
    VotesAgain(cfg, a, PreCommit);
    a := Step(cfg, a, e);
  }

  /** The replica that receives everything early. */
  lemma EarlyReceiver(cfg: Config, s: Runs.State, a: Replica, c: B.Component) returns (s': Runs.State, inbox: set<Msg>)
    requires Scene(cfg) && Runs.Reachable(cfg, HONEST, s) && At(s, a, InitialReplica(3), c)
    requires Round(Prepare) in c.signed && Round(PreCommit) in c.signed && a.id == 2
    requires VoteMsg(Prepare, SingleVote(2, Round(Prepare))) in a.issued
    requires VoteMsg(Prepare, SingleVote(2, Round(PreCommit))) in a.issued
    ensures Runs.Reachable(cfg, HONEST, s') && At(s', a, Waiting(inbox), c)
  {
    hide At, Runs.Reachable, Step, B.Unforged;
    s' := EventAtThree(cfg, s, a, InitialReplica(3), c, Start);
    Starts(cfg, 3);
    var b := Begun(3);
    ProposalUnforged(s', a, b, c);
    s' := EventAtThree(cfg, s', a, b, c, Deliver(LdrMsg(TheProposal())));
    b := Step(cfg, b, Deliver(LdrMsg(TheProposal())));
    CertUnforged(s', a, b, c, Prepare);
    s' := EventAtThree(cfg, s', a, b, c, Deliver(VoteMsg(Prepare, TheCert(Prepare))));
    b := Step(cfg, b, Deliver(VoteMsg(Prepare, TheCert(Prepare))));
    CertUnforged(s', a, b, c, PreCommit);
    s' := EventAtThree(cfg, s', a, b, c, Deliver(VoteMsg(PreCommit, TheCert(PreCommit))));
    inbox := Waits(cfg);
  }

  lemma TheRun(cfg: Config) returns (s: Runs.State, inbox: set<Msg>)
    requires Scene(cfg)
    ensures Runs.Reachable(cfg, HONEST, s) && 3 in s.honest && s.honest[3] == Waiting(inbox)
  {
    TheSetting(cfg);
    Runs.ReachableInitially(cfg, HONEST);
    s := Runs.InitialState(cfg, HONEST);
    assert At(s, InitialReplica(2), InitialReplica(3), B.Component(INITIAL, []));
    hide Runs.Reachable;
    var c, a;
    s, c := FaultyLeader(cfg, s, InitialReplica(2), InitialReplica(3));
    s, a := DoubleVoter(cfg, s, InitialReplica(3), c);
    s, inbox := EarlyReceiver(cfg, s, a, c);
  }

  // ---- catching up

  /** The waiting replica on the way into view 2: the view entered, and the proposal replayed. */
  function Entering(r: Replica): Replica {
    var (t, ds, w) := SignPast(r.t, r.id, r.view);
    Issue(r.(t := t, signed := r.signed + ds, view := r.view + 1), VoteMsg(NewView, w))
  }

  lemma Enters(inbox: set<Msg>)
    ensures var r := Waiting(inbox);
      Entering(r) == r.(t := Trusted(2, Prepare, NEW_HASH, 0, NEW_HASH, 0), signed := Entering(r).signed, view := 2,
                        issued := r.issued + {VoteMsg(NewView, SingleVote(3, NV))})
  {
    var r := Waiting(inbox);
    SignPastLaw(r.t, 3, 1);
    hide SignPast;
  }

  /** The state right before the cached certificates are replayed. */
  function Replaying(cfg: Config, inbox: set<Msg>): Replica {
    ReplayProposal(cfg, Entering(Waiting(inbox)))
  }

  lemma ReplayingIs(cfg: Config, inbox: set<Msg>)
    requires Scene(cfg)
    ensures var r3 := Entering(Waiting(inbox)); var x := Replaying(cfg, inbox);
      && x == r3.(t := Trusted(2, PreCommit, BlockHash(BLOCK), 2, NEW_HASH, 0), signed := x.signed,
                  blocks := map[2 := BLOCK],
                  issued := r3.issued + {VoteMsg(Prepare, SingleVote(3, Round(Prepare)))})
  {
    var r3 := Entering(Waiting(inbox));
    Enters(inbox);
    Accepts(cfg, r3.t, 3);
    hide TeePrepare, Entering;
  }

  lemma ReplayingKeepsInv(cfg: Config, inbox: set<Msg>)
    requires Scene(cfg) && Inv(cfg, Waiting(inbox))
    ensures Inv(cfg, Replaying(cfg, inbox))
  {
    EnterRefines(cfg, Waiting(inbox));
    Enters(inbox);
    hide Inv, SignPast, ReplayProposal;
    ReplayProposalRefines(cfg, Entering(Waiting(inbox)));
  }

  lemma TimeoutReplays(cfg: Config, inbox: set<Msg>)
    requires Scene(cfg)
    ensures StartNewView(cfg, Waiting(inbox)) == ReplayCertificates(cfg, Replaying(cfg, inbox), BlockHash(BLOCK))
  {
    var r := Waiting(inbox);
    var r3 := Entering(r);
    var x := Replaying(cfg, inbox);
    SignPastLaw(r.t, 3, 1);
    Enters(inbox);
    ReplayingIs(cfg, inbox);
    hide SignPast, ReplayCertificates, ReplayProposal, HandleNewView, PrepareComb, NewViewThreshold;
    assert HandleEarlier(cfg, r3) == ReplayCertificates(cfg, x, BlockHash(BLOCK));
  }

  /** It meets all requirements of `StoppingInPhase` and has both certificates cached. */
  lemma BothCached(cfg: Config, inbox: set<Msg>)
    requires Scene(cfg)
    ensures var x := Replaying(cfg, inbox); var hash := BlockHash(BLOCK);
      && Voted(x, hash) && TeeLed(cfg, x.view) && VotesPast(x)
      && TimeToStop(cfg, x.(processedCommit := x.processedCommit + {x.view}))
      && CachedFor(x, Prepare, hash) && CachedFor(x, PreCommit, hash)
      && Waiting(inbox).issued <= x.issued
  {
    ReplayingFields(cfg, inbox);
    OwnVotesPast(cfg, inbox);
    hide Replaying, Waiting, VotesPast, BlockHash;
    CachedBoth(cfg, Replaying(cfg, inbox));
  }

  lemma CachedBoth(cfg: Config, x: Replica)
    requires Scene(cfg) && x.view == 2 && x.t.view == 2 && x.t.phase == PreCommit && x.blocks == map[2 := BLOCK]
    requires x.future == map[Future(Prepare, 2) := [TheCert(Prepare)], Future(PreCommit, 2) := [TheCert(PreCommit)]]
    requires x.processedCommit == {}
    ensures Voted(x, BlockHash(BLOCK)) && TeeLed(cfg, 2)
    ensures CachedFor(x, Prepare, BlockHash(BLOCK)) && CachedFor(x, PreCommit, BlockHash(BLOCK))
    ensures TimeToStop(cfg, x.(processedCommit := x.processedCommit + {x.view}))
  {
    assert x.processedCommit + {2} == {2};
    assert x.future[Future(Prepare, 2)][0] == TheCert(Prepare);
    assert x.future[Future(PreCommit, 2)][0] == TheCert(PreCommit);
  }

  lemma ReplayingFields(cfg: Config, inbox: set<Msg>)
    requires Scene(cfg)
    ensures var x := Replaying(cfg, inbox);
      && x.view == 2 && x.t.view == 2 && x.t.phase == PreCommit && x.blocks == map[2 := BLOCK]
           && x.processedCommit == {}
      && x.future == map[Future(Prepare, 2) := [TheCert(Prepare)], Future(PreCommit, 2) := [TheCert(PreCommit)]]
      && Waiting(inbox).issued <= x.issued
  {
    Enters(inbox);
    ReplayingIs(cfg, inbox);
    hide Replaying, Entering, Scene, TheCert;
  }

  lemma OwnVotesPast(cfg: Config, inbox: set<Msg>)
    requires Scene(cfg)
    ensures VotesPast(Replaying(cfg, inbox))
  {
    Enters(inbox);
    ReplayingIs(cfg, inbox);
    hide Replaying, Entering, Scene, BlockHash;
    ThreeVotesPast(Replaying(cfg, inbox));
  }

  lemma ThreeVotesPast(x: Replica)
    requires x.id == 3 && x.t.view == 2 && x.t.phase == PreCommit
    requires x.issued == Waiting({}).issued + {VoteMsg(NewView, SingleVote(3, NV))}
                         + {VoteMsg(Prepare, SingleVote(3, Round(Prepare)))}
    ensures VotesPast(x)
  {
    var d := FIRST_ROUND;
    forall tag, v | VoteMsg(tag, v) in x.issued ensures RoundKey(v.data) < StateKey(x.t) {
      assert v.data == d || v.data == NV || v.data == Round(Prepare);
    }
  }

  lemma TimeoutOutOfPhase(cfg: Config, inbox: set<Msg>)
    requires Scene(cfg) && Inv(cfg, Waiting(inbox))
    ensures !NewVotesInPhase(Waiting(inbox), StartNewView(cfg, Waiting(inbox)))
  {
    ReplayingKeepsInv(cfg, inbox);
    TimeoutReplays(cfg, inbox);
    BothCached(cfg, inbox);
    hide Inv, Scene, Waiting, Replaying, StartNewView, ReplayCertificates, Voted, TimeToStop, VotesPast, CachedFor;
    StoppingInPhase(cfg, Replaying(cfg, inbox), BlockHash(BLOCK));
  }

  /** In a reachable state with one faulty host, an honest replica that times out answers a PRE-COMMIT
      certificate with a COMMIT message that carries a PRE-COMMIT signature. */
  lemma CatchUpOutOfPhase() returns (cfg: Config, s: Runs.State)
    ensures cfg.Valid() && B.Setting(cfg, HONEST) && B.FewFaulty(cfg, HONEST)
    ensures Runs.Reachable(cfg, HONEST, s) && 3 in s.honest && s.honest[3].started
    ensures !NewVotesInPhase(s.honest[3], Step(cfg, s.honest[3], Timeout))
  {
    hide TheConfig, Runs.Reachable, StartNewView, NewVotesInPhase, Inv, B.Setting, B.FewFaulty, HandleMsg, GetStarted;
    cfg := TheConfig();
    TheScene();
    TheSetting(cfg);
    var inbox;
    s, inbox := TheRun(cfg);
    WaitingHolds(cfg, s, inbox);
    TimeoutOutOfPhase(cfg, inbox);
  }

  lemma WaitingHolds(cfg: Config, s: Runs.State, inbox: set<Msg>)
    requires Scene(cfg) && B.Setting(cfg, HONEST) && Runs.Reachable(cfg, HONEST, s)
    requires 3 in s.honest && s.honest[3] == Waiting(inbox)
    ensures Inv(cfg, Waiting(inbox))
  {
    hide Runs.Reachable, Inv, B.Inv;
    Runs.ReachableGood(cfg, HONEST, s);
    Runs.GoodReplica(cfg, s, 3);
  }
}
