/** A run in which the leader's accumulator does not summarise its own proof: one faulty replica without
    trusted hardware sends a new-view whose claimed hash is not marked as set. */
module FlagWitness {
  import opened Types
  import opened Certificates
  import opened TrustedMachine
  import opened VoteLog
  import opened Replicas
  import opened LeaderRoundTrip
  import opened Witnesses
  import B = Byzantine
  import Runs = ByzantineRuns
  import System

  /** Four replicas, 0 and 1 trusted; 0 leads every view. */
  function FourReplicas(): Config {
    Config(1, map[0 := true, 1 := true, 2 := false, 3 := false], 3, 0, 0, true, 0)
  }

  /** What matters of this configuration. */
  ghost predicate Four(cfg: Config) {
    && cfg.Valid() && cfg.TQSize() == 2 && cfg.QSize() == cfg.maxSigs == 3 && cfg.f == 1
    && cfg.nodes.Keys == {0, 1, 2, 3} && cfg.TeeNodes() == {0, 1}
    && (forall v :: cfg.LeaderOf(v) == 0)
  }

  lemma FourIs()
    ensures Four(FourReplicas())
  {
    RangeFour();
    assert FourReplicas().TeeNodes() == {0, 1};
    forall v ensures FourReplicas().LeaderOf(v) == 0 { FourLeads(v); }
  }

  lemma FourLeads(v: View)
    ensures FourReplicas().LeaderOf(v) == 0
  {
  }

  /** All but replica 3, which has no trusted hardware. */
  const HONEST: set<PID> := {0, 1, 2}

  lemma FourSetting(cfg: Config)
    requires Four(cfg)
    ensures B.Setting(cfg, HONEST) && B.FewFaulty(cfg, HONEST) && cfg.TeeNodes() - HONEST == {}
  {
    assert cfg.nodes.Keys - HONEST == {3} && cfg.nodes.Keys - HONEST - cfg.TeeNodes() == {3};
  }

  /** The claim that every honest replica makes in view 1, and the faulty one's, whose hash is not marked as
      set. */
  const CLAIM := FIRST_ROUND
  const UNSET_CLAIM := RData(NO_HASH, 1, NO_HASH, 0, NewView)

  function HandedOver(): seq<Vote> { [SingleVote(0, CLAIM), SingleVote(2, CLAIM), SingleVote(3, UNSET_CLAIM)] }

  lemma HandedOverQuorum(cfg: Config)
    requires Four(cfg)
    ensures NvQuorum(cfg, 1, HandedOver()) && AllSame(HandedOver()) && !Identical(HandedOver())
  {
    var nvs := HandedOver();
    assert nvs[2].data != nvs[0].data;
  }

  /** The leader that has logged its own new-view and replica 2's. */
  predicate Gathering(r: Replica, non: seq<Vote>) {
    && r.id == 0 && r.started && r.view == 1 && r.phase == NewView && r.processedNewViews == {}
    && r.t == INITIAL.(phase := Prepare)
    && r.log.votes == (if non == [] then map[Slot(NewView, true, 1) := [SingleVote(0, CLAIM)]]
                       else map[Slot(NewView, true, 1) := [SingleVote(0, CLAIM)], Slot(NewView, false, 1) := non])
  }

  lemma LeaderStarts(cfg: Config)
    requires Four(cfg)
    ensures Gathering(Step(cfg, InitialReplica(0), Start), [])
  {
    hide HandleNewView, HandleMsg, StartNewView, Step;
    Begins(cfg, 0, []);
    FirstOwn(cfg, Begun(0));
  }

  lemma FirstOwn(cfg: Config, r: Replica)
    requires Four(cfg) && r.log == EMPTY_LOG
    requires r == Begun(0)
    ensures Gathering(HandleNewView(cfg, r, SingleVote(0, CLAIM)), [])
  {
    hide PrepareComb;
    assert cfg.IsTEE(0);
    var r1 := LogVote(r, NewView, true, SingleVote(0, CLAIM));
    assert r1.log.votes == map[Slot(NewView, true, 1) := [SingleVote(0, CLAIM)]];
    assert !NewViewThreshold(cfg, r1.log, 1);
  }

  lemma SecondArrives(cfg: Config, r: Replica)
    requires Four(cfg) && Gathering(r, [])
    ensures Gathering(Step(cfg, r, Deliver(VoteMsg(NewView, SingleVote(2, CLAIM)))), [SingleVote(2, CLAIM)])
  {
    hide PrepareComb, HandleLdrPrepare, HandlePrepare, HandlePreCommit, HandleCommit, StartNewView;
    assert !cfg.IsTEE(2) && ValidVote(cfg, NewView, SingleVote(2, CLAIM));
    var r0 := r.(inbox := r.inbox + {VoteMsg(NewView, SingleVote(2, CLAIM))});
    var r1 := LogVote(r0, NewView, false, SingleVote(2, CLAIM));
    assert r1.log.votes == map[Slot(NewView, true, 1) := [SingleVote(0, CLAIM)],
                               Slot(NewView, false, 1) := [SingleVote(2, CLAIM)]];
    assert !NewViewThreshold(cfg, r1.log, 1);
  }

  /** With the faulty replica's new-view the leader is at its threshold, and does not propose. */
  lemma ThirdFails(cfg: Config, r: Replica)
    requires Four(cfg) && Gathering(r, [SingleVote(2, CLAIM)])
    ensures var m := SingleVote(3, UNSET_CLAIM);
      && ValidVote(cfg, NewView, m) && NewViewThreshold(cfg, Logged(cfg, r, m).log, 1)
      && PrepareComb(cfg, Logged(cfg, r, m)) == ProcessQC(cfg, Logged(cfg, r, m), HandedOver(), 3)
      && HandleMsg(cfg, r, VoteMsg(NewView, m)).processedNewViews == {}
  {
    var m := SingleVote(3, UNSET_CLAIM);
    assert !cfg.IsTEE(3) && ValidVote(cfg, NewView, m);
    var r1 := Logged(cfg, r, m);
    LogThird(cfg, r);
    MixThree(cfg);
    RefusesHandedOver(cfg, r1);
    hide ProcessQC, MixIn, Logged, ValidVote;
    assert HandleMsg(cfg, r, VoteMsg(NewView, m))
        == HandleNewView(cfg, r.(inbox := r.inbox + {VoteMsg(NewView, m)}), m);
    Unmoved(cfg, r, m);
  }

  lemma LogThird(cfg: Config, r: Replica)
    requires Four(cfg) && Gathering(r, [SingleVote(2, CLAIM)])
    ensures var r1 := Logged(cfg, r, SingleVote(3, UNSET_CLAIM));
      && r1 == r.(inbox := r1.inbox, log := r1.log)
      && Entries(r1.log, Slot(NewView, true, 1)) == [SingleVote(0, CLAIM)]
      && Entries(r1.log, Slot(NewView, false, 1)) == [SingleVote(2, CLAIM), SingleVote(3, UNSET_CLAIM)]
      && NewViewThreshold(cfg, r1.log, 1)
  {
    var m := SingleVote(3, UNSET_CLAIM);
    var old' := [SingleVote(2, CLAIM)];
    FromSingle(old', m);
    SinglesConcat(old');
    assert Concat(old')[0].signer == 2 && SignersOf(Concat(old')) == {2};
    assert SetInsert([], m) == [m];
    assert SetInsert(old', m) == [old'[0]] + SetInsert(old'[1..], m);
    assert SetInsert(old', m) == [SingleVote(2, CLAIM), m];
    hide From, AllSigners, Concat, SetInsert;
  }

  lemma MixThree(cfg: Config)
    requires Four(cfg)
    ensures MixIn(MixIn([], [SingleVote(0, CLAIM)], 3), [SingleVote(2, CLAIM), SingleVote(3, UNSET_CLAIM)], 3)
         == HandedOver()
  {
    var a, b, c := SingleVote(0, CLAIM), SingleVote(2, CLAIM), SingleVote(3, UNSET_CLAIM);
    assert MixIn([], [a], 3) == MixIn(SetInsert([], a), [], 3) == [a];
    assert [a][1..] == [] && [b, c][1..] == [c] && [c][1..] == [] && [a, b][1..] == [b];
    assert SetInsert([], b) == [b] && SetInsert([], c) == [c];
    assert SetInsert([a], b) == [a] + SetInsert([], b) == [a, b];
    assert SetInsert([b], c) == [b] + SetInsert([], c) == [b, c];
    assert SetInsert([a, b], c) == [a] + SetInsert([b], c) == [a, b, c];
    assert MixIn([a], [b, c], 3) == MixIn([a, b], [c], 3) == MixIn([a, b, c], [], 3);
  }

  lemma RefusesHandedOver(cfg: Config, r: Replica)
    requires Four(cfg) && r.id == 0 && r.view == 1 && r.t.view == 1 && r.processedNewViews == {}
    ensures ProcessQC(cfg, r, HandedOver(), 3).processedNewViews == {}
  {
    HandedOverQuorum(cfg);
    AccumulatorRoundTrip(cfg, 0, 1, HandedOver());
    hide ValidProof, NewViewsToAccum, ProofOf, NvQuorum, HandedOver, AllSame, Identical;
    var acc := NewViewsToAccum(cfg, 0, HandedOver(), 3);
    NotAccepted(cfg, r.t, CreateNewBlock(cfg, r, acc.hash).1, acc, ProofOf(cfg, HandedOver()));
  }

  lemma NotAccepted(cfg: Config, t: Trusted, block: Block, acc: Accum, proof: seq<OneJust>)
    requires !Summarises(acc, t.view, proof)
    ensures TeePrepare(cfg, t, 0, block, acc, proof).1.None?
  {
    hide ValidProof, Summarises;
  }

  lemma Unmoved(cfg: Config, r: Replica, m: Vote)
    requires cfg.maxSigs > 0 && r.processedNewViews == {} && m.signs != []
    requires PrepareComb(cfg, Logged(cfg, r, m)).processedNewViews == {} && Logged(cfg, r, m).processedNewViews == {}
    ensures HandleNewView(cfg, r.(inbox := r.inbox + {VoteMsg(NewView, m)}), m).processedNewViews == {}
  {
    hide PrepareComb, NewViewThreshold, ValidVote, Store;
  }

  // ---- the run

  /** Where the leader and replica 2 are. */
  ghost predicate At(s: Runs.State, a: Replica, b: Replica) {
    s.honest.Keys == HONEST && s.comps.Keys == {} && s.honest[0] == a && s.honest[2] == b
  }

  lemma EventAtLeader(cfg: Config, s: Runs.State, a: Replica, b: Replica, e: Event) returns (s': Runs.State)
    requires cfg.maxSigs > 0 && Runs.Reachable(cfg, HONEST, s) && At(s, a, b)
    requires e.Deliver? ==> B.Unforged(Runs.World(s), e.msg)
    ensures Runs.Reachable(cfg, HONEST, s') && At(s', Step(cfg, a, e), b)
  {
    hide Runs.Reachable, Step, B.Unforged;
    Runs.ReachableNext(cfg, HONEST, s, Runs.Occurs(System.Occurrence(0, e)));
    s' := Runs.Happens(cfg, s, Runs.Occurs(System.Occurrence(0, e)));
  }

  lemma StartAtTwo(cfg: Config, s: Runs.State, a: Replica) returns (s': Runs.State, b: Replica)
    requires Four(cfg) && Runs.Reachable(cfg, HONEST, s) && At(s, a, InitialReplica(2))
    ensures Runs.Reachable(cfg, HONEST, s') && At(s', a, b) && b.id == 2
    ensures VoteMsg(NewView, SingleVote(2, CLAIM)) in b.issued
  {
    TwoStarts(cfg);
    hide Runs.Reachable, Step, B.Unforged, Four;
    b := Step(cfg, InitialReplica(2), Start);
    Runs.ReachableNext(cfg, HONEST, s, Runs.Occurs(System.Occurrence(2, Start)));
    s' := Runs.Happens(cfg, s, Runs.Occurs(System.Occurrence(2, Start)));
  }

  lemma TwoStarts(cfg: Config)
    requires Four(cfg)
    ensures var b := Step(cfg, InitialReplica(2), Start);
      b.id == 2 && VoteMsg(NewView, SingleVote(2, CLAIM)) in b.issued
  {
    hide HandleNewView, HandleMsg, StartNewView;
  }

  lemma FromTwoUnforged(s: Runs.State, a: Replica, b: Replica)
    requires At(s, a, b) && b.id == 2 && VoteMsg(NewView, SingleVote(2, CLAIM)) in b.issued
    ensures B.Unforged(Runs.World(s), VoteMsg(NewView, SingleVote(2, CLAIM)))
  {
    var w := Runs.World(s);
    assert VoteMsg(NewView, Vote(CLAIM, [Sign(true, w.nodes[2].id, RoundText(CLAIM))])) in w.nodes[2].issued;
    assert B.Made(w.nodes[2], CLAIM);
  }

  lemma FromFaultyUnforged(s: Runs.State, a: Replica, b: Replica)
    requires At(s, a, b)
    ensures B.Unforged(Runs.World(s), VoteMsg(NewView, SingleVote(3, UNSET_CLAIM)))
  {
    assert 3 !in Runs.World(s).nodes && 3 !in Runs.World(s).comps;
  }

  /** A reachable state with one faulty replica, without trusted hardware, and a new-view from it that brings
      the leader to its threshold in phase NEWVIEW: the leader hands over all three, and does not propose. */
  lemma AccumulatorFails() returns (cfg: Config, s: Runs.State, m: Vote)
    ensures cfg.Valid() && B.Setting(cfg, HONEST) && B.FewFaulty(cfg, HONEST)
    ensures Runs.Reachable(cfg, HONEST, s) && 0 in s.honest && B.Unforged(Runs.World(s), VoteMsg(NewView, m))
    ensures var r := s.honest[0];
      && r.started && Leads(cfg, r, r.view) && r.phase == NewView && r.view !in r.processedNewViews
      && m.data.propv == r.view && ValidVote(cfg, NewView, m) && NewViewThreshold(cfg, Logged(cfg, r, m).log, r.view)
      && PrepareComb(cfg, Logged(cfg, r, m)) == ProcessQC(cfg, Logged(cfg, r, m), HandedOver(), cfg.QSize())
      && r.view !in HandleMsg(cfg, r, VoteMsg(NewView, m)).processedNewViews
    ensures NvQuorum(cfg, 1, HandedOver()) && AllSame(HandedOver()) && !Identical(HandedOver())
  {
    hide FourReplicas, Runs.Reachable, Step, HandleMsg, B.Unforged, B.Setting, B.FewFaulty, NewViewThreshold, ValidVote;
    hide Logged, PrepareComb, ProcessQC, NvQuorum, AllSame, Identical, HandedOver;
    cfg := FourReplicas();
    FourIs();
    FourSetting(cfg);
    HandedOverQuorum(cfg);
    var r;
    s, r := ToThreshold(cfg);
    m := SingleVote(3, UNSET_CLAIM);
    ThirdFails(cfg, r);
  }

  lemma FlagsStart(cfg: Config) returns (s: Runs.State)
    requires Four(cfg)
    ensures Runs.Reachable(cfg, HONEST, s) && At(s, InitialReplica(0), InitialReplica(2))
  {
    FourSetting(cfg);
    Runs.ReachableInitially(cfg, HONEST);
    s := Runs.InitialState(cfg, HONEST);
    hide Runs.Reachable;
  }

  lemma ToThreshold(cfg: Config) returns (s: Runs.State, r: Replica)
    requires Four(cfg)
    ensures Runs.Reachable(cfg, HONEST, s) && 0 in s.honest && s.honest[0] == r && Gathering(r, [SingleVote(2, CLAIM)])
    ensures B.Unforged(Runs.World(s), VoteMsg(NewView, SingleVote(3, UNSET_CLAIM)))
  {
    s := FlagsStart(cfg);
    hide Four, Runs.Reachable, Step, B.Unforged, At, B.Setting, B.FewFaulty, Gathering;
    s := EventAtLeader(cfg, s, InitialReplica(0), InitialReplica(2), Start);
    LeaderStarts(cfg);
    r := Step(cfg, InitialReplica(0), Start);
    var b;
    s, b := StartAtTwo(cfg, s, r);
    FromTwoUnforged(s, r, b);
    s := EventAtLeader(cfg, s, r, b, Deliver(VoteMsg(NewView, SingleVote(2, CLAIM))));
    SecondArrives(cfg, r);
    r := Step(cfg, r, Deliver(VoteMsg(NewView, SingleVote(2, CLAIM))));
    FromFaultyUnforged(s, r, b);
    LeaderThere(s, r, b);
  }

  lemma LeaderThere(s: Runs.State, a: Replica, b: Replica)
    requires At(s, a, b)
    ensures 0 in s.honest && s.honest[0] == a
  {
  }
}
