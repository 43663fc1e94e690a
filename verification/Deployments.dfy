/** Every deployment decides: for any number of replicas, any placement of trusted hardware and any leader there is
    a run without failures in which all replicas execute the same block in view 1. */
module Deployments {
  import opened Types
  import opened Quorums
  import opened Certificates
  import opened TrustedMachine
  import opened VoteLog
  import opened Replicas
  import opened Refinement
  import opened Decisions
  import opened Leading
  import opened PhaseOrder
  import L = LeaderRoundTrip
  import System

  // ---- counting votes in a log

  /** The votes of message type `tag` logged for view v are single votes for d, one of each replica in s. */
  ghost predicate Tallied(cfg: Config, log: LogState, tag: Phase, d: RData, s: set<PID>) {
    && OneRecord(log, tag, d)
    && forall tee :: AllSigners(Entries(log, Slot(tag, tee, d.propv))) == OfClass(cfg, s, tee)
  }

  function OfClass(cfg: Config, s: set<PID>, tee: bool): set<PID> {
    set p | p in s && cfg.IsTEE(p) == tee
  }

  lemma ClassSizes(cfg: Config, s: set<PID>)
    ensures |OfClass(cfg, s, true)| + |OfClass(cfg, s, false)| == |s|
  {
    assert OfClass(cfg, s, true) + OfClass(cfg, s, false) == s;
    assert OfClass(cfg, s, true) * OfClass(cfg, s, false) == {};
  }

  lemma SignersAre(msgs: seq<Vote>)
    requires forall i :: 0 <= i < |msgs| ==> |msgs[i].signs| == 1
    ensures forall p :: p in AllSigners(msgs) <==> exists x :: x in msgs && |x.signs| == 1 && x.signs[0].signer == p
  {
    SinglesConcat(msgs);
    forall p ensures p in AllSigners(msgs) <==> exists x :: x in msgs && |x.signs| == 1 && x.signs[0].signer == p {
      if p in AllSigners(msgs) {
        var s :| s in Concat(msgs) && s.signer == p;
        var i :| 0 <= i < |Concat(msgs)| && Concat(msgs)[i] == s;
        assert msgs[i] in msgs;
      }
      if x :| x in msgs && |x.signs| == 1 && x.signs[0].signer == p {
        var i :| 0 <= i < |msgs| && msgs[i] == x;
        assert Concat(msgs)[i] in Concat(msgs);
      }
    }
  }

  lemma TallySizes(cfg: Config, r: Replica, tag: Phase, d: RData, s: set<PID>)
    requires Inv(cfg, r) && Tallied(cfg, r.log, tag, d, s)
    ensures forall tee :: |Entries(r.log, Slot(tag, tee, d.propv))| == |OfClass(cfg, s, tee)|
  {
    LogHeld(cfg, r);
    hide Inv, LogOk;
    forall tee ensures |Entries(r.log, Slot(tag, tee, d.propv))| == |OfClass(cfg, s, tee)| {
      SlotFacts(cfg, r.id, Known(r), r.log, Slot(tag, tee, d.propv));
      CountSigners(Entries(r.log, Slot(tag, tee, d.propv)));
    }
  }

  /** One more vote for the same record. */
  lemma TalliesOne(cfg: Config, r: Replica, tag: Phase, d: RData, s: set<PID>, q: PID)
    requires Inv(cfg, r) && Tallied(cfg, r.log, tag, d, s) && q !in s && ValidVote(cfg, tag, SingleVote(q, d))
    ensures Tallied(cfg, Counted(cfg, r, tag, SingleVote(q, d)).log, tag, d, s + {q})
  {
    hide Inv, LogOk, ValidVote, AllSigners, OneRecord, Store, Entries;
    ValidSingle(cfg, tag, SingleVote(q, d));
    LogHeld(cfg, r);
    CountedRecord(cfg, r, tag, SingleVote(q, d));
    ClassTallies(cfg, r, tag, d, s, q);
  }

  lemma ClassTallies(cfg: Config, r: Replica, tag: Phase, d: RData, s: set<PID>, q: PID)
    requires LogOk(cfg, r.id, Known(r), r.log) && Tallied(cfg, r.log, tag, d, s) && q !in s
    requires ValidVote(cfg, tag, SingleVote(q, d))
    ensures forall tee :: AllSigners(Entries(Counted(cfg, r, tag, SingleVote(q, d)).log, Slot(tag, tee, d.propv)))
                       == OfClass(cfg, s + {q}, tee)
  {
    var m := SingleVote(q, d);
    var slot := MySlot(cfg, tag, m);
    ValidSingle(cfg, tag, m);
    SlotFacts(cfg, r.id, Known(r), r.log, slot);
    hide LogOk, ValidVote, AllSigners, OneRecord, Store, Entries, SlotOk;
    VoteLog.StoreLaw(cfg, r.log, slot, m);
    var log' := Counted(cfg, r, tag, m).log;
    assert slot == Slot(tag, cfg.IsTEE(q), d.propv);
    SignersPlus(cfg, slot, Entries(r.log, slot), Entries(log', slot), m);
    ClassPlus(cfg, s, q);
    hide OfClass;
  }

  lemma ClassPlus(cfg: Config, s: set<PID>, q: PID)
    ensures forall tee ::
      OfClass(cfg, s + {q}, tee) == if tee == cfg.IsTEE(q) then OfClass(cfg, s, tee) + {q} else OfClass(cfg, s, tee)
  {
  }

  lemma SignersPlus(cfg: Config, slot: Slot, msgs: seq<Vote>, msgs': seq<Vote>, m: Vote)
    requires SlotOk(cfg, slot, msgs) && SlotOk(cfg, slot, msgs') && |m.signs| == 1
    requires multiset(msgs') == multiset(msgs) + multiset{m}
    ensures AllSigners(msgs') == AllSigners(msgs) + {m.signs[0].signer}
  {
    SignersAre(msgs);
    SignersAre(msgs');
    hide SlotOk, AllSigners;
    assert forall x :: x in msgs' <==> x in msgs || x == m by { InMultiset(msgs, msgs', m); }
    forall p ensures p in AllSigners(msgs') <==> p in AllSigners(msgs) || p == m.signs[0].signer {
      if x :| x in msgs' && |x.signs| == 1 && x.signs[0].signer == p {
        assert x in msgs || x == m;
      }
    }
  }

  lemma InMultiset(msgs: seq<Vote>, msgs': seq<Vote>, m: Vote)
    requires multiset(msgs') == multiset(msgs) + multiset{m}
    ensures forall x :: x in msgs' <==> x in msgs || x == m
  {
    forall x ensures x in msgs' <==> x in msgs || x == m {
      assert x in msgs' <==> x in multiset(msgs');
      assert x in msgs <==> x in multiset(msgs);
    }
  }

  // ---- the leader gathers new-views

  /** The leader of view 1 holds the first new-views of the replicas in s and has not proposed. */
  ghost predicate Gathers(cfg: Config, r: Replica, s: set<PID>, txs: seq<Transaction>) {
    && r == Begun(cfg.LeaderOf(1)).(transactions := txs, log := r.log, inbox := r.inbox)
    && Tallied(cfg, r.log, NewView, FIRST_ROUND, s)
    && (forall slot :: slot in r.log.votes ==> slot.tag == NewView)
    && !NewViewThreshold(cfg, r.log, 1)
  }

  lemma FirstVoteValid(cfg: Config, q: PID, d: RData)
    requires cfg.Valid() && q in cfg.nodes
    ensures ValidVote(cfg, d.phase, SingleVote(q, d))
  {
  }

  /** One new-view that does not reach the threshold. */
  lemma GathersOne(cfg: Config, r: Replica, s: set<PID>, txs: seq<Transaction>, q: PID)
    requires cfg.Valid() && Inv(cfg, r) && Gathers(cfg, r, s, txs) && q in cfg.nodes && q !in s
    requires !NewViewThreshold(cfg, WithNewView(cfg, r, SingleVote(q, FIRST_ROUND)).log, 1)
    ensures Gathers(cfg, Step(cfg, r, Deliver(VoteMsg(NewView, SingleVote(q, FIRST_ROUND)))), s + {q}, txs)
  {
    var m := SingleVote(q, FIRST_ROUND);
    FirstVoteValid(cfg, q, FIRST_ROUND);
    TalliesOne(cfg, r, NewView, FIRST_ROUND, s, q);
    hide Inv, ValidVote, NewViewThreshold, Tallied, HandleLdrPrepare, HandlePrepare, HandlePreCommit, HandleCommit;
    hide SetInsert, From, PrepareComb;
    assert Step(cfg, r, Deliver(VoteMsg(NewView, m))) == WithNewView(cfg, r, m);
  }

  /** The leader's own new-view alone does not reach the threshold. */
  lemma GathersOwn(cfg: Config, txs: seq<Transaction>)
    requires cfg.Valid() && cfg.f > 0
    ensures var l := cfg.LeaderOf(1);
      Gathers(cfg, HandleNewView(cfg, Begun(l).(transactions := txs), SingleVote(l, FIRST_ROUND)), {l}, txs)
  {
    var l := cfg.LeaderOf(1);
    var m := SingleVote(l, FIRST_ROUND);
    QuorumSizes(cfg);
    LeaderKnown(cfg);
    FirstVoteValid(cfg, l, FIRST_ROUND);
    var r1 := Counted(cfg, Begun(l).(transactions := txs), NewView, m);
    OwnTally(cfg, EMPTY_LOG, NewView, FIRST_ROUND, l);
    assert r1.log.votes == map[Slot(NewView, cfg.IsTEE(l), 1) := [m]];
    assert !NewViewThreshold(cfg, r1.log, 1);
    hide ValidVote, NewViewThreshold, Tallied, PrepareComb;
  }

  lemma LeaderKnown(cfg: Config)
    requires cfg.Valid()
    ensures cfg.LeaderOf(1) in cfg.nodes && cfg.maxSigs > 0
  {
  }

  /** The first vote in slots that are empty. */
  lemma OwnTally(cfg: Config, log: LogState, tag: Phase, d: RData, q: PID)
    requires forall tee :: Slot(tag, tee, d.propv) !in log.votes
    ensures Tallied(cfg, Store(log, Slot(tag, cfg.IsTEE(q), d.propv), SingleVote(q, d)).0, tag, d, {q})
  {
    var m := SingleVote(q, d);
    SignersAre([m]);
    SignersAre([]);
    hide AllSigners;
    assert AllSigners([m]) == {q};
    assert AllSigners([]) == {};
    assert OfClass(cfg, {q}, cfg.IsTEE(q)) == {q} && OfClass(cfg, {q}, !cfg.IsTEE(q)) == {};
  }

  /** All replicas have started; the leader holds the new-views of those in s. */
  ghost predicate Opening(cfg: Config, sys: System.State, s: set<PID>, txs: seq<Transaction>) {
    var l := cfg.LeaderOf(1);
    && System.Reachable(cfg, sys) && sys.Keys == cfg.nodes.Keys && s <= cfg.nodes.Keys && l in s
    && Gathers(cfg, sys[l], s, txs) && OthersBegun(cfg, sys, {})
  }

  /** All replicas but the leader and those in `todo` have started and done nothing else. */
  predicate OthersBegun(cfg: Config, sys: System.State, todo: set<PID>) {
    forall q :: q in sys && q != cfg.LeaderOf(1) && q !in todo ==> sys[q] == Begun(q)
  }

  lemma {:induction false} BackupsStart(cfg: Config, sys: System.State, todo: set<PID>) returns (sys': System.State)
    requires cfg.maxSigs > 0 && System.Reachable(cfg, sys) && todo <= sys.Keys && cfg.LeaderOf(1) !in todo
    requires OthersBegun(cfg, sys, todo) && forall q :: q in todo ==> sys[q] == InitialReplica(q)
    ensures System.Reachable(cfg, sys') && sys'.Keys == sys.Keys && OthersBegun(cfg, sys', {})
    ensures cfg.LeaderOf(1) in sys ==> sys'[cfg.LeaderOf(1)] == sys[cfg.LeaderOf(1)]
    decreases |todo|
  {
    hide System.Reachable, Step, Begun, InitialReplica;
    if todo == {} {
      sys' := sys;
    } else {
      var q :| q in todo;
      UnchangedPool(q);
      Begins(cfg, q, []);
      var sys1 := System.Next(cfg, sys, q, Start);
      sys' := BackupsStart(cfg, sys1, todo - {q});
    }
  }

  lemma UnchangedPool(q: PID)
    ensures InitialReplica(q).(transactions := []) == InitialReplica(q) && Begun(q).(transactions := []) == Begun(q)
  {
  }

  /** A client submits a transaction to the leader, and all replicas start. */
  lemma Opens(cfg: Config, tx: Transaction) returns (sys: System.State)
    requires cfg.Valid() && cfg.f > 0
    ensures Opening(cfg, sys, {cfg.LeaderOf(1)}, [tx])
  {
    hide System.Reachable, Step, Begun, Gathers, HandleNewView, InitialReplica, OthersBegun;
    var l := cfg.LeaderOf(1);
    LeaderKnown(cfg);
    var sys2 := BackupsBegin(cfg, tx);
    Begins(cfg, l, [tx]);
    sys := System.Next(cfg, sys2, l, Start);
    OthersKept(cfg, sys2, sys[l]);
    GathersOwn(cfg, [tx]);
  }

  lemma BackupsBegin(cfg: Config, tx: Transaction) returns (sys: System.State)
    requires cfg.Valid()
    ensures var l := cfg.LeaderOf(1);
      && System.Reachable(cfg, sys) && sys.Keys == cfg.nodes.Keys && OthersBegun(cfg, sys, {})
      && l in sys && sys[l] == InitialReplica(l).(transactions := [tx])
  {
    hide System.Reachable, Step, Begun, InitialReplica;
    var l := cfg.LeaderOf(1);
    LeaderKnown(cfg);
    System.ReachableInitially(cfg);
    Submitted(cfg, l, tx);
    var sys1 := System.Next(cfg, System.InitialSystem(cfg), l, Submit(tx));
    sys := BackupsStart(cfg, sys1, cfg.nodes.Keys - {l});
  }

  lemma Submitted(cfg: Config, q: PID, tx: Transaction)
    requires cfg.maxSigs > 0
    ensures Step(cfg, InitialReplica(q), Submit(tx)) == InitialReplica(q).(transactions := [tx])
  {
    hide HandleMsg, StartNewView, GetStarted;
    assert [] + [tx] == [tx];
  }

  // ---- the leader proposes

  /** The leader has sent p and collects the votes of message type `tag` for d; it has those of the replicas
      in s. */
  ghost predicate Counting(cfg: Config, r: Replica, tag: Phase, d: RData, s: set<PID>, p: Proposal) {
    && r.id == cfg.LeaderOf(1) && r.started && r.view == 1 && r.phase == tag && StateKey(r.t) == Key(1, tag) + 1
    && Holds(r, p) && d.phase == tag && ForBlock(d, p)
    && Tallied(cfg, r.log, tag, d, s)
    && (forall slot :: slot in r.log.votes ==> PhaseIndex(slot.tag) <= PhaseIndex(tag))
  }

  /** The block of p is held for view 1 and not executed. */
  predicate Holds(r: Replica, p: Proposal) {
    1 in r.blocks && r.blocks[1] == p.block && 1 !in r.processedCommit && r.executed == []
  }

  predicate ForBlock(d: RData, p: Proposal) {
    d.propv == 1 && d.proph == BlockHash(p.block)
  }

  lemma ProposesFirst(cfg: Config, r: Replica, s: set<PID>, txs: seq<Transaction>, m: Vote, r': Replica, p: Proposal)
    requires Gathers(cfg, r, s, txs) && m.signs != [] && m.data.propv == 1
    requires r'.phase == Prepare && ProposedOne(cfg, WithNewView(cfg, r, m), r'.(phase := NewView), p)
    ensures Counting(cfg, r', Prepare, LdrData(p), {cfg.LeaderOf(1)}, p) && LdrMsg(p) in r'.issued && p.acc.view == 1
    ensures txs != [] && cfg.maxTxs > 0 ==> txs[0] in p.block.txs
  {
    hide Tallied, NewViewThreshold, Store;
    var l := cfg.LeaderOf(1);
    var r1 := WithNewView(cfg, r, m);
    assert ProposalRound(r1.t, p) == LdrData(p);
    NoVotesYet(r.log, MySlot(cfg, NewView, m), m);
    hide ProposalRound, LdrData;
    OwnTally(cfg, r1.log, Prepare, LdrData(p), l);
    StoredSlots(r1.log, Slot(Prepare, cfg.IsTEE(l), 1), SingleVote(l, LdrData(p)));
    if txs != [] && cfg.maxTxs > 0 { FirstTaken(txs, p.block.txs, r'.transactions); }
  }

  lemma FirstTaken(txs: seq<Transaction>, taken: seq<Transaction>, left: seq<Transaction>)
    requires txs == taken + left && txs != [] && (taken != [] || left == [])
    ensures txs[0] in taken
  {
    assert (taken + left)[0] == taken[0];
  }

  lemma NoVotesYet(log: LogState, slot: Slot, m: Vote)
    requires forall s :: s in log.votes ==> s.tag == NewView
    requires slot.tag == NewView
    ensures forall s :: s in Store(log, slot, m).0.votes ==> s.tag == NewView
  {
    hide SetInsert, From;
  }

  lemma StoredSlots(log: LogState, slot: Slot, m: Vote)
    ensures forall s :: s in Store(log, slot, m).0.votes ==> s == slot || s in log.votes
  {
    hide SetInsert, From;
  }

  /** The leader has proposed p for view 1, and the others have only started. */
  ghost predicate HasProposal(cfg: Config, sys: System.State, p: Proposal) {
    var l := cfg.LeaderOf(1);
    && System.Reachable(cfg, sys) && sys.Keys == cfg.nodes.Keys && l in sys
    && Counting(cfg, sys[l], Prepare, LdrData(p), {l}, p) && LdrMsg(p) in sys[l].issued && p.acc.view == 1
    && OthersBegun(cfg, sys, {})
  }

  lemma InvOf(cfg: Config, sys: System.State, q: PID)
    requires cfg.Valid() && System.Reachable(cfg, sys) && q in sys && sys[q].started
    ensures Inv(cfg, sys[q]) && sys[q].id == q
  {
    hide System.Reachable, System.Good, Inv;
    System.ReachableGood(cfg, sys);
    System.GoodAt(cfg, sys, q);
  }

  /** Below the threshold some replica's new-view is missing. */
  lemma SomeoneMissing(cfg: Config, r: Replica, s: set<PID>, txs: seq<Transaction>) returns (q: PID)
    requires cfg.Valid() && Inv(cfg, r) && Gathers(cfg, r, s, txs) && s <= cfg.nodes.Keys
    ensures q in cfg.nodes && q !in s
  {
    FewGathered(cfg, r, s, txs);
    QuorumSizes(cfg);
    q := Outside(cfg.nodes.Keys, s);
  }

  lemma FewGathered(cfg: Config, r: Replica, s: set<PID>, txs: seq<Transaction>)
    requires cfg.Valid() && Inv(cfg, r) && Gathers(cfg, r, s, txs)
    ensures |s| < cfg.QSize()
  {
    hide Inv, NewViewThreshold, Tallied, OfClass;
    TallySizes(cfg, r, NewView, FIRST_ROUND, s);
    ClassSizes(cfg, s);
    ThresholdLaw(cfg, r, 1);
  }

  lemma Outside(all: set<PID>, s: set<PID>) returns (q: PID)
    requires |s| < |all|
    ensures q in all && q !in s
  {
    if forall x :: x in all ==> x in s { SubsetSize(all, s); }
    q :| q in all && q !in s;
  }

  lemma FewerLeft(all: set<PID>, s: set<PID>, q: PID)
    requires q in all && q !in s
    ensures |all - (s + {q})| < |all - s|
  {
    assert all - (s + {q}) == (all - s) - {q};
  }

  lemma FirstSent(cfg: Config, sys: System.State, q: PID)
    requires OthersBegun(cfg, sys, {}) && q in sys && q != cfg.LeaderOf(1)
    ensures System.WasSent(sys, VoteMsg(NewView, SingleVote(q, FIRST_ROUND)))
  {
  }

  /** The leader proposes with one of the first 2f+1 new-views. */
  lemma {:induction false} LeaderProposes(cfg: Config, sys: System.State, s: set<PID>, txs: seq<Transaction>)
    returns (sys': System.State, p: Proposal)
    requires cfg.Valid() && Opening(cfg, sys, s, txs)
    ensures HasProposal(cfg, sys', p) && (txs != [] && cfg.maxTxs > 0 ==> txs[0] in p.block.txs)
    decreases |cfg.nodes.Keys - s|
  {
    hide Opening, HasProposal, Gathers, Inv, NewViewThreshold, WithNewView, Step, System.Reachable;
    var l := cfg.LeaderOf(1);
    var q := NextNewView(cfg, sys, s, txs);
    if NewViewThreshold(cfg, WithNewView(cfg, sys[l], SingleVote(q, FIRST_ROUND)).log, 1) {
      sys', p := ProposesNow(cfg, sys, s, txs, q);
    } else {
      var sys1 := GathersOn(cfg, sys, s, txs, q);
      FewerLeft(cfg.nodes.Keys, s, q);
      sys', p := LeaderProposes(cfg, sys1, s + {q}, txs);
    }
  }

  lemma NextNewView(cfg: Config, sys: System.State, s: set<PID>, txs: seq<Transaction>) returns (q: PID)
    requires cfg.Valid() && Opening(cfg, sys, s, txs)
    ensures cfg.LeaderOf(1) in sys && q in cfg.nodes && q !in s
  {
    hide System.Reachable, Gathers, Inv;
    LeaderFacts(cfg, sys[cfg.LeaderOf(1)], s, txs);
    InvOf(cfg, sys, cfg.LeaderOf(1));
    q := SomeoneMissing(cfg, sys[cfg.LeaderOf(1)], s, txs);
  }

  lemma GathersOn(cfg: Config, sys: System.State, s: set<PID>, txs: seq<Transaction>, q: PID)
    returns (sys': System.State)
    requires cfg.Valid() && Opening(cfg, sys, s, txs) && q in cfg.nodes && q !in s
    requires !NewViewThreshold(cfg, WithNewView(cfg, sys[cfg.LeaderOf(1)], SingleVote(q, FIRST_ROUND)).log, 1)
    ensures Opening(cfg, sys', s + {q}, txs)
  {
    hide System.Reachable, Gathers, System.WasSent, Step, Inv, NewViewThreshold, WithNewView, OthersBegun;
    var l := cfg.LeaderOf(1);
    LeaderFacts(cfg, sys[l], s, txs);
    InvOf(cfg, sys, l);
    FirstSent(cfg, sys, q);
    LeaderKnown(cfg);
    sys' := System.Next(cfg, sys, l, Deliver(VoteMsg(NewView, SingleVote(q, FIRST_ROUND))));
    OthersKept(cfg, sys, sys'[l]);
    GathersOne(cfg, sys[l], s, txs, q);
  }

  lemma OthersKept(cfg: Config, sys: System.State, r: Replica)
    requires OthersBegun(cfg, sys, {})
    ensures OthersBegun(cfg, sys[cfg.LeaderOf(1) := r], {})
  {
    hide Begun;
  }

  lemma ProposesNow(cfg: Config, sys: System.State, s: set<PID>, txs: seq<Transaction>, q: PID)
    returns (sys': System.State, p: Proposal)
    requires cfg.Valid() && Opening(cfg, sys, s, txs) && q in cfg.nodes && q !in s
    requires NewViewThreshold(cfg, WithNewView(cfg, sys[cfg.LeaderOf(1)], SingleVote(q, FIRST_ROUND)).log, 1)
    ensures HasProposal(cfg, sys', p) && (txs != [] && cfg.maxTxs > 0 ==> txs[0] in p.block.txs)
  {
    hide System.Reachable, Gathers, System.WasSent, Step, Inv, NewViewThreshold, WithNewView, Counting, ProposedOne;
    hide OthersBegun, LdrData;
    var l := cfg.LeaderOf(1);
    var m := SingleVote(q, FIRST_ROUND);
    FirstSent(cfg, sys, q);
    LeaderKnown(cfg);
    sys' := System.Next(cfg, sys, l, Deliver(VoteMsg(NewView, m)));
    OthersKept(cfg, sys, sys'[l]);
    p := ReachesThreshold(cfg, sys, s, txs, q);
    ProposesFirst(cfg, sys[l], s, txs, m, sys'[l], p);
  }

  lemma LeaderFacts(cfg: Config, r: Replica, s: set<PID>, txs: seq<Transaction>)
    requires Gathers(cfg, r, s, txs)
    ensures r.started && r.id == cfg.LeaderOf(1) && r.view == 1 && r.phase == NewView && r.processedNewViews == {}
  {
  }

  lemma ReachesThreshold(cfg: Config, sys: System.State, s: set<PID>, txs: seq<Transaction>, q: PID)
    returns (p: Proposal)
    requires cfg.Valid() && Opening(cfg, sys, s, txs) && q in sys && q !in s
    requires NewViewThreshold(cfg, WithNewView(cfg, sys[cfg.LeaderOf(1)], SingleVote(q, FIRST_ROUND)).log, 1)
    ensures var m := SingleVote(q, FIRST_ROUND); var r := sys[cfg.LeaderOf(1)];
      var r' := Step(cfg, r, Deliver(VoteMsg(NewView, m)));
      r'.phase == Prepare && ProposedOne(cfg, WithNewView(cfg, r, m), r'.(phase := NewView), p)
  {
    hide System.Reachable, Gathers, System.WasSent, NewViewThreshold, ValidVote, Proposes, ProposedOne, HandleNewView;
    var l := cfg.LeaderOf(1);
    var m := SingleVote(q, FIRST_ROUND);
    LeaderFacts(cfg, sys[l], s, txs);
    FirstVoteValid(cfg, q, FIRST_ROUND);
    FirstSent(cfg, sys, q);
    L.ThresholdProposesInEveryRun(cfg, sys, l, m);
    ProposesExactly(cfg, Received(sys[l], Deliver(VoteMsg(NewView, m))), m);
    hide Step;
    p := ProposalLaw(cfg, sys[l], m);
  }

  // ---- every backup receives a message of the leader

  lemma {:induction false} DeliverAll(cfg: Config, sys: System.State, l: PID, todo: set<PID>, m: Msg)
    returns (sys': System.State)
    requires cfg.maxSigs > 0 && System.Reachable(cfg, sys) && todo <= sys.Keys
    requires l in sys && l !in todo && m in sys[l].issued
    ensures System.Reachable(cfg, sys') && sys'.Keys == sys.Keys
    ensures forall q :: q in sys ==> sys'[q] == if q in todo then Step(cfg, sys[q], Deliver(m)) else sys[q]
    decreases |todo|
  {
    hide System.Reachable, Step;
    if todo == {} {
      sys' := sys;
    } else {
      var q :| q in todo;
      assert System.WasSent(sys, m);
      var sys1 := System.Next(cfg, sys, q, Deliver(m));
      sys' := DeliverAll(cfg, sys1, l, todo - {q}, m);
    }
  }

  /** A backup that has voted for p and signed all rounds below k. */
  predicate BackupAt(cfg: Config, r: Replica, p: Proposal, k: nat) {
    r.id != cfg.LeaderOf(1) && r.started && r.view == 1 && StateKey(r.t) == k && Holds(r, p)
  }

  /** All votes of message type `tag` for d have been sent, and the leader holds its own. */
  ghost predicate Round(cfg: Config, sys: System.State, tag: Phase, d: RData, p: Proposal) {
    var l := cfg.LeaderOf(1);
    && System.Reachable(cfg, sys) && sys.Keys == cfg.nodes.Keys && l in sys
    && Counting(cfg, sys[l], tag, d, {l}, p)
    && forall q :: q in sys && q != l ==> Voted(cfg, sys[q], q, tag, d, p)
  }

  predicate Voted(cfg: Config, r: Replica, q: PID, tag: Phase, d: RData, p: Proposal) {
    r.id == q && BackupAt(cfg, r, p, Key(1, tag) + 1) && VoteMsg(tag, SingleVote(q, d)) in r.issued
  }

  lemma VotesFirst(cfg: Config, q: PID, p: Proposal)
    requires cfg.maxSigs > 0 && q != cfg.LeaderOf(1) && p.acc.view == 1 && VerifyLdrPrepare(cfg, p)
    requires Extends(p.block, p.acc.hash) && (p.acc.size == cfg.QSize() || p.acc.size == cfg.TQSize())
    requires TeePrepare(cfg, INITIAL.(phase := Prepare), q, p.block, p.acc, p.proof).1.Some?
    ensures Voted(cfg, Step(cfg, Begun(q), Deliver(LdrMsg(p))), q, Prepare, LdrData(p), p)
  {
    AcceptanceLaw(cfg, INITIAL.(phase := Prepare), q, p.block, p.acc, p.proof);
    hide TeePrepare, VerifyLdrPrepare, HandleNewView, HandlePrepare, HandlePreCommit, HandleCommit, StoreProposal;
  }

  /** Every backup votes for the proposal. */
  lemma AllVote(cfg: Config, sys: System.State, p: Proposal) returns (sys': System.State)
    requires cfg.Valid() && HasProposal(cfg, sys, p)
    ensures Round(cfg, sys', Prepare, LdrData(p), p)
  {
    hide System.Reachable, Counting, Step, Voted, OthersBegun, LdrData;
    var l := cfg.LeaderOf(1);
    LeaderKnown(cfg);
    sys' := DeliverAll(cfg, sys, l, cfg.nodes.Keys - {l}, LdrMsg(p));
    forall q | q in sys' && q != l ensures Voted(cfg, sys'[q], q, Prepare, LdrData(p), p) {
      EachVotes(cfg, sys, p, q);
    }
  }

  lemma EachVotes(cfg: Config, sys: System.State, p: Proposal, q: PID)
    requires cfg.Valid() && HasProposal(cfg, sys, p) && q in sys && q != cfg.LeaderOf(1)
    ensures Voted(cfg, Step(cfg, sys[q], Deliver(LdrMsg(p))), q, Prepare, LdrData(p), p)
  {
    hide System.Reachable, System.Good, Counting, Step, VerifyLdrPrepare, TeePrepare, Voted, System.WasSent, LdrData;
    System.ReachableGood(cfg, sys);
    SentBy(sys, cfg.LeaderOf(1), LdrMsg(p));
    L.BackupAccepts(cfg, sys, q, p);
    VotesFirst(cfg, q, p);
  }

  lemma SentBy(sys: System.State, q: PID, m: Msg)
    requires q in sys && m in sys[q].issued
    ensures System.WasSent(sys, m)
  {
  }

  // ---- the leader collects votes

  lemma CountingFacts(cfg: Config, r: Replica, tag: Phase, d: RData, s: set<PID>, p: Proposal)
    requires Counting(cfg, r, tag, d, s, p)
    ensures r.id == cfg.LeaderOf(1) && r.started && r.view == 1 && r.phase == tag && d.phase == tag && d.propv == 1
    ensures Tallied(cfg, r.log, tag, d, s) && OneRecord(r.log, tag, d) && Wanted(r, d) && r.executed == []
    ensures StateKey(r.t) == Key(1, tag) + 1
  {
  }

  /** One vote that completes nothing. */
  lemma CountsOne(cfg: Config, r: Replica, tag: Phase, d: RData, s: set<PID>, p: Proposal, q: PID)
    requires cfg.Valid() && Inv(cfg, r) && Counting(cfg, r, tag, d, s, p) && q in cfg.nodes && q !in s && tag != NewView
    requires !Completes(cfg, r, tag, SingleVote(q, d))
    ensures Counting(cfg, Step(cfg, r, Deliver(VoteMsg(tag, SingleVote(q, d)))), tag, d, s + {q}, p)
  {
    var m := SingleVote(q, d);
    FirstVoteValid(cfg, q, d);
    hide Inv, ValidVote, Completes, Step, Tallied;
    LeaderCounts(cfg, r, tag, m);
    TalliesOne(cfg, r, tag, d, s, q);
    StoredSlots(r.log, MySlot(cfg, tag, m), m);
    hide Store;
  }

  /** The votes counted, whatever their class. */
  lemma CountedAll(cfg: Config, r: Replica, tag: Phase, d: RData, s: set<PID>, q: PID)
    requires Inv(cfg, r) && Tallied(cfg, r.log, tag, d, s) && q !in s
    ensures var m := SingleVote(q, d);
      Tally(cfg, r, tag, m, true) + Tally(cfg, r, tag, m, false) == |s| + 1
    ensures SingleVote(q, d).signs[0].signer !in AllSigners(Entries(r.log, MySlot(cfg, tag, SingleVote(q, d))))
  {
    hide Inv, OneRecord, AllSigners, Entries;
    TallySizes(cfg, r, tag, d, s);
    ClassSizes(cfg, s);
  }

  /** With at most 2f+1 of the votes, a certificate is complete but for one vote. */
  lemma {:induction false} Collects(cfg: Config, sys: System.State, tag: Phase, d: RData, s: set<PID>, p: Proposal)
    returns (sys': System.State, q: PID)
    requires cfg.Valid() && tag != NewView && System.Reachable(cfg, sys) && sys.Keys == cfg.nodes.Keys
    requires cfg.LeaderOf(1) in sys && Counting(cfg, sys[cfg.LeaderOf(1)], tag, d, s, p)
    requires cfg.LeaderOf(1) in s && s <= cfg.nodes.Keys && |s| < cfg.QSize()
    requires forall x :: x in sys && x !in s ==> VoteMsg(tag, SingleVote(x, d)) in sys[x].issued
    ensures System.Reachable(cfg, sys') && cfg.LeaderOf(1) in sys'
    ensures sys' == sys[cfg.LeaderOf(1) := sys'[cfg.LeaderOf(1)]]
    ensures exists s' :: Counting(cfg, sys'[cfg.LeaderOf(1)], tag, d, s', p)
    ensures q in sys && q != cfg.LeaderOf(1) && Completes(cfg, sys'[cfg.LeaderOf(1)], tag, SingleVote(q, d))
    decreases |cfg.nodes.Keys - s|
  {
    hide System.Reachable, Counting, Step, Inv, Completes, System.WasSent;
    var l := cfg.LeaderOf(1);
    CountingFacts(cfg, sys[l], tag, d, s, p);
    InvOf(cfg, sys, l);
    QuorumSizes(cfg);
    q := Outside(cfg.nodes.Keys, s);
    if Completes(cfg, sys[l], tag, SingleVote(q, d)) {
      sys' := sys;
    } else {
      LeaderKnown(cfg);
      SentBy(sys, q, VoteMsg(tag, SingleVote(q, d)));
      var sys1 := System.Next(cfg, sys, l, Deliver(VoteMsg(tag, SingleVote(q, d))));
      CountsOne(cfg, sys[l], tag, d, s, p, q);
      Incomplete(cfg, sys[l], tag, d, s, q);
      FewerLeft(cfg.nodes.Keys, s, q);
      sys', q := Collects(cfg, sys1, tag, d, s + {q}, p);
    }
  }

  lemma Incomplete(cfg: Config, r: Replica, tag: Phase, d: RData, s: set<PID>, q: PID)
    requires Inv(cfg, r) && Tallied(cfg, r.log, tag, d, s) && q !in s && |s| < cfg.QSize()
    requires !Completes(cfg, r, tag, SingleVote(q, d))
    ensures |s + {q}| < cfg.QSize()
  {
    hide Inv, Tallied, AllSigners, Tally;
    CountedAll(cfg, r, tag, d, s, q);
  }

  /** A round starts with the leader's vote alone, so some vote completes the certificate. */
  lemma RoundCollects(cfg: Config, sys: System.State, tag: Phase, d: RData, p: Proposal)
    returns (sys': System.State, q: PID)
    requires cfg.Valid() && cfg.f > 0 && tag != NewView && Round(cfg, sys, tag, d, p)
    ensures System.Reachable(cfg, sys') && cfg.LeaderOf(1) in sys'
    ensures sys' == sys[cfg.LeaderOf(1) := sys'[cfg.LeaderOf(1)]]
    ensures exists s' :: Counting(cfg, sys'[cfg.LeaderOf(1)], tag, d, s', p)
    ensures q in sys && q != cfg.LeaderOf(1) && Completes(cfg, sys'[cfg.LeaderOf(1)], tag, SingleVote(q, d))
  {
    hide System.Reachable, Counting, Completes, BackupAt;
    LeaderKnown(cfg);
    sys', q := Collects(cfg, sys, tag, d, {cfg.LeaderOf(1)}, p);
  }

  // ---- deciding

  /** In the phase that decides, the leader executes the block and then every backup does. */
  lemma RoundDecides(cfg: Config, sys: System.State, d: RData, p: Proposal) returns (sys': System.State)
    requires cfg.Valid() && cfg.f > 0 && Round(cfg, sys, FinalPhase(cfg, 1), d, p)
    ensures System.Reachable(cfg, sys') && sys'.Keys == cfg.nodes.Keys
    ensures forall q :: q in sys' ==> [d] <= sys'[q].executed
  {
    hide System.Reachable, Counting, Completes, Step, Voted, Inv, ValidQC, Decides;
    var l, tag := cfg.LeaderOf(1), FinalPhase(cfg, 1);
    var sys1, q := RoundCollects(cfg, sys, tag, d, p);
    LeaderKnown(cfg);
    RoundSent(cfg, sys, sys1, tag, d, p, q);
    var sys2 := System.Next(cfg, sys1, l, Deliver(VoteMsg(tag, SingleVote(q, d))));
    var cert := LeaderFinishes(cfg, sys1, d, p, q);
    sys' := DeliverAll(cfg, sys2, l, cfg.nodes.Keys - {l}, VoteMsg(tag, cert));
    forall x | x in sys' ensures [d] <= sys'[x].executed {
      if x != l { BackupFinishes(cfg, sys, x, d, p, cert); }
    }
  }

  lemma RoundSent(cfg: Config, sys: System.State, sys1: System.State, tag: Phase, d: RData, p: Proposal, q: PID)
    requires Round(cfg, sys, tag, d, p) && q in sys && q != cfg.LeaderOf(1)
    requires cfg.LeaderOf(1) in sys1 && sys1 == sys[cfg.LeaderOf(1) := sys1[cfg.LeaderOf(1)]]
    ensures q in sys1 && System.WasSent(sys1, VoteMsg(tag, SingleVote(q, d)))
  {
    hide System.Reachable, Counting;
    assert Voted(cfg, sys[q], q, tag, d, p);
    SentBy(sys1, q, VoteMsg(tag, SingleVote(q, d)));
  }

  lemma LeaderFinishes(cfg: Config, sys: System.State, d: RData, p: Proposal, q: PID) returns (cert: Vote)
    requires cfg.Valid() && System.Reachable(cfg, sys) && cfg.LeaderOf(1) in sys && q in cfg.nodes
    requires exists s :: Counting(cfg, sys[cfg.LeaderOf(1)], FinalPhase(cfg, 1), d, s, p)
    requires Completes(cfg, sys[cfg.LeaderOf(1)], FinalPhase(cfg, 1), SingleVote(q, d))
    ensures var tag := FinalPhase(cfg, 1);
      var r' := Step(cfg, sys[cfg.LeaderOf(1)], Deliver(VoteMsg(tag, SingleVote(q, d))));
      cert.data == d && ValidQC(cfg, tag, cert) && VoteMsg(tag, cert) in r'.issued && [d] <= r'.executed
  {
    hide System.Reachable, Counting, Completes, Step, Inv, ValidQC, ValidVote, Wanted, OneRecord, Tallied;
    var l, tag := cfg.LeaderOf(1), FinalPhase(cfg, 1);
    var s :| Counting(cfg, sys[l], tag, d, s, p);
    CountingFacts(cfg, sys[l], tag, d, s, p);
    InvOf(cfg, sys, l);
    FirstVoteValid(cfg, q, d);
    cert := LeaderDecides(cfg, sys[l], SingleVote(q, d));
    assert [] + [d] == [d];
  }

  lemma BackupFinishes(cfg: Config, sys: System.State, x: PID, d: RData, p: Proposal, cert: Vote)
    requires cfg.Valid() && Round(cfg, sys, FinalPhase(cfg, 1), d, p) && x in sys && x != cfg.LeaderOf(1)
    requires cert.data == d && ValidQC(cfg, FinalPhase(cfg, 1), cert)
    ensures [d] <= Step(cfg, sys[x], Deliver(VoteMsg(FinalPhase(cfg, 1), cert))).executed
  {
    hide Round, Step, Inv, ValidQC;
    VotedIn(cfg, sys, x, FinalPhase(cfg, 1), d, p);
    BackupDecides(cfg, sys[x], cert);
    assert [] + [d] == [d];
  }

  /** Under a leader without trusted hardware a round is followed by the next, for the same block. */
  lemma RoundAdvances(cfg: Config, sys: System.State, tag: Phase, d: RData, p: Proposal)
    returns (sys': System.State, d': RData)
    requires cfg.Valid() && cfg.f > 0 && Round(cfg, sys, tag, d, p)
    requires !cfg.IsTEE(cfg.LeaderOf(1)) && (tag == Prepare || tag == PreCommit)
    ensures Round(cfg, sys', NextTag(tag), d', p)
  {
    hide System.Reachable, Counting, Completes, Step, Voted, Inv, ValidQC;
    var l := cfg.LeaderOf(1);
    var sys1, q := RoundCollects(cfg, sys, tag, d, p);
    LeaderKnown(cfg);
    RoundSent(cfg, sys, sys1, tag, d, p, q);
    var sys2 := System.Next(cfg, sys1, l, Deliver(VoteMsg(tag, SingleVote(q, d))));
    d' := RData(d.proph, 1, NEW_HASH, 0, NextTag(tag));
    var cert := LeaderGoesOn(cfg, sys1, tag, d, p, q);
    sys' := DeliverAll(cfg, sys2, l, cfg.nodes.Keys - {l}, VoteMsg(tag, cert));
    forall x | x in sys' && x != l ensures Voted(cfg, sys'[x], x, NextTag(tag), d', p) {
      BackupGoesOn(cfg, sys, x, tag, d, p, cert);
    }
  }

  lemma LeaderGoesOn(cfg: Config, sys: System.State, tag: Phase, d: RData, p: Proposal, q: PID) returns (cert: Vote)
    requires cfg.Valid() && System.Reachable(cfg, sys) && cfg.LeaderOf(1) in sys && q in cfg.nodes
    requires exists s :: Counting(cfg, sys[cfg.LeaderOf(1)], tag, d, s, p)
    requires !cfg.IsTEE(cfg.LeaderOf(1)) && (tag == Prepare || tag == PreCommit)
    requires Completes(cfg, sys[cfg.LeaderOf(1)], tag, SingleVote(q, d))
    ensures var l := cfg.LeaderOf(1); var r' := Step(cfg, sys[l], Deliver(VoteMsg(tag, SingleVote(q, d))));
      && cert.data == d && ValidQC(cfg, tag, cert) && VoteMsg(tag, cert) in r'.issued
      && Counting(cfg, r', NextTag(tag), RData(d.proph, 1, NEW_HASH, 0, NextTag(tag)), {l}, p)
  {
    hide System.Reachable, Completes, Step, Inv, ValidQC, ValidVote, OneRecord, Tallied;
    var l := cfg.LeaderOf(1);
    var m := SingleVote(q, d);
    var s :| Counting(cfg, sys[l], tag, d, s, p);
    CountingFacts(cfg, sys[l], tag, d, s, p);
    InvOf(cfg, sys, l);
    FirstVoteValid(cfg, q, d);
    cert := LeaderAdvances(cfg, sys[l], tag, m);
    var r' := Step(cfg, sys[l], Deliver(VoteMsg(tag, m)));
    NextCounting(cfg, sys[l], r', tag, d, s, p, m, cert);
  }

  lemma NextCounting(cfg: Config, r: Replica, r': Replica, tag: Phase, d: RData, s: set<PID>, p: Proposal, m: Vote,
                     cert: Vote)
    requires Counting(cfg, r, tag, d, s, p) && (tag == Prepare || tag == PreCommit)
    requires m.signs != [] && m.data == d && Advanced(cfg, r, r', tag, m, cert)
    ensures Counting(cfg, r', NextTag(tag), RData(d.proph, 1, NEW_HASH, 0, NextTag(tag)), {cfg.LeaderOf(1)}, p)
    ensures VoteMsg(tag, cert) in r'.issued
  {
    hide Tallied, Store;
    var d' := RData(d.proph, 1, NEW_HASH, 0, NextTag(tag));
    var log2 := Counted(cfg, r, tag, m).log;
    assert r.t.view == 1 && r.t.phase == NextTag(tag);
    StoredSlots(r.log, MySlot(cfg, tag, m), m);
    StoredSlots(log2, Slot(NextTag(tag), cfg.IsTEE(r.id), 1), SingleVote(r.id, d'));
    OwnTally(cfg, log2, NextTag(tag), d', r.id);
  }

  lemma BackupGoesOn(cfg: Config, sys: System.State, x: PID, tag: Phase, d: RData, p: Proposal, cert: Vote)
    requires cfg.Valid() && Round(cfg, sys, tag, d, p) && x in sys && x != cfg.LeaderOf(1)
    requires !cfg.IsTEE(cfg.LeaderOf(1)) && (tag == Prepare || tag == PreCommit)
    requires cert.data == d && ValidQC(cfg, tag, cert)
    ensures Voted(cfg, Step(cfg, sys[x], Deliver(VoteMsg(tag, cert))), x, NextTag(tag),
                  RData(d.proph, 1, NEW_HASH, 0, NextTag(tag)), p)
  {
    hide Round, Step, Inv, ValidQC, Voted;
    VotedIn(cfg, sys, x, tag, d, p);
    GoesOn(cfg, sys[x], x, tag, d, p, cert);
  }

  lemma VotedIn(cfg: Config, sys: System.State, x: PID, tag: Phase, d: RData, p: Proposal)
    requires cfg.Valid() && Round(cfg, sys, tag, d, p) && x in sys && x != cfg.LeaderOf(1)
    ensures Voted(cfg, sys[x], x, tag, d, p) && Inv(cfg, sys[x]) && ForBlock(d, p) && d.phase == tag
  {
    hide System.Reachable, Inv, Tallied, Holds;
    assert Voted(cfg, sys[x], x, tag, d, p);
    InvOf(cfg, sys, x);
  }

  lemma GoesOn(cfg: Config, r: Replica, x: PID, tag: Phase, d: RData, p: Proposal, cert: Vote)
    requires cfg.Valid() && Voted(cfg, r, x, tag, d, p) && Inv(cfg, r) && ForBlock(d, p) && d.phase == tag
    requires !cfg.IsTEE(cfg.LeaderOf(1)) && (tag == Prepare || tag == PreCommit)
    requires cert.data == d && ValidQC(cfg, tag, cert)
    ensures Voted(cfg, Step(cfg, r, Deliver(VoteMsg(tag, cert))), x, NextTag(tag),
                  RData(d.proph, 1, NEW_HASH, 0, NextTag(tag)), p)
  {
    hide Step, Inv, ValidQC;
    BackupStores(cfg, r, tag, cert);
  }

  // ---- the result

  /** In every deployment with at least four replicas there is a run without failures in which a transaction
      submitted to the leader of view 1 is in the block that all replicas execute there. */
  lemma EveryDeploymentDecides(cfg: Config, tx: Transaction) returns (sys: System.State, d: RData)
    requires cfg.Valid() && cfg.f > 0
    ensures System.Reachable(cfg, sys) && sys.Keys == cfg.nodes.Keys
    ensures d.propv == 1 && d.proph.digest.Of? && (cfg.maxTxs > 0 ==> tx in d.proph.digest.block.txs)
    ensures forall q :: q in sys ==> [d] <= sys[q].executed
  {
    hide System.Reachable, Opening, HasProposal, Round;
    var sys0 := Opens(cfg, tx);
    var sys1, p := LeaderProposes(cfg, sys0, {cfg.LeaderOf(1)}, [tx]);
    ProposalView(cfg, sys1, p);
    d := LdrData(p);
    var sys2 := AllVote(cfg, sys1, p);
    if cfg.IsTEE(cfg.LeaderOf(1)) {
      sys := RoundDecides(cfg, sys2, d, p);
    } else {
      sys2, d := RoundAdvances(cfg, sys2, Prepare, d, p);
      sys2, d := RoundAdvances(cfg, sys2, PreCommit, d, p);
      RoundData(cfg, sys2, Commit, d, p);
      sys := RoundDecides(cfg, sys2, d, p);
    }
  }

  lemma ProposalView(cfg: Config, sys: System.State, p: Proposal)
    requires HasProposal(cfg, sys, p)
    ensures p.acc.view == 1
  {
  }

  lemma RoundData(cfg: Config, sys: System.State, tag: Phase, d: RData, p: Proposal)
    requires Round(cfg, sys, tag, d, p)
    ensures ForBlock(d, p)
  {
  }
}
