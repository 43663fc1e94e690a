/** A deployment of one replica never decides: the leader logs its own vote without counting it, and no other vote
    arrives. */
module SingleReplica {
  import opened Types
  import opened Quorums
  import opened Certificates
  import opened TrustedMachine
  import opened VoteLog
  import opened Replicas
  import opened Protocol
  import opened Refinement
  import opened Decisions
  import opened PhaseOrder
  import CatchUp
  import Leading
  import D = Deployments
  import System

  /** Nothing is executed, and every vote made is in the own log already. */
  ghost predicate Lone(cfg: Config, r: Replica) {
    && r.executed == [] && (forall v :: cfg.LeaderOf(v) == r.id)
    && forall tag, m :: VoteMsg(tag, m) in r.issued && tag != NewView ==> Logged(cfg, r, tag, m)
  }

  ghost predicate Logged(cfg: Config, r: Replica, tag: Phase, m: Vote) {
    && |m.signs| == 1 && m.signs[0].signer == r.id
    && r.id in AllSigners(Entries(r.log, Slot(tag, cfg.IsTEE(r.id), m.data.propv)))
  }

  // ---- the log keeps its signers

  lemma StoreKeepsSigners(cfg: Config, log: LogState, slot: Slot, m: Vote)
    requires SlotOk(cfg, slot, Entries(log, slot)) && Single(cfg, slot.tee, m)
    ensures var log' := Store(log, slot, m).0;
      && m.signs[0].signer in AllSigners(Entries(log', slot))
      && forall s :: AllSigners(Entries(log, s)) <= AllSigners(Entries(log', s))
  {
    hide SlotOk, AllSigners, Store;
    VoteLog.StoreLaw(cfg, log, slot, m);
    var log' := Store(log, slot, m).0;
    if m.signs[0].signer !in AllSigners(Entries(log, slot)) {
      D.SignersPlus(cfg, slot, Entries(log, slot), Entries(log', slot), m);
    }
  }

  /** One vote logged, made by the replica itself or not. */
  lemma LogsVote(cfg: Config, r: Replica, tag: Phase, tee: bool, m: Vote)
    requires Inv(cfg, r) && Lone(cfg, r) && |m.signs| == 1 && Single(cfg, tee, m)
    ensures Lone(cfg, LogVote(r, tag, tee, m))
    ensures m.signs[0].signer in AllSigners(Entries(LogVote(r, tag, tee, m).log, Slot(tag, tee, m.data.propv)))
  {
    LogHeld(cfg, r);
    hide Inv, LogOk, AllSigners, Store, Entries, SlotOk, Single;
    SlotFacts(cfg, r.id, Known(r), r.log, Slot(tag, tee, m.data.propv));
    StoreKeepsSigners(cfg, r.log, Slot(tag, tee, m.data.propv), m);
  }

  // ---- proposing

  lemma ProcessesAlone(cfg: Config, r: Replica, nvs: seq<Vote>, required: nat)
    requires cfg.Valid() && Inv(cfg, r) && Lone(cfg, r)
    ensures Lone(cfg, ProcessQC(cfg, r, nvs, required))
  {
    hide TeePrepare, NewViewsToAccum, ProofOf, LogVote, CreateNewBlock, Inv, Lone;
    if r.view !in r.processedNewViews {
      var acc := NewViewsToAccum(cfg, r.id, nvs, required);
      Leading.BlockTakesPool(cfg, r, acc.hash);
      if Accepts(cfg, r, nvs, required) {
        var p := Leading.ProcessProposes(cfg, r, nvs, required);
        ProposedAlone(cfg, r, ProcessQC(cfg, r, nvs, required), p);
      } else {
        SameLone(cfg, r, ProcessQC(cfg, r, nvs, required));
      }
    }
  }

  lemma SameLone(cfg: Config, r: Replica, r': Replica)
    requires Lone(cfg, r) && r'.id == r.id && r'.issued == r.issued && r'.log == r.log && r'.executed == r.executed
    ensures Lone(cfg, r')
  {
    hide AllSigners, Entries;
  }

  lemma ProposedAlone(cfg: Config, r: Replica, r': Replica, p: Proposal)
    requires cfg.Valid() && Inv(cfg, r) && Lone(cfg, r) && Leading.ProposedOne(cfg, r, r', p)
    ensures Lone(cfg, r')
  {
    hide Inv, AllSigners, Entries, Store, Known, BlockHash, SlotOk;
    var vote := SingleVote(r.id, Leading.ProposalRound(r.t, p));
    KnownMember(cfg, r);
    LogsVote(cfg, r, Prepare, cfg.IsTEE(r.id), vote);
  }

  lemma KnownMember(cfg: Config, r: Replica)
    requires Inv(cfg, r)
    ensures r.id in cfg.nodes && r.started
  {
    hide LogOk, FutureOk;
  }

  lemma PreparesAlone(cfg: Config, r: Replica)
    requires cfg.Valid() && Inv(cfg, r) && Lone(cfg, r)
    ensures Lone(cfg, PrepareComb(cfg, r))
  {
    hide ProcessQC, MixIn, Lone, Inv;
    var tee := GetMsgs(r.log, Slot(NewView, true, r.view), cfg.TQSize());
    var non := GetMsgs(r.log, Slot(NewView, false, r.view), cfg.QSize());
    ProcessesAlone(cfg, r, tee, cfg.TQSize());
    ProcessesAlone(cfg, r, MixIn(MixIn([], tee, cfg.QSize()), non, cfg.QSize()), cfg.QSize());
  }

  lemma HandlesNewView(cfg: Config, r: Replica, m: Vote)
    requires cfg.Valid() && Inv(cfg, r) && Lone(cfg, r) && VoteMsg(NewView, m) in Known(r)
    ensures Lone(cfg, HandleNewView(cfg, r, m))
  {
    hide PrepareComb, LogVote, NewViewThreshold, ValidVote, Lone, Inv, Refines;
    if m.data.propv >= r.view && Leads(cfg, r, m.data.propv) && ValidVote(cfg, NewView, m) {
      ValidSingle(cfg, NewView, m);
      var tee := cfg.IsTEE(m.signs[0].signer);
      EntryOfVote(cfg, r, m);
      LogVoteKeeps(cfg, r, NewView, tee, m);
      var r1 := LogVote(r, NewView, tee, m);
      RefinedInv(cfg, r, r1);
      LogsVote(cfg, r, NewView, tee, m);
      PreparesAlone(cfg, r1);
      SameLone(cfg, PrepareComb(cfg, r1), PrepareComb(cfg, r1).(phase := Prepare));
    }
  }

  lemma EntryOfVote(cfg: Config, r: Replica, m: Vote)
    requires Leads(cfg, r, m.data.propv) && ValidVote(cfg, NewView, m) && VoteMsg(NewView, m) in Known(r)
    ensures EntryInLog(cfg, r.id, Known(r), Slot(NewView, cfg.IsTEE(m.signs[0].signer), m.data.propv), m)
  {
  }

  // ---- every event

  lemma EntersAlone(cfg: Config, r: Replica)
    requires cfg.Valid() && Inv(cfg, r) && Lone(cfg, r)
    ensures Lone(cfg, StartNewView(cfg, r))
  {
    hide Inv, Refines, HandleEarlier, HandleNewView, StartNewView, Lone, Known;
    var r3, v := CatchUp.EntersWith(cfg, r);
    RefinedInv(cfg, r, r3);
    NewViewAdded(cfg, r, r3, v);
    var r4 := HandleEarlier(cfg, r3);
    HandleEarlierRefines(cfg, r3);
    RefinedInv(cfg, r3, r4);
    EarlierAlone(cfg, r3);
    Forward(cfg, r3, r4);
    StillKnown(r3, r4, VoteMsg(NewView, v));
    HandlesNewView(cfg, r4, v);
  }

  lemma StillKnown(r: Replica, r': Replica, m: Msg)
    requires m in r.issued && r.issued <= r'.issued
    ensures m in Known(r')
  {
  }

  lemma NewViewAdded(cfg: Config, r: Replica, r3: Replica, v: Vote)
    requires Lone(cfg, r) && r3.id == r.id && r3.log == r.log && r3.executed == r.executed
    requires r3.issued == r.issued + {VoteMsg(NewView, v)}
    ensures Lone(cfg, r3) && Leads(cfg, r3, r3.view) && VoteMsg(NewView, v) in r3.issued
  {
    hide AllSigners, Entries;
  }

  lemma EarlierAlone(cfg: Config, r: Replica)
    requires cfg.Valid() && Inv(cfg, r) && Lone(cfg, r) && Leads(cfg, r, r.view)
    ensures Lone(cfg, HandleEarlier(cfg, r))
  {
    hide PrepareComb, NewViewThreshold, Inv, Lone;
    PreparesAlone(cfg, r);
  }

  /** A vote that is already in the log completes nothing. */
  lemma VoteAlone(cfg: Config, r: Replica, tag: Phase, m: Vote)
    requires cfg.Valid() && Inv(cfg, r) && Lone(cfg, r) && VoteMsg(tag, m) in r.issued && tag != NewView
    ensures Lone(cfg, Step(cfg, r, Deliver(VoteMsg(tag, m))))
  {
    var r0 := Received(r, Deliver(VoteMsg(tag, m)));
    KnownMember(cfg, r);
    InboxGrows(cfg, r, VoteMsg(tag, m));
    LoggedAlready(cfg, r, tag, m);
    hide Inv, Step, Lone, Completes, ValidQC, ValidVote, Store, LogVote;
    SameLone(cfg, r, r0);
    if m.data.propv == r.view {
      LeadsAll(cfg, r);
      LeaderCounts(cfg, r, tag, m);
      if ValidVote(cfg, tag, m) {
        ValidSingle(cfg, tag, m);
        LogsVote(cfg, r0, tag, cfg.IsTEE(m.signs[0].signer), m);
        CountedIs(cfg, r0, tag, m);
      }
    } else if m.data.propv > r.view {
      EarlyHandled(cfg, r, tag, m);
      if ValidVote(cfg, tag, m) {
        ValidSingle(cfg, tag, m);
        LogsVote(cfg, r0, tag, cfg.IsTEE(m.signs[0].signer), m);
      }
      CachedAlone(cfg, r0, tag, m);
    } else {
      LateHandled(cfg, r, tag, m);
    }
  }

  lemma CountedIs(cfg: Config, r: Replica, tag: Phase, m: Vote)
    requires m.signs != []
    ensures Counted(cfg, r, tag, m) == LogVote(r, tag, cfg.IsTEE(m.signs[0].signer), m)
  {
    hide Store;
  }

  lemma LeadsAll(cfg: Config, r: Replica)
    requires Lone(cfg, r)
    ensures cfg.LeaderOf(r.view) == r.id
  {
  }

  lemma LoggedAlready(cfg: Config, r: Replica, tag: Phase, m: Vote)
    requires Lone(cfg, r) && VoteMsg(tag, m) in r.issued && tag != NewView
    ensures |m.signs| == 1 && !Completes(cfg, r, tag, m)
  {
    hide Entries, AllSigners;
    assert Logged(cfg, r, tag, m);
  }

  lemma CachedAlone(cfg: Config, r: Replica, tag: Phase, m: Vote)
    requires Lone(cfg, r) && |m.signs| == 1
    requires ValidVote(cfg, tag, m) ==> Lone(cfg, LogVote(r, tag, cfg.IsTEE(m.signs[0].signer), m))
    ensures Lone(cfg, StoreFuture(cfg, r, tag, m))
  {
    hide ValidQC, ValidVote, LogVote, Lone;
    SameLone(cfg, r, r.(future := StoreFuture(cfg, r, tag, m).future));
  }

  lemma LateHandled(cfg: Config, r: Replica, tag: Phase, m: Vote)
    requires cfg.maxSigs > 0 && r.started && m.data.propv < r.view && tag != NewView
    ensures Step(cfg, r, Deliver(VoteMsg(tag, m))) == Received(r, Deliver(VoteMsg(tag, m)))
  {
    hide HandleLdrPrepare, HandleNewView, CountVote, ValidQC, ValidVote;
  }

  lemma StepAlone(cfg: Config, r: Replica, e: Event)
    requires cfg.Valid() && Inv(cfg, r) && Lone(cfg, r) && (e.Deliver? ==> e.msg in r.issued)
    ensures Lone(cfg, Step(cfg, r, e))
  {
    KnownMember(cfg, r);
    LeadsAll(cfg, r);
    match e
    case Submit(tx) => hide Lone, Inv; SameLone(cfg, r, Step(cfg, r, e));
    case Start =>
    case Timeout =>
      hide Lone, Inv, StartNewView;
      EntersAlone(cfg, r);
    case Deliver(m) =>
      var r0 := Received(r, e);
      InboxGrows(cfg, r, m);
      match m {
        case LdrMsg(p) =>
          ProposalIgnored(cfg, r, p);
          hide Lone, Inv, Step;
          SameLone(cfg, r, r0);
        case VoteMsg(tag, v) =>
          if tag == NewView {
            NewViewStep(cfg, r, v);
            hide Lone, Inv, Step, HandleNewView;
            SameLone(cfg, r, r0);
            HandlesNewView(cfg, r0, v);
          } else {
            hide Lone, Inv, Step;
            VoteAlone(cfg, r, tag, v);
          }
      }
  }

  lemma NewViewStep(cfg: Config, r: Replica, v: Vote)
    requires cfg.maxSigs > 0 && r.started
    ensures var r0 := Received(r, Deliver(VoteMsg(NewView, v)));
      Step(cfg, r, Deliver(VoteMsg(NewView, v))) == HandleNewView(cfg, r0, v)
  {
    hide HandleNewView, HandleLdrPrepare, HandlePrepare, HandlePreCommit, HandleCommit;
  }

  lemma ProposalIgnored(cfg: Config, r: Replica, p: Proposal)
    requires cfg.maxSigs > 0 && r.started && Lone(cfg, r)
    ensures Step(cfg, r, Deliver(LdrMsg(p))) == Received(r, Deliver(LdrMsg(p)))
  {
    hide HandleNewView, HandlePrepare, HandlePreCommit, HandleCommit, RespondToLdrPrepare, VerifyLdrPrepare;
  }

  lemma StartsAlone(cfg: Config, r: Replica)
    requires cfg.Valid() && cfg.f == 0 && Fresh(r) && r.id in cfg.nodes
    ensures Lone(cfg, Step(cfg, r, Start))
  {
    OnlyLeader(cfg);
    Begins(cfg, r.id, r.transactions);
    var r1 := Begun(r.id).(transactions := r.transactions);
    assert Lone(cfg, r1);
    BegunInv(cfg, r);
    hide HandleNewView, Step, Inv, Lone;
    HandlesNewView(cfg, r1, SingleVote(r.id, FIRST_ROUND));
  }

  lemma OnlyLeader(cfg: Config)
    requires cfg.Valid() && cfg.f == 0
    ensures cfg.nodes.Keys == {0} && forall v :: cfg.LeaderOf(v) == 0
  {
    assert Range(1) == Range(0) + {0} == {0};
    forall v ensures cfg.LeaderOf(v) == 0 { LeadersTakeTurns(cfg, v); }
  }

  lemma BegunInv(cfg: Config, r: Replica)
    requires cfg.Valid() && Fresh(r) && r.id in cfg.nodes
    ensures Inv(cfg, Begun(r.id).(transactions := r.transactions))
  {
  }

  // ---- every run

  lemma {:induction false} RunAlone(cfg: Config, states: seq<System.State>, schedule: seq<System.Occurrence>, i: nat)
    requires cfg.Valid() && cfg.f == 0 && System.IsRun(cfg, states, schedule) && i <= |schedule|
    ensures AllLone(cfg, states[i]) && states[i].Keys == {0}
  {
    hide AllLone, System.Happens, System.WasSent, System.Good;
    OnlyLeader(cfg);
    if i == 0 {
      InitialAlone(cfg);
    } else {
      RunAlone(cfg, states, schedule, i - 1);
      System.RunGood(cfg, states, schedule, i - 1);
      assert states[i - 1 + 1] == System.Happens(cfg, states[i - 1], schedule[i - 1]);
      HappensAlone(cfg, states[i - 1], schedule[i - 1]);
    }
  }

  ghost predicate AllLone(cfg: Config, sys: System.State) {
    forall q :: q in sys ==> sys[q].executed == [] && (sys[q].started ==> Lone(cfg, sys[q]))
  }

  lemma InitialAlone(cfg: Config)
    ensures AllLone(cfg, System.InitialSystem(cfg))
  {
    hide Lone;
  }

  lemma HappensAlone(cfg: Config, sys: System.State, o: System.Occurrence)
    requires cfg.Valid() && cfg.f == 0 && System.Good(cfg, sys) && AllLone(cfg, sys) && sys.Keys == {0}
    requires System.Possible(sys, o)
    ensures AllLone(cfg, System.Happens(cfg, sys, o)) && System.Happens(cfg, sys, o).Keys == {0}
  {
    hide System.Good, Inv, Lone, Step;
    var r := sys[o.at];
    OnlyLeader(cfg);
    if r.started {
      StartedStep(cfg, sys, o);
      ExecutedNothing(cfg, Step(cfg, r, o.event));
    } else {
      FreshStep(cfg, sys, o);
    }
  }

  lemma StartedStep(cfg: Config, sys: System.State, o: System.Occurrence)
    requires cfg.Valid() && System.Good(cfg, sys) && sys.Keys == {0} && System.Possible(sys, o)
    requires sys[o.at].started && Lone(cfg, sys[o.at])
    ensures Lone(cfg, Step(cfg, sys[o.at], o.event))
  {
    hide System.Good, Inv, Lone, Step;
    System.GoodAt(cfg, sys, o.at);
    StepAlone(cfg, sys[o.at], o.event);
  }

  lemma ExecutedNothing(cfg: Config, r: Replica)
    requires Lone(cfg, r)
    ensures r.executed == []
  {
  }

  lemma FreshStep(cfg: Config, sys: System.State, o: System.Occurrence)
    requires cfg.Valid() && cfg.f == 0 && System.Good(cfg, sys) && o.at in sys && o.at in cfg.nodes
    requires !sys[o.at].started
    ensures var r' := Step(cfg, sys[o.at], o.event); r'.executed == [] && (r'.started ==> Lone(cfg, r'))
  {
    hide System.Good, Lone, Fresh, Step;
    var r := sys[o.at];
    FreshAt(cfg, sys, o.at);
    if o.event == Start {
      StartsAlone(cfg, r);
      ExecutedNothing(cfg, Step(cfg, r, Start));
    } else {
      StaysFresh(cfg, r, o.event);
    }
  }

  lemma FreshAt(cfg: Config, sys: System.State, q: PID)
    requires System.Good(cfg, sys) && q in sys && !sys[q].started
    ensures Fresh(sys[q]) && sys[q].id == q
  {
    hide System.S.Inv, LogOk, FutureOk;
    assert System.ReplicaOk(cfg, sys[q], q);
  }

  lemma StaysFresh(cfg: Config, r: Replica, e: Event)
    requires cfg.maxSigs > 0 && Fresh(r) && e != Start
    ensures var r' := Step(cfg, r, e); r'.executed == [] && !r'.started
  {
    hide HandleMsg, StartNewView, GetStarted;
  }

  /** In no run does the replica of a deployment of one replica execute anything. */
  lemma SingleReplicaNeverDecides(cfg: Config, sys: System.State, q: PID)
    requires cfg.Valid() && cfg.f == 0 && System.Reachable(cfg, sys) && q in sys
    ensures sys[q].executed == []
  {
    var states, schedule :| System.IsRun(cfg, states, schedule) && states[|schedule|] == sys;
    hide Lone, System.IsRun;
    RunAlone(cfg, states, schedule, |schedule|);
  }
}
