/** What a leader proposes and decides: the new-view threshold, the proposal it makes, and its decisions in
    every run. */
module Leading {
  import opened Types
  import opened Quorums
  import opened Certificates
  import opened TrustedMachine
  import opened VoteLog
  import opened Replicas
  import opened Protocol
  import opened Refinement
  import opened Decisions
  import opened PhaseOrder
  import CatchUp
  import S = Safety
  import A = Agreement
  import L = LeaderRoundTrip
  import System
  import KV = KVStore

  // ---- new-views

  /** The threshold, on the slots of the log: QT trusted new-views when the fast path is on, or 2f+1 in all. */
  lemma ThresholdLaw(cfg: Config, r: Replica, v: View)
    requires cfg.Valid() && Inv(cfg, r)
    ensures var tee, non := Entries(r.log, Slot(NewView, true, v)), Entries(r.log, Slot(NewView, false, v));
      NewViewThreshold(cfg, r.log, v) <==> (cfg.FastQC() && |tee| >= cfg.TQSize()) || |tee| + |non| >= cfg.QSize()
  {
    QuorumSizes(cfg);
    LogHeld(cfg, r);
    hide Inv, LogOk, SlotOk;
    SlotFacts(cfg, r.id, Known(r), r.log, Slot(NewView, true, v));
    TeeEntries(cfg, Slot(NewView, true, v), Entries(r.log, Slot(NewView, true, v)));
  }

  /** A new-view of a view that the replica leads, now or later, is logged, unless its signer's is; and no other
      new-view is. */
  lemma NewViewLogged(cfg: Config, r: Replica, m: Vote)
    requires cfg.Valid() && Inv(cfg, r)
    ensures var r' := Step(cfg, r, Deliver(VoteMsg(NewView, m)));
      if m.data.propv >= r.view && cfg.LeaderOf(m.data.propv) == r.id && ValidVote(cfg, NewView, m) then
        var slot := MySlot(cfg, NewView, m);
        && (forall s: Slot :: s.tag == NewView && s != slot ==> Entries(r'.log, s) == Entries(r.log, s))
        && if m.signs[0].signer in AllSigners(Entries(r.log, slot)) then Entries(r'.log, slot) == Entries(r.log, slot)
           else multiset(Entries(r'.log, slot)) == multiset(Entries(r.log, slot)) + multiset{m}
      else r' == Received(r, Deliver(VoteMsg(NewView, m)))
  {
    hide ValidVote, Inv, LogOk, Step, Store, SlotOk, AllSigners;
    StartedInv(cfg, r);
    LogHeld(cfg, r);
    NewViewHandled(cfg, r, m);
    if m.data.propv >= r.view && Leads(cfg, r, m.data.propv) && ValidVote(cfg, NewView, m) {
      ValidSingle(cfg, NewView, m);
      SlotFacts(cfg, r.id, Known(r), r.log, MySlot(cfg, NewView, m));
      VoteLog.StoreLaw(cfg, r.log, MySlot(cfg, NewView, m), m);
    }
  }

  lemma NewViewHandled(cfg: Config, r: Replica, m: Vote)
    requires cfg.maxSigs > 0 && r.started
    ensures var r0 := Received(r, Deliver(VoteMsg(NewView, m)));
      var r' := Step(cfg, r, Deliver(VoteMsg(NewView, m)));
      if m.data.propv >= r.view && Leads(cfg, r, m.data.propv) && ValidVote(cfg, NewView, m)
      then forall s: Slot :: s.tag == NewView ==>
             Entries(r'.log, s) == Entries(Store(r.log, MySlot(cfg, NewView, m), m).0, s)
      else r' == r0
  {
    hide ValidVote, NewViewThreshold, PrepareComb, HandleLdrPrepare, HandlePrepare, HandlePreCommit, HandleCommit;
    hide Store, Entries;
    if m.data.propv >= r.view && Leads(cfg, r, m.data.propv) && ValidVote(cfg, NewView, m) {
      VoteHasSigner(cfg, NewView, m);
      var r0 := Received(r, Deliver(VoteMsg(NewView, m)));
      PrepareKeepsNewViews(cfg, LogVote(r0, NewView, cfg.IsTEE(m.signs[0].signer), m));
    }
  }

  lemma PrepareKeepsNewViews(cfg: Config, r: Replica)
    requires cfg.maxSigs > 0
    ensures forall s: Slot :: s.tag == NewView ==> Entries(PrepareComb(cfg, r).log, s) == Entries(r.log, s)
  {
    hide ProcessQC, MixIn;
    var tee := GetMsgs(r.log, Slot(NewView, true, r.view), cfg.TQSize());
    var non := GetMsgs(r.log, Slot(NewView, false, r.view), cfg.QSize());
    ProcessKeepsNewViews(cfg, r, tee, cfg.TQSize());
    ProcessKeepsNewViews(cfg, r, MixIn(MixIn([], tee, cfg.QSize()), non, cfg.QSize()), cfg.QSize());
  }

  lemma ProcessKeepsNewViews(cfg: Config, r: Replica, nvs: seq<Vote>, required: nat)
    requires cfg.maxSigs > 0
    ensures forall s: Slot :: s.tag == NewView ==> Entries(ProcessQC(cfg, r, nvs, required).log, s) == Entries(r.log, s)
  {
    hide TeePrepare, NewViewsToAccum, ProofOf, Store, CreateNewBlock, Entries;
    var acc := NewViewsToAccum(cfg, r.id, nvs, required);
    BlockTakesPool(cfg, r, acc.hash);
    var (r1, block) := CreateNewBlock(cfg, r, acc.hash);
    var v := TeePrepare(cfg, r.t, r.id, block, acc, ProofOf(cfg, nvs)).1;
    if v.Some? { StoreElsewhere(r.log, Slot(Prepare, cfg.IsTEE(r.id), v.value.data.propv), v.value); }
  }

  lemma StoreElsewhere(log: LogState, slot: Slot, m: Vote)
    ensures forall s :: s != slot ==> Entries(Store(log, slot, m).0, s) == Entries(log, s)
  {
    hide SetInsert, From;
  }

  // ---- the proposal

  /** What a leader proposes takes the first transactions off its pool, as many as fit, and nothing else. */
  lemma BlockTakesPool(cfg: Config, r: Replica, hash: Hash)
    ensures var (r1, block) := CreateNewBlock(cfg, r, hash);
      && r1 == r.(transactions := r1.transactions)
      && block.isSet && block.prev == hash && block.id == BlockId(r.id, r.view)
      && block.txs + r1.transactions == r.transactions
      && |block.txs| <= cfg.maxTxs && (|block.txs| == cfg.maxTxs || r1.transactions == [])
  {
  }

  /** The number of a block: the digits of its leader's number followed by those of its view. */
  lemma {:induction false} BlockNumber(id: PID, v: View)
    ensures BlockId(id, v) == KV.DigitsValue(KV.Digits(id) + KV.Digits(v))
  {
    if v < 10 {
      KV.DigitsRoundTrip(id);
      OneMoreDigit(KV.Digits(id), v);
    } else {
      BlockNumber(id, v / 10);
      assert KV.Digits(id) + KV.Digits(v) == (KV.Digits(id) + KV.Digits(v / 10)) + [KV.Digit(v % 10)];
      OneMoreDigit(KV.Digits(id) + KV.Digits(v / 10), v % 10);
      Tens(id, Shift10(v / 10));
    }
  }

  lemma OneMoreDigit(s: string, d: nat)
    requires d < 10
    ensures KV.DigitsValue(s + [KV.Digit(d)]) == 10 * KV.DigitsValue(s) + d
  {
    assert (s + [KV.Digit(d)])[..|s|] == s;
  }

  lemma Tens(a: nat, b: nat)
    ensures a * (10 * b) == 10 * (a * b)
  {
  }

  /** The round that a leader's component signs for its proposal. */
  function ProposalRound(t: Trusted, p: Proposal): RData {
    RData(Hash(Of(p.block), true), t.view, p.acc.hash, p.acc.prepv, t.phase)
  }

  /** From r to r' the leader has proposed p: the block takes the first transactions off the pool and extends the
      accumulated hash, the proposal and the leader's vote are sent, and that vote is logged too. */
  predicate ProposedOne(cfg: Config, r: Replica, r': Replica, p: Proposal) {
    var vote := SingleVote(r.id, ProposalRound(r.t, p));
    && r' == r.(t := r'.t, signed := r.signed + [vote.data], transactions := r'.transactions,
                processedNewViews := r.processedNewViews + {r.view}, blocks := r.blocks[r.view := p.block],
                issued := r.issued + {LdrMsg(p)} + {VoteMsg(Prepare, vote)}, log := r'.log)
    && r'.log == Store(r.log, Slot(Prepare, cfg.IsTEE(r.id), r.t.view), vote).0
    && StateKey(r'.t) == StateKey(r.t) + 1
    && p.acc.view == r.t.view && p.sign == vote.signs[0] && p.block.isSet && p.block.prev == p.acc.hash
    && p.block.txs + r'.transactions == r.transactions
    && |p.block.txs| <= cfg.maxTxs && (|p.block.txs| == cfg.maxTxs || r'.transactions == [])
  }

  lemma ProcessProposes(cfg: Config, r: Replica, nvs: seq<Vote>, required: nat) returns (p: Proposal)
    requires cfg.maxSigs > 0 && r.view !in r.processedNewViews && Accepts(cfg, r, nvs, required)
    ensures ProposedOne(cfg, r, ProcessQC(cfg, r, nvs, required), p)
  {
    hide TeePrepare, NewViewsToAccum, ProofOf, CreateNewBlock, Store, ProcessQC;
    var txs, t, vote;
    txs, p, t, vote := ProcessQCAccepted(cfg, r, nvs, required);
    AcceptanceLaw(cfg, r.t, r.id, p.block, p.acc, p.proof);
    AcceptedView(cfg, r, p);
    BlockTakesPool(cfg, r, p.acc.hash);
  }

  lemma AcceptedView(cfg: Config, r: Replica, p: Proposal)
    requires TeePrepare(cfg, r.t, r.id, p.block, p.acc, p.proof).1.Some?
    ensures p.acc.view == r.t.view
  {
    AcceptedProposal(cfg, r.t, r.id, p.block, p.acc, p.proof);
  }

  lemma HandOverProposes(cfg: Config, r: Replica) returns (p: Proposal)
    requires cfg.maxSigs > 0 && r.view !in r.processedNewViews && AcceptsHandOver(cfg, r)
    ensures ProposedOne(cfg, r, PrepareComb(cfg, r), p)
  {
    hide ProcessQC, Accepts, MixIn, ProposedOne;
    var tee := GetMsgs(r.log, Slot(NewView, true, r.view), cfg.TQSize());
    var non := GetMsgs(r.log, Slot(NewView, false, r.view), cfg.QSize());
    if cfg.FastQC() && |tee| >= cfg.TQSize() {
      p := ProcessProposes(cfg, r, tee, cfg.TQSize());
    } else {
      p := ProcessProposes(cfg, r, MixIn(MixIn([], tee, cfg.QSize()), non, cfg.QSize()), cfg.QSize());
    }
  }

  /** The leader after it has logged the new-view m. */
  function WithNewView(cfg: Config, r: Replica, m: Vote): Replica
    requires m.signs != []
  {
    Counted(cfg, Received(r, Deliver(VoteMsg(NewView, m))), NewView, m)
  }

  /** What a new-view that makes the leader propose leads to. */
  lemma ProposalLaw(cfg: Config, r: Replica, m: Vote) returns (p: Proposal)
    requires cfg.maxSigs > 0 && r.started && Proposes(cfg, Received(r, Deliver(VoteMsg(NewView, m))), m)
    ensures m.signs != [] && var r' := Step(cfg, r, Deliver(VoteMsg(NewView, m)));
      r'.phase == Prepare && ProposedOne(cfg, WithNewView(cfg, r, m), r'.(phase := NewView), p)
  {
    VoteHasSigner(cfg, NewView, m);
    hide AcceptsHandOver, ValidVote, Store, PrepareComb, ProposedOne, NewViewThreshold;
    hide HandleLdrPrepare, HandlePrepare, HandlePreCommit, HandleCommit;
    var r1 := WithNewView(cfg, r, m);
    p := HandOverProposes(cfg, r1);
    ProposedView(cfg, r1, PrepareComb(cfg, r1), p);
  }

  lemma ProposedView(cfg: Config, r: Replica, r': Replica, p: Proposal)
    requires ProposedOne(cfg, r, r', p)
    ensures r'.view == r.view && r'.view in r'.processedNewViews && r'.phase == r.phase
  {
    hide Store;
  }

  /** The proposal test: exactly what the leader of the view has signed, for this block and this accumulator, and an
      accumulator that the leader has signed too. */
  lemma ProposalTest(cfg: Config, p: Proposal)
    requires cfg.Valid()
    ensures var leader := cfg.LeaderOf(p.acc.view);
      var d := RData(Hash(Of(p.block), true), p.acc.view, p.acc.hash, p.acc.prepv, Prepare);
      VerifyLdrPrepare(cfg, p) <==>
        && p.sign == Sign(true, leader, RoundText(d))
        && p.acc.isSet && p.acc.sign.signer == leader
        && p.acc.sign.text == AccumText(true, p.acc.view, p.acc.prepv, p.acc.hash, p.acc.size)
  {
    LeadersTakeTurns(cfg, p.acc.view);
    assert [p.sign][0] == p.sign && [p.acc.sign][0] == p.acc.sign;
  }

  // ---- catching up as a leader

  /** In every run, a leader that enters a view whose new-view threshold its log already meets proposes there,
      whatever phase its handler is in. */
  lemma CatchUpProposesInEveryRun(cfg: Config, sys: System.State, q: PID)
    requires cfg.Valid() && System.Reachable(cfg, sys) && q in sys && sys[q].started
    requires cfg.LeaderOf(sys[q].view + 1) == q && sys[q].view + 1 !in sys[q].processedNewViews
    requires NewViewThreshold(cfg, sys[q].log, sys[q].view + 1)
    ensures var r' := Step(cfg, sys[q], Timeout);
      r'.view == sys[q].view + 1 && r'.view in r'.processedNewViews
  {
    hide System.Reachable, System.Good, NewViewThreshold, PrepareComb, Step, StartNewView, HandleNewView, Inv, Refines;
    hide HandleEarlier, S.Inv;
    System.ReachableGood(cfg, sys);
    System.GoodAt(cfg, sys, q);
    var r3, v := CatchUp.EntersWith(cfg, sys[q]);
    EnteredGood(cfg, sys, q, r3);
    var sys3: System.State := sys[q := r3];
    assert sys3[q] == r3 && q in cfg.nodes by { InSystem(cfg, sys, q); }
    RefinedInv(cfg, sys[q], r3);
    StartedInv(cfg, r3);
    L.ProposalSucceeds(cfg, sys3, q);
    EarlierPrepares(cfg, r3);
    PrepareView(cfg, r3);
    KeepsProcessed(cfg, PrepareComb(cfg, r3), v);
    HandleNewViewView(cfg, PrepareComb(cfg, r3), v);
    TimesOut(cfg, sys[q]);
    assert Leads(cfg, r3, r3.view);
  }

  lemma InSystem(cfg: Config, sys: System.State, q: PID)
    requires System.Good(cfg, sys) && q in sys
    ensures q in cfg.nodes
  {
    hide System.ReplicaOk, S.NodeOk, S.MsgOk;
    assert q in System.World(sys);
  }

  lemma EarlierPrepares(cfg: Config, r: Replica)
    requires cfg.maxSigs > 0 && Leads(cfg, r, r.view) && NewViewThreshold(cfg, r.log, r.view)
    ensures HandleEarlier(cfg, r) == PrepareComb(cfg, r)
  {
    hide PrepareComb, NewViewThreshold;
  }

  lemma KeepsProcessed(cfg: Config, r: Replica, m: Vote)
    requires cfg.maxSigs > 0
    ensures r.processedNewViews <= HandleNewView(cfg, r, m).processedNewViews
  {
    hide NewViewThreshold, ValidVote, Store, PrepareComb;
    if m.data.propv >= r.view && Leads(cfg, r, m.data.propv) && ValidVote(cfg, NewView, m) {
      VoteHasSigner(cfg, NewView, m);
      PrepareProcessed(cfg, LogVote(r, NewView, cfg.IsTEE(m.signs[0].signer), m));
    }
  }

  lemma PrepareProcessed(cfg: Config, r: Replica)
    requires cfg.maxSigs > 0
    ensures r.processedNewViews <= PrepareComb(cfg, r).processedNewViews
  {
    hide ProcessQC, MixIn;
    var tee := GetMsgs(r.log, Slot(NewView, true, r.view), cfg.TQSize());
    var non := GetMsgs(r.log, Slot(NewView, false, r.view), cfg.QSize());
    ProcessProcessed(cfg, r, tee, cfg.TQSize());
    ProcessProcessed(cfg, r, MixIn(MixIn([], tee, cfg.QSize()), non, cfg.QSize()), cfg.QSize());
  }

  lemma ProcessProcessed(cfg: Config, r: Replica, nvs: seq<Vote>, required: nat)
    requires cfg.maxSigs > 0
    ensures r.processedNewViews <= ProcessQC(cfg, r, nvs, required).processedNewViews
  {
    hide TeePrepare, NewViewsToAccum, Store, ProofOf;
  }

  /** The system in which a replica has entered its next view and done nothing else. */
  lemma EnteredGood(cfg: Config, sys: System.State, q: PID, r3: Replica)
    requires cfg.Valid() && System.Good(cfg, sys) && q in sys && sys[q].started && Refines(cfg, sys[q], r3)
    ensures System.Good(cfg, sys[q := r3])
  {
    hide S.Inv, Inv, Reaches, S.NodeOk, System.Good;
    System.GoodAt(cfg, sys, q);
    RefinedReaches(cfg, sys[q], r3);
    System.RanFrom(cfg, System.World(sys), q, Abs(r3));
    RefinedOk(cfg, sys[q], r3, q);
    System.ReplaceGood(cfg, sys, q, r3);
  }

  lemma RefinedReaches(cfg: Config, a: Replica, b: Replica)
    requires Refines(cfg, a, b)
    ensures Reaches(cfg, Abs(a), Abs(b))
  {
    hide Inv;
  }

  lemma RefinedOk(cfg: Config, a: Replica, b: Replica, q: PID)
    requires Refines(cfg, a, b) && a.id == q
    ensures System.ReplicaOk(cfg, b, q)
  {
    hide Inv;
    var acts :| Runs(cfg, Abs(a), acts, Abs(b));
    RunsId(cfg, Abs(a), acts, Abs(b));
  }

  // ---- decisions in every run

  /** In every run, any two votes that were sent for one view in messages of their own phase are for one record. */
  lemma SentVotesAgree(cfg: Config, w: S.World, tag: Phase, v1: Vote, v2: Vote)
    requires S.Inv(cfg, w) && S.Sent(w, VoteMsg(tag, v1)) && S.Sent(w, VoteMsg(tag, v2)) && tag != NewView
    requires v1.data.phase == tag == v2.data.phase && v1.data.propv == v2.data.propv
    ensures v1.data == v2.data
  {
    hide S.NodeOk, S.SignOk, S.ProposedAt, S.ProposedData;
    assert S.MsgOk(cfg, w, VoteMsg(tag, v1)) && S.MsgOk(cfg, w, VoteMsg(tag, v2));
    hide S.Inv;
    if tag == Prepare {
      OneProposedRecord(cfg, w, v1.data, v2.data);
    } else {
      A.OneProposal(cfg, w, v1.data.propv, v1.data.proph, v2.data.proph);
    }
  }

  lemma OneProposedRecord(cfg: Config, w: S.World, d1: RData, d2: RData)
    requires S.Inv(cfg, w) && S.ProposedData(cfg, w, d1) && S.ProposedData(cfg, w, d2) && d1.propv == d2.propv
    ensures d1 == d2
  {
    var _ := A.ProposalFacts(cfg, w, d1);
    var _ := A.ProposalFacts(cfg, w, d2);
    hide S.ProposedData, S.MsgOk;
    assert S.NodeOk(cfg, w, w[cfg.LeaderOf(d1.propv)]);
    OneRecordPerRound(w[cfg.LeaderOf(d1.propv)].signed, d1, d2);
  }

  /** The votes logged for a message type and view are signed in the phase of that type. */
  predicate LoggedInPhase(log: LogState, tag: Phase, v: View) {
    forall tee, x :: x in Entries(log, Slot(tag, tee, v)) ==> x.data.phase == tag
  }

  lemma OneRecordInRun(cfg: Config, sys: System.State, q: PID, tag: Phase, m: Vote)
    requires System.Good(cfg, sys) && q in sys && sys[q].started && System.WasSent(sys, VoteMsg(tag, m))
    requires tag != NewView && m.data.phase == tag && LoggedInPhase(sys[q].log, tag, m.data.propv)
    ensures OneRecord(sys[q].log, tag, m.data)
  {
    var r, w := sys[q], System.World(sys);
    hide System.Good, S.Inv, S.NodeOk, Inv, S.Sent;
    System.GoodAt(cfg, sys, q);
    LogHeld(cfg, r);
    System.WasSentIsSent(sys, VoteMsg(tag, m));
    forall tee, x | x in Entries(r.log, Slot(tag, tee, m.data.propv)) ensures x.data == m.data {
      LoggedSent(cfg, sys, q, Slot(tag, tee, m.data.propv), x);
      SentVotesAgree(cfg, w, tag, x, m);
    }
  }

  lemma LoggedSent(cfg: Config, sys: System.State, q: PID, slot: Slot, x: Vote)
    requires System.Good(cfg, sys) && q in sys && sys[q].started && x in Entries(sys[q].log, slot)
    ensures S.Sent(System.World(sys), VoteMsg(slot.tag, x)) && x.data.propv == slot.view
  {
    hide System.Good, S.Inv, S.NodeOk, LogOk;
    System.GoodAt(cfg, sys, q);
    LogHeld(cfg, sys[q]);
    hide Inv;
    SlotFacts(cfg, q, Known(sys[q]), sys[q].log, slot);
    assert EntryInLog(cfg, q, Known(sys[q]), slot, x);
    KnownWasSent(cfg, sys, q, VoteMsg(slot.tag, x));
  }

  lemma KnownWasSent(cfg: Config, sys: System.State, q: PID, m: Msg)
    requires System.Good(cfg, sys) && q in sys && m in Known(sys[q])
    ensures S.Sent(System.World(sys), m)
  {
    hide S.Inv, Inv;
    System.GoodAt(cfg, sys, q);
    S.KnownSent(cfg, System.World(sys), q, m);
  }

  /** In every run, a leader in its deciding phase decides on any sent vote that completes its certificate. */
  lemma LeaderDecidesInEveryRun(cfg: Config, sys: System.State, q: PID, m: Vote) returns (cert: Vote)
    requires cfg.Valid() && System.Reachable(cfg, sys) && q in sys && sys[q].started
    requires var r := sys[q]; var tag := FinalPhase(cfg, r.view);
      && Handles(cfg, r, tag, m) && ValidVote(cfg, tag, m) && System.WasSent(sys, VoteMsg(tag, m))
      && r.phase == tag && Completes(cfg, r, tag, m) && LoggedInPhase(r.log, tag, r.view)
    ensures var r := sys[q]; var tag := FinalPhase(cfg, r.view);
      var r' := Step(cfg, r, Deliver(VoteMsg(tag, m)));
      && cert.data == m.data && ValidQC(cfg, tag, cert) && VoteMsg(tag, cert) in r'.issued
      && (Wanted(r, m.data) ==> Decides(cfg, r, r', m.data))
  {
    var tag := FinalPhase(cfg, sys[q].view);
    hide System.Reachable, System.Good, Completes, ValidVote, System.WasSent, Step, Inv, LoggedInPhase, OneRecord;
    hide S.Inv;
    System.ReachableGood(cfg, sys);
    System.GoodAt(cfg, sys, q);
    InPhaseData(cfg, tag, m);
    OneRecordInRun(cfg, sys, q, tag, m);
    hide ValidQC, Decides, Wanted;
    cert := LeaderDecides(cfg, sys[q], m);
  }

  lemma InPhaseData(cfg: Config, tag: Phase, m: Vote)
    requires ValidVote(cfg, tag, m)
    ensures m.data.phase == tag
  {
  }
}
