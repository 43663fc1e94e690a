/** What a replica answers: when it decides, votes and issues certificates, read off the message and the state
    before the event, for arbitrary messages. */
module Decisions {
  import opened Types
  import opened Quorums
  import opened Certificates
  import opened TrustedMachine
  import opened SignLists
  import opened VoteLog
  import opened Replicas
  import opened Protocol
  import opened Refinement
  import opened CatchUp

  /** From r to r' the round data d was executed next; unless that was the last of maxViews views, a later view
      has been entered. */
  ghost predicate Decides(cfg: Config, r: Replica, r': Replica, d: RData) {
    && r.executed + [d] <= r'.executed && d.propv in r'.processedCommit && r.issued <= r'.issued
    && if cfg.maxViews > 0 && |r.processedCommit| + 1 >= cfg.maxViews
       then r'.view == r.view && r'.executed == r.executed + [d] else r'.view > r.view
  }

  /** Nothing was executed and no view entered. */
  predicate Undecided(r: Replica, r': Replica) {
    r'.view == r.view && r'.processedCommit == r.processedCommit && r'.executed == r.executed && r.issued <= r'.issued
  }

  /** The round data d name the block held for their view, and that view has not been executed. */
  predicate Wanted(r: Replica, d: RData) {
    d.propv !in r.processedCommit && d.propv in r.blocks && Of(r.blocks[d.propv]) == d.proph.digest
  }

  // ---- replicas only move on

  lemma {:induction false} RunsForward(cfg: Config, a: Node, acts: seq<Act>, b: Node)
    requires Runs(cfg, a, acts, b)
    ensures a.executed <= b.executed && a.issued <= b.issued && a.view <= b.view && a.id == b.id
    decreases |acts|
  {
    if acts != [] { RunsForward(cfg, Apply(cfg, a, acts[0]), acts[1..], b); }
  }

  lemma Forward(cfg: Config, r: Replica, r': Replica)
    requires Inv(cfg, r) && Refines(cfg, r, r')
    ensures r.executed <= r'.executed && r.issued <= r'.issued && r.view <= r'.view && r'.id == r.id
    ensures r.processedCommit <= r'.processedCommit && Inv(cfg, r')
  {
    var acts :| Runs(cfg, Abs(r), acts, Abs(r'));
    RunsForward(cfg, Abs(r), acts, Abs(r'));
    hide LogOk, FutureOk, Runs;
    forall v | v in r.processedCommit ensures v in r'.processedCommit {
      var i :| 0 <= i < |r.executed| && r.executed[i].propv == v;
      assert r'.executed[i].propv == v;
    }
  }

  lemma EnteringRaises(cfg: Config, r: Replica)
    requires cfg.Valid() && Inv(cfg, r)
    ensures var r' := StartNewView(cfg, r);
      r'.view > r.view && r.executed <= r'.executed && r.processedCommit <= r'.processedCommit
      && r.issued <= r'.issued
  {
    hide Inv, Refines, HandleEarlier, HandleNewView, StartNewView;
    var r3, v := EntersWith(cfg, r);
    StartNewViewRefines(cfg, r);
    Forward(cfg, r, StartNewView(cfg, r));
    RefinedInv(cfg, r, r3);
    HandleEarlierRefines(cfg, r3);
    Forward(cfg, r3, HandleEarlier(cfg, r3));
    if Leads(cfg, r3, r3.view) { HandleNewViewView(cfg, HandleEarlier(cfg, r3), v); }
  }

  lemma RefinedInv(cfg: Config, a: Replica, b: Replica)
    requires Refines(cfg, a, b)
    ensures Inv(cfg, b)
  {
  }

  lemma HandleNewViewView(cfg: Config, r: Replica, m: Vote)
    requires cfg.maxSigs > 0
    ensures Undecided(r, HandleNewView(cfg, r, m))
  {
    hide PrepareComb, Store, NewViewThreshold, ValidVote;
    if m.data.propv >= r.view && Leads(cfg, r, m.data.propv) && ValidVote(cfg, NewView, m) {
      VoteHasSigner(cfg, NewView, m);
      PrepareView(cfg, LogVote(r, NewView, cfg.IsTEE(m.signs[0].signer), m));
    }
  }

  lemma PrepareView(cfg: Config, r: Replica)
    requires cfg.maxSigs > 0
    ensures Undecided(r, PrepareComb(cfg, r))
  {
    hide ProcessQC, MixIn;
    var tee := GetMsgs(r.log, Slot(NewView, true, r.view), cfg.TQSize());
    var non := GetMsgs(r.log, Slot(NewView, false, r.view), cfg.QSize());
    ProcessView(cfg, r, tee, cfg.TQSize());
    ProcessView(cfg, r, MixIn(MixIn([], tee, cfg.QSize()), non, cfg.QSize()), cfg.QSize());
  }

  lemma ProcessView(cfg: Config, r: Replica, nvs: seq<Vote>, required: nat)
    requires cfg.maxSigs > 0
    ensures Undecided(r, ProcessQC(cfg, r, nvs, required))
  {
    hide TeePrepare, NewViewsToAccum, ProofOf, Store;
  }

  // ---- executing

  lemma ExecuteLaw(cfg: Config, r: Replica, d: RData)
    requires cfg.Valid() && Inv(cfg, r) && d.propv == r.view
    ensures var r' := ExecuteComb(cfg, r, d);
      if Wanted(r, d) then Decides(cfg, r, r', d) else r' == r
  {
    if Wanted(r, d) {
      var r1 := Executed(r, d);
      ExecutedInv(cfg, r, d);
      hide StartNewView, Inv;
      EnteringRaises(cfg, r1);
    }
  }

  /** The certificate phase that decides in view v: PREPARE under a trusted leader, COMMIT otherwise. */
  function FinalPhase(cfg: Config, v: View): Phase { if cfg.IsTEE(cfg.LeaderOf(v)) then Prepare else Commit }

  /** A backup decides in its view exactly on a valid certificate of the deciding phase for the block it holds
      there and has not executed; otherwise such a certificate changes nothing. */
  lemma BackupDecides(cfg: Config, r: Replica, m: Vote)
    requires cfg.Valid() && Inv(cfg, r) && cfg.LeaderOf(r.view) != r.id && m.data.propv == r.view
    ensures var tag := FinalPhase(cfg, r.view); var r0 := Received(r, Deliver(VoteMsg(tag, m)));
      var r' := Step(cfg, r, Deliver(VoteMsg(tag, m)));
      if ValidQC(cfg, tag, m) && Wanted(r, m.data) then Decides(cfg, r, r', m.data) else r' == r0
  {
    var tag := FinalPhase(cfg, r.view);
    InboxGrows(cfg, r, VoteMsg(tag, m));
    hide ValidQC, ExecuteComb, Inv, Wanted;
    var r0 := Received(r, Deliver(VoteMsg(tag, m)));
    StartedInv(cfg, r);
    ExecuteLaw(cfg, r0, m.data);
    SameWanted(r, r0, m.data);
    if tag == Prepare { FinalPrepareHandled(cfg, r0, m); } else { FinalCommitHandled(cfg, r0, m); }
  }

  lemma StartedInv(cfg: Config, r: Replica)
    requires Inv(cfg, r)
    ensures r.started
  {
  }

  lemma SameWanted(r: Replica, r0: Replica, d: RData)
    requires r0.processedCommit == r.processedCommit && r0.blocks == r.blocks
    ensures Wanted(r0, d) <==> Wanted(r, d)
  {
  }

  lemma FinalPrepareHandled(cfg: Config, r: Replica, m: Vote)
    requires cfg.maxSigs > 0 && TeeLed(cfg, r.view) && !Leads(cfg, r, r.view) && m.data.propv == r.view
    ensures HandlePrepare(cfg, r, m) == if ValidQC(cfg, Prepare, m) then ExecuteComb(cfg, r, m.data) else r
  {
    hide ValidQC, ExecuteComb, StoreFuture, CountVote;
  }

  lemma FinalCommitHandled(cfg: Config, r: Replica, m: Vote)
    requires cfg.maxSigs > 0 && !Leads(cfg, r, r.view) && m.data.propv == r.view
    ensures HandleCommit(cfg, r, m) == if ValidQC(cfg, Commit, m) then ExecuteComb(cfg, r, m.data) else r
  {
    hide ValidQC, ExecuteComb, StoreFuture, CountVote;
  }

  // ---- a backup that stores a certificate

  /** A vote of r for round data d, in a message of type tag: nothing else but its component moves. */
  predicate VotesFor(r: Replica, r': Replica, tag: Phase, d: RData) {
    && r' == r.(t := r'.t, signed := r.signed + [d], issued := r.issued + {VoteMsg(tag, SingleVote(r.id, d))})
    && StateKey(r'.t) == StateKey(r.t) + 1
  }

  /** What storing the certificate for round data c does to a component: the block is prepared, and locked after
      a PRE-COMMIT certificate. */
  predicate Stores(t: Trusted, t': Trusted, c: RData) {
    && t'.prepv == c.propv && t'.preph == c.proph
    && if c.phase == PreCommit then t'.lockv == c.propv && t'.lockh == c.proph
       else t'.lockv == t.lockv && t'.lockh == t.lockh
  }

  /** The round that a component signs next for the block of c. */
  function NextRound(t: Trusted, c: RData): RData { RData(c.proph, t.view, NEW_HASH, 0, t.phase) }

  /** A backup answers a PREPARE certificate of an untrusted leader and any PRE-COMMIT certificate of its view
      with its vote, exactly when the certificate is valid and its component is still in that view. */
  lemma BackupStores(cfg: Config, r: Replica, tag: Phase, m: Vote)
    requires cfg.Valid() && Inv(cfg, r) && cfg.LeaderOf(r.view) != r.id && m.data.propv == r.view
    requires tag == PreCommit || (tag == Prepare && !cfg.IsTEE(cfg.LeaderOf(r.view)))
    ensures var r0 := Received(r, Deliver(VoteMsg(tag, m)));
      var r' := Step(cfg, r, Deliver(VoteMsg(tag, m)));
      if ValidQC(cfg, tag, m) && r.t.view == r.view
      then VotesFor(r0, r', NextTag(tag), NextRound(r.t, m.data)) && Stores(r.t, r'.t, m.data)
      else r' == r0
  {
    hide ValidCert, ExecuteComb, StoreFuture, CountVote, Inv, HandleCommit, HandleNewView, HandleLdrPrepare;
    hide AdvanceComb;
    StartedInv(cfg, r);
    var r0 := Received(r, Deliver(VoteMsg(tag, m)));
    if m.data.phase == tag { StoreAndSendLaw(cfg, r0, m, NextTag(tag)); }
    hide StoreAndSend, Stores, VotesFor;
  }

  lemma StoreAndSendLaw(cfg: Config, r: Replica, m: Vote, next: Phase)
    requires m.data.propv == r.view && (m.data.phase == Prepare || m.data.phase == PreCommit)
    ensures var r' := StoreAndSend(cfg, r, m, next);
      if ValidCert(cfg, m.data, m.signs) && r.t.view == r.view
      then VotesFor(r, r', next, NextRound(r.t, m.data)) && Stores(r.t, r'.t, m.data)
      else r' == r
  {
    hide ValidCert;
  }

  // ---- a leader that counts votes

  function MySlot(cfg: Config, tag: Phase, m: Vote): Slot
    requires m.signs != []
  {
    Slot(tag, cfg.IsTEE(m.signs[0].signer), m.data.propv)
  }

  /** How many votes of a class there are once m, of a new signer, has been counted. */
  function Tally(cfg: Config, r: Replica, tag: Phase, m: Vote, tee: bool): nat
    requires m.signs != []
  {
    |Entries(r.log, Slot(tag, tee, m.data.propv))| + if cfg.IsTEE(m.signs[0].signer) == tee then 1 else 0
  }

  /** With the vote m of a new signer, the log holds what a leader waits for: QT trusted votes, for PREPARE only
      when the fast path is on, or exactly 2f+1 votes.  (More than QT trusted PRE-COMMIT or COMMIT votes also
      count as QT when an untrusted one arrives.) */
  predicate Completes(cfg: Config, r: Replica, tag: Phase, m: Vote) {
    && m.signs != [] && m.signs[0].signer !in AllSigners(Entries(r.log, MySlot(cfg, tag, m)))
    && var t := Tally(cfg, r, tag, m, true);
       (if tag == Prepare then cfg.FastQC() && t >= cfg.TQSize()
        else t == cfg.TQSize() || (t > cfg.TQSize() && !cfg.IsTEE(m.signs[0].signer)))
       || t + Tally(cfg, r, tag, m, false) == cfg.QSize()
  }

  /** The test that the handler makes on the count of trusted votes. */
  predicate Fast(cfg: Config, tag: Phase, tee: nat) {
    if tag == Prepare then cfg.FastQC() && tee >= cfg.TQSize() else tee == cfg.TQSize()
  }

  lemma CountLaw(cfg: Config, r: Replica, tag: Phase, m: Vote)
    requires cfg.Valid() && LogOk(cfg, r.id, Known(r), r.log) && ValidVote(cfg, tag, m)
    ensures var (log, tee, non) := CountVote(cfg, r.log, tag, m);
      && log == Store(r.log, MySlot(cfg, tag, m), m).0
      && (Fast(cfg, tag, tee) || tee + non == cfg.QSize() <==> Completes(cfg, r, tag, m))
      && (Completes(cfg, r, tag, m) ==>
            if Fast(cfg, tag, tee) then Tally(cfg, r, tag, m, true) >= cfg.TQSize()
            else Tally(cfg, r, tag, m, true) + Tally(cfg, r, tag, m, false) == cfg.QSize())
  {
    hide Store, AllSigners, LogOk, ValidVote, CountVote, Entries;
    ValidSingle(cfg, tag, m);
    QuorumSizes(cfg);
    CountNumbers(cfg, r, tag, m);
  }

  /** The two counts in terms of the slots: a repeated vote counts for nothing. */
  lemma CountNumbers(cfg: Config, r: Replica, tag: Phase, m: Vote)
    requires cfg.Valid() && LogOk(cfg, r.id, Known(r), r.log) && ValidVote(cfg, tag, m)
    ensures |m.signs| == 1
    ensures var slot := MySlot(cfg, tag, m);
      var isNew := m.signs[0].signer !in AllSigners(Entries(r.log, slot));
      var t, o := |Entries(r.log, Slot(tag, true, m.data.propv))|, |Entries(r.log, Slot(tag, false, m.data.propv))|;
      && t <= cfg.TotalTEE()
      && CountVote(cfg, r.log, tag, m) ==
           (Store(r.log, slot, m).0,
            if !isNew then 0 else if slot.tee then t + 1 else if t < cfg.TQSize() then t else cfg.TQSize(),
            if !isNew then 0 else if !slot.tee then o + 1 else if o < cfg.QSize() then o else cfg.QSize())
  {
    hide Store, SlotOk, AllSigners, Concat, LogOk, ValidSigs;
    ValidSingle(cfg, tag, m);
    var slot := MySlot(cfg, tag, m);
    var other := slot.(tee := !slot.tee);
    SlotFacts(cfg, r.id, Known(r), r.log, slot);
    SlotFacts(cfg, r.id, Known(r), r.log, other);
    VoteLog.StoreLaw(cfg, r.log, slot, m);
    SlotSingles(cfg, other, Entries(r.log, other));
    TeeEntries(cfg, Slot(tag, true, m.data.propv), Entries(r.log, Slot(tag, true, m.data.propv)));
  }

  lemma ValidSingle(cfg: Config, tag: Phase, m: Vote)
    requires ValidVote(cfg, tag, m)
    ensures |m.signs| == 1 && Single(cfg, cfg.IsTEE(m.signs[0].signer), m) && SigOk(cfg, m.signs[0], RoundText(m.data))
  {
  }

  lemma SlotSingles(cfg: Config, slot: Slot, msgs: seq<Vote>)
    requires SlotOk(cfg, slot, msgs)
    ensures |Concat(msgs)| == |msgs|
  {
    SinglesConcat(msgs);
  }

  /** A slot of trusted votes holds at most as many as there are trusted replicas. */
  lemma TeeEntries(cfg: Config, slot: Slot, msgs: seq<Vote>)
    requires SlotOk(cfg, slot, msgs) && slot.tee
    ensures |msgs| <= cfg.TotalTEE()
  {
    CountSigners(msgs);
    SinglesConcat(msgs);
    forall p | p in AllSigners(msgs) ensures p in cfg.TeeNodes() {
      var s :| s in Concat(msgs) && s.signer == p;
      var i :| 0 <= i < |msgs| && Concat(msgs)[i] == s;
      assert Single(cfg, true, msgs[i]);
    }
    SubsetSize(AllSigners(msgs), cfg.TeeNodes());
  }

  /** All votes of message type `tag` logged for d's view are for d. */
  predicate OneRecord(log: LogState, tag: Phase, d: RData) {
    forall tee, x :: x in Entries(log, Slot(tag, tee, d.propv)) ==> x.data == d
  }

  lemma RecordSlot(cfg: Config, r: Replica, tag: Phase, d: RData, tee: bool)
    requires cfg.maxSigs > 0 && LogOk(cfg, r.id, Known(r), r.log) && OneRecord(r.log, tag, d)
    ensures var slot := Slot(tag, tee, d.propv);
      SlotOk(cfg, slot, Entries(r.log, slot)) && SameData(cfg, d, Entries(r.log, slot))
  {
    var slot := Slot(tag, tee, d.propv);
    SlotFacts(cfg, r.id, Known(r), r.log, slot);
    hide LogOk, SlotOk;
    forall i | 0 <= i < |Entries(r.log, slot)|
      ensures Entries(r.log, slot)[i].data == d && ValidSigs(cfg, RoundText(d), Entries(r.log, slot)[i].signs)
    {
      var x := Entries(r.log, slot)[i];
      assert x in Entries(r.log, slot) && EntryInLog(cfg, r.id, Known(r), slot, x);
    }
  }

  /** The replica after it has logged the vote m. */
  function Counted(cfg: Config, r: Replica, tag: Phase, m: Vote): Replica
    requires m.signs != []
  {
    r.(log := Store(r.log, MySlot(cfg, tag, m), m).0)
  }

  lemma CountedRecord(cfg: Config, r: Replica, tag: Phase, m: Vote)
    requires m.signs != [] && OneRecord(r.log, tag, m.data)
    ensures OneRecord(Counted(cfg, r, tag, m).log, tag, m.data)
  {
    var slot := MySlot(cfg, tag, m);
    hide SetInsert, From;
    forall tee, x | x in Entries(Counted(cfg, r, tag, m).log, Slot(tag, tee, m.data.propv)) ensures x.data == m.data {
      if slot in r.log.votes { InsertElements(r.log.votes[slot], m, x); }
      assert x == m || x in Entries(r.log, Slot(tag, tee, m.data.propv));
    }
  }

  /** At the threshold, and when all votes are for one record, the certificate in the log is valid. */
  lemma CompletedCert(cfg: Config, r: Replica, tag: Phase, m: Vote)
    requires cfg.Valid() && Inv(cfg, r) && ValidVote(cfg, tag, m) && VoteMsg(tag, m) in Known(r) && tag != NewView
    requires Completes(cfg, r, tag, m) && OneRecord(r.log, tag, m.data)
    ensures var (log, tee, non) := CountVote(cfg, r.log, tag, m);
      ValidQC(cfg, tag, LogCert(cfg, r.(log := log), tag, m.data, Fast(cfg, tag, tee)))
  {
    LogHeld(cfg, r);
    CountLaw(cfg, r, tag, m);
    ValidSingle(cfg, tag, m);
    CountVoteRefines(cfg, r, tag, m);
    var r1 := Counted(cfg, r, tag, m);
    hide ValidSigs, CountVote, Completes, LogOk, Refines, Inv, Fast;
    RefinedInv(cfg, r, r1);
    LogHeld(cfg, r1);
    CountedRecord(cfg, r, tag, m);
    CountedSizes(cfg, r, tag, m);
    RecordSlot(cfg, r1, tag, m.data, true);
    RecordSlot(cfg, r1, tag, m.data, false);
    hide SlotOk, SameData, OneRecord, Counted, Entries, ValidVote, Merged, GetSigns;
    CertificateAtThreshold(cfg, r1.log, m.data);
  }

  lemma CountedSizes(cfg: Config, r: Replica, tag: Phase, m: Vote)
    requires LogOk(cfg, r.id, Known(r), r.log) && ValidVote(cfg, tag, m)
    requires m.signs != [] && m.signs[0].signer !in AllSigners(Entries(r.log, MySlot(cfg, tag, m)))
    ensures forall tee ::
      |Entries(Counted(cfg, r, tag, m).log, Slot(tag, tee, m.data.propv))| == Tally(cfg, r, tag, m, tee)
  {
    ValidSingle(cfg, tag, m);
    SlotFacts(cfg, r.id, Known(r), r.log, MySlot(cfg, tag, m));
    hide ValidSigs, LogOk, SlotOk, AllSigners, Store;
    VoteLog.StoreLaw(cfg, r.log, MySlot(cfg, tag, m), m);
    forall tee ensures
      |Entries(Counted(cfg, r, tag, m).log, Slot(tag, tee, m.data.propv))| == Tally(cfg, r, tag, m, tee)
    {
      var slot := Slot(tag, tee, m.data.propv);
      if slot != MySlot(cfg, tag, m) { assert Entries(Counted(cfg, r, tag, m).log, slot) == Entries(r.log, slot); }
    }
  }

  /** Votes and certificates that a leader handles: its own view, a phase of certificates. */
  predicate Handles(cfg: Config, r: Replica, tag: Phase, m: Vote) {
    cfg.LeaderOf(r.view) == r.id && m.data.propv == r.view && tag != NewView
  }

  /** A leader drops a vote that is not valid, and only logs one that does not complete a certificate in the
      phase it is in. */
  lemma LeaderCounts(cfg: Config, r: Replica, tag: Phase, m: Vote)
    requires cfg.Valid() && Inv(cfg, r) && Handles(cfg, r, tag, m)
    requires !(ValidVote(cfg, tag, m) && r.phase == tag && Completes(cfg, r, tag, m))
    ensures var r0 := Received(r, Deliver(VoteMsg(tag, m)));
      Step(cfg, r, Deliver(VoteMsg(tag, m))) == if ValidVote(cfg, tag, m) then Counted(cfg, r0, tag, m) else r0
  {
    StartedInv(cfg, r);
    LogHeld(cfg, r);
    hide ValidVote, Inv, LogOk, CountVote, Completes, Counted;
    VoteHandled(cfg, r, tag, m);
    if ValidVote(cfg, tag, m) { CountLaw(cfg, r, tag, m); }
  }

  /** What a leader does with a vote of its view, in terms of the two counts. */
  function Answered(cfg: Config, r: Replica, tag: Phase, m: Vote): Replica
    requires cfg.maxSigs > 0 && ValidVote(cfg, tag, m)
  {
    var (log, tee, non) := CountVote(cfg, r.log, tag, m);
    var r1 := r.(log := log);
    var fast := Fast(cfg, tag, tee);
    if r1.phase == tag && (fast || tee + non == cfg.QSize()) then
      if tag == FinalPhase(cfg, r.view) || tag == Commit then DecideComb(cfg, r1.(phase := NewView), m.data, fast)
      else AdvanceComb(cfg, r1.(phase := NextTag(tag)), m.data, fast, tag, NextTag(tag))
    else r1
  }

  lemma VoteHandled(cfg: Config, r: Replica, tag: Phase, m: Vote)
    requires cfg.maxSigs > 0 && r.started && Handles(cfg, r, tag, m)
    ensures var r0 := Received(r, Deliver(VoteMsg(tag, m)));
      Step(cfg, r, Deliver(VoteMsg(tag, m))) == if ValidVote(cfg, tag, m) then Answered(cfg, r0, tag, m) else r0
  {
    hide ValidVote, CountVote, DecideComb, AdvanceComb, StoreFuture, HandleLdrPrepare, HandleNewView;
  }

  /** The replica that has logged the completing vote, moved to its next phase and sent the certificate. */
  function Certified(cfg: Config, r: Replica, tag: Phase, m: Vote, next: Phase, cert: Vote): Replica
    requires m.signs != []
  {
    Issue(Counted(cfg, r, tag, m).(phase := next), VoteMsg(tag, cert))
  }

  lemma CertifiedInv(cfg: Config, r: Replica, tag: Phase, m: Vote, next: Phase) returns (cert: Vote)
    requires cfg.Valid() && Inv(cfg, r) && ValidVote(cfg, tag, m) && VoteMsg(tag, m) in Known(r) && tag != NewView
    requires Completes(cfg, r, tag, m) && OneRecord(r.log, tag, m.data)
    ensures var (log, tee, non) := CountVote(cfg, r.log, tag, m);
      cert == LogCert(cfg, r.(log := log, phase := next), tag, m.data, Fast(cfg, tag, tee))
    ensures cert.data == m.data && ValidQC(cfg, tag, cert) && Inv(cfg, Certified(cfg, r, tag, m, next, cert))
  {
    LogHeld(cfg, r);
    hide ValidVote, Inv, LogOk, CountVote, Completes, Refines, ValidQC, OneRecord;
    VoteHasSigner(cfg, tag, m);
    CountLaw(cfg, r, tag, m);
    CompletedCert(cfg, r, tag, m);
    CountVoteRefines(cfg, r, tag, m);
    var (log, tee, non) := CountVote(cfg, r.log, tag, m);
    PhaseRefines(cfg, r, r.(log := log), next);
    var r1 := r.(log := log, phase := next);
    RefinedInv(cfg, r, r1);
    cert := LogCert(cfg, r1, tag, m.data, Fast(cfg, tag, tee));
    SameCert(cfg, r.(log := log), r1, tag, m.data, Fast(cfg, tag, tee));
    hide LogCert, Fast;
    LogCertData(cfg, r1, tag, m.data, Fast(cfg, tag, tee));
    IssueCertRefines(cfg, r1, tag, m.data, Fast(cfg, tag, tee));
    RefinedInv(cfg, r1, Issue(r1, VoteMsg(tag, cert)));
  }

  lemma SameCert(cfg: Config, r: Replica, r1: Replica, tag: Phase, d: RData, fast: bool)
    requires r.log == r1.log
    ensures LogCert(cfg, r, tag, d, fast) == LogCert(cfg, r1, tag, d, fast)
  {
  }

  /** A leader decides: in the phase that waits for the deciding votes of its view, a vote that completes QT
      trusted or 2f+1 votes, all for one record, makes it send a valid certificate for that record and, if the
      block is the one it holds and has not executed, execute it. */
  lemma LeaderDecides(cfg: Config, r: Replica, m: Vote) returns (cert: Vote)
    requires var tag := FinalPhase(cfg, r.view);
      && cfg.Valid() && Inv(cfg, r) && Handles(cfg, r, tag, m) && ValidVote(cfg, tag, m)
      && r.phase == tag && Completes(cfg, r, tag, m) && OneRecord(r.log, tag, m.data)
    ensures var tag := FinalPhase(cfg, r.view);
      var r' := Step(cfg, r, Deliver(VoteMsg(tag, m)));
      && cert.data == m.data && ValidQC(cfg, tag, cert) && VoteMsg(tag, cert) in r'.issued
      && if Wanted(r, m.data) then Decides(cfg, r, r', m.data)
         else r' == Certified(cfg, Received(r, Deliver(VoteMsg(tag, m))), tag, m, NewView, cert)
  {
    hide ValidVote, Inv, LogOk, CountVote, Completes, Wanted, ExecuteComb, ValidQC, OneRecord, Step, Decides, Answered;
    var tag := FinalPhase(cfg, r.view);
    var r0 := Received(r, Deliver(VoteMsg(tag, m)));
    StartedInv(cfg, r);
    InboxGrows(cfg, r, VoteMsg(tag, m));
    VoteHandled(cfg, r, tag, m);
    VoteHasSigner(cfg, tag, m);
    SameCount(cfg, r, r0, tag, m);
    cert := DecisionSent(cfg, r0, tag, m);
    var r2 := Certified(cfg, r0, tag, m, NewView, cert);
    ExecuteLaw(cfg, r2, m.data);
    SameWanted(r, r2, m.data);
    if Wanted(r, m.data) { DecidesFrom(cfg, r, r2, ExecuteComb(cfg, r2, m.data), m.data); }
  }

  lemma DecidesFrom(cfg: Config, r: Replica, r2: Replica, r': Replica, d: RData)
    requires Decides(cfg, r2, r', d) && r.issued <= r2.issued
    requires r2.executed == r.executed && r2.processedCommit == r.processedCommit && r2.view == r.view
    ensures Decides(cfg, r, r', d) && r2.issued <= r'.issued
  {
  }

  lemma DecisionSent(cfg: Config, r: Replica, tag: Phase, m: Vote) returns (cert: Vote)
    requires cfg.Valid() && Inv(cfg, r) && ValidVote(cfg, tag, m) && VoteMsg(tag, m) in Known(r)
    requires m.data.propv == r.view && tag == FinalPhase(cfg, r.view) && r.phase == tag
    requires Completes(cfg, r, tag, m) && OneRecord(r.log, tag, m.data)
    ensures cert.data == m.data && ValidQC(cfg, tag, cert) && Inv(cfg, Certified(cfg, r, tag, m, NewView, cert))
    ensures Answered(cfg, r, tag, m) == ExecuteComb(cfg, Certified(cfg, r, tag, m, NewView, cert), m.data)
  {
    hide ValidVote, Inv, LogOk, CountVote, Completes, ExecuteComb, ValidQC, OneRecord, LogCert, Fast;
    LogHeld(cfg, r);
    CountLaw(cfg, r, tag, m);
    cert := CertifiedInv(cfg, r, tag, m, NewView);
  }

  /** From r to r' the leader has sent the certificate and, if its component was still in the view, stored it there
      and logged its own vote for the next phase. */
  predicate Advanced(cfg: Config, r: Replica, r': Replica, tag: Phase, m: Vote, cert: Vote)
    requires m.signs != []
  {
    var r2 := Certified(cfg, Received(r, Deliver(VoteMsg(tag, m))), tag, m, NextTag(tag), cert);
    if r.t.view == r.view
    then VotesFor(r2, r'.(log := r2.log), NextTag(tag), NextRound(r.t, m.data)) && Stores(r.t, r'.t, m.data)
         && r'.log == Store(r2.log, Slot(NextTag(tag), cfg.IsTEE(r.id), r.view),
                            SingleVote(r.id, NextRound(r.t, m.data))).0
    else r' == r2
  }

  /** A leader without trusted hardware, at PREPARE, and any leader at PRE-COMMIT advances on such a vote: it
      sends the certificate, stores it in its component and logs its own vote for the next phase. */
  lemma LeaderAdvances(cfg: Config, r: Replica, tag: Phase, m: Vote) returns (cert: Vote)
    requires cfg.Valid() && Inv(cfg, r) && Handles(cfg, r, tag, m) && ValidVote(cfg, tag, m)
    requires tag == PreCommit || (tag == Prepare && !cfg.IsTEE(r.id))
    requires r.phase == tag && Completes(cfg, r, tag, m) && OneRecord(r.log, tag, m.data)
    ensures cert.data == m.data && ValidQC(cfg, tag, cert)
    ensures Advanced(cfg, r, Step(cfg, r, Deliver(VoteMsg(tag, m))), tag, m, cert)
  {
    hide ValidVote, Inv, LogOk, CountVote, Completes, ValidQC, OneRecord, Step, Answered, VotesFor, Stores;
    hide StoreAndKeep;
    var r0 := Received(r, Deliver(VoteMsg(tag, m)));
    StartedInv(cfg, r);
    InboxGrows(cfg, r, VoteMsg(tag, m));
    VoteHandled(cfg, r, tag, m);
    VoteHasSigner(cfg, tag, m);
    SameCount(cfg, r, r0, tag, m);
    cert := AdvanceSent(cfg, r0, tag, m);
    StoreAndKeepLaw(cfg, Certified(cfg, r0, tag, m, NextTag(tag), cert), tag, cert);
  }

  lemma AdvanceSent(cfg: Config, r: Replica, tag: Phase, m: Vote) returns (cert: Vote)
    requires cfg.Valid() && Inv(cfg, r) && ValidVote(cfg, tag, m) && VoteMsg(tag, m) in Known(r)
    requires Handles(cfg, r, tag, m) && (tag == PreCommit || (tag == Prepare && !cfg.IsTEE(r.id))) && r.phase == tag
    requires Completes(cfg, r, tag, m) && OneRecord(r.log, tag, m.data)
    ensures cert.data == m.data && ValidQC(cfg, tag, cert)
    ensures Answered(cfg, r, tag, m)
         == StoreAndKeep(cfg, Certified(cfg, r, tag, m, NextTag(tag), cert), cert, NextTag(tag))
  {
    hide ValidVote, Inv, LogOk, CountVote, Completes, ValidQC, OneRecord, LogCert, Fast, StoreAndKeep;
    LogHeld(cfg, r);
    CountLaw(cfg, r, tag, m);
    cert := CertifiedInv(cfg, r, tag, m, NextTag(tag));
  }

  lemma StoreAndKeepLaw(cfg: Config, r: Replica, tag: Phase, cert: Vote)
    requires ValidQC(cfg, tag, cert) && cert.data.propv == r.view && (tag == Prepare || tag == PreCommit)
    ensures var r' := StoreAndKeep(cfg, r, cert, NextTag(tag));
      if r.t.view == r.view
      then VotesFor(r, r'.(log := r.log), NextTag(tag), NextRound(r.t, cert.data)) && Stores(r.t, r'.t, cert.data)
           && r'.log == Store(r.log, Slot(NextTag(tag), cfg.IsTEE(r.id), r.view),
                              SingleVote(r.id, NextRound(r.t, cert.data))).0
      else r' == r
  {
    hide ValidCert, Store;
  }

  lemma SameCount(cfg: Config, r: Replica, r0: Replica, tag: Phase, m: Vote)
    requires r0.log == r.log
    ensures Completes(cfg, r0, tag, m) <==> Completes(cfg, r, tag, m)
  {
  }

  // ---- what arrives early

  predicate SameSigners(a: seq<Sign>, b: seq<Sign>) {
    |a| == |b| && forall i :: 0 <= i < |a| ==> a[i].signer == b[i].signer
  }

  /** Set insertion keeps what is there and adds the new element, unless one of the same signers is there. */
  lemma {:induction false} InsertHas(s: seq<Vote>, m: Vote)
    ensures forall x :: x in s ==> x in SetInsert(s, m)
    ensures exists x :: x in SetInsert(s, m) && SameSigners(x.signs, m.signs) && (x == m || x in s)
  {
    if s == [] || SignsLess(m.signs, s[0].signs) {
      assert m in SetInsert(s, m) && SameSigners(m.signs, m.signs);
    } else if SignsLess(s[0].signs, m.signs) {
      InsertHas(s[1..], m);
      var x :| x in SetInsert(s[1..], m) && SameSigners(x.signs, m.signs) && (x == m || x in s[1..]);
      assert x in SetInsert(s, m);
    } else {
      assert |s[0].signs| == |m.signs|;
      LexEquivalent(s[0].signs, m.signs);
      assert s[0] in SetInsert(s, m) && SameSigners(s[0].signs, m.signs);
    }
  }

  /** The cache after a certificate of tag k.tag for view k.view: it, or one of the same signers, is there under
      k, and everything else is as before. */
  ghost predicate CachesToo(future: map<Future, seq<Vote>>, future': map<Future, seq<Vote>>, k: Future, m: Vote) {
    && future'.Keys == future.Keys + {k}
    && (forall x :: x in future && x != k ==> future'[x] == future[x])
    && (k in future ==> forall x :: x in future[k] ==> x in future'[k])
    && (exists x :: x in future'[k] && SameSigners(x.signs, m.signs))
    && (forall x :: x in future'[k] ==> x == m || (k in future && x in future[k]))
  }

  /** A vote or certificate for a later view: a valid certificate is cached, a valid vote is logged, anything else
      is dropped. */
  lemma StoresForLater(cfg: Config, r: Replica, tag: Phase, m: Vote)
    requires cfg.Valid() && Inv(cfg, r) && m.data.propv > r.view && tag != NewView
    ensures var r0 := Received(r, Deliver(VoteMsg(tag, m)));
      var r' := Step(cfg, r, Deliver(VoteMsg(tag, m)));
      if ValidQC(cfg, tag, m) then
        r' == r0.(future := r'.future) && CachesToo(r.future, r'.future, Future(tag, m.data.propv), m)
      else if ValidVote(cfg, tag, m) then
        var slot := MySlot(cfg, tag, m);
        && r' == r0.(log := r'.log) && r'.log.proposals == r.log.proposals
        && (forall s :: s != slot ==> Entries(r'.log, s) == Entries(r.log, s))
        && if m.signs[0].signer in AllSigners(Entries(r.log, slot)) then r'.log == r.log
           else multiset(Entries(r'.log, slot)) == multiset(Entries(r.log, slot)) + multiset{m}
      else r' == r0
  {
    StartedInv(cfg, r);
    LogHeld(cfg, r);
    hide ValidCert, ValidSigs, Inv, LogOk, Step, Store, AllSigners, SlotOk, CachesToo, SetInsert;
    EarlyHandled(cfg, r, tag, m);
    CacheLaw(r.future, tag, m);
    if ValidVote(cfg, tag, m) {
      ValidSingle(cfg, tag, m);
      SlotFacts(cfg, r.id, Known(r), r.log, MySlot(cfg, tag, m));
      VoteLog.StoreLaw(cfg, r.log, MySlot(cfg, tag, m), m);
      KeepsProposals(r.log, MySlot(cfg, tag, m), m);
    }
  }

  lemma EarlyHandled(cfg: Config, r: Replica, tag: Phase, m: Vote)
    requires cfg.maxSigs > 0 && r.started && m.data.propv > r.view && tag != NewView
    ensures Step(cfg, r, Deliver(VoteMsg(tag, m))) == StoreFuture(cfg, Received(r, Deliver(VoteMsg(tag, m))), tag, m)
  {
    hide StoreFuture, HandleLdrPrepare, HandleNewView, CountVote, RespondToPrepare, RespondToCommit;
  }

  lemma KeepsProposals(log: LogState, slot: Slot, m: Vote)
    ensures Store(log, slot, m).0.proposals == log.proposals
  {
  }

  lemma CacheLaw(future: map<Future, seq<Vote>>, tag: Phase, m: Vote)
    ensures var k := Future(tag, m.data.propv);
      CachesToo(future, future[k := SetInsert(if k in future then future[k] else [], m)], k, m)
  {
    var k := Future(tag, m.data.propv);
    var s := if k in future then future[k] else [];
    InsertHas(s, m);
    hide SetInsert, SameSigners;
    forall x | x in SetInsert(s, m) ensures x == m || x in s { InsertElements(s, m, x); }
  }

  /** A proposal for a later view that passes the test is the one replayed there, unless one is logged already. */
  lemma ProposalForLater(cfg: Config, r: Replica, p: Proposal)
    requires cfg.Valid() && Inv(cfg, r) && p.acc.view > r.view && cfg.LeaderOf(p.acc.view) != r.id
    ensures var r0 := Received(r, Deliver(LdrMsg(p)));
      var r' := Step(cfg, r, Deliver(LdrMsg(p)));
      if VerifyLdrPrepare(cfg, p) && (p.acc.size == cfg.QSize() || p.acc.size == cfg.TQSize())
         && p.block.prev.digest == p.acc.hash.digest
      then
        && r' == r0.(log := r'.log) && r'.log.votes == r.log.votes
        && (forall v :: v != p.acc.view ==> FirstProposal(r'.log, v) == FirstProposal(r.log, v))
        && FirstProposal(r'.log, p.acc.view)
           == if FirstProposal(r.log, p.acc.view).None? then Some(p) else FirstProposal(r.log, p.acc.view)
      else r' == r0
  {
    StartedInv(cfg, r);
    LogHeld(cfg, r);
    hide VerifyLdrPrepare, Inv, RespondToLdrPrepare, HandleNewView, HandlePrepare, HandlePreCommit, HandleCommit;
    if VerifyLdrPrepare(cfg, p) { StoredFirst(cfg, r, p); }
    hide StoreProposal, FirstProposal, LogOk;
  }

  lemma StoredFirst(cfg: Config, r: Replica, p: Proposal)
    requires LogOk(cfg, r.id, Known(r), r.log) && VerifyLdrPrepare(cfg, p)
    ensures var log' := StoreProposal(r.log, p);
      && log'.votes == r.log.votes
      && (forall v :: v != p.acc.view ==> FirstProposal(log', v) == FirstProposal(r.log, v))
      && FirstProposal(log', p.acc.view)
         == if FirstProposal(r.log, p.acc.view).None? then Some(p) else FirstProposal(r.log, p.acc.view)
  {
    var v := p.acc.view;
    if v in r.log.proposals && r.log.proposals[v] != [] {
      assert r.log.proposals[v][0] in r.log.proposals[v] && r.log.proposals[v][0].sign.signer == p.sign.signer;
      assert ProposalFrom(r.log.proposals[v], p.sign.signer);
    }
  }

  // ---- catching up

  /** Before a replica enters the next view: another replica leads it, the component will accept the proposal
      stored for it, and every certificate up to the deciding one is cached for its block. */
  predicate CatchesUp(cfg: Config, r: Replica) {
    var v := r.view + 1;
    var p := FirstProposal(r.log, v);
    && cfg.LeaderOf(v) != r.id
    && p.Some? && p.value.sign.isSet
    && TeePrepare(cfg, r.t.(view := v, phase := Prepare), r.id, p.value.block, p.value.acc, p.value.proof).1.Some?
    && AllCached(cfg, r.(view := v), BlockHash(p.value.block))
  }

  predicate AllCached(cfg: Config, r: Replica, hash: Hash) {
    && CachedFor(r, Prepare, hash)
    && (cfg.IsTEE(cfg.LeaderOf(r.view)) || (CachedFor(r, PreCommit, hash) && CachedFor(r, Commit, hash)))
  }

  /** The round data of the deciding certificate that is replayed in view v. */
  function ReplayedData(cfg: Config, r: Replica, v: View): RData
    requires Cached(r, Future(FinalPhase(cfg, v), v))
  {
    r.future[Future(FinalPhase(cfg, v), v)][0].data
  }

  /** Storing the cached certificate of tag `tag` moves nothing that a decision looks at. */
  lemma StoresReplayed(cfg: Config, r: Replica, tag: Phase, hash: Hash) returns (r2: Replica)
    requires cfg.Valid() && Inv(cfg, r) && CachedFor(r, tag, hash)
    requires tag == PreCommit || (tag == Prepare && !TeeLed(cfg, r.view))
    ensures var k := Future(tag, r.view);
      && r2 == StoreAndSend(cfg, r.(future := Erase(r.future, k)), r.future[k][0], NextTag(tag))
      && ValidQC(cfg, tag, r.future[k][0])
    ensures Inv(cfg, r2) && r2.view == r.view && r2.blocks == r.blocks && r2.processedCommit == r.processedCommit
    ensures r2.executed == r.executed && r.issued <= r2.issued && r2.id == r.id
    ensures forall x: Future :: x.tag != tag ==> (x in r.future <==> x in r2.future)
    ensures forall x: Future :: x.tag != tag && x in r.future ==> r2.future[x] == r.future[x]
  {
    var k := Future(tag, r.view);
    var m := r.future[k][0];
    hide ValidCert, StoreAndSend, Inv;
    EraseRefines(cfg, r, k);
    var r1 := r.(future := Erase(r.future, k));
    r2 := StoreAndSend(cfg, r1, m, NextTag(tag));
    RefinedInv(cfg, r, r1);
    StoreRefines(cfg, r1, m);
    Forward(cfg, r1, r2);
    StoreFrame(cfg, r1, m, NextTag(tag));
  }

  /** What replaying the cached certificates of the view at hand leads to. */
  ghost predicate Replays(cfg: Config, r: Replica, r': Replica, hash: Hash) {
    if AllCached(cfg, r, hash) then Decides(cfg, r, r', ReplayedData(cfg, r, r.view)) else Undecided(r, r')
  }

  predicate AtHand(r: Replica, hash: Hash) {
    r.view in r.blocks && hash == BlockHash(r.blocks[r.view]) && r.view !in r.processedCommit
  }

  lemma ReplayLaw(cfg: Config, r: Replica, hash: Hash)
    requires cfg.Valid() && Inv(cfg, r) && AtHand(r, hash)
    ensures Replays(cfg, r, ReplayCertificates(cfg, r, hash), hash)
  {
    hide Inv, ReplayCertificates, Decides;
    if !CachedFor(r, Prepare, hash) {
      NoPrepareToReplay(cfg, r, hash);
    } else if TeeLed(cfg, r.view) {
      ReplayFinalLaw(cfg, r, hash);
    } else {
      ReplayPrepareLaw(cfg, r, hash);
    }
  }

  /** Under a trusted leader the PREPARE certificate decides; what follows a stop decides nothing. */
  lemma ReplayFinalLaw(cfg: Config, r: Replica, hash: Hash)
    requires cfg.Valid() && Inv(cfg, r) && AtHand(r, hash) && CachedFor(r, Prepare, hash) && TeeLed(cfg, r.view)
    ensures Decides(cfg, r, ReplayCertificates(cfg, r, hash), ReplayedData(cfg, r, r.view))
  {
    var k := Future(Prepare, r.view);
    var m := r.future[k][0];
    hide Inv, ValidCert, ExecuteComb, ReplayPreCommit, Refines;
    EraseRefines(cfg, r, k);
    var r1 := r.(future := Erase(r.future, k));
    RefinedInv(cfg, r, r1);
    ExecuteLaw(cfg, r1, m.data);
    ExecuteRefines(cfg, r1, m);
    var r2 := ExecuteComb(cfg, r1, m.data);
    RefinedInv(cfg, r1, r2);
    DecidesFrom(cfg, r, r1, r2, m.data);
    if r2.view == r.view {
      ReplayDone(cfg, r2, hash);
      ReplayPreCommitRefines(cfg, r2, hash);
      Forward(cfg, r2, ReplayPreCommit(cfg, r2, hash));
    }
  }

  lemma ReplayPrepareLaw(cfg: Config, r: Replica, hash: Hash)
    requires cfg.Valid() && Inv(cfg, r) && AtHand(r, hash) && CachedFor(r, Prepare, hash) && !TeeLed(cfg, r.view)
    ensures Replays(cfg, r, ReplayCertificates(cfg, r, hash), hash)
  {
    hide Inv, ValidCert, StoreAndSend, ReplayPreCommit, Decides;
    var r2 := StoresReplayed(cfg, r, Prepare, hash);
    assert ReplayCertificates(cfg, r, hash) == ReplayPreCommit(cfg, r2, hash);
    ReplayPreCommitLaw(cfg, r2, hash);
    if AllCached(cfg, r, hash) {
      DecidesFrom(cfg, r, r2, ReplayPreCommit(cfg, r2, hash), ReplayedData(cfg, r, r.view));
    }
  }

  lemma ReplayPreCommitLaw(cfg: Config, r: Replica, hash: Hash)
    requires cfg.Valid() && Inv(cfg, r) && AtHand(r, hash) && !TeeLed(cfg, r.view)
    ensures var r' := ReplayPreCommit(cfg, r, hash);
      if CachedFor(r, PreCommit, hash) && CachedFor(r, Commit, hash)
      then Decides(cfg, r, r', ReplayedData(cfg, r, r.view)) else Undecided(r, r')
  {
    hide Inv, ValidCert, StoreAndSend, ReplayCommit, Decides;
    if CachedFor(r, PreCommit, hash) {
      var r2 := StoresReplayed(cfg, r, PreCommit, hash);
      assert ReplayPreCommit(cfg, r, hash) == ReplayCommit(cfg, r2, hash);
      ReplayCommitLaw(cfg, r2, hash);
      if CachedFor(r, Commit, hash) {
        DecidesFrom(cfg, r, r2, ReplayCommit(cfg, r2, hash), ReplayedData(cfg, r, r.view));
      }
    } else {
      NothingToReplay(cfg, r, hash);
    }
  }

  lemma ReplayCommitLaw(cfg: Config, r: Replica, hash: Hash)
    requires cfg.Valid() && Inv(cfg, r) && AtHand(r, hash) && !TeeLed(cfg, r.view)
    ensures var r' := ReplayCommit(cfg, r, hash);
      if CachedFor(r, Commit, hash) then Decides(cfg, r, r', ReplayedData(cfg, r, r.view)) else r' == r
  {
    hide Inv, ValidCert, ExecuteComb, Refines, Decides;
    if CachedFor(r, Commit, hash) {
      var k := Future(Commit, r.view);
      var r1 := r.(future := Erase(r.future, k));
      EraseRefines(cfg, r, k);
      RefinedInv(cfg, r, r1);
      ExecuteLaw(cfg, r1, r.future[k][0].data);
      DecidesFrom(cfg, r, r1, ExecuteComb(cfg, r1, r.future[k][0].data), r.future[k][0].data);
    } else {
      NoCommitToReplay(cfg, r, hash);
    }
  }

  lemma TimesOut(cfg: Config, r: Replica)
    requires cfg.maxSigs > 0 && r.started
    ensures Step(cfg, r, Timeout) == StartNewView(cfg, r)
  {
    hide StartNewView, HandleMsg, GetStarted;
  }

  /** A timeout decides in the view that it enters exactly when everything up to the deciding certificate has
      arrived early. */
  lemma EnteringDecides(cfg: Config, r: Replica)
    requires cfg.Valid() && Inv(cfg, r)
    ensures var r' := Step(cfg, r, Timeout);
      var r1 := r.(view := r.view + 1);
      if CatchesUp(cfg, r) then Decides(cfg, r1, r', ReplayedData(cfg, r, r.view + 1)) else Undecided(r1, r')
  {
    hide Inv, Refines, HandleEarlier, HandleNewView, StartNewView, Step, Decides, CatchesUp, Undecided, AllCached;
    StartedInv(cfg, r);
    TimesOut(cfg, r);
    var r3, v := EntersWith(cfg, r);
    RefinedInv(cfg, r, r3);
    OnlyNewView(cfg, r, r3, v);
    hide Entered, Orderly;
    if Leads(cfg, r3, r3.view) {
      LeaderEnters(cfg, r3, v);
      OwnView(cfg, r);
      UndecidedFrom(r.(view := r.view + 1), r3, StartNewView(cfg, r));
    } else {
      BackupEnters(cfg, r3);
      BackupFrom(cfg, r, r3, HandleEarlier(cfg, r3));
    }
  }

  lemma BackupFrom(cfg: Config, r: Replica, r3: Replica, r': Replica)
    requires r3 == r.(t := r.t.(view := r.view + 1, phase := Prepare), signed := r3.signed, view := r.view + 1,
                      issued := r3.issued)
    requires cfg.LeaderOf(r3.view) != r.id && r.issued <= r3.issued
    requires if Caught(cfg, r3) then Decides(cfg, r3, r', ReplayedData(cfg, r3, r3.view)) else Undecided(r3, r')
    ensures var r1 := r.(view := r.view + 1);
      if CatchesUp(cfg, r) then Decides(cfg, r1, r', ReplayedData(cfg, r, r.view + 1)) else Undecided(r1, r')
  {
    SameCaught(cfg, r, r3);
    hide TeePrepare, Caught, AllCached;
  }

  lemma OwnView(cfg: Config, r: Replica)
    requires cfg.LeaderOf(r.view + 1) == r.id
    ensures !CatchesUp(cfg, r)
  {
  }

  lemma UndecidedFrom(r: Replica, r3: Replica, r': Replica)
    requires Undecided(r3, r') && r.issued <= r3.issued
    requires r3.executed == r.executed && r3.processedCommit == r.processedCommit && r3.view == r.view
    ensures Undecided(r, r')
  {
  }

  lemma LeaderEnters(cfg: Config, r: Replica, v: Vote)
    requires cfg.maxSigs > 0 && Leads(cfg, r, r.view)
    ensures Undecided(r, HandleNewView(cfg, HandleEarlier(cfg, r), v))
  {
    hide PrepareComb, HandleNewView, NewViewThreshold;
    PrepareView(cfg, r);
    HandleNewViewView(cfg, HandleEarlier(cfg, r), v);
  }

  /** The same of a backup that has just entered its view. */
  predicate Caught(cfg: Config, r: Replica) {
    Replayed(cfg, r) && AllCached(cfg, r, BlockHash(FirstProposal(r.log, r.view).value.block))
  }

  lemma SameCaught(cfg: Config, r: Replica, r3: Replica)
    requires r3 == r.(t := r.t.(view := r.view + 1, phase := Prepare), signed := r3.signed, view := r.view + 1,
                      issued := r3.issued)
    requires cfg.LeaderOf(r3.view) != r.id
    ensures CatchesUp(cfg, r) <==> Caught(cfg, r3)
    ensures CatchesUp(cfg, r) ==> ReplayedData(cfg, r, r.view + 1) == ReplayedData(cfg, r3, r3.view)
  {
    hide TeePrepare;
  }

  lemma BackupEnters(cfg: Config, r: Replica)
    requires cfg.Valid() && Inv(cfg, r) && Entered(r) && !Leads(cfg, r, r.view)
    ensures var r' := HandleEarlier(cfg, r);
      if Caught(cfg, r) then Decides(cfg, r, r', ReplayedData(cfg, r, r.view)) else Undecided(r, r')
  {
    hide Inv, Refines, ReplayProposal, ReplayCertificates, Decides, Replayed;
    ReplayProposalRefines(cfg, r);
    ReplayedBlock(cfg, r);
    var r1 := ReplayProposal(cfg, r);
    RefinedInv(cfg, r, r1);
    Forward(cfg, r, r1);
    if r.view in r1.blocks {
      var hash := BlockHash(r1.blocks[r.view]);
      ReplayLaw(cfg, r1, hash);
      if AllCached(cfg, r, hash) {
        DecidesFrom(cfg, r, r1, ReplayCertificates(cfg, r1, hash), ReplayedData(cfg, r, r.view));
      }
    }
  }
}
