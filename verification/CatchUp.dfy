/** Entering a view: the signing loop is bounded, catching up on what was received early consumes the
    cache, and every vote made on the way is signed in the phase of its message type. */
module CatchUp {
  import opened Types
  import opened Certificates
  import opened TrustedMachine
  import opened VoteLog
  import opened Replicas
  import opened Protocol
  import opened Refinement
  import S = Safety
  import System

  /** The trusted component signed the vote in the phase that its message type stands for. */
  predicate InPhase(m: Msg) {
    m.VoteMsg? ==> m.vote.data.phase == m.tag
  }

  predicate CacheShrinks(r: Replica, r': Replica) {
    forall k :: k in r'.future ==> k in r.future && r'.future[k] == r.future[k]
  }

  ghost predicate NewVotesInPhase(r: Replica, r': Replica) {
    forall m :: m in r'.issued && m !in r.issued ==> InPhase(m)
  }

  /** From r to r' every new vote is in phase, the cache only shrinks and views only go up. */
  ghost predicate Orderly(r: Replica, r': Replica) {
    NewVotesInPhase(r, r') && CacheShrinks(r, r') && r.view <= r'.view
  }

  lemma OrderlyTrans(a: Replica, b: Replica, c: Replica)
    requires Orderly(a, b) && Orderly(b, c)
    ensures Orderly(a, c)
  {
  }

  lemma InvFacts(cfg: Config, r: Replica)
    requires Inv(cfg, r)
    ensures Lockstep(r.t, r.view) && Tidy(r)
  {
  }

  // ---- the leader

  /** The leader of the current view can still propose in phase, or has proposed. */
  predicate Ready(r: Replica) {
    (r.t.view == r.view && r.t.phase == Prepare) || r.view in r.processedNewViews
  }

  lemma ProcessQCOrderly(cfg: Config, r: Replica, nvs: seq<Vote>, required: nat)
    requires cfg.maxSigs > 0 && Ready(r)
    ensures var r' := ProcessQC(cfg, r, nvs, required);
      Orderly(r, r') && Ready(r') && r'.view == r.view && r'.processedCommit == r.processedCommit
          && r'.future == r.future
  {
    hide TeePrepare, NewViewsToAccum, ProofOf, CreateNewBlock, LogVote;
    if r.view !in r.processedNewViews {
      var acc := NewViewsToAccum(cfg, r.id, nvs, required);
      var (r1, block) := CreateNewBlock(cfg, r, acc.hash);
      NewBlockFrame(cfg, r, acc.hash);
      assert r1 == r.(transactions := r1.transactions);
      if TeePrepare(cfg, r.t, r.id, block, acc, ProofOf(cfg, nvs)).1.Some? {
        var txs, p, t, vote := ProcessQCAccepted(cfg, r, nvs, required);
        LogVoteFrame(cfg, Proposed(cfg, r, txs, p, t, vote), vote);
      }
    }
  }

  lemma NewBlockFrame(cfg: Config, r: Replica, hash: Hash)
    ensures var r1 := CreateNewBlock(cfg, r, hash).0; r1 == r.(transactions := r1.transactions)
  {
  }

  lemma LogVoteFrame(cfg: Config, r: Replica, v: Vote)
    ensures var r1 := LogVote(r, Prepare, cfg.IsTEE(r.id), v); r1 == r.(log := r1.log)
  {
  }

  lemma PrepareCombOrderly(cfg: Config, r: Replica)
    requires cfg.maxSigs > 0 && Ready(r)
    ensures var r' := PrepareComb(cfg, r);
      Orderly(r, r') && Ready(r') && r'.view == r.view && r'.processedCommit == r.processedCommit
          && r'.future == r.future
  {
    hide ProcessQC;
    var tee := GetMsgs(r.log, Slot(NewView, true, r.view), cfg.TQSize());
    var non := GetMsgs(r.log, Slot(NewView, false, r.view), cfg.QSize());
    ProcessQCOrderly(cfg, r, tee, cfg.TQSize());
    ProcessQCOrderly(cfg, r, MixIn(MixIn([], tee, cfg.QSize()), non, cfg.QSize()), cfg.QSize());
  }

  lemma HandleNewViewOrderly(cfg: Config, r: Replica, m: Vote)
    requires cfg.maxSigs > 0 && Ready(r)
    ensures var r' := HandleNewView(cfg, r, m);
      Orderly(r, r') && r'.view == r.view && r'.processedCommit == r.processedCommit
  {
    hide PrepareComb, NewViewThreshold, ValidVote;
    if m.data.propv >= r.view && Leads(cfg, r, m.data.propv) && ValidVote(cfg, NewView, m) {
      VoteHasSigner(cfg, NewView, m);
      PrepareCombOrderly(cfg, LogVote(r, NewView, cfg.IsTEE(m.signs[0].signer), m));
    }
  }

  // ---- a backup

  /** A view has just been entered and nothing of it has been signed, stored or executed. */
  predicate Entered(r: Replica) {
    r.t.view == r.view && r.t.phase == Prepare && r.view !in r.blocks && r.view !in r.processedCommit
  }

  /** The proposal of the current view has been voted for, and nothing after it. */
  predicate Voted(r: Replica, hash: Hash) {
    && r.t.view == r.view && r.t.phase == PreCommit
    && r.view in r.blocks && hash == BlockHash(r.blocks[r.view])
    && r.view !in r.processedCommit
  }

  lemma ReplayProposalOrderly(cfg: Config, r: Replica)
    requires Entered(r)
    ensures var r' := ReplayProposal(cfg, r);
      && Orderly(r, r') && r.issued <= r'.issued && r'.future == r.future && r'.view == r.view
           && r'.view !in r'.processedCommit
      && (r'.view in r'.blocks ==> Voted(r', BlockHash(r'.blocks[r'.view])))
  {
    var p := FirstProposal(r.log, r.view);
    if p.Some? {
      hide TeePrepare;
      if TeePrepare(cfg, r.t, r.id, p.value.block, p.value.acc, p.value.proof).1.Some? {
        AcceptedProposal(cfg, r.t, r.id, p.value.block, p.value.acc, p.value.proof);
      }
    }
  }

  lemma StoreOrderly(cfg: Config, r: Replica, cert: Vote, tag: Phase)
    requires r.t.phase == tag
    ensures var r' := StoreAndSend(cfg, r, cert, tag);
      && Orderly(r, r') && r.issued <= r'.issued && r'.blocks == r.blocks && r'.processedCommit == r.processedCommit
      && (StoreAccepts(cfg, r.t, cert) ==> r'.t.phase == Increment(r.t).phase)
  {
  }

  // ---- exactly when catching up stays in phase

  /** The replica's own votes are for rounds that its trusted component has passed, as in every run. */
  ghost predicate VotesPast(r: Replica) {
    Past(Abs(r))
  }

  ghost predicate Past(a: Node) {
    forall tag, v :: VoteMsg(tag, v) in a.issued && v.signs == [Sign(true, a.id, RoundText(v.data))] ==>
      RoundKey(v.data) < StateKey(a.t)
  }

  /** So a vote for the current round is a new message. */
  lemma VoteIsNew(r: Replica, tag: Phase, v: Vote)
    requires VotesPast(r) && v.signs == [Sign(true, r.id, RoundText(v.data))] && RoundKey(v.data) == StateKey(r.t)
    ensures VoteMsg(tag, v) !in r.issued
  {
  }

  /** The replica has stopped in a view that a trusted replica leads, and a PRE-COMMIT certificate for the
      block it executed there was cached. */
  predicate StrayLock(cfg: Config, r: Replica, r': Replica) {
    var v := r'.view;
    && TeeLed(cfg, v) && v in r'.processedCommit && v in r'.blocks && TimeToStop(cfg, r')
    && Cached(r, Future(PreCommit, v))
    && EqHashes(BlockHash(r'.blocks[v]), r.future[Future(PreCommit, v)][0].data.proph)
  }

  /** From r to r' all new votes are in phase, except exactly when r' has stopped in a view above `from` with a
      stray lock. */
  ghost predicate Exact(cfg: Config, r: Replica, r': Replica, from: int) {
    && (NewVotesInPhase(r, r') <==> !(r'.view > from && StrayLock(cfg, r, r')))
    && CacheShrinks(r, r') && r.view <= r'.view
  }

  /** What precedes in phase, and takes no PRE-COMMIT certificate of a view above `from` out of the cache. */
  lemma ExactAfter(cfg: Config, r: Replica, x: Replica, r': Replica, from: int)
    requires Orderly(r, x) && r.issued <= x.issued && Exact(cfg, x, r', from)
    requires forall k :: k in r.future && k.tag == PreCommit && k.view > from && TeeLed(cfg, k.view) ==> k in x.future
    ensures Exact(cfg, r, r', from)
  {
  }

  /** Nothing was executed in the view at hand. */
  lemma ExactUnexecuted(cfg: Config, r: Replica, r': Replica, from: int)
    requires Orderly(r, r') && r'.view !in r'.processedCommit
    ensures Exact(cfg, r, r', from)
  {
  }

  /** A certificate that is executed for sure. */
  predicate Executable(r: Replica, d: RData) {
    d.propv !in r.processedCommit && d.propv in r.blocks && EqHashes(BlockHash(r.blocks[d.propv]), d.proph)
  }

  function Executed(r: Replica, d: RData): Replica {
    r.(processedCommit := r.processedCommit + {d.propv}, executed := r.executed + [d])
  }

  lemma ExecuteExact(cfg: Config, r: Replica, cert: Vote)
    requires cfg.Valid() && Inv(cfg, r) && CertMsg(cert) in Known(r) && cert.data.propv <= r.view
    requires ValidCert(cfg, cert.data, cert.signs) && Final(cfg, cert.data)
    requires cfg.f > 0 ==> VotesPast(r)
    ensures var r' := ExecuteComb(cfg, r, cert.data);
      if !Executable(r, cert.data) then r' == r
      else if TimeToStop(cfg, Executed(r, cert.data)) then r' == Executed(r, cert.data)
      else Exact(cfg, r, r', r.view) && r'.view > r.view
    ensures Exact(cfg, r, ExecuteComb(cfg, r, cert.data), r.view)
    decreases |r.future|, 4
  {
    hide StartNewView, ValidCert, TimeToStop;
    var r1 := Executed(r, cert.data);
    if Executable(r, cert.data) && !TimeToStop(cfg, r1) {
      ExecutedInv(cfg, r, cert.data);
      hide Inv;
      RefinesAct(cfg, r, Act.Execute(cert), r1);
      StartNewViewExact(cfg, r1);
      ExactAfter(cfg, r, r1, StartNewView(cfg, r1), r.view);
    }
  }

  /** The new-view signed and sent, before anything received early is looked at. */
  lemma EntersWith(cfg: Config, r: Replica) returns (r3: Replica, v: Vote)
    requires cfg.Valid() && Inv(cfg, r)
    ensures r3 == r.(t := r.t.(view := r.view + 1, phase := Prepare), signed := r3.signed, view := r.view + 1,
                     issued := r.issued + {VoteMsg(NewView, v)})
    ensures Refines(cfg, r, r3) && v.data.phase == NewView
    ensures StartNewView(cfg, r)
         == var r4 := HandleEarlier(cfg, r3); if Leads(cfg, r3, r3.view) then HandleNewView(cfg, r4, v) else r4
  {
    InvFacts(cfg, r);
    hide Inv, Refines, HandleEarlier, HandleNewView, Leads, SignPast;
    SignPastLaw(r.t, r.id, r.view);
    EnterRefines(cfg, r);
    v := SignPast(r.t, r.id, r.view).2;
    var (t, ds, w) := SignPast(r.t, r.id, r.view);
    r3 := Issue(r.(t := t, signed := r.signed + ds, view := r.view + 1), VoteMsg(NewView, v));
  }

  lemma OnlyNewView(cfg: Config, r: Replica, r3: Replica, v: Vote)
    requires Inv(cfg, r) && v.data.phase == NewView
    requires r3 == r.(t := r.t.(view := r.view + 1, phase := Prepare), signed := r3.signed, view := r.view + 1,
                      issued := r.issued + {VoteMsg(NewView, v)})
    ensures Entered(r3) && Orderly(r, r3)
  {
    InvFacts(cfg, r);
    hide Inv;
  }

  lemma Enters(cfg: Config, r: Replica) returns (r3: Replica, v: Vote)
    requires cfg.Valid() && Inv(cfg, r) && (cfg.f > 0 ==> VotesPast(r))
    ensures r3 == r.(t := r.t.(view := r.view + 1, phase := Prepare), signed := r3.signed, view := r.view + 1,
                     issued := r3.issued)
    ensures Inv(cfg, r3) && (cfg.f > 0 ==> VotesPast(r3))
    ensures Entered(r3) && Orderly(r, r3) && r.issued <= r3.issued && r3.future == r.future && r3.view == r.view + 1
    ensures StartNewView(cfg, r)
         == var r4 := HandleEarlier(cfg, r3); if Leads(cfg, r3, r3.view) then HandleNewView(cfg, r4, v) else r4
  {
    hide StartNewView, HandleEarlier, HandleNewView, Inv, VotesPast, Leads, Reaches;
    r3, v := EntersWith(cfg, r);
    assert Inv(cfg, r3);
    hide Refines;
    if cfg.f > 0 { RefinesPast(cfg, r, r3); }
    OnlyNewView(cfg, r, r3, v);
    hide Orderly, Entered;
  }

  /** Entering a view, through any number of nested views and whatever was received early: all votes are in
      phase, except exactly when it ends in a stop with a stray lock. */
  lemma StartNewViewExact(cfg: Config, r: Replica)
    requires cfg.Valid() && Inv(cfg, r)
    requires cfg.f > 0 ==> VotesPast(r)
    ensures var r' := StartNewView(cfg, r); Exact(cfg, r, r', r.view) && r'.view > r.view
    decreases |r.future|, 3
  {
    var r3, v := Enters(cfg, r);
    hide StartNewView, HandleEarlier, HandleNewView, Inv, VotesPast, Orderly;
    HandleEarlierExact(cfg, r3);
    var r4 := HandleEarlier(cfg, r3);
    if Leads(cfg, r3, r3.view) { LeaderEntersExact(cfg, r3, r4, v, r.view); }
    ExactAfter(cfg, r, r3, StartNewView(cfg, r), r.view);
  }

  /** A leader that has caught up handles its own new-view. */
  lemma LeaderEntersExact(cfg: Config, r: Replica, r4: Replica, m: Vote, from: int)
    requires cfg.maxSigs > 0 && Orderly(r, r4) && Ready(r4)
    requires r4.view == r.view && r4.processedCommit == r.processedCommit && r.view !in r.processedCommit
    ensures var r' := HandleNewView(cfg, r4, m); Exact(cfg, r, r', from) && r'.view == r.view
  {
    HandleNewViewOrderly(cfg, r4, m);
    hide HandleNewView, Orderly, Exact;
    OrderlyTrans(r, r4, HandleNewView(cfg, r4, m));
    ExactUnexecuted(cfg, r, HandleNewView(cfg, r4, m), from);
  }

  lemma HandleEarlierExact(cfg: Config, r: Replica)
    requires cfg.Valid() && Inv(cfg, r) && Entered(r)
    requires cfg.f > 0 ==> VotesPast(r)
    ensures var r' := HandleEarlier(cfg, r);
      && Exact(cfg, r, r', r.view - 1) && r.view <= r'.view
      && (Leads(cfg, r, r.view) ==>
            Orderly(r, r') && Ready(r') && r'.view == r.view && r'.processedCommit == r.processedCommit)
    decreases |r.future|, 2
  {
    hide PrepareComb, ReplayProposal, ReplayCertificates, NewViewThreshold, Inv, Voted, VotesPast;
    if Leads(cfg, r, r.view) {
      PrepareCombOrderly(cfg, r);
      ExactUnexecuted(cfg, r, HandleEarlier(cfg, r), r.view - 1);
    } else {
      OthersLead(cfg, r);
      ReplayProposalRefines(cfg, r);
      ReplayProposalOrderly(cfg, r);
      var r1 := ReplayProposal(cfg, r);
      RefinesPast(cfg, r, r1);
      if r1.view in r1.blocks {
        var hash := BlockHash(r1.blocks[r1.view]);
        ReplayCertificatesExact(cfg, r1, hash);
        ExactAfter(cfg, r, r1, ReplayCertificates(cfg, r1, hash), r.view - 1);
      } else {
        ExactUnexecuted(cfg, r, r1, r.view - 1);
      }
    }
  }

  /** A single replica leads every view. */
  lemma OthersLead(cfg: Config, r: Replica)
    requires cfg.Valid() && Inv(cfg, r) && !Leads(cfg, r, r.view)
    ensures cfg.f > 0
  {
    hide LogOk, FutureOk;
    assert cfg.f == 0 ==> cfg.LeaderOf(r.view) == 0;
  }

  lemma ReplayCertificatesExact(cfg: Config, r: Replica, hash: Hash)
    requires cfg.Valid() && Inv(cfg, r) && cfg.f > 0 && VotesPast(r) && Voted(r, hash)
    ensures Exact(cfg, r, ReplayCertificates(cfg, r, hash), r.view - 1)
    decreases |r.future|, 1
  {
    hide TimeToStop, ReplayCertificates;
    if CachedFor(r, Prepare, hash) {
      if TeeLed(cfg, r.view) { ReplayFinalExact(cfg, r, hash); } else { ReplayPrepareExact(cfg, r, hash); }
    } else {
      NoPrepareToReplay(cfg, r, hash);
      ExactUnexecuted(cfg, r, r, r.view - 1);
    }
  }

  lemma NoPrepareToReplay(cfg: Config, r: Replica, hash: Hash)
    requires cfg.maxSigs > 0 && !CachedFor(r, Prepare, hash)
    ensures ReplayCertificates(cfg, r, hash) == r
  {
  }

  /** Under a trusted leader: the final certificate is executed. */
  lemma ReplayFinalExact(cfg: Config, r: Replica, hash: Hash)
    requires cfg.Valid() && Inv(cfg, r) && cfg.f > 0 && VotesPast(r) && Voted(r, hash) && CachedFor(r, Prepare, hash)
    requires TeeLed(cfg, r.view)
    ensures Exact(cfg, r, ReplayCertificates(cfg, r, hash), r.view - 1)
    decreases |r.future|, 0
  {
    var k := Future(Prepare, r.view);
    var m := r.future[k][0];
    EraseRefines(cfg, r, k);
    var r1 := r.(future := Erase(r.future, k));
    RefinesPast(cfg, r, r1);
    ExecuteExact(cfg, r1, m);
    hide ValidCert, ExecuteComb, ReplayPreCommit, VotesPast;
    if TimeToStop(cfg, Executed(r1, m.data)) {
      StoppingExact(cfg, r, hash);
    } else {
      hide Inv, TimeToStop;
      var r2 := ExecuteComb(cfg, r1, m.data);
      assert ReplayCertificates(cfg, r, hash) == r2;
      ExactFrom(cfg, r1, r2);
      ExactAfter(cfg, r, r1, r2, r.view - 1);
    }
  }

  lemma ExactFrom(cfg: Config, r: Replica, r': Replica)
    requires Exact(cfg, r, r', r.view) && r'.view > r.view
    ensures Exact(cfg, r, r', r.view - 1)
  {
  }

  /** Under another leader: the certificates are stored one after the other. */
  lemma ReplayPrepareExact(cfg: Config, r: Replica, hash: Hash)
    requires cfg.Valid() && Inv(cfg, r) && cfg.f > 0 && VotesPast(r) && Voted(r, hash) && CachedFor(r, Prepare, hash)
    requires !TeeLed(cfg, r.view)
    ensures Exact(cfg, r, ReplayCertificates(cfg, r, hash), r.view - 1)
    decreases |r.future|, 0
  {
    var k := Future(Prepare, r.view);
    var m := r.future[k][0];
    EraseRefines(cfg, r, k);
    var r1 := r.(future := Erase(r.future, k));
    StoreRefines(cfg, r1, m);
    var r2 := StoreAndSend(cfg, r1, m, PreCommit);
    RefinesPast(cfg, r, r1);
    RefinesPast(cfg, r1, r2);
    StoreOrderly(cfg, r1, m, PreCommit);
    hide Inv, ValidCert, StoreAndSend, ReplayPreCommit, VotesPast;
    assert ReplayCertificates(cfg, r, hash) == ReplayPreCommit(cfg, r2, hash);
    ReplayPreCommitExact(cfg, r2, hash);
    ExactAfter(cfg, r1, r2, ReplayPreCommit(cfg, r2, hash), r.view - 1);
    ExactAfter(cfg, r, r1, ReplayPreCommit(cfg, r2, hash), r.view - 1);
  }

  lemma NothingToReplay(cfg: Config, r: Replica, hash: Hash)
    requires cfg.maxSigs > 0 && !CachedFor(r, PreCommit, hash)
    ensures ReplayPreCommit(cfg, r, hash) == r
  {
  }

  lemma ReplayPreCommitExact(cfg: Config, r: Replica, hash: Hash)
    requires cfg.Valid() && Inv(cfg, r) && cfg.f > 0 && VotesPast(r) && r.t.phase == Commit
    requires !TeeLed(cfg, r.view) && r.view !in r.processedCommit
    ensures Exact(cfg, r, ReplayPreCommit(cfg, r, hash), r.view - 1)
    decreases |r.future|, 6
  {
    if CachedFor(r, PreCommit, hash) {
      var k := Future(PreCommit, r.view);
      var m := r.future[k][0];
      EraseRefines(cfg, r, k);
      var r1 := r.(future := Erase(r.future, k));
      StoreRefines(cfg, r1, m);
      var r2 := StoreAndSend(cfg, r1, m, Commit);
      RefinesPast(cfg, r, r1);
      RefinesPast(cfg, r1, r2);
      StoreOrderly(cfg, r1, m, Commit);
      hide Inv, ValidCert, StoreAndSend, ReplayCommit, VotesPast;
      assert ReplayPreCommit(cfg, r, hash) == ReplayCommit(cfg, r2, hash);
      ReplayCommitExact(cfg, r2, hash);
      ExactAfter(cfg, r1, r2, ReplayCommit(cfg, r2, hash), r.view - 1);
      ExactAfter(cfg, r, r1, ReplayCommit(cfg, r2, hash), r.view - 1);
    } else {
      NothingToReplay(cfg, r, hash);
      ExactUnexecuted(cfg, r, r, r.view - 1);
    }
  }

  lemma ReplayCommitExact(cfg: Config, r: Replica, hash: Hash)
    requires cfg.Valid() && Inv(cfg, r) && cfg.f > 0 && VotesPast(r) && !TeeLed(cfg, r.view)
    requires r.view !in r.processedCommit
    ensures Exact(cfg, r, ReplayCommit(cfg, r, hash), r.view - 1)
    decreases |r.future|, 6
  {
    if CachedFor(r, Commit, hash) {
      var k := Future(Commit, r.view);
      var m := r.future[k][0];
      EraseRefines(cfg, r, k);
      var r1 := r.(future := Erase(r.future, k));
      RefinesPast(cfg, r, r1);
      ExecuteExact(cfg, r1, m);
      hide Inv, ValidCert, ExecuteComb, VotesPast, TimeToStop;
      var r' := ExecuteComb(cfg, r1, m.data);
      assert ReplayCommit(cfg, r, hash) == r';
      if r'.view > r.view { ExactFrom(cfg, r1, r'); }
      ExactAfter(cfg, r, r1, r', r.view - 1);
    } else {
      NoCommitToReplay(cfg, r, hash);
      ExactUnexecuted(cfg, r, r, r.view - 1);
    }
  }

  lemma NoCommitToReplay(cfg: Config, r: Replica, hash: Hash)
    requires cfg.maxSigs > 0 && !CachedFor(r, Commit, hash)
    ensures ReplayCommit(cfg, r, hash) == r
  {
  }

  // ---- the stop

  predicate CachedFor(r: Replica, tag: Phase, hash: Hash) {
    var k := Future(tag, r.view);
    Cached(r, k) && EqHashes(hash, r.future[k][0].data.proph)
  }

  /** When the replica is about to stop in a view that a trusted replica leads, replaying the cached
      certificates stays in phase exactly when the final PREPARE and a PRE-COMMIT certificate for the block
      are not both cached: the final one is executed without a new view, and the other is then answered
      with a COMMIT message that carries a PRE-COMMIT signature. */
  lemma StoppingInPhase(cfg: Config, r: Replica, hash: Hash)
    requires cfg.Valid() && Inv(cfg, r) && Voted(r, hash) && TeeLed(cfg, r.view)
    requires TimeToStop(cfg, r.(processedCommit := r.processedCommit + {r.view}))
    requires VotesPast(r)
    ensures NewVotesInPhase(r, ReplayCertificates(cfg, r, hash))
      <==> !(CachedFor(r, Prepare, hash) && CachedFor(r, PreCommit, hash))
  {
    hide Inv, TimeToStop, VotesPast, ReplayCertificates, ReplayPreCommit;
    if CachedFor(r, Prepare, hash) {
      StoppingExact(cfg, r, hash);
      StoppedLocks(cfg, r, hash);
    } else {
      NoPrepareToReplay(cfg, r, hash);
    }
  }

  /** Before a replica enters the next view: another, trusted replica leads it, the component will accept the
      proposal stored for it, and both certificates are cached for its block. */
  predicate WillStray(cfg: Config, r: Replica) {
    var v := r.view + 1;
    var p := FirstProposal(r.log, v);
    && TeeLed(cfg, v) && !Leads(cfg, r, v)
    && p.Some? && p.value.sign.isSet
    && TeePrepare(cfg, r.t.(view := v, phase := Prepare), r.id, p.value.block, p.value.acc, p.value.proof).1.Some?
    && CachedFor(r.(view := v), Prepare, BlockHash(p.value.block))
    && CachedFor(r.(view := v), PreCommit, BlockHash(p.value.block))
  }

  /** When the next view is the last one, no view follows it, and entering it stays in phase exactly when that
      is not so. */
  lemma LastViewExact(cfg: Config, r: Replica)
    requires cfg.Valid() && Inv(cfg, r) && (cfg.f > 0 ==> VotesPast(r))
    requires TimeToStop(cfg, r.(processedCommit := r.processedCommit + {r.view + 1}))
    ensures var r' := StartNewView(cfg, r);
      (NewVotesInPhase(r, r') <==> !WillStray(cfg, r)) && r'.view == r.view + 1
  {
    var r3, v := Enters(cfg, r);
    hide StartNewView, HandleEarlier, HandleNewView, Inv, VotesPast, TeePrepare;
    if Leads(cfg, r3, r3.view) {
      HandleEarlierExact(cfg, r3);
      HandleNewViewOrderly(cfg, HandleEarlier(cfg, r3), v);
    } else {
      LastViewFollowed(cfg, r3);
      hide CachedFor, TimeToStop;
      SameCaches(r, r3);
    }
  }

  lemma SameCaches(r: Replica, r3: Replica)
    requires r3.future == r.future
    ensures forall tag, hash :: CachedFor(r.(view := r3.view), tag, hash) <==> CachedFor(r3, tag, hash)
  {
  }

  /** A backup that catches up in its last view. */
  lemma LastViewFollowed(cfg: Config, r: Replica)
    requires cfg.Valid() && Inv(cfg, r) && Entered(r) && !Leads(cfg, r, r.view) && (cfg.f > 0 ==> VotesPast(r))
    requires TimeToStop(cfg, r.(processedCommit := r.processedCommit + {r.view}))
    ensures var r' := HandleEarlier(cfg, r); var p := FirstProposal(r.log, r.view);
      && r'.view == r.view && r.issued <= r'.issued
      && (NewVotesInPhase(r, r') <==>
            !(TeeLed(cfg, r.view) && Replayed(cfg, r) && CachedFor(r, Prepare, BlockHash(p.value.block))
              && CachedFor(r, PreCommit, BlockHash(p.value.block))))
  {
    OthersLead(cfg, r);
    ReplayProposalRefines(cfg, r);
    ReplayProposalOrderly(cfg, r);
    ReplayedBlock(cfg, r);
    var r1 := ReplayProposal(cfg, r);
    RefinesPast(cfg, r, r1);
    hide ReplayProposal, ReplayCertificates, Inv, VotesPast, TimeToStop, Replayed;
    if r1.view in r1.blocks { LastViewReplays(cfg, r1, BlockHash(r1.blocks[r1.view])); }
  }

  /** The stored proposal of the current view will be voted for. */
  predicate Replayed(cfg: Config, r: Replica) {
    var p := FirstProposal(r.log, r.view);
    p.Some? && p.value.sign.isSet && TeePrepare(cfg, r.t, r.id, p.value.block, p.value.acc, p.value.proof).1.Some?
  }

  lemma ReplayedBlock(cfg: Config, r: Replica)
    requires Entered(r)
    ensures var r1 := ReplayProposal(cfg, r);
      && r1 == r.(t := r1.t, signed := r1.signed, issued := r1.issued, blocks := r1.blocks)
      && (Replayed(cfg, r) <==> r.view in r1.blocks)
      && (Replayed(cfg, r) ==> r1.blocks[r.view] == FirstProposal(r.log, r.view).value.block)
  {
    hide TeePrepare;
    var p := FirstProposal(r.log, r.view);
    if p.Some? { RefusedFrame(cfg, r, p.value); }
  }

  lemma RefusedFrame(cfg: Config, r: Replica, p: Proposal)
    ensures TeePrepare(cfg, r.t, r.id, p.block, p.acc, p.proof).1.None? ==>
      RespondToLdrPrepare(cfg, r, p.block, p.acc, p.proof) == r
  {
    hide TeePrepare;
  }

  lemma LastViewReplays(cfg: Config, r: Replica, hash: Hash)
    requires cfg.Valid() && Inv(cfg, r) && cfg.f > 0 && VotesPast(r) && Voted(r, hash)
    requires TimeToStop(cfg, r.(processedCommit := r.processedCommit + {r.view}))
    ensures var r' := ReplayCertificates(cfg, r, hash);
      && r'.view == r.view && r.issued <= r'.issued
      && (NewVotesInPhase(r, r') <==>
            !(TeeLed(cfg, r.view) && CachedFor(r, Prepare, hash) && CachedFor(r, PreCommit, hash)))
  {
    ReplayCertificatesRefines(cfg, r, hash);
    RefinesKeepsIssued(cfg, r, ReplayCertificates(cfg, r, hash));
    hide Inv, VotesPast, ReplayCertificates, Refines;
    if TeeLed(cfg, r.view) {
      StoppingInPhase(cfg, r, hash);
      if CachedFor(r, Prepare, hash) { StoppedLocks(cfg, r, hash); } else { NoPrepareToReplay(cfg, r, hash); }
    } else {
      StopKeepsView(cfg, r, hash);
      ReplayCertificatesExact(cfg, r, hash);
    }
  }

  /** No view follows once the current one has been executed. */
  predicate InLastView(cfg: Config, r: Replica) {
    TimeToStop(cfg, r.(processedCommit := r.processedCommit + {r.view}))
  }

  lemma StillLastView(cfg: Config, r: Replica, r': Replica)
    requires InLastView(cfg, r) && r'.processedCommit == r.processedCommit && r'.view == r.view
    ensures InLastView(cfg, r')
  {
  }

  /** Under another leader the last view ends with the COMMIT certificate. */
  lemma StopKeepsView(cfg: Config, r: Replica, hash: Hash)
    requires cfg.Valid() && Inv(cfg, r) && !TeeLed(cfg, r.view) && InLastView(cfg, r)
    ensures ReplayCertificates(cfg, r, hash).view == r.view
  {
    if CachedFor(r, Prepare, hash) {
      hide InLastView, ReplayPreCommit, ValidCert, StoreAndSend, FutureOk, LogOk;
      var r2 := StoresCached(cfg, r, Prepare, hash);
      assert ReplayCertificates(cfg, r, hash) == ReplayPreCommit(cfg, r2, hash);
      hide Inv;
      PreCommitKeepsView(cfg, r2, hash);
    } else {
      NoPrepareToReplay(cfg, r, hash);
    }
  }

  lemma StoresCached(cfg: Config, r: Replica, tag: Phase, hash: Hash) returns (r2: Replica)
    requires cfg.Valid() && Inv(cfg, r) && InLastView(cfg, r) && CachedFor(r, tag, hash)
    requires tag == PreCommit || (tag == Prepare && !TeeLed(cfg, r.view))
    ensures var k := Future(tag, r.view);
      && r2 == StoreAndSend(cfg, r.(future := Erase(r.future, k)), r.future[k][0], NextTag(tag))
      && ValidQC(cfg, tag, r.future[k][0])
    ensures Inv(cfg, r2) && InLastView(cfg, r2) && r2.view == r.view
  {
    var k := Future(tag, r.view);
    var m := r.future[k][0];
    EraseRefines(cfg, r, k);
    var r1 := r.(future := Erase(r.future, k));
    r2 := StoreAndSend(cfg, r1, m, NextTag(tag));
    hide ValidCert, StoreAndSend, InLastView, FutureOk, LogOk;
    StoreRefines(cfg, r1, m);
    hide Inv;
    StoreFrame(cfg, r1, m, NextTag(tag));
    StillLastView(cfg, r, r2);
  }

  lemma PreCommitKeepsView(cfg: Config, r: Replica, hash: Hash)
    requires cfg.Valid() && Inv(cfg, r) && InLastView(cfg, r)
    ensures ReplayPreCommit(cfg, r, hash).view == r.view
  {
    if CachedFor(r, PreCommit, hash) {
      hide InLastView, ReplayCommit, ValidCert, StoreAndSend, Inv;
      var r2 := StoresCached(cfg, r, PreCommit, hash);
      assert ReplayPreCommit(cfg, r, hash) == ReplayCommit(cfg, r2, hash);
      CommitKeepsView(cfg, r2, hash);
    } else {
      NothingToReplay(cfg, r, hash);
    }
  }

  lemma CommitKeepsView(cfg: Config, r: Replica, hash: Hash)
    requires cfg.Valid() && Inv(cfg, r) && InLastView(cfg, r)
    ensures ReplayCommit(cfg, r, hash).view == r.view
  {
    if CachedFor(r, Commit, hash) {
      var k := Future(Commit, r.view);
      var r1 := r.(future := Erase(r.future, k));
      EraseRefines(cfg, r, k);
      hide Inv, ValidCert, ExecuteComb;
      StillLastView(cfg, r, r1);
      hide InLastView;
      ExecuteKeepsView(cfg, r1, r.future[k][0].data);
    } else {
      NoCommitToReplay(cfg, r, hash);
    }
  }

  lemma ExecuteKeepsView(cfg: Config, r: Replica, data: RData)
    requires cfg.maxSigs > 0 && data.propv == r.view && InLastView(cfg, r)
    ensures ExecuteComb(cfg, r, data).view == r.view
  {
    hide StartNewView;
  }

  /** After the final certificate of the current view was executed and no view follows. */
  function Stopped(r: Replica): Replica
    requires Cached(r, Future(Prepare, r.view))
  {
    var k := Future(Prepare, r.view);
    Executed(r.(future := Erase(r.future, k)), r.future[k][0].data)
  }

  lemma StoppedExecution(cfg: Config, r: Replica, hash: Hash)
    requires cfg.Valid() && Inv(cfg, r) && Voted(r, hash) && TeeLed(cfg, r.view) && CachedFor(r, Prepare, hash)
    requires TimeToStop(cfg, r.(processedCommit := r.processedCommit + {r.view}))
    ensures ReplayCertificates(cfg, r, hash) == ReplayPreCommit(cfg, Stopped(r), hash)
    ensures Inv(cfg, Stopped(r)) && TimeToStop(cfg, Stopped(r))
    ensures Stopped(r).processedCommit == r.processedCommit + {r.view}
  {
    var k := Future(Prepare, r.view);
    var m := r.future[k][0];
    EraseRefines(cfg, r, k);
    var r1 := r.(future := Erase(r.future, k));
    ExecuteRefines(cfg, r1, m);
    hide Inv, ValidCert, ReplayPreCommit, StartNewView;
    assert ExecuteComb(cfg, r1, m.data) == Stopped(r);
  }

  /** The view at hand has been executed: the certificates that are left change no view and no block. */
  lemma ReplayDone(cfg: Config, r: Replica, hash: Hash)
    requires cfg.Valid() && Inv(cfg, r) && r.view in r.processedCommit
    ensures var r' := ReplayPreCommit(cfg, r, hash);
      r'.view == r.view && r'.blocks == r.blocks && r'.processedCommit == r.processedCommit && CacheShrinks(r, r')
      && r'.executed == r.executed
    ensures !CachedFor(r, PreCommit, hash) ==> ReplayPreCommit(cfg, r, hash) == r
  {
    if CachedFor(r, PreCommit, hash) {
      var k := Future(PreCommit, r.view);
      var m := r.future[k][0];
      EraseRefines(cfg, r, k);
      var r1 := r.(future := Erase(r.future, k));
      StoreRefines(cfg, r1, m);
      var r2 := StoreAndSend(cfg, r1, m, Commit);
      hide Inv;
      StoreFrame(cfg, r1, m, Commit);
      hide StoreAndSend;
      ReplayCommitDone(cfg, r2, hash);
    }
  }

  lemma StoreFrame(cfg: Config, r: Replica, cert: Vote, tag: Phase)
    ensures var r' := StoreAndSend(cfg, r, cert, tag);
      && r'.blocks == r.blocks && r'.processedCommit == r.processedCommit && r'.future == r.future && r'.view == r.view
      && r'.executed == r.executed && r'.id == r.id
  {
    hide TeeStore;
  }

  lemma ExecuteDone(cfg: Config, r: Replica, m: Vote)
    requires cfg.maxSigs > 0 && m.data.propv in r.processedCommit
    ensures RespondToCommit(cfg, r, m) == r
  {
    hide ValidCert, StartNewView;
    assert ExecuteComb(cfg, r, m.data) == r;
  }

  lemma ReplayCommitDone(cfg: Config, r: Replica, hash: Hash)
    requires cfg.Valid() && Inv(cfg, r) && r.view in r.processedCommit
    ensures var r' := ReplayCommit(cfg, r, hash);
      r' == r.(future := r'.future) && CacheShrinks(r, r')
  {
    if CachedFor(r, Commit, hash) {
      var k := Future(Commit, r.view);
      EraseRefines(cfg, r, k);
      hide Inv, ValidCert, StartNewView;
      assert ReplayCommit(cfg, r, hash) == RespondToCommit(cfg, r.(future := Erase(r.future, k)), r.future[k][0]);
      ExecuteDone(cfg, r.(future := Erase(r.future, k)), r.future[k][0]);
    } else {
      NoCommitToReplay(cfg, r, hash);
    }
  }

  /** A stop leaves a stray lock exactly when a PRE-COMMIT certificate for the block was cached. */
  lemma StoppedLocks(cfg: Config, r: Replica, hash: Hash)
    requires cfg.Valid() && Inv(cfg, r) && Voted(r, hash) && TeeLed(cfg, r.view) && CachedFor(r, Prepare, hash)
    requires TimeToStop(cfg, r.(processedCommit := r.processedCommit + {r.view}))
    ensures var r' := ReplayCertificates(cfg, r, hash);
      && r'.view == r.view && r.view in r'.processedCommit && TimeToStop(cfg, r')
      && CacheShrinks(r, r') && (StrayLock(cfg, r, r') <==> CachedFor(r, PreCommit, hash))
  {
    hide Inv, ReplayPreCommit, ReplayCertificates, ValidCert, CacheShrinks;
    StoppedExecution(cfg, r, hash);
    ReplayDone(cfg, Stopped(r), hash);
    StoppedShrinks(r, ReplayCertificates(cfg, r, hash));
  }

  lemma StoppedShrinks(r: Replica, r': Replica)
    requires Cached(r, Future(Prepare, r.view)) && CacheShrinks(Stopped(r), r')
    ensures CacheShrinks(r, r')
  {
  }

  lemma StoppingExact(cfg: Config, r: Replica, hash: Hash)
    requires cfg.Valid() && Inv(cfg, r) && VotesPast(r) && Voted(r, hash) && TeeLed(cfg, r.view)
    requires CachedFor(r, Prepare, hash)
    requires TimeToStop(cfg, r.(processedCommit := r.processedCommit + {r.view}))
    ensures Exact(cfg, r, ReplayCertificates(cfg, r, hash), r.view - 1)
  {
    StoppedLocks(cfg, r, hash);
    StoppedExecution(cfg, r, hash);
    hide Inv, TimeToStop, ReplayPreCommit, ReplayCertificates, StrayLock;
    if CachedFor(r, PreCommit, hash) {
      assert VotesPast(Stopped(r));
      hide VotesPast;
      StrayVote(cfg, Stopped(r), hash);
      assert !NewVotesInPhase(r, ReplayPreCommit(cfg, Stopped(r), hash));
    } else {
      NothingToReplay(cfg, Stopped(r), hash);
    }
  }

  lemma StrayVote(cfg: Config, r: Replica, hash: Hash)
    requires cfg.Valid() && Inv(cfg, r) && CachedFor(r, PreCommit, hash)
    requires r.t.view == r.view && r.t.phase == PreCommit && VotesPast(r)
    ensures !NewVotesInPhase(r, ReplayPreCommit(cfg, r, hash))
  {
    var k := Future(PreCommit, r.view);
    var m := r.future[k][0];
    EraseRefines(cfg, r, k);
    var r1 := r.(future := Erase(r.future, k));
    StoreRefines(cfg, r1, m);
    var r2 := StoreAndSend(cfg, r1, m, Commit);
    var v := StrayStore(cfg, r1, m);
    VoteIsNew(r, Commit, v);
    hide Inv, StoreAndSend, VotesPast;
    ReplayCommitRefines(cfg, r2, hash);
    RefinesKeepsIssued(cfg, r2, ReplayCommit(cfg, r2, hash));
    assert VoteMsg(Commit, v) in ReplayPreCommit(cfg, r, hash).issued;
  }

  lemma StrayStore(cfg: Config, r: Replica, m: Vote) returns (v: Vote)
    requires ValidQC(cfg, PreCommit, m) && m.data.propv == r.view == r.t.view && r.t.phase == PreCommit
    ensures VoteMsg(Commit, v) in StoreAndSend(cfg, r, m, Commit).issued && v.data.phase == PreCommit
    ensures RoundKey(v.data) == StateKey(r.t) && v.signs == [Sign(true, r.id, RoundText(v.data))]
  {
    v := TeeStore(cfg, r.t, r.id, m).1.value;
  }

  /** Protocol actions take no message back ... */
  lemma RefinesKeepsIssued(cfg: Config, a: Replica, b: Replica)
    requires Refines(cfg, a, b)
    ensures a.issued <= b.issued
  {
    var acts :| Runs(cfg, Abs(a), acts, Abs(b));
    RunsKeepIssued(cfg, Abs(a), acts, Abs(b));
  }

  lemma {:induction false} RunsKeepIssued(cfg: Config, a: Node, acts: seq<Act>, b: Node)
    requires Runs(cfg, a, acts, b)
    ensures a.issued <= b.issued
    decreases |acts|
  {
    if acts != [] { RunsKeepIssued(cfg, Apply(cfg, a, acts[0]), acts[1..], b); }
  }

  /** ... and leave the own votes below the current round: certificates have more than one signature. */
  lemma RefinesPast(cfg: Config, a: Replica, b: Replica)
    requires cfg.Valid() && cfg.f > 0 && Refines(cfg, a, b) && VotesPast(a)
    ensures VotesPast(b)
  {
    hide Past;
    var acts :| Runs(cfg, Abs(a), acts, Abs(b));
    RunsPast(cfg, Abs(a), acts, Abs(b));
  }

  lemma {:induction false} RunsPast(cfg: Config, a: Node, acts: seq<Act>, b: Node)
    requires cfg.Valid() && cfg.f > 0 && Runs(cfg, a, acts, b) && Past(a)
    ensures Past(b)
    decreases |acts|
  {
    hide Past, Enabled, Apply;
    if acts != [] {
      ActPast(cfg, a, acts[0]);
      RunsPast(cfg, Apply(cfg, a, acts[0]), acts[1..], b);
    }
  }

  lemma ActPast(cfg: Config, a: Node, act: Act)
    requires cfg.Valid() && cfg.f > 0 && Enabled(cfg, a, act) && Past(a)
    ensures Past(Apply(cfg, a, act))
  {
    match act
    case EnterView => EnterPast(cfg, a);
    case Propose(acc, block, proof) => ProposePast(cfg, a, block, acc, proof);
    case VoteFor(p) => ProposePast(cfg, a, p.block, p.acc, p.proof);
    case StoreQC(cert) => StorePast(cfg, a, cert);
    case IssueQC(cert) => assert |cert.signs| >= 2;
    case Execute(cert) =>
  }

  lemma EnterPast(cfg: Config, a: Node)
    requires Past(a) && Lockstep(a.t, a.view)
    ensures Past(Apply(cfg, a, EnterView))
  {
    SignPastLaw(a.t, a.id, a.view);
    hide SignPast;
  }

  lemma ProposePast(cfg: Config, a: Node, block: Block, acc: Accum, proof: seq<OneJust>)
    requires Past(a)
    ensures Past(Apply(cfg, a, Propose(acc, block, proof)))
    ensures forall p: Proposal :: p.block == block && p.acc == acc && p.proof == proof ==>
      Past(Apply(cfg, a, VoteFor(p)))
  {
    if TeePrepare(cfg, a.t, a.id, block, acc, proof).1.Some? { AcceptedProposal(cfg, a.t, a.id, block, acc, proof); }
    hide TeePrepare;
  }

  lemma StorePast(cfg: Config, a: Node, cert: Vote)
    requires Past(a)
    ensures Past(Apply(cfg, a, StoreQC(cert)))
  {
  }

  // ---- when nothing can go wrong

  /** Unless replicas stop after a number of views, nothing is asked; otherwise no PRE-COMMIT certificate is
      cached for a view that a trusted replica leads. */
  ghost predicate NoStrayLock(cfg: Config, r: Replica) {
    cfg.maxViews == 0 || forall k :: Cached(r, k) && k.tag == PreCommit ==> !TeeLed(cfg, k.view)
  }

  lemma NoStrayLockLaw(cfg: Config, r: Replica, r': Replica, from: int)
    requires NoStrayLock(cfg, r) && Exact(cfg, r, r', from)
    ensures Orderly(r, r')
  {
    assert r'.view > from && StrayLock(cfg, r, r') ==> Cached(r, Future(PreCommit, r'.view));
  }

  /** Then entering a view is orderly. */
  lemma StartNewViewOrderly(cfg: Config, r: Replica)
    requires cfg.Valid() && Inv(cfg, r) && (cfg.f > 0 ==> VotesPast(r)) && NoStrayLock(cfg, r)
    ensures var r' := StartNewView(cfg, r); Orderly(r, r') && r'.view > r.view
  {
    StartNewViewExact(cfg, r);
    hide Inv, StartNewView;
    NoStrayLockLaw(cfg, r, StartNewView(cfg, r), r.view);
  }

  // ---- the results, for every run

  /** Entering the next view signs at most four times, in order, and ends with a NEW-VIEW signature for
      exactly the next view that claims the prepared block: the branch for a wrong last signature is never
      taken. */
  lemma SigningLoopInEveryRun(cfg: Config, sys: System.State, q: PID)
    requires cfg.Valid() && System.Reachable(cfg, sys) && q in sys && sys[q].started
    ensures var r := sys[q]; var (t, ds, w) := SignPast(r.t, r.id, r.view);
      && 1 <= |ds| <= 4
      && (forall i :: 0 <= i < |ds| ==> RoundKey(ds[i]) == StateKey(r.t) + i)
      && w.data == RData(NO_HASH, r.view + 1, r.t.preph, r.t.prepv, NewView) && |w.signs| == 1
      && t == r.t.(view := r.view + 1, phase := Prepare)
  {
    System.LockstepInEveryRun(cfg, sys, q);
    hide System.Reachable;
    var r := sys[q];
    SignPastLaw(r.t, r.id, r.view);
  }

  /** In every run, entering a view and catching up there, through any number of further views, makes every
      vote in the phase of its message type. */
  lemma CatchUpInEveryRun(cfg: Config, sys: System.State, q: PID)
    requires cfg.Valid() && System.Reachable(cfg, sys) && q in sys && sys[q].started
    ensures var r := sys[q];
      Orderly(r, StartNewView(cfg, r)) && StartNewView(cfg, r).view > r.view
  {
    System.ReachableGood(cfg, sys);
    hide System.Reachable, StartNewView;
    NoStrayLockInRun(cfg, sys, q);
    VotesPastInRun(cfg, sys, q);
    hide VotesPast;
    StartNewViewOrderly(cfg, sys[q]);
  }

  lemma VotesPastInRun(cfg: Config, sys: System.State, q: PID)
    requires System.Good(cfg, sys) && q in sys
    ensures VotesPast(sys[q])
  {
    var r := sys[q];
    var w := System.World(sys);
    System.GoodAt(cfg, sys, q);
    hide System.Good, S.Inv, Inv, S.Claim, S.LockClaim;
    forall tag, v | VoteMsg(tag, v) in r.issued && v.signs == [Sign(true, r.id, RoundText(v.data))]
      ensures RoundKey(v.data) < StateKey(r.t)
    {
      S.KnownSent(cfg, w, q, VoteMsg(tag, v));
      assert v.signs[0] in v.signs && S.SignOk(cfg, w, tag, v.data, v.signs[0]);
    }
  }

  lemma NoStrayLockInRun(cfg: Config, sys: System.State, q: PID)
    requires System.Good(cfg, sys) && q in sys && sys[q].started
    ensures Inv(cfg, sys[q]) && NoStrayLock(cfg, sys[q])
  {
    System.GoodAt(cfg, sys, q);
    hide System.Good, Inv;
    forall k | Cached(sys[q], k) && k.tag == PreCommit ensures !TeeLed(cfg, k.view) { NoLockUnderTEE(cfg, sys, q, k); }
  }

  lemma NoLockUnderTEE(cfg: Config, sys: System.State, q: PID, k: Future)
    requires System.Good(cfg, sys) && q in sys && sys[q].started && Cached(sys[q], k) && k.tag == PreCommit
    ensures !TeeLed(cfg, k.view)
  {
    var r := sys[q];
    var w := System.World(sys);
    assert Inv(cfg, r);
    assert CachedOk(cfg, Known(r), k, r.future[k][0]);
    hide Inv;
    S.KnownSent(cfg, w, q, VoteMsg(PreCommit, r.future[k][0]));
  }
}
