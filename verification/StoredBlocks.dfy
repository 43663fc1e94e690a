/** A replica executes only the block it holds for the view, and under a trusted leader it holds only its own
    proposal or one that passed the proposal test: for arbitrary messages, from any peers, in any order. */
module StoredBlocks {
  import opened Types
  import opened Quorums
  import opened Certificates
  import opened TrustedMachine
  import opened VoteLog
  import opened Replicas
  import opened Protocol
  import opened Refinement

  /** A known proposal for view v that passes the proposal test is for the block of this hash. */
  ghost predicate Backed(cfg: Config, known: set<Msg>, v: View, hash: Hash) {
    exists p: Proposal ::
      LdrMsg(p) in known && VerifyLdrPrepare(cfg, p) && p.acc.view == v && EqHashes(BlockHash(p.block), hash)
  }

  ghost predicate BlocksBacked(cfg: Config, known: set<Msg>, blocks: map<View, Block>) {
    forall v :: v in blocks && TeeLed(cfg, v) ==> Backed(cfg, known, v, BlockHash(blocks[v]))
  }

  ghost predicate ExecutedBacked(cfg: Config, known: set<Msg>, executed: seq<RData>) {
    forall d :: d in executed && TeeLed(cfg, d.propv) ==> Backed(cfg, known, d.propv, d.proph)
  }

  /** A trusted replica leads no view with a PRE-COMMIT or COMMIT phase. */
  predicate TrustedPhase(cfg: Config, r: Replica) {
    cfg.IsTEE(r.id) ==> r.phase == NewView || r.phase == Prepare
  }

  /** The component of a trusted leader that has not proposed is at the round of the proposal. */
  predicate MayPropose(cfg: Config, r: Replica) {
    cfg.IsTEE(r.id) && Leads(cfg, r, r.view) && r.view !in r.processedNewViews ==>
      r.t.view == r.view && r.t.phase == Prepare
  }

  ghost predicate Stored(cfg: Config, r: Replica) {
    && BlocksBacked(cfg, Known(r), r.blocks) && ExecutedBacked(cfg, Known(r), r.executed)
    && TrustedPhase(cfg, r) && MayPropose(cfg, r)
  }

  lemma BackedGrows(cfg: Config, known: set<Msg>, known': set<Msg>, v: View, hash: Hash)
    requires Backed(cfg, known, v, hash) && known <= known'
    ensures Backed(cfg, known', v, hash)
  {
    hide VerifyLdrPrepare;
    var p: Proposal :|
      LdrMsg(p) in known && VerifyLdrPrepare(cfg, p) && p.acc.view == v && EqHashes(BlockHash(p.block), hash);
    assert LdrMsg(p) in known';
  }

  /** A step that stores and executes nothing. */
  lemma Carries(cfg: Config, r: Replica, r': Replica)
    requires Stored(cfg, r) && Known(r) <= Known(r') && r'.blocks == r.blocks && r'.executed == r.executed
    requires TrustedPhase(cfg, r') && MayPropose(cfg, r')
    ensures Stored(cfg, r')
  {
    hide Backed;
    forall v | v in r'.blocks && TeeLed(cfg, v) ensures Backed(cfg, Known(r'), v, BlockHash(r'.blocks[v])) {
      BackedGrows(cfg, Known(r), Known(r'), v, BlockHash(r.blocks[v]));
    }
    forall d | d in r'.executed && TeeLed(cfg, d.propv) ensures Backed(cfg, Known(r'), d.propv, d.proph) {
      BackedGrows(cfg, Known(r), Known(r'), d.propv, d.proph);
    }
  }

  /** A block stored for the current view. */
  lemma StoresBlock(cfg: Config, r: Replica, r': Replica, block: Block)
    requires Stored(cfg, r) && Known(r) <= Known(r') && r'.executed == r.executed
    requires r'.blocks == r.blocks[r.view := block]
    requires TeeLed(cfg, r.view) ==> Backed(cfg, Known(r'), r.view, BlockHash(block))
    requires TrustedPhase(cfg, r') && MayPropose(cfg, r')
    ensures Stored(cfg, r')
  {
    hide Backed;
    Carries(cfg, r, r'.(blocks := r.blocks));
  }

  // ---- the leader

  /** A leader's own proposal passes the test that the backups make. */
  lemma OwnProposalBacked(cfg: Config, r: Replica, p: Proposal, known: set<Msg>)
    requires r.id in cfg.nodes && cfg.LeaderOf(r.view) == r.id && r.t.view == r.view && r.t.phase == Prepare
    requires TeePrepare(cfg, r.t, r.id, p.block, p.acc, p.proof).1.Some?
    requires p.acc.isSet && p.acc.sign.signer == r.id && SigOk(cfg, p.acc.sign, p.acc.Data())
    requires p.sign == AcceptProposal(cfg, r.t, r.id, BlockHash(p.block), p.acc).1.signs[0] && LdrMsg(p) in known
    ensures Backed(cfg, known, r.view, BlockHash(p.block))
  {
    AcceptedProposal(cfg, r.t, r.id, p.block, p.acc, p.proof);
    hide TeePrepare;
    assert VerifyLdrPrepare(cfg, p);
  }

  /** A step that touches only what the invariant does not look at. */
  lemma Untouched(cfg: Config, r: Replica, r': Replica)
    requires Stored(cfg, r)
    requires r' == r.(transactions := r'.transactions, log := r'.log, future := r'.future, inbox := r'.inbox,
                      processedCommit := r'.processedCommit, issued := r'.issued)
    requires r.inbox <= r'.inbox && r.issued <= r'.issued
    ensures Stored(cfg, r')
  {
    hide BlocksBacked, ExecutedBacked;
    Carries(cfg, r, r');
  }

  lemma VoteStored(cfg: Config, r: Replica, tag: Phase, tee: bool, m: Vote)
    requires Stored(cfg, r)
    ensures Stored(cfg, LogVote(r, tag, tee, m))
  {
    hide Stored, Store;
    Untouched(cfg, r, LogVote(r, tag, tee, m));
  }

  lemma PhaseStored(cfg: Config, r: Replica, phase: Phase)
    requires Stored(cfg, r) && (cfg.IsTEE(r.id) ==> phase == NewView || phase == Prepare)
    ensures Stored(cfg, r.(phase := phase))
  {
    hide BlocksBacked, ExecutedBacked;
    Carries(cfg, r, r.(phase := phase));
  }

  lemma ProcessQCStored(cfg: Config, r: Replica, nvs: seq<Vote>, required: nat)
    requires cfg.Valid() && Inv(cfg, r) && Stored(cfg, r) && Leads(cfg, r, r.view)
    ensures Stored(cfg, ProcessQC(cfg, r, nvs, required))
  {
    hide TeePrepare, NewViewsToAccum, ProofOf, LogVote;
    if r.view in r.processedNewViews { return; }
    var acc := NewViewsToAccum(cfg, r.id, nvs, required);
    var (r1, block) := CreateNewBlock(cfg, r, acc.hash);
    var res := TeePrepare(cfg, r.t, r.id, block, acc, ProofOf(cfg, nvs));
    if res.1.None? {
      assert ProcessQC(cfg, r, nvs, required) == r1;
      hide Stored, ProcessQC;
      Untouched(cfg, r, r1);
    } else {
      hide Stored, Inv;
      ProposalStored(cfg, r, nvs, required);
    }
  }

  lemma ProposalStored(cfg: Config, r: Replica, nvs: seq<Vote>, required: nat)
    requires cfg.Valid() && Inv(cfg, r) && Stored(cfg, r) && Leads(cfg, r, r.view) && r.view !in r.processedNewViews
    requires var acc := NewViewsToAccum(cfg, r.id, nvs, required);
      TeePrepare(cfg, r.t, r.id, CreateNewBlock(cfg, r, acc.hash).1, acc, ProofOf(cfg, nvs)).1.Some?
    ensures Stored(cfg, ProcessQC(cfg, r, nvs, required))
  {
    MemberOf(cfg, r);
    hide TeePrepare, NewViewsToAccum, ProofOf, LogVote, Inv, BlocksBacked, ExecutedBacked, Backed;
    var txs, p, t, vote := ProcessQCAccepted(cfg, r, nvs, required);
    hide AcceptProposal, CreateNewBlock, ProcessQC;
    var r' := Proposed(cfg, r, txs, p, t, vote);
    AccumSigner(cfg, r.id, nvs, required);
    if cfg.IsTEE(r.id) { OwnProposalBacked(cfg, r, p, Known(r')); }
    StoresBlock(cfg, r, r', p.block);
    VoteStored(cfg, r', Prepare, cfg.IsTEE(r.id), vote);
  }

  lemma MemberOf(cfg: Config, r: Replica)
    requires cfg.Valid() && Inv(cfg, r)
    ensures r.id in cfg.nodes && cfg.maxSigs > 0
  {
    hide LogOk, FutureOk;
  }

  lemma PrepareCombStored(cfg: Config, r: Replica)
    requires cfg.Valid() && Inv(cfg, r) && Stored(cfg, r)
    ensures Stored(cfg, PrepareComb(cfg, r))
  {
    QuorumSizes(cfg);
    LogHeld(cfg, r);
    hide ProcessQC, Stored, Inv;
    var tee := GetMsgs(r.log, Slot(NewView, true, r.view), cfg.TQSize());
    var non := GetMsgs(r.log, Slot(NewView, false, r.view), cfg.QSize());
    if cfg.FastQC() && |tee| >= cfg.TQSize() {
      LoggedLeads(cfg, r, true, tee[0]);
      ProcessQCStored(cfg, r, tee, cfg.TQSize());
    } else {
      var some := MixIn([], tee, cfg.QSize());
      var mixed := MixIn(some, non, cfg.QSize());
      if |mixed| == cfg.QSize() {
        MixElements(some, non, cfg.QSize(), mixed[0]);
        if mixed[0] in some {
          MixElements([], tee, cfg.QSize(), mixed[0]);
          LoggedLeads(cfg, r, true, mixed[0]);
        } else {
          LoggedLeads(cfg, r, false, mixed[0]);
        }
        ProcessQCStored(cfg, r, mixed, cfg.QSize());
      }
    }
  }

  /** New-views are logged for views that the replica leads. */
  lemma LoggedLeads(cfg: Config, r: Replica, tee: bool, m: Vote)
    requires LogOk(cfg, r.id, Known(r), r.log) && m in Entries(r.log, Slot(NewView, tee, r.view))
    ensures Leads(cfg, r, r.view)
  {
    assert EntryInLog(cfg, r.id, Known(r), Slot(NewView, tee, r.view), m);
  }

  lemma HandleNewViewStored(cfg: Config, r: Replica, m: Vote)
    requires cfg.Valid() && Inv(cfg, r) && Stored(cfg, r) && VoteMsg(NewView, m) in Known(r)
    ensures Stored(cfg, HandleNewView(cfg, r, m))
  {
    hide PrepareComb, LogVote, NewViewThreshold, Stored, Inv;
    var v := m.data.propv;
    if v >= r.view && Leads(cfg, r, v) && ValidVote(cfg, NewView, m) {
      var tee := cfg.IsTEE(m.signs[0].signer);
      var r1 := LogVote(r, NewView, tee, m);
      LogVoteKeeps(cfg, r, NewView, tee, m);
      VoteStored(cfg, r, NewView, tee, m);
      PrepareCombStored(cfg, r1);
      PhaseStored(cfg, PrepareComb(cfg, r1), Prepare);
    }
  }

  // ---- backups: proposals and certificates

  /** What a backup does in a view it does not lead moves its component freely. */
  lemma BackupCarries(cfg: Config, r: Replica, r': Replica)
    requires Stored(cfg, r) && !Leads(cfg, r, r.view)
    requires r' == r.(t := r'.t, signed := r'.signed, issued := r'.issued) && r.issued <= r'.issued
    ensures Stored(cfg, r')
  {
    hide BlocksBacked, ExecutedBacked;
    Carries(cfg, r, r');
  }

  lemma RespondToLdrPrepareStored(cfg: Config, r: Replica, p: Proposal)
    requires Stored(cfg, r) && !Leads(cfg, r, r.view)
    requires LdrMsg(p) in Known(r) && VerifyLdrPrepare(cfg, p) && p.acc.view == r.view
    ensures Stored(cfg, RespondToLdrPrepare(cfg, r, p.block, p.acc, p.proof))
  {
    hide TeePrepare, VerifyLdrPrepare, BlocksBacked, ExecutedBacked;
    var r' := RespondToLdrPrepare(cfg, r, p.block, p.acc, p.proof);
    if r'.blocks == r.blocks {
      Carries(cfg, r, r');
    } else {
      assert LdrMsg(p) in Known(r');
      StoresBlock(cfg, r, r', p.block);
    }
  }

  lemma HandleLdrPrepareStored(cfg: Config, r: Replica, p: Proposal)
    requires Stored(cfg, r) && LdrMsg(p) in Known(r)
    ensures Stored(cfg, HandleLdrPrepare(cfg, r, p))
  {
    hide RespondToLdrPrepare, StoreProposal, VerifyLdrPrepare, Stored;
    if p.acc.view == r.view && !Leads(cfg, r, r.view) && VerifyLdrPrepare(cfg, p) {
      RespondToLdrPrepareStored(cfg, r, p);
    }
    Untouched(cfg, r, r.(log := StoreProposal(r.log, p)));
  }

  lemma StoreAndSendStored(cfg: Config, r: Replica, cert: Vote, tag: Phase)
    requires Stored(cfg, r) && !Leads(cfg, r, r.view)
    ensures Stored(cfg, StoreAndSend(cfg, r, cert, tag))
  {
    hide TeeStore, Stored;
    BackupCarries(cfg, r, StoreAndSend(cfg, r, cert, tag));
  }

  lemma ReplayProposalStored(cfg: Config, r: Replica)
    requires cfg.Valid() && Inv(cfg, r) && Stored(cfg, r) && !Leads(cfg, r, r.view)
    ensures Stored(cfg, ReplayProposal(cfg, r))
  {
    hide RespondToLdrPrepare, VerifyLdrPrepare, Stored;
    var p := FirstProposal(r.log, r.view);
    if p.Some? {
      assert p.value in r.log.proposals[r.view];
      RespondToLdrPrepareStored(cfg, r, p.value);
    }
  }

  // ---- executing, entering a view, catching up

  /** Executing the block at hand: under a trusted leader it is backed. */
  lemma ExecutedStored(cfg: Config, r: Replica, data: RData)
    requires Stored(cfg, r) && data.propv in r.blocks && EqHashes(BlockHash(r.blocks[data.propv]), data.proph)
    ensures Stored(cfg, r.(processedCommit := r.processedCommit + {data.propv}, executed := r.executed + [data]))
  {
    if TeeLed(cfg, data.propv) { SameBacked(cfg, Known(r), data.propv, BlockHash(r.blocks[data.propv]), data.proph); }
    hide Backed;
  }

  lemma SameBacked(cfg: Config, known: set<Msg>, v: View, h1: Hash, h2: Hash)
    requires Backed(cfg, known, v, h1) && EqHashes(h1, h2)
    ensures Backed(cfg, known, v, h2)
  {
    hide VerifyLdrPrepare;
  }

  lemma ExecuteStored(cfg: Config, r: Replica, cert: Vote)
    requires cfg.Valid() && Inv(cfg, r) && Stored(cfg, r)
    requires CertMsg(cert) in Known(r) && cert.data.propv <= r.view
    requires ValidCert(cfg, cert.data, cert.signs) && Final(cfg, cert.data)
    ensures Stored(cfg, ExecuteComb(cfg, r, cert.data))
    decreases |r.future|, 3
  {
    hide ValidCert, StartNewView, Stored, Inv;
    var data := cert.data;
    if data.propv !in r.processedCommit && data.propv in r.blocks
       && EqHashes(BlockHash(r.blocks[data.propv]), data.proph)
    {
      var r1 := r.(processedCommit := r.processedCommit + {data.propv}, executed := r.executed + [data]);
      ExecutedStored(cfg, r, data);
      ExecutedInv(cfg, r, data);
      StartNewViewStored(cfg, r1);
    }
  }

  lemma EnterStored(cfg: Config, r: Replica)
    requires cfg.Valid() && Inv(cfg, r) && Stored(cfg, r)
    ensures var (t, ds, v) := SignPast(r.t, r.id, r.view);
      Stored(cfg, Issue(r.(t := t, signed := r.signed + ds, view := r.view + 1), VoteMsg(NewView, v)))
  {
    SignPastLaw(r.t, r.id, r.view);
    hide SignPast, BlocksBacked, ExecutedBacked, LogOk, FutureOk;
    var (t, ds, v) := SignPast(r.t, r.id, r.view);
    Carries(cfg, r, Issue(r.(t := t, signed := r.signed + ds, view := r.view + 1), VoteMsg(NewView, v)));
  }

  lemma StartNewViewStored(cfg: Config, r: Replica)
    requires cfg.Valid() && Inv(cfg, r) && Stored(cfg, r)
    ensures Stored(cfg, StartNewView(cfg, r))
    decreases |r.future|, 2
  {
    hide SignPast, HandleEarlier, HandleNewView, Stored, Inv;
    EnterRefines(cfg, r);
    EnterStored(cfg, r);
    var (t, ds, v) := SignPast(r.t, r.id, r.view);
    var r3 := Issue(r.(t := t, signed := r.signed + ds, view := r.view + 1), VoteMsg(NewView, v));
    HandleEarlierRefines(cfg, r3);
    HandleEarlierStored(cfg, r3);
    if Leads(cfg, r3, r3.view) {
      HandleEarlierKnown(cfg, r3);
      HandleNewViewStored(cfg, HandleEarlier(cfg, r3), v);
    }
  }

  lemma HandleEarlierStored(cfg: Config, r: Replica)
    requires cfg.Valid() && Inv(cfg, r) && Stored(cfg, r)
    ensures Stored(cfg, HandleEarlier(cfg, r))
    decreases |r.future|, 1
  {
    hide PrepareComb, ReplayProposal, ReplayCertificates, NewViewThreshold, Stored, Inv;
    if Leads(cfg, r, r.view) {
      PrepareCombStored(cfg, r);
    } else {
      ReplayProposalRefines(cfg, r);
      ReplayProposalStored(cfg, r);
      var r1 := ReplayProposal(cfg, r);
      ReplayProposalId(cfg, r);
      if r1.view in r1.blocks { ReplayCertificatesStored(cfg, r1, BlockHash(r1.blocks[r1.view])); }
    }
  }

  lemma ReplayProposalId(cfg: Config, r: Replica)
    ensures ReplayProposal(cfg, r).id == r.id
  {
    hide TeePrepare;
  }

  lemma ReplayCertificatesStored(cfg: Config, r: Replica, hash: Hash)
    requires cfg.Valid() && Inv(cfg, r) && Stored(cfg, r) && !Leads(cfg, r, r.view)
    ensures Stored(cfg, ReplayCertificates(cfg, r, hash))
    decreases |r.future|, 0
  {
    hide ValidQC, RespondToPrepare, ReplayPreCommit, Stored, Inv;
    var k := Future(Prepare, r.view);
    if Cached(r, k) && EqHashes(hash, r.future[k][0].data.proph) {
      var m := r.future[k][0];
      var r1 := r.(future := Erase(r.future, k));
      EraseRefines(cfg, r, k);
      Untouched(cfg, r, r1);
      RespondToPrepareRefines(cfg, r1, m);
      RespondToPrepareStored(cfg, r1, m);
      var r2 := RespondToPrepare(cfg, r1, m);
      if r2.view == r.view {
        StepId(cfg, r1, r2);
        ReplayPreCommitStored(cfg, r2, hash);
      }
    }
  }

  lemma StepId(cfg: Config, a: Replica, b: Replica)
    requires Refines(cfg, a, b)
    ensures b.id == a.id
  {
    hide Inv;
    var acts :| Runs(cfg, Abs(a), acts, Abs(b));
    RunsId(cfg, Abs(a), acts, Abs(b));
  }

  lemma ReplayPreCommitStored(cfg: Config, r: Replica, hash: Hash)
    requires cfg.Valid() && Inv(cfg, r) && Stored(cfg, r) && !Leads(cfg, r, r.view)
    ensures Stored(cfg, ReplayPreCommit(cfg, r, hash))
    decreases |r.future|, 5
  {
    hide ValidCert, StoreAndSend, ReplayCommit, Stored, Inv;
    var k := Future(PreCommit, r.view);
    if Cached(r, k) && EqHashes(hash, r.future[k][0].data.proph) {
      var m := r.future[k][0];
      var r1 := r.(future := Erase(r.future, k));
      EraseRefines(cfg, r, k);
      Untouched(cfg, r, r1);
      StoreRefines(cfg, r1, m);
      StoreAndSendStored(cfg, r1, m, Commit);
      ReplayCommitStored(cfg, StoreAndSend(cfg, r1, m, Commit), hash);
    }
  }

  lemma ReplayCommitStored(cfg: Config, r: Replica, hash: Hash)
    requires cfg.Valid() && Inv(cfg, r) && Stored(cfg, r)
    ensures Stored(cfg, ReplayCommit(cfg, r, hash))
    decreases |r.future|, 5
  {
    hide ValidQC, RespondToCommit, Stored, Inv;
    var k := Future(Commit, r.view);
    if Cached(r, k) && EqHashes(hash, r.future[k][0].data.proph) {
      var r1 := r.(future := Erase(r.future, k));
      EraseRefines(cfg, r, k);
      Untouched(cfg, r, r1);
      RespondToCommitStored(cfg, r1, r.future[k][0]);
    }
  }

  lemma RespondToPrepareStored(cfg: Config, r: Replica, m: Vote)
    requires cfg.Valid() && Inv(cfg, r) && Stored(cfg, r) && !Leads(cfg, r, r.view)
    requires VoteMsg(Prepare, m) in Known(r) && m.data.propv == r.view
    ensures Stored(cfg, RespondToPrepare(cfg, r, m))
    decreases |r.future|, 4
  {
    hide ValidCert, ExecuteComb, StoreAndSend, Stored, Inv;
    if ValidQC(cfg, Prepare, m) {
      if TeeLed(cfg, r.view) { ExecuteStored(cfg, r, m); } else { StoreAndSendStored(cfg, r, m, PreCommit); }
    }
  }

  lemma RespondToCommitStored(cfg: Config, r: Replica, m: Vote)
    requires cfg.Valid() && Inv(cfg, r) && Stored(cfg, r) && VoteMsg(Commit, m) in Known(r) && m.data.propv <= r.view
    ensures Stored(cfg, RespondToCommit(cfg, r, m))
    decreases |r.future|, 4
  {
    hide ValidCert, ExecuteComb, Stored, Inv;
    if ValidQC(cfg, Commit, m) { ExecuteStored(cfg, r, m); }
  }

  // ---- votes and certificates from the network

  lemma DecideStored(cfg: Config, r: Replica, data: RData, fast: bool)
    requires cfg.Valid() && Inv(cfg, r) && Stored(cfg, r) && data.propv == r.view
    ensures Stored(cfg, DecideComb(cfg, r, data, fast))
  {
    hide ValidCert, LogCert, ExecuteComb, Stored, Inv;
    var tag := if TeeLed(cfg, r.view) then Prepare else Commit;
    var cert := LogCert(cfg, r, tag, data, fast);
    if ValidQC(cfg, tag, cert) {
      var r1 := Issue(r, VoteMsg(tag, cert));
      LogCertData(cfg, r, tag, data, fast);
      IssueCertRefines(cfg, r, tag, data, fast);
      Untouched(cfg, r, r1);
      ExecuteStored(cfg, r1, cert);
    }
  }

  /** Only a leader without trusted hardware goes through the PRE-COMMIT and COMMIT phases. */
  lemma AdvanceStored(cfg: Config, r: Replica, data: RData, fast: bool, tag: Phase, next: Phase)
    requires Stored(cfg, r) && !cfg.IsTEE(r.id)
    ensures Stored(cfg, AdvanceComb(cfg, r, data, fast, tag, next))
  {
    hide ValidCert, LogCert, TeeStore, Store, BlocksBacked, ExecutedBacked;
    Carries(cfg, r, AdvanceComb(cfg, r, data, fast, tag, next));
  }

  lemma StoreFutureStored(cfg: Config, r: Replica, tag: Phase, m: Vote)
    requires Stored(cfg, r)
    ensures Stored(cfg, StoreFuture(cfg, r, tag, m))
  {
    hide Stored, Store, ValidQC;
    Untouched(cfg, r, StoreFuture(cfg, r, tag, m));
  }

  lemma HandlePrepareStored(cfg: Config, r: Replica, m: Vote)
    requires cfg.Valid() && Inv(cfg, r) && Stored(cfg, r) && VoteMsg(Prepare, m) in Known(r)
    ensures Stored(cfg, HandlePrepare(cfg, r, m))
  {
    hide ValidCert, ValidSigs, StoreFuture, RespondToPrepare, DecideComb, AdvanceComb, CountVote, Stored, Inv;
    var v := m.data.propv;
    if v > r.view {
      StoreFutureStored(cfg, r, Prepare, m);
    } else if v == r.view && !Leads(cfg, r, v) {
      RespondToPrepareStored(cfg, r, m);
    } else if v == r.view && ValidVote(cfg, Prepare, m) {
      var (log, tee, non) := CountVote(cfg, r.log, Prepare, m);
      var r1 := r.(log := log);
      var fast := cfg.FastQC() && tee >= cfg.TQSize();
      Untouched(cfg, r, r1);
      if TeeLed(cfg, r1.view) {
        CountedPhase(cfg, r, Prepare, m, NewView);
        PhaseStored(cfg, r1, NewView);
        DecideStored(cfg, r1.(phase := NewView), m.data, fast);
      } else {
        PhaseStored(cfg, r1, PreCommit);
        AdvanceStored(cfg, r1.(phase := PreCommit), m.data, fast, Prepare, PreCommit);
      }
    }
  }

  lemma CountedPhase(cfg: Config, r: Replica, tag: Phase, m: Vote, phase: Phase)
    requires cfg.Valid() && Inv(cfg, r) && VoteMsg(tag, m) in Known(r) && tag != NewView && ValidVote(cfg, tag, m)
    ensures Inv(cfg, r.(log := CountVote(cfg, r.log, tag, m).0, phase := phase))
  {
    CountVoteRefines(cfg, r, tag, m);
    hide Inv, CountVote, ValidVote;
    PhaseRefines(cfg, r, r.(log := CountVote(cfg, r.log, tag, m).0), phase);
  }

  lemma HandlePreCommitStored(cfg: Config, r: Replica, m: Vote)
    requires cfg.Valid() && Inv(cfg, r) && Stored(cfg, r)
    ensures Stored(cfg, HandlePreCommit(cfg, r, m))
  {
    assert TrustedPhase(cfg, r);
    hide ValidCert, ValidSigs, StoreFuture, StoreAndSend, AdvanceComb, CountVote, Stored, Inv;
    var v := m.data.propv;
    if v > r.view {
      StoreFutureStored(cfg, r, PreCommit, m);
    } else if v == r.view && !Leads(cfg, r, v) {
      StoreAndSendStored(cfg, r, m, Commit);
    } else if v == r.view && ValidVote(cfg, PreCommit, m) {
      var (log, tee, non) := CountVote(cfg, r.log, PreCommit, m);
      var r1 := r.(log := log);
      Untouched(cfg, r, r1);
      if r1.phase == PreCommit {
        PhaseStored(cfg, r1, Commit);
        AdvanceStored(cfg, r1.(phase := Commit), m.data, tee == cfg.TQSize(), PreCommit, Commit);
      }
    }
  }

  lemma HandleCommitStored(cfg: Config, r: Replica, m: Vote)
    requires cfg.Valid() && Inv(cfg, r) && Stored(cfg, r) && VoteMsg(Commit, m) in Known(r)
    ensures Stored(cfg, HandleCommit(cfg, r, m))
  {
    hide ValidCert, ValidSigs, StoreFuture, RespondToCommit, DecideComb, CountVote, Stored, Inv;
    var v := m.data.propv;
    if v > r.view {
      StoreFutureStored(cfg, r, Commit, m);
    } else if v == r.view && !Leads(cfg, r, v) {
      RespondToCommitStored(cfg, r, m);
    } else if v == r.view && ValidVote(cfg, Commit, m) {
      var (log, tee, non) := CountVote(cfg, r.log, Commit, m);
      var r1 := r.(log := log);
      Untouched(cfg, r, r1);
      CountedPhase(cfg, r, Commit, m, NewView);
      PhaseStored(cfg, r1, NewView);
      DecideStored(cfg, r1.(phase := NewView), m.data, tee == cfg.TQSize());
    }
  }

  // ---- every event

  lemma GetStartedStored(cfg: Config, r: Replica)
    requires cfg.Valid() && Fresh(r) && r.id in cfg.nodes
    ensures Stored(cfg, GetStarted(cfg, r))
  {
    hide HandleNewView, Backed;
    var (r1, v) := CallSign(r.(started := true));
    var r2 := Issue(r1, VoteMsg(NewView, v));
    assert Stored(cfg, r2);
    RefinesAct(cfg, r, EnterView, r2);
    if Leads(cfg, r2, r2.view) { HandleNewViewStored(cfg, r2, v); }
  }

  lemma HandleMsgStored(cfg: Config, r: Replica, m: Msg)
    requires cfg.Valid() && Inv(cfg, r) && Stored(cfg, r)
    ensures Stored(cfg, HandleMsg(cfg, r, m))
  {
    hide HandleLdrPrepare, HandleNewView, HandlePrepare, HandlePreCommit, HandleCommit, Inv, Stored;
    InboxGrows(cfg, r, m);
    var r0 := r.(inbox := r.inbox + {m});
    Untouched(cfg, r, r0);
    match m
    case LdrMsg(p) => HandleLdrPrepareStored(cfg, r0, p);
    case VoteMsg(NewView, v) => HandleNewViewStored(cfg, r0, v);
    case VoteMsg(Prepare, v) => HandlePrepareStored(cfg, r0, v);
    case VoteMsg(PreCommit, v) => HandlePreCommitStored(cfg, r0, v);
    case VoteMsg(Commit, v) => HandleCommitStored(cfg, r0, v);
  }

  /** Every event keeps it that blocks held and executed under a trusted leader are backed by a proposal. */
  lemma StepStored(cfg: Config, r: Replica, e: Event)
    requires cfg.Valid() && r.id in cfg.nodes && (Fresh(r) || Inv(cfg, r)) && (r.started ==> Stored(cfg, r))
    ensures var r' := Step(cfg, r, e); r'.started ==> Stored(cfg, r')
  {
    hide HandleMsg, StartNewView, GetStarted, Inv, Stored;
    match e
    case Submit(tx) => if r.started { Untouched(cfg, r, Step(cfg, r, e)); }
    case Start => if !r.started { NotStarted(cfg, r); GetStartedStored(cfg, r); }
    case Deliver(m) => if r.started { NotFresh(cfg, r); HandleMsgStored(cfg, r, m); }
    case Timeout => if r.started { NotFresh(cfg, r); StartNewViewStored(cfg, r); }
  }

  lemma NotStarted(cfg: Config, r: Replica)
    requires (Fresh(r) || Inv(cfg, r)) && !r.started
    ensures Fresh(r)
  {
  }

  lemma NotFresh(cfg: Config, r: Replica)
    requires (Fresh(r) || Inv(cfg, r)) && r.started
    ensures Inv(cfg, r)
  {
  }
}
