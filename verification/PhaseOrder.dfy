/** Phase order: the trusted component signs whatever it is asked to in its current phase, so it is up to the
    handler that a vote carries the phase of its message type.  For every event, exactly when it does. */
module PhaseOrder {
  import opened Types
  import opened Certificates
  import opened TrustedMachine
  import opened VoteLog
  import opened Replicas
  import opened Protocol
  import opened Refinement
  import opened CatchUp
  import S = Safety
  import System
  import L = LeaderRoundTrip
  import B = Byzantine
  import ByzantineRuns

  /** What a leader does with a vote that completes a certificate: the replica just before, and whether the
      certificate is a trusted one; nothing when the vote completes none. */
  function Completed(cfg: Config, r: Replica, tag: Phase, m: Vote): Option<(Replica, bool)> {
    if !ValidVote(cfg, tag, m) then None else
      var (log, tee, non) := CountVote(cfg, r.log, tag, m);
      var fast := if tag == Prepare then cfg.FastQC() && tee >= cfg.TQSize() else tee == cfg.TQSize();
      if r.phase == tag && (fast || tee + non == cfg.QSize()) then Some((r.(log := log), fast)) else None
  }

  /** The trusted component accepts what the leader would make of these new-views. */
  predicate Accepts(cfg: Config, r: Replica, nvs: seq<Vote>, required: nat)
    requires cfg.maxSigs > 0
  {
    var acc := NewViewsToAccum(cfg, r.id, nvs, required);
    TeePrepare(cfg, r.t, r.id, CreateNewBlock(cfg, r, acc.hash).1, acc, ProofOf(cfg, nvs)).1.Some?
  }

  /** ... of the new-views that the log hands over for the current view. */
  predicate AcceptsHandOver(cfg: Config, r: Replica)
    requires cfg.maxSigs > 0
  {
    var tee := GetMsgs(r.log, Slot(NewView, true, r.view), cfg.TQSize());
    var non := GetMsgs(r.log, Slot(NewView, false, r.view), cfg.QSize());
    var mixed := MixIn(MixIn([], tee, cfg.QSize()), non, cfg.QSize());
    if cfg.FastQC() && |tee| >= cfg.TQSize() then Accepts(cfg, r, tee, cfg.TQSize())
    else |mixed| == cfg.QSize() && Accepts(cfg, r, mixed, cfg.QSize())
  }

  /** A new-view that makes the leader propose: it has not proposed, its phase is NEWVIEW, with this new-view
      its threshold is met, and its trusted component accepts the hand-over. */
  predicate Proposes(cfg: Config, r: Replica, m: Vote)
    requires cfg.maxSigs > 0
  {
    var v := m.data.propv;
    && v >= r.view && Leads(cfg, r, v) && ValidVote(cfg, NewView, m)
    && r.view !in r.processedNewViews && r.phase == NewView
    && var r1 := LogVote(r, NewView, cfg.IsTEE(m.signs[0].signer), m);
       NewViewThreshold(cfg, r1.log, v) && AcceptsHandOver(cfg, r1)
  }

  /** The message type of the vote that a delivery makes the replica answer with at once, apart from entering
      views. */
  function Answer(cfg: Config, r: Replica, m: Msg): Option<Phase>
    requires cfg.maxSigs > 0
  {
    match m
    case LdrMsg(p) =>
      if p.acc.view == r.view && !Leads(cfg, r, r.view) && VerifyLdrPrepare(cfg, p)
         && (p.acc.size == cfg.QSize() || p.acc.size == cfg.TQSize()) && Extends(p.block, p.acc.hash)
         && TeePrepare(cfg, r.t, r.id, p.block, p.acc, p.proof).1.Some?
      then Some(Prepare) else None
    case VoteMsg(Prepare, v) => if TeeLed(cfg, r.view) then None else StoreAnswer(cfg, r, Prepare, v)
    case VoteMsg(PreCommit, v) => StoreAnswer(cfg, r, PreCommit, v)
    case VoteMsg(NewView, v) => if Proposes(cfg, r, v) then Some(Prepare) else None
    case VoteMsg(Commit, v) => None
  }

  /** The same for a certificate of phase `tag`, received by a backup or completed by the leader. */
  function StoreAnswer(cfg: Config, r: Replica, tag: Phase, m: Vote): Option<Phase> {
    if m.data.propv != r.view then None
    else if !Leads(cfg, r, r.view) then
      if ValidQC(cfg, tag, m) && StoreAccepts(cfg, r.t, m) then Some(NextTag(tag)) else None
    else
      match Completed(cfg, r, tag, m)
      case None => None
      case Some((r1, fast)) =>
        var cert := LogCert(cfg, r1, tag, m.data, fast);
        if ValidQC(cfg, tag, cert) && StoreAccepts(cfg, r.t, cert) then Some(NextTag(tag)) else None
  }

  /** The answer, if there is one, is signed in the phase of its message type. */
  predicate AnswersInPhase(cfg: Config, r: Replica, m: Msg)
    requires cfg.maxSigs > 0
  {
    Answer(cfg, r, m).Some? ==> r.t.phase == Answer(cfg, r, m).value
  }

  /** The event ends in a later view, in which the replica has stopped with a stray lock. */
  predicate Strays(cfg: Config, r: Replica, r': Replica) {
    r'.view > r.view && StrayLock(cfg, r, r')
  }

  // ---- storing a certificate

  lemma SendInPhase(cfg: Config, r: Replica, cert: Vote, tag: Phase)
    requires VotesPast(r)
    ensures NewVotesInPhase(r, StoreAndSend(cfg, r, cert, tag)) <==> (StoreAccepts(cfg, r.t, cert) ==> r.t.phase == tag)
  {
    hide StoreAccepts;
    if StoreAccepts(cfg, r.t, cert) {
      var v := TeeStore(cfg, r.t, r.id, cert).1.value;
      VoteIsNew(r, tag, v);
      assert StoreAndSend(cfg, r, cert, tag).issued == r.issued + {VoteMsg(tag, v)};
      assert InPhase(VoteMsg(tag, v)) <==> r.t.phase == tag;
    }
  }

  lemma KeepIssues(cfg: Config, r: Replica, cert: Vote, tag: Phase)
    ensures StoreAndKeep(cfg, r, cert, tag).issued == StoreAndSend(cfg, r, cert, tag).issued
  {
    hide TeeStore, Store;
  }

  lemma AdvanceInPhase(cfg: Config, r: Replica, data: RData, fast: bool, tag: Phase)
    requires VotesPast(r) && tag in {Prepare, PreCommit}
    ensures var cert := LogCert(cfg, r, tag, data, fast);
      NewVotesInPhase(r, AdvanceComb(cfg, r, data, fast, tag, NextTag(tag)))
      <==> (ValidQC(cfg, tag, cert) && StoreAccepts(cfg, r.t, cert) ==> r.t.phase == NextTag(tag))
  {
    hide LogCert, ValidCert, StoreAccepts, LogVote;
    var cert := LogCert(cfg, r, tag, data, fast);
    if ValidQC(cfg, tag, cert) {
      var r1 := Issue(r, VoteMsg(tag, cert));
      KeepIssues(cfg, r1, cert, NextTag(tag));
      if StoreAccepts(cfg, r.t, cert) {
        var v := TeeStore(cfg, r.t, r.id, cert).1.value;
        VoteIsNew(r, NextTag(tag), v);
        assert AdvanceComb(cfg, r, data, fast, tag, NextTag(tag)).issued
            == r.issued + {VoteMsg(tag, cert)} + {VoteMsg(NextTag(tag), v)};
        assert InPhase(VoteMsg(NextTag(tag), v)) <==> r.t.phase == NextTag(tag);
        assert VoteMsg(NextTag(tag), v) != VoteMsg(tag, cert);
      }
    }
  }

  // ---- the handlers

  lemma LdrInPhase(cfg: Config, r: Replica, p: Proposal)
    requires cfg.maxSigs > 0 && VotesPast(r)
    ensures var r' := HandleLdrPrepare(cfg, r, p);
      (NewVotesInPhase(r, r') <==> AnswersInPhase(cfg, r, LdrMsg(p))) && r'.view == r.view
  {
    hide TeePrepare, VerifyLdrPrepare;
    var (t, v) := TeePrepare(cfg, r.t, r.id, p.block, p.acc, p.proof);
    if v.Some? {
      SignsCurrentRound(cfg, r, p);
      VoteIsNew(r, Prepare, v.value);
      assert InPhase(VoteMsg(Prepare, v.value)) <==> r.t.phase == Prepare;
      if Answer(cfg, r, LdrMsg(p)).Some? {
        assert HandleLdrPrepare(cfg, r, p).issued == r.issued + {VoteMsg(Prepare, v.value)};
      }
    }
  }

  lemma SignsCurrentRound(cfg: Config, r: Replica, p: Proposal)
    requires TeePrepare(cfg, r.t, r.id, p.block, p.acc, p.proof).1.Some?
    ensures var v := TeePrepare(cfg, r.t, r.id, p.block, p.acc, p.proof).1.value;
      v.data.phase == r.t.phase && v.data.propv == r.t.view && v.signs == [Sign(true, r.id, RoundText(v.data))]
  {
    AcceptedProposal(cfg, r.t, r.id, p.block, p.acc, p.proof);
  }

  /** A decision executes and enters the next view. */
  lemma DecideExact(cfg: Config, r: Replica, data: RData, fast: bool)
    requires cfg.Valid() && Inv(cfg, r) && data.propv == r.view && VotesPast(r)
    ensures Exact(cfg, r, DecideComb(cfg, r, data, fast), r.view)
  {
    hide ValidCert, LogCert, ExecuteComb, VotesPast, StrayLock;
    var tag := if TeeLed(cfg, r.view) then Prepare else Commit;
    var cert := LogCert(cfg, r, tag, data, fast);
    if ValidQC(cfg, tag, cert) {
      LogCertData(cfg, r, tag, data, fast);
      IssueCertRefines(cfg, r, tag, data, fast);
      var r1 := Issue(r, VoteMsg(tag, cert));
      if cfg.f > 0 { RefinesPast(cfg, r, r1); }
      hide Inv;
      ExecuteExact(cfg, r1, cert);
      ExactAfter(cfg, r, r1, ExecuteComb(cfg, r1, data), r.view);
    }
  }

  /** Voting changes the log and the phase only, so what follows starts from the same messages. */
  lemma CompletedFrame(cfg: Config, r: Replica, tag: Phase, m: Vote, phase: Phase)
    requires cfg.Valid() && Inv(cfg, r) && VoteMsg(tag, m) in Known(r) && tag != NewView
    requires VotesPast(r) && Completed(cfg, r, tag, m).Some?
    ensures var r1 := Completed(cfg, r, tag, m).value.0.(phase := phase);
      Inv(cfg, r1) && VotesPast(r1) && r1 == r.(log := r1.log, phase := phase)
  {
    VoteHasSigner(cfg, tag, m);
    hide ValidVote, CountVote;
    CountVoteRefines(cfg, r, tag, m);
    PhaseRefines(cfg, r, r.(log := CountVote(cfg, r.log, tag, m).0), phase);
    assert Abs(Completed(cfg, r, tag, m).value.0.(phase := phase)) == Abs(r);
  }

  /** The leader decides with a vote that completes the final certificate. */
  lemma DecidesInPhase(cfg: Config, r: Replica, tag: Phase, m: Vote)
    requires cfg.Valid() && Inv(cfg, r) && VoteMsg(tag, m) in Known(r) && tag != NewView
    requires VotesPast(r) && Completed(cfg, r, tag, m).Some? && m.data.propv == r.view
    ensures var (r1, fast) := Completed(cfg, r, tag, m).value;
      var r' := DecideComb(cfg, r1.(phase := NewView), m.data, fast);
      NewVotesInPhase(r, r') <==> !Strays(cfg, r, r')
  {
    CompletedFrame(cfg, r, tag, m, NewView);
    hide Inv, VotesPast, Completed, DecideComb, StrayLock;
    var (r1, fast) := Completed(cfg, r, tag, m).value;
    DecideExact(cfg, r1.(phase := NewView), m.data, fast);
    LoggedExact(cfg, r, r1.(phase := NewView), DecideComb(cfg, r1.(phase := NewView), m.data, fast));
  }

  /** The leader goes on with a vote that completes the certificate before. */
  lemma AdvancesInPhase(cfg: Config, r: Replica, tag: Phase, m: Vote)
    requires cfg.Valid() && Inv(cfg, r) && VoteMsg(tag, m) in Known(r) && tag in {Prepare, PreCommit}
    requires VotesPast(r) && Completed(cfg, r, tag, m).Some?
    ensures var (r1, fast) := Completed(cfg, r, tag, m).value;
      var r' := AdvanceComb(cfg, r1.(phase := NextTag(tag)), m.data, fast, tag, NextTag(tag));
      var cert := LogCert(cfg, r1, tag, m.data, fast);
      && (NewVotesInPhase(r, r') <==>
           (ValidQC(cfg, tag, cert) && StoreAccepts(cfg, r.t, cert) ==> r.t.phase == NextTag(tag)))
      && r'.view == r.view
  {
    CompletedFrame(cfg, r, tag, m, NextTag(tag));
    hide Inv, VotesPast, Completed, AdvanceComb, LogCert, ValidQC, StoreAccepts;
    var (r1, fast) := Completed(cfg, r, tag, m).value;
    CertIgnoresPhase(cfg, r1, NextTag(tag), tag, m.data, fast);
    AdvanceInPhase(cfg, r1.(phase := NextTag(tag)), m.data, fast, tag);
    AdvanceFrame(cfg, r1.(phase := NextTag(tag)), m.data, fast, tag);
  }

  lemma PrepareInPhase(cfg: Config, r: Replica, m: Vote)
    requires cfg.Valid() && Inv(cfg, r) && VoteMsg(Prepare, m) in Known(r) && VotesPast(r)
    ensures var r' := HandlePrepare(cfg, r, m);
      NewVotesInPhase(r, r') <==> AnswersInPhase(cfg, r, VoteMsg(Prepare, m)) && !Strays(cfg, r, r')
  {
    hide Inv, VotesPast, ValidVote, ValidQC, StoreFuture, StoreAccepts, DecideComb, AdvanceComb, CountVote, LogCert;
    hide RespondToPrepare, StrayLock;
    if m.data.propv == r.view && !Leads(cfg, r, r.view) {
      BackupPrepareInPhase(cfg, r, m);
    } else if m.data.propv == r.view {
      if Completed(cfg, r, Prepare, m).Some? {
        if TeeLed(cfg, r.view) { DecidesInPhase(cfg, r, Prepare, m); } else { AdvancesInPhase(cfg, r, Prepare, m); }
      }
    } else {
      LaterKeepsIssued(cfg, r, Prepare, m);
    }
  }

  lemma BackupPrepareInPhase(cfg: Config, r: Replica, m: Vote)
    requires cfg.Valid() && Inv(cfg, r) && VoteMsg(Prepare, m) in Known(r) && VotesPast(r)
    requires m.data.propv == r.view && !Leads(cfg, r, r.view)
    ensures var r' := if ValidQC(cfg, Prepare, m) then RespondToPrepare(cfg, r, m) else r;
      NewVotesInPhase(r, r') <==> AnswersInPhase(cfg, r, VoteMsg(Prepare, m)) && !Strays(cfg, r, r')
  {
    hide Inv, VotesPast, StoreAccepts, ExecuteComb, StoreAndSend, StrayLock;
    if ValidQC(cfg, Prepare, m) {
      if TeeLed(cfg, r.view) { ExecuteExact(cfg, r, m); } else { SendInPhase(cfg, r, m, PreCommit); }
    }
  }

  /** Logging and the handler's phase do not matter. */
  lemma LoggedExact(cfg: Config, r: Replica, r1: Replica, r': Replica)
    requires r1 == r.(log := r1.log, phase := r1.phase) && Exact(cfg, r1, r', r.view)
    ensures NewVotesInPhase(r, r') <==> !Strays(cfg, r, r')
  {
  }

  lemma AdvanceFrame(cfg: Config, r: Replica, data: RData, fast: bool, tag: Phase)
    ensures AdvanceComb(cfg, r, data, fast, tag, NextTag(tag)).view == r.view
  {
    hide LogCert, ValidQC, TeeStore, Store;
  }

  lemma CertIgnoresPhase(cfg: Config, r: Replica, phase: Phase, tag: Phase, data: RData, fast: bool)
    ensures LogCert(cfg, r.(phase := phase), tag, data, fast) == LogCert(cfg, r, tag, data, fast)
  {
  }

  lemma LaterKeepsIssued(cfg: Config, r: Replica, tag: Phase, m: Vote)
    ensures StoreFuture(cfg, r, tag, m).issued == r.issued && StoreFuture(cfg, r, tag, m).view == r.view
  {
    hide ValidQC, Store;
  }

  lemma PreCommitInPhase(cfg: Config, r: Replica, m: Vote)
    requires cfg.Valid() && Inv(cfg, r) && VoteMsg(PreCommit, m) in Known(r) && VotesPast(r)
    ensures var r' := HandlePreCommit(cfg, r, m);
      (NewVotesInPhase(r, r') <==> AnswersInPhase(cfg, r, VoteMsg(PreCommit, m))) && r'.view == r.view
  {
    hide Inv, VotesPast, ValidVote, ValidQC, StoreFuture, StoreAccepts, AdvanceComb, CountVote, LogCert, StoreAndSend;
    if m.data.propv == r.view && !Leads(cfg, r, r.view) {
      SendInPhase(cfg, r, m, Commit);
    } else if m.data.propv == r.view {
      if Completed(cfg, r, PreCommit, m).Some? { AdvancesInPhase(cfg, r, PreCommit, m); }
    } else {
      LaterKeepsIssued(cfg, r, PreCommit, m);
    }
  }

  lemma CommitInPhase(cfg: Config, r: Replica, m: Vote)
    requires cfg.Valid() && Inv(cfg, r) && VoteMsg(Commit, m) in Known(r) && VotesPast(r)
    ensures var r' := HandleCommit(cfg, r, m); NewVotesInPhase(r, r') <==> !Strays(cfg, r, r')
  {
    hide Inv, VotesPast, ValidVote, ValidCert, StoreFuture, DecideComb, CountVote, RespondToCommit, StrayLock;
    if m.data.propv == r.view && !Leads(cfg, r, r.view) {
      BackupCommitInPhase(cfg, r, m);
    } else if m.data.propv == r.view {
      if Completed(cfg, r, Commit, m).Some? { DecidesInPhase(cfg, r, Commit, m); }
    } else {
      LaterKeepsIssued(cfg, r, Commit, m);
    }
  }

  lemma BackupCommitInPhase(cfg: Config, r: Replica, m: Vote)
    requires cfg.Valid() && Inv(cfg, r) && VoteMsg(Commit, m) in Known(r) && VotesPast(r) && m.data.propv == r.view
    ensures var r' := RespondToCommit(cfg, r, m); NewVotesInPhase(r, r') <==> !Strays(cfg, r, r')
  {
    hide Inv, VotesPast, ExecuteComb, StrayLock;
    if ValidQC(cfg, Commit, m) { ExecuteExact(cfg, r, m); }
  }

  // ---- proposing

  lemma ProcessQCInPhase(cfg: Config, r: Replica, nvs: seq<Vote>, required: nat)
    requires cfg.maxSigs > 0 && VotesPast(r)
    ensures var r' := ProcessQC(cfg, r, nvs, required);
      && (NewVotesInPhase(r, r') <==>
           (r.view !in r.processedNewViews && r.view in r'.processedNewViews ==> r.t.phase == Prepare))
      && r'.view == r.view
  {
    hide TeePrepare, NewViewsToAccum, ProofOf, CreateNewBlock, LogVote;
    if r.view !in r.processedNewViews {
      var acc := NewViewsToAccum(cfg, r.id, nvs, required);
      var (r1, block) := CreateNewBlock(cfg, r, acc.hash);
      NewBlockFrame(cfg, r, acc.hash);
      if TeePrepare(cfg, r.t, r.id, block, acc, ProofOf(cfg, nvs)).1.Some? {
        var txs, p, t, vote := ProcessQCAccepted(cfg, r, nvs, required);
        LogVoteFrame(cfg, Proposed(cfg, r, txs, p, t, vote), vote);
        VoteIsNew(r, Prepare, vote);
        assert InPhase(VoteMsg(Prepare, vote)) <==> r.t.phase == Prepare;
        assert VoteMsg(Prepare, vote) in ProcessQC(cfg, r, nvs, required).issued;
      }
    }
  }

  lemma PrepareCombInPhase(cfg: Config, r: Replica)
    requires cfg.maxSigs > 0 && VotesPast(r)
    ensures var r' := PrepareComb(cfg, r);
      && (NewVotesInPhase(r, r') <==>
           (r.view !in r.processedNewViews && r.view in r'.processedNewViews ==> r.t.phase == Prepare))
      && r'.view == r.view
  {
    hide ProcessQC, VotesPast;
    var tee := GetMsgs(r.log, Slot(NewView, true, r.view), cfg.TQSize());
    var non := GetMsgs(r.log, Slot(NewView, false, r.view), cfg.QSize());
    ProcessQCInPhase(cfg, r, tee, cfg.TQSize());
    ProcessQCInPhase(cfg, r, MixIn(MixIn([], tee, cfg.QSize()), non, cfg.QSize()), cfg.QSize());
  }

  lemma AcceptsExactly(cfg: Config, r: Replica, nvs: seq<Vote>, required: nat)
    requires cfg.maxSigs > 0 && r.view !in r.processedNewViews
    ensures Accepts(cfg, r, nvs, required) <==> r.view in ProcessQC(cfg, r, nvs, required).processedNewViews
  {
    hide TeePrepare, NewViewsToAccum, ProofOf, LogVote;
    var acc := NewViewsToAccum(cfg, r.id, nvs, required);
    NewBlockFrame(cfg, r, acc.hash);
    hide CreateNewBlock;
    if Accepts(cfg, r, nvs, required) {
      var txs, p, t, vote := ProcessQCAccepted(cfg, r, nvs, required);
      LogVoteFrame(cfg, Proposed(cfg, r, txs, p, t, vote), vote);
    }
  }

  /** The guard is exact. */
  lemma ProposesExactly(cfg: Config, r: Replica, m: Vote)
    requires cfg.maxSigs > 0
    ensures Proposes(cfg, r, m)
      <==> r.view !in r.processedNewViews && r.view in HandleNewView(cfg, r, m).processedNewViews
  {
    hide ProcessQC, Accepts, NewViewThreshold, ValidVote, Store, MixIn;
    if m.data.propv >= r.view && Leads(cfg, r, m.data.propv) && ValidVote(cfg, NewView, m) {
      VoteHasSigner(cfg, NewView, m);
      var r1 := LogVote(r, NewView, cfg.IsTEE(m.signs[0].signer), m);
      if r.view !in r.processedNewViews { HandOverExactly(cfg, r1); }
      hide PrepareComb, AcceptsHandOver;
      PrepareCombView(cfg, r1);
    }
  }

  lemma HandOverExactly(cfg: Config, r: Replica)
    requires cfg.maxSigs > 0 && r.view !in r.processedNewViews
    ensures AcceptsHandOver(cfg, r) <==> r.view in PrepareComb(cfg, r).processedNewViews
  {
    hide ProcessQC, Accepts, MixIn;
    var tee := GetMsgs(r.log, Slot(NewView, true, r.view), cfg.TQSize());
    var non := GetMsgs(r.log, Slot(NewView, false, r.view), cfg.QSize());
    var mixed := MixIn(MixIn([], tee, cfg.QSize()), non, cfg.QSize());
    AcceptsExactly(cfg, r, tee, cfg.TQSize());
    AcceptsExactly(cfg, r, mixed, cfg.QSize());
  }

  lemma PrepareCombView(cfg: Config, r: Replica)
    requires cfg.maxSigs > 0
    ensures PrepareComb(cfg, r).view == r.view
  {
    hide TeePrepare, NewViewsToAccum, ProofOf, Store, MixIn;
  }

  lemma NewViewInPhase(cfg: Config, r: Replica, m: Vote)
    requires cfg.maxSigs > 0 && VotesPast(r)
    ensures var r' := HandleNewView(cfg, r, m);
      (NewVotesInPhase(r, r') <==> AnswersInPhase(cfg, r, VoteMsg(NewView, m))) && r'.view == r.view
  {
    ProposesExactly(cfg, r, m);
    hide PrepareComb, NewViewThreshold, ValidVote, Store, Proposes;
    if m.data.propv >= r.view && Leads(cfg, r, m.data.propv) && ValidVote(cfg, NewView, m) {
      VoteHasSigner(cfg, NewView, m);
      var r1 := LogVote(r, NewView, cfg.IsTEE(m.signs[0].signer), m);
      assert Abs(r1) == Abs(r);
      PrepareCombInPhase(cfg, r1);
    }
  }

  /** Who can still propose in phase, or has proposed, always answers a new-view in phase; so does who does
      not lead the current view, since it holds no new-views for it. */
  lemma ReadyAnswers(cfg: Config, r: Replica, m: Vote)
    requires cfg.Valid() && Inv(cfg, r) && (Leads(cfg, r, r.view) ==> Ready(r))
    ensures AnswersInPhase(cfg, r, VoteMsg(NewView, m))
  {
    ProposesExactly(cfg, r, m);
    hide AcceptsHandOver, Proposes;
    if !Leads(cfg, r, r.view) {
      hide PrepareComb, NewViewThreshold, ValidVote, LogVote;
      if m.data.propv >= r.view && Leads(cfg, r, m.data.propv) && ValidVote(cfg, NewView, m) {
        VoteHasSigner(cfg, NewView, m);
        NothingToPrepare(cfg, r, m);
      }
    } else {
      hide HandleNewView;
    }
  }

  /** Who does not lead the current view holds no new-views for it. */
  lemma NothingToPrepare(cfg: Config, r: Replica, m: Vote)
    requires cfg.Valid() && Inv(cfg, r) && !Leads(cfg, r, r.view) && m.data.propv != r.view && |m.signs| == 1
    ensures var r1 := LogVote(r, NewView, cfg.IsTEE(m.signs[0].signer), m);
      r1.processedNewViews == r.processedNewViews && PrepareComb(cfg, r1) == r1
  {
    var r1 := LogVote(r, NewView, cfg.IsTEE(m.signs[0].signer), m);
    LogHeld(cfg, r);
    hide Inv;
    NoNewViews(cfg, r, true);
    NoNewViews(cfg, r, false);
    hide LogOk;
    assert Entries(r1.log, Slot(NewView, true, r.view)) == [] && Entries(r1.log, Slot(NewView, false, r.view)) == [];
    hide Store, ProcessQC;
    assert MixIn([], [], cfg.QSize()) == [];
  }

  lemma SomeVote(msgs: seq<Vote>) returns (m: Vote)
    requires msgs != []
    ensures m in msgs
  {
    m := msgs[0];
  }

  lemma NoNewViews(cfg: Config, r: Replica, tee: bool)
    requires LogOk(cfg, r.id, Known(r), r.log) && !Leads(cfg, r, r.view)
    ensures Entries(r.log, Slot(NewView, tee, r.view)) == []
  {
    var slot := Slot(NewView, tee, r.view);
    SlotFacts(cfg, r.id, Known(r), r.log, slot);
    var msgs := Entries(r.log, slot);
    if msgs != [] { var _ := SomeVote(msgs); }
  }

  // ---- every event

  /** What a delivery leads to, once the message is in the inbox. */
  function Handled(cfg: Config, r: Replica, m: Msg): Replica
    requires cfg.maxSigs > 0
  {
    match m
    case LdrMsg(p) => HandleLdrPrepare(cfg, r, p)
    case VoteMsg(NewView, v) => HandleNewView(cfg, r, v)
    case VoteMsg(Prepare, v) => HandlePrepare(cfg, r, v)
    case VoteMsg(PreCommit, v) => HandlePreCommit(cfg, r, v)
    case VoteMsg(Commit, v) => HandleCommit(cfg, r, v)
  }

  lemma DeliveryInPhase(cfg: Config, r: Replica, m: Msg)
    requires cfg.Valid() && Inv(cfg, r) && VotesPast(r) && m in Known(r)
    ensures var r' := Handled(cfg, r, m);
      NewVotesInPhase(r, r') <==> AnswersInPhase(cfg, r, m) && !Strays(cfg, r, r')
  {
    hide HandleLdrPrepare, HandleNewView, HandlePrepare, HandlePreCommit, HandleCommit, Inv, VotesPast;
    match m
    case LdrMsg(p) => LdrInPhase(cfg, r, p);
    case VoteMsg(NewView, v) => NewViewInPhase(cfg, r, v);
    case VoteMsg(Prepare, v) => PrepareInPhase(cfg, r, v);
    case VoteMsg(PreCommit, v) => PreCommitInPhase(cfg, r, v);
    case VoteMsg(Commit, v) => CommitInPhase(cfg, r, v);
  }

  /** A delivery, once the message is received, is answered in phase. */
  predicate EventInPhase(cfg: Config, r: Replica, e: Event)
    requires cfg.maxSigs > 0
  {
    e.Deliver? ==> AnswersInPhase(cfg, Received(r, e), e.msg)
  }

  /** For one event of one replica, whatever it has received: the new votes are in phase exactly when a
      delivery is answered in phase and no view is entered and stopped in with a stray lock. */
  lemma StepInPhase(cfg: Config, r: Replica, e: Event)
    requires cfg.Valid() && Inv(cfg, r) && VotesPast(r)
    ensures var r' := Step(cfg, r, e);
      NewVotesInPhase(r, r') <==> EventInPhase(cfg, r, e) && !Strays(cfg, r, r')
  {
    hide HandleLdrPrepare, HandleNewView, HandlePrepare, HandlePreCommit, HandleCommit, StartNewView, AnswersInPhase;
    match e
    case Submit(tx) =>
    case Start =>
    case Timeout => StartNewViewExact(cfg, r);
    case Deliver(m) =>
      InboxGrows(cfg, r, m);
      hide Inv;
      DeliveryInPhase(cfg, r.(inbox := r.inbox + {m}), m);
  }

  /** A proposal that was answered in phase is answered again when it is delivered again, and then out of
      phase: the handler does not remember that it has voted. */
  lemma RepeatedProposal(cfg: Config, r: Replica, p: Proposal)
    requires cfg.maxSigs > 0 && VotesPast(r) && Answer(cfg, r, LdrMsg(p)) == Some(Prepare) && r.t.phase == Prepare
    ensures var r1 := HandleLdrPrepare(cfg, r, p);
      && NewVotesInPhase(r, r1)
      && Answer(cfg, r1, LdrMsg(p)) == Some(Prepare) && r1.t.phase == PreCommit
      && !NewVotesInPhase(r1, HandleLdrPrepare(cfg, r1, p))
  {
    var r1 := HandleLdrPrepare(cfg, r, p);
    LdrInPhase(cfg, r, p);
    AnsweredAgain(cfg, r, p);
    hide HandleLdrPrepare, Answer;
    LdrInPhase(cfg, r1, p);
  }

  lemma AnsweredAgain(cfg: Config, r: Replica, p: Proposal)
    requires cfg.maxSigs > 0 && VotesPast(r) && Answer(cfg, r, LdrMsg(p)) == Some(Prepare) && r.t.phase == Prepare
    ensures var r1 := HandleLdrPrepare(cfg, r, p);
      Answer(cfg, r1, LdrMsg(p)) == Some(Prepare) && r1.t.phase == PreCommit && VotesPast(r1)
  {
    AcceptedProposal(cfg, r.t, r.id, p.block, p.acc, p.proof);
    hide VerifyLdrPrepare, ValidProof, Summarises;
  }

  // ---- in every run

  /** In every run of honest replicas and for any message, an event's new votes all carry the phase of their
      message type exactly when the trusted component is in the phase of the answer that the delivery asks
      for; and a leader always proposes in phase. */
  lemma PhaseOrderInEveryRun(cfg: Config, sys: System.State, q: PID, e: Event)
    requires cfg.Valid() && System.Reachable(cfg, sys) && q in sys && sys[q].started
    ensures NewVotesInPhase(sys[q], Step(cfg, sys[q], e)) <==> EventInPhase(cfg, sys[q], e)
    ensures e.Deliver? && e.msg.VoteMsg? && e.msg.tag == NewView ==> EventInPhase(cfg, sys[q], e)
  {
    System.ReachableGood(cfg, sys);
    hide System.Reachable, Step, AnswersInPhase;
    VotesPastInRun(cfg, sys, q);
    NoStrayLockInRun(cfg, sys, q);
    System.GoodAt(cfg, sys, q);
    if Leads(cfg, sys[q], sys[q].view) && sys[q].view !in sys[q].processedNewViews { L.NotLockedYet(cfg, sys, q); }
    hide System.Good, Inv, S.Inv, S.NodeOk, VotesPast, NoStrayLock;
    StepInPhase(cfg, sys[q], e);
    NeverStrays(cfg, sys[q], e);
    if e.Deliver? && e.msg.VoteMsg? && e.msg.tag == NewView {
      InboxGrows(cfg, sys[q], e.msg);
      ReadyAnswers(cfg, Received(sys[q], e), e.msg.vote);
    }
  }

  /** Without a stray lock in the cache no event ends with one. */
  lemma NeverStrays(cfg: Config, r: Replica, e: Event)
    requires cfg.maxSigs > 0 && NoStrayLock(cfg, r)
    ensures !Strays(cfg, r, Step(cfg, r, e))
  {
    hide Step;
    var r' := Step(cfg, r, e);
    assert StrayLock(cfg, r, r') ==> Cached(r, Future(PreCommit, r'.view));
  }

  // ---- in every run among faulty replicas

  lemma VotesPastAmongFaulty(cfg: Config, s: ByzantineRuns.State, q: PID)
    requires ByzantineRuns.Good(cfg, s) && q in s.honest
    ensures VotesPast(s.honest[q])
  {
    var r := s.honest[q];
    var w := ByzantineRuns.World(s);
    ByzantineRuns.GoodReplica(cfg, s, q);
    hide System.ReplicaOk, B.Led, B.CertKnown, B.Unforged;
    assert w.nodes[q].id == q && B.NodeOk(cfg, w, w.nodes[q]);
    hide B.Inv;
    OwnVotesPast(cfg, w, q);
  }

  lemma OwnVotesPast(cfg: Config, w: B.World, q: PID)
    requires q in w.nodes && B.NodeOk(cfg, w, w.nodes[q])
    ensures Past(w.nodes[q])
  {
    hide B.Led, B.CertKnown, B.Unforged;
    var a := w.nodes[q];
    forall tag, v | VoteMsg(tag, v) in a.issued && v.signs == [Sign(true, a.id, RoundText(v.data))]
      ensures RoundKey(v.data) < StateKey(a.t)
    {
      assert VoteMsg(tag, Vote(v.data, [Sign(true, a.id, RoundText(v.data))])) in a.issued;
      assert B.Made(a, v.data);
    }
  }

  /** Among faulty replicas and faulty hosts too, for any event and any message, an honest replica's new votes
      are in phase exactly when the delivery is answered in phase and no stop with a stray lock follows. */
  lemma PhaseOrderAmongFaulty(cfg: Config, honest: set<PID>, s: ByzantineRuns.State, q: PID, e: Event)
    requires cfg.Valid() && B.Setting(cfg, honest) && ByzantineRuns.Reachable(cfg, honest, s)
    requires q in s.honest && s.honest[q].started
    ensures var r' := Step(cfg, s.honest[q], e);
      NewVotesInPhase(s.honest[q], r') <==> EventInPhase(cfg, s.honest[q], e) && !Strays(cfg, s.honest[q], r')
  {
    ByzantineRuns.ReachableGood(cfg, honest, s);
    hide ByzantineRuns.Reachable, ByzantineRuns.Good, Step, EventInPhase, Inv, VotesPast, Strays;
    VotesPastAmongFaulty(cfg, s, q);
    ByzantineRuns.GoodReplica(cfg, s, q);
    hide B.Inv;
    StepInPhase(cfg, s.honest[q], e);
  }

  /** There, a replica that times out before its last view strays exactly when the trusted leader's proposal and
      both certificates of that view wait for it. */
  lemma LastTimeoutAmongFaulty(cfg: Config, honest: set<PID>, s: ByzantineRuns.State, q: PID)
    requires cfg.Valid() && B.Setting(cfg, honest) && ByzantineRuns.Reachable(cfg, honest, s)
    requires q in s.honest && s.honest[q].started
    requires var r := s.honest[q]; TimeToStop(cfg, r.(processedCommit := r.processedCommit + {r.view + 1}))
    ensures NewVotesInPhase(s.honest[q], Step(cfg, s.honest[q], Timeout)) <==> !WillStray(cfg, s.honest[q])
  {
    hide ByzantineRuns.Reachable, ByzantineRuns.Good, Step, VotesPast, WillStray, NewVotesInPhase, TimeToStop;
    hide B.Inv, System.ReplicaOk, B.Setting;
    ByzantineRuns.ReachableGood(cfg, honest, s);
    VotesPastAmongFaulty(cfg, s, q);
    ByzantineRuns.GoodReplica(cfg, s, q);
    LastTimeout(cfg, s.honest[q], q);
  }

  lemma LastTimeout(cfg: Config, r: Replica, q: PID)
    requires cfg.Valid() && System.ReplicaOk(cfg, r, q) && r.started && VotesPast(r)
    requires TimeToStop(cfg, r.(processedCommit := r.processedCommit + {r.view + 1}))
    ensures NewVotesInPhase(r, Step(cfg, r, Timeout)) <==> !WillStray(cfg, r)
  {
    hide LogOk, FutureOk, StartNewView, HandleMsg, GetStarted, VotesPast, WillStray, NewVotesInPhase, TimeToStop;
    LastViewExact(cfg, r);
  }
}
