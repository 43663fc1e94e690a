/** The leader's own path: whenever its threshold for new-views holds, what it accumulates is accepted by
    its own trusted component. */
module LeaderRoundTrip {
  import opened Types
  import opened Quorums
  import opened Certificates
  import opened TrustedMachine
  import opened Accumulators
  import opened SignLists
  import opened VoteLog
  import opened Replicas
  import opened Protocol
  import R = Refinement
  import S = Safety
  import A = Agreement
  import System

  /** A checked new-view message for view v. */
  predicate NvEntry(cfg: Config, v: View, m: Vote) {
    && m.data.phase == NewView && m.data.propv == v
    && |m.signs| == 1 && SigOk(cfg, m.signs[0], RoundText(m.data))
  }

  predicate AllTrusted(cfg: Config, nvs: seq<Vote>)
    requires forall i :: 0 <= i < |nvs| ==> |nvs[i].signs| == 1
  {
    forall i :: 0 <= i < |nvs| ==> cfg.IsTEE(nvs[i].signs[0].signer)
  }

  /** Exactly QT trusted, or exactly 2f+1, new-views of distinct replicas. */
  predicate NvQuorum(cfg: Config, v: View, nvs: seq<Vote>) {
    && (forall i :: 0 <= i < |nvs| ==> NvEntry(cfg, v, nvs[i]))
    && DistinctSingles(nvs)
    && (|nvs| == cfg.QSize() || (|nvs| == cfg.TQSize() && AllTrusted(cfg, nvs)))
  }

  // ---- handing over

  /** Mixing votes of distinct signers keeps min(n, all of them), each of them once. */
  lemma {:induction false} MixLaw(s: seq<Vote>, from: seq<Vote>, n: nat)
    requires DistinctSingles(s) && DistinctSingles(from) && |s| <= n
    requires forall a, b :: a in s && b in from ==> a.signs[0].signer != b.signs[0].signer
    ensures var r := MixIn(s, from, n);
      && DistinctSingles(r) && |r| == (if |s| + |from| < n then |s| + |from| else n)
      && (forall m :: m in r ==> m in s || m in from)
    decreases |from|
  {
    if from != [] && |s| < n {
      assert from[0] in from;
      InsertNew(s, from[0]);
      NewElements(s, from[0], SetInsert(s, from[0]));
      DistinctTail(from);
      hide SetInsert, DistinctSingles;
      MixLaw(SetInsert(s, from[0]), from[1..], n);
    }
  }

  lemma DistinctTail(msgs: seq<Vote>)
    requires DistinctSingles(msgs) && msgs != []
    ensures DistinctSingles(msgs[1..])
    ensures forall b :: b in msgs[1..] ==> b in msgs && |b.signs| == 1 && b.signs[0].signer != msgs[0].signs[0].signer
  {
    forall b | b in msgs[1..] ensures b in msgs && |b.signs| == 1 && b.signs[0].signer != msgs[0].signs[0].signer {
      var i :| 0 <= i < |msgs| - 1 && msgs[1..][i] == b;
      assert msgs[i + 1] == b;
    }
  }

  /** The new-view slots of the log hold checked messages, at most one per signer, by signer class. */
  ghost predicate NvSlotsOk(cfg: Config, log: LogState, v: View) {
    forall tee :: SlotOk(cfg, Slot(NewView, tee, v), Entries(log, Slot(NewView, tee, v)))
      && forall m :: m in Entries(log, Slot(NewView, tee, v)) ==> NvEntry(cfg, v, m)
  }

  /** At its threshold the leader hands over exactly QT trusted or exactly 2f+1 distinct new-views. */
  lemma HandOver(cfg: Config, r: Replica) returns (nvs: seq<Vote>)
    requires cfg.Valid() && NvSlotsOk(cfg, r.log, r.view) && NewViewThreshold(cfg, r.log, r.view)
    ensures PrepareComb(cfg, r) == ProcessQC(cfg, r, nvs, |nvs|)
    ensures NvQuorum(cfg, r.view, nvs)
    ensures forall m :: m in nvs ==> exists tee :: m in Entries(r.log, Slot(NewView, tee, r.view))
  {
    hide ProcessQC, MixIn, NvEntry;
    QuorumSizes(cfg);
    var allTee := Entries(r.log, Slot(NewView, true, r.view));
    var allNon := Entries(r.log, Slot(NewView, false, r.view));
    var tee := Take(allTee, cfg.TQSize());
    var non := Take(allNon, cfg.QSize());
    assert forall m :: m in tee ==> m in allTee;
    assert forall m :: m in non ==> m in allNon;
    if cfg.FastQC() && |tee| >= cfg.TQSize() {
      nvs := tee;
    } else {
      nvs := MixIn(MixIn([], tee, cfg.QSize()), non, cfg.QSize());
      MixBoth(cfg, tee, non);
      forall i | 0 <= i < |nvs| ensures NvEntry(cfg, r.view, nvs[i]) {
        assert nvs[i] in nvs;
      }
    }
  }

  lemma MixBoth(cfg: Config, tee: seq<Vote>, non: seq<Vote>)
    requires SlotOk(cfg, Slot(NewView, true, 0), tee) && SlotOk(cfg, Slot(NewView, false, 0), non)
    requires |tee| <= cfg.QSize()
    ensures var r := MixIn(MixIn([], tee, cfg.QSize()), non, cfg.QSize());
      && DistinctSingles(r)
      && |r| == (if |tee| + |non| < cfg.QSize() then |tee| + |non| else cfg.QSize())
      && (forall m :: m in r ==> m in tee || m in non)
  {
    var some := MixIn([], tee, cfg.QSize());
    MixLaw([], tee, cfg.QSize());
    hide MixIn;
    forall a, b | a in some && b in non ensures a.signs[0].signer != b.signs[0].signer {
      assert a in tee;
    }
    MixLaw(some, non, cfg.QSize());
  }

  // ---- accumulating

  predicate AllSame(nvs: seq<Vote>) {
    forall i :: 0 <= i < |nvs| ==> SameRound(nvs[i].data, nvs[0].data)
  }

  predicate Identical(nvs: seq<Vote>) {
    forall i :: 0 <= i < |nvs| ==> nvs[i].data == nvs[0].data
  }

  function FirstSigns(nvs: seq<Vote>): (r: seq<Sign>)
    requires forall i :: 0 <= i < |nvs| ==> |nvs[i].signs| == 1
    ensures |r| == |nvs| && forall i :: 0 <= i < |nvs| ==> r[i] == nvs[i].signs[0]
  {
    seq(|nvs|, i requires 0 <= i < |nvs| => nvs[i].signs[0])
  }

  /** The signatures collected for the fast accumulator are all of them exactly when all data are equal up
      to hash flags. */
  lemma {:induction false} SameSignsLaw(d: RData, nvs: seq<Vote>)
    requires forall i :: 0 <= i < |nvs| ==> |nvs[i].signs| == 1
    ensures |SameSigns(d, nvs)| <= |nvs|
    ensures |SameSigns(d, nvs)| == |nvs| <==> forall i :: 0 <= i < |nvs| ==> SameRound(nvs[i].data, d)
    ensures |SameSigns(d, nvs)| == |nvs| ==> SameSigns(d, nvs) == FirstSigns(nvs)
  {
    if nvs != [] {
      var last := |nvs| - 1;
      SameSignsLaw(d, nvs[..last]);
      assert forall i :: 0 <= i < last ==> nvs[..last][i] == nvs[i];
    }
  }

  /** The proof the leader attaches is a valid one. */
  lemma ProofIsValid(cfg: Config, v: View, nvs: seq<Vote>)
    requires cfg.Valid() && NvQuorum(cfg, v, nvs)
    ensures ValidProof(cfg, v, ProofOf(cfg, nvs)) && |ProofOf(cfg, nvs)| == |nvs|
    ensures EntrySigns(ProofOf(cfg, nvs)) == FirstSigns(nvs)
  {
    QuorumSizes(cfg);
    var proof := ProofOf(cfg, nvs);
    assert EntrySigns(proof) == FirstSigns(nvs);
    forall i | 0 <= i < |proof| ensures EntryOk(cfg, v, proof[i]) {
      assert NvEntry(cfg, v, nvs[i]);
    }
  }

  /** Different data: the general accumulator counts every entry. */
  lemma GeneralAccumulator(cfg: Config, id: PID, v: View, nvs: seq<Vote>)
    requires cfg.Valid() && NvQuorum(cfg, v, nvs)
    ensures Summarises(Accumulate(cfg, cfg.IsTEE(id), id, PaddedProof(cfg, nvs)), v, ProofOf(cfg, nvs))
  {
    QuorumSizes(cfg);
    ProofIsValid(cfg, v, nvs);
    var js := PaddedProof(cfg, nvs);
    var proof := ProofOf(cfg, nvs);
    var pad := js[|nvs|..Window(cfg)];
    assert js[..Window(cfg)] == proof + pad;
    forall i | 0 <= i < |proof| ensures Counted(cfg, cfg.IsTEE(id), v, proof[i]) {
      assert EntryOk(cfg, v, proof[i]);
    }
    TallyIgnores(cfg, cfg.IsTEE(id), v, proof, pad);
    TallyOfProof(cfg, cfg.IsTEE(id), v, proof);
    DistinctSignersCount(EntrySigns(proof));
    assert js[0] == proof[0] && EntryOk(cfg, v, proof[0]);
  }

  /** Same data: the fast accumulator counts every signature exactly when the data are identical. */
  lemma FastAccumulator(cfg: Config, id: PID, v: View, nvs: seq<Vote>)
    requires cfg.Valid() && NvQuorum(cfg, v, nvs)
    ensures Summarises(AccumulateSp(cfg, cfg.IsTEE(id), id, nvs[0].data, FirstSigns(nvs)), v, ProofOf(cfg, nvs)) <==>
      Identical(nvs)
  {
    QuorumSizes(cfg);
    ProofIsValid(cfg, v, nvs);
    var d := nvs[0].data;
    var signs := FirstSigns(nvs);
    var proof := ProofOf(cfg, nvs);
    assert NvEntry(cfg, v, nvs[0]);
    assert signs[..|signs|] == signs;
    DistinctSignersCount(signs);
    if Identical(nvs) {
      forall i | 0 <= i < |signs| ensures SigOk(cfg, signs[i], RoundText(d)) { assert NvEntry(cfg, v, nvs[i]); }
      assert SpSigners(cfg, cfg.IsTEE(id), d, signs) == SignersOf(signs);
      HighestOfSame(proof, d);
    } else {
      var k :| 0 <= k < |nvs| && nvs[k].data != d;
      assert NvEntry(cfg, v, nvs[k]);
      MissedSigner(cfg, cfg.IsTEE(id), d, signs, k);
    }
  }

  /** A signature on other data is not counted by the fast accumulator. */
  lemma MissedSigner(cfg: Config, enclave: bool, d: RData, signs: seq<Sign>, k: nat)
    requires k < |signs| && signs[k].text != RoundText(d) && Distinct(signs)
    ensures |SpSigners(cfg, enclave, d, signs)| < |signs|
  {
    var counted := SpSigners(cfg, enclave, d, signs);
    DistinctSignersCount(signs);
    assert signs[k] in signs;
    forall p | p in counted ensures p in SignersOf(signs) && p != signs[k].signer {
      var i :| 0 <= i < |signs| && signs[i].signer == p && (!enclave ==> signs[i].text == RoundText(d));
      assert signs[i] in signs;
    }
    SubsetSize(counted, SignersOf(signs) - {signs[k].signer});
  }

  /** The round trip: on the quorum handed over, the leader's proof is always valid and its accumulator
      always signed, and the accumulator summarises the proof, ties on the highest view included, except
      when all new-views are equal up to the `set` flags of their hashes but not identical: then the fast
      accumulator is chosen and does not count the ones that differ. */
  lemma AccumulatorRoundTrip(cfg: Config, id: PID, v: View, nvs: seq<Vote>)
    requires cfg.Valid() && NvQuorum(cfg, v, nvs) && id in cfg.nodes
    ensures var acc, proof := NewViewsToAccum(cfg, id, nvs, |nvs|), ProofOf(cfg, nvs);
      && ValidProof(cfg, v, proof)
      && acc.isSet && SigOk(cfg, acc.sign, acc.Data())
      && (Summarises(acc, v, proof) <==> !(AllSame(nvs) && !Identical(nvs)))
  {
    QuorumSizes(cfg);
    ProofIsValid(cfg, v, nvs);
    hide ValidProof, Summarises, Accumulate, AccumulateSp;
    assert Take(nvs, cfg.maxSigs) == nvs;
    SameSignsLaw(nvs[0].data, nvs);
    if AllSame(nvs) {
      FastAccumulator(cfg, id, v, nvs);
    } else {
      assert !Identical(nvs);
      GeneralAccumulator(cfg, id, v, nvs);
    }
    R.AccumSigner(cfg, id, nvs, |nvs|);
  }

  // ---- in every run

  /** New-views sent in a run carry set hashes, so equal up to flags means identical. */
  lemma SentIdentical(cfg: Config, w: S.World, v: View, nvs: seq<Vote>)
    requires S.Inv(cfg, w) && NvQuorum(cfg, v, nvs) && AllSame(nvs)
    requires forall i :: 0 <= i < |nvs| ==> S.Sent(w, VoteMsg(NewView, nvs[i]))
    ensures Identical(nvs)
  {
    forall i | 0 <= i < |nvs| ensures nvs[i].data == nvs[0].data {
      SentHashes(cfg, w, nvs[i]);
      SentHashes(cfg, w, nvs[0]);
      assert SameRound(nvs[i].data, nvs[0].data);
    }
  }

  lemma SentHashes(cfg: Config, w: S.World, m: Vote)
    requires S.Inv(cfg, w) && S.Sent(w, VoteMsg(NewView, m))
    ensures m.data.proph == NO_HASH && m.data.justh.isSet
  {
    hide S.NodeOk;
    assert S.MsgOk(cfg, w, VoteMsg(NewView, m));
    if m.data.justv > 0 {
      var d :| S.ProposedData(cfg, w, d) && d.propv == m.data.justv && d.proph == m.data.justh;
    }
  }

  /** The new-view slots of a running leader are as the hand-over needs them, and all sent. */
  lemma SlotsInRun(cfg: Config, sys: System.State, q: PID)
    requires cfg.Valid() && System.Good(cfg, sys) && q in sys && sys[q].started
    ensures NvSlotsOk(cfg, sys[q].log, sys[q].view)
    ensures forall tee, m :: m in Entries(sys[q].log, Slot(NewView, tee, sys[q].view)) ==>
      S.Sent(System.World(sys), VoteMsg(NewView, m))
  {
    hide System.Good, SlotOk, NvEntry, S.Sent, Entries;
    SlotInRun(cfg, sys, q, true);
    SlotInRun(cfg, sys, q, false);
  }

  lemma SlotInRun(cfg: Config, sys: System.State, q: PID, tee: bool)
    requires cfg.Valid() && System.Good(cfg, sys) && q in sys && sys[q].started
    ensures var slot := Slot(NewView, tee, sys[q].view); var msgs := Entries(sys[q].log, slot);
      && SlotOk(cfg, slot, msgs)
      && (forall m :: m in msgs ==> NvEntry(cfg, sys[q].view, m) && S.Sent(System.World(sys), VoteMsg(NewView, m)))
  {
    var r := sys[q];
    var slot := Slot(NewView, tee, r.view);
    System.GoodAt(cfg, sys, q);
    hide System.Good, S.Inv, S.NodeOk;
    R.LogHeld(cfg, r);
    hide R.Inv, R.LogOk, SlotOk, S.MsgOk;
    R.SlotFacts(cfg, q, R.Known(r), r.log, slot);
    forall m | m in Entries(r.log, slot)
      ensures NvEntry(cfg, r.view, m) && S.Sent(System.World(sys), VoteMsg(NewView, m))
    {
      assert R.EntryInLog(cfg, q, R.Known(r), slot, m);
      S.KnownSent(cfg, System.World(sys), q, VoteMsg(NewView, m));
    }
  }

  /** A leader that has not proposed yet is not locked in its own view. */
  lemma NotLockedYet(cfg: Config, sys: System.State, q: PID)
    requires cfg.Valid() && System.Good(cfg, sys) && q in sys && sys[q].started
    requires Leads(cfg, sys[q], sys[q].view) && sys[q].view !in sys[q].processedNewViews
    ensures sys[q].t.view == sys[q].view && sys[q].t.phase == Prepare && sys[q].t.lockv < sys[q].view
  {
    var w := System.World(sys);
    var r := sys[q];
    System.GoodAt(cfg, sys, q);
    hide System.Good, R.Inv, S.Inv;
    R.NotProposed(cfg, r);
    hide HasProposed;
    BeforeProposal(cfg, w, w[q]);
    hide S.NodeOk;
    if r.t.lockv == r.view { LockedProposed(cfg, w, q); }
  }

  lemma BeforeProposal(cfg: Config, w: S.World, a: Node)
    requires S.NodeOk(cfg, w, a) && a.view > 0 && cfg.LeaderOf(a.view) == a.id && !HasProposed(a)
    ensures a.t.view == a.view && a.t.phase == Prepare && a.t.lockv <= a.view
  {
    hide HasProposed, S.Claim, S.LockClaim, S.CertSent;
  }

  lemma LockedProposed(cfg: Config, w: S.World, q: PID)
    requires S.Inv(cfg, w) && q in w && cfg.LeaderOf(w[q].view) == q && w[q].t.lockv == w[q].view > 0
    ensures HasProposed(w[q])
  {
    A.LockHeld(cfg, w, q);
    var cert :| S.CertSent(cfg, w, cert) && cert.data.phase == PreCommit && cert.data.propv == w[q].t.lockv
                && cert.data.proph.digest == w[q].t.lockh.digest;
    hide S.NodeOk, ValidCert, S.ProposedAt;
    assert S.MsgOk(cfg, w, CertMsg(cert));
    S.LeaderProposed(cfg, w, w[q], cert.data);
  }

  /** A trusted component accepts a set, not oversized block on a valid, summarised and safe proof. */
  lemma AcceptsProposal(cfg: Config, t: Trusted, id: PID, block: Block, acc: Accum, proof: seq<OneJust>)
    requires block.isSet && |block.txs| <= cfg.maxTxs
    requires ValidProof(cfg, t.view, proof) && Summarises(acc, t.view, proof) && SafeParent(t, block, acc)
    requires acc.isSet && SigOk(cfg, acc.sign, acc.Data())
    ensures TeePrepare(cfg, t, id, block, acc, proof).1.Some?
  {
    hide ValidProof, Summarises, SafeParent;
    assert [acc.sign][0] == acc.sign;
  }

  /** In every run, a leader that has not proposed in its view and whose threshold for new-views holds
      proposes as soon as it tries: its own trusted component accepts the accumulator, the proof and the
      block. */
  lemma ProposalSucceedsInEveryRun(cfg: Config, sys: System.State, q: PID)
    requires cfg.Valid() && System.Reachable(cfg, sys) && q in sys && sys[q].started
    requires var r := sys[q];
      Leads(cfg, r, r.view) && r.view !in r.processedNewViews && NewViewThreshold(cfg, r.log, r.view)
    ensures var r := sys[q]; r.view in PrepareComb(cfg, r).processedNewViews
  {
    System.ReachableGood(cfg, sys);
    hide System.Reachable, PrepareComb, NewViewThreshold, System.Good;
    ProposalSucceeds(cfg, sys, q);
  }

  lemma ProposalSucceeds(cfg: Config, sys: System.State, q: PID)
    requires cfg.Valid() && System.Good(cfg, sys) && q in sys && q in cfg.nodes && sys[q].started
    requires Leads(cfg, sys[q], sys[q].view) && sys[q].view !in sys[q].processedNewViews
    requires NewViewThreshold(cfg, sys[q].log, sys[q].view)
    ensures sys[q].view in PrepareComb(cfg, sys[q]).processedNewViews
  {
    SlotsInRun(cfg, sys, q);
    NotLockedYet(cfg, sys, q);
    var nvs := HandOver(cfg, sys[q]);
    hide NewViewThreshold, PrepareComb, System.Good;
    QuorumProposes(cfg, sys, q, nvs);
  }

  /** The replica after it has logged a received new-view. */
  function Logged(cfg: Config, r: Replica, m: Vote): Replica {
    var tee := if m.signs == [] then false else cfg.IsTEE(m.signs[0].signer);
    LogVote(r.(inbox := r.inbox + {VoteMsg(NewView, m)}), NewView, tee, m)
  }

  /** In every run, when a received new-view brings a leader that has not proposed to its threshold, the
      leader proposes exactly when its handler phase is NEWVIEW.  Entering a view does not reset that phase,
      so a leader whose earlier view ended half-way does not react. */
  lemma ThresholdProposesInEveryRun(cfg: Config, sys: System.State, q: PID, m: Vote)
    requires cfg.Valid() && System.Reachable(cfg, sys) && q in sys && System.WasSent(sys, VoteMsg(NewView, m))
    requires var r := sys[q];
      && r.started && Leads(cfg, r, r.view) && r.view !in r.processedNewViews
      && m.data.propv == r.view && ValidVote(cfg, NewView, m)
      && NewViewThreshold(cfg, Logged(cfg, r, m).log, r.view)
    ensures var r := sys[q];
      r.view in HandleMsg(cfg, r, VoteMsg(NewView, m)).processedNewViews <==> r.phase == NewView
  {
    System.ReachableGood(cfg, sys);
    hide System.Reachable, NewViewThreshold, System.Good, ValidVote, HandleMsg, Logged;
    ThresholdProposes(cfg, sys, q, m);
  }

  lemma ThresholdProposes(cfg: Config, sys: System.State, q: PID, m: Vote)
    requires cfg.Valid() && System.Good(cfg, sys) && q in sys && q in cfg.nodes
    requires System.WasSent(sys, VoteMsg(NewView, m)) && sys[q].started
    requires Leads(cfg, sys[q], sys[q].view) && sys[q].view !in sys[q].processedNewViews
    requires m.data.propv == sys[q].view && ValidVote(cfg, NewView, m)
    requires NewViewThreshold(cfg, Logged(cfg, sys[q], m).log, sys[q].view)
    ensures sys[q].view in HandleMsg(cfg, sys[q], VoteMsg(NewView, m)).processedNewViews <==> sys[q].phase == NewView
  {
    hide PrepareComb, NewViewThreshold, System.Good, ValidVote, HandleMsg;
    LoggedGood(cfg, sys, q, m);
    LoggedFrame(cfg, sys[q], m);
    var r1 := Logged(cfg, sys[q], m);
    hide Logged, System.WasSent;
    var sys1: System.State := sys[q := r1];
    assert sys1[q] == r1;
    ProposalSucceeds(cfg, sys1, q);
    ReactsByPhase(cfg, sys[q], m);
  }

  lemma ReactsByPhase(cfg: Config, r: Replica, m: Vote)
    requires cfg.maxSigs > 0 && Leads(cfg, r, r.view) && r.view !in r.processedNewViews
    requires m.data.propv == r.view && ValidVote(cfg, NewView, m)
    requires NewViewThreshold(cfg, Logged(cfg, r, m).log, r.view)
    requires r.view in PrepareComb(cfg, Logged(cfg, r, m)).processedNewViews
    ensures r.view in HandleMsg(cfg, r, VoteMsg(NewView, m)).processedNewViews <==> r.phase == NewView
  {
    VoteHasSigner(cfg, NewView, m);
    LoggedFrame(cfg, r, m);
    PrepareKeepsView(cfg, Logged(cfg, r, m));
    hide ValidVote, PrepareComb, NewViewThreshold, Store;
  }

  lemma LoggedFrame(cfg: Config, r: Replica, m: Vote)
    ensures var r1 := Logged(cfg, r, m); r1 == r.(inbox := r1.inbox, log := r1.log)
  {
  }

  lemma PrepareKeepsView(cfg: Config, r: Replica)
    requires cfg.maxSigs > 0
    ensures PrepareComb(cfg, r).view == r.view
  {
    hide ProcessQC;
    var tee := GetMsgs(r.log, Slot(NewView, true, r.view), cfg.TQSize());
    var non := GetMsgs(r.log, Slot(NewView, false, r.view), cfg.QSize());
    ProcessKeepsView(cfg, r, tee, cfg.TQSize());
    ProcessKeepsView(cfg, r, MixIn(MixIn([], tee, cfg.QSize()), non, cfg.QSize()), cfg.QSize());
  }

  lemma ProcessKeepsView(cfg: Config, r: Replica, nvs: seq<Vote>, required: nat)
    requires cfg.maxSigs > 0
    ensures ProcessQC(cfg, r, nvs, required).view == r.view
  {
    hide TeePrepare, NewViewsToAccum, Store, ProofOf;
  }

  lemma LoggedGood(cfg: Config, sys: System.State, q: PID, m: Vote)
    requires cfg.Valid() && System.Good(cfg, sys) && q in sys && sys[q].started && ValidVote(cfg, NewView, m)
    requires System.WasSent(sys, VoteMsg(NewView, m)) && Leads(cfg, sys[q], m.data.propv)
    ensures System.Good(cfg, sys[q := Logged(cfg, sys[q], m)])
  {
    System.GoodAt(cfg, sys, q);
    System.ReceivedGood(cfg, sys, System.Occurrence(q, Deliver(VoteMsg(NewView, m))));
    hide R.Inv, S.Inv, S.NodeOk, System.Good, ValidVote, Logged;
    LoggedOk(cfg, sys[q], m);
    System.ReplaceGood(cfg, sys, q, Logged(cfg, sys[q], m));
  }

  lemma LoggedOk(cfg: Config, r: Replica, m: Vote)
    requires cfg.Valid() && R.Inv(cfg, r) && ValidVote(cfg, NewView, m) && Leads(cfg, r, m.data.propv)
    ensures R.Inv(cfg, Logged(cfg, r, m)) && Logged(cfg, r, m).id == r.id
    ensures R.Abs(Logged(cfg, r, m)) == R.Abs(R.Received(r, Deliver(VoteMsg(NewView, m))))
  {
    R.InboxGrows(cfg, r, VoteMsg(NewView, m));
    hide R.LogOk, R.FutureOk;
    var r0 := r.(inbox := r.inbox + {VoteMsg(NewView, m)});
    R.LogVoteKeeps(cfg, r0, NewView, cfg.IsTEE(m.signs[0].signer), m);
    LoggedFrame(cfg, r, m);
  }

  lemma QuorumProposes(cfg: Config, sys: System.State, q: PID, nvs: seq<Vote>)
    requires cfg.Valid() && System.Good(cfg, sys) && q in sys && q in cfg.nodes
    requires sys[q].view !in sys[q].processedNewViews
    requires sys[q].t.view == sys[q].view && sys[q].t.lockv < sys[q].view
    requires NvQuorum(cfg, sys[q].view, nvs)
    requires forall m :: m in nvs ==> S.Sent(System.World(sys), VoteMsg(NewView, m))
    ensures sys[q].view in ProcessQC(cfg, sys[q], nvs, |nvs|).processedNewViews
  {
    var r := sys[q];
    var w := System.World(sys);
    System.GoodAt(cfg, sys, q);
    hide System.Good, R.Inv, S.NodeOk;
    var proof := ProofOf(cfg, nvs);
    var acc := NewViewsToAccum(cfg, q, nvs, |nvs|);
    var block := CreateNewBlock(cfg, r, acc.hash).1;
    AccumulatorRoundTrip(cfg, q, r.view, nvs);
    if AllSame(nvs) { SentIdentical(cfg, w, r.view, nvs); }
    ProofWasSent(cfg, w, nvs);
    hide S.Inv, ValidProof, Summarises, NvQuorum, NewViewsToAccum, ProofOf;
    A.LocksNeverBlock(cfg, w, q, r.view, block, acc, proof);
    AcceptsProposal(cfg, r.t, q, block, acc, proof);
    ProcessesOnAccept(cfg, r, nvs, |nvs|);
  }

  lemma ProofWasSent(cfg: Config, w: S.World, nvs: seq<Vote>)
    requires forall i :: 0 <= i < |nvs| ==> |nvs[i].signs| == 1
    requires forall m :: m in nvs ==> S.Sent(w, VoteMsg(NewView, m))
    ensures S.ProofSent(w, ProofOf(cfg, nvs))
  {
    forall e | e in ProofOf(cfg, nvs) ensures S.Sent(w, EntryMsg(e)) {
      var i :| 0 <= i < |ProofOf(cfg, nvs)| && ProofOf(cfg, nvs)[i] == e;
      assert nvs[i] in nvs && nvs[i] == Vote(e.rdata, [e.sign]);
    }
  }

  lemma ProcessesOnAccept(cfg: Config, r: Replica, nvs: seq<Vote>, required: nat)
    requires cfg.maxSigs > 0 && r.view !in r.processedNewViews
    requires var acc := NewViewsToAccum(cfg, r.id, nvs, required);
      TeePrepare(cfg, r.t, r.id, CreateNewBlock(cfg, r, acc.hash).1, acc, ProofOf(cfg, nvs)).1.Some?
    ensures r.view in ProcessQC(cfg, r, nvs, required).processedNewViews
  {
    hide TeePrepare, NewViewsToAccum, ProofOf, Store;
  }

  /** In every run, any proposal that was sent is voted for by any backup whose trusted component is at phase
      PREPARE of its view, on whichever block it is locked, with the round data the leader signed. */
  lemma BackupVotesInEveryRun(cfg: Config, sys: System.State, q: PID, p: Proposal)
    requires cfg.Valid() && System.Reachable(cfg, sys) && q in sys && System.WasSent(sys, LdrMsg(p))
    requires var r := sys[q];
      r.started && r.view == p.acc.view && !Leads(cfg, r, r.view) && r.t.view == r.view && r.t.phase == Prepare
    ensures var r := HandleLdrPrepare(cfg, sys[q], p);
      && VoteMsg(Prepare, Vote(LdrData(p), [Sign(true, q, RoundText(LdrData(p)))])) in r.issued
      && p.acc.view in r.blocks && r.blocks[p.acc.view] == p.block
  {
    System.ReachableGood(cfg, sys);
    hide System.Reachable, System.Good;
    BackupAccepts(cfg, sys, q, p);
    hide TeePrepare, VerifyLdrPrepare;
    RespondsOnAccept(cfg, sys[q], p);
  }

  /** Such a backup's handler and trusted component accept the proposal. */
  lemma BackupAccepts(cfg: Config, sys: System.State, q: PID, p: Proposal)
    requires cfg.Valid() && System.Good(cfg, sys) && q in sys && System.WasSent(sys, LdrMsg(p))
    requires var r := sys[q];
      r.started && r.view == p.acc.view && !Leads(cfg, r, r.view) && r.t.view == r.view && r.t.phase == Prepare
    ensures sys[q].id == q && VerifyLdrPrepare(cfg, p) && Extends(p.block, p.acc.hash)
    ensures p.acc.size == cfg.QSize() || p.acc.size == cfg.TQSize()
    ensures TeePrepare(cfg, sys[q].t, q, p.block, p.acc, p.proof).1.Some?
  {
    var w := System.World(sys);
    var r := sys[q];
    System.GoodAt(cfg, sys, q);
    NotLockedInView(cfg, w, w[q]);
    SentProposal(cfg, sys, p);
    hide System.Good, R.Inv, S.Inv, S.NodeOk, VerifyLdrPrepare, ValidProof, S.ProofSent;
    A.LocksNeverBlock(cfg, w, q, r.view, p.block, p.acc, p.proof);
    AcceptsProposal(cfg, r.t, q, p.block, p.acc, p.proof);
    ProofSizes(cfg, r.view, p.proof);
  }

  lemma NotLockedInView(cfg: Config, w: S.World, a: Node)
    requires S.NodeOk(cfg, w, a) && a.t.phase == Prepare
    ensures a.t.lockv < a.t.view
  {
    hide S.Claim, S.LockClaim, S.CertSent;
  }

  lemma RespondsOnAccept(cfg: Config, r: Replica, p: Proposal)
    requires r.view == p.acc.view == r.t.view && !Leads(cfg, r, r.view) && r.t.phase == Prepare
    requires VerifyLdrPrepare(cfg, p) && (p.acc.size == cfg.QSize() || p.acc.size == cfg.TQSize())
    requires Extends(p.block, p.acc.hash)
    requires TeePrepare(cfg, r.t, r.id, p.block, p.acc, p.proof).1.Some?
    ensures var r' := HandleLdrPrepare(cfg, r, p);
      && VoteMsg(Prepare, Vote(LdrData(p), [Sign(true, r.id, RoundText(LdrData(p)))])) in r'.issued
      && p.acc.view in r'.blocks && r'.blocks[p.acc.view] == p.block
  {
    AcceptedProposal(cfg, r.t, r.id, p.block, p.acc, p.proof);
    hide TeePrepare, VerifyLdrPrepare;
  }

  lemma SentProposal(cfg: Config, sys: System.State, p: Proposal)
    requires System.Good(cfg, sys) && System.WasSent(sys, LdrMsg(p))
    ensures VerifyLdrPrepare(cfg, p) && S.BacksData(cfg, System.World(sys), p, LdrData(p))
  {
    var q :| q in sys && LdrMsg(p) in sys[q].issued;
    System.GoodAt(cfg, sys, q);
    hide System.Good, S.NodeOk, S.BacksData, VerifyLdrPrepare;
    S.KnownSent(cfg, System.World(sys), q, LdrMsg(p));
  }

  lemma ProofSizes(cfg: Config, v: View, proof: seq<OneJust>)
    requires ValidProof(cfg, v, proof)
    ensures |proof| == cfg.QSize() || |proof| == cfg.TQSize()
  {
  }
}
