/** Every handler step is a sequence of protocol actions, and the handler and its trusted component stay
    in lockstep: proved for arbitrary messages, from any peers, in any order. */
module Refinement {
  import opened Types
  import opened Quorums
  import opened Certificates
  import opened TrustedMachine
  import opened VoteLog
  import opened Replicas
  import opened Protocol

  function Abs(r: Replica): Node {
    Node(r.id, r.t, if r.started then r.view else 0, r.signed, r.inbox, r.issued, r.executed)
  }

  function Known(r: Replica): set<Msg> { r.inbox + r.issued }

  /** A logged vote is a checked single-signature message of this slot that the replica received or made;
      new-views are logged for views the replica leads. */
  predicate EntryInLog(cfg: Config, id: PID, known: set<Msg>, slot: Slot, m: Vote) {
    && m.data.propv == slot.view
    && |m.signs| == 1 && SigOk(cfg, m.signs[0], RoundText(m.data))
    && VoteMsg(slot.tag, m) in known
    && (slot.tag == NewView ==> m.data.phase == NewView && cfg.LeaderOf(slot.view) == id)
  }

  ghost predicate LogOk(cfg: Config, id: PID, known: set<Msg>, log: LogState) {
    && (forall slot, m :: slot in log.votes && m in log.votes[slot] ==> EntryInLog(cfg, id, known, slot, m))
    && (forall slot :: slot in log.votes ==> SlotOk(cfg, slot, log.votes[slot]))
    && (forall v, p :: v in log.proposals && p in log.proposals[v] ==>
          p.acc.view == v && LdrMsg(p) in known && VerifyLdrPrepare(cfg, p))
  }

  /** A cached certificate is a checked certificate of its slot that the replica received. */
  predicate CachedOk(cfg: Config, known: set<Msg>, k: Future, m: Vote) {
    VoteMsg(k.tag, m) in known && ValidQC(cfg, k.tag, m) && m.data.propv == k.view
  }

  ghost predicate FutureOk(cfg: Config, known: set<Msg>, future: map<Future, seq<Vote>>) {
    forall k, m :: k in future && m in future[k] ==> CachedOk(cfg, known, k, m)
  }

  /** Blocks and executions belong to views that have begun. */
  predicate Tidy(r: Replica) {
    (forall v :: v in r.blocks ==> v <= r.view) && (forall v :: v in r.processedCommit ==> v <= r.view)
  }

  /** Each view is executed at most once, and recorded as executed. */
  ghost predicate Once(done: set<View>, executed: seq<RData>) {
    && (forall v :: v in done <==> exists i :: 0 <= i < |executed| && executed[i].propv == v)
    && (forall i, j :: 0 <= i < j < |executed| ==> executed[i].propv != executed[j].propv)
  }

  lemma OnceMore(done: set<View>, executed: seq<RData>, d: RData)
    requires Once(done, executed) && d.propv !in done
    ensures Once(done + {d.propv}, executed + [d])
  {
    var executed' := executed + [d];
    forall v ensures v in done + {d.propv} <==> exists i :: 0 <= i < |executed'| && executed'[i].propv == v {
      if v == d.propv { assert executed'[|executed|].propv == v; }
      if v in done {
        var i :| 0 <= i < |executed| && executed[i].propv == v;
        assert executed'[i].propv == v;
      }
    }
    forall i, j | 0 <= i < j < |executed'| ensures executed'[i].propv != executed'[j].propv {
      assert executed[i].propv in done;
    }
  }

  /** What a started replica keeps, whatever it receives. */
  ghost predicate Inv(cfg: Config, r: Replica) {
    && r.started && r.id in cfg.nodes && r.view > 0
    && Lockstep(r.t, r.view) && Tidy(r) && Once(r.processedCommit, r.executed)
    && LogOk(cfg, r.id, Known(r), r.log)
    && FutureOk(cfg, Known(r), r.future)
    && (forall p :: LdrMsg(p) in r.issued ==> p.acc.view in r.processedNewViews)
  }

  /** A replica that has not started has handled nothing. */
  predicate Fresh(r: Replica) {
    r == InitialReplica(r.id).(transactions := r.transactions)
  }

  /** From a to b by protocol actions, keeping the invariant. */
  ghost predicate Refines(cfg: Config, a: Replica, b: Replica) {
    Inv(cfg, b) && Reaches(cfg, Abs(a), Abs(b))
  }

  lemma RefinesTrans(cfg: Config, a: Replica, b: Replica, c: Replica)
    requires Refines(cfg, a, b) && Refines(cfg, b, c)
    ensures Refines(cfg, a, c)
  {
    ReachesTrans(cfg, Abs(a), Abs(b), Abs(c));
  }

  lemma RefinesLocal(cfg: Config, a: Replica, b: Replica)
    requires Inv(cfg, b) && Abs(a) == Abs(b)
    ensures Refines(cfg, a, b)
  {
    ReachesSelf(cfg, Abs(a));
  }

  lemma RefinesAct(cfg: Config, a: Replica, act: Act, b: Replica)
    requires Enabled(cfg, Abs(a), act) && Apply(cfg, Abs(a), act) == Abs(b) && Inv(cfg, b)
    ensures Refines(cfg, a, b)
  {
    ReachesByOne(cfg, Abs(a), act);
  }

  // ---- the log

  lemma LogGrows(cfg: Config, id: PID, known: set<Msg>, known': set<Msg>, log: LogState)
    requires LogOk(cfg, id, known, log) && known <= known'
    ensures LogOk(cfg, id, known', log)
  {
  }

  lemma FutureGrows(cfg: Config, known: set<Msg>, known': set<Msg>, future: map<Future, seq<Vote>>)
    requires FutureOk(cfg, known, future) && known <= known'
    ensures FutureOk(cfg, known', future)
  {
    forall k, m | k in future && m in future[k] ensures CachedOk(cfg, known', k, m) {
      assert CachedOk(cfg, known, k, m);
    }
  }

  lemma NotProposed(cfg: Config, r: Replica)
    requires Inv(cfg, r) && r.view !in r.processedNewViews
    ensures !HasProposed(Abs(r)) && Abs(r).view > 0
  {
    hide LogOk, FutureOk;
  }

  lemma LogHeld(cfg: Config, r: Replica)
    requires Inv(cfg, r)
    ensures LogOk(cfg, r.id, Known(r), r.log)
  {
    hide LogOk, FutureOk;
  }

  lemma SlotFacts(cfg: Config, id: PID, known: set<Msg>, log: LogState, slot: Slot)
    requires LogOk(cfg, id, known, log)
    ensures SlotOk(cfg, slot, Entries(log, slot))
    ensures forall m :: m in Entries(log, slot) ==> EntryInLog(cfg, id, known, slot, m)
  {
  }

  lemma StoreOk(cfg: Config, id: PID, known: set<Msg>, log: LogState, slot: Slot, m: Vote)
    requires LogOk(cfg, id, known, log) && EntryInLog(cfg, id, known, slot, m)
    requires slot.tee == cfg.IsTEE(m.signs[0].signer)
    ensures LogOk(cfg, id, known, Store(log, slot, m).0)
  {
    StoreEntries(cfg, id, known, log, slot, m);
    StoreSlots(cfg, id, known, log, slot, m);
  }

  lemma StoreEntries(cfg: Config, id: PID, known: set<Msg>, log: LogState, slot: Slot, m: Vote)
    requires LogOk(cfg, id, known, log) && EntryInLog(cfg, id, known, slot, m)
    ensures var log1 := Store(log, slot, m).0;
      log1.proposals == log.proposals && forall s, x :: s in log1.votes && x in log1.votes[s] ==>
          EntryInLog(cfg, id, known, s, x)
  {
    hide EntryInLog, SlotOk, VerifyLdrPrepare;
    var log1 := Store(log, slot, m).0;
    forall s, x | s in log1.votes && x in log1.votes[s] ensures EntryInLog(cfg, id, known, s, x) {
      if s == slot && slot in log.votes { InsertElements(log.votes[slot], m, x); }
    }
  }

  lemma StoreSlots(cfg: Config, id: PID, known: set<Msg>, log: LogState, slot: Slot, m: Vote)
    requires LogOk(cfg, id, known, log) && EntryInLog(cfg, id, known, slot, m)
    requires slot.tee == cfg.IsTEE(m.signs[0].signer)
    ensures var log1 := Store(log, slot, m).0; forall s :: s in log1.votes ==> SlotOk(cfg, s, log1.votes[s])
  {
    var log1 := Store(log, slot, m).0;
    SlotFacts(cfg, id, known, log, slot);
    VoteLog.StoreLaw(cfg, log, slot, m);
    hide EntryInLog, SlotOk, Store, LogOk;
    forall s | s in log1.votes ensures SlotOk(cfg, s, log1.votes[s]) {
      SlotFacts(cfg, id, known, log, s);
      assert SlotOk(cfg, s, Entries(log1, s));
    }
  }

  lemma {:induction false} ProposalElements(s: seq<Proposal>, p: Proposal, x: Proposal)
    ensures x in ProposalInsert(s, p) ==> x == p || x in s
  {
    if s != [] && x in ProposalInsert(s, p) { ProposalElements(s[1..], p, x); }
  }

  lemma StoreProposalOk(cfg: Config, id: PID, known: set<Msg>, log: LogState, p: Proposal)
    requires LogOk(cfg, id, known, log) && LdrMsg(p) in known && VerifyLdrPrepare(cfg, p)
    ensures LogOk(cfg, id, known, StoreProposal(log, p))
  {
    var log1 := StoreProposal(log, p);
    forall v, x | v in log1.proposals && x in log1.proposals[v]
      ensures x.acc.view == v && LdrMsg(x) in known && VerifyLdrPrepare(cfg, x)
    {
      if v == p.acc.view && v in log.proposals { ProposalElements(log.proposals[v], p, x); }
    }
  }

  lemma {:induction false} ConcatFrom(msgs: seq<Vote>, s: Sign) returns (m: Vote)
    requires s in Concat(msgs)
    ensures m in msgs && s in m.signs
  {
    var last := |msgs| - 1;
    if s in msgs[last].signs {
      m := msgs[last];
    } else {
      m := ConcatFrom(msgs[..last], s);
    }
  }

  /** A certificate read back from the log is backed by known single votes for its data. */
  lemma LogCertBacked(cfg: Config, r: Replica, tag: Phase, data: RData, fast: bool)
    requires LogOk(cfg, r.id, Known(r), r.log)
    requires ValidQC(cfg, tag, LogCert(cfg, r, tag, data, fast))
    ensures var cert := LogCert(cfg, r, tag, data, fast);
      forall s :: s in cert.signs ==> CertMsg(Vote(data, [s])) in Known(r)
  {
    var cert := LogCert(cfg, r, tag, data, fast);
    forall s | s in cert.signs ensures CertMsg(Vote(data, [s])) in Known(r) {
      var slot := SignIsLogged(cfg, r, tag, data, fast, s);
      assert SigOk(cfg, s, RoundText(data)) && tag == data.phase;
      hide LogCert, ValidQC, SigOk, Concat;
      LoggedIsKnown(cfg, r, slot, data, s);
    }
  }

  lemma SignIsLogged(cfg: Config, r: Replica, tag: Phase, data: RData, fast: bool, s: Sign) returns (slot: Slot)
    requires s in LogCert(cfg, r, tag, data, fast).signs
    ensures slot.tag == tag && slot.view == data.propv && s in Concat(Entries(r.log, slot))
  {
    var t, o := Slot(tag, true, data.propv), Slot(tag, false, data.propv);
    hide Concat;
    assert s in Concat(Entries(r.log, t)) || s in Concat(Entries(r.log, o));
    slot := if s in Concat(Entries(r.log, t)) then t else o;
  }

  lemma LoggedIsKnown(cfg: Config, r: Replica, slot: Slot, data: RData, s: Sign)
    requires LogOk(cfg, r.id, Known(r), r.log) && slot.tag == data.phase && slot.view == data.propv
    requires s in Concat(Entries(r.log, slot)) && SigOk(cfg, s, RoundText(data))
    ensures CertMsg(Vote(data, [s])) in Known(r)
  {
    hide Concat;
    var m := ConcatFrom(Entries(r.log, slot), s);
    assert EntryInLog(cfg, r.id, Known(r), slot, m);
    assert m == Vote(data, [s]);
  }

  // ---- proposing

  /** New-views for the current view, as the log holds them. */
  ghost predicate NvOk(cfg: Config, id: PID, known: set<Msg>, view: View, nvs: seq<Vote>) {
    forall m :: m in nvs ==> EntryInLog(cfg, id, known, Slot(NewView, true, view), m)
  }

  lemma {:induction false} MixElements(s: seq<Vote>, from: seq<Vote>, n: nat, x: Vote)
    requires x in MixIn(s, from, n)
    ensures x in s || x in from
    decreases |from|
  {
    if from != [] && |s| < n {
      MixElements(SetInsert(s, from[0]), from[1..], n, x);
      InsertElements(s, from[0], x);
    }
  }

  lemma ProcessQCRefines(cfg: Config, r: Replica, nvs: seq<Vote>, required: nat)
    requires cfg.Valid() && Inv(cfg, r) && nvs != []
    requires NvOk(cfg, r.id, Known(r), r.view, nvs)
    ensures Refines(cfg, r, ProcessQC(cfg, r, nvs, required))
  {
    hide TeePrepare;
    if r.view in r.processedNewViews {
      RefinesLocal(cfg, r, r);
      return;
    }
    var acc := NewViewsToAccum(cfg, r.id, nvs, required);
    AccumSigner(cfg, r.id, nvs, required);
    var (r1, block) := CreateNewBlock(cfg, r, acc.hash);
    var (t, v) := TeePrepare(cfg, r.t, r.id, block, acc, ProofOf(cfg, nvs));
    if v.None? {
      RefinesLocal(cfg, r, r1);
    } else {
      ProposeRefines(cfg, r, r1.transactions, nvs, acc, block, t, v.value);
    }
  }

  /** The replica right after its own proposal was accepted by its trusted component. */
  function Proposed(cfg: Config, r: Replica, txs: seq<Transaction>, p: Proposal, t: Trusted, vote: Vote): Replica {
    r.(transactions := txs, t := t, signed := r.signed + [vote.data],
       processedNewViews := r.processedNewViews + {r.view}, blocks := r.blocks[r.view := p.block],
       issued := r.issued + {LdrMsg(p)} + {VoteMsg(Prepare, vote)})
  }

  /** What processQC does when the trusted component accepts. */
  lemma ProcessQCAccepted(cfg: Config, r: Replica, nvs: seq<Vote>, required: nat)
    returns (txs: seq<Transaction>, p: Proposal, t: Trusted, vote: Vote)
    requires cfg.maxSigs > 0 && r.view !in r.processedNewViews
    requires var acc := NewViewsToAccum(cfg, r.id, nvs, required);
      TeePrepare(cfg, r.t, r.id, CreateNewBlock(cfg, r, acc.hash).1, acc, ProofOf(cfg, nvs)).1.Some?
    ensures p.acc == NewViewsToAccum(cfg, r.id, nvs, required) && p.proof == ProofOf(cfg, nvs)
    ensures p.block == CreateNewBlock(cfg, r, p.acc.hash).1 && txs == CreateNewBlock(cfg, r, p.acc.hash).0.transactions
    ensures TeePrepare(cfg, r.t, r.id, p.block, p.acc, p.proof) == (t, Some(vote))
    ensures (t, vote) == AcceptProposal(cfg, r.t, r.id, BlockHash(p.block), p.acc) && p.sign == vote.signs[0]
    ensures ProcessQC(cfg, r, nvs, required)
      == LogVote(Proposed(cfg, r, txs, p, t, vote), Prepare, cfg.IsTEE(r.id), vote)
  {
    var acc := NewViewsToAccum(cfg, r.id, nvs, required);
    var (r1, block) := CreateNewBlock(cfg, r, acc.hash);
    assert r1 == r.(transactions := r1.transactions);
    hide NewViewsToAccum, ProofOf, CreateNewBlock, LogVote;
    AcceptedProposal(cfg, r.t, r.id, block, acc, ProofOf(cfg, nvs));
    hide TeePrepare;
    txs := r1.transactions;
    var res := TeePrepare(cfg, r.t, r.id, block, acc, ProofOf(cfg, nvs));
    t, vote := res.0, res.1.value;
    p := Proposal(acc, block, ProofOf(cfg, nvs), vote.signs[0]);
  }

  lemma ProposeRefines(cfg: Config, r: Replica, txs: seq<Transaction>, nvs: seq<Vote>, acc: Accum, block: Block,
                       t: Trusted, vote: Vote)
    requires cfg.Valid() && Inv(cfg, r) && nvs != [] && r.view !in r.processedNewViews
    requires NvOk(cfg, r.id, Known(r), r.view, nvs) && acc.sign.signer == r.id && WellMade(cfg, block, acc)
    requires TeePrepare(cfg, r.t, r.id, block, acc, ProofOf(cfg, nvs)) == (t, Some(vote))
    ensures vote.signs != []
    ensures var p := Proposal(acc, block, ProofOf(cfg, nvs), vote.signs[0]);
      Refines(cfg, r, LogVote(Proposed(cfg, r, txs, p, t, vote), Prepare, cfg.IsTEE(r.id), vote))
  {
    ProposeEnabled(cfg, r, nvs, acc, block, t, vote);
    var proof := ProofOf(cfg, nvs);
    var p := Proposal(acc, block, proof, vote.signs[0]);
    assert acc.view == r.view;
    hide TeePrepare, ProofOf, Enabled, NvOk, WellMade, Inv, Refines, Apply, Store, Lockstep;
    var r5 := LogVote(Proposed(cfg, r, txs, p, t, vote), Prepare, cfg.IsTEE(r.id), vote);
    ProposeApplied(cfg, r, txs, p, t, vote);
    ProposedInv(cfg, r, txs, p, t, vote);
    assert Abs(r5) == Abs(Proposed(cfg, r, txs, p, t, vote));
    RefinesAct(cfg, r, Propose(acc, block, proof), r5);
  }

  lemma ProposedInv(cfg: Config, r: Replica, txs: seq<Transaction>, p: Proposal, t: Trusted, vote: Vote)
    requires Inv(cfg, r) && Lockstep(t, r.view) && vote.signs == [Sign(true, r.id, RoundText(vote.data))]
    requires p.acc.view == r.view
    ensures Inv(cfg, LogVote(Proposed(cfg, r, txs, p, t, vote), Prepare, cfg.IsTEE(r.id), vote))
  {
    hide LogOk, FutureOk;
    var r4 := Proposed(cfg, r, txs, p, t, vote);
    LogGrows(cfg, r.id, Known(r), Known(r4), r.log);
    FutureGrows(cfg, Known(r), Known(r4), r.future);
    StoreOk(cfg, r.id, Known(r4), r4.log, Slot(Prepare, cfg.IsTEE(r.id), vote.data.propv), vote);
    hide Store;
  }

  lemma ProposeApplied(cfg: Config, r: Replica, txs: seq<Transaction>, p: Proposal, t: Trusted, vote: Vote)
    requires TeePrepare(cfg, r.t, r.id, p.block, p.acc, p.proof) == (t, Some(vote)) && vote.signs == [p.sign]
    ensures Apply(cfg, Abs(r), Propose(p.acc, p.block, p.proof)) == Abs(Proposed(cfg, r, txs, p, t, vote))
  {
    hide TeePrepare;
  }

  lemma ProposeEnabled(cfg: Config, r: Replica, nvs: seq<Vote>, acc: Accum, block: Block, t: Trusted, vote: Vote)
    requires cfg.Valid() && Inv(cfg, r) && nvs != [] && r.view !in r.processedNewViews
    requires NvOk(cfg, r.id, Known(r), r.view, nvs) && acc.sign.signer == r.id && WellMade(cfg, block, acc)
    requires TeePrepare(cfg, r.t, r.id, block, acc, ProofOf(cfg, nvs)) == (t, Some(vote))
    ensures Enabled(cfg, Abs(r), Propose(acc, block, ProofOf(cfg, nvs)))
    ensures vote.signs == [Sign(true, r.id, RoundText(vote.data))]
    ensures acc.view == r.view == vote.data.propv && Lockstep(t, r.view)
  {
    var proof := ProofOf(cfg, nvs);
    AcceptedProposal(cfg, r.t, r.id, block, acc, proof);
    hide TeePrepare, LogOk, FutureOk;
    assert proof[0] == ToEntry(nvs[0]) && EntryInLog(cfg, r.id, Known(r), Slot(NewView, true, r.view), nvs[0]);
    assert EntryOk(cfg, r.t.view, proof[0]);
    ProofKnown(cfg, r.id, Known(r), r.view, nvs);
  }

  /** The accumulator is always signed by its maker. */
  lemma AccumSigner(cfg: Config, id: PID, nvs: seq<Vote>, required: nat)
    requires cfg.maxSigs > 0 && id in cfg.nodes
    ensures var acc := NewViewsToAccum(cfg, id, nvs, required);
      acc.isSet && acc.sign.signer == id && SigOk(cfg, acc.sign, acc.Data())
  {
  }

  lemma ProofKnown(cfg: Config, id: PID, known: set<Msg>, view: View, nvs: seq<Vote>)
    requires NvOk(cfg, id, known, view, nvs)
    ensures forall e :: e in ProofOf(cfg, nvs) ==> EntryMsg(e) in known
  {
    forall e | e in ProofOf(cfg, nvs) ensures EntryMsg(e) in known {
      var i :| 0 <= i < |ProofOf(cfg, nvs)| && ProofOf(cfg, nvs)[i] == e;
      assert EntryInLog(cfg, id, known, Slot(NewView, true, view), nvs[i]);
      assert nvs[i] == Vote(e.rdata, [e.sign]);
    }
  }

  lemma PrepareCombRefines(cfg: Config, r: Replica)
    requires cfg.Valid() && Inv(cfg, r)
    ensures Refines(cfg, r, PrepareComb(cfg, r))
  {
    hide ProcessQC;
    QuorumSizes(cfg);
    var t, o := Slot(NewView, true, r.view), Slot(NewView, false, r.view);
    var tee := GetMsgs(r.log, t, cfg.TQSize());
    var non := GetMsgs(r.log, o, cfg.QSize());
    assert forall m :: m in tee ==> EntryInLog(cfg, r.id, Known(r), t, m);
    assert forall m :: m in non ==> EntryInLog(cfg, r.id, Known(r), o, m);
    if cfg.FastQC() && |tee| >= cfg.TQSize() {
      ProcessQCRefines(cfg, r, tee, cfg.TQSize());
    } else {
      var some := MixIn([], tee, cfg.QSize());
      var mixed := MixIn(some, non, cfg.QSize());
      if |mixed| == cfg.QSize() {
        forall m | m in mixed ensures EntryInLog(cfg, r.id, Known(r), t, m) {
          MixElements(some, non, cfg.QSize(), m);
          if m in some { MixElements([], tee, cfg.QSize(), m); }
        }
        ProcessQCRefines(cfg, r, mixed, cfg.QSize());
      } else {
        RefinesLocal(cfg, r, r);
      }
    }
  }

  lemma LogVoteKeeps(cfg: Config, r: Replica, tag: Phase, tee: bool, m: Vote)
    requires Inv(cfg, r) && EntryInLog(cfg, r.id, Known(r), Slot(tag, tee, m.data.propv), m)
    requires tee == cfg.IsTEE(m.signs[0].signer)
    ensures Refines(cfg, r, LogVote(r, tag, tee, m))
  {
    StoreOk(cfg, r.id, Known(r), r.log, Slot(tag, tee, m.data.propv), m);
    RefinesLocal(cfg, r, LogVote(r, tag, tee, m));
  }

  lemma HandleNewViewRefines(cfg: Config, r: Replica, m: Vote)
    requires cfg.Valid() && Inv(cfg, r) && VoteMsg(NewView, m) in Known(r)
    ensures Refines(cfg, r, HandleNewView(cfg, r, m))
  {
    hide PrepareComb, LogVote, NewViewThreshold;
    var v := m.data.propv;
    if v >= r.view && Leads(cfg, r, v) && ValidVote(cfg, NewView, m) {
      var tee := cfg.IsTEE(m.signs[0].signer);
      LogVoteKeeps(cfg, r, NewView, tee, m);
      var r1 := LogVote(r, NewView, tee, m);
      if r1.phase == NewView && NewViewThreshold(cfg, r1.log, v) {
        PrepareCombRefines(cfg, r1);
        var r2 := PrepareComb(cfg, r1);
        RefinesTrans(cfg, r, r1, r2);
        RefinesLocal(cfg, r2, r2.(phase := Prepare));
        RefinesTrans(cfg, r, r2, r2.(phase := Prepare));
      }
    } else {
      RefinesLocal(cfg, r, r);
    }
  }

  // ---- voting for proposals and storing certificates

  lemma RespondToLdrPrepareRefines(cfg: Config, r: Replica, p: Proposal)
    requires cfg.Valid() && Inv(cfg, r) && !Leads(cfg, r, r.view)
    requires LdrMsg(p) in Known(r) && VerifyLdrPrepare(cfg, p) && p.acc.view == r.view
    ensures Refines(cfg, r, RespondToLdrPrepare(cfg, r, p.block, p.acc, p.proof))
  {
    var r' := RespondToLdrPrepare(cfg, r, p.block, p.acc, p.proof);
    var (t, v) := TeePrepare(cfg, r.t, r.id, p.block, p.acc, p.proof);
    if v.None? {
      RefinesLocal(cfg, r, r');
    } else {
      AcceptedProposal(cfg, r.t, r.id, p.block, p.acc, p.proof);
      hide TeePrepare, VerifyLdrPrepare;
      LogGrows(cfg, r.id, Known(r), Known(r'), r.log);
      FutureGrows(cfg, Known(r), Known(r'), r.future);
      RefinesAct(cfg, r, VoteFor(p), r');
    }
  }

  lemma HandleLdrPrepareRefines(cfg: Config, r: Replica, p: Proposal)
    requires cfg.Valid() && Inv(cfg, r) && LdrMsg(p) in Known(r)
    ensures Refines(cfg, r, HandleLdrPrepare(cfg, r, p))
  {
    hide RespondToLdrPrepare, StoreProposal, VerifyLdrPrepare;
    RefinesLocal(cfg, r, r);
    if VerifyLdrPrepare(cfg, p) {
      StoreProposalOk(cfg, r.id, Known(r), r.log, p);
      if p.acc.view == r.view && !Leads(cfg, r, r.view) { RespondToLdrPrepareRefines(cfg, r, p); }
      RefinesLocal(cfg, r, r.(log := StoreProposal(r.log, p)));
    }
  }

  /** The message type of the vote that follows a certificate. */
  function NextTag(ph: Phase): Phase { if ph == Prepare then PreCommit else Commit }

  lemma StoreRefines(cfg: Config, r: Replica, cert: Vote)
    requires cfg.Valid() && Inv(cfg, r) && CertMsg(cert) in Known(r) && cert.data.propv == r.view
    requires cert.data.phase == PreCommit || (cert.data.phase == Prepare && !TeeLed(cfg, r.view))
    ensures Refines(cfg, r, StoreAndSend(cfg, r, cert, NextTag(cert.data.phase)))
    ensures Refines(cfg, r, StoreAndKeep(cfg, r, cert, NextTag(cert.data.phase)))
  {
    var tag := NextTag(cert.data.phase);
    var r1 := StoreAndSend(cfg, r, cert, tag);
    var (t, v) := TeeStore(cfg, r.t, r.id, cert);
    if v.None? {
      RefinesLocal(cfg, r, r);
    } else {
      LogGrows(cfg, r.id, Known(r), Known(r1), r.log);
      FutureGrows(cfg, Known(r), Known(r1), r.future);
      RefinesAct(cfg, r, StoreQC(cert), r1);
      LogVoteKeeps(cfg, r1, tag, cfg.IsTEE(r.id), v.value);
      RefinesTrans(cfg, r, r1, LogVote(r1, tag, cfg.IsTEE(r.id), v.value));
    }
  }

  // ---- executing, entering a view, catching up

  lemma ExecutedInv(cfg: Config, r: Replica, data: RData)
    requires Inv(cfg, r) && data.propv <= r.view && data.propv !in r.processedCommit
    ensures Inv(cfg, r.(processedCommit := r.processedCommit + {data.propv}, executed := r.executed + [data]))
  {
    OnceMore(r.processedCommit, r.executed, data);
    hide LogOk, FutureOk, Once;
  }

  lemma ExecuteRefines(cfg: Config, r: Replica, cert: Vote)
    requires cfg.Valid() && Inv(cfg, r) && CertMsg(cert) in Known(r) && cert.data.propv <= r.view
    requires ValidCert(cfg, cert.data, cert.signs) && Final(cfg, cert.data)
    ensures Refines(cfg, r, ExecuteComb(cfg, r, cert.data))
    decreases |r.future|, 3
  {
    hide ValidCert, StartNewView;
    var data := cert.data;
    var r1 := r.(processedCommit := r.processedCommit + {data.propv}, executed := r.executed + [data]);
    RefinesLocal(cfg, r, r);
    if data.propv !in r.processedCommit {
      ExecutedInv(cfg, r, data);
      hide Inv;
      RefinesAct(cfg, r, Act.Execute(cert), r1);
      StartNewViewRefines(cfg, r1);
      RefinesTrans(cfg, r, r1, StartNewView(cfg, r1));
    }
  }

  lemma EnterRefines(cfg: Config, r: Replica)
    requires cfg.Valid() && Inv(cfg, r)
    ensures var (t, ds, v) := SignPast(r.t, r.id, r.view);
      var r3 := Issue(r.(t := t, signed := r.signed + ds, view := r.view + 1), VoteMsg(NewView, v));
      && Refines(cfg, r, r3) && VoteMsg(NewView, v) in Known(r3)
      && v.data.propv == r3.view && v.data.phase == NewView && |v.signs| == 1
  {
    SignPastLaw(r.t, r.id, r.view);
    hide SignPast;
    var (t, ds, v) := SignPast(r.t, r.id, r.view);
    var r3 := Issue(r.(t := t, signed := r.signed + ds, view := r.view + 1), VoteMsg(NewView, v));
    LogGrows(cfg, r.id, Known(r), Known(r3), r.log);
    FutureGrows(cfg, Known(r), Known(r3), r.future);
    RefinesAct(cfg, r, EnterView, r3);
  }

  lemma StartNewViewRefines(cfg: Config, r: Replica)
    requires cfg.Valid() && Inv(cfg, r)
    ensures Refines(cfg, r, StartNewView(cfg, r))
    decreases |r.future|, 2
  {
    hide SignPast, HandleEarlier, HandleNewView;
    EnterRefines(cfg, r);
    var (t, ds, v) := SignPast(r.t, r.id, r.view);
    var r3 := Issue(r.(t := t, signed := r.signed + ds, view := r.view + 1), VoteMsg(NewView, v));
    HandleEarlierRefines(cfg, r3);
    var r4 := HandleEarlier(cfg, r3);
    RefinesTrans(cfg, r, r3, r4);
    if Leads(cfg, r3, r3.view) {
      HandleEarlierKnown(cfg, r3);
      HandleNewViewRefines(cfg, r4, v);
      RefinesTrans(cfg, r, r4, HandleNewView(cfg, r4, v));
    }
  }

  /** A leader catching up only proposes: it keeps what it knows. */
  lemma HandleEarlierKnown(cfg: Config, r: Replica)
    requires cfg.Valid() && Inv(cfg, r) && Leads(cfg, r, r.view)
    ensures Known(r) <= Known(HandleEarlier(cfg, r))
  {
    hide TeePrepare, NewViewsToAccum, MixIn;
  }

  lemma ReplayProposalRefines(cfg: Config, r: Replica)
    requires cfg.Valid() && Inv(cfg, r) && !Leads(cfg, r, r.view)
    ensures Refines(cfg, r, ReplayProposal(cfg, r))
  {
    hide RespondToLdrPrepare, VerifyLdrPrepare;
    RefinesLocal(cfg, r, r);
    var p := FirstProposal(r.log, r.view);
    if p.Some? {
      assert p.value in r.log.proposals[r.view];
      RespondToLdrPrepareRefines(cfg, r, p.value);
    }
  }

  lemma HandleEarlierRefines(cfg: Config, r: Replica)
    requires cfg.Valid() && Inv(cfg, r)
    ensures Refines(cfg, r, HandleEarlier(cfg, r))
    decreases |r.future|, 1
  {
    hide PrepareComb, ReplayProposal, ReplayCertificates, NewViewThreshold;
    RefinesLocal(cfg, r, r);
    if Leads(cfg, r, r.view) {
      PrepareCombRefines(cfg, r);
    } else {
      ReplayProposalRefines(cfg, r);
      var r1 := ReplayProposal(cfg, r);
      if r1.view in r1.blocks {
        var hash := BlockHash(r1.blocks[r1.view]);
        ReplayCertificatesRefines(cfg, r1, hash);
        RefinesTrans(cfg, r, r1, ReplayCertificates(cfg, r1, hash));
      }
    }
  }

  lemma EraseOk(cfg: Config, known: set<Msg>, future: map<Future, seq<Vote>>, k: Future)
    requires FutureOk(cfg, known, future) && k in future
    ensures FutureOk(cfg, known, Erase(future, k))
  {
    forall x, m | x in Erase(future, k) && m in Erase(future, k)[x] ensures CachedOk(cfg, known, x, m) {
      assert m in future[x];
    }
  }

  /** Taking a cached certificate out of the cache. */
  lemma EraseRefines(cfg: Config, r: Replica, k: Future)
    requires Inv(cfg, r) && Cached(r, k)
    ensures Refines(cfg, r, r.(future := Erase(r.future, k)))
    ensures VoteMsg(k.tag, r.future[k][0]) in Known(r) && ValidQC(cfg, k.tag, r.future[k][0])
    ensures r.future[k][0].data.propv == k.view
  {
    var m := r.future[k][0];
    assert CachedOk(cfg, Known(r), k, m);
    EraseOk(cfg, Known(r), r.future, k);
    hide FutureOk, LogOk;
    RefinesLocal(cfg, r, r.(future := Erase(r.future, k)));
  }

  lemma ReplayCertificatesRefines(cfg: Config, r: Replica, hash: Hash)
    requires cfg.Valid() && Inv(cfg, r)
    ensures Refines(cfg, r, ReplayCertificates(cfg, r, hash))
    decreases |r.future|, 0
  {
    hide ValidQC, RespondToPrepare, ReplayPreCommit;
    RefinesLocal(cfg, r, r);
    var k := Future(Prepare, r.view);
    if Cached(r, k) && EqHashes(hash, r.future[k][0].data.proph) {
      var m := r.future[k][0];
      EraseRefines(cfg, r, k);
      var r1 := r.(future := Erase(r.future, k));
      RespondToPrepareRefines(cfg, r1, m);
      var r2 := RespondToPrepare(cfg, r1, m);
      RefinesTrans(cfg, r, r1, r2);
      if r2.view == r.view {
        ReplayPreCommitRefines(cfg, r2, hash);
        RefinesTrans(cfg, r, r2, ReplayPreCommit(cfg, r2, hash));
      }
    }
  }

  lemma ReplayPreCommitRefines(cfg: Config, r: Replica, hash: Hash)
    requires cfg.Valid() && Inv(cfg, r)
    ensures Refines(cfg, r, ReplayPreCommit(cfg, r, hash))
    decreases |r.future|, 5
  {
    hide ValidCert, StoreAndSend, ReplayCommit;
    RefinesLocal(cfg, r, r);
    var k := Future(PreCommit, r.view);
    if Cached(r, k) && EqHashes(hash, r.future[k][0].data.proph) {
      var m := r.future[k][0];
      EraseRefines(cfg, r, k);
      var r1 := r.(future := Erase(r.future, k));
      StoreRefines(cfg, r1, m);
      var r2 := StoreAndSend(cfg, r1, m, Commit);
      RefinesTrans(cfg, r, r1, r2);
      ReplayCommitRefines(cfg, r2, hash);
      RefinesTrans(cfg, r, r2, ReplayCommit(cfg, r2, hash));
    }
  }

  lemma ReplayCommitRefines(cfg: Config, r: Replica, hash: Hash)
    requires cfg.Valid() && Inv(cfg, r)
    ensures Refines(cfg, r, ReplayCommit(cfg, r, hash))
    decreases |r.future|, 5
  {
    hide ValidQC, RespondToCommit;
    RefinesLocal(cfg, r, r);
    var k := Future(Commit, r.view);
    if Cached(r, k) && EqHashes(hash, r.future[k][0].data.proph) {
      var m := r.future[k][0];
      EraseRefines(cfg, r, k);
      var r1 := r.(future := Erase(r.future, k));
      RespondToCommitRefines(cfg, r1, m);
      RefinesTrans(cfg, r, r1, RespondToCommit(cfg, r1, m));
    }
  }

  lemma RespondToPrepareRefines(cfg: Config, r: Replica, m: Vote)
    requires cfg.Valid() && Inv(cfg, r) && VoteMsg(Prepare, m) in Known(r) && m.data.propv == r.view
    ensures Refines(cfg, r, RespondToPrepare(cfg, r, m))
    decreases |r.future|, 4
  {
    hide ValidCert, ExecuteComb, StoreAndSend;
    RefinesLocal(cfg, r, r);
    if ValidQC(cfg, Prepare, m) {
      if TeeLed(cfg, r.view) { ExecuteRefines(cfg, r, m); } else { StoreRefines(cfg, r, m); }
    }
  }

  lemma RespondToCommitRefines(cfg: Config, r: Replica, m: Vote)
    requires cfg.Valid() && Inv(cfg, r) && VoteMsg(Commit, m) in Known(r) && m.data.propv <= r.view
    ensures Refines(cfg, r, RespondToCommit(cfg, r, m))
    decreases |r.future|, 4
  {
    hide ValidCert, ExecuteComb;
    RefinesLocal(cfg, r, r);
    if ValidQC(cfg, Commit, m) { ExecuteRefines(cfg, r, m); }
  }

  // ---- votes and certificates from the network

  lemma IssueCertRefines(cfg: Config, r: Replica, tag: Phase, data: RData, fast: bool)
    requires cfg.Valid() && Inv(cfg, r) && tag != NewView
    requires ValidQC(cfg, tag, LogCert(cfg, r, tag, data, fast))
    ensures Refines(cfg, r, Issue(r, VoteMsg(tag, LogCert(cfg, r, tag, data, fast))))
  {
    LogCertBacked(cfg, r, tag, data, fast);
    hide ValidCert;
    var cert := LogCert(cfg, r, tag, data, fast);
    var r1 := Issue(r, VoteMsg(tag, cert));
    LogGrows(cfg, r.id, Known(r), Known(r1), r.log);
    FutureGrows(cfg, Known(r), Known(r1), r.future);
    RefinesAct(cfg, r, IssueQC(cert), r1);
  }

  lemma DecideRefines(cfg: Config, r: Replica, data: RData, fast: bool)
    requires cfg.Valid() && Inv(cfg, r) && data.propv == r.view
    ensures Refines(cfg, r, DecideComb(cfg, r, data, fast))
  {
    hide ValidCert, LogCert, ExecuteComb;
    RefinesLocal(cfg, r, r);
    var tag := if TeeLed(cfg, r.view) then Prepare else Commit;
    var cert := LogCert(cfg, r, tag, data, fast);
    if ValidQC(cfg, tag, cert) {
      LogCertData(cfg, r, tag, data, fast);
      IssueCertRefines(cfg, r, tag, data, fast);
      var r1 := Issue(r, VoteMsg(tag, cert));
      ExecuteRefines(cfg, r1, cert);
      RefinesTrans(cfg, r, r1, ExecuteComb(cfg, r1, data));
    }
  }

  lemma LogCertData(cfg: Config, r: Replica, tag: Phase, data: RData, fast: bool)
    ensures LogCert(cfg, r, tag, data, fast).data == data
  {
  }

  lemma AdvanceRefines(cfg: Config, r: Replica, data: RData, fast: bool, tag: Phase)
    requires cfg.Valid() && Inv(cfg, r) && data.propv == r.view
    requires tag == PreCommit || (tag == Prepare && !TeeLed(cfg, r.view))
    ensures Refines(cfg, r, AdvanceComb(cfg, r, data, fast, tag, NextTag(tag)))
  {
    hide ValidCert, LogCert, StoreAndKeep;
    RefinesLocal(cfg, r, r);
    var cert := LogCert(cfg, r, tag, data, fast);
    if ValidQC(cfg, tag, cert) {
      LogCertData(cfg, r, tag, data, fast);
      IssueCertRefines(cfg, r, tag, data, fast);
      var r1 := Issue(r, VoteMsg(tag, cert));
      StoreRefines(cfg, r1, cert);
      RefinesTrans(cfg, r, r1, StoreAndKeep(cfg, r1, cert, NextTag(tag)));
    }
  }

  /** What StoreFuture puts in the cache under key k. */
  function Cache(future: map<Future, seq<Vote>>, k: Future, m: Vote): map<Future, seq<Vote>> {
    future[k := SetInsert(if k in future then future[k] else [], m)]
  }

  lemma CacheOk(cfg: Config, known: set<Msg>, future: map<Future, seq<Vote>>, tag: Phase, m: Vote)
    requires FutureOk(cfg, known, future) && VoteMsg(tag, m) in known && ValidQC(cfg, tag, m)
    ensures FutureOk(cfg, known, Cache(future, Future(tag, m.data.propv), m))
  {
    var k := Future(tag, m.data.propv);
    var s := if k in future then future[k] else [];
    forall x, y | x in Cache(future, k, m) && y in Cache(future, k, m)[x] ensures CachedOk(cfg, known, x, y) {
      if x == k { InsertElements(s, m, y); }
      assert (x == k && y == m) || y in future[x];
    }
  }

  lemma StoreFutureRefines(cfg: Config, r: Replica, tag: Phase, m: Vote)
    requires cfg.Valid() && Inv(cfg, r) && VoteMsg(tag, m) in Known(r) && tag != NewView
    ensures Refines(cfg, r, StoreFuture(cfg, r, tag, m))
  {
    RefinesLocal(cfg, r, r);
    if ValidQC(cfg, tag, m) {
      CacheOk(cfg, Known(r), r.future, tag, m);
      hide ValidQC, FutureOk, LogOk;
      RefinesLocal(cfg, r, r.(future := Cache(r.future, Future(tag, m.data.propv), m)));
    } else if ValidVote(cfg, tag, m) {
      LogVoteKeeps(cfg, r, tag, cfg.IsTEE(m.signs[0].signer), m);
    }
  }

  lemma CountVoteRefines(cfg: Config, r: Replica, tag: Phase, m: Vote)
    requires cfg.Valid() && Inv(cfg, r) && VoteMsg(tag, m) in Known(r) && tag != NewView && ValidVote(cfg, tag, m)
    ensures Refines(cfg, r, r.(log := CountVote(cfg, r.log, tag, m).0))
  {
    LogVoteKeeps(cfg, r, tag, cfg.IsTEE(m.signs[0].signer), m);
  }

  lemma PhaseRefines(cfg: Config, a: Replica, r: Replica, phase: Phase)
    requires Refines(cfg, a, r)
    ensures Refines(cfg, a, r.(phase := phase))
  {
    RefinesLocal(cfg, r, r.(phase := phase));
    RefinesTrans(cfg, a, r, r.(phase := phase));
  }

  lemma HandlePrepareRefines(cfg: Config, r: Replica, m: Vote)
    requires cfg.Valid() && Inv(cfg, r) && VoteMsg(Prepare, m) in Known(r)
    ensures Refines(cfg, r, HandlePrepare(cfg, r, m))
  {
    hide ValidCert, ValidSigs, StoreFuture, RespondToPrepare, DecideComb, AdvanceComb, CountVote;
    RefinesLocal(cfg, r, r);
    var v := m.data.propv;
    if v > r.view {
      StoreFutureRefines(cfg, r, Prepare, m);
    } else if v == r.view && !Leads(cfg, r, v) {
      RespondToPrepareRefines(cfg, r, m);
    } else if v == r.view && ValidVote(cfg, Prepare, m) {
      CountVoteRefines(cfg, r, Prepare, m);
      var (log, tee, non) := CountVote(cfg, r.log, Prepare, m);
      var r1 := r.(log := log);
      var fast := cfg.FastQC() && tee >= cfg.TQSize();
      PhaseRefines(cfg, r, r1, NewView);
      PhaseRefines(cfg, r, r1, PreCommit);
      if TeeLed(cfg, r1.view) {
        var r2 := r1.(phase := NewView);
        DecideRefines(cfg, r2, m.data, fast);
        RefinesTrans(cfg, r, r2, DecideComb(cfg, r2, m.data, fast));
      } else {
        var r2 := r1.(phase := PreCommit);
        AdvanceRefines(cfg, r2, m.data, fast, Prepare);
        RefinesTrans(cfg, r, r2, AdvanceComb(cfg, r2, m.data, fast, Prepare, PreCommit));
      }
    }
  }

  lemma HandlePreCommitRefines(cfg: Config, r: Replica, m: Vote)
    requires cfg.Valid() && Inv(cfg, r) && VoteMsg(PreCommit, m) in Known(r)
    ensures Refines(cfg, r, HandlePreCommit(cfg, r, m))
  {
    hide ValidCert, ValidSigs, StoreFuture, StoreAndSend, AdvanceComb, CountVote;
    RefinesLocal(cfg, r, r);
    var v := m.data.propv;
    if v > r.view {
      StoreFutureRefines(cfg, r, PreCommit, m);
    } else if v == r.view && !Leads(cfg, r, v) {
      if ValidQC(cfg, PreCommit, m) { StoreRefines(cfg, r, m); }
    } else if v == r.view && ValidVote(cfg, PreCommit, m) {
      CountVoteRefines(cfg, r, PreCommit, m);
      var (log, tee, non) := CountVote(cfg, r.log, PreCommit, m);
      var r1 := r.(log := log);
      var fast := tee == cfg.TQSize();
      PhaseRefines(cfg, r, r1, Commit);
      var r2 := r1.(phase := Commit);
      AdvanceRefines(cfg, r2, m.data, fast, PreCommit);
      RefinesTrans(cfg, r, r2, AdvanceComb(cfg, r2, m.data, fast, PreCommit, Commit));
    }
  }

  lemma HandleCommitRefines(cfg: Config, r: Replica, m: Vote)
    requires cfg.Valid() && Inv(cfg, r) && VoteMsg(Commit, m) in Known(r)
    ensures Refines(cfg, r, HandleCommit(cfg, r, m))
  {
    hide ValidCert, ValidSigs, StoreFuture, RespondToCommit, DecideComb, CountVote;
    RefinesLocal(cfg, r, r);
    var v := m.data.propv;
    if v > r.view {
      StoreFutureRefines(cfg, r, Commit, m);
    } else if v == r.view && !Leads(cfg, r, v) {
      RespondToCommitRefines(cfg, r, m);
    } else if v == r.view && ValidVote(cfg, Commit, m) {
      CountVoteRefines(cfg, r, Commit, m);
      var (log, tee, non) := CountVote(cfg, r.log, Commit, m);
      var r1 := r.(log := log);
      var fast := tee == cfg.TQSize();
      PhaseRefines(cfg, r, r1, NewView);
      var r2 := r1.(phase := NewView);
      DecideRefines(cfg, r2, m.data, fast);
      RefinesTrans(cfg, r, r2, DecideComb(cfg, r2, m.data, fast));
    }
  }

  // ---- every event

  /** Receiving is the one thing a handler does that is not a protocol action. */
  function Received(r: Replica, e: Event): Replica {
    if e.Deliver? && r.started then r.(inbox := r.inbox + {e.msg}) else r
  }

  lemma GetStartedRefines(cfg: Config, r: Replica)
    requires cfg.Valid() && Fresh(r) && r.id in cfg.nodes
    ensures Refines(cfg, r, GetStarted(cfg, r))
  {
    hide HandleNewView;
    var (r1, v) := CallSign(r.(started := true));
    var r2 := Issue(r1, VoteMsg(NewView, v));
    RefinesAct(cfg, r, EnterView, r2);
    if Leads(cfg, r2, r2.view) {
      HandleNewViewRefines(cfg, r2, v);
      RefinesTrans(cfg, r, r2, HandleNewView(cfg, r2, v));
    }
  }

  lemma InboxGrows(cfg: Config, r: Replica, m: Msg)
    requires Inv(cfg, r)
    ensures Inv(cfg, r.(inbox := r.inbox + {m}))
  {
    var r0 := r.(inbox := r.inbox + {m});
    LogGrows(cfg, r.id, Known(r), Known(r0), r.log);
    FutureGrows(cfg, Known(r), Known(r0), r.future);
  }

  lemma HandleMsgRefines(cfg: Config, r: Replica, m: Msg)
    requires cfg.Valid() && Inv(cfg, r)
    ensures Refines(cfg, r.(inbox := r.inbox + {m}), HandleMsg(cfg, r, m))
  {
    hide HandleLdrPrepare, HandleNewView, HandlePrepare, HandlePreCommit, HandleCommit;
    InboxGrows(cfg, r, m);
    var r0 := r.(inbox := r.inbox + {m});
    match m
    case LdrMsg(p) => HandleLdrPrepareRefines(cfg, r0, p);
    case VoteMsg(NewView, v) => HandleNewViewRefines(cfg, r0, v);
    case VoteMsg(Prepare, v) => HandlePrepareRefines(cfg, r0, v);
    case VoteMsg(PreCommit, v) => HandlePreCommitRefines(cfg, r0, v);
    case VoteMsg(Commit, v) => HandleCommitRefines(cfg, r0, v);
  }

  /** A replica is fresh until it starts and keeps the invariant afterwards, and every event amounts to
      receiving its message and then a sequence of protocol actions: for any messages from any peers. */
  lemma StepRefines(cfg: Config, r: Replica, e: Event)
    requires cfg.Valid() && r.id in cfg.nodes && (Fresh(r) || Inv(cfg, r))
    ensures var r' := Step(cfg, r, e);
      && (Fresh(r') || Inv(cfg, r'))
      && Reaches(cfg, Abs(Received(r, e)), Abs(r'))
  {
    hide HandleMsg, StartNewView, GetStarted;
    ReachesSelf(cfg, Abs(r));
    match e
    case Submit(tx) =>
    case Start => if !r.started { GetStartedRefines(cfg, r); }
    case Deliver(m) => if r.started { HandleMsgRefines(cfg, r, m); }
    case Timeout => if r.started { StartNewViewRefines(cfg, r); }
  }
}
