/** The message log: per view and signer class one ordered set of votes, and the getters that build
    certificates from it.  One store and one getter stand for the source's copies per message type. */
module VoteLog {
  import opened Types
  import opened Quorums
  import opened Certificates
  import opened SignLists

  /** Which of the maps (message type, signer class) and which view. */
  datatype Slot = Slot(tag: Phase, tee: bool, view: View)

  datatype LogState = LogState(votes: map<Slot, seq<Vote>>, proposals: map<View, seq<Proposal>>)

  const EMPTY_LOG := LogState(map[], map[])

  /** Insertion in a std::set ordered by `SignsLess`. */
  function SetInsert(s: seq<Vote>, m: Vote): seq<Vote> {
    if s == [] then [m]
    else if SignsLess(m.signs, s[0].signs) then [m] + s
    else if SignsLess(s[0].signs, m.signs) then [s[0]] + SetInsert(s[1..], m)
    else s
  }

  function ProposalInsert(s: seq<Proposal>, p: Proposal): seq<Proposal> {
    if s == [] then [p]
    else if SignLess(p.sign, s[0].sign) then [p] + s
    else if SignLess(s[0].sign, p.sign) then [s[0]] + ProposalInsert(s[1..], p)
    else s
  }

  function AllSigners(msgs: seq<Vote>): set<PID> {
    if msgs == [] then {} else AllSigners(msgs[..|msgs| - 1]) + SignersOf(msgs[|msgs| - 1].signs)
  }

  /** msg*CombFrom: every one of `signers` has a message in `msgs` (and something was compared). */
  predicate From(msgs: seq<Vote>, signers: set<PID>) {
    AllSigners(msgs) != {} && signers <= AllSigners(msgs)
  }

  function Entries(log: LogState, slot: Slot): seq<Vote> {
    if slot in log.votes then log.votes[slot] else []
  }

  /** The slot's new content and the returned count, 0 when the sender is already there. */
  function Store(log: LogState, slot: Slot, m: Vote): (LogState, nat) {
    if slot in log.votes then
      var msgs := log.votes[slot];
      if From(msgs, SignersOf(m.signs)) then (log, 0)
      else
        var msgs' := SetInsert(msgs, m);
        (log.(votes := log.votes[slot := msgs']), |msgs'|)
    else (log.(votes := log.votes[slot := [m]]), 1)
  }

  predicate ProposalFrom(ps: seq<Proposal>, signer: PID) {
    exists i :: 0 <= i < |ps| && ps[i].sign.signer == signer
  }

  /** The new log and the returned count, 0 when the leader's proposal is already there. */
  function StoreProposalCount(log: LogState, p: Proposal): (LogState, nat) {
    var v := p.acc.view;
    if v in log.proposals then
      if ProposalFrom(log.proposals[v], p.sign.signer) then (log, 0)
      else
        var ps := ProposalInsert(log.proposals[v], p);
        (log.(proposals := log.proposals[v := ps]), |ps|)
    else (log.(proposals := log.proposals[v := [p]]), 1)
  }

  function StoreProposal(log: LogState, p: Proposal): LogState {
    StoreProposalCount(log, p).0
  }

  function FirstProposal(log: LogState, v: View): Option<Proposal> {
    if v in log.proposals && log.proposals[v] != [] then Some(log.proposals[v][0]) else None
  }

  function Concat(msgs: seq<Vote>): seq<Sign> {
    if msgs == [] then [] else Concat(msgs[..|msgs| - 1]) + msgs[|msgs| - 1].signs
  }

  /** getPrepareComb and its five copies: at most n signatures of a slot. */
  function GetSigns(log: LogState, slot: Slot, n: nat): (r: seq<Sign>)
    ensures |r| <= n
  {
    Take(Concat(Entries(log, slot)), n)
  }

  /** get*CombMerged: trusted signatures first, then the others, at most n in all. */
  function Merged(log: LogState, tag: Phase, v: View, n: nat): (r: seq<Sign>)
    ensures |r| <= n && GetSigns(log, Slot(tag, true, v), n) <= r
  {
    Take(GetSigns(log, Slot(tag, true, v), n) + GetSigns(log, Slot(tag, false, v), n), n)
  }

  function GetMsgs(log: LogState, slot: Slot, n: nat): seq<Vote> {
    Take(Entries(log, slot), n)
  }

  // ---- laws for single-signature votes routed by signer class

  predicate Single(cfg: Config, tee: bool, m: Vote) {
    |m.signs| == 1 && m.signs[0].signer in cfg.nodes && cfg.nodes[m.signs[0].signer] == tee
  }

  predicate DistinctSingles(msgs: seq<Vote>) {
    && (forall i :: 0 <= i < |msgs| ==> |msgs[i].signs| == 1)
    && (forall i, j :: 0 <= i < j < |msgs| ==> msgs[i].signs[0].signer != msgs[j].signs[0].signer)
  }

  predicate SlotOk(cfg: Config, slot: Slot, msgs: seq<Vote>) {
    && (forall i :: 0 <= i < |msgs| ==> Single(cfg, slot.tee, msgs[i]))
    && DistinctSingles(msgs)
  }

  lemma {:induction false} SinglesConcat(msgs: seq<Vote>)
    requires forall i :: 0 <= i < |msgs| ==> |msgs[i].signs| == 1
    ensures |Concat(msgs)| == |msgs|
    ensures forall i :: 0 <= i < |msgs| ==> Concat(msgs)[i] == msgs[i].signs[0]
    ensures AllSigners(msgs) == SignersOf(Concat(msgs))
  {
    if msgs != [] {
      var last := |msgs| - 1;
      SinglesConcat(msgs[..last]);
      assert Concat(msgs) == Concat(msgs[..last]) + [msgs[last].signs[0]];
      SignersSnoc(Concat(msgs[..last]), msgs[last].signs[0]);
      SignersSnoc([], msgs[last].signs[0]);
      assert [] + [msgs[last].signs[0]] == msgs[last].signs;
    }
  }

  /** Inserting a message of a new signer adds exactly that message. */
  lemma {:induction false} InsertNew(s: seq<Vote>, m: Vote)
    requires DistinctSingles(s) && |m.signs| == 1
    requires forall i :: 0 <= i < |s| ==> s[i].signs[0].signer != m.signs[0].signer
    ensures DistinctSingles(SetInsert(s, m))
    ensures multiset(SetInsert(s, m)) == multiset(s) + multiset{m}
    ensures |SetInsert(s, m)| == |s| + 1
  {
    if s != [] && !SignsLess(m.signs, s[0].signs) {
      assert SignsLess(s[0].signs, m.signs);
      InsertNew(s[1..], m);
      var r := SetInsert(s[1..], m);
      hide SetInsert, SignsLess;
      assert s == [s[0]] + s[1..];
      NewElements(s[1..], m, r);
      PrependSingle(s[0], r);
    } else {
      PrependSingle(m, s);
    }
  }

  lemma NewElements(s: seq<Vote>, m: Vote, r: seq<Vote>)
    requires multiset(r) == multiset(s) + multiset{m}
    ensures forall i :: 0 <= i < |r| ==> r[i] == m || r[i] in s
  {
    forall i | 0 <= i < |r| ensures r[i] == m || r[i] in s {
      assert r[i] in multiset(r);
    }
  }

  lemma PrependSingle(m: Vote, s: seq<Vote>)
    requires DistinctSingles(s) && |m.signs| == 1
    requires forall i :: 0 <= i < |s| ==> s[i].signs[0].signer != m.signs[0].signer
    ensures DistinctSingles([m] + s) && multiset([m] + s) == multiset(s) + multiset{m}
  {
    var r := [m] + s;
    assert r[0] == m && forall i :: 1 <= i < |r| ==> r[i] == s[i - 1];
  }

  lemma {:induction false} InsertElements(s: seq<Vote>, m: Vote, x: Vote)
    ensures x in SetInsert(s, m) ==> x == m || x in s
  {
    if s != [] && x in SetInsert(s, m) { InsertElements(s[1..], m, x); }
  }

  /** Each store keeps one message per signer: it returns 0 exactly when the signer is already there, and
      otherwise adds the vote and returns the number of distinct signers; other slots are untouched. */
  lemma StoreLaw(cfg: Config, log: LogState, slot: Slot, m: Vote)
    requires SlotOk(cfg, slot, Entries(log, slot)) && Single(cfg, slot.tee, m)
    ensures var (log1, n) := Store(log, slot, m);
      && SlotOk(cfg, slot, Entries(log1, slot))
      && (n == 0 <==> m.signs[0].signer in AllSigners(Entries(log, slot)))
      && (n == 0 ==> log1 == log)
      && (n > 0 ==> n == |Entries(log, slot)| + 1 == |AllSigners(Entries(log1, slot))|
                    && multiset(Entries(log1, slot)) == multiset(Entries(log, slot)) + multiset{m})
      && (forall s :: s != slot ==> Entries(log1, s) == Entries(log, s))
  {
    var msgs := Entries(log, slot);
    FromSingle(msgs, m);
    if m.signs[0].signer !in AllSigners(msgs) {
      InsertLaw(cfg, slot, msgs, m);
      hide SlotOk, AllSigners, SetInsert, From;
      assert Entries(Store(log, slot, m).0, slot) == SetInsert(msgs, m);
    }
  }

  lemma FromSingle(msgs: seq<Vote>, m: Vote)
    requires |m.signs| == 1
    ensures From(msgs, SignersOf(m.signs)) <==> m.signs[0].signer in AllSigners(msgs)
  {
    assert SignersOf(m.signs) == {m.signs[0].signer};
  }

  lemma InsertLaw(cfg: Config, slot: Slot, msgs: seq<Vote>, m: Vote)
    requires SlotOk(cfg, slot, msgs) && Single(cfg, slot.tee, m)
    requires m.signs[0].signer !in AllSigners(msgs)
    ensures var msgs' := SetInsert(msgs, m);
      && SlotOk(cfg, slot, msgs') && multiset(msgs') == multiset(msgs) + multiset{m}
      && |msgs'| == |msgs| + 1 == |AllSigners(msgs')|
  {
    SinglesConcat(msgs);
    forall i | 0 <= i < |msgs| ensures msgs[i].signs[0].signer != m.signs[0].signer {
      assert Concat(msgs)[i] in Concat(msgs);
    }
    InsertNew(msgs, m);
    NewElements(msgs, m, SetInsert(msgs, m));
    CountSigners(SetInsert(msgs, m));
  }

  lemma CountSigners(msgs: seq<Vote>)
    requires DistinctSingles(msgs)
    ensures |AllSigners(msgs)| == |msgs|
  {
    SinglesConcat(msgs);
    ConcatDistinct(msgs);
    DistinctSignersCount(Concat(msgs));
  }

  lemma ConcatDistinct(msgs: seq<Vote>)
    requires DistinctSingles(msgs)
    ensures Distinct(Concat(msgs))
  {
    SinglesConcat(msgs);
  }

  /** The merged getter returns min(n, total) pairwise distinct signatures, drawn from the two slots,
      and never more than the n the caller's array has room for. */
  lemma MergedLaw(cfg: Config, log: LogState, tag: Phase, v: View, n: nat)
    requires SlotOk(cfg, Slot(tag, true, v), Entries(log, Slot(tag, true, v)))
    requires SlotOk(cfg, Slot(tag, false, v), Entries(log, Slot(tag, false, v)))
    ensures var r := Merged(log, tag, v, n);
      var total := |Entries(log, Slot(tag, true, v))| + |Entries(log, Slot(tag, false, v))|;
      && |r| == (if total < n then total else n)
      && Distinct(r)
      && (forall s :: s in r ==>
           s in Concat(Entries(log, Slot(tag, true, v))) || s in Concat(Entries(log, Slot(tag, false, v))))
  {
    hide SlotOk, Concat, Entries;
    var t, o := Entries(log, Slot(tag, true, v)), Entries(log, Slot(tag, false, v));
    SlotSigners(cfg, Slot(tag, true, v), t);
    SlotSigners(cfg, Slot(tag, false, v), o);
    var a, b := Take(Concat(t), n), Take(Concat(o), n);
    forall i, j | 0 <= i < |a| && 0 <= j < |b| ensures a[i].signer != b[j].signer {
      assert a[i] == Concat(t)[i] && b[j] == Concat(o)[j];
    }
    DistinctApart(a, b);
  }

  lemma SlotSigners(cfg: Config, slot: Slot, msgs: seq<Vote>)
    requires SlotOk(cfg, slot, msgs)
    ensures |Concat(msgs)| == |msgs| && Distinct(Concat(msgs))
    ensures forall i :: 0 <= i < |msgs| ==> cfg.IsTEE(Concat(msgs)[i].signer) == slot.tee
  {
    SinglesConcat(msgs);
    ConcatDistinct(msgs);
    hide Concat;
    forall i | 0 <= i < |msgs| ensures cfg.IsTEE(Concat(msgs)[i].signer) == slot.tee {
      assert Single(cfg, slot.tee, msgs[i]);
    }
  }

  lemma DistinctApart(a: seq<Sign>, b: seq<Sign>)
    requires Distinct(a) && Distinct(b)
    requires forall i, j :: 0 <= i < |a| && 0 <= j < |b| ==> a[i].signer != b[j].signer
    ensures Distinct(a + b)
  {
  }

  /** All votes of a slot are valid and carry `data`. */
  predicate SameData(cfg: Config, data: RData, msgs: seq<Vote>) {
    forall i :: 0 <= i < |msgs| ==> msgs[i].data == data && ValidSigs(cfg, RoundText(data), msgs[i].signs)
  }

  /** A certificate that a leader builds at its threshold from votes for the same data passes the
      certificate test of every replica. */
  lemma CertificateAtThreshold(cfg: Config, log: LogState, data: RData)
    requires cfg.Valid()
    requires SlotOk(cfg, Slot(data.phase, true, data.propv), Entries(log, Slot(data.phase, true, data.propv)))
    requires SlotOk(cfg, Slot(data.phase, false, data.propv), Entries(log, Slot(data.phase, false, data.propv)))
    requires SameData(cfg, data, Entries(log, Slot(data.phase, true, data.propv)))
    requires SameData(cfg, data, Entries(log, Slot(data.phase, false, data.propv)))
    ensures |Entries(log, Slot(data.phase, true, data.propv))| >= cfg.TQSize() ==>
      ValidQC(cfg, data.phase, Vote(data, GetSigns(log, Slot(data.phase, true, data.propv), cfg.TQSize())))
    ensures |Entries(log, Slot(data.phase, true, data.propv))|
          + |Entries(log, Slot(data.phase, false, data.propv))| >= cfg.QSize()
      ==> ValidQC(cfg, data.phase, Vote(data, Merged(log, data.phase, data.propv, cfg.QSize())))
  {
    QuorumSizes(cfg);
    var t, o := Entries(log, Slot(data.phase, true, data.propv)), Entries(log, Slot(data.phase, false, data.propv));
    SlotSigns(cfg, data, true, t);
    SlotSigns(cfg, data, false, o);
    MergedLaw(cfg, log, data.phase, data.propv, cfg.QSize());
    hide SlotOk, SameData, Concat, Merged, SigOk;
    var fast := GetSigns(log, Slot(data.phase, true, data.propv), cfg.TQSize());
    var all := Merged(log, data.phase, data.propv, cfg.QSize());
    if |t| >= cfg.TQSize() { FormsQC(cfg, data, fast); }
    if |t| + |o| >= cfg.QSize() { FormsQC(cfg, data, all); }
  }

  /** The signatures of a slot whose votes are for one record. */
  lemma SlotSigns(cfg: Config, data: RData, tee: bool, msgs: seq<Vote>)
    requires SlotOk(cfg, Slot(data.phase, tee, data.propv), msgs) && SameData(cfg, data, msgs)
    ensures |Concat(msgs)| == |msgs| && Distinct(Concat(msgs))
    ensures forall s :: s in Concat(msgs) ==> SigOk(cfg, s, RoundText(data)) && cfg.IsTEE(s.signer) == tee
  {
    SinglesConcat(msgs);
    ConcatDistinct(msgs);
    forall s | s in Concat(msgs) ensures SigOk(cfg, s, RoundText(data)) && cfg.IsTEE(s.signer) == tee {
      var i :| 0 <= i < |Concat(msgs)| && Concat(msgs)[i] == s;
      assert msgs[i].signs[0] == s;
    }
  }

  lemma FormsQC(cfg: Config, data: RData, signs: seq<Sign>)
    requires cfg.Valid() && Distinct(signs) && forall s :: s in signs ==> SigOk(cfg, s, RoundText(data))
    requires |signs| == cfg.QSize() || (|signs| == cfg.TQSize() && forall s :: s in signs ==> cfg.IsTEE(s.signer))
    ensures ValidQC(cfg, data.phase, Vote(data, signs))
  {
    QuorumSizes(cfg);
    hide SigOk;
    assert forall i :: 0 <= i < |signs| ==> signs[i] in signs;
  }
}
