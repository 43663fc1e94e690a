/** The trusted component as a state machine over (view, phase, prepared block, locked block), and the
    laws it keeps over every sequence of calls.  `EnclaveComb` and `TrustedComb` implement it. */
module TrustedMachine {
  import opened Types
  import opened Certificates

  datatype Trusted = Trusted(view: View, phase: Phase, preph: Hash, prepv: View, lockh: Hash, lockv: View)

  /** View 0 is reserved for the genesis block. */
  const INITIAL := Trusted(1, NewView, NEW_HASH, 0, NEW_HASH, 0)

  /** The position of a round in signing order. */
  function Key(v: View, ph: Phase): nat { 4 * v + PhaseIndex(ph) }

  function RoundKey(d: RData): nat { Key(d.propv, d.phase) }

  function StateKey(t: Trusted): nat { Key(t.view, t.phase) }

  function Increment(t: Trusted): Trusted {
    match t.phase
    case NewView => t.(phase := Prepare)
    case Prepare => t.(phase := PreCommit)
    case PreCommit => t.(phase := Commit)
    case Commit => t.(phase := NewView, view := t.view + 1)
  }

  function SignRound(t: Trusted, id: PID, h1: Hash, h2: Hash, v2: View): (Trusted, Vote) {
    var data := RData(h1, t.view, h2, v2, t.phase);
    (Increment(t), Vote(data, [Sign(true, id, RoundText(data))]))
  }

  function TeeSign(t: Trusted, id: PID): (Trusted, Vote) {
    SignRound(t, id, NO_HASH, t.preph, t.prepv)
  }

  /** COMB_hashBlock. */
  function HashBlock(cfg: Config, b: Block): Hash {
    if !b.isSet || |b.txs| > cfg.maxTxs then NO_HASH else BlockHash(b)
  }

  // ---- new-view proofs

  function EntrySigns(nvs: seq<OneJust>): (r: seq<Sign>)
    ensures |r| == |nvs| && forall i :: 0 <= i < |nvs| ==> r[i] == nvs[i].sign
  {
    seq(|nvs|, i requires 0 <= i < |nvs| => nvs[i].sign)
  }

  predicate EntryOk(cfg: Config, view: View, e: OneJust) {
    && e.isSet
    && e.rdata.phase == NewView
    && e.rdata.propv == view
    && SigOk(cfg, e.sign, RoundText(e.rdata))
  }

  /** A full quorum of signed new-view claims for `view` from distinct replicas. */
  predicate ValidProof(cfg: Config, view: View, nvs: seq<OneJust>) {
    && 0 < |nvs| <= cfg.maxSigs
    && (forall i :: 0 <= i < |nvs| ==> EntryOk(cfg, view, nvs[i]))
    && Distinct(EntrySigns(nvs))
    && (|nvs| == cfg.QSize() || (|nvs| == cfg.TQSize() && AllTEE(cfg, EntrySigns(nvs))))
  }

  /** The running maximum of the claims: the last entry whose claimed view is not below the earlier ones. */
  function Highest(nvs: seq<OneJust>): (View, Hash) {
    if nvs == [] then (0, NEW_HASH) else
      var h := Highest(nvs[..|nvs| - 1]);
      var d := nvs[|nvs| - 1].rdata;
      if d.justv >= h.0 then (d.justv, d.justh) else h
  }

  /** The running maximum is the maximum claim, and the hash kept is that of the last entry attaining it. */
  lemma {:induction false} HighestIsMax(nvs: seq<OneJust>) returns (k: nat)
    requires nvs != []
    ensures forall i :: 0 <= i < |nvs| ==> nvs[i].rdata.justv <= Highest(nvs).0
    ensures k < |nvs| && Highest(nvs) == (nvs[k].rdata.justv, nvs[k].rdata.justh)
    ensures forall i :: k < i < |nvs| ==> nvs[i].rdata.justv < Highest(nvs).0
  {
    var last := |nvs| - 1;
    var init := nvs[..last];
    if init == [] {
      k := 0;
    } else {
      k := HighestIsMax(init);
      assert forall i :: 0 <= i < last ==> init[i] == nvs[i];
      if nvs[last].rdata.justv >= Highest(init).0 { k := last; }
    }
  }

  /** What the scans of a proof know after i entries. */
  ghost predicate Scanned(cfg: Config, view: View, nvs: seq<OneJust>, i: nat,
                          signers: set<PID>, allTEE: bool, highest: View, hash: Hash)
  {
    && i <= |nvs|
    && (forall k :: 0 <= k < i ==> EntryOk(cfg, view, nvs[k]))
    && Distinct(EntrySigns(nvs)[..i])
    && signers == SignersOf(EntrySigns(nvs)[..i])
    && (allTEE <==> AllTEE(cfg, EntrySigns(nvs)[..i]))
    && (highest, hash) == Highest(nvs[..i])
  }

  lemma ScanStep(cfg: Config, view: View, nvs: seq<OneJust>, i: nat,
                 signers: set<PID>, allTEE: bool, highest: View, hash: Hash)
    requires i < |nvs| && Scanned(cfg, view, nvs, i, signers, allTEE, highest, hash)
    ensures nvs[i].sign.signer in signers ==> !Distinct(EntrySigns(nvs))
    ensures EntryOk(cfg, view, nvs[i]) && nvs[i].sign.signer !in signers ==>
      Scanned(cfg, view, nvs, i + 1, signers + {nvs[i].sign.signer}, allTEE && cfg.nodes[nvs[i].sign.signer],
              if nvs[i].rdata.justv >= highest then nvs[i].rdata.justv else highest,
              if nvs[i].rdata.justv >= highest then nvs[i].rdata.justh else hash)
  {
    var signs := EntrySigns(nvs);
    ExtendSigners(signs, i);
    assert nvs[..i + 1][..i] == nvs[..i];
    AllTEEGrows(cfg, signs, i);
  }

  lemma AllTEEGrows(cfg: Config, signs: seq<Sign>, i: nat)
    requires i < |signs|
    ensures AllTEE(cfg, signs[..i + 1]) <==> AllTEE(cfg, signs[..i]) && cfg.IsTEE(signs[i].signer)
  {
    if AllTEE(cfg, signs[..i + 1]) {
      assert forall k :: 0 <= k < i ==> signs[..i][k] == signs[..i + 1][k];
      assert signs[..i + 1][i] == signs[i];
    }
  }

  lemma ScanDone(cfg: Config, view: View, nvs: seq<OneJust>,
                 signers: set<PID>, allTEE: bool, highest: View, hash: Hash)
    requires Scanned(cfg, view, nvs, |nvs|, signers, allTEE, highest, hash)
    ensures Distinct(EntrySigns(nvs)) && (allTEE <==> AllTEE(cfg, EntrySigns(nvs))) && (highest, hash) == Highest(nvs)
  {
    assert EntrySigns(nvs)[..|nvs|] == EntrySigns(nvs) && nvs[..|nvs|] == nvs;
  }

  predicate Summarises(acc: Accum, view: View, nvs: seq<OneJust>) {
    && acc.view == view
    && acc.size == |nvs|
    && acc.prepv == Highest(nvs).0
    && acc.hash.digest == Highest(nvs).1.digest
  }

  predicate SafeParent(t: Trusted, block: Block, acc: Accum) {
    && EqHashes(block.prev, acc.hash)
    && (EqHashes(block.prev, t.lockh) || acc.prepv > t.lockv)
  }

  // ---- the two implementations of TEEprepare, and TEEstore

  /** A proposal of a trusted leader counts as prepared as soon as it is voted for. */
  function AcceptProposal(cfg: Config, t: Trusted, id: PID, hash: Hash, acc: Accum): (Trusted, Vote) {
    var t1 := if cfg.IsTEE(acc.sign.signer) then t.(preph := hash, prepv := t.view) else t;
    SignRound(t1, id, hash, acc.hash, acc.prepv)
  }

  predicate EnclaveAccepts(cfg: Config, t: Trusted, block: Block, acc: Accum, nvs: seq<OneJust>) {
    && HashBlock(cfg, block).isSet
    && ValidProof(cfg, t.view, nvs) && Summarises(acc, t.view, nvs)
    && acc.isSet && SigOk(cfg, acc.sign, acc.Data())
    && SafeParent(t, block, acc)
  }

  function EnclavePrepare(cfg: Config, t: Trusted, id: PID, block: Block, acc: Accum, nvs: seq<OneJust>)
    : (Trusted, Option<Vote>)
  {
    if EnclaveAccepts(cfg, t, block, acc, nvs) then
      var (t1, v) := AcceptProposal(cfg, t, id, HashBlock(cfg, block), acc); (t1, Some(v))
    else (t, None)
  }

  predicate TwinAccepts(cfg: Config, t: Trusted, block: Block, acc: Accum, nvs: seq<OneJust>) {
    && ValidProof(cfg, t.view, nvs) && Summarises(acc, t.view, nvs)
    && AppVerifies(cfg, [acc.sign], acc.Data())
    && SafeParent(t, block, acc)
  }

  function TwinPrepare(cfg: Config, t: Trusted, id: PID, block: Block, acc: Accum, nvs: seq<OneJust>)
    : (Trusted, Option<Vote>)
  {
    if TwinAccepts(cfg, t, block, acc, nvs) then
      var (t1, v) := AcceptProposal(cfg, t, id, BlockHash(block), acc); (t1, Some(v))
    else (t, None)
  }

  predicate StoreAccepts(cfg: Config, t: Trusted, cert: Vote) {
    && ValidCert(cfg, cert.data, cert.signs)
    && t.view == cert.data.propv
    && (cert.data.phase == Prepare || cert.data.phase == PreCommit)
  }

  function TeeStore(cfg: Config, t: Trusted, id: PID, cert: Vote): (Trusted, Option<Vote>) {
    if StoreAccepts(cfg, t, cert) then
      var h := cert.data.proph;
      var v := cert.data.propv;
      var t1 := t.(preph := h, prepv := v);
      var t2 := if cert.data.phase == PreCommit then t1.(lockh := h, lockv := v) else t1;
      var (t3, vote) := SignRound(t2, id, h, NEW_HASH, 0);
      (t3, Some(vote))
    else (t, None)
  }

  /** What a replica runs: the enclave when it is trusted, the software twin otherwise. */
  function TeePrepare(cfg: Config, t: Trusted, id: PID, block: Block, acc: Accum, nvs: seq<OneJust>)
    : (Trusted, Option<Vote>)
  {
    if cfg.IsTEE(id) then EnclavePrepare(cfg, t, id, block, acc, nvs)
    else TwinPrepare(cfg, t, id, block, acc, nvs)
  }

  /** What an accepted proposal means, whichever implementation accepted it. */
  lemma AcceptedProposal(cfg: Config, t: Trusted, id: PID, block: Block, acc: Accum, nvs: seq<OneJust>)
    requires TeePrepare(cfg, t, id, block, acc, nvs).1.Some?
    ensures var (t1, v) := TeePrepare(cfg, t, id, block, acc, nvs);
      (t1, v.value) == AcceptProposal(cfg, t, id, BlockHash(block), acc)
    ensures ValidProof(cfg, t.view, nvs) && Summarises(acc, t.view, nvs) && SafeParent(t, block, acc)
  {
    if cfg.IsTEE(id) { HashBlockLaw(cfg, block); }
  }

  /** What voting for a proposal does: the component signs its current round for the block and moves to the next;
      under a trusted leader the block counts as prepared, under another leader what is prepared stays; and
      the lock is kept. */
  lemma AcceptanceLaw(cfg: Config, t: Trusted, id: PID, block: Block, acc: Accum, nvs: seq<OneJust>)
    requires TeePrepare(cfg, t, id, block, acc, nvs).1.Some?
    ensures var (t1, v) := TeePrepare(cfg, t, id, block, acc, nvs);
      && v.value == SingleVote(id, RData(Hash(Of(block), true), t.view, acc.hash, acc.prepv, t.phase))
      && StateKey(t1) == StateKey(t) + 1 && (t.phase != Commit ==> t1.view == t.view)
      && t1.lockh == t.lockh && t1.lockv == t.lockv
      && if cfg.IsTEE(acc.sign.signer) then t1.preph == Hash(Of(block), true) && t1.prepv == t.view
         else t1.preph == t.preph && t1.prepv == t.prepv
  {
    AcceptedProposal(cfg, t, id, block, acc, nvs);
    hide TeePrepare, ValidProof, Summarises, SafeParent;
  }

  /** A locked component votes only for a block on the hash that the new-views report, and for one that does not
      extend the block it is locked on only when they report a view above the lock; it refuses anything else. */
  lemma LockRespected(cfg: Config, t: Trusted, id: PID, block: Block, acc: Accum, nvs: seq<OneJust>)
    requires ValidProof(cfg, t.view, nvs) && Summarises(acc, t.view, nvs)
    requires acc.isSet && acc.sign.isSet && SigOk(cfg, acc.sign, acc.Data()) && block.isSet && |block.txs| <= cfg.maxTxs
    ensures TeePrepare(cfg, t, id, block, acc, nvs).1.Some?
      <==> block.prev.digest == Highest(nvs).1.digest
           && (block.prev.digest == t.lockh.digest || Highest(nvs).0 > t.lockv)
  {
    assert [acc.sign][0] == acc.sign;
    hide ValidProof, Highest;
  }

  /** The enclave and its software twin take the same step on a proposal exactly when the block, the
      accumulator and its signature are set (and the block is not oversized), or the twin refuses too. */
  lemma PrepareEquivalence(cfg: Config, t: Trusted, id: PID, block: Block, acc: Accum, nvs: seq<OneJust>)
    ensures EnclavePrepare(cfg, t, id, block, acc, nvs) == TwinPrepare(cfg, t, id, block, acc, nvs)
      <==> ((block.isSet && |block.txs| <= cfg.maxTxs && acc.isSet && acc.sign.isSet)
            || !TwinAccepts(cfg, t, block, acc, nvs))
  {
    assert [acc.sign][0] == acc.sign;
    if EnclaveAccepts(cfg, t, block, acc, nvs) { assert TwinAccepts(cfg, t, block, acc, nvs); }
  }

  // ---- moving to the next view

  /** The handler (in `view`) and the trusted component are in step: same view with something left to
      sign, or everything of the view signed and the next view not begun. */
  predicate Lockstep(t: Trusted, view: View) {
    (t.view == view && t.phase != NewView) || (t.view == view + 1 && t.phase == NewView)
  }

  /** Signs until the signed round is past `view`: the new state, everything signed, the last signature. */
  function SignPast(t: Trusted, id: PID, view: View): (Trusted, seq<RData>, Vote)
    decreases if StateKey(t) < 4 * (view + 1) then 4 * (view + 1) - StateKey(t) else 0
  {
    var (t1, v) := TeeSign(t, id);
    if v.data.propv <= view then
      var (t2, ds, w) := SignPast(t1, id, view);
      (t2, [v.data] + ds, w)
    else (t1, [v.data], v)
  }

  /** The signing loop signs every round up to NEWVIEW of the next view, in order, and stops there. */
  lemma {:induction false} SignPastLaw(t: Trusted, id: PID, view: View)
    requires StateKey(t) <= 4 * (view + 1)
    ensures var (t2, ds, w) := SignPast(t, id, view);
      && t2 == t.(view := view + 1, phase := Prepare)
      && w.data == RData(NO_HASH, view + 1, t.preph, t.prepv, NewView)
      && w.signs == [Sign(true, id, RoundText(w.data))]
      && |ds| == 4 * (view + 1) - StateKey(t) + 1
      && ds[|ds| - 1] == w.data
      && (forall i :: 0 <= i < |ds| ==> RoundKey(ds[i]) == StateKey(t) + i)
    decreases 4 * (view + 1) - StateKey(t)
  {
    var (t1, v) := TeeSign(t, id);
    if v.data.propv <= view { SignPastLaw(t1, id, view); }
  }

  // ---- every call sequence

  datatype Call =
    | SignCall
    | PrepareCall(block: Block, acc: Accum, proof: seq<OneJust>)
    | StoreCall(cert: Vote)

  function Perform(cfg: Config, t: Trusted, id: PID, c: Call): (Trusted, Option<Vote>) {
    match c
    case SignCall => var (t1, v) := TeeSign(t, id); (t1, Some(v))
    case PrepareCall(block, acc, proof) => TeePrepare(cfg, t, id, block, acc, proof)
    case StoreCall(cert) => TeeStore(cfg, t, id, cert)
  }

  /** The state after a sequence of calls from the start, and everything signed on the way. */
  function RunCalls(cfg: Config, id: PID, calls: seq<Call>): (Trusted, seq<RData>) {
    if calls == [] then (INITIAL, []) else
      var (t, signed) := RunCalls(cfg, id, calls[..|calls| - 1]);
      var (t1, v) := Perform(cfg, t, id, calls[|calls| - 1]);
      (t1, if v.Some? then signed + [v.value.data] else signed)
  }

  predicate Ordered(t: Trusted) {
    t.lockv <= t.prepv <= t.view && (t.prepv == t.view ==> t.phase != NewView)
  }

  /** Signed rounds in strictly increasing (view, phase) order: none is signed twice. */
  predicate Increasing(signed: seq<RData>) {
    forall i, j :: 0 <= i < j < |signed| ==> RoundKey(signed[i]) < RoundKey(signed[j])
  }

  predicate Below(signed: seq<RData>, bound: nat) {
    forall i :: 0 <= i < |signed| ==> RoundKey(signed[i]) < bound
  }

  /** One call either fails and changes nothing, or signs the current (view, phase) and moves to the
      next; the prepared and the locked view never go down. */
  predicate StepLaw(t: Trusted, t1: Trusted, v: Option<Vote>, id: PID) {
    && (v.None? ==> t1 == t)
    && (v.Some? ==>
      && v.value.data.propv == t.view && v.value.data.phase == t.phase
      && v.value.signs == [Sign(true, id, RoundText(v.value.data))]
      && StateKey(t1) == StateKey(t) + 1)
    && Ordered(t1) && t.prepv <= t1.prepv && t.lockv <= t1.lockv
  }

  lemma PrepareLaw(cfg: Config, t: Trusted, id: PID, block: Block, acc: Accum, nvs: seq<OneJust>)
    requires Ordered(t)
    ensures var (t1, v) := TeePrepare(cfg, t, id, block, acc, nvs); StepLaw(t, t1, v, id)
  {
    AcceptLaw(cfg, t, id, HashBlock(cfg, block), acc);
    AcceptLaw(cfg, t, id, BlockHash(block), acc);
  }

  lemma AcceptLaw(cfg: Config, t: Trusted, id: PID, hash: Hash, acc: Accum)
    requires Ordered(t)
    ensures var (t1, v) := AcceptProposal(cfg, t, id, hash, acc); StepLaw(t, t1, Some(v), id)
  {
  }

  lemma StoreLaw(cfg: Config, t: Trusted, id: PID, cert: Vote)
    requires Ordered(t)
    ensures var (t1, v) := TeeStore(cfg, t, id, cert); StepLaw(t, t1, v, id)
  {
  }

  lemma PerformLaw(cfg: Config, t: Trusted, id: PID, c: Call)
    requires Ordered(t)
    ensures var (t1, v) := Perform(cfg, t, id, c); StepLaw(t, t1, v, id)
  {
    match c
    case SignCall =>
    case PrepareCall(block, acc, proof) => PrepareLaw(cfg, t, id, block, acc, proof);
    case StoreCall(cert) => StoreLaw(cfg, t, id, cert);
  }

  lemma HashBlockLaw(cfg: Config, b: Block)
    requires HashBlock(cfg, b).isSet
    ensures HashBlock(cfg, b) == BlockHash(b)
  {
  }

  /** Appending a round at or above everything signed keeps the order. */
  lemma SignedGrows(signed: seq<RData>, d: RData, bound: nat)
    requires Increasing(signed) && Below(signed, RoundKey(d)) && RoundKey(d) < bound
    ensures Increasing(signed + [d]) && Below(signed + [d], bound)
  {
  }

  /** Non-equivocation, over every call sequence with any arguments. */
  lemma {:induction false} NonEquivocation(cfg: Config, id: PID, calls: seq<Call>)
    ensures Increasing(RunCalls(cfg, id, calls).1)
    ensures Below(RunCalls(cfg, id, calls).1, StateKey(RunCalls(cfg, id, calls).0))
    ensures Ordered(RunCalls(cfg, id, calls).0)
  {
    if calls != [] {
      NonEquivocation(cfg, id, calls[..|calls| - 1]);
      var (t, signed) := RunCalls(cfg, id, calls[..|calls| - 1]);
      PerformLaw(cfg, t, id, calls[|calls| - 1]);
      var (t1, v) := Perform(cfg, t, id, calls[|calls| - 1]);
      if v.Some? { SignedGrows(signed, v.value.data, StateKey(t1)); }
    }
  }

  /** Consequence: a replica never signs two different records for one (view, phase). */
  lemma OneRecordPerRound(signed: seq<RData>, d1: RData, d2: RData)
    requires Increasing(signed) && d1 in signed && d2 in signed
    requires d1.propv == d2.propv && d1.phase == d2.phase
    ensures d1 == d2
  {
    var i :| 0 <= i < |signed| && signed[i] == d1;
    var j :| 0 <= j < |signed| && signed[j] == d2;
  }
}
