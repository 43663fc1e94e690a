/** What a replica of the basic hybrid protocol does on each event: the handler's functions on values.
    `Handler` is the object whose methods are proved to compute exactly these steps.

    `signed`, `inbox`, `issued` and `executed` are histories: every round signed, every message received,
    every message sent or stored for itself, and the round data of every executed certificate. */
module Replicas {
  import opened Types
  import opened Certificates
  import opened TrustedMachine
  import opened Accumulators
  import opened SignLists
  import opened VoteLog

  datatype Future = Future(tag: Phase, view: View)

  datatype Replica = Replica(
    id: PID, started: bool, t: Trusted, view: View, phase: Phase,
    blocks: map<View, Block>, processedNewViews: set<View>, processedCommit: set<View>,
    future: map<Future, seq<Vote>>, transactions: seq<Transaction>, log: LogState,
    signed: seq<RData>, inbox: set<Msg>, issued: set<Msg>, executed: seq<RData>)

  function InitialReplica(id: PID): Replica {
    Replica(id, false, INITIAL, 1, NewView, map[], {}, {}, map[], [], EMPTY_LOG, [], {}, {}, [])
  }

  predicate Leads(cfg: Config, r: Replica, v: View) { cfg.LeaderOf(v) == r.id }

  predicate TeeLed(cfg: Config, v: View) { cfg.IsTEE(cfg.LeaderOf(v)) }

  function Issue(r: Replica, m: Msg): Replica { r.(issued := r.issued + {m}) }

  // ---- calls into the trusted component

  function CallSign(r: Replica): (Replica, Vote) {
    var (t, v) := TeeSign(r.t, r.id);
    (r.(t := t, signed := r.signed + [v.data]), v)
  }

  function CallPrepare(cfg: Config, r: Replica, block: Block, acc: Accum, proof: seq<OneJust>)
    : (Replica, Option<Vote>)
  {
    var (t, v) := TeePrepare(cfg, r.t, r.id, block, acc, proof);
    (if v.Some? then r.(t := t, signed := r.signed + [v.value.data]) else r, v)
  }

  function CallStore(cfg: Config, r: Replica, cert: Vote): (Replica, Option<Vote>) {
    var (t, v) := TeeStore(cfg, r.t, r.id, cert);
    (if v.Some? then r.(t := t, signed := r.signed + [v.value.data]) else r, v)
  }

  /** Counts a vote in the log, in the map of the signer's class. */
  function LogVote(r: Replica, tag: Phase, tee: bool, m: Vote): Replica {
    r.(log := Store(r.log, Slot(tag, tee, m.data.propv), m).0)
  }

  // ---- the leader: accumulating new-views and proposing

  function ToEntry(m: Vote): OneJust {
    if m.signs == [] then NO_JUST else OneJust(true, m.data, m.signs[0])
  }

  /** NewViewProofComb: a bounded copy of the set. */
  function ProofOf(cfg: Config, nvs: seq<Vote>): (r: seq<OneJust>)
    ensures |r| == |Take(nvs, cfg.maxSigs)| && forall i :: 0 <= i < |r| ==> r[i] == ToEntry(nvs[i])
  {
    var s := Take(nvs, cfg.maxSigs);
    seq(|s|, i requires 0 <= i < |s| => ToEntry(s[i]))
  }

  /** The array handed to the accumulator. */
  function PaddedProof(cfg: Config, nvs: seq<Vote>): (r: seq<OneJust>)
    ensures |r| == cfg.maxSigs
    ensures forall i :: 0 <= i < |r| ==> r[i] == if i < |nvs| then ToEntry(nvs[i]) else NO_JUST
  {
    seq(cfg.maxSigs, i requires 0 <= i < cfg.maxSigs => if i < |nvs| then ToEntry(nvs[i]) else NO_JUST)
  }

  /** The signatures of the new-views whose data equals `d`, up to hash flags. */
  function SameSigns(d: RData, nvs: seq<Vote>): seq<Sign> {
    if nvs == [] then [] else
      var last := nvs[|nvs| - 1];
      var init := SameSigns(d, nvs[..|nvs| - 1]);
      if SameRound(last.data, d) && last.signs != [] then init + [last.signs[0]] else init
  }

  function NewViewsToAccum(cfg: Config, id: PID, nvs: seq<Vote>, required: nat): Accum
    requires cfg.maxSigs > 0
  {
    var d := if nvs == [] then NO_JUST.rdata else nvs[0].data;
    var same := SameSigns(d, Take(nvs, cfg.maxSigs));
    if |same| >= required then AccumulateSp(cfg, cfg.IsTEE(id), id, d, same)
    else Accumulate(cfg, cfg.IsTEE(id), id, PaddedProof(cfg, nvs))
  }

  function Shift10(n: nat): nat {
    if n < 10 then 10 else 10 * Shift10(n / 10)
  }

  /** The decimal digits of the replica number followed by those of the view. */
  function BlockId(id: PID, v: View): nat { id * Shift10(v) + v }

  function CreateNewBlock(cfg: Config, r: Replica, hash: Hash): (Replica, Block) {
    var txs := Take(r.transactions, cfg.maxTxs);
    (r.(transactions := r.transactions[|txs|..]), Block(BlockId(r.id, r.view), true, hash, txs))
  }

  function ProcessQC(cfg: Config, r: Replica, nvs: seq<Vote>, required: nat): Replica
    requires cfg.maxSigs > 0
  {
    if r.view in r.processedNewViews then r else
      var acc := NewViewsToAccum(cfg, r.id, nvs, required);
      var (r1, block) := CreateNewBlock(cfg, r, acc.hash);
      var proof := ProofOf(cfg, nvs);
      var (r2, v) := CallPrepare(cfg, r1, block, acc, proof);
      if v.None? then r2 else
        var vote := v.value;
        var r3 := r2.(processedNewViews := r2.processedNewViews + {r2.view}, blocks := r2.blocks[r2.view := block]);
        var r4 := Issue(Issue(r3, LdrMsg(Proposal(acc, block, proof, vote.signs[0]))), VoteMsg(Prepare, vote));
        LogVote(r4, Prepare, cfg.IsTEE(r.id), vote)
  }

  /** Inserts messages into an ordered set until it holds n of them. */
  function MixIn(s: seq<Vote>, from: seq<Vote>, n: nat): seq<Vote>
    decreases |from|
  {
    if from == [] || |s| >= n then s else MixIn(SetInsert(s, from[0]), from[1..], n)
  }

  function PrepareComb(cfg: Config, r: Replica): Replica
    requires cfg.maxSigs > 0
  {
    var tee := GetMsgs(r.log, Slot(NewView, true, r.view), cfg.TQSize());
    var non := GetMsgs(r.log, Slot(NewView, false, r.view), cfg.QSize());
    if cfg.FastQC() && |tee| >= cfg.TQSize() then ProcessQC(cfg, r, tee, cfg.TQSize()) else
      var mixed := MixIn(MixIn([], tee, cfg.QSize()), non, cfg.QSize());
      if |mixed| == cfg.QSize() then ProcessQC(cfg, r, mixed, cfg.QSize()) else r
  }

  /** Enough new-views for view v: QT trusted ones when the fast path is on, or 2f+1 of any type. */
  predicate NewViewThreshold(cfg: Config, log: LogState, v: View) {
    var tee := |GetMsgs(log, Slot(NewView, true, v), cfg.TQSize())|;
    var non := |GetMsgs(log, Slot(NewView, false, v), cfg.QSize())|;
    (cfg.FastQC() && tee >= cfg.TQSize()) || tee + non >= cfg.QSize()
  }

  function HandleNewView(cfg: Config, r: Replica, m: Vote): Replica
    requires cfg.maxSigs > 0
  {
    var v := m.data.propv;
    if v >= r.view && Leads(cfg, r, v) && ValidVote(cfg, NewView, m) then
      var r1 := LogVote(r, NewView, cfg.IsTEE(m.signs[0].signer), m);
      if r1.phase == NewView && NewViewThreshold(cfg, r1.log, v) then
        var r2 := PrepareComb(cfg, r1);
        if r2.view in r2.processedNewViews then r2.(phase := Prepare) else r2
      else r1
    else r
  }

  // ---- backups: proposals

  /** The round data the leader of a proposal must have signed. */
  function LdrData(p: Proposal): RData {
    RData(BlockHash(p.block), p.acc.view, p.acc.hash, p.acc.prepv, Prepare)
  }

  predicate VerifyLdrPrepare(cfg: Config, p: Proposal) {
    var leader := cfg.LeaderOf(p.acc.view);
    && p.acc.isSet && p.sign.isSet
    && p.sign.signer == leader
    && p.acc.sign.signer == leader
    && AppVerifies(cfg, [p.acc.sign], p.acc.Data())
    && AppVerifies(cfg, [p.sign], RoundText(LdrData(p)))
  }

  function RespondToLdrPrepare(cfg: Config, r: Replica, block: Block, acc: Accum, proof: seq<OneJust>): Replica {
    var (r1, v) := CallPrepare(cfg, r, block, acc, proof);
    if v.Some? then Issue(r1.(blocks := r1.blocks[r1.view := block]), VoteMsg(Prepare, v.value)) else r1
  }

  function HandleLdrPrepare(cfg: Config, r: Replica, p: Proposal): Replica {
    var v := p.acc.view;
    if v >= r.view && !Leads(cfg, r, v) && VerifyLdrPrepare(cfg, p)
       && (p.acc.size == cfg.QSize() || p.acc.size == cfg.TQSize()) && Extends(p.block, p.acc.hash)
    then
      if v == r.view then RespondToLdrPrepare(cfg, r, p.block, p.acc, p.proof)
      else r.(log := StoreProposal(r.log, p))
    else r
  }

  // ---- certificates: storing, voting, executing

  /** TEEstore on a certificate, and the resulting vote sent in a message of type `tag`. */
  function StoreAndSend(cfg: Config, r: Replica, cert: Vote, tag: Phase): (r': Replica)
    ensures r'.future == r.future && r'.view == r.view
  {
    var (r1, v) := CallStore(cfg, r, cert);
    if v.Some? then Issue(r1, VoteMsg(tag, v.value)) else r1
  }

  /** The same by a leader, who keeps the vote in its own log instead of sending it. */
  function StoreAndKeep(cfg: Config, r: Replica, cert: Vote, tag: Phase): Replica {
    var (r1, v) := CallStore(cfg, r, cert);
    if v.Some? then LogVote(Issue(r1, VoteMsg(tag, v.value)), tag, cfg.IsTEE(r.id), v.value) else r1
  }

  predicate TimeToStop(cfg: Config, r: Replica) {
    cfg.maxViews > 0 && |r.processedCommit| >= cfg.maxViews
  }

  function Erase(m: map<Future, seq<Vote>>, k: Future): (r: map<Future, seq<Vote>>)
    requires k in m
    ensures r.Keys == m.Keys - {k} && |r| == |m| - 1
    ensures forall x :: x in r ==> r[x] == m[x]
  {
    var r := m - {k};
    assert r.Keys == m.Keys - {k} && |r| == |r.Keys| && |m| == |m.Keys|;
    r
  }

  predicate Cached(r: Replica, k: Future) {
    k in r.future && r.future[k] != []
  }

  function ExecuteComb(cfg: Config, r: Replica, data: RData): (r': Replica)
    requires cfg.maxSigs > 0
    ensures |r'.future| <= |r.future|
    decreases |r.future|, 3
  {
    if data.propv in r.processedCommit then r
    else if data.propv !in r.blocks || !EqHashes(BlockHash(r.blocks[data.propv]), data.proph) then r
    else
      var r1 := r.(processedCommit := r.processedCommit + {data.propv}, executed := r.executed + [data]);
      if TimeToStop(cfg, r1) then r1 else StartNewView(cfg, r1)
  }

  function StartNewView(cfg: Config, r: Replica): (r': Replica)
    requires cfg.maxSigs > 0
    ensures |r'.future| <= |r.future|
    decreases |r.future|, 2
  {
    var (t, ds, v) := SignPast(r.t, r.id, r.view);
    var r2 := r.(t := t, signed := r.signed + ds, view := r.view + 1);
    if v.data.propv == r2.view && v.data.phase == NewView && |v.signs| == 1 then
      var r3 := Issue(r2, VoteMsg(NewView, v));
      var r4 := HandleEarlier(cfg, r3);
      if Leads(cfg, r3, r3.view) then
        HandleNewViewFrame(cfg, r4, v);
        HandleNewView(cfg, r4, v)
      else r4
    else r2
  }

  /** The stored proposal of the view just entered is replayed first. */
  function ReplayProposal(cfg: Config, r: Replica): (r': Replica)
    ensures r'.future == r.future && r'.view == r.view
  {
    var p := FirstProposal(r.log, r.view);
    if p.Some? && p.value.sign.isSet then RespondToLdrPrepare(cfg, r, p.value.block, p.value.acc, p.value.proof) else r
  }

  /** Replays what was received early for the view just entered. */
  function HandleEarlier(cfg: Config, r: Replica): (r': Replica)
    requires cfg.maxSigs > 0
    ensures |r'.future| <= |r.future|
    decreases |r.future|, 1
  {
    if Leads(cfg, r, r.view) then
      if NewViewThreshold(cfg, r.log, r.view) then PrepareFrame(cfg, r); PrepareComb(cfg, r) else r
    else
      var r1 := ReplayProposal(cfg, r);
      // A certificate whose block is unavailable stays cached.
      if r1.view !in r1.blocks then r1 else ReplayCertificates(cfg, r1, BlockHash(r1.blocks[r1.view]))
  }

  /** Replays the cached certificates of the current view in protocol order, each only after the one
      before it and only if it is for the block at hand. */
  function ReplayCertificates(cfg: Config, r: Replica, hash: Hash): (r': Replica)
    requires cfg.maxSigs > 0
    ensures |r'.future| <= |r.future|
    decreases |r.future|, 0
  {
    var k := Future(Prepare, r.view);
    if !Cached(r, k) || !EqHashes(hash, r.future[k][0].data.proph) then r else
      var r2 := RespondToPrepare(cfg, r.(future := Erase(r.future, k)), r.future[k][0]);
      // A TEE leader's PREPARE certificate is final and execution starts the next view.
      if r2.view != r.view then r2 else ReplayPreCommit(cfg, r2, hash)
  }

  function ReplayPreCommit(cfg: Config, r: Replica, hash: Hash): (r': Replica)
    requires cfg.maxSigs > 0
    ensures |r'.future| <= |r.future|
    decreases |r.future|, 5
  {
    var k := Future(PreCommit, r.view);
    if !Cached(r, k) || !EqHashes(hash, r.future[k][0].data.proph) then r
    else ReplayCommit(cfg, StoreAndSend(cfg, r.(future := Erase(r.future, k)), r.future[k][0], Commit), hash)
  }

  function ReplayCommit(cfg: Config, r: Replica, hash: Hash): (r': Replica)
    requires cfg.maxSigs > 0
    ensures |r'.future| <= |r.future|
    decreases |r.future|, 5
  {
    var k := Future(Commit, r.view);
    if !Cached(r, k) || !EqHashes(hash, r.future[k][0].data.proph) then r
    else RespondToCommit(cfg, r.(future := Erase(r.future, k)), r.future[k][0])
  }

  function RespondToPrepare(cfg: Config, r: Replica, m: Vote): (r': Replica)
    requires cfg.maxSigs > 0
    ensures |r'.future| <= |r.future|
    decreases |r.future|, 4
  {
    if !ValidQC(cfg, Prepare, m) then r
    else if TeeLed(cfg, r.view) then ExecuteComb(cfg, r, m.data)
    else StoreAndSend(cfg, r, m, PreCommit)
  }

  function RespondToCommit(cfg: Config, r: Replica, m: Vote): (r': Replica)
    requires cfg.maxSigs > 0
    ensures |r'.future| <= |r.future|
    decreases |r.future|, 4
  {
    if ValidQC(cfg, Commit, m) then ExecuteComb(cfg, r, m.data) else r
  }

  lemma ProcessFrame(cfg: Config, r: Replica, nvs: seq<Vote>, required: nat)
    requires cfg.maxSigs > 0
    ensures ProcessQC(cfg, r, nvs, required).future == r.future
  {
    hide TeePrepare, NewViewsToAccum, Store, ProofOf;
  }

  lemma PrepareFrame(cfg: Config, r: Replica)
    requires cfg.maxSigs > 0
    ensures PrepareComb(cfg, r).future == r.future
  {
    hide ProcessQC;
    var tee := GetMsgs(r.log, Slot(NewView, true, r.view), cfg.TQSize());
    var non := GetMsgs(r.log, Slot(NewView, false, r.view), cfg.QSize());
    ProcessFrame(cfg, r, tee, cfg.TQSize());
    ProcessFrame(cfg, r, MixIn(MixIn([], tee, cfg.QSize()), non, cfg.QSize()), cfg.QSize());
  }

  lemma HandleNewViewFrame(cfg: Config, r: Replica, m: Vote)
    requires cfg.maxSigs > 0
    ensures HandleNewView(cfg, r, m).future == r.future
  {
    var r1 := LogVote(r, NewView, if m.signs == [] then false else cfg.IsTEE(m.signs[0].signer), m);
    PrepareFrame(cfg, r1);
  }

  // ---- votes and certificates from the network

  /** Stores a vote and counts both classes; a class that was not written is read through its getter,
      and a repeated vote counts for nothing. */
  function CountVote(cfg: Config, log: LogState, tag: Phase, m: Vote): (LogState, nat, nat)
    requires m.signs != []
  {
    var v := m.data.propv;
    if cfg.IsTEE(m.signs[0].signer) then
      var (log1, tee) := Store(log, Slot(tag, true, v), m);
      (log1, tee, if tee != 0 then |GetSigns(log1, Slot(tag, false, v), cfg.QSize())| else 0)
    else
      var (log1, non) := Store(log, Slot(tag, false, v), m);
      (log1, if non != 0 then |GetSigns(log1, Slot(tag, true, v), cfg.TQSize())| else 0, non)
  }

  /** The certificate a leader reads back from its log. */
  function LogCert(cfg: Config, r: Replica, tag: Phase, data: RData, fast: bool): Vote {
    Vote(data, if fast then GetSigns(r.log, Slot(tag, true, data.propv), cfg.TQSize())
               else Merged(r.log, tag, data.propv, cfg.QSize()))
  }

  function DecideComb(cfg: Config, r: Replica, data: RData, fast: bool): Replica
    requires cfg.maxSigs > 0
  {
    var tag := if TeeLed(cfg, r.view) then Prepare else Commit;
    var cert := LogCert(cfg, r, tag, data, fast);
    if ValidQC(cfg, tag, cert) then ExecuteComb(cfg, Issue(r, VoteMsg(tag, cert)), data) else r
  }

  /** preCommitComb and commitComb: broadcast the certificate of phase `tag`, store it, vote for `next`. */
  function AdvanceComb(cfg: Config, r: Replica, data: RData, fast: bool, tag: Phase, next: Phase): Replica {
    var cert := LogCert(cfg, r, tag, data, fast);
    if ValidQC(cfg, tag, cert) then StoreAndKeep(cfg, Issue(r, VoteMsg(tag, cert)), cert, next) else r
  }

  /** A message for a later view: certificates are cached, votes go to the log. */
  function StoreFuture(cfg: Config, r: Replica, tag: Phase, m: Vote): Replica {
    if ValidQC(cfg, tag, m) then
      var k := Future(tag, m.data.propv);
      r.(future := r.future[k := SetInsert(if k in r.future then r.future[k] else [], m)])
    else if ValidVote(cfg, tag, m) then LogVote(r, tag, cfg.IsTEE(m.signs[0].signer), m)
    else r
  }

  function HandlePrepare(cfg: Config, r: Replica, m: Vote): Replica
    requires cfg.maxSigs > 0
  {
    var v := m.data.propv;
    if v > r.view then StoreFuture(cfg, r, Prepare, m)
    else if v < r.view then r
    else if !Leads(cfg, r, v) then
      if ValidQC(cfg, Prepare, m) then RespondToPrepare(cfg, r, m) else r
    else if !ValidVote(cfg, Prepare, m) then r
    else
      var (log, tee, non) := CountVote(cfg, r.log, Prepare, m);
      var r1 := r.(log := log);
      var fast := cfg.FastQC() && tee >= cfg.TQSize();
      if r1.phase == Prepare && (fast || tee + non == cfg.QSize()) then
        if TeeLed(cfg, r1.view) then DecideComb(cfg, r1.(phase := NewView), m.data, fast)
        else AdvanceComb(cfg, r1.(phase := PreCommit), m.data, fast, Prepare, PreCommit)
      else r1
  }

  function HandlePreCommit(cfg: Config, r: Replica, m: Vote): Replica {
    var v := m.data.propv;
    if v > r.view then StoreFuture(cfg, r, PreCommit, m)
    else if v < r.view then r
    else if !Leads(cfg, r, v) then
      if ValidQC(cfg, PreCommit, m) then StoreAndSend(cfg, r, m, Commit) else r
    else if !ValidVote(cfg, PreCommit, m) then r
    else
      var (log, tee, non) := CountVote(cfg, r.log, PreCommit, m);
      var r1 := r.(log := log);
      var fast := tee == cfg.TQSize();
      if r1.phase == PreCommit && (fast || tee + non == cfg.QSize()) then
        AdvanceComb(cfg, r1.(phase := Commit), m.data, fast, PreCommit, Commit)
      else r1
  }

  function HandleCommit(cfg: Config, r: Replica, m: Vote): Replica
    requires cfg.maxSigs > 0
  {
    var v := m.data.propv;
    if v > r.view then StoreFuture(cfg, r, Commit, m)
    else if v < r.view then r
    else if !Leads(cfg, r, v) then
      if ValidQC(cfg, Commit, m) then RespondToCommit(cfg, r, m) else r
    else if !ValidVote(cfg, Commit, m) then r
    else
      var (log, tee, non) := CountVote(cfg, r.log, Commit, m);
      var r1 := r.(log := log);
      var fast := tee == cfg.TQSize();
      if r1.phase == Commit && (fast || tee + non == cfg.QSize()) then
        DecideComb(cfg, r1.(phase := NewView), m.data, fast)
      else r1
  }

  // ---- events

  datatype Event = Start | Deliver(msg: Msg) | Timeout | Submit(tx: Transaction)

  /** getStarted */
  function GetStarted(cfg: Config, r: Replica): Replica
    requires cfg.maxSigs > 0
  {
    var (r1, v) := CallSign(r.(started := true));
    var r2 := Issue(r1, VoteMsg(NewView, v));
    if Leads(cfg, r2, r2.view) then HandleNewView(cfg, r2, v) else r2
  }

  function HandleMsg(cfg: Config, r: Replica, m: Msg): Replica
    requires cfg.maxSigs > 0
  {
    var r0 := r.(inbox := r.inbox + {m});
    match m
    case LdrMsg(p) => HandleLdrPrepare(cfg, r0, p)
    case VoteMsg(NewView, v) => HandleNewView(cfg, r0, v)
    case VoteMsg(Prepare, v) => HandlePrepare(cfg, r0, v)
    case VoteMsg(PreCommit, v) => HandlePreCommit(cfg, r0, v)
    case VoteMsg(Commit, v) => HandleCommit(cfg, r0, v)
  }

  /** A replica starts once, and handles nothing before it has started. */
  function Step(cfg: Config, r: Replica, e: Event): Replica
    requires cfg.maxSigs > 0
  {
    match e
    case Submit(tx) => r.(transactions := r.transactions + [tx])
    case Start => if r.started then r else GetStarted(cfg, r)
    case Deliver(m) => if r.started then HandleMsg(cfg, r, m) else r
    case Timeout => if r.started then StartNewView(cfg, r) else r
  }

  /** The first round that every replica signs: the new-view for view 1. */
  const FIRST_ROUND := RData(NO_HASH, 1, NEW_HASH, 0, NewView)

  /** A replica that has signed it and sent the new-view. */
  function Begun(q: PID): Replica {
    InitialReplica(q).(started := true, t := INITIAL.(phase := Prepare), signed := [FIRST_ROUND],
                       issued := {VoteMsg(NewView, SingleVote(q, FIRST_ROUND))})
  }

  lemma Begins(cfg: Config, q: PID, txs: seq<Transaction>)
    requires cfg.maxSigs > 0
    ensures var r := Begun(q).(transactions := txs);
      Step(cfg, InitialReplica(q).(transactions := txs), Start)
        == if cfg.LeaderOf(1) == q then HandleNewView(cfg, r, SingleVote(q, FIRST_ROUND)) else r
  {
    hide HandleNewView, HandleMsg, StartNewView;
    var m := VoteMsg(NewView, SingleVote(q, FIRST_ROUND));
    assert [] + [FIRST_ROUND] == [FIRST_ROUND] && {} + {m} == {m};
  }
}
