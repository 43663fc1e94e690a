/** The handler object of a replica.  Every method is proved to take its state exactly where the function
    of the same name in `Replicas` takes it, so what is proved there holds of this object. */
module HandlerComb {
  import opened Types
  import opened Quorums
  import opened Certificates
  import opened TrustedMachine
  import opened Accumulators
  import opened SignLists
  import opened VoteLog
  import opened EnclaveComb
  import opened TrustedComb
  import opened MessageLog
  import opened Replicas

  class Handler {
    const cfg: Config
    const id: PID
    const enclave: Enclave  // used when this replica has a TEE
    const twin: Twin        // used when it has none
    const log: Log

    var started: bool
    var view: View
    var phase: Phase
    var blocks: map<View, Block>
    var processedNewViews: set<View>
    var processedCommit: set<View>
    var future: map<Future, seq<Vote>>
    var transactions: seq<Transaction>
    var issued: set<Msg>      // what was handed to the network or to the own log
    var executed: seq<RData>  // what clients were answered for
    ghost var inbox: set<Msg>

    ghost function Tee(): Trusted
      reads this, enclave, twin
    {
      if cfg.IsTEE(id) then enclave.State() else twin.State()
    }

    ghost function Signed(): seq<RData>
      reads this, enclave, twin
    {
      if cfg.IsTEE(id) then enclave.signed else twin.signed
    }

    ghost function State(): Replica
      reads this, enclave, twin, log
    {
      Replica(id, started, Tee(), view, phase, blocks, processedNewViews, processedCommit, future, transactions,
              log.State(), Signed(), inbox, issued, executed)
    }

    ghost predicate Valid()
      reads this, enclave, twin, log
    {
      && cfg.Valid()
      && enclave.cfg == cfg && enclave.id == id && enclave.Valid()
      && twin.cfg == cfg && twin.id == id && twin.Valid()
      && log.maxSigs == cfg.maxSigs
    }

    constructor (cfg: Config, id: PID)
      requires cfg.Valid()
      ensures this.cfg == cfg && this.id == id
      ensures Valid() && State() == InitialReplica(id)
      ensures fresh(enclave) && fresh(twin) && fresh(log)
    {
      this.cfg, this.id := cfg, id;
      enclave := new Enclave(cfg, id);
      twin := new Twin(cfg, id);
      log := new Log(cfg.maxSigs);
      started, view, phase := false, 1, NewView;
      blocks, processedNewViews, processedCommit := map[], {}, {};
      future, transactions := map[], [];
      issued, executed, inbox := {}, [], {};
    }

    // ---- calls into the trusted component

    method CallTEEsign() returns (j: Vote)
      requires Valid()
      modifies enclave, twin
      ensures Valid() && (State(), j) == CallSign(old(State()))
    {
      if cfg.IsTEE(id) {
        j := enclave.TEEsign();
      } else {
        j := twin.TEEsign();
      }
    }

    method CallTEEprepare(block: Block, acc: Accum, proof: seq<OneJust>) returns (j: Option<Vote>)
      requires Valid()
      modifies enclave, twin
      ensures Valid() && (State(), j) == CallPrepare(cfg, old(State()), block, acc, proof)
      ensures j.Some? ==> |j.value.signs| == 1
    {
      PrepareLaw(cfg, Tee(), id, block, acc, proof);
      hide EnclavePrepare, TwinPrepare;
      if cfg.IsTEE(id) {
        j := enclave.TEEprepare(block, acc, proof);
      } else {
        j := twin.TEEprepare(block, acc, proof);
      }
    }

    method CallTEEstore(cert: Vote) returns (j: Option<Vote>)
      requires Valid()
      modifies enclave, twin
      ensures Valid() && (State(), j) == CallStore(cfg, old(State()), cert)
    {
      TrustedMachine.StoreLaw(cfg, Tee(), id, cert);
      hide TeeStore;
      if cfg.IsTEE(id) {
        j := enclave.TEEstore(cert);
      } else {
        j := twin.TEEstore(cert);
      }
    }

    method Send(m: Msg)
      requires Valid()
      modifies this`issued
      ensures Valid() && State() == Issue(old(State()), m)
    {
      issued := issued + {m};
    }

    method StoreInLog(tag: Phase, tee: bool, m: Vote)
      requires Valid()
      modifies log
      ensures Valid() && State() == LogVote(old(State()), tag, tee, m)
    {
      var _ := log.StoreVote(Slot(tag, tee, m.data.propv), m);
    }

    method StoreProposalInLog(p: Proposal)
      requires Valid()
      modifies log
      ensures Valid() && State() == old(State()).(log := StoreProposal(old(log.State()), p))
    {
      hide StoreProposalCount;
      var _ := log.StoreLdrPrep(p);
    }

    // ---- the leader: accumulating new-views and proposing

    /** The loop of newviews2accComb. */
    method GatherNewViews(nvs: seq<Vote>) returns (js: seq<OneJust>, rdata: RData, same: seq<Sign>)
      requires Valid()
      ensures js == PaddedProof(cfg, nvs)
      ensures rdata == if nvs == [] then NO_JUST.rdata else nvs[0].data
      ensures same == SameSigns(rdata, Take(nvs, cfg.maxSigs))
    {
      hide SameSigns, SameRound, ToEntry;
      var justs := new OneJust[cfg.maxSigs](i => NO_JUST);
      rdata := NO_JUST.rdata;
      var ss := new Signs(cfg.maxSigs);
      var i := 0;
      NoSameSigns(rdata);
      while i < |nvs| && i < cfg.maxSigs
        invariant 0 <= i <= |nvs| && i <= cfg.maxSigs == justs.Length == ss.signs.Length
        invariant ss.Valid() && ss.size <= i
        invariant rdata == if i == 0 then NO_JUST.rdata else nvs[0].data
        invariant ss.Contents() == SameSigns(rdata, nvs[..i])
        invariant fresh(justs) && fresh(ss) && fresh(ss.signs)
        invariant forall k :: 0 <= k < justs.Length ==> justs[k] == if k < i then ToEntry(nvs[k]) else NO_JUST
      {
        var msg := nvs[i];
        if i == 0 { rdata := msg.data; }
        SameSignsStep(rdata, nvs, i);
        if SameRound(msg.data, rdata) && msg.signs != [] { ss.Add(msg.signs[0]); }
        justs[i] := ToEntry(msg);
        i := i + 1;
      }
      assert nvs[..i] == Take(nvs, cfg.maxSigs);
      js := justs[..];
      assert js == PaddedProof(cfg, nvs);
      same := ss.signs[..ss.size];
    }

    static lemma SameSignsStep(d: RData, nvs: seq<Vote>, i: nat)
      requires i < |nvs|
      ensures SameSigns(d, nvs[..i + 1])
        == SameSigns(d, nvs[..i]) + (if SameRound(nvs[i].data, d) && nvs[i].signs != [] then [nvs[i].signs[0]] else [])
      ensures i == 0 ==> SameSigns(d, nvs[..i]) == []
    {
      assert nvs[..i + 1][..i] == nvs[..i];
    }

    static lemma NoSameSigns(d: RData)
      ensures SameSigns(d, []) == []
    {
    }

    method NewViewsToAccumulator(nvs: seq<Vote>, required: nat) returns (acc: Accum)
      requires Valid()
      ensures acc == NewViewsToAccum(cfg, id, nvs, required)
    {
      var js, rdata, same := GatherNewViews(nvs);
      hide Accumulate, AccumulateSp;
      if |same| >= required {
        if cfg.IsTEE(id) { acc := enclave.TEEaccumSp(rdata, same); } else { acc := twin.TEEaccumSp(rdata, same); }
      } else {
        if cfg.IsTEE(id) { acc := enclave.TEEaccum(js); } else { acc := twin.TEEaccum(js); }
      }
    }

    method CreateBlock(hash: Hash) returns (block: Block)
      requires Valid()
      modifies this`transactions
      ensures Valid() && (State(), block) == CreateNewBlock(cfg, old(State()), hash)
    {
      var txs: seq<Transaction> := [];
      while |txs| < cfg.maxTxs && transactions != []
        invariant |txs| <= cfg.maxTxs && txs + transactions == old(transactions)
        decreases |transactions|
      {
        txs := txs + [transactions[0]];
        transactions := transactions[1..];
      }
      block := Block(BlockId(id, view), true, hash, txs);
      assert txs == Take(old(transactions), cfg.maxTxs);
    }

    method ProcessNewViews(nvs: seq<Vote>, required: nat)
      requires Valid()
      modifies this, enclave, twin, log
      ensures Valid() && State() == ProcessQC(cfg, old(State()), nvs, required)
    {
      hide NewViewsToAccum, CallPrepare, CreateNewBlock, ProofOf, LogVote, BlockHash, ToEntry;
      if view in processedNewViews { return; }
      var acc := NewViewsToAccumulator(nvs, required);
      var block := CreateBlock(acc.hash);
      var proof := ProofOf(cfg, nvs);
      var just := CallTEEprepare(block, acc, proof);
      if just.None? { return; }
      processedNewViews := processedNewViews + {view};
      blocks := blocks[view := block];
      var vote := just.value;
      Send(LdrMsg(Proposal(acc, block, proof, vote.signs[0])));
      Send(VoteMsg(Prepare, vote));
      StoreInLog(Prepare, cfg.IsTEE(id), vote);
    }

    method MixInto(s: seq<Vote>, from: seq<Vote>, n: nat) returns (r: seq<Vote>)
      ensures r == MixIn(s, from, n)
    {
      r := s;
      var i := 0;
      while i < |from| && |r| < n
        invariant 0 <= i <= |from|
        invariant MixIn(r, from[i..], n) == MixIn(s, from, n)
      {
        assert from[i..][0] == from[i] && from[i..][1..] == from[i + 1..];
        r := SetInsert(r, from[i]);
        i := i + 1;
      }
    }

    method DoPrepare()
      requires Valid()
      modifies this, enclave, twin, log
      ensures Valid() && State() == PrepareComb(cfg, old(State()))
    {
      hide ProcessQC, MixIn, GetMsgs;
      var tee := log.GetMessages(Slot(NewView, true, view), cfg.TQSize());
      var non := log.GetMessages(Slot(NewView, false, view), cfg.QSize());
      if cfg.FastQC() && |tee| >= cfg.TQSize() {
        ProcessNewViews(tee, cfg.TQSize());
      } else {
        var mixed := MixInto([], tee, cfg.QSize());
        mixed := MixInto(mixed, non, cfg.QSize());
        if |mixed| == cfg.QSize() { ProcessNewViews(mixed, cfg.QSize()); }
      }
    }

    method AtNewViewThreshold(v: View) returns (b: bool)
      requires Valid()
      ensures b <==> NewViewThreshold(cfg, log.State(), v)
    {
      var tee := log.GetMessages(Slot(NewView, true, v), cfg.TQSize());
      var non := log.GetMessages(Slot(NewView, false, v), cfg.QSize());
      b := (cfg.FastQC() && |tee| >= cfg.TQSize()) || |tee| + |non| >= cfg.QSize();
    }

    method HandleNewViewMsg(m: Vote)
      requires Valid()
      modifies this, enclave, twin, log
      ensures Valid() && State() == HandleNewView(cfg, old(State()), m)
    {
      hide PrepareComb, NewViewThreshold, ValidVote, LogVote, Concat, From, GetMsgs;
      var v := m.data.propv;
      if v < view || cfg.LeaderOf(v) != id { return; }
      var valid := VerifyCombVote(cfg, m, NewView);
      if !valid { return; }
      VoteHasSigner(cfg, NewView, m);
      StoreInLog(NewView, cfg.IsTEE(m.signs[0].signer), m);
      ProposeIfEnough(v);
    }

    method ProposeIfEnough(v: View)
      requires Valid()
      modifies this, enclave, twin, log
      ensures Valid()
      ensures var r := old(State()); var r2 := PrepareComb(cfg, r);
        State() == if !(r.phase == NewView && NewViewThreshold(cfg, r.log, v)) then r
                   else if r2.view in r2.processedNewViews then r2.(phase := Prepare)
                   else r2
    {
      hide PrepareComb, NewViewThreshold;
      var enough := AtNewViewThreshold(v);
      if phase == NewView && enough {
        DoPrepare();
        if view in processedNewViews { phase := Prepare; }
      }
    }

    // ---- backups: proposals

    method VerifyLdrPrepareMsg(p: Proposal) returns (b: bool)
      requires Valid()
      ensures b <==> VerifyLdrPrepare(cfg, p)
    {
      var leader := cfg.LeaderOf(p.acc.view);
      var accOk := SignsVerify(cfg, [p.acc.sign], p.acc.Data());
      var signOk := SignsVerify(cfg, [p.sign], RoundText(LdrData(p)));
      b := p.acc.isSet && p.sign.isSet && p.sign.signer == leader && p.acc.sign.signer == leader && accOk && signOk;
    }

    method RespondToProposal(block: Block, acc: Accum, proof: seq<OneJust>)
      requires Valid()
      modifies this, enclave, twin, log
      ensures Valid() && State() == RespondToLdrPrepare(cfg, old(State()), block, acc, proof)
    {
      hide CallPrepare;
      var just := CallTEEprepare(block, acc, proof);
      if just.Some? {
        blocks := blocks[view := block];
        Send(VoteMsg(Prepare, just.value));
      }
    }

    method HandleLdrPrepareMsg(p: Proposal)
      requires Valid()
      modifies this, enclave, twin, log
      ensures Valid() && State() == HandleLdrPrepare(cfg, old(State()), p)
    {
      hide VerifyLdrPrepare, RespondToLdrPrepare, StoreProposal;
      var v := p.acc.view;
      var vm := VerifyLdrPrepareMsg(p);
      if v >= view && cfg.LeaderOf(v) != id && vm
         && (p.acc.size == cfg.QSize() || p.acc.size == cfg.TQSize()) && Extends(p.block, p.acc.hash) {
        if v == view {
          RespondToProposal(p.block, p.acc, p.proof);
        } else {
          StoreProposalInLog(p);
        }
      }
    }

    // ---- certificates: storing, voting, executing

    method StoreAndVote(cert: Vote, tag: Phase)
      requires Valid()
      modifies this, enclave, twin, log
      ensures Valid() && State() == StoreAndSend(cfg, old(State()), cert, tag)
    {
      hide CallStore;
      var just := CallTEEstore(cert);
      if just.Some? { Send(VoteMsg(tag, just.value)); }
    }

    method StoreAndKeepVote(cert: Vote, tag: Phase)
      requires Valid()
      modifies this, enclave, twin, log
      ensures Valid() && State() == StoreAndKeep(cfg, old(State()), cert, tag)
    {
      hide CallStore, LogVote;
      var just := CallTEEstore(cert);
      if just.Some? {
        Send(VoteMsg(tag, just.value));
        StoreInLog(tag, cfg.IsTEE(id), just.value);
      }
    }

    method Execute(data: RData)
      requires Valid()
      modifies this, enclave, twin, log
      ensures Valid() && State() == ExecuteComb(cfg, old(State()), data)
      decreases |future|, 3
    {
      hide StartNewView;
      if data.propv in processedCommit { return; }
      if data.propv !in blocks || !EqHashes(BlockHash(blocks[data.propv]), data.proph) { return; }
      processedCommit := processedCommit + {data.propv};
      executed := executed + [data];
      if !(cfg.maxViews > 0 && |processedCommit| >= cfg.maxViews) { StartNextView(); }
    }

    // ---- moving to the next view

    /** What the signing loop still signs after signature j. */
    static function Rest(t: Trusted, id: PID, view: View, j: Vote): (Trusted, seq<RData>, Vote) {
      if j.data.propv <= view then SignPast(t, id, view) else (t, [], j)
    }

    /** The signing loop of startNewViewComb. */
    method SignPastView() returns (just: Vote)
      requires Valid()
      modifies enclave, twin
      ensures var (t, ds, w) := SignPast(old(Tee()), id, view);
        just == w && State() == old(State()).(t := t, signed := old(Signed()) + ds)
      ensures Valid()
    {
      hide SignPast, Rest;
      ghost var start := Tee();
      just := CallTEEsign();
      ghost var ds := [just.data];
      SignPastUnfolds(start, id, view, []);
      SignedKey(start, id);
      while just.data.propv <= view
        invariant Valid()
        invariant State() == old(State()).(t := Tee(), signed := old(Signed()) + ds)
        invariant StateKey(Tee()) == RoundKey(just.data) + 1
        invariant Continues(start, id, view, Tee(), ds, just)
        decreases 4 * view + 5 - StateKey(Tee())
      {
        ghost var t0 := Tee();
        ghost var before := ds;
        RestIsSignPast(t0, id, view, just);
        just := CallTEEsign();
        ds := ds + [just.data];
        SignPastUnfolds(t0, id, view, before);
        SignedKey(t0, id);
      }
      RestIsNothing(Tee(), id, view, just);
      assert ds + [] == ds;
    }

    /** The loop started at t0 has signed ds, is at t after signature j, and will end as SignPast says. */
    static ghost predicate Continues(t0: Trusted, id: PID, view: View, t: Trusted, ds: seq<RData>, j: Vote) {
      var (t1, more, w) := Rest(t, id, view, j);
      SignPast(t0, id, view) == (t1, ds + more, w)
    }

    static lemma RestIsSignPast(t: Trusted, id: PID, view: View, j: Vote)
      requires j.data.propv <= view
      ensures Rest(t, id, view, j) == SignPast(t, id, view)
    {
    }

    static lemma RestIsNothing(t: Trusted, id: PID, view: View, j: Vote)
      requires j.data.propv > view
      ensures Rest(t, id, view, j) == (t, [], j)
    {
    }

    static lemma SignedKey(t: Trusted, id: PID)
      ensures var (t1, j) := TeeSign(t, id); StateKey(t1) == RoundKey(j.data) + 1
    {
    }

    /** One more turn of the signing loop. */
    static lemma SignPastUnfolds(t: Trusted, id: PID, view: View, before: seq<RData>)
      ensures var (t1, j) := TeeSign(t, id); var (t2, more, w) := Rest(t1, id, view, j);
        var (t3, ds, w') := SignPast(t, id, view);
        t2 == t3 && w == w' && before + ds == before + [j.data] + more && ds == [j.data] + more
    {
    }

    method StartNextView()
      requires Valid()
      modifies this, enclave, twin, log
      ensures Valid() && State() == StartNewView(cfg, old(State()))
      decreases |future|, 2
    {
      hide SignPast, HandleEarlier, HandleNewView;
      var just := SignPastView();
      view := view + 1;
      if just.data.propv == view && just.data.phase == NewView && |just.signs| == 1 {
        Send(VoteMsg(NewView, just));
        if cfg.LeaderOf(view) == id {
          ghost var r3 := State();
          HandleEarlierMessages();
          HandleNewViewMsg(just);
        } else {
          HandleEarlierMessages();
        }
      }
    }

    method HandleEarlierMessages()
      requires Valid()
      modifies this, enclave, twin, log
      ensures Valid() && State() == HandleEarlier(cfg, old(State()))
      decreases |future|, 1
    {
      hide PrepareComb, NewViewThreshold, ReplayProposal, ReplayCertificates;
      if cfg.LeaderOf(view) == id {
        var enough := AtNewViewThreshold(view);
        if enough { DoPrepare(); }
      } else {
        ReplayStoredProposal();
        if view !in blocks { return; }
        ReplayCachedPrepare(BlockHash(blocks[view]));
      }
    }

    method ReplayStoredProposal()
      requires Valid()
      modifies this, enclave, twin, log
      ensures Valid() && State() == ReplayProposal(cfg, old(State()))
    {
      hide RespondToLdrPrepare;
      var p := log.FirstLdrPrepare(view);
      if p.Some? && p.value.sign.isSet {
        RespondToProposal(p.value.block, p.value.acc, p.value.proof);
      }
    }

    method ReplayCachedPrepare(hash: Hash)
      requires Valid()
      modifies this, enclave, twin, log
      ensures Valid() && State() == ReplayCertificates(cfg, old(State()), hash)
      decreases |future|, 0
    {
      hide RespondToPrepare, ReplayPreCommit;
      var catchupView := view;
      var k := Future(Prepare, catchupView);
      if k !in future || future[k] == [] { return; }
      var qc := future[k][0];
      if !EqHashes(hash, qc.data.proph) { return; }
      future := Erase(future, k);
      RespondToPrepareMsg(qc);
      if view != catchupView { return; }
      ReplayCachedPreCommit(hash);
    }

    method ReplayCachedPreCommit(hash: Hash)
      requires Valid()
      modifies this, enclave, twin, log
      ensures Valid() && State() == ReplayPreCommit(cfg, old(State()), hash)
      decreases |future|, 5
    {
      hide StoreAndSend, ReplayCommit;
      var k := Future(PreCommit, view);
      if k !in future || future[k] == [] { return; }
      var qc := future[k][0];
      if !EqHashes(hash, qc.data.proph) { return; }
      future := Erase(future, k);
      StoreAndVote(qc, Commit);
      ReplayCachedCommit(hash);
    }

    method ReplayCachedCommit(hash: Hash)
      requires Valid()
      modifies this, enclave, twin, log
      ensures Valid() && State() == ReplayCommit(cfg, old(State()), hash)
      decreases |future|, 5
    {
      hide RespondToCommit;
      var k := Future(Commit, view);
      if k !in future || future[k] == [] { return; }
      var qc := future[k][0];
      if !EqHashes(hash, qc.data.proph) { return; }
      future := Erase(future, k);
      RespondToCommitMsg(qc);
    }

    method RespondToPrepareMsg(m: Vote)
      requires Valid()
      modifies this, enclave, twin, log
      ensures Valid() && State() == RespondToPrepare(cfg, old(State()), m)
      decreases |future|, 4
    {
      hide ValidQC, ExecuteComb, StoreAndSend;
      var valid := VerifyCombQC(cfg, m, Prepare);
      if valid {
        if cfg.IsTEE(cfg.LeaderOf(view)) {
          Execute(m.data);
        } else {
          StoreAndVote(m, PreCommit);
        }
      }
    }

    method RespondToCommitMsg(m: Vote)
      requires Valid()
      modifies this, enclave, twin, log
      ensures Valid() && State() == RespondToCommit(cfg, old(State()), m)
      decreases |future|, 4
    {
      hide ValidQC, ExecuteComb;
      var valid := VerifyCombQC(cfg, m, Commit);
      if valid { Execute(m.data); }
    }

    // ---- votes and certificates from the network

    /** Stores a vote and reads both counts back. */
    method CountVoteMsg(tag: Phase, m: Vote) returns (tee: nat, non: nat)
      requires Valid() && m.signs != []
      modifies log
      ensures Valid()
      ensures (log.State(), tee, non) == CountVote(cfg, old(log.State()), tag, m)
      ensures State() == old(State()).(log := log.State())
    {
      QuorumSizes(cfg);
      hide VoteLog.Store;
      var v := m.data.propv;
      tee, non := 0, 0;
      if cfg.IsTEE(m.signs[0].signer) {
        tee := log.StoreVote(Slot(tag, true, v), m);
        if tee != 0 {
          var signs := log.GetSignatures(Slot(tag, false, v), cfg.QSize());
          non := |signs|;
        }
      } else {
        non := log.StoreVote(Slot(tag, false, v), m);
        if non != 0 {
          var signs := log.GetSignatures(Slot(tag, true, v), cfg.TQSize());
          tee := |signs|;
        }
      }
    }

    method CertFromLog(tag: Phase, data: RData, fast: bool) returns (cert: Vote)
      requires Valid()
      ensures cert == LogCert(cfg, State(), tag, data, fast)
    {
      QuorumSizes(cfg);
      var signs;
      if fast {
        signs := log.GetSignatures(Slot(tag, true, data.propv), cfg.TQSize());
      } else {
        signs := log.GetMerged(tag, data.propv, cfg.QSize());
      }
      cert := Vote(data, signs);
    }

    method Decide(data: RData, fast: bool)
      requires Valid()
      modifies this, enclave, twin, log
      ensures Valid() && State() == DecideComb(cfg, old(State()), data, fast)
    {
      hide LogCert, ValidQC, ExecuteComb;
      var tag := if cfg.IsTEE(cfg.LeaderOf(view)) then Prepare else Commit;
      var cert := CertFromLog(tag, data, fast);
      var valid := VerifyCombQC(cfg, cert, tag);
      if valid {
        Send(VoteMsg(tag, cert));
        Execute(data);
      }
    }

    /** preCommitComb and commitComb. */
    method Advance(data: RData, fast: bool, tag: Phase, next: Phase)
      requires Valid()
      modifies this, enclave, twin, log
      ensures Valid() && State() == AdvanceComb(cfg, old(State()), data, fast, tag, next)
    {
      hide LogCert, ValidQC, StoreAndKeep;
      var cert := CertFromLog(tag, data, fast);
      var valid := VerifyCombQC(cfg, cert, tag);
      if valid {
        Send(VoteMsg(tag, cert));
        StoreAndKeepVote(cert, next);
      }
    }

    method StoreForLater(tag: Phase, m: Vote)
      requires Valid()
      modifies this, log
      ensures Valid() && State() == StoreFuture(cfg, old(State()), tag, m)
    {
      hide ValidQC, ValidVote, LogVote;
      var isCert := VerifyCombQC(cfg, m, tag);
      if isCert {
        var k := Future(tag, m.data.propv);
        future := future[k := SetInsert(if k in future then future[k] else [], m)];
      } else {
        var isVote := VerifyCombVote(cfg, m, tag);
        if isVote {
          VoteHasSigner(cfg, tag, m);
          StoreInLog(tag, cfg.IsTEE(m.signs[0].signer), m);
        }
      }
    }

    method HandlePrepareMsg(m: Vote)
      requires Valid()
      modifies this, enclave, twin, log
      ensures Valid() && State() == HandlePrepare(cfg, old(State()), m)
    {
      hide ValidQC, ValidVote, RespondToPrepare, StoreFuture, DecideComb, AdvanceComb, CountVote;
      var v := m.data.propv;
      if v > view {
        StoreForLater(Prepare, m);
      } else if v == view && cfg.LeaderOf(v) != id {
        var valid := VerifyCombQC(cfg, m, Prepare);
        if valid { RespondToPrepareMsg(m); }
      } else if v == view {
        var valid := VerifyCombVote(cfg, m, Prepare);
        if !valid { return; }
        VoteHasSigner(cfg, Prepare, m);
        var tee, non := CountVoteMsg(Prepare, m);
        if cfg.FastQC() && tee >= cfg.TQSize() && phase == Prepare {
          AfterPrepare(m.data, true);
        } else if tee + non == cfg.QSize() && phase == Prepare {
          AfterPrepare(m.data, false);
        }
      }
    }

    /** The leader has a PREPARE certificate: under a trusted leader it decides, otherwise it goes on. */
    method AfterPrepare(data: RData, fast: bool)
      requires Valid()
      modifies this, enclave, twin, log
      ensures Valid()
      ensures State() == if TeeLed(cfg, old(view)) then DecideComb(cfg, old(State()).(phase := NewView), data, fast)
                         else AdvanceComb(cfg, old(State()).(phase := PreCommit), data, fast, Prepare, PreCommit)
    {
      hide DecideComb, AdvanceComb;
      if cfg.IsTEE(cfg.LeaderOf(view)) {
        phase := NewView;
        Decide(data, fast);
      } else {
        phase := PreCommit;
        Advance(data, fast, Prepare, PreCommit);
      }
    }

    method HandlePreCommitMsg(m: Vote)
      requires Valid()
      modifies this, enclave, twin, log
      ensures Valid() && State() == HandlePreCommit(cfg, old(State()), m)
    {
      hide ValidQC, ValidVote, StoreAndSend, StoreFuture, AdvanceComb, CountVote;
      var v := m.data.propv;
      if v > view {
        StoreForLater(PreCommit, m);
      } else if v == view && cfg.LeaderOf(v) != id {
        var valid := VerifyCombQC(cfg, m, PreCommit);
        if valid { StoreAndVote(m, Commit); }
      } else if v == view {
        var valid := VerifyCombVote(cfg, m, PreCommit);
        if !valid { return; }
        VoteHasSigner(cfg, PreCommit, m);
        var tee, non := CountVoteMsg(PreCommit, m);
        if (tee == cfg.TQSize() || tee + non == cfg.QSize()) && phase == PreCommit {
          phase := Commit;
          Advance(m.data, tee == cfg.TQSize(), PreCommit, Commit);
        }
      }
    }

    method HandleCommitMsg(m: Vote)
      requires Valid()
      modifies this, enclave, twin, log
      ensures Valid() && State() == HandleCommit(cfg, old(State()), m)
    {
      hide ValidQC, ValidVote, RespondToCommit, StoreFuture, DecideComb, CountVote;
      var v := m.data.propv;
      if v > view {
        StoreForLater(Commit, m);
      } else if v == view && cfg.LeaderOf(v) != id {
        var valid := VerifyCombQC(cfg, m, Commit);
        if valid { RespondToCommitMsg(m); }
      } else if v == view {
        var valid := VerifyCombVote(cfg, m, Commit);
        if !valid { return; }
        VoteHasSigner(cfg, Commit, m);
        var tee, non := CountVoteMsg(Commit, m);
        if (tee == cfg.TQSize() || tee + non == cfg.QSize()) && phase == Commit {
          phase := NewView;
          Decide(m.data, tee == cfg.TQSize());
        }
      }
    }

    // ---- events

    method Begin()
      requires Valid()
      modifies this, enclave, twin, log
      ensures Valid() && State() == GetStarted(cfg, old(State()))
    {
      hide CallSign, HandleNewView;
      started := true;
      var j := CallTEEsign();
      Send(VoteMsg(NewView, j));
      if cfg.LeaderOf(view) == id { HandleNewViewMsg(j); }
    }

    method Receive(m: Msg)
      requires Valid()
      modifies this, enclave, twin, log
      ensures Valid() && State() == HandleMsg(cfg, old(State()), m)
    {
      hide HandleLdrPrepare, HandleNewView, HandlePrepare, HandlePreCommit, HandleCommit;
      inbox := inbox + {m};
      match m
      case LdrMsg(p) => HandleLdrPrepareMsg(p);
      case VoteMsg(NewView, v) => HandleNewViewMsg(v);
      case VoteMsg(Prepare, v) => HandlePrepareMsg(v);
      case VoteMsg(PreCommit, v) => HandlePreCommitMsg(v);
      case VoteMsg(Commit, v) => HandleCommitMsg(v);
    }

    /** One event: the object follows the step function that every run is made of. */
    method On(e: Event)
      requires Valid()
      modifies this, enclave, twin, log
      ensures Valid() && State() == Step(cfg, old(State()), e)
    {
      hide HandleMsg, GetStarted, StartNewView;
      match e
      case Submit(tx) => transactions := transactions + [tx];
      case Start => if !started { Begin(); }
      case Deliver(m) => if started { Receive(m); }
      case Timeout => if started { StartNextView(); }
    }
  }
}
