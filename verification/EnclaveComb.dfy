/** The enclave: the trusted component of a TEE replica.  Its globals are the fields of `Enclave`. */
module EnclaveComb {
  import opened Types
  import opened Certificates
  import opened TrustedMachine
  import opened Accumulators

  class Enclave {
    const cfg: Config
    const id: PID

    var preph: Hash
    var prepv: View
    var lockh: Hash
    var lockv: View
    var view: View
    var phase: Phase
    ghost var signed: seq<RData>  // every round signed so far

    ghost function State(): Trusted
      reads this
    {
      Trusted(view, phase, preph, prepv, lockh, lockv)
    }

    /** Nothing at or above the current (view, phase) has been signed; lockv <= prepv <= view. */
    ghost predicate Valid()
      reads this
    {
      Ordered(State()) && Increasing(signed) && Below(signed, StateKey(State()))
    }

    constructor (cfg: Config, id: PID)
      ensures this.cfg == cfg && this.id == id
      ensures Valid() && State() == INITIAL && signed == []
    {
      this.cfg, this.id := cfg, id;
      preph, prepv, lockh, lockv := NEW_HASH, 0, NEW_HASH, 0;
      view, phase := 1, NewView;
      signed := [];
    }

    method IncrementPhase()
      modifies this`view, this`phase
      ensures State() == Increment(old(State()))
    {
      if phase == NewView {
        phase := Prepare;
      } else if phase == Prepare {
        phase := PreCommit;
      } else if phase == PreCommit {
        phase := Commit;
      } else if phase == Commit {
        phase := NewView;
        view := view + 1;
      }
    }

    method SignData(h1: Hash, h2: Hash, v2: View) returns (j: Vote)
      modifies this`view, this`phase, this`signed
      ensures (State(), j) == SignRound(old(State()), id, h1, h2, v2)
      ensures signed == old(signed) + [j.data]
    {
      var data := RData(h1, view, h2, v2, phase);
      j := Vote(data, [Sign(true, id, RoundText(data))]);
      signed := signed + [data];
      IncrementPhase();
    }

    method ValidateNewViews(nvs: seq<OneJust>, acc: Accum) returns (b: bool)
      ensures b <==> ValidProof(cfg, view, nvs) && Summarises(acc, view, nvs)
                     && acc.isSet && SigOk(cfg, acc.sign, acc.Data())
    {
      if |nvs| == 0 || |nvs| > cfg.maxSigs || (|nvs| != cfg.QSize() && |nvs| != cfg.TQSize()) { return false; }
      var ok, allTEE, highest, highestHash := ScanNewViews(nvs);
      if !ok { return false; }
      var validType := |nvs| == cfg.QSize() || (|nvs| == cfg.TQSize() && allTEE);
      var sigOk := VerifyOne(cfg, acc.sign, acc.Data());
      return validType && acc.isSet && acc.view == view && acc.size == |nvs| && acc.prepv == highest
             && EqHashes(acc.hash, highestHash) && sigOk;
    }

    /** The loop of COMB_validateNewViews. */
    method ScanNewViews(nvs: seq<OneJust>) returns (ok: bool, allTEE: bool, highest: View, highestHash: Hash)
      requires cfg.maxSigs > 0
      ensures ok <==> (forall i :: 0 <= i < |nvs| ==> EntryOk(cfg, view, nvs[i])) && Distinct(EntrySigns(nvs))
      ensures ok ==> (allTEE <==> AllTEE(cfg, EntrySigns(nvs)))
      ensures ok ==> (highest, highestHash) == Highest(nvs)
    {
      ok, allTEE, highest, highestHash := true, true, 0, NEW_HASH;
      var signers: set<PID> := {};
      for i := 0 to |nvs|
        invariant ok && Scanned(cfg, view, nvs, i, signers, allTEE, highest, highestHash)
      {
        ScanStep(cfg, view, nvs, i, signers, allTEE, highest, highestHash);
        var entry := nvs[i];
        if !entry.isSet || entry.sign.signer !in cfg.nodes || entry.sign.signer in signers
           || entry.rdata.phase != NewView || entry.rdata.propv != view {
          return false, false, 0, NEW_HASH;
        }
        var verified := VerifyOne(cfg, entry.sign, RoundText(entry.rdata));
        if !verified { return false, false, 0, NEW_HASH; }
        signers := signers + {nvs[i].sign.signer};
        allTEE := allTEE && cfg.nodes[nvs[i].sign.signer];
        if nvs[i].rdata.justv >= highest {
          highest, highestHash := nvs[i].rdata.justv, nvs[i].rdata.justh;
        }
      }
      ScanDone(cfg, view, nvs, signers, allTEE, highest, highestHash);
    }

    method TEEsign() returns (j: Vote)
      requires Valid()
      modifies this`view, this`phase, this`signed
      ensures Valid()
      ensures (State(), j) == TeeSign(old(State()), id)
      ensures signed == old(signed) + [j.data]
    {
      PerformLaw(cfg, State(), id, SignCall);
      j := SignData(NO_HASH, preph, prepv);
      SignedGrows(old(signed), j.data, StateKey(State()));
    }

    method TEEprepare(block: Block, acc: Accum, nvs: seq<OneJust>) returns (res: Option<Vote>)
      requires Valid()
      modifies this
      ensures Valid()
      ensures (State(), res) == EnclavePrepare(cfg, old(State()), id, block, acc, nvs)
      ensures signed == if res.Some? then old(signed) + [res.value.data] else old(signed)
    {
      var hash := HashBlock(cfg, block);
      AcceptLaw(cfg, State(), id, hash, acc);
      var safeParent := EqHashes(block.prev, acc.hash) && (EqHashes(block.prev, lockh) || acc.prepv > lockv);
      var valid := ValidateNewViews(nvs, acc);
      if hash.isSet && valid && safeParent {
        if cfg.IsTEE(acc.sign.signer) {
          preph, prepv := hash, view;
        }
        var j := SignData(hash, acc.hash, acc.prepv);
        SignedGrows(old(signed), j.data, StateKey(State()));
        res := Some(j);
      } else {
        res := None;
      }
    }

    method TEEstore(cert: Vote) returns (res: Option<Vote>)
      requires Valid()
      modifies this
      ensures Valid()
      ensures (State(), res) == TeeStore(cfg, old(State()), id, cert)
      ensures signed == if res.Some? then old(signed) + [res.value.data] else old(signed)
    {
      StoreLaw(cfg, State(), id, cert);
      var validQC := EnclaveValidCert(cfg, cert);
      var ph := cert.data.phase;
      if validQC && view == cert.data.propv && (ph == Prepare || ph == PreCommit) {
        preph, prepv := cert.data.proph, cert.data.propv;
        if ph == PreCommit {
          lockh, lockv := cert.data.proph, cert.data.propv;
        }
        var j := SignData(cert.data.proph, NEW_HASH, 0);
        SignedGrows(old(signed), j.data, StateKey(State()));
        res := Some(j);
      } else {
        res := None;
      }
    }

    method TEEaccum(js: seq<OneJust>) returns (acc: Accum)
      requires |js| == cfg.maxSigs && cfg.maxSigs > 0
      ensures acc == Accumulate(cfg, true, id, js)
    {
      var v := js[0].rdata.propv;
      var highest: View := 0;
      var hash := NEW_HASH;
      var signers: set<PID> := {};
      var i := 0;
      while i < cfg.maxSigs && i < cfg.QSize()
        invariant 0 <= i <= Window(cfg)
        invariant Tally(signers, highest, hash) == TallyUp(cfg, true, v, js[..i])
      {
        assert js[..i + 1][..i] == js[..i];
        var just := js[i];
        var verified := VerifyOne(cfg, just.sign, RoundText(just.rdata));
        if just.rdata.phase == NewView && just.rdata.propv == v && just.sign.signer !in signers && verified {
          signers := signers + {just.sign.signer};
          if just.rdata.justv >= highest {
            highest, hash := just.rdata.justv, just.rdata.justh;
          }
        }
        i := i + 1;
      }
      acc := SignedAccum(id, v, highest, hash, |signers|);
    }

    method TEEaccumSp(data: RData, signs: seq<Sign>) returns (acc: Accum)
      ensures acc == AccumulateSp(cfg, true, id, data, signs)
    {
      var signers: set<PID> := {};
      var verified := VerifySigns(cfg, signs, RoundText(data));
      if data.phase == NewView && verified {
        var i := 0;
        while i < cfg.maxSigs && i < cfg.QSize() && i < |signs|
          invariant 0 <= i <= |signs| && i <= Window(cfg)
          invariant signers == SignersOf(signs[..i])
        {
          ExtendSigners(signs, i);
          signers := signers + {signs[i].signer};
          i := i + 1;
        }
      }
      acc := SignedAccum(id, data.propv, data.justv, data.justh, |signers|);
    }
  }
}
