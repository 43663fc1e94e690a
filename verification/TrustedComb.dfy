/** The software twin of the trusted component, run by replicas without a TEE. */
module TrustedComb {
  import opened Types
  import opened Certificates
  import opened TrustedMachine
  import opened Accumulators

  class Twin {
    const cfg: Config
    const id: PID

    var preph: Hash
    var prepv: View
    var lockh: Hash
    var lockv: View
    var view: View
    var phase: Phase
    ghost var signed: seq<RData>

    ghost function State(): Trusted
      reads this
    {
      Trusted(view, phase, preph, prepv, lockh, lockv)
    }

    ghost predicate Valid()
      reads this
    {
      Ordered(State()) && Increasing(signed) && Below(signed, StateKey(State()))
    }

    constructor (cfg: Config, id: PID)
      ensures this.cfg == cfg && this.id == id
      ensures Valid() && State() == INITIAL && signed == []
    {
      this.cfg, this.id := cfg, id;
      preph, prepv, lockh, lockv := NEW_HASH, 0, NEW_HASH, 0;
      view, phase := 1, NewView;
      signed := [];
    }

    method IncrementPhase()
      modifies this`view, this`phase
      ensures State() == Increment(old(State()))
    {
      if phase == NewView {
        phase := Prepare;
      } else if phase == Prepare {
        phase := PreCommit;
      } else if phase == PreCommit {
        phase := Commit;
      } else if phase == Commit {
        phase := NewView;
        view := view + 1;
      }
    }

    method SignData(h1: Hash, h2: Hash, v2: View) returns (j: Vote)
      modifies this`view, this`phase, this`signed
      ensures (State(), j) == SignRound(old(State()), id, h1, h2, v2)
      ensures signed == old(signed) + [j.data]
    {
      var data := RData(h1, view, h2, v2, phase);
      j := Vote(data, [Sign(true, id, RoundText(data))]);
      signed := signed + [data];
      IncrementPhase();
    }

    method TEEsign() returns (j: Vote)
      requires Valid()
      modifies this`view, this`phase, this`signed
      ensures Valid()
      ensures (State(), j) == TeeSign(old(State()), id)
      ensures signed == old(signed) + [j.data]
    {
      PerformLaw(cfg, State(), id, SignCall);
      j := SignData(NO_HASH, preph, prepv);
      SignedGrows(old(signed), j.data, StateKey(State()));
    }

    method CheckEntry(raw: OneJust) returns (b: bool)
      ensures b <==> EntryOk(cfg, view, raw)
    {
      var verified := SignsVerify(cfg, [raw.sign], RoundText(raw.rdata));
      assert [raw.sign][0] == raw.sign;
      b := raw.isSet && raw.sign.signer in cfg.nodes && raw.sign.isSet
           && raw.rdata.phase == NewView && raw.rdata.propv == view && verified;
    }

    /** The proof loop of TEEprepare, which stops at the first bad entry. */
    method ScanProof(nvs: seq<OneJust>) returns (validProof: bool, allTEE: bool, highest: View, highestHash: Hash)
      ensures validProof <==> (forall i :: 0 <= i < |nvs| ==> EntryOk(cfg, view, nvs[i])) && Distinct(EntrySigns(nvs))
      ensures validProof ==> (allTEE <==> AllTEE(cfg, EntrySigns(nvs)))
      ensures validProof ==> (highest, highestHash) == Highest(nvs)
    {
      validProof, allTEE, highest, highestHash := true, true, 0, NEW_HASH;
      var signers: set<PID> := {};
      for i := 0 to |nvs|
        invariant validProof && Scanned(cfg, view, nvs, i, signers, allTEE, highest, highestHash)
      {
        ScanStep(cfg, view, nvs, i, signers, allTEE, highest, highestHash);
        var entryOk := CheckEntry(nvs[i]);
        if !entryOk || nvs[i].sign.signer in signers { return false, false, 0, NEW_HASH; }
        signers := signers + {nvs[i].sign.signer};
        allTEE := allTEE && cfg.nodes[nvs[i].sign.signer];
        if nvs[i].rdata.justv >= highest {
          highest, highestHash := nvs[i].rdata.justv, nvs[i].rdata.justh;
        }
      }
      ScanDone(cfg, view, nvs, signers, allTEE, highest, highestHash);
    }

    method TEEprepare(block: Block, acc: Accum, nvs: seq<OneJust>) returns (res: Option<Vote>)
      requires Valid()
      modifies this
      ensures Valid()
      ensures (State(), res) == TwinPrepare(cfg, old(State()), id, block, acc, nvs)
      ensures signed == if res.Some? then old(signed) + [res.value.data] else old(signed)
    {
      var hash := BlockHash(block);
      AcceptLaw(cfg, State(), id, hash, acc);
      var validProof := |nvs| > 0 && |nvs| <= cfg.maxSigs && (|nvs| == cfg.QSize() || |nvs| == cfg.TQSize());
      if validProof {
        var ok, allTEE, highest, highestHash := ScanProof(nvs);
        validProof := ok && (|nvs| == cfg.QSize() || (|nvs| == cfg.TQSize() && allTEE))
                      && acc.size == |nvs| && acc.view == view && acc.prepv == highest
                      && EqHashes(acc.hash, highestHash);
      }
      var safeParent := Extends(block, acc.hash) && (EqHashes(block.prev, lockh) || acc.prepv > lockv);
      var sigOk := SignsVerify(cfg, [acc.sign], acc.Data());
      if validProof && safeParent && sigOk {
        if cfg.IsTEE(acc.sign.signer) {
          preph, prepv := hash, view;
        }
        var j := SignData(hash, acc.hash, acc.prepv);
        SignedGrows(old(signed), j.data, StateKey(State()));
        res := Some(j);
      } else {
        res := None;
      }
    }

    method TEEstore(cert: Vote) returns (res: Option<Vote>)
      requires Valid()
      modifies this
      ensures Valid()
      ensures (State(), res) == TeeStore(cfg, old(State()), id, cert)
      ensures signed == if res.Some? then old(signed) + [res.value.data] else old(signed)
    {
      StoreLaw(cfg, State(), id, cert);
      var ph := cert.data.phase;
      var valid := TwinVerifyQuorum(cfg, cert.data, cert.signs);
      if valid && view == cert.data.propv && (ph == Prepare || ph == PreCommit) {
        preph, prepv := cert.data.proph, cert.data.propv;
        if ph == PreCommit {
          lockh, lockv := cert.data.proph, cert.data.propv;
        }
        var j := SignData(cert.data.proph, NEW_HASH, 0);
        SignedGrows(old(signed), j.data, StateKey(State()));
        res := Some(j);
      } else {
        res := None;
      }
    }

    method TEEaccum(js: seq<OneJust>) returns (acc: Accum)
      requires |js| == cfg.maxSigs && cfg.maxSigs > 0
      ensures acc == Accumulate(cfg, false, id, js)
    {
      var v := js[0].rdata.propv;
      var highest: View := 0;
      var hash := NEW_HASH;
      var signers: set<PID> := {};
      var i := 0;
      while i < cfg.maxSigs && i < cfg.QSize()
        invariant 0 <= i <= Window(cfg)
        invariant Tally(signers, highest, hash) == TallyUp(cfg, false, v, js[..i])
      {
        assert js[..i + 1][..i] == js[..i];
        var just := js[i];
        var verified := SignsVerify(cfg, [just.sign], RoundText(just.rdata));
        assert [just.sign][0] == just.sign;
        if just.rdata.phase == NewView && just.rdata.propv == v && just.sign.signer !in signers && verified {
          signers := signers + {just.sign.signer};
          if just.rdata.justv >= highest {
            highest, hash := just.rdata.justv, just.rdata.justh;
          }
        }
        i := i + 1;
      }
      acc := SignedAccum(id, v, highest, hash, |signers|);
    }

    method TEEaccumSp(data: RData, signs: seq<Sign>) returns (acc: Accum)
      ensures acc == AccumulateSp(cfg, false, id, data, signs)
    {
      var signers: set<PID> := {};
      ghost var n := if |signs| < Window(cfg) then |signs| else Window(cfg);
      if data.phase == NewView {
        var i := 0;
        while i < cfg.maxSigs && i < cfg.QSize() && i < |signs|
          invariant 0 <= i <= n
          invariant signers == set k | 0 <= k < i && signs[k].signer in cfg.nodes
                                       && signs[k].text == RoundText(data) :: signs[k].signer
        {
          var verified := SignsVerify(cfg, [signs[i]], RoundText(data));
          assert [signs[i]][0] == signs[i];
          if signs[i].signer !in signers && verified { signers := signers + {signs[i].signer}; }
          i := i + 1;
        }
      }
      acc := SignedAccum(id, data.propv, data.justv, data.justh, |signers|);
    }
  }
}
