/** The accumulator: from the new-views of a view to one signed statement of the highest claim. */
module Accumulators {
  import opened Types
  import opened Certificates
  import opened TrustedMachine

  datatype Tally = Tally(signers: set<PID>, highest: View, hash: Hash)

  /** An entry that TEEaccum counts; only the enclave looks at the `set` flag of the signature. */
  predicate Counted(cfg: Config, enclave: bool, v: View, e: OneJust) {
    && e.rdata.phase == NewView
    && e.rdata.propv == v
    && e.sign.signer in cfg.nodes
    && e.sign.text == RoundText(e.rdata)
    && (enclave ==> e.sign.isSet)
  }

  function TallyEntry(cfg: Config, enclave: bool, v: View, t: Tally, e: OneJust): Tally {
    if Counted(cfg, enclave, v, e) && e.sign.signer !in t.signers then
      var signers := t.signers + {e.sign.signer};
      if e.rdata.justv >= t.highest then Tally(signers, e.rdata.justv, e.rdata.justh)
      else t.(signers := signers)
    else t
  }

  function TallyUp(cfg: Config, enclave: bool, v: View, es: seq<OneJust>): Tally {
    if es == [] then Tally({}, 0, NEW_HASH)
    else TallyEntry(cfg, enclave, v, TallyUp(cfg, enclave, v, es[..|es| - 1]), es[|es| - 1])
  }

  function SignedAccum(id: PID, v: View, highest: View, hash: Hash, size: nat): Accum {
    Accum(true, v, highest, hash, size, Sign(true, id, AccumText(true, v, highest, hash, size)))
  }

  /** How many array slots both accumulators look at. */
  function Window(cfg: Config): nat {
    if cfg.maxSigs < cfg.QSize() then cfg.maxSigs else cfg.QSize()
  }

  /** TEEaccum on the array of new-views; unused slots hold NO_JUST. */
  function Accumulate(cfg: Config, enclave: bool, id: PID, js: seq<OneJust>): Accum
    requires |js| == cfg.maxSigs && cfg.maxSigs > 0
  {
    var v := js[0].rdata.propv;
    var t := TallyUp(cfg, enclave, v, js[..Window(cfg)]);
    SignedAccum(id, v, t.highest, t.hash, |t.signers|)
  }

  /** The signers TEEaccumSp counts: the enclave verifies the list as a whole, the twin one by one. */
  function SpSigners(cfg: Config, enclave: bool, data: RData, signs: seq<Sign>): set<PID> {
    var n := if |signs| < Window(cfg) then |signs| else Window(cfg);
    if data.phase != NewView then {}
    else if enclave then
      if ValidSigs(cfg, RoundText(data), signs) then SignersOf(signs[..n]) else {}
    else
      set i | 0 <= i < n && signs[i].signer in cfg.nodes && signs[i].text == RoundText(data) :: signs[i].signer
  }

  /** TEEaccumSp, for new-views that all carry `data`. */
  function AccumulateSp(cfg: Config, enclave: bool, id: PID, data: RData, signs: seq<Sign>): Accum {
    SignedAccum(id, data.propv, data.justv, data.justh, |SpSigners(cfg, enclave, data, signs)|)
  }

  // ---- what the tally means

  /** Entry i is the first counted entry of its signer. */
  predicate FirstOfSigner(cfg: Config, enclave: bool, v: View, es: seq<OneJust>, i: nat)
    requires i < |es|
  {
    && Counted(cfg, enclave, v, es[i])
    && forall k :: 0 <= k < i && Counted(cfg, enclave, v, es[k]) ==> es[k].sign.signer != es[i].sign.signer
  }

  function CountedSigners(cfg: Config, enclave: bool, v: View, es: seq<OneJust>): set<PID> {
    set i | 0 <= i < |es| && Counted(cfg, enclave, v, es[i]) :: es[i].sign.signer
  }

  /** TEEaccum counts exactly the distinct signers with a valid claim. */
  lemma {:induction false} TallySigners(cfg: Config, enclave: bool, v: View, es: seq<OneJust>)
    ensures TallyUp(cfg, enclave, v, es).signers == CountedSigners(cfg, enclave, v, es)
  {
    if es != [] {
      var last := |es| - 1;
      var init := es[..last];
      TallySigners(cfg, enclave, v, init);
      assert forall i :: 0 <= i < last ==> init[i] == es[i];
      forall p | p in CountedSigners(cfg, enclave, v, es)
        ensures p in CountedSigners(cfg, enclave, v, init)
          || (Counted(cfg, enclave, v, es[last]) && p == es[last].sign.signer)
      {
        var i :| 0 <= i < |es| && Counted(cfg, enclave, v, es[i]) && es[i].sign.signer == p;
        if i < last { assert Counted(cfg, enclave, v, init[i]); }
      }
      assert CountedSigners(cfg, enclave, v, init) <= CountedSigners(cfg, enclave, v, es);
    }
  }

  lemma {:induction false} TallyEmpty(cfg: Config, enclave: bool, v: View, es: seq<OneJust>)
    requires TallyUp(cfg, enclave, v, es).signers == {}
    ensures TallyUp(cfg, enclave, v, es) == Tally({}, 0, NEW_HASH)
  {
    if es != [] {
      var t := TallyUp(cfg, enclave, v, es[..|es| - 1]);
      assert t.signers <= TallyEntry(cfg, enclave, v, t, es[|es| - 1]).signers;
      TallyEmpty(cfg, enclave, v, es[..|es| - 1]);
    }
  }

  /** What TEEaccum reports is a bound of the first valid claim of every signer ... */
  lemma {:induction false} TallyBounds(cfg: Config, enclave: bool, v: View, es: seq<OneJust>, i: nat)
    requires i < |es| && FirstOfSigner(cfg, enclave, v, es, i)
    ensures es[i].rdata.justv <= TallyUp(cfg, enclave, v, es).highest
  {
    var last := |es| - 1;
    var init := es[..last];
    TallySigners(cfg, enclave, v, init);
    if i < last {
      assert forall k :: 0 <= k <= i ==> init[k] == es[k];
      TallyBounds(cfg, enclave, v, init, i);
    } else {
      forall p | p in CountedSigners(cfg, enclave, v, init) ensures p != es[last].sign.signer {
        var k :| 0 <= k < |init| && Counted(cfg, enclave, v, init[k]) && init[k].sign.signer == p;
        assert es[k] == init[k];
      }
    }
  }

  /** ... and is attained by one of them, whose hash it carries. */
  lemma {:induction false} TallyAttained(cfg: Config, enclave: bool, v: View, es: seq<OneJust>) returns (k: nat)
    requires TallyUp(cfg, enclave, v, es).signers != {}
    ensures k < |es| && FirstOfSigner(cfg, enclave, v, es, k)
    ensures var t := TallyUp(cfg, enclave, v, es); t.highest == es[k].rdata.justv && t.hash == es[k].rdata.justh
  {
    var last := |es| - 1;
    var init := es[..last];
    var t0 := TallyUp(cfg, enclave, v, init);
    TallySigners(cfg, enclave, v, init);
    assert forall i :: 0 <= i < last ==> init[i] == es[i];
    if Counted(cfg, enclave, v, es[last]) && es[last].sign.signer !in t0.signers
       && es[last].rdata.justv >= t0.highest {
      k := last;
      forall i | 0 <= i < last && Counted(cfg, enclave, v, es[i])
        ensures es[i].sign.signer != es[last].sign.signer
      {
        assert Counted(cfg, enclave, v, init[i]);
        assert init[i].sign.signer in CountedSigners(cfg, enclave, v, init);
      }
    } else {
      if t0.signers == {} { TallyEmpty(cfg, enclave, v, init); }
      k := TallyAttained(cfg, enclave, v, init);
      assert forall i :: 0 <= i <= k ==> init[i] == es[i];
    }
  }

  /** A valid proof is counted in full, so its accumulator summarises it. */
  lemma {:induction false} TallyOfProof(cfg: Config, enclave: bool, v: View, es: seq<OneJust>)
    requires forall i :: 0 <= i < |es| ==> Counted(cfg, enclave, v, es[i])
    requires Distinct(EntrySigns(es))
    ensures TallyUp(cfg, enclave, v, es) == Tally(SignersOf(EntrySigns(es)), Highest(es).0, Highest(es).1)
  {
    if es != [] {
      var last := |es| - 1;
      var init := es[..last];
      var signs := EntrySigns(es);
      assert EntrySigns(init) == signs[..last];
      assert signs[..last + 1] == signs;
      TallyOfProof(cfg, enclave, v, init);
      ExtendSigners(signs, last);
      assert signs[last].signer !in SignersOf(signs[..last]);
    }
  }

  /** Slots that are not counted do not change the tally. */
  lemma {:induction false} TallyIgnores(cfg: Config, enclave: bool, v: View, es: seq<OneJust>, pad: seq<OneJust>)
    requires forall i :: 0 <= i < |pad| ==> !Counted(cfg, enclave, v, pad[i])
    ensures TallyUp(cfg, enclave, v, es + pad) == TallyUp(cfg, enclave, v, es)
  {
    if pad == [] {
      assert es + pad == es;
    } else {
      var last := |pad| - 1;
      assert (es + pad)[..|es + pad| - 1] == es + pad[..last];
      TallyIgnores(cfg, enclave, v, es, pad[..last]);
    }
  }

  /** The fast accumulator refines the general one: on new-views with the same data and distinct valid
      signers, both return the same accumulator. */
  lemma FastAccumulatorRefines(cfg: Config, enclave: bool, id: PID, data: RData, signs: seq<Sign>, js: seq<OneJust>)
    requires cfg.Valid() && data.phase == NewView
    requires ValidSigs(cfg, RoundText(data), signs) && |signs| <= cfg.QSize()
    requires |js| == cfg.maxSigs
    requires forall i :: 0 <= i < |signs| ==> js[i] == OneJust(true, data, signs[i])
    requires forall i :: |signs| <= i < |js| ==> js[i] == NO_JUST
    ensures Accumulate(cfg, enclave, id, js) == AccumulateSp(cfg, enclave, id, data, signs)
  {
    var v := data.propv;
    var es := js[..|signs|];
    var pad := js[|signs|..Window(cfg)];
    assert js[..Window(cfg)] == es + pad;
    TallyIgnores(cfg, enclave, v, es, pad);
    TallyOfSame(cfg, enclave, data, signs, es);
    assert signs[..|signs|] == signs;
    assert SpSigners(cfg, enclave, data, signs) == SignersOf(signs);
  }

  lemma TallyOfSame(cfg: Config, enclave: bool, data: RData, signs: seq<Sign>, es: seq<OneJust>)
    requires data.phase == NewView && ValidSigs(cfg, RoundText(data), signs)
    requires |es| == |signs| && forall i :: 0 <= i < |es| ==> es[i] == OneJust(true, data, signs[i])
    ensures TallyUp(cfg, enclave, data.propv, es) == Tally(SignersOf(signs), data.justv, data.justh)
  {
    assert EntrySigns(es) == signs;
    TallyOfProof(cfg, enclave, data.propv, es);
    HighestOfSame(es, data);
  }

  lemma {:induction false} HighestOfSame(es: seq<OneJust>, data: RData)
    requires es != [] && forall i :: 0 <= i < |es| ==> es[i].rdata == data
    ensures Highest(es) == (data.justv, data.justh)
  {
    if |es| > 1 { HighestOfSame(es[..|es| - 1], data); }
  }
}
