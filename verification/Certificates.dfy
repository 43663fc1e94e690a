/** Certificates and the three validators that accept them: the handler's, the enclave's and the
    software twin's.  Each loop is proved to decide the same declarative predicate `ValidCert`. */
module Certificates {
  import opened Types
  import opened Quorums

  /** A set signature of a known replica on `text`. */
  predicate SigOk(cfg: Config, s: Sign, text: Text) {
    s.isSet && s.signer in cfg.nodes && s.text == text
  }

  predicate AllTEE(cfg: Config, signs: seq<Sign>) {
    forall i :: 0 <= i < |signs| ==> cfg.IsTEE(signs[i].signer)
  }

  predicate ValidSigs(cfg: Config, text: Text, signs: seq<Sign>) {
    && 0 < |signs| <= cfg.maxSigs
    && (forall i :: 0 <= i < |signs| ==> SigOk(cfg, signs[i], text))
    && Distinct(signs)
  }

  /** Right size, distinct known signers, trusted ones only when of size QT but not 2f+1, every
      signature valid. */
  predicate ValidCert(cfg: Config, data: RData, signs: seq<Sign>) {
    && ValidSigs(cfg, RoundText(data), signs)
    && (|signs| == cfg.QSize() || (|signs| == cfg.TQSize() && AllTEE(cfg, signs)))
  }

  predicate ValidQC(cfg: Config, ph: Phase, v: Vote) {
    v.data.phase == ph && ValidCert(cfg, v.data, v.signs)
  }

  /** A single vote for phase `ph`. */
  predicate ValidVote(cfg: Config, ph: Phase, v: Vote) {
    v.data.phase == ph && |v.signs| == 1 && ValidSigs(cfg, RoundText(v.data), v.signs)
  }

  lemma VoteHasSigner(cfg: Config, ph: Phase, v: Vote)
    requires ValidVote(cfg, ph, v)
    ensures |v.signs| == 1
  {
  }

  lemma CertSigners(cfg: Config, data: RData, signs: seq<Sign>)
    requires cfg.Valid() && ValidCert(cfg, data, signs)
    ensures IsQuorum(cfg, SignersOf(signs))
  {
    DistinctSignersCount(signs);
  }

  // ---- the enclave

  method VerifySigns(cfg: Config, signs: seq<Sign>, text: Text) returns (b: bool)
    ensures b <==> ValidSigs(cfg, text, signs)
  {
    if |signs| == 0 || |signs| > cfg.maxSigs { return false; }
    var unique: set<PID> := {};
    for i := 0 to |signs|
      invariant unique == SignersOf(signs[..i])
      invariant forall k :: 0 <= k < i ==> SigOk(cfg, signs[k], text)
      invariant Distinct(signs[..i])
    {
      var sign := signs[i];
      if !sign.isSet || sign.signer in unique { return false; }
      unique := unique + {sign.signer};
      ExtendSigners(signs, i);
      if sign.signer in cfg.nodes {
        if sign.text != text { return false; }
      } else { return false; }
    }
    assert signs[..|signs|] == signs;
    return true;
  }

  /** verifyText on a list of one signature. */
  method VerifyOne(cfg: Config, sign: Sign, text: Text) returns (b: bool)
    requires cfg.maxSigs > 0
    ensures b <==> SigOk(cfg, sign, text)
  {
    b := VerifySigns(cfg, [sign], text);
    assert [sign][0] == sign;
  }

  /** Growing a signer set by one position. */
  lemma ExtendSigners(signs: seq<Sign>, i: nat)
    requires i < |signs|
    ensures SignersOf(signs[..i + 1]) == SignersOf(signs[..i]) + {signs[i].signer}
    ensures signs[i].signer in SignersOf(signs[..i]) ==> !Distinct(signs)
    ensures signs[i].signer !in SignersOf(signs[..i]) && Distinct(signs[..i]) ==> Distinct(signs[..i + 1])
  {
    assert signs[..i + 1] == signs[..i] + [signs[i]];
    SignersSnoc(signs[..i], signs[i]);
  }

  method VerifyQuorum(cfg: Config, signs: seq<Sign>, text: Text, expectedSize: nat, teeOnly: bool) returns (b: bool)
    ensures b <==> |signs| == expectedSize && ValidSigs(cfg, text, signs) && (teeOnly ==> AllTEE(cfg, signs))
  {
    if expectedSize == 0 || expectedSize > cfg.maxSigs || |signs| != expectedSize { return false; }
    for i := 0 to |signs|
      invariant forall k :: 0 <= k < i ==> signs[k].signer in cfg.nodes && (teeOnly ==> cfg.IsTEE(signs[k].signer))
    {
      if signs[i].signer !in cfg.nodes || (teeOnly && !cfg.nodes[signs[i].signer]) { return false; }
    }
    b := VerifySigns(cfg, signs, text);
  }

  /** The certificate test of COMB_TEEstore. */
  method EnclaveValidCert(cfg: Config, v: Vote) returns (b: bool)
    ensures b <==> ValidCert(cfg, v.data, v.signs)
  {
    b := false;
    if |v.signs| == cfg.TQSize() { b := VerifyQuorum(cfg, v.signs, RoundText(v.data), cfg.TQSize(), true); }
    if !b && |v.signs| == cfg.QSize() { b := VerifyQuorum(cfg, v.signs, RoundText(v.data), cfg.QSize(), false); }
  }

  // ---- the handler

  /** Signs::verify: known signers and valid signatures, nothing else. */
  predicate AppVerifies(cfg: Config, signs: seq<Sign>, text: Text) {
    forall i :: 0 <= i < |signs| ==> signs[i].signer in cfg.nodes && signs[i].text == text
  }

  method SignsVerify(cfg: Config, signs: seq<Sign>, text: Text) returns (b: bool)
    ensures b <==> AppVerifies(cfg, signs, text)
  {
    for i := 0 to |signs|
      invariant forall k :: 0 <= k < i ==> signs[k].signer in cfg.nodes && signs[k].text == text
    {
      if signs[i].signer in cfg.nodes {
        if signs[i].text != text { return false; }
      } else { return false; }
    }
    return true;
  }

  method VerifyCombSigns(cfg: Config, data: RData, signs: seq<Sign>, expectedSize: nat, teeOnly: bool) returns (b: bool)
    ensures b <==> |signs| == expectedSize && ValidSigs(cfg, RoundText(data), signs) && (teeOnly ==> AllTEE(cfg, signs))
  {
    if expectedSize == 0 || expectedSize > cfg.maxSigs || |signs| != expectedSize { return false; }
    var unique: set<PID> := {};
    for i := 0 to |signs|
      invariant unique == SignersOf(signs[..i])
      invariant forall k :: 0 <= k < i ==> signs[k].isSet && signs[k].signer in cfg.nodes
      invariant teeOnly ==> forall k :: 0 <= k < i ==> cfg.IsTEE(signs[k].signer)
      invariant Distinct(signs[..i])
    {
      ExtendSigners(signs, i);
      var signer := signs[i].signer;
      if !signs[i].isSet || signer !in cfg.nodes || signer in unique { return false; }
      unique := unique + {signer};
      if teeOnly && !cfg.nodes[signer] { return false; }
    }
    assert signs[..|signs|] == signs;
    b := SignsVerify(cfg, signs, RoundText(data));
  }

  method VerifyCombQC(cfg: Config, v: Vote, expectedPhase: Phase) returns (b: bool)
    ensures b <==> ValidQC(cfg, expectedPhase, v)
  {
    if v.data.phase != expectedPhase { return false; }
    if |v.signs| == cfg.TQSize() {
      b := VerifyCombSigns(cfg, v.data, v.signs, cfg.TQSize(), true);
      if b { return true; }
    }
    if |v.signs| == cfg.QSize() {
      b := VerifyCombSigns(cfg, v.data, v.signs, cfg.QSize(), false);
      return;
    }
    return false;
  }

  method VerifyCombVote(cfg: Config, v: Vote, expectedPhase: Phase) returns (b: bool)
    ensures b <==> ValidVote(cfg, expectedPhase, v)
  {
    if v.data.phase != expectedPhase { return false; }
    b := VerifyCombSigns(cfg, v.data, v.signs, 1, false);
  }

  // ---- the software twin

  /** The twin's scan of the signers: set, known and pairwise distinct, and whether all are trusted. */
  method TwinScan(cfg: Config, signs: seq<Sign>) returns (ok: bool, allTEE: bool)
    ensures ok <==> (forall i :: 0 <= i < |signs| ==> signs[i].isSet && signs[i].signer in cfg.nodes) && Distinct(signs)
    ensures ok ==> (allTEE <==> AllTEE(cfg, signs))
  {
    var unique: set<PID> := {};
    ok, allTEE := true, true;
    for i := 0 to |signs|
      invariant unique == SignersOf(signs[..i])
      invariant forall k :: 0 <= k < i ==> signs[k].isSet && signs[k].signer in cfg.nodes
      invariant ok
      invariant allTEE ==> forall k :: 0 <= k < i ==> cfg.IsTEE(signs[k].signer)
      invariant !allTEE ==> exists k :: 0 <= k < i && !cfg.IsTEE(signs[k].signer)
      invariant Distinct(signs[..i])
    {
      ExtendSigners(signs, i);
      var signer := signs[i].signer;
      if !signs[i].isSet || signer !in cfg.nodes || signer in unique { return false, false; }
      unique := unique + {signer};
      allTEE := allTEE && cfg.nodes[signer];
    }
    assert signs[..|signs|] == signs;
  }

  method TwinVerifyQuorum(cfg: Config, data: RData, signs: seq<Sign>) returns (b: bool)
    ensures b <==> ValidCert(cfg, data, signs)
  {
    if (|signs| != cfg.TQSize() && |signs| != cfg.QSize()) || |signs| == 0 || |signs| > cfg.maxSigs { return false; }
    var ok, allTEE := TwinScan(cfg, signs);
    if !ok { return false; }
    if |signs| != cfg.QSize() && !(|signs| == cfg.TQSize() && allTEE) { return false; }
    b := SignsVerify(cfg, signs, RoundText(data));
  }
}
