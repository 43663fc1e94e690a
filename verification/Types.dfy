/** The values the basic hybrid protocol exchanges, and the configuration of a deployment.

    Cryptography is ideal.  A digest is either the all-'0' value of the genesis block or carries the
    hashed block, so hashing is injective and the parent chain of a block is part of its digest; a
    signature carries the text it was made on, so it verifies on that text and on no other. */
module Types {

  type PID = nat
  type View = nat

  /** PH1_NEWVIEW .. PH1_COMMIT; also the tag of a vote message and the leader's own phase. */
  datatype Phase = NewView | Prepare | PreCommit | Commit

  function PhaseIndex(ph: Phase): nat {
    match ph
    case NewView => 0
    case Prepare => 1
    case PreCommit => 2
    case Commit => 3
  }

  datatype Option<+T> = None | Some(value: T)

  datatype Transaction = Transaction(clientid: nat, transid: nat, data: string)

  datatype Block = Block(id: nat, isSet: bool, prev: Hash, txs: seq<Transaction>)

  datatype Digest = Genesis | Of(block: Block)

  /** A hash carries a `set` flag (here `isSet`) that equality of hashes ignores but that is part of every
      signed text. */
  datatype Hash = Hash(digest: Digest, isSet: bool)

  const NEW_HASH := Hash(Genesis, true)
  const NO_HASH := Hash(Genesis, false)

  predicate EqHashes(h1: Hash, h2: Hash) {
    h1.digest == h2.digest
  }

  /** Block::hash: always a set hash. */
  function BlockHash(b: Block): Hash {
    Hash(Of(b), true)
  }

  predicate Extends(b: Block, h: Hash) {
    EqHashes(b.prev, h)
  }

  datatype RData = RData(proph: Hash, propv: View, justh: Hash, justv: View, phase: Phase)

  /** RData::operator==, which compares hashes up to their `set` flags. */
  predicate SameRound(d1: RData, d2: RData) {
    && EqHashes(d1.proph, d2.proph)
    && d1.propv == d2.propv
    && EqHashes(d1.justh, d2.justh)
    && d1.justv == d2.justv
    && d1.phase == d2.phase
  }

  /** What a signature was made on; `Garbage` stands for bytes that verify on nothing. */
  datatype Text =
    | RoundText(data: RData)
    | AccumText(isSet: bool, view: View, prepv: View, hash: Hash, size: nat)
    | Garbage

  datatype Sign = Sign(isSet: bool, signer: PID, text: Text)

  const NO_SIGN := Sign(false, 0, Garbage)

  datatype Accum = Accum(isSet: bool, view: View, prepv: View, hash: Hash, size: nat, sign: Sign) {
    function Data(): Text { AccumText(isSet, view, prepv, hash, size) }
  }

  /** Round data with its signatures: the payload of every vote message and certificate. */
  datatype Vote = Vote(data: RData, signs: seq<Sign>)

  /** A replica's own vote for a round. */
  function SingleVote(p: PID, d: RData): Vote { Vote(d, [Sign(true, p, RoundText(d))]) }

  /** One entry of a new-view proof, and of the accumulator's input. */
  datatype OneJust = OneJust(isSet: bool, rdata: RData, sign: Sign)

  const NO_JUST := OneJust(false, RData(NEW_HASH, 0, NEW_HASH, 0, NewView), NO_SIGN)

  /** A leader's proposal: MsgLdrPrepareComb. */
  datatype Proposal = Proposal(acc: Accum, block: Block, proof: seq<OneJust>, sign: Sign)

  datatype Msg = VoteMsg(tag: Phase, vote: Vote) | LdrMsg(proposal: Proposal)

  /** The replica numbers 0 .. n-1. */
  function Range(n: nat): (r: set<PID>)
    ensures forall p: PID :: p in r <==> p < n
    ensures |r| == n
  {
    if n == 0 then {} else Range(n - 1) + {n - 1}
  }

  /** Deployment parameters.  `nodes` is the node table: it maps each replica to its trust type. */
  datatype Config = Config(f: nat, nodes: map<PID, bool>, maxSigs: nat, maxTxs: nat, maxViews: nat,
                           fixedLeaderMode: bool, fixedLeader: PID) {
    function Total(): nat { 3 * f + 1 }

    function TeeNodes(): set<PID> { set p | p in nodes && nodes[p] }

    function TotalTEE(): nat { |TeeNodes()| }

    function QSize(): nat { Total() - f }

    function TQSize(): nat {
      var half := TotalTEE() / 2 + 1;
      if half < f + 1 then f + 1 else half
    }

    predicate FastQC() { TotalTEE() >= TQSize() }

    predicate IsTEE(p: PID) { p in nodes && nodes[p] }

    /** getLeaderOf with an empty skip list. */
    function LeaderOf(v: View): PID {
      if fixedLeaderMode then fixedLeader else v % Total()
    }

    /** What run.py and Server.cpp establish: 3f+1 numbered replicas, and room for 2f+1 signatures. */
    predicate Valid() {
      && nodes.Keys == Range(Total())
      && maxSigs >= QSize()
      && (fixedLeaderMode ==> fixedLeader < Total())
    }
  }

  predicate Distinct(signs: seq<Sign>) {
    forall i, j :: 0 <= i < j < |signs| ==> signs[i].signer != signs[j].signer
  }

  function SignersOf(signs: seq<Sign>): set<PID> {
    set s | s in signs :: s.signer
  }

  lemma SignersSnoc(signs: seq<Sign>, s: Sign)
    ensures SignersOf(signs + [s]) == SignersOf(signs) + {s.signer}
  {
    assert forall x :: x in signs + [s] <==> x in signs || x == s;
  }

  lemma {:induction false} DistinctSignersCount(signs: seq<Sign>)
    requires Distinct(signs)
    ensures |SignersOf(signs)| == |signs|
  {
    if |signs| > 0 {
      var last := |signs| - 1;
      DistinctSignersCount(signs[..last]);
      SignersSnoc(signs[..last], signs[last]);
      assert signs == signs[..last] + [signs[last]];
      assert signs[last].signer !in SignersOf(signs[..last]);
    }
  }

  /** `a` is `d` or an ancestor of `d` on the parent chain that digest `d` determines. */
  predicate Ancestor(a: Digest, d: Digest) {
    a == d || (d.Of? && Ancestor(a, d.block.prev.digest))
  }

  lemma {:induction false} AncestorTrans(a: Digest, b: Digest, c: Digest)
    requires Ancestor(a, b) && Ancestor(b, c)
    ensures Ancestor(a, c)
  {
    if b != c { AncestorTrans(a, b, c.block.prev.digest); }
  }
}
