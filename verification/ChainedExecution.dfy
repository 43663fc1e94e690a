/** The execution loop of the chained protocol: executing a block's certified ancestors. */
module ChainedExecution {
  import opened Types

  /** The hash of a block: ideal, so it determines everything that is hashed.  The all-'0' value is the hash
      of no block. */
  datatype ChainHash = NoBlock | HashOf(isSet: bool, view: View, cert: Cert, txs: seq<Transaction>)

  /** A block's certificate: the view and hash of its parent, and the view and signatures of the quorum
      (of votes, or of the new-views behind an accumulator). */
  datatype Cert = Cert(view: View, hash: ChainHash, certView: View, signs: seq<Sign>)

  /** A chained block; its certificate names its parent by view and hash.  View 0 holds the genesis block.
      Whether the block was executed is not part of its hash. */
  datatype ChainedBlock = ChainedBlock(isSet: bool, view: View, cert: Cert, txs: seq<Transaction>, executed: bool) {
    function Hash(): ChainHash { HashOf(isSet, view, cert, txs) }
  }

  const NO_CERT := Cert(0, NoBlock, 0, [])

  type Chain = map<View, ChainedBlock>

  /** Blocks are stored under their own view, and certificates point strictly down. */
  predicate Shaped(c: Chain) {
    forall v :: v in c ==> c[v].view == v && (v > 0 ==> c[v].cert.view < v)
  }

  /** Whatever is executed has its parent executed. */
  predicate Closed(c: Chain) {
    forall v :: v in c && c[v].executed && v > 0 ==> c[v].cert.view in c && c[c[v].cert.view].executed
  }

  /** The unexecuted blocks from view v down to the first executed one, oldest first; none when a block is
      missing on the way. */
  function Pending(c: Chain, v: View): Option<seq<View>>
    requires Shaped(c)
    decreases v
  {
    if v !in c then None
    else if c[v].executed then Some([])
    else if v == 0 then Some([0])
    else
      Followed(Pending(c, c[v].cert.view), [v])
  }

  predicate Stored(c: Chain, p: seq<View>) {
    forall i :: 0 <= i < |p| ==> p[i] in c
  }

  function Mark(c: Chain, p: seq<View>): (c': Chain)
    requires Stored(c, p)
    ensures c'.Keys == c.Keys
  {
    map v | v in c :: if v in p then c[v].(executed := true) else c[v]
  }

  lemma MarkNone(c: Chain)
    ensures Mark(c, []) == c
  {
  }

  lemma MarkOne(c: Chain, p: seq<View>, v: View)
    requires Stored(c, p) && v in c
    ensures Mark(c, p)[v := c[v].(executed := true)] == Mark(c, p + [v])
  {
  }

  // ---- what Pending means

  /** `a` is reached from v by following certificates through stored blocks. */
  predicate CertAncestor(c: Chain, a: View, v: View)
    requires Shaped(c)
    decreases v
  {
    a == v || (v in c && v > 0 && CertAncestor(c, a, c[v].cert.view))
  }

  predicate Increasing(p: seq<View>) {
    forall i, j :: 0 <= i < j < |p| ==> p[i] < p[j]
  }

  lemma {:induction false} AncestorBelow(c: Chain, a: View, v: View)
    requires Shaped(c) && CertAncestor(c, a, v)
    ensures a <= v
    decreases v
  {
    if a != v { AncestorBelow(c, a, c[v].cert.view); }
  }

  lemma {:induction false} ExecutedAncestors(c: Chain, a: View, v: View)
    requires Shaped(c) && Closed(c) && CertAncestor(c, a, v) && v in c && c[v].executed
    ensures a in c && c[a].executed
    decreases v
  {
    if a != v { ExecutedAncestors(c, a, c[v].cert.view); }
  }

  /** What is pending is exactly the unexecuted certificate-ancestors, each once, oldest first. */
  lemma {:induction false} PendingMembers(c: Chain, v: View)
    requires Shaped(c) && Closed(c) && Pending(c, v).Some?
    ensures var p := Pending(c, v).value;
      && Increasing(p)
      && (forall x :: x in p <==> (CertAncestor(c, x, v) && x in c && !c[x].executed))
      && (forall i :: 0 <= i < |p| ==> p[i] <= v)
    decreases v
  {
    var p := Pending(c, v).value;
    if c[v].executed {
      forall x | CertAncestor(c, x, v) ensures x in c && c[x].executed { ExecutedAncestors(c, x, v); }
    } else if v > 0 {
      PendingMembers(c, c[v].cert.view);
      var q := Pending(c, c[v].cert.view).value;
      forall x ensures x in p <==> (CertAncestor(c, x, v) && x in c && !c[x].executed) {
        if x == v { assert p[|q|] == v; }
        assert x in p <==> x in q || x == v;
      }
    }
  }

  /** Nothing is executed exactly when an ancestor's block is missing. */
  lemma {:induction false} PendingMissing(c: Chain, v: View)
    requires Shaped(c) && Closed(c)
    ensures Pending(c, v).None? <==> exists a :: CertAncestor(c, a, v) && a !in c
    decreases v
  {
    if v !in c {
      assert CertAncestor(c, v, v);
    } else if c[v].executed {
      forall a | CertAncestor(c, a, v) ensures a in c { ExecutedAncestors(c, a, v); }
    } else if v > 0 {
      PendingMissing(c, c[v].cert.view);
      if a :| CertAncestor(c, a, c[v].cert.view) && a !in c {
        assert CertAncestor(c, a, v);
      }
    }
  }

  /** Every pending block comes right after its parent, and the oldest one's parent is executed. */
  lemma {:induction false} PendingParents(c: Chain, v: View, i: nat)
    requires Shaped(c) && Pending(c, v).Some? && i < |Pending(c, v).value|
    ensures var p := Pending(c, v).value;
      && p[i] in c && (i + 1 == |p| ==> p[i] == v)
      && (p[i] > 0 ==>
            if i == 0 then c[p[i]].cert.view in c && c[c[p[i]].cert.view].executed
            else c[p[i]].cert.view == p[i - 1])
    decreases v
  {
    if v > 0 {
      var u := c[v].cert.view;
      var q := Pending(c, u).value;
      if i < |q| { PendingParents(c, u, i); }
      if 0 < i == |q| { PendingParents(c, u, i - 1); }
    }
  }

  lemma PendingStored(c: Chain, v: View)
    requires Shaped(c) && Pending(c, v).Some?
    ensures Stored(c, Pending(c, v).value)
  {
    forall i | 0 <= i < |Pending(c, v).value| ensures Pending(c, v).value[i] in c { PendingParents(c, v, i); }
  }

  /** Executing what is pending keeps the executed set closed under parents. */
  lemma MarkKeepsClosed(c: Chain, v: View)
    requires Shaped(c) && Closed(c) && Pending(c, v).Some?
    requires Stored(c, Pending(c, v).value)
    ensures Shaped(Mark(c, Pending(c, v).value)) && Closed(Mark(c, Pending(c, v).value))
  {
    var p := Pending(c, v).value;
    var c' := Mark(c, p);
    forall x | x in c' && c'[x].executed && x > 0 ensures c'[x].cert.view in c' && c'[c'[x].cert.view].executed {
      if x in p {
        var i :| 0 <= i < |p| && p[i] == x;
        PendingParents(c, v, i);
      }
    }
  }

  // ---- hashes along the walk

  /** The test of the branch that the source disables, at every block that the walk from `cert` visits: the
      certificate carries the hash of the block stored for its view. */
  predicate LinksMatch(c: Chain, cert: Cert)
    requires Shaped(c)
    decreases cert.view
  {
    cert.view in c && !c[cert.view].executed ==>
      cert.hash == c[cert.view].Hash() && (cert.view > 0 ==> LinksMatch(c, c[cert.view].cert))
  }

  /** The walk with that test restored: a mismatch clears what was collected. */
  function Checked(c: Chain, cert: Cert): Option<seq<View>>
    requires Shaped(c)
    decreases cert.view
  {
    var v := cert.view;
    if v !in c then None
    else if c[v].executed then Some([])
    else if cert.hash != c[v].Hash() then None
    else if v == 0 then Some([0])
    else Followed(Checked(c, c[v].cert), [v])
  }

  /** The certificate in the child of p's block i; the last one's child carries `cert`. */
  function ChildCert(c: Chain, p: seq<View>, cert: Cert, i: nat): Cert
    requires Stored(c, p) && i < |p|
  {
    if i + 1 < |p| then c[p[i + 1]].cert else cert
  }

  /** Each block of p is the one that its child's certificate names. */
  predicate NamedByChildren(c: Chain, p: seq<View>, cert: Cert)
    requires Stored(c, p)
  {
    forall i :: 0 <= i < |p| ==> ChildCert(c, p, cert, i).hash == c[p[i]].Hash()
  }

  /** What is executed is named by its children's certificates exactly when every link of the walk matches. */
  lemma {:induction false} NamedIffLinked(c: Chain, cert: Cert)
    requires Shaped(c) && Pending(c, cert.view).Some? && Stored(c, Pending(c, cert.view).value)
    ensures NamedByChildren(c, Pending(c, cert.view).value, cert) <==> LinksMatch(c, cert)
    decreases cert.view
  {
    var v := cert.view;
    if !c[v].executed {
      if v == 0 {
        assert [0] == [] + [0];
        NamedSnoc(c, [], 0, cert);
      } else {
        var up := c[v].cert;
        PendingStored(c, up.view);
        NamedIffLinked(c, up);
        NamedSnoc(c, Pending(c, up.view).value, v, cert);
      }
    }
  }

  lemma NamedSnoc(c: Chain, q: seq<View>, v: View, cert: Cert)
    requires Stored(c, q) && v in c
    ensures Stored(c, q + [v])
    ensures NamedByChildren(c, q + [v], cert) <==> NamedByChildren(c, q, c[v].cert) && cert.hash == c[v].Hash()
  {
    var p := q + [v];
    assert forall i :: 0 <= i < |q| ==> p[i] == q[i] && ChildCert(c, p, cert, i) == ChildCert(c, q, c[v].cert, i);
    assert ChildCert(c, p, cert, |q|) == cert && p[|q|] == v;
  }

  /** Restoring the test changes nothing exactly when every link matches or nothing is executed anyway; on
      a mismatch nothing is executed. */
  lemma {:induction false} CheckedIffLinked(c: Chain, cert: Cert)
    requires Shaped(c)
    ensures Checked(c, cert) == if LinksMatch(c, cert) then Pending(c, cert.view) else None
    ensures Checked(c, cert) == Pending(c, cert.view) <==> LinksMatch(c, cert) || Pending(c, cert.view).None?
    decreases cert.view
  {
    if cert.view in c && !c[cert.view].executed && cert.view > 0 {
      CheckedIffLinked(c, c[cert.view].cert);
    }
  }

  /** What the test is for: two replicas that execute from one certificate execute the same block in every
      view that is pending for both, if the links of both match. */
  lemma {:induction false} SameCertificateSameBlocks(c1: Chain, c2: Chain, cert: Cert, x: View)
    requires Shaped(c1) && Shaped(c2) && LinksMatch(c1, cert) && LinksMatch(c2, cert)
    requires Pending(c1, cert.view).Some? && x in Pending(c1, cert.view).value
    requires Pending(c2, cert.view).Some? && x in Pending(c2, cert.view).value
    ensures x in c1 && x in c2 && c1[x].Hash() == c2[x].Hash()
    decreases cert.view
  {
    var v := cert.view;
    assert c1[v].Hash() == c2[v].Hash();
    if v > 0 && x != v {
      var q1, q2 := Pending(c1, c1[v].cert.view).value, Pending(c2, c2[v].cert.view).value;
      assert x in q1 + [v] && x in q2 + [v];
      SameCertificateSameBlocks(c1, c2, c1[v].cert, x);
    }
  }

  /** Without the test the property fails: two replicas with well-shaped chains and the same certificate
      execute different blocks in view 1, and one of them a block that the certificate does not name. */
  lemma ExecutesDespiteMismatch() returns (c1: Chain, c2: Chain, cert: Cert)
    ensures Shaped(c1) && Closed(c1) && Shaped(c2) && Closed(c2)
    ensures cert.view == 1 && Pending(c1, 1) == Pending(c2, 1) == Some([0, 1])
    ensures cert.hash == c1[1].Hash() && cert.hash != c2[1].Hash()
    ensures LinksMatch(c1, cert) && !LinksMatch(c2, cert)
  {
    var genesis := ChainedBlock(true, 0, NO_CERT, [], false);
    var first := ChainedBlock(true, 1, Cert(0, genesis.Hash(), 0, []), [], false);
    var other := first.(txs := [Transaction(1, 1, "")]);
    c1 := map[0 := genesis, 1 := first];
    c2 := map[0 := genesis, 1 := other];
    cert := Cert(1, first.Hash(), 1, []);
    assert [0] + [1] == [0, 1];
    assert LinksMatch(c1, first.cert) && LinksMatch(c2, other.cert);
    assert Pending(c1, 0) == Pending(c2, 0) == Some([0]);
    assert Pending(c1, 1) == Followed(Pending(c1, 0), [1]) && Pending(c2, 1) == Followed(Pending(c2, 0), [1]);
  }

  // ---- the execution history

  predicate Recorded(c: Chain, order: seq<View>) {
    (forall v :: v in order ==> v in c && c[v].executed) && (forall v :: v in c && c[v].executed ==> v in order)
  }

  predicate NoRepeat(order: seq<View>) {
    forall i, j :: 0 <= i < j < |order| ==> order[i] != order[j]
  }

  predicate ParentFirst(c: Chain, order: seq<View>) {
    forall i :: 0 <= i < |order| && order[i] in c && order[i] > 0 ==> c[order[i]].cert.view in order[..i]
  }

  lemma RecordedGrows(c: Chain, order: seq<View>, v: View)
    requires Shaped(c) && Closed(c) && Pending(c, v).Some? && Stored(c, Pending(c, v).value) && Recorded(c, order)
    ensures Recorded(Mark(c, Pending(c, v).value), order + Pending(c, v).value)
  {
  }

  lemma NoRepeatGrows(c: Chain, order: seq<View>, v: View)
    requires Shaped(c) && Closed(c) && Pending(c, v).Some? && Recorded(c, order) && NoRepeat(order)
    ensures NoRepeat(order + Pending(c, v).value)
  {
    var p := Pending(c, v).value;
    PendingMembers(c, v);
    forall i, j | 0 <= i < |order| && 0 <= j < |p| ensures order[i] != p[j] {
      assert order[i] in order && p[j] in p;
    }
  }

  lemma ParentFirstGrows(c: Chain, order: seq<View>, v: View)
    requires Shaped(c) && Closed(c) && Pending(c, v).Some? && Stored(c, Pending(c, v).value)
    requires Recorded(c, order) && ParentFirst(c, order)
    ensures ParentFirst(Mark(c, Pending(c, v).value), order + Pending(c, v).value)
  {
    var p := Pending(c, v).value;
    var c' := Mark(c, p);
    var o := order + p;
    forall i | 0 <= i < |o| && o[i] in c' && o[i] > 0 ensures c'[o[i]].cert.view in o[..i] {
      if i < |order| {
        assert o[..i] == order[..i];
      } else {
        var k := i - |order|;
        PendingParents(c, v, k);
        assert o[..i] == order + p[..k];
        if k > 0 { assert p[k - 1] in p[..k]; }
      }
    }
  }

  predicate Consistent(c: Chain, order: seq<View>) {
    Shaped(c) && Closed(c) && Recorded(c, order) && NoRepeat(order) && ParentFirst(c, order)
  }

  lemma HistoryGrows(c: Chain, order: seq<View>, v: View)
    requires Consistent(c, order) && Pending(c, v).Some? && Stored(c, Pending(c, v).value)
    ensures Consistent(Mark(c, Pending(c, v).value), order + Pending(c, v).value)
  {
    MarkKeepsClosed(c, v);
    RecordedGrows(c, order, v);
    NoRepeatGrows(c, order, v);
    ParentFirstGrows(c, order, v);
  }

  /** What executing the pending blocks amounts to. */
  lemma ExecutionLaw(c: Chain, order: seq<View>, cert: Cert)
    requires Shaped(c)
    ensures Pending(c, cert.view).Some? ==>
      var p := Pending(c, cert.view).value;
      && Stored(c, p) && (NamedByChildren(c, p, cert) <==> LinksMatch(c, cert))
      && (Consistent(c, order) ==> Consistent(Mark(c, p), order + p))
  {
    if Pending(c, cert.view).Some? {
      PendingStored(c, cert.view);
      NamedIffLinked(c, cert);
      if Consistent(c, order) { HistoryGrows(c, order, cert.view); }
    }
  }

  /** a occurs before an occurrence of v. */
  predicate Before(order: seq<View>, a: View, v: View) {
    exists i :: 0 <= i < |order| && order[i] == v && a in order[..i]
  }

  /** The stored block is marked as executed exactly when it is in the history, and there after its parent. */
  predicate StoredInOrder(b: ChainedBlock, order: seq<View>) {
    && b.executed == (b.view in order)
    && (b.view in order && b.view > 0 ==> Before(order, b.cert.view, b.view))
  }

  lemma StoredHistory(c: Chain, order: seq<View>, b: ChainedBlock)
    requires Shaped(c) && Closed(c) && Recorded(c, order) && NoRepeat(order) && ParentFirst(c, order)
    requires b.view > 0 ==> b.cert.view < b.view
    ensures var c' := c[b.view := b];
      && Shaped(c')
      && (Closed(c') && Recorded(c', order) && ParentFirst(c', order) <==> StoredInOrder(b, order))
  {
    var c' := c[b.view := b];
    if Recorded(c', order) && ParentFirst(c', order) && b.view in order && b.view > 0 {
      var i :| 0 <= i < |order| && order[i] == b.view;
      assert c'[order[i]].cert.view in order[..i];
    }
    if b.executed == (b.view in order) && (b.view in order && b.view > 0 ==> Before(order, b.cert.view, b.view)) {
      RecordedStays(c, order, b);
      forall i | 0 <= i < |order| && order[i] in c' && order[i] > 0 ensures c'[order[i]].cert.view in order[..i] {
        if order[i] == b.view {
          var j :| 0 <= j < |order| && order[j] == b.view && b.cert.view in order[..j];
          assert j == i;
        }
      }
      forall v | v in c' && c'[v].executed && v > 0 ensures c'[v].cert.view in c' && c'[c'[v].cert.view].executed {
        var i :| 0 <= i < |order| && order[i] == v;
        assert c'[v].cert.view in order[..i] && c'[v].cert.view in order;
      }
    }
  }

  lemma RecordedStays(c: Chain, order: seq<View>, b: ChainedBlock)
    requires Recorded(c, order) && b.executed == (b.view in order)
    ensures Recorded(c[b.view := b], order)
  {
  }

  // ---- the object

  class ChainExecutor {
    var cblocks: Chain
    var order: seq<View>  // the views executed so far, in order

    /** The stored blocks are well shaped; a block is executed exactly when it is in `order`; nothing is
        executed twice, and every block is executed after its parent. */
    ghost predicate Valid()
      reads this
    {
      Consistent(cblocks, order)
    }

    /** View 0 holds the genesis block from the start. */
    constructor (genesis: ChainedBlock)
      requires genesis.view == 0 && !genesis.executed
      ensures Valid() && cblocks == map[0 := genesis] && order == []
    {
      cblocks := map[0 := genesis];
      order := [];
    }

    /** Where a block is stored, over whatever is held for its view.  The history stays right exactly when
        the block comes with the mark of the one it replaces, and, if that was executed, with a parent that
        was executed before it. */
    method StoreBlock(block: ChainedBlock)
      requires Valid() && (block.view > 0 ==> block.cert.view < block.view)
      modifies this`cblocks
      ensures cblocks == old(cblocks)[block.view := block] && Shaped(cblocks)
      ensures Valid() <==> block.executed == (block.view in order)
                           && (block.view in order && block.view > 0 ==> Before(order, block.cert.view, block.view))
    {
      cblocks := cblocks[block.view := block];
      StoredHistory(old(cblocks), order, block);
    }

    /** Executes nothing when an ancestor is missing, and otherwise exactly what is pending, in order; each
        block executed is the one its child's certificate names exactly when every link matches. */
    method TryExecute(start: ChainedBlock)
      requires Shaped(cblocks)
      modifies this
      ensures old(Valid()) ==> Valid()
      ensures start.view == 0 || Pending(old(cblocks), start.cert.view).None? ==>
        cblocks == old(cblocks) && order == old(order)
      ensures start.view != 0 && Pending(old(cblocks), start.cert.view).Some? ==>
        var p := Pending(old(cblocks), start.cert.view).value;
        && Stored(old(cblocks), p) && cblocks == Mark(old(cblocks), p) && order == old(order) + p
        && (NamedByChildren(old(cblocks), p, start.cert) <==> LinksMatch(old(cblocks), start.cert))
    {
      hide Consistent, Pending, Mark, LinksMatch, NamedByChildren, Stored;
      if start.view == 0 { return; }
      ghost var c, before := cblocks, order;
      ExecutionLaw(c, before, start.cert);
      var toExec := Collect(start.cert.view);
      MarkNone(c);
      ExecuteAll(toExec);
      assert before + [] == before;
    }

    /** The loop that executes the collected blocks. */
    method ExecuteAll(toExec: seq<ChainedBlock>)
      requires forall i :: 0 <= i < |toExec| ==> toExec[i].view in cblocks && cblocks[toExec[i].view] == toExec[i]
      modifies this
      ensures Stored(old(cblocks), Views(toExec)) && cblocks == Mark(old(cblocks), Views(toExec))
      ensures order == old(order) + Views(toExec)
    {
      hide Mark;
      ghost var c := cblocks;
      ghost var p := Views(toExec);
      MarkNone(c);
      for i := 0 to |toExec|
        invariant Stored(c, p[..i]) && cblocks == Mark(c, p[..i])
        invariant order == old(order) + p[..i]
      {
        var block := toExec[i];
        var view := block.view;
        assert p[i] == view && p[..i + 1] == p[..i] + [view];
        MarkOne(c, p[..i], view);
        cblocks := cblocks[view := block.(executed := true)];
        order := order + [view];
      }
      assert p[..|toExec|] == p;
    }

    /** The walk down the certificates. */
    method Collect(from: View) returns (toExec: seq<ChainedBlock>)
      requires Shaped(cblocks)
      ensures forall i :: 0 <= i < |toExec| ==> toExec[i].view in cblocks && cblocks[toExec[i].view] == toExec[i]
      ensures Views(toExec) == match Pending(cblocks, from) case None => [] case Some(p) => p
    {
      toExec := [];
      var view := from;
      FollowedByNone(Pending(cblocks, from));
      var done := false;
      while !done
        invariant forall i :: 0 <= i < |toExec| ==> toExec[i].view in cblocks && cblocks[toExec[i].view] == toExec[i]
        invariant !done ==> Pending(cblocks, from) == Followed(Pending(cblocks, view), Views(toExec))
        invariant done ==> Views(toExec) == match Pending(cblocks, from) case None => [] case Some(p) => p
        decreases !done, view
      {
        if view in cblocks {
          var block := cblocks[view];
          if !block.executed {
            ViewsCons(block, toExec);
            FollowedBy(Pending(cblocks, block.cert.view), view, Views(toExec));
            toExec := [block] + toExec;
            if view == 0 { done := true; } else { view := block.cert.view; }
          } else {
            done := true;
          }
        } else {
          done := true;
          toExec := [];
        }
      }
    }
  }

  function Views(bs: seq<ChainedBlock>): (r: seq<View>)
    ensures |r| == |bs| && forall i :: 0 <= i < |r| ==> r[i] == bs[i].view
  {
    seq(|bs|, i requires 0 <= i < |bs| => bs[i].view)
  }

  function Followed(o: Option<seq<View>>, tail: seq<View>): Option<seq<View>> {
    if o.None? then None else Some(o.value + tail)
  }

  lemma FollowedBy(o: Option<seq<View>>, v: View, tail: seq<View>)
    ensures Followed(Followed(o, [v]), tail) == Followed(o, [v] + tail)
  {
    if o.Some? { assert o.value + [v] + tail == o.value + ([v] + tail); }
  }

  lemma FollowedByNone(o: Option<seq<View>>)
    ensures Followed(o, []) == o
  {
    if o.Some? { assert o.value + [] == o.value; }
  }

  lemma ViewsCons(b: ChainedBlock, bs: seq<ChainedBlock>)
    ensures Views([b] + bs) == [b.view] + Views(bs)
  {
  }
}
