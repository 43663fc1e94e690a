/** The fixed-size signature list of the application side. */
module SignLists {
  import opened Types

  function Take<T>(s: seq<T>, n: nat): (r: seq<T>)
    ensures |r| == if |s| < n then |s| else n
    ensures r <= s
  {
    if |s| < n then s else s[..n]
  }

  /** Sign::operator< orders signatures by signer only. */
  predicate SignLess(a: Sign, b: Sign) {
    a.signer < b.signer
  }

  /** Signs::operator<: by size, then lexicographically by signer. */
  predicate SignsLess(a: seq<Sign>, b: seq<Sign>) {
    |a| < |b| || (|a| == |b| && LexLess(a, b))
  }

  predicate LexLess(a: seq<Sign>, b: seq<Sign>)
    requires |a| == |b|
  {
    a != [] && (SignLess(a[0], b[0]) || (!SignLess(b[0], a[0]) && LexLess(a[1..], b[1..])))
  }

  /** The order only sees signers: two lists are equivalent exactly when they have the same signers in
      the same positions, so a std::set keeps one message per signer list. */
  lemma {:induction false} LexEquivalent(a: seq<Sign>, b: seq<Sign>)
    requires |a| == |b|
    ensures !LexLess(a, b) && !LexLess(b, a) <==> forall i :: 0 <= i < |a| ==> a[i].signer == b[i].signer
  {
    if a != [] {
      LexEquivalent(a[1..], b[1..]);
      if forall i :: 0 <= i < |a| ==> a[i].signer == b[i].signer {
        assert forall i :: 0 <= i < |a| - 1 ==> a[1..][i] == a[i + 1] && b[1..][i] == b[i + 1];
      } else if a[0].signer == b[0].signer {
        var i :| 0 <= i < |a| && a[i].signer != b[i].signer;
        assert a[1..][i - 1] == a[i] && b[1..][i - 1] == b[i];
      }
    }
  }

  class Signs {
    const signs: array<Sign>
    var size: nat

    ghost predicate Valid()
      reads this
    {
      size <= signs.Length
    }

    ghost function Contents(): seq<Sign>
      reads this, signs
      requires Valid()
    {
      signs[..size]
    }

    constructor (maxSigs: nat)
      ensures Valid() && Contents() == [] && signs.Length == maxSigs && fresh(signs)
    {
      signs := new Sign[maxSigs](i => NO_SIGN);
      size := 0;
    }

    /** The source does not check the bound: its callers must. */
    method Add(sign: Sign)
      requires Valid() && size < signs.Length
      modifies this`size, signs
      ensures Valid() && Contents() == old(Contents()) + [sign]
    {
      signs[size] := sign;
      size := size + 1;
    }

    method AddUpto(others: seq<Sign>, n: nat)
      requires Valid() && n <= signs.Length
      modifies this`size, signs
      ensures Valid()
      ensures old(size) <= n ==> Contents() == Take(old(Contents()) + others, n)
      ensures old(size) > n ==> Contents() == old(Contents())
    {
      var i := 0;
      while i < |others| && size < n
        invariant Valid() && 0 <= i <= |others|
        invariant Contents() == old(Contents()) + others[..i]
        invariant i > 0 ==> size <= n
      {
        Add(others[i]);
        i := i + 1;
      }
    }

    method GetSigners() returns (s: set<PID>)
      requires Valid()
      ensures s == SignersOf(Contents())
    {
      s := {};
      for i := 0 to size
        invariant s == SignersOf(signs[..i])
      {
        s := s + {signs[i].signer};
        assert signs[..i + 1] == signs[..i] + [signs[i]];
        SignersSnoc(signs[..i], signs[i]);
      }
    }

    method HasSigned(p: PID) returns (b: bool)
      requires Valid()
      ensures b <==> p in SignersOf(Contents())
    {
      for i := 0 to size
        invariant forall k :: 0 <= k < i ==> signs[k].signer != p
      {
        if signs[i].signer == p {
          assert signs[i] in Contents();
          return true;
        }
      }
      return false;
    }

    /** operator< */
    method Less(s: Signs) returns (b: bool)
      requires Valid() && s.Valid()
      ensures b <==> SignsLess(Contents(), s.Contents())
    {
      if size < s.size { return true; }
      if s.size < size { return false; }
      ghost var a, c := Contents(), s.Contents();
      for i := 0 to size
        invariant LexLess(a, c) <==> LexLess(a[i..], c[i..])
      {
        assert a[i..][0] == signs[i] && c[i..][0] == s.signs[i];
        assert a[i..][1..] == a[i + 1..] && c[i..][1..] == c[i + 1..];
        if signs[i].signer < s.signs[i].signer { return true; }
        if s.signs[i].signer < signs[i].signer { return false; }
      }
      return false;
    }
  }
}
