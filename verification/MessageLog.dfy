/** The log object of a replica, proved against `VoteLog`. */
module MessageLog {
  import opened Types
  import opened SignLists
  import opened VoteLog

  class Log {
    const maxSigs: nat
    var votes: map<Slot, seq<Vote>>
    var proposals: map<View, seq<Proposal>>

    ghost function State(): LogState
      reads this
    {
      LogState(votes, proposals)
    }

    constructor (maxSigs: nat)
      ensures State() == EMPTY_LOG && this.maxSigs == maxSigs
    {
      this.maxSigs := maxSigs;
      votes, proposals := map[], map[];
    }

    /** msg*CombFrom: erases the signers of every message until none is left. */
    static method MsgsFrom(msgs: seq<Vote>, wanted: set<PID>) returns (b: bool)
      ensures b <==> From(msgs, wanted)
    {
      var signers := wanted;
      for i := 0 to |msgs|
        invariant signers == wanted - AllSigners(msgs[..i])
        invariant AllSigners(msgs[..i]) != {} ==> signers != {}
      {
        assert msgs[..i + 1][..i] == msgs[..i];
        AllSignersMonotone(msgs, i + 1);
        var k := SignersOf(msgs[i].signs);
        ghost var done: set<PID> := {};
        while k != {}
          invariant done + k == SignersOf(msgs[i].signs)
          invariant signers == wanted - AllSigners(msgs[..i]) - done
          invariant AllSigners(msgs[..i]) + done != {} ==> signers != {}
          decreases k
        {
          var p :| p in k;
          k := k - {p};
          done := done + {p};
          signers := signers - {p};
          if signers == {} {
            assert p in AllSigners(msgs[..i + 1]);
            return true;
          }
        }
      }
      assert msgs[..|msgs|] == msgs;
      return false;
    }

    static lemma {:induction false} AllSignersMonotone(msgs: seq<Vote>, i: nat)
      requires i <= |msgs|
      ensures AllSigners(msgs[..i]) <= AllSigners(msgs)
      decreases |msgs| - i
    {
      if i < |msgs| {
        AllSignersMonotone(msgs, i + 1);
        assert msgs[..i + 1][..i] == msgs[..i];
      } else {
        assert msgs[..i] == msgs;
      }
    }

    method StoreVote(slot: Slot, m: Vote) returns (n: nat)
      modifies this`votes
      ensures (State(), n) == Store(old(State()), slot, m)
    {
      if slot in votes {
        var msgs := votes[slot];
        var present := MsgsFrom(msgs, SignersOf(m.signs));
        if !present {
          msgs := SetInsert(msgs, m);
          votes := votes[slot := msgs];
          return |msgs|;
        }
      } else {
        votes := votes[slot := [m]];
        return 1;
      }
      return 0;
    }

    method StoreLdrPrep(p: Proposal) returns (n: nat)
      modifies this`proposals
      ensures (State(), n) == StoreProposalCount(old(State()), p)
    {
      var v := p.acc.view;
      if v in proposals {
        var ps := proposals[v];
        var present := false;
        for i := 0 to |ps|
          invariant present <==> exists k :: 0 <= k < i && ps[k].sign.signer == p.sign.signer
        {
          if ps[i].sign.signer == p.sign.signer { present := true; }
        }
        if !present {
          ps := ProposalInsert(ps, p);
          proposals := proposals[v := ps];
          return |ps|;
        }
      } else {
        proposals := proposals[v := [p]];
        return 1;
      }
      return 0;
    }

    method FirstLdrPrepare(v: View) returns (p: Option<Proposal>)
      ensures p == FirstProposal(State(), v)
    {
      if v in proposals && 0 < |proposals[v]| { return Some(proposals[v][0]); }
      return None;
    }

    method GetSignatures(slot: Slot, n: nat) returns (r: seq<Sign>)
      requires n <= maxSigs
      ensures r == GetSigns(State(), slot, n)
    {
      var signs := new Signs(maxSigs);
      if slot in votes {
        var msgs := votes[slot];
        var i := 0;
        while signs.size < n && i < |msgs|
          invariant 0 <= i <= |msgs| && signs.Valid() && signs.signs.Length == maxSigs && fresh(signs.signs)
          invariant fresh(signs)
          invariant signs.Contents() == Take(Concat(msgs[..i]), n)
        {
          assert msgs[..i + 1][..i] == msgs[..i];
          signs.AddUpto(msgs[i].signs, n);
          i := i + 1;
        }
        ConcatPrefix(msgs, i);
        assert msgs[..|msgs|] == msgs;
      }
      r := signs.signs[..signs.size];
    }

    static lemma {:induction false} ConcatPrefix(msgs: seq<Vote>, i: nat)
      requires i <= |msgs|
      ensures Concat(msgs[..i]) <= Concat(msgs)
      decreases |msgs| - i
    {
      if i < |msgs| {
        ConcatPrefix(msgs, i + 1);
        assert msgs[..i + 1][..i] == msgs[..i];
      } else {
        assert msgs[..i] == msgs;
      }
    }

    method GetMerged(tag: Phase, v: View, n: nat) returns (r: seq<Sign>)
      requires n <= maxSigs
      ensures r == Merged(State(), tag, v, n)
    {
      var out := new Signs(maxSigs);
      var tee := GetSignatures(Slot(tag, true, v), n);
      out.AddUpto(tee, n);
      assert [] + tee == tee;
      if out.size < n {
        var non := GetSignatures(Slot(tag, false, v), n);
        out.AddUpto(non, n);
      }
      r := out.signs[..out.size];
    }

    method GetMessages(slot: Slot, n: nat) returns (r: seq<Vote>)
      ensures r == GetMsgs(State(), slot, n)
    {
      r := [];
      if slot in votes {
        var msgs := votes[slot];
        var i := 0;
        while |r| < n && i < |msgs|
          invariant 0 <= i <= |msgs| && |r| == i <= n && r == msgs[..i]
        {
          r := r + [msgs[i]];
          i := i + 1;
        }
      }
    }
  }
}
