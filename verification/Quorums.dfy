/** Quorum sizes and the intersection argument behind both kinds of certificate. */
module Quorums {
  import opened Types

  /** A signer set a certificate may have: 2f+1 replicas of any type, or QT trusted ones. */
  ghost predicate IsQuorum(cfg: Config, s: set<PID>) {
    && s <= cfg.nodes.Keys
    && (|s| == cfg.QSize() || (|s| == cfg.TQSize() && s <= cfg.TeeNodes()))
  }

  lemma SubsetSize<T>(a: set<T>, b: set<T>)
    requires a <= b
    ensures |a| <= |b|
  {
    assert b == a + (b - a);
  }

  /** Two subsets of a set overlap in at least the excess of their sizes over it. */
  lemma Overlap<T>(a: set<T>, b: set<T>, u: set<T>)
    requires a <= u && b <= u
    ensures |a * b| >= |a| + |b| - |u|
  {
    assert a + b == a + (b - a) && b == (a * b) + (b - a);
    SubsetSize(a + b, u);
  }

  lemma NodeCounts(cfg: Config)
    requires cfg.Valid()
    ensures |cfg.nodes.Keys| == cfg.Total()
    ensures cfg.TotalTEE() <= cfg.Total()
    ensures cfg.TeeNodes() <= cfg.nodes.Keys
  {
    SubsetSize(cfg.TeeNodes(), cfg.nodes.Keys);
  }

  /** The sizes chosen in the handler's constructor, for every f and every number of TEEs up to 3f+1:
      a TEE quorum never needs more signers than a mixed one, and the fast path is on exactly when
      there are at least f+1 TEEs. */
  lemma QuorumSizes(cfg: Config)
    requires cfg.Valid()
    ensures cfg.QSize() == 2 * cfg.f + 1
    ensures 1 <= cfg.TQSize() <= cfg.QSize() <= cfg.maxSigs
    ensures cfg.FastQC() <==> cfg.TotalTEE() >= cfg.f + 1
  {
    NodeCounts(cfg);
  }

  /** Any two quorums share a replica; two TEE quorums, or a TEE and a mixed one, share a trusted
      replica; two mixed ones share at least f+1 replicas. */
  lemma QuorumsIntersect(cfg: Config, a: set<PID>, b: set<PID>)
    requires cfg.Valid() && IsQuorum(cfg, a) && IsQuorum(cfg, b)
    ensures a * b != {}
    ensures a <= cfg.TeeNodes() && |a| == cfg.TQSize() ==> a * b * cfg.TeeNodes() != {}
    ensures |a| == cfg.QSize() && |b| == cfg.QSize() ==> |a * b| >= cfg.f + 1
  {
    NodeCounts(cfg);
    Overlap(a, b, cfg.nodes.Keys);
    if a <= cfg.TeeNodes() && |a| == cfg.TQSize() {
      assert a * b * cfg.TeeNodes() == a * b;
      if |b| != cfg.QSize() { Overlap(a, b, cfg.TeeNodes()); }
      assert |a * b| >= 1;
    } else if b <= cfg.TeeNodes() && |b| == cfg.TQSize() {
      assert |a * b| >= 1;
    }
  }

  /** With at most f dishonest replicas, none of them trusted, two quorums share an honest replica. */
  lemma HonestInBoth(cfg: Config, a: set<PID>, b: set<PID>, honest: set<PID>) returns (p: PID)
    requires cfg.Valid() && IsQuorum(cfg, a) && IsQuorum(cfg, b)
    requires cfg.TeeNodes() <= honest && |cfg.nodes.Keys - honest| <= cfg.f
    ensures p in a && p in b && p in honest
  {
    QuorumsIntersect(cfg, a, b);
    QuorumsIntersect(cfg, b, a);
    if a <= cfg.TeeNodes() && |a| == cfg.TQSize() {
      p :| p in a * b * cfg.TeeNodes();
    } else if b <= cfg.TeeNodes() && |b| == cfg.TQSize() {
      p :| p in b * a * cfg.TeeNodes();
    } else {
      SubsetSize(a * b - honest, cfg.nodes.Keys - honest);
      assert a * b == (a * b - honest) + (a * b * honest);
      assert |a * b * honest| >= 1;
      p :| p in a * b * honest;
    }
  }

  /** With at most f dishonest replicas of any kind, every quorum has an honest member. */
  lemma HonestInOne(cfg: Config, a: set<PID>, honest: set<PID>) returns (p: PID)
    requires cfg.Valid() && IsQuorum(cfg, a)
    requires |cfg.nodes.Keys - honest| <= cfg.f
    ensures p in a && p in honest
  {
    SubsetSize(a - honest, cfg.nodes.Keys - honest);
    assert a == (a - honest) + (a * honest);
    assert |a * honest| >= 1;
    p :| p in a * honest;
  }

  // ---- leaders

  /** With a fixed leader it leads every view; otherwise replicas take turns, starting with replica 0 in view 0. */
  lemma LeadersTakeTurns(cfg: Config, v: View)
    requires cfg.Valid()
    ensures cfg.LeaderOf(v) in cfg.nodes
    ensures cfg.fixedLeaderMode ==> cfg.LeaderOf(v) == cfg.fixedLeader
    ensures cfg.fixedLeaderMode || cfg.LeaderOf(0) == 0
    ensures cfg.fixedLeaderMode
         || cfg.LeaderOf(v + 1) == if cfg.LeaderOf(v) == 3 * cfg.f then 0 else cfg.LeaderOf(v) + 1
  {
    var n := cfg.Total();
    var q, m := v / n, v % n;
    Divided(v, n);
    Remainder(n, 0, 0, 0);
    if m == n - 1 {
      NextMultiple(n, q);
      Remainder(n, v + 1, q + 1, 0);
    } else {
      Remainder(n, v + 1, q, m + 1);
    }
  }

  /** Without a fixed leader every replica leads exactly one of any 3f+1 consecutive views. */
  lemma EveryoneLeads(cfg: Config, p: PID, v: View) returns (u: View)
    requires cfg.Valid() && !cfg.fixedLeaderMode && p in cfg.nodes
    ensures v <= u < v + cfg.Total() && cfg.LeaderOf(u) == p
    ensures forall w: View :: v <= w < v + cfg.Total() && cfg.LeaderOf(w) == p ==> w == u
  {
    var n := cfg.Total();
    var q, m := v / n, v % n;
    Divided(v, n);
    NextMultiple(n, q);
    if p >= m {
      u := v + (p - m);
      Remainder(n, u, q, p);
    } else {
      u := v + (n + p - m);
      Remainder(n, u, q + 1, p);
    }
    forall w: View | v <= w < v + n && w % n == p ensures w == u { SameTurn(n, u, w); }
  }

  lemma Divided(x: nat, n: nat)
    requires n > 0
    ensures x == n * (x / n) + x % n && x % n < n
  {
  }

  lemma NextMultiple(n: nat, q: int)
    ensures n * (q + 1) == n * q + n
  {
  }

  lemma {:induction false} MultipleAtLeast(n: nat, k: nat)
    requires k > 0
    ensures n * k >= n
  {
    if k > 1 {
      MultipleAtLeast(n, k - 1);
      NextMultiple(n, k - 1);
    }
  }

  lemma SmallMultiple(n: nat, k: int)
    requires n > 0 && -(n as int) < n * k < n
    ensures k == 0
  {
    if k > 0 { MultipleAtLeast(n, k); }
  }

  /** Division is unique. */
  lemma Remainder(n: nat, x: nat, q: int, m: nat)
    requires m < n && x == n * q + m
    ensures x % n == m
  {
    Divided(x, n);
    Difference(n, x / n, q);
    SmallMultiple(n, x / n - q);
  }

  lemma Difference(n: nat, a: int, b: int)
    ensures n * (a - b) == n * a - n * b
  {
  }

  lemma SameTurn(n: nat, a: nat, b: nat)
    requires n > 0 && a % n == b % n && a < b + n && b < a + n
    ensures a == b
  {
    Divided(a, n);
    Divided(b, n);
    Difference(n, a / n, b / n);
    SmallMultiple(n, a / n - b / n);
  }
}
