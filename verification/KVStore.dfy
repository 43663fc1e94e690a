/** The replicated key-value machine and its cache of answered requests (in-memory backend). */
module KVStore {
  import opened KVCodec

  const OP_SET: Byte := 1
  const OP_GET: Byte := 2
  const OP_DEL: Byte := 3

  datatype ReplyStatus = ReplyOk | ReplyNotFound | ReplyError

  datatype AppReply = AppReply(status: ReplyStatus, value: seq<Byte>, delCount: nat)

  type Store = map<seq<Byte>, seq<Byte>>

  datatype Machine = Machine(cache: map<string, AppReply>, store: Store)

  // ---- the key of a request in the cache

  function Digit(d: nat): char
    requires d < 10
  {
    '0' + d as char
  }

  function Digits(n: nat): (s: string)
    ensures s != []
  {
    if n < 10 then [Digit(n)] else Digits(n / 10) + [Digit(n % 10)]
  }

  /** std::to_string of an int. */
  function Decimal(i: int): string {
    if i < 0 then "-" + Digits(-i) else Digits(i)
  }

  function DedupKey(client: int, req: int): string {
    Decimal(client) + ":" + Decimal(req)
  }

  function DigitsValue(s: string): int {
    if s == [] then 0 else 10 * DigitsValue(s[..|s| - 1]) + (s[|s| - 1] as int - '0' as int)
  }

  lemma {:induction false} DigitsRoundTrip(n: nat)
    ensures DigitsValue(Digits(n)) == n
    ensures forall i :: 0 <= i < |Digits(n)| ==> '0' <= Digits(n)[i] <= '9'
  {
    if n >= 10 {
      DigitsRoundTrip(n / 10);
      assert Digits(n)[..|Digits(n)| - 1] == Digits(n / 10);
    } else {
      assert DigitsValue([Digit(n)]) == 10 * DigitsValue([Digit(n)][..0]) + n;
    }
  }

  lemma DecimalInjective(i: int, j: int)
    requires Decimal(i) == Decimal(j)
    ensures i == j
  {
    var a, b := if i < 0 then -i else i, if j < 0 then -j else j;
    DigitsRoundTrip(a);
    DigitsRoundTrip(b);
    assert i < 0 <==> Decimal(i)[0] == '-';
    assert j < 0 <==> Decimal(j)[0] == '-';
    if i < 0 { assert Decimal(i)[1..] == Digits(a) && Decimal(j)[1..] == Digits(b); }
  }

  lemma DecimalHasNoColon(i: int)
    ensures ':' !in Decimal(i)
  {
    DigitsRoundTrip(if i < 0 then -i else i);
  }

  /** The cache key is injective on the pair of ids. */
  lemma DedupKeyInjective(c1: int, r1: int, c2: int, r2: int)
    ensures DedupKey(c1, r1) == DedupKey(c2, r2) <==> c1 == c2 && r1 == r2
  {
    if DedupKey(c1, r1) == DedupKey(c2, r2) {
      DecimalHasNoColon(c1);
      DecimalHasNoColon(c2);
      SplitAtColon(Decimal(c1), Decimal(r1), Decimal(c2), Decimal(r2));
      DecimalInjective(c1, c2);
      DecimalInjective(r1, r2);
    }
  }

  lemma SplitAtColon(a: string, b: string, c: string, d: string)
    requires a + ":" + b == c + ":" + d && ':' !in a && ':' !in c
    ensures a == c && b == d
  {
    var s := a + ":" + b;
    var t := c + ":" + d;
    assert s[|a|] == ':' && t[|c|] == ':';
    assert |a| == |c|;
    assert s[..|a|] == a && t[..|c|] == c;
    assert s[|a| + 1..] == b && t[|c| + 1..] == d;
  }

  // ---- the machines

  /** execMemory */
  function ExecMemory(store: Store, req: AppRequest): (Store, AppReply) {
    if req.op == OP_SET then (store[req.key := req.value], AppReply(ReplyOk, [], 0))
    else if req.op == OP_GET then
      (store, if req.key in store then AppReply(ReplyOk, store[req.key], 0) else AppReply(ReplyNotFound, [], 0))
    else if req.op == OP_DEL then
      (store - {req.key}, AppReply(ReplyOk, [], if req.key in store then 1 else 0))
    else (store, AppReply(ReplyError, [], 0))
  }

  function Execute(m: Machine, req: AppRequest): (Machine, AppReply) {
    var key := DedupKey(req.clientId, req.reqId);
    if key in m.cache then (m, m.cache[key]) else
      var (store, rep) := ExecMemory(m.store, req);
      (Machine(m.cache[key := rep], store), rep)
  }

  function Run(reqs: seq<AppRequest>): (Machine, seq<AppReply>) {
    if reqs == [] then (Machine(map[], map[]), []) else
      var (m, reps) := Run(reqs[..|reqs| - 1]);
      var (m', rep) := Execute(m, reqs[|reqs| - 1]);
      (m', reps + [rep])
  }

  /** The machine without a cache. */
  function PlainRun(reqs: seq<AppRequest>): (Store, seq<AppReply>) {
    if reqs == [] then (map[], []) else
      var (s, reps) := PlainRun(reqs[..|reqs| - 1]);
      var (s', rep) := ExecMemory(s, reqs[|reqs| - 1]);
      (s', reps + [rep])
  }

  predicate SameIds(a: AppRequest, b: AppRequest) {
    a.clientId == b.clientId && a.reqId == b.reqId
  }

  predicate Seen(reqs: seq<AppRequest>, r: AppRequest) {
    exists i :: 0 <= i < |reqs| && SameIds(reqs[i], r)
  }

  /** The log without the requests whose pair of ids occurred before. */
  function FirstOnly(reqs: seq<AppRequest>): seq<AppRequest> {
    if reqs == [] then [] else
      var init := reqs[..|reqs| - 1];
      var last := reqs[|reqs| - 1];
      if Seen(init, last) then FirstOnly(init) else FirstOnly(init) + [last]
  }

  /** The position in `FirstOnly(reqs)` of the first request with r's ids. */
  function Slot(reqs: seq<AppRequest>, r: AppRequest): (k: nat)
    requires Seen(reqs, r)
    ensures k < |FirstOnly(reqs)| && SameIds(FirstOnly(reqs)[k], r)
  {
    var init := reqs[..|reqs| - 1];
    if Seen(init, r) then Slot(init, r) else |FirstOnly(init)|
  }

  /** What the cache holds after a log: the plain machine's reply to the first request of each pair. */
  ghost predicate CacheIs(reqs: seq<AppRequest>, cache: map<string, AppReply>) {
    && (forall r: AppRequest :: DedupKey(r.clientId, r.reqId) in cache <==> Seen(reqs, r))
    && |PlainRun(FirstOnly(reqs)).1| == |FirstOnly(reqs)|
    && (forall r: AppRequest :: Seen(reqs, r) ==>
         cache[DedupKey(r.clientId, r.reqId)] == PlainRun(FirstOnly(reqs)).1[Slot(reqs, r)])
  }

  /** Request i is answered with the plain machine's reply to the first request of its pair of ids. */
  ghost predicate FirstReply(reqs: seq<AppRequest>, i: nat)
    requires i < |reqs| == |Run(reqs).1|
  {
    && Seen(reqs, reqs[i]) && |PlainRun(FirstOnly(reqs)).1| == |FirstOnly(reqs)|
    && Run(reqs).1[i] == PlainRun(FirstOnly(reqs)).1[Slot(reqs, reqs[i])]
  }

  /** Executing any log leaves the store that the plain machine reaches on the log without repetitions, and
      every repetition gets the first reply. */
  lemma {:induction false} DedupRefinesPlain(reqs: seq<AppRequest>)
    ensures Run(reqs).0.store == PlainRun(FirstOnly(reqs)).0
    ensures |Run(reqs).1| == |reqs|
    ensures forall i :: 0 <= i < |reqs| ==> FirstReply(reqs, i)
    ensures CacheIs(reqs, Run(reqs).0.cache)
  {
    hide Run, PlainRun, FirstOnly, Slot, Seen, CacheIs, FirstReply;
    if reqs == [] {
      NoRequests();
    } else {
      var init, last := reqs[..|reqs| - 1], reqs[|reqs| - 1];
      DedupRefinesPlain(init);
      assert reqs == init + [last];
      DedupStep(init, last);
    }
  }

  lemma NoRequests()
    ensures Run([]) == (Machine(map[], map[]), []) && PlainRun(FirstOnly([])).0 == map[]
    ensures CacheIs([], map[])
  {
    assert FirstOnly([]) == [];
  }

  lemma DedupStep(init: seq<AppRequest>, last: AppRequest)
    requires CacheIs(init, Run(init).0.cache) && Run(init).0.store == PlainRun(FirstOnly(init)).0
    requires |Run(init).1| == |init| && forall i :: 0 <= i < |init| ==> FirstReply(init, i)
    ensures var reqs := init + [last];
      && CacheIs(reqs, Run(reqs).0.cache) && Run(reqs).0.store == PlainRun(FirstOnly(reqs)).0
      && |Run(reqs).1| == |reqs| && forall i :: 0 <= i < |reqs| ==> FirstReply(reqs, i)
  {
    hide Run, PlainRun, FirstOnly, Slot, Seen, CacheIs, FirstReply;
    var reqs := init + [last];
    CacheStep(init, last);
    RunLength(init, last);
    forall i | 0 <= i < |reqs| ensures FirstReply(reqs, i) {
      if i < |init| { OldReply(init, last, i); } else { NewReply(init, last); }
    }
  }

  /** One more request, seen from each of the functions on logs. */
  lemma LogSnoc(init: seq<AppRequest>, last: AppRequest)
    ensures FirstOnly(init + [last]) == if Seen(init, last) then FirstOnly(init) else FirstOnly(init) + [last]
    ensures var (m, reps) := Run(init); var (m', rep) := Execute(m, last); Run(init + [last]) == (m', reps + [rep])
    ensures forall r :: Seen(init + [last], r) <==> Seen(init, r) || SameIds(last, r)
    ensures forall r :: Seen(init + [last], r) ==>
      Slot(init + [last], r) == if Seen(init, r) then Slot(init, r) else |FirstOnly(init)|
  {
    assert (init + [last])[..|init|] == init;
    SeenSnoc(init, last);
  }

  lemma RunLength(init: seq<AppRequest>, last: AppRequest)
    ensures |Run(init + [last]).1| == |Run(init).1| + 1
  {
    LogSnoc(init, last);
  }

  lemma PlainSnoc(reqs: seq<AppRequest>, r: AppRequest)
    ensures var (s, reps) := PlainRun(reqs); var (s', rep) := ExecMemory(s, r);
      PlainRun(reqs + [r]) == (s', reps + [rep])
  {
    assert (reqs + [r])[..|reqs|] == reqs;
  }

  lemma SeenSame(reqs: seq<AppRequest>, r: AppRequest, r': AppRequest)
    requires Seen(reqs, r) && SameIds(r, r')
    ensures Seen(reqs, r')
  {
    var i :| 0 <= i < |reqs| && SameIds(reqs[i], r);
    assert SameIds(reqs[i], r');
  }

  lemma OldReply(init: seq<AppRequest>, last: AppRequest, i: nat)
    requires i < |init| == |Run(init).1| && FirstReply(init, i)
    ensures |Run(init + [last]).1| == |init| + 1 && FirstReply(init + [last], i)
  {
    LogSnoc(init, last);
    PlainSnoc(FirstOnly(init), last);
    hide Run, PlainRun, FirstOnly, Slot, Seen, SameIds, ExecMemory, Execute;
    assert (init + [last])[i] == init[i];
  }

  lemma NewReply(init: seq<AppRequest>, last: AppRequest)
    requires CacheIs(init, Run(init).0.cache) && Run(init).0.store == PlainRun(FirstOnly(init)).0
    requires |Run(init).1| == |init|
    ensures |Run(init + [last]).1| == |init| + 1 && FirstReply(init + [last], |init|)
  {
    LogSnoc(init, last);
    PlainSnoc(FirstOnly(init), last);
    hide Run, PlainRun, FirstOnly, Slot, Seen, ExecMemory, DedupKey;
    assert (init + [last])[|init|] == last;
  }

  lemma SeenSnoc(init: seq<AppRequest>, last: AppRequest)
    ensures forall r :: Seen(init + [last], r) <==> Seen(init, r) || SameIds(last, r)
  {
    forall r ensures Seen(init + [last], r) <==> Seen(init, r) || SameIds(last, r) {
      if Seen(init, r) {
        var i :| 0 <= i < |init| && SameIds(init[i], r);
        assert SameIds((init + [last])[i], r);
      }
      if SameIds(last, r) { assert SameIds((init + [last])[|init|], r); }
    }
  }

  lemma CacheStep(init: seq<AppRequest>, last: AppRequest)
    requires CacheIs(init, Run(init).0.cache) && Run(init).0.store == PlainRun(FirstOnly(init)).0
    ensures CacheIs(init + [last], Run(init + [last]).0.cache)
    ensures Run(init + [last]).0.store == PlainRun(FirstOnly(init + [last])).0
  {
    LogSnoc(init, last);
    PlainSnoc(FirstOnly(init), last);
    hide Run, PlainRun, FirstOnly, Slot, Seen, ExecMemory, DedupKey;
    var reqs := init + [last];
    forall r: AppRequest
      ensures DedupKey(r.clientId, r.reqId) == DedupKey(last.clientId, last.reqId) <==> SameIds(last, r)
      ensures Seen(init, last) && SameIds(last, r) ==> Seen(init, r)
      ensures Seen(init, r) && SameIds(last, r) ==> Seen(init, last)
    {
      DedupKeyInjective(r.clientId, r.reqId, last.clientId, last.reqId);
      if Seen(init, last) && SameIds(last, r) { SeenSame(init, last, r); }
      if Seen(init, r) && SameIds(last, r) { SeenSame(init, r, last); }
    }
  }

  /** `FirstOnly` keeps one request per pair of ids, and one for every pair of ids in the log. */
  lemma {:induction false} FirstOnlyLaw(reqs: seq<AppRequest>)
    ensures forall i, j :: 0 <= i < j < |FirstOnly(reqs)| ==> !SameIds(FirstOnly(reqs)[i], FirstOnly(reqs)[j])
    ensures forall r :: Seen(FirstOnly(reqs), r) <==> Seen(reqs, r)
  {
    if reqs != [] {
      var init, last := reqs[..|reqs| - 1], reqs[|reqs| - 1];
      FirstOnlyLaw(init);
      assert reqs == init + [last];
      SeenSnoc(init, last);
      SeenSnoc(FirstOnly(init), last);
      if Seen(init, last) {
        forall r | SameIds(last, r) ensures Seen(init, r) { SeenSame(init, last, r); }
      } else {
        assert !Seen(FirstOnly(init), last);
      }
    }
  }

  lemma {:induction false} SlotSame(reqs: seq<AppRequest>, r: AppRequest, r': AppRequest)
    requires Seen(reqs, r) && SameIds(r, r')
    ensures Seen(reqs, r') && Slot(reqs, r') == Slot(reqs, r)
  {
    SeenSame(reqs, r, r');
    var init := reqs[..|reqs| - 1];
    if Seen(init, r) {
      SlotSame(init, r, r');
    } else if Seen(init, r') {
      SeenSame(init, r', r);
    }
  }

  /** Every repetition gets the first reply. */
  lemma RepeatsGetFirstReply(reqs: seq<AppRequest>, i: nat, j: nat)
    requires i < j < |reqs| && SameIds(reqs[i], reqs[j])
    ensures |Run(reqs).1| == |reqs| && Run(reqs).1[i] == Run(reqs).1[j]
  {
    DedupRefinesPlain(reqs);
    assert FirstReply(reqs, i) && FirstReply(reqs, j);
    SlotSame(reqs, reqs[i], reqs[j]);
  }

  // ---- what the replies say, in terms of the log

  /** Position i of the log is the last SET or DEL of the key. */
  predicate LastWrite(log: seq<AppRequest>, key: seq<Byte>, i: nat) {
    && i < |log| && log[i].key == key && (log[i].op == 1 || log[i].op == 3)
    && forall j :: i < j < |log| && log[j].key == key ==> log[j].op != 1 && log[j].op != 3
  }

  /** After the log the key holds the value of its last SET, which no DEL of it follows. */
  ghost predicate Holds(log: seq<AppRequest>, key: seq<Byte>, value: seq<Byte>) {
    exists i: nat :: LastWrite(log, key, i) && log[i].op == 1 && log[i].value == value
  }

  ghost predicate Held(log: seq<AppRequest>, key: seq<Byte>) {
    exists i: nat :: LastWrite(log, key, i) && log[i].op == 1
  }

  /** The right reply to req after the log `before`: SET is acknowledged, GET reads the last value written and not
      deleted, DEL counts what it removes, and any other operation is an error. */
  ghost predicate Answers(before: seq<AppRequest>, req: AppRequest, rep: AppReply) {
    if req.op == 1 then rep == AppReply(ReplyOk, [], 0)
    else if req.op == 2 then
      if Held(before, req.key) then rep.status == ReplyOk && Holds(before, req.key, rep.value) && rep.delCount == 0
      else rep == AppReply(ReplyNotFound, [], 0)
    else if req.op == 3 then rep == AppReply(ReplyOk, [], if Held(before, req.key) then 1 else 0)
    else rep == AppReply(ReplyError, [], 0)
  }

  /** The store maps exactly the keys held to the values they hold. */
  ghost predicate Reflects(store: Store, log: seq<AppRequest>) {
    && (forall k :: k in store <==> Held(log, k))
    && (forall k :: k in store ==> Holds(log, k, store[k]))
  }

  lemma LastWriteSnoc(log: seq<AppRequest>, req: AppRequest, key: seq<Byte>, i: nat)
    ensures var writes := req.key == key && (req.op == 1 || req.op == 3);
      LastWrite(log + [req], key, i) <==> if writes then i == |log| else LastWrite(log, key, i)
  {
    var log' := log + [req];
    if i < |log| {
      assert log'[i] == log[i] && log'[|log|] == req;
      if LastWrite(log', key, i) {
        forall j | i < j < |log| && log[j].key == key ensures log[j].op != 1 && log[j].op != 3 {
          assert log'[j] == log[j];
        }
      }
    }
  }

  /** A write changes what its own key holds and no other key; anything else changes nothing. */
  lemma HoldsSnoc(log: seq<AppRequest>, req: AppRequest, key: seq<Byte>)
    ensures var log' := log + [req];
      if req.key == key && req.op == 1 then Held(log', key) && Holds(log', key, req.value)
      else if req.key == key && req.op == 3 then !Held(log', key)
      else (Held(log', key) <==> Held(log, key)) && forall v :: Holds(log, key, v) ==> Holds(log', key, v)
  {
    var log' := log + [req];
    forall i: nat ensures
      LastWrite(log', key, i) <==> if req.key == key && (req.op == 1 || req.op == 3) then i == |log|
                                   else LastWrite(log, key, i)
    {
      LastWriteSnoc(log, req, key, i);
    }
    assert forall i: nat :: i < |log'| ==> log'[i] == if i < |log| then log[i] else req;
    if req.key == key && (req.op == 1 || req.op == 3) {
      assert LastWrite(log', key, |log|);
    } else {
      assert forall i: nat :: LastWrite(log', key, i) ==> i < |log| by { hide LastWrite; WithinLog(log, key); }
    }
  }

  lemma WithinLog(log: seq<AppRequest>, key: seq<Byte>)
    ensures forall i: nat :: LastWrite(log, key, i) ==> i < |log|
  {
  }

  lemma ExecReflects(store: Store, log: seq<AppRequest>, req: AppRequest)
    requires Reflects(store, log)
    ensures var (store', rep) := ExecMemory(store, req);
      Reflects(store', log + [req]) && Answers(log, req, rep)
  {
    hide Holds, Held;
    var store' := ExecMemory(store, req).0;
    forall k ensures k in store' <==> Held(log + [req], k)
      ensures k in store' ==> Holds(log + [req], k, store'[k])
    {
      HoldsSnoc(log, req, k);
    }
  }

  lemma {:induction false} PlainAnswers(log: seq<AppRequest>)
    ensures Reflects(PlainRun(log).0, log) && |PlainRun(log).1| == |log|
    ensures forall i :: 0 <= i < |log| ==> Answers(log[..i], log[i], PlainRun(log).1[i])
  {
    hide Answers, Reflects, ExecMemory;
    if log == [] {
      NothingHeld();
    } else {
      var init, last := log[..|log| - 1], log[|log| - 1];
      PlainAnswers(init);
      assert log == init + [last];
      PlainSnoc(init, last);
      ExecReflects(PlainRun(init).0, init, last);
      forall i | 0 <= i < |log| ensures Answers(log[..i], log[i], PlainRun(log).1[i]) {
        if i < |init| { assert log[..i] == init[..i] && log[i] == init[i]; } else { assert log[..i] == init; }
      }
    }
  }

  lemma NothingHeld()
    ensures Reflects(map[], [])
  {
    assert forall k, i: nat :: !LastWrite([], k, i);
  }

  /** Request i is answered as the first request of its ids is, from the first requests before that one. */
  ghost predicate AnsweredOnce(reqs: seq<AppRequest>, i: nat)
    requires i < |reqs| == |Run(reqs).1|
  {
    && Seen(reqs, reqs[i])
    && var k := Slot(reqs, reqs[i]); Answers(FirstOnly(reqs)[..k], FirstOnly(reqs)[k], Run(reqs).1[i])
  }

  /** Every request is answered as the log without repetitions says, at the place of the first request of its
      ids; and the store holds what that log has written. */
  lemma ReplicatedAnswers(reqs: seq<AppRequest>)
    ensures |Run(reqs).1| == |reqs| && Reflects(Run(reqs).0.store, FirstOnly(reqs))
    ensures forall i :: 0 <= i < |reqs| ==> AnsweredOnce(reqs, i)
  {
    DedupRefinesPlain(reqs);
    PlainAnswers(FirstOnly(reqs));
    hide Run, PlainRun, FirstOnly, Slot, Seen, CacheIs, Answers, Reflects;
    forall i | 0 <= i < |reqs| ensures AnsweredOnce(reqs, i) {
      assert FirstReply(reqs, i);
    }
  }

  predicate DistinctIds(reqs: seq<AppRequest>) {
    forall i, j :: 0 <= i < j < |reqs| ==> !SameIds(reqs[i], reqs[j])
  }

  lemma {:induction false} FirstOnlyDistinct(reqs: seq<AppRequest>)
    requires DistinctIds(reqs)
    ensures FirstOnly(reqs) == reqs
    ensures forall i :: 0 <= i < |reqs| ==> Seen(reqs, reqs[i]) && Slot(reqs, reqs[i]) == i
  {
    if reqs != [] {
      var init, last := reqs[..|reqs| - 1], reqs[|reqs| - 1];
      FirstOnlyDistinct(init);
      assert !Seen(init, last);
      assert reqs == init + [last];
      forall i | 0 <= i < |reqs| ensures Seen(reqs, reqs[i]) && Slot(reqs, reqs[i]) == i {
        assert SameIds(reqs[i], reqs[i]);
        if i < |init| { assert init[i] == reqs[i]; }
      }
    }
  }

  /** When no pair of ids occurs twice, every request is answered from the requests before it. */
  lemma DistinctAnswers(reqs: seq<AppRequest>)
    requires DistinctIds(reqs)
    ensures |Run(reqs).1| == |reqs| && Reflects(Run(reqs).0.store, reqs)
    ensures forall i :: 0 <= i < |reqs| ==> Answers(reqs[..i], reqs[i], Run(reqs).1[i])
  {
    ReplicatedAnswers(reqs);
    FirstOnlyDistinct(reqs);
    hide Run, FirstOnly, Slot, Seen, Answers, Reflects;
    forall i | 0 <= i < |reqs| ensures Answers(reqs[..i], reqs[i], Run(reqs).1[i]) {
      assert AnsweredOnce(reqs, i);
    }
  }

  // ---- the object

  class KVAppExecutor {
    var dedupCache: map<string, AppReply>
    var memStore: Store

    ghost function State(): Machine
      reads this
    {
      Machine(dedupCache, memStore)
    }

    constructor ()
      ensures State() == Machine(map[], map[])
    {
      dedupCache, memStore := map[], map[];
    }

    method DoExecute(req: AppRequest) returns (rep: AppReply)
      modifies this
      ensures (State(), rep) == Execute(old(State()), req)
    {
      var key := DedupKey(req.clientId, req.reqId);
      if key in dedupCache { return dedupCache[key]; }
      rep := DoExecMemory(req);
      dedupCache := dedupCache[key := rep];
    }

    method DoExecMemory(req: AppRequest) returns (rep: AppReply)
      modifies this`memStore
      ensures (memStore, rep) == ExecMemory(old(memStore), req)
    {
      rep := AppReply(ReplyError, [], 0);
      if req.op == OP_SET {
        memStore := memStore[req.key := req.value];
        rep := rep.(status := ReplyOk);
      } else if req.op == OP_GET {
        if req.key !in memStore {
          rep := rep.(status := ReplyNotFound);
        } else {
          rep := rep.(status := ReplyOk, value := memStore[req.key]);
        }
      } else if req.op == OP_DEL {
        rep := rep.(status := ReplyOk, delCount := if req.key in memStore then 1 else 0);
        memStore := memStore - {req.key};
      }
    }
  }
}
