/**
 The keyed token-bucket limiter with lazy eviction.

 Times are integer nanoseconds. A bucket of `golang.org/x/time/rate` is modelled as credit in
 nanoseconds: it refills by one per nanosecond up to `burst * every`, an allowed call costs
 `every`, and a denied call leaves the bucket as it was.
 */
module RateLimit {
  import opened Collections

  type Key = string

  /** `cap` is the credit of a full bucket. */
  datatype Config = Config(every: nat, cap: nat, idleTTL: nat)

  function NewConfig(every: nat, burst: nat, idleTTL: nat): Config {
    Config(every, burst * every, idleTTL)
  }

  datatype Bucket = Bucket(credit: nat, last: int)

  datatype Entry = Entry(bucket: Bucket, lastSeen: int)

  datatype State = State(buckets: map<Key, Entry>, lastEviction: int)

  datatype Call = Call(key: Key, now: int)

  // --- One bucket -----------------------------------------------------------

  function Refilled(cfg: Config, b: Bucket, now: int): nat {
    var elapsed := if now < b.last then 0 else now - b.last;
    if b.credit + elapsed < cfg.cap then b.credit + elapsed else cfg.cap
  }

  function Take(cfg: Config, b: Bucket, now: int): (Bucket, bool) {
    var credit := Refilled(cfg, b, now);
    if credit >= cfg.every then (Bucket(credit - cfg.every, now), true) else (b, false)
  }

  function FullBucket(cfg: Config, now: int): Bucket {
    Bucket(cfg.cap, now)
  }

  // --- The limiter as a function on its state ---------------------------------

  predicate EvictionDue(cfg: Config, s: State, now: int) {
    now - s.lastEviction > cfg.idleTTL / 2
  }

  function WithoutIdle(cfg: Config, buckets: map<Key, Entry>, now: int): map<Key, Entry> {
    map k | k in buckets && !(buckets[k].lastSeen < now - cfg.idleTTL) :: buckets[k]
  }

  function AfterEviction(cfg: Config, s: State, now: int): State {
    if EvictionDue(cfg, s, now) then State(WithoutIdle(cfg, s.buckets, now), now) else s
  }

  function BucketOf(cfg: Config, s: State, key: Key, now: int): Bucket {
    if key in s.buckets then s.buckets[key].bucket else FullBucket(cfg, now)
  }

  function AllowStep(cfg: Config, s: State, key: Key, now: int): (State, bool) {
    var s1 := AfterEviction(cfg, s, now);
    var (b, ok) := Take(cfg, BucketOf(cfg, s1, key, now), now);
    (s1.(buckets := s1.buckets[key := Entry(b, now)]), ok)
  }

  /** The limiter object. One clock reading per call is passed in as `now`. */
  class Limiter {
    const cfg: Config
    var buckets: map<Key, Entry>
    var lastEviction: int
    ghost var start: int
    ghost var calls: seq<Call>

    /** The limiter stands where its calls so far have brought it. */
    ghost predicate Valid()
      reads this
    {
      Contents() == After(cfg, start, calls)
    }

    ghost function Contents(): State
      reads this
    {
      State(buckets, lastEviction)
    }

    constructor (every: nat, burst: nat, idleTTL: nat, now: int)
      ensures cfg == NewConfig(every, burst, idleTTL)
      ensures cfg.every == every && cfg.cap == burst * every && cfg.idleTTL == idleTTL
      ensures Contents() == State(map[], now)
      ensures Valid() && start == now && calls == []
    {
      cfg := NewConfig(every, burst, idleTTL);
      buckets := map[];
      lastEviction := now;
      start, calls := now, [];
    }

    /**
     With times that do not go back and a bucket that refills within the TTL, a call is allowed exactly if a token
     is worth no more than a full bucket, and for every allowed call of the key so far, the allows from that one on,
     this one included, cost at most a full bucket and what has been refilled since.
     */
    method Allow(key: Key, now: int) returns (ok: bool)
      requires Valid()
      modifies this
      ensures Valid() && start == old(start) && calls == old(calls) + [Call(key, now)]
      ensures (Contents(), ok) == AllowStep(cfg, old(Contents()), key, now)
      ensures ok == Verdict(cfg, start, calls)
      ensures cfg.cap <= cfg.idleTTL + 1 && Chronological(start, calls) ==>
                (ok <==> cfg.every <= cfg.cap && FitsSince(cfg, start, calls, cfg.every, cfg.cap))
    {
      if now - lastEviction > cfg.idleTTL / 2 {
        EvictIdle(now);
        lastEviction := now;
      }
      ghost var evicted := buckets;
      if key !in buckets {
        buckets := buckets[key := Entry(FullBucket(cfg, now), now)];
      }
      var b;
      b, ok := TakeToken(buckets[key].bucket, now);
      buckets := buckets[key := Entry(b, now)];
      assert buckets == evicted[key := Entry(b, now)];
      ghost var before := calls;
      calls := calls + [Call(key, now)];
      assert Front(calls) == before && Last(calls) == Call(key, now);
      if cfg.cap <= cfg.idleTTL + 1 && Chronological(start, calls) {
        AllowedIff(cfg, start, calls);
      }
    }

    method TakeToken(b: Bucket, now: int) returns (b': Bucket, ok: bool)
      ensures (b', ok) == Take(cfg, b, now)
    {
      var credit := Refilled(cfg, b, now);
      ok := credit >= cfg.every;
      b' := if ok then Bucket(credit - cfg.every, now) else b;
    }

    method Size() returns (n: nat)
      ensures n == |buckets|
    {
      n := |buckets|;
    }

    method EvictIdle(now: int)
      modifies this`buckets
      ensures buckets == WithoutIdle(cfg, old(buckets), now)
      ensures forall k :: k in buckets <==> k in old(buckets) && now - old(buckets)[k].lastSeen <= cfg.idleTTL
      ensures forall k :: k in buckets ==> buckets[k] == old(buckets)[k]
    {
      var cutoff := now - cfg.idleTTL;
      var todo := buckets.Keys;
      while todo != {}
        invariant todo <= buckets.Keys <= old(buckets).Keys
        invariant forall k :: k in buckets ==> buckets[k] == old(buckets)[k]
        invariant forall k :: k in old(buckets) && k !in todo ==>
                                (k in buckets <==> !(old(buckets)[k].lastSeen < cutoff))
        decreases |todo|
      {
        var k :| k in todo;
        if buckets[k].lastSeen < cutoff {
          buckets := buckets - {k};
        }
        todo := todo - {k};
      }
    }
  }

  // --- Runs ---------------------------------------------------------------------

  ghost predicate Chronological(start: int, calls: seq<Call>) {
    && (forall i :: 0 <= i < |calls| ==> start <= calls[i].now)
    && (forall i, j :: 0 <= i < j < |calls| ==> calls[i].now <= calls[j].now)
  }

  function Last<T>(s: seq<T>): T
    requires s != []
  {
    s[|s| - 1]
  }

  function Front<T>(s: seq<T>): seq<T>
    requires s != []
  {
    s[..|s| - 1]
  }

  function After(cfg: Config, start: int, calls: seq<Call>): State {
    if calls == [] then State(map[], start)
    else AllowStep(cfg, After(cfg, start, Front(calls)), Last(calls).key, Last(calls).now).0
  }

  /** What the limiter answers to the last call of the run. */
  function Verdict(cfg: Config, start: int, calls: seq<Call>): bool
    requires calls != []
  {
    AllowStep(cfg, After(cfg, start, Front(calls)), Last(calls).key, Last(calls).now).1
  }

  // --- The reference: one bucket per key that is never evicted ---------------------

  function OwnTimes(calls: seq<Call>, key: Key): (times: seq<int>)
    ensures calls != [] && Last(calls).key == key ==> times != [] && Last(times) == Last(calls).now
  {
    if calls == [] then []
    else OwnTimes(Front(calls), key) + (if Last(calls).key == key then [Last(calls).now] else [])
  }

  function Solo(cfg: Config, times: seq<int>): Bucket {
    if times == [] then FullBucket(cfg, 0) else Take(cfg, Solo(cfg, Front(times)), Last(times)).0
  }

  function SoloVerdict(cfg: Config, times: seq<int>): bool
    requires times != []
  {
    Take(cfg, Solo(cfg, Front(times)), Last(times)).1
  }

  // --- Eviction is invisible ---------------------------------------------------------

  ghost predicate Settled(cfg: Config, b: Bucket, now: int) {
    b.credit <= cfg.cap && (b.last <= now || b.credit == cfg.cap)
  }

  lemma RefillAdds(cfg: Config, b: Bucket, now: int, later: int)
    requires Settled(cfg, b, now) && now <= later
    ensures Refilled(cfg, b, later) ==
            if Refilled(cfg, b, now) + (later - now) < cfg.cap then Refilled(cfg, b, now) + (later - now)
            else cfg.cap
  {
  }

  /** The limiter's bucket for `k` is worth as much at `now` as the never-evicted one. */
  ghost predicate SameWorth(cfg: Config, s: State, k: Key, solo: Bucket, now: int) {
    && Settled(cfg, solo, now)
    && (k in s.buckets ==>
          var e := s.buckets[k];
          && Settled(cfg, e.bucket, now)
          && (e.bucket.last <= e.lastSeen || e.bucket.credit == cfg.cap)
          && e.lastSeen <= now
          && Refilled(cfg, e.bucket, now) == Refilled(cfg, solo, now))
    && (k !in s.buckets ==> Refilled(cfg, solo, now) == cfg.cap)
  }

  lemma SameWorthLater(cfg: Config, s: State, k: Key, solo: Bucket, now: int, later: int)
    requires SameWorth(cfg, s, k, solo, now) && now <= later
    ensures SameWorth(cfg, s, k, solo, later)
  {
    RefillAdds(cfg, solo, now, later);
    if k in s.buckets {
      RefillAdds(cfg, s.buckets[k].bucket, now, later);
    }
  }

  lemma SameWorthAfterEviction(cfg: Config, s: State, k: Key, solo: Bucket, now: int)
    requires cfg.cap <= cfg.idleTTL + 1
    requires SameWorth(cfg, s, k, solo, now)
    ensures SameWorth(cfg, AfterEviction(cfg, s, now), k, solo, now)
  {
  }

  /** A call on `k` draws alike on the two buckets; a call on another key leaves `k`'s alone. */
  lemma SameWorthAfterCall(cfg: Config, s: State, k: Key, solo: Bucket, key: Key, now: int)
    requires cfg.cap <= cfg.idleTTL + 1
    requires SameWorth(cfg, s, k, solo, now)
    ensures SameWorth(cfg, AllowStep(cfg, s, key, now).0, k, if key == k then Take(cfg, solo, now).0 else solo, now)
  {
    SameWorthAfterEviction(cfg, s, k, solo, now);
  }

  lemma OwnTimesStep(calls: seq<Call>, k: Key)
    requires calls != []
    ensures OwnTimes(calls, k) == OwnTimes(Front(calls), k) + (if Last(calls).key == k then [Last(calls).now] else [])
  {
  }

  lemma SoloStep(cfg: Config, times: seq<int>, t: int)
    ensures Solo(cfg, times + [t]) == Take(cfg, Solo(cfg, times), t).0
  {
    assert Front(times + [t]) == times && Last(times + [t]) == t;
  }

  lemma {:induction false} WorthIsKept(cfg: Config, start: int, calls: seq<Call>, now: int, k: Key)
    requires cfg.cap <= cfg.idleTTL + 1
    requires Chronological(start, calls) && start <= now && (calls != [] ==> Last(calls).now <= now)
    ensures SameWorth(cfg, After(cfg, start, calls), k, Solo(cfg, OwnTimes(calls, k)), now)
  {
    if calls != [] {
      var t := Last(calls).now;
      var times := OwnTimes(Front(calls), k);
      WorthIsKept(cfg, start, Front(calls), t, k);
      SameWorthAfterCall(cfg, After(cfg, start, Front(calls)), k, Solo(cfg, times), Last(calls).key, t);
      OwnTimesStep(calls, k);
      SoloStep(cfg, times, t);
      assert times + [] == times;
      SameWorthLater(cfg, After(cfg, start, calls), k, Solo(cfg, OwnTimes(calls, k)), t, now);
    }
  }

  /** A key's verdicts are those of its own, never-evicted bucket: they depend on its own call times only. */
  lemma VerdictIsSolo(cfg: Config, start: int, calls: seq<Call>)
    requires cfg.cap <= cfg.idleTTL + 1
    requires Chronological(start, calls) && calls != []
    ensures AnswersSolo(cfg, start, calls)
  {
    var k, t := Last(calls).key, Last(calls).now;
    var times := OwnTimes(calls, k);
    assert Front(times) == OwnTimes(Front(calls), k) && Last(times) == t;
    WorthIsKept(cfg, start, Front(calls), t, k);
    SameWorthAfterEviction(cfg, After(cfg, start, Front(calls)), k, Solo(cfg, Front(times)), t);
  }

  // --- The window bound -----------------------------------------------------------------

  /** The credit `n` allows cost, as a sum so that the arithmetic below stays linear. */
  function Price(every: nat, n: nat): nat {
    if n == 0 then 0 else Price(every, n - 1) + every
  }

  lemma {:induction false} PriceIsProduct(every: nat, n: nat)
    ensures Price(every, n) == n * every
  {
    if n > 0 {
      PriceIsProduct(every, n - 1);
    }
  }

  lemma {:induction false} PriceAdds(every: nat, m: nat, n: nat)
    ensures Price(every, m + n) == Price(every, m) + Price(every, n)
  {
    if n > 0 {
      PriceAdds(every, m, n - 1);
    }
  }

  /** Allows among the calls `seg` that a single bucket receives after the calls `pre`. */
  function SoloAllows(cfg: Config, pre: seq<int>, seg: seq<int>): nat {
    if seg == [] then 0
    else SoloAllows(cfg, pre, Front(seg)) + (if SoloVerdict(cfg, pre + seg) then 1 else 0)
  }

  ghost predicate Sorted(times: seq<int>) {
    forall i, j :: 0 <= i < j < |times| ==> times[i] <= times[j]
  }

  lemma {:induction false} SoloSettled(cfg: Config, times: seq<int>, now: int)
    requires Sorted(times) && (times != [] ==> Last(times) <= now)
    ensures Settled(cfg, Solo(cfg, times), now)
  {
    if times != [] {
      SoloSettled(cfg, Front(times), Last(times));
    }
  }

  lemma {:induction false} CreditPaysForAllows(cfg: Config, pre: seq<int>, seg: seq<int>)
    requires seg != [] && Sorted(pre + seg)
    ensures Price(cfg.every, SoloAllows(cfg, pre, seg)) + Refilled(cfg, Solo(cfg, pre + seg), Last(seg))
            <= cfg.cap + (Last(seg) - seg[0])
  {
    var t := Last(seg);
    var before := Solo(cfg, pre + Front(seg));
    assert Front(pre + seg) == pre + Front(seg) && Last(pre + seg) == t;
    SoloSettled(cfg, pre + Front(seg), t);
    if |seg| == 1 {
      assert Front(seg) == [];
    } else {
      var u := Last(Front(seg));
      assert u == (pre + seg)[|pre| + |seg| - 2] <= t;
      CreditPaysForAllows(cfg, pre, Front(seg));
      assert Last(pre + Front(seg)) == u;
      SoloSettled(cfg, pre + Front(seg), u);
      RefillAdds(cfg, before, u, t);
    }
  }

  lemma {:induction false} ProductGrows(m: nat, n: nat, every: nat)
    requires m <= n
    ensures m * every <= n * every
  {
    if m < n {
      ProductGrows(m, n - 1, every);
      assert n * every == (n - 1) * every + every;
    }
  }

  /** What costs at most a full bucket and `d` nanoseconds of refill is at most `burst + d / every` allows. */
  lemma AtMostBurstAndRefill(every: nat, burst: nat, n: nat, d: nat)
    requires every > 0 && n * every <= burst * every + d
    ensures n <= burst + d / every
  {
    var q := d / every;
    assert d < q * every + every;
    assert (burst + q + 1) * every == burst * every + q * every + every;
    if n > burst + q {
      ProductGrows(burst + q + 1, n, every);
      assert false;
    }
  }

  /** Allows the limiter gives `key` from call `from` of the run on. */
  function KeyAllows(cfg: Config, start: int, calls: seq<Call>, from: nat, key: Key): nat {
    if |calls| <= from then 0
    else KeyAllows(cfg, start, Front(calls), from, key)
         + (if Last(calls).key == key && Verdict(cfg, start, calls) then 1 else 0)
  }

  /** The last call of the run is answered as the key's own, never-evicted bucket would. */
  ghost predicate AnswersSolo(cfg: Config, start: int, calls: seq<Call>)
    requires calls != []
  {
    Verdict(cfg, start, calls) == SoloVerdict(cfg, OwnTimes(calls, Last(calls).key))
  }

  ghost predicate VerdictsAreSolo(cfg: Config, start: int, calls: seq<Call>) {
    forall n {:trigger AnswersSolo(cfg, start, calls[..n])} :: 0 < n <= |calls| ==> AnswersSolo(cfg, start, calls[..n])
  }

  lemma {:induction false} OwnTimesSorted(calls: seq<Call>, key: Key, start: int)
    requires Chronological(start, calls)
    ensures Sorted(OwnTimes(calls, key))
    ensures forall t :: t in OwnTimes(calls, key) ==> start <= t <= Last(calls).now
  {
    if calls != [] {
      OwnTimesSorted(Front(calls), key, start);
      var front := OwnTimes(Front(calls), key);
      assert forall i :: 0 <= i < |front| ==> front[i] in front;
    }
  }

  /** The calls of `key` split at `from`; the later ones lie between the first and last time of the window. */
  lemma {:induction false} OwnTimesSplit(calls: seq<Call>, key: Key, from: nat, start: int) returns (seg: seq<int>)
    requires from <= |calls| && Chronological(start, calls)
    ensures OwnTimes(calls, key) == OwnTimes(calls[..from], key) + seg
    ensures forall t :: t in seg ==> from < |calls| && calls[from].now <= t <= Last(calls).now
  {
    if |calls| == from {
      assert calls[..from] == calls;
      seg := [];
    } else {
      assert Front(calls)[..from] == calls[..from];
      var seg' := OwnTimesSplit(Front(calls), key, from, start);
      seg := seg' + (if Last(calls).key == key then [Last(calls).now] else []);
    }
  }

  lemma {:induction false} KeyAllowsAreSolo(cfg: Config, start: int, calls: seq<Call>, from: nat, key: Key,
                                            seg: seq<int>)
    requires from <= |calls| && VerdictsAreSolo(cfg, start, calls)
    requires OwnTimes(calls, key) == OwnTimes(calls[..from], key) + seg
    ensures KeyAllows(cfg, start, calls, from, key) == SoloAllows(cfg, OwnTimes(calls[..from], key), seg)
  {
    var pre := OwnTimes(calls[..from], key);
    if |calls| == from {
      assert calls[..from] == calls && seg == [];
    } else {
      var front, seg' := Front(calls), if Last(calls).key == key then FrontOf(seg) else seg;
      assert front[..from] == calls[..from];
      SoloVerdictsBefore(cfg, start, calls);
      SplitBefore(calls, from, key, seg);
      KeyAllowsAreSolo(cfg, start, front, from, key, seg');
      OneMoreAllow(cfg, start, calls, from, key, pre, seg);
    }
  }

  function FrontOf(seg: seq<int>): seq<int> {
    if seg == [] then [] else Front(seg)
  }

  lemma SplitBefore(calls: seq<Call>, from: nat, key: Key, seg: seq<int>)
    requires from < |calls| && OwnTimes(calls, key) == OwnTimes(calls[..from], key) + seg
    ensures OwnTimes(Front(calls), key)
            == OwnTimes(calls[..from], key) + (if Last(calls).key == key then FrontOf(seg) else seg)
    ensures Last(calls).key == key ==> seg != []
  {
    OwnTimesStep(calls, key);
    if Last(calls).key == key {
      assert calls[..from] == Front(calls)[..from];
      OwnTimesGrow(calls[..from], Front(calls), key);
      LastOwnTime(OwnTimes(Front(calls), key), Last(calls).now, OwnTimes(calls[..from], key), seg);
    }
  }

  lemma OneMoreAllow(cfg: Config, start: int, calls: seq<Call>, from: nat, key: Key, pre: seq<int>, seg: seq<int>)
    requires from < |calls| && AnswersSolo(cfg, start, calls) && OwnTimes(calls, key) == pre + seg
    requires Last(calls).key == key ==> seg != []
    requires KeyAllows(cfg, start, Front(calls), from, key)
             == SoloAllows(cfg, pre, if Last(calls).key == key then FrontOf(seg) else seg)
    ensures KeyAllows(cfg, start, calls, from, key) == SoloAllows(cfg, pre, seg)
  {
  }

  lemma LastOwnTime(front: seq<int>, now: int, pre: seq<int>, seg: seq<int>)
    requires front + [now] == pre + seg && |pre| <= |front|
    ensures seg != [] && Last(seg) == now && front == pre + Front(seg)
  {
    assert |seg| > 0;
    assert (front + [now])[|front|] == (pre + seg)[|front|];
    assert front == (front + [now])[..|front|] == (pre + seg)[..|front|];
  }

  lemma SoloVerdictsBefore(cfg: Config, start: int, calls: seq<Call>)
    requires VerdictsAreSolo(cfg, start, calls) && calls != []
    ensures VerdictsAreSolo(cfg, start, Front(calls)) && AnswersSolo(cfg, start, calls)
  {
    forall n | 0 < n <= |Front(calls)|
      ensures AnswersSolo(cfg, start, Front(calls)[..n])
    {
      assert Front(calls)[..n] == calls[..n];
    }
    assert calls[..|calls|] == calls;
  }

  lemma {:induction false} OwnTimesGrow(pre: seq<Call>, calls: seq<Call>, key: Key)
    requires pre <= calls
    ensures |OwnTimes(pre, key)| <= |OwnTimes(calls, key)|
  {
    if |pre| < |calls| {
      OwnTimesGrow(pre, Front(calls), key);
    } else {
      assert pre == calls;
    }
  }

  lemma KeyPaysForAllows(cfg: Config, start: int, calls: seq<Call>, from: nat, key: Key)
    requires VerdictsAreSolo(cfg, start, calls) && Chronological(start, calls)
    requires from < |calls|
    ensures Price(cfg.every, KeyAllows(cfg, start, calls, from, key)) <= cfg.cap + (Last(calls).now - calls[from].now)
  {
    var seg := OwnTimesSplit(calls, key, from, start);
    KeyAllowsAreSolo(cfg, start, calls, from, key, seg);
    OwnTimesSorted(calls, key, start);
    if seg != [] {
      assert seg[0] in seg && Last(seg) in seg;
      CreditPaysForAllows(cfg, OwnTimes(calls[..from], key), seg);
    }
  }

  lemma VerdictsSolo(cfg: Config, start: int, calls: seq<Call>)
    requires cfg.cap <= cfg.idleTTL + 1 && Chronological(start, calls)
    ensures VerdictsAreSolo(cfg, start, calls)
  {
    forall n | 0 < n <= |calls|
      ensures AnswersSolo(cfg, start, calls[..n])
    {
      VerdictIsSolo(cfg, start, calls[..n]);
    }
  }

  /** Whatever else happens in the run, `key` gets at most `burst + d / every` allows in a window of length `d`. */
  lemma WindowBound(every: nat, burst: nat, idleTTL: nat, start: int, calls: seq<Call>, from: nat, key: Key, d: nat)
    requires every > 0 && burst * every <= idleTTL + 1
    requires Chronological(start, calls)
    requires from < |calls| && Last(calls).now - calls[from].now <= d
    ensures KeyAllows(NewConfig(every, burst, idleTTL), start, calls, from, key) <= burst + d / every
  {
    var cfg := NewConfig(every, burst, idleTTL);
    VerdictsSolo(cfg, start, calls);
    KeyPaysForAllows(cfg, start, calls, from, key);
    var n := KeyAllows(cfg, start, calls, from, key);
    PriceIsProduct(every, n);
    AtMostBurstAndRefill(every, burst, n, d);
  }

  // --- When exactly a call is allowed -----------------------------------------------------------

  /** The credit of the key's own bucket. */
  function Credit(cfg: Config, calls: seq<Call>, k: Key, now: int): nat {
    Refilled(cfg, Solo(cfg, OwnTimes(calls, k)), now)
  }

  /** Call i is one of the key's, and was allowed. */
  ghost predicate AllowedAt(cfg: Config, start: int, calls: seq<Call>, k: Key, i: nat)
    requires i < |calls|
  {
    calls[i].key == k && Verdict(cfg, start, calls[..i + 1])
  }

  ghost predicate AffordsSince(cfg: Config, start: int, calls: seq<Call>, k: Key, now: int, x: int, i: nat)
    requires i < |calls|
  {
    x + Price(cfg.every, KeyAllows(cfg, start, calls, i, k)) <= cfg.cap + (now - calls[i].now)
  }

  /** From each allowed call on, the allows of the key and `x` more cost at most a full bucket and the refill since. */
  ghost predicate Affords(cfg: Config, start: int, calls: seq<Call>, k: Key, now: int, x: int) {
    forall i: nat :: i < |calls| && AllowedAt(cfg, start, calls, k, i) ==>
      AffordsSince(cfg, start, calls, k, now, x, i)
  }

  lemma AffordsWithout(cfg: Config, start: int, calls: seq<Call>, k: Key, now: int, x: int)
    requires calls != [] && !(Last(calls).key == k && Verdict(cfg, start, calls))
    ensures Affords(cfg, start, calls, k, now, x) <==> Affords(cfg, start, Front(calls), k, now, x)
  {
    var n := |calls| - 1;
    assert calls[..n + 1] == calls;
    forall i: nat | i < n
      ensures AllowedAt(cfg, start, calls, k, i) <==> AllowedAt(cfg, start, Front(calls), k, i)
      ensures KeyAllows(cfg, start, calls, i, k) == KeyAllows(cfg, start, Front(calls), i, k)
    {
      assert Front(calls)[..i + 1] == calls[..i + 1];
    }
    assert !AllowedAt(cfg, start, calls, k, n);
  }

  lemma AffordsWith(cfg: Config, start: int, calls: seq<Call>, k: Key, now: int, x: int)
    requires calls != [] && Last(calls).key == k && Verdict(cfg, start, calls)
    ensures var s := Last(calls).now;
            var y := x + cfg.every - (now - s);
            Affords(cfg, start, calls, k, now, x) <==> y <= cfg.cap && Affords(cfg, start, Front(calls), k, s, y)
  {
    var n := |calls| - 1;
    assert calls[..n + 1] == calls;
    forall i: nat | i < n
      ensures AllowedAt(cfg, start, calls, k, i) <==> AllowedAt(cfg, start, Front(calls), k, i)
      ensures Price(cfg.every, KeyAllows(cfg, start, calls, i, k))
           == Price(cfg.every, KeyAllows(cfg, start, Front(calls), i, k)) + cfg.every
    {
      assert Front(calls)[..i + 1] == calls[..i + 1];
    }
    assert AllowedAt(cfg, start, calls, k, n) && KeyAllows(cfg, start, calls, n, k) == 1;
    assert Price(cfg.every, 1) == cfg.every;
  }

  /** The credit is at least `x` exactly if the allows so far can afford it. */
  lemma {:induction false} CreditIff(cfg: Config, start: int, calls: seq<Call>, k: Key, now: int, x: int)
    requires cfg.cap <= cfg.idleTTL + 1 && Chronological(start, calls) && (calls != [] ==> Last(calls).now <= now)
    requires x <= cfg.cap
    ensures Credit(cfg, calls, k, now) >= x <==> Affords(cfg, start, calls, k, now, x)
    decreases |calls|
  {
    if calls != [] {
      var s := Last(calls).now;
      OwnTimesStep(calls, k);
      if Last(calls).key != k {
        assert OwnTimes(Front(calls), k) + [] == OwnTimes(Front(calls), k);
        CreditIff(cfg, start, Front(calls), k, now, x);
        AffordsWithout(cfg, start, calls, k, now, x);
      } else {
        SoloStep(cfg, OwnTimes(Front(calls), k), s);
        VerdictIsSolo(cfg, start, calls);
        if Verdict(cfg, start, calls) {
          AffordsWith(cfg, start, calls, k, now, x);
          CreditAfterAllow(cfg, start, calls, k, now, x);
        } else {
          CreditIff(cfg, start, Front(calls), k, now, x);
          AffordsWithout(cfg, start, calls, k, now, x);
        }
      }
    }
  }

  lemma {:induction false} CreditAfterAllow(cfg: Config, start: int, calls: seq<Call>, k: Key, now: int, x: int)
    requires cfg.cap <= cfg.idleTTL + 1 && Chronological(start, calls) && x <= cfg.cap
    requires calls != [] && Last(calls).key == k && Last(calls).now <= now
    requires SoloVerdict(cfg, OwnTimes(calls, k))
    ensures var s := Last(calls).now;
            var y := x + cfg.every - (now - s);
            Credit(cfg, calls, k, now) >= x <==> y <= cfg.cap && Affords(cfg, start, Front(calls), k, s, y)
    decreases |calls|, 0
  {
    var s := Last(calls).now;
    var y := x + cfg.every - (now - s);
    var times := OwnTimes(Front(calls), k);
    OwnTimesStep(calls, k);
    SoloStep(cfg, times, s);
    assert Front(times + [s]) == times;
    if y <= cfg.cap {
      CreditIff(cfg, start, Front(calls), k, s, y);
    }
  }

  /** The key's allows from call i on, and the last call, cost at most a full bucket and what was refilled since i. */
  ghost predicate PaidSince(cfg: Config, start: int, calls: seq<Call>, every: nat, full: nat, i: nat)
    requires i < |calls| - 1
  {
    var n := |calls| - 1;
    (KeyAllows(cfg, start, calls[..n], i, calls[n].key) + 1) * every <= full + (calls[n].now - calls[i].now)
  }

  /** So it is for each allowed call of the last caller's; denied calls do not count. */
  ghost predicate FitsSince(cfg: Config, start: int, calls: seq<Call>, every: nat, full: nat)
    requires calls != []
  {
    forall i: nat :: i < |calls| - 1 && AllowedAt(cfg, start, calls, Last(calls).key, i) ==>
      PaidSince(cfg, start, calls, every, full, i)
  }

  lemma PaidAsAfforded(cfg: Config, start: int, calls: seq<Call>, i: nat)
    requires i < |calls| - 1
    ensures AllowedAt(cfg, start, calls, Last(calls).key, i)
            <==> AllowedAt(cfg, start, Front(calls), Last(calls).key, i)
    ensures PaidSince(cfg, start, calls, cfg.every, cfg.cap, i)
            <==> AffordsSince(cfg, start, Front(calls), Last(calls).key, Last(calls).now, cfg.every, i)
  {
    assert Front(calls)[..i + 1] == calls[..i + 1];
    PriceOfNext(cfg.every, KeyAllows(cfg, start, Front(calls), i, Last(calls).key));
  }

  lemma FitsAsAfforded(cfg: Config, start: int, calls: seq<Call>)
    requires calls != []
    ensures FitsSince(cfg, start, calls, cfg.every, cfg.cap)
            <==> Affords(cfg, start, Front(calls), Last(calls).key, Last(calls).now, cfg.every)
  {
    forall i: nat | i < |calls| - 1
      ensures AllowedAt(cfg, start, calls, Last(calls).key, i)
              <==> AllowedAt(cfg, start, Front(calls), Last(calls).key, i)
      ensures PaidSince(cfg, start, calls, cfg.every, cfg.cap, i)
              <==> AffordsSince(cfg, start, Front(calls), Last(calls).key, Last(calls).now, cfg.every, i)
    {
      PaidAsAfforded(cfg, start, calls, i);
    }
  }

  lemma PriceOfNext(every: nat, n: nat)
    ensures every + Price(every, n) == (n + 1) * every
  {
    PriceIsProduct(every, n);
  }

  /** A call is allowed exactly if a token costs at most a full bucket and the key's allows so far can afford it. */
  lemma AllowedIff(cfg: Config, start: int, calls: seq<Call>)
    requires cfg.cap <= cfg.idleTTL + 1 && Chronological(start, calls) && calls != []
    ensures Verdict(cfg, start, calls)
            <==> cfg.every <= cfg.cap && FitsSince(cfg, start, calls, cfg.every, cfg.cap)
  {
    var k, t, before := Last(calls).key, Last(calls).now, Front(calls);
    VerdictIsSolo(cfg, start, calls);
    OwnTimesStep(calls, k);
    assert Front(OwnTimes(calls, k)) == OwnTimes(before, k) && Last(OwnTimes(calls, k)) == t;
    assert Verdict(cfg, start, calls) <==> Credit(cfg, before, k, t) >= cfg.every;
    if cfg.every <= cfg.cap {
      CreditIff(cfg, start, before, k, t, cfg.every);
      FitsAsAfforded(cfg, start, calls);
    }
  }

  // --- When exactly eviction is invisible ------------------------------------------------

  function Burst(key: Key, now: int, n: nat): seq<Call> {
    seq(n, _ => Call(key, now))
  }

  /** Drain the bucket, wait one nanosecond more than the TTL, drain it again. */
  function DrainTwice(burst: nat, idleTTL: nat, n: nat): seq<Call> {
    if n <= burst then Burst("", 0, n)
    else Burst("", 0, burst) + Burst("", idleTTL + 1, n - burst)
  }

  function DrainTime(burst: nat, idleTTL: nat, n: nat): nat {
    if n <= burst then 0 else idleTTL + 1
  }

  /** Calls the bucket can still pay for after n of the drain. */
  function DrainLeft(burst: nat, n: nat): nat
    requires n <= 2 * burst
  {
    if n <= burst then burst - n else 2 * burst - n
  }

  /** The state n > 0 calls of the drain leave behind. */
  ghost predicate Drained(cfg: Config, burst: nat, n: nat, s: State)
    requires n <= 2 * burst
  {
    var t := DrainTime(burst, cfg.idleTTL, n);
    "" in s.buckets && s.buckets[""] == Entry(Bucket(Price(cfg.every, DrainLeft(burst, n)), t), t)
      && s.lastEviction == t
  }

  lemma DrainTwiceStep(burst: nat, idleTTL: nat, n: nat)
    requires 0 < n <= 2 * burst
    ensures var calls := DrainTwice(burst, idleTTL, n);
            calls != [] && Front(calls) == DrainTwice(burst, idleTTL, n - 1)
              && Last(calls) == Call("", DrainTime(burst, idleTTL, n))
  {
  }

  lemma DrainKeepsDraining(cfg: Config, burst: nat, n: nat, s: State)
    requires cfg.cap == Price(cfg.every, burst) && 0 < n <= 2 * burst
    requires if n == 1 then s == State(map[], 0) else Drained(cfg, burst, n - 1, s)
    ensures var (s', ok) := AllowStep(cfg, s, "", DrainTime(burst, cfg.idleTTL, n)); ok && Drained(cfg, burst, n, s')
  {
    PriceAdds(cfg.every, DrainLeft(burst, n), burst - DrainLeft(burst, n));
    DrainStep(cfg, s, DrainTime(burst, cfg.idleTTL, n), Price(cfg.every, DrainLeft(burst, n)));
  }

  lemma {:induction false} DrainTwiceAllowed(cfg: Config, burst: nat, n: nat)
    requires cfg.cap == Price(cfg.every, burst) && n <= 2 * burst
    ensures KeyAllows(cfg, 0, DrainTwice(burst, cfg.idleTTL, n), 0, "") == n
    ensures n > 0 ==> Drained(cfg, burst, n, After(cfg, 0, DrainTwice(burst, cfg.idleTTL, n)))
  {
    if n > 0 {
      DrainTwiceStep(burst, cfg.idleTTL, n);
      DrainTwiceAllowed(cfg, burst, n - 1);
      assert n == 1 ==> DrainTwice(burst, cfg.idleTTL, 0) == [];
      DrainKeepsDraining(cfg, burst, n, After(cfg, 0, DrainTwice(burst, cfg.idleTTL, n - 1)));
    }
  }

  /** A call on a bucket that is fresh, or was left at the same instant, leaves `left` of its credit. */
  lemma DrainStep(cfg: Config, s: State, t: int, left: nat)
    requires left + cfg.every <= cfg.cap
    requires if "" in s.buckets && s.buckets[""].lastSeen == t
             then !EvictionDue(cfg, s, t) && s.buckets[""].bucket == Bucket(left + cfg.every, t)
             else left + cfg.every == cfg.cap
                  && ("" in s.buckets ==> EvictionDue(cfg, s, t) && s.buckets[""].lastSeen < t - cfg.idleTTL)
    ensures var (s', ok) := AllowStep(cfg, s, "", t);
            && ok
            && s'.lastEviction == (if EvictionDue(cfg, s, t) then t else s.lastEviction)
            && "" in s'.buckets
            && s'.buckets[""] == Entry(Bucket(left, t), t)
  {
  }

  /**
   Over every run, the limiter answers like buckets that are never evicted, if and only if a bucket
   is full again after more than `idleTTL` without a call.
   */
  lemma EvictionInvisibleIff(every: nat, burst: nat, idleTTL: nat)
    ensures (forall start, calls: seq<Call> :: Chronological(start, calls)
                                               ==> VerdictsAreSolo(NewConfig(every, burst, idleTTL), start, calls))
            <==> burst * every <= idleTTL + 1
  {
    var cfg := NewConfig(every, burst, idleTTL);
    if cfg.cap <= idleTTL + 1 {
      forall start, calls: seq<Call> | Chronological(start, calls)
        ensures VerdictsAreSolo(cfg, start, calls)
      {
        VerdictsSolo(cfg, start, calls);
      }
    } else {
      PriceIsProduct(every, burst);
      ForgottenDebt(cfg, burst);
    }
  }

  lemma DrainTwiceTimes(burst: nat, idleTTL: nat)
    requires burst > 0
    ensures var calls := DrainTwice(burst, idleTTL, 2 * burst);
            |calls| == 2 * burst && calls[0].now == 0 && Last(calls).now == idleTTL + 1 && Chronological(0, calls)
  {
  }

  /** With a shorter TTL the second drain is allowed in full, which the never-evicted bucket cannot pay for. */
  lemma ForgottenDebt(cfg: Config, burst: nat)
    requires cfg.cap == Price(cfg.every, burst) > cfg.idleTTL + 1
    ensures Chronological(0, DrainTwice(burst, cfg.idleTTL, 2 * burst))
    ensures !VerdictsAreSolo(cfg, 0, DrainTwice(burst, cfg.idleTTL, 2 * burst))
  {
    var calls := DrainTwice(burst, cfg.idleTTL, 2 * burst);
    assert burst > 0;
    DrainTwiceAllowed(cfg, burst, 2 * burst);
    DrainTwiceTimes(burst, cfg.idleTTL);
    PriceAdds(cfg.every, burst, burst);
    if VerdictsAreSolo(cfg, 0, calls) {
      KeyPaysForAllows(cfg, 0, calls, 0, "");
      assert false;
    }
  }

  // --- Eviction bounds ----------------------------------------------------------------------

  ghost predicate EvictsAt(cfg: Config, start: int, calls: seq<Call>, i: nat)
    requires i < |calls|
  {
    EvictionDue(cfg, After(cfg, start, calls[..i]), calls[i].now)
  }

  lemma {:induction false} LastEvictionNotBefore(cfg: Config, start: int, calls: seq<Call>, i: nat)
    requires Chronological(start, calls) && i < |calls| && EvictsAt(cfg, start, calls, i)
    ensures calls[i].now <= After(cfg, start, calls).lastEviction <= Last(calls).now
  {
    if i == |calls| - 1 {
      assert calls[..i] == Front(calls);
    } else {
      assert Front(calls)[..i] == calls[..i];
      LastEvictionNotBefore(cfg, start, Front(calls), i);
    }
  }

  /** Two sweeps of the whole map are more than `idleTTL / 2` apart. */
  lemma EvictionsAreSpaced(cfg: Config, start: int, calls: seq<Call>, i: nat, j: nat)
    requires Chronological(start, calls) && i < j < |calls|
    requires EvictsAt(cfg, start, calls, i) && EvictsAt(cfg, start, calls, j)
    ensures calls[j].now - calls[i].now > cfg.idleTTL / 2
  {
    assert calls[..j][..i] == calls[..i];
    LastEvictionNotBefore(cfg, start, calls[..j], i);
  }

  ghost predicate Recent(cfg: Config, s: State) {
    forall k :: k in s.buckets ==> s.lastEviction - cfg.idleTTL <= s.buckets[k].lastSeen
  }

  lemma CallKeepsRecent(cfg: Config, s: State, key: Key, now: int)
    requires Recent(cfg, s) && s.lastEviction <= now
    ensures var s' := AllowStep(cfg, s, key, now).0;
            Recent(cfg, s') && s.lastEviction <= s'.lastEviction <= now <= s'.lastEviction + cfg.idleTTL / 2
  {
  }

  lemma {:induction false} SurvivorsAreRecent(cfg: Config, start: int, calls: seq<Call>)
    requires Chronological(start, calls)
    ensures var s := After(cfg, start, calls);
            && Recent(cfg, s) && start <= s.lastEviction
            && (calls != [] ==> s.lastEviction <= Last(calls).now <= s.lastEviction + cfg.idleTTL / 2)
  {
    if calls != [] {
      SurvivorsAreRecent(cfg, start, Front(calls));
      CallKeepsRecent(cfg, After(cfg, start, Front(calls)), Last(calls).key, Last(calls).now);
    }
  }

  lemma {:induction false} BucketsWereCalled(cfg: Config, start: int, calls: seq<Call>, k: Key)
    requires k in After(cfg, start, calls).buckets
    ensures Call(k, After(cfg, start, calls).buckets[k].lastSeen) in calls
  {
    var s := After(cfg, start, Front(calls));
    if k == Last(calls).key {
      assert calls[|calls| - 1] == Call(k, Last(calls).now);
    } else {
      BucketsWereCalled(cfg, start, Front(calls), k);
    }
  }

  /** Memory bound: a bucket in the map belongs to a key that called within the last one and a half TTLs. */
  lemma LiveBucketsBound(cfg: Config, start: int, calls: seq<Call>)
    requires Chronological(start, calls) && calls != []
    ensures forall k :: k in After(cfg, start, calls).buckets ==>
                          exists i :: 0 <= i < |calls| && calls[i].key == k
                                      && Last(calls).now - calls[i].now <= cfg.idleTTL + cfg.idleTTL / 2
  {
    SurvivorsAreRecent(cfg, start, calls);
    var s := After(cfg, start, calls);
    forall k | k in s.buckets
      ensures exists i :: 0 <= i < |calls| && calls[i].key == k
                          && Last(calls).now - calls[i].now <= cfg.idleTTL + cfg.idleTTL / 2
    {
      BucketsWereCalled(cfg, start, calls, k);
      var i :| 0 <= i < |calls| && calls[i] == Call(k, s.buckets[k].lastSeen);
    }
  }

  /** The keys that called at `since` or later. */
  function CallersSince(calls: seq<Call>, since: int): set<Key> {
    set i | 0 <= i < |calls| && calls[i].now >= since :: calls[i].key
  }

  /** What `Size` reports never exceeds the number of keys that called within one and a half TTLs. */
  lemma SizeBound(cfg: Config, start: int, calls: seq<Call>)
    requires Chronological(start, calls) && calls != []
    ensures Last(calls).key in After(cfg, start, calls).buckets
    ensures |After(cfg, start, calls).buckets|
         <= |CallersSince(calls, Last(calls).now - cfg.idleTTL - cfg.idleTTL / 2)|
  {
    var keys := After(cfg, start, calls).buckets.Keys;
    var callers := CallersSince(calls, Last(calls).now - cfg.idleTTL - cfg.idleTTL / 2);
    LiveBucketsBound(cfg, start, calls);
    forall k | k in keys
      ensures k in callers
    {
    }
    Subset(keys, callers);
  }

  /** After such a silence only the caller's own bucket is left. */
  lemma AfterSilence(cfg: Config, start: int, calls: seq<Call>)
    requires Chronological(start, calls) && calls != []
    requires forall i :: 0 <= i < |calls| - 1 ==> calls[i].now < Last(calls).now - cfg.idleTTL - cfg.idleTTL / 2
    ensures After(cfg, start, calls).buckets.Keys == {Last(calls).key} && |After(cfg, start, calls).buckets| == 1
  {
    var keys := After(cfg, start, calls).buckets.Keys;
    LiveBucketsBound(cfg, start, calls);
    forall k | k in keys
      ensures k == Last(calls).key
    {
      var i :| 0 <= i < |calls| && calls[i].key == k
               && Last(calls).now - calls[i].now <= cfg.idleTTL + cfg.idleTTL / 2;
      assert i == |calls| - 1;
    }
    assert Last(calls).key in keys;
    assert keys == {Last(calls).key};
  }

  /** The three limiters the server builds meet the condition. */
  const AUTH_IP := NewConfig(2_000_000_000, 10, 1_800_000_000_000)
  const LOGIN_USER := NewConfig(12_000_000_000, 5, 1_800_000_000_000)
  const EMAIL_CHANGE := NewConfig(120_000_000_000, 5, 1_800_000_000_000)

  lemma ServerLimitersNeverForget(cfg: Config, start: int, calls: seq<Call>)
    requires cfg in {AUTH_IP, LOGIN_USER, EMAIL_CHANGE}
    requires Chronological(start, calls)
    ensures VerdictsAreSolo(cfg, start, calls)
  {
    VerdictsSolo(cfg, start, calls);
  }

  /**
   In seconds, for the server's three: ten calls and one more every 2 s for an address, five and one more every 12 s
   for a login, five and one more every 120 s for an e-mail change.
   */
  lemma ServerLimits(start: int, calls: seq<Call>)
    requires Chronological(start, calls) && calls != []
    ensures Verdict(AUTH_IP, start, calls) <==> FitsSince(AUTH_IP, start, calls, 2_000_000_000, 20_000_000_000)
    ensures Verdict(LOGIN_USER, start, calls)
            <==> FitsSince(LOGIN_USER, start, calls, 12_000_000_000, 60_000_000_000)
    ensures Verdict(EMAIL_CHANGE, start, calls)
            <==> FitsSince(EMAIL_CHANGE, start, calls, 120_000_000_000, 600_000_000_000)
  {
    AllowedIff(AUTH_IP, start, calls);
    AllowedIff(LOGIN_USER, start, calls);
    AllowedIff(EMAIL_CHANGE, start, calls);
  }
}
