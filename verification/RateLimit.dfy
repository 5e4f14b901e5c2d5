/**
 Token-bucket rate limiting (relay/src/ratelimit.rs). Time is in seconds and, like the token
 count, a real number: rounding is not modelled.
 */
module RateLimit {
  import opened Common

  /** An address as its octets: four for V4, sixteen for V6. */
  datatype Ip = V4(octets: Bytes) | V6(octets: Bytes)

  predicate Proper(ip: Ip) { |ip.octets| == if ip.V4? then 4 else 16 }

  const ZEROS: Bytes := [0, 0, 0, 0, 0, 0, 0, 0]

  /** A V6 address is bucketed by its /64 prefix, a V4 address whole. */
  function BucketKey(ip: Ip): (key: Ip)
    requires Proper(ip)
    ensures Proper(key)
  {
    if ip.V6? then V6(ip.octets[..8] + ZEROS) else ip
  }

  /** Two addresses share a bucket exactly when they are equal or lie in one /64. */
  lemma {:induction false} SharedBucket(a: Ip, b: Ip)
    requires Proper(a) && Proper(b)
    ensures BucketKey(a) == BucketKey(b) <==> a == b || (a.V6? && b.V6? && a.octets[..8] == b.octets[..8])
    ensures BucketKey(BucketKey(a)) == BucketKey(a)
  {
    if a.V6? { assert BucketKey(a).octets[..8] == a.octets[..8]; }
    if b.V6? { assert BucketKey(b).octets[..8] == b.octets[..8]; }
  }

  datatype Bucket = Bucket(tokens: real, last: real)

  datatype Limiter = Limiter(rate: real, burst: real, buckets: map<Ip, Bucket>)

  const PURGE_ABOVE := 10_000

  function MinReal(a: real, b: real): (m: real) { if a <= b then a else b }

  /** `duration_since` saturates at zero. */
  function Elapsed(last: real, now: real): (dt: real) { if last <= now then now - last else 0.0 }

  function Refilled(rate: real, b: Bucket, now: real): (tokens: real) { b.tokens + Elapsed(b.last, now) * rate }

  /** What a bucket holds now: refilled since it was last used, up to the burst. */
  function Level(rate: real, burst: real, b: Bucket, now: real): (tokens: real) { MinReal(Refilled(rate, b, now), burst) }

  /** Full buckets are dropped once the map has grown large. */
  function Purge(l: Limiter, now: real): (r: Limiter) {
    l.(buckets := map k | k in l.buckets && Refilled(l.rate, l.buckets[k], now) < l.burst :: l.buckets[k])
  }

  /** Take a token for a bucket; a bucket not there yet starts full. */
  function Take(l: Limiter, key: Ip, now: real): (r: (Limiter, bool)) {
    var b := if key in l.buckets then l.buckets[key] else Bucket(l.burst, now);
    var tokens := Level(l.rate, l.burst, b, now);
    if tokens >= 1.0 then (l.(buckets := l.buckets[key := Bucket(tokens - 1.0, now)]), true)
    else (l.(buckets := l.buckets[key := Bucket(tokens, now)]), false)
  }

  function Admit(l: Limiter, ip: Ip, now: real): (r: (Limiter, bool))
    requires Proper(ip)
  {
    Take(if |l.buckets| > PURGE_ABOVE then Purge(l, now) else l, BucketKey(ip), now)
  }

  /** The limiter the relay runs. */
  class RateLimiter {
    const rate: real
    const burst: real
    var buckets: map<Ip, Bucket>

    ghost function Model(): (l: Limiter)
      reads this
    {
      Limiter(rate, burst, buckets)
    }

    constructor PerMinute(n: nat)
      ensures Model() == Limiter(n as real / 60.0, n as real, map[])
    {
      rate := n as real / 60.0;
      burst := n as real;
      buckets := map[];
    }

    /** False: over the limit right now. */
    method Allow(ip: Ip, now: real) returns (allowed: bool)
      requires Proper(ip)
      modifies this
      ensures (Model(), allowed) == Admit(old(Model()), ip, now)
    {
      ghost var before := Model();
      var key := BucketKey(ip);
      if |buckets| > PURGE_ABOVE {
        buckets := map k | k in buckets && Refilled(rate, buckets[k], now) < burst :: buckets[k];
      }
      ghost var purged := if |before.buckets| > PURGE_ABOVE then Purge(before, now) else before;
      assert buckets == purged.buckets;
      if key !in buckets { buckets := buckets[key := Bucket(burst, now)]; }
      var b := buckets[key];
      var tokens := Level(rate, burst, b, now);
      assert buckets[key := Bucket(tokens, now)] == purged.buckets[key := Bucket(tokens, now)];
      assert buckets[key := Bucket(tokens - 1.0, now)] == purged.buckets[key := Bucket(tokens - 1.0, now)];
      if tokens >= 1.0 {
        buckets := buckets[key := Bucket(tokens - 1.0, now)];
        allowed := true;
      } else {
        buckets := buckets[key := Bucket(tokens, now)];
        allowed := false;
      }
    }
  }

  // --------------------------------------------------------------------------- runs

  datatype Call = Call(ip: Ip, at: real)

  ghost predicate InOrder(start: real, calls: seq<Call>) {
    && (forall i :: 0 <= i < |calls| ==> start <= calls[i].at && Proper(calls[i].ip))
    && (forall i, j :: 0 <= i < j < |calls| ==> calls[i].at <= calls[j].at)
  }

  function AllowAll(l: Limiter, calls: seq<Call>): (r: Limiter)
    requires forall i :: 0 <= i < |calls| ==> Proper(calls[i].ip)
  {
    if calls == [] then l
    else Admit(AllowAll(l, calls[..|calls| - 1]), calls[|calls| - 1].ip, calls[|calls| - 1].at).0
  }

  function Answers(l: Limiter, calls: seq<Call>): (r: seq<bool>)
    requires forall i :: 0 <= i < |calls| ==> Proper(calls[i].ip)
    ensures |r| == |calls|
  {
    if calls == [] then []
    else
      var init := calls[..|calls| - 1];
      Answers(l, init) + [Admit(AllowAll(l, init), calls[|calls| - 1].ip, calls[|calls| - 1].at).1]
  }

  /** How many calls of one bucket were let through. */
  function Passed(l: Limiter, calls: seq<Call>, key: Ip): (n: nat)
    requires forall i :: 0 <= i < |calls| ==> Proper(calls[i].ip)
  {
    if calls == [] then 0
    else
      var init, last := calls[..|calls| - 1], calls[|calls| - 1];
      Passed(l, init, key) +
      if BucketKey(last.ip) == key && Admit(AllowAll(l, init), last.ip, last.at).1 then 1 else 0
  }

  function EndOf(start: real, calls: seq<Call>): (t: real) { if calls == [] then start else calls[|calls| - 1].at }

  // ------------------------------------------------------------------------ one bucket

  ghost predicate Sane(rate: real, burst: real, b: Bucket, now: real) {
    0.0 <= rate && 0.0 <= b.tokens <= burst && b.last <= now
  }

  lemma {:induction false} ProductGrows(rate: real, a: real, b: real)
    requires 0.0 <= rate && a <= b
    ensures a * rate <= b * rate
  {
    assert 0.0 <= (b - a) * rate;
  }

  /** What accrues from one moment to another. */
  function Gain(rate: real, from: real, to: real): (tokens: real) { (to - from) * rate }

  lemma {:induction false} GainAdds(rate: real, a: real, b: real, c: real)
    ensures Gain(rate, a, b) + Gain(rate, b, c) == Gain(rate, a, c)
  {
  }

  lemma {:induction false} RefilledLater(rate: real, burst: real, b: Bucket, now: real, later: real)
    requires Sane(rate, burst, b, now) && now <= later
    ensures Refilled(rate, b, later) == Refilled(rate, b, now) + Gain(rate, now, later)
    ensures 0.0 <= Refilled(rate, b, now) && 0.0 <= Gain(rate, now, later)
  {
    ProductGrows(rate, 0.0, now - b.last);
    ProductGrows(rate, 0.0, later - now);
  }

  /** A bucket never shrinks by itself, gains at most the rate, and never passes the burst. */
  lemma {:induction false} LevelGrows(rate: real, burst: real, b: Bucket, now: real, later: real)
    requires Sane(rate, burst, b, now) && now <= later
    ensures 0.0 <= Level(rate, burst, b, now) <= Level(rate, burst, b, later) <= burst
    ensures Level(rate, burst, b, later) <= Level(rate, burst, b, now) + Gain(rate, now, later)
  {
    RefilledLater(rate, burst, b, now, later);
  }

  lemma {:induction false} LevelNow(rate: real, burst: real, tokens: real, now: real)
    requires tokens <= burst
    ensures Level(rate, burst, Bucket(tokens, now), now) == tokens
  {
    assert 0.0 * rate == 0.0;
  }

  // --------------------------------------------------------------------- the invariant

  ghost predicate Valid(l: Limiter, now: real) {
    0.0 <= l.rate && 0.0 <= l.burst && forall k :: k in l.buckets ==> Sane(l.rate, l.burst, l.buckets[k], now)
  }

  /** What a bucket could give right now: one that is not there is full. */
  function Available(l: Limiter, key: Ip, now: real): (tokens: real) {
    if key in l.buckets then Level(l.rate, l.burst, l.buckets[key], now) else l.burst
  }

  lemma {:induction false} AvailableGrows(l: Limiter, key: Ip, now: real, later: real)
    requires Valid(l, now) && now <= later
    ensures 0.0 <= Available(l, key, now) <= Available(l, key, later) <= l.burst
    ensures Available(l, key, later) <= Available(l, key, now) + Gain(l.rate, now, later)
  {
    if key in l.buckets {
      LevelGrows(l.rate, l.burst, l.buckets[key], now, later);
    } else {
      ProductGrows(l.rate, 0.0, later - now);
    }
  }

  /** Dropping full buckets changes what no bucket could give. */
  lemma {:induction false} PurgeKeeps(l: Limiter, now: real, key: Ip)
    requires Valid(l, now)
    ensures Valid(Purge(l, now), now) && Available(Purge(l, now), key, now) == Available(l, key, now)
  {
  }

  lemma {:induction false} TakeExactly(l: Limiter, key: Ip, now: real, other: Ip)
    requires Valid(l, now)
    ensures var (l', ok) := Take(l, key, now);
            && Valid(l', now) && l'.rate == l.rate && l'.burst == l.burst
            && (ok <==> Available(l, key, now) >= 1.0)
            && Available(l', other, now) == Available(l, other, now) - if other == key && ok then 1.0 else 0.0
  {
    var had := Available(l, key, now);
    AvailableGrows(l, key, now, now);
    LevelNow(l.rate, l.burst, l.burst, now);
    LevelNow(l.rate, l.burst, had, now);
    LevelNow(l.rate, l.burst, had - 1.0, now);
  }

  /** One call: let through exactly when a token is there, which it then costs; no other bucket moves. */
  lemma {:induction false} AdmitExactly(l: Limiter, ip: Ip, now: real, other: Ip)
    requires Valid(l, now) && Proper(ip)
    ensures var (l', ok) := Admit(l, ip, now);
            && Valid(l', now) && l'.rate == l.rate && l'.burst == l.burst
            && (ok <==> Available(l, BucketKey(ip), now) >= 1.0)
            && Available(l', other, now) == Available(l, other, now) - if other == BucketKey(ip) && ok then 1.0 else 0.0
  {
    PurgeKeeps(l, now, other);
    PurgeKeeps(l, now, BucketKey(ip));
    TakeExactly(if |l.buckets| > PURGE_ABOVE then Purge(l, now) else l, BucketKey(ip), now, other);
  }

  /** A clock that reads earlier than a bucket's last use gives it nothing: the call passes exactly if it holds a token already. */
  lemma {:induction false} ClockBackGivesNothing(l: Limiter, key: Ip, now: real)
    requires key in l.buckets && now <= l.buckets[key].last
    ensures Refilled(l.rate, l.buckets[key], now) == l.buckets[key].tokens
    ensures Take(l, key, now).1 <==> MinReal(l.buckets[key].tokens, l.burst) >= 1.0
  {
  }

  lemma {:induction false} LaterValid(l: Limiter, now: real, later: real)
    requires Valid(l, now) && now <= later
    ensures Valid(l, later)
  {
  }

  /** The account of one bucket over a run: what it gave is paid for by what it had and gained. */
  lemma {:induction false} Account(l: Limiter, start: real, calls: seq<Call>, key: Ip)
    requires Valid(l, start) && InOrder(start, calls)
    ensures var l', end := AllowAll(l, calls), EndOf(start, calls);
            && Valid(l', end) && l'.rate == l.rate && l'.burst == l.burst && start <= end
            && Passed(l, calls, key) as real + Available(l', key, end) <= Available(l, key, start) + Gain(l.rate, start, end)
  {
    if calls == [] {
      ProductGrows(l.rate, 0.0, 0.0);
    } else {
      var init, last := calls[..|calls| - 1], calls[|calls| - 1];
      Account(l, start, init, key);
      var mid, at := AllowAll(l, init), EndOf(start, init);
      AvailableGrows(mid, key, at, last.at);
      LaterValid(mid, at, last.at);
      AdmitExactly(mid, last.ip, last.at, key);
      GainAdds(l.rate, start, at, last.at);
    }
  }

  /**
   In any stretch of any run, whatever other clients do and whenever full buckets are dropped,
   one bucket lets through at most its burst plus its rate times the length of the stretch.
   */
  lemma {:induction false} WindowBound(l: Limiter, start: real, calls: seq<Call>, key: Ip)
    requires Valid(l, start) && InOrder(start, calls)
    ensures Passed(l, calls, key) as real <= l.burst + Gain(l.rate, start, EndOf(start, calls))
  {
    Account(l, start, calls, key);
    var end := EndOf(start, calls);
    assert Available(l, key, start) <= l.burst by { AvailableGrows(l, key, start, start); }
    assert 0.0 <= Available(AllowAll(l, calls), key, end) by { AvailableGrows(AllowAll(l, calls), key, end, end); }
  }

  // ------------------------------------------------------------------ dropping is unseen

  /** A limiter that never drops a bucket. */
  function KeepAll(l: Limiter, calls: seq<Call>): (r: Limiter)
    requires forall i :: 0 <= i < |calls| ==> Proper(calls[i].ip)
  {
    if calls == [] then l
    else Take(KeepAll(l, calls[..|calls| - 1]), BucketKey(calls[|calls| - 1].ip), calls[|calls| - 1].at).0
  }

  function KeepAnswers(l: Limiter, calls: seq<Call>): (r: seq<bool>)
    requires forall i :: 0 <= i < |calls| ==> Proper(calls[i].ip)
    ensures |r| == |calls|
  {
    if calls == [] then []
    else
      var init := calls[..|calls| - 1];
      KeepAnswers(l, init) + [Take(KeepAll(l, init), BucketKey(calls[|calls| - 1].ip), calls[|calls| - 1].at).1]
  }

  /** `a` is `b` without some buckets that are full again. */
  ghost predicate Lighter(a: Limiter, b: Limiter, now: real) {
    && a.rate == b.rate && a.burst == b.burst
    && (forall k :: k in a.buckets ==> k in b.buckets && a.buckets[k] == b.buckets[k])
    && (forall k :: k in b.buckets && k !in a.buckets ==> Level(b.rate, b.burst, b.buckets[k], now) == b.burst)
  }

  lemma {:induction false} LighterLater(a: Limiter, b: Limiter, now: real, later: real)
    requires Lighter(a, b, now) && Valid(b, now) && now <= later
    ensures Lighter(a, b, later)
  {
    forall k | k in b.buckets && k !in a.buckets ensures Level(b.rate, b.burst, b.buckets[k], later) == b.burst {
      LevelGrows(b.rate, b.burst, b.buckets[k], now, later);
    }
  }

  lemma {:induction false} LighterTake(a: Limiter, b: Limiter, key: Ip, now: real)
    requires Lighter(a, b, now) && Valid(b, now)
    ensures Take(a, key, now).1 == Take(b, key, now).1 && Lighter(Take(a, key, now).0, Take(b, key, now).0, now)
  {
    LevelNow(a.rate, a.burst, a.burst, now);
  }

  lemma {:induction false} LighterPurge(a: Limiter, b: Limiter, now: real)
    requires Lighter(a, b, now)
    ensures Lighter(Purge(a, now), b, now)
  {
  }

  /** No client can tell that full buckets were dropped: every answer of every run is the same. */
  lemma {:induction false} DroppingUnseen(l: Limiter, start: real, calls: seq<Call>)
    requires Valid(l, start) && InOrder(start, calls)
    ensures Answers(l, calls) == KeepAnswers(l, calls)
    ensures Lighter(AllowAll(l, calls), KeepAll(l, calls), EndOf(start, calls))
    ensures Valid(KeepAll(l, calls), EndOf(start, calls))
  {
    if calls != [] {
      var init, last := calls[..|calls| - 1], calls[|calls| - 1];
      DroppingUnseen(l, start, init);
      var a, b, key := AllowAll(l, init), KeepAll(l, init), BucketKey(last.ip);
      LighterLater(a, b, EndOf(start, init), last.at);
      LaterValid(b, EndOf(start, init), last.at);
      LighterPurge(a, b, last.at);
      LighterTake(if |a.buckets| > PURGE_ABOVE then Purge(a, last.at) else a, b, key, last.at);
      TakeExactly(b, key, last.at, key);
    }
  }

  // ---------------------------------------------------------------------- a token's time

  lemma {:induction false} MinuteShare(n: nat, dt: real)
    requires dt * n as real >= 60.0
    ensures dt * (n as real / 60.0) >= 1.0
  {
    assert dt * (n as real / 60.0) == dt * n as real / 60.0;
  }

  lemma {:induction false} TokenAccrues(n: nat, b: Bucket, now: real)
    requires Sane(n as real / 60.0, n as real, b, now) && n >= 1 && (now - b.last) * n as real >= 60.0
    ensures Level(n as real / 60.0, n as real, b, now) >= 1.0
  {
    MinuteShare(n, now - b.last);
  }

  /** Nobody waits longer than a token takes to accrue: 60/n seconds at n per minute. */
  lemma {:induction false} WaitIsBounded(n: nat, buckets: map<Ip, Bucket>, ip: Ip, now: real)
    requires Valid(Limiter(n as real / 60.0, n as real, buckets), now) && Proper(ip) && n >= 1
    requires BucketKey(ip) in buckets ==> (now - buckets[BucketKey(ip)].last) * n as real >= 60.0
    ensures Admit(Limiter(n as real / 60.0, n as real, buckets), ip, now).1
  {
    var l, key := Limiter(n as real / 60.0, n as real, buckets), BucketKey(ip);
    assert Available(l, key, now) >= 1.0 by {
      if key in buckets { TokenAccrues(n, buckets[key], now); }
    }
    AdmitExactly(l, ip, now, key);
  }
}
