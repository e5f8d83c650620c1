/** The fixed-window rate limiter: one Redis counter for each API key and UTC minute. Times are in milliseconds. */
module RateLimiter {
  type ApiKeyId = nat

  const WINDOW := 60_000

  datatype Counter = Counter(count: nat, expiresAt: nat)

  type Counters = map<(ApiKeyId, nat), Counter>

  datatype Request = Request(key: ApiKeyId, limit: int, at: nat)

  datatype CheckResult = CheckResult(allowed: bool, limit: int, remaining: nat, resetInSeconds: nat)

  function MinuteOf(t: nat): nat {
    t / WINDOW
  }

  // ---- Redis ----

  /** Redis drops keys whose expiry has passed. */
  function Purged(counters: Counters, now: nat): Counters {
    map k | k in counters && now < counters[k].expiresAt :: counters[k]
  }

  /** INCR, and EXPIRE when the count is then 1; other increments leave the expiry alone. */
  function Incremented(counters: Counters, key: ApiKeyId, now: nat): Counters {
    var live, k := Purged(counters, now), (key, MinuteOf(now));
    var count := if k in live then live[k].count + 1 else 1;
    live[k := Counter(count, if count == 1 then now + WINDOW else live[k].expiresAt)]
  }

  function CountAt(counters: Counters, key: ApiKeyId, now: nat): nat {
    Incremented(counters, key, now)[(key, MinuteOf(now))].count
  }

  /** A request counts in the minute it comes in, whose first request sets the expiry a minute ahead; the counters whose
      expiry has come are gone, and the others stay. */
  lemma CounterRows(counters: Counters, key: ApiKeyId, now: nat, k: (ApiKeyId, nat))
    ensures
      var after, own := Incremented(counters, key, now), (key, now / 60_000);
      var live := k in counters && counters[k].expiresAt > now;
      if k != own then (k in after <==> live) && (live ==> after[k] == counters[k])
      else k in after && after[k] == (if live && counters[k].count > 0
                                      then Counter(counters[k].count + 1, counters[k].expiresAt)
                                      else Counter(1, now + 60_000))
  {
  }

  // ---- Traces ----

  /** The counters after the requests of a trace, in the order in which Redis serves them. */
  function After(trace: seq<Request>): Counters {
    if trace == [] then map[]
    else
      var r := trace[|trace| - 1];
      Incremented(After(trace[..|trace| - 1]), r.key, r.at)
  }

  predicate Allowed(trace: seq<Request>, i: nat)
    requires i < |trace|
  {
    CountAt(After(trace[..i]), trace[i].key, trace[i].at) <= trace[i].limit
  }

  /** Time does not run backwards. */
  predicate Ordered(trace: seq<Request>) {
    forall i, j :: 0 <= i < j < |trace| ==> trace[i].at <= trace[j].at
  }

  predicate InWindow(r: Request, key: ApiKeyId, minute: nat) {
    r.key == key && MinuteOf(r.at) == minute
  }

  /** How many requests of the key a trace holds in a minute. */
  function Seen(trace: seq<Request>, key: ApiKeyId, minute: nat): nat {
    if trace == [] then 0
    else Seen(trace[..|trace| - 1], key, minute) + if InWindow(trace[|trace| - 1], key, minute) then 1 else 0
  }

  /** The counter of a window counts its requests and outlives its minute; until the minute is over it is there. */
  predicate Tracks(trace: seq<Request>, key: ApiKeyId, minute: nat) {
    var counters, k, n := After(trace), (key, minute), Seen(trace, key, minute);
    && (k in counters ==> n > 0 && counters[k].count == n && counters[k].expiresAt >= (minute + 1) * WINDOW)
    && (n > 0 && trace != [] && trace[|trace| - 1].at < (minute + 1) * WINDOW ==> k in counters)
  }

  lemma MinuteBounds(t: nat)
    ensures MinuteOf(t) * WINDOW <= t < (MinuteOf(t) + 1) * WINDOW
  {
  }

  /** The expiry never clears a counter inside its own minute. */
  lemma {:induction false} CountersTrack(trace: seq<Request>, key: ApiKeyId, minute: nat)
    requires Ordered(trace)
    ensures Tracks(trace, key, minute)
  {
    if trace != [] {
      var n := |trace| - 1;
      var r := trace[n];
      CountersTrack(trace[..n], key, minute);
      MinuteBounds(r.at);
      if InWindow(r, key, minute) && Seen(trace[..n], key, minute) > 0 {
        assert trace[n - 1].at <= r.at;
        assert (key, minute) in Purged(After(trace[..n]), r.at);
      }
    }
  }

  /** A request is allowed exactly when fewer than its limit of requests of its key came before it in its minute. */
  lemma AllowedExactly(trace: seq<Request>, i: nat)
    requires Ordered(trace) && i < |trace|
    ensures Allowed(trace, i) <==> Seen(trace[..i], trace[i].key, MinuteOf(trace[i].at)) < trace[i].limit
  {
    var r, before := trace[i], trace[..i];
    CountersTrack(before, r.key, MinuteOf(r.at));
    CountersTrack(before + [r], r.key, MinuteOf(r.at));
    MinuteBounds(r.at);
    assert (before + [r])[..i] == before;
    assert CountAt(After(before), r.key, r.at) == Seen(before, r.key, MinuteOf(r.at)) + 1;
  }

  // ---- Minutes and intervals ----

  /** How many of the first n requests are allowed, of this key, between two times. */
  function Admitted(trace: seq<Request>, n: nat, key: ApiKeyId, from: nat, to: nat): nat
    requires n <= |trace|
  {
    if n == 0 then 0
    else
      var r := trace[n - 1];
      Admitted(trace, n - 1, key, from, to)
      + if r.key == key && from <= r.at <= to && Allowed(trace, n - 1) then 1 else 0
  }

  function AtMost(n: nat, limit: nat): nat {
    if n <= limit then n else limit
  }

  /** The key's limit may change, but not leave these bounds. */
  predicate LimitWithin(trace: seq<Request>, key: ApiKeyId, low: nat, high: nat) {
    forall i :: 0 <= i < |trace| && trace[i].key == key ==> low <= trace[i].limit <= high
  }

  lemma WithinMinute(t: nat, minute: nat)
    ensures minute * WINDOW <= t <= minute * WINDOW + (WINDOW - 1) <==> MinuteOf(t) == minute
  {
    MinuteBounds(t);
  }

  /** In each minute a key is allowed its first requests up to its limit and no more: exactly so many while the limit
      stays the same, and within the lowest and the highest limit while it changes. */
  lemma {:induction false} AdmittedInMinute(trace: seq<Request>, n: nat, key: ApiKeyId, low: nat, high: nat,
                                            minute: nat)
    requires Ordered(trace) && LimitWithin(trace, key, low, high) && n <= |trace|
    ensures AtMost(Seen(trace[..n], key, minute), low)
            <= Admitted(trace, n, key, minute * WINDOW, minute * WINDOW + (WINDOW - 1))
            <= AtMost(Seen(trace[..n], key, minute), high)
  {
    if n > 0 {
      AdmittedInMinute(trace, n - 1, key, low, high, minute);
      assert trace[..n][..n - 1] == trace[..n - 1];
      WithinMinute(trace[n - 1].at, minute);
      if trace[n - 1].key == key {
        AllowedExactly(trace, n - 1);
      }
    }
  }

  lemma {:induction false} AdmittedSplits(trace: seq<Request>, n: nat, key: ApiKeyId, from: nat, to: nat, minute: nat)
    requires n <= |trace| && minute == MinuteOf(from) && to <= from + WINDOW
    ensures Admitted(trace, n, key, from, to)
            <= Admitted(trace, n, key, minute * WINDOW, minute * WINDOW + (WINDOW - 1))
               + Admitted(trace, n, key, (minute + 1) * WINDOW, (minute + 1) * WINDOW + (WINDOW - 1))
  {
    if n > 0 {
      AdmittedSplits(trace, n - 1, key, from, to, minute);
      MinuteBounds(from);
      hide Allowed;
    }
  }

  /** Any 60 seconds, both ends included, admit at most twice the highest limit the key has had. */
  lemma AtMostTwiceTheLimit(trace: seq<Request>, key: ApiKeyId, low: nat, high: nat, from: nat, to: nat)
    requires Ordered(trace) && LimitWithin(trace, key, low, high) && to <= from + WINDOW
    ensures Admitted(trace, |trace|, key, from, to) <= 2 * high
  {
    var minute := MinuteOf(from);
    AdmittedSplits(trace, |trace|, key, from, to, minute);
    AdmittedInMinute(trace, |trace|, key, low, high, minute);
    AdmittedInMinute(trace, |trace|, key, low, high, minute + 1);
  }

  // ---- The bound is met ----

  /** n requests in the last millisecond of minute 0, and n in the first of minute 1. */
  function Burst(key: ApiKeyId, n: nat): (trace: seq<Request>)
    ensures |trace| == 2 * n
  {
    seq(2 * n, i => Request(key, n, if i < n then WINDOW - 1 else WINDOW))
  }

  lemma {:induction false} BurstSeen(key: ApiKeyId, n: nat, k: nat)
    requires k <= 2 * n
    ensures Seen(Burst(key, n)[..k], key, 0) == AtMost(k, n)
    ensures Seen(Burst(key, n)[..k], key, 1) == k - AtMost(k, n)
  {
    if k > 0 {
      BurstSeen(key, n, k - 1);
      assert Burst(key, n)[..k][..k - 1] == Burst(key, n)[..k - 1];
      assert MinuteOf(WINDOW - 1) == 0 && MinuteOf(WINDOW) == 1;
    }
  }

  lemma BurstAllowed(key: ApiKeyId, n: nat, i: nat)
    requires i < 2 * n
    ensures Allowed(Burst(key, n), i)
  {
    hide Allowed, Seen;
    BurstSeen(key, n, i);
    AllowedExactly(Burst(key, n), i);
    assert MinuteOf(WINDOW - 1) == 0 && MinuteOf(WINDOW) == 1;
  }

  lemma {:induction false} BurstAdmitted(key: ApiKeyId, n: nat, k: nat)
    requires k <= 2 * n
    ensures Admitted(Burst(key, n), k, key, WINDOW - 1, WINDOW) == k
  {
    hide Allowed;
    if k > 0 {
      BurstAdmitted(key, n, k - 1);
      BurstAllowed(key, n, k - 1);
    }
  }

  /** On a minute boundary twice the limit does pass within two milliseconds. */
  lemma TwiceTheLimitCanPass(key: ApiKeyId, limit: nat)
    ensures Ordered(Burst(key, limit)) && LimitWithin(Burst(key, limit), key, limit, limit)
    ensures Admitted(Burst(key, limit), |Burst(key, limit)|, key, WINDOW - 1, WINDOW) == 2 * limit
  {
    BurstAdmitted(key, limit, 2 * limit);
  }

  // ---- The service ----

  class RateLimitService {
    var redis: Counters

    constructor ()
      ensures redis == map[]
    {
      redis := map[];
    }

    /** now is the clock when the counter is incremented, later the clock when the answer is made up. */
    method CheckAndIncrement(key: ApiKeyId, limitPerMinute: int, now: nat, later: nat) returns (result: CheckResult)
      modifies this
      ensures redis == Incremented(old(redis), key, now)
      ensures result.allowed <==> CountAt(old(redis), key, now) <= limitPerMinute
      ensures result.limit == limitPerMinute
      ensures result.remaining == if result.allowed then limitPerMinute - CountAt(old(redis), key, now) else 0
      ensures 1 <= result.resetInSeconds <= 60 && (later / 1000 + result.resetInSeconds) % 60 == 0
    {
      var windowBucket := now / WINDOW;
      var redisKey := (key, windowBucket);
      redis := Purged(redis, now);
      var count := if redisKey in redis then redis[redisKey].count + 1 else 1;
      redis := redis[redisKey := if redisKey in redis then redis[redisKey].(count := count) else Counter(count, 0)];
      if count == 1 {
        redis := redis[redisKey := redis[redisKey].(expiresAt := now + WINDOW)];
      }
      var remaining := if limitPerMinute - count > 0 then limitPerMinute - count else 0;
      result := CheckResult(count <= limitPerMinute, limitPerMinute, remaining, 60 - (later / 1000) % 60);
    }
  }
}
