/**
 The sliding-window rate limiter of app/rate_limit.py, and the limiter that forgets nothing it must agree with.
 Times are real seconds, read in the order the lock is taken.
 */
module RateLimit {

  const SWEEP_EVERY := 1_000

  datatype Limit = Limit(requests: nat, window: int)

  /** Settings ask for at least one request and one second. */
  predicate Sensible(limit: Limit) {
    limit.requests > 0 && limit.window > 0
  }

  datatype Admission = Admission(key: string, at: real)

  datatype Verdict = Admitted | RateLimited(retryAfter: int)

  // --- the limiter that keeps every admitted time forever ------------------------------------------

  /** When this key was admitted, oldest first. */
  function Times(log: seq<Admission>, key: string): seq<real> {
    if log == [] then []
    else
      var last := log[|log| - 1];
      Times(log[..|log| - 1], key) + if last.key == key then [last.at] else []
  }

  /** How many of the times lie in (lo, hi]. */
  function Within(times: seq<real>, lo: real, hi: real): nat {
    if times == [] then 0
    else
      var last := times[|times| - 1];
      Within(times[..|times| - 1], lo, hi) + if lo < last <= hi then 1 else 0
  }

  predicate Admits(log: seq<Admission>, key: string, limit: Limit, now: real) {
    Within(Times(log, key), now - limit.window as real, now) < limit.requests
  }

  function Record(log: seq<Admission>, key: string, limit: Limit, now: real): seq<Admission> {
    if Admits(log, key, limit, now) then log + [Admission(key, now)] else log
  }

  predicate Sorted(times: seq<real>) {
    forall i, j :: 0 <= i < j < |times| ==> times[i] <= times[j]
  }

  // --- counting in sorted times -----------------------------------------------------------------------

  /** In sorted times the ones in (lo, hi] stand together: `from` are at most lo, and `to` at most hi. */
  lemma {:induction false} WithinIs(times: seq<real>, lo: real, hi: real, from: nat, to: nat)
    requires Sorted(times) && from <= to <= |times|
    requires forall i :: 0 <= i < from ==> times[i] <= lo
    requires forall i :: from <= i < to ==> lo < times[i] <= hi
    requires forall i :: to <= i < |times| ==> times[i] > hi
    ensures Within(times, lo, hi) == to - from
  {
    if times != [] {
      var n := |times| - 1;
      if to == |times| && from == |times| {
        WithinIs(times[..n], lo, hi, n, n);
      } else if to == |times| {
        WithinIs(times[..n], lo, hi, from, n);
      } else {
        WithinIs(times[..n], lo, hi, from, to);
      }
    }
  }

  /** Where the times up to x end. */
  lemma {:induction false} SplitAt(times: seq<real>, x: real) returns (n: nat)
    requires Sorted(times)
    ensures n <= |times|
    ensures forall i :: 0 <= i < n ==> times[i] <= x
    ensures forall i :: n <= i < |times| ==> times[i] > x
  {
    n := 0;
    while n < |times| && times[n] <= x
      invariant n <= |times|
      invariant forall i :: 0 <= i < n ==> times[i] <= x
    {
      n := n + 1;
    }
  }

  /** Where the times up to lo end, and where the times up to hi end. */
  lemma {:induction false} Split(times: seq<real>, lo: real, hi: real) returns (from: nat, to: nat)
    requires Sorted(times) && lo <= hi
    ensures from <= to <= |times|
    ensures forall i :: 0 <= i < from ==> times[i] <= lo
    ensures forall i :: from <= i < to ==> lo < times[i] <= hi
    ensures forall i :: to <= i < |times| ==> times[i] > hi
    ensures Within(times, lo, hi) == to - from
  {
    from := SplitAt(times, lo);
    to := from;
    while to < |times| && times[to] <= hi
      invariant from <= to <= |times|
      invariant forall i :: from <= i < to ==> times[i] <= hi
    {
      to := to + 1;
    }
    WithinIs(times, lo, hi, from, to);
  }

  // --- no window is ever overfull ----------------------------------------------------------------------

  /** Any admitted hit comes at least a window after the one `requests` places before it. */
  predicate Spaced(times: seq<real>, limit: Limit) {
    forall i :: limit.requests <= i < |times| ==> times[i] - times[i - limit.requests] >= limit.window as real
  }

  /** A key's admitted times, as they stand at a given time. */
  predicate Sound(times: seq<real>, limit: Limit, now: real) {
    Sorted(times) && Spaced(times, limit) && forall i :: 0 <= i < |times| ==> times[i] <= now
  }

  datatype Call = Call(key: string, at: real)

  /** The log after a sequence of calls, each key under its own fixed limit. */
  function LogOf(calls: seq<Call>, limitOf: string -> Limit): seq<Admission> {
    if calls == [] then []
    else
      var last := calls[|calls| - 1];
      Record(LogOf(calls[..|calls| - 1], limitOf), last.key, limitOf(last.key), last.at)
  }

  predicate InOrder(calls: seq<Call>) {
    forall i, j :: 0 <= i < j < |calls| ==> calls[i].at <= calls[j].at
  }

  lemma RecordSounds(times: seq<real>, limit: Limit, now: real)
    requires Sensible(limit) && Sound(times, limit, now)
    requires Within(times, now - limit.window as real, now) < limit.requests
    ensures Sound(times + [now], limit, now)
  {
    var lo := now - limit.window as real;
    var n := SplitAt(times, lo);
    WithinIs(times, lo, now, n, |times|);
  }

  lemma LaterSound(times: seq<real>, limit: Limit, now: real, later: real)
    requires Sound(times, limit, now) && now <= later
    ensures Sound(times, limit, later)
  {
  }

  lemma AppendedTimes(log: seq<Admission>, a: Admission, key: string)
    ensures Times(log + [a], key) == Times(log, key) + if a.key == key then [a.at] else []
  {
    assert (log + [a])[..|log|] == log;
  }

  lemma {:induction false} CallsSound(calls: seq<Call>, limitOf: string -> Limit, key: string, now: real)
    requires InOrder(calls) && forall k :: Sensible(limitOf(k))
    requires calls != [] ==> calls[|calls| - 1].at <= now
    ensures Sound(Times(LogOf(calls, limitOf), key), limitOf(key), now)
  {
    if calls != [] {
      var before, last := calls[..|calls| - 1], calls[|calls| - 1];
      assert before != [] ==> before[|before| - 1].at <= last.at;
      CallsSound(before, limitOf, key, last.at);
      assert Sensible(limitOf(key));
      CallSound(LogOf(before, limitOf), last, limitOf, key);
      LaterSound(Times(LogOf(calls, limitOf), key), limitOf(key), last.at, now);
    }
  }

  lemma CallSound(log: seq<Admission>, call: Call, limitOf: string -> Limit, key: string)
    requires Sensible(limitOf(key)) && Sound(Times(log, key), limitOf(key), call.at)
    ensures Sound(Times(Record(log, call.key, limitOf(call.key), call.at), key), limitOf(key), call.at)
  {
    hide Sound, Within, Times;
    AppendedTimes(log, Admission(call.key, call.at), key);
    if Admits(log, call.key, limitOf(call.key), call.at) {
      if call.key == key {
        RecordSounds(Times(log, key), limitOf(key), call.at);
      } else {
        assert Times(log + [Admission(call.key, call.at)], key) == Times(log, key);
      }
    }
  }

  /**
   Over any run, no interval of one window length, open at its start or at its end, contains more than
   `requests` admitted hits for a key.
   */
  lemma NoWindowOverfull(calls: seq<Call>, limitOf: string -> Limit, key: string, x: real)
    requires InOrder(calls) && forall k :: Sensible(limitOf(k))
    ensures var times, limit := Times(LogOf(calls, limitOf), key), limitOf(key);
            && Within(times, x, x + limit.window as real) <= limit.requests
            && (forall i, j :: 0 <= i <= j < |times| && x <= times[i] && times[j] < x + limit.window as real
                  ==> j - i + 1 <= limit.requests)
  {
    CallsSound(calls, limitOf, key, if calls == [] then x else calls[|calls| - 1].at);
    hide LogOf, Times;
    SoundNeverOverfull(Times(LogOf(calls, limitOf), key), limitOf(key), x);
  }

  lemma Apart(times: seq<real>, limit: Limit, i: nat, j: nat)
    requires Sorted(times) && Spaced(times, limit) && i <= j < |times|
    ensures j - i >= limit.requests ==> times[j] - times[i] >= limit.window as real
  {
    if j - i >= limit.requests {
      assert times[i + limit.requests] <= times[j];
      assert times[i + limit.requests] - times[i] >= limit.window as real;
    }
  }

  lemma SoundNeverOverfull(times: seq<real>, limit: Limit, x: real)
    requires Sensible(limit) && Sorted(times) && Spaced(times, limit)
    ensures Within(times, x, x + limit.window as real) <= limit.requests
    ensures forall i, j :: 0 <= i <= j < |times| && x <= times[i] && times[j] < x + limit.window as real
              ==> j - i + 1 <= limit.requests
  {
    var from, to := Split(times, x, x + limit.window as real);
    if from < to {
      Apart(times, limit, from, to - 1);
    }
    forall i, j | 0 <= i <= j < |times| && x <= times[i] && times[j] < x + limit.window as real
      ensures j - i + 1 <= limit.requests
    {
      Apart(times, limit, i, j);
    }
  }

  // --- when to come back -----------------------------------------------------------------------------------

  function Ceil(x: real): int {
    -((-x).Floor)
  }

  function RetryAfter(oldest: real, limit: Limit, now: real): int {
    var wait := Ceil(oldest + limit.window as real - now);
    if wait < 1 then 1 else wait
  }

  /**
   After a refusal, with no admission in between, a retry is admitted iff it comes at or after the oldest
   live hit plus the window, and waiting `retryAfter` seconds is always enough.
   */
  lemma RetryAdmitted(calls: seq<Call>, limitOf: string -> Limit, key: string, now: real, later: real)
    requires InOrder(calls) && forall k :: Sensible(limitOf(k))
    requires calls != [] ==> calls[|calls| - 1].at <= now
    requires !Admits(LogOf(calls, limitOf), key, limitOf(key), now) && now <= later
    ensures var log, limit := LogOf(calls, limitOf), limitOf(key);
            var times := Times(log, key);
            && 0 < limit.requests <= |times|
            && (var oldest := times[|times| - limit.requests];
                && now - limit.window as real < oldest
                && (Admits(log, key, limit, later) <==> later >= oldest + limit.window as real)
                && Admits(log, key, limit, now + RetryAfter(oldest, limit, now) as real))
  {
    hide LogOf, Times, Within, Sound, RetryAfter;
    assert Sensible(limitOf(key));
    CallsSound(calls, limitOf, key, now);
    RetryFrom(Times(LogOf(calls, limitOf), key), limitOf(key), now, later);
  }

  /** Of the whole seconds to wait, `retryAfter` is the least that is enough. */
  lemma RetryIsLeast(calls: seq<Call>, limitOf: string -> Limit, key: string, now: real, seconds: nat)
    requires InOrder(calls) && forall k :: Sensible(limitOf(k))
    requires calls != [] ==> calls[|calls| - 1].at <= now
    requires !Admits(LogOf(calls, limitOf), key, limitOf(key), now) && 1 <= seconds
    ensures var log, limit := LogOf(calls, limitOf), limitOf(key);
            var times := Times(log, key);
            && 0 < limit.requests <= |times|
            && (Admits(log, key, limit, now + seconds as real)
                <==> seconds >= RetryAfter(times[|times| - limit.requests], limit, now))
  {
    hide LogOf, Times, Admits, InOrder, Sensible, RetryAfter;
    RetryAdmitted(calls, limitOf, key, now, now + seconds as real);
    var limit, times := limitOf(key), Times(LogOf(calls, limitOf), key);
    WaitsFor(times[|times| - limit.requests], limit, now, seconds);
  }

  lemma WaitsFor(oldest: real, limit: Limit, now: real, seconds: nat)
    requires 1 <= seconds
    ensures seconds >= RetryAfter(oldest, limit, now) <==> now + seconds as real >= oldest + limit.window as real
  {
  }

  lemma RetryFrom(times: seq<real>, limit: Limit, now: real, later: real)
    requires Sensible(limit) && Sound(times, limit, now) && now <= later
    requires Within(times, now - limit.window as real, now) >= limit.requests
    ensures 0 < limit.requests <= |times|
    ensures var oldest := times[|times| - limit.requests];
            var waited := now + RetryAfter(oldest, limit, now) as real;
            && now - limit.window as real < oldest
            && (Within(times, later - limit.window as real, later) < limit.requests
                <==> later >= oldest + limit.window as real)
            && Within(times, waited - limit.window as real, waited) < limit.requests
  {
    var lo := now - limit.window as real;
    var n := SplitAt(times, lo);
    WithinIs(times, lo, now, n, |times|);
    var oldest := times[|times| - limit.requests];
    var waited := now + RetryAfter(oldest, limit, now) as real;
    assert waited >= oldest + limit.window as real && waited >= now;
    AdmittedFrom(times, limit, later);
    AdmittedFrom(times, limit, waited);
  }

  lemma AdmittedFrom(times: seq<real>, limit: Limit, later: real)
    requires Sensible(limit) && Sorted(times) && limit.requests <= |times|
    requires forall i :: 0 <= i < |times| ==> times[i] <= later
    ensures Within(times, later - limit.window as real, later) < limit.requests
            <==> later >= times[|times| - limit.requests] + limit.window as real
  {
    var lo := later - limit.window as real;
    var n := SplitAt(times, lo);
    WithinIs(times, lo, later, n, |times|);
    assert times[|times| - limit.requests] <= lo <==> n > |times| - limit.requests;
  }

  // --- the limiter in memory ---------------------------------------------------------------------------------

  datatype Bucket = Bucket(window: int, times: seq<real>)

  predicate Stale(b: Bucket, now: real) {
    b.times == [] || b.times[|b.times| - 1] <= now - b.window as real
  }

  function Kept(hits: map<string, Bucket>, key: string): seq<real> {
    if key in hits then hits[key].times else []
  }

  /** The times kept are the latest of all; the ones let go have left the window. */
  predicate Suffices(all: seq<real>, kept: seq<real>, latest: real, limit: Limit) {
    && Sorted(all) && (forall i :: 0 <= i < |all| ==> all[i] <= latest)
    && |kept| <= |all| && all[|all| - |kept|..] == kept
    && (forall i :: 0 <= i < |all| - |kept| ==> all[i] <= latest - limit.window as real)
    && |kept| <= limit.requests
  }

  ghost predicate Remembers(log: seq<Admission>, hits: map<string, Bucket>, latest: real, limitOf: string -> Limit) {
    && (forall k :: k in hits ==> hits[k].window == limitOf(k).window)
    && (forall k :: Suffices(Times(log, k), Kept(hits, k), latest, limitOf(k)))
  }

  lemma KeyKnown(log: seq<Admission>, hits: map<string, Bucket>, key: string, now: real, limitOf: string -> Limit)
    requires Remembers(log, hits, now, limitOf)
    ensures Suffices(Times(log, key), Kept(hits, key), now, limitOf(key))
  {
  }

  lemma StillRemembers(log: seq<Admission>, hits: map<string, Bucket>, latest: real, now: real,
                       limitOf: string -> Limit)
    requires Remembers(log, hits, latest, limitOf) && latest <= now
    ensures Remembers(log, hits, now, limitOf)
  {
    hide Suffices, Times;
    forall k
      ensures Suffices(Times(log, k), Kept(hits, k), now, limitOf(k))
    {
      StillSuffices(Times(log, k), Kept(hits, k), latest, now, limitOf(k));
    }
  }

  lemma StillSuffices(all: seq<real>, kept: seq<real>, latest: real, now: real, limit: Limit)
    requires Suffices(all, kept, latest, limit) && latest <= now
    ensures Suffices(all, kept, now, limit)
  {
  }

  lemma SweepRemembers(log: seq<Admission>, hits: map<string, Bucket>, swept: map<string, Bucket>, now: real,
                       limitOf: string -> Limit)
    requires Remembers(log, hits, now, limitOf)
    requires forall k :: k in swept <==> k in hits && !Stale(hits[k], now)
    requires forall k :: k in swept ==> swept[k] == hits[k]
    ensures Remembers(log, swept, now, limitOf)
  {
    hide Suffices, Times, Stale;
    forall k
      ensures Suffices(Times(log, k), Kept(swept, k), now, limitOf(k))
    {
      assert Suffices(Times(log, k), Kept(hits, k), now, limitOf(k));
      if k in hits && k !in swept {
        StaleSpared(Times(log, k), hits[k], now, limitOf(k));
      }
    }
  }

  /** A key whose last hit has left the window has nothing left to remember. */
  lemma StaleSpared(all: seq<real>, b: Bucket, now: real, limit: Limit)
    requires Suffices(all, b.times, now, limit) && b.window == limit.window && Stale(b, now)
    ensures Suffices(all, [], now, limit)
  {
    if b.times != [] {
      assert all[|all| - 1] == b.times[|b.times| - 1];
    }
  }

  lemma KeyRemembers(log: seq<Admission>, hits: map<string, Bucket>, key: string, times: seq<real>, now: real,
                     limitOf: string -> Limit)
    requires Remembers(log, hits, now, limitOf)
    requires Suffices(Times(log, key), times, now, limitOf(key))
    ensures Remembers(log, hits[key := Bucket(limitOf(key).window, times)], now, limitOf)
  {
    hide Suffices, Times;
    forall k
      ensures Suffices(Times(log, k), Kept(hits[key := Bucket(limitOf(key).window, times)], k), now, limitOf(k))
    {
      assert Suffices(Times(log, k), Kept(hits, k), now, limitOf(k));
    }
  }

  lemma AdmissionRemembers(log: seq<Admission>, hits: map<string, Bucket>, key: string, times: seq<real>, now: real,
                           limitOf: string -> Limit)
    requires Remembers(log, hits, now, limitOf)
    requires Suffices(Times(log, key), times, now, limitOf(key)) && |times| < limitOf(key).requests
    ensures Remembers(log + [Admission(key, now)], hits[key := Bucket(limitOf(key).window, times + [now])], now,
            limitOf)
  {
    hide Suffices, Times, Kept;
    forall k
      ensures Suffices(Times(log + [Admission(key, now)], k),
                       Kept(hits[key := Bucket(limitOf(key).window, times + [now])], k), now, limitOf(k))
    {
      assert Suffices(Times(log, k), Kept(hits, k), now, limitOf(k));
      AdmissionSuffices(log, hits, key, times, now, limitOf(key), k, limitOf(k));
    }
  }

  lemma AdmissionSuffices(log: seq<Admission>, hits: map<string, Bucket>, key: string, times: seq<real>, now: real,
                          limit: Limit, k: string, limitK: Limit)
    requires Suffices(Times(log, key), times, now, limit) && |times| < limit.requests
    requires Suffices(Times(log, k), Kept(hits, k), now, limitK) && (k == key ==> limitK == limit)
    ensures Suffices(Times(log + [Admission(key, now)], k), Kept(hits[key := Bucket(limit.window, times + [now])], k),
            now, limitK)
  {
    AppendedTimes(log, Admission(key, now), k);
    if k == key {
      AddTime(Times(log, key), times, now, limit);
    }
    hide Suffices, Times;
    assert k != key ==> Times(log + [Admission(key, now)], k) == Times(log, k);
  }

  lemma AddTime(all: seq<real>, times: seq<real>, now: real, limit: Limit)
    requires Suffices(all, times, now, limit) && |times| < limit.requests
    ensures Suffices(all + [now], times + [now], now, limit)
  {
    assert (all + [now])[|all| - |times|..] == all[|all| - |times|..] + [now];
  }

  lemma PopOne(all: seq<real>, times: seq<real>, now: real, limit: Limit)
    requires Suffices(all, times, now, limit) && times != [] && times[0] <= now - limit.window as real
    ensures Suffices(all, times[1..], now, limit)
  {
    assert all[|all| - |times|] == times[0];
  }

  /** Once the expired times are popped, what is kept is exactly what the window holds. */
  lemma KeptIsLive(all: seq<real>, times: seq<real>, now: real, limit: Limit)
    requires Suffices(all, times, now, limit)
    requires times != [] ==> times[0] > now - limit.window as real
    ensures Within(all, now - limit.window as real, now) == |times|
    ensures |times| >= limit.requests > 0 ==> limit.requests <= |all| && all[|all| - limit.requests] == times[0]
  {
    var from := |all| - |times|;
    assert forall i :: from <= i < |all| ==> all[i] == all[from..][i - from];
    assert times != [] ==> all[from] == times[0];
    WithinIs(all, now - limit.window as real, now, from, |all|);
  }

  class RateLimiter {
    var hits: map<string, Bucket>
    var sinceSweep: nat
    /** Every admission ever, and the last clock reading: for the specification only. */
    ghost var log: seq<Admission>
    ghost var latest: real
    ghost const limitOf: string -> Limit

    ghost predicate Valid()
      reads this
    {
      sinceSweep < SWEEP_EVERY && (forall k :: Sensible(limitOf(k))) && Remembers(log, hits, latest, limitOf)
    }

    constructor (ghost limitOf: string -> Limit, ghost start: real)
      requires forall k :: Sensible(limitOf(k))
      ensures Valid() && log == [] && latest == start && this.limitOf == limitOf
    {
      hits, sinceSweep := map[], 0;
      log, latest := [], start;
      this.limitOf := limitOf;
    }

    /** `hit`: admits exactly the calls the limiter that forgets nothing would admit. */
    method Hit(key: string, limit: Limit, now: real) returns (verdict: Verdict)
      requires Valid() && limit == limitOf(key) && latest <= now
      modifies this
      ensures Valid() && latest == now
      ensures log == Record(old(log), key, limit, now)
      ensures verdict == Admitted <==> Admits(old(log), key, limit, now)
      ensures verdict.RateLimited? ==>
                var times := Times(old(log), key);
                && limit.requests <= |times|
                && verdict.retryAfter == RetryAfter(times[|times| - limit.requests], limit, now)
    {
      hide Suffices, Times, Within, Remembers;
      StillRemembers(log, hits, latest, now, limitOf);
      latest := now;
      MaybeSweep(now);
      var times := if key in hits then hits[key].times else [];
      ghost var all := Times(log, key);
      KeyKnown(log, hits, key, now, limitOf);
      while times != [] && times[0] <= now - limit.window as real
        invariant Valid() && latest == now && log == old(log)
        invariant Suffices(all, times, now, limit)
      {
        PopOne(all, times, now, limit);
        times := times[1..];
      }
      KeptIsLive(all, times, now, limit);
      if |times| >= limit.requests {
        KeyRemembers(log, hits, key, times, now, limitOf);
        hits := hits[key := Bucket(limit.window, times)];
        var wait := Ceil(times[0] + limit.window as real - now);
        return RateLimited(if wait < 1 then 1 else wait);
      }
      AdmissionRemembers(log, hits, key, times, now, limitOf);
      hits := hits[key := Bucket(limit.window, times + [now])];
      log := log + [Admission(key, now)];
      verdict := Admitted;
    }

    /** Every SWEEP_EVERY hits, forget the keys whose last hit has left its window. */
    method MaybeSweep(now: real)
      requires Valid() && now == latest
      modifies this`hits, this`sinceSweep
      ensures Valid()
      ensures sinceSweep == if old(sinceSweep) + 1 < 1_000 then old(sinceSweep) + 1 else 0
      ensures sinceSweep != 0 ==> hits == old(hits)
      ensures sinceSweep == 0 ==>
                && (forall k :: k in hits <==>
                      && k in old(hits)
                      && var times := old(hits)[k].times;
                         times != [] && times[|times| - 1] > now - old(hits)[k].window as real)
                && (forall k :: k in hits ==> hits[k] == old(hits)[k])
    {
      hide Remembers;
      sinceSweep := sinceSweep + 1;
      if sinceSweep < SWEEP_EVERY {
        return;
      }
      sinceSweep := 0;
      var stale := set k | k in hits && Stale(hits[k], now);
      while stale != {}
        invariant sinceSweep == 0 && stale <= hits.Keys
        invariant forall k :: k in hits ==> k in old(hits) && hits[k] == old(hits)[k]
        invariant forall k :: k in old(hits) ==> (k in hits <==> k in stale || !Stale(old(hits)[k], now))
        invariant forall k :: k in stale ==> Stale(old(hits)[k], now)
        decreases stale
      {
        var key :| key in stale;
        hits := hits - {key};
        stale := stale - {key};
      }
      SweepRemembers(log, old(hits), hits, now, limitOf);
    }
  }
}
