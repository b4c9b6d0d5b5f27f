/** The per-address sliding-window limiter, whose buckets are pruned on every request. */
module RateLimit {

  const WINDOW := 60.0

  function Recent(times: seq<real>, now: real): seq<real> {
    if times == [] then [] else
    var n := |times| - 1;
    if now - times[n] < WINDOW then Recent(times[..n], now) + [times[n]] else Recent(times[..n], now)
  }

  class RateLimiter {
    const limit: int
    var buckets: map<string, seq<real>>

    constructor (limit: int)
      ensures this.limit == limit && buckets == map[]
    {
      this.limit := limit;
      buckets := map[];
    }

    method Check(ip: string, now: real) returns (ok: bool)
      modifies this
      ensures (ok, buckets) == LimitStep(limit, old(buckets), ip, now)
    {
      var old_bucket := if ip in buckets then buckets[ip] else [];
      var bucket := [];
      for i := 0 to |old_bucket|
        invariant bucket == Recent(old_bucket[..i], now)
      {
        assert old_bucket[..i + 1][..i] == old_bucket[..i];
        if now - old_bucket[i] < WINDOW {
          bucket := bucket + [old_bucket[i]];
        }
      }
      assert old_bucket[..|old_bucket|] == old_bucket;
      if |bucket| >= limit {
        buckets := buckets[ip := bucket];
        return false;
      }
      bucket := bucket + [now];
      buckets := buckets[ip := bucket];
      return true;
    }
  }

  function Bucket(buckets: map<string, seq<real>>, ip: string): seq<real> {
    if ip in buckets then buckets[ip] else []
  }

  function LimitStep(limit: int, buckets: map<string, seq<real>>, ip: string, now: real)
    : (bool, map<string, seq<real>>)
  {
    var bucket := Recent(Bucket(buckets, ip), now);
    if |bucket| >= limit then (false, buckets[ip := bucket]) else (true, buckets[ip := bucket + [now]])
  }

  // ---- a run, and the log of every accepted request ----

  datatype Request = Request(ip: string, now: real)

  function Buckets(limit: int, reqs: seq<Request>): map<string, seq<real>> {
    if reqs == [] then map[] else
    var n := |reqs| - 1;
    LimitStep(limit, Buckets(limit, reqs[..n]), reqs[n].ip, reqs[n].now).1
  }

  predicate Accepts(limit: int, reqs: seq<Request>, r: Request) {
    LimitStep(limit, Buckets(limit, reqs), r.ip, r.now).0
  }

  /** When the requests of an address were accepted, never forgotten. */
  function Accepted(limit: int, reqs: seq<Request>, ip: string): seq<real> {
    if reqs == [] then [] else
    var n := |reqs| - 1;
    var before := Accepted(limit, reqs[..n], ip);
    if reqs[n].ip == ip && Accepts(limit, reqs[..n], reqs[n]) then before + [reqs[n].now] else before
  }

  predicate Monotone(reqs: seq<Request>) {
    forall i, j :: 0 <= i < j < |reqs| ==> reqs[i].now <= reqs[j].now
  }

  predicate After(reqs: seq<Request>, now: real) {
    forall i :: 0 <= i < |reqs| ==> reqs[i].now <= now
  }

  lemma RecentSnoc(times: seq<real>, t: real, now: real)
    ensures Recent(times + [t], now) == if now - t < WINDOW then Recent(times, now) + [t] else Recent(times, now)
  {
    assert (times + [t])[..|times|] == times;
  }

  /** Pruning early loses nothing that a later request could still see. */
  lemma {:induction false} RecentRecent(times: seq<real>, earlier: real, now: real)
    requires earlier <= now
    ensures Recent(Recent(times, earlier), now) == Recent(times, now)
  {
    if times != [] {
      var n := |times| - 1;
      RecentRecent(times[..n], earlier, now);
      if earlier - times[n] < WINDOW {
        RecentSnoc(Recent(times[..n], earlier), times[n], now);
      }
    }
  }

  /** At any later time the pruned bucket shows what the whole log shows. */
  lemma {:induction false} BucketIsLog(limit: int, reqs: seq<Request>, ip: string, now: real)
    requires Monotone(reqs) && After(reqs, now)
    ensures Recent(Bucket(Buckets(limit, reqs), ip), now) == Recent(Accepted(limit, reqs, ip), now)
  {
    if reqs != [] {
      var n := |reqs| - 1;
      var r, before := reqs[n], Buckets(limit, reqs[..n]);
      BucketIsLog(limit, reqs[..n], ip, now);
      if r.ip == ip {
        var bucket := Recent(Bucket(before, ip), r.now);
        RecentRecent(Bucket(before, ip), r.now, now);
        if |bucket| < limit {
          RecentSnoc(bucket, r.now, now);
          RecentSnoc(Accepted(limit, reqs[..n], ip), r.now, now);
        }
      }
    }
  }

  /** A request is refused exactly when the limit is used up by requests accepted in the last 60 seconds. */
  lemma RefusedIff(limit: int, reqs: seq<Request>, r: Request)
    requires Monotone(reqs) && After(reqs, r.now)
    ensures Accepts(limit, reqs, r) <==> |Recent(Accepted(limit, reqs, r.ip), r.now)| < limit
  {
    BucketIsLog(limit, reqs, r.ip, r.now);
  }

  /** The times that fall in [from, from + 60). */
  function InWindow(times: seq<real>, from: real): seq<real> {
    if times == [] then [] else
    var n := |times| - 1;
    if from <= times[n] < from + WINDOW then InWindow(times[..n], from) + [times[n]] else InWindow(times[..n], from)
  }

  lemma {:induction false} WindowWithinRecent(times: seq<real>, from: real, now: real)
    requires now < from + WINDOW
    ensures |InWindow(times, from)| <= |Recent(times, now)|
  {
    if times != [] {
      WindowWithinRecent(times[..|times| - 1], from, now);
    }
  }

  /** Over every run, no half-open window of 60 seconds holds more accepted requests of one address than the limit. */
  lemma {:induction false} NoWindowOverLimit(limit: int, reqs: seq<Request>, ip: string, from: real)
    requires Monotone(reqs)
    ensures |InWindow(Accepted(limit, reqs, ip), from)| <= if limit < 0 then 0 else limit
  {
    if reqs != [] {
      var n := |reqs| - 1;
      var r, times := reqs[n], Accepted(limit, reqs[..n], ip);
      NoWindowOverLimit(limit, reqs[..n], ip, from);
      if r.ip == ip && Accepts(limit, reqs[..n], r) {
        assert (times + [r.now])[..|times|] == times;
        if from <= r.now < from + WINDOW {
          RefusedIff(limit, reqs[..n], r);
          WindowWithinRecent(times, from, r.now);
        }
      }
    }
  }

  /** The recent times are those less than 60 seconds old. */
  lemma {:induction false} RecentAre(times: seq<real>, now: real)
    ensures forall t :: t in Recent(times, now) <==> t in times && now - t < 60.0
  {
    if times != [] {
      var n := |times| - 1;
      assert times == times[..n] + [times[n]];
      RecentAre(times[..n], now);
    }
  }

  /** After a request, let through or not, the bucket of its address holds nothing older, and no other changes. */
  lemma BucketPruned(limit: int, buckets: map<string, seq<real>>, ip: string, now: real)
    ensures var (ok, after) := LimitStep(limit, buckets, ip, now);
      && ip in after && (forall t :: t in after[ip] ==> now - t < 60.0)
      && (forall other :: other in buckets && other != ip ==> other in after && after[other] == buckets[other])
      && after.Keys == buckets.Keys + {ip}
  {
    RecentAre(Bucket(buckets, ip), now);
  }
}
