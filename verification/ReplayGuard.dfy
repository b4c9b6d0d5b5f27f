/** The replay check: a time stamp within 300 seconds of the clock, and a nonce not seen in the last 600. */
module ReplayGuard {

  const FRESH := 300.0
  const KEPT := 600.0

  /** A time stamp header, as far as the check can tell. A NaN passes any comparison that rejects by `>`. */
  datatype Stamp = Missing | Unreadable | NotANumber | At(time: real)

  /** `checked` and `now` are the two clock readings the check makes. */
  datatype Request = Request(ip: string, stamp: Stamp, nonce: string, checked: real, now: real)

  predicate Exempt(r: Request) { "10.10.0." <= r.ip }

  predicate Fresh(r: Request) {
    && r.nonce != ""
    && (r.stamp.NotANumber? || (r.stamp.At? && -FRESH <= r.checked - r.stamp.time <= FRESH))
  }

  function Pruned(seen: map<string, real>, now: real): map<string, real> {
    map n | n in seen && now - seen[n] < KEPT :: seen[n]
  }

  function GuardStep(seen: map<string, real>, r: Request): (bool, map<string, real>) {
    if Exempt(r) then (true, seen)
    else if !Fresh(r) then (false, seen)
    else if r.nonce in Pruned(seen, r.now) then (false, Pruned(seen, r.now))
    else (true, Pruned(seen, r.now)[r.nonce := r.now])
  }

  class NonceCache {
    var seen: map<string, real>

    constructor ()
      ensures seen == map[]
    {
      seen := map[];
    }

    method Check(r: Request) returns (ok: bool)
      modifies this
      ensures (ok, seen) == GuardStep(old(seen), r)
    {
      if "10.10.0." <= r.ip {
        return true;
      }
      if r.stamp.Missing? || r.nonce == "" {
        return false;
      }
      if r.stamp.Unreadable? {
        return false;
      }
      if r.stamp.At? {
        var diff := r.checked - r.stamp.time;
        if (if diff < 0.0 then -diff else diff) > FRESH {
          return false;
        }
      }
      seen := Pruned(seen, r.now);
      if r.nonce in seen {
        return false;
      }
      seen := seen[r.nonce := r.now];
      return true;
    }
  }

  // ---- a run, and the log of every accepted request ----

  function Seen(reqs: seq<Request>): map<string, real> {
    if reqs == [] then map[] else
    var n := |reqs| - 1;
    GuardStep(Seen(reqs[..n]), reqs[n]).1
  }

  /** Request k of the run is let through. */
  predicate Accepted(reqs: seq<Request>, k: nat)
    requires k < |reqs|
  {
    GuardStep(Seen(reqs[..k]), reqs[k]).0
  }

  /** Each request reads the clock twice, in order, after the one before. */
  predicate Monotone(reqs: seq<Request>) {
    && (forall i :: 0 <= i < |reqs| ==> reqs[i].checked <= reqs[i].now)
    && (forall i, j :: 0 <= i < j < |reqs| ==> reqs[i].now <= reqs[j].checked)
  }

  /** Request i left its nonce in the log. */
  predicate Logged(reqs: seq<Request>, i: nat)
    requires i < |reqs|
  {
    !Exempt(reqs[i]) && Accepted(reqs, i)
  }

  predicate FromLog(reqs: seq<Request>, n: string, t: real) {
    exists i: nat :: i < |reqs| && Logged(reqs, i) && reqs[i].nonce == n && reqs[i].now == t
  }

  /** The pruned cache holds logged entries only, and forgets one only when it is past keeping. */
  predicate CacheIsLog(reqs: seq<Request>) {
    && (forall n :: n in Seen(reqs) ==> FromLog(reqs, n, Seen(reqs)[n]))
    && (forall i: nat :: i < |reqs| && Logged(reqs, i) ==>
          || (reqs[i].nonce in Seen(reqs) && reqs[i].now <= Seen(reqs)[reqs[i].nonce])
          || reqs[i].now + KEPT <= reqs[|reqs| - 1].now)
  }

  lemma LoggedPrefix(reqs: seq<Request>, i: nat)
    requires i < |reqs| - 1
    ensures Logged(reqs[..|reqs| - 1], i) <==> Logged(reqs, i)
  {
    assert reqs[..|reqs| - 1][..i] == reqs[..i];
  }

  lemma FromLogPrefix(reqs: seq<Request>, n: string, t: real)
    requires |reqs| > 0 && FromLog(reqs[..|reqs| - 1], n, t)
    ensures FromLog(reqs, n, t)
  {
    var before := reqs[..|reqs| - 1];
    var i: nat :| i < |before| && Logged(before, i) && before[i].nonce == n && before[i].now == t;
    LoggedPrefix(reqs, i);
  }

  /** One request: what is in the cache afterwards was there before, or is this nonce; what is gone was too old. */
  lemma StepCache(seen: map<string, real>, r: Request, x: string)
    requires forall n :: n in seen ==> seen[n] <= r.now
    ensures var (ok, after) := GuardStep(seen, r);
      && (x in after ==> (x in seen && after[x] == seen[x]) || (ok && !Exempt(r) && x == r.nonce && after[x] == r.now))
      && (x in seen ==> (x in after && seen[x] <= after[x]) || seen[x] + KEPT <= r.now)
      && (ok && !Exempt(r) ==> r.nonce in after && after[r.nonce] == r.now)
  {
  }

  lemma SeenBefore(reqs: seq<Request>, x: string)
    requires |reqs| > 0 && Monotone(reqs) && CacheIsLog(reqs[..|reqs| - 1]) && x in Seen(reqs[..|reqs| - 1])
    ensures Seen(reqs[..|reqs| - 1])[x] <= reqs[|reqs| - 1].now
  {
    assert FromLog(reqs[..|reqs| - 1], x, Seen(reqs[..|reqs| - 1])[x]);
  }

  lemma EntryLogged(reqs: seq<Request>, x: string)
    requires |reqs| > 0 && Monotone(reqs) && CacheIsLog(reqs[..|reqs| - 1]) && x in Seen(reqs)
    ensures FromLog(reqs, x, Seen(reqs)[x])
  {
    var n := |reqs| - 1;
    forall y | y in Seen(reqs[..n]) { SeenBefore(reqs, y); }
    StepCache(Seen(reqs[..n]), reqs[n], x);
    if x in Seen(reqs[..n]) && Seen(reqs)[x] == Seen(reqs[..n])[x] {
      FromLogPrefix(reqs, x, Seen(reqs)[x]);
    } else {
      assert Logged(reqs, n);
    }
  }

  lemma LoggedKept(reqs: seq<Request>, i: nat)
    requires i < |reqs| && Monotone(reqs) && CacheIsLog(reqs[..|reqs| - 1]) && Logged(reqs, i)
    ensures || (reqs[i].nonce in Seen(reqs) && reqs[i].now <= Seen(reqs)[reqs[i].nonce])
            || reqs[i].now + KEPT <= reqs[|reqs| - 1].now
  {
    var n := |reqs| - 1;
    var before := reqs[..n];
    forall y | y in Seen(before) { SeenBefore(reqs, y); }
    StepCache(Seen(before), reqs[n], reqs[i].nonce);
    if i < n {
      LoggedPrefix(reqs, i);
      assert before[i] == reqs[i] && before[n - 1] == reqs[n - 1];
    }
  }

  lemma {:induction false} CacheAgrees(reqs: seq<Request>)
    requires Monotone(reqs)
    ensures CacheIsLog(reqs)
  {
    if reqs != [] {
      CacheAgrees(reqs[..|reqs| - 1]);
      forall x | x in Seen(reqs) { EntryLogged(reqs, x); }
      forall i: nat | i < |reqs| && Logged(reqs, i) { LoggedKept(reqs, i); }
    }
  }

  /** An accepted use of this nonce, less than 600 seconds old. */
  predicate UsedRecently(reqs: seq<Request>, r: Request) {
    exists i: nat :: i < |reqs| && Logged(reqs, i) && reqs[i].nonce == r.nonce && r.now - reqs[i].now < KEPT
  }

  /** The pruned cache decides as a full log would: fresh, and no accepted use of the nonce in the last 600 seconds. */
  lemma DecidesAsLog(reqs: seq<Request>, r: Request)
    requires Monotone(reqs + [r]) && !Exempt(r)
    ensures GuardStep(Seen(reqs), r).0 <==> Fresh(r) && !UsedRecently(reqs, r)
  {
    assert forall i :: 0 <= i < |reqs| ==> (reqs + [r])[i] == reqs[i];
    assert (reqs + [r])[|reqs|] == r;
    CacheAgrees(reqs);
    if r.nonce in Pruned(Seen(reqs), r.now) {
      assert FromLog(reqs, r.nonce, Seen(reqs)[r.nonce]);
    }
  }

  // ---- the same request again ----

  /** Both requests carry this nonce and this stamp, from addresses that are checked. */
  predicate Repeats(a: Request, b: Request) {
    && a.nonce == b.nonce && a.stamp == b.stamp
    && !Exempt(a) && !Exempt(b)
  }

  /** Request j is the last accepted one with its nonce. */
  predicate LastUse(reqs: seq<Request>, j: nat) {
    && j < |reqs| && Logged(reqs, j)
    && forall i: nat :: j < i < |reqs| && Logged(reqs, i) ==> reqs[i].nonce != reqs[j].nonce
  }

  /** Main result. When a request whose stamp and nonce were let through before is let through again:
      exactly when 600 seconds have passed by the clock reading that is kept and, if its stamp is a number,
      it is still fresh by the clock reading the stamp is checked against. */
  lemma PassesAgainIff(reqs: seq<Request>, j: nat, r: Request)
    requires Monotone(reqs + [r]) && LastUse(reqs, j) && Repeats(reqs[j], r)
    ensures GuardStep(Seen(reqs), r).0 <==>
            match r.stamp
            case At(time) => r.now - reqs[j].now >= KEPT && r.checked - time <= FRESH
            case NotANumber => r.now - reqs[j].now >= KEPT
            case _ => false
  {
    var all := reqs + [r];
    assert forall i :: 0 <= i < |reqs| ==> all[i] == reqs[i];
    assert all[|reqs|] == r;
    DecidesAsLog(reqs, r);
    FreshWhenLogged(reqs, j);
    forall i: nat | i < |reqs| && Logged(reqs, i) && reqs[i].nonce == r.nonce
      ensures reqs[i].now <= reqs[j].now
    {
    }
  }

  lemma FreshWhenLogged(reqs: seq<Request>, j: nat)
    requires j < |reqs| && Logged(reqs, j)
    ensures Fresh(reqs[j])
  {
  }

  /** With one clock reading per request: a numeric stamp passes again exactly 600 seconds later, if it lies
      half-way; a NaN stamp at any time from 600 seconds on. */
  lemma PassesAgainOneReading(reqs: seq<Request>, j: nat, r: Request)
    requires Monotone(reqs + [r]) && LastUse(reqs, j) && Repeats(reqs[j], r)
    requires reqs[j].checked == reqs[j].now && r.checked == r.now
    ensures GuardStep(Seen(reqs), r).0 <==>
            match r.stamp
            case At(time) => r.now == reqs[j].now + KEPT && time == reqs[j].now + FRESH
            case NotANumber => r.now - reqs[j].now >= KEPT
            case _ => false
  {
    PassesAgainIff(reqs, j, r);
    FreshWhenLogged(reqs, j);
  }

  /** Over a run, two accepted requests with the same nonce, stamped in any way, are at least 600 seconds apart
      by the clock reading that is kept; with the same numeric stamp, at most 600 by the one it is checked against. */
  lemma AcceptedTwice(reqs: seq<Request>, j: nat, k: nat)
    requires Monotone(reqs) && j < k < |reqs| && reqs[j].nonce == reqs[k].nonce
    requires !Exempt(reqs[j]) && !Exempt(reqs[k]) && Accepted(reqs, j) && Accepted(reqs, k)
    ensures reqs[k].now - reqs[j].now >= KEPT
    ensures reqs[j].stamp == reqs[k].stamp && reqs[j].stamp.At? ==> reqs[k].checked - reqs[j].checked <= KEPT
  {
    var before := reqs[..k];
    assert forall i :: 0 <= i < k ==> before[i] == reqs[i];
    assert before[..j] == reqs[..j];
    assert Logged(before, j);
    assert reqs[..k + 1] == before + [reqs[k]];
    DecidesAsLog(before, reqs[k]);
  }

  /** With one clock reading per request, two accepted requests with the same nonce and stamp are 600 seconds
      apart and stamped half-way, unless the stamp is NaN: then they are 600 seconds apart or more. */
  lemma NeverTwiceBut600(reqs: seq<Request>, j: nat, k: nat)
    requires Monotone(reqs) && (forall i :: 0 <= i < |reqs| ==> reqs[i].checked == reqs[i].now) && j < k < |reqs|
    requires Repeats(reqs[j], reqs[k]) && Accepted(reqs, j) && Accepted(reqs, k)
    ensures match reqs[j].stamp
            case At(time) => reqs[k].now == reqs[j].now + KEPT && time == reqs[j].now + FRESH
            case NotANumber => reqs[k].now >= reqs[j].now + KEPT
            case _ => false
  {
    AcceptedTwice(reqs, j, k);
  }

  /** Two arrivals 600 seconds apart, stamped half-way, both pass. */
  lemma TwiceAt600(ip: string, nonce: string, t: real)
    requires nonce != "" && !("10.10.0." <= ip)
    ensures var a := Request(ip, At(t + FRESH), nonce, t, t);
      var b := a.(checked := t + KEPT, now := t + KEPT);
      Monotone([a, b]) && Accepted([a, b], 0) && Accepted([a, b], 1)
  {
    var a := Request(ip, At(t + FRESH), nonce, t, t);
    var b := a.(checked := t + KEPT, now := t + KEPT);
    assert [a, b][..0] == [] && [a, b][..1] == [a] && [a][..0] == [];
    assert Seen([a]) == GuardStep(Seen([]), a).1;
  }

  /** The same nonce under a NaN stamp, over and over, from an address that is checked. */
  predicate SameNaN(reqs: seq<Request>, nonce: string) {
    forall i :: 0 <= i < |reqs| ==> reqs[i].stamp.NotANumber? && reqs[i].nonce == nonce && !Exempt(reqs[i])
  }

  predicate Spaced(reqs: seq<Request>) {
    forall k :: 0 < k < |reqs| ==> reqs[k].now - reqs[k - 1].now >= KEPT
  }

  lemma SpacedPasses(reqs: seq<Request>, nonce: string, k: nat)
    requires Monotone(reqs) && SameNaN(reqs, nonce) && nonce != "" && Spaced(reqs) && k < |reqs|
    ensures Accepted(reqs, k)
  {
    var before, r := reqs[..k], reqs[k];
    assert before + [r] == reqs[..k + 1];
    DecidesAsLog(before, r);
    forall i: nat | i < k
      ensures r.now - before[i].now >= KEPT
    {
      assert reqs[i].now <= reqs[k - 1].now;
    }
  }

  /** A request with a NaN stamp can be sent again without end: every one of the run passes exactly when
      each comes at least 600 seconds after the one before. */
  lemma NaNPassesForever(reqs: seq<Request>, nonce: string)
    requires Monotone(reqs) && SameNaN(reqs, nonce) && nonce != ""
    ensures (forall k: nat :: k < |reqs| ==> Accepted(reqs, k)) <==> Spaced(reqs)
  {
    if Spaced(reqs) {
      forall k: nat | k < |reqs| { SpacedPasses(reqs, nonce, k); }
    }
    if forall k: nat :: k < |reqs| ==> Accepted(reqs, k) {
      forall k | 0 < k < |reqs|
        ensures reqs[k].now - reqs[k - 1].now >= KEPT
      {
        AcceptedTwice(reqs, k - 1, k);
      }
    }
  }

  /** A request from the tunnel always passes and leaves no nonce. */
  lemma TunnelPasses(seen: map<string, real>, r: Request)
    requires "10.10.0." <= r.ip
    ensures GuardStep(seen, r) == (true, seen)
  {
  }

  /** From anywhere else it is refused, and leaves no nonce, without a nonce, without a time stamp that reads as a
      number, or more than 300 seconds off the clock. */
  lemma StaleRefused(seen: map<string, real>, r: Request)
    requires !("10.10.0." <= r.ip)
    requires || r.nonce == "" || r.stamp.Missing? || r.stamp.Unreadable?
             || (r.stamp.At? && (r.checked - r.stamp.time > 300.0 || r.stamp.time - r.checked > 300.0))
    ensures GuardStep(seen, r) == (false, seen)
  {
  }
}
