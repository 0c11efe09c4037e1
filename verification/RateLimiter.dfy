/**
 The chat rate limiter: one token bucket per key, refilled continuously at the configured
 number of requests per minute. Time is a parameter; arithmetic is over the reals.
*/
module RateLimiter {
  import opened Prelude

  datatype Bucket = Bucket(tokens: real, last: real)

  datatype Request = Request(key: string, now: real)

  function MinReal(a: real, b: real): real {
    if a <= b then a else b
  }

  function MaxReal(a: real, b: real): real {
    if a >= b then a else b
  }

  /** Tokens that flow in during so many seconds. */
  function Flow(rate: real, seconds: real): real {
    seconds * (rate / 60.0)
  }

  /** Tokens available at `now`; an unknown key starts full. */
  function Refill(rate: real, b: Option<Bucket>, now: real): real {
    match b
    case None => MinReal(rate, rate + Flow(rate, MaxReal(0.0, now - now)))
    case Some(k) => MinReal(rate, k.tokens + Flow(rate, MaxReal(0.0, now - k.last)))
  }

  predicate Admits(rate: real, b: Option<Bucket>, now: real) {
    Refill(rate, b, now) >= 1.0
  }

  function Spend(rate: real, b: Option<Bucket>, now: real): Bucket {
    Bucket(Refill(rate, b, now) - if Admits(rate, b, now) then 1.0 else 0.0, now)
  }

  // ---------------------------------------------------------------------------------------
  // One key's history
  // ---------------------------------------------------------------------------------------

  function BucketAfter(rate: real, times: seq<real>): Option<Bucket> {
    if times == [] then None else Some(Spend(rate, BucketAfter(rate, Front(times)), Last(times)))
  }

  /** How many of the requests at `times` that fall in [from, to] were admitted. */
  function AdmittedIn(rate: real, times: seq<real>, from: real, to: real): nat {
    if times == [] then 0
    else
      AdmittedIn(rate, Front(times), from, to) +
      if from <= Last(times) <= to && Admits(rate, BucketAfter(rate, Front(times)), Last(times)) then 1 else 0
  }

  ghost predicate NonDecreasing(times: seq<real>) {
    forall i, j :: 0 <= i < j < |times| ==> times[i] <= times[j]
  }

  lemma FlowLaws(rate: real, a: real, b: real)
    requires rate >= 0.0
    ensures a >= 0.0 ==> Flow(rate, a) >= 0.0
    ensures Flow(rate, a) + Flow(rate, b) == Flow(rate, a + b)
    ensures a <= b ==> Flow(rate, a) <= Flow(rate, b)
    ensures Flow(rate, 0.0) == 0.0
  {
    var fill := rate / 60.0;
    if a <= b {
      assert (b - a) * fill >= 0.0;
    }
  }

  lemma RefillBounds(rate: real, b: Option<Bucket>, now: real)
    requires rate >= 1.0
    requires b.Some? ==> 0.0 <= b.value.tokens <= rate
    ensures 0.0 <= Spend(rate, b, now).tokens <= rate
  {
    hide Flow;
    FlowLaws(rate, 0.0, if b.Some? then MaxReal(0.0, now - b.value.last) else 0.0);
  }

  /** Tokens never leave [0, rate]. */
  lemma {:induction false} TokensInRange(rate: real, times: seq<real>)
    requires rate >= 1.0
    ensures times != [] ==> 0.0 <= BucketAfter(rate, times).value.tokens <= rate
  {
    if times != [] {
      TokensInRange(rate, Front(times));
      RefillBounds(rate, BucketAfter(rate, Front(times)), Last(times));
    }
  }

  lemma {:induction false} LastOfBucket(rate: real, times: seq<real>)
    requires times != []
    ensures BucketAfter(rate, times).value.last == Last(times)
  {
  }

  lemma {:induction false} NothingBeforeWindow(rate: real, times: seq<real>, from: real, to: real)
    requires NonDecreasing(times)
    requires times != [] ==> Last(times) < from
    ensures AdmittedIn(rate, times, from, to) == 0
  {
    if times != [] {
      NothingBeforeWindow(rate, Front(times), from, to);
    }
  }

  /** One request inside the window moves the potential by at most what has flowed in. */
  lemma PotentialStep(rate: real, admitted: real, b: Bucket, now: real, from: real)
    requires rate >= 1.0 && from <= b.last <= now
    requires admitted + b.tokens <= rate + Flow(rate, b.last - from)
    ensures admitted + (if Admits(rate, Some(b), now) then 1.0 else 0.0) + Spend(rate, Some(b), now).tokens
            <= rate + Flow(rate, now - from)
  {
    hide Flow;
    FlowLaws(rate, b.last - from, now - b.last);
    assert (b.last - from) + (now - b.last) == now - from;
  }

  /** The first request inside the window starts from at most a full bucket. */
  lemma PotentialStart(rate: real, b: Option<Bucket>, now: real, from: real)
    requires rate >= 1.0 && from <= now
    ensures (if Admits(rate, b, now) then 1.0 else 0.0) + Spend(rate, b, now).tokens
            <= rate + Flow(rate, now - from)
  {
    hide Flow;
    FlowLaws(rate, now - from, 0.0);
  }

  lemma AdmittedInSnoc(rate: real, times: seq<real>, from: real, to: real)
    requires times != [] && from <= Last(times) <= to
    ensures var b := BucketAfter(rate, Front(times));
            AdmittedIn(rate, times, from, to) as real ==
            AdmittedIn(rate, Front(times), from, to) as real + (if Admits(rate, b, Last(times)) then 1.0 else 0.0) &&
            BucketAfter(rate, times).value == Spend(rate, b, Last(times))
  {
  }

  /** The potential argument: what the window has admitted plus the tokens in hand never
      exceeds the capacity plus what has flowed in since the window opened. */
  lemma {:induction false} Potential(rate: real, times: seq<real>, from: real, to: real)
    requires rate >= 1.0 && times != []
    requires NonDecreasing(times)
    requires from <= Last(times) <= to
    ensures AdmittedIn(rate, times, from, to) as real + BucketAfter(rate, times).value.tokens
            <= rate + Flow(rate, Last(times) - from)
  {
    hide Refill;
    hide Flow;
    var pre, now := Front(times), Last(times);
    AdmittedInSnoc(rate, times, from, to);
    var b := BucketAfter(rate, pre);
    if pre == [] || Last(pre) < from {
      NothingBeforeWindow(rate, pre, from, to);
      PotentialStart(rate, b, now, from);
    } else {
      Potential(rate, pre, from, to);
      LastOfBucket(rate, pre);
      PotentialStep(rate, AdmittedIn(rate, pre, from, to) as real, b.value, now, from);
    }
  }

  /** The rate promise: in any window, one key is admitted at most the capacity plus what the
      window refills. */
  lemma {:induction false} AdmissionBound(rate: real, times: seq<real>, from: real, to: real)
    requires rate >= 1.0 && from <= to
    requires NonDecreasing(times)
    ensures AdmittedIn(rate, times, from, to) as real <= rate + Flow(rate, to - from)
  {
    hide Refill;
    hide Flow;
    FlowLaws(rate, to - from, 0.0);
    if times != [] {
      var now := Last(times);
      if now < from {
        NothingBeforeWindow(rate, times, from, to);
      } else if now <= to {
        Potential(rate, times, from, to);
        TokensInRange(rate, times);
        FlowLaws(rate, now - from, to - from);
      } else {
        AdmissionBound(rate, Front(times), from, to);
      }
    }
  }

  /** No starvation: a request one refill interval after the previous one is admitted. */
  lemma SpacedRequestIsAdmitted(rate: real, times: seq<real>, now: real)
    requires rate >= 1.0
    requires times != [] ==> now - Last(times) >= 60.0 / rate
    ensures Admits(rate, BucketAfter(rate, times), now)
  {
    hide Flow;
    FlowLaws(rate, MaxReal(0.0, now - now), 0.0);
    if times != [] {
      TokensInRange(rate, times);
      LastOfBucket(rate, times);
      FlowLaws(rate, 60.0 / rate, now - Last(times));
      OneInterval(rate);
    }
  }

  lemma OneInterval(rate: real)
    requires rate >= 1.0
    ensures 60.0 / rate > 0.0 && Flow(rate, 60.0 / rate) == 1.0
  {
  }

  // ---------------------------------------------------------------------------------------
  // Exactly when a request is admitted
  // ---------------------------------------------------------------------------------------

  /** How many of the requests from the i-th on were admitted. */
  function AdmittedSince(rate: real, times: seq<real>, i: nat): nat
    requires i <= |times|
  {
    if i == |times| then 0
    else
      AdmittedSince(rate, Front(times), i) +
      if Admits(rate, BucketAfter(rate, Front(times)), Last(times)) then 1 else 0
  }

  /** What a full bucket at request i would leave at `now`, if nothing overflowed on the way. */
  function LeftSince(rate: real, times: seq<real>, i: nat, now: real): real
    requires i <= |times|
  {
    rate + (now - if i < |times| then times[i] else now) * (rate / 60.0) - AdmittedSince(rate, times, i) as real
  }

  lemma LeftLater(rate: real, times: seq<real>, i: nat, now: real)
    requires times != [] && i < |times|
    ensures var pre, t := Front(times), Last(times);
            LeftSince(rate, times, i, now) ==
            LeftSince(rate, pre, i, t) + Flow(rate, now - t) -
            if Admits(rate, BucketAfter(rate, pre), t) then 1.0 else 0.0
  {
    hide BucketAfter;
    hide Admits;
    var pre, t, fill := Front(times), Last(times), rate / 60.0;
    var from := times[i];
    assert (now - from) * fill == (t - from) * fill + (now - t) * fill;
    assert i == |pre| ==> from == t;
  }

  /** The tokens at hand are the least of what is left since any earlier request. */
  lemma {:induction false} TokensAreTheLeast(rate: real, times: seq<real>, now: real) returns (i: nat)
    requires rate >= 1.0 && NonDecreasing(times) && (times != [] ==> Last(times) <= now)
    ensures var level := Refill(rate, BucketAfter(rate, times), now);
            i <= |times| && level == LeftSince(rate, times, i, now) &&
            forall j :: 0 <= j <= |times| ==> level <= LeftSince(rate, times, j, now)
  {
    hide Flow;
    i := |times|;
    FullNow(rate, times, now);
    if times == [] {
      FlowLaws(rate, 0.0, 0.0);
    } else {
      var pre, t := Front(times), Last(times);
      var k := TokensAreTheLeast(rate, pre, t);
      LastOfBucket(rate, times);
      forall j | 0 <= j < |times|
        ensures LeftSince(rate, times, j, now) ==
                LeftSince(rate, pre, j, t) + Flow(rate, now - t) -
                if Admits(rate, BucketAfter(rate, pre), t) then 1.0 else 0.0
      {
        LeftLater(rate, times, j, now);
      }
      hide LeftSince;
      if Refill(rate, BucketAfter(rate, times), now) < rate {
        i := k;
      }
    }
  }

  lemma FullNow(rate: real, times: seq<real>, now: real)
    ensures LeftSince(rate, times, |times|, now) == rate
  {
    assert 0.0 * (rate / 60.0) == 0.0;
  }

  /** A request is admitted exactly when, with it, no window that starts at an earlier request holds
      more admitted requests than the rate and what flows in during the window. */
  lemma AdmittedExactly(rate: real, times: seq<real>, now: real)
    requires rate >= 1.0 && NonDecreasing(times) && (times != [] ==> Last(times) <= now)
    ensures Admits(rate, BucketAfter(rate, times), now) <==>
            forall i :: 0 <= i < |times| ==>
              AdmittedSince(rate, times, i) as real + 1.0 <= rate + (now - times[i]) * (rate / 60.0)
  {
    hide Refill;
    hide BucketAfter;
    hide AdmittedSince;
    var i := TokensAreTheLeast(rate, times, now);
    FullNow(rate, times, now);
    assert forall j :: 0 <= j < |times| ==>
             LeftSince(rate, times, j, now) ==
             rate + (now - times[j]) * (rate / 60.0) - AdmittedSince(rate, times, j) as real;
  }

  // ---------------------------------------------------------------------------------------
  // All keys at once
  // ---------------------------------------------------------------------------------------

  function Lookup(buckets: map<string, Bucket>, key: string): Option<Bucket> {
    if key in buckets then Some(buckets[key]) else None
  }

  function Buckets(rate: real, trace: seq<Request>): map<string, Bucket> {
    if trace == [] then map[]
    else
      var before, r := Buckets(rate, Front(trace)), Last(trace);
      before[r.key := Spend(rate, Lookup(before, r.key), r.now)]
  }

  function TimesOf(trace: seq<Request>, key: string): seq<real> {
    if trace == [] then []
    else TimesOf(Front(trace), key) + if Last(trace).key == key then [Last(trace).now] else []
  }

  /** A key's bucket depends on that key's own requests only. */
  lemma {:induction false} KeysAreIndependent(rate: real, trace: seq<Request>, key: string)
    ensures Lookup(Buckets(rate, trace), key) == BucketAfter(rate, TimesOf(trace, key))
  {
    if trace != [] {
      KeysAreIndependent(rate, Front(trace), key);
      var r := Last(trace);
      if r.key == key {
        assert Front(TimesOf(trace, key)) == TimesOf(Front(trace), key);
      } else {
        assert TimesOf(trace, key) == TimesOf(Front(trace), key);
      }
    }
  }

  /** How many of key's requests in the trace that fall in [from, to] were admitted. */
  function AdmittedFor(rate: real, trace: seq<Request>, key: string, from: real, to: real): nat {
    if trace == [] then 0
    else
      var before, r := Buckets(rate, Front(trace)), Last(trace);
      AdmittedFor(rate, Front(trace), key, from, to) +
      if r.key == key && from <= r.now <= to && Admits(rate, Lookup(before, key), r.now) then 1 else 0
  }

  lemma {:induction false} AdmittedForIsOwn(rate: real, trace: seq<Request>, key: string, from: real, to: real)
    ensures AdmittedFor(rate, trace, key, from, to) == AdmittedIn(rate, TimesOf(trace, key), from, to)
  {
    if trace != [] {
      AdmittedForIsOwn(rate, Front(trace), key, from, to);
      KeysAreIndependent(rate, Front(trace), key);
      if Last(trace).key == key {
        assert Front(TimesOf(trace, key)) == TimesOf(Front(trace), key);
      } else {
        assert TimesOf(trace, key) == TimesOf(Front(trace), key);
      }
    }
  }

  ghost predicate ClockForward(trace: seq<Request>) {
    forall i, j :: 0 <= i < j < |trace| ==> trace[i].now <= trace[j].now
  }

  lemma {:induction false} TimesOfForward(trace: seq<Request>, key: string)
    requires ClockForward(trace)
    ensures NonDecreasing(TimesOf(trace, key))
    ensures forall t :: t in TimesOf(trace, key) ==> trace != [] && t <= Last(trace).now
  {
    if trace != [] {
      var pre := TimesOf(Front(trace), key);
      TimesOfForward(Front(trace), key);
      assert Front(trace) != [] ==> Last(Front(trace)).now <= Last(trace).now;
      forall i, j | 0 <= i < j < |TimesOf(trace, key)|
        ensures TimesOf(trace, key)[i] <= TimesOf(trace, key)[j]
      {
        if j == |pre| {
          assert pre[i] in pre;
        }
      }
    }
  }

  /** The rate promise over any interleaving of keys, for a clock that never runs back. */
  lemma WindowBound(rate: real, trace: seq<Request>, key: string, from: real, to: real)
    requires rate >= 1.0 && from <= to
    requires ClockForward(trace)
    ensures AdmittedFor(rate, trace, key, from, to) as real <= rate + Flow(rate, to - from)
  {
    AdmittedForIsOwn(rate, trace, key, from, to);
    TimesOfForward(trace, key);
    AdmissionBound(rate, TimesOf(trace, key), from, to);
  }

  class TokenBucketRateLimiter {
    const rate: real
    var buckets: map<string, Bucket>
    ghost var trace: seq<Request>

    ghost predicate Valid()
      reads this
    {
      rate >= 1.0 && buckets == Buckets(rate, trace)
    }

    constructor (requestsPerMinute: nat)
      requires requestsPerMinute >= 1
      ensures Valid() && trace == [] && rate == requestsPerMinute as real
    {
      rate := requestsPerMinute as real;
      buckets := map[];
      trace := [];
    }

    method Allow(key: string, now: real) returns (admitted: bool)
      requires Valid()
      modifies this
      ensures Valid() && trace == old(trace) + [Request(key, now)]
      ensures admitted <==> Admits(rate, BucketAfter(rate, TimesOf(old(trace), key)), now)
    {
      hide Refill;
      hide Flow;
      KeysAreIndependent(rate, trace, key);
      BucketsSnoc(rate, trace, Request(key, now));
      var tokens, last := rate, now;
      if key in buckets {
        tokens, last := buckets[key].tokens, buckets[key].last;
      }
      admitted, tokens := Draw(rate, tokens, last, now, Lookup(buckets, key));
      buckets := buckets[key := Bucket(tokens, now)];
      trace := trace + [Request(key, now)];
    }
  }

  /** Refill a bucket up to the capacity and take one token if there is one. */
  method Draw(rate: real, held: real, last: real, now: real, ghost b: Option<Bucket>)
    returns (admitted: bool, tokens: real)
    requires b == Some(Bucket(held, last)) || (b == None && held == rate && last == now)
    ensures admitted <==> Admits(rate, b, now)
    ensures Bucket(tokens, now) == Spend(rate, b, now)
  {
    var elapsed := MaxReal(0.0, now - last);
    tokens := MinReal(rate, held + elapsed * (rate / 60.0));
    admitted := tokens >= 1.0;
    if admitted {
      tokens := tokens - 1.0;
    }
  }

  lemma BucketsSnoc(rate: real, trace: seq<Request>, r: Request)
    ensures Buckets(rate, trace + [r]) ==
            Buckets(rate, trace)[r.key := Spend(rate, Lookup(Buckets(rate, trace), r.key), r.now)]
  {
    assert Front(trace + [r]) == trace;
  }

  /** The limiter's contract: a limit below one request per minute is refused. */
  method MakeLimiter(requestsPerMinute: int) returns (limiter: TokenBucketRateLimiter?)
    ensures limiter == null <==> requestsPerMinute < 1
    ensures limiter != null ==>
              fresh(limiter) && limiter.Valid() && limiter.trace == [] && limiter.rate == requestsPerMinute as real
  {
    if requestsPerMinute < 1 {
      return null;
    }
    limiter := new TokenBucketRateLimiter(requestsPerMinute);
  }
}
