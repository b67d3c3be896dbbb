/**
 * The gateway's per-client token bucket. Token counts and times are reals (seconds);
 * the clock is a parameter `now` of each call.
 */
module RateLimit {

  datatype TokenBucket = TokenBucket(tokens: real, lastRefill: real, tokensPerSec: real, maxTokens: real)

  /** The bucket a first request from a client gets: full at the burst size, refilling at rpm / 60 per second. */
  function NewBucket(requestsPerMinute: int, burstSize: int, now: real): (b: TokenBucket)
    ensures b.tokens == b.maxTokens == burstSize as real
    ensures b.tokensPerSec * 60.0 == requestsPerMinute as real
    ensures b.lastRefill == now
  {
    TokenBucket(burstSize as real, now, requestsPerMinute as real / 60.0, burstSize as real)
  }

  /** The refill: the elapsed seconds times the rate are added, capped at maxTokens, and the refill time moves to now. */
  function Refill(b: TokenBucket, now: real): (r: TokenBucket)
    ensures r.lastRefill == now && r.tokensPerSec == b.tokensPerSec && r.maxTokens == b.maxTokens
    ensures r.tokens <= b.maxTokens
    ensures b.tokens + (now - b.lastRefill) * b.tokensPerSec <= b.maxTokens ==>
      r.tokens == b.tokens + (now - b.lastRefill) * b.tokensPerSec
    ensures b.tokens + (now - b.lastRefill) * b.tokensPerSec > b.maxTokens ==> r.tokens == b.maxTokens
  {
    var t := b.tokens + (now - b.lastRefill) * b.tokensPerSec;
    b.(tokens := if t > b.maxTokens then b.maxTokens else t, lastRefill := now)
  }

  /** One request against a bucket: refill, then let it through iff a whole token is there, consuming it. */
  function Take(b: TokenBucket, now: real): (r: (TokenBucket, bool))
    ensures r.1 <==> Refill(b, now).tokens >= 1.0
    ensures r.1 ==> r.0 == Refill(b, now).(tokens := Refill(b, now).tokens - 1.0)
    ensures !r.1 ==> r.0 == Refill(b, now)
  {
    var refilled := Refill(b, now);
    if refilled.tokens >= 1.0 then (refilled.(tokens := refilled.tokens - 1.0), true) else (refilled, false)
  }

  /** The bucket invariant: a token count between zero and the cap, and a rate that does not drain. */
  predicate BucketOk(b: TokenBucket)
  {
    0.0 <= b.tokens <= b.maxTokens && b.tokensPerSec >= 0.0
  }

  /** With a clock that does not run backwards a request keeps the bucket within its bounds. */
  lemma TakeKeepsBounds(b: TokenBucket, now: real)
    requires BucketOk(b) && now >= b.lastRefill
    ensures BucketOk(Take(b, now).0)
  {
    assert (now - b.lastRefill) * b.tokensPerSec >= 0.0 by {
      NonNegativeProduct(now - b.lastRefill, b.tokensPerSec);
    }
  }

  lemma NonNegativeProduct(x: real, y: real)
    requires x >= 0.0 && y >= 0.0
    ensures x * y >= 0.0
  {
  }

  /** Waiting long enough for the missing fraction of a token always lets the next request through. */
  lemma WaitingAdmits(b: TokenBucket, now: real)
    requires BucketOk(b) && b.tokensPerSec > 0.0 && b.maxTokens >= 1.0
    requires now >= b.lastRefill + (1.0 - b.tokens) / b.tokensPerSec
    ensures Take(b, now).1
  {
    var rate := b.tokensPerSec;
    var wait := (1.0 - b.tokens) / rate;
    assert wait * rate == 1.0 - b.tokens;
    assert (now - b.lastRefill) * rate >= wait * rate by {
      MulMonotoneReal(wait, now - b.lastRefill, rate);
    }
  }

  lemma MulMonotoneReal(x: real, y: real, z: real)
    requires x <= y && z >= 0.0
    ensures x * z <= y * z
  {
  }

  /** The answers to n requests made at the same instant. */
  function Burst(b: TokenBucket, now: real, n: nat): (answers: seq<bool>)
    ensures |answers| == n
    decreases n
  {
    if n == 0 then [] else [Take(b, now).1] + Burst(Take(b, now).0, now, n - 1)
  }

  /**
   * A bucket refilled at this instant with k whole tokens admits exactly k requests made
   * at the same instant and refuses the rest.
   */
  lemma {:induction false} BurstAdmitsTokens(b: TokenBucket, now: real, k: nat, n: nat)
    requires b.lastRefill == now && b.tokens == k as real && k as real <= b.maxTokens
    ensures forall j :: 0 <= j < n ==> (Burst(b, now, n)[j] <==> j < k)
    decreases n
  {
    if n > 0 {
      assert (now - b.lastRefill) * b.tokensPerSec == 0.0;
      assert Refill(b, now) == b;
      var next := Take(b, now).0;
      if k > 0 {
        assert next.tokens == (k - 1) as real;
        BurstAdmitsTokens(next, now, k - 1, n - 1);
      } else {
        assert next == b;
        BurstAdmitsTokens(next, now, 0, n - 1);
      }
      var rest := Burst(next, now, n - 1);
      assert Burst(b, now, n) == [k > 0] + rest;
      forall j | 0 <= j < n
        ensures Burst(b, now, n)[j] <==> j < k
      {
        if j > 0 {
          assert Burst(b, now, n)[j] == rest[j - 1];
        }
      }
    }
  }

  /** A new client may send burstSize requests at once; the next one is refused. */
  lemma NewClientBurst(requestsPerMinute: int, burstSize: nat, now: real)
    ensures var answers := Burst(NewBucket(requestsPerMinute, burstSize, now), now, burstSize + 1);
      (forall j :: 0 <= j < burstSize ==> answers[j]) && !answers[burstSize]
  {
    BurstAdmitsTokens(NewBucket(requestsPerMinute, burstSize, now), now, burstSize, burstSize + 1);
  }

  /** Every bucket of the map keeps its bounds, with cap burstSize and rate rpm / 60. */
  ghost predicate ClientsOk(clients: map<string, TokenBucket>, rpm: int, burstSize: int)
  {
    forall ip :: ip in clients ==>
      BucketOk(clients[ip]) && clients[ip].maxTokens == burstSize as real
      && clients[ip].tokensPerSec == rpm as real / 60.0
  }

  /** A request against a bucket of the limiter's shape, at a time not before its last refill, keeps the map valid. */
  lemma TakeKeepsClientsOk(clients: map<string, TokenBucket>, ip: string, b: TokenBucket, now: real, rpm: int, burstSize: int)
    requires ClientsOk(clients, rpm, burstSize)
    requires BucketOk(b) && b.maxTokens == burstSize as real && b.tokensPerSec == rpm as real / 60.0
    requires now >= b.lastRefill
    ensures ClientsOk(clients[ip := Take(b, now).0], rpm, burstSize)
  {
    TakeKeepsBounds(b, now);
  }

  /** The refill and the take as the limiter writes them, field by field. */
  method TakeToken(b: TokenBucket, now: real) returns (next: TokenBucket, allowed: bool)
    ensures (next, allowed) == Take(b, now)
  {
    next := b;
    var elapsed := now - next.lastRefill;
    next := next.(lastRefill := now);
    next := next.(tokens := next.tokens + elapsed * next.tokensPerSec);
    if next.tokens > next.maxTokens {
      next := next.(tokens := next.maxTokens);
    }
    assert next == Refill(b, now);
    if next.tokens >= 1.0 {
      next := next.(tokens := next.tokens - 1.0);
      allowed := true;
    } else {
      allowed := false;
    }
  }

  class RateLimiter {
    var requestsPerMinute: int
    var burstSize: int
    var clients: map<string, TokenBucket>

    /** Every client's bucket keeps its bounds, with the limiter's cap and rate. */
    ghost predicate Valid()
      reads this
    {
      requestsPerMinute >= 0 && burstSize >= 0 && ClientsOk(clients, requestsPerMinute, burstSize)
    }

    /** NewRateLimiter: no client has a bucket yet. */
    constructor(requestsPerMinute: int, burstSize: int)
      ensures this.requestsPerMinute == requestsPerMinute && this.burstSize == burstSize
      ensures clients == map[]
      ensures requestsPerMinute >= 0 && burstSize >= 0 ==> Valid()
    {
      this.requestsPerMinute := requestsPerMinute;
      this.burstSize := burstSize;
      clients := map[];
    }

    /** Whether the clock has not gone back since the client's last request. */
    ghost predicate ClockMonotone(clientIP: string, now: real)
      reads this
    {
      clientIP in clients ==> now >= clients[clientIP].lastRefill
    }

    /**
     * Allow: the client's bucket (a new full one for a first request) takes one request;
     * only that client's bucket changes, and the invariant survives a clock that does not run back.
     */
    method Allow(clientIP: string, now: real) returns (allowed: bool)
      modifies this
      ensures requestsPerMinute == old(requestsPerMinute) && burstSize == old(burstSize)
      ensures var b := if clientIP in old(clients) then old(clients)[clientIP] else NewBucket(requestsPerMinute, burstSize, now);
        clients == old(clients)[clientIP := Take(b, now).0] && allowed == Take(b, now).1
      ensures clientIP in clients && clients[clientIP].lastRefill == now
      ensures forall ip :: ip in old(clients) && ip != clientIP ==> ip in clients && clients[ip] == old(clients)[ip]
      ensures old(Valid()) && old(ClockMonotone(clientIP, now)) ==> Valid()
    {
      var bucket: TokenBucket;
      if clientIP in clients {
        bucket := clients[clientIP];
      } else {
        bucket := NewBucket(requestsPerMinute, burstSize, now);
        clients := clients[clientIP := bucket];
      }
      ghost var wasValid := old(Valid()) && old(ClockMonotone(clientIP, now));
      var next;
      next, allowed := TakeToken(bucket, now);
      if wasValid {
        TakeKeepsClientsOk(old(clients), clientIP, bucket, now, requestsPerMinute, burstSize);
      }
      clients := clients[clientIP := next];
    }
  }
}
