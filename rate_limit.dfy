/**
 * The sliding-window rate limiter. Each key owns a Redis sorted set of request times; a
 * check drops the times that have left the window, counts the rest, records the current
 * request and refuses it when the count exceeds the limit.
 */
module RateLimit {
  import opened Wrappers
  import Text

  /** `RateLimiter(times, seconds, key_prefix)`. */
  datatype RateLimiter = RateLimiter(times: int, seconds: int, keyPrefix: string)

  const DefaultPrefix := "rate_limit"

  /** `RATE_LIMITS`: every configuration keeps the default prefix. */
  const DefaultLimiter := RateLimiter(100, 60, DefaultPrefix)
  const SearchLimiter := RateLimiter(20, 60, DefaultPrefix)
  const BulkLimiter := RateLimiter(10, 60, DefaultPrefix)

  /** The parts of a request the limiter looks at: `request.state.user_id`, `X-Forwarded-For`, `request.client.host`. */
  datatype Request = Request(userId: Option<string>, forwardedFor: Option<string>, clientHost: string)

  const TooManyRequests := 429
  const TooManyRequestsDetail := "Too many requests"

  /** The middleware's answer: the 429 JSON response, or whatever `call_next` produced. */
  datatype Response = Refused(status: int, detail: string, retryAfter: int) | Forwarded

  /** `_get_key`: the user id when set, else the first `X-Forwarded-For` element, else the client host. */
  function GetKey(limiter: RateLimiter, request: Request): (key: string)
    ensures Text.StartsWith(key, limiter.keyPrefix + ":")
    ensures Truthy(request.userId) ==> key == limiter.keyPrefix + ":" + request.userId.value
    ensures !Truthy(request.userId) && !Truthy(request.forwardedFor) ==> key == limiter.keyPrefix + ":" + request.clientHost
  {
    var id :=
      if Truthy(request.userId) then request.userId.value
      else if Truthy(request.forwardedFor) then Text.Split(request.forwardedFor.value, ',')[0]
      else request.clientHost;
    assert (limiter.keyPrefix + ":" + id)[..|limiter.keyPrefix + ":"|] == limiter.keyPrefix + ":";
    limiter.keyPrefix + ":" + id
  }

  /** `zremrangebyscore(key, 0, now - seconds)`: the scores that survive. */
  function Window(scores: set<int>, now: int, seconds: int): (kept: set<int>)
    ensures kept <= scores
    ensures forall x :: x in scores && x > now - seconds ==> x in kept
    ensures forall x :: x in kept ==> x < 0 || x > now - seconds
  {
    set x | x in scores && !(0 <= x <= now - seconds)
  }

  /** One `is_rate_limited` check on a key's scores: whether it is limited, and the scores after it. */
  function Check(scores: set<int>, now: int, limiter: RateLimiter): (r: (bool, set<int>))
    ensures r.0 <==> |Window(scores, now, limiter.seconds)| > limiter.times
    ensures now in r.1 && r.1 - {now} <= scores
  {
    var kept := Window(scores, now, limiter.seconds);
    (|kept| > limiter.times, kept + {now})
  }

  /** `get_retry_after`. */
  function RetryAfter(limiter: RateLimiter): (seconds: int)
    ensures seconds == limiter.seconds
  {
    limiter.seconds
  }

  /** The Redis sorted sets, by key; a missing key is an empty set. */
  class Store {
    var sets: map<string, set<int>>

    constructor ()
      ensures sets == map[]
    {
      sets := map[];
    }

    function Scores(key: string): set<int>
      reads this
    {
      if key in sets then sets[key] else {}
    }

    /** The pipeline: remove old times, count, add `now`, set the expiry. */
    method IsRateLimited(limiter: RateLimiter, request: Request, now: int) returns (limited: bool)
      modifies this
      ensures var (refused, after) := Check(old(Scores(GetKey(limiter, request))), now, limiter);
        limited == refused && sets == old(sets)[GetKey(limiter, request) := after]
    {
      var key := GetKey(limiter, request);
      sets := sets[key := Window(Scores(key), now, limiter.seconds)];
      var requestCount := |sets[key]|;
      sets := sets[key := sets[key] + {now}];
      limited := requestCount > limiter.times;
    }

    /** `rate_limit_middleware`: with no limiter the default one applies; a limited request never reaches `call_next`. */
    method Middleware(request: Request, limiter: Option<RateLimiter>, now: int) returns (response: Response)
      modifies this
      ensures var l := if limiter.None? then DefaultLimiter else limiter.value;
        var (limited, after) := Check(old(Scores(GetKey(l, request))), now, l);
        sets == old(sets)[GetKey(l, request) := after] &&
        response == if limited then Refused(TooManyRequests, TooManyRequestsDetail, l.seconds) else Forwarded
    {
      var l := limiter;
      if l.None? {
        l := Some(DefaultLimiter);
      }
      var limited := IsRateLimited(l.value, request, now);
      if limited {
        return Refused(TooManyRequests, TooManyRequestsDetail, RetryAfter(l.value));
      }
      response := Forwarded;
    }
  }

  // ---------------------------------------------------------------- properties

  /** The key identifies the caller by the text before the first comma of `X-Forwarded-For`, untrimmed. */
  lemma ForwardedKey(limiter: RateLimiter, request: Request)
    requires !Truthy(request.userId) && Truthy(request.forwardedFor)
    ensures var f := request.forwardedFor.value;
      GetKey(limiter, request) == limiter.keyPrefix + ":" + (if ',' in f then f[..Text.IndexOf(f, ',')] else f)
    ensures ',' !in GetKey(limiter, request)[|limiter.keyPrefix| + 1..]
  {
    var key := GetKey(limiter, request);
    var id := Text.Split(request.forwardedFor.value, ',')[0];
    assert key[|limiter.keyPrefix| + 1..] == id;
  }

  /** Requests at a sequence of times, one after another against the same key. */
  function Replay(scores: set<int>, nows: seq<int>, limiter: RateLimiter): (outcomes: seq<bool>)
    ensures |outcomes| == |nows|
    decreases |nows|
  {
    if nows == [] then []
    else
      var (limited, after) := Check(scores, nows[0], limiter);
      [limited] + Replay(after, nows[1..], limiter)
  }

  /**
   * Inside one window every earlier request still counts: with `m` times already recorded,
   * the request at index `i` of a burst is refused exactly when `m + i` exceeds the limit.
   */
  lemma {:induction false} BurstOutcomes(scores: set<int>, nows: seq<int>, limiter: RateLimiter)
    requires forall i, j :: 0 <= i < j < |nows| ==> nows[i] < nows[j]
    requires forall i :: 0 <= i < |nows| ==> nows[i] - nows[0] < limiter.seconds
    requires forall x, i :: x in scores && 0 <= i < |nows| ==> x < nows[i] && nows[i] - x < limiter.seconds
    ensures forall i :: 0 <= i < |nows| ==> Replay(scores, nows, limiter)[i] == (|scores| + i > limiter.times)
    decreases |nows|
  {
    if nows != [] {
      var now := nows[0];
      assert Window(scores, now, limiter.seconds) == scores;
      var after := scores + {now};
      assert now !in scores;
      assert |after| == |scores| + 1;
      var rest := nows[1..];
      forall x, i | x in after && 0 <= i < |rest|
        ensures x < rest[i] && rest[i] - x < limiter.seconds
      {
        assert rest[i] == nows[i + 1];
      }
      BurstOutcomes(after, rest, limiter);
    }
  }

  /** Starting from a quiet key, the first `times + 1` requests within one window pass and every later one is refused. */
  lemma BurstAllowance(nows: seq<int>, limiter: RateLimiter)
    requires forall i, j :: 0 <= i < j < |nows| ==> nows[i] < nows[j]
    requires forall i :: 0 <= i < |nows| ==> nows[i] - nows[0] < limiter.seconds
    ensures forall i :: 0 <= i < |nows| ==> (Replay({}, nows, limiter)[i] <==> i > limiter.times)
  {
    BurstOutcomes({}, nows, limiter);
  }

  /** Times that have left the window no longer count, however many there were. */
  lemma OldRequestsForgotten(scores: set<int>, now: int, limiter: RateLimiter)
    requires forall x :: x in scores ==> 0 <= x <= now - limiter.seconds
    requires limiter.times >= 0
    ensures Check(scores, now, limiter) == (false, {now})
  {
    assert Window(scores, now, limiter.seconds) == {};
  }
}
