/**
  The Redis token bucket of shared/src/at_shared/redis.py and services/api-gateway/app/rate_limit.py.

  Lua numbers are modelled as reals. The key lives for 60 seconds after the last allowed
  request and then vanishes; a refused request rewrites it without touching its lifetime.
 */
module TokenBucket {
  import opened Wrappers

  const TTL: real := 60.0

  datatype Limit = Limit(capacity: nat, refill: real)

  /** The hash stored under the key, with the time at which Redis will drop it. */
  datatype Key = Absent | Stored(tokens: real, ts: real, expires: Option<real>)

  datatype Answer = Answer(allowed: bool, retry: int)

  function Min(x: real, y: real): real { if x <= y then x else y }

  function Ceil(x: real): int { -(-x).Floor }

  lemma CeilIsLeast(x: real)
    ensures Ceil(x) as real >= x && (Ceil(x) - 1) as real < x
  {
  }

  /** Tokens that flow in between two times. */
  function Inflow(l: Limit, from: real, to: real): real { (to - from) * l.refill }

  lemma InflowIs(l: Limit, from: real, to: real)
    ensures Inflow(l, from, to) == l.refill * (to - from)
  {
  }

  /** Tokens on hand at a time, before the request is served. */
  function Level(l: Limit, key: Key, now: real): real {
    match key
    case Absent => l.capacity as real
    case Stored(tokens, ts, _) => Min(l.capacity as real, tokens + Inflow(l, ts, now))
  }

  /** The script on a key Redis still has. */
  function Script(l: Limit, key: Key, now: real): (Answer, Key)
    requires l.refill > 0.0
  {
    var tokens := Level(l, key, now);
    if tokens >= 1.0 then (Answer(true, 0), Stored(tokens - 1.0, now, Some(now + TTL)))
    else (Answer(false, Ceil((1.0 - tokens) / l.refill)),
          Stored(tokens, now, if key.Stored? then key.expires else None))
  }

  function Expire(key: Key, now: real): Key {
    if key.Stored? && key.expires.Some? && now >= key.expires.value then Absent else key
  }

  /** One request against Redis: an expired key is gone before the script reads it. */
  function Serve(l: Limit, key: Key, now: real): (Answer, Key)
    requires l.refill > 0.0
  {
    Script(l, Expire(key, now), now)
  }

  function Answers(l: Limit, key: Key, times: seq<real>): (r: seq<Answer>)
    requires l.refill > 0.0
    ensures |r| == |times|
    decreases |times|
  {
    if times == [] then [] else [Serve(l, key, times[0]).0] + Answers(l, Serve(l, key, times[0]).1, times[1..])
  }

  /** The same requests if keys never expired. */
  function AnswersForever(l: Limit, key: Key, times: seq<real>): (r: seq<Answer>)
    requires l.refill > 0.0
    ensures |r| == |times|
    decreases |times|
  {
    if times == [] then [] else [Script(l, key, times[0]).0] + AnswersForever(l, Script(l, key, times[0]).1, times[1..])
  }

  predicate Ordered(times: seq<real>) { forall i, j | 0 <= i <= j < |times| :: times[i] <= times[j] }

  function Allowed(answers: seq<Answer>): nat {
    if answers == [] then 0 else (if answers[0].allowed then 1 else 0) + Allowed(answers[1..])
  }

  // ------------------------------------------------------------------ the script

  lemma CeilOfQuotient(missing: real, refill: real)
    requires refill > 0.0
    ensures var seconds := Ceil(missing / refill);
            refill * seconds as real >= missing > refill * (seconds - 1) as real
  {
    var exact := missing / refill;
    var seconds := Ceil(exact);
    var shorter := (seconds - 1) as real;
    assert refill * exact == missing;
    CeilIsLeast(exact);
    ProductFollows(refill, exact, seconds as real);
    ProductFollows(refill, shorter, exact);
    assert refill * shorter < missing;
  }

  lemma ProductFollows(r: real, x: real, y: real)
    requires r > 0.0 && x <= y
    ensures r * x <= r * y && (x < y ==> r * x < r * y)
  {
  }

  /**
    One request in full. A key that is gone counts as a full bucket; a request is allowed if there
    is a token, and then the key lives for another minute; a refused one is told the least number of
    whole seconds in which the missing tokens flow in.
   */
  lemma ServeInFull(l: Limit, key: Key, now: real)
    requires l.refill > 0.0
    ensures var (answer, key') := Serve(l, key, now);
            var live := key.Stored? && (key.expires.None? || now < key.expires.value);
            var tokens := if live then key.tokens + l.refill * (now - key.ts) else l.capacity as real;
            var level := if tokens < l.capacity as real then tokens else l.capacity as real;
            if level >= 1.0 then answer == Answer(true, 0) && key' == Stored(level - 1.0, now, Some(now + 60.0))
            else
              && !answer.allowed && key' == Stored(level, now, if live then key.expires else None)
              && l.refill * answer.retry as real >= 1.0 - level > l.refill * (answer.retry - 1) as real
  {
    hide Inflow, Ceil;
    var live := Expire(key, now);
    if live.Stored? {
      InflowIs(l, live.ts, now);
    }
    CeilOfQuotient(1.0 - Level(l, live, now), l.refill);
  }

  /** The key of one caller; `Redis` may be unreachable. */
  class RedisBucket {
    var key: Key

    constructor ()
      ensures key == Absent
    {
      key := Absent;
    }

    /** The Lua script, once the key has outlived its time or not. */
    method RunScript(capacity: nat, refill: real, now: real) returns (answer: Answer)
      requires refill > 0.0
      modifies this
      ensures (answer, key) == Serve(Limit(capacity, refill), old(key), now)
    {
      key := Expire(key, now);
      var tokens, ts := capacity as real, now;
      if key.Stored? {
        tokens, ts := key.tokens, key.ts;
      }
      assert key.Absent? ==> (now - ts) * refill == 0.0;
      tokens := Min(capacity as real, tokens + (now - ts) * refill);
      assert tokens == Level(Limit(capacity, refill), key, now);
      assert Serve(Limit(capacity, refill), old(key), now) == Script(Limit(capacity, refill), key, now);
      if tokens >= 1.0 {
        key := Stored(tokens - 1.0, now, Some(now + TTL));
        return Answer(true, 0);
      }
      key := Stored(tokens, now, if key.Stored? then key.expires else None);
      return Answer(false, Ceil((1.0 - tokens) / refill));
    }

    /** token_bucket_allowed. */
    method Take(capacity: nat, refill: real, now: real, reachable: bool) returns (allowed: bool, retry: int)
      requires refill > 0.0
      modifies this
      ensures if reachable
        then (Answer(allowed, retry), key) == Serve(Limit(capacity, refill), old(key), now)
        else !allowed && retry == -1 && key == old(key)
      ensures reachable ==>
        var live := old(key).Stored? && (old(key).expires.None? || now < old(key).expires.value);
        var tokens := if live then old(key).tokens + refill * (now - old(key).ts) else capacity as real;
        var level := if tokens < capacity as real then tokens else capacity as real;
        if level >= 1.0 then allowed && retry == 0 && key == Stored(level - 1.0, now, Some(now + 60.0))
        else
          && !allowed && key == Stored(level, now, if live then old(key).expires else None)
          && refill * retry as real >= 1.0 - level > refill * (retry - 1) as real
    {
      hide Serve;
      if !reachable {
        return false, -1;
      }
      ServeInFull(Limit(capacity, refill), key, now);
      var answer := RunScript(capacity, refill, now);
      return answer.allowed, answer.retry;
    }
  }

  // -------------------------------------------------------------- the rate bound

  function Max(x: real, y: real): real { if x >= y then x else y }

  /** What one request leaves behind for the next one. */
  lemma LevelAfter(l: Limit, key: Key, now: real, next: real)
    requires l.refill > 0.0 && now <= next
    ensures var (answer, key') := Script(l, key, now);
            && (answer.allowed <==> Level(l, key, now) >= 1.0)
            && Level(l, key', next) <= Level(l, key, now) - (if answer.allowed then 1.0 else 0.0) + Inflow(l, now, next)
  {
  }

  lemma InflowAddsUp(l: Limit, a: real, b: real, c: real)
    requires l.refill > 0.0 && a <= b <= c
    ensures Inflow(l, a, c) == Inflow(l, a, b) + Inflow(l, b, c)
    ensures Inflow(l, a, b) >= 0.0 && Inflow(l, b, c) >= 0.0
  {
  }

  /** Requests can spend what is on hand at the first of them and what flows in until the last. */
  lemma {:induction false} SpendsAtMostItsLevel(l: Limit, key: Key, times: seq<real>)
    requires l.refill > 0.0 && Ordered(times) && times != []
    ensures Allowed(AnswersForever(l, key, times)) as real
         <= Max(0.0, Level(l, key, times[0]) + Inflow(l, times[0], times[|times| - 1]))
    decreases |times|
  {
    hide Level, Script, Inflow;
    var (answer, key') := Script(l, key, times[0]);
    var rest := times[1..];
    var last := times[|times| - 1];
    assert AnswersForever(l, key, times) == [answer] + AnswersForever(l, key', rest);
    if rest == [] {
      LevelAfter(l, key, last, last);
      InflowAddsUp(l, last, last, last);
    } else {
      assert rest[0] == times[1] && rest[|rest| - 1] == last;
      LevelAfter(l, key, times[0], rest[0]);
      InflowAddsUp(l, times[0], rest[0], last);
      SpendsAtMostItsLevel(l, key', rest);
    }
  }

  // ------------------------------------------------------ what the lifetime changes

  /** A key that may expire, and one that does not, after the same requests. */
  predicate Alike(l: Limit, key: Key, forever: Key, now: real) {
    match key
    case Absent => forever.Absent? || forever.tokens + Inflow(l, forever.ts, now) >= l.capacity as real
    case Stored(tokens, ts, expires) =>
      && forever.Stored? && forever.tokens == tokens && forever.ts == ts
      && (expires.Some? ==> tokens + Inflow(l, ts, expires.value) >= l.capacity as real)
  }

  lemma InflowGrows(l: Limit, from: real, a: real, b: real)
    requires l.refill > 0.0 && a <= b
    ensures Inflow(l, from, b) == Inflow(l, from, a) + Inflow(l, a, b)
    ensures Inflow(l, a, b) >= 0.0
  {
    ProductGrows(l.refill, b - a);
  }

  lemma ProductGrows(r: real, span: real)
    requires r > 0.0 && span >= 0.0
    ensures span * r >= 0.0
  {
  }

  /** Both have the same tokens on hand: an expired key was full anyway. */
  lemma SameLevel(l: Limit, key: Key, forever: Key, before: real, now: real)
    requires l.refill > 0.0 && before <= now && Alike(l, key, forever, before)
    ensures Level(l, Expire(key, now), now) == Level(l, forever, now)
  {
    hide Inflow;
    if key.Absent? {
      if forever.Stored? {
        InflowGrows(l, forever.ts, before, now);
      }
    } else if Expire(key, now).Absent? {
      InflowGrows(l, key.ts, key.expires.value, now);
    }
  }

  /** An allowed request starts a life in which the bucket fills up. */
  lemma AlikeAfterAllowed(l: Limit, live: Key, forever: Key, now: real)
    requires l.refill > 0.0 && l.capacity as real <= TTL * l.refill
    requires Level(l, live, now) == Level(l, forever, now) >= 1.0
    ensures Alike(l, Script(l, live, now).1, Script(l, forever, now).1, now)
  {
    hide Inflow;
    FullLife(l, now);
  }

  /** A refused one leaves the life as it is, and loses nothing that would have flowed in. */
  lemma AlikeAfterRefused(l: Limit, live: Key, forever: Key, now: real)
    requires l.refill > 0.0 && Level(l, live, now) == Level(l, forever, now) < 1.0
    requires live.Stored? && live.expires.Some? ==>
               now < live.expires.value && live.tokens + Inflow(l, live.ts, live.expires.value) >= l.capacity as real
    ensures Alike(l, Script(l, live, now).1, Script(l, forever, now).1, now)
  {
    hide Inflow;
    if live.Stored? && live.expires.Some? {
      InflowGrows(l, live.ts, now, live.expires.value);
    }
  }

  /** A key that lives on is rewritten so that it is full again when it expires. */
  lemma AlikeAfter(l: Limit, live: Key, forever: Key, now: real)
    requires l.refill > 0.0 && l.capacity as real <= TTL * l.refill
    requires Level(l, live, now) == Level(l, forever, now)
    requires live.Stored? && live.expires.Some? ==>
               now < live.expires.value && live.tokens + Inflow(l, live.ts, live.expires.value) >= l.capacity as real
    ensures Alike(l, Script(l, live, now).1, Script(l, forever, now).1, now)
  {
    hide Inflow, Level, Alike, Script;
    if Level(l, live, now) >= 1.0 {
      AlikeAfterAllowed(l, live, forever, now);
    } else {
      AlikeAfterRefused(l, live, forever, now);
    }
  }

  lemma FullLife(l: Limit, now: real)
    ensures Inflow(l, now, now + TTL) == TTL * l.refill
  {
  }

  lemma NoInflow(l: Limit, now: real)
    ensures Inflow(l, now, now) == 0.0
  {
  }

  lemma OneRequestAlike(l: Limit, key: Key, forever: Key, before: real, now: real)
    requires l.refill > 0.0 && before <= now && l.capacity as real <= TTL * l.refill
    requires Alike(l, key, forever, before)
    ensures Serve(l, key, now).0 == Script(l, forever, now).0
    ensures Alike(l, Serve(l, key, now).1, Script(l, forever, now).1, now)
  {
    hide Level, Inflow;
    SameLevel(l, key, forever, before, now);
    AlikeAfter(l, Expire(key, now), forever, now);
  }

  lemma {:induction false} RequestsAlike(l: Limit, key: Key, forever: Key, before: real, times: seq<real>)
    requires l.refill > 0.0 && l.capacity as real <= TTL * l.refill
    requires Ordered(times) && (times != [] ==> before <= times[0])
    requires Alike(l, key, forever, before)
    ensures Answers(l, key, times) == AnswersForever(l, forever, times)
    decreases |times|
  {
    if times != [] {
      OneRequestAlike(l, key, forever, before, times[0]);
      RequestsAlike(l, Serve(l, key, times[0]).1, Script(l, forever, times[0]).1, times[0], times[1..]);
    }
  }

  /** A burst at one time is served as far as the tokens on hand reach. */
  lemma {:induction false} BurstIsServed(l: Limit, key: Key, t: real, n: nat)
    requires l.refill > 0.0 && Level(l, key, t) >= n as real && Expire(key, t) == key
    ensures Allowed(Answers(l, key, seq(n, _ => t))) == n
    ensures n > 0 ==> After(l, key, seq(n, _ => t)) == Stored(Level(l, key, t) - n as real, t, Some(t + TTL))
    ensures AnswersForever(l, key, seq(n, _ => t)) == Answers(l, key, seq(n, _ => t))
    ensures AfterForever(l, key, seq(n, _ => t)) == After(l, key, seq(n, _ => t))
    decreases n
  {
    if n > 0 {
      var key' := Serve(l, key, t).1;
      assert seq(n, _ => t)[1..] == seq(n - 1, _ => t);
      assert Level(l, key', t) == Level(l, key, t) - 1.0;
      BurstIsServed(l, key', t, n - 1);
    }
  }

  /** The key after a sequence of requests. */
  function After(l: Limit, key: Key, times: seq<real>): Key
    requires l.refill > 0.0
    decreases |times|
  {
    if times == [] then key else After(l, Serve(l, key, times[0]).1, times[1..])
  }

  function AfterForever(l: Limit, key: Key, times: seq<real>): Key
    requires l.refill > 0.0
    decreases |times|
  {
    if times == [] then key else AfterForever(l, Script(l, key, times[0]).1, times[1..])
  }

  lemma {:induction false} AnswersSplit(l: Limit, key: Key, a: seq<real>, b: seq<real>)
    requires l.refill > 0.0
    ensures Answers(l, key, a + b) == Answers(l, key, a) + Answers(l, After(l, key, a), b)
    ensures After(l, key, a + b) == After(l, After(l, key, a), b)
    decreases |a|
  {
    if a == [] {
      assert a + b == b;
    } else {
      assert (a + b)[1..] == a[1..] + b;
      AnswersSplit(l, Serve(l, key, a[0]).1, a[1..], b);
    }
  }

  lemma {:induction false} ForeverSplits(l: Limit, key: Key, a: seq<real>, b: seq<real>)
    requires l.refill > 0.0
    ensures AnswersForever(l, key, a + b) == AnswersForever(l, key, a) + AnswersForever(l, AfterForever(l, key, a), b)
    decreases |a|
  {
    if a == [] {
      assert a + b == b;
    } else {
      assert (a + b)[1..] == a[1..] + b;
      ForeverSplits(l, Script(l, key, a[0]).1, a[1..], b);
    }
  }

  lemma {:induction false} AllowedAddsUp(a: seq<Answer>, b: seq<Answer>)
    ensures Allowed(a + b) == Allowed(a) + Allowed(b)
  {
    if a == [] {
      assert a + b == b;
    } else {
      assert (a + b)[1..] == a[1..] + b;
      AllowedAddsUp(a[1..], b);
    }
  }

  // ---------------------------------------------------------------- main results

  ghost predicate ExpiryIsUnobservable(l: Limit)
    requires l.refill > 0.0
  {
    forall times | Ordered(times) :: Answers(l, Absent, times) == AnswersForever(l, Absent, times)
  }

  /** Drain the bucket, wait until the key is gone, drain it again. */
  function DrainTwice(l: Limit): seq<real> { seq(l.capacity, _ => 0.0) + seq(l.capacity, _ => TTL) }

  lemma DrainTwiceTellsThemApart(l: Limit)
    requires l.refill > 0.0 && l.capacity >= 1 && l.capacity as real > TTL * l.refill
    ensures Allowed(Answers(l, Absent, DrainTwice(l))) == 2 * l.capacity
    ensures Allowed(AnswersForever(l, Absent, DrainTwice(l))) < 2 * l.capacity
  {
    hide Inflow;
    NoInflow(l, 0.0);
    var first, second := seq(l.capacity, _ => 0.0), seq(l.capacity, _ => TTL);
    BurstIsServed(l, Absent, 0.0, l.capacity);
    BurstIsServed(l, Absent, TTL, l.capacity);
    var drained := After(l, Absent, first);
    assert drained == Stored(0.0, 0.0, Some(TTL));
    AnswersSplit(l, Absent, first, second);
    assert Serve(l, drained, TTL) == Serve(l, Absent, TTL);
    assert Answers(l, drained, second) == Answers(l, Absent, second);
    AllowedAddsUp(Answers(l, Absent, first), Answers(l, Absent, second));
    ForeverSplits(l, Absent, first, second);
    AllowedAddsUp(AnswersForever(l, Absent, first), AnswersForever(l, drained, second));
    SpendsAtMostItsLevel(l, drained, second);
    FullLife(l, 0.0);
    assert Level(l, drained, TTL) == TTL * l.refill;
    NoInflow(l, TTL);
  }

  /**
    The 60-second lifetime of the key never changes an answer exactly when a bucket refills
    within it.
   */
  lemma ExpiryCondition(l: Limit)
    requires l.refill > 0.0
    ensures ExpiryIsUnobservable(l) <==> l.capacity as real <= TTL * l.refill
  {
    if l.capacity as real <= TTL * l.refill {
      forall times | Ordered(times)
        ensures Answers(l, Absent, times) == AnswersForever(l, Absent, times)
      {
        RequestsAlike(l, Absent, Absent, if times == [] then 0.0 else times[0], times);
      }
    } else {
      DrainTwiceTellsThemApart(l);
      assert Ordered(DrainTwice(l));
    }
  }

  /** The limits in use: the API and login buckets of the gateway, the tool bucket of the MCP server. */
  lemma ProductionNeverNoticesExpiry()
    ensures ExpiryIsUnobservable(Limit(200, 10.0)) && ExpiryIsUnobservable(Limit(60, 1.0))
    ensures ExpiryIsUnobservable(Limit(60, 10.0))
  {
    ExpiryCondition(Limit(200, 10.0));
    ExpiryCondition(Limit(60, 1.0));
    ExpiryCondition(Limit(60, 10.0));
  }

  /** Requests i to j of the caller all fall between s and t. */
  predicate Within(times: seq<real>, i: nat, j: nat, s: real, t: real) {
    i <= j <= |times| && s <= t && forall x | i <= x < j :: s <= times[x] <= t
  }

  /** Over any stretch of any caller's requests, at most the capacity and what flows in meanwhile is let through. */
  ghost predicate RateHolds(l: Limit)
    requires l.refill > 0.0
  {
    forall times, i: nat, j: nat, s, t | Ordered(times) && Within(times, i, j, s, t) ::
      Allowed(Answers(l, Absent, times)[i..j]) as real <= l.capacity as real + l.refill * (t - s)
  }

  lemma BlockOfAnswers(l: Limit, times: seq<real>, i: nat, j: nat)
    requires l.refill > 0.0 && i <= j <= |times|
    ensures AnswersForever(l, Absent, times)[i..j] ==
            AnswersForever(l, AfterForever(l, Absent, times[..i]), times[i..j])
  {
    hide AnswersForever, AfterForever;
    var block := times[i..j];
    assert times == times[..i] + (block + times[j..]);
    ForeverSplits(l, Absent, times[..i], block + times[j..]);
    ForeverSplits(l, AfterForever(l, Absent, times[..i]), block, times[j..]);
  }

  lemma StretchIsBounded(l: Limit, times: seq<real>, i: nat, j: nat, s: real, t: real)
    requires l.refill > 0.0 && l.capacity as real <= TTL * l.refill
    requires Ordered(times) && Within(times, i, j, s, t)
    ensures Allowed(Answers(l, Absent, times)[i..j]) as real <= l.capacity as real + l.refill * (t - s)
  {
    hide Answers, AnswersForever, AfterForever, Allowed;
    RequestsAlike(l, Absent, Absent, if times == [] then 0.0 else times[0], times);
    BlockOfAnswers(l, times, i, j);
    BlockIsBounded(l, AfterForever(l, Absent, times[..i]), times[i..j], s, t);
  }

  lemma DrainTwiceBreaksTheRate(l: Limit)
    requires l.refill > 0.0 && l.capacity >= 1 && l.capacity as real > TTL * l.refill
    ensures !RateHolds(l)
  {
    hide Answers, Allowed;
    var times := DrainTwice(l);
    DrainTwiceTellsThemApart(l);
    assert Ordered(times) && Within(times, 0, |times|, 0.0, TTL);
    assert Answers(l, Absent, times)[0..|times|] == Answers(l, Absent, times);
    assert l.refill * (TTL - 0.0) == TTL * l.refill;
  }

  /** The rate bound holds exactly when a bucket refills within the lifetime of its key. */
  lemma RateIsBounded(l: Limit)
    requires l.refill > 0.0
    ensures RateHolds(l) <==> l.capacity as real <= TTL * l.refill
  {
    hide Answers, Allowed, Ordered;
    if l.capacity as real <= TTL * l.refill {
      forall times, i: nat, j: nat, s, t | Ordered(times) && Within(times, i, j, s, t)
        ensures Allowed(Answers(l, Absent, times)[i..j]) as real <= l.capacity as real + l.refill * (t - s)
      {
        StretchIsBounded(l, times, i, j, s, t);
      }
    } else {
      DrainTwiceBreaksTheRate(l);
    }
  }

  lemma LevelIsCapped(l: Limit, key: Key, now: real)
    ensures Level(l, key, now) <= l.capacity as real
  {
    hide Inflow;
  }

  lemma BlockIsBounded(l: Limit, key: Key, block: seq<real>, s: real, t: real)
    requires l.refill > 0.0 && Ordered(block) && s <= t
    requires forall x | 0 <= x < |block| :: s <= block[x] <= t
    ensures Allowed(AnswersForever(l, key, block)) as real <= l.capacity as real + l.refill * (t - s)
  {
    hide Inflow, AnswersForever, Level;
    InflowAddsUp(l, s, s, t);
    InflowIs(l, s, t);
    if block != [] {
      var first, last := block[0], block[|block| - 1];
      SpendsAtMostItsLevel(l, key, block);
      LevelIsCapped(l, key, first);
      assert first <= last;
      InflowAddsUp(l, s, first, last);
      InflowAddsUp(l, s, last, t);
    }
  }

  /**
    Retry-after is exact for a caller that was refused and sends nothing meanwhile: it is let
    through after that many seconds, or any more, and refused up to one second before.
   */
  ghost predicate RetryHolds(l: Limit)
    requires l.refill > 0.0
  {
    forall times, wait: real | RefusedLast(l, times) && wait >= 0.0 :: RetryIsExactFor(l, times, wait)
  }

  predicate RefusedLast(l: Limit, times: seq<real>)
    requires l.refill > 0.0
  {
    Ordered(times) && times != [] && !Answers(l, Absent, times)[|times| - 1].allowed
  }

  predicate RetryIsExactFor(l: Limit, times: seq<real>, wait: real)
    requires l.refill > 0.0 && times != []
  {
    var retry := Answers(l, Absent, times)[|times| - 1].retry;
    var again := Answers(l, Absent, times + [times[|times| - 1] + wait])[|times|].allowed;
    && retry >= 1
    && (wait >= retry as real ==> again)
    && (wait <= (retry - 1) as real ==> !again)
  }

  /** A stored key holds at least what has flowed in since the last allowed request, which set its lifetime. */
  predicate Refills(l: Limit, key: Key) {
    key.Stored? ==> key.expires.Some? && key.tokens >= Inflow(l, key.expires.value - TTL, key.ts)
  }

  lemma InflowChains(l: Limit, a: real, b: real, c: real)
    ensures Inflow(l, a, c) == Inflow(l, a, b) + Inflow(l, b, c)
  {
  }

  lemma ServeRefills(l: Limit, key: Key, now: real)
    requires l.refill > 0.0 && l.capacity >= 1 && Refills(l, key)
    ensures Refills(l, Serve(l, key, now).1)
  {
    hide Inflow;
    NoInflow(l, now);
    var live := Expire(key, now);
    if live.Stored? {
      InflowChains(l, live.expires.value - TTL, live.ts, now);
    }
  }

  lemma {:induction false} RequestsRefill(l: Limit, key: Key, times: seq<real>)
    requires l.refill > 0.0 && l.capacity >= 1 && Refills(l, key)
    ensures Refills(l, After(l, key, times))
    decreases |times|
  {
    hide Refills, Serve;
    if times != [] {
      ServeRefills(l, key, times[0]);
      RequestsRefill(l, Serve(l, key, times[0]).1, times[1..]);
    }
  }

  lemma AnswerMeans(l: Limit, key: Key, now: real)
    requires l.refill > 0.0
    ensures Serve(l, key, now).0.allowed <==> Level(l, Expire(key, now), now) >= 1.0
  {
  }

  /** The tokens a refused caller lacks flow in before its key expires, if one token flows in per lifetime. */
  lemma RefusedKeyOutlivesTheWait(l: Limit, key: Key, now: real)
    requires l.refill > 0.0 && l.capacity >= 1 && 1.0 <= TTL * l.refill
    requires Refills(l, key) && Level(l, Expire(key, now), now) < 1.0
    ensures var key' := Serve(l, key, now).1;
            && key'.Stored? && key'.ts == now && key'.expires.Some?
            && key'.tokens + Inflow(l, now, key'.expires.value) >= 1.0
  {
    hide Inflow;
    var live := Expire(key, now);
    var start := live.expires.value - TTL;
    FullLife(l, start);
    InflowChains(l, start, live.ts, now);
    InflowChains(l, start, now, live.expires.value);
  }

  lemma RefusedThenServed(l: Limit, key: Key, now: real, wait: real)
    requires l.refill > 0.0 && l.capacity >= 1 && 1.0 <= TTL * l.refill && wait >= 0.0
    requires Refills(l, key) && Level(l, Expire(key, now), now) < 1.0
    ensures var (answer, key') := Serve(l, key, now);
            var again := Serve(l, key', now + wait).0.allowed;
            && answer.retry >= 1
            && (wait >= answer.retry as real ==> again)
            && (wait <= (answer.retry - 1) as real ==> !again)
  {
    hide Inflow, Script;
    var (answer, key') := Serve(l, key, now);
    RefusedKeyOutlivesTheWait(l, key, now);
    RefusedThenWaits(l, Expire(key, now), now, wait);
    AnswerMeans(l, key', now + wait);
    if Expire(key', now + wait).Absent? {
      InflowGrows(l, now, key'.expires.value, now + wait);
    }
  }

  lemma LastTwoAnswers(l: Limit, before: seq<real>, now: real, later: real)
    requires l.refill > 0.0
    ensures var key := After(l, Absent, before);
            && Answers(l, Absent, before + [now])[|before|] == Serve(l, key, now).0
            && Answers(l, Absent, before + [now] + [later])[|before| + 1] == Serve(l, Serve(l, key, now).1, later).0
  {
    hide Serve, Answers, After;
    var key := After(l, Absent, before);
    AnswersSplit(l, Absent, before, [now]);
    AnswersSplit(l, Absent, before, [now, later]);
    assert before + [now] + [later] == before + [now, later];
    TwoRequests(l, key, now, later);
  }

  lemma TwoRequests(l: Limit, key: Key, now: real, later: real)
    requires l.refill > 0.0
    ensures Answers(l, key, [now]) == [Serve(l, key, now).0]
    ensures Answers(l, key, [now, later]) == [Serve(l, key, now).0, Serve(l, Serve(l, key, now).1, later).0]
  {
  }

  lemma RetryIsExactWhenOneTokenFlowsIn(l: Limit, times: seq<real>, wait: real)
    requires l.refill > 0.0 && l.capacity >= 1 && 1.0 <= TTL * l.refill
    requires RefusedLast(l, times) && wait >= 0.0
    ensures RetryIsExactFor(l, times, wait)
  {
    hide Level, Serve, Inflow, Answers, After, Ordered, Refills, Expire;
    var n := |times| - 1;
    var now := times[n];
    var key := After(l, Absent, times[..n]);
    assert times == times[..n] + [now];
    LastTwoAnswers(l, times[..n], now, now + wait);
    NothingRefills(l);
    RequestsRefill(l, Absent, times[..n]);
    AnswerMeans(l, key, now);
    RefusedThenServed(l, key, now, wait);
  }

  lemma NothingRefills(l: Limit)
    ensures Refills(l, Absent)
  {
  }

  /** Drain the bucket and ask once more. */
  function DrainAndAsk(l: Limit): seq<real> { seq(l.capacity, _ => 0.0) + [0.0] }

  /** The drained key is gone after a minute, although the answer said to wait longer. */
  lemma SlowBucketForgets(l: Limit)
    requires l.refill > 0.0 && l.capacity >= 1 && 1.0 > TTL * l.refill
    ensures RefusedLast(l, DrainAndAsk(l)) && !RetryIsExactFor(l, DrainAndAsk(l), TTL)
  {
    hide Answers, After, Inflow;
    var first := seq(l.capacity, _ => 0.0);
    NoInflow(l, 0.0);
    BurstIsServed(l, Absent, 0.0, l.capacity);
    LastTwoAnswers(l, first, 0.0, TTL);
    assert DrainAndAsk(l)[l.capacity] == 0.0;
    assert After(l, Absent, first) == Stored(0.0, 0.0, Some(TTL));
    LongWait(l.refill);
  }

  lemma LongWait(refill: real)
    requires refill > 0.0 && 1.0 > TTL * refill
    ensures Ceil(1.0 / refill) - 1 >= 60
  {
    var seconds := 1.0 / refill;
    assert seconds * refill == 1.0;
    Slower(seconds, refill);
    CeilIsLeast(seconds);
  }

  lemma Slower(seconds: real, refill: real)
    requires refill > 0.0 && seconds * refill > TTL * refill
    ensures seconds > TTL
  {
  }

  /** A bucket without capacity never fills, whatever it answers. */
  lemma EmptyBucketNeverServes(l: Limit)
    requires l.refill > 0.0 && l.capacity == 0
    ensures var wait := Max(0.0, Answers(l, Absent, [0.0])[0].retry as real);
            RefusedLast(l, [0.0]) && !RetryIsExactFor(l, [0.0], wait)
  {
    hide Inflow, Answers, After;
    var wait := Max(0.0, Answers(l, Absent, [0.0])[0].retry as real);
    LastTwoAnswers(l, [], 0.0, 0.0 + wait);
    assert [] + [0.0] == [0.0];
  }

  /**
    The retry time is exact over all histories exactly when the bucket holds a token at all and
    at least one flows in per key lifetime.
   */
  lemma RetryIsExact(l: Limit)
    requires l.refill > 0.0
    ensures RetryHolds(l) <==> l.capacity >= 1 && 1.0 <= TTL * l.refill
  {
    hide Answers, Ordered, RetryIsExactFor;
    if l.capacity == 0 {
      EmptyBucketNeverServes(l);
    } else if 1.0 <= TTL * l.refill {
      forall times, wait: real | RefusedLast(l, times) && wait >= 0.0
        ensures RetryIsExactFor(l, times, wait)
      {
        RetryIsExactWhenOneTokenFlowsIn(l, times, wait);
      }
    } else {
      SlowBucketForgets(l);
    }
  }

  lemma RefusedThenWaits(l: Limit, key: Key, now: real, wait: real)
    requires l.refill > 0.0 && 1 <= l.capacity && wait >= 0.0
    requires Level(l, key, now) < 1.0
    ensures var (answer, key') := Script(l, key, now);
            && answer.retry >= 1
            && (wait >= answer.retry as real ==> Level(l, key', now + wait) >= 1.0)
            && (wait <= (answer.retry - 1) as real ==> Level(l, key', now + wait) < 1.0)
  {
    hide Inflow;
    var missing := 1.0 - Level(l, key, now);
    var seconds := missing / l.refill;
    CeilIsLeast(seconds);
    InflowIs(l, now, now + wait);
    Waiting(l.refill, missing, wait);
  }

  lemma Waiting(refill: real, missing: real, wait: real)
    requires refill > 0.0 && missing > 0.0
    ensures missing / refill > 0.0
    ensures wait >= missing / refill <==> refill * wait >= missing
  {
  }
}
