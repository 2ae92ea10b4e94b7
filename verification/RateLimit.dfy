/** Fixed-window counters: expiring hit counts, and the limit on them. Times are whole seconds of one clock. */
module RateLimit {
  import opened JsMath

  type Positive = n: int | n >= 1 witness 1

  /** A Redis counter with its expiry: gone from `until` on. */
  datatype Counter = Counter(hits: Positive, until: int)

  /** INCR, then EXPIRE only when the key has no expiry yet. */
  function Hit(c: Option<Counter>, windowS: int, now: int): Counter
  {
    if c.Some? && now < c.value.until then Counter(c.value.hits + 1, c.value.until) else Counter(1, now + windowS)
  }

  function Lookup(m: map<string, Counter>, key: string): Option<Counter> {
    if key in m then Some(m[key]) else None
  }

  datatype Verdict = Passed | TooMany(retryAfterS: int)

  class RateLimiter {
    var counters: map<string, Counter>

    constructor ()
      ensures counters == map[]
    {
      counters := map[];
    }

    method CountHit(key: string, windowS: int, now: int) returns (hits: Positive, resetInS: int)
      requires windowS > 0
      modifies this
      ensures var c := Hit(Lookup(old(counters), "rl:" + key), windowS, now);
              counters == old(counters)["rl:" + key := c] && hits == c.hits && resetInS == c.until - now
      ensures resetInS > 0
    {
      var k := "rl:" + key;
      if k in counters && counters[k].until <= now { counters := counters - {k}; }
      hits := if k in counters then counters[k].hits + 1 else 1;
      var until := if k in counters then counters[k].until else now + windowS;
      counters := counters[k := Counter(hits, until)];
      resetInS := if until - now > 0 then until - now else windowS;
    }

    /** Refused exactly when the window has already seen `limit` hits. */
    method Limit(key: string, limit: int, windowS: int, now: int) returns (v: Verdict)
      requires windowS > 0
      modifies this
      ensures counters == old(counters)["rl:" + key := Hit(Lookup(old(counters), "rl:" + key), windowS, now)]
      ensures v == if Hit(Lookup(old(counters), "rl:" + key), windowS, now).hits <= limit then Passed
                   else TooMany(Hit(Lookup(old(counters), "rl:" + key), windowS, now).until - now)
    {
      var hits, resetInS := CountHit(key, windowS, now);
      v := if hits > limit then TooMany(resetInS) else Passed;
    }
  }

  // ------------------------------------------------------------------------------------ bounds over a run of calls

  ghost predicate InOrder(times: seq<int>) {
    forall i, j | 0 <= i < j < |times| :: times[i] <= times[j]
  }

  /** The counter after a run of hits. */
  function HitAll(c: Option<Counter>, times: seq<int>, windowS: int): Option<Counter> {
    if times == [] then c else Some(Hit(HitAll(c, times[..|times| - 1], windowS), windowS, times[|times| - 1]))
  }

  /**
   * A window runs `windowS` seconds from its first hit, however many follow: within it the counter holds their number
   * and keeps that end, and the first hit from its end on opens the next.
   */
  lemma {:induction false} WindowRunsFromFirstHit(first: int, times: seq<int>, windowS: int, next: int)
    requires windowS > 0 && forall i | 0 <= i < |times| :: first <= times[i] < first + windowS
    ensures HitAll(None, [first] + times, windowS) == Some(Counter(1 + |times|, first + windowS))
    ensures next >= first + windowS ==> HitAll(None, [first] + times + [next], windowS) == Some(Counter(1, next + windowS))
  {
    var all := [first] + times;
    if times == [] {
      assert all == [first] && all[..0] == [];
    } else {
      var init := times[..|times| - 1];
      assert all[..|all| - 1] == [first] + init;
      WindowRunsFromFirstHit(first, init, windowS, next);
    }
    assert (all + [next])[..|all|] == all;
  }

  /** How many of the calls made in [a, a + windowS) pass. */
  function PassesIn(c: Option<Counter>, times: seq<int>, limit: int, windowS: int, a: int): nat
    decreases |times|
  {
    if times == [] then 0
    else
      var c' := Hit(c, windowS, times[0]);
      (if a <= times[0] < a + windowS && c'.hits <= limit then 1 else 0) + PassesIn(Some(c'), times[1..], limit, windowS, a)
  }

  /** What may still pass before `a + windowS`: the rest of the running window, and one more if that ends in time. */
  function Room(c: Option<Counter>, limit: int, windowS: int, a: int): int {
    if c.None? then MaxI(0, limit)
    else MaxI(0, limit - c.value.hits) + (if c.value.until < a + windowS then MaxI(0, limit) else 0)
  }

  lemma {:induction false} NothingAfter(c: Option<Counter>, times: seq<int>, limit: int, windowS: int, a: int)
    requires forall i | 0 <= i < |times| :: times[i] >= a + windowS
    ensures PassesIn(c, times, limit, windowS, a) == 0
    decreases |times|
  {
    if times != [] { NothingAfter(Some(Hit(c, windowS, times[0])), times[1..], limit, windowS, a); }
  }

  lemma {:induction false} PassesFitRoom(c: Option<Counter>, times: seq<int>, limit: int, windowS: int, a: int)
    requires InOrder(times) && windowS > 0 && forall i | 0 <= i < |times| :: times[i] >= a
    ensures PassesIn(c, times, limit, windowS, a) <= Room(c, limit, windowS, a)
    decreases |times|
  {
    if times != [] {
      if times[0] >= a + windowS {
        NothingAfter(c, times, limit, windowS, a);
      } else {
        PassesFitRoom(Some(Hit(c, windowS, times[0])), times[1..], limit, windowS, a);
      }
    }
  }

  /** At most twice the limit, less one, passes in any half-open interval as long as the window. */
  lemma {:induction false} AtMostTwiceLessOne(c: Option<Counter>, times: seq<int>, limit: int, windowS: int, a: int)
    requires InOrder(times) && windowS > 0 && limit >= 1
    ensures PassesIn(c, times, limit, windowS, a) <= 2 * limit - 1
    decreases |times|
  {
    if times != [] {
      if times[0] >= a {
        PassesFitRoom(c, times, limit, windowS, a);
      } else {
        AtMostTwiceLessOne(Some(Hit(c, windowS, times[0])), times[1..], limit, windowS, a);
      }
    }
  }

  function Repeat(t: int, n: nat): seq<int> { seq(n, _ => t) }

  lemma {:induction false} RepeatPasses(hits: Positive, until: int, t: int, n: nat, rest: seq<int>, limit: int, windowS: int, a: int)
    requires a <= t < a + windowS && t < until && hits + n <= limit
    ensures PassesIn(Some(Counter(hits, until)), Repeat(t, n) + rest, limit, windowS, a) ==
            n + PassesIn(Some(Counter(hits + n, until)), rest, limit, windowS, a)
    decreases n
  {
    if n == 0 {
      assert Repeat(t, 0) + rest == rest;
    } else {
      var times := Repeat(t, n) + rest;
      assert times[1..] == Repeat(t, n - 1) + rest;
      RepeatPasses(hits + 1, until, t, n - 1, rest, limit, windowS, a);
    }
  }

  /** And that many do pass: one call opens the window, the rest crowd around its end. */
  lemma TwiceLessOneIsReached(s: int, limit: int, windowS: int)
    requires limit >= 1 && windowS >= 2
    ensures var times := [s] + (Repeat(s + windowS - 1, limit - 1) + ([s + windowS] + Repeat(s + windowS, limit - 1)));
            InOrder(times) && PassesIn(None, times, limit, windowS, s + 1) == 2 * limit - 1
  {
    var a, end := s + 1, s + windowS;
    var tail := [end] + Repeat(end, limit - 1);
    FirstCall(None, s, Repeat(end - 1, limit - 1) + tail, limit, windowS, a);
    RepeatPasses(1, end, end - 1, limit - 1, tail, limit, windowS, a);
    NextWindowPasses(end, limit, windowS, a);
  }

  /** A full window that ends at `end`, and `limit` calls right then. */
  lemma NextWindowPasses(end: int, limit: int, windowS: int, a: int)
    requires limit >= 1 && windowS >= 2 && a <= end < a + windowS
    ensures PassesIn(Some(Counter(limit, end)), [end] + Repeat(end, limit - 1), limit, windowS, a) == limit
  {
    FirstCall(Some(Counter(limit, end)), end, Repeat(end, limit - 1), limit, windowS, a);
    assert Repeat(end, limit - 1) == Repeat(end, limit - 1) + [];
    RepeatPasses(1, end + windowS, end, limit - 1, [], limit, windowS, a);
  }

  lemma FirstCall(c: Option<Counter>, t: int, rest: seq<int>, limit: int, windowS: int, a: int)
    ensures var c' := Hit(c, windowS, t);
            PassesIn(c, [t] + rest, limit, windowS, a) ==
            (if a <= t < a + windowS && c'.hits <= limit then 1 else 0) + PassesIn(Some(c'), rest, limit, windowS, a)
  {
    assert ([t] + rest)[1..] == rest;
  }

  /** Within one window exactly the first `limit` calls pass. */
  lemma {:induction false} FirstLimitPass(hits: Positive, until: int, times: seq<int>, limit: nat, windowS: int, a: int)
    requires forall i | 0 <= i < |times| :: a <= times[i] < a + windowS && times[i] < until
    ensures PassesIn(Some(Counter(hits, until)), times, limit, windowS, a) == MinI(|times|, MaxI(0, limit - hits))
    decreases |times|
  {
    if times != [] { FirstLimitPass(hits + 1, until, times[1..], limit, windowS, a); }
  }
}
