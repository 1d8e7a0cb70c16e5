/**
 * The in-memory fixed-window rate limiter (backend/app/services/ratelimit.py).
 *
 * Counters map a (user, key) pair to (count, window start).  The clock
 * (`time.time()`) is the parameter `now`, and the three limits, which the
 * settings object supplies, are the parameter `limits`.
 */
module RateLimit {
  import opened Wrappers
  import opened Strings

  type Counter = (int, real)
  type Counters = map<(string, string), Counter>

  datatype Limits = Limits(resumePerDay: int, renderPerHour: int, ingestPerDay: int)

  const Day := 86400
  const Hour := 3600

  /** The `defaultdict` read: a missing pair reads as (0, 0.0). */
  function Stored(counters: Counters, k: (string, string)): Counter {
    if k in counters then counters[k] else (0, 0.0)
  }

  /** The counter after the window check: a fresh window starting now once the old one has run out. */
  function Windowed(c: Counter, window: int, now: real): (r: Counter)
    ensures r == c || r == (0, now)
  {
    if now - c.1 >= window as real then (0, now) else c
  }

  /** One `_consume` on one counter: whether it is accepted, and the counter stored afterwards. */
  function Step(c: Counter, limit: int, window: int, now: real): (r: (bool, Counter))
    ensures r.0 <==> Windowed(c, window, now).0 < limit
    ensures !r.0 ==> r.1 == c
    ensures r.0 ==> r.1 == (Windowed(c, window, now).0 + 1, Windowed(c, window, now).1)
  {
    var w := Windowed(c, window, now);
    if w.0 >= limit then (false, c) else (true, (w.0 + 1, w.1))
  }

  function LimitMessage(key: string, limit: int, window: int): string {
    "rate limit exceeded for " + key + " (" + IntToString(limit) + "/" + IntToString(window) + "s)"
  }

  /** `_consume` on the whole table: the outcome, and the table afterwards. */
  function Consumed(counters: Counters, user: string, key: string, limit: int, window: int, now: real): (Outcome<string>, Counters) {
    var k := (user, key);
    var s := Step(Stored(counters, k), limit, window, now);
    (if s.0 then Pass else Fail(LimitMessage(key, limit, window)), counters[k := s.1])
  }

  /** A user id is present when it is neither None nor empty. */
  predicate HasUser(userId: Option<string>) {
    userId.Some? && userId.value != []
  }

  /** `check`: the outcome (an exception is `Fail`), and the table afterwards. */
  function Checked(counters: Counters, path: string, userId: Option<string>, now: real, limits: Limits): (Outcome<string>, Counters) {
    if !HasUser(userId) then (Pass, counters)
    else
      var user := userId.value;
      if "/resume/generate" <= path then
        var first := Consumed(counters, user, "resume_day", limits.resumePerDay, Day, now);
        if first.0.Fail? then first
        else Consumed(first.1, user, "render_hour", limits.renderPerHour, Hour, now)
      else if "/profile/ingest" <= path then
        Consumed(counters, user, "ingest_day", limits.ingestPerDay, Day, now)
      else
        (Pass, counters)
  }

  class RateLimiter {
    var counters: Counters

    constructor ()
      ensures counters == map[]
    {
      counters := map[];
    }

    method Consume(user: string, key: string, limit: int, window: int, now: real) returns (outcome: Outcome<string>)
      modifies this
      ensures (outcome, counters) == Consumed(old(counters), user, key, limit, window, now)
    {
      var k := (user, key);
      if k !in counters {
        counters := counters[k := (0, 0.0)];
      }
      var count := counters[k].0;
      var start := counters[k].1;
      if now - start >= window as real {
        count, start := 0, now;
      }
      assert counters == old(counters)[k := Stored(old(counters), k)];
      assert (count, start) == Windowed(Stored(old(counters), k), window, now);
      if count >= limit {
        return Fail(LimitMessage(key, limit, window));
      }
      counters := counters[k := (count + 1, start)];
      assert counters == old(counters)[k := (count + 1, start)];
      outcome := Pass;
    }

    method Check(path: string, userId: Option<string>, now: real, limits: Limits) returns (outcome: Outcome<string>)
      modifies this
      ensures (outcome, counters) == Checked(old(counters), path, userId, now, limits)
    {
      if !HasUser(userId) {
        return Pass;
      }
      var user := userId.value;
      if "/resume/generate" <= path {
        outcome := Consume(user, "resume_day", limits.resumePerDay, Day, now);
        if outcome.Fail? {
          return;
        }
        outcome := Consume(user, "render_hour", limits.renderPerHour, Hour, now);
      } else if "/profile/ingest" <= path {
        outcome := Consume(user, "ingest_day", limits.ingestPerDay, Day, now);
      } else {
        // "/runs/" and every other path consume nothing
        outcome := Pass;
      }
    }
  }

  // ---------------------------------------------------------------- properties

  /** Without a user id nothing is consumed and nothing is raised. */
  lemma {:induction false} CheckWithoutUser(counters: Counters, path: string, userId: Option<string>, now: real, limits: Limits)
    requires !HasUser(userId)
    ensures Checked(counters, path, userId, now, limits) == (Pass, counters)
  {
  }

  /** Paths other than the two limited prefixes consume nothing. */
  lemma {:induction false} CheckOtherPaths(counters: Counters, path: string, userId: Option<string>, now: real, limits: Limits)
    requires !("/resume/generate" <= path) && !("/profile/ingest" <= path)
    ensures Checked(counters, path, userId, now, limits) == (Pass, counters)
  {
  }

  /**
   * `_consume` changes one pair's counter and no other: on rejection the
   * read value of that pair is unchanged too, and on acceptance it becomes
   * (count + 1, start) of the windowed counter.
   */
  lemma {:induction false} ConsumeEffect(counters: Counters, user: string, key: string, limit: int, window: int, now: real)
    ensures var r := Consumed(counters, user, key, limit, window, now);
      var w := Windowed(Stored(counters, (user, key)), window, now);
      && (forall k :: k != (user, key) ==> Stored(r.1, k) == Stored(counters, k))
      && (r.0.Fail? <==> w.0 >= limit)
      && (r.0.Fail? ==> Stored(r.1, (user, key)) == Stored(counters, (user, key)))
      && (r.0.Pass? ==> Stored(r.1, (user, key)) == (w.0 + 1, w.1))
  {
  }

  /** Once the window has run out the counter restarts at (0, now) before the limit check. */
  lemma {:induction false} ConsumeAfterWindow(c: Counter, limit: int, window: int, now: real)
    requires now - c.1 >= window as real
    ensures Step(c, limit, window, now) == if limit > 0 then (true, (1, now)) else (false, c)
  {
  }

  /** `/profile/ingest` touches only the pair's ingest_day counter. */
  lemma {:induction false} CheckIngestKeys(counters: Counters, path: string, user: string, now: real, limits: Limits)
    requires user != [] && "/profile/ingest" <= path && !("/resume/generate" <= path)
    ensures var r := Checked(counters, path, Some(user), now, limits);
      && r == Consumed(counters, user, "ingest_day", limits.ingestPerDay, Day, now)
      && forall k :: k != (user, "ingest_day") ==> Stored(r.1, k) == Stored(counters, k)
  {
    ConsumeEffect(counters, user, "ingest_day", limits.ingestPerDay, Day, now);
  }

  /**
   * `/resume/generate` charges resume_day first; a render_hour rejection
   * therefore leaves resume_day charged, and only those two counters move.
   */
  lemma {:induction false} CheckGenerateOrder(counters: Counters, path: string, user: string, now: real, limits: Limits)
    requires user != [] && "/resume/generate" <= path
    ensures var r := Checked(counters, path, Some(user), now, limits);
      var first := Consumed(counters, user, "resume_day", limits.resumePerDay, Day, now);
      && (first.0.Fail? ==> r == first)
      && (first.0.Pass? ==> r == Consumed(first.1, user, "render_hour", limits.renderPerHour, Hour, now))
      && (first.0.Pass? ==> Stored(r.1, (user, "resume_day")) == Stored(first.1, (user, "resume_day")))
      && forall k :: k != (user, "resume_day") && k != (user, "render_hour") ==> Stored(r.1, k) == Stored(counters, k)
  {
    var first := Consumed(counters, user, "resume_day", limits.resumePerDay, Day, now);
    ConsumeEffect(counters, user, "resume_day", limits.resumePerDay, Day, now);
    ConsumeEffect(first.1, user, "render_hour", limits.renderPerHour, Hour, now);
    assert "resume_day"[0] != "render_hour"[1];
  }

  /** How many of the consumes at the given times succeed on one counter. */
  function Accepted(c: Counter, times: seq<real>, limit: int, window: int): nat
    decreases |times|
  {
    if times == [] then 0
    else
      var s := Step(c, limit, window, times[0]);
      (if s.0 then 1 else 0) + Accepted(s.1, times[1..], limit, window)
  }

  /**
   * Within one window (no call reaches `start + window`), at most
   * `limit - count` consumes succeed; from a fresh window, at most `limit`.
   */
  lemma {:induction false} AcceptedWithinWindow(c: Counter, times: seq<real>, limit: int, window: int)
    requires forall i :: 0 <= i < |times| ==> times[i] - c.1 < window as real
    ensures Accepted(c, times, limit, window) <= if limit - c.0 > 0 then limit - c.0 else 0
    decreases |times|
  {
    if times != [] {
      var s := Step(c, limit, window, times[0]);
      assert Windowed(c, window, times[0]) == c;
      assert s.1.1 == c.1;
      assert forall i :: 0 <= i < |times[1..]| ==> times[1..][i] - s.1.1 < window as real by {
        forall i | 0 <= i < |times[1..]|
          ensures times[1..][i] - s.1.1 < window as real
        {
          assert times[1..][i] == times[i + 1];
        }
      }
      AcceptedWithinWindow(s.1, times[1..], limit, window);
    }
  }

  /** A table's counter for one pair evolves by `Step`, whatever else is consumed for other pairs. */
  lemma {:induction false} ConsumedStep(counters: Counters, user: string, key: string, limit: int, window: int, now: real)
    ensures var r := Consumed(counters, user, key, limit, window, now);
      var s := Step(Stored(counters, (user, key)), limit, window, now);
      Stored(r.1, (user, key)) == s.1 && (r.0.Pass? <==> s.0)
  {
  }
}
