/** Fixed-window counters kept in a table that prunes itself (src/core/rate-limit.ts). */
module RateLimit {

  datatype Rule = Rule(limit: nat, windowSeconds: nat)

  /** Primary key of `rate_limits`. */
  datatype Slot = Slot(key: string, windowStart: int)

  datatype Verdict = Verdict(allowed: bool, remaining: nat, retryAfterSeconds: int)

  const PRUNE_AGE_MS := 86_400_000

  function WindowMs(rule: Rule): nat {
    rule.windowSeconds * 1000
  }

  /** `Math.floor(now / windowMs) * windowMs`. */
  function WindowStart(rule: Rule, now: int): int
    requires rule.windowSeconds > 0
  {
    now / WindowMs(rule) * WindowMs(rule)
  }

  /** `Math.ceil(ms / 1000)`. */
  function CeilSeconds(ms: int): int {
    -((-ms) / 1000)
  }

  function CountAt(counters: map<Slot, nat>, slot: Slot): nat {
    if slot in counters then counters[slot] else 0
  }

  function Increment(counters: map<Slot, nat>, slot: Slot): map<Slot, nat> {
    counters[slot := CountAt(counters, slot) + 1]
  }

  function Prune(counters: map<Slot, nat>, now: int): map<Slot, nat> {
    map s | s in counters && s.windowStart >= now - PRUNE_AGE_MS :: counters[s]
  }

  /** The table after one call. */
  function Consumed(counters: map<Slot, nat>, key: string, rule: Rule, now: int): map<Slot, nat>
    requires rule.windowSeconds > 0
  {
    Prune(Increment(counters, Slot(key, WindowStart(rule, now))), now)
  }

  class Limiter {
    var counters: map<Slot, nat>

    constructor ()
      ensures counters == map[]
    {
      counters := map[];
    }

    /** consumeRateLimit: count this call, drop windows older than a day, judge by the count. */
    method Consume(key: string, rule: Rule, now: int) returns (v: Verdict)
      requires rule.windowSeconds > 0
      modifies this
      ensures counters == Consumed(old(counters), key, rule, now)
      ensures var count := CountAt(old(counters), Slot(key, WindowStart(rule, now))) + 1;
              (v.allowed <==> count <= rule.limit)
              && v.remaining == (if count < rule.limit then rule.limit - count else 0)
      ensures 1 <= v.retryAfterSeconds <= rule.windowSeconds
      ensures WindowStart(rule, now + v.retryAfterSeconds * 1000) > WindowStart(rule, now)
      ensures WindowStart(rule, now + (v.retryAfterSeconds - 1) * 1000) == WindowStart(rule, now)
    {
      var windowMs := WindowMs(rule);
      var windowStart := WindowStart(rule, now);
      var slot := Slot(key, windowStart);
      counters := Increment(counters, slot);
      var count := counters[slot];
      var wait := CeilSeconds(windowStart + windowMs - now);
      WaitReachesNextWindow(rule, now);
      counters := Prune(counters, now);
      v := Verdict(count <= rule.limit, if rule.limit > count then rule.limit - count else 0,
                   if wait > 1 then wait else 1);
    }
  }

  // ---- window arithmetic ------------------------------------------------------------------------

  lemma WindowBounds(rule: Rule, now: int)
    requires rule.windowSeconds > 0
    ensures WindowStart(rule, now) <= now < WindowStart(rule, now) + WindowMs(rule)
  {
    var w := WindowMs(rule);
    assert now == now / w * w + now % w;
  }

  /** A time inside a window has that window's start. */
  lemma WindowIsAligned(rule: Rule, k: int, now: int)
    requires rule.windowSeconds > 0
    requires k * WindowMs(rule) <= now < k * WindowMs(rule) + WindowMs(rule)
    ensures WindowStart(rule, now) == k * WindowMs(rule)
  {
    var w := WindowMs(rule);
    WindowBounds(rule, now);
    var q := now / w;
    if q < k {
      MulStep(q, k, w);
    } else if q > k {
      MulStep(k, q, w);
    }
    assert q == k;
  }

  lemma MulStep(a: int, b: int, w: int)
    requires a < b && w > 0
    ensures a * w + w <= b * w
  {
    assert (b - a - 1) * w >= 0;
    assert b * w == a * w + w + (b - a - 1) * w;
  }

  /** The advised wait is at least a second, at most a window, ends in a later window, and is not a second too long. */
  lemma WaitReachesNextWindow(rule: Rule, now: int)
    requires rule.windowSeconds > 0
    ensures var wait := CeilSeconds(WindowStart(rule, now) + WindowMs(rule) - now);
            && 1 <= wait <= rule.windowSeconds
            && WindowStart(rule, now + wait * 1000) > WindowStart(rule, now)
            && WindowStart(rule, now + (wait - 1) * 1000) == WindowStart(rule, now)
  {
    var start, w := WindowStart(rule, now), WindowMs(rule);
    WindowBounds(rule, now);
    var wait := CeilSeconds(start + w - now);
    assert start + w - now <= wait * 1000 < start + w - now + 1000;
    WindowBounds(rule, now + wait * 1000);
    WindowIsAligned(rule, now / w, now + (wait - 1) * 1000);
  }

  /**
   * What one call does to the table, row by row: its own window's counter goes up by one, rows whose window began
   * more than a day ago go, and nothing else changes.
   */
  lemma CallCountsAndPrunes(counters: map<Slot, nat>, key: string, rule: Rule, now: int, s: Slot)
    requires rule.windowSeconds > 0
    ensures var after := Consumed(counters, key, rule, now);
            var length := rule.windowSeconds * 1000;
            var own := s.key == key && s.windowStart <= now < s.windowStart + length && s.windowStart % length == 0;
            && (s in after <==> (s in counters || own) && now <= s.windowStart + 86_400_000)
            && (s in after ==> after[s] == (if s in counters then counters[s] else 0) + (if own then 1 else 0))
  {
    OwnWindow(rule, now, s.windowStart);
    hide WindowStart;
  }

  lemma OwnWindow(rule: Rule, now: int, start: int)
    requires rule.windowSeconds > 0
    ensures start == WindowStart(rule, now) <==>
            start <= now < start + rule.windowSeconds * 1000 && start % (rule.windowSeconds * 1000) == 0
  {
    WindowBounds(rule, now);
    var w := WindowMs(rule);
    if start % w == 0 && start <= now < start + w {
      Multiples(start, w);
      WindowIsAligned(rule, start / w, now);
    }
    MultipleHasNoRest(now / w, w);
  }

  lemma Multiples(n: int, w: nat)
    requires w > 0 && n % w == 0
    ensures n / w * w == n
  {
  }

  lemma MultipleHasNoRest(k: int, w: nat)
    requires w > 0
    ensures k * w % w == 0
  {
    var q := k * w / w;
    if q < k {
      MulStep(q, k, w);
    } else if k < q {
      MulStep(k, q, w);
    }
  }

  // ---- runs -------------------------------------------------------------------------------------

  datatype Request = Request(key: string, now: int)

  /** Every key is always used with its own rule, and the clock never goes back. */
  predicate IsHistory(rs: seq<Request>, rules: map<string, Rule>) {
    && (forall i :: 0 <= i < |rs| ==> rs[i].key in rules && rules[rs[i].key].windowSeconds > 0)
    && (forall i, j :: 0 <= i <= j < |rs| ==> rs[i].now <= rs[j].now)
  }

  /** No window is longer than the age at which rows are pruned. */
  predicate ShortWindows(rules: map<string, Rule>) {
    forall k :: k in rules ==> WindowMs(rules[k]) <= PRUNE_AGE_MS
  }

  /** The table after the first `n` requests. */
  function TableAfter(rs: seq<Request>, rules: map<string, Rule>, n: nat): map<Slot, nat>
    requires IsHistory(rs, rules) && n <= |rs|
  {
    if n == 0 then map[]
    else
      var r := rs[n - 1];
      Consumed(TableAfter(rs, rules, n - 1), r.key, rules[r.key], r.now)
  }

  function StartOf(rs: seq<Request>, rules: map<string, Rule>, i: nat): int
    requires IsHistory(rs, rules) && i < |rs|
  {
    WindowStart(rules[rs[i].key], rs[i].now)
  }

  /** How many of the first `n` requests use `key` in the window that starts at `start`. */
  function Calls(rs: seq<Request>, rules: map<string, Rule>, n: nat, key: string, start: int): nat
    requires IsHistory(rs, rules) && n <= |rs|
  {
    if n == 0 then 0
    else
      Calls(rs, rules, n - 1, key, start)
      + (if rs[n - 1].key == key && StartOf(rs, rules, n - 1) == start then 1 else 0)
  }

  /** What the limiter answers request `i`. */
  predicate Allowed(rs: seq<Request>, rules: map<string, Rule>, i: nat)
    requires IsHistory(rs, rules) && i < |rs|
  {
    var key := rs[i].key;
    CountAt(TableAfter(rs, rules, i), Slot(key, StartOf(rs, rules, i))) + 1 <= rules[key].limit
  }

  function AllowedIn(rs: seq<Request>, rules: map<string, Rule>, n: nat, key: string, start: int): nat
    requires IsHistory(rs, rules) && n <= |rs|
  {
    if n == 0 then 0
    else
      AllowedIn(rs, rules, n - 1, key, start)
      + (if rs[n - 1].key == key && StartOf(rs, rules, n - 1) == start && Allowed(rs, rules, n - 1) then 1 else 0)
  }

  function AllowedBetween(rs: seq<Request>, rules: map<string, Rule>, n: nat, key: string, from: int, to: int): nat
    requires IsHistory(rs, rules) && n <= |rs|
  {
    if n == 0 then 0
    else
      AllowedBetween(rs, rules, n - 1, key, from, to)
      + (if rs[n - 1].key == key && from <= rs[n - 1].now < to && Allowed(rs, rules, n - 1) then 1 else 0)
  }

  /** While a window can still receive calls its counter is exactly the number of calls it received. */
  lemma {:induction false} LiveCounterIsExact(rs: seq<Request>, rules: map<string, Rule>, n: nat, key: string,
                                              start: int, now: int)
    requires IsHistory(rs, rules) && ShortWindows(rules) && n <= |rs|
    requires key in rules && rules[key].windowSeconds > 0 && start <= now < start + WindowMs(rules[key])
    requires forall i :: 0 <= i < n ==> rs[i].now <= now
    ensures CountAt(TableAfter(rs, rules, n), Slot(key, start)) == Calls(rs, rules, n, key, start)
  {
    if n > 0 {
      LiveCounterIsExact(rs, rules, n - 1, key, start, now);
      assert rs[n - 1].now <= now;
    }
  }

  lemma AllowedByCalls(rs: seq<Request>, rules: map<string, Rule>, i: nat)
    requires IsHistory(rs, rules) && ShortWindows(rules) && i < |rs|
    ensures Allowed(rs, rules, i) <==> Calls(rs, rules, i, rs[i].key, StartOf(rs, rules, i)) < rules[rs[i].key].limit
  {
    WindowBounds(rules[rs[i].key], rs[i].now);
    LiveCounterIsExact(rs, rules, i, rs[i].key, StartOf(rs, rules, i), rs[i].now);
  }

  /** Each key gets exactly min(limit, calls) through in every aligned window. */
  lemma {:induction false} WindowAllowsUpToLimit(rs: seq<Request>, rules: map<string, Rule>, n: nat, key: string,
                                                 start: int)
    requires IsHistory(rs, rules) && ShortWindows(rules) && n <= |rs| && key in rules
    ensures AllowedIn(rs, rules, n, key, start) ==
            if Calls(rs, rules, n, key, start) < rules[key].limit then Calls(rs, rules, n, key, start)
            else rules[key].limit
  {
    if n > 0 {
      WindowAllowsUpToLimit(rs, rules, n - 1, key, start);
      AllowedByCalls(rs, rules, n - 1);
    }
  }

  lemma {:induction false} SpanMeetsTwoWindows(rs: seq<Request>, rules: map<string, Rule>, n: nat, key: string,
                                               from: int)
    requires IsHistory(rs, rules) && n <= |rs| && key in rules && rules[key].windowSeconds > 0
    ensures var w, first := WindowMs(rules[key]), WindowStart(rules[key], from);
            AllowedBetween(rs, rules, n, key, from, from + w)
            <= AllowedIn(rs, rules, n, key, first) + AllowedIn(rs, rules, n, key, first + w)
  {
    if n > 0 {
      SpanMeetsTwoWindows(rs, rules, n - 1, key, from);
      var rule, now := rules[key], rs[n - 1].now;
      var w := WindowMs(rule);
      if rs[n - 1].key == key && from <= now < from + w {
        WindowBounds(rule, from);
        var k := from / w;
        assert k * w + w == (k + 1) * w;
        if now < k * w + w {
          WindowIsAligned(rule, k, now);
        } else {
          WindowIsAligned(rule, k + 1, now);
        }
      }
    }
  }

  /** In any span as long as one window, aligned or not, a key gets at most twice its limit through. */
  lemma SpanAllowsTwiceTheLimit(rs: seq<Request>, rules: map<string, Rule>, n: nat, key: string, from: int)
    requires IsHistory(rs, rules) && ShortWindows(rules) && n <= |rs| && key in rules && rules[key].windowSeconds > 0
    ensures AllowedBetween(rs, rules, n, key, from, from + WindowMs(rules[key])) <= 2 * rules[key].limit
  {
    var w, first := WindowMs(rules[key]), WindowStart(rules[key], from);
    SpanMeetsTwoWindows(rs, rules, n, key, from);
    WindowAllowsUpToLimit(rs, rules, n, key, first);
    WindowAllowsUpToLimit(rs, rules, n, key, first + w);
  }

  /** Pruning can hit the window a call is in exactly when windows are longer than a day. */
  lemma PruningIsSafeUpToADay(rule: Rule)
    requires rule.windowSeconds > 0
    ensures (forall now: int :: WindowStart(rule, now) >= now - PRUNE_AGE_MS) <==> WindowMs(rule) <= PRUNE_AGE_MS
  {
    var w := WindowMs(rule);
    if w <= PRUNE_AGE_MS {
      forall now: int ensures WindowStart(rule, now) >= now - PRUNE_AGE_MS {
        WindowBounds(rule, now);
      }
    } else {
      WindowIsAligned(rule, 0, w - 1);
      assert WindowStart(rule, w - 1) < w - 1 - PRUNE_AGE_MS;
    }
  }
}
