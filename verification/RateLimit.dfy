/** The fixed-window limiter for Telegram commands. */
module RateLimit {

  datatype Command = StatusCommand | AccessResendCommand | SupportCommand

  datatype Rule = Rule(maxRequests: int, windowSeconds: real)

  datatype Key = Key(user: int, command: Command)

  /** Start of the current window and the calls it has let through. */
  datatype Window = Window(startedAt: real, count: int)

  function Decide(rule: Rule, w: Window, now: real): (bool, Window)
  {
    var w' := if now - w.startedAt >= rule.windowSeconds then Window(now, 0) else w;
    if w'.count >= rule.maxRequests then (false, w') else (true, Window(w'.startedAt, w'.count + 1))
  }

  function Current(state: map<Key, Window>, k: Key, now: real): Window
  {
    if k in state then state[k] else Window(now, 0)
  }

  class InMemoryTelegramCommandRateLimiter {
    const rules: map<Command, Rule>
    var state: map<Key, Window>

    constructor (statusRule: Rule, resendRule: Rule, supportRule: Rule)
      ensures rules == map[StatusCommand := statusRule, AccessResendCommand := resendRule, SupportCommand := supportRule]
      ensures state == map[]
    {
      rules := map[StatusCommand := statusRule, AccessResendCommand := resendRule, SupportCommand := supportRule];
      state := map[];
    }

    method Allow(user: int, command: Command, now: real) returns (allowed: bool)
      requires command in rules
      modifies this
      ensures (allowed, state) == Step(rules[command], old(state), Key(user, command), now)
    {
      var rule := rules[command];
      var key := Key(user, command);
      var startedAt, count := now, 0;
      if key in state {
        startedAt, count := state[key].startedAt, state[key].count;
      }
      if now - startedAt >= rule.windowSeconds {
        startedAt, count := now, 0;
      }
      if count >= rule.maxRequests {
        state := state[key := Window(startedAt, count)];
        return false;
      }
      state := state[key := Window(startedAt, count + 1)];
      allowed := true;
    }
  }

  function Step(rule: Rule, state: map<Key, Window>, k: Key, now: real): (bool, map<Key, Window>)
  {
    var d := Decide(rule, Current(state, k, now), now);
    (d.0, state[k := d.1])
  }

  // ---- Runs ----

  datatype Call = Call(key: Key, now: real)

  /** The decision for every call of a run. */
  function Decisions(rules: Command -> Rule, state: map<Key, Window>, calls: seq<Call>): seq<bool>
    decreases |calls|
  {
    if calls == [] then []
    else
      var d := Step(rules(calls[0].key.command), state, calls[0].key, calls[0].now);
      [d.0] + Decisions(rules, d.1, calls[1..])
  }

  /** A run as one key sees it: the times at which the key called, and those that were let through. */
  function TimesOf(calls: seq<Call>, k: Key): seq<real>
  {
    if calls == [] then [] else (if calls[0].key == k then [calls[0].now] else []) + TimesOf(calls[1..], k)
  }

  function AllowedTimes(calls: seq<Call>, decisions: seq<bool>, k: Key): seq<real>
    requires |calls| == |decisions|
    decreases |calls|
  {
    if calls == [] then []
    else (if calls[0].key == k && decisions[0] then [calls[0].now] else []) + AllowedTimes(calls[1..], decisions[1..], k)
  }

  /** A limiter that only ever sees one key: the times it lets through from window w (None: no entry). */
  function Alone(rule: Rule, w: seq<Window>, times: seq<real>): seq<real>
    requires |w| <= 1
    decreases |times|
  {
    if times == [] then []
    else
      var d := Decide(rule, if w == [] then Window(times[0], 0) else w[0], times[0]);
      (if d.0 then [times[0]] else []) + Alone(rule, [d.1], times[1..])
  }

  function Entry(state: map<Key, Window>, k: Key): (w: seq<Window>)
    ensures |w| <= 1
  {
    if k in state then [state[k]] else []
  }

  lemma {:induction false} DecisionsHaveLength(rules: Command -> Rule, state: map<Key, Window>, calls: seq<Call>)
    ensures |Decisions(rules, state, calls)| == |calls|
    decreases |calls|
  {
    if calls != [] {
      DecisionsHaveLength(rules, Step(rules(calls[0].key.command), state, calls[0].key, calls[0].now).1, calls[1..]);
    }
  }

  /** Keys do not interfere: a key is let through exactly when a limiter that sees only it would. */
  lemma {:induction false} KeysAreIndependent(rules: Command -> Rule, state: map<Key, Window>, calls: seq<Call>, k: Key)
    ensures |Decisions(rules, state, calls)| == |calls|
    ensures AllowedTimes(calls, Decisions(rules, state, calls), k)
         == Alone(rules(k.command), Entry(state, k), TimesOf(calls, k))
    decreases |calls|
  {
    DecisionsHaveLength(rules, state, calls);
    if calls != [] {
      var c := calls[0];
      var d := Step(rules(c.key.command), state, c.key, c.now);
      KeysAreIndependent(rules, d.1, calls[1..], k);
      var all := Decisions(rules, state, calls);
      assert all[0] == d.0 && all[1..] == Decisions(rules, d.1, calls[1..]);
      if c.key == k {
        var times := TimesOf(calls, k);
        assert times[0] == c.now && times[1..] == TimesOf(calls[1..], k);
        assert Entry(d.1, k) == [Decide(rules(k.command), Current(state, k, c.now), c.now).1];
        assert Alone(rules(k.command), Entry(state, k), times)
            == (if d.0 then [c.now] else []) + Alone(rules(k.command), Entry(d.1, k), times[1..]);
      } else {
        assert Entry(d.1, k) == Entry(state, k) && TimesOf(calls, k) == TimesOf(calls[1..], k);
      }
    }
  }

  // ---- The rate bound ----

  predicate Ascending(times: seq<real>)
  {
    |times| < 2 || (times[0] <= times[1] && Ascending(times[1..]))
  }

  predicate From(times: seq<real>, now: real)
  {
    times != [] ==> now <= times[0]
  }

  /** How many of the times lie in [a, b). */
  function CountIn(times: seq<real>, a: real, b: real): nat
  {
    if times == [] then 0 else (if a <= times[0] < b then 1 else 0) + CountIn(times[1..], a, b)
  }

  function Ceil(x: real): int
  {
    if x == x.Floor as real then x.Floor else x.Floor + 1
  }

  function Quota(rule: Rule): int
  {
    if rule.maxRequests < 0 then 0 else rule.maxRequests
  }

  lemma CountOfFirst(rule: Rule, w: Window, times: seq<real>, a: real, b: real)
    requires times != []
    ensures var d := Decide(rule, w, times[0]);
            CountIn(Alone(rule, [w], times), a, b)
            == (if d.0 && a <= times[0] < b then 1 else 0) + CountIn(Alone(rule, [d.1], times[1..]), a, b)
  {
    var d := Decide(rule, w, times[0]);
    assert Alone(rule, [w], times)[(if d.0 then 1 else 0)..] == Alone(rule, [d.1], times[1..]);
  }

  /** The length of n windows, and what they let through. */
  function Span(rule: Rule, n: nat): real
  {
    if n == 0 then 0.0 else rule.windowSeconds + Span(rule, n - 1)
  }

  function Total(rule: Rule, n: nat): nat
  {
    if n == 0 then 0 else Quota(rule) + Total(rule, n - 1)
  }

  lemma {:induction false} SpanAndTotal(rule: Rule, n: nat)
    ensures Span(rule, n) == n as real * rule.windowSeconds && Total(rule, n) == n * Quota(rule)
  {
    if n > 0 {
      SpanAndTotal(rule, n - 1);
      assert n as real * rule.windowSeconds == (n - 1) as real * rule.windowSeconds + rule.windowSeconds;
      assert n * Quota(rule) == (n - 1) * Quota(rule) + Quota(rule);
    }
  }

  lemma {:induction false} LaterWindowsAreBounded(rule: Rule, w: Window, times: seq<real>, a: real, b: real, n: nat)
    requires rule.windowSeconds > 0.0 && 0 <= w.count <= Quota(rule)
    requires Ascending(times) && From(times, w.startedAt)
    requires b <= w.startedAt + Span(rule, n) + rule.windowSeconds
    ensures CountIn(Alone(rule, [w], times), a, b) <= Quota(rule) - w.count + Total(rule, n)
    decreases |times|
  {
    if times != [] {
      var t := times[0];
      var d := Decide(rule, w, t);
      CountOfFirst(rule, w, times, a, b);
      if t - w.startedAt < rule.windowSeconds {
        LaterWindowsAreBounded(rule, d.1, times[1..], a, b, n);
      } else if n == 0 {
        NothingLater(rule, w, times, a, b);
      } else {
        LaterWindowsAreBounded(rule, d.1, times[1..], a, b, n - 1);
      }
    }
  }

  /** Window w can still let through Quota - count calls, later windows Quota each; n later windows
      start before b if n windows' length fit between the first possible start and b. */
  lemma AloneIsBounded(rule: Rule, w: Window, times: seq<real>, a: real, b: real, n: nat)
    requires rule.windowSeconds > 0.0 && 0 <= w.count <= Quota(rule)
    requires Ascending(times) && From(times, w.startedAt)
    requires b <= w.startedAt + n as real * rule.windowSeconds + rule.windowSeconds
    ensures CountIn(Alone(rule, [w], times), a, b) <= Quota(rule) - w.count + n * Quota(rule)
  {
    SpanAndTotal(rule, n);
    LaterWindowsAreBounded(rule, w, times, a, b, n);
  }

  /** Calls are let through at the times they are made, so none lies below the first time at or after b. */
  lemma {:induction false} NothingLater(rule: Rule, w: Window, times: seq<real>, a: real, b: real)
    requires Ascending(times) && From(times, b)
    ensures CountIn(Alone(rule, [w], times), a, b) == 0
    decreases |times|
  {
    if times != [] {
      var d := Decide(rule, w, times[0]);
      NothingLater(rule, d.1, times[1..], a, b);
      assert Alone(rule, [w], times)[(if d.0 then 1 else 0)..] == Alone(rule, [d.1], times[1..]);
    }
  }

  lemma CeilCovers(len: real, width: real)
    requires width > 0.0 && len >= 0.0
    ensures Ceil(len / width) >= 0 && len <= Ceil(len / width) as real * width
  {
    var q := len / width;
    assert q * width == len;
    assert q >= 0.0;
    assert q <= Ceil(q) as real;
  }

  /** The most calls any interval of this length can contain. */
  function Bound(rule: Rule, len: real): int
    requires rule.windowSeconds > 0.0
  {
    if Quota(rule) == 0 then 0 else Quota(rule) * (Ceil(len / rule.windowSeconds) + 1) - 1
  }

  /** From a window that starts at or after a, only ceil(len / width) windows can start before a + len. */
  lemma WindowInsideIsBounded(rule: Rule, w: Window, times: seq<real>, a: real, len: real)
    requires rule.windowSeconds > 0.0 && w.count == 0 && len >= 0.0 && a <= w.startedAt
    requires Ascending(times) && From(times, w.startedAt)
    ensures CountIn(Alone(rule, [w], times), a, a + len) <= Bound(rule, len)
  {
    var n, q := Ceil(len / rule.windowSeconds), Quota(rule);
    CeilCovers(len, rule.windowSeconds);
    if n == 0 {
      NothingLater(rule, w, times, a, a + len);
    } else {
      assert n as real * rule.windowSeconds == (n - 1) as real * rule.windowSeconds + rule.windowSeconds;
      AloneIsBounded(rule, w, times, a, a + len, n - 1);
      assert q * (n + 1) == q + q + (n - 1) * q;
      assert q == 0 ==> (n - 1) * q == 0;
    }
  }

  lemma {:induction false} AloneIsBoundedInInterval(rule: Rule, w: Window, times: seq<real>, a: real, len: real)
    requires rule.windowSeconds > 0.0 && 0 <= w.count <= Quota(rule) && len >= 0.0
    requires Ascending(times) && From(times, w.startedAt)
    requires w.count == 0 ==> Quota(rule) == 0 || (times != [] && times[0] == w.startedAt)
    ensures CountIn(Alone(rule, [w], times), a, a + len) <= Bound(rule, len)
    decreases |times|
  {
    var n, q := Ceil(len / rule.windowSeconds), Quota(rule);
    CeilCovers(len, rule.windowSeconds);
    assert q * (n + 1) == q + n * q && n * q >= 0;
    assert q == 0 ==> n * q == 0;
    if times != [] {
      var t := times[0];
      var d := Decide(rule, w, t);
      if t < a {
        AloneIsBoundedInInterval(rule, d.1, times[1..], a, len);
        assert Alone(rule, [w], times)[(if d.0 then 1 else 0)..] == Alone(rule, [d.1], times[1..]);
      } else if t - w.startedAt >= rule.windowSeconds || (w.count == 0 && t == w.startedAt) {
        assert Decide(rule, Window(t, 0), t) == d;
        assert Alone(rule, [w], times) == Alone(rule, [Window(t, 0)], times);
        WindowInsideIsBounded(rule, Window(t, 0), times, a, len);
      } else {
        assert len <= n as real * rule.windowSeconds;
        AloneIsBounded(rule, w, times, a, a + len, n);
      }
    }
  }

  predicate ClockMonotone(calls: seq<Call>)
  {
    forall i :: 0 <= i < |calls| - 1 ==> calls[i].now <= calls[i + 1].now
  }

  lemma {:induction false} TimesAscend(calls: seq<Call>, k: Key)
    requires ClockMonotone(calls)
    ensures Ascending(TimesOf(calls, k))
    ensures calls != [] ==> From(TimesOf(calls, k), calls[0].now)
  {
    if calls != [] {
      TimesAscend(calls[1..], k);
      if |calls| > 1 { assert calls[0].now <= calls[1].now; }
      var rest := TimesOf(calls[1..], k);
      assert From(rest, calls[0].now);
      AscendingCons(calls[0].now, rest);
      assert [] + rest == rest;
    }
  }

  /** Over any run with a non-decreasing clock, any interval [a, a + len) contains at most
      max_requests * (ceil(len / window) + 1) allowed calls of one key, whatever other keys do; in fact
      one fewer, because the call that opens a window begun before the interval lies outside it. */
  lemma RateBound(rules: Command -> Rule, calls: seq<Call>, k: Key, a: real, len: real)
    requires rules(k.command).windowSeconds > 0.0 && len >= 0.0 && ClockMonotone(calls)
    ensures |Decisions(rules, map[], calls)| == |calls|
    ensures CountIn(AllowedTimes(calls, Decisions(rules, map[], calls), k), a, a + len)
         <= Bound(rules(k.command), len)
         <= Quota(rules(k.command)) * (Ceil(len / rules(k.command).windowSeconds) + 1)
  {
    var rule, times := rules(k.command), TimesOf(calls, k);
    KeysAreIndependent(rules, map[], calls, k);
    TimesAscend(calls, k);
    CeilCovers(len, rule.windowSeconds);
    assert Quota(rule) * (Ceil(len / rule.windowSeconds) + 1) >= Quota(rule);
    if times != [] {
      assert Alone(rule, [], times) == Alone(rule, [Window(times[0], 0)], times);
      AloneIsBoundedInInterval(rule, Window(times[0], 0), times, a, len);
    }
  }

  // ---- The bound is tight ----

  function Repeat(t: real, n: nat): seq<real>
  {
    if n == 0 then [] else [t] + Repeat(t, n - 1)
  }

  /** A full quota at the start of each of n windows, the first of them at t. */
  function FullWindows(rule: Rule, t: real, n: nat): seq<real>
    decreases n
  {
    if n == 0 then [] else Repeat(t, Quota(rule)) + FullWindows(rule, t + rule.windowSeconds, n - 1)
  }

  /** The start of the last of n windows. */
  function LastStart(t: real, width: real, n: nat): real
    decreases n
  {
    if n <= 1 then t else LastStart(t + width, width, n - 1)
  }

  lemma {:induction false} RepeatPasses(rule: Rule, w: Window, t: real, n: nat, rest: seq<real>)
    requires t - w.startedAt < rule.windowSeconds && 0 <= w.count && w.count + n <= rule.maxRequests
    ensures Alone(rule, [w], Repeat(t, n) + rest) == Repeat(t, n) + Alone(rule, [Window(w.startedAt, w.count + n)], rest)
    decreases n
  {
    if n == 0 {
      assert Repeat(t, 0) + rest == rest;
    } else {
      var next := Window(w.startedAt, w.count + 1);
      RepeatPasses(rule, next, t, n - 1, rest);
      FirstPasses(rule, w, t, Repeat(t, n - 1) + rest);
      Regroup([t], Repeat(t, n - 1), rest);
      Regroup([t], Repeat(t, n - 1), Alone(rule, [Window(w.startedAt, w.count + n)], rest));
    }
  }

  lemma FirstPasses(rule: Rule, w: Window, t: real, times: seq<real>)
    requires t - w.startedAt < rule.windowSeconds && 0 <= w.count < rule.maxRequests
    ensures Alone(rule, [w], [t] + times) == [t] + Alone(rule, [Window(w.startedAt, w.count + 1)], times)
  {
    assert ([t] + times)[1..] == times;
  }

  lemma Regroup(a: seq<real>, b: seq<real>, c: seq<real>)
    ensures a + (b + c) == (a + b) + c
  {
  }

  lemma {:induction false} FullWindowsPass(rule: Rule, w: Window, t: real, n: nat)
    requires rule.windowSeconds > 0.0 && rule.maxRequests > 0
    requires t - w.startedAt >= rule.windowSeconds
    ensures Alone(rule, [w], FullWindows(rule, t, n)) == FullWindows(rule, t, n)
    decreases n
  {
    if n > 0 {
      var m := rule.maxRequests;
      var rest := FullWindows(rule, t + rule.windowSeconds, n - 1);
      var times := FullWindows(rule, t, n);
      assert times == Repeat(t, m) + rest && times[0] == t;
      assert Alone(rule, [w], times) == Alone(rule, [Window(t, 0)], times);
      RepeatPasses(rule, Window(t, 0), t, m, rest);
      FullWindowsPass(rule, Window(t, m), t + rule.windowSeconds, n - 1);
    }
  }

  lemma {:induction false} CountOfRepeat(t: real, n: nat, rest: seq<real>, a: real, b: real)
    requires a <= t < b
    ensures CountIn(Repeat(t, n) + rest, a, b) == n + CountIn(rest, a, b)
  {
    if n == 0 {
      assert Repeat(t, 0) + rest == rest;
    } else {
      assert (Repeat(t, n) + rest)[1..] == Repeat(t, n - 1) + rest;
      CountOfRepeat(t, n - 1, rest, a, b);
    }
  }

  lemma {:induction false} LastStartIs(t: real, width: real, n: nat)
    requires n > 0 && width > 0.0
    ensures LastStart(t, width, n) == t + (n - 1) as real * width >= t
    decreases n
  {
    if n > 1 {
      LastStartIs(t + width, width, n - 1);
      assert (n - 1) as real * width == (n - 2) as real * width + width;
    }
  }

  lemma {:induction false} CountOfFullWindows(rule: Rule, t: real, n: nat, a: real, b: real)
    requires rule.windowSeconds > 0.0 && a <= t
    requires n > 0 ==> LastStart(t, rule.windowSeconds, n) < b
    ensures CountIn(FullWindows(rule, t, n), a, b) == n * Quota(rule)
    decreases n
  {
    if n > 0 {
      var t' := t + rule.windowSeconds;
      LastStartIs(t, rule.windowSeconds, n);
      CountOfRepeat(t, Quota(rule), FullWindows(rule, t', n - 1), a, b);
      CountOfFullWindows(rule, t', n - 1, a, b);
      assert n * Quota(rule) == Quota(rule) + (n - 1) * Quota(rule);
    }
  }

  lemma AscendingCons(t: real, rest: seq<real>)
    requires Ascending(rest) && From(rest, t)
    ensures Ascending([t] + rest)
  {
    assert ([t] + rest)[1..] == rest;
  }

  lemma {:induction false} RepeatAscends(t: real, n: nat, rest: seq<real>)
    requires Ascending(rest) && From(rest, t)
    ensures Ascending(Repeat(t, n) + rest) && From(Repeat(t, n) + rest, t)
  {
    if n == 0 {
      assert Repeat(t, 0) + rest == rest;
    } else {
      RepeatAscends(t, n - 1, rest);
      AscendingCons(t, Repeat(t, n - 1) + rest);
      assert Repeat(t, n) + rest == [t] + (Repeat(t, n - 1) + rest);
    }
  }

  lemma {:induction false} FullWindowsAscend(rule: Rule, t: real, n: nat)
    requires rule.windowSeconds > 0.0
    ensures Ascending(FullWindows(rule, t, n)) && From(FullWindows(rule, t, n), t)
    decreases n
  {
    if n > 0 {
      var rest := FullWindows(rule, t + rule.windowSeconds, n - 1);
      FullWindowsAscend(rule, t + rule.windowSeconds, n - 1);
      assert From(rest, t);
      RepeatAscends(t, Quota(rule), rest);
      assert FullWindows(rule, t, n) == Repeat(t, Quota(rule)) + rest;
    }
  }

  /** One call opens a window; the rest of its quota comes at a, late in that window; n full windows follow. */
  function Tight(rule: Rule, a: real, n: nat): seq<real>
    requires rule.maxRequests > 0
  {
    [0.0] + (Repeat(a, rule.maxRequests - 1) + FullWindows(rule, rule.windowSeconds, n))
  }

  lemma TightPasses(rule: Rule, a: real, n: nat)
    requires rule.windowSeconds > 0.0 && rule.maxRequests > 0 && 0.0 < a < rule.windowSeconds
    ensures Alone(rule, [], Tight(rule, a, n)) == Tight(rule, a, n) && Ascending(Tight(rule, a, n))
  {
    var full, m := FullWindows(rule, rule.windowSeconds, n), rule.maxRequests;
    var rest := Repeat(a, m - 1) + full;
    assert Tight(rule, a, n)[1..] == rest;
    RepeatPasses(rule, Window(0.0, 1), a, m - 1, full);
    FullWindowsPass(rule, Window(0.0, m), rule.windowSeconds, n);
    FullWindowsAscend(rule, rule.windowSeconds, n);
    RepeatAscends(a, m - 1, full);
    AscendingCons(0.0, rest);
  }

  lemma TightCount(rule: Rule, a: real, n: nat, b: real)
    requires rule.windowSeconds > 0.0 && rule.maxRequests > 0 && 0.0 < a < rule.windowSeconds
    requires n > 0 && n as real * rule.windowSeconds < b
    ensures CountIn(Tight(rule, a, n), a, b) == rule.maxRequests * (n + 1) - 1
  {
    var full, m := FullWindows(rule, rule.windowSeconds, n), rule.maxRequests;
    assert Tight(rule, a, n)[1..] == Repeat(a, m - 1) + full;
    LastStartIs(rule.windowSeconds, rule.windowSeconds, n);
    assert n as real * rule.windowSeconds == rule.windowSeconds + (n - 1) as real * rule.windowSeconds;
    CountOfRepeat(a, m - 1, full, a, b);
    CountOfFullWindows(rule, rule.windowSeconds, n, a, b);
    assert m * (n + 1) == n * m + m;
  }

  function CallsAt(k: Key, times: seq<real>): seq<Call>
  {
    if times == [] then [] else [Call(k, times[0])] + CallsAt(k, times[1..])
  }

  lemma {:induction false} CallsAtAre(k: Key, times: seq<real>)
    ensures TimesOf(CallsAt(k, times), k) == times && |CallsAt(k, times)| == |times|
    ensures forall i :: 0 <= i < |times| ==> CallsAt(k, times)[i] == Call(k, times[i])
  {
    if times != [] {
      CallsAtAre(k, times[1..]);
      assert CallsAt(k, times)[1..] == CallsAt(k, times[1..]);
    }
  }

  lemma {:induction false} NeighboursAscend(times: seq<real>, i: nat)
    requires Ascending(times) && i + 1 < |times|
    ensures times[i] <= times[i + 1]
  {
    if i > 0 {
      NeighboursAscend(times[1..], i - 1);
    }
  }

  /** The opening of an interval of this length in which that many windows start. */
  lemma Opening(width: real, len: real) returns (a: real, n: nat)
    requires width > 0.0 && len > 0.0
    ensures n == Ceil(len / width) && n > 0 && 0.0 < a < width && n as real * width < a + len
  {
    n := Ceil(len / width);
    CeilIsClose(len, width);
    var gap := n as real * width - len;
    a := Between(if gap > 0.0 then gap else 0.0, width);
  }

  lemma CeilIsClose(len: real, width: real)
    requires width > 0.0 && len > 0.0
    ensures Ceil(len / width) > 0 && Ceil(len / width) as real * width < len + width
  {
    var q := len / width;
    assert q * width == len && q > 0.0;
    assert q.Floor as real <= q;
    FractionIsLess(Ceil(q) as real - q, width);
    DifferenceScales(Ceil(q) as real, q, width);
  }

  lemma FractionIsLess(x: real, width: real)
    requires x < 1.0 && width > 0.0
    ensures x * width < width
  {
    assert (1.0 - x) * width > 0.0;
  }

  lemma DifferenceScales(x: real, y: real, width: real)
    ensures (x - y) * width == x * width - y * width
  {
  }

  function Between(x: real, y: real): (z: real)
    requires x < y
    ensures x < z < y
  {
    (x + y) / 2.0
  }

  /** The bound is met: for every rule that lets anything through and every positive length there is a run
      of one key with an interval of that length that holds exactly the bound. */
  lemma BoundIsReached(rules: Command -> Rule, k: Key, len: real) returns (calls: seq<Call>, a: real)
    requires rules(k.command).windowSeconds > 0.0 && rules(k.command).maxRequests > 0 && len > 0.0
    ensures ClockMonotone(calls) && |Decisions(rules, map[], calls)| == |calls|
    ensures CountIn(AllowedTimes(calls, Decisions(rules, map[], calls), k), a, a + len) == Bound(rules(k.command), len)
  {
    var rule := rules(k.command);
    var n: nat;
    a, n := Opening(rule.windowSeconds, len);
    var times := Tight(rule, a, n);
    calls := CallsAt(k, times);
    CallsAtAre(k, times);
    TightPasses(rule, a, n);
    TightCount(rule, a, n, a + len);
    KeysAreIndependent(rules, map[], calls, k);
    forall i | 0 <= i < |calls| - 1 ensures calls[i].now <= calls[i + 1].now {
      NeighboursAscend(times, i);
    }
  }

  // ---- A quiet key is let through again ----

  function StateAfter(rules: Command -> Rule, state: map<Key, Window>, calls: seq<Call>): map<Key, Window>
    decreases |calls|
  {
    if calls == [] then state
    else StateAfter(rules, Step(rules(calls[0].key.command), state, calls[0].key, calls[0].now).1, calls[1..])
  }

  /** A call that is turned away inside its window changes nothing. */
  lemma TurnedAwayChangesNothing(rule: Rule, state: map<Key, Window>, k: Key, now: real)
    requires k in state && now - state[k].startedAt < rule.windowSeconds && !Step(rule, state, k, now).0
    ensures Step(rule, state, k, now).1 == state
  {
  }

  /** A call is turned away exactly when its key's window is still on and holds as many calls as allowed, or
      when none is allowed at all. */
  lemma TurnedAwayExactlyWhen(rule: Rule, state: map<Key, Window>, k: Key, now: real)
    ensures !Step(rule, state, k, now).0 <==>
            (rule.maxRequests <= 0 && (k in state && now - state[k].startedAt < rule.windowSeconds ==> state[k].count >= rule.maxRequests))
            || (k in state && now - state[k].startedAt < rule.windowSeconds && state[k].count >= rule.maxRequests)
  {
  }

  lemma {:induction false} LastDecision(rules: Command -> Rule, state: map<Key, Window>, calls: seq<Call>, c: Call)
    ensures Decisions(rules, state, calls + [c])
         == Decisions(rules, state, calls) + [Step(rules(c.key.command), StateAfter(rules, state, calls), c.key, c.now).0]
    decreases |calls|
  {
    if calls == [] {
      assert calls + [c] == [c] && [c][1..] == [];
      assert Decisions(rules, state, [c]) == [Step(rules(c.key.command), state, c.key, c.now).0] + [];
    } else {
      var d := Step(rules(calls[0].key.command), state, calls[0].key, calls[0].now);
      assert (calls + [c])[1..] == calls[1..] + [c];
      LastDecision(rules, d.1, calls[1..], c);
    }
  }

  /** Every window starts with a call that was let through. */
  lemma {:induction false} WindowsStartWithALetThroughCall(rules: Command -> Rule, state: map<Key, Window>, calls: seq<Call>, k: Key)
    requires rules(k.command).maxRequests > 0
    ensures var s := StateAfter(rules, state, calls);
            var d := Decisions(rules, state, calls);
            |d| == |calls|
            && (k in s ==> (k in state && s[k].startedAt == state[k].startedAt) || s[k].startedAt in AllowedTimes(calls, d, k))
    decreases |calls|
  {
    DecisionsHaveLength(rules, state, calls);
    if calls != [] {
      var c := calls[0];
      var d := Step(rules(c.key.command), state, c.key, c.now);
      WindowsStartWithALetThroughCall(rules, d.1, calls[1..], k);
      var all := Decisions(rules, state, calls);
      assert all[0] == d.0 && all[1..] == Decisions(rules, d.1, calls[1..]);
    }
  }

  /** Over any run of any keys with any clock: a call none of whose key's let-through calls lies within the last
      window is let through, however many calls were turned away. */
  lemma QuietKeyIsLetThrough(rules: Command -> Rule, calls: seq<Call>, k: Key, now: real)
    requires rules(k.command).maxRequests > 0 && |Decisions(rules, map[], calls)| == |calls|
    requires forall t <- AllowedTimes(calls, Decisions(rules, map[], calls), k) :: now - t >= rules(k.command).windowSeconds
    ensures Decisions(rules, map[], calls + [Call(k, now)]) == Decisions(rules, map[], calls) + [true]
  {
    LastDecision(rules, map[], calls, Call(k, now));
    WindowsStartWithALetThroughCall(rules, map[], calls, k);
  }
}
