/** The bounded LRU+TTL guard against redelivered Telegram updates. */
module UpdateDedup {

  datatype Key = Key(namespace: string, bucket: string, updateId: int)

  /** An OrderedDict item; the time is the one of insertion, move_to_end does not refresh it. */
  datatype Entry = Entry(key: Key, seenAt: real)

  datatype Config = Config(ttl: real, maxEntries: nat)

  function DropExpired(s: seq<Entry>, threshold: real): seq<Entry>
  {
    if s == [] || s[0].seenAt > threshold then s else DropExpired(s[1..], threshold)
  }

  function Surviving(s: seq<Entry>, cfg: Config, now: real): seq<Entry>
  {
    if cfg.ttl <= 0.0 then [] else DropExpired(s, now - cfg.ttl)
  }

  function DropOverflow(s: seq<Entry>, max: nat): seq<Entry>
  {
    if |s| > max then s[|s| - max..] else s
  }

  function IndexOf(s: seq<Entry>, k: Key): (i: nat)
    ensures i <= |s| && (i < |s| ==> s[i].key == k) && forall j :: 0 <= j < i ==> s[j].key != k
  {
    if s == [] || s[0].key == k then 0 else 1 + IndexOf(s[1..], k)
  }

  predicate Has(s: seq<Entry>, k: Key)
  {
    exists i :: 0 <= i < |s| && s[i].key == k
  }

  /** One call: whether the key is first seen, and the items left. */
  function Mark(cfg: Config, s: seq<Entry>, now: real, k: Key): (bool, seq<Entry>)
  {
    var live := Surviving(s, cfg, now);
    if Has(live, k) then
      var i := IndexOf(live, k);
      (false, if i < |live| then live[..i] + live[i + 1..] + [live[i]] else live)
    else (true, DropOverflow(live + [Entry(k, now)], cfg.maxEntries))
  }

  class InMemoryTelegramUpdateDedupGuard {
    const cfg: Config
    var seen: seq<Entry>

    constructor (cfg: Config)
      ensures this.cfg == cfg && seen == []
    {
      this.cfg, seen := cfg, [];
    }

    method EvictExpired(now: real)
      modifies this
      ensures seen == Surviving(old(seen), cfg, now)
    {
      if cfg.ttl <= 0.0 {
        seen := [];
        return;
      }
      var threshold := now - cfg.ttl;
      while seen != []
        invariant DropExpired(seen, threshold) == DropExpired(old(seen), threshold)
        decreases |seen|
      {
        if seen[0].seenAt > threshold { break; }
        seen := seen[1..];
      }
    }

    method EvictOverflow()
      modifies this
      ensures seen == DropOverflow(old(seen), cfg.maxEntries)
    {
      while |seen| > cfg.maxEntries
        invariant |seen| <= |old(seen)| && seen == old(seen)[|old(seen)| - |seen|..]
        invariant |old(seen)| <= cfg.maxEntries ==> seen == old(seen)
        invariant |old(seen)| >= cfg.maxEntries ==> |seen| >= cfg.maxEntries
        decreases |seen|
      {
        seen := seen[1..];
      }
    }

    method MarkIfFirstSeen(now: real, k: Key) returns (first: bool)
      modifies this
      ensures (first, seen) == Mark(cfg, old(seen), now, k)
    {
      EvictExpired(now);
      var i := IndexOf(seen, k);
      if i < |seen| {
        seen := seen[..i] + seen[i + 1..] + [seen[i]];
        return false;
      }
      seen := seen + [Entry(k, now)];
      EvictOverflow();
      first := true;
    }
  }

  // ---- Histories ----

  datatype Call = Call(now: real, key: Key)

  function After(cfg: Config, h: seq<Call>): seq<Entry>
  {
    if h == [] then []
    else Mark(cfg, After(cfg, h[..|h| - 1]), h[|h| - 1].now, h[|h| - 1].key).1
  }

  /** Call number i was told first-seen. */
  predicate Accepted(cfg: Config, h: seq<Call>, i: nat)
    requires i < |h|
  {
    Mark(cfg, After(cfg, h[..i]), h[i].now, h[i].key).0
  }

  /** The clock never steps back. */
  predicate Monotone(h: seq<Call>)
  {
    |h| < 2 || (h[|h| - 2].now <= h[|h| - 1].now && Monotone(h[..|h| - 1]))
  }

  lemma {:induction false} ClockIsMonotone(h: seq<Call>, i: nat)
    requires Monotone(h) && i < |h|
    ensures h[i].now <= h[|h| - 1].now
  {
    if i < |h| - 1 {
      ClockIsMonotone(h[..|h| - 1], i);
    }
  }

  /** The distinct other keys marked since the last call for k (all of them if there was none). */
  function OthersSince(h: seq<Call>, k: Key): set<Key>
  {
    if h == [] || h[|h| - 1].key == k then {}
    else OthersSince(h[..|h| - 1], k) + {h[|h| - 1].key}
  }

  /** What the items say about the history: distinct keys in last-touch order, each with the time of
      an acceptance no later touch refreshed. */
  ghost predicate Ordered(s: seq<Entry>, h: seq<Call>)
  {
    && (forall p, q :: 0 <= p < q < |s| ==> s[p].key != s[q].key)
    && (forall p, q :: 0 <= p < q < |s| ==> s[q].key in OthersSince(h, s[p].key))
    && (forall p :: 0 <= p < |s| ==> Touched(h, s[p].key) && s[p].seenAt <= LastTouch(h, s[p].key))
  }

  predicate Touched(h: seq<Call>, k: Key)
  {
    exists i :: 0 <= i < |h| && h[i].key == k
  }

  function LastTouch(h: seq<Call>, k: Key): real
    requires Touched(h, k)
  {
    if h[|h| - 1].key == k then h[|h| - 1].now
    else
      assert Touched(h[..|h| - 1], k) by {
        var i :| 0 <= i < |h| && h[i].key == k;
        assert h[..|h| - 1][i].key == k;
      }
      LastTouch(h[..|h| - 1], k)
  }

  /** Keys known to still be held: accepted at or after `since`, with few enough others marked since. */
  ghost predicate Held(s: seq<Entry>, k: Key, since: real)
  {
    exists p :: 0 <= p < |s| && s[p].key == k && s[p].seenAt >= since
  }

  lemma {:induction false} DropExpiredIsSuffix(s: seq<Entry>, threshold: real)
    ensures var d := DropExpired(s, threshold);
            |d| <= |s| && d == s[|s| - |d|..]
            && (d != [] ==> d[0].seenAt > threshold)
            && forall p :: 0 <= p < |s| - |d| ==> s[p].seenAt <= threshold
  {
    if s != [] && s[0].seenAt <= threshold {
      DropExpiredIsSuffix(s[1..], threshold);
    }
  }

  lemma SuffixIsOrdered(s: seq<Entry>, h: seq<Call>, n: nat)
    requires Ordered(s, h) && n <= |s|
    ensures Ordered(s[n..], h)
  {
  }

  lemma {:induction false} OrderedLater(s: seq<Entry>, h: seq<Call>, c: Call)
    requires Ordered(s, h) && Monotone(h + [c]) && !Has(s, c.key)
    ensures Ordered(s + [Entry(c.key, c.now)], h + [c])
  {
    OrderedPush(s, h, c, c.now);
  }

  lemma OrderedPush(s: seq<Entry>, h: seq<Call>, c: Call, at: real)
    requires Ordered(s, h) && Monotone(h + [c]) && !Has(s, c.key) && at <= c.now
    ensures Ordered(s + [Entry(c.key, at)], h + [c])
  {
    var h' := h + [c];
    assert h'[..|h'| - 1] == h && h'[|h|] == c;
    assert h'[|h|].key == c.key;
    forall p | 0 <= p < |s|
      ensures s[p].key != c.key && OthersSince(h', s[p].key) == OthersSince(h, s[p].key) + {c.key}
      ensures Touched(h', s[p].key) && LastTouch(h', s[p].key) == LastTouch(h, s[p].key)
    {
      assert Touched(h, s[p].key);
      AnotherTouch(h, c, s[p].key);
    }
  }

  lemma AnotherTouch(h: seq<Call>, c: Call, k: Key)
    requires Touched(h, k) && k != c.key
    ensures OthersSince(h + [c], k) == OthersSince(h, k) + {c.key}
    ensures Touched(h + [c], k) && LastTouch(h + [c], k) == LastTouch(h, k)
  {
    assert (h + [c])[..|h|] == h;
    var i :| 0 <= i < |h| && h[i].key == k;
    assert (h + [c])[i].key == k;
  }

  lemma SurvivingIsOrdered(cfg: Config, s: seq<Entry>, h: seq<Call>, now: real)
    requires Ordered(s, h)
    ensures Ordered(Surviving(s, cfg, now), h)
  {
    DropExpiredIsSuffix(s, now - cfg.ttl);
    if cfg.ttl > 0.0 {
      SuffixIsOrdered(s, h, |s| - |Surviving(s, cfg, now)|);
    }
  }

  function Without(s: seq<Entry>, i: nat): seq<Entry>
    requires i < |s|
  {
    s[..i] + s[i + 1..]
  }

  lemma WithoutIsOrdered(s: seq<Entry>, h: seq<Call>, i: nat)
    requires Ordered(s, h) && i < |s|
    ensures Ordered(Without(s, i), h) && !Has(Without(s, i), s[i].key)
  {
  }

  /** Size, distinctness and order survive every call. */
  lemma MarkKeepsOrder(cfg: Config, s: seq<Entry>, h: seq<Call>, c: Call)
    requires Ordered(s, h) && Monotone(h + [c])
    ensures Ordered(Mark(cfg, s, c.now, c.key).1, h + [c])
  {
    var live := Surviving(s, cfg, c.now);
    SurvivingIsOrdered(cfg, s, h, c.now);
    if Has(live, c.key) {
      MoveKeepsOrder(live, h, c, IndexOf(live, c.key));
    } else {
      OrderedLater(live, h, c);
      var full := live + [Entry(c.key, c.now)];
      if |full| > cfg.maxEntries { SuffixIsOrdered(full, h + [c], |full| - cfg.maxEntries); }
    }
  }

  lemma MoveKeepsOrder(live: seq<Entry>, h: seq<Call>, c: Call, i: nat)
    requires Ordered(live, h) && Monotone(h + [c]) && i < |live| && live[i].key == c.key
    ensures Ordered(live[..i] + live[i + 1..] + [live[i]], h + [c])
  {
    WithoutIsOrdered(live, h, i);
    assert Touched(h, live[i].key);
    assert (h + [c])[..|h|] == h;
    LastTouchIsPast(h, live[i].key);
    OrderedPush(Without(live, i), h, c, live[i].seenAt);
    assert Without(live, i) + [live[i]] == Without(live, i) + [Entry(c.key, live[i].seenAt)];
  }

  lemma {:induction false} LastTouchIsPast(h: seq<Call>, k: Key)
    requires Monotone(h) && Touched(h, k)
    ensures LastTouch(h, k) <= h[|h| - 1].now
  {
    var g := h[..|h| - 1];
    if h[|h| - 1].key != k {
      assert Touched(g, k) by {
        var i :| 0 <= i < |h| && h[i].key == k;
        assert g[i].key == k;
      }
      LastTouchIsPast(g, k);
    }
  }

  lemma {:induction false} AfterIsOrdered(cfg: Config, h: seq<Call>)
    requires Monotone(h)
    ensures Ordered(After(cfg, h), h)
  {
    if h != [] {
      var g, c := h[..|h| - 1], h[|h| - 1];
      assert g + [c] == h;
      AfterIsOrdered(cfg, g);
      MarkKeepsOrder(cfg, After(cfg, g), g, c);
    }
  }

  /** The size bound holds for every history and any clock. */
  lemma {:induction false} SizeIsBounded(cfg: Config, h: seq<Call>)
    ensures |After(cfg, h)| <= cfg.maxEntries
  {
    if h != [] {
      var g, c := h[..|h| - 1], h[|h| - 1];
      SizeIsBounded(cfg, g);
      DropExpiredIsSuffix(After(cfg, g), c.now - cfg.ttl);
    }
  }

  // ---- The sandwich ----

  lemma {:induction false} OthersAreLater(h: seq<Call>, k: Key, other: Key)
    requires Monotone(h) && Touched(h, k) && other in OthersSince(h, k)
    ensures Touched(h, other) && LastTouch(h, k) <= LastTouch(h, other)
  {
    var n := |h| - 1;
    var g := h[..n];
    assert g + [h[n]] == h;
    assert Touched(g, k) by {
      var i :| 0 <= i < |h| && h[i].key == k;
      assert g[i].key == k;
    }
    if h[n].key == other {
      LastTouchIsPast(g, k);
    } else {
      OthersAreLater(g, k, other);
      var i :| 0 <= i < |g| && g[i].key == other;
      assert h[i].key == other;
    }
  }

  lemma {:induction false} StaleIsDropped(s: seq<Entry>, h: seq<Call>, k: Key, threshold: real)
    requires Monotone(h) && Ordered(s, h)
    requires Touched(h, k) ==> LastTouch(h, k) <= threshold
    ensures !Has(DropExpired(s, threshold), k)
  {
    var live := DropExpired(s, threshold);
    DropExpiredIsSuffix(s, threshold);
    if p :| 0 <= p < |live| && live[p].key == k {
      var first := |s| - |live|;
      assert live[0] == s[first] && live[p] == s[first + p];
      assert Touched(h, s[first].key) && s[first].seenAt <= LastTouch(h, s[first].key);
      assert Touched(h, s[first + p].key);
      if p > 0 {
        OthersAreLater(h, s[first].key, k);
      }
    }
  }

  /** A key untouched for at least the TTL (or never seen) is accepted. */
  lemma {:induction false} UntouchedIsAccepted(cfg: Config, h: seq<Call>, c: Call)
    requires Monotone(h + [c])
    requires Touched(h, c.key) ==> LastTouch(h, c.key) <= c.now - cfg.ttl
    ensures Accepted(cfg, h + [c], |h|)
  {
    assert (h + [c])[..|h|] == h;
    AfterIsOrdered(cfg, h);
    StaleIsDropped(After(cfg, h), h, c.key, c.now - cfg.ttl);
  }

  lemma {:induction false} DistinctKeysFit(s: seq<Entry>, keys: set<Key>)
    requires forall p, q :: 0 <= p < q < |s| ==> s[p].key != s[q].key
    requires forall p :: 0 <= p < |s| ==> s[p].key in keys
    ensures |s| <= |keys|
  {
    if s != [] {
      var n := |s| - 1;
      DistinctKeysFit(s[..n], keys - {s[n].key});
    }
  }

  predicate AllSince(s: seq<Entry>, k: Key, since: real)
  {
    forall p :: 0 <= p < |s| && s[p].key == k ==> s[p].seenAt >= since
  }

  lemma MarkKeepsAllSince(cfg: Config, s: seq<Entry>, now: real, key: Key, k: Key, since: real)
    requires now >= since
    requires AllSince(s, k, since) || (key == k && Mark(cfg, s, now, key).0)
    ensures AllSince(Mark(cfg, s, now, key).1, k, since)
  {
    DropExpiredIsSuffix(s, now - cfg.ttl);
    var live := Surviving(s, cfg, now);
    if AllSince(s, k, since) {
      AllSinceOfSuffix(s, live, k, since);
    }
    if Has(live, key) {
      AllSinceMoved(live, IndexOf(live, key), k, since);
    } else {
      var full := live + [Entry(key, now)];
      PushedSince(live, Entry(key, now), k, since);
      AllSinceOfSuffix(full, DropOverflow(full, cfg.maxEntries), k, since);
    }
  }

  lemma AllSinceOfSuffix(s: seq<Entry>, tail: seq<Entry>, k: Key, since: real)
    requires AllSince(s, k, since) && |tail| <= |s| && tail == s[|s| - |tail|..]
    ensures AllSince(tail, k, since)
  {
  }

  lemma AllSinceMoved(live: seq<Entry>, i: nat, k: Key, since: real)
    requires AllSince(live, k, since) && i < |live|
    ensures AllSince(live[..i] + live[i + 1..] + [live[i]], k, since)
  {
  }

  lemma PushedSince(live: seq<Entry>, e: Entry, k: Key, since: real)
    requires (AllSince(live, k, since) || (e.key == k && !Has(live, k))) && e.seenAt >= since
    ensures AllSince(live + [e], k, since)
  {
  }

  /** Later items for a key accepted at call i were inserted no earlier than call i. */
  lemma {:induction false} InsertedSince(cfg: Config, h: seq<Call>, i: nat)
    requires i < |h| && Monotone(h) && Accepted(cfg, h, i)
    ensures AllSince(After(cfg, h), h[i].key, h[i].now)
  {
    var n := |h| - 1;
    assert h[..n][..i] == h[..i];
    ClockIsMonotone(h, i);
    if i < n {
      InsertedSince(cfg, h[..n], i);
    }
    MarkKeepsAllSince(cfg, After(cfg, h[..n]), h[n].now, h[n].key, h[i].key, h[i].now);
  }

  /** An item young enough to outlive the TTL eviction is only ever pushed out by max_entries others. */
  lemma {:induction false} HeldThroughAnotherKey(cfg: Config, s: seq<Entry>, h: seq<Call>, c: Call, k: Key, since: real)
    requires Monotone(h + [c]) && Ordered(s, h)
    requires c.key != k && cfg.ttl > c.now - since && since <= c.now
    requires Held(s, k, since) && |OthersSince(h + [c], k)| < cfg.maxEntries
    ensures Held(Mark(cfg, s, c.now, c.key).1, k, since)
  {
    var live := Surviving(s, cfg, c.now);
    var p := YoungIsSurviving(cfg, s, c.now, k, since);
    SurvivingIsOrdered(cfg, s, h, c.now);
    if Has(live, c.key) {
      HeldThroughMove(live, IndexOf(live, c.key), p);
    } else {
      HeldThroughPush(live, h, c, p, cfg.maxEntries);
    }
  }

  lemma HeldThroughPush(live: seq<Entry>, h: seq<Call>, c: Call, p: nat, max: nat)
    requires Monotone(h + [c]) && Ordered(live, h) && !Has(live, c.key)
    requires p < |live| && |OthersSince(h + [c], live[p].key)| < max
    ensures Held(DropOverflow(live + [Entry(c.key, c.now)], max), live[p].key, live[p].seenAt)
  {
    var full := live + [Entry(c.key, c.now)];
    OrderedLater(live, h, c);
    assert full[p] == live[p];
    HeldThroughOverflow(full, h + [c], p, max);
  }

  lemma HeldThroughMove(live: seq<Entry>, i: nat, p: nat)
    requires i < |live| && p < |live| && i != p
    ensures Held(live[..i] + live[i + 1..] + [live[i]], live[p].key, live[p].seenAt)
  {
    var moved := live[..i] + live[i + 1..] + [live[i]];
    assert moved[if p < i then p else p - 1] == live[p];
  }

  lemma HeldThroughOverflow(full: seq<Entry>, h: seq<Call>, p: nat, max: nat)
    requires Ordered(full, h) && p < |full| && |OthersSince(h, full[p].key)| < max
    ensures Held(DropOverflow(full, max), full[p].key, full[p].seenAt)
  {
    if |full| > max {
      var cut := |full| - max;
      DistinctKeysFit(full[p + 1..], OthersSince(h, full[p].key));
      assert full[cut..][p - cut] == full[p];
    } else {
      assert DropOverflow(full, max)[p] == full[p];
    }
  }

  lemma {:induction false} HeldSinceAcceptance(cfg: Config, h: seq<Call>, i: nat)
    requires i < |h| && Monotone(h) && Accepted(cfg, h, i)
    requires h[|h| - 1].now - h[i].now < cfg.ttl && |OthersSince(h, h[i].key)| < cfg.maxEntries
    ensures Held(After(cfg, h), h[i].key, h[i].now)
  {
    var n, k := |h| - 1, h[i].key;
    var g, c := h[..n], h[n];
    assert g + [c] == h;
    ClockIsMonotone(h, i);
    if c.key == k {
      InsertedSince(cfg, h, i);
      MarkedIsLast(cfg, After(cfg, g), c.now, k);
    } else {
      AfterIsOrdered(cfg, g);
      assert h[..i] == g[..i];
      CountIsMonotone(OthersSince(g, k), OthersSince(h, k));
      HeldSinceAcceptance(cfg, g, i);
      HeldThroughAnotherKey(cfg, After(cfg, g), g, c, k, h[i].now);
    }
  }

  lemma MarkedIsLast(cfg: Config, s: seq<Entry>, now: real, k: Key)
    requires cfg.maxEntries > 0
    ensures var s' := Mark(cfg, s, now, k).1; s' != [] && s'[|s'| - 1].key == k
  {
  }

  lemma CountIsMonotone(a: set<Key>, b: set<Key>)
    requires a <= b
    ensures |a| <= |b|
  {
    assert b == a + (b - a);
  }

  /** A key accepted less than the TTL ago is rejected if fewer than max_entries distinct other keys
      were marked since its last touch. */
  lemma {:induction false} RecentIsRejected(cfg: Config, h: seq<Call>, i: nat, c: Call)
    requires i < |h| && Monotone(h + [c]) && h[i].key == c.key
    requires Accepted(cfg, h, i) && c.now - h[i].now < cfg.ttl
    requires |OthersSince(h, c.key)| < cfg.maxEntries
    ensures !Accepted(cfg, h + [c], |h|)
  {
    var h' := h + [c];
    assert h'[..|h|] == h;
    ClockIsMonotone(h', i);
    HeldSinceAcceptance(cfg, h, i);
    var _ := YoungIsSurviving(cfg, After(cfg, h), c.now, c.key, h[i].now);
  }

  lemma YoungIsSurviving(cfg: Config, s: seq<Entry>, now: real, k: Key, since: real) returns (p: nat)
    requires Held(s, k, since) && now - since < cfg.ttl && since <= now
    ensures var live := Surviving(s, cfg, now); p < |live| && live[p].key == k && live[p].seenAt >= since
    ensures Has(Surviving(s, cfg, now), k)
  {
    DropExpiredIsSuffix(s, now - cfg.ttl);
    var live := Surviving(s, cfg, now);
    var p0 :| 0 <= p0 < |s| && s[p0].key == k && s[p0].seenAt >= since;
    p := p0 - (|s| - |live|);
    assert live[p] == s[p0];
  }

  // ---- The exact condition ----

  /** The items are the most recently touched keys: every key touched after one of them is one of them. */
  ghost predicate Closed(s: seq<Entry>, h: seq<Call>)
  {
    forall p, k :: 0 <= p < |s| && k in OthersSince(h, s[p].key) ==> Has(s, k)
  }

  /** Call i was told first-seen and is where the item's time comes from. */
  predicate ComesFrom(cfg: Config, e: Entry, h: seq<Call>, i: nat)
  {
    i < |h| && Accepted(cfg, h, i) && h[i] == Call(e.seenAt, e.key)
  }

  ghost predicate Sourced(cfg: Config, s: seq<Entry>, h: seq<Call>)
  {
    forall p :: 0 <= p < |s| ==> HasSource(cfg, s[p], h)
  }

  ghost predicate HasSource(cfg: Config, e: Entry, h: seq<Call>)
  {
    exists i :: ComesFrom(cfg, e, h, i)
  }

  lemma {:induction false} OthersExclude(h: seq<Call>, a: Key, b: Key)
    ensures a !in OthersSince(h, a)
    ensures a in OthersSince(h, b) ==> b !in OthersSince(h, a) || !Touched(h, b)
  {
    if h != [] {
      var g := h[..|h| - 1];
      OthersExclude(g, a, b);
      if Touched(g, b) {
        var i :| 0 <= i < |g| && g[i].key == b;
        assert h[i].key == b;
      }
      if h[|h| - 1].key != b && Touched(h, b) {
        var i :| 0 <= i < |h| && h[i].key == b;
        assert g[i].key == b;
      }
    }
  }

  lemma ClosedSuffix(s: seq<Entry>, h: seq<Call>, n: nat)
    requires Ordered(s, h) && Closed(s, h) && n <= |s|
    ensures Closed(s[n..], h)
  {
    var tail := s[n..];
    forall p, k | 0 <= p < |tail| && k in OthersSince(h, tail[p].key) ensures Has(tail, k) {
      assert tail[p] == s[n + p];
      assert k in OthersSince(h, s[n + p].key) && Has(s, k);
      var q :| 0 <= q < |s| && s[q].key == k;
      OthersExclude(h, k, s[n + p].key);
      assert Touched(h, s[n + p].key);
      if q >= n {
        assert tail[q - n].key == k;
      }
    }
  }

  lemma ClosedAfterTouch(s: seq<Entry>, s': seq<Entry>, h: seq<Call>, c: Call)
    requires Closed(s, h)
    requires forall p :: 0 <= p < |s'| ==> s'[p].key == c.key || Has(s, s'[p].key)
    requires forall p :: 0 <= p < |s| ==> Has(s', s[p].key)
    requires Has(s', c.key)
    ensures Closed(s', h + [c])
  {
    assert (h + [c])[..|h|] == h;
    forall p, k | 0 <= p < |s'| && k in OthersSince(h + [c], s'[p].key) ensures Has(s', k) {
      if k != c.key {
        var q :| 0 <= q < |s| && s[q].key == s'[p].key;
        assert k in OthersSince(h, s[q].key) && Has(s, k);
        var r :| 0 <= r < |s| && s[r].key == k;
        assert Has(s', s[r].key);
      }
    }
  }

  lemma MovedKeys(live: seq<Entry>, i: nat)
    requires i < |live|
    ensures var moved := live[..i] + live[i + 1..] + [live[i]];
            Has(moved, live[i].key)
            && (forall p :: 0 <= p < |moved| ==> Has(live, moved[p].key))
            && (forall p :: 0 <= p < |live| ==> Has(moved, live[p].key))
  {
    var moved := live[..i] + live[i + 1..] + [live[i]];
    forall p | 0 <= p < |moved| ensures Has(live, moved[p].key) {
      assert live[if p < i then p else if p < |live| - 1 then p + 1 else i] == moved[p];
    }
    forall p | 0 <= p < |live| ensures Has(moved, live[p].key) {
      assert moved[if p < i then p else if p > i then p - 1 else |live| - 1] == live[p];
    }
  }

  lemma PushedKeys(live: seq<Entry>, e: Entry)
    ensures var full := live + [e];
            Has(full, e.key)
            && (forall p :: 0 <= p < |full| ==> full[p].key == e.key || Has(live, full[p].key))
            && (forall p :: 0 <= p < |live| ==> Has(full, live[p].key))
  {
    var full := live + [e];
    assert full[|live|].key == e.key;
    forall p | 0 <= p < |full| ensures full[p].key == e.key || Has(live, full[p].key) {
      assert p < |live| ==> live[p] == full[p];
    }
    forall p | 0 <= p < |live| ensures Has(full, live[p].key) {
      assert full[p] == live[p];
    }
  }

  lemma MarkKeepsClosed(cfg: Config, s: seq<Entry>, h: seq<Call>, c: Call)
    requires Ordered(s, h) && Closed(s, h) && Monotone(h + [c])
    ensures Closed(Mark(cfg, s, c.now, c.key).1, h + [c])
  {
    var live := Surviving(s, cfg, c.now);
    SurvivingIsOrdered(cfg, s, h, c.now);
    SurvivingIsClosed(cfg, s, h, c.now);
    if Has(live, c.key) {
      var i := IndexOf(live, c.key);
      MovedKeys(live, i);
      ClosedAfterTouch(live, live[..i] + live[i + 1..] + [live[i]], h, c);
    } else {
      var full := live + [Entry(c.key, c.now)];
      PushedKeys(live, Entry(c.key, c.now));
      ClosedAfterTouch(live, full, h, c);
      OrderedLater(live, h, c);
      if |full| > cfg.maxEntries { ClosedSuffix(full, h + [c], |full| - cfg.maxEntries); }
    }
  }

  lemma SurvivingIsClosed(cfg: Config, s: seq<Entry>, h: seq<Call>, now: real)
    requires Ordered(s, h) && Closed(s, h)
    ensures Closed(Surviving(s, cfg, now), h)
  {
    DropExpiredIsSuffix(s, now - cfg.ttl);
    if cfg.ttl > 0.0 {
      ClosedSuffix(s, h, |s| - |Surviving(s, cfg, now)|);
    }
  }

  lemma {:induction false} AfterIsClosed(cfg: Config, h: seq<Call>)
    requires Monotone(h)
    ensures Closed(After(cfg, h), h)
  {
    if h != [] {
      var g, c := h[..|h| - 1], h[|h| - 1];
      assert g + [c] == h;
      AfterIsOrdered(cfg, g);
      AfterIsClosed(cfg, g);
      MarkKeepsClosed(cfg, After(cfg, g), g, c);
    }
  }

  lemma AcceptedEarlier(cfg: Config, h: seq<Call>, c: Call, e: Entry, i: nat)
    requires ComesFrom(cfg, e, h, i)
    ensures ComesFrom(cfg, e, h + [c], i)
  {
    assert (h + [c])[..i] == h[..i];
  }

  /** Every item after a call was there before or is the call's own. */
  lemma MarkTakesFrom(cfg: Config, s: seq<Entry>, now: real, k: Key, p: nat)
    requires p < |Mark(cfg, s, now, k).1|
    ensures var (first, s') := Mark(cfg, s, now, k);
            (exists q :: 0 <= q < |s| && s[q] == s'[p]) || (first && s'[p] == Entry(k, now))
  {
    DropExpiredIsSuffix(s, now - cfg.ttl);
    var live := Surviving(s, cfg, now);
    var s' := Mark(cfg, s, now, k).1;
    var d := |s| - |live|;
    if Has(live, k) {
      var i := IndexOf(live, k);
      var q := if p < i then p else if p < |live| - 1 then p + 1 else i;
      assert s'[p] == live[q] == s[d + q];
    } else {
      var full := live + [Entry(k, now)];
      var q := p + |full| - |s'|;
      assert s'[p] == full[q];
      if q < |live| {
        assert s'[p] == s[d + q];
      }
    }
  }

  lemma {:induction false} AfterIsSourced(cfg: Config, h: seq<Call>)
    ensures Sourced(cfg, After(cfg, h), h)
  {
    if h != [] {
      var g, c := h[..|h| - 1], h[|h| - 1];
      assert g + [c] == h;
      AfterIsSourced(cfg, g);
      var s, s' := After(cfg, g), After(cfg, h);
      forall p | 0 <= p < |s'| ensures HasSource(cfg, s'[p], h) {
        MarkTakesFrom(cfg, s, c.now, c.key, p);
        if q :| 0 <= q < |s| && s[q] == s'[p] {
          assert HasSource(cfg, s[q], g);
          var i :| ComesFrom(cfg, s[q], g, i);
          AcceptedEarlier(cfg, g, c, s[q], i);
          assert ComesFrom(cfg, s'[p], h, i);
        } else {
          assert h[..|g|] == g;
          assert ComesFrom(cfg, s'[p], h, |g|);
        }
      }
    }
  }

  function KeysOf(s: seq<Entry>): set<Key>
  {
    if s == [] then {} else KeysOf(s[..|s| - 1]) + {s[|s| - 1].key}
  }

  lemma {:induction false} KeysOfAre(s: seq<Entry>)
    ensures |KeysOf(s)| <= |s| && forall k :: Has(s, k) <==> k in KeysOf(s)
  {
    if s != [] {
      var n := |s| - 1;
      KeysOfAre(s[..n]);
      forall k ensures Has(s, k) <==> k in KeysOf(s) {
        if Has(s, k) {
          var q :| 0 <= q < |s| && s[q].key == k;
          assert q < n ==> s[..n][q].key == k;
        }
        if Has(s[..n], k) {
          var q :| 0 <= q < n && s[..n][q].key == k;
          assert s[q].key == k;
        }
        assert s[n].key == k ==> Has(s, k);
      }
    }
  }

  /** An item held has fewer than max_entries others marked since. */
  lemma HeldHasFewOthers(cfg: Config, h: seq<Call>, p: nat)
    requires Monotone(h) && p < |After(cfg, h)|
    ensures |OthersSince(h, After(cfg, h)[p].key)| < cfg.maxEntries
  {
    var s := After(cfg, h);
    var k := s[p].key;
    AfterIsClosed(cfg, h);
    SizeIsBounded(cfg, h);
    KeysOfAre(s);
    OthersExclude(h, k, k);
    assert Has(s, k);
    assert OthersSince(h, k) <= KeysOf(s) - {k};
    CountIsMonotone(OthersSince(h, k), KeysOf(s) - {k});
  }

  /** Call i keeps the key k remembered at this time: it was told first-seen, its TTL has not passed, it has
      not been pushed out since its key's last touch, and k was touched no earlier than that. */
  predicate Anchors(cfg: Config, h: seq<Call>, now: real, k: Key, i: nat)
  {
    i < |h| && Accepted(cfg, h, i) && now - h[i].now < cfg.ttl && |OthersSince(h, h[i].key)| < cfg.maxEntries
    && (k == h[i].key || k in OthersSince(h, h[i].key))
  }

  lemma AnchoredIsRejected(cfg: Config, h: seq<Call>, c: Call, i: nat)
    requires Monotone(h + [c]) && Anchors(cfg, h, c.now, c.key, i)
    ensures !Accepted(cfg, h + [c], |h|)
  {
    var h' := h + [c];
    assert h'[..|h|] == h;
    ClockIsMonotone(h', i);
    ClockIsMonotone(h', |h| - 1);
    HeldSinceAcceptance(cfg, h, i);
    AfterIsOrdered(cfg, h);
    AfterIsClosed(cfg, h);
    SurvivingIsClosed(cfg, After(cfg, h), h, c.now);
    var p := YoungIsSurviving(cfg, After(cfg, h), c.now, h[i].key, h[i].now);
    assert Surviving(After(cfg, h), cfg, c.now)[p].key == h[i].key;
  }

  lemma RejectedIsAnchored(cfg: Config, h: seq<Call>, c: Call) returns (i: nat)
    requires Monotone(h + [c]) && !Accepted(cfg, h + [c], |h|)
    ensures Anchors(cfg, h, c.now, c.key, i)
  {
    assert (h + [c])[..|h|] == h;
    var s := After(cfg, h);
    var live := Surviving(s, cfg, c.now);
    DropExpiredIsSuffix(s, c.now - cfg.ttl);
    var d := |s| - |live|;
    var q :| 0 <= q < |live| && live[q].key == c.key;
    assert live[0] == s[d] && live[q] == s[d + q];
    FrontIsYoung(s, c.now - cfg.ttl);
    AfterIsOrdered(cfg, h);
    AfterIsSourced(cfg, h);
    HeldHasFewOthers(cfg, h, d);
    assert HasSource(cfg, s[d], h);
    i :| ComesFrom(cfg, s[d], h, i);
  }

  lemma {:induction false} FrontIsYoung(s: seq<Entry>, threshold: real)
    ensures var live := DropExpired(s, threshold); live != [] ==> live[0].seenAt > threshold
  {
    if s != [] && s[0].seenAt <= threshold {
      FrontIsYoung(s[1..], threshold);
    }
  }

  /** The exact condition, for every configuration and history: a call is rejected if and only if some
      first-seen call whose TTL has not passed and whose key has fewer than max_entries distinct others
      since its last touch is for the same key, or for one this key was touched after. */
  lemma RejectedExactlyWhen(cfg: Config, h: seq<Call>, c: Call)
    requires Monotone(h + [c])
    ensures !Accepted(cfg, h + [c], |h|) <==> exists i :: Anchors(cfg, h, c.now, c.key, i)
  {
    if !Accepted(cfg, h + [c], |h|) {
      var i := RejectedIsAnchored(cfg, h, c);
    }
    if i :| Anchors(cfg, h, c.now, c.key, i) {
      AnchoredIsRejected(cfg, h, c, i);
    }
  }

  /** Between the two bounds the answer depends on the other keys, because a touch moves an item behind
      younger ones without renewing its time: accepted at 0 and touched at 9 with a TTL of ten, a key is
      accepted again at 15 when alone, and rejected at 15 when another key came at 8. */
  lemma TouchMovesButDoesNotRenew(a: Key, b: Key)
    requires a != b
    ensures Accepted(Config(10.0, 5), [Call(0.0, a), Call(9.0, a), Call(15.0, a)], 2)
    ensures !Accepted(Config(10.0, 5), [Call(0.0, a), Call(8.0, b), Call(9.0, a), Call(15.0, a)], 3)
  {
    TouchedAlone(a);
    TouchedAmongTwo(a, b);
  }

  lemma TouchedAlone(a: Key)
    ensures Accepted(Config(10.0, 5), [Call(0.0, a), Call(9.0, a), Call(15.0, a)], 2)
  {
    var cfg, x := Config(10.0, 5), Entry(a, 0.0);
    AfterFirst(cfg, x);
    TouchAlone(cfg, x, 9.0);
    AfterAppend(cfg, [Call(0.0, a)], Call(9.0, a));
    MarkExpired(cfg, x, 15.0);
    assert [Call(0.0, a), Call(9.0, a), Call(15.0, a)][..2] == [Call(0.0, a)] + [Call(9.0, a)];
  }

  lemma MarkExpired(cfg: Config, x: Entry, now: real)
    requires x.seenAt <= now - cfg.ttl
    ensures Mark(cfg, [x], now, x.key).0
  {
    assert [x][1..] == [];
    assert DropExpired([x], now - cfg.ttl) == DropExpired([], now - cfg.ttl) == [];
  }

  lemma TouchedAmongTwo(a: Key, b: Key)
    requires a != b
    ensures !Accepted(Config(10.0, 5), [Call(0.0, a), Call(8.0, b), Call(9.0, a), Call(15.0, a)], 3)
  {
    var cfg, x, y := Config(10.0, 5), Entry(a, 0.0), Entry(b, 8.0);
    AfterTouchAmongTwo(cfg, x, y);
    assert [Call(0.0, a), Call(8.0, b), Call(9.0, a), Call(15.0, a)][..3]
        == [Call(0.0, a)] + [Call(8.0, b)] + [Call(9.0, a)];
    MarkHeld(cfg, y, x, 15.0);
  }

  lemma AfterTouchAmongTwo(cfg: Config, x: Entry, y: Entry)
    requires x.key != y.key && cfg.maxEntries > 1 && x.seenAt > y.seenAt - cfg.ttl && x.seenAt > 9.0 - cfg.ttl && cfg.ttl > 0.0
    ensures After(cfg, [Call(x.seenAt, x.key)] + [Call(y.seenAt, y.key)] + [Call(9.0, x.key)]) == [y, x]
  {
    var h1 := [Call(x.seenAt, x.key)];
    AfterFirst(cfg, x);
    SecondMark(cfg, x, y);
    AfterAppend(cfg, h1, Call(y.seenAt, y.key));
    TouchFirst(cfg, x, y, 9.0);
    AfterAppend(cfg, h1 + [Call(y.seenAt, y.key)], Call(9.0, x.key));
  }

  lemma MarkHeld(cfg: Config, y: Entry, x: Entry, now: real)
    requires cfg.ttl > 0.0 && y.seenAt > now - cfg.ttl
    ensures !Mark(cfg, [y, x], now, x.key).0
  {
    assert [y, x][1].key == x.key;
    assert Surviving([y, x], cfg, now) == [y, x];
  }

  lemma AfterFirst(cfg: Config, x: Entry)
    requires cfg.maxEntries > 0
    ensures After(cfg, [Call(x.seenAt, x.key)]) == [x]
  {
    FirstMark(cfg, x);
    AfterAppend(cfg, [], Call(x.seenAt, x.key));
    assert [Call(x.seenAt, x.key)] == [] + [Call(x.seenAt, x.key)];
  }

  lemma AfterAppend(cfg: Config, h: seq<Call>, c: Call)
    ensures After(cfg, h + [c]) == Mark(cfg, After(cfg, h), c.now, c.key).1
  {
    assert (h + [c])[..|h|] == h;
  }

  lemma FirstMark(cfg: Config, x: Entry)
    requires cfg.maxEntries > 0
    ensures Mark(cfg, [], x.seenAt, x.key) == (true, [x])
  {
    assert Surviving([], cfg, x.seenAt) == [] && [] + [Entry(x.key, x.seenAt)] == [x];
  }

  lemma TouchAlone(cfg: Config, x: Entry, now: real)
    requires x.seenAt > now - cfg.ttl && cfg.ttl > 0.0
    ensures Mark(cfg, [x], now, x.key) == (false, [x])
  {
    assert Surviving([x], cfg, now) == [x];
    assert Has([x], x.key) by { assert [x][0].key == x.key; }
    assert IndexOf([x], x.key) == 0;
    assert [x][..0] + [x][1..] + [x] == [x];
  }

  lemma SecondMark(cfg: Config, x: Entry, y: Entry)
    requires x.seenAt > y.seenAt - cfg.ttl && cfg.ttl > 0.0 && x.key != y.key && cfg.maxEntries > 1
    ensures Mark(cfg, [x], y.seenAt, y.key) == (true, [x, y])
  {
    assert Surviving([x], cfg, y.seenAt) == [x] && !Has([x], y.key);
    assert [x] + [y] == [x, y];
  }

  /** A touch moves the oldest item behind the other. */
  lemma TouchFirst(cfg: Config, x: Entry, y: Entry, now: real)
    requires x.seenAt > now - cfg.ttl && cfg.ttl > 0.0
    ensures Mark(cfg, [x, y], now, x.key) == (false, [y, x])
  {
    assert Surviving([x, y], cfg, now) == [x, y];
    assert Has([x, y], x.key) by { assert [x, y][0].key == x.key; }
    assert IndexOf([x, y], x.key) == 0;
    assert [x, y][..0] + [x, y][1..] + [x] == [y, x];
  }
}
