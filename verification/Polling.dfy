/** Long polling: the offset, the bridge, and what a whole run hands on. */
module Polling {
  import opened Basics

  /** A raw update: a mapping with an update_id, a mapping without a usable one, or something else. */
  datatype Raw = Update(id: int, payload: string) | Unnumbered(payload: string) | NotAMapping(payload: string)

  // ---- offsets.py ----

  function ValidIds(raw: seq<Raw>): seq<int>
  {
    if raw == [] then []
    else
      var last := raw[|raw| - 1];
      ValidIds(raw[..|raw| - 1]) + (if last.Update? && last.id > 0 then [last.id] else [])
  }

  function Max(ids: seq<int>): (m: int)
    requires ids != []
    ensures m in ids && forall id :: id in ids ==> id <= m
  {
    if |ids| == 1 then ids[0]
    else
      var rest := Max(ids[1..]);
      assert ids == [ids[0]] + ids[1..];
      if ids[0] >= rest then ids[0] else rest
  }

  /** The offset after a batch; never less than the current one. */
  function AdvanceOffset(current: Option<int>, raw: seq<Raw>): (next: Option<int>)
    ensures current.Some? ==> next.Some? && next.value >= current.value
    ensures next.Some? ==> forall id :: id in ValidIds(raw) ==> id < next.value
    ensures next != current ==> next.Some? && next.value - 1 in ValidIds(raw)
  {
    var ids := ValidIds(raw);
    if ids == [] then current
    else
      var derived := Max(ids) + 1;
      if current.None? || derived > current.value then Some(derived) else current
  }

  // ---- bridge.py ----

  datatype Bridged = Mapped(update: Raw) | Rejected | Raised

  function Accepted(raw: seq<Raw>, bridge: Raw -> Bridged): seq<Raw>
  {
    if raw == [] then []
    else Accepted(raw[..|raw| - 1], bridge)
         + (if bridge(raw[|raw| - 1]).Mapped? then [bridge(raw[|raw| - 1]).update] else [])
  }

  /** One bad item never aborts the batch: every item is accepted, rejected or counted as raising. */
  method BridgeRuntimeUpdates(raw: seq<Raw>, bridge: Raw -> Bridged)
    returns (accepted: seq<Raw>, rejected: nat, raised: nat)
    ensures accepted == Accepted(raw, bridge)
    ensures |accepted| + rejected + raised == |raw|
    ensures rejected == |set i | 0 <= i < |raw| && bridge(raw[i]).Rejected?|
  {
    accepted, rejected, raised := [], 0, 0;
    ghost var hits := {};
    for i := 0 to |raw|
      invariant accepted == Accepted(raw[..i], bridge)
      invariant |accepted| + rejected + raised == i
      invariant hits == set j | 0 <= j < i && bridge(raw[j]).Rejected?
      invariant rejected == |hits|
    {
      assert raw[..i + 1][..i] == raw[..i];
      match bridge(raw[i])
      case Raised => raised := raised + 1;
      case Rejected => rejected := rejected + 1; hits := hits + {i};
      case Mapped(u) => accepted := accepted + [u];
    }
    assert raw[..|raw|] == raw;
  }

  // ---- raw_polling.py ----

  /** The slice the batch runtime takes. */
  function Capped(updates: seq<Raw>, cap: nat): seq<Raw>
  {
    if |updates| > cap then updates[..cap] else updates
  }

  /** What the cap cuts off a fetch. */
  function CutOff(raw: seq<Raw>, bridge: Raw -> Bridged, cap: nat): seq<Raw>
  {
    var accepted := Accepted(raw, bridge);
    if |accepted| > cap then accepted[cap..] else []
  }

  lemma {:induction false} AcceptedAtMost(raw: seq<Raw>, bridge: Raw -> Bridged)
    ensures |Accepted(raw, bridge)| <= |raw|
    ensures (forall u <- raw :: bridge(u).Mapped?) ==> |Accepted(raw, bridge)| == |raw|
  {
    if raw != [] {
      var n := |raw| - 1;
      AcceptedAtMost(raw[..n], bridge);
      assert raw[n] in raw;
      assert forall u <- raw[..n] :: u in raw;
    }
  }

  /** Of a fetch, the accepted updates are the processed ones followed by the cut-off ones; there are
      cut-off ones exactly when more are accepted than the cap, never when the server keeps to the limit;
      and the next offset is past every update of the fetch, cut off or not, so none is fetched again. */
  lemma CapCutsOff(raw: seq<Raw>, bridge: Raw -> Bridged, cap: nat, offset: Option<int>, u: Raw)
    ensures Accepted(raw, bridge) == Capped(Accepted(raw, bridge), cap) + CutOff(raw, bridge, cap)
    ensures CutOff(raw, bridge, cap) != [] <==> |Accepted(raw, bridge)| > cap
    ensures |raw| <= cap ==> CutOff(raw, bridge, cap) == []
    ensures u in raw && u.Update? && u.id > 0 ==> AdvanceOffset(offset, raw).Some? && IsBelow(u, AdvanceOffset(offset, raw))
  {
    AcceptedAtMost(raw, bridge);
    if u in raw && u.Update? && u.id > 0 {
      ValidIdsHold(raw, u);
    }
  }

  lemma {:induction false} ValidIdsHold(raw: seq<Raw>, u: Raw)
    requires u in raw && u.Update? && u.id > 0
    ensures u.id in ValidIds(raw)
  {
    var n := |raw| - 1;
    if raw[n] != u {
      ValidIdsHold(raw[..n], u);
    }
  }

  /** One poll: the raw updates fetched (None: the fetch raised), what the bridge is handed, and what
      the batch runtime then processes under its own cap. */
  class RawPollingRuntime {
    const maxUpdatesPerBatch: nat
    var currentOffset: Option<int>
    ghost var handed: seq<Raw>

    constructor (maxUpdatesPerBatch: nat)
      ensures this.maxUpdatesPerBatch == maxUpdatesPerBatch && currentOffset == None && handed == []
    {
      this.maxUpdatesPerBatch, currentOffset, handed := maxUpdatesPerBatch, None, [];
    }

    method PollOnce(fetched: Option<seq<Raw>>, bridge: Raw -> Bridged) returns (processed: seq<Raw>, fetchFailures: nat)
      modifies this
      ensures currentOffset == if fetched.None? then old(currentOffset) else AdvanceOffset(old(currentOffset), fetched.value)
      ensures handed == old(handed) + (if fetched.None? then [] else fetched.value)
      ensures fetchFailures == if fetched.None? then 1 else 0
      ensures processed == if fetched.None? then [] else Capped(Accepted(fetched.value, bridge), maxUpdatesPerBatch)
    {
      if fetched.None? {
        return [], 1;
      }
      currentOffset := AdvanceOffset(currentOffset, fetched.value);
      handed := handed + fetched.value;
      var accepted, _, _ := BridgeRuntimeUpdates(fetched.value, bridge);
      processed := Capped(accepted, maxUpdatesPerBatch);
      fetchFailures := 0;
    }
  }

  // ---- Whole runs against the update server ----

  /** The server's queue: updates with ascending positive ids. */
  predicate IsFeed(feed: seq<Raw>)
  {
    feed == []
    || (var last := feed[|feed| - 1];
        last.Update? && last.id > 0 && IsFeed(feed[..|feed| - 1])
        && (|feed| > 1 ==> feed[|feed| - 2].Update? && feed[|feed| - 2].id < last.id))
  }

  lemma {:induction false} FeedAscends(feed: seq<Raw>, i: nat, j: nat)
    requires IsFeed(feed) && i <= j < |feed|
    ensures feed[i].Update? && feed[j].Update? && 0 < feed[i].id && (i < j ==> feed[i].id < feed[j].id)
    decreases |feed|
  {
    if j < |feed| - 1 {
      FeedAscends(feed[..|feed| - 1], i, j);
    } else if i < j {
      FeedAscends(feed[..|feed| - 1], i, j - 1);
    }
  }

  predicate IsBelow(u: Raw, offset: Option<int>)
  {
    u.Update? && offset.Some? && u.id < offset.value
  }

  /** How many updates of the feed lie below an offset. */
  function Below(feed: seq<Raw>, offset: Option<int>): (n: nat)
    requires IsFeed(feed)
    ensures n <= |feed|
    ensures forall i :: 0 <= i < n ==> IsBelow(feed[i], offset)
    ensures forall i :: n <= i < |feed| ==> !IsBelow(feed[i], offset)
  {
    if feed == [] then 0
    else
      var last := |feed| - 1;
      var front := feed[..last];
      assert forall i :: 0 <= i < last ==> front[i] == feed[i];
      if IsBelow(feed[last], offset) then
        assert forall i :: 0 <= i < |feed| ==> IsBelow(feed[i], offset) by {
          forall i | 0 <= i < |feed| ensures IsBelow(feed[i], offset) { FeedAscends(feed, i, last); }
        }
        |feed|
      else Below(front, offset)
  }

  /** getUpdates: the earliest at most limit updates with id >= offset. */
  function Fetch(feed: seq<Raw>, offset: Option<int>, limit: nat): seq<Raw>
    requires IsFeed(feed)
  {
    var start := Below(feed, offset);
    feed[start..if start + limit <= |feed| then start + limit else |feed|]
  }

  datatype Event = Arrives(update: Raw) | PollSucceeds | PollFails

  datatype Session = Session(feed: seq<Raw>, offset: Option<int>, handed: seq<Raw>)

  /** New updates get ids above the ones before them; anything else is not a server event. */
  function Step(s: Session, e: Event, limit: nat): Session
    requires IsFeed(s.feed)
  {
    match e
    case Arrives(u) => if IsFeed(s.feed + [u]) then s.(feed := s.feed + [u]) else s
    case PollFails => s
    case PollSucceeds =>
      var raw := Fetch(s.feed, s.offset, limit);
      s.(offset := AdvanceOffset(s.offset, raw), handed := s.handed + raw)
  }

  function Run(s: Session, es: seq<Event>, limit: nat): Session
    requires IsFeed(s.feed)
    decreases |es|
  {
    if es == [] then s else Run(Step(s, es[0], limit), es[1..], limit)
  }

  predicate EndsAt(u: Raw, offset: Option<int>)
  {
    u.Update? && offset == Some(u.id + 1)
  }

  /** Handed on so far: exactly the feed's updates below the offset, in order, each once. */
  ghost predicate Complete(s: Session)
  {
    && IsFeed(s.feed)
    && (s.offset.Some? ==> exists i :: 0 <= i < |s.feed| && EndsAt(s.feed[i], s.offset))
    && s.handed == s.feed[..Below(s.feed, s.offset)]
  }

  lemma {:induction false} ValidIdsOfFeed(feed: seq<Raw>)
    requires IsFeed(feed) && feed != []
    ensures ValidIds(feed) != [] && Max(ValidIds(feed)) == feed[|feed| - 1].id
  {
    var front, last := feed[..|feed| - 1], feed[|feed| - 1];
    var ids := ValidIds(feed);
    assert ids == ValidIds(front) + [last.id];
    assert ids[|ids| - 1] == last.id;
    if front != [] {
      ValidIdsOfFeed(front);
      FeedAscends(feed, |feed| - 2, |feed| - 1);
    }
    forall id | id in ids ensures id <= last.id {
      if id in ValidIds(front) { assert id <= Max(ValidIds(front)); }
    }
    assert Max(ids) in ids && last.id in ids;
  }

  lemma BelowIs(feed: seq<Raw>, offset: Option<int>, n: nat)
    requires IsFeed(feed) && n <= |feed|
    requires forall i :: 0 <= i < n ==> IsBelow(feed[i], offset)
    requires forall i :: n <= i < |feed| ==> !IsBelow(feed[i], offset)
    ensures Below(feed, offset) == n
  {
    var m := Below(feed, offset);
    assert m < |feed| ==> !IsBelow(feed[m], offset);
    assert n < |feed| ==> !IsBelow(feed[n], offset);
  }

  lemma AdvanceOverFeed(raw: seq<Raw>, offset: Option<int>)
    requires IsFeed(raw) && raw != [] && !IsBelow(raw[|raw| - 1], offset)
    ensures AdvanceOffset(offset, raw) == Some(raw[|raw| - 1].id + 1)
  {
    ValidIdsOfFeed(raw);
  }

  lemma {:induction false} SliceIsFeed(feed: seq<Raw>, lo: nat, hi: nat)
    requires IsFeed(feed) && lo <= hi <= |feed|
    ensures IsFeed(feed[lo..hi])
    decreases hi
  {
    if lo < hi {
      SliceIsFeed(feed, lo, hi - 1);
      var slice := feed[lo..hi];
      assert slice[..|slice| - 1] == feed[lo..hi - 1];
      FeedAscends(feed, hi - 1, hi - 1);
      if lo < hi - 1 { FeedAscends(feed, hi - 2, hi - 1); }
    }
  }

  lemma OffsetAfterUpdate(feed: seq<Raw>, k: nat)
    requires IsFeed(feed) && k < |feed|
    ensures feed[k].Update? && Below(feed, Some(feed[k].id + 1)) == k + 1
  {
    FeedAscends(feed, k, k);
    forall i | 0 <= i < k + 1 ensures IsBelow(feed[i], Some(feed[k].id + 1)) { FeedAscends(feed, i, k); }
    forall i | k + 1 <= i < |feed| ensures !IsBelow(feed[i], Some(feed[k].id + 1)) { FeedAscends(feed, k, i); }
    BelowIs(feed, Some(feed[k].id + 1), k + 1);
  }

  /** A successful poll hands on the next min(limit, pending) updates and moves the offset past
      exactly those. */
  lemma PollMovesPastWhatItHandsOn(feed: seq<Raw>, offset: Option<int>, limit: nat)
    requires IsFeed(feed)
    ensures var raw := Fetch(feed, offset, limit);
            var start := Below(feed, offset);
            |raw| == (if start + limit <= |feed| then limit else |feed| - start)
            && Below(feed, AdvanceOffset(offset, raw)) == start + |raw|
            && (raw != [] ==> feed[start + |raw| - 1].Update?
                              && AdvanceOffset(offset, raw) == Some(feed[start + |raw| - 1].id + 1))
            && (raw == [] ==> AdvanceOffset(offset, raw) == offset)
  {
    var raw, start := Fetch(feed, offset, limit), Below(feed, offset);
    if raw != [] {
      OffsetPastSlice(feed, offset, raw, start);
      OffsetAfterUpdate(feed, start + |raw| - 1);
    }
  }

  lemma {:induction false} OffsetPastSlice(feed: seq<Raw>, offset: Option<int>, raw: seq<Raw>, start: nat)
    requires IsFeed(feed) && start == Below(feed, offset) && raw != [] && start + |raw| <= |feed|
    requires raw == feed[start..start + |raw|]
    ensures feed[start + |raw| - 1].Update? && AdvanceOffset(offset, raw) == Some(feed[start + |raw| - 1].id + 1)
  {
    SliceIsFeed(feed, start, start + |raw|);
    assert raw[|raw| - 1] == feed[start + |raw| - 1];
    AdvanceOverFeed(raw, offset);
  }

  lemma StepKeepsComplete(s: Session, e: Event, limit: nat)
    requires Complete(s)
    ensures var s' := Step(s, e, limit);
            Complete(s') && (s.offset.Some? ==> s'.offset.Some? && s'.offset.value >= s.offset.value)
            && s.handed <= s'.handed
  {
    match e
    case Arrives(u) =>
      if IsFeed(s.feed + [u]) { ArrivalKeepsComplete(s, u); }
    case PollFails =>
    case PollSucceeds => PollKeepsComplete(s, limit);
  }

  lemma PollKeepsComplete(s: Session, limit: nat)
    requires Complete(s)
    ensures Complete(Step(s, PollSucceeds, limit)) && s.handed <= Step(s, PollSucceeds, limit).handed
  {
    PollHandsOn(s, limit);
    PollEndsAtAnUpdate(s, limit);
  }

  lemma PollHandsOn(s: Session, limit: nat)
    requires Complete(s)
    ensures var s' := Step(s, PollSucceeds, limit);
            s'.feed == s.feed && s'.handed == s.feed[..Below(s.feed, s'.offset)] && s.handed <= s'.handed
  {
    PollMovesPastWhatItHandsOn(s.feed, s.offset, limit);
    var raw, start := Fetch(s.feed, s.offset, limit), Below(s.feed, s.offset);
    SliceAfterPrefix(s.feed, start, start + |raw|);
  }

  lemma PollEndsAtAnUpdate(s: Session, limit: nat)
    requires Complete(s)
    ensures var s' := Step(s, PollSucceeds, limit);
            s'.offset.Some? ==> exists i :: 0 <= i < |s.feed| && EndsAt(s.feed[i], s'.offset)
  {
    var raw, start := Fetch(s.feed, s.offset, limit), Below(s.feed, s.offset);
    PollMovesPastWhatItHandsOn(s.feed, s.offset, limit);
    if raw != [] {
      assert EndsAt(s.feed[start + |raw| - 1], AdvanceOffset(s.offset, raw));
    }
  }

  lemma SliceAfterPrefix(feed: seq<Raw>, i: nat, j: nat)
    requires i <= j <= |feed|
    ensures feed[..i] + feed[i..j] == feed[..j]
  {
  }

  lemma ArrivalKeepsComplete(s: Session, u: Raw)
    requires Complete(s) && IsFeed(s.feed + [u])
    ensures Complete(s.(feed := s.feed + [u]))
  {
    var feed' := s.feed + [u];
    ArrivalKeepsBelow(s.feed, u, s.offset);
    assert feed'[..Below(s.feed, s.offset)] == s.feed[..Below(s.feed, s.offset)];
    if s.offset.Some? {
      var i :| 0 <= i < |s.feed| && EndsAt(s.feed[i], s.offset);
      assert feed'[i] == s.feed[i];
    }
  }

  lemma ArrivalKeepsBelow(feed: seq<Raw>, u: Raw, offset: Option<int>)
    requires IsFeed(feed) && IsFeed(feed + [u])
    requires offset.Some? ==> exists i :: 0 <= i < |feed| && EndsAt(feed[i], offset)
    ensures Below(feed + [u], offset) == Below(feed, offset)
  {
    var feed' := feed + [u];
    assert feed'[..|feed|] == feed;
    if offset.Some? {
      var i :| 0 <= i < |feed| && EndsAt(feed[i], offset);
      FeedAscends(feed', i, |feed|);
      assert feed'[i] == feed[i];
    }
  }

  /** Completeness without repetition: over any run of arrivals, polls and fetch failures, the updates
      handed on are exactly those below the current offset, in id order, each once, and the offset
      never decreases. */
  lemma {:induction false} PollingIsComplete(s: Session, es: seq<Event>, limit: nat)
    requires Complete(s)
    ensures var s' := Run(s, es, limit);
            Complete(s') && s.handed <= s'.handed
            && (s.offset.Some? ==> s'.offset.Some? && s'.offset.value >= s.offset.value)
    decreases |es|
  {
    if es != [] {
      StepKeepsComplete(s, es[0], limit);
      PollingIsComplete(Step(s, es[0], limit), es[1..], limit);
    }
  }

  function Polls(n: nat): seq<Event>
  {
    if n == 0 then [] else [PollSucceeds] + Polls(n - 1)
  }

  /** Enough successful polls in a row hand on the whole feed. */
  lemma {:induction false} PollsDrainTheFeed(s: Session, polls: nat, limit: nat)
    requires Complete(s) && limit > 0
    requires |s.feed| - Below(s.feed, s.offset) <= polls * limit
    ensures Run(s, Polls(polls), limit).handed == s.feed
    decreases polls
  {
    if polls == 0 {
      assert s.feed[..|s.feed|] == s.feed;
    } else {
      PollGetsCloser(s, polls, limit);
      PollsDrainTheFeed(Step(s, PollSucceeds, limit), polls - 1, limit);
      FirstOfPolls(s, polls, limit);
    }
  }

  lemma PollGetsCloser(s: Session, polls: nat, limit: nat)
    requires Complete(s) && limit > 0 && polls > 0 && |s.feed| - Below(s.feed, s.offset) <= polls * limit
    ensures var s' := Step(s, PollSucceeds, limit);
            Complete(s') && s'.feed == s.feed && |s'.feed| - Below(s'.feed, s'.offset) <= (polls - 1) * limit
  {
    StepKeepsComplete(s, PollSucceeds, limit);
    PollTakesALimit(s, limit);
    LimitsAddUp(polls, limit);
  }

  lemma FirstOfPolls(s: Session, polls: nat, limit: nat)
    requires polls > 0 && Complete(s)
    ensures Run(s, Polls(polls), limit) == Run(Step(s, PollSucceeds, limit), Polls(polls - 1), limit)
  {
    assert Polls(polls)[1..] == Polls(polls - 1);
  }

  lemma PollTakesALimit(s: Session, limit: nat)
    requires Complete(s)
    ensures var s' := Step(s, PollSucceeds, limit);
            s'.feed == s.feed && (|s.feed| - Below(s.feed, s'.offset) <= |s.feed| - Below(s.feed, s.offset) - limit
                                  || Below(s.feed, s'.offset) == |s.feed|)
  {
    PollMovesPastWhatItHandsOn(s.feed, s.offset, limit);
  }

  lemma LimitsAddUp(n: nat, limit: nat)
    requires n > 0
    ensures n * limit == (n - 1) * limit + limit && (n - 1) * limit >= 0
  {
  }

  // ---- The bridge keeps the order ----

  /** Bridging is item by item: the accepted updates of two batches are those of the first and then those of
      the second, and one item gives its mapped update or nothing. */
  lemma {:induction false} AcceptedInOrder(a: seq<Raw>, b: seq<Raw>, bridge: Raw -> Bridged)
    ensures Accepted(a + b, bridge) == Accepted(a, bridge) + Accepted(b, bridge)
    decreases |b|
  {
    if b == [] {
      assert a + b == a;
    } else {
      var n := |b| - 1;
      assert (a + b)[..|a + b| - 1] == a + b[..n] && (a + b)[|a + b| - 1] == b[n];
      AcceptedInOrder(a, b[..n], bridge);
    }
  }

  lemma OneIsAccepted(u: Raw, bridge: Raw -> Bridged)
    ensures Accepted([u], bridge) == match bridge(u) case Mapped(mapped) => [mapped] case _ => []
  {
    assert [u][..0] == [];
  }

  /** The runtime processes the first accepted updates, as many as its cap lets through. */
  lemma CapTakesTheFirst(updates: seq<Raw>, cap: nat)
    ensures Capped(updates, cap) <= updates
    ensures |Capped(updates, cap)| == if |updates| <= cap then |updates| else cap
  {
  }
}
