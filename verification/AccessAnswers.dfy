/** What UC-02 status and the resend answer, in terms of the stored data, the clock and the cooldown a
    resend leaves behind. */
module AccessAnswers {
  import opened Basics
  import opened Subscription
  import opened IssuanceStore
  import opened Issuance
  import opened IssuanceWorld
  import opened IssuanceEntitlement
  import opened Access

  // ---- Status ----

  /** Paid up: the stored label is active and its end, if there is one, has not passed. */
  predicate PaidUp(snaps: Snapshots, user: string, now: int)
  {
    user in snaps && snaps[user].stateLabel == "active"
    && (snaps[user].activeUntil.Some? ==> now <= snaps[user].activeUntil.value)
  }

  /** With working reads, a known user is shown what the label, its end and the user's last-updated row say;
      ACCESS_READY needs all three. */
  lemma StatusSays(ids: Identities, snaps: Snapshots, t: Table, tg: int, cid: string, now: int)
    requires 0 < tg < 0x8000_0000_0000_0000 && IsHex32(cid) && tg in ids
    ensures var user := ids[tg];
            var shown := StatusAt(ids, snaps, Some(t), tg, cid, now, CALM);
            if PaidUp(snaps, user, now) then
              shown == if LatestIsLive(t, user) then AccessReady else AccessNotReady
            else if user in snaps && snaps[user].stateLabel == "active" then shown == SubscriptionExpired
            else if user in snaps && snaps[user].stateLabel == "needs_review" then shown == StatusNeedsReview
            else shown == InactiveOrNotEligible
  {
    HexIsValid(cid);
    LiveCurrentIsLatest(t, ids[tg]);
  }

  /** A rejected input or a failed read shows the inactive bucket, an unknown user is sent to bootstrap, and
      whoever is not paid up is never shown as active. */
  lemma StatusFailsClosed(ids: Identities, snaps: Snapshots, rows: Option<Table>, tg: int, cid: string, now: int, faults: Reads)
    ensures var shown := StatusAt(ids, snaps, rows, tg, cid, now, faults);
            if !(0 < tg < 0x8000_0000_0000_0000) || !IsHex32(cid) || faults.identityFails then shown == InactiveOrNotEligible
            else if tg !in ids then shown == NeedsBootstrap
            else if faults.snapshotFails then shown == InactiveOrNotEligible
            else if PaidUp(snaps, ids[tg], now) then
              (rows.None? ==> shown == AccessNotReady) && (rows.Some? && faults.lookupFails ==> shown == InactiveOrNotEligible)
            else shown !in {AccessReady, AccessNotReady, SubscriptionActive}
  {
    HexIsValid(cid);
  }

  /** The user's row with the largest update time, ties going to the last key in text order. */
  ghost predicate IsLatest(t: Table, user: string, lk: LinkKey)
  {
    lk in t && lk.user == user
    && forall other :: other in t && other.user == user ==>
         t[other].updatedAt < t[lk].updatedAt || (t[other].updatedAt == t[lk].updatedAt && InTextOrder(other.key, lk.key))
  }

  ghost predicate LatestIsLive(t: Table, user: string)
  {
    exists lk :: IsLatest(t, user, lk) && !t[lk].revoked
  }

  lemma CurrentIsLatest(t: Table, user: string, lk: LinkKey)
    ensures IsLatest(t, user, lk) <==> Current(t, user) == Some(lk)
  {
    if IsLatest(t, user, lk) || IsCurrent(t, user, lk) {
      forall other | other in t && other.user == user
        ensures NotAfter(t, other, lk)
                <==> t[other].updatedAt < t[lk].updatedAt
                     || (t[other].updatedAt == t[lk].updatedAt && InTextOrder(other.key, lk.key)) {
        LexIsTextOrder(other.key, lk.key);
      }
      assert IsCurrent(t, user, lk);
      CurrentIsUnique(t, user, lk, Current(t, user).value);
    }
  }

  lemma LiveCurrentIsLatest(t: Table, user: string)
    ensures HasLiveCurrent(t, user) <==> LatestIsLive(t, user)
  {
    if Current(t, user).Some? {
      CurrentIsLatest(t, user, Current(t, user).value);
    }
    forall lk | IsLatest(t, user, lk) ensures Current(t, user) == Some(lk) {
      CurrentIsLatest(t, user, lk);
    }
  }

  // ---- What a resend does with the cooldown ----

  datatype ResendEvent =
    | Attempt(ids: Identities, snaps: Snapshots, inp: ResendInput, nowSeconds: real, now: int, faults: Reads, c: Circumstances)
    | Elsewhere(mem: Memory, rows: Table)  // anything else that uses the service or the table

  ghost function Handled(s: ResendState, e: ResendEvent, cooldown: real): (ResendOutcome, ResendState)
    requires e.Attempt?
  {
    HandleResend(e.ids, e.snaps, s, cooldown, e.inp, e.nowSeconds, e.now, e.faults, e.c)
  }

  ghost function Next(s: ResendState, e: ResendEvent, cooldown: real): ResendState
  {
    match e
    case Attempt(_, _, _, _, _, _, _) => Handled(s, e, cooldown).1
    case Elsewhere(m, t) => s.(mem := m, rows := t)
  }

  ghost function After(s: ResendState, es: seq<ResendEvent>, cooldown: real): ResendState
    decreases |es|
  {
    if es == [] then s else After(Next(s, es[0], cooldown), es[1..], cooldown)
  }

  predicate Names(e: ResendEvent, user: string)
  {
    e.Attempt? && e.inp.telegramId in e.ids && e.ids[e.inp.telegramId] == user
  }

  /** The call reaches the cooldown: its reads work and its user is known and paid up. */
  predicate Eligible(e: ResendEvent, user: string)
  {
    Names(e, user) && IsHex32(e.inp.cid) && !e.faults.identityFails && !e.faults.snapshotFails
    && PaidUp(e.snaps, user, e.now)
  }

  predicate OnCooldown(s: ResendState, user: string, nowSeconds: real)
  {
    user in s.nextAllowed && nowSeconds < s.nextAllowed[user]
  }

  /** COOLDOWN is said exactly to an eligible call before the user's next allowed time, and changes nothing.
      Any other eligible call moves the next allowed time, and no other's, to a cooldown from now; a call that
      is not eligible moves none. */
  lemma ResendConsumesExactlyWhen(s: ResendState, e: ResendEvent, cooldown: real, user: string)
    requires Names(e, user)
    ensures var (outcome, s') := Handled(s, e, cooldown);
            if !Eligible(e, user) then
              s'.nextAllowed == s.nextAllowed && outcome in {TemporarilyUnavailable, Raised, NotEligibleForResend}
            else if OnCooldown(s, user, e.nowSeconds) then outcome == Cooldown && s' == s
            else outcome != Cooldown && s'.nextAllowed == s.nextAllowed[user := e.nowSeconds + cooldown]
  {
    HexIsValid(e.inp.cid);
  }

  lemma UnknownCallerLeavesAll(s: ResendState, e: ResendEvent, cooldown: real)
    requires e.Attempt? && e.inp.telegramId !in e.ids
    ensures var (outcome, s') := Handled(s, e, cooldown);
            s' == s && outcome in {TemporarilyUnavailable, Raised, NotEligibleForResend}
  {
  }

  /** What one event means for one user's next allowed time. */
  lemma NextAllowedMoves(s: ResendState, e: ResendEvent, cooldown: real, user: string)
    ensures var s' := Next(s, e, cooldown);
            if Eligible(e, user) && !OnCooldown(s, user, e.nowSeconds) then
              user in s'.nextAllowed && s'.nextAllowed[user] == e.nowSeconds + cooldown
            else (user in s'.nextAllowed <==> user in s.nextAllowed)
                 && (user in s.nextAllowed ==> s'.nextAllowed[user] == s.nextAllowed[user])
  {
    if e.Attempt? {
      if e.inp.telegramId in e.ids {
        ResendConsumesExactlyWhen(s, e, cooldown, e.ids[e.inp.telegramId]);
      } else {
        UnknownCallerLeavesAll(s, e, cooldown);
      }
    }
  }

  /** No run brings a user's next allowed time forward. */
  lemma {:induction false} NextAllowedNeverFalls(s: ResendState, es: seq<ResendEvent>, cooldown: real, user: string)
    requires cooldown >= 0.0 && user in s.nextAllowed
    ensures var s' := After(s, es, cooldown); user in s'.nextAllowed && s'.nextAllowed[user] >= s.nextAllowed[user]
    decreases |es|
  {
    if es != [] {
      NextAllowedMoves(s, es[0], cooldown, user);
      NextAllowedNeverFalls(Next(s, es[0], cooldown), es[1..], cooldown, user);
    }
  }

  /** After a call that got past the cooldown, and whatever happens in between, an eligible call by the same
      user less than a cooldown later is told COOLDOWN and changes nothing. */
  lemma RepeatIsToldCooldown(s: ResendState, e: ResendEvent, es: seq<ResendEvent>, again: ResendEvent, cooldown: real, user: string)
    requires cooldown >= 0.0 && Eligible(e, user) && !OnCooldown(s, user, e.nowSeconds)
    requires Eligible(again, user) && again.nowSeconds < e.nowSeconds + cooldown
    ensures var s' := After(s, [e] + es, cooldown); Handled(s', again, cooldown) == (Cooldown, s')
  {
    assert ([e] + es)[1..] == es;
    NextAllowedMoves(s, e, cooldown, user);
    NextAllowedNeverFalls(Next(s, e, cooldown), es, cooldown, user);
    ResendConsumesExactlyWhen(After(s, [e] + es, cooldown), again, cooldown, user);
  }

  /** When a user's calls are answered RESEND_ACCEPTED. */
  ghost function AcceptedAt(s: ResendState, es: seq<ResendEvent>, cooldown: real, user: string): seq<real>
    decreases |es|
  {
    if es == [] then []
    else (if Names(es[0], user) && Handled(s, es[0], cooldown).0 == ResendAccepted then [es[0].nowSeconds] else [])
         + AcceptedAt(Next(s, es[0], cooldown), es[1..], cooldown, user)
  }

  predicate Spaced(a: seq<real>, gap: real)
  {
    forall i :: 0 <= i < |a| - 1 ==> a[i + 1] >= a[i] + gap
  }

  /** Whatever the others do, whatever fails, and for any clock, even one that steps back, one user's
      accepted resends are a cooldown apart, the first of them not before the next allowed time. */
  lemma {:induction false} ResendsAreSpaced(s: ResendState, es: seq<ResendEvent>, cooldown: real, user: string)
    requires cooldown >= 0.0
    ensures var a := AcceptedAt(s, es, cooldown, user);
            Spaced(a, cooldown) && (a != [] && user in s.nextAllowed ==> a[0] >= s.nextAllowed[user])
    decreases |es|
  {
    if es != [] {
      var s' := Next(s, es[0], cooldown);
      NextAllowedMoves(s, es[0], cooldown, user);
      ResendsAreSpaced(s', es[1..], cooldown, user);
      if Names(es[0], user) && Handled(s, es[0], cooldown).0 == ResendAccepted {
        ResendConsumesExactlyWhen(s, es[0], cooldown, user);
        SpacedAfter(es[0].nowSeconds, AcceptedAt(s', es[1..], cooldown, user), cooldown);
      } else {
        NotFallen(s, es[0], cooldown, user);
        assert AcceptedAt(s, es, cooldown, user) == AcceptedAt(s', es[1..], cooldown, user);
      }
    }
  }

  lemma NotFallen(s: ResendState, e: ResendEvent, cooldown: real, user: string)
    requires cooldown >= 0.0
    ensures user in s.nextAllowed ==>
              user in Next(s, e, cooldown).nextAllowed && Next(s, e, cooldown).nextAllowed[user] >= s.nextAllowed[user]
  {
    NextAllowedMoves(s, e, cooldown, user);
  }

  lemma SpacedAfter(first: real, rest: seq<real>, gap: real)
    requires Spaced(rest, gap) && (rest != [] ==> rest[0] >= first + gap)
    ensures Spaced([first] + rest, gap)
  {
  }

  // ---- What an eligible resend delivers ----

  /** Off the cooldown, with a service freshly started: no live current row is NOT_READY; a live one is
      accepted exactly when the provider hands out instructions for its ref, and the rows stay as they are. */
  lemma EligibleResendSays(s: ResendState, e: ResendEvent, cooldown: real, user: string, lk: LinkKey)
    requires Eligible(e, user) && !OnCooldown(s, user, e.nowSeconds) && !e.faults.lookupFails && s.mem == EMPTY_MEMORY
    requires IsLatest(s.rows, user, lk) && lk.key != ""
    ensures var (outcome, s') := Handled(s, e, cooldown);
            s'.rows == s.rows
            && if s.rows[lk].revoked then outcome == NotReady
               else if e.c.fetchFails then outcome == TemporarilyUnavailable
               else
                 match e.c.provider.instruct(user, s.rows[lk].ref, e.inp.cid)
                 case (Success, Some(text)) => outcome == if text != "" then ResendAccepted else NotReady
                 case (Unavailable, _) => outcome == TemporarilyUnavailable
                 case (Rejected, _) => outcome == TemporarilyUnavailable
                 case _ => outcome == NotReady
  {
    HexIsValid(e.inp.cid);
    CurrentIsLatest(s.rows, user, lk);
    var r := ResendRequest(user, e.inp, lk.key);
    assert LinkKey(user, lk.key) == lk;
    FirstResend(s.rows, e.c, r);
  }

  /** An expired subscriber is refused and, if everything works, loses the live current row; nothing else
      changes. */
  lemma ExpiredResendRevokes(s: ResendState, e: ResendEvent, cooldown: real, user: string, lk: LinkKey)
    requires Names(e, user) && IsHex32(e.inp.cid) && e.faults == CALM && e.c.persistFault == NoFault
    requires user in e.snaps && e.snaps[user].stateLabel == "active" && !PaidUp(e.snaps, user, e.now)
    requires IsLatest(s.rows, user, lk)
    ensures var (outcome, s') := Handled(s, e, cooldown);
            outcome == NotEligibleForResend && s' == s.(rows := s'.rows) && s'.rows.Keys == s.rows.Keys
            && s'.rows[lk].revoked && s'.rows[lk].ref == s.rows[lk].ref
            && (s.rows[lk].revoked ==> s'.rows == s.rows)
            && forall other :: other in s.rows && other != lk ==> s'.rows[other] == s.rows[other]
  {
    HexIsValid(e.inp.cid);
    CurrentIsLatest(s.rows, user, lk);
  }

  // ---- Resend keys ----

  lemma {:induction false} DigitsHoldNoColon(n: nat)
    ensures ':' !in Digits(n)
    decreases n
  {
    if n >= 10 {
      DigitsHoldNoColon(n / 10);
    }
  }

  lemma SignedHoldsNoColon(n: int)
    ensures ':' !in Signed(n)
  {
    DigitsHoldNoColon(if n < 0 then -n else n);
  }

  lemma SplitAtColon(a: string, b: string, a': string, b': string)
    requires ':' !in a && ':' !in a' && a + ":" + b == a' + ":" + b'
    ensures a == a' && b == b'
  {
    var s := a + ":" + b;
    assert s[|a|] == ':' && s[|a'|] == ':';
    assert forall i :: 0 <= i < |a| ==> s[i] == a[i];
    assert forall i :: 0 <= i < |a'| ==> s[i] == a'[i];
    assert |a| == |a'|;
    assert s[..|a|] == a && s[..|a'|] == a' && s[|a| + 1..] == b && s[|a'| + 1..] == b';
  }

  lemma PrefixCancels(p: string, x: string, y: string)
    requires p + x == p + y
    ensures x == y
  {
    assert (p + x)[|p|..] == x && (p + y)[|p|..] == y;
  }

  /** Two resends share an idempotency key only if they are the same user's same update. */
  lemma ResendKeysAreUnique(tg: int, update: int, tg': int, update': int)
    requires ResendKey(tg, update) == ResendKey(tg', update')
    ensures tg == tg' && update == update'
  {
    assert ResendKey(tg, update) == "tg-resend:" + (Signed(tg) + ":" + Signed(update));
    assert ResendKey(tg', update') == "tg-resend:" + (Signed(tg') + ":" + Signed(update'));
    PrefixCancels("tg-resend:", Signed(tg) + ":" + Signed(update), Signed(tg') + ":" + Signed(update'));
    SignedHoldsNoColon(tg);
    SignedHoldsNoColon(tg');
    SplitAtColon(Signed(tg), Signed(update), Signed(tg'), Signed(update'));
    SignedIsUnique(tg, tg');
    SignedIsUnique(update, update');
  }
}
