/** What ensure-access answers, and when it writes, in terms of what its ports say. */
module EnsureAnswers {
  import opened Basics
  import opened Subscription
  import opened IssuanceStore
  import opened Issuance
  import opened IssuanceWorld
  import opened IssuanceEntitlement
  import opened Access
  import opened AccessAnswers
  import opened EnsureAccess

  /** A caller who is not on the allowlist, or an operator without the opt-in, is denied and nothing is
      written; so it is for a bad correlation id, and when a port raises before the user is known. */
  lemma DeniedWritesNothing(m: Memory, t: Table, call: EnsureCall, digest: string -> string, c: Circumstances)
    ensures var (r, m', t') := HandleEnsure(m, t, call, digest, c);
            if !IsHex32(call.cid) then r == EnsureResult(EnsureInvalidInput, None) && m' == m && t' == t
            else if call.allowed == Some(false) || (call.allowed == Some(true) && call.optIn == Some(false)) then
              r == EnsureResult(EnsureDenied, None) && m' == m && t' == t
            else if call.allowed == None || call.optIn == None || call.resolved == None then
              r == EnsureResult(EnsureDependencyFailure, None) && m' == m && t' == t
            else r.outcome == EnsureSuccess && r.summary.Some?
  {
    HexIsValid(call.cid);
  }

  /** The call may mutate: everyone agrees, the user is known and marked active, and no live row is current. */
  ghost predicate MayIssue(t: Table, call: EnsureCall)
  {
    IsHex32(call.cid) && call.allowed == Some(true) && call.optIn == Some(true)
    && call.resolved.Some? && call.resolved.value.Some?
    && call.snapshot.Some? && call.snapshot.value.Some? && call.snapshot.value.value.stateLabel == "active" && !call.preReadFails
    && !LatestIsLive(t, call.resolved.value.value)
  }

  /** Unless the call may issue it writes nothing. */
  lemma WritesOnlyWhenItMayIssue(m: Memory, t: Table, call: EnsureCall, digest: string -> string, c: Circumstances)
    requires !MayIssue(t, call)
    ensures var (r, m', t') := HandleEnsure(m, t, call, digest, c); m' == m && t' == t
  {
    HexIsValid(call.cid);
    if call.resolved.Some? && call.resolved.value.Some? {
      LiveCurrentIsLatest(t, call.resolved.value.value);
    }
  }

  /** Of an allowed call for a known user: a failed read fails safe, a label other than "active" means no
      active subscription and says which bucket, and a live current row means that access is ready. */
  lemma AnswersWithoutIssuing(m: Memory, t: Table, call: EnsureCall, digest: string -> string, c: Circumstances, user: string, text: string)
    requires IsHex32(call.cid) && call.allowed == Some(true) && call.optIn == Some(true) && call.resolved == Some(Some(user))
    requires call.snapshot.Some? && call.snapshot.value.Some? ==> call.snapshot.value.value.stateLabel == text
    ensures HandleEnsure(m, t, call, digest, c).0.summary.Some?
    ensures var s := HandleEnsure(m, t, call, digest, c).0.summary.value;
            if call.snapshot == None || call.preReadFails then
              s == Summary(true, UnknownBucket, UnknownReadiness, FailedSafe, InvestigateIssuance)
            else if call.snapshot == Some(None) then
              s == Summary(true, UnknownBucket, NotApplicable, NoopNoActiveSubscription, InvestigateBillingApply)
            else if text != "active" then
              s == Summary(true, if text == "cancelled" then CancelledBucket else if text == "expired" then ExpiredBucket
                                 else if text == "inactive" || text == "absent" || text == "not_eligible" || text == "needs_review"
                                 then InactiveBucket else UnknownBucket,
                           NotApplicable, NoopNoActiveSubscription, InvestigateBillingApply)
            else
              LatestIsLive(t, user) ==>
                s == Summary(true, ActiveBucket, ActiveAccessReady, NoopAccessAlreadyReady, AskUserToUseGetAccess)
  {
    HexIsValid(call.cid);
    LiveCurrentIsLatest(t, user);
  }

  /** An unknown user is told to ask for status, and nothing is written. */
  lemma UnknownUserIsTold(m: Memory, t: Table, call: EnsureCall, digest: string -> string, c: Circumstances)
    requires IsHex32(call.cid) && call.allowed == Some(true) && call.optIn == Some(true) && call.resolved == Some(None)
    ensures HandleEnsure(m, t, call, digest, c)
         == (EnsureResult(EnsureSuccess, Some(Summary(false, UnknownBucket, NotApplicable, NoopIdentityUnknown, AskUserToUseStatus))), m, t)
  {
    HexIsValid(call.cid);
  }

  /** Of a paid user without any row, a freshly started service and a provider that makes a reference: the
      call issues exactly once, and reports it unless a fault hides that; otherwise it fails safe. */
  lemma FirstEnsureIssues(t: Table, call: EnsureCall, digest: string -> string, c: Circumstances, user: string, made: string)
    requires MayIssue(t, call) && call.resolved == Some(Some(user)) && forall lk :: lk in t ==> lk.user != user
    requires c.provider.create(user, EnsureKey(user, digest), call.cid) == (Success, Some(made)) && made != ""
    ensures var (r, _, t') := HandleEnsure(EMPTY_MEMORY, t, call, digest, c);
            var lk := LinkKey(user, EnsureKey(user, digest));
            t' == (if c.fetchFails || c.persistFault == BeforeCommit then t else t[lk := Row(false, made, c.now, c.now, None)])
            && r == (if !c.fetchFails && c.persistFault == NoFault && !call.postReadFails
                     then EnsureResult(EnsureSuccess, Some(Summary(true, ActiveBucket, ActiveAccessReady, IssuedAccess, AskUserToUseGetAccess)))
                     else EnsureResult(EnsureSuccess, Some(Summary(true, UnknownBucket, UnknownReadiness, FailedSafe, InvestigateIssuance))))
  {
    var req := EnsureRequest(user, call.cid, digest);
    var lk := LinkKey(user, EnsureKey(user, digest));
    HexIsValid(call.cid);
    LiveCurrentIsLatest(t, user);
    FirstEnsureRuns(t, call.cid, digest, c, user, made);
    OnlyRowIsLatest(t, lk, Row(false, made, c.now, c.now, None));
    LiveCurrentIsLatest(t[lk := Row(false, made, c.now, c.now, None)], user);
  }

  lemma FirstEnsureRuns(t: Table, cid: string, digest: string -> string, c: Circumstances, user: string, made: string)
    requires ValidCorrelationId(cid) && LinkKey(user, EnsureKey(user, digest)) !in t
    requires c.provider.create(user, EnsureKey(user, digest), cid) == (Success, Some(made)) && made != ""
    ensures var o := RunAlone(EMPTY_MEMORY, Some(t), c, EnsureRequest(user, cid, digest));
            var lk := LinkKey(user, EnsureKey(user, digest));
            o.table == Some(if c.fetchFails || c.persistFault == BeforeCommit then t else t[lk := Row(false, made, c.now, c.now, None)])
            && o.result.category == if !c.fetchFails && c.persistFault == NoFault then Issued else InternalError
  {
    KeyIsNotEmpty(user, digest);
    FirstIssue(t, c, EnsureRequest(user, cid, digest));
  }

  lemma KeyIsNotEmpty(user: string, digest: string -> string)
    ensures EnsureKey(user, digest) != ""
  {
    assert |"adm02-ensure-access:"| > 0;
  }

  lemma OnlyRowIsLatest(t: Table, lk: LinkKey, row: Row)
    requires forall other :: other in t ==> other.user != lk.user
    ensures IsLatest(t[lk := row], lk.user, lk)
  {
  }

  /** The audit bucket of each outcome; a denial says which of the two refused. */
  lemma AuditSays(r: EnsureResult, call: EnsureCall)
    ensures var e := EventOf(r, call);
            e.cid == call.cid
            && (r.outcome == EnsureDenied ==>
                  e.bucket == if call.allowed == Some(false) then BucketDeniedUnauthorized else BucketDeniedOptInDisabled)
            && (r.outcome == EnsureInvalidInput ==> e.bucket == BucketInvalidInput)
            && (r.outcome == EnsureDependencyFailure ==> e.bucket == BucketDependencyFailure)
            && (r.outcome == EnsureSuccess && r.summary.Some? ==>
                  e == AuditEvent(BucketRemediation(r.summary.value.remediation), Some(r.summary.value.remediation),
                                  Some(r.summary.value.readiness), call.cid))
  {
  }

  /** Where the digest has 32 characters or more, users share an ensure-access key exactly if the first 32
      characters of their digests agree; the correlation id has no part in it. */
  lemma EnsureKeysAgreeExactlyWhen(user: string, other: string, digest: string -> string)
    requires |digest("adm02-ensure-access:" + user)| >= 32 && |digest("adm02-ensure-access:" + other)| >= 32
    ensures EnsureKey(user, digest) == EnsureKey(other, digest)
            <==> digest("adm02-ensure-access:" + user)[..32] == digest("adm02-ensure-access:" + other)[..32]
    ensures EnsureKey(user, digest) == "adm02-ensure-access:" + digest("adm02-ensure-access:" + user)[..32]
  {
    KeyEndsInDigest(user, digest);
    KeyEndsInDigest(other, digest);
    SamePrefix("adm02-ensure-access:", digest("adm02-ensure-access:" + user)[..32], digest("adm02-ensure-access:" + other)[..32]);
  }

  lemma KeyEndsInDigest(user: string, digest: string -> string)
    requires |digest("adm02-ensure-access:" + user)| >= 32
    ensures EnsureKey(user, digest) == "adm02-ensure-access:" + digest("adm02-ensure-access:" + user)[..32]
  {
    var d := digest("adm02-ensure-access:" + user);
    assert |d| == 32 ==> d[..32] == d;
  }

  lemma SamePrefix(p: string, x: string, y: string)
    ensures p + x == p + y <==> x == y
  {
    if p + x == p + y {
      PrefixCancels(p, x, y);
    }
  }
}
