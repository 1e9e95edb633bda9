/** ADM-02 ensure-access: pre-check, issue under a deterministic per-user key, post-check, audit. */
module EnsureAccess {
  import opened Basics
  import opened Subscription
  import opened IssuanceStore
  import opened Issuance
  import opened IssuanceWorld
  import opened IssuanceRevocation
  import opened Access

  datatype EnsureOutcome = EnsureSuccess | EnsureInvalidInput | EnsureDependencyFailure | EnsureDenied

  datatype Remediation = NoopIdentityUnknown | NoopNoActiveSubscription | NoopAccessAlreadyReady | IssuedAccess | FailedSafe

  datatype SubscriptionBucket = UnknownBucket | InactiveBucket | ActiveBucket | ExpiredBucket | CancelledBucket

  datatype ReadinessBucket = NotApplicable | ActiveAccessReady | UnknownReadiness

  datatype NextAction = AskUserToUseStatus | AskUserToUseGetAccess | InvestigateBillingApply | InvestigateIssuance

  datatype Summary = Summary(
    identityKnown: bool,
    subscription: SubscriptionBucket,
    readiness: ReadinessBucket,
    remediation: Remediation,
    next: NextAction)

  datatype EnsureResult = EnsureResult(outcome: EnsureOutcome, summary: Option<Summary>)

  datatype AuditEvent = AuditEvent(bucket: AuditBucket, remediation: Option<Remediation>, readiness: Option<ReadinessBucket>, cid: string)

  datatype AuditBucket =
    | BucketDeniedUnauthorized | BucketDeniedOptInDisabled | BucketInvalidInput | BucketDependencyFailure
    | BucketRemediation(remediation: Remediation)

  /** One ensure-access call: what the ports answer, None standing for an exception. */
  datatype EnsureCall = EnsureCall(
    cid: string,
    allowed: Option<bool>,
    optIn: Option<bool>,
    resolved: Option<Option<string>>,
    snapshot: Option<Option<Snapshot>>,
    preReadFails: bool,
    postReadFails: bool,
    auditFails: bool)

  function EnsureKey(user: string, digest: string -> string): string
  {
    var d := digest("adm02-ensure-access:" + user);
    "adm02-ensure-access:" + (if |d| > 32 then d[..32] else d)
  }

  function EnsureRequest(user: string, cid: string, digest: string -> string): Request
  {
    Request(user, Some(Active), OpIssue, EnsureKey(user, digest), cid, None)
  }

  function SubscriptionBucketOf(snap: Option<Snapshot>): SubscriptionBucket
  {
    if snap.None? then UnknownBucket
    else
      var text := snap.value.stateLabel;
      if text == "active" then ActiveBucket
      else if text == "cancelled" then CancelledBucket
      else if text == "expired" then ExpiredBucket
      else if text in ["inactive", "absent", "not_eligible", "needs_review"] then InactiveBucket
      else UnknownBucket
  }

  predicate MarkedActive(snap: Option<Snapshot>)
  {
    SubscriptionBucketOf(snap) == ActiveBucket
  }

  const UNKNOWN_IDENTITY :=
    EnsureResult(EnsureSuccess, Some(Summary(false, UnknownBucket, NotApplicable, NoopIdentityUnknown, AskUserToUseStatus)))

  const SAFE_FAILURE :=
    EnsureResult(EnsureSuccess, Some(Summary(true, UnknownBucket, UnknownReadiness, FailedSafe, InvestigateIssuance)))

  function NoSubscription(bucket: SubscriptionBucket): EnsureResult
  {
    EnsureResult(EnsureSuccess, Some(Summary(true, bucket, NotApplicable, NoopNoActiveSubscription, InvestigateBillingApply)))
  }

  function AccessIsReady(r: Remediation): EnsureResult
  {
    EnsureResult(EnsureSuccess, Some(Summary(true, ActiveBucket, ActiveAccessReady, r, AskUserToUseGetAccess)))
  }

  function RemediationOf(r: EnsureResult): Option<Remediation>
  {
    if r.summary.Some? then Some(r.summary.value.remediation) else None
  }

  function EventOf(r: EnsureResult, call: EnsureCall): AuditEvent
  {
    AuditEvent(BucketOf(r, call), RemediationOf(r), if r.summary.Some? then Some(r.summary.value.readiness) else None, call.cid)
  }

  function BucketOf(r: EnsureResult, call: EnsureCall): AuditBucket
  {
    match r.outcome
    case EnsureDenied => if call.allowed == Some(false) then BucketDeniedUnauthorized else BucketDeniedOptInDisabled
    case EnsureInvalidInput => BucketInvalidInput
    case EnsureDependencyFailure => BucketDependencyFailure
    case EnsureSuccess => BucketRemediation(if r.summary.Some? then r.summary.value.remediation else FailedSafe)
  }

  /** The result of a call, with the memory and the table it leaves. */
  ghost function HandleEnsure(m: Memory, t: Table, call: EnsureCall, digest: string -> string, c: Circumstances): (EnsureResult, Memory, Table)
  {
    if !ValidCorrelationId(call.cid) then (EnsureResult(EnsureInvalidInput, None), m, t)
    else if call.allowed.None? then (EnsureResult(EnsureDependencyFailure, None), m, t)
    else if !call.allowed.value then (EnsureResult(EnsureDenied, None), m, t)
    else if call.optIn.None? then (EnsureResult(EnsureDependencyFailure, None), m, t)
    else if !call.optIn.value then (EnsureResult(EnsureDenied, None), m, t)
    else if call.resolved.None? then (EnsureResult(EnsureDependencyFailure, None), m, t)
    else if call.resolved.value.None? then (UNKNOWN_IDENTITY, m, t)
    else
      var user := call.resolved.value.value;
      if call.snapshot.None? || call.preReadFails then (SAFE_FAILURE, m, t)
      else if !MarkedActive(call.snapshot.value) then (NoSubscription(SubscriptionBucketOf(call.snapshot.value)), m, t)
      else if HasLiveCurrent(t, user) then (AccessIsReady(NoopAccessAlreadyReady), m, t)
      else
        var o := RunAlone(m, Some(t), c, EnsureRequest(user, call.cid, digest));
        var t' := if o.table.Some? then o.table.value else t;
        if !IsIssueGrant(o.result) || call.postReadFails || !HasLiveCurrent(t', user) then (SAFE_FAILURE, o.mem, t')
        else (AccessIsReady(if o.result.category == Issued then IssuedAccess else NoopAccessAlreadyReady), o.mem, t')
  }

  class Adm02EnsureAccessHandler {
    const service: IssuanceService
    const repository: IssuanceStateRepository
    const digest: string -> string
    var auditAttempts: seq<AuditEvent>

    constructor (service: IssuanceService, repository: IssuanceStateRepository, digest: string -> string)
      requires service.operationalState == repository
      ensures this.service == service && this.repository == repository && this.digest == digest && auditAttempts == []
    {
      this.service, this.repository, this.digest := service, repository, digest;
      auditAttempts := [];
    }

    method AppendSafeAudit(r: EnsureResult, call: EnsureCall)
      modifies this
      ensures auditAttempts == old(auditAttempts) + [EventOf(r, call)]
    {
      auditAttempts := auditAttempts + [EventOf(r, call)];
    }

    /** The mutation adapter: raises (None) unless the service issued or had issued. */
    method EnsureAccessIssued(user: string, cid: string, c: Circumstances) returns (issuedNew: Option<bool>)
      requires service.operationalState == repository
      modifies service, repository
      ensures var o := RunAlone(old(service.Mem()), Some(old(repository.rows)), c, EnsureRequest(user, cid, digest));
              o.mem == service.Mem() && o.table == Some(repository.rows)
              && issuedNew == if IsIssueGrant(o.result) then Some(o.result.category == Issued) else None
    {
      var result := service.Execute(EnsureRequest(user, cid, digest), c);
      if result.category == Issued {
        issuedNew := Some(true);
      } else if result.category == AlreadyIssued {
        issuedNew := Some(false);
      } else {
        issuedNew := None;
      }
    }

    /** Exactly one audit event is attempted per call, and it matches the result. */
    method Handle(call: EnsureCall, c: Circumstances) returns (r: EnsureResult)
      requires service.operationalState == repository
      modifies this, service, repository
      ensures (r, service.Mem(), repository.rows)
           == HandleEnsure(old(service.Mem()), old(repository.rows), call, digest, c)
      ensures auditAttempts == old(auditAttempts) + [EventOf(r, call)]
    {
      r := Decide(call, c);
      AppendSafeAudit(r, call);
    }

    method Decide(call: EnsureCall, c: Circumstances) returns (r: EnsureResult)
      requires service.operationalState == repository
      modifies service, repository
      ensures (r, service.Mem(), repository.rows)
           == HandleEnsure(old(service.Mem()), old(repository.rows), call, digest, c)
    {
      if !ValidCorrelationId(call.cid) {
        return EnsureResult(EnsureInvalidInput, None);
      }
      if call.allowed.None? {
        return EnsureResult(EnsureDependencyFailure, None);
      }
      if !call.allowed.value {
        return EnsureResult(EnsureDenied, None);
      }
      if call.optIn.None? {
        return EnsureResult(EnsureDependencyFailure, None);
      }
      if !call.optIn.value {
        return EnsureResult(EnsureDenied, None);
      }
      if call.resolved.None? {
        return EnsureResult(EnsureDependencyFailure, None);
      }
      if call.resolved.value.None? {
        return UNKNOWN_IDENTITY;
      }
      var user := call.resolved.value.value;
      if call.snapshot.None? || call.preReadFails {
        return SAFE_FAILURE;
      }
      if !MarkedActive(call.snapshot.value) {
        return NoSubscription(SubscriptionBucketOf(call.snapshot.value));
      }
      var pre := repository.GetCurrentForUser(user);
      if pre.Some? && !repository.rows[pre.value].revoked {
        return AccessIsReady(NoopAccessAlreadyReady);
      }
      var issuedNew := EnsureAccessIssued(user, call.cid, c);
      if issuedNew.None? || call.postReadFails {
        return SAFE_FAILURE;
      }
      var post := repository.GetCurrentForUser(user);
      if post.None? || repository.rows[post.value].revoked {
        return SAFE_FAILURE;
      }
      r := AccessIsReady(if issuedNew.value then IssuedAccess else NoopAccessAlreadyReady);
    }
  }

  // ---- Issues once ----

  lemma {:induction false} DriveGrows(turn: Turn, t: Table, c: Circumstances, r: Request)
    ensures var o := Drive(turn, Some(t), c, r); o.table.Some? && Grows(t, o.table.value)
    decreases if turn.Suspend? then 1 + Rank(turn.await) else 0
  {
    if turn.Suspend? {
      var (ans, t') := Serve(turn.await, Some(t), c, r);
      ResumeProgresses(turn.mem, true, r, turn.await, ans);
      ServeGrows(turn.await, t, c, r);
      DriveGrows(Resume(turn.mem, true, r, turn.await, ans), t'.value, c, r);
    }
  }

  lemma ServeGrows(a: Await, t: Table, c: Circumstances, r: Request)
    ensures Grows(t, Serve(a, Some(t), c, r).1.value)
  {
    if a.AwaitIssueOrGet? || a.AwaitMarkRevoked? {
      StatementsGrow(t, Target(r), a.ref, map[], c.now);
    }
  }

  lemma HandleGrows(m: Memory, t: Table, call: EnsureCall, digest: string -> string, c: Circumstances)
    ensures Grows(t, HandleEnsure(m, t, call, digest, c).2)
  {
    HandleWrites(m, t, call, digest, c);
    if call.resolved.Some? && call.resolved.value.Some? {
      var req := EnsureRequest(call.resolved.value.value, call.cid, digest);
      DriveGrows(Begin(m, true, req), t, c, req);
    }
  }

  lemma HandleWrites(m: Memory, t: Table, call: EnsureCall, digest: string -> string, c: Circumstances)
    ensures var t' := HandleEnsure(m, t, call, digest, c).2;
            t' == t || (call.resolved.Some? && call.resolved.value.Some?
                        && RunAlone(m, Some(t), c, EnsureRequest(call.resolved.value.value, call.cid, digest)).table == Some(t'))
  {
  }

  /** ISSUED_ACCESS is only reported by a call that inserted the user's row. */
  lemma ReportMeansInserted(m: Memory, t: Table, call: EnsureCall, digest: string -> string, c: Circumstances, user: string)
    requires ReportsIssued((call, HandleEnsure(m, t, call, digest, c).0), user)
    ensures var lk := LinkKey(user, EnsureKey(user, digest)); lk !in t && lk in HandleEnsure(m, t, call, digest, c).2
  {
    IssuedMeansInserted(m, t, c, EnsureRequest(user, call.cid, digest));
  }

  lemma TimesIssuedAppend(log: seq<(EnsureCall, EnsureResult)>, e: (EnsureCall, EnsureResult), user: string)
    ensures TimesIssued(log + [e], user) == TimesIssued(log, user) + if ReportsIssued(e, user) then 1 else 0
  {
    assert (log + [e])[..|log|] == log;
  }

  /** ISSUED, as opposed to ALREADY_ISSUED, is only ever said when the row was not there before; it is
      there after. */
  lemma IssuedMeansInserted(m: Memory, t: Table, c: Circumstances, r: Request)
    requires RunAlone(m, Some(t), c, r).result.category == Issued
    ensures Target(r) !in t && RunAlone(m, Some(t), c, r).table.Some? && Target(r) in RunAlone(m, Some(t), c, r).table.value
  {
    var lk := Target(r);
    var turn := Begin(m, true, r);
    assert turn.Suspend?;
    DriveUnfolds(m, turn.await, Some(t), c, r);
    if r.op == OpIssue {
      assert turn.await == AwaitFetch;
      assert lk !in t && !c.fetchFails;
      DriveUnfolds(m, AwaitCreate, Some(t), c, r);
      var made := c.provider.create(r.user, r.key, r.correlationId);
      assert made.0 == Success && made.1.Some?;
      DriveUnfolds(m, AwaitIssueOrGet(made.1.value), Some(t), c, r);
    } else {
      NeverIssued(turn, t, c, r);
    }
  }

  lemma {:induction false} NeverIssued(turn: Turn, t: Table, c: Circumstances, r: Request)
    requires r.op != OpIssue
    requires match turn
             case Suspend(_, a) => !a.AwaitCreate? && !a.AwaitIssueOrGet?
             case Reply(_, res) => res.category != Issued
    ensures Drive(turn, Some(t), c, r).result.category != Issued
    decreases if turn.Suspend? then 1 + Rank(turn.await) else 0
  {
    if turn.Suspend? {
      var (ans, t') := Serve(turn.await, Some(t), c, r);
      ResumeProgresses(turn.mem, true, r, turn.await, ans);
      NeverIssued(Resume(turn.mem, true, r, turn.await, ans), t'.value, c, r);
    }
  }

  datatype EnsureAct = Call(call: EnsureCall, c: Circumstances) | ServiceRestart | Elsewhere(st: Statement)

  datatype EnsureState = EnsureState(mem: Memory, rows: Table, log: seq<(EnsureCall, EnsureResult)>)

  ghost function PerformEnsure(s: EnsureState, a: EnsureAct, digest: string -> string): EnsureState
  {
    match a
    case Call(call, c) =>
      var (r, m, t) := HandleEnsure(s.mem, s.rows, call, digest, c);
      EnsureState(m, t, s.log + [(call, r)])
    case ServiceRestart => s.(mem := EMPTY_MEMORY)
    case Elsewhere(st) => s.(rows := Execute(Tally(s.rows, 0, 0), st).table)
  }

  ghost function PerformEnsures(s: EnsureState, acts: seq<EnsureAct>, digest: string -> string): EnsureState
    decreases |acts|
  {
    if acts == [] then s else PerformEnsures(PerformEnsure(s, acts[0], digest), acts[1..], digest)
  }

  predicate ReportsIssued(e: (EnsureCall, EnsureResult), user: string)
  {
    RemediationOf(e.1) == Some(IssuedAccess) && e.0.resolved == Some(Some(user))
  }

  function TimesIssued(log: seq<(EnsureCall, EnsureResult)>, user: string): nat
  {
    if log == [] then 0
    else TimesIssued(log[..|log| - 1], user) + (if ReportsIssued(log[|log| - 1], user) then 1 else 0)
  }

  /** The budget: a user's row, once there, leaves nothing to report. */
  ghost predicate WithinBudget(s: EnsureState, user: string, digest: string -> string)
  {
    TimesIssued(s.log, user) <= if LinkKey(user, EnsureKey(user, digest)) in s.rows then 1 else 0
  }

  lemma EnsureCallKeepsBudget(s: EnsureState, call: EnsureCall, c: Circumstances, digest: string -> string, user: string)
    requires WithinBudget(s, user, digest)
    ensures WithinBudget(PerformEnsure(s, Call(call, c), digest), user, digest)
  {
    var r := HandleEnsure(s.mem, s.rows, call, digest, c).0;
    TimesIssuedAppend(s.log, (call, r), user);
    HandleGrows(s.mem, s.rows, call, digest, c);
    if ReportsIssued((call, r), user) {
      ReportMeansInserted(s.mem, s.rows, call, digest, c, user);
    }
  }

  /** Over any sequential run of ensure-access calls, with restarts, store faults, any provider, and
      revokes and issues from elsewhere, at most one call per user reports ISSUED_ACCESS. */
  lemma {:induction false} EnsureAccessIssuesOnce(s: EnsureState, acts: seq<EnsureAct>, digest: string -> string, user: string)
    requires WithinBudget(s, user, digest)
    ensures TimesIssued(PerformEnsures(s, acts, digest).log, user) <= 1
    decreases |acts|
  {
    if acts != [] {
      match acts[0] {
        case Call(call, c) => EnsureCallKeepsBudget(s, call, c, digest, user);
        case ServiceRestart =>
        case Elsewhere(st) => OtherWritersGrow(s.rows, st);
      }
      EnsureAccessIssuesOnce(PerformEnsure(s, acts[0], digest), acts[1..], digest, user);
    }
  }

  /** Ensure-access looks at the label only. When it reports access as ready, UC-02 agrees if and only
      if the subscription's end has not passed; otherwise UC-02 says SUBSCRIPTION_EXPIRED. */
  lemma ReportedReadyAgainstStatus(m: Memory, t: Table, call: EnsureCall, digest: string -> string, c: Circumstances,
                                   ids: Identities, snaps: Snapshots, tg: int, now: int)
    requires tg in ids && ValidTelegramId(tg) && call.resolved == Some(Some(ids[tg]))
    requires call.snapshot == Some(SnapshotOf(snaps, ids[tg]))
    requires RemediationOf(HandleEnsure(m, t, call, digest, c).0) in {Some(IssuedAccess), Some(NoopAccessAlreadyReady)}
    ensures var t' := HandleEnsure(m, t, call, digest, c).2;
            StatusAt(ids, snaps, Some(t'), tg, call.cid, now, CALM)
            == if snaps[ids[tg]].activeUntil.Some? && now > snaps[ids[tg]].activeUntil.value
               then SubscriptionExpired else AccessReady
  {
  }

  /** It happens: an "active" snapshot whose end has passed and one live row. */
  lemma ExpiredIsReportedReady(m: Memory, user: string, key: string, row: Row, call: EnsureCall, digest: string -> string,
                                                  c: Circumstances, tg: int, end: int, now: int)
    requires ValidTelegramId(tg) && ValidCorrelationId(call.cid) && !row.revoked && end < now
    requires call.allowed == call.optIn == Some(true) && call.resolved == Some(Some(user)) && !call.preReadFails
    requires call.snapshot == Some(Some(Snapshot("active", Some(end))))
    ensures var t := map[LinkKey(user, key) := row];
            RemediationOf(HandleEnsure(m, t, call, digest, c).0) == Some(NoopAccessAlreadyReady)
            && StatusAt(map[tg := user], map[user := Snapshot("active", Some(end))], Some(t), tg, call.cid, now, CALM)
               == SubscriptionExpired
  {
    var t := map[LinkKey(user, key) := row];
    LexTotal(key, key);
    assert IsCurrent(t, user, LinkKey(user, key));
    CurrentIsUnique(t, user, LinkKey(user, key), Current(t, user).value);
  }

  // ---- A revoked key ----

  /** A call that gets as far as looking at the user's issuance. */
  predicate Reaches(call: EnsureCall, user: string)
  {
    ValidCorrelationId(call.cid) && call.allowed == call.optIn == Some(true) && call.resolved == Some(Some(user))
    && call.snapshot.Some? && MarkedActive(call.snapshot.value) && !call.preReadFails
  }

  /** An issue whose row is there changes no row. */
  lemma IssueOnRowKeepsTable(m: Memory, t: Table, c: Circumstances, r: Request)
    requires r.op == OpIssue && Target(r) in t
    ensures RunAlone(m, Some(t), c, r).table == Some(t) && RunAlone(m, Some(t), c, r).result.category != Issued
  {
    if Begin(m, true, r).Suspend? {
      DriveUnfolds(m, AwaitFetch, Some(t), c, r);
    }
  }

  /** Once the user's deterministic row is revoked, a call that reaches issuance says access is ready if
      another current row is live, and otherwise fails safe; it changes no row either way. */
  lemma RevokedKeyFailsSafe(m: Memory, t: Table, call: EnsureCall, digest: string -> string, c: Circumstances, user: string)
    requires Reaches(call, user)
    requires LinkKey(user, EnsureKey(user, digest)) in t && t[LinkKey(user, EnsureKey(user, digest))].revoked
    ensures var (r, _, t') := HandleEnsure(m, t, call, digest, c);
            t' == t && r == if HasLiveCurrent(t, user) then AccessIsReady(NoopAccessAlreadyReady) else SAFE_FAILURE
  {
    IssueOnRowKeepsTable(m, t, c, EnsureRequest(user, call.cid, digest));
  }

  /** From then on, over any further calls, restarts and outside writers, no call for the user reports
      ISSUED_ACCESS, whatever has been paid since. */
  lemma {:induction false} RevokedKeyNeverIssuesAgain(s: EnsureState, acts: seq<EnsureAct>, digest: string -> string, user: string)
    requires LinkKey(user, EnsureKey(user, digest)) in s.rows && s.rows[LinkKey(user, EnsureKey(user, digest))].revoked
    ensures var s' := PerformEnsures(s, acts, digest);
            TimesIssued(s'.log, user) == TimesIssued(s.log, user)
            && LinkKey(user, EnsureKey(user, digest)) in s'.rows && s'.rows[LinkKey(user, EnsureKey(user, digest))].revoked
    decreases |acts|
  {
    if acts != [] {
      match acts[0] {
        case Call(call, c) => RevokedKeyCall(s, call, c, digest, user);
        case ServiceRestart =>
        case Elsewhere(st) => OtherWritersGrow(s.rows, st);
      }
      RevokedKeyNeverIssuesAgain(PerformEnsure(s, acts[0], digest), acts[1..], digest, user);
    }
  }

  lemma RevokedKeyCall(s: EnsureState, call: EnsureCall, c: Circumstances, digest: string -> string, user: string)
    requires LinkKey(user, EnsureKey(user, digest)) in s.rows && s.rows[LinkKey(user, EnsureKey(user, digest))].revoked
    ensures var s' := PerformEnsure(s, Call(call, c), digest);
            TimesIssued(s'.log, user) == TimesIssued(s.log, user) && Grows(s.rows, s'.rows)
  {
    var r := HandleEnsure(s.mem, s.rows, call, digest, c).0;
    TimesIssuedAppend(s.log, (call, r), user);
    HandleGrows(s.mem, s.rows, call, digest, c);
    if ReportsIssued((call, r), user) {
      ReportMeansInserted(s.mem, s.rows, call, digest, c, user);
    }
  }
}
