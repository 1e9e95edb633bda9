/** Who is given access: what the requests, replies and tables of the issuance service say about the
    subscription state they were made under. */
module IssuanceEntitlement {
  import opened Basics
  import opened Subscription
  import opened IssuanceStore
  import opened Issuance
  import opened IssuanceWorld
  import opened IssuanceRevocation

  // ---- Only an active subscription is granted anything ----

  predicate RevokeAwait(a: Await)
  {
    a.AwaitFetch? || a.AwaitRevokeAccess? || a.AwaitMarkRevoked?
  }

  /** Either the request is an active subscriber's, or it is a revoke under way, or it grants nothing. */
  predicate Entitled(turn: Turn, r: Request)
  {
    r.state == Some(Active)
    || match turn
       case Suspend(_, a) => r.op == OpRevoke && RevokeAwait(a)
       case Reply(_, res) => !IsGrant(res)
  }

  lemma BeginIsEntitled(m: Memory, durable: bool, r: Request)
    ensures Entitled(Begin(m, durable, r), r)
  {
  }

  lemma ResumeIsEntitled(m: Memory, durable: bool, r: Request, a: Await, ans: Answer)
    requires Fits(a, ans) && Entitled(Suspend(m, a), r)
    ensures Entitled(Resume(m, durable, r, a, ans), r)
  {
  }

  lemma {:induction false} DriveIsEntitled(turn: Turn, t: Option<Table>, c: Circumstances, r: Request)
    requires Entitled(turn, r)
    ensures IsGrant(Drive(turn, t, c, r).result) ==> r.state == Some(Active)
    decreases if turn.Suspend? then 1 + Rank(turn.await) else 0
  {
    if turn.Suspend? {
      var (ans, t') := Serve(turn.await, t, c, r);
      ResumeProgresses(turn.mem, t.Some?, r, turn.await, ans);
      ResumeIsEntitled(turn.mem, t.Some?, r, turn.await, ans);
      DriveIsEntitled(Resume(turn.mem, t.Some?, r, turn.await, ans), t', c, r);
    }
  }

  /** ISSUED, ALREADY_ISSUED and DELIVERY_READY are only ever said to a request whose subscription is
      active, whatever the memory, the table, the provider and the faults. */
  lemma GrantsNeedActive(m: Memory, t: Option<Table>, c: Circumstances, r: Request)
    requires RunAlone(m, t, c, r).result.category in {Issued, AlreadyIssued, DeliveryReady}
    ensures r.state == Some(Active)
  {
    BeginIsEntitled(m, t.Some?, r);
    DriveIsEntitled(Begin(m, t.Some?, r), t, c, r);
  }

  /** Anyone else is told why and leaves nothing but an audit record. */
  lemma OthersAreDenied(m: Memory, t: Option<Table>, c: Circumstances, r: Request)
    requires WellFormed(r) && r.op != OpRevoke && r.state != Some(Active)
    ensures var why := if r.state == Some(NeedsReview) then ReviewNeeded else NotEntitled;
            RunAlone(m, t, c, r) == Outcome(m.(audit := m.audit + [AuditRecord(r, why)]), t, Result(why, None))
  {
  }

  /** A request without a key, with a bad correlation id, or whose link does not go with its operation is an
      internal error and leaves nothing but an audit record, whatever the subscription. */
  lemma MalformedIsRefused(m: Memory, t: Option<Table>, c: Circumstances, r: Request)
    requires r.key == "" || !IsHex32(r.correlationId) || (r.op == OpIssue && r.link.Some?)
          || (r.op != OpIssue && (r.link == None || r.link == Some("")))
    ensures RunAlone(m, t, c, r)
         == Outcome(m.(audit := m.audit + [AuditRecord(r, InternalError)]), t, Result(InternalError, None))
  {
    HexIsValid(r.correlationId);
  }

  /** 32 lower-case hexadecimal digits. */
  predicate IsHex32(s: string)
  {
    |s| == 32 && forall c <- s :: c in "0123456789abcdef"
  }

  lemma HexIsValid(s: string)
    ensures ValidCorrelationId(s) <==> IsHex32(s)
  {
    if |s| == 32 {
      forall i | 0 <= i < 32 ensures IsLowerHex(s[i]) <==> s[i] in "0123456789abcdef" {
        DigitsOfHex(s[i]);
      }
    }
  }

  lemma DigitsOfHex(c: char)
    ensures c in "0123456789abcdef" <==> IsLowerHex(c)
  {
    var digits := "0123456789abcdef";
    if IsLowerHex(c) {
      assert digits[if c <= '9' then c as int - '0' as int else 10 + (c as int - 'a' as int)] == c;
    }
  }

  // ---- The same in the interleaved world ----

  ghost predicate WorldEntitled(w: World)
  {
    && (forall id :: id in w.tasks ==> Entitled(Suspend(EMPTY_MEMORY, w.tasks[id].stage.await), w.tasks[id].req))
    && (forall i :: 0 <= i < |w.replies| ==> IsGrant(w.replies[i].result) ==> w.replies[i].req.state == Some(Active))
  }

  lemma SettleIsEntitled(w: World, id: nat, p: nat, r: Request, turn: Turn)
    requires WorldEntitled(w) && Entitled(turn, r)
    ensures WorldEntitled(Settle(w, id, p, r, turn))
  {
  }

  lemma StatementKeepsAwait(t: Table, stage: Stage, lk: LinkKey, fault: Fault, now: int)
    ensures IssuanceWorld.Statement(t, stage, lk, fault, now).1.await == stage.await
  {
  }

  lemma StepIsEntitled(w: World, e: Event)
    requires WorldEntitled(w)
    ensures WorldEntitled(Step(w, e))
  {
    match e
    case Start(id, p, r) =>
      if id !in w.tasks {
        BeginIsEntitled(MemoryOf(w, p), true, r);
        SettleIsEntitled(w, id, p, r, Begin(MemoryOf(w, p), true, r));
      }
    case RunStatement(id, fault, now) =>
      if id in w.tasks {
        StatementKeepsAwait(w.store, w.tasks[id].stage, Target(w.tasks[id].req), fault, now);
      }
    case Continue(id) =>
      if id in w.tasks && w.tasks[id].stage.Answered? && Fits(w.tasks[id].stage.await, w.tasks[id].stage.answer) {
        ContinueIsEntitled(w, id);
      }
    case _ =>
  }

  lemma ContinueIsEntitled(w: World, id: nat)
    requires WorldEntitled(w) && id in w.tasks && w.tasks[id].stage.Answered?
    requires Fits(w.tasks[id].stage.await, w.tasks[id].stage.answer)
    ensures WorldEntitled(Step(w, Continue(id)))
  {
    var task := w.tasks[id];
    var m := MemoryOf(w, task.process);
    ResumeIsEntitled(m, true, task.req, task.stage.await, task.stage.answer);
    SettleIsEntitled(w, id, task.process, task.req, Resume(m, true, task.req, task.stage.await, task.stage.answer));
  }

  lemma {:induction false} RunIsEntitled(w: World, es: seq<Event>)
    requires WorldEntitled(w)
    ensures WorldEntitled(Run(w, es))
    decreases |es|
  {
    if es != [] {
      StepIsEntitled(w, es[0]);
      RunIsEntitled(Step(w, es[0]), es[1..]);
    }
  }

  /** Over any interleaving of any processes, every granting reply is to an active subscriber's request. */
  lemma GrantRepliesNeedActive(es: seq<Event>, i: nat)
    requires i < |Run(INITIAL, es).replies|
    requires Run(INITIAL, es).replies[i].result.category in {Issued, AlreadyIssued, DeliveryReady}
    ensures Run(INITIAL, es).replies[i].req.state == Some(Active)
  {
    RunIsEntitled(INITIAL, es);
  }

  // ---- What an active subscriber is told, from an empty memory ----

  /** What the provider's answer to a first issue comes to; Some is the reference it made. */
  function Made(c: Circumstances, r: Request): Option<string>
  {
    var made := c.provider.create(r.user, r.key, r.correlationId);
    if made.0 == Success && made.1 != Some("") then made.1 else None
  }

  /** A freshly started service: a failed lookup is an internal error, a live row is ALREADY_ISSUED and a
      revoked one an internal error, all leaving the table as it was; without a row the provider decides,
      and ISSUED means that the row is stored live with the provider's ref and the instant. A failed insert
      is never ISSUED. */
  lemma FirstIssue(t: Table, c: Circumstances, r: Request)
    requires WellFormed(r) && r.op == OpIssue && r.state == Some(Active)
    ensures var o := RunAlone(EMPTY_MEMORY, Some(t), c, r);
            var lk := LinkKey(r.user, r.key);
            if c.fetchFails then o.table == Some(t) && o.result == Result(InternalError, None)
            else if lk in t then
              o.table == Some(t)
              && o.result == if t[lk].revoked then Result(InternalError, None) else Result(AlreadyIssued, Some(t[lk].ref))
            else if Made(c, r).Some? then
              o.table == Some(if c.persistFault == BeforeCommit then t else t[lk := Row(false, Made(c, r).value, c.now, c.now, None)])
              && o.result == if c.persistFault == NoFault then Result(Issued, Made(c, r)) else Result(InternalError, None)
            else
              o.table == Some(t) && o.result.ref == None
              && o.result.category == match c.provider.create(r.user, r.key, r.correlationId).0
                                      case Unavailable => ProviderUnavailable
                                      case Rejected => ProviderRejected
                                      case _ => InternalError
  {
    DriveUnfolds(EMPTY_MEMORY, AwaitFetch, Some(t), c, r);
    if !c.fetchFails && LinkKey(r.user, r.key) !in t {
      DriveUnfolds(EMPTY_MEMORY, AwaitCreate, Some(t), c, r);
      if Made(c, r).Some? {
        DriveUnfolds(EMPTY_MEMORY, AwaitIssueOrGet(Made(c, r).value), Some(t), c, r);
      }
    }
  }

  /** A freshly started service: a resend never touches the table; a failed lookup is an internal error,
      without a row it is unsafe to deliver, a revoked row is REVOKED, and a live row's delivery is the
      provider's answer for its ref. */
  lemma FirstResend(t: Table, c: Circumstances, r: Request)
    requires WellFormed(r) && r.op == OpResend && r.state == Some(Active)
    ensures var o := RunAlone(EMPTY_MEMORY, Some(t), c, r);
            var lk := LinkKey(r.user, r.link.value);
            o.table == Some(t)
            && if c.fetchFails then o.result == Result(InternalError, None)
               else if lk !in t then o.result == Result(UnsafeToDeliver, None)
               else if t[lk].revoked then o.result == Result(Revoked, None)
               else
                 match c.provider.instruct(r.user, t[lk].ref, r.correlationId)
                 case (Success, Some(text)) =>
                   o.result == if text != "" then Result(DeliveryReady, Some(text)) else Result(UnsafeToDeliver, None)
                 case (Unavailable, _) => o.result == Result(ProviderUnavailable, None)
                 case (Rejected, _) => o.result == Result(ProviderRejected, None)
                 case _ => o.result == Result(UnsafeToDeliver, None)
  {
    DriveUnfolds(EMPTY_MEMORY, AwaitFetch, Some(t), c, r);
    var lk := LinkKey(r.user, r.link.value);
    if !c.fetchFails && lk in t && !t[lk].revoked {
      DriveUnfolds(EMPTY_MEMORY, AwaitInstructions(t[lk].ref), Some(t), c, r);
    }
  }

  /** A freshly started service, any subscription: without a row there is nothing to revoke, a revoked row is
      REVOKED as it is, and a live row is revoked exactly when the provider confirms. A failed lookup or
      update is an internal error. */
  lemma FirstRevoke(t: Table, c: Circumstances, r: Request)
    requires WellFormed(r) && r.op == OpRevoke
    ensures var o := RunAlone(EMPTY_MEMORY, Some(t), c, r);
            var lk := LinkKey(r.user, r.link.value);
            o.result.ref == None
            && if c.fetchFails then o.table == Some(t) && o.result.category == InternalError
               else if lk !in t then o.table == Some(t) && o.result.category == NotEntitled
               else if t[lk].revoked then o.table == Some(t) && o.result.category == Revoked
               else RevokeCarriedOut(t, lk, c, c.provider.revoke(r.user, t[lk].ref, r.key, r.correlationId), o)
  {
    DriveUnfolds(EMPTY_MEMORY, AwaitFetch, Some(t), c, r);
    var lk := LinkKey(r.user, r.link.value);
    if !c.fetchFails && lk in t && !t[lk].revoked {
      DriveUnfolds(EMPTY_MEMORY, AwaitRevokeAccess(t[lk].ref), Some(t), c, r);
      DriveUnfolds(EMPTY_MEMORY, AwaitMarkRevoked(t[lk].ref), Some(t), c, r);
    }
  }

  /** What the provider's answer to the revocation of a live row comes to. */
  predicate RevokeCarriedOut(t: Table, lk: LinkKey, c: Circumstances, answer: RevokeOutcome, o: Outcome)
    requires lk in t
  {
    match answer
    case RevokeUnavailable => o.table == Some(t) && o.result.category == ProviderUnavailable
    case RevokeRejected => o.table == Some(t) && o.result.category == ProviderRejected
    case RevokeUnknown => o.table == Some(t) && o.result.category == InternalError
    case _ =>
      o.result.category == (if c.persistFault == NoFault then Revoked else InternalError)
      && o.table == Some(if c.persistFault == BeforeCommit then t
                         else t[lk := Row(true, t[lk].ref, t[lk].createdAt, c.now,
                                          if t[lk].revokedAt.Some? then t[lk].revokedAt else Some(c.now))])
  }

  // ---- What is remembered ----

  /** What a freshly started service remembers after a first issue: the link as issued, if it was granted. */
  lemma FirstIssueIsRemembered(t: Table, c: Circumstances, r: Request)
    requires WellFormed(r) && r.op == OpIssue && r.state == Some(Active)
    ensures var o := RunAlone(EMPTY_MEMORY, Some(t), c, r);
            var lk := LinkKey(r.user, r.key);
            o.mem == if IsGrant(o.result) && o.result.ref.Some?
                     then Memory(map[lk := Entry(o.result.ref.value, false)], map[lk := o.result.ref.value], {}, map[],
                                 [AuditRecord(r, o.result.category)])
                     else EMPTY_MEMORY.(audit := [AuditRecord(r, o.result.category)])
  {
    DriveUnfolds(EMPTY_MEMORY, AwaitFetch, Some(t), c, r);
    if !c.fetchFails && LinkKey(r.user, r.key) !in t {
      DriveUnfolds(EMPTY_MEMORY, AwaitCreate, Some(t), c, r);
      if Made(c, r).Some? {
        DriveUnfolds(EMPTY_MEMORY, AwaitIssueOrGet(Made(c, r).value), Some(t), c, r);
      }
    }
  }

  /** After a first resend: the instructions under the request's own key if they were delivered, the link as
      revoked if its row is. */
  lemma FirstResendIsRemembered(t: Table, c: Circumstances, r: Request)
    requires WellFormed(r) && r.op == OpResend && r.state == Some(Active)
    ensures var o := RunAlone(EMPTY_MEMORY, Some(t), c, r);
            var lk := LinkKey(r.user, r.link.value);
            o.mem == Memory(if o.result.category == Revoked && lk in t then map[lk := Entry(t[lk].ref, true)] else map[], map[], {},
                            if o.result.category == DeliveryReady && o.result.ref.Some?
                            then map[LinkKey(r.user, r.key) := o.result.ref.value] else map[],
                            [AuditRecord(r, o.result.category)])
  {
    DriveUnfolds(EMPTY_MEMORY, AwaitFetch, Some(t), c, r);
    var lk := LinkKey(r.user, r.link.value);
    if !c.fetchFails && lk in t && !t[lk].revoked {
      DriveUnfolds(EMPTY_MEMORY, AwaitInstructions(t[lk].ref), Some(t), c, r);
    }
  }

  /** After a first revoke: the link as revoked and the request's own key as completed, exactly if it was told
      REVOKED. */
  lemma FirstRevokeIsRemembered(t: Table, c: Circumstances, r: Request)
    requires WellFormed(r) && r.op == OpRevoke
    ensures var o := RunAlone(EMPTY_MEMORY, Some(t), c, r);
            var lk := LinkKey(r.user, r.link.value);
            o.mem == if o.result.category == Revoked && lk in t
                     then Memory(map[lk := Entry(t[lk].ref, true)], map[], {LinkKey(r.user, r.key)}, map[],
                                 [AuditRecord(r, Revoked)])
                     else EMPTY_MEMORY.(audit := [AuditRecord(r, o.result.category)])
  {
    DriveUnfolds(EMPTY_MEMORY, AwaitFetch, Some(t), c, r);
    var lk := LinkKey(r.user, r.link.value);
    if !c.fetchFails && lk in t && !t[lk].revoked {
      DriveUnfolds(EMPTY_MEMORY, AwaitRevokeAccess(t[lk].ref), Some(t), c, r);
      DriveUnfolds(EMPTY_MEMORY, AwaitMarkRevoked(t[lk].ref), Some(t), c, r);
    }
  }

  /** A remembered answer is given again, whatever the table, the provider and the faults, and changes nothing
      but the audit: an issued link is ALREADY_ISSUED, instructions of a live link are delivered again under
      the same request key, and a completed revoke key is REVOKED. */
  lemma RememberedAnswersAskNobody(m: Memory, t: Option<Table>, c: Circumstances, r: Request, answer: Result)
    requires WellFormed(r)
    requires match r.op
             case OpIssue =>
               r.state == Some(Active) && LinkKey(r.user, r.key) in m.issued
               && (LinkKey(r.user, r.key) in m.ledger ==> !m.ledger[LinkKey(r.user, r.key)].revoked)
               && answer == Result(AlreadyIssued, Some(m.issued[LinkKey(r.user, r.key)]))
             case OpResend =>
               r.state == Some(Active) && LinkKey(r.user, r.link.value) in m.ledger && !m.ledger[LinkKey(r.user, r.link.value)].revoked
               && LinkKey(r.user, r.key) in m.resent && answer == Result(DeliveryReady, Some(m.resent[LinkKey(r.user, r.key)]))
             case OpRevoke => LinkKey(r.user, r.key) in m.revokeDone && answer == Result(Revoked, None)
    ensures RunAlone(m, t, c, r) == Outcome(m.(audit := m.audit + [AuditRecord(r, answer.category)]), t, answer)
  {
  }

  // ---- Keeping a record ----

  /** Each execute appends exactly one audit record: the request with the category it is told. */
  lemma {:induction false} DriveAuditsOnce(turn: Turn, t: Option<Table>, c: Circumstances, r: Request, audit: seq<AuditRecord>)
    requires match turn
             case Suspend(m, _) => m.audit == audit
             case Reply(m, res) => m.audit == audit + [AuditRecord(r, res.category)]
    ensures var o := Drive(turn, t, c, r); o.mem.audit == audit + [AuditRecord(r, o.result.category)]
    decreases if turn.Suspend? then 1 + Rank(turn.await) else 0
  {
    if turn.Suspend? {
      var (ans, t') := Serve(turn.await, t, c, r);
      ResumeProgresses(turn.mem, t.Some?, r, turn.await, ans);
      DriveAuditsOnce(Resume(turn.mem, t.Some?, r, turn.await, ans), t', c, r, audit);
    }
  }

  lemma EachExecuteIsAuditedOnce(m: Memory, t: Option<Table>, c: Circumstances, r: Request)
    ensures var o := RunAlone(m, t, c, r); o.mem.audit == m.audit + [AuditRecord(r, o.result.category)]
  {
    DriveAuditsOnce(Begin(m, t.Some?, r), t, c, r, m.audit);
  }
}
