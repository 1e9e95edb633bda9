/** Readers over the issuance state: UC-02 status, the access resend handler with its cooldown, and
    the operator's ensure-access remediation. */
module Access {
  import opened Basics
  import opened Subscription
  import opened IssuanceStore
  import opened Issuance
  import opened IssuanceWorld

  type Identities = map<int, string>

  predicate ValidTelegramId(id: int)
  {
    0 < id <= 0x7FFF_FFFF_FFFF_FFFF
  }

  /** Which of the handler's reads raise. */
  datatype Reads = Reads(identityFails: bool, snapshotFails: bool, lookupFails: bool)

  const CALM := Reads(false, false, false)

  // ---- UC-02 status ----

  /** The status shown for a user; every failure and every rejected input shows the inactive bucket. */
  ghost function StatusAt(ids: Identities, snaps: Snapshots, rows: Option<Table>, tg: int, cid: string, now: int, faults: Reads): SafeStatus
  {
    if !ValidTelegramId(tg) || !ValidCorrelationId(cid) || faults.identityFails then InactiveOrNotEligible
    else if tg !in ids then NeedsBootstrap
    else if faults.snapshotFails then InactiveOrNotEligible
    else
      var safe := LifecycleStatus(SnapshotOf(snaps, ids[tg]), now);
      if safe != SubscriptionActive then safe
      else if rows.None? then AccessNotReady
      else if faults.lookupFails then InactiveOrNotEligible
      else if HasLiveCurrent(rows.value, ids[tg]) then AccessReady else AccessNotReady
  }

  /** The user's current row exists and is not revoked. */
  ghost predicate HasLiveCurrent(t: Table, user: string)
  {
    Current(t, user).Some? && !t[Current(t, user).value].revoked
  }

  // ---- Resend ----

  datatype ResendOutcome =
    | NotEnabled | ResendAccepted | NotEligibleForResend | Cooldown | NotReady | TemporarilyUnavailable
    | Raised  // an exception of a read reaches the caller

  function MapOutcome(c: Category): ResendOutcome
  {
    match c
    case DeliveryReady => ResendAccepted
    case NotEntitled => NotEligibleForResend
    case ReviewNeeded => NotEligibleForResend
    case UnsafeToDeliver => NotReady
    case Revoked => NotReady
    case AlreadyIssued => NotReady
    case _ => TemporarilyUnavailable
  }

  function ResendKey(tg: int, update: int): string
  {
    "tg-resend:" + Signed(tg) + ":" + Signed(update)
  }

  datatype ResendInput = ResendInput(telegramId: int, updateId: int, cid: string)

  /** What a resend can change. */
  datatype ResendState = ResendState(mem: Memory, rows: Table, nextAllowed: map<string, real>)

  predicate OffCooldown(next: map<string, real>, user: string, nowSeconds: real)
  {
    user in next ==> nowSeconds >= next[user]
  }

  function ResendRequest(user: string, inp: ResendInput, link: string): Request
  {
    Request(user, Some(Active), OpResend, ResendKey(inp.telegramId, inp.updateId), inp.cid, Some(link))
  }

  /** The enabled handler, wired to a service over the same store as its lookup. */
  ghost function HandleResend(ids: Identities, snaps: Snapshots, s: ResendState, cooldown: real, inp: ResendInput,
                              nowSeconds: real, now: int, faults: Reads, c: Circumstances): (ResendOutcome, ResendState)
  {
    if !ValidCorrelationId(inp.cid) then (TemporarilyUnavailable, s)
    else if faults.identityFails then (Raised, s)
    else if inp.telegramId !in ids then (NotEligibleForResend, s)
    else
      var user := ids[inp.telegramId];
      if faults.snapshotFails then (Raised, s)
      else if user !in snaps || ParseLabel(snaps[user].stateLabel) != Active then (NotEligibleForResend, s)
      else if snaps[user].activeUntil.Some? && now > snaps[user].activeUntil.value then
        (NotEligibleForResend, s.(rows := BestEffortRevoke(s.rows, user, faults, c)))
      else if !OffCooldown(s.nextAllowed, user, nowSeconds) then (Cooldown, s)
      else
        ResendCurrent(user, s.(nextAllowed := s.nextAllowed[user := nowSeconds + cooldown]), inp, faults, c)
  }

  /** Off cooldown: the user's current link, if it is live, goes to the service. */
  ghost function ResendCurrent(user: string, s: ResendState, inp: ResendInput, faults: Reads, c: Circumstances): (ResendOutcome, ResendState)
  {
    if faults.lookupFails then (Raised, s)
    else if !HasLiveCurrent(s.rows, user) then (NotReady, s)
    else
      var o := RunAlone(s.mem, Some(s.rows), c, ResendRequest(user, inp, Current(s.rows, user).value.key));
      (MapOutcome(o.result.category), s.(mem := o.mem, rows := if o.table.Some? then o.table.value else s.rows))
  }

  ghost function BestEffortRevoke(t: Table, user: string, faults: Reads, c: Circumstances): Table
  {
    if faults.lookupFails || !HasLiveCurrent(t, user) || c.persistFault == BeforeCommit then t
    else Revoke(t, Current(t, user).value, c.now)
  }

  class AccessResendCooldownStore {
    const cooldownSeconds: real
    var nextAllowedByUser: map<string, real>

    constructor (cooldownSeconds: real)
      ensures this.cooldownSeconds == cooldownSeconds && nextAllowedByUser == map[]
    {
      this.cooldownSeconds, nextAllowedByUser := cooldownSeconds, map[];
    }

    method ConsumeOrReject(user: string, now: real) returns (allowed: bool)
      modifies this
      ensures allowed == OffCooldown(old(nextAllowedByUser), user, now)
      ensures nextAllowedByUser ==
        if allowed then old(nextAllowedByUser)[user := now + cooldownSeconds] else old(nextAllowedByUser)
    {
      if user in nextAllowedByUser && now < nextAllowedByUser[user] {
        return false;
      }
      nextAllowedByUser := nextAllowedByUser[user := now + cooldownSeconds];
      allowed := true;
    }
  }

  class TelegramAccessResendHandler {
    const service: IssuanceService
    const repository: IssuanceStateRepository
    const cooldown: AccessResendCooldownStore
    const enabled: bool
    var disabledHits: nat

    ghost function State(): ResendState
      reads this, service, repository, cooldown
    {
      ResendState(service.Mem(), repository.rows, cooldown.nextAllowedByUser)
    }

    constructor (service: IssuanceService, cooldown: AccessResendCooldownStore, enabled: bool, repository: IssuanceStateRepository)
      requires service.operationalState == repository
      ensures this.service == service && this.cooldown == cooldown && this.enabled == enabled
      ensures this.repository == repository && disabledHits == 0
    {
      this.service, this.cooldown, this.enabled, this.repository := service, cooldown, enabled, repository;
      disabledHits := 0;
    }

    method Handle(ids: Identities, snaps: Snapshots, inp: ResendInput, nowSeconds: real, now: int, faults: Reads, c: Circumstances)
      returns (outcome: ResendOutcome)
      requires service.operationalState == repository
      modifies this, service, repository, cooldown
      ensures enabled ==>
                (outcome, State())
                == HandleResend(ids, snaps, old(State()), cooldown.cooldownSeconds, inp, nowSeconds, now, faults, c)
      ensures !enabled ==> State() == old(State())
      ensures !enabled ==> outcome == if ValidCorrelationId(inp.cid) then NotEnabled else TemporarilyUnavailable
    {
      if !ValidCorrelationId(inp.cid) {
        return TemporarilyUnavailable;
      }
      if !enabled {
        disabledHits := disabledHits + 1;
        return NotEnabled;
      }
      if faults.identityFails {
        return Raised;
      }
      if inp.telegramId !in ids {
        return NotEligibleForResend;
      }
      var user := ids[inp.telegramId];
      if faults.snapshotFails {
        return Raised;
      }
      if user !in snaps || ParseLabel(snaps[user].stateLabel) != Active {
        return NotEligibleForResend;
      }
      if snaps[user].activeUntil.Some? && now > snaps[user].activeUntil.value {
        RevokeExpired(user, faults, c);
        return NotEligibleForResend;
      }
      var allowed := cooldown.ConsumeOrReject(user, nowSeconds);
      if !allowed {
        return Cooldown;
      }
      outcome := Resend(user, inp, faults, c);
    }

    /** Best effort: every failure is swallowed. */
    method RevokeExpired(user: string, faults: Reads, c: Circumstances)
      modifies repository
      ensures repository.rows == BestEffortRevoke(old(repository.rows), user, faults, c)
    {
      if !faults.lookupFails {
        var current := repository.GetCurrentForUser(user);
        if current.Some? && !repository.rows[current.value].revoked {
          var _ := repository.MarkRevoked(current.value, c.now, c.persistFault);
        }
      }
    }

    method Resend(user: string, inp: ResendInput, faults: Reads, c: Circumstances) returns (outcome: ResendOutcome)
      requires service.operationalState == repository
      modifies service, repository
      ensures (outcome, State()) == ResendCurrent(user, old(State()), inp, faults, c)
    {
      if faults.lookupFails {
        return Raised;
      }
      var current := repository.GetCurrentForUser(user);
      if current.None? || repository.rows[current.value].revoked {
        return NotReady;
      }
      var result := service.Execute(ResendRequest(user, inp, current.value.key), c);
      outcome := MapOutcome(result.category);
    }
  }

  // ---- Status and resend agree ----

  /** A resend accepted under any circumstances is one the status shows as ACCESS_READY. */
  lemma AcceptedMeansReady(ids: Identities, snaps: Snapshots, s: ResendState, cooldown: real, inp: ResendInput,
                           nowSeconds: real, now: int, faults: Reads, c: Circumstances)
    requires forall tg :: tg in ids ==> ValidTelegramId(tg)
    requires HandleResend(ids, snaps, s, cooldown, inp, nowSeconds, now, faults, c).0 == ResendAccepted
    ensures StatusAt(ids, snaps, Some(s.rows), inp.telegramId, inp.cid, now, CALM) == AccessReady
  {
  }

  ghost predicate InstructionsReady(p: Provider)
  {
    forall user, ref, cid :: p.instruct(user, ref, cid).0 == Success
      && p.instruct(user, ref, cid).1.Some? && p.instruct(user, ref, cid).1.value != ""
  }

  /** Nothing in the ledger can contradict a live current row, so a ready provider delivers it. */
  lemma LiveRowIsDelivered(m: Memory, t: Table, c: Circumstances, r: Request)
    requires MemoryOk(m, t) && WellFormed(r) && r.op == OpResend && r.state == Some(Active)
    requires Target(r) in t && !t[Target(r)].revoked
    requires !c.fetchFails && InstructionsReady(c.provider)
    ensures RunAlone(m, Some(t), c, r).result.category == DeliveryReady
  {
    var lk := Target(r);
    if lk !in m.ledger {
      DriveUnfolds(m, AwaitFetch, Some(t), c, r);
    }
    if OwnKey(r) !in m.resent {
      DriveUnfolds(m, AwaitInstructions(t[lk].ref), Some(t), c, r);
    }
  }

  /** In every reachable world, for every process, user and instant: the status is ACCESS_READY if and
      only if an enabled resend that is off cooldown, with a ready provider and working reads, is accepted. */
  lemma StatusAndResendAgree(es: seq<Event>, p: nat, ids: Identities, snaps: Snapshots, next: map<string, real>,
                             cooldown: real, inp: ResendInput, nowSeconds: real, now: int, c: Circumstances)
    requires forall tg :: tg in ids ==> ValidTelegramId(tg)
    requires inp.telegramId in ids ==> OffCooldown(next, ids[inp.telegramId], nowSeconds)
    requires !c.fetchFails && InstructionsReady(c.provider)
    ensures var w := Run(INITIAL, es);
            var s := ResendState(MemoryOf(w, p), w.store, next);
            StatusAt(ids, snaps, Some(w.store), inp.telegramId, inp.cid, now, CALM) == AccessReady
            <==> HandleResend(ids, snaps, s, cooldown, inp, nowSeconds, now, CALM, c).0 == ResendAccepted
  {
    var w := Run(INITIAL, es);
    ReachableIsOk(INITIAL, es);
    var s := ResendState(MemoryOf(w, p), w.store, next);
    if HandleResend(ids, snaps, s, cooldown, inp, nowSeconds, now, CALM, c).0 == ResendAccepted {
      AcceptedMeansReady(ids, snaps, s, cooldown, inp, nowSeconds, now, CALM, c);
    }
    if StatusAt(ids, snaps, Some(w.store), inp.telegramId, inp.cid, now, CALM) == AccessReady {
      ReadyIsAccepted(ids, snaps, s, cooldown, inp, nowSeconds, now, c);
    }
  }

  lemma ReadyIsAccepted(ids: Identities, snaps: Snapshots, s: ResendState, cooldown: real, inp: ResendInput,
                                           nowSeconds: real, now: int, c: Circumstances)
    requires MemoryOk(s.mem, s.rows) && (forall lk :: lk in s.rows ==> lk.key != "")
    requires inp.telegramId in ids ==> OffCooldown(s.nextAllowed, ids[inp.telegramId], nowSeconds)
    requires !c.fetchFails && InstructionsReady(c.provider)
    requires StatusAt(ids, snaps, Some(s.rows), inp.telegramId, inp.cid, now, CALM) == AccessReady
    ensures HandleResend(ids, snaps, s, cooldown, inp, nowSeconds, now, CALM, c).0 == ResendAccepted
  {
    var user := ids[inp.telegramId];
    LiveRowIsDelivered(s.mem, s.rows, c, ResendRequest(user, inp, Current(s.rows, user).value.key));
  }
}
