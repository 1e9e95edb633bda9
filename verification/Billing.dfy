/** Billing fulfilment: ledger ingest, UC-05 apply and the final snapshot upsert as separate
    transactions, under webhook redelivery, concurrency and crashes. */
module Billing {
  import opened Basics
  import opened Subscription

  datatype LedgerStatus = StatusAccepted | StatusDuplicate | StatusIgnored

  datatype EventKey = EventKey(provider: string, externalId: string)

  /** What an event says, without the values generated per delivery. */
  datatype Body = Body(key: EventKey, eventType: string, effectiveAt: int, user: Option<string>, checkout: Option<string>, status: LedgerStatus)

  datatype Fact = Fact(ref: string, body: Body, receivedAt: int, correlationId: string)

  datatype ApplyOutcome = ActiveApplied | NoActivation | ReviewApplied

  datatype Reason = ReasonOk | NotAccepted | MissingUser | UnknownType

  datatype Decision = Decision(outcome: ApplyOutcome, reason: Reason, snapshotLabel: Option<string>, recordUser: string)

  const NO_USER := "_uc05_no_internal_user_"
  const ACTIVATED := "subscription_activated"

  function FirstTimeDecision(b: Body): Decision
  {
    if b.status != StatusAccepted then
      Decision(NoActivation, NotAccepted, None, if b.user.None? then NO_USER else b.user.value)
    else if b.user.None? || b.user.value == "" then Decision(ReviewApplied, MissingUser, None, NO_USER)
    else if b.eventType != ACTIVATED then
      Decision(ReviewApplied, UnknownType, Some("needs_review"), b.user.value)
    else Decision(ActiveApplied, ReasonOk, Some("active"), b.user.value)
  }

  datatype IngestAudit = IngestAudit(ref: string, replay: bool)

  datatype ApplyAudit = ApplyAudit(ref: string, decision: Decision)

  /** The tables; events is the unique index on (provider, external id). */
  datatype Db = Db(
    identities: map<int, string>,
    ledger: map<string, Fact>,
    events: map<EventKey, string>,
    applies: map<string, Decision>,
    snapshots: Snapshots,
    ingestAudit: seq<IngestAudit>,
    applyAudit: seq<ApplyAudit>)

  const EMPTY := Db(map[], map[], map[], map[], map[], [], [])

  // ---- What ingest accepts ----

  const MAX_ID_LEN := 256
  const MAX_EVENT_TYPE_LEN := 128

  predicate IsControl(c: char)
  {
    c < ' ' || c as int == 127
  }

  predicate HasControl(s: string)
  {
    exists i :: 0 <= i < |s| && IsControl(s[i])
  }

  function RequiredText(s: string, max: nat): Option<string>
  {
    var t := Strip(s);
    if t == "" || |t| > max then None else Some(t)
  }

  /** None: refused; Some(None): absent or blank. */
  function OptionalId(id: Option<string>): Option<Option<string>>
  {
    if id.None? || Strip(id.value) == "" then Some(None)
    else if |Strip(id.value)| > MAX_ID_LEN || HasControl(Strip(id.value)) then None
    else Some(Some(Strip(id.value)))
  }

  /** The validated record; the generated ref and correlation id are always well formed. */
  function BuildLedgerRecord(f: Fact): Option<Fact>
  {
    var b := f.body;
    var provider, externalId := RequiredText(b.key.provider, MAX_ID_LEN), RequiredText(b.key.externalId, MAX_ID_LEN);
    var eventType := RequiredText(b.eventType, MAX_EVENT_TYPE_LEN);
    var user, checkout := OptionalId(b.user), OptionalId(b.checkout);
    if provider.None? || externalId.None? || eventType.None? || user.None? || checkout.None? then None
    else
      Some(f.(body := Body(EventKey(provider.value, externalId.value), eventType.value, b.effectiveAt,
                           user.value, checkout.value, b.status)))
  }

  /** A text column holds no NUL; the other texts are free of control characters by now. */
  predicate Storable(b: Body)
  {
    '\0' !in b.key.provider && '\0' !in b.key.externalId && '\0' !in b.eventType
  }

  // ---- One committed transaction each ----

  function CreateIdentity(db: Db, tg: int): Db
  {
    if tg in db.identities then db else db.(identities := db.identities[tg := "u" + Signed(tg)])
  }

  /** Idempotent ledger append with its audit row; None when the generated ref is already a primary key. */
  function Append(db: Db, f: Fact): Option<(Fact, Db)>
  {
    var key := f.body.key;
    if key in db.events && db.events[key] in db.ledger then
      var stored := db.ledger[db.events[key]];
      Some((stored, db.(ingestAudit := db.ingestAudit + [IngestAudit(stored.ref, true)])))
    else if f.ref in db.ledger then None
    else Some((f, db.(ledger := db.ledger[f.ref := f], events := db.events[key := f.ref],
                      ingestAudit := db.ingestAudit + [IngestAudit(f.ref, false)])))
  }

  /** Ingest: the record is built and validated, then appended. */
  function Ingest(db: Db, f: Fact): Option<(Fact, Db)>
  {
    var record := BuildLedgerRecord(f);
    if record.None? || !Storable(record.value.body) then None else Append(db, record.value)
  }

  datatype ApplyResult = NotFound | Replayed(outcome: ApplyOutcome) | Applied(outcome: ApplyOutcome)

  function Apply(db: Db, ref: string): (ApplyResult, Db)
  {
    if ref !in db.ledger then (NotFound, db)
    else if ref in db.applies then (Replayed(db.applies[ref].outcome), db)
    else
      var d := FirstTimeDecision(db.ledger[ref].body);
      (Applied(d.outcome),
       db.(snapshots := if d.snapshotLabel.Some? then db.snapshots[d.recordUser := Snapshot(d.snapshotLabel.value, None)]
                        else db.snapshots,
           applies := db.applies[ref := d],
           applyAudit := db.applyAudit + [ApplyAudit(ref, d)]))
  }

  function UpsertState(db: Db, user: string, snap: Snapshot): Db
  {
    db.(snapshots := db.snapshots[user := snap])
  }

  function PutIfAbsent(db: Db, user: string): Db
  {
    if user in db.snapshots then db else UpsertState(db, user, Snapshot("inactive", None))
  }

  // ---- The webhook handler, one transaction at a time ----

  /** A verified payment event, its identity resolved. */
  datatype Payment = Payment(key: EventKey, telegramId: int, user: string, paidAt: int, periodDays: nat, paymentId: string)

  function ActiveUntil(p: Payment): int
  {
    p.paidAt + p.periodDays * 86400
  }

  function BodyOf(p: Payment): Body
  {
    Body(p.key, ACTIVATED, p.paidAt, Some(p.user), Some(p.paymentId), StatusAccepted)
  }

  function FactOf(p: Payment, g: Generated): Fact
  {
    Fact(g.ref, BodyOf(p), g.receivedAt, g.correlationId)
  }

  /** What the webhook's parser, its settings and the identity resolution guarantee. */
  predicate Parsed(p: Payment)
  {
    p.key.provider != "" && IsTrimmed(p.key.provider)
    && p.key.externalId != "" && IsTrimmed(p.key.externalId) && |p.key.externalId| <= 256
    && p.paymentId != "" && IsTrimmed(p.paymentId) && |p.paymentId| <= 256
    && p.user != "" && IsTrimmed(p.user)
  }

  /** A parsed payment that ingest does not refuse. */
  predicate Ingestible(p: Payment)
  {
    |p.user| <= 256 && |p.key.provider| <= 256 && !HasControl(p.user) && !HasControl(p.paymentId)
    && '\0' !in p.key.provider && '\0' !in p.key.externalId
  }

  function PaidSnapshot(p: Payment): Snapshot
  {
    Snapshot("active", Some(ActiveUntil(p)))
  }

  /** Values a delivery generates for itself. */
  datatype Generated = Generated(ref: string, receivedAt: int, correlationId: string)

  datatype Stage = AtIdentity | AtIngest | AtApply(ref: string) | AtUpsert(first: bool) | AtNotice | Answered(code: int)

  /** One step of a delivery: commit a transaction, or send the best-effort notice. */
  function Advance(db: Db, p: Payment, stage: Stage, fault: Fault, g: Generated): (Stage, Db)
  {
    match stage
    case AtIdentity => Guarded(AtIngest, CreateIdentity(db, p.telegramId), db, fault)
    case AtIngest =>
      var r := Ingest(db, FactOf(p, g));
      if r.None? then (Answered(503), db) else Guarded(AtApply(r.value.0.ref), r.value.1, db, fault)
    case AtApply(ref) =>
      var (r, db') := Apply(db, ref);
      Guarded(if r.NotFound? then Answered(409) else AtUpsert(r == Applied(ActiveApplied)), db', db, fault)
    case AtUpsert(first) =>
      Guarded(if first then AtNotice else Answered(200), UpsertState(db, p.user, PaidSnapshot(p)), db, fault)
    case AtNotice => (Answered(200), db)
    case Answered(_) => (stage, db)
  }

  function Guarded(next: Stage, committed: Db, db: Db, fault: Fault): (Stage, Db)
  {
    match fault
    case NoFault => (next, committed)
    case BeforeCommit => (Answered(503), db)
    case AfterCommit => (Answered(503), committed)
  }

  /** One delivery run without interleaving, each transaction meeting its own fault. */
  function Deliver(db: Db, p: Payment, g: Generated, faults: (Fault, Fault, Fault, Fault)): (int, bool, Db)
  {
    var (s1, db1) := Advance(db, p, AtIdentity, faults.0, g);
    var (s2, db2) := Advance(db1, p, s1, faults.1, g);
    if s2.AtApply? then FinishDelivery(db2, p, s2.ref, g, faults) else (503, false, db2)
  }

  /** From the apply on: the answer, whether the notice is sent, and the tables. */
  function FinishDelivery(db: Db, p: Payment, ref: string, g: Generated, faults: (Fault, Fault, Fault, Fault)): (int, bool, Db)
  {
    var (s3, db3) := Advance(db, p, AtApply(ref), faults.2, g);
    var (s4, db4) := Advance(db3, p, s3, faults.3, g);
    (if s4.Answered? then s4.code else 200, s4.AtNotice?, db4)
  }

  class FulfillmentDatabase {
    var identities: map<int, string>
    var ledger: map<string, Fact>
    var events: map<EventKey, string>
    var applies: map<string, Decision>
    var snapshots: Snapshots
    var ingestAudit: seq<IngestAudit>
    var applyAudit: seq<ApplyAudit>
    var notices: seq<EventKey>

    ghost function State(): Db
      reads this
    {
      Db(identities, ledger, events, applies, snapshots, ingestAudit, applyAudit)
    }

    constructor ()
      ensures State() == EMPTY && notices == []
    {
      identities, ledger, events, applies, snapshots := map[], map[], map[], map[], map[];
      ingestAudit, applyAudit, notices := [], [], [];
    }

    method CreateIfAbsent(tg: int, fault: Fault) returns (ok: bool)
      modifies this
      ensures ok == (fault == NoFault) && notices == old(notices)
      ensures State() == if fault == BeforeCommit then old(State()) else CreateIdentity(old(State()), tg)
    {
      if fault != BeforeCommit && tg !in identities {
        identities := identities[tg := "u" + Signed(tg)];
      }
      ok := fault == NoFault;
    }

    method IngestNormalizedBillingFact(f: Fact, fault: Fault) returns (stored: Option<Fact>)
      modifies this
      ensures var r := Ingest(old(State()), f);
              State() == (if r.None? || fault == BeforeCommit then old(State()) else r.value.1)
              && stored == if r.None? || fault != NoFault then None else Some(r.value.0)
      ensures notices == old(notices)
    {
      var record := BuildLedgerRecord(f);
      if record.None? || !Storable(record.value.body) || fault == BeforeCommit {
        return None;
      }
      var row := record.value;
      var key := row.body.key;
      if key in events && events[key] in ledger {
        row := ledger[events[key]];
        ingestAudit := ingestAudit + [IngestAudit(row.ref, true)];
      } else if row.ref in ledger {
        return None;
      } else {
        ledger := ledger[row.ref := row];
        events := events[key := row.ref];
        ingestAudit := ingestAudit + [IngestAudit(row.ref, false)];
      }
      stored := if fault == NoFault then Some(row) else None;
    }

    method ApplyByInternalFactRef(ref: string, fault: Fault) returns (r: Option<ApplyResult>)
      modifies this
      ensures State() == if fault == BeforeCommit then old(State()) else Apply(old(State()), ref).1
      ensures r == if fault == NoFault then Some(Apply(old(State()), ref).0) else None
      ensures notices == old(notices)
    {
      if fault == BeforeCommit {
        return None;
      }
      var result := NotFound;
      if ref in ledger {
        if ref in applies {
          result := Replayed(applies[ref].outcome);
        } else {
          var d := FirstTimeDecision(ledger[ref].body);
          if d.snapshotLabel.Some? {
            snapshots := snapshots[d.recordUser := Snapshot(d.snapshotLabel.value, None)];
          }
          applies := applies[ref := d];
          applyAudit := applyAudit + [ApplyAudit(ref, d)];
          result := Applied(d.outcome);
        }
      }
      r := if fault == NoFault then Some(result) else None;
    }

    method Upsert(user: string, snap: Snapshot, fault: Fault) returns (ok: bool)
      modifies this
      ensures ok == (fault == NoFault) && notices == old(notices)
      ensures State() == if fault == BeforeCommit then old(State()) else UpsertState(old(State()), user, snap)
    {
      if fault != BeforeCommit {
        snapshots := snapshots[user := snap];
      }
      ok := fault == NoFault;
    }

    /** The handler after parsing and identity resolution. */
    method Handle(p: Payment, g: Generated, faults: (Fault, Fault, Fault, Fault)) returns (code: int)
      modifies this
      ensures var d := Deliver(old(State()), p, g, faults);
              code == d.0 && State() == d.2
              && notices == old(notices) + (if d.1 then [p.key] else [])
    {
      var ok := CreateIfAbsent(p.telegramId, faults.0);
      if !ok {
        return 503;
      }
      var stored := IngestNormalizedBillingFact(FactOf(p, g), faults.1);
      if stored.None? {
        return 503;
      }
      code := Finish(p, stored.value.ref, g, faults);
    }

    /** The handler from the apply on. */
    method Finish(p: Payment, ref: string, g: Generated, faults: (Fault, Fault, Fault, Fault)) returns (code: int)
      modifies this
      ensures var d := FinishDelivery(old(State()), p, ref, g, faults);
              code == d.0 && State() == d.2
              && notices == old(notices) + (if d.1 then [p.key] else [])
    {
      var r := ApplyByInternalFactRef(ref, faults.2);
      if r.None? {
        return 503;
      }
      if r.value.NotFound? {
        return 409;
      }
      var ok := Upsert(p.user, PaidSnapshot(p), faults.3);
      if !ok {
        return 503;
      }
      if r.value == Applied(ActiveApplied) {
        notices := notices + [p.key];
      }
      code := 200;
    }
  }
}
