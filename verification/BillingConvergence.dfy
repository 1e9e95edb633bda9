/** What redelivery comes to: every interrupted history of a paid event that ends in one 200 leaves
    what one uninterrupted delivery leaves; labels are a fold over the first applies; and where the
    paid period goes wrong. */
module BillingConvergence {
  import opened Basics
  import opened Subscription
  import opened Billing
  import opened BillingWorld

  // ---- One event among others ----

  predicate Recorded(db: Db, p: Payment)
  {
    p.key in db.events && db.events[p.key] in db.ledger && db.ledger[db.events[p.key]].body == BodyOf(p)
  }

  predicate Decided(db: Db, p: Payment)
  {
    Recorded(db, p) && db.events[p.key] in db.applies && db.applies[db.events[p.key]] == FirstTimeDecision(BodyOf(p))
  }

  predicate Settled(db: Db, p: Payment)
  {
    p.telegramId in db.identities && Decided(db, p)
    && p.user in db.snapshots && db.snapshots[p.user] == PaidSnapshot(p)
  }

  predicate Writes(b: Body, user: string)
  {
    FirstTimeDecision(b).snapshotLabel.Some? && FirstTimeDecision(b).recordUser == user
  }

  /** A first apply of another event's fact that sets this payment's user. */
  predicate Foreign(db: Db, ref: string, p: Payment)
  {
    ref in db.ledger && ref !in db.applies && Writes(db.ledger[ref].body, p.user) && db.ledger[ref].body.key != p.key
  }

  /** The event id stands for one body, and no other event sets this user's snapshot here. */
  predicate Compatible(w: World, e: Event, p: Payment)
  {
    match e
    case Begin(_, q) => if q.key == p.key then q == p else q.user != p.user
    case Progress(id, _, _) =>
      id in w.tasks && w.tasks[id].stage.AtApply? ==> !Foreign(w.db, w.tasks[id].stage.ref, p)
    case IngestFact(f, _) =>
      var record := BuildLedgerRecord(f);
      record.Some? && record.value.body.key == p.key ==> record.value.body == BodyOf(p)
    case ApplyRef(ref, _) => !Foreign(w.db, ref, p)
    case _ => true
  }

  predicate Undisturbed(w: World, events: seq<Event>, p: Payment)
    decreases |events|
  {
    events != [] ==> Compatible(w, events[0], p) && Undisturbed(Step(w, events[0]), events[1..], p)
  }

  /** Rows of user_identities are never changed, and new ones follow the id convention. */
  predicate IdentitiesFrom(db0: Db, db: Db)
  {
    (forall tg <- db0.identities :: tg in db.identities && db.identities[tg] == db0.identities[tg])
    && (forall tg <- db.identities :: tg in db0.identities || db.identities[tg] == "u" + Signed(tg))
  }

  predicate DbOk(db0: Db, db: Db, p: Payment)
  {
    IdentitiesFrom(db0, db) && (p.key in db.events ==> Recorded(db, p)) && (p.key in db.events && db.events[p.key] in db.applies ==> Decided(db, p))
  }

  predicate ProgressOk(db: Db, t: Task, p: Payment)
  {
    if t.payment.key != p.key then t.payment.user != p.user
    else
      t.payment == p
      && (!t.stage.AtIdentity? ==> p.telegramId in db.identities)
      && (t.stage.AtUpsert? ==> Decided(db, p))
      && (t.stage.AtNotice? ==> Settled(db, p))
  }

  predicate Converging(db0: Db, w: World, p: Payment)
  {
    DbOk(db0, w.db, p)
    && (forall id {:trigger w.tasks[id]} :: id in w.tasks ==> ProgressOk(w.db, w.tasks[id], p))
    && ((p, 200) in w.answers ==> Settled(w.db, p))
  }

  /** What of p's progress a change of the tables must not undo. */
  predicate KeepsFor(db: Db, db': Db, p: Payment)
  {
    (forall tg <- db.identities :: tg in db'.identities) && (Decided(db, p) ==> Decided(db', p)) && (Settled(db, p) ==> Settled(db', p))
  }

  lemma ApplyKeepsFor(db0: Db, db: Db, ref: string, p: Payment)
    requires RowsOk(db) && DbOk(db0, db, p) && !Foreign(db, ref, p)
    ensures DbOk(db0, Apply(db, ref).1, p) && KeepsFor(db, Apply(db, ref).1, p)
  {
    if ref in db.ledger {
      assert RowOk(db, ref);
    }
  }

  lemma AppendKeepsFor(db0: Db, db: Db, f: Fact, p: Payment)
    requires RowsOk(db) && DbOk(db0, db, p) && (f.body.key == p.key ==> f.body == BodyOf(p)) && Append(db, f).Some?
    ensures DbOk(db0, Append(db, f).value.1, p) && KeepsFor(db, Append(db, f).value.1, p)
  {
    if f.body.key in db.events {
      assert EventOk(db, f.body.key);
    } else {
      NewRowKeepsFor(db0, db, f, p, Append(db, f).value.1);
    }
  }

  lemma NewRowKeepsFor(db0: Db, db: Db, f: Fact, p: Payment, db': Db)
    requires RowsOk(db) && DbOk(db0, db, p) && (f.body.key == p.key ==> f.body == BodyOf(p))
    requires f.body.key !in db.events && f.ref !in db.ledger
    requires db'.ledger == db.ledger[f.ref := f] && db'.events == db.events[f.body.key := f.ref] && db'.applies == db.applies
    requires db'.identities == db.identities && db'.snapshots == db.snapshots
    ensures DbOk(db0, db', p) && KeepsFor(db, db', p)
  {
    assert f.ref in db.applies ==> ApplyOk(db, f.ref);
  }

  lemma TablesMove(db0: Db, w: World, db: Db, p: Payment)
    requires Converging(db0, w, p) && DbOk(db0, db, p) && KeepsFor(w.db, db, p)
    ensures Converging(db0, w.(db := db), p)
  {
    var w' := w.(db := db);
    forall id | id in w'.tasks ensures ProgressOk(db, w'.tasks[id], p) {
      assert ProgressOk(w.db, w.tasks[id], p);
    }
  }

  /** The tables after one step of a delivery. */
  lemma AdvanceKeepsFor(db0: Db, w: World, id: nat, fault: Fault, g: Generated, p: Payment)
    requires RowsOk(w.db) && DeliveriesOk(w) && Converging(db0, w, p) && id in w.tasks
    requires w.tasks[id].stage.AtApply? ==> !Foreign(w.db, w.tasks[id].stage.ref, p)
    ensures var db := Advance(w.db, w.tasks[id].payment, w.tasks[id].stage, fault, g).1;
            DbOk(db0, db, p) && KeepsFor(w.db, db, p)
  {
    var t := w.tasks[id];
    assert ProgressOk(w.db, t, p) && TaskOk(w.db, t);
    match t.stage {
      case AtIdentity => IdentityKeepsFor(db0, w.db, t.payment.telegramId, p);
      case AtIngest =>
        IngestNext(w.db, t.payment, fault, g);
        WebhookIngestKeepsFor(db0, w.db, t.payment, g, p);
      case AtApply(ref) => ApplyKeepsFor(db0, w.db, ref, p);
      case AtUpsert(_) => UpsertKeepsFor(db0, w.db, t.payment, p);
      case _ =>
    }
  }

  lemma WebhookIngestKeepsFor(db0: Db, db: Db, q: Payment, g: Generated, p: Payment)
    requires RowsOk(db) && DbOk(db0, db, p) && Parsed(q) && (q.key == p.key ==> q == p)
    ensures var r := Ingest(db, FactOf(q, g));
            r.Some? ==> DbOk(db0, r.value.1, p) && KeepsFor(db, r.value.1, p)
  {
    ParsedIngest(db, q, g);
    if Append(db, FactOf(q, g)).Some? {
      AppendKeepsFor(db0, db, FactOf(q, g), p);
    }
  }

  lemma IdentityKeepsFor(db0: Db, db: Db, tg: int, p: Payment)
    requires DbOk(db0, db, p)
    ensures DbOk(db0, CreateIdentity(db, tg), p) && KeepsFor(db, CreateIdentity(db, tg), p)
  {
  }

  lemma UpsertKeepsFor(db0: Db, db: Db, q: Payment, p: Payment)
    requires DbOk(db0, db, p) && (if q.key == p.key then q == p else q.user != p.user)
    ensures DbOk(db0, UpsertState(db, q.user, PaidSnapshot(q)), p) && KeepsFor(db, UpsertState(db, q.user, PaidSnapshot(q)), p)
  {
  }

  lemma ProgressConverges(db0: Db, w: World, id: nat, fault: Fault, g: Generated, p: Payment)
    requires RowsOk(w.db) && DeliveriesOk(w) && Converging(db0, w, p) && id in w.tasks && p.user != ""
    requires w.tasks[id].stage.AtApply? ==> !Foreign(w.db, w.tasks[id].stage.ref, p)
    ensures Converging(db0, StepTask(w, id, fault, g), p)
  {
    var t := w.tasks[id];
    var (next, db) := Advance(w.db, t.payment, t.stage, fault, g);
    AdvanceKeepsFor(db0, w, id, fault, g, p);
    TablesMove(db0, w, db, p);
    AdvanceProgresses(db0, w, id, fault, g, p);
    var w' := StepTask(w, id, fault, g);
    forall j | j in w'.tasks ensures ProgressOk(db, w'.tasks[j], p) {
      assert j != id ==> w'.tasks[j] == w.tasks[j] && ProgressOk(db, w.(db := db).tasks[j], p);
    }
    if (p, 200) in w'.answers && (p, 200) !in w.answers {
      assert next == Answered(200) && t.payment == p;
    }
  }

  /** The stage reached by p's own delivery is backed by the tables. */
  lemma AdvanceProgresses(db0: Db, w: World, id: nat, fault: Fault, g: Generated, p: Payment)
    requires RowsOk(w.db) && DeliveriesOk(w) && Converging(db0, w, p) && id in w.tasks && p.user != ""
    requires w.tasks[id].stage.AtApply? ==> !Foreign(w.db, w.tasks[id].stage.ref, p)
    ensures var t := w.tasks[id];
            var (next, db) := Advance(w.db, t.payment, t.stage, fault, g);
            if next.Answered? then next == Answered(200) && t.payment.key == p.key ==> Settled(db, p)
            else ProgressOk(db, Task(t.payment, next), p)
  {
    var t := w.tasks[id];
    assert ProgressOk(w.db, t, p) && TaskOk(w.db, t);
    AdvanceKeepsFor(db0, w, id, fault, g, p);
    if t.payment == p {
      match t.stage {
        case AtApply(_) => ApplyDecides(db0, w.db, p, fault, g);
        case AtIngest => IngestNext(w.db, p, fault, g);
        case AtUpsert(_) => UpsertProgresses(w.db, p, t.stage, fault, g);
        case _ =>
      }
    }
  }

  lemma UpsertProgresses(db: Db, p: Payment, stage: Stage, fault: Fault, g: Generated)
    requires stage.AtUpsert? && Decided(db, p) && p.telegramId in db.identities
    ensures var (next, db') := Advance(db, p, stage, fault, g);
            if next.Answered? then next.code != 200 || Settled(db', p) else ProgressOk(db', Task(p, next), p)
  {
  }

  lemma ApplyDecides(db0: Db, db: Db, p: Payment, fault: Fault, g: Generated)
    requires RowsOk(db) && DbOk(db0, db, p) && p.key in db.events && p.user != "" && p.telegramId in db.identities
    ensures var (next, db') := Advance(db, p, AtApply(db.events[p.key]), fault, g);
            if next.Answered? then next.code == 503 else ProgressOk(db', Task(p, next), p)
  {
    assert EventOk(db, p.key);
    assert db.events[p.key] in db.applies ==> ApplyOk(db, db.events[p.key]);
  }

  lemma {:induction false} StepConverges(db0: Db, w: World, e: Event, p: Payment)
    requires RowsOk(w.db) && DeliveriesOk(w) && Converging(db0, w, p) && Compatible(w, e, p) && p.user != ""
    ensures Converging(db0, Step(w, e), p)
  {
    match e {
      case Begin(id, q) => BeginConverges(db0, w, id, q, p);
      case Progress(id, fault, g) =>
        if id in w.tasks {
          ProgressConverges(db0, w, id, fault, g, p);
        }
      case Crash(id) => CrashConverges(db0, w, id, p);
      case IngestFact(f, fault) =>
        if Ingest(w.db, f).Some? && fault != BeforeCommit {
          AppendKeepsFor(db0, w.db, BuildLedgerRecord(f).value, p);
          TablesMove(db0, w, Ingest(w.db, f).value.1, p);
        }
      case ApplyRef(ref, fault) =>
        if fault != BeforeCommit {
          ApplyKeepsFor(db0, w.db, ref, p);
          TablesMove(db0, w, Apply(w.db, ref).1, p);
        }
      case BootstrapUser(user) =>
        TablesMove(db0, w, PutIfAbsent(w.db, user), p);
    }
  }

  lemma BeginConverges(db0: Db, w: World, id: nat, q: Payment, p: Payment)
    requires Converging(db0, w, p) && (if q.key == p.key then q == p else q.user != p.user)
    ensures Converging(db0, Step(w, Begin(id, q)), p)
  {
    var w' := Step(w, Begin(id, q));
    forall j | j in w'.tasks ensures ProgressOk(w'.db, w'.tasks[j], p) {
      assert j in w.tasks ==> w'.tasks[j] == w.tasks[j];
    }
  }

  lemma CrashConverges(db0: Db, w: World, id: nat, p: Payment)
    requires Converging(db0, w, p)
    ensures Converging(db0, Step(w, Crash(id)), p)
  {
    var w' := Step(w, Crash(id));
    forall j | j in w'.tasks ensures ProgressOk(w'.db, w'.tasks[j], p) {
      assert w'.tasks[j] == w.tasks[j];
    }
  }

  lemma {:induction false} RunConverges(db0: Db, w: World, events: seq<Event>, p: Payment)
    requires Ok(w) && Converging(db0, w, p) && Undisturbed(w, events, p) && p.user != ""
    ensures Converging(db0, Run(w, events), p)
    decreases |events|
  {
    if events != [] {
      StepConverges(db0, w, events[0], p);
      StepIsOk(w, events[0]);
      RunConverges(db0, Step(w, events[0]), events[1..], p);
    }
  }

  /** What p is about: its identity row, what its ledger row says, its apply record, its user's snapshot. */
  function Footprint(db: Db, p: Payment): (Option<string>, Option<Body>, Option<Decision>, Option<Snapshot>)
  {
    var ref := if p.key in db.events then db.events[p.key] else "";
    (if p.telegramId in db.identities then Some(db.identities[p.telegramId]) else None,
     if p.key in db.events && ref in db.ledger then Some(db.ledger[ref].body) else None,
     if p.key in db.events && ref in db.applies then Some(db.applies[ref]) else None,
     SnapshotOf(db.snapshots, p.user))
  }

  /** The footprint a completed payment has. */
  function PaidFootprint(db0: Db, p: Payment): (Option<string>, Option<Body>, Option<Decision>, Option<Snapshot>)
  {
    (Some(if p.telegramId in db0.identities then db0.identities[p.telegramId] else "u" + Signed(p.telegramId)),
     Some(BodyOf(p)), Some(Decision(ActiveApplied, ReasonOk, Some("active"), p.user)),
     Some(Snapshot("active", Some(p.paidAt + p.periodDays * 86400))))
  }

  lemma SettledFootprint(db0: Db, db: Db, p: Payment)
    requires IdentitiesFrom(db0, db) && Settled(db, p) && p.user != ""
    ensures Footprint(db, p) == PaidFootprint(db0, p)
  {
  }

  const CALM := (NoFault, NoFault, NoFault, NoFault)

  predicate IdsFollowConvention(db: Db)
  {
    forall tg <- db.identities :: db.identities[tg] == "u" + Signed(tg)
  }

  /** The internal ids of the convention differ, so the unique column never refuses one. */
  lemma IdsAreUnique(db: Db, a: int, b: int)
    requires IdsFollowConvention(db) && a in db.identities && b in db.identities && a != b
    ensures db.identities[a] != db.identities[b]
  {
    if db.identities[a] == db.identities[b] {
      assert db.identities[a][1..] == Signed(a) && db.identities[b][1..] == Signed(b);
      SignedIsUnique(a, b);
    }
  }

  lemma {:induction false} RunsFollowConvention(w: World, events: seq<Event>)
    requires IdsFollowConvention(w.db)
    ensures IdsFollowConvention(Run(w, events).db)
    decreases |events|
  {
    if events != [] {
      var e := events[0];
      if e.Progress? && e.id in w.tasks {
        var t := w.tasks[e.id];
        AdvanceFollowsConvention(w.db, t.payment, t.stage, e.fault, e.generated);
      }
      RunsFollowConvention(Step(w, e), events[1..]);
    }
  }

  lemma AdvanceFollowsConvention(db: Db, p: Payment, stage: Stage, fault: Fault, g: Generated)
    requires IdsFollowConvention(db)
    ensures IdsFollowConvention(Advance(db, p, stage, fault, g).1)
  {
  }

  /** Tables in which p's event, if known at all, is known as this payment. */
  predicate Ready(db0: Db, p: Payment)
  {
    Conserved(db0) && Parsed(p) && IdsFollowConvention(db0) && (p.key in db0.events ==> Recorded(db0, p))
  }

  lemma ReadyIsOk(db0: Db, p: Payment)
    requires Ready(db0, p)
    ensures Ok(Initial(db0)) && Converging(db0, Initial(db0), p)
  {
    InitialIsOk(db0);
    if p.key in db0.events && db0.events[p.key] in db0.applies {
      assert ApplyOk(db0, db0.events[p.key]);
    }
  }

  lemma IdentityIsNew(db: Db, tg: int)
    requires IdsFollowConvention(db)
    ensures IdsFollowConvention(CreateIdentity(db, tg)) && IdentitiesFrom(db, CreateIdentity(db, tg))
  {
  }

  lemma {:induction false} CalmIdentity(db: Db, p: Payment)
    requires Ready(db, p)
    ensures Ready(CreateIdentity(db, p.telegramId), p) && IdentitiesFrom(db, CreateIdentity(db, p.telegramId))
    ensures p.telegramId in CreateIdentity(db, p.telegramId).identities
  {
    SnapshotsConserve(db, CreateIdentity(db, p.telegramId));
    IdentityIsNew(db, p.telegramId);
  }

  lemma CalmIngest(db: Db, p: Payment, g: Generated)
    requires Ready(db, p) && g.ref !in db.ledger && Ingestible(p)
    ensures var r := Ingest(db, FactOf(p, g));
            r.Some? && Conserved(r.value.1) && Recorded(r.value.1, p) && r.value.1.events[p.key] == r.value.0.ref
            && r.value.1.identities == db.identities && r.value.1.applies == db.applies
            && (r.value.0.ref in db.applies <==> p.key in db.events && db.events[p.key] in db.applies)
  {
    var f := FactOf(p, g);
    assert p.key in db.events ==> EventOk(db, p.key) && RowOk(db, db.events[p.key]);
    ParsedIngest(db, p, g);
    AppendConserves(db, f);
    AppendKeepsRows(db, f);
    assert g.ref in db.applies ==> ApplyOk(db, g.ref);
  }

  lemma CalmApply(db: Db, p: Payment)
    requires Conserved(db) && Recorded(db, p) && p.user != ""
    ensures var (r, db') := Apply(db, db.events[p.key]);
            Decided(db', p) && db'.identities == db.identities && !r.NotFound?
            && (r == Applied(ActiveApplied) <==> db.events[p.key] !in db.applies)
  {
    var ref := db.events[p.key];
    assert ref in db.applies ==> ApplyOk(db, ref);
  }

  /** An uninterrupted delivery, step by step. */
  lemma StepsSettle(db0: Db, p: Payment, g: Generated, r1: Option<(Fact, Db)>, r: ApplyResult, db3: Db)
    requires Ready(db0, p) && g.ref !in db0.ledger && Ingestible(p)
    requires r1 == Ingest(CreateIdentity(db0, p.telegramId), FactOf(p, g))
    requires r1.Some? ==> (r, db3) == Apply(r1.value.1, r1.value.0.ref)
    ensures r1.Some? && !r.NotFound? && Settled(UpsertState(db3, p.user, PaidSnapshot(p)), p) && IdentitiesFrom(db0, db3)
    ensures r == Applied(ActiveApplied) <==> !(p.key in db0.events && db0.events[p.key] in db0.applies)
  {
    var db1 := CreateIdentity(db0, p.telegramId);
    CalmIdentity(db0, p);
    CalmIngest(db1, p, g);
    CalmApply(r1.value.1, p);
  }

  lemma ReachesApply(db0: Db, p: Payment, g: Generated, faults: (Fault, Fault, Fault, Fault),
                                        r1: Option<(Fact, Db)>)
    requires r1 == Ingest(CreateIdentity(db0, p.telegramId), FactOf(p, g)) && r1.Some? && faults.0 == faults.1 == NoFault
    ensures Deliver(db0, p, g, faults) == FinishDelivery(r1.value.1, p, r1.value.0.ref, g, faults)
  {
  }

  lemma FinishStops(db: Db, p: Payment, ref: string, g: Generated, faults: (Fault, Fault, Fault, Fault))
    requires faults.2 != NoFault
    ensures FinishDelivery(db, p, ref, g, faults) == (503, false, if faults.2 == BeforeCommit then db else Apply(db, ref).1)
  {
  }

  lemma FinishUpserts(db: Db, p: Payment, ref: string, g: Generated, faults: (Fault, Fault, Fault, Fault))
    requires faults.2 == NoFault && !Apply(db, ref).0.NotFound?
    ensures var (r, db3) := Apply(db, ref);
            FinishDelivery(db, p, ref, g, faults)
            == (if faults.3 == NoFault then 200 else 503, r == Applied(ActiveApplied) && faults.3 == NoFault,
                if faults.3 == BeforeCommit then db3 else UpsertState(db3, p.user, PaidSnapshot(p)))
  {
  }

  lemma DeliverUnfolds(db0: Db, p: Payment, g: Generated, r1: Option<(Fact, Db)>, r: ApplyResult, db3: Db)
    requires r1 == Ingest(CreateIdentity(db0, p.telegramId), FactOf(p, g))
    requires r1.Some? && (r, db3) == Apply(r1.value.1, r1.value.0.ref) && !r.NotFound?
    ensures Deliver(db0, p, g, CALM) == (200, r == Applied(ActiveApplied), UpsertState(db3, p.user, PaidSnapshot(p)))
  {
    ReachesApply(db0, p, g, CALM, r1);
    FinishUpserts(r1.value.1, p, r1.value.0.ref, g, CALM);
  }

  lemma DeliverSettles(db0: Db, p: Payment, g: Generated) returns (db: Db)
    requires Ready(db0, p) && g.ref !in db0.ledger && Ingestible(p)
    ensures Deliver(db0, p, g, CALM) == (200, !(p.key in db0.events && db0.events[p.key] in db0.applies), db)
    ensures Footprint(db, p) == PaidFootprint(db0, p)
  {
    var r1 := Ingest(CreateIdentity(db0, p.telegramId), FactOf(p, g));
    var (r, db3) := if r1.Some? then Apply(r1.value.1, r1.value.0.ref) else (NotFound, db0);
    StepsSettle(db0, p, g, r1, r, db3);
    DeliverUnfolds(db0, p, g, r1, r, db3);
    db := UpsertState(db3, p.user, PaidSnapshot(p));
    SettledFootprint(db0, db, p);
  }

  // ---- Payments that ingest refuses ----

  /** No delivery of p has passed ingest, and none has been answered 200. */
  predicate Barred(w: World, p: Payment)
  {
    (p, 200) !in w.answers
    && forall id {:trigger w.tasks[id]} :: id in w.tasks && w.tasks[id].payment == p ==>
         Parsed(p) && (w.tasks[id].stage == AtIdentity || w.tasks[id].stage == AtIngest)
  }

  lemma RefusedAdvance(db: Db, p: Payment, stage: Stage, fault: Fault, g: Generated)
    requires Parsed(p) && !Ingestible(p) && (stage == AtIdentity || stage == AtIngest)
    ensures var (next, db') := Advance(db, p, stage, fault, g);
            (next == AtIngest || next == Answered(503))
            && (db' == db || (stage == AtIdentity && db' == CreateIdentity(db, p.telegramId)))
  {
    ParsedIngest(db, p, g);
  }

  /** In every run from any tables, whatever else goes on: a payment that ingest refuses is never answered
      200, and no delivery of it gets as far as apply. */
  lemma {:induction false} RefusedIsNeverPaid(w: World, events: seq<Event>, p: Payment)
    requires Barred(w, p) && !Ingestible(p)
    ensures Barred(Run(w, events), p)
    decreases |events|
  {
    if events != [] {
      RefusedStep(w, events[0], p);
      RefusedIsNeverPaid(Step(w, events[0]), events[1..], p);
    }
  }

  lemma RefusedStep(w: World, e: Event, p: Payment)
    requires Barred(w, p) && !Ingestible(p)
    ensures Barred(Step(w, e), p)
  {
    var w' := Step(w, e);
    if e.Progress? && e.id in w.tasks && w.tasks[e.id].payment == p {
      RefusedAdvance(w.db, p, w.tasks[e.id].stage, e.fault, e.generated);
    }
    forall id | id in w'.tasks && w'.tasks[id].payment == p
      ensures Parsed(p) && (w'.tasks[id].stage == AtIdentity || w'.tasks[id].stage == AtIngest) {
      if id in w.tasks {
        assert w.tasks[id].payment == w'.tasks[id].payment;
      }
    }
  }

  /** With no other event about, all that deliveries of a refused payment leave is the identity row. */
  lemma {:induction false} RefusedAlone(db0: Db, w: World, events: seq<Event>, p: Payment)
    requires Barred(w, p) && !Ingestible(p) && OwnTasks(w, p) && Alone(events, p) && w.notices == []
    requires w.db == db0 || w.db == CreateIdentity(db0, p.telegramId)
    ensures var w' := Run(w, events);
            (w'.db == db0 || w'.db == CreateIdentity(db0, p.telegramId)) && w'.notices == [] && (p, 200) !in w'.answers
    decreases |events|
  {
    if events != [] {
      var e := events[0];
      RefusedStep(w, e, p);
      StepKeepsOwn(w, e, p);
      if e.Progress? && e.id in w.tasks {
        assert w.tasks[e.id].payment == p;
        RefusedAdvance(w.db, p, w.tasks[e.id].stage, e.fault, e.generated);
      }
      assert OfPayment(e, p);
      RefusedAlone(db0, Step(w, e), events[1..], p);
    }
  }

  /** One delivery of a refused payment, whatever the faults. */
  lemma RefusedDelivery(db0: Db, p: Payment, g: Generated, faults: (Fault, Fault, Fault, Fault))
    requires Parsed(p) && !Ingestible(p)
    ensures var (code, told, db) := Deliver(db0, p, g, faults);
            code == 503 && !told && db == if faults.0 == BeforeCommit then db0 else CreateIdentity(db0, p.telegramId)
  {
    ParsedIngest(CreateIdentity(db0, p.telegramId), p, g);
    DeliverWithoutIngest(db0, p, g, faults);
  }

  lemma DeliverWithoutIngest(db0: Db, p: Payment, g: Generated, faults: (Fault, Fault, Fault, Fault))
    requires Ingest(CreateIdentity(db0, p.telegramId), FactOf(p, g)) == None
    ensures Deliver(db0, p, g, faults)
            == (503, false, if faults.0 == BeforeCommit then db0 else CreateIdentity(db0, p.telegramId))
  {
  }

  /** An uninterrupted delivery is answered 200 if and only if ingest takes the payment. */
  lemma DeliveryPaysExactlyWhen(db0: Db, p: Payment, g: Generated)
    requires Ready(db0, p) && g.ref !in db0.ledger
    ensures Deliver(db0, p, g, CALM).0 == 200 <==> Ingestible(p)
  {
    if Ingestible(p) {
      var db := DeliverSettles(db0, p, g);
    } else {
      RefusedDelivery(db0, p, g, CALM);
    }
  }

  /** From empty tables, after any run, for a payment whose event is not known under another body. */
  lemma PaysInEveryReachableState(events: seq<Event>, p: Payment, g: Generated)
    requires var db := Run(Initial(EMPTY), events).db;
             Parsed(p) && (p.key in db.events ==> Recorded(db, p)) && g.ref !in db.ledger
    ensures Deliver(Run(Initial(EMPTY), events).db, p, g, CALM).0 == 200 <==> Ingestible(p)
  {
    BillingConservation(events);
    RunsFollowConvention(Initial(EMPTY), events);
    DeliveryPaysExactlyWhen(Run(Initial(EMPTY), events).db, p, g);
  }

  /** A payment id with a control character inside passes the parser and is refused. */
  lemma ControlCharacterIsRefused() returns (p: Payment)
    ensures Parsed(p) && !Ingestible(p) && p.paymentId == ['p', 7 as char, 'x']
  {
    p := Payment(EventKey("k", "e"), 1, "u1", 0, 30, ['p', 7 as char, 'x']);
    assert IsControl(p.paymentId[1]);
  }

  // ---- The theorems ----

  lemma AnsweredMeansSettled(db0: Db, p: Payment, events: seq<Event>)
    requires Ready(db0, p) && Undisturbed(Initial(db0), events, p) && (p, 200) in Run(Initial(db0), events).answers
    ensures Footprint(Run(Initial(db0), events).db, p) == PaidFootprint(db0, p) && Ingestible(p)
  {
    if !Ingestible(p) {
      RefusedIsNeverPaid(Initial(db0), events, p);
    }
    ReadyIsOk(db0, p);
    RunConverges(db0, Initial(db0), events, p);
    SettledFootprint(db0, Run(Initial(db0), events).db, p);
  }

  /** Any interleaving of interrupted, failed and repeated deliveries of p with everything else that goes
      on, once one of them was answered 200: p's rows are those of one uninterrupted delivery. */
  lemma RedeliveryConverges(db0: Db, p: Payment, events: seq<Event>, g: Generated) returns (told: bool, calm: Db)
    requires Ready(db0, p) && Undisturbed(Initial(db0), events, p) && g.ref !in db0.ledger
    requires (p, 200) in Run(Initial(db0), events).answers
    ensures Deliver(db0, p, g, CALM) == (200, told, calm)
    ensures Footprint(Run(Initial(db0), events).db, p) == Footprint(calm, p) == PaidFootprint(db0, p)
  {
    AnsweredMeansSettled(db0, p, events);
    calm := DeliverSettles(db0, p, g);
    told := !(p.key in db0.events && db0.events[p.key] in db0.applies);
  }

  // ---- One event alone ----

  predicate OfPayment(e: Event, p: Payment)
  {
    match e
    case Begin(_, q) => q == p
    case Progress(_, _, _) | Crash(_) => true
    case _ => false
  }

  /** Everything in the tables that is not about p, audit trails aside. */
  function Rest(db: Db, p: Payment): (map<int, string>, map<string, Fact>, map<EventKey, string>, map<string, Decision>, Snapshots)
  {
    var refs := if p.key in db.events then {db.events[p.key]} else {};
    (db.identities - {p.telegramId}, db.ledger - refs, db.events - {p.key}, db.applies - refs, db.snapshots - {p.user})
  }

  lemma PutAndDrop<K, V>(m: map<K, V>, k: K, v: V)
    ensures m[k := v] - {k} == m - {k}
  {
  }

  lemma DropNothing<K, V>(m: map<K, V>, k: K)
    requires k !in m
    ensures m - {k} == m == m - {}
  {
  }

  lemma NewRowKeepsRest(db: Db, f: Fact, p: Payment, audits: seq<IngestAudit>)
    requires p.key !in db.events && f.ref !in db.ledger && f.ref !in db.applies
    ensures Rest(db.(ledger := db.ledger[f.ref := f], events := db.events[p.key := f.ref], ingestAudit := audits), p) == Rest(db, p)
  {
    PutAndDrop(db.ledger, f.ref, f);
    PutAndDrop(db.events, p.key, f.ref);
    DropNothing(db.ledger, f.ref);
    DropNothing(db.applies, f.ref);
  }

  lemma AppendKeepsRest(db: Db, f: Fact, p: Payment)
    requires RowsOk(db) && f.body.key == p.key && Append(db, f).Some?
    ensures Rest(Append(db, f).value.1, p) == Rest(db, p)
  {
    if p.key in db.events {
      assert EventOk(db, p.key);
    } else {
      assert f.ref in db.applies ==> ApplyOk(db, f.ref);
      NewRowKeepsRest(db, f, p, db.ingestAudit + [IngestAudit(f.ref, false)]);
    }
  }

  lemma ApplyKeepsRest(db: Db, p: Payment)
    requires Recorded(db, p) && p.user != ""
    ensures Rest(Apply(db, db.events[p.key]).1, p) == Rest(db, p)
  {
    var ref := db.events[p.key];
    var d := FirstTimeDecision(BodyOf(p));
    PutAndDrop(db.applies, ref, d);
    PutAndDrop(db.snapshots, p.user, Snapshot("active", None));
  }

  lemma AdvanceKeepsRest(db: Db, p: Payment, stage: Stage, fault: Fault, g: Generated)
    requires RowsOk(db) && Parsed(p) && (p.key in db.events ==> Recorded(db, p))
    requires stage.AtApply? ==> p.key in db.events && db.events[p.key] == stage.ref
    ensures Rest(Advance(db, p, stage, fault, g).1, p) == Rest(db, p)
  {
    match stage {
      case AtIdentity =>
        PutAndDrop(db.identities, p.telegramId, "u" + Signed(p.telegramId));
      case AtIngest =>
        ParsedIngest(db, p, g);
        if Append(db, FactOf(p, g)).Some? {
          AppendKeepsRest(db, FactOf(p, g), p);
        }
      case AtApply(_) =>
        ApplyKeepsRest(db, p);
      case AtUpsert(_) =>
        PutAndDrop(db.snapshots, p.user, PaidSnapshot(p));
      case _ =>
    }
  }

  predicate OwnTasks(w: World, p: Payment)
  {
    forall id {:trigger w.tasks[id]} :: id in w.tasks ==> w.tasks[id].payment == p
  }

  predicate Alone(events: seq<Event>, p: Payment)
  {
    forall i :: 0 <= i < |events| ==> OfPayment(events[i], p)
  }

  lemma OwnProgress(db0: Db, w: World, id: nat, fault: Fault, g: Generated, p: Payment)
    requires RowsOk(w.db) && DeliveriesOk(w) && DbOk(db0, w.db, p) && id in w.tasks && w.tasks[id].payment == p && p.user != ""
    ensures w.tasks[id].stage.AtApply? ==> !Foreign(w.db, w.tasks[id].stage.ref, p)
    ensures Rest(StepTask(w, id, fault, g).db, p) == Rest(w.db, p)
  {
    var stage := w.tasks[id].stage;
    assert TaskOk(w.db, w.tasks[id]);
    assert stage.AtApply? ==> EventOk(w.db, p.key);
    AdvanceKeepsRest(w.db, p, stage, fault, g);
  }

  lemma OwnStep(db0: Db, w: World, e: Event, p: Payment)
    requires RowsOk(w.db) && DeliveriesOk(w) && DbOk(db0, w.db, p) && OwnTasks(w, p) && OfPayment(e, p) && p.user != ""
    ensures Compatible(w, e, p) && Rest(Step(w, e).db, p) == Rest(w.db, p)
  {
    if e.Progress? && e.id in w.tasks {
      OwnProgress(db0, w, e.id, e.fault, e.generated, p);
    }
  }

  lemma StepKeepsOwn(w: World, e: Event, p: Payment)
    requires OwnTasks(w, p) && OfPayment(e, p)
    ensures OwnTasks(Step(w, e), p)
  {
    forall id | id in Step(w, e).tasks ensures Step(w, e).tasks[id].payment == p {
      assert id in w.tasks ==> w.tasks[id].payment == p;
    }
  }

  ghost predicate OwnWorld(db0: Db, w: World, p: Payment)
  {
    Ok(w) && Converging(db0, w, p) && OwnTasks(w, p)
  }

  lemma OwnWorldStays(db0: Db, w: World, e: Event, p: Payment)
    requires OwnWorld(db0, w, p) && OfPayment(e, p) && p.user != ""
    ensures OwnWorld(db0, Step(w, e), p)
  {
    OwnStep(db0, w, e, p);
    StepKeepsOwn(w, e, p);
    StepConverges(db0, w, e, p);
    StepIsOk(w, e);
  }

  lemma OwnStepIsCompatible(db0: Db, w: World, e: Event, p: Payment)
    requires OwnWorld(db0, w, p) && OfPayment(e, p) && p.user != ""
    ensures Compatible(w, e, p)
  {
    OwnStep(db0, w, e, p);
  }

  lemma {:induction false} OwnRunIsUndisturbed(db0: Db, w: World, events: seq<Event>, p: Payment)
    requires OwnWorld(db0, w, p) && Alone(events, p) && p.user != ""
    ensures Undisturbed(w, events, p)
    decreases |events|
  {
    if events != [] {
      OwnWorldStays(db0, w, events[0], p);
      OwnStepIsCompatible(db0, w, events[0], p);
      OwnRunIsUndisturbed(db0, Step(w, events[0]), events[1..], p);
    }
  }

  lemma OwnRunKeepsRest(db0: Db, w: World, events: seq<Event>, p: Payment)
    requires OwnWorld(db0, w, p) && Alone(events, p) && p.user != ""
    ensures Rest(Run(w, events).db, p) == Rest(w.db, p)
    decreases |events|, 1
  {
    if events != [] {
      OwnStep(db0, w, events[0], p);
      OwnRestOfRun(db0, w, events, p);
    }
  }

  lemma {:induction false} OwnRestOfRun(db0: Db, w: World, events: seq<Event>, p: Payment)
    requires OwnWorld(db0, w, p) && Alone(events, p) && p.user != "" && events != []
    ensures Rest(Run(w, events).db, p) == Rest(Step(w, events[0]).db, p)
    decreases |events|, 0
  {
    OwnWorldStays(db0, w, events[0], p);
    OwnRunKeepsRest(db0, Step(w, events[0]), events[1..], p);
  }

  lemma CalmKeepsRest(db0: Db, p: Payment, g: Generated, r1: Option<(Fact, Db)>, r: ApplyResult, db3: Db)
    requires Ready(db0, p) && g.ref !in db0.ledger && Ingestible(p)
    requires r1 == Ingest(CreateIdentity(db0, p.telegramId), FactOf(p, g))
    requires r1.Some? ==> (r, db3) == Apply(r1.value.1, r1.value.0.ref)
    ensures r1.Some? && Rest(UpsertState(db3, p.user, PaidSnapshot(p)), p) == Rest(db0, p)
  {
    var db1 := CreateIdentity(db0, p.telegramId);
    CalmIdentity(db0, p);
    CalmIngest(db1, p, g);
    PutAndDrop(db0.identities, p.telegramId, "u" + Signed(p.telegramId));
    ParsedIngest(db1, p, g);
    AppendKeepsRest(db1, FactOf(p, g), p);
    ApplyKeepsRest(r1.value.1, p);
    PutAndDrop(db3.snapshots, p.user, PaidSnapshot(p));
  }

  lemma DeliverKeepsRest(db0: Db, p: Payment, g: Generated)
    requires Ready(db0, p) && g.ref !in db0.ledger && Ingestible(p)
    ensures Rest(Deliver(db0, p, g, CALM).2, p) == Rest(db0, p)
  {
    var r1 := Ingest(CreateIdentity(db0, p.telegramId), FactOf(p, g));
    var (r, db3) := if r1.Some? then Apply(r1.value.1, r1.value.0.ref) else (NotFound, db0);
    StepsSettle(db0, p, g, r1, r, db3);
    CalmKeepsRest(db0, p, g, r1, r, db3);
    DeliverUnfolds(db0, p, g, r1, r, db3);
  }

  /** With no other event about, the whole of the tables is that of one uninterrupted delivery, but for
      the generated ref with its two stamps and the audit rows of replays. */
  lemma RedeliveryAlone(db0: Db, p: Payment, events: seq<Event>, g: Generated) returns (told: bool, calm: Db)
    requires Ready(db0, p) && Alone(events, p) && g.ref !in db0.ledger
    requires (p, 200) in Run(Initial(db0), events).answers
    ensures Deliver(db0, p, g, CALM) == (200, told, calm)
    ensures Footprint(Run(Initial(db0), events).db, p) == Footprint(calm, p) == PaidFootprint(db0, p)
    ensures Rest(Run(Initial(db0), events).db, p) == Rest(calm, p) == Rest(db0, p)
  {
    ReadyIsOk(db0, p);
    OwnRunIsUndisturbed(db0, Initial(db0), events, p);
    OwnRunKeepsRest(db0, Initial(db0), events, p);
    AnsweredMeansSettled(db0, p, events);
    DeliverKeepsRest(db0, p, g);
    told, calm := RedeliveryConverges(db0, p, events, g);
  }
}
