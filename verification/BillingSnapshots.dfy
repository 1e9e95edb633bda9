/** What the subscription snapshot is: a fold over the first applies where only UC-05 and bootstrap
    write it, and how the webhook's own upsert departs from that. */
module BillingSnapshots {
  import opened Basics
  import opened Subscription
  import opened Billing
  import opened BillingWorld
  import opened BillingConvergence

  /** The latest label the first applies gave a user. */
  function LastLabel(audits: seq<ApplyAudit>, user: string): Option<string>
  {
    if audits == [] then None
    else
      var d := audits[|audits| - 1].decision;
      if d.snapshotLabel.Some? && d.recordUser == user then d.snapshotLabel
      else LastLabel(audits[..|audits| - 1], user)
  }

  function Folded(audits: seq<ApplyAudit>, user: string, bootstrapped: bool): Option<Snapshot>
  {
    match LastLabel(audits, user)
    case Some(text) => Some(Snapshot(text, None))
    case None => if bootstrapped then Some(Snapshot("inactive", None)) else None
  }

  predicate WithoutDeliveries(events: seq<Event>)
  {
    forall i :: 0 <= i < |events| ==> events[i].IngestFact? || events[i].ApplyRef? || events[i].BootstrapUser?
  }

  ghost predicate IsFold(db: Db, users: set<string>)
  {
    forall u :: SnapshotOf(db.snapshots, u) == Folded(db.applyAudit, u, u in users)
  }

  lemma LastLabelAppend(audits: seq<ApplyAudit>, a: ApplyAudit, user: string)
    ensures LastLabel(audits + [a], user) ==
            if a.decision.snapshotLabel.Some? && a.decision.recordUser == user then a.decision.snapshotLabel
            else LastLabel(audits, user)
  {
    assert (audits + [a])[..|audits|] == audits;
  }

  lemma ApplyFolds(db: Db, ref: string, users: set<string>)
    requires IsFold(db, users)
    ensures IsFold(Apply(db, ref).1, users)
  {
    var db' := Apply(db, ref).1;
    if ref in db.ledger && ref !in db.applies {
      var d := FirstTimeDecision(db.ledger[ref].body);
      forall u ensures SnapshotOf(db'.snapshots, u) == Folded(db'.applyAudit, u, u in users) {
        LastLabelAppend(db.applyAudit, ApplyAudit(ref, d), u);
        assert SnapshotOf(db.snapshots, u) == Folded(db.applyAudit, u, u in users);
      }
    }
  }

  lemma BootstrapFolds(db: Db, user: string, users: set<string>)
    requires IsFold(db, users)
    ensures IsFold(PutIfAbsent(db, user), users + {user})
  {
    var db' := PutIfAbsent(db, user);
    forall u ensures SnapshotOf(db'.snapshots, u) == Folded(db'.applyAudit, u, u in users + {user}) {
      assert SnapshotOf(db.snapshots, u) == Folded(db.applyAudit, u, u in users);
    }
  }

  function Bootstrapped(events: seq<Event>): set<string>
  {
    set i | 0 <= i < |events| && events[i].BootstrapUser? :: events[i].user
  }

  lemma StepFolds(w: World, e: Event, users: set<string>)
    requires IsFold(w.db, users) && WithoutDeliveries([e])
    ensures IsFold(Step(w, e).db, users + Bootstrapped([e]))
  {
    assert [e][0] == e;
    match e {
      case ApplyRef(ref, _) =>
        ApplyFolds(w.db, ref, users);
        assert Bootstrapped([e]) == {};
      case BootstrapUser(user) =>
        BootstrapFolds(w.db, user, users);
        assert Bootstrapped([e]) == {user};
      case IngestFact(_, _) =>
        assert Bootstrapped([e]) == {};
      case _ =>
    }
    assert users + {} == users;
  }

  lemma {:induction false} RunFolds(w: World, events: seq<Event>, users: set<string>)
    requires IsFold(w.db, users) && WithoutDeliveries(events)
    ensures IsFold(Run(w, events).db, users + Bootstrapped(events))
    decreases |events|
  {
    if events == [] {
      assert users + Bootstrapped(events) == users;
    } else {
      StepFolds(w, events[0], users);
      RunFolds(Step(w, events[0]), events[1..], users + Bootstrapped([events[0]]));
      assert events == [events[0]] + events[1..];
      assert Bootstrapped(events) == Bootstrapped([events[0]]) + Bootstrapped(events[1..]);
      assert users + Bootstrapped([events[0]]) + Bootstrapped(events[1..]) == users + Bootstrapped(events);
    }
  }

  /** From empty tables, with facts ingested and applied in any order and number and users bootstrapped in
      between, a user's snapshot is the label of the latest first apply that carries one, else
      inactive if ever bootstrapped, else missing; each first apply is the decision of its fact. */
  lemma SnapshotIsAFold(events: seq<Event>, user: string)
    requires WithoutDeliveries(events)
    ensures var db := Run(Initial(EMPTY), events).db;
            SnapshotOf(db.snapshots, user) == Folded(db.applyAudit, user, BootstrapUser(user) in events)
            && forall a <- db.applyAudit :: a.ref in db.ledger && a.decision == FirstTimeDecision(db.ledger[a.ref].body)
  {
    var db := Run(Initial(EMPTY), events).db;
    RunFolds(Initial(EMPTY), events, {});
    assert SnapshotOf(db.snapshots, user) == Folded(db.applyAudit, user, user in {} + Bootstrapped(events));
    assert user in Bootstrapped(events) <==> BootstrapUser(user) in events;
    BillingConservation(events);
    forall a | a in db.applyAudit ensures a.ref in db.ledger && a.decision == FirstTimeDecision(db.ledger[a.ref].body) {
      assert ApplyOk(db, a.ref);
    }
  }

  // ---- Where the paid period goes wrong ----

  const OPEN_ENDED := Snapshot("active", None)

  lemma OpenEndedNeverExpires(now: int)
    ensures LifecycleStatus(Some(OPEN_ENDED), now) == SubscriptionActive
  {
  }

  /** The event has been applied. */
  predicate IsApplied(db: Db, p: Payment)
  {
    p.key in db.events && db.events[p.key] in db.applies
  }

  /** A delivery whose apply commits, given what its transactions do. */
  lemma StoppedAtApply(db0: Db, p: Payment, g: Generated, faults: (Fault, Fault, Fault, Fault),
                                          r1: Option<(Fact, Db)>, r: ApplyResult, db3: Db)
    requires r1 == Ingest(CreateIdentity(db0, p.telegramId), FactOf(p, g))
    requires r1.Some? && (r, db3) == Apply(r1.value.1, r1.value.0.ref)
    requires faults.0 == faults.1 == NoFault && faults.2 == AfterCommit
    ensures Deliver(db0, p, g, faults) == (503, false, db3)
  {
    ReachesApply(db0, p, g, faults, r1);
    FinishStops(r1.value.1, p, r1.value.0.ref, g, faults);
  }

  lemma ReachedUpsert(db0: Db, p: Payment, g: Generated, faults: (Fault, Fault, Fault, Fault),
                                         r1: Option<(Fact, Db)>, r: ApplyResult, db3: Db)
    requires r1 == Ingest(CreateIdentity(db0, p.telegramId), FactOf(p, g))
    requires r1.Some? && (r, db3) == Apply(r1.value.1, r1.value.0.ref) && !r.NotFound?
    requires faults.0 == faults.1 == faults.2 == NoFault
    ensures Deliver(db0, p, g, faults)
            == (if faults.3 == NoFault then 200 else 503, r == Applied(ActiveApplied) && faults.3 == NoFault,
                if faults.3 == BeforeCommit then db3 else UpsertState(db3, p.user, PaidSnapshot(p)))
  {
    ReachesApply(db0, p, g, faults, r1);
    FinishUpserts(r1.value.1, p, r1.value.0.ref, g, faults);
  }

  lemma EarlyStop(db0: Db, p: Payment, g: Generated, faults: (Fault, Fault, Fault, Fault),
                                     r1: Option<(Fact, Db)>)
    requires faults.0 != NoFault || faults.1 != NoFault || faults.2 == BeforeCommit
    requires r1 == Ingest(CreateIdentity(db0, p.telegramId), FactOf(p, g)) && r1.Some?
    ensures var (code, told, db) := Deliver(db0, p, g, faults);
            !told && (db == db0 || db == CreateIdentity(db0, p.telegramId) || db == r1.value.1)
  {
    if faults.0 == NoFault && faults.1 == NoFault {
      ReachesApply(db0, p, g, faults, r1);
      FinishStops(r1.value.1, p, r1.value.0.ref, g, faults);
    } else {
      StopsEarly(db0, p, g, faults, r1);
    }
  }

  lemma {:induction false} StopsEarly(db0: Db, p: Payment, g: Generated, faults: (Fault, Fault, Fault, Fault),
                                      r1: Option<(Fact, Db)>)
    requires faults.0 != NoFault || faults.1 != NoFault
    requires r1 == Ingest(CreateIdentity(db0, p.telegramId), FactOf(p, g)) && r1.Some?
    ensures Deliver(db0, p, g, faults)
            == (503, false, if faults.0 == BeforeCommit then db0
                            else if faults.0 == NoFault && faults.1 == AfterCommit then r1.value.1
                            else CreateIdentity(db0, p.telegramId))
  {
  }

  /** The faults under which the apply of a delivery is committed. */
  predicate ApplyCommits(faults: (Fault, Fault, Fault, Fault))
  {
    faults.0 == faults.1 == NoFault && faults.2 != BeforeCommit
  }

  /** A delivery of an event not yet applied: what it leaves of the label, the decision and the notice. */
  lemma FirstDelivery(db0: Db, p: Payment, g: Generated, faults: (Fault, Fault, Fault, Fault))
    returns (code: int, told: bool, db: Db)
    requires Ready(db0, p) && !IsApplied(db0, p) && g.ref !in db0.ledger
    ensures Deliver(db0, p, g, faults) == (code, told, db)
    ensures Ingestible(p) && ApplyCommits(faults) ==>
              Activated(db, p.key) && told == (faults.2 == faults.3 == NoFault)
              && SnapshotOf(db.snapshots, p.user)
                 == Some(if faults.2 == NoFault && faults.3 != BeforeCommit then PaidSnapshot(p) else OPEN_ENDED)
              && ((faults.2 == NoFault && faults.3 != BeforeCommit) || code == 503)
    ensures !Ingestible(p) || !ApplyCommits(faults) ==>
              !Activated(db, p.key) && !told && db.snapshots == db0.snapshots
  {
    if !Ingestible(p) {
      RefusedDelivery(db0, p, g, faults);
      var d := Deliver(db0, p, g, faults);
      code, told, db := d.0, d.1, d.2;
    } else if ApplyCommits(faults) {
      code, told, db := AppliedDelivery(db0, p, g, faults);
    } else {
      StoppedDelivery(db0, p, g, faults);
      var d := Deliver(db0, p, g, faults);
      code, told, db := d.0, d.1, d.2;
    }
  }

  lemma StoppedDelivery(db0: Db, p: Payment, g: Generated, faults: (Fault, Fault, Fault, Fault))
    requires Ready(db0, p) && !IsApplied(db0, p) && g.ref !in db0.ledger && Ingestible(p) && !ApplyCommits(faults)
    ensures var (code, told, db) := Deliver(db0, p, g, faults);
            !Activated(db, p.key) && !told && db.snapshots == db0.snapshots
  {
    var db1 := CreateIdentity(db0, p.telegramId);
    CalmIdentity(db0, p);
    CalmIngest(db1, p, g);
    IngestActivatesNothing(db1, p, g);
    EarlyStop(db0, p, g, faults, Ingest(db1, FactOf(p, g)));
  }

  lemma IngestActivatesNothing(db: Db, p: Payment, g: Generated)
    requires Conserved(db) && Parsed(p) && Ingestible(p) && !IsApplied(db, p) && g.ref !in db.ledger
    ensures var r := Ingest(db, FactOf(p, g));
            r.Some? && !Activated(r.value.1, p.key) && r.value.1.snapshots == db.snapshots
  {
    assert g.ref in db.applies ==> ApplyOk(db, g.ref);
    ParsedIngest(db, p, g);
  }

  lemma AppliedDelivery(db0: Db, p: Payment, g: Generated, faults: (Fault, Fault, Fault, Fault))
    returns (code: int, told: bool, db: Db)
    requires Ready(db0, p) && !IsApplied(db0, p) && g.ref !in db0.ledger && Ingestible(p) && ApplyCommits(faults)
    ensures Deliver(db0, p, g, faults) == (code, told, db)
    ensures Activated(db, p.key) && told == (faults.2 == faults.3 == NoFault)
    ensures SnapshotOf(db.snapshots, p.user)
            == Some(if faults.2 == NoFault && faults.3 != BeforeCommit then PaidSnapshot(p) else OPEN_ENDED)
    ensures (faults.2 == NoFault && faults.3 != BeforeCommit) || code == 503
  {
    var r1 := Ingest(CreateIdentity(db0, p.telegramId), FactOf(p, g));
    CalmIdentity(db0, p);
    CalmIngest(CreateIdentity(db0, p.telegramId), p, g);
    var (r, db3) := Apply(r1.value.1, r1.value.0.ref);
    CalmApply(r1.value.1, p);
    AppliedOpenEnded(r1.value.1, p, r1.value.0.ref);
    if faults.2 == AfterCommit {
      StoppedAtApply(db0, p, g, faults, r1, r, db3);
      code, told, db := 503, false, db3;
    } else {
      ReachedUpsert(db0, p, g, faults, r1, r, db3);
      code, told := if faults.3 == NoFault then 200 else 503, faults.3 == NoFault;
      db := if faults.3 == BeforeCommit then db3 else UpsertState(db3, p.user, PaidSnapshot(p));
    }
  }

  lemma AppliedOpenEnded(db: Db, p: Payment, ref: string)
    requires ref in db.ledger && db.ledger[ref].body == BodyOf(p) && p.user != "" && ref !in db.applies
    ensures SnapshotOf(Apply(db, ref).1.snapshots, p.user) == Some(OPEN_ENDED)
    ensures p.key in db.events && db.events[p.key] == ref ==> Activated(Apply(db, ref).1, p.key)
  {
  }

  /** A delivery of an event applied before: its user's snapshot stays or becomes the paid one. */
  lemma RepeatedDelivery(db0: Db, p: Payment, g: Generated, faults: (Fault, Fault, Fault, Fault))
    returns (code: int, told: bool, db: Db)
    requires Ready(db0, p) && IsApplied(db0, p) && g.ref !in db0.ledger
    ensures Deliver(db0, p, g, faults) == (code, told, db) && !told
    ensures SnapshotOf(db.snapshots, p.user) == SnapshotOf(db0.snapshots, p.user)
            || SnapshotOf(db.snapshots, p.user) == Some(PaidSnapshot(p))
  {
    if !Ingestible(p) {
      RefusedDelivery(db0, p, g, faults);
      code, told, db := 503, false, if faults.0 == BeforeCommit then db0 else CreateIdentity(db0, p.telegramId);
    } else {
      var r1 := Ingest(CreateIdentity(db0, p.telegramId), FactOf(p, g));
      CalmIdentity(db0, p);
      CalmIngest(CreateIdentity(db0, p.telegramId), p, g);
      IngestWritesNoSnapshot(CreateIdentity(db0, p.telegramId), FactOf(p, g));
      if !ApplyCommits(faults) {
        EarlyStop(db0, p, g, faults, r1);
        var d := Deliver(db0, p, g, faults);
        code, told, db := d.0, d.1, d.2;
      } else {
        code, told, db := RepeatedApply(db0, p, g, faults, r1);
      }
    }
  }

  lemma RepeatedApply(db0: Db, p: Payment, g: Generated, faults: (Fault, Fault, Fault, Fault), r1: Option<(Fact, Db)>)
    returns (code: int, told: bool, db: Db)
    requires r1 == Ingest(CreateIdentity(db0, p.telegramId), FactOf(p, g)) && r1.Some? && ApplyCommits(faults)
    requires Conserved(r1.value.1) && Recorded(r1.value.1, p) && r1.value.0.ref == r1.value.1.events[p.key] && p.user != ""
    requires r1.value.0.ref in r1.value.1.applies
    ensures Deliver(db0, p, g, faults) == (code, told, db) && !told
    ensures db.snapshots == r1.value.1.snapshots || db.snapshots == r1.value.1.snapshots[p.user := PaidSnapshot(p)]
  {
    var (r, db3) := Apply(r1.value.1, r1.value.0.ref);
    if faults.2 == AfterCommit {
      StoppedAtApply(db0, p, g, faults, r1, r, db3);
      code, told, db := 503, false, db3;
    } else {
      ReachedUpsert(db0, p, g, faults, r1, r, db3);
      code, told := if faults.3 == NoFault then 200 else 503, false;
      db := if faults.3 == BeforeCommit then db3 else UpsertState(db3, p.user, PaidSnapshot(p));
    }
  }

  lemma IngestWritesNoSnapshot(db: Db, f: Fact)
    ensures Ingest(db, f).Some? ==> Ingest(db, f).value.1.snapshots == db.snapshots
  {
  }

  /** The label is committed before the period is: a delivery leaves its user active with no end exactly if
      its event was not applied before, ingest takes the payment, and it meets these faults; the sender
      is told to retry, and until something writes the snapshot the user never expires. */
  lemma LeftOpenEndedExactlyWhen(db0: Db, p: Payment, g: Generated, faults: (Fault, Fault, Fault, Fault))
    returns (code: int, told: bool, db: Db)
    requires Ready(db0, p) && g.ref !in db0.ledger
    requires SnapshotOf(db0.snapshots, p.user) != Some(OPEN_ENDED)
    ensures Deliver(db0, p, g, faults) == (code, told, db)
    ensures SnapshotOf(db.snapshots, p.user) == Some(OPEN_ENDED)
            <==> !IsApplied(db0, p) && Ingestible(p) && faults.0 == faults.1 == NoFault
                 && (faults.2 == AfterCommit || (faults.2 == NoFault && faults.3 == BeforeCommit))
    ensures SnapshotOf(db.snapshots, p.user) == Some(OPEN_ENDED) ==>
              code == 503 && forall now :: LifecycleStatus(SnapshotOf(db.snapshots, p.user), now) == SubscriptionActive
  {
    if IsApplied(db0, p) {
      code, told, db := RepeatedDelivery(db0, p, g, faults);
    } else {
      code, told, db := FirstDelivery(db0, p, g, faults);
    }
    forall now ensures LifecycleStatus(Some(OPEN_ENDED), now) == SubscriptionActive {
      OpenEndedNeverExpires(now);
    }
  }

  /** The notice is sent after the upsert's answer: a delivery activates its event without announcing it
      exactly if the event was not applied before, ingest takes the payment, and it meets these faults. */
  lemma NoticeLostExactlyWhen(db0: Db, p: Payment, g: Generated, faults: (Fault, Fault, Fault, Fault))
    returns (code: int, told: bool, db: Db)
    requires Ready(db0, p) && g.ref !in db0.ledger
    ensures Deliver(db0, p, g, faults) == (code, told, db)
    ensures !Activated(db0, p.key) && Activated(db, p.key) && !told
            <==> !IsApplied(db0, p) && Ingestible(p) && faults.0 == faults.1 == NoFault
                 && (faults.2 == AfterCommit || (faults.2 == NoFault && faults.3 != NoFault))
  {
    if IsApplied(db0, p) {
      code, told, db := RepeatedDelivery(db0, p, g, faults);
      assert ApplyOk(db0, db0.events[p.key]);
      assert Activated(db0, p.key);
    } else {
      code, told, db := FirstDelivery(db0, p, g, faults);
    }
  }

  /** From there no run of any further deliveries announces it. */
  lemma LostNoticeNeverComes(db0: Db, p: Payment, g: Generated, faults: (Fault, Fault, Fault, Fault), events: seq<Event>)
    returns (code: int, told: bool, db: Db)
    requires Ready(db0, p) && !IsApplied(db0, p) && g.ref !in db0.ledger && Ingestible(p)
    requires faults.0 == faults.1 == NoFault && (faults.2 == AfterCommit || (faults.2 == NoFault && faults.3 != NoFault))
    ensures Deliver(db0, p, g, faults) == (code, told, db) && !told
    ensures Activated(Run(Initial(db), events).db, p.key) && Told(Run(Initial(db), events).notices, p.key) == 0
  {
    code, told, db := FirstDelivery(db0, p, g, faults);
    DeliveryConserves(db0, p, g, faults, code, told, db);
    InitialIsOk(db);
    assert Announcers(Initial(db).tasks, p.key) == {};
    NoticeStaysLost(Initial(db), events, p.key);
  }

  lemma AdvanceConserves(db: Db, p: Payment, stage: Stage, fault: Fault, g: Generated)
    requires Conserved(db) && Parsed(p)
    ensures Conserved(Advance(db, p, stage, fault, g).1)
  {
    match stage {
      case AtIngest => IngestIsFine(db, Task(p, AtIngest), fault, g);
      case AtApply(ref) => ApplyConserves(db, ref);
      case AtIdentity => SnapshotsConserve(db, CreateIdentity(db, p.telegramId));
      case AtUpsert(_) => SnapshotsConserve(db, UpsertState(db, p.user, PaidSnapshot(p)));
      case _ =>
    }
  }

  lemma DeliveryConserves(db0: Db, p: Payment, g: Generated, faults: (Fault, Fault, Fault, Fault),
                                             code: int, told: bool, db: Db)
    requires Conserved(db0) && Parsed(p) && Deliver(db0, p, g, faults) == (code, told, db)
    ensures Conserved(db)
  {
    var (s1, db1) := Advance(db0, p, AtIdentity, faults.0, g);
    AdvanceConserves(db0, p, AtIdentity, faults.0, g);
    var (s2, db2) := Advance(db1, p, s1, faults.1, g);
    AdvanceConserves(db1, p, s1, faults.1, g);
    var (s3, db3) := Advance(db2, p, s2, faults.2, g);
    AdvanceConserves(db2, p, s2, faults.2, g);
    AdvanceConserves(db3, p, s3, faults.3, g);
  }

  /** It happens: on empty tables, the answer to the upsert is lost. */
  lemma NoticeCanBeLost() returns (p: Payment, g: Generated, db: Db)
    ensures Ready(EMPTY, p) && Ingestible(p)
    ensures Deliver(EMPTY, p, g, (NoFault, NoFault, NoFault, AfterCommit)).1 == false
    ensures Deliver(EMPTY, p, g, (NoFault, NoFault, NoFault, AfterCommit)).2 == db && Activated(db, p.key)
  {
    p := PlainPayment();
    g := Generated("r", 0, "c");
    EmptyIsReady(p);
    var code, told;
    code, told, db := AppliedDelivery(EMPTY, p, g, (NoFault, NoFault, NoFault, AfterCommit));
  }

  lemma PlainPayment() returns (p: Payment)
    ensures Parsed(p) && Ingestible(p)
  {
    p := Payment(EventKey("k", "e"), 1, "u1", 0, 30, "p");
  }

  lemma EmptyIsReady(p: Payment)
    requires Parsed(p)
    ensures Ready(EMPTY, p)
  {
  }

  /** The last delivery to complete sets the end: redelivering p to a user another event has paid up takes
      access away exactly if ingest takes p, at the instants between p's end and the other's. */
  lemma RedeliveryCutsAccessExactlyWhen(db: Db, p: Payment, q: Payment, g: Generated, now: int)
    requires Ready(db, p) && g.ref !in db.ledger
    requires q.user == p.user && Settled(db, q)
    ensures var after := Deliver(db, p, g, CALM).2;
            (LifecycleStatus(SnapshotOf(db.snapshots, p.user), now) == SubscriptionActive
             && LifecycleStatus(SnapshotOf(after.snapshots, p.user), now) == SubscriptionExpired)
            <==> Ingestible(p) && ActiveUntil(p) < now <= ActiveUntil(q)
  {
    if Ingestible(p) {
      var after := DeliverSettles(db, p, g);
      assert Footprint(after, p).3 == SnapshotOf(after.snapshots, p.user);
    } else {
      RefusedDelivery(db, p, g, CALM);
    }
  }
}
