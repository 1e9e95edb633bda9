/** Billing under concurrency: deliveries of any events interleaved at every transaction, crashes,
    facts ingested and applied by other tools, users bootstrapped. */
module BillingWorld {
  import opened Basics
  import opened Subscription
  import opened Billing

  datatype Task = Task(payment: Payment, stage: Stage)

  datatype World = World(db: Db, tasks: map<nat, Task>, notices: seq<EventKey>, answers: seq<(Payment, int)>)

  datatype Event =
    | Begin(id: nat, payment: Payment)
    | Progress(id: nat, fault: Fault, generated: Generated)
    | Crash(id: nat)
    | IngestFact(fact: Fact, fault: Fault)
    | ApplyRef(ref: string, fault: Fault)
    | BootstrapUser(user: string)

  function Step(w: World, e: Event): World
  {
    match e
    case Begin(id, p) => if id in w.tasks || !Parsed(p) then w else w.(tasks := w.tasks[id := Task(p, AtIdentity)])
    case Progress(id, fault, g) => if id in w.tasks then StepTask(w, id, fault, g) else w
    case Crash(id) => w.(tasks := w.tasks - {id})
    case IngestFact(f, fault) =>
      var r := Ingest(w.db, f);
      if r.None? || fault == BeforeCommit then w else w.(db := r.value.1)
    case ApplyRef(ref, fault) => if fault == BeforeCommit then w else w.(db := Apply(w.db, ref).1)
    case BootstrapUser(user) => w.(db := PutIfAbsent(w.db, user))
  }

  function StepTask(w: World, id: nat, fault: Fault, g: Generated): World
    requires id in w.tasks
  {
    var (next, db) := Advance(w.db, w.tasks[id].payment, w.tasks[id].stage, fault, g);
    Settle(w, id, next, db)
  }

  /** A delivery moves on. */
  function Settle(w: World, id: nat, next: Stage, db: Db): World
    requires id in w.tasks
  {
    var t := w.tasks[id];
    World(db,
          if next.Answered? then w.tasks - {id} else w.tasks[id := Task(t.payment, next)],
          if t.stage == AtNotice then w.notices + [t.payment.key] else w.notices,
          if next.Answered? then w.answers + [(t.payment, next.code)] else w.answers)
  }

  function Run(w: World, events: seq<Event>): World
    decreases |events|
  {
    if events == [] then w else Run(Step(w, events[0]), events[1..])
  }

  function Initial(db: Db): World
  {
    World(db, map[], [], [])
  }

  // ---- Conservation ----

  /** Refs of the ingests reported as new. */
  function Fresh(audits: seq<IngestAudit>): multiset<string>
  {
    if audits == [] then multiset{}
    else var last := audits[|audits| - 1];
         Fresh(audits[..|audits| - 1]) + if last.replay then multiset{} else multiset{last.ref}
  }

  function AppliedRefs(audits: seq<ApplyAudit>): multiset<string>
  {
    if audits == [] then multiset{}
    else AppliedRefs(audits[..|audits| - 1]) + multiset{audits[|audits| - 1].ref}
  }

  lemma FreshAppend(audits: seq<IngestAudit>, a: IngestAudit)
    ensures Fresh(audits + [a]) == Fresh(audits) + if a.replay then multiset{} else multiset{a.ref}
  {
    assert (audits + [a])[..|audits|] == audits;
  }

  lemma AppliedAppend(audits: seq<ApplyAudit>, a: ApplyAudit)
    ensures AppliedRefs(audits + [a]) == AppliedRefs(audits) + multiset{a.ref}
  {
    assert (audits + [a])[..|audits|] == audits;
  }

  lemma KeysAfter<T>(m: map<string, T>, k: string, v: T)
    requires k !in m
    ensures multiset(m[k := v].Keys) == multiset(m.Keys) + multiset{k}
  {
    assert m[k := v].Keys == m.Keys + {k};
  }

  predicate EventOk(db: Db, k: EventKey)
  {
    k in db.events && db.events[k] in db.ledger && db.ledger[db.events[k]].body.key == k
  }

  predicate RowOk(db: Db, r: string)
  {
    r in db.ledger && db.ledger[r].ref == r && db.ledger[r].body.key in db.events && db.events[db.ledger[r].body.key] == r
  }

  predicate ApplyOk(db: Db, r: string)
  {
    r in db.applies && r in db.ledger && db.applies[r] == FirstTimeDecision(db.ledger[r].body)
  }

  /** The unique index and the primary key describe the same rows; every apply record has its fact. */
  predicate RowsOk(db: Db)
  {
    (forall k {:trigger EventOk(db, k)} :: k in db.events ==> EventOk(db, k))
    && (forall r {:trigger RowOk(db, r)} :: r in db.ledger ==> RowOk(db, r))
    && (forall r {:trigger ApplyOk(db, r)} :: r in db.applies ==> ApplyOk(db, r))
  }

  predicate IngestAuditOk(db: Db)
  {
    Fresh(db.ingestAudit) == multiset(db.ledger.Keys)
    && forall i :: 0 <= i < |db.ingestAudit| ==> db.ingestAudit[i].ref in db.ledger
  }

  predicate ApplyAuditOk(db: Db)
  {
    AppliedRefs(db.applyAudit) == multiset(db.applies.Keys)
    && forall i :: 0 <= i < |db.applyAudit| ==>
         db.applyAudit[i].ref in db.applies && db.applies[db.applyAudit[i].ref] == db.applyAudit[i].decision
  }

  predicate Conserved(db: Db)
  {
    RowsOk(db) && IngestAuditOk(db) && ApplyAuditOk(db)
  }

  /** Facts never change and decisions are never lost. */
  predicate Extends(db: Db, db': Db)
  {
    (forall k <- db.events :: k in db'.events && db'.events[k] == db.events[k])
    && (forall r <- db.ledger :: r in db'.ledger && db'.ledger[r] == db.ledger[r])
    && (forall r <- db.applies :: r in db'.applies && db'.applies[r] == db.applies[r])
  }

  lemma AppendKeepsRows(db: Db, f: Fact)
    requires RowsOk(db) && Append(db, f).Some?
    ensures RowsOk(Append(db, f).value.1) && Extends(db, Append(db, f).value.1)
    ensures EventOk(Append(db, f).value.1, f.body.key)
    ensures Append(db, f).value.1.events[f.body.key] == Append(db, f).value.0.ref
  {
    assert f.body.key in db.events ==> EventOk(db, f.body.key) && RowOk(db, db.events[f.body.key]);
    if f.body.key !in db.events {
      NewRowIsOk(db, f, Append(db, f).value.1);
    } else {
      RowsCarry(db, Append(db, f).value.1, "");
    }
  }

  lemma {:induction false} NewRowIsOk(db: Db, f: Fact, db': Db)
    requires RowsOk(db) && f.body.key !in db.events && f.ref !in db.ledger
    requires db'.ledger == db.ledger[f.ref := f] && db'.events == db.events[f.body.key := f.ref] && db'.applies == db.applies
    ensures RowsOk(db') && Extends(db, db') && EventOk(db', f.body.key)
  {
    forall k | k in db'.events ensures EventOk(db', k) {
      assert k in db.events ==> EventOk(db, k);
    }
    forall r | r in db'.ledger ensures RowOk(db', r) {
      assert r in db.ledger ==> RowOk(db, r);
    }
    forall r | r in db'.applies ensures ApplyOk(db', r) {
      assert ApplyOk(db, r);
    }
  }

  lemma AppendKeepsAudit(db: Db, f: Fact)
    requires RowsOk(db) && IngestAuditOk(db) && Append(db, f).Some?
    ensures IngestAuditOk(Append(db, f).value.1)
  {
    var (stored, db') := Append(db, f).value;
    if f.body.key in db.events {
      assert EventOk(db, f.body.key) && RowOk(db, db.events[f.body.key]);
      FreshAppend(db.ingestAudit, IngestAudit(stored.ref, true));
    } else {
      FreshAppend(db.ingestAudit, IngestAudit(f.ref, false));
      KeysAfter(db.ledger, f.ref, f);
    }
  }

  lemma AppendConserves(db: Db, f: Fact)
    requires Conserved(db) && Append(db, f).Some?
    ensures Conserved(Append(db, f).value.1) && Extends(db, Append(db, f).value.1)
  {
    AppendKeepsRows(db, f);
    AppendKeepsAudit(db, f);
  }

  lemma IngestConserves(db: Db, f: Fact)
    requires Conserved(db) && Ingest(db, f).Some?
    ensures Conserved(Ingest(db, f).value.1) && Extends(db, Ingest(db, f).value.1)
  {
    AppendConserves(db, BuildLedgerRecord(f).value);
  }

  lemma ApplyKeepsAudit(db: Db, ref: string)
    requires ApplyAuditOk(db)
    ensures ApplyAuditOk(Apply(db, ref).1)
  {
    if ref in db.ledger && ref !in db.applies {
      var d := FirstTimeDecision(db.ledger[ref].body);
      AppliedAppend(db.applyAudit, ApplyAudit(ref, d));
      KeysAfter(db.applies, ref, d);
    }
  }

  /** Changes that leave the ledger alone and add at most one due decision. */
  lemma RowsCarry(db: Db, db': Db, ref: string)
    requires RowsOk(db) && db'.events == db.events && db'.ledger == db.ledger
    requires db'.applies == db.applies
             || (ref in db.ledger && ref !in db.applies && db'.applies == db.applies[ref := FirstTimeDecision(db.ledger[ref].body)])
    ensures RowsOk(db') && Extends(db, db')
  {
    forall k | k in db'.events ensures EventOk(db', k) {
      assert EventOk(db, k);
    }
    forall r | r in db'.ledger ensures RowOk(db', r) {
      assert RowOk(db, r);
    }
    forall r | r in db'.applies ensures ApplyOk(db', r) {
      assert r in db.applies ==> ApplyOk(db, r);
    }
  }

  lemma ApplyConserves(db: Db, ref: string)
    requires Conserved(db)
    ensures Conserved(Apply(db, ref).1) && Extends(db, Apply(db, ref).1)
  {
    ApplyKeepsAudit(db, ref);
    ApplyKeepsRows(db, ref);
  }

  lemma ApplyKeepsRows(db: Db, ref: string)
    requires RowsOk(db)
    ensures RowsOk(Apply(db, ref).1) && Extends(db, Apply(db, ref).1)
    ensures Apply(db, ref).1.ledger == db.ledger && Apply(db, ref).1.ingestAudit == db.ingestAudit
  {
    RowsCarry(db, Apply(db, ref).1, ref);
  }

  lemma SnapshotsConserve(db: Db, db': Db)
    requires Conserved(db) && db' == db.(identities := db'.identities, snapshots := db'.snapshots)
    ensures Conserved(db') && Extends(db, db')
  {
    RowsCarry(db, db', "");
  }

  // ---- Notices ----

  /** A delivery that will announce the activation. */
  predicate Announcing(s: Stage)
  {
    s == AtUpsert(true) || s == AtNotice
  }

  predicate Activated(db: Db, key: EventKey)
  {
    key in db.events && db.events[key] in db.applies && db.applies[db.events[key]].outcome == ActiveApplied
  }

  predicate TaskOk(db: Db, t: Task)
  {
    !t.stage.Answered? && Parsed(t.payment)
    && (t.stage.AtApply? ==>
          t.payment.key in db.events && db.events[t.payment.key] == t.stage.ref && t.stage.ref in db.ledger)
    && (Announcing(t.stage) ==> Activated(db, t.payment.key))
  }

  function Announcers(tasks: map<nat, Task>, key: EventKey): set<nat>
  {
    set id | id in tasks && Announcing(tasks[id].stage) && tasks[id].payment.key == key
  }

  function Told(notices: seq<EventKey>, key: EventKey): nat
  {
    if notices == [] then 0
    else Told(notices[..|notices| - 1], key) + if notices[|notices| - 1] == key then 1 else 0
  }

  /** Notices sent and to be sent for one event: none before its activation, at most one ever. */
  predicate KeyOk(w: World, key: EventKey)
  {
    |Announcers(w.tasks, key)| + Told(w.notices, key) <= if Activated(w.db, key) then 1 else 0
  }

  /** Every delivery and every event is where the tables say it may be. */
  ghost predicate DeliveriesOk(w: World)
  {
    (forall id {:trigger w.tasks[id]} :: id in w.tasks ==> TaskOk(w.db, w.tasks[id]))
    && (forall k :: KeyOk(w, k))
    && (forall i :: 0 <= i < |w.answers| ==> w.answers[i].1 == 200 || w.answers[i].1 == 503)
  }

  ghost predicate Ok(w: World)
  {
    Conserved(w.db) && DeliveriesOk(w)
  }

  lemma DbStepIsOk(w: World, db: Db)
    requires DeliveriesOk(w) && Extends(w.db, db)
    ensures DeliveriesOk(w.(db := db))
  {
    var w' := w.(db := db);
    forall k ensures KeyOk(w', k) {
      assert KeyOk(w, k);
    }
    forall id | id in w'.tasks ensures TaskOk(db, w'.tasks[id]) {
      assert TaskOk(w.db, w.tasks[id]);
    }
  }

  lemma ToldAppend(notices: seq<EventKey>, last: EventKey, key: EventKey)
    ensures Told(notices + [last], key) == Told(notices, key) + if last == key then 1 else 0
  {
    assert (notices + [last])[..|notices|] == notices;
  }

  lemma WithoutOne(tasks: map<nat, Task>, id: nat, key: EventKey)
    ensures |Announcers(tasks, key)| == |Announcers(tasks - {id}, key)|
            + if id in tasks && Announcing(tasks[id].stage) && tasks[id].payment.key == key then 1 else 0
  {
    assert Announcers(tasks - {id}, key) == Announcers(tasks, key) - {id};
  }

  lemma AnnouncersAfter(tasks: map<nat, Task>, id: nat, next: Stage, tasks': map<nat, Task>, key: EventKey)
    requires id in tasks
    requires tasks' == if next.Answered? then tasks - {id} else tasks[id := Task(tasks[id].payment, next)]
    ensures |Announcers(tasks', key)| + (if Announcing(tasks[id].stage) && tasks[id].payment.key == key then 1 else 0)
            == |Announcers(tasks, key)| + if Announcing(next) && tasks[id].payment.key == key then 1 else 0
  {
    WithoutOne(tasks, id, key);
    WithoutOne(tasks', id, key);
    assert tasks' - {id} == tasks - {id};
  }

  /** A step of a delivery that keeps the tables in order, reaches a stage they back, and is the first to
      announce its event if it starts to announce. */
  predicate IsFine(db: Db, t: Task, next: Stage, db': Db)
  {
    Extends(db, db')
    && (if next.Answered? then next.code == 200 || next.code == 503 else TaskOk(db', Task(t.payment, next)))
    && (Announcing(next) ==> Announcing(t.stage) || !Activated(db, t.payment.key))
    && (t.stage == AtNotice ==> next.Answered?)
  }

  lemma SettleKeepsKey(w: World, id: nat, next: Stage, db: Db, key: EventKey)
    requires id in w.tasks && KeyOk(w, key) && Extends(w.db, db)
    requires Announcing(next) ==> Announcing(w.tasks[id].stage) || !Activated(w.db, w.tasks[id].payment.key)
    requires Announcing(next) ==> Activated(db, w.tasks[id].payment.key)
    requires w.tasks[id].stage == AtNotice ==> next.Answered?
    ensures KeyOk(Settle(w, id, next, db), key)
  {
    AnnouncersAfter(w.tasks, id, next, Settle(w, id, next, db).tasks, key);
    ToldAppend(w.notices, w.tasks[id].payment.key, key);
  }

  lemma SettleIsOk(w: World, id: nat, next: Stage, db: Db)
    requires DeliveriesOk(w) && id in w.tasks && IsFine(w.db, w.tasks[id], next, db)
    ensures DeliveriesOk(Settle(w, id, next, db))
  {
    var w' := Settle(w, id, next, db);
    forall k ensures KeyOk(w', k) {
      SettleKeepsKey(w, id, next, db, k);
    }
    forall j | j in w'.tasks ensures TaskOk(db, w'.tasks[j]) {
      if j != id {
        TaskStays(w.db, db, w.tasks[j]);
      }
    }
  }

  lemma TaskStays(db: Db, db': Db, t: Task)
    requires TaskOk(db, t) && Extends(db, db')
    ensures TaskOk(db', t)
  {
  }

  lemma ExtendsItself(db: Db)
    ensures Extends(db, db)
  {
  }

  lemma ApplyIsFine(db: Db, t: Task, fault: Fault, g: Generated)
    requires Conserved(db) && t.stage.AtApply? && TaskOk(db, t)
    ensures var (next, db') := Advance(db, t.payment, t.stage, fault, g); Conserved(db') && IsFine(db, t, next, db')
  {
    ApplyConserves(db, t.stage.ref);
    ExtendsItself(db);
    ApplyNext(db, t, fault, g);
  }

  lemma ApplyNext(db: Db, t: Task, fault: Fault, g: Generated)
    requires RowsOk(db) && t.stage.AtApply? && TaskOk(db, t)
    ensures var (next, db') := Advance(db, t.payment, t.stage, fault, g);
            (db' == db || db' == Apply(db, t.stage.ref).1)
            && (next == Answered(503) || (next.AtUpsert? && TaskOk(db', Task(t.payment, next))))
            && (Announcing(next) ==> !Activated(db, t.payment.key))
  {
  }

  /** Ingest takes a parsed payment as it is, or refuses it. */
  lemma ParsedIngest(db: Db, p: Payment, g: Generated)
    requires Parsed(p)
    ensures Ingest(db, FactOf(p, g)) == if Ingestible(p) then Append(db, FactOf(p, g)) else None
  {
    TrimmedStays(p.key.provider);
    TrimmedStays(p.key.externalId);
    TrimmedStays(p.paymentId);
    TrimmedStays(p.user);
    ActivatedIsText();
  }

  lemma ActivatedIsText()
    ensures Strip(ACTIVATED) == ACTIVATED && 0 < |ACTIVATED| <= 128 && '\0' !in ACTIVATED
  {
    TrimmedStays(ACTIVATED);
  }

  lemma {:induction false} IngestIsFine(db: Db, t: Task, fault: Fault, g: Generated)
    requires Conserved(db) && Parsed(t.payment) && t.stage == AtIngest
    ensures var (next, db') := Advance(db, t.payment, AtIngest, fault, g); Conserved(db') && IsFine(db, t, next, db')
  {
    var r := Ingest(db, FactOf(t.payment, g));
    IngestNext(db, t.payment, fault, g);
    if r.None? || fault == BeforeCommit {
      ExtendsItself(db);
    } else {
      IngestTaken(db, t.payment, g, r.value.0, r.value.1);
    }
  }

  lemma IngestTaken(db: Db, p: Payment, g: Generated, stored: Fact, db': Db)
    requires Conserved(db) && Parsed(p) && Ingest(db, FactOf(p, g)) == Some((stored, db'))
    ensures Conserved(db') && Extends(db, db') && TaskOk(db', Task(p, AtApply(stored.ref)))
  {
    ParsedIngest(db, p, g);
    AppendConserves(db, FactOf(p, g));
    IngestedTask(db, p, FactOf(p, g));
  }

  lemma IngestedTask(db: Db, p: Payment, f: Fact)
    requires RowsOk(db) && f.body.key == p.key && Append(db, f).Some? && Parsed(p)
    ensures TaskOk(Append(db, f).value.1, Task(p, AtApply(Append(db, f).value.0.ref)))
  {
    AppendKeepsRows(db, f);
  }

  lemma IngestNext(db: Db, p: Payment, fault: Fault, g: Generated)
    ensures var (next, db') := Advance(db, p, AtIngest, fault, g);
            var r := Ingest(db, FactOf(p, g));
            if r.None? || fault == BeforeCommit then (next, db') == (Answered(503), db)
            else db' == r.value.1 && next == if fault == NoFault then AtApply(r.value.0.ref) else Answered(503)
  {
  }

  lemma OthersAreFine(db: Db, t: Task, fault: Fault, g: Generated)
    requires Conserved(db) && TaskOk(db, t) && !t.stage.AtApply? && !t.stage.AtIngest?
    ensures var (next, db') := Advance(db, t.payment, t.stage, fault, g); Conserved(db') && IsFine(db, t, next, db')
  {
    var (next, db') := Advance(db, t.payment, t.stage, fault, g);
    OthersWriteTwoTables(db, t, fault, g);
    SnapshotsConserve(db, db');
  }

  lemma OthersWriteTwoTables(db: Db, t: Task, fault: Fault, g: Generated)
    requires !t.stage.AtApply? && !t.stage.AtIngest?
    ensures var (next, db') := Advance(db, t.payment, t.stage, fault, g);
            db' == db.(identities := db'.identities, snapshots := db'.snapshots)
            && (Announcing(next) ==> Announcing(t.stage)) && !next.AtApply?
  {
  }

  lemma DeliveryIsFine(db: Db, t: Task, fault: Fault, g: Generated)
    requires Conserved(db) && TaskOk(db, t)
    ensures var (next, db') := Advance(db, t.payment, t.stage, fault, g); Conserved(db') && IsFine(db, t, next, db')
  {
    if t.stage.AtApply? {
      ApplyIsFine(db, t, fault, g);
    } else if t.stage.AtIngest? {
      IngestIsFine(db, t, fault, g);
    } else {
      OthersAreFine(db, t, fault, g);
    }
  }

  lemma TaskStepIsOk(w: World, id: nat, fault: Fault, g: Generated)
    requires Ok(w) && id in w.tasks
    ensures Ok(StepTask(w, id, fault, g))
  {
    var t := w.tasks[id];
    var (next, db) := Advance(w.db, t.payment, t.stage, fault, g);
    DeliveryIsFine(w.db, t, fault, g);
    SettleIsOk(w, id, next, db);
  }

  lemma InitialIsOk(db: Db)
    requires Conserved(db)
    ensures Ok(Initial(db))
  {
    forall k ensures KeyOk(Initial(db), k) {
      assert Announcers(Initial(db).tasks, k) == {};
    }
  }

  lemma BeginIsOk(w: World, id: nat, p: Payment)
    requires DeliveriesOk(w) && id !in w.tasks && Parsed(p)
    ensures DeliveriesOk(w.(tasks := w.tasks[id := Task(p, AtIdentity)]))
  {
    var w' := w.(tasks := w.tasks[id := Task(p, AtIdentity)]);
    forall k ensures KeyOk(w', k) {
      assert KeyOk(w, k);
      assert Announcers(w'.tasks, k) == Announcers(w.tasks, k);
    }
    forall j | j in w'.tasks ensures TaskOk(w'.db, w'.tasks[j]) {
      assert j != id ==> w'.tasks[j] == w.tasks[j];
    }
  }

  lemma CrashIsOk(w: World, id: nat)
    requires DeliveriesOk(w)
    ensures DeliveriesOk(w.(tasks := w.tasks - {id}))
  {
    var w' := w.(tasks := w.tasks - {id});
    forall k ensures KeyOk(w', k) {
      assert KeyOk(w, k);
      WithoutOne(w.tasks, id, k);
    }
    forall j | j in w'.tasks ensures TaskOk(w'.db, w'.tasks[j]) {
      assert w'.tasks[j] == w.tasks[j];
    }
  }

  lemma StepIsOk(w: World, e: Event)
    requires Ok(w)
    ensures Ok(Step(w, e))
  {
    match e {
      case Begin(id, p) =>
        if id !in w.tasks && Parsed(p) {
          BeginIsOk(w, id, p);
        }
      case Progress(id, fault, g) =>
        if id in w.tasks {
          TaskStepIsOk(w, id, fault, g);
        }
      case Crash(id) =>
        CrashIsOk(w, id);
      case IngestFact(f, fault) =>
        if Ingest(w.db, f).Some? && fault != BeforeCommit {
          IngestConserves(w.db, f);
          TablesStepIsOk(w, Ingest(w.db, f).value.1);
        }
      case ApplyRef(ref, fault) =>
        if fault != BeforeCommit {
          ApplyConserves(w.db, ref);
          TablesStepIsOk(w, Apply(w.db, ref).1);
        }
      case BootstrapUser(user) =>
        SnapshotsConserve(w.db, PutIfAbsent(w.db, user));
        TablesStepIsOk(w, PutIfAbsent(w.db, user));
    }
  }

  lemma TablesStepIsOk(w: World, db: Db)
    requires Ok(w) && Conserved(db) && Extends(w.db, db)
    ensures Ok(w.(db := db))
  {
    DbStepIsOk(w, db);
  }

  lemma {:induction false} RunIsOk(w: World, events: seq<Event>)
    requires Ok(w)
    ensures Ok(Run(w, events))
    decreases |events|
  {
    if events != [] {
      StepIsOk(w, events[0]);
      RunIsOk(Step(w, events[0]), events[1..]);
    }
  }

  // ---- A notice that will never come ----

  /** The event is activated, was not announced, and no delivery is about to. */
  predicate NoticeLost(w: World, key: EventKey)
  {
    Activated(w.db, key) && Announcers(w.tasks, key) == {} && Told(w.notices, key) == 0
  }

  lemma SettleKeepsLost(w: World, id: nat, next: Stage, db: Db, key: EventKey)
    requires NoticeLost(w, key) && id in w.tasks && IsFine(w.db, w.tasks[id], next, db)
    ensures NoticeLost(Settle(w, id, next, db), key)
  {
    assert id !in Announcers(w.tasks, key);
    AnnouncersAfter(w.tasks, id, next, Settle(w, id, next, db).tasks, key);
    ToldAppend(w.notices, w.tasks[id].payment.key, key);
  }

  lemma DeliveryKeepsLost(w: World, id: nat, fault: Fault, g: Generated, key: EventKey)
    requires Ok(w) && NoticeLost(w, key) && id in w.tasks
    ensures NoticeLost(StepTask(w, id, fault, g), key)
  {
    var t := w.tasks[id];
    var (next, db) := Advance(w.db, t.payment, t.stage, fault, g);
    DeliveryIsFine(w.db, t, fault, g);
    SettleKeepsLost(w, id, next, db, key);
  }

  lemma {:induction false} StepKeepsLost(w: World, e: Event, key: EventKey)
    requires Ok(w) && NoticeLost(w, key)
    ensures NoticeLost(Step(w, e), key)
  {
    match e {
      case Begin(id, p) => BeginKeepsLost(w, id, p, key);
      case Progress(id, fault, g) =>
        if id in w.tasks {
          DeliveryKeepsLost(w, id, fault, g, key);
        }
      case Crash(id) =>
        WithoutOne(w.tasks, id, key);
      case IngestFact(f, fault) =>
        IngestKeepsLost(w, f, key);
      case ApplyRef(ref, fault) =>
        ApplyKeepsRows(w.db, ref);
        TablesKeepLost(w, Apply(w.db, ref).1, key);
      case BootstrapUser(user) =>
        TablesKeepLost(w, PutIfAbsent(w.db, user), key);
    }
  }

  lemma IngestKeepsLost(w: World, f: Fact, key: EventKey)
    requires RowsOk(w.db) && NoticeLost(w, key)
    ensures Ingest(w.db, f).Some? ==> NoticeLost(w.(db := Ingest(w.db, f).value.1), key)
  {
    if Ingest(w.db, f).Some? {
      AppendKeepsRows(w.db, BuildLedgerRecord(f).value);
      TablesKeepLost(w, Ingest(w.db, f).value.1, key);
    }
  }

  lemma BeginKeepsLost(w: World, id: nat, p: Payment, key: EventKey)
    requires NoticeLost(w, key)
    ensures NoticeLost(Step(w, Begin(id, p)), key)
  {
    assert Announcers(Step(w, Begin(id, p)).tasks, key) == {};
  }

  lemma TablesKeepLost(w: World, db: Db, key: EventKey)
    requires NoticeLost(w, key) && Extends(w.db, db)
    ensures NoticeLost(w.(db := db), key)
  {
  }

  /** Once lost, over any run: no later delivery, of this or any event, announces it. */
  lemma {:induction false} NoticeStaysLost(w: World, events: seq<Event>, key: EventKey)
    requires Ok(w) && NoticeLost(w, key)
    ensures NoticeLost(Run(w, events), key)
    decreases |events|
  {
    if events != [] {
      StepKeepsLost(w, events[0], key);
      StepIsOk(w, events[0]);
      NoticeStaysLost(Step(w, events[0]), events[1..], key);
    }
  }

  // ---- Counts ----

  function FreshIndices(audits: seq<IngestAudit>): set<nat>
  {
    set i: nat | i < |audits| && !audits[i].replay
  }

  lemma FreshIndicesAppend(audits: seq<IngestAudit>, a: IngestAudit)
    ensures |FreshIndices(audits + [a])| == |FreshIndices(audits)| + if a.replay then 0 else 1
  {
    assert FreshIndices(audits + [a]) == FreshIndices(audits) + if a.replay then {} else {|audits|};
  }

  lemma {:induction false} FreshCounts(audits: seq<IngestAudit>)
    ensures |Fresh(audits)| == |FreshIndices(audits)|
  {
    if audits != [] {
      var n := |audits| - 1;
      assert audits == audits[..n] + [audits[n]];
      FreshCounts(audits[..n]);
      FreshIndicesAppend(audits[..n], audits[n]);
    } else {
      assert FreshIndices(audits) == {};
    }
  }

  lemma {:induction false} AppliedCounts(audits: seq<ApplyAudit>)
    ensures |AppliedRefs(audits)| == |audits|
  {
    if audits != [] {
      AppliedCounts(audits[..|audits| - 1]);
    }
  }

  lemma {:induction false} SetCounts<T>(s: set<T>)
    ensures |multiset(s)| == |s|
  {
    if s != {} {
      var x :| x in s;
      SetCounts(s - {x});
      assert multiset(s) == multiset(s - {x}) + multiset{x};
    }
  }

  /** From empty tables, through any interleaving, in every committed state: the ingests reported as new
      are the ledger rows and the apply audit is the apply records, one for one; every apply record
      has its fact and the decision that fact calls for; no event is announced twice, and none
      without its activation; no delivery is answered as rejected. */
  lemma BillingConservation(events: seq<Event>)
    ensures var w := Run(Initial(EMPTY), events);
            Conserved(w.db)
            && |FreshIndices(w.db.ingestAudit)| == |w.db.ledger|
            && |w.db.applyAudit| == |w.db.applies|
            && (forall k :: Told(w.notices, k) <= if Activated(w.db, k) then 1 else 0)
            && forall a <- w.answers :: a.1 == 200 || a.1 == 503
  {
    InitialIsOk(EMPTY);
    RunIsOk(Initial(EMPTY), events);
    var w := Run(Initial(EMPTY), events);
    forall k ensures Told(w.notices, k) <= if Activated(w.db, k) then 1 else 0 {
      assert KeyOk(w, k);
    }
    FreshCounts(w.db.ingestAudit);
    AppliedCounts(w.db.applyAudit);
    SetCounts(w.db.ledger.Keys);
    SetCounts(w.db.applies.Keys);
  }
}
