/** Who is activated: what a first apply does with each kind of fact, what ingest keeps of a fact, and
    where an active snapshot can come from. */
module BillingDecisions {
  import opened Basics
  import opened Subscription
  import opened Billing
  import opened BillingWorld
  import opened BillingConvergence
  import opened BillingSnapshots

  // ---- The first apply of a fact ----

  predicate NamesUser(b: Body)
  {
    b.user.Some? && b.user.value != ""
  }

  /** An accepted fact with a user activates that user if it is an activation and puts it under review if it
      is of any other type; no other fact touches a snapshot. The record names the user, or the sentinel. */
  lemma FirstApplyDecides(db: Db, ref: string)
    requires ref in db.ledger && ref !in db.applies
    ensures var b := db.ledger[ref].body;
            var (r, db') := Apply(db, ref);
            (if b.status == StatusAccepted && NamesUser(b) && b.eventType == "subscription_activated" then
               r == Applied(ActiveApplied) && db'.snapshots == db.snapshots[b.user.value := Snapshot("active", None)]
             else if b.status == StatusAccepted && NamesUser(b) then
               r == Applied(ReviewApplied) && db'.snapshots == db.snapshots[b.user.value := Snapshot("needs_review", None)]
             else
               r == Applied(if b.status == StatusAccepted then ReviewApplied else NoActivation) && db'.snapshots == db.snapshots)
            && db'.applies.Keys == db.applies.Keys + {ref} && db'.applies[ref].outcome == r.outcome
            && db'.applies[ref].recordUser ==
                 (if NamesUser(b) || (b.user.Some? && b.status != StatusAccepted) then b.user.value else "_uc05_no_internal_user_")
            && db'.applyAudit == db.applyAudit + [ApplyAudit(ref, db'.applies[ref])]
            && db' == db.(snapshots := db'.snapshots, applies := db.applies[ref := db'.applies[ref]], applyAudit := db'.applyAudit)
  {
  }

  /** Any later apply answers with the first one's outcome, and an apply of an unknown ref with NOT_FOUND; both
      change nothing. */
  lemma LaterApplyReplays(db: Db, ref: string)
    requires ref !in db.ledger || ref in db.applies
    ensures Apply(db, ref) == (if ref in db.ledger then Replayed(db.applies[ref].outcome) else NotFound, db)
  {
  }

  // ---- What ingest keeps of a fact ----

  predicate Within(s: string, max: nat)
  {
    0 < |Strip(s)| <= max
  }

  /** An optional id that is refused: something is there, and it is too long or holds a control character. */
  predicate RefusedId(id: Option<string>)
  {
    id.Some? && (|Strip(id.value)| > 256 || exists c :: c in Strip(id.value) && (c < ' ' || c == '\U{7F}'))
  }

  function Trimmed(id: Option<string>): Option<string>
  {
    if id.Some? && Strip(id.value) != "" then Some(Strip(id.value)) else None
  }

  /** Exactly these facts are taken, as their trimmed texts. */
  lemma RecordIsBuiltExactlyWhen(f: Fact)
    ensures var b := f.body;
            var taken := Within(b.key.provider, 256) && Within(b.key.externalId, 256) && Within(b.eventType, 128)
                         && !RefusedId(b.user) && !RefusedId(b.checkout);
            BuildLedgerRecord(f) ==
              if taken then
                Some(Fact(f.ref, Body(EventKey(Strip(b.key.provider), Strip(b.key.externalId)), Strip(b.eventType), b.effectiveAt,
                                      Trimmed(b.user), Trimmed(b.checkout), b.status), f.receivedAt, f.correlationId))
              else None
  {
    IdIsRefusedExactlyWhen(f.body.user);
    IdIsRefusedExactlyWhen(f.body.checkout);
  }

  lemma IdIsRefusedExactlyWhen(id: Option<string>)
    ensures OptionalId(id) == if RefusedId(id) then None else Some(Trimmed(id))
  {
    if id.Some? {
      ControlsOf(Strip(id.value));
    }
  }

  lemma ControlsOf(t: string)
    ensures HasControl(t) <==> exists c :: c in t && (c < ' ' || c == '\U{7F}')
  {
    if HasControl(t) {
      var i :| 0 <= i < |t| && IsControl(t[i]);
      assert t[i] in t;
    }
    if c :| c in t && (c < ' ' || c == '\U{7F}') {
      var i :| 0 <= i < |t| && t[i] == c;
      assert IsControl(t[i]);
    }
  }

  /** A new event is stored as the given fact; a known one answers with the fact it was stored as, and no
      fact changes. Each ingest leaves one audit row. */
  lemma IngestStoresOnce(db: Db, f: Fact)
    requires RowsOk(db) && BuildLedgerRecord(f) == Some(f) && Storable(f.body) && f.ref !in db.ledger
    ensures Ingest(db, f).Some?
    ensures var (stored, db') := Ingest(db, f).value;
            if EventOk(db, f.body.key) then
              stored == db.ledger[db.events[f.body.key]]
              && db' == db.(ingestAudit := db.ingestAudit + [IngestAudit(stored.ref, true)])
            else
              stored == f
              && db' == db.(ledger := db.ledger[f.ref := f], events := db.events[f.body.key := f.ref],
                            ingestAudit := db.ingestAudit + [IngestAudit(f.ref, false)])
  {
    assert f.body.key in db.events ==> EventOk(db, f.body.key);
  }

  // ---- Where an active snapshot comes from ----

  /** An accepted activation of this user has been applied. */
  predicate Activation(db: Db, ref: string, user: string)
  {
    ref in db.applies && ref in db.ledger && db.ledger[ref].body.status == StatusAccepted
    && db.ledger[ref].body.eventType == "subscription_activated" && user != "" && db.ledger[ref].body.user == Some(user)
  }

  predicate Activates(db: Db, user: string)
  {
    exists ref <- db.applies :: Activation(db, ref, user)
  }

  predicate MarkedActive(db: Db, user: string)
  {
    user in db.snapshots && db.snapshots[user].stateLabel == "active"
  }

  /** Every active snapshot has its activation, or is of one of these users. */
  ghost predicate ActiveIsEarned(db: Db, paid: set<string>)
  {
    forall u :: MarkedActive(db, u) ==> u in paid || Activates(db, u)
  }

  lemma ActivationsStay(db: Db, db': Db, user: string)
    requires Extends(db, db') && Activates(db, user)
    ensures Activates(db', user)
  {
    var ref :| ref in db.applies && Activation(db, ref, user);
    assert Activation(db', ref, user);
  }

  lemma SnapshotsStayEarned(db: Db, db': Db, paid: set<string>)
    requires ActiveIsEarned(db, paid) && Extends(db, db')
    requires forall u :: MarkedActive(db', u) ==> MarkedActive(db, u) || u in paid
    ensures ActiveIsEarned(db', paid)
  {
    forall u | MarkedActive(db', u) ensures u in paid || Activates(db', u) {
      if u !in paid {
        ActivationsStay(db, db', u);
      }
    }
  }

  lemma ApplyIsEarned(db: Db, ref: string, paid: set<string>)
    requires Conserved(db) && ActiveIsEarned(db, paid)
    ensures ActiveIsEarned(Apply(db, ref).1, paid)
  {
    var db' := Apply(db, ref).1;
    ApplyConserves(db, ref);
    forall u | MarkedActive(db', u) ensures u in paid || Activates(db', u) {
      ApplyMarks(db, ref, u);
      if MarkedActive(db, u) && u !in paid {
        ActivationsStay(db, db', u);
      }
    }
  }

  lemma ApplyMarks(db: Db, ref: string, user: string)
    requires MarkedActive(Apply(db, ref).1, user)
    ensures MarkedActive(db, user) || Activates(Apply(db, ref).1, user)
  {
    if ref in db.ledger && ref !in db.applies && !MarkedActive(db, user) {
      FirstApplyDecides(db, ref);
      assert Activation(Apply(db, ref).1, ref, user);
    }
  }

  lemma AdvanceIsEarned(db: Db, t: Task, fault: Fault, g: Generated, paid: set<string>)
    requires Conserved(db) && TaskOk(db, t) && ActiveIsEarned(db, paid) && t.payment.user in paid
    ensures ActiveIsEarned(Advance(db, t.payment, t.stage, fault, g).1, paid)
  {
    var (next, db') := Advance(db, t.payment, t.stage, fault, g);
    if t.stage.AtApply? {
      ApplyIsEarned(db, t.stage.ref, paid);
    } else {
      DeliveryIsFine(db, t, fault, g);
      AdvanceMarks(db, t, fault, g);
      SnapshotsStayEarned(db, db', paid);
    }
  }

  lemma AdvanceMarks(db: Db, t: Task, fault: Fault, g: Generated)
    requires !t.stage.AtApply?
    ensures var db' := Advance(db, t.payment, t.stage, fault, g).1;
            forall u :: MarkedActive(db', u) ==> MarkedActive(db, u) || u == t.payment.user
  {
    if t.stage.AtIngest? {
      IngestNext(db, t.payment, fault, g);
    }
  }

  /** Users of the deliveries begun. */
  function Payers(events: seq<Event>): set<string>
  {
    set i | 0 <= i < |events| && events[i].Begin? :: events[i].payment.user
  }

  ghost predicate WorldIsEarned(w: World, paid: set<string>)
  {
    Ok(w) && ActiveIsEarned(w.db, paid) && PayersIn(w, paid)
  }

  lemma TablesAreEarned(w: World, e: Event, paid: set<string>)
    requires Conserved(w.db) && ActiveIsEarned(w.db, paid) && (e.IngestFact? || e.ApplyRef? || e.BootstrapUser?)
    ensures ActiveIsEarned(Step(w, e).db, paid)
  {
    match e
    case IngestFact(f, fault) =>
      if Ingest(w.db, f).Some? {
        IngestConserves(w.db, f);
        SnapshotsStayEarned(w.db, Ingest(w.db, f).value.1, paid);
      }
    case ApplyRef(ref, fault) => ApplyIsEarned(w.db, ref, paid);
    case BootstrapUser(user) =>
      SnapshotsConserve(w.db, PutIfAbsent(w.db, user));
      SnapshotsStayEarned(w.db, PutIfAbsent(w.db, user), paid);
    case _ =>
  }

  lemma ProgressIsEarned(w: World, id: nat, fault: Fault, g: Generated, paid: set<string>)
    requires WorldIsEarned(w, paid) && id in w.tasks
    ensures ActiveIsEarned(StepTask(w, id, fault, g).db, paid)
  {
    AdvanceIsEarned(w.db, w.tasks[id], fault, g, paid);
  }

  lemma StepIsEarned(w: World, e: Event, paid: set<string>)
    requires WorldIsEarned(w, paid)
    requires e.Begin? ==> e.payment.user in paid
    ensures WorldIsEarned(Step(w, e), paid)
  {
    var w' := Step(w, e);
    StepIsOk(w, e);
    if e.Progress? && e.id in w.tasks {
      ProgressIsEarned(w, e.id, e.fault, e.generated, paid);
    } else if e.IngestFact? || e.ApplyRef? || e.BootstrapUser? {
      TablesAreEarned(w, e, paid);
    }
    PayersStay(w, e, paid);
  }

  lemma PayersStay(w: World, e: Event, paid: set<string>)
    requires PayersIn(w, paid)
    requires e.Begin? ==> e.payment.user in paid
    ensures PayersIn(Step(w, e), paid)
  {
  }

  ghost predicate PayersIn(w: World, paid: set<string>)
  {
    forall id :: id in w.tasks ==> w.tasks[id].payment.user in paid
  }

  lemma EmptyIsEarned(paid: set<string>)
    ensures WorldIsEarned(Initial(EMPTY), paid)
  {
    InitialIsOk(EMPTY);
  }

  lemma {:induction false} RunIsEarned(w: World, events: seq<Event>, paid: set<string>)
    requires WorldIsEarned(w, paid) && forall i :: 0 <= i < |events| && events[i].Begin? ==> events[i].payment.user in paid
    ensures WorldIsEarned(Run(w, events), paid)
    decreases |events|
  {
    if events != [] {
      StepIsEarned(w, events[0], paid);
      RunIsEarned(Step(w, events[0]), events[1..], paid);
    }
  }

  /** From empty tables, through any interleaving of anything: a user whose snapshot is active has an applied,
      accepted activation in the ledger, or a verified payment for that user was delivered. */
  lemma ActiveIsPaidFor(events: seq<Event>, user: string)
    requires MarkedActive(Run(Initial(EMPTY), events).db, user)
    ensures Activates(Run(Initial(EMPTY), events).db, user) || HasPaymentFor(events, user)
  {
    EmptyIsEarned(Payers(events));
    PayersHavePayments(events, user);
    EarnedByRun(Initial(EMPTY), events, Payers(events));
    EarnedBy(Run(Initial(EMPTY), events).db, Payers(events), user);
  }

  predicate HasPaymentFor(events: seq<Event>, user: string)
  {
    exists i | 0 <= i < |events| && events[i].Begin? :: events[i].payment.user == user
  }

  lemma PayersHavePayments(events: seq<Event>, user: string)
    ensures user in Payers(events) ==> HasPaymentFor(events, user)
    ensures forall i :: 0 <= i < |events| && events[i].Begin? ==> events[i].payment.user in Payers(events)
  {
  }

  lemma EarnedByRun(w: World, events: seq<Event>, paid: set<string>)
    requires WorldIsEarned(w, paid) && forall i :: 0 <= i < |events| && events[i].Begin? ==> events[i].payment.user in paid
    ensures ActiveIsEarned(Run(w, events).db, paid)
  {
    RunIsEarned(w, events, paid);
  }

  lemma EarnedBy(db: Db, paid: set<string>, user: string)
    requires ActiveIsEarned(db, paid) && MarkedActive(db, user)
    ensures user in paid || Activates(db, user)
  {
  }

  /** Where only UC-05 and bootstrap write, it is the activation. */
  lemma ActiveMeansActivated(events: seq<Event>, user: string)
    requires WithoutDeliveries(events) && MarkedActive(Run(Initial(EMPTY), events).db, user)
    ensures Activates(Run(Initial(EMPTY), events).db, user)
  {
    ActiveIsPaidFor(events, user);
  }

  // ---- What a payment buys ----

  predicate Bought(db: Db, p: Payment, now: int)
  {
    var until := p.paidAt + p.periodDays * 24 * 60 * 60;
    SnapshotOf(db.snapshots, p.user) == Some(Snapshot("active", Some(until)))
    && LifecycleStatus(SnapshotOf(db.snapshots, p.user), now) == (if now <= until then SubscriptionActive else SubscriptionExpired)
    && p.telegramId in db.identities && db.identities[p.telegramId] == "u" + Signed(p.telegramId)
  }

  lemma FootprintBuys(db0: Db, db: Db, p: Payment, now: int)
    requires Footprint(db, p) == PaidFootprint(db0, p) && IdsFollowConvention(db0)
    ensures Bought(db, p, now)
  {
    UntilIsLater(p.paidAt + p.periodDays * 24 * 60 * 60, now);
  }

  lemma UntilIsLater(until: int, now: int)
    ensures LifecycleStatus(Some(Snapshot("active", Some(until))), now) == (if now <= until then SubscriptionActive else SubscriptionExpired)
  {
  }

  /** An uninterrupted delivery of a payment that ingest takes leaves its user active until the given number
      of days of 24 hours after the payment, counted as active up to that instant and as expired after it, and
      the payer's identity, which is "u" and the Telegram id. */
  lemma PaymentBuysItsPeriod(db: Db, p: Payment, g: Generated, now: int)
    requires Ready(db, p) && Ingestible(p) && g.ref !in db.ledger
    ensures Deliver(db, p, g, CALM).0 == 200 && Bought(Deliver(db, p, g, CALM).2, p, now)
  {
    var db' := DeliverSettles(db, p, g);
    ReadyFollows(db, p);
    FootprintBuys(db, db', p, now);
  }

  lemma ReadyFollows(db: Db, p: Payment)
    requires Ready(db, p)
    ensures IdsFollowConvention(db)
  {
  }

  /** An apply that finds no fact rejects the delivery, and one that fails for any other reason leaves it to be
      redelivered; neither marks the user paid. */
  lemma UnknownFactIsRejected(db: Db, p: Payment, ref: string, g: Generated, faults: (Fault, Fault, Fault, Fault))
    requires ref !in db.ledger
    ensures FinishDelivery(db, p, ref, g, faults) == (if faults.2 == NoFault then 409 else 503, false, db)
  {
  }
}
