/** Welcomes under concurrency: attempts of any /start updates interleaved at every await, any of them cut
    off anywhere. */
module WelcomeWorld {
  import opened Basics
  import opened Subscription
  import opened WelcomeDelivery

  /** The await an attempt stands before. */
  datatype Stage =
    | AtBegin | AtFind | AtCreate | AtSnapshot(user: string, replay: bool) | AtAudit | AtComplete
    | AtErrorText | AtStatus | AtPending | AtSend | AtMark(messageId: int) | Over(effect: Effect)

  /** The next stage, the state, the welcome that Telegram accepted if any, and whether a mark took effect. */
  datatype Progressed = Progressed(stage: Stage, db: Db, sent: Option<int>, marked: bool)

  function FailedStage(u: Start): Stage
  {
    if u.eligibleChat then AtErrorText else Over(Noop)
  }

  function Advance(db: Db, u: Start, stage: Stage, fault: Fault, send: SendOutcome): Progressed
  {
    match stage
    case AtBegin =>
      var db1 := if !u.wellFormed || fault == BeforeCommit || u.key in db.completed then db
                 else db.(completed := db.completed[u.key := false]);
      if !u.wellFormed || fault != NoFault then Moved(FailedStage(u), db1)
      else Moved(if db1.completed[u.key] then AtFind else AtCreate, db1)
    case AtFind =>
      if fault != NoFault || u.telegramId !in db.identities then Moved(FailedStage(u), db)
      else Moved(AtSnapshot(db.identities[u.telegramId], true), db)
    case AtCreate =>
      var db1 := if fault == BeforeCommit || u.telegramId in db.identities then db
                 else db.(identities := db.identities[u.telegramId := InternalUserId(u.telegramId)]);
      Moved(if fault != NoFault then FailedStage(u) else AtSnapshot(db1.identities[u.telegramId], false), db1)
    case AtSnapshot(user, replay) =>
      var (ok, db1) := DefaultSnapshot(db, user, fault);
      Moved(if !ok then FailedStage(u) else if replay then AtStatus else AtAudit, db1)
    case AtAudit =>
      Moved(if fault != NoFault then FailedStage(u) else AtComplete,
            if fault == BeforeCommit then db else db.(audits := db.audits + 1))
    case AtComplete =>
      Moved(if fault != NoFault then FailedStage(u) else if u.eligibleChat then AtPending else Over(Noop),
            if fault == BeforeCommit then db else db.(completed := db.completed[u.key := true]))
    case AtErrorText => Moved(Over(ErrorText(send.Delivered?)), db)
    case AtStatus =>
      Moved(if fault != NoFault then Over(ProcessingFailure) else if ShouldSend(db, u, true) then AtPending else Over(Noop), db)
    case AtPending =>
      Moved(if fault != NoFault then Over(SendFailure) else AtSend,
            if fault == BeforeCommit || u.key in db.deliveries then db
            else db.(deliveries := db.deliveries[u.key := Pending]))
    case AtSend =>
      (match send
       case SendFailed => Moved(Over(SendFailure), db)
       case Delivered(mid) => Progressed(AtMark(mid), db, Some(mid), false)
       case DeliveredButRaised(mid) => Progressed(Over(SendFailure), db, Some(mid), false))
    case AtMark(mid) =>
      var after := Over(if fault == NoFault then SendOk else SendFailure);
      if fault == BeforeCommit || !IsPending(db, u.key) then Moved(after, db)
      else Progressed(after, db.(deliveries := db.deliveries[u.key := Sent(mid)]), None, true)
    case Over(_) => Moved(stage, db)
  }

  function Moved(stage: Stage, db: Db): Progressed
  {
    Progressed(stage, db, None, false)
  }

  // ---- An attempt alone ----

  function FaultAt(w: Weather, stage: Stage): Fault
  {
    match stage
    case AtBegin => w.begin
    case AtFind => w.find
    case AtCreate => w.create
    case AtSnapshot(_, _) => w.snapshot
    case AtAudit => w.audit
    case AtComplete => w.complete
    case AtStatus => w.status
    case AtPending => w.pending
    case AtMark(_) => w.mark
    case _ => NoFault
  }

  function StagesLeft(stage: Stage): nat
  {
    match stage
    case AtBegin => 9
    case AtFind => 8
    case AtCreate => 8
    case AtSnapshot(_, _) => 7
    case AtAudit => 6
    case AtComplete => 5
    case AtStatus => 5
    case AtPending => 4
    case AtSend => 3
    case AtMark(_) => 2
    case AtErrorText => 1
    case Over(_) => 0
  }

  /** An attempt driven to its end without interleaving; a welcome once sent stays on record. */
  function Drive(db: Db, u: Start, stage: Stage, w: Weather, sent: Option<int>): Attempt
    decreases StagesLeft(stage)
  {
    if stage.Over? then Attempt(stage.effect, sent, false, db)
    else
      var p := Advance(db, u, stage, FaultAt(w, stage), w.send);
      if p.marked then Attempt(p.stage.effect, sent, true, p.db)
      else Drive(p.db, u, p.stage, w, if p.sent.Some? then p.sent else sent)
  }

  lemma DriveUnfolds(db: Db, u: Start, stage: Stage, w: Weather, sent: Option<int>)
    requires !stage.Over?
    ensures var p := Advance(db, u, stage, FaultAt(w, stage), w.send);
            Drive(db, u, stage, w, sent)
            == if p.marked then Attempt(p.stage.effect, sent, true, p.db)
               else Drive(p.db, u, p.stage, w, if p.sent.Some? then p.sent else sent)
  {
  }

  lemma FailedAttempt(db: Db, u: Start, w: Weather)
    ensures Drive(db, u, FailedStage(u), w, None)
            == Attempt(if u.eligibleChat then ErrorText(w.send.Delivered?) else Noop, None, false, db)
  {
  }

  lemma SendingAttempt(db: Db, u: Start, w: Weather)
    ensures Drive(db, u, AtPending, w, None) == Deliver(db, u, w)
  {
    DriveUnfolds(db, u, AtPending, w, None);
    var db1 := Advance(db, u, AtPending, w.pending, w.send).db;
    if w.pending == NoFault {
      DriveUnfolds(db1, u, AtSend, w, None);
      if w.send.Delivered? {
        DriveUnfolds(db1, u, AtMark(w.send.messageId), w, Some(w.send.messageId));
      }
    }
  }

  /** From the completion on: what the bootstrap answered, and the delivery. */
  lemma CompletingAttempt(db: Db, u: Start, w: Weather)
    requires w.create == w.snapshot == w.audit == NoFault && u.telegramId in db.identities
    requires var (ok, db1) := DefaultSnapshot(db, db.identities[u.telegramId], NoFault);
             FirstBootstrap(db, u, w) == (if w.complete == NoFault then WelcomeDelivery.Ready(false) else Failed,
               Advance(db1.(audits := db1.audits + 1), u, AtComplete, w.complete, w.send).db)
    ensures var db1 := DefaultSnapshot(db, db.identities[u.telegramId], NoFault).1;
            var (b, db2) := FirstBootstrap(db, u, w);
            Drive(db1.(audits := db1.audits + 1), u, AtComplete, w, None)
            == if b.Failed? then Attempt(if u.eligibleChat then ErrorText(w.send.Delivered?) else Noop, None, false, db2)
               else if u.eligibleChat then Deliver(db2, u, w) else Attempt(Noop, None, false, db2)
  {
    var db1 := DefaultSnapshot(db, db.identities[u.telegramId], NoFault).1;
    var db2 := FirstBootstrap(db, u, w).1;
    DriveUnfolds(db1.(audits := db1.audits + 1), u, AtComplete, w, None);
    FailedAttempt(db2, u, w);
    SendingAttempt(db2, u, w);
  }

  lemma {:induction false} FirstAttempt(db: Db, u: Start, w: Weather)
    ensures var (b, db1) := FirstBootstrap(db, u, w);
            Drive(db, u, AtCreate, w, None)
            == if b.Failed? then Attempt(if u.eligibleChat then ErrorText(w.send.Delivered?) else Noop, None, false, db1)
               else if u.eligibleChat then Deliver(db1, u, w) else Attempt(Noop, None, false, db1)
  {
    DriveUnfolds(db, u, AtCreate, w, None);
    var p1 := Advance(db, u, AtCreate, w.create, w.send);
    FailedAttempt(p1.db, u, w);
    if w.create == NoFault {
      IdentityIsThere(db, p1.db, u, w);
      CreatedAttempt(p1.db, u, w);
    }
  }

  lemma IdentityIsThere(db: Db, db1: Db, u: Start, w: Weather)
    requires w.create == NoFault && db1 == Advance(db, u, AtCreate, NoFault, w.send).db
    ensures u.telegramId in db1.identities && FirstBootstrap(db, u, w) == FirstBootstrap(db1, u, w)
  {
  }

  lemma CreatedAttempt(db: Db, u: Start, w: Weather)
    requires w.create == NoFault && u.telegramId in db.identities
    ensures var (b, db1) := FirstBootstrap(db, u, w);
            Drive(db, u, AtSnapshot(db.identities[u.telegramId], false), w, None)
            == if b.Failed? then Attempt(if u.eligibleChat then ErrorText(w.send.Delivered?) else Noop, None, false, db1)
               else if u.eligibleChat then Deliver(db1, u, w) else Attempt(Noop, None, false, db1)
  {
    var stage := AtSnapshot(db.identities[u.telegramId], false);
    DriveUnfolds(db, u, stage, w, None);
    var p2 := Advance(db, u, stage, w.snapshot, w.send);
    FailedAttempt(p2.db, u, w);
    if w.snapshot == NoFault {
      DriveUnfolds(p2.db, u, AtAudit, w, None);
      var p3 := Advance(p2.db, u, AtAudit, w.audit, w.send);
      FailedAttempt(p3.db, u, w);
      if w.audit == NoFault {
        CreatedFirst(db, u, w);
        CompletingAttempt(db, u, w);
      }
    }
  }

  lemma CreatedFirst(db: Db, u: Start, w: Weather)
    requires w.create == w.snapshot == w.audit == NoFault && u.telegramId in db.identities
    ensures var db2 := DefaultSnapshot(db, db.identities[u.telegramId], NoFault).1;
            FirstBootstrap(db, u, w) == (if w.complete == NoFault then WelcomeDelivery.Ready(false) else Failed,
              Advance(db2.(audits := db2.audits + 1), u, AtComplete, w.complete, w.send).db)
  {
  }

  lemma ReplayedAttempt(db: Db, u: Start, w: Weather)
    requires w.find == NoFault && u.telegramId in db.identities
    ensures var (ok, db1) := DefaultSnapshot(db, db.identities[u.telegramId], w.snapshot);
            Drive(db, u, AtFind, w, None)
            == if !ok then Attempt(if u.eligibleChat then ErrorText(w.send.Delivered?) else Noop, None, false, db1)
               else if w.status != NoFault then Attempt(ProcessingFailure, None, false, db1)
               else if ShouldSend(db1, u, true) then Deliver(db1, u, w) else Attempt(Noop, None, false, db1)
  {
    var user := db.identities[u.telegramId];
    var (ok, db1) := DefaultSnapshot(db, user, w.snapshot);
    DriveUnfolds(db, u, AtFind, w, None);
    DriveUnfolds(db, u, AtSnapshot(user, true), w, None);
    FailedAttempt(db1, u, w);
    if ok {
      DriveUnfolds(db1, u, AtStatus, w, None);
      SendingAttempt(db1, u, w);
    }
  }

  /** The stages are those of the attempt: driven without interleaving they come to what it comes to. */
  lemma AloneIsProcess(db: Db, u: Start, w: Weather)
    ensures Drive(db, u, AtBegin, w, None) == Process(db, u, w)
  {
    DriveUnfolds(db, u, AtBegin, w, None);
    var p := Advance(db, u, AtBegin, w.begin, w.send);
    FailedAttempt(p.db, u, w);
    if p.stage == AtFind {
      if w.find != NoFault || u.telegramId !in p.db.identities {
        DriveUnfolds(p.db, u, AtFind, w, None);
      } else {
        ReplayedAttempt(p.db, u, w);
      }
    } else if p.stage == AtCreate {
      FirstAttempt(p.db, u, w);
    }
  }

  // ---- Any number of attempts ----

  datatype Task = Task(start: Start, stage: Stage)

  /** The welcomes Telegram accepted, by key, and those of them whose attempt ended without recording it. */
  datatype World = World(db: Db, tasks: map<nat, Task>, sends: seq<string>, unmarked: seq<string>)

  datatype Event =
    | Arrive(id: nat, start: Start)
    | Progress(id: nat, fault: Fault, send: SendOutcome)
    | Crash(id: nat)

  function Step(w: World, e: Event): World
  {
    match e
    case Arrive(id, u) => if id in w.tasks then w else w.(tasks := w.tasks[id := Task(u, AtBegin)])
    case Progress(id, fault, send) => if id in w.tasks then StepTask(w, id, fault, send) else w
    case Crash(id) =>
      if id !in w.tasks then w
      else w.(tasks := w.tasks - {id},
              unmarked := if w.tasks[id].stage.AtMark? then w.unmarked + [w.tasks[id].start.key] else w.unmarked)
  }

  function StepTask(w: World, id: nat, fault: Fault, send: SendOutcome): World
    requires id in w.tasks
  {
    var t := w.tasks[id];
    var p := Advance(w.db, t.start, t.stage, fault, send);
    World(p.db,
          if p.stage.Over? then w.tasks - {id} else w.tasks[id := Task(t.start, p.stage)],
          if p.sent.Some? then w.sends + [t.start.key] else w.sends,
          if (p.sent.Some? || t.stage.AtMark?) && p.stage.Over? && !p.marked then w.unmarked + [t.start.key] else w.unmarked)
  }

  function Run(w: World, events: seq<Event>): World
    decreases |events|
  {
    if events == [] then w else Run(Step(w, events[0]), events[1..])
  }

  function Initial(db: Db): World
  {
    World(db, map[], [], [])
  }

  function Times(log: seq<string>, key: string): nat
  {
    if log == [] then 0 else Times(log[..|log| - 1], key) + if log[|log| - 1] == key then 1 else 0
  }

  /** Attempts that have sent the welcome and are about to record it. */
  function InFlight(tasks: map<nat, Task>, key: string): set<nat>
  {
    set id | id in tasks && tasks[id].stage.AtMark? && tasks[id].start.key == key
  }

  predicate Balanced(w: World, key: string)
  {
    Times(w.sends, key) == Times(w.unmarked, key) + |InFlight(w.tasks, key)| + if IsSent(w.db, key) then 1 else 0
  }

  lemma TimesAppend(log: seq<string>, last: string, key: string)
    ensures Times(log + [last], key) == Times(log, key) + if last == key then 1 else 0
  {
    assert (log + [last])[..|log|] == log;
  }

  predicate Flies(t: Task, key: string)
  {
    t.stage.AtMark? && t.start.key == key
  }

  lemma InFlightWithout(tasks: map<nat, Task>, id: nat, key: string)
    ensures |InFlight(tasks, key)| == |InFlight(tasks - {id}, key)| + if id in tasks && Flies(tasks[id], key) then 1 else 0
  {
    assert InFlight(tasks - {id}, key) == InFlight(tasks, key) - {id};
  }

  lemma InFlightAfter(tasks: map<nat, Task>, id: nat, t: Task, key: string)
    ensures |InFlight(tasks[id := t], key)| == |InFlight(tasks - {id}, key)| + if Flies(t, key) then 1 else 0
  {
    InFlightWithout(tasks[id := t], id, key);
    assert tasks[id := t] - {id} == tasks - {id};
  }

  /** A stage leaves the recorded deliveries of sent keys alone; only a mark makes one. */
  lemma AdvanceMarks(db: Db, u: Start, stage: Stage, fault: Fault, send: SendOutcome, key: string)
    ensures var p := Advance(db, u, stage, fault, send);
            (IsSent(db, key) ==> IsSent(p.db, key) && p.db.deliveries[key] == db.deliveries[key])
            && (IsSent(p.db, key) && !IsSent(db, key) <==> p.marked && u.key == key)
            && (p.marked ==> stage.AtMark? && p.stage.Over?)
            && (p.sent.Some? ==> stage.AtSend? && (p.stage.AtMark? || p.stage.Over?))
            && (p.stage.AtMark? ==> p.sent.Some?)
            && (stage.AtMark? ==> p.stage.Over?)
  {
    match stage {
      case AtMark(_) =>
      case AtPending =>
      case _ => assert Advance(db, u, stage, fault, send).db.deliveries == db.deliveries;
    }
  }

  lemma StepBalances(w: World, e: Event, key: string)
    requires Balanced(w, key)
    ensures Balanced(Step(w, e), key)
  {
    match e {
      case Arrive(id, u) =>
        if id !in w.tasks {
          InFlightAfter(w.tasks, id, Task(u, AtBegin), key);
          InFlightWithout(w.tasks, id, key);
        }
      case Progress(id, fault, send) =>
        if id in w.tasks {
          TaskBalances(w, id, fault, send, key);
        }
      case Crash(id) =>
        if id in w.tasks {
          InFlightWithout(w.tasks, id, key);
          TimesAppend(w.unmarked, w.tasks[id].start.key, key);
        }
    }
  }

  lemma TaskBalances(w: World, id: nat, fault: Fault, send: SendOutcome, key: string)
    requires Balanced(w, key) && id in w.tasks
    ensures Balanced(StepTask(w, id, fault, send), key)
  {
    var t := w.tasks[id];
    var p := Advance(w.db, t.start, t.stage, fault, send);
    AdvanceMarks(w.db, t.start, t.stage, fault, send, key);
    InFlightWithout(w.tasks, id, key);
    InFlightAfter(w.tasks, id, Task(t.start, p.stage), key);
    TimesAppend(w.sends, t.start.key, key);
    TimesAppend(w.unmarked, t.start.key, key);
  }

  lemma {:induction false} RunBalances(w: World, events: seq<Event>, key: string)
    requires Balanced(w, key)
    ensures Balanced(Run(w, events), key)
    decreases |events|
  {
    if events != [] {
      StepBalances(w, events[0], key);
      RunBalances(Step(w, events[0]), events[1..], key);
    }
  }

  /** The welcome bound under concurrency: over any interleaving of attempts and crashes, the welcomes sent
      for a key are those whose attempt ended without recording them, those about to be recorded, and
      one more exactly when the ledger says sent. */
  lemma ConcurrentWelcomeBound(db: Db, events: seq<Event>, key: string)
    requires !IsSent(db, key)
    ensures var w := Run(Initial(db), events);
            Times(w.sends, key) == Times(w.unmarked, key) + |InFlight(w.tasks, key)| + if IsSent(w.db, key) then 1 else 0
  {
    assert InFlight(Initial(db).tasks, key) == {};
    RunBalances(Initial(db), events, key);
  }

  /** Once recorded, the message id never changes, whatever is still under way. */
  lemma {:induction false} RecordIsFinal(w: World, events: seq<Event>, key: string)
    requires IsSent(w.db, key)
    ensures IsSent(Run(w, events).db, key) && Run(w, events).db.deliveries[key] == w.db.deliveries[key]
    decreases |events|
  {
    if events != [] {
      var e := events[0];
      if e.Progress? && e.id in w.tasks {
        AdvanceMarks(w.db, w.tasks[e.id].start, w.tasks[e.id].stage, e.fault, e.send, key);
      }
      RecordIsFinal(Step(w, e), events[1..], key);
    }
  }

  // ---- Who can still send ----

  predicate IsCompleted(db: Db, key: string)
  {
    key in db.completed && db.completed[key]
  }

  /** Stages only reached for a completed key. */
  predicate AfterCompletion(stage: Stage)
  {
    stage.AtFind? || (stage.AtSnapshot? && stage.replay) || stage.AtStatus? || stage.AtPending? || stage.AtSend? || stage.AtMark?
  }

  /** An attempt that took the key for new, or is past its look at the ledger. */
  predicate CanSend(t: Task)
  {
    t.stage.AtPending? || t.stage.AtSend?
    || (t.start.eligibleChat
        && (t.stage.AtCreate? || (t.stage.AtSnapshot? && !t.stage.replay) || t.stage.AtAudit? || t.stage.AtComplete?))
  }

  predicate StillSends(w: World, key: string)
  {
    exists id :: id in w.tasks && w.tasks[id].start.key == key && CanSend(w.tasks[id])
  }

  ghost predicate OrderlyWorld(w: World)
  {
    Orderly(w.db) && forall id {:trigger w.tasks[id]} :: id in w.tasks && AfterCompletion(w.tasks[id].stage) ==> IsCompleted(w.db, w.tasks[id].start.key)
  }

  lemma AdvanceIsOrderly(db: Db, u: Start, stage: Stage, fault: Fault, send: SendOutcome)
    requires Orderly(db) && (AfterCompletion(stage) ==> IsCompleted(db, u.key))
    ensures var p := Advance(db, u, stage, fault, send);
            Orderly(p.db) && (AfterCompletion(p.stage) ==> IsCompleted(p.db, u.key))
            && forall k :: IsCompleted(db, k) ==> IsCompleted(p.db, k)
  {
    var p := Advance(db, u, stage, fault, send);
    forall k | IsCompleted(db, k) ensures IsCompleted(p.db, k) {
    }
    forall k | k in p.db.deliveries ensures k in p.db.completed && p.db.completed[k] {
      assert k in db.deliveries ==> IsCompleted(db, k);
    }
  }

  lemma StepIsOrderly(w: World, e: Event)
    requires OrderlyWorld(w)
    ensures OrderlyWorld(Step(w, e))
  {
    var w' := Step(w, e);
    if e.Progress? && e.id in w.tasks {
      var t := w.tasks[e.id];
      AdvanceIsOrderly(w.db, t.start, t.stage, e.fault, e.send);
    }
    forall id | id in w'.tasks && AfterCompletion(w'.tasks[id].stage) ensures IsCompleted(w'.db, w'.tasks[id].start.key) {
      if id in w.tasks {
        assert w'.tasks[id] == w.tasks[id] || (e.Progress? && id == e.id);
      }
    }
  }

  lemma {:induction false} RunIsOrderly(w: World, events: seq<Event>)
    requires OrderlyWorld(w)
    ensures OrderlyWorld(Run(w, events))
    decreases |events|
  {
    if events != [] {
      StepIsOrderly(w, events[0]);
      RunIsOrderly(Step(w, events[0]), events[1..]);
    }
  }

  lemma AdvanceOfSent(db: Db, u: Start, stage: Stage, fault: Fault, send: SendOutcome)
    requires IsSent(db, u.key) && IsCompleted(db, u.key) && !CanSend(Task(u, stage))
    ensures var p := Advance(db, u, stage, fault, send); p.sent.None? && !CanSend(Task(u, p.stage))
  {
  }

  lemma StepOfSent(w: World, e: Event, key: string)
    requires OrderlyWorld(w) && IsSent(w.db, key) && !StillSends(w, key)
    ensures !StillSends(Step(w, e), key) && Times(Step(w, e).sends, key) == Times(w.sends, key)
  {
    var w' := Step(w, e);
    if e.Progress? && e.id in w.tasks {
      var t := w.tasks[e.id];
      if t.start.key == key {
        AdvanceOfSent(w.db, t.start, t.stage, e.fault, e.send);
      }
      TimesAppend(w.sends, t.start.key, key);
    }
    forall id | id in w'.tasks && w'.tasks[id].start.key == key ensures !CanSend(w'.tasks[id]) {
      if id in w.tasks {
        assert w'.tasks[id] == w.tasks[id] || (e.Progress? && id == e.id);
      }
    }
  }

  lemma {:induction false} SentAndSpent(w: World, events: seq<Event>, key: string)
    requires OrderlyWorld(w) && IsSent(w.db, key) && !StillSends(w, key)
    ensures Times(Run(w, events).sends, key) == Times(w.sends, key)
    decreases |events|
  {
    if events != [] {
      StepOfSent(w, events[0], key);
      StepIsOrderly(w, events[0]);
      RecordIsFinal(w, [events[0]], key);
      assert [events[0]][1..] == [] && Run(w, [events[0]]) == Run(Step(w, events[0]), []) == Step(w, events[0]);
      SentAndSpent(Step(w, events[0]), events[1..], key);
    }
  }

  predicate SendsMore(w: World, events: seq<Event>, key: string)
  {
    Times(Run(w, events).sends, key) > Times(w.sends, key)
  }

  /** Without faults such an attempt gets to its send. */
  lemma SendIsOne(w: World, id: nat, w1: World)
    requires id in w.tasks && w.tasks[id].stage.AtSend? && w1 == Step(w, Progress(id, NoFault, Delivered(1)))
    ensures Times(w1.sends, w.tasks[id].start.key) == Times(w.sends, w.tasks[id].start.key) + 1
  {
    TimesAppend(w.sends, w.tasks[id].start.key, w.tasks[id].start.key);
  }

  lemma ComesCloser(w: World, id: nat, w1: World)
    requires id in w.tasks && CanSend(w.tasks[id]) && !w.tasks[id].stage.AtSend?
    requires w1 == Step(w, Progress(id, NoFault, Delivered(1)))
    ensures id in w1.tasks && CanSend(w1.tasks[id]) && w1.sends == w.sends && w1.tasks[id].start == w.tasks[id].start
    ensures StagesLeft(w1.tasks[id].stage) < StagesLeft(w.tasks[id].stage)
  {
  }

  lemma {:induction false} FinishSend(w: World, id: nat) returns (events: seq<Event>)
    requires id in w.tasks && CanSend(w.tasks[id])
    ensures SendsMore(w, events, w.tasks[id].start.key)
    decreases StagesLeft(w.tasks[id].stage)
  {
    var t := w.tasks[id];
    var e := Progress(id, NoFault, Delivered(1));
    var w1 := Step(w, e);
    if t.stage.AtSend? {
      SendIsOne(w, id, w1);
      events := [e];
      assert events[1..] == [] && Run(w, events) == Run(w1, []) == w1;
    } else {
      ComesCloser(w, id, w1);
      var rest := FinishSend(w1, id);
      events := [e] + rest;
      assert events[1..] == rest && Run(w, events) == Run(w1, rest);
    }
  }

  /** Exactly: with the welcome recorded as sent, some run sends it again if and only if an attempt is under way
      that took the key for new or is past its look at the ledger; no attempt begun later ever does. */
  lemma SendsAgainExactlyWhen(w: World, key: string)
    requires OrderlyWorld(w) && IsSent(w.db, key)
    ensures StillSends(w, key) <==> exists events :: SendsMore(w, events, key)
  {
    if StillSends(w, key) {
      var id :| id in w.tasks && w.tasks[id].start.key == key && CanSend(w.tasks[id]);
      var events := FinishSend(w, id);
      assert SendsMore(w, events, key);
    } else {
      forall events ensures !SendsMore(w, events, key) {
        SentAndSpent(w, events, key);
      }
    }
  }

  /** Every world reached from orderly tables is orderly. */
  lemma ReachedIsOrderly(db: Db, events: seq<Event>)
    requires Orderly(db)
    ensures OrderlyWorld(Run(Initial(db), events))
  {
    RunIsOrderly(Initial(db), events);
  }
}
