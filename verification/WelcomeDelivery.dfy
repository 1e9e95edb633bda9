/** UC-01: /start updates from bootstrap through the outbound ledger to the Telegram send, with a
    failure possible at every await. */
module WelcomeDelivery {
  import opened Basics
  import opened Subscription

  const INACTIVE := Snapshot("inactive", None)

  datatype Delivery = Pending | Sent(messageId: int)

  /** The durable state the attempts share. */
  datatype Db = Db(
    completed: map<string, bool>,
    identities: map<int, string>,
    snapshots: Snapshots,
    audits: nat,
    deliveries: map<string, Delivery>)

  const EMPTY := Db(map[], map[], map[], 0, map[])

  /** A /start update; its key is the digest of (user, update id). */
  datatype Start = Start(telegramId: int, key: string, wellFormed: bool, eligibleChat: bool)

  datatype SendOutcome = SendFailed | Delivered(messageId: int) | DeliveredButRaised(messageId: int)

  /** What the environment does at each await of one attempt. */
  datatype Weather = Weather(
    begin: Fault, find: Fault, create: Fault, snapshot: Fault, audit: Fault, complete: Fault,
    status: Fault, pending: Fault, send: SendOutcome, mark: Fault)

  datatype Bootstrapped = Failed | Ready(replay: bool)

  function InternalUserId(tg: int): string
  {
    "u" + Signed(tg)
  }

  function PutIfAbsent(snaps: Snapshots, user: string): Snapshots
  {
    if user in snaps then snaps else snaps[user := INACTIVE]
  }

  /** Begin-or-get, then either the replay path or create, snapshot, audit, complete. */
  function HandleBootstrap(db: Db, u: Start, w: Weather): (Bootstrapped, Db)
  {
    if !u.wellFormed || w.begin == BeforeCommit then (Failed, db)
    else
      var db1 := if u.key in db.completed then db else db.(completed := db.completed[u.key := false]);
      if w.begin != NoFault then (Failed, db1)
      else if db1.completed[u.key] then
        if w.find != NoFault || u.telegramId !in db1.identities then (Failed, db1)
        else
          var (ok, db2) := DefaultSnapshot(db1, db1.identities[u.telegramId], w.snapshot);
          (if ok then Ready(true) else Failed, db2)
      else FirstBootstrap(db1, u, w)
  }

  function DefaultSnapshot(db: Db, user: string, f: Fault): (bool, Db)
  {
    (f == NoFault, if f == BeforeCommit then db else db.(snapshots := PutIfAbsent(db.snapshots, user)))
  }

  function FirstBootstrap(db: Db, u: Start, w: Weather): (Bootstrapped, Db)
  {
    var db1 := if w.create == BeforeCommit || u.telegramId in db.identities then db
               else db.(identities := db.identities[u.telegramId := InternalUserId(u.telegramId)]);
    if w.create != NoFault then (Failed, db1)
    else
      var (ok, db2) := DefaultSnapshot(db1, db1.identities[u.telegramId], w.snapshot);
      if !ok then (Failed, db2)
      else
        var db3 := if w.audit == BeforeCommit then db2 else db2.(audits := db2.audits + 1);
        if w.audit != NoFault then (Failed, db3)
        else
          var db4 := if w.complete == BeforeCommit then db3 else db3.(completed := db3.completed[u.key := true]);
          (if w.complete == NoFault then Ready(false) else Failed, db4)
  }

  datatype Effect = ProcessingFailure | Noop | ErrorText(ok: bool) | SendFailure | SendOk

  /** What one attempt came to: how the batch counts it, the welcome Telegram accepted if any, whether
      this attempt's mark_sent took effect, and the state it leaves. */
  datatype Attempt = Attempt(effect: Effect, sent: Option<int>, marked: bool, db: Db)

  /** The action: whether the welcome is to be sent. */
  predicate ShouldSend(db: Db, u: Start, replay: bool)
  {
    u.eligibleChat && (replay ==> IsPending(db, u.key))
  }

  predicate IsPending(db: Db, key: string)
  {
    key in db.deliveries && db.deliveries[key].Pending?
  }

  function Process(db: Db, u: Start, w: Weather): Attempt
  {
    var (b, db1) := HandleBootstrap(db, u, w);
    match b
    case Failed => Attempt(if u.eligibleChat then ErrorText(w.send.Delivered?) else Noop, None, false, db1)
    case Ready(replay) =>
      if replay && w.status != NoFault then Attempt(ProcessingFailure, None, false, db1)
      else if !ShouldSend(db1, u, replay) then Attempt(Noop, None, false, db1)
      else Deliver(db1, u, w)
  }

  /** ensure_pending, send, mark_sent. */
  function Deliver(db: Db, u: Start, w: Weather): Attempt
  {
    var db1 := if w.pending == BeforeCommit || u.key in db.deliveries then db
               else db.(deliveries := db.deliveries[u.key := Pending]);
    if w.pending != NoFault || w.send.SendFailed? then Attempt(SendFailure, None, false, db1)
    else
      var mid := w.send.messageId;
      if w.send.DeliveredButRaised? || w.mark == BeforeCommit || !IsPending(db1, u.key) then
        Attempt(if w.send.Delivered? && w.mark == NoFault then SendOk else SendFailure, Some(mid), false, db1)
      else
        Attempt(if w.mark == NoFault then SendOk else SendFailure, Some(mid), true,
                db1.(deliveries := db1.deliveries[u.key := Sent(mid)]))
  }

  // ---- The code in its own form ----

  class Slice1PollingRuntime {
    const maxUpdatesPerBatch: nat
    var completed: map<string, bool>
    var identities: map<int, string>
    var snapshots: Snapshots
    var audits: nat
    var deliveries: map<string, Delivery>
    ghost var welcomes: seq<(string, int)>

    ghost function State(): Db
      reads this
    {
      Db(completed, identities, snapshots, audits, deliveries)
    }

    constructor (maxUpdatesPerBatch: nat)
      ensures this.maxUpdatesPerBatch == maxUpdatesPerBatch && State() == EMPTY && welcomes == []
    {
      this.maxUpdatesPerBatch := maxUpdatesPerBatch;
      completed, identities, snapshots, audits, deliveries, welcomes := map[], map[], map[], 0, map[], [];
    }

    method PutDefaultSnapshotIfAbsent(user: string, f: Fault) returns (ok: bool)
      modifies this
      ensures (ok, State()) == DefaultSnapshot(old(State()), user, f) && welcomes == old(welcomes)
    {
      if f != BeforeCommit && user !in snapshots {
        snapshots := snapshots[user := INACTIVE];
      }
      ok := f == NoFault;
    }

    method Bootstrap(u: Start, w: Weather) returns (b: Bootstrapped)
      modifies this
      ensures (b, State()) == HandleBootstrap(old(State()), u, w) && welcomes == old(welcomes)
    {
      if !u.wellFormed || w.begin == BeforeCommit {
        return Failed;
      }
      if u.key !in completed {
        completed := completed[u.key := false];
      }
      if w.begin != NoFault {
        return Failed;
      }
      if completed[u.key] {
        if w.find != NoFault || u.telegramId !in identities {
          return Failed;
        }
        var ok := PutDefaultSnapshotIfAbsent(identities[u.telegramId], w.snapshot);
        return if ok then Ready(true) else Failed;
      }
      b := CreateFirst(u, w);
    }

    /** The first time: create, snapshot, audit, complete. */
    method CreateFirst(u: Start, w: Weather) returns (b: Bootstrapped)
      modifies this
      ensures (b, State()) == FirstBootstrap(old(State()), u, w) && welcomes == old(welcomes)
    {
      if w.create != BeforeCommit && u.telegramId !in identities {
        identities := identities[u.telegramId := InternalUserId(u.telegramId)];
      }
      if w.create != NoFault {
        return Failed;
      }
      var ok := PutDefaultSnapshotIfAbsent(identities[u.telegramId], w.snapshot);
      if !ok {
        return Failed;
      }
      if w.audit != BeforeCommit {
        audits := audits + 1;
      }
      if w.audit != NoFault {
        return Failed;
      }
      if w.complete != BeforeCommit {
        completed := completed[u.key := true];
      }
      b := if w.complete == NoFault then Ready(false) else Failed;
    }

    method ProcessUpdate(u: Start, w: Weather) returns (effect: Effect)
      modifies this
      ensures var a := Process(old(State()), u, w);
              State() == a.db && effect == a.effect
              && welcomes == old(welcomes) + (if a.sent.Some? then [(u.key, a.sent.value)] else [])
    {
      var b := Bootstrap(u, w);
      if b.Failed? {
        return if u.eligibleChat then ErrorText(w.send.Delivered?) else Noop;
      }
      if b.replay && w.status != NoFault {
        return ProcessingFailure;
      }
      if !u.eligibleChat || (b.replay && !(u.key in deliveries && deliveries[u.key].Pending?)) {
        return Noop;
      }
      if w.pending != BeforeCommit && u.key !in deliveries {
        deliveries := deliveries[u.key := Pending];
      }
      if w.pending != NoFault || w.send.SendFailed? {
        return SendFailure;
      }
      welcomes := welcomes + [(u.key, w.send.messageId)];
      if w.send.DeliveredButRaised? {
        return SendFailure;
      }
      if w.mark != BeforeCommit && deliveries[u.key].Pending? {
        deliveries := deliveries[u.key := Sent(w.send.messageId)];
      }
      effect := if w.mark == NoFault then SendOk else SendFailure;
    }

    /** A failing update never aborts the batch, and the counters account for every update. */
    method ProcessBatch(us: seq<Start>, ws: seq<Weather>) returns (received: nat, sends: nat, noops: nat, sendFails: nat, fails: nat)
      requires |ws| == |us|
      modifies this
      ensures received == (if |us| > maxUpdatesPerBatch then maxUpdatesPerBatch else |us|)
      ensures State() == After(old(State()), us[..received], ws[..received])
      ensures Counters(sends, noops, sendFails, fails) == CountEffects(Effects(old(State()), us[..received], ws[..received]))
      ensures received == sends + noops + sendFails + fails
    {
      var capped := us[..if |us| > maxUpdatesPerBatch then maxUpdatesPerBatch else |us|];
      received := |capped|;
      sends, noops, sendFails, fails := 0, 0, 0, 0;
      ghost var db0, weather := State(), ws[..received];
      for i := 0 to received
        invariant State() == After(db0, capped[..i], weather[..i])
        invariant Counters(sends, noops, sendFails, fails) == CountEffects(Effects(db0, capped[..i], weather[..i]))
        invariant i == sends + noops + sendFails + fails
      {
        NextAttempt(db0, capped, weather, i);
        var effect := ProcessUpdate(capped[i], ws[i]);
        match effect {
          case ProcessingFailure => fails := fails + 1;
          case Noop => noops := noops + 1;
          case ErrorText(ok) => if ok { sends := sends + 1; } else { sendFails := sendFails + 1; }
          case SendFailure => sendFails := sendFails + 1;
          case SendOk => sends := sends + 1;
        }
      }
      assert capped[..received] == capped && weather[..received] == weather;
    }
  }

  /** The state after a run of attempts, each processed to its end or cut off at its first fault. */
  function After(db: Db, us: seq<Start>, ws: seq<Weather>): Db
    requires |us| == |ws|
    decreases |us|
  {
    if us == [] then db
    else Process(After(db, us[..|us| - 1], ws[..|us| - 1]), us[|us| - 1], ws[|us| - 1]).db
  }

  /** What each attempt of a run came to. */
  function Effects(db: Db, us: seq<Start>, ws: seq<Weather>): seq<Effect>
    requires |us| == |ws|
    decreases |us|
  {
    if us == [] then []
    else
      var n := |us| - 1;
      Effects(db, us[..n], ws[..n]) + [Process(After(db, us[..n], ws[..n]), us[n], ws[n]).effect]
  }

  datatype Counters = Counters(sends: nat, noops: nat, sendFails: nat, fails: nat)

  function Bump(n: Counters, e: Effect): Counters
  {
    match e
    case ProcessingFailure => n.(fails := n.fails + 1)
    case Noop => n.(noops := n.noops + 1)
    case ErrorText(ok) => if ok then n.(sends := n.sends + 1) else n.(sendFails := n.sendFails + 1)
    case SendFailure => n.(sendFails := n.sendFails + 1)
    case SendOk => n.(sends := n.sends + 1)
  }

  function CountEffects(effects: seq<Effect>): Counters
  {
    if effects == [] then Counters(0, 0, 0, 0)
    else Bump(CountEffects(effects[..|effects| - 1]), effects[|effects| - 1])
  }

  lemma NextAttempt(db: Db, us: seq<Start>, ws: seq<Weather>, i: nat)
    requires |us| == |ws| && i < |us|
    ensures var a := Process(After(db, us[..i], ws[..i]), us[i], ws[i]);
            After(db, us[..i + 1], ws[..i + 1]) == a.db
            && CountEffects(Effects(db, us[..i + 1], ws[..i + 1])) == Bump(CountEffects(Effects(db, us[..i], ws[..i])), a.effect)
  {
    assert us[..i + 1][..i] == us[..i] && ws[..i + 1][..i] == ws[..i];
    var before := Effects(db, us[..i], ws[..i]);
    var e := Process(After(db, us[..i], ws[..i]), us[i], ws[i]).effect;
    assert (before + [e])[..|before|] == before;
  }

  // ---- The welcome bound ----

  /** A delivery row exists only for completed keys (no retention deletes in between). */
  ghost predicate Orderly(db: Db)
  {
    forall k :: k in db.deliveries ==> k in db.completed && db.completed[k]
  }

  predicate IsSent(db: Db, key: string)
  {
    key in db.deliveries && db.deliveries[key].Sent?
  }

  lemma BootstrapKeepsLedger(db: Db, u: Start, w: Weather)
    requires Orderly(db)
    ensures var (b, db1) := HandleBootstrap(db, u, w);
            && Orderly(db1) && db1.deliveries == db.deliveries
            && (b == Ready(true) ==> u.key in db.completed && db.completed[u.key])
            && (b == Ready(false) ==> u.key !in db.deliveries && u.key in db1.completed && db1.completed[u.key])
            && forall k :: k in db.completed && db.completed[k] ==> k in db1.completed && db1.completed[k]
  {
    if u.wellFormed && w.begin == NoFault && !(u.key in db.completed && db.completed[u.key]) {
      var begun := if u.key in db.completed then db else db.(completed := db.completed[u.key := false]);
      FirstBootstrapCompletes(begun, u, w);
      assert HandleBootstrap(db, u, w) == FirstBootstrap(begun, u, w);
    }
  }

  lemma FirstBootstrapCompletes(db: Db, u: Start, w: Weather)
    requires u.key in db.completed && !db.completed[u.key]
    ensures var (b, db1) := FirstBootstrap(db, u, w);
            && db1.deliveries == db.deliveries && b != Ready(true)
            && (db1.completed == db.completed || db1.completed == db.completed[u.key := true])
            && (b == Ready(false) ==> db1.completed == db.completed[u.key := true])
  {
  }

  /** One attempt: it can only send for its own key, never once that key is sent, and a mark is final. */
  lemma AttemptIsOrderly(db: Db, u: Start, w: Weather, key: string)
    requires Orderly(db)
    ensures var a := Process(db, u, w);
            && Orderly(a.db)
            && (IsSent(db, key) ==> IsSent(a.db, key) && a.db.deliveries[key] == db.deliveries[key])
            && (a.sent.Some? && u.key == key ==> !IsSent(db, key))
            && (a.marked && u.key == key ==> a.sent.Some? && a.db.deliveries[key] == Sent(a.sent.value))
            && (IsSent(a.db, key) && !IsSent(db, key) ==> a.marked && u.key == key)
            && (a.sent.Some? && !a.marked && u.key == key ==> !IsSent(a.db, key))
  {
    BootstrapKeepsLedger(db, u, w);
    var (b, db1) := HandleBootstrap(db, u, w);
    if b.Ready? && (b.replay ==> w.status == NoFault) && ShouldSend(db1, u, b.replay) {
      DeliverIsOrderly(db1, u, w, key);
      assert Process(db, u, w) == Deliver(db1, u, w);
    }
  }

  lemma DeliverIsOrderly(db: Db, u: Start, w: Weather, key: string)
    requires Orderly(db) && u.key in db.completed && db.completed[u.key] && !IsSent(db, u.key)
    ensures var a := Deliver(db, u, w);
            && Orderly(a.db)
            && (u.key != key ==> (key in a.db.deliveries <==> key in db.deliveries)
                                 && (key in db.deliveries ==> a.db.deliveries[key] == db.deliveries[key]))
            && (a.marked ==> a.sent.Some? && u.key in a.db.deliveries && a.db.deliveries[u.key] == Sent(a.sent.value))
            && (!a.marked ==> !IsSent(a.db, u.key))
  {
  }

  /** How many welcomes a run sent for a key, and how many of those its mark_sent did not record. */
  function Sends(db: Db, us: seq<Start>, ws: seq<Weather>, key: string): (nat, nat)
    requires |us| == |ws|
    decreases |us|
  {
    if us == [] then (0, 0)
    else
      var n := |us| - 1;
      var before := Sends(db, us[..n], ws[..n], key);
      var a := Process(After(db, us[..n], ws[..n]), us[n], ws[n]);
      if a.sent.Some? && us[n].key == key
      then (before.0 + 1, before.1 + if a.marked then 0 else 1) else before
  }

  /** The welcome bound: over any run of redelivered and mixed updates with any failures, the welcomes
      sent for a key are those whose mark_sent did not commit, plus one exactly when the ledger says
      sent; so at most one more than the unmarked ones. */
  lemma {:induction false} WelcomeBound(db: Db, us: seq<Start>, ws: seq<Weather>, key: string)
    requires |us| == |ws| && Orderly(db) && !IsSent(db, key)
    ensures var db' := After(db, us, ws);
            var (sends, unmarked) := Sends(db, us, ws, key);
            Orderly(db') && sends == unmarked + (if IsSent(db', key) then 1 else 0)
    decreases |us|
  {
    if us != [] {
      var n := |us| - 1;
      WelcomeBound(db, us[..n], ws[..n], key);
      AttemptIsOrderly(After(db, us[..n], ws[..n]), us[n], ws[n], key);
    }
  }

  /** Once sent is recorded no run sends again, and the recorded message id never changes. */
  lemma {:induction false} SentIsFinal(db: Db, us: seq<Start>, ws: seq<Weather>, key: string)
    requires |us| == |ws| && Orderly(db) && IsSent(db, key)
    ensures var db' := After(db, us, ws);
            Orderly(db') && IsSent(db', key) && db'.deliveries[key] == db.deliveries[key]
            && Sends(db, us, ws, key) == (0, 0)
    decreases |us|
  {
    if us != [] {
      var n := |us| - 1;
      SentIsFinal(db, us[..n], ws[..n], key);
      AttemptIsOrderly(After(db, us[..n], ws[..n]), us[n], ws[n], key);
    }
  }

  // ---- The lost welcome ----

  /** A completed key without a delivery row: every later delivery of the update is a silent replay. */
  predicate Lost(db: Db, key: string)
  {
    key in db.completed && db.completed[key] && key !in db.deliveries
  }

  lemma {:induction false} LostStaysLost(db: Db, us: seq<Start>, ws: seq<Weather>, key: string)
    requires |us| == |ws| && Orderly(db) && Lost(db, key)
    ensures Lost(After(db, us, ws), key) && Sends(db, us, ws, key) == (0, 0) && Orderly(After(db, us, ws))
    decreases |us|
  {
    if us != [] {
      var n := |us| - 1;
      LostStaysLost(db, us[..n], ws[..n], key);
      AttemptKeepsLost(After(db, us[..n], ws[..n]), us[n], ws[n], key);
    }
  }

  lemma AttemptKeepsLost(db: Db, u: Start, w: Weather, key: string)
    requires Orderly(db) && Lost(db, key)
    ensures var a := Process(db, u, w); Orderly(a.db) && Lost(a.db, key) && (u.key == key ==> a.sent.None?)
  {
    BootstrapKeepsLedger(db, u, w);
    var (b, db1) := HandleBootstrap(db, u, w);
    if b.Ready? && (b.replay ==> w.status == NoFault) && ShouldSend(db1, u, b.replay) {
      DeliverElsewhere(db1, u, w, key);
      assert Process(db, u, w) == Deliver(db1, u, w);
    }
  }

  lemma DeliverElsewhere(db: Db, u: Start, w: Weather, key: string)
    requires Orderly(db) && Lost(db, key) && u.key != key && u.key in db.completed && db.completed[u.key]
    ensures var a := Deliver(db, u, w); Orderly(a.db) && Lost(a.db, key)
  {
  }

  /** The welcome is lost exactly when the attempt that completes the key ends before its pending row
      is written: the completion's answer is lost, the chat is not eligible, or ensure_pending fails
      before committing. */
  lemma LostExactlyWhen(db: Db, u: Start, w: Weather)
    requires Orderly(db) && (u.key in db.completed ==> !db.completed[u.key])
    ensures var a := Process(db, u, w);
            var completes := u.wellFormed && w.begin == NoFault && w.create == NoFault && w.snapshot == NoFault
                             && w.audit == NoFault && w.complete != BeforeCommit;
            Lost(a.db, u.key) <==>
              completes && (w.complete == AfterCommit || !u.eligibleChat || w.pending == BeforeCommit)
  {
    BootstrapKeepsLedger(db, u, w);
    assert u.key !in db.deliveries;
    var (b, db1) := HandleBootstrap(db, u, w);
    CompletesExactlyWhen(db, u, w);
    if b.Ready? && u.eligibleChat {
      DeliverWritesRowUnless(db1, u, w);
    }
  }

  lemma CompletesExactlyWhen(db: Db, u: Start, w: Weather)
    requires u.key in db.completed ==> !db.completed[u.key]
    ensures var (b, db1) := HandleBootstrap(db, u, w);
            var completes := u.wellFormed && w.begin == NoFault && w.create == NoFault && w.snapshot == NoFault
                             && w.audit == NoFault && w.complete != BeforeCommit;
            (u.key in db1.completed && db1.completed[u.key] <==> completes)
            && b == (if completes && w.complete == NoFault then Ready(false) else Failed)
  {
  }

  lemma DeliverWritesRowUnless(db: Db, u: Start, w: Weather)
    requires u.key !in db.deliveries
    ensures var a := Deliver(db, u, w);
            (u.key in a.db.deliveries <==> w.pending != BeforeCommit) && a.db.completed == db.completed
  {
  }

  // ---- What a bootstrap grants, and what a calm attempt does ----

  /** At most the snapshot "inactive" without an end for the user of this Telegram id and the identity "u" and
      that id are new; every other snapshot and identity is as it was. */
  predicate GrantsNothing(db: Db, db': Db, tg: int, user: string)
  {
    (user in db.snapshots ==> user in db'.snapshots && db'.snapshots[user] == db.snapshots[user])
    && (user !in db.snapshots && user in db'.snapshots ==>
          user == "u" + Signed(tg) && db'.snapshots[user] == Snapshot("inactive", None))
    && (db'.identities == db.identities || db'.identities == db.identities[tg := "u" + Signed(tg)])
  }

  lemma DefaultSnapshotGrantsNothing(db: Db, tg: int, f: Fault, user: string)
    ensures GrantsNothing(db, DefaultSnapshot(db, "u" + Signed(tg), f).1, tg, user)
  {
  }

  lemma FirstBootstrapGrantsNothing(db: Db, u: Start, w: Weather, user: string)
    requires u.telegramId in db.identities ==> db.identities[u.telegramId] == "u" + Signed(u.telegramId)
    ensures GrantsNothing(db, FirstBootstrap(db, u, w).1, u.telegramId, user)
  {
    var db1 := if w.create == BeforeCommit || u.telegramId in db.identities then db
               else db.(identities := db.identities[u.telegramId := "u" + Signed(u.telegramId)]);
    DefaultSnapshotGrantsNothing(db1, u.telegramId, w.snapshot, user);
  }

  /** No bootstrap makes anyone active. */
  lemma BootstrapGrantsNothing(db: Db, u: Start, w: Weather, user: string)
    requires u.telegramId in db.identities ==> db.identities[u.telegramId] == "u" + Signed(u.telegramId)
    ensures GrantsNothing(db, HandleBootstrap(db, u, w).1, u.telegramId, user)
  {
    var db1 := if u.key in db.completed then db else db.(completed := db.completed[u.key := false]);
    DefaultSnapshotGrantsNothing(db1, u.telegramId, w.snapshot, user);
    FirstBootstrapGrantsNothing(db1, u, w, user);
  }

  /** A bootstrap that answers leaves the user with an identity and a snapshot. */
  lemma BootstrapEndsKnown(db: Db, u: Start, w: Weather)
    requires HandleBootstrap(db, u, w).0.Ready?
    ensures var db' := HandleBootstrap(db, u, w).1;
            u.wellFormed && u.telegramId in db'.identities && db'.identities[u.telegramId] in db'.snapshots
            && u.key in db'.completed && db'.completed[u.key]
            && (HandleBootstrap(db, u, w).0.replay <==> u.key in db.completed && db.completed[u.key])
  {
  }

  predicate Calm(w: Weather)
  {
    w.begin == w.find == w.create == w.snapshot == NoFault && w.audit == w.complete == w.status == w.pending == NoFault
    && w.send.Delivered? && w.mark == NoFault
  }

  /** With nothing failing, the first /start of a chat sends the welcome and records its message id. */
  lemma FirstStartIsWelcomed(db: Db, u: Start, w: Weather)
    requires Calm(w) && u.wellFormed && u.eligibleChat && u.key !in db.completed && u.key !in db.deliveries
    ensures var a := Process(db, u, w);
            a.effect == SendOk && a.sent == Some(w.send.messageId) && a.marked
            && a.db.deliveries == db.deliveries[u.key := Sent(w.send.messageId)]
            && a.db.completed == db.completed[u.key := true] && a.db.audits == db.audits + 1
  {
  }

  /** A repeated /start sends again exactly if its welcome is still pending, and writes no second audit row. */
  lemma RepeatedStartRetriesPending(db: Db, u: Start, w: Weather)
    requires Calm(w) && u.wellFormed && u.eligibleChat && u.key in db.completed && db.completed[u.key]
    requires u.telegramId in db.identities
    ensures var a := Process(db, u, w);
            a.db.audits == db.audits && a.db.completed == db.completed && a.db.identities == db.identities
            && if u.key in db.deliveries && db.deliveries[u.key] == Pending then
                 a.effect == SendOk && a.sent == Some(w.send.messageId)
                 && a.db.deliveries == db.deliveries[u.key := Sent(w.send.messageId)]
               else a.effect == Noop && a.sent == None && a.db.deliveries == db.deliveries
  {
  }

  /** Outside an eligible chat nothing is ever sent or recorded as a delivery. */
  lemma OtherChatsGetNothing(db: Db, u: Start, w: Weather)
    requires !u.eligibleChat
    ensures var a := Process(db, u, w); a.sent == None && !a.marked && a.db.deliveries == db.deliveries
  {
    BootstrapDeliversNothing(db, u, w);
  }

  lemma BootstrapDeliversNothing(db: Db, u: Start, w: Weather)
    ensures HandleBootstrap(db, u, w).1.deliveries == db.deliveries
  {
    var db1 := if u.key in db.completed then db else db.(completed := db.completed[u.key := false]);
    assert FirstBootstrap(db1, u, w).1.deliveries == db.deliveries;
  }

  /** A failed bootstrap sends no welcome: an eligible chat gets an error text, another nothing. */
  lemma FailedBootstrapIsTold(db: Db, u: Start, w: Weather)
    requires HandleBootstrap(db, u, w).0.Failed?
    ensures var a := Process(db, u, w);
            a.sent == None && a.db == HandleBootstrap(db, u, w).1
            && a.effect == if u.eligibleChat then ErrorText(w.send.Delivered?) else Noop
  {
  }

  /** A send that fails leaves the welcome pending, for a repeated /start to retry. */
  lemma FailedSendStaysPending(db: Db, u: Start, w: Weather)
    requires Calm(w.(send := Delivered(0))) && w.send.SendFailed? && u.wellFormed && u.eligibleChat
    requires u.key !in db.completed && u.key !in db.deliveries
    ensures var a := Process(db, u, w);
            a.effect == SendFailure && a.sent == None && a.db.deliveries == db.deliveries[u.key := Pending]
            && u.key in a.db.completed && a.db.completed[u.key]
  {
  }

  function Of(effects: seq<Effect>, kinds: set<Effect>): set<int>
  {
    set i | 0 <= i < |effects| && effects[i] in kinds
  }

  /** The batch counters: welcomes and error texts that went out, calls for nothing, sends that failed, and
      updates that could not be processed. */
  lemma {:induction false} CountersSay(effects: seq<Effect>)
    ensures var n := CountEffects(effects);
            n.sends == |Of(effects, {SendOk, ErrorText(true)})| && n.noops == |Of(effects, {Noop})|
            && n.sendFails == |Of(effects, {SendFailure, ErrorText(false)})| && n.fails == |Of(effects, {ProcessingFailure})|
  {
    if effects == [] {
      assert forall kinds :: Of(effects, kinds) == {};
    } else {
      var n := |effects| - 1;
      CountersSay(effects[..n]);
      OfGrows(effects[..n], effects[n], {SendOk, ErrorText(true)});
      OfGrows(effects[..n], effects[n], {Noop});
      OfGrows(effects[..n], effects[n], {SendFailure, ErrorText(false)});
      OfGrows(effects[..n], effects[n], {ProcessingFailure});
      assert effects[..n] + [effects[n]] == effects;
    }
  }

  lemma OfGrows(front: seq<Effect>, e: Effect, kinds: set<Effect>)
    ensures |Of(front + [e], kinds)| == |Of(front, kinds)| + if e in kinds then 1 else 0
  {
    assert Of(front + [e], kinds) == Of(front, kinds) + if e in kinds then {|front|} else {};
  }
}
