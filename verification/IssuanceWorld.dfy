/** Any number of service processes over one issuance_state table, interleaved at every await, with
    lost answers, process restarts, and writers outside the service. */
module IssuanceWorld {
  import opened Basics
  import opened Subscription
  import opened IssuanceStore
  import opened Issuance

  /** Where one execute stands: about to run a statement or call, between the two statements of an
      insert-then-select (update-then-select), or answered but not yet resumed. */
  datatype Stage = Calling(await: Await) | Rereading(await: Await) | Answered(await: Await, answer: Answer)

  datatype Task = Task(process: nat, req: Request, stage: Stage)

  datatype Said = Said(req: Request, result: Result)

  datatype World = World(store: Table, processes: map<nat, Memory>, tasks: map<nat, Task>, replies: seq<Said>)

  const INITIAL := World(map[], map[], map[], [])

  datatype Event =
    | Start(id: nat, process: nat, req: Request)
    | RunStatement(id: nat, fault: Fault, now: int)
    | ProviderAnswers(id: nat, answer: Answer)
    | Continue(id: nat)
    | Restart(process: nat)
    | ExternalRevoke(lk: LinkKey, now: int)
    | ReconcileSweep(snaps: Snapshots, now: int)

  function MemoryOf(w: World, p: nat): Memory
  {
    if p in w.processes then w.processes[p] else EMPTY_MEMORY
  }

  function Settle(w: World, id: nat, p: nat, r: Request, turn: Turn): World
  {
    var w' := w.(processes := w.processes[p := turn.mem]);
    match turn
    case Suspend(_, a) => w'.(tasks := w.tasks[id := Task(p, r, Calling(a))])
    case Reply(_, result) => w'.(tasks := w.tasks - {id}, replies := w.replies + [Said(r, result)])
  }

  /** One SQL statement of the store call the task is in. */
  function Statement(t: Table, stage: Stage, lk: LinkKey, fault: Fault, now: int): (Table, Stage)
  {
    match stage
    case Calling(AwaitFetch) =>
      (t, Answered(AwaitFetch, if fault == NoFault then Looked(Select(t, lk)) else StoreFailed))
    case Calling(AwaitIssueOrGet(ref)) =>
      var t' := if fault == BeforeCommit then t else Insert(t, lk, ref, now);
      (t', if fault != NoFault then Answered(stage.await, StoreFailed)
           else if lk in t then Rereading(stage.await)
           else Answered(stage.await, Looked(Select(t', lk))))
    case Calling(AwaitMarkRevoked(_)) =>
      var t' := if fault == BeforeCommit then t else Revoke(t, lk, now);
      (t', if fault != NoFault then Answered(stage.await, StoreFailed)
           else if lk !in t || t[lk].revoked then Rereading(stage.await)
           else Answered(stage.await, Looked(Select(t', lk))))
    case Rereading(a) =>
      (t, Answered(a, if fault != NoFault || (a.AwaitIssueOrGet? && lk !in t) then StoreFailed
                      else Looked(Select(t, lk))))
    case _ => (t, stage)
  }

  function Step(w: World, e: Event): World
  {
    match e
    case Start(id, p, r) =>
      if id in w.tasks then w else Settle(w, id, p, r, Begin(MemoryOf(w, p), true, r))
    case RunStatement(id, fault, now) =>
      if id !in w.tasks then w
      else
        var task := w.tasks[id];
        var (t', stage') := Statement(w.store, task.stage, Target(task.req), fault, now);
        w.(store := t', tasks := w.tasks[id := task.(stage := stage')])
    case ProviderAnswers(id, ans) =>
      if id in w.tasks && w.tasks[id].stage.Calling? && !ans.Looked? && !ans.StoreFailed?
         && Fits(w.tasks[id].stage.await, ans)
      then w.(tasks := w.tasks[id := w.tasks[id].(stage := Answered(w.tasks[id].stage.await, ans))])
      else w
    case Continue(id) =>
      if id in w.tasks && w.tasks[id].stage.Answered? && Fits(w.tasks[id].stage.await, w.tasks[id].stage.answer)
      then
        var task := w.tasks[id];
        Settle(w, id, task.process, task.req,
               Resume(MemoryOf(w, task.process), true, task.req, task.stage.await, task.stage.answer))
      else w
    case Restart(p) =>
      w.(processes := w.processes - {p}, tasks := map id | id in w.tasks && w.tasks[id].process != p :: w.tasks[id])
    case ExternalRevoke(lk, now) => w.(store := Revoke(w.store, lk, now))
    case ReconcileSweep(snaps, now) => w.(store := Sweep(w.store, snaps, now))
  }

  function Run(w: World, es: seq<Event>): World
    decreases |es|
  {
    if es == [] then w else Run(Step(w, es[0]), es[1..])
  }

  // ---- Invariants, all monotone in the store ----

  /** The issue-result cache holds exactly the ISSUED ledger entries, with equal refs. */
  ghost predicate CacheMatchesLedger(issued: map<LinkKey, string>, ledger: map<LinkKey, Entry>)
  {
    && (forall lk :: lk in issued <==> lk in ledger && !ledger[lk].revoked)
    && (forall lk :: lk in issued ==> issued[lk] == ledger[lk].ref)
  }

  /** Every ledger entry has the ref of its row, and is revoked only if the row is. */
  ghost predicate LedgerMatchesStore(ledger: map<LinkKey, Entry>, t: Table)
  {
    forall lk :: lk in ledger ==>
      lk in t && t[lk].ref == ledger[lk].ref && (ledger[lk].revoked ==> t[lk].revoked)
  }

  ghost predicate MemoryOk(m: Memory, t: Table)
  {
    CacheMatchesLedger(m.issued, m.ledger) && LedgerMatchesStore(m.ledger, t)
  }

  predicate HoldsRef(t: Table, lk: LinkKey, ref: string)
  {
    lk in t && t[lk].ref == ref
  }

  predicate AwaitOk(a: Await, r: Request, t: Table)
  {
    match a
    case AwaitInstructions(ref) => HoldsRef(t, Target(r), ref)
    case AwaitRevokeAccess(ref) => HoldsRef(t, Target(r), ref)
    case AwaitMarkRevoked(ref) => HoldsRef(t, Target(r), ref)
    case AwaitIssueOrGet(_) => r.op == OpIssue
    case AwaitCreate => r.op == OpIssue
    case AwaitFetch => true
  }

  predicate AnswerOk(a: Await, ans: Answer, r: Request, t: Table)
  {
    && Fits(a, ans)
    && (ans.Looked? && ans.row.Some? ==>
          && HoldsRef(t, Target(r), ans.row.value.ref)
          && (ans.row.value.revoked ==> t[Target(r)].revoked)
          && (a.AwaitMarkRevoked? ==> ans.row.value.revoked))
  }

  predicate StageOk(stage: Stage, r: Request, t: Table)
  {
    && AwaitOk(stage.await, r, t)
    && match stage
       case Calling(_) => true
       case Rereading(a) =>
         && Target(r) in t
         && (a.AwaitIssueOrGet? || (a.AwaitMarkRevoked? && t[Target(r)].revoked))
       case Answered(a, ans) => AnswerOk(a, ans, r, t)
  }

  predicate IsIssueGrant(res: Result)
  {
    res.category == Issued || res.category == AlreadyIssued
  }

  predicate ResultOk(r: Request, res: Result, t: Table)
  {
    IsIssueGrant(res) ==> r.op == OpIssue && res.ref.Some? && HoldsRef(t, Target(r), res.ref.value)
  }

  ghost predicate TurnOk(turn: Turn, r: Request, t: Table)
  {
    && MemoryOk(turn.mem, t)
    && match turn
       case Suspend(_, a) => WellFormed(r) && AwaitOk(a, r, t)
       case Reply(_, res) => ResultOk(r, res, t)
  }

  ghost predicate Ok(w: World)
  {
    && (forall lk :: lk in w.store ==> lk.key != "")
    && (forall p :: p in w.processes ==> MemoryOk(w.processes[p], w.store))
    && (forall id :: id in w.tasks ==>
          WellFormed(w.tasks[id].req) && StageOk(w.tasks[id].stage, w.tasks[id].req, w.store))
    && (forall i :: 0 <= i < |w.replies| ==> ResultOk(w.replies[i].req, w.replies[i].result, w.store))
  }

  lemma OkIsMonotone(w: World, t: Table)
    requires Ok(w) && Grows(w.store, t)
    requires forall lk :: lk in t ==> lk.key != ""
    ensures Ok(w.(store := t))
  {
    forall id | id in w.tasks ensures StageOk(w.tasks[id].stage, w.tasks[id].req, t) {
      assert StageOk(w.tasks[id].stage, w.tasks[id].req, w.store);
    }
    forall i | 0 <= i < |w.replies| ensures ResultOk(w.replies[i].req, w.replies[i].result, t) {
      assert ResultOk(w.replies[i].req, w.replies[i].result, w.store);
    }
  }

  lemma {:induction false} BeginIsOk(m: Memory, r: Request, t: Table)
    requires MemoryOk(m, t)
    ensures TurnOk(Begin(m, true, r), r, t)
  {
    if WellFormed(r) && r.op == OpIssue {
      BeginIssueIsOk(m, r, t);
    } else {
      var turn := Begin(m, true, r);
      assert turn.mem.ledger == m.ledger && turn.mem.issued == m.issued;
    }
  }

  lemma BeginIssueIsOk(m: Memory, r: Request, t: Table)
    requires MemoryOk(m, t) && WellFormed(r) && r.op == OpIssue
    ensures TurnOk(BeginIssue(m, true, r), r, t)
  {
    var turn := BeginIssue(m, true, r);
    assert turn.mem.ledger == m.ledger && turn.mem.issued == m.issued;
  }

  lemma ResumeIsOk(m: Memory, r: Request, a: Await, ans: Answer, t: Table)
    requires MemoryOk(m, t) && WellFormed(r) && StageOk(Answered(a, ans), r, t)
    ensures TurnOk(Resume(m, true, r, a, ans), r, t)
  {
    if a.AwaitFetch? {
      FetchedIsOk(m, r, ans, t);
    } else if ans.Looked? {
      PersistedIsOk(m, r, a, ans, t);
    } else {
      AnsweredIsOk(m, r, a, ans, t);
    }
  }

  lemma AnsweredIsOk(m: Memory, r: Request, a: Await, ans: Answer, t: Table)
    requires MemoryOk(m, t) && WellFormed(r) && StageOk(Answered(a, ans), r, t) && !ans.Looked? && !a.AwaitFetch?
    ensures TurnOk(Resume(m, true, r, a, ans), r, t)
  {
    AnsweredKeepsMemory(m, r, a, ans);
    var turn := Resume(m, true, r, a, ans);
    assert MemoryOk(turn.mem, t);
  }

  lemma AnsweredKeepsMemory(m: Memory, r: Request, a: Await, ans: Answer)
    requires Fits(a, ans) && !ans.Looked? && !a.AwaitFetch?
    ensures var turn := Resume(m, true, r, a, ans);
            turn.mem.ledger == m.ledger && turn.mem.issued == m.issued
  {
  }

  lemma PersistedIsOk(m: Memory, r: Request, a: Await, ans: Answer, t: Table)
    requires MemoryOk(m, t) && WellFormed(r) && StageOk(Answered(a, ans), r, t) && ans.Looked? && !a.AwaitFetch?
    ensures TurnOk(Resume(m, true, r, a, ans), r, t)
  {
    if ans.row.Some? {
      SyncsAreOk(m, Target(r), ans.row.value, t);
    }
  }

  lemma FetchedIsOk(m: Memory, r: Request, ans: Answer, t: Table)
    requires MemoryOk(m, t) && WellFormed(r) && StageOk(Answered(AwaitFetch, ans), r, t)
    ensures TurnOk(Resume(m, true, r, AwaitFetch, ans), r, t)
  {
    if ans.Looked? && ans.row.Some? {
      FetchedRowIsOk(m, r, ans.row.value, t);
    }
  }

  lemma FetchedRowIsOk(m: Memory, r: Request, row: Row, t: Table)
    requires MemoryOk(m, t) && WellFormed(r) && HoldsRef(t, Target(r), row.ref) && (row.revoked ==> t[Target(r)].revoked)
    ensures TurnOk(ResumeFetched(m, r, Some(row)), r, t)
  {
    SyncsAreOk(m, Target(r), row, t);
  }

  lemma SyncsAreOk(m: Memory, lk: LinkKey, row: Row, t: Table)
    requires MemoryOk(m, t) && HoldsRef(t, lk, row.ref)
    ensures MemoryOk(SyncIssued(m, lk, row.ref), t)
    ensures t[lk].revoked ==> MemoryOk(SyncRevoked(m, lk, row.ref), t)
  {
  }

  lemma SettleIsOk(w: World, id: nat, p: nat, r: Request, turn: Turn)
    requires Ok(w) && TurnOk(turn, r, w.store)
    ensures Ok(Settle(w, id, p, r, turn))
  {
  }

  lemma StatementIsOk(t: Table, stage: Stage, r: Request, fault: Fault, now: int)
    requires WellFormed(r) && StageOk(stage, r, t)
    ensures var (t', stage') := Statement(t, stage, Target(r), fault, now);
            Grows(t, t') && StageOk(stage', r, t') && t'.Keys <= t.Keys + {Target(r)}
  {
  }

  lemma RunStatementIsOk(w: World, id: nat, fault: Fault, now: int)
    requires Ok(w) && id in w.tasks
    ensures Ok(Step(w, RunStatement(id, fault, now))) && Grows(w.store, Step(w, RunStatement(id, fault, now)).store)
  {
    var task := w.tasks[id];
    StatementIsOk(w.store, task.stage, task.req, fault, now);
    OkIsMonotone(w, Step(w, RunStatement(id, fault, now)).store);
  }

  lemma {:induction false} StepIsOk(w: World, e: Event)
    requires Ok(w)
    ensures Ok(Step(w, e)) && Grows(w.store, Step(w, e).store)
  {
    match e
    case Start(id, p, r) =>
      if id !in w.tasks {
        BeginIsOk(MemoryOf(w, p), r, w.store);
        SettleIsOk(w, id, p, r, Begin(MemoryOf(w, p), true, r));
      }
    case RunStatement(id, fault, now) =>
      if id in w.tasks {
        RunStatementIsOk(w, id, fault, now);
      }
    case ProviderAnswers(id, ans) => ProviderAnswersIsOk(w, id, ans);
    case Continue(id) =>
      if id in w.tasks && w.tasks[id].stage.Answered? {
        ContinueIsOk(w, id);
      }
    case Restart(p) => RestartIsOk(w, p);
    case ExternalRevoke(lk, now) => OutsideWriteIsOk(w, Revoke(w.store, lk, now), lk, map[], now);
    case ReconcileSweep(snaps, now) => OutsideWriteIsOk(w, Sweep(w.store, snaps, now), LinkKey("", ""), snaps, now);
  }

  lemma ProviderAnswersIsOk(w: World, id: nat, ans: Answer)
    requires Ok(w)
    ensures Ok(Step(w, ProviderAnswers(id, ans))) && Step(w, ProviderAnswers(id, ans)).store == w.store
  {
  }

  lemma RestartIsOk(w: World, p: nat)
    requires Ok(w)
    ensures Ok(Step(w, Restart(p)))
  {
  }

  lemma ContinueIsOk(w: World, id: nat)
    requires Ok(w) && id in w.tasks && w.tasks[id].stage.Answered?
    ensures Ok(Step(w, Continue(id)))
  {
    var task := w.tasks[id];
    ResumeIsOk(MemoryOf(w, task.process), task.req, task.stage.await, task.stage.answer, w.store);
    SettleIsOk(w, id, task.process, task.req,
      Resume(MemoryOf(w, task.process), true, task.req, task.stage.await, task.stage.answer));
  }

  lemma OutsideWriteIsOk(w: World, t: Table, lk: LinkKey, snaps: Snapshots, now: int)
    requires Ok(w) && (t == Revoke(w.store, lk, now) || t == Sweep(w.store, snaps, now))
    ensures Ok(w.(store := t)) && Grows(w.store, t)
  {
    StatementsGrow(w.store, lk, "", snaps, now);
    OkIsMonotone(w, t);
  }

  /** In every reachable world, every process's cache matches its ledger and its ledger matches the
      store; between any two moments of a run no row loses its ref or its revocation. */
  lemma {:induction false} ReachableIsOk(w: World, es: seq<Event>)
    requires Ok(w)
    ensures Ok(Run(w, es)) && Grows(w.store, Run(w, es).store)
    decreases |es|
  {
    if es != [] {
      StepIsOk(w, es[0]);
      ReachableIsOk(Step(w, es[0]), es[1..]);
    }
  }

  lemma CacheInvariant(es: seq<Event>, p: nat)
    ensures var w := Run(INITIAL, es);
            MemoryOk(MemoryOf(w, p), w.store)
  {
    ReachableIsOk(INITIAL, es);
  }

  /** All ISSUED and ALREADY_ISSUED replies for one user and issue key, from whatever processes and in
      whatever interleaving, carry one ref, and it is the ref of the stored row. */
  lemma RefAgreement(es: seq<Event>, i: nat, j: nat)
    requires i < |Run(INITIAL, es).replies| && j < |Run(INITIAL, es).replies|
    requires IsIssueGrant(Run(INITIAL, es).replies[i].result) && IsIssueGrant(Run(INITIAL, es).replies[j].result)
    requires OwnKey(Run(INITIAL, es).replies[i].req) == OwnKey(Run(INITIAL, es).replies[j].req)
    ensures var w := Run(INITIAL, es);
            var lk := OwnKey(w.replies[i].req);
            lk in w.store && w.replies[i].result.ref == w.replies[j].result.ref == Some(w.store[lk].ref)
  {
    var w := Run(INITIAL, es);
    ReachableIsOk(INITIAL, es);
    assert ResultOk(w.replies[i].req, w.replies[i].result, w.store);
    assert ResultOk(w.replies[j].req, w.replies[j].result, w.store);
  }

  /** Agreement is on the ref, not on the category: whatever ref its provider call produced, an issue
      that reaches the INSERT after another process's row is told ISSUED, with the stored ref. */
  lemma {:induction false} LateInsertIsToldIssued(w: World, id: nat, now: int)
    requires Ok(w) && id in w.tasks && w.tasks[id].stage.Calling? && w.tasks[id].stage.await.AwaitIssueOrGet?
    requires Target(w.tasks[id].req) in w.store
    ensures var lk := Target(w.tasks[id].req);
            var w' := Run(w, [RunStatement(id, NoFault, now), RunStatement(id, NoFault, now), Continue(id)]);
            w'.store == w.store
            && w'.replies == w.replies + [Said(w.tasks[id].req, Result(Issued, Some(w.store[lk].ref)))]
  {
    var s := RunStatement(id, NoFault, now);
    var w1 := Step(w, s);
    var w2 := Step(w1, s);
    assert [s, s, Continue(id)][1..] == [s, Continue(id)];
    assert [s, Continue(id)][1..] == [Continue(id)];
    assert [Continue(id)][1..] == [];
    assert Run(w, [s, s, Continue(id)]) == Run(w1, [s, Continue(id)]) == Run(w2, [Continue(id)])
        == Step(w2, Continue(id));
  }

  // ---- Two issues both told ISSUED ----

  lemma {:induction false} RunAppend(w: World, a: seq<Event>, b: seq<Event>)
    ensures Run(w, a + b) == Run(Run(w, a), b)
    decreases |a|
  {
    if a == [] {
      assert a + b == b;
    } else {
      assert (a + b)[1..] == a[1..] + b;
      RunAppend(Step(w, a[0]), a[1..], b);
    }
  }

  predicate IsIssueRequest(r: Request)
  {
    WellFormed(r) && r.op == OpIssue && AllowsIssueResend(r.state)
  }

  function UpToInsert(id: nat, ref: string): seq<Event>
  {
    [RunStatement(id, NoFault, 0), Continue(id)] + [ProviderAnswers(id, Provided(Success, Some(ref))), Continue(id)]
  }

  /** A fresh process that found no row asks the provider and then stands before the INSERT. */
  lemma {:induction false} ReachesInsert(w: World, id: nat, ref: string)
    requires id in w.tasks && w.tasks[id].stage == Calling(AwaitFetch) && IsIssueRequest(w.tasks[id].req)
    requires Target(w.tasks[id].req) !in w.store && ref != ""
    requires w.tasks[id].process in w.processes && w.processes[w.tasks[id].process] == EMPTY_MEMORY
    ensures Run(w, UpToInsert(id, ref)) == w.(tasks := w.tasks[id := w.tasks[id].(stage := Calling(AwaitIssueOrGet(ref)))])
  {
    var t := w.tasks[id];
    var e1, e2 := RunStatement(id, NoFault, 0), Continue(id);
    var e3 := ProviderAnswers(id, Provided(Success, Some(ref)));
    var w1 := Step(w, e1);
    assert w1 == w.(tasks := w.tasks[id := t.(stage := Answered(AwaitFetch, Looked(None)))]);
    var w2 := Step(w1, e2);
    assert w2 == w.(tasks := w.tasks[id := t.(stage := Calling(AwaitCreate))]);
    RunTwo(w, e1, e2);
    var w3 := Step(w2, e3);
    assert w3 == w.(tasks := w.tasks[id := t.(stage := Answered(AwaitCreate, Provided(Success, Some(ref))))]);
    RunTwo(w2, e3, e2);
    RunAppend(w, [e1, e2], [e3, e2]);
  }

  lemma RunTwo(w: World, a: Event, b: Event)
    ensures Run(w, [a, b]) == Step(Step(w, a), b)
  {
    assert [a, b][1..] == [b] && [b][1..] == [];
    assert Run(Step(Step(w, a), b), []) == Step(Step(w, a), b);
  }

  lemma FirstInsertIsIssued(w: World, id: nat, now: int)
    requires id in w.tasks && w.tasks[id].stage.Calling? && w.tasks[id].stage.await.AwaitIssueOrGet?
    requires Target(w.tasks[id].req) !in w.store && IsIssueRequest(w.tasks[id].req)
    ensures var r, ref := w.tasks[id].req, w.tasks[id].stage.await.ref;
            var w' := Run(w, [RunStatement(id, NoFault, now), Continue(id)]);
            w'.store == Insert(w.store, Target(r), ref, now) && w'.tasks == w.tasks - {id}
            && w'.replies == w.replies + [Said(r, Result(Issued, Some(ref)))]
  {
    var t := w.tasks[id];
    var w1 := Step(w, RunStatement(id, NoFault, now));
    assert w1.tasks[id].stage == Answered(t.stage.await, Looked(Some(w1.store[Target(t.req)])));
    RunTwo(w, RunStatement(id, NoFault, now), Continue(id));
    assert w1.tasks - {id} == w.tasks - {id};
  }

  /** The interleaving: two processes both look, both ask the provider, and then both insert. */
  function TwoIssues(r: Request, ref1: string, ref2: string): seq<Event>
  {
    [Start(1, 1, r), Start(2, 2, r)] + UpToInsert(1, ref1) + UpToInsert(2, ref2)
    + [RunStatement(1, NoFault, 0), Continue(1)]
    + [RunStatement(2, NoFault, 0), RunStatement(2, NoFault, 0), Continue(2)]
  }

  /** It happens: from the initial world both replies are ISSUED, with the first insert's ref, and the ref
      the provider made for the second is in no row. */
  lemma BothAreToldIssued(r: Request, ref1: string, ref2: string)
    requires IsIssueRequest(r) && ref1 != "" && ref2 != ""
    ensures var w := Run(INITIAL, TwoIssues(r, ref1, ref2));
            w.replies == [Said(r, Result(Issued, Some(ref1))), Said(r, Result(Issued, Some(ref1)))]
            && w.store.Keys == {Target(r)} && w.store[Target(r)].ref == ref1
  {
    var before := [Start(1, 1, r), Start(2, 2, r)] + UpToInsert(1, ref1) + UpToInsert(2, ref2) + [RunStatement(1, NoFault, 0), Continue(1)];
    var second := [RunStatement(2, NoFault, 0), RunStatement(2, NoFault, 0), Continue(2)];
    var w3 := FirstIsIssued(r, ref1, ref2);
    ReachableIsOk(INITIAL, before);
    LateInsertIsToldIssued(w3, 2, 0);
    RunAppend(INITIAL, before, second);
  }

  lemma FirstIsIssued(r: Request, ref1: string, ref2: string) returns (w: World)
    requires IsIssueRequest(r) && ref1 != "" && ref2 != ""
    ensures w == Run(INITIAL, [Start(1, 1, r), Start(2, 2, r)] + UpToInsert(1, ref1) + UpToInsert(2, ref2)
                              + [RunStatement(1, NoFault, 0), Continue(1)])
    ensures w.store.Keys == {Target(r)} && w.store[Target(r)].ref == ref1
    ensures w.replies == [Said(r, Result(Issued, Some(ref1)))]
    ensures w.tasks == map[2 := Task(2, r, Calling(AwaitIssueOrGet(ref2)))]
  {
    var first := [RunStatement(1, NoFault, 0), Continue(1)];
    var w2 := BothBeforeInsert(r, ref1, ref2);
    FirstInsertIsIssued(w2, 1, 0);
    RunAppend(INITIAL, [Start(1, 1, r), Start(2, 2, r)] + UpToInsert(1, ref1) + UpToInsert(2, ref2), first);
    w := Run(w2, first);
    assert w.store == map[][Target(r) := w.store[Target(r)]];
  }

  lemma BothBeforeInsert(r: Request, ref1: string, ref2: string) returns (w: World)
    requires IsIssueRequest(r) && ref1 != "" && ref2 != ""
    ensures w == Run(INITIAL, [Start(1, 1, r), Start(2, 2, r)] + UpToInsert(1, ref1) + UpToInsert(2, ref2))
    ensures w.store == map[] && w.replies == []
    ensures w.tasks == map[1 := Task(1, r, Calling(AwaitIssueOrGet(ref1))), 2 := Task(2, r, Calling(AwaitIssueOrGet(ref2)))]
  {
    var starts := [Start(1, 1, r), Start(2, 2, r)];
    var w0 := World(map[], map[1 := EMPTY_MEMORY, 2 := EMPTY_MEMORY],
                    map[1 := Task(1, r, Calling(AwaitFetch)), 2 := Task(2, r, Calling(AwaitFetch))], []);
    RunTwo(INITIAL, starts[0], starts[1]);
    assert Step(INITIAL, starts[0]) == World(map[], map[1 := EMPTY_MEMORY], map[1 := Task(1, r, Calling(AwaitFetch))], []);
    assert Run(INITIAL, starts) == w0;
    ReachesInsert(w0, 1, ref1);
    var w1 := Run(w0, UpToInsert(1, ref1));
    ReachesInsert(w1, 2, ref2);
    w := Run(w1, UpToInsert(2, ref2));
    RunAppend(INITIAL, starts, UpToInsert(1, ref1));
    RunAppend(INITIAL, starts + UpToInsert(1, ref1), UpToInsert(2, ref2));
  }
}
