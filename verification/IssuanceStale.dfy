/** A row revoked behind the processes' backs: which memories and which suspended executes can still
    grant its link, and that nothing else ever does. */
module IssuanceStale {
  import opened Basics
  import opened Subscription
  import opened IssuanceStore
  import opened Issuance
  import opened IssuanceWorld
  import opened IssuanceRevocation

  /** An execute that can still end in a grant on a row that is revoked by now. */
  predicate CanGrant(stage: Stage, op: Operation)
  {
    match stage
    case Calling(a) => a.AwaitCreate? || a.AwaitIssueOrGet? || a.AwaitInstructions?
    case Rereading(a) => a.AwaitIssueOrGet?
    case Answered(a, ans) =>
      match a
      case AwaitFetch =>
        ans.Looked? && if ans.row.None? then op == OpIssue else !ans.row.value.revoked && op != OpRevoke
      case AwaitCreate => Succeeded(ans)
      case AwaitInstructions(_) => Succeeded(ans)
      case AwaitIssueOrGet(_) => ans.Looked?
      case _ => false
  }

  predicate Succeeded(ans: Answer)
  {
    ans.Provided? && ans.outcome == Success && ans.handle.Some? && ans.handle.value != ""
  }

  predicate MemoryGrants(w: World, lk: LinkKey)
  {
    exists p :: p in w.processes && lk in w.processes[p].issued
  }

  predicate TaskGrants(w: World, lk: LinkKey)
  {
    exists id :: id in w.tasks && Target(w.tasks[id].req) == lk && CanGrant(w.tasks[id].stage, w.tasks[id].req.op)
  }

  /** A process still has the link's issue in its cache, or an execute for it is past the point of noticing. */
  predicate StillGrants(w: World, lk: LinkKey)
  {
    MemoryGrants(w, lk) || TaskGrants(w, lk)
  }

  predicate IsRevoked(t: Table, lk: LinkKey)
  {
    lk in t && t[lk].revoked
  }

  /** Some reply given since grants the link. */
  predicate GrantedSince(w: World, w': World, lk: LinkKey)
  {
    exists i :: |w.replies| <= i < |w'.replies| && Target(w'.replies[i].req) == lk && IsGrant(w'.replies[i].result)
  }

  predicate RunGrants(w: World, es: seq<Event>, lk: LinkKey)
  {
    GrantedSince(w, Run(w, es), lk)
  }

  // ---- Nothing else grants ----

  predicate TurnSpent(turn: Turn, r: Request, lk: LinkKey)
  {
    lk !in turn.mem.issued
    && (Target(r) == lk ==>
          match turn
          case Suspend(_, a) => !CanGrant(Calling(a), r.op)
          case Reply(_, res) => !IsGrant(res))
  }

  lemma BeginSpent(m: Memory, r: Request, t: Table, lk: LinkKey)
    requires MemoryOk(m, t) && lk !in m.issued
    ensures TurnSpent(Begin(m, true, r), r, lk)
  {
  }

  lemma ResumeSpent(m: Memory, r: Request, a: Await, ans: Answer, t: Table, lk: LinkKey)
    requires MemoryOk(m, t) && WellFormed(r) && StageOk(Answered(a, ans), r, t) && IsRevoked(t, lk) && lk !in m.issued
    requires Target(r) == lk ==> !CanGrant(Answered(a, ans), r.op)
    ensures TurnSpent(Resume(m, true, r, a, ans), r, lk)
  {
    match a {
      case AwaitFetch => FetchedSpent(m, r, ans, t, lk);
      case _ =>
    }
  }

  lemma FetchedSpent(m: Memory, r: Request, ans: Answer, t: Table, lk: LinkKey)
    requires MemoryOk(m, t) && WellFormed(r) && StageOk(Answered(AwaitFetch, ans), r, t) && IsRevoked(t, lk) && lk !in m.issued
    requires Target(r) == lk ==> !CanGrant(Answered(AwaitFetch, ans), r.op)
    ensures TurnSpent(Resume(m, true, r, AwaitFetch, ans), r, lk)
  {
  }

  lemma StatementSpent(t: Table, stage: Stage, r: Request, fault: Fault, now: int)
    requires StageOk(stage, r, t) && IsRevoked(t, Target(r)) && !CanGrant(stage, r.op)
    ensures !CanGrant(IssuanceWorld.Statement(t, stage, Target(r), fault, now).1, r.op)
  {
  }

  predicate Spent(w: World, lk: LinkKey)
  {
    IsRevoked(w.store, lk) && !StillGrants(w, lk)
  }

  lemma SettleSpent(w: World, id: nat, p: nat, r: Request, turn: Turn, lk: LinkKey)
    requires Spent(w, lk) && TurnSpent(turn, r, lk)
    ensures Spent(Settle(w, id, p, r, turn), lk) && !GrantedSince(w, Settle(w, id, p, r, turn), lk)
  {
    var w' := Settle(w, id, p, r, turn);
    forall q | q in w'.processes ensures lk !in w'.processes[q].issued {
      assert q != p ==> q in w.processes && w'.processes[q] == w.processes[q];
    }
    forall j | j in w'.tasks && Target(w'.tasks[j].req) == lk ensures !CanGrant(w'.tasks[j].stage, w'.tasks[j].req.op) {
      assert j != id ==> j in w.tasks && w'.tasks[j] == w.tasks[j];
    }
  }

  lemma TaskStepSpent(w: World, id: nat, stage: Stage, t: Table, lk: LinkKey)
    requires Spent(w, lk) && id in w.tasks && IsRevoked(t, lk)
    requires Target(w.tasks[id].req) == lk ==> !CanGrant(stage, w.tasks[id].req.op)
    ensures Spent(w.(store := t, tasks := w.tasks[id := w.tasks[id].(stage := stage)]), lk)
  {
    var w' := w.(store := t, tasks := w.tasks[id := w.tasks[id].(stage := stage)]);
    forall q | q in w'.processes ensures lk !in w'.processes[q].issued {
      assert w'.processes[q] == w.processes[q];
    }
    forall j | j in w'.tasks && Target(w'.tasks[j].req) == lk ensures !CanGrant(w'.tasks[j].stage, w'.tasks[j].req.op) {
      assert j != id ==> j in w.tasks && w'.tasks[j] == w.tasks[j];
    }
  }

  lemma RunStatementSpent(w: World, id: nat, fault: Fault, now: int, lk: LinkKey)
    requires Ok(w) && Spent(w, lk) && id in w.tasks
    ensures Spent(Step(w, RunStatement(id, fault, now)), lk)
  {
    var task := w.tasks[id];
    var (t', stage') := IssuanceWorld.Statement(w.store, task.stage, Target(task.req), fault, now);
    StatementIsOk(w.store, task.stage, task.req, fault, now);
    if Target(task.req) == lk {
      assert !CanGrant(task.stage, task.req.op);
      StatementSpent(w.store, task.stage, task.req, fault, now);
    }
    TaskStepSpent(w, id, stage', t', lk);
  }

  lemma MemorySpent(w: World, p: nat, lk: LinkKey)
    requires Ok(w) && Spent(w, lk)
    ensures lk !in MemoryOf(w, p).issued && MemoryOk(MemoryOf(w, p), w.store)
  {
  }

  lemma RestartSpent(w: World, p: nat, lk: LinkKey)
    requires Spent(w, lk)
    ensures Spent(Step(w, Restart(p)), lk)
  {
    var w' := Step(w, Restart(p));
    forall q | q in w'.processes ensures lk !in w'.processes[q].issued {
      assert w'.processes[q] == w.processes[q];
    }
    forall j | j in w'.tasks && Target(w'.tasks[j].req) == lk ensures !CanGrant(w'.tasks[j].stage, w'.tasks[j].req.op) {
      assert w'.tasks[j] == w.tasks[j];
    }
  }

  lemma StepSpent(w: World, e: Event, lk: LinkKey)
    requires Ok(w) && Spent(w, lk)
    ensures Spent(Step(w, e), lk) && !GrantedSince(w, Step(w, e), lk)
  {
    match e {
      case Start(id, p, r) =>
        if id !in w.tasks {
          MemorySpent(w, p, lk);
          BeginSpent(MemoryOf(w, p), r, w.store, lk);
          SettleSpent(w, id, p, r, Begin(MemoryOf(w, p), true, r), lk);
        }
      case RunStatement(id, fault, now) =>
        if id in w.tasks {
          RunStatementSpent(w, id, fault, now, lk);
        }
      case ProviderAnswers(id, ans) =>
        if Step(w, e) != w {
          var task := w.tasks[id];
          assert Target(task.req) == lk ==> !CanGrant(task.stage, task.req.op);
          TaskStepSpent(w, id, Answered(task.stage.await, ans), w.store, lk);
        }
      case Continue(id) =>
        if Step(w, e) != w {
          var task := w.tasks[id];
          MemorySpent(w, task.process, lk);
          assert Target(task.req) == lk ==> !CanGrant(task.stage, task.req.op);
          ResumeSpent(MemoryOf(w, task.process), task.req, task.stage.await, task.stage.answer, w.store, lk);
          SettleSpent(w, id, task.process, task.req,
                      Resume(MemoryOf(w, task.process), true, task.req, task.stage.await, task.stage.answer), lk);
        }
      case Restart(p) => RestartSpent(w, p, lk);
      case ExternalRevoke(other, now) => StoreSpent(w, Revoke(w.store, other, now), lk);
      case ReconcileSweep(snaps, now) => StoreSpent(w, Sweep(w.store, snaps, now), lk);
    }
  }

  lemma StoreSpent(w: World, t: Table, lk: LinkKey)
    requires Spent(w, lk) && IsRevoked(t, lk)
    ensures Spent(w.(store := t), lk)
  {
    var w' := w.(store := t);
    assert w'.processes == w.processes && w'.tasks == w.tasks;
    assert MemoryGrants(w', lk) ==> MemoryGrants(w, lk);
    assert TaskGrants(w', lk) ==> TaskGrants(w, lk);
  }

  /** Once nothing can still grant the link of a revoked row, no run grants it. */
  lemma {:induction false} SpentForGood(w: World, es: seq<Event>, lk: LinkKey)
    requires Ok(w) && Spent(w, lk)
    ensures Spent(Run(w, es), lk) && !GrantedSince(w, Run(w, es), lk)
    decreases |es|
  {
    if es != [] {
      var w1 := Step(w, es[0]);
      StepSpent(w, es[0], lk);
      StepIsOk(w, es[0]);
      SpentForGood(w1, es[1..], lk);
      RepliesStay(w, [es[0]]);
      RepliesStay(w1, es[1..]);
      assert [es[0]][1..] == [] && Run(w, [es[0]]) == Run(w1, []) == w1;
      StillNotGranted(w, w1, Run(w1, es[1..]), lk);
    }
  }

  lemma {:induction false} RepliesStay(w: World, es: seq<Event>)
    ensures w.replies <= Run(w, es).replies
    decreases |es|
  {
    if es != [] {
      RepliesStay(Step(w, es[0]), es[1..]);
    }
  }

  lemma StillNotGranted(w: World, w1: World, w2: World, lk: LinkKey)
    requires w.replies <= w1.replies <= w2.replies && !GrantedSince(w, w1, lk) && !GrantedSince(w1, w2, lk)
    ensures !GrantedSince(w, w2, lk)
  {
    forall i | |w.replies| <= i < |w2.replies|
      ensures !(Target(w2.replies[i].req) == lk && IsGrant(w2.replies[i].result)) {
      if i < |w1.replies| {
        assert w2.replies[i] == w1.replies[i];
      }
    }
  }

  // ---- Whatever can still grant, does in some run ----

  function Advance(stage: Stage, id: nat): Event
  {
    match stage
    case Calling(AwaitCreate) => ProviderAnswers(id, Provided(Success, Some("h")))
    case Calling(AwaitInstructions(_)) => ProviderAnswers(id, Provided(Success, Some("h")))
    case Calling(_) => RunStatement(id, NoFault, 0)
    case Rereading(_) => RunStatement(id, NoFault, 0)
    case Answered(_, _) => Continue(id)
  }

  function StagesLeft(stage: Stage): nat
  {
    match stage
    case Answered(AwaitFetch, _) => 6
    case Calling(AwaitCreate) => 5
    case Answered(AwaitCreate, _) => 4
    case Calling(AwaitIssueOrGet(_)) => 3
    case Rereading(_) => 2
    case Calling(_) => 2
    case Answered(_, _) => 1
  }

  /** One step of such an execute: a grant, or a stage nearer to it. */
  lemma AdvanceGrants(w: World, id: nat)
    requires Ok(w) && id in w.tasks && CanGrant(w.tasks[id].stage, w.tasks[id].req.op) && Target(w.tasks[id].req) in w.store
    ensures var w' := Step(w, Advance(w.tasks[id].stage, id));
            GrantedSince(w, w', Target(w.tasks[id].req))
            || (w'.replies == w.replies && id in w'.tasks && w'.tasks[id].req == w.tasks[id].req
                && CanGrant(w'.tasks[id].stage, w'.tasks[id].req.op)
                && StagesLeft(w'.tasks[id].stage) < StagesLeft(w.tasks[id].stage)
                && Target(w'.tasks[id].req) in w'.store)
  {
    var task := w.tasks[id];
    assert StageOk(task.stage, task.req, w.store);
    if task.stage.Answered? {
      ContinueGrants(w, id);
    }
  }

  lemma ContinueGrants(w: World, id: nat)
    requires Ok(w) && id in w.tasks && w.tasks[id].stage.Answered? && CanGrant(w.tasks[id].stage, w.tasks[id].req.op)
    requires Target(w.tasks[id].req) in w.store && WellFormed(w.tasks[id].req)
    requires StageOk(w.tasks[id].stage, w.tasks[id].req, w.store)
    ensures var w' := Step(w, Continue(id));
            GrantedSince(w, w', Target(w.tasks[id].req))
            || (w'.replies == w.replies && id in w'.tasks && w'.tasks[id].req == w.tasks[id].req
                && CanGrant(w'.tasks[id].stage, w'.tasks[id].req.op)
                && StagesLeft(w'.tasks[id].stage) < StagesLeft(w.tasks[id].stage)
                && Target(w'.tasks[id].req) in w'.store)
  {
    var task := w.tasks[id];
    var turn := Resume(MemoryOf(w, task.process), true, task.req, task.stage.await, task.stage.answer);
    ResumedGrants(MemoryOf(w, task.process), task.req, task.stage.await, task.stage.answer);
    var w' := Step(w, Continue(id));
    assert w' == Settle(w, id, task.process, task.req, turn);
    if turn.Reply? {
      assert w'.replies[|w.replies|] == Said(task.req, turn.result);
    }
  }

  lemma ResumedGrants(m: Memory, r: Request, a: Await, ans: Answer)
    requires Fits(a, ans) && CanGrant(Answered(a, ans), r.op)
    ensures match Resume(m, true, r, a, ans)
            case Suspend(_, next) => CanGrant(Calling(next), r.op) && StagesLeft(Calling(next)) < StagesLeft(Answered(a, ans))
            case Reply(_, res) => IsGrant(res)
  {
  }

  lemma {:induction false} FinishTask(w: World, id: nat) returns (es: seq<Event>)
    requires Ok(w) && id in w.tasks && CanGrant(w.tasks[id].stage, w.tasks[id].req.op) && Target(w.tasks[id].req) in w.store
    ensures GrantedSince(w, Run(w, es), Target(w.tasks[id].req))
    decreases StagesLeft(w.tasks[id].stage)
  {
    var e := Advance(w.tasks[id].stage, id);
    var w1 := Step(w, e);
    AdvanceGrants(w, id);
    StepIsOk(w, e);
    if GrantedSince(w, w1, Target(w.tasks[id].req)) {
      es := [e];
      assert [e][1..] == [];
      assert Run(w, [e]) == Run(w1, []) == w1;
    } else {
      var rest := FinishTask(w1, id);
      es := [e] + rest;
      assert es[1..] == rest;
      assert Run(w, es) == Run(w1, rest);
    }
  }

  function Zeros(n: nat): string
  {
    if n == 0 then "" else "0" + Zeros(n - 1)
  }

  lemma {:induction false} ZerosAreHex(n: nat)
    ensures |Zeros(n)| == n && forall i :: 0 <= i < n ==> IsLowerHex(Zeros(n)[i])
  {
    if n > 0 {
      ZerosAreHex(n - 1);
    }
  }

  lemma {:induction false} FreshId(ids: set<nat>) returns (id: nat)
    ensures forall j <- ids :: j < id
  {
    id := 0;
    if ids != {} {
      var j :| j in ids;
      var k := FreshId(ids - {j});
      id := if j < k then k else j + 1;
      forall i | i in ids ensures i < id {
        assert i == j || i in ids - {j};
      }
    }
  }

  lemma IssueFor(lk: LinkKey) returns (r: Request)
    requires lk.key != ""
    ensures IsIssueRequest(r) && Target(r) == lk
  {
    r := Request(lk.user, Some(Active), OpIssue, lk.key, Zeros(32), None);
    ZerosAreHex(32);
  }

  /** A process with the link in its cache answers an issue without looking. */
  lemma {:induction false} CachedGrants(w: World, p: nat, lk: LinkKey) returns (es: seq<Event>)
    requires Ok(w) && p in w.processes && lk in w.processes[p].issued && lk in w.store
    ensures GrantedSince(w, Run(w, es), lk)
  {
    var r := IssueFor(lk);
    var id := FreshId(w.tasks.Keys);
    es := [Start(id, p, r)];
    assert MemoryOk(w.processes[p], w.store);
    var w1 := Step(w, es[0]);
    assert es[1..] == [] && Run(w, es) == Run(w1, []) == w1;
    CachedReply(w.processes[p], r, w.store);
    assert w1.replies[|w.replies|] == Said(r, Result(AlreadyIssued, Some(w.processes[p].issued[lk])));
  }

  lemma CachedReply(m: Memory, r: Request, t: Table)
    requires MemoryOk(m, t) && IsIssueRequest(r) && Target(r) in m.issued
    ensures Begin(m, true, r) == Say(m, r, AlreadyIssued, Some(m.issued[Target(r)]))
  {
  }

  /** Exactly: in a consistent world whose row is revoked, some run grants the link again if and only if a
      process has it in its issue cache or an execute for it is suspended past the point of noticing. */
  lemma GrantsAgainExactlyWhen(w: World, lk: LinkKey)
    requires Ok(w) && IsRevoked(w.store, lk)
    ensures StillGrants(w, lk) <==> exists es :: RunGrants(w, es, lk)
  {
    if MemoryGrants(w, lk) {
      var p :| p in w.processes && lk in w.processes[p].issued;
      var es := CachedGrants(w, p, lk);
      assert RunGrants(w, es, lk);
    } else if TaskGrants(w, lk) {
      var id :| id in w.tasks && Target(w.tasks[id].req) == lk && CanGrant(w.tasks[id].stage, w.tasks[id].req.op);
      var es := FinishTask(w, id);
      assert RunGrants(w, es, lk);
    } else {
      forall es ensures !RunGrants(w, es, lk) {
        SpentForGood(w, es, lk);
      }
    }
  }

  /** It happens: issued, revoked from outside, issued again by the same process, which says ALREADY_ISSUED. */
  lemma RevokedRowIsGrantedAgain(r: Request, ref: string)
    requires IsIssueRequest(r) && ref != ""
    ensures var issued := [Start(1, 1, r)] + UpToInsert(1, ref) + [RunStatement(1, NoFault, 0), Continue(1)];
            var w := Run(INITIAL, issued + [ExternalRevoke(Target(r), 0), Start(2, 1, r)]);
            IsRevoked(w.store, Target(r))
            && w.replies == [Said(r, Result(Issued, Some(ref))), Said(r, Result(AlreadyIssued, Some(ref)))]
  {
    var issued := [Start(1, 1, r)] + UpToInsert(1, ref) + [RunStatement(1, NoFault, 0), Continue(1)];
    IssuedOnce(r, ref);
    var w := Run(INITIAL, issued);
    RunAppend(INITIAL, issued, [ExternalRevoke(Target(r), 0), Start(2, 1, r)]);
    RunTwo(w, ExternalRevoke(Target(r), 0), Start(2, 1, r));
    AnsweredFromCache(w.(store := Revoke(w.store, Target(r), 0)), r, ref);
  }

  lemma IssuedOnce(r: Request, ref: string)
    requires IsIssueRequest(r) && ref != ""
    ensures var w := Run(INITIAL, [Start(1, 1, r)] + UpToInsert(1, ref) + [RunStatement(1, NoFault, 0), Continue(1)]);
            Target(r) in w.store && w.tasks == map[] && w.replies == [Said(r, Result(Issued, Some(ref)))]
            && MemoryOf(w, 1) == SyncIssued(EMPTY_MEMORY, Target(r), ref).(audit := [AuditRecord(r, Issued)])
  {
    var start, insert := [Start(1, 1, r)], [RunStatement(1, NoFault, 0), Continue(1)];
    var w0 := World(map[], map[1 := EMPTY_MEMORY], map[1 := Task(1, r, Calling(AwaitFetch))], []);
    assert start[1..] == [];
    assert Run(INITIAL, start) == Run(Step(INITIAL, start[0]), []) == w0;
    ReachesInsert(w0, 1, ref);
    RunAppend(INITIAL, start, UpToInsert(1, ref));
    var w1 := Run(w0, UpToInsert(1, ref));
    FirstInsertIsIssued(w1, 1, 0);
    RunAppend(INITIAL, start + UpToInsert(1, ref), insert);
    RunTwo(w1, insert[0], insert[1]);
    InsertSyncs(w1, r, ref);
  }

  lemma InsertSyncs(w: World, r: Request, ref: string)
    requires w.tasks == map[1 := Task(1, r, Calling(AwaitIssueOrGet(ref)))] && w.store == map[] && MemoryOf(w, 1) == EMPTY_MEMORY
    ensures var w' := Step(Step(w, RunStatement(1, NoFault, 0)), Continue(1));
            MemoryOf(w', 1) == SyncIssued(EMPTY_MEMORY, Target(r), ref).(audit := [AuditRecord(r, Issued)])
  {
    var w1 := Step(w, RunStatement(1, NoFault, 0));
    assert w1.tasks[1].stage == Answered(AwaitIssueOrGet(ref), Looked(Some(w1.store[Target(r)])));
  }

  lemma AnsweredFromCache(w: World, r: Request, ref: string)
    requires IsIssueRequest(r) && w.tasks == map[]
    requires MemoryOf(w, 1) == SyncIssued(EMPTY_MEMORY, Target(r), ref).(audit := [AuditRecord(r, Issued)])
    ensures Step(w, Start(2, 1, r)).replies == w.replies + [Said(r, Result(AlreadyIssued, Some(ref)))]
    ensures Step(w, Start(2, 1, r)).store == w.store
  {
  }
}
