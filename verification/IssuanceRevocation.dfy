/** What a REVOKED reply to a revoke promises, under any provider answers, any store faults, restarts,
    and writes by other processes. */
module IssuanceRevocation {
  import opened Basics
  import opened Subscription
  import opened IssuanceStore
  import opened Issuance
  import opened IssuanceWorld
  import opened IssuanceSessions

  /** One instance over its store, if it has one, with everything it has replied. */
  datatype Instance = Instance(mem: Memory, table: Option<Table>, replies: seq<Said>)

  datatype Act = Submit(r: Request, c: Circumstances) | ProcessRestart | OtherWriter(st: Statement)

  function Perform(s: Instance, a: Act): Instance
  {
    match a
    case Submit(r, c) =>
      var o := RunAlone(s.mem, s.table, c, r);
      Instance(o.mem, o.table, s.replies + [Said(r, o.result)])
    case ProcessRestart => s.(mem := EMPTY_MEMORY)
    case OtherWriter(st) =>
      if s.table.None? then s else s.(table := Some(Execute(Tally(s.table.value, 0, 0), st).table))
  }

  function PerformAll(s: Instance, acts: seq<Act>): Instance
    decreases |acts|
  {
    if acts == [] then s else PerformAll(Perform(s, acts[0]), acts[1..])
  }

  predicate IsGrant(res: Result)
  {
    res.category == Issued || res.category == AlreadyIssued || res.category == DeliveryReady
  }

  // ---- A link that can no longer be granted ----

  predicate Blocked(m: Memory, t: Option<Table>, lk: LinkKey)
  {
    && lk !in m.issued
    && (lk in m.ledger ==> m.ledger[lk].revoked)
    && (if t.Some? then lk in t.value && t.value[lk].revoked else lk in m.ledger)
  }

  predicate TurnBlocked(turn: Turn, t: Option<Table>, r: Request, lk: LinkKey)
  {
    && Blocked(turn.mem, t, lk)
    && (Target(r) == lk ==>
          match turn
          case Suspend(_, a) => a.AwaitFetch? && t.Some?
          case Reply(_, res) => !IsGrant(res))
  }

  lemma {:induction false} DriveKeepsBlocked(turn: Turn, t: Option<Table>, c: Circumstances, r: Request, lk: LinkKey)
    requires TurnBlocked(turn, t, r, lk)
    ensures var o := Drive(turn, t, c, r);
            Blocked(o.mem, o.table, lk) && (Target(r) == lk ==> !IsGrant(o.result))
    decreases if turn.Suspend? then 1 + Rank(turn.await) else 0
  {
    if turn.Suspend? {
      var (ans, t') := Serve(turn.await, t, c, r);
      ResumeProgresses(turn.mem, t.Some?, r, turn.await, ans);
      ResumeKeepsBlocked(turn, t, c, r, lk);
      DriveKeepsBlocked(Resume(turn.mem, t.Some?, r, turn.await, ans), t', c, r, lk);
    }
  }

  lemma {:induction false} ResumeKeepsBlocked(turn: Turn, t: Option<Table>, c: Circumstances, r: Request, lk: LinkKey)
    requires TurnBlocked(turn, t, r, lk) && turn.Suspend?
    ensures var (ans, t') := Serve(turn.await, t, c, r);
            TurnBlocked(Resume(turn.mem, t.Some?, r, turn.await, ans), t', r, lk)
  {
    if turn.await.AwaitFetch? {
      FetchKeepsBlocked(turn, t, c, r, lk);
    } else if turn.await.AwaitIssueOrGet? || turn.await.AwaitMarkRevoked? {
      PersistKeepsBlocked(turn, t, c, r, lk);
    }
  }

  lemma PersistKeepsBlocked(turn: Turn, t: Option<Table>, c: Circumstances, r: Request, lk: LinkKey)
    requires TurnBlocked(turn, t, r, lk) && turn.Suspend? && (turn.await.AwaitIssueOrGet? || turn.await.AwaitMarkRevoked?)
    ensures var (ans, t') := Serve(turn.await, t, c, r);
            TurnBlocked(Resume(turn.mem, t.Some?, r, turn.await, ans), t', r, lk)
  {
  }

  lemma FetchKeepsBlocked(turn: Turn, t: Option<Table>, c: Circumstances, r: Request, lk: LinkKey)
    requires TurnBlocked(turn, t, r, lk) && turn.Suspend? && turn.await.AwaitFetch?
    ensures var (ans, t') := Serve(turn.await, t, c, r);
            TurnBlocked(Resume(turn.mem, t.Some?, r, turn.await, ans), t', r, lk)
  {
  }

  lemma ExecuteKeepsBlocked(m: Memory, t: Option<Table>, c: Circumstances, r: Request, lk: LinkKey)
    requires Blocked(m, t, lk)
    ensures var o := RunAlone(m, t, c, r);
            Blocked(o.mem, o.table, lk) && (Target(r) == lk ==> !IsGrant(o.result))
  {
    BeginBlocked(m, t, r, lk);
    DriveKeepsBlocked(Begin(m, t.Some?, r), t, c, r, lk);
  }

  lemma {:induction false} BeginBlocked(m: Memory, t: Option<Table>, r: Request, lk: LinkKey)
    requires Blocked(m, t, lk)
    ensures TurnBlocked(Begin(m, t.Some?, r), t, r, lk)
  {
  }

  // ---- What every disciplined request keeps ----

  ghost predicate DoneIsRevoked(done: set<LinkKey>, ledger: map<LinkKey, Entry>, linkOf: KeyMap)
  {
    forall k :: k in done ==> Meant(linkOf, OpRevoke, k) in ledger && ledger[Meant(linkOf, OpRevoke, k)].revoked
  }

  ghost predicate InstanceOk(m: Memory, t: Option<Table>, linkOf: KeyMap)
  {
    && CacheMatchesLedger(m.issued, m.ledger)
    && (t.Some? ==> LedgerMatchesStore(m.ledger, t.value))
    && DoneIsRevoked(m.revokeDone, m.ledger, linkOf)
  }

  ghost predicate TurnFine(turn: Turn, t: Option<Table>, r: Request, linkOf: KeyMap)
  {
    && InstanceOk(turn.mem, t, linkOf)
    && match turn
       case Suspend(m, a) =>
         && WellFormed(r)
         && (t.Some? ==> AwaitOk(a, r, t.value))
         && (t.None? ==> !a.AwaitFetch? && !a.AwaitIssueOrGet? && !a.AwaitMarkRevoked?)
         && (a.AwaitCreate? || a.AwaitIssueOrGet? ==> r.op == OpIssue)
         && (a.AwaitRevokeAccess? || a.AwaitMarkRevoked? ==> r.op == OpRevoke)
         && (r.op == OpIssue && Target(r) in m.ledger ==> !m.ledger[Target(r)].revoked)
       case Reply(m, res) =>
         r.op == OpRevoke && res.category == Revoked ==> OwnKey(r) in m.revokeDone
  }

  lemma BeginIsFine(m: Memory, t: Option<Table>, r: Request, linkOf: KeyMap)
    requires InstanceOk(m, t, linkOf) && Disciplined(linkOf, r)
    ensures TurnFine(Begin(m, t.Some?, r), t, r, linkOf)
  {
    if WellFormed(r) {
      match r.op {
        case OpIssue => BeginIssueIsFine(m, t, r, linkOf);
        case OpResend => BeginResendIsFine(m, t, r, linkOf);
        case OpRevoke => BeginRevokeIsFine(m, t, r, linkOf);
      }
    }
  }

  lemma BeginIssueIsFine(m: Memory, t: Option<Table>, r: Request, linkOf: KeyMap)
    requires InstanceOk(m, t, linkOf) && WellFormed(r) && r.op == OpIssue
    ensures TurnFine(BeginIssue(m, t.Some?, r), t, r, linkOf)
  {
    var turn := BeginIssue(m, t.Some?, r);
    assert turn.mem.ledger == m.ledger && turn.mem.issued == m.issued && turn.mem.revokeDone == m.revokeDone;
  }

  lemma BeginResendIsFine(m: Memory, t: Option<Table>, r: Request, linkOf: KeyMap)
    requires InstanceOk(m, t, linkOf) && WellFormed(r) && r.op == OpResend
    ensures TurnFine(BeginResend(m, t.Some?, r), t, r, linkOf)
  {
    var turn := BeginResend(m, t.Some?, r);
    assert turn.mem.ledger == m.ledger && turn.mem.issued == m.issued && turn.mem.revokeDone == m.revokeDone;
  }

  lemma BeginRevokeIsFine(m: Memory, t: Option<Table>, r: Request, linkOf: KeyMap)
    requires InstanceOk(m, t, linkOf) && WellFormed(r) && r.op == OpRevoke && Disciplined(linkOf, r)
    ensures TurnFine(BeginRevoke(m, t.Some?, r), t, r, linkOf)
  {
    assert Meant(linkOf, OpRevoke, OwnKey(r)) == Target(r);
    var turn := BeginRevoke(m, t.Some?, r);
    assert turn.mem.ledger == m.ledger && turn.mem.issued == m.issued;
  }

  lemma ResumeIsFine(m: Memory, t: Option<Table>, r: Request, linkOf: KeyMap, a: Await, c: Circumstances)
    requires TurnFine(Suspend(m, a), t, r, linkOf) && Disciplined(linkOf, r)
    ensures var (ans, t') := Serve(a, t, c, r);
            TurnFine(Resume(m, t.Some?, r, a, ans), t', r, linkOf)
  {
    if a.AwaitFetch? {
      FetchIsFine(m, t, r, linkOf, a, c);
    } else if a.AwaitIssueOrGet? {
      InsertIsFine(m, t, r, linkOf, a, c);
    } else if a.AwaitMarkRevoked? {
      MarkIsFine(m, t, r, linkOf, a, c);
    } else if a.AwaitCreate? {
      CreateIsFine(m, t, r, linkOf, a, c);
    } else if a.AwaitInstructions? {
      InstructionsIsFine(m, t, r, linkOf, a, c);
    } else {
      RevokeAccessIsFine(m, t, r, linkOf, a, c);
    }
  }

  lemma FetchIsFine(m: Memory, t: Option<Table>, r: Request, linkOf: KeyMap, a: Await, c: Circumstances)
    requires TurnFine(Suspend(m, a), t, r, linkOf) && Disciplined(linkOf, r)
    requires a.AwaitFetch?
    ensures var (ans, t') := Serve(a, t, c, r);
            TurnFine(Resume(m, t.Some?, r, a, ans), t', r, linkOf)
  {
    var lk := Target(r);
    var (ans, t') := Serve(a, t, c, r);
    assert r.op == OpRevoke ==> Meant(linkOf, OpRevoke, OwnKey(r)) == lk;
    if ans.Looked? && ans.row.Some? {
      SyncsAreFine(m, t', r, linkOf, ans.row.value.ref);
    }
  }

  lemma InstanceStaysOk(m: Memory, t: Table, t': Table, linkOf: KeyMap)
    requires InstanceOk(m, Some(t), linkOf) && Grows(t, t')
    ensures InstanceOk(m, Some(t'), linkOf)
  {
  }

  lemma InsertIsFine(m: Memory, t: Option<Table>, r: Request, linkOf: KeyMap, a: Await, c: Circumstances)
    requires TurnFine(Suspend(m, a), t, r, linkOf) && a.AwaitIssueOrGet?
    ensures var (ans, t') := Serve(a, t, c, r);
            TurnFine(Resume(m, t.Some?, r, a, ans), t', r, linkOf)
  {
    var (ans, t') := Serve(a, t, c, r);
    StatementsGrow(t.value, Target(r), a.ref, map[], c.now);
    InstanceStaysOk(m, t.value, Insert(t.value, Target(r), a.ref, c.now), linkOf);
    if ans.Looked? {
      SyncsAreFine(m, t', r, linkOf, ans.row.value.ref);
    }
  }

  lemma MarkIsFine(m: Memory, t: Option<Table>, r: Request, linkOf: KeyMap, a: Await, c: Circumstances)
    requires TurnFine(Suspend(m, a), t, r, linkOf) && Disciplined(linkOf, r) && a.AwaitMarkRevoked?
    ensures var (ans, t') := Serve(a, t, c, r);
            TurnFine(Resume(m, t.Some?, r, a, ans), t', r, linkOf)
  {
    MarkTurn(m, t.value, r, a, c);
    StatementsGrow(t.value, Target(r), a.ref, map[], c.now);
    InstanceStaysOk(m, t.value, Revoke(t.value, Target(r), c.now), linkOf);
    if c.persistFault == NoFault {
      MarkedIsFine(m, Revoke(t.value, Target(r), c.now), r, linkOf);
    }
  }

  lemma MarkTurn(m: Memory, t: Table, r: Request, a: Await, c: Circumstances)
    requires a.AwaitMarkRevoked? && Target(r) in t
    ensures var (ans, t') := Serve(a, Some(t), c, r);
            t' == Some(if c.persistFault == BeforeCommit then t else Revoke(t, Target(r), c.now))
            && Resume(m, true, r, a, ans)
               == if c.persistFault == NoFault then Say(Done(SyncRevoked(m, Target(r), t[Target(r)].ref), r), r, Revoked, None)
                  else Say(m, r, InternalError, None)
  {
  }

  lemma MarkedIsFine(m: Memory, t: Table, r: Request, linkOf: KeyMap)
    requires InstanceOk(m, Some(t), linkOf) && Disciplined(linkOf, r) && r.op == OpRevoke && WellFormed(r)
    requires Target(r) in t && t[Target(r)].revoked
    ensures TurnFine(Say(Done(SyncRevoked(m, Target(r), t[Target(r)].ref), r), r, Revoked, None), Some(t), r, linkOf)
  {
    assert Meant(linkOf, OpRevoke, OwnKey(r)) == Target(r);
    SyncsAreFine(m, Some(t), r, linkOf, t[Target(r)].ref);
  }

  lemma InstructionsIsFine(m: Memory, t: Option<Table>, r: Request, linkOf: KeyMap, a: Await, c: Circumstances)
    requires TurnFine(Suspend(m, a), t, r, linkOf) && Disciplined(linkOf, r)
    requires a.AwaitInstructions?
    ensures var (ans, t') := Serve(a, t, c, r);
            TurnFine(Resume(m, t.Some?, r, a, ans), t', r, linkOf)
  {
    InstructionsTurn(m, t, r, a, c);
  }

  lemma InstructionsTurn(m: Memory, t: Option<Table>, r: Request, a: Await, c: Circumstances)
    requires a.AwaitInstructions?
    ensures var (ans, t') := Serve(a, t, c, r);
            var turn := Resume(m, t.Some?, r, a, ans);
            t' == t && turn.Reply? && turn.result.category != Revoked
            && turn.mem.ledger == m.ledger && turn.mem.issued == m.issued && turn.mem.revokeDone == m.revokeDone
  {
  }

  lemma CreateIsFine(m: Memory, t: Option<Table>, r: Request, linkOf: KeyMap, a: Await, c: Circumstances)
    requires TurnFine(Suspend(m, a), t, r, linkOf) && Disciplined(linkOf, r)
    requires a.AwaitCreate?
    ensures var (ans, t') := Serve(a, t, c, r);
            TurnFine(Resume(m, t.Some?, r, a, ans), t', r, linkOf)
  {
    var made := c.provider.create(r.user, r.key, r.correlationId);
    CreateTurn(m, t, r, a, c);
    if t.None? && made.1.Some? {
      SyncsAreFine(m, t, r, linkOf, made.1.value);
    }
  }

  lemma CreateTurn(m: Memory, t: Option<Table>, r: Request, a: Await, c: Circumstances)
    requires a.AwaitCreate?
    ensures var (ans, t') := Serve(a, t, c, r);
            var made := c.provider.create(r.user, r.key, r.correlationId);
            var turn := Resume(m, t.Some?, r, a, ans);
            t' == t
            && if made.0 == Success && made.1.Some? && made.1.value != "" then
                 turn == if t.Some? then Suspend(m, AwaitIssueOrGet(made.1.value))
                         else Say(SyncIssued(m, Target(r), made.1.value), r, Issued, made.1)
               else
                 turn.Reply? && turn.result.category != Revoked && turn.mem.(audit := m.audit) == m
  {
  }

  lemma {:induction false} RevokeAccessIsFine(m: Memory, t: Option<Table>, r: Request, linkOf: KeyMap, a: Await, c: Circumstances)
    requires TurnFine(Suspend(m, a), t, r, linkOf) && Disciplined(linkOf, r)
    requires a.AwaitRevokeAccess?
    ensures var (ans, t') := Serve(a, t, c, r);
            TurnFine(Resume(m, t.Some?, r, a, ans), t', r, linkOf)
  {
    var lk := Target(r);
    var (ans, t') := Serve(a, t, c, r);
    assert Meant(linkOf, OpRevoke, OwnKey(r)) == lk;
    if t.None? {
      SyncsAreFine(m, t', r, linkOf, a.ref);
    }
  }

  lemma {:induction false} SyncsAreFine(m: Memory, t: Option<Table>, r: Request, linkOf: KeyMap, ref: string)
    requires CacheMatchesLedger(m.issued, m.ledger) && (t.Some? ==> LedgerMatchesStore(m.ledger, t.value))
    requires DoneIsRevoked(m.revokeDone, m.ledger, linkOf)
    requires t.Some? ==> HoldsRef(t.value, Target(r), ref)
    requires r.op == OpRevoke ==> Meant(linkOf, OpRevoke, OwnKey(r)) == Target(r)
    ensures r.op == OpIssue && (Target(r) in m.ledger ==> !m.ledger[Target(r)].revoked) ==>
      InstanceOk(SyncIssued(m, Target(r), ref), t, linkOf)
    ensures (t.Some? ==> t.value[Target(r)].revoked) ==>
      InstanceOk(SyncRevoked(m, Target(r), ref), t, linkOf)
    ensures (t.Some? ==> t.value[Target(r)].revoked) && r.op == OpRevoke ==>
      InstanceOk(Done(SyncRevoked(m, Target(r), ref), r), t, linkOf)
  {
  }

  lemma {:induction false} DriveIsFine(turn: Turn, t: Option<Table>, c: Circumstances, r: Request, linkOf: KeyMap)
    requires TurnFine(turn, t, r, linkOf) && Disciplined(linkOf, r)
    ensures var o := Drive(turn, t, c, r); TurnFine(Reply(o.mem, o.result), o.table, r, linkOf)
    decreases if turn.Suspend? then 1 + Rank(turn.await) else 0
  {
    if turn.Suspend? {
      var (ans, t') := Serve(turn.await, t, c, r);
      ResumeIsFine(turn.mem, t, r, linkOf, turn.await, c);
      ResumeProgresses(turn.mem, t.Some?, r, turn.await, ans);
      DriveIsFine(Resume(turn.mem, t.Some?, r, turn.await, ans), t', c, r, linkOf);
    }
  }

  /** A REVOKED reply to a disciplined revoke blocks its link, in memory and at rest. */
  lemma RevokedReplyBlocks(m: Memory, t: Option<Table>, c: Circumstances, r: Request, linkOf: KeyMap)
    requires InstanceOk(m, t, linkOf) && Disciplined(linkOf, r)
    ensures var o := RunAlone(m, t, c, r);
            InstanceOk(o.mem, o.table, linkOf)
            && (r.op == OpRevoke && o.result.category == Revoked ==> Blocked(o.mem, o.table, Target(r)))
  {
    BeginIsFine(m, t, r, linkOf);
    DriveIsFine(Begin(m, t.Some?, r), t, c, r, linkOf);
    var o := RunAlone(m, t, c, r);
    if r.op == OpRevoke && o.result.category == Revoked {
      assert WellFormed(r);
      assert Meant(linkOf, OpRevoke, OwnKey(r)) == Target(r);
    }
  }

  /** Without key discipline the REVOKED reply can be hollow: it blocks the link if and only if the
      request key was not already completed, or the link was blocked before. */
  lemma RevokedReplyIsRealExactlyWhen(m: Memory, t: Option<Table>, c: Circumstances, r: Request)
    requires CacheMatchesLedger(m.issued, m.ledger) && (t.Some? ==> LedgerMatchesStore(m.ledger, t.value))
    requires r.op == OpRevoke && WellFormed(r) && RunAlone(m, t, c, r).result.category == Revoked
    ensures var o := RunAlone(m, t, c, r);
            Blocked(o.mem, o.table, Target(r)) <==> OwnKey(r) !in m.revokeDone || Blocked(m, t, Target(r))
  {
    if OwnKey(r) !in m.revokeDone {
      var forgetful := m.(revokeDone := {});
      var linkOf := (op: Operation, own: LinkKey) => r.link.value;
      RevokedReplyBlocks(forgetful, t, c, r, linkOf);
      ForgettingDoneChangesNothingElse(m, t, c, r);
    }
  }

  /** It happens: an instance with empty memory that revokes one link and then another under one request
      key says REVOKED twice and leaves the second link's row live. */
  lemma RevokedReplyCanBeHollow(t: Table, first: Request, second: Request, c: Circumstances)
    requires WellFormed(first) && WellFormed(second) && first.op == second.op == OpRevoke
    requires OwnKey(first) == OwnKey(second) && Target(first) != Target(second)
    requires Target(first) in t && !t[Target(first)].revoked && Target(second) in t && !t[Target(second)].revoked
    requires !c.fetchFails && c.persistFault == NoFault
    requires c.provider.revoke(first.user, t[Target(first)].ref, first.key, first.correlationId) == RevokedNow
    ensures var s := PerformAll(Instance(EMPTY_MEMORY, Some(t), []), [Submit(first, c), Submit(second, c)]);
            s.replies == [Said(first, Result(Revoked, None)), Said(second, Result(Revoked, None))]
            && s.table.Some? && Target(second) in s.table.value && !s.table.value[Target(second)].revoked
            && !Blocked(s.mem, s.table, Target(second))
  {
    var s0 := Instance(EMPTY_MEMORY, Some(t), []);
    var ref := t[Target(first)].ref;
    DriveUnfolds(EMPTY_MEMORY, AwaitFetch, Some(t), c, first);
    DriveUnfolds(EMPTY_MEMORY, AwaitRevokeAccess(ref), Some(t), c, first);
    DriveUnfolds(EMPTY_MEMORY, AwaitMarkRevoked(ref), Some(t), c, first);
    var s1 := Perform(s0, Submit(first, c));
    assert s1.replies == [Said(first, Result(Revoked, None))] && OwnKey(first) in s1.mem.revokeDone;
    var s2 := Perform(s1, Submit(second, c));
    assert [Submit(first, c), Submit(second, c)][1..] == [Submit(second, c)] && [Submit(second, c)][1..] == [];
    assert PerformAll(s1, [Submit(second, c)]) == PerformAll(s2, []) == s2;
  }

  lemma ForgettingDoneChangesNothingElse(m: Memory, t: Option<Table>, c: Circumstances, r: Request)
    requires WellFormed(r) && r.op == OpRevoke && OwnKey(r) !in m.revokeDone
    ensures var o, o' := RunAlone(m, t, c, r), RunAlone(m.(revokeDone := {}), t, c, r);
            o.table == o'.table && o.result == o'.result
            && o.mem.ledger == o'.mem.ledger && o.mem.issued == o'.mem.issued
  {
    DriveForgets(Begin(m, t.Some?, r), Begin(m.(revokeDone := {}), t.Some?, r), t, c, r);
  }

  ghost predicate SameButDone(a: Turn, b: Turn)
  {
    && a.mem.ledger == b.mem.ledger && a.mem.issued == b.mem.issued
    && match a
       case Suspend(_, w) => b.Suspend? && b.await == w
       case Reply(_, res) => b.Reply? && b.result == res
  }

  lemma {:induction false} DriveForgets(a: Turn, b: Turn, t: Option<Table>, c: Circumstances, r: Request)
    requires r.op == OpRevoke && SameButDone(a, b)
    requires a.Suspend? ==> !a.await.AwaitInstructions?
    ensures var o, o' := Drive(a, t, c, r), Drive(b, t, c, r);
            o.table == o'.table && o.result == o'.result
            && o.mem.ledger == o'.mem.ledger && o.mem.issued == o'.mem.issued
    decreases if a.Suspend? then 1 + Rank(a.await) else 0
  {
    if a.Suspend? {
      var (ans, t') := Serve(a.await, t, c, r);
      ResumeProgresses(a.mem, t.Some?, r, a.await, ans);
      ResumeForgets(a.mem, b.mem, t.Some?, r, a.await, ans);
      DriveForgets(Resume(a.mem, t.Some?, r, a.await, ans), Resume(b.mem, t.Some?, r, a.await, ans), t', c, r);
    }
  }

  lemma {:induction false} ResumeForgets(m: Memory, m': Memory, durable: bool, r: Request, a: Await, ans: Answer)
    requires r.op == OpRevoke && m.ledger == m'.ledger && m.issued == m'.issued && Fits(a, ans) && !a.AwaitInstructions?
    ensures var x := Resume(m, durable, r, a, ans);
            SameButDone(x, Resume(m', durable, r, a, ans)) && (x.Suspend? ==> !x.await.AwaitInstructions?)
  {
    if a.AwaitFetch? {
      FetchForgets(m, m', durable, r, ans);
    } else if a.AwaitRevokeAccess? {
      RevocationForgets(m, m', durable, r, a, ans);
    }
  }

  lemma FetchForgets(m: Memory, m': Memory, durable: bool, r: Request, ans: Answer)
    requires r.op == OpRevoke && m.ledger == m'.ledger && m.issued == m'.issued && Fits(AwaitFetch, ans)
    ensures var x := Resume(m, durable, r, AwaitFetch, ans);
            SameButDone(x, Resume(m', durable, r, AwaitFetch, ans)) && (x.Suspend? ==> !x.await.AwaitInstructions?)
  {
  }

  lemma RevocationForgets(m: Memory, m': Memory, durable: bool, r: Request, a: Await, ans: Answer)
    requires r.op == OpRevoke && m.ledger == m'.ledger && m.issued == m'.issued && Fits(a, ans) && a.AwaitRevokeAccess?
    ensures var x := Resume(m, durable, r, a, ans);
            SameButDone(x, Resume(m', durable, r, a, ans)) && (x.Suspend? ==> !x.await.AwaitInstructions?)
  {
  }

  // ---- Whole sessions ----

  predicate Sensible(acts: seq<Act>, durable: bool)
  {
    durable || forall i :: 0 <= i < |acts| ==> !acts[i].ProcessRestart?
  }

  lemma OtherWritersGrow(t: Table, st: Statement)
    ensures Grows(t, Execute(Tally(t, 0, 0), st).table)
  {
    match st
    case InsertRow(lk, ref, now) => StatementsGrow(t, lk, ref, map[], now);
    case RevokeRow(lk, now) => StatementsGrow(t, lk, "", map[], now);
    case SweepRows(snaps, now) => StatementsGrow(t, LinkKey("", ""), "", snaps, now);
  }

  /** Acts of any kind keep a healthy instance healthy, as long as its own requests are disciplined. */
  lemma {:induction false} SessionsStayOk(s: Instance, acts: seq<Act>, linkOf: KeyMap)
    requires InstanceOk(s.mem, s.table, linkOf)
    requires forall i :: 0 <= i < |acts| && acts[i].Submit? ==> Disciplined(linkOf, acts[i].r)
    ensures var s' := PerformAll(s, acts); InstanceOk(s'.mem, s'.table, linkOf) && s'.table.Some? == s.table.Some?
    decreases |acts|
  {
    if acts != [] {
      match acts[0] {
        case Submit(r, c) =>
          RevokedReplyBlocks(s.mem, s.table, c, r, linkOf);
          DriveKeepsDurability(Begin(s.mem, s.table.Some?, r), s.table, c, r);
        case ProcessRestart =>
        case OtherWriter(st) => if s.table.Some? { OtherWritersGrow(s.table.value, st); }
      }
      SessionsStayOk(Perform(s, acts[0]), acts[1..], linkOf);
    }
  }

  lemma {:induction false} DriveKeepsDurability(turn: Turn, t: Option<Table>, c: Circumstances, r: Request)
    ensures Drive(turn, t, c, r).table.Some? == t.Some?
    decreases if turn.Suspend? then 1 + Rank(turn.await) else 0
  {
    if turn.Suspend? {
      var (ans, t') := Serve(turn.await, t, c, r);
      ResumeProgresses(turn.mem, t.Some?, r, turn.await, ans);
      DriveKeepsDurability(Resume(turn.mem, t.Some?, r, turn.await, ans), t', c, r);
    }
  }

  lemma {:induction false} BlockedForGood(s: Instance, acts: seq<Act>, lk: LinkKey)
    requires Blocked(s.mem, s.table, lk) && Sensible(acts, s.table.Some?)
    ensures var s' := PerformAll(s, acts);
            && |s.replies| <= |s'.replies| && s'.replies[..|s.replies|] == s.replies
            && forall i :: |s.replies| <= i < |s'.replies| && Target(s'.replies[i].req) == lk ==>
                 !IsGrant(s'.replies[i].result)
    decreases |acts|
  {
    if acts != [] {
      var n := Perform(s, acts[0]);
      match acts[0] {
        case Submit(r, c) =>
          ExecuteKeepsBlocked(s.mem, s.table, c, r, lk);
          DriveKeepsDurability(Begin(s.mem, s.table.Some?, r), s.table, c, r);
        case ProcessRestart =>
        case OtherWriter(st) => if s.table.Some? { OtherWritersGrow(s.table.value, st); }
      }
      BlockedForGood(n, acts[1..], lk);
      var s' := PerformAll(n, acts[1..]);
      forall i | |s.replies| <= i < |s'.replies| && Target(s'.replies[i].req) == lk
        ensures !IsGrant(s'.replies[i].result)
      {
        if i < |n.replies| { assert s'.replies[i] == n.replies[i]; }
      }
      assert s'.replies[..|s.replies|] == s'.replies[..|n.replies|][..|s.replies|];
    }
  }

  /** Terminal revocation: once a disciplined revoke has been told REVOKED, no later request for that
      link is told ISSUED, ALREADY_ISSUED or DELIVERY_READY, whatever the requests in between, the
      provider, the store faults and other writers do, and across restarts when there is a store. */
  lemma TerminalRevocation(start: Option<Table>, before: seq<Act>, r: Request, c: Circumstances,
                           after: seq<Act>, linkOf: KeyMap)
    requires forall i :: 0 <= i < |before| && before[i].Submit? ==> Disciplined(linkOf, before[i].r)
    requires Disciplined(linkOf, r) && r.op == OpRevoke
    requires Sensible(after, start.Some?)
    ensures var s1 := PerformAll(Instance(EMPTY_MEMORY, start, []), before);
            var s2 := Perform(s1, Submit(r, c));
            var s3 := PerformAll(s2, after);
            s2.replies[|s2.replies| - 1].result.category == Revoked ==>
              forall i :: |s2.replies| <= i < |s3.replies| && Target(s3.replies[i].req) == Target(r) ==>
                !IsGrant(s3.replies[i].result)
  {
    var s0 := Instance(EMPTY_MEMORY, start, []);
    var s1 := PerformAll(s0, before);
    var s2 := Perform(s1, Submit(r, c));
    SessionsStayOk(s0, before, linkOf);
    RevokedReplyBlocks(s1.mem, s1.table, c, r, linkOf);
    DriveKeepsDurability(Begin(s1.mem, s1.table.Some?, r), s1.table, c, r);
    if s2.replies[|s2.replies| - 1].result.category == Revoked {
      BlockedForGood(s2, after, Target(r));
    }
  }
}
