/** One service instance whose executes are not interleaved: what wiping its memory changes, and what
    a REVOKED reply promises. */
module IssuanceSessions {
  import opened Basics
  import opened Subscription
  import opened IssuanceStore
  import opened Issuance
  import opened IssuanceWorld

  // ---- Key discipline ----

  /** The request keys of one operation determine the link they are used for. */
  type KeyMap = (Operation, LinkKey) -> string

  predicate Disciplined(linkOf: KeyMap, r: Request)
  {
    r.op != OpIssue && r.link.Some? ==> linkOf(r.op, OwnKey(r)) == r.link.value
  }

  /** The ledger key that a remembered request key stands for. */
  function Meant(linkOf: KeyMap, op: Operation, own: LinkKey): LinkKey
  {
    LinkKey(own.user, linkOf(op, own))
  }

  function OperationName(op: Operation): string
  {
    match op
    case OpIssue => "issue"
    case OpResend => "resend"
    case OpRevoke => "revoke"
  }

  /** The operator's requests. */
  function ResolveRequest(op: Operation, user: string, issueKey: string, correlationId: string): Request
  {
    if op == OpIssue then Request(user, Some(Active), op, issueKey, correlationId, None)
    else Request(user, Some(Active), op, OperationName(op) + ":" + issueKey, correlationId, Some(issueKey))
  }

  function OperatorLink(op: Operation, own: LinkKey): string
  {
    var n := |OperationName(op)| + 1;
    if n <= |own.key| then own.key[n..] else ""
  }

  lemma OperatorRequestsAreDisciplined(op: Operation, user: string, issueKey: string, correlationId: string)
    ensures Disciplined(OperatorLink, ResolveRequest(op, user, issueKey, correlationId))
    ensures Target(ResolveRequest(op, user, issueKey, correlationId)) == LinkKey(user, issueKey)
    ensures ResolveRequest(op, user, issueKey, correlationId).key
         == (match op case OpIssue => "" case OpResend => "resend:" case OpRevoke => "revoke:") + issueKey
  {
    var r := ResolveRequest(op, user, issueKey, correlationId);
    if op != OpIssue {
      assert r.key[|OperationName(op)| + 1..] == issueKey;
    }
  }

  // ---- Restart transparency ----

  /** A single writer's memory agrees exactly with the table, and both request-key caches only
      remember what the table and the provider would say again. */
  ghost predicate Settled(m: Memory, t: Table, p: Provider, linkOf: KeyMap)
  {
    && CacheMatchesLedger(m.issued, m.ledger)
    && LedgerIsStore(m.ledger, t)
    && DoneIsStore(m.revokeDone, t, linkOf)
    && ResentIsStore(m.resent, t, p, linkOf)
  }

  ghost predicate LedgerIsStore(ledger: map<LinkKey, Entry>, t: Table)
  {
    forall lk :: lk in ledger ==> lk in t && t[lk].ref == ledger[lk].ref && t[lk].revoked == ledger[lk].revoked
  }

  ghost predicate DoneIsStore(done: set<LinkKey>, t: Table, linkOf: KeyMap)
  {
    forall k :: k in done ==> Meant(linkOf, OpRevoke, k) in t && t[Meant(linkOf, OpRevoke, k)].revoked
  }

  ghost predicate ResentIsStore(resent: map<LinkKey, string>, t: Table, p: Provider, linkOf: KeyMap)
  {
    forall k :: k in resent ==>
      Meant(linkOf, OpResend, k) in t && resent[k] != ""
      && p.instruct(k.user, t[Meant(linkOf, OpResend, k)].ref, "") == (Success, Some(resent[k]))
  }

  /** Instructions do not depend on the correlation id of the request that asks for them. */
  ghost predicate Untraced(p: Provider)
  {
    forall user, ref, cid :: p.instruct(user, ref, cid) == p.instruct(user, ref, "")
  }

  lemma {:induction false} SettledAfterIssue(m: Memory, t: Table, p: Provider, linkOf: KeyMap, lk: LinkKey, ref: string, now: int)
    requires Settled(m, t, p, linkOf) && (lk in t ==> !t[lk].revoked && t[lk].ref == ref)
    ensures var m', t' := SyncIssued(m, lk, ref), Insert(t, lk, ref, now);
            CacheMatchesLedger(m'.issued, m'.ledger) && LedgerIsStore(m'.ledger, t')
            && DoneIsStore(m.revokeDone, t', linkOf) && ResentIsStore(m.resent, t', p, linkOf)
  {
  }

  lemma SettledAfterRevoke(m: Memory, t: Table, p: Provider, linkOf: KeyMap, r: Request, now: int)
    requires Settled(m, t, p, linkOf) && Disciplined(linkOf, r) && r.op == OpRevoke && r.link.Some?
    requires Target(r) in t
    ensures var m', t' := SyncRevoked(m, Target(r), t[Target(r)].ref), Revoke(t, Target(r), now);
            CacheMatchesLedger(m'.issued, m'.ledger) && LedgerIsStore(m'.ledger, t')
            && DoneIsStore(m.revokeDone + {OwnKey(r)}, t', linkOf) && ResentIsStore(m.resent, t', p, linkOf)
  {
    assert Meant(linkOf, OpRevoke, OwnKey(r)) == Target(r);
  }

  function Quiet(p: Provider, now: int): Circumstances
  {
    Circumstances(false, p, NoFault, now)
  }

  lemma WipedIsSettled(t: Table, p: Provider, linkOf: KeyMap)
    ensures Settled(EMPTY_MEMORY, t, p, linkOf)
  {
  }

  /** The reference: a service with no memory at all, as a state machine absent -> issued -> revoked
      on the row of the request's link. */
  function Plain(t: Table, p: Provider, r: Request, now: int): (Result, Table)
  {
    if !WellFormed(r) then (Result(InternalError, None), t)
    else if r.op != OpRevoke && !AllowsIssueResend(r.state) then (Result(DenialCategory(r.state), None), t)
    else
      var lk := Target(r);
      match r.op
      case OpIssue =>
        if lk in t then
          (if t[lk].revoked then Result(InternalError, None) else Result(AlreadyIssued, Some(t[lk].ref)), t)
        else
          var made := p.create(r.user, r.key, r.correlationId);
          if made.0 == Success && made.1.Some? && made.1.value != ""
          then (Result(Issued, made.1), Insert(t, lk, made.1.value, now))
          else (Result(Refusal(made.0, InternalError), None), t)
      case OpResend =>
        if lk !in t then (Result(UnsafeToDeliver, None), t)
        else if t[lk].revoked then (Result(Revoked, None), t)
        else
          var given := p.instruct(r.user, t[lk].ref, r.correlationId);
          if given.0 == Success && given.1.Some? && given.1.value != "" then (Result(DeliveryReady, given.1), t)
          else (Result(Refusal(given.0, UnsafeToDeliver), None), t)
      case OpRevoke =>
        if lk !in t then (Result(NotEntitled, None), t)
        else if t[lk].revoked then (Result(Revoked, None), t)
        else match p.revoke(r.user, t[lk].ref, r.key, r.correlationId)
          case RevokeUnavailable => (Result(ProviderUnavailable, None), t)
          case RevokeRejected => (Result(ProviderRejected, None), t)
          case RevokeUnknown => (Result(InternalError, None), t)
          case _ => (Result(Revoked, None), Revoke(t, lk, now))
  }

  function Refusal(o: ProviderOutcome, otherwise: Category): Category
  {
    match o
    case Unavailable => ProviderUnavailable
    case Rejected => ProviderRejected
    case _ => otherwise
  }

  /** The caches are invisible: a settled instance answers and writes as the reference does, and it
      stays settled. */
  lemma MemoryIsInvisible(m: Memory, t: Table, p: Provider, linkOf: KeyMap, r: Request, now: int)
    requires Settled(m, t, p, linkOf) && Disciplined(linkOf, r) && Untraced(p)
    ensures var o := RunAlone(m, Some(t), Quiet(p, now), r);
            (o.result, o.table) == (Plain(t, p, r, now).0, Some(Plain(t, p, r, now).1))
            && Settled(o.mem, o.table.value, p, linkOf)
  {
    if WellFormed(r) {
      match r.op
      case OpIssue => IssueIsInvisible(m, t, p, linkOf, r, now);
      case OpResend => ResendIsInvisible(m, t, p, linkOf, r, now);
      case OpRevoke => RevokeIsInvisible(m, t, p, linkOf, r, now);
    }
  }

  lemma IssueIsInvisible(m: Memory, t: Table, p: Provider, linkOf: KeyMap, r: Request, now: int)
    requires Settled(m, t, p, linkOf) && WellFormed(r) && r.op == OpIssue
    ensures var o := RunAlone(m, Some(t), Quiet(p, now), r);
            (o.result, o.table) == (Plain(t, p, r, now).0, Some(Plain(t, p, r, now).1))
            && Settled(o.mem, o.table.value, p, linkOf)
  {
    var lk, c := Target(r), Quiet(p, now);
    if BeginIssue(m, true, r).Suspend? {
      assert lk !in m.ledger;
      DriveUnfolds(m, AwaitFetch, Some(t), c, r);
      if lk in t {
        if !t[lk].revoked { SettledAfterIssue(m, t, p, linkOf, lk, t[lk].ref, now); }
      } else {
        NewRowIsIssued(m, t, p, linkOf, r, now);
      }
    }
  }

  lemma NewRowIsIssued(m: Memory, t: Table, p: Provider, linkOf: KeyMap, r: Request, now: int)
    requires Settled(m, t, p, linkOf) && WellFormed(r) && r.op == OpIssue && AllowsIssueResend(r.state) && Target(r) !in t
    ensures var o := Drive(Suspend(m, AwaitCreate), Some(t), Quiet(p, now), r);
            (o.result, o.table) == (Plain(t, p, r, now).0, Some(Plain(t, p, r, now).1))
            && Settled(o.mem, o.table.value, p, linkOf)
  {
    var made := p.create(r.user, r.key, r.correlationId);
    NewRowIssue(m, t, p, r, now);
    if made.0 == Success && made.1.Some? && made.1.value != "" {
      SettledAfterIssue(m, t, p, linkOf, Target(r), made.1.value, now);
    }
  }

  /** Issuing where there is no row, from the provider call on. */
  lemma NewRowIssue(m: Memory, t: Table, p: Provider, r: Request, now: int)
    requires WellFormed(r) && r.op == OpIssue && AllowsIssueResend(r.state) && Target(r) !in t
    ensures var o := Drive(Suspend(m, AwaitCreate), Some(t), Quiet(p, now), r);
            var (result, t') := Plain(t, p, r, now);
            o.result == result && o.table == Some(t')
            && o.mem.(audit := m.audit) == if result.category == Issued then SyncIssued(m, Target(r), result.ref.value) else m
  {
    var c := Quiet(p, now);
    DriveUnfolds(m, AwaitCreate, Some(t), c, r);
    var made := p.create(r.user, r.key, r.correlationId);
    if made.0 == Success && made.1.Some? && made.1.value != "" {
      DriveUnfolds(m, AwaitIssueOrGet(made.1.value), Some(t), c, r);
    }
  }

  lemma ResendIsInvisible(m: Memory, t: Table, p: Provider, linkOf: KeyMap, r: Request, now: int)
    requires Settled(m, t, p, linkOf) && Disciplined(linkOf, r) && WellFormed(r) && r.op == OpResend && Untraced(p)
    ensures var o := RunAlone(m, Some(t), Quiet(p, now), r);
            (o.result, o.table) == (Plain(t, p, r, now).0, Some(Plain(t, p, r, now).1))
            && Settled(o.mem, o.table.value, p, linkOf)
  {
    var lk, c := Target(r), Quiet(p, now);
    assert Meant(linkOf, OpResend, OwnKey(r)) == lk;
    if AllowsIssueResend(r.state) {
      if lk !in m.ledger {
        DriveUnfolds(m, AwaitFetch, Some(t), c, r);
      }
      if lk in t && t[lk].revoked {
        SettledAfterSeeingRevoked(m, t, p, linkOf, lk);
      } else if lk in t {
        LiveRowIsResent(m, t, p, linkOf, r, now);
      }
    }
  }

  lemma {:induction false} LiveRowIsResent(m: Memory, t: Table, p: Provider, linkOf: KeyMap, r: Request, now: int)
    requires Settled(m, t, p, linkOf) && Disciplined(linkOf, r) && WellFormed(r) && r.op == OpResend && Untraced(p)
    requires AllowsIssueResend(r.state) && Target(r) in t && !t[Target(r)].revoked
    ensures var o := Drive(ResendEntry(m, r, Entry(t[Target(r)].ref, false)), Some(t), Quiet(p, now), r);
            (o.result, o.table) == (Plain(t, p, r, now).0, Some(Plain(t, p, r, now).1))
            && Settled(o.mem, o.table.value, p, linkOf)
  {
    var lk := Target(r);
    assert Meant(linkOf, OpResend, OwnKey(r)) == lk;
    LiveRowInstructions(m, t, p, r, now);
    if OwnKey(r) in m.resent {
      assert p.instruct(r.user, t[lk].ref, r.correlationId) == p.instruct(r.user, t[lk].ref, "");
    }
  }

  /** Resending a live row. */
  lemma LiveRowInstructions(m: Memory, t: Table, p: Provider, r: Request, now: int)
    requires Target(r) in t && !t[Target(r)].revoked && WellFormed(r) && r.op == OpResend && AllowsIssueResend(r.state)
    ensures var o := Drive(ResendEntry(m, r, Entry(t[Target(r)].ref, false)), Some(t), Quiet(p, now), r);
            var (result, t') := Plain(t, p, r, now);
            if OwnKey(r) in m.resent then
              o.result == Result(DeliveryReady, Some(m.resent[OwnKey(r)])) && o.table == Some(t) && o.mem.(audit := m.audit) == m
            else
              o.result == result && o.table == Some(t)
              && o.mem.(audit := m.audit)
                 == if result.category == DeliveryReady then m.(resent := m.resent[OwnKey(r) := result.ref.value]) else m
  {
    if OwnKey(r) !in m.resent {
      DriveUnfolds(m, AwaitInstructions(t[Target(r)].ref), Some(t), Quiet(p, now), r);
    }
  }

  lemma SettledAfterSeeingRevoked(m: Memory, t: Table, p: Provider, linkOf: KeyMap, lk: LinkKey)
    requires Settled(m, t, p, linkOf) && lk in t && t[lk].revoked
    ensures var m' := SyncRevoked(m, lk, t[lk].ref);
            CacheMatchesLedger(m'.issued, m'.ledger) && LedgerIsStore(m'.ledger, t)
  {
  }

  lemma RevokeIsInvisible(m: Memory, t: Table, p: Provider, linkOf: KeyMap, r: Request, now: int)
    requires Settled(m, t, p, linkOf) && Disciplined(linkOf, r) && WellFormed(r) && r.op == OpRevoke
    ensures var o := RunAlone(m, Some(t), Quiet(p, now), r);
            (o.result, o.table) == (Plain(t, p, r, now).0, Some(Plain(t, p, r, now).1))
            && Settled(o.mem, o.table.value, p, linkOf)
  {
    var lk, c := Target(r), Quiet(p, now);
    assert Meant(linkOf, OpRevoke, OwnKey(r)) == lk;
    if OwnKey(r) !in m.revokeDone {
      if lk !in m.ledger {
        DriveUnfolds(m, AwaitFetch, Some(t), c, r);
      }
      if lk in t && t[lk].revoked {
        SettledAfterRevoke(m, t, p, linkOf, r, now);
      } else if lk in t {
        LiveRowIsRevoked(m, t, p, linkOf, r, now);
      }
    }
  }

  lemma {:induction false} LiveRowIsRevoked(m: Memory, t: Table, p: Provider, linkOf: KeyMap, r: Request, now: int)
    requires Settled(m, t, p, linkOf) && Disciplined(linkOf, r) && WellFormed(r) && r.op == OpRevoke
    requires Target(r) in t && !t[Target(r)].revoked
    ensures var o := Drive(Suspend(m, AwaitRevokeAccess(t[Target(r)].ref)), Some(t), Quiet(p, now), r);
            (o.result, o.table) == (Plain(t, p, r, now).0, Some(Plain(t, p, r, now).1))
            && Settled(o.mem, o.table.value, p, linkOf)
  {
    SettledAfterRevoke(m, t, p, linkOf, r, now);
    LiveRowRevocation(m, t, p, r, now);
  }

  /** Revoking a live row, from the provider call on. */
  lemma {:induction false} LiveRowRevocation(m: Memory, t: Table, p: Provider, r: Request, now: int)
    requires Target(r) in t && !t[Target(r)].revoked && WellFormed(r) && r.op == OpRevoke
    ensures var lk := Target(r);
            var o := Drive(Suspend(m, AwaitRevokeAccess(t[lk].ref)), Some(t), Quiet(p, now), r);
            var (result, t') := Plain(t, p, r, now);
            o.result == result && o.table == Some(t')
            && o.mem.(audit := m.audit) == if result.category == Revoked then Done(SyncRevoked(m, lk, t[lk].ref), r) else m
  {
    var lk, c := Target(r), Quiet(p, now);
    DriveUnfolds(m, AwaitRevokeAccess(t[lk].ref), Some(t), c, r);
    DriveUnfolds(m, AwaitMarkRevoked(t[lk].ref), Some(t), c, r);
  }

  datatype Op = Ask(r: Request, now: int) | Wipe

  function WithoutWipes(ops: seq<Op>): seq<Op>
  {
    if ops == [] then []
    else (if ops[0].Wipe? then [] else [ops[0]]) + WithoutWipes(ops[1..])
  }

  /** The replies of a quiet session from memory m over table t. */
  function Replies(m: Memory, t: Table, p: Provider, ops: seq<Op>): seq<Result>
    decreases |ops|
  {
    if ops == [] then []
    else match ops[0]
      case Wipe => Replies(EMPTY_MEMORY, t, p, ops[1..])
      case Ask(r, now) =>
        var o := RunAlone(m, Some(t), Quiet(p, now), r);
        [o.result] + Replies(o.mem, if o.table.Some? then o.table.value else t, p, ops[1..])
  }

  /** Restart transparency: wiping the process's memory at any points between requests changes no
      reply, for any sequence of disciplined requests over any table a single writer starts from. */
  lemma {:induction false} RestartTransparency(m: Memory, m': Memory, t: Table, p: Provider, linkOf: KeyMap, ops: seq<Op>)
    requires Settled(m, t, p, linkOf) && Settled(m', t, p, linkOf) && Untraced(p)
    requires forall i :: 0 <= i < |ops| && ops[i].Ask? ==> Disciplined(linkOf, ops[i].r)
    ensures Replies(m, t, p, ops) == Replies(m', t, p, WithoutWipes(ops))
    decreases |ops|
  {
    if ops != [] {
      match ops[0]
      case Wipe =>
        assert WithoutWipes(ops) == WithoutWipes(ops[1..]);
        WipedIsSettled(t, p, linkOf);
        RestartTransparency(EMPTY_MEMORY, m', t, p, linkOf, ops[1..]);
      case Ask(r, now) =>
        MemoryIsInvisible(m, t, p, linkOf, r, now);
        MemoryIsInvisible(m', t, p, linkOf, r, now);
        var o, o' := RunAlone(m, Some(t), Quiet(p, now), r), RunAlone(m', Some(t), Quiet(p, now), r);
        assert WithoutWipes(ops)[1..] == WithoutWipes(ops[1..]);
        RestartTransparency(o.mem, o'.mem, o.table.value, p, linkOf, ops[1..]);
    }
  }
}
