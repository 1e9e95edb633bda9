/** Issuance orchestration. The service is a coroutine: Begin and Resume say what one instance does
    between two awaits, on its process-local memory; the class below is the same service run without
    interleaving. */
module Issuance {
  import opened Basics
  import opened Subscription
  import opened IssuanceStore

  datatype Operation = OpIssue | OpResend | OpRevoke

  datatype Category =
    | NotEntitled
    | ReviewNeeded
    | ProviderUnavailable
    | ProviderRejected
    | AlreadyIssued
    | Revoked
    | UnsafeToDeliver
    | InternalError
    | Issued
    | DeliveryReady

  datatype Request = Request(
    user: string,
    state: Option<SnapshotState>,
    op: Operation,
    key: string,
    correlationId: string,
    link: Option<string>)

  datatype Result = Result(category: Category, ref: Option<string>)

  datatype AuditRecord = AuditRecord(request: Request, outcome: Category)

  datatype Entry = Entry(ref: string, revoked: bool)

  /** The five process-local structures. Values of the issue-result cache are the refs of ISSUED
      results; revokeDone and resent are keyed by the request's own key, not by its link. */
  datatype Memory = Memory(
    ledger: map<LinkKey, Entry>,
    issued: map<LinkKey, string>,
    revokeDone: set<LinkKey>,
    resent: map<LinkKey, string>,
    audit: seq<AuditRecord>)

  const EMPTY_MEMORY := Memory(map[], map[], {}, map[], [])

  datatype ProviderOutcome = Success | Unavailable | Rejected | Unknown

  datatype RevokeOutcome = RevokedNow | AlreadyRevoked | RevokeUnavailable | RevokeRejected | RevokeUnknown

  /** What a suspended execute is waiting for; refs are the local variables it resumes with. */
  datatype Await =
    | AwaitFetch
    | AwaitCreate
    | AwaitInstructions(ref: string)
    | AwaitRevokeAccess(ref: string)
    | AwaitIssueOrGet(ref: string)
    | AwaitMarkRevoked(ref: string)

  datatype Answer =
    | StoreFailed
    | Looked(row: Option<Row>)
    | Provided(outcome: ProviderOutcome, handle: Option<string>)
    | RevokeAnswered(revocation: RevokeOutcome)

  datatype Turn = Suspend(mem: Memory, await: Await) | Reply(mem: Memory, result: Result)

  predicate Fits(a: Await, ans: Answer)
  {
    match a
    case AwaitFetch => ans.StoreFailed? || ans.Looked?
    case AwaitIssueOrGet(_) => ans.StoreFailed? || (ans.Looked? && ans.row.Some?)
    case AwaitMarkRevoked(_) => ans.StoreFailed? || ans.Looked?
    case AwaitCreate => ans.Provided?
    case AwaitInstructions(_) => ans.Provided?
    case AwaitRevokeAccess(_) => ans.RevokeAnswered?
  }

  predicate IsLowerHex(c: char)
  {
    '0' <= c <= '9' || 'a' <= c <= 'f'
  }

  predicate ValidCorrelationId(s: string)
  {
    |s| == 32 && forall i :: 0 <= i < 32 ==> IsLowerHex(s[i])
  }

  predicate WellFormed(r: Request)
  {
    r.key != "" && ValidCorrelationId(r.correlationId)
    && (r.op == OpIssue <==> r.link.None?)
    && (r.op != OpIssue ==> r.link.value != "")
  }

  /** The ledger key a well-formed request is about. */
  function Target(r: Request): LinkKey
  {
    LinkKey(r.user, if r.op == OpIssue || r.link.None? then r.key else r.link.value)
  }

  function OwnKey(r: Request): LinkKey
  {
    LinkKey(r.user, r.key)
  }

  function DenialCategory(state: Option<SnapshotState>): Category
  {
    if state == Some(NeedsReview) then ReviewNeeded else NotEntitled
  }

  function SyncIssued(m: Memory, lk: LinkKey, ref: string): Memory
  {
    m.(ledger := m.ledger[lk := Entry(ref, false)], issued := m.issued[lk := ref])
  }

  function SyncRevoked(m: Memory, lk: LinkKey, ref: string): Memory
  {
    m.(ledger := m.ledger[lk := Entry(ref, true)], issued := m.issued - {lk})
  }

  function Done(m: Memory, r: Request): Memory
  {
    m.(revokeDone := m.revokeDone + {OwnKey(r)})
  }

  function Say(m: Memory, r: Request, category: Category, ref: Option<string>): Turn
  {
    Reply(m.(audit := m.audit + [AuditRecord(r, category)]), Result(category, ref))
  }

  function Begin(m: Memory, durable: bool, r: Request): Turn
  {
    if !WellFormed(r) then Say(m, r, InternalError, None)
    else match r.op
      case OpIssue => BeginIssue(m, durable, r)
      case OpResend => BeginResend(m, durable, r)
      case OpRevoke => BeginRevoke(m, durable, r)
  }

  function BeginIssue(m: Memory, durable: bool, r: Request): Turn
  {
    var lk := Target(r);
    if !AllowsIssueResend(r.state) then Say(m, r, DenialCategory(r.state), None)
    else if lk in m.ledger && m.ledger[lk].revoked then Say(m, r, InternalError, None)
    else if lk in m.issued then Say(m, r, AlreadyIssued, Some(m.issued[lk]))
    else Suspend(m, if durable then AwaitFetch else AwaitCreate)
  }

  function BeginResend(m: Memory, durable: bool, r: Request): Turn
  {
    var lk := Target(r);
    if !AllowsIssueResend(r.state) then Say(m, r, DenialCategory(r.state), None)
    else if lk in m.ledger then ResendEntry(m, r, m.ledger[lk])
    else if durable then Suspend(m, AwaitFetch)
    else Say(m, r, UnsafeToDeliver, None)
  }

  function ResendEntry(m: Memory, r: Request, e: Entry): Turn
  {
    if e.revoked then Say(m, r, Revoked, None)
    else if OwnKey(r) in m.resent then Say(m, r, DeliveryReady, Some(m.resent[OwnKey(r)]))
    else Suspend(m, AwaitInstructions(e.ref))
  }

  function BeginRevoke(m: Memory, durable: bool, r: Request): Turn
  {
    var lk := Target(r);
    if OwnKey(r) in m.revokeDone then Say(m, r, Revoked, None)
    else if lk in m.ledger then
      if m.ledger[lk].revoked then Say(Done(m, r), r, Revoked, None)
      else Suspend(m, AwaitRevokeAccess(m.ledger[lk].ref))
    else if durable then Suspend(m, AwaitFetch)
    else Say(m, r, NotEntitled, None)
  }

  function Resume(m: Memory, durable: bool, r: Request, a: Await, ans: Answer): Turn
    requires Fits(a, ans)
  {
    var lk := Target(r);
    match a
    case AwaitFetch =>
      if ans.StoreFailed? then Say(m, r, InternalError, None) else ResumeFetched(m, r, ans.row)
    case AwaitCreate =>
      (match ans.outcome
       case Success =>
         if ans.handle.None? || ans.handle.value == "" then Say(m, r, InternalError, None)
         else if durable then Suspend(m, AwaitIssueOrGet(ans.handle.value))
         else Say(SyncIssued(m, lk, ans.handle.value), r, Issued, ans.handle)
       case Unavailable => Say(m, r, ProviderUnavailable, None)
       case Rejected => Say(m, r, ProviderRejected, None)
       case Unknown => Say(m, r, InternalError, None))
    case AwaitInstructions(_) =>
      (match ans.outcome
       case Success =>
         if ans.handle.None? || ans.handle.value == "" then Say(m, r, UnsafeToDeliver, None)
         else Say(m.(resent := m.resent[OwnKey(r) := ans.handle.value]), r, DeliveryReady, ans.handle)
       case Unavailable => Say(m, r, ProviderUnavailable, None)
       case Rejected => Say(m, r, ProviderRejected, None)
       case Unknown => Say(m, r, UnsafeToDeliver, None))
    case AwaitRevokeAccess(ref) =>
      (match ans.revocation
       case RevokeUnavailable => Say(m, r, ProviderUnavailable, None)
       case RevokeRejected => Say(m, r, ProviderRejected, None)
       case RevokeUnknown => Say(m, r, InternalError, None)
       case _ =>
         if durable then Suspend(m, AwaitMarkRevoked(ref))
         else Say(Done(SyncRevoked(m, lk, ref), r), r, Revoked, None))
    case AwaitIssueOrGet(_) =>
      if ans.StoreFailed? then Say(m, r, InternalError, None)
      else Say(SyncIssued(m, lk, ans.row.value.ref), r, Issued, Some(ans.row.value.ref))
    case AwaitMarkRevoked(_) =>
      if ans.StoreFailed? || ans.row.None? then Say(m, r, InternalError, None)
      else Say(Done(SyncRevoked(m, lk, ans.row.value.ref), r), r, Revoked, None)
  }

  function ResumeFetched(m: Memory, r: Request, row: Option<Row>): Turn
  {
    var lk := Target(r);
    match r.op
    case OpIssue =>
      if row.None? then Suspend(m, AwaitCreate)
      else if row.value.revoked then Say(m, r, InternalError, None)
      else Say(SyncIssued(m, lk, row.value.ref), r, AlreadyIssued, Some(row.value.ref))
    case OpResend =>
      if row.None? then Say(m, r, UnsafeToDeliver, None)
      else if row.value.revoked then Say(SyncRevoked(m, lk, row.value.ref), r, Revoked, None)
      else ResendEntry(m, r, Entry(row.value.ref, false))
    case OpRevoke =>
      if row.None? then Say(m, r, NotEntitled, None)
      else if row.value.revoked then Say(Done(SyncRevoked(m, lk, row.value.ref), r), r, Revoked, None)
      else Suspend(m, AwaitRevokeAccess(row.value.ref))
  }

  // ---- One execute without interleaving ----

  /** A provider, as the function it is during one execute of user and key, of user and ref, and of user,
      ref and key, each with the correlation id. */
  datatype Provider = Provider(
    create: (string, string, string) -> (ProviderOutcome, Option<string>),
    instruct: (string, string, string) -> (ProviderOutcome, Option<string>),
    revoke: (string, string, string, string) -> RevokeOutcome)

  /** What the environment does during one execute: at most one provider call and two store calls. */
  datatype Circumstances = Circumstances(fetchFails: bool, provider: Provider, persistFault: Fault, now: int)

  /** A service with no operational state has no table. */
  datatype Outcome = Outcome(mem: Memory, table: Option<Table>, result: Result)

  function Serve(a: Await, t: Option<Table>, c: Circumstances, req: Request): (r: (Answer, Option<Table>))
    ensures Fits(a, r.0) && r.1.Some? == t.Some?
  {
    var lk := Target(req);
    match a
    case AwaitFetch =>
      if t.None? || c.fetchFails then (StoreFailed, t) else (Looked(Select(t.value, lk)), t)
    case AwaitCreate =>
      var made := c.provider.create(req.user, req.key, req.correlationId);
      (Provided(made.0, made.1), t)
    case AwaitInstructions(ref) =>
      var given := c.provider.instruct(req.user, ref, req.correlationId);
      (Provided(given.0, given.1), t)
    case AwaitRevokeAccess(ref) => (RevokeAnswered(c.provider.revoke(req.user, ref, req.key, req.correlationId)), t)
    case AwaitIssueOrGet(ref) =>
      if t.None? || c.persistFault == BeforeCommit then (StoreFailed, t)
      else
        var t' := Insert(t.value, lk, ref, c.now);
        (if c.persistFault == NoFault then Looked(Some(t'[lk])) else StoreFailed, Some(t'))
    case AwaitMarkRevoked(_) =>
      if t.None? || c.persistFault == BeforeCommit then (StoreFailed, t)
      else
        var t' := Revoke(t.value, lk, c.now);
        (if c.persistFault == NoFault then Looked(Select(t', lk)) else StoreFailed, Some(t'))
  }

  function Rank(a: Await): nat
  {
    match a
    case AwaitFetch => 3
    case AwaitCreate => 2
    case AwaitInstructions(_) => 1
    case AwaitRevokeAccess(_) => 2
    case _ => 1
  }

  lemma ResumeProgresses(m: Memory, durable: bool, r: Request, a: Await, ans: Answer)
    requires Fits(a, ans)
    ensures var turn := Resume(m, durable, r, a, ans); turn.Suspend? ==> Rank(turn.await) < Rank(a)
  {
  }

  function Drive(turn: Turn, t: Option<Table>, c: Circumstances, r: Request): Outcome
    decreases if turn.Suspend? then 1 + Rank(turn.await) else 0
  {
    match turn
    case Reply(m, result) => Outcome(m, t, result)
    case Suspend(m, a) =>
      var (ans, t') := Serve(a, t, c, r);
      ResumeProgresses(m, t.Some?, r, a, ans);
      Drive(Resume(m, t.Some?, r, a, ans), t', c, r)
  }

  lemma DriveUnfolds(m: Memory, a: Await, t: Option<Table>, c: Circumstances, r: Request)
    ensures var served := Serve(a, t, c, r);
            Drive(Suspend(m, a), t, c, r) == Drive(Resume(m, t.Some?, r, a, served.0), served.1, c, r)
  {
  }

  function RunAlone(m: Memory, t: Option<Table>, c: Circumstances, r: Request): Outcome
  {
    Drive(Begin(m, t.Some?, r), t, c, r)
  }

  class IssuanceService {
    var ledger: map<LinkKey, Entry>
    var issueResults: map<LinkKey, string>
    var revokeCompleted: set<LinkKey>
    var resendCached: map<LinkKey, string>
    var audit: seq<AuditRecord>
    const operationalState: IssuanceStateRepository?

    ghost function Mem(): Memory
      reads this
    {
      Memory(ledger, issueResults, revokeCompleted, resendCached, audit)
    }

    ghost function Durable(): Option<Table>
      reads this, operationalState
    {
      if operationalState == null then None else Some(operationalState.rows)
    }

    ghost function Parts(): set<object>
    {
      {this} + if operationalState == null then {} else {operationalState}
    }

    constructor (operationalState: IssuanceStateRepository?)
      ensures this.operationalState == operationalState && Mem() == EMPTY_MEMORY
    {
      this.operationalState := operationalState;
      ledger, issueResults, revokeCompleted, resendCached, audit := map[], map[], {}, map[], [];
    }

    method ClearInMemoryState()
      modifies this
      ensures Mem() == EMPTY_MEMORY
    {
      ledger, issueResults, revokeCompleted, resendCached, audit := map[], map[], {}, map[], [];
    }

    method AppendAudit(r: Request, category: Category, ref: Option<string>) returns (res: Result)
      modifies this
      ensures Reply(Mem(), res) == Say(old(Mem()), r, category, ref)
    {
      audit := audit + [AuditRecord(r, category)];
      res := Result(category, ref);
    }

    method SyncIssuedMemory(lk: LinkKey, ref: string)
      modifies this
      ensures Mem() == SyncIssued(old(Mem()), lk, ref)
    {
      ledger := ledger[lk := Entry(ref, false)];
      issueResults := issueResults[lk := ref];
    }

    method SyncRevokedMemory(lk: LinkKey, ref: string)
      modifies this
      ensures Mem() == SyncRevoked(old(Mem()), lk, ref)
    {
      ledger := ledger[lk := Entry(ref, true)];
      issueResults := issueResults - {lk};
    }

    method Execute(r: Request, c: Circumstances) returns (res: Result)
      modifies Parts()
      ensures Outcome(Mem(), Durable(), res) == RunAlone(old(Mem()), old(Durable()), c, r)
    {
      if !WellFormed(r) {
        res := AppendAudit(r, InternalError, None);
      } else {
        match r.op
        case OpIssue => res := ExecuteIssue(r, c);
        case OpResend => res := ExecuteResend(r, c);
        case OpRevoke => res := ExecuteRevoke(r, c);
      }
    }

    method ExecuteIssue(r: Request, c: Circumstances) returns (res: Result)
      requires WellFormed(r) && r.op == OpIssue
      modifies Parts()
      ensures Outcome(Mem(), Durable(), res) == RunAlone(old(Mem()), old(Durable()), c, r)
    {
      var lk := LinkKey(r.user, r.key);
      if !AllowsIssueResend(r.state) {
        res := AppendAudit(r, DenialCategory(r.state), None);
        return;
      }
      if lk in ledger && ledger[lk].revoked {
        res := AppendAudit(r, InternalError, None);
        return;
      }
      if lk in issueResults {
        res := AppendAudit(r, AlreadyIssued, Some(issueResults[lk]));
        return;
      }
      if operationalState != null {
        DriveUnfolds(Mem(), AwaitFetch, Durable(), c, r);
        var looked := operationalState.FetchByIssueKeys(lk, c.fetchFails);
        if looked.None? {
          res := AppendAudit(r, InternalError, None);
          return;
        }
        if looked.value.Some? {
          var row := looked.value.value;
          if !row.revoked {
            SyncIssuedMemory(lk, row.ref);
            res := AppendAudit(r, AlreadyIssued, Some(row.ref));
          } else {
            res := AppendAudit(r, InternalError, None);
          }
          return;
        }
      }
      assert RunAlone(old(Mem()), old(Durable()), c, r) == Drive(Suspend(Mem(), AwaitCreate), Durable(), c, r);
      res := IssueNew(r, c);
    }

    /** The provider call, the durable insert and the memory of an issue. */
    method IssueNew(r: Request, c: Circumstances) returns (res: Result)
      requires WellFormed(r) && r.op == OpIssue
      modifies Parts()
      ensures Outcome(Mem(), Durable(), res) == Drive(Suspend(old(Mem()), AwaitCreate), old(Durable()), c, r)
    {
      var lk := LinkKey(r.user, r.key);
      ghost var t := Durable();
      DriveUnfolds(Mem(), AwaitCreate, t, c, r);
      var made := c.provider.create(r.user, r.key, r.correlationId);
      match made.0
      case Unavailable => res := AppendAudit(r, ProviderUnavailable, None);
      case Rejected => res := AppendAudit(r, ProviderRejected, None);
      case Unknown => res := AppendAudit(r, InternalError, None);
      case Success =>
        if made.1.None? || made.1.value == "" {
          res := AppendAudit(r, InternalError, None);
          return;
        }
        var ref := made.1.value;
        if operationalState != null {
          DriveUnfolds(Mem(), AwaitIssueOrGet(ref), t, c, r);
          var persisted := operationalState.IssueOrGet(lk, ref, c.now, c.persistFault);
          if persisted.None? {
            res := AppendAudit(r, InternalError, None);
            return;
          }
          ref := persisted.value.ref;
        }
        SyncIssuedMemory(lk, ref);
        res := AppendAudit(r, Issued, Some(ref));
    }

    method ExecuteResend(r: Request, c: Circumstances) returns (res: Result)
      requires WellFormed(r) && r.op == OpResend
      modifies Parts()
      ensures Outcome(Mem(), Durable(), res) == RunAlone(old(Mem()), old(Durable()), c, r)
    {
      var lk := LinkKey(r.user, r.link.value);
      if !AllowsIssueResend(r.state) {
        res := AppendAudit(r, DenialCategory(r.state), None);
        return;
      }
      var entry := if lk in ledger then Some(ledger[lk]) else None;
      if entry.None? && operationalState != null {
        DriveUnfolds(Mem(), AwaitFetch, Durable(), c, r);
        var looked := operationalState.FetchByIssueKeys(lk, c.fetchFails);
        if looked.None? {
          res := AppendAudit(r, InternalError, None);
          return;
        }
        if looked.value.Some? {
          var row := looked.value.value;
          if row.revoked {
            SyncRevokedMemory(lk, row.ref);
            res := AppendAudit(r, Revoked, None);
            return;
          }
          entry := Some(Entry(row.ref, false));
        }
      }
      if entry.None? {
        res := AppendAudit(r, UnsafeToDeliver, None);
        return;
      }
      if entry.value.revoked {
        res := AppendAudit(r, Revoked, None);
        return;
      }
      var own := LinkKey(r.user, r.key);
      if own in resendCached {
        res := AppendAudit(r, DeliveryReady, Some(resendCached[own]));
        return;
      }
      assert RunAlone(old(Mem()), old(Durable()), c, r)
          == Drive(Suspend(Mem(), AwaitInstructions(entry.value.ref)), Durable(), c, r);
      DriveUnfolds(Mem(), AwaitInstructions(entry.value.ref), Durable(), c, r);
      var given := c.provider.instruct(r.user, entry.value.ref, r.correlationId);
      if given.0 == Success && given.1.Some? && given.1.value != "" {
        resendCached := resendCached[own := given.1.value];
        res := AppendAudit(r, DeliveryReady, given.1);
      } else if given.0 == Unavailable {
        res := AppendAudit(r, ProviderUnavailable, None);
      } else if given.0 == Rejected {
        res := AppendAudit(r, ProviderRejected, None);
      } else {
        res := AppendAudit(r, UnsafeToDeliver, None);
      }
    }

    method ExecuteRevoke(r: Request, c: Circumstances) returns (res: Result)
      requires WellFormed(r) && r.op == OpRevoke
      modifies Parts()
      ensures Outcome(Mem(), Durable(), res) == RunAlone(old(Mem()), old(Durable()), c, r)
    {
      var lk := LinkKey(r.user, r.link.value);
      var own := LinkKey(r.user, r.key);
      if own in revokeCompleted {
        res := AppendAudit(r, Revoked, None);
        return;
      }
      var entry := if lk in ledger then Some(ledger[lk]) else None;
      if entry.None? && operationalState != null {
        DriveUnfolds(Mem(), AwaitFetch, Durable(), c, r);
        var looked := operationalState.FetchByIssueKeys(lk, c.fetchFails);
        if looked.None? {
          res := AppendAudit(r, InternalError, None);
          return;
        }
        if looked.value.None? {
          res := AppendAudit(r, NotEntitled, None);
          return;
        }
        var row := looked.value.value;
        if row.revoked {
          revokeCompleted := revokeCompleted + {own};
          SyncRevokedMemory(lk, row.ref);
          res := AppendAudit(r, Revoked, None);
          return;
        }
        entry := Some(Entry(row.ref, false));
      }
      if entry.None? {
        res := AppendAudit(r, NotEntitled, None);
        return;
      }
      if entry.value.revoked {
        revokeCompleted := revokeCompleted + {own};
        res := AppendAudit(r, Revoked, None);
        return;
      }
      assert RunAlone(old(Mem()), old(Durable()), c, r)
          == Drive(Suspend(Mem(), AwaitRevokeAccess(entry.value.ref)), Durable(), c, r);
      res := RevokeEntry(r, entry.value.ref, c);
    }

    /** The provider call, the durable mark and the memory of a revoke. */
    method RevokeEntry(r: Request, issuanceRef: string, c: Circumstances) returns (res: Result)
      requires WellFormed(r) && r.op == OpRevoke
      modifies Parts()
      ensures Outcome(Mem(), Durable(), res)
           == Drive(Suspend(old(Mem()), AwaitRevokeAccess(issuanceRef)), old(Durable()), c, r)
    {
      var lk := LinkKey(r.user, r.link.value);
      var own := LinkKey(r.user, r.key);
      DriveUnfolds(Mem(), AwaitRevokeAccess(issuanceRef), Durable(), c, r);
      match c.provider.revoke(r.user, issuanceRef, r.key, r.correlationId)
      case RevokeUnavailable => res := AppendAudit(r, ProviderUnavailable, None);
      case RevokeRejected => res := AppendAudit(r, ProviderRejected, None);
      case RevokeUnknown => res := AppendAudit(r, InternalError, None);
      case _ =>
        var ref := issuanceRef;
        if operationalState != null {
          DriveUnfolds(Mem(), AwaitMarkRevoked(ref), Durable(), c, r);
          var persisted := operationalState.MarkRevoked(lk, c.now, c.persistFault);
          if persisted.None? || persisted.value.None? {
            res := AppendAudit(r, InternalError, None);
            return;
          }
          ref := persisted.value.value.ref;
        }
        SyncRevokedMemory(lk, ref);
        revokeCompleted := revokeCompleted + {own};
        res := AppendAudit(r, Revoked, None);
    }
  }
}
