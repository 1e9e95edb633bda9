/** The issuance_state table: one function per SQL statement, the repository class over it, and
    what every run of statements keeps. */
module IssuanceStore {
  import opened Basics
  import opened Subscription

  datatype LinkKey = LinkKey(user: string, key: string)

  datatype Row = Row(revoked: bool, ref: string, createdAt: int, updatedAt: int, revokedAt: Option<int>)

  type Table = map<LinkKey, Row>

  /** INSERT ... ON CONFLICT DO NOTHING. */
  function Insert(t: Table, lk: LinkKey, ref: string, now: int): Table
  {
    if lk in t then t else t[lk := Row(false, ref, now, now, None)]
  }

  function MarkedRevoked(r: Row, now: int): Row
  {
    r.(revoked := true, updatedAt := now, revokedAt := if r.revokedAt.Some? then r.revokedAt else Some(now))
  }

  /** UPDATE ... SET 'revoked' WHERE issuance_state = 'issued'. */
  function Revoke(t: Table, lk: LinkKey, now: int): Table
  {
    if lk in t && !t[lk].revoked then t[lk := MarkedRevoked(t[lk], now)] else t
  }

  /** The WHERE clause of the expired-subscription sweep. */
  predicate Sweepable(t: Table, snaps: Snapshots, now: int, lk: LinkKey)
  {
    lk in t && !t[lk].revoked && lk.user in snaps
    && snaps[lk.user].stateLabel == "active"
    && snaps[lk.user].activeUntil.Some? && snaps[lk.user].activeUntil.value < now
  }

  function SweepSet(t: Table, snaps: Snapshots, now: int): set<LinkKey>
  {
    set lk | lk in t && Sweepable(t, snaps, now, lk)
  }

  function Sweep(t: Table, snaps: Snapshots, now: int): Table
  {
    map lk | lk in t :: if Sweepable(t, snaps, now, lk) then MarkedRevoked(t[lk], now) else t[lk]
  }

  function Select(t: Table, lk: LinkKey): Option<Row>
  {
    if lk in t then Some(t[lk]) else None
  }

  /** What no writer of the table ever undoes: rows stay, refs stay, revocation and its time stay. */
  ghost predicate Grows(t: Table, t': Table)
  {
    forall lk :: lk in t ==>
      lk in t' && t'[lk].ref == t[lk].ref && t'[lk].createdAt == t[lk].createdAt
      && (t[lk].revoked ==> t'[lk].revoked)
      && (t[lk].revokedAt.Some? ==> t'[lk].revokedAt == t[lk].revokedAt)
  }

  lemma StatementsGrow(t: Table, lk: LinkKey, ref: string, snaps: Snapshots, now: int)
    ensures Grows(t, Insert(t, lk, ref, now))
    ensures Grows(t, Revoke(t, lk, now))
    ensures Grows(t, Sweep(t, snaps, now))
  {
  }

  // ---- The sweep against the status view ----

  /** The sweep flips exactly the issued rows of users whose status is SUBSCRIPTION_EXPIRED,
      touches nothing else, and leaves nothing for a second sweep at the same instant. */
  lemma SweepIsExact(t: Table, snaps: Snapshots, now: int)
    ensures SweepSet(t, snaps, now)
         == set lk | lk in t && !t[lk].revoked
                     && LifecycleStatus(SnapshotOf(snaps, lk.user), now) == SubscriptionExpired
    ensures forall lk :: lk in t ==>
      (Sweep(t, snaps, now)[lk] != t[lk] <==> lk in SweepSet(t, snaps, now))
    ensures forall lk :: lk in SweepSet(t, snaps, now) ==>
      Sweep(t, snaps, now)[lk].revoked && !t[lk].revoked
    ensures Sweep(t, snaps, now).Keys == t.Keys
    ensures SweepSet(Sweep(t, snaps, now), snaps, now) == {}
    ensures Sweep(Sweep(t, snaps, now), snaps, now) == Sweep(t, snaps, now)
  {
    var s := Sweep(t, snaps, now);
    forall lk | lk in t
      ensures Sweepable(t, snaps, now, lk) <==>
              !t[lk].revoked && LifecycleStatus(SnapshotOf(snaps, lk.user), now) == SubscriptionExpired
    {
    }
    forall lk | lk in s ensures !Sweepable(s, snaps, now, lk) {
    }
  }

  // ---- Conservation over runs ----

  datatype Statement =
    | InsertRow(lk: LinkKey, ref: string, now: int)
    | RevokeRow(lk: LinkKey, now: int)
    | SweepRows(snaps: Snapshots, now: int)

  /** The table with the row counts its statements have reported so far. */
  datatype Tally = Tally(table: Table, inserted: nat, flipped: nat)

  function Execute(s: Tally, st: Statement): Tally
  {
    match st
    case InsertRow(lk, ref, now) =>
      Tally(Insert(s.table, lk, ref, now), s.inserted + (if lk in s.table then 0 else 1), s.flipped)
    case RevokeRow(lk, now) =>
      Tally(Revoke(s.table, lk, now), s.inserted,
            s.flipped + (if lk in s.table && !s.table[lk].revoked then 1 else 0))
    case SweepRows(snaps, now) =>
      Tally(Sweep(s.table, snaps, now), s.inserted, s.flipped + |SweepSet(s.table, snaps, now)|)
  }

  function ExecuteAll(s: Tally, sts: seq<Statement>): Tally
    decreases |sts|
  {
    if sts == [] then s else ExecuteAll(Execute(s, sts[0]), sts[1..])
  }

  function IssuedKeys(t: Table): set<LinkKey>
  {
    set lk | lk in t && !t[lk].revoked
  }

  ghost predicate Conserved(s: Tally)
  {
    && |s.table| == s.inserted
    && |IssuedKeys(s.table)| + s.flipped == s.inserted
    && Dated(s.table)
  }

  /** Rows are revoked exactly when they carry a revocation time. */
  ghost predicate Dated(t: Table)
  {
    forall lk :: lk in t ==> (t[lk].revoked <==> t[lk].revokedAt.Some?)
  }

  lemma StatementsKeepDated(t: Table, lk: LinkKey, ref: string, snaps: Snapshots, now: int)
    requires Dated(t)
    ensures Dated(Insert(t, lk, ref, now)) && Dated(Revoke(t, lk, now)) && Dated(Sweep(t, snaps, now))
  {
  }

  lemma InsertConserves(t: Table, lk: LinkKey, ref: string, now: int)
    ensures |Insert(t, lk, ref, now)| == |t| + (if lk in t then 0 else 1)
    ensures |IssuedKeys(Insert(t, lk, ref, now))| == |IssuedKeys(t)| + (if lk in t then 0 else 1)
  {
    if lk !in t {
      assert IssuedKeys(Insert(t, lk, ref, now)) == IssuedKeys(t) + {lk};
    }
  }

  lemma RevokeConserves(t: Table, lk: LinkKey, now: int)
    ensures |Revoke(t, lk, now)| == |t|
    ensures |IssuedKeys(Revoke(t, lk, now))| + (if lk in t && !t[lk].revoked then 1 else 0) == |IssuedKeys(t)|
  {
    assert Revoke(t, lk, now).Keys == t.Keys;
    if lk in t && !t[lk].revoked {
      assert IssuedKeys(t) == IssuedKeys(Revoke(t, lk, now)) + {lk};
    }
  }

  lemma SweepConserves(t: Table, snaps: Snapshots, now: int)
    ensures |Sweep(t, snaps, now)| == |t|
    ensures |IssuedKeys(Sweep(t, snaps, now))| + |SweepSet(t, snaps, now)| == |IssuedKeys(t)|
  {
    assert Sweep(t, snaps, now).Keys == t.Keys;
    assert IssuedKeys(t) == IssuedKeys(Sweep(t, snaps, now)) + SweepSet(t, snaps, now);
  }

  lemma ExecuteConserves(s: Tally, st: Statement)
    requires Conserved(s)
    ensures Conserved(Execute(s, st)) && Grows(s.table, Execute(s, st).table)
  {
    match st
    case InsertRow(lk, ref, now) =>
      StatementsGrow(s.table, lk, ref, map[], now);
      StatementsKeepDated(s.table, lk, ref, map[], now);
      InsertConserves(s.table, lk, ref, now);
    case RevokeRow(lk, now) =>
      StatementsGrow(s.table, lk, "", map[], now);
      StatementsKeepDated(s.table, lk, "", map[], now);
      RevokeConserves(s.table, lk, now);
    case SweepRows(snaps, now) =>
      StatementsGrow(s.table, LinkKey("", ""), "", snaps, now);
      StatementsKeepDated(s.table, LinkKey("", ""), "", snaps, now);
      SweepConserves(s.table, snaps, now);
  }

  /** Over any run: rows inserted = rows still issued + rows flipped by revokes and sweeps, rows are
      revoked exactly when they carry a revocation time, and no ref or revocation time ever changes. */
  lemma {:induction false} RunsConserve(s: Tally, sts: seq<Statement>)
    requires Conserved(s)
    ensures Conserved(ExecuteAll(s, sts)) && Grows(s.table, ExecuteAll(s, sts).table)
    decreases |sts|
  {
    if sts != [] {
      ExecuteConserves(s, sts[0]);
      RunsConserve(Execute(s, sts[0]), sts[1..]);
    }
  }

  // ---- The current row of a user ----

  predicate NotAfter(t: Table, a: LinkKey, b: LinkKey)
    requires a in t && b in t
  {
    t[a].updatedAt < t[b].updatedAt || (t[a].updatedAt == t[b].updatedAt && LexLe(a.key, b.key))
  }

  /** ORDER BY updated_at DESC, issue_idempotency_key DESC LIMIT 1. */
  ghost predicate IsCurrent(t: Table, user: string, lk: LinkKey)
  {
    lk in t && lk.user == user
    && forall other :: other in t && other.user == user ==> NotAfter(t, other, lk)
  }

  lemma CurrentIsUnique(t: Table, user: string, a: LinkKey, b: LinkKey)
    requires IsCurrent(t, user, a) && IsCurrent(t, user, b)
    ensures a == b
  {
    assert NotAfter(t, a, b) && NotAfter(t, b, a);
    LexTotal(a.key, b.key);
  }

  ghost function Current(t: Table, user: string): (r: Option<LinkKey>)
    ensures r.Some? ==> IsCurrent(t, user, r.value)
  {
    if lk :| IsCurrent(t, user, lk) then Some(lk) else None
  }

  /** The PostgreSQL repository; every call may meet a fault chosen by the environment. */
  class IssuanceStateRepository {
    var rows: Table

    constructor ()
      ensures rows == map[]
    {
      rows := map[];
    }

    /** Answers None for a database error, otherwise the looked-up row. */
    method FetchByIssueKeys(lk: LinkKey, fails: bool) returns (row: Option<Option<Row>>)
      ensures row == if fails then None else Some(Select(rows, lk))
    {
      row := if fails then None else Some(if lk in rows then Some(rows[lk]) else None);
    }

    method IssueOrGet(lk: LinkKey, ref: string, now: int, fault: Fault) returns (row: Option<Row>)
      modifies this
      ensures rows == if fault == BeforeCommit then old(rows) else Insert(old(rows), lk, ref, now)
      ensures row == if fault == NoFault then Some(rows[lk]) else None
      ensures row.Some? && lk in old(rows) ==> row.value == old(rows)[lk]
    {
      if fault == BeforeCommit {
        return None;
      }
      if lk !in rows {
        rows := rows[lk := Row(false, ref, now, now, None)];
      }
      row := if fault == NoFault then Some(rows[lk]) else None;
    }

    /** Answers None for a database error, Some(None) when there is no row to revoke. */
    method MarkRevoked(lk: LinkKey, now: int, fault: Fault) returns (row: Option<Option<Row>>)
      modifies this
      ensures rows == if fault == BeforeCommit then old(rows) else Revoke(old(rows), lk, now)
      ensures row == if fault == NoFault then Some(Select(rows, lk)) else None
      ensures row.Some? && row.value.Some? ==> row.value.value.revoked
    {
      if fault == BeforeCommit {
        return None;
      }
      if lk in rows && !rows[lk].revoked {
        rows := rows[lk := MarkedRevoked(rows[lk], now)];
      }
      row := if fault == NoFault then Some(if lk in rows then Some(rows[lk]) else None) else None;
    }

    method ReconcileExpiredActiveSubscriptions(snaps: Snapshots, now: int) returns (count: nat)
      modifies this
      ensures rows == Sweep(old(rows), snaps, now)
      ensures count == |SweepSet(old(rows), snaps, now)|
    {
      var hit := set lk | lk in rows && Sweepable(rows, snaps, now, lk);
      rows := map lk | lk in rows :: if lk in hit then MarkedRevoked(rows[lk], now) else rows[lk];
      count := |hit|;
    }

    /** Finds the current row; none is reported exactly when the user has no row. */
    method GetCurrentForUser(user: string) returns (r: Option<LinkKey>)
      ensures r == Current(rows, user)
      ensures r.None? <==> forall lk :: lk in rows ==> lk.user != user
    {
      var pending := set lk | lk in rows && lk.user == user;
      ghost var mine := pending;
      r := None;
      while pending != {}
        invariant pending <= mine
        invariant r.None? ==> pending == mine
        invariant r.Some? ==> r.value in mine - pending
        invariant r.Some? ==> forall lk :: lk in mine - pending ==> NotAfter(rows, lk, r.value)
        decreases |pending|
      {
        var lk :| lk in pending;
        pending := pending - {lk};
        LexTotal(lk.key, lk.key);
        if r.None? {
          r := Some(lk);
        } else {
          var best := r.value;
          LexTotal(lk.key, best.key);
          if NotAfter(rows, best, lk) {
            forall other | other in mine - pending ensures NotAfter(rows, other, lk) {
              if other != lk { NotAfterTransitive(rows, other, best, lk); }
            }
            r := Some(lk);
          }
        }
      }
      assert forall lk :: lk in rows && lk.user == user ==> lk in mine;
      if r.Some? {
        assert r.value in mine && IsCurrent(rows, user, r.value);
        CurrentIsUnique(rows, user, r.value, Current(rows, user).value);
      }
    }
  }

  lemma NotAfterTransitive(t: Table, a: LinkKey, b: LinkKey, c: LinkKey)
    requires a in t && b in t && c in t && NotAfter(t, a, b) && NotAfter(t, b, c)
    ensures NotAfter(t, a, c)
  {
    if t[a].updatedAt == t[b].updatedAt == t[c].updatedAt {
      LexTransitive(a.key, b.key, c.key);
    }
  }

  // ---- The statements in terms of the rows themselves ----

  /** An insert stores a live row once; a revoke flips a live row, at its instant, and keeps an earlier
      revocation's time; neither touches another row. */
  lemma StatementsWrite(t: Table, lk: LinkKey, ref: string, now: int, other: LinkKey)
    requires other in t && other != lk
    ensures var t1, t2 := Insert(t, lk, ref, now), Revoke(t, lk, now);
            (lk !in t ==> t1.Keys == t.Keys + {lk} && t1[lk] == Row(false, ref, now, now, None))
            && (lk in t ==> t1 == t)
            && other in t1 && t1[other] == t[other]
            && t2.Keys == t.Keys && t2[other] == t[other]
            && (lk in t && t[lk].revoked ==> t2[lk] == t[lk])
            && (lk in t && !t[lk].revoked ==>
                  t2[lk] == Row(true, t[lk].ref, t[lk].createdAt, now, if t[lk].revokedAt.Some? then t[lk].revokedAt else Some(now)))
  {
  }

  /** The sweep revokes exactly the live rows of users whose label is "active" and whose end lies before the
      instant, as a revoke at that instant would. */
  lemma SweepFlipsThePastDue(t: Table, snaps: Snapshots, now: int, lk: LinkKey)
    requires lk in t
    ensures Sweep(t, snaps, now).Keys == t.Keys
    ensures Sweep(t, snaps, now)[lk] ==
            if !t[lk].revoked && lk.user in snaps && snaps[lk.user].stateLabel == "active"
               && snaps[lk.user].activeUntil.Some? && snaps[lk.user].activeUntil.value < now
            then Row(true, t[lk].ref, t[lk].createdAt, now, if t[lk].revokedAt.Some? then t[lk].revokedAt else Some(now))
            else t[lk]
  {
  }
}
