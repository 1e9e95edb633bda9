/** Manual retention cleanup of the audit, idempotency and outbound delivery tables: bounded rounds of
    bounded batch deletes, oldest rows first. */
module Retention {

  /** A row of any of the three tables: rank is the place of its primary key in that key's order, settled
      says completed (idempotency) or sent (outbound). */
  datatype Row = Row(createdAt: int, rank: int, settled: bool)

  /** A table's rows, listed by creation time and then primary key. */
  type Rows = seq<Row>

  predicate Before(a: Row, b: Row)
  {
    a.createdAt < b.createdAt || (a.createdAt == b.createdAt && a.rank < b.rank)
  }

  predicate Ordered(t: Rows)
  {
    forall i, j :: 0 <= i < j < |t| ==> Before(t[i], t[j])
  }

  /** The WHERE clause of a cleanup: by age, and for two of the tables by state. */
  datatype Filter = Filter(cutoff: int, settledOnly: bool)

  predicate Matches(f: Filter, r: Row)
  {
    r.createdAt < f.cutoff && (f.settledOnly ==> r.settled)
  }

  function Matching(t: Rows, f: Filter): Rows
  {
    if t == [] then [] else (if Matches(f, t[0]) then [t[0]] else []) + Matching(t[1..], f)
  }

  function Others(t: Rows, f: Filter): Rows
  {
    if t == [] then [] else (if Matches(f, t[0]) then [] else [t[0]]) + Others(t[1..], f)
  }

  /** One batch DELETE: the first limit matching rows go. */
  function DeleteBatch(t: Rows, f: Filter, limit: nat): Rows
  {
    if t == [] || limit == 0 then t
    else if Matches(f, t[0]) then DeleteBatch(t[1..], f, limit - 1)
    else [t[0]] + DeleteBatch(t[1..], f, limit)
  }

  function Min(a: nat, b: nat): nat
  {
    if a <= b then a else b
  }

  function Max(a: nat, b: nat): nat
  {
    if a <= b then b else a
  }

  /** What a batch leaves: every row that does not match, and the matching ones but the first limit. */
  lemma {:induction false} DeleteBatchLeaves(t: Rows, f: Filter, limit: nat)
    ensures Others(DeleteBatch(t, f, limit), f) == Others(t, f)
    ensures Matching(DeleteBatch(t, f, limit), f) == Matching(t, f)[Min(limit, |Matching(t, f)|)..]
    ensures |DeleteBatch(t, f, limit)| == |t| - Min(limit, |Matching(t, f)|)
    ensures forall r <- DeleteBatch(t, f, limit) :: r in t
  {
    DeleteBatchKeepsRows(t, f, limit);
    if t != [] && limit > 0 {
      if Matches(f, t[0]) {
        DeleteBatchLeaves(t[1..], f, limit - 1);
      } else {
        DeleteBatchLeaves(t[1..], f, limit);
        ConsSplits(t[0], DeleteBatch(t[1..], f, limit), f);
      }
    }
  }

  lemma {:induction false} DeleteBatchKeepsRows(t: Rows, f: Filter, limit: nat)
    ensures forall r <- DeleteBatch(t, f, limit) :: r in t
  {
    if t != [] && limit > 0 {
      DeleteBatchKeepsRows(t[1..], f, if Matches(f, t[0]) then limit - 1 else limit);
    }
  }

  lemma ConsSplits(r: Row, t: Rows, f: Filter)
    ensures Matching([r] + t, f) == (if Matches(f, r) then [r] else []) + Matching(t, f)
    ensures Others([r] + t, f) == (if Matches(f, r) then [] else [r]) + Others(t, f)
  {
    assert ([r] + t)[1..] == t;
  }

  lemma {:induction false} DeleteBatchTwice(t: Rows, f: Filter, m: nat, n: nat)
    ensures DeleteBatch(DeleteBatch(t, f, m), f, n) == DeleteBatch(t, f, m + n)
  {
    if t != [] && m > 0 {
      if Matches(f, t[0]) {
        DeleteBatchTwice(t[1..], f, m - 1, n);
      } else {
        DeleteBatchTwice(t[1..], f, m, n);
        var rest := DeleteBatch(t[1..], f, m);
        assert ([t[0]] + rest)[1..] == rest;
      }
    }
  }

  lemma OrderedCons(r: Row, t: Rows)
    requires Ordered(t) && forall x <- t :: Before(r, x)
    ensures Ordered([r] + t)
  {
    forall i, j | 0 <= i < j < |[r] + t| ensures Before(([r] + t)[i], ([r] + t)[j]) {
      assert ([r] + t)[j] == t[j - 1] && t[j - 1] in t;
    }
  }

  lemma {:induction false} MatchingIsWithin(t: Rows, f: Filter)
    requires Ordered(t)
    ensures Ordered(Matching(t, f)) && forall r <- Matching(t, f) :: r in t && Matches(f, r)
    ensures forall r <- t :: Matches(f, r) ==> r in Matching(t, f)
  {
    if t != [] {
      MatchingIsWithin(t[1..], f);
      if Matches(f, t[0]) {
        OrderedCons(t[0], Matching(t[1..], f));
      }
    }
  }

  lemma {:induction false} DeleteBatchStaysOrdered(t: Rows, f: Filter, limit: nat)
    requires Ordered(t)
    ensures Ordered(DeleteBatch(t, f, limit))
  {
    if t != [] && limit > 0 && Matches(f, t[0]) {
      DeleteBatchStaysOrdered(t[1..], f, limit - 1);
    } else if t != [] && limit > 0 {
      DeleteBatchStaysOrdered(t[1..], f, limit);
      DeleteBatchLeaves(t[1..], f, limit);
      OrderedCons(t[0], DeleteBatch(t[1..], f, limit));
    }
  }

  /** A removed row matched, and every matching row that stays comes after it. */
  lemma OldestGoFirst(t: Rows, f: Filter, limit: nat, gone: Row, kept: Row)
    requires Ordered(t) && gone in t && gone !in DeleteBatch(t, f, limit)
    requires kept in DeleteBatch(t, f, limit) && Matches(f, kept)
    ensures Matches(f, gone) && Before(gone, kept)
  {
    var left := DeleteBatch(t, f, limit);
    var m := Matching(t, f);
    var k := Min(limit, |m|);
    DeleteBatchLeaves(t, f, limit);
    DeleteBatchStaysOrdered(t, f, limit);
    MatchingIsWithin(t, f);
    MatchingIsWithin(left, f);
    OthersIsWithin(t, f);
    OthersIsWithin(left, f);
    var i :| 0 <= i < |m| && m[i] == gone;
    assert i < k;
    var j :| 0 <= j < |m[k..]| && m[k..][j] == kept;
    assert m[k + j] == kept;
  }

  lemma {:induction false} OthersIsWithin(t: Rows, f: Filter)
    ensures forall r <- t :: !Matches(f, r) ==> r in Others(t, f)
    ensures forall r <- Others(t, f) :: r in t && !Matches(f, r)
  {
    if t != [] {
      OthersIsWithin(t[1..], f);
    }
  }

  // ---- The cleanup ----

  datatype Settings = Settings(ttlSeconds: int, batchLimit: int, dryRun: bool, maxRounds: int)

  datatype Setting = Ttl | BatchLimit | MaxRounds

  datatype Outcome =
    | ConfigurationError(setting: Setting)
    | ConnectionLost
    | Report(dryRun: bool, cutoff: int, audit: nat, idempotency: nat, outboundMatched: nat, outboundDeleted: nat, rounds: nat)

  function Validate(s: Settings): (bad: set<Setting>)
  {
    (if s.ttlSeconds <= 0 then {Ttl} else {}) + (if s.batchLimit <= 0 then {BatchLimit} else {})
    + if s.maxRounds <= 0 then {MaxRounds} else {}
  }

  function AuditFilter(cutoff: int): Filter
  {
    Filter(cutoff, false)
  }

  function SettledFilter(cutoff: int): Filter
  {
    Filter(cutoff, true)
  }

  datatype Db = Db(audit: Rows, idempotency: Rows, outbound: Rows)

  datatype Counts = Counts(audit: nat, idempotency: nat, outbound: nat)

  function MatchCounts(db: Db, cutoff: int): Counts
  {
    Counts(|Matching(db.audit, AuditFilter(cutoff))|, |Matching(db.idempotency, SettledFilter(cutoff))|,
           |Matching(db.outbound, SettledFilter(cutoff))|)
  }

  /** The tables after so many batch statements on each. */
  function After(db: Db, cutoff: int, limit: nat, audit: nat, idempotency: nat, outbound: nat): Db
  {
    Db(DeleteBatch(db.audit, AuditFilter(cutoff), audit * limit),
       DeleteBatch(db.idempotency, SettledFilter(cutoff), idempotency * limit),
       DeleteBatch(db.outbound, SettledFilter(cutoff), outbound * limit))
  }

  /** Batches needed to remove m rows. */
  function Batches(m: nat, limit: nat): nat
    requires limit > 0
  {
    (m + limit - 1) / limit
  }

  lemma BatchesCover(m: nat, limit: nat, k: nat)
    requires limit > 0
    ensures m <= k * limit <==> Batches(m, limit) <= k
  {
    var q := (m + limit - 1) / limit;
    var r := (m + limit - 1) % limit;
    assert m + limit - 1 == q * limit + r;
    if q <= k {
      assert q * limit <= k * limit;
    } else {
      assert (k + 1) * limit <= q * limit;
    }
  }

  /** One more round than the largest table needs, up to the bound. */
  function Rounds(c: Counts, limit: nat, maxRounds: nat): nat
    requires limit > 0
  {
    Min(maxRounds, 1 + Most(c, limit))
  }

  function Removed(c: Counts, n: nat): Counts
  {
    Counts(Min(n, c.audit), Min(n, c.idempotency), Min(n, c.outbound))
  }

  function Sizes(db: Db): Counts
  {
    Counts(|db.audit|, |db.idempotency|, |db.outbound|)
  }

  function Plus(a: Counts, b: Counts): Counts
  {
    Counts(a.audit + b.audit, a.idempotency + b.idempotency, a.outbound + b.outbound)
  }

  /** One round, of which the connection serves so many statements. */
  function RoundOn(db: Db, cutoff: int, limit: nat, served: nat): Db
  {
    Db(if served < 1 then db.audit else DeleteBatch(db.audit, AuditFilter(cutoff), limit),
       if served < 2 then db.idempotency else DeleteBatch(db.idempotency, SettledFilter(cutoff), limit),
       if served < 3 then db.outbound else DeleteBatch(db.outbound, SettledFilter(cutoff), limit))
  }

  /** The batches the largest table needs. */
  function Most(c: Counts, limit: nat): nat
    requires limit > 0
  {
    Max(Batches(c.audit, limit), Max(Batches(c.idempotency, limit), Batches(c.outbound, limit)))
  }

  class RetentionDatabase {
    var audit: Rows
    var idempotency: Rows
    var outbound: Rows
    /** Statements the connection will still serve. */
    var budget: nat

    ghost function State(): Db
      reads this
    {
      Db(audit, idempotency, outbound)
    }

    constructor (db: Db, budget: nat)
      ensures State() == db && this.budget == budget
    {
      audit, idempotency, outbound := db.audit, db.idempotency, db.outbound;
      this.budget := budget;
    }

    method Cleanup(now: int, s: Settings) returns (o: Outcome)
      modifies this
      ensures Validate(s) != {} ==> o.ConfigurationError? && o.setting in Validate(s) && State() == old(State())
      ensures Validate(s) == {} && s.dryRun ==>
                State() == old(State())
                && var c := MatchCounts(State(), now - s.ttlSeconds);
                   o == if old(budget) < 3 then ConnectionLost
                        else Report(true, now - s.ttlSeconds, c.audit, c.idempotency, c.outbound, 0, 0)
      ensures Validate(s) == {} && !s.dryRun ==>
                var cutoff := now - s.ttlSeconds;
                var c := MatchCounts(old(State()), cutoff);
                var rounds := Rounds(c, s.batchLimit, s.maxRounds);
                var n := Removed(c, s.maxRounds * s.batchLimit);
                if old(budget) >= 3 * rounds then
                  o == Report(false, cutoff, n.audit, n.idempotency, 0, n.outbound, rounds)
                  && State() == After(old(State()), cutoff, s.batchLimit, rounds, rounds, rounds)
                else
                  o == ConnectionLost
                  && State() == After(old(State()), cutoff, s.batchLimit,
                                      (old(budget) + 2) / 3, (old(budget) + 1) / 3, old(budget) / 3)
    {
      if s.ttlSeconds <= 0 {
        return ConfigurationError(Ttl);
      }
      if s.batchLimit <= 0 {
        return ConfigurationError(BatchLimit);
      }
      if s.maxRounds <= 0 {
        return ConfigurationError(MaxRounds);
      }
      var cutoff := now - s.ttlSeconds;
      if s.dryRun {
        if budget < 3 {
          budget := 0;
          return ConnectionLost;
        }
        budget := budget - 3;
        return Report(true, cutoff, |Matching(audit, AuditFilter(cutoff))|, |Matching(idempotency, SettledFilter(cutoff))|,
                      |Matching(outbound, SettledFilter(cutoff))|, 0, 0);
      }
      o := DeleteInRounds(cutoff, s.batchLimit, s.maxRounds);
    }

    /** One statement on each table in turn, each its own transaction. */
    method DeleteRound(cutoff: int, limit: nat) returns (deleted: Counts)
      modifies this
      ensures State() == RoundOn(old(State()), cutoff, limit, old(budget))
      ensures budget == if old(budget) < 3 then 0 else old(budget) - 3
      ensures Plus(Sizes(State()), deleted) == Sizes(old(State()))
    {
      var was := Counts(|audit|, |idempotency|, |outbound|);
      DeleteBatchLeaves(audit, AuditFilter(cutoff), limit);
      DeleteBatchLeaves(idempotency, SettledFilter(cutoff), limit);
      DeleteBatchLeaves(outbound, SettledFilter(cutoff), limit);
      if budget > 0 {
        audit := DeleteBatch(audit, AuditFilter(cutoff), limit);
      }
      if budget > 1 {
        idempotency := DeleteBatch(idempotency, SettledFilter(cutoff), limit);
      }
      if budget > 2 {
        outbound := DeleteBatch(outbound, SettledFilter(cutoff), limit);
      }
      budget := if budget < 3 then 0 else budget - 3;
      deleted := Counts(was.audit - |audit|, was.idempotency - |idempotency|, was.outbound - |outbound|);
    }

    method DeleteInRounds(cutoff: int, limit: nat, maxRounds: nat) returns (o: Outcome)
      requires limit > 0
      modifies this
      ensures var c := MatchCounts(old(State()), cutoff);
              var rounds := Rounds(c, limit, maxRounds);
              var n := Removed(c, maxRounds * limit);
              if old(budget) >= 3 * rounds then
                o == Report(false, cutoff, n.audit, n.idempotency, 0, n.outbound, rounds)
                && State() == After(old(State()), cutoff, limit, rounds, rounds, rounds)
              else
                o == ConnectionLost
                && State() == After(old(State()), cutoff, limit, (old(budget) + 2) / 3, (old(budget) + 1) / 3, old(budget) / 3)
    {
      ghost var db0 := State();
      ghost var c := MatchCounts(db0, cutoff);
      ghost var most := Most(c, limit);
      var totals := Counts(0, 0, 0);
      var rounds: nat := 0;
      AfterNothing(db0, cutoff, limit);
      while rounds < maxRounds
        invariant rounds <= maxRounds && rounds <= most
        invariant budget == old(budget) - 3 * rounds
        invariant State() == After(db0, cutoff, limit, rounds, rounds, rounds)
        invariant totals == Removed(c, rounds * limit)
      {
        RoundDeletes(db0, cutoff, limit, rounds, budget);
        rounds := rounds + 1;
        var connected := budget >= 3;
        var deleted := DeleteRound(cutoff, limit);
        if !connected {
          CutRound(old(budget), rounds - 1);
          assert old(budget) < 3 * Rounds(c, limit, maxRounds);
          return ConnectionLost;
        }
        totals := Plus(totals, deleted);
        if deleted == Counts(0, 0, 0) {
          break;
        }
      }
      RoundsSuffice(c, limit, maxRounds, rounds);
      o := Report(false, cutoff, totals.audit, totals.idempotency, 0, totals.outbound, rounds);
    }
  }

  /** Where the connection is lost, by the statements it served. */
  lemma CutRound(budget: nat, k: nat)
    requires 3 * k <= budget < 3 * k + 3
    ensures (budget + 2) / 3 == (if budget - 3 * k < 1 then k else k + 1)
    ensures (budget + 1) / 3 == (if budget - 3 * k < 2 then k else k + 1)
    ensures budget / 3 == k
  {
  }

  lemma AfterNothing(db: Db, cutoff: int, limit: nat)
    ensures After(db, cutoff, limit, 0, 0, 0) == db
  {
    assert 0 * limit == 0;
    assert forall t: Rows, f :: DeleteBatch(t, f, 0) == t;
  }

  /** The next batch on a table that has had k. */
  lemma {:induction false} BatchDeletes(t: Rows, f: Filter, limit: nat, k: nat)
    requires limit > 0
    ensures var t' := DeleteBatch(t, f, k * limit);
            DeleteBatch(t', f, limit) == DeleteBatch(t, f, (k + 1) * limit)
            && |t'| - |DeleteBatch(t', f, limit)| == Min((k + 1) * limit, |Matching(t, f)|) - Min(k * limit, |Matching(t, f)|)
            && (|t'| == |DeleteBatch(t', f, limit)| <==> Batches(|Matching(t, f)|, limit) <= k)
  {
    var a, b := k * limit, (k + 1) * limit;
    NextMultiple(k, limit);
    DeleteBatchTwice(t, f, a, limit);
    DeleteBatchLeaves(t, f, a);
    DeleteBatchLeaves(t, f, b);
    BatchesCover(|Matching(t, f)|, limit, k);
  }

  lemma NextMultiple(k: nat, limit: nat)
    ensures (k + 1) * limit == k * limit + limit
  {
  }

  lemma RoundDeletes(db: Db, cutoff: int, limit: nat, k: nat, served: nat)
    requires limit > 0
    ensures var t := After(db, cutoff, limit, k, k, k);
            var c := MatchCounts(db, cutoff);
            RoundOn(t, cutoff, limit, served)
            == After(db, cutoff, limit, if served < 1 then k else k + 1, if served < 2 then k else k + 1, if served < 3 then k else k + 1)
    ensures var t := After(db, cutoff, limit, k, k, k);
            var t' := After(db, cutoff, limit, k + 1, k + 1, k + 1);
            var c := MatchCounts(db, cutoff);
            Plus(Sizes(t), Removed(c, k * limit)) == Plus(Sizes(t'), Removed(c, (k + 1) * limit))
            && (Sizes(t) == Sizes(t') <==> Most(c, limit) <= k)
  {
    BatchDeletes(db.audit, AuditFilter(cutoff), limit, k);
    BatchDeletes(db.idempotency, SettledFilter(cutoff), limit, k);
    BatchDeletes(db.outbound, SettledFilter(cutoff), limit, k);
  }

  lemma EnoughRounds(m: nat, limit: nat, rounds: nat, maxRounds: nat)
    requires limit > 0 && Batches(m, limit) <= rounds <= maxRounds
    ensures Min(rounds * limit, m) == m == Min(maxRounds * limit, m)
  {
    BatchesCover(m, limit, rounds);
    BatchesCover(m, limit, maxRounds);
  }

  lemma RoundsSuffice(c: Counts, limit: nat, maxRounds: nat, rounds: nat)
    requires limit > 0 && rounds == Rounds(c, limit, maxRounds)
    ensures Removed(c, rounds * limit) == Removed(c, maxRounds * limit)
  {
    if rounds < maxRounds {
      EnoughRounds(c.audit, limit, rounds, maxRounds);
      EnoughRounds(c.idempotency, limit, rounds, maxRounds);
      EnoughRounds(c.outbound, limit, rounds, maxRounds);
    }
  }

  /** What a cleanup that is not cut off leaves of each table: all rows it must not touch, and of the
      matching ones all but the oldest maxRounds times batchLimit. */
  lemma CleanupLeaves(db: Db, cutoff: int, limit: nat, maxRounds: nat)
    requires limit > 0
    ensures var c := MatchCounts(db, cutoff);
            var k := Rounds(c, limit, maxRounds);
            var left := After(db, cutoff, limit, k, k, k);
            var n := Removed(c, maxRounds * limit);
            Plus(Sizes(left), n) == Sizes(db)
            && Matching(left.audit, AuditFilter(cutoff)) == Matching(db.audit, AuditFilter(cutoff))[n.audit..]
            && Matching(left.idempotency, SettledFilter(cutoff)) == Matching(db.idempotency, SettledFilter(cutoff))[n.idempotency..]
            && Matching(left.outbound, SettledFilter(cutoff)) == Matching(db.outbound, SettledFilter(cutoff))[n.outbound..]
            && Others(left.audit, AuditFilter(cutoff)) == Others(db.audit, AuditFilter(cutoff))
            && Others(left.idempotency, SettledFilter(cutoff)) == Others(db.idempotency, SettledFilter(cutoff))
            && Others(left.outbound, SettledFilter(cutoff)) == Others(db.outbound, SettledFilter(cutoff))
  {
    var c := MatchCounts(db, cutoff);
    var k := Rounds(c, limit, maxRounds);
    RoundsSuffice(c, limit, maxRounds, k);
    DeleteBatchLeaves(db.audit, AuditFilter(cutoff), k * limit);
    DeleteBatchLeaves(db.idempotency, SettledFilter(cutoff), k * limit);
    DeleteBatchLeaves(db.outbound, SettledFilter(cutoff), k * limit);
  }

  /** Rows pending, uncompleted or young enough survive any cleanup, cut off or not. */
  lemma UnsettledSurvive(db: Db, cutoff: int, limit: nat, a: nat, i: nat, o: nat, r: Row)
    requires !r.settled || r.createdAt >= cutoff
    ensures var left := After(db, cutoff, limit, a, i, o);
            (r in left.idempotency <==> r in db.idempotency) && (r in left.outbound <==> r in db.outbound)
            && (r.createdAt >= cutoff ==> (r in left.audit <==> r in db.audit))
  {
    Survives(db.audit, AuditFilter(cutoff), a * limit, r);
    Survives(db.idempotency, SettledFilter(cutoff), i * limit, r);
    Survives(db.outbound, SettledFilter(cutoff), o * limit, r);
  }

  lemma Survives(t: Rows, f: Filter, limit: nat, r: Row)
    ensures !Matches(f, r) ==> (r in DeleteBatch(t, f, limit) <==> r in t)
  {
    DeleteBatchLeaves(t, f, limit);
    OthersIsWithin(t, f);
    OthersIsWithin(DeleteBatch(t, f, limit), f);
  }

  /** A cleanup stopped anywhere and run again comes to what one longer cleanup comes to, and a report of
      fewer rounds than allowed means nothing matching is left. */
  lemma CleanupResumes(db: Db, cutoff: int, limit: nat, a: nat, i: nat, o: nat, maxRounds: nat)
    requires limit > 0
    ensures var cut := After(db, cutoff, limit, a, i, o);
            var k := Rounds(MatchCounts(cut, cutoff), limit, maxRounds);
            var left := After(cut, cutoff, limit, k, k, k);
            left == After(db, cutoff, limit, a + k, i + k, o + k)
            && (k < maxRounds ==> MatchCounts(left, cutoff) == Counts(0, 0, 0))
  {
    var cut := After(db, cutoff, limit, a, i, o);
    var c := MatchCounts(cut, cutoff);
    var k := Rounds(c, limit, maxRounds);
    Resumes(db.audit, AuditFilter(cutoff), limit, a, k);
    Resumes(db.idempotency, SettledFilter(cutoff), limit, i, k);
    Resumes(db.outbound, SettledFilter(cutoff), limit, o, k);
  }

  lemma Resumes(t: Rows, f: Filter, limit: nat, a: nat, k: nat)
    requires limit > 0
    ensures var cut := DeleteBatch(t, f, a * limit);
            DeleteBatch(cut, f, k * limit) == DeleteBatch(t, f, (a + k) * limit)
            && (Batches(|Matching(cut, f)|, limit) <= k ==> Matching(DeleteBatch(cut, f, k * limit), f) == [])
  {
    var cut := DeleteBatch(t, f, a * limit);
    assert (a + k) * limit == a * limit + k * limit;
    DeleteBatchTwice(t, f, a * limit, k * limit);
    DeleteBatchLeaves(cut, f, k * limit);
    BatchesCover(|Matching(cut, f)|, limit, k);
  }

  // ---- In terms of the rows themselves ----

  function Hits(t: Rows, f: Filter): set<int>
  {
    set i | 0 <= i < |t| && t[i].createdAt < f.cutoff && (!f.settledOnly || t[i].settled)
  }

  lemma {:induction false} MatchingCounts(t: Rows, f: Filter)
    ensures |Matching(t, f)| == |Hits(t, f)|
  {
    if t != [] {
      MatchingCounts(t[1..], f);
      var moved := set i | i in Hits(t[1..], f) :: i + 1;
      ShiftCounts(Hits(t[1..], f), moved);
      FirstAndMoved(t, f, moved);
    } else {
      assert Hits(t, f) == {};
    }
  }

  lemma FirstAndMoved(t: Rows, f: Filter, moved: set<int>)
    requires t != [] && moved == set i | i in Hits(t[1..], f) :: i + 1
    ensures Hits(t, f) == moved + if Matches(f, t[0]) then {0} else {}
    ensures 0 !in moved
  {
    forall i: int | i != 0 ensures i in Hits(t, f) <==> i in moved {
      if 0 < i < |t| {
        assert t[1..][i - 1] == t[i];
      }
      assert i in moved <==> i - 1 in Hits(t[1..], f);
    }
  }

  lemma AnElement<T>(s: set<T>) returns (x: T)
    requires s != {}
    ensures x in s
  {
    x :| x in s;
  }

  lemma {:induction false} ShiftCounts(s: set<int>, moved: set<int>)
    requires moved == set i | i in s :: i + 1
    ensures |moved| == |s|
    decreases s
  {
    if s != {} {
      var x := AnElement(s);
      var rest := s - {x};
      var movedRest := set i | i in rest :: i + 1;
      ShiftCounts(rest, movedRest);
      forall i ensures i in moved <==> i in movedRest + {x + 1} {
        assert i in moved <==> i - 1 in s;
        assert i in movedRest <==> i - 1 in rest;
      }
      assert moved == movedRest + {x + 1} && x + 1 !in movedRest;
    } else {
      assert moved == {};
    }
  }

  /** What a cleanup counts: audit rows before the cutoff, and settled rows before it in the other tables. */
  lemma CountedAreOldAndSettled(db: Db, cutoff: int)
    ensures MatchCounts(db, cutoff)
         == Counts(|set i | 0 <= i < |db.audit| && db.audit[i].createdAt < cutoff|,
                   |set i | 0 <= i < |db.idempotency| && db.idempotency[i].createdAt < cutoff && db.idempotency[i].settled|,
                   |set i | 0 <= i < |db.outbound| && db.outbound[i].createdAt < cutoff && db.outbound[i].settled|)
  {
    MatchingCounts(db.audit, AuditFilter(cutoff));
    MatchingCounts(db.idempotency, SettledFilter(cutoff));
    MatchingCounts(db.outbound, SettledFilter(cutoff));
    assert Hits(db.audit, AuditFilter(cutoff)) == set i | 0 <= i < |db.audit| && db.audit[i].createdAt < cutoff;
    SettledHits(db.idempotency, cutoff);
    SettledHits(db.outbound, cutoff);
  }

  lemma SettledHits(t: Rows, cutoff: int)
    ensures Hits(t, SettledFilter(cutoff)) == set i | 0 <= i < |t| && t[i].createdAt < cutoff && t[i].settled
  {
  }

  /** A cleanup whose rounds sufficed leaves no audit row before the cutoff and no completed or sent one. */
  lemma OldSettledRowsGo(db: Db, cutoff: int, limit: nat, maxRounds: nat, r: Row)
    requires limit > 0 && r.createdAt < cutoff && Rounds(MatchCounts(db, cutoff), limit, maxRounds) < maxRounds
    ensures var k := Rounds(MatchCounts(db, cutoff), limit, maxRounds);
            var left := After(db, cutoff, limit, k, k, k);
            r !in left.audit && (r.settled ==> r !in left.idempotency && r !in left.outbound)
  {
    var k := Rounds(MatchCounts(db, cutoff), limit, maxRounds);
    var left := After(db, cutoff, limit, k, k, k);
    AfterNothing(db, cutoff, limit);
    CleanupResumes(db, cutoff, limit, 0, 0, 0, maxRounds);
    NothingMatches(left.audit, AuditFilter(cutoff), r);
    if r.settled {
      NothingMatches(left.idempotency, SettledFilter(cutoff), r);
      NothingMatches(left.outbound, SettledFilter(cutoff), r);
    }
  }

  lemma {:induction false} NothingMatches(t: Rows, f: Filter, r: Row)
    requires |Matching(t, f)| == 0 && Matches(f, r)
    ensures r !in t
  {
    if t != [] {
      NothingMatches(t[1..], f, r);
    }
  }

  /** The settings are taken exactly when all three numbers are positive. */
  lemma SettingsAreValidExactlyWhen(s: Settings)
    ensures Validate(s) == {} <==> s.ttlSeconds > 0 && s.batchLimit > 0 && s.maxRounds > 0
    ensures Ttl in Validate(s) <==> s.ttlSeconds <= 0
    ensures BatchLimit in Validate(s) <==> s.batchLimit <= 0
    ensures MaxRounds in Validate(s) <==> s.maxRounds <= 0
  {
    assert s.ttlSeconds <= 0 ==> Ttl in Validate(s);
    assert s.batchLimit <= 0 ==> BatchLimit in Validate(s);
    assert s.maxRounds <= 0 ==> MaxRounds in Validate(s);
  }
}
