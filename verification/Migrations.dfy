/** The checksummed migration ledger: plain SQL files applied in filename order, each body and its ledger
    row in separate statements, by runs that may stop before any statement. */
module Migrations {
  import opened Basics

  datatype Entry = Entry(name: string, isFile: bool, body: string)

  // ---- Which files, in which order ----

  function Lower(c: char): char
  {
    if 'A' <= c <= 'Z' then c - 'A' + 'a' else c
  }

  predicate IsSql(e: Entry)
  {
    var n := |e.name|;
    e.isFile && n > 4 && e.name[n - 4] == '.'
    && Lower(e.name[n - 3]) == 's' && Lower(e.name[n - 2]) == 'q' && Lower(e.name[n - 1]) == 'l'
  }

  function SqlFiles(entries: seq<Entry>): seq<Entry>
  {
    if entries == [] then []
    else (if IsSql(entries[0]) then [entries[0]] else []) + SqlFiles(entries[1..])
  }

  function Insert(e: Entry, files: seq<Entry>): seq<Entry>
  {
    if files == [] || LexLe(e.name, files[0].name) then [e] + files else [files[0]] + Insert(e, files[1..])
  }

  function SortByName(files: seq<Entry>): seq<Entry>
  {
    if files == [] then [] else Insert(files[0], SortByName(files[1..]))
  }

  function SortedMigrationSqlPaths(entries: seq<Entry>): seq<Entry>
  {
    SortByName(SqlFiles(entries))
  }

  predicate InOrder(files: seq<Entry>)
  {
    forall i, j :: 0 <= i < j < |files| ==> InTextOrder(files[i].name, files[j].name)
  }

  predicate NamesDistinct(files: seq<Entry>)
  {
    forall i, j :: 0 <= i < j < |files| ==> files[i].name != files[j].name
  }

  lemma {:induction false} InsertKeepsOrder(e: Entry, files: seq<Entry>)
    requires InOrder(files)
    ensures InOrder(Insert(e, files)) && multiset(Insert(e, files)) == multiset{e} + multiset(files)
  {
    if files == [] {
      return;
    }
    LexIsTextOrder(e.name, files[0].name);
    if InTextOrder(e.name, files[0].name) {
      HeadGoesFirst(files, e);
    } else {
      TextTotal(e.name, files[0].name);
      InsertKeepsOrder(e, files[1..]);
      assert files == [files[0]] + files[1..];
      HeadStaysFirst(files, Insert(e, files[1..]), e);
    }
  }

  lemma HeadGoesFirst(files: seq<Entry>, e: Entry)
    requires files != [] && InOrder(files) && InTextOrder(e.name, files[0].name)
    ensures InOrder([e] + files)
  {
    forall j | 0 <= j < |files| ensures InTextOrder(e.name, files[j].name) {
      if j > 0 {
        TextTransitive(e.name, files[0].name, files[j].name);
      }
    }
  }

  lemma HeadStaysFirst(files: seq<Entry>, rest: seq<Entry>, e: Entry)
    requires files != [] && InOrder(files) && InTextOrder(files[0].name, e.name)
    requires InOrder(rest) && multiset(rest) == multiset{e} + multiset(files[1..])
    ensures InOrder([files[0]] + rest)
  {
    forall j | 0 <= j < |rest| ensures InTextOrder(files[0].name, rest[j].name) {
      assert rest[j] in multiset(rest);
      assert rest[j] == e || rest[j] in files[1..];
    }
  }

  /** The files handed to the run are the directory's SQL files, each once, in filename order. */
  lemma SortedPathsAreTheSqlFiles(entries: seq<Entry>)
    ensures InOrder(SortedMigrationSqlPaths(entries))
    ensures multiset(SortedMigrationSqlPaths(entries)) == multiset(SqlFiles(entries))
    ensures forall e :: e in SortedMigrationSqlPaths(entries) <==> e in entries && IsSql(e)
  {
    SortIsOrdered(SqlFiles(entries));
    SqlFilesAre(entries);
    forall e ensures e in SortedMigrationSqlPaths(entries) <==> e in SqlFiles(entries) {
      assert e in multiset(SortedMigrationSqlPaths(entries)) <==> e in multiset(SqlFiles(entries));
    }
  }

  lemma {:induction false} SortIsOrdered(files: seq<Entry>)
    ensures InOrder(SortByName(files)) && multiset(SortByName(files)) == multiset(files)
  {
    if files != [] {
      SortIsOrdered(files[1..]);
      InsertKeepsOrder(files[0], SortByName(files[1..]));
      assert files == [files[0]] + files[1..];
    }
  }

  lemma {:induction false} SqlFilesAre(entries: seq<Entry>)
    ensures forall e :: e in SqlFiles(entries) <==> e in entries && IsSql(e)
  {
    if entries != [] {
      SqlFilesAre(entries[1..]);
    }
  }

  /** An SQL file is a plain file with something before the ending .sql, in letters of either case. */
  lemma SqlFilesEndInSql(e: Entry)
    ensures IsSql(e) <==>
            (e.isFile && |e.name| > 4
             && e.name[|e.name| - 4..] in {".sql", ".sqL", ".sQl", ".sQL", ".Sql", ".SqL", ".SQl", ".SQL"})
  {
    if |e.name| > 4 {
      var s := e.name[|e.name| - 4..];
      assert s == [s[0], s[1], s[2], s[3]];
    }
  }

  /** Numbered files as the repository names them come in the order of their numbers. */
  lemma NumberedFilesComeInOrder(first: string, second: string)
    ensures SortedMigrationSqlPaths([Entry("010_b.sql", true, second), Entry("002_a.sql", true, first)])
         == [Entry("002_a.sql", true, first), Entry("010_b.sql", true, second)]
  {
    var a, b := Entry("002_a.sql", true, first), Entry("010_b.sql", true, second);
    assert [b, a][1..] == [a] && [a][1..] == [];
    assert IsSql(a) && IsSql(b);
    assert SqlFiles([a]) == [a];
    assert SqlFiles([b, a]) == [b, a];
    assert b.name[1..] == "10_b.sql" && a.name[1..] == "02_a.sql";
    assert SortByName([a]) == [a];
    assert SortByName([b, a]) == Insert(b, [a]);
    assert !LexLe(b.name, a.name);
    assert Insert(b, []) == [b];
  }

  // ---- One run ----

  type Ledger = map<string, Option<string>>

  type Checksum = string -> string

  /** The ledger table, and the migration bodies the database has executed, in order. */
  datatype State = State(ledger: Ledger, executed: seq<Entry>)

  datatype Result = Done | Drift(filename: string) | Interrupted

  function Recorded(st: State, f: Entry, sum: Checksum): State
  {
    st.(ledger := st.ledger[f.name := Some(sum(f.body))])
  }

  /** One file, with so many statements left before the connection is lost: why the run stops here, if it
      does, the state, and the statements then left. */
  function Visit(f: Entry, st: State, sum: Checksum, budget: nat): (Option<Result>, State, nat)
  {
    if f.name in st.ledger && st.ledger[f.name].Some? then
      (if st.ledger[f.name].value == sum(f.body) then None else Some(Drift(f.name)), st, budget)
    else if budget == 0 then (Some(Interrupted), st, 0)
    else if f.name in st.ledger then (None, Recorded(st, f, sum), budget - 1)
    else
      var ran := st.(executed := st.executed + [f]);
      if budget == 1 then (Some(Interrupted), ran, 0) else (None, Recorded(ran, f, sum), budget - 2)
  }

  function Walk(files: seq<Entry>, st: State, sum: Checksum, budget: nat): (Result, State)
    decreases |files|
  {
    if files == [] then (Done, st)
    else
      var (stop, st', left) := Visit(files[0], st, sum, budget);
      if stop.Some? then (stop.value, st') else Walk(files[1..], st', sum, left)
  }

  /** CREATE, ALTER and SELECT come first. */
  function Run(entries: seq<Entry>, st: State, sum: Checksum, budget: nat): (Result, State)
  {
    if budget < 3 then (Interrupted, st) else Walk(SortedMigrationSqlPaths(entries), st, sum, budget - 3)
  }

  class MigrationDatabase {
    const checksum: Checksum
    var ledger: Ledger
    var executed: seq<Entry>
    /** Statements the connection will still serve. */
    var budget: nat

    ghost function Contents(): State
      reads this
    {
      State(ledger, executed)
    }

    constructor (checksum: Checksum, st: State, budget: nat)
      ensures this.checksum == checksum && Contents() == st && this.budget == budget
    {
      this.checksum := checksum;
      ledger, executed := st.ledger, st.executed;
      this.budget := budget;
    }

    method ApplyPostgresMigrations(entries: seq<Entry>) returns (r: Result)
      modifies this
      ensures (r, Contents()) == Run(entries, old(Contents()), checksum, old(budget))
    {
      if budget < 3 {
        budget := 0;
        return Interrupted;
      }
      budget := budget - 3;
      var mirror := ledger;
      var files := SortedMigrationSqlPaths(entries);
      ghost var promised := Walk(files, Contents(), checksum, budget);
      var i := 0;
      while i < |files|
        invariant 0 <= i <= |files| && mirror == ledger
        invariant Walk(files[i..], Contents(), checksum, budget) == promised
      {
        assert files[i..][1..] == files[i + 1..];
        var stop;
        stop, mirror := ApplyFile(files[i], mirror);
        if stop.Some? {
          return stop.value;
        }
        i := i + 1;
      }
      r := Done;
    }

    /** One file against the dictionary that mirrors the ledger. */
    method ApplyFile(f: Entry, mirror: Ledger) returns (stop: Option<Result>, mirror': Ledger)
      requires mirror == ledger
      modifies this
      ensures (stop, Contents(), budget) == Visit(f, old(Contents()), checksum, old(budget))
      ensures stop.None? ==> mirror' == ledger
    {
      mirror' := mirror;
      var expected := checksum(f.body);
      if f.name in mirror && mirror[f.name].Some? {
        return if mirror[f.name].value == expected then None else Some(Drift(f.name)), mirror;
      }
      if budget == 0 {
        return Some(Interrupted), mirror;
      }
      budget := budget - 1;
      if f.name !in mirror {
        executed := executed + [f];
        if budget == 0 {
          return Some(Interrupted), mirror;
        }
        budget := budget - 1;
      }
      ledger := ledger[f.name := Some(expected)];
      mirror' := mirror[f.name := Some(expected)];
      stop := None;
    }
  }

  // ---- What a run keeps ----

  function Unlisted(files: seq<Entry>, ledger: Ledger): seq<Entry>
  {
    if files == [] then []
    else (if files[0].name in ledger then [] else [files[0]]) + Unlisted(files[1..], ledger)
  }

  predicate Mismatch(f: Entry, ledger: Ledger, sum: Checksum)
  {
    f.name in ledger && ledger[f.name].Some? && ledger[f.name].value != sum(f.body)
  }

  /** The place of the first file whose recorded checksum is another's, or the end. */
  function FirstDrift(files: seq<Entry>, ledger: Ledger, sum: Checksum): (k: nat)
    ensures k <= |files|
    ensures forall i :: 0 <= i < k ==> !Mismatch(files[i], ledger, sum)
    ensures k < |files| ==> Mismatch(files[k], ledger, sum)
  {
    if files == [] || Mismatch(files[0], ledger, sum) then 0
    else
      var k := FirstDrift(files[1..], ledger, sum);
      assert forall i :: 0 < i <= k ==> files[i] == files[1..][i - 1];
      1 + k
  }

  /** The run is cut between this file's body and its ledger row. */
  function TornAt(files: seq<Entry>, st: State, sum: Checksum, budget: nat): Option<string>
    decreases |files|
  {
    if files == [] then None
    else
      var (stop, st', left) := Visit(files[0], st, sum, budget);
      if stop.None? then TornAt(files[1..], st', sum, left)
      else if stop == Some(Interrupted) && budget == 1 then Some(files[0].name)
      else None
  }

  function Executions(log: seq<Entry>, name: string): nat
  {
    if log == [] then 0
    else Executions(log[..|log| - 1], name) + if log[|log| - 1].name == name then 1 else 0
  }

  lemma ExecutionsAppend(log: seq<Entry>, f: Entry, name: string)
    ensures Executions(log + [f], name) == Executions(log, name) + if f.name == name then 1 else 0
  {
    assert (log + [f])[..|log|] == log;
  }

  /** A run executes a file exactly once if it records it, and otherwise only where it is torn. */
  lemma {:induction false} WalkExecutes(files: seq<Entry>, st: State, sum: Checksum, budget: nat, name: string)
    ensures var st' := Walk(files, st, sum, budget).1;
            (forall n <- st.ledger :: n in st'.ledger)
            && Executions(st'.executed, name) == Executions(st.executed, name)
               + (if name in st'.ledger && name !in st.ledger then 1 else 0)
               + (if TornAt(files, st, sum, budget) == Some(name) then 1 else 0)
            && (TornAt(files, st, sum, budget) == Some(name) ==> name !in st'.ledger)
    decreases |files|
  {
    if files != [] {
      var (stop, st1, left) := Visit(files[0], st, sum, budget);
      ExecutionsAppend(st.executed, files[0], name);
      if stop.None? {
        WalkExecutes(files[1..], st1, sum, left, name);
      }
    }
  }

  function RecordAll(files: seq<Entry>, ledger: Ledger, sum: Checksum): Ledger
  {
    if files == [] then ledger else RecordAll(files[1..], ledger[files[0].name := Some(sum(files[0].body))], sum)
  }

  lemma {:induction false} RecordAllLookup(files: seq<Entry>, ledger: Ledger, sum: Checksum, name: string)
    requires NamesDistinct(files)
    ensures var l := RecordAll(files, ledger, sum);
            (forall i :: 0 <= i < |files| && files[i].name == name ==> name in l && l[name] == Some(sum(files[i].body)))
            && ((forall i :: 0 <= i < |files| ==> files[i].name != name) ==>
                  (name in l <==> name in ledger) && (name in ledger ==> l[name] == ledger[name]))
  {
    if files != [] {
      var l1 := ledger[files[0].name := Some(sum(files[0].body))];
      RecordAllLookup(files[1..], l1, sum, name);
      forall i | 0 <= i < |files| && files[i].name == name
        ensures name in RecordAll(files, ledger, sum) && RecordAll(files, ledger, sum)[name] == Some(sum(files[i].body)) {
        if i > 0 {
          assert files[1..][i - 1] == files[i];
        } else {
          assert forall j :: 0 <= j < |files[1..]| ==> files[1..][j] == files[j + 1];
        }
      }
    }
  }

  lemma {:induction false} RecordElsewhere(files: seq<Entry>, ledger: Ledger, sum: Checksum, f: Entry)
    requires forall i :: 0 <= i < |files| ==> files[i].name != f.name
    ensures var l := ledger[f.name := Some(sum(f.body))];
            FirstDrift(files, l, sum) == FirstDrift(files, ledger, sum)
            && forall k :: 0 <= k <= |files| ==> Unlisted(files[..k], l) == Unlisted(files[..k], ledger)
  {
    var l := ledger[f.name := Some(sum(f.body))];
    if files != [] {
      assert files[0].name != f.name;
      RecordElsewhere(files[1..], ledger, sum, f);
      forall k | 0 <= k <= |files| ensures Unlisted(files[..k], l) == Unlisted(files[..k], ledger) {
        if k > 0 {
          assert files[..k][1..] == files[1..][..k - 1];
        }
      }
    }
  }

  lemma VisitPasses(f: Entry, st: State, sum: Checksum, budget: nat)
    requires budget >= 2 && !Mismatch(f, st.ledger, sum)
    ensures var (stop, st', left) := Visit(f, st, sum, budget);
            stop.None? && left >= budget - 2 && st'.ledger == st.ledger[f.name := Some(sum(f.body))]
            && st'.executed == st.executed + if f.name in st.ledger then [] else [f]
  {
  }

  /** A run with enough statements records and, where unlisted, executes each file before the first
      drifted one, once and in filename order; it stops there, or is done if there is none. */
  lemma {:induction false} WholeWalk(files: seq<Entry>, st: State, sum: Checksum, budget: nat)
    requires budget >= 2 * |files| && NamesDistinct(files)
    ensures var k := FirstDrift(files, st.ledger, sum);
            Walk(files, st, sum, budget)
            == (if k < |files| then Drift(files[k].name) else Done,
                State(RecordAll(files[..k], st.ledger, sum), st.executed + Unlisted(files[..k], st.ledger)))
    decreases |files|
  {
    var k := FirstDrift(files, st.ledger, sum);
    if k == 0 {
      assert st.executed + Unlisted(files[..0], st.ledger) == st.executed;
    } else {
      var (stop, st1, left) := Visit(files[0], st, sum, budget);
      VisitPasses(files[0], st, sum, budget);
      FirstFile(files, st.ledger, sum);
      WholeWalk(files[1..], st1, sum, left);
      Associates(st.executed, if files[0].name in st.ledger then [] else [files[0]], Unlisted(files[1..][..k - 1], st.ledger));
    }
  }

  lemma Associates(a: seq<Entry>, b: seq<Entry>, c: seq<Entry>)
    ensures (a + b) + c == a + (b + c)
  {
  }

  lemma FirstFile(files: seq<Entry>, ledger: Ledger, sum: Checksum)
    requires NamesDistinct(files) && FirstDrift(files, ledger, sum) > 0
    ensures var k := FirstDrift(files, ledger, sum);
            var l := ledger[files[0].name := Some(sum(files[0].body))];
            var here := if files[0].name in ledger then [] else [files[0]];
            NamesDistinct(files[1..]) && FirstDrift(files[1..], l, sum) == k - 1
            && RecordAll(files[..k], ledger, sum) == RecordAll(files[1..][..k - 1], l, sum)
            && Unlisted(files[..k], ledger) == here + Unlisted(files[1..][..k - 1], ledger)
            && Unlisted(files[1..][..k - 1], l) == Unlisted(files[1..][..k - 1], ledger)
  {
    var k := FirstDrift(files, ledger, sum);
    assert files[..k][1..] == files[1..][..k - 1];
    assert forall i :: 0 <= i < |files[1..]| ==> files[1..][i] == files[i + 1];
    RecordElsewhere(files[1..], ledger, sum, files[0]);
  }

  /** However early it is cut, a run executes a prefix of what a whole run would. */
  lemma {:induction false} CutRunExecutesAPrefix(files: seq<Entry>, st: State, sum: Checksum, budget: nat) returns (m: nat)
    requires NamesDistinct(files)
    ensures var due := Unlisted(files[..FirstDrift(files, st.ledger, sum)], st.ledger);
            m <= |due| && Walk(files, st, sum, budget).1.executed == st.executed + due[..m]
    decreases |files|
  {
    m := 0;
    if FirstDrift(files, st.ledger, sum) > 0 {
      var (stop, st1, left) := Visit(files[0], st, sum, budget);
      var later := Unlisted(files[1..][..FirstDrift(files, st.ledger, sum) - 1], st.ledger);
      FirstFile(files, st.ledger, sum);
      VisitExecutes(files[0], st, sum, budget);
      if stop.None? {
        var n := CutRunExecutesAPrefix(files[1..], st1, sum, left);
        m := Prepend(st.executed, if files[0].name in st.ledger then [] else [files[0]], later, n);
      } else if st1.executed != st.executed {
        m := 1;
      }
    }
  }

  lemma VisitExecutes(f: Entry, st: State, sum: Checksum, budget: nat)
    ensures var (stop, st', _) := Visit(f, st, sum, budget);
            var here := if f.name in st.ledger then [] else [f];
            (st'.executed == st.executed || st'.executed == st.executed + here)
            && (stop.None? ==> st'.executed == st.executed + here && st'.ledger == st.ledger[f.name := Some(sum(f.body))])
  {
  }

  lemma Prepend(log: seq<Entry>, here: seq<Entry>, later: seq<Entry>, n: nat) returns (m: nat)
    requires n <= |later|
    ensures m <= |here + later| && (log + here) + later[..n] == log + (here + later)[..m]
  {
    m := |here| + n;
  }

  /** Once a row has a checksum, no run changes it. */
  lemma {:induction false} ChecksumsStay(files: seq<Entry>, st: State, sum: Checksum, budget: nat, name: string)
    requires name in st.ledger && st.ledger[name].Some?
    ensures var st' := Walk(files, st, sum, budget).1; name in st'.ledger && st'.ledger[name] == st.ledger[name]
    decreases |files|
  {
    if files != [] {
      var (stop, st1, left) := Visit(files[0], st, sum, budget);
      if stop.None? {
        ChecksumsStay(files[1..], st1, sum, left, name);
      }
    }
  }

  lemma {:induction false} DoneWalkRecords(files: seq<Entry>, st: State, sum: Checksum, budget: nat, f: Entry)
    requires Walk(files, st, sum, budget).0 == Done && f in files
    ensures var st' := Walk(files, st, sum, budget).1; f.name in st'.ledger && st'.ledger[f.name] == Some(sum(f.body))
    decreases |files|
  {
    var (stop, st1, left) := Visit(files[0], st, sum, budget);
    if f == files[0] {
      ChecksumsStay(files[1..], st1, sum, left, f.name);
    } else {
      DoneWalkRecords(files[1..], st1, sum, left, f);
    }
  }

  /** A run that is done leaves every SQL file's row with the file's checksum, whatever the ledger held
      before, rows without a checksum included, and however many statements it was given. */
  lemma DoneMeansRecorded(entries: seq<Entry>, st: State, sum: Checksum, budget: nat, f: Entry)
    requires Run(entries, st, sum, budget).0 == Done && f in entries && IsSql(f)
    ensures var st' := Run(entries, st, sum, budget).1; f.name in st'.ledger && st'.ledger[f.name] == Some(sum(f.body))
  {
    SortedPathsAreTheSqlFiles(entries);
    DoneWalkRecords(SortedMigrationSqlPaths(entries), st, sum, budget - 3, f);
  }

  // ---- Any number of runs ----

  datatype Attempt = Attempt(entries: seq<Entry>, budget: nat)

  function History(runs: seq<Attempt>, st: State, sum: Checksum): State
    decreases |runs|
  {
    if runs == [] then st else History(runs[1..], Run(runs[0].entries, st, sum, runs[0].budget).1, sum)
  }

  predicate Tears(a: Attempt, st: State, sum: Checksum, name: string)
  {
    a.budget >= 3 && TornAt(SortedMigrationSqlPaths(a.entries), st, sum, a.budget - 3) == Some(name)
  }

  /** Runs cut between this file's body and its row. */
  function CountTears(runs: seq<Attempt>, st: State, sum: Checksum, name: string): nat
    decreases |runs|
  {
    if runs == [] then 0
    else (if Tears(runs[0], st, sum, name) then 1 else 0)
         + CountTears(runs[1..], Run(runs[0].entries, st, sum, runs[0].budget).1, sum, name)
  }

  /** Over any runs, of any directories, a body is executed once for its row and once for each time a run
      was cut between the two, and never again once the row exists. */
  lemma {:induction false} BodiesRunOncePerTear(runs: seq<Attempt>, st: State, sum: Checksum, name: string)
    ensures var st' := History(runs, st, sum);
            Executions(st'.executed, name) == Executions(st.executed, name)
               + (if name in st'.ledger && name !in st.ledger then 1 else 0) + CountTears(runs, st, sum, name)
            && (name in st.ledger ==> name in st'.ledger && Executions(st'.executed, name) == Executions(st.executed, name))
    decreases |runs|
  {
    if runs != [] {
      RunExecutes(runs[0], st, sum, name);
      BodiesRunOncePerTear(runs[1..], Run(runs[0].entries, st, sum, runs[0].budget).1, sum, name);
    }
  }

  lemma {:induction false} RunExecutes(a: Attempt, st: State, sum: Checksum, name: string)
    ensures var st' := Run(a.entries, st, sum, a.budget).1;
            Executions(st'.executed, name) == Executions(st.executed, name)
               + (if name in st'.ledger && name !in st.ledger then 1 else 0) + (if Tears(a, st, sum, name) then 1 else 0)
            && (name in st.ledger ==> name in st'.ledger) && (Tears(a, st, sum, name) ==> name !in st'.ledger)
  {
    if a.budget >= 3 {
      WalkExecutes(SortedMigrationSqlPaths(a.entries), st, sum, a.budget - 3, name);
    }
  }

  /** File contents that never change once a file exists. */
  predicate Unchanged(runs: seq<Attempt>, content: map<string, string>)
  {
    forall i :: 0 <= i < |runs| ==> Holds(runs[i].entries, content)
  }

  predicate Holds(entries: seq<Entry>, content: map<string, string>)
  {
    forall e <- entries :: e.name in content && content[e.name] == e.body
  }

  predicate Fits(ledger: Ledger, content: map<string, string>, sum: Checksum)
  {
    forall n <- ledger :: n in content && ledger[n].Some? ==> ledger[n].value == sum(content[n])
  }

  lemma {:induction false} WalkFits(files: seq<Entry>, st: State, sum: Checksum, budget: nat, content: map<string, string>)
    requires Holds(files, content) && Fits(st.ledger, content, sum)
    ensures !Walk(files, st, sum, budget).0.Drift? && Fits(Walk(files, st, sum, budget).1.ledger, content, sum)
    decreases |files|
  {
    if files != [] {
      var (stop, st1, left) := Visit(files[0], st, sum, budget);
      if stop.None? {
        WalkFits(files[1..], st1, sum, left, content);
      }
    }
  }

  lemma SortedFilesHold(entries: seq<Entry>, content: map<string, string>)
    requires Holds(entries, content)
    ensures Holds(SortedMigrationSqlPaths(entries), content)
  {
    SortedPathsAreTheSqlFiles(entries);
  }

  lemma RunFits(a: Attempt, st: State, sum: Checksum, content: map<string, string>)
    requires Holds(a.entries, content) && Fits(st.ledger, content, sum)
    ensures var (r, st') := Run(a.entries, st, sum, a.budget); !r.Drift? && Fits(st'.ledger, content, sum)
  {
    if a.budget >= 3 {
      SortedFilesHold(a.entries, content);
      WalkFits(SortedMigrationSqlPaths(a.entries), st, sum, a.budget - 3, content);
    }
  }

  lemma {:induction false} HistoryFits(runs: seq<Attempt>, st: State, sum: Checksum, content: map<string, string>)
    requires Unchanged(runs, content) && Fits(st.ledger, content, sum)
    ensures Fits(History(runs, st, sum).ledger, content, sum)
    decreases |runs|
  {
    if runs != [] {
      RunFits(runs[0], st, sum, content);
      HistoryFits(runs[1..], Run(runs[0].entries, st, sum, runs[0].budget).1, sum, content);
    }
  }

  /** With unchanged files no run ever reports drift. */
  lemma UnchangedFilesNeverDrift(runs: seq<Attempt>, st: State, sum: Checksum, content: map<string, string>)
    requires Unchanged(runs, content) && Fits(st.ledger, content, sum)
    ensures Fits(History(runs, st, sum).ledger, content, sum)
    ensures forall i :: 0 <= i < |runs| ==>
              !Run(runs[i].entries, History(runs[..i], st, sum), sum, runs[i].budget).0.Drift?
  {
    HistoryFits(runs, st, sum, content);
    forall i | 0 <= i < |runs|
      ensures !Run(runs[i].entries, History(runs[..i], st, sum), sum, runs[i].budget).0.Drift? {
      HistoryFits(runs[..i], st, sum, content);
      RunFits(runs[i], History(runs[..i], st, sum), sum, content);
    }
  }

  /** Distinct names in a directory are distinct in its sorted files. */
  lemma SortedNamesDistinct(entries: seq<Entry>)
    requires NamesDistinct(entries)
    ensures NamesDistinct(SortedMigrationSqlPaths(entries)) && |SortedMigrationSqlPaths(entries)| <= |entries|
  {
    SqlNamesDistinct(entries);
    SortNamesDistinct(SqlFiles(entries));
  }

  lemma {:induction false} SqlNamesDistinct(entries: seq<Entry>)
    requires NamesDistinct(entries)
    ensures NamesDistinct(SqlFiles(entries)) && |SqlFiles(entries)| <= |entries|
  {
    if entries != [] {
      SqlNamesDistinct(entries[1..]);
      SqlFilesAre(entries[1..]);
      var rest := SqlFiles(entries[1..]);
      forall j | 0 <= j < |rest| ensures rest[j].name != entries[0].name {
        assert rest[j] in entries[1..];
      }
    }
  }

  lemma {:induction false} SortNamesDistinct(files: seq<Entry>)
    requires NamesDistinct(files)
    ensures NamesDistinct(SortByName(files)) && |SortByName(files)| == |files|
  {
    if files != [] {
      var rest := SortByName(files[1..]);
      SortNamesDistinct(files[1..]);
      SortIsOrdered(files[1..]);
      forall j | 0 <= j < |rest| ensures rest[j].name != files[0].name {
        assert rest[j] in multiset(files[1..]);
        assert rest[j] in files[1..];
      }
      InsertNamesDistinct(files[0], rest);
    }
  }

  lemma {:induction false} InsertNamesDistinct(e: Entry, files: seq<Entry>)
    requires NamesDistinct(files) && forall j :: 0 <= j < |files| ==> files[j].name != e.name
    ensures NamesDistinct(Insert(e, files)) && |Insert(e, files)| == |files| + 1
    ensures forall x <- Insert(e, files) :: x == e || x in files
  {
    if files != [] && !LexLe(e.name, files[0].name) {
      InsertNamesDistinct(e, files[1..]);
      var rest := Insert(e, files[1..]);
      forall j | 0 <= j < |rest| ensures rest[j].name != files[0].name {
        assert rest[j] == e || rest[j] in files[1..];
      }
    }
  }

  lemma FilesAreReady(runs: seq<Attempt>, entries: seq<Entry>, sum: Checksum, content: map<string, string>)
    requires Unchanged(runs, content) && Holds(entries, content) && NamesDistinct(entries)
    ensures var files := SortedMigrationSqlPaths(entries);
            NamesDistinct(files) && |files| <= |entries| && (forall e :: e in files <==> e in entries && IsSql(e))
            && FirstDrift(files, History(runs, State(map[], []), sum).ledger, sum) == |files|
  {
    UnchangedFilesNeverDrift(runs, State(map[], []), sum, content);
    SortedPathsAreTheSqlFiles(entries);
    SortedNamesDistinct(entries);
    NoDriftAtAll(SortedMigrationSqlPaths(entries), History(runs, State(map[], []), sum).ledger, sum, content);
  }

  /** From an empty database, whatever runs were cut before, one run with enough statements is done, and
      executes exactly the bodies not yet recorded, in filename order. */
  lemma OneWholeRunSettles(runs: seq<Attempt>, entries: seq<Entry>, budget: nat, sum: Checksum, content: map<string, string>)
    requires Unchanged(runs, content) && Holds(entries, content) && NamesDistinct(entries)
    requires budget >= 3 + 2 * |entries|
    ensures var before := History(runs, State(map[], []), sum);
            var (r, after) := Run(entries, before, sum, budget);
            r == Done && after.executed == before.executed + Unlisted(SortedMigrationSqlPaths(entries), before.ledger)
  {
    var files := SortedMigrationSqlPaths(entries);
    FilesAreReady(runs, entries, sum, content);
    assert files[..|files|] == files;
    WholeWalk(files, History(runs, State(map[], []), sum), sum, budget - 3);
  }

  /** After such a run every file's row carries its checksum and every body has been executed. */
  lemma {:induction false} SettledMeansApplied(runs: seq<Attempt>, entries: seq<Entry>, budget: nat, sum: Checksum, content: map<string, string>, e: Entry)
    requires Unchanged(runs, content) && Holds(entries, content) && NamesDistinct(entries)
    requires budget >= 3 + 2 * |entries| && e in entries && IsSql(e)
    ensures IsApplied(e, Run(entries, History(runs, State(map[], []), sum), sum, budget).1, sum)
  {
    var before := History(runs, State(map[], []), sum);
    var files := SortedMigrationSqlPaths(entries);
    FilesAreReady(runs, entries, sum, content);
    RecordedMeansExecuted(runs, sum, e.name);
    RowAfterWholeRun(files, before, sum, budget - 3, e);
  }

  predicate IsApplied(f: Entry, st: State, sum: Checksum)
  {
    f.name in st.ledger && st.ledger[f.name] == Some(sum(f.body)) && Executions(st.executed, f.name) >= 1
  }

  lemma RecordedMeansExecuted(runs: seq<Attempt>, sum: Checksum, name: string)
    ensures var st := History(runs, State(map[], []), sum);
            name in st.ledger ==> Executions(st.executed, name) >= 1
  {
    BodiesRunOncePerTear(runs, State(map[], []), sum, name);
  }

  lemma NoDriftAtAll(files: seq<Entry>, ledger: Ledger, sum: Checksum, content: map<string, string>)
    requires Holds(files, content) && Fits(ledger, content, sum)
    ensures FirstDrift(files, ledger, sum) == |files|
  {
    assert forall i :: 0 <= i < |files| ==> files[i] in files && !Mismatch(files[i], ledger, sum);
  }

  lemma RowAfterWholeRun(files: seq<Entry>, st: State, sum: Checksum, budget: nat, e: Entry)
    requires NamesDistinct(files) && budget >= 2 * |files| && FirstDrift(files, st.ledger, sum) == |files| && e in files
    requires e.name in st.ledger ==> Executions(st.executed, e.name) >= 1
    ensures IsApplied(e, Walk(files, st, sum, budget).1, sum)
  {
    var i :| 0 <= i < |files| && files[i] == e;
    assert files[..|files|] == files;
    WholeWalk(files, st, sum, budget);
    RecordAllLookup(files, st.ledger, sum, e.name);
    WalkExecutes(files, st, sum, budget, e.name);
  }

  // ---- One directory: bodies run in filename order ----

  /** The first k files are listed and no other; nothing executed so far comes after a file still to go. */
  predicate Front(st: State, files: seq<Entry>, k: nat)
  {
    k <= |files|
    && (forall i :: 0 <= i < |files| ==> (files[i].name in st.ledger <==> i < k))
    && InOrder(st.executed)
    && forall e, i :: e in st.executed && k <= i < |files| ==> InTextOrder(e.name, files[i].name)
  }

  lemma VisitKeepsFront(files: seq<Entry>, j: nat, st: State, sum: Checksum, budget: nat, k: nat) returns (k': nat)
    requires Front(st, files, k) && j <= k && j < |files| && NamesDistinct(files) && InOrder(files)
    ensures var (stop, st', _) := Visit(files[j], st, sum, budget);
            Front(st', files, k') && (stop.None? ==> j + 1 <= k')
  {
    var (stop, st', _) := Visit(files[j], st, sum, budget);
    k' := if j == k && stop.None? then k + 1 else k;
    if j == k && st'.executed != st.executed {
      forall i | k <= i < |files| ensures InTextOrder(files[j].name, files[i].name) {
        TextTotal(files[j].name, files[i].name);
      }
    }
  }

  lemma {:induction false} WalkKeepsFront(files: seq<Entry>, j: nat, st: State, sum: Checksum, budget: nat, k: nat) returns (k': nat)
    requires Front(st, files, k) && j <= k && NamesDistinct(files) && InOrder(files)
    ensures Front(Walk(files[j..], st, sum, budget).1, files, k')
    decreases |files| - j
  {
    k' := k;
    if j < |files| {
      var (stop, st1, left) := Visit(files[j], st, sum, budget);
      k' := VisitKeepsFront(files, j, st, sum, budget, k);
      assert files[j..][1..] == files[j + 1..];
      if stop.None? {
        k' := WalkKeepsFront(files, j + 1, st1, sum, left, k');
      }
    }
  }

  lemma RunKeepsFront(a: Attempt, st: State, sum: Checksum, k: nat) returns (k': nat)
    requires NamesDistinct(a.entries) && Front(st, SortedMigrationSqlPaths(a.entries), k)
    ensures Front(Run(a.entries, st, sum, a.budget).1, SortedMigrationSqlPaths(a.entries), k')
  {
    k' := k;
    if a.budget >= 3 {
      var files := SortedMigrationSqlPaths(a.entries);
      SortedPathsAreTheSqlFiles(a.entries);
      SortedNamesDistinct(a.entries);
      assert files[0..] == files;
      k' := WalkKeepsFront(files, 0, st, sum, a.budget - 3, k);
    }
  }

  /** With one unchanging directory, over any runs from an empty database, bodies are executed in filename
      order, and what is recorded is an initial part of the sorted files. */
  lemma {:induction false} BodiesRunInFilenameOrder(entries: seq<Entry>, runs: seq<Attempt>, st: State, sum: Checksum, k: nat) returns (k': nat)
    requires NamesDistinct(entries) && forall i :: 0 <= i < |runs| ==> runs[i].entries == entries
    requires Front(st, SortedMigrationSqlPaths(entries), k)
    ensures Front(History(runs, st, sum), SortedMigrationSqlPaths(entries), k')
    decreases |runs|
  {
    k' := k;
    if runs != [] {
      k' := RunKeepsFront(runs[0], st, sum, k);
      k' := BodiesRunInFilenameOrder(entries, runs[1..], Run(entries, st, sum, runs[0].budget).1, sum, k');
    }
  }
}
