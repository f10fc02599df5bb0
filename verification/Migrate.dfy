/** Concurrent migrators over one directory (migrate.py): one locked transaction per file, retried on
    serialization failures. */
module Migrate {
  import opened Common
  import opened Canonical

  datatype File = File(name: string, sql: seq<byte>)

  const MAX_SERIALIZATION_RETRIES := 5

  /** The migration table, and every script that was ever executed, in order. */
  datatype Database = Database(recorded: map<string, Digest>, executed: seq<File>)

  function FileDigest(p: Primitives, f: File): Digest {
    p.sha256(f.sql)
  }

  datatype FileOutcome = Skipped | Executed | Changed

  function Apply(p: Primitives, db: Database, f: File): (Database, FileOutcome) {
    if f.name in db.recorded then
      (db, if db.recorded[f.name] == FileDigest(p, f) then Skipped else Changed)
    else
      (Database(db.recorded[f.name := FileDigest(p, f)], db.executed + [f]), Executed)
  }

  /** A directory listing has one file per name. */
  predicate UniqueNames(files: seq<File>) {
    forall i, j :: 0 <= i < j < |files| ==> files[i].name != files[j].name
  }

  /** The migration table holds exactly the first n files. */
  ghost predicate Prefix(p: Primitives, files: seq<File>, recorded: map<string, Digest>, n: nat)
    requires n <= |files|
  {
    && (forall i :: 0 <= i < n ==> files[i].name in recorded && recorded[files[i].name] == FileDigest(p, files[i]))
    && (forall name :: name in recorded ==> Listed(files, n, name))
  }

  ghost predicate Listed(files: seq<File>, n: nat, name: string)
    requires n <= |files|
  {
    exists i :: 0 <= i < n && files[i].name == name
  }

  // ----- one migrator, alone -----

  datatype MigrationResult = Finished(applied: seq<string>) | ChangedAfterApplication(name: string) | GaveUp(name: string)

  /** A serialization failure: before the file's name was listed, or when its transaction was to commit. */
  datatype Hit = Early | Late

  /** What the attempts at one file come to: the table, a reason to stop, and how often the file's
      name was put on the list of applied files, which an aborted transaction does not undo. */
  datatype FileRun = FileRun(db: Database, stop: Option<MigrationResult>, listed: nat)

  function RunFile(p: Primitives, db: Database, f: File, hits: seq<Hit>, attempt: nat): FileRun
    decreases |hits|
  {
    var (db', outcome) := Apply(p, db, f);
    if outcome == Changed && (hits == [] || hits[0] == Late) then FileRun(db, Some(ChangedAfterApplication(f.name)), 0)
    else if hits == [] then FileRun(db', None, if outcome == Executed then 1 else 0)
    else
      var listed := if outcome == Executed && hits[0] == Late then 1 else 0;
      if attempt == MAX_SERIALIZATION_RETRIES - 1 then FileRun(db, Some(GaveUp(f.name)), listed)
      else
        var rest := RunFile(p, db, f, hits[1..], attempt + 1);
        rest.(listed := listed + rest.listed)
  }

  function Copies(name: string, n: nat): seq<string> {
    seq(n, _ => name)
  }

  /** apply_migrations from the i-th file on, when hits[k] are the failures that file k meets. */
  function ApplyAll(p: Primitives, db: Database, files: seq<File>, hits: seq<seq<Hit>>, i: nat, applied: seq<string>): (Database, MigrationResult)
    requires i <= |files| == |hits|
    decreases |files| - i
  {
    if i == |files| then (db, Finished(applied))
    else
      var run := RunFile(p, db, files[i], hits[i], 0);
      if run.stop.Some? then (run.db, run.stop.value)
      else ApplyAll(p, run.db, files, hits, i + 1, applied + Copies(files[i].name, run.listed))
  }

  class Schema {
    var recorded: map<string, Digest>
    var executed: seq<File>

    constructor (recorded: map<string, Digest>)
      ensures this.recorded == recorded && executed == []
    {
      this.recorded, executed := recorded, [];
    }

    function View(): Database
      reads this
    {
      Database(recorded, executed)
    }

    /** The transaction of one file. */
    method ApplyFile(p: Primitives, f: File) returns (outcome: FileOutcome)
      modifies this
      ensures (View(), outcome) == Apply(p, old(View()), f)
    {
      if f.name in recorded {
        if recorded[f.name] != FileDigest(p, f) {
          return Changed;
        }
        return Skipped;
      }
      executed := executed + [f];
      recorded := recorded[f.name := FileDigest(p, f)];
      outcome := Executed;
    }

    /** The retry loop of one file. */
    method ApplyWithRetry(p: Primitives, f: File, hits: seq<Hit>, applied: seq<string>)
      returns (stop: Option<MigrationResult>, listing: seq<string>)
      modifies this
      ensures var run := RunFile(p, old(View()), f, hits, 0);
              View() == run.db && stop == run.stop && listing == applied + Copies(f.name, run.listed)
    {
      listing := applied;
      ghost var listed: nat := 0;
      var attempt := 0;
      while attempt < |hits|
        invariant attempt <= |hits| && View() == old(View())
        invariant listing == applied + Copies(f.name, listed)
        invariant RunFile(p, old(View()), f, hits, 0)
                  == var rest := RunFile(p, old(View()), f, hits[attempt..], attempt); rest.(listed := listed + rest.listed)
      {
        assert hits[attempt..][1..] == hits[attempt + 1..];
        if hits[attempt] == Late {
          var saved := (recorded, executed);
          var outcome := ApplyFile(p, f);
          if outcome == Changed {
            return Some(ChangedAfterApplication(f.name)), listing;
          }
          if outcome == Executed {
            listing := listing + [f.name];
            listed := listed + 1;
          }
          recorded, executed := saved.0, saved.1;
        }
        if attempt == MAX_SERIALIZATION_RETRIES - 1 {
          return Some(GaveUp(f.name)), listing;
        }
        attempt := attempt + 1;
      }
      assert hits[attempt..] == [];
      var outcome := ApplyFile(p, f);
      if outcome == Changed {
        return Some(ChangedAfterApplication(f.name)), listing;
      }
      if outcome == Executed {
        listing := listing + [f.name];
      }
      stop := None;
    }

    /** apply_migrations: file after file, each retried a bounded number of times. */
    method ApplyMigrations(p: Primitives, files: seq<File>, hits: seq<seq<Hit>>) returns (result: MigrationResult)
      requires |hits| == |files|
      modifies this
      ensures (View(), result) == ApplyAll(p, old(View()), files, hits, 0, [])
    {
      var applied: seq<string> := [];
      for i := 0 to |files|
        invariant ApplyAll(p, old(View()), files, hits, 0, []) == ApplyAll(p, View(), files, hits, i, applied)
      {
        var stop, listing := ApplyWithRetry(p, files[i], hits[i], applied);
        if stop.Some? {
          return stop.value;
        }
        applied := listing;
      }
      result := Finished(applied);
    }
  }

  /** A file before the end of the recorded prefix is skipped; the next one is executed and
      extends the prefix. */
  lemma NextFile(p: Primitives, files: seq<File>, db: Database, n: nat, i: nat)
    requires UniqueNames(files) && i <= n <= |files| && i < |files| && Prefix(p, files, db.recorded, n)
    ensures i < n ==> Apply(p, db, files[i]) == (db, Skipped)
    ensures i == n ==>
              && Apply(p, db, files[i]).1 == Executed
              && Apply(p, db, files[i]).0.executed == db.executed + [files[i]]
              && Prefix(p, files, Apply(p, db, files[i]).0.recorded, n + 1)
  {
  }

  function Lates(hits: seq<Hit>): nat {
    if hits == [] then 0 else (if hits[0] == Late then 1 else 0) + Lates(hits[1..])
  }

  lemma {:induction false} RunFileMeans(p: Primitives, db: Database, f: File, hits: seq<Hit>, attempt: nat)
    requires Apply(p, db, f).1 != Changed && attempt < MAX_SERIALIZATION_RETRIES
    ensures var run := RunFile(p, db, f, hits, attempt);
            if |hits| + attempt < MAX_SERIALIZATION_RETRIES
            then run == FileRun(Apply(p, db, f).0, None, if Apply(p, db, f).1 == Executed then Lates(hits) + 1 else 0)
            else run.db == db && run.stop == Some(GaveUp(f.name))
    decreases |hits|
  {
    if hits != [] && attempt < MAX_SERIALIZATION_RETRIES - 1 {
      RunFileMeans(p, db, f, hits[1..], attempt + 1);
    }
  }

  /** The failures before the first one at commit. */
  function EarlyFirst(hits: seq<Hit>): nat {
    if hits == [] || hits[0] == Late then 0 else 1 + EarlyFirst(hits[1..])
  }

  /** A file that has changed since it was recorded is never executed or listed: the first attempt that
      gets to look at it refuses it, unless the attempts run out before. */
  lemma {:induction false} ChangedIsRefused(p: Primitives, db: Database, f: File, hits: seq<Hit>, attempt: nat)
    requires f.name in db.recorded && db.recorded[f.name] != FileDigest(p, f) && attempt < MAX_SERIALIZATION_RETRIES
    ensures RunFile(p, db, f, hits, attempt)
            == FileRun(db, Some(if EarlyFirst(hits) + attempt < MAX_SERIALIZATION_RETRIES then ChangedAfterApplication(f.name)
                                else GaveUp(f.name)), 0)
    decreases |hits|
  {
    if hits != [] && hits[0] == Early && attempt < MAX_SERIALIZATION_RETRIES - 1 {
      ChangedIsRefused(p, db, f, hits[1..], attempt + 1);
    }
  }

  /** The names a lone migrator lists for files n to the end: once each, and once more for every
      failure at commit. */
  function Listing(files: seq<File>, hits: seq<seq<Hit>>, n: nat): seq<string>
    requires n <= |files| == |hits|
    decreases |files| - n
  {
    if n == |files| then [] else Copies(files[n].name, Lates(hits[n]) + 1) + Listing(files, hits, n + 1)
  }

  /** How a lone migrator that starts at file i, with n files recorded, must end: it finishes exactly
      when no file fails too often, leaves k files recorded, the missing ones executed in order, and
      lists the executed ones. */
  ghost predicate EndsWell(p: Primitives, before: Database, files: seq<File>, hits: seq<seq<Hit>>, i: nat, n: nat, k: nat,
                           applied: seq<string>, after: Database, result: MigrationResult)
    requires i <= n <= |files| == |hits|
  {
    && (result.Finished? <==> forall j :: i <= j < |files| ==> |hits[j]| < MAX_SERIALIZATION_RETRIES)
    && !result.ChangedAfterApplication?
    && n <= k <= |files| && (result.Finished? ==> k == |files| && result.applied == applied + Listing(files, hits, n))
    && Prefix(p, files, after.recorded, k) && after.executed == before.executed + files[n..k]
  }

  /** It ends at once, after the last file or at one that fails too often. */
  lemma AloneStops(p: Primitives, db: Database, files: seq<File>, hits: seq<seq<Hit>>, i: nat, n: nat, applied: seq<string>)
    requires UniqueNames(files) && i <= n <= |files| == |hits| && Prefix(p, files, db.recorded, n)
    requires i < |files| ==> RunFile(p, db, files[i], hits[i], 0).stop.Some?
    ensures EndsWell(p, db, files, hits, i, n, n, applied,
                     ApplyAll(p, db, files, hits, i, applied).0, ApplyAll(p, db, files, hits, i, applied).1)
  {
    assert files[n..n] == [];
    if i < |files| {
      NextFile(p, files, db, n, i);
      RunFileMeans(p, db, files[i], hits[i], 0);
    }
  }

  /** It skips a recorded file, or executes and lists the next one. */
  lemma AloneMovesOn(p: Primitives, db: Database, files: seq<File>, hits: seq<seq<Hit>>, i: nat, n: nat)
    requires UniqueNames(files) && i <= n <= |files| == |hits| && Prefix(p, files, db.recorded, n)
    requires i < |files| && RunFile(p, db, files[i], hits[i], 0).stop.None?
    ensures |hits[i]| < MAX_SERIALIZATION_RETRIES
    ensures var run := RunFile(p, db, files[i], hits[i], 0);
            if i < n then run.db == db && run.listed == 0
            else run.db.executed == db.executed + [files[n]] && run.listed == Lates(hits[n]) + 1
                 && Prefix(p, files, run.db.recorded, n + 1)
  {
    NextFile(p, files, db, n, i);
    RunFileMeans(p, db, files[i], hits[i], 0);
  }

  lemma {:induction false} AloneExtendsPrefix(p: Primitives, db: Database, files: seq<File>, hits: seq<seq<Hit>>, i: nat, n: nat,
                                              applied: seq<string>)
    returns (k: nat)
    requires UniqueNames(files) && i <= n <= |files| == |hits| && Prefix(p, files, db.recorded, n)
    ensures EndsWell(p, db, files, hits, i, n, k, applied,
                     ApplyAll(p, db, files, hits, i, applied).0, ApplyAll(p, db, files, hits, i, applied).1)
    decreases |files| - i
  {
    if i == |files| || RunFile(p, db, files[i], hits[i], 0).stop.Some? {
      k := n;
      AloneStops(p, db, files, hits, i, n, applied);
    } else {
      AloneMovesOn(p, db, files, hits, i, n);
      var run := RunFile(p, db, files[i], hits[i], 0);
      var applied' := applied + Copies(files[i].name, run.listed);
      k := AloneExtendsPrefix(p, run.db, files, hits, i + 1, if i == n then n + 1 else n, applied');
      var (after, result) := ApplyAll(p, run.db, files, hits, i + 1, applied');
      assert i < n ==> applied' == applied;
      EndsWellFromNext(p, db, run.db, files, hits, i, n, k, applied, applied', after, result);
    }
  }

  lemma EndsWellFromNext(p: Primitives, db: Database, db': Database, files: seq<File>, hits: seq<seq<Hit>>, i: nat, n: nat, k: nat,
                         applied: seq<string>, applied': seq<string>, after: Database, result: MigrationResult)
    requires i <= n <= |files| == |hits| && i < |files| && |hits[i]| < MAX_SERIALIZATION_RETRIES
    requires i < n ==> db' == db && applied' == applied
    requires i == n ==> db'.executed == db.executed + [files[n]] && applied' == applied + Copies(files[n].name, Lates(hits[n]) + 1)
    requires EndsWell(p, db', files, hits, i + 1, if i == n then n + 1 else n, k, applied', after, result)
    ensures EndsWell(p, db, files, hits, i, n, k, applied, after, result)
  {
    if i == n {
      SliceHead(files, n, k);
      assert db.executed + files[n..k] == db.executed + [files[n]] + files[n + 1..k];
      assert applied' + Listing(files, hits, n + 1) == applied + Listing(files, hits, n);
    }
  }

  lemma SliceHead(files: seq<File>, n: nat, k: nat)
    requires n < k <= |files|
    ensures files[n..k] == [files[n]] + files[n + 1..k]
  {
  }

  /** What a lone migrator lists is exact, one name per executed file, exactly when no failure at
      commit hit a file it executes. */
  lemma {:induction false} ListingIsExactIff(files: seq<File>, hits: seq<seq<Hit>>, n: nat)
    requires n <= |files| == |hits|
    ensures |Listing(files, hits, n)| >= |files| - n
    ensures |Listing(files, hits, n)| == |files| - n <==> forall j :: n <= j < |files| ==> Lates(hits[j]) == 0
    ensures (forall j :: n <= j < |files| ==> Lates(hits[j]) == 0) ==>
              Listing(files, hits, n) == seq(|files| - n, i requires 0 <= i < |files| - n => files[n + i].name)
    decreases |files| - n
  {
    if n < |files| {
      ListingIsExactIff(files, hits, n + 1);
    }
  }

  // ----- any number of migrators, interleaved -----

  /** Each migrator works on its own list position, with its own retry counter. */
  datatype Migrator = Working(position: nat, attempt: nat) | Returned | Stopped

  /** The names a migrator put on its list, those it executed, and those whose transaction aborted
      after it had listed them. */
  datatype Log = Log(listed: seq<string>, executed: seq<string>, aborted: seq<string>)

  datatype System = System(db: Database, migrators: map<nat, Migrator>, logs: map<nat, Log>)

  datatype Step =
    | Join(m: nat)
    | Transact(m: nat)
    | SerializationFailure(m: nat, hit: Hit)
    | Crash(m: nat, committed: bool)

  function StatusOf(sys: System, m: nat): Migrator {
    if m in sys.migrators then sys.migrators[m] else Stopped
  }

  function LogOf(sys: System, m: nat): Log {
    if m in sys.logs then sys.logs[m] else Log([], [], [])
  }

  /** The transaction's body lists the file it executed before the transaction ends. */
  function Noted(log: Log, name: string, outcome: FileOutcome, committed: bool): Log {
    if outcome != Executed then log
    else if committed then log.(listed := log.listed + [name], executed := log.executed + [name])
    else log.(listed := log.listed + [name], aborted := log.aborted + [name])
  }

  /** Where a migrator goes after its transaction committed, or raised. */
  function Advanced(files: seq<File>, position: nat, outcome: FileOutcome): Migrator {
    if outcome == Changed then Stopped
    else if position + 1 == |files| then Returned
    else Working(position + 1, 0)
  }

  function Begin(files: seq<File>): Migrator {
    if files == [] then Returned else Working(0, 0)
  }

  function Do(p: Primitives, files: seq<File>, sys: System, step: Step): System {
    match step
    case Join(m) => if m in sys.migrators then sys else sys.(migrators := sys.migrators[m := Begin(files)])
    case Transact(m) =>
      var status := StatusOf(sys, m);
      if !status.Working? || status.position >= |files| then sys
      else
        var f := files[status.position];
        var (db, outcome) := Apply(p, sys.db, f);
        System(db, sys.migrators[m := Advanced(files, status.position, outcome)],
               sys.logs[m := Noted(LogOf(sys, m), f.name, outcome, true)])
    case SerializationFailure(m, hit) =>
      var status := StatusOf(sys, m);
      if !status.Working? || status.position >= |files| then sys
      else
        var f := files[status.position];
        var outcome := Apply(p, sys.db, f).1;
        System(sys.db,
               sys.migrators[m := if (hit == Late && outcome == Changed) || status.attempt == MAX_SERIALIZATION_RETRIES - 1
                                  then Stopped else Working(status.position, status.attempt + 1)],
               sys.logs[m := if hit == Late then Noted(LogOf(sys, m), f.name, outcome, false) else LogOf(sys, m)])
    case Crash(m, committed) =>
      var status := StatusOf(sys, m);
      if !status.Working? || status.position >= |files| then sys
      else
        var f := files[status.position];
        var (db, outcome) := Apply(p, sys.db, f);
        if committed then
          System(db, sys.migrators[m := Stopped], sys.logs[m := Noted(LogOf(sys, m), f.name, outcome, true)])
        else
          sys.(migrators := sys.migrators[m := Stopped])
  }

  function DoAll(p: Primitives, files: seq<File>, sys: System, steps: seq<Step>): System
    decreases |steps|
  {
    if steps == [] then sys else Do(p, files, DoAll(p, files, sys, steps[..|steps| - 1]), steps[|steps| - 1])
  }

  /** Nothing a migrator passed is missing, and only the recorded prefix was executed. */
  ghost predicate Inv(p: Primitives, files: seq<File>, sys: System, start: nat, n: nat) {
    && start <= n <= |files|
    && Prefix(p, files, sys.db.recorded, n)
    && sys.db.executed == files[start..n]
    && (forall m :: m in sys.migrators ==> MigratorOk(files, sys.migrators[m], n))
  }

  predicate MigratorOk(files: seq<File>, status: Migrator, n: nat) {
    && (status.Working? ==> status.position <= n && status.position < |files| && status.attempt < MAX_SERIALIZATION_RETRIES)
    && (status.Returned? ==> n == |files|)
  }

  /** One migrator moves on, and the table keeps its prefix or grows by one. */
  lemma MoveKeepsInv(p: Primitives, files: seq<File>, sys: System, db: Database, m: nat, status: Migrator,
                      logs: map<nat, Log>, start: nat, n: nat, n': nat)
    requires Inv(p, files, sys, start, n) && n <= n' <= |files|
    requires Prefix(p, files, db.recorded, n') && db.executed == files[start..n'] && MigratorOk(files, status, n')
    ensures Inv(p, files, System(db, sys.migrators[m := status], logs), start, n')
  {
  }

  /** A migrator's transaction on the file it stands at. */
  lemma TransactionGrowsPrefix(p: Primitives, files: seq<File>, sys: System, i: nat, start: nat, n: nat) returns (n': nat)
    requires UniqueNames(files) && Inv(p, files, sys, start, n) && i <= n && i < |files|
    ensures n <= n' <= n + 1 && n' <= |files| && i < n' && Apply(p, sys.db, files[i]).1 != Changed
    ensures Prefix(p, files, Apply(p, sys.db, files[i]).0.recorded, n')
    ensures Apply(p, sys.db, files[i]).0.executed == files[start..n']
  {
    NextFile(p, files, sys.db, n, i);
    n' := if i == n then n + 1 else n;
    assert i == n ==> files[start..n + 1] == files[start..n] + [files[n]];
  }

  lemma StepKeepsInv(p: Primitives, files: seq<File>, sys: System, step: Step, start: nat, n: nat) returns (n': nat)
    requires UniqueNames(files) && Inv(p, files, sys, start, n)
    ensures n <= n' <= n + 1 && Inv(p, files, Do(p, files, sys, step), start, n')
  {
    n' := n;
    var status, sys' := StatusOf(sys, step.m), Do(p, files, sys, step);
    if sys' != sys {
      if step.Transact? || (step.Crash? && step.committed) {
        n' := TransactionGrowsPrefix(p, files, sys, status.position, start, n);
      }
      assert sys' == System(sys'.db, sys.migrators[step.m := sys'.migrators[step.m]], sys'.logs);
      MoveKeepsInv(p, files, sys, sys'.db, step.m, sys'.migrators[step.m], sys'.logs, start, n, n');
    }
  }

  lemma {:induction false} RunKeepsInv(p: Primitives, files: seq<File>, sys: System, steps: seq<Step>, start: nat) returns (n: nat)
    requires UniqueNames(files) && Inv(p, files, sys, start, start)
    ensures Inv(p, files, DoAll(p, files, sys, steps), start, n)
    decreases |steps|
  {
    n := start;
    if steps != [] {
      var before := RunKeepsInv(p, files, sys, steps[..|steps| - 1], start);
      n := StepKeepsInv(p, files, DoAll(p, files, sys, steps[..|steps| - 1]), steps[|steps| - 1], start, before);
    }
  }

  /** A table that holds a prefix of the listing (an older release), and no migrator yet. */
  ghost predicate Fresh(p: Primitives, files: seq<File>, sys: System, start: nat) {
    start <= |files| && Prefix(p, files, sys.db.recorded, start) && sys.db.executed == [] && sys.migrators == map[] && sys.logs == map[]
  }

  /** However any number of migrators interleave, retry and crash: what they executed is the next
      stretch of the sorted list, every file once, each recorded with its digest; and once any of
      them has returned, every file is recorded. */
  lemma MigrationsRunInOrderOnce(p: Primitives, files: seq<File>, sys: System, steps: seq<Step>, start: nat) returns (n: nat)
    requires UniqueNames(files) && Fresh(p, files, sys, start)
    ensures var sys' := DoAll(p, files, sys, steps);
            && start <= n <= |files| && sys'.db.executed == files[start..n]
            && Prefix(p, files, sys'.db.recorded, n)
            && (forall i, j :: 0 <= i < j < |sys'.db.executed| ==> sys'.db.executed[i] != sys'.db.executed[j])
            && (forall m :: StatusOf(sys', m).Returned? ==> n == |files|)
  {
    assert files[start..start] == [];
    n := RunKeepsInv(p, files, sys, steps, start);
    var sys' := DoAll(p, files, sys, steps);
    forall i, j | 0 <= i < j < |sys'.db.executed|
      ensures sys'.db.executed[i] != sys'.db.executed[j]
    {
      assert files[start + i].name != files[start + j].name;
    }
  }

  // ----- who returns -----

  /** The transactions m committed, and the failures it met since the last one. */
  function Transactions(steps: seq<Step>, m: nat): nat {
    if steps == [] then 0
    else Transactions(steps[..|steps| - 1], m) + (if steps[|steps| - 1] == Transact(m) then 1 else 0)
  }

  function Streak(steps: seq<Step>, m: nat): nat {
    if steps == [] || steps[|steps| - 1] == Transact(m) then 0
    else Streak(steps[..|steps| - 1], m) + (if steps[|steps| - 1].SerializationFailure? && steps[|steps| - 1].m == m then 1 else 0)
  }

  /** Until it has transacted every file, m neither crashes nor fails too often in a row. */
  ghost predicate Undisturbed(files: seq<File>, steps: seq<Step>, m: nat) {
    steps == []
    || (&& Undisturbed(files, steps[..|steps| - 1], m)
        && (Transactions(steps[..|steps| - 1], m) < |files| ==>
              !(steps[|steps| - 1].Crash? && steps[|steps| - 1].m == m) && Streak(steps, m) < MAX_SERIALIZATION_RETRIES))
  }

  /** Where m stands after the steps that follow its joining. */
  function Standing(files: seq<File>, steps: seq<Step>, m: nat): Migrator {
    if Transactions(steps, m) >= |files| then Returned else Working(Transactions(steps, m), Streak(steps, m))
  }

  /** Whatever the others do, every transaction of an undisturbed migrator moves it on by one file,
      and it returns as soon as it has made one for each; a disturbed one stops. */
  lemma {:induction false} ReturnsUnlessDisturbed(p: Primitives, files: seq<File>, sys: System, steps: seq<Step>, start: nat, m: nat)
    requires UniqueNames(files) && Fresh(p, files, sys, start)
    ensures m in DoAll(p, files, sys, [Join(m)] + steps).migrators
    ensures StatusOf(DoAll(p, files, sys, [Join(m)] + steps), m)
            == if Undisturbed(files, steps, m) then Standing(files, steps, m) else Stopped
    decreases |steps|
  {
    var all := [Join(m)] + steps;
    if steps == [] {
      assert all[..0] == [];
    } else {
      var init := steps[..|steps| - 1];
      assert all[..|all| - 1] == [Join(m)] + init;
      ReturnsUnlessDisturbed(p, files, sys, init, start, m);
      assert files[start..start] == [];
      var n := RunKeepsInv(p, files, sys, [Join(m)] + init, start);
      StepMoves(p, files, DoAll(p, files, sys, [Join(m)] + init), steps[|steps| - 1], start, n, m);
    }
  }

  /** What one step does to m's status. */
  lemma StepMoves(p: Primitives, files: seq<File>, sys: System, step: Step, start: nat, n: nat, m: nat)
    requires UniqueNames(files) && Inv(p, files, sys, start, n) && m in sys.migrators
    ensures var before := sys.migrators[m];
            StatusOf(Do(p, files, sys, step), m)
            == if step.m != m || !before.Working? || step.Join? then before
               else if step.Crash? then Stopped
               else if step.Transact? then (if before.position + 1 == |files| then Returned else Working(before.position + 1, 0))
               else if before.attempt == MAX_SERIALIZATION_RETRIES - 1 then Stopped
               else Working(before.position, before.attempt + 1)
  {
    if step.m == m && sys.migrators[m].Working? {
      NextFile(p, files, sys.db, n, sys.migrators[m].position);
    }
  }

  // ----- the lists of applied names -----

  predicate LogOk(log: Log) {
    && multiset(log.listed) == multiset(log.executed) + multiset(log.aborted)
    && (log.aborted == [] ==> log.listed == log.executed)
  }

  lemma NotedKeepsLogOk(log: Log, name: string, outcome: FileOutcome, committed: bool)
    requires LogOk(log)
    ensures LogOk(Noted(log, name, outcome, committed))
  {
  }

  /** A step leaves m's lists, or notes one file on them. */
  lemma StepNotes(p: Primitives, files: seq<File>, sys: System, step: Step, m: nat)
    ensures var log, log' := LogOf(sys, m), LogOf(Do(p, files, sys, step), m);
            log' == log || (exists f, outcome, committed :: log' == Noted(log, f, outcome, committed))
  {
  }

  lemma {:induction false} LogsStayOk(p: Primitives, files: seq<File>, sys: System, steps: seq<Step>, m: nat)
    requires sys.logs == map[]
    ensures LogOk(LogOf(DoAll(p, files, sys, steps), m))
    decreases |steps|
  {
    if steps != [] {
      var init, step := steps[..|steps| - 1], steps[|steps| - 1];
      LogsStayOk(p, files, sys, init, m);
      var mid := DoAll(p, files, sys, init);
      var log, log' := LogOf(mid, m), LogOf(Do(p, files, mid, step), m);
      StepNotes(p, files, mid, step, m);
      if log' != log {
        var f, outcome, committed :| log' == Noted(log, f, outcome, committed);
        NotedKeepsLogOk(log, f, outcome, committed);
      }
    }
  }

  /** However any number of migrators interleave, retry and crash over any table, each one's list
      holds what it executed and what it listed in vain, and equals what it executed exactly when no
      transaction of its own aborted after listing its file. */
  lemma ListedIsExecutedIff(p: Primitives, files: seq<File>, sys: System, steps: seq<Step>, m: nat)
    requires sys.logs == map[]
    ensures var log := LogOf(DoAll(p, files, sys, steps), m);
            && multiset(log.listed) == multiset(log.executed) + multiset(log.aborted)
            && (log.listed == log.executed <==> log.aborted == [])
  {
    LogsStayOk(p, files, sys, steps, m);
    var log := LogOf(DoAll(p, files, sys, steps), m);
    assert |multiset(log.listed)| == |multiset(log.executed)| + |multiset(log.aborted)|;
  }

  lemma DoAllAppends(p: Primitives, files: seq<File>, sys: System, steps: seq<Step>, step: Step)
    ensures DoAll(p, files, sys, steps + [step]) == Do(p, files, DoAll(p, files, sys, steps), step)
  {
    assert (steps + [step])[..|steps|] == steps;
  }

  const EMPTY := Database(map[], [])

  function AbortedLog(f: File): Log {
    Log([f.name], [], [f.name])
  }

  lemma BothJoin(p: Primitives, f: File)
    ensures Do(p, [f], Do(p, [f], System(EMPTY, map[], map[]), Join(0)), Join(1))
            == System(EMPTY, map[0 := Working(0, 0), 1 := Working(0, 0)], map[])
  {
  }

  lemma FirstAborts(p: Primitives, f: File)
    ensures Do(p, [f], System(EMPTY, map[0 := Working(0, 0), 1 := Working(0, 0)], map[]), SerializationFailure(0, Late))
            == System(EMPTY, map[0 := Working(0, 1), 1 := Working(0, 0)], map[0 := AbortedLog(f)])
  {
    assert [] + [f.name] == [f.name];
  }

  lemma SecondExecutes(p: Primitives, f: File)
    ensures Do(p, [f], System(EMPTY, map[0 := Working(0, 1), 1 := Working(0, 0)], map[0 := AbortedLog(f)]), Transact(1))
            == System(Database(map[f.name := FileDigest(p, f)], [f]), map[0 := Working(0, 1), 1 := Returned],
                      map[0 := AbortedLog(f), 1 := Log([f.name], [f.name], [])])
  {
    assert [] + [f.name] == [f.name] && [] + [f] == [f];
  }

  lemma FirstReturns(p: Primitives, f: File, logs: map<nat, Log>)
    requires 0 in logs
    ensures var db := Database(map[f.name := FileDigest(p, f)], [f]);
            Do(p, [f], System(db, map[0 := Working(0, 1), 1 := Returned], logs), Transact(0))
            == System(db, map[0 := Returned, 1 := Returned], logs)
  {
    assert logs[0 := logs[0]] == logs;
  }

  /** One file, two migrators: the first aborts at commit, the second executes the file, and the
      first returns with the file on its list without having executed it. */
  lemma ListedWithoutExecuting(p: Primitives, f: File)
    ensures var steps := [Join(0), Join(1), SerializationFailure(0, Late), Transact(1), Transact(0)];
            var sys := DoAll(p, [f], System(EMPTY, map[], map[]), steps);
            && StatusOf(sys, 0) == Returned && StatusOf(sys, 1) == Returned && sys.db.executed == [f]
            && LogOf(sys, 0) == Log([f.name], [], [f.name]) && LogOf(sys, 1) == Log([f.name], [f.name], [])
  {
    var start, steps := System(EMPTY, map[], map[]), [Join(0), Join(1), SerializationFailure(0, Late), Transact(1), Transact(0)];
    assert steps == [] + [Join(0)] + [Join(1)] + [SerializationFailure(0, Late)] + [Transact(1)] + [Transact(0)];
    DoAllAppends(p, [f], start, [], Join(0));
    DoAllAppends(p, [f], start, [] + [Join(0)], Join(1));
    DoAllAppends(p, [f], start, [] + [Join(0)] + [Join(1)], SerializationFailure(0, Late));
    DoAllAppends(p, [f], start, [] + [Join(0)] + [Join(1)] + [SerializationFailure(0, Late)], Transact(1));
    DoAllAppends(p, [f], start, [] + [Join(0)] + [Join(1)] + [SerializationFailure(0, Late)] + [Transact(1)], Transact(0));
    BothJoin(p, f);
    FirstAborts(p, f);
    SecondExecutes(p, f);
    FirstReturns(p, f, map[0 := AbortedLog(f), 1 := Log([f.name], [f.name], [])]);
  }

  // ----- any table, even one that holds files that have changed since -----

  predicate Current(p: Primitives, db: Database, f: File) {
    f.name in db.recorded && db.recorded[f.name] == FileDigest(p, f)
  }

  /** No entry is ever lost or overwritten, and each executed file is one that was not recorded,
      executed once and recorded as it is. */
  ghost predicate TableKept(p: Primitives, before: map<string, Digest>, db: Database) {
    && (forall name :: name in before ==> name in db.recorded && db.recorded[name] == before[name])
    && (forall f :: f in db.executed ==> Current(p, db, f) && f.name !in before)
    && UniqueNames(db.executed)
  }

  predicate ExecutedBy(sys: System, name: string, m: nat) {
    name in LogOf(sys, m).executed
  }

  ghost predicate WasExecuted(db: Database, name: string) {
    exists f :: f in db.executed && f.name == name
  }

  /** The migrators' lists of executed names share out the executed files. */
  ghost predicate SharedOut(sys: System) {
    && (forall f :: f in sys.db.executed ==> exists m :: ExecutedBy(sys, f.name, m))
    && (forall m, name :: ExecutedBy(sys, name, m) ==> WasExecuted(sys.db, name))
    && (forall m, m', name :: ExecutedBy(sys, name, m) && ExecutedBy(sys, name, m') ==> m == m')
    && (forall m, i, j :: 0 <= i < j < |LogOf(sys, m).executed| ==> LogOf(sys, m).executed[i] != LogOf(sys, m).executed[j])
  }

  /** What a migrator has passed is recorded as it is now. */
  ghost predicate Passed(p: Primitives, files: seq<File>, sys: System, m: nat) {
    var status := StatusOf(sys, m);
    && (status.Working? ==> status.position <= |files| && forall i :: 0 <= i < status.position ==> Current(p, sys.db, files[i]))
    && (status.Returned? ==> forall i :: 0 <= i < |files| ==> Current(p, sys.db, files[i]))
  }

  ghost predicate SameLists(sys: System, sys': System) {
    forall m :: LogOf(sys', m).executed == LogOf(sys, m).executed
  }

  /** A step in which m executes f. */
  ghost predicate Executes(p: Primitives, sys: System, sys': System, m: nat, f: File) {
    && f.name !in sys.db.recorded && sys'.db == Apply(p, sys.db, f).0
    && LogOf(sys', m).executed == LogOf(sys, m).executed + [f.name]
    && forall m' :: m' != m ==> LogOf(sys', m').executed == LogOf(sys, m').executed
  }

  lemma StepExecutes(p: Primitives, files: seq<File>, sys: System, step: Step)
    ensures var sys' := Do(p, files, sys, step);
            || (sys'.db == sys.db && SameLists(sys, sys'))
            || Executes(p, sys, sys', step.m, files[StatusOf(sys, step.m).position])
  {
  }

  lemma ExecutesKeepsTable(p: Primitives, before: map<string, Digest>, sys: System, sys': System, m: nat, f: File)
    requires TableKept(p, before, sys.db) && Executes(p, sys, sys', m, f)
    ensures TableKept(p, before, sys'.db)
  {
  }

  lemma ExecutesSharesOut(p: Primitives, before: map<string, Digest>, sys: System, sys': System, m: nat, f: File)
    requires TableKept(p, before, sys.db) && SharedOut(sys) && Executes(p, sys, sys', m, f)
    ensures SharedOut(sys')
  {
    forall m', name
      ensures ExecutedBy(sys', name, m') <==> ExecutedBy(sys, name, m') || (m' == m && name == f.name)
    {
    }
    assert !WasExecuted(sys.db, f.name);
    assert sys'.db.executed == sys.db.executed + [f];
    forall g | g in sys'.db.executed
      ensures exists m' :: ExecutedBy(sys', g.name, m')
    {
      if g in sys.db.executed {
        var m' :| ExecutedBy(sys, g.name, m');
        assert ExecutedBy(sys', g.name, m');
      } else {
        assert ExecutedBy(sys', f.name, m);
      }
    }
    forall m', name | ExecutedBy(sys', name, m')
      ensures WasExecuted(sys'.db, name)
    {
      if ExecutedBy(sys, name, m') {
        var g :| g in sys.db.executed && g.name == name;
        assert g in sys'.db.executed;
      } else {
        assert f in sys'.db.executed;
      }
    }
    assert !ExecutedBy(sys, f.name, m);
  }

  lemma StepKeepsPassed(p: Primitives, files: seq<File>, sys: System, step: Step, m: nat)
    requires Passed(p, files, sys, m)
    ensures Passed(p, files, Do(p, files, sys, step), m)
  {
  }

  lemma {:induction false} RunShares(p: Primitives, files: seq<File>, sys: System, steps: seq<Step>)
    requires sys.db.executed == [] && sys.migrators == map[] && sys.logs == map[]
    ensures var sys' := DoAll(p, files, sys, steps);
            TableKept(p, sys.db.recorded, sys'.db) && SharedOut(sys') && forall m :: Passed(p, files, sys', m)
    decreases |steps|
  {
    if steps != [] {
      var init, step := steps[..|steps| - 1], steps[|steps| - 1];
      RunShares(p, files, sys, init);
      var mid := DoAll(p, files, sys, init);
      var sys' := Do(p, files, mid, step);
      StepExecutes(p, files, mid, step);
      if sys'.db != mid.db || !SameLists(mid, sys') {
        var f := files[StatusOf(mid, step.m).position];
        ExecutesKeepsTable(p, sys.db.recorded, mid, sys', step.m, f);
        ExecutesSharesOut(p, sys.db.recorded, mid, sys', step.m, f);
      } else {
        assert forall name, m :: ExecutedBy(sys', name, m) <==> ExecutedBy(mid, name, m);
      }
      forall m
        ensures Passed(p, files, sys', m)
      {
        StepKeepsPassed(p, files, mid, step, m);
      }
    }
  }

  /** A migrator that finds a file recorded in another form stops there, and changes nothing. */
  lemma ChangedStops(p: Primitives, files: seq<File>, sys: System, m: nat)
    requires StatusOf(sys, m).Working? && StatusOf(sys, m).position < |files|
    requires var f := files[StatusOf(sys, m).position];
             f.name in sys.db.recorded && sys.db.recorded[f.name] != FileDigest(p, f)
    ensures forall step :: step in {Transact(m), SerializationFailure(m, Late)} ==>
              var sys' := Do(p, files, sys, step);
              StatusOf(sys', m) == Stopped && sys'.db == sys.db && LogOf(sys', m) == LogOf(sys, m)
  {
  }

  /** However any number of migrators interleave, retry and crash over any table: no entry is lost or
      overwritten; every executed file was unrecorded, is recorded now, and stands on exactly one
      migrator's list of executed names, once; and a migrator that returned leaves every file
      recorded as it is, so over a table that holds a file in another form none ever returns. */
  lemma AnyTableIsKept(p: Primitives, files: seq<File>, sys: System, steps: seq<Step>)
    requires sys.db.executed == [] && sys.migrators == map[] && sys.logs == map[]
    ensures var sys' := DoAll(p, files, sys, steps);
            && TableKept(p, sys.db.recorded, sys'.db) && SharedOut(sys')
            && (forall m, i :: StatusOf(sys', m).Returned? && 0 <= i < |files| ==> Current(p, sys'.db, files[i]))
            && (forall m, i :: 0 <= i < |files| && files[i].name in sys.db.recorded
                               && sys.db.recorded[files[i].name] != FileDigest(p, files[i])
                               ==> !StatusOf(sys', m).Returned?)
  {
    RunShares(p, files, sys, steps);
    var sys' := DoAll(p, files, sys, steps);
    forall m, i | StatusOf(sys', m).Returned? && 0 <= i < |files|
      ensures Current(p, sys'.db, files[i])
    {
      assert Passed(p, files, sys', m);
    }
  }
}
