/** The command-line database installer: it tests the connection, reads the SQL script,
    runs every statement in it, INSERTs included, counting successes and failures, and
    looks for the expected tables only when nothing failed. */
module InitDatabase {
  import opened Wrappers
  import opened Text
  import opened SqlScript
  import Setup

  /** The two counters of the loop, and the statements it sent to executeSQL. */
  datatype InitTally = InitTally(successCount: nat, errorCount: nat, attempted: seq<string>)

  /** One turn of the loop: the statement is trimmed and passed over when it is empty or a
      comment; otherwise it runs, and anything but success is an error, whether executeSQL
      answered false or the connection Exception reached the loop's catch. */
  function InitStep(t: InitTally, piece: string, outcome: ExecOutcome): InitTally {
    var stmt := Trim(PhpTrim, piece);
    if Skipped(stmt) then t
    else if outcome == Executed then InitTally(t.successCount + 1, t.errorCount, t.attempted + [stmt])
    else InitTally(t.successCount, t.errorCount + 1, t.attempted + [stmt])
  }

  /** The loop's state after the statements `stmts`; `outcome(i)` is what executeSQL does
      with the statement at position `i`. */
  function InitRun(stmts: seq<string>, outcome: nat -> ExecOutcome): (t: InitTally)
    ensures t.successCount + t.errorCount == |t.attempted| <= |stmts|
    decreases |stmts|
  {
    if stmts == [] then InitTally(0, 0, [])
    else InitStep(InitRun(stmts[..|stmts| - 1], outcome), stmts[|stmts| - 1], outcome(|stmts| - 1))
  }

  lemma InitRunSnoc(stmts: seq<string>, i: nat, outcome: nat -> ExecOutcome)
    requires i < |stmts|
    ensures InitRun(stmts[..i + 1], outcome) == InitStep(InitRun(stmts[..i], outcome), stmts[i], outcome(i))
  {
    assert stmts[..i + 1][..i] == stmts[..i];
  }

  /** The statements that are not passed over, trimmed, in script order. */
  function Runnable(stmts: seq<string>): (r: seq<string>)
    ensures forall i :: 0 <= i < |r| ==> !Skipped(r[i])
    decreases |stmts|
  {
    if stmts == [] then []
    else
      var stmt := Trim(PhpTrim, stmts[|stmts| - 1]);
      Runnable(stmts[..|stmts| - 1]) + (if Skipped(stmt) then [] else [stmt])
  }

  /** Every statement that is not passed over is run, whatever happened to the ones before. */
  lemma {:induction false} RunsEveryStatement(stmts: seq<string>, outcome: nat -> ExecOutcome)
    ensures InitRun(stmts, outcome).attempted == Runnable(stmts)
    decreases |stmts|
  {
    if stmts != [] {
      RunsEveryStatement(stmts[..|stmts| - 1], outcome);
    }
  }

  /** The statement at position `i` is run: it is not passed over. */
  predicate Runs(stmts: seq<string>, i: int)
    requires 0 <= i < |stmts|
  {
    !Skipped(Trim(PhpTrim, stmts[i]))
  }

  /** errorCount is zero exactly when every statement that runs succeeds. */
  lemma {:induction false} NoErrorsIff(stmts: seq<string>, outcome: nat -> ExecOutcome)
    ensures InitRun(stmts, outcome).errorCount == 0 <==>
      forall i :: 0 <= i < |stmts| && Runs(stmts, i) ==> outcome(i) == Executed
    decreases |stmts|
  {
    if stmts != [] {
      var n := |stmts| - 1;
      var init := stmts[..n];
      NoErrorsIff(init, outcome);
      assert forall i :: 0 <= i < n ==> Runs(init, i) == Runs(stmts, i) by {
        forall i | 0 <= i < n ensures Runs(init, i) == Runs(stmts, i) {
          assert init[i] == stmts[i];
        }
      }
    }
  }

  /** The statements of setup's createTables are this installer's, INSERTs left out. */
  function WithoutInserts(stmts: seq<string>): seq<string>
    decreases |stmts|
  {
    if stmts == [] then []
    else WithoutInserts(stmts[..|stmts| - 1]) + (if Setup.IsInsert(stmts[|stmts| - 1]) then [] else [stmts[|stmts| - 1]])
  }

  lemma WithoutInsertsSnoc(stmts: seq<string>, stmt: string)
    ensures WithoutInserts(stmts + [stmt]) == WithoutInserts(stmts) + (if Setup.IsInsert(stmt) then [] else [stmt])
  {
    assert (stmts + [stmt])[..|stmts|] == stmts;
  }

  /** Both installers send the same statements in the same order, except that the setup
      endpoint holds back every INSERT; neither list depends on how earlier statements fared. */
  lemma {:induction false} SetupHoldsBackInserts(stmts: seq<string>, setupOutcome: nat -> ExecOutcome, initOutcome: nat -> ExecOutcome)
    ensures Setup.CreateRun(stmts, setupOutcome).attempted == WithoutInserts(InitRun(stmts, initOutcome).attempted)
    decreases |stmts|
  {
    if stmts != [] {
      var n := |stmts| - 1;
      SetupHoldsBackInserts(stmts[..n], setupOutcome, initOutcome);
      var created := Setup.CreateRun(stmts[..n], setupOutcome);
      var before := InitRun(stmts[..n], initOutcome);
      var stmt := Trim(PhpTrim, stmts[n]);
      assert Setup.CreateRun(stmts, setupOutcome) == Setup.CreateStep(created, stmts[n], setupOutcome(n));
      assert InitRun(stmts, initOutcome) == InitStep(before, stmts[n], initOutcome(n));
      if Skipped(stmt) {
        assert Setup.CreateStep(created, stmts[n], setupOutcome(n)).attempted == created.attempted;
        assert InitStep(before, stmts[n], initOutcome(n)).attempted == before.attempted;
      } else {
        assert InitStep(before, stmts[n], initOutcome(n)).attempted == before.attempted + [stmt];
        WithoutInsertsSnoc(before.attempted, stmt);
        if Setup.IsInsert(stmt) {
          assert Setup.CreateStep(created, stmts[n], setupOutcome(n)).attempted == created.attempted;
        } else {
          assert Setup.CreateStep(created, stmts[n], setupOutcome(n)).attempted == created.attempted + [stmt];
        }
      }
    }
  }

  // ---------------------------------------------------------------- verifyTables

  /** The tables among `tables` that exist, in order. */
  function Existing(tables: seq<string>, present: string -> bool): (r: seq<string>)
    ensures |r| <= |tables|
    decreases |tables|
  {
    if tables == [] then []
    else
      var last := tables[|tables| - 1];
      Existing(tables[..|tables| - 1], present) + (if present(last) then [last] else [])
  }

  /** A table is listed exactly when it is one of those looked for and it exists. */
  lemma {:induction false} ExistingIff(tables: seq<string>, present: string -> bool, t: string)
    ensures t in Existing(tables, present) <==> t in tables && present(t)
    decreases |tables|
  {
    if tables != [] {
      var init := tables[..|tables| - 1];
      ExistingIff(init, present, t);
      assert tables == init + [tables[|tables| - 1]];
    }
  }

  /** verifyTables: collect the expected tables that exist. The default data counts it then
      reads are only printed. */
  method VerifyTables(present: string -> bool) returns (existing: seq<string>)
    ensures existing == Existing(ExpectedTables, present)
  {
    existing := [];
    var i := 0;
    while i < |ExpectedTables|
      invariant 0 <= i <= |ExpectedTables|
      invariant existing == Existing(ExpectedTables[..i], present)
    {
      assert ExpectedTables[..i + 1][..i] == ExpectedTables[..i];
      if present(ExpectedTables[i]) {
        existing := existing + [ExpectedTables[i]];
      }
      i := i + 1;
    }
    assert ExpectedTables[..i] == ExpectedTables;
  }

  // ---------------------------------------------------------------- initialize

  datatype InitReport =
    | NotConnected
    | FileMissing
    | FileUnreadable
    /** The loop ran: its counters, what it sent, and the tables found when they were looked for. */
    | Ran(successCount: nat, errorCount: nat, attempted: seq<string>, existing: Option<seq<string>>)

  /** initialize: `reachable` is testConnection(), `file` what is found at the script's path. */
  method Initialize(reachable: bool, file: ScriptFile, outcome: nat -> ExecOutcome, present: string -> bool)
    returns (ok: bool, report: InitReport)
    ensures !reachable ==> report == NotConnected
    ensures reachable && file.Missing? ==> report == FileMissing
    ensures reachable && file.Unreadable? ==> report == FileUnreadable
    ensures reachable && file.Contents? ==>
      var t := InitRun(SplitSQL(file.sql), outcome);
      report == Ran(t.successCount, t.errorCount, t.attempted,
                    if t.errorCount == 0 then Some(Existing(ExpectedTables, present)) else None)
    ensures ok <==> report.Ran? && report.errorCount == 0
  {
    if !reachable {
      return false, NotConnected;
    }
    if file.Missing? {
      return false, FileMissing;
    }
    if file.Unreadable? {
      return false, FileUnreadable;
    }
    var stmts := SplitSQL(file.sql);
    var successCount := 0;
    var errorCount := 0;
    var attempted := [];
    var i := 0;
    while i < |stmts|
      invariant 0 <= i <= |stmts|
      invariant InitRun(stmts[..i], outcome) == InitTally(successCount, errorCount, attempted)
    {
      InitRunSnoc(stmts, i, outcome);
      var stmt := Trim(PhpTrim, stmts[i]);
      if !Skipped(stmt) {
        attempted := attempted + [stmt];
        if outcome(i) == Executed {
          successCount := successCount + 1;
        } else {
          errorCount := errorCount + 1;
        }
      }
      i := i + 1;
    }
    assert stmts[..i] == stmts;
    if errorCount == 0 {
      var existing := VerifyTables(present);
      return true, Ran(successCount, errorCount, attempted, Some(existing));
    }
    return false, Ran(successCount, errorCount, attempted, None);
  }
}
