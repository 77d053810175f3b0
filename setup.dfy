/** The database setup endpoint: four actions that check the connection, run the table
    definitions of the SQL script, insert the default rows and report what exists. The
    database is given as the outcomes of the calls the endpoint makes into it. */
module Setup {
  import opened Wrappers
  import opened Text
  import opened Php
  import opened SqlScript

  const SqlFileNotFound := "SQL file not found"
  const SqlFileUnreadable := "Failed to read SQL file"
  const InvalidActionMessage := "Invalid action"

  // ---------------------------------------------------------------- createTables

  /** stripos($stmt, 'INSERT INTO') === 0: the prefix compared without regard to case. */
  predicate IsInsert(stmt: string) {
    StartsWith(Lower(stmt), "insert into")
  }

  /** stripos($stmt, 'CREATE TABLE') === 0. */
  predicate IsCreateTable(stmt: string) {
    StartsWith(Lower(stmt), "create table")
  }

  /** A statement createTables hands to executeSQL. */
  predicate Attempted(stmt: string) {
    !Skipped(stmt) && !IsInsert(stmt)
  }

  /** The counters of the createTables loop, and the statements it sent to executeSQL. */
  datatype CreateTally = CreateTally(created: nat, errors: seq<string>, attempted: seq<string>)

  /** One turn of the createTables loop: the statement is trimmed, passed over when it is
      empty, a comment or an INSERT, and otherwise handed to executeSQL with `outcome`. Only
      a lost connection adds an error: a statement the database rejects is answered false
      by executeSQL and simply not counted. */
  function CreateStep(t: CreateTally, piece: string, outcome: ExecOutcome): CreateTally {
    var stmt := Trim(PhpTrim, piece);
    if !Attempted(stmt) then t
    else
      var tried := t.attempted + [stmt];
      match outcome
      case Executed => CreateTally(t.created + (if IsCreateTable(stmt) then 1 else 0), t.errors, tried)
      case Rejected => CreateTally(t.created, t.errors, tried)
      case ConnectionLost => CreateTally(t.created, t.errors + [ConnectionFailedMessage], tried)
  }

  /** The loop's state after the statements `stmts`; `outcome(i)` is what executeSQL does
      with the statement at position `i`. */
  function CreateRun(stmts: seq<string>, outcome: nat -> ExecOutcome): (t: CreateTally)
    ensures forall i :: 0 <= i < |t.attempted| ==> Attempted(t.attempted[i])
    ensures forall i :: 0 <= i < |t.errors| ==> t.errors[i] == ConnectionFailedMessage
    ensures t.created + |t.errors| <= |t.attempted| <= |stmts|
    decreases |stmts|
  {
    if stmts == [] then CreateTally(0, [], [])
    else CreateStep(CreateRun(stmts[..|stmts| - 1], outcome), stmts[|stmts| - 1], outcome(|stmts| - 1))
  }

  lemma CreateRunSnoc(stmts: seq<string>, i: nat, outcome: nat -> ExecOutcome)
    requires i < |stmts|
    ensures CreateRun(stmts[..i + 1], outcome) == CreateStep(CreateRun(stmts[..i], outcome), stmts[i], outcome(i))
  {
    assert stmts[..i + 1][..i] == stmts[..i];
  }

  /** How many of the statements, trimmed, start with CREATE TABLE. */
  function CreateStatements(stmts: seq<string>): nat
    decreases |stmts|
  {
    if stmts == [] then 0
    else CreateStatements(stmts[..|stmts| - 1]) + (if IsCreateTable(Trim(PhpTrim, stmts[|stmts| - 1])) then 1 else 0)
  }

  /** A CREATE TABLE statement is neither passed over nor taken for an INSERT. */
  lemma CreateTableAttempted(stmt: string)
    requires IsCreateTable(stmt)
    ensures Attempted(stmt)
  {
    assert Lower(stmt)[0] == 'c';
    assert stmt[0] == 'c' || stmt[0] == 'C';
  }

  /** tables_created never exceeds the number of CREATE TABLE statements ... */
  lemma {:induction false} CreatedAtMost(stmts: seq<string>, outcome: nat -> ExecOutcome)
    ensures CreateRun(stmts, outcome).created <= CreateStatements(stmts)
    decreases |stmts|
  {
    if stmts != [] {
      var init := stmts[..|stmts| - 1];
      CreatedAtMost(init, outcome);
      var stmt := Trim(PhpTrim, stmts[|stmts| - 1]);
      assert CreateRun(stmts, outcome) == CreateStep(CreateRun(init, outcome), stmts[|stmts| - 1], outcome(|stmts| - 1));
      assert CreateStatements(stmts) == CreateStatements(init) + (if IsCreateTable(stmt) then 1 else 0);
    }
  }

  /** ... and reaches it when every statement runs. */
  lemma {:induction false} CreatedAll(stmts: seq<string>, outcome: nat -> ExecOutcome)
    requires forall i :: 0 <= i < |stmts| ==> outcome(i) == Executed
    ensures CreateRun(stmts, outcome).created == CreateStatements(stmts)
    decreases |stmts|
  {
    if stmts != [] {
      var init := stmts[..|stmts| - 1];
      CreatedAll(init, outcome);
      var stmt := Trim(PhpTrim, stmts[|stmts| - 1]);
      if IsCreateTable(stmt) {
        CreateTableAttempted(stmt);
      }
      assert outcome(|stmts| - 1) == Executed;
      assert CreateRun(stmts, outcome) == CreateStep(CreateRun(init, outcome), stmts[|stmts| - 1], Executed);
      assert CreateStatements(stmts) == CreateStatements(init) + (if IsCreateTable(stmt) then 1 else 0);
    }
  }

  /** The errors list stays empty unless the connection itself is lost: a statement the
      database rejects goes unreported. */
  lemma {:induction false} ErrorsOnlyFromConnection(stmts: seq<string>, outcome: nat -> ExecOutcome)
    requires forall i :: 0 <= i < |stmts| ==> outcome(i) != ConnectionLost
    ensures CreateRun(stmts, outcome).errors == []
    decreases |stmts|
  {
    if stmts != [] {
      ErrorsOnlyFromConnection(stmts[..|stmts| - 1], outcome);
    }
  }

  /** Every statement is rejected: nothing is created and nothing is reported. */
  lemma {:induction false} RejectionsUnreported(stmts: seq<string>, outcome: nat -> ExecOutcome)
    requires forall i :: 0 <= i < |stmts| ==> outcome(i) == Rejected
    ensures CreateRun(stmts, outcome).created == 0 && CreateRun(stmts, outcome).errors == []
    decreases |stmts|
  {
    if stmts != [] {
      RejectionsUnreported(stmts[..|stmts| - 1], outcome);
    }
  }

  datatype CreateResult = CreateFailed(message: string) | Created(tablesCreated: nat, errors: seq<string>)

  /** What createTables answers for the script file. */
  function CreateReport(file: ScriptFile, outcome: nat -> ExecOutcome): CreateResult {
    match file
    case Missing => CreateFailed(SqlFileNotFound)
    case Unreadable => CreateFailed(SqlFileUnreadable)
    case Contents(sql) =>
      var t := CreateRun(SplitSQL(sql), outcome);
      Created(t.created, t.errors)
  }

  /** createTables: run every statement of the script except INSERTs, counting the CREATE
      TABLE statements that ran. `attempted` lists what was handed to executeSQL. */
  method CreateTables(file: ScriptFile, outcome: nat -> ExecOutcome) returns (r: CreateResult, attempted: seq<string>)
    ensures r == CreateReport(file, outcome)
    ensures file.Contents? ==> attempted == CreateRun(SplitSQL(file.sql), outcome).attempted
    ensures !file.Contents? ==> attempted == []
  {
    if file.Missing? {
      return CreateFailed(SqlFileNotFound), [];
    }
    if file.Unreadable? {
      return CreateFailed(SqlFileUnreadable), [];
    }
    var stmts := SplitSQL(file.sql);
    var tablesCreated := 0;
    var errors := [];
    attempted := [];
    var i := 0;
    while i < |stmts|
      invariant 0 <= i <= |stmts|
      invariant CreateRun(stmts[..i], outcome) == CreateTally(tablesCreated, errors, attempted)
    {
      CreateRunSnoc(stmts, i, outcome);
      var stmt := Trim(PhpTrim, stmts[i]);
      if Attempted(stmt) {
        attempted := attempted + [stmt];
        match outcome(i)
        case Executed =>
          if IsCreateTable(stmt) {
            tablesCreated := tablesCreated + 1;
          }
        case Rejected =>
        case ConnectionLost =>
          errors := errors + [ConnectionFailedMessage];
      }
      i := i + 1;
    }
    assert stmts[..i] == stmts;
    r := Created(tablesCreated, errors);
  }

  /** For a script of plain statements that all run, tables_created is the number of CREATE
      TABLE statements in it and no error is reported. */
  lemma ScriptCreatesItsTables(stmts: seq<string>, outcome: nat -> ExecOutcome)
    requires forall i :: 0 <= i < |stmts| ==> Plain(stmts[i])
    requires forall i :: 0 <= i < |stmts| ==> outcome(i) == Executed
    ensures CreateReport(Contents(Script(stmts)), outcome) == Created(CreateStatements(stmts), [])
  {
    var sql := Script(stmts);
    SplitScriptRoundTrip(stmts);
    assert SplitSQL(sql) == stmts;
    CreatedAll(stmts, outcome);
    ErrorsOnlyFromConnection(stmts, outcome);
    var t := CreateRun(stmts, outcome);
    assert CreateReport(Contents(sql), outcome) == Created(t.created, t.errors);
  }

  // ---------------------------------------------------------------- verifySetup

  /** How many of `tables` exist. */
  function Found(tables: seq<string>, present: string -> bool): nat
    decreases |tables|
  {
    if tables == [] then 0
    else Found(tables[..|tables| - 1], present) + (if present(tables[|tables| - 1]) then 1 else 0)
  }

  /** The count never exceeds the number of tables, and reaches it exactly when all exist. */
  lemma {:induction false} FoundBounds(tables: seq<string>, present: string -> bool)
    ensures Found(tables, present) <= |tables|
    ensures Found(tables, present) == |tables| <==> forall i :: 0 <= i < |tables| ==> present(tables[i])
    decreases |tables|
  {
    if tables != [] {
      var init := tables[..|tables| - 1];
      FoundBounds(init, present);
      if forall i :: 0 <= i < |tables| ==> present(tables[i]) {
        assert forall i :: 0 <= i < |init| ==> present(init[i]) by {
          forall i | 0 <= i < |init| ensures present(init[i]) {
            assert init[i] == tables[i];
          }
        }
      } else {
        var j :| 0 <= j < |tables| && !present(tables[j]);
        if j < |init| {
          assert init[j] == tables[j];
        }
      }
    }
  }

  /** The three counts the report reads back: admin users, templates and resources. */
  datatype DefaultCounts = DefaultCounts(adminUsers: int, templates: int, resources: int)

  datatype VerifyResult =
    | VerifyFailed(message: string)
    | SetupReport(tablesFound: nat, tablesExpected: nat, counts: DefaultCounts)

  const VerificationError := "Verification error: "

  /** What verifySetup answers: `connected` says whether getConnection succeeds, `counts`
      what the three COUNT queries return or the message of the exception one throws. */
  function VerifyReport(connected: bool, present: string -> bool, counts: Result<DefaultCounts, string>): VerifyResult {
    if !connected then VerifyFailed(VerificationError + ConnectionFailedMessage)
    else match counts
      case Failure(message) => VerifyFailed(VerificationError + message)
      case Success(c) => SetupReport(Found(ExpectedTables, present), |ExpectedTables|, c)
  }

  /** verifySetup: count the expected tables that exist, then read the default data counts. */
  method VerifySetup(connected: bool, present: string -> bool, counts: Result<DefaultCounts, string>)
    returns (r: VerifyResult)
    ensures r == VerifyReport(connected, present, counts)
  {
    if !connected {
      return VerifyFailed(VerificationError + ConnectionFailedMessage);
    }
    var tablesFound := 0;
    var i := 0;
    while i < |ExpectedTables|
      invariant 0 <= i <= |ExpectedTables|
      invariant tablesFound == Found(ExpectedTables[..i], present)
    {
      assert ExpectedTables[..i + 1][..i] == ExpectedTables[..i];
      if present(ExpectedTables[i]) {
        tablesFound := tablesFound + 1;
      }
      i := i + 1;
    }
    assert ExpectedTables[..i] == ExpectedTables;
    match counts
    case Failure(message) =>
      r := VerifyFailed(VerificationError + message);
    case Success(c) =>
      r := SetupReport(tablesFound, |ExpectedTables|, c);
  }

  /** The report counts out of ten tables, and says ten exactly when all of them exist. */
  lemma ReportOutOfTen(connected: bool, present: string -> bool, counts: Result<DefaultCounts, string>)
    ensures VerifyReport(connected, present, counts).SetupReport? ==>
      var r := VerifyReport(connected, present, counts);
      r.tablesExpected == 10 && r.tablesFound <= 10 &&
      (r.tablesFound == 10 <==> forall t :: t in ExpectedTables ==> present(t))
    ensures VerifyReport(connected, present, counts).SetupReport? <==> connected && counts.Success?
  {
    FoundBounds(ExpectedTables, present);
  }

  // ---------------------------------------------------------------- insertDefaultData

  /** The parameters bound to one INSERT. The template data and the tags are JSON texts in
      the source; here they are the values encoded. */
  datatype Insert =
    | AdminRow(passwordHash: string)
    | TemplateRow(name: string, businessType: string, industry: string, location: string, summary: string)
    | ResourceRow(title: string, description: string, category: string, resourceType: string, tags: seq<string>)

  datatype TemplateSeed = TemplateSeed(name: string, businessType: string, industry: string, location: string)
  datatype ResourceSeed = ResourceSeed(title: string, description: string, category: string, resourceType: string)

  const AdminPassword := "admin123"

  const TemplateSeeds: seq<TemplateSeed> := [
    TemplateSeed("Mountain Hiking Tours", "Tourism", "Adventure Tourism", "Musanze"),
    TemplateSeed("Volcano Trekking", "Tourism", "Adventure Tourism", "Musanze"),
    TemplateSeed("Local Restaurant", "Food & Beverage", "Restaurant", "Musanze"),
    TemplateSeed("Eco-lodges", "Hospitality", "Eco-tourism", "Musanze"),
    TemplateSeed("Food Processing", "Manufacturing", "Food Processing", "Musanze"),
    TemplateSeed("Coffee Processing", "Manufacturing", "Coffee Processing", "Musanze")
  ]

  const ResourceSeeds: seq<ResourceSeed> := [
    ResourceSeed("Market Research Guide", "Comprehensive guide to conducting market research for startups", "Research", "guide"),
    ResourceSeed("Legal Requirements Checklist", "Essential legal requirements for starting a business in Rwanda", "Legal", "checklist"),
    ResourceSeed("Marketing Strategy Framework", "Step-by-step framework for developing marketing strategies", "Marketing", "framework"),
    ResourceSeed("Financial Projections Template", "Excel template for creating financial projections", "Finance", "template"),
    ResourceSeed("Business Plan Structure", "Complete business plan structure and guidelines", "Planning", "template"),
    ResourceSeed("Funding Strategy Toolkit", "Tools and strategies for securing business funding", "Funding", "toolkit")
  ]

  function TemplateInsert(t: TemplateSeed): Insert {
    TemplateRow(t.name, t.businessType, t.industry, t.location, t.name + " business plan")
  }

  function ResourceInsert(r: ResourceSeed): Insert {
    ResourceRow(r.title, r.description, r.category, r.resourceType, [Lower(r.category), "startup", "business"])
  }

  /** The template INSERTs, in the order of the seed list. */
  function TemplateRows(): (rows: seq<Insert>)
    ensures |rows| == |TemplateSeeds|
    ensures forall i :: 0 <= i < |rows| ==> rows[i] == TemplateInsert(TemplateSeeds[i])
  {
    seq(|TemplateSeeds|, i requires 0 <= i < |TemplateSeeds| => TemplateInsert(TemplateSeeds[i]))
  }

  /** The resource INSERTs, in the order of the seed list. */
  function ResourceRows(): (rows: seq<Insert>)
    ensures |rows| == |ResourceSeeds|
    ensures forall i :: 0 <= i < |rows| ==> rows[i] == ResourceInsert(ResourceSeeds[i])
  {
    seq(|ResourceSeeds|, i requires 0 <= i < |ResourceSeeds| => ResourceInsert(ResourceSeeds[i]))
  }

  /** Every INSERT the action executes, in order, when none fails. */
  function DefaultRows(adminHash: string): (rows: seq<Insert>)
    ensures |rows| == 13
  {
    [AdminRow(adminHash)] + TemplateRows() + ResourceRows()
  }

  /** The position of the first INSERT among the first `n` whose execute throws. */
  function FirstFailure(execute: nat -> Option<string>, n: nat): (k: Option<nat>)
    ensures k.Some? ==> k.value < n && execute(k.value).Some? && forall j :: 0 <= j < k.value ==> execute(j).None?
    ensures k.None? ==> forall j :: 0 <= j < n ==> execute(j).None?
  {
    if n == 0 then None
    else match FirstFailure(execute, n - 1)
      case Some(k) => Some(k)
      case None => if execute(n - 1).Some? then Some(n - 1) else None
  }

  datatype InsertResult = InsertFailed(message: string) | Inserted(adminUsers: nat, templates: nat, resources: nat)

  const InsertionError := "Data insertion error: "

  /** What insertDefaultData answers. PDO throws on a failed execute, so the counters can
      only end at one admin, six templates and six resources, or not be reported at all. */
  function InsertReport(connected: bool, execute: nat -> Option<string>): InsertResult {
    if !connected then InsertFailed(InsertionError + ConnectionFailedMessage)
    else match FirstFailure(execute, 13)
      case Some(k) => InsertFailed(InsertionError + execute(k).value)
      case None => Inserted(1, |TemplateSeeds|, |ResourceSeeds|)
  }

  /** insertDefaultData: one admin account, then the templates, then the resources, each
      INSERT counted when its execute succeeds; `execute(i)` is the message of the exception
      the i-th execute throws, if it throws. `inserted` lists the rows executed. */
  method InsertDefaultData(connected: bool, hash: string -> string, execute: nat -> Option<string>)
    returns (r: InsertResult, inserted: seq<Insert>)
    ensures r == InsertReport(connected, execute)
    ensures r.Inserted? ==> inserted == DefaultRows(hash(AdminPassword))
    ensures connected && r.InsertFailed? ==>
      inserted == DefaultRows(hash(AdminPassword))[..FirstFailure(execute, 13).value]
    ensures !connected ==> inserted == []
  {
    if !connected {
      return InsertFailed(InsertionError + ConnectionFailedMessage), [];
    }
    var admin := AdminRow(hash(AdminPassword));
    var rows := DefaultRows(hash(AdminPassword));
    if execute(0).Some? {
      FirstFailureAt(execute, 0, 13);
      return InsertFailed(InsertionError + execute(0).value), [];
    }
    var adminUsers := 1;
    var templates := 0;
    while templates < |TemplateSeeds|
      invariant 0 <= templates <= |TemplateSeeds|
      invariant forall j :: 0 <= j < 1 + templates ==> execute(j).None?
    {
      if execute(1 + templates).Some? {
        FirstFailureAt(execute, 1 + templates, 13);
        TemplatePrefix(hash(AdminPassword), templates);
        return InsertFailed(InsertionError + execute(1 + templates).value), [admin] + TemplateRows()[..templates];
      }
      templates := templates + 1;
    }
    var resources := 0;
    while resources < |ResourceSeeds|
      invariant 0 <= resources <= |ResourceSeeds|
      invariant forall j :: 0 <= j < 7 + resources ==> execute(j).None?
    {
      if execute(7 + resources).Some? {
        FirstFailureAt(execute, 7 + resources, 13);
        ResourcePrefix(hash(AdminPassword), resources);
        return InsertFailed(InsertionError + execute(7 + resources).value), [admin] + TemplateRows() + ResourceRows()[..resources];
      }
      resources := resources + 1;
    }
    assert FirstFailure(execute, 13).None?;
    r := Inserted(adminUsers, templates, resources);
    inserted := rows;
  }

  /** The rows executed before the template at `t` fails. */
  lemma TemplatePrefix(adminHash: string, t: nat)
    requires t <= |TemplateSeeds|
    ensures DefaultRows(adminHash)[..1 + t] == [AdminRow(adminHash)] + TemplateRows()[..t]
  {
  }

  /** The rows executed before the resource at `t` fails. */
  lemma ResourcePrefix(adminHash: string, t: nat)
    requires t <= |ResourceSeeds|
    ensures DefaultRows(adminHash)[..7 + t] == [AdminRow(adminHash)] + TemplateRows() + ResourceRows()[..t]
  {
  }

  /** The first failure is the one no earlier INSERT precedes. */
  lemma FirstFailureAt(execute: nat -> Option<string>, k: nat, n: nat)
    requires k < n && execute(k).Some? && forall j :: 0 <= j < k ==> execute(j).None?
    ensures FirstFailure(execute, n) == Some(k)
  {
    match FirstFailure(execute, n)
    case None =>
    case Some(j) =>
      assert !(j < k) && !(k < j);
  }

  /** When the action succeeds it reports one admin, six templates and six resources, even
      where the rows were there already: the INSERTs update duplicates instead of failing. */
  lemma InsertCountsFixed(connected: bool, execute: nat -> Option<string>)
    ensures InsertReport(connected, execute).Inserted? <==>
      connected && forall j :: 0 <= j < 13 ==> execute(j).None?
    ensures InsertReport(connected, execute).Inserted? ==> InsertReport(connected, execute) == Inserted(1, 6, 6)
  {
    if connected && forall j :: 0 <= j < 13 ==> execute(j).None? {
      assert FirstFailure(execute, 13).None?;
    }
  }

  /** Every template seeded is one of Musanze's, and every resource is tagged with its own
      category, lower-cased, and as a startup business resource. */
  lemma DefaultRowsShape(adminHash: string)
    ensures DefaultRows(adminHash)[0] == AdminRow(adminHash)
    ensures forall i :: 1 <= i < 7 ==> DefaultRows(adminHash)[i].TemplateRow? && DefaultRows(adminHash)[i].location == "Musanze"
    ensures forall i :: 7 <= i < 13 ==>
      (DefaultRows(adminHash)[i].ResourceRow? &&
       DefaultRows(adminHash)[i].tags == [Lower(DefaultRows(adminHash)[i].category), "startup", "business"])
  {
    var rows := DefaultRows(adminHash);
    forall i | 1 <= i < 7 ensures rows[i].TemplateRow? && rows[i].location == "Musanze" {
      assert rows[i] == TemplateInsert(TemplateSeeds[i - 1]);
    }
    forall i | 7 <= i < 13 ensures rows[i].ResourceRow? && rows[i].tags == [Lower(rows[i].category), "startup", "business"] {
      assert rows[i] == ResourceInsert(ResourceSeeds[i - 7]);
    }
  }

  // ---------------------------------------------------------------- checkConnection

  /** getDatabaseInfo's array: server version, database name, host and charset. */
  datatype DbInfo = DbInfo(version: string, database: string, host: string, charset: string)

  datatype ConnectionReport = ConnectionFailed | Connected(info: Option<DbInfo>)

  /** checkConnection: `reachable` is testConnection(); `info` is getDatabaseInfo(), which
      answers null when its own queries fail. Success depends on the test alone, so a
      reachable database whose information cannot be read is reported with data null. */
  function CheckConnection(reachable: bool, info: Option<DbInfo>): (r: ConnectionReport)
    ensures r.Connected? <==> reachable
    ensures r.Connected? ==> r.info == info
  {
    if !reachable then ConnectionFailed else Connected(info)
  }

  // ---------------------------------------------------------------- the endpoint

  /** Everything the endpoint learns from the database and the file system. */
  datatype Server = Server(
    reachable: bool, info: Option<DbInfo>, file: ScriptFile, outcome: nat -> ExecOutcome,
    connected: bool, present: string -> bool, counts: Result<DefaultCounts, string>,
    hash: string -> string, execute: nat -> Option<string>)

  datatype SetupResponse =
    | Preflight
    | ConnectionAnswer(connection: ConnectionReport)
    | CreateAnswer(create: CreateResult)
    | InsertAnswer(insert: InsertResult)
    | VerifyAnswer(verify: VerifyResult)
    | InvalidAction

  /** The `success` field of the JSON answer (every answer is sent with status 200). */
  predicate Succeeded(r: SetupResponse) {
    match r
    case Preflight => true
    case ConnectionAnswer(c) => c.Connected?
    case CreateAnswer(c) => c.Created?
    case InsertAnswer(i) => i.Inserted?
    case VerifyAnswer(v) => v.SetupReport?
    case InvalidAction => false
  }

  /** `$_GET['action'] ?? 'check_connection'`. */
  function ActionOf(query: map<string, string>): string {
    if "action" in query then query["action"] else "check_connection"
  }

  const Actions := {"check_connection", "create_tables", "insert_default_data", "verify_setup"}

  /** One request. Only OPTIONS is answered without an action; any other method runs one. */
  method Handle(httpMethod: string, query: map<string, string>, server: Server) returns (r: SetupResponse)
    ensures httpMethod == "OPTIONS" <==> r == Preflight
    ensures httpMethod != "OPTIONS" ==>
      var action := ActionOf(query);
      (action == "check_connection" ==> r == ConnectionAnswer(CheckConnection(server.reachable, server.info))) &&
      (action == "create_tables" ==> r == CreateAnswer(CreateReport(server.file, server.outcome))) &&
      (action == "insert_default_data" ==> r == InsertAnswer(InsertReport(server.connected, server.execute))) &&
      (action == "verify_setup" ==> r == VerifyAnswer(VerifyReport(server.connected, server.present, server.counts))) &&
      (action !in Actions ==> r == InvalidAction)
    ensures r == InvalidAction ==> !Succeeded(r) && ActionOf(query) !in Actions
  {
    if httpMethod == "OPTIONS" {
      return Preflight;
    }
    var action := ActionOf(query);
    if action == "check_connection" {
      r := ConnectionAnswer(CheckConnection(server.reachable, server.info));
    } else if action == "create_tables" {
      var created, _ := CreateTables(server.file, server.outcome);
      r := CreateAnswer(created);
    } else if action == "insert_default_data" {
      var inserted, _ := InsertDefaultData(server.connected, server.hash, server.execute);
      r := InsertAnswer(inserted);
    } else if action == "verify_setup" {
      var verified := VerifySetup(server.connected, server.present, server.counts);
      r := VerifyAnswer(verified);
    } else {
      r := InvalidAction;
    }
  }
}
