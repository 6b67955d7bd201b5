/**
 * The `database_search` tool: a validated search of every database, an
 * optional occurrence count, and a summary of the hits per database.
 */
module DatabaseSearchTool {
  import opened Common
  import opened Strs
  import opened Js
  import opened Database
  import OM = OrderedMap

  const TooShort: string := "El término de búsqueda debe tener al menos 2 caracteres"
  const Suggestion: string := "Verifique la conexión a la base de datos y los parámetros de búsqueda"
  const DefaultLimit: int := 20
  const SampleSize: nat := 3

  /** The key a hit is summarised under: its database, or "undefined" when the hit carries none. */
  function DbKey(h: Hit): string
  {
    if h.database.Some? then h.database.value else "undefined"
  }

  /** `databaseSummary`: per database, the number of tables and of records found. */
  type Summary = seq<(string, (nat, nat))>

  /** `databaseSummary` after one more hit: its database gains a table and its match count. */
  function Tally(s: Summary, h: Hit): Summary
  {
    OM.Put(s, DbKey(h), Bumped(s, h))
  }

  /** The hit's database entry, or zeros when it has none yet, with one more table and the hit's records. */
  function Bumped(s: Summary, h: Hit): (nat, nat)
  {
    var cur := OM.Get(s, DbKey(h)).GetOr((0, 0));
    (cur.0 + 1, cur.1 + h.matchCount)
  }

  /** `databaseSummary` after the given hits, one hit at a time. */
  function Summarize(hs: seq<Hit>): Summary
    decreases |hs|
  {
    if |hs| == 0 then [] else Tally(Summarize(hs[..|hs| - 1]), hs[|hs| - 1])
  }

  /** The reference counts: the hits of one database, and the sum of their match counts. */
  function TablesFor(hs: seq<Hit>, db: string): nat
    decreases |hs|
  {
    if |hs| == 0 then 0
    else TablesFor(hs[..|hs| - 1], db) + (if DbKey(hs[|hs| - 1]) == db then 1 else 0)
  }

  function RecordsFor(hs: seq<Hit>, db: string): nat
    decreases |hs|
  {
    if |hs| == 0 then 0
    else RecordsFor(hs[..|hs| - 1], db) + (if DbKey(hs[|hs| - 1]) == db then hs[|hs| - 1].matchCount else 0)
  }

  function SumMatches(hs: seq<Hit>): nat
    decreases |hs|
  {
    if |hs| == 0 then 0 else SumMatches(hs[..|hs| - 1]) + hs[|hs| - 1].matchCount
  }

  predicate Searched(hs: seq<Hit>, db: string)
  {
    exists i :: 0 <= i < |hs| && DbKey(hs[i]) == db
  }

  /** The summary lists each database once, and exactly the databases that have a hit. */
  lemma SummarizeKeys(hs: seq<Hit>, db: string)
    ensures OM.DistinctKeys(Summarize(hs))
    ensures OM.Has(Summarize(hs), db) <==> Searched(hs, db)
  {
    SummarizeDistinct(hs);
    SummarizeHas(hs, db);
  }

  /** `databaseSummary` after one more hit. */
  lemma SummarizeStep(hs: seq<Hit>)
    requires |hs| > 0
    ensures Summarize(hs) == Tally(Summarize(hs[..|hs| - 1]), hs[|hs| - 1])
  {
  }

  lemma {:induction false} SummarizeDistinct(hs: seq<Hit>)
    ensures OM.DistinctKeys(Summarize(hs))
    decreases |hs|
  {
    if |hs| > 0 {
      var p := hs[..|hs| - 1];
      var h := hs[|hs| - 1];
      SummarizeDistinct(p);
      SummarizeStep(hs);
      OM.PutKeys(Summarize(p), DbKey(h), Bumped(Summarize(p), h));
    }
  }

  lemma {:induction false} SummarizeHas(hs: seq<Hit>, db: string)
    ensures OM.Has(Summarize(hs), db) <==> Searched(hs, db)
    decreases |hs|
  {
    if |hs| > 0 {
      var p := hs[..|hs| - 1];
      var h := hs[|hs| - 1];
      SummarizeHas(p, db);
      SummarizeStep(hs);
      OM.PutGet(Summarize(p), DbKey(h), Bumped(Summarize(p), h), db);
      SearchedStep(hs, db);
    }
  }

  /** One more hit changes its own database's entry only. */
  lemma TallyGet(s: Summary, h: Hit, db: string)
    ensures db == DbKey(h) ==>
      OM.Get(Tally(s, h), db) == Some((OM.Get(s, db).GetOr((0, 0)).0 + 1, OM.Get(s, db).GetOr((0, 0)).1 + h.matchCount))
    ensures db != DbKey(h) ==> OM.Get(Tally(s, h), db) == OM.Get(s, db)
  {
    OM.PutGet(s, DbKey(h), Bumped(s, h), db);
  }

  /** Each database's entry holds the number of its hits and the sum of their match counts. */
  lemma {:induction false} SummarizeGet(hs: seq<Hit>, db: string)
    requires Searched(hs, db)
    ensures OM.Get(Summarize(hs), db) == Some((TablesFor(hs, db), RecordsFor(hs, db)))
    decreases |hs|
  {
    var p := hs[..|hs| - 1];
    var h := hs[|hs| - 1];
    SummarizeStep(hs);
    TallyGet(Summarize(p), h, db);
    SearchedStep(hs, db);
    assert TablesFor(hs, db) == TablesFor(p, db) + (if DbKey(h) == db then 1 else 0);
    assert RecordsFor(hs, db) == RecordsFor(p, db) + (if DbKey(h) == db then h.matchCount else 0);
    if db != DbKey(h) {
      SummarizeGet(p, db);
    } else if Searched(p, db) {
      SummarizeGet(p, db);
    } else {
      SummarizeHas(p, db);
      NotSearchedZero(p, db);
    }
  }

  lemma SearchedStep(hs: seq<Hit>, db: string)
    requires |hs| > 0
    ensures Searched(hs, db) <==> Searched(hs[..|hs| - 1], db) || DbKey(hs[|hs| - 1]) == db
  {
    var p := hs[..|hs| - 1];
    if Searched(hs, db) && DbKey(hs[|hs| - 1]) != db {
      var i :| 0 <= i < |hs| && DbKey(hs[i]) == db;
      assert p[i] == hs[i];
    }
    if Searched(p, db) {
      var i :| 0 <= i < |p| && DbKey(p[i]) == db;
      assert hs[i] == p[i];
    }
  }

  lemma {:induction false} NotSearchedZero(hs: seq<Hit>, db: string)
    requires !Searched(hs, db)
    ensures TablesFor(hs, db) == 0 && RecordsFor(hs, db) == 0
    decreases |hs|
  {
    if |hs| > 0 {
      SearchedStep(hs, db);
      NotSearchedZero(hs[..|hs| - 1], db);
    }
  }

  /** One entry of `detailedResults`: at most three sample records. */
  function Detailed(h: Hit): Value
  {
    Obj([("database", if h.database.Some? then Str(h.database.value) else Undefined),
         ("table", Str(h.table)), ("recordCount", Num(h.matchCount)),
         ("sampleRecords", Arr(h.records[..if |h.records| <= SampleSize then |h.records| else SampleSize]))])
  }

  function SummaryValue(s: Summary): Value
  {
    Obj(seq(|s|, i requires 0 <= i < |s| =>
      (s[i].0, Obj([("tables", Num(s[i].1.0)), ("records", Num(s[i].1.1))]))))
  }

  function NoResults(term: string): Value
  {
    Obj([("message", Str("No se encontraron resultados para \"" + term + "\"")),
         ("databasesSearched", Num(0)), ("totalRecords", Num(0))])
  }

  function Report(s: Summary, total: nat, details: seq<Value>, count: nat, term: string): Value
  {
    Obj([("summary", Obj([("totalDatabases", Num(|s|)), ("totalTables", Num(count)),
                          ("totalRecords", Num(total)), ("byDatabase", SummaryValue(s))])),
         ("detailedResults", Arr(details)), ("searchTerm", Str(term))])
  }

  function Details(hs: seq<Hit>): seq<Value>
  {
    seq(|hs|, i requires 0 <= i < |hs| => Detailed(hs[i]))
  }

  /** What `formatResults(results, searchTerm)` returns. */
  function Formatted(hs: seq<Hit>, term: string): Value
  {
    if |hs| == 0 then NoResults(term)
    else Report(Summarize(hs), SumMatches(hs), Details(hs), |hs|, term)
  }

  /** `formatResults`: the `map` that fills the summary and the running total while it builds the details. */
  method FormatResults(hs: seq<Hit>, term: string) returns (v: Value)
    ensures v == Formatted(hs, term)
  {
    if |hs| == 0 {
      return NoResults(term);
    }
    var summary: Summary := [];
    var totalRecords: nat := 0;
    var details: seq<Value> := [];
    var i := 0;
    while i < |hs|
      invariant 0 <= i <= |hs|
      invariant summary == Summarize(hs[..i])
      invariant totalRecords == SumMatches(hs[..i])
      invariant details == Details(hs[..i])
    {
      assert hs[..i + 1][..i] == hs[..i];
      SummarizeStep(hs[..i + 1]);
      var h := hs[i];
      var db := DbKey(h);
      var cur := OM.Get(summary, db).GetOr((0, 0));
      assert (cur.0 + 1, cur.1 + h.matchCount) == Bumped(summary, h);
      summary := OM.Put(summary, db, (cur.0 + 1, cur.1 + h.matchCount));
      totalRecords := totalRecords + h.matchCount;
      assert Details(hs[..i + 1]) == details + [Detailed(h)];
      details := details + [Detailed(h)];
      i := i + 1;
    }
    assert hs[..i] == hs;
    return Report(summary, totalRecords, details, |hs|, term);
  }

  /** A detailed entry keeps the hit's table and count and at most three of its records, in order. */
  lemma DetailedSpec(h: Hit)
    ensures var samples := Get(Detailed(h), "sampleRecords");
      samples.Arr? && samples.items <= h.records &&
      |samples.items| == (if |h.records| <= SampleSize then |h.records| else SampleSize)
    ensures Get(Detailed(h), "recordCount") == Num(h.matchCount)
  {
    LookupAt(Detailed(h).fields, 3, "sampleRecords");
    LookupAt(Detailed(h).fields, 2, "recordCount");
  }

  /**
   * The report of a non-empty search: one entry per database that has hits,
   * holding its number of hits and the sum of their match counts; the entries
   * add up to `totalTables` and `totalRecords`.
   */
  lemma FormattedSpec(hs: seq<Hit>, db: string)
    requires |hs| > 0
    ensures OM.DistinctKeys(Summarize(hs))
    ensures OM.Has(Summarize(hs), db) <==> Searched(hs, db)
    ensures Searched(hs, db) ==> OM.Get(Summarize(hs), db) == Some((TablesFor(hs, db), RecordsFor(hs, db)))
    ensures SumTables(Summarize(hs)) == |hs| && SumRecords(Summarize(hs)) == SumMatches(hs)
  {
    SummarizeKeys(hs, db);
    if Searched(hs, db) {
      SummarizeGet(hs, db);
    }
    SummaryTotals(hs);
  }

  /** Over a summary, the tables add up to the hits and the records to the sum of match counts. */
  lemma {:induction false} SummaryTotals(hs: seq<Hit>)
    ensures SumTables(Summarize(hs)) == |hs|
    ensures SumRecords(Summarize(hs)) == SumMatches(hs)
    decreases |hs|
  {
    if |hs| > 0 {
      var p := hs[..|hs| - 1];
      var h := hs[|hs| - 1];
      SummaryTotals(p);
      var s := Summarize(p);
      SummarizeStep(hs);
      SumPut(s, DbKey(h), Bumped(s, h));
      assert SumMatches(hs) == SumMatches(p) + h.matchCount;
    }
  }

  function SumTables(s: Summary): nat
    decreases |s|
  {
    if |s| == 0 then 0 else SumTables(s[..|s| - 1]) + s[|s| - 1].1.0
  }

  function SumRecords(s: Summary): nat
    decreases |s|
  {
    if |s| == 0 then 0 else SumRecords(s[..|s| - 1]) + s[|s| - 1].1.1
  }

  /** Setting one database's totals changes the sums by the difference for that database. */
  lemma SumPut(s: Summary, k: string, v: (nat, nat))
    ensures var prev := OM.Get(s, k).GetOr((0, 0));
      SumTables(OM.Put(s, k, v)) + prev.0 == SumTables(s) + v.0 &&
      SumRecords(OM.Put(s, k, v)) + prev.1 == SumRecords(s) + v.1
  {
    match OM.Find(s, k)
    case None =>
      assert (s + [(k, v)])[..|s|] == s;
    case Some(i) =>
      SumUpdate(s, i, (k, v));
  }

  lemma {:induction false} SumUpdate(s: Summary, i: nat, e: (string, (nat, nat)))
    requires i < |s|
    ensures SumTables(s[i := e]) + s[i].1.0 == SumTables(s) + e.1.0
    ensures SumRecords(s[i := e]) + s[i].1.1 == SumRecords(s) + e.1.1
    decreases |s|
  {
    var t := s[i := e];
    if i == |s| - 1 {
      assert t[..|t| - 1] == s[..|s| - 1];
    } else {
      SumUpdate(s[..|s| - 1], i, e);
      assert t[..|t| - 1] == s[..|s| - 1][i := e];
    }
  }

  // ---------------------------------------------------------------- execute

  /**
   * The record `execute` resolves to, or the message of the error it caught.
   * `manager` is the pool names of the database manager, `None` when it was
   * never initialised.
   */
  function Run(pg: Pg, manager: Option<seq<string>>, args: Value): Result<Value>
  {
    if args.Undefined? || args.Null? then Err(DestructureError("searchTerm", args))
    else
      var term := Get(args, "searchTerm");
      var limit := OrDefault(Get(args, "limit"), Num(DefaultLimit));
      var includeCount := OrDefault(Get(args, "includeCount"), Bool(true));
      if !Truthy(term) then Err(TooShort)
      else if !term.Str? then Err(NotAFunction("searchTerm.trim"))
      else if |Trim(term.s)| < 2 then Err(TooShort)
      else if manager.None? then Err(NotInitializedMessage)
      else
        var names := manager.value;
        var hits := SearchAcross(pg, names, term.s, limit);
        var statistics :=
          if Truthy(includeCount) then
            var (total, byDb) := CountAll(pg, names, term.s);
            Obj([("totalOccurrences", CountValue(total)), ("byDatabase", ByDatabaseValue(byDb))])
          else Null;
        Ok(Obj([("success", Bool(true)), ("searchTerm", term), ("results", Formatted(hits, term.s)),
                ("statistics", statistics), ("metadata", Obj([("searchLimit", limit)]))]))
  }

  function FailureRecord(): Value
  {
    Obj([("success", Bool(false)), ("error", Obj([])), ("suggestion", Str(Suggestion))])
  }

  /** `execute(args)`: the caught Error serialises as `{}`. */
  function Execute(pg: Pg, manager: Option<seq<string>>, args: Value): Value
  {
    match Run(pg, manager, args)
    case Ok(v) => v
    case Err(_) => FailureRecord()
  }

  /**
   * A call runs exactly when the arguments hold a string term of at least two
   * characters once trimmed and the manager exists; otherwise it fails with the
   * failure record and no query is made.
   */
  lemma RunSpec(pg: Pg, manager: Option<seq<string>>, args: Value)
    ensures Run(pg, manager, args).Ok? <==>
      !args.Undefined? && !args.Null? && Get(args, "searchTerm").Str? &&
      |Trim(Get(args, "searchTerm").s)| >= 2 && manager.Some?
    ensures Run(pg, manager, args).Err? ==> Execute(pg, manager, args) == FailureRecord()
    ensures (!args.Undefined? && !args.Null? && Get(args, "searchTerm").Str? &&
      |Trim(Get(args, "searchTerm").s)| < 2) ==> Run(pg, manager, args) == Err(TooShort)
  {
    if !args.Undefined? && !args.Null? {
      var term := Get(args, "searchTerm");
      if term.Str? && |Trim(term.s)| >= 2 {
        assert Truthy(term) by {
          assert |term.s| > 0;
        }
        if manager.Some? {
          assert Run(pg, manager, args).Ok?;
        } else {
          assert Run(pg, manager, args) == Err(NotInitializedMessage);
        }
      }
    }
  }

  /** `statistics` is null exactly when `includeCount` is falsy; left out, it defaults to true. */
  lemma StatisticsSpec(pg: Pg, manager: Option<seq<string>>, args: Value)
    requires Run(pg, manager, args).Ok?
    ensures var r := Run(pg, manager, args).value;
      (Get(r, "statistics") == Null <==> !Truthy(OrDefault(Get(args, "includeCount"), Bool(true)))) &&
      (Get(args, "includeCount").Undefined? ==> Get(r, "statistics") != Null)
    ensures Get(args, "limit").Undefined? ==>
      Get(Run(pg, manager, args).value, "metadata") == Obj([("searchLimit", Num(20))])
  {
    var r := Run(pg, manager, args).value;
    LookupAt(r.fields, 3, "statistics");
    LookupAt(r.fields, 4, "metadata");
  }

  /** `getToolInfo`: the schema requires `searchTerm`. */
  const ToolInfo: Value := Obj([
    ("name", Str("database_search")),
    ("description", Str("Buscar información en todas las bases de datos de la empresa")),
    ("inputSchema", Obj([
      ("type", Str("object")),
      ("properties", Obj([
        ("searchTerm", Obj([("type", Str("string")), ("description", Str("Término a buscar (ej: \"ever\", \"usuario\", etc.)"))])),
        ("limit", Obj([("type", Str("number")), ("description", Str("Límite de resultados por base de datos")), ("default", Num(20))])),
        ("includeCount", Obj([("type", Str("boolean")), ("description", Str("Incluir conteo total de ocurrencias")), ("default", Bool(true))]))])),
      ("required", Arr([Str("searchTerm")]))]))])
}
