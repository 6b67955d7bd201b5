/**
 * The database manager: one pool per configured database name, and the text
 * search and occurrence count fanned out over tables and databases. The
 * PostgreSQL driver is an oracle from a database name and a query to the rows
 * returned or the error raised; only the predicate string the manager builds is
 * modelled, not its SQL meaning.
 */
module Database {
  import opened Common
  import opened Strs
  import opened Js
  import OM = OrderedMap

  /** The queries the manager issues, with their parameters. */
  datatype Query =
    | Connect
    | TableNames
      /** The text-typed columns, ordered by table and position when `ordered`. */
    | TextColumns(ordered: bool)
    | SearchRows(table: string, condition: string, pattern: string, limit: Value)
    | CountRows(table: string, condition: string, pattern: string)

  type Pg = (string, Query) -> Result<seq<Value>>

  /** One table's matches; `database` is set once the cross-database search tags it. */
  datatype Hit = Hit(table: string, records: seq<Value>, matchCount: nat, database: Option<string>)

  /** A count as a JavaScript number that is an integer or NaN (`None`). */
  type Count = Option<int>

  const NoPoolPrefix: string := "No existe pool para la base: "
  const NotInitializedMessage: string := "Se requiere la configuración de BD y la lista de bases para inicializar"

  // ---------------------------------------------------------------- pools

  /** The keys of the `pools` record after assigning each name in turn. */
  function Dedup(xs: seq<string>): (r: seq<string>)
    decreases |xs|
  {
    if |xs| == 0 then []
    else
      var p := Dedup(xs[..|xs| - 1]);
      if xs[|xs| - 1] in p then p else p + [xs[|xs| - 1]]
  }

  ghost predicate Distinct(xs: seq<string>)
  {
    forall i, j :: 0 <= i < j < |xs| ==> xs[i] != xs[j]
  }

  /** Exactly one pool per configured name: each name once, nothing else. */
  lemma {:induction false} DedupSpec(xs: seq<string>)
    ensures Distinct(Dedup(xs))
    ensures forall x :: x in Dedup(xs) <==> x in xs
    decreases |xs|
  {
    if |xs| > 0 {
      DedupSpec(xs[..|xs| - 1]);
      assert xs == xs[..|xs| - 1] + [xs[|xs| - 1]];
    }
  }

  /** The `connectAll` loop: the first database that fails to connect aborts it. */
  function ConnectAll(pg: Pg, names: seq<string>): Result<()>
    decreases |names|
  {
    if |names| == 0 then Ok(())
    else match ConnectAll(pg, names[..|names| - 1])
      case Err(m) => Err(m)
      case Ok(_) =>
        match pg(names[|names| - 1], Connect)
        case Err(m) => Err(m)
        case Ok(_) => Ok(())
  }

  /** `connectAll` succeeds exactly when every database connects; otherwise it reports the first failure. */
  lemma {:induction false} ConnectAllSpec(pg: Pg, names: seq<string>)
    ensures ConnectAll(pg, names).Ok? <==> forall i :: 0 <= i < |names| ==> pg(names[i], Connect).Ok?
    ensures ConnectAll(pg, names).Err? ==>
      exists k :: 0 <= k < |names| && (forall i :: 0 <= i < k ==> pg(names[i], Connect).Ok?) &&
        pg(names[k], Connect) == Err(ConnectAll(pg, names).msg)
    decreases |names|
  {
    if |names| > 0 {
      var p := names[..|names| - 1];
      ConnectAllSpec(pg, p);
      assert forall i :: 0 <= i < |p| ==> p[i] == names[i];
      if ConnectAll(pg, p).Err? {
        var k :| 0 <= k < |p| && (forall i :: 0 <= i < k ==> pg(p[i], Connect).Ok?) &&
          pg(p[k], Connect) == Err(ConnectAll(pg, p).msg);
        assert pg(names[k], Connect) == Err(ConnectAll(pg, names).msg);
      }
    }
  }

  // ---------------------------------------------------------------- columns by table

  function TableOf(row: Value): string
  {
    ToStr(Get(row, "table_name"))
  }

  function ColumnOf(row: Value): string
  {
    ToStr(Get(row, "column_name"))
  }

  type Groups = seq<(string, seq<string>)>

  /** `tableColumns[t].push(c)`, creating the list on first sight of `t`. */
  function AddColumn(g: Groups, t: string, c: string): Groups
  {
    OM.Put(g, t, OM.Get(g, t).GetOr([]) + [c])
  }

  /** The `tableColumns` record built from the column rows. */
  function Group(rows: seq<Value>): Groups
    decreases |rows|
  {
    if |rows| == 0 then []
    else AddColumn(Group(rows[..|rows| - 1]), TableOf(rows[|rows| - 1]), ColumnOf(rows[|rows| - 1]))
  }

  /** The columns the rows list for table `t`, in row order. */
  function ColumnsOf(rows: seq<Value>, t: string): seq<string>
    decreases |rows|
  {
    if |rows| == 0 then []
    else
      var last := rows[|rows| - 1];
      ColumnsOf(rows[..|rows| - 1], t) + (if TableOf(last) == t then [ColumnOf(last)] else [])
  }

  /** Each table is grouped once, holding exactly its columns in row order. */
  lemma {:induction false} GroupSpec(rows: seq<Value>, t: string)
    ensures OM.DistinctKeys(Group(rows))
    ensures OM.Get(Group(rows), t) == if ColumnsOf(rows, t) == [] then None else Some(ColumnsOf(rows, t))
    decreases |rows|
  {
    if |rows| > 0 {
      var p := rows[..|rows| - 1];
      var last := rows[|rows| - 1];
      var g := Group(p);
      GroupSpec(p, t);
      GroupSpec(p, TableOf(last));
      OM.PutGet(g, TableOf(last), OM.Get(g, TableOf(last)).GetOr([]) + [ColumnOf(last)], t);
      OM.PutKeys(g, TableOf(last), OM.Get(g, TableOf(last)).GetOr([]) + [ColumnOf(last)]);
      if TableOf(last) != t {
        assert ColumnsOf(rows, t) == ColumnsOf(p, t) + [];
        assert ColumnsOf(p, t) + [] == ColumnsOf(p, t);
      }
    }
  }

  /** `cols.map(col => `${col}::text ILIKE $1`).join(' OR ')`. */
  function Predicate(cols: seq<string>): string
  {
    Join(seq(|cols|, i requires 0 <= i < |cols| => cols[i] + "::text ILIKE $1"), " OR ")
  }

  function Pattern(term: string): string
  {
    "%" + term + "%"
  }

  // ---------------------------------------------------------------- search

  /** One table's search: a failing query and an empty answer both contribute nothing. */
  function HitFor(pg: Pg, db: string, t: string, cols: seq<string>, term: string, limit: Value): (r: seq<Hit>)
    ensures |r| <= 1
  {
    match pg(db, SearchRows(t, Predicate(cols), Pattern(term), limit))
    case Err(_) => []
    case Ok(rs) => if |rs| > 0 then [Hit(t, rs, |rs|, None)] else []
  }

  /** The loop over `Object.entries(tableColumns)`. */
  function SearchTables(pg: Pg, db: string, g: Groups, term: string, limit: Value): seq<Hit>
    decreases |g|
  {
    if |g| == 0 then []
    else
      var last := g[|g| - 1];
      SearchTables(pg, db, g[..|g| - 1], term, limit) + HitFor(pg, db, last.0, last.1, term, limit)
  }

  /** `searchInDatabase(db, term, limit)`; `Err` is the failure of the column listing. */
  function SearchIn(pg: Pg, db: string, term: string, limit: Value): Result<seq<Hit>>
  {
    match pg(db, TextColumns(true))
    case Err(m) => Err(m)
    case Ok(rows) => if |rows| == 0 then Ok([]) else Ok(SearchTables(pg, db, Group(rows), term, limit))
  }

  /** A hit is reported for a table exactly when its query answers with at least one row. */
  lemma HitForSpec(pg: Pg, db: string, t: string, cols: seq<string>, term: string, limit: Value, h: Hit)
    ensures h in HitFor(pg, db, t, cols, term, limit) <==>
      pg(db, SearchRows(t, Predicate(cols), Pattern(term), limit)) == Ok(h.records) &&
      |h.records| > 0 && h == Hit(t, h.records, |h.records|, None)
  {
  }

  /** The hits of a database are the hits of its grouped tables, in table order, skipping failed tables. */
  lemma {:induction false} SearchTablesSpec(pg: Pg, db: string, g: Groups, term: string, limit: Value, h: Hit)
    ensures h in SearchTables(pg, db, g, term, limit) <==>
      exists k :: 0 <= k < |g| && h in HitFor(pg, db, g[k].0, g[k].1, term, limit)
    ensures |SearchTables(pg, db, g, term, limit)| <= |g|
    decreases |g|
  {
    if |g| > 0 {
      var p := g[..|g| - 1];
      SearchTablesSpec(pg, db, p, term, limit, h);
      assert forall k :: 0 <= k < |p| ==> p[k] == g[k];
      if h in SearchTables(pg, db, g, term, limit) {
        if h !in SearchTables(pg, db, p, term, limit) {
          assert h in HitFor(pg, db, g[|g| - 1].0, g[|g| - 1].1, term, limit);
        }
      }
    }
  }

  /** A database without text columns has no hits. */
  lemma NoTextColumns(pg: Pg, db: string, term: string, limit: Value)
    requires pg(db, TextColumns(true)) == Ok([])
    ensures SearchIn(pg, db, term, limit) == Ok([])
  {
  }

  function Tag(hs: seq<Hit>, db: string): (r: seq<Hit>)
    ensures |r| == |hs|
    ensures forall i :: 0 <= i < |hs| ==> r[i] == hs[i].(database := Some(db))
  {
    seq(|hs|, i requires 0 <= i < |hs| => hs[i].(database := Some(db)))
  }

  /** `searchAcrossDatabases`: each database's hits tagged with it, a failing database skipped. */
  function SearchAcross(pg: Pg, names: seq<string>, term: string, limit: Value): seq<Hit>
    decreases |names|
  {
    if |names| == 0 then []
    else
      var db := names[|names| - 1];
      SearchAcross(pg, names[..|names| - 1], term, limit) +
        (match SearchIn(pg, db, term, limit)
         case Err(_) => []
         case Ok(hs) => Tag(hs, db))
  }

  /** A cross-database hit is a hit of a database whose search succeeded, tagged with that database. */
  lemma {:induction false} SearchAcrossSpec(pg: Pg, names: seq<string>, term: string, limit: Value, h: Hit)
    ensures h in SearchAcross(pg, names, term, limit) <==>
      exists k :: 0 <= k < |names| && SearchIn(pg, names[k], term, limit).Ok? &&
        h in Tag(SearchIn(pg, names[k], term, limit).value, names[k])
    decreases |names|
  {
    if |names| > 0 {
      var p := names[..|names| - 1];
      SearchAcrossSpec(pg, p, term, limit, h);
      assert forall k :: 0 <= k < |p| ==> p[k] == names[k];
      if h in SearchAcross(pg, names, term, limit) && h !in SearchAcross(pg, p, term, limit) {
        var k := |names| - 1;
        assert SearchIn(pg, names[k], term, limit).Ok? && h in Tag(SearchIn(pg, names[k], term, limit).value, names[k]);
      }
    }
  }

  /** Every cross-database hit names its database, which is one of the searched ones. */
  lemma SearchAcrossTagged(pg: Pg, names: seq<string>, term: string, limit: Value, h: Hit)
    requires h in SearchAcross(pg, names, term, limit)
    ensures h.database.Some? && h.database.value in names
    ensures h.matchCount == |h.records| > 0
  {
    SearchAcrossSpec(pg, names, term, limit, h);
    var k :| 0 <= k < |names| && SearchIn(pg, names[k], term, limit).Ok? &&
      h in Tag(SearchIn(pg, names[k], term, limit).value, names[k]);
    var hs := SearchIn(pg, names[k], term, limit).value;
    var i :| 0 <= i < |hs| && h == hs[i].(database := Some(names[k]));
    var rows := pg(names[k], TextColumns(true)).value;
    SearchTablesSpec(pg, names[k], Group(rows), term, limit, hs[i]);
  }

  // ---------------------------------------------------------------- count

  /** `parseInt(s)`: leading white space, a sign, an optional `0x`, then the longest digit run; none is NaN. */
  function ParseInt(s: string): Count
  {
    var t := TrimStart(s);
    var neg := |t| > 0 && t[0] == '-';
    var r := if |t| > 0 && (t[0] == '-' || t[0] == '+') then t[1..] else t;
    var hex := |r| >= 2 && r[0] == '0' && (r[1] == 'x' || r[1] == 'X');
    var ds := Digits(if hex then r[2..] else r, hex);
    if ds == "" then None
    else
      var v: int := DigitsValue(ds, hex);
      Some(if neg then -v else v)
  }

  /** `total += n` on numbers where NaN absorbs. */
  function AddCount(a: Count, b: Count): (r: Count)
    ensures r.Some? <==> a.Some? && b.Some?
  {
    if a.Some? && b.Some? then Some(a.value + b.value) else None
  }

  /** One table's count: `None` when reading `rows[0].count` throws, so the table is skipped. */
  function TableCount(pg: Pg, db: string, t: string, cols: seq<string>, term: string): Option<Count>
  {
    match pg(db, CountRows(t, Predicate(cols), Pattern(term)))
    case Err(_) => None
    case Ok(rs) => if |rs| == 0 then None else Some(ParseInt(ToStr(Get(rs[0], "count"))))
  }

  function CountTables(pg: Pg, db: string, g: Groups, term: string): Count
    decreases |g|
  {
    if |g| == 0 then Some(0)
    else
      var acc := CountTables(pg, db, g[..|g| - 1], term);
      match TableCount(pg, db, g[|g| - 1].0, g[|g| - 1].1, term)
      case None => acc
      case Some(c) => AddCount(acc, c)
  }

  /** `countInDatabase(db, term)`; `Err` is the failure of the column listing. */
  function CountIn(pg: Pg, db: string, term: string): Result<Count>
  {
    match pg(db, TextColumns(false))
    case Err(m) => Err(m)
    case Ok(rows) => if |rows| == 0 then Ok(Some(0)) else Ok(CountTables(pg, db, Group(rows), term))
  }

  /** The count `countOccurrences` records for one database: 0 when its count fails. */
  function CountOrZero(pg: Pg, db: string, term: string): Count
  {
    match CountIn(pg, db, term)
    case Err(_) => Some(0)
    case Ok(c) => c
  }

  /** `countOccurrences`: the running total and the `byDatabase` record. */
  function CountAll(pg: Pg, names: seq<string>, term: string): (Count, seq<(string, Count)>)
    decreases |names|
  {
    if |names| == 0 then (Some(0), [])
    else
      var (total, byDb) := CountAll(pg, names[..|names| - 1], term);
      var db := names[|names| - 1];
      match CountIn(pg, db, term)
      case Err(_) => (total, OM.Put(byDb, db, Some(0)))
      case Ok(c) => (AddCount(total, c), OM.Put(byDb, db, c))
  }

  function SumCounts(cs: seq<Count>): Count
    decreases |cs|
  {
    if |cs| == 0 then Some(0) else AddCount(SumCounts(cs[..|cs| - 1]), cs[|cs| - 1])
  }

  /** The `byDatabase` record expected over distinct names: each database with its count, 0 when it failed. */
  function PerDatabase(pg: Pg, names: seq<string>, term: string): (r: seq<(string, Count)>)
    ensures |r| == |names|
    ensures forall i :: 0 <= i < |names| ==> r[i] == (names[i], CountOrZero(pg, names[i], term))
  {
    seq(|names|, i requires 0 <= i < |names| => (names[i], CountOrZero(pg, names[i], term)))
  }

  /** Over distinct database names, `byDatabase` lists every database in order with its count. */
  lemma {:induction false} CountAllRecord(pg: Pg, names: seq<string>, term: string)
    requires Distinct(names)
    ensures CountAll(pg, names, term).1 == PerDatabase(pg, names, term)
    decreases |names|
  {
    if |names| > 0 {
      var p := names[..|names| - 1];
      var db := names[|names| - 1];
      CountAllRecord(pg, p, term);
      var before := CountAll(pg, p, term).1;
      assert forall i :: 0 <= i < |before| ==> before[i].0 == p[i] != db;
      assert OM.Find(before, db).None?;
      var after := CountAll(pg, names, term).1;
      assert after == before + [(db, CountOrZero(pg, db, term))];
    }
  }

  /** The total is the sum of the recorded counts: a failed database adds 0, a NaN count makes it NaN. */
  lemma {:induction false} CountAllTotal(pg: Pg, names: seq<string>, term: string)
    ensures CountAll(pg, names, term).0 == SumCounts(OM.Values(PerDatabase(pg, names, term)))
    decreases |names|
  {
    if |names| > 0 {
      var p := names[..|names| - 1];
      CountAllTotal(pg, p, term);
      var vs := OM.Values(PerDatabase(pg, names, term));
      assert vs[..|vs| - 1] == OM.Values(PerDatabase(pg, p, term));
    }
  }

  /** The two halves together: over distinct names the total is the sum of `byDatabase`. */
  lemma CountAllSpec(pg: Pg, names: seq<string>, term: string)
    requires Distinct(names)
    ensures CountAll(pg, names, term).0 == SumCounts(OM.Values(CountAll(pg, names, term).1))
    ensures OM.Keys(CountAll(pg, names, term).1) == names
  {
    CountAllRecord(pg, names, term);
    CountAllTotal(pg, names, term);
  }

  // ---------------------------------------------------------------- the manager

  /** `getDatabaseInfo(db)`: the pool must exist; the table names come from the driver. */
  function DatabaseInfo(pg: Pg, names: seq<string>, db: string): Result<Value>
  {
    if db !in names then Err(NoPoolPrefix + db)
    else match pg(db, TableNames)
      case Err(m) => Err(m)
      case Ok(rows) =>
        Ok(Obj([("name", Str(db)), ("description", Str("Base de datos " + db)),
                ("tables", Arr(seq(|rows|, i requires 0 <= i < |rows| => Get(rows[i], "table_name"))))]))
  }

  class DatabaseManager {
    /** The names of the `pools` record, in creation order. */
    var pools: seq<string>

    constructor (databases: seq<string>)
      ensures pools == Dedup(databases)
    {
      var names: seq<string> := [];
      var i := 0;
      while i < |databases|
        invariant 0 <= i <= |databases|
        invariant names == Dedup(databases[..i])
      {
        assert databases[..i + 1][..i] == databases[..i];
        if databases[i] !in names {
          names := names + [databases[i]];
        }
        i := i + 1;
      }
      assert databases[..i] == databases;
      pools := names;
    }

    /** `getPool(name)`: the pool is identified by its database name. */
    function GetPool(name: string): (r: Result<string>)
      reads this
      ensures r.Ok? <==> name in pools
      ensures r.Ok? ==> r.value == name
      ensures r.Err? ==> r.msg == NoPoolPrefix + name
    {
      if name in pools then Ok(name) else Err(NoPoolPrefix + name)
    }

    function ListDatabases(): seq<string>
      reads this
    {
      pools
    }

    method ConnectAllPools(pg: Pg) returns (r: Result<()>)
      ensures r == ConnectAll(pg, pools)
    {
      var i := 0;
      while i < |pools|
        invariant 0 <= i <= |pools|
        invariant ConnectAll(pg, pools[..i]) == Ok(())
      {
        assert pools[..i + 1][..i] == pools[..i];
        var c := pg(pools[i], Connect);
        if c.Err? {
          ConnectAbort(pg, pools, i + 1, c.msg);
          return Err(c.msg);
        }
        i := i + 1;
      }
      assert pools[..i] == pools;
      return Ok(());
    }

    method SearchInDatabase(pg: Pg, db: string, term: string, limit: Value) returns (r: Result<seq<Hit>>)
      ensures r == SearchIn(pg, db, term, limit)
    {
      var cols := pg(db, TextColumns(true));
      if cols.Err? {
        return Err(cols.msg);
      }
      var rows := cols.value;
      if |rows| == 0 {
        return Ok([]);
      }
      var g := GroupRows(rows);
      var hits := SearchGroups(pg, db, g, term, limit);
      return Ok(hits);
    }

    method SearchAcrossDatabases(pg: Pg, term: string, limit: Value) returns (hits: seq<Hit>)
      ensures hits == SearchAcross(pg, pools, term, limit)
    {
      var databases := ListDatabases();
      hits := [];
      var i := 0;
      while i < |databases|
        invariant 0 <= i <= |databases|
        invariant hits == SearchAcross(pg, databases[..i], term, limit)
      {
        assert databases[..i + 1][..i] == databases[..i];
        var r := SearchInDatabase(pg, databases[i], term, limit);
        if r.Ok? {
          hits := hits + Tag(r.value, databases[i]);
        }
        i := i + 1;
      }
      assert databases[..i] == databases;
    }

    method CountInDatabase(pg: Pg, db: string, term: string) returns (r: Result<Count>)
      ensures r == CountIn(pg, db, term)
    {
      var cols := pg(db, TextColumns(false));
      if cols.Err? {
        return Err(cols.msg);
      }
      var rows := cols.value;
      if |rows| == 0 {
        return Ok(Some(0));
      }
      var g := GroupRows(rows);
      var total := CountGroups(pg, db, g, term);
      return Ok(total);
    }

    method CountOccurrences(pg: Pg, term: string) returns (total: Count, byDatabase: seq<(string, Count)>)
      ensures (total, byDatabase) == CountAll(pg, pools, term)
    {
      var databases := ListDatabases();
      total := Some(0);
      byDatabase := [];
      var i := 0;
      while i < |databases|
        invariant 0 <= i <= |databases|
        invariant (total, byDatabase) == CountAll(pg, databases[..i], term)
      {
        assert databases[..i + 1][..i] == databases[..i];
        var c := CountInDatabase(pg, databases[i], term);
        if c.Ok? {
          byDatabase := OM.Put(byDatabase, databases[i], c.value);
          total := AddCount(total, c.value);
        } else {
          byDatabase := OM.Put(byDatabase, databases[i], Some(0));
        }
        i := i + 1;
      }
      assert databases[..i] == databases;
    }

    function GetDatabaseInfo(pg: Pg, db: string): Result<Value>
      reads this
    {
      DatabaseInfo(pg, pools, db)
    }
  }

  /** The `forEach` that fills `tableColumns`. */
  method GroupRows(rows: seq<Value>) returns (g: Groups)
    ensures g == Group(rows)
  {
    g := [];
    var i := 0;
    while i < |rows|
      invariant 0 <= i <= |rows|
      invariant g == Group(rows[..i])
    {
      assert rows[..i + 1][..i] == rows[..i];
      g := AddColumn(g, TableOf(rows[i]), ColumnOf(rows[i]));
      i := i + 1;
    }
    assert rows[..i] == rows;
  }

  /** The loop over the grouped tables of `searchInDatabase`. */
  method SearchGroups(pg: Pg, db: string, g: Groups, term: string, limit: Value) returns (hits: seq<Hit>)
    ensures hits == SearchTables(pg, db, g, term, limit)
  {
    hits := [];
    var j := 0;
    while j < |g|
      invariant 0 <= j <= |g|
      invariant hits == SearchTables(pg, db, g[..j], term, limit)
    {
      assert g[..j + 1][..j] == g[..j];
      var q := pg(db, SearchRows(g[j].0, Predicate(g[j].1), Pattern(term), limit));
      if q.Ok? && |q.value| > 0 {
        hits := hits + [Hit(g[j].0, q.value, |q.value|, None)];
      }
      j := j + 1;
    }
    assert g[..j] == g;
  }

  /** The loop over the grouped tables of `countInDatabase`. */
  method CountGroups(pg: Pg, db: string, g: Groups, term: string) returns (total: Count)
    ensures total == CountTables(pg, db, g, term)
  {
    total := Some(0);
    var j := 0;
    while j < |g|
      invariant 0 <= j <= |g|
      invariant total == CountTables(pg, db, g[..j], term)
    {
      assert g[..j + 1][..j] == g[..j];
      var q := pg(db, CountRows(g[j].0, Predicate(g[j].1), Pattern(term)));
      if q.Ok? && |q.value| > 0 {
        total := AddCount(total, ParseInt(ToStr(Get(q.value[0], "count"))));
      }
      j := j + 1;
    }
    assert g[..j] == g;
  }

  /** A failed connection aborts the loop with its error, whatever follows. */
  lemma {:induction false} ConnectAbort(pg: Pg, names: seq<string>, n: nat, m: string)
    requires 0 < n <= |names|
    requires ConnectAll(pg, names[..n - 1]) == Ok(())
    requires pg(names[n - 1], Connect) == Err(m)
    ensures ConnectAll(pg, names) == Err(m)
    decreases |names| - n
  {
    assert names[..n][..n - 1] == names[..n - 1];
    if n == |names| {
      assert names[..n] == names;
    } else {
      ConnectErrStays(pg, names, n, m);
    }
  }

  lemma {:induction false} ConnectErrStays(pg: Pg, names: seq<string>, n: nat, m: string)
    requires 0 < n <= |names|
    requires ConnectAll(pg, names[..n]) == Err(m)
    ensures ConnectAll(pg, names) == Err(m)
    decreases |names| - n
  {
    if n < |names| {
      assert names[..n + 1][..n] == names[..n];
      ConnectErrStays(pg, names, n + 1, m);
    } else {
      assert names[..n] == names;
    }
  }

  // ---------------------------------------------------------------- rendering

  /** A count as `JSON.stringify` writes it: NaN is written as null. */
  function CountValue(c: Count): (r: Value)
    ensures r == Null <==> c.None?
  {
    if c.Some? then Num(c.value) else Null
  }

  /** A hit as the search builds it, with the `database` member last when the cross-database search added it. */
  function HitValue(h: Hit): Value
  {
    Obj([("table", Str(h.table)), ("records", Arr(h.records)), ("matchCount", Num(h.matchCount))]
      + (if h.database.Some? then [("database", Str(h.database.value))] else []))
  }

  function HitsValue(hs: seq<Hit>): (r: Value)
    ensures r.Arr? && |r.items| == |hs|
    ensures forall i :: 0 <= i < |hs| ==> r.items[i] == HitValue(hs[i])
  {
    Arr(seq(|hs|, i requires 0 <= i < |hs| => HitValue(hs[i])))
  }

  /** The `{ total, byDatabase }` record `countOccurrences` returns. */
  function CountAllValue(total: Count, byDb: seq<(string, Count)>): Value
  {
    Obj([("total", CountValue(total)), ("byDatabase", ByDatabaseValue(byDb))])
  }

  /** The `byDatabase` record of `countOccurrences`. */
  function ByDatabaseValue(byDb: seq<(string, Count)>): Value
  {
    Obj(seq(|byDb|, i requires 0 <= i < |byDb| => (byDb[i].0, CountValue(byDb[i].1))))
  }
}
