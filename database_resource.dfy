/**
 * The `database://<name>/<type>[?query]` resource: information about one or
 * all databases, a text search with limit 50, or an occurrence count, all
 * answered as pretty-printed JSON.
 */
module DatabaseResource {
  import opened Common
  import opened Strs
  import opened Js
  import opened Database

  const Scheme: string := "database://"
  const SearchLimit: int := 50
  const ReadFailurePrefix: string := "No se pudo leer el recurso: "
  const SearchTermMissing: string := "Parámetro \"term\" requerido para búsqueda"
  const CountTermMissing: string := "Parámetro \"term\" requerido para conteo"

  function Unsupported(kind: string): string
  {
    "Tipo de recurso no soportado: " + kind
  }

  /** The three groups of `^database:\/\/([^\/]+)\/([^?]+)(\?.*)?$`; `query` is the text after "?", if any. */
  datatype DbUri = DbUri(name: string, kind: string, query: Option<string>)

  /** The part after the database name: the type and the optional query. */
  function RenderTail(kind: string, query: Option<string>): string
  {
    if query.Some? then kind + "?" + query.value else kind
  }

  function Render(u: DbUri): string
  {
    Scheme + u.name + "/" + RenderTail(u.kind, u.query)
  }

  predicate TailShaped(kind: string, query: Option<string>)
  {
    |kind| > 0 && '?' !in kind && (query.Some? ==> NoLineTerminator(query.value))
  }

  predicate WellShaped(u: DbUri)
  {
    |u.name| > 0 && '/' !in u.name && TailShaped(u.kind, u.query)
  }

  /** The type runs up to the first "?"; what follows it must sit on one line. */
  function ParseTail(after: string): (r: Option<(string, Option<string>)>)
    ensures r.Some? ==> TailShaped(r.value.0, r.value.1) && RenderTail(r.value.0, r.value.1) == after
  {
    match IndexOfChar(after, '?')
    case None => if |after| == 0 then None else Some((after, None))
    case Some(q) =>
      var query := after[q + 1..];
      assert after == after[..q] + "?" + query;
      if q == 0 || !NoLineTerminator(query) then None
      else Some((after[..q], Some(query)))
  }

  lemma ParseTailInverse(kind: string, query: Option<string>)
    requires TailShaped(kind, query)
    ensures ParseTail(RenderTail(kind, query)) == Some((kind, query))
  {
    var tail := RenderTail(kind, query);
    if query.Some? {
      assert tail[..|kind|] == kind && tail[|kind|] == '?';
      var q := IndexOfChar(tail, '?').value;
      assert q == |kind|;
      assert tail[q + 1..] == query.value;
    }
  }

  /** The regular-expression match: a name up to the first "/", then the tail. */
  function ParseUri(uri: string): (r: Option<DbUri>)
    ensures r.Some? ==> WellShaped(r.value) && Render(r.value) == uri
  {
    if !(Scheme <= uri) then None
    else
      var rest := uri[|Scheme|..];
      match IndexOfChar(rest, '/')
      case None => None
      case Some(k) =>
        if k == 0 then None
        else
          match ParseTail(rest[k + 1..])
          case None => None
          case Some(tail) =>
            var u := DbUri(rest[..k], tail.0, tail.1);
            RenderSplit(uri, rest, k, u);
            Some(u)
  }

  /** A uri cut at the scheme and at the slash after the name renders back from its parts. */
  lemma RenderSplit(uri: string, rest: string, k: nat, u: DbUri)
    requires Scheme <= uri && rest == uri[|Scheme|..]
    requires k < |rest| && rest[k] == '/' && u.name == rest[..k]
    requires RenderTail(u.kind, u.query) == rest[k + 1..]
    ensures Render(u) == uri
  {
    assert rest == u.name + "/" + rest[k + 1..];
    assert uri == Scheme + rest;
  }

  /** Every well-shaped uri parses back to its parts: the parse inverts `Render`. */
  lemma ParseUriInverse(u: DbUri)
    requires WellShaped(u)
    ensures ParseUri(Render(u)) == Some(u)
  {
    var tail := RenderTail(u.kind, u.query);
    var rest := u.name + "/" + tail;
    assert Render(u) == Scheme + rest;
    assert Render(u)[|Scheme|..] == rest;
    assert rest[..|u.name|] == u.name && rest[|u.name|] == '/';
    IndexOfCharIs(rest, '/', |u.name|);
    assert rest[|u.name| + 1..] == tail;
    ParseTailInverse(u.kind, u.query);
    ParseUriOf(Render(u), rest, |u.name|, (u.kind, u.query));
  }

  /** The parse of a uri whose scheme, first slash and tail are known. */
  lemma ParseUriOf(uri: string, rest: string, k: nat, tail: (string, Option<string>))
    requires Scheme <= uri && rest == uri[|Scheme|..] && IndexOfChar(rest, '/') == Some(k) && k > 0
    requires ParseTail(rest[k + 1..]) == Some(tail)
    ensures ParseUri(uri) == Some(DbUri(rest[..k], tail.0, tail.1))
  {
  }

  /** One `name=value` pair of a query string; a pair without "=" has the empty value. */
  function PairOf(piece: string): (string, string)
  {
    match IndexOfChar(piece, '=')
    case None => (piece, "")
    case Some(e) => (piece[..e], piece[e + 1..])
  }

  function FirstValue(pieces: seq<string>, key: string): Option<string>
  {
    if |pieces| == 0 then None
    else if PairOf(pieces[0]).0 == key then Some(PairOf(pieces[0]).1)
    else FirstValue(pieces[1..], key)
  }

  /** `new URLSearchParams(q).get(key)` without percent-decoding: the value of the first pair named `key`. */
  function QueryGet(query: Option<string>, key: string): Option<string>
  {
    if query.None? then None else FirstValue(SplitChar(query.value, '&'), key)
  }

  /** A query string that starts with `key=value` yields that value, whatever pairs follow. */
  lemma QueryGetFirst(key: string, value: string, more: Option<string>)
    requires '&' !in key && '=' !in key && '&' !in value
    ensures var q := key + "=" + value + (if more.Some? then "&" + more.value else "");
      QueryGet(Some(q), key) == Some(value)
  {
    var piece := key + "=" + value;
    assert '&' !in piece;
    assert piece[..|key|] == key && piece[|key|] == '=';
    var e := IndexOfChar(piece, '=').value;
    assert e == |key|;
    assert piece[e + 1..] == value;
    assert PairOf(piece) == (key, value);
    if more.Some? {
      var q := key + "=" + value + "&" + more.value;
      assert q == piece + ['&'] + more.value;
      SplitCharFirst(piece, more.value, '&');
      assert SplitChar(q, '&')[0] == piece;
      assert FirstValue(SplitChar(q, '&'), key) == Some(value);
      assert key + "=" + value + (if more.Some? then "&" + more.value else "") == q;
    } else {
      assert key + "=" + value + "" == piece;
      SplitCharAbsent(piece, '&');
    }
  }

  /** A query string with no pair named `key` yields nothing. */
  lemma {:induction false} FirstValueAbsent(pieces: seq<string>, key: string)
    requires forall i :: 0 <= i < |pieces| ==> PairOf(pieces[i]).0 != key
    ensures FirstValue(pieces, key).None?
  {
    if |pieces| > 0 {
      FirstValueAbsent(pieces[1..], key);
    }
  }

  /** `formatResponse(data)`. */
  function Format(data: Value): Value
  {
    Obj([("content", JsonText(Pretty(data))), ("mimeType", Str("application/json"))])
  }

  /** `Promise.all` over the info of every database: all of them, or the first failure in list order. */
  function AllInfo(pg: Pg, names: seq<string>, dbs: seq<string>): (r: Result<seq<Value>>)
    ensures r.Ok? ==> (|r.value| == |dbs| &&
      forall i :: 0 <= i < |dbs| ==> DatabaseInfo(pg, names, dbs[i]) == Ok(r.value[i]))
    ensures r.Err? ==> exists i :: 0 <= i < |dbs| && DatabaseInfo(pg, names, dbs[i]) == Err(r.msg)
  {
    if |dbs| == 0 then Ok([])
    else match DatabaseInfo(pg, names, dbs[0])
      case Err(m) => Err(m)
      case Ok(v) =>
        match AllInfo(pg, names, dbs[1..])
        case Err(m) => Err(m)
        case Ok(vs) => Ok([v] + vs)
  }

  /** The `info` branch: one database, or every database of the manager. */
  function InfoOf(pg: Pg, names: seq<string>, name: string): Result<Value>
  {
    if name == "all" then
      match AllInfo(pg, names, names)
      case Err(m) => Err(m)
      case Ok(infos) => Ok(Format(Arr(infos)))
    else
      match DatabaseInfo(pg, names, name)
      case Err(m) => Err(m)
      case Ok(info) => Ok(Format(info))
  }

  /** What the `search` branch searches, with limit 50. */
  function SearchResults(pg: Pg, names: seq<string>, name: string, term: string): Result<seq<Hit>>
  {
    if name == "all" then Ok(SearchAcross(pg, names, term, Num(SearchLimit)))
    else SearchIn(pg, name, term, Num(SearchLimit))
  }

  /** The `search` answer: the term, the hits, and the name from the uri. */
  function SearchAnswer(term: string, hits: seq<Hit>, name: string): Value
  {
    Format(Obj([("searchTerm", Str(term)), ("results", HitsValue(hits)), ("database", Str(name))]))
  }

  function SearchOf(pg: Pg, names: seq<string>, name: string, query: Option<string>): Result<Value>
  {
    var term := QueryGet(query, "term");
    if term.None? || term.value == "" then Err(SearchTermMissing)
    else match SearchResults(pg, names, name, term.value)
      case Err(m) => Err(m)
      case Ok(hits) => Ok(SearchAnswer(term.value, hits, name))
  }

  /** What the `count` branch counts: the whole `countOccurrences` record, or one database's count. */
  function CountResult(pg: Pg, names: seq<string>, name: string, term: string): Result<Value>
  {
    if name == "all" then
      var (total, byDb) := CountAll(pg, names, term);
      Ok(CountAllValue(total, byDb))
    else
      match CountIn(pg, name, term)
      case Err(m) => Err(m)
      case Ok(c) => Ok(CountValue(c))
  }

  function CountAnswer(term: string, count: Value): Value
  {
    Format(Obj([("term", Str(term)), ("count", count)]))
  }

  function CountOf(pg: Pg, names: seq<string>, name: string, query: Option<string>): Result<Value>
  {
    var term := QueryGet(query, "term");
    if term.None? || term.value == "" then Err(CountTermMissing)
    else match CountResult(pg, names, name, term.value)
      case Err(m) => Err(m)
      case Ok(c) => Ok(CountAnswer(term.value, c))
  }

  /**
   * The body of `read` before its catch. `manager` is the names of the
   * database manager's pools, `None` when the manager was never initialised.
   */
  function Dispatch(pg: Pg, manager: Option<seq<string>>, uri: string): Result<Value>
  {
    match ParseUri(uri)
    case None => Err("URI inválida: " + uri)
    case Some(u) =>
      if manager.None? then Err(NotInitializedMessage)
      else if u.kind == "info" then InfoOf(pg, manager.value, u.name)
      else if u.kind == "search" then SearchOf(pg, manager.value, u.name, u.query)
      else if u.kind == "count" then CountOf(pg, manager.value, u.name, u.query)
      else Err(Unsupported(u.kind))
  }

  /** `read(uri)`: every failure is rethrown as the printed error behind one prefix. */
  function Read(pg: Pg, manager: Option<seq<string>>, uri: string): Result<Value>
  {
    match Dispatch(pg, manager, uri)
    case Err(m) => Err(ReadFailurePrefix + ErrorString(m))
    case Ok(v) => Ok(v)
  }

  /** The failures of `read` that depend on the uri and the manager alone, each with its message. */
  lemma ReadRejections(pg: Pg, manager: Option<seq<string>>, uri: string)
    ensures ParseUri(uri).None? ==>
      Read(pg, manager, uri) == Err(ReadFailurePrefix + ErrorString("URI inválida: " + uri))
    ensures ParseUri(uri).Some? && manager.None? ==>
      Read(pg, manager, uri) == Err(ReadFailurePrefix + ErrorString(NotInitializedMessage))
    ensures ParseUri(uri).Some? && manager.Some? && ParseUri(uri).value.kind !in ["info", "search", "count"] ==>
      Read(pg, manager, uri) == Err(ReadFailurePrefix + ErrorString(Unsupported(ParseUri(uri).value.kind)))
  {
    if ParseUri(uri).Some? && manager.Some? && ParseUri(uri).value.kind !in ["info", "search", "count"] {
      ReadUnsupported(pg, manager.value, uri);
    }
  }

  lemma ReadUnsupported(pg: Pg, names: seq<string>, uri: string)
    requires ParseUri(uri).Some? && ParseUri(uri).value.kind !in ["info", "search", "count"]
    ensures Dispatch(pg, Some(names), uri) == Err(Unsupported(ParseUri(uri).value.kind))
  {
    var kind := ParseUri(uri).value.kind;
    assert kind != "info" && kind != "search" && kind != "count";
  }

  /** A search or count whose `term` is missing or empty fails before any query, with the branch's message. */
  lemma ReadMissingTerm(pg: Pg, names: seq<string>, uri: string)
    requires ParseUri(uri).Some?
    requires var term := QueryGet(ParseUri(uri).value.query, "term"); term.None? || term.value == ""
    ensures ParseUri(uri).value.kind == "search" ==>
      Read(pg, Some(names), uri) == Err(ReadFailurePrefix + ErrorString(SearchTermMissing))
    ensures ParseUri(uri).value.kind == "count" ==>
      Read(pg, Some(names), uri) == Err(ReadFailurePrefix + ErrorString(CountTermMissing))
  {
  }

  /** A query string holding just `term=<t>`, written after a type. */
  lemma TermQuery(term: string)
    requires NoLineTerminator(term) && '&' !in term
    ensures NoLineTerminator("term=" + term)
    ensures QueryGet(Some("term=" + term), "term") == Some(term)
  {
    forall i | 0 <= i < |"term=" + term| ensures !IsLineTerminator(("term=" + term)[i]) {
      if i >= 5 { assert ("term=" + term)[i] == term[i - 5]; }
    }
    QueryGetFirst("term", term, None);
    assert "term" + "=" + term + "" == "term=" + term;
  }

  /**
   * A search of one named database or of all of them, written out as a uri:
   * it runs with limit 50 and answers exactly when that search does.
   */
  lemma SearchRead(pg: Pg, names: seq<string>, db: string, term: string)
    requires |db| > 0 && '/' !in db && NoLineTerminator(term) && '&' !in term && |term| > 0
    ensures var r := Read(pg, Some(names), Render(DbUri(db, "search", Some("term=" + term))));
      var results := SearchResults(pg, names, db, term);
      (r.Ok? <==> results.Ok?) &&
      (results.Ok? ==> r == Ok(SearchAnswer(term, results.value, db)))
  {
    TermQuery(term);
    ParseUriInverse(DbUri(db, "search", Some("term=" + term)));
    KindsDistinct();
    assert Dispatch(pg, Some(names), Render(DbUri(db, "search", Some("term=" + term)))) ==
      SearchOf(pg, names, db, Some("term=" + term));
  }

  /** The three resource types are different words. */
  lemma KindsDistinct()
    ensures "search" != "info" && "count" != "info" && "count" != "search"
  {
    assert "search"[0] != "info"[0] && "count"[0] != "info"[0] && "count"[0] != "search"[0];
  }

  /** A count of all databases answers with the total and the per-database record of `countOccurrences`. */
  lemma CountAllRead(pg: Pg, names: seq<string>, term: string)
    requires NoLineTerminator(term) && '&' !in term && |term| > 0
    ensures Read(pg, Some(names), Render(DbUri("all", "count", Some("term=" + term)))) ==
      Ok(CountAnswer(term, CountAllValue(CountAll(pg, names, term).0, CountAll(pg, names, term).1)))
  {
    TermQuery(term);
    ParseUriInverse(DbUri("all", "count", Some("term=" + term)));
    KindsDistinct();
    assert Dispatch(pg, Some(names), Render(DbUri("all", "count", Some("term=" + term)))) ==
      CountOf(pg, names, "all", Some("term=" + term));
  }

  /** `getResourceInfo`. */
  const ResourceInfo: Value := Obj([
    ("uri", Str("database://{databaseName}/{resourceType}")),
    ("name", Str("Database Resource")),
    ("description", Str("Información y búsqueda en bases de datos de la empresa")),
    ("mimeType", Str("application/json"))])
}
