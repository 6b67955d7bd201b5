/**
 * The small string utilities of the backend: cutting a string to a length,
 * capitalising its first letter, and escaping line breaks and tabs in a value
 * before it is written to a log.
 */
module StringHelpers {
  import opened Strs
  import opened Js

  /**
   * `truncateString(s, maxLength)`. A negative limit cuts to nothing, as
   * `substring` clamps a negative end to 0.
   */
  function TruncateString(s: string, maxLength: int): (r: string)
  {
    if |s| <= maxLength then s
    else s[..if maxLength < 0 then 0 else maxLength] + "..."
  }

  /** A string within the limit is returned as it is; a longer one keeps exactly the first `maxLength` characters and gains "...". */
  lemma TruncateStringSpec(s: string, maxLength: nat)
    ensures |s| <= maxLength ==> TruncateString(s, maxLength) == s
    ensures |s| > maxLength ==>
      |TruncateString(s, maxLength)| == maxLength + 3 &&
      TruncateString(s, maxLength)[..maxLength] == s[..maxLength] &&
      TruncateString(s, maxLength)[maxLength..] == "..."
    ensures |TruncateString(s, maxLength)| <= maxLength + 3
  {
  }

  /** `capitalizeFirst(s)`: `charAt(0).toUpperCase() + slice(1)`. */
  function CapitalizeFirst(s: string): (r: string)
  {
    if |s| == 0 then "" else [UpperChar(s[0])] + s[1..]
  }

  /** Only the first character changes, to its upper case, and capitalising twice changes nothing more. */
  lemma CapitalizeFirstSpec(s: string)
    ensures |CapitalizeFirst(s)| == |s|
    ensures |s| > 0 ==> CapitalizeFirst(s)[0] == UpperChar(s[0]) && CapitalizeFirst(s)[1..] == s[1..]
    ensures CapitalizeFirst(CapitalizeFirst(s)) == CapitalizeFirst(s)
  {
  }

  /** `s.replace(/c/g, rep)` for a one-character pattern. */
  function ReplaceChar(s: string, c: char, rep: string): (r: string)
  {
    if |s| == 0 then "" else (if s[0] == c then rep else [s[0]]) + ReplaceChar(s[1..], c, rep)
  }

  /** A replacement that does not contain `c` leaves no `c` behind, and every other character is kept or comes from `rep`. */
  lemma {:induction false} ReplaceCharSpec(s: string, c: char, rep: string, d: char)
    requires c !in rep
    ensures c !in ReplaceChar(s, c, rep)
    ensures d != c && d !in rep ==> (d in ReplaceChar(s, c, rep) <==> d in s)
  {
    if |s| > 0 {
      ReplaceCharSpec(s[1..], c, rep, d);
      assert s == [s[0]] + s[1..];
    }
  }

  /** Without any `c`, the replacement is the identity. */
  lemma {:induction false} ReplaceCharAbsent(s: string, c: char, rep: string)
    requires c !in s
    ensures ReplaceChar(s, c, rep) == s
  {
    if |s| > 0 {
      ReplaceCharAbsent(s[1..], c, rep);
      assert s == [s[0]] + s[1..];
    }
  }

  /** The two replacements `sanitizeForLog` applies to a string, newlines first. */
  function EscapeForLog(s: string): string
  {
    ReplaceChar(ReplaceChar(s, '\n', "\\n"), '\t', "\\t")
  }

  /** An escaped string holds no raw newline or tab, and escaping it again changes nothing. */
  lemma EscapeForLogSpec(s: string)
    ensures '\n' !in EscapeForLog(s) && '\t' !in EscapeForLog(s)
    ensures EscapeForLog(EscapeForLog(s)) == EscapeForLog(s)
  {
    var once := ReplaceChar(s, '\n', "\\n");
    ReplaceCharSpec(s, '\n', "\\n", '\t');
    ReplaceCharSpec(once, '\t', "\\t", '\n');
    var e := EscapeForLog(s);
    ReplaceCharAbsent(e, '\n', "\\n");
    ReplaceCharAbsent(e, '\t', "\\t");
  }

  /**
   * What `sanitizeForLog` returns: strings escaped; arrays and objects rebuilt
   * with every element and own property sanitised, in the same order; every
   * other value (including `null`) as it is.
   */
  function Sanitized(v: Value): Value
    decreases v
  {
    match v
    case Str(s) => Str(EscapeForLog(s))
    case Arr(xs) => Arr(seq(|xs|, i requires 0 <= i < |xs| => Sanitized(xs[i])))
    case Obj(fs) => Obj(seq(|fs|, i requires 0 <= i < |fs| => (fs[i].0, Sanitized(fs[i].1))))
    case _ => v
  }

  /** No string anywhere in the value holds a raw newline or tab. */
  predicate LogSafe(v: Value)
    decreases v
  {
    match v
    case Str(s) => '\n' !in s && '\t' !in s
    case Arr(xs) => forall i :: 0 <= i < |xs| ==> LogSafe(xs[i])
    case Obj(fs) => forall i :: 0 <= i < |fs| ==> LogSafe(fs[i].1)
    case _ => true
  }

  /** Sanitising keeps the shape and the keys, and its result is safe to log. */
  lemma {:induction false} SanitizedSafe(v: Value)
    ensures LogSafe(Sanitized(v))
    ensures v.Arr? ==> Sanitized(v).Arr? && |Sanitized(v).items| == |v.items|
    ensures v.Obj? ==> Sanitized(v).Obj? && Keys(Sanitized(v).fields) == Keys(v.fields)
    decreases v
  {
    match v
    case Str(s) => EscapeForLogSpec(s);
    case Arr(xs) =>
      forall i | 0 <= i < |xs| ensures LogSafe(Sanitized(xs[i])) {
        SanitizedSafe(xs[i]);
      }
    case Obj(fs) =>
      forall i | 0 <= i < |fs| ensures LogSafe(Sanitized(fs[i].1)) {
        SanitizedSafe(fs[i].1);
      }
    case _ =>
  }

  /** Sanitising twice equals sanitising once. */
  lemma {:induction false} SanitizedIdempotent(v: Value)
    ensures Sanitized(Sanitized(v)) == Sanitized(v)
    decreases v
  {
    match v
    case Str(s) => EscapeForLogSpec(s);
    case Arr(xs) =>
      var ys := Sanitized(v).items;
      forall i | 0 <= i < |xs| ensures Sanitized(ys[i]) == ys[i] {
        SanitizedIdempotent(xs[i]);
      }
      assert seq(|ys|, i requires 0 <= i < |ys| => Sanitized(ys[i])) == ys;
    case Obj(fs) =>
      var gs := Sanitized(v).fields;
      forall i | 0 <= i < |fs| ensures (gs[i].0, Sanitized(gs[i].1)) == gs[i] {
        SanitizedIdempotent(fs[i].1);
      }
      assert seq(|gs|, i requires 0 <= i < |gs| => (gs[i].0, Sanitized(gs[i].1))) == gs;
    case _ =>
  }

  /**
   * `sanitizeForLog(data)`: a fresh container is filled key by key, each value
   * sanitised by a recursive call. Keys are distinct, so every assignment adds
   * the key at the end.
   */
  method SanitizeForLog(data: Value) returns (r: Value)
    ensures r == Sanitized(data)
    decreases data
  {
    match data
    case Str(s) =>
      r := Str(ReplaceChar(ReplaceChar(s, '\n', "\\n"), '\t', "\\t"));
    case Arr(xs) =>
      var sanitized: seq<Value> := [];
      var i := 0;
      while i < |xs|
        invariant 0 <= i <= |xs|
        invariant |sanitized| == i
        invariant forall k :: 0 <= k < i ==> sanitized[k] == Sanitized(xs[k])
      {
        var item := SanitizeForLog(xs[i]);
        sanitized := sanitized + [item];
        i := i + 1;
      }
      r := Arr(sanitized);
    case Obj(fs) =>
      var sanitized: seq<(string, Value)> := [];
      var i := 0;
      while i < |fs|
        invariant 0 <= i <= |fs|
        invariant |sanitized| == i
        invariant forall k :: 0 <= k < i ==> sanitized[k] == (fs[k].0, Sanitized(fs[k].1))
      {
        var item := SanitizeForLog(fs[i].1);
        sanitized := sanitized + [(fs[i].0, item)];
        i := i + 1;
      }
      r := Obj(sanitized);
    case _ =>
      r := data;
  }
}
