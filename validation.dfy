/**
 * Message validation following JSON-RPC 2.0 (section 4, the request object;
 * section 4.1, notifications; section 5, the response object whose `result`
 * and `error` members exclude each other; section 5.1, the error object), and
 * the output sanitiser that makes a value JSON-clean.
 */
module JsonRpcValidation {
  import opened Common
  import opened Js

  /** `typeof v === 'object' && v !== null`: plain objects and arrays. */
  predicate IsObjectValue(v: Value)
  {
    v.Obj? || v.Arr?
  }

  /** An `id` member, when present, is a string, a number or null. */
  predicate IdAcceptable(id: Value)
  {
    id.Undefined? || id.Str? || id.Num? || id.Null?
  }

  /** A `params` member, when present, is structured (an object, an array, or the object-typed null). */
  predicate ParamsAcceptable(p: Value)
  {
    p.Undefined? || TypeOf(p) == "object"
  }

  /** An `error` member, when present, is an object with a numeric `code` and a string `message`. */
  predicate ErrorAcceptable(e: Value)
  {
    e.Undefined? || (IsObjectValue(e) && Get(e, "code").Num? && Get(e, "message").Str?)
  }

  /** The conditions the validator enforces, stated together. */
  predicate WellFormedMessage(m: Value)
  {
    IsObjectValue(m) &&
    Get(m, "jsonrpc") == Str("2.0") &&
    IdAcceptable(Get(m, "id")) &&
    (Get(m, "method").Undefined? || Get(m, "method").Str?) &&
    ParamsAcceptable(Get(m, "params")) &&
    !(!Get(m, "result").Undefined? && !Get(m, "error").Undefined?) &&
    ErrorAcceptable(Get(m, "error"))
  }

  /** `isValidJsonRpcMessage`: a chain of guards, each rejecting one malformed member. */
  function IsValidJsonRpcMessage(m: Value): (ok: bool)
    ensures ok <==> WellFormedMessage(m)
  {
    if TypeOf(m) != "object" || m == Null then false
    else if Get(m, "jsonrpc") != Str("2.0") then false
    else if !Get(m, "id").Undefined? && TypeOf(Get(m, "id")) != "string"
         && TypeOf(Get(m, "id")) != "number" && Get(m, "id") != Null then false
    else if !Get(m, "method").Undefined? && TypeOf(Get(m, "method")) != "string" then false
    else if !Get(m, "params").Undefined? && TypeOf(Get(m, "params")) != "object" && !Get(m, "params").Arr? then false
    else if !Get(m, "result").Undefined? && !Get(m, "error").Undefined? then false
    else if !Get(m, "error").Undefined? then
      var e := Get(m, "error");
      if TypeOf(e) != "object" || e == Null then false
      else if TypeOf(Get(e, "code")) != "number" then false
      else if TypeOf(Get(e, "message")) != "string" then false
      else true
    else true
  }

  /** Every member except `jsonrpc` is optional: the bare envelope is accepted. */
  lemma BareEnvelopeAccepted()
    ensures IsValidJsonRpcMessage(Obj([("jsonrpc", Str("2.0"))]))
  {
  }

  /** Anything that is not a non-null object, or whose `jsonrpc` is not exactly "2.0", is rejected. */
  lemma RejectsNonEnvelope(m: Value)
    requires !IsObjectValue(m) || Get(m, "jsonrpc") != Str("2.0")
    ensures !IsValidJsonRpcMessage(m)
  {
  }

  /** A message carrying both a `result` and an `error` is rejected, whatever else it holds. */
  lemma RejectsResultAndError(m: Value)
    requires !Get(m, "result").Undefined? && !Get(m, "error").Undefined?
    ensures !IsValidJsonRpcMessage(m)
  {
  }

  const JsonParseUndefinedError: string := "\"undefined\" is not valid JSON"

  /**
   * The replacer of `sanitizeJsonOutput` applied below the root: `undefined`
   * becomes null, a function inside an array serialises as null, and a function
   * member of an object is dropped.
   */
  function Clean(v: Value): (r: Value)
    decreases v
  {
    match v
    case Undefined => Null
    case Arr(xs) => Arr(seq(|xs|, i requires 0 <= i < |xs| => if xs[i].Func? then Null else Clean(xs[i])))
    case Obj(fs) =>
      Obj(DropFunctionMembers(seq(|fs|, i requires 0 <= i < |fs| => (fs[i].0, fs[i].1.Func?, Clean(fs[i].1)))))
    case _ => v
  }

  /** Keeps the members whose original value was not a function. */
  function DropFunctionMembers(ms: seq<(string, bool, Value)>): (r: seq<(string, Value)>)
    ensures |r| <= |ms|
  {
    if |ms| == 0 then []
    else if ms[0].1 then DropFunctionMembers(ms[1..])
    else [(ms[0].0, ms[0].2)] + DropFunctionMembers(ms[1..])
  }

  /** Every kept member comes from a non-function member of the input. */
  lemma {:induction false} DropOrigin(ms: seq<(string, bool, Value)>, i: nat)
    requires i < |DropFunctionMembers(ms)|
    ensures exists j :: 0 <= j < |ms| && !ms[j].1 && DropFunctionMembers(ms)[i] == (ms[j].0, ms[j].2)
  {
    if ms[0].1 {
      DropOrigin(ms[1..], i);
      var j :| 0 <= j < |ms[1..]| && !ms[1..][j].1 && DropFunctionMembers(ms[1..])[i] == (ms[1..][j].0, ms[1..][j].2);
      assert ms[j + 1] == ms[1..][j];
    } else if i > 0 {
      DropOrigin(ms[1..], i - 1);
      var j :| 0 <= j < |ms[1..]| && !ms[1..][j].1 && DropFunctionMembers(ms[1..])[i - 1] == (ms[1..][j].0, ms[1..][j].2);
      assert ms[j + 1] == ms[1..][j];
    }
  }

  /**
   * `sanitizeJsonOutput(v)`: the serialise/parse round trip. A function at the
   * root serialises to `undefined`, which the parse rejects.
   */
  function SanitizeJsonOutput(v: Value): (r: Result<Value>)
    ensures r.Err? <==> v.Func?
  {
    if v.Func? then Err(JsonParseUndefinedError) else Ok(Clean(v))
  }

  /** Below the root, every value comes out JSON-clean. */
  lemma {:induction false} CleanIsJson(v: Value)
    requires !v.Func?
    ensures IsJson(Clean(v))
    decreases v
  {
    match v
    case Arr(xs) =>
      var r := Clean(v).items;
      forall i | 0 <= i < |r| ensures IsJson(r[i]) {
        if !xs[i].Func? { CleanIsJson(xs[i]); }
      }
    case Obj(fs) =>
      var ms := seq(|fs|, i requires 0 <= i < |fs| => (fs[i].0, fs[i].1.Func?, Clean(fs[i].1)));
      var r := DropFunctionMembers(ms);
      assert Clean(v) == Obj(r);
      forall i | 0 <= i < |r| ensures IsJson(r[i].1) {
        DropOrigin(ms, i);
        var j :| 0 <= j < |ms| && !ms[j].1 && r[i] == (ms[j].0, ms[j].2);
        CleanIsJson(fs[j].1);
      }
    case _ =>
  }

  lemma {:induction false} DropNoFunctions(ms: seq<(string, bool, Value)>)
    requires forall i :: 0 <= i < |ms| ==> !ms[i].1
    ensures DropFunctionMembers(ms) == seq(|ms|, i requires 0 <= i < |ms| => (ms[i].0, ms[i].2))
  {
    if |ms| > 0 {
      DropNoFunctions(ms[1..]);
    }
  }

  /** A value that is already JSON-clean passes through unchanged. */
  lemma {:induction false} CleanIdentity(v: Value)
    requires IsJson(v)
    ensures Clean(v) == v
    decreases v
  {
    match v
    case Arr(xs) =>
      forall i | 0 <= i < |xs| ensures Clean(xs[i]) == xs[i] { CleanIdentity(xs[i]); }
      assert Clean(v).items == xs;
    case Obj(fs) =>
      var ms := seq(|fs|, i requires 0 <= i < |fs| => (fs[i].0, fs[i].1.Func?, Clean(fs[i].1)));
      forall i | 0 <= i < |fs| ensures Clean(fs[i].1) == fs[i].1 { CleanIdentity(fs[i].1); }
      DropNoFunctions(ms);
      assert DropFunctionMembers(ms) == fs;
    case _ =>
  }

  /** Sanitising yields JSON-clean output, leaves clean values alone, and so is idempotent. */
  lemma SanitizeProperties(v: Value)
    ensures SanitizeJsonOutput(v).Ok? ==> IsJson(SanitizeJsonOutput(v).value)
    ensures IsJson(v) ==> SanitizeJsonOutput(v) == Ok(v)
    ensures SanitizeJsonOutput(v).Ok? ==>
      SanitizeJsonOutput(SanitizeJsonOutput(v).value) == SanitizeJsonOutput(v)
  {
    if !v.Func? {
      CleanIsJson(v);
      CleanIdentity(Clean(v));
      if IsJson(v) { CleanIdentity(v); }
    }
  }

  /** A member that was `undefined` reads back as null; a function member is gone. */
  lemma SanitizeMember(fs: seq<(string, Value)>, k: nat)
    requires k < |fs|
    ensures fs[k].1.Undefined? ==> Clean(fs[k].1) == Null
    ensures !fs[k].1.Func? ==> (exists j :: 0 <= j < |Clean(Obj(fs)).fields| && Clean(Obj(fs)).fields[j] == (fs[k].0, Clean(fs[k].1)))
  {
    if !fs[k].1.Func? {
      var ms := seq(|fs|, i requires 0 <= i < |fs| => (fs[i].0, fs[i].1.Func?, Clean(fs[i].1)));
      assert Clean(Obj(fs)).fields == DropFunctionMembers(ms);
      assert ms[k] == (fs[k].0, false, Clean(fs[k].1));
      DropKeeps(ms, k);
    }
  }

  lemma {:induction false} DropKeeps(ms: seq<(string, bool, Value)>, k: nat)
    requires k < |ms| && !ms[k].1
    ensures exists j :: 0 <= j < |DropFunctionMembers(ms)| && DropFunctionMembers(ms)[j] == (ms[k].0, ms[k].2)
  {
    if k == 0 {
      assert DropFunctionMembers(ms)[0] == (ms[0].0, ms[0].2);
    } else {
      DropKeeps(ms[1..], k - 1);
      var j :| 0 <= j < |DropFunctionMembers(ms[1..])| && DropFunctionMembers(ms[1..])[j] == (ms[1..][k - 1].0, ms[1..][k - 1].2);
      if ms[0].1 {
        assert DropFunctionMembers(ms) == DropFunctionMembers(ms[1..]);
      } else {
        assert DropFunctionMembers(ms)[j + 1] == DropFunctionMembers(ms[1..])[j];
      }
    }
  }
}
