/**
 * JavaScript values as the backend handles them (parsed JSON messages, tool
 * arguments, rows returned by the database), together with the runtime's
 * truthiness, `typeof`, `String(v)` and `JSON.stringify`.
 *
 * An object's fields are listed in its own-property enumeration order, keys are
 * expected to be distinct, and a missing property reads as `undefined`.
 * Numbers are integers; fractions, NaN and infinities are not modelled.
 */
module Js {
  import opened Common
  import opened Strs

  datatype Value =
    | Undefined
    | Null
    | Bool(b: bool)
    | Num(n: int)
    | Str(s: string)
    | Arr(items: seq<Value>)
    | Obj(fields: seq<(string, Value)>)
    | Func

  /** The first binding of `key` in a field list, or `undefined`. */
  function Lookup(fields: seq<(string, Value)>, key: string): Value
  {
    if |fields| == 0 then Undefined
    else if fields[0].0 == key then fields[0].1
    else Lookup(fields[1..], key)
  }

  /** Property access `v[key]`; only plain objects carry the properties the backend reads. */
  function Get(v: Value, key: string): Value
  {
    if v.Obj? then Lookup(v.fields, key) else Undefined
  }

  predicate HasKey(fields: seq<(string, Value)>, key: string)
  {
    exists i :: 0 <= i < |fields| && fields[i].0 == key
  }

  function Keys(fields: seq<(string, Value)>): (r: seq<string>)
    ensures |r| == |fields|
  {
    seq(|fields|, i requires 0 <= i < |fields| => fields[i].0)
  }

  /** Setting an existing key keeps its position; a new key goes last. */
  function SetField(fields: seq<(string, Value)>, key: string, v: Value): (r: seq<(string, Value)>)
  {
    if |fields| == 0 then [(key, v)]
    else if fields[0].0 == key then [(key, v)] + fields[1..]
    else [fields[0]] + SetField(fields[1..], key, v)
  }

  lemma {:induction false} SetFieldLookup(fields: seq<(string, Value)>, key: string, v: Value, other: string)
    ensures Lookup(SetField(fields, key, v), key) == v
    ensures other != key ==> Lookup(SetField(fields, key, v), other) == Lookup(fields, other)
  {
    if |fields| > 0 && fields[0].0 != key {
      SetFieldLookup(fields[1..], key, v, other);
    }
  }

  /** A key is in a field list when it is the first field's or in the rest. */
  lemma HasKeyCons(fields: seq<(string, Value)>, other: string)
    requires |fields| > 0
    ensures HasKey(fields, other) <==> fields[0].0 == other || HasKey(fields[1..], other)
  {
    if HasKey(fields, other) && fields[0].0 != other {
      var i :| 0 <= i < |fields| && fields[i].0 == other;
      assert fields[1..][i - 1].0 == other;
    }
    if HasKey(fields[1..], other) {
      var i :| 0 <= i < |fields[1..]| && fields[1..][i].0 == other;
      assert fields[i + 1].0 == other;
    }
  }

  /** Setting a key adds that key and keeps every other. */
  lemma {:induction false} SetFieldKeys(fields: seq<(string, Value)>, key: string, v: Value, other: string)
    ensures HasKey(SetField(fields, key, v), other) <==> HasKey(fields, other) || other == key
  {
    var r := SetField(fields, key, v);
    if |fields| == 0 {
      assert r[0].0 == key;
    } else if fields[0].0 == key {
      HasKeyCons(fields, other);
      HasKeyCons(r, other);
      assert r[1..] == fields[1..];
    } else {
      SetFieldKeys(fields[1..], key, v, other);
      HasKeyCons(fields, other);
      HasKeyCons(r, other);
      assert r[1..] == SetField(fields[1..], key, v);
    }
  }

  /** A property reads the value of its first occurrence among the fields. */
  lemma {:induction false} LookupAt(fields: seq<(string, Value)>, j: nat, key: string)
    requires j < |fields| && fields[j].0 == key
    requires forall i :: 0 <= i < j ==> fields[i].0 != key
    ensures Lookup(fields, key) == fields[j].1
  {
    if j > 0 {
      LookupAt(fields[1..], j - 1, key);
    }
  }

  /** JavaScript truthiness. */
  predicate Truthy(v: Value)
  {
    match v
    case Undefined => false
    case Null => false
    case Bool(b) => b
    case Num(n) => n != 0
    case Str(s) => s != ""
    case _ => true
  }

  /** The `typeof` operator. */
  function TypeOf(v: Value): string
  {
    match v
    case Undefined => "undefined"
    case Null => "object"
    case Bool(_) => "boolean"
    case Num(_) => "number"
    case Str(_) => "string"
    case Arr(_) => "object"
    case Obj(_) => "object"
    case Func => "function"
  }

  function BoolStr(b: bool): string
  {
    if b then "true" else "false"
  }

  /** The text a function value converts to; its source text is not modelled. */
  const FuncText: string := "function () { [native code] }"

  /** `String(v)`, also what a template literal `${v}` prints. */
  function ToStr(v: Value): string
  {
    match v
    case Undefined => "undefined"
    case Null => "null"
    case Bool(b) => BoolStr(b)
    case Num(n) => IntStr(n)
    case Str(s) => s
    case Arr(xs) =>
      Join(seq(|xs|, i requires 0 <= i < |xs| =>
        if xs[i].Undefined? || xs[i].Null? then "" else ToStr(xs[i])), ",")
    case Obj(_) => "[object Object]"
    case Func => FuncText
  }

  /**
   * `Number(s)` on a string, truncated toward zero as each integer use of it
   * here truncates; `None` is NaN. Surrounding white space is ignored and a
   * blank string is 0; otherwise the text must be an unsigned `0x` literal, or
   * a sign and decimal digits with an optional fraction.
   */
  function StringToInteger(s: string): Option<int>
  {
    var t := Trim(s);
    if t == "" then Some(0)
    else if HexPrefixed(t) then HexLiteral(t[2..])
    else if t[0] == '-' then Negated(DecimalLiteral(t[1..]))
    else if t[0] == '+' then DecimalLiteral(t[1..])
    else DecimalLiteral(t)
  }

  predicate HexPrefixed(t: string)
  {
    |t| > 2 && t[0] == '0' && (t[1] == 'x' || t[1] == 'X')
  }

  /** The digits after `0x`: all hexadecimal, or NaN. */
  function HexLiteral(ds: string): Option<int>
  {
    if Digits(ds, true) == ds then Some(DigitsValue(ds, true)) else None
  }

  function Negated(v: Option<int>): Option<int>
  {
    if v.Some? then Some(-v.value) else None
  }

  /** Unsigned decimal text with an optional fraction, as its integer part; at least one digit is needed. */
  function DecimalLiteral(r: string): Option<int>
  {
    var whole := Digits(r, false);
    var rest := r[|whole|..];
    var point := |rest| > 0 && rest[0] == '.';
    var frac := if point then Digits(rest[1..], false) else "";
    if |whole| + (if point then 1 + |frac| else 0) == |r| && |whole| + |frac| > 0 then Some(DigitsValue(whole, false))
    else None
  }

  /** Plain decimal digits are read as the number they denote. */
  lemma DecimalDigits(ds: string)
    requires |ds| > 0 && forall i :: 0 <= i < |ds| ==> DigitValue(ds[i], false).Some?
    ensures DecimalLiteral(ds) == Some(DigitsValue(ds, false))
  {
    DigitsAll(ds, false);
    assert ds[|ds|..] == "";
  }

  /**
   * `Number(v)` truncated toward zero, the conversion `slice`, `Math.max` and
   * `Math.min` apply; `None` is NaN. Arrays, objects and functions convert
   * through their text.
   */
  function ToInteger(v: Value): Option<int>
  {
    match v
    case Undefined => None
    case Null => Some(0)
    case Bool(b) => Some(if b then 1 else 0)
    case Num(n) => Some(n)
    case Str(s) => StringToInteger(s)
    case _ => StringToInteger(ToStr(v))
  }

  /** Trimmed text that is not a `0x` literal is read by its sign and the decimal text after it. */
  lemma TrimmedToInteger(t: string)
    requires Trim(t) == t && t != "" && !HexPrefixed(t)
    ensures StringToInteger(t) ==
      if t[0] == '-' then Negated(DecimalLiteral(t[1..]))
      else if t[0] == '+' then DecimalLiteral(t[1..])
      else DecimalLiteral(t)
  {
  }

  /** The text `String(n)` prints for an integer converts back to it. */
  lemma IntStrToInteger(n: int)
    ensures StringToInteger(IntStr(n)) == Some(n)
  {
    if n < 0 {
      var m: nat := -n;
      var s := "-" + NatStr(m);
      assert IntStr(n) == s;
      NegativeToInteger(m);
      assert StringToInteger(s) == Some(n);
    } else {
      assert IntStr(n) == NatStr(n);
      NatStrToInteger(n);
    }
  }

  lemma NatStrToInteger(m: nat)
    ensures StringToInteger(NatStr(m)) == Some(m)
  {
    NatStrValue(m);
    ValuedDigits(NatStr(m), m);
  }

  lemma ValuedDigits(ds: string, m: nat)
    requires |ds| > 0 && forall i :: 0 <= i < |ds| ==> DigitValue(ds[i], false).Some?
    requires DigitsValue(ds, false) == m
    ensures StringToInteger(ds) == Some(m)
  {
    DigitsToInteger(ds);
  }

  lemma NegativeToInteger(m: nat)
    ensures StringToInteger("-" + NatStr(m)) == Some(-(m as int))
  {
    NatStrValue(m);
    NegatedDigits(NatStr(m), m);
  }

  lemma NegatedDigits(ds: string, m: nat)
    requires |ds| > 0 && forall i :: 0 <= i < |ds| ==> DigitValue(ds[i], false).Some?
    requires DigitsValue(ds, false) == m
    ensures StringToInteger("-" + ds) == Some(-(m as int))
  {
    assert Negated(Some(DigitsValue(ds, false))) == Some(-(m as int));
    MinusDigitsToInteger(ds);
  }

  /** A minus sign before decimal digits negates their number. */
  lemma MinusDigitsToInteger(ds: string)
    requires |ds| > 0 && forall i :: 0 <= i < |ds| ==> DigitValue(ds[i], false).Some?
    ensures StringToInteger("-" + ds) == Negated(Some(DigitsValue(ds, false)))
  {
    var s := "-" + ds;
    assert s[1..] == ds;
    assert forall i :: 1 <= i < |s| ==> s[i] == ds[i - 1];
    SignedDigitsToInteger(s);
  }

  /** Decimal digits convert to the number they denote. */
  lemma DigitsToInteger(ds: string)
    requires |ds| > 0 && forall i :: 0 <= i < |ds| ==> DigitValue(ds[i], false).Some?
    ensures StringToInteger(ds) == Some(DigitsValue(ds, false))
  {
    DigitsEdges(ds);
    TrimPadded(ds);
    TrimmedToInteger(ds);
    DecimalDigits(ds);
  }

  lemma SignedDigitsToInteger(s: string)
    requires |s| > 1 && s[0] == '-'
    requires forall i :: 1 <= i < |s| ==> DigitValue(s[i], false).Some?
    ensures forall i :: 0 <= i < |s[1..]| ==> DigitValue(s[1..][i], false).Some?
    ensures StringToInteger(s) == Negated(Some(DigitsValue(s[1..], false)))
  {
    var ds := s[1..];
    assert forall i :: 0 <= i < |ds| ==> ds[i] == s[i + 1];
    SignedEdges(s);
    TrimPadded(s);
    DecimalDigits(ds);
    NegativeText(s, DigitsValue(ds, false));
  }

  lemma SignedEdges(s: string)
    requires |s| > 1 && s[0] == '-'
    requires forall i :: 1 <= i < |s| ==> DigitValue(s[i], false).Some?
    ensures !IsSpace(s[0]) && !IsSpace(s[|s| - 1]) && !HexPrefixed(s)
  {
    assert DigitValue(s[|s| - 1], false).Some?;
  }

  lemma NegativeText(t: string, v: int)
    requires Trim(t) == t && t != "" && !HexPrefixed(t) && t[0] == '-'
    requires DecimalLiteral(t[1..]) == Some(v)
    ensures StringToInteger(t) == Some(-v)
  {
    TrimmedToInteger(t);
  }

  /** A run of decimal digits neither starts nor ends with white space, a sign or `0x`. */
  lemma DigitsEdges(ds: string)
    requires |ds| > 0 && forall i :: 0 <= i < |ds| ==> DigitValue(ds[i], false).Some?
    ensures !IsSpace(ds[0]) && !IsSpace(ds[|ds| - 1]) && !HexPrefixed(ds)
    ensures ds[0] != '-' && ds[0] != '+'
  {
    assert DigitValue(ds[0], false).Some?;
    assert DigitValue(ds[|ds| - 1], false).Some?;
    if |ds| > 1 {
      assert DigitValue(ds[1], false).Some?;
    }
  }

  /**
   * A number written as text, padded with spaces, or wrapped in a one-element
   * array converts to that number; the empty array and `null` are 0, a plain
   * object is NaN.
   */
  lemma ToIntegerSpec(n: int)
    ensures ToInteger(Num(n)) == Some(n)
    ensures ToInteger(Str(IntStr(n))) == Some(n)
    ensures ToInteger(Str(" " + IntStr(n) + " ")) == Some(n)
    ensures ToInteger(Arr([Num(n)])) == Some(n)
    ensures ToInteger(Arr([])) == Some(0) && ToInteger(Null) == Some(0)
    ensures ToInteger(Obj([])) == None
  {
    PaddedIntStrToInteger(n);
    SingletonToInteger(n);
    EmptyArrayToInteger();
    ObjectToInteger();
  }

  lemma PaddedIntStrToInteger(n: int)
    ensures StringToInteger(IntStr(n)) == Some(n)
    ensures StringToInteger(" " + IntStr(n) + " ") == Some(n)
  {
    var s := IntStr(n);
    IntStrToInteger(n);
    IntStrEdges(n);
    PaddedToInteger(s);
    assert StringToInteger(" " + s + " ") == Some(n);
  }

  /** A one-element array prints as its element, so converts as it does. */
  lemma SingletonToInteger(n: int)
    ensures ToInteger(Arr([Num(n)])) == Some(n)
  {
    var s := IntStr(n);
    assert ToStr(Arr([Num(n)])) == s;
    IntStrToInteger(n);
    assert StringToInteger(s) == Some(n);
  }

  /** `String(n)` neither starts nor ends with white space. */
  lemma IntStrEdges(n: int)
    ensures var s := IntStr(n); |s| > 0 && !IsSpace(s[0]) && !IsSpace(s[|s| - 1])
  {
    var m: nat := if n < 0 then -n else n;
    NatStrValue(m);
    DigitsEdges(NatStr(m));
    if n < 0 {
      var s := "-" + NatStr(m);
      assert IntStr(n) == s && s[|s| - 1] == NatStr(m)[|NatStr(m)| - 1];
    } else {
      assert IntStr(n) == NatStr(m);
    }
  }

  /** Spaces around a text do not change the number it converts to. */
  lemma PaddedToInteger(s: string)
    requires |s| > 0 && !IsSpace(s[0]) && !IsSpace(s[|s| - 1])
    ensures StringToInteger(" " + s + " ") == StringToInteger(s)
  {
    TrimPadded(s);
  }

  lemma ObjectToInteger()
    ensures ToInteger(Obj([])) == None
  {
    var o := "[object Object]";
    assert ToStr(Obj([])) == o;
    ObjectTextTrimmed(o);
    TrimmedToInteger(o);
    assert Digits(o, false) == "";
  }

  lemma ObjectTextTrimmed(o: string)
    requires o == "[object Object]"
    ensures Trim(o) == o && !HexPrefixed(o) && o[0] == '['
  {
    assert o[0] == '[' && o[|o| - 1] == ']';
    TrimPadded(o);
  }

  lemma EmptyArrayToInteger()
    ensures ToInteger(Arr([])) == Some(0)
  {
    assert ToStr(Arr([])) == "";
    assert StringToInteger("") == Some(0);
  }



  function HexDigit(d: nat): char
    requires d < 16
  {
    "0123456789abcdef"[d]
  }

  /** One character of a JSON string literal, escaped as `JSON.stringify` escapes it. */
  function EscapeChar(c: char): string
  {
    if c == '"' then "\\\""
    else if c == '\\' then "\\\\"
    else if c == '\U{0008}' then "\\b"
    else if c == '\U{000C}' then "\\f"
    else if c == '\n' then "\\n"
    else if c == '\r' then "\\r"
    else if c == '\t' then "\\t"
    else if (c as int) < 0x20 then "\\u00" + [HexDigit(c as int / 16), HexDigit(c as int % 16)]
    else [c]
  }

  function EscapeAll(s: string): string
  {
    if |s| == 0 then "" else EscapeChar(s[0]) + EscapeAll(s[1..])
  }

  function Quote(s: string): string
  {
    "\"" + EscapeAll(s) + "\""
  }

  /** The members of an object that serialise, as `"key":` text followed by the value text. */
  function Members(rendered: seq<(string, Option<string>)>, colon: string): seq<string>
  {
    if |rendered| == 0 then []
    else
      var rest := Members(rendered[1..], colon);
      match rendered[0].1
      case None => rest
      case Some(t) => [Quote(rendered[0].0) + colon + t] + rest
  }

  /**
   * `JSON.stringify(v, null, gap)` with the current indentation `ind`; `None`
   * is the runtime's `undefined` result for `undefined` and functions.
   */
  function Ser(v: Value, gap: string, ind: string): Option<string>
    decreases v
  {
    match v
    case Undefined => None
    case Func => None
    case Null => Some("null")
    case Bool(b) => Some(BoolStr(b))
    case Num(n) => Some(IntStr(n))
    case Str(s) => Some(Quote(s))
    case Arr(xs) =>
      if |xs| == 0 then Some("[]")
      else
        var inner := ind + gap;
        var parts := seq(|xs|, i requires 0 <= i < |xs| => Ser(xs[i], gap, inner).GetOr("null"));
        if gap == "" then Some("[" + Join(parts, ",") + "]")
        else Some("[\n" + inner + Join(parts, ",\n" + inner) + "\n" + ind + "]")
    case Obj(fs) =>
      var inner := ind + gap;
      var rendered := seq(|fs|, i requires 0 <= i < |fs| => (fs[i].0, Ser(fs[i].1, gap, inner)));
      var parts := Members(rendered, if gap == "" then ":" else ": ");
      if |parts| == 0 then Some("{}")
      else if gap == "" then Some("{" + Join(parts, ",") + "}")
      else Some("{\n" + inner + Join(parts, ",\n" + inner) + "\n" + ind + "}")
  }

  /** `JSON.stringify(v)`. */
  function Compact(v: Value): Option<string>
  {
    Ser(v, "", "")
  }

  /** `JSON.stringify(v, null, 2)`. */
  function Pretty(v: Value): Option<string>
  {
    Ser(v, "  ", "")
  }

  /** A template literal or concatenation of a stringify result: `undefined` prints as "undefined". */
  function Text(t: Option<string>): string
  {
    t.GetOr("undefined")
  }

  /** A member holding a stringify result: `undefined` leaves the member out of any later serialisation. */
  function JsonText(t: Option<string>): Value
  {
    if t.Some? then Str(t.value) else Undefined
  }

  /** `String(new Error(m))`, which a template literal prints for a caught error. */
  function ErrorString(m: string): string
  {
    "Error: " + m
  }

  /** The engine's message for destructuring `undefined` or `null`; engines word it differently, this is one fixed form. */
  function DestructureError(prop: string, v: Value): string
  {
    "Cannot destructure property '" + prop + "' of 'args' as it is " + ToStr(v) + "."
  }

  /** The engine's message for calling a method a value does not have. */
  function NotAFunction(expr: string): string
  {
    expr + " is not a function"
  }

  /** Reading a property of `undefined` or `null`. */
  function ReadPropertyError(prop: string, v: Value): string
  {
    "Cannot read properties of " + ToStr(v) + " (reading '" + prop + "')"
  }

  /** A destructuring default `{ x = d }`: it stands in for `undefined` only. */
  function OrDefault(v: Value, d: Value): (r: Value)
    ensures v.Undefined? ==> r == d
    ensures !v.Undefined? ==> r == v
  {
    if v.Undefined? then d else v
  }

  /** Only `undefined` and functions have no JSON text. */
  lemma SerDefined(v: Value, gap: string, ind: string)
    ensures Ser(v, gap, ind).None? <==> (v.Undefined? || v.Func?)
  {
  }

  /** A value whose every part has a JSON counterpart: no `undefined`, no function. */
  predicate IsJson(v: Value)
    decreases v
  {
    match v
    case Undefined => false
    case Func => false
    case Arr(xs) => forall i :: 0 <= i < |xs| ==> IsJson(xs[i])
    case Obj(fs) => forall i :: 0 <= i < |fs| ==> IsJson(fs[i].1)
    case _ => true
  }

  /** The engine's message when `Object.entries` is given `null`. */
  const NullEntries: string := "Cannot convert undefined or null to object"

  /** `Object.entries(v)`, keys in enumeration order; `None` when it throws. */
  function Entries(v: Value): (r: Option<seq<(string, Value)>>)
    ensures r.None? <==> v.Undefined? || v.Null?
    ensures v.Obj? ==> r == Some(v.fields)
  {
    match v
    case Undefined => None
    case Null => None
    case Obj(fs) => Some(fs)
    case Arr(xs) => Some(seq(|xs|, i requires 0 <= i < |xs| => (IntStr(i), xs[i])))
    case Str(s) => Some(seq(|s|, i requires 0 <= i < |s| => (IntStr(i), Str([s[i]]))))
    case _ => Some([])
  }

  /** `a || b`: the first operand when it is truthy, else the second. */
  function Or(a: Value, b: Value): (r: Value)
    ensures Truthy(a) ==> r == a
    ensures !Truthy(a) ==> r == b
  {
    if Truthy(a) then a else b
  }
}
