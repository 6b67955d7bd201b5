/**
 * The string operations of the JavaScript runtime that the backend relies on:
 * `startsWith`, `includes`, `indexOf`, `replace` of a literal, ASCII case mapping,
 * white-space trimming and splitting, `join` and decimal rendering of integers.
 */
module Strs {
  import opened Common

  /** `s.includes(sub)`. */
  predicate Contains(s: string, sub: string)
    decreases |s|
  {
    sub <= s || (|s| > 0 && Contains(s[1..], sub))
  }

  /** `s.indexOf(sub)` when it is not -1. */
  function IndexOf(s: string, sub: string): (r: Option<nat>)
    decreases |s|
  {
    if sub <= s then Some(0)
    else if |s| == 0 then None
    else match IndexOf(s[1..], sub)
      case None => None
      case Some(i) => Some(i + 1)
  }

  lemma {:induction false} IndexOfFound(s: string, sub: string)
    ensures IndexOf(s, sub).Some? <==> Contains(s, sub)
    ensures IndexOf(s, sub).Some? ==>
      IndexOf(s, sub).value + |sub| <= |s| &&
      s[IndexOf(s, sub).value..IndexOf(s, sub).value + |sub|] == sub
    decreases |s|
  {
    if sub <= s {
    } else if |s| > 0 {
      IndexOfFound(s[1..], sub);
      match IndexOf(s[1..], sub)
      case None =>
      case Some(i) =>
        assert s[1..][i..i + |sub|] == s[i + 1..i + 1 + |sub|];
    }
  }

  /** The first position of the character `c` in `s`: everything before it differs from `c`. */
  function IndexOfChar(s: string, c: char): (r: Option<nat>)
    ensures r.None? <==> c !in s
    ensures r.Some? ==> r.value < |s| && s[r.value] == c && c !in s[..r.value]
  {
    if |s| == 0 then None
    else if s[0] == c then Some(0)
    else match IndexOfChar(s[1..], c)
      case None => None
      case Some(i) =>
        assert s[..i + 1] == [s[0]] + s[1..][..i];
        Some(i + 1)
  }

  /** The first occurrence of `c` is the one `IndexOfChar` reports. */
  lemma IndexOfCharIs(s: string, c: char, k: nat)
    requires k < |s| && s[k] == c && c !in s[..k]
    ensures IndexOfChar(s, c) == Some(k)
  {
  }

  lemma {:induction false} ContainsEmpty(s: string)
    ensures Contains(s, "")
  {
  }

  lemma {:induction false} ContainsSelf(s: string)
    ensures Contains(s, s)
  {
  }

  /** A match found inside the tail of `s` is a match inside `s`; a match inside a suffix is one inside the whole. */
  lemma {:induction false} ContainsSuffix(s: string, k: nat, sub: string)
    requires k <= |s|
    requires Contains(s[k..], sub)
    ensures Contains(s, sub)
    decreases k
  {
    if k > 0 {
      assert s[1..][k - 1..] == s[k..];
      ContainsSuffix(s[1..], k - 1, sub);
    }
  }

  /** `s.includes(sub)` holds of `p + s` when it holds of `s`. */
  lemma {:induction false} ContainsAppendLeft(p: string, s: string, sub: string)
    requires Contains(s, sub)
    ensures Contains(p + s, sub)
  {
    assert (p + s)[|p|..] == s;
    ContainsSuffix(p + s, |p|, sub);
  }

  /** `s.includes(sub)` holds of `s + q` when it holds of `s`. */
  lemma {:induction false} ContainsAppendRight(s: string, q: string, sub: string)
    requires Contains(s, sub)
    ensures Contains(s + q, sub)
    decreases |s|
  {
    if sub <= s {
      assert sub <= s + q;
    } else {
      assert (s + q)[1..] == s[1..] + q;
      ContainsAppendRight(s[1..], q, sub);
    }
  }

  /** A needle longer than the haystack is never found. */
  lemma {:induction false} ContainsLength(s: string, sub: string)
    requires Contains(s, sub)
    ensures |sub| <= |s|
    decreases |s|
  {
    if !(sub <= s) {
      ContainsLength(s[1..], sub);
    }
  }

  /** A string found inside a string found in `s` is found in `s`. */
  lemma ContainsTransitive(s: string, mid: string, sub: string)
    requires Contains(s, mid) && Contains(mid, sub)
    ensures Contains(s, sub)
  {
    IndexOfFound(s, mid);
    IndexOfFound(mid, sub);
    var i := IndexOf(s, mid).value;
    var j := IndexOf(mid, sub).value;
    var w := s[i..i + |mid|];
    forall k | 0 <= k < |sub| ensures s[i + j + k] == sub[k] {
      assert sub[k] == mid[j..j + |sub|][k] == mid[j + k];
      assert w[j + k] == s[i + j + k];
    }
    assert s[i + j..][..|sub|] == sub;
    assert sub <= s[i + j..];
    ContainsSuffix(s, i + j, sub);
  }

  /** `s.replace(pat, rep)` with a literal pattern: only the first occurrence is replaced. */
  function ReplaceFirst(s: string, pat: string, rep: string): (r: string)
  {
    match IndexOf(s, pat)
    case None => s
    case Some(i) =>
      IndexOfFound(s, pat);
      s[..i] + rep + s[i + |pat|..]
  }

  lemma ReplaceFirstAbsent(s: string, pat: string, rep: string)
    requires !Contains(s, pat)
    ensures ReplaceFirst(s, pat, rep) == s
  {
    IndexOfFound(s, pat);
  }

  /** When `s` starts with `pat`, the replacement removes exactly that prefix. */
  lemma ReplaceFirstPrefix(s: string, pat: string, rest: string)
    requires s == pat + rest
    ensures ReplaceFirst(s, pat, "") == rest
  {
    assert pat <= s;
    assert s[|pat|..] == rest;
  }

  /** ASCII letters only; the runtime's full Unicode case mapping is not modelled. */
  function LowerChar(c: char): char
  {
    if 'A' <= c <= 'Z' then (c as int + 32) as char else c
  }

  function UpperChar(c: char): char
  {
    if 'a' <= c <= 'z' then (c as int - 32) as char else c
  }

  /** `s.toLowerCase()`. */
  function Lower(s: string): (r: string)
    ensures |r| == |s|
    ensures forall i :: 0 <= i < |s| ==> r[i] == LowerChar(s[i])
  {
    seq(|s|, i requires 0 <= i < |s| => LowerChar(s[i]))
  }

  /** `s.toUpperCase()`. */
  function Upper(s: string): (r: string)
    ensures |r| == |s|
    ensures forall i :: 0 <= i < |s| ==> r[i] == UpperChar(s[i])
  {
    seq(|s|, i requires 0 <= i < |s| => UpperChar(s[i]))
  }

  lemma LowerIdempotent(s: string)
    ensures Lower(Lower(s)) == Lower(s)
  {
  }

  lemma LowerAppend(a: string, b: string)
    ensures Lower(a + b) == Lower(a) + Lower(b)
  {
  }

  /** The characters matched by `\s` in a JavaScript regular expression and removed by `trim`. */
  predicate IsSpace(c: char)
  {
    c == ' ' || c == '\t' || c == '\n' || c == '\r' || c == '\U{000B}' || c == '\U{000C}' ||
    c == '\U{00A0}' || c == '\U{1680}' || ('\U{2000}' <= c <= '\U{200A}') ||
    c == '\U{2028}' || c == '\U{2029}' || c == '\U{202F}' || c == '\U{205F}' ||
    c == '\U{3000}' || c == '\U{FEFF}'
  }

  /** The characters matched by `\w`: ASCII letters, digits and underscore. */
  predicate IsWordChar(c: char)
  {
    ('a' <= c <= 'z') || ('A' <= c <= 'Z') || ('0' <= c <= '9') || c == '_'
  }

  function TrimStart(s: string): (r: string)
    ensures |r| <= |s|
    ensures r == s[|s| - |r|..]
    ensures r == [] || !IsSpace(r[0])
  {
    if |s| > 0 && IsSpace(s[0]) then TrimStart(s[1..]) else s
  }

  function TrimEnd(s: string): (r: string)
    ensures |r| <= |s|
    ensures r == s[..|r|]
    ensures r == [] || !IsSpace(r[|r| - 1])
  {
    if |s| > 0 && IsSpace(s[|s| - 1]) then TrimEnd(s[..|s| - 1]) else s
  }

  /** `s.trim()`. */
  function Trim(s: string): (r: string)
  {
    TrimEnd(TrimStart(s))
  }

  /** Trimming removes a space on each side of a text that neither opens nor closes with white space. */
  lemma TrimPadded(s: string)
    requires |s| > 0 && !IsSpace(s[0]) && !IsSpace(s[|s| - 1])
    ensures Trim(s) == s
    ensures Trim(" " + s + " ") == s
  {
    var p := " " + s + " ";
    assert p[1..] == s + " ";
    assert TrimStart(p) == TrimStart(s + " ");
    assert (s + " ")[0] == s[0];
    assert TrimStart(s + " ") == s + " ";
    assert (s + " ")[..|s|] == s;
    assert TrimEnd(s + " ") == TrimEnd(s);
  }

  /** Drops the whole run of white space at the head of `s`. */
  function DropSpaces(s: string): (r: string)
    ensures |r| <= |s|
  {
    if |s| > 0 && IsSpace(s[0]) then DropSpaces(s[1..]) else s
  }

  /**
   * `s.split(/\s+/)`: the pieces between maximal runs of white space; a leading or
   * trailing run yields an empty first or last piece, and "" splits into [""].
   */
  function SplitWs(s: string): (r: seq<string>)
  {
    SplitFrom(s, "")
  }

  function SplitFrom(s: string, cur: string): (r: seq<string>)
    ensures |r| > 0
    decreases |s|
  {
    if |s| == 0 then [cur]
    else if IsSpace(s[0]) then [cur] + SplitFrom(DropSpaces(s), "")
    else SplitFrom(s[1..], cur + [s[0]])
  }

  lemma {:induction false} SplitFromNoSpace(s: string, cur: string)
    requires forall i :: 0 <= i < |cur| ==> !IsSpace(cur[i])
    ensures forall k, i :: 0 <= k < |SplitFrom(s, cur)| && 0 <= i < |SplitFrom(s, cur)[k]| ==>
      !IsSpace(SplitFrom(s, cur)[k][i])
    decreases |s|
  {
    if |s| == 0 {
    } else if IsSpace(s[0]) {
      SplitFromNoSpace(DropSpaces(s), "");
    } else {
      SplitFromNoSpace(s[1..], cur + [s[0]]);
    }
  }

  /** No piece of a white-space split contains white space. */
  lemma SplitWsNoSpace(s: string)
    ensures forall k, i :: 0 <= k < |SplitWs(s)| && 0 <= i < |SplitWs(s)[k]| ==> !IsSpace(SplitWs(s)[k][i])
  {
    SplitFromNoSpace(s, "");
  }

  /** The characters `.` does not match in a regular expression. */
  predicate IsLineTerminator(c: char)
  {
    c == '\n' || c == '\r' || c == '\U{2028}' || c == '\U{2029}'
  }

  predicate NoLineTerminator(s: string)
  {
    forall i :: 0 <= i < |s| ==> !IsLineTerminator(s[i])
  }

  /** `parts.join(sep)`. */
  function Join(parts: seq<string>, sep: string): string
  {
    if |parts| == 0 then ""
    else if |parts| == 1 then parts[0]
    else parts[0] + sep + Join(parts[1..], sep)
  }

  /** `s.split(c)` on a one-character separator. */
  function SplitChar(s: string, c: char): (r: seq<string>)
    ensures |r| >= 1
  {
    if |s| == 0 then [""]
    else
      var rest := SplitChar(s[1..], c);
      if s[0] == c then [""] + rest else [[s[0]] + rest[0]] + rest[1..]
  }

  /** The end of the run of characters satisfying `p` that starts at `i`. */
  function RunEnd(s: string, i: nat, p: char -> bool): (r: nat)
    requires i <= |s|
    ensures i <= r <= |s|
    ensures forall k :: i <= k < r ==> p(s[k])
    ensures r == |s| || !p(s[r])
    decreases |s| - i
  {
    if i < |s| && p(s[i]) then RunEnd(s, i + 1, p) else i
  }

  /** A string without the separator is one piece. */
  lemma {:induction false} SplitCharAbsent(s: string, c: char)
    requires c !in s
    ensures SplitChar(s, c) == [s]
  {
    if |s| > 0 {
      SplitCharAbsent(s[1..], c);
      assert s == [s[0]] + s[1..];
    }
  }

  /** The text before the first separator is the first piece; the rest is split on its own. */
  lemma {:induction false} SplitCharFirst(a: string, b: string, c: char)
    requires c !in a
    ensures SplitChar(a + [c] + b, c) == [a] + SplitChar(b, c)
  {
    if |a| == 0 {
      assert a + [c] + b == [c] + b;
      assert ([c] + b)[1..] == b;
    } else {
      SplitCharFirst(a[1..], b, c);
      assert (a + [c] + b)[1..] == a[1..] + [c] + b;
      assert a == [a[0]] + a[1..];
    }
  }

  /** Splitting and joining back with the same separator is the identity, and no piece holds the separator. */
  lemma {:induction false} SplitJoin(s: string, c: char)
    ensures Join(SplitChar(s, c), [c]) == s
    ensures forall k :: 0 <= k < |SplitChar(s, c)| ==> c !in SplitChar(s, c)[k]
  {
    if |s| > 0 {
      var rest := SplitChar(s[1..], c);
      SplitJoin(s[1..], c);
      if s[0] == c {
        assert s == [c] + s[1..];
      } else {
        var r := SplitChar(s, c);
        assert r == [[s[0]] + rest[0]] + rest[1..];
        JoinConsHead(s[0], rest, [c]);
        assert s == [s[0]] + s[1..];
        assert forall k :: 1 <= k < |r| ==> r[k] == rest[k];
      }
    }
  }

  /** Putting a character in front of the first piece puts it in front of the joined text. */
  lemma JoinConsHead(x: char, parts: seq<string>, sep: string)
    requires |parts| >= 1
    ensures Join([[x] + parts[0]] + parts[1..], sep) == [x] + Join(parts, sep)
  {
    var r := [[x] + parts[0]] + parts[1..];
    if |parts| > 1 {
      assert r[1..] == parts[1..];
      AppendAssoc([x], parts[0], sep);
      AppendAssoc([x], parts[0] + sep, Join(parts[1..], sep));
    }
  }

  function DigitChar(d: nat): char
    requires d < 10
  {
    ['0', '1', '2', '3', '4', '5', '6', '7', '8', '9'][d]
  }

  /** Decimal rendering of a natural number, as `String(n)` prints it. */
  function NatStr(n: nat): (r: string)
    ensures |r| > 0
  {
    if n < 10 then [DigitChar(n)] else NatStr(n / 10) + [DigitChar(n % 10)]
  }

  /** Decimal rendering of an integer, with a leading "-" when negative. */
  function IntStr(i: int): (r: string)
  {
    if i < 0 then "-" + NatStr(-i) else NatStr(i)
  }

  /** The value of a decimal digit or, when `hex` is set, of a hexadecimal one. */
  function DigitValue(c: char, hex: bool): Option<nat>
  {
    if '0' <= c <= '9' then Some(c as int - '0' as int)
    else if hex && 'a' <= c <= 'f' then Some(c as int - 'a' as int + 10)
    else if hex && 'A' <= c <= 'F' then Some(c as int - 'A' as int + 10)
    else None
  }

  /** The longest prefix made of digits. */
  function Digits(s: string, hex: bool): (r: string)
    ensures r <= s
    ensures forall i :: 0 <= i < |r| ==> DigitValue(r[i], hex).Some?
  {
    if |s| == 0 || DigitValue(s[0], hex).None? then "" else [s[0]] + Digits(s[1..], hex)
  }

  /** The number a run of digits denotes, most significant first. */
  function DigitsValue(ds: string, hex: bool): nat
    requires forall i :: 0 <= i < |ds| ==> DigitValue(ds[i], hex).Some?
    decreases |ds|
  {
    if |ds| == 0 then 0
    else DigitsValue(ds[..|ds| - 1], hex) * (if hex then 16 else 10) + DigitValue(ds[|ds| - 1], hex).value
  }

  /** Each decimal digit character denotes its digit. */
  lemma DigitCharValue(d: nat)
    requires d < 10
    ensures DigitValue(DigitChar(d), false) == Some(d)
  {
    assert d == 0 || d == 1 || d == 2 || d == 3 || d == 4 || d == 5 || d == 6 || d == 7 || d == 8 || d == 9;
  }

  /** A decimal rendering is made of digits and denotes the number rendered. */
  lemma {:induction false} NatStrValue(n: nat)
    ensures forall i :: 0 <= i < |NatStr(n)| ==> DigitValue(NatStr(n)[i], false).Some?
    ensures DigitsValue(NatStr(n), false) == n
  {
    var s := NatStr(n);
    if n < 10 {
      DigitCharValue(n);
      assert s == [DigitChar(n)];
      assert s[..0] == [];
    } else {
      NatStrValue(n / 10);
      DigitCharValue(n % 10);
      assert s[..|s| - 1] == NatStr(n / 10);
      assert s[|s| - 1] == DigitChar(n % 10);
      assert forall i :: 0 <= i < |s| - 1 ==> s[i] == NatStr(n / 10)[i];
    }
  }

  /** A run made only of digits is read whole. */
  lemma {:induction false} DigitsAll(s: string, hex: bool)
    requires forall i :: 0 <= i < |s| ==> DigitValue(s[i], hex).Some?
    ensures Digits(s, hex) == s
  {
    if |s| > 0 {
      DigitsAll(s[1..], hex);
      assert s == [s[0]] + s[1..];
    }
  }

  /** Joining pieces without the separator and splitting again gives the pieces back. */
  lemma {:induction false} JoinSplit(parts: seq<string>, c: char)
    requires |parts| >= 1
    requires forall k :: 0 <= k < |parts| ==> c !in parts[k]
    ensures SplitChar(Join(parts, [c]), c) == parts
  {
    if |parts| == 1 {
      SplitCharAbsent(parts[0], c);
    } else {
      JoinSplit(parts[1..], c);
      SplitCharFirst(parts[0], Join(parts[1..], [c]), c);
      assert parts == [parts[0]] + parts[1..];
    }
  }
}
