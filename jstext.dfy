/**
 * The few JavaScript string built-ins the converters and the engine worker
 * rely on, written out: `trim`, `split` on one character and on runs of
 * white space, `join`, `parseInt(s, 10)`, `Number.prototype.toString` on
 * integers, and the single-character case mapping the lookup tables need.
 */
module JsText {
  import opened Wrappers

  /** The characters `trim`, `\s` and `parseInt` treat as white space (WhiteSpace and LineTerminator). */
  predicate IsSpace(ch: char)
  {
    ch == '\t' || ch == '\n' || ch == '\U{B}' || ch == '\U{C}' || ch == '\r' || ch == ' '
    || ch == '\U{A0}' || ch == '\U{1680}' || ('\U{2000}' <= ch <= '\U{200A}')
    || ch == '\U{2028}' || ch == '\U{2029}' || ch == '\U{202F}' || ch == '\U{205F}'
    || ch == '\U{3000}' || ch == '\U{FEFF}'
  }

  predicate NoSpace(s: string)
  {
    forall i :: 0 <= i < |s| ==> !IsSpace(s[i])
  }

  /** The string without its leading white space. */
  function TrimStart(s: string): (r: string)
    ensures |r| <= |s| && r == s[|s| - |r|..]
    ensures |r| == 0 || !IsSpace(r[0])
    ensures forall i :: 0 <= i < |s| - |r| ==> IsSpace(s[i])
  {
    if |s| > 0 && IsSpace(s[0]) then TrimStart(s[1..]) else s
  }

  /** The string without its trailing white space. */
  function TrimEnd(s: string): (r: string)
    ensures |r| <= |s| && r == s[..|r|]
    ensures |r| == 0 || !IsSpace(r[|r| - 1])
    ensures forall i :: |r| <= i < |s| ==> IsSpace(s[i])
  {
    if |s| > 0 && IsSpace(s[|s| - 1]) then TrimEnd(s[..|s| - 1]) else s
  }

  /** `s.trim()`. */
  function Trim(s: string): (r: string)
    ensures |r| == 0 || (!IsSpace(r[0]) && !IsSpace(r[|r| - 1]))
  {
    TrimEnd(TrimStart(s))
  }

  /** The first index of ch in s, or |s| when there is none. */
  function IndexOf(s: string, ch: char): (i: nat)
    ensures i <= |s|
    ensures i < |s| ==> s[i] == ch
    ensures forall j :: 0 <= j < i ==> s[j] != ch
  {
    if |s| == 0 then 0
    else if s[0] == ch then 0
    else 1 + IndexOf(s[1..], ch)
  }

  /** `s.split(sep)` for a one-character separator: the pieces between separators, empty ones included. */
  function Split(s: string, sep: char): (r: seq<string>)
    ensures |r| >= 1
    ensures forall k :: 0 <= k < |r| ==> sep !in r[k]
    decreases |s|
  {
    var i := IndexOf(s, sep);
    if i == |s| then [s] else [s[..i]] + Split(s[i + 1..], sep)
  }

  /** `parts.join(sep)`. */
  function Join(parts: seq<string>, sep: char): string
  {
    if |parts| == 0 then ""
    else if |parts| == 1 then parts[0]
    else parts[0] + [sep] + Join(parts[1..], sep)
  }

  /**
   * `a < b` on strings: code unit by code unit, a proper prefix first. This
   * is also the order `Array.prototype.sort()` uses when given no comparator.
   */
  predicate StrLess(a: string, b: string)
    decreases |a|
  {
    if |a| == 0 then |b| > 0
    else if |b| == 0 then false
    else if a[0] != b[0] then a[0] < b[0]
    else StrLess(a[1..], b[1..])
  }

  lemma {:induction false} StrLessIrreflexive(a: string)
    ensures !StrLess(a, a)
    decreases |a|
  {
    if |a| > 0 {
      StrLessIrreflexive(a[1..]);
    }
  }

  lemma {:induction false} StrLessTransitive(a: string, b: string, c: string)
    requires StrLess(a, b) && StrLess(b, c)
    ensures StrLess(a, c)
    decreases |a|
  {
    if |a| > 0 && a[0] == b[0] && b[0] == c[0] {
      StrLessTransitive(a[1..], b[1..], c[1..]);
    }
  }

  /** Two different strings are ordered one way or the other. */
  lemma {:induction false} StrLessTotal(a: string, b: string)
    requires a != b
    ensures StrLess(a, b) || StrLess(b, a)
    decreases |a|
  {
    if |a| > 0 && |b| > 0 && a[0] == b[0] {
      assert a == [a[0]] + a[1..] && b == [b[0]] + b[1..];
      StrLessTotal(a[1..], b[1..]);
    }
  }

  lemma {:induction false} SplitJoin(s: string, sep: char)
    ensures Join(Split(s, sep), sep) == s
    decreases |s|
  {
    var i := IndexOf(s, sep);
    if i < |s| {
      SplitJoin(s[i + 1..], sep);
      assert s == s[..i] + [sep] + s[i + 1..];
    }
  }

  lemma IndexOfPrefix(a: string, b: string, sep: char)
    requires sep !in a
    ensures IndexOf(a + [sep] + b, sep) == |a|
  {
    var s := a + [sep] + b;
    assert s[|a|] == sep;
    assert forall j :: 0 <= j < |a| ==> s[j] == a[j];
  }

  /** Splitting a join of separator-free pieces gives the pieces back. */
  lemma {:induction false} JoinSplit(parts: seq<string>, sep: char)
    requires |parts| >= 1
    requires forall k :: 0 <= k < |parts| ==> sep !in parts[k]
    ensures Split(Join(parts, sep), sep) == parts
    decreases |parts|
  {
    if |parts| == 1 {
      assert IndexOf(parts[0], sep) == |parts[0]|;
    } else {
      var rest := Join(parts[1..], sep);
      var s := parts[0] + [sep] + rest;
      IndexOfPrefix(parts[0], rest, sep);
      assert s[..|parts[0]|] == parts[0];
      assert s[|parts[0]| + 1..] == rest;
      JoinSplit(parts[1..], sep);
      assert parts == [parts[0]] + parts[1..];
    }
  }

  /** The first white-space index of s, or |s|. */
  function SpaceIndex(s: string): (i: nat)
    ensures i <= |s|
    ensures i < |s| ==> IsSpace(s[i])
    ensures forall j :: 0 <= j < i ==> !IsSpace(s[j])
  {
    if |s| == 0 then 0
    else if IsSpace(s[0]) then 0
    else 1 + SpaceIndex(s[1..])
  }

  /** `s.split(/\s+/)`: the pieces between maximal runs of white space. */
  function SplitSpaces(s: string): (r: seq<string>)
    ensures |r| >= 1
    ensures forall k :: 0 <= k < |r| ==> NoSpace(r[k])
    decreases |s|
  {
    var i := SpaceIndex(s);
    if i == |s| then [s] else [s[..i]] + SplitSpaces(TrimStart(s[i..]))
  }

  /** On a trimmed, non-empty string every piece of `split(/\s+/)` is a non-empty word. */
  lemma {:induction false} SplitSpacesWords(s: string)
    requires |s| > 0 && !IsSpace(s[0]) && !IsSpace(s[|s| - 1])
    ensures forall k :: 0 <= k < |SplitSpaces(s)| ==> |SplitSpaces(s)[k]| > 0
    decreases |s|
  {
    var i := SpaceIndex(s);
    if i < |s| {
      var rest := TrimStart(s[i..]);
      assert s[i..][|s| - 1 - i] == s[|s| - 1];
      assert |rest| > 0;
      assert rest[|rest| - 1] == s[|s| - 1];
      SplitSpacesWords(rest);
    }
  }

  /** A number `parseInt` can produce: NaN or an integer (−0 is read as 0). */
  datatype Num = NaN | Int(n: int)

  predicate IsDigit(ch: char)
  {
    '0' <= ch <= '9'
  }

  function DigitValue(ch: char): nat
    requires IsDigit(ch)
  {
    ch as int - '0' as int
  }

  /** The length of the longest prefix of decimal digits. */
  function DigitRun(s: string): (n: nat)
    ensures n <= |s|
    ensures forall j :: 0 <= j < n ==> IsDigit(s[j])
    ensures n < |s| ==> !IsDigit(s[n])
  {
    if |s| > 0 && IsDigit(s[0]) then 1 + DigitRun(s[1..]) else 0
  }

  /** The value of a string of decimal digits. */
  function DigitsValue(s: string): nat
    requires forall j :: 0 <= j < |s| ==> IsDigit(s[j])
  {
    if |s| == 0 then 0 else DigitsValue(s[..|s| - 1]) * 10 + DigitValue(s[|s| - 1])
  }

  /** `parseInt(s, 10)`: skip white space, read a sign, then the longest run of digits. */
  function ParseInt(s: string): Num
  {
    var t := TrimStart(s);
    if |t| > 0 && t[0] == '-' then Negate(LeadingDigits(t[1..]))
    else if |t| > 0 && t[0] == '+' then LeadingDigits(t[1..])
    else LeadingDigits(t)
  }

  /** The value of the leading digit run, NaN when there is none. */
  function LeadingDigits(u: string): (r: Num)
    ensures r.Int? <==> |u| > 0 && IsDigit(u[0])
  {
    var n := DigitRun(u);
    if n == 0 then NaN else Int(DigitsValue(u[..n]))
  }

  function Negate(x: Num): Num
  {
    match x
    case NaN => NaN
    case Int(v) => Int(-v)
  }

  /** `parseInt(x, 10)` of an array element that may be `undefined` (read as the text "undefined"). */
  function ParseIntAt(parts: seq<string>, i: int): (r: Num)
    ensures !(0 <= i < |parts|) ==> r == NaN
  {
    if 0 <= i < |parts| then ParseInt(parts[i]) else NaN
  }

  /** Decimal digits of a natural number, as `toString()` writes them. */
  function NatToString(n: nat): (s: string)
    ensures |s| > 0
    ensures forall j :: 0 <= j < |s| ==> IsDigit(s[j])
  {
    if n < 10 then [('0' as int + n) as char]
    else NatToString(n / 10) + [('0' as int + n % 10) as char]
  }

  /** `n.toString()` for an integer. */
  function IntToString(n: int): string
  {
    if n < 0 then "-" + NatToString(-n) else NatToString(n)
  }

  lemma {:induction false} NatToStringValue(n: nat)
    ensures DigitsValue(NatToString(n)) == n
  {
    var s := NatToString(n);
    if n >= 10 {
      NatToStringValue(n / 10);
      assert s[..|s| - 1] == NatToString(n / 10);
    }
  }

  lemma DigitRunAll(s: string)
    requires forall j :: 0 <= j < |s| ==> IsDigit(s[j])
    ensures DigitRun(s) == |s|
  {
  }

  lemma LeadingDigitsAll(d: string)
    requires |d| > 0 && forall j :: 0 <= j < |d| ==> IsDigit(d[j])
    ensures LeadingDigits(d) == Int(DigitsValue(d))
  {
    DigitRunAll(d);
    assert d[..|d|] == d;
  }

  /** `parseInt` reads back what `toString` writes. */
  lemma IntToStringParse(n: int)
    ensures ParseInt(IntToString(n)) == Int(n)
  {
    var m := if n < 0 then -n else n;
    var d := NatToString(m);
    NatToStringValue(m);
    LeadingDigitsAll(d);
    if n < 0 {
      var s := "-" + d;
      assert TrimStart(s) == s;
      assert s[1..] == d;
    } else {
      assert !IsSpace(d[0]);
      assert TrimStart(d) == d;
    }
  }

  /**
   * `ch.toUpperCase()` as far as the lookup tables can tell: ASCII letters
   * and U+017F (long s, whose upper case is 'S'); every other character is
   * left as it is, which is exact for membership in tables keyed by ASCII
   * capitals.
   */
  function UpperChar(ch: char): char
  {
    if 'a' <= ch <= 'z' then (ch as int - 32) as char
    else if ch == '\U{17F}' then 'S'
    else ch
  }

  /** `ch.toLowerCase()` on ASCII capitals, the only characters it is applied to here. */
  function LowerChar(ch: char): char
  {
    if 'A' <= ch <= 'Z' then (ch as int + 32) as char else ch
  }

  /** `s.toLowerCase()` on such strings. */
  function LowerString(s: string): (r: string)
    ensures |r| == |s|
    ensures forall j :: 0 <= j < |s| ==> r[j] == LowerChar(s[j])
  {
    if |s| == 0 then "" else [LowerChar(s[0])] + LowerString(s[1..])
  }
}
