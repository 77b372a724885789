/**
 * The parts of JavaScript's built-in behaviour that the application code
 * relies on: `String.prototype.trim`, `startsWith`, `split` with a
 * one-character separator, `Number.prototype.toString` on integers,
 * `parseInt` with the default radix, `NaN` arithmetic, and the JSON values
 * that `JSON.parse` produces.
 */
module Js {

  datatype Option<T> = None | Some(value: T)

  /** A JSON value as `JSON.parse` produces it (numbers restricted to integers). */
  datatype Json =
    | JNull
    | JBool(b: bool)
    | JNum(n: int)
    | JStr(s: string)
    | JArr(items: seq<Json>)
    | JObj(entries: seq<(string, Json)>)

  // ---------------------------------------------------------------------
  // Whitespace and trim

  /** The characters ECMAScript calls WhiteSpace or LineTerminator. */
  predicate IsWhitespace(c: char)
  {
    || c == ' ' || c == '\t' || c == '\n' || c == '\r'
    || c == '\U{000B}' || c == '\U{000C}' || c == '\U{00A0}' || c == '\U{1680}'
    || ('\U{2000}' <= c <= '\U{200A}')
    || c == '\U{2028}' || c == '\U{2029}' || c == '\U{202F}' || c == '\U{205F}'
    || c == '\U{3000}' || c == '\U{FEFF}'
  }

  function TrimStart(s: string): (r: string)
    ensures |r| <= |s| && r == s[|s| - |r|..]
    ensures r == [] || !IsWhitespace(r[0])
    ensures forall i :: 0 <= i < |s| - |r| ==> IsWhitespace(s[i])
  {
    if s == [] || !IsWhitespace(s[0]) then s else TrimStart(s[1..])
  }

  function TrimEnd(s: string): (r: string)
    ensures |r| <= |s| && r == s[..|r|]
    ensures r == [] || !IsWhitespace(r[|r| - 1])
    ensures forall i :: |r| <= i < |s| ==> IsWhitespace(s[i])
  {
    if s == [] || !IsWhitespace(s[|s| - 1]) then s else TrimEnd(s[..|s| - 1])
  }

  /** `s.trim()` */
  function Trim(s: string): string
  {
    TrimEnd(TrimStart(s))
  }

  /** `s.trim()` is empty exactly when every character of `s` is whitespace. */
  lemma TrimEmptyIffBlank(s: string)
    ensures Trim(s) == [] <==> forall i :: 0 <= i < |s| ==> IsWhitespace(s[i])
  {
    var t := TrimStart(s);
    if Trim(s) == [] {
      assert t == [];
    } else {
      assert t != [] && !IsWhitespace(t[0]);
      assert s[|s| - |t|] == t[0];
    }
  }

  // ---------------------------------------------------------------------
  // Prefixes and splitting

  /** `s.startsWith(p)` */
  predicate StartsWith(s: string, p: string)
  {
    |p| <= |s| && s[..|p|] == p
  }

  /** Index of the first occurrence of `c` in `s`, or `|s|` when there is none. */
  function FirstIndex(s: string, c: char): (i: nat)
    ensures i <= |s|
    ensures i < |s| ==> s[i] == c
    ensures forall j :: 0 <= j < i ==> s[j] != c
  {
    if s == [] then 0
    else if s[0] == c then 0
    else 1 + FirstIndex(s[1..], c)
  }

  /** `s.split(c)` for a one-character separator `c`. */
  function Split(s: string, c: char): (parts: seq<string>)
    ensures |parts| >= 1
    ensures forall k :: 0 <= k < |parts| ==> c !in parts[k]
    decreases |s|
  {
    var i := FirstIndex(s, c);
    if i == |s| then [s] else [s[..i]] + Split(s[i + 1..], c)
  }

  /** `parts.join(c)` */
  function Join(parts: seq<string>, c: char): string
  {
    if parts == [] then []
    else if |parts| == 1 then parts[0]
    else parts[0] + [c] + Join(parts[1..], c)
  }

  /** Splitting and joining on the same separator gives back the string. */
  lemma {:induction false} JoinSplit(s: string, c: char)
    ensures Join(Split(s, c), c) == s
    decreases |s|
  {
    var i := FirstIndex(s, c);
    if i == |s| {
      assert Split(s, c) == [s];
    } else {
      var rest := s[i + 1..];
      var parts := Split(rest, c);
      assert Split(s, c) == [s[..i]] + parts;
      JoinSplit(rest, c);
      JoinCons(s[..i], parts, c);
      assert s == s[..i] + [c] + rest;
    }
  }

  /** Joining a non-empty list behind a first part puts one separator between them. */
  lemma JoinCons(p: string, parts: seq<string>, c: char)
    requires parts != []
    ensures Join([p] + parts, c) == p + [c] + Join(parts, c)
  {
    assert ([p] + parts)[1..] == parts;
  }

  /** A string without the separator splits into itself alone. */
  lemma SplitWithout(s: string, c: char)
    requires c !in s
    ensures Split(s, c) == [s]
  {
    assert FirstIndex(s, c) == |s|;
  }

  /** A string that contains the separator splits into at least two parts. */
  lemma SplitContains(s: string, c: char)
    requires c in s
    ensures |Split(s, c)| >= 2
  {
    var k :| 0 <= k < |s| && s[k] == c;
    assert FirstIndex(s, c) <= k;
  }

  /** The head of `a + [c] + b` split on `c` is `a` when `a` has no `c`. */
  lemma SplitAt(a: string, c: char, b: string)
    requires c !in a
    ensures Split(a + [c] + b, c) == [a] + Split(b, c)
  {
    var s := a + [c] + b;
    assert forall j :: 0 <= j < |a| ==> s[j] == a[j];
    assert s[|a|] == c;
    var i := FirstIndex(s, c);
    assert i == |a|;
    assert s[..i] == a;
    assert s[i + 1..] == b;
  }

  /** Joining parts without the separator and splitting again gives back the parts. */
  lemma {:induction false} SplitJoin(parts: seq<string>, c: char)
    requires |parts| >= 1
    requires forall k :: 0 <= k < |parts| ==> c !in parts[k]
    ensures Split(Join(parts, c), c) == parts
  {
    if |parts| == 1 {
      SplitWithout(parts[0], c);
    } else {
      SplitJoin(parts[1..], c);
      SplitAt(parts[0], c, Join(parts[1..], c));
      assert parts == [parts[0]] + parts[1..];
    }
  }

  lemma NotInConcat(a: string, b: string, c: char)
    requires c !in a && c !in b
    ensures c !in a + b
  {
    assert forall i :: 0 <= i < |a + b| ==> (a + b)[i] == if i < |a| then a[i] else b[i - |a|];
  }

  /** No character of `s` is whitespace. */
  predicate NoWhitespace(s: string)
  {
    forall i :: 0 <= i < |s| ==> !IsWhitespace(s[i])
  }

  lemma NoWhitespaceConcat(a: string, b: string)
    requires NoWhitespace(a) && NoWhitespace(b)
    ensures NoWhitespace(a + b)
  {
    assert forall i :: 0 <= i < |a + b| ==> (a + b)[i] == if i < |a| then a[i] else b[i - |a|];
  }

  /** A string without whitespace is its own trim, with or without one leading space. */
  lemma TrimNoWhitespace(s: string)
    requires NoWhitespace(s)
    ensures Trim(s) == s && Trim([' '] + s) == s
  {
    assert TrimStart(s) == s;
    assert ([' '] + s)[1..] == s;
    assert TrimStart([' '] + s) == s;
  }

  /**
   * Trimming keeps a prefix without whitespace, also when one space comes
   * before the string.
   */
  lemma TrimKeepsPrefix(s: string, p: string)
    requires p != [] && NoWhitespace(p)
    requires StartsWith(s, p)
    ensures StartsWith(Trim(s), p) && StartsWith(Trim([' '] + s), p)
  {
    assert !IsWhitespace(s[0]);
    assert TrimStart(s) == s;
    assert ([' '] + s)[1..] == s;
    assert TrimStart([' '] + s) == s;
    var r := TrimEnd(s);
    assert !IsWhitespace(s[|p| - 1]);
    assert |r| >= |p|;
    assert r[..|p|] == s[..|p|];
  }

  // ---------------------------------------------------------------------
  // Decimal digits

  predicate IsDigit(c: char)
  {
    '0' <= c <= '9'
  }

  predicate AllDigits(s: string)
  {
    forall i :: 0 <= i < |s| ==> IsDigit(s[i])
  }

  function DigitChar(d: nat): (c: char)
    requires d < 10
    ensures IsDigit(c)
  {
    ('0' as int + d) as char
  }

  function DigitValue(c: char): (d: nat)
    requires IsDigit(c)
    ensures d < 10
  {
    (c as int - '0' as int)
  }

  /** The value of a string of decimal digits, most significant first. */
  function DecimalValue(s: string): nat
    requires AllDigits(s)
  {
    if s == [] then 0 else 10 * DecimalValue(s[..|s| - 1]) + DigitValue(s[|s| - 1])
  }

  /** `n.toString()` for a non-negative integer. */
  function NatToString(n: nat): (r: string)
    ensures |r| >= 1 && AllDigits(r)
    ensures |r| == 1 <==> n < 10
  {
    if n < 10 then [DigitChar(n)] else NatToString(n / 10) + [DigitChar(n % 10)]
  }

  /** `n.toString()` for any integer. */
  function IntToString(n: int): string
  {
    if n < 0 then "-" + NatToString(-n) else NatToString(n)
  }

  /** Reading back the decimal text of `n` gives `n`. */
  lemma {:induction false} DecimalOfNatToString(n: nat)
    ensures DecimalValue(NatToString(n)) == n
  {
    if n >= 10 {
      DecimalOfNatToString(n / 10);
      var s := NatToString(n);
      assert s[..|s| - 1] == NatToString(n / 10);
    }
  }

  /** The longest prefix of `s` made of decimal digits. */
  function DigitPrefix(s: string): (r: string)
    ensures AllDigits(r) && |r| <= |s| && r == s[..|r|]
    ensures |r| < |s| ==> !IsDigit(s[|r|])
  {
    if s == [] || !IsDigit(s[0]) then [] else [s[0]] + DigitPrefix(s[1..])
  }

  lemma {:induction false} DigitPrefixOfDigits(s: string, rest: string)
    requires AllDigits(s)
    requires rest == [] || !IsDigit(rest[0])
    ensures DigitPrefix(s + rest) == s
  {
    if s != [] {
      DigitPrefixOfDigits(s[1..], rest);
      assert (s + rest)[1..] == s[1..] + rest;
    }
  }

  // ---------------------------------------------------------------------
  // JavaScript numbers, as far as the integers and NaN go

  datatype JsNumber = Num(n: int) | NaN

  /** `x + 1` */
  function Inc(x: JsNumber): (r: JsNumber)
    ensures r.NaN? <==> x.NaN?
    ensures x.Num? ==> r.n == x.n + 1
  {
    match x
    case Num(n) => Num(n + 1)
    case NaN => NaN
  }

  /** `x >= k`, false when `x` is NaN. */
  predicate AtLeast(x: JsNumber, k: int)
  {
    x.Num? && x.n >= k
  }

  /** `a < x`, false when `x` is NaN. */
  predicate LessThan(a: int, x: JsNumber)
  {
    x.Num? && a < x.n
  }

  /** `x.toString()` */
  function NumberToString(x: JsNumber): string
  {
    match x
    case Num(n) => IntToString(n)
    case NaN => "NaN"
  }

  /** The number a run of decimal digits at the front of `body` denotes; NaN when there is none. */
  function LeadingDecimal(body: string): JsNumber
  {
    var digits := DigitPrefix(body);
    if digits == [] then NaN else Num(DecimalValue(digits))
  }

  /** `-x` */
  function Negate(x: JsNumber): JsNumber
  {
    match x
    case Num(n) => Num(0 - n)
    case NaN => NaN
  }

  /** `parseInt` of a text that starts with no whitespace: an optional sign, then the digits. */
  function ParseSigned(t: string): JsNumber
  {
    if t != [] && t[0] == '-' then Negate(LeadingDecimal(t[1..]))
    else if t != [] && t[0] == '+' then LeadingDecimal(t[1..])
    else LeadingDecimal(t)
  }

  /**
   * `parseInt(s)` with the default radix: leading whitespace is skipped, an
   * optional sign is read, then the longest run of decimal digits; no digits
   * gives NaN.
   */
  function ParseInt(s: string): JsNumber
  {
    if s != [] && IsWhitespace(s[0]) then ParseInt(s[1..]) else ParseSigned(s)
  }

  /** The longest digit prefix of a run of digits is the run. */
  lemma DigitPrefixOfAllDigits(digits: string)
    requires AllDigits(digits)
    ensures DigitPrefix(digits) == digits
  {
    DigitPrefixOfDigits(digits, []);
    assert digits + [] == digits;
  }

  /** `parseInt` skips nothing in a text that starts with a non-space. */
  lemma ParseIntFromNonSpace(s: string)
    requires s != [] && !IsWhitespace(s[0])
    ensures ParseInt(s) == ParseSigned(s)
  {
  }

  /** A run of digits denotes its decimal value. */
  lemma LeadingDecimalOfDigits(digits: string)
    requires digits != [] && AllDigits(digits)
    ensures LeadingDecimal(digits) == Num(DecimalValue(digits))
  {
    DigitPrefixOfAllDigits(digits);
  }

  /** `parseInt(n.toString()) === n`: the storage round trip of an integer. */
  lemma ParseIntOfIntToString(n: int)
    ensures ParseInt(IntToString(n)) == Num(n)
  {
    var m: nat := if n < 0 then -n else n;
    var digits := NatToString(m);
    DecimalOfNatToString(m);
    LeadingDecimalOfDigits(digits);
    var s := IntToString(n);
    if n < 0 {
      assert s == ['-'] + digits;
      assert s[1..] == digits;
      ParseIntFromNonSpace(s);
    } else {
      assert s == digits;
      assert IsDigit(s[0]);
      ParseIntFromNonSpace(s);
    }
  }

  /** `parseInt("NaN")` is NaN, so a stored NaN count reads back as NaN. */
  lemma ParseIntOfNumberToString(x: JsNumber)
    ensures ParseInt(NumberToString(x)) == x
  {
    match x
    case Num(n) => ParseIntOfIntToString(n);
    case NaN =>
      var s := NumberToString(x);
      assert !IsWhitespace(s[0]);
  }
}
