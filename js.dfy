/** The parts of JavaScript's value semantics that the monitor depends on:
    truthiness, `String.prototype.trim`, the decimal form of numbers, the
    conversions `Number(v)` and `parseInt(v)`, and `>` between a number and
    an arbitrary value. Numbers are integers here; NaN has its own case. */
module Js {

  datatype Option<+T> = None | Some(value: T)

  /** A JavaScript value as a setting, a field or an error property can hold it. */
  datatype JsValue =
    | Undefined
    | Null
    | Bool(b: bool)
    | Num(n: int)
    | NotANumber
    | Str(s: string)

  /** Values a JSON settings store can hand back: everything except NaN
      (a missing key reads as `undefined`). */
  predicate Storable(v: JsValue) {
    !v.NotANumber?
  }

  /** JavaScript's `!!v`. */
  predicate Truthy(v: JsValue) {
    match v
    case Undefined => false
    case Null => false
    case Bool(b) => b
    case Num(n) => n != 0
    case NotANumber => false
    case Str(s) => s != ""
  }

  /** The JavaScript number a parse result stands for; None is NaN. */
  function OfParsed(o: Option<int>): (v: JsValue)
    ensures v.Num? || v.NotANumber?
    ensures o.Some? <==> v.Num?
  {
    match o
    case Some(n) => Num(n)
    case None => NotANumber
  }

  // ---------------------------------------------------------------- strings

  predicate StartsWith(s: string, prefix: string) {
    |prefix| <= |s| && s[..|prefix|] == prefix
  }

  /** A prefix of s is a prefix of s with anything appended. */
  lemma PrefixOfAppend(p: string, x: string, q: string)
    requires StartsWith(p, q)
    ensures StartsWith(p + x, q)
  {
    assert (p + x)[..|q|] == p[..|q|];
  }

  lemma AppendAssoc<T>(a: seq<T>, b: seq<T>, c: seq<T>)
    ensures (a + b) + c == a + (b + c)
  {
  }

  /** ECMAScript's WhiteSpace and LineTerminator code points, the set `trim` removes. */
  predicate IsWhitespace(c: char) {
    || c == '\t' || c == '\n' || c == '\U{B}' || c == '\U{C}' || c == '\r' || c == ' '
    || c == '\U{A0}' || c == '\U{1680}' || ('\U{2000}' <= c <= '\U{200A}')
    || c == '\U{2028}' || c == '\U{2029}' || c == '\U{202F}' || c == '\U{205F}'
    || c == '\U{3000}' || c == '\U{FEFF}'
  }

  predicate IsBlank(s: string) {
    forall i :: 0 <= i < |s| ==> IsWhitespace(s[i])
  }

  /** `s.trimStart()`: the suffix left after dropping the leading white space. */
  function TrimStart(s: string): (r: string)
    ensures |r| <= |s| && r == s[|s| - |r|..]
    ensures r == [] || !IsWhitespace(r[0])
    ensures IsBlank(s[..|s| - |r|])
  {
    if s != [] && IsWhitespace(s[0]) then TrimStart(s[1..]) else s
  }

  /** `s.trimEnd()`: the prefix left after dropping the trailing white space. */
  function TrimEnd(s: string): (r: string)
    ensures |r| <= |s| && r == s[..|r|]
    ensures r == [] || !IsWhitespace(r[|r| - 1])
    ensures IsBlank(s[|r|..])
  {
    if s != [] && IsWhitespace(s[|s| - 1]) then TrimEnd(s[..|s| - 1]) else s
  }

  /** `s.trim()`. */
  function Trim(s: string): string {
    TrimEnd(TrimStart(s))
  }

  /** `s.trim() === ''` holds exactly for the strings made of white space alone. */
  lemma TrimEmptyIffBlank(s: string)
    ensures Trim(s) == "" <==> IsBlank(s)
  {
    var t := TrimStart(s);
    assert t == [] <==> IsBlank(s) by {
      if t == [] {
        assert s[..|s|] == s;
      } else {
        assert s[|s| - |t|] == t[0];
      }
    }
    assert Trim(s) == "" <==> t == [] by {
      if t != [] {
        assert t[0..] == t;
      }
    }
  }

  // ---------------------------------------------------------------- numbers

  predicate IsDigit(c: char) {
    '0' <= c <= '9'
  }

  predicate AllDigits(s: string) {
    forall i :: 0 <= i < |s| ==> IsDigit(s[i])
  }

  function DigitChar(d: int): (c: char)
    requires 0 <= d < 10
    ensures IsDigit(c) && c as int - '0' as int == d
  {
    ('0' as int + d) as char
  }

  /** The value of a string of decimal digits. */
  function DigitsValue(s: string): nat
    requires AllDigits(s)
  {
    if s == [] then 0 else DigitsValue(s[..|s| - 1]) * 10 + (s[|s| - 1] as int - '0' as int)
  }

  /** The decimal form `String(n)` gives a non-negative integer. */
  function NatToString(n: nat): (r: string)
    ensures 1 <= |r| && AllDigits(r)
    ensures r[0] == '0' ==> n == 0
  {
    if n < 10 then [DigitChar(n)] else NatToString(n / 10) + [DigitChar(n % 10)]
  }

  /** Reading back the decimal form of n gives n. */
  lemma {:induction false} NatToStringValue(n: nat)
    ensures DigitsValue(NatToString(n)) == n
  {
    if n >= 10 {
      var r := NatToString(n);
      assert r[..|r| - 1] == NatToString(n / 10);
      NatToStringValue(n / 10);
    }
  }

  /** Leading zeros do not change the value of a digit string. */
  lemma {:induction false} LeadingZerosValue(z: string, d: string)
    requires AllDigits(d)
    requires forall i :: 0 <= i < |z| ==> z[i] == '0'
    ensures AllDigits(z + d) && DigitsValue(z + d) == DigitsValue(d)
  {
    if d == [] {
      assert z + d == z;
      ZerosValue(z);
    } else {
      var init := d[..|d| - 1];
      assert (z + d)[..|z + d| - 1] == z + init;
      LeadingZerosValue(z, init);
    }
  }

  lemma {:induction false} ZerosValue(z: string)
    requires forall i :: 0 <= i < |z| ==> z[i] == '0'
    ensures AllDigits(z) && DigitsValue(z) == 0
  {
    if z != [] {
      ZerosValue(z[..|z| - 1]);
    }
  }

  /** `String(i)` of an integer (plain decimal, with a minus sign when negative). */
  function IntToString(i: int): (r: string)
    ensures 1 <= |r|
  {
    if i < 0 then "-" + NatToString(-i) else NatToString(i)
  }

  /** `String(v)`, the text a template literal or `+ ""` produces. */
  function ToJsString(v: JsValue): string {
    match v
    case Undefined => "undefined"
    case Null => "null"
    case Bool(b) => if b then "true" else "false"
    case Num(n) => IntToString(n)
    case NotANumber => "NaN"
    case Str(s) => s
  }

  /** The longest prefix of s made of decimal digits. */
  function DigitPrefix(s: string): (r: string)
    ensures AllDigits(r) && |r| <= |s| && r == s[..|r|]
    ensures |r| < |s| ==> !IsDigit(s[|r|])
  {
    if s != [] && IsDigit(s[0]) then [s[0]] + DigitPrefix(s[1..]) else []
  }

  /** An optional sign followed by a non-empty run of decimal digits, as a number
      (the part of `Number(s)` the model covers). */
  function SignedDigits(s: string): (r: Option<int>)
    ensures r.Some? ==> s != []
  {
    if s != [] && (s[0] == '-' || s[0] == '+') then
      var d := DigitPrefix(s[1..]);
      var v: int := DigitsValue(d);
      if d == [] then None else Some(if s[0] == '-' then -v else v)
    else
      var d := DigitPrefix(s);
      if d == [] then None else Some(DigitsValue(d))
  }

  predicate IsHexDigit(c: char) {
    IsDigit(c) || 'a' <= c <= 'f' || 'A' <= c <= 'F'
  }

  predicate AllHexDigits(s: string) {
    forall i :: 0 <= i < |s| ==> IsHexDigit(s[i])
  }

  function HexDigitValue(c: char): (d: nat)
    requires IsHexDigit(c)
    ensures d < 16
  {
    if IsDigit(c) then c as int - '0' as int
    else if 'a' <= c <= 'f' then c as int - 'a' as int + 10
    else c as int - 'A' as int + 10
  }

  /** The value of a string of hexadecimal digits. */
  function HexValue(s: string): nat
    requires AllHexDigits(s)
  {
    if s == [] then 0 else HexValue(s[..|s| - 1]) * 16 + HexDigitValue(s[|s| - 1])
  }

  /** The longest prefix of s made of hexadecimal digits. */
  function HexPrefix(s: string): (r: string)
    ensures AllHexDigits(r) && |r| <= |s| && r == s[..|r|]
    ensures |r| < |s| ==> !IsHexDigit(s[|r|])
  {
    if s != [] && IsHexDigit(s[0]) then [s[0]] + HexPrefix(s[1..]) else []
  }

  /** A "0x" or "0X" prefix, which switches `parseInt`'s default radix to 16. */
  predicate HasHexPrefix(s: string) {
    |s| >= 2 && s[0] == '0' && (s[1] == 'x' || s[1] == 'X')
  }

  /** The unsigned part `parseInt` reads: after "0x"/"0X" the longest run of
      hexadecimal digits, otherwise the longest run of decimal digits; None when
      that run is empty. */
  function ParseMagnitude(s: string): Option<nat> {
    if HasHexPrefix(s) then
      var h := HexPrefix(s[2..]);
      if h == [] then None else Some(HexValue(h))
    else
      var d := DigitPrefix(s);
      if d == [] then None else Some(DigitsValue(d))
  }

  /** A magnitude with its sign applied; NaN stays NaN. */
  function ApplySign(negative: bool, m: Option<nat>): (r: Option<int>)
    ensures r.Some? <==> m.Some?
    ensures m.Some? ==> r.value == if negative then -(m.value as int) else m.value as int
  {
    match m
    case None => None
    case Some(v) => Some(if negative then -(v as int) else v as int)
  }

  /** `parseInt(s)` with the default radix, on a string whose leading white
      space is already gone: an optional sign, then the magnitude. */
  function ParseIntText(s: string): Option<int> {
    if s != [] && (s[0] == '-' || s[0] == '+') then ApplySign(s[0] == '-', ParseMagnitude(s[1..]))
    else ApplySign(false, ParseMagnitude(s))
  }

  /** `parseInt(String(v))` with the default radix; None is NaN. */
  function ParseInt(v: JsValue): Option<int> {
    ParseIntText(TrimStart(ToJsString(v)))
  }

  /** The value `parseInt` reads from text that starts with "0x" or "0X": the
      longest run of hexadecimal digits after the prefix, None when it is empty. */
  function HexReading(s: string): Option<nat>
    requires HasHexPrefix(s)
  {
    var h := HexPrefix(s[2..]);
    if h == [] then None else Some(HexValue(h))
  }

  /** A "0x" prefix, with or without a sign, makes `parseInt` read hexadecimal:
      the value of the longest run of hex digits after it, and NaN when that run
      is empty (`parseInt("0x1f")` is 31, `parseInt("-0x10")` is -16,
      `parseInt("0x")` is NaN). */
  lemma ParseIntReadsHex(s: string)
    requires HasHexPrefix(s)
    ensures ParseInt(Str(s)) == ApplySign(false, HexReading(s))
    ensures ParseInt(Str("+" + s)) == ApplySign(false, HexReading(s))
    ensures ParseInt(Str("-" + s)) == ApplySign(true, HexReading(s))
  {
    assert ParseMagnitude(s) == HexReading(s);
    UnsignedText(s);
    PlusText(s);
    MinusText(s);
  }

  /** `parseInt` of a string that starts with a digit is its magnitude. */
  lemma UnsignedText(s: string)
    requires s != [] && IsDigit(s[0])
    ensures ParseInt(Str(s)) == ApplySign(false, ParseMagnitude(s))
  {
    TrimStartKeeps(s);
    assert ParseInt(Str(s)) == ParseIntText(s);
  }

  /** `parseInt` of a plus sign followed by text that starts with a digit. */
  lemma PlusText(s: string)
    requires s != [] && IsDigit(s[0])
    ensures ParseInt(Str("+" + s)) == ApplySign(false, ParseMagnitude(s))
  {
    var t := "+" + s;
    TrimStartKeeps(t);
    assert ParseInt(Str(t)) == ParseIntText(t);
    assert t[0] == '+' && t[1..] == s;
  }

  /** `parseInt` of a minus sign followed by text that starts with a digit. */
  lemma MinusText(s: string)
    requires s != [] && IsDigit(s[0])
    ensures ParseInt(Str("-" + s)) == ApplySign(true, ParseMagnitude(s))
  {
    var t := "-" + s;
    TrimStartKeeps(t);
    assert ParseInt(Str(t)) == ParseIntText(t);
    assert t[0] == '-' && t[1..] == s;
  }

  /** `Number(s)` of a string: blank is 0, a signed run of digits is its value. */
  function StringToNumber(s: string): Option<int> {
    var t := Trim(s);
    if t == "" then Some(0)
    else
      var r := SignedDigits(t);
      var digits := if t[0] == '-' || t[0] == '+' then |t| - 1 else |t|;
      if r.Some? && |DigitPrefix(t[|t| - digits..])| == digits then r else None
  }

  /** `Number(v)` (the ToNumber conversion); None is NaN. */
  function ToNumber(v: JsValue): Option<int> {
    match v
    case Undefined => None
    case Null => Some(0)
    case Bool(b) => Some(if b then 1 else 0)
    case Num(n) => Some(n)
    case NotANumber => None
    case Str(s) => StringToNumber(s)
  }

  /** `x > v` for a number x: v is converted to a number, and NaN compares false. */
  predicate LooseGreater(x: int, v: JsValue) {
    match ToNumber(v)
    case None => false
    case Some(n) => x > n
  }

  /** `parseInt` gives every integer back from its decimal form. */
  lemma ParseIntOfNumber(n: int)
    ensures ParseInt(Num(n)) == Some(n)
  {
    var m: nat := if n < 0 then -n else n;
    var d := NatToString(m);
    NatToStringValue(m);
    if n < 0 {
      assert ToJsString(Num(n)) == "-" + d;
      SignedDigitsOfNegative(d);
    } else {
      assert ToJsString(Num(n)) == d;
      SignedDigitsOfDigits(d);
    }
  }

  lemma SignedDigitsOfDigits(d: string)
    requires d != [] && AllDigits(d)
    ensures TrimStart(d) == d
    ensures ParseIntText(d) == Some(DigitsValue(d) as int)
  {
    var c := d[0];
    assert IsDigit(c);
    assert !IsWhitespace(c) && c != '-' && c != '+';
    TrimStartKeeps(d);
    DigitsNotHex(d);
    DigitPrefixOfDigits(d);
  }

  lemma DigitsNotHex(d: string)
    requires AllDigits(d)
    ensures !HasHexPrefix(d)
  {
    if |d| >= 2 {
      assert IsDigit(d[1]);
    }
  }

  lemma SignedDigitsOfNegative(d: string)
    requires d != [] && AllDigits(d)
    ensures TrimStart("-" + d) == "-" + d
    ensures ParseIntText("-" + d) == Some(-(DigitsValue(d) as int))
  {
    var t := "-" + d;
    assert t[0] == '-';
    TrimStartKeeps(t);
    NegativeDigits(t, d);
  }

  lemma NegativeDigits(t: string, d: string)
    requires d != [] && AllDigits(d) && t == "-" + d
    ensures ParseIntText(t) == Some(-(DigitsValue(d) as int))
  {
    assert t[1..] == d;
    DigitsNotHex(d);
    DigitPrefixOfDigits(d);
  }

  lemma TrimStartKeeps(s: string)
    requires s != [] && !IsWhitespace(s[0])
    ensures TrimStart(s) == s
  {
  }

  lemma {:induction false} DigitPrefixOfDigits(d: string)
    requires AllDigits(d)
    ensures DigitPrefix(d) == d
  {
    if d != [] {
      DigitPrefixOfDigits(d[1..]);
    }
  }
}
