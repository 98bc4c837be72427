/**
 * JavaScript values as the site's scripts use them, and the conversions the
 * scripts rely on: truthiness (`x || y`, `!x`), nullish coalescing (`x ?? y`),
 * `String(x)`, `Number(x)`, `trim()`, `toLowerCase()`/`toUpperCase()` and
 * `includes()`.
 */
module JsValues {

  datatype Option<+T> = None | Some(value: T) {
    function GetOr(default: T): T {
      if Some? then value else default
    }
  }

  /**
   * A JavaScript value. Numbers are integers (the scripts only pass ids,
   * counts and statuses through the tag queue). `Obj` stands for an object
   * such as an `Error`: `message` and `stack` are the values of those two
   * properties (`Undefined` when absent) and `text` is what `String(obj)`
   * returns, `None` when the conversion throws.
   */
  datatype Value =
    | Undefined
    | Null
    | Bool(b: bool)
    | Num(n: int)
    | Str(s: string)
    | Obj(message: Value, stack: Value, text: Option<string>)

  /** ToBoolean: what `if (v)`, `!v` and `v || w` test. */
  predicate Truthy(v: Value) {
    match v
    case Undefined => false
    case Null => false
    case Bool(b) => b
    case Num(n) => n != 0
    case Str(s) => s != ""
    case Obj(_, _, _) => true
  }

  /** `a || b` */
  function Or(a: Value, b: Value): Value {
    if Truthy(a) then a else b
  }

  /** `a ?? b` */
  function Coalesce(a: Value, b: Value): Value {
    if a == Undefined || a == Null then b else a
  }

  /** `v?.message`: primitives and nullish values have no such property. */
  function MessageOf(v: Value): Value {
    if v.Obj? then v.message else Undefined
  }

  /** `v?.stack` */
  function StackOf(v: Value): Value {
    if v.Obj? then v.stack else Undefined
  }

  // ------------------------------------------------------------------
  // Decimal digits
  // ------------------------------------------------------------------

  predicate IsDigit(c: char) {
    '0' <= c <= '9'
  }

  predicate AllDigits(s: string) {
    forall i :: 0 <= i < |s| ==> IsDigit(s[i])
  }

  function DigitChar(d: nat): char
    requires d < 10
  {
    ('0' as int + d) as char
  }

  /** The decimal numeral of a natural number, without leading zeros. */
  function NatToString(n: nat): string
    decreases n
  {
    if n < 10 then [DigitChar(n)] else NatToString(n / 10) + [DigitChar(n % 10)]
  }

  /** The value of a run of decimal digits, read most significant first. */
  function DigitsValue(ds: string): nat
    requires AllDigits(ds)
  {
    if ds == [] then 0 else DigitsValue(ds[..|ds| - 1]) * 10 + (ds[|ds| - 1] as int - '0' as int)
  }

  /** `String(n)` for an integer. */
  function IntToString(n: int): string {
    if n < 0 then "-" + NatToString(-n) else NatToString(n)
  }

  /** Reading back a numeral gives the number; only zero is written with a leading 0. */
  lemma {:induction false} NatToStringRoundTrip(n: nat)
    ensures AllDigits(NatToString(n)) && DigitsValue(NatToString(n)) == n
    ensures NatToString(n) != [] && (NatToString(n)[0] == '0' <==> n == 0)
    ensures n == 0 ==> NatToString(n) == "0"
    decreases n
  {
    if n >= 10 {
      NatToStringRoundTrip(n / 10);
      var s := NatToString(n);
      assert s[..|s| - 1] == NatToString(n / 10);
      assert s[0] == NatToString(n / 10)[0];
    }
  }

  // ------------------------------------------------------------------
  // String(v)
  // ------------------------------------------------------------------

  /** `String(v)`; `None` when the conversion throws. */
  function ToStr(v: Value): Option<string> {
    match v
    case Undefined => Some("undefined")
    case Null => Some("null")
    case Bool(b) => Some(if b then "true" else "false")
    case Num(n) => Some(IntToString(n))
    case Str(s) => Some(s)
    case Obj(_, _, text) => text
  }

  // ------------------------------------------------------------------
  // Whitespace and trim()
  // ------------------------------------------------------------------

  /** The characters `trim()` removes and the regular-expression class `\s` matches. */
  predicate IsSpace(c: char) {
    || c == '\t' || c == '\n' || c == '\U{000B}' || c == '\U{000C}' || c == '\r' || c == ' '
    || c == '\U{00A0}' || c == '\U{1680}' || ('\U{2000}' <= c <= '\U{200A}')
    || c == '\U{2028}' || c == '\U{2029}' || c == '\U{202F}' || c == '\U{205F}'
    || c == '\U{3000}' || c == '\U{FEFF}'
  }

  predicate AllSpace(s: string) {
    forall i :: 0 <= i < |s| ==> IsSpace(s[i])
  }

  function TrimStart(s: string): string
    decreases |s|
  {
    if s != [] && IsSpace(s[0]) then TrimStart(s[1..]) else s
  }

  function TrimEnd(s: string): string
    decreases |s|
  {
    if s != [] && IsSpace(s[|s| - 1]) then TrimEnd(s[..|s| - 1]) else s
  }

  /** `s.trim()` */
  function Trim(s: string): string {
    TrimEnd(TrimStart(s))
  }

  /** `!s.trim()`: the test every "required" check uses. */
  predicate Blank(s: string) {
    Trim(s) == ""
  }

  lemma {:induction false} TrimStartShape(s: string)
    ensures TrimStart(s) == [] <==> AllSpace(s)
    ensures TrimStart(s) != [] ==> !IsSpace(TrimStart(s)[0])
    ensures |TrimStart(s)| <= |s| && TrimStart(s) == s[|s| - |TrimStart(s)|..]
    decreases |s|
  {
    if s != [] && IsSpace(s[0]) {
      TrimStartShape(s[1..]);
      if AllSpace(s[1..]) {
        forall i | 0 <= i < |s| ensures IsSpace(s[i]) {
          if i > 0 { assert s[i] == s[1..][i - 1]; }
        }
      }
      if AllSpace(s) {
        forall i | 0 <= i < |s| - 1 ensures IsSpace(s[1..][i]) {
          assert s[1..][i] == s[i + 1];
        }
      }
    } else if s != [] {
      assert !IsSpace(s[0]);
    }
  }

  lemma {:induction false} TrimEndShape(s: string)
    ensures TrimEnd(s) == [] <==> AllSpace(s)
    ensures TrimEnd(s) != [] ==> !IsSpace(TrimEnd(s)[|TrimEnd(s)| - 1])
    ensures |TrimEnd(s)| <= |s| && TrimEnd(s) == s[..|TrimEnd(s)|]
    decreases |s|
  {
    if s != [] && IsSpace(s[|s| - 1]) {
      var p := s[..|s| - 1];
      TrimEndShape(p);
      if AllSpace(p) {
        forall i | 0 <= i < |s| ensures IsSpace(s[i]) {
          if i < |s| - 1 { assert s[i] == p[i]; }
        }
      }
      if AllSpace(s) {
        forall i | 0 <= i < |p| ensures IsSpace(p[i]) {
          assert p[i] == s[i];
        }
      }
    } else if s != [] {
      assert !IsSpace(s[|s| - 1]);
    }
  }

  /**
   * `s.trim()` is empty exactly when every character of `s` is white space;
   * otherwise it neither starts nor ends with white space.
   */
  lemma TrimShape(s: string)
    ensures Blank(s) <==> AllSpace(s)
    ensures !Blank(s) ==> !IsSpace(Trim(s)[0]) && !IsSpace(Trim(s)[|Trim(s)| - 1])
  {
    var t := TrimStart(s);
    TrimStartShape(s);
    TrimEndShape(t);
    if !Blank(s) {
      var r := Trim(s);
      assert r[0] == t[0];
    }
  }

  /** Trimming a string that neither starts nor ends with white space changes nothing. */
  lemma TrimUnspaced(s: string)
    requires s == [] || (!IsSpace(s[0]) && !IsSpace(s[|s| - 1]))
    ensures Trim(s) == s
  {
  }

  // ------------------------------------------------------------------
  // Case mapping and substrings
  // ------------------------------------------------------------------

  function LowerChar(c: char): char {
    if 'A' <= c <= 'Z' then (c as int + 32) as char else c
  }

  function UpperChar(c: char): char {
    if 'a' <= c <= 'z' then (c as int - 32) as char else c
  }

  /** `s.toLowerCase()` on the ASCII letters. */
  function Lower(s: string): string {
    seq(|s|, i requires 0 <= i < |s| => LowerChar(s[i]))
  }

  /** `s.toUpperCase()` on the ASCII letters. */
  function Upper(s: string): string {
    seq(|s|, i requires 0 <= i < |s| => UpperChar(s[i]))
  }

  predicate IsPrefix(p: string, s: string) {
    |p| <= |s| && s[..|p|] == p
  }

  /** `h.includes(n)` */
  predicate Contains(h: string, n: string)
    decreases |h|
  {
    IsPrefix(n, h) || (h != [] && Contains(h[1..], n))
  }

  /** `includes` agrees with "occurs at some offset". */
  lemma {:induction false} ContainsAt(h: string, n: string, k: nat)
    requires k + |n| <= |h| && h[k..k + |n|] == n
    ensures Contains(h, n)
    decreases k
  {
    if k > 0 {
      assert h[1..][k - 1..k - 1 + |n|] == h[k..k + |n|];
      ContainsAt(h[1..], n, k - 1);
    }
  }

  // ------------------------------------------------------------------
  // Number(v)
  // ------------------------------------------------------------------

  /**
   * `Number(s)` for a string, on integers: surrounding white space is
   * ignored, the empty string is 0, an optional sign may precede the
   * digits. `None` stands for NaN (and for numerals this model does not
   * read: fractions, exponents, hexadecimal, Infinity).
   */
  function StringToNumber(s: string): Option<int> {
    var t := Trim(s);
    if t == "" then Some(0)
    else
      var neg := t[0] == '-';
      var body := if t[0] == '-' || t[0] == '+' then t[1..] else t;
      if body != [] && AllDigits(body) then
        var v: int := DigitsValue(body);
        Some(if neg then -v else v)
      else None
  }

  /** `Number(v)`; `None` stands for NaN. */
  function ToNumber(v: Value): Option<int> {
    match v
    case Undefined => None
    case Null => Some(0)
    case Bool(b) => Some(if b then 1 else 0)
    case Num(n) => Some(n)
    case Str(s) => StringToNumber(s)
    case Obj(_, _, text) => if text.Some? then StringToNumber(text.value) else None
  }

  /** `Number(s) || d`: NaN and 0 both fall back to the default. */
  function NumberOr(s: string, d: int): int {
    var n := StringToNumber(s);
    if n.Some? && n.value != 0 then n.value else d
  }

  /** `Math.max(lo, Math.min(hi, x))` */
  function Clamp(x: int, lo: int, hi: int): int {
    if x > hi then (if hi > lo then hi else lo) else if x > lo then x else lo
  }

  /** `Number(String(n))` gives `n` back. */
  lemma IntToStringRoundTrip(n: int)
    ensures StringToNumber(IntToString(n)) == Some(n)
  {
    var m: nat := if n < 0 then -n else n;
    NatToStringRoundTrip(m);
    var s := IntToString(n);
    assert !IsSpace(s[0]) && !IsSpace(s[|s| - 1]);
    TrimUnspaced(s);
    if n < 0 {
      assert s[1..] == NatToString(m);
    }
  }

  /** The input clamps: the result lies in the range and is the input when that already does. */
  lemma ClampBounds(x: int, lo: int, hi: int)
    requires lo <= hi
    ensures lo <= Clamp(x, lo, hi) <= hi
    ensures lo <= x <= hi ==> Clamp(x, lo, hi) == x
    ensures x < lo ==> Clamp(x, lo, hi) == lo
    ensures x > hi ==> Clamp(x, lo, hi) == hi
  {
  }
}
