/**
 * `JSON.stringify` and `JSON.parse` for the one shape the RUM store
 * persists: a flat object whose property values are primitives. Objects
 * keep their properties in insertion order, as JavaScript objects with
 * non-numeric keys do.
 */
module Json {
  import opened JsValues

  /** An object's own enumerable properties, in insertion order. */
  type Props = seq<(string, Value)>

  // ------------------------------------------------------------------
  // Objects as ordered property lists
  // ------------------------------------------------------------------

  /** `obj[k]`, `None` when the property is absent. */
  function Lookup(p: Props, k: string): Option<Value> {
    if p == [] then None else if p[0].0 == k then Some(p[0].1) else Lookup(p[1..], k)
  }

  /** No key occurs twice: what every JavaScript object satisfies. */
  predicate UniqueKeys(p: Props) {
    p == [] || (Lookup(p[1..], p[0].0).None? && UniqueKeys(p[1..]))
  }

  /**
   * `obj[k] = v`: an existing property keeps its place and takes the new
   * value; a new one is appended.
   */
  function Put(p: Props, k: string, v: Value): (r: Props)
    ensures Lookup(r, k) == Some(v)
    ensures forall k' :: k' != k ==> Lookup(r, k') == Lookup(p, k')
    ensures Lookup(p, k).None? ==> r == p + [(k, v)]
    ensures Lookup(p, k).Some? ==> |r| == |p|
    ensures Lookup(p, k).Some? ==>
      exists i :: 0 <= i < |p| && p[i].0 == k && (forall j :: 0 <= j < i ==> p[j].0 != k) && r == p[..i] + [(k, v)] + p[i + 1..]
    ensures UniqueKeys(p) ==> UniqueKeys(r)
  {
    if p == [] then [(k, v)]
    else if p[0].0 == k then [(k, v)] + p[1..]
    else [p[0]] + Put(p[1..], k, v)
  }

  lemma {:induction false} LookupAppend(p: Props, q: Props, k: string)
    ensures Lookup(p + q, k) == if Lookup(p, k).Some? then Lookup(p, k) else Lookup(q, k)
  {
    if p != [] {
      assert (p + q)[0] == p[0];
      assert (p + q)[1..] == p[1..] + q;
      LookupAppend(p[1..], q, k);
    } else {
      assert p + q == q;
    }
  }

  /** In an object without repeated keys, no key of a later part occurs earlier. */
  lemma {:induction false} UniqueSplit(a: Props, b: Props)
    requires b != [] && UniqueKeys(a + b)
    ensures Lookup(a, b[0].0).None?
  {
    if a != [] {
      assert (a + b)[0] == a[0];
      assert (a + b)[1..] == a[1..] + b;
      LookupAppend(a[1..], b, a[0].0);
      assert b[0].0 != a[0].0 by {
        assert Lookup([b[0]] + b[1..], b[0].0).Some?;
        assert [b[0]] + b[1..] == b;
        LookupAppend(a[1..], b, b[0].0);
      }
      UniqueSplit(a[1..], b);
    }
  }

  // ------------------------------------------------------------------
  // JSON.stringify
  // ------------------------------------------------------------------

  /** A fresh `{}` as `JSON.parse` produces it. */
  const EmptyObject: Value := Obj(Undefined, Undefined, Some("[object Object]"))

  /**
   * What survives a trip through JSON: properties whose value is
   * `undefined` are dropped, and an object value (an `Error`, whose
   * `message` and `stack` are not enumerable) becomes `{}`.
   */
  function Normalize(p: Props): Props {
    if p == [] then []
    else if p[0].1.Undefined? then Normalize(p[1..])
    else if p[0].1.Obj? then [(p[0].0, EmptyObject)] + Normalize(p[1..])
    else [p[0]] + Normalize(p[1..])
  }

  const HexDigits: string := "0123456789abcdef"

  /** The escape `JSON.stringify` writes for one character of a string. */
  function EscapeChar(c: char): string {
    if c == '"' then "\\\""
    else if c == '\\' then "\\\\"
    else if c == '\U{0008}' then "\\b"
    else if c == '\U{000C}' then "\\f"
    else if c == '\n' then "\\n"
    else if c == '\r' then "\\r"
    else if c == '\t' then "\\t"
    else if c < ' ' then "\\u00" + [HexDigits[c as int / 16], HexDigits[c as int % 16]]
    else [c]
  }

  function EscapeBody(s: string): string {
    if s == [] then "" else EscapeChar(s[0]) + EscapeBody(s[1..])
  }

  function Quote(s: string): string {
    "\"" + EscapeBody(s) + "\""
  }

  function StringifyValue(v: Value): string {
    match v
    case Undefined => ""
    case Null => "null"
    case Bool(b) => if b then "true" else "false"
    case Num(n) => IntToString(n)
    case Str(s) => Quote(s)
    case Obj(_, _, _) => "{}"
  }

  /** The members of an object whose values are all defined, comma-separated. */
  function Members(p: Props): string {
    if p == [] then ""
    else if |p| == 1 then Entry(p[0].0, p[0].1)
    else Entry(p[0].0, p[0].1) + "," + Members(p[1..])
  }

  function Entry(k: string, v: Value): string {
    Quote(k) + ":" + StringifyValue(v)
  }

  /** `JSON.stringify(obj)` */
  function Stringify(p: Props): string {
    "{" + Members(Normalize(p)) + "}"
  }

  // ------------------------------------------------------------------
  // JSON.parse
  // ------------------------------------------------------------------

  /** What a parser returns: the value read and the text after it. */
  type Parsed<T> = Option<(T, string)>

  predicate IsJsonSpace(c: char) {
    c == ' ' || c == '\t' || c == '\n' || c == '\r'
  }

  function SkipSpace(s: string): (r: string)
    ensures |r| <= |s|
  {
    if s != [] && IsJsonSpace(s[0]) then SkipSpace(s[1..]) else s
  }

  function HexValue(c: char): int {
    if '0' <= c <= '9' then c as int - '0' as int
    else if 'a' <= c <= 'f' then c as int - 'a' as int + 10
    else if 'A' <= c <= 'F' then c as int - 'A' as int + 10
    else -1
  }

  /** The character a `\uXXXX` escape names; `None` for malformed digits and surrogates. */
  function UnicodeEscape(h: string): Option<char>
    requires |h| == 4
  {
    var d := [HexValue(h[0]), HexValue(h[1]), HexValue(h[2]), HexValue(h[3])];
    if d[0] < 0 || d[1] < 0 || d[2] < 0 || d[3] < 0 then None
    else
      var code := ((d[0] * 16 + d[1]) * 16 + d[2]) * 16 + d[3];
      if 0xD800 <= code < 0xE000 then None else Some(code as char)
  }

  /** One escape after a backslash: the character and the length of the escape. */
  function Unescape(s: string): Option<(char, nat)>
    requires s != []
  {
    match s[0]
    case '"' => Some(('"', 1))
    case '\\' => Some(('\\', 1))
    case '/' => Some(('/', 1))
    case 'b' => Some(('\U{0008}', 1))
    case 'f' => Some(('\U{000C}', 1))
    case 'n' => Some(('\n', 1))
    case 'r' => Some(('\r', 1))
    case 't' => Some(('\t', 1))
    case 'u' =>
      if |s| < 5 then None
      else
        var c := UnicodeEscape(s[1..5]);
        if c.None? then None else Some((c.value, 5))
    case _ => None
  }

  /** The characters of a string literal up to its closing quote. */
  function StringBody(s: string): (r: Parsed<string>)
    ensures r.Some? ==> |r.value.1| < |s|
    decreases |s|
  {
    if s == [] then None
    else if s[0] == '"' then Some(("", s[1..]))
    else if s[0] < ' ' then None
    else if s[0] == '\\' then
      if |s| < 2 then None
      else
        var e := Unescape(s[1..]);
        if e.None? || 1 + e.value.1 > |s| - 1 then None
        else
          var tail := StringBody(s[1 + e.value.1..]);
          if tail.None? then None else Some(([e.value.0] + tail.value.0, tail.value.1))
    else
      var tail := StringBody(s[1..]);
      if tail.None? then None else Some(([s[0]] + tail.value.0, tail.value.1))
  }

  function StringLiteral(s: string): (r: Parsed<string>)
    ensures r.Some? ==> |r.value.1| < |s|
  {
    if s != [] && s[0] == '"' then StringBody(s[1..]) else None
  }

  /** The longest prefix of decimal digits. */
  function DigitRun(s: string): (r: string)
    ensures |r| <= |s| && r == s[..|r|] && AllDigits(r)
    ensures |r| < |s| ==> !IsDigit(s[|r|])
  {
    if s != [] && IsDigit(s[0]) then [s[0]] + DigitRun(s[1..]) else ""
  }

  /** Digits without a leading zero. */
  function Unsigned(s: string): (r: Parsed<int>)
    ensures r.Some? ==> |r.value.1| < |s|
  {
    var ds := DigitRun(s);
    if ds == [] || (|ds| > 1 && ds[0] == '0') then None
    else Some((DigitsValue(ds) as int, s[|ds|..]))
  }

  /** An integer: an optional minus sign and digits without a leading zero. */
  function Number(s: string): (r: Parsed<int>)
    ensures r.Some? ==> |r.value.1| < |s|
  {
    if s != [] && s[0] == '-' then
      var u := Unsigned(s[1..]);
      if u.None? then None else Some((-u.value.0, u.value.1))
    else Unsigned(s)
  }

  function Literal(s: string, word: string, v: Value): (r: Parsed<Value>)
    requires word != []
    ensures r.Some? ==> |r.value.1| < |s|
  {
    if IsPrefix(word, s) then Some((v, s[|word|..])) else None
  }

  /** A property value: a primitive or an empty object. */
  function ParseValue(s: string): (r: Parsed<Value>)
    ensures r.Some? ==> |r.value.1| < |s|
  {
    if s == [] then None
    else if s[0] == 'n' then Literal(s, "null", Null)
    else if s[0] == 't' then Literal(s, "true", Bool(true))
    else if s[0] == 'f' then Literal(s, "false", Bool(false))
    else if s[0] == '"' then
      var str := StringLiteral(s);
      if str.None? then None else Some((Str(str.value.0), str.value.1))
    else if s[0] == '-' || IsDigit(s[0]) then
      var num := Number(s);
      if num.None? then None else Some((Num(num.value.0), num.value.1))
    else if s[0] == '{' then
      var rest := SkipSpace(s[1..]);
      if rest != [] && rest[0] == '}' then Some((EmptyObject, rest[1..])) else None
    else None
  }

  /** One member, `"key": value`, and the text after it with white space skipped. */
  function ParseMember(s: string): (r: Parsed<(string, Value)>)
    ensures r.Some? ==> |r.value.1| < |s|
  {
    var key := StringLiteral(s);
    if key.None? then None
    else
      var afterKey := SkipSpace(key.value.1);
      if afterKey == [] || afterKey[0] != ':' then None
      else
        var value := ParseValue(SkipSpace(afterKey[1..]));
        if value.None? then None
        else Some(((key.value.0, value.value.0), SkipSpace(value.value.1)))
  }

  /**
   * The members of an object after its opening brace, up to and including
   * the closing brace. A repeated key keeps its first place and takes the
   * last value.
   */
  function ParseMembers(s: string, acc: Props): (r: Parsed<Props>)
    decreases |s|
  {
    var m := ParseMember(s);
    if m.None? then None
    else
      var acc' := Put(acc, m.value.0.0, m.value.0.1);
      var after := m.value.1;
      if after != [] && after[0] == '}' then Some((acc', after[1..]))
      else if after != [] && after[0] == ',' then ParseMembers(SkipSpace(after[1..]), acc')
      else None
  }

  /** `JSON.parse(text)` for a flat object; `None` where it throws or the text is outside that shape. */
  function Parse(text: string): Option<Props> {
    var s := SkipSpace(text);
    if s == [] || s[0] != '{' then None
    else
      var body := SkipSpace(s[1..]);
      var members :=
        if body != [] && body[0] == '}' then Some(([], body[1..])) else ParseMembers(body, []);
      if members.Some? && SkipSpace(members.value.1) == [] then Some(members.value.0) else None
  }

  // ------------------------------------------------------------------
  // The round trip
  // ------------------------------------------------------------------

  predicate ShortEscaped(c: char) {
    c == '"' || c == '\\' || c == '\U{0008}' || c == '\U{000C}' || c == '\n' || c == '\r' || c == '\t'
  }

  lemma ShortEscapeRoundTrip(c: char, after: string)
    requires ShortEscaped(c)
    ensures StringBody(EscapeChar(c) + after) ==
      (var tail := StringBody(after); if tail.None? then None else Some(([c] + tail.value.0, tail.value.1)))
  {
    var s := EscapeChar(c) + after;
    assert s[0] == '\\' && s[2..] == after;
    assert Unescape(s[1..]) == Some((c, 1));
  }

  lemma HexEscapeRoundTrip(c: char, after: string)
    requires c < ' ' && !ShortEscaped(c)
    ensures StringBody(EscapeChar(c) + after) ==
      (var tail := StringBody(after); if tail.None? then None else Some(([c] + tail.value.0, tail.value.1)))
  {
    var s := EscapeChar(c) + after;
    var code := c as int;
    var hi := HexDigits[code / 16];
    var lo := HexDigits[code % 16];
    assert s[0] == '\\' && s[1] == 'u';
    assert s[2..6] == ['0', '0', hi, lo];
    assert s[6..] == after;
    assert HexValue(hi) == code / 16;
    assert HexValue(lo) == code % 16;
    assert UnicodeEscape(s[2..6]) == Some(c);
    assert Unescape(s[1..]) == Some((c, 5));
  }

  /** One escaped character reads back as that character. */
  lemma EscapeCharRoundTrip(c: char, after: string)
    ensures StringBody(EscapeChar(c) + after) ==
      (var tail := StringBody(after); if tail.None? then None else Some(([c] + tail.value.0, tail.value.1)))
  {
    if ShortEscaped(c) {
      ShortEscapeRoundTrip(c, after);
    } else if c < ' ' {
      HexEscapeRoundTrip(c, after);
    } else {
      var s := EscapeChar(c) + after;
      assert s[0] == c && s[1..] == after;
    }
  }

  lemma {:induction false} EscapeRoundTrip(x: string, rest: string)
    ensures StringBody(EscapeBody(x) + "\"" + rest) == Some((x, rest))
    decreases |x|
  {
    if x == [] {
      assert EscapeBody(x) + "\"" + rest == "\"" + rest;
    } else {
      var after := EscapeBody(x[1..]) + "\"" + rest;
      assert EscapeBody(x) + "\"" + rest == EscapeChar(x[0]) + after;
      EscapeRoundTrip(x[1..], rest);
      EscapeCharRoundTrip(x[0], after);
      assert [x[0]] + x[1..] == x;
    }
  }

  lemma StringRoundTrip(x: string, rest: string)
    ensures StringLiteral(Quote(x) + rest) == Some((x, rest))
  {
    var t := EscapeBody(x) + "\"" + rest;
    assert Quote(x) + rest == ['"'] + t;
    assert (['"'] + t)[0] == '"' && (['"'] + t)[1..] == t;
    EscapeRoundTrip(x, rest);
  }

  lemma {:induction false} DigitRunOf(ds: string, rest: string)
    requires AllDigits(ds)
    requires rest == [] || !IsDigit(rest[0])
    ensures DigitRun(ds + rest) == ds
    decreases |ds|
  {
    if ds != [] {
      assert (ds + rest)[1..] == ds[1..] + rest;
      DigitRunOf(ds[1..], rest);
    }
  }

  lemma UnsignedNumber(ds: string, rest: string)
    requires ds != [] && AllDigits(ds) && (|ds| > 1 ==> ds[0] != '0')
    requires rest == [] || !IsDigit(rest[0])
    ensures Unsigned(ds + rest) == Some((DigitsValue(ds) as int, rest))
  {
    DigitRunOf(ds, rest);
    assert (ds + rest)[|ds|..] == rest;
  }

  lemma NaturalRoundTrip(m: nat, rest: string)
    requires rest == [] || !IsDigit(rest[0])
    ensures Number(NatToString(m) + rest) == Some((m as int, rest))
  {
    NatToStringRoundTrip(m);
    var ds := NatToString(m);
    UnsignedNumber(ds, rest);
    assert (ds + rest)[0] == ds[0] && IsDigit(ds[0]);
  }

  lemma NegativeRoundTrip(m: nat, rest: string)
    requires rest == [] || !IsDigit(rest[0])
    ensures Number("-" + NatToString(m) + rest) == Some((-(m as int), rest))
  {
    NatToStringRoundTrip(m);
    var t := NatToString(m) + rest;
    UnsignedNumber(NatToString(m), rest);
    assert "-" + NatToString(m) + rest == ['-'] + t;
    assert (['-'] + t)[1..] == t;
  }

  lemma NumberRoundTrip(n: int, rest: string)
    requires rest == [] || !IsDigit(rest[0])
    ensures Number(IntToString(n) + rest) == Some((n, rest))
  {
    if n < 0 {
      NegativeRoundTrip(-n, rest);
    } else {
      NaturalRoundTrip(n, rest);
    }
  }

  /** What `Members` writes for each value `Normalize` can leave. */
  predicate Normal(p: Props) {
    forall i :: 0 <= i < |p| ==> !p[i].1.Undefined? && (p[i].1.Obj? ==> p[i].1 == EmptyObject)
  }

  /** A keyword is read back and the text after it is left. */
  lemma LiteralRoundTrip(word: string, v: Value, rest: string)
    requires word != []
    ensures Literal(word + rest, word, v) == Some((v, rest))
  {
    assert (word + rest)[..|word|] == word;
    assert (word + rest)[|word|..] == rest;
  }

  /** A numeral starts with a minus sign or a digit. */
  lemma NumeralStart(n: int)
    ensures IntToString(n) != [] && (IntToString(n)[0] == '-' || IsDigit(IntToString(n)[0]))
  {
    var m: nat := if n < 0 then -n else n;
    NatToStringRoundTrip(m);
    if n >= 0 {
      assert IntToString(n) == NatToString(m);
      assert NatToString(m)[0] in NatToString(m);
    }
  }

  lemma NumValueRoundTrip(n: int, rest: string)
    requires rest != [] && (rest[0] == ',' || rest[0] == '}')
    ensures ParseValue(IntToString(n) + rest) == Some((Num(n), rest))
    ensures IntToString(n) != [] && (IntToString(n)[0] == '-' || IsDigit(IntToString(n)[0]))
  {
    NumberRoundTrip(n, rest);
    NumeralStart(n);
    var s := IntToString(n) + rest;
    var c := IntToString(n)[0];
    assert s[0] == c;
    assert c != 'n' && c != 't' && c != 'f' && c != '"';
  }

  lemma StrValueRoundTrip(x: string, rest: string)
    ensures ParseValue(Quote(x) + rest) == Some((Str(x), rest))
  {
    StringRoundTrip(x, rest);
    assert (Quote(x) + rest)[0] == '"';
  }

  lemma ObjValueRoundTrip(rest: string)
    requires rest != [] && (rest[0] == ',' || rest[0] == '}')
    ensures ParseValue("{}" + rest) == Some((EmptyObject, rest))
  {
    var s := "{}" + rest;
    assert s[1..] == "}" + rest;
    assert SkipSpace(s[1..]) == s[1..];
    assert s[1..][1..] == rest;
  }

  lemma ValueRoundTrip(v: Value, rest: string)
    requires !v.Undefined? && (v.Obj? ==> v == EmptyObject)
    requires rest != [] && (rest[0] == ',' || rest[0] == '}')
    ensures ParseValue(StringifyValue(v) + rest) == Some((v, rest))
    ensures StringifyValue(v) != [] && !IsJsonSpace(StringifyValue(v)[0])
  {
    match v
    case Null =>
      LiteralRoundTrip("null", Null, rest);
      assert (StringifyValue(v) + rest)[0] == 'n';
    case Bool(b) =>
      if b {
        LiteralRoundTrip("true", v, rest);
        assert (StringifyValue(v) + rest)[0] == 't';
      } else {
        LiteralRoundTrip("false", v, rest);
        assert (StringifyValue(v) + rest)[0] == 'f';
      }
    case Num(n) =>
      NumValueRoundTrip(n, rest);
    case Str(x) =>
      StrValueRoundTrip(x, rest);
    case Obj(_, _, _) =>
      ObjValueRoundTrip(rest);
  }

  /** One member followed by `,` or `}` reads back as that property. */
  lemma SkipNoSpace(s: string)
    requires s != [] && !IsJsonSpace(s[0])
    ensures SkipSpace(s) == s
  {
  }

  lemma EntryRoundTrip(k: string, v: Value, tail: string)
    requires !v.Undefined? && (v.Obj? ==> v == EmptyObject)
    requires tail != [] && (tail[0] == ',' || tail[0] == '}')
    ensures ParseMember(Entry(k, v) + tail) == Some(((k, v), tail))
  {
    var x := ":" + StringifyValue(v) + tail;
    assert Entry(k, v) + tail == Quote(k) + x;
    StringRoundTrip(k, x);
    ColonValue(v, tail);
  }

  /** What follows a key: the colon, then the value, then the separator. */
  lemma ColonValue(v: Value, tail: string)
    requires !v.Undefined? && (v.Obj? ==> v == EmptyObject)
    requires tail != [] && (tail[0] == ',' || tail[0] == '}')
    ensures var x := ":" + StringifyValue(v) + tail;
      SkipSpace(x) == x && x[0] == ':' && ParseValue(SkipSpace(x[1..])) == Some((v, tail))
    ensures SkipSpace(tail) == tail
  {
    var x := ":" + StringifyValue(v) + tail;
    var y := StringifyValue(v) + tail;
    SkipNoSpace(x);
    assert x[1..] == y;
    ValueRoundTrip(v, tail);
    assert y[0] == StringifyValue(v)[0];
    SkipNoSpace(y);
    SkipNoSpace(tail);
  }

  lemma LastMember(p: Props, acc: Props, rest: string)
    requires |p| == 1 && Normal(p) && Lookup(acc, p[0].0).None?
    ensures ParseMembers(Members(p) + "}" + rest, acc) == Some((acc + p, rest))
  {
    var k := p[0].0;
    var v := p[0].1;
    assert Members(p) + "}" + rest == Entry(k, v) + ("}" + rest);
    EntryRoundTrip(k, v, "}" + rest);
    assert p == [(k, v)];
  }

  /** The text of several members: the first entry, a comma, and the rest starting with a quote. */
  lemma MembersSplit(p: Props, rest: string)
    requires |p| > 1 && Normal(p)
    ensures var u := Members(p[1..]) + "}" + rest;
      Members(p) + "}" + rest == Entry(p[0].0, p[0].1) + ([','] + u) && u != [] && u[0] == '"'
  {
    var e := Entry(p[0].0, p[0].1);
    var m := Members(p[1..]);
    var u := m + "}" + rest;
    assert Members(p) == e + "," + m;
    Regroup(e, m, rest);
    MembersStart(p[1..]);
    HeadOfAppend(m, "}");
    HeadOfAppend(m + "}", rest);
  }

  lemma Regroup(e: string, m: string, rest: string)
    ensures e + "," + m + "}" + rest == e + ([','] + (m + "}" + rest))
  {
    AppendAssoc(e + "," + m, "}", rest);
    AppendAssoc(e + ",", m, "}" + rest);
    AppendAssoc(e, ",", m + ("}" + rest));
    AppendAssoc(m, "}", rest);
  }

  lemma AppendAssoc(a: string, b: string, c: string)
    ensures a + b + c == a + (b + c)
  {
  }

  lemma HeadOfAppend(a: string, b: string)
    requires a != []
    ensures a + b != [] && (a + b)[0] == a[0]
  {
  }

  lemma MembersStart(q: Props)
    requires q != []
    ensures Members(q) != [] && Members(q)[0] == '"'
  {
    var e := Entry(q[0].0, q[0].1);
    assert e == "\"" + EscapeBody(q[0].0) + "\"" + ":" + StringifyValue(q[0].1);
    assert e[0] == '"';
    if |q| > 1 {
      assert Members(q) == e + "," + Members(q[1..]);
    }
  }

  lemma NextMember(p: Props, acc: Props, rest: string)
    requires |p| > 1 && Normal(p) && Lookup(acc, p[0].0).None?
    ensures ParseMembers(Members(p) + "}" + rest, acc) ==
      ParseMembers(Members(p[1..]) + "}" + rest, acc + [p[0]])
  {
    var u := Members(p[1..]) + "}" + rest;
    var tail := [','] + u;
    MembersSplit(p, rest);
    EntryRoundTrip(p[0].0, p[0].1, tail);
    assert tail[1..] == u;
    SkipNoSpace(u);
    assert Put(acc, p[0].0, p[0].1) == acc + [p[0]];
  }

  lemma {:induction false} MembersRoundTrip(p: Props, acc: Props, rest: string)
    requires p != [] && Normal(p) && UniqueKeys(acc + p)
    ensures ParseMembers(Members(p) + "}" + rest, acc) == Some((acc + p, rest))
    decreases |p|
  {
    UniqueSplit(acc, p);
    if |p| == 1 {
      LastMember(p, acc, rest);
    } else {
      var q := p[1..];
      NextMember(p, acc, rest);
      assert Normal(q) by {
        forall i | 0 <= i < |q| ensures q[i] == p[i + 1] { }
      }
      assert acc + [p[0]] + q == acc + p;
      MembersRoundTrip(q, acc + [p[0]], rest);
    }
  }

  lemma {:induction false} NormalizeShape(p: Props)
    ensures Normal(Normalize(p))
    ensures forall k :: Lookup(p, k).None? ==> Lookup(Normalize(p), k).None?
    ensures UniqueKeys(p) ==> UniqueKeys(Normalize(p))
  {
    if p != [] {
      NormalizeShape(p[1..]);
      var n := Normalize(p[1..]);
      assert Normalize(p) == n || Normalize(p)[1..] == n;
    }
  }

  /**
   * Writing an object with `JSON.stringify` and reading the text back with
   * `JSON.parse` gives the same properties in the same order, less those
   * whose value is `undefined`, with object values read back as `{}`.
   */
  lemma ParseStringify(p: Props)
    requires UniqueKeys(p)
    ensures Parse(Stringify(p)) == Some(Normalize(p))
  {
    var q := Normalize(p);
    NormalizeShape(p);
    var body := Members(q) + "}";
    var s := ['{'] + body;
    assert Stringify(p) == s;
    assert s[0] == '{' && s[1..] == body;
    SkipNoSpace(s);
    if q == [] {
      assert body == "}" && body[1..] == [];
    } else {
      MembersBody(q);
    }
  }

  /** The text after the opening brace of a non-empty object reads back as its members. */
  lemma MembersBody(q: Props)
    requires q != [] && Normal(q) && UniqueKeys(q)
    ensures var body := Members(q) + "}";
      SkipSpace(body) == body && body[0] != '}' && ParseMembers(body, []) == Some((q, ""))
  {
    var body := Members(q) + "}";
    assert body[0] == Members(q)[0] == '"';
    SkipNoSpace(body);
    assert [] + q == q;
    assert body == Members(q) + "}" + "";
    MembersRoundTrip(q, [], "");
  }

  /** Parsing yields a proper object: no key twice. */
  lemma {:induction false} ParseMembersUnique(s: string, acc: Props)
    requires UniqueKeys(acc)
    ensures ParseMembers(s, acc).Some? ==> UniqueKeys(ParseMembers(s, acc).value.0)
    decreases |s|
  {
    var m := ParseMember(s);
    if m.Some? {
      var after := m.value.1;
      if after != [] && after[0] == ',' {
        ParseMembersUnique(SkipSpace(after[1..]), Put(acc, m.value.0.0, m.value.0.1));
      }
    }
  }

  lemma ParseUnique(text: string)
    ensures Parse(text).Some? ==> UniqueKeys(Parse(text).value)
  {
    var s := SkipSpace(text);
    if s != [] && s[0] == '{' {
      ParseMembersUnique(SkipSpace(s[1..]), []);
    }
  }

  /** Properties already in normal form survive a JSON trip untouched. */
  lemma {:induction false} NormalizeNormal(p: Props)
    requires Normal(p)
    ensures Normalize(p) == p
  {
    if p != [] {
      assert Normal(p[1..]) by {
        forall i | 0 <= i < |p| - 1 ensures p[1..][i] == p[i + 1] { }
      }
      NormalizeNormal(p[1..]);
      assert [p[0]] + p[1..] == p;
    }
  }

  lemma {:induction false} PutNormal(p: Props, k: string, v: Value)
    requires Normal(p) && !v.Undefined? && (v.Obj? ==> v == EmptyObject)
    ensures Normal(Put(p, k, v))
  {
    if p != [] && p[0].0 != k {
      assert Normal(p[1..]) by {
        forall i | 0 <= i < |p| - 1 ensures p[1..][i] == p[i + 1] { }
      }
      PutNormal(p[1..], k, v);
    }
  }

  lemma ParseValueNormal(s: string)
    ensures ParseValue(s).Some? ==>
      var v := ParseValue(s).value.0; !v.Undefined? && (v.Obj? ==> v == EmptyObject)
  {
  }

  lemma {:induction false} ParseMembersNormal(s: string, acc: Props)
    requires Normal(acc)
    ensures ParseMembers(s, acc).Some? ==> Normal(ParseMembers(s, acc).value.0)
    decreases |s|
  {
    var m := ParseMember(s);
    if m.Some? {
      var key := StringLiteral(s);
      var afterKey := SkipSpace(key.value.1);
      ParseValueNormal(SkipSpace(afterKey[1..]));
      PutNormal(acc, m.value.0.0, m.value.0.1);
      var after := m.value.1;
      if after != [] && after[0] == ',' {
        ParseMembersNormal(SkipSpace(after[1..]), Put(acc, m.value.0.0, m.value.0.1));
      }
    }
  }

  /** What `JSON.parse` reads back is in normal form: a trip through JSON changes it no further. */
  lemma ParseNormal(text: string)
    ensures Parse(text).Some? ==> Normal(Parse(text).value) && Normalize(Parse(text).value) == Parse(text).value
  {
    var s := SkipSpace(text);
    if s != [] && s[0] == '{' {
      ParseMembersNormal(SkipSpace(s[1..]), []);
    }
    if Parse(text).Some? {
      NormalizeNormal(Parse(text).value);
    }
  }
}
