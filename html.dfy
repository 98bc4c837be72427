/**
 * `escapeHtml` and `escapeAttr`, written identically in the shop,
 * matchday, gallery and legends scripts: five `replaceAll` calls,
 * ampersand first.
 */
module Html {
  import opened JsValues

  /** `s.replaceAll(c, rep)` for a one-character pattern. */
  function ReplaceAll(s: string, c: char, rep: string): (r: string)
    ensures c !in rep ==> c !in r
    decreases |s|
  {
    if s == [] then "" else (if s[0] == c then rep else [s[0]]) + ReplaceAll(s[1..], c, rep)
  }

  /** The chain of replacements as the scripts write it. */
  function EscapeText(s: string): string {
    ReplaceAll(ReplaceAll(ReplaceAll(ReplaceAll(ReplaceAll(s, '&', "&amp;"), '<', "&lt;"), '>', "&gt;"),
      '"', "&quot;"), '\'', "&#039;")
  }

  /** `escapeHtml(v)`: `String(v ?? "")`, then the replacements; `None` when `String` throws. */
  function EscapeHtml(v: Value): Option<string> {
    var t := ToStr(Coalesce(v, Str("")));
    if t.Some? then Some(EscapeText(t.value)) else None
  }

  /** `escapeAttr(v)`: `escapeHtml(v)` with its double quotes replaced once more. */
  function EscapeAttr(v: Value): Option<string> {
    var h := EscapeHtml(v);
    if h.Some? then Some(ReplaceAll(h.value, '"', "&quot;")) else None
  }

  /** The entity one character becomes; other characters stay. */
  function Entity(c: char): string {
    if c == '&' then "&amp;"
    else if c == '<' then "&lt;"
    else if c == '>' then "&gt;"
    else if c == '"' then "&quot;"
    else if c == '\'' then "&#039;"
    else [c]
  }

  /** The escape read one character at a time. */
  function EscapeMap(s: string): string
    decreases |s|
  {
    if s == [] then "" else Entity(s[0]) + EscapeMap(s[1..])
  }

  predicate Special(c: char) {
    c == '&' || c == '<' || c == '>' || c == '"' || c == '\''
  }

  /** Decoding of the five entities, the partner of the escape. */
  function Unescape(s: string): string
    decreases |s|
  {
    if |s| >= 5 && s[..5] == "&amp;" then "&" + Unescape(s[5..])
    else if |s| >= 4 && s[..4] == "&lt;" then "<" + Unescape(s[4..])
    else if |s| >= 4 && s[..4] == "&gt;" then ">" + Unescape(s[4..])
    else if |s| >= 6 && s[..6] == "&quot;" then "\"" + Unescape(s[6..])
    else if |s| >= 6 && s[..6] == "&#039;" then "'" + Unescape(s[6..])
    else if s == [] then ""
    else [s[0]] + Unescape(s[1..])
  }

  lemma {:induction false} ReplaceAllAppend(a: string, b: string, c: char, rep: string)
    ensures ReplaceAll(a + b, c, rep) == ReplaceAll(a, c, rep) + ReplaceAll(b, c, rep)
    decreases |a|
  {
    if a == [] {
      assert a + b == b;
    } else {
      assert (a + b)[0] == a[0];
      assert (a + b)[1..] == a[1..] + b;
      ReplaceAllAppend(a[1..], b, c, rep);
    }
  }

  lemma EscapeTextAppend(a: string, b: string)
    ensures EscapeText(a + b) == EscapeText(a) + EscapeText(b)
  {
    var s1a := ReplaceAll(a, '&', "&amp;");
    var s1b := ReplaceAll(b, '&', "&amp;");
    ReplaceAllAppend(a, b, '&', "&amp;");
    var s2a := ReplaceAll(s1a, '<', "&lt;");
    var s2b := ReplaceAll(s1b, '<', "&lt;");
    ReplaceAllAppend(s1a, s1b, '<', "&lt;");
    var s3a := ReplaceAll(s2a, '>', "&gt;");
    var s3b := ReplaceAll(s2b, '>', "&gt;");
    ReplaceAllAppend(s2a, s2b, '>', "&gt;");
    var s4a := ReplaceAll(s3a, '"', "&quot;");
    var s4b := ReplaceAll(s3b, '"', "&quot;");
    ReplaceAllAppend(s3a, s3b, '"', "&quot;");
    ReplaceAllAppend(s4a, s4b, '\'', "&#039;");
  }

  lemma ReplaceAllOne(d: char, c: char, rep: string)
    ensures ReplaceAll([d], c, rep) == if d == c then rep else [d]
  {
    assert [d][1..] == [];
  }

  /**
   * One step of the chain on one character `c`, before or after its own
   * step: the step for `d` turns `[c]` into the entity when `c == d`, and
   * finds nothing to replace otherwise, since no entity holds `<`, `>`,
   * `"` or `'` and the ampersand step runs first.
   */
  lemma ChainStep(t: string, c: char, d: char)
    requires Special(d) && (t == [c] || t == Entity(c)) && (d == '&' ==> t == [c])
    ensures ReplaceAll(t, d, Entity(d)) == if t == [c] && c == d then Entity(c) else t
  {
    if t == [c] {
      ReplaceAllOne(c, d, Entity(d));
    } else {
      ReplaceAllAbsent(t, d, Entity(d));
    }
  }

  /** Each character goes through the chain as through `Entity`. */
  lemma EscapeTextChar(c: char)
    ensures EscapeText([c]) == Entity(c)
  {
    var t0: string := [c];
    ChainStep(t0, c, '&');
    var t1 := ReplaceAll(t0, '&', "&amp;");
    ChainStep(t1, c, '<');
    var t2 := ReplaceAll(t1, '<', "&lt;");
    ChainStep(t2, c, '>');
    var t3 := ReplaceAll(t2, '>', "&gt;");
    ChainStep(t3, c, '"');
    var t4 := ReplaceAll(t3, '"', "&quot;");
    ChainStep(t4, c, '\'');
  }

  /**
   * Replacing the ampersand first makes the chain a one-pass escape: no
   * entity written by a later replacement gets its ampersand escaped again.
   */
  lemma {:induction false} EscapeTextIsMap(s: string)
    ensures EscapeText(s) == EscapeMap(s)
    decreases |s|
  {
    if s != [] {
      assert s == [s[0]] + s[1..];
      EscapeTextAppend([s[0]], s[1..]);
      EscapeTextChar(s[0]);
      EscapeTextIsMap(s[1..]);
    } else {
      assert EscapeText(s) == "";
    }
  }

  lemma {:induction false} EscapeMapSafe(s: string)
    ensures forall i :: 0 <= i < |EscapeMap(s)| && EscapeMap(s)[i] != '&' ==> !Special(EscapeMap(s)[i])
    decreases |s|
  {
    if s != [] {
      EscapeMapSafe(s[1..]);
      var e := Entity(s[0]);
      var r := EscapeMap(s[1..]);
      forall i | 0 <= i < |e + r| && (e + r)[i] != '&'
        ensures !Special((e + r)[i])
      {
        if i >= |e| {
          assert (e + r)[i] == r[i - |e|];
        }
      }
    }
  }

  lemma UnescapeAmp(rest: string)
    ensures Unescape("&amp;" + rest) == "&" + Unescape(rest)
  {
    var t := "&amp;" + rest;
    assert t[..5] == "&amp;" && t[5..] == rest;
  }

  /**
   * Decoding reads one of the four entities after `&amp;` back as its
   * character: the second character of each rules out the ones tried
   * before it.
   */
  lemma UnescapeNamed(c: char, rest: string)
    requires c == '<' || c == '>' || c == '"' || c == '\''
    ensures Unescape(Entity(c) + rest) == [c] + Unescape(rest)
  {
    var e := Entity(c);
    var t := e + rest;
    assert t[1] == e[1];
    assert t[..|e|] == e && t[|e|..] == rest;
  }

  lemma UnescapePlain(c: char, rest: string)
    requires c != '&'
    ensures Unescape([c] + rest) == [c] + Unescape(rest)
  {
    var t := [c] + rest;
    assert t[0] == c && t[1..] == rest;
  }

  /** Decoding reads an entity, or a character that starts none, back as its character. */
  lemma UnescapeEntity(c: char, rest: string)
    ensures Unescape(Entity(c) + rest) == [c] + Unescape(rest)
  {
    if c == '&' {
      UnescapeAmp(rest);
    } else if c == '<' || c == '>' || c == '"' || c == '\'' {
      UnescapeNamed(c, rest);
    } else {
      UnescapePlain(c, rest);
    }
  }

  lemma {:induction false} UnescapeEscapeMap(s: string)
    ensures Unescape(EscapeMap(s)) == s
    decreases |s|
  {
    if s != [] {
      UnescapeEntity(s[0], EscapeMap(s[1..]));
      UnescapeEscapeMap(s[1..]);
    }
  }

  /**
   * Escaped text holds no `<`, `>`, `"` or `'`, every ampersand it holds
   * belongs to an entity, and decoding the entities gives the text back.
   */
  lemma EscapeTextLaws(s: string)
    ensures '<' !in EscapeText(s) && '>' !in EscapeText(s)
    ensures '"' !in EscapeText(s) && '\'' !in EscapeText(s)
    ensures Unescape(EscapeText(s)) == s
  {
    EscapeTextIsMap(s);
    EscapeMapSafe(s);
    UnescapeEscapeMap(s);
  }

  lemma {:induction false} ReplaceAllAbsent(s: string, c: char, rep: string)
    requires c !in s
    ensures ReplaceAll(s, c, rep) == s
    decreases |s|
  {
    if s != [] {
      ReplaceAllAbsent(s[1..], c, rep);
    }
  }

  /**
   * The second quote replacement in `escapeAttr` finds nothing left to
   * replace, so attribute and text escaping agree; `null` and `undefined`
   * escape to the empty string.
   */
  lemma EscapeAttrIsEscapeHtml(v: Value)
    ensures EscapeAttr(v) == EscapeHtml(v)
    ensures v == Null || v == Undefined ==> EscapeHtml(v) == Some("")
  {
    var h := EscapeHtml(v);
    if h.Some? {
      EscapeTextLaws(ToStr(Coalesce(v, Str(""))).value);
      ReplaceAllAbsent(h.value, '"', "&quot;");
    }
  }
}
