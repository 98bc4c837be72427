/**
 * The form checks the shop checkout and the contact form share: required
 * fields must not be blank after trimming, a non-blank e-mail must match
 * `^[^@\s]+@[^@\s]+\.[^@\s]+$`, and (checkout only) a card number must
 * hold at least 12 digits. Each check writes the checked element's
 * `aria-invalid` flag, in document order: required fields, then the
 * e-mail element, then the card element, so a later check overwrites an
 * earlier one on the same element.
 */
module Forms {
  import opened JsValues

  // ------------------------------------------------------------------
  // The field predicates
  // ------------------------------------------------------------------

  /** Neither `@` nor white space: the class `[^@\s]`. */
  predicate NoAtSpace(s: string) {
    forall i :: 0 <= i < |s| ==> s[i] != '@' && !IsSpace(s[i])
  }

  /** `[^@\s]+\.[^@\s]+`: a host with a dot somewhere strictly inside it. */
  predicate DottedHost(d: string) {
    NoAtSpace(d) && exists j :: 0 < j < |d| - 1 && d[j] == '.'
  }

  /** The e-mail regular expression. */
  predicate EmailPattern(v: string) {
    exists a :: 0 < a < |v| && v[a] == '@' && NoAtSpace(v[..a]) && DottedHost(v[a + 1..])
  }

  /** The e-mail check flags a value that is non-blank and does not match. */
  predicate EmailBad(v: string) {
    !Blank(v) && !EmailPattern(Trim(v))
  }

  /** `value.replace(/\D/g, "")` */
  function Digits(s: string): (r: string)
    ensures AllDigits(r) && |r| <= |s|
  {
    if s == [] then "" else (if IsDigit(s[0]) then [s[0]] else "") + Digits(s[1..])
  }

  /** The card check flags fewer than 12 digits. */
  predicate CardBad(v: string) {
    |Digits(v)| < 12
  }

  /**
   * The regular expression in words: exactly one `@`, with something
   * before it, no white space anywhere, and a dot in the part after the
   * `@` that is neither its first nor its last character.
   */
  lemma EmailPatternMeaning(v: string, a: nat)
    requires a < |v| && v[a] == '@'
    ensures EmailPattern(v) <==> EmailInWords(v, a)
  {
    if EmailPattern(v) {
      PatternInWords(v, a);
    }
    if EmailInWords(v, a) {
      WordsMatchPattern(v, a);
    }
  }

  /** The pattern in words, for a value with an `@` at `a`. */
  predicate EmailInWords(v: string, a: nat)
    requires a < |v|
  {
    0 < a && (forall i :: 0 <= i < |v| && i != a ==> v[i] != '@')
    && (forall i :: 0 <= i < |v| ==> !IsSpace(v[i]))
    && (exists j :: a + 1 < j < |v| - 1 && v[j] == '.')
  }

  lemma PatternInWords(v: string, a: nat)
    requires a < |v| && v[a] == '@' && EmailPattern(v)
    ensures EmailInWords(v, a)
  {
    var host := v[a + 1..];
    var b :| 0 < b < |v| && v[b] == '@' && NoAtSpace(v[..b]) && DottedHost(v[b + 1..]);
    OneAt(v, a, b);
    forall i | 0 <= i < |v| && i != a ensures v[i] != '@' && !IsSpace(v[i]) {
      if i < a { assert v[i] == v[..a][i]; } else { assert v[i] == host[i - a - 1]; }
    }
    var j :| 0 < j < |host| - 1 && host[j] == '.';
    assert v[a + 1 + j] == '.';
  }

  /** The class `[^@\s]` on both sides of an `@` leaves no room for a second one. */
  lemma OneAt(v: string, a: nat, b: nat)
    requires a < |v| && b < |v| && v[a] == '@' && v[b] == '@'
    requires NoAtSpace(v[..b]) && NoAtSpace(v[b + 1..])
    ensures a == b
  {
  }

  lemma WordsMatchPattern(v: string, a: nat)
    requires a < |v| && v[a] == '@' && EmailInWords(v, a)
    ensures EmailPattern(v)
  {
    var host := v[a + 1..];
    var j :| a + 1 < j < |v| - 1 && v[j] == '.';
    assert host[j - a - 1] == '.';
    forall i | 0 <= i < a ensures v[..a][i] != '@' && !IsSpace(v[..a][i]) {
      assert v[..a][i] == v[i];
    }
    forall i | 0 <= i < |host| ensures host[i] != '@' && !IsSpace(host[i]) {
      assert host[i] == v[a + 1 + i];
    }
    assert DottedHost(host);
  }

  /** A value without an `@` never matches. */
  lemma NoAtNoMatch(v: string)
    requires forall i :: 0 <= i < |v| ==> v[i] != '@'
    ensures !EmailPattern(v)
  {
  }

  /** Stripping the non-digits leaves a digit string alone, so stripping twice is stripping once. */
  lemma {:induction false} DigitsKeep(s: string)
    ensures AllDigits(s) ==> Digits(s) == s
    ensures Digits(Digits(s)) == Digits(s)
    decreases |s|
  {
    if s != [] {
      DigitsKeep(s[1..]);
      DigitsOfDigits(Digits(s[1..]));
      if IsDigit(s[0]) {
        assert [s[0]] + Digits(s[1..]) == Digits(s);
        DigitsOfDigits(Digits(s));
      } else {
        DigitsOfDigits(Digits(s));
      }
    }
  }

  lemma {:induction false} DigitsOfDigits(s: string)
    requires AllDigits(s)
    ensures Digits(s) == s
    decreases |s|
  {
    if s != [] {
      DigitsOfDigits(s[1..]);
    }
  }

  // ------------------------------------------------------------------
  // The flags a validation pass leaves
  // ------------------------------------------------------------------

  /** Where the checked elements sit among the form's elements. */
  datatype Layout = Layout(required: seq<bool>, email: Option<nat>, card: Option<nat>)

  predicate Fits(l: Layout, n: nat) {
    |l.required| == n && (l.email.Some? ==> l.email.value < n) && (l.card.Some? ==> l.card.value < n)
  }

  /** `aria-invalid` of every element after the pass; `None` when never set. */
  function FlagsAfter(values: seq<string>, l: Layout, checkCard: bool, prev: seq<Option<bool>>): (r: seq<Option<bool>>)
    requires Fits(l, |values|) && |prev| == |values|
    ensures |r| == |values|
  {
    var req := seq(|values|, i requires 0 <= i < |values| =>
      if l.required[i] then Some(Blank(values[i])) else prev[i]);
    var withEmail := if l.email.Some? then req[l.email.value := Some(EmailBad(values[l.email.value]))] else req;
    if checkCard && l.card.Some? then withEmail[l.card.value := Some(CardBad(values[l.card.value]))] else withEmail
  }

  /** What `validate` returns: every check passed. */
  predicate Verdict(values: seq<string>, l: Layout, checkCard: bool)
    requires Fits(l, |values|)
  {
    (forall i :: 0 <= i < |values| && l.required[i] ==> !Blank(values[i]))
    && (l.email.Some? ==> !EmailBad(values[l.email.value]))
    && (checkCard && l.card.Some? ==> !CardBad(values[l.card.value]))
  }

  /**
   * Each element is flagged by the last check that reaches it: a plain
   * required field is flagged exactly when blank, and an element no check
   * reaches keeps its flag. A passing form leaves no element flagged.
   */
  lemma FlagsMeaning(values: seq<string>, l: Layout, checkCard: bool, prev: seq<Option<bool>>)
    requires Fits(l, |values|) && |prev| == |values|
    ensures var r := FlagsAfter(values, l, checkCard, prev);
      forall i :: 0 <= i < |values| && Some(i) != l.email && !(checkCard && Some(i) == l.card) ==>
        r[i] == if l.required[i] then Some(Blank(values[i])) else prev[i]
    ensures var r := FlagsAfter(values, l, checkCard, prev);
      l.email.Some? && !(checkCard && l.card == l.email) ==> r[l.email.value] == Some(EmailBad(values[l.email.value]))
    ensures Verdict(values, l, checkCard) ==>
      forall i :: 0 <= i < |values| && FlagsAfter(values, l, checkCard, prev)[i] != prev[i] ==>
        FlagsAfter(values, l, checkCard, prev)[i] == Some(false)
  {
  }

  /**
   * When the e-mail element is also a required field and left blank, the
   * form is refused, but the e-mail check, running second, clears the flag
   * the required check had set: the refusal highlights nothing there.
   */
  lemma BlankRequiredEmailUnflagged(values: seq<string>, l: Layout, prev: seq<Option<bool>>)
    requires Fits(l, |values|) && |prev| == |values|
    requires l.email.Some? && l.required[l.email.value] && Blank(values[l.email.value])
    requires l.card != l.email
    ensures !Verdict(values, l, true) && !Verdict(values, l, false)
    ensures FlagsAfter(values, l, true, prev)[l.email.value] == Some(false)
    ensures FlagsAfter(values, l, false, prev)[l.email.value] == Some(false)
  {
  }

  // ------------------------------------------------------------------
  // The form
  // ------------------------------------------------------------------

  /** A form's elements: their values and `aria-invalid` flags, in document order. */
  class Form {
    const values: array<string>
    const flags: array<Option<bool>>
    const layout: Layout
    /** The values the markup gives, which `form.reset()` restores. */
    const defaults: seq<string>

    ghost predicate Valid()
      reads this
    {
      values as object != flags && flags.Length == values.Length && |defaults| == values.Length
      && Fits(layout, values.Length)
    }

    constructor (vs: seq<string>, l: Layout)
      requires Fits(l, |vs|)
      ensures Valid() && values[..] == vs && defaults == vs && layout == l
      ensures fresh(values) && fresh(flags) && forall i :: 0 <= i < flags.Length ==> flags[i].None?
    {
      values := new string[|vs|](i requires 0 <= i < |vs| => vs[i]);
      flags := new Option<bool>[|vs|](_ => None);
      layout := l;
      defaults := vs;
    }

    /** `form.reset()`: every element gets its default value back; `aria-invalid` flags stay. */
    method Reset()
      requires Valid()
      modifies values
      ensures values[..] == defaults
    {
      var i := 0;
      while i < values.Length
        invariant 0 <= i <= values.Length
        invariant forall k :: 0 <= k < i ==> values[k] == defaults[k]
      {
        values[i] := defaults[i];
        i := i + 1;
      }
    }

    /** `validate(form)`; `checkCard` is whether the card element is checked too. */
    method Validate(checkCard: bool) returns (ok: bool)
      requires Valid()
      modifies flags
      ensures ok == Verdict(values[..], layout, checkCard)
      ensures flags[..] == FlagsAfter(values[..], layout, checkCard, old(flags[..]))
    {
      ghost var prev := flags[..];
      ghost var vs := values[..];
      ok := true;
      var i := 0;
      while i < values.Length
        invariant 0 <= i <= values.Length
        invariant forall k :: 0 <= k < i ==> flags[k] == if layout.required[k] then Some(Blank(vs[k])) else prev[k]
        invariant forall k :: i <= k < flags.Length ==> flags[k] == prev[k]
        invariant ok == forall k :: 0 <= k < i && layout.required[k] ==> !Blank(vs[k])
      {
        if layout.required[i] {
          var bad := Blank(values[i]);
          flags[i] := Some(bad);
          ok := ok && !bad;
        }
        i := i + 1;
      }
      ghost var req := seq(|vs|, k requires 0 <= k < |vs| =>
        if layout.required[k] then Some(Blank(vs[k])) else prev[k]);
      assert flags[..] == req;
      if layout.email.Some? {
        var bad := EmailBad(values[layout.email.value]);
        flags[layout.email.value] := Some(bad);
        ok := ok && !bad;
      }
      if checkCard && layout.card.Some? {
        var bad := CardBad(values[layout.card.value]);
        flags[layout.card.value] := Some(bad);
        ok := ok && !bad;
      }
    }

    /** Typing into element `i`: a required element is re-flagged, blank or not; others keep their flag. */
    method Input(i: nat, v: string)
      requires Valid() && i < values.Length
      modifies values, flags
      ensures values[..] == old(values[..])[i := v]
      ensures flags[..] == if layout.required[i] then old(flags[..])[i := Some(Blank(v))] else old(flags[..])
    {
      values[i] := v;
      if layout.required[i] {
        flags[i] := Some(Blank(v));
      }
    }
  }
}
