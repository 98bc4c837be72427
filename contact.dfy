/**
 * The contact form: validation of the required fields and the e-mail
 * field, the submit decision and the tracepoint a valid submission sends,
 * and the validation that runs as the user types.
 */
module Contact {
  import opened JsValues
  import Forms
  import Rum
  import Json

  /** The tag `boot()` sends first, naming the page group "About/Contact". */
  const BootTag: seq<Value> := [Str("pageGroup"), Str("About/Contact")]

  /** The boot tag makes "About/Contact" the page group and keeps logging and the tracepoints. */
  lemma BootTagged(r: Rum.Rec)
    ensures Rum.Dispatch(r, BootTag).rec.settings == r.settings.(pageGroup := "About/Contact")
  {
    Rum.PageGroupTagged(r, "About/Contact");
  }

  /** `validate()`: no form on the page is a failed validation. */
  method Validate(form: Forms.Form?) returns (ok: bool)
    requires form != null ==> form.Valid()
    modifies if form != null then {form.flags} else {}
    ensures form == null ==> !ok
    ensures form != null ==> (ok == Forms.Verdict(form.values[..], form.layout, false)
      && form.flags[..] == Forms.FlagsAfter(form.values[..], form.layout, false, old(form.flags[..])))
  {
    if form == null {
      return false;
    }
    ok := form.Validate(false);
  }

  /** The value of the tracepoint a submission sends, from the form's `reason` entry. */
  function SubmitValue(reason: Option<string>): (r: string)
    ensures IsPrefix("submit:", r)
    ensures reason.Some? && reason.value != "" ==> r[7..] == reason.value
    ensures reason.None? || reason.value == "" ==> r[7..] == "unknown"
  {
    "submit:" + if reason.Some? && reason.value != "" then reason.value else "unknown"
  }

  /**
   * `data.reason` of `Object.fromEntries(new FormData(form))`: the value of
   * the element at position `at`, `undefined` when the form has no element
   * named `reason`.
   */
  function ReasonEntry(values: seq<string>, at: Option<nat>): (r: Option<string>)
    ensures r.Some? <==> at.Some? && at.value < |values|
    ensures r.Some? ==> r.value == values[at.value]
  {
    if at.Some? && at.value < |values| then Some(values[at.value]) else None
  }

  /** The argument list of `cpRumTag("tracepoint", "contact", ...)`. */
  function SubmitTag(reason: Option<string>): seq<Value> {
    [Str("tracepoint"), Str("contact"), Str(SubmitValue(reason))]
  }

  /**
   * The `submit` handler: an invalid form sends nothing and keeps its
   * values; a valid one sends one tracepoint, `contact`, naming the reason
   * chosen in the form's `reason` element (at position `reasonAt`), and the
   * form is then reset to its default values.
   */
  method Submit(form: Forms.Form?, reasonAt: Option<nat>) returns (tag: Option<seq<Value>>)
    requires form != null ==> form.Valid()
    modifies if form != null then {form.flags, form.values} else {}
    ensures form == null ==> tag.None?
    ensures form != null ==>
      ((tag.Some? <==> Forms.Verdict(old(form.values[..]), form.layout, false))
      && form.flags[..] == Forms.FlagsAfter(old(form.values[..]), form.layout, false, old(form.flags[..]))
      && form.values[..] == if tag.Some? then form.defaults else old(form.values[..]))
    ensures tag.Some? ==> form != null && tag.value == SubmitTag(ReasonEntry(old(form.values[..]), reasonAt))
  {
    var ok := Validate(form);
    if !ok {
      return None;
    }
    tag := Some(SubmitTag(ReasonEntry(form.values[..], reasonAt)));
    form.Reset();
  }

  /**
   * What the tracepoint does to the observability record: key `contact`
   * now holds the submit value and no other setting changes.
   */
  lemma SubmitTagRecorded(r: Rum.Rec, reason: Option<string>)
    requires Json.UniqueKeys(r.settings.tracepoints)
    ensures var next := Rum.Dispatch(r, SubmitTag(reason)).rec;
      Json.Lookup(next.settings.tracepoints, "contact") == Some(Str(SubmitValue(reason)))
      && (forall k :: k != "contact" ==>
        Json.Lookup(next.settings.tracepoints, k) == Json.Lookup(r.settings.tracepoints, k))
      && next.settings.logging == r.settings.logging && next.settings.pageGroup == r.settings.pageGroup
  {
    TrimUnspaced("contact");
    Rum.TracepointRecorded(r, "contact", Str(SubmitValue(reason)));
  }
}
