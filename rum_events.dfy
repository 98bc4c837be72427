/**
 * The records the RUM layer builds from browser events: `safeText`, the
 * duration band, and the error, rejection, fetch and XHR records that
 * overwrite the `lastError` and `lastNetwork` slots.
 */
module RumEvents {
  import opened JsValues

  // ------------------------------------------------------------------
  // safeText
  // ------------------------------------------------------------------

  /** The characters U+0000 to U+001F. */
  predicate IsControl(c: char) {
    c <= '\U{001F}'
  }

  predicate NoControl(s: string) {
    forall i :: 0 <= i < |s| ==> !IsControl(s[i])
  }

  /** `s.replace(/[\u0000-\u001f]/g, "")` */
  function StripControl(s: string): (r: string)
    ensures NoControl(r) && |r| <= |s|
  {
    if s == [] then ""
    else if IsControl(s[0]) then StripControl(s[1..])
    else [s[0]] + StripControl(s[1..])
  }

  /** `safeText(v)`: `String(v ?? "")` without control characters; `None` when `String` throws. */
  function SafeText(v: Value): Option<string> {
    var s := ToStr(Coalesce(v, Str("")));
    if s.None? then None else Some(StripControl(s.value))
  }

  /** Helper for the laws below: stripping works piecewise, every other character kept in order. */
  lemma {:induction false} StripControlAppend(a: string, b: string)
    ensures StripControl(a + b) == StripControl(a) + StripControl(b)
  {
    if a != [] {
      assert (a + b)[0] == a[0];
      assert (a + b)[1..] == a[1..] + b;
      StripControlAppend(a[1..], b);
    } else {
      assert a + b == b;
    }
  }

  /** A string without control characters passes unchanged; hence stripping is idempotent. */
  lemma {:induction false} StripControlKeeps(s: string)
    requires NoControl(s)
    ensures StripControl(s) == s
  {
    if s != [] {
      assert !IsControl(s[0]);
      assert NoControl(s[1..]) by {
        forall i | 0 <= i < |s| - 1 ensures !IsControl(s[1..][i]) {
          assert s[1..][i] == s[i + 1];
        }
      }
      StripControlKeeps(s[1..]);
    }
  }

  /** Helper for the laws below: a control character is dropped and nothing else is. */
  lemma StripControlOne(c: char)
    ensures StripControl([c]) == if IsControl(c) then "" else [c]
  {
    assert [c][1..] == "";
  }

  /** `safeText` of null or undefined is empty, and applying it twice changes nothing more. */
  lemma SafeTextLaws(v: Value)
    ensures SafeText(Undefined) == Some("") && SafeText(Null) == Some("")
    ensures SafeText(v).Some? ==> SafeText(Str(SafeText(v).value)) == SafeText(v)
  {
    SafeTextNullish();
    if SafeText(v).Some? {
      PlainText(SafeText(v).value);
    }
  }

  lemma SafeTextNullish()
    ensures SafeText(Undefined) == Some("") && SafeText(Null) == Some("") && SafeText(Str("")) == Some("")
  {
    assert StripControl("") == "";
  }

  // ------------------------------------------------------------------
  // formatDuration
  // ------------------------------------------------------------------

  /** A JavaScript number: finite (as an exact real), NaN or an infinity. */
  datatype JsNumber = Finite(x: real) | NaN | Infinity(negative: bool)

  /**
   * How a duration is shown: a dash, two decimals, one decimal or whole
   * milliseconds. The digits `toFixed` prints are not modelled.
   */
  datatype DurationText = Dash | TwoDecimals(x: real) | OneDecimal(x: real) | Whole(n: int)

  /** `Math.round`: halves round up. */
  function Round(x: real): int {
    (x + 0.5).Floor
  }

  /** `formatDuration(ms)` */
  function FormatDuration(n: JsNumber): DurationText {
    match n
    case Finite(x) =>
      if x < 1.0 then TwoDecimals(x) else if x < 100.0 then OneDecimal(x) else Whole(Round(x))
    case _ => Dash
  }

  /** The rank of a band, coarser bands ranking higher. */
  function Band(t: DurationText): nat {
    match t
    case TwoDecimals(_) => 0
    case OneDecimal(_) => 1
    case Whole(_) => 2
    case Dash => 3
  }

  /**
   * Larger durations never get a finer band; whole milliseconds are shown
   * from 100 on, rounded to the nearest, and never below 100.
   */
  lemma FormatDurationBands(x: real, y: real)
    requires x <= y
    ensures Band(FormatDuration(Finite(x))) <= Band(FormatDuration(Finite(y)))
    ensures FormatDuration(Finite(x)).Whole? ==>
      var n := FormatDuration(Finite(x)).n; n >= 100 && x - 0.5 < n as real <= x + 0.5
    ensures !FormatDuration(Finite(x)).Whole? ==> FormatDuration(Finite(x)) != Dash
  {
  }

  // ------------------------------------------------------------------
  // Error and rejection records
  // ------------------------------------------------------------------

  /** The element an error event targets: its tag name and URL attributes. */
  datatype Target = Target(tagName: Value, src: Value, href: Value)

  /** The fields of a window `error` event the listener reads. */
  datatype ErrorEvent = ErrorEvent(
    error: Value, message: Value, filename: Value,
    lineno: Value, colno: Value, target: Option<Target>)

  datatype ErrorRecord =
    | ScriptError(message: string, filename: string, lineno: Value, colno: Value, stack: string)
    | Rejection(message: string, stack: string)

  predicate IsResourceTag(tag: string) {
    tag == "img" || tag == "script" || tag == "link"
  }

  function ResourceMessage(tag: string): string {
    "Resource error: <" + tag + "> failed to load"
  }

  /**
   * The message and file name after the resource-error rule: an event
   * without a message whose target is an `img`, `script` or `link` element
   * reports that element's URL. `None` when `String(tagName)` throws.
   */
  function ResourceRule(message: Value, filename: Value, target: Option<Target>): Option<(Value, Value)> {
    if !Truthy(message) && target.Some? && Truthy(target.value.tagName) then
      var tagText := ToStr(target.value.tagName);
      if tagText.None? then None
      else
        var tag := Lower(tagText.value);
        var url := Or(Or(target.value.src, target.value.href), Str(""));
        if IsResourceTag(tag) then Some((Str(ResourceMessage(tag)), url)) else Some((message, filename))
    else Some((message, filename))
  }

  /** The record the `error` listener builds; `None` when building it throws. */
  function FromErrorEvent(ev: ErrorEvent): Option<ErrorRecord> {
    var message := Or(Or(MessageOf(ev.error), ev.message), Str(""));
    var filename := Or(ev.filename, Str(""));
    var ruled := ResourceRule(message, filename, ev.target);
    if ruled.None? then None
    else
      var msg := SafeText(Or(ruled.value.0, Str("Unknown error")));
      var file := SafeText(Or(ruled.value.1, Str("")));
      var stack := SafeText(Or(StackOf(ev.error), Str("")));
      if msg.None? || file.None? || stack.None? then None
      else Some(ScriptError(msg.value, file.value, Or(ev.lineno, Num(0)), Or(ev.colno, Num(0)), stack.value))
  }

  /** The record the `unhandledrejection` listener builds; `None` when building it throws. */
  function FromRejection(reason: Value): Option<ErrorRecord> {
    var msg := SafeText(Or(Or(MessageOf(reason), reason), Str("Unhandled rejection")));
    var stack := SafeText(Or(StackOf(reason), Str("")));
    if msg.None? || stack.None? then None else Some(Rejection(msg.value, stack.value))
  }

  predicate CleanRecord(r: ErrorRecord) {
    match r
    case ScriptError(m, f, _, _, s) => NoControl(m) && NoControl(f) && NoControl(s)
    case Rejection(m, s) => NoControl(m) && NoControl(s)
  }

  lemma PlainText(s: string)
    requires NoControl(s)
    ensures SafeText(Str(s)) == Some(s)
  {
    StripControlKeeps(s);
  }

  /**
   * A failed `img`, `script` or `link` load with no message reports
   * "Resource error: <tag> failed to load" and the element's URL as the
   * file, with line and column 0 when the event has none.
   */
  lemma ResourceErrorRecord(ev: ErrorEvent, tag: string, url: string)
    requires !Truthy(MessageOf(ev.error)) && !Truthy(ev.message)
    requires ev.target.Some? && ev.target.value.tagName == Str(tag) && IsResourceTag(Lower(tag))
    requires Or(Or(ev.target.value.src, ev.target.value.href), Str("")) == Str(url)
    requires !Truthy(ev.lineno) && !Truthy(ev.colno) && NoControl(url)
    requires !Truthy(StackOf(ev.error))
    ensures FromErrorEvent(ev) == Some(ScriptError(ResourceMessage(Lower(tag)), url, Num(0), Num(0), ""))
  {
    var t := Lower(tag);
    var m := ResourceMessage(t);
    ResourceMessageText(t);
    assert ResourceRule(Str(""), Or(ev.filename, Str("")), ev.target) == Some((Str(m), Str(url)));
    PlainText(url);
    SafeTextNullish();
  }

  lemma ResourceMessageText(t: string)
    requires IsResourceTag(t)
    ensures Truthy(Str(ResourceMessage(t))) && SafeText(Str(ResourceMessage(t))) == Some(ResourceMessage(t))
  {
    assert NoControl(ResourceMessage(t)) by {
      assert t == "img" || t == "script" || t == "link";
    }
    PlainText(ResourceMessage(t));
  }

  lemma UnknownErrorText()
    ensures SafeText(Str("Unknown error")) == Some("Unknown error")
  {
    PlainText("Unknown error");
  }

  /** With no message anywhere and no resource target the record says "Unknown error". */
  lemma UnknownErrorRecord(ev: ErrorEvent)
    requires !Truthy(MessageOf(ev.error)) && !Truthy(ev.message)
    requires ev.target.None?
    requires FromErrorEvent(ev).Some?
    ensures FromErrorEvent(ev).value.message == "Unknown error"
  {
    var message := Or(Or(MessageOf(ev.error), ev.message), Str(""));
    assert message == Str("");
    var filename := Or(ev.filename, Str(""));
    assert ResourceRule(message, filename, ev.target) == Some((message, filename));
    assert Or(message, Str("Unknown error")) == Str("Unknown error");
    UnknownErrorText();
  }

  /** A rejection with a falsy reason says "Unhandled rejection" and has an empty stack. */
  lemma EmptyRejectionRecord(reason: Value)
    requires !Truthy(reason)
    ensures FromRejection(reason) == Some(Rejection("Unhandled rejection", ""))
  {
    assert Or(Or(MessageOf(reason), reason), Str("Unhandled rejection")) == Str("Unhandled rejection");
    PlainText("Unhandled rejection");
    assert StackOf(reason) == Undefined;
    assert SafeText(Or(StackOf(reason), Str(""))) == Some("");
  }

  /** No record carries a control character, whatever the event held. */
  lemma RecordsAreClean(ev: ErrorEvent, reason: Value)
    ensures FromErrorEvent(ev).Some? ==> CleanRecord(FromErrorEvent(ev).value)
    ensures FromRejection(reason).Some? ==> CleanRecord(FromRejection(reason).value)
  {
    if FromErrorEvent(ev).Some? {
      var message := Or(Or(MessageOf(ev.error), ev.message), Str(""));
      var ruled := ResourceRule(message, Or(ev.filename, Str("")), ev.target);
      SafeTextClean(Or(ruled.value.0, Str("Unknown error")));
      SafeTextClean(Or(ruled.value.1, Str("")));
      SafeTextClean(Or(StackOf(ev.error), Str("")));
    }
    if FromRejection(reason).Some? {
      SafeTextClean(Or(Or(MessageOf(reason), reason), Str("Unhandled rejection")));
      SafeTextClean(Or(StackOf(reason), Str("")));
    }
  }

  /** Whatever `safeText` returns is free of control characters. */
  lemma SafeTextClean(v: Value)
    ensures SafeText(v).Some? ==> NoControl(SafeText(v).value)
  {
  }

  // ------------------------------------------------------------------
  // Network records
  // ------------------------------------------------------------------

  datatype NetKind = Fetch | Xhr

  datatype NetRecord = NetRecord(
    kind: NetKind, httpMethod: string, url: string, status: int, ok: bool, error: Option<string>)

  /** The first argument of `fetch`: a URL string, a `Request` (with its `url`), or anything else. */
  datatype FetchResource = UrlText(text: string) | WithUrl(url: string) | NoUrl

  datatype Response = Response(status: int, ok: bool)

  /** `(init?.method || "GET").toUpperCase()`; `None` when the method is not a string and the call throws. */
  function FetchMethod(initMethod: Value): Option<string> {
    var m := Or(initMethod, Str("GET"));
    if m.Str? then Some(Upper(m.s)) else None
  }

  function FetchUrl(r: FetchResource): string {
    match r
    case UrlText(s) => s
    case WithUrl(u) => if u == "" then "(unknown)" else u
    case NoUrl => "(unknown)"
  }

  /** The record of a fetch that resolved with a response. */
  function FetchResolved(initMethod: Value, r: FetchResource, res: Response): Option<NetRecord> {
    var verb := FetchMethod(initMethod);
    if verb.None? then None
    else Some(NetRecord(Fetch, verb.value, FetchUrl(r), res.status, res.ok, None))
  }

  /** The record of a fetch that rejected with `e` (which the wrapper then rethrows). */
  function FetchRejected(initMethod: Value, r: FetchResource, e: Value): Option<NetRecord> {
    var verb := FetchMethod(initMethod);
    var error := SafeText(Or(MessageOf(e), e));
    if verb.None? || error.None? then None
    else Some(NetRecord(Fetch, verb.value, FetchUrl(r), 0, false, Some(error.value)))
  }

  /** What `open` records on the request. */
  datatype XhrMeta = XhrMeta(httpMethod: string, url: string)

  /** `open(verb, url)`; `None` when `String` throws, in which case nothing is recorded. */
  function XhrOpen(verb: Value, url: Value): Option<XhrMeta> {
    var m := ToStr(Or(verb, Str("GET")));
    var u := ToStr(Or(url, Str("(unknown)")));
    if m.None? || u.None? then None else Some(XhrMeta(Upper(m.value), u.value))
  }

  /** How a request ends: the events the wrapper listens for, and `abort`, which it does not. */
  datatype XhrEnd = Load | NetworkError | Timeout | Abort

  /** The record `send` makes when the request ends; `None` for an abort. */
  function XhrFinished(meta: Option<XhrMeta>, end: XhrEnd, status: int): Option<NetRecord> {
    var m := meta.GetOr(XhrMeta("GET", "(unknown)"));
    match end
    case Load => Some(NetRecord(Xhr, m.httpMethod, m.url, status, 200 <= status < 400, None))
    case NetworkError => Some(NetRecord(Xhr, m.httpMethod, m.url, status, false, Some("XHR error")))
    case Timeout => Some(NetRecord(Xhr, m.httpMethod, m.url, status, false, Some("XHR timeout")))
    case Abort => None
  }

  /** `toUpperCase` leaves no ASCII lower-case letter and is idempotent. */
  lemma UpperLaws(s: string)
    ensures forall i :: 0 <= i < |Upper(s)| ==> !('a' <= Upper(s)[i] <= 'z')
    ensures Upper(Upper(s)) == Upper(s)
  {
  }

  /**
   * Fetch records: the method defaults to GET and is upper-cased, the URL
   * defaults to "(unknown)"; a response's status and `ok` are copied; a
   * failure reads status 0, not ok, with the sanitised error.
   */
  lemma FetchRecords(initMethod: Value, r: FetchResource, res: Response, e: Value)
    ensures FetchMethod(Undefined) == Some("GET")
    ensures FetchResolved(initMethod, r, res).Some? <==> FetchMethod(initMethod).Some?
    ensures FetchResolved(initMethod, r, res).Some? ==>
      var rec := FetchResolved(initMethod, r, res).value;
      rec.status == res.status && rec.ok == res.ok && rec.error.None?
    ensures FetchRejected(initMethod, r, e).Some? ==>
      var rec := FetchRejected(initMethod, r, e).value;
      rec.status == 0 && !rec.ok && rec.error.Some? && NoControl(rec.error.value)
    ensures !r.UrlText? ==> FetchUrl(r) != ""
  {
    assert Upper("GET") == "GET";
  }

  /**
   * XHR records: a load is ok exactly when 200 <= status < 400; an error
   * or timeout is never ok and names itself; an abort records nothing;
   * without `open` the request reads as GET "(unknown)".
   */
  lemma XhrRecords(meta: Option<XhrMeta>, end: XhrEnd, status: int)
    ensures XhrFinished(meta, end, status).None? <==> end == Abort
    ensures XhrFinished(meta, end, status).Some? ==>
      var rec := XhrFinished(meta, end, status).value;
      (rec.ok <==> end == Load && 200 <= status < 400)
      && (rec.error.Some? <==> end != Load)
      && rec.status == status && rec.kind == Xhr
      && (meta.None? ==> rec.httpMethod == "GET" && rec.url == "(unknown)")
    ensures XhrOpen(Undefined, Undefined) == Some(XhrMeta("GET", "(unknown)"))
  {
    assert Upper("GET") == "GET";
  }
}
