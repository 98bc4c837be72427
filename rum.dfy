/**
 * The RUM tag pipeline: the string store behind `localStorage`, the
 * command queue `BarcaDataLayer` drained through `handleTag`, the
 * settings it keeps (`logging`, `tracepoints`, `pageGroup`), the
 * `lastError`/`lastNetwork` slots, the theme, and the ready gate.
 */
module Rum {
  import opened JsValues
  import opened Json
  import opened RumEvents

  // ------------------------------------------------------------------
  // The store
  // ------------------------------------------------------------------

  /** `localStorage`: its items, and whether reads and writes succeed (they throw when not). */
  datatype Storage = Storage(items: map<string, string>, readable: bool, writable: bool)

  predicate Working(st: Storage) {
    st.readable && st.writable
  }

  const LoggingKey: string := "cprum-logging"
  const TracepointsKey: string := "cprum-tracepoints"
  const PageGroupKey: string := "cprum-pageGroup"
  const ThemeKey: string := "theme"

  /** `store.get(key, fallback)` */
  function Get(st: Storage, key: string, fallback: string): string {
    if st.readable && key in st.items then st.items[key] else fallback
  }

  /** `store.set(key, value)`: a failed write is swallowed. */
  function Set(st: Storage, key: string, value: string): Storage {
    if st.writable then st.(items := st.items[key := value]) else st
  }

  /**
   * `store.getJSON(key, {})`: the fallback for a missing, empty or
   * unreadable value, and for text that is not a flat JSON object (which
   * `JSON.parse` would still return; see `Json.Parse`).
   */
  function GetJSON(st: Storage, key: string): Props {
    if !st.readable || key !in st.items || st.items[key] == "" then []
    else
      var parsed := Parse(st.items[key]);
      if parsed.Some? then parsed.value else []
  }

  /** `store.setJSON(key, value)` */
  function SetJSON(st: Storage, key: string, p: Props): Storage {
    Set(st, key, Stringify(p))
  }

  /**
   * The store never fails loudly: a failed write changes nothing and a
   * failed read yields the fallback. A working store returns what was
   * written under a key, leaves the other keys alone, and reads an object
   * back as its JSON normal form.
   */
  lemma StoreLaws(st: Storage, k: string, k': string, v: string, d: string, p: Props)
    ensures !st.writable ==> Set(st, k, v) == st
    ensures !st.readable ==> Get(st, k, d) == d && GetJSON(st, k) == []
    ensures k !in st.items ==> Get(st, k, d) == d
    ensures k !in st.items || st.items[k] == "" || Parse(st.items[k]).None? ==> GetJSON(st, k) == []
    ensures Working(st) ==> Get(Set(st, k, v), k, d) == v
    ensures k' != k ==> Get(Set(st, k, v), k', d) == Get(st, k', d) && GetJSON(Set(st, k, v), k') == GetJSON(st, k')
    ensures Working(st) && UniqueKeys(p) ==> GetJSON(SetJSON(st, k, p), k) == Normalize(p)
  {
    if Working(st) && UniqueKeys(p) {
      ParseStringify(p);
      assert Stringify(p)[0] == '{';
    }
  }

  // ------------------------------------------------------------------
  // Dispatch
  // ------------------------------------------------------------------

  /** The persisted settings of the observability record. */
  datatype Settings = Settings(logging: bool, tracepoints: Props, pageGroup: string)

  /** The settings together with the store they are written through to. */
  datatype Rec = Rec(settings: Settings, storage: Storage)

  /** How `handleTag` ended: it changed something, it returned early, or it threw. */
  datatype Outcome = Applied | Ignored | Threw

  datatype Step = Step(rec: Rec, outcome: Outcome)

  /** The argument at `i`, `undefined` past the end. */
  function Arg(args: seq<Value>, i: nat): Value {
    if i < |args| then args[i] else Undefined
  }

  /** `state.tracepoints[key] = value`: on a plain object `__proto__` is an accessor unless it is an own property. */
  function AssignProperty(p: Props, key: string, v: Value): Props {
    if key == "__proto__" && Lookup(p, key).None? then p else Put(p, key, v)
  }

  /** `handleTag(args)` */
  function Dispatch(r: Rec, args: seq<Value>): Step {
    var cmd := Arg(args, 0);
    var s := r.settings;
    if !Truthy(cmd) then Step(r, Ignored)
    else if cmd == Str("logging") then
      var on := Truthy(Arg(args, 1));
      Step(Rec(s.(logging := on), Set(r.storage, LoggingKey, if on then "1" else "0")), Applied)
    else if cmd == Str("tracepoint") then
      var text := ToStr(Coalesce(Arg(args, 1), Str("")));
      if text.None? then Step(r, Threw)
      else
        var key := Trim(text.value);
        if key == "" then Step(r, Ignored)
        else
          var tp := AssignProperty(s.tracepoints, key, Arg(args, 2));
          Step(Rec(s.(tracepoints := tp), SetJSON(r.storage, TracepointsKey, tp)), Applied)
    else if cmd == Str("pageGroup") then
      var text := ToStr(Coalesce(Arg(args, 1), Str("")));
      if text.None? then Step(r, Threw)
      else Step(Rec(s.(pageGroup := text.value), Set(r.storage, PageGroupKey, text.value)), Applied)
    else Step(r, Ignored)
  }

  /** Handling a list of entries in order, whatever each one does. */
  function Drain(r: Rec, queue: seq<seq<Value>>): Rec
    decreases |queue|
  {
    if queue == [] then r else Drain(Dispatch(r, queue[0]).rec, queue[1..])
  }

  /** A missing, falsy or unknown command changes no setting and no store key. */
  lemma DispatchIgnores(r: Rec, args: seq<Value>)
    requires !Truthy(Arg(args, 0)) || Arg(args, 0) !in {Str("logging"), Str("tracepoint"), Str("pageGroup")}
    ensures Dispatch(r, args) == Step(r, Ignored)
  {
  }

  /** `logging` becomes the truthiness of the argument and is stored as "1" or "0". */
  lemma DispatchLogging(r: Rec, args: seq<Value>)
    requires Working(r.storage) && |args| >= 1 && args[0] == Str("logging")
    ensures var next := Dispatch(r, args).rec;
      next.settings == r.settings.(logging := Truthy(Arg(args, 1)))
      && Get(next.storage, LoggingKey, "0") == (if Truthy(Arg(args, 1)) then "1" else "0")
      && (Get(next.storage, LoggingKey, "0") == "1" <==> Truthy(Arg(args, 1)))
  {
  }

  /**
   * A tracepoint whose trimmed key is empty changes nothing; otherwise that
   * key alone takes the value (last write wins) and the whole map is
   * persisted, reading back as its JSON normal form.
   */
  lemma DispatchTracepoint(r: Rec, args: seq<Value>, key: string)
    requires UniqueKeys(r.settings.tracepoints)
    requires |args| >= 1 && args[0] == Str("tracepoint")
    requires ToStr(Coalesce(Arg(args, 1), Str(""))).Some?
    requires key == Trim(ToStr(Coalesce(Arg(args, 1), Str(""))).value)
    ensures key == "" ==> Dispatch(r, args) == Step(r, Ignored)
    ensures key != "" && key != "__proto__" ==>
      var next := Dispatch(r, args).rec;
      Lookup(next.settings.tracepoints, key) == Some(Arg(args, 2))
      && (forall k :: k != key ==> Lookup(next.settings.tracepoints, k) == Lookup(r.settings.tracepoints, k))
      && next.settings.logging == r.settings.logging && next.settings.pageGroup == r.settings.pageGroup
      && (Working(r.storage) ==> GetJSON(next.storage, TracepointsKey) == Normalize(next.settings.tracepoints))
  {
    if key != "" && key != "__proto__" {
      var tp := Put(r.settings.tracepoints, key, Arg(args, 2));
      StoreLaws(r.storage, TracepointsKey, TracepointsKey, "", "", tp);
    }
  }

  /** `pageGroup` becomes `String(arg ?? "")` and is stored; an argument `String` cannot convert changes nothing. */
  lemma DispatchPageGroup(r: Rec, args: seq<Value>)
    requires Working(r.storage) && |args| >= 1 && args[0] == Str("pageGroup")
    ensures ToStr(Coalesce(Arg(args, 1), Str(""))).None? ==> Dispatch(r, args) == Step(r, Threw)
    ensures Arg(args, 1) == Undefined || Arg(args, 1) == Null ==>
      Dispatch(r, args).rec.settings.pageGroup == "" && Get(Dispatch(r, args).rec.storage, PageGroupKey, "x") == ""
    ensures ToStr(Coalesce(Arg(args, 1), Str(""))).Some? ==>
      var g := ToStr(Coalesce(Arg(args, 1), Str(""))).value;
      Dispatch(r, args).rec.settings == r.settings.(pageGroup := g)
      && Get(Dispatch(r, args).rec.storage, PageGroupKey, "") == g
  {
  }

  /**
   * A page's `cpRumTag("tracepoint", key, v)` with a fixed, trimmed key:
   * `key` now holds `v` and no other tracepoint or setting changes.
   */
  lemma TracepointRecorded(r: Rec, key: string, v: Value)
    requires UniqueKeys(r.settings.tracepoints)
    requires key != "" && key != "__proto__" && Trim(key) == key
    ensures var next := Dispatch(r, [Str("tracepoint"), Str(key), v]).rec;
      Lookup(next.settings.tracepoints, key) == Some(v)
      && (forall k :: k != key ==> Lookup(next.settings.tracepoints, k) == Lookup(r.settings.tracepoints, k))
      && next.settings.logging == r.settings.logging && next.settings.pageGroup == r.settings.pageGroup
  {
    var args := [Str("tracepoint"), Str(key), v];
    assert Arg(args, 1) == Str(key) && Arg(args, 2) == v;
    DispatchTracepoint(r, args, key);
  }

  /**
   * The `cpRumTag("pageGroup", name)` every page sends when it boots: the
   * page group becomes the page's name, with a working store it is stored,
   * and logging and tracepoints stay.
   */
  lemma PageGroupTagged(r: Rec, name: string)
    ensures Dispatch(r, [Str("pageGroup"), Str(name)]).rec.settings == r.settings.(pageGroup := name)
    ensures Working(r.storage) ==> Get(Dispatch(r, [Str("pageGroup"), Str(name)]).rec.storage, PageGroupKey, "") == name
  {
    var args := [Str("pageGroup"), Str(name)];
    assert Arg(args, 1) == Str(name);
    if Working(r.storage) {
      DispatchPageGroup(r, args);
    }
  }

  /** Draining two batches one after the other is draining them together. */
  lemma {:induction false} DrainAppend(r: Rec, a: seq<seq<Value>>, b: seq<seq<Value>>)
    ensures Drain(r, a + b) == Drain(Drain(r, a), b)
    decreases |a|
  {
    if a == [] {
      assert a + b == b;
    } else {
      assert (a + b)[0] == a[0];
      assert (a + b)[1..] == a[1..] + b;
      DrainAppend(Dispatch(r, a[0]).rec, a[1..], b);
    }
  }

  // ------------------------------------------------------------------
  // Persistence
  // ------------------------------------------------------------------

  /** The settings the page loads from the store. */
  function LoadSettings(st: Storage): Settings {
    Settings(Get(st, LoggingKey, "0") == "1", GetJSON(st, TracepointsKey), Get(st, PageGroupKey, ""))
  }

  /** The store holds exactly what a reload would need to rebuild the settings. */
  predicate Persisted(r: Rec) {
    var s := r.settings;
    Working(r.storage) && UniqueKeys(s.tracepoints)
    && LoadSettings(r.storage) == Settings(s.logging, Normalize(s.tracepoints), s.pageGroup)
  }

  lemma LoadPersisted(st: Storage)
    requires Working(st)
    ensures Persisted(Rec(LoadSettings(st), st))
    ensures UniqueKeys(LoadSettings(st).tracepoints)
  {
    if TracepointsKey in st.items && st.items[TracepointsKey] != "" {
      ParseUnique(st.items[TracepointsKey]);
      ParseNormal(st.items[TracepointsKey]);
    }
  }

  lemma DispatchPersists(r: Rec, args: seq<Value>)
    requires Persisted(r)
    ensures Persisted(Dispatch(r, args).rec)
  {
    var next := Dispatch(r, args).rec;
    var cmd := Arg(args, 0);
    if Truthy(cmd) && cmd == Str("tracepoint") {
      var text := ToStr(Coalesce(Arg(args, 1), Str("")));
      if text.Some? && Trim(text.value) != "" {
        var tp := AssignProperty(r.settings.tracepoints, Trim(text.value), Arg(args, 2));
        StoreLaws(r.storage, TracepointsKey, TracepointsKey, "", "", tp);
        StoreLaws(r.storage, TracepointsKey, LoggingKey, Stringify(tp), "0", tp);
        StoreLaws(r.storage, TracepointsKey, PageGroupKey, Stringify(tp), "", tp);
      }
    } else if Truthy(cmd) && cmd == Str("logging") {
      var v := if Truthy(Arg(args, 1)) then "1" else "0";
      StoreLaws(r.storage, LoggingKey, TracepointsKey, v, "", []);
      StoreLaws(r.storage, LoggingKey, PageGroupKey, v, "", []);
    } else if Truthy(cmd) && cmd == Str("pageGroup") {
      var text := ToStr(Coalesce(Arg(args, 1), Str("")));
      if text.Some? {
        StoreLaws(r.storage, PageGroupKey, TracepointsKey, text.value, "", []);
        StoreLaws(r.storage, PageGroupKey, LoggingKey, text.value, "0", []);
      }
    }
  }

  lemma {:induction false} DrainPersists(r: Rec, queue: seq<seq<Value>>)
    requires Persisted(r)
    ensures Persisted(Drain(r, queue))
    decreases |queue|
  {
    if queue != [] {
      DispatchPersists(r, queue[0]);
      DrainPersists(Dispatch(r, queue[0]).rec, queue[1..]);
    }
  }

  /**
   * With a working store, loading the page, handling any tags and loading
   * again gives the same `logging` and `pageGroup`, and the tracepoints in
   * their JSON normal form.
   */
  lemma ReloadAfterTags(st: Storage, queue: seq<seq<Value>>)
    requires Working(st)
    ensures var r := Drain(Rec(LoadSettings(st), st), queue);
      LoadSettings(r.storage) == r.settings.(tracepoints := Normalize(r.settings.tracepoints))
  {
    LoadPersisted(st);
    DrainPersists(Rec(LoadSettings(st), st), queue);
  }

  // ------------------------------------------------------------------
  // Theme
  // ------------------------------------------------------------------

  /** The theme toggle: light, then dark, then system; anything else goes to light. */
  function NextTheme(current: string): string {
    if current == "light" then "dark" else if current == "dark" then "system" else "light"
  }

  /** The three modes form a cycle of length three, and every value joins it. */
  lemma ThemeCycle(m: string)
    ensures m in {"light", "dark", "system"} ==> NextTheme(NextTheme(NextTheme(m))) == m
    ensures NextTheme(m) in {"light", "dark", "system"} && NextTheme(m) != m
  {
  }

  // ------------------------------------------------------------------
  // Partials
  // ------------------------------------------------------------------

  /** How one `data-include` fetch settled: the response for its path, or the error it rejected with. */
  datatype IncludeFetch = Loaded(path: string, res: Response) | Failed(path: string, e: Value)

  /**
   * The record the fetch wrapper keeps for `fetch(path, { cache: "no-cache" })`:
   * no method is given, so it is a GET of the path.
   */
  function IncludeRecord(f: IncludeFetch): Option<NetRecord> {
    match f
    case Loaded(path, res) => FetchResolved(Undefined, UrlText(path), res)
    case Failed(path, e) => FetchRejected(Undefined, UrlText(path), e)
  }

  /**
   * `lastNetwork` once the include fetches have settled in the order given:
   * the record of the last one to settle, or what was there when none
   * leaves a record.
   */
  function AfterIncludes(last: Option<NetRecord>, fetches: seq<IncludeFetch>): (r: Option<NetRecord>)
    ensures fetches == [] ==> r == last
    ensures fetches != [] && IncludeRecord(fetches[|fetches| - 1]).Some? ==> r == IncludeRecord(fetches[|fetches| - 1])
    ensures r == last || exists f :: f in fetches && r == IncludeRecord(f)
  {
    if fetches == [] then last
    else
      var rec := IncludeRecord(fetches[|fetches| - 1]);
      if rec.Some? then rec else AfterIncludes(last, fetches[..|fetches| - 1])
  }

  /** An include fetch records a GET of its own path, with the status it got or status 0 on failure. */
  lemma IncludeRecordLaws(f: IncludeFetch)
    ensures f.Loaded? ==> IncludeRecord(f) == Some(NetRecord(Fetch, "GET", f.path, f.res.status, f.res.ok, None))
    ensures IncludeRecord(f).Some? ==>
      var r := IncludeRecord(f).value;
      r.kind == Fetch && r.httpMethod == "GET" && r.url == f.path && (f.Failed? ==> r.status == 0 && !r.ok)
  {
    assert Upper("GET") == "GET" by {
      UpperLaws("GET");
    }
  }

  // ------------------------------------------------------------------
  // The runtime record
  // ------------------------------------------------------------------

  class Runtime {
    var logging: bool
    var tracepoints: Props
    var pageGroup: string
    var lastError: Option<ErrorRecord>
    var lastNetwork: Option<NetRecord>
    var themeMode: string
    /** The theme the document shows: `data-theme` is "dark" exactly when this holds. */
    var darkTheme: bool
    var ready: bool
    var storage: Storage
    /** `window.BarcaDataLayer`, which only ever grows. */
    var dataLayer: seq<seq<Value>>
    /** `dlIndex`: the next entry to handle. */
    var dlIndex: nat
    /**
     * Callbacks given to `whenReady` before boot finished, waiting for
     * `cprum:ready`; a listener is registered for an event at most once.
     */
    var readyWaiting: seq<nat>
    /** Callbacks `whenReady` has run, in the order they ran. */
    var readyCalled: seq<nat>
    /** Every entry handled so far, in the order handled. */
    ghost var handled: seq<seq<Value>>
    /** Every callback given to `whenReady`. */
    ghost var registered: seq<nat>

    ghost predicate Valid()
      reads this
    {
      dlIndex <= |dataLayer| && handled == dataLayer[..dlIndex]
      && UniqueKeys(tracepoints)
      && registered == readyCalled + readyWaiting
      && (forall i, j :: 0 <= i < j < |readyWaiting| ==> readyWaiting[i] != readyWaiting[j])
      && (ready ==> readyWaiting == [])
    }

    function Current(): Rec
      reads this
    {
      Rec(Settings(logging, tracepoints, pageGroup), storage)
    }

    /** The script loading: the settings come from the store; entries queued before are kept, none handled. */
    constructor (queued: seq<seq<Value>>, st: Storage)
      ensures Valid()
      ensures Current() == Rec(LoadSettings(st), st)
      ensures dataLayer == queued && dlIndex == 0 && !ready
      ensures lastError.None? && lastNetwork.None? && themeMode == "system"
      ensures readyWaiting == [] && readyCalled == []
    {
      if st.readable && TracepointsKey in st.items && st.items[TracepointsKey] != "" {
        ParseUnique(st.items[TracepointsKey]);
      }
      var s := LoadSettings(st);
      logging := s.logging;
      tracepoints := s.tracepoints;
      pageGroup := s.pageGroup;
      storage := st;
      lastError := None;
      lastNetwork := None;
      themeMode := "system";
      darkTheme := false;
      ready := false;
      dataLayer := queued;
      dlIndex := 0;
      readyWaiting := [];
      readyCalled := [];
      handled := [];
      registered := [];
      new;
      if !st.readable {
        assert tracepoints == [];
      }
    }

    /** `handleTag(args)` */
    method HandleTag(args: seq<Value>) returns (outcome: Outcome)
      requires UniqueKeys(tracepoints)
      modifies this`logging, this`tracepoints, this`pageGroup, this`storage
      ensures Current() == Dispatch(old(Current()), args).rec
      ensures outcome == Dispatch(old(Current()), args).outcome
      ensures UniqueKeys(tracepoints)
    {
      var cmd := Arg(args, 0);
      if !Truthy(cmd) {
        return Ignored;
      }
      if cmd == Str("logging") {
        logging := Truthy(Arg(args, 1));
        storage := Set(storage, LoggingKey, if logging then "1" else "0");
        return Applied;
      }
      if cmd == Str("tracepoint") {
        var text := ToStr(Coalesce(Arg(args, 1), Str("")));
        if text.None? {
          return Threw;
        }
        var key := Trim(text.value);
        if key == "" {
          return Ignored;
        }
        tracepoints := AssignProperty(tracepoints, key, Arg(args, 2));
        storage := SetJSON(storage, TracepointsKey, tracepoints);
        return Applied;
      }
      if cmd == Str("pageGroup") {
        var text := ToStr(Coalesce(Arg(args, 1), Str("")));
        if text.None? {
          return Threw;
        }
        pageGroup := text.value;
        storage := Set(storage, PageGroupKey, pageGroup);
        return Applied;
      }
      return Ignored;
    }

    /**
     * `processDataLayer()`: handles every entry from the cursor to the
     * current end, in order, each exactly once, moving the cursor past an
     * entry before handling it; a handler that throws is reported and the
     * loop goes on.
     */
    method ProcessDataLayer()
      requires Valid()
      modifies this`dlIndex, this`handled, this`logging, this`tracepoints, this`pageGroup, this`storage
      ensures Valid()
      ensures dlIndex == |dataLayer| && old(dlIndex) <= dlIndex
      ensures Current() == Drain(old(Current()), old(dataLayer[dlIndex..]))
      ensures handled == old(handled) + old(dataLayer[dlIndex..])
    {
      ghost var target := Drain(Current(), dataLayer[dlIndex..]);
      while dlIndex < |dataLayer|
        invariant old(dlIndex) <= dlIndex <= |dataLayer| && handled == dataLayer[..dlIndex]
        invariant UniqueKeys(tracepoints)
        invariant Drain(Current(), dataLayer[dlIndex..]) == target
        decreases |dataLayer| - dlIndex
      {
        Step();
      }
      assert dataLayer[dlIndex..] == [];
      assert old(dataLayer[..dlIndex]) + old(dataLayer[dlIndex..]) == dataLayer;
    }

    /** One turn of the `processDataLayer` loop: the cursor moves past the entry, which is then handled. */
    method Step()
      requires dlIndex < |dataLayer| && handled == dataLayer[..dlIndex] && UniqueKeys(tracepoints)
      modifies this`dlIndex, this`handled, this`logging, this`tracepoints, this`pageGroup, this`storage
      ensures dlIndex == old(dlIndex) + 1 && handled == dataLayer[..dlIndex] && UniqueKeys(tracepoints)
      ensures Drain(Current(), dataLayer[dlIndex..]) == Drain(old(Current()), old(dataLayer[dlIndex..]))
    {
      var args := dataLayer[dlIndex];
      ghost var rest := dataLayer[dlIndex..];
      assert rest[0] == args && rest[1..] == dataLayer[dlIndex + 1..];
      dlIndex := dlIndex + 1;
      handled := handled + [args];
      assert dataLayer[..dlIndex] == dataLayer[..dlIndex - 1] + [args];
      var _ := HandleTag(args);
    }

    /** A page script pushing onto `BarcaDataLayer` before `cpRumTag` exists. */
    method Push(args: seq<Value>)
      requires Valid()
      modifies this
      ensures Valid()
      ensures dataLayer == old(dataLayer) + [args]
      ensures Current() == old(Current()) && dlIndex == old(dlIndex) && handled == old(handled)
      ensures lastError == old(lastError) && lastNetwork == old(lastNetwork)
      ensures themeMode == old(themeMode) && darkTheme == old(darkTheme) && ready == old(ready)
      ensures readyWaiting == old(readyWaiting) && readyCalled == old(readyCalled) && registered == old(registered)
    {
      dataLayer := dataLayer + [args];
      assert dataLayer[..dlIndex] == old(dataLayer)[..dlIndex];
    }

    /** `cpRumTag(...args)`: push, then drain, so everything queued before is handled first. */
    method CpRumTag(args: seq<Value>)
      requires Valid()
      modifies this
      ensures Valid()
      ensures dataLayer == old(dataLayer) + [args] && dlIndex == |dataLayer|
      ensures Current() == Drain(old(Current()), old(dataLayer[dlIndex..]) + [args])
      ensures handled == dataLayer
      ensures lastError == old(lastError) && lastNetwork == old(lastNetwork)
      ensures themeMode == old(themeMode) && darkTheme == old(darkTheme) && ready == old(ready)
      ensures readyWaiting == old(readyWaiting) && readyCalled == old(readyCalled) && registered == old(registered)
    {
      Push(args);
      assert dataLayer[dlIndex..] == old(dataLayer[dlIndex..]) + [args];
      ProcessDataLayer();
    }

    /** `setLastError(info)`: the one slot is overwritten. */
    method SetLastError(info: ErrorRecord)
      modifies this`lastError
      ensures lastError == Some(info)
    {
      lastError := Some(info);
    }

    /** `setLastNetwork(info)`: the one slot is overwritten. */
    method SetLastNetwork(info: NetRecord)
      modifies this`lastNetwork
      ensures lastNetwork == Some(info)
    {
      lastNetwork := Some(info);
    }

    /** The `error` listener; when building the record throws, nothing is recorded. */
    method OnError(ev: ErrorEvent)
      modifies this`lastError
      ensures lastError == if FromErrorEvent(ev).Some? then FromErrorEvent(ev) else old(lastError)
    {
      var info := FromErrorEvent(ev);
      if info.Some? {
        SetLastError(info.value);
      }
    }

    /** The `unhandledrejection` listener. */
    method OnRejection(reason: Value)
      modifies this`lastError
      ensures lastError == if FromRejection(reason).Some? then FromRejection(reason) else old(lastError)
    {
      var info := FromRejection(reason);
      if info.Some? {
        SetLastError(info.value);
      }
    }

    /** The fetch wrapper when the native fetch resolves. */
    method OnFetchResolved(initMethod: Value, resource: FetchResource, res: Response)
      modifies this`lastNetwork
      ensures lastNetwork == if FetchResolved(initMethod, resource, res).Some? then FetchResolved(initMethod, resource, res) else old(lastNetwork)
    {
      var info := FetchResolved(initMethod, resource, res);
      if info.Some? {
        SetLastNetwork(info.value);
      }
    }

    /** The fetch wrapper when the native fetch rejects; the error is rethrown to the caller. */
    method OnFetchRejected(initMethod: Value, resource: FetchResource, e: Value)
      modifies this`lastNetwork
      ensures lastNetwork == if FetchRejected(initMethod, resource, e).Some? then FetchRejected(initMethod, resource, e) else old(lastNetwork)
    {
      var info := FetchRejected(initMethod, resource, e);
      if info.Some? {
        SetLastNetwork(info.value);
      }
    }

    /** The XHR wrapper when a request ends. */
    method OnXhrEnd(meta: Option<XhrMeta>, end: XhrEnd, status: int)
      modifies this`lastNetwork
      ensures lastNetwork == if XhrFinished(meta, end, status).Some? then XhrFinished(meta, end, status) else old(lastNetwork)
    {
      var info := XhrFinished(meta, end, status);
      if info.Some? {
        SetLastNetwork(info.value);
      }
    }

    /** `applyTheme(mode)`: the mode is stored and the document shows dark for "dark", or "system" with a dark preference. */
    method ApplyTheme(mode: string, prefersDark: bool)
      modifies this`themeMode, this`storage, this`darkTheme
      ensures themeMode == mode && storage == Set(old(storage), ThemeKey, mode)
      ensures darkTheme <==> mode == "dark" || (mode == "system" && prefersDark)
    {
      themeMode := mode;
      storage := Set(storage, ThemeKey, mode);
      darkTheme := mode == "dark" || (mode == "system" && prefersDark);
    }

    /** A click on the theme toggle: the next mode after the stored one. */
    method ToggleTheme(prefersDark: bool)
      modifies this`themeMode, this`storage, this`darkTheme
      ensures themeMode == NextTheme(Get(old(storage), ThemeKey, "system"))
      ensures storage == Set(old(storage), ThemeKey, themeMode)
      ensures darkTheme <==> themeMode == "dark" || (themeMode == "system" && prefersDark)
      ensures logging == old(logging) && tracepoints == old(tracepoints) && pageGroup == old(pageGroup)
      ensures dataLayer == old(dataLayer) && dlIndex == old(dlIndex) && ready == old(ready)
    {
      var current := Get(storage, ThemeKey, "system");
      ApplyTheme(NextTheme(current), prefersDark);
    }

    /** The HUD's Clear button: no tracepoints, and an empty object stored. */
    method ClearTracepoints()
      modifies this`tracepoints, this`storage
      ensures tracepoints == [] && storage == SetJSON(old(storage), TracepointsKey, [])
    {
      tracepoints := [];
      storage := SetJSON(storage, TracepointsKey, []);
    }

    /** The HUD's Logging button: `cpRumTag("logging", !state.logging)`. */
    method ToggleLogging()
      requires Valid()
      modifies this
      ensures Valid()
      ensures dataLayer == old(dataLayer) + [[Str("logging"), Bool(!old(logging))]]
      ensures Current() == Drain(old(Current()), old(dataLayer[dlIndex..]) + [[Str("logging"), Bool(!old(logging))]])
      ensures dlIndex == |dataLayer| && handled == dataLayer
      ensures lastError == old(lastError) && lastNetwork == old(lastNetwork)
      ensures themeMode == old(themeMode) && darkTheme == old(darkTheme) && ready == old(ready)
      ensures readyWaiting == old(readyWaiting) && readyCalled == old(readyCalled) && registered == old(registered)
    {
      CpRumTag([Str("logging"), Bool(!logging)]);
    }

    /**
     * `whenReady(fn)`: runs `fn` now once boot has finished, otherwise adds
     * it as a `cprum:ready` listener, which the page already holding that
     * listener ignores.
     */
    method WhenReady(fn: nat)
      requires Valid()
      modifies this`readyWaiting, this`readyCalled, this`registered
      ensures Valid()
      ensures ready ==>
        readyCalled == old(readyCalled) + [fn] && readyWaiting == old(readyWaiting)
        && registered == old(registered) + [fn]
      ensures !ready && fn !in old(readyWaiting) ==>
        readyWaiting == old(readyWaiting) + [fn] && readyCalled == old(readyCalled)
        && registered == old(registered) + [fn]
      ensures !ready && fn in old(readyWaiting) ==>
        readyWaiting == old(readyWaiting) && readyCalled == old(readyCalled)
        && registered == old(registered)
    {
      if ready {
        readyCalled := readyCalled + [fn];
        registered := registered + [fn];
      } else if fn !in readyWaiting {
        readyWaiting := readyWaiting + [fn];
        registered := registered + [fn];
      }
    }

    /**
     * The `DOMContentLoaded` boot: the stored theme is applied and every
     * queued entry is handled. The partials are fetched (`includes`, in the
     * order they settle), each leaving its record in `lastNetwork`. Then
     * `initNav` updates the favourites badge; when the loaded header has
     * one (`badge`), `getPlayers` reads `localStorage` outside its `try`, so
     * unreadable storage makes the handler throw `thrown` there: boot never
     * finishes, and the rejected handler is reported as an unhandled
     * rejection. Otherwise `ready` is set and each waiting callback runs
     * once.
     */
    method Boot(prefersDark: bool, badge: bool, includes: seq<IncludeFetch>, thrown: Value)
      requires Valid()
      modifies this`themeMode, this`darkTheme, this`storage, this`logging, this`tracepoints, this`pageGroup
      modifies this`dlIndex, this`handled, this`ready, this`readyCalled, this`readyWaiting
      modifies this`lastNetwork, this`lastError
      ensures Valid()
      ensures lastNetwork == AfterIncludes(old(lastNetwork), includes)
      ensures badge && !old(storage).readable ==>
        lastError == if FromRejection(thrown).Some? then FromRejection(thrown) else old(lastError)
      ensures !badge || old(storage).readable ==> lastError == old(lastError)
      ensures themeMode == Get(old(storage), ThemeKey, "system")
      ensures dlIndex == |dataLayer| && handled == dataLayer
      ensures Current() == Drain(old(Current()).(storage := Set(old(storage), ThemeKey, themeMode)), old(dataLayer[dlIndex..]))
      ensures badge && !old(storage).readable ==>
        ready == old(ready) && readyWaiting == old(readyWaiting) && readyCalled == old(readyCalled)
      ensures !badge || old(storage).readable ==>
        ready && readyWaiting == [] && readyCalled == old(readyCalled) + old(readyWaiting)
    {
      var stalls := badge && !storage.readable;
      ApplySavedTheme(prefersDark);
      LoadPartials(includes);
      Settle(stalls, thrown);
    }

    /**
     * The end of boot: a stalled handler rejects with `thrown`, which the
     * `unhandledrejection` listener records; otherwise boot is ready.
     */
    method Settle(stalls: bool, thrown: Value)
      requires Valid()
      modifies this`ready, this`readyCalled, this`readyWaiting, this`lastError
      ensures Valid()
      ensures stalls ==>
        ready == old(ready) && readyWaiting == old(readyWaiting) && readyCalled == old(readyCalled)
        && lastError == if FromRejection(thrown).Some? then FromRejection(thrown) else old(lastError)
      ensures !stalls ==>
        ready && readyWaiting == [] && readyCalled == old(readyCalled) + old(readyWaiting) && lastError == old(lastError)
    {
      if stalls {
        OnRejection(thrown);
      } else {
        SetReady();
      }
    }

    /** The first steps of boot: the stored theme mode is applied, then the queued entries are handled. */
    method ApplySavedTheme(prefersDark: bool)
      requires Valid()
      modifies this`themeMode, this`darkTheme, this`storage, this`logging, this`tracepoints, this`pageGroup
      modifies this`dlIndex, this`handled
      ensures Valid()
      ensures themeMode == Get(old(storage), ThemeKey, "system")
      ensures dlIndex == |dataLayer| && handled == dataLayer
      ensures Current() == Drain(old(Current()).(storage := Set(old(storage), ThemeKey, themeMode)), old(dataLayer[dlIndex..]))
    {
      var saved := Get(storage, ThemeKey, "system");
      ApplyTheme(saved, prefersDark);
      assert Current() == old(Current()).(storage := Set(old(storage), ThemeKey, themeMode));
      assert dataLayer[..dlIndex] == handled;
      ProcessDataLayer();
      assert old(dataLayer[..dlIndex]) + old(dataLayer[dlIndex..]) == dataLayer;
    }

    /** `await loadPartials()`: each include fetch goes through the fetch wrapper as it settles. */
    method LoadPartials(includes: seq<IncludeFetch>)
      requires Valid()
      modifies this`lastNetwork
      ensures Valid()
      ensures lastNetwork == AfterIncludes(old(lastNetwork), includes)
    {
      var i := 0;
      while i < |includes|
        invariant 0 <= i <= |includes|
        invariant lastNetwork == AfterIncludes(old(lastNetwork), includes[..i])
      {
        assert includes[..i + 1][..i] == includes[..i];
        match includes[i] {
          case Loaded(path, res) => OnFetchResolved(Undefined, UrlText(path), res);
          case Failed(path, e) => OnFetchRejected(Undefined, UrlText(path), e);
        }
        i := i + 1;
      }
      assert includes[..i] == includes;
    }

    /** `state.ready = true` and the `cprum:ready` event: every waiting callback runs once, in order. */
    method SetReady()
      requires Valid()
      modifies this`ready, this`readyCalled, this`readyWaiting
      ensures Valid() && ready && readyWaiting == [] && readyCalled == old(readyCalled) + old(readyWaiting)
    {
      ready := true;
      readyCalled := readyCalled + readyWaiting;
      readyWaiting := [];
    }
  }
}
