/**
 * The page chrome every page shares: keyboard tabs, the debug HUD's
 * open state, the modal dialog host, and the active-link rule of the
 * navigation bar.
 */
module Chrome {
  import opened JsValues

  // ------------------------------------------------------------------
  // Tabs
  // ------------------------------------------------------------------

  /** The tab a key press moves to from tab `i` of `n`; `None` for other keys. */
  function KeyTarget(key: string, i: nat, n: nat): Option<nat>
    requires i < n
  {
    if key == "ArrowRight" then Some((i + 1) % n)
    else if key == "ArrowLeft" then Some((i - 1 + n) % n)
    else if key == "Home" then Some(0)
    else if key == "End" then Some(n - 1)
    else None
  }

  /** The index of the first marked entry, `|marked|` when none is. */
  function FirstMarked(marked: seq<bool>): (r: nat)
    ensures r <= |marked| && forall j :: 0 <= j < r ==> !marked[j]
    ensures r < |marked| ==> marked[r]
  {
    if marked == [] then 0
    else if marked[0] then 0
    else FirstMarked(marked[1..]) + 1
  }

  /**
   * The tab activated first: the first marked `aria-selected="true"`, else
   * tab 0 (also for a strip without buttons, where only the panels change).
   */
  function InitialTab(marked: seq<bool>): (r: nat)
    ensures if marked == [] then r == 0 else r < |marked|
    ensures marked != [] ==> marked[r] || forall j :: 0 <= j < |marked| ==> !marked[j]
    ensures forall j :: 0 <= j < r ==> !marked[j]
    ensures (forall j :: 0 <= j < |marked| ==> !marked[j]) ==> r == 0
  {
    var f := FirstMarked(marked);
    if f < |marked| then f else 0
  }

  /**
   * Arrow keys wrap around and stay on a tab; Left undoes Right and Right
   * undoes Left; Home and End reach the two ends.
   */
  lemma KeyTargetLaws(i: nat, n: nat)
    requires i < n
    ensures KeyTarget("ArrowLeft", KeyTarget("ArrowRight", i, n).value, n) == Some(i)
    ensures KeyTarget("ArrowRight", KeyTarget("ArrowLeft", i, n).value, n) == Some(i)
    ensures KeyTarget("Home", i, n) == Some(0) && KeyTarget("End", i, n) == Some(n - 1)
    ensures i + 1 < n ==> KeyTarget("ArrowRight", i, n) == Some(i + 1)
    ensures i == n - 1 ==> KeyTarget("ArrowRight", i, n) == Some(0)
    ensures i == 0 ==> KeyTarget("ArrowLeft", i, n) == Some(n - 1)
  {
    Step(i, n);
    var r := KeyTarget("ArrowRight", i, n).value;
    var l := KeyTarget("ArrowLeft", i, n).value;
    Step(r, n);
    Step(l, n);
  }

  /** The two arrow steps without `%`. */
  lemma Step(i: nat, n: nat)
    requires i < n
    ensures (i + 1) % n == if i + 1 < n then i + 1 else 0
    ensures (i - 1 + n) % n == if i == 0 then n - 1 else i - 1
  {
    if i + 1 < n {
      ModSmall(i + 1, n);
    } else {
      ModSmall(0, n);
      assert i + 1 == 0 + n;
      ModShift(0, n);
    }
    if i == 0 {
      ModSmall(n - 1, n);
    } else {
      ModSmall(i - 1, n);
      ModShift(i - 1, n);
    }
  }

  lemma ModSmall(a: nat, n: nat)
    requires a < n
    ensures a % n == a
  {
  }

  lemma ModShift(a: nat, n: nat)
    requires a < n
    ensures (a + n) % n == a
  {
    assert (a + n) / n == 1;
  }

  /** Every key the strip reacts to lands on one of its tabs. */
  lemma KeyTargetInRange(key: string, i: nat, n: nat)
    requires i < n
    ensures KeyTarget(key, i, n).Some? ==> KeyTarget(key, i, n).value < n
    ensures KeyTarget(key, i, n).Some? <==> key in {"ArrowRight", "ArrowLeft", "Home", "End"}
  {
  }

  /** One `.tabs` widget: its buttons' `aria-selected` and `tabIndex`, and its panels' `hidden`. */
  class TabStrip {
    const selected: array<bool>
    const tabIndex: array<int>
    const hidden: array<bool>
    /** The button holding focus, if focus moved to one. */
    var focused: Option<nat>

    ghost predicate Valid()
      reads this
    {
      selected.Length == tabIndex.Length && selected != tabIndex as object
      && selected as object != hidden && tabIndex as object != hidden
    }

    constructor (buttons: nat, panels: nat)
      ensures Valid() && selected.Length == buttons && hidden.Length == panels
      ensures fresh(selected) && fresh(tabIndex) && fresh(hidden) && focused.None?
    {
      selected := new bool[buttons](_ => false);
      tabIndex := new int[buttons](_ => -1);
      hidden := new bool[panels](_ => false);
      focused := None;
    }

    /** `activate(idx, setFocus)`: exactly tab `idx` is selected and tabbable, and only its panel shows. */
    method Activate(idx: int, setFocus: bool)
      requires Valid()
      modifies selected, tabIndex, hidden, this`focused
      ensures Valid()
      ensures forall i :: 0 <= i < selected.Length ==> (selected[i] <==> i == idx)
      ensures forall i :: 0 <= i < tabIndex.Length ==> tabIndex[i] == if i == idx then 0 else -1
      ensures forall j :: 0 <= j < hidden.Length ==> (hidden[j] <==> j != idx)
      ensures focused == if setFocus && 0 <= idx < selected.Length then Some(idx as nat) else old(focused)
    {
      var i := 0;
      while i < selected.Length
        invariant 0 <= i <= selected.Length
        invariant forall k :: 0 <= k < i ==> (selected[k] <==> k == idx) && tabIndex[k] == if k == idx then 0 else -1
        invariant focused == old(focused)
      {
        selected[i] := i == idx;
        tabIndex[i] := if i == idx then 0 else -1;
        i := i + 1;
      }
      var j := 0;
      while j < hidden.Length
        invariant 0 <= j <= hidden.Length
        invariant forall k :: 0 <= k < selected.Length ==> (selected[k] <==> k == idx) && tabIndex[k] == if k == idx then 0 else -1
        invariant forall k :: 0 <= k < j ==> (hidden[k] <==> k != idx)
        invariant focused == old(focused)
      {
        hidden[j] := j != idx;
        j := j + 1;
      }
      if setFocus && 0 <= idx < selected.Length {
        focused := Some(idx as nat);
      }
    }

    /** A key press on button `i`. */
    method OnKey(i: nat, key: string)
      requires Valid() && i < selected.Length
      modifies selected, tabIndex, hidden, this`focused
      ensures Valid()
      ensures KeyTarget(key, i, selected.Length).Some? ==>
        var t := KeyTarget(key, i, selected.Length).value;
        focused == Some(t) && (forall k :: 0 <= k < selected.Length ==> (selected[k] <==> k == t))
        && (forall k :: 0 <= k < tabIndex.Length ==> tabIndex[k] == if k == t then 0 else -1)
        && (forall k :: 0 <= k < hidden.Length ==> (hidden[k] <==> k != t))
      ensures KeyTarget(key, i, selected.Length).None? ==>
        focused == old(focused) && selected[..] == old(selected[..])
        && tabIndex[..] == old(tabIndex[..]) && hidden[..] == old(hidden[..])
    {
      var target := KeyTarget(key, i, selected.Length);
      if target.Some? {
        Activate(target.value, true);
      }
    }

    /**
     * The end of `initTabs`: the first marked tab, else the first, is
     * activated without focus; with no buttons, panel 0 shows and the rest hide.
     */
    method Init(marked: seq<bool>)
      requires Valid() && |marked| == selected.Length
      modifies selected, tabIndex, hidden, this`focused
      ensures Valid() && focused == old(focused)
      ensures var t := InitialTab(marked);
        (selected.Length > 0 ==> t < selected.Length)
        && (forall k :: 0 <= k < selected.Length ==> (selected[k] <==> k == t))
        && (forall k :: 0 <= k < tabIndex.Length ==> tabIndex[k] == if k == t then 0 else -1)
        && (forall k :: 0 <= k < hidden.Length ==> (hidden[k] <==> k != t))
    {
      Activate(InitialTab(marked), false);
    }
  }

  // ------------------------------------------------------------------
  // Debug HUD
  // ------------------------------------------------------------------

  /** `toggleHud(force)`: no HUD, no change; a boolean forces the state; anything else flips it. */
  function HudAfterToggle(present: bool, open: bool, force: Value): bool {
    if !present then open else if force.Bool? then force.b else !open
  }

  /** Forcing is idempotent, and toggling twice without forcing comes back. */
  lemma HudToggleLaws(present: bool, open: bool, b: bool, force: Value)
    ensures HudAfterToggle(present, HudAfterToggle(present, open, Bool(b)), Bool(b)) == HudAfterToggle(present, open, Bool(b))
    ensures !force.Bool? ==> HudAfterToggle(present, HudAfterToggle(present, open, force), force) == open
    ensures present ==> HudAfterToggle(present, open, Bool(b)) == b
    ensures !present ==> HudAfterToggle(present, open, force) == open
  {
  }

  class Hud {
    /** Whether the `#cprum-hud` element exists. */
    var present: bool
    var open: bool

    constructor (present: bool)
      ensures this.present == present && !open
    {
      this.present := present;
      open := false;
    }

    method Toggle(force: Value)
      modifies this`open
      ensures open == HudAfterToggle(present, old(open), force)
    {
      if !present {
        return;
      }
      open := if force.Bool? then force.b else !open;
    }
  }

  // ------------------------------------------------------------------
  // Modal host
  // ------------------------------------------------------------------

  /** The title a dialog gets: the given one, or "Dialog". */
  function ModalTitle(title: string): string {
    if title == "" then "Dialog" else title
  }

  /**
   * The modal bookkeeping: the overlays in the document, the one
   * `closeModal` acts on, the element focused before the last `openModal`,
   * the element holding focus, and the next overlay identity.
   */
  datatype ModalState = ModalState(
    overlays: seq<nat>, active: Option<nat>, lastFocused: Option<nat>, focus: Option<nat>, nextId: nat)

  /** `openModal`: a new overlay is appended and becomes the active one. */
  function Opened(m: ModalState): ModalState {
    ModalState(m.overlays + [m.nextId], Some(m.nextId), m.focus, m.focus, m.nextId + 1)
  }

  /** `closeModal`: the active overlay is removed and focus returns; a no-op when none is active. */
  function Closed(m: ModalState): ModalState {
    if m.active.None? then m
    else
      ModalState(Remove(m.overlays, m.active.value), None, m.lastFocused,
        if m.lastFocused.Some? then m.lastFocused else m.focus, m.nextId)
  }

  function Remove(s: seq<nat>, x: nat): (r: seq<nat>)
    ensures forall y :: y in r <==> y in s && y != x
  {
    if s == [] then [] else if s[0] == x then Remove(s[1..], x) else [s[0]] + Remove(s[1..], x)
  }

  /** Identities handed out so far are below `nextId`. */
  predicate Fresh(m: ModalState) {
    forall y :: y in m.overlays ==> y < m.nextId
  }

  lemma {:induction false} RemoveAbsent(s: seq<nat>, x: nat)
    requires x !in s
    ensures Remove(s, x) == s
  {
    if s != [] {
      RemoveAbsent(s[1..], x);
    }
  }

  lemma {:induction false} RemoveLast(s: seq<nat>, x: nat)
    requires x !in s
    ensures Remove(s + [x], x) == s
  {
    if s == [] {
      assert s + [x] == [x];
    } else {
      assert (s + [x])[1..] == s[1..] + [x];
      RemoveLast(s[1..], x);
    }
  }

  /**
   * Opening then closing a dialog leaves the document's overlays as they
   * were and gives focus back to the element focused before; closing with
   * nothing open does nothing.
   */
  lemma OpenCloseRestores(m: ModalState)
    requires Fresh(m)
    ensures Closed(Opened(m)).overlays == m.overlays
    ensures Closed(Opened(m)).focus == m.focus && Closed(Opened(m)).active.None?
    ensures Closed(Closed(Opened(m))) == Closed(Opened(m))
  {
    assert m.nextId !in m.overlays;
    RemoveLast(m.overlays, m.nextId);
  }

  /**
   * Opening a second dialog before closing the first leaves the first
   * overlay in the document after `closeModal`, with no active overlay
   * left to close it by.
   */
  lemma SecondOpenOrphans(m: ModalState)
    requires Fresh(m) && m.active.None?
    ensures var after := Closed(Opened(Opened(m)));
      m.nextId in after.overlays && after.active.None? && Closed(after) == after
  {
    var once := Opened(m);
    assert once.overlays == m.overlays + [m.nextId];
    assert m.nextId + 1 !in once.overlays;
    RemoveLast(once.overlays, m.nextId + 1);
  }

  class ModalHost {
    var overlays: seq<nat>
    var active: Option<nat>
    var lastFocused: Option<nat>
    var focus: Option<nat>
    var nextId: nat
    var title: string

    function State(): ModalState
      reads this
    {
      ModalState(overlays, active, lastFocused, focus, nextId)
    }

    constructor (focus: Option<nat>)
      ensures State() == ModalState([], None, None, focus, 0) && Fresh(State())
    {
      overlays := [];
      active := None;
      lastFocused := None;
      this.focus := focus;
      nextId := 0;
      title := "";
    }

    method Open(givenTitle: string)
      modifies this
      ensures State() == Opened(old(State())) && title == ModalTitle(givenTitle)
    {
      lastFocused := focus;
      overlays := overlays + [nextId];
      active := Some(nextId);
      nextId := nextId + 1;
      title := ModalTitle(givenTitle);
    }

    method Close()
      modifies this
      ensures State() == Closed(old(State())) && title == old(title)
    {
      if active.None? {
        return;
      }
      overlays := Remove(overlays, active.value);
      active := None;
      if lastFocused.Some? {
        focus := lastFocused;
      }
    }
  }

  // ------------------------------------------------------------------
  // Navigation bar
  // ------------------------------------------------------------------

  /** `path.split("/").pop()`: the text after the last slash. */
  function LastSegment(path: string): (r: string)
    ensures '/' !in r
    decreases |path|
  {
    if path == [] then ""
    else if path[|path| - 1] == '/' then ""
    else LastSegment(path[..|path| - 1]) + [path[|path| - 1]]
  }

  /** `s.split("#")[0]`: the text before the first `#`. */
  function BeforeHash(s: string): (r: string)
    ensures '#' !in r
  {
    if s == [] || s[0] == '#' then "" else [s[0]] + BeforeHash(s[1..])
  }

  /** `s.replace("./", "")`: only the first occurrence goes. */
  function ReplaceFirstDotSlash(s: string): string
    decreases |s|
  {
    if |s| < 2 then s
    else if s[0] == '.' && s[1] == '/' then s[2..]
    else [s[0]] + ReplaceFirstDotSlash(s[1..])
  }

  /** The page a location shows: its last path segment, "index.html" for a directory. */
  function CurrentPage(pathname: string): string {
    var last := LastSegment(pathname);
    Lower(if last == "" then "index.html" else last)
  }

  /** The page a navigation link points at. */
  function LinkPage(href: string): string {
    Lower(ReplaceFirstDotSlash(BeforeHash(href)))
  }

  /** `highlightActiveNav`: a link is marked active exactly when it names the current page. */
  predicate IsActiveLink(pathname: string, href: string) {
    LinkPage(href) == CurrentPage(pathname)
  }

  lemma {:induction false} LastSegmentOf(dir: string, name: string)
    requires '/' !in name
    ensures LastSegment(dir + "/" + name) == name
    decreases |name|
  {
    if name == [] {
      assert dir + "/" + name == dir + "/";
    } else {
      var p := dir + "/" + name;
      var init := name[..|name| - 1];
      assert p[..|p| - 1] == dir + "/" + init;
      assert p[|p| - 1] == name[|name| - 1];
      LastSegmentOf(dir, init);
      assert init + [name[|name| - 1]] == name;
    }
  }

  lemma {:induction false} BeforeHashOf(name: string, fragment: string)
    requires '#' !in name
    ensures BeforeHash(name + "#" + fragment) == name
    decreases |name|
  {
    if name == [] {
      assert name + "#" + fragment == "#" + fragment;
    } else {
      assert (name + "#" + fragment)[1..] == name[1..] + "#" + fragment;
      BeforeHashOf(name[1..], fragment);
    }
  }

  /**
   * A link written `./name#fragment` is active on any page whose path ends
   * in `/name`, in any letter case; `./index.html` is active on a
   * directory path.
   */
  lemma RelativeLinkActive(dir: string, name: string, fragment: string)
    requires name != [] && '/' !in name && '#' !in name
    ensures IsActiveLink(dir + "/" + name, "./" + name + "#" + fragment)
    ensures IsActiveLink(dir + "/", "./index.html")
  {
    LastSegmentOf(dir, name);
    LinkOf(name, fragment);
    IndexLink(dir);
  }

  lemma LinkOf(name: string, fragment: string)
    requires '#' !in name
    ensures LinkPage("./" + name + "#" + fragment) == Lower(name)
  {
    assert '#' !in "./" + name;
    BeforeHashOf("./" + name, fragment);
    assert ReplaceFirstDotSlash("./" + name) == name;
  }

  lemma IndexLink(dir: string)
    ensures IsActiveLink(dir + "/", "./index.html")
  {
    assert dir + "/" == dir + "/" + "";
    LastSegmentOf(dir, "");
    assert BeforeHash("./index.html") == "./index.html" by {
      assert '#' !in "./index.html";
      BeforeHashNone("./index.html");
    }
    assert ReplaceFirstDotSlash("./index.html") == "index.html";
  }

  lemma {:induction false} BeforeHashNone(s: string)
    requires '#' !in s
    ensures BeforeHash(s) == s
  {
    if s != [] {
      BeforeHashNone(s[1..]);
    }
  }
}
