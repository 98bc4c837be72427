/**
 * The fixtures table of the matchday page: the transform of the two
 * competitions' API matches into fixtures, the filter, the comparator
 * and the sort-key toggle, page clamping, the rows shown, and the
 * windowed pagination bar.
 */
module Matchday {
  import opened JsValues
  import opened Sorting
  import Rum

  /** The tag `boot()` sends first, naming the page group "Matchday". */
  const BootTag: seq<Value> := [Str("pageGroup"), Str("Matchday")]

  /** The boot tag makes "Matchday" the page group and keeps logging and the tracepoints. */
  lemma BootTagged(r: Rum.Rec)
    ensures Rum.Dispatch(r, BootTag).rec.settings == r.settings.(pageGroup := "Matchday")
  {
    Rum.PageGroupTagged(r, "Matchday");
  }

  /**
   * A fixture. `date` is the instant `new Date(date).getTime()` gives for
   * the API's date; `home` is whether Barcelona play at home ("H").
   */
  datatype Fixture = Fixture(
    date: int, opponent: string, venue: string, competition: string, status: string,
    score: Option<string>, round: Option<int>, home: bool)

  datatype Dir = Asc | Desc

  // ------------------------------------------------------------------
  // Comparison
  // ------------------------------------------------------------------

  /** `Number(f.round) || 0`: a missing round counts as 0. */
  function RoundNumber(f: Fixture): int {
    if f.round.Some? then f.round.value else 0
  }

  /** `String(f[key] ?? "")` for the keys compared as text; an unknown key reads as "". */
  function FieldText(f: Fixture, key: string): string {
    if key == "opponent" then f.opponent
    else if key == "venue" then f.venue
    else if key == "competition" then f.competition
    else if key == "status" then f.status
    else if key == "score" then f.score.GetOr("")
    else if key == "home" then (if f.home then "H" else "A")
    else ""
  }

  /** `compare(a, b)` under the current sort key and direction. */
  function Compare(a: Fixture, b: Fixture, key: string, dir: Dir): int {
    var d := if dir == Asc then 1 else -1;
    if key == "date" then d * (a.date - b.date)
    else if key == "round" then d * (RoundNumber(a) - RoundNumber(b))
    else d * TextCompare(FieldText(a, key), FieldText(b, key))
  }

  /** Ascending order on one key: by instant, by round number, or by text. */
  predicate KeyLe(a: Fixture, b: Fixture, key: string) {
    if key == "date" then a.date <= b.date
    else if key == "round" then RoundNumber(a) <= RoundNumber(b)
    else TextLe(FieldText(a, key), FieldText(b, key))
  }

  /** The order `view.sort(compare)` sorts by. */
  function Le(key: string, dir: Dir): (Fixture, Fixture) -> bool {
    (a: Fixture, b: Fixture) => Compare(a, b, key, dir) <= 0
  }

  lemma TextCompareAntisymmetric(x: string, y: string)
    ensures TextCompare(y, x) == -TextCompare(x, y)
    ensures TextCompare(x, y) <= 0 <==> TextLe(x, y)
  {
    TextOrder();
    if x == y {
      TextLeTotal(x, x);
    }
  }

  /**
   * Descending is ascending negated, swapping the operands negates the
   * result, and an ascending comparison is at most 0 exactly when the
   * key's order puts the first first.
   */
  lemma CompareLaws(a: Fixture, b: Fixture, key: string)
    ensures Compare(a, b, key, Desc) == -Compare(a, b, key, Asc)
    ensures Compare(b, a, key, Asc) == -Compare(a, b, key, Asc)
    ensures Compare(a, b, key, Asc) <= 0 <==> KeyLe(a, b, key)
    ensures Compare(a, b, key, Desc) <= 0 <==> KeyLe(b, a, key)
    ensures Compare(a, a, key, Asc) == 0
  {
    TextCompareAntisymmetric(FieldText(a, key), FieldText(b, key));
    TextCompareAntisymmetric(FieldText(a, key), FieldText(a, key));
  }

  /** The comparator is consistent, so the sort it drives is well defined. */
  lemma LeIsOrder(key: string, dir: Dir)
    ensures Total(Le(key, dir)) && Transitive(Le(key, dir))
  {
    TextOrder();
    var le := Le(key, dir);
    forall a, b ensures le(a, b) || le(b, a) {
      CompareLaws(a, b, key);
    }
    forall a, b, c | le(a, b) && le(b, c) ensures le(a, c) {
      CompareLaws(a, b, key);
      CompareLaws(b, c, key);
      CompareLaws(a, c, key);
    }
  }

  // ------------------------------------------------------------------
  // Filtering
  // ------------------------------------------------------------------

  /** `(search.value || "").trim().toLowerCase()` */
  function Query(search: string): string {
    Lower(Trim(search))
  }

  /** `select.value || "all"` */
  function Choice(value: string): string {
    if value == "" then "all" else value
  }

  /** The filter's test for one fixture, `q` already trimmed and lower-cased. */
  predicate Matches(f: Fixture, q: string, comp: string, status: string) {
    (q == "" || Contains(Lower(f.opponent), q) || Contains(Lower(f.competition), q) || Contains(Lower(f.venue), q))
    && (comp == "all" || f.competition == comp)
    && (status == "all" || f.status == status)
  }

  /** `all.filter(...)` */
  function FilterView(all: seq<Fixture>, q: string, comp: string, status: string): seq<Fixture> {
    if all == [] then []
    else (if Matches(all[0], q, comp, status) then [all[0]] else []) + FilterView(all[1..], q, comp, status)
  }

  /**
   * The view keeps exactly the matching fixtures, each as often as it
   * occurs in the list; with no query and both filters on "all" it is the
   * whole list.
   */
  lemma FilterLaws(all: seq<Fixture>, q: string, comp: string, status: string)
    ensures forall f :: f in FilterView(all, q, comp, status) <==> f in all && Matches(f, q, comp, status)
    ensures multiset(FilterView(all, q, comp, status)) <= multiset(all)
    ensures q == "" && comp == "all" && status == "all" ==> FilterView(all, q, comp, status) == all
  {
    FilterMultiset(all, q, comp, status);
    forall f ensures f in FilterView(all, q, comp, status) <==> f in all && Matches(f, q, comp, status) {
      FilterCount(all, q, comp, status, f);
    }
    if q == "" && comp == "all" && status == "all" {
      FilterKeepsAll(all);
    }
  }

  lemma {:induction false} FilterMultiset(all: seq<Fixture>, q: string, comp: string, status: string)
    ensures multiset(FilterView(all, q, comp, status)) <= multiset(all)
    decreases |all|
  {
    if all != [] {
      FilterMultiset(all[1..], q, comp, status);
      var head: seq<Fixture> := if Matches(all[0], q, comp, status) then [all[0]] else [];
      var rest := FilterView(all[1..], q, comp, status);
      assert all == [all[0]] + all[1..];
      assert multiset(all) == multiset([all[0]]) + multiset(all[1..]);
      assert multiset(head + rest) == multiset(head) + multiset(rest);
    }
  }

  /** A matching fixture occurs in the view as often as in the list; any other never. */
  lemma {:induction false} FilterCount(all: seq<Fixture>, q: string, comp: string, status: string, f: Fixture)
    ensures multiset(FilterView(all, q, comp, status))[f] == if Matches(f, q, comp, status) then multiset(all)[f] else 0
    decreases |all|
  {
    if all != [] {
      FilterCount(all[1..], q, comp, status, f);
      var head: seq<Fixture> := if Matches(all[0], q, comp, status) then [all[0]] else [];
      var rest := FilterView(all[1..], q, comp, status);
      assert all == [all[0]] + all[1..];
      assert multiset(all) == multiset([all[0]]) + multiset(all[1..]);
      assert multiset(head + rest) == multiset(head) + multiset(rest);
    }
  }

  lemma {:induction false} FilterKeepsAll(all: seq<Fixture>)
    ensures FilterView(all, "", "all", "all") == all
    decreases |all|
  {
    if all != [] {
      FilterKeepsAll(all[1..]);
      assert Matches(all[0], "", "all", "all");
      assert all == [all[0]] + all[1..];
    }
  }

  /** The view `apply` leaves: the matching fixtures in comparator order. */
  function View(all: seq<Fixture>, search: string, comp: string, status: string, key: string, dir: Dir): seq<Fixture> {
    Sort(FilterView(all, Query(search), Choice(comp), Choice(status)), Le(key, dir))
  }

  /** `apply`'s view is sorted and holds the matching fixtures, nothing else. */
  lemma ViewLaws(all: seq<Fixture>, search: string, comp: string, status: string, key: string, dir: Dir)
    ensures var v := View(all, search, comp, status, key, dir);
      Sorted(v, Le(key, dir))
      && multiset(v) == multiset(FilterView(all, Query(search), Choice(comp), Choice(status)))
      && multiset(v) <= multiset(all)
      && forall f :: f in v <==> f in all && Matches(f, Query(search), Choice(comp), Choice(status))
  {
    var filtered := FilterView(all, Query(search), Choice(comp), Choice(status));
    LeIsOrder(key, dir);
    SortCorrect(filtered, Le(key, dir));
    FilterLaws(all, Query(search), Choice(comp), Choice(status));
    var v := View(all, search, comp, status, key, dir);
    forall f ensures f in v <==> f in filtered {
      assert f in v <==> f in multiset(v);
      assert f in filtered <==> f in multiset(filtered);
    }
  }

  // ------------------------------------------------------------------
  // Sort key toggling
  // ------------------------------------------------------------------

  /** `setSort(key)`: the same key flips the direction, a new key sorts ascending. */
  function NextSort(current: string, dir: Dir, key: string): (string, Dir) {
    if current == key then (key, if dir == Asc then Desc else Asc) else (key, Asc)
  }

  /** Choosing a key always sorts by it; choosing it twice comes back to where it was. */
  lemma NextSortLaws(current: string, dir: Dir, key: string)
    ensures NextSort(current, dir, key).0 == key
    ensures current != key ==> NextSort(current, dir, key).1 == Asc
    ensures current == key ==> NextSort(current, dir, key).1 != dir
    ensures var (k, d) := NextSort(current, dir, key); current == key ==> NextSort(k, d, key) == (current, dir)
    ensures var (k, d) := NextSort(current, dir, key); current != key ==> NextSort(k, d, key) == (key, Desc)
  {
  }

  // ------------------------------------------------------------------
  // Pages
  // ------------------------------------------------------------------

  /** `Math.max(1, Math.ceil(total / pageSize))` */
  function Pages(total: nat, pageSize: int): int
    requires pageSize > 0
  {
    var c := (total + pageSize - 1) / pageSize;
    if c > 1 then c else 1
  }

  /** `view.slice(start, start + pageSize)` with `start = (page - 1) * pageSize`. */
  function Rows(view: seq<Fixture>, page: int, pageSize: int): seq<Fixture>
    requires page >= 1 && pageSize > 0
  {
    var start := (page - 1) * pageSize;
    var lo := if start < |view| then start else |view|;
    var hi := if start + pageSize < |view| then start + pageSize else |view|;
    view[lo..hi]
  }

  lemma CeilDiv(total: nat, pageSize: int)
    requires pageSize > 0
    ensures var c := (total + pageSize - 1) / pageSize; c >= 0 && (total > 0 ==> (c - 1) * pageSize < total)
    ensures var c := (total + pageSize - 1) / pageSize; total <= c * pageSize
  {
    var c := (total + pageSize - 1) / pageSize;
    var r := (total + pageSize - 1) % pageSize;
    assert total + pageSize - 1 == c * pageSize + r && 0 <= r < pageSize;
  }

  /**
   * There is always at least one page, enough pages to hold every
   * fixture and no empty page beyond the first; the rows of a page in
   * range are the page's slice of the view, at most a page long, and
   * there are rows whenever there are fixtures.
   */
  lemma PagingLaws(view: seq<Fixture>, page: int, pageSize: int)
    requires pageSize > 0 && 1 <= page <= Pages(|view|, pageSize)
    ensures Pages(|view|, pageSize) >= 1
    ensures |view| <= Pages(|view|, pageSize) * pageSize
    ensures |view| > 0 ==> (Pages(|view|, pageSize) - 1) * pageSize < |view|
    ensures |Rows(view, page, pageSize)| <= pageSize
    ensures |view| > 0 ==> Rows(view, page, pageSize) != []
    ensures forall i :: 0 <= i < |Rows(view, page, pageSize)| ==>
      Rows(view, page, pageSize)[i] == view[(page - 1) * pageSize + i]
  {
    PagesBounds(|view|, pageSize);
    if |view| > 0 {
      MulMonotone(page - 1, Pages(|view|, pageSize) - 1, pageSize);
    }
    RowsSlice(view, page, pageSize);
  }

  lemma PagesBounds(total: nat, pageSize: int)
    requires pageSize > 0
    ensures Pages(total, pageSize) >= 1
    ensures total <= Pages(total, pageSize) * pageSize
    ensures total > 0 ==> (Pages(total, pageSize) - 1) * pageSize < total
  {
    CeilDiv(total, pageSize);
    var c := (total + pageSize - 1) / pageSize;
    if c <= 1 {
      MulMonotone(c, 1, pageSize);
    }
  }

  lemma MulMonotone(a: int, b: int, k: int)
    requires 0 <= a <= b && k >= 0
    ensures a * k <= b * k
  {
  }

  /** A page's rows are its slice of the view, at most a page long. */
  lemma RowsSlice(view: seq<Fixture>, page: int, pageSize: int)
    requires pageSize > 0 && page >= 1
    ensures |Rows(view, page, pageSize)| <= pageSize
    ensures (page - 1) * pageSize < |view| ==> Rows(view, page, pageSize) != []
    ensures forall i :: 0 <= i < |Rows(view, page, pageSize)| ==>
      Rows(view, page, pageSize)[i] == view[(page - 1) * pageSize + i]
  {
  }

  /** `Math.min(page, pages)` */
  function ClampPage(page: int, pages: int): int {
    if page < pages then page else pages
  }

  /** The pagination bar: which buttons are disabled and the numbered pages it offers. */
  datatype Bar = Bar(firstDisabled: bool, prevDisabled: bool, numbers: seq<int>, current: int,
    nextDisabled: bool, lastDisabled: bool)

  /** `start = max(1, page - 2)`, `end = min(pages, start + 4)` */
  function WindowStart(page: int): int {
    if page - 2 > 1 then page - 2 else 1
  }

  function WindowEnd(page: int, pages: int): int {
    var s := WindowStart(page);
    if pages < s + 4 then pages else s + 4
  }

  function Range(lo: int, hi: int): (r: seq<int>)
    ensures |r| == if hi < lo then 0 else hi - lo + 1
    ensures forall i :: 0 <= i < |r| ==> r[i] == lo + i
    decreases hi - lo
  {
    if hi < lo then [] else [lo] + Range(lo + 1, hi)
  }

  /** `renderPagination(pages)` */
  function PaginationBar(page: int, pages: int): Bar {
    Bar(page == 1, page == 1, Range(WindowStart(page), WindowEnd(page, pages)), page, page == pages, page == pages)
  }

  /**
   * At most five consecutive numbered pages are offered, all of them real
   * pages, the current one among them; First/Previous are disabled exactly
   * on the first page and Next/Last exactly on the last.
   */
  lemma BarLaws(page: int, pages: int)
    requires 1 <= page <= pages
    ensures var b := PaginationBar(page, pages);
      1 <= |b.numbers| <= 5 && page in b.numbers
      && (forall i :: 0 <= i < |b.numbers| ==> 1 <= b.numbers[i] <= pages)
      && (forall i :: 0 < i < |b.numbers| ==> b.numbers[i] == b.numbers[i - 1] + 1)
    ensures var b := PaginationBar(page, pages);
      (b.firstDisabled <==> page == 1) && (b.prevDisabled <==> page == 1)
      && (b.nextDisabled <==> page == pages) && (b.lastDisabled <==> page == pages)
    ensures pages >= 5 && page == pages ==> |PaginationBar(page, pages).numbers| == 3
  {
    var b := PaginationBar(page, pages);
    assert b.numbers[page - WindowStart(page)] == page;
  }

  // ------------------------------------------------------------------
  // The API transform
  // ------------------------------------------------------------------

  /** One match as the fixtures API returns it. */
  datatype ApiMatch = ApiMatch(homeTeam: string, awayTeam: string, homeScore: Option<int>, awayScore: Option<int>,
    date: int, location: Option<string>, roundNumber: Value)

  predicate IsBarca(name: string) {
    name == "FC Barcelona" || name == "Barcelona"
  }

  /** `transform`'s map for one match: Barcelona's point of view. */
  function FromApi(m: ApiMatch, competition: string): Fixture {
    var home := IsBarca(m.homeTeam);
    var gf := if home then m.homeScore else m.awayScore;
    var ga := if home then m.awayScore else m.homeScore;
    var finished := gf.Some? && ga.Some?;
    var n := ToNumber(m.roundNumber);
    Fixture(
      m.date,
      if home then m.awayTeam else m.homeTeam,
      m.location.GetOr(""),
      competition,
      if finished then "Finished" else "Scheduled",
      if finished then Some(IntToString(gf.value) + "\U{2013}" + IntToString(ga.value)) else None,
      if n.Some? && n.value != 0 then Some(n.value) else None,
      home)
  }

  /** `items.map(...)`: one fixture per API match, each the match seen from Barcelona's side. */
  function Transform(items: seq<ApiMatch>, competition: string): (r: seq<Fixture>)
    ensures |r| == |items|
    ensures forall i :: 0 <= i < |r| ==> r[i] == FromApi(items[i], competition)
  {
    if items == [] then [] else [FromApi(items[0], competition)] + Transform(items[1..], competition)
  }

  /**
   * A fixture is at home exactly when Barcelona are the home team, the
   * opponent is the other team, and it is finished exactly when both
   * scores are known, its score written Barcelona's goals first.
   */
  lemma FromApiLaws(m: ApiMatch, competition: string)
    ensures var f := FromApi(m, competition);
      (f.home <==> IsBarca(m.homeTeam))
      && f.opponent == (if IsBarca(m.homeTeam) then m.awayTeam else m.homeTeam)
      && f.competition == competition
      && (f.status == "Finished" <==> m.homeScore.Some? && m.awayScore.Some?)
      && (f.status == "Finished" || f.status == "Scheduled")
      && (f.score.Some? <==> f.status == "Finished")
    ensures m.homeScore.Some? && m.awayScore.Some? ==>
      var f := FromApi(m, competition);
      var (gf, ga) := if IsBarca(m.homeTeam) then (m.homeScore.value, m.awayScore.value)
        else (m.awayScore.value, m.homeScore.value);
      f.score == Some(IntToString(gf) + "\U{2013}" + IntToString(ga))
    ensures FromApi(m, competition).round.Some? ==> FromApi(m, competition).round.value != 0
  {
  }

  /** The fixtures of both competitions, league first. */
  function AllFixtures(liga: seq<ApiMatch>, ucl: seq<ApiMatch>): seq<Fixture> {
    Transform(liga, "La Liga") + Transform(ucl, "Champions League")
  }

  lemma {:induction false} TransformCompetition(items: seq<ApiMatch>, competition: string)
    ensures forall f :: f in Transform(items, competition) ==> f.competition == competition
    decreases |items|
  {
    if items != [] {
      TransformCompetition(items[1..], competition);
    }
  }

  // ------------------------------------------------------------------
  // The competition list
  // ------------------------------------------------------------------

  /** `new Set(names)` in insertion order. */
  function Distinct(names: seq<string>): (r: seq<string>)
    ensures forall x :: x in r <==> x in names
    ensures forall i, j :: 0 <= i < j < |r| ==> r[i] != r[j]
    decreases |names|
  {
    if names == [] then []
    else
      var rest := Distinct(names[..|names| - 1]);
      var last := names[|names| - 1];
      assert names == names[..|names| - 1] + [last];
      if last in rest then rest else rest + [last]
  }

  function Competitions(all: seq<Fixture>): (r: seq<string>)
    ensures |r| == |all| && forall i :: 0 <= i < |all| ==> r[i] == all[i].competition
  {
    if all == [] then [] else [all[0].competition] + Competitions(all[1..])
  }

  /** `Array.from(new Set(all.map((x) => x.competition))).sort()` */
  function CompetitionList(all: seq<Fixture>): seq<string> {
    Sort(Distinct(Competitions(all)), TextLe)
  }

  /** A repeated element occurs at least twice in the multiset. */
  lemma Repeated(r: seq<string>, i: nat, j: nat)
    requires i < j < |r| && r[i] == r[j]
    ensures multiset(r)[r[i]] >= 2
  {
    assert r == r[..j] + [r[j]] + r[j + 1..];
    assert r[..j][i] == r[i];
    assert multiset(r[..j])[r[i]] >= 1;
  }

  lemma {:induction false} DistinctOnce(d: seq<string>, x: string)
    requires forall i, j :: 0 <= i < j < |d| ==> d[i] != d[j]
    ensures multiset(d)[x] <= 1
    decreases |d|
  {
    if d != [] {
      DistinctOnce(d[1..], x);
      assert d == [d[0]] + d[1..];
      if d[0] == x {
        assert x !in d[1..] by {
          forall k | 0 <= k < |d[1..]| ensures d[1..][k] != x {
            assert d[1..][k] == d[k + 1];
          }
        }
      }
    }
  }

  /** A permutation of a list without repeats has none either. */
  lemma PermutationDistinct(d: seq<string>, r: seq<string>)
    requires multiset(r) == multiset(d)
    requires forall i, j :: 0 <= i < j < |d| ==> d[i] != d[j]
    ensures forall i, j :: 0 <= i < j < |r| ==> r[i] != r[j]
  {
    forall i, j | 0 <= i < j < |r| ensures r[i] != r[j] {
      if r[i] == r[j] {
        Repeated(r, i, j);
        DistinctOnce(d, r[i]);
      }
    }
  }

  /** The competition list names each competition of the fixtures once, in order. */
  lemma CompetitionListLaws(all: seq<Fixture>)
    ensures var r := CompetitionList(all);
      Sorted(r, TextLe)
      && (forall c :: c in r <==> exists f :: f in all && f.competition == c)
      && (forall i, j :: 0 <= i < j < |r| ==> r[i] != r[j])
  {
    var d := Distinct(Competitions(all));
    TextOrder();
    SortCorrect(d, TextLe);
    var r := CompetitionList(all);
    PermutationDistinct(d, r);
    forall c ensures c in r <==> exists f :: f in all && f.competition == c {
      assert c in r <==> c in multiset(r);
      assert c in d <==> c in multiset(d);
      if c in d {
        var i :| 0 <= i < |all| && Competitions(all)[i] == c;
        assert all[i] in all;
      }
      if exists f :: f in all && f.competition == c {
        var f :| f in all && f.competition == c;
        var i :| 0 <= i < |all| && all[i] == f;
        assert Competitions(all)[i] == c;
      }
    }
  }

  /** A sorted list without repeats holding exactly two strings lists them in order. */
  /** A list without repeats drawn from a set is no longer than the set. */
  lemma {:induction false} DistinctWithin(r: seq<string>, S: set<string>)
    requires forall i, j :: 0 <= i < j < |r| ==> r[i] != r[j]
    requires forall i :: 0 <= i < |r| ==> r[i] in S
    ensures |r| <= |S|
    decreases |r|
  {
    if r != [] {
      var rest := r[1..];
      forall i | 0 <= i < |rest| ensures rest[i] in S - {r[0]} {
        assert rest[i] == r[i + 1];
      }
      forall i, j | 0 <= i < j < |rest| ensures rest[i] != rest[j] {
        assert rest[i] == r[i + 1] && rest[j] == r[j + 1];
      }
      DistinctWithin(rest, S - {r[0]});
    }
  }

  lemma TwoInOrder(r: seq<string>, x: string, y: string)
    requires Sorted(r, TextLe) && x != y && TextLe(x, y)
    requires forall i, j :: 0 <= i < j < |r| ==> r[i] != r[j]
    requires forall c :: c in r <==> c == x || c == y
    ensures r == [x, y]
  {
    assert x in r && y in r;
    forall i | 0 <= i < |r| ensures r[i] in {x, y} {
      assert r[i] in r;
    }
    DistinctWithin(r, {x, y});
    if r[0] == y {
      assert TextLe(r[0], r[1]) && r[1] == x;
      TextLeAntisymmetric(x, y);
    }
  }

  lemma TransformNonEmpty(items: seq<ApiMatch>, competition: string)
    requires items != []
    ensures Transform(items, competition)[0].competition == competition
  {
  }

  /** With fixtures of both competitions, the list is Champions League, then La Liga. */
  lemma BothCompetitions(liga: seq<ApiMatch>, ucl: seq<ApiMatch>)
    requires liga != [] && ucl != []
    ensures CompetitionList(AllFixtures(liga, ucl)) == ["Champions League", "La Liga"]
  {
    var all := AllFixtures(liga, ucl);
    var a := Transform(liga, "La Liga");
    var b := Transform(ucl, "Champions League");
    TransformCompetition(liga, "La Liga");
    TransformCompetition(ucl, "Champions League");
    TransformNonEmpty(liga, "La Liga");
    TransformNonEmpty(ucl, "Champions League");
    assert all[0] == a[0] && all[|a|] == b[0];
    CompetitionListLaws(all);
    var r := CompetitionList(all);
    forall c ensures c in r <==> c == "Champions League" || c == "La Liga" {
      if c in r {
        var f :| f in all && f.competition == c;
        assert f in a || f in b;
      }
      if c == "La Liga" { assert all[0] in all; }
      if c == "Champions League" { assert all[|a|] in all; }
    }
    assert TextLe("Champions League", "La Liga");
    TwoInOrder(r, "Champions League", "La Liga");
  }

  // ------------------------------------------------------------------
  // The table
  // ------------------------------------------------------------------

  /** The page's module state: the fixtures, the view, the sort and the page, and the filter controls. */
  class Table {
    var all: seq<Fixture>
    var view: seq<Fixture>
    var sortKey: string
    var sortDir: Dir
    var page: int
    var pageSize: int
    var search: string
    var comp: string
    var status: string
    var comps: seq<string>

    predicate Valid()
      reads this
    {
      pageSize > 0 && 1 <= page <= Pages(|view|, pageSize)
    }

    constructor ()
      ensures Valid() && all == [] && view == [] && sortKey == "date" && sortDir == Asc
      ensures page == 1 && pageSize == 8 && search == "" && comp == "" && status == "" && comps == []
    {
      all := [];
      view := [];
      sortKey := "date";
      sortDir := Asc;
      page := 1;
      pageSize := 8;
      search := "";
      comp := "";
      status := "";
      comps := [];
    }

    /** `render()`: the page is clamped to the last page and its rows are shown. */
    method Render() returns (rows: seq<Fixture>, bar: Bar)
      requires pageSize > 0 && page >= 1
      modifies this`page
      ensures Valid() && page == ClampPage(old(page), Pages(|view|, pageSize))
      ensures rows == Rows(view, page, pageSize) && bar == PaginationBar(page, Pages(|view|, pageSize))
    {
      var pages := Pages(|view|, pageSize);
      page := if page < pages then page else pages;
      rows := Rows(view, page, pageSize);
      bar := PaginationBar(page, pages);
    }

    /** `apply()`: filter, sort, back to page 1, render. */
    method Apply() returns (rows: seq<Fixture>, bar: Bar)
      requires pageSize > 0
      modifies this`view, this`page
      ensures Valid() && view == View(all, search, comp, status, sortKey, sortDir) && page == 1
      ensures rows == Rows(view, 1, pageSize) && bar == PaginationBar(1, Pages(|view|, pageSize))
    {
      view := Sort(FilterView(all, Query(search), Choice(comp), Choice(status)), Le(sortKey, sortDir));
      page := 1;
      rows, bar := Render();
    }

    /** Typing in the search box or choosing a competition or a status re-applies the filter. */
    method SetFilters(search': string, comp': string, status': string) returns (rows: seq<Fixture>, bar: Bar)
      requires pageSize > 0
      modifies this`search, this`comp, this`status, this`view, this`page
      ensures search == search' && comp == comp' && status == status'
      ensures Valid() && view == View(all, search', comp', status', sortKey, sortDir) && page == 1
      ensures rows == Rows(view, 1, pageSize)
    {
      search, comp, status := search', comp', status';
      rows, bar := Apply();
    }

    /** `setSort(key)` */
    method SetSort(key: string) returns (rows: seq<Fixture>, bar: Bar)
      requires pageSize > 0
      modifies this`sortKey, this`sortDir, this`view, this`page
      ensures (sortKey, sortDir) == NextSort(old(sortKey), old(sortDir), key)
      ensures Valid() && view == View(all, search, comp, status, sortKey, sortDir) && page == 1
    {
      if sortKey == key {
        sortDir := if sortDir == Asc then Desc else Asc;
      } else {
        sortKey := key;
        sortDir := Asc;
      }
      rows, bar := Apply();
    }

    /** A click on the bar: First, Previous, a numbered page, Next or Last; a disabled button does nothing. */
    method First() returns (rows: seq<Fixture>, bar: Bar)
      requires Valid()
      modifies this`page
      ensures Valid() && page == 1 && rows == Rows(view, 1, pageSize)
    {
      page := 1;
      rows, bar := Render();
    }

    method Previous()
      requires Valid()
      modifies this`page
      ensures Valid() && page == if old(page) == 1 then 1 else old(page) - 1
    {
      if page == 1 {
        return;
      }
      page := page - 1;
      var rows, bar := Render();
    }

    method Next()
      requires Valid()
      modifies this`page
      ensures Valid()
      ensures page == if old(page) == Pages(|view|, pageSize) then old(page) else old(page) + 1
    {
      if page == Pages(|view|, pageSize) {
        return;
      }
      page := page + 1;
      var rows, bar := Render();
    }

    method Last() returns (rows: seq<Fixture>, bar: Bar)
      requires Valid()
      modifies this`page
      ensures Valid() && page == Pages(|view|, pageSize)
    {
      page := Pages(|view|, pageSize);
      rows, bar := Render();
    }

    method GoTo(p: int) returns (rows: seq<Fixture>, bar: Bar)
      requires Valid() && p in PaginationBar(page, Pages(|view|, pageSize)).numbers
      modifies this`page
      ensures Valid() && page == p && rows == Rows(view, p, pageSize)
    {
      BarLaws(page, Pages(|view|, pageSize));
      page := p;
      rows, bar := Render();
    }

    /** The page-size select: `Number(value || 8)`, then `apply()`. */
    method SetPageSize(value: string) returns (rows: seq<Fixture>, bar: Bar)
      requires value == "" || (StringToNumber(value).Some? && StringToNumber(value).value > 0)
      modifies this`pageSize, this`view, this`page
      ensures pageSize == (if value == "" then 8 else StringToNumber(value).value)
      ensures Valid() && view == View(all, search, comp, status, sortKey, sortDir) && page == 1
    {
      pageSize := if value == "" then 8 else StringToNumber(value).value;
      rows, bar := Apply();
    }

    /** `load()` once both responses are in: the fixtures, the competition list, then `apply()`. */
    method Load(liga: seq<ApiMatch>, ucl: seq<ApiMatch>) returns (rows: seq<Fixture>, bar: Bar)
      requires pageSize > 0
      modifies this`all, this`comps, this`view, this`page
      ensures all == AllFixtures(liga, ucl) && comps == CompetitionList(all)
      ensures Valid() && view == View(all, search, comp, status, sortKey, sortDir) && page == 1
    {
      all := AllFixtures(liga, ucl);
      comps := CompetitionList(all);
      rows, bar := Apply();
    }
  }
}
