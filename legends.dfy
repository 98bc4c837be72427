/**
 * The legends page: the timeline filter by search text and stage, the stat
 * chips each card shows, the stat list of the details view, and the page
 * state `loadData` and `applyFilters` update.
 */
module Legends {
  import opened JsValues
  import opened Seqs
  import Rum

  /** The tag `boot()` sends first, naming the page group "Legends". */
  const BootTag: seq<Value> := [Str("pageGroup"), Str("Legends")]

  /** The boot tag makes "Legends" the page group and keeps logging and the tracepoints. */
  lemma BootTagged(r: Rum.Rec)
    ensures Rum.Dispatch(r, BootTag).rec.settings == r.settings.(pageGroup := "Legends")
  {
    Rum.PageGroupTagged(r, "Legends");
  }

  /** One entry of the legends data; `stats` may be missing. */
  datatype Legend = Legend(
    id: string, title: string, summary: string, stage: string,
    range: string, detail: string, stats: Option<seq<string>>)

  /** `item.stats || []` */
  function Stats(item: Legend): seq<string> {
    item.stats.GetOr([])
  }

  /** `(search.value || '').trim().toLowerCase()`; no search box reads as empty. */
  function Query(search: Option<string>): string {
    Lower(Trim(search.GetOr("")))
  }

  /** `(filter.value || 'all').toLowerCase()`: the stage is lower-cased but not trimmed. */
  function StageChoice(filter: Option<string>): string {
    Lower(if filter.Some? && filter.value != "" then filter.value else "all")
  }

  /** The search test: an empty query matches; otherwise title, summary or a stat must contain it. */
  predicate MatchesQuery(it: Legend, q: string) {
    q == "" || Contains(Lower(it.title), q) || Contains(Lower(it.summary), q)
    || exists s :: s in Stats(it) && Contains(Lower(s), q)
  }

  predicate MatchesStage(it: Legend, stage: string) {
    stage == "all" || Lower(it.stage) == stage
  }

  /** The `allItems.filter(...)` of `applyFilters`. */
  function Filtered(all: seq<Legend>, q: string, stage: string): seq<Legend> {
    Keep(all, (it: Legend) => MatchesQuery(it, q) && MatchesStage(it, stage))
  }

  /**
   * An item stays iff it matches both the query and the stage, the kept
   * items keep their order, and with no query and stage "all" every item
   * stays.
   */
  lemma FilteredLaws(all: seq<Legend>, q: string, stage: string)
    ensures forall it :: it in Filtered(all, q, stage) <==>
      it in all && MatchesQuery(it, q) && MatchesStage(it, stage)
    ensures Subsequence(Filtered(all, q, stage), all) && |Filtered(all, q, stage)| <= |all|
    ensures q == "" && stage == "all" ==> Filtered(all, q, stage) == all
  {
    KeepLaws(all, (it: Legend) => MatchesQuery(it, q) && MatchesStage(it, stage));
  }

  /** The stage test ignores the case of the item's stage and of the chosen one. */
  lemma StageIgnoresCase(it: Legend, filter: string)
    requires filter != "" && Lower(filter) != "all"
    ensures MatchesStage(it, StageChoice(Some(filter))) <==> Lower(it.stage) == Lower(filter)
  {
  }

  /** The chips of a timeline card: `stats.slice(0, 4)`. */
  function Chips(item: Legend): (r: seq<string>)
    ensures |r| <= 4 && IsPrefixOf(r, Stats(item))
    ensures |Stats(item)| <= 4 ==> r == Stats(item)
    ensures |Stats(item)| > 4 ==> |r| == 4
  {
    var s := Stats(item);
    if |s| <= 4 then s else s[..4]
  }

  predicate IsPrefixOf<T(==)>(p: seq<T>, s: seq<T>) {
    |p| <= |s| && s[..|p|] == p
  }

  /** What the details view lists under "Stat chips". */
  datatype StatList = Listed(stats: seq<string>) | NoStats

  /** `statList || '<li class="muted">No stats.</li>'` */
  function DetailStats(item: Legend): (r: StatList)
    ensures r == NoStats <==> Stats(item) == []
    ensures r.Listed? ==> r.stats == Stats(item)
  {
    if Stats(item) == [] then NoStats else Listed(Stats(item))
  }

  /** `allItems.find((x) => x.id === id)`, the item a Details button opens. */
  function FindLegend(all: seq<Legend>, id: string): (r: Option<Legend>)
    ensures r.Some? ==> r.value in all && r.value.id == id
    ensures r.Some? ==> exists i :: 0 <= i < |all| && all[i] == r.value && forall j :: 0 <= j < i ==> all[j].id != id
    ensures r.None? ==> forall it :: it in all ==> it.id != id
  {
    Find(all, (x: Legend) => x.id == id)
  }

  /** The page's items, the filtered view and the count it shows. */
  class Page {
    /** Whether the timeline element exists; without it nothing is rendered. */
    const hasTimeline: bool
    var allItems: seq<Legend>
    var filtered: seq<Legend>
    var count: string

    constructor (hasTimeline: bool)
      ensures this.hasTimeline == hasTimeline && allItems == [] && filtered == [] && count == ""
    {
      this.hasTimeline := hasTimeline;
      allItems, filtered, count := [], [], "";
    }

    /** `renderTimeline()`: the count shows the number of filtered items. */
    method Render()
      modifies this
      ensures allItems == old(allItems) && filtered == old(filtered)
      ensures count == if hasTimeline then IntToString(|filtered|) else old(count)
    {
      if !hasTimeline {
        return;
      }
      count := IntToString(|filtered|);
    }

    /**
     * `loadData()` with the outcome of the fetch: a failure (network, HTTP
     * status, JSON) leaves the page as it was; a success shows every item.
     */
    method Load(response: Option<seq<Legend>>)
      modifies this
      ensures response.None? ==> allItems == old(allItems) && filtered == old(filtered) && count == old(count)
      ensures response.Some? ==> allItems == response.value && filtered == allItems
      ensures response.Some? && hasTimeline ==> count == IntToString(|response.value|)
      ensures !hasTimeline ==> count == old(count)
    {
      if response.None? {
        return;
      }
      allItems := response.value;
      filtered := allItems;
      Render();
    }

    /** `applyFilters()` with the search box and stage select values (`None` when missing). */
    method ApplyFilters(search: Option<string>, filter: Option<string>)
      modifies this
      ensures allItems == old(allItems)
      ensures filtered == Filtered(allItems, Query(search), StageChoice(filter))
      ensures hasTimeline ==> count == IntToString(|filtered|)
      ensures !hasTimeline ==> count == old(count)
    {
      filtered := Filtered(allItems, Query(search), StageChoice(filter));
      Render();
    }
  }

  /** Filtering with an empty search and no stage chosen shows everything that was loaded. */
  lemma ClearedFiltersShowAll(all: seq<Legend>)
    ensures Filtered(all, Query(None), StageChoice(None)) == all
    ensures Filtered(all, Query(Some("  ")), StageChoice(Some(""))) == all
  {
    assert Trim("") == "";
    assert Lower("all") == "all";
    assert Trim("  ") == "" by {
      assert AllSpace("  ");
      TrimShape("  ");
    }
    FilteredLaws(all, "", "all");
  }
}
