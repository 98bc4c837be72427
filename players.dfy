/**
 * The players page: the favourites list (ids, without repeats), the rows
 * and count its drawer shows, the drawer's open state, and the guard that
 * boots the page once.
 */
module Players {
  import opened JsValues
  import opened Seqs

  predicate NoRepeats(s: seq<string>) {
    forall i, j :: 0 <= i < j < |s| ==> s[i] != s[j]
  }

  /** `favs.includes(id) ? favs : [...favs, id]` */
  function Added(favs: seq<string>, id: string): seq<string> {
    if id in favs then favs else favs + [id]
  }

  /** `favs.filter((x) => x !== id)` */
  function Removed(favs: seq<string>, id: string): seq<string> {
    if favs == [] then []
    else (if favs[0] == id then [] else [favs[0]]) + Removed(favs[1..], id)
  }

  /**
   * Adding keeps the list free of repeats: a present id changes nothing,
   * an absent one goes to the end.
   */
  lemma AddedLaws(favs: seq<string>, id: string)
    requires NoRepeats(favs)
    ensures NoRepeats(Added(favs, id)) && id in Added(favs, id)
    ensures id in favs ==> Added(favs, id) == favs
    ensures id !in favs ==> Added(favs, id) == favs + [id] && |Added(favs, id)| == |favs| + 1
    ensures Added(Added(favs, id), id) == Added(favs, id)
  {
  }

  lemma RemovedCons(x: string, rest: seq<string>, id: string)
    ensures Removed([x] + rest, id) == (if x == id then [] else [x]) + Removed(rest, id)
  {
    assert ([x] + rest)[0] == x && ([x] + rest)[1..] == rest;
  }

  lemma {:induction false} RemovedAppend(a: seq<string>, b: seq<string>, id: string)
    ensures Removed(a + b, id) == Removed(a, id) + Removed(b, id)
    decreases |a|
  {
    if a == [] {
      assert a + b == b;
    } else {
      assert a + b == [a[0]] + (a[1..] + b);
      RemovedCons(a[0], a[1..] + b, id);
      RemovedAppend(a[1..], b, id);
    }
  }

  /**
   * Removing drops every occurrence of the id and keeps the others, in
   * order; with no occurrence it changes nothing.
   */
  lemma {:induction false} RemovedLaws(favs: seq<string>, id: string)
    ensures id !in Removed(favs, id)
    ensures forall x :: x in Removed(favs, id) <==> x in favs && x != id
    ensures id !in favs ==> Removed(favs, id) == favs
    ensures NoRepeats(favs) ==> NoRepeats(Removed(favs, id))
    ensures |Removed(favs, id)| <= |favs|
    decreases |favs|
  {
    if favs != [] {
      RemovedLaws(favs[1..], id);
      assert favs == [favs[0]] + favs[1..];
      if NoRepeats(favs) {
        var rest := Removed(favs[1..], id);
        assert NoRepeats(favs[1..]) by {
          forall i, j | 0 <= i < j < |favs[1..]| ensures favs[1..][i] != favs[1..][j] {
            assert favs[1..][i] == favs[i + 1] && favs[1..][j] == favs[j + 1];
          }
        }
        assert favs[0] !in favs[1..] by {
          forall k | 0 <= k < |favs[1..]| ensures favs[1..][k] != favs[0] {
            assert favs[1..][k] == favs[k + 1];
          }
        }
        if favs[0] != id {
          var r := [favs[0]] + rest;
          forall i, j | 0 <= i < j < |r| ensures r[i] != r[j] {
            if i == 0 {
              assert r[j] == rest[j - 1] && rest[j - 1] in rest;
            } else {
              assert r[i] == rest[i - 1] && r[j] == rest[j - 1];
            }
          }
        }
      }
    }
  }

  /** Adding an id that was not a favourite and removing it again gives the list back. */
  lemma AddRemoveRoundTrip(favs: seq<string>, id: string)
    requires id !in favs
    ensures Removed(Added(favs, id), id) == favs
  {
    RemovedAppend(favs, [id], id);
    RemovedLaws(favs, id);
    RemovedCons(id, [], id);
  }

  // ------------------------------------------------------------------
  // The drawer's rows and count
  // ------------------------------------------------------------------

  datatype Player = Player(id: string, name: string, position: string)

  /** `players.find((x) => x.id === id)` */
  function FindPlayer(players: seq<Player>, id: string): (r: Option<Player>)
    ensures r.Some? ==> r.value in players && r.value.id == id
    ensures r.Some? ==> exists i :: 0 <= i < |players| && players[i] == r.value && forall j :: 0 <= j < i ==> players[j].id != id
    ensures r.None? ==> forall p :: p in players ==> p.id != id
  {
    Find(players, (x: Player) => x.id == id)
  }

  /** The rows `renderCart` writes: one per favourite that names a known player, in favourite order. */
  function Rows(favs: seq<string>, players: seq<Player>): seq<Player> {
    if favs == [] then []
    else
      var p := FindPlayer(players, favs[0]);
      (if p.Some? then [p.value] else []) + Rows(favs[1..], players)
  }

  /**
   * Every row is a known player among the favourites, each known favourite
   * gets a row, and there are never more rows than the count shown
   * (`favs.length`).
   */
  lemma {:induction false} RowsLaws(favs: seq<string>, players: seq<Player>)
    ensures |Rows(favs, players)| <= |favs|
    ensures forall p :: p in Rows(favs, players) ==> p in players && p.id in favs
    ensures forall id :: id in favs && FindPlayer(players, id).Some? ==> FindPlayer(players, id).value in Rows(favs, players)
    ensures (forall id :: id in favs ==> FindPlayer(players, id).Some?) ==> |Rows(favs, players)| == |favs|
    decreases |favs|
  {
    if favs != [] {
      RowsLaws(favs[1..], players);
      assert favs == [favs[0]] + favs[1..];
      forall id | id in favs[1..] ensures id in favs { }
    }
  }

  /** The favourites as the page keeps them. */
  class Favorites {
    var favs: seq<string>

    predicate Valid()
      reads this
    {
      NoRepeats(favs)
    }

    constructor (stored: seq<string>)
      requires NoRepeats(stored)
      ensures Valid() && favs == stored
    {
      favs := stored;
    }

    /** `addToFavorites(id)` */
    method Add(id: string)
      requires Valid()
      modifies this
      ensures Valid() && favs == Added(old(favs), id)
    {
      if id !in favs {
        favs := favs + [id];
      }
    }

    /** `removeFromFavorites(id)` */
    method Remove(id: string)
      requires Valid()
      modifies this
      ensures Valid() && favs == Removed(old(favs), id)
    {
      var kept: seq<string> := [];
      var i := 0;
      var src := favs;
      while i < |src|
        invariant 0 <= i <= |src|
        invariant kept + Removed(src[i..], id) == Removed(src, id)
      {
        assert src[i..] == [src[i]] + src[i + 1..];
        RemovedCons(src[i], src[i + 1..], id);
        var head: seq<string> := if src[i] == id then [] else [src[i]];
        assert kept + Removed(src[i..], id) == (kept + head) + Removed(src[i + 1..], id);
        kept := kept + head;
        i := i + 1;
      }
      assert src[i..] == [] && kept + [] == kept;
      RemovedLaws(src, id);
      favs := kept;
    }
  }

  // ------------------------------------------------------------------
  // The drawer
  // ------------------------------------------------------------------

  class Drawer {
    /** Whether both the drawer and its overlay are on the page. */
    const present: bool
    var drawerOpen: bool
    var overlayShown: bool
    var ariaHidden: string
    var overlayDisplay: string
    var bodyNoScroll: bool

    /** Every flag agrees with `open`. */
    predicate Shows(open: bool)
      reads this
    {
      drawerOpen == open && overlayShown == open && bodyNoScroll == open
      && ariaHidden == (if open then "false" else "true")
      && overlayDisplay == (if open then "block" else "none")
    }

    constructor (present: bool)
      ensures this.present == present && Shows(false)
    {
      this.present := present;
      drawerOpen, overlayShown, bodyNoScroll := false, false, false;
      ariaHidden, overlayDisplay := "true", "none";
    }

    /** `openDrawer(open)`: without the drawer or the overlay, nothing changes. */
    method Open(open: bool)
      modifies this
      ensures present ==> Shows(open)
      ensures !present ==>
        (drawerOpen == old(drawerOpen) && overlayShown == old(overlayShown)
        && ariaHidden == old(ariaHidden) && overlayDisplay == old(overlayDisplay) && bodyNoScroll == old(bodyNoScroll))
    {
      if !present {
        return;
      }
      drawerOpen := open;
      overlayShown := open;
      ariaHidden := if open then "false" else "true";
      overlayDisplay := if open then "block" else "none";
      bodyNoScroll := open;
    }
  }

  // ------------------------------------------------------------------
  // Boot
  // ------------------------------------------------------------------

  class Boot {
    var started: bool
    /** How many times `boot` has run. */
    var boots: nat

    predicate Valid()
      reads this
    {
      boots == if started then 1 else 0
    }

    constructor ()
      ensures Valid() && !started
    {
      started := false;
      boots := 0;
    }

    /** `safeBoot()`, called on `cprum:ready` and on `DOMContentLoaded` alike. */
    method SafeBoot()
      requires Valid()
      modifies this
      ensures Valid() && started && boots == 1
      ensures old(started) ==> boots == old(boots)
    {
      if started {
        return;
      }
      started := true;
      boots := boots + 1;
    }
  }

  /** However many of the two events fire, the page boots exactly once. */
  method BootOnEvents(events: nat) returns (b: Boot)
    requires events >= 1
    ensures b.Valid() && b.boots == 1
  {
    b := new Boot();
    var i := 0;
    while i < events
      invariant 0 <= i <= events && b.Valid()
      invariant i > 0 ==> b.boots == 1
    {
      b.SafeBoot();
      i := i + 1;
    }
  }
}
