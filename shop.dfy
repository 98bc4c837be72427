/**
 * The shop page: the cart's lines and the operations on them, the
 * order totals in integer cents, and the checkout decision.
 *
 * The page reads and writes its cart through `Barca.getCart`/`setCart`,
 * which app.js does not define, so as written every cart handler throws
 * (`AddRun` and its neighbours, `CartThrowsAsWritten`). The `Cart` object
 * is the cart as intended: one the operations read and update.
 */
module Shop {
  import opened JsValues
  import opened Seqs
  import Forms
  import Rum

  /** The tag `boot()` sends first, naming the page group "Shop". */
  const BootTag: seq<Value> := [Str("pageGroup"), Str("Shop")]

  /** The boot tag makes "Shop" the page group and keeps logging and the tracepoints. */
  lemma BootTagged(r: Rum.Rec)
    ensures Rum.Dispatch(r, BootTag).rec.settings == r.settings.(pageGroup := "Shop")
  {
    Rum.PageGroupTagged(r, "Shop");
  }

  /** A product of the catalogue; `price` in cents, `None` when it is not a number. */
  datatype Product = Product(id: string, name: string, price: Option<int>, img: string)

  /** A cart line: the product's fields copied when the line was created, and a quantity. */
  datatype Line = Line(id: string, qty: int, name: string, price: Option<int>, img: string)

  /** `products.find((x) => x.id === id)` */
  function FindProduct(products: seq<Product>, id: string): (r: Option<Product>)
    ensures r.Some? ==> r.value in products && r.value.id == id
    ensures r.Some? ==> exists i :: 0 <= i < |products| && products[i] == r.value && forall j :: 0 <= j < i ==> products[j].id != id
    ensures r.None? ==> forall p :: p in products ==> p.id != id
  {
    Find(products, (x: Product) => x.id == id)
  }

  /** The position of the first line with this id, `|items|` when there is none. */
  function LineIndex(items: seq<Line>, id: string): (k: nat)
    ensures k <= |items| && (k < |items| ==> items[k].id == id)
    ensures forall j :: 0 <= j < k ==> items[j].id != id
  {
    if items == [] then 0
    else if items[0].id == id then 0
    else LineIndex(items[1..], id) + 1
  }

  predicate UniqueIds(items: seq<Line>) {
    forall i, j :: 0 <= i < j < |items| ==> items[i].id != items[j].id
  }

  /** `addToCart` on a known product: one more of its line, or a new line of one. */
  function AddLine(items: seq<Line>, p: Product): seq<Line> {
    var k := LineIndex(items, p.id);
    if k < |items| then items[k := items[k].(qty := items[k].qty + 1)]
    else items + [Line(p.id, 1, p.name, p.price, p.img)]
  }

  /** `removeFromCart`: the lines with other ids, in order. */
  function RemoveLines(items: seq<Line>, id: string): seq<Line> {
    if items == [] then []
    else (if items[0].id == id then [] else [items[0]]) + RemoveLines(items[1..], id)
  }

  /** `Math.max(1, Number(input) || 1)` */
  function QtyFrom(input: string): int {
    var n := NumberOr(input, 1);
    if n > 1 then n else 1
  }

  /** `setQty`: the first line with the id gets the quantity typed; nothing happens without one. */
  function SetQtyLines(items: seq<Line>, id: string, input: string): seq<Line> {
    var k := LineIndex(items, id);
    if k < |items| then items[k := items[k].(qty := QtyFrom(input))] else items
  }

  // ------------------------------------------------------------------
  // Totals
  // ------------------------------------------------------------------

  /** `Number(x) || 0` on a price. */
  function Cents(price: Option<int>): int {
    if price.Some? then price.value else 0
  }

  function LineCost(l: Line): int {
    Cents(l.price) * l.qty
  }

  /** The `reduce` of `cartTotals`, in cents. */
  function Subtotal(items: seq<Line>): int {
    if items == [] then 0 else LineCost(items[0]) + Subtotal(items[1..])
  }

  /** `cartTotals`: shipping is $4.99 on a positive subtotal, tax 7% of it; cents, tax exact. */
  datatype Totals = Totals(subtotal: int, shipping: int, tax: real, total: real)

  function CartTotals(items: seq<Line>): Totals {
    var subtotal := Subtotal(items);
    var shipping := if subtotal > 0 then 499 else 0;
    var tax := subtotal as real * 0.07;
    Totals(subtotal, shipping, tax, subtotal as real + shipping as real + tax)
  }

  lemma {:induction false} SubtotalAppend(a: seq<Line>, b: seq<Line>)
    ensures Subtotal(a + b) == Subtotal(a) + Subtotal(b)
    decreases |a|
  {
    if a == [] {
      assert a + b == b;
    } else {
      assert (a + b)[1..] == a[1..] + b;
      SubtotalAppend(a[1..], b);
    }
  }

  lemma {:induction false} SubtotalUpdate(items: seq<Line>, k: nat, l: Line)
    requires k < |items|
    ensures Subtotal(items[k := l]) == Subtotal(items) - LineCost(items[k]) + LineCost(l)
    decreases k
  {
    if k > 0 {
      assert items[k := l][1..] == items[1..][k - 1 := l];
      SubtotalUpdate(items[1..], k - 1, l);
    }
  }

  /**
   * The totals a cart shows: an empty cart costs nothing, shipping is
   * charged exactly when the subtotal is positive, and the total is the
   * subtotal with 7% added plus shipping.
   */
  lemma TotalsLaws(items: seq<Line>)
    ensures CartTotals([]) == Totals(0, 0, 0.0, 0.0)
    ensures CartTotals(items).subtotal == Subtotal(items)
    ensures CartTotals(items).shipping == 499 <==> Subtotal(items) > 0
    ensures CartTotals(items).shipping == 0 <==> Subtotal(items) <= 0
    ensures CartTotals(items).total == Subtotal(items) as real * 1.07 + CartTotals(items).shipping as real
  {
  }

  /**
   * Adding a known product: an existing line gains one unit and no other
   * line changes; otherwise one line of quantity 1 is appended. Either way
   * ids stay unique and the subtotal grows by one unit of that line.
   */
  lemma AddLineLaws(items: seq<Line>, p: Product)
    requires UniqueIds(items)
    ensures UniqueIds(AddLine(items, p))
    ensures var k := LineIndex(items, p.id);
      k < |items| ==> (|AddLine(items, p)| == |items| && AddLine(items, p)[k].qty == items[k].qty + 1
        && forall j :: 0 <= j < |items| && j != k ==> AddLine(items, p)[j] == items[j])
    ensures var k := LineIndex(items, p.id);
      k == |items| ==> AddLine(items, p) == items + [Line(p.id, 1, p.name, p.price, p.img)]
    ensures var r := AddLine(items, p);
      Subtotal(r) == Subtotal(items) + Cents(r[LineIndex(items, p.id)].price)
  {
    var k := LineIndex(items, p.id);
    var r := AddLine(items, p);
    if k < |items| {
      SubtotalUpdate(items, k, r[k]);
    } else {
      SubtotalAppend(items, [r[k]]);
      assert Subtotal([r[k]]) == LineCost(r[k]);
    }
  }

  lemma RemoveCons(x: Line, rest: seq<Line>, id: string)
    ensures RemoveLines([x] + rest, id) == (if x.id == id then [] else [x]) + RemoveLines(rest, id)
  {
    assert ([x] + rest)[0] == x && ([x] + rest)[1..] == rest;
  }

  lemma RemoveAt(items: seq<Line>, i: nat, id: string)
    requires i < |items|
    ensures RemoveLines(items[i..], id) == (if items[i].id == id then [] else [items[i]]) + RemoveLines(items[i + 1..], id)
  {
    assert items[i..] == [items[i]] + items[i + 1..];
    RemoveCons(items[i], items[i + 1..], id);
  }

  /** One turn of the removal loop: what is kept so far grows by the line at `i` unless it goes. */
  lemma RemoveStep(items: seq<Line>, i: nat, id: string, kept: seq<Line>)
    requires i < |items|
    ensures kept + RemoveLines(items[i..], id)
      == (kept + (if items[i].id == id then [] else [items[i]])) + RemoveLines(items[i + 1..], id)
  {
    var head: seq<Line> := if items[i].id == id then [] else [items[i]];
    RemoveAt(items, i, id);
    assert kept + (head + RemoveLines(items[i + 1..], id)) == (kept + head) + RemoveLines(items[i + 1..], id);
  }

  /** The lines kept are exactly those with another id; none is added. */
  lemma {:induction false} RemoveMembers(items: seq<Line>, id: string)
    ensures forall l :: l in RemoveLines(items, id) <==> l in items && l.id != id
    ensures |RemoveLines(items, id)| <= |items|
    decreases |items|
  {
    if items != [] {
      RemoveMembers(items[1..], id);
      assert items == [items[0]] + items[1..];
    }
  }

  lemma {:induction false} RemoveAbsent(items: seq<Line>, id: string)
    requires forall l :: l in items ==> l.id != id
    ensures RemoveLines(items, id) == items
    decreases |items|
  {
    if items != [] {
      assert items[0] in items;
      assert forall l :: l in items[1..] ==> l in items;
      RemoveAbsent(items[1..], id);
    }
  }

  lemma UniqueTail(items: seq<Line>)
    requires items != [] && UniqueIds(items)
    ensures UniqueIds(items[1..]) && forall l :: l in items[1..] ==> l.id != items[0].id
  {
    forall l | l in items[1..] ensures l.id != items[0].id {
      var j :| 0 <= j < |items[1..]| && items[1..][j] == l;
      assert items[j + 1] == l;
    }
  }

  lemma {:induction false} RemoveUnique(items: seq<Line>, id: string)
    requires UniqueIds(items)
    ensures UniqueIds(RemoveLines(items, id))
    decreases |items|
  {
    if items != [] {
      UniqueTail(items);
      RemoveUnique(items[1..], id);
      RemoveMembers(items[1..], id);
      var rest := RemoveLines(items[1..], id);
      if items[0].id != id {
        assert RemoveLines(items, id) == [items[0]] + rest;
        UniqueCons(items[0], rest);
      }
    }
  }

  /** A line whose id no other line has keeps ids unique in front of them. */
  lemma UniqueCons(x: Line, rest: seq<Line>)
    requires UniqueIds(rest) && forall l :: l in rest ==> l.id != x.id
    ensures UniqueIds([x] + rest)
  {
    var r := [x] + rest;
    forall i, j | 0 <= i < j < |r| ensures r[i].id != r[j].id {
      if i == 0 {
        assert r[j] in rest;
      } else {
        assert r[i] == rest[i - 1] && r[j] == rest[j - 1];
      }
    }
  }

  /**
   * Removing the lines with an id is what becomes of the cart after the
   * removal: no line with that id remains, every other line stays in its
   * order, and adding a product not in the cart then removing it gives
   * the cart back.
   */
  lemma AddRemoveRoundTrip(items: seq<Line>, p: Product)
    requires forall l :: l in items ==> l.id != p.id
    ensures RemoveLines(AddLine(items, p), p.id) == items
  {
    var k := LineIndex(items, p.id);
    assert k == |items|;
    RemoveAppend(items, [Line(p.id, 1, p.name, p.price, p.img)], p.id);
    RemoveAbsent(items, p.id);
  }

  lemma {:induction false} RemoveAppend(a: seq<Line>, b: seq<Line>, id: string)
    ensures RemoveLines(a + b, id) == RemoveLines(a, id) + RemoveLines(b, id)
    decreases |a|
  {
    if a == [] {
      assert a + b == b;
    } else {
      assert (a + b)[1..] == a[1..] + b;
      RemoveAppend(a[1..], b, id);
    }
  }

  /** Removal keeps the cost of the lines it keeps. */
  lemma {:induction false} RemoveSubtotal(items: seq<Line>, id: string)
    ensures Subtotal(RemoveLines(items, id)) == Subtotal(items) - SubtotalOf(items, id)
    decreases |items|
  {
    if items != [] {
      RemoveSubtotal(items[1..], id);
      var head := if items[0].id == id then [] else [items[0]];
      SubtotalAppend(head, RemoveLines(items[1..], id));
    }
  }

  /** The cost of the lines with this id. */
  function SubtotalOf(items: seq<Line>, id: string): int {
    if items == [] then 0 else (if items[0].id == id then LineCost(items[0]) else 0) + SubtotalOf(items[1..], id)
  }

  /**
   * Setting a quantity leaves every quantity it writes at least 1,
   * changes only the first line with the id, and does nothing when no
   * line has it.
   */
  lemma SetQtyLaws(items: seq<Line>, id: string, input: string)
    ensures |SetQtyLines(items, id, input)| == |items|
    ensures var k := LineIndex(items, id);
      k < |items| ==> (SetQtyLines(items, id, input)[k].qty >= 1
        && SetQtyLines(items, id, input)[k] == items[k].(qty := QtyFrom(input)))
    ensures forall j :: 0 <= j < |items| && j != LineIndex(items, id) ==> SetQtyLines(items, id, input)[j] == items[j]
    ensures (forall l :: l in items ==> l.id != id) ==> SetQtyLines(items, id, input) == items
    ensures UniqueIds(items) ==> UniqueIds(SetQtyLines(items, id, input))
    ensures StringToNumber(input).Some? && StringToNumber(input).value >= 1 ==> QtyFrom(input) == StringToNumber(input).value
  {
  }

  // ------------------------------------------------------------------
  // The cart
  // ------------------------------------------------------------------

  /** What a checkout submission came to. */
  datatype Checkout = EmptyCart | Refused | Placed

  /** The tracepoint an operation sends: its key and value. */
  datatype Tag = Tag(key: string, value: string)

  // ------------------------------------------------------------------
  // The cart handlers as written
  // ------------------------------------------------------------------

  /** The members app.js puts on `window.Barca`; neither `getCart` nor `setCart` is among them. */
  const BarcaMembers: set<string> := {
    "state", "log", "processDataLayer", "setLastNetwork", "slowFetch", "applyTheme", "toast",
    "openModal", "_activeModal", "closeModal", "initTooltips", "initAccordions", "initTabs",
    "initCounters", "initLazyImages", "highlightActiveNav", "initNav", "getPlayers", "setPlayers",
    "updatePlayersBadge", "initHud", "toggleHud", "updateHud", "updateLabPanels", "loadPartials",
    "whenReady"}

  /**
   * A handler run against a `window.Barca` holding `members`: it returns
   * with the cart it stored and the tracepoint it sent, or it throws a
   * `TypeError`. `window.Barca?.getCart()` guards only `Barca`, which app.js
   * always creates, so calling a member it lacks throws.
   */
  datatype Run = Returned(items: seq<Line>, tag: Option<Tag>) | Threw

  /** Both cart members are there, as the shop expects. */
  predicate HasCartStore(members: set<string>) {
    "getCart" in members && "setCart" in members
  }

  /** `addToCart(id)`: the product lookup, then `getCart()`, then `saveCart(cart)`, then the tag. */
  function AddRun(members: set<string>, products: seq<Product>, items: seq<Line>, id: string): Run {
    if FindProduct(products, id).None? then Returned(items, None)
    else if !HasCartStore(members) then Threw
    else Returned(AddLine(items, FindProduct(products, id).value), Some(Tag("cart:add", id)))
  }

  /** `removeFromCart(id)`: `getCart()`, `saveCart(cart)`, then the tag. */
  function RemoveRun(members: set<string>, items: seq<Line>, id: string): Run {
    if !HasCartStore(members) then Threw else Returned(RemoveLines(items, id), Some(Tag("cart:remove", id)))
  }

  /** `setQty(id, input)`: `getCart()`, the early return for an unknown line, then `saveCart(cart)`. */
  function SetQtyRun(members: set<string>, items: seq<Line>, id: string, input: string): Run {
    if "getCart" !in members then Threw
    else if LineIndex(items, id) == |items| then Returned(items, None)
    else if "setCart" !in members then Threw
    else Returned(SetQtyLines(items, id, input), None)
  }

  /**
   * The checkout handler up to its decision, `None` when it throws: it
   * reads the cart before the empty check and before validation.
   */
  function CheckoutRun(members: set<string>, items: seq<Line>, verdict: bool): Option<Checkout> {
    if "getCart" !in members then None
    else Some(if items == [] then EmptyCart else if verdict then Placed else Refused)
  }

  /**
   * `loadProducts()`: the fetched catalogue is rendered, then `renderCart()`
   * reads the cart; a throw there lands in the `catch`, which reports the
   * load as failed.
   */
  predicate LoadSucceeds(members: set<string>, fetched: Option<seq<Product>>) {
    fetched.Some? && "getCart" in members
  }

  lemma CartMembersMissing()
    ensures "getCart" !in BarcaMembers && "setCart" !in BarcaMembers
  {
  }

  /**
   * As written, with the `window.Barca` app.js builds, adding a known
   * product, removing, setting a quantity and checking out all throw
   * before any change or tracepoint, and loading the catalogue is reported
   * as failed, whatever the cart holds.
   */
  lemma CartThrowsAsWritten(products: seq<Product>, items: seq<Line>, id: string, input: string,
                            verdict: bool, fetched: Option<seq<Product>>)
    ensures FindProduct(products, id).Some? ==> AddRun(BarcaMembers, products, items, id) == Threw
    ensures RemoveRun(BarcaMembers, items, id) == Threw
    ensures SetQtyRun(BarcaMembers, items, id, input) == Threw
    ensures CheckoutRun(BarcaMembers, items, verdict) == None
    ensures !LoadSucceeds(BarcaMembers, fetched)
  {
    CartMembersMissing();
  }

  /**
   * With both cart members present, the handlers do what the `Cart`
   * methods below do: the corrected behaviour the rest of the model uses.
   */
  lemma RunsWithCartStore(members: set<string>, products: seq<Product>, items: seq<Line>, id: string,
                          input: string, verdict: bool)
    requires HasCartStore(members)
    ensures FindProduct(products, id).Some? ==>
      AddRun(members, products, items, id) == Returned(AddLine(items, FindProduct(products, id).value), Some(Tag("cart:add", id)))
    ensures FindProduct(products, id).None? ==> AddRun(members, products, items, id) == Returned(items, None)
    ensures RemoveRun(members, items, id) == Returned(RemoveLines(items, id), Some(Tag("cart:remove", id)))
    ensures SetQtyRun(members, items, id, input) == Returned(SetQtyLines(items, id, input), None)
    ensures CheckoutRun(members, items, verdict).Some?
    ensures items == [] ==> CheckoutRun(members, items, verdict) == Some(EmptyCart)
  {
  }

  class Cart {
    var items: seq<Line>

    constructor (items: seq<Line>)
      ensures this.items == items
    {
      this.items := items;
    }

    /** `products.find` as the page runs it. */
    static method ProductFor(products: seq<Product>, id: string) returns (p: Option<Product>)
      ensures p == FindProduct(products, id)
    {
      var i := 0;
      while i < |products|
        invariant 0 <= i <= |products|
        invariant FindProduct(products, id) == FindProduct(products[i..], id)
      {
        if products[i].id == id {
          assert products[i..][0] == products[i];
          return Some(products[i]);
        }
        assert products[i..][1..] == products[i + 1..];
        i := i + 1;
      }
      return None;
    }

    /** `items.find((x) => x.id === id)`, as a position. */
    static method Position(items: seq<Line>, id: string) returns (k: nat)
      ensures k == LineIndex(items, id)
    {
      k := 0;
      while k < |items|
        invariant 0 <= k <= |items|
        invariant LineIndex(items, id) == k + LineIndex(items[k..], id)
      {
        if items[k].id == id {
          assert items[k..][0] == items[k];
          return;
        }
        assert items[k..][1..] == items[k + 1..];
        k := k + 1;
      }
      assert items[k..] == [];
    }

    /** `addToCart(id)`: an unknown product does nothing and sends nothing. */
    method Add(products: seq<Product>, id: string) returns (tag: Option<Tag>)
      modifies this
      ensures FindProduct(products, id).None? ==> items == old(items) && tag.None?
      ensures FindProduct(products, id).Some? ==>
        items == AddLine(old(items), FindProduct(products, id).value) && tag == Some(Tag("cart:add", id))
    {
      var p := ProductFor(products, id);
      if p.None? {
        return None;
      }
      var k := Position(items, id);
      if k < |items| {
        items := items[k := items[k].(qty := items[k].qty + 1)];
      } else {
        items := items + [Line(id, 1, p.value.name, p.value.price, p.value.img)];
      }
      tag := Some(Tag("cart:add", id));
    }

    /** `removeFromCart(id)`: the tracepoint is sent whether or not a line went. */
    method Remove(id: string) returns (tag: Tag)
      modifies this
      ensures items == RemoveLines(old(items), id) && tag == Tag("cart:remove", id)
    {
      var src := items;
      var kept: seq<Line> := [];
      var i := 0;
      while i < |src|
        invariant 0 <= i <= |src|
        invariant kept + RemoveLines(src[i..], id) == RemoveLines(src, id)
      {
        RemoveStep(src, i, id, kept);
        kept := kept + if src[i].id == id then [] else [src[i]];
        i := i + 1;
      }
      assert src[i..] == [] && kept + [] == kept;
      items := kept;
      tag := Tag("cart:remove", id);
    }

    /** `setQty(id, input)` */
    method SetQty(id: string, input: string)
      modifies this
      ensures items == SetQtyLines(old(items), id, input)
    {
      var k := Position(items, id);
      if k == |items| {
        return;
      }
      var n := NumberOr(input, 1);
      items := items[k := items[k].(qty := if n > 1 then n else 1)];
    }

    /**
     * The checkout `submit` handler: an empty cart is refused before the
     * form is looked at; otherwise the form is validated and, when it
     * passes, the order goes through, the cart is emptied and the form is
     * reset to its default values.
     */
    method Submit(form: Forms.Form) returns (outcome: Checkout)
      requires form.Valid()
      modifies this, form.flags, form.values
      ensures old(items) == [] ==> (outcome == EmptyCart && items == old(items)
        && form.flags[..] == old(form.flags[..]))
      ensures old(items) != [] ==>
        form.flags[..] == Forms.FlagsAfter(old(form.values[..]), form.layout, true, old(form.flags[..]))
        && (outcome == Placed <==> Forms.Verdict(old(form.values[..]), form.layout, true))
        && (outcome == Placed || outcome == Refused)
        && items == if outcome == Placed then [] else old(items)
      ensures form.values[..] == if outcome == Placed then form.defaults else old(form.values[..])
    {
      if items == [] {
        return EmptyCart;
      }
      var ok := form.Validate(true);
      if !ok {
        return Refused;
      }
      items := [];
      form.Reset();
      return Placed;
    }
  }

  /** The cart drawer and its overlay. */
  class Drawer {
    var open: bool
    var overlayHidden: bool
    var ariaHidden: string

    constructor ()
      ensures !open && overlayHidden && ariaHidden == "true"
    {
      open, overlayHidden, ariaHidden := false, true, "true";
    }

    /** `openDrawer(open)`: drawer, overlay and `aria-hidden` follow `open`; opening sends `cart:drawer`. */
    method Toggle(open: bool) returns (tag: Option<Tag>)
      modifies this
      ensures this.open == open && overlayHidden == !open && ariaHidden == if open then "false" else "true"
      ensures tag.Some? <==> open
      ensures tag.Some? ==> tag.value == Tag("cart:drawer", "open")
    {
      this.open := open;
      overlayHidden := !open;
      ariaHidden := if open then "false" else "true";
      tag := if open then Some(Tag("cart:drawer", "open")) else None;
    }
  }
}
