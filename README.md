# blaugrana-lab: a verified model of the site's scripts

blaugrana-lab is a static FC Barcelona fan site built as a test bed for
real-user-monitoring (RUM) tools. Every page loads `app.js`, which keeps
the RUM state: a command queue (`BarcaDataLayer`) drained through
`handleTag`, the persisted settings (`logging`, `tracepoints`,
`pageGroup`), the last error and last network record captured by global
listeners and by wrapped `fetch`/XHR, and the shared page chrome (theme,
tabs, debug HUD, modal dialog, navigation). Each page then adds its own
script: the shop cart and checkout, the matchday fixtures table, the
players' favourites drawer, the performance lab's workloads, the gallery
lightbox, the legends timeline and the contact form.

This project models that logic in Dafny and proves what the code
promises about it. Pure computations (normalisers, filters, comparators,
totals, the JSON codec, HTML escaping) are functions with lemmas. Code
that updates module or object state step by step is a class whose
methods are specified against those functions:

- `Rum.Runtime` holds the RUM state;
- `Shop.Cart`, `Shop.Drawer`, `Matchday.Table`, `Players.Favorites`, `PerfLab.PrimeScan`,
  `PerfLab.Lab`, `Gallery.Lightbox` and `Legends.Page` hold the page state;
- `Forms.Form` and `Chrome.TabStrip` keep elements' flags in arrays.

The modules follow the scripts:

- `Rum`, `RumEvents`, `Chrome`, `Json` and `JsValues` model `app.js` and
  the JavaScript semantics it relies on.
- `Html` models the `escapeHtml` and `escapeAttr` helper. It is written
  out identically in the shop, matchday, gallery and legends scripts and
  is defined once here.
- `Forms` holds the field checks the checkout and the contact form share.
- `Sorting` gives `Array.prototype.sort` its meaning: a stable sort by a
  consistent comparator.
- `Seqs` gives `Array.prototype.filter` and `find` their meaning.
- `Shop`, `Contact`, `Matchday`, `Players`, `PerfLab`, `Gallery` and
  `Legends` model one page script each.

A few behaviours of the code, as written, are proved rather than
corrected, because they depend on markup or call patterns not shown:

- When the e-mail field is also marked required and is left blank, the
  form is refused, yet the e-mail check clears the flag the required
  check set (`Forms.BlankRequiredEmailUnflagged`).
- Opening a second dialog before closing the first leaves the first
  overlay in the document with nothing left to close it
  (`Chrome.SecondOpenOrphans`).
- The metrics "clear" button zeroes the running-intervals counter even
  while a storm is running (`PerfLab.Metrics.Clear`).

Three defects are logged under "## Findings". The model uses the
corrected behaviour, and the as-written behaviour is kept beside it
with a concrete input that exhibits it.

## Model

| member | source | states |
|---|---|---|
| Rum.StoreLaws | assets/js/app.js:18-46 | A failed write changes nothing and a failed read yields the fallback. A missing key reads as the fallback, and a missing, empty or unparseable JSON value reads as `{}`. A working store reads back what was written and leaves other keys alone. An object written with `setJSON` reads back as its JSON normal form. |
| Rum.DispatchIgnores | assets/js/app.js:64-97 | A missing, falsy or unknown command changes no setting and no stored key. |
| Rum.DispatchLogging | assets/js/app.js:68-74 | `logging` becomes the truthiness of the argument and is stored as "1" or "0". |
| Rum.DispatchTracepoint | assets/js/app.js:76-85 | An empty trimmed key changes nothing. Otherwise only that key takes the new value (last write wins), every other key and setting is kept, and the whole map is persisted. |
| Rum.DispatchPageGroup | assets/js/app.js:87-93 | `pageGroup` becomes `String(arg ?? "")` and is stored. An argument `String` cannot convert makes the handler throw and changes nothing. |
| Rum.TracepointRecorded | assets/js/performance-lab.js:350 | A page tracepoint with a fixed key, such as `softnav` carrying the hash, leaves that key holding the value. Every other tracepoint, `logging` and `pageGroup` are unchanged. |
| Rum.PageGroupTagged | assets/js/shop.js:314 | The tag each page sends at boot makes the page group the page's name and stores it when storage works. Logging and tracepoints stay. The pages' `BootTag` constants are "Shop", "Matchday", "Legends", "Performance Lab" and "About/Contact". |
| Shop.BootTagged | assets/js/shop.js:314 | The page's boot tag makes "Shop" the page group and leaves logging and the tracepoints alone. |
| Matchday.BootTagged | assets/js/matchday.js:329 | The page's boot tag makes "Matchday" the page group and leaves logging and the tracepoints alone. |
| Legends.BootTagged | assets/js/legends.js:159 | The page's boot tag makes "Legends" the page group and leaves logging and the tracepoints alone. |
| PerfLab.BootTagged | assets/js/performance-lab.js:372 | The page's boot tag makes "Performance Lab" the page group and leaves logging and the tracepoints alone. |
| Contact.BootTagged | assets/js/contact.js:38 | The page's boot tag makes "About/Contact" the page group and leaves logging and the tracepoints alone. |
| Rum.DrainAppend | assets/js/app.js:99-108 | Draining two batches in turn is the same as draining them together. |
| Rum.LoadPersisted | assets/js/app.js:117-120 | The settings loaded from a working store agree with that store, and their tracepoints have no repeated key. Stored tracepoints that are not a flat JSON object load as `{}`; see Left out. |
| Rum.DispatchPersists | assets/js/app.js:64-97 | Every tag keeps the store in step with the settings, whatever the tag does. |
| Rum.DrainPersists | assets/js/app.js:99-108 | Draining any queue keeps the store in step with the settings. |
| Rum.ReloadAfterTags | assets/js/app.js:117-120 | Loading, handling any tags and loading again gives the same `logging` and `pageGroup`, and the tracepoints in JSON normal form. |
| Rum.ThemeCycle | assets/js/app.js:805-811 | Light, dark and system form a cycle of three. Any other stored value moves into the cycle, and every click changes the mode. |
| Rum.Runtime.constructor | assets/js/app.js:117-120 | The script starts with the settings read from the store, the queued entries kept and none handled, and no error, no network record and theme "system". It accepts any store contents. |
| Rum.Runtime.HandleTag | assets/js/app.js:64-97 | The state after the tag is the one `Dispatch` gives. Tracepoint keys stay unique, and the queue, the slots, the theme and the ready state are untouched. |
| Rum.Runtime.ProcessDataLayer | assets/js/app.js:99-108 | Every entry from the cursor to the end is handled exactly once, in order. The cursor ends at the queue's end, and the handled list grows by exactly those entries. |
| Rum.Runtime.Push | assets/js/app.js:61-62 | An entry pushed before the drain is appended and nothing is handled. |
| Rum.Runtime.CpRumTag | assets/js/app.js:112-115 | Everything queued before is handled first, then the new tag. Afterwards every entry of the queue has been handled. |
| Rum.Runtime.SetLastError | assets/js/app.js:147-151 | The one `lastError` slot is overwritten with the record. |
| Rum.Runtime.SetLastNetwork | assets/js/app.js:202-206 | The one `lastNetwork` slot is overwritten with the record. |
| Rum.Runtime.OnError | assets/js/app.js:153-185 | An error event records the normalised error record, or nothing when building it throws. |
| Rum.Runtime.OnRejection | assets/js/app.js:187-197 | An unhandled rejection records its normalised record. |
| Rum.Runtime.OnFetchResolved | assets/js/app.js:212-233 | A resolved fetch records its method, URL, status and `ok`. |
| Rum.Runtime.OnFetchRejected | assets/js/app.js:234-249 | A rejected fetch records status 0, not ok, and the sanitised error. |
| Rum.Runtime.OnXhrEnd | assets/js/app.js:267-298 | An XHR that ends records what `XhrFinished` gives. An abort records nothing. |
| Rum.Runtime.ApplyTheme | assets/js/app.js:315-328 | The mode is stored. The document is dark exactly for "dark", or for "system" with a dark preference. |
| Rum.Runtime.ToggleTheme | assets/js/app.js:803-815 | The new mode is the next one after the stored mode (default "system"), and it is stored and applied. The settings, the queue and the ready state do not change. |
| Rum.Runtime.ClearTracepoints | assets/js/app.js:888-893 | The HUD's Clear button leaves no tracepoints and stores an empty object. |
| Rum.Runtime.ToggleLogging | assets/js/app.js:894-900 | The HUD's Logging button queues and handles `["logging", !logging]` after everything already queued. The error and network records, the theme, the ready state and the `whenReady` callbacks do not change. |
| Rum.Runtime.WhenReady | assets/js/app.js:1032-1035 | After boot, the callback runs at once, every time it is given. Before boot, it waits for `cprum:ready`. A callback already waiting is not added again, because `addEventListener` ignores a duplicate listener. |
| Rum.Runtime.Boot | assets/js/app.js:1040-1071 | Boot applies the stored theme and handles every queued entry. If the header has a favourites badge and storage cannot be read, `getPlayers` (app.js:830) throws and boot stops there: `ready` stays unset and no waiting callback runs, and the rejection of that throw becomes the last error. Otherwise `ready` is set, every waiting callback runs once, in the order registered, and the last error stays. In both cases each include fetch passes through the fetch wrapper, so the last network record is that of the last include to settle. |
| Rum.AfterIncludes | assets/js/app.js:1003-1027 | Include fetches leave the last network record alone when there are none. Otherwise the record is that of the last fetch to settle, and it always comes from one of the fetches. |
| Rum.IncludeRecordLaws | assets/js/app.js:212-249 | An include fetch is recorded as a GET of its path. A loaded one carries the response status and `ok`. A failed one has status 0 and is not ok. |
| Rum.Runtime.LoadPartials | assets/js/app.js:1024-1027 | Loading the partials leaves every field but the last network record as it was, and sets that record to `AfterIncludes` of the fetches in the order they settle. |
| RumEvents.StripControl | assets/js/app.js:132-134 | The result has no character U+0000 to U+001F and is no longer than the input. |
| RumEvents.StripControlKeeps | assets/js/app.js:132-134 | Text without control characters passes unchanged, so stripping is idempotent. |
| RumEvents.SafeTextLaws | assets/js/app.js:132-134 | `null` and `undefined` give "", and applying `safeText` twice changes nothing more. |
| RumEvents.FormatDurationBands | assets/js/app.js:136-142 | A larger duration never gets a finer band. Whole milliseconds are shown only from 100 on, rounded to the nearest. A finite number never shows the dash. |
| RumEvents.ResourceErrorRecord | assets/js/app.js:159-180 | A failed `img`, `script` or `link` load without a message is reported as "Resource error: <tag> failed to load", with the element's URL as the file and line and column 0. |
| RumEvents.UnknownErrorRecord | assets/js/app.js:160-174 | An error with no message and no resource target is reported as "Unknown error". |
| RumEvents.EmptyRejectionRecord | assets/js/app.js:187-194 | A falsy rejection reason is reported as "Unhandled rejection" with an empty stack. |
| RumEvents.RecordsAreClean | assets/js/app.js:153-197 | No error or rejection record carries a control character, whatever the event held. |
| RumEvents.UpperLaws | assets/js/app.js:214 | The upper-cased method holds no lower-case ASCII letter and upper-casing again changes nothing. |
| RumEvents.FetchRecords | assets/js/app.js:210-251 | The method defaults to GET and is upper-cased, and a non-string resource gets a non-empty URL. A response's status and `ok` are copied. A failure records status 0, not ok, and the error text. |
| RumEvents.XhrRecords | assets/js/app.js:254-299 | A load is ok exactly when 200 <= status < 400. An error or a timeout is never ok and names itself, and an abort records nothing. Without `open` the request reads as GET "(unknown)". |
| JsValues.ClampBounds | assets/js/app.js:128-130 | `clamp` lands in the range, returns an in-range input unchanged and sends anything outside to the nearer bound. |
| Json.Put | assets/js/app.js:80 | After `obj[k] = v`, `k` maps to `v` and no other key changes. A new key is appended, an existing one keeps its place, and keys stay unique. |
| Json.ParseStringify | assets/js/app.js:32-45 | `JSON.parse(JSON.stringify(obj))` gives back the same properties in the same order. Properties whose value is `undefined` are dropped, and error-like object values (`Obj`) come back as `{}`. |
| Json.ParseUnique | assets/js/app.js:32-40 | Whatever `getJSON` parses has no repeated key. |
| Json.ParseNormal | assets/js/app.js:32-40 | What `getJSON` parses is already in normal form, so a further trip through JSON changes nothing. |
| Html.ReplaceAll | assets/js/shop.js:14-19 | After replacing a character by a text that lacks it, the character no longer occurs. |
| Html.EscapeTextIsMap | assets/js/shop.js:13-20 | Because the ampersand is replaced first, the five chained replacements act as a one-pass, character-by-character escape. No entity gets escaped twice. |
| Html.EscapeTextLaws | assets/js/shop.js:13-20 | Escaped text holds no `<`, `>`, `"` or `'`, and decoding the five entities gives the text back. |
| Html.EscapeAttrIsEscapeHtml | assets/js/gallery.js:91-93 | The extra quote replacement of `escapeAttr` finds nothing left to replace, so it equals `escapeHtml`. `null` and `undefined` escape to "". |
| Chrome.InitialTab | assets/js/app.js:635-639 | The tab first activated is the first one marked selected, or tab 0 when none is. Tab 0 is also used when the strip has no buttons. |
| Chrome.KeyTargetInRange | assets/js/app.js:615-631 | Exactly ArrowRight, ArrowLeft, Home and End move the selection, and always onto an existing tab. |
| Chrome.KeyTargetLaws | assets/js/app.js:615-631 | The arrows wrap around, Left undoes Right and Right undoes Left, and Home and End reach the two ends. |
| Chrome.TabStrip.Activate | assets/js/app.js:599-611 | Exactly tab `idx` is `aria-selected` and tabbable, only its panel is visible, and focus moves to it when asked. |
| Chrome.TabStrip.OnKey | assets/js/app.js:615-632 | A reacting key activates its target with focus: only it is selected and tabbable (tabIndex 0, the others -1), and only its panel shows. Any other key leaves selection, tabIndex, panels and focus unchanged. |
| Chrome.TabStrip.Init | assets/js/app.js:635-639 | The initial tab is activated without moving focus: only it is selected and has tabIndex 0, and only its panel shows. With no buttons, panel 0 shows and the others are hidden. |
| Chrome.HudToggleLaws | assets/js/app.js:909-916 | Forcing the HUD open or shut is idempotent and sets that state. Toggling twice without forcing comes back. Without the HUD element nothing changes. |
| Chrome.Hud.Toggle | assets/js/app.js:909-916 | The HUD's open state becomes what `HudAfterToggle` gives. |
| Chrome.OpenCloseRestores | assets/js/app.js:404-467 | Opening then closing a dialog leaves the document's overlays as they were and returns focus to the element focused before. Closing with nothing open does nothing. |
| Chrome.SecondOpenOrphans | assets/js/app.js:445-461 | A second `openModal` before `closeModal` leaves the first overlay in the document with no active overlay to close it by. |
| Chrome.ModalHost.Open | assets/js/app.js:404-449 | A new overlay is appended and becomes the active one. The title falls back to "Dialog". |
| Chrome.ModalHost.Close | assets/js/app.js:451-467 | The active overlay is removed and focus returns. This is a no-op when none is active. |
| Chrome.LastSegment | assets/js/app.js:732 | The current page name has no slash. |
| Chrome.BeforeHash | assets/js/app.js:736 | A link's page part has no `#`. |
| Chrome.LinkOf | assets/js/app.js:735-738 | A link `./name#fragment` names the page `name`, lower-cased. |
| Chrome.RelativeLinkActive | assets/js/app.js:730-741 | A link `./name#fragment` is active on any path ending in `/name`, in any letter case. `./index.html` is active on a directory path. |
| Forms.Digits | assets/js/shop.js:247 | Removing the non-digits leaves only digits, and no more characters than before. |
| Forms.DigitsKeep | assets/js/shop.js:247 | A digit string is left alone, so stripping twice is stripping once. |
| Forms.EmailPatternMeaning | assets/js/shop.js:240 | The e-mail pattern holds exactly when there is one `@` with text before it, no white space, and a dot after the `@` that is neither first nor last there. |
| Forms.NoAtNoMatch | assets/js/shop.js:240 | A value without `@` never matches. |
| Forms.FlagsMeaning | assets/js/shop.js:226-254 | Each element ends flagged by the last check that reaches it: a plain required field exactly when blank, the e-mail field by the pattern check. Unchecked elements keep their flag, and a passing form flags nothing. |
| Forms.BlankRequiredEmailUnflagged | assets/js/shop.js:229-243 | A blank e-mail field that is also required makes the form fail, yet it ends with `aria-invalid="false"`. |
| Forms.Form.Validate | assets/js/shop.js:226-254 | The result is the verdict of all checks, and the flags are exactly those `FlagsAfter` describes. |
| Forms.Form.Input | assets/js/contact.js:62-66 | Typing into a required field re-flags it as blank or not. Other fields keep their flag. |
| Forms.Form.Reset | assets/js/shop.js:289 | `form.reset()` gives every element its default value back and leaves the `aria-invalid` flags alone. |
| Contact.Validate | assets/js/contact.js:12-35 | With no form the result is false. Otherwise it is the verdict of the required and e-mail checks (no card), with the flags set accordingly. |
| Contact.SubmitValue | assets/js/contact.js:49-50 | The value is "submit:" followed by the chosen reason, or "unknown" when none is chosen. |
| Contact.Submit | assets/js/contact.js:40-59 | An invalid form sends nothing and keeps its values. A valid one sends exactly the `contact` tracepoint naming the value of the form's `reason` element as it was at submit time, and the form is then reset to its default values. |
| Contact.ReasonEntry | assets/js/contact.js:49-50 | `data.reason` is the value of the form's `reason` element, and is undefined exactly when the form has none. |
| Contact.SubmitTagRecorded | assets/js/contact.js:50 | After the tracepoint, key `contact` holds the submit value and no other tracepoint or setting changes. |
| Shop.FindProduct | assets/js/shop.js:31 | A found product is the first in the catalogue with that id. None means no product has it. |
| Shop.LineIndex | assets/js/shop.js:36 | The position is that of the first line with the id, or the cart's length when none has it. |
| Shop.TotalsLaws | assets/js/shop.js:67-76 | An empty cart costs nothing. Shipping of $4.99 is charged exactly when the subtotal is positive. The total is the subtotal with 7% tax plus shipping. |
| Shop.AddLineLaws | assets/js/shop.js:30-48 | An existing line gains one unit and no other line changes. Otherwise one line of quantity 1 is appended. Ids stay unique and the subtotal grows by one unit's price. |
| Shop.RemoveMembers | assets/js/shop.js:52 | The lines kept are exactly those with another id. |
| Shop.RemoveUnique | assets/js/shop.js:52 | Removal keeps ids unique. |
| Shop.AddRemoveRoundTrip | assets/js/shop.js:30-56 | Adding a product not in the cart and then removing it gives the cart back. |
| Shop.RemoveSubtotal | assets/js/shop.js:50-56 | The subtotal drops by exactly the cost of the lines removed. |
| Shop.SetQtyLaws | assets/js/shop.js:58-65 | Only the first line with the id changes, and its quantity is at least 1. A readable quantity of 1 or more is kept as typed. Nothing changes without such a line, and ids stay unique. |
| Shop.CartThrowsAsWritten | assets/js/shop.js:22-28 | With the `window.Barca` that app.js builds, adding a known product, removing, setting a quantity and checking out all throw before any change or tracepoint. Loading the products is reported as failed. |
| Shop.RunsWithCartStore | assets/js/shop.js:30-65 | With `getCart` and `setCart` present, each handler stores and tags exactly what the `Cart` methods do. Checkout reaches its empty-cart check. |
| Shop.Cart.ProductFor | assets/js/shop.js:31 | The search loop returns exactly what `FindProduct` finds. |
| Shop.Cart.Position | assets/js/shop.js:36 | The search loop returns exactly the first position `LineIndex` names. |
| Shop.Cart.Add | assets/js/shop.js:30-48 | As intended (see Findings): an unknown product changes nothing and sends nothing. A known one updates the cart as `AddLine` and sends `cart:add`. |
| Shop.Cart.Remove | assets/js/shop.js:50-56 | As intended (see Findings): the cart becomes `RemoveLines` of the old cart, and `cart:remove` is sent whether or not a line went. |
| Shop.Cart.SetQty | assets/js/shop.js:58-65 | As intended (see Findings): the cart becomes `SetQtyLines` of the old cart. |
| Shop.Cart.Submit | assets/js/shop.js:256-292 | As intended (see Findings): an empty cart is refused before the form is checked. Otherwise the order is placed exactly when the form passes. Placing it empties the cart and resets the form to its default values; otherwise the values stay. |
| Shop.Drawer.Toggle | assets/js/shop.js:167-172 | The drawer, its overlay and `aria-hidden` follow `open`. Opening sends the `cart:drawer` tracepoint and closing sends nothing. |
| Sorting.SortCorrect | assets/js/matchday.js:74 | The sort puts its input in order and neither loses nor adds an element. |
| Sorting.SortSortedInput | assets/js/matchday.js:74 | An input that is already in order comes back unchanged. |
| Sorting.SortStable | assets/js/matchday.js:74 | The sort is stable. For any element, the elements the comparator ties with it come out in the order they went in, as `Array.prototype.sort` promises. |
| Sorting.TextOrder | assets/js/matchday.js:306 | The string order used by `sort()` is total, transitive and antisymmetric. |
| Matchday.CompareLaws | assets/js/matchday.js:36-54 | Descending negates ascending and swapping the operands negates the result. An ascending comparison is at most 0 exactly when the key orders the first one first. |
| Matchday.LeIsOrder | assets/js/matchday.js:36-54 | For every key and direction the comparator is a total, transitive order, so the sort is well defined. |
| Matchday.FilterLaws | assets/js/matchday.js:56-72 | The view keeps exactly the matching fixtures, never more often than they occur. With no query and both filters on "all" it is the whole list. |
| Matchday.ViewLaws | assets/js/matchday.js:56-74 | `apply`'s view is sorted by the comparator and holds exactly the matching fixtures, as a permutation of the filtered list. |
| Matchday.NextSortLaws | assets/js/matchday.js:242-249 | The chosen key becomes the sort key. A new key sorts ascending, and the same key flips the direction, so choosing it twice restores the direction. |
| Matchday.PagingLaws | assets/js/matchday.js:79-85 | There is at least one page and enough pages for every fixture, with no empty page beyond the first. A page's rows are its slice of the view, at most a page long, and there are rows whenever there are fixtures. |
| Matchday.BarLaws | assets/js/matchday.js:138-193 | The bar offers one to five consecutive real page numbers, the current page among them. First and Previous are disabled exactly on page 1, and Next and Last exactly on the last page. |
| Matchday.Transform | assets/js/matchday.js:281-298 | The transform gives one fixture per API match, in order, and the fixture at each position is that match mapped by `FromApi`, so `FromApiLaws` holds for every row. |
| Matchday.FromApiLaws | assets/js/matchday.js:283-296 | A fixture is at home exactly when Barcelona are the home team, and the opponent is the other team. It is finished exactly when both scores are known, with Barcelona's goals first, and a round is never 0. |
| Matchday.TransformCompetition | assets/js/matchday.js:292 | Every transformed fixture carries the competition it came from. |
| Matchday.Distinct | assets/js/matchday.js:306 | The set of names holds every name once and nothing else. |
| Matchday.CompetitionListLaws | assets/js/matchday.js:306 | The competition list names each competition of the fixtures exactly once, in sorted order. |
| Matchday.BothCompetitions | assets/js/matchday.js:300-306 | With fixtures from both feeds the list is Champions League, then La Liga. |
| Matchday.Table.constructor | assets/js/matchday.js:6-12 | The table starts empty, sorted by date ascending, on page 1 with 8 rows a page. |
| Matchday.Table.Render | assets/js/matchday.js:79-85 | The page is clamped to the last page, and the rows and bar shown are that page's. |
| Matchday.Table.Apply | assets/js/matchday.js:56-77 | The view becomes the sorted matching fixtures and the page returns to 1. |
| Matchday.Table.SetFilters | assets/js/matchday.js:341-343 | Changing the search, competition or status re-applies the filter from page 1. |
| Matchday.Table.SetSort | assets/js/matchday.js:242-249 | The sort key and direction become `NextSort` of the old ones, then the view is re-applied. |
| Matchday.Table.First | assets/js/matchday.js:138-146 | First shows page 1. |
| Matchday.Table.Previous | assets/js/matchday.js:148-156 | Previous moves back one page and does nothing on page 1. |
| Matchday.Table.Next | assets/js/matchday.js:175-183 | Next moves on one page and does nothing on the last page. |
| Matchday.Table.Last | assets/js/matchday.js:185-193 | Last shows the last page. |
| Matchday.Table.GoTo | assets/js/matchday.js:163-173 | A numbered button shows that page. |
| Matchday.Table.SetPageSize | assets/js/matchday.js:344-347 | An empty choice means 8 rows a page, otherwise the number chosen, and the view is re-applied from page 1. |
| Matchday.Table.Load | assets/js/matchday.js:301-315 | The fixtures are both feeds transformed, league first. The competition list is rebuilt and the view is applied. |
| Players.AddedLaws | assets/js/players.js:16-24 | Adding keeps the favourites free of repeats. A present id changes nothing, an absent one goes to the end, and adding twice is adding once. |
| Players.RemovedLaws | assets/js/players.js:26-31 | Removing drops the id and keeps every other favourite. With no occurrence it changes nothing, and it never creates a repeat. |
| Players.AddRemoveRoundTrip | assets/js/players.js:16-31 | Adding an id that was not a favourite and removing it gives the list back. |
| Players.FindPlayer | assets/js/players.js:78 | A found player is the first in the roster with that id. None means no player has it. |
| Players.RowsLaws | assets/js/players.js:70-105 | The drawer's rows are known players among the favourites, and every known favourite gets a row. The count shown is `favs.length` (players.js:104). There are never more rows than that count, and exactly as many when every favourite is known. |
| Players.Favorites.Add | assets/js/players.js:16-24 | The list becomes `Added` of the old one and stays free of repeats. |
| Players.Favorites.Remove | assets/js/players.js:26-31 | The filtering loop leaves exactly `Removed` of the old list, free of repeats. |
| Players.Drawer.Open | assets/js/players.js:33-41 | With the drawer and overlay present, every flag agrees with `open`. Otherwise nothing changes. |
| Players.Boot.SafeBoot | assets/js/players.js:268-272 | After the guard the page has booted exactly once. A second call changes nothing. |
| Players.BootOnEvents | assets/js/players.js:274-279 | However many of the two boot events fire, the page boots exactly once. |
| PerfLab.DomCount | assets/js/performance-lab.js:51 | The node count is between 500 and 20000. |
| PerfLab.StormCount | assets/js/performance-lab.js:193 | The storm size is between 5 and 300. |
| PerfLab.ScanLimit | assets/js/performance-lab.js:85 | The scan limit is between 5000 and 250000. |
| PerfLab.ClampDefaults | assets/js/performance-lab.js:51 | An empty or unreadable input takes the default (5000, 80, 60000). A readable input in range is kept, for all three inputs. |
| PerfLab.DurationOrZero | assets/js/performance-lab.js:31 | The stored duration is never NaN. It is zero exactly for NaN or zero and is the input otherwise. |
| PerfLab.Metrics.constructor | assets/js/performance-lab.js:9-15 | The metrics start with a dash, zero duration and zero counters. |
| PerfLab.Metrics.Set | assets/js/performance-lab.js:29-34 | The action, duration (NaN read as 0) and time are recorded, and the counters are kept. |
| PerfLab.Metrics.Clear | assets/js/performance-lab.js:381-389 | All five metrics return to their first values. |
| PerfLab.FloorSqrt | assets/js/performance-lab.js:95 | `r*r <= x < (r+1)*(r+1)`, the integer square root. |
| PerfLab.TrialDivision | assets/js/performance-lab.js:94-100 | For x >= 2, no divisor up to the square root exactly when x is prime. |
| PerfLab.IsPrime | assets/js/performance-lab.js:94-100 | The trial-division loop answers exactly primality for every number the scan tests. |
| PerfLab.PrimesInLaws | assets/js/performance-lab.js:90-115 | The scan's list is strictly increasing and holds exactly the primes in the range tested. |
| PerfLab.ScanEndCoversLimit | assets/js/performance-lab.js:102-125 | With the continuation test `n <= limit`, the chunks test every number up to and including the limit. |
| PerfLab.ScanMissesLimit | assets/js/performance-lab.js:117 | As written, a limit of the form 2 + 701k is never tested. |
| PerfLab.MissedPrime | assets/js/performance-lab.js:84-128 | Input 6311 is kept by the clamp and is prime, yet the scan as written finishes without it. The corrected scan includes it. |
| PerfLab.PrimeScan.Chunk | assets/js/performance-lab.js:102-125 | A raised cancel flag stops at the next number untested and reports "Computation cancelled". Otherwise the chunk tests at most 701 numbers up to `min(limit, n+700)` and appends exactly their primes. It schedules another chunk exactly while numbers up to the limit remain, else reports "Heavy computation finished". A report sets the duration and the time; a scheduled chunk leaves the metrics alone. |
| PerfLab.PrimeScan.Start | assets/js/performance-lab.js:84-128 | The scan resets to the clamped limit with the cancel flag down and runs the first chunk, which has tested every number up to `min(limit, 702)`. If that finished the scan, "Heavy computation finished" is reported with the duration and the time. Otherwise the metrics stay as they were. The node and interval counters never change. |
| PerfLab.PrimeScan.Stop | assets/js/performance-lab.js:130-132 | Stop raises the cancel flag and changes nothing else. |
| PerfLab.PrimeScan.Finish | assets/js/performance-lab.js:102-125 | An uncancelled scan ends done, with exactly the primes from 2 up to and including the limit. The action becomes "Heavy computation finished" with the elapsed time and the finishing time. A scan that was not running keeps its metrics. The node and interval counters never change. |
| PerfLab.RouteFor | assets/js/performance-lab.js:339 | A known hash shows its own route and any other hash shows the overview. |
| PerfLab.HashOrDefault | assets/js/performance-lab.js:362-365 | The route hash is never empty and is the location's hash when there is one. |
| PerfLab.SetTimers | assets/js/performance-lab.js:200-212 | `count` fresh handles are set with their delays, and existing timers are kept. |
| PerfLab.Lab.GenerateDom | assets/js/performance-lab.js:50-71 | The sandbox and the created-nodes counter both grow by the clamped count. The action names that count, with the duration and the time. Timers and the soft-navigation view do not change. |
| PerfLab.Lab.ClearDom | assets/js/performance-lab.js:73-79 | The sandbox is emptied but the created-nodes counter stays. The action "Cleared DOM sandbox" is recorded with the duration and the time. Timers and the soft-navigation view do not change. |
| PerfLab.Lab.StopStorm | assets/js/performance-lab.js:220-232 | Every recorded storm handle is cleared, other timers are kept, and the lists and running counter are zeroed. The action is recorded with the duration and the time. The sandbox and the soft-navigation view do not change. |
| PerfLab.Lab.StartStorm | assets/js/performance-lab.js:192-218 | A running storm is stopped first. Then `count` intervals at `50 + (i % 7) * 10` ms and `min(120, count)` timeouts at `500 + 10i` ms are set on fresh handles. No old storm timer survives and other timers are kept. The start is recorded with its duration and the time. The sandbox and the soft-navigation view do not change. |
| PerfLab.Lab.RenderRoute | assets/js/performance-lab.js:338-352 | An unknown hash shows the overview. The DOM route adds 60 chips to the freshly written view. The action names the hash, and the `softnav` tracepoint carries the hash as given. The duration is the elapsed time and the action time is now. |
| PerfLab.StormThenStop | assets/js/performance-lab.js:192-232 | A storm followed by a stop leaves the page's timers exactly as they were. |
| Seqs.KeepLaws | assets/js/gallery.js:133 | `filter` keeps exactly the elements that pass, in their original order, and the whole input when all pass. |
| Seqs.Find | assets/js/shop.js:31 | `find` gives the first element that passes the test, or `undefined` only when none passes. The shop, players and legends lookups by id use it. |
| Gallery.GridTag | assets/js/gallery.js:131 | A missing or empty `data-tag` means "All"; otherwise the attribute is the tag. |
| Gallery.TaggedLaws | assets/js/gallery.js:132-133 | "All" shows every image in order. Any other tag shows exactly the images carrying it, in order. |
| Gallery.FindIndex | assets/js/gallery.js:153 | The index is that of the first image with the id, or -1 when none has it. |
| Gallery.OpenIndex | assets/js/gallery.js:151-154 | The lightbox opens on an existing image. |
| Gallery.OpenIndexLaws | assets/js/gallery.js:149-155 | With distinct ids the lightbox opens on the clicked image. An unknown id opens on the first. |
| Gallery.ImagesDistinct | assets/js/gallery.js:8-81 | The twelve images have distinct ids. |
| Gallery.Arrow | assets/js/gallery.js:214-223 | An arrow press always lands on an existing image. |
| Gallery.ArrowRoundTrip | assets/js/gallery.js:212-224 | Next then previous (and previous then next) returns to the same image. Stepping wraps at both ends, and other keys stay put. |
| Gallery.PressAsWritten | assets/js/gallery.js:188-224 | As written, a press runs every keydown listener wired so far and doubles their number, always landing on an existing image. |
| Gallery.PressSkips | assets/js/gallery.js:212-224 | As written, the second ArrowRight in the twelve-image lightbox moves from the second image to the fourth. |
| Gallery.Lightbox.constructor | assets/js/gallery.js:149-155 | The lightbox holds the tag's images and opens at `OpenIndex`. |
| Gallery.Lightbox.Next | assets/js/gallery.js:205-210 | The next button moves one image on, wrapping. |
| Gallery.Lightbox.Prev | assets/js/gallery.js:199-204 | The previous button moves one image back, wrapping. |
| Gallery.Lightbox.Key | assets/js/gallery.js:212-224 | Each arrow press moves exactly one image, and other keys do nothing. |
| Legends.FilteredLaws | assets/js/legends.js:57-71 | An item stays exactly when it matches both the query and the stage, in order. With no query and stage "all" every item stays. |
| Legends.StageIgnoresCase | assets/js/legends.js:59-68 | The stage test ignores letter case on both sides. |
| Legends.Chips | assets/js/legends.js:23-26 | A card shows at most four chips, the first of its stats. |
| Legends.DetailStats | assets/js/legends.js:94-112 | The details list every stat, or say "No stats." exactly when there are none. |
| Legends.FindLegend | assets/js/legends.js:87 | A found item is the first loaded item with the id. None means no item has it. |
| Legends.Page.Render | assets/js/legends.js:76-80 | The count shows the number of filtered items. Without the timeline nothing is rendered. |
| Legends.Page.Load | assets/js/legends.js:142-156 | A failed fetch leaves the page as it was. A success shows every item and, when the page has a timeline, its count. Without a timeline the count stays. |
| Legends.Page.ApplyFilters | assets/js/legends.js:57-74 | The filtered items become `Filtered` of the loaded items under the query and stage. With a timeline the count follows; without one it stays. |
| Legends.ClearedFiltersShowAll | assets/js/legends.js:57-71 | An empty or blank search with no stage chosen shows everything loaded. |

## Left out

- DOM rendering is left out: HTML templates, `innerHTML`, `toast`, tooltips, accordions, counters, lazy images, the markup of partials, mobile navigation and dropdowns, modal focus trapping, and the footer year. The model keeps the RUM state these read and write (the include fetches' network records are modelled in `Rum.Runtime.Boot`), not the markup.
- `log` and `console` output are left out, and so are `updateHud` and `updateLabPanels`, which only render.
- Clock readings are left out. The records' `time` field, fetch and XHR `duration`, performance-lab durations, the local time of day and the tracepoint texts that embed durations are parameters or dropped.
- Randomness is left out: the gallery card delay, checkout delay, tab uid and busy-loop work.
- Timers are abstract handles, and the callbacks of storm timers do nothing observable.
- `slowFetch`, the reflow and busy-loop demos, `toggleImages`, the compute and layout routes' work, and the matchday mini chart are left out. They only make timing signals.
- Network and JSON loading are parameters: products, fixtures and legends arrive as values. A failed load is `None` where the source shows a toast.
- The favourites' persistence through `Barca.getPlayers`/`setPlayers` (a JSON array in `localStorage`) is left out. `Players.Favorites` holds the list, and the drawer count badge in `app.js` is not modelled.
- Shop.Cart.Add, Shop.Cart.Remove, Shop.Cart.SetQty and Shop.Cart.Submit model the intended cart. As written, the source throws at `getCart()` before any change or tracepoint, and product loading reports failure (see Findings). The persistence of the cart through `Barca.getCart`/`setCart` is not modelled.
- Several scripts call `window.CPRUM?.…` (`openModal`, `closeModal`, `toast`, `updateLabPanels`, `log`), which `app.js` never defines. Those calls do nothing, so the legends details dialog never opens. `Legends.DetailStats` models the list its body would hold.
- Shop.TotalsLaws: prices are integer cents and tax is an exact rational. JavaScript's floating-point sums and the `toFixed(2)` display rounding are not modelled.
- Matchday.CompareLaws: `localeCompare` with numeric collation is modelled as plain character order. Dates are given as the instants `new Date(...)` yields, and an unparseable date (NaN) is not modelled.
- Sorting.TextOrder: `sort()` on strings compares UTF-16 code units, and the model compares characters.
- Matchday.Table.SetPageSize: requires a positive page size. A choice of 0 or a non-number would make the page count infinite or NaN in the source.
- JavaScript numbers in the tag queue and the `Number(...)` of input fields are integers. Fractions, exponents, hexadecimal and Infinity read as NaN.
- `toLowerCase`/`toUpperCase` map ASCII letters only. There is no Unicode case mapping.
- PerfLab.Lab.GenerateDom: `toLocaleString` is modelled for the en-US locale only (comma-grouped digits).
- PerfLab.PrimeScan.Start: starting a second scan while one runs is not modelled. The two chunk chains would share the cancel flag.
- Gallery: the lightbox's modal title and the `openModal` body are not modelled.
- Json.Put: keys keep insertion order. JavaScript lists integer-like keys ("42") first, in ascending order, and the model does not.
- Json.ParseStringify: a plain object or array passed as a tracepoint value cannot be represented. JSON keeps its properties; `Value` has only scalars and the error-like `Obj`, whose JSON form is `{}`.
- Rum.Runtime.Boot: the `await` of `loadPartials` is not modelled. Boot runs as one step, so tags and `whenReady` calls that arrive during the wait are not interleaved with it. The includes are fetched concurrently, so `includes` is given in the order they settle. `thrown` stands for the exception the unreadable storage raises, and its unhandled rejection, reported asynchronously, is recorded at the end of the step.
- Rum.LoadPersisted: stored tracepoints text that is valid JSON but not a flat object of scalar values loads as `{}`. `JSON.parse` would return it as is: `"null"` gives `null`, so the next tracepoint tag throws; `"[]"` gives an array; an object holding an object keeps every stored key. None of these is modelled.
- Contact.Submit: the reset runs 500 ms after the submit in the source, and the model resets at once. Typing during those 500 ms is not modelled.
- Shop.Cart.Submit: the order is placed after a random 800–1400 ms delay, and the model places it at once. Its `checkout` tracepoint embeds that duration and is dropped.
- Shop.Drawer.Toggle: the drawer and overlay elements are taken to exist. Without them the source throws.
- The error-lab, home and audio scripts are not part of this model.

## Findings

| source | as written | input that shows it | evidently intended | confidence | as-written member | corrected member |
|---|---|---|---|---|---|---|
| assets/js/performance-lab.js:117 | After a chunk, another is scheduled only while `n < limit`. A chunk that ends at `limit - 1` leaves `n == limit`, so the limit itself is never tested. | Limit "6311" (6311 = 2 + 701·9, a prime): the chunks end at 702, 1403, …, 6310, and the report "up to 6,311" omits 6311. | Continue while `n <= limit`, so every number up to and including the limit is tested. | not executed | PerfLab.MissedPrime | PerfLab.PrimeScan.Finish |
| assets/js/shop.js:23 | `getCart()` calls `window.Barca?.getCart()`. The `?.` guards only `Barca`, which app.js always creates, and app.js defines neither `getCart` nor `setCart`, so the call throws a `TypeError`. | Add any product of the catalogue: `addToCart` throws before the line is added and before `cart:add` is sent. Checkout throws before the empty-cart check, and loading the catalogue reports "Failed to load products.json". | A cart store on `window.Barca` that reads and writes the cart, with the add, remove, quantity and checkout behaviour `Shop.Cart` has. | not executed | Shop.CartThrowsAsWritten | Shop.Cart.Add |
| assets/js/gallery.js:212-224 | Every `reRender` calls `wire()` again, which adds another `keydown` listener to the same `.modal` element. One arrow press then runs every listener added so far, and each one steps the index. | Open the "All" lightbox on gal-01 and press ArrowRight twice: the first press shows gal-02, the second shows gal-04. | One image per arrow press. | not executed | Gallery.PressSkips | Gallery.Lightbox.Key |
