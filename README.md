# Clinic inventory ledger: a verified model

This project models the stock ledger of a clinic's medication inventory and
the rules that classify items, in both copies of the application.

- **Server** (Express over Firestore):
  - `createMovement` records an entry (`entrada`), an exit (`salida`) or a
    discard (`descarte`) against an item and updates the item's stock.
  - The item service creates items, applies the field-restricted updates
    and answers the alert and search queries.
  - The movement queries page through the ledger and summarise it over a
    date range.
- **Client** (a stand-alone React app that keeps its state in memory):
  - `registrarMovimiento` applies the same stock rule to an in-memory item
    list and prepends the movement.
  - `crearMedicamento` adds an item together with its initial entry.
  - The inventory buttons and the movement form guard the amount.
  - The alert lists, the search filter, the status badges and the expiry
    label are derived from the items.

The two Firestore collections are modelled as follows.

- Items are a `map` from id to document inside the class `ItemStore`.
- Movements are a `seq`, in insertion order, inside the class `MovementLog`.
- Both hand out ids in increasing order. The item store lists documents in
  id order.
- Each operation that writes is a method with a `modifies` clause. Each
  query is a function over a snapshot of the collection.
- The client's component state is the class `ClinicApp`, with the fields
  `items` and `moves`.

Dates are `YYYY-MM-DD` full-dates (section 5.6 of RFC 3339), modelled as
`Dates.FullDate`.

- `DayNumber` counts days since 0000-01-01 in the proleptic Gregorian
  calendar.
- `diasEntre` is modelled as written, `ceil((ms(b) - ms(a)) / 86400000)`
  with JavaScript's `Math.ceil`. The model proves it exact:
  `DiasEntre(a, b) == DayNumber(b) - DayNumber(a)`.
- "Today" (`hoyISO()`), timestamps (`new Date()`) and client ids (`uid()`)
  are parameters.

The modules are:

- `Results`: Option and Result.
- `Js`: `||` on optional strings, ASCII `toLowerCase`, `trim`, `includes`,
  string order, `Math.ceil` of a quotient.
- `Seqs`: filter, map, reverse, and the `offset`/`limit` window.
- `Dates`: the date rules.
- `Helpers`: `cleanUndefined` and the response envelopes.
- `Records`: the item and movement entities, the stock rule and the error
  kinds.
- `ItemsService`, `MovementsService`: the server.
- `ClientApp`, `ClientViews`: the client.

### Behaviour of the code worth knowing

The model follows the code in each of these points.

- **Write before reject.** `createMovement` adds the movement record
  (movements.service.js:39) and throws "Tipo de movimiento inválido" for an
  unrecognised kind only afterwards (lines 60-61). The model keeps a fourth
  kind, `Tipo.Otro`, for any other text. `CreateMovement` states that for
  `Otro` the movement is stored and the item is unchanged. The route's
  validator (validators.js:92-93) keeps such requests out over HTTP.
- **Discarded items can hold stock.**
  - `deleteItem` marks an item discarded and leaves its stock
    (items.service.js:143-146); see `ItemsService.ItemStore.DeleteItem`.
  - `updateItem` can write `cantidad` or `descartado` freely
    (items.service.js:90-95).
  - `createMovement` accepts an entry on a discarded item; see
    `Records.EntryAfterDiscardRestocks`.
- **A discard records the caller's amount.** The movement stores the
  caller's `cantidad` (movements.service.js:31), not the stock that was
  thrown away. The client's discard button passes the item's stock
  (App.jsx:127), and the movement form passes whatever was typed.
- **The form path has no stock check.** The client's movement form
  (App.jsx:254-263) has no stock check. An exit larger than the stock is
  recorded at its full amount, while the stock only falls to 0.
  `ClientApp.ClinicApp.SubmitMovementForm` states that clamp. The `onSalida`
  button does refuse such an exit.

## Model

| member | source | states |
|---|---|---|
| Js.OrElse | backend/src/utils/helpers.js:47-48 | `x \|\| d` on an optional string: the value when it is present and non-empty, the fallback otherwise; a non-empty fallback gives a non-empty result |
| Js.ToLower | backend/src/services/items.service.js:182 | lower-casing keeps the length and maps each character on its own |
| Js.TrimStart | backend/src/services/items.service.js:182 | the result is a suffix, everything removed is white space, and it does not start with white space |
| Js.TrimEnd | backend/src/services/items.service.js:182 | the result is a prefix, everything removed is white space, and it does not end with white space |
| Js.Trim | backend/src/services/items.service.js:182 | the result is no longer than the input and neither starts nor ends with white space (what is cut off is stated by `TrimStart` and `TrimEnd`) |
| Js.TrimBlank | backend/src/services/items.service.js:182-184 | a trimmed string is empty exactly when every character is white space |
| Js.LowerTrimCommute | src/Pages/Inventory.jsx:17 | trimming then lower-casing (client) equals lower-casing then trimming (server) |
| Js.Includes | backend/src/services/items.service.js:187-189 | `s.includes(sub)` holds exactly when `sub` occurs in `s` at some position |
| Js.EmptyIncludesNothing | backend/src/services/items.service.js:189 | the empty string contains no non-empty string |
| Js.StrLeqTotal | backend/src/services/items.service.js:51 | the string order used by `orderBy('nombre')` is total |
| Js.StrLeqTrans | backend/src/services/items.service.js:51 | that order is transitive |
| Js.CeilDiv | backend/src/services/movements.service.js:113 | `Math.ceil(x / y)` for integers: the least `r` with `x <= r * y` |
| Seqs.Filter | backend/src/services/items.service.js:161-163 | `filter` keeps exactly the elements that pass, in order, as a sub-list, and keeps every occurrence of a passing element (the multiset of passing elements is unchanged) |
| Seqs.FilterKeepsAll | src/Pages/Inventory.jsx:18 | a filter that every element passes returns the list unchanged |
| Seqs.FilterFilter | backend/src/services/items.service.js:159-163 | filtering twice equals filtering once by both conditions |
| Seqs.FilterKeepsOrder | backend/src/services/movements.service.js:81-85 | an order between elements survives a filter |
| Seqs.DisjointFiltersFit | backend/src/services/items.service.js:161-162 | two filters that never both hold take at most the whole list between them |
| Seqs.FilterMap | backend/src/services/items.service.js:56-59 | filtering mapped documents equals mapping the filtered documents |
| Seqs.Reverse | backend/src/services/movements.service.js:81 | newest first is the reversal of the insertion order, index by index |
| Seqs.Window | backend/src/services/movements.service.js:89-90 | `.limit(limit).offset(offset)`: at most `limit` elements starting at `offset`, empty past the end, the remainder at the end |
| Dates.MillisOrder | backend/src/utils/helpers.js:20-22 | `new Date(a) < new Date(b)` holds exactly when `a` is before `b` in the calendar, and two dates give the same instant exactly when they are equal |
| Dates.BeforeIsStrictTotal | src/App.jsx:45 | the calendar order is irreflexive, transitive and total |
| Dates.DayNumberOrder | backend/src/utils/helpers.js:20-22 | a date is before another exactly when its day number is smaller |
| Dates.DaysBeforeMonthGrows | backend/src/utils/helpers.js:11-15 | the days before a month grow with the month |
| Dates.DaysBeforeYearGrows | backend/src/utils/helpers.js:11-15 | a year's start lies after every earlier year's end |
| Dates.DiasEntre | backend/src/utils/helpers.js:11-15 | the ceiling of the millisecond difference over a day equals the difference of day numbers |
| Dates.EstaVencido | backend/src/utils/helpers.js:20-22 | expired exactly when the date is strictly before today, equivalently when `diasEntre(today, date) < 0` |
| Dates.ProximoAVencer | backend/src/utils/helpers.js:27-30 | near expiry exactly when the date is 0 to 60 days ahead; never together with expired |
| Dates.ExpiredAndNearDisjoint | backend/src/utils/helpers.js:29 | no date is both expired and near expiry |
| Dates.NearExpiryBoundaries | backend/src/utils/helpers.js:27-30 | today is near and not expired, 60 days out is near, 61 days out is neither |
| Dates.DiasEntreSelf | src/utils/helpers.js:9-13 | `diasEntre(a, a) == 0` |
| Dates.DiasEntreAntisymmetric | src/utils/helpers.js:9-13 | `diasEntre(a, b) == -diasEntre(b, a)` |
| Dates.DiasEntreSign | src/utils/helpers.js:9-13 | `diasEntre(a, b) > 0` exactly when `b` is later, `== 0` exactly when the dates are equal |
| Dates.DiasEntreShift | src/utils/helpers.js:9-13 | shifting both dates by the same number of days keeps the difference |
| Helpers.CleanUndefined | backend/src/utils/helpers.js:35-39 | keeps exactly the defined entries, with their values |
| Helpers.CleanUndefinedIdempotent | backend/src/utils/helpers.js:35-39 | cleaning twice is cleaning once |
| Helpers.FormatSuccess | backend/src/utils/helpers.js:55-61 | success flag set, data kept, the default message only for a missing message |
| Helpers.FormatError | backend/src/utils/helpers.js:44-50 | success flag clear, message and code never empty, the defaults exactly when they are missing or empty |
| Records.FreshItem | backend/src/services/items.service.js:11-19 | creation defaults: unit "", stock and threshold 0, not discarded, responsible "—"; name, lot and expiry as given |
| Records.StockAfter | backend/src/services/movements.service.js:42-58 | an exit or discard never raises the stock, and a non-negative stock stays non-negative |
| Records.EntryThenExit | backend/src/services/movements.service.js:46-51 | an exit undoes an entry of the same size |
| Records.ExitThenEntry | backend/src/services/movements.service.js:51 | an entry undoes an exit exactly when the exit did not need the clamp at 0 |
| Records.ExitWithinStock | backend/src/services/movements.service.js:22-24 | an exit within the stock subtracts exactly; an exit of the whole stock leaves 0 |
| Records.Failure.Message | backend/src/services/movements.service.js:18-23 | each failure's thrown text is non-empty, and "Item no encontrado" is the text of the missing item and of nothing else |
| Records.MessagesDistinct | backend/src/services/movements.service.js:61 | two failures have the same text exactly when they are the same failure |
| Records.ApplyMovement | src/App.jsx:107-115 | the item after a movement: new stock, discarded after a discard, responsible recorded, all else kept |
| Records.EntryAfterDiscardRestocks | backend/src/services/movements.service.js:44-58 | an entry after a discard leaves a discarded item holding stock |
| ItemsService.Patched | backend/src/services/items.service.js:90-95 | every defined field of the patch is written, every undefined one kept |
| ItemsService.PatchedIdempotent | backend/src/services/items.service.js:90-95 | the same update applied twice equals applying it once |
| ItemsService.Listing | backend/src/services/items.service.js:54-59 | the listing holds exactly the stored documents, in increasing id order |
| ItemsService.ItemStore.CreateItem | backend/src/services/items.service.js:9-34 | stores the defaults under a fresh id, with both timestamps now, and keeps every other document |
| ItemsService.ItemStore.UpdateItem | backend/src/services/items.service.js:88-101 | writes the patched item and the update time, nothing else; a missing document fails and changes nothing |
| ItemsService.ItemStore.UpdateItemQuantity | backend/src/services/items.service.js:106-118 | changes only stock, responsible (default "—") and update time |
| ItemsService.ItemStore.DiscardItem | backend/src/services/items.service.js:123-136 | sets discarded and stock 0, records the responsible and the time |
| ItemsService.ItemStore.DeleteItem | backend/src/services/items.service.js:141-152 | sets discarded and the time; the stock is unchanged |
| ItemsService.GetItemById | backend/src/services/items.service.js:68-83 | the document when the id is stored, "Item no encontrado" otherwise |
| ItemsService.WithDescartado | backend/src/services/items.service.js:44-46 | exactly the documents with the requested flag, as a sub-list |
| ItemsService.InsertKeepsSorted | backend/src/services/items.service.js:48-52 | insertion into a name-sorted list keeps it sorted |
| ItemsService.SortByName | backend/src/services/items.service.js:48-52 | `orderBy('nombre')`: names ascending, the same documents |
| ItemsService.GetAllItems | backend/src/services/items.service.js:39-63 | exactly the documents with the requested flag; sorted by name when a name filter is given, listing order otherwise |
| ItemsService.Active | backend/src/services/items.service.js:159 | exactly the non-discarded documents, in order |
| ItemsService.GetAlerts | backend/src/services/items.service.js:157-174 | among non-discarded items: expired, near expiry (disjoint from expired) and low stock, each exactly; total is the number of non-discarded items |
| ItemsService.SearchMatch | backend/src/services/items.service.js:186-190 | an item matches exactly when the term occurs in its lower-cased name, lot or unit (so an empty term matches everything); an empty unit never matches a non-empty term |
| ItemsService.SearchItems | backend/src/services/items.service.js:179-194 | non-discarded items only; all of them for a blank term, otherwise exactly those whose name, lot or non-empty unit contains the term |
| ItemsService.BlankSearchReturnsActive | backend/src/services/items.service.js:182-184 | a white-space-only term returns every non-discarded item |
| MovementsService.FilterKeepsLogValid | backend/src/services/movements.service.js:201-208 | removing movements keeps ids and timestamps increasing and quantities positive |
| MovementsService.MovementLog.Add | backend/src/services/movements.service.js:39 | the movement is appended under a fresh id |
| MovementsService.MovementLog.DeleteMovement | backend/src/services/movements.service.js:201-208 | removes the movements with that id (at most one), reports success, touches no item |
| MovementsService.CountId | backend/src/services/movements.service.js:201-204 | how many movements carry an id |
| MovementsService.FilterDropsId | backend/src/services/movements.service.js:201-204 | deletion shortens the log by the number of movements with that id |
| MovementsService.IdsUnique | backend/src/services/movements.service.js:201-204 | in a valid log an id occurs at most once |
| MovementsService.CreateMovement | backend/src/services/movements.service.js:10-72 | unknown item or oversized exit: error and no write; otherwise one movement appended with the item's name, the caller's amount and the defaults; then the kind's stock update and its `stockActual`, or for an unknown kind an error with the item unchanged |
| MovementsService.Matching | backend/src/services/movements.service.js:84-86 | exactly the movements of the item, in order |
| MovementsService.ReverseChronological | backend/src/services/movements.service.js:81 | reversing the insertion order gives newest `createdAt` first |
| MovementsService.WindowNewestFirst | backend/src/services/movements.service.js:89-90 | a window of a newest-first list is newest first |
| MovementsService.Offset | backend/src/services/movements.service.js:89 | the page offset `(page - 1) * limit` is non-negative |
| MovementsService.PageArithmetic | backend/src/services/movements.service.js:89-113 | with `totalPages = ceil(total / limit)`: a page past the last starts past the end, earlier pages end inside, the last reaches the end |
| MovementsService.Paginate | backend/src/services/movements.service.js:88-115 | the page is the window at the offset of the newest-first list; full before the last page, the remainder on it, empty past it; `total` and `totalPages` as computed |
| MovementsService.GetAllMovements | backend/src/services/movements.service.js:77-119 | defaults limit 50 and page 1; only movements of the given item; newest first |
| MovementsService.GetMovementsByItem | backend/src/services/movements.service.js:144-159 | at most `limit` (default 20) movements of the item, the newest ones, newest first |
| MovementsService.GetMovementById | backend/src/services/movements.service.js:124-139 | the movement with that id, or "Movimiento no encontrado" |
| MovementsService.OfKind | backend/src/services/movements.service.js:181-183 | exactly the movements of one kind |
| MovementsService.SumCantidad | backend/src/services/movements.service.js:184-189 | the quantity sum is at least the count when every quantity is at least 1 |
| MovementsService.KindsWithinTotal | backend/src/services/movements.service.js:180-183 | entries, exits and discards together are at most the total |
| MovementsService.InRange | backend/src/services/movements.service.js:168-174 | a date passes exactly when its day number lies within each given bound, inclusive; a range whose end is before its start passes nothing |
| MovementsService.GetMovementsStats | backend/src/services/movements.service.js:164-196 | total counts the movements in the inclusive date range (all without bounds); each per-kind count is the number of in-range movements of that kind, and each quantity total is the sum of their quantities; the kind counts fit within the total, and the sums are at least the counts |
| MovementsService.StatsBounds | backend/src/services/movements.service.js:179-190 | no range selects every movement; the three kinds fit within the selection; with quantities of at least 1, each kind's sum is at least its count |
| MovementsService.PositiveQuantities | backend/src/services/movements.service.js:184-189 | quantities of selected movements stay at least 1 |
| ClientApp.Find | src/App.jsx:90 | `items.find`: nothing exactly when no item has the id, otherwise the first such item |
| ClientApp.MovementName | src/App.jsx:91 | the caller's name, else the found item's, else "(desconocido)"; never empty |
| ClientApp.NewMovement | src/App.jsx:93-102 | the movement recorded: the given kind and amount, the name rule, responsible default "—", note default "", today's date |
| ClientApp.UpdateItems | src/App.jsx:105-117 | only items with the id change, by the stock rule; non-negative stocks stay non-negative for a non-negative amount |
| ClientApp.ClinicApp.Record | src/App.jsx:82-118 | one movement prepended; the seen list updated when it has the item, the item list kept otherwise |
| ClientApp.ClinicApp.RegistrarMovimiento | src/App.jsx:82-118 | one movement prepended even for an unknown item (then named "(desconocido)"); only the matching item changes; stocks stay non-negative |
| ClientApp.ClinicApp.CrearMedicamento | src/App.jsx:58-79 | with a fresh id: the new item prepended with the defaults and one "Alta inicial" entry, the stock counted once |
| ClientApp.ClinicApp.OnSalida | src/App.jsx:133-146 | nothing for an amount that is not positive or exceeds the stock; otherwise an exit noted "Dispensación" |
| ClientApp.ClinicApp.OnEntrada | src/App.jsx:148-160 | nothing for an amount that is not positive; otherwise an entry noted "Reposición" |
| ClientApp.ClinicApp.OnDescarte | src/App.jsx:120-131 | nothing unless confirmed; otherwise a discard of the whole stock noted "Caducado/Descarte" |
| ClientApp.ClinicApp.SubmitMovementForm | src/App.jsx:254-263 | prepends the movement and applies the stock update to the item with that id (the item list is unchanged when the id is unknown); there is no stock check, yet stocks stay non-negative: an oversized exit clamps at 0 |
| ClientApp.ClinicApp.MigrateItemNames | src/App.jsx:26-36 | the movements are replaced by their migrated form, the items untouched |
| ClientApp.FixName | src/App.jsx:28-31 | a movement without a name gets the item's name or "(desconocido)"; a named one is kept |
| ClientApp.FixNames | src/App.jsx:27-33 | afterwards every movement is named, named ones are untouched, only the name changes |
| ClientApp.FixNamesIdempotent | src/App.jsx:26-36 | running the migration again changes nothing |
| ClientApp.Vencidos | src/App.jsx:44-46 | exactly the non-discarded items with expiry before today |
| ClientApp.Proximos | src/App.jsx:47-52 | exactly the non-discarded items expiring 0 to 60 days ahead |
| ClientApp.Bajos | src/App.jsx:53 | exactly the non-discarded items at or below their threshold |
| ClientApp.VencidosProximosDisjoint | src/App.jsx:43-55 | no item is in both `vencidos` and `proximos` |
| ClientApp.AlertListsAgree | src/App.jsx:43-55 | the client's three lists equal the server's `getAlerts` lists for the same items |
| ClientViews.Normalized | src/Pages/Inventory.jsx:17 | the client's normalised query equals the server's |
| ClientViews.ListaMatch | src/Pages/Inventory.jsx:19-23 | an empty query matches; for a non-empty query an item matches exactly when the server's search match holds, so exactly when the query occurs in the lower-cased name, lot or unit; a match needs a field at least as long as the query |
| ClientViews.Lista | src/Pages/Inventory.jsx:16-24 | all items for a blank query; otherwise exactly the matching ones, discarded included, as an ordered sub-list |
| ClientViews.BlankQueryListsAll | src/Pages/Inventory.jsx:17-18 | a white-space-only query lists every item |
| ClientViews.EmptyUnitNeverMatches | src/Pages/Inventory.jsx:22 | a missing unit never matches a non-empty query |
| ClientViews.MatchesAgree | src/Pages/Inventory.jsx:19-23 | for a non-blank query the client's match equals the server's |
| ClientViews.Badges | src/components/Estado.jsx:4-15 | "Descartado" iff discarded, "Vencido" iff expired, "Próx. a vencer" iff near expiry, "Bajo stock" iff at or below threshold; never both expiry badges |
| ClientViews.DiscardAddsOnlyItsBadge | src/components/Estado.jsx:9-12 | discarding adds the "Descartado" badge and keeps the others |
| ClientViews.CaducidadLabel | src/components/Caducidad.jsx:3-22 | exactly one label: discarded, else expired, else "Caduca en d días" with 0 <= d <= 60, else the plain date |
| ClientViews.LabelMatchesBadges | src/components/Caducidad.jsx:3-22 | for an item that is not discarded, the label and the badges agree on expired and near expiry |

## Left out

- Firestore and Firebase Admin I/O are replaced by the in-memory map and
  sequence. Store failures other than "No document to update" are left
  out. So are the read-check-write race between concurrent calls and the
  partial failure after the movement is written; each call is one
  sequential step.
- Express routing, controllers, authentication, the error middleware,
  browser storage, fetch and the service worker are left out. The route
  validators appear only as preconditions:
  - a movement quantity is at least 1;
  - page limits are 1-100 and pages at least 1;
  - an item's stock and threshold are at least 0.
- The clock, `hoyISO()` and `uid()` are parameters. The caller must supply
  a `now` later than every stored movement timestamp.
  - With that, "newest `createdAt` first" is exactly the reverse of the
    insertion order.
  - Firestore's ordering of equal timestamps is not modelled.
- Dates are well-formed full-dates. Malformed date strings (`new Date`
  giving NaN) are not modelled. Date strings compare as `Dates.Before`,
  which is the order of their fixed-width `YYYY-MM-DD` texts.
- Amounts are integers. Fractional amounts, `Number(...)` coercion of
  non-numeric text (NaN) and the string `+` that a textual quantity would
  trigger are not modelled.
- `toLowerCase` is modelled on ASCII letters only; other letters are kept.
  `trim` uses the ECMAScript white-space and line-terminator set.
- `orderBy('nombre')` is modelled as a stable sort by code-point (character) order.
  Firestore's order among equal names is not modelled. A document without
  a name, which Firestore would leave out of that query, is not modelled.
- Movement ids and item ids are natural numbers, not Firestore's random
  strings.
- ItemsService.ItemStore.CreateItem: ids are handed out in increasing order,
  so in the model a new item is listed last. Firestore gives a new document
  a random id and lists an unordered collection by id, so in the real store
  a new item can appear anywhere in an unfiltered listing.
- ItemsService.Patched: an update body is modelled only through the eight
  item fields. `updateItem` writes every defined key of the body
  (items.service.js:90-95), including `createdAt`, `createdBy` and keys the
  item does not have. A body key `id` is stored too, and it then replaces
  the document id in every read, because reads build
  `{ id: doc.id, ...doc.data() }` (items.service.js:56-59, 76-79). None of
  these other keys is modelled.
- MovementsService.CreateMovement: the read of the item is modelled
  together with the writes as one atomic step. The `Number(cantidad)`
  conversion at movements.service.js:31 is the identity on the modelled
  integer amounts.
- ItemsService.ItemStore.UpdateItemQuantity: requires a non-negative new
  quantity. Its one caller, `createMovement`, always passes one, and the
  store invariant relies on it.
- ClientApp.ClinicApp.CrearMedicamento: the item list from before the
  creation is passed explicitly. A colliding `uid()` would make the second
  `setItems` win and lose the new item; the contract states this case too.
- `alert`, `confirm` and `prompt` dialogs and the rendering of components
  are left out. Prompt answers are parameters (a cancelled prompt is
  `None`), and confirmation is a flag.
