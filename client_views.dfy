/** The client's per-item classifiers: the Inventory page's search filter
    (src/Pages/Inventory.jsx), the status badges (src/components/Estado.jsx)
    and the expiry label (src/components/Caducidad.jsx). */
module ClientViews {
  import opened Dates
  import opened Records
  import Js
  import Seqs
  import ItemsService

  /** The Inventory match: the query occurs in the lower-cased name, lot or
      unit (a missing unit counts as empty). For a non-empty query it is the
      server's search match. */
  function ListaMatch(x: Item, q: string): (r: bool)
    ensures q == "" ==> r
    ensures r ==> |q| <= |x.nombre| || |q| <= |x.lote| || |q| <= |x.unidad|
    ensures q != "" ==> (r <==> ItemsService.SearchMatch(x, q))
  {
    assert q == "" ==> Js.Includes(Js.ToLower(x.nombre), q) by {
      if q == "" { assert Js.OccursAt(Js.ToLower(x.nombre), q, 0); }
    }
    Js.Includes(Js.ToLower(x.nombre), q) ||
    Js.Includes(Js.ToLower(x.lote), q) ||
    Js.Includes(Js.ToLower(x.unidad), q)
  }

  /** The Inventory query as it is compared: trimmed, then lower-cased. */
  function Normalized(query: string): (q: string)
    ensures q == Js.Trim(Js.ToLower(query))
  {
    Js.LowerTrimCommute(query);
    Js.ToLower(Js.Trim(query))
  }

  /** `lista`: the items, all of them for a blank query, otherwise those
      matching the normalised query, in their order. Discarded items are
      filtered like any other. */
  function Lista(items: seq<Item>, query: string): (r: seq<Item>)
    ensures Normalized(query) == "" ==> r == items
    ensures forall x :: x in r <==> x in items && (Normalized(query) == "" || ListaMatch(x, Normalized(query)))
    ensures Seqs.SubsequenceOf(r, items)
  {
    var q := Normalized(query);
    var keep := (x: Item) => q == "" || ListaMatch(x, q);
    if q == "" then
      Seqs.FilterKeepsAll(items, keep);
      Seqs.Filter(items, keep)
    else Seqs.Filter(items, keep)
  }

  /** A white-space-only query lists every item. */
  lemma BlankQueryListsAll(items: seq<Item>, query: string)
    requires forall i :: 0 <= i < |query| ==> Js.IsSpace(query[i])
    ensures Lista(items, query) == items
  {
    Js.TrimBlank(query);
  }

  /** An item with no unit never matches a non-empty query through it. */
  lemma EmptyUnitNeverMatches(x: Item, q: string)
    requires x.unidad == "" && q != ""
    ensures ListaMatch(x, q) <==> Js.Includes(Js.ToLower(x.nombre), q) || Js.Includes(Js.ToLower(x.lote), q)
  {
    Js.EmptyIncludesNothing(q);
  }

  /** For a non-blank query the client's match and the server's search
      match agree on every item. */
  lemma MatchesAgree(x: Item, query: string)
    requires Normalized(query) != ""
    ensures ListaMatch(x, Normalized(query)) <==> ItemsService.SearchMatch(x, Js.Trim(Js.ToLower(query)))
  {
    Js.EmptyIncludesNothing(Normalized(query));
  }

  /** The status badges. */
  datatype Badge = DescartadoBadge | VencidoBadge | ProximoBadge | BajoStockBadge

  /** `Estado`: the badges shown for an item, each decided on its own. */
  function Badges(x: Item, today: FullDate): (r: set<Badge>)
    ensures DescartadoBadge in r <==> x.descartado
    ensures VencidoBadge in r <==> Before(x.caducidad, today)
    ensures ProximoBadge in r <==> ProximoAVencer(x.caducidad, today)
    ensures BajoStockBadge in r <==> x.cantidad <= x.minimo
    ensures !(VencidoBadge in r && ProximoBadge in r)
  {
    var exp := Millis(x.caducidad) < Millis(today);
    var d := DiasEntre(today, x.caducidad);
    DayNumberOrder(x.caducidad, today);
    (if x.descartado then {DescartadoBadge} else {}) +
    (if exp then {VencidoBadge} else {}) +
    (if !exp && d <= NearExpiryDays then {ProximoBadge} else {}) +
    (if x.cantidad <= x.minimo then {BajoStockBadge} else {})
  }

  /** A discarded item keeps its other badges: discarding changes only the
      "Descartado" badge. */
  lemma DiscardAddsOnlyItsBadge(x: Item, today: FullDate)
    ensures Badges(x.(descartado := true), today) == Badges(x.(descartado := false), today) + {DescartadoBadge}
  {
  }

  /** The single expiry label. */
  datatype ExpiryLabel =
    | DiscardedLabel                        // "Descartado"
    | ExpiredLabel(fecha: FullDate)         // "Vencido" and the date
    | ExpiresIn(days: int, fecha: FullDate) // "Caduca en d días" and the date
    | PlainDate(fecha: FullDate)            // the date alone

  /** `Caducidad`: the first of discarded, expired, near expiry, plain. */
  function CaducidadLabel(fecha: FullDate, descartado: bool, today: FullDate): (r: ExpiryLabel)
    ensures descartado <==> r.DiscardedLabel?
    ensures r.ExpiredLabel? <==> !descartado && Before(fecha, today)
    ensures r.ExpiresIn? <==> !descartado && ProximoAVencer(fecha, today)
    ensures r.PlainDate? <==> !descartado && DayNumber(fecha) - DayNumber(today) > NearExpiryDays
    ensures r.ExpiresIn? ==> r.days == DayNumber(fecha) - DayNumber(today) && 0 <= r.days <= NearExpiryDays
    ensures !r.DiscardedLabel? ==> r.fecha == fecha
  {
    DayNumberOrder(fecha, today);
    if descartado then DiscardedLabel
    else if Millis(fecha) < Millis(today) then ExpiredLabel(fecha)
    else
      var d := DiasEntre(today, fecha);
      if d <= NearExpiryDays then ExpiresIn(d, fecha)
      else PlainDate(fecha)
  }

  /** For an item that is not discarded, the label and the badges tell the
      same story about its date. */
  lemma LabelMatchesBadges(x: Item, today: FullDate)
    requires !x.descartado
    ensures CaducidadLabel(x.caducidad, x.descartado, today).ExpiredLabel? <==> VencidoBadge in Badges(x, today)
    ensures CaducidadLabel(x.caducidad, x.descartado, today).ExpiresIn? <==> ProximoBadge in Badges(x, today)
  {
  }
}
