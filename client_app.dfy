/** The stand-alone client's ledger (src/App.jsx). It keeps the item list
    and the movement list as component state and replaces them on every
    action:
    - recording a movement prepends it and swaps in the updated item;
    - creating a medication prepends the item and records its initial stock;
    - the inventory buttons and the movement form guard the amount;
    - the alert lists are derived from the items;
    - a one-time migration fills in missing item names on old movements.
    A handler reads the lists as they were when the handler was created,
    and when it sets a list twice the second value wins; the model passes
    that earlier item list explicitly. Ids (`uid()`) and today's date
    (`hoyISO()`) are parameters. */
module ClientApp {
  import opened Results
  import opened Dates
  import opened Records
  import Js
  import Seqs
  import ItemsService

  /** The name written when a movement's item cannot be found. */
  const UnknownItemName := "(desconocido)"

  /** `items.find((x) => x.id === id)`: the first item with that id. */
  function Find(items: seq<Item>, id: Id): (r: Option<Item>)
    ensures r.None? <==> forall i :: 0 <= i < |items| ==> items[i].id != id
    ensures r.Some? ==> r.value.id == id && r.value in items
    ensures r.Some? ==> exists i :: 0 <= i < |items| && items[i] == r.value &&
                                    forall j :: 0 <= j < i ==> items[j].id != id
  {
    if items == [] then None
    else if items[0].id == id then Some(items[0])
    else
      var rest := Find(items[1..], id);
      assert forall i :: 1 <= i < |items| ==> items[i] == items[1..][i - 1];
      assert rest.Some? ==> forall j :: 0 <= j < 1 ==> items[j].id != id;
      rest
  }

  /** The name a movement is recorded under: the caller's, else the found
      item's, else the placeholder. It is never empty. */
  function MovementName(itemNombre: Option<string>, it: Option<Item>): (r: string)
    ensures r != ""
    ensures itemNombre.Some? && itemNombre.value != "" ==> r == itemNombre.value
    ensures (itemNombre.None? || itemNombre.value == "") && it.Some? && it.value.nombre != "" ==> r == it.value.nombre
    ensures (itemNombre.None? || itemNombre.value == "") && (it.None? || it.value.nombre == "") ==> r == UnknownItemName
  {
    var fromItem := if it.Some? then Some(it.value.nombre) else None;
    Js.OrElse(itemNombre, Js.OrElse(fromItem, UnknownItemName))
  }

  /** The argument of `registrarMovimiento`; every field but the item id and
      the kind may be missing. */
  datatype MovementInput = MovementInput(
    itemId: Id,
    itemNombre: Option<string>,
    tipo: Tipo,
    cantidad: int,
    responsable: Option<string>,
    nota: Option<string>)

  /** The movement `registrarMovimiento` records against the item list
      `items`. */
  function NewMovement(items: seq<Item>, input: MovementInput, movId: Id, today: FullDate): (m: Movement)
    ensures m.id == movId && m.itemId == input.itemId && m.tipo == input.tipo && m.cantidad == input.cantidad
    ensures m.fecha == today
    ensures m.itemNombre == MovementName(input.itemNombre, Find(items, input.itemId))
    ensures m.responsable == Js.OrElse(input.responsable, NoResponsable) && m.responsable != ""
    ensures m.nota == Js.OrElse(input.nota, "")
  {
    Movement(movId, input.itemId, MovementName(input.itemNombre, Find(items, input.itemId)), input.tipo,
             input.cantidad, Js.OrElse(input.responsable, NoResponsable), today, Js.OrElse(input.nota, ""))
  }

  /** `items.map(...)`: the items with that id get the movement's update,
      every other item is kept as it is. */
  function UpdateItems(items: seq<Item>, id: Id, tipo: Tipo, n: int, responsable: string): (r: seq<Item>)
    ensures |r| == |items|
    ensures forall i :: 0 <= i < |items| && items[i].id != id ==> r[i] == items[i]
    ensures forall i :: 0 <= i < |items| && items[i].id == id ==> r[i] == ApplyMovement(items[i], tipo, n, responsable)
    ensures n >= 0 && NonNegative(items) ==> NonNegative(r)
  {
    seq(|items|, i requires 0 <= i < |items| =>
      if items[i].id == id then ApplyMovement(items[i], tipo, n, responsable) else items[i])
  }

  /** Every stock is non-negative. */
  predicate NonNegative(items: seq<Item>) {
    forall i :: 0 <= i < |items| ==> items[i].cantidad >= 0
  }

  /** The client's state: the item list and the movement list, newest
      movement first. */
  class ClinicApp {
    var items: seq<Item>
    var moves: seq<Movement>

    /** The state as loaded from the browser's storage. */
    constructor (loadedItems: seq<Item>, loadedMoves: seq<Movement>)
      ensures items == loadedItems && moves == loadedMoves
    {
      items := loadedItems;
      moves := loadedMoves;
    }

    /** `registrarMovimiento` as run by a handler that saw the item list
        `seen`: prepend the movement, and when `seen` has the item, replace
        the item list with `seen` updated. When `seen` lacks the item the
        item list is left as it is. */
    method Record(seen: seq<Item>, input: MovementInput, movId: Id, today: FullDate)
      modifies this
      ensures moves == [NewMovement(seen, input, movId, today)] + old(moves)
      ensures Find(seen, input.itemId).None? ==> items == old(items)
      ensures Find(seen, input.itemId).Some? ==>
        items == UpdateItems(seen, input.itemId, input.tipo, input.cantidad, Js.OrElse(input.responsable, NoResponsable))
    {
      var it := Find(seen, input.itemId);
      var mov := NewMovement(seen, input, movId, today);
      moves := [mov] + moves;
      if it.Some? {
        items := UpdateItems(seen, input.itemId, input.tipo, mov.cantidad, mov.responsable);
      }
    }

    /** `registrarMovimiento(input)`: exactly one movement is prepended, even
        for an unknown item, whose name is then the placeholder; the item with
        that id gets the stock update and every other item stays as it is. */
    method RegistrarMovimiento(input: MovementInput, movId: Id, today: FullDate)
      modifies this
      ensures moves == [NewMovement(old(items), input, movId, today)] + old(moves)
      ensures Find(old(items), input.itemId).None? ==>
        items == old(items) && (input.itemNombre.None? || input.itemNombre.value == "" ==> moves[0].itemNombre == UnknownItemName)
      ensures Find(old(items), input.itemId).Some? ==>
        items == UpdateItems(old(items), input.itemId, input.tipo, input.cantidad, Js.OrElse(input.responsable, NoResponsable))
      ensures input.cantidad >= 0 && NonNegative(old(items)) ==> NonNegative(items)
    {
      Record(items, input, movId, today);
    }

    /** `crearMedicamento(data)`: prepend the new item with the creation
        defaults, then record an entry of its initial stock with the note
        "Alta inicial". The recording looks the id up in the list from
        before the creation; with a fresh id it finds nothing, so the
        initial stock is counted once. Were the id already taken, the second
        list update would win and the new item would be lost. */
    method CrearMedicamento(data: NewItem, itemId: Id, movId: Id, today: FullDate)
      modifies this
      ensures var nuevo := FreshItem(itemId, data);
        moves == [Movement(movId, itemId, MovementName(Some(nuevo.nombre), Find(old(items), itemId)), Entrada,
                           nuevo.cantidad, nuevo.responsableUltimo, today, "Alta inicial")] + old(moves)
      ensures Find(old(items), itemId).None? ==> items == [FreshItem(itemId, data)] + old(items)
      ensures Find(old(items), itemId).Some? ==>
        var nuevo := FreshItem(itemId, data);
        items == UpdateItems(old(items), itemId, Entrada, nuevo.cantidad, nuevo.responsableUltimo)
    {
      var nuevo := FreshItem(itemId, data);
      var seen := items;
      items := [nuevo] + items;
      Record(seen, MovementInput(itemId, Some(nuevo.nombre), Entrada, nuevo.cantidad,
                                 Some(nuevo.responsableUltimo), Some("Alta inicial")), movId, today);
    }

    /** `onSalida(item)`: an amount that is not positive, or larger than
        the item's stock, records nothing; otherwise an exit is recorded with
        the note "Dispensación". */
    method OnSalida(item: Item, n: int, responsable: Option<string>, movId: Id, today: FullDate)
      modifies this
      ensures n <= 0 || n > item.cantidad ==> items == old(items) && moves == old(moves)
      ensures 0 < n <= item.cantidad ==>
        var input := MovementInput(item.id, Some(item.nombre), Salida, n,
                                   Some(Js.OrElse(responsable, NoResponsable)), Some("Dispensación"));
        moves == [NewMovement(old(items), input, movId, today)] + old(moves) &&
        (Find(old(items), item.id).None? ==> items == old(items)) &&
        (Find(old(items), item.id).Some? ==>
          items == UpdateItems(old(items), item.id, Salida, n, Js.OrElse(responsable, NoResponsable)))
      ensures NonNegative(old(items)) ==> NonNegative(items)
    {
      if n <= 0 || n > item.cantidad {
        return;
      }
      var resp := Js.OrElse(responsable, NoResponsable);
      RegistrarMovimiento(MovementInput(item.id, Some(item.nombre), Salida, n, Some(resp), Some("Dispensación")),
                          movId, today);
    }

    /** `onEntrada(item)`: an amount that is not positive records nothing;
        otherwise an entry is recorded with the note "Reposición". */
    method OnEntrada(item: Item, n: int, responsable: Option<string>, movId: Id, today: FullDate)
      modifies this
      ensures n <= 0 ==> items == old(items) && moves == old(moves)
      ensures n > 0 ==>
        var input := MovementInput(item.id, Some(item.nombre), Entrada, n,
                                   Some(Js.OrElse(responsable, NoResponsable)), Some("Reposición"));
        moves == [NewMovement(old(items), input, movId, today)] + old(moves) &&
        (Find(old(items), item.id).None? ==> items == old(items)) &&
        (Find(old(items), item.id).Some? ==>
          items == UpdateItems(old(items), item.id, Entrada, n, Js.OrElse(responsable, NoResponsable)))
      ensures NonNegative(old(items)) ==> NonNegative(items)
    {
      if n <= 0 {
        return;
      }
      var resp := Js.OrElse(responsable, NoResponsable);
      RegistrarMovimiento(MovementInput(item.id, Some(item.nombre), Entrada, n, Some(resp), Some("Reposición")),
                          movId, today);
    }

    /** `onDescarte(item)`: unless the user confirms, nothing happens;
        otherwise a discard of the item's whole stock is recorded with the
        note "Caducado/Descarte". */
    method OnDescarte(item: Item, confirmed: bool, responsable: Option<string>, movId: Id, today: FullDate)
      modifies this
      ensures !confirmed ==> items == old(items) && moves == old(moves)
      ensures confirmed ==>
        var input := MovementInput(item.id, Some(item.nombre), Descarte, item.cantidad,
                                   Some(Js.OrElse(responsable, NoResponsable)), Some("Caducado/Descarte"));
        moves == [NewMovement(old(items), input, movId, today)] + old(moves) &&
        (Find(old(items), item.id).None? ==> items == old(items)) &&
        (Find(old(items), item.id).Some? ==>
          items == UpdateItems(old(items), item.id, Descarte, item.cantidad, Js.OrElse(responsable, NoResponsable)))
    {
      if !confirmed {
        return;
      }
      var resp := Js.OrElse(responsable, NoResponsable);
      RegistrarMovimiento(MovementInput(item.id, Some(item.nombre), Descarte, item.cantidad, Some(resp),
                                        Some("Caducado/Descarte")), movId, today);
    }

    /** The movement form's submission: the form only offers the three
        kinds and refuses an amount that is not positive; there is no stock
        check, yet no stock goes negative. */
    method SubmitMovementForm(itemId: Id, tipo: Tipo, cantidad: int, responsable: string, nota: string,
                              movId: Id, today: FullDate)
      requires !tipo.Otro? && cantidad > 0
      modifies this
      ensures var it := Find(old(items), itemId);
        var input := MovementInput(itemId, if it.Some? then Some(it.value.nombre) else None, tipo, cantidad,
                                   Some(responsable), Some(nota));
        moves == [NewMovement(old(items), input, movId, today)] + old(moves)
      ensures Find(old(items), itemId).None? ==> items == old(items)
      ensures Find(old(items), itemId).Some? ==> items == UpdateItems(old(items), itemId, tipo, cantidad, Js.OrElse(Some(responsable), NoResponsable))
      ensures NonNegative(old(items)) ==> NonNegative(items)
      ensures tipo.Salida? && Find(old(items), itemId).Some? ==>
        |items| == |old(items)| &&
        forall i :: 0 <= i < |old(items)| && old(items)[i].id == itemId ==>
          items[i].cantidad == if old(items)[i].cantidad > cantidad then old(items)[i].cantidad - cantidad else 0
    {
      var it := Find(items, itemId);
      RegistrarMovimiento(MovementInput(itemId, if it.Some? then Some(it.value.nombre) else None, tipo, cantidad,
                                        Some(responsable), Some(nota)), movId, today);
    }

    /** The one-time migration: movements without an item name get one from
        the item list; the others are kept. */
    method MigrateItemNames()
      modifies this
      ensures items == old(items)
      ensures moves == FixNames(old(moves), old(items))
    {
      var fixed := FixNames(moves, items);
      if fixed != moves {
        moves := fixed;
      }
    }
  }

  /** A single step of the migration. */
  function FixName(m: Movement, items: seq<Item>): (r: Movement)
    ensures r.itemNombre != ""
    ensures m.itemNombre != "" ==> r == m
    ensures m.itemNombre == "" ==>
      r == m.(itemNombre := MovementName(None, Find(items, m.itemId)))
  {
    if m.itemNombre == "" then m.(itemNombre := MovementName(None, Find(items, m.itemId))) else m
  }

  /** `moves.map(...)` of the migration: every movement has a name
      afterwards, named movements are untouched, and a missing name becomes
      the item's name, or the placeholder when the item is gone. */
  function FixNames(moves: seq<Movement>, items: seq<Item>): (r: seq<Movement>)
    ensures |r| == |moves|
    ensures forall i :: 0 <= i < |r| ==> r[i].itemNombre != ""
    ensures forall i :: 0 <= i < |moves| && moves[i].itemNombre != "" ==> r[i] == moves[i]
    ensures forall i :: 0 <= i < |moves| ==> r[i].(itemNombre := moves[i].itemNombre) == moves[i]
    ensures forall i :: 0 <= i < |moves| && moves[i].itemNombre == "" ==>
      (Find(items, moves[i].itemId).Some? && Find(items, moves[i].itemId).value.nombre != "" ==>
         r[i].itemNombre == Find(items, moves[i].itemId).value.nombre) &&
      (Find(items, moves[i].itemId).None? ==> r[i].itemNombre == UnknownItemName)
  {
    Seqs.Map(moves, (m: Movement) => FixName(m, items))
  }

  /** Running the migration again changes nothing. */
  lemma FixNamesIdempotent(moves: seq<Movement>, items: seq<Item>)
    ensures FixNames(FixNames(moves, items), items) == FixNames(moves, items)
  {
  }

  /** `vencidos`: the non-discarded items whose expiry date is before today. */
  function Vencidos(items: seq<Item>, today: FullDate): (r: seq<Item>)
    ensures forall x :: x in r <==> x in items && !x.descartado && Before(x.caducidad, today)
    ensures Seqs.SubsequenceOf(r, items)
  {
    Seqs.Filter(items, (x: Item) => !x.descartado && EstaVencido(x.caducidad, today))
  }

  /** `proximos`: the non-discarded items expiring today or within the next
      60 days. */
  function Proximos(items: seq<Item>, today: FullDate): (r: seq<Item>)
    ensures forall x :: x in r <==>
      x in items && !x.descartado && 0 <= DayNumber(x.caducidad) - DayNumber(today) <= NearExpiryDays
    ensures Seqs.SubsequenceOf(r, items)
  {
    Seqs.Filter(items, (x: Item) => !x.descartado && !EstaVencido(x.caducidad, today) &&
                                    DiasEntre(today, x.caducidad) <= NearExpiryDays)
  }

  /** `bajos`: the non-discarded items at or below their threshold. */
  function Bajos(items: seq<Item>): (r: seq<Item>)
    ensures forall x :: x in r <==> x in items && !x.descartado && x.cantidad <= x.minimo
    ensures Seqs.SubsequenceOf(r, items)
  {
    Seqs.Filter(items, (x: Item) => !x.descartado && x.cantidad <= x.minimo)
  }

  /** No item is both expired and expiring soon. */
  lemma VencidosProximosDisjoint(items: seq<Item>, today: FullDate)
    ensures forall x :: x in Vencidos(items, today) ==> x !in Proximos(items, today)
  {
    forall x | x in Vencidos(items, today) ensures x !in Proximos(items, today) {
      DayNumberOrder(x.caducidad, today);
    }
  }

  /** The client's alert lists are the server's, for the same items in the
      same order. */
  lemma AlertListsAgree(snapshot: seq<ItemsService.ItemDoc>, today: FullDate)
    ensures var items := Seqs.Map(snapshot, (d: ItemsService.ItemDoc) => d.item);
      var alerts := ItemsService.GetAlerts(snapshot, today);
      Vencidos(items, today) == Seqs.Map(alerts.vencidos, (d: ItemsService.ItemDoc) => d.item) &&
      Proximos(items, today) == Seqs.Map(alerts.proximos, (d: ItemsService.ItemDoc) => d.item) &&
      Bajos(items) == Seqs.Map(alerts.bajos, (d: ItemsService.ItemDoc) => d.item)
  {
    var item := (d: ItemsService.ItemDoc) => d.item;
    var active := ItemsService.Active(snapshot);
    var notDiscarded := (d: ItemsService.ItemDoc) => d.item.descartado == false;
    assert active == Seqs.Filter(snapshot, notDiscarded);
    var vp := (d: ItemsService.ItemDoc) => EstaVencido(d.item.caducidad, today);
    var pp := (d: ItemsService.ItemDoc) => ProximoAVencer(d.item.caducidad, today);
    var bp := (d: ItemsService.ItemDoc) => d.item.cantidad <= d.item.minimo;
    var vc := (x: Item) => !x.descartado && EstaVencido(x.caducidad, today);
    var pc := (x: Item) => !x.descartado && !EstaVencido(x.caducidad, today) && DiasEntre(today, x.caducidad) <= NearExpiryDays;
    var bc := (x: Item) => !x.descartado && x.cantidad <= x.minimo;
    Seqs.FilterFilter(snapshot, notDiscarded, vp, (d: ItemsService.ItemDoc) => vc(d.item));
    Seqs.FilterFilter(snapshot, notDiscarded, pp, (d: ItemsService.ItemDoc) => pc(d.item));
    Seqs.FilterFilter(snapshot, notDiscarded, bp, (d: ItemsService.ItemDoc) => bc(d.item));
    Seqs.FilterMap(snapshot, item, vc, (d: ItemsService.ItemDoc) => vc(d.item));
    Seqs.FilterMap(snapshot, item, pc, (d: ItemsService.ItemDoc) => pc(d.item));
    Seqs.FilterMap(snapshot, item, bc, (d: ItemsService.ItemDoc) => bc(d.item));
  }
}
