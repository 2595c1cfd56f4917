/** The two entities both copies of the inventory share, an item (one
    medication batch with its stock) and a movement (one ledger entry), and
    the stock rule both copies apply when a movement is recorded. */
module Records {
  import opened Results
  import opened Dates
  import Js

  /** Document identity; the store and the browser both hand out fresh ones. */
  type Id = nat

  /** A movement's `tipo`. The three recognised kinds, and any other text a
      caller may send, which the services treat differently. */
  datatype Tipo = Entrada | Salida | Descarte | Otro(name: string)

  /** An item: a medication batch, its expiry date, its current stock
      (`cantidad`), its reorder threshold (`minimo`), the soft-delete flag
      and who last touched its stock. */
  datatype Item = Item(
    id: Id,
    nombre: string,
    lote: string,
    caducidad: FullDate,
    unidad: string,
    cantidad: int,
    minimo: int,
    descartado: bool,
    responsableUltimo: string)

  /** A ledger entry, with the item's name copied in when it is recorded. */
  datatype Movement = Movement(
    id: Id,
    itemId: Id,
    itemNombre: string,
    tipo: Tipo,
    cantidad: int,
    responsable: string,
    fecha: FullDate,
    nota: string)

  /** The fields a caller supplies to create an item; the optional ones may
      be undefined. */
  datatype NewItem = NewItem(
    nombre: string,
    lote: string,
    caducidad: FullDate,
    unidad: Option<string>,
    cantidad: Option<int>,
    minimo: Option<int>,
    responsable: Option<string>)

  /** The placeholder written when no responsible person is given. */
  const NoResponsable := "—"

  /** A new item with both copies' creation defaults: no unit, stock and
      threshold 0 when absent, not discarded, the placeholder responsible. */
  function FreshItem(id: Id, data: NewItem): (x: Item)
    ensures x.id == id && x.nombre == data.nombre && x.lote == data.lote && x.caducidad == data.caducidad
    ensures x.unidad == Js.OrElse(data.unidad, "")
    ensures x.cantidad == data.cantidad.GetOr(0) && x.minimo == data.minimo.GetOr(0)
    ensures !x.descartado && x.responsableUltimo == Js.OrElse(data.responsable, NoResponsable)
  {
    Item(id, data.nombre, data.lote, data.caducidad, Js.OrElse(data.unidad, ""),
         data.cantidad.GetOr(0), data.minimo.GetOr(0), false, Js.OrElse(data.responsable, NoResponsable))
  }

  /** The stock after a movement of `n` units of kind `tipo`: an entry adds,
      an exit subtracts but stops at zero, a discard empties, anything else
      leaves the stock alone. Only an entry can raise the stock, and a
      non-negative stock stays non-negative. */
  function StockAfter(tipo: Tipo, stock: int, n: int): (r: int)
    ensures stock >= 0 && n >= 0 ==> r >= 0
    ensures !tipo.Entrada? && stock >= 0 && n >= 0 ==> r <= stock
    ensures tipo.Salida? ==> r >= 0
  {
    match tipo
    case Entrada => stock + n
    case Salida => if stock - n > 0 then stock - n else 0
    case Descarte => 0
    case Otro(_) => stock
  }

  /** An exit takes back exactly what an entry of the same size added. */
  lemma EntryThenExit(stock: int, n: int)
    requires stock >= 0 && n >= 0
    ensures StockAfter(Salida, StockAfter(Entrada, stock, n), n) == stock
  {
  }

  /** An entry undoes an exit exactly when the exit did not have to stop at
      zero. */
  lemma ExitThenEntry(stock: int, n: int)
    requires n >= 0
    ensures StockAfter(Entrada, StockAfter(Salida, stock, n), n) == stock <==> n <= stock
  {
  }

  /** Taking out the whole stock leaves zero; taking out less leaves the rest. */
  lemma ExitWithinStock(stock: int, n: int)
    requires 0 <= n <= stock
    ensures StockAfter(Salida, stock, n) == stock - n
    ensures n == stock ==> StockAfter(Salida, stock, n) == 0
  {
  }

  /** The item after a movement: the new stock, discarded after a discard,
      the movement's responsible person recorded, every other field kept. */
  function ApplyMovement(x: Item, tipo: Tipo, n: int, responsable: string): (r: Item)
    ensures r == x.(cantidad := StockAfter(tipo, x.cantidad, n),
                    descartado := x.descartado || tipo.Descarte?,
                    responsableUltimo := responsable)
    ensures x.cantidad >= 0 && n >= 0 ==> r.cantidad >= 0
    ensures tipo.Descarte? ==> r.cantidad == 0 && r.descartado
  {
    var next := x.(responsableUltimo := responsable);
    if tipo.Entrada? then next.(cantidad := x.cantidad + n)
    else if tipo.Salida? then next.(cantidad := if x.cantidad - n > 0 then x.cantidad - n else 0)
    else if tipo.Descarte? then next.(cantidad := 0, descartado := true)
    else next
  }

  /** A discarded item is not protected: an entry after a discard gives it
      stock again while it stays discarded. */
  lemma EntryAfterDiscardRestocks(x: Item, n: int, responsable: string)
    requires n >= 1
    ensures var y := ApplyMovement(ApplyMovement(x, Descarte, x.cantidad, responsable), Entrada, n, responsable);
      y.descartado && y.cantidad == n
  {
  }

  /** Why a server operation fails. */
  datatype Failure =
    | ItemNotFound        // the item id resolves to no item
    | InsufficientStock   // an exit asks for more than the stock
    | InvalidTipo         // a movement kind outside the three
    | NoDocumentToUpdate  // the store refuses to update a missing document
    | MovementNotFound    // the movement id resolves to no movement
  {
    /** The text of the error the services throw. */
    function Message(): (r: string)
      ensures r != ""
      ensures this == ItemNotFound <==> r == "Item no encontrado"
    {
      match this
      case ItemNotFound => "Item no encontrado"
      case InsufficientStock => "Stock insuficiente para realizar la salida"
      case InvalidTipo => "Tipo de movimiento inválido"
      case NoDocumentToUpdate => "No document to update"
      case MovementNotFound => "Movimiento no encontrado"
    }
  }

  /** Different failures are thrown with different texts, so a caller can
      tell them apart by the message alone. */
  lemma MessagesDistinct(f: Failure, g: Failure)
    ensures f.Message() == g.Message() <==> f == g
  {
  }
}
