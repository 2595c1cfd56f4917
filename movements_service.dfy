/** The server's stock ledger (backend/src/services/movements.service.js):
    recording a movement against an item, and the read-only views of the
    movement collection (paged listing, per-item history, statistics over a
    date range). The collection is kept in the order documents were added;
    timestamps are supplied by the caller and strictly increase, so "newest
    `createdAt` first" is the reverse of that order. */
module MovementsService {
  import opened Results
  import opened Dates
  import opened Records
  import Js
  import Seqs
  import ItemsService

  type Time = ItemsService.Time

  /** A stored movement with its audit fields. */
  datatype MovementDoc = MovementDoc(mov: Movement, createdAt: Time, createdBy: string)

  /** The body of a movement request; `responsable` and `nota` may be
      undefined. */
  datatype MovementRequest = MovementRequest(
    itemId: Id,
    tipo: Tipo,
    cantidad: int,
    responsable: Option<string>,
    nota: Option<string>)

  /** What a recorded movement returns: the stored movement and the item's
      stock after it. */
  datatype Created = Created(doc: MovementDoc, stockActual: int)

  /** Strictly increasing timestamps: the order documents were added in. */
  ghost predicate Chronological(s: seq<MovementDoc>) {
    forall i, j :: 0 <= i < j < |s| ==> s[i].createdAt < s[j].createdAt
  }

  /** Strictly decreasing timestamps: the order `orderBy('createdAt', 'desc')`
      yields. */
  ghost predicate NewestFirst(s: seq<MovementDoc>) {
    forall i, j :: 0 <= i < j < |s| ==> s[i].createdAt > s[j].createdAt
  }

  /** Ids increase and stay below `nextId`, timestamps increase, and every
      recorded quantity is at least 1. */
  ghost predicate LogValid(records: seq<MovementDoc>, nextId: Id) {
    Chronological(records) &&
    (forall i :: 0 <= i < |records| ==> records[i].mov.id < nextId && records[i].mov.cantidad >= 1) &&
    (forall i, j :: 0 <= i < j < |records| ==> records[i].mov.id < records[j].mov.id)
  }

  /** Removing documents from a valid log leaves a valid log. */
  lemma FilterKeepsLogValid(records: seq<MovementDoc>, nextId: Id, keep: MovementDoc -> bool)
    requires LogValid(records, nextId)
    ensures LogValid(Seqs.Filter(records, keep), nextId)
  {
    Seqs.FilterKeepsOrder(records, keep, (a: MovementDoc, b: MovementDoc) => a.createdAt < b.createdAt);
    Seqs.FilterKeepsOrder(records, keep, (a: MovementDoc, b: MovementDoc) => a.mov.id < b.mov.id);
    var r := Seqs.Filter(records, keep);
    forall i | 0 <= i < |r| ensures r[i].mov.id < nextId && r[i].mov.cantidad >= 1 {
      assert r[i] in records;
    }
  }

  /** The movements collection: documents in the order they were added, and
      the next id to hand out. */
  class MovementLog {
    var records: seq<MovementDoc>
    var nextId: Id

    /** Ids increase and stay below the next id, timestamps increase, and
        every recorded quantity is at least 1. */
    ghost predicate Valid()
      reads this
    {
      LogValid(records, nextId)
    }

    /** `now` is later than every stored timestamp. */
    ghost predicate IsLaterThanAll(now: Time)
      reads this
    {
      forall i :: 0 <= i < |records| ==> records[i].createdAt < now
    }

    constructor ()
      ensures Valid() && records == [] && nextId == 0
    {
      records := [];
      nextId := 0;
    }

    /** `collection.add(data)`: store the movement under a fresh id, last. */
    method Add(data: Movement, now: Time, userId: string) returns (doc: MovementDoc)
      requires Valid() && IsLaterThanAll(now) && data.cantidad >= 1
      modifies this
      ensures Valid()
      ensures doc == MovementDoc(data.(id := old(nextId)), now, userId)
      ensures records == old(records) + [doc]
      ensures forall i :: 0 <= i < |old(records)| ==> old(records)[i].mov.id != doc.mov.id
    {
      doc := MovementDoc(data.(id := nextId), now, userId);
      records := records + [doc];
      nextId := nextId + 1;
    }

    /** `deleteMovement(id)`: remove the movement with that id, if any; the
        call reports success either way and touches no item. */
    method DeleteMovement(id: Id) returns (success: bool)
      requires Valid()
      modifies this
      ensures Valid() && success && nextId == old(nextId)
      ensures records == Seqs.Filter(old(records), (d: MovementDoc) => d.mov.id != id)
      ensures forall d :: d in records <==> d in old(records) && d.mov.id != id
      ensures |records| == |old(records)| - CountId(old(records), id)
    {
      var keep := (d: MovementDoc) => d.mov.id != id;
      FilterKeepsLogValid(records, nextId, keep);
      FilterDropsId(records, id);
      records := Seqs.Filter(records, keep);
      success := true;
    }
  }

  /** How many documents carry the id (at most one in a valid log). */
  function CountId(s: seq<MovementDoc>, id: Id): (r: nat)
    ensures r <= |s|
    ensures r == 0 <==> forall i :: 0 <= i < |s| ==> s[i].mov.id != id
  {
    if s == [] then 0
    else (if s[0].mov.id == id then 1 else 0) + CountId(s[1..], id)
  }

  /** Removing an id drops exactly the documents that carry it. */
  lemma {:induction false} FilterDropsId(s: seq<MovementDoc>, id: Id)
    ensures |Seqs.Filter(s, (d: MovementDoc) => d.mov.id != id)| == |s| - CountId(s, id)
  {
    if s != [] {
      FilterDropsId(s[1..], id);
    }
  }

  /** In a valid log an id occurs at most once. */
  lemma {:induction false} IdsUnique(s: seq<MovementDoc>, id: Id)
    requires forall i, j :: 0 <= i < j < |s| ==> s[i].mov.id < s[j].mov.id
    ensures CountId(s, id) <= 1
  {
    if s != [] {
      IdsUnique(s[1..], id);
      if s[0].mov.id == id {
        forall i | 0 <= i < |s[1..]| ensures s[1..][i].mov.id != id {
          assert s[1..][i] == s[i + 1];
        }
      }
    }
  }

  /** `createMovement(data, userId)`.
      - An unknown item, or an exit larger than the stock, fails before
        anything is written.
      - Otherwise the movement is stored first, with the item's current name,
        the caller's quantity, the placeholder responsible person and an
        empty note when those are missing, and today's date.
      - Then an entry, exit or discard updates the item's stock (and the
        discard flag) and returns the movement with the new stock; any other
        kind fails, leaving the movement stored and the item as it was. */
  method CreateMovement(store: ItemsService.ItemStore, log: MovementLog, req: MovementRequest,
                        userId: string, today: FullDate, now: Time)
    returns (r: Result<Created, Failure>)
    requires store.Valid() && log.Valid()
    requires req.cantidad >= 1
    requires log.IsLaterThanAll(now)
    modifies store, log
    ensures store.Valid() && log.Valid()
    ensures store.nextId == old(store.nextId)
    ensures req.itemId !in old(store.docs) ==>
      r == Err(ItemNotFound) && store.docs == old(store.docs) &&
      log.records == old(log.records) && log.nextId == old(log.nextId)
    ensures req.itemId in old(store.docs) && req.tipo.Salida? && old(store.docs)[req.itemId].item.cantidad < req.cantidad ==>
      r == Err(InsufficientStock) && store.docs == old(store.docs) &&
      log.records == old(log.records) && log.nextId == old(log.nextId)
    ensures req.itemId in old(store.docs) && !(req.tipo.Salida? && old(store.docs)[req.itemId].item.cantidad < req.cantidad) ==>
      var x := old(store.docs)[req.itemId].item;
      var responsable := Js.OrElse(req.responsable, NoResponsable);
      var doc := MovementDoc(Movement(old(log.nextId), req.itemId, x.nombre, req.tipo, req.cantidad,
                                      responsable, today, Js.OrElse(req.nota, "")), now, userId);
      log.records == old(log.records) + [doc] &&
      (req.tipo.Otro? ==> r == Err(InvalidTipo) && store.docs == old(store.docs)) &&
      (!req.tipo.Otro? ==>
        var updated := old(store.docs)[req.itemId].(item := ApplyMovement(x, req.tipo, req.cantidad, responsable),
                                                    updatedAt := now);
        r == Ok(Created(doc, updated.item.cantidad)) &&
        store.docs == old(store.docs)[req.itemId := updated])
  {
    var found := ItemsService.GetItemById(store.docs, req.itemId);
    if found.Err? {
      return Err(found.error);
    }
    var x := found.value.item;
    if req.tipo.Salida? && x.cantidad < req.cantidad {
      return Err(InsufficientStock);
    }
    var data := Movement(0, req.itemId, x.nombre, req.tipo, req.cantidad,
                         Js.OrElse(req.responsable, NoResponsable), today, Js.OrElse(req.nota, ""));
    var doc := log.Add(data, now, userId);
    var newQuantity := x.cantidad;
    match req.tipo {
      case Entrada =>
        newQuantity := x.cantidad + req.cantidad;
        var _ := store.UpdateItemQuantity(req.itemId, newQuantity, req.responsable, now);
      case Salida =>
        newQuantity := if x.cantidad - req.cantidad > 0 then x.cantidad - req.cantidad else 0;
        var _ := store.UpdateItemQuantity(req.itemId, newQuantity, req.responsable, now);
      case Descarte =>
        var _ := store.DiscardItem(req.itemId, req.responsable, now);
        newQuantity := 0;
      case Otro(_) =>
        return Err(InvalidTipo);
    }
    r := Ok(Created(doc, newQuantity));
  }

  /** The optional query of `getAllMovements`. */
  datatype PageOptions = PageOptions(limit: Option<int>, page: Option<int>, itemId: Option<Id>)

  /** One page of the listing and its pagination figures. */
  datatype Page = Page(movements: seq<MovementDoc>, page: int, limit: int, total: nat, totalPages: int)

  /** The documents for one item, or all of them when no item is given. */
  function Matching(records: seq<MovementDoc>, itemId: Option<Id>): (r: seq<MovementDoc>)
    ensures forall d :: d in r <==> d in records && (itemId.None? || d.mov.itemId == itemId.value)
    ensures Chronological(records) ==> Chronological(r)
  {
    if itemId.None? then records
    else
      var p := (d: MovementDoc) => d.mov.itemId == itemId.value;
      assert Chronological(records) ==> Chronological(Seqs.Filter(records, p)) by {
        if Chronological(records) {
          Seqs.FilterKeepsOrder(records, p, (a: MovementDoc, b: MovementDoc) => a.createdAt < b.createdAt);
        }
      }
      Seqs.Filter(records, p)
  }

  /** Reversing a chronological list puts the newest first. */
  lemma ReverseChronological(s: seq<MovementDoc>)
    requires Chronological(s)
    ensures NewestFirst(Seqs.Reverse(s))
  {
    var r := Seqs.Reverse(s);
    forall i, j | 0 <= i < j < |r| ensures r[i].createdAt > r[j].createdAt {
      assert r[i] == s[|s| - 1 - i] && r[j] == s[|s| - 1 - j];
    }
  }

  /** A window of a newest-first list is newest first. */
  lemma WindowNewestFirst(s: seq<MovementDoc>, offset: nat, limit: nat)
    requires NewestFirst(s)
    ensures NewestFirst(Seqs.Window(s, offset, limit))
  {
    var r := Seqs.Window(s, offset, limit);
    forall i, j | 0 <= i < j < |r| ensures r[i].createdAt > r[j].createdAt {
      assert r[i] == s[offset + i] && r[j] == s[offset + j];
    }
  }

  lemma MulMonotone(a: int, b: int, c: int)
    requires a <= b && c >= 0
    ensures a * c <= b * c
  {
  }

  /** Where page `page` starts: `(page - 1) * limit`. */
  function Offset(page: int, limit: int): (r: nat)
    requires page >= 1 && limit >= 1
    ensures r >= page - 1
  {
    MulMonotone(1, limit, page - 1);
    (page - 1) * limit
  }

  /** The page arithmetic: with `totalPages = ceil(total / limit)`, the
      window of page `page` starts past the end when the page is past the
      last, ends inside the list before the last page, and reaches the end
      on the last page. */
  lemma PageArithmetic(total: nat, limit: int, page: int)
    requires limit >= 1 && page >= 1
    ensures var totalPages := Js.CeilDiv(total, limit);
      var offset := Offset(page, limit);
      totalPages >= 0 && (total == 0 ==> totalPages == 0) &&
      (page > totalPages ==> offset >= total) &&
      (page < totalPages ==> offset + limit <= total) &&
      (page == totalPages ==> offset < total <= offset + limit)
  {
    var totalPages := Js.CeilDiv(total, limit);
    var offset := Offset(page, limit);
    if totalPages < 0 { MulMonotone(totalPages, -1, limit); }
    if total == 0 && totalPages >= 1 { MulMonotone(1, totalPages, limit); }
    if page > totalPages { MulMonotone(totalPages, page - 1, limit); }
    if page < totalPages { MulMonotone(page, totalPages - 1, limit); }
  }

  /** Every element of a window of the reversed list is in the list. */
  lemma WindowOfReverseWithin(s: seq<MovementDoc>, offset: nat, limit: nat)
    ensures forall d :: d in Seqs.Window(Seqs.Reverse(s), offset, limit) ==> d in s
  {
    var ordered := Seqs.Reverse(s);
    var w := Seqs.Window(ordered, offset, limit);
    forall d | d in w ensures d in s {
      var i :| 0 <= i < |w| && w[i] == d;
      assert ordered[offset + i] == s[|s| - 1 - (offset + i)];
    }
  }

  /** Page `page` of `limit` movements over `matching` taken newest first,
      with the pagination figures.
      - The page is the window at `(page - 1) * limit`, of at most `limit`.
      - `total` counts every matching movement and `totalPages` is the
        ceiling of `total / limit`.
      - Pages before the last are full, the last holds the remainder, and a
        page past the last is empty. */
  function Paginate(matching: seq<MovementDoc>, page: int, limit: int): (r: Page)
    requires limit >= 1 && page >= 1
    ensures r.limit == limit && r.page == page && r.total == |matching|
    ensures (r.totalPages - 1) * r.limit < r.total <= r.totalPages * r.limit || (r.total == 0 && r.totalPages == 0)
    ensures |r.movements| <= r.limit
    ensures r.page > r.totalPages ==> r.movements == []
    ensures r.page < r.totalPages ==> |r.movements| == r.limit
    ensures r.page == r.totalPages ==> |r.movements| == r.total - Offset(r.page, r.limit)
    ensures forall i :: 0 <= i < |r.movements| ==>
      Offset(page, limit) + i < |matching| &&
      r.movements[i] == Seqs.Reverse(matching)[Offset(page, limit) + i]
    ensures forall d :: d in r.movements ==> d in matching
    ensures Chronological(matching) ==> NewestFirst(r.movements)
  {
    var ordered := Seqs.Reverse(matching);
    var offset := Offset(page, limit);
    var movements := Seqs.Window(ordered, offset, limit);
    var total := |matching|;
    var totalPages := Js.CeilDiv(total, limit);
    PageArithmetic(total, limit, page);
    WindowOfReverseWithin(matching, offset, limit);
    assert Chronological(matching) ==> NewestFirst(movements) by {
      if Chronological(matching) {
        ReverseChronological(matching);
        WindowNewestFirst(ordered, offset, limit);
      }
    }
    Page(movements, page, limit, total, totalPages)
  }

  /** `getAllMovements({ limit = 50, page = 1, itemId })`: a page of the
      movements of `itemId` (of all items when none is given), newest first. */
  function GetAllMovements(records: seq<MovementDoc>, opts: PageOptions): (r: Page)
    requires opts.limit.Some? ==> 1 <= opts.limit.value <= 100
    requires opts.page.Some? ==> opts.page.value >= 1
    ensures r == Paginate(Matching(records, opts.itemId), opts.page.GetOr(1), opts.limit.GetOr(50))
    ensures r.limit == opts.limit.GetOr(50) && r.page == opts.page.GetOr(1)
    ensures r.total == |Matching(records, opts.itemId)|
    ensures forall d :: d in r.movements ==> d in records && (opts.itemId.None? || d.mov.itemId == opts.itemId.value)
    ensures Chronological(records) ==> NewestFirst(r.movements)
  {
    Paginate(Matching(records, opts.itemId), opts.page.GetOr(1), opts.limit.GetOr(50))
  }

  /** `getMovementsByItem(itemId, limit = 20)`: the item's newest movements,
      at most `limit` of them. */
  function GetMovementsByItem(records: seq<MovementDoc>, itemId: Id, limit: Option<nat>): (r: seq<MovementDoc>)
    ensures |r| <= limit.GetOr(20)
    ensures |r| == if |Matching(records, Some(itemId))| < limit.GetOr(20)
                   then |Matching(records, Some(itemId))| else limit.GetOr(20)
    ensures forall i :: 0 <= i < |r| ==> r[i] == Seqs.Reverse(Matching(records, Some(itemId)))[i]
    ensures forall d :: d in r ==> d in records && d.mov.itemId == itemId
    ensures Chronological(records) ==> NewestFirst(r)
  {
    var ordered := Seqs.Reverse(Matching(records, Some(itemId)));
    var r := Seqs.Window(ordered, 0, limit.GetOr(20));
    WindowOfReverseWithin(Matching(records, Some(itemId)), 0, limit.GetOr(20));
    assert Chronological(records) ==> NewestFirst(r) by {
      if Chronological(records) {
        ReverseChronological(Matching(records, Some(itemId)));
        WindowNewestFirst(ordered, 0, limit.GetOr(20));
      }
    }
    r
  }

  /** `getMovementById(id)`: the movement, or "Movimiento no encontrado". */
  function GetMovementById(records: seq<MovementDoc>, id: Id): (r: Result<MovementDoc, Failure>)
    ensures r.Ok? <==> exists i :: 0 <= i < |records| && records[i].mov.id == id
    ensures r.Ok? ==> r.value in records && r.value.mov.id == id
    ensures r.Err? ==> r.error == MovementNotFound
  {
    if records == [] then Err(MovementNotFound)
    else if records[0].mov.id == id then Ok(records[0])
    else
      var rest := GetMovementById(records[1..], id);
      assert forall i :: 0 < i < |records| ==> records[i] == records[1..][i - 1];
      rest
  }

  /** The figures `getMovementsStats` reports. */
  datatype Stats = Stats(
    total: nat,
    entradas: nat,
    salidas: nat,
    descartes: nat,
    cantidadTotalEntradas: int,
    cantidadTotalSalidas: int)

  /** The `fecha >= startDate` and `fecha <= endDate` conditions, each only
      when its bound is given. */
  function InRange(fecha: FullDate, startDate: Option<FullDate>, endDate: Option<FullDate>): (r: bool)
    ensures r <==> (startDate.None? || DayNumber(startDate.value) <= DayNumber(fecha)) &&
                   (endDate.None? || DayNumber(fecha) <= DayNumber(endDate.value))
    ensures startDate.Some? && endDate.Some? && Before(endDate.value, startDate.value) ==> !r
  {
    assert startDate.Some? ==> (Before(fecha, startDate.value) <==> DayNumber(fecha) < DayNumber(startDate.value)) by {
      if startDate.Some? { DayNumberOrder(fecha, startDate.value); }
    }
    assert endDate.Some? ==> (Before(endDate.value, fecha) <==> DayNumber(endDate.value) < DayNumber(fecha)) by {
      if endDate.Some? { DayNumberOrder(endDate.value, fecha); }
    }
    assert startDate.Some? && endDate.Some? ==>
      (Before(endDate.value, startDate.value) <==> DayNumber(endDate.value) < DayNumber(startDate.value)) by {
      if startDate.Some? && endDate.Some? { DayNumberOrder(endDate.value, startDate.value); }
    }
    (startDate.None? || !Before(fecha, startDate.value)) && (endDate.None? || !Before(endDate.value, fecha))
  }

  /** The movements of one kind. */
  function OfKind(s: seq<Movement>, t: Tipo): (r: seq<Movement>)
    ensures forall m :: m in r <==> m in s && m.tipo == t
    ensures |r| <= |s|
  {
    Seqs.Filter(s, (m: Movement) => m.tipo == t)
  }

  /** `reduce((sum, m) => sum + m.cantidad, 0)`. When every quantity is at
      least 1 the sum is at least the number of movements. */
  function SumCantidad(s: seq<Movement>): (r: int)
    ensures (forall i :: 0 <= i < |s| ==> s[i].cantidad >= 1) ==> r >= |s|
  {
    if s == [] then 0 else s[0].cantidad + SumCantidad(s[1..])
  }

  /** The three recognised kinds together are at most all the movements. */
  lemma {:induction false} KindsWithinTotal(s: seq<Movement>)
    ensures |OfKind(s, Entrada)| + |OfKind(s, Salida)| + |OfKind(s, Descarte)| <= |s|
  {
    if s != [] {
      KindsWithinTotal(s[1..]);
    }
  }

  /** The documents whose date lies in the range. */
  function Selected(records: seq<MovementDoc>, startDate: Option<FullDate>, endDate: Option<FullDate>): seq<MovementDoc> {
    Seqs.Filter(records, (d: MovementDoc) => InRange(d.mov.fecha, startDate, endDate))
  }

  /** `getMovementsStats(startDate, endDate)`: the movements dated within
      the range, counted in all and per kind, with the quantities of the
      entries and of the exits summed. */
  function GetMovementsStats(records: seq<MovementDoc>, startDate: Option<FullDate>, endDate: Option<FullDate>): (r: Stats)
    ensures r.total == |Seqs.Filter(records, (d: MovementDoc) => InRange(d.mov.fecha, startDate, endDate))|
    ensures startDate.None? && endDate.None? ==> r.total == |records|
    ensures r.total <= |records|
    ensures var moved := Movements(Selected(records, startDate, endDate));
      && r.entradas == |OfKind(moved, Entrada)|
      && r.salidas == |OfKind(moved, Salida)|
      && r.descartes == |OfKind(moved, Descarte)|
      && r.cantidadTotalEntradas == SumCantidad(OfKind(moved, Entrada))
      && r.cantidadTotalSalidas == SumCantidad(OfKind(moved, Salida))
    ensures r.entradas + r.salidas + r.descartes <= r.total
    ensures (forall i :: 0 <= i < |records| ==> records[i].mov.cantidad >= 1) ==>
      r.cantidadTotalEntradas >= r.entradas && r.cantidadTotalSalidas >= r.salidas
  {
    var movements := Movements(Selected(records, startDate, endDate));
    StatsBounds(records, startDate, endDate);
    Stats(|movements|, |OfKind(movements, Entrada)|, |OfKind(movements, Salida)|, |OfKind(movements, Descarte)|,
          SumCantidad(OfKind(movements, Entrada)), SumCantidad(OfKind(movements, Salida)))
  }

  /** The bounds the statistics keep: everything without a range, the kinds
      within the total, and sums at least the counts for valid quantities. */
  lemma StatsBounds(records: seq<MovementDoc>, startDate: Option<FullDate>, endDate: Option<FullDate>)
    ensures startDate.None? && endDate.None? ==> Selected(records, startDate, endDate) == records
    ensures var moved := Movements(Selected(records, startDate, endDate));
      |OfKind(moved, Entrada)| + |OfKind(moved, Salida)| + |OfKind(moved, Descarte)| <= |moved|
    ensures var moved := Movements(Selected(records, startDate, endDate));
      (forall i :: 0 <= i < |records| ==> records[i].mov.cantidad >= 1) ==>
      SumCantidad(OfKind(moved, Entrada)) >= |OfKind(moved, Entrada)| &&
      SumCantidad(OfKind(moved, Salida)) >= |OfKind(moved, Salida)|
  {
    var inRange := Selected(records, startDate, endDate);
    if startDate.None? && endDate.None? {
      Seqs.FilterKeepsAll(records, (d: MovementDoc) => InRange(d.mov.fecha, startDate, endDate));
    }
    KindsWithinTotal(Movements(inRange));
    if forall i :: 0 <= i < |records| ==> records[i].mov.cantidad >= 1 {
      PositiveQuantities(records, inRange, Entrada);
      PositiveQuantities(records, inRange, Salida);
    }
  }

  /** `snapshot.docs.map(doc => doc.data())`, keeping the movement fields. */
  function Movements(docs: seq<MovementDoc>): (r: seq<Movement>)
    ensures |r| == |docs|
    ensures forall i :: 0 <= i < |docs| ==> r[i] == docs[i].mov
  {
    seq(|docs|, i requires 0 <= i < |docs| => docs[i].mov)
  }

  /** When every stored quantity is at least 1, so is every quantity of one
      kind among any selection of the stored movements. */
  lemma PositiveQuantities(records: seq<MovementDoc>, selected: seq<MovementDoc>, t: Tipo)
    requires forall i :: 0 <= i < |records| ==> records[i].mov.cantidad >= 1
    requires forall d :: d in selected ==> d in records
    ensures forall i :: 0 <= i < |OfKind(Movements(selected), t)| ==> OfKind(Movements(selected), t)[i].cantidad >= 1
  {
    var ms := Movements(selected);
    var k := OfKind(ms, t);
    forall i | 0 <= i < |k| ensures k[i].cantidad >= 1 {
      assert k[i] in ms;
      var j :| 0 <= j < |ms| && ms[j] == k[i];
      assert selected[j] in records;
    }
  }
}
