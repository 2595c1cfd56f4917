/** The server's item collection (backend/src/services/items.service.js):
    creation with defaults, the field-restricted updates, and the read-only
    queries: listing with filters, the alert classification and the text
    search. The document store is a map from document id to document; ids
    are handed out in increasing order, and the store lists documents in id
    order. */
module ItemsService {
  import opened Results
  import opened Dates
  import opened Records
  import Js
  import Seqs

  /** A timestamp (`new Date()`), supplied by the caller. */
  type Time = int

  /** A stored item with its audit fields. */
  datatype ItemDoc = ItemDoc(item: Item, createdAt: Time, updatedAt: Time, createdBy: string)

  /** The body of an item update: each field is either undefined (kept) or a
      new value (written). */
  datatype ItemPatch = ItemPatch(
    nombre: Option<string>,
    lote: Option<string>,
    caducidad: Option<FullDate>,
    unidad: Option<string>,
    cantidad: Option<int>,
    minimo: Option<int>,
    descartado: Option<bool>,
    responsableUltimo: Option<string>)

  /** The item with the patch's defined fields written over it. */
  function Patched(x: Item, p: ItemPatch): (r: Item)
    ensures r.id == x.id
    ensures p.nombre.Some? ==> r.nombre == p.nombre.value
    ensures p.nombre.None? ==> r.nombre == x.nombre
    ensures p.lote.Some? ==> r.lote == p.lote.value
    ensures p.lote.None? ==> r.lote == x.lote
    ensures p.caducidad.Some? ==> r.caducidad == p.caducidad.value
    ensures p.caducidad.None? ==> r.caducidad == x.caducidad
    ensures p.unidad.Some? ==> r.unidad == p.unidad.value
    ensures p.unidad.None? ==> r.unidad == x.unidad
    ensures p.cantidad.Some? ==> r.cantidad == p.cantidad.value
    ensures p.cantidad.None? ==> r.cantidad == x.cantidad
    ensures p.minimo.Some? ==> r.minimo == p.minimo.value
    ensures p.minimo.None? ==> r.minimo == x.minimo
    ensures p.descartado.Some? ==> r.descartado == p.descartado.value
    ensures p.descartado.None? ==> r.descartado == x.descartado
    ensures p.responsableUltimo.Some? ==> r.responsableUltimo == p.responsableUltimo.value
    ensures p.responsableUltimo.None? ==> r.responsableUltimo == x.responsableUltimo
  {
    x.(nombre := p.nombre.GetOr(x.nombre),
       lote := p.lote.GetOr(x.lote),
       caducidad := p.caducidad.GetOr(x.caducidad),
       unidad := p.unidad.GetOr(x.unidad),
       cantidad := p.cantidad.GetOr(x.cantidad),
       minimo := p.minimo.GetOr(x.minimo),
       descartado := p.descartado.GetOr(x.descartado),
       responsableUltimo := p.responsableUltimo.GetOr(x.responsableUltimo))
  }

  /** Applying the same patch twice is applying it once. */
  lemma PatchedIdempotent(x: Item, p: ItemPatch)
    ensures Patched(Patched(x, p), p) == Patched(x, p)
  {
  }

  /** The documents with id below `bound`, in increasing id order. */
  function Listing(docs: map<Id, ItemDoc>, bound: nat): (r: seq<ItemDoc>)
    requires forall id :: id in docs ==> docs[id].item.id == id
    ensures forall d :: d in r <==> d in docs.Values && d.item.id < bound
    ensures forall i, j :: 0 <= i < j < |r| ==> r[i].item.id < r[j].item.id
    ensures forall i :: 0 <= i < |r| ==> r[i].item.id < bound
  {
    if bound == 0 then []
    else
      var below := Listing(docs, bound - 1);
      if bound - 1 in docs then
        assert docs[bound - 1] in docs.Values;
        below + [docs[bound - 1]]
      else below
  }

  /** Listing below a bound depends only on the documents below it. */
  lemma {:induction false} ListingAgrees(docs: map<Id, ItemDoc>, docs': map<Id, ItemDoc>, bound: nat)
    requires forall id :: id in docs ==> docs[id].item.id == id
    requires forall id :: id in docs' ==> docs'[id].item.id == id
    requires forall id :: id < bound ==> (id in docs <==> id in docs') && (id in docs ==> docs[id] == docs'[id])
    ensures Listing(docs, bound) == Listing(docs', bound)
  {
    if bound > 0 {
      ListingAgrees(docs, docs', bound - 1);
    }
  }

  /** Storing a document under the first id past every other one lists it
      after all of them. */
  lemma ListingExtends(docs: map<Id, ItemDoc>, id: Id, doc: ItemDoc)
    requires forall k :: k in docs ==> docs[k].item.id == k && k < id
    requires doc.item.id == id
    ensures Listing(docs[id := doc], id + 1) == Listing(docs, id) + [doc]
  {
    ListingAgrees(docs, docs[id := doc], id);
  }

  /** The item collection: documents by id, and the next id to hand out. */
  class ItemStore {
    var docs: map<Id, ItemDoc>
    var nextId: Id

    /** Every document sits under its own id, below the next id, with a
        non-negative stock and threshold. */
    ghost predicate Valid()
      reads this
    {
      forall id :: id in docs ==>
        id < nextId && docs[id].item.id == id && docs[id].item.cantidad >= 0 && docs[id].item.minimo >= 0
    }

    constructor ()
      ensures Valid() && docs == map[] && nextId == 0
    {
      docs := map[];
      nextId := 0;
    }

    /** The collection as the store lists it. */
    function Snapshot(): seq<ItemDoc>
      reads this
      requires Valid()
    {
      Listing(docs, nextId)
    }

    /** `createItem(data, userId)`: store a new item with the creation
        defaults and both timestamps set to now. With ids handed out in
        increasing order it is listed last. */
    method CreateItem(data: NewItem, userId: string, now: Time) returns (doc: ItemDoc)
      requires Valid()
      requires data.cantidad.GetOr(0) >= 0 && data.minimo.GetOr(0) >= 0
      modifies this
      ensures Valid()
      ensures doc == ItemDoc(FreshItem(old(nextId), data), now, now, userId)
      ensures doc.item.id !in old(docs) && docs == old(docs)[doc.item.id := doc]
      ensures Snapshot() == old(Snapshot()) + [doc]
    {
      var id := nextId;
      doc := ItemDoc(FreshItem(id, data), now, now, userId);
      ListingExtends(docs, id, doc);
      docs := docs[id := doc];
      nextId := nextId + 1;
    }

    /** `updateItem(id, data)`: write every defined field of the patch and the
        update time; the store refuses a missing document. */
    method UpdateItem(id: Id, patch: ItemPatch, now: Time) returns (r: Result<ItemDoc, Failure>)
      requires Valid()
      requires patch.cantidad.GetOr(0) >= 0 && patch.minimo.GetOr(0) >= 0
      modifies this
      ensures Valid() && nextId == old(nextId)
      ensures id !in old(docs) ==> r == Err(NoDocumentToUpdate) && docs == old(docs)
      ensures id in old(docs) ==>
        var d := old(docs)[id].(item := Patched(old(docs)[id].item, patch), updatedAt := now);
        r == Ok(d) && docs == old(docs)[id := d]
    {
      if id !in docs {
        return Err(NoDocumentToUpdate);
      }
      var d := docs[id].(item := Patched(docs[id].item, patch), updatedAt := now);
      docs := docs[id := d];
      r := Ok(d);
    }

    /** `updateItemQuantity(id, newQuantity, responsable)`: write only the
        stock, the responsible person (the placeholder when none is given)
        and the update time. */
    method UpdateItemQuantity(id: Id, newQuantity: int, responsable: Option<string>, now: Time)
      returns (r: Result<ItemDoc, Failure>)
      requires Valid()
      requires newQuantity >= 0
      modifies this
      ensures Valid() && nextId == old(nextId)
      ensures id !in old(docs) ==> r == Err(NoDocumentToUpdate) && docs == old(docs)
      ensures id in old(docs) ==>
        var d := old(docs)[id].(item := old(docs)[id].item.(cantidad := newQuantity,
                                  responsableUltimo := Js.OrElse(responsable, NoResponsable)),
                                updatedAt := now);
        r == Ok(d) && docs == old(docs)[id := d]
    {
      if id !in docs {
        return Err(NoDocumentToUpdate);
      }
      var x := docs[id].item;
      var d := docs[id].(item := x.(cantidad := newQuantity, responsableUltimo := Js.OrElse(responsable, NoResponsable)),
                         updatedAt := now);
      docs := docs[id := d];
      r := Ok(d);
    }

    /** `discardItem(id, responsable)`: mark discarded, empty the stock,
        record who did it and when. */
    method DiscardItem(id: Id, responsable: Option<string>, now: Time) returns (r: Result<ItemDoc, Failure>)
      requires Valid()
      modifies this
      ensures Valid() && nextId == old(nextId)
      ensures id !in old(docs) ==> r == Err(NoDocumentToUpdate) && docs == old(docs)
      ensures id in old(docs) ==>
        var d := old(docs)[id].(item := old(docs)[id].item.(descartado := true, cantidad := 0,
                                  responsableUltimo := Js.OrElse(responsable, NoResponsable)),
                                updatedAt := now);
        r == Ok(d) && docs == old(docs)[id := d]
    {
      if id !in docs {
        return Err(NoDocumentToUpdate);
      }
      var x := docs[id].item;
      var d := docs[id].(item := x.(descartado := true, cantidad := 0, responsableUltimo := Js.OrElse(responsable, NoResponsable)),
                         updatedAt := now);
      docs := docs[id := d];
      r := Ok(d);
    }

    /** `deleteItem(id)`: the soft delete. It marks the item discarded and
        stamps the time, and leaves the stock as it was. */
    method DeleteItem(id: Id, now: Time) returns (r: Result<bool, Failure>)
      requires Valid()
      modifies this
      ensures Valid() && nextId == old(nextId)
      ensures id !in old(docs) ==> r == Err(NoDocumentToUpdate) && docs == old(docs)
      ensures id in old(docs) ==>
        var d := old(docs)[id].(item := old(docs)[id].item.(descartado := true), updatedAt := now);
        r == Ok(true) && docs == old(docs)[id := d] && d.item.cantidad == old(docs)[id].item.cantidad
    {
      if id !in docs {
        return Err(NoDocumentToUpdate);
      }
      var d := docs[id].(item := docs[id].item.(descartado := true), updatedAt := now);
      docs := docs[id := d];
      r := Ok(true);
    }
  }

  /** `getItemById(id)`: the document, or "Item no encontrado". */
  function GetItemById(docs: map<Id, ItemDoc>, id: Id): (r: Result<ItemDoc, Failure>)
    ensures r.Ok? <==> id in docs
    ensures r.Ok? ==> r.value == docs[id]
    ensures r.Err? ==> r.error == ItemNotFound
  {
    if id in docs then Ok(docs[id]) else Err(ItemNotFound)
  }

  /** The optional filters of `getAllItems`: an exact `descartado` value, and
      a `nombre` whose presence asks for name order. */
  datatype ItemFilters = ItemFilters(descartado: Option<bool>, nombre: Option<string>)

  /** The listing restricted to one `descartado` value, when one is given. */
  function WithDescartado(snapshot: seq<ItemDoc>, flag: Option<bool>): (r: seq<ItemDoc>)
    ensures forall d :: d in r <==> d in snapshot && (flag.None? || d.item.descartado == flag.value)
    ensures Seqs.SubsequenceOf(r, snapshot)
  {
    if flag.None? then
      Seqs.FilterKeepsAll(snapshot, (d: ItemDoc) => true);
      Seqs.Filter(snapshot, (d: ItemDoc) => true)
    else Seqs.Filter(snapshot, (d: ItemDoc) => d.item.descartado == flag.value)
  }

  /** Names in non-decreasing order. */
  ghost predicate SortedByName(s: seq<ItemDoc>) {
    forall i, j :: 0 <= i < j < |s| ==> Js.StrLeq(s[i].item.nombre, s[j].item.nombre)
  }

  /** Every name in `s` is at least `lo`. */
  ghost predicate NamesFrom(lo: string, s: seq<ItemDoc>) {
    forall j :: 0 <= j < |s| ==> Js.StrLeq(lo, s[j].item.nombre)
  }

  /** A sorted list is its first element followed by a sorted list whose
      names are all at least the first one's. */
  lemma SortedSplit(s: seq<ItemDoc>)
    requires s != []
    ensures SortedByName(s) <==> NamesFrom(s[0].item.nombre, s[1..]) && SortedByName(s[1..])
  {
    if NamesFrom(s[0].item.nombre, s[1..]) && SortedByName(s[1..]) {
      forall i, j | 0 <= i < j < |s| ensures Js.StrLeq(s[i].item.nombre, s[j].item.nombre) {
        if i == 0 {
          assert s[j] == s[1..][j - 1];
        } else {
          assert s[i] == s[1..][i - 1] && s[j] == s[1..][j - 1];
        }
      }
    }
  }

  /** `d` placed before the first document whose name is not below its own. */
  function InsertByName(d: ItemDoc, s: seq<ItemDoc>): (r: seq<ItemDoc>)
    ensures multiset(r) == multiset(s) + multiset{d}
  {
    if s == [] then [d]
    else if Js.StrLeq(d.item.nombre, s[0].item.nombre) then [d] + s
    else
      assert s == [s[0]] + s[1..];
      [s[0]] + InsertByName(d, s[1..])
  }

  /** Inserting a name that is at least `lo` keeps every name at least `lo`. */
  lemma {:induction false} InsertKeepsBound(lo: string, d: ItemDoc, s: seq<ItemDoc>)
    requires NamesFrom(lo, s) && Js.StrLeq(lo, d.item.nombre)
    ensures NamesFrom(lo, InsertByName(d, s))
  {
    if s != [] && !Js.StrLeq(d.item.nombre, s[0].item.nombre) {
      InsertKeepsBound(lo, d, s[1..]);
      var r := InsertByName(d, s);
      assert r[1..] == InsertByName(d, s[1..]);
      forall j | 0 <= j < |r| ensures Js.StrLeq(lo, r[j].item.nombre) {
        if j > 0 { assert r[j] == r[1..][j - 1]; }
      }
    }
  }

  /** Insertion into a sorted list gives a sorted list. */
  lemma {:induction false} InsertKeepsSorted(d: ItemDoc, s: seq<ItemDoc>)
    requires SortedByName(s)
    ensures SortedByName(InsertByName(d, s))
  {
    if s == [] {
    } else if Js.StrLeq(d.item.nombre, s[0].item.nombre) {
      var r := [d] + s;
      assert r[1..] == s;
      forall j | 0 <= j < |s| ensures Js.StrLeq(d.item.nombre, s[j].item.nombre) {
        if j > 0 { Js.StrLeqTrans(d.item.nombre, s[0].item.nombre, s[j].item.nombre); }
      }
      SortedSplit(r);
    } else {
      SortedSplit(s);
      Js.StrLeqTotal(d.item.nombre, s[0].item.nombre);
      InsertKeepsSorted(d, s[1..]);
      InsertKeepsBound(s[0].item.nombre, d, s[1..]);
      var r := InsertByName(d, s);
      assert r[0] == s[0] && r[1..] == InsertByName(d, s[1..]);
      SortedSplit(r);
    }
  }

  /** The store's `orderBy('nombre')`: the same documents, names ascending. */
  function SortByName(s: seq<ItemDoc>): (r: seq<ItemDoc>)
    ensures SortedByName(r)
    ensures multiset(r) == multiset(s)
  {
    if s == [] then []
    else
      assert s == [s[0]] + s[1..];
      InsertKeepsSorted(s[0], SortByName(s[1..]));
      InsertByName(s[0], SortByName(s[1..]))
  }

  /** Whether a `nombre` filter is present (a non-empty string is truthy). */
  predicate OrdersByName(f: ItemFilters) {
    f.nombre.Some? && f.nombre.value != ""
  }

  /** `getAllItems(filters)`: every listed document with the requested
      `descartado` value, by name when a `nombre` filter is present and in
      listing order otherwise. */
  function GetAllItems(snapshot: seq<ItemDoc>, f: ItemFilters): (r: seq<ItemDoc>)
    ensures forall d :: d in r <==> d in snapshot && (f.descartado.None? || d.item.descartado == f.descartado.value)
    ensures multiset(r) == multiset(WithDescartado(snapshot, f.descartado))
    ensures OrdersByName(f) ==> SortedByName(r)
    ensures !OrdersByName(f) ==> r == WithDescartado(snapshot, f.descartado)
  {
    var base := WithDescartado(snapshot, f.descartado);
    if OrdersByName(f) then
      var r := SortByName(base);
      assert forall d :: d in r <==> d in multiset(base);
      r
    else base
  }

  /** The active items: `getAllItems({ descartado: false })`. */
  function Active(snapshot: seq<ItemDoc>): (r: seq<ItemDoc>)
    ensures forall d :: d in r <==> d in snapshot && !d.item.descartado
    ensures Seqs.SubsequenceOf(r, snapshot)
  {
    GetAllItems(snapshot, ItemFilters(Some(false), None))
  }

  /** The alert lists and the number of items they were drawn from. */
  datatype Alerts = Alerts(vencidos: seq<ItemDoc>, proximos: seq<ItemDoc>, bajos: seq<ItemDoc>, total: nat)

  /** `getAlerts()`: among the active items, the expired ones, those
      expiring within 60 days and those at or below their threshold. The
      first two never share an item; low stock is independent of the date. */
  function GetAlerts(snapshot: seq<ItemDoc>, today: FullDate): (r: Alerts)
    ensures forall d :: d in r.vencidos <==> d in snapshot && !d.item.descartado && EstaVencido(d.item.caducidad, today)
    ensures forall d :: d in r.proximos <==> d in snapshot && !d.item.descartado && ProximoAVencer(d.item.caducidad, today)
    ensures forall d :: d in r.bajos <==> d in snapshot && !d.item.descartado && d.item.cantidad <= d.item.minimo
    ensures forall d :: d in r.vencidos ==> d !in r.proximos
    ensures r.total == |Active(snapshot)| && r.total <= |snapshot|
    ensures |r.vencidos| + |r.proximos| <= r.total && |r.bajos| <= r.total
  {
    var items := Active(snapshot);
    var vencidos := Seqs.Filter(items, (d: ItemDoc) => EstaVencido(d.item.caducidad, today));
    var proximos := Seqs.Filter(items, (d: ItemDoc) => ProximoAVencer(d.item.caducidad, today));
    var bajos := Seqs.Filter(items, (d: ItemDoc) => d.item.cantidad <= d.item.minimo);
    Seqs.DisjointFiltersFit(items, (d: ItemDoc) => EstaVencido(d.item.caducidad, today),
                       (d: ItemDoc) => ProximoAVencer(d.item.caducidad, today));
    Alerts(vencidos, proximos, bajos, |items|)
  }

  /** The search match: the term occurs in the lower-cased name or lot, or
      in a non-empty lower-cased unit. */
  function SearchMatch(x: Item, term: string): (r: bool)
    ensures term == "" ==> r
    ensures r <==> Js.Includes(Js.ToLower(x.nombre), term) || Js.Includes(Js.ToLower(x.lote), term) ||
                   Js.Includes(Js.ToLower(x.unidad), term)
    ensures x.unidad == "" && term != "" ==>
      (r <==> Js.Includes(Js.ToLower(x.nombre), term) || Js.Includes(Js.ToLower(x.lote), term))
  {
    assert term == "" ==> Js.Includes(Js.ToLower(x.nombre), term) by {
      if term == "" { assert Js.OccursAt(Js.ToLower(x.nombre), term, 0); }
    }
    assert x.unidad == "" && term != "" ==> !Js.Includes(Js.ToLower(x.unidad), term) by {
      if x.unidad == "" && term != "" { Js.EmptyIncludesNothing(term); }
    }
    Js.Includes(Js.ToLower(x.nombre), term) ||
    Js.Includes(Js.ToLower(x.lote), term) ||
    (x.unidad != "" && Js.Includes(Js.ToLower(x.unidad), term))
  }

  /** `searchItems(searchTerm)`: the active items, all of them for a blank
      term, otherwise those matching the lower-cased, trimmed term. */
  function SearchItems(snapshot: seq<ItemDoc>, searchTerm: string): (r: seq<ItemDoc>)
    ensures Js.Trim(Js.ToLower(searchTerm)) == "" ==> r == Active(snapshot)
    ensures forall d :: d in r <==>
      d in snapshot && !d.item.descartado &&
      (Js.Trim(Js.ToLower(searchTerm)) == "" || SearchMatch(d.item, Js.Trim(Js.ToLower(searchTerm))))
    ensures Seqs.SubsequenceOf(r, snapshot)
  {
    var items := Active(snapshot);
    var term := Js.Trim(Js.ToLower(searchTerm));
    if term == "" then items
    else
      var r := Seqs.Filter(items, (d: ItemDoc) => SearchMatch(d.item, term));
      SubsequenceTrans(r, items, snapshot);
      r
  }

  /** A white-space-only term is blank: the search returns every active item. */
  lemma BlankSearchReturnsActive(snapshot: seq<ItemDoc>, searchTerm: string)
    requires forall i :: 0 <= i < |searchTerm| ==> Js.IsSpace(searchTerm[i])
    ensures SearchItems(snapshot, searchTerm) == Active(snapshot)
  {
    var l := Js.ToLower(searchTerm);
    forall i | 0 <= i < |l| ensures Js.IsSpace(l[i]) {
      Js.LowerKeepsSpace(searchTerm[i]);
    }
    Js.TrimBlank(l);
  }

  lemma {:induction false} SubsequenceTrans<T>(a: seq<T>, b: seq<T>, c: seq<T>)
    requires Seqs.SubsequenceOf(a, b) && Seqs.SubsequenceOf(b, c)
    ensures Seqs.SubsequenceOf(a, c)
    decreases |c|
  {
    if a != [] && c != [] {
      if b[0] == c[0] && Seqs.SubsequenceOf(b[1..], c[1..]) {
        if a[0] == b[0] && Seqs.SubsequenceOf(a[1..], b[1..]) {
          SubsequenceTrans(a[1..], b[1..], c[1..]);
        } else {
          SubsequenceTrans(a, b[1..], c[1..]);
        }
      } else {
        SubsequenceTrans(a, b, c[1..]);
      }
    }
  }
}
