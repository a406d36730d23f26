/**
 * `GalleryService`: gallery pictures, carried inline as base64 data URLs,
 * kept in administrator-chosen order, newest first among equals.
 */
module Gallery {
  import opened Common
  import opened Ordering
  import opened Images
  import opened Catalog

  datatype Item = Item(title: string, description: Option<string>, imageBase64: string)

  type ItemRow = Row<Item>

  const FormatMessage :=
    "Invalid image format. Must be a base64 data URL with image/png, image/jpeg, or image/webp mime type."
  const PayloadMessage := "Invalid base64 data"
  const SizeMessage := "Image size exceeds 2MB limit. Please upload a smaller image."
  const NotFoundMessage := "Gallery item not found"

  /** The database's default for `isActive` when the request leaves it out. */
  const ColumnDefaultActive := true

  /** `validateBase64Image`: no alphabet check here. */
  function ValidateImage(image: string): (r: Result<(), string>)
    ensures r.Ok? <==> CheckImage(image, false).None?
    ensures !HasImageHead(image) ==> r == Err(FormatMessage)
    ensures CheckImage(image, false) == Some(NoPayload) ==> r == Err(PayloadMessage)
    ensures CheckImage(image, false) == Some(TooLarge) ==> r == Err(SizeMessage)
    ensures r.Err? ==> r.error in {FormatMessage, PayloadMessage, SizeMessage}
  {
    match CheckImage(image, false)
    case None => Ok(())
    case Some(BadFormat) => Err(FormatMessage)
    case Some(NoPayload) => Err(PayloadMessage)
    case Some(TooLarge) => Err(SizeMessage)
  }

  datatype GalleryError =
    | BadRequest(message: string)   // 400
    | NotFound(message: string)     // 404
    | BatchFailed                   // an update inside the reorder transaction found no row
    | DuplicateId                   // the store refused a colliding id

  datatype NewItem = NewItem(title: string, description: Option<string>, imageBase64: string, isActive: Option<bool>)

  /** `createGalleryItem`: the request's fields as given, placed after every existing item. */
  function CreateStep(rows: seq<ItemRow>, now: int, data: NewItem, newId: string)
    : (out: (Result<ItemRow, GalleryError>, seq<ItemRow>))
    ensures ValidateImage(data.imageBase64).Err? ==>
      out == (Err(BadRequest(ValidateImage(data.imageBase64).error)), rows)
    ensures out.0.Ok? <==> ValidateImage(data.imageBase64).Ok? && !HasId(rows, newId)
    ensures out.0.Err? ==> out.1 == rows
    ensures out.0.Ok? ==>
      out.1 == rows + [out.0.value]
      && out.0.value == Row(newId, NextSortOrder(rows),
                            if data.isActive.Some? then data.isActive.value else ColumnDefaultActive, now,
                            Item(data.title, data.description, data.imageBase64))
    ensures out.0.Ok? ==> forall i :: 0 <= i < |rows| ==> rows[i].sortOrder < out.0.value.sortOrder
    ensures out.0.Ok? && |rows| == 0 ==> out.0.value.sortOrder == 0
    ensures UniqueIds(rows) ==> UniqueIds(out.1)
  {
    match ValidateImage(data.imageBase64)
    case Err(m) => (Err(BadRequest(m)), rows)
    case Ok(_) =>
      if HasId(rows, newId) then (Err(DuplicateId), rows)
      else
        var row := Row(newId, NextSortOrder(rows),
                       if data.isActive.Some? then data.isActive.value else ColumnDefaultActive, now,
                       Item(data.title, data.description, data.imageBase64));
        (Ok(row), rows + [row])
  }

  /** The request body of an update, written as given; absent fields are left alone. */
  datatype ItemPatch = ItemPatch(title: Option<string>, description: Option<string>, imageBase64: Option<string>,
                                 isActive: Option<bool>)

  function ApplyPatch(r: ItemRow, p: ItemPatch): (q: ItemRow)
    ensures q.id == r.id && q.sortOrder == r.sortOrder && q.createdAt == r.createdAt
    ensures q.isActive == (if p.isActive.Some? then p.isActive.value else r.isActive)
    ensures q.data.title == (if p.title.Some? then p.title.value else r.data.title)
    ensures q.data.description == (if p.description.Some? then p.description else r.data.description)
    ensures q.data.imageBase64 == (if p.imageBase64.Some? then p.imageBase64.value else r.data.imageBase64)
  {
    r.(isActive := if p.isActive.Some? then p.isActive.value else r.isActive,
       data := Item(if p.title.Some? then p.title.value else r.data.title,
                    if p.description.Some? then p.description else r.data.description,
                    if p.imageBase64.Some? then p.imageBase64.value else r.data.imageBase64))
  }

  /** `updateGalleryItem`: unknown ids first, then the image when a non-empty one is given. */
  function UpdateStep(rows: seq<ItemRow>, id: string, patch: ItemPatch)
    : (out: (Result<ItemRow, GalleryError>, seq<ItemRow>))
    ensures !HasId(rows, id) ==> out == (Err(NotFound(NotFoundMessage)), rows)
    ensures out.0.Ok? <==>
      HasId(rows, id) && (Truthy(patch.imageBase64).None? || ValidateImage(patch.imageBase64.value).Ok?)
    ensures out.0.Err? ==> out.1 == rows
    ensures out.0.Ok? ==>
      var i := Find(rows, id).value;
      out.0.value == ApplyPatch(rows[i], patch) && out.1 == rows[i := out.0.value]
    ensures UniqueIds(rows) ==> UniqueIds(out.1)
  {
    match Find(rows, id)
    case None => (Err(NotFound(NotFoundMessage)), rows)
    case Some(i) =>
      if Truthy(patch.imageBase64).Some? && ValidateImage(patch.imageBase64.value).Err? then
        (Err(BadRequest(ValidateImage(patch.imageBase64.value).error)), rows)
      else
        var updated := ApplyPatch(rows[i], patch);
        (Ok(updated), rows[i := updated])
  }

  /** `deleteGalleryItem`. */
  function DeleteStep(rows: seq<ItemRow>, id: string): (out: (Result<(), GalleryError>, seq<ItemRow>))
    ensures !HasId(rows, id) <==> out == (Err(NotFound(NotFoundMessage)), rows)
    ensures out.0.Ok? ==> out.1 == RemoveAt(rows, Find(rows, id).value)
    ensures UniqueIds(rows) ==> UniqueIds(out.1) && !HasId(out.1, id)
  {
    match Find(rows, id)
    case None => (Err(NotFound(NotFoundMessage)), rows)
    case Some(i) =>
      assert UniqueIds(rows) ==> !HasId(RemoveAt(rows, i), id);
      (Ok(()), RemoveAt(rows, i))
  }

  /**
   * `reorderGalleryItems`: one transaction of updates. An update naming
   * no row aborts it and nothing changes; otherwise each row takes the
   * sortOrder of the last update naming it. An empty batch succeeds.
   */
  function ReorderStep(rows: seq<ItemRow>, updates: seq<(string, int)>)
    : (out: (Result<(), GalleryError>, seq<ItemRow>))
    ensures out.0.Ok? <==> forall k :: 0 <= k < |updates| ==> HasId(rows, updates[k].0)
    ensures out.0.Err? ==> out == (Err(BatchFailed), rows)
    ensures out.0.Ok? ==> |out.1| == |rows| && forall i :: 0 <= i < |rows| ==>
      out.1[i] == match LastOrder(updates, rows[i].id)
                  case Some(so) => rows[i].(sortOrder := so)
                  case None => rows[i]
    ensures |updates| == 0 ==> out == (Ok(()), rows)
    ensures UniqueIds(rows) ==> UniqueIds(out.1)
  {
    ApplyOrdersKeepsIds(rows, updates);
    ApplyOrdersLastWins(rows, updates);
    if exists k :: 0 <= k < |updates| && !HasId(rows, updates[k].0) then (Err(BatchFailed), rows)
    else
      assert |updates| == 0 ==> ApplyOrders(rows, updates) == rows;
      (Ok(()), ApplyOrders(rows, updates))
  }

  /** `listGalleryItems`: by sortOrder, ties broken newest first. */
  function Listing(rows: seq<ItemRow>, isActive: Option<bool>): (r: seq<ItemRow>)
    ensures forall x :: x in r <==> x in rows && (isActive.None? || x.isActive == isActive.value)
    ensures multiset(r) <= multiset(rows)
    ensures forall i, j :: 0 <= i < j < |r| ==>
      r[i].sortOrder < r[j].sortOrder || (r[i].sortOrder == r[j].sortOrder && r[i].createdAt >= r[j].createdAt)
  {
    var r := ListRows(rows, isActive, true);
    forall i, j | 0 <= i < j < |r|
      ensures r[i].sortOrder < r[j].sortOrder || (r[i].sortOrder == r[j].sortOrder && r[i].createdAt >= r[j].createdAt)
    {
      OrderKeyMeaning(true, r[i], r[j]);
    }
    r
  }

  class GalleryService {
    const table: Table<Item>

    constructor (table: Table<Item>)
      ensures this.table == table
    {
      this.table := table;
    }

    method ListGalleryItems(isActive: Option<bool>) returns (r: seq<ItemRow>)
      ensures r == Listing(table.rows, isActive)
    {
      r := Listing(table.rows, isActive);
    }

    method CreateGalleryItem(data: NewItem, newId: string) returns (r: Result<ItemRow, GalleryError>)
      requires table.Valid()
      modifies table
      ensures table.Valid()
      ensures (r, table.rows) == CreateStep(old(table.rows), old(table.clock), data, newId)
      ensures table.clock == old(table.clock) + (if r.Ok? then 1 else 0)
    {
      var step := CreateStep(table.rows, table.clock, data, newId);
      r := step.0;
      if r.Ok? {
        table.rows := step.1;
        table.clock := table.clock + 1;
      }
    }

    method UpdateGalleryItem(id: string, patch: ItemPatch) returns (r: Result<ItemRow, GalleryError>)
      requires table.Valid()
      modifies table
      ensures table.Valid()
      ensures (r, table.rows) == UpdateStep(old(table.rows), id, patch) && table.clock == old(table.clock)
    {
      var step := UpdateStep(table.rows, id, patch);
      r := step.0;
      table.rows := step.1;
    }

    method DeleteGalleryItem(id: string) returns (r: Result<(), GalleryError>)
      requires table.Valid()
      modifies table
      ensures table.Valid()
      ensures (r, table.rows) == DeleteStep(old(table.rows), id) && table.clock == old(table.clock)
    {
      var step := DeleteStep(table.rows, id);
      r := step.0;
      table.rows := step.1;
    }

    /** The batch, all or nothing. */
    method ReorderGalleryItems(updates: seq<(string, int)>) returns (r: Result<(), GalleryError>)
      requires table.Valid()
      modifies table
      ensures table.Valid()
      ensures (r, table.rows) == ReorderStep(old(table.rows), updates) && table.clock == old(table.clock)
    {
      if exists k :: 0 <= k < |updates| && !HasId(table.rows, updates[k].0) {
        return Err(BatchFailed);
      }
      table.ApplyBatch(updates);
      r := Ok(());
    }
  }
}
