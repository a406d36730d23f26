/**
 * `BarberService`: the barbers shown on the landing page, each with a
 * picture carried inline as a base64 data URL, kept in administrator-chosen
 * order.
 */
module Barbers {
  import opened Common
  import opened Ordering
  import opened Images
  import opened Catalog

  datatype Barber = Barber(name: string, displayName: string, imageBase64: string, redirectUrl: string,
                           hasLanding: bool)

  type BarberRow = Row<Barber>

  const FormatMessage := "Invalid image format. Must be data URL format: data:image/(png|jpg|jpeg|webp);base64,..."
  const PayloadMessage := "Invalid base64 data"
  const EncodingMessage := "Invalid base64 encoding"
  const SizeMessage := "Image size exceeds 2MB limit"
  const NotFoundMessage := "Barber not found"
  const SomeNotFoundMessage := "One or more barbers not found"
  const UpdatesRequiredMessage := "Updates array is required"

  /** `validateBase64Image`, with the alphabet check. */
  function ValidateImage(image: string): (r: Result<(), string>)
    ensures r.Ok? <==> CheckImage(image, true).None?
    ensures !HasImageHead(image) ==> r == Err(FormatMessage)
    ensures CheckImage(image, true) == Some(NoPayload) ==> r == Err(PayloadMessage)
    ensures CheckImage(image, true) == Some(BadEncoding) ==> r == Err(EncodingMessage)
    ensures CheckImage(image, true) == Some(TooLarge) ==> r == Err(SizeMessage)
  {
    match CheckImage(image, true)
    case None => Ok(())
    case Some(BadFormat) => Err(FormatMessage)
    case Some(NoPayload) => Err(PayloadMessage)
    case Some(BadEncoding) => Err(EncodingMessage)
    case Some(TooLarge) => Err(SizeMessage)
  }

  datatype BarberError =
    | BadRequest(message: string)   // 400
    | NotFound(message: string)     // 404
    | DuplicateId                   // the store refused a colliding id

  datatype NewBarber = NewBarber(name: string, displayName: string, imageBase64: string, redirectUrl: string,
                                 hasLanding: Option<bool>, isActive: Option<bool>)

  /** `createBarber`: the image is checked first; the new barber goes after every existing one. */
  function CreateStep(rows: seq<BarberRow>, now: int, data: NewBarber, newId: string)
    : (out: (Result<BarberRow, BarberError>, seq<BarberRow>))
    ensures ValidateImage(data.imageBase64).Err? ==>
      out == (Err(BadRequest(ValidateImage(data.imageBase64).error)), rows)
    ensures out.0.Ok? <==> ValidateImage(data.imageBase64).Ok? && !HasId(rows, newId)
    ensures out.0.Err? ==> out.1 == rows
    ensures out.0.Ok? ==>
      out.1 == rows + [out.0.value]
      && out.0.value == Row(newId, NextSortOrder(rows), if data.isActive.Some? then data.isActive.value else true, now,
                            Barber(data.name, data.displayName, data.imageBase64, data.redirectUrl,
                                   if data.hasLanding.Some? then data.hasLanding.value else false))
    ensures out.0.Ok? ==> forall i :: 0 <= i < |rows| ==> rows[i].sortOrder < out.0.value.sortOrder
    ensures out.0.Ok? && |rows| == 0 ==> out.0.value.sortOrder == 0
    ensures UniqueIds(rows) ==> UniqueIds(out.1)
  {
    match ValidateImage(data.imageBase64)
    case Err(m) => (Err(BadRequest(m)), rows)
    case Ok(_) =>
      if HasId(rows, newId) then (Err(DuplicateId), rows)
      else
        var row := Row(newId, NextSortOrder(rows), if data.isActive.Some? then data.isActive.value else true, now,
                       Barber(data.name, data.displayName, data.imageBase64, data.redirectUrl,
                              if data.hasLanding.Some? then data.hasLanding.value else false));
        (Ok(row), rows + [row])
  }

  /** The fields an update may carry; an absent one (`undefined`) is left alone. */
  datatype BarberPatch = BarberPatch(name: Option<string>, displayName: Option<string>, imageBase64: Option<string>,
                                     redirectUrl: Option<string>, hasLanding: Option<bool>, isActive: Option<bool>)

  function Pick<T>(given: Option<T>, current: T): T {
    if given.Some? then given.value else current
  }

  /** The `updateData` built field by field and written. */
  function ApplyPatch(r: BarberRow, p: BarberPatch): (q: BarberRow)
    ensures q.id == r.id && q.sortOrder == r.sortOrder && q.createdAt == r.createdAt
    ensures q.isActive == (if p.isActive.Some? then p.isActive.value else r.isActive)
    ensures q.data.name == (if p.name.Some? then p.name.value else r.data.name)
    ensures q.data.displayName == (if p.displayName.Some? then p.displayName.value else r.data.displayName)
    ensures q.data.imageBase64 == (if p.imageBase64.Some? then p.imageBase64.value else r.data.imageBase64)
    ensures q.data.redirectUrl == (if p.redirectUrl.Some? then p.redirectUrl.value else r.data.redirectUrl)
    ensures q.data.hasLanding == (if p.hasLanding.Some? then p.hasLanding.value else r.data.hasLanding)
  {
    Row(r.id, r.sortOrder, Pick(p.isActive, r.isActive), r.createdAt,
        Barber(Pick(p.name, r.data.name), Pick(p.displayName, r.data.displayName),
               Pick(p.imageBase64, r.data.imageBase64), Pick(p.redirectUrl, r.data.redirectUrl),
               Pick(p.hasLanding, r.data.hasLanding)))
  }

  /** An empty patch changes nothing. */
  lemma EmptyPatchIsIdentity(r: BarberRow)
    ensures ApplyPatch(r, BarberPatch(None, None, None, None, None, None)) == r
  {
  }

  /** `updateBarber`: only a non-empty image is checked, but a given image is always written. */
  function UpdateStep(rows: seq<BarberRow>, id: string, patch: BarberPatch)
    : (out: (Result<BarberRow, BarberError>, seq<BarberRow>))
    ensures !HasId(rows, id) ==> out == (Err(NotFound(NotFoundMessage)), rows)
    ensures out.0.Ok? <==>
      HasId(rows, id) && (Truthy(patch.imageBase64).None? || ValidateImage(patch.imageBase64.value).Ok?)
    ensures out.0.Err? ==> out.1 == rows
    ensures out.0.Ok? ==>
      var i := Find(rows, id).value;
      out.0.value == ApplyPatch(rows[i], patch) && out.1 == rows[i := out.0.value]
    ensures UniqueIds(rows) ==> UniqueIds(out.1)
  {
    match Find(rows, id)
    case None => (Err(NotFound(NotFoundMessage)), rows)
    case Some(i) =>
      if Truthy(patch.imageBase64).Some? && ValidateImage(patch.imageBase64.value).Err? then
        (Err(BadRequest(ValidateImage(patch.imageBase64.value).error)), rows)
      else
        var updated := ApplyPatch(rows[i], patch);
        (Ok(updated), rows[i := updated])
  }

  /** `deleteBarber`. */
  function DeleteStep(rows: seq<BarberRow>, id: string): (out: (Result<(), BarberError>, seq<BarberRow>))
    ensures !HasId(rows, id) <==> out == (Err(NotFound(NotFoundMessage)), rows)
    ensures out.0.Ok? ==> out.1 == RemoveAt(rows, Find(rows, id).value)
    ensures UniqueIds(rows) ==> UniqueIds(out.1) && !HasId(out.1, id)
  {
    match Find(rows, id)
    case None => (Err(NotFound(NotFoundMessage)), rows)
    case Some(i) =>
      assert UniqueIds(rows) ==> !HasId(RemoveAt(rows, i), id);
      (Ok(()), RemoveAt(rows, i))
  }

  /**
   * `reorderBarbers`: an empty batch is refused; so is one where fewer
   * distinct stored barbers are found than updates were sent, which
   * covers unknown ids and repeated ones. Otherwise every listed barber
   * gets its listed sortOrder and no other row changes.
   */
  function ReorderStep(rows: seq<BarberRow>, updates: seq<(string, int)>)
    : (out: (Result<(), BarberError>, seq<BarberRow>))
    ensures |updates| == 0 ==> out == (Err(BadRequest(UpdatesRequiredMessage)), rows)
    ensures |updates| > 0 && !out.0.Ok? ==> out == (Err(NotFound(SomeNotFoundMessage)), rows)
    ensures out.0.Ok? <==>
      |updates| > 0 && AllDistinct(Ids(updates)) && forall k :: 0 <= k < |updates| ==> HasId(rows, updates[k].0)
    ensures out.0.Ok? ==> |out.1| == |rows|
    ensures out.0.Ok? ==> forall i, k :: 0 <= i < |rows| && 0 <= k < |updates| && updates[k].0 == rows[i].id ==>
      out.1[i] == rows[i].(sortOrder := updates[k].1)
    ensures out.0.Ok? ==> forall i :: 0 <= i < |rows| && (forall k :: 0 <= k < |updates| ==> updates[k].0 != rows[i].id) ==>
      out.1[i] == rows[i]
    ensures out.0.Err? ==> out.1 == rows
    ensures UniqueIds(rows) ==> UniqueIds(out.1)
  {
    ApplyOrdersKeepsIds(rows, updates);
    ApplyOrdersLastWins(rows, updates);
    FoundCountMatches(rows, Ids(updates));
    assert (forall id :: id in Ids(updates) ==> HasId(rows, id)) <==>
           (forall k :: 0 <= k < |updates| ==> HasId(rows, updates[k].0)) by {
      assert forall k :: 0 <= k < |updates| ==> Ids(updates)[k] in Ids(updates);
    }
    if |updates| == 0 then (Err(BadRequest(UpdatesRequiredMessage)), rows)
    else if FoundCount(rows, Ids(updates)) != |updates| then (Err(NotFound(SomeNotFoundMessage)), rows)
    else
      forall i, k | 0 <= i < |rows| && 0 <= k < |updates| && updates[k].0 == rows[i].id
        ensures ApplyOrders(rows, updates)[i] == rows[i].(sortOrder := updates[k].1)
      {
        DistinctUpdatesAssign(rows, updates, i, k);
      }
      (Ok(()), ApplyOrders(rows, updates))
  }

  /** `listBarbers`: by sortOrder, ties broken oldest first. */
  function Listing(rows: seq<BarberRow>, isActive: Option<bool>): (r: seq<BarberRow>)
    ensures forall x :: x in r <==> x in rows && (isActive.None? || x.isActive == isActive.value)
    ensures multiset(r) <= multiset(rows)
    ensures forall i, j :: 0 <= i < j < |r| ==>
      r[i].sortOrder < r[j].sortOrder || (r[i].sortOrder == r[j].sortOrder && r[i].createdAt <= r[j].createdAt)
  {
    var r := ListRows(rows, isActive, false);
    forall i, j | 0 <= i < j < |r|
      ensures r[i].sortOrder < r[j].sortOrder || (r[i].sortOrder == r[j].sortOrder && r[i].createdAt <= r[j].createdAt)
    {
      OrderKeyMeaning(false, r[i], r[j]);
    }
    r
  }

  class BarberService {
    const table: Table<Barber>

    constructor (table: Table<Barber>)
      ensures this.table == table
    {
      this.table := table;
    }

    method ListBarbers(isActive: Option<bool>) returns (r: seq<BarberRow>)
      ensures r == Listing(table.rows, isActive)
    {
      r := Listing(table.rows, isActive);
    }

    method CreateBarber(data: NewBarber, newId: string) returns (r: Result<BarberRow, BarberError>)
      requires table.Valid()
      modifies table
      ensures table.Valid()
      ensures (r, table.rows) == CreateStep(old(table.rows), old(table.clock), data, newId)
      ensures table.clock == old(table.clock) + (if r.Ok? then 1 else 0)
    {
      var step := CreateStep(table.rows, table.clock, data, newId);
      r := step.0;
      if r.Ok? {
        table.rows := step.1;
        table.clock := table.clock + 1;
      }
    }

    method UpdateBarber(id: string, patch: BarberPatch) returns (r: Result<BarberRow, BarberError>)
      requires table.Valid()
      modifies table
      ensures table.Valid()
      ensures (r, table.rows) == UpdateStep(old(table.rows), id, patch) && table.clock == old(table.clock)
    {
      var step := UpdateStep(table.rows, id, patch);
      r := step.0;
      table.rows := step.1;
    }

    method DeleteBarber(id: string) returns (r: Result<(), BarberError>)
      requires table.Valid()
      modifies table
      ensures table.Valid()
      ensures (r, table.rows) == DeleteStep(old(table.rows), id) && table.clock == old(table.clock)
    {
      var step := DeleteStep(table.rows, id);
      r := step.0;
      table.rows := step.1;
    }

    /** The checks, then the batch in one transaction. */
    method ReorderBarbers(updates: seq<(string, int)>) returns (r: Result<(), BarberError>)
      requires table.Valid()
      modifies table
      ensures table.Valid()
      ensures (r, table.rows) == ReorderStep(old(table.rows), updates) && table.clock == old(table.clock)
    {
      if |updates| == 0 {
        return Err(BadRequest(UpdatesRequiredMessage));
      }
      if FoundCount(table.rows, Ids(updates)) != |updates| {
        return Err(NotFound(SomeNotFoundMessage));
      }
      table.ApplyBatch(updates);
      r := Ok(());
    }
  }
}
