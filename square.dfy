/**
 * `SquareService`: the booking platform's team members, service catalogue
 * and bookings, reshaped into the records the front end reads. Every remote
 * call is a parameter standing for the platform's reply: a value, or a
 * failure carrying the HTTP status and the platform's error list. The
 * `locationId` is the configured shop location.
 */
module Square {
  import opened Common
  import opened Ordering

  /** A failed remote call: the status it reports, if any, and the platform's error entries. */
  datatype RemoteError = RemoteError(status: Option<int>, errors: seq<ErrorEntry>)
  datatype ErrorEntry = ErrorEntry(code: Option<string>, detail: Option<string>)

  datatype SquareError =
    | BadRequest(message: string)   // 400
    | NotFound(message: string)     // 404
    | Failure(message: string)      // 500

  /** `s || ''`. */
  function OrEmpty(s: Option<string>): string {
    if s.Some? then s.value else ""
  }

  // ---------------------------------------------------------------- team members

  datatype TeamMember = TeamMember(id: Option<string>, givenName: Option<string>, familyName: Option<string>,
                                   email: Option<string>, phoneNumber: Option<string>, status: Option<string>,
                                   isOwner: Option<bool>, createdAt: Option<string>, updatedAt: Option<string>)

  datatype BarberProfile = BarberProfile(id: Option<string>, givenName: Option<string>, familyName: Option<string>,
                                         displayName: string, email: Option<string>, phoneNumber: Option<string>,
                                         status: Option<string>, isOwner: bool, createdAt: Option<string>,
                                         updatedAt: Option<string>)

  /** `` `${given || ''} ${family || ''}`.trim() ``. */
  function DisplayName(given: Option<string>, family: Option<string>): string {
    Trim(OrEmpty(given) + " " + OrEmpty(family))
  }

  /** Text with no white space at either end. */
  predicate Tidy(s: string) {
    |s| > 0 && !IsSpace(s[0]) && !IsSpace(s[|s| - 1])
  }

  /** Two tidy names are joined by exactly one space. */
  lemma DisplayNameJoins(given: string, family: string)
    requires Tidy(given) && Tidy(family)
    ensures DisplayName(Some(given), Some(family)) == given + " " + family
  {
    var s := given + " " + family;
    assert s[0] == given[0] && s[|s| - 1] == family[|family| - 1];
    assert TrimStart(s) == s;
  }

  /** With no family name the display name is the trimmed given name, and the other way round. */
  lemma DisplayNameOnePart(given: Option<string>, family: Option<string>)
    ensures OrEmpty(family) == "" ==> DisplayName(given, family) == Trim(OrEmpty(given))
    ensures OrEmpty(given) == "" ==> DisplayName(given, family) == Trim(OrEmpty(family))
  {
    var g, f := OrEmpty(given), OrEmpty(family);
    if f == "" {
      TrailingSpaceTrimmed(g);
      assert g + " " + f == g + " ";
    }
    if g == "" {
      assert g + " " + f == " " + f;
      TrimStartSkips(" ", f);
    }
  }

  lemma TrailingSpaceTrimmed(g: string)
    ensures Trim(g + " ") == Trim(g)
  {
    if TrimStart(g) != "" {
      TrimStartStops(g, " ");
      TrimEndSkips(TrimStart(g), " ");
    } else {
      TrimStartSkips(g, " ");
      assert TrimStart(" ") == TrimStart(" "[1..]);
    }
  }

  /** One team member as the front end reads it; `isOwner` is false unless the platform says true. */
  function ProfileOf(m: TeamMember): (p: BarberProfile)
    ensures p.id == m.id && p.givenName == m.givenName && p.familyName == m.familyName
    ensures p.email == m.email && p.phoneNumber == m.phoneNumber && p.status == m.status
    ensures p.createdAt == m.createdAt && p.updatedAt == m.updatedAt
    ensures p.displayName == DisplayName(m.givenName, m.familyName)
    ensures p.isOwner <==> m.isOwner == Some(true)
  {
    BarberProfile(m.id, m.givenName, m.familyName, DisplayName(m.givenName, m.familyName), m.email, m.phoneNumber,
                  m.status, m.isOwner == Some(true), m.createdAt, m.updatedAt)
  }

  const BarbersFailed := "Failed to fetch barbers"
  const BarberNotFound := "Barber not found"
  const BarberDetailsFailed := "Failed to fetch barber details"

  /** `getBarbers`: the active team members of the location, one profile each, in the platform's order. */
  function GetBarbers(reply: Result<Option<seq<TeamMember>>, RemoteError>): (r: Result<seq<BarberProfile>, SquareError>)
    ensures reply.Err? <==> r == Err(Failure(BarbersFailed))
    ensures reply.Ok? && reply.value.None? ==> r == Ok([])
    ensures reply.Ok? && reply.value.Some? ==>
      r.Ok? && |r.value| == |reply.value.value|
      && forall i :: 0 <= i < |r.value| ==> r.value[i] == ProfileOf(reply.value.value[i])
  {
    match reply
    case Err(_) => Err(Failure(BarbersFailed))
    case Ok(None) => Ok([])
    case Ok(Some(members)) => Ok(seq(|members|, i requires 0 <= i < |members| => ProfileOf(members[i])))
  }

  /** What the body of `getBarberDetails`'s `try` ends with: a profile, or something thrown. */
  datatype Thrown = App(raised: SquareError) | Remote(failure: RemoteError)

  function DetailsTry(reply: Result<Option<TeamMember>, RemoteError>): Result<BarberProfile, Thrown> {
    match reply
    case Err(e) => Err(Remote(e))
    case Ok(None) => Err(App(NotFound(BarberNotFound)))
    case Ok(Some(m)) => Ok(ProfileOf(m))
  }

  /**
   * `getBarberDetails` as written: the catch block maps every error to 500
   * unless it is a remote reply with status 404, and that includes the 404
   * the try block itself raised for a reply without a team member.
   */
  function BarberDetailsAsWritten(reply: Result<Option<TeamMember>, RemoteError>)
    : (r: Result<BarberProfile, SquareError>)
    ensures reply == Ok(None) ==> r == Err(Failure(BarberDetailsFailed))
    ensures r == Err(NotFound(BarberNotFound)) <==> reply.Err? && reply.error.status == Some(404)
    ensures r == Err(Failure(BarberDetailsFailed)) <==>
      reply == Ok(None) || (reply.Err? && reply.error.status != Some(404))
    ensures r.Ok? <==> reply.Ok? && reply.value.Some?
    ensures r.Ok? ==> r.value == ProfileOf(reply.value.value)
  {
    match DetailsTry(reply)
    case Ok(p) => Ok(p)
    case Err(Remote(e)) => if e.status == Some(404) then Err(NotFound(BarberNotFound)) else Err(Failure(BarberDetailsFailed))
    case Err(App(_)) => Err(Failure(BarberDetailsFailed))
  }

  /** `getBarberDetails` as intended: a missing team member is a 404 whichever way it is reported. */
  function BarberDetails(reply: Result<Option<TeamMember>, RemoteError>): (r: Result<BarberProfile, SquareError>)
    ensures r == Err(NotFound(BarberNotFound)) <==>
      reply == Ok(None) || (reply.Err? && reply.error.status == Some(404))
    ensures r == Err(Failure(BarberDetailsFailed)) <==> reply.Err? && reply.error.status != Some(404)
    ensures r.Ok? <==> reply.Ok? && reply.value.Some?
    ensures r.Ok? ==> r.value == ProfileOf(reply.value.value)
  {
    match DetailsTry(reply)
    case Ok(p) => Ok(p)
    case Err(Remote(e)) => if e.status == Some(404) then Err(NotFound(BarberNotFound)) else Err(Failure(BarberDetailsFailed))
    case Err(App(e)) => Err(e)
  }

  /** The two differ exactly on a reply that carries no team member. */
  lemma MissingMemberIsNotFound(reply: Result<Option<TeamMember>, RemoteError>)
    ensures BarberDetailsAsWritten(reply) != BarberDetails(reply) <==> reply == Ok(None)
    ensures BarberDetailsAsWritten(Ok(None)) == Err(Failure(BarberDetailsFailed))
    ensures BarberDetails(Ok(None)) == Err(NotFound(BarberNotFound))
  {
  }

  // ---------------------------------------------------------------- catalogue

  datatype Money = Money(amount: Option<int>, currency: Option<string>)

  datatype VariationData = VariationData(name: Option<string>, priceMoney: Option<Money>, serviceDuration: Option<int>,
                                         availableForBooking: Option<bool>, teamMemberIds: Option<seq<string>>)

  datatype CatalogVariation = CatalogVariation(id: Option<string>, data: Option<VariationData>)

  datatype ItemData = ItemData(productType: Option<string>, name: Option<string>, description: Option<string>,
                               categoryId: Option<string>, variations: Option<seq<CatalogVariation>>)

  datatype CatalogObject = CatalogObject(id: Option<string>, objectType: Option<string>, itemData: Option<ItemData>,
                                         isDeleted: Option<bool>, updatedAt: Option<string>)

  datatype Price = Price(amount: Option<int>, currency: Option<string>)

  datatype Variation = Variation(id: Option<string>, name: Option<string>, price: Price, serviceDuration: Option<int>,
                                 availableForBooking: bool, teamMemberIds: seq<string>)

  datatype Service = Service(id: Option<string>, name: Option<string>, description: Option<string>,
                             category: Option<string>, variations: seq<Variation>, isDeleted: bool,
                             updatedAt: Option<string>)

  /** A catalogue item that is a bookable service rather than a product. */
  predicate IsAppointmentService(o: CatalogObject) {
    o.objectType == Some("ITEM") && o.itemData.Some? && o.itemData.value.productType == Some("APPOINTMENTS_SERVICE")
  }

  /** The text filter: a case-insensitive substring of the name or the description, a missing text being empty. */
  predicate MatchesFilter(o: CatalogObject, filter: Option<string>) {
    Truthy(filter).None?
    || (var name := if o.itemData.Some? then OrEmpty(o.itemData.value.name) else "";
        var description := if o.itemData.Some? then OrEmpty(o.itemData.value.description) else "";
        Contains(ToLower(name), ToLower(filter.value)) || Contains(ToLower(description), ToLower(filter.value)))
  }

  /** The filter does not care about the case of its own letters. */
  lemma FilterIgnoresCase(o: CatalogObject, f: string)
    ensures MatchesFilter(o, Some(f)) == MatchesFilter(o, Some(ToLower(f)))
  {
    ToLowerIdempotent(f);
  }

  function VariationOf(v: CatalogVariation): (w: Variation)
    ensures w.id == v.id
    ensures w.availableForBooking <==> !(v.data.Some? && v.data.value.availableForBooking == Some(false))
    ensures w.teamMemberIds == if v.data.Some? && v.data.value.teamMemberIds.Some? then v.data.value.teamMemberIds.value else []
    ensures w.serviceDuration == if v.data.Some? then v.data.value.serviceDuration else None
    ensures w.name == if v.data.Some? then v.data.value.name else None
    ensures w.price == if v.data.Some? && v.data.value.priceMoney.Some?
                       then Price(v.data.value.priceMoney.value.amount, v.data.value.priceMoney.value.currency)
                       else Price(None, None)
  {
    match v.data
    case None => Variation(v.id, None, Price(None, None), None, true, [])
    case Some(d) =>
      var price := match d.priceMoney
                   case None => Price(None, None)
                   case Some(m) => Price(m.amount, m.currency);
      Variation(v.id, d.name, price, d.serviceDuration, d.availableForBooking != Some(false),
                if d.teamMemberIds.Some? then d.teamMemberIds.value else [])
  }

  function ServiceOf(o: CatalogObject): (s: Service)
    ensures s.id == o.id && s.updatedAt == o.updatedAt
    ensures s.isDeleted <==> o.isDeleted == Some(true)
    ensures s.name == if o.itemData.Some? then o.itemData.value.name else None
    ensures s.description == if o.itemData.Some? then o.itemData.value.description else None
    ensures s.category == if o.itemData.Some? then o.itemData.value.categoryId else None
    ensures o.itemData.None? || o.itemData.value.variations.None? ==> s.variations == []
    ensures o.itemData.Some? && o.itemData.value.variations.Some? ==>
      var vs := o.itemData.value.variations.value;
      |s.variations| == |vs| && forall i :: 0 <= i < |vs| ==> s.variations[i] == VariationOf(vs[i])
  {
    var isDeleted := o.isDeleted == Some(true);
    match o.itemData
    case None => Service(o.id, None, None, None, [], isDeleted, o.updatedAt)
    case Some(d) =>
      var variations := match d.variations
                        case None => []
                        case Some(vs) => seq(|vs|, i requires 0 <= i < |vs| => VariationOf(vs[i]));
      Service(o.id, d.name, d.description, d.categoryId, variations, isDeleted, o.updatedAt)
  }

  function Keep(filter: Option<string>): CatalogObject -> bool {
    (o: CatalogObject) => IsAppointmentService(o) && MatchesFilter(o, filter)
  }

  const ServicesFailed := "Failed to fetch services"

  /**
   * `getServices`: the appointment services among the catalogue's objects
   * that pass the text filter, in the platform's order, one record each.
   * The `type` argument the service also receives is not used by it.
   */
  function GetServices(reply: Result<Option<seq<CatalogObject>>, RemoteError>, filter: Option<string>)
    : (r: Result<seq<Service>, SquareError>)
    ensures reply.Err? <==> r == Err(Failure(ServicesFailed))
    ensures reply.Ok? && reply.value.None? ==> r == Ok([])
    ensures reply.Ok? && reply.value.Some? ==>
      var objects := reply.value.value;
      r.Ok? && |r.value| <= |objects|
      && (forall s :: s in r.value ==> exists o :: o in objects && IsAppointmentService(o) && MatchesFilter(o, filter)
                                                  && s == ServiceOf(o))
      && (forall o :: o in objects && IsAppointmentService(o) && MatchesFilter(o, filter) ==> ServiceOf(o) in r.value)
      && var kept := Filter(objects, Keep(filter));
         |r.value| == |kept| && forall i :: 0 <= i < |kept| ==> r.value[i] == ServiceOf(kept[i])
  {
    match reply
    case Err(_) => Err(Failure(ServicesFailed))
    case Ok(None) => Ok([])
    case Ok(Some(objects)) =>
      var kept := Filter(objects, Keep(filter));
      var services := seq(|kept|, i requires 0 <= i < |kept| => ServiceOf(kept[i]));
      forall o | o in objects && IsAppointmentService(o) && MatchesFilter(o, filter)
        ensures ServiceOf(o) in services
      {
        assert Keep(filter)(o);
        var i :| 0 <= i < |kept| && kept[i] == o;
        assert services[i] == ServiceOf(o);
      }
      Ok(services)
  }

  /** The services of two runs of objects are those of each run, in the platform's order. */
  lemma ServicesInPlatformOrder(a: seq<CatalogObject>, b: seq<CatalogObject>, filter: Option<string>)
    ensures GetServices(Ok(Some(a + b)), filter).value
         == GetServices(Ok(Some(a)), filter).value + GetServices(Ok(Some(b)), filter).value
  {
    FilterAppend(a, b, Keep(filter));
    var l := GetServices(Ok(Some(a + b)), filter).value;
    var r := GetServices(Ok(Some(a)), filter).value + GetServices(Ok(Some(b)), filter).value;
    var ka := Filter(a, Keep(filter));
    assert |l| == |r|;
    forall i | 0 <= i < |l| ensures l[i] == r[i] {
      if i < |ka| {
        assert l[i] == ServiceOf(Filter(a + b, Keep(filter))[i]);
      }
    }
  }

  // ---------------------------------------------------------------- bookings

  /** The catalogue entry of a service variation, as far as booking needs it. */
  datatype CatalogItemVariation = CatalogItemVariation(version: Option<int>, serviceDuration: Option<int>)

  /** `durationMinutes` is `None` where the source computes `NaN` (`undefined / 60000`). */
  datatype VariationDetails = VariationDetails(durationMinutes: Option<real>, version: Option<int>)

  const DefaultDuration: real := 30.0

  /** `_getServiceVariationDetails`: a failed lookup is not an error, it means 30 minutes. */
  function ServiceVariationDetails(reply: Result<Option<CatalogItemVariation>, RemoteError>): (d: VariationDetails)
    ensures reply.Err? ==> d == VariationDetails(Some(DefaultDuration), None)
    ensures reply.Ok? && reply.value.Some? ==>
      d.version == reply.value.value.version
      && d.durationMinutes == (if reply.value.value.serviceDuration.Some?
                              then Some(reply.value.value.serviceDuration.value as real / 60000.0) else None)
    ensures reply == Ok(None) ==> d == VariationDetails(None, None)
  {
    match reply
    case Err(_) => VariationDetails(Some(DefaultDuration), None)
    case Ok(None) => VariationDetails(None, None)
    case Ok(Some(v)) =>
      VariationDetails(if v.serviceDuration.Some? then Some(v.serviceDuration.value as real / 60000.0) else None,
                       v.version)
  }

  /** `details.durationMinutes || 30`: missing (`NaN`) and zero both fall back. */
  function SegmentDuration(d: VariationDetails): (m: real)
    ensures m == DefaultDuration <==> d.durationMinutes.None? || d.durationMinutes.value == 0.0
                                      || d.durationMinutes.value == DefaultDuration
    ensures d.durationMinutes.Some? && d.durationMinutes.value != 0.0 ==> m == d.durationMinutes.value
  {
    if d.durationMinutes.None? || d.durationMinutes.value == 0.0 then DefaultDuration else d.durationMinutes.value
  }

  /** A failed catalogue lookup, or a variation without a duration, books 30 minutes. */
  lemma DurationFallback(reply: Result<Option<CatalogItemVariation>, RemoteError>)
    ensures reply.Err? || reply == Ok(None) || (reply.Ok? && reply.value.Some? && reply.value.value.serviceDuration == Some(0))
            ==> SegmentDuration(ServiceVariationDetails(reply)) == DefaultDuration
    ensures reply.Ok? && reply.value.Some? && reply.value.value.serviceDuration == Some(2700000)
            ==> SegmentDuration(ServiceVariationDetails(reply)) == 45.0
  {
  }

  datatype BookingRequest = BookingRequest(serviceVariationId: string, teamMemberId: string, startAt: string,
                                           customerNote: Option<string>)

  datatype Segment = Segment(durationMinutes: real, serviceVariationId: string, teamMemberId: string,
                             serviceVariationVersion: Option<int>)

  datatype NewBooking = NewBooking(customerId: string, startAt: string, locationId: string, segments: seq<Segment>,
                                   customerNote: Option<string>)

  /** The booking `createBooking` sends: one segment at the configured location. */
  function BookingToSend(customerId: string, req: BookingRequest, locationId: string, details: VariationDetails)
    : (b: NewBooking)
    ensures b.customerId == customerId && b.locationId == locationId && b.startAt == req.startAt
    ensures b.customerNote == req.customerNote && |b.segments| == 1
    ensures b.segments[0] == Segment(SegmentDuration(details), req.serviceVariationId, req.teamMemberId, details.version)
  {
    NewBooking(customerId, req.startAt, locationId,
               [Segment(SegmentDuration(details), req.serviceVariationId, req.teamMemberId, details.version)],
               req.customerNote)
  }

  /** A booking as the platform returns it; the segments are passed through untouched. */
  datatype RemoteBooking = RemoteBooking(id: Option<string>, version: Option<int>, status: Option<string>,
                                         createdAt: Option<string>, updatedAt: Option<string>, startAt: Option<string>,
                                         locationId: Option<string>, customerId: Option<string>,
                                         customerNote: Option<string>, appointmentSegments: Json,
                                         source: Option<string>, canceledAt: Option<string>)

  /** The booking record the front end reads; `source` only in the details. */
  datatype BookingView = BookingView(id: Option<string>, version: Option<int>, status: Option<string>,
                                     createdAt: Option<string>, updatedAt: Option<string>, startAt: Option<string>,
                                     locationId: Option<string>, customerId: Option<string>,
                                     customerNote: Option<string>, appointmentSegments: Json, source: Option<string>)

  function ViewOf(b: RemoteBooking, withSource: bool): (v: BookingView)
    ensures v.id == b.id && v.customerId == b.customerId && v.status == b.status && v.version == b.version
    ensures v.startAt == b.startAt && v.appointmentSegments == b.appointmentSegments
    ensures v.source == if withSource then b.source else None
  {
    BookingView(b.id, b.version, b.status, b.createdAt, b.updatedAt, b.startAt, b.locationId, b.customerId,
                b.customerNote, b.appointmentSegments, if withSource then b.source else None)
  }

  const InvalidBookingData := "Invalid booking data"
  const CreateFailed := "Failed to create booking"
  const BookingNotFound := "Booking not found"
  const DetailsFailed := "Failed to fetch booking details"
  const CancelFailed := "Failed to cancel booking"

  /** The error `createBooking` raises: the platform's first error decides. */
  function CreateError(e: Option<RemoteError>): (r: SquareError)
    ensures r.BadRequest? <==> e.Some? && |e.value.errors| > 0 && e.value.errors[0].code == Some("INVALID_VALUE")
    ensures r.BadRequest? ==>
      r.message == if Truthy(e.value.errors[0].detail).Some? then e.value.errors[0].detail.value else InvalidBookingData
    ensures !r.BadRequest? ==> r == Failure(CreateFailed)
  {
    if e.Some? && |e.value.errors| > 0 && e.value.errors[0].code == Some("INVALID_VALUE") then
      BadRequest(if Truthy(e.value.errors[0].detail).Some? then e.value.errors[0].detail.value else InvalidBookingData)
    else Failure(CreateFailed)
  }

  /**
   * `createBooking`: look the variation up, send the booking, reshape the
   * reply. `create` is the platform's reply to the booking it is sent; a
   * reply without a booking fails like any error without a code.
   */
  function CreateBooking(customerId: string, req: BookingRequest, locationId: string,
                         lookup: Result<Option<CatalogItemVariation>, RemoteError>,
                         create: NewBooking -> Result<Option<RemoteBooking>, RemoteError>)
    : (r: Result<BookingView, SquareError>)
    ensures var sent := BookingToSend(customerId, req, locationId, ServiceVariationDetails(lookup));
      match create(sent)
      case Ok(Some(b)) => r == Ok(ViewOf(b, false))
      case Ok(None) => r == Err(Failure(CreateFailed))
      case Err(e) => r == Err(CreateError(Some(e)))
  {
    var sent := BookingToSend(customerId, req, locationId, ServiceVariationDetails(lookup));
    match create(sent)
    case Ok(Some(b)) => Ok(ViewOf(b, false))
    case Ok(None) => Err(CreateError(None))
    case Err(e) => Err(CreateError(Some(e)))
  }

  /** `getBookingDetails`. */
  function GetBookingDetails(reply: Result<Option<RemoteBooking>, RemoteError>): (r: Result<BookingView, SquareError>)
    ensures r.Ok? <==> reply.Ok? && reply.value.Some?
    ensures r.Ok? ==> r.value == ViewOf(reply.value.value, true)
    ensures r == Err(NotFound(BookingNotFound)) <==> reply.Err? && reply.error.status == Some(404)
    ensures r.Err? && r.error != NotFound(BookingNotFound) ==> r == Err(Failure(DetailsFailed))
  {
    match reply
    case Ok(Some(b)) => Ok(ViewOf(b, true))
    case Ok(None) => Err(Failure(DetailsFailed))
    case Err(e) => if e.status == Some(404) then Err(NotFound(BookingNotFound)) else Err(Failure(DetailsFailed))
  }

  datatype CancelView = CancelView(id: Option<string>, status: Option<string>, updatedAt: Option<string>,
                                   canceledAt: Option<string>)

  /** `cancelBooking`. */
  function CancelBooking(reply: Result<Option<RemoteBooking>, RemoteError>): (r: Result<CancelView, SquareError>)
    ensures r.Ok? <==> reply.Ok? && reply.value.Some?
    ensures r.Ok? ==> r.value == CancelView(reply.value.value.id, reply.value.value.status,
                                             reply.value.value.updatedAt, reply.value.value.canceledAt)
    ensures r == Err(NotFound(BookingNotFound)) <==> reply.Err? && reply.error.status == Some(404)
    ensures r.Err? && r.error != NotFound(BookingNotFound) ==> r == Err(Failure(CancelFailed))
  {
    match reply
    case Ok(Some(b)) => Ok(CancelView(b.id, b.status, b.updatedAt, b.canceledAt))
    case Ok(None) => Err(Failure(CancelFailed))
    case Err(e) => if e.status == Some(404) then Err(NotFound(BookingNotFound)) else Err(Failure(CancelFailed))
  }
}
