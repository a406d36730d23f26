/**
 * The booking-platform route handlers: cache-aside reads of barbers, one
 * barber and services in front of the platform queries, the reshaping of
 * services into catalogue objects for the web client, and the rule that a
 * customer sees and cancels only their own bookings.
 *
 * The cache is `Some(entries)` when a Redis client is configured and
 * `None` otherwise. The platform's replies are parameters, as in `Square`.
 */
module SquareHandlers {
  import opened Common
  import opened Ordering
  import opened Cache
  import opened Tokens
  import opened Rbac
  import opened Square
  import opened SquareCodec

  const BarbersKey := "barbers:all"
  const DefaultTtl: nat := 86400
  const InternalError := "Internal server error"
  const ForbiddenError := "Forbidden"
  const ViewOwnOnly := "You can only view your own bookings"
  const CancelOwnOnly := "You can only cancel your own bookings"

  /** An error answer: the status and `{ error, message? }`. */
  datatype ErrorReply = ErrorReply(status: int, error: string, message: Option<string>)

  /** An error carrying a status is answered with it; anything else is a 500. */
  function ReplyOf(e: SquareError): (r: ErrorReply)
    ensures r.error == e.message && r.message.None?
    ensures r.status == (if e.BadRequest? then 400 else if e.NotFound? then 404 else 500)
  {
    match e
    case BadRequest(m) => ErrorReply(400, m, None)
    case NotFound(m) => ErrorReply(404, m, None)
    case Failure(m) => ErrorReply(500, m, None)
  }

  /** A cached entry that cannot be read the way the handler reads it throws without a status. */
  const Internal := ErrorReply(500, InternalError, None)

  // ---------------------------------------------------------------- barbers

  /** One entry of `team_member_booking_profiles`; an absent field is `None`. */
  datatype BookingProfile = BookingProfile(teamMemberId: Option<Json>, displayName: Option<Json>, isBookable: Json)

  /** The profile of a freshly fetched barber, whose record has no `isBookable`. */
  function ProfileOfRecord(b: BarberProfile): (p: BookingProfile)
    ensures p.teamMemberId == Str(b.id) && p.displayName == Some(JStr(b.displayName))
    ensures p.isBookable == JBool(true)
  {
    BookingProfile(Str(b.id), Some(JStr(b.displayName)), JBool(true))
  }

  /** The profile of a cached barber: property reads on the parsed value; `null` throws. */
  function ProfileOfJson(j: Json): (p: Option<BookingProfile>)
    ensures p.None? <==> j.JNull?
    ensures j.JObject? ==>
      p.value.teamMemberId == Lookup(j.members, "id") && p.value.displayName == Lookup(j.members, "displayName")
    ensures j.JObject? && Lookup(j.members, "isBookable").Some? ==> p.value.isBookable == Lookup(j.members, "isBookable").value
    ensures p.Some? && !(j.JObject? && Lookup(j.members, "isBookable").Some?) ==> p.value.isBookable == JBool(true)
  {
    match j
    case JNull => None
    case JObject(ms) =>
      var b := Lookup(ms, "isBookable");
      Some(BookingProfile(Lookup(ms, "id"), Lookup(ms, "displayName"), if b.Some? then b.value else JBool(true)))
    case _ => Some(BookingProfile(None, None, JBool(true)))
  }

  function ProfilesOfJson(j: Json): (r: Option<seq<BookingProfile>>)
    ensures r.Some? <==> j.JArray? && forall i :: 0 <= i < |j.items| ==> ProfileOfJson(j.items[i]).Some?
    ensures r.Some? ==> |r.value| == |j.items| && forall i :: 0 <= i < |j.items| ==> r.value[i] == ProfileOfJson(j.items[i]).value
  {
    if j.JArray? && forall i :: 0 <= i < |j.items| ==> ProfileOfJson(j.items[i]).Some? then
      Some(seq(|j.items|, i requires 0 <= i < |j.items| && ProfileOfJson(j.items[i]).Some? => ProfileOfJson(j.items[i]).value))
    else None
  }

  function ProfilesOfRecords(bs: seq<BarberProfile>): (r: seq<BookingProfile>)
    ensures |r| == |bs| && forall i :: 0 <= i < |bs| ==> r[i] == ProfileOfRecord(bs[i])
  {
    seq(|bs|, i requires 0 <= i < |bs| => ProfileOfRecord(bs[i]))
  }

  /** What the list handler writes reads back as the very profiles it answered with. */
  lemma CachedProfilesMatchFresh(bs: seq<BarberProfile>)
    ensures ProfilesOfJson(BarbersJson(bs)) == Some(ProfilesOfRecords(bs))
  {
    var j := BarbersJson(bs);
    forall i | 0 <= i < |bs| ensures ProfileOfJson(j.items[i]) == Some(ProfileOfRecord(bs[i])) {
      BarberFieldsReadBack(bs[i]);
    }
    var r := ProfilesOfJson(j).value;
    assert |r| == |bs| && forall i :: 0 <= i < |r| ==> r[i] == ProfileOfRecord(bs[i]);
    assert r == ProfilesOfRecords(bs);
  }

  /**
   * `getBarbers` against the cache state `cache`: a hit answers from the
   * entry without the platform; a miss asks the platform and caches only a
   * non-empty list.
   */
  function BarbersStep(cache: Option<map<string, Json>>, reply: Result<Option<seq<TeamMember>>, RemoteError>)
    : (out: (Result<seq<BookingProfile>, ErrorReply>, Option<map<string, Json>>))
    ensures cache.Some? && BarbersKey in cache.value ==>
      out.1 == cache
      && out.0 == (match ProfilesOfJson(cache.value[BarbersKey])
                   case Some(ps) => Ok(ps)
                   case None => Err(Internal))
    ensures !(cache.Some? && BarbersKey in cache.value) ==>
      match Square.GetBarbers(reply)
      case Err(e) => out == (Err(ReplyOf(e)), cache)
      case Ok(bs) =>
        out.0 == Ok(ProfilesOfRecords(bs))
        && out.1 == if cache.Some? && |bs| > 0 then Some(cache.value[BarbersKey := BarbersJson(bs)]) else cache
    ensures out.1.Some? <==> cache.Some?
    ensures cache.Some? ==> forall k :: k in cache.value ==> k in out.1.value
    ensures cache.Some? ==> forall k :: k in out.1.value && k != BarbersKey ==> k in cache.value && out.1.value[k] == cache.value[k]
    ensures out.0.Ok? ==> forall i :: 0 <= i < |out.0.value| ==> (out.0.value[i].isBookable == JBool(true) || (cache.Some? && BarbersKey in cache.value))
  {
    if cache.Some? && BarbersKey in cache.value then
      match ProfilesOfJson(cache.value[BarbersKey])
      case Some(ps) => (Ok(ps), cache)
      case None => (Err(Internal), cache)
    else
      match Square.GetBarbers(reply)
      case Err(e) => (Err(ReplyOf(e)), cache)
      case Ok(bs) =>
        if cache.Some? && |bs| > 0 then (Ok(ProfilesOfRecords(bs)), Some(cache.value[BarbersKey := BarbersJson(bs)]))
        else (Ok(ProfilesOfRecords(bs)), cache)
  }

  /** After a miss that cached a list, the next request, whatever the platform says then, gets the same answer. */
  lemma BarbersRepeatable(cache: map<string, Json>, first: Result<Option<seq<TeamMember>>, RemoteError>,
                          second: Result<Option<seq<TeamMember>>, RemoteError>)
    requires BarbersKey !in cache
    requires Square.GetBarbers(first).Ok? && |Square.GetBarbers(first).value| > 0
    ensures var step := BarbersStep(Some(cache), first);
            BarbersStep(step.1, second) == (step.0, step.1)
  {
    CachedProfilesMatchFresh(Square.GetBarbers(first).value);
  }

  // ---------------------------------------------------------------- one barber

  function BarberKey(id: string): string {
    "barbers:" + id
  }

  /** Distinct ids have distinct entries; only the id `all` meets the list's entry. */
  lemma BarberKeys(a: string, b: string)
    ensures BarberKey(a) == BarberKey(b) <==> a == b
    ensures BarberKey(a) == BarbersKey <==> a == "all"
  {
    assert BarberKey(a)[8..] == a && BarberKey(b)[8..] == b;
    assert BarbersKey == BarberKey("all");
  }

  /** A miss of `getBarberDetails`: on success the answer is cached whatever it is. */
  function DetailsMiss(cache: Option<map<string, Json>>, key: string, details: Result<BarberProfile, SquareError>)
    : (out: (Result<Json, ErrorReply>, Option<map<string, Json>>))
    ensures details.Err? ==> out == (Err(ReplyOf(details.error)), cache)
    ensures details.Ok? ==>
      out.0 == Ok(BarberJson(details.value))
      && out.1 == if cache.Some? then Some(cache.value[key := BarberJson(details.value)]) else None
  {
    match details
    case Err(e) => (Err(ReplyOf(e)), cache)
    case Ok(b) =>
      if cache.Some? then (Ok(BarberJson(b)), Some(cache.value[key := BarberJson(b)]))
      else (Ok(BarberJson(b)), None)
  }

  /**
   * `getBarberDetails`: a hit answers with the entry as stored, without the
   * platform; a miss takes the platform lookup's outcome `details` and
   * caches a successful answer. The handler runs with the lookup as written,
   * `BarberDetailsAsWritten`.
   */
  function DetailsStep(cache: Option<map<string, Json>>, id: string, details: Result<BarberProfile, SquareError>)
    : (out: (Result<Json, ErrorReply>, Option<map<string, Json>>))
    ensures cache.Some? && BarberKey(id) in cache.value ==> out == (Ok(cache.value[BarberKey(id)]), cache)
    ensures !(cache.Some? && BarberKey(id) in cache.value) ==> out == DetailsMiss(cache, BarberKey(id), details)
    ensures out.0.Ok? && cache.Some? ==> BarberKey(id) in out.1.value && out.1.value[BarberKey(id)] == out.0.value
    ensures cache.Some? ==> forall k :: k in out.1.value && k != BarberKey(id) ==> k in cache.value && out.1.value[k] == cache.value[k]
    ensures out.1.Some? <==> cache.Some?
  {
    var key := BarberKey(id);
    if cache.Some? && key in cache.value then (Ok(cache.value[key]), cache)
    else DetailsMiss(cache, key, details)
  }

  /** A barber fetched once is answered the same way until the entry goes. */
  lemma DetailsRepeatable(cache: map<string, Json>, id: string, first: Result<Option<TeamMember>, RemoteError>,
                          second: Result<Option<TeamMember>, RemoteError>)
    requires BarberDetailsAsWritten(first).Ok?
    ensures var step := DetailsStep(Some(cache), id, BarberDetailsAsWritten(first));
            DetailsStep(step.1, id, BarberDetailsAsWritten(second)) == (step.0, step.1)
  {
  }

  /**
   * As written, a platform reply without a team member reaches the client as
   * a 500 and is not cached; the corrected lookup answers 404.
   */
  lemma MissingMemberAnswer(cache: Option<map<string, Json>>, id: string)
    requires !(cache.Some? && BarberKey(id) in cache.value)
    ensures DetailsStep(cache, id, BarberDetailsAsWritten(Ok(None))) == (Err(ErrorReply(500, BarberDetailsFailed, None)), cache)
    ensures DetailsStep(cache, id, BarberDetails(Ok(None))) == (Err(ErrorReply(404, BarberNotFound, None)), cache)
  {
  }

  // ---------------------------------------------------------------- services

  /** `filter || 'all'`, as the source writes the key part. */
  function KeyPartAsWritten(o: Option<string>): string {
    if Truthy(o).Some? then o.value else "all"
  }

  /** The services key as the source writes it: `services:${filter || 'all'}:${type || 'all'}`. */
  function ServicesKeyAsWritten(filter: Option<string>, kind: Option<string>): (k: string)
    ensures StartsWith(k, "services:")
  {
    "services:" + KeyPartAsWritten(filter) + ":" + KeyPartAsWritten(kind)
  }

  /** The one catalogue object the counterexample below uses: a service named `x`. */
  const Sample := CatalogObject(Some("s1"), Some("ITEM"),
                               Some(ItemData(Some("APPOINTMENTS_SERVICE"), Some("x"), None, None, Some([]))), None, None)

  /**
   * The filter `all` shares its entry with the unfiltered list, yet the two
   * queries have different answers: whichever runs first fixes what the
   * other is served.
   */
  lemma FilterAllSharesUnfilteredKey()
    ensures ServicesKeyAsWritten(None, None) == ServicesKeyAsWritten(Some("all"), None)
    ensures ServiceOf(Sample) in Square.GetServices(Ok(Some([Sample])), None).value
    ensures ServiceOf(Sample) !in Square.GetServices(Ok(Some([Sample])), Some("all")).value
  {
    var reply: Result<Option<seq<CatalogObject>>, RemoteError> := Ok(Some([Sample]));
    assert IsAppointmentService(Sample);
    assert ToLower("x") == "x";
    assert ToLower("") == "";
    assert ToLower("all") == "all";
    assert !Contains("x", "all") by {
      assert !StartsWith("x", "all");
      assert !Contains("", "all") by { assert !StartsWith("", "all"); }
      assert "x"[1..] == "";
    }
    assert !Contains("", "all") by { assert !StartsWith("", "all"); }
    assert !MatchesFilter(Sample, Some("all"));
    assert MatchesFilter(Sample, None);
    assert Sample in [Sample];
    assert ServiceOf(Sample) in Square.GetServices(reply, None).value;
  }

  /** A key-safe spelling of a query part: `:` becomes `%3A` and `%` becomes `%25`. */
  function Escape(s: string): (e: string)
    ensures forall i :: 0 <= i < |e| ==> e[i] != ':'
    ensures |s| == 0 <==> |e| == 0
  {
    if |s| == 0 then "" else Chunk(s[0]) + Escape(s[1..])
  }

  function Chunk(c: char): (e: string)
    ensures |e| > 0 && forall i :: 0 <= i < |e| ==> e[i] != ':'
  {
    if c == ':' then "%3A" else if c == '%' then "%25" else [c]
  }

  lemma ChunkDetermines(x: char, y: char, s: string, t: string)
    requires Chunk(x) + s == Chunk(y) + t
    ensures x == y && s == t
  {
    var l, r := Chunk(x) + s, Chunk(y) + t;
    assert l[0] == r[0];
    if x in {':', '%'} {
      assert l[1] == r[1];
    }
    assert s == l[|Chunk(x)|..];
    assert t == r[|Chunk(y)|..];
  }

  lemma {:induction false} EscapeInjective(a: string, b: string)
    requires Escape(a) == Escape(b)
    ensures a == b
  {
    if |a| > 0 && |b| > 0 {
      ChunkDetermines(a[0], b[0], Escape(a[1..]), Escape(b[1..]));
      EscapeInjective(a[1..], b[1..]);
      assert a == [a[0]] + a[1..] && b == [b[0]] + b[1..];
    }
  }

  /** The corrected key part: `all` for no query, `=` and the escaped text otherwise. */
  function KeyPart(o: Option<string>): (p: string)
    ensures forall i :: 0 <= i < |p| ==> p[i] != ':'
  {
    if Truthy(o).Some? then "=" + Escape(o.value) else "all"
  }

  lemma KeyPartInjective(a: Option<string>, b: Option<string>)
    ensures KeyPart(a) == KeyPart(b) <==> Truthy(a) == Truthy(b)
  {
    if KeyPart(a) == KeyPart(b) {
      assert KeyPart(a)[0] == KeyPart(b)[0];
      if Truthy(a).Some? && Truthy(b).Some? {
        assert Escape(a.value) == KeyPart(a)[1..] && Escape(b.value) == KeyPart(b)[1..];
        EscapeInjective(a.value, b.value);
      }
    }
  }

  lemma FirstColon(p: string, q: string)
    requires forall i :: 0 <= i < |p| ==> p[i] != ':'
    ensures (p + ":" + q)[|p|] == ':'
    ensures forall i :: 0 <= i < |p| ==> (p + ":" + q)[i] != ':'
  {
  }

  lemma SplitAtColon(p: string, q: string, p': string, q': string)
    requires forall i :: 0 <= i < |p| ==> p[i] != ':'
    requires forall i :: 0 <= i < |p'| ==> p'[i] != ':'
    requires p + ":" + q == p' + ":" + q'
    ensures p == p' && q == q'
  {
    var k := p + ":" + q;
    FirstColon(p, q);
    FirstColon(p', q');
    assert |p| == |p'|;
    assert p == k[..|p|] && p' == (p' + ":" + q')[..|p'|];
    assert q == k[|p| + 1..] && q' == (p' + ":" + q')[|p'| + 1..];
  }

  /** The corrected services key: distinct queries never share it. */
  function ServicesKey(filter: Option<string>, kind: Option<string>): (k: string)
    ensures StartsWith(k, "services:")
  {
    "services:" + KeyPart(filter) + ":" + KeyPart(kind)
  }

  lemma KeyAfterPrefix(f: Option<string>, t: Option<string>)
    ensures ServicesKey(f, t)[9..] == KeyPart(f) + ":" + KeyPart(t)
  {
    assert ServicesKey(f, t) == "services:" + (KeyPart(f) + ":" + KeyPart(t));
  }

  /** Two queries share a services entry exactly when they are the same query. */
  lemma ServicesKeyInjective(f: Option<string>, t: Option<string>, f': Option<string>, t': Option<string>)
    ensures ServicesKey(f, t) == ServicesKey(f', t') <==> Truthy(f) == Truthy(f') && Truthy(t) == Truthy(t')
  {
    KeyPartInjective(f, f');
    KeyPartInjective(t, t');
    KeyAfterPrefix(f, t);
    KeyAfterPrefix(f', t');
    if ServicesKey(f, t) == ServicesKey(f', t') {
      SplitAtColon(KeyPart(f), KeyPart(t), KeyPart(f'), KeyPart(t'));
    }
  }

  lemma {:induction false} FilterAgrees<T(!new)>(s: seq<T>, p: T -> bool, q: T -> bool)
    requires forall x :: p(x) == q(x)
    ensures Filter(s, p) == Filter(s, q)
  {
    if |s| > 0 {
      FilterAgrees(s[1..], p, q);
    }
  }

  /** Queries sharing a (corrected) key have the same fresh answer, so a hit never serves another query's list. */
  lemma SharedKeySameAnswer(f: Option<string>, t: Option<string>, f': Option<string>, t': Option<string>,
                            reply: Result<Option<seq<CatalogObject>>, RemoteError>)
    requires ServicesKey(f, t) == ServicesKey(f', t')
    ensures Square.GetServices(reply, f) == Square.GetServices(reply, f')
  {
    ServicesKeyInjective(f, t, f', t');
    if reply.Ok? && reply.value.Some? {
      forall o ensures Keep(f)(o) == Keep(f')(o) {
      }
      FilterAgrees(reply.value.value, Keep(f), Keep(f'));
    }
  }

  /** A variation in the catalogue shape the web client reads. */
  datatype VariationOut = VariationOut(objectType: string, id: Option<string>, updatedAt: Option<string>,
                                       createdAt: Option<string>, version: int, isDeleted: bool,
                                       presentAtAllLocations: bool, data: VariationDataOut)

  datatype VariationDataOut = VariationDataOut(itemId: Option<string>, name: Option<string>, ordinal: int,
                                               pricingType: string, priceMoney: Price, serviceDuration: Option<int>,
                                               availableForBooking: bool, sellable: bool, stockable: bool,
                                               teamMemberIds: seq<string>)

  /** A service in the catalogue shape the web client reads. */
  datatype ServiceOut = ServiceOut(objectType: string, id: Option<string>, updatedAt: Option<string>,
                                   createdAt: Option<string>, version: int, isDeleted: bool,
                                   presentAtAllLocations: bool, itemData: ItemDataOut)

  datatype ItemDataOut = ItemDataOut(name: Option<string>, description: Option<string>, variations: seq<VariationOut>,
                                     productType: string, skipModifierScreen: bool, visibility: string,
                                     taxIds: seq<string>, isTaxable: bool, ecomVisibility: string, isArchived: bool,
                                     channels: seq<string>)

  function VariationOutOf(s: Service, v: Variation): VariationOut {
    VariationOut("ITEM_VARIATION", v.id, s.updatedAt, s.updatedAt, 1, false, true,
                 VariationDataOut(s.id, v.name, 0, "FIXED_PRICING", v.price, v.serviceDuration,
                                  v.availableForBooking, true, false, v.teamMemberIds))
  }

  function ServiceOutOf(s: Service): ServiceOut {
    ServiceOut("ITEM", s.id, s.updatedAt, s.updatedAt, 1, s.isDeleted, true,
               ItemDataOut(s.name, s.description,
                           seq(|s.variations|, i requires 0 <= i < |s.variations| => VariationOutOf(s, s.variations[i])),
                           "APPOINTMENTS_SERVICE", false, "PUBLIC", [], false, "UNINDEXED", false, ["CH_WEBSTORE"]))
  }

  /** `transformServices`. */
  function TransformServices(ss: seq<Service>): (r: seq<ServiceOut>)
    ensures |r| == |ss|
    ensures forall i :: 0 <= i < |ss| ==>
      r[i].id == ss[i].id && r[i].objectType == "ITEM" && |r[i].itemData.variations| == |ss[i].variations|
      && r[i].itemData.name == ss[i].name && r[i].itemData.description == ss[i].description
      && r[i].isDeleted == ss[i].isDeleted && r[i].updatedAt == ss[i].updatedAt
      && r[i].itemData.productType == "APPOINTMENTS_SERVICE"
      && forall j :: 0 <= j < |ss[i].variations| ==>
           var w, v := r[i].itemData.variations[j], ss[i].variations[j];
           w.id == v.id && w.data.itemId == ss[i].id && w.data.serviceDuration == v.serviceDuration
           && w.data.name == v.name && w.data.priceMoney == v.price
           && w.data.availableForBooking == v.availableForBooking
           && w.data.teamMemberIds == v.teamMemberIds && w.objectType == "ITEM_VARIATION"
  {
    seq(|ss|, i requires 0 <= i < |ss| => ServiceOutOf(ss[i]))
  }

  /** The service a catalogue object describes, read back from the object. */
  function ServiceOfOut(o: ServiceOut): Service {
    Service(o.id, o.itemData.name, o.itemData.description, None,
            seq(|o.itemData.variations|, i requires 0 <= i < |o.itemData.variations| =>
                  var w := o.itemData.variations[i];
                  Variation(w.id, w.data.name, w.data.priceMoney, w.data.serviceDuration,
                            w.data.availableForBooking, w.data.teamMemberIds)),
            o.isDeleted, o.updatedAt)
  }

  /** The reshaping loses the category and nothing else of a service. */
  lemma TransformLosesOnlyCategory(s: Service)
    ensures ServiceOfOut(ServiceOutOf(s)) == s.(category := None)
  {
    var back := ServiceOfOut(ServiceOutOf(s)).variations;
    assert |back| == |s.variations| && forall i :: 0 <= i < |back| ==> back[i] == s.variations[i];
    assert back == s.variations;
  }

  /** The body of a services answer. */
  datatype ServicesPage = ServicesPage(objects: seq<ServiceOut>, cursor: string, matchedVariationIds: seq<string>)

  function PageOf(ss: seq<Service>): (p: ServicesPage)
    ensures p.objects == TransformServices(ss) && p.cursor == "" && p.matchedVariationIds == []
  {
    ServicesPage(TransformServices(ss), "", [])
  }

  /**
   * `getServices` with its entry under `key`: a hit reshapes the cached list
   * without the platform; a miss asks the platform and caches only a
   * non-empty list. The handler keys the entry by `ServicesKeyAsWritten`.
   */
  function ServicesStep(cache: Option<map<string, Json>>, key: string, filter: Option<string>,
                        reply: Result<Option<seq<CatalogObject>>, RemoteError>)
    : (out: (Result<ServicesPage, ErrorReply>, Option<map<string, Json>>))
    ensures cache.Some? && key in cache.value ==>
      out.1 == cache
      && out.0 == (match ServicesFromJson(cache.value[key])
                   case Some(ss) => Ok(PageOf(ss))
                   case None => Err(Internal))
    ensures !(cache.Some? && key in cache.value) ==>
      match Square.GetServices(reply, filter)
      case Err(e) => out == (Err(ReplyOf(e)), cache)
      case Ok(ss) =>
        out.0 == Ok(PageOf(ss))
        && out.1 == if cache.Some? && |ss| > 0 then Some(cache.value[key := ServicesJson(ss)]) else cache
    ensures out.1.Some? <==> cache.Some?
    ensures cache.Some? ==> forall k :: k in out.1.value && k != key ==>
      k in cache.value && out.1.value[k] == cache.value[k]
  {
    if cache.Some? && key in cache.value then
      match ServicesFromJson(cache.value[key])
      case Some(ss) => (Ok(PageOf(ss)), cache)
      case None => (Err(Internal), cache)
    else
      match Square.GetServices(reply, filter)
      case Err(e) => (Err(ReplyOf(e)), cache)
      case Ok(ss) =>
        if cache.Some? && |ss| > 0 then (Ok(PageOf(ss)), Some(cache.value[key := ServicesJson(ss)]))
        else (Ok(PageOf(ss)), cache)
  }

  /**
   * After a miss that cached a list under `key`, every later request keyed
   * the same is served that list, whatever the platform says then.
   */
  lemma ServedFromEntry(cache: map<string, Json>, key: string, f: Option<string>, f': Option<string>,
                        reply: Result<Option<seq<CatalogObject>>, RemoteError>,
                        later: Result<Option<seq<CatalogObject>>, RemoteError>)
    requires key !in cache
    requires Square.GetServices(reply, f).Ok? && |Square.GetServices(reply, f).value| > 0
    ensures var step := ServicesStep(Some(cache), key, f, reply);
            ServicesStep(step.1, key, f', later) == step
            && step.0 == Ok(PageOf(Square.GetServices(reply, f).value))
  {
    ServicesRoundTrip(Square.GetServices(reply, f).value);
  }

  /**
   * As written, the same query repeated is answered from the entry with its
   * own fresh answer.
   */
  lemma ServicesRepeatable(cache: map<string, Json>, f: Option<string>, t: Option<string>,
                           reply: Result<Option<seq<CatalogObject>>, RemoteError>,
                           later: Result<Option<seq<CatalogObject>>, RemoteError>)
    requires ServicesKeyAsWritten(f, t) !in cache
    requires Square.GetServices(reply, f).Ok? && |Square.GetServices(reply, f).value| > 0
    ensures var key := ServicesKeyAsWritten(f, t);
            var step := ServicesStep(Some(cache), key, f, reply);
            ServicesStep(step.1, key, f, later) == step
            && step.0 == Ok(PageOf(Square.GetServices(reply, f).value))
  {
    ServedFromEntry(cache, ServicesKeyAsWritten(f, t), f, f, reply, later);
  }

  /**
   * As written, `?filter=all` after an unfiltered request is served the
   * unfiltered list, although its fresh answer is empty.
   */
  lemma FilterAllServedUnfiltered(cache: map<string, Json>,
                                  later: Result<Option<seq<CatalogObject>>, RemoteError>)
    requires ServicesKeyAsWritten(None, None) !in cache
    ensures var reply: Result<Option<seq<CatalogObject>>, RemoteError> := Ok(Some([Sample]));
            var step := ServicesStep(Some(cache), ServicesKeyAsWritten(None, None), None, reply);
            ServicesStep(step.1, ServicesKeyAsWritten(Some("all"), None), Some("all"), later).0 == Ok(PageOf([ServiceOf(Sample)]))
            && Square.GetServices(reply, Some("all")) == Ok([])
  {
    var reply: Result<Option<seq<CatalogObject>>, RemoteError> := Ok(Some([Sample]));
    FilterAllSharesUnfilteredKey();
    FilterSingleton(Sample, Keep(None));
    FilterSingleton(Sample, Keep(Some("all")));
    assert Square.GetServices(reply, None).value == [ServiceOf(Sample)];
    ServedFromEntry(cache, ServicesKeyAsWritten(None, None), None, Some("all"), reply, later);
  }

  /**
   * With the corrected key, any query sharing the entry is served what it
   * would have been answered fresh.
   */
  lemma CorrectedKeyRepeatable(cache: map<string, Json>, f: Option<string>, t: Option<string>,
                               f': Option<string>, t': Option<string>,
                               reply: Result<Option<seq<CatalogObject>>, RemoteError>,
                               later: Result<Option<seq<CatalogObject>>, RemoteError>)
    requires ServicesKey(f, t) !in cache && ServicesKey(f, t) == ServicesKey(f', t')
    requires Square.GetServices(reply, f).Ok? && |Square.GetServices(reply, f).value| > 0
    ensures var step := ServicesStep(Some(cache), ServicesKey(f, t), f, reply);
            ServicesStep(step.1, ServicesKey(f', t'), f', later) == step
            && step.0 == Ok(PageOf(Square.GetServices(reply, f').value))
  {
    ServedFromEntry(cache, ServicesKey(f, t), f, f', reply, later);
    SharedKeySameAnswer(f, t, f', t', reply);
  }

  // ---------------------------------------------------------------- bookings

  /** `request.user.id`, when the request user carries one. */
  function UserId(user: Claims): (r: Option<Json>)
    ensures r.Some? <==> "id" in user
  {
    if "id" in user then Some(user["id"]) else None
  }

  /** A customer may only see a booking whose customer id is their own id; any other role sees all. */
  predicate MayAccess(user: Claims, booking: BookingView) {
    !(RoleOf(user) == Some("CUSTOMER") && Str(booking.customerId) != UserId(user))
  }

  /** The request body of a booking; the client's own `customerId`, if any, is overridden. */
  datatype BookingBody = BookingBody(request: BookingRequest, customerId: Option<string>)

  /** `createBooking`: the booking is made for the authenticated user, whatever the body says. */
  function CreateBookingFor(user: Claims, body: BookingBody, locationId: string,
                            lookup: Result<Option<CatalogItemVariation>, RemoteError>,
                            create: NewBooking -> Result<Option<RemoteBooking>, RemoteError>)
    : (r: Result<BookingView, ErrorReply>)
    requires "id" in user && user["id"].JStr?
    ensures var made := Square.CreateBooking(user["id"].s, body.request, locationId, lookup, create);
      r == if made.Ok? then Ok(made.value) else Err(ReplyOf(made.error))
  {
    match Square.CreateBooking(user["id"].s, body.request, locationId, lookup, create)
    case Ok(b) => Ok(b)
    case Err(e) => Err(ReplyOf(e))
  }

  /** The body's `customerId` changes nothing, and the booking sent names the user. */
  lemma CreateBookingIgnoresBodyCustomer(user: Claims, body: BookingBody, other: Option<string>, locationId: string,
                                         lookup: Result<Option<CatalogItemVariation>, RemoteError>,
                                         create: NewBooking -> Result<Option<RemoteBooking>, RemoteError>)
    requires "id" in user && user["id"].JStr?
    ensures CreateBookingFor(user, body, locationId, lookup, create)
         == CreateBookingFor(user, body.(customerId := other), locationId, lookup, create)
    ensures BookingToSend(user["id"].s, body.request, locationId, ServiceVariationDetails(lookup)).customerId == user["id"].s
  {
  }

  /** A booking whose platform record names the user as its customer is theirs to see. */
  lemma OwnBookingAccessible(user: Claims, b: RemoteBooking)
    requires "id" in user && user["id"].JStr? && b.customerId == Some(user["id"].s)
    ensures MayAccess(user, ViewOf(b, true))
  {
  }

  /** `getBookingDetails`: the platform lookup, then the ownership rule. */
  function BookingDetailsFor(user: Claims, reply: Result<Option<RemoteBooking>, RemoteError>)
    : (r: Result<BookingView, ErrorReply>)
    ensures GetBookingDetails(reply).Err? ==> r == Err(ReplyOf(GetBookingDetails(reply).error))
    ensures GetBookingDetails(reply).Ok? ==>
      (r.Ok? <==> MayAccess(user, GetBookingDetails(reply).value))
      && (r.Ok? ==> r.value == GetBookingDetails(reply).value)
      && (r.Err? ==> r.error == ErrorReply(403, ForbiddenError, Some(ViewOwnOnly)))
    ensures RoleOf(user) != Some("CUSTOMER") ==> r == (match GetBookingDetails(reply)
                                                        case Ok(v) => Ok(v)
                                                        case Err(e) => Err(ReplyOf(e)))
  {
    match GetBookingDetails(reply)
    case Err(e) => Err(ReplyOf(e))
    case Ok(v) => if MayAccess(user, v) then Ok(v) else Err(ErrorReply(403, ForbiddenError, Some(ViewOwnOnly)))
  }

  /**
   * `cancelBooking`: the lookup and the ownership rule come first; the
   * second component is the cancellation sent to the platform, if any.
   */
  function CancelFor(user: Claims, id: string, bookingVersion: Option<int>,
                     details: Result<Option<RemoteBooking>, RemoteError>,
                     cancel: (string, Option<int>) -> Result<Option<RemoteBooking>, RemoteError>)
    : (out: (Result<CancelView, ErrorReply>, Option<(string, Option<int>)>))
    ensures out.1.Some? <==> GetBookingDetails(details).Ok? && MayAccess(user, GetBookingDetails(details).value)
    ensures out.1.Some? ==>
      out.1.value == (id, bookingVersion)
      && out.0 == (match CancelBooking(cancel(id, bookingVersion))
                   case Ok(c) => Ok(c)
                   case Err(e) => Err(ReplyOf(e)))
    ensures GetBookingDetails(details).Err? ==> out == (Err(ReplyOf(GetBookingDetails(details).error)), None)
    ensures GetBookingDetails(details).Ok? && !MayAccess(user, GetBookingDetails(details).value) ==>
      out == (Err(ErrorReply(403, ForbiddenError, Some(CancelOwnOnly))), None)
  {
    match GetBookingDetails(details)
    case Err(e) => (Err(ReplyOf(e)), None)
    case Ok(v) =>
      if !MayAccess(user, v) then (Err(ErrorReply(403, ForbiddenError, Some(CancelOwnOnly))), None)
      else
        match CancelBooking(cancel(id, bookingVersion))
        case Ok(c) => (Ok(c), Some((id, bookingVersion)))
        case Err(e) => (Err(ReplyOf(e)), Some((id, bookingVersion)))
  }

  /** A customer never cancels a booking whose customer id is not their id. */
  lemma ForbiddenNeverCancels(user: Claims, id: string, bookingVersion: Option<int>,
                              details: Result<Option<RemoteBooking>, RemoteError>,
                              cancel: (string, Option<int>) -> Result<Option<RemoteBooking>, RemoteError>)
    requires RoleOf(user) == Some("CUSTOMER")
    requires details.Ok? && details.value.Some? && Str(details.value.value.customerId) != UserId(user)
    ensures CancelFor(user, id, bookingVersion, details, cancel).1.None?
    ensures CancelFor(user, id, bookingVersion, details, cancel).0.Err?
         && CancelFor(user, id, bookingVersion, details, cancel).0.error.status == 403
  {
  }

  // ---------------------------------------------------------------- the handlers

  class Handlers {
    const redis: Option<RedisStore>
    const barbersTtl: nat
    const servicesTtl: nat

    constructor (redis: Option<RedisStore>, barbersTtl: nat, servicesTtl: nat)
      ensures this.redis == redis && this.barbersTtl == barbersTtl && this.servicesTtl == servicesTtl
    {
      this.redis := redis;
      this.barbersTtl := barbersTtl;
      this.servicesTtl := servicesTtl;
    }

    function CacheFrame(): set<object> {
      if redis.Some? then {redis.value} else {}
    }

    function Entries(): (e: Option<map<string, Json>>)
      reads CacheFrame()
      ensures e.Some? <==> redis.Some?
    {
      if redis.Some? then Some(redis.value.entries) else None
    }

    method GetBarbers(reply: Result<Option<seq<TeamMember>>, RemoteError>) returns (r: Result<seq<BookingProfile>, ErrorReply>)
      modifies CacheFrame()
      ensures (r, Entries()) == BarbersStep(old(Entries()), reply)
    {
      if redis.Some? {
        var cached := redis.value.Get(BarbersKey);
        if cached.Some? {
          var ps := ProfilesOfJson(cached.value);
          if ps.None? {
            return Err(Internal);
          }
          return Ok(ps.value);
        }
      }
      var barbers := Square.GetBarbers(reply);
      if barbers.Err? {
        return Err(ReplyOf(barbers.error));
      }
      if redis.Some? && |barbers.value| > 0 {
        redis.value.SetEx(BarbersKey, barbersTtl, BarbersJson(barbers.value));
      }
      r := Ok(ProfilesOfRecords(barbers.value));
    }

    method GetBarberDetails(id: string, reply: Result<Option<TeamMember>, RemoteError>) returns (r: Result<Json, ErrorReply>)
      modifies CacheFrame()
      ensures (r, Entries()) == DetailsStep(old(Entries()), id, BarberDetailsAsWritten(reply))
    {
      var key := BarberKey(id);
      if redis.Some? {
        var cached := redis.value.Get(key);
        if cached.Some? {
          return Ok(cached.value);
        }
      }
      var barber := BarberDetailsAsWritten(reply);
      if barber.Err? {
        return Err(ReplyOf(barber.error));
      }
      if redis.Some? {
        redis.value.SetEx(key, barbersTtl, BarberJson(barber.value));
      }
      r := Ok(BarberJson(barber.value));
    }

    method GetServices(filter: Option<string>, kind: Option<string>, reply: Result<Option<seq<CatalogObject>>, RemoteError>)
      returns (r: Result<ServicesPage, ErrorReply>)
      modifies CacheFrame()
      ensures (r, Entries()) == ServicesStep(old(Entries()), ServicesKeyAsWritten(filter, kind), filter, reply)
    {
      var key := ServicesKeyAsWritten(filter, kind);
      if redis.Some? {
        var cached := redis.value.Get(key);
        if cached.Some? {
          var ss := ServicesFromJson(cached.value);
          if ss.None? {
            return Err(Internal);
          }
          return Ok(PageOf(ss.value));
        }
      }
      var services := Square.GetServices(reply, filter);
      if services.Err? {
        return Err(ReplyOf(services.error));
      }
      if redis.Some? && |services.value| > 0 {
        redis.value.SetEx(key, servicesTtl, ServicesJson(services.value));
      }
      r := Ok(PageOf(services.value));
    }
  }
}
