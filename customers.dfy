/**
 * `CustomerService`: the customer's own profile, the booking search it sends
 * to the booking platform, and the booking statistics computed from the
 * answer. Booking times are whole seconds since the epoch; the platform's
 * answer to a search is a parameter.
 */
module Customers {
  import opened Common
  import opened Users
  import Auth

  /** The profile a customer sees: no role, no password. */
  datatype Profile = Profile(id: Id, phoneNumber: string, email: Option<string>, firstName: string,
                             lastName: string, isVerified: bool)

  datatype CustomerError =
    | CustomerNotFound
    | NotACustomer
    | EmailAlreadyRegistered
    | StoreRefused(error: StoreError)
    | BookingsFetchFailed        // "Failed to fetch bookings"
    | StatisticsFailed           // "Failed to calculate statistics"

  function ProfileOf(u: User): (p: Profile)
    ensures p.id == u.id && p.phoneNumber == u.phoneNumber && p.email == u.email
    ensures p.firstName == u.firstName && p.lastName == u.lastName && p.isVerified == u.isVerified
  {
    Profile(u.id, u.phoneNumber, u.email, u.firstName, u.lastName, u.isVerified)
  }

  /** `getProfile(customerId)`. */
  function GetProfile(users: Table, id: Id): (r: Result<Profile, CustomerError>)
    ensures id !in users ==> r == Err(CustomerNotFound)
    ensures id in users && users[id].role != Customer ==> r == Err(NotACustomer)
    ensures r.Ok? <==> id in users && users[id].role == Customer
    ensures r.Ok? ==> r.value == ProfileOf(users[id])
  {
    if id !in users then Err(CustomerNotFound)
    else if users[id].role != Customer then Err(NotACustomer)
    else Ok(ProfileOf(users[id]))
  }

  /** A successful profile update is what the next `getProfile` shows. */
  lemma {:induction false} UpdateThenGetProfile(users: Table, id: Id, firstName: Option<string>,
                                                lastName: Option<string>, email: Option<string>)
    requires Unique(users) && id in users && users[id].role == Customer
    requires Auth.UpdateProfileStep(users, id, firstName, lastName, email).0.Ok?
    ensures var (r, after) := Auth.UpdateProfileStep(users, id, firstName, lastName, email);
            GetProfile(after, id) == Ok(ProfileOf(r.value))
            && (Truthy(email).Some? ==> GetProfile(after, id).value.email == email)
            && (Truthy(email).None? ==> GetProfile(after, id).value.email == users[id].email)
  {
    var (r, after) := Auth.UpdateProfileStep(users, id, firstName, lastName, email);
    assert after[id] == r.value;
  }

  /** The bounds of a `startAtRange`, each present only when given. */
  datatype Range = Range(startAt: Option<string>, endAt: Option<string>)

  /** The `query.filter` of a booking search. */
  datatype SearchFilter = SearchFilter(customerIds: seq<Id>, locationIds: seq<string>,
                                       startAtRange: Option<Range>, statuses: Option<seq<string>>)

  datatype BookingFilters = BookingFilters(startDate: Option<string>, endDate: Option<string>, status: Option<string>)

  /** The search request `getBookings` builds, field by field. */
  method BuildBookingSearch(customerId: Id, locationId: string, filters: BookingFilters) returns (f: SearchFilter)
    ensures f.customerIds == [customerId] && f.locationIds == [locationId]
    ensures f.startAtRange.Some? <==> Truthy(filters.startDate).Some? || Truthy(filters.endDate).Some?
    ensures f.startAtRange.Some? ==>
      f.startAtRange.value.startAt == Truthy(filters.startDate) && f.startAtRange.value.endAt == Truthy(filters.endDate)
    ensures f.statuses.Some? <==> Truthy(filters.status).Some?
    ensures f.statuses.Some? ==> f.statuses.value == [filters.status.value]
  {
    f := SearchFilter([customerId], [locationId], None, None);
    if Truthy(filters.startDate).Some? || Truthy(filters.endDate).Some? {
      var range := Range(None, None);
      if Truthy(filters.startDate).Some? {
        range := range.(startAt := filters.startDate);
      }
      if Truthy(filters.endDate).Some? {
        range := range.(endAt := filters.endDate);
      }
      f := f.(startAtRange := Some(range));
    }
    if Truthy(filters.status).Some? {
      f := f.(statuses := Some([filters.status.value]));
    }
  }

  datatype RemoteSegment = RemoteSegment(durationMinutes: int, serviceVariationId: string, teamMemberId: string,
                                         serviceVariationVersion: int)

  /** A booking as the platform returns it. */
  datatype RemoteBooking = RemoteBooking(id: string, status: string, startAt: int, createdAt: int, updatedAt: int,
                                         customerNote: Option<string>, locationId: string,
                                         segments: Option<seq<RemoteSegment>>)

  datatype Segment = Segment(durationMinutes: int, serviceVariationId: string, teamMemberId: string)

  datatype Booking = Booking(id: string, status: string, startAt: int, createdAt: int, updatedAt: int,
                             customerNote: Option<string>, segments: Option<seq<Segment>>)

  function SegmentOf(s: RemoteSegment): Segment {
    Segment(s.durationMinutes, s.serviceVariationId, s.teamMemberId)
  }

  function BookingOf(b: RemoteBooking): (r: Booking)
    ensures r.id == b.id && r.status == b.status && r.startAt == b.startAt
    ensures r.segments.Some? <==> b.segments.Some?
    ensures r.segments.Some? ==>
      |r.segments.value| == |b.segments.value|
      && forall k :: 0 <= k < |b.segments.value| ==> r.segments.value[k] == SegmentOf(b.segments.value[k])
  {
    Booking(b.id, b.status, b.startAt, b.createdAt, b.updatedAt, b.customerNote,
            match b.segments
            case None => None
            case Some(ss) => Some(seq(|ss|, k requires 0 <= k < |ss| => SegmentOf(ss[k]))))
  }

  /** The mapping of `getBookings`: one record per returned booking, none when the list is missing. */
  function ListBookings(reply: Result<Option<seq<RemoteBooking>>, string>): (r: Result<seq<Booking>, CustomerError>)
    ensures reply.Err? <==> r == Err(BookingsFetchFailed)
    ensures reply.Ok? && reply.value.None? ==> r == Ok([])
    ensures reply.Ok? && reply.value.Some? ==>
      r.Ok? && |r.value| == |reply.value.value|
      && forall k :: 0 <= k < |r.value| ==> r.value[k] == BookingOf(reply.value.value[k])
  {
    match reply
    case Err(_) => Err(BookingsFetchFailed)
    case Ok(None) => Ok([])
    case Ok(Some(bs)) => Ok(seq(|bs|, k requires 0 <= k < |bs| => BookingOf(bs[k])))
  }

  // The three classes a booking falls into relative to the current time.
  predicate IsCancelled(b: Booking) {
    b.status == "CANCELLED"
  }

  predicate IsUpcoming(b: Booking, now: int) {
    !IsCancelled(b) && b.startAt > now
  }

  predicate IsPast(b: Booking, now: int) {
    !IsCancelled(b) && !(b.startAt > now)
  }

  function CancelledCount(bs: seq<Booking>): nat {
    if |bs| == 0 then 0 else CancelledCount(bs[..|bs| - 1]) + (if IsCancelled(bs[|bs| - 1]) then 1 else 0)
  }

  function UpcomingCount(bs: seq<Booking>, now: int): nat {
    if |bs| == 0 then 0 else UpcomingCount(bs[..|bs| - 1], now) + (if IsUpcoming(bs[|bs| - 1], now) then 1 else 0)
  }

  function PastCount(bs: seq<Booking>, now: int): nat {
    if |bs| == 0 then 0 else PastCount(bs[..|bs| - 1], now) + (if IsPast(bs[|bs| - 1], now) then 1 else 0)
  }

  /** Each booking lands in exactly one class, so the classes add up to the total. */
  lemma {:induction false} CountsPartition(bs: seq<Booking>, now: int)
    ensures CancelledCount(bs) + UpcomingCount(bs, now) + PastCount(bs, now) == |bs|
  {
    if |bs| > 0 {
      CountsPartition(bs[..|bs| - 1], now);
    }
  }

  /** The start of the earliest upcoming booking, as the loop keeps it. */
  function Earliest(bs: seq<Booking>, now: int): Option<int> {
    if |bs| == 0 then None
    else
      var e := Earliest(bs[..|bs| - 1], now);
      var b := bs[|bs| - 1];
      if IsUpcoming(b, now) && (e.None? || b.startAt < e.value) then Some(b.startAt) else e
  }

  /** The start of the latest past booking, as the loop keeps it. */
  function Latest(bs: seq<Booking>, now: int): Option<int> {
    if |bs| == 0 then None
    else
      var l := Latest(bs[..|bs| - 1], now);
      var b := bs[|bs| - 1];
      if IsPast(b, now) && (l.None? || b.startAt > l.value) then Some(b.startAt) else l
  }

  /** `Earliest` is the minimum over the upcoming bookings, and absent exactly when there are none. */
  lemma {:induction false} EarliestIsMinimum(bs: seq<Booking>, now: int)
    ensures Earliest(bs, now).None? <==> UpcomingCount(bs, now) == 0
    ensures Earliest(bs, now).Some? ==>
      (exists k :: 0 <= k < |bs| && IsUpcoming(bs[k], now) && bs[k].startAt == Earliest(bs, now).value)
    ensures forall k :: 0 <= k < |bs| && IsUpcoming(bs[k], now) ==>
      Earliest(bs, now).Some? && Earliest(bs, now).value <= bs[k].startAt
  {
    if |bs| > 0 {
      var init := bs[..|bs| - 1];
      EarliestIsMinimum(init, now);
      var e := Earliest(init, now);
      var last := |bs| - 1;
      if e.Some? {
        var k :| 0 <= k < |init| && IsUpcoming(init[k], now) && init[k].startAt == e.value;
        assert bs[k] == init[k];
      }
      forall k | 0 <= k < |bs| && IsUpcoming(bs[k], now)
        ensures Earliest(bs, now).Some? && Earliest(bs, now).value <= bs[k].startAt
      {
        if k < last {
          assert bs[k] == init[k];
        }
      }
    }
  }

  /** `Latest` is the maximum over the past bookings, and absent exactly when there are none. */
  lemma {:induction false} LatestIsMaximum(bs: seq<Booking>, now: int)
    ensures Latest(bs, now).None? <==> PastCount(bs, now) == 0
    ensures Latest(bs, now).Some? ==>
      (exists k :: 0 <= k < |bs| && IsPast(bs[k], now) && bs[k].startAt == Latest(bs, now).value)
    ensures forall k :: 0 <= k < |bs| && IsPast(bs[k], now) ==>
      Latest(bs, now).Some? && bs[k].startAt <= Latest(bs, now).value
  {
    if |bs| > 0 {
      var init := bs[..|bs| - 1];
      LatestIsMaximum(init, now);
      var l := Latest(init, now);
      var last := |bs| - 1;
      if l.Some? {
        var k :| 0 <= k < |init| && IsPast(init[k], now) && init[k].startAt == l.value;
        assert bs[k] == init[k];
      }
      forall k | 0 <= k < |bs| && IsPast(bs[k], now)
        ensures Latest(bs, now).Some? && bs[k].startAt <= Latest(bs, now).value
      {
        if k < last {
          assert bs[k] == init[k];
        }
      }
    }
  }

  datatype Stats = Stats(totalBookings: nat, upcomingBookings: nat, pastBookings: nat, cancelledBookings: nat,
                         lastBookingDate: Option<int>, nextBookingDate: Option<int>)

  /** The counting loop of `getStatistics`. */
  method Statistics(bookings: seq<Booking>, now: int) returns (stats: Stats)
    ensures stats.totalBookings == |bookings|
    ensures stats.cancelledBookings == CancelledCount(bookings)
    ensures stats.upcomingBookings == UpcomingCount(bookings, now)
    ensures stats.pastBookings == PastCount(bookings, now)
    ensures stats.cancelledBookings + stats.upcomingBookings + stats.pastBookings == stats.totalBookings
    ensures stats.nextBookingDate == Earliest(bookings, now)
    ensures stats.lastBookingDate == Latest(bookings, now)
    ensures stats.nextBookingDate.None? <==> stats.upcomingBookings == 0
    ensures stats.lastBookingDate.None? <==> stats.pastBookings == 0
  {
    stats := Stats(|bookings|, 0, 0, 0, None, None);
    var i := 0;
    while i < |bookings|
      invariant 0 <= i <= |bookings|
      invariant stats.totalBookings == |bookings|
      invariant stats.cancelledBookings == CancelledCount(bookings[..i])
      invariant stats.upcomingBookings == UpcomingCount(bookings[..i], now)
      invariant stats.pastBookings == PastCount(bookings[..i], now)
      invariant stats.nextBookingDate == Earliest(bookings[..i], now)
      invariant stats.lastBookingDate == Latest(bookings[..i], now)
    {
      var b := bookings[i];
      assert bookings[..i + 1][..i] == bookings[..i];
      if b.status == "CANCELLED" {
        stats := stats.(cancelledBookings := stats.cancelledBookings + 1);
      } else if b.startAt > now {
        stats := stats.(upcomingBookings := stats.upcomingBookings + 1);
        if stats.nextBookingDate.None? || b.startAt < stats.nextBookingDate.value {
          stats := stats.(nextBookingDate := Some(b.startAt));
        }
      } else {
        stats := stats.(pastBookings := stats.pastBookings + 1);
        if stats.lastBookingDate.None? || b.startAt > stats.lastBookingDate.value {
          stats := stats.(lastBookingDate := Some(b.startAt));
        }
      }
      i := i + 1;
    }
    assert bookings[..i] == bookings;
    CountsPartition(bookings, now);
    EarliestIsMinimum(bookings, now);
    LatestIsMaximum(bookings, now);
  }

  /** `getStatistics`: the statistics of everything the search returns; any failure becomes one error. */
  method GetStatistics(reply: Result<Option<seq<RemoteBooking>>, string>, now: int)
    returns (r: Result<Stats, CustomerError>)
    ensures reply.Err? <==> r == Err(StatisticsFailed)
    ensures r.Ok? ==>
      r.value.totalBookings == |ListBookings(reply).value|
      && r.value.nextBookingDate == Earliest(ListBookings(reply).value, now)
      && r.value.lastBookingDate == Latest(ListBookings(reply).value, now)
      && r.value.upcomingBookings == UpcomingCount(ListBookings(reply).value, now)
      && r.value.pastBookings == PastCount(ListBookings(reply).value, now)
      && r.value.cancelledBookings == CancelledCount(ListBookings(reply).value)
  {
    var bookings := ListBookings(reply);
    if bookings.Err? {
      return Err(StatisticsFailed);
    }
    var stats := Statistics(bookings.value, now);
    return Ok(stats);
  }

  /** The profile update's failures as this service reports them. */
  function FromAuth(e: Auth.AuthError): CustomerError {
    if e.EmailAlreadyRegistered? then EmailAlreadyRegistered
    else if e.Store? then StoreRefused(e.error)
    else CustomerNotFound
  }

  /** `CustomerService`: the profile update writes the shared user table. */
  class CustomerService {
    const table: UserTable

    ghost predicate Valid()
      reads this, table
    {
      table.Valid()
    }

    constructor (table: UserTable)
      requires table.Valid()
      ensures Valid() && this.table == table
    {
      this.table := table;
    }

    /** `updateProfile`: the same store step as the identity service, answered as a profile. */
    method UpdateProfile(id: Id, firstName: Option<string>, lastName: Option<string>, email: Option<string>)
      returns (r: Result<Profile, CustomerError>)
      requires Valid()
      modifies table
      ensures Valid()
      ensures table.users == Auth.UpdateProfileStep(old(table.users), id, firstName, lastName, email).1
      ensures r == match Auth.UpdateProfileStep(old(table.users), id, firstName, lastName, email).0
                   case Ok(u) => Ok(ProfileOf(u))
                   case Err(e) => Err(FromAuth(e))
    {
      if Truthy(email).Some? && EmailTakenByOther(table.users, email.value, id) {
        return Err(EmailAlreadyRegistered);
      }
      if id !in table.users {
        return Err(StoreRefused(RecordMissing));
      }
      var u := table.users[id];
      var updated := table.Update(u.(firstName := if Truthy(firstName).Some? then firstName.value else u.firstName,
                                     lastName := if Truthy(lastName).Some? then lastName.value else u.lastName,
                                     email := if Truthy(email).Some? then email else u.email));
      assert updated.Ok?;
      return Ok(ProfileOf(updated.value));
    }
  }
}
