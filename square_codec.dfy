/**
 * The JSON text the booking handlers keep in the cache: `JSON.stringify` of
 * the service's records, which leaves out every field that is `undefined`,
 * and the reading of that text back. Reading what was written gives the
 * records back unchanged.
 */
module SquareCodec {
  import opened Common
  import opened Square

  /** Property access on a parsed object: the value under `key`, or `undefined`. */
  function Lookup(ms: seq<(string, Json)>, key: string): Option<Json> {
    if |ms| == 0 then None else if ms[0].0 == key then Some(ms[0].1) else Lookup(ms[1..], key)
  }

  lemma {:induction false} LookupAppend(a: seq<(string, Json)>, b: seq<(string, Json)>, key: string)
    ensures Lookup(a + b, key) == if Lookup(a, key).Some? then Lookup(a, key) else Lookup(b, key)
  {
    if |a| > 0 {
      assert (a + b)[1..] == a[1..] + b;
      LookupAppend(a[1..], b, key);
    } else {
      assert a + b == b;
    }
  }

  /** A member that `JSON.stringify` writes only when the field is defined. */
  function Member(key: string, v: Option<Json>): seq<(string, Json)> {
    if v.Some? then [(key, v.value)] else []
  }

  function Str(o: Option<string>): Option<Json> {
    if o.Some? then Some(JStr(o.value)) else None
  }

  function Num(o: Option<int>): Option<Json> {
    if o.Some? then Some(JNum(o.value)) else None
  }

  function AsStr(j: Option<Json>): Option<string> {
    if j.Some? && j.value.JStr? then Some(j.value.s) else None
  }

  function AsNum(j: Option<Json>): Option<int> {
    if j.Some? && j.value.JNum? then Some(j.value.n) else None
  }

  /** An object written field by field, leaving out the undefined ones. */
  function Compact(fs: seq<(string, Option<Json>)>): seq<(string, Json)> {
    if |fs| == 0 then [] else Member(fs[0].0, fs[0].1) + Compact(fs[1..])
  }

  predicate DistinctKeys(fs: seq<(string, Option<Json>)>) {
    forall i, j :: 0 <= i < j < |fs| ==> fs[i].0 != fs[j].0
  }

  lemma {:induction false} LookupCompactAbsent(fs: seq<(string, Option<Json>)>, k: string)
    requires forall i :: 0 <= i < |fs| ==> fs[i].0 != k
    ensures Lookup(Compact(fs), k) == None
  {
    if |fs| > 0 {
      LookupAppend(Member(fs[0].0, fs[0].1), Compact(fs[1..]), k);
      LookupCompactAbsent(fs[1..], k);
    }
  }

  /** Reading a field of an object written without repeated keys gives what was written there. */
  lemma {:induction false} LookupCompact(fs: seq<(string, Option<Json>)>, k: string, i: nat)
    requires DistinctKeys(fs) && i < |fs| && fs[i].0 == k
    ensures Lookup(Compact(fs), k) == fs[i].1
  {
    LookupAppend(Member(fs[0].0, fs[0].1), Compact(fs[1..]), k);
    if i == 0 {
      LookupCompactAbsent(fs[1..], k);
    } else {
      LookupCompact(fs[1..], k, i - 1);
    }
  }

  // ---------------------------------------------------------------- barbers

  function BarberFields(b: BarberProfile): seq<(string, Option<Json>)> {
    [("id", Str(b.id)), ("givenName", Str(b.givenName)), ("familyName", Str(b.familyName)),
     ("displayName", Some(JStr(b.displayName))), ("email", Str(b.email)), ("phoneNumber", Str(b.phoneNumber)),
     ("status", Str(b.status)), ("isOwner", Some(JBool(b.isOwner))), ("createdAt", Str(b.createdAt)),
     ("updatedAt", Str(b.updatedAt))]
  }

  /** `JSON.stringify(barber)`. */
  function BarberJson(b: BarberProfile): Json {
    JObject(Compact(BarberFields(b)))
  }

  function BarbersJson(bs: seq<BarberProfile>): (j: Json)
    ensures j.JArray? && |j.items| == |bs| && forall i :: 0 <= i < |bs| ==> j.items[i] == BarberJson(bs[i])
  {
    JArray(seq(|bs|, i requires 0 <= i < |bs| => BarberJson(bs[i])))
  }

  /** The three fields the barber list reads back, and the absence of `isBookable`. */
  lemma BarberFieldsReadBack(b: BarberProfile)
    ensures Lookup(BarberJson(b).members, "id") == Str(b.id)
    ensures Lookup(BarberJson(b).members, "displayName") == Some(JStr(b.displayName))
    ensures Lookup(BarberJson(b).members, "isBookable") == None
  {
    var fs := BarberFields(b);
    assert DistinctKeys(fs);
    LookupCompact(fs, "id", 0);
    LookupCompact(fs, "displayName", 3);
    LookupCompactAbsent(fs, "isBookable");
  }

  // ---------------------------------------------------------------- services

  function PriceFields(p: Price): seq<(string, Option<Json>)> {
    [("amount", Num(p.amount)), ("currency", Str(p.currency))]
  }

  function PriceJson(p: Price): Json {
    JObject(Compact(PriceFields(p)))
  }

  function VariationFields(v: Variation): seq<(string, Option<Json>)> {
    [("id", Str(v.id)), ("name", Str(v.name)), ("price", Some(PriceJson(v.price))),
     ("serviceDuration", Num(v.serviceDuration)), ("availableForBooking", Some(JBool(v.availableForBooking))),
     ("teamMemberIds", Some(StringsJson(v.teamMemberIds)))]
  }

  function StringsJson(ss: seq<string>): (j: Json)
    ensures j.JArray? && |j.items| == |ss| && forall i :: 0 <= i < |ss| ==> j.items[i] == JStr(ss[i])
  {
    JArray(seq(|ss|, i requires 0 <= i < |ss| => JStr(ss[i])))
  }

  function VariationJson(v: Variation): Json {
    JObject(Compact(VariationFields(v)))
  }

  function VariationsJson(vs: seq<Variation>): (j: Json)
    ensures j.JArray? && |j.items| == |vs| && forall i :: 0 <= i < |vs| ==> j.items[i] == VariationJson(vs[i])
  {
    JArray(seq(|vs|, i requires 0 <= i < |vs| => VariationJson(vs[i])))
  }

  function ServiceFields(s: Service): seq<(string, Option<Json>)> {
    [("id", Str(s.id)), ("name", Str(s.name)), ("description", Str(s.description)), ("category", Str(s.category)),
     ("variations", Some(VariationsJson(s.variations))), ("isDeleted", Some(JBool(s.isDeleted))),
     ("updatedAt", Str(s.updatedAt))]
  }

  /** `JSON.stringify(service)`. */
  function ServiceJson(s: Service): Json {
    JObject(Compact(ServiceFields(s)))
  }

  function ServicesJson(ss: seq<Service>): (j: Json)
    ensures j.JArray? && |j.items| == |ss| && forall i :: 0 <= i < |ss| ==> j.items[i] == ServiceJson(ss[i])
  {
    JArray(seq(|ss|, i requires 0 <= i < |ss| => ServiceJson(ss[i])))
  }

  function PriceFromJson(j: Option<Json>): Option<Price> {
    if j.Some? && j.value.JObject? then
      Some(Price(AsNum(Lookup(j.value.members, "amount")), AsStr(Lookup(j.value.members, "currency"))))
    else None
  }

  function StringsFromJson(j: Option<Json>): Option<seq<string>> {
    if j.Some? && j.value.JArray? && forall i :: 0 <= i < |j.value.items| ==> j.value.items[i].JStr? then
      Some(seq(|j.value.items|, i requires 0 <= i < |j.value.items| && j.value.items[i].JStr? => j.value.items[i].s))
    else None
  }

  /** Reading one cached variation back; `teamMemberIds || []`. */
  function VariationFromJson(j: Json): Option<Variation> {
    if !j.JObject? then None
    else
      var ms := j.members;
      var price := PriceFromJson(Lookup(ms, "price"));
      var ids := if Lookup(ms, "teamMemberIds").None? then Some([]) else StringsFromJson(Lookup(ms, "teamMemberIds"));
      if price.None? || ids.None? then None
      else Some(Variation(AsStr(Lookup(ms, "id")), AsStr(Lookup(ms, "name")), price.value,
                          AsNum(Lookup(ms, "serviceDuration")), Lookup(ms, "availableForBooking") == Some(JBool(true)),
                          ids.value))
  }

  function VariationsFromJson(j: Option<Json>): Option<seq<Variation>> {
    if j.Some? && j.value.JArray? && forall i :: 0 <= i < |j.value.items| ==> VariationFromJson(j.value.items[i]).Some? then
      Some(seq(|j.value.items|, i requires 0 <= i < |j.value.items| && VariationFromJson(j.value.items[i]).Some? =>
                                  VariationFromJson(j.value.items[i]).value))
    else None
  }

  /** Reading one cached service back. */
  function ServiceFromJson(j: Json): Option<Service> {
    if !j.JObject? then None
    else
      var ms := j.members;
      var vs := VariationsFromJson(Lookup(ms, "variations"));
      if vs.None? then None
      else Some(Service(AsStr(Lookup(ms, "id")), AsStr(Lookup(ms, "name")), AsStr(Lookup(ms, "description")),
                        AsStr(Lookup(ms, "category")), vs.value, Lookup(ms, "isDeleted") == Some(JBool(true)),
                        AsStr(Lookup(ms, "updatedAt"))))
  }

  /** `JSON.parse` of a cached service list; `None` where the handler would throw. */
  function ServicesFromJson(j: Json): Option<seq<Service>> {
    if j.JArray? && forall i :: 0 <= i < |j.items| ==> ServiceFromJson(j.items[i]).Some? then
      Some(seq(|j.items|, i requires 0 <= i < |j.items| && ServiceFromJson(j.items[i]).Some? =>
                            ServiceFromJson(j.items[i]).value))
    else None
  }

  lemma PriceRoundTrip(p: Price)
    ensures PriceFromJson(Some(PriceJson(p))) == Some(p)
  {
    var fs := PriceFields(p);
    LookupCompact(fs, "amount", 0);
    LookupCompact(fs, "currency", 1);
  }

  lemma StringsRoundTrip(ss: seq<string>)
    ensures StringsFromJson(Some(StringsJson(ss))) == Some(ss)
  {
    var j := StringsJson(ss);
    assert forall i :: 0 <= i < |j.items| ==> j.items[i].JStr? && j.items[i].s == ss[i];
    var r := StringsFromJson(Some(j)).value;
    assert |r| == |ss| && forall i :: 0 <= i < |r| ==> r[i] == ss[i];
    assert r == ss;
  }

  lemma VariationRoundTrip(v: Variation)
    ensures VariationFromJson(VariationJson(v)) == Some(v)
  {
    var fs := VariationFields(v);
    assert DistinctKeys(fs);
    LookupCompact(fs, "id", 0);
    LookupCompact(fs, "name", 1);
    LookupCompact(fs, "price", 2);
    LookupCompact(fs, "serviceDuration", 3);
    LookupCompact(fs, "availableForBooking", 4);
    LookupCompact(fs, "teamMemberIds", 5);
    PriceRoundTrip(v.price);
    StringsRoundTrip(v.teamMemberIds);
  }

  lemma VariationsRoundTrip(vs: seq<Variation>)
    ensures VariationsFromJson(Some(VariationsJson(vs))) == Some(vs)
  {
    var j := VariationsJson(vs);
    forall i | 0 <= i < |vs| ensures VariationFromJson(j.items[i]) == Some(vs[i]) {
      VariationRoundTrip(vs[i]);
    }
    var r := VariationsFromJson(Some(j)).value;
    assert |r| == |vs| && forall i :: 0 <= i < |r| ==> r[i] == vs[i];
    assert r == vs;
  }

  lemma ServiceRoundTrip(s: Service)
    ensures ServiceFromJson(ServiceJson(s)) == Some(s)
  {
    var fs := ServiceFields(s);
    assert DistinctKeys(fs);
    LookupCompact(fs, "id", 0);
    LookupCompact(fs, "name", 1);
    LookupCompact(fs, "description", 2);
    LookupCompact(fs, "category", 3);
    LookupCompact(fs, "variations", 4);
    LookupCompact(fs, "isDeleted", 5);
    LookupCompact(fs, "updatedAt", 6);
    VariationsRoundTrip(s.variations);
  }

  /** Reading a cached service list gives back the list that was written. */
  lemma ServicesRoundTrip(ss: seq<Service>)
    ensures ServicesFromJson(ServicesJson(ss)) == Some(ss)
  {
    forall i | 0 <= i < |ss| ensures ServiceFromJson(ServicesJson(ss).items[i]) == Some(ss[i]) {
      ServiceRoundTrip(ss[i]);
    }
    var r := ServicesFromJson(ServicesJson(ss)).value;
    assert |r| == |ss| && forall i :: 0 <= i < |r| ==> r[i] == ss[i];
    assert r == ss;
  }
}
