/**
 * `ParameterService`: typed site parameters (colours, texts, flags, links)
 * kept in a table with unique ids and keys, listed with filters and paging,
 * served publicly from a cache that every write clears.
 *
 * The URL parser is an oracle `isUrl`: whether `new URL(value)` accepts the
 * text. Timestamps are the table's write counter.
 */
module Parameters {
  import opened Common
  import opened Ordering
  import opened Cache

  const CachePrefix := "parameters:public"
  const CacheTtl := 300

  datatype Parameter = Parameter(id: string, key: string, value: Json, valueType: string, category: string,
                                 description: Option<string>, isActive: bool, createdAt: int, updatedAt: int)

  // ---------------------------------------------------------------- validation

  /** JavaScript's `typeof` of a JSON value. */
  function TypeOf(v: Json): string {
    match v
    case JStr(_) => "string"
    case JNum(_) => "number"
    case JBool(_) => "boolean"
    case _ => "object"
  }

  predicate IsHexDigit(c: char) {
    '0' <= c <= '9' || 'a' <= c <= 'f' || 'A' <= c <= 'F'
  }

  /** `/^#([A-Fa-f0-9]{6}|[A-Fa-f0-9]{3})$/`. */
  predicate IsHexColor(s: string) {
    (|s| == 4 || |s| == 7) && s[0] == '#' && forall i :: 1 <= i < |s| ==> IsHexDigit(s[i])
  }

  const KnownTypes := {"STRING", "NUMBER", "BOOLEAN", "COLOR", "JSON", "IMAGE_URL", "URL"}

  /** `validateValueType(value, type)`. */
  function ValidateValueType(value: Json, valueType: string, isUrl: string -> bool): (r: Result<(), string>)
    ensures valueType == "STRING" ==> (r.Ok? <==> TypeOf(value) == "string")
    ensures valueType == "NUMBER" ==> (r.Ok? <==> TypeOf(value) == "number")
    ensures valueType == "BOOLEAN" ==> (r.Ok? <==> TypeOf(value) == "boolean")
    ensures valueType == "COLOR" ==> (r.Ok? <==> value.JStr? && IsHexColor(value.s))
    ensures valueType == "JSON" ==> (r.Ok? <==> TypeOf(value) == "object" && value != JNull)
    ensures valueType == "URL" || valueType == "IMAGE_URL" ==> (r.Ok? <==> value.JStr? && isUrl(value.s))
    ensures valueType !in KnownTypes ==> r == Err("Invalid parameter type")
  {
    if valueType == "STRING" then
      if TypeOf(value) != "string" then Err("Value must be a string") else Ok(())
    else if valueType == "NUMBER" then
      if TypeOf(value) != "number" then Err("Value must be a number") else Ok(())
    else if valueType == "BOOLEAN" then
      if TypeOf(value) != "boolean" then Err("Value must be a boolean") else Ok(())
    else if valueType == "COLOR" then
      if !value.JStr? || !IsHexColor(value.s) then Err("Value must be a valid hex color (e.g., #ffffff or #fff)")
      else Ok(())
    else if valueType == "JSON" then
      if TypeOf(value) != "object" || value == JNull then Err("Value must be a valid JSON object") else Ok(())
    else if valueType == "IMAGE_URL" || valueType == "URL" then
      if !value.JStr? then Err("Value must be a string URL")
      else if !isUrl(value.s) then Err("Value must be a valid URL")
      else Ok(())
    else Err("Invalid parameter type")
  }

  /** The colour rule accepts both lengths and either case, and nothing without the `#`. */
  lemma ColorExamples()
    ensures IsHexColor("#fff") && IsHexColor("#A1b2C3")
    ensures !IsHexColor("#ffff") && !IsHexColor("fff") && !IsHexColor("#ggg")
  {
    assert "#ggg"[1] == 'g';
  }

  // ---------------------------------------------------------------- listing

  datatype SortField = ByKey | ByCategory | ByType | ByCreatedAt | ByUpdatedAt
  datatype Direction = Asc | Desc

  /** The `where` clause of a listing: only the filters that were given. */
  datatype Where = Where(category: Option<string>, valueType: Option<string>, isActive: Option<bool>,
                         search: Option<string>)

  datatype ListOptions = ListOptions(category: Option<string>, valueType: Option<string>, isActive: Option<string>,
                                     search: Option<string>, page: Option<int>, limit: Option<int>,
                                     sortBy: Option<SortField>, sortOrder: Option<Direction>)

  datatype ListQuery = ListQuery(where: Where, skip: int, take: int, page: int, sortBy: SortField, sortOrder: Direction)

  /** The query `listParameters` sends; the request schema bounds page and limit. */
  function QueryOf(opts: ListOptions): (q: ListQuery)
    requires opts.page.None? || opts.page.value >= 1
    requires opts.limit.None? || 1 <= opts.limit.value <= 100
    ensures q.page == (if opts.page.Some? then opts.page.value else 1) && q.page >= 1
    ensures q.take == (if opts.limit.Some? then opts.limit.value else 20) && q.take >= 1
    ensures q.skip == (q.page - 1) * q.take && q.skip >= 0
    ensures q.sortBy == (if opts.sortBy.Some? then opts.sortBy.value else ByKey)
    ensures q.sortOrder == (if opts.sortOrder.Some? then opts.sortOrder.value else Asc)
    ensures q.where.category == Truthy(opts.category) && q.where.valueType == Truthy(opts.valueType)
    ensures q.where.search == Truthy(opts.search)
    ensures q.where.isActive.Some? <==> opts.isActive.Some?
    ensures q.where.isActive.Some? ==> (q.where.isActive.value <==> opts.isActive.value == "true")
  {
    var page := if opts.page.Some? then opts.page.value else 1;
    var limit := if opts.limit.Some? then opts.limit.value else 20;
    ListQuery(Where(Truthy(opts.category), Truthy(opts.valueType),
                    if opts.isActive.Some? then Some(opts.isActive.value == "true") else None,
                    Truthy(opts.search)),
              (page - 1) * limit, limit, page,
              if opts.sortBy.Some? then opts.sortBy.value else ByKey,
              if opts.sortOrder.Some? then opts.sortOrder.value else Asc)
  }

  /** The `where` object built field by field, as `listParameters` does. */
  method BuildListQuery(opts: ListOptions) returns (q: ListQuery)
    requires opts.page.None? || opts.page.value >= 1
    requires opts.limit.None? || 1 <= opts.limit.value <= 100
    ensures q == QueryOf(opts)
  {
    var page := if opts.page.Some? then opts.page.value else 1;
    var limit := if opts.limit.Some? then opts.limit.value else 20;
    var where := Where(None, None, None, None);
    if Truthy(opts.category).Some? {
      where := where.(category := opts.category);
    }
    if Truthy(opts.valueType).Some? {
      where := where.(valueType := opts.valueType);
    }
    if opts.isActive.Some? {
      where := where.(isActive := Some(opts.isActive.value == "true"));
    }
    if Truthy(opts.search).Some? {
      where := where.(search := opts.search);
    }
    q := ListQuery(where, (page - 1) * limit, limit, page,
                   if opts.sortBy.Some? then opts.sortBy.value else ByKey,
                   if opts.sortOrder.Some? then opts.sortOrder.value else Asc);
  }

  /** `contains` with `mode: 'insensitive'`, on ASCII letters. */
  predicate ContainsInsensitive(text: string, sub: string) {
    Contains(ToLower(text), ToLower(sub))
  }

  predicate Satisfies(p: Parameter, w: Where) {
    (w.category.None? || p.category == w.category.value)
    && (w.valueType.None? || p.valueType == w.valueType.value)
    && (w.isActive.None? || p.isActive == w.isActive.value)
    && (w.search.None? || ContainsInsensitive(p.key, w.search.value)
        || (p.description.Some? && ContainsInsensitive(p.description.value, w.search.value)))
  }

  function SortKeyOf(field: SortField, dir: Direction): Parameter -> seq<int> {
    var asc := (p: Parameter) =>
      match field
      case ByKey => StringKey(p.key)
      case ByCategory => StringKey(p.category)
      case ByType => StringKey(p.valueType)
      case ByCreatedAt => [p.createdAt]
      case ByUpdatedAt => [p.updatedAt];
    if dir == Asc then asc else (p: Parameter) => Ordering.Desc(asc(p))
  }

  datatype PageResult = PageResult(parameters: seq<Parameter>, total: nat, page: int, limit: int)

  function Matcher(w: Where): Parameter -> bool {
    (p: Parameter) => Satisfies(p, w)
  }

  /** The rows a query selects, in the order it asks for. */
  function Ordered(rows: seq<Parameter>, q: ListQuery): (r: seq<Parameter>)
    ensures multiset(r) == multiset(Filter(rows, Matcher(q.where)))
    ensures SortedBy(r, SortKeyOf(q.sortBy, q.sortOrder))
  {
    SortBy(Filter(rows, Matcher(q.where)), SortKeyOf(q.sortBy, q.sortOrder))
  }

  /** Running a listing query against the table. */
  function RunList(rows: seq<Parameter>, q: ListQuery): (res: PageResult)
    requires q.skip >= 0 && q.take >= 0
    ensures res.total == |Filter(rows, (p: Parameter) => Satisfies(p, q.where))|
    ensures var ordered := Ordered(rows, q);
      |res.parameters| == (if q.skip >= |ordered| then 0
                           else if |ordered| - q.skip < q.take then |ordered| - q.skip else q.take)
      && forall i :: 0 <= i < |res.parameters| ==> res.parameters[i] == ordered[q.skip + i]
    ensures res.page == q.page && res.limit == q.take
    ensures |res.parameters| <= q.take
    ensures forall p :: p in res.parameters ==> p in rows && Satisfies(p, q.where)
    ensures SortedBy(res.parameters, SortKeyOf(q.sortBy, q.sortOrder))
    ensures q.skip + q.take <= res.total ==> |res.parameters| == q.take
  {
    var matching := Filter(rows, Matcher(q.where));
    var ordered := SortBy(matching, SortKeyOf(q.sortBy, q.sortOrder));
    assert ordered == Ordered(rows, q);
    var window := Window(ordered, q.skip, q.take);
    WindowWithin(window, ordered, matching, q.skip);
    WindowSorted(window, ordered, q.skip, SortKeyOf(q.sortBy, q.sortOrder));
    PageResult(window, |matching|, q.page, q.take)
  }

  /** The next page starts where this one ends: two consecutive pages are one longer window. */
  lemma ConsecutivePages(rows: seq<Parameter>, q: ListQuery)
    requires q.skip >= 0 && q.take >= 0
    ensures RunList(rows, q).parameters + RunList(rows, q.(skip := q.skip + q.take)).parameters
         == Window(Ordered(rows, q), q.skip, 2 * q.take)
  {
    var next := q.(skip := q.skip + q.take);
    var o := Ordered(rows, q);
    assert Ordered(rows, next) == o;
    PageIsWindow(rows, q);
    PageIsWindow(rows, next);
    AdjacentWindows(o, q.skip, q.take);
  }

  lemma PageIsWindow(rows: seq<Parameter>, q: ListQuery)
    requires q.skip >= 0 && q.take >= 0
    ensures RunList(rows, q).parameters == Window(Ordered(rows, q), q.skip, q.take)
  {
    var page, w := RunList(rows, q).parameters, Window(Ordered(rows, q), q.skip, q.take);
    assert |page| == |w|;
    assert forall i :: 0 <= i < |w| ==> page[i] == w[i];
  }

  lemma AdjacentWindows(s: seq<Parameter>, skip: nat, take: nat)
    ensures Window(s, skip, take) + Window(s, skip + take, take) == Window(s, skip, 2 * take)
  {
    var a, b, w := Window(s, skip, take), Window(s, skip + take, take), Window(s, skip, 2 * take);
    assert |a + b| == |w|;
    forall i | 0 <= i < |w| ensures (a + b)[i] == w[i] {
      if i >= |a| {
        assert (a + b)[i] == b[i - |a|];
      }
    }
  }

  /** A window of a reordering holds only elements of the original. */
  lemma WindowWithin(window: seq<Parameter>, ordered: seq<Parameter>, original: seq<Parameter>, skip: nat)
    requires multiset(ordered) == multiset(original)
    requires forall i :: 0 <= i < |window| ==> skip + i < |ordered| && window[i] == ordered[skip + i]
    ensures forall p :: p in window ==> p in original
  {
    forall p | p in window ensures p in original {
      var i :| 0 <= i < |window| && window[i] == p;
      assert ordered[skip + i] == p;
      assert p in multiset(ordered);
    }
  }

  /** A window of a sorted list is sorted. */
  lemma WindowSorted(window: seq<Parameter>, ordered: seq<Parameter>, skip: nat, key: Parameter -> seq<int>)
    requires SortedBy(ordered, key)
    requires skip + |window| <= |ordered| || |window| == 0
    requires forall i :: 0 <= i < |window| ==> skip + i < |ordered| && window[i] == ordered[skip + i]
    ensures SortedBy(window, key)
  {
    forall i, j | 0 <= i < j < |window|
      ensures LexLe(key(window[i]), key(window[j]))
    {
      assert window[i] == ordered[skip + i] && window[j] == ordered[skip + j];
    }
  }

  // ---------------------------------------------------------------- public read and cache

  /** The cache key of a public read: the prefix, refined by the category when one is given. */
  function CacheKey(category: Option<string>): (k: string)
    ensures StartsWith(k, CachePrefix)
    ensures Truthy(category).None? ==> k == CachePrefix
    ensures Truthy(category).Some? ==> k == CachePrefix + ":" + category.value
  {
    if Truthy(category).Some? then CachePrefix + ":" + category.value else CachePrefix
  }

  predicate IsPublic(p: Parameter, category: Option<string>) {
    p.isActive && (Truthy(category).None? || p.category == category.value)
  }

  function KeyOrder(): Parameter -> seq<int> {
    (p: Parameter) => StringKey(p.key)
  }

  /** What a public read returns from the table: active rows of the category, by key. */
  function PublicRows(rows: seq<Parameter>, category: Option<string>): (r: seq<Parameter>)
    ensures forall p :: p in r <==> p in rows && IsPublic(p, category)
    ensures multiset(r) <= multiset(rows)
    ensures SortedBy(r, KeyOrder())
  {
    var active := Filter(rows, (p: Parameter) => IsPublic(p, category));
    var r := SortBy(active, KeyOrder());
    SameMembers(r, active);
    r
  }

  lemma SameMembers(a: seq<Parameter>, b: seq<Parameter>)
    requires multiset(a) == multiset(b)
    ensures forall p :: p in a <==> p in b
  {
    forall p ensures p in a <==> p in b {
      assert p in a <==> p in multiset(a);
      assert p in b <==> p in multiset(b);
    }
  }

  function ParameterJson(p: Parameter): Json {
    JObject([("id", JStr(p.id)), ("key", JStr(p.key)), ("value", p.value), ("type", JStr(p.valueType)),
             ("category", JStr(p.category)),
             ("description", match p.description case Some(d) => JStr(d) case None => JNull),
             ("isActive", JBool(p.isActive)), ("createdAt", JNum(p.createdAt)), ("updatedAt", JNum(p.updatedAt))])
  }

  function RowsJson(rows: seq<Parameter>): (j: Json)
    ensures j.JArray? && |j.items| == |rows|
    ensures forall i :: 0 <= i < |rows| ==> j.items[i] == ParameterJson(rows[i])
  {
    JArray(seq(|rows|, i requires 0 <= i < |rows| => ParameterJson(rows[i])))
  }

  /** The cached keys an invalidation removes. */
  function PrefixKeys(entries: map<string, Json>, prefix: string): set<string> {
    set k | k in entries && StartsWith(k, prefix)
  }

  lemma PrefixIsPlain()
    ensures AllPlain(CachePrefix)
  {
  }

  /**
   * After the invalidation every write performs, no public read can hit the
   * cache, whatever the category: the next read comes from the table.
   */
  lemma {:induction false} InvalidationForcesFreshReads(entries: map<string, Json>, category: Option<string>)
    ensures CacheKey(category) !in entries - PrefixKeys(entries, CachePrefix)
  {
    if CacheKey(category) in entries {
      assert CacheKey(category) in PrefixKeys(entries, CachePrefix);
    }
  }

  // ---------------------------------------------------------------- table writes

  /** The store's uniqueness rules: ids and keys. */
  predicate UniqueRows(rows: seq<Parameter>) {
    forall i, j :: 0 <= i < j < |rows| ==> rows[i].id != rows[j].id && rows[i].key != rows[j].key
  }

  predicate KeyTaken(rows: seq<Parameter>, key: string) {
    exists i :: 0 <= i < |rows| && rows[i].key == key
  }

  predicate IdTaken(rows: seq<Parameter>, id: string) {
    exists i :: 0 <= i < |rows| && rows[i].id == id
  }

  /** The row a selector names: `where: { id }` or `where: { key }`. */
  datatype Selector = ById(id: string) | ByKeyName(key: string)

  predicate Selects(sel: Selector, p: Parameter) {
    match sel
    case ById(id) => p.id == id
    case ByKeyName(k) => p.key == k
  }

  function Locate(rows: seq<Parameter>, sel: Selector): (r: Option<nat>)
    ensures r.Some? ==> r.value < |rows| && Selects(sel, rows[r.value])
    ensures r.None? ==> forall i :: 0 <= i < |rows| ==> !Selects(sel, rows[i])
    ensures r.Some? ==> forall i :: 0 <= i < r.value ==> !Selects(sel, rows[i])
  {
    if |rows| == 0 then None
    else if Selects(sel, rows[0]) then Some(0)
    else match Locate(rows[1..], sel)
         case None => None
         case Some(i) => Some(i + 1)
  }

  datatype ParamError =
    | KeyExists               // "Parameter with this key already exists"
    | NotFound                // "Parameter not found"
    | Invalid(message: string)
    | DuplicateId             // the store refused a colliding id

  datatype NewParameter = NewParameter(key: string, value: Json, valueType: string, category: string,
                                       description: Option<string>, isActive: Option<bool>)

  /** `createParameter`: the key is checked before the value. */
  function CreateStep(rows: seq<Parameter>, now: int, data: NewParameter, newId: string, isUrl: string -> bool)
    : (out: (Result<Parameter, ParamError>, seq<Parameter>))
    ensures KeyTaken(rows, data.key) ==> out == (Err(KeyExists), rows)
    ensures !KeyTaken(rows, data.key) && ValidateValueType(data.value, data.valueType, isUrl).Err? ==>
      out == (Err(Invalid(ValidateValueType(data.value, data.valueType, isUrl).error)), rows)
    ensures out.0.Err? ==> out.1 == rows
    ensures out.0.Ok? <==>
      !KeyTaken(rows, data.key) && ValidateValueType(data.value, data.valueType, isUrl).Ok? && !IdTaken(rows, newId)
    ensures out.0.Ok? ==>
      out.1 == rows + [out.0.value]
      && out.0.value == Parameter(newId, data.key, data.value, data.valueType, data.category, data.description,
                                  if data.isActive.Some? then data.isActive.value else true, now, now)
    ensures UniqueRows(rows) ==> UniqueRows(out.1)
  {
    if KeyTaken(rows, data.key) then (Err(KeyExists), rows)
    else
      match ValidateValueType(data.value, data.valueType, isUrl)
      case Err(m) => (Err(Invalid(m)), rows)
      case Ok(_) =>
        if IdTaken(rows, newId) then (Err(DuplicateId), rows)
        else
          var row := Parameter(newId, data.key, data.value, data.valueType, data.category, data.description,
                               if data.isActive.Some? then data.isActive.value else true, now, now);
          (Ok(row), rows + [row])
  }

  /** The fields an update may carry; absent fields are left alone. */
  datatype Patch = Patch(value: Option<Json>, valueType: Option<string>, category: Option<string>,
                         description: Option<string>, isActive: Option<bool>)

  function ApplyPatch(p: Parameter, patch: Patch, now: int): (q: Parameter)
    ensures q.id == p.id && q.key == p.key && q.createdAt == p.createdAt && q.updatedAt == now
    ensures q.value == (if patch.value.Some? then patch.value.value else p.value)
    ensures q.valueType == (if patch.valueType.Some? then patch.valueType.value else p.valueType)
    ensures q.category == (if patch.category.Some? then patch.category.value else p.category)
    ensures q.description == (if patch.description.Some? then patch.description else p.description)
    ensures q.isActive == (if patch.isActive.Some? then patch.isActive.value else p.isActive)
  {
    p.(value := if patch.value.Some? then patch.value.value else p.value,
       valueType := if patch.valueType.Some? then patch.valueType.value else p.valueType,
       category := if patch.category.Some? then patch.category.value else p.category,
       description := if patch.description.Some? then patch.description else p.description,
       isActive := if patch.isActive.Some? then patch.isActive.value else p.isActive,
       updatedAt := now)
  }

  /** The type a supplied value is checked against: the new type if one is given, else the stored one. */
  function FinalType(p: Parameter, patch: Patch): string {
    if Truthy(patch.valueType).Some? then patch.valueType.value else p.valueType
  }

  /** `updateParameterById` and `updateParameterByKey`. */
  function UpdateStep(rows: seq<Parameter>, now: int, sel: Selector, patch: Patch, isUrl: string -> bool)
    : (out: (Result<Parameter, ParamError>, seq<Parameter>))
    ensures Locate(rows, sel).None? ==> out == (Err(NotFound), rows)
    ensures out.0.Err? ==> out.1 == rows
    ensures Locate(rows, sel).Some? && patch.value.None? ==> out.0.Ok?
    ensures Locate(rows, sel).Some? && patch.value.Some? ==>
      var i := Locate(rows, sel).value;
      (out.0.Ok? <==> ValidateValueType(patch.value.value, FinalType(rows[i], patch), isUrl).Ok?)
    ensures out.0.Ok? ==>
      var i := Locate(rows, sel).value;
      out.0.value == ApplyPatch(rows[i], patch, now) && out.1 == rows[i := out.0.value]
    ensures UniqueRows(rows) ==> UniqueRows(out.1)
  {
    match Locate(rows, sel)
    case None => (Err(NotFound), rows)
    case Some(i) =>
      var existing := rows[i];
      if patch.value.Some? && ValidateValueType(patch.value.value, FinalType(existing, patch), isUrl).Err? then
        (Err(Invalid(ValidateValueType(patch.value.value, FinalType(existing, patch), isUrl).error)), rows)
      else
        var updated := ApplyPatch(existing, patch, now);
        (Ok(updated), rows[i := updated])
  }

  /** `deleteParameter`: exactly the selected row goes. */
  function DeleteStep(rows: seq<Parameter>, id: string): (out: (Result<(), ParamError>, seq<Parameter>))
    ensures Locate(rows, ById(id)).None? <==> out == (Err(NotFound), rows)
    ensures out.0.Ok? ==>
      var i := Locate(rows, ById(id)).value;
      out.1 == rows[..i] + rows[i + 1..]
    ensures UniqueRows(rows) && out.0.Ok? ==> forall p :: p in out.1 <==> p in rows && p.id != id
  {
    match Locate(rows, ById(id))
    case None => (Err(NotFound), rows)
    case Some(i) =>
      var after := rows[..i] + rows[i + 1..];
      assert forall j :: 0 <= j < |after| ==> after[j] == if j < i then rows[j] else rows[j + 1];
      (Ok(()), after)
  }

  /** The parameter table. */
  class ParameterStore {
    var rows: seq<Parameter>
    var clock: int

    ghost predicate Valid()
      reads this
    {
      UniqueRows(rows)
    }

    constructor ()
      ensures Valid() && rows == [] && clock == 0
    {
      rows := [];
      clock := 0;
    }
  }

  /** `ParameterService`; the cache is optional. */
  class ParameterService {
    const store: ParameterStore
    const cache: Option<RedisStore>
    const isUrl: string -> bool

    constructor (store: ParameterStore, cache: Option<RedisStore>, isUrl: string -> bool)
      ensures this.store == store && this.cache == cache && this.isUrl == isUrl
    {
      this.store := store;
      this.cache := cache;
      this.isUrl := isUrl;
    }

    function CacheFrame(): set<object> {
      if cache.Some? then {cache.value} else {}
    }

    /** `invalidateCache`: every key under the public prefix goes. */
    method InvalidateCache()
      modifies CacheFrame()
      ensures cache.Some? ==>
        cache.value.entries == old(cache.value.entries) - PrefixKeys(old(cache.value.entries), CachePrefix)
    {
      if cache.None? {
        return;
      }
      var redis := cache.value;
      var keys := redis.Keys(CachePrefix + "*");
      PrefixIsPlain();
      forall k ensures k in keys <==> k in PrefixKeys(redis.entries, CachePrefix) {
        PrefixPattern(CachePrefix, k);
      }
      if |keys| > 0 {
        var _ := redis.Del(keys);
      } else {
        assert PrefixKeys(redis.entries, CachePrefix) == {};
        assert redis.entries - {} == redis.entries;
      }
    }

    /** `listParameters`. */
    method ListParameters(opts: ListOptions) returns (res: PageResult)
      requires opts.page.None? || opts.page.value >= 1
      requires opts.limit.None? || 1 <= opts.limit.value <= 100
      ensures res == RunList(store.rows, QueryOf(opts))
      ensures res.page == (if opts.page.Some? then opts.page.value else 1)
      ensures res.limit == (if opts.limit.Some? then opts.limit.value else 20)
    {
      var q := BuildListQuery(opts);
      res := RunList(store.rows, q);
    }

    /** `getPublicParameters`: the cached answer when there is one, else the table's, then cached. */
    method GetPublicParameters(category: Option<string>) returns (r: Json)
      modifies CacheFrame()
      ensures cache.Some? && CacheKey(category) in old(cache.value.entries) ==>
        r == old(cache.value.entries)[CacheKey(category)] && cache.value.entries == old(cache.value.entries)
      ensures cache.None? || CacheKey(category) !in old(cache.value.entries) ==>
        r == RowsJson(PublicRows(store.rows, category))
      ensures cache.Some? && CacheKey(category) !in old(cache.value.entries) ==>
        cache.value.entries == old(cache.value.entries)[CacheKey(category) := r]
    {
      var key := CacheKey(category);
      if cache.Some? {
        var hit := cache.value.Get(key);
        if hit.Some? {
          return hit.value;
        }
      }
      r := RowsJson(PublicRows(store.rows, category));
      if cache.Some? {
        cache.value.SetEx(key, CacheTtl, r);
      }
    }

    /** `createParameter`. */
    method CreateParameter(data: NewParameter, newId: string) returns (r: Result<Parameter, ParamError>)
      requires store.Valid()
      modifies store, CacheFrame()
      ensures store.Valid()
      ensures (r, store.rows) == CreateStep(old(store.rows), old(store.clock), data, newId, isUrl)
      ensures store.clock == old(store.clock) + (if r.Ok? then 1 else 0)
      ensures cache.Some? && r.Ok? ==>
        cache.value.entries == old(cache.value.entries) - PrefixKeys(old(cache.value.entries), CachePrefix)
      ensures cache.Some? && r.Err? ==> cache.value.entries == old(cache.value.entries)
    {
      var step := CreateStep(store.rows, store.clock, data, newId, isUrl);
      if step.0.Err? {
        return step.0;
      }
      store.rows := step.1;
      store.clock := store.clock + 1;
      InvalidateCache();
      r := step.0;
    }

    /** `updateParameterById` (`ById`) and `updateParameterByKey` (`ByKeyName`). */
    method UpdateParameter(sel: Selector, patch: Patch) returns (r: Result<Parameter, ParamError>)
      requires store.Valid()
      modifies store, CacheFrame()
      ensures store.Valid()
      ensures (r, store.rows) == UpdateStep(old(store.rows), old(store.clock), sel, patch, isUrl)
      ensures store.clock == old(store.clock) + (if r.Ok? then 1 else 0)
      ensures cache.Some? && r.Ok? ==>
        cache.value.entries == old(cache.value.entries) - PrefixKeys(old(cache.value.entries), CachePrefix)
      ensures cache.Some? && r.Err? ==> cache.value.entries == old(cache.value.entries)
    {
      var step := UpdateStep(store.rows, store.clock, sel, patch, isUrl);
      if step.0.Err? {
        return step.0;
      }
      store.rows := step.1;
      store.clock := store.clock + 1;
      InvalidateCache();
      r := step.0;
    }

    /** `deleteParameter`. */
    method DeleteParameter(id: string) returns (r: Result<(), ParamError>)
      requires store.Valid()
      modifies store, CacheFrame()
      ensures store.Valid()
      ensures (r, store.rows) == DeleteStep(old(store.rows), id)
      ensures store.clock == old(store.clock)
      ensures cache.Some? && r.Ok? ==>
        cache.value.entries == old(cache.value.entries) - PrefixKeys(old(cache.value.entries), CachePrefix)
      ensures cache.Some? && r.Err? ==> cache.value.entries == old(cache.value.entries)
    {
      var step := DeleteStep(store.rows, id);
      if step.0.Err? {
        return step.0;
      }
      DeleteKeepsUnique(store.rows, Locate(store.rows, ById(id)).value);
      store.rows := step.1;
      InvalidateCache();
      r := step.0;
    }
  }

  lemma DeleteKeepsUnique(rows: seq<Parameter>, i: nat)
    requires UniqueRows(rows) && i < |rows|
    ensures UniqueRows(rows[..i] + rows[i + 1..])
  {
    var after := rows[..i] + rows[i + 1..];
    assert forall j :: 0 <= j < |after| ==> after[j] == if j < i then rows[j] else rows[j + 1];
  }
}
