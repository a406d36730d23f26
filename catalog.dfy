/**
 * The shape the barber and gallery tables share: rows with a unique id, an
 * integer `sortOrder` set by the administrators, an `isActive` flag and a
 * creation time, listed by `sortOrder` and then by creation time, and
 * reordered by a batch of `{ id, sortOrder }` updates applied in one
 * transaction.
 */
module Catalog {
  import opened Common
  import opened Ordering

  datatype Row<D> = Row(id: string, sortOrder: int, isActive: bool, createdAt: int, data: D)

  predicate UniqueIds<D>(rows: seq<Row<D>>) {
    forall i, j :: 0 <= i < j < |rows| ==> rows[i].id != rows[j].id
  }

  predicate HasId<D>(rows: seq<Row<D>>, id: string) {
    exists i :: 0 <= i < |rows| && rows[i].id == id
  }

  /** `findUnique({ where: { id } })`, as a position. */
  function Find<D>(rows: seq<Row<D>>, id: string): (r: Option<nat>)
    ensures r.Some? ==> r.value < |rows| && rows[r.value].id == id
    ensures r.None? <==> !HasId(rows, id)
  {
    if |rows| == 0 then None
    else if rows[0].id == id then Some(0)
    else match Find(rows[1..], id)
         case None => None
         case Some(i) => Some(i + 1)
  }

  /** With unique ids, the position of an id is the only one holding it. */
  lemma FindUnique<D>(rows: seq<Row<D>>, id: string, i: nat)
    requires UniqueIds(rows) && i < |rows| && rows[i].id == id
    ensures Find(rows, id) == Some(i)
  {
  }

  function MaxSortOrder<D>(rows: seq<Row<D>>): (m: int)
    requires |rows| > 0
    ensures forall i :: 0 <= i < |rows| ==> rows[i].sortOrder <= m
    ensures exists i :: 0 <= i < |rows| && rows[i].sortOrder == m
  {
    if |rows| == 1 then rows[0].sortOrder
    else
      var m := MaxSortOrder(rows[1..]);
      assert forall i :: 1 <= i < |rows| ==> rows[i] == rows[1..][i - 1];
      if rows[0].sortOrder >= m then rows[0].sortOrder else m
  }

  /** The sortOrder a new row gets: one above the highest, or 0 for an empty table. */
  function NextSortOrder<D>(rows: seq<Row<D>>): (n: int)
    ensures |rows| == 0 ==> n == 0
    ensures forall i :: 0 <= i < |rows| ==> rows[i].sortOrder < n
    ensures |rows| > 0 ==> exists i :: 0 <= i < |rows| && rows[i].sortOrder == n - 1
  {
    if |rows| == 0 then 0 else MaxSortOrder(rows) + 1
  }

  /** Listing order: `sortOrder` ascending, then `createdAt` ascending or, with `newestFirst`, descending. */
  function OrderKey<D>(newestFirst: bool): Row<D> -> seq<int> {
    (r: Row<D>) => [r.sortOrder, if newestFirst then -r.createdAt else r.createdAt]
  }

  /** What the listing key means, compared pairwise. */
  lemma OrderKeyMeaning<D>(newestFirst: bool, a: Row<D>, b: Row<D>)
    ensures LexLe(OrderKey(newestFirst)(a), OrderKey(newestFirst)(b)) <==>
      a.sortOrder < b.sortOrder
      || (a.sortOrder == b.sortOrder && (if newestFirst then a.createdAt >= b.createdAt else a.createdAt <= b.createdAt))
  {
    var ka, kb := OrderKey(newestFirst)(a), OrderKey(newestFirst)(b);
    assert LexLe(ka[1..][1..], kb[1..][1..]);
    assert LexLe(ka[1..], kb[1..]) <==> ka[1] <= kb[1];
  }

  function ActiveFilter<D>(active: Option<bool>): Row<D> -> bool {
    (r: Row<D>) => active.None? || r.isActive == active.value
  }

  /** `findMany({ where, orderBy })`: the rows passing the optional `isActive` filter, in listing order. */
  function ListRows<D(!new)>(rows: seq<Row<D>>, active: Option<bool>, newestFirst: bool): (r: seq<Row<D>>)
    ensures forall x :: x in r <==> x in rows && (active.None? || x.isActive == active.value)
    ensures multiset(r) <= multiset(rows)
    ensures SortedBy(r, OrderKey(newestFirst))
  {
    var kept := Filter(rows, ActiveFilter(active));
    var r := SortBy(kept, OrderKey(newestFirst));
    forall x ensures x in r <==> x in kept {
      assert x in r <==> x in multiset(r);
      assert x in kept <==> x in multiset(kept);
    }
    r
  }

  /** `delete({ where: { id } })` on the row at `i`. */
  function RemoveAt<D(!new)>(rows: seq<Row<D>>, i: nat): (r: seq<Row<D>>)
    requires i < |rows|
    ensures |r| == |rows| - 1
    ensures forall j :: 0 <= j < |r| ==> r[j] == if j < i then rows[j] else rows[j + 1]
    ensures UniqueIds(rows) ==> UniqueIds(r) && !HasId(r, rows[i].id)
    ensures UniqueIds(rows) ==> forall x :: x in r <==> x in rows && x.id != rows[i].id
  {
    var r := rows[..i] + rows[i + 1..];
    assert forall j :: 0 <= j < |r| ==> r[j] == if j < i then rows[j] else rows[j + 1];
    r
  }

  /** One `update({ where: { id }, data: { sortOrder } })`. */
  function SetSortOrder<D>(rows: seq<Row<D>>, id: string, sortOrder: int): (r: seq<Row<D>>)
    ensures |r| == |rows|
    ensures forall i :: 0 <= i < |rows| ==>
      r[i] == if rows[i].id == id then rows[i].(sortOrder := sortOrder) else rows[i]
  {
    seq(|rows|, i requires 0 <= i < |rows| => if rows[i].id == id then rows[i].(sortOrder := sortOrder) else rows[i])
  }

  /** The batch applied in order. */
  function ApplyOrders<D>(rows: seq<Row<D>>, updates: seq<(string, int)>): (r: seq<Row<D>>)
    ensures |r| == |rows|
    decreases |updates|
  {
    if |updates| == 0 then rows
    else
      var last := updates[|updates| - 1];
      SetSortOrder(ApplyOrders(rows, updates[..|updates| - 1]), last.0, last.1)
  }

  /** The sortOrder the last update naming `id` assigns, if any names it. */
  function LastOrder(updates: seq<(string, int)>, id: string): (r: Option<int>)
    ensures r.None? <==> forall k :: 0 <= k < |updates| ==> updates[k].0 != id
    ensures r.Some? ==> exists k :: 0 <= k < |updates| && updates[k] == (id, r.value)
                                  && forall m :: k < m < |updates| ==> updates[m].0 != id
  {
    if |updates| == 0 then None
    else if updates[|updates| - 1].0 == id then Some(updates[|updates| - 1].1)
    else
      var r := LastOrder(updates[..|updates| - 1], id);
      assert forall k :: 0 <= k < |updates| - 1 ==> updates[..|updates| - 1][k] == updates[k];
      r
  }

  /**
   * The batch, whatever its repeats, is the same as giving each row the
   * sortOrder of the last update that names it; rows no update names, and
   * every other field, stay as they were.
   */
  lemma {:induction false} ApplyOrdersLastWins<D>(rows: seq<Row<D>>, updates: seq<(string, int)>)
    ensures forall i :: 0 <= i < |rows| ==>
      ApplyOrders(rows, updates)[i] ==
        match LastOrder(updates, rows[i].id)
        case Some(so) => rows[i].(sortOrder := so)
        case None => rows[i]
    decreases |updates|
  {
    if |updates| > 0 {
      var init := updates[..|updates| - 1];
      ApplyOrdersLastWins(rows, init);
      var before := ApplyOrders(rows, init);
      forall i | 0 <= i < |rows|
        ensures ApplyOrders(rows, updates)[i] ==
          match LastOrder(updates, rows[i].id)
          case Some(so) => rows[i].(sortOrder := so)
          case None => rows[i]
      {
        assert before[i].id == rows[i].id;
      }
    }
  }

  /** With no repeated ids, every listed row gets exactly the sortOrder listed for it. */
  lemma DistinctUpdatesAssign<D>(rows: seq<Row<D>>, updates: seq<(string, int)>, i: nat, k: nat)
    requires i < |rows| && k < |updates| && updates[k].0 == rows[i].id
    requires forall a, b :: 0 <= a < b < |updates| ==> updates[a].0 != updates[b].0
    ensures ApplyOrders(rows, updates)[i] == rows[i].(sortOrder := updates[k].1)
  {
    ApplyOrdersLastWins(rows, updates);
  }

  /** A reorder keeps the ids, and with them their uniqueness. */
  lemma ApplyOrdersKeepsIds<D>(rows: seq<Row<D>>, updates: seq<(string, int)>)
    ensures forall i :: 0 <= i < |rows| ==> ApplyOrders(rows, updates)[i].id == rows[i].id
    ensures UniqueIds(rows) ==> UniqueIds(ApplyOrders(rows, updates))
  {
    ApplyOrdersLastWins(rows, updates);
  }

  function Ids(updates: seq<(string, int)>): (ids: seq<string>)
    ensures |ids| == |updates| && forall k :: 0 <= k < |updates| ==> ids[k] == updates[k].0
  {
    seq(|updates|, k requires 0 <= k < |updates| => updates[k].0)
  }

  predicate AllDistinct(ids: seq<string>) {
    forall a, b :: 0 <= a < b < |ids| ==> ids[a] != ids[b]
  }

  /** `findMany({ where: { id: { in: ids } } }).length`: each stored id counted once. */
  function FoundCount<D>(rows: seq<Row<D>>, ids: seq<string>): nat {
    |set id | id in ids && HasId(rows, id)|
  }

  /** The ids found after appending one: one more exactly when it is new and stored. */
  lemma FoundAppend<D>(rows: seq<Row<D>>, init: seq<string>, last: string)
    ensures var found, foundInit := (set id | id in init + [last] && HasId(rows, id)), (set id | id in init && HasId(rows, id));
      (last !in init && HasId(rows, last) ==> found == foundInit + {last} && last !in foundInit)
      && (!(last !in init && HasId(rows, last)) ==> found == foundInit)
  {
  }

  lemma DistinctAppend(init: seq<string>, last: string)
    ensures AllDistinct(init + [last]) <==> AllDistinct(init) && last !in init
  {
    var ids := init + [last];
    if AllDistinct(ids) {
      forall a, b | 0 <= a < b < |init| ensures init[a] != init[b] {
        assert init[a] == ids[a] && init[b] == ids[b];
      }
      forall a | 0 <= a < |init| ensures init[a] != last {
        assert ids[a] == init[a] && ids[|init|] == last;
      }
    }
  }

  /**
   * The count of rows found for a list of ids equals the list's length
   * exactly when the ids are distinct and all stored.
   */
  lemma {:induction false} FoundCountMatches<D>(rows: seq<Row<D>>, ids: seq<string>)
    ensures FoundCount(rows, ids) == |ids| <==> AllDistinct(ids) && forall id :: id in ids ==> HasId(rows, id)
    ensures FoundCount(rows, ids) <= |ids|
    decreases |ids|
  {
    if |ids| > 0 {
      var init, last := ids[..|ids| - 1], ids[|ids| - 1];
      assert ids == init + [last];
      FoundCountMatches(rows, init);
      FoundAppend(rows, init, last);
      DistinctAppend(init, last);
      assert forall id :: id in ids <==> id in init || id == last;
    }
  }

  /** A table of rows carrying `D`; `clock` stands for the creation timestamps it hands out. */
  class Table<D> {
    var rows: seq<Row<D>>
    var clock: int

    ghost predicate Valid()
      reads this
    {
      UniqueIds(rows)
    }

    constructor ()
      ensures Valid() && rows == [] && clock == 0
    {
      rows := [];
      clock := 0;
    }

    /** A `$transaction` of sortOrder updates: all are applied, in order, or none. */
    method ApplyBatch(updates: seq<(string, int)>)
      requires Valid()
      modifies this
      ensures Valid()
      ensures rows == ApplyOrders(old(rows), updates) && clock == old(clock)
    {
      var next := rows;
      for k := 0 to |updates|
        invariant next == ApplyOrders(rows, updates[..k])
      {
        assert updates[..k + 1][..k] == updates[..k];
        next := SetSortOrder(next, updates[k].0, updates[k].1);
      }
      assert updates[..|updates|] == updates;
      ApplyOrdersKeepsIds(rows, updates);
      rows := next;
    }
  }
}
