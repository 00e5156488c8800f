/** The query-builder pager: its query, its cursor, and what a one-to-many join does to them. */
module KeysetPagination {
  import opened Wrappers
  import opened Keyset

  /** A stored row: when it was created, and how many rows a joined relation has for it. */
  datatype Stored = Stored(createdAt: int, joined: nat)

  /** One row of the result set: whose it is, and the selected text of its created_at, microseconds kept. */
  datatype RawRow = RawRow(owner: Key, cursorCreatedAt: Option<int>)

  datatype Query = Query(limit: Option<nat>, cursor: Option<Key>)

  /** What Date.toISOString keeps of a timestamp. */
  function Millis(t: int): int {
    t - t % 1000
  }

  type Table = map<nat, Stored>

  function KeysOf(table: Table): set<Key> {
    set id | id in table :: Key(table[id].createdAt, id)
  }

  predicate Stands(table: Table, k: Key) {
    k.id in table && table[k.id].createdAt == k.createdAt
  }

  /** A left join gives a row as many result rows as it has joined ones, and one if it has none. */
  function FanOut(table: Table, k: Key): (n: nat)
    requires k.id in table
    ensures n >= 1
  {
    if table[k.id].joined == 0 then 1 else table[k.id].joined
  }

  function Repeat<T>(x: T, n: nat): (r: seq<T>)
    ensures |r| == n && forall i :: 0 <= i < n ==> r[i] == x
  {
    if n == 0 then [] else [x] + Repeat(x, n - 1)
  }

  predicate AllStored(table: Table, entities: seq<Key>) {
    forall k :: k in entities ==> k.id in table
  }

  /** The result rows, entity after entity. */
  function RawRows(table: Table, entities: seq<Key>, selectsCursor: bool): seq<RawRow>
    requires AllStored(table, entities)
  {
    if entities == [] then [] else
    var last := entities[|entities| - 1];
    RawRows(table, entities[..|entities| - 1], selectsCursor)
    + Repeat(RawRow(last, if selectsCursor then Some(last.createdAt) else None), FanOut(table, last))
  }

  lemma RawRowsGrow(table: Table, entities: seq<Key>, k: Key, selectsCursor: bool)
    requires AllStored(table, entities) && k.id in table
    ensures AllStored(table, entities + [k])
    ensures RawRows(table, entities + [k], selectsCursor)
         == RawRows(table, entities, selectsCursor)
            + Repeat(RawRow(k, if selectsCursor then Some(k.createdAt) else None), FanOut(table, k))
  {
    assert (entities + [k])[..|entities + [k]| - 1] == entities;
  }

  /** What one turn of the fetch leaves. */
  lemma OneMoreFetched(table: Table, all: seq<Key>, entities: seq<Key>, left: set<Key>, top: Key, selectsCursor: bool)
    requires left <= KeysOf(table) && top in left && AllStored(table, entities)
    requires all == entities + Listing(left) && Listing(left) == [top] + Listing(left - {top})
    ensures top.id in table && AllStored(table, entities + [top]) && all == (entities + [top]) + Listing(left - {top})
    ensures RawRows(table, entities + [top], selectsCursor)
         == RawRows(table, entities, selectsCursor)
            + Repeat(RawRow(top, if selectsCursor then Some(top.createdAt) else None), FanOut(table, top))
  {
    RawRowsGrow(table, entities, top, selectsCursor);
  }

  lemma FetchEnds(all: seq<Key>, entities: seq<Key>, left: set<Key>, limit: Option<nat>)
    requires all == entities + Listing(left) && (limit.Some? ==> |entities| <= limit.value)
    requires left == {} || (limit.Some? && |entities| == limit.value)
    ensures entities == if limit.Some? then Prefix(all, limit.value) else all
  {
    ListingLists(left);
  }

  // ---- the query builder ----------------------------------------------------------------------

  class SelectQueryBuilder {
    const table: Table

    var selectsCursor: bool
    var below: Option<Key>
    var limit: Option<nat>

    constructor (table: Table)
      ensures this.table == table && Plain()
    {
      this.table := table;
      selectsCursor, below, limit := false, None, None;
    }

    predicate Plain()
      reads this
    {
      !selectsCursor && below == None && limit == None
    }

    method AddSelect()
      modifies this
      ensures selectsCursor && below == old(below) && limit == old(limit)
    {
      selectsCursor := true;
    }

    method AndWhereBelow(cursor: Key)
      modifies this
      ensures below == Some(cursor) && selectsCursor == old(selectsCursor) && limit == old(limit)
    {
      below := Some(cursor);
    }

    method Take(n: nat)
      modifies this
      ensures limit == Some(n) && selectsCursor == old(selectsCursor) && below == old(below)
    {
      limit := Some(n);
    }

    /** The first rows in descending order that meet the conditions, and their result rows. */
    method GetRawAndEntities() returns (entities: seq<Key>, raw: seq<RawRow>)
      ensures var all := Listing(Below(KeysOf(table), below));
        entities == if limit.Some? then Prefix(all, limit.value) else all
      ensures AllStored(table, entities) && raw == RawRows(table, entities, selectsCursor)
    {
      var left := Below(KeysOf(table), below);
      ghost var all := Listing(left);
      entities, raw := [], [];
      while left != {} && (limit.None? || |entities| < limit.value)
        invariant left <= KeysOf(table) && all == entities + Listing(left)
        invariant limit.Some? ==> |entities| <= limit.value
        invariant AllStored(table, entities) && raw == RawRows(table, entities, selectsCursor)
        decreases left
      {
        var top := Highest(left);
        OneMoreFetched(table, all, entities, left, top, selectsCursor);
        raw := raw + Repeat(RawRow(top, if selectsCursor then Some(top.createdAt) else None), FanOut(table, top));
        entities, left := entities + [top], left - {top};
      }
      FetchEnds(all, entities, left, limit);
    }
  }

  method Highest(keys: set<Key>) returns (top: Key)
    requires keys != {}
    ensures IsTop(keys, top) && Listing(keys) == [top] + Listing(keys - {top})
  {
    HasTop(keys);
    top :| top in keys && forall k :: k in keys ==> k == top || Above(top, k);
    TopComesFirst(keys, top);
  }

  lemma TopComesFirst(keys: set<Key>, top: Key)
    requires IsTop(keys, top)
    ensures Listing(keys) == [top] + Listing(keys - {top})
  {
    ListingLists(keys);
    ListingLists(keys - {top});
    ListsOnTop(top, Listing(keys - {top}), keys);
    ListsUnique(Listing(keys), [top] + Listing(keys - {top}), keys);
  }

  // ---- the pager ------------------------------------------------------------------------------

  /** The rows the pager asks for: one more than a page. */
  ghost function Fetched(table: Table, cursor: Option<Key>, limit: nat): (entities: seq<Key>)
    ensures AllStored(table, entities)
  {
    var all := Listing(Below(KeysOf(table), cursor));
    ListingLists(Below(KeysOf(table), cursor));
    assert forall k :: k in Prefix(all, limit + 1) ==> k in all;
    Prefix(all, limit + 1)
  }

  /** What the pager returns for a table, joins and all: the cursor is the last item's id with the last
      result row's created_at. */
  ghost function JoinedPageOf(table: Table, cursor: Option<Key>, limit: nat): Page {
    var entities := Fetched(table, cursor, limit);
    var raw := RawRows(table, entities, true);
    RawRowsCover(table, entities);
    var page := PageOf(KeysOf(table), cursor, limit);
    var pageRaw := if page.hasNext then raw[..limit] else raw;
    if page.items == [] then page
    else page.(nextCursor := Some(Key(pageRaw[|pageRaw| - 1].owner.createdAt, page.items[|page.items| - 1].id)))
  }

  /** Every entity has at least one result row, and the selected text is its owner's created_at. */
  lemma {:induction false} RawRowsCover(table: Table, entities: seq<Key>)
    requires AllStored(table, entities)
    ensures |RawRows(table, entities, true)| >= |entities|
    ensures forall i :: 0 <= i < |RawRows(table, entities, true)| ==>
      var row := RawRows(table, entities, true)[i]; row.cursorCreatedAt == Some(row.owner.createdAt)
  {
    if entities != [] {
      RawRowsCover(table, entities[..|entities| - 1]);
    }
  }

  /** From what the query returned to the page: slices, and the cursor out of the last item and row. */
  function PageFrom(entities: seq<Key>, raw: seq<RawRow>, limit: nat): Page
    requires |raw| >= |entities|
  {
    var hasNext := |entities| > limit;
    var pageItems := if hasNext then entities[..limit] else entities;
    var pageRaw := if hasNext then raw[..limit] else raw;
    Page(pageItems, hasNext,
         if pageItems == [] then None else
         var lastItem, lastRaw := pageItems[|pageItems| - 1], pageRaw[|pageRaw| - 1];
         Some(Key(if lastRaw.cursorCreatedAt.Some? then lastRaw.cursorCreatedAt.value
                  else Millis(lastItem.createdAt), lastItem.id)))
  }

  lemma PageFromFetched(table: Table, cursor: Option<Key>, limit: nat)
    ensures var entities := Fetched(table, cursor, limit);
      && |RawRows(table, entities, true)| >= |entities|
      && PageFrom(entities, RawRows(table, entities, true), limit) == JoinedPageOf(table, cursor, limit)
  {
    RawRowsCover(table, Fetched(table, cursor, limit));
  }

  method PaginateQueryBuilderByCursor(qb: SelectQueryBuilder, query: Query) returns (page: Page)
    requires qb.Plain()
    modifies qb
    ensures page == JoinedPageOf(qb.table, query.cursor, if query.limit.Some? then query.limit.value else 10)
  {
    var limit := if query.limit.Some? then query.limit.value else 10;
    qb.AddSelect();
    if query.cursor.Some? {
      qb.AndWhereBelow(query.cursor.value);
    }
    qb.Take(limit + 1);
    PageFromFetched(qb.table, query.cursor, limit);
    var entities, raw := qb.GetRawAndEntities();
    page := PageFrom(entities, raw, limit);
  }

  // ---- one row per entity, and more -----------------------------------------------------------

  /** The first `n` entities have one result row each. */
  predicate OneRowEach(table: Table, entities: seq<Key>, n: nat)
    requires AllStored(table, entities)
  {
    forall i :: 0 <= i < n && i < |entities| ==> FanOut(table, entities[i]) == 1
  }

  /** Result row `n` belongs to entity `n` exactly when all the entities before it have one row each. */
  lemma {:induction false} RowsLineUp(table: Table, entities: seq<Key>, n: nat)
    requires AllStored(table, entities) && Descending(entities) && n < |entities|
    ensures n < |RawRows(table, entities, true)|
    ensures RawRows(table, entities, true)[n].owner == entities[n] <==> OneRowEach(table, entities, n)
    ensures OneRowEach(table, entities, n) ==> |RawRows(table, entities[..n], true)| == n
  {
    RawRowsCover(table, entities[..n]);
    RawRowsPrefix(table, entities, n);
    var front := RawRows(table, entities[..n], true);
    assert entities[..n + 1] == entities[..n] + [entities[n]];
    RawRowsGrow(table, entities[..n], entities[n], true);
    RawRowsPrefix(table, entities, n + 1);
    RowCount(table, entities[..n]);
    if |front| > n {
      OwnersBefore(table, entities, n);
    }
  }

  lemma {:induction false} RawRowsPrefix(table: Table, entities: seq<Key>, n: nat)
    requires AllStored(table, entities) && n <= |entities|
    ensures RawRows(table, entities[..n], true) <= RawRows(table, entities, true)
    decreases |entities|
  {
    if n == |entities| {
      assert entities[..n] == entities;
    } else {
      RawRowsPrefix(table, entities[..|entities| - 1], n);
      assert entities[..|entities| - 1][..n] == entities[..n];
    }
  }

  lemma {:induction false} RowCount(table: Table, entities: seq<Key>)
    requires AllStored(table, entities)
    ensures |RawRows(table, entities, true)| >= |entities|
    ensures |RawRows(table, entities, true)| == |entities| <==> OneRowEach(table, entities, |entities|)
  {
    if entities != [] {
      var front := entities[..|entities| - 1];
      RowCount(table, front);
      assert forall i :: 0 <= i < |front| ==> entities[i] == front[i];
    }
  }

  lemma {:induction false} OwnersAmong(table: Table, entities: seq<Key>, i: nat)
    requires AllStored(table, entities) && i < |RawRows(table, entities, true)|
    ensures RawRows(table, entities, true)[i].owner in entities
  {
    var front := entities[..|entities| - 1];
    if i < |RawRows(table, front, true)| {
      OwnersAmong(table, front, i);
    }
  }

  lemma OwnersBefore(table: Table, entities: seq<Key>, n: nat)
    requires AllStored(table, entities) && Descending(entities) && n < |entities|
    requires |RawRows(table, entities[..n], true)| > n
    ensures n < |RawRows(table, entities, true)|
    ensures RawRows(table, entities, true)[n].owner != entities[n]
  {
    RawRowsPrefix(table, entities, n);
    OwnersAmong(table, entities[..n], n);
    assert RawRows(table, entities, true)[n] == RawRows(table, entities[..n], true)[n];
    var i :| 0 <= i < n && entities[..n][i] == RawRows(table, entities, true)[n].owner;
    assert Above(entities[i], entities[n]);
  }

  predicate TimesDiffer(entities: seq<Key>) {
    forall i, j :: 0 <= i < j < |entities| ==> entities[i].createdAt != entities[j].createdAt
  }

  lemma FetchedIs(table: Table, cursor: Option<Key>, limit: nat)
    ensures var page, entities := PageOf(KeysOf(table), cursor, limit), Fetched(table, cursor, limit);
      && Descending(entities) && page.items == Prefix(entities, limit)
      && (page.hasNext <==> |entities| > limit)
  {
    ListingLists(Below(KeysOf(table), cursor));
  }

  lemma LastIsOldest(entities: seq<Key>, n: nat, k: Key)
    requires Descending(entities) && 1 <= n <= |entities| && k in entities[..n]
    ensures k.createdAt >= entities[n - 1].createdAt
    ensures TimesDiffer(entities) && k != entities[n - 1] ==> k.createdAt > entities[n - 1].createdAt
  {
    var i :| 0 <= i < n && entities[..n][i] == k;
    assert i < n - 1 ==> Above(entities[i], entities[n - 1]);
  }

  /** The result row that stands where a page of `n` ends: whose it is, and how old that one is. */
  lemma RowAtPageEnd(table: Table, entities: seq<Key>, n: nat)
    requires AllStored(table, entities) && Descending(entities) && 1 <= n <= |entities|
    ensures n <= |RawRows(table, entities, true)|
    ensures var owner, last := RawRows(table, entities, true)[n - 1].owner, entities[n - 1];
      && (owner == last <==> OneRowEach(table, entities, n - 1))
      && owner.createdAt >= last.createdAt
      && (TimesDiffer(entities) && owner != last ==> owner.createdAt > last.createdAt)
  {
    RowsLineUp(table, entities, n - 1);
    RawRowsPrefix(table, entities, n);
    RowCount(table, entities[..n]);
    OwnersAmong(table, entities[..n], n - 1);
    LastIsOldest(entities, n, RawRows(table, entities, true)[n - 1].owner);
  }

  /** The cursor of a page that is not the last one. */
  lemma CursorRow(table: Table, cursor: Option<Key>, limit: nat)
    requires limit >= 1 && PageOf(KeysOf(table), cursor, limit).hasNext
    ensures var entities := Fetched(table, cursor, limit);
      && limit < |entities| && limit <= |RawRows(table, entities, true)|
      && JoinedPageOf(table, cursor, limit).nextCursor
         == Some(Key(RawRows(table, entities, true)[limit - 1].owner.createdAt, entities[limit - 1].id))
  {
    FetchedIs(table, cursor, limit);
    RowAtPageEnd(table, Fetched(table, cursor, limit), limit);
  }

  // ---- whose row ends the page ----------------------------------------------------------------

  /** How many result rows the first `n` items have: the sum of what the join makes of each. */
  function RowsOf(table: Table, entities: seq<Key>, n: nat): nat
    requires AllStored(table, entities) && n <= |entities|
  {
    if n == 0 then 0 else RowsOf(table, entities, n - 1) + FanOut(table, entities[n - 1])
  }

  /** A left join: one result row for an item with no joined rows, and one for each of them otherwise. */
  lemma RowsInFull(table: Table, entities: seq<Key>, n: nat)
    requires AllStored(table, entities) && n < |entities|
    ensures var joined := table[entities[n].id].joined;
      RowsOf(table, entities, n + 1) == RowsOf(table, entities, n) + if joined == 0 then 1 else joined
    ensures RowsOf(table, entities, 0) == 0
  {}

  lemma {:induction false} RowsCounted(table: Table, entities: seq<Key>, n: nat)
    requires AllStored(table, entities) && n <= |entities|
    ensures |RawRows(table, entities[..n], true)| == RowsOf(table, entities, n) >= n
  {
    if n > 0 {
      RowsCounted(table, entities, n - 1);
      assert entities[..n] == entities[..n - 1] + [entities[n - 1]];
      RawRowsGrow(table, entities[..n - 1], entities[n - 1], true);
    }
  }

  /** The first item from `i` on that brings the result rows to more than `r`. */
  function OwnerFrom(table: Table, entities: seq<Key>, r: nat, i: nat): (k: nat)
    requires AllStored(table, entities) && i < |entities|
    requires RowsOf(table, entities, i) <= r < RowsOf(table, entities, |entities|)
    ensures i <= k < |entities| && RowsOf(table, entities, k) <= r < RowsOf(table, entities, k + 1)
    decreases |entities| - i
  {
    if r < RowsOf(table, entities, i + 1) then i else OwnerFrom(table, entities, r, i + 1)
  }

  /** The rows of item `k` stand behind those of the items before it. */
  lemma RowOfItem(table: Table, entities: seq<Key>, k: nat, r: nat)
    requires AllStored(table, entities) && k < |entities|
    requires RowsOf(table, entities, k) <= r < RowsOf(table, entities, k + 1)
    ensures r < |RawRows(table, entities, true)| && RawRows(table, entities, true)[r].owner == entities[k]
  {
    RowsCounted(table, entities, k);
    assert entities[..k + 1] == entities[..k] + [entities[k]];
    RawRowsGrow(table, entities[..k], entities[k], true);
    assert r < |RawRows(table, entities[..k + 1], true)|
           && RawRows(table, entities[..k + 1], true)[r].owner == entities[k];
    RawRowsPrefix(table, entities, k + 1);
  }

  /** The item whose result rows reach the end of a page of `limit`. */
  function OwnerOf(table: Table, entities: seq<Key>, limit: nat): (k: nat)
    requires AllStored(table, entities) && 1 <= limit < |entities|
    ensures k < |entities| && RowsOf(table, entities, k) < limit <= RowsOf(table, entities, k + 1)
  {
    RowsCounted(table, entities, |entities|);
    OwnerFrom(table, entities, limit - 1, 0)
  }

  lemma CursorTime(table: Table, cursor: Option<Key>, limit: nat)
    requires limit >= 1 && PageOf(KeysOf(table), cursor, limit).hasNext
    ensures var entities := Fetched(table, cursor, limit);
      && limit < |entities|
      && JoinedPageOf(table, cursor, limit).nextCursor
         == Some(Key(entities[OwnerOf(table, entities, limit)].createdAt, entities[limit - 1].id))
  {
    var entities := Fetched(table, cursor, limit);
    CursorRow(table, cursor, limit);
    RowOfItem(table, entities, OwnerOf(table, entities, limit), limit - 1);
  }

  /**
     Items and hasNext are right whatever is joined. The cursor of a page that is not the last one is right
     exactly when the first item that brings the result rows to `limit` was created when the last one was.
   */
  lemma PageIsRight(table: Table, cursor: Option<Key>, limit: nat)
    requires limit >= 1
    ensures var page, entities := PageOf(KeysOf(table), cursor, limit), Fetched(table, cursor, limit);
      var joined := JoinedPageOf(table, cursor, limit);
      && joined.items == page.items && joined.hasNext == page.hasNext
      && (page.hasNext ==> limit < |entities|)
      && (joined == page <==>
          !page.hasNext || entities[OwnerOf(table, entities, limit)].createdAt == entities[limit - 1].createdAt)
  {
    if PageOf(KeysOf(table), cursor, limit).hasNext {
      FetchedIs(table, cursor, limit);
      CursorTime(table, cursor, limit);
    }
  }

  /** So it is if all items before the last have one result row each and, where no two times are equal, only then. */
  lemma OneRowEachIsRight(table: Table, cursor: Option<Key>, limit: nat)
    requires limit >= 1 && PageOf(KeysOf(table), cursor, limit).hasNext
    ensures var page, entities := PageOf(KeysOf(table), cursor, limit), Fetched(table, cursor, limit);
      var joined := JoinedPageOf(table, cursor, limit);
      && (OneRowEach(table, entities, limit - 1) ==> joined == page)
      && (TimesDiffer(entities) && joined == page ==> OneRowEach(table, entities, limit - 1))
  {
    PageIsRight(table, cursor, limit);
    FetchedIs(table, cursor, limit);
    CursorRow(table, cursor, limit);
    RowAtPageEnd(table, Fetched(table, cursor, limit), limit);
  }

  /** A wrong cursor lies above the page's last item, so the next page brings that item again. */
  lemma WrongCursorRepeats(table: Table, cursor: Option<Key>, limit: nat)
    requires limit >= 1 && JoinedPageOf(table, cursor, limit) != PageOf(KeysOf(table), cursor, limit)
    ensures var joined := JoinedPageOf(table, cursor, limit);
      && joined.items != []
      && joined.items[|joined.items| - 1] in Below(KeysOf(table), joined.nextCursor)
  {
    PageIsRight(table, cursor, limit);
    CursorRow(table, cursor, limit);
    FetchedIs(table, cursor, limit);
    RowAtPageEnd(table, Fetched(table, cursor, limit), limit);
    LastItemStored(table, cursor, limit);
  }

  lemma LastItemStored(table: Table, cursor: Option<Key>, limit: nat)
    requires limit >= 1
    ensures var items := PageOf(KeysOf(table), cursor, limit).items;
      items != [] ==> items[|items| - 1] in KeysOf(table)
  {
    PageIs(KeysOf(table), cursor, limit);
  }

  const ThreeProducts: Table := map[1 := Stored(10, 1), 2 := Stored(20, 1), 3 := Stored(30, 2)]

  const NewestFirst: seq<Key> := [Key(30, 3), Key(20, 2), Key(10, 1)]

  lemma ThreeProductsListed()
    ensures Listing(KeysOf(ThreeProducts)) == NewestFirst
    ensures Listing(Below(KeysOf(ThreeProducts), Some(Key(30, 2)))) == NewestFirst[1..]
  {
    var keys := KeysOf(ThreeProducts);
    forall k ensures k in NewestFirst <==> k in keys {
      assert k in keys <==> k.id in ThreeProducts && k.createdAt == ThreeProducts[k.id].createdAt;
    }
    var rest := Below(keys, Some(Key(30, 2)));
    assert Lists(NewestFirst, keys) && Lists(NewestFirst[1..], rest);
    ListingLists(keys);
    ListsUnique(Listing(keys), NewestFirst, keys);
    ListingLists(rest);
    ListsUnique(Listing(rest), NewestFirst[1..], rest);
  }

  lemma SecondRowIsNewest()
    ensures AllStored(ThreeProducts, NewestFirst) && |RawRows(ThreeProducts, NewestFirst, true)| >= 2
    ensures RawRows(ThreeProducts, NewestFirst, true)[1].owner == Key(30, 3)
  {
    RawRowsPrefix(ThreeProducts, NewestFirst, 1);
    assert NewestFirst[..1] == [] + [Key(30, 3)];
    RawRowsGrow(ThreeProducts, [], Key(30, 3), true);
  }

  /** It happens: three products, the newest with two order items, in pages of two. */
  lemma JoinRepeatsRow()
    ensures var first := JoinedPageOf(ThreeProducts, None, 2);
      && first.items == [Key(30, 3), Key(20, 2)] && first.nextCursor == Some(Key(30, 2))
      && JoinedPageOf(ThreeProducts, first.nextCursor, 2).items == [Key(20, 2), Key(10, 1)]
  {
    ThreeProductsListed();
    SecondRowIsNewest();
    CursorRow(ThreeProducts, None, 2);
    PageIsRight(ThreeProducts, None, 2);
    PageIsRight(ThreeProducts, Some(Key(30, 2)), 2);
  }
}
