/** The in-memory pager, which looks its cursor up in a list, and its agreement with the keyset pager. */
module IndexPager {
  import opened Wrappers
  import opened Keyset
  import opened KeysetPagination

  datatype PagerError = CursorNotFound

  /** A key as a JavaScript Date keeps it: whole milliseconds. */
  function AsDate(k: Key): Key {
    k.(createdAt := Millis(k.createdAt))
  }

  /** That is the last whole millisecond not after it. */
  lemma AsDateInFull(k: Key)
    ensures AsDate(k).id == k.id && AsDate(k).createdAt % 1000 == 0
    ensures AsDate(k).createdAt <= k.createdAt < AsDate(k).createdAt + 1000
  {}

  function FindIndex(target: seq<Key>, cursor: Key): (found: Option<nat>)
    ensures match found
            case Some(i) => i < |target| && AsDate(target[i]) == AsDate(cursor)
                            && forall j :: 0 <= j < i ==> AsDate(target[j]) != AsDate(cursor)
            case None => forall j :: 0 <= j < |target| ==> AsDate(target[j]) != AsDate(cursor)
  {
    if target == [] then None
    else if AsDate(target[0]) == AsDate(cursor) then Some(0)
    else match FindIndex(target[1..], cursor)
         case Some(i) =>
           assert forall j :: 1 <= j < |target| ==> target[j] == target[1..][j - 1];
           Some(i + 1)
         case None =>
           assert forall j :: 1 <= j < |target| ==> target[j] == target[1..][j - 1];
           None
  }

  function PaginateByCursor(target: seq<Key>, cursor: Option<Key>, limit: nat): Result<Page, PagerError> {
    var cursorIndex := if cursor.Some? then FindIndex(target, cursor.value) else None;
    if cursor.Some? && cursorIndex.None? then Err(CursorNotFound) else
    var startIndex := if cursor.Some? then cursorIndex.value + 1 else 0;
    Ok(PageOfWindow(Prefix(target[startIndex..], limit + 1), limit))
  }

  function PageOfWindow(window: seq<Key>, limit: nat): Page {
    var hasNext := |window| > limit;
    var items := if hasNext then window[..limit] else window;
    Page(items, hasNext, if hasNext && items != [] then Some(AsDate(items[|items| - 1])) else None)
  }

  /** No two rows share an id. */
  ghost predicate IdsUnique(keys: set<Key>) {
    forall k, m :: k in keys && m in keys && k.id == m.id ==> k == m
  }

  lemma TableIdsUnique(table: Table)
    ensures IdsUnique(KeysOf(table))
  {}

  lemma RestOfListing(keys: set<Key>, i: nat)
    requires i < |Listing(keys)|
    ensures Listing(keys)[i] in keys
    ensures Listing(keys)[i + 1..] == Listing(Below(keys, Some(Listing(keys)[i])))
  {
    var all, rest := Listing(keys), Below(keys, Some(Listing(keys)[i]));
    ListingLists(keys);
    ListingLists(rest);
    forall k ensures k in all[i + 1..] <==> k in rest {
      AfterIs(all, i + 1, k);
      assert k in all <==> k in keys;
    }
    ListsUnique(all[i + 1..], Listing(rest), rest);
  }

  /** The index of a row's cursor is the row's own, whatever the Date has lost. */
  lemma CursorIndex(keys: set<Key>, cursor: Key)
    requires IdsUnique(keys) && cursor in keys
    ensures var i := FindIndex(Listing(keys), AsDate(cursor));
      i.Some? && Listing(keys)[i.value] == cursor
  {
    ListingLists(keys);
    var j :| 0 <= j < |Listing(keys)| && Listing(keys)[j] == cursor;
    assert AsDate(AsDate(cursor)) == AsDate(cursor);
    var i := FindIndex(Listing(keys), AsDate(cursor));
    assert Listing(keys)[i.value] in keys;
  }

  function AsIndexPage(page: Page): Page
    requires page.hasNext ==> page.nextCursor.Some?
  {
    page.(nextCursor := if page.hasNext then Some(AsDate(page.nextCursor.value)) else None)
  }

  lemma WindowIsPage(keys: set<Key>, cursor: Option<Key>, limit: nat)
    requires limit >= 1
    ensures PageOf(keys, cursor, limit).hasNext ==> PageOf(keys, cursor, limit).nextCursor.Some?
    ensures PageOfWindow(Prefix(Listing(Below(keys, cursor)), limit + 1), limit)
         == AsIndexPage(PageOf(keys, cursor, limit))
  {
    PageIs(keys, cursor, limit);
    var rest := Listing(Below(keys, cursor));
    if |rest| > limit {
      assert rest[..limit + 1][..limit] == rest[..limit];
    }
  }

  /**
     On the sorted list of a table the two pagers give the same items and the same hasNext for the same
     row's cursor. Their next cursors differ in what a Date loses, and on the last page, where this one
     has none.
   */
  lemma PagersAgree(keys: set<Key>, cursor: Option<Key>, limit: nat)
    requires limit >= 1 && IdsUnique(keys) && (cursor.Some? ==> cursor.value in keys)
    ensures PageOf(keys, cursor, limit).hasNext ==> PageOf(keys, cursor, limit).nextCursor.Some?
    ensures PaginateByCursor(Listing(keys), if cursor.Some? then Some(AsDate(cursor.value)) else None, limit)
         == Ok(AsIndexPage(PageOf(keys, cursor, limit)))
  {
    WindowIsPage(keys, cursor, limit);
    if cursor.Some? {
      CursorIndex(keys, cursor.value);
      RestOfListing(keys, FindIndex(Listing(keys), AsDate(cursor.value)).value);
    } else {
      assert Listing(keys)[0..] == Listing(keys);
    }
  }

  /**
     So they do on any table, the query builder with its joins included: same items, same hasNext, for the cursor
     of any of the table's rows.
   */
  lemma PagersAgreeOnTable(table: Table, cursor: Option<Key>, limit: nat)
    requires limit >= 1 && (cursor.Some? ==> Stands(table, cursor.value))
    ensures var joined := JoinedPageOf(table, cursor, limit);
      var inMemory := PaginateByCursor(Listing(KeysOf(table)), if cursor.Some? then Some(AsDate(cursor.value)) else None, limit);
      && inMemory.Ok?
      && inMemory.value.items == joined.items && inMemory.value.hasNext == joined.hasNext
      && (joined == PageOf(KeysOf(table), cursor, limit) && joined.hasNext ==>
          joined.nextCursor.Some? && inMemory.value.nextCursor == Some(AsDate(joined.nextCursor.value)))
  {
    TableIdsUnique(table);
    PagersAgree(KeysOf(table), cursor, limit);
    PageIsRight(table, cursor, limit);
  }

  ghost predicate WholeMillis(keys: set<Key>) {
    forall k :: k in keys ==> AsDate(k) == k
  }

  /** With whole-millisecond timestamps the next cursors are the same as well, while there is a next page. */
  lemma PagersAgreeOnCursors(keys: set<Key>, cursor: Option<Key>, limit: nat)
    requires limit >= 1 && IdsUnique(keys) && (cursor.Some? ==> cursor.value in keys) && WholeMillis(keys)
    ensures var page := PageOf(keys, cursor, limit);
      page.hasNext ==> PaginateByCursor(Listing(keys), cursor, limit) == Ok(page)
  {
    PagersAgree(keys, cursor, limit);
    PageIs(keys, cursor, limit);
    var page := PageOf(keys, cursor, limit);
    assert page.hasNext ==> page.items[|page.items| - 1] in page.items;
  }

  /**
     A cursor that went through a Date loses rows: none of those between it and the row it was made
     from is returned by any walk that goes on from it.
   */
  lemma DateCursorLosesRows(tables: seq<set<Key>>, cursor: Key, limit: nat, lost: Key)
    requires limit >= 1 && Above(cursor, lost) && !Above(AsDate(cursor), lost)
    ensures lost !in Items(Walk(tables, Some(AsDate(cursor)), limit))
  {
    WalkDescends(tables, Some(AsDate(cursor)), limit);
  }

  /** Such rows exist: one created a few microseconds earlier, within the same millisecond. */
  lemma DateCursorLosesARow()
    ensures var keys := {Key(1007, 2), Key(1003, 1)};
      && Above(Key(1007, 2), Key(1003, 1)) && !Above(AsDate(Key(1007, 2)), Key(1003, 1))
      && PageOf(keys, Some(AsDate(Key(1007, 2))), 1).items == []
      && PageOf(keys, Some(Key(1007, 2)), 1).items == [Key(1003, 1)]
  {
    var keys := {Key(1007, 2), Key(1003, 1)};
    assert AsDate(Key(1007, 2)) == Key(1000, 2);
    assert Below(keys, Some(Key(1000, 2))) == {};
    assert Below(keys, Some(Key(1007, 2))) == {Key(1003, 1)};
    ListingLists({Key(1003, 1)});
    assert Lists([Key(1003, 1)], {Key(1003, 1)});
    ListsUnique(Listing({Key(1003, 1)}), [Key(1003, 1)], {Key(1003, 1)});
  }
}
