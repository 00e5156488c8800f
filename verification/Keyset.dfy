/** Pages of a table in descending (created_at, id) order, cut by the key of the last row seen. */
module Keyset {
  import opened Wrappers

  /** A row's place in the order: microseconds since the epoch, then its id. */
  datatype Key = Key(createdAt: int, id: nat)

  predicate Above(a: Key, b: Key) {
    a.createdAt > b.createdAt || (a.createdAt == b.createdAt && a.id > b.id)
  }

  predicate Descending(s: seq<Key>) {
    forall i, j :: 0 <= i < j < |s| ==> Above(s[i], s[j])
  }

  // ---- the sorted list of a set of rows -------------------------------------------------------

  predicate IsTop(keys: set<Key>, top: Key) {
    top in keys && forall k :: k in keys ==> k == top || Above(top, k)
  }

  lemma {:induction false} HasTop(keys: set<Key>)
    requires keys != {}
    ensures exists top :: IsTop(keys, top)
    decreases |keys|
  {
    var k :| k in keys;
    var rest := keys - {k};
    if rest == {} {
      assert keys == {k};
      assert IsTop(keys, k);
    } else {
      HasTop(rest);
      var top :| IsTop(rest, top);
      assert forall j :: j in keys ==> j in rest || j == k;
      assert IsTop(keys, if Above(top, k) then top else k);
    }
  }

  /** `ORDER BY created_at DESC, id DESC` */
  ghost function Listing(keys: set<Key>): seq<Key>
    decreases |keys|
  {
    if keys == {} then [] else
    HasTop(keys);
    var top :| IsTop(keys, top);
    [top] + Listing(keys - {top})
  }

  ghost predicate Lists(s: seq<Key>, keys: set<Key>) {
    Descending(s) && forall k :: k in s <==> k in keys
  }

  lemma {:induction false} ListingLists(keys: set<Key>)
    ensures Lists(Listing(keys), keys) && |Listing(keys)| == |keys|
    decreases |keys|
  {
    if keys != {} {
      HasTop(keys);
      var top := Listing(keys)[0];
      var rest := Listing(keys - {top});
      assert IsTop(keys, top) && Listing(keys) == [top] + rest;
      ListingLists(keys - {top});
      ListsOnTop(top, rest, keys);
    }
  }

  lemma ListsOnTop(top: Key, rest: seq<Key>, keys: set<Key>)
    requires IsTop(keys, top) && Lists(rest, keys - {top})
    ensures Lists([top] + rest, keys)
  {
    forall i, j | 0 <= i < j < |[top] + rest| ensures Above(([top] + rest)[i], ([top] + rest)[j]) {
      assert rest[j - 1] in rest;
      if i > 0 {
        assert Above(rest[i - 1], rest[j - 1]);
      }
    }
  }

  lemma {:induction false} ListSize(s: seq<Key>, keys: set<Key>)
    requires Lists(s, keys)
    ensures |s| == |keys|
    decreases |s|
  {
    if s == [] {
      assert keys == {};
    } else {
      assert s[0] in keys;
      TailLists(s, keys);
      ListSize(s[1..], keys - {s[0]});
    }
  }

  /** There is only one way to list a set of rows. */
  lemma {:induction false} ListsUnique(s: seq<Key>, t: seq<Key>, keys: set<Key>)
    requires Lists(s, keys) && Lists(t, keys)
    ensures s == t
    decreases |s|
  {
    ListSize(s, keys);
    ListSize(t, keys);
    if s != [] {
      assert s[0] in keys && t[0] in keys;
      assert s[0] == t[0];
      TailLists(s, keys);
      TailLists(t, keys);
      ListsUnique(s[1..], t[1..], keys - {s[0]});
    }
  }

  lemma TailLists(s: seq<Key>, keys: set<Key>)
    requires Lists(s, keys) && s != []
    ensures Lists(s[1..], keys - {s[0]})
  {
    forall k ensures k in s[1..] <==> k in keys - {s[0]} {
      assert k in s <==> k == s[0] || k in s[1..];
      if k in s[1..] {
        var i :| 0 <= i < |s| - 1 && s[1..][i] == k;
        assert Above(s[0], s[i + 1]);
      }
    }
  }

  // ---- one page -------------------------------------------------------------------------------

  /** The rows a cursor leaves: all of them without one, and those strictly below it otherwise. */
  function Below(keys: set<Key>, cursor: Option<Key>): set<Key> {
    if cursor.None? then keys else set k | k in keys && Above(cursor.value, k)
  }

  function Prefix<T>(s: seq<T>, n: nat): seq<T> {
    if |s| <= n then s else s[..n]
  }

  function Last<T>(s: seq<T>): Option<T> {
    if s == [] then None else Some(s[|s| - 1])
  }

  datatype Page = Page(items: seq<Key>, hasNext: bool, nextCursor: Option<Key>)

  /** The page that belongs to a cursor: the first `limit` rows below it, and whether there are more. */
  ghost function PageOf(keys: set<Key>, cursor: Option<Key>, limit: nat): Page {
    var rest := Listing(Below(keys, cursor));
    var items := Prefix(rest, limit);
    Page(items, |rest| > limit, Last(items))
  }

  lemma PageIs(keys: set<Key>, cursor: Option<Key>, limit: nat)
    ensures var page := PageOf(keys, cursor, limit);
      && Descending(page.items) && |page.items| <= limit
      && (forall k :: k in page.items ==> k in keys && (cursor.Some? ==> Above(cursor.value, k)))
      && (page.hasNext ==> |page.items| == limit)
      && (page.hasNext && limit > 0 ==> page.nextCursor.Some?)
      && (page.items != [] ==> page.nextCursor == Some(page.items[|page.items| - 1]))
  {
    ListingLists(Below(keys, cursor));
    var rest := Listing(Below(keys, cursor));
    forall k | k in Prefix(rest, limit) ensures k in Below(keys, cursor) {
      assert k in rest;
    }
  }

  /** `created_at < :c OR (created_at = :c AND id < :id)` */
  predicate Precedes(k: Key, createdAt: int, id: nat) {
    k.createdAt < createdAt || (k.createdAt == createdAt && k.id < id)
  }

  predicate Matches(k: Key, cursor: Option<Key>) {
    cursor.Some? ==> Precedes(k, cursor.value.createdAt, cursor.value.id)
  }

  /**
     A page in full: rows of the table that match the cursor, the later created first and of two created at once the
     one with the greater id, as many as the limit allows, none left out that comes before one that is in, and
     hasNext exactly when some are left.
   */
  lemma PageInFull(keys: set<Key>, cursor: Option<Key>, limit: nat)
    ensures var page := PageOf(keys, cursor, limit);
      && |page.items| <= limit
      && (forall k :: k in page.items ==> k in keys && Matches(k, cursor))
      && (forall i, j :: 0 <= i < j < |page.items| ==>
            Precedes(page.items[j], page.items[i].createdAt, page.items[i].id))
      && (forall k, m :: k in page.items && m in keys && Matches(m, cursor) && m !in page.items ==>
            Precedes(m, k.createdAt, k.id))
      && (page.hasNext <==> exists m :: m in keys && Matches(m, cursor) && m !in page.items)
      && (page.hasNext ==> |page.items| == limit)
      && page.nextCursor == if page.items == [] then None else Some(page.items[|page.items| - 1])
  {
    var rest, page := Listing(Below(keys, cursor)), PageOf(keys, cursor, limit);
    PageIs(keys, cursor, limit);
    ListingLists(Below(keys, cursor));
    assert forall m :: m in keys && Matches(m, cursor) <==> m in rest;
    forall k, m | k in page.items && m in rest && m !in page.items ensures Precedes(m, k.createdAt, k.id) {
      var i :| 0 <= i < |page.items| && page.items[i] == k;
      var j :| 0 <= j < |rest| && rest[j] == m;
      assert i < limit <= j && rest[i] == k;
    }
    if page.hasNext {
      var m := rest[limit];
      assert m in rest;
      forall k | k in page.items ensures k != m {
        var i :| 0 <= i < |page.items| && page.items[i] == k;
        assert rest[i] == k && Above(rest[i], rest[limit]);
      }
    } else {
      assert page.items == rest;
    }
  }

  /** A page skips nothing: a row below its cursor is on it or below the next cursor. */
  lemma PageSkipsNothing(keys: set<Key>, cursor: Option<Key>, limit: nat, k: Key)
    requires limit >= 1 && k in Below(keys, cursor)
    ensures var page := PageOf(keys, cursor, limit);
      k in page.items || (page.hasNext && page.nextCursor.Some? && Above(page.nextCursor.value, k))
  {
    var rest := Listing(Below(keys, cursor));
    ListingLists(Below(keys, cursor));
    var i :| 0 <= i < |rest| && rest[i] == k;
    if i < limit {
      assert Prefix(rest, limit)[i] == k;
    }
  }

  // ---- a walk over a changing table -----------------------------------------------------------

  /** The pages a client gets that follows nextCursor while hasNext, with the table as it is at each fetch. */
  ghost function Walk(tables: seq<set<Key>>, cursor: Option<Key>, limit: nat): seq<Page> {
    if tables == [] then [] else
    var page := PageOf(tables[0], cursor, limit);
    [page] + if page.hasNext then Walk(tables[1..], page.nextCursor, limit) else []
  }

  function Items(pages: seq<Page>): seq<Key> {
    if pages == [] then [] else pages[0].items + Items(pages[1..])
  }

  lemma WalkSteps(tables: seq<set<Key>>, cursor: Option<Key>, limit: nat)
    requires tables != []
    ensures var page, pages := PageOf(tables[0], cursor, limit), Walk(tables, cursor, limit);
      && pages != [] && pages[0] == page
      && pages[1..] == (if page.hasNext then Walk(tables[1..], page.nextCursor, limit) else [])
      && |pages| == 1 + |pages[1..]|
      && Items(pages) == page.items + Items(pages[1..])
  {}

  /** The client has been told that there is no further page. */
  predicate Finished(pages: seq<Page>) {
    pages != [] && !pages[|pages| - 1].hasNext
  }

  lemma DescendingJoin(a: seq<Key>, b: seq<Key>)
    requires Descending(a) && Descending(b)
    requires forall k, j :: k in a && j in b ==> Above(k, j)
    ensures Descending(a + b)
  {
    forall i, j | 0 <= i < j < |a + b| ensures Above((a + b)[i], (a + b)[j]) {
      if i < |a| <= j {
        assert a[i] in a && b[j - |a|] in b;
      }
    }
  }

  lemma LastIsLowest(s: seq<Key>)
    requires Descending(s) && s != []
    ensures forall k :: k in s ==> k == s[|s| - 1] || Above(k, s[|s| - 1])
  {}

  lemma AboveAll(a: seq<Key>, last: Key, b: seq<Key>)
    requires forall k :: k in a ==> k == last || Above(k, last)
    requires forall k :: k in b ==> Above(last, k)
    ensures forall k, j :: k in a && j in b ==> Above(k, j)
  {}

  /** Whatever is inserted and deleted between fetches, the rows come in strictly descending order. */
  lemma {:induction false} WalkDescends(tables: seq<set<Key>>, cursor: Option<Key>, limit: nat)
    requires limit >= 1
    ensures var items := Items(Walk(tables, cursor, limit));
      Descending(items) && (cursor.Some? ==> forall k :: k in items ==> Above(cursor.value, k))
    decreases |tables|
  {
    if tables != [] {
      var page := PageOf(tables[0], cursor, limit);
      PageIs(tables[0], cursor, limit);
      WalkSteps(tables, cursor, limit);
      if page.hasNext {
        WalkDescends(tables[1..], page.nextCursor, limit);
        LastIsLowest(page.items);
        var last, rest := page.nextCursor.value, Items(Walk(tables[1..], page.nextCursor, limit));
        AboveAll(page.items, last, rest);
        DescendingJoin(page.items, rest);
        assert last in page.items;
      }
    }
  }

  /** A row that was there at every fetch of a finished walk is among the rows returned. */
  lemma {:induction false} WalkComplete(tables: seq<set<Key>>, cursor: Option<Key>, limit: nat, k: Key)
    requires limit >= 1 && Finished(Walk(tables, cursor, limit))
    requires forall i :: 0 <= i < |Walk(tables, cursor, limit)| && i < |tables| ==> k in tables[i]
    requires cursor.Some? ==> Above(cursor.value, k)
    ensures k in Items(Walk(tables, cursor, limit))
    decreases |tables|
  {
    var pages := Walk(tables, cursor, limit);
    var page := PageOf(tables[0], cursor, limit);
    assert k in tables[0];
    PageSkipsNothing(tables[0], cursor, limit, k);
    if k !in page.items {
      var rest := Walk(tables[1..], page.nextCursor, limit);
      assert pages[1..] == rest;
      assert Finished(rest) by {
        assert rest != [] ==> pages[|pages| - 1] == rest[|rest| - 1];
      }
      forall i | 0 <= i < |rest| && i < |tables[1..]| ensures k in tables[1..][i] {
        assert k in tables[i + 1];
      }
      WalkComplete(tables[1..], page.nextCursor, limit, k);
    }
  }

  /** Nothing is made up: each row was in the table when its page was fetched. */
  lemma {:induction false} WalkSound(tables: seq<set<Key>>, cursor: Option<Key>, limit: nat, i: nat, k: Key)
    requires limit >= 1 && i < |Walk(tables, cursor, limit)| && k in Walk(tables, cursor, limit)[i].items
    ensures i < |tables| && k in tables[i]
    decreases |tables|
  {
    PageIs(tables[0], cursor, limit);
    if i > 0 {
      WalkSound(tables[1..], PageOf(tables[0], cursor, limit).nextCursor, limit, i - 1, k);
    }
  }

  /** created_at is written once, by the insert: an id has the same key in every state of the table. */
  ghost predicate KeysFixed(tables: seq<set<Key>>) {
    forall i, j, k, m ::
      (0 <= i < |tables| && 0 <= j < |tables| && k in tables[i] && m in tables[j] && k.id == m.id) ==> k == m
  }

  lemma {:induction false} ItemsComeFrom(pages: seq<Page>, k: Key)
    requires k in Items(pages)
    ensures exists i :: 0 <= i < |pages| && k in pages[i].items
  {
    if k in pages[0].items {
    } else {
      ItemsComeFrom(pages[1..], k);
      var i :| 0 <= i < |pages[1..]| && k in pages[1..][i].items;
      assert k in pages[i + 1].items;
    }
  }

  /** So no row is returned twice. */
  lemma WalkNeverRepeats(tables: seq<set<Key>>, limit: nat, i: nat, j: nat)
    requires limit >= 1 && KeysFixed(tables)
    requires i < j < |Items(Walk(tables, None, limit))|
    ensures Items(Walk(tables, None, limit))[i].id != Items(Walk(tables, None, limit))[j].id
  {
    var pages := Walk(tables, None, limit);
    var a, b := Items(pages)[i], Items(pages)[j];
    WalkDescends(tables, None, limit);
    ItemsComeFrom(pages, a);
    ItemsComeFrom(pages, b);
    var m :| 0 <= m < |pages| && a in pages[m].items;
    var n :| 0 <= n < |pages| && b in pages[n].items;
    WalkSound(tables, None, limit, m, a);
    WalkSound(tables, None, limit, n, b);
  }

  // ---- a walk over a table that stays as it is ------------------------------------------------

  ghost predicate Unchanging(tables: seq<set<Key>>, keys: set<Key>) {
    forall i :: 0 <= i < |tables| ==> tables[i] == keys
  }

  /** What a page leaves for the next one is the rest of the list. */
  lemma RestAfterPage(keys: set<Key>, cursor: Option<Key>, limit: nat)
    requires limit >= 1 && PageOf(keys, cursor, limit).hasNext
    ensures Listing(Below(keys, cursor))[limit..]
         == Listing(Below(keys, PageOf(keys, cursor, limit).nextCursor))
    ensures |Below(keys, PageOf(keys, cursor, limit).nextCursor)| == |Below(keys, cursor)| - limit
  {
    var all := Listing(Below(keys, cursor));
    var next := Below(keys, PageOf(keys, cursor, limit).nextCursor);
    assert PageOf(keys, cursor, limit).nextCursor == Some(all[limit - 1]);
    ListingLists(Below(keys, cursor));
    ListingLists(next);
    forall k ensures k in all[limit..] <==> k in next {
      AfterIs(all, limit, k);
      assert k in next <==> k in keys && Above(all[limit - 1], k);
      assert k in all <==> k in Below(keys, cursor);
      if k in next {
        assert all[limit - 1] in all;
        BelowIsLower(keys, cursor, all[limit - 1], k);
      }
    }
    ListsUnique(all[limit..], Listing(next), next);
  }

  lemma BelowIsLower(keys: set<Key>, cursor: Option<Key>, last: Key, k: Key)
    requires last in Below(keys, cursor) && k in keys && Above(last, k)
    ensures k in Below(keys, cursor)
  {}

  lemma AfterIs(s: seq<Key>, n: nat, k: Key)
    requires Descending(s) && 1 <= n <= |s|
    ensures k in s[n..] <==> k in s && Above(s[n - 1], k)
  {
    if k in s[n..] {
      var i :| 0 <= i < |s| - n && s[n..][i] == k;
      assert s[n + i] == k;
    }
    if k in s && Above(s[n - 1], k) {
      var i :| 0 <= i < |s| && s[i] == k;
      assert i >= n;
      assert s[n..][i - n] == k;
    }
  }

  /** Pages of at most `limit` that `n` rows take: one even for an empty table. */
  function PageCount(n: nat, limit: nat): (count: nat)
    requires limit >= 1
  {
    if n <= limit then 1 else 1 + PageCount(n - limit, limit)
  }

  /** n / limit rounded up, and 1 for nothing. */
  lemma {:induction false} PageCountIsCeiling(n: nat, limit: nat)
    requires limit >= 1
    ensures PageCount(n, limit) >= 1 && n <= PageCount(n, limit) * limit
    ensures n >= 1 ==> (PageCount(n, limit) - 1) * limit < n
  {
    if n > limit {
      PageCountIsCeiling(n - limit, limit);
      var c := PageCount(n - limit, limit);
      assert (c + 1) * limit == c * limit + limit;
      assert c * limit == (c - 1) * limit + limit;
    }
  }

  /** One fetch of an unchanging table: the page, and a shorter list for the next fetch. */
  lemma PageOfUnchanging(keys: set<Key>, cursor: Option<Key>, limit: nat)
    requires limit >= 1
    ensures var page, rest := PageOf(keys, cursor, limit), Listing(Below(keys, cursor));
      && (page.hasNext <==> |Below(keys, cursor)| > limit)
      && (!page.hasNext ==> page.items == rest)
      && (page.hasNext ==>
            && page.items + Listing(Below(keys, page.nextCursor)) == rest
            && |Below(keys, page.nextCursor)| == |Below(keys, cursor)| - limit)
  {
    ListingLists(Below(keys, cursor));
    if PageOf(keys, cursor, limit).hasNext {
      RestAfterPage(keys, cursor, limit);
    }
  }

  lemma {:induction false} WalkCounts(tables: seq<set<Key>>, keys: set<Key>, cursor: Option<Key>, limit: nat)
    requires limit >= 1 && Unchanging(tables, keys)
    requires |tables| >= PageCount(|Below(keys, cursor)|, limit)
    ensures var pages := Walk(tables, cursor, limit);
      |pages| == PageCount(|Below(keys, cursor)|, limit) && Finished(pages)
    decreases |tables|
  {
    var page, pages := PageOf(keys, cursor, limit), Walk(tables, cursor, limit);
    WalkSteps(tables, cursor, limit);
    PageOfUnchanging(keys, cursor, limit);
    if page.hasNext {
      WalkCounts(tables[1..], keys, page.nextCursor, limit);
      assert pages[|pages| - 1] == pages[1..][|pages| - 2];
    }
  }

  lemma {:induction false} WalkLists(tables: seq<set<Key>>, keys: set<Key>, cursor: Option<Key>, limit: nat)
    requires limit >= 1 && Unchanging(tables, keys) && Finished(Walk(tables, cursor, limit))
    ensures Items(Walk(tables, cursor, limit)) == Listing(Below(keys, cursor))
    decreases |tables|
  {
    var page, pages := PageOf(keys, cursor, limit), Walk(tables, cursor, limit);
    WalkSteps(tables, cursor, limit);
    PageOfUnchanging(keys, cursor, limit);
    if page.hasNext {
      assert pages[1..] != [] ==> pages[|pages| - 1] == pages[1..][|pages| - 2];
      WalkLists(tables[1..], keys, page.nextCursor, limit);
    }
  }

  /** On a table nobody changes the pages together are the sorted list, and no page more than needed. */
  lemma WalkOfUnchanging(tables: seq<set<Key>>, keys: set<Key>, limit: nat)
    requires limit >= 1 && Unchanging(tables, keys) && |tables| >= PageCount(|keys|, limit)
    ensures var pages := Walk(tables, None, limit);
      && Lists(Items(pages), keys)
      && |pages| == PageCount(|keys|, limit)
      && Finished(pages)
  {
    WalkCounts(tables, keys, None, limit);
    WalkLists(tables, keys, None, limit);
    ListingLists(keys);
  }
}
