/** Keyset paging of runs and projects, newest first (src/cavman/platform_store.py and the
    cursor of src/cavman/api.py). */
module Paging {
  import opened Base

  /** What rows are ordered by.  The primary key `id` makes keys unique. */
  datatype Key = Key(created: int, id: int)

  /** ORDER BY created_at DESC, id DESC puts a before b. */
  predicate Newer(a: Key, b: Key) { b.created < a.created || (b.created == a.created && b.id < a.id) }

  /** The condition `_page` adds for a cursor. */
  predicate Beyond(cursor: Option<Key>, k: Key) {
    cursor.None? || k.created < cursor.value.created
    || (k.created == cursor.value.created && k.id < cursor.value.id)
  }

  /** The rows a query selects: those of this owner that lie beyond the cursor. */
  function Selected(table: set<Key>, cursor: Option<Key>): set<Key> { set k | k in table && Beyond(cursor, k) }

  ghost predicate IsNewest(s: set<Key>, k: Key) { k in s && forall j :: j in s && j != k ==> Newer(k, j) }

  lemma {:induction false} NewestExists(s: set<Key>)
    requires s != {}
    ensures exists k :: IsNewest(s, k)
    decreases |s|
  {
    var k :| k in s;
    var rest := s - {k};
    var top := k;
    if rest != {} {
      NewestExists(rest);
      var j :| IsNewest(rest, j);
      if Newer(j, k) { top := j; }
    }
    forall i | i in s && i != top ensures Newer(top, i) { assert i in rest || i == k; }
    assert IsNewest(s, top);
  }

  /** ORDER BY ... LIMIT: the newest rows first, at most `limit` of them. */
  ghost function Ordered(s: set<Key>, limit: nat): (r: seq<Key>)
    decreases limit
  {
    if s == {} || limit == 0 then []
    else
      NewestExists(s);
      var k :| IsNewest(s, k);
      [k] + Ordered(s - {k}, limit - 1)
  }

  ghost predicate Descending(s: seq<Key>) { forall i, j :: 0 <= i < j < |s| ==> Newer(s[i], s[j]) }

  /** r is the newest min(limit, |s|) rows of s, in order. */
  ghost predicate IsTop(s: set<Key>, limit: nat, r: seq<Key>) {
    && Descending(r) && Elements(r) <= s && |r| == (if |s| <= limit then |s| else limit)
    && (forall k, j :: k in s && k !in r && j in r ==> Newer(j, k))
    && (|s| <= limit ==> Elements(r) == s)
  }

  lemma TopGrows(s: set<Key>, limit: nat, k: Key, r: seq<Key>)
    requires IsNewest(s, k) && 0 < limit && IsTop(s - {k}, limit - 1, r)
    ensures IsTop(s, limit, [k] + r)
  {
    var all := [k] + r;
    forall i, j | 0 <= i < j < |all| ensures Newer(all[i], all[j]) {
      assert all[j] == r[j - 1] && r[j - 1] in Elements(r);
    }
    assert Elements(all) == {k} + Elements(r);
    forall x, j | x in s && x !in all && j in all ensures Newer(j, x) {
      assert x in s - {k} && x !in r && (j == k || j in r);
    }
  }

  lemma {:induction false} OrderedIsTop(s: set<Key>, limit: nat)
    ensures IsTop(s, limit, Ordered(s, limit))
    decreases limit
  {
    if s != {} && limit > 0 {
      NewestExists(s);
      var k :| IsNewest(s, k) && Ordered(s, limit) == [k] + Ordered(s - {k}, limit - 1);
      OrderedIsTop(s - {k}, limit - 1);
      TopGrows(s, limit, k, Ordered(s - {k}, limit - 1));
    }
  }

  datatype Page = Page(shown: seq<Key>, next: Option<Key>)

  /** One request: one row more than the page is fetched, and its presence decides whether
      there is a next cursor. */
  ghost function PageOf(table: set<Key>, cursor: Option<Key>, limit: nat): Page requires 1 <= limit {
    var rows := Ordered(Selected(table, cursor), limit + 1);
    if |rows| <= limit then Page(rows, None) else Page(rows[..limit], Some(rows[limit - 1]))
  }

  /** The rows shown by following cursors, when request i sees tables[i]. */
  ghost function Walk(tables: seq<set<Key>>, cursor: Option<Key>, limit: nat): seq<Key> requires 1 <= limit {
    if tables == [] then []
    else
      var page := PageOf(tables[0], cursor, limit);
      if page.next.None? then page.shown else page.shown + Walk(tables[1..], page.next, limit)
  }

  /** The number of requests made until a page says there is no next one. */
  ghost function Requests(tables: seq<set<Key>>, cursor: Option<Key>, limit: nat): (n: nat)
    requires 1 <= limit
    ensures n <= |tables|
  {
    if tables == [] then 0
    else if PageOf(tables[0], cursor, limit).next.None? then 1
    else 1 + Requests(tables[1..], PageOf(tables[0], cursor, limit).next, limit)
  }

  ghost predicate Finishes(tables: seq<set<Key>>, cursor: Option<Key>, limit: nat) requires 1 <= limit {
    tables != [] && (PageOf(tables[0], cursor, limit).next.Some? ==>
                       Finishes(tables[1..], PageOf(tables[0], cursor, limit).next, limit))
  }

  /** What the first `limit` of more rows leave out is older than the last of them. */
  lemma ShownSplits(all: set<Key>, rows: seq<Key>, limit: nat)
    requires IsTop(all, limit + 1, rows) && 1 <= limit < |rows|
    ensures forall k :: k in all && k !in rows[..limit] ==> Newer(rows[limit - 1], k)
  {
    assert forall i :: 0 <= i < limit ==> rows[i] in rows[..limit];
    forall k | k in all && k !in rows[..limit] ensures Newer(rows[limit - 1], k) {
      if k in rows {
        var i :| 0 <= i < |rows| && rows[i] == k;
        assert limit <= i;
        assert Newer(rows[limit - 1], rows[i]);
      }
    }
  }

  /** A page shows rows beyond its cursor in order; what it leaves out lies beyond the next one. */
  lemma PageSplits(table: set<Key>, cursor: Option<Key>, limit: nat)
    requires 1 <= limit
    ensures var page := PageOf(table, cursor, limit);
      && Descending(page.shown) && (forall k :: k in page.shown ==> k in table && Beyond(cursor, k))
      && (page.next.None? ==> Elements(page.shown) == Selected(table, cursor))
      && (page.next.Some? ==> page.shown != [] && page.next.value == Last(page.shown))
      && forall k :: page.next.Some? && k in Selected(table, cursor) && k !in page.shown ==> Beyond(page.next, k)
  {
    var all := Selected(table, cursor);
    var rows := Ordered(all, limit + 1);
    OrderedIsTop(all, limit + 1);
    forall k | k in rows ensures k in table && Beyond(cursor, k) { assert k in Elements(rows); }
    if |rows| > limit { ShownSplits(all, rows, limit); }
  }

  lemma {:induction false} WalkStaysBeyond(tables: seq<set<Key>>, cursor: Option<Key>, limit: nat)
    requires 1 <= limit
    ensures Descending(Walk(tables, cursor, limit))
    ensures forall k :: k in Walk(tables, cursor, limit) ==> Beyond(cursor, k)
    decreases |tables|
  {
    if tables != [] {
      var page := PageOf(tables[0], cursor, limit);
      PageSplits(tables[0], cursor, limit);
      if page.next.Some? {
        WalkStaysBeyond(tables[1..], page.next, limit);
        var rest := Walk(tables[1..], page.next, limit);
        forall k | k in rest ensures Beyond(cursor, k) {
          assert Last(page.shown) in page.shown;
        }
        forall i, j | 0 <= i < j < |page.shown + rest|
          ensures Newer((page.shown + rest)[i], (page.shown + rest)[j])
        {
          if i < |page.shown| <= j {
            assert rest[j - |page.shown|] in rest;
            assert i < |page.shown| - 1 ==> Newer(page.shown[i], Last(page.shown));
          }
        }
      }
    }
  }

  lemma {:induction false} WalkShowsAll(tables: seq<set<Key>>, cursor: Option<Key>, limit: nat, k: Key)
    requires 1 <= limit && Finishes(tables, cursor, limit) && Beyond(cursor, k)
    requires forall i :: 0 <= i < Requests(tables, cursor, limit) ==> k in tables[i]
    ensures k in Walk(tables, cursor, limit)
    decreases |tables|
  {
    var page := PageOf(tables[0], cursor, limit);
    PageSplits(tables[0], cursor, limit);
    assert k in Selected(tables[0], cursor);
    if page.next.None? {
      assert k in Elements(page.shown);
    } else if k !in page.shown {
      forall i | 0 <= i < Requests(tables[1..], page.next, limit) ensures k in tables[1..][i] {
        assert k in tables[i + 1];
      }
      WalkShowsAll(tables[1..], page.next, limit, k);
    }
  }

  lemma {:induction false} WalkShowsOnlyRows(tables: seq<set<Key>>, cursor: Option<Key>, limit: nat, k: Key)
    requires 1 <= limit && k in Walk(tables, cursor, limit)
    ensures exists i :: 0 <= i < Requests(tables, cursor, limit) && k in tables[i]
    decreases |tables|
  {
    var page := PageOf(tables[0], cursor, limit);
    PageSplits(tables[0], cursor, limit);
    if k in page.shown {
      assert k in tables[0];
    } else {
      WalkShowsOnlyRows(tables[1..], page.next, limit, k);
      var i :| 0 <= i < Requests(tables[1..], page.next, limit) && k in tables[1..][i];
      assert k in tables[i + 1];
    }
  }

  /** Whatever is inserted or deleted between requests: the walk shows rows in strictly descending
      order, hence none twice, and shows every row that is there throughout exactly once. */
  lemma WalkIsExact(tables: seq<set<Key>>, limit: nat)
    requires 1 <= limit && Finishes(tables, None, limit)
    ensures var shown := Walk(tables, None, limit);
      && Descending(shown) && NoDuplicates(shown)
      && (forall k :: PresentThroughout(tables, Requests(tables, None, limit), k) ==> multiset(shown)[k] == 1)
      && (forall k :: k in shown ==> exists i :: 0 <= i < |tables| && k in tables[i])
  {
    var shown := Walk(tables, None, limit);
    WalkStaysBeyond(tables, None, limit);
    forall k | PresentThroughout(tables, Requests(tables, None, limit), k) ensures multiset(shown)[k] == 1 {
      WalkShowsAll(tables, None, limit, k);
      ShownOnce(shown, k);
    }
    forall k | k in shown ensures exists i :: 0 <= i < |tables| && k in tables[i] {
      WalkShowsOnlyRows(tables, None, limit, k);
    }
  }

  ghost predicate PresentThroughout(tables: seq<set<Key>>, n: nat, k: Key) requires n <= |tables| {
    forall i :: 0 <= i < n ==> k in tables[i]
  }

  lemma {:induction false} ShownOnce(s: seq<Key>, k: Key)
    requires NoDuplicates(s) && k in s
    ensures multiset(s)[k] == 1
  {
    assert s == [s[0]] + s[1..];
    if k == s[0] {
      assert k !in s[1..];
    } else {
      assert k in s[1..];
      ShownOnce(s[1..], k);
    }
  }
}
