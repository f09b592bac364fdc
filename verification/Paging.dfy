/** Keyset pagination (ansible_mcp/src/queries.rs).

    A query is a list of matching rows with their sort keys; a page fetches the first
    `limit + 1` rows after the cursor, returns at most `limit` of them and a cursor only if
    one more row was seen. Rows carry distinct keys, because the id is a primary key. */
module Paging {
  import opened Wrappers
  import opened Cursor

  datatype Entry<+T> = Entry(key: Key, item: T)

  datatype Page<+T> = Page(items: seq<T>, next: Option<string>)

  const DEFAULT_PAGE: nat := 50
  const MAX_PAGE: nat := 200

  function ClampLimit(limit: Option<nat>): (n: nat)
    ensures 1 <= n <= MAX_PAGE
    ensures limit.None? ==> n == 50
    ensures limit.Some? ==> n == (if limit.value == 0 then 1 else if limit.value <= 200 then limit.value else 200)
  {
    match limit
    case None => DEFAULT_PAGE
    case Some(l) => if l < 1 then 1 else if l > MAX_PAGE then MAX_PAGE else l
  }

  // --------------------------------------------------------------- ordered selection

  ghost predicate Distinct<T(!new)>(rows: seq<Entry<T>>) {
    forall i, j :: 0 <= i < j < |rows| ==> rows[i].key != rows[j].key
  }

  ghost predicate Sorted<T(!new)>(order: Order, rows: seq<Entry<T>>) {
    forall i, j :: 0 <= i < j < |rows| ==> Before(order, rows[i].key, rows[j].key)
  }

  function Insert<T>(order: Order, e: Entry<T>, rows: seq<Entry<T>>): seq<Entry<T>> {
    if rows == [] || Before(order, e.key, rows[0].key) then [e] + rows
    else [rows[0]] + Insert(order, e, rows[1..])
  }

  /** `ORDER BY`. */
  function Sort<T>(order: Order, rows: seq<Entry<T>>): seq<Entry<T>> {
    if rows == [] then [] else Insert(order, rows[0], Sort(order, rows[1..]))
  }

  /** The keyset condition: rows strictly after the cursor. */
  function After<T>(order: Order, cursor: Option<Key>, rows: seq<Entry<T>>): seq<Entry<T>> {
    if cursor.None? then rows
    else if rows == [] then []
    else if Before(order, cursor.value, rows[0].key) then [rows[0]] + After(order, cursor, rows[1..])
    else After(order, cursor, rows[1..])
  }

  function Take<T>(n: nat, s: seq<T>): seq<T> {
    if n < |s| then s[..n] else s
  }

  function Items<T>(rows: seq<Entry<T>>): (r: seq<T>)
    ensures |r| == |rows| && forall i :: 0 <= i < |rows| ==> r[i] == rows[i].item
  {
    seq(|rows|, i requires 0 <= i < |rows| => rows[i].item)
  }

  lemma {:induction false} InsertElements<T(!new)>(order: Order, e: Entry<T>, rows: seq<Entry<T>>)
    ensures multiset(Insert(order, e, rows)) == multiset(rows) + multiset{e}
  {
    if rows == [] || Before(order, e.key, rows[0].key) {
    } else {
      InsertElements(order, e, rows[1..]);
      assert rows == [rows[0]] + rows[1..];
    }
  }

  lemma {:induction false} SortElements<T(!new)>(order: Order, rows: seq<Entry<T>>)
    ensures multiset(Sort(order, rows)) == multiset(rows)
    ensures |Sort(order, rows)| == |rows|
    ensures forall e :: e in Sort(order, rows) <==> e in rows
  {
    if rows != [] {
      SortElements(order, rows[1..]);
      InsertElements(order, rows[0], Sort(order, rows[1..]));
      assert rows == [rows[0]] + rows[1..];
    }
    SameMembers(Sort(order, rows), rows);
  }

  lemma SameMembers<T(!new)>(a: seq<T>, b: seq<T>)
    requires multiset(a) == multiset(b)
    ensures |a| == |b| && forall e :: e in a <==> e in b
  {
    assert |multiset(a)| == |multiset(b)|;
    forall e ensures e in a <==> e in b {
      assert e in multiset(a) <==> e in multiset(b);
    }
  }

  lemma {:induction false} InsertSorted<T(!new)>(order: Order, e: Entry<T>, rows: seq<Entry<T>>)
    requires Sorted(order, rows)
    requires forall r <- rows :: r.key != e.key
    ensures Sorted(order, Insert(order, e, rows))
  {
    if rows == [] {
    } else if Before(order, e.key, rows[0].key) {
      forall j | 0 < j < |rows| ensures Before(order, e.key, rows[j].key) {
        BeforeTrans(order, e.key, rows[0].key, rows[j].key);
      }
    } else {
      BeforeTotal(order, e.key, rows[0].key);
      var tail := Insert(order, e, rows[1..]);
      InsertSorted(order, e, rows[1..]);
      InsertElements(order, e, rows[1..]);
      forall x <- tail ensures Before(order, rows[0].key, x.key) {
        assert x in multiset(tail);
        if x != e {
          assert x in rows[1..];
        }
      }
    }
  }

  lemma {:induction false} SortSorted<T(!new)>(order: Order, rows: seq<Entry<T>>)
    requires Distinct(rows)
    ensures Sorted(order, Sort(order, rows))
  {
    if rows != [] {
      SortSorted(order, rows[1..]);
      SortElements(order, rows[1..]);
      InsertSorted(order, rows[0], Sort(order, rows[1..]));
    }
  }

  /** A strictly sorted list is determined by its elements: there is one `ORDER BY` result. */
  lemma {:induction false} SortedUnique<T(!new)>(order: Order, a: seq<Entry<T>>, b: seq<Entry<T>>)
    requires Sorted(order, a) && Sorted(order, b)
    requires forall e :: e in a <==> e in b
    ensures a == b
  {
    assert (a == [] || a[0] in a) && (b == [] || b[0] in b);
    if a != [] {
      HeadIsLeast(order, a, b[0]);
      HeadIsLeast(order, b, a[0]);
      BeforeTotal(order, a[0].key, b[0].key);
      TailElements(order, a);
      TailElements(order, b);
      SortedUnique(order, a[1..], b[1..]);
      assert a == [a[0]] + a[1..] && b == [b[0]] + b[1..];
    }
  }

  lemma HeadIsLeast<T(!new)>(order: Order, s: seq<Entry<T>>, e: Entry<T>)
    requires Sorted(order, s) && e in s
    ensures e == s[0] || Before(order, s[0].key, e.key)
  {
    var i :| 0 <= i < |s| && s[i] == e;
  }

  lemma TailElements<T(!new)>(order: Order, s: seq<Entry<T>>)
    requires Sorted(order, s) && s != []
    ensures forall e :: e in s[1..] <==> e in s && e != s[0]
  {
    BeforeTotal(order, s[0].key, s[0].key);
    forall e ensures e in s[1..] <==> e in s && e != s[0] {
      if e in s[1..] { var i :| 0 <= i < |s[1..]| && s[1..][i] == e; assert Before(order, s[0].key, s[i + 1].key); }
    }
  }

  // ----------------------------------------------------- sorting and the keyset condition

  lemma {:induction false} AfterElements<T(!new)>(order: Order, cursor: Option<Key>, rows: seq<Entry<T>>)
    ensures forall e :: e in After(order, cursor, rows)
                    <==> e in rows && (cursor.None? || Before(order, cursor.value, e.key))
    ensures |After(order, cursor, rows)| <= |rows|
  {
    if cursor.Some? && rows != [] { AfterElements(order, cursor, rows[1..]); }
  }

  lemma {:induction false} AfterDistinct<T(!new)>(order: Order, cursor: Option<Key>, rows: seq<Entry<T>>)
    requires Distinct(rows)
    ensures Distinct(After(order, cursor, rows))
  {
    if cursor.Some? && rows != [] {
      AfterDistinct(order, cursor, rows[1..]);
      AfterElements(order, cursor, rows[1..]);
      var tail := After(order, cursor, rows[1..]);
      forall e <- tail ensures e.key != rows[0].key {
        var i :| 0 <= i < |rows[1..]| && rows[1..][i] == e;
        assert rows[i + 1] == e;
      }
    }
  }

  lemma {:induction false} AfterSorted<T(!new)>(order: Order, cursor: Option<Key>, rows: seq<Entry<T>>)
    requires Sorted(order, rows)
    ensures Sorted(order, After(order, cursor, rows))
  {
    if cursor.Some? && rows != [] {
      AfterSorted(order, cursor, rows[1..]);
      AfterElements(order, cursor, rows[1..]);
      var tail := After(order, cursor, rows[1..]);
      forall e <- tail ensures Before(order, rows[0].key, e.key) {
        var i :| 0 <= i < |rows[1..]| && rows[1..][i] == e;
        assert rows[i + 1] == e;
      }
    }
  }

  /** Filtering before sorting, as SQL does, equals filtering the sorted list. */
  lemma SortAfter<T(!new)>(order: Order, cursor: Option<Key>, rows: seq<Entry<T>>)
    requires Distinct(rows)
    ensures Sort(order, After(order, cursor, rows)) == After(order, cursor, Sort(order, rows))
  {
    AfterDistinct(order, cursor, rows);
    SortSorted(order, rows);
    SortSorted(order, After(order, cursor, rows));
    AfterSorted(order, cursor, Sort(order, rows));
    SortElements(order, rows);
    SortElements(order, After(order, cursor, rows));
    AfterElements(order, cursor, rows);
    AfterElements(order, cursor, Sort(order, rows));
    SortedUnique(order, Sort(order, After(order, cursor, rows)), After(order, cursor, Sort(order, rows)));
  }

  /** Continuing after the key of row `i` of a sorted list leaves exactly the later rows. */
  lemma {:induction false} AfterIndex<T(!new)>(order: Order, rows: seq<Entry<T>>, i: nat)
    requires Sorted(order, rows) && i < |rows|
    ensures After(order, Some(rows[i].key), rows) == rows[i + 1..]
  {
    var c := Some(rows[i].key);
    BeforeTotal(order, c.value, rows[0].key);
    if i == 0 {
      AfterAll(order, c.value, rows[1..]);
    } else {
      AfterIndex(order, rows[1..], i - 1);
    }
  }

  lemma {:induction false} AfterAll<T(!new)>(order: Order, k: Key, rows: seq<Entry<T>>)
    requires forall e <- rows :: Before(order, k, e.key)
    ensures After(order, Some(k), rows) == rows
  {
    if rows != [] {
      AfterAll(order, k, rows[1..]);
      assert rows == [rows[0]] + rows[1..];
    }
  }

  // ---------------------------------------------------------------------- one page

  /** `SELECT ... WHERE key after cursor ORDER BY key LIMIT n`. */
  function Fetch<T>(order: Order, rows: seq<Entry<T>>, cursor: Option<Key>, n: nat): seq<Entry<T>> {
    Take(n, Sort(order, After(order, cursor, rows)))
  }

  /** What the row loop makes of the fetched rows. */
  function PageOf<T>(fetched: seq<Entry<T>>, limit: nat): Page<T>
    requires limit > 0
  {
    if |fetched| <= limit then Page(Items(fetched), None)
    else Page(Items(fetched[..limit]), Some(Print(fetched[limit - 1].key)))
  }

  /** The row loop of `list_threads`, `get_thread` and `get_follow_feed`. */
  method FillPage<T>(fetched: seq<Entry<T>>, limit: nat) returns (page: Page<T>)
    requires limit > 0
    ensures page == PageOf(fetched, limit)
  {
    var items: seq<T> := [];
    var nextCursor: Option<string> := None;
    var lastKey: Option<Key> := None;
    var i := 0;
    while i < |fetched|
      invariant 0 <= i <= |fetched| && i <= limit
      invariant items == Items(fetched[..i])
      invariant lastKey == if i == 0 then None else Some(fetched[i - 1].key)
      invariant nextCursor == None
    {
      if |items| == limit {
        if lastKey.Some? { nextCursor := Some(Print(lastKey.value)); }
        break;
      }
      lastKey := Some(fetched[i].key);
      items := items + [fetched[i].item];
      assert fetched[..i + 1] == fetched[..i] + [fetched[i]];
      i := i + 1;
    }
    assert i == |fetched| ==> fetched[..i] == fetched;
    return Page(items, nextCursor);
  }

  /** A whole tool call: parse the cursor, clamp the limit, fetch, fill. */
  function ListPage<T>(order: Order, rows: seq<Entry<T>>, cursor: Option<string>, limit: Option<nat>)
    : Result<Page<T>, CursorError>
  {
    match Parse(cursor)
    case Err(e) => Err(e)
    case Ok(after) => Ok(PageOf(Fetch(order, rows, after, ClampLimit(limit) + 1), ClampLimit(limit)))
  }

  // -------------------------------------------------------------- following cursors

  /** The items gathered by following `next` cursors, one limit per call; none if a call
      fails or the limits run out before a page comes without a cursor. */
  function Walk<T, E>(tool: (Option<string>, Option<nat>) -> Result<Page<T>, E>,
                      cursor: Option<string>, limits: seq<Option<nat>>): Option<seq<T>>
    decreases |limits|
  {
    if limits == [] then None
    else
      match tool(cursor, limits[0])
      case Err(_) => None
      case Ok(page) =>
        if page.next.None? then Some(page.items)
        else
          match Walk(tool, page.next, limits[1..])
          case None => None
          case Some(rest) => Some(page.items + rest)
  }

  /** What is still to come after a cursor, in order. */
  ghost function Remaining<T(!new)>(order: Order, rows: seq<Entry<T>>, after: Option<Key>): seq<Entry<T>> {
    After(order, after, Sort(order, rows))
  }

  /** One page takes a non-empty prefix of what remains, and its cursor points at the rest. */
  lemma PageStep<T(!new)>(order: Order, rows: seq<Entry<T>>, after: Option<Key>, limit: nat)
    requires Distinct(rows) && limit > 0
    ensures
      var left := Remaining(order, rows, after);
      var page := PageOf(Fetch(order, rows, after, limit + 1), limit);
      if |left| <= limit then page == Page(Items(left), None)
      else
        && page == Page(Items(left[..limit]), Some(Print(left[limit - 1].key)))
        && Remaining(order, rows, Some(left[limit - 1].key)) == left[limit..]
  {
    SortAfter(order, after, rows);
    var left := Remaining(order, rows, after);
    var fetched := Fetch(order, rows, after, limit + 1);
    if |left| > limit {
      assert fetched[..limit] == left[..limit];
      SortSorted(order, rows);
      SuffixStep(order, Sort(order, rows), after, limit - 1);
    }
  }

  lemma SuffixStep<T(!new)>(order: Order, sorted: seq<Entry<T>>, after: Option<Key>, i: nat)
    requires Sorted(order, sorted) && i < |After(order, after, sorted)|
    ensures
      var left := After(order, after, sorted);
      After(order, Some(left[i].key), sorted) == left[i + 1..]
  {
    var left := After(order, after, sorted);
    AfterSorted(order, after, sorted);
    AfterSorted(order, Some(left[i].key), sorted);
    AfterIndex(order, left, i);
    AfterElements(order, after, sorted);
    AfterElements(order, Some(left[i].key), sorted);
    AfterElements(order, Some(left[i].key), left);
    var a, b := After(order, Some(left[i].key), sorted), left[i + 1..];
    forall e ensures e in a <==> e in b {
      if e in a && after.Some? {
        assert left[i] in left;
        BeforeTrans(order, after.value, left[i].key, e.key);
      }
    }
    SortedUnique(order, a, b);
  }

  /** `tool` answers a well-formed call with the page of `rows` that `ListPage` computes. */
  ghost predicate Serves<T(!new), E(!new)>(tool: (Option<string>, Option<nat>) -> Result<Page<T>, E>,
                                           order: Order, rows: seq<Entry<T>>)
  {
    forall cursor, limit ::
      ListPage(order, rows, cursor, limit).Ok? ==> tool(cursor, limit) == Ok(ListPage(order, rows, cursor, limit).value)
  }

  lemma ItemsSplit<T>(rows: seq<Entry<T>>, n: nat)
    requires n <= |rows|
    ensures Items(rows) == Items(rows[..n]) + Items(rows[n..])
  {
  }

  lemma {:induction false} WalkFrom<T(!new), E(!new)>(
      order: Order, rows: seq<Entry<T>>, tool: (Option<string>, Option<nat>) -> Result<Page<T>, E>,
      cursor: Option<string>, after: Option<Key>, limits: seq<Option<nat>>)
    requires Distinct(rows) && Serves(tool, order, rows)
    requires Parse(cursor) == Ok(after)
    requires |limits| > |Remaining(order, rows, after)|
    ensures Walk(tool, cursor, limits) == Some(Items(Remaining(order, rows, after)))
    decreases |limits|
  {
    var left := Remaining(order, rows, after);
    var n := ClampLimit(limits[0]);
    PageStep(order, rows, after, n);
    var page := ListPage(order, rows, cursor, limits[0]).value;
    assert tool(cursor, limits[0]) == Ok(page);
    if |left| > n {
      var k := left[n - 1].key;
      CursorRoundTrip(k);
      WalkFrom(order, rows, tool, page.next, Some(k), limits[1..]);
      ItemsSplit(left, n);
    }
  }

  /** Following `next_cursor` from none until it is absent, with any limit on each call, ends
      after at most one call per row plus one, and yields exactly the matching rows in order:
      none missing, none repeated. */
  lemma WalkIsExact<T(!new), E(!new)>(
      order: Order, rows: seq<Entry<T>>, tool: (Option<string>, Option<nat>) -> Result<Page<T>, E>,
      limits: seq<Option<nat>>)
    requires Distinct(rows) && Serves(tool, order, rows)
    requires |limits| > |rows|
    ensures Walk(tool, None, limits) == Some(Items(Sort(order, rows)))
    ensures Sorted(order, Sort(order, rows)) && multiset(Sort(order, rows)) == multiset(rows)
  {
    SortElements(order, rows);
    SortSorted(order, rows);
    WalkFrom(order, rows, tool, None, None, limits);
  }
}
