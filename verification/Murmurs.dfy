/** `get_murmurs` (ansible_mcp/src/queries.rs): pagination with a visibility filter applied after
    only `3 * limit + 1` rows were fetched. Walking its cursors is complete exactly when, counted in
    positions of the sorted table, each page's window reaches the visible row after the page, that is,
    skips at most `2 * limit` invisible rows before it, and the last one reaches the last visible row. */
module Murmurs {
  import opened Wrappers
  import opened Cursor
  import opened Paging
  import opened Queries

  /** A row of `content_items`. */
  datatype ContentItem = ContentItem(itemId: string, authorDid: string, mode: string, title: Option<string>, body: string,
                                     createdAt: I64, visibility: string, localOnly: bool, isDeleted: bool)

  /** The same, joined with the author's contact. */
  datatype Murmur = Murmur(itemId: string, authorDid: string, mode: string, title: Option<string>, body: string,
                           createdAt: I64, visibility: string, localOnly: bool, isDeleted: bool, display: Option<string>)

  /** `LEFT JOIN contact_records`; contact ids are primary keys, so each item stays one row. */
  function Join(items: seq<ContentItem>, contacts: map<string, Option<string>>): (r: seq<Murmur>)
    ensures |r| == |items| && forall i :: 0 <= i < |items| ==> r[i].itemId == items[i].itemId
  {
    seq(|items|, i requires 0 <= i < |items| =>
      var c := items[i];
      Murmur(c.itemId, c.authorDid, c.mode, c.title, c.body, c.createdAt, c.visibility, c.localOnly, c.isDeleted,
             Display(contacts, c.authorDid)))
  }

  /** `murmur_visible` for a grant with these local author ids. */
  function VisibleTo(localDids: seq<string>): Murmur -> bool {
    (m: Murmur) => m.authorDid in localDids || (m.visibility != "private" && !m.localOnly)
  }

  function MurmurEntry(m: Murmur): Entry<Murmur> {
    Entry(Key(m.createdAt, m.itemId), m)
  }

  function LiveMurmur(m: Murmur): bool { !m.isDeleted && (m.mode == "murmur" || m.mode == "note") }

  function MurmurRows(items: seq<Murmur>): seq<Entry<Murmur>> {
    Select(items, LiveMurmur, MurmurEntry)
  }

  /** The visible rows, in the given order. */
  function Vis(vis: Murmur -> bool, rows: seq<Entry<Murmur>>): (r: seq<Entry<Murmur>>)
    ensures |r| <= |rows|
  {
    if rows == [] then []
    else (if vis(rows[0].item) then [rows[0]] else []) + Vis(vis, rows[1..])
  }

  function Window(n: nat): nat { 3 * n + 1 }

  function MurmursPage(vis: Murmur -> bool, rows: seq<Entry<Murmur>>, after: Option<Key>, n: nat): Page<Murmur>
    requires n > 0
  {
    PageOf(Vis(vis, Fetch(NewestFirst, rows, after, Window(n))), n)
  }

  function MurmursAnswer(items: seq<Murmur>, vis: Murmur -> bool, enabled: bool,
                         cursor: Option<string>, limit: Option<nat>): Result<Page<Murmur>, QueryError>
  {
    if !enabled then Err(ScopeDisabled("include_murmurs"))
    else
      match Parse(cursor)
      case Err(_) => Err(BadArgument("malformed cursor"))
      case Ok(after) => Ok(MurmursPage(vis, MurmurRows(items), after, ClampLimit(limit)))
  }

  /** The row loop, which skips invisible rows. */
  method FillVisiblePage(vis: Murmur -> bool, fetched: seq<Entry<Murmur>>, limit: nat) returns (page: Page<Murmur>)
    requires limit > 0
    ensures page == PageOf(Vis(vis, fetched), limit)
  {
    hide Vis, Items, PageOf, Print;
    var items: seq<Murmur> := [];
    var nextCursor: Option<string> := None;
    var lastKey: Option<Key> := None;
    ghost var shownRows := Vis(vis, fetched);
    PageOfPrefix(shownRows, limit);
    var i := 0;
    VisEnds(vis, fetched);
    while i < |fetched|
      invariant 0 <= i <= |fetched| && |items| <= |shownRows| && |items| <= limit
      invariant Vis(vis, fetched[i..]) == shownRows[|items|..]
      invariant items == Items(shownRows[..|items|])
      invariant lastKey == if items == [] then None else Some(shownRows[|items| - 1].key)
      invariant nextCursor == None
    {
      VisNext(vis, fetched, i);
      if vis(fetched[i].item) {
        assert fetched[i] == shownRows[|items|];
        if |items| == limit {
          if lastKey.Some? { nextCursor := Some(Print(lastKey.value)); }
          return Page(items, nextCursor);
        }
        lastKey := Some(fetched[i].key);
        ItemsSnoc(shownRows, |items|);
        items := items + [fetched[i].item];
      }
      i := i + 1;
    }
    return Page(items, nextCursor);
  }

  lemma VisEnds(vis: Murmur -> bool, rows: seq<Entry<Murmur>>)
    ensures rows[0..] == rows && Vis(vis, rows[|rows|..]) == []
    ensures Vis(vis, rows)[0..] == Vis(vis, rows) && Items(Vis(vis, rows)[..0]) == []
  {
  }

  lemma PageOfPrefix(rows: seq<Entry<Murmur>>, limit: nat)
    requires limit > 0
    ensures |rows| <= limit ==> PageOf(rows, limit) == Page(Items(rows[..|rows|]), None)
    ensures |rows| > limit ==> PageOf(rows, limit) == Page(Items(rows[..limit]), Some(Print(rows[limit - 1].key)))
  {
    assert rows[..|rows|] == rows;
  }

  lemma ItemsSnoc(rows: seq<Entry<Murmur>>, n: nat)
    requires n < |rows|
    ensures Items(rows[..n + 1]) == Items(rows[..n]) + [rows[n].item]
    ensures rows[n..][1..] == rows[n + 1..]
  {
  }

  lemma VisNext(vis: Murmur -> bool, rows: seq<Entry<Murmur>>, i: nat)
    requires i < |rows|
    ensures Vis(vis, rows[i..])
         == (if vis(rows[i].item) then [rows[i]] else []) + Vis(vis, rows[i + 1..])
  {
    assert rows[i..][1..] == rows[i + 1..];
  }

  method GetMurmurs(items: seq<ContentItem>, contacts: map<string, Option<string>>, localDids: seq<string>,
                    enabled: bool, cursor: Option<string>, limit: Option<nat>)
    returns (r: Result<Page<Murmur>, QueryError>)
    ensures r == MurmursAnswer(Join(items, contacts), VisibleTo(localDids), enabled, cursor, limit)
    ensures r.Ok? ==> enabled && forall x <- r.value.items :: exists c <- items :: MayShow(localDids, c) && ShownAs(contacts, c, x)
  {
    hide MurmurRows, Fetch, PageOf, Parse, Vis, Join, MayShow, ShownAs;
    if !enabled { return Err(ScopeDisabled("include_murmurs")); }
    var n := ClampLimit(limit);
    var after := Parse(cursor);
    if after.Err? { return Err(BadArgument("malformed cursor")); }
    OnlyShowable(items, contacts, localDids, cursor, limit);
    var page := FillVisiblePage(VisibleTo(localDids),
                                Fetch(NewestFirst, MurmurRows(Join(items, contacts)), after.value, n * 3 + 1), n);
    return Ok(page);
  }

  // ---------------------------------------------------------------------- visible rows

  lemma {:induction false} VisConcat(vis: Murmur -> bool, a: seq<Entry<Murmur>>, b: seq<Entry<Murmur>>)
    ensures Vis(vis, a + b) == Vis(vis, a) + Vis(vis, b)
  {
    if a == [] {
      assert a + b == b;
    } else {
      assert (a + b)[1..] == a[1..] + b && (a + b)[0] == a[0];
      VisConcat(vis, a[1..], b);
      var head := if vis(a[0].item) then [a[0]] else [];
      assert Vis(vis, a + b) == head + Vis(vis, a[1..] + b);
      Assoc(head, Vis(vis, a[1..]), Vis(vis, b));
    }
  }

  lemma Assoc(a: seq<Entry<Murmur>>, b: seq<Entry<Murmur>>, c: seq<Entry<Murmur>>)
    ensures a + (b + c) == (a + b) + c
  {
  }

  /** Where the `m`-th visible row sits. */
  lemma {:induction false} VisIndex(vis: Murmur -> bool, rows: seq<Entry<Murmur>>, m: nat) returns (j: nat)
    requires m < |Vis(vis, rows)|
    ensures j < |rows| && rows[j] == Vis(vis, rows)[m]
    ensures Vis(vis, rows[j + 1..]) == Vis(vis, rows)[m + 1..]
  {
    if vis(rows[0].item) && m == 0 {
      j := 0;
    } else {
      var step := if vis(rows[0].item) then 1 else 0;
      var k := VisIndex(vis, rows[1..], m - step);
      j := k + 1;
      assert rows[1..][k + 1..] == rows[j + 1..];
      assert Vis(vis, rows)[m + 1..] == Vis(vis, rows[1..])[m - step + 1..];
    }
  }

  // ------------------------------------------------------------------------- the walk

  function MurmursTool(items: seq<Murmur>, vis: Murmur -> bool)
    : (Option<string>, Option<nat>) -> Result<Page<Murmur>, QueryError>
  {
    (cursor, limit) => MurmursAnswer(items, vis, true, cursor, limit)
  }

  ghost function Left(items: seq<Murmur>, after: Option<Key>): seq<Entry<Murmur>> {
    Remaining(NewestFirst, MurmurRows(items), after)
  }

  /** No window on the way is starved: the first that shows at most `limit` visible rows, and so
      ends the walk, has no visible row behind it. */
  ghost predicate NeverStarved(items: seq<Murmur>, vis: Murmur -> bool, after: Option<Key>, limits: seq<Option<nat>>)
    decreases |limits|
  {
    limits != [] &&
    var n := ClampLimit(limits[0]);
    var left := Left(items, after);
    var seen := Vis(vis, Take(Window(n), left));
    if |seen| <= n then Vis(vis, left[|Take(Window(n), left)|..]) == []
    else NeverStarved(items, vis, Some(seen[n - 1].key), limits[1..])
  }

  lemma RowsOfMurmurs(items: seq<Murmur>)
    requires forall i, j :: 0 <= i < j < |items| ==> items[i].itemId != items[j].itemId
    ensures Distinct(MurmurRows(items))
  {
    SelectDistinct(items, LiveMurmur, MurmurEntry);
  }

  /** What one window shows is the front of what is still visible. */
  lemma MurmursWindow(items: seq<Murmur>, vis: Murmur -> bool, after: Option<Key>, n: nat)
    requires Distinct(MurmurRows(items)) && n > 0
    ensures
      var left := Left(items, after);
      var window := Take(Window(n), left);
      && MurmursPage(vis, MurmurRows(items), after, n) == PageOf(Vis(vis, window), n)
      && Vis(vis, left) == Vis(vis, window) + Vis(vis, left[|window|..])
  {
    var left := Left(items, after);
    var window := Take(Window(n), left);
    SortAfter(NewestFirst, after, MurmurRows(items));
    assert left == window + left[|window|..];
    VisConcat(vis, window, left[|window|..]);
  }

  /** The cursor of a full page leaves a suffix, which shows what the page did not. */
  lemma MurmursRest(items: seq<Murmur>, vis: Murmur -> bool, after: Option<Key>, n: nat) returns (j: nat)
    requires Distinct(MurmurRows(items)) && n > 0
    requires |Vis(vis, Take(Window(n), Left(items, after)))| > n
    ensures
      var left := Left(items, after);
      var seen := Vis(vis, Take(Window(n), left));
      && 0 < j <= |left|
      && Left(items, Some(seen[n - 1].key)) == left[j..]
      && Vis(vis, left) == seen[..n] + Vis(vis, left[j..])
  {
    hide Vis, PageOf, MurmurRows;
    MurmursWindow(items, vis, after, n);
    var left := Left(items, after);
    var seen := Vis(vis, Take(Window(n), left));
    var all := Vis(vis, left);
    assert all[n - 1] == seen[n - 1] && all[..n] == seen[..n];
    var i := VisIndex(vis, left, n - 1);
    SortSorted(NewestFirst, MurmurRows(items));
    SuffixStep(NewestFirst, Sort(NewestFirst, MurmurRows(items)), after, i);
    j := i + 1;
    assert all == all[..n] + all[n..];
  }

  lemma {:induction false} MurmursWalkFrom(items: seq<Murmur>, vis: Murmur -> bool,
                                           cursor: Option<string>, after: Option<Key>, limits: seq<Option<nat>>)
    requires Distinct(MurmurRows(items))
    requires Parse(cursor) == Ok(after)
    requires |limits| > |Left(items, after)|
    ensures Walk(MurmursTool(items, vis), cursor, limits).Some?
    ensures Walk(MurmursTool(items, vis), cursor, limits) == Some(Items(Vis(vis, Left(items, after))))
        <==> NeverStarved(items, vis, after, limits)
    decreases |limits|
  {
    hide Vis, Items, PageOf, Walk, Remaining, MurmurRows, Print, Parse;
    var n := ClampLimit(limits[0]);
    var left := Left(items, after);
    var window := Take(Window(n), left);
    var seen := Vis(vis, window);
    MurmursWindow(items, vis, after, n);
    PageOfPrefix(seen, n);
    assert seen[..|seen|] == seen;
    WalkStep(MurmursTool(items, vis), cursor, limits, PageOf(seen, n));
    if |seen| <= n {
      SameItemsOnlyIfEmpty(seen, Vis(vis, left[|window|..]));
    } else {
      var j := MurmursRest(items, vis, after, n);
      var k := seen[n - 1].key;
      CursorRoundTrip(k);
      MurmursWalkFrom(items, vis, Some(Print(k)), Some(k), limits[1..]);
      ItemsConcat(seen[..n], Vis(vis, left[j..]));
      var walked := Walk(MurmursTool(items, vis), Some(Print(k)), limits[1..]).value;
      CancelPrefix(Items(seen[..n]), walked, Items(Vis(vis, left[j..])));
    }
  }

  lemma WalkStep(tool: (Option<string>, Option<nat>) -> Result<Page<Murmur>, QueryError>,
                 cursor: Option<string>, limits: seq<Option<nat>>, page: Page<Murmur>)
    requires limits != [] && tool(cursor, limits[0]) == Ok(page)
    ensures page.next.None? ==> Walk(tool, cursor, limits) == Some(page.items)
    ensures page.next.Some? && Walk(tool, page.next, limits[1..]).Some? ==>
              Walk(tool, cursor, limits) == Some(page.items + Walk(tool, page.next, limits[1..]).value)
  {
  }

  lemma ItemsConcat(a: seq<Entry<Murmur>>, b: seq<Entry<Murmur>>)
    ensures Items(a + b) == Items(a) + Items(b)
  {
  }

  lemma SameItemsOnlyIfEmpty(a: seq<Entry<Murmur>>, b: seq<Entry<Murmur>>)
    ensures Items(a) == Items(a + b) <==> b == []
  {
    if b == [] { assert a + b == a; } else { assert |Items(a + b)| > |Items(a)|; }
  }

  lemma CancelPrefix(a: seq<Murmur>, b: seq<Murmur>, c: seq<Murmur>)
    ensures a + b == a + c <==> b == c
  {
    if a + b == a + c { assert b == (a + b)[|a|..] == (a + c)[|a|..] == c; }
  }

  // ------------------------------------------------------------- positions of the visible rows

  /** Where the visible rows sit, counting from `from`. */
  function Positions(vis: Murmur -> bool, rows: seq<Entry<Murmur>>, from: nat): (r: seq<nat>)
    ensures |r| == |Vis(vis, rows)|
    ensures forall k :: 0 <= k < |r| ==> from <= r[k] < from + |rows|
  {
    if rows == [] then []
    else (if vis(rows[0].item) then [from] else []) + Positions(vis, rows[1..], from + 1)
  }

  lemma {:induction false} PositionsIncrease(vis: Murmur -> bool, rows: seq<Entry<Murmur>>, from: nat)
    ensures forall i, j :: 0 <= i < j < |Positions(vis, rows, from)| ==>
              Positions(vis, rows, from)[i] < Positions(vis, rows, from)[j]
  {
    if rows != [] { PositionsIncrease(vis, rows[1..], from + 1); }
  }

  lemma FirstRow(vis: Murmur -> bool, rows: seq<Entry<Murmur>>, from: nat)
    requires rows != []
    ensures var head := if vis(rows[0].item) then [from] else [];
      Positions(vis, rows, from) == head + Positions(vis, rows[1..], from + 1)
    ensures Vis(vis, rows) == (if vis(rows[0].item) then [rows[0]] else []) + Vis(vis, rows[1..])
  {
  }

  /** The `m`-th visible row is the row at the `m`-th position, and what is visible behind it keeps its position. */
  lemma {:induction false} PositionOf(vis: Murmur -> bool, rows: seq<Entry<Murmur>>, from: nat, m: nat)
    requires m < |Vis(vis, rows)|
    ensures var j := Positions(vis, rows, from)[m] - from;
      && rows[j] == Vis(vis, rows)[m]
      && Positions(vis, rows[j + 1..], from + j + 1) == Positions(vis, rows, from)[m + 1..]
  {
    hide Positions, Vis;
    var p := Positions(vis, rows, from);
    if rows == [] {
      NothingVisible(vis);
    } else {
      FirstRow(vis, rows, from);
      var tail := Positions(vis, rows[1..], from + 1);
      if vis(rows[0].item) && m == 0 {
        assert p[1..] == tail;
      } else {
        var step := if vis(rows[0].item) then 1 else 0;
        PositionOf(vis, rows[1..], from + 1, m - step);
        var k := tail[m - step] - (from + 1);
        assert p[m] == tail[m - step];
        assert rows[1..][k + 1..] == rows[k + 2..];
        assert p[m + 1..] == tail[m - step + 1..];
      }
    }
  }

  lemma NothingVisible(vis: Murmur -> bool)
    ensures Vis(vis, []) == []
  {
  }

  /** A window shows more than `m` visible rows exactly when the position of row `m` lies in it. */
  lemma {:induction false} InWindow(vis: Murmur -> bool, rows: seq<Entry<Murmur>>, from: nat, w: nat, m: nat)
    ensures m < |Vis(vis, Take(w, rows))| <==> m < |Vis(vis, rows)| && Positions(vis, rows, from)[m] < from + w
  {
    hide Positions, Vis;
    if rows == [] || w == 0 {
      assert Take(w, rows) == [];
      NothingVisible(vis);
    } else {
      var window := Take(w, rows);
      assert window[1..] == Take(w - 1, rows[1..]) && window[0] == rows[0];
      FirstRow(vis, rows, from);
      FirstRow(vis, window, from);
      var step := if vis(rows[0].item) then 1 else 0;
      if m >= step { InWindow(vis, rows[1..], from + 1, w - 1, m - step); }
    }
  }

  /** Nothing is visible behind a window exactly when the last position lies in it. */
  lemma NothingBehind(vis: Murmur -> bool, rows: seq<Entry<Murmur>>, from: nat, w: nat)
    ensures Vis(vis, rows[|Take(w, rows)|..]) == [] <==>
              var p := Positions(vis, rows, from); p == [] || p[|p| - 1] < from + w
  {
    hide Positions;
    var window := Take(w, rows);
    assert rows == window + rows[|window|..];
    VisConcat(vis, window, rows[|window|..]);
    if Vis(vis, rows) != [] { InWindow(vis, rows, from, w, |Vis(vis, rows)| - 1); }
  }

  /** How many rows the first `i` pages take. */
  function Taken(limits: seq<Option<nat>>, i: nat): (n: nat)
    requires i <= |limits|
  {
    if i == 0 then 0 else ClampLimit(limits[0]) + Taken(limits[1..], i - 1)
  }

  /** The page of size `n` that begins behind visible row `c - 1` sees the visible row after the page, or else the
      last one: its position is at most `3n` rows after where the page begins. */
  predicate PageSees(pos: seq<nat>, c: nat, n: nat)
    requires c < |pos|
  {
    pos[if c + n < |pos| then c + n else |pos| - 1] <= Begins(pos, c) + 3 * n
  }

  function Begins(pos: seq<nat>, c: nat): nat
    requires c <= |pos|
  {
    if c == 0 then 0 else pos[c - 1] + 1
  }

  /** Every page that has something to show sees far enough; `c` visible rows were taken before. */
  ghost predicate PagesSee(pos: seq<nat>, c: nat, limits: seq<Option<nat>>) {
    forall i :: 0 <= i < |limits| && c + Taken(limits, i) < |pos| ==>
      PageSees(pos, c + Taken(limits, i), ClampLimit(limits[i]))
  }

  lemma PagesSeeStep(pos: seq<nat>, c: nat, limits: seq<Option<nat>>)
    requires limits != []
    ensures PagesSee(pos, c, limits) <==>
              (c < |pos| ==> PageSees(pos, c, ClampLimit(limits[0]))) && PagesSee(pos, c + ClampLimit(limits[0]), limits[1..])
  {
    hide PageSees;
    var n := ClampLimit(limits[0]);
    assert Taken(limits, 0) == 0;
    assert forall i :: 0 <= i < |limits[1..]| ==> Taken(limits, i + 1) == n + Taken(limits[1..], i) && limits[i + 1] == limits[1..][i];
    if PagesSee(pos, c, limits) {
      forall i | 0 <= i < |limits[1..]| && c + n + Taken(limits[1..], i) < |pos|
        ensures PageSees(pos, c + n + Taken(limits[1..], i), ClampLimit(limits[1..][i]))
      {
        assert PageSees(pos, c + Taken(limits, i + 1), ClampLimit(limits[i + 1]));
      }
    }
    if (c < |pos| ==> PageSees(pos, c, n)) && PagesSee(pos, c + n, limits[1..]) {
      forall i | 0 <= i < |limits| && c + Taken(limits, i) < |pos|
        ensures PageSees(pos, c + Taken(limits, i), ClampLimit(limits[i]))
      {
        if i > 0 { assert Taken(limits, (i - 1) + 1) == n + Taken(limits[1..], i - 1); }
      }
    }
  }

  lemma {:induction false} StarvedIff(items: seq<Murmur>, vis: Murmur -> bool, after: Option<Key>, limits: seq<Option<nat>>,
                                      pos: seq<nat>, c: nat)
    requires Distinct(MurmurRows(items)) && c <= |pos|
    requires Positions(vis, Left(items, after), Begins(pos, c)) == pos[c..]
    requires |limits| > |Left(items, after)|
    ensures NeverStarved(items, vis, after, limits) <==> PagesSee(pos, c, limits)
    decreases |limits|
  {
    hide Vis, Positions, MurmurRows, Remaining, PagesSee, PageSees;
    var n := ClampLimit(limits[0]);
    var left, from := Left(items, after), Begins(pos, c);
    var seen := Vis(vis, Take(Window(n), left));
    InWindow(vis, left, from, Window(n), n);
    NothingBehind(vis, left, from, Window(n));
    PagesSeeStep(pos, c, limits);
    if |seen| > n {
      assert pos[c..][n] == pos[c + n];
      FullPage(pos, c, n);
      NextWindow(items, vis, after, n, pos, c);
      StarvedIff(items, vis, Some(seen[n - 1].key), limits[1..], pos, c + n);
    } else {
      PastTheEnd(pos, c + n, limits[1..]);
      LastPage(vis, left, from, n, pos, c);
    }
  }

  lemma FullPage(pos: seq<nat>, c: nat, n: nat)
    requires c + n < |pos| && pos[c + n] < Begins(pos, c) + Window(n)
    ensures PageSees(pos, c, n)
  {
  }

  lemma PastTheEnd(pos: seq<nat>, c: nat, limits: seq<Option<nat>>)
    ensures c >= |pos| ==> PagesSee(pos, c, limits)
  {
  }

  /** A page that is not full: it ends the walk rightly exactly when it saw the last visible row. */
  lemma LastPage(vis: Murmur -> bool, left: seq<Entry<Murmur>>, from: nat, n: nat, pos: seq<nat>, c: nat)
    requires c <= |pos| && from == Begins(pos, c) && Positions(vis, left, from) == pos[c..] && n > 0
    requires |Vis(vis, Take(Window(n), left))| <= n
    ensures Vis(vis, left[|Take(Window(n), left)|..]) == [] <==>
              (c < |pos| ==> c + n >= |pos| && PageSees(pos, c, n))
    ensures c + n < |pos| ==> !PageSees(pos, c, n)
  {
    hide Vis, Positions;
    InWindow(vis, left, from, Window(n), n);
    NothingBehind(vis, left, from, Window(n));
    assert |pos[c..]| == |Vis(vis, left)|;
    if c + n < |pos| {
      assert pos[c..][n] == pos[c + n];
      PositionsIncrease(vis, left, from);
    }
  }

  /** Behind a full page the positions go on. */
  lemma NextWindow(items: seq<Murmur>, vis: Murmur -> bool, after: Option<Key>, n: nat, pos: seq<nat>, c: nat)
    requires Distinct(MurmurRows(items)) && n > 0 && c <= |pos|
    requires Positions(vis, Left(items, after), Begins(pos, c)) == pos[c..]
    requires |Vis(vis, Take(Window(n), Left(items, after)))| > n
    ensures var seen := Vis(vis, Take(Window(n), Left(items, after)));
      var rest := Left(items, Some(seen[n - 1].key));
      && c + n <= |pos| && |rest| < |Left(items, after)|
      && Positions(vis, rest, Begins(pos, c + n)) == pos[c + n..]
  {
    hide Vis, Positions, MurmurRows, MurmursPage, PageOf, Sort, Cursor.Before;
    var left, from := Left(items, after), Begins(pos, c);
    MurmursWindow(items, vis, after, n);
    var seen, all := Vis(vis, Take(Window(n), left)), Vis(vis, left);
    assert all[n - 1] == seen[n - 1];
    PositionOf(vis, left, from, n - 1);
    var j := Positions(vis, left, from)[n - 1] - from;
    assert pos[c..][n - 1] == pos[c + n - 1];
    SortSorted(NewestFirst, MurmurRows(items));
    SuffixStep(NewestFirst, Sort(NewestFirst, MurmurRows(items)), after, j);
    assert pos[c..][n..] == pos[c + n..];
  }

  /** Following the cursors always ends, and it yields every visible murmur, in order and once, if
      and only if every page sees far enough: the visible row that comes after its `n` rows, or the last one
      if fewer than that remain, lies at most `3n` rows after its beginning. */
  lemma MurmursWalkExactIff(items: seq<Murmur>, vis: Murmur -> bool, limits: seq<Option<nat>>)
    requires forall i, j :: 0 <= i < j < |items| ==> items[i].itemId != items[j].itemId
    requires |limits| > |items|
    ensures Walk(MurmursTool(items, vis), None, limits).Some?
    ensures Walk(MurmursTool(items, vis), None, limits)
              == Some(Items(Vis(vis, Sort(NewestFirst, MurmurRows(items)))))
        <==> PagesSee(Positions(vis, Sort(NewestFirst, MurmurRows(items)), 0), 0, limits)
  {
    hide Walk, PagesSee, NeverStarved, Items;
    NeverStarvedIsExact(items, vis, limits);
    RowsOfMurmurs(items);
    SortElements(NewestFirst, MurmurRows(items));
    SelectElements(items, LiveMurmur, MurmurEntry);
    StarvedIff(items, vis, None, limits, Positions(vis, Sort(NewestFirst, MurmurRows(items)), 0), 0);
  }

  /** The same with the windows that are read. */
  lemma NeverStarvedIsExact(items: seq<Murmur>, vis: Murmur -> bool, limits: seq<Option<nat>>)
    requires forall i, j :: 0 <= i < j < |items| ==> items[i].itemId != items[j].itemId
    requires |limits| > |items|
    ensures Walk(MurmursTool(items, vis), None, limits).Some?
    ensures Walk(MurmursTool(items, vis), None, limits)
              == Some(Items(Vis(vis, Sort(NewestFirst, MurmurRows(items)))))
        <==> NeverStarved(items, vis, None, limits)
  {
    RowsOfMurmurs(items);
    SortElements(NewestFirst, MurmurRows(items));
    SelectElements(items, LiveMurmur, MurmurEntry);
    MurmursWalkFrom(items, vis, None, None, limits);
  }

  /** If a full window of `3n + 1` rows starts at `p`, at most `2n` of them are invisible. */
  ghost predicate WindowShows(vis: Murmur -> bool, rows: seq<Entry<Murmur>>, p: nat, n: nat) {
    p + Window(n) <= |rows| ==> |Vis(vis, rows[p..p + Window(n)])| > n
  }

  ghost predicate Sparse(vis: Murmur -> bool, rows: seq<Entry<Murmur>>) {
    forall n: nat, p: nat :: 1 <= n <= MAX_PAGE ==> WindowShows(vis, rows, p, n)
  }

  lemma {:induction false} SparseNeverStarves(items: seq<Murmur>, vis: Murmur -> bool, after: Option<Key>,
                                              limits: seq<Option<nat>>)
    requires Distinct(MurmurRows(items)) && Sparse(vis, Left(items, after))
    requires |limits| > |Left(items, after)|
    ensures NeverStarved(items, vis, after, limits)
    decreases |limits|
  {
    var n := ClampLimit(limits[0]);
    var left := Left(items, after);
    var window := Take(Window(n), left);
    if Window(n) <= |left| {
      assert window == left[0..0 + Window(n)];
      assert WindowShows(vis, left, 0, n);
    } else {
      assert left[|window|..] == [];
    }
    if |Vis(vis, window)| > n {
      var j := MurmursRest(items, vis, after, n);
      SparseSuffix(vis, left, j);
      SparseNeverStarves(items, vis, Some(Vis(vis, window)[n - 1].key), limits[1..]);
    }
  }

  lemma SparseSuffix(vis: Murmur -> bool, rows: seq<Entry<Murmur>>, j: nat)
    requires Sparse(vis, rows) && j <= |rows|
    ensures Sparse(vis, rows[j..])
  {
    var rest := rows[j..];
    forall m: nat, p: nat | 1 <= m <= MAX_PAGE ensures WindowShows(vis, rest, p, m) {
      assert WindowShows(vis, rows, j + p, m);
      if p + Window(m) <= |rest| { assert rest[p..p + Window(m)] == rows[j + p..j + p + Window(m)]; }
    }
  }

  /** With at most `2 * limit` invisible rows in every window, the walk is complete. */
  lemma SparseWalkIsExact(items: seq<Murmur>, vis: Murmur -> bool, limits: seq<Option<nat>>)
    requires forall i, j :: 0 <= i < j < |items| ==> items[i].itemId != items[j].itemId
    requires |limits| > |items|
    requires Sparse(vis, Sort(NewestFirst, MurmurRows(items)))
    ensures Walk(MurmursTool(items, vis), None, limits)
         == Some(Items(Vis(vis, Sort(NewestFirst, MurmurRows(items)))))
  {
    RowsOfMurmurs(items);
    SortElements(NewestFirst, MurmurRows(items));
    SelectElements(items, LiveMurmur, MurmurEntry);
    SparseNeverStarves(items, vis, None, limits);
    NeverStarvedIsExact(items, vis, limits);
  }

  /** The failing family: with `3n + 1` invisible rows in front, the first page of size `n` is empty
      and has no cursor, however many visible rows follow. */
  lemma HiddenFront(items: seq<Murmur>, vis: Murmur -> bool, limit: Option<nat>)
    requires Distinct(MurmurRows(items))
    requires |MurmurRows(items)| >= Window(ClampLimit(limit))
    requires forall i :: 0 <= i < Window(ClampLimit(limit)) <= |Sort(NewestFirst, MurmurRows(items))| ==>
               !vis(Sort(NewestFirst, MurmurRows(items))[i].item)
    ensures MurmursAnswer(items, vis, true, None, limit) == Ok(Page([], None))
  {
    var n := ClampLimit(limit);
    SortElements(NewestFirst, MurmurRows(items));
    MurmursWindow(items, vis, None, n);
    var front := Take(Window(n), Left(items, None));
    AllHidden(vis, front);
  }

  lemma {:induction false} AllHidden(vis: Murmur -> bool, rows: seq<Entry<Murmur>>)
    requires forall r <- rows :: !vis(r.item)
    ensures Vis(vis, rows) == []
  {
    if rows != [] { AllHidden(vis, rows[1..]); }
  }

  // --------------------------------------------------------------------------- what is shown

  /** The item is an undeleted murmur or note, and either the user's own or neither private nor local-only. */
  ghost predicate MayShow(localDids: seq<string>, c: ContentItem) {
    && !c.isDeleted && (c.mode == "murmur" || c.mode == "note")
    && ((exists i :: 0 <= i < |localDids| && localDids[i] == c.authorDid) || (c.visibility != "private" && !c.localOnly))
  }

  ghost predicate ShownAs(contacts: map<string, Option<string>>, c: ContentItem, x: Murmur) {
    && x.itemId == c.itemId && x.authorDid == c.authorDid && x.mode == c.mode && x.title == c.title && x.body == c.body
    && x.createdAt == c.createdAt && x.visibility == c.visibility && x.localOnly == c.localOnly && x.isDeleted == c.isDeleted
    && x.display == if c.authorDid in contacts then contacts[c.authorDid] else None
  }

  /** A joined row that is live and visible is an item that may be shown. */
  lemma JoinedIff(items: seq<ContentItem>, contacts: map<string, Option<string>>, localDids: seq<string>, x: Murmur)
    ensures (x in Join(items, contacts) && LiveMurmur(x) && VisibleTo(localDids)(x))
       <==> exists c <- items :: MayShow(localDids, c) && ShownAs(contacts, c, x)
  {
    var joined := Join(items, contacts);
    if x in joined && LiveMurmur(x) && VisibleTo(localDids)(x) {
      var i :| 0 <= i < |joined| && joined[i] == x;
      assert items[i] in items && MayShow(localDids, items[i]) && ShownAs(contacts, items[i], x);
    }
    if c :| c in items && MayShow(localDids, c) && ShownAs(contacts, c, x) {
      var i :| 0 <= i < |items| && items[i] == c;
      assert joined[i] == x;
    }
  }

  lemma {:induction false} VisElements(vis: Murmur -> bool, rows: seq<Entry<Murmur>>)
    ensures forall e :: e in Vis(vis, rows) <==> e in rows && vis(e.item)
  {
    if rows != [] { VisElements(vis, rows[1..]); }
  }

  lemma RowIff(items: seq<Murmur>, e: Entry<Murmur>)
    ensures e in MurmurRows(items) <==> e.item in items && LiveMurmur(e.item) && e.key == Key(e.item.createdAt, e.item.itemId)
  {
    SelectElements(items, LiveMurmur, MurmurEntry);
  }

  lemma FetchedAreRows(rows: seq<Entry<Murmur>>, after: Option<Key>, n: nat)
    ensures forall e <- Fetch(NewestFirst, rows, after, n) :: e in rows
  {
    AfterElements(NewestFirst, after, rows);
    SortElements(NewestFirst, After(NewestFirst, after, rows));
  }

  /** Whatever the cursor and the limit, a page shows only items that may be shown. */
  lemma OnlyShowable(items: seq<ContentItem>, contacts: map<string, Option<string>>, localDids: seq<string>,
                     cursor: Option<string>, limit: Option<nat>)
    requires Parse(cursor).Ok?
    ensures var page := MurmursPage(VisibleTo(localDids), MurmurRows(Join(items, contacts)), Parse(cursor).value, ClampLimit(limit));
      forall x <- page.items :: exists c <- items :: MayShow(localDids, c) && ShownAs(contacts, c, x)
  {
    hide MurmurRows, Fetch, Parse, Vis, Join, MayShow, ShownAs, VisibleTo, LiveMurmur;
    var vis, rows := VisibleTo(localDids), MurmurRows(Join(items, contacts));
    var fetched := Fetch(NewestFirst, rows, Parse(cursor).value, Window(ClampLimit(limit)));
    var seen := Vis(vis, fetched);
    VisElements(vis, fetched);
    FetchedAreRows(rows, Parse(cursor).value, Window(ClampLimit(limit)));
    var page := MurmursPage(vis, rows, Parse(cursor).value, ClampLimit(limit));
    forall x <- page.items ensures exists c <- items :: MayShow(localDids, c) && ShownAs(contacts, c, x) {
      var i :| 0 <= i < |page.items| && page.items[i] == x;
      assert seen[i] in seen && seen[i].item == x;
      RowIff(Join(items, contacts), seen[i]);
      JoinedIff(items, contacts, localDids, x);
    }
  }

  // ------------------------------------------------------------------- hidden content does not matter

  /** A row without what is hidden in it: only its place stays. */
  function Blind(vis: Murmur -> bool, e: Entry<Murmur>): Entry<Option<Murmur>> {
    Entry(e.key, if vis(e.item) then Some(e.item) else None)
  }

  function Blinds(vis: Murmur -> bool, rows: seq<Entry<Murmur>>): (r: seq<Entry<Option<Murmur>>>)
    ensures |r| == |rows| && forall i :: 0 <= i < |rows| ==> r[i] == Blind(vis, rows[i])
  {
    seq(|rows|, i requires 0 <= i < |rows| => Blind(vis, rows[i]))
  }

  /** The two tables have the same visible rows, and hidden rows in the same places. */
  ghost predicate SameToReader(vis: Murmur -> bool, a: seq<Murmur>, b: seq<Murmur>) {
    forall e: Entry<Option<Murmur>> :: InBlind(vis, a, e) <==> InBlind(vis, b, e)
  }

  /** Some live row of the table looks like this to the reader. */
  ghost predicate InBlind(vis: Murmur -> bool, items: seq<Murmur>, e: Entry<Option<Murmur>>) {
    exists m <- items :: LiveMurmur(m) && Blind(vis, MurmurEntry(m)) == e
  }

  lemma BlindElements(vis: Murmur -> bool, items: seq<Murmur>, after: Option<Key>, e: Entry<Option<Murmur>>)
    ensures e in Blinds(vis, Sort(NewestFirst, After(NewestFirst, after, MurmurRows(items))))
       <==> InBlind(vis, items, e) && (after.None? || Before(NewestFirst, after.value, e.key))
  {
    hide Sort, After, Cursor.Before;
    var rows := MurmurRows(items);
    var left := After(NewestFirst, after, rows);
    var sorted := Sort(NewestFirst, left);
    AfterElements(NewestFirst, after, rows);
    SortElements(NewestFirst, left);
    SelectElements(items, LiveMurmur, MurmurEntry);
    if e in Blinds(vis, sorted) {
      var i :| 0 <= i < |sorted| && Blind(vis, sorted[i]) == e;
      assert sorted[i] in sorted;
    }
    if InBlind(vis, items, e) && (after.None? || Before(NewestFirst, after.value, e.key)) {
      var m :| m in items && LiveMurmur(m) && Blind(vis, MurmurEntry(m)) == e;
      assert MurmurEntry(m) in sorted;
      var i :| 0 <= i < |sorted| && sorted[i] == MurmurEntry(m);
      assert Blinds(vis, sorted)[i] == e;
    }
  }

  /** The reader's view of what is fetched is the same. */
  lemma SameBlinds(vis: Murmur -> bool, a: seq<Murmur>, b: seq<Murmur>, after: Option<Key>)
    requires Distinct(MurmurRows(a)) && Distinct(MurmurRows(b)) && SameToReader(vis, a, b)
    ensures Blinds(vis, Sort(NewestFirst, After(NewestFirst, after, MurmurRows(a))))
         == Blinds(vis, Sort(NewestFirst, After(NewestFirst, after, MurmurRows(b))))
  {
    hide Sort, After, InBlind, MurmurRows, Cursor.Before;
    var sa := Sort(NewestFirst, After(NewestFirst, after, MurmurRows(a)));
    var sb := Sort(NewestFirst, After(NewestFirst, after, MurmurRows(b)));
    AfterDistinct(NewestFirst, after, MurmurRows(a));
    AfterDistinct(NewestFirst, after, MurmurRows(b));
    SortSorted(NewestFirst, After(NewestFirst, after, MurmurRows(a)));
    SortSorted(NewestFirst, After(NewestFirst, after, MurmurRows(b)));
    forall e ensures e in Blinds(vis, sa) <==> e in Blinds(vis, sb) {
      BlindElements(vis, a, after, e);
      BlindElements(vis, b, after, e);
    }
    SortedUnique(NewestFirst, Blinds(vis, sa), Blinds(vis, sb));
  }

  lemma {:induction false} SameVis(vis: Murmur -> bool, a: seq<Entry<Murmur>>, b: seq<Entry<Murmur>>)
    requires Blinds(vis, a) == Blinds(vis, b)
    ensures Vis(vis, a) == Vis(vis, b)
  {
    assert |a| == |Blinds(vis, a)| == |b|;
    if a != [] {
      assert Blind(vis, a[0]) == Blinds(vis, a)[0] == Blinds(vis, b)[0] == Blind(vis, b[0]);
      assert Blinds(vis, a[1..]) == Blinds(vis, a)[1..] == Blinds(vis, b)[1..] == Blinds(vis, b[1..]);
      SameVis(vis, a[1..], b[1..]);
    }
  }

  /** Two tables with the same visible rows and with hidden rows in the same places get the same answer to every
      call, whatever the hidden rows contain. */
  lemma HiddenContentIrrelevant(a: seq<Murmur>, b: seq<Murmur>, vis: Murmur -> bool, enabled: bool,
                                cursor: Option<string>, limit: Option<nat>)
    requires Distinct(MurmurRows(a)) && Distinct(MurmurRows(b)) && SameToReader(vis, a, b)
    ensures MurmursAnswer(a, vis, enabled, cursor, limit) == MurmursAnswer(b, vis, enabled, cursor, limit)
  {
    hide Sort, After, Vis, MurmurRows, PageOf, SameToReader;
    if Parse(cursor).Ok? {
      var after, w := Parse(cursor).value, Window(ClampLimit(limit));
      var sa := Sort(NewestFirst, After(NewestFirst, after, MurmurRows(a)));
      var sb := Sort(NewestFirst, After(NewestFirst, after, MurmurRows(b)));
      SameBlinds(vis, a, b, after);
      assert |sa| == |Blinds(vis, sa)| == |sb|;
      forall i | 0 <= i < |Take(w, sa)| ensures Blinds(vis, Take(w, sa))[i] == Blinds(vis, Take(w, sb))[i] {
        assert Blinds(vis, sa)[i] == Blinds(vis, sb)[i];
      }
      assert Blinds(vis, Take(w, sa)) == Blinds(vis, Take(w, sb));
      SameVis(vis, Take(w, sa), Take(w, sb));
    }
  }

  // ---------------------------------------------------------------------------- the whole listing

  /** Exactly the items that may be shown, newest first, equal times by id. */
  ghost predicate MurmurListing(items: seq<ContentItem>, contacts: map<string, Option<string>>, localDids: seq<string>,
                                listed: seq<Murmur>)
  {
    && (forall x :: x in listed <==> exists c <- items :: MayShow(localDids, c) && ShownAs(contacts, c, x))
    && (forall i, j :: 0 <= i < j < |listed| ==>
          listed[i].createdAt > listed[j].createdAt
          || (listed[i].createdAt == listed[j].createdAt && LexLess(listed[i].itemId, listed[j].itemId)))
  }

  lemma {:induction false} VisSorted(vis: Murmur -> bool, rows: seq<Entry<Murmur>>)
    requires Sorted(NewestFirst, rows)
    ensures Sorted(NewestFirst, Vis(vis, rows))
  {
    if rows != [] {
      VisSorted(vis, rows[1..]);
      VisElements(vis, rows[1..]);
      forall e <- Vis(vis, rows[1..]) ensures Before(NewestFirst, rows[0].key, e.key) {
        var i :| 0 <= i < |rows[1..]| && rows[1..][i] == e;
        assert rows[i + 1] == e;
      }
    }
  }

  lemma MurmursListed(items: seq<ContentItem>, contacts: map<string, Option<string>>, localDids: seq<string>)
    requires Distinct(MurmurRows(Join(items, contacts)))
    ensures MurmurListing(items, contacts, localDids,
                          Items(Vis(VisibleTo(localDids), Sort(NewestFirst, MurmurRows(Join(items, contacts))))))
  {
    hide Sort, Vis, Join, MurmurRows, MayShow, ShownAs, VisibleTo, LiveMurmur;
    var joined := Join(items, contacts);
    var vis, rows := VisibleTo(localDids), MurmurRows(joined);
    var sorted := Sort(NewestFirst, rows);
    var seen := Vis(vis, sorted);
    var listed := Items(seen);
    SortElements(NewestFirst, rows);
    SortSorted(NewestFirst, rows);
    VisElements(vis, sorted);
    VisSorted(vis, sorted);
    forall x ensures x in listed <==> exists c <- items :: MayShow(localDids, c) && ShownAs(contacts, c, x) {
      JoinedIff(items, contacts, localDids, x);
      var e := Entry(Key(x.createdAt, x.itemId), x);
      RowIff(joined, e);
      if x in listed {
        var i :| 0 <= i < |listed| && listed[i] == x;
        assert seen[i] in seen;
        RowIff(joined, seen[i]);
      }
      if e in seen {
        var i :| 0 <= i < |seen| && seen[i] == e;
        assert listed[i] == x;
      }
    }
    forall i, j | 0 <= i < j < |listed|
      ensures listed[i].createdAt > listed[j].createdAt
              || (listed[i].createdAt == listed[j].createdAt && LexLess(listed[i].itemId, listed[j].itemId))
    {
      assert seen[i] in seen && seen[j] in seen;
      RowIff(joined, seen[i]);
      RowIff(joined, seen[j]);
      assert Before(NewestFirst, seen[i].key, seen[j].key);
    }
  }

  /** With at most `2 * limit` items that must stay hidden in every window, walking `get_murmurs` lists exactly the
      items that may be shown, once and in order. */
  lemma SparseWalkLists(items: seq<ContentItem>, contacts: map<string, Option<string>>, localDids: seq<string>,
                        limits: seq<Option<nat>>)
    requires forall i, j :: 0 <= i < j < |items| ==> items[i].itemId != items[j].itemId
    requires |limits| > |items|
    requires Sparse(VisibleTo(localDids), Sort(NewestFirst, MurmurRows(Join(items, contacts))))
    ensures var walked := Walk(MurmursTool(Join(items, contacts), VisibleTo(localDids)), None, limits);
      walked.Some? && MurmurListing(items, contacts, localDids, walked.value)
  {
    hide Sort, Vis, MurmurRows, Walk, Sparse, MurmurListing, VisibleTo, Items;
    RowsOfMurmurs(Join(items, contacts));
    SparseWalkIsExact(Join(items, contacts), VisibleTo(localDids), limits);
    MurmursListed(items, contacts, localDids);
  }

  /** `get_murmurs` refuses exactly when the grant leaves it out or the cursor is malformed. */
  lemma MurmursRefuses(items: seq<Murmur>, vis: Murmur -> bool, enabled: bool, cursor: Option<string>, limit: Option<nat>)
    ensures var r := MurmursAnswer(items, vis, enabled, cursor, limit);
      && (r == Err(ScopeDisabled("include_murmurs")) <==> !enabled)
      && (r == Err(BadArgument("malformed cursor")) <==> enabled && Parse(cursor).Err?)
      && (r.Ok? <==> enabled && Parse(cursor).Ok?)
  {
  }
}
