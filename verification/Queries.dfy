/** The granted-scope queries over the local database (ansible_mcp/src/queries.rs).

    Tables are lists of rows with unique primary keys; the SQL predicates are written out as
    functions. Each tool has a specification (`...Answer`) and a method in the source's form. */
module Queries {
  import opened Wrappers
  import opened Cursor
  import opened Paging

  // ------------------------------------------------------------------------ database

  datatype Board = Board(boardId: string, isDeleted: bool)
  datatype Thread = Thread(threadId: string, boardId: string, title: string, authorId: string,
                           createdAt: I64, updatedAt: I64, isDeleted: bool)
  datatype Post = Post(postId: string, threadId: string, boardId: string, parentPostId: Option<string>,
                       authorId: string, content: string, createdAt: I64, signatureVerified: bool, isDeleted: bool)
  datatype Follow = Follow(targetType: string, did: Option<string>, boardId: Option<string>,
                           direction: string, status: string, targetDeleted: bool)
  datatype Host = Host(name: string, compliance: Option<string>)

  datatype Database = Database(
    boards: seq<Board>, threads: seq<Thread>, posts: seq<Post>,
    follows: seq<Follow>, contacts: map<string, Option<string>>, hosts: map<string, Host>)

  /** Primary keys. */
  ghost predicate Keyed(db: Database) {
    && (forall i, j :: 0 <= i < j < |db.threads| ==> db.threads[i].threadId != db.threads[j].threadId)
    && (forall i, j :: 0 <= i < j < |db.posts| ==> db.posts[i].postId != db.posts[j].postId)
  }

  /** Each post is filed under the board of its thread. */
  ghost predicate FiledWithThread(db: Database) {
    forall t <- db.threads, p <- db.posts :: p.threadId == t.threadId ==> p.boardId == t.boardId
  }

  // --------------------------------------------------------------------- board scope

  datatype BoardScope = All | Ids(ids: seq<string>)

  predicate Allows(scope: BoardScope, boardId: string) {
    match scope
    case All => true
    case Ids(ids) => boardId in ids
  }

  /** SQL truth values. */
  datatype Truth = True | False | Unknown

  function Or3(a: Truth, b: Truth): Truth {
    if a.True? || b.True? then True else if a.Unknown? || b.Unknown? then Unknown else False
  }

  /** `value = element`; comparing with NULL is unknown. */
  function Equal3(value: string, element: Option<string>): Truth {
    if element.None? then Unknown else if element.value == value then True else False
  }

  /** `value IN (elements)`. */
  function In3(value: string, elements: seq<Option<string>>): Truth {
    if elements == [] then False else Or3(Equal3(value, elements[0]), In3(value, elements[1..]))
  }

  /** The condition `board_scope_filter` appends: nothing, `IN (NULL)` or `IN (ids)`. */
  function ScopeCondition(scope: BoardScope, boardId: string): Truth {
    match scope
    case All => True
    case Ids(ids) => if ids == [] then In3(boardId, [None]) else In3(boardId, Bound(ids))
  }

  function Bound(ids: seq<string>): seq<Option<string>> {
    seq(|ids|, i requires 0 <= i < |ids| => Some(ids[i]))
  }

  lemma {:induction false} InBound(value: string, ids: seq<string>)
    ensures In3(value, Bound(ids)) == if value in ids then True else False
  {
    if ids != [] {
      InBound(value, ids[1..]);
      assert Bound(ids)[1..] == Bound(ids[1..]);
    }
  }

  /** `WHERE` keeps a row only when its condition is true, and so the SQL filter keeps exactly
      the boards that `BoardScope::allows` lets through; an empty list keeps none. */
  lemma ScopeFilterIsAllows(scope: BoardScope, boardId: string)
    ensures ScopeCondition(scope, boardId).True? <==> Allows(scope, boardId)
  {
    if scope.Ids? {
      InBound(boardId, scope.ids);
      var none: seq<Option<string>> := [None];
      assert none[1..] == [];
    }
  }

  // ----------------------------------------------------------------------- selection

  function Select<R, T>(rows: seq<R>, keep: R -> bool, entry: R -> Entry<T>): seq<Entry<T>> {
    if rows == [] then []
    else (if keep(rows[0]) then [entry(rows[0])] else []) + Select(rows[1..], keep, entry)
  }

  lemma {:induction false} SelectElements<R(!new), T(!new)>(rows: seq<R>, keep: R -> bool, entry: R -> Entry<T>)
    ensures forall e :: e in Select(rows, keep, entry) <==> exists r <- rows :: keep(r) && entry(r) == e
    ensures |Select(rows, keep, entry)| <= |rows|
  {
    if rows != [] {
      SelectElements(rows[1..], keep, entry);
      var tail := Select(rows[1..], keep, entry);
      forall e ensures e in Select(rows, keep, entry) <==> exists r <- rows :: keep(r) && entry(r) == e {
        if e in tail {
          var r :| r in rows[1..] && keep(r) && entry(r) == e;
          assert r in rows;
        }
        if r :| r in rows && keep(r) && entry(r) == e {
          assert r == rows[0] || r in rows[1..];
        }
      }
    }
  }

  lemma {:induction false} SelectDistinct<R(!new), T(!new)>(rows: seq<R>, keep: R -> bool, entry: R -> Entry<T>)
    requires forall i, j :: 0 <= i < j < |rows| ==> entry(rows[i]).key != entry(rows[j]).key
    ensures Distinct(Select(rows, keep, entry))
  {
    if rows != [] {
      SelectDistinct(rows[1..], keep, entry);
      SelectElements(rows[1..], keep, entry);
      var tail := Select(rows[1..], keep, entry);
      forall e <- tail ensures e.key != entry(rows[0]).key {
        var r :| r in rows[1..] && keep(r) && entry(r) == e;
        var i :| 0 <= i < |rows[1..]| && rows[1..][i] == r;
        assert rows[i + 1] == r;
      }
    }
  }

  /** A page depends only on which rows match, not on how the table lists them. */
  lemma ListPageCongruence<T(!new)>(order: Order, a: seq<Entry<T>>, b: seq<Entry<T>>,
                                    cursor: Option<string>, limit: Option<nat>)
    requires Distinct(a) && Distinct(b) && forall e :: e in a <==> e in b
    ensures ListPage(order, a, cursor, limit) == ListPage(order, b, cursor, limit)
  {
    if Parse(cursor).Ok? {
      var after := Parse(cursor).value;
      AfterElements(order, after, a);
      AfterElements(order, after, b);
      AfterDistinct(order, after, a);
      AfterDistinct(order, after, b);
      SortElements(order, After(order, after, a));
      SortElements(order, After(order, after, b));
      SortSorted(order, After(order, after, a));
      SortSorted(order, After(order, after, b));
      SortedUnique(order, Sort(order, After(order, after, a)), Sort(order, After(order, after, b)));
    }
  }

  /** `ORDER BY` lists exactly the kept rows. */
  lemma ListedIff<R(!new), T(!new)>(order: Order, rows: seq<R>, keep: R -> bool, entry: R -> Entry<T>, x: T)
    ensures x in Items(Sort(order, Select(rows, keep, entry))) <==> exists r <- rows :: keep(r) && entry(r).item == x
  {
    var selected := Select(rows, keep, entry);
    var sorted := Sort(order, selected);
    var listed := Items(sorted);
    SelectElements(rows, keep, entry);
    SortElements(order, selected);
    if x in listed {
      var i :| 0 <= i < |listed| && listed[i] == x;
      assert sorted[i] in sorted;
      var r :| r in rows && keep(r) && entry(r) == sorted[i];
    }
    if r :| r in rows && keep(r) && entry(r).item == x {
      assert entry(r) in sorted;
      var i :| 0 <= i < |sorted| && sorted[i] == entry(r);
      assert listed[i] == x;
    }
  }

  /** It lists them strictly by their keys. */
  lemma ListedInOrder<R(!new), T(!new)>(order: Order, rows: seq<R>, keep: R -> bool, entry: R -> Entry<T>, i: nat, j: nat)
      returns (a: R, b: R)
    requires Distinct(Select(rows, keep, entry)) && i < j < |Items(Sort(order, Select(rows, keep, entry)))|
    ensures var listed := Items(Sort(order, Select(rows, keep, entry)));
      entry(a).item == listed[i] && entry(b).item == listed[j] && Before(order, entry(a).key, entry(b).key)
  {
    var sorted := Sort(order, Select(rows, keep, entry));
    SelectElements(rows, keep, entry);
    SortElements(order, Select(rows, keep, entry));
    SortSorted(order, Select(rows, keep, entry));
    assert sorted[i] in sorted && sorted[j] in sorted;
    a :| a in rows && keep(a) && entry(a) == sorted[i];
    b :| b in rows && keep(b) && entry(b) == sorted[j];
  }

  // --------------------------------------------------------------------------- tools

  datatype Kind = ABoard | AThread
  datatype QueryError = NotFound(kind: Kind, id: string) | BadArgument(message: string) | ScopeDisabled(scope: string)

  datatype ThreadItem = ThreadItem(threadId: string, title: string, authorDid: string, createdAt: I64, updatedAt: I64)
  datatype Details =
    | InThread(postId: string, parentPostId: Option<string>, body: string)
    | InFeed(postId: string, threadId: string, boardId: string, body: string)
  datatype Envelope = Envelope(authorDid: string, display: Option<string>, createdAt: I64, verified: bool,
                               origin: Option<Host>, details: Details)
  datatype ThreadView = ThreadView(threadId: string, boardId: string, title: string, authorDid: string,
                                   createdAt: I64, origin: Option<Host>, posts: Page<Envelope>)

  function Lookup<K, V>(m: map<K, V>, k: K): Option<V> {
    if k in m then Some(m[k]) else None
  }

  function Display(contacts: map<string, Option<string>>, did: string): Option<string> {
    if did in contacts then contacts[did] else None
  }

  function ThreadEntry(t: Thread): Entry<ThreadItem> {
    Entry(Key(t.updatedAt, t.threadId), ThreadItem(t.threadId, t.title, t.authorId, t.createdAt, t.updatedAt))
  }

  /** A post as `get_thread` shows it: its origin is the host of the thread's board. */
  function ThreadPost(contacts: map<string, Option<string>>, origin: Option<Host>): Post -> Entry<Envelope> {
    (p: Post) => Entry(Key(p.createdAt, p.postId),
                       Envelope(p.authorId, Display(contacts, p.authorId), p.createdAt, p.signatureVerified, origin,
                                InThread(p.postId, p.parentPostId, p.content)))
  }

  /** A post as `get_follow_feed` shows it: its origin is the host of its own board. */
  function FeedPost(contacts: map<string, Option<string>>, hosts: map<string, Host>): Post -> Entry<Envelope> {
    (p: Post) => Entry(Key(p.createdAt, p.postId),
                       Envelope(p.authorId, Display(contacts, p.authorId), p.createdAt, p.signatureVerified,
                                Lookup(hosts, p.boardId), InFeed(p.postId, p.threadId, p.boardId, p.content)))
  }

  predicate BoardExists(db: Database, boardId: string) {
    exists b <- db.boards :: b.boardId == boardId && !b.isDeleted
  }

  function OnBoard(boardId: string): Thread -> bool {
    (t: Thread) => t.boardId == boardId && !t.isDeleted
  }

  function OfThread(threadId: string): Post -> bool {
    (p: Post) => p.threadId == threadId && !p.isDeleted
  }

  function ThreadRows(db: Database, boardId: string): seq<Entry<ThreadItem>> {
    Select(db.threads, OnBoard(boardId), ThreadEntry)
  }

  function PostRows(db: Database, threadId: string, boardId: string): seq<Entry<Envelope>> {
    Select(db.posts, OfThread(threadId),
           ThreadPost(db.contacts, Lookup(db.hosts, boardId)))
  }

  /** The live thread with this id. */
  function FindThread(threads: seq<Thread>, threadId: string): Option<Thread> {
    if threads == [] then None
    else if threads[0].threadId == threadId && !threads[0].isDeleted then Some(threads[0])
    else FindThread(threads[1..], threadId)
  }

  function FromPage<T>(page: Result<Page<T>, CursorError>): Result<Page<T>, QueryError> {
    match page
    case Ok(p) => Ok(p)
    case Err(_) => Err(BadArgument("malformed cursor"))
  }

  function ListThreadsAnswer(db: Database, scope: BoardScope, boardId: string,
                             cursor: Option<string>, limit: Option<nat>): Result<Page<ThreadItem>, QueryError>
  {
    if !Allows(scope, boardId) || !BoardExists(db, boardId) then Err(NotFound(ABoard, boardId))
    else FromPage(ListPage(NewestFirst, ThreadRows(db, boardId), cursor, limit))
  }

  function GetThreadAnswer(db: Database, scope: BoardScope, threadId: string,
                           cursor: Option<string>, limit: Option<nat>): Result<ThreadView, QueryError>
  {
    match FindThread(db.threads, threadId)
    case None => Err(NotFound(AThread, threadId))
    case Some(t) =>
      if !Allows(scope, t.boardId) then Err(NotFound(AThread, threadId))
      else
        match ListPage(OldestFirst, PostRows(db, threadId, t.boardId), cursor, limit)
        case Err(_) => Err(BadArgument("malformed cursor"))
        case Ok(page) => Ok(ThreadView(t.threadId, t.boardId, t.title, t.authorId, t.createdAt,
                                       Lookup(db.hosts, t.boardId), page))
  }

  // --------------------------------------------------------------------- follow feed

  predicate Accepted(f: Follow) {
    f.direction == "outbound" && f.status == "accepted" && !f.targetDeleted
  }

  function FollowedDid(f: Follow): seq<string> {
    if Accepted(f) && f.targetType == "user" && f.did.Some? then [f.did.value] else []
  }

  function FollowedBoard(f: Follow, scope: BoardScope): seq<string> {
    if Accepted(f) && f.targetType == "board" && f.boardId.Some? && Allows(scope, f.boardId.value)
    then [f.boardId.value] else []
  }

  function FollowedDids(follows: seq<Follow>): seq<string> {
    if follows == [] then [] else FollowedDid(follows[0]) + FollowedDids(follows[1..])
  }

  /** Followed boards that are still inside the granted scope. */
  function FollowedBoards(follows: seq<Follow>, scope: BoardScope): seq<string> {
    if follows == [] then [] else FollowedBoard(follows[0], scope) + FollowedBoards(follows[1..], scope)
  }

  function FeedRows(db: Database, scope: BoardScope): seq<Entry<Envelope>> {
    var dids, boards := FollowedDids(db.follows), FollowedBoards(db.follows, scope);
    Select(db.posts, Feeds(dids, boards, scope), FeedPost(db.contacts, db.hosts))
  }

  function Feeds(dids: seq<string>, boards: seq<string>, scope: BoardScope): Post -> bool {
    (p: Post) => !p.isDeleted && (p.authorId in dids || p.boardId in boards)
                 && ScopeCondition(scope, p.boardId).True?
  }

  function FollowFeedAnswer(db: Database, scope: BoardScope, enabled: bool,
                            cursor: Option<string>, limit: Option<nat>): Result<Page<Envelope>, QueryError>
  {
    if !enabled then Err(ScopeDisabled("include_follow_feed"))
    else if Parse(cursor).Err? then Err(BadArgument("malformed cursor"))
    else if FollowedDids(db.follows) == [] && FollowedBoards(db.follows, scope) == [] then Ok(Page([], None))
    else FromPage(ListPage(NewestFirst, FeedRows(db, scope), cursor, limit))
  }

  /** An accepted outbound follow of a target that still exists, of this author or of this board. */
  ghost predicate Follows(db: Database, authorId: string, boardId: string) {
    exists f <- db.follows ::
      && f.direction == "outbound" && f.status == "accepted" && !f.targetDeleted
      && ((f.targetType == "user" && f.did == Some(authorId)) || (f.targetType == "board" && f.boardId == Some(boardId)))
  }

  ghost predicate Granted(scope: BoardScope, boardId: string) {
    scope == All || (scope.Ids? && exists i :: 0 <= i < |scope.ids| && scope.ids[i] == boardId)
  }

  lemma {:induction false} FollowedDidsAre(follows: seq<Follow>, did: string)
    ensures did in FollowedDids(follows) <==>
      exists f <- follows :: f.direction == "outbound" && f.status == "accepted" && !f.targetDeleted
                             && f.targetType == "user" && f.did == Some(did)
  {
    if follows != [] { FollowedDidsAre(follows[1..], did); }
  }

  lemma {:induction false} FollowedBoardsAre(follows: seq<Follow>, scope: BoardScope, boardId: string)
    ensures boardId in FollowedBoards(follows, scope) <==>
      Granted(scope, boardId)
      && exists f <- follows :: f.direction == "outbound" && f.status == "accepted" && !f.targetDeleted
                                && f.targetType == "board" && f.boardId == Some(boardId)
  {
    if follows != [] { FollowedBoardsAre(follows[1..], scope, boardId); }
  }

  /** The feed is made of the undeleted posts on granted boards by followed authors or on followed boards. */
  lemma FeedsIff(db: Database, scope: BoardScope, p: Post)
    ensures Feeds(FollowedDids(db.follows), FollowedBoards(db.follows, scope), scope)(p)
       <==> !p.isDeleted && Granted(scope, p.boardId) && Follows(db, p.authorId, p.boardId)
  {
    ScopeFilterIsAllows(scope, p.boardId);
    FollowedDidsAre(db.follows, p.authorId);
    FollowedBoardsAre(db.follows, scope, p.boardId);
  }

  // ------------------------------------------------------------ the tools as procedures

  method RequireBoardInScope(db: Database, scope: BoardScope, boardId: string) returns (error: Option<QueryError>)
    ensures error.None? <==> Allows(scope, boardId) && BoardExists(db, boardId)
    ensures error.Some? ==> error.value == NotFound(ABoard, boardId)
  {
    if !Allows(scope, boardId) { return Some(NotFound(ABoard, boardId)); }
    if !BoardExists(db, boardId) { return Some(NotFound(ABoard, boardId)); }
    return None;
  }

  method ListThreads(db: Database, scope: BoardScope, boardId: string, cursor: Option<string>, limit: Option<nat>)
    returns (r: Result<Page<ThreadItem>, QueryError>)
    ensures r == ListThreadsAnswer(db, scope, boardId, cursor, limit)
  {
    hide ThreadRows, BoardExists, Fetch, PageOf, Parse, Allows;
    var error := RequireBoardInScope(db, scope, boardId);
    if error.Some? { return Err(error.value); }
    var n := ClampLimit(limit);
    var after := Parse(cursor);
    if after.Err? { return Err(BadArgument("malformed cursor")); }
    var page := FillPage(Fetch(NewestFirst, ThreadRows(db, boardId), after.value, n + 1), n);
    return Ok(page);
  }

  method GetThread(db: Database, scope: BoardScope, threadId: string, cursor: Option<string>, limit: Option<nat>)
    returns (r: Result<ThreadView, QueryError>)
    ensures r == GetThreadAnswer(db, scope, threadId, cursor, limit)
  {
    hide PostRows, FindThread, Fetch, PageOf, Parse, Allows;
    var found := FindThread(db.threads, threadId);
    if found.None? { return Err(NotFound(AThread, threadId)); }
    var t := found.value;
    if !Allows(scope, t.boardId) { return Err(NotFound(AThread, threadId)); }
    var n := ClampLimit(limit);
    var after := Parse(cursor);
    if after.Err? { return Err(BadArgument("malformed cursor")); }
    var page := FillPage(Fetch(OldestFirst, PostRows(db, threadId, t.boardId), after.value, n + 1), n);
    return Ok(ThreadView(t.threadId, t.boardId, t.title, t.authorId, t.createdAt, Lookup(db.hosts, t.boardId), page));
  }

  /** One follow edge, sorted into the two lists. */
  method ReadFollow(f: Follow, scope: BoardScope) returns (did: seq<string>, board: seq<string>)
    ensures did == FollowedDid(f) && board == FollowedBoard(f, scope)
  {
    did, board := [], [];
    if Accepted(f) {
      if f.targetType == "user" {
        assert f.targetType != "board";
        if f.did.Some? { did := [f.did.value]; }
      } else if f.targetType == "board" {
        if f.boardId.Some? && Allows(scope, f.boardId.value) { board := [f.boardId.value]; }
      }
    }
  }

  lemma {:induction false} DidsSnoc(follows: seq<Follow>, f: Follow)
    ensures FollowedDids(follows + [f]) == FollowedDids(follows) + FollowedDid(f)
  {
    if follows == [] {
      assert (follows + [f])[1..] == [];
    } else {
      assert (follows + [f])[1..] == follows[1..] + [f];
      DidsSnoc(follows[1..], f);
    }
  }

  lemma {:induction false} BoardsSnoc(follows: seq<Follow>, f: Follow, scope: BoardScope)
    ensures FollowedBoards(follows + [f], scope) == FollowedBoards(follows, scope) + FollowedBoard(f, scope)
  {
    if follows == [] {
      assert (follows + [f])[1..] == [];
    } else {
      assert (follows + [f])[1..] == follows[1..] + [f];
      BoardsSnoc(follows[1..], f, scope);
    }
  }

  /** The loop that reads the follow edges. */
  method CollectFollows(follows: seq<Follow>, scope: BoardScope) returns (dids: seq<string>, boards: seq<string>)
    ensures dids == FollowedDids(follows) && boards == FollowedBoards(follows, scope)
  {
    dids, boards := [], [];
    for i := 0 to |follows|
      invariant dids == FollowedDids(follows[..i]) && boards == FollowedBoards(follows[..i], scope)
    {
      var did, board := ReadFollow(follows[i], scope);
      DidsSnoc(follows[..i], follows[i]);
      BoardsSnoc(follows[..i], follows[i], scope);
      assert follows[..i + 1] == follows[..i] + [follows[i]];
      dids, boards := dids + did, boards + board;
    }
    assert follows[..|follows|] == follows;
  }

  method GetFollowFeed(db: Database, scope: BoardScope, enabled: bool, cursor: Option<string>, limit: Option<nat>)
    returns (r: Result<Page<Envelope>, QueryError>)
    ensures r == FollowFeedAnswer(db, scope, enabled, cursor, limit)
  {
    hide FeedRows, Fetch, PageOf, Parse, FollowedDids, FollowedBoards;
    if !enabled { return Err(ScopeDisabled("include_follow_feed")); }
    var n := ClampLimit(limit);
    var after := Parse(cursor);
    if after.Err? { return Err(BadArgument("malformed cursor")); }
    var dids, boards := CollectFollows(db.follows, scope);
    if dids == [] && boards == [] { return Ok(Page([], None)); }
    var page := FillPage(Fetch(NewestFirst, FeedRows(db, scope), after.value, n + 1), n);
    return Ok(page);
  }

  // ------------------------------------------------------------- pagination of the tools

  lemma RowsDistinct(db: Database, scope: BoardScope, boardId: string, threadId: string)
    requires Keyed(db)
    ensures Distinct(ThreadRows(db, boardId)) && Distinct(PostRows(db, threadId, boardId)) && Distinct(FeedRows(db, scope))
  {
    SelectDistinct(db.threads, OnBoard(boardId), ThreadEntry);
    SelectDistinct(db.posts, OfThread(threadId),
                   ThreadPost(db.contacts, Lookup(db.hosts, boardId)));
    var dids, boards := FollowedDids(db.follows), FollowedBoards(db.follows, scope);
    SelectDistinct(db.posts, Feeds(dids, boards, scope), FeedPost(db.contacts, db.hosts));
  }

  function ThreadsTool(db: Database, scope: BoardScope, boardId: string)
    : (Option<string>, Option<nat>) -> Result<Page<ThreadItem>, QueryError>
  {
    (cursor, limit) => ListThreadsAnswer(db, scope, boardId, cursor, limit)
  }

  function PostsTool(db: Database, scope: BoardScope, threadId: string)
    : (Option<string>, Option<nat>) -> Result<Page<Envelope>, QueryError>
  {
    (cursor, limit) =>
      match GetThreadAnswer(db, scope, threadId, cursor, limit)
      case Ok(view) => Ok(view.posts)
      case Err(e) => Err(e)
  }

  function FeedTool(db: Database, scope: BoardScope)
    : (Option<string>, Option<nat>) -> Result<Page<Envelope>, QueryError>
  {
    (cursor, limit) => FollowFeedAnswer(db, scope, true, cursor, limit)
  }

  /** Exactly the live threads of the board, latest update first, equal times by id. */
  ghost predicate ThreadListing(db: Database, boardId: string, listed: seq<ThreadItem>) {
    && (forall x :: x in listed <==>
          exists t <- db.threads :: t.boardId == boardId && !t.isDeleted
            && x == ThreadItem(t.threadId, t.title, t.authorId, t.createdAt, t.updatedAt))
    && (forall i, j :: 0 <= i < j < |listed| ==>
          listed[i].updatedAt > listed[j].updatedAt
          || (listed[i].updatedAt == listed[j].updatedAt && LexLess(listed[i].threadId, listed[j].threadId)))
  }

  lemma ThreadsListed(db: Database, boardId: string)
    requires Distinct(ThreadRows(db, boardId))
    ensures ThreadListing(db, boardId, Items(Sort(NewestFirst, ThreadRows(db, boardId))))
  {
    hide Sort, Select, Items;
    var listed := Items(Sort(NewestFirst, ThreadRows(db, boardId)));
    forall x ensures x in listed <==>
      exists t <- db.threads :: t.boardId == boardId && !t.isDeleted
        && x == ThreadItem(t.threadId, t.title, t.authorId, t.createdAt, t.updatedAt)
    {
      ListedIff(NewestFirst, db.threads, OnBoard(boardId), ThreadEntry, x);
    }
    forall i, j | 0 <= i < j < |listed|
      ensures listed[i].updatedAt > listed[j].updatedAt
              || (listed[i].updatedAt == listed[j].updatedAt && LexLess(listed[i].threadId, listed[j].threadId))
    {
      var a, b := ListedInOrder(NewestFirst, db.threads, OnBoard(boardId), ThreadEntry, i, j);
    }
  }

  /** A post as shown, with its author's contact and the origin of a board. */
  ghost predicate Shows(db: Database, x: Envelope, p: Post, originBoard: string) {
    && x.authorDid == p.authorId && x.createdAt == p.createdAt && x.verified == p.signatureVerified
    && x.display == (if p.authorId in db.contacts then db.contacts[p.authorId] else None)
    && x.origin == (if originBoard in db.hosts then Some(db.hosts[originBoard]) else None)
  }

  /** Exactly the live posts of the thread, oldest first, equal times by id. */
  ghost predicate PostListing(db: Database, threadId: string, boardId: string, listed: seq<Envelope>) {
    && (forall x :: x in listed <==>
          exists p <- db.posts :: p.threadId == threadId && !p.isDeleted && Shows(db, x, p, boardId)
            && x.details == InThread(p.postId, p.parentPostId, p.content))
    && (forall i, j :: 0 <= i < j < |listed| ==>
          listed[i].createdAt < listed[j].createdAt
          || (listed[i].createdAt == listed[j].createdAt && LexLess(listed[i].details.postId, listed[j].details.postId)))
  }

  lemma PostsListed(db: Database, threadId: string, boardId: string)
    requires Distinct(PostRows(db, threadId, boardId))
    ensures PostListing(db, threadId, boardId, Items(Sort(OldestFirst, PostRows(db, threadId, boardId))))
  {
    hide Sort, Select, Items;
    var listed := Items(Sort(OldestFirst, PostRows(db, threadId, boardId)));
    var entry := ThreadPost(db.contacts, Lookup(db.hosts, boardId));
    forall x ensures x in listed <==>
      exists p <- db.posts :: p.threadId == threadId && !p.isDeleted && Shows(db, x, p, boardId)
        && x.details == InThread(p.postId, p.parentPostId, p.content)
    {
      ListedIff(OldestFirst, db.posts, OfThread(threadId), entry, x);
    }
    forall i, j | 0 <= i < j < |listed|
      ensures listed[i].createdAt < listed[j].createdAt
              || (listed[i].createdAt == listed[j].createdAt && LexLess(listed[i].details.postId, listed[j].details.postId))
    {
      var a, b := ListedInOrder(OldestFirst, db.posts, OfThread(threadId), entry, i, j);
    }
  }

  /** Exactly the feed's posts, newest first, equal times by id. */
  ghost predicate FeedListing(db: Database, scope: BoardScope, listed: seq<Envelope>) {
    && (forall x :: x in listed <==>
          exists p <- db.posts :: !p.isDeleted && Granted(scope, p.boardId) && Follows(db, p.authorId, p.boardId)
            && Shows(db, x, p, p.boardId) && x.details == InFeed(p.postId, p.threadId, p.boardId, p.content))
    && (forall i, j :: 0 <= i < j < |listed| ==>
          listed[i].createdAt > listed[j].createdAt
          || (listed[i].createdAt == listed[j].createdAt && LexLess(listed[i].details.postId, listed[j].details.postId)))
  }

  lemma FeedListed(db: Database, scope: BoardScope)
    requires Distinct(FeedRows(db, scope))
    ensures FeedListing(db, scope, Items(Sort(NewestFirst, FeedRows(db, scope))))
  {
    hide Sort, Select, Items, Feeds, FollowedDids, FollowedBoards, Follows, Granted;
    var listed := Items(Sort(NewestFirst, FeedRows(db, scope)));
    var keep, entry := Feeds(FollowedDids(db.follows), FollowedBoards(db.follows, scope), scope), FeedPost(db.contacts, db.hosts);
    forall p: Post ensures keep(p) <==> !p.isDeleted && Granted(scope, p.boardId) && Follows(db, p.authorId, p.boardId) {
      FeedsIff(db, scope, p);
    }
    forall x ensures x in listed <==>
      exists p <- db.posts :: !p.isDeleted && Granted(scope, p.boardId) && Follows(db, p.authorId, p.boardId)
        && Shows(db, x, p, p.boardId) && x.details == InFeed(p.postId, p.threadId, p.boardId, p.content)
    {
      ListedIff(NewestFirst, db.posts, keep, entry, x);
    }
    forall i, j | 0 <= i < j < |listed|
      ensures listed[i].createdAt > listed[j].createdAt
              || (listed[i].createdAt == listed[j].createdAt && LexLess(listed[i].details.postId, listed[j].details.postId))
    {
      var a, b := ListedInOrder(NewestFirst, db.posts, keep, entry, i, j);
    }
  }

  /** Walking `list_threads` gathers every live thread of the board once, newest first. */
  lemma ListThreadsWalk(db: Database, scope: BoardScope, boardId: string, limits: seq<Option<nat>>)
    requires Keyed(db) && Allows(scope, boardId) && BoardExists(db, boardId)
    requires |limits| > |ThreadRows(db, boardId)|
    ensures Walk(ThreadsTool(db, scope, boardId), None, limits)
         == Some(Items(Sort(NewestFirst, ThreadRows(db, boardId))))
    ensures ThreadListing(db, boardId, Items(Sort(NewestFirst, ThreadRows(db, boardId))))
  {
    RowsDistinct(db, scope, boardId, "");
    ThreadsListed(db, boardId);
    WalkIsExact(NewestFirst, ThreadRows(db, boardId), ThreadsTool(db, scope, boardId), limits);
  }

  /** Walking `get_thread` gathers every live post of the thread once, oldest first. */
  lemma GetThreadWalk(db: Database, scope: BoardScope, threadId: string, limits: seq<Option<nat>>)
    requires Keyed(db)
    requires FindThread(db.threads, threadId).Some? && Allows(scope, FindThread(db.threads, threadId).value.boardId)
    requires |limits| > |PostRows(db, threadId, FindThread(db.threads, threadId).value.boardId)|
    ensures Walk(PostsTool(db, scope, threadId), None, limits)
         == Some(Items(Sort(OldestFirst, PostRows(db, threadId, FindThread(db.threads, threadId).value.boardId))))
    ensures var boardId := FindThread(db.threads, threadId).value.boardId;
      PostListing(db, threadId, boardId, Items(Sort(OldestFirst, PostRows(db, threadId, boardId))))
  {
    var boardId := FindThread(db.threads, threadId).value.boardId;
    RowsDistinct(db, scope, boardId, threadId);
    PostsListed(db, threadId, boardId);
    WalkIsExact(OldestFirst, PostRows(db, threadId, boardId), PostsTool(db, scope, threadId), limits);
  }

  lemma {:induction false} NoFollowsNoFeed(posts: seq<Post>, keep: Post -> bool, entry: Post -> Entry<Envelope>)
    requires forall p <- posts :: !keep(p)
    ensures Select(posts, keep, entry) == []
  {
    if posts != [] { NoFollowsNoFeed(posts[1..], keep, entry); }
  }

  lemma FeedServes(db: Database, scope: BoardScope)
    requires !(FollowedDids(db.follows) == [] && FollowedBoards(db.follows, scope) == [])
    ensures Serves(FeedTool(db, scope), NewestFirst, FeedRows(db, scope))
  {
  }

  lemma EmptyFeedWalk(db: Database, scope: BoardScope, limits: seq<Option<nat>>)
    requires FollowedDids(db.follows) == [] && FollowedBoards(db.follows, scope) == [] && limits != []
    ensures Walk(FeedTool(db, scope), None, limits) == Some([])
    ensures FeedRows(db, scope) == []
  {
    assert FeedTool(db, scope)(None, limits[0]) == Ok(Page([], None));
    NoFollowsNoFeed(db.posts, Feeds([], [], scope), FeedPost(db.contacts, db.hosts));
  }

  /** Walking `get_follow_feed` gathers every matching post once, newest first. */
  lemma FollowFeedWalk(db: Database, scope: BoardScope, limits: seq<Option<nat>>)
    requires Keyed(db)
    requires |limits| > |FeedRows(db, scope)|
    ensures Walk(FeedTool(db, scope), None, limits) == Some(Items(Sort(NewestFirst, FeedRows(db, scope))))
    ensures FeedListing(db, scope, Items(Sort(NewestFirst, FeedRows(db, scope))))
  {
    hide FeedRows, FeedTool, Walk, FeedListing;
    RowsDistinct(db, scope, "", "");
    FeedListed(db, scope);
    if FollowedDids(db.follows) == [] && FollowedBoards(db.follows, scope) == [] {
      EmptyFeedWalk(db, scope, limits);
    } else {
      FeedServes(db, scope);
      WalkIsExact(NewestFirst, FeedRows(db, scope), FeedTool(db, scope), limits);
    }
  }

  // ------------------------------------------------------------------------ refusals and heads

  lemma {:induction false} FindThreadSpec(threads: seq<Thread>, threadId: string)
    ensures
      match FindThread(threads, threadId)
      case Some(t) => t in threads && t.threadId == threadId && !t.isDeleted
      case None => forall t <- threads :: t.threadId != threadId || t.isDeleted
  {
    if threads != [] { FindThreadSpec(threads[1..], threadId); }
  }

  /** `list_threads` knows exactly the granted boards that exist, and refuses exactly the malformed cursors. */
  lemma ListThreadsRefuses(db: Database, scope: BoardScope, boardId: string, cursor: Option<string>, limit: Option<nat>)
    ensures var r := ListThreadsAnswer(db, scope, boardId, cursor, limit);
      var known := Granted(scope, boardId) && exists b <- db.boards :: b.boardId == boardId && !b.isDeleted;
      && (r == Err(NotFound(ABoard, boardId)) <==> !known)
      && (r == Err(BadArgument("malformed cursor")) <==> known && Parse(cursor).Err?)
      && (r.Ok? <==> known && Parse(cursor).Ok?)
  {
  }

  /** The thread exists, undeleted, on a granted board. */
  ghost predicate Readable(db: Database, scope: BoardScope, threadId: string, t: Thread) {
    t in db.threads && t.threadId == threadId && !t.isDeleted && Granted(scope, t.boardId)
  }

  lemma FindReadable(db: Database, scope: BoardScope, threadId: string)
    requires Keyed(db)
    ensures var found := FindThread(db.threads, threadId);
      && (found.Some? && Allows(scope, found.value.boardId) ==> Readable(db, scope, threadId, found.value))
      && (forall t :: Readable(db, scope, threadId, t) ==> found == Some(t) && Allows(scope, t.boardId))
  {
    FindThreadSpec(db.threads, threadId);
    forall t | Readable(db, scope, threadId, t)
      ensures FindThread(db.threads, threadId) == Some(t) && Allows(scope, t.boardId)
    {
      OneThread(db, t, FindThread(db.threads, threadId).value);
    }
  }

  /** `get_thread` knows exactly the undeleted threads on granted boards, and shows that thread's own head. */
  lemma GetThreadRefuses(db: Database, scope: BoardScope, threadId: string, cursor: Option<string>, limit: Option<nat>)
    requires Keyed(db)
    ensures var r := GetThreadAnswer(db, scope, threadId, cursor, limit);
      var known := exists t :: Readable(db, scope, threadId, t);
      && (r == Err(NotFound(AThread, threadId)) <==> !known)
      && (r == Err(BadArgument("malformed cursor")) <==> known && Parse(cursor).Err?)
      && (r.Ok? <==> known && Parse(cursor).Ok?)
    ensures forall t :: Readable(db, scope, threadId, t) && Parse(cursor).Ok? ==>
      var view := GetThreadAnswer(db, scope, threadId, cursor, limit).value;
      && view.threadId == threadId && view.boardId == t.boardId && view.title == t.title && view.authorDid == t.authorId
      && view.createdAt == t.createdAt && view.origin == if t.boardId in db.hosts then Some(db.hosts[t.boardId]) else None
  {
    hide FindThread, Readable;
    FindReadable(db, scope, threadId);
    assert forall t :: Readable(db, scope, threadId, t) ==> t.threadId == threadId by { ReadableId(db, scope, threadId); }
  }

  lemma ReadableId(db: Database, scope: BoardScope, threadId: string)
    ensures forall t :: Readable(db, scope, threadId, t) ==> t.threadId == threadId
  {
  }

  lemma OneThread(db: Database, t: Thread, u: Thread)
    requires Keyed(db) && t in db.threads && u in db.threads && t.threadId == u.threadId
    ensures t == u
  {
    var i :| 0 <= i < |db.threads| && db.threads[i] == t;
    var j :| 0 <= j < |db.threads| && db.threads[j] == u;
  }

  /** `get_follow_feed` refuses exactly when the grant leaves it out or the cursor is malformed. */
  lemma FollowFeedRefuses(db: Database, scope: BoardScope, enabled: bool, cursor: Option<string>, limit: Option<nat>)
    ensures var r := FollowFeedAnswer(db, scope, enabled, cursor, limit);
      && (r == Err(ScopeDisabled("include_follow_feed")) <==> !enabled)
      && (r == Err(BadArgument("malformed cursor")) <==> enabled && Parse(cursor).Err?)
      && (r.Ok? <==> enabled && Parse(cursor).Ok?)
  {
  }

  // -------------------------------------------------------------- scope non-interference

  /** The two databases agree on everything filed under a granted board and on the follow,
      contact and host tables; elsewhere they may differ arbitrarily. */
  ghost predicate AgreeInScope(a: Database, b: Database, scope: BoardScope) {
    && a.follows == b.follows && a.contacts == b.contacts && a.hosts == b.hosts
    && (forall r: Board :: Allows(scope, r.boardId) ==> (r in a.boards <==> r in b.boards))
    && (forall r: Thread :: Allows(scope, r.boardId) ==> (r in a.threads <==> r in b.threads))
    && (forall r: Post :: Allows(scope, r.boardId) ==> (r in a.posts <==> r in b.posts))
  }

  lemma SelectCongruence<R(!new), T(!new)>(a: seq<R>, b: seq<R>, keep: R -> bool, entry: R -> Entry<T>)
    requires forall r :: keep(r) ==> (r in a <==> r in b)
    ensures forall e :: e in Select(a, keep, entry) <==> e in Select(b, keep, entry)
  {
    SelectElements(a, keep, entry);
    SelectElements(b, keep, entry);
  }

  /** `list_threads` reveals nothing about boards outside the grant, whatever board is named. */
  lemma ListThreadsScoped(a: Database, b: Database, scope: BoardScope, boardId: string,
                          cursor: Option<string>, limit: Option<nat>)
    requires Keyed(a) && Keyed(b) && AgreeInScope(a, b, scope)
    ensures ListThreadsAnswer(a, scope, boardId, cursor, limit) == ListThreadsAnswer(b, scope, boardId, cursor, limit)
  {
    if Allows(scope, boardId) {
      RowsDistinct(a, scope, boardId, "");
      RowsDistinct(b, scope, boardId, "");
      SelectCongruence(a.threads, b.threads, OnBoard(boardId), ThreadEntry);
      ListPageCongruence(NewestFirst, ThreadRows(a, boardId), ThreadRows(b, boardId), cursor, limit);
    }
  }

  lemma FindThreadAgrees(a: Database, b: Database, scope: BoardScope, threadId: string)
    requires Keyed(a) && Keyed(b) && AgreeInScope(a, b, scope)
    requires FindThread(a.threads, threadId).Some? && Allows(scope, FindThread(a.threads, threadId).value.boardId)
    ensures FindThread(b.threads, threadId) == FindThread(a.threads, threadId)
  {
    FindThreadSpec(a.threads, threadId);
    FindThreadSpec(b.threads, threadId);
    var t := FindThread(a.threads, threadId).value;
    assert t in b.threads;
  }

  /** `get_thread` reveals nothing about threads outside the grant, whatever id is named. */
  lemma GetThreadScoped(a: Database, b: Database, scope: BoardScope, threadId: string,
                        cursor: Option<string>, limit: Option<nat>)
    requires Keyed(a) && Keyed(b) && AgreeInScope(a, b, scope)
    requires FiledWithThread(a) && FiledWithThread(b)
    ensures GetThreadAnswer(a, scope, threadId, cursor, limit) == GetThreadAnswer(b, scope, threadId, cursor, limit)
  {
    var ta, tb := FindThread(a.threads, threadId), FindThread(b.threads, threadId);
    if ta.Some? && Allows(scope, ta.value.boardId) {
      FindThreadAgrees(a, b, scope, threadId);
      FindThreadSpec(a.threads, threadId);
      var boardId := ta.value.boardId;
      PostRowsAgree(a, b, scope, ta.value);
      RowsDistinct(a, scope, boardId, threadId);
      RowsDistinct(b, scope, boardId, threadId);
      ListPageCongruence(OldestFirst, PostRows(a, threadId, boardId), PostRows(b, threadId, boardId), cursor, limit);
    } else if tb.Some? && Allows(scope, tb.value.boardId) {
      FindThreadAgrees(b, a, scope, threadId);
    }
  }

  lemma PostRowsAgree(a: Database, b: Database, scope: BoardScope, t: Thread)
    requires Keyed(a) && Keyed(b) && AgreeInScope(a, b, scope)
    requires FiledWithThread(a) && FiledWithThread(b)
    requires t in a.threads && Allows(scope, t.boardId)
    ensures forall e :: e in PostRows(a, t.threadId, t.boardId) <==> e in PostRows(b, t.threadId, t.boardId)
  {
    assert t in b.threads;
    SelectCongruence(a.posts, b.posts, OfThread(t.threadId), 
                     ThreadPost(a.contacts, Lookup(a.hosts, t.boardId)));
  }

  /** `get_follow_feed` reveals nothing about posts outside the grant. */
  lemma FollowFeedScoped(a: Database, b: Database, scope: BoardScope, enabled: bool,
                         cursor: Option<string>, limit: Option<nat>)
    requires Keyed(a) && Keyed(b) && AgreeInScope(a, b, scope)
    ensures FollowFeedAnswer(a, scope, enabled, cursor, limit) == FollowFeedAnswer(b, scope, enabled, cursor, limit)
  {
    RowsDistinct(a, scope, "", "");
    RowsDistinct(b, scope, "", "");
    var dids, boards := FollowedDids(a.follows), FollowedBoards(a.follows, scope);
    var keep := Feeds(dids, boards, scope);
    forall p: Post | keep(p) ensures p in a.posts <==> p in b.posts {
      ScopeFilterIsAllows(scope, p.boardId);
    }
    SelectCongruence(a.posts, b.posts, keep, FeedPost(a.contacts, a.hosts));
    ListPageCongruence(NewestFirst, FeedRows(a, scope), FeedRows(b, scope), cursor, limit);
  }
}
