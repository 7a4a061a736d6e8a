/** The read view: keyset pages over the posts, and walks that follow their
    cursor while ingests go on between the pages. */
module Keyset {
  import opened Wrappers
  import opened Json
  import opened Database
  import opened Ledger
  import opened ChildReads
  import Domain
  import Stored

  const VIEW_MAX_LIMIT: nat := 200

  datatype Counts = Counts(covers: nat, pages: nat, externalLinks: nat)

  datatype ViewPost = ViewPost(
    id: int,
    sourceName: string,
    title: string,
    brandRaw: string,
    issueNo: Option<string>,
    releaseDate: Option<string>,
    postDate: Option<string>,
    lastSeen: Time,
    performersRaw: seq<string>,
    counts: Counts,
    extra: Option<JsonMap>)

  datatype ViewPage = ViewPage(
    limit: nat,
    afterId: Option<int>,
    returned: nat,
    nextAfterId: Option<int>,
    posts: seq<ViewPost>)

  function Clamp(limit: nat): (r: nat)
    ensures 1 <= r <= VIEW_MAX_LIMIT
  {
    if limit < 1 then 1 else if limit > VIEW_MAX_LIMIT then VIEW_MAX_LIMIT else limit
  }

  predicate Selected(p: Post, after: int, source: Option<string>) {
    p.id > after && (source.None? || p.key.sourceName == source.value)
  }

  /** The rows of the query, in id order. */
  function Matching(posts: seq<Post>, after: int, source: Option<string>): seq<Post> {
    if posts == [] then []
    else
      var last := posts[|posts| - 1];
      Matching(posts[..|posts| - 1], after, source) + if Selected(last, after, source) then [last] else []
  }

  function Ids(posts: seq<Post>): (r: seq<int>)
    ensures |r| == |posts|
    ensures forall i :: 0 <= i < |r| ==> r[i] == posts[i].id
  {
    seq(|posts|, i requires 0 <= i < |posts| => posts[i].id)
  }

  function MatchIds(posts: seq<Post>, after: int, source: Option<string>): seq<int> {
    Ids(Matching(posts, after, source))
  }

  function Take<T>(s: seq<T>, n: nat): seq<T> {
    if |s| <= n then s else s[..n]
  }

  function PageIds(posts: seq<Post>, limit: nat, after: int, source: Option<string>): seq<int> {
    Take(MatchIds(posts, after, source), limit)
  }

  /** A row as the query returns it, its children still to be read. */
  function BaseView(p: Post, includeExtra: bool): ViewPost {
    ViewPost(p.id, p.key.sourceName, p.title, p.brandRaw, p.issueNo, p.releaseDate, p.postDate, p.lastSeen,
             [], Counts(0, 0, 0), if includeExtra then Stored.AsMap(p.extraJson) else None)
  }

  /** The tables as each statement finds them: another connection may commit
      between any two. Statement 0 selects the rows, and the `i`-th row's
      children take the four statements from `4 * i + 1`. */
  type Reads = nat -> Tables

  function TextCount(t: Tables, table: TextTable, id: nat): nat {
    ChildCount(t.texts, (table, id))
  }

  function LinkCount(t: Tables, id: nat): nat {
    ChildCount(t.links, id)
  }

  function CountsAt(tables: Reads, i: nat, id: nat): Counts {
    Counts(TextCount(tables(4 * i + 2), Covers, id), TextCount(tables(4 * i + 3), Pages, id),
           LinkCount(tables(4 * i + 4), id))
  }

  /** `view` is the `i`-th row, with its children as they were when read. */
  ghost predicate Shows(tables: Reads, i: nat, row: Post, view: ViewPost, includeExtra: bool) {
    && InOrder(tables(4 * i + 1).texts, (Performers, row.id), view.performersRaw)
    && view == BaseView(row, includeExtra).(performersRaw := view.performersRaw, counts := CountsAt(tables, i, row.id))
  }

  function AfterOf(cursor: Option<int>): int {
    if cursor.Some? then cursor.value else 0
  }

  function RowsOf(tables: Reads, limit: nat, afterId: Option<int>, source: Option<string>): (r: seq<Post>)
    ensures |r| <= Clamp(limit)
  {
    Take(Matching(tables(0).posts, AfterOf(afterId), source), Clamp(limit))
  }

  function CursorAfter(rows: seq<Post>, limit: nat): Option<int> {
    if |rows| == Clamp(limit) then Some(rows[|rows| - 1].id) else None
  }

  ghost predicate AllShown(tables: Reads, rows: seq<Post>, views: seq<ViewPost>, includeExtra: bool) {
    |views| == |rows| && forall i :: 0 <= i < |rows| ==> Shows(tables, i, rows[i], views[i], includeExtra)
  }

  ghost predicate ExtrasParse(rows: seq<Post>) {
    forall i :: 0 <= i < |rows| ==> Stored.AsMap(rows[i].extraJson).Some?
  }

  ghost predicate AllSelectedAs(rows: seq<Post>, views: seq<ViewPost>, includeExtra: bool) {
    |views| == |rows| && forall i :: 0 <= i < |rows| ==> views[i] == BaseView(rows[i], includeExtra)
  }

  /** The select statement: it fails exactly when a requested extra does not
      parse. */
  method SelectRows(rows: seq<Post>, includeExtra: bool) returns (r: Result<seq<ViewPost>, DbError>)
    ensures r.Ok? <==> !includeExtra || ExtrasParse(rows)
    ensures r.Ok? ==> AllSelectedAs(rows, r.value, includeExtra)
  {
    var views: seq<ViewPost> := [];
    for i := 0 to |rows|
      invariant |views| == i
      invariant forall j :: 0 <= j < i ==> views[j] == BaseView(rows[j], includeExtra)
      invariant includeExtra ==> forall j :: 0 <= j < i ==> Stored.AsMap(rows[j].extraJson).Some?
    {
      if includeExtra && Stored.AsMap(rows[i].extraJson).None? {
        return Err(Sqlite);
      }
      views := views + [BaseView(rows[i], includeExtra)];
    }
    r := Ok(views);
  }

  /** One row's children. */
  method ReadChildren(tables: Reads, i: nat, row: Post, base: ViewPost, includeExtra: bool) returns (view: ViewPost)
    requires base == BaseView(row, includeExtra)
    ensures Shows(tables, i, row, view, includeExtra)
  {
    var performers := ChildValues(tables(4 * i + 1).texts, (Performers, base.id));
    view := base.(performersRaw := performers, counts := CountsAt(tables, i, base.id));
  }

  lemma ShownNext(
    tables: Reads, rows: seq<Post>, i: nat, views: seq<ViewPost>, view: ViewPost, includeExtra: bool)
    requires i < |rows| && AllShown(tables, rows[..i], views, includeExtra)
    requires Shows(tables, i, rows[i], view, includeExtra)
    ensures AllShown(tables, rows[..i + 1], views + [view], includeExtra)
  {
    forall j | 0 <= j < i + 1
      ensures Shows(tables, j, rows[..i + 1][j], (views + [view])[j], includeExtra)
    {
      if j < i {
        assert Shows(tables, j, rows[..i][j], views[j], includeExtra);
      }
    }
  }

  method ReadAllChildren(tables: Reads, rows: seq<Post>, views: seq<ViewPost>, includeExtra: bool)
    returns (posts: seq<ViewPost>)
    requires AllSelectedAs(rows, views, includeExtra)
    ensures AllShown(tables, rows, posts, includeExtra)
  {
    posts := [];
    for i := 0 to |views|
      invariant AllShown(tables, rows[..i], posts, includeExtra)
    {
      var view := ReadChildren(tables, i, rows[i], views[i], includeExtra);
      ShownNext(tables, rows, i, posts, view, includeExtra);
      posts := posts + [view];
    }
    assert rows[..|views|] == rows;
  }

  /** The page for `rows`. */
  ghost predicate IsPage(
    tables: Reads, limit: nat, afterId: Option<int>, rows: seq<Post>, includeExtra: bool, page: ViewPage)
  {
    && page.limit == Clamp(limit) && page.afterId == afterId && page.returned == |rows|
    && AllShown(tables, rows, page.posts, includeExtra)
    && page.nextAfterId == CursorAfter(rows, limit)
  }

  lemma PageMade(
    tables: Reads, limit: nat, afterId: Option<int>, rows: seq<Post>, includeExtra: bool, posts: seq<ViewPost>,
    next: Option<int>)
    requires AllShown(tables, rows, posts, includeExtra)
    requires next == if |posts| == Clamp(limit) then Some(posts[|posts| - 1].id) else None
    ensures IsPage(tables, limit, afterId, rows, includeExtra, ViewPage(Clamp(limit), afterId, |posts|, next, posts))
  {
    if rows != [] {
      var last := |rows| - 1;
      assert Shows(tables, last, rows[last], posts[last], includeExtra);
    }
  }

  /** `view_posts_page`. A cursor is given exactly when the page is full. */
  method ViewPostsPage(
    tables: Reads, limit: nat, afterId: Option<int>, source: Option<string>, includeExtra: bool)
    returns (r: Result<ViewPage, DbError>)
    ensures var rows := RowsOf(tables, limit, afterId, source);
            && (r.Ok? <==> !includeExtra || ExtrasParse(rows))
            && (r.Ok? ==> IsPage(tables, limit, afterId, rows, includeExtra, r.value))
  {
    var rows := RowsOf(tables, limit, afterId, source);
    var views :- SelectRows(rows, includeExtra);
    var posts := ReadAllChildren(tables, rows, views, includeExtra);
    var next := if |posts| == Clamp(limit) then Some(posts[|posts| - 1].id) else None;
    PageMade(tables, limit, afterId, rows, includeExtra, posts, next);
    r := Ok(ViewPage(Clamp(limit), afterId, |posts|, next, posts));
  }

  // ---------------------------------------------------------------------
  // The query
  // ---------------------------------------------------------------------

  ghost predicate Ascending(posts: seq<Post>) {
    forall i, j :: 0 <= i < j < |posts| ==> posts[i].id < posts[j].id
  }

  ghost predicate Increasing(ids: seq<int>) {
    forall i, j :: 0 <= i < j < |ids| ==> ids[i] < ids[j]
  }

  lemma {:induction false} MatchingMeans(posts: seq<Post>, after: int, source: Option<string>)
    ensures forall p :: p in Matching(posts, after, source) <==> p in posts && Selected(p, after, source)
  {
    if posts != [] {
      MatchingMeans(posts[..|posts| - 1], after, source);
      assert posts == posts[..|posts| - 1] + [posts[|posts| - 1]];
    }
  }

  lemma {:induction false} MatchingAscending(posts: seq<Post>, after: int, source: Option<string>)
    requires Ascending(posts)
    ensures Ascending(Matching(posts, after, source))
  {
    if posts != [] {
      var front := posts[..|posts| - 1];
      MatchingAscending(front, after, source);
      MatchingMeans(front, after, source);
      forall p | p in Matching(front, after, source)
        ensures p.id < posts[|posts| - 1].id
      {
        var i :| 0 <= i < |front| && front[i] == p;
      }
    }
  }

  lemma {:induction false} MatchingAppend(a: seq<Post>, b: seq<Post>, after: int, source: Option<string>)
    ensures Matching(a + b, after, source) == Matching(a, after, source) + Matching(b, after, source)
  {
    if b == [] {
      assert a + b == a;
    } else {
      assert (a + b)[..|a + b| - 1] == a + b[..|b| - 1];
      MatchingAppend(a, b[..|b| - 1], after, source);
    }
  }

  lemma MatchingOne(p: Post, after: int, source: Option<string>)
    ensures Matching([p], after, source) == if Selected(p, after, source) then [p] else []
  {
    assert [p][..0] == [];
  }

  lemma {:induction false} MatchingTail(posts: seq<Post>, after: int, later: int, source: Option<string>)
    requires after <= later
    ensures Matching(posts, later, source) == Matching(Matching(posts, after, source), later, source)
  {
    if posts != [] {
      var last := posts[|posts| - 1];
      var front := posts[..|posts| - 1];
      MatchingTail(front, after, later, source);
      if Selected(last, after, source) {
        MatchingAppend(Matching(front, after, source), [last], later, source);
        MatchingOne(last, later, source);
      } else {
        assert Matching(posts, after, source) == Matching(front, after, source);
      }
    }
  }

  ghost predicate AllSelected(posts: seq<Post>, after: int, source: Option<string>) {
    forall i :: 0 <= i < |posts| ==> Selected(posts[i], after, source)
  }

  ghost predicate NoneSelected(posts: seq<Post>, after: int, source: Option<string>) {
    forall i :: 0 <= i < |posts| ==> !Selected(posts[i], after, source)
  }

  lemma {:induction false} AllMatch(posts: seq<Post>, after: int, source: Option<string>)
    requires AllSelected(posts, after, source)
    ensures Matching(posts, after, source) == posts
  {
    if posts != [] {
      AllMatch(posts[..|posts| - 1], after, source);
      assert posts == posts[..|posts| - 1] + [posts[|posts| - 1]];
    }
  }

  lemma {:induction false} NoneMatch(posts: seq<Post>, after: int, source: Option<string>)
    requires NoneSelected(posts, after, source)
    ensures Matching(posts, after, source) == []
  {
    if posts != [] {
      NoneMatch(posts[..|posts| - 1], after, source);
    }
  }

  lemma CutSelected(m: seq<Post>, after: int, source: Option<string>, k: nat)
    requires Ascending(m) && 0 < k <= |m| && AllSelected(m, after, source)
    ensures NoneSelected(m[..k], m[k - 1].id, source) && AllSelected(m[k..], m[k - 1].id, source)
  {
  }

  lemma SecondHalf(a: seq<Post>, b: seq<Post>, later: int, source: Option<string>)
    requires NoneSelected(a, later, source) && AllSelected(b, later, source)
    ensures Matching(a + b, later, source) == b
  {
    NoneMatch(a, later, source);
    AllMatch(b, later, source);
    MatchingAppend(a, b, later, source);
  }

  lemma ResumeRows(m: seq<Post>, after: int, source: Option<string>, k: nat)
    requires Ascending(m) && 0 < k <= |m| && AllSelected(m, after, source)
    ensures Matching(m, m[k - 1].id, source) == m[k..]
  {
    CutSelected(m, after, source, k);
    SecondHalf(m[..k], m[k..], m[k - 1].id, source);
    assert m == m[..k] + m[k..];
  }

  lemma MatchingSelected(posts: seq<Post>, after: int, source: Option<string>)
    ensures AllSelected(Matching(posts, after, source), after, source)
  {
    MatchingMeans(posts, after, source);
    var m := Matching(posts, after, source);
    forall i | 0 <= i < |m|
      ensures Selected(m[i], after, source)
    {
      assert m[i] in m;
    }
  }

  lemma IdsTail(m: seq<Post>, k: nat)
    requires k <= |m|
    ensures Ids(m[k..]) == Ids(m)[k..]
  {
  }

  /** Resuming after the k-th match selects exactly the matches behind it. */
  lemma Resume(posts: seq<Post>, after: int, source: Option<string>, k: nat)
    requires Ascending(posts) && 0 < k <= |MatchIds(posts, after, source)|
    ensures MatchIds(posts, MatchIds(posts, after, source)[k - 1], source) == MatchIds(posts, after, source)[k..]
  {
    var m := Matching(posts, after, source);
    MatchingAscending(posts, after, source);
    MatchingSelected(posts, after, source);
    ResumeRows(m, after, source, k);
    MatchingTail(posts, after, m[k - 1].id, source);
    IdsTail(m, k);
  }

  // ---------------------------------------------------------------------
  // Tables that change between pages
  // ---------------------------------------------------------------------

  /** What any number of ingests does to the posts: no row goes away or changes
      its id or key, and every new row has a larger id. */
  ghost predicate Evolves(p: seq<Post>, q: seq<Post>) {
    |p| <= |q| && forall i :: 0 <= i < |p| ==> p[i].id == q[i].id && p[i].key == q[i].key
  }

  lemma {:induction false} SameKeysMatch(p: seq<Post>, q: seq<Post>, after: int, source: Option<string>)
    requires |p| == |q| && Evolves(p, q)
    ensures MatchIds(p, after, source) == MatchIds(q, after, source)
  {
    if p != [] {
      SameKeysMatch(p[..|p| - 1], q[..|q| - 1], after, source);
    }
  }

  lemma EvolvesPrefix(p: seq<Post>, q: seq<Post>, after: int, source: Option<string>)
    requires Evolves(p, q)
    ensures MatchIds(p, after, source) <= MatchIds(q, after, source)
  {
    SameKeysMatch(p, q[..|p|], after, source);
    assert q == q[..|p|] + q[|p|..];
    MatchingAppend(q[..|p|], q[|p|..], after, source);
  }

  // ---------------------------------------------------------------------
  // Walks
  // ---------------------------------------------------------------------

  datatype Outcome = Outcome(ids: seq<int>, pages: nat, ended: bool)

  /** A reader that follows the cursor; page `i` is answered from `snaps[i]`. */
  function Walk(snaps: seq<seq<Post>>, limit: nat, after: int, source: Option<string>): Outcome
    requires limit > 0
  {
    if snaps == [] then Outcome([], 0, false)
    else
      var page := PageIds(snaps[0], limit, after, source);
      if |page| < limit then Outcome(page, 1, true)
      else
        var rest := Walk(snaps[1..], limit, page[limit - 1], source);
        Outcome(page + rest.ids, rest.pages + 1, rest.ended)
  }

  function Heads(pages: seq<Reads>): (r: seq<seq<Post>>)
    ensures |r| == |pages|
    ensures forall i :: 0 <= i < |r| ==> r[i] == pages[i](0).posts
  {
    seq(|pages|, i requires 0 <= i < |pages| => pages[i](0).posts)
  }

  function ViewIds(views: seq<ViewPost>): (r: seq<int>)
    ensures |r| == |views|
    ensures forall i :: 0 <= i < |r| ==> r[i] == views[i].id
  {
    seq(|views|, i requires 0 <= i < |views| => views[i].id)
  }

  datatype Turn = Turn(ids: seq<int>, next: Option<int>)

  function TurnAt(posts: seq<Post>, limit: nat, after: int, source: Option<string>): Turn
    requires limit > 0
  {
    var page := PageIds(posts, limit, after, source);
    Turn(page, if |page| == limit then Some(page[limit - 1]) else None)
  }

  lemma TakeIds(m: seq<Post>, limit: nat)
    ensures Ids(Take(m, limit)) == Take(Ids(m), limit)
  {
  }

  lemma ShownIds(tables: Reads, rows: seq<Post>, views: seq<ViewPost>, includeExtra: bool)
    requires AllShown(tables, rows, views, includeExtra)
    ensures ViewIds(views) == Ids(rows)
  {
    forall i | 0 <= i < |rows|
      ensures views[i].id == rows[i].id
    {
      assert Shows(tables, i, rows[i], views[i], includeExtra);
    }
  }

  lemma RowsTurn(tables: Reads, limit: nat, cursor: Option<int>, source: Option<string>)
    ensures var rows := RowsOf(tables, limit, cursor, source);
            Turn(Ids(rows), CursorAfter(rows, limit)) ==
              TurnAt(tables(0).posts, Clamp(limit), AfterOf(cursor), source)
  {
    TakeIds(Matching(tables(0).posts, AfterOf(cursor), source), Clamp(limit));
  }

  lemma WalkFrom(snaps: seq<seq<Post>>, n: nat, limit: nat, after: int, source: Option<string>)
    requires n < |snaps| && limit > 0
    ensures var page := PageIds(snaps[n], limit, after, source);
            Walk(snaps[n..], limit, after, source) ==
              if |page| < limit then Outcome(page, 1, true)
              else
                var rest := Walk(snaps[n + 1..], limit, page[limit - 1], source);
                Outcome(page + rest.ids, rest.pages + 1, rest.ended)
  {
    assert snaps[n..][1..] == snaps[n + 1..];
  }

  function Joined(ids: seq<int>, pages: nat, rest: Outcome): Outcome {
    Outcome(ids + rest.ids, pages + rest.pages, rest.ended)
  }

  lemma TurnJoins(
    snaps: seq<seq<Post>>, n: nat, limit: nat, after: int, source: Option<string>, ids: seq<int>, turn: Turn)
    requires n < |snaps| && limit > 0 && turn == TurnAt(snaps[n], limit, after, source)
    ensures Joined(ids, n, Walk(snaps[n..], limit, after, source)) ==
              if turn.next.None? then Outcome(ids + turn.ids, n + 1, true)
              else Joined(ids + turn.ids, n + 1, Walk(snaps[n + 1..], limit, turn.next.value, source))
  {
    WalkFrom(snaps, n, limit, after, source);
    if turn.next.Some? {
      var rest := Walk(snaps[n + 1..], limit, turn.next.value, source);
      assert ids + (turn.ids + rest.ids) == ids + turn.ids + rest.ids;
    }
  }

  /** One page, as the reader uses it. */
  method ReadPage(tables: Reads, limit: nat, cursor: Option<int>, source: Option<string>, includeExtra: bool)
    returns (r: Result<Turn, DbError>)
    ensures !includeExtra ==> r.Ok?
    ensures r.Ok? ==> r.value == TurnAt(tables(0).posts, Clamp(limit), AfterOf(cursor), source)
  {
    var page :- ViewPostsPage(tables, limit, cursor, source, includeExtra);
    ShownIds(tables, RowsOf(tables, limit, cursor, source), page.posts, includeExtra);
    RowsTurn(tables, limit, cursor, source);
    r := Ok(Turn(ViewIds(page.posts), page.nextAfterId));
  }

  /** The reader itself: page after page, each from where the last one's cursor
      points. It makes the walk. */
  method FollowCursor(pages: seq<Reads>, limit: nat, source: Option<string>, includeExtra: bool)
    returns (r: Result<Outcome, DbError>)
    ensures !includeExtra ==> r.Ok?
    ensures r.Ok? ==> r.value == Walk(Heads(pages), Clamp(limit), 0, source)
  {
    ghost var snaps := Heads(pages);
    var ids: seq<int> := [];
    var cursor: Option<int> := None;
    assert snaps[0..] == snaps;
    for n := 0 to |pages|
      invariant Joined(ids, n, Walk(snaps[n..], Clamp(limit), AfterOf(cursor), source))
             == Walk(snaps, Clamp(limit), 0, source)
    {
      var turn :- ReadPage(pages[n], limit, cursor, source, includeExtra);
      TurnJoins(snaps, n, Clamp(limit), AfterOf(cursor), source, ids, turn);
      ids, cursor := ids + turn.ids, turn.next;
      if cursor.None? {
        return Ok(Outcome(ids, n + 1, true));
      }
    }
    r := Ok(Outcome(ids, |pages|, false));
  }

  ghost predicate Chain(snaps: seq<seq<Post>>) {
    && (forall i :: 0 <= i < |snaps| ==> Ascending(snaps[i]))
    && (forall i, j :: 0 <= i <= j < |snaps| ==> Evolves(snaps[i], snaps[j]))
  }

  lemma FullPage(posts: seq<Post>, last: seq<Post>, limit: nat, after: int, source: Option<string>)
    requires Evolves(posts, last) && Ascending(last) && limit > 0
    requires |PageIds(posts, limit, after, source)| == limit
    ensures var page := PageIds(posts, limit, after, source);
            var all := MatchIds(last, after, source);
            && |all| >= limit && page == all[..limit]
            && MatchIds(last, page[limit - 1], source) == all[limit..]
  {
    EvolvesPrefix(posts, last, after, source);
    Resume(last, after, source, limit);
  }

  /** However the posts evolve between the pages, what the walk has returned is
      an initial part of the matching ids at its last page; and when it ends,
      it is all of them. */
  lemma {:induction false} WalkIsPrefix(snaps: seq<seq<Post>>, limit: nat, after: int, source: Option<string>)
    requires Chain(snaps) && snaps != [] && limit > 0
    ensures var w := Walk(snaps, limit, after, source);
            && 1 <= w.pages <= |snaps|
            && w.ids <= MatchIds(snaps[w.pages - 1], after, source)
            && (w.ended ==> w.ids == MatchIds(snaps[w.pages - 1], after, source))
            && (!w.ended ==> w.pages == |snaps|)
  {
    var page := PageIds(snaps[0], limit, after, source);
    if |page| == limit {
      var tail := snaps[1..];
      if tail == [] {
        assert page + [] == page;
      } else {
        var rest := Walk(tail, limit, page[limit - 1], source);
        WalkIsPrefix(tail, limit, page[limit - 1], source);
        FullPage(snaps[0], tail[rest.pages - 1], limit, after, source);
        Join(page, rest.ids, MatchIds(tail[rest.pages - 1], after, source));
      }
    }
  }

  lemma Join(page: seq<int>, rest: seq<int>, all: seq<int>)
    requires |page| <= |all| && page == all[..|page|] && rest <= all[|page|..]
    ensures page + rest <= all
    ensures rest == all[|page|..] ==> page + rest == all
  {
  }

  lemma PrefixIncreasing(posts: seq<Post>, after: int, source: Option<string>, ids: seq<int>)
    requires Ascending(posts) && ids <= MatchIds(posts, after, source)
    ensures Increasing(ids)
  {
    MatchingAscending(posts, after, source);
    assert Increasing(MatchIds(posts, after, source));
  }

  lemma MatchIdsMean(posts: seq<Post>, after: int, source: Option<string>, id: int)
    ensures id in MatchIds(posts, after, source) <==>
              (exists i :: 0 <= i < |posts| && posts[i].id == id && Selected(posts[i], after, source))
  {
    var m := Matching(posts, after, source);
    MatchingMeans(posts, after, source);
    if id in MatchIds(posts, after, source) {
      var j :| 0 <= j < |m| && m[j].id == id;
      assert m[j] in posts;
    }
    if i :| 0 <= i < |posts| && posts[i].id == id && Selected(posts[i], after, source) {
      assert posts[i] in m;
      var j :| 0 <= j < |m| && m[j] == posts[i];
      assert MatchIds(posts, after, source)[j] == id;
    }
  }

  lemma MulMono(a: int, b: int, limit: nat)
    requires a <= b
    ensures a * limit <= b * limit
  {
    assert (b - a) * limit >= 0;
  }

  lemma Floor(n: nat, q: nat, limit: nat)
    requires limit > 0 && q * limit <= n < (q + 1) * limit
    ensures n / limit == q
  {
    var d := n / limit;
    if d > q {
      MulMono(q + 1, d, limit);
    } else if d < q {
      MulMono(d + 1, q, limit);
    }
  }

  predicate Between(n: int, pages: int, limit: nat) {
    pages > 0 && (pages - 1) * limit <= n < pages * limit
  }

  lemma OneMorePage(n: int, pages: int, limit: nat)
    requires Between(n - limit, pages, limit)
    ensures Between(n, pages + 1, limit)
  {
    assert (pages - 1) * limit + limit == pages * limit;
    assert (pages + 1) * limit == pages * limit + limit;
  }

  lemma OneFewer(n: int, pages: int, limit: nat)
    requires n < pages * limit
    ensures n - limit < (pages - 1) * limit
  {
  }

  lemma WalkStep(posts: seq<Post>, snaps: seq<seq<Post>>, limit: nat, after: int, source: Option<string>)
    returns (later: int)
    requires Ascending(posts) && limit > 0 && snaps != [] && snaps[0] == posts
    requires |MatchIds(posts, after, source)| >= limit
    ensures var w := Walk(snaps, limit, after, source);
            var rest := Walk(snaps[1..], limit, later, source);
            w.ended == rest.ended && w.pages == rest.pages + 1
    ensures |MatchIds(posts, later, source)| == |MatchIds(posts, after, source)| - limit
  {
    Resume(posts, after, source, limit);
    later := PageIds(posts, limit, after, source)[limit - 1];
  }

  lemma {:induction false} PagesBetween(
    posts: seq<Post>, snaps: seq<seq<Post>>, limit: nat, after: int, source: Option<string>)
    requires Ascending(posts) && limit > 0
    requires forall i :: 0 <= i < |snaps| ==> snaps[i] == posts
    requires |MatchIds(posts, after, source)| < |snaps| * limit
    ensures var w := Walk(snaps, limit, after, source);
            w.ended && Between(|MatchIds(posts, after, source)|, w.pages, limit)
    decreases |snaps|
  {
    var n := |MatchIds(posts, after, source)|;
    if n < limit {
      assert |PageIds(posts, limit, after, source)| < limit;
      assert 1 * limit == limit && snaps != [];
    } else {
      var later := WalkStep(posts, snaps, limit, after, source);
      OneFewer(n, |snaps|, limit);
      PagesBetween(posts, snaps[1..], limit, later, source);
      OneMorePage(n, Walk(snaps[1..], limit, later, source).pages, limit);
    }
  }

  /** On posts that stay put, n matches take n / limit + 1 pages. */
  lemma StaticPages(posts: seq<Post>, snaps: seq<seq<Post>>, limit: nat, after: int, source: Option<string>)
    requires Ascending(posts) && limit > 0
    requires forall i :: 0 <= i < |snaps| ==> snaps[i] == posts
    requires |MatchIds(posts, after, source)| < |snaps| * limit
    ensures var w := Walk(snaps, limit, after, source);
            w.ended && w.pages == |MatchIds(posts, after, source)| / limit + 1
  {
    PagesBetween(posts, snaps, limit, after, source);
    Floor(|MatchIds(posts, after, source)|, Walk(snaps, limit, after, source).pages - 1, limit);
  }

  // ---------------------------------------------------------------------
  // Walks over the database
  // ---------------------------------------------------------------------

  /** Snapshots of one database along a growing history of committed records:
      whatever was inserted, updated or rolled back in between. */
  ghost predicate Snapshots(ts: seq<Tables>, hs: seq<History>) {
    && |ts| == |hs|
    && (forall i :: 0 <= i < |ts| ==> Refines(ts[i], hs[i]))
    && (forall i, j :: 0 <= i <= j < |hs| ==> hs[i] <= hs[j])
  }

  function PostsOf(ts: seq<Tables>): (r: seq<seq<Post>>)
    ensures |r| == |ts|
    ensures forall i :: 0 <= i < |r| ==> r[i] == ts[i].posts
  {
    seq(|ts|, i requires 0 <= i < |ts| => ts[i].posts)
  }

  lemma RefinedAscending(t: Tables, h: History)
    requires Refines(t, h)
    ensures Ascending(t.posts)
    ensures forall i :: 0 <= i < |t.posts| ==> t.posts[i].id > 0
  {
    Stored.KeysAndIdsUnique(t, h);
  }

  lemma SnapshotsChain(ts: seq<Tables>, hs: seq<History>)
    requires Snapshots(ts, hs)
    ensures Chain(PostsOf(ts))
  {
    forall i | 0 <= i < |ts|
      ensures Ascending(PostsOf(ts)[i])
    {
      RefinedAscending(ts[i], hs[i]);
    }
    forall i, j | 0 <= i <= j < |ts|
      ensures Evolves(PostsOf(ts)[i], PostsOf(ts)[j])
    {
      assert hs[i] + hs[j][|hs[i]|..] == hs[j];
      Stored.StableRows(ts[i], hs[i], ts[j], hs[j][|hs[i]|..]);
    }
  }

  ghost predicate FromSource(posts: seq<Post>, source: Option<string>, id: int) {
    exists i :: 0 <= i < |posts| && posts[i].id == id && (source.None? || posts[i].key.sourceName == source.value)
  }

  lemma FromSourceMeans(posts: seq<Post>, source: Option<string>, id: int)
    requires forall i :: 0 <= i < |posts| ==> posts[i].id > 0
    ensures id in MatchIds(posts, 0, source) <==> FromSource(posts, source, id)
  {
    MatchIdsMean(posts, 0, source, id);
  }

  lemma LastPage(snaps: seq<seq<Post>>, limit: nat, source: Option<string>, w: Outcome, last: seq<Post>)
    requires Chain(snaps) && snaps != [] && limit > 0 && w == Walk(snaps, limit, 0, source)
    requires 1 <= w.pages <= |snaps| && last == snaps[w.pages - 1]
    requires forall i :: 0 <= i < |last| ==> last[i].id > 0
    ensures Increasing(w.ids)
    ensures forall id :: id in w.ids ==> FromSource(last, source, id)
    ensures w.ended ==> forall id :: FromSource(last, source, id) ==> id in w.ids
  {
    WalkIsPrefix(snaps, limit, 0, source);
    PrefixIncreasing(last, 0, source, w.ids);
    forall id
      ensures id in MatchIds(last, 0, source) <==> FromSource(last, source, id)
    {
      FromSourceMeans(last, source, id);
    }
  }

  /** A walk from the beginning, with ingests between its pages, returns
      strictly increasing ids; if it ends, they are exactly the ids of the rows
      of the asked-for source at its last page. */
  lemma WalkDuringIngests(ts: seq<Tables>, hs: seq<History>, limit: nat, source: Option<string>)
    requires Snapshots(ts, hs) && ts != []
    ensures var w := Walk(PostsOf(ts), Clamp(limit), 0, source);
            && 1 <= w.pages <= |ts|
            && Increasing(w.ids)
            && (forall id :: id in w.ids ==> FromSource(ts[w.pages - 1].posts, source, id))
            && (w.ended ==> forall id :: FromSource(ts[w.pages - 1].posts, source, id) ==> id in w.ids)
  {
    var snaps := PostsOf(ts);
    SnapshotsChain(ts, hs);
    WalkIsPrefix(snaps, Clamp(limit), 0, source);
    var w := Walk(snaps, Clamp(limit), 0, source);
    RefinedAscending(ts[w.pages - 1], hs[w.pages - 1]);
    LastPage(snaps, Clamp(limit), source, w, snaps[w.pages - 1]);
  }

  // ---------------------------------------------------------------------
  // What a page shows
  // ---------------------------------------------------------------------

  /** The view of a post with record `r` and release date `date`. */
  function RecordView(
    id: int, r: Stamped, date: Option<string>, performers: seq<string>, counts: Counts, includeExtra: bool): ViewPost
  {
    ViewPost(id, r.record.sourceName, r.record.title, r.record.brandRaw, r.record.issueNo, date, r.record.postDate,
             r.at, performers, counts, if includeExtra then Some(r.record.extra) else None)
  }

  /** Every statement of a page finds committed tables, none older than those
      the rows were selected from. */
  ghost predicate Committed(tables: Reads, hs: nat -> History) {
    forall n :: CommittedAt(tables, hs, n)
  }

  ghost predicate CommittedAt(tables: Reads, hs: nat -> History, n: nat) {
    Refines(tables(n), hs(n)) && hs(0) <= hs(n)
  }

  lemma RowStays(t: Tables, h: History, u: Tables, g: History, j: nat)
    requires Refines(t, h) && Refines(u, g) && h <= g && j < |t.posts|
    ensures Known(g, t.posts[j].key) && t.posts[j].id == j + 1
    ensures forall table :: Holds(u.texts, (table, j + 1), TextList(table, Last(g, t.posts[j].key).record))
    ensures Holds(u.links, j + 1, LinkRows(Last(g, t.posts[j].key).record.externalLinks))
  {
    assert h + g[|h|..] == g;
    Stored.StableRows(t, h, u, g[|h|..]);
    assert RowAt(t.posts, h, j) && RowAt(u.posts, g, j);
    assert LinksMatch(u.links, g, j);
    forall table
      ensures Holds(u.texts, (table, j + 1), TextList(table, Last(g, t.posts[j].key).record))
    {
      assert TextMatches(u.texts, g, j, table);
    }
  }

  lemma BaseShows(t: Tables, h: History, j: nat, includeExtra: bool)
    requires Refines(t, h) && j < |t.posts| && Known(h, t.posts[j].key)
    ensures var k := t.posts[j].key;
            BaseView(t.posts[j], includeExtra) ==
              RecordView(t.posts[j].id, Last(h, k), LastDate(h, k), [], Counts(0, 0, 0), includeExtra)
  {
    var k := t.posts[j].key;
    assert RowAt(t.posts, h, j);
    var at := LastMeans(h, k);
    Stored.AsMapOfPrint(Last(h, k).record.extra);
  }

  lemma PerformersAre(t: Tables, h: History, u: Tables, g: History, j: nat, values: seq<string>)
    requires Refines(t, h) && Refines(u, g) && h <= g && j < |t.posts|
    requires InOrder(u.texts, (Performers, j + 1), values)
    ensures Known(g, t.posts[j].key) && values == Last(g, t.posts[j].key).record.performersRaw
  {
    RowStays(t, h, u, g, j);
    var stored := TextList(Performers, Last(g, t.posts[j].key).record);
    ListsWhatIsHeld(u.texts, (Performers, j + 1), stored, values);
  }

  lemma TextsCounted(t: Tables, h: History, u: Tables, g: History, j: nat, table: TextTable)
    requires Refines(t, h) && Refines(u, g) && h <= g && j < |t.posts|
    ensures Known(g, t.posts[j].key)
    ensures TextCount(u, table, j + 1) == |TextList(table, Last(g, t.posts[j].key).record)|
  {
    RowStays(t, h, u, g, j);
    CountsWhatIsHeld(u.texts, (table, j + 1), TextList(table, Last(g, t.posts[j].key).record));
  }

  lemma LinksCounted(t: Tables, h: History, u: Tables, g: History, j: nat)
    requires Refines(t, h) && Refines(u, g) && h <= g && j < |t.posts|
    ensures Known(g, t.posts[j].key)
    ensures LinkCount(u, j + 1) == |Last(g, t.posts[j].key).record.externalLinks|
  {
    RowStays(t, h, u, g, j);
    var id: nat := j + 1;
    CountsWhatIsHeld(u.links, id, LinkRows(Last(g, t.posts[j].key).record.externalLinks));
  }

  ghost predicate AlwaysKnown(hs: nat -> History, k: Key) {
    forall n :: Known(hs(n), k)
  }

  function CountsOf(covers: Domain.SourceRecord, pages: Domain.SourceRecord, links: Domain.SourceRecord): Counts {
    Counts(|covers.coverUrls|, |pages.pageUrls|, |links.externalLinks|)
  }

  lemma KeyAlwaysKnown(tables: Reads, hs: nat -> History, j: nat)
    requires Committed(tables, hs) && j < |tables(0).posts|
    ensures AlwaysKnown(hs, tables(0).posts[j].key)
  {
    assert CommittedAt(tables, hs, 0);
    forall n
      ensures Known(hs(n), tables(0).posts[j].key)
    {
      assert CommittedAt(tables, hs, n);
      RowStays(tables(0), hs(0), tables(n), hs(n), j);
    }
  }

  lemma TextsCountedAt(tables: Reads, hs: nat -> History, n: nat, j: nat, table: TextTable)
    requires Committed(tables, hs) && j < |tables(0).posts| && AlwaysKnown(hs, tables(0).posts[j].key)
    ensures TextCount(tables(n), table, j + 1) ==
              |TextList(table, Last(hs(n), tables(0).posts[j].key).record)|
  {
    assert CommittedAt(tables, hs, 0) && CommittedAt(tables, hs, n);
    TextsCounted(tables(0), hs(0), tables(n), hs(n), j, table);
  }

  lemma LinksCountedAt(tables: Reads, hs: nat -> History, n: nat, j: nat)
    requires Committed(tables, hs) && j < |tables(0).posts| && AlwaysKnown(hs, tables(0).posts[j].key)
    ensures LinkCount(tables(n), j + 1) == |Last(hs(n), tables(0).posts[j].key).record.externalLinks|
  {
    assert CommittedAt(tables, hs, 0) && CommittedAt(tables, hs, n);
    LinksCounted(tables(0), hs(0), tables(n), hs(n), j);
  }

  lemma PerformersAt(tables: Reads, hs: nat -> History, n: nat, j: nat, values: seq<string>)
    requires Committed(tables, hs) && j < |tables(0).posts| && AlwaysKnown(hs, tables(0).posts[j].key)
    requires InOrder(tables(n).texts, (Performers, j + 1), values)
    ensures values == Last(hs(n), tables(0).posts[j].key).record.performersRaw
  {
    assert CommittedAt(tables, hs, 0) && CommittedAt(tables, hs, n);
    PerformersAre(tables(0), hs(0), tables(n), hs(n), j, values);
  }

  lemma RowAtFirst(tables: Reads, hs: nat -> History, j: nat, includeExtra: bool)
    requires Committed(tables, hs) && j < |tables(0).posts| && AlwaysKnown(hs, tables(0).posts[j].key)
    ensures var k := tables(0).posts[j].key;
            && tables(0).posts[j].id == j + 1
            && BaseView(tables(0).posts[j], includeExtra) ==
                 RecordView(j + 1, Last(hs(0), k), LastDate(hs(0), k), [], Counts(0, 0, 0), includeExtra)
  {
    assert CommittedAt(tables, hs, 0);
    RowStays(tables(0), hs(0), tables(0), hs(0), j);
    BaseShows(tables(0), hs(0), j, includeExtra);
  }

  lemma CountsMeet(
    tables: Reads, i: nat, id: nat, covers: Domain.SourceRecord, pages: Domain.SourceRecord,
    links: Domain.SourceRecord)
    requires TextCount(tables(4 * i + 2), Covers, id) == |TextList(Covers, covers)|
    requires TextCount(tables(4 * i + 3), Pages, id) == |TextList(Pages, pages)|
    requires LinkCount(tables(4 * i + 4), id) == |links.externalLinks|
    ensures CountsAt(tables, i, id) == CountsOf(covers, pages, links)
  {
  }

  lemma CountsAre(tables: Reads, hs: nat -> History, i: nat, j: nat)
    requires Committed(tables, hs) && j < |tables(0).posts| && AlwaysKnown(hs, tables(0).posts[j].key)
    ensures var k := tables(0).posts[j].key;
            CountsAt(tables, i, j + 1) ==
              CountsOf(Last(hs(4 * i + 2), k).record, Last(hs(4 * i + 3), k).record, Last(hs(4 * i + 4), k).record)
  {
    var k := tables(0).posts[j].key;
    TextsCountedAt(tables, hs, 4 * i + 2, j, Covers);
    TextsCountedAt(tables, hs, 4 * i + 3, j, Pages);
    LinksCountedAt(tables, hs, 4 * i + 4, j);
    CountsMeet(tables, i, j + 1, Last(hs(4 * i + 2), k).record, Last(hs(4 * i + 3), k).record,
               Last(hs(4 * i + 4), k).record);
  }

  lemma ViewMeets(
    base: ViewPost, view: ViewPost, id: int, r: Stamped, date: Option<string>, performers: seq<string>, counts: Counts,
    includeExtra: bool)
    requires base == RecordView(id, r, date, [], Counts(0, 0, 0), includeExtra)
    requires view == base.(performersRaw := performers, counts := counts)
    ensures view == RecordView(id, r, date, performers, counts, includeExtra)
  {
  }

  /** A page shows each post as the last record committed under its key; if
      ingests commit while the page is being read, the performers and each count
      are those of the last record committed when they were read. */
  lemma PageShowsCommitted(
    tables: Reads, hs: nat -> History, i: nat, j: nat, view: ViewPost, includeExtra: bool)
    requires Committed(tables, hs) && j < |tables(0).posts|
    requires Shows(tables, i, tables(0).posts[j], view, includeExtra)
    ensures var k := tables(0).posts[j].key;
            && AlwaysKnown(hs, k)
            && view == RecordView(
                 j + 1, Last(hs(0), k), LastDate(hs(0), k), Last(hs(4 * i + 1), k).record.performersRaw,
                 CountsOf(Last(hs(4 * i + 2), k).record, Last(hs(4 * i + 3), k).record,
                          Last(hs(4 * i + 4), k).record),
                 includeExtra)
  {
    KeyAlwaysKnown(tables, hs, j);
    RowAtFirst(tables, hs, j, includeExtra);
    PerformersAt(tables, hs, 4 * i + 1, j, view.performersRaw);
    CountsAre(tables, hs, i, j);
    var k := tables(0).posts[j].key;
    ViewMeets(BaseView(tables(0).posts[j], includeExtra), view, j + 1, Last(hs(0), k), LastDate(hs(0), k),
              view.performersRaw, CountsAt(tables, i, j + 1), includeExtra);
  }
}
