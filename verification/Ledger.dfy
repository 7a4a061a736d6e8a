/** What the database holds, said without the database: a fold over the history
    of committed records. The tables refine it after every batch. */
module Ledger {
  import opened Wrappers
  import opened Json
  import opened Domain
  import opened Database

  type History = seq<Stamped>

  // ---------------------------------------------------------------------
  // The fold
  // ---------------------------------------------------------------------

  predicate Known(h: History, k: Key) {
    h != [] && (KeyOf(h[|h| - 1].record) == k || Known(h[..|h| - 1], k))
  }

  /** Every key, in the order of first mention. */
  function Keys(h: History): seq<Key> {
    if h == [] then []
    else
      var before := Keys(h[..|h| - 1]);
      var k := KeyOf(h[|h| - 1].record);
      if Known(h[..|h| - 1], k) then before else before + [k]
  }

  function Last(h: History, k: Key): Stamped
    requires Known(h, k)
  {
    if KeyOf(h[|h| - 1].record) == k then h[|h| - 1] else Last(h[..|h| - 1], k)
  }

  function First(h: History, k: Key): Stamped
    requires Known(h, k)
  {
    if Known(h[..|h| - 1], k) then First(h[..|h| - 1], k) else h[|h| - 1]
  }

  /** The last release date that was not null. */
  function LastDate(h: History, k: Key): Option<string> {
    if h == [] then None
    else
      var s := h[|h| - 1].record;
      if KeyOf(s) == k && s.releaseDate.Some? then s.releaseDate else LastDate(h[..|h| - 1], k)
  }

  function Content(h: History, k: Key): string
    requires Known(h, k)
  {
    Fingerprint(Last(h, k).record, LastDate(h, k))
  }

  /** When the content last became different from what it was. */
  function ChangedAt(h: History, k: Key): Time
    requires Known(h, k)
  {
    var before := h[..|h| - 1];
    if KeyOf(h[|h| - 1].record) != k then ChangedAt(before, k)
    else if Known(before, k) && Content(before, k) == Content(h, k) then ChangedAt(before, k)
    else h[|h| - 1].at
  }

  function Row(h: History, k: Key, id: nat): Post
    requires Known(h, k)
  {
    var r := Last(h, k).record;
    Post(id, k, r.title, r.brandRaw, r.issueNo, LastDate(h, k), r.postDate, r.brandNormalized, r.normalizerId,
         r.normalizerVersion, Some(Content(h, k)), Print(Obj(r.extra)), First(h, k).at, Last(h, k).at,
         ChangedAt(h, k))
  }

  // ---------------------------------------------------------------------
  // What the fold means
  // ---------------------------------------------------------------------

  predicate Mentions(h: History, i: int, k: Key) {
    0 <= i < |h| && KeyOf(h[i].record) == k
  }

  lemma {:induction false} KnownMeans(h: History, k: Key)
    ensures Known(h, k) <==> exists i :: Mentions(h, i, k)
  {
    if h != [] {
      var n := |h| - 1;
      KnownMeans(h[..n], k);
      if KeyOf(h[n].record) == k {
        assert Mentions(h, n, k);
      } else if Known(h[..n], k) {
        var i :| Mentions(h[..n], i, k);
        assert Mentions(h, i, k);
      } else {
        forall i | Mentions(h, i, k)
          ensures false
        {
          assert Mentions(h[..n], i, k);
        }
      }
    }
  }

  lemma {:induction false} LastMeans(h: History, k: Key) returns (i: nat)
    requires Known(h, k)
    ensures Mentions(h, i, k) && h[i] == Last(h, k)
    ensures forall j :: Mentions(h, j, k) ==> j <= i
  {
    var n := |h| - 1;
    if KeyOf(h[n].record) == k {
      i := n;
    } else {
      i := LastMeans(h[..n], k);
      forall j | Mentions(h, j, k)
        ensures j <= i
      {
        assert Mentions(h[..n], j, k);
      }
    }
  }

  lemma {:induction false} FirstMeans(h: History, k: Key) returns (i: nat)
    requires Known(h, k)
    ensures Mentions(h, i, k) && h[i] == First(h, k)
    ensures forall j :: Mentions(h, j, k) ==> i <= j
  {
    var n := |h| - 1;
    if Known(h[..n], k) {
      i := FirstMeans(h[..n], k);
      forall j | Mentions(h, j, k)
        ensures i <= j
      {
        if j < n {
          assert Mentions(h[..n], j, k);
        }
      }
    } else {
      i := n;
      KnownMeans(h[..n], k);
      forall j | Mentions(h, j, k)
        ensures i <= j
      {
        if j < n {
          assert Mentions(h[..n], j, k);
        }
      }
    }
  }

  ghost predicate LatestDate(h: History, k: Key, i: int) {
    && Mentions(h, i, k) && h[i].record.releaseDate.Some?
    && forall j :: Mentions(h, j, k) && h[j].record.releaseDate.Some? ==> j <= i
  }

  lemma {:induction false} LastDateMeans(h: History, k: Key)
    ensures LastDate(h, k).None? ==> forall j :: Mentions(h, j, k) ==> h[j].record.releaseDate.None?
    ensures LastDate(h, k).Some? ==> exists i :: LatestDate(h, k, i) && h[i].record.releaseDate == LastDate(h, k)
  {
    if h != [] {
      var n := |h| - 1;
      var p := h[..n];
      LastDateMeans(p, k);
      forall j | Mentions(h, j, k) && j < n
        ensures Mentions(p, j, k)
      {
      }
      if KeyOf(h[n].record) == k && h[n].record.releaseDate.Some? {
        assert LatestDate(h, k, n);
      } else if LastDate(p, k).Some? {
        var i :| LatestDate(p, k, i) && p[i].record.releaseDate == LastDate(p, k);
        assert LatestDate(h, k, i);
      }
    }
  }

  lemma {:induction false} KeysMeans(h: History)
    ensures forall k :: k in Keys(h) <==> Known(h, k)
    ensures forall i, j :: 0 <= i < j < |Keys(h)| ==> Keys(h)[i] != Keys(h)[j]
  {
    if h != [] {
      KeysMeans(h[..|h| - 1]);
    }
  }

  // ---------------------------------------------------------------------
  // One more record
  // ---------------------------------------------------------------------

  lemma KnownNext(h: History, s: Stamped, k: Key)
    ensures Known(h + [s], k) <==> KeyOf(s.record) == k || Known(h, k)
  {
    assert (h + [s])[..|h|] == h;
  }

  lemma KeysNext(h: History, s: Stamped)
    ensures Keys(h + [s]) == if Known(h, KeyOf(s.record)) then Keys(h) else Keys(h) + [KeyOf(s.record)]
  {
    assert (h + [s])[..|h|] == h;
  }

  lemma OtherKeyUnmoved(h: History, s: Stamped, k: Key, id: nat)
    requires Known(h, k) && KeyOf(s.record) != k
    ensures Known(h + [s], k) && Last(h + [s], k) == Last(h, k) && Row(h + [s], k, id) == Row(h, k, id)
  {
    assert (h + [s])[..|h|] == h;
  }

  lemma NewRow(h: History, s: Stamped, id: nat)
    requires !Known(h, KeyOf(s.record))
    ensures Known(h + [s], KeyOf(s.record))
    ensures Row(h + [s], KeyOf(s.record), id) == NewPost(id, s.record, LastDate(h + [s], KeyOf(s.record)), s.at)
  {
    assert (h + [s])[..|h|] == h;
  }

  lemma UpdatedRow(h: History, s: Stamped, id: nat)
    requires Known(h, KeyOf(s.record))
    ensures Known(h + [s], KeyOf(s.record))
    ensures Row(h + [s], KeyOf(s.record), id)
         == UpdatedPost(Row(h, KeyOf(s.record), id), s.record, LastDate(h + [s], KeyOf(s.record)), s.at)
  {
    assert (h + [s])[..|h|] == h;
  }

  // ---------------------------------------------------------------------
  // Refinement
  // ---------------------------------------------------------------------

  predicate RowAt(posts: seq<Post>, h: History, i: nat) {
    i < |posts| && i < |Keys(h)| && Known(h, Keys(h)[i]) && posts[i] == Row(h, Keys(h)[i], i + 1)
  }

  ghost predicate RowsMatch(posts: seq<Post>, h: History) {
    |posts| == |Keys(h)| && forall i :: 0 <= i < |posts| ==> RowAt(posts, h, i)
  }

  ghost predicate TextMatches(texts: Child<TextOwner, string>, h: History, i: nat, table: TextTable) {
    && i < |Keys(h)| && Known(h, Keys(h)[i])
    && Holds(texts, (table, i + 1), TextList(table, Last(h, Keys(h)[i]).record))
  }

  ghost predicate LinksMatch(links: Child<nat, LinkRow>, h: History, i: nat) {
    && i < |Keys(h)| && Known(h, Keys(h)[i])
    && Holds(links, i + 1, LinkRows(Last(h, Keys(h)[i]).record.externalLinks))
  }

  ghost predicate ChildrenMatch(texts: Child<TextOwner, string>, links: Child<nat, LinkRow>, h: History) {
    && (forall i, table :: 0 <= i < |Keys(h)| ==> TextMatches(texts, h, i, table))
    && (forall i :: 0 <= i < |Keys(h)| ==> LinksMatch(links, h, i))
    && (forall k :: k in texts ==> 1 <= k.0.1 <= |Keys(h)|)
    && (forall k :: k in links ==> 1 <= k.0 <= |Keys(h)|)
  }

  ghost predicate Refines(t: Tables, h: History) {
    t.sequence == |Keys(h)| && RowsMatch(t.posts, h) && ChildrenMatch(t.texts, t.links, h)
  }

  lemma FindKnown(posts: seq<Post>, h: History, k: Key)
    requires RowsMatch(posts, h)
    ensures Find(posts, k).Some? <==> Known(h, k)
    ensures Find(posts, k).Some? ==> RowAt(posts, h, Find(posts, k).value) && Keys(h)[Find(posts, k).value] == k
  {
    KeysMeans(h);
    if Known(h, k) {
      var i :| 0 <= i < |Keys(h)| && Keys(h)[i] == k;
      assert RowAt(posts, h, i);
    }
    if Find(posts, k).Some? {
      assert RowAt(posts, h, Find(posts, k).value);
    }
  }

  lemma DateMatches(posts: seq<Post>, h: History, s: Stamped)
    requires RowsMatch(posts, h)
    ensures EffectiveDate(posts, s.record) == LastDate(h + [s], KeyOf(s.record))
  {
    var k := KeyOf(s.record);
    assert (h + [s])[..|h|] == h;
    FindKnown(posts, h, k);
    if s.record.releaseDate.None? && !Known(h, k) {
      KnownMeans(h, k);
      LastDateMeans(h, k);
    }
  }

  lemma KnownRowStep(t: Tables, u: Tables, h: History, s: Stamped, i: nat)
    requires RowsMatch(t.posts, h) && Known(h, KeyOf(s.record))
    requires u == UpsertedPosts(t, s.record, s.at) && i < |t.posts|
    ensures |u.posts| == |t.posts| && u.sequence == t.sequence && Known(h + [s], Keys(h)[i])
    ensures u.posts[i] == Row(h + [s], Keys(h)[i], i + 1)
  {
    var k := KeyOf(s.record);
    FindKnown(t.posts, h, k);
    assert RowAt(t.posts, h, i);
    if Keys(h)[i] == k {
      DateMatches(t.posts, h, s);
      KeysMeans(h);
      UpdatedRow(h, s, i + 1);
    } else {
      OtherKeyUnmoved(h, s, Keys(h)[i], i + 1);
    }
  }

  lemma NewRowStep(t: Tables, u: Tables, h: History, s: Stamped, i: nat)
    requires RowsMatch(t.posts, h) && !Known(h, KeyOf(s.record)) && t.sequence == |t.posts|
    requires u == UpsertedPosts(t, s.record, s.at) && i <= |t.posts|
    ensures |u.posts| == |t.posts| + 1 && u.sequence == t.sequence + 1
    ensures var k := (Keys(h) + [KeyOf(s.record)])[i];
            Known(h + [s], k) && u.posts[i] == Row(h + [s], k, i + 1)
  {
    FindKnown(t.posts, h, KeyOf(s.record));
    if i == |t.posts| {
      DateMatches(t.posts, h, s);
      NewRow(h, s, i + 1);
    } else {
      assert RowAt(t.posts, h, i);
      OtherKeyUnmoved(h, s, Keys(h)[i], i + 1);
    }
  }

  lemma RowsStep(t: Tables, u: Tables, h: History, s: Stamped)
    requires t.sequence == |Keys(h)| && RowsMatch(t.posts, h)
    requires u == UpsertedPosts(t, s.record, s.at)
    ensures RowsMatch(u.posts, h + [s]) && u.sequence == |Keys(h + [s])|
  {
    KeysNext(h, s);
    if Known(h, KeyOf(s.record)) {
      FindKnown(t.posts, h, KeyOf(s.record));
      forall i | 0 <= i < |u.posts|
        ensures RowAt(u.posts, h + [s], i)
      {
        KnownRowStep(t, u, h, s, i);
      }
    } else {
      NewRowStep(t, u, h, s, |t.posts|);
      forall i | 0 <= i < |u.posts|
        ensures RowAt(u.posts, h + [s], i)
      {
        NewRowStep(t, u, h, s, i);
      }
    }
  }

  lemma IdAt(posts: seq<Post>, h: History, i: nat)
    requires RowsMatch(posts, h) && i < |posts|
    ensures posts[i].id == i + 1
  {
    assert RowAt(posts, h, i);
  }

  lemma TargetFound(t: Tables, r: SourceRecord, i: nat)
    requires Find(t.posts, KeyOf(r)) == Some(i)
    ensures TargetId(t, r) == t.posts[i].id
  {
  }

  lemma TargetMissing(t: Tables, r: SourceRecord)
    requires Find(t.posts, KeyOf(r)).None?
    ensures TargetId(t, r) == t.sequence + 1
  {
  }

  lemma TargetStep(t: Tables, h: History, s: Stamped, id: nat)
    requires t.sequence == |Keys(h)| && RowsMatch(t.posts, h) && id == TargetId(t, s.record)
    ensures 1 <= id <= |Keys(h + [s])| && Keys(h + [s])[id - 1] == KeyOf(s.record)
  {
    var k := KeyOf(s.record);
    FindKnown(t.posts, h, k);
    KeysNext(h, s);
    match Find(t.posts, k)
    case Some(i) =>
      IdAt(t.posts, h, i);
      TargetFound(t, s.record, i);
    case None =>
      TargetMissing(t, s.record);
  }

  lemma TextsReplaced(t: Tables, id: nat, r: SourceRecord, table: TextTable)
    ensures var u := ReplacedChildren(t, id, r);
            Holds(u.texts, (table, id), TextList(table, r))
    ensures forall k :: k in ReplacedChildren(t, id, r).texts ==> k in t.texts || k.0.1 == id
  {
    var p, c, g := (Performers, id), (Covers, id), (Pages, id);
    var one := Replaced(t.texts, p, r.performersRaw);
    var two := Replaced(one, c, r.coverUrls);
    ReplacedHolds(t.texts, p, r.performersRaw);
    ReplacedHolds(one, c, r.coverUrls);
    ReplacedHolds(two, g, r.pageUrls);
    HoldsElsewhere(one, two, c, p, r.performersRaw);
    HoldsElsewhere(two, Replaced(two, g, r.pageUrls), g, p, r.performersRaw);
    HoldsElsewhere(two, Replaced(two, g, r.pageUrls), g, c, r.coverUrls);
  }

  lemma TextsKept(t: Tables, id: nat, r: SourceRecord, owner: TextOwner, values: seq<string>)
    requires owner.1 != id && Holds(t.texts, owner, values)
    ensures Holds(ReplacedChildren(t, id, r).texts, owner, values)
  {
    var p, c, g := (Performers, id), (Covers, id), (Pages, id);
    var one := Replaced(t.texts, p, r.performersRaw);
    var two := Replaced(one, c, r.coverUrls);
    ReplacedHolds(t.texts, p, r.performersRaw);
    ReplacedHolds(one, c, r.coverUrls);
    ReplacedHolds(two, g, r.pageUrls);
    HoldsElsewhere(t.texts, one, p, owner, values);
    HoldsElsewhere(one, two, c, owner, values);
    HoldsElsewhere(two, Replaced(two, g, r.pageUrls), g, owner, values);
  }

  lemma LinksReplaced(t: Tables, id: nat, r: SourceRecord)
    ensures var u := ReplacedChildren(t, id, r);
            && Holds(u.links, id, LinkRows(r.externalLinks)) && SameElsewhere(t.links, u.links, id)
            && u.posts == t.posts && u.sequence == t.sequence
  {
    ReplacedHolds(t.links, id, LinkRows(r.externalLinks));
  }

  /** The last record of the owner in position `i` after one more record. */
  lemma OwnerStep(h: History, s: Stamped, i: nat)
    requires i < |Keys(h + [s])|
    ensures var k := Keys(h + [s])[i];
            && Known(h + [s], k)
            && (k == KeyOf(s.record) ==> Last(h + [s], k) == s)
            && (k != KeyOf(s.record) ==>
                  i < |Keys(h)| && Keys(h)[i] == k && Known(h, k) && Last(h + [s], k) == Last(h, k))
  {
    KeysNext(h, s);
    KeysMeans(h);
    var k := Keys(h + [s])[i];
    if k == KeyOf(s.record) {
      KnownNext(h, s, k);
    } else {
      OtherKeyUnmoved(h, s, k, 0);
    }
  }

  /** What the owner in position `i` owns, when the record's own row is `id`. */
  lemma OwnerCase(h: History, g: History, s: Stamped, id: nat, i: nat)
    requires g == h + [s] && 1 <= id <= |Keys(g)| && Keys(g)[id - 1] == KeyOf(s.record) && i < |Keys(g)|
    ensures Known(g, Keys(g)[i])
    ensures i == id - 1 ==> Last(g, Keys(g)[i]) == s
    ensures i != id - 1 ==>
              && i < |Keys(h)| && Keys(h)[i] == Keys(g)[i] && Known(h, Keys(h)[i])
              && Last(g, Keys(g)[i]) == Last(h, Keys(h)[i])
  {
    OwnerStep(h, s, i);
    if i != id - 1 {
      KeysMeans(g);
    }
  }

  lemma TextHeld(texts: Child<TextOwner, string>, g: History, i: nat, table: TextTable, r: SourceRecord)
    requires i < |Keys(g)| && Known(g, Keys(g)[i]) && Last(g, Keys(g)[i]).record == r
    requires Holds(texts, (table, i + 1), TextList(table, r))
    ensures TextMatches(texts, g, i, table)
  {
  }

  lemma LinksHeld(links: Child<nat, LinkRow>, g: History, i: nat, r: SourceRecord)
    requires i < |Keys(g)| && Known(g, Keys(g)[i]) && Last(g, Keys(g)[i]).record == r
    requires Holds(links, i + 1, LinkRows(r.externalLinks))
    ensures LinksMatch(links, g, i)
  {
  }

  ghost predicate KeepsOthers(t: Child<TextOwner, string>, u: Child<TextOwner, string>, id: nat) {
    forall owner: TextOwner, values :: owner.1 != id && Holds(t, owner, values) ==> Holds(u, owner, values)
  }

  lemma OthersKept(t: Tables, id: nat, r: SourceRecord)
    ensures KeepsOthers(t.texts, ReplacedChildren(t, id, r).texts, id)
  {
    forall owner: TextOwner, values | owner.1 != id && Holds(t.texts, owner, values)
      ensures Holds(ReplacedChildren(t, id, r).texts, owner, values)
    {
      TextsKept(t, id, r, owner, values);
    }
  }

  lemma TextStep(
    t: Child<TextOwner, string>, u: Child<TextOwner, string>, h: History, g: History, s: Stamped, id: nat, i: nat,
    table: TextTable)
    requires g == h + [s] && 1 <= id <= |Keys(g)| && Keys(g)[id - 1] == KeyOf(s.record) && i < |Keys(g)|
    requires Holds(u, (table, id), TextList(table, s.record)) && KeepsOthers(t, u, id)
    requires i < |Keys(h)| ==> TextMatches(t, h, i, table)
    ensures TextMatches(u, g, i, table)
  {
    OwnerCase(h, g, s, id, i);
    if i == id - 1 {
      TextHeld(u, g, i, table, s.record);
    } else {
      var owner: TextOwner := (table, i + 1);
      assert Holds(t, owner, TextList(table, Last(h, Keys(h)[i]).record));
      TextHeld(u, g, i, table, Last(h, Keys(h)[i]).record);
    }
  }

  lemma LinkStep(
    t: Child<nat, LinkRow>, u: Child<nat, LinkRow>, h: History, g: History, s: Stamped, id: nat, i: nat)
    requires g == h + [s] && 1 <= id <= |Keys(g)| && Keys(g)[id - 1] == KeyOf(s.record) && i < |Keys(g)|
    requires Holds(u, id, LinkRows(s.record.externalLinks)) && SameElsewhere(t, u, id)
    requires i < |Keys(h)| ==> LinksMatch(t, h, i)
    ensures LinksMatch(u, g, i)
  {
    OwnerCase(h, g, s, id, i);
    if i == id - 1 {
      LinksHeld(u, g, i, s.record);
    } else {
      HoldsElsewhere(t, u, id, i + 1, LinkRows(Last(h, Keys(h)[i]).record.externalLinks));
      LinksHeld(u, g, i, Last(h, Keys(h)[i]).record);
    }
  }

  lemma ChildrenStep(t: Tables, u: Tables, h: History, s: Stamped, id: nat)
    requires ChildrenMatch(t.texts, t.links, h) && u == ReplacedChildren(t, id, s.record)
    requires 1 <= id <= |Keys(h + [s])| && Keys(h + [s])[id - 1] == KeyOf(s.record)
    ensures ChildrenMatch(u.texts, u.links, h + [s])
  {
    KeysNext(h, s);
    LinksReplaced(t, id, s.record);
    OthersKept(t, id, s.record);
    TextsReplaced(t, id, s.record, Performers);
    forall i, table | 0 <= i < |Keys(h + [s])|
      ensures TextMatches(u.texts, h + [s], i, table)
    {
      TextsReplaced(t, id, s.record, table);
      TextStep(t.texts, u.texts, h, h + [s], s, id, i, table);
    }
    forall i | 0 <= i < |Keys(h + [s])|
      ensures LinksMatch(u.links, h + [s], i)
    {
      LinkStep(t.links, u.links, h, h + [s], s, id, i);
    }
  }

  lemma StepRefines(t: Tables, u: Tables, v: Tables, h: History, s: Stamped, id: nat)
    requires Refines(t, h) && u == UpsertedPosts(t, s.record, s.at)
    requires id == TargetId(t, s.record) && v == ReplacedChildren(u, id, s.record)
    ensures Refines(v, h + [s])
  {
    RowsStep(t, u, h, s);
    TargetStep(t, h, s, id);
    ChildrenStep(u, v, h, s, id);
    LinksReplaced(u, id, s.record);
  }

  /** One `ingest_one` is one step of the fold. */
  lemma IngestRefines(t: Tables, h: History, s: Stamped)
    requires Refines(t, h)
    ensures Refines(Ingested(t, s.record, s.at), h + [s])
  {
    StepRefines(t, UpsertedPosts(t, s.record, s.at), Ingested(t, s.record, s.at), h, s, TargetId(t, s.record));
  }

  lemma NoneIngested(t: Tables, h: History, batch: seq<Stamped>)
    ensures IngestAll(t, batch[..0]) == t && h + batch[..0] == h
  {
  }

  lemma Snoc(h: History, batch: seq<Stamped>, n: nat)
    requires n < |batch|
    ensures h + batch[..n] + [batch[n]] == h + batch[..n + 1]
  {
  }

  lemma {:induction false} PrefixRefines(t: Tables, h: History, batch: seq<Stamped>, n: nat)
    returns (u: Tables, g: History)
    requires Refines(t, h) && n <= |batch|
    ensures u == IngestAll(t, batch[..n]) && g == h + batch[..n]
    ensures Refines(u, g)
  {
    if n == 0 {
      NoneIngested(t, h, batch);
      u, g := t, h;
    } else {
      var u0, g0 := PrefixRefines(t, h, batch, n - 1);
      var s := batch[n - 1];
      IngestRefines(u0, g0, s);
      u, g := Ingested(u0, s.record, s.at), g0 + [s];
      IngestAllNext(t, batch, n - 1);
      Snoc(h, batch, n - 1);
    }
  }

  /** A batch is that many steps of the fold. */
  lemma BatchRefines(t: Tables, h: History, batch: seq<Stamped>)
    requires Refines(t, h)
    ensures Refines(IngestAll(t, batch), h + batch)
  {
    var u, g := PrefixRefines(t, h, batch, |batch|);
    assert batch[..|batch|] == batch;
  }

  // ---------------------------------------------------------------------
  // Whole histories of batches, some of which fail
  // ---------------------------------------------------------------------

  datatype Attempt = Attempt(records: seq<SourceRecord>, stamps: seq<Time>, valid: SourceRecord -> bool, budget: nat)

  type Attempts = a: seq<Attempt> | forall i :: 0 <= i < |a| ==> |a[i].records| == |a[i].stamps| witness []

  ghost predicate Commits(a: Attempt) {
    AllValid(a.records, a.valid) && a.budget > TotalCost(a.records) + 1
  }

  /** The records of the batches that committed. */
  ghost function Committed(attempts: Attempts): History {
    if attempts == [] then []
    else
      var a := attempts[|attempts| - 1];
      var before: Attempts := attempts[..|attempts| - 1];
      Committed(before) + if Commits(a) then Batch(a.records, a.stamps) else []
  }

  lemma CommittedNext(attempts: Attempts, i: nat)
    requires i < |attempts|
    ensures Committed(attempts[..i + 1])
         == Committed(attempts[..i])
          + if Commits(attempts[i]) then Batch(attempts[i].records, attempts[i].stamps) else []
  {
    assert attempts[..i + 1][..i] == attempts[..i];
  }

  /** The store after a run of batches refines the fold over exactly the
      records of those that succeeded: the others left no trace. */
  method Replay(attempts: Attempts) returns (store: Store)
    ensures fresh(store) && Refines(store.tables, Committed(attempts))
  {
    store := new Store();
    assert attempts[..0] == [];
    for i := 0 to |attempts|
      invariant fresh(store) && Refines(store.tables, Committed(attempts[..i]))
    {
      var a := attempts[i];
      var before := store.tables;
      CommittedNext(attempts, i);
      var r := store.IngestRecords(a.records, a.stamps, a.valid, a.budget);
      if r.Ok? {
        BatchRefines(before, Committed(attempts[..i]), Batch(a.records, a.stamps));
      } else {
        assert Committed(attempts[..i + 1]) == Committed(attempts[..i]);
      }
    }
    assert attempts[..|attempts|] == attempts;
  }
}
