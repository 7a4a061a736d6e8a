/** What holds of every committed state, and of two of them one batch apart. */
module Stored {
  import opened Wrappers
  import opened Json
  import opened Domain
  import opened Database
  import opened Ledger
  import Canonical

  // ---------------------------------------------------------------------
  // The fold over a history in two parts
  // ---------------------------------------------------------------------

  lemma {:induction false} KnownAppend(h: History, b: History, k: Key)
    ensures Known(h + b, k) <==> Known(h, k) || Known(b, k)
  {
    if b == [] {
      assert h + b == h;
    } else {
      assert (h + b)[..|h + b| - 1] == h + b[..|b| - 1];
      KnownAppend(h, b[..|b| - 1], k);
    }
  }

  lemma {:induction false} LastAppend(h: History, b: History, k: Key)
    requires Known(h, k) || Known(b, k)
    ensures Known(h + b, k)
    ensures Last(h + b, k) == if Known(b, k) then Last(b, k) else Last(h, k)
  {
    KnownAppend(h, b, k);
    if b == [] {
      assert h + b == h;
    } else {
      assert (h + b)[..|h + b| - 1] == h + b[..|b| - 1];
      if KeyOf(b[|b| - 1].record) != k {
        LastAppend(h, b[..|b| - 1], k);
      }
    }
  }

  lemma {:induction false} FirstAppend(h: History, b: History, k: Key)
    requires Known(h, k)
    ensures Known(h + b, k) && First(h + b, k) == First(h, k)
  {
    KnownAppend(h, b, k);
    if b == [] {
      assert h + b == h;
    } else {
      assert (h + b)[..|h + b| - 1] == h + b[..|b| - 1];
      FirstAppend(h, b[..|b| - 1], k);
    }
  }

  lemma {:induction false} LastDateAppend(h: History, b: History, k: Key)
    ensures LastDate(h + b, k) == if LastDate(b, k).Some? then LastDate(b, k) else LastDate(h, k)
  {
    if b == [] {
      assert h + b == h;
    } else {
      assert (h + b)[..|h + b| - 1] == h + b[..|b| - 1];
      LastDateAppend(h, b[..|b| - 1], k);
    }
  }

  lemma {:induction false} KeysAppend(h: History, b: History)
    ensures |Keys(h)| <= |Keys(h + b)| && Keys(h + b)[..|Keys(h)|] == Keys(h)
    ensures (forall k :: Known(b, k) ==> Known(h, k)) ==> Keys(h + b) == Keys(h)
  {
    if b == [] {
      assert h + b == h;
    } else {
      var p := b[..|b| - 1];
      assert (h + b)[..|h + b| - 1] == h + p;
      KeysAppend(h, p);
      var k := KeyOf(b[|b| - 1].record);
      KnownAppend(h, p, k);
      assert Known(b, k);
      assert forall k' :: Known(p, k') ==> Known(b, k');
    }
  }

  // ---------------------------------------------------------------------
  // Identity
  // ---------------------------------------------------------------------

  /** One row per key; ids count up from 1 and none exceeds the sequence. */
  lemma KeysAndIdsUnique(t: Tables, h: History)
    requires Refines(t, h)
    ensures forall i, j :: 0 <= i < j < |t.posts| ==> t.posts[i].key != t.posts[j].key
    ensures forall i :: 0 <= i < |t.posts| ==> t.posts[i].id == i + 1 <= t.sequence
    ensures forall k :: (exists i :: 0 <= i < |t.posts| && t.posts[i].key == k) <==> Known(h, k)
  {
    KeysMeans(h);
    assert forall i :: 0 <= i < |t.posts| ==> RowAt(t.posts, h, i) && t.posts[i].key == Keys(h)[i];
    forall k
      ensures (exists i :: 0 <= i < |t.posts| && t.posts[i].key == k) <==> Known(h, k)
    {
      if Known(h, k) {
        var i :| 0 <= i < |Keys(h)| && Keys(h)[i] == k;
        assert t.posts[i].key == k;
      }
    }
  }

  /** A row keeps its id, key and first-seen time through every later batch,
      and no new row reuses an id. */
  lemma IdsStable(t: Tables, h: History, batch: seq<Stamped>)
    requires Refines(t, h)
    ensures var u := IngestAll(t, batch);
            && |t.posts| <= |u.posts| && t.sequence <= u.sequence
            && (forall i :: 0 <= i < |t.posts| ==>
                  && u.posts[i].id == t.posts[i].id && u.posts[i].key == t.posts[i].key
                  && u.posts[i].firstSeen == t.posts[i].firstSeen)
            && (forall i :: |t.posts| <= i < |u.posts| ==> u.posts[i].id > t.sequence)
  {
    BatchRefines(t, h, batch);
    StableRows(t, h, IngestAll(t, batch), batch);
  }

  lemma StableRows(t: Tables, h: History, u: Tables, batch: seq<Stamped>)
    requires Refines(t, h) && Refines(u, h + batch)
    ensures |t.posts| <= |u.posts| && t.sequence <= u.sequence
    ensures forall i :: 0 <= i < |t.posts| ==>
              && u.posts[i].id == t.posts[i].id && u.posts[i].key == t.posts[i].key
              && u.posts[i].firstSeen == t.posts[i].firstSeen
    ensures forall i :: |t.posts| <= i < |u.posts| ==> u.posts[i].id > t.sequence
  {
    KeysAppend(h, batch);
    forall i | 0 <= i < |t.posts|
      ensures u.posts[i].id == t.posts[i].id && u.posts[i].key == t.posts[i].key
      ensures u.posts[i].firstSeen == t.posts[i].firstSeen
    {
      assert RowAt(t.posts, h, i) && RowAt(u.posts, h + batch, i);
      assert Keys(h + batch)[..|Keys(h)|][i] == Keys(h)[i];
      FirstAppend(h, batch, Keys(h)[i]);
    }
    forall i | |t.posts| <= i < |u.posts|
      ensures u.posts[i].id > t.sequence
    {
      IdAt(u.posts, h + batch, i);
    }
  }

  // ---------------------------------------------------------------------
  // Reading a stored post back
  // ---------------------------------------------------------------------

  /** `parse_json_object`. */
  function AsMap(text: string): Option<JsonMap> {
    match Parse(text)
    case Some(v) => if v.Obj? && WellFormed(v) then Some(v.members) else None
    case None => None
  }

  function StoredLinks(rows: seq<LinkRow>): Option<seq<ExternalLink>> {
    if rows == [] then Some([])
    else
      var row := rows[|rows| - 1];
      match (StoredLinks(rows[..|rows| - 1]), AsMap(row.metadataJson))
      case (Some(before), Some(metadata)) =>
        Some(before + [ExternalLink(row.url, row.provider, row.caption, row.kind, row.externalId, metadata)])
      case _ => None
  }

  /** The record a reader rebuilds from a row and its children. */
  function StoredRecord(
    p: Post, performers: seq<string>, covers: seq<string>, pages: seq<string>, rows: seq<LinkRow>)
    : Option<SourceRecord>
  {
    match (StoredLinks(rows), AsMap(p.extraJson))
    case (Some(links), Some(extra)) =>
      Some(SourceRecord(p.key.sourceName, p.key.sourceUrl, p.title, p.brandRaw, performers, covers, pages, links,
                        p.issueNo, p.releaseDate, p.postDate, p.brandNormalized, p.normalizerId,
                        p.normalizerVersion, extra))
    case _ => None
  }

  lemma AsMapOfPrint(m: JsonMap)
    ensures AsMap(Print(Obj(m))) == Some(m)
  {
    ParseInvertsPrint(Obj(m));
  }

  lemma LinkRowsPrefix(links: seq<ExternalLink>, n: nat)
    requires n <= |links|
    ensures LinkRows(links)[..n] == LinkRows(links[..n])
  {
  }

  lemma {:induction false} StoredLinksOfRows(links: seq<ExternalLink>)
    ensures StoredLinks(LinkRows(links)) == Some(links)
  {
    if links != [] {
      var n := |links| - 1;
      StoredLinksOfRows(links[..n]);
      LinkRowsPrefix(links, n);
      AsMapOfPrint(links[n].metadata);
      assert links[..n] + [links[n]] == links;
    }
  }

  lemma RowRecovered(h: History, k: Key, id: nat)
    requires Known(h, k)
    ensures var r := Last(h, k).record;
            StoredRecord(Row(h, k, id), r.performersRaw, r.coverUrls, r.pageUrls, LinkRows(r.externalLinks))
            == Some(r.(releaseDate := LastDate(h, k)))
  {
    var r := Last(h, k).record;
    var i := LastMeans(h, k);
    StoredLinksOfRows(r.externalLinks);
    AsMapOfPrint(r.extra);
  }

  ghost predicate ChildrenOf(
    t: Tables, id: nat, performers: seq<string>, covers: seq<string>, pages: seq<string>, rows: seq<LinkRow>)
  {
    && Holds(t.texts, (Performers, id), performers) && Holds(t.texts, (Covers, id), covers)
    && Holds(t.texts, (Pages, id), pages) && Holds(t.links, id, rows)
  }

  /** Every row has its four child lists, at positions 0..n-1, and there is
      only one way to read them. */
  lemma ChildrenAre(
    t: Tables, h: History, i: nat, performers: seq<string>, covers: seq<string>, pages: seq<string>,
    rows: seq<LinkRow>)
    requires Refines(t, h) && i < |t.posts|
    ensures Known(h, Keys(h)[i])
    ensures var r := Last(h, Keys(h)[i]).record;
            ChildrenOf(t, i + 1, performers, covers, pages, rows) <==>
              (performers == r.performersRaw && covers == r.coverUrls && pages == r.pageUrls
                && rows == LinkRows(r.externalLinks))
  {
    assert RowAt(t.posts, h, i);
    var r := Last(h, Keys(h)[i]).record;
    assert TextMatches(t.texts, h, i, Performers) && TextMatches(t.texts, h, i, Covers);
    assert TextMatches(t.texts, h, i, Pages) && LinksMatch(t.links, h, i);
    if ChildrenOf(t, i + 1, performers, covers, pages, rows) {
      HoldsUnique(t.texts, (Performers, i + 1), performers, r.performersRaw);
      HoldsUnique(t.texts, (Covers, i + 1), covers, r.coverUrls);
      HoldsUnique(t.texts, (Pages, i + 1), pages, r.pageUrls);
      HoldsUnique(t.links, i + 1, rows, LinkRows(r.externalLinks));
    }
  }

  /** Reading a committed post back gives the last record committed under its
      key, with the last release date that was not null; and the fingerprint
      stored with it is the fingerprint of exactly that. */
  lemma StoredPostIsLastRecord(
    t: Tables, h: History, i: nat, performers: seq<string>, covers: seq<string>, pages: seq<string>,
    rows: seq<LinkRow>)
    requires Refines(t, h) && i < |t.posts| && ChildrenOf(t, i + 1, performers, covers, pages, rows)
    ensures var p := t.posts[i];
            var stored := StoredRecord(p, performers, covers, pages, rows);
            && Known(h, p.key) && stored == Some(Last(h, p.key).record.(releaseDate := LastDate(h, p.key)))
            && p.fingerprint == Some(Fingerprint(stored.value, stored.value.releaseDate))
  {
    ChildrenAre(t, h, i, performers, covers, pages, rows);
    assert RowAt(t.posts, h, i);
    var k := Keys(h)[i];
    RowRecovered(h, k, i + 1);
    FingerprintIgnoresOwnDate(Last(h, k).record, LastDate(h, k));
  }

  lemma FingerprintIgnoresOwnDate(r: SourceRecord, date: Option<string>)
    ensures Fingerprint(r.(releaseDate := date), date) == Fingerprint(r, date)
  {
  }

  // ---------------------------------------------------------------------
  // One update
  // ---------------------------------------------------------------------

  lemma ListsWellFormed(xs: seq<string>, links: seq<ExternalLink>)
    ensures WellFormed(StrList(xs)) && WellFormed(LinkList(links))
  {
    forall i | 0 <= i < |links|
      ensures WellFormed(LinkValue(links[i]))
    {
      var metadata := Obj(links[i].metadata);
      assert WellFormed(metadata);
    }
  }

  lemma FingerprintValueWellFormed(r: SourceRecord, date: Option<string>)
    ensures WellFormed(FingerprintValue(r, date))
  {
    ListsWellFormed(r.performersRaw, r.externalLinks);
    ListsWellFormed(r.coverUrls, r.externalLinks);
    ListsWellFormed(r.pageUrls, r.externalLinks);
    assert WellFormed(Obj(r.extra));
  }

  /** Content that differs only in the order of object keys has one
      fingerprint. */
  lemma SameContentSameFingerprint(a: SourceRecord, aDate: Option<string>, b: SourceRecord, bDate: Option<string>)
    requires Canonical.SameUpToKeyOrder(FingerprintValue(a, aDate), FingerprintValue(b, bDate))
    ensures Fingerprint(a, aDate) == Fingerprint(b, bDate)
  {
    FingerprintValueWellFormed(a, aDate);
    FingerprintValueWellFormed(b, bDate);
    Canonical.CanonicalDecidesEquality(FingerprintValue(a, aDate), FingerprintValue(b, bDate));
  }

  /** Ingesting one record leaves every row with another key exactly as it was.
      The row with its key is seen now, and updated now exactly when its
      fingerprint changes; otherwise its update time stands. */
  lemma UpdatedAtFollowsFingerprint(t: Tables, h: History, s: Stamped, i: nat)
    requires Refines(t, h) && i < |t.posts|
    ensures var u := Ingested(t, s.record, s.at);
            && |t.posts| <= |u.posts|
            && (t.posts[i].key != KeyOf(s.record) ==> u.posts[i] == t.posts[i])
            && (t.posts[i].key == KeyOf(s.record) ==>
                  && u.posts[i].lastSeen == s.at
                  && (u.posts[i].fingerprint == t.posts[i].fingerprint ==> u.posts[i].updatedAt == t.posts[i].updatedAt)
                  && (u.posts[i].fingerprint != t.posts[i].fingerprint ==> u.posts[i].updatedAt == s.at))
  {
    IngestRefines(t, h, s);
    RowMoves(t, h, Ingested(t, s.record, s.at), s, i);
  }

  lemma RowMoves(t: Tables, h: History, u: Tables, s: Stamped, i: nat)
    requires Refines(t, h) && Refines(u, h + [s]) && i < |t.posts|
    ensures |t.posts| <= |u.posts|
    ensures t.posts[i].key != KeyOf(s.record) ==> u.posts[i] == t.posts[i]
    ensures t.posts[i].key == KeyOf(s.record) ==>
              && u.posts[i].lastSeen == s.at
              && (u.posts[i].fingerprint == t.posts[i].fingerprint ==> u.posts[i].updatedAt == t.posts[i].updatedAt)
              && (u.posts[i].fingerprint != t.posts[i].fingerprint ==> u.posts[i].updatedAt == s.at)
  {
    KeysNext(h, s);
    assert RowAt(t.posts, h, i) && RowAt(u.posts, h + [s], i);
    if t.posts[i].key == KeyOf(s.record) {
      UpdatedRow(h, s, i + 1);
    } else {
      OtherKeyUnmoved(h, s, Keys(h)[i], i + 1);
    }
  }

  // ---------------------------------------------------------------------
  // Ingesting a batch again
  // ---------------------------------------------------------------------

  ghost predicate SameRecords(a: History, b: History) {
    |a| == |b| && forall i :: 0 <= i < |a| ==> a[i].record == b[i].record
  }

  lemma {:induction false} SameRecordsFold(a: History, b: History, k: Key)
    requires SameRecords(a, b)
    ensures Known(a, k) <==> Known(b, k)
    ensures Known(a, k) ==> Last(a, k).record == Last(b, k).record
    ensures LastDate(a, k) == LastDate(b, k)
  {
    if a != [] {
      SameRecordsFold(a[..|a| - 1], b[..|b| - 1], k);
    }
  }

  /** The row that `k` has after `batch` and after `batch` again. */
  lemma RowAfterAgain(h: History, batch: History, again: History, k: Key)
    requires SameRecords(batch, again) && Known(h + batch, k)
    ensures var g := h + batch;
            && Known(g + again, k) && Last(g + again, k).record == Last(g, k).record
            && LastDate(g + again, k) == LastDate(g, k) && First(g + again, k) == First(g, k)
  {
    var g := h + batch;
    KnownAppend(h, batch, k);
    SameRecordsFold(batch, again, k);
    LastAppend(h, batch, k);
    LastAppend(g, again, k);
    LastDateAppend(h, batch, k);
    LastDateAppend(g, again, k);
    FirstAppend(g, again, k);
  }

  /** Equal but for when each row was last seen and last updated. */
  ghost predicate SameButTouched(t: Tables, u: Tables) {
    && t.sequence == u.sequence && t.texts == u.texts && t.links == u.links && |t.posts| == |u.posts|
    && forall i :: 0 <= i < |t.posts| ==>
         t.posts[i] == u.posts[i].(lastSeen := t.posts[i].lastSeen, updatedAt := t.posts[i].updatedAt)
  }

  ghost predicate SameOwners(h: History, g: History) {
    && Keys(h) == Keys(g)
    && forall k :: Known(h, k) ==>
         && Known(g, k) && Last(h, k).record == Last(g, k).record && LastDate(h, k) == LastDate(g, k)
         && First(h, k) == First(g, k)
  }

  lemma SameTexts(t: Tables, h: History, u: Tables, g: History, owner: TextOwner, p: nat)
    requires Refines(t, h) && Refines(u, g) && SameOwners(h, g)
    ensures (owner, p) in t.texts <==> (owner, p) in u.texts
    ensures (owner, p) in t.texts ==> t.texts[(owner, p)] == u.texts[(owner, p)]
  {
    if 1 <= owner.1 <= |Keys(h)| {
      var i := owner.1 - 1;
      assert TextMatches(t.texts, h, i, owner.0) && TextMatches(u.texts, g, i, owner.0);
      var values := TextList(owner.0, Last(h, Keys(h)[i]).record);
      assert owner == (owner.0, i + 1);
      HoldsAt(t.texts, owner, values, p);
      HoldsAt(u.texts, owner, values, p);
    }
  }

  lemma LinksOf(t: Tables, h: History, i: nat, r: SourceRecord)
    requires Refines(t, h) && i < |Keys(h)| && Known(h, Keys(h)[i]) && r == Last(h, Keys(h)[i]).record
    ensures Holds(t.links, i + 1, LinkRows(r.externalLinks))
  {
    assert LinksMatch(t.links, h, i);
  }

  lemma SameLinks(t: Tables, h: History, u: Tables, g: History, id: nat, p: nat)
    requires Refines(t, h) && Refines(u, g) && SameOwners(h, g)
    ensures (id, p) in t.links <==> (id, p) in u.links
    ensures (id, p) in t.links ==> t.links[(id, p)] == u.links[(id, p)]
  {
    if 1 <= id <= |Keys(h)| {
      var k := Keys(h)[id - 1];
      KeysMeans(h);
      var r := Last(h, k).record;
      LinksOf(t, h, id - 1, r);
      LinksOf(u, g, id - 1, r);
      HoldsAt(t.links, id, LinkRows(r.externalLinks), p);
      HoldsAt(u.links, id, LinkRows(r.externalLinks), p);
    }
  }

  lemma SameTables(t: Tables, h: History, u: Tables, g: History)
    requires Refines(t, h) && Refines(u, g) && SameOwners(h, g)
    ensures SameButTouched(t, u)
  {
    forall k: (TextOwner, nat)
      ensures (k in t.texts <==> k in u.texts) && (k in t.texts ==> t.texts[k] == u.texts[k])
    {
      SameTexts(t, h, u, g, k.0, k.1);
    }
    assert t.texts == u.texts;
    forall k: (nat, nat)
      ensures (k in t.links <==> k in u.links) && (k in t.links ==> t.links[k] == u.links[k])
    {
      SameLinks(t, h, u, g, k.0, k.1);
    }
    assert t.links == u.links;
    forall i | 0 <= i < |t.posts|
      ensures t.posts[i] == u.posts[i].(lastSeen := t.posts[i].lastSeen, updatedAt := t.posts[i].updatedAt)
    {
      assert RowAt(t.posts, h, i) && RowAt(u.posts, g, i);
    }
  }

  lemma SameOwnersAgain(h: History, batch: History, again: History)
    requires SameRecords(batch, again)
    ensures SameOwners(h + batch, h + batch + again)
  {
    var g := h + batch;
    forall k | Known(again, k)
      ensures Known(g, k)
    {
      SameRecordsFold(batch, again, k);
      KnownAppend(h, batch, k);
    }
    KeysAppend(g, again);
    forall k | Known(g, k)
      ensures && Known(g + again, k) && Last(g, k).record == Last(g + again, k).record
              && LastDate(g, k) == LastDate(g + again, k) && First(g, k) == First(g + again, k)
    {
      RowAfterAgain(h, batch, again, k);
    }
  }

  /** Ingesting a batch twice is ingesting it once, but for the times each row
      was last seen and updated: no row, child or id comes or goes. Keys may
      repeat within the batch. */
  lemma ReingestChangesNothing(t: Tables, h: History, batch: History, again: History)
    requires Refines(t, h) && SameRecords(batch, again)
    ensures var once := IngestAll(t, batch);
            SameButTouched(once, IngestAll(once, again))
  {
    BatchRefines(t, h, batch);
    var once := IngestAll(t, batch);
    BatchRefines(once, h + batch, again);
    SameOwnersAgain(h, batch, again);
    SameTables(once, h + batch, IngestAll(once, again), h + batch + again);
  }

  /** The release date the `n`-th record of a batch is stored with, when the
      batch comes again to a row whose date is `stored`. */
  function DateAgain(batch: History, n: nat, k: Key, stored: Option<string>): Option<string>
    requires n < |batch|
  {
    var date := LastDate(batch[..n + 1], k);
    if date.Some? then date else stored
  }

  /** The `n`-th record of the batch, if it is about this row, has the content
      that the row already has. */
  predicate RepeatsAt(p: Post, batch: History, n: int) {
    Mentions(batch, n, p.key) ==>
      p.fingerprint == Some(Fingerprint(batch[n].record, DateAgain(batch, n, p.key, p.releaseDate)))
  }

  /** Nothing the batch says about this row, on the way, differs from it. */
  ghost predicate Repeats(p: Post, batch: History) {
    forall n :: 0 <= n < |batch| ==> RepeatsAt(p, batch, n)
  }

  /** No record about `k` is stamped with this time. */
  ghost predicate NeverAt(again: History, k: Key, time: Time) {
    forall n :: Mentions(again, n, k) ==> again[n].at != time
  }

  lemma {:induction false} SameRecordsPrefix(a: History, b: History, n: nat)
    requires SameRecords(a, b) && n <= |a|
    ensures SameRecords(a[..n], b[..n])
  {
  }

  /** The content of `k` just after the `n`-th record of the second pass. */
  lemma ContentAgain(g: History, batch: History, again: History, k: Key, n: nat)
    requires SameRecords(batch, again) && Known(g, k) && Mentions(batch, n, k)
    ensures var f := g + again[..n + 1];
            Known(f, k) && Content(f, k) == Fingerprint(batch[n].record, DateAgain(batch, n, k, LastDate(g, k)))
  {
    var tail := again[..n + 1];
    assert tail[|tail| - 1] == again[n];
    LastAppend(g, tail, k);
    LastDateAppend(g, tail, k);
    SameRecordsPrefix(batch, again, n + 1);
    SameRecordsFold(batch[..n + 1], tail, k);
  }

  lemma ContentOther(e: History, s: Stamped, k: Key)
    requires Known(e, k) && KeyOf(s.record) != k
    ensures Known(e + [s], k) && Content(e + [s], k) == Content(e, k) && ChangedAt(e + [s], k) == ChangedAt(e, k)
  {
    assert (e + [s])[..|e|] == e;
  }

  lemma ContentSame(e: History, s: Stamped, k: Key)
    requires Known(e, k) && KeyOf(s.record) == k
    ensures Known(e + [s], k)
    ensures ChangedAt(e + [s], k) == if Content(e, k) == Content(e + [s], k) then ChangedAt(e, k) else s.at
  {
    assert (e + [s])[..|e|] == e;
  }

  /** The `n`-th record of the second pass leaves the content as `g` has it. */
  ghost predicate Quiet(g: History, again: History, k: Key, n: nat) {
    n < |again| && Mentions(again, n, k) ==>
      Known(g + again[..n + 1], k) && Known(g, k) && Content(g + again[..n + 1], k) == Content(g, k)
  }

  ghost predicate AllQuiet(g: History, again: History, k: Key, n: nat) {
    forall j :: 0 <= j < n ==> Quiet(g, again, k, j)
  }

  lemma AllQuietNext(g: History, again: History, k: Key, n: nat)
    requires n > 0
    ensures AllQuiet(g, again, k, n) <==> AllQuiet(g, again, k, n - 1) && Quiet(g, again, k, n - 1)
  {
  }

  ghost predicate ChangedIn(again: History, k: Key, n: nat, time: Time) {
    exists j :: 0 <= j < n && Mentions(again, j, k) && again[j].at == time
  }

  lemma ChangedInNext(again: History, k: Key, n: nat, time: Time)
    requires 0 < n <= |again|
    ensures ChangedIn(again, k, n - 1, time) ==> ChangedIn(again, k, n, time)
    ensures Mentions(again, n - 1, k) && again[n - 1].at == time ==> ChangedIn(again, k, n, time)
  {
    if ChangedIn(again, k, n - 1, time) {
      var j :| 0 <= j < n - 1 && Mentions(again, j, k) && again[j].at == time;
      assert 0 <= j < n;
    }
  }

  /** After `n` records of the second pass: the change time is that of `g`, or
      the time of one of them, according to whether all were quiet. */
  ghost predicate Follows(g: History, again: History, k: Key, n: nat, f: History) {
    && Known(g, k) && Known(f, k)
    && if AllQuiet(g, again, k, n) then ChangedAt(f, k) == ChangedAt(g, k) && Content(f, k) == Content(g, k)
       else ChangedIn(again, k, n, ChangedAt(f, k))
  }

  lemma QuietNext(g: History, again: History, k: Key, n: nat, f: History)
    requires 0 < n <= |again| && f == g + again[..n] && Known(g, k) && Known(f, k)
    ensures Quiet(g, again, k, n - 1) <==> (Mentions(again, n - 1, k) ==> Content(f, k) == Content(g, k))
  {
  }

  /** One more record: the content and the change time of `k` either stay, or
      the change time is that of the record. */
  lemma RecordNext(e: History, s: Stamped, k: Key)
    requires Known(e, k)
    ensures Known(e + [s], k)
    ensures KeyOf(s.record) != k || Content(e + [s], k) == Content(e, k) ==> ChangedAt(e + [s], k) == ChangedAt(e, k)
    ensures KeyOf(s.record) != k ==> Content(e + [s], k) == Content(e, k)
    ensures KeyOf(s.record) == k && Content(e + [s], k) != Content(e, k) ==> ChangedAt(e + [s], k) == s.at
  {
    if KeyOf(s.record) == k {
      ContentSame(e, s, k);
    } else {
      ContentOther(e, s, k);
    }
  }

  lemma FollowsNext(g: History, again: History, k: Key, n: nat, e: History, f: History)
    requires 0 < n <= |again| && e == g + again[..n - 1] && f == g + again[..n] && f == e + [again[n - 1]]
    requires Follows(g, again, k, n - 1, e)
    ensures Follows(g, again, k, n, f)
  {
    AllQuietNext(g, again, k, n);
    RecordNext(e, again[n - 1], k);
    QuietNext(g, again, k, n, f);
    ChangedInNext(again, k, n, ChangedAt(f, k));
  }

  lemma ChangeStep(g: History, again: History, k: Key, n: nat)
    requires 0 < n <= |again| && Follows(g, again, k, n - 1, g + again[..n - 1])
    ensures Follows(g, again, k, n, g + again[..n])
  {
    Snoc(g, again, n - 1);
    FollowsNext(g, again, k, n, g + again[..n - 1], g + again[..n]);
  }

  lemma {:induction false} ChangeAgain(g: History, again: History, k: Key, n: nat)
    requires Known(g, k) && n <= |again|
    ensures Follows(g, again, k, n, g + again[..n])
  {
    if n == 0 {
      assert g + again[..0] == g;
    } else {
      ChangeAgain(g, again, k, n - 1);
      ChangeStep(g, again, k, n);
    }
  }

  /** The row `p` of `k` repeats exactly when every record of the second pass is
      quiet. */
  lemma RepeatsIsQuiet(g: History, batch: History, again: History, k: Key, id: nat)
    requires SameRecords(batch, again) && Known(g, k)
    ensures Repeats(Row(g, k, id), batch) <==> AllQuiet(g, again, k, |again|)
  {
    var p := Row(g, k, id);
    forall n | 0 <= n < |batch|
      ensures RepeatsAt(p, batch, n) <==> Quiet(g, again, k, n)
    {
      if Mentions(batch, n, k) {
        ContentAgain(g, batch, again, k, n);
      }
    }
  }

  lemma RowMovesExactly(g: History, batch: History, again: History, k: Key, id: nat)
    requires SameRecords(batch, again) && Known(g, k)
    ensures Known(g + again, k)
    ensures Repeats(Row(g, k, id), batch) ==> ChangedAt(g + again, k) == ChangedAt(g, k)
    ensures !Repeats(Row(g, k, id), batch) ==> ChangedIn(again, k, |again|, ChangedAt(g + again, k))
  {
    ChangeAgain(g, again, k, |again|);
    assert again[..|again|] == again;
    RepeatsIsQuiet(g, batch, again, k, id);
  }

  /** Exactly when ingesting a batch again leaves a row's update time alone: when
      every record of the batch about that row, with its release date or else
      the last one before it in the batch or else the stored one, has the
      fingerprint that is stored. Otherwise the update time becomes the time of
      one of those records; so if the second pass is not stamped with the very
      time that is stored, it moves. */
  lemma ReingestMovesUpdatedAtExactly(t: Tables, h: History, batch: History, again: History, i: nat)
    requires Refines(t, h) && SameRecords(batch, again) && i < |IngestAll(t, batch).posts|
    ensures var p := IngestAll(t, batch).posts[i];
            var twice := IngestAll(IngestAll(t, batch), again);
            && i < |twice.posts|
            && (Repeats(p, batch) ==> twice.posts[i].updatedAt == p.updatedAt)
            && (!Repeats(p, batch) ==> ChangedIn(again, p.key, |again|, twice.posts[i].updatedAt))
    ensures var p := IngestAll(t, batch).posts[i];
            var twice := IngestAll(IngestAll(t, batch), again);
            NeverAt(again, p.key, p.updatedAt) ==> (twice.posts[i].updatedAt == p.updatedAt <==> Repeats(p, batch))
  {
    BatchRefines(t, h, batch);
    var once := IngestAll(t, batch);
    BatchRefines(once, h + batch, again);
    TwiceMovesExactly(once, h + batch, IngestAll(once, again), batch, again, i);
    SameOwnersAgain(h, batch, again);
  }

  lemma StampsDiffer(again: History, k: Key, n: nat, stored: Time, time: Time)
    requires ChangedIn(again, k, n, time) && NeverAt(again, k, stored)
    ensures time != stored
  {
  }

  lemma SameRowTwice(once: Tables, g: History, twice: Tables, again: History, i: nat)
    returns (k: Key)
    requires Refines(once, g) && Refines(twice, g + again) && i < |once.posts|
    ensures i < |twice.posts| && Known(g, k) && Known(g + again, k)
    ensures once.posts[i] == Row(g, k, i + 1) && twice.posts[i].updatedAt == ChangedAt(g + again, k)
  {
    KeysAppend(g, again);
    assert RowAt(once.posts, g, i) && RowAt(twice.posts, g + again, i);
    k := Keys(g)[i];
    assert Keys(g + again)[..|Keys(g)|][i] == k;
  }

  lemma TwiceMovesExactly(once: Tables, g: History, twice: Tables, batch: History, again: History, i: nat)
    requires Refines(once, g) && Refines(twice, g + again) && SameRecords(batch, again) && i < |once.posts|
    ensures i < |twice.posts|
    ensures var p := once.posts[i];
            && (Repeats(p, batch) ==> twice.posts[i].updatedAt == p.updatedAt)
            && (!Repeats(p, batch) ==> ChangedIn(again, p.key, |again|, twice.posts[i].updatedAt))
    ensures var p := once.posts[i];
            NeverAt(again, p.key, p.updatedAt) ==> (twice.posts[i].updatedAt == p.updatedAt <==> Repeats(p, batch))
  {
    var k := SameRowTwice(once, g, twice, again, i);
    RowMovesExactly(g, batch, again, k, i + 1);
    if !Repeats(Row(g, k, i + 1), batch) && NeverAt(again, k, ChangedAt(g, k)) {
      StampsDiffer(again, k, |again|, ChangedAt(g, k), ChangedAt(g + again, k));
    }
  }

  // ---------------------------------------------------------------------
  // Two families of batches
  // ---------------------------------------------------------------------

  /** The batch never says two different things about `k`. */
  ghost predicate Settled(batch: History, k: Key) {
    forall i, j :: Mentions(batch, i, k) && Mentions(batch, j, k) ==> batch[i].record == batch[j].record
  }

  /** In a settled batch the last record of `k` is any of them, and its dates
      are all one. */
  lemma SettledDate(batch: History, k: Key, i: nat)
    requires Settled(batch, k) && Mentions(batch, i, k)
    ensures Known(batch, k) && Last(batch, k).record == batch[i].record
    ensures LastDate(batch, k) == LastDate(batch[..i + 1], k) == batch[i].record.releaseDate
  {
    KnownMeans(batch, k);
    var j := LastMeans(batch, k);
    LastDateMeans(batch, k);
    if LastDate(batch, k).Some? {
      var d :| LatestDate(batch, k, d) && batch[d].record.releaseDate == LastDate(batch, k);
    }
    var front := batch[..i + 1];
    assert Mentions(front, i, k);
    LastDateMeans(front, k);
    if LastDate(front, k).Some? {
      var d :| LatestDate(front, k, d) && front[d].record.releaseDate == LastDate(front, k);
      assert Mentions(batch, d, k);
    }
  }

  lemma SettledRepeats(h: History, batch: History, k: Key, id: nat)
    requires Settled(batch, k) && Known(h + batch, k)
    ensures Repeats(Row(h + batch, k, id), batch)
  {
    var p := Row(h + batch, k, id);
    forall n | 0 <= n < |batch|
      ensures RepeatsAt(p, batch, n)
    {
      if Mentions(batch, n, k) {
        SettledDate(batch, k, n);
        LastAppend(h, batch, k);
        LastDateAppend(h, batch, k);
      }
    }
  }

  /** A batch that says only one thing about a key never moves its update time
      when it comes again. */
  lemma ReingestKeepsUpdatedAt(t: Tables, h: History, batch: History, again: History, i: nat)
    requires Refines(t, h) && SameRecords(batch, again)
    requires i < |IngestAll(t, batch).posts| && Settled(batch, IngestAll(t, batch).posts[i].key)
    ensures var once := IngestAll(t, batch);
            var twice := IngestAll(once, again);
            i < |twice.posts| && twice.posts[i].updatedAt == once.posts[i].updatedAt
  {
    ReingestMovesUpdatedAtExactly(t, h, batch, again, i);
    BatchRefines(t, h, batch);
    assert RowAt(IngestAll(t, batch).posts, h + batch, i);
    SettledRepeats(h, batch, IngestAll(t, batch).posts[i].key, i + 1);
  }

  lemma DatedDiffers(p: Post, batch: History, n: nat)
    requires Mentions(batch, n, p.key) && batch[n].record.releaseDate.Some?
    requires p.fingerprint != Some(Fingerprint(batch[n].record, batch[n].record.releaseDate))
    ensures !Repeats(p, batch)
  {
    assert batch[..n + 1][n] == batch[n];
    assert !RepeatsAt(p, batch, n);
  }

  /** A batch with a dated record about a key whose content is not the one that
      ends up stored moves its update time whenever it comes again. */
  lemma UnsettledBatchMovesUpdatedAt(t: Tables, h: History, batch: History, again: History, i: nat, n: nat)
    requires Refines(t, h) && SameRecords(batch, again) && i < |IngestAll(t, batch).posts|
    requires Mentions(batch, n, IngestAll(t, batch).posts[i].key) && batch[n].record.releaseDate.Some?
    requires IngestAll(t, batch).posts[i].fingerprint
          != Some(Fingerprint(batch[n].record, batch[n].record.releaseDate))
    ensures var p := IngestAll(t, batch).posts[i];
            var twice := IngestAll(IngestAll(t, batch), again);
            && i < |twice.posts|
            && (NeverAt(again, p.key, p.updatedAt) ==> twice.posts[i].updatedAt != p.updatedAt)
  {
    ReingestMovesUpdatedAtExactly(t, h, batch, again, i);
    DatedDiffers(IngestAll(t, batch).posts[i], batch, n);
  }
}
