/** The core database: its tables as data, the upsert as a function of the
    tables, and the transaction that performs it statement by statement. */
module Database {
  import opened Wrappers
  import opened Json
  import opened Domain
  import Canonical
  import Utf8

  type Time = int

  /** A child table: rows keyed by their owner and a position. */
  type Child<!K(==), T> = map<(K, nat), T>

  datatype TextTable = Performers | Covers | Pages

  type TextOwner = (TextTable, nat)

  datatype Key = Key(sourceName: string, sourceUrl: string)

  datatype Post = Post(
    id: nat,
    key: Key,
    title: string,
    brandRaw: string,
    issueNo: Option<string>,
    releaseDate: Option<string>,
    postDate: Option<string>,
    brandNormalized: Option<string>,
    normalizerId: Option<string>,
    normalizerVersion: Option<string>,
    fingerprint: Option<string>,
    extraJson: string,
    firstSeen: Time,
    lastSeen: Time,
    updatedAt: Time)

  datatype LinkRow = LinkRow(
    url: string,
    provider: Option<string>,
    caption: Option<string>,
    kind: Option<string>,
    externalId: Option<string>,
    metadataJson: string)

  /** `sequence` is SQLite's AUTOINCREMENT counter: the largest id ever issued. */
  datatype Tables = Tables(
    posts: seq<Post>,
    sequence: nat,
    texts: Child<TextOwner, string>,
    links: Child<nat, LinkRow>)

  const EMPTY: Tables := Tables([], 0, map[], map[])

  function KeyOf(r: SourceRecord): Key {
    Key(r.sourceName, r.sourceUrl)
  }

  // ---------------------------------------------------------------------
  // The content fingerprint
  // ---------------------------------------------------------------------

  function OptionValue(s: Option<string>): Value {
    if s.Some? then Str(s.value) else Null
  }

  function StrList(xs: seq<string>): Value {
    Arr(seq(|xs|, i requires 0 <= i < |xs| => Str(xs[i])))
  }

  function LinkValue(link: ExternalLink): Value {
    Obj([Member("url", Str(link.url)), Member("provider", OptionValue(link.provider)),
         Member("label", OptionValue(link.caption)), Member("kind", OptionValue(link.kind)),
         Member("external_id", OptionValue(link.externalId)), Member("metadata", Obj(link.metadata))])
  }

  function LinkList(links: seq<ExternalLink>): Value {
    Arr(seq(|links|, i requires 0 <= i < |links| => LinkValue(links[i])))
  }

  function FingerprintValue(r: SourceRecord, releaseDate: Option<string>): Value {
    Obj([Member("source_name", Str(r.sourceName)), Member("source_url", Str(r.sourceUrl)),
         Member("title", Str(r.title)), Member("brand_raw", Str(r.brandRaw)),
         Member("performers_raw", StrList(r.performersRaw)), Member("cover_urls", StrList(r.coverUrls)),
         Member("page_urls", StrList(r.pageUrls)), Member("external_links", LinkList(r.externalLinks)),
         Member("issue_no", OptionValue(r.issueNo)), Member("release_date", OptionValue(releaseDate)),
         Member("post_date", OptionValue(r.postDate)), Member("brand_normalized", OptionValue(r.brandNormalized)),
         Member("normalizer_id", OptionValue(r.normalizerId)),
         Member("normalizer_version", OptionValue(r.normalizerVersion)), Member("extra", Obj(r.extra))])
  }

  predicate Bit(a: nat, i: nat) {
    if i == 0 then a % 2 == 1 else Bit(a / 2, i - 1)
  }

  function Xor(a: nat, b: nat): nat {
    if a == 0 then b
    else if b == 0 then a
    else (if a % 2 == b % 2 then 0 else 1) + 2 * Xor(a / 2, b / 2)
  }

  lemma {:induction false} NoBitsInZero(i: nat)
    ensures !Bit(0, i)
  {
    if i > 0 {
      NoBitsInZero(i - 1);
    }
  }

  lemma {:induction false} XorIsBitwise(a: nat, b: nat, i: nat)
    ensures Bit(Xor(a, b), i) <==> Bit(a, i) != Bit(b, i)
    decreases i
  {
    if a == 0 || b == 0 {
      NoBitsInZero(i);
    } else if i > 0 {
      XorIsBitwise(a / 2, b / 2, i - 1);
      assert Xor(a, b) / 2 == Xor(a / 2, b / 2);
    }
  }

  /** FNV-1a; the product wraps at 64 bits. */
  function Fnv(bytes: Utf8.Bytes): (hash: nat)
    ensures hash < 0x1_0000_0000_0000_0000
  {
    if bytes == [] then 0xcbf29ce484222325
    else Xor(Fnv(bytes[..|bytes| - 1]), bytes[|bytes| - 1]) * 0x100000001b3 % 0x1_0000_0000_0000_0000
  }

  method Fnv1a64(bytes: Utf8.Bytes) returns (hash: nat)
    ensures hash == Fnv(bytes)
  {
    hash := 0xcbf29ce484222325;
    for i := 0 to |bytes|
      invariant hash == Fnv(bytes[..i])
    {
      assert bytes[..i + 1][..i] == bytes[..i];
      hash := Xor(hash, bytes[i]);
      hash := hash * 0x100000001b3 % 0x1_0000_0000_0000_0000;
    }
    assert bytes[..|bytes|] == bytes;
  }

  function Hex(n: nat, digits: nat): string {
    if digits == 0 then "" else Hex(n / 16, digits - 1) + [HexDigit(n % 16)]
  }

  function Digest64(canonical: string): string {
    "fnv1a64:" + Hex(Fnv(Utf8.Encode(canonical)), 16)
  }

  /** `content_fingerprint`. */
  function Fingerprint(r: SourceRecord, releaseDate: Option<string>): string {
    Digest64(Canonical.CanonicalRust(FingerprintValue(r, releaseDate)))
  }

  // ---------------------------------------------------------------------
  // Child tables
  // ---------------------------------------------------------------------

  /** The rows of `owner` are exactly `values`, at positions 0..n-1. */
  ghost predicate Holds<K(!new), T(!new)>(c: Child<K, T>, owner: K, values: seq<T>) {
    && (forall p: nat :: (owner, p) in c <==> p < |values|)
    && (forall p: nat :: p < |values| ==> c[(owner, p)] == values[p])
  }

  /** No owner but `owner` differs between the two tables. */
  ghost predicate SameElsewhere<K(!new), T(!new)>(c: Child<K, T>, d: Child<K, T>, owner: K) {
    && (forall k: (K, nat) :: k.0 != owner ==> (k in c <==> k in d))
    && (forall k: (K, nat) :: k.0 != owner && k in c && k in d ==> c[k] == d[k])
  }

  function Deleted<K(!new), T>(c: Child<K, T>, owner: K): (d: Child<K, T>)
    ensures forall k: (K, nat) :: k in d <==> k in c && k.0 != owner
    ensures forall k: (K, nat) :: k in d ==> d[k] == c[k]
  {
    map k | k in c && k.0 != owner :: c[k]
  }

  /** The first `n` values inserted. */
  function Inserted<K(!new), T>(c: Child<K, T>, owner: K, values: seq<T>): (d: Child<K, T>)
    ensures forall k: (K, nat) :: k in d <==> k in c || (k.0 == owner && k.1 < |values|)
    ensures forall k: (K, nat) :: k in d ==> d[k] == if k.0 == owner && k.1 < |values| then values[k.1] else c[k]
    decreases |values|
  {
    if values == [] then c
    else Inserted(c, owner, values[..|values| - 1])[(owner, |values| - 1) := values[|values| - 1]]
  }

  lemma InsertedNext<K(!new), T(!new)>(c: Child<K, T>, owner: K, values: seq<T>, i: nat)
    requires i < |values|
    ensures Inserted(c, owner, values[..i + 1]) == Inserted(c, owner, values[..i])[(owner, i) := values[i]]
  {
    assert values[..i + 1][..i] == values[..i];
  }

  function Replaced<K(!new), T>(c: Child<K, T>, owner: K, values: seq<T>): Child<K, T> {
    Inserted(Deleted(c, owner), owner, values)
  }

  lemma ReplacedHolds<K(!new), T(!new)>(c: Child<K, T>, owner: K, values: seq<T>)
    ensures Holds(Replaced(c, owner, values), owner, values)
    ensures SameElsewhere(c, Replaced(c, owner, values), owner)
  {
  }

  lemma HoldsElsewhere<K(!new), T(!new)>(c: Child<K, T>, d: Child<K, T>, owner: K, other: K, values: seq<T>)
    requires SameElsewhere(c, d, owner) && other != owner && Holds(c, other, values)
    ensures Holds(d, other, values)
  {
    assert forall p: nat :: (other, p).0 != owner;
  }

  lemma HoldsAt<K(!new), T(!new)>(c: Child<K, T>, owner: K, values: seq<T>, p: nat)
    requires Holds(c, owner, values)
    ensures (owner, p) in c <==> p < |values|
    ensures p < |values| ==> c[(owner, p)] == values[p]
  {
  }

  /** An owner's list can be read back in only one way. */
  lemma HoldsUnique<K(!new), T(!new)>(c: Child<K, T>, owner: K, a: seq<T>, b: seq<T>)
    requires Holds(c, owner, a) && Holds(c, owner, b)
    ensures a == b
  {
    HoldsAt(c, owner, a, |a|);
    HoldsAt(c, owner, b, |a|);
    HoldsAt(c, owner, a, |b|);
    HoldsAt(c, owner, b, |b|);
    forall p: nat | p < |a|
      ensures a[p] == b[p]
    {
      HoldsAt(c, owner, a, p);
      HoldsAt(c, owner, b, p);
    }
  }

  // ---------------------------------------------------------------------
  // The upsert
  // ---------------------------------------------------------------------

  /** The row with this key, by its index in id order. */
  function Find(posts: seq<Post>, key: Key): (r: Option<nat>)
    ensures r.Some? ==> r.value < |posts| && posts[r.value].key == key
    ensures r.None? ==> forall i :: 0 <= i < |posts| ==> posts[i].key != key
  {
    if posts == [] then None
    else if posts[|posts| - 1].key == key then Some(|posts| - 1)
    else Find(posts[..|posts| - 1], key)
  }

  function EffectiveDate(posts: seq<Post>, r: SourceRecord): Option<string> {
    if r.releaseDate.Some? then r.releaseDate
    else
      match Find(posts, KeyOf(r))
      case Some(i) => posts[i].releaseDate
      case None => None
  }

  function UpdatedPost(was: Post, r: SourceRecord, date: Option<string>, now: Time): Post {
    var fingerprint := Fingerprint(r, date);
    Post(was.id, was.key, r.title, r.brandRaw, r.issueNo, date, r.postDate, r.brandNormalized, r.normalizerId,
         r.normalizerVersion, Some(fingerprint), Print(Obj(r.extra)), was.firstSeen, now,
         if was.fingerprint != Some(fingerprint) then now else was.updatedAt)
  }

  function NewPost(id: nat, r: SourceRecord, date: Option<string>, now: Time): Post {
    Post(id, KeyOf(r), r.title, r.brandRaw, r.issueNo, date, r.postDate, r.brandNormalized, r.normalizerId,
         r.normalizerVersion, Some(Fingerprint(r, date)), Print(Obj(r.extra)), now, now, now)
  }

  function LinkRowOf(link: ExternalLink): LinkRow {
    LinkRow(link.url, link.provider, link.caption, link.kind, link.externalId, Print(Obj(link.metadata)))
  }

  function LinkRows(links: seq<ExternalLink>): (r: seq<LinkRow>)
    ensures |r| == |links|
    ensures forall i :: 0 <= i < |links| ==> r[i] == LinkRowOf(links[i])
  {
    seq(|links|, i requires 0 <= i < |links| => LinkRowOf(links[i]))
  }

  function TextList(table: TextTable, r: SourceRecord): seq<string> {
    match table
    case Performers => r.performersRaw
    case Covers => r.coverUrls
    case Pages => r.pageUrls
  }

  function ReplacedChildren(t: Tables, id: nat, r: SourceRecord): Tables {
    var a := Replaced(t.texts, (Performers, id), r.performersRaw);
    var b := Replaced(a, (Covers, id), r.coverUrls);
    var c := Replaced(b, (Pages, id), r.pageUrls);
    t.(texts := c, links := Replaced(t.links, id, LinkRows(r.externalLinks)))
  }

  /** The id `ingest_one` writes to. */
  function TargetId(t: Tables, r: SourceRecord): nat {
    match Find(t.posts, KeyOf(r))
    case Some(i) => t.posts[i].id
    case None => t.sequence + 1
  }

  function UpsertedPosts(t: Tables, r: SourceRecord, now: Time): Tables {
    var date := EffectiveDate(t.posts, r);
    match Find(t.posts, KeyOf(r))
    case Some(i) => t.(posts := t.posts[i := UpdatedPost(t.posts[i], r, date, now)])
    case None => t.(posts := t.posts + [NewPost(t.sequence + 1, r, date, now)], sequence := t.sequence + 1)
  }

  /** `ingest_one`. */
  function Ingested(t: Tables, r: SourceRecord, now: Time): Tables {
    ReplacedChildren(UpsertedPosts(t, r, now), TargetId(t, r), r)
  }

  /** A record and the time its row statement ran at. */
  datatype Stamped = Stamped(record: SourceRecord, at: Time)

  function IngestAll(t: Tables, batch: seq<Stamped>): Tables {
    if batch == [] then t
    else
      var last := batch[|batch| - 1];
      Ingested(IngestAll(t, batch[..|batch| - 1]), last.record, last.at)
  }

  lemma IngestAllNext(t: Tables, batch: seq<Stamped>, i: nat)
    requires i < |batch|
    ensures IngestAll(t, batch[..i + 1]) == Ingested(IngestAll(t, batch[..i]), batch[i].record, batch[i].at)
  {
    assert batch[..i + 1][..i] == batch[..i];
  }

  lemma {:induction false} IngestAllAppend(t: Tables, a: seq<Stamped>, b: seq<Stamped>)
    ensures IngestAll(t, a + b) == IngestAll(IngestAll(t, a), b)
  {
    if b == [] {
      assert a + b == a;
    } else {
      assert (a + b)[..|a + b| - 1] == a + b[..|b| - 1];
      IngestAllAppend(t, a, b[..|b| - 1]);
    }
  }

  // ---------------------------------------------------------------------
  // The transaction
  // ---------------------------------------------------------------------

  datatype DbError = Validation | Sqlite

  /** Statements one record takes: a lookup, an upsert, and a delete and an
      insert per child for each child table. */
  function Cost(r: SourceRecord): nat {
    6 + |r.performersRaw| + |r.coverUrls| + |r.pageUrls| + |r.externalLinks|
  }

  function TotalCost(records: seq<SourceRecord>): nat {
    if records == [] then 0 else TotalCost(records[..|records| - 1]) + Cost(records[|records| - 1])
  }

  /** Uncommitted work on a copy of the tables. The engine may fail at any
      statement: `budget` statements succeed and the next one fails. */
  class Transaction {
    var tables: Tables
    var budget: nat

    constructor (tables: Tables, budget: nat)
      ensures this.tables == tables && this.budget == budget
    {
      this.tables, this.budget := tables, budget;
    }

    method Execute() returns (ok: bool)
      modifies this`budget
      ensures ok == (old(budget) > 0)
      ensures budget == if ok then old(budget) - 1 else old(budget)
    {
      ok := budget > 0;
      if ok {
        budget := budget - 1;
      }
    }

    /** `replace_values`. */
    method ReplaceValues(owner: TextOwner, values: seq<string>) returns (ok: bool)
      modifies this
      ensures ok == (old(budget) >= 1 + |values|)
      ensures ok ==> budget == old(budget) - 1 - |values|
      ensures ok ==> tables == old(tables).(texts := Replaced(old(tables).texts, owner, values))
    {
      ok := Execute();
      if !ok {
        return;
      }
      ghost var start := tables;
      tables := tables.(texts := Deleted(tables.texts, owner));
      assert values[..0] == [];
      for position := 0 to |values|
        invariant tables == start.(texts := Inserted(Deleted(start.texts, owner), owner, values[..position]))
        invariant budget == old(budget) - 1 - position
      {
        ok := Execute();
        if !ok {
          return;
        }
        InsertedNext(Deleted(start.texts, owner), owner, values, position);
        tables := tables.(texts := tables.texts[(owner, position) := values[position]]);
      }
      assert values[..|values|] == values;
    }

    /** `replace_external_links`. */
    method ReplaceExternalLinks(id: nat, links: seq<ExternalLink>) returns (ok: bool)
      modifies this
      ensures ok == (old(budget) >= 1 + |links|)
      ensures ok ==> budget == old(budget) - 1 - |links|
      ensures ok ==> tables == old(tables).(links := Replaced(old(tables).links, id, LinkRows(links)))
    {
      ok := Execute();
      if !ok {
        return;
      }
      ghost var start := tables;
      ghost var rows := LinkRows(links);
      tables := tables.(links := Deleted(tables.links, id));
      assert rows[..0] == [];
      for position := 0 to |links|
        invariant tables == start.(links := Inserted(Deleted(start.links, id), id, rows[..position]))
        invariant budget == old(budget) - 1 - position
      {
        ok := Execute();
        if !ok {
          return;
        }
        InsertedNext(Deleted(start.links, id), id, rows, position);
        tables := tables.(links := tables.links[(id, position) := LinkRowOf(links[position])]);
      }
      assert rows[..|links|] == rows;
    }

    /** The lookup and the row statement of `ingest_one`. */
    method Upsert(r: SourceRecord, now: Time) returns (ok: bool, id: nat)
      modifies this
      ensures ok == (old(budget) >= 2)
      ensures ok ==> budget == old(budget) - 2
      ensures ok ==> tables == UpsertedPosts(old(tables), r, now) && id == TargetId(old(tables), r)
    {
      id := 0;
      ok := Execute();
      if !ok {
        return;
      }
      var existing := Find(tables.posts, KeyOf(r));
      var date := r.releaseDate;
      if date.None? && existing.Some? {
        date := tables.posts[existing.value].releaseDate;
      }
      ok := Execute();
      if !ok {
        return;
      }
      match existing
      case Some(i) =>
        id := tables.posts[i].id;
        tables := tables.(posts := tables.posts[i := UpdatedPost(tables.posts[i], r, date, now)]);
      case None =>
        id := tables.sequence + 1;
        tables := tables.(posts := tables.posts + [NewPost(id, r, date, now)], sequence := id);
    }

    /** `ingest_one`. */
    method IngestOne(r: SourceRecord, now: Time) returns (ok: bool)
      modifies this
      ensures ok == (old(budget) >= Cost(r))
      ensures ok ==> budget == old(budget) - Cost(r) && tables == Ingested(old(tables), r, now)
    {
      var id;
      ok, id := Upsert(r, now);
      if ok {
        ok := ReplaceValues((Performers, id), r.performersRaw);
      }
      if ok {
        ok := ReplaceValues((Covers, id), r.coverUrls);
      }
      if ok {
        ok := ReplaceValues((Pages, id), r.pageUrls);
      }
      if ok {
        ok := ReplaceExternalLinks(id, r.externalLinks);
      }
    }
  }

  function Batch(records: seq<SourceRecord>, stamps: seq<Time>): (r: seq<Stamped>)
    requires |records| == |stamps|
    ensures |r| == |records|
    ensures forall i :: 0 <= i < |r| ==> r[i] == Stamped(records[i], stamps[i])
  {
    seq(|records|, i requires 0 <= i < |records| => Stamped(records[i], stamps[i]))
  }

  ghost predicate AllValid(records: seq<SourceRecord>, valid: SourceRecord -> bool) {
    forall r :: r in records ==> valid(r)
  }

  lemma AllValidNext(records: seq<SourceRecord>, valid: SourceRecord -> bool, i: nat)
    requires i < |records|
    ensures AllValid(records[..i + 1], valid) <==> AllValid(records[..i], valid) && valid(records[i])
    ensures AllValid(records, valid) ==> valid(records[i])
  {
    assert records[..i + 1] == records[..i] + [records[i]];
  }

  class Store {
    var tables: Tables

    constructor ()
      ensures tables == EMPTY
    {
      tables := EMPTY;
    }

    /** `ingest_records`: the whole batch or nothing. It succeeds exactly when
        every record is valid and the engine completes every statement, from the
        opening one to the commit. */
    method IngestRecords(
      records: seq<SourceRecord>, stamps: seq<Time>, valid: SourceRecord -> bool, budget: nat)
      returns (r: Result<nat, DbError>)
      requires |records| == |stamps|
      modifies this
      ensures r.Ok? <==> AllValid(records, valid) && budget > TotalCost(records) + 1
      ensures r.Ok? ==> r.value == |records| && tables == IngestAll(old(tables), Batch(records, stamps))
      ensures r.Err? ==> tables == old(tables)
      ensures r == Err(Validation) ==> !AllValid(records, valid)
    {
      var tx := new Transaction(tables, budget);
      var begun := tx.Execute();
      if !begun {
        return Err(Sqlite);
      }
      ghost var batch := Batch(records, stamps);
      assert batch[..0] == [] && records[..0] == [];
      for i := 0 to |records|
        invariant fresh(tx) && tables == old(tables)
        invariant tx.tables == IngestAll(old(tables), batch[..i])
        invariant budget == tx.budget + 1 + TotalCost(records[..i])
        invariant AllValid(records[..i], valid)
      {
        TotalCostNext(records, i);
        TotalCostGrows(records, i + 1);
        IngestAllNext(old(tables), batch, i);
        AllValidNext(records, valid, i);
        if !valid(records[i]) {
          return Err(Validation);
        }
        var ok := tx.IngestOne(records[i], stamps[i]);
        if !ok {
          return Err(Sqlite);
        }
      }
      assert batch[..|records|] == batch && records[..|records|] == records;
      var committed := tx.Execute();
      if !committed {
        return Err(Sqlite);
      }
      tables := tx.tables;
      r := Ok(|records|);
    }
  }

  lemma TotalCostNext(records: seq<SourceRecord>, i: nat)
    requires i < |records|
    ensures TotalCost(records[..i + 1]) == TotalCost(records[..i]) + Cost(records[i])
  {
    assert records[..i + 1][..i] == records[..i];
  }

  lemma {:induction false} TotalCostGrows(records: seq<SourceRecord>, k: nat)
    requires k <= |records|
    ensures TotalCost(records[..k]) <= TotalCost(records)
    decreases |records| - k
  {
    if k == |records| {
      assert records[..k] == records;
    } else {
      TotalCostNext(records, k);
      TotalCostGrows(records, k + 1);
    }
  }
}
