/** Canonical JSON: keys sorted at every depth, printed without whitespace. */
module Canonical {
  import opened Wrappers
  import opened Json
  import Utf8

  /** The two key orders in use: Rust compares the UTF-8 bytes of keys, Python
      compares their code points. */
  datatype KeyOrder = ByteOrder | CodePointOrder

  predicate Below(order: KeyOrder, a: string, b: string) {
    match order
    case ByteOrder => Utf8.BytesBelow(Utf8.Encode(a), Utf8.Encode(b))
    case CodePointOrder => Utf8.CodePointsBelow(a, b)
  }

  function Insert(order: KeyOrder, m: Member, ms: seq<Member>): (r: seq<Member>)
  {
    if ms == [] || Below(order, m.key, ms[0].key) then [m] + ms
    else [ms[0]] + Insert(order, m, ms[1..])
  }

  function Sort(order: KeyOrder, v: Value): Value
    decreases v
  {
    match v
    case Arr(items) => Arr(SortItems(order, items))
    case Obj(ms) => Obj(SortMembers(order, ms))
    case _ => v
  }

  function SortItems(order: KeyOrder, items: seq<Value>): (r: seq<Value>)
    ensures |r| == |items|
    decreases items
  {
    if items == [] then [] else [Sort(order, items[0])] + SortItems(order, items[1..])
  }

  function SortMembers(order: KeyOrder, ms: seq<Member>): seq<Member>
    decreases ms
  {
    if ms == [] then []
    else Insert(order, Member(ms[0].key, Sort(order, ms[0].value)), SortMembers(order, ms[1..]))
  }

  /** `canonical_json` of the Rust crates and of the Python SDK. */
  function CanonicalRust(v: Value): string {
    Print(Sort(ByteOrder, v))
  }

  function CanonicalPython(v: Value): string {
    Print(Sort(CodePointOrder, v))
  }

  /** Equal up to the order of object keys, at every depth. */
  ghost predicate SameUpToKeyOrder(v: Value, w: Value)
    decreases v, 0
  {
    match (v, w)
    case (Arr(xs), Arr(ys)) =>
      |xs| == |ys| && forall i :: 0 <= i < |xs| ==> SameUpToKeyOrder(xs[i], ys[i])
    case (Obj(ms), Obj(ns)) =>
      && (forall i :: 0 <= i < |ms| ==> MatchedRight(ms, i, ns))
      && (forall j :: 0 <= j < |ns| ==> MatchedLeft(ms, ns, j))
    case _ => v == w
  }

  ghost predicate MatchedRight(ms: seq<Member>, i: nat, ns: seq<Member>)
    requires i < |ms|
    decreases ms, 1
  {
    exists j :: 0 <= j < |ns| && ms[i].key == ns[j].key && SameUpToKeyOrder(ms[i].value, ns[j].value)
  }

  ghost predicate MatchedLeft(ms: seq<Member>, ns: seq<Member>, j: nat)
    requires j < |ns|
    decreases ms, 1
  {
    exists i :: 0 <= i < |ms| && ms[i].key == ns[j].key && SameUpToKeyOrder(ms[i].value, ns[j].value)
  }

  // ---------------------------------------------------------------------
  // Both languages sort alike
  // ---------------------------------------------------------------------

  lemma OrdersAgree(a: string, b: string)
    ensures Below(ByteOrder, a, b) == Below(CodePointOrder, a, b)
  {
    Utf8.EncodingPreservesOrder(a, b);
  }

  lemma {:induction false} InsertAgrees(m: Member, ms: seq<Member>)
    ensures Insert(ByteOrder, m, ms) == Insert(CodePointOrder, m, ms)
  {
    if ms != [] {
      OrdersAgree(m.key, ms[0].key);
      InsertAgrees(m, ms[1..]);
    }
  }

  lemma {:induction false} SortsAgree(v: Value)
    ensures Sort(ByteOrder, v) == Sort(CodePointOrder, v)
    decreases v
  {
    match v
    case Arr(items) => SortItemsAgree(items);
    case Obj(ms) => SortMembersAgree(ms);
    case _ =>
  }

  lemma {:induction false} SortItemsAgree(items: seq<Value>)
    ensures SortItems(ByteOrder, items) == SortItems(CodePointOrder, items)
    decreases items
  {
    if items != [] {
      SortsAgree(items[0]);
      SortItemsAgree(items[1..]);
    }
  }

  lemma {:induction false} SortMembersAgree(ms: seq<Member>)
    ensures SortMembers(ByteOrder, ms) == SortMembers(CodePointOrder, ms)
    decreases ms
  {
    if ms != [] {
      SortsAgree(ms[0].value);
      SortMembersAgree(ms[1..]);
      InsertAgrees(Member(ms[0].key, Sort(ByteOrder, ms[0].value)), SortMembers(ByteOrder, ms[1..]));
    }
  }

  /** The Rust and Python encoders lay out the same canonical text. */
  lemma LanguagesAgree(v: Value)
    ensures CanonicalRust(v) == CanonicalPython(v)
  {
    SortsAgree(v);
  }

  // ---------------------------------------------------------------------
  // Code-point order is a strict total order
  // ---------------------------------------------------------------------

  lemma {:induction false} Total(a: string, b: string)
    ensures Below(CodePointOrder, a, b) || a == b || Below(CodePointOrder, b, a)
    ensures !(Below(CodePointOrder, a, b) && Below(CodePointOrder, b, a))
    ensures a == b ==> !Below(CodePointOrder, a, b)
  {
    if a != "" && b != "" && a[0] == b[0] {
      Total(a[1..], b[1..]);
      assert a == [a[0]] + a[1..] && b == [b[0]] + b[1..];
    }
  }

  lemma {:induction false} Transitive(a: string, b: string, c: string)
    requires Below(CodePointOrder, a, b) && Below(CodePointOrder, b, c)
    ensures Below(CodePointOrder, a, c)
  {
    if a != "" && a[0] == b[0] == c[0] {
      Transitive(a[1..], b[1..], c[1..]);
    }
  }

  // ---------------------------------------------------------------------
  // Sorted member lists
  // ---------------------------------------------------------------------

  predicate Ascending(ms: seq<Member>) {
    forall i, j :: 0 <= i < j < |ms| ==> Below(CodePointOrder, ms[i].key, ms[j].key)
  }

  predicate FreshKey(key: string, ms: seq<Member>) {
    forall i :: 0 <= i < |ms| ==> ms[i].key != key
  }

  lemma {:induction false} InsertSorts(m: Member, ms: seq<Member>)
    requires Ascending(ms) && FreshKey(m.key, ms)
    ensures var r := Insert(CodePointOrder, m, ms);
            Ascending(r) && multiset(r) == multiset{m} + multiset(ms)
  {
    if ms == [] {
    } else if Below(CodePointOrder, m.key, ms[0].key) {
      forall j | 0 < j < |ms|
        ensures Below(CodePointOrder, m.key, ms[j].key)
      {
        Transitive(m.key, ms[0].key, ms[j].key);
      }
    } else {
      Total(m.key, ms[0].key);
      InsertSorts(m, ms[1..]);
      var tail := Insert(CodePointOrder, m, ms[1..]);
      assert ms == [ms[0]] + ms[1..];
      forall j | 0 <= j < |tail|
        ensures Below(CodePointOrder, ms[0].key, tail[j].key)
      {
        assert tail[j] in multiset(tail);
        if tail[j] != m {
          var k :| 0 <= k < |ms[1..]| && ms[1..][k] == tail[j];
          assert ms[k + 1] == tail[j];
        }
      }
    }
  }

  /** The sorted form of each member, in the original order. */
  function SortEach(ms: seq<Member>): (r: seq<Member>)
    ensures |r| == |ms|
    ensures forall i :: 0 <= i < |ms| ==> r[i] == Member(ms[i].key, Sort(CodePointOrder, ms[i].value))
    decreases ms
  {
    if ms == [] then []
    else [Member(ms[0].key, Sort(CodePointOrder, ms[0].value))] + SortEach(ms[1..])
  }

  /** Sorting an object rearranges the sorted forms of its members, with keys
      strictly ascending. */
  lemma {:induction false} SortMembersSorts(ms: seq<Member>)
    requires DistinctKeys(ms)
    ensures Ascending(SortMembers(CodePointOrder, ms))
    ensures multiset(SortMembers(CodePointOrder, ms)) == multiset(SortEach(ms))
    decreases ms
  {
    if ms != [] {
      SortMembersSorts(ms[1..]);
      var m := Member(ms[0].key, Sort(CodePointOrder, ms[0].value));
      var tail := SortMembers(CodePointOrder, ms[1..]);
      forall i | 0 <= i < |tail|
        ensures tail[i].key != m.key
      {
        assert tail[i] in multiset(SortEach(ms[1..]));
      }
      InsertSorts(m, tail);
    }
  }

  lemma AnElement(b: seq<Member>) returns (m: Member)
    requires b != []
    ensures m in b
  {
    m := b[0];
  }

  /** Two ascending lists with the same elements are the same list. */
  lemma {:induction false} AscendingUnique(a: seq<Member>, b: seq<Member>)
    requires Ascending(a) && Ascending(b)
    requires forall m :: m in a <==> m in b
    ensures a == b
  {
    if a == [] {
      if b != [] {
        var m := AnElement(b);
      }
    } else {
      assert a[0] in a && a[0] in b;
      assert b[0] in b && b[0] in a;
      var i :| 0 <= i < |a| && a[i] == b[0];
      var j :| 0 <= j < |b| && b[j] == a[0];
      Total(a[0].key, b[0].key);
      assert i == 0 && j == 0;
      forall m
        ensures m in a[1..] <==> m in b[1..]
      {
        TailMembers(a, m);
        TailMembers(b, m);
      }
      AscendingUnique(a[1..], b[1..]);
      assert a == [a[0]] + a[1..] && b == [b[0]] + b[1..];
    }
  }

  lemma TailMembers(a: seq<Member>, m: Member)
    requires a != [] && Ascending(a)
    ensures m in a[1..] <==> m in a && m != a[0]
  {
    Total(a[0].key, a[0].key);
    if m in a && m != a[0] {
      var i :| 0 <= i < |a| && a[i] == m;
      assert a[1..][i - 1] == m;
    }
  }

  // ---------------------------------------------------------------------
  // Well-formedness and idempotence
  // ---------------------------------------------------------------------

  lemma {:induction false} SortWellFormed(v: Value)
    requires WellFormed(v)
    ensures WellFormed(Sort(CodePointOrder, v))
    decreases v
  {
    match v
    case Arr(items) => SortItemsAt(items);
      forall i | 0 <= i < |items|
        ensures WellFormed(SortItems(CodePointOrder, items)[i])
      {
        SortWellFormed(items[i]);
      }
    case Obj(ms) =>
      SortMembersSorts(ms);
      var r := SortMembers(CodePointOrder, ms);
      forall i | 0 <= i < |ms|
        ensures WellFormed(SortEach(ms)[i].value)
      {
        SortWellFormed(ms[i].value);
      }
      forall i | 0 <= i < |r|
        ensures WellFormed(r[i].value)
      {
        assert r[i] in multiset(SortEach(ms));
      }
      forall i, j | 0 <= i < j < |r|
        ensures r[i].key != r[j].key
      {
        Total(r[i].key, r[j].key);
      }
    case _ =>
  }

  lemma {:induction false} SortItemsAt(items: seq<Value>)
    ensures forall i :: 0 <= i < |items| ==> SortItems(CodePointOrder, items)[i] == Sort(CodePointOrder, items[i])
    decreases items
  {
    if items != [] {
      SortItemsAt(items[1..]);
    }
  }

  /** The members of a sorted object are the sorted forms of its members. */
  lemma Origin(ms: seq<Member>, m: Member) returns (i: nat)
    requires DistinctKeys(ms) && m in SortMembers(CodePointOrder, ms)
    ensures i < |ms| && m == Member(ms[i].key, Sort(CodePointOrder, ms[i].value))
  {
    SortMembersSorts(ms);
    assert m in multiset(SortEach(ms));
    i :| 0 <= i < |ms| && SortEach(ms)[i] == m;
  }

  lemma Lands(ms: seq<Member>, i: nat)
    requires DistinctKeys(ms) && i < |ms|
    ensures Member(ms[i].key, Sort(CodePointOrder, ms[i].value)) in SortMembers(CodePointOrder, ms)
  {
    SortMembersSorts(ms);
    assert SortEach(ms)[i] in multiset(SortEach(ms));
    assert SortEach(ms)[i] in multiset(SortMembers(CodePointOrder, ms));
  }

  lemma {:induction false} SortIdempotent(v: Value)
    requires WellFormed(v)
    ensures Sort(CodePointOrder, Sort(CodePointOrder, v)) == Sort(CodePointOrder, v)
    decreases v, 0
  {
    match v
    case Arr(items) => SortItemsIdempotent(items);
    case Obj(ms) => SortMembersIdempotent(ms);
    case _ =>
  }

  lemma {:induction false} SortItemsIdempotent(items: seq<Value>)
    requires forall i :: 0 <= i < |items| ==> WellFormed(items[i])
    ensures var once := SortItems(CodePointOrder, items);
            SortItems(CodePointOrder, once) == once
    decreases items, 1
  {
    if items != [] {
      SortIdempotent(items[0]);
      SortItemsIdempotent(items[1..]);
      var once := SortItems(CodePointOrder, items);
      assert once[1..] == SortItems(CodePointOrder, items[1..]);
    }
  }

  lemma {:induction false} SortMembersIdempotent(ms: seq<Member>)
    requires WellFormed(Obj(ms))
    ensures var once := SortMembers(CodePointOrder, ms);
            SortMembers(CodePointOrder, once) == once
    decreases ms, 1
  {
    var once := SortMembers(CodePointOrder, ms);
    SortWellFormed(Obj(ms));
    assert DistinctKeys(once);
    forall i | 0 <= i < |once|
      ensures Sort(CodePointOrder, once[i].value) == once[i].value
    {
      var k := Origin(ms, once[i]);
      SortIdempotent(ms[k].value);
    }
    assert SortEach(once) == once;
    SortMembersSorts(once);
    SortMembersSorts(ms);
    SameElements(SortMembers(CodePointOrder, once), once);
    AscendingUnique(SortMembers(CodePointOrder, once), once);
  }

  lemma SameElements(a: seq<Member>, b: seq<Member>)
    requires multiset(a) == multiset(b)
    ensures forall m :: m in a <==> m in b
  {
    forall m
      ensures m in a <==> m in b
    {
      assert m in a <==> m in multiset(a);
    }
  }

  // ---------------------------------------------------------------------
  // Canonical text decides equality up to key order
  // ---------------------------------------------------------------------

  lemma {:induction false} SameSorted(v: Value, w: Value)
    requires WellFormed(v) && WellFormed(w) && SameUpToKeyOrder(v, w)
    ensures Sort(CodePointOrder, v) == Sort(CodePointOrder, w)
    decreases v, 0
  {
    match (v, w)
    case (Arr(xs), Arr(ys)) =>
      SameItemsSorted(xs, ys);
    case (Obj(ms), Obj(ns)) =>
      forall m
        ensures m in SortMembers(CodePointOrder, ms) <==> m in SortMembers(CodePointOrder, ns)
      {
        if m in SortMembers(CodePointOrder, ms) {
          SortedForward(ms, ns, m);
        }
        if m in SortMembers(CodePointOrder, ns) {
          SortedBackward(ms, ns, m);
        }
      }
      SortMembersSorts(ms);
      SortMembersSorts(ns);
      AscendingUnique(SortMembers(CodePointOrder, ms), SortMembers(CodePointOrder, ns));
    case _ =>
  }

  lemma {:induction false} SameItemsSorted(xs: seq<Value>, ys: seq<Value>)
    requires WellFormed(Arr(xs)) && WellFormed(Arr(ys)) && |xs| == |ys|
    requires forall i :: 0 <= i < |xs| ==> SameUpToKeyOrder(xs[i], ys[i])
    ensures SortItems(CodePointOrder, xs) == SortItems(CodePointOrder, ys)
    decreases xs, 1
  {
    if xs != [] {
      SameSorted(xs[0], ys[0]);
      SameItemsSorted(xs[1..], ys[1..]);
    }
  }

  lemma CounterpartRight(ms: seq<Member>, ns: seq<Member>, i: nat) returns (j: nat)
    requires SameUpToKeyOrder(Obj(ms), Obj(ns)) && i < |ms|
    ensures j < |ns| && ms[i].key == ns[j].key && SameUpToKeyOrder(ms[i].value, ns[j].value)
  {
    assert MatchedRight(ms, i, ns);
    j :| 0 <= j < |ns| && ms[i].key == ns[j].key && SameUpToKeyOrder(ms[i].value, ns[j].value);
  }

  lemma CounterpartLeft(ms: seq<Member>, ns: seq<Member>, j: nat) returns (i: nat)
    requires SameUpToKeyOrder(Obj(ms), Obj(ns)) && j < |ns|
    ensures i < |ms| && ms[i].key == ns[j].key && SameUpToKeyOrder(ms[i].value, ns[j].value)
  {
    assert MatchedLeft(ms, ns, j);
    i :| 0 <= i < |ms| && ms[i].key == ns[j].key && SameUpToKeyOrder(ms[i].value, ns[j].value);
  }

  lemma {:induction false} SortedForward(ms: seq<Member>, ns: seq<Member>, m: Member)
    requires WellFormed(Obj(ms)) && WellFormed(Obj(ns)) && SameUpToKeyOrder(Obj(ms), Obj(ns))
    requires m in SortMembers(CodePointOrder, ms)
    ensures m in SortMembers(CodePointOrder, ns)
    decreases ms, 1
  {
    var i := Origin(ms, m);
    var j := CounterpartRight(ms, ns, i);
    SameSorted(ms[i].value, ns[j].value);
    Lands(ns, j);
  }

  lemma {:induction false} SortedBackward(ms: seq<Member>, ns: seq<Member>, m: Member)
    requires WellFormed(Obj(ms)) && WellFormed(Obj(ns)) && SameUpToKeyOrder(Obj(ms), Obj(ns))
    requires m in SortMembers(CodePointOrder, ns)
    ensures m in SortMembers(CodePointOrder, ms)
    decreases ms, 1
  {
    var j := Origin(ns, m);
    var i := CounterpartLeft(ms, ns, j);
    SameSorted(ms[i].value, ns[j].value);
    Lands(ms, i);
  }

  lemma {:induction false} SortedSame(v: Value, w: Value)
    requires WellFormed(v) && WellFormed(w)
    requires Sort(CodePointOrder, v) == Sort(CodePointOrder, w)
    ensures SameUpToKeyOrder(v, w)
    decreases v, 0
  {
    match (v, w)
    case (Arr(xs), Arr(ys)) => SortedSameItems(xs, ys);
    case (Obj(ms), Obj(ns)) => SortedSameMembers(ms, ns);
    case _ =>
  }

  lemma {:induction false} SortedSameItems(xs: seq<Value>, ys: seq<Value>)
    requires WellFormed(Arr(xs)) && WellFormed(Arr(ys))
    requires SortItems(CodePointOrder, xs) == SortItems(CodePointOrder, ys)
    ensures |xs| == |ys| && forall i :: 0 <= i < |xs| ==> SameUpToKeyOrder(xs[i], ys[i])
    decreases xs, 1
  {
    SortItemsAt(xs);
    SortItemsAt(ys);
    forall i | 0 <= i < |xs|
      ensures SameUpToKeyOrder(xs[i], ys[i])
    {
      assert SortItems(CodePointOrder, xs)[i] == SortItems(CodePointOrder, ys)[i];
      SortedSame(xs[i], ys[i]);
    }
  }

  lemma {:induction false} SortedSameMembers(ms: seq<Member>, ns: seq<Member>)
    requires WellFormed(Obj(ms)) && WellFormed(Obj(ns))
    requires SortMembers(CodePointOrder, ms) == SortMembers(CodePointOrder, ns)
    ensures SameUpToKeyOrder(Obj(ms), Obj(ns))
    decreases ms, 2
  {
    forall i | 0 <= i < |ms|
      ensures MatchedRight(ms, i, ns)
    {
      var j := MatchForward(ms, ns, i);
    }
    forall j | 0 <= j < |ns|
      ensures MatchedLeft(ms, ns, j)
    {
      var i := MatchBackward(ms, ns, j);
    }
  }

  lemma {:induction false} MatchForward(ms: seq<Member>, ns: seq<Member>, i: nat) returns (j: nat)
    requires WellFormed(Obj(ms)) && WellFormed(Obj(ns)) && i < |ms|
    requires SortMembers(CodePointOrder, ms) == SortMembers(CodePointOrder, ns)
    ensures j < |ns| && ms[i].key == ns[j].key && SameUpToKeyOrder(ms[i].value, ns[j].value)
    decreases ms, 1
  {
    Lands(ms, i);
    j := Origin(ns, Member(ms[i].key, Sort(CodePointOrder, ms[i].value)));
    SortedSame(ms[i].value, ns[j].value);
  }

  lemma {:induction false} MatchBackward(ms: seq<Member>, ns: seq<Member>, j: nat) returns (i: nat)
    requires WellFormed(Obj(ms)) && WellFormed(Obj(ns)) && j < |ns|
    requires SortMembers(CodePointOrder, ms) == SortMembers(CodePointOrder, ns)
    ensures i < |ms| && ms[i].key == ns[j].key && SameUpToKeyOrder(ms[i].value, ns[j].value)
    decreases ms, 1
  {
    Lands(ns, j);
    i := Origin(ms, Member(ns[j].key, Sort(CodePointOrder, ns[j].value)));
    SortedSame(ms[i].value, ns[j].value);
  }

  /** Canonical texts are equal exactly when the values are equal up to the
      order of object keys at every depth. */
  lemma CanonicalDecidesEquality(v: Value, w: Value)
    requires WellFormed(v) && WellFormed(w)
    ensures CanonicalRust(v) == CanonicalRust(w) <==> SameUpToKeyOrder(v, w)
  {
    SortsAgree(v);
    SortsAgree(w);
    if CanonicalRust(v) == CanonicalRust(w) {
      SortWellFormed(v);
      SortWellFormed(w);
      ParseInvertsPrint(Sort(CodePointOrder, v));
      ParseInvertsPrint(Sort(CodePointOrder, w));
      SortedSame(v, w);
    }
    if SameUpToKeyOrder(v, w) {
      SameSorted(v, w);
    }
  }

  /** Reading a canonical text gives a value equal to the original up to key
      order, and canonicalising that value again changes nothing. */
  lemma CanonicalIdempotent(v: Value)
    requires WellFormed(v)
    ensures var back := Parse(CanonicalRust(v));
            && back.Some? && WellFormed(back.value)
            && SameUpToKeyOrder(back.value, v)
            && CanonicalRust(back.value) == CanonicalRust(v)
  {
    SortsAgree(v);
    SortWellFormed(v);
    var s := Sort(CodePointOrder, v);
    ParseInvertsPrint(s);
    SortIdempotent(v);
    SortsAgree(s);
    CanonicalDecidesEquality(s, v);
  }
}
