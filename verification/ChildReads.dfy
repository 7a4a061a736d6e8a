/** Reading the child rows of a post: listed by position, or counted. */
module ChildReads {
  import opened Database

  function Positions<K(!new), T>(c: Child<K, T>, owner: K): (r: set<nat>)
    ensures forall p: nat :: p in r <==> (owner, p) in c
  {
    set k | k in c && k.0 == owner :: k.1
  }

  ghost predicate Rising(positions: seq<nat>) {
    forall i, j :: 0 <= i < j < |positions| ==> positions[i] < positions[j]
  }

  ghost predicate Lists<K(!new), T(!new)>(c: Child<K, T>, owner: K, positions: seq<nat>, values: seq<T>) {
    && Rising(positions) && |positions| == |values|
    && (forall p: nat :: p in positions <==> (owner, p) in c)
    && (forall i :: 0 <= i < |values| ==> c[(owner, positions[i])] == values[i])
  }

  /** `values` are the owner's rows in the order of their positions, gaps
      skipped. */
  ghost predicate InOrder<K(!new), T(!new)>(c: Child<K, T>, owner: K, values: seq<T>) {
    exists positions :: Lists(c, owner, positions, values)
  }

  ghost predicate Least(p: nat, s: set<nat>) {
    p in s && forall q :: q in s ==> p <= q
  }

  lemma HasLeast(s: set<nat>) returns (least: nat)
    requires s != {}
    ensures Least(least, s)
    decreases |s|
  {
    least :| least in s;
    var rest := s - {least};
    if rest != {} {
      var other := HasLeast(rest);
      forall q | q in s
        ensures (if other < least then other else least) <= q
      {
        assert q == least || q in rest;
      }
      least := if other < least then other else least;
    }
  }

  /** `child_values`. */
  method ChildValues<K(!new, ==), T(!new)>(c: Child<K, T>, owner: K) returns (values: seq<T>)
    ensures InOrder(c, owner, values)
  {
    var left := Positions(c, owner);
    ghost var positions: seq<nat> := [];
    values := [];
    while left != {}
      invariant Rising(positions) && |positions| == |values|
      invariant forall p: nat :: p in positions || p in left <==> (owner, p) in c
      invariant forall i, p :: 0 <= i < |positions| && p in left ==> positions[i] < p
      invariant forall i :: 0 <= i < |values| ==> (owner, positions[i]) in c && c[(owner, positions[i])] == values[i]
      decreases left
    {
      ghost var least := HasLeast(left);
      assert least in left && forall q :: q in left ==> least <= q;
      var p :| p in left && forall q :: q in left ==> p <= q;
      values := values + [c[(owner, p)]];
      positions := positions + [p];
      left := left - {p};
    }
    assert Lists(c, owner, positions, values);
  }

  /** `child_count`. */
  function ChildCount<K(!new), T>(c: Child<K, T>, owner: K): nat {
    |Positions(c, owner)|
  }

  lemma {:induction false} RisingFrom(positions: seq<nat>, i: nat)
    requires Rising(positions) && i < |positions|
    ensures i <= positions[i]
  {
    if i > 0 {
      RisingFrom(positions, i - 1);
    }
  }

  /** Rising positions without a gap are their own indices. */
  lemma {:induction false} NoGaps(positions: seq<nat>, n: nat)
    requires Rising(positions) && forall p: nat :: p in positions <==> p < n
    ensures |positions| == n && forall i :: 0 <= i < n ==> positions[i] == i
    decreases n
  {
    if n == 0 {
      assert forall i :: 0 <= i < |positions| ==> positions[i] in positions;
    } else {
      assert (n - 1) as nat in positions;
      var at :| 0 <= at < |positions| && positions[at] == n - 1;
      var last := |positions| - 1;
      assert positions[last] in positions;
      assert at == last;
      forall p: nat
        ensures p in positions[..last] <==> p < n - 1
      {
        if p in positions[..last] {
          assert p in positions;
        }
        if p < n - 1 {
          assert p in positions;
        }
      }
      NoGaps(positions[..last], n - 1);
    }
  }

  /** What is listed is what is stored. */
  lemma ListsWhatIsHeld<K(!new), T(!new)>(c: Child<K, T>, owner: K, stored: seq<T>, values: seq<T>)
    requires Holds(c, owner, stored)
    ensures InOrder(c, owner, values) <==> values == stored
  {
    if InOrder(c, owner, values) {
      var positions :| Lists(c, owner, positions, values);
      NoGaps(positions, |stored|);
    } else {
      var positions := seq(|stored|, i requires 0 <= i < |stored| => i);
      forall p: nat
        ensures p in positions <==> (owner, p) in c
      {
        HoldsAt(c, owner, stored, p);
        if p < |stored| {
          assert positions[p] == p;
        }
      }
      assert values == stored ==> Lists(c, owner, positions, values);
    }
  }

  lemma {:induction false} CountTo(s: set<nat>, n: nat)
    requires forall p: nat :: p in s <==> p < n
    ensures |s| == n
  {
    if n == 0 {
      assert s == {};
    } else {
      CountTo(s - {n - 1}, n - 1);
    }
  }

  lemma CountsWhatIsHeld<K(!new), T(!new)>(c: Child<K, T>, owner: K, stored: seq<T>)
    requires Holds(c, owner, stored)
    ensures ChildCount(c, owner) == |stored|
  {
    CountTo(Positions(c, owner), |stored|);
  }
}
