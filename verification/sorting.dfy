/** The ordering used by the sort button (script.js:234-246): higher level
    first, then higher enhancement; then the sorted swords are packed from
    slot 0. */
module Sorting {
  import opened Wrappers
  import opened Swords

  /** `a` may stand before `b`: the comparator of script.js:238-241 does not
      put `b` first. */
  predicate Before(a: Sword, b: Sword) {
    a.level > b.level || (a.level == b.level && a.enhancement >= b.enhancement)
  }

  /** Non-increasing in level, then in enhancement. */
  predicate Sorted(xs: seq<Sword>) {
    forall i, j :: 0 <= i < j < |xs| ==> Before(xs[i], xs[j])
  }

  /** `Before` is a total order on swords: any two are comparable and two
      swords that each may precede the other are equal. */
  lemma BeforeTotalOrder(a: Sword, b: Sword, c: Sword)
    ensures Before(a, b) || Before(b, a)
    ensures Before(a, b) && Before(b, a) ==> a == b
    ensures Before(a, b) && Before(b, c) ==> Before(a, c)
  {
  }

  /** Inserts `x` into the sorted `xs` at the first place where it fits. */
  function Insert(x: Sword, xs: seq<Sword>): (r: seq<Sword>)
    requires Sorted(xs)
    ensures multiset(r) == multiset(xs) + multiset{x}
    ensures Sorted(r)
  {
    if |xs| == 0 || Before(x, xs[0]) then [x] + xs
    else
      var tail := Insert(x, xs[1..]);
      assert xs == [xs[0]] + xs[1..];
      InsertBehindHead(x, xs, tail);
      [xs[0]] + tail
  }

  /** When `x` goes after the head of `xs`, the head still precedes
      everything inserted behind it. */
  lemma InsertBehindHead(x: Sword, xs: seq<Sword>, tail: seq<Sword>)
    requires Sorted(xs) && |xs| > 0 && !Before(x, xs[0])
    requires Sorted(tail)
    requires multiset(tail) == multiset(xs[1..]) + multiset{x}
    ensures Sorted([xs[0]] + tail)
  {
    forall j | 0 <= j < |tail|
      ensures Before(xs[0], tail[j])
    {
      assert tail[j] in multiset(tail);
      if tail[j] != x {
        assert tail[j] in multiset(xs[1..]);
        var m :| 0 <= m < |xs[1..]| && xs[1..][m] == tail[j];
        assert xs[m + 1] == tail[j];
      }
    }
  }

  /** Insertion sort of the swords into the order of script.js:238-241. */
  function SortSwords(xs: seq<Sword>): (r: seq<Sword>)
    ensures multiset(r) == multiset(xs)
    ensures Sorted(r)
  {
    if |xs| == 0 then []
    else
      assert xs == [xs[0]] + xs[1..];
      Insert(xs[0], SortSwords(xs[1..]))
  }

  /** There is only one sorted arrangement of a bag of swords, so the result
      does not depend on the sorting algorithm the browser uses. */
  lemma {:induction false} SortedUnique(a: seq<Sword>, b: seq<Sword>)
    requires Sorted(a) && Sorted(b)
    requires multiset(a) == multiset(b)
    ensures a == b
  {
    if |a| == 0 {
      assert |multiset(b)| == 0;
    } else {
      assert |b| == |multiset(b)| == |multiset(a)| == |a|;
      SortedHeadsAgree(a, b);
      assert a == [a[0]] + a[1..];
      assert b == [b[0]] + b[1..];
      assert multiset(a[1..]) + multiset{a[0]} == multiset(a);
      assert multiset(b[1..]) + multiset{a[0]} == multiset(b);
      BagCancel(multiset{a[0]}, multiset(a[1..]), multiset(b[1..]));
      SortedUnique(a[1..], b[1..]);
    }
  }

  /** Two sorted arrangements of one bag start with the same sword: each
      head occurs in the other list and so may not precede its head. */
  lemma SortedHeadsAgree(a: seq<Sword>, b: seq<Sword>)
    requires Sorted(a) && Sorted(b)
    requires multiset(a) == multiset(b)
    requires |a| > 0 && |b| > 0
    ensures a[0] == b[0]
  {
    assert a[0] in multiset(b);
    var j :| 0 <= j < |b| && b[j] == a[0];
    assert b[0] in multiset(a);
    var k :| 0 <= k < |a| && a[k] == b[0];
    assert Before(b[0], a[0]) by {
      if j > 0 { assert Before(b[0], b[j]); }
    }
    assert Before(a[0], b[0]) by {
      if k > 0 { assert Before(a[0], a[k]); }
    }
  }

  /** The swords laid out from slot 0 on, every later slot empty
      (script.js:243-246). */
  function Pack(swords: seq<Sword>): (inv: Inventory)
    requires |swords| <= Capacity
    ensures Occupied(inv) == swords
    ensures Packed(inv, |swords|)
  {
    var lifted := seq(|swords|, k requires 0 <= k < |swords| => Some(swords[k]));
    var blanks := Blanks(Capacity - |swords|);
    OccupiedLifted(swords);
    OccupiedBlanks(Capacity - |swords|);
    OccupiedAppend(lifted, blanks);
    lifted + blanks
  }

  /** The first `n` slots hold swords and all later slots are empty. */
  predicate Packed(inv: seq<Slot>, n: nat) {
    && n <= |inv|
    && (forall k :: 0 <= k < n ==> inv[k].Some?)
    && (forall k :: n <= k < |inv| ==> inv[k].None?)
  }

  lemma {:induction false} OccupiedLifted(swords: seq<Sword>)
    ensures Occupied(seq(|swords|, k requires 0 <= k < |swords| => Some(swords[k]))) == swords
  {
    var lifted := seq(|swords|, k requires 0 <= k < |swords| => Some(swords[k]));
    if |swords| > 0 {
      assert lifted[1..] == seq(|swords[1..]|, k requires 0 <= k < |swords[1..]| => Some(swords[1..][k]));
      OccupiedLifted(swords[1..]);
      assert swords == [swords[0]] + swords[1..];
    }
  }

  lemma {:induction false} OccupiedBlanks(n: nat)
    ensures Occupied(Blanks(n)) == []
  {
    if n > 0 {
      assert Blanks(n)[1..] == Blanks(n - 1);
      OccupiedBlanks(n - 1);
    }
  }

  /** A packed inventory is recovered from its swords: `Pack` inverts
      `Occupied` on packed inventories. */
  lemma {:induction false} PackOccupied(inv: Inventory, n: nat)
    requires Packed(inv, n)
    ensures |Occupied(inv)| == n
    ensures Pack(Occupied(inv)) == inv
  {
    OccupiedCountsSomes(inv, n);
    var p := Pack(Occupied(inv));
    forall k | 0 <= k < n
      ensures p[k] == inv[k]
    {
      OccupiedPrefix(inv, n, k);
    }
  }

  /** In a packed inventory slot `k` holds the `k`-th sword. */
  lemma {:induction false} OccupiedPrefix(slots: seq<Slot>, n: nat, k: nat)
    requires Packed(slots, n)
    requires k < n
    ensures |Occupied(slots)| == n
    ensures slots[k] == Some(Occupied(slots)[k])
  {
    OccupiedCountsSomes(slots, n);
    OccupiedCountsSomes(slots[1..], n - 1);
    if k > 0 {
      OccupiedPrefix(slots[1..], n - 1, k - 1);
    }
  }
}
