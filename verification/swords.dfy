/** Swords and the fixed 25-slot inventory that holds them (script.js:1-7). */
module Swords {
  import opened Wrappers

  /** The inventory is a 5x5 grid of slots. */
  const Capacity: nat := 25

  /** Levels start at 1: bought swords are level 1 and merging only raises them. */
  type Level = l: nat | 1 <= l witness 1

  /** A slot number, as carried by a rendered slot's `data-index`. */
  type SlotIndex = i: nat | i < Capacity

  /** A sword has no identity beyond its level and enhancement. */
  datatype Sword = Sword(level: Level, enhancement: nat)

  /** A slot is empty (`null`) or holds one sword. */
  type Slot = Option<Sword>

  /** `n` empty slots. */
  function Blanks(n: nat): (r: seq<Slot>)
    ensures |r| == n
  {
    seq(n, _ => None)
  }

  function EmptyGrid(): seq<Slot> {
    Blanks(Capacity)
  }

  /** The inventory always has exactly `Capacity` slots. */
  type Inventory = inv: seq<Slot> | |inv| == Capacity witness EmptyGrid()

  /** The sword in `slot`, as a sequence of length 0 or 1. */
  function Contents(slot: Slot): (r: seq<Sword>)
    ensures |r| <= 1
    ensures slot.Some? <==> |r| == 1
    ensures slot.Some? ==> r[0] == slot.value
  {
    match slot
    case None => []
    case Some(x) => [x]
  }

  /** The swords held in `slots`, in slot order, empty slots skipped. */
  function Occupied(slots: seq<Slot>): (r: seq<Sword>)
    ensures |r| <= |slots|
  {
    if |slots| == 0 then []
    else Contents(slots[0]) + Occupied(slots[1..])
  }

  /** Filtering distributes over concatenation. */
  lemma {:induction false} OccupiedAppend(a: seq<Slot>, b: seq<Slot>)
    ensures Occupied(a + b) == Occupied(a) + Occupied(b)
  {
    if |a| == 0 {
      assert a + b == b;
    } else {
      assert (a + b)[1..] == a[1..] + b;
      OccupiedAppend(a[1..], b);
    }
  }

  /** The filter keeps exactly the swords that sit in some slot. */
  lemma {:induction false} OccupiedMembers(slots: seq<Slot>)
    ensures forall x :: x in Occupied(slots) <==> Some(x) in slots
  {
    if |slots| > 0 {
      OccupiedMembers(slots[1..]);
      assert slots == [slots[0]] + slots[1..];
    }
  }

  /** Replacing slot `i` by `x` removes the old slot's sword from the bag of
      swords and adds the new one, stated without subtraction. */
  lemma {:induction false} OccupiedUpdate(slots: seq<Slot>, i: nat, x: Slot)
    requires i < |slots|
    ensures multiset(Occupied(slots[i := x])) + multiset(Contents(slots[i]))
         == multiset(Occupied(slots)) + multiset(Contents(x))
  {
    var u := slots[i := x];
    if i == 0 {
      assert u[1..] == slots[1..];
      BagsOfSplit(u);
      BagsOfSplit(slots);
    } else {
      assert u[1..] == slots[1..][i - 1 := x];
      assert slots[1..][i - 1] == slots[i];
      OccupiedUpdate(slots[1..], i - 1, x);
      BagsOfSplit(u);
      BagsOfSplit(slots);
      assert u[0] == slots[0];
      BagShift(multiset(Contents(slots[0])), multiset(Occupied(u[1..])), multiset(Contents(slots[i])),
               multiset(Occupied(slots[1..])), multiset(Contents(x)));
    }
  }

  lemma BagsOfSplit(slots: seq<Slot>)
    requires |slots| > 0
    ensures multiset(Occupied(slots)) == multiset(Contents(slots[0])) + multiset(Occupied(slots[1..]))
  {
  }

  lemma BagShift<T>(a: multiset<T>, b: multiset<T>, c: multiset<T>, d: multiset<T>, e: multiset<T>)
    requires b + c == d + e
    ensures (a + b) + c == (a + d) + e
  {
    assert (a + b) + c == a + (b + c);
  }

  /** A slot holds a sword exactly when that sword is counted. */
  lemma {:induction false} OccupiedCountsSomes(slots: seq<Slot>, n: nat)
    requires n <= |slots|
    requires forall k :: 0 <= k < n ==> slots[k].Some?
    requires forall k :: n <= k < |slots| ==> slots[k].None?
    ensures |Occupied(slots)| == n
  {
    if |slots| > 0 {
      if n == 0 {
        OccupiedCountsSomes(slots[1..], 0);
      } else {
        OccupiedCountsSomes(slots[1..], n - 1);
      }
    }
  }

  lemma BagCancel<T>(common: multiset<T>, x: multiset<T>, y: multiset<T>)
    requires x + common == y + common
    ensures x == y
  {
    forall z | true
      ensures x[z] == y[z]
    {
      assert (x + common)[z] == (y + common)[z];
    }
  }
}
