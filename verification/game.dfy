/** The game state and the handlers that change it: drag-and-drop merge or
    swap, slot selection, buying, enhancement and sorting (script.js:1-258). */
module Game {
  import opened Wrappers
  import opened Swords
  import opened Sorting
  import opened Economy

  /** Price of a level-1 sword; script.js never changes it. */
  const SwordPrice: nat := 20

  /** The mutable game record, plus the module-level enhance selection.
      `dragged` is `draggedIndex`, `selected` is `selectedSlotForEnhance`. */
  datatype State = State(
    gold: real,
    inventory: Inventory,
    dragged: Option<SlotIndex>,
    selected: Option<SlotIndex>)

  /** 20 gold, one level-1 sword in slot 0, nothing dragged or selected. */
  function Initial(): State {
    State(20.0, EmptyGrid()[0 := Some(Sword(1, 0))], None, None)
  }

  lemma InitialState()
    ensures Occupied(Initial().inventory) == [Sword(1, 0)]
    ensures Initial().gold == SwordPrice as real
  {
    var inv := Initial().inventory;
    assert inv == [Some(Sword(1, 0))] + Blanks(Capacity - 1);
    OccupiedAppend([Some(Sword(1, 0))], Blanks(Capacity - 1));
    OccupiedBlanks(Capacity - 1);
  }

  /** Dragging starts from a rendered slot and remembers its index. */
  function DragStart(s: State, i: SlotIndex): (t: State)
    ensures t.dragged == Some(i)
    ensures t.gold == s.gold && t.inventory == s.inventory && t.selected == s.selected
  {
    s.(dragged := Some(i))
  }

  /** Two slots merge when both hold swords of the same level and
      enhancement. */
  predicate Mergeable(a: Slot, b: Slot) {
    a.Some? && b.Some? && a.value.level == b.value.level && a.value.enhancement == b.value.enhancement
  }

  /** The sword two equal swords merge into. */
  function Merged(sw: Sword): Sword {
    Sword(sw.level + 1, 0)
  }

  /** Dropping the dragged sword on `target`: equal swords merge into the
      target, otherwise the two slots exchange their contents. */
  function Drop(s: State, target: SlotIndex): (t: State)
    ensures s.dragged.None? || s.dragged == Some(target) ==> t == s
    ensures s.dragged.Some? && s.dragged.value != target ==>
      var src := s.dragged.value;
      && t.gold == s.gold && t.selected == s.selected && t.dragged.None?
      && (forall k :: 0 <= k < Capacity && k != src && k != target ==> t.inventory[k] == s.inventory[k])
      && (Mergeable(s.inventory[src], s.inventory[target]) ==>
            t.inventory[src].None? && t.inventory[target] == Some(Merged(s.inventory[src].value)))
      && (!Mergeable(s.inventory[src], s.inventory[target]) ==>
            t.inventory[src] == s.inventory[target] && t.inventory[target] == s.inventory[src])
  {
    match s.dragged
    case None => s
    case Some(src) =>
      if src == target then s
      else
        var a := s.inventory[src];
        var b := s.inventory[target];
        if Mergeable(a, b) then
          s.(inventory := s.inventory[src := None][target := Some(Merged(a.value))], dragged := None)
        else
          s.(inventory := s.inventory[src := b][target := a], dragged := None)
  }

  /** A merge consumes the two equal swords, yields one of the next level
      with no enhancement, and so frees exactly one slot. */
  lemma DropMergeBag(s: State, target: SlotIndex)
    requires s.dragged.Some? && s.dragged.value != target
    requires Mergeable(s.inventory[s.dragged.value], s.inventory[target])
    ensures var sw := s.inventory[target].value;
      && multiset(Occupied(Drop(s, target).inventory)) + multiset{sw, sw}
         == multiset(Occupied(s.inventory)) + multiset{Merged(sw)}
      && |Occupied(Drop(s, target).inventory)| + 1 == |Occupied(s.inventory)|
  {
    var src := s.dragged.value;
    var sw := s.inventory[target].value;
    MergeSlotsBag(s.inventory, src, target, sw);
  }

  lemma {:induction false} MergeSlotsBag(inv: seq<Slot>, src: nat, target: nat, sw: Sword)
    requires src < |inv| && target < |inv| && src != target
    requires inv[src] == Some(sw) && inv[target] == Some(sw)
    ensures var after := multiset(Occupied(inv[src := None][target := Some(Merged(sw))]));
      && after + multiset{sw, sw} == multiset(Occupied(inv)) + multiset{Merged(sw)}
      && |after| + 1 == |multiset(Occupied(inv))|
  {
    var mid := inv[src := None];
    var merged := mid[target := Some(Merged(sw))];
    ReplaceSwordBag(inv, src, sw, None);
    ReplaceSwordBag(mid, target, sw, Some(Merged(sw)));
    assert multiset(Contents(Some(Merged(sw)))) == multiset{Merged(sw)};
    BagChain(multiset(Occupied(merged)), multiset(Occupied(mid)), multiset(Occupied(inv)), sw, Merged(sw));
  }

  /** Replacing the sword `gone` in slot `i` takes it out of the bag and puts
      the new slot's contents in. */
  lemma ReplaceSwordBag(inv: seq<Slot>, i: nat, gone: Sword, x: Slot)
    requires i < |inv| && inv[i] == Some(gone)
    ensures multiset(Occupied(inv[i := x])) + multiset{gone} == multiset(Occupied(inv)) + multiset(Contents(x))
  {
    OccupiedUpdate(inv, i, x);
    assert multiset(Contents(inv[i])) == multiset{gone};
  }

  /** Taking out one `gone`, then trading another `gone` for `made`,
      trades two copies of `gone` for one `made`. */
  lemma BagChain<T>(after: multiset<T>, between: multiset<T>, before: multiset<T>, gone: T, made: T)
    requires between + multiset{gone} == before
    requires after + multiset{gone} == between + multiset{made}
    ensures after + multiset{gone, gone} == before + multiset{made}
    ensures |after| + 1 == |before|
  {
    forall z | true
      ensures (after + multiset{gone, gone})[z] == (before + multiset{made})[z]
    {
      assert (after + multiset{gone})[z] == (between + multiset{made})[z];
      assert (between + multiset{gone})[z] == before[z];
    }
    assert |after + multiset{gone, gone}| == |after| + 2;
    assert |before + multiset{made}| == |before| + 1;
  }

  /** A drop that does not merge keeps the same swords, including when a
      sword moves into an empty slot. */
  lemma DropSwapBag(s: State, target: SlotIndex)
    requires s.dragged.Some? && s.dragged.value != target
    requires !Mergeable(s.inventory[s.dragged.value], s.inventory[target])
    ensures multiset(Occupied(Drop(s, target).inventory)) == multiset(Occupied(s.inventory))
  {
    SwapSlotsBag(s.inventory, s.dragged.value, target);
  }

  lemma {:induction false} SwapSlotsBag(inv: seq<Slot>, src: nat, target: nat)
    requires src < |inv| && target < |inv| && src != target
    ensures multiset(Occupied(inv[src := inv[target]][target := inv[src]])) == multiset(Occupied(inv))
  {
    var a := inv[src];
    var b := inv[target];
    var mid := inv[src := b];
    OccupiedUpdate(inv, src, b);
    OccupiedUpdate(mid, target, a);
    var before := multiset(Occupied(inv));
    var between := multiset(Occupied(mid));
    var after := multiset(Occupied(mid[target := a]));
    assert mid[target] == b;
    assert between + multiset(Contents(a)) == before + multiset(Contents(b));
    assert after + multiset(Contents(b)) == between + multiset(Contents(a));
    BagCancel(multiset(Contents(b)), after, before);
  }

  /** Dragging the swapped sword straight back restores the inventory. */
  lemma SwapUndo(s: State, target: SlotIndex)
    requires s.dragged.Some? && s.dragged.value != target
    requires !Mergeable(s.inventory[s.dragged.value], s.inventory[target])
    ensures Drop(DragStart(Drop(s, target), target), s.dragged.value).inventory == s.inventory
  {
  }

  /** Clicking a slot selects it for enhancement only when it holds a
      sword; clicking an empty slot keeps the earlier selection. */
  function SlotClick(s: State, i: SlotIndex): (t: State)
    ensures t.inventory == s.inventory && t.gold == s.gold && t.dragged == s.dragged
    ensures s.inventory[i].Some? ==> t.selected == Some(i)
    ensures s.inventory[i].None? ==> t == s
  {
    if s.inventory[i].None? then s else s.(selected := Some(i))
  }

  /** A selection that names a slot holding a sword. */
  predicate HasTarget(s: State) {
    s.selected.Some? && s.inventory[s.selected.value].Some?
  }

  /** Clicking only ever moves the selection to a slot holding a sword, so
      a selection that is absent or on a sword stays so. A selection already
      on an empty slot stays there when an empty slot is clicked. */
  lemma ClickKeepsTarget(s: State, i: SlotIndex)
    requires s.selected.None? || HasTarget(s)
    ensures SlotClick(s, i).selected.None? || HasTarget(SlotClick(s, i))
    ensures s.inventory[i].Some? ==> HasTarget(SlotClick(s, i))
  {
  }

  /** Moving swords around does not move the selection, so a selected
      sword can be dragged away from under it; the guard of the enhance
      dialog is what stops an empty slot being offered. */
  lemma DropCanEmptySelection(s: State, target: SlotIndex)
    requires s.dragged.Some? && s.dragged.value != target
    requires s.selected == s.dragged && s.inventory[target].None?
    ensures !HasTarget(Drop(s, target))
  {
  }

  /** What the enhance dialog shows: cost, the three chances in percent,
      and whether the confirm button is enabled. */
  datatype Preview = Preview(cost: nat, success: int, keep: int, destroy: int, affordable: bool)

  /** Opening the enhance dialog: refused unless the selected slot holds a
      sword. */
  function OpenEnhance(s: State): (p: Option<Preview>)
    ensures p.Some? <==> HasTarget(s)
    ensures p.Some? ==>
      var sw := s.inventory[s.selected.value].value;
      && p.value.cost == EnhanceCost(sw)
      && p.value.success == SuccessRate(sw.enhancement)
      && p.value.success + p.value.keep + p.value.destroy == 100
      && 20 <= p.value.keep <= 60 && p.value.destroy == 10
      && (p.value.affordable <==> s.gold >= p.value.cost as real)
  {
    if s.selected.None? || s.inventory[s.selected.value].None? then None
    else
      var sw := s.inventory[s.selected.value].value;
      var rate := SuccessRate(sw.enhancement);
      Some(Preview(EnhanceCost(sw), rate, KeepShare(sw.enhancement), DestroyShare, !(s.gold < EnhanceCost(sw) as real)))
  }

  datatype EnhanceOutcome = NotAttempted | Succeeded | Kept | Destroyed

  datatype Enhanced = Enhanced(state: State, outcome: EnhanceOutcome)

  /** An attempt goes ahead when the selected slot holds a sword whose
      enhancement the player can pay for. */
  predicate CanEnhance(s: State) {
    HasTarget(s) && s.gold >= EnhanceCost(s.inventory[s.selected.value].value) as real
  }

  /** Confirming enhancement with the draw `draw` (`Math.random() * 100`):
      the cost is paid whatever happens, then the sword gains a step, stays,
      or is destroyed, and the selection is cleared. A selected empty slot
      makes the cost lookup fail before anything changes. */
  function Enhance(s: State, draw: real): (r: Enhanced)
    requires 0.0 <= draw < 100.0
    ensures r.outcome == NotAttempted <==> !CanEnhance(s)
    ensures r.outcome == NotAttempted ==> r.state == s
    ensures r.outcome != NotAttempted ==>
      var i := s.selected.value;
      var sw := s.inventory[i].value;
      var rate := SuccessRate(sw.enhancement) as real;
      && r.state.gold == s.gold - EnhanceCost(sw) as real
      && r.state.selected.None? && r.state.dragged == s.dragged
      && (forall k :: 0 <= k < Capacity && k != i ==> r.state.inventory[k] == s.inventory[k])
      && (r.outcome == Succeeded <==> draw < rate)
      && (r.outcome == Kept <==> rate <= draw < 90.0)
      && (r.outcome == Destroyed <==> 90.0 <= draw)
      && (r.outcome == Succeeded ==> r.state.inventory[i] == Some(Sword(sw.level, sw.enhancement + 1)))
      && (r.outcome == Kept ==> r.state.inventory[i] == Some(sw))
      && (r.outcome == Destroyed ==> r.state.inventory[i].None?)
  {
    match s.selected
    case None => Enhanced(s, NotAttempted)
    case Some(i) =>
      match s.inventory[i]
      case None => Enhanced(s, NotAttempted)
      case Some(sw) =>
        var cost := EnhanceCost(sw);
        if s.gold < cost as real then Enhanced(s, NotAttempted)
        else
          var paid := s.(gold := s.gold - cost as real, selected := None);
          var rate := SuccessRate(sw.enhancement);
          if draw < rate as real then
            Enhanced(paid.(inventory := s.inventory[i := Some(sw.(enhancement := sw.enhancement + 1))]), Succeeded)
          else if draw < (100 - DestroyShare) as real then
            Enhanced(paid, Kept)
          else
            Enhanced(paid.(inventory := s.inventory[i := None]), Destroyed)
  }

  /** The dialog tells the truth: the attempt goes ahead exactly when the
      dialog enables its button, and charges the cost it shows. */
  lemma PreviewMatchesEnhance(s: State, draw: real)
    requires 0.0 <= draw < 100.0
    requires OpenEnhance(s).Some?
    ensures OpenEnhance(s).value.affordable <==> Enhance(s, draw).outcome != NotAttempted
    ensures OpenEnhance(s).value.affordable ==>
      Enhance(s, draw).state.gold == s.gold - OpenEnhance(s).value.cost as real
  {
  }

  /** The lowest empty slot, as `findIndex(slot => slot === null)` finds
      it; `None` where that returns -1. */
  function FirstEmpty(slots: seq<Slot>): (r: Option<nat>)
    ensures r.None? <==> (forall k :: 0 <= k < |slots| ==> slots[k].Some?)
    ensures r.Some? ==>
      && r.value < |slots| && slots[r.value].None?
      && forall k :: 0 <= k < r.value ==> slots[k].Some?
  {
    if |slots| == 0 then None
    else if slots[0].None? then Some(0)
    else
      match FirstEmpty(slots[1..])
      case None => None
      case Some(k) => Some(k + 1)
  }

  /** A sword is bought when the player has the price and a slot is free;
      otherwise nothing changes. */
  function Buy(s: State): (t: State)
    ensures s.gold < SwordPrice as real || FirstEmpty(s.inventory).None? ==> t == s
    ensures s.gold >= SwordPrice as real && FirstEmpty(s.inventory).Some? ==>
      var k := FirstEmpty(s.inventory).value;
      && t.gold == s.gold - SwordPrice as real
      && t.inventory == s.inventory[k := Some(Sword(1, 0))]
      && t.dragged == s.dragged && t.selected == s.selected
  {
    if s.gold >= SwordPrice as real then
      match FirstEmpty(s.inventory)
      case None => s
      case Some(k) => s.(gold := s.gold - SwordPrice as real, inventory := s.inventory[k := Some(Sword(1, 0))])
    else s
  }

  /** A successful purchase adds exactly one level-1 sword to the bag and
      occupies one more slot. */
  lemma BuyBag(s: State)
    requires s.gold >= SwordPrice as real
    requires None in s.inventory
    ensures multiset(Occupied(Buy(s).inventory)) == multiset(Occupied(s.inventory)) + multiset{Sword(1, 0)}
    ensures |Occupied(Buy(s).inventory)| == |Occupied(s.inventory)| + 1
  {
    var k := FirstEmpty(s.inventory).value;
    OccupiedUpdate(s.inventory, k, Some(Sword(1, 0)));
    assert Contents(s.inventory[k]) == [];
  }

  /** Sorting collects the swords, orders them by level then enhancement,
      highest first, and packs them from slot 0. */
  function SortInventory(s: State): (t: State)
    ensures t.gold == s.gold && t.dragged == s.dragged && t.selected == s.selected
    ensures multiset(Occupied(t.inventory)) == multiset(Occupied(s.inventory))
    ensures Sorted(Occupied(t.inventory))
    ensures Packed(t.inventory, |Occupied(s.inventory)|)
  {
    var swords := SortSwords(Occupied(s.inventory));
    assert |swords| == |multiset(swords)| == |Occupied(s.inventory)|;
    s.(inventory := Pack(swords))
  }

  /** Any packed, sorted inventory with the same swords is the sort result:
      it is fixed by the bag of swords alone. */
  lemma SortCanonical(s: State, inv: Inventory)
    requires multiset(Occupied(inv)) == multiset(Occupied(s.inventory))
    requires Sorted(Occupied(inv))
    requires Packed(inv, |Occupied(inv)|)
    ensures SortInventory(s).inventory == inv
  {
    var t := SortInventory(s);
    SortedUnique(Occupied(inv), Occupied(t.inventory));
    PackOccupied(inv, |Occupied(inv)|);
    PackOccupied(t.inventory, |Occupied(s.inventory)|);
  }

  /** Sorting twice is sorting once. */
  lemma SortIdempotent(s: State)
    ensures SortInventory(SortInventory(s)) == SortInventory(s)
  {
    var t := SortInventory(s);
    PackOccupied(t.inventory, |Occupied(s.inventory)|);
    SortCanonical(t, t.inventory);
  }
}
