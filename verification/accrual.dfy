/** Passive income: the 100 ms timer that credits a tenth of every sword's
    gold per second (script.js:316-329), over exact reals. */
module Accrual {
  import opened Wrappers
  import opened Swords
  import opened Sorting
  import opened Economy
  import opened Game

  /** Gold per second earned by `swords` together. */
  function Income(swords: seq<Sword>): (r: real)
    ensures r >= 0.0
    ensures |swords| > 0 ==> r >= 0.1
  {
    if |swords| == 0 then 0.0 else SwordGoldPerSecond(swords[0]) + Income(swords[1..])
  }

  lemma {:induction false} IncomeAppend(a: seq<Sword>, b: seq<Sword>)
    ensures Income(a + b) == Income(a) + Income(b)
  {
    if |a| == 0 {
      assert a + b == b;
    } else {
      assert (a + b)[1..] == a[1..] + b;
      IncomeAppend(a[1..], b);
    }
  }

  /** The gain of one tick, summed slot by slot as the timer does: a tenth
      of each occupied slot's gold per second. The sum is a tenth of the
      total income. */
  function TickGain(slots: seq<Slot>): (r: real)
    ensures r == Income(Occupied(slots)) / 10.0
  {
    if |slots| == 0 then 0.0
    else
      IncomeAppend(Contents(slots[0]), Occupied(slots[1..]));
      (match slots[0]
       case None => 0.0
       case Some(sw) => SwordGoldPerSecond(sw) / 10.0) + TickGain(slots[1..])
  }

  /** One timer tick: the gold grows by a tenth of the income per second;
      nothing else changes. */
  function Tick(s: State): (t: State)
    ensures t.gold == s.gold + Income(Occupied(s.inventory)) / 10.0
    ensures t.inventory == s.inventory && t.dragged == s.dragged && t.selected == s.selected
  {
    var gain := TickGain(s.inventory);
    if gain > 0.0 then s.(gold := s.gold + gain) else s
  }

  /** `n` ticks in a row. */
  function Ticks(s: State, n: nat): State {
    if n == 0 then s else Tick(Ticks(s, n - 1))
  }

  /** With the swords left alone, `n` ticks add `n` times the gain `step`
      of one tick, a tenth of the income per second. */
  lemma {:induction false} TicksAccumulate(s: State, n: nat, step: real)
    requires step == TickGain(s.inventory)
    ensures Ticks(s, n).inventory == s.inventory
    ensures Ticks(s, n).gold == s.gold + (n as real) * step
  {
    TicksRepeat(s, n, step);
    RepeatedIsProduct(n, step, s.gold, Ticks(s, n).gold);
  }

  /** `step` added `n` times. */
  function Repeated(n: nat, step: real): real {
    if n == 0 then 0.0 else Repeated(n - 1, step) + step
  }

  /** Adding `step` `n` times to `start` adds `n * step`. */
  lemma {:induction false} RepeatedIsProduct(n: nat, step: real, start: real, total: real)
    requires total == start + Repeated(n, step)
    ensures total == start + (n as real) * step
  {
    if n > 0 {
      RepeatedIsProduct(n - 1, step, start, start + Repeated(n - 1, step));
    }
  }

  lemma {:induction false} TicksRepeat(s: State, n: nat, step: real)
    requires step == TickGain(s.inventory)
    ensures Ticks(s, n).inventory == s.inventory
    ensures Ticks(s, n).gold == s.gold + Repeated(n, step)
  {
    if n > 0 {
      TicksRepeat(s, n - 1, step);
    }
  }

  /** Income depends only on which swords are held, not on their order. */
  lemma {:induction false} IncomePermutation(a: seq<Sword>, b: seq<Sword>)
    requires multiset(a) == multiset(b)
    ensures Income(a) == Income(b)
  {
    if |a| == 0 {
      assert |multiset(b)| == 0;
    } else {
      assert a[0] in multiset(b);
      var j :| 0 <= j < |b| && b[j] == a[0];
      var rest := b[..j] + b[j + 1..];
      assert b == b[..j] + [b[j]] + b[j + 1..];
      assert a == [a[0]] + a[1..];
      assert multiset(b) == multiset(rest) + multiset{a[0]};
      assert multiset(a) == multiset(a[1..]) + multiset{a[0]};
      BagCancel(multiset{a[0]}, multiset(a[1..]), multiset(rest));
      IncomePermutation(a[1..], rest);
      IncomeRemoveAt(b, j);
    }
  }

  /** Taking the `j`-th sword out of a list takes its rate out of the income. */
  lemma {:induction false} IncomeRemoveAt(b: seq<Sword>, j: nat)
    requires j < |b|
    ensures Income(b) == SwordGoldPerSecond(b[j]) + Income(b[..j] + b[j + 1..])
  {
    assert b[..j] + ([b[j]] + b[j + 1..]) == b;
    IncomeAppend(b[..j], [b[j]] + b[j + 1..]);
    IncomeAppend([b[j]], b[j + 1..]);
    IncomeAppend(b[..j], b[j + 1..]);
  }

  /** Sorting the inventory does not change the income. */
  lemma SortKeepsIncome(s: State)
    ensures Income(Occupied(SortInventory(s).inventory)) == Income(Occupied(s.inventory))
  {
    IncomePermutation(Occupied(SortInventory(s).inventory), Occupied(s.inventory));
  }

  /** Moving a sword without merging does not change the income. */
  lemma SwapKeepsIncome(s: State, target: SlotIndex)
    requires s.dragged.Some? && s.dragged.value != target
    requires !Mergeable(s.inventory[s.dragged.value], s.inventory[target])
    ensures Income(Occupied(Drop(s, target).inventory)) == Income(Occupied(s.inventory))
  {
    DropSwapBag(s, target);
    IncomePermutation(Occupied(Drop(s, target).inventory), Occupied(s.inventory));
  }

  /** A merge trades two swords for one earning twice the base rate of
      their level, so it never raises the income, and keeps it exactly when
      the merged swords had no enhancement. */
  lemma {:induction false} MergeIncome(s: State, target: SlotIndex)
    requires s.dragged.Some? && s.dragged.value != target
    requires Mergeable(s.inventory[s.dragged.value], s.inventory[target])
    ensures var sw := s.inventory[target].value;
      var after := Income(Occupied(Drop(s, target).inventory));
      var before := Income(Occupied(s.inventory));
      && after + 2.0 * SwordGoldPerSecond(sw) == before + SwordGoldPerSecond(Merged(sw))
      && after <= before
      && (after == before <==> sw.enhancement == 0)
  {
    var sw := s.inventory[target].value;
    DropMergeBag(s, target);
    TradeIncome(Occupied(Drop(s, target).inventory), Occupied(s.inventory), sw, Merged(sw));
    MergedRate(sw);
  }

  /** The merged sword earns twice the base rate of the level it came
      from: at most what the two swords earned, and exactly that when they
      were unenhanced. */
  lemma MergedRate(sw: Sword)
    ensures SwordGoldPerSecond(Merged(sw)) <= 2.0 * SwordGoldPerSecond(sw)
    ensures SwordGoldPerSecond(Merged(sw)) == 2.0 * SwordGoldPerSecond(sw) <==> sw.enhancement == 0
  {
    IncomeSteps(sw.level, 0);
    var base := BaseGoldPerSecond(sw.level);
    var bonus := EnhancementBonus(sw.enhancement);
    assert SwordGoldPerSecond(Merged(sw)) == 2.0 * base;
    assert SwordGoldPerSecond(sw) == base * bonus;
    if sw.enhancement > 0 {
      assert bonus >= 1.2;
      assert base * bonus >= base * 1.2;
    }
  }

  /** When `after` holds the swords of `before` with two copies of `gone`
      traded for `made`, the incomes differ by exactly those rates. */
  lemma {:induction false} TradeIncome(after: seq<Sword>, before: seq<Sword>, gone: Sword, made: Sword)
    requires multiset(after) + multiset{gone, gone} == multiset(before) + multiset{made}
    ensures Income(after) + 2.0 * SwordGoldPerSecond(gone) == Income(before) + SwordGoldPerSecond(made)
  {
    assert multiset(after + [gone, gone]) == multiset(after) + multiset{gone, gone};
    assert multiset(before + [made]) == multiset(before) + multiset{made};
    IncomePermutation(after + [gone, gone], before + [made]);
    IncomeAppend(after, [gone, gone]);
    IncomeAppend(before, [made]);
    assert Income([gone, gone]) == 2.0 * SwordGoldPerSecond(gone);
    assert Income([made]) == SwordGoldPerSecond(made);
  }
}
