/** A play session as a sequence of handler runs. The browser runs each
    handler to completion before the next, so the game is the fold of
    these steps over the events it receives. `Step` takes any event in any
    state, so `Run` covers more sequences than the page can produce: a
    `Confirm` while the dialog is closed, or a `DragFrom` on an empty slot.
    The gold lemmas hold for all of them. */
module Session {
  import opened Wrappers
  import opened Swords
  import opened Game
  import opened Accrual

  /** One event the page reacts to. `Confirm` carries the value of
      `Math.random() * 100` drawn by the enhancement; `CancelEnhance` is the
      cancel button or a click on the dialog's background. */
  datatype Event =
    | DragFrom(from: SlotIndex)
    | DropOn(on: SlotIndex)
    | ClickSlot(slot: SlotIndex)
    | BuyClicked
    | Confirm(draw: real)
    | CancelEnhance
    | SortClicked
    | TimerFired

  predicate ValidEvent(e: Event) {
    e.Confirm? ==> 0.0 <= e.draw < 100.0
  }

  /** One handler run. Only buying, a confirmed enhancement and the timer
      touch the gold: buying lowers it by the price or not at all, the timer
      never lowers it. Only drop, buy, enhance and sort touch the swords;
      cancelling clears the selection. */
  function Step(s: State, e: Event): (t: State)
    requires ValidEvent(e)
    ensures !(e.BuyClicked? || e.Confirm? || e.TimerFired?) ==> t.gold == s.gold
    ensures e.TimerFired? ==> t.gold >= s.gold
    ensures e.BuyClicked? ==> t.gold == s.gold || t.gold == s.gold - SwordPrice as real
    ensures !(e.DropOn? || e.BuyClicked? || e.Confirm? || e.SortClicked?) ==> t.inventory == s.inventory
    ensures e.CancelEnhance? ==> t.selected.None?
  {
    match e
    case DragFrom(i) => DragStart(s, i)
    case DropOn(i) => Drop(s, i)
    case ClickSlot(i) => SlotClick(s, i)
    case BuyClicked => Buy(s)
    case Confirm(draw) => Enhance(s, draw).state
    case CancelEnhance => s.(selected := None)
    case SortClicked => SortInventory(s)
    case TimerFired => Tick(s)
  }

  function Run(s: State, events: seq<Event>): State
    requires forall k :: 0 <= k < |events| ==> ValidEvent(events[k])
    decreases |events|
  {
    if |events| == 0 then s else Run(Step(s, events[0]), events[1..])
  }

  /** No handler spends gold the player does not have. */
  lemma StepKeepsGoldNonNegative(s: State, e: Event)
    requires ValidEvent(e)
    requires s.gold >= 0.0
    ensures Step(s, e).gold >= 0.0
  {
  }

  /** From any state with non-negative gold, the gold never goes negative,
      whatever the player does and whatever the draws are. */
  lemma {:induction false} RunKeepsGoldNonNegative(s: State, events: seq<Event>)
    requires forall k :: 0 <= k < |events| ==> ValidEvent(events[k])
    requires s.gold >= 0.0
    ensures Run(s, events).gold >= 0.0
    decreases |events|
  {
    if |events| > 0 {
      StepKeepsGoldNonNegative(s, events[0]);
      RunKeepsGoldNonNegative(Step(s, events[0]), events[1..]);
    }
  }
}
