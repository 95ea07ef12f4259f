# Sword-merge idle game: inventory and economy engine in Dafny

This project models the game logic of a browser idle game (`script.js`). The
player buys level-1 swords, drags equal swords onto each other to merge them
into a sword one level higher, pays for enhancement attempts that can
succeed, leave the sword as it was, or destroy it, and sorts the 25-slot
inventory. Every sword earns gold each second, and a 100 ms timer credits
that income.

The model is functional. `Game.State` holds the gold balance (a `real`), the
inventory (a sequence of exactly 25 optional swords), the index being
dragged, and the slot selected for enhancement. Each handler is a pure
function from one state to the next. The only random value,
`Math.random() * 100`, is an explicit parameter `draw` with
`0 <= draw < 100`.

Modules:
- `Wrappers`: `Option`, used for slots and nullable indices.
- `Swords`: `Sword`, `Inventory` (a subset type of length 25), and `Occupied`,
  the non-empty slots in slot order. It also proves how one slot update
  changes the bag (multiset) of swords.
- `Sorting`: the sort order, an insertion sort, and proof that a sorted
  arrangement of a bag of swords is unique. It also defines `Pack`, which
  lays swords out from slot 0.
- `Economy`: enhancement cost, success rate, the displayed shares, and the
  gold-per-second formulas over exact reals.
- `Game`: the state and the handlers. Drop covers merge and swap. Click
  covers selection. Also buy, the guard of the enhance dialog, enhance and
  sort.
- `Accrual`: the timer tick and income. Income is independent of sword
  order. A merge never raises it.
- `Session`: events folded over the state. Gold never goes negative. `Step`
  accepts every event in every state, so `Run` covers more event sequences
  than the page can produce, such as a `Confirm` while the dialog is closed
  or a `DragFrom` on an empty slot. The gold lemmas hold for all of them.

`Game.DragStart` models how `handleDragStart` (script.js:81-85) records the
dragged index. `Session.Step` with `CancelEnhance`
models the cancel button and the dialog-background click
(script.js:303-314), which clear the selection.

Points where the model follows the code as written:
- A drop with no dragged index, or onto its own slot, returns early. It
  leaves `draggedIndex` set. Only a handled drop clears it.
- Clicking an empty slot keeps the earlier selection. Sorting and dragging
  do not move the selection either, so the selection can end up on an empty
  slot (`Game.DropCanEmptySelection`). The dialog's guard refuses such a
  selection. If `enhanceSword` runs with an empty selected slot,
  `getEnhanceCost(null)` throws before anything is changed. The model
  therefore treats that case as "no attempt, nothing changes".
- Sort does not touch the selection or the dragged index.
- `script.js` has no quests, achievements, rubies, lucky box, selling,
  counters or saving, so the model has none of them.

## Model

| member | source | states |
|---|---|---|
| Economy.EnhanceCost | script.js:252-254 | an enhancement attempt always costs at least 50 gold |
| Economy.EnhanceCostSteps | script.js:252-254 | the cost is 50 at enhancement 0, doubles with each step, and does not depend on the level |
| Economy.SuccessRate | script.js:256-258 | the success chance lies in [30, 70]; it is 70 - 10e up to e = 4 and 30 from e = 4 on |
| Economy.KeepShare | script.js:183 | the displayed "stays" share is between 20 and 60, and success + stays + destroy add up to 100 |
| Economy.SuccessRateAntitone | script.js:256-258 | a higher enhancement never raises the success chance nor lowers the "stays" share |
| Economy.BaseGoldPerSecond | script.js:10-12 | a sword earns at least 0.1 gold per second before enhancement |
| Economy.EnhancementBonus | script.js:15-17 | the enhancement multiplier is at least 1, and at least 1.2 once enhanced |
| Economy.SwordGoldPerSecond | script.js:20-24 | a sword earns at least its base rate, and strictly more when it is enhanced |
| Economy.IncomeSteps | script.js:10-24 | the base rate is 0.1 at level 1 and doubles per level; each enhancement multiplies income by 1.2; an unenhanced sword earns its base rate |
| Swords.Occupied | script.js:235 | the `s !== null` filter, also the timer's `if (sword)` skip at script.js:320, never yields more swords than there are slots |
| Swords.OccupiedMembers | script.js:235 | the filtered list holds a sword exactly when some slot holds it |
| Sorting.BeforeTotalOrder | script.js:238-241 | the comparator's order is total, antisymmetric and transitive on swords |
| Sorting.Insert | script.js:238-241 | inserting into a sorted list keeps it sorted and adds exactly that sword |
| Sorting.SortSwords | script.js:238-241 | the result is sorted by level, then enhancement, both descending, and is a permutation of the input |
| Sorting.SortedHeadsAgree | script.js:238-241 | two sorted arrangements of the same non-empty bag of swords start with the same sword |
| Sorting.SortedUnique | script.js:238-241 | two sorted arrangements of the same swords are equal, so the result does not depend on the sorting algorithm |
| Sorting.Pack | script.js:243-246 | the swords fill slots 0.. in order, every later slot is empty, and filtering the result gives the swords back |
| Sorting.PackOccupied | script.js:243-246 | a packed inventory is exactly `Pack` of its swords |
| Game.InitialState | script.js:2-27 | the game starts with 20 gold, enough for one sword, and a single level-1 sword |
| Game.DragStart | script.js:81-85 | starting a drag records the slot as the dragged index and leaves gold, swords and selection alone |
| Game.Drop | script.js:103-134 | with no dragged index or a self-drop nothing changes; otherwise equal swords leave the source empty and put level+1, enhancement 0 in the target, unequal contents exchange slots, the drag index is cleared, and every other slot, the gold and the selection are unchanged |
| Game.DropMergeBag | script.js:114-123 | a merge replaces two copies of a sword by its merged sword and leaves one fewer occupied slot |
| Game.DropSwapBag | script.js:126-129 | a non-merging drop keeps the multiset of swords, including a move into an empty slot |
| Game.SwapUndo | script.js:126-129 | dragging the swapped sword straight back restores the inventory |
| Game.SlotClick | script.js:137-140 | a click on an occupied slot selects it; a click on an empty slot changes nothing |
| Game.ClickKeepsTarget | script.js:137-140 | if the selection is none or on a sword, a click keeps it that way, and clicking a sword always selects it |
| Game.DropCanEmptySelection | script.js:103-134 | dragging the selected sword onto any empty slot moves it and leaves the selection on an empty slot |
| Game.OpenEnhance | script.js:161-196 | the dialog opens exactly when the selected slot holds a sword; it shows that sword's cost and success rate, shares that sum to 100 with 10 for destruction, and enables confirmation exactly when gold covers the cost |
| Game.Enhance | script.js:202-231 | with no selection, an empty selected slot or too little gold nothing changes; otherwise the cost is paid in every outcome, a draw below the rate adds one enhancement and keeps the level, a draw in [rate, 90) keeps the sword, a draw of 90 or more empties the slot, the selection is cleared and other slots are unchanged |
| Game.PreviewMatchesEnhance | script.js:168-210 | the attempt goes ahead exactly when the dialog enables confirmation, and it charges the cost the dialog shows |
| Game.FirstEmpty | script.js:146 | the search finds the lowest empty slot, or reports that there is none exactly when every slot is occupied |
| Game.Buy | script.js:143-158 | with gold >= 20 and a free slot, gold drops by exactly 20, the lowest empty slot gets a level-1 sword and nothing else changes; otherwise the state is unchanged |
| Game.BuyBag | script.js:153-154 | a purchase adds exactly one level-1 sword to the multiset of swords |
| Game.SortInventory | script.js:234-250 | the result holds the same multiset of swords, sorted by level then enhancement, packed from slot 0 with every later slot empty; gold and selection are unchanged |
| Game.SortCanonical | script.js:234-246 | any packed, sorted inventory with the same swords equals the sort result |
| Game.SortIdempotent | script.js:234-246 | sorting twice gives the same inventory as sorting once |
| Accrual.Income | script.js:318-323 | income is never negative, and at least 0.1 gold per second with any sword held |
| Accrual.TickGain | script.js:318-323 | adding a tenth of each sword's rate slot by slot gives a tenth of the total income of the occupied slots |
| Accrual.Tick | script.js:317-329 | one tick adds a tenth of the income to the gold and changes nothing else |
| Accrual.TicksAccumulate | script.js:317-329 | n ticks keep the swords and add n times the gain of one tick |
| Accrual.IncomeRemoveAt | script.js:319-323 | the income is the rate of any one sword plus the income of the rest |
| Accrual.IncomePermutation | script.js:319-323 | income depends only on the multiset of swords held |
| Accrual.SortKeepsIncome | script.js:234-246 | sorting does not change the income |
| Accrual.SwapKeepsIncome | script.js:126-129 | a non-merging drop does not change the income |
| Accrual.MergedRate | script.js:10-24 | a merged sword earns at most what the two merged swords earned, exactly that when they were unenhanced |
| Accrual.TradeIncome | script.js:319-323 | trading two copies of a sword for another changes the income by exactly their rates |
| Accrual.MergeIncome | script.js:114-123 | a merge never raises the income, and keeps it exactly when the merged swords were unenhanced |
| Session.StepKeepsGoldNonNegative | script.js:143-229 | no handler takes the gold below zero |
| Session.Step | script.js:299-329 | only buy, enhance and the timer change the gold: buying lowers it by the price or not at all, and the timer never lowers it; the inventory changes only on drop, buy, enhance and sort; cancelling the dialog clears the selection |
| Session.RunKeepsGoldNonNegative | script.js:143-329 | from a non-negative balance, gold stays non-negative across any sequence of events and draws |

## Left out

- Rendering and event wiring: `updateDisplay`, the drag styling in `handleDragEnd` and `handleDragOver`, `showFloatingText`, the injected CSS, the listener registrations, and the dialog's HTML. These are presentation only.
- Floating point. Gold is an exact `real`. Income uses exact `0.1 * 2^(level-1)` and `1.2^e`, whereas the code calls `Math.pow` on doubles. Display rounding with `toFixed` is not modelled.
- Economy.EnhanceCost: the code computes `Math.floor(50 * Math.pow(2, e))` in doubles, which overflows to Infinity once e passes about 1017. The model uses exact integers and does not cover that range.
- `Math.random()`: the draw is a parameter. The random generator itself is not modelled.
- Timing: the 100 ms `setInterval` period is not modelled. `Accrual.Tick` is one firing of the timer.
