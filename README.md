# Weapon roulette: filters and spin

This project models the logic of a single-page weapon roulette. The page loads a catalog of weapons. Each weapon has a display name and three attributes: a type, a sub weapon and a special weapon. Each attribute has a key and a display name.

- At start-up the page extracts, per category, a map from attribute key to display name.
- The user toggles keys in three selection sets. After every change the candidate pool is recomputed from the catalog.
- Inside one category the selected keys combine with OR, and an empty set means no restriction. The three categories combine with AND.
- An empty pool disables the spin button.
- A spin is guarded by a busy flag. It makes 20 + floor(10·r) draws. The first runs at once inside the click handler, and each later one runs in a timer callback. Each draw picks index floor(r·|pool|) of the pool.
- The callbacks wait 50 ms between draws, except that the last waits grow to 100, 150, 200 and 250 ms. The last draw is the final pick, and showing it releases the busy flag.

Modules:

- `Catalog` (catalog.dfy): weapons, attributes, categories, and well-formedness.
- `Extraction` (extract.dfy): the option maps. `Names` is the specification. `ExtractFilterData` is the loop that builds the maps.
- `Filter` (filter.dfy): selections, toggling, the per-category test and the pool filter, with their lemmas.
- `Spin` (spin.dfy): the draw count, the draw index and the delay schedule, as arithmetic on the random values.
- `Roulette` (roulette.dfy): the class `Roulette`. It holds the mutable state: selection sets, pool, busy flag, draw counter, pending timer and shown weapon. Its methods are the page's handlers and timer callbacks. `RunSpin` has a `while` loop in place of the timer chain. The user's filter actions can happen in the gaps between draws.

Random values are parameters. The draw count takes a real `r` in [0, 1), and `TotalSpinsFrom` keeps the floor expression of the source. The class methods take each draw as an index into the pool they draw from. `DrawIndex` and `DrawIndexReaches` show that floor(r·n) with r in [0, 1) yields every index of [0, n) and nothing else.

Two points need care:

- One might expect that adding a key never grows the pool. But the keys of one category combine with OR (script.js:104-106). So adding a key to a set that already has keys never shrinks the pool, and adding the first key to an empty set never grows it. Removing one of several keys never grows the pool, and removing the only key never shrinks it. `AddKeyMonotone`, `RemoveKeyMonotone` and `ThreeWeaponScenario` state and prove this.
- The script's timer callback reads the current pool on every draw (script.js:146), and the filter buttons stay active during a spin. A filter change that empties the pool mid-spin makes the callback throw, which leaves the busy flag set for good; see Findings. `SpinStepLive` models the callback as written. `SpinStep`, `Tick`, `FinishSpin` and `RunSpin` model the corrected spin, which draws from the pool copied when the spin starts (`spinPool`). They match the code only when no filter change happens during the spin.

## Model

| member | source | states |
|---|---|---|
| Extraction.ExtractFilterData | script.js:41-56 | the forEach loop yields, for each category, exactly the map `Names(catalog, c)`, skipping weapons without that attribute |
| Extraction.NamesKeys | script.js:41-55 | a key is in a category's map iff some weapon in the catalog carries that key in that category |
| Extraction.NamesLastWins | script.js:44-54 | the name stored for a key is the name on the last weapon, in catalog order, that carries the key |
| Filter.Selection.Toggle | script.js:81-88 | toggling changes only the set of the given category, and changes it by ToggleKey |
| Filter.ToggleKey | script.js:82-87 | the key's membership flips and no other key's membership changes |
| Filter.ToggleTwice | script.js:81-88 | two toggles of the same key restore all three sets |
| Filter.FilterPool | script.js:98-109 | the pool is no longer than the catalog, and each of its weapons is in the catalog and passes all three category tests |
| Filter.FilterCount | script.js:98-109 | each weapon occurs in the pool exactly as often as in the catalog if it passes the filter, and never otherwise |
| Filter.FilterMembership | script.js:104-108 | a weapon is in the pool iff it is in the catalog and, in each category, the set is empty or holds its key |
| Filter.FilterIsSubsequence | script.js:98-109 | the pool is an order-preserving subsequence of the catalog |
| Filter.NoFilterKeepsAll | script.js:104-106 | with all three sets empty the pool equals the catalog, which is the initial pool and the pool after a reset |
| Filter.FilterMonotone | script.js:104-108 | if every weapon passing one selection passes another, the first pool is a subsequence of the second |
| Filter.AddKeyMonotone | script.js:104-108 | adding a key to a non-empty set never shrinks the pool; adding one to an empty set never grows it |
| Filter.RemoveKeyMonotone | script.js:104-108 | removing one of several keys never grows the pool; removing the only key never shrinks it |
| Filter.ThreeWeaponScenario | script.js:98-109 | on the catalog A=(X,P,1), B=(X,Q,1), C=(Y,P,2): type {X} gives [A,B], type {X,Y} gives [A,B,C], and adding special {3} gives [] |
| Spin.TotalSpinsFrom | script.js:142 | 20 + floor(10r) lies in [20, 29] for r in [0, 1) |
| Spin.TotalSpinsReaches | script.js:142 | every draw count in [20, 29] comes from some r in [0, 1) |
| Spin.DrawIndex | script.js:146 | floor(r·n) is a valid index of a pool of n > 0 weapons |
| Spin.DrawIndexReaches | script.js:146 | every index of the pool comes from some r in [0, 1) |
| Spin.ScheduleShape | script.js:149-155 | a spin of n >= 6 draws has n-1 waits; they are 50 ms up to the last five, which are 50, 100, 150, 200 and 250 ms, so every wait is at least 50 ms |
| Roulette.Roulette.constructor | script.js:17-39 | the start state: the maps come from the catalog, nothing is selected, the pool is the whole catalog, not spinning |
| Roulette.Roulette.UpdateFilters | script.js:97-121 | the pool is replaced by the filter of the catalog under the current selection; the spin button is enabled iff the pool is non-empty |
| Roulette.Roulette.ToggleSelection | script.js:81-90 | the selection becomes the toggled one, the pool is recomputed from it, and the spin state is untouched |
| Roulette.Roulette.ResetFilters | script.js:123-132 | all three sets become empty, the pool becomes the whole catalog, and the spin state is untouched |
| Roulette.Roulette.StartSpin | script.js:134-161 | refused with no state change iff a spin is running or the pool is empty; otherwise busy, 20-29 draws fixed, pool taken, first draw shown and a 50 ms wait scheduled |
| Roulette.Roulette.TakeStep | script.js:147-158 | one draw is shown and counted; below the draw count the next callback is scheduled after Delay(counter), and at the count the spin stops |
| Roulette.Roulette.SpinStep | script.js:145-159 | corrected callback: it draws from the pool copied when the spin started, then schedules or stops as TakeStep; it matches the script only if the filters have not changed since the start |
| Roulette.Roulette.SpinStepLive | script.js:145-147 | the callback as written: it draws from the current pool; on an empty pool it throws, no callback stays scheduled and the busy flag stays set |
| Roulette.Roulette.StopSpin | script.js:164-168 | the busy flag is released and the final pick is shown |
| Roulette.Roulette.Tick | script.js:145-159 | corrected spin: one filter action in the gap before a draw changes the selection and pool, but not the spin's copied pool, count or schedule |
| Roulette.Roulette.FinishSpin | script.js:145-159 | corrected spin: the callback chain ends after exactly the remaining draws; each draw is from the copied pool and each wait follows Delay; at the end the spin is idle |
| Roulette.Roulette.RunSpin | script.js:134-168 | corrected spin: an accepted spin makes exactly TotalSpinsFrom(r) draws from the pool at start, waits DelaySchedule, shows the last draw as final pick and ends idle; with at most one filter action per gap, the selection ends as those actions make it; it matches the script when no filter action falls inside the spin |
| Roulette.LiveStepStuck | script.js:145-147 | concrete run of the code as written on A=(shooter,bomb,jet), B=(roller,mine,bubble): both keys used are offered by the option buttons; type roller, spin, then sub bomb empties the pool, the next callback throws, and the spin button stays refused even after a reset |
| Roulette.SnapshotStepContinues | script.js:134-147 | the same run when draws come from the pool taken at start: the callback shows B and the spin goes on |

## Left out

- DOM lookups, button creation, CSS classes, styles and the spin button's label and opacity are left out: they are presentation. After a filter change the button's enabled state is kept, as the `canSpin` result of `UpdateFilters`, `ToggleSelection` and `ResetFilters`.
- The spin button being disabled by `startSpin` (script.js:138) and enabled again by `stopSpin` (script.js:166) is left out: it is presentation, and `startSpin` refuses through the busy flag anyway.
- The alphabetical ordering of option buttons with `localeCompare` is left out: it depends on locale collation.
- `setTimeout` is not modelled as time. Each wait is a number in `Step.Next` and in `RunSpin`'s `delays`, and a scheduled callback is the `timerPending` flag.
- `Math.random` and floating point are left out. Random values are injected reals in [0, 1), and exact real arithmetic stands in for IEEE doubles.
- Roulette.Roulette.SpinStep: takes the drawn index as a parameter in [0, |pool|) instead of evaluating floor(r·|pool|) itself. `Spin.DrawIndex` and `Spin.DrawIndexReaches` show that expression yields exactly those indices.
- The "pop" scale animation after a spin stops is left out: it is presentation.
- The weapon data file is not part of this model; the catalog is a constructor parameter.
- Roulette.Roulette.constructor: requires every weapon to carry all three attributes. The script accepts malformed weapons at start-up. But a filter change throws once a category the weapon lacks has a selected key (script.js:104-106), and showing a weapon without sub or special throws (script.js:178-179). `Extraction.ExtractFilterData` itself handles missing attributes.
- Multi-result batches, the [20, 34] draw range and cryptographic randomness are left out: the code has only the single-result spin.
- When the pool becomes non-empty mid-spin, `updateFilters` re-enables the spin button. This is left out as presentation; `startSpin` still refuses while the busy flag is set.

## Findings

| source | as written | input that shows it | evidently intended | confidence | as-written member | corrected member |
|---|---|---|---|---|---|---|
| script.js:145-147 | each timer callback indexes the current `filteredWeapons`. The filter buttons stay live during a spin, so an empty pool gives `undefined` and `displayWeapon` throws. `isSpinning` is never cleared, and every later spin is refused until the page reloads | catalog [A=(shooter,bomb,jet), B=(roller,mine,bubble)]; select type roller; start the spin; select sub bomb before the next callback | a spin draws from the pool that startSpin found non-empty (script.js:135), reaches stopSpin and releases the busy flag | high (not executed) | Roulette.Roulette.SpinStepLive, Roulette.LiveStepStuck | Roulette.Roulette.SpinStep, Roulette.Roulette.RunSpin, Roulette.SnapshotStepContinues |
