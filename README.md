# Valentine request card, modelled in Dafny

The card is one React component, `App` (`src/App.tsx`). It asks a question and shows two buttons.

- **"No" escalation.** Each click on "No" moves a counter through the steps 1, 2 and 3. Each step shows its own message and makes the "Yes" button grow. The fourth click is the terminal step; the same happens on any click whose counter is not 1, 2 or 3. The terminal step turns the card sad, clears the hearts, hides the celebration overlay, showers 40 bad emojis, shows the sad overlay for 29 s and resets the counter, so the sequence starts again.
- **"Yes".** A click on "Yes" always returns to the happy state. It resets the counter and the button size, clears the bad emojis, adds 85 hearts and shows the celebration overlay for 12 s.
- **Particle pools.** There are two pools: floating hearts and falling bad emojis. Each is an ordered list of particles. A spawn appends a burst whose ids continue from the largest id in the pool. Every spawn also schedules a prune, never cancelled, that keeps the newest 24 hearts (after 16 s) or the newest 40 bad emojis (after 18 s).

The project has four modules:

- `Particles` (`particles.dfy`): the particle records and `makeHeart` / `makeBadEmoji`. The random draws are inputs, and the module proves the attribute bounds. It also holds the pool operations spawn and prune, the startup burst, and their properties.
- `Timers` (`timers.dfy`): the virtual clock's two kinds of deferred callback.
  - An overlay slot: a visibility flag plus at most one pending hide deadline. This is `showGifFor`, and the stop branches of the handlers.
  - A pool's list of pending prune deadlines. Elapsing time fires the ones that are due.
- `Valentine` (`valentine.dfy`): the whole component state as a value. It has three transitions (`YesStep`, `NoStep`, `ElapseStep`), an invariant every reachable state keeps, and lemmas about runs of "No" clicks.
- `Component` (`app.dfy`): the component as a `class App`. Its fields are the state, and its methods update them in place in the handlers' order. Each method is proved to perform the corresponding transition of `Valentine`. The constructor and the three entry points `HandleYes`, `HandleNo` and `Elapse` are also proved to keep its invariant. The event loop's firing of due prune callbacks is a `while` loop, `RunDuePrunes`.

Conventions:

- **Growth factor.** The "Yes" growth factor is kept in hundredths, so `min(1.8, s + 0.12)` becomes `min(180, s + 12)`.
- **Clock.** Times are integer milliseconds on a virtual clock `now`.
- **Random draws.** `Math.random` results are a stream `rand: nat -> Draw`. The i-th particle of a burst uses `rand(i)`, whose six fields are the draws `makeHeart` / `makeBadEmoji` make, in their order. A stream is legal when every draw lies in [0, 1).
- **Message.** The message is an enumeration. `Text` gives the exact string the component stores, and the texts are pairwise distinct.

Ids are not unique over a pool's lifetime. The maximum of an empty pool is taken as 0, so after "Yes" clears the bad emojis, or the terminal "No" clears the hearts, the next burst gets ids 1, 2, …, and ids used before the clear are handed out again. Ids are increasing within the pool as it currently stands (`Valentine.Inv`), and `Particles.SpawnAfterClear` states the restart.

## Model

| member | source | states |
|---|---|---|
| Particles.Round | src/App.tsx:35 | Math.round of a real: an integer within half of it, halves rounded up |
| Particles.MakeHeart | src/App.tsx:27-37 | for any draw in [0, 1): a heart with the given id, left and top in [2, 98), duration in [6, 14) s, delay in [0, 2.5) s, scale in [0.9, 1.25), pixel size round(scale × 28), between 25 and 35 |
| Particles.PaletteIndex | src/App.tsx:47 | floor(r × 9) is a valid palette index for r in [0, 1) |
| Particles.Make | src/App.tsx:77 | the particle of the pool's kind that makeHeart / makeBadEmoji builds, with the given id and within its bounds |
| Particles.MakeBadEmoji | src/App.tsx:39-49 | for any draw in [0, 1): a bad emoji with the given id, left and top in [2, 98), duration in [5, 15) s, delay in [0, 2.5) s, scale in [0.75, 1.35), pixel size round(scale × 26), between 20 and 35, symbol from the nine-symbol palette |
| Particles.MaxId | src/App.tsx:76 | the largest id of the pool: bounds every id and is attained, and is 0 for an empty pool |
| Particles.MaxIdIsLast | src/App.tsx:76 | in a pool with increasing ids the largest id is the newest entry's |
| Particles.Spawn | src/App.tsx:74-78 | the old pool is kept unchanged as a prefix and the length grows by exactly n |
| Particles.SpawnFresh | src/App.tsx:86-88 | the new entries get ids max+1, …, max+n, each larger than every older id, and are of the pool's kind and within bounds |
| Particles.SpawnKeepsIncreasing | src/App.tsx:75-78 | a spawn keeps ids strictly increasing along the pool |
| Particles.SpawnKeepsWellFormed | src/App.tsx:86-89 | a spawn keeps every entry of the pool's kind and within its bounds |
| Particles.SpawnNone | src/App.tsx:77 | spawning zero particles leaves the pool as it was |
| Particles.SpawnAfterClear | src/App.tsx:87-88 | into an empty pool the ids restart at 1 |
| Particles.Prune | src/App.tsx:81 | the result is the last min(len, cap) entries of the pool, in order |
| Particles.PruneBounded | src/App.tsx:81 | a prune leaves at most cap entries and keeps the newest one |
| Particles.PruneWithinCap | src/App.tsx:92 | a pool within the cap is left unchanged |
| Particles.PruneIdempotent | src/App.tsx:81 | pruning twice is pruning once |
| Particles.PruneKeepsInvariants | src/App.tsx:92 | a prune keeps ids increasing and entries well formed |
| Particles.InitialHearts | src/App.tsx:53 | the startup burst: 18 well-formed hearts, the i-th with id i |
| Particles.InitialHeartsIncreasing | src/App.tsx:53 | the startup ids increase, and the next heart burst continues at id 18 |
| Particles.PruneOutlastsDuration | src/App.tsx:79-82 | a pool's prune delay (16 s / 18 s) is longer than any animation duration its particles can draw, and for a bad emoji longer than start delay plus duration |
| Particles.HeartCanOutlivePrune | src/App.tsx:32-33 | a heart drawn with duration and delay draws of 0.99 starts and runs for 16.395 s, longer than the 16 s before its burst's prune |
| Timers.Show | src/App.tsx:124-139 | the overlay is visible with exactly one pending hide deadline, now + duration |
| Timers.Dismiss | src/App.tsx:154-158 | the overlay is hidden with no pending hide timer |
| Timers.Fire | src/App.tsx:135-138 | a hide deadline reached by t hides the overlay and clears the timer; otherwise nothing changes |
| Timers.ShowRestarts | src/App.tsx:132-135 | showing again replaces the pending deadline instead of adding one |
| Timers.ShownForWindow | src/App.tsx:130-138 | after a show the overlay is visible exactly before now + duration, and hidden with no timer from then on |
| Timers.ReshowExtends | src/App.tsx:132-138 | a re-show before expiry keeps the overlay visible until the new deadline, past the old one |
| Timers.SlotOperationsConsistent | src/App.tsx:124-139 | show, dismiss and firing keep "visible exactly while a future hide is pending" |
| Timers.Due | src/App.tsx:80-82 | whether some pending prune deadline is reached by t; its meaning is stated by `Timers.DueMeans` |
| Timers.Pending | src/App.tsx:91-93 | the deadlines left after the due ones fire, no more than before; their properties are stated by `Timers.PendingAfter` and `Timers.PendingKeepsFuture` |
| Timers.DueMeans | src/App.tsx:80-82 | some prune is due by t exactly when some pending deadline is at most t |
| Timers.PendingAfter | src/App.tsx:91-93 | what remains pending after firing is from the list and lies after t |
| Timers.PendingKeepsFuture | src/App.tsx:91-93 | no deadline after t is dropped |
| Timers.PendingNotDue | src/App.tsx:80-82 | after firing, nothing due by t is left pending |
| Timers.DueAppend | src/App.tsx:80-82 | scheduling one more prune extends "due" and "pending" by that one deadline |
| Valentine.Text | src/App.tsx:172-181 | the exact string `setMessage` stores for each message |
| Valentine.TextInjective | src/App.tsx:172-181 | the texts of the messages are pairwise distinct |
| Valentine.Grow | src/App.tsx:170 | the factor never exceeds 180, never decreases from a value within the cap, grows by 12 below the cap and stays at 180 once reached |
| Valentine.Mount | src/App.tsx:13-53 | after mounting: the startup hearts with ids 0 to 17, no bad emojis, no prune pending, empty message, happy mood, counter 0, factor 100, both overlays hidden, clock 0 |
| Valentine.SpawnInto | src/App.tsx:74-94 | a spawn appends to the chosen pool and schedules that pool's prune, 16 s or 18 s from now; nothing else changes |
| Valentine.YesStep | src/App.tsx:141-164 | the Yes message, happy mood, no bad emojis, 85 hearts appended with a heart prune scheduled, counter 0, factor 100, sad overlay hidden, celebration shown for 12 s, whatever the prior state |
| Valentine.NoStep | src/App.tsx:166-208 | factor grown; counter on by one, or 0 after the terminal step; the step's message; 20 bad emojis on step 3, 40 on the terminal step, none otherwise; only the terminal step turns the mood sad, clears the hearts, hides the celebration and shows the sad overlay for 29 s |
| Valentine.RunPrunes | src/App.tsx:80-82 | one pool after all its due prune callbacks have run; its meaning is stated by `Valentine.RunPrunesToCap` |
| Valentine.ElapseStep | src/App.tsx:135-138 | time moves on by dt; the message, mood, counter and factor are untouched |
| Valentine.MountInv | src/App.tsx:51-53 | the mounted state satisfies the invariant |
| Valentine.YesInv | src/App.tsx:141-164 | "Yes" keeps the invariant: counter in 0..3, factor in 100..180, the message matches the counter, ids increasing, entries well formed, pending deadlines in the future, each overlay only in its own mood, no hearts while sad |
| Valentine.NoInv | src/App.tsx:166-208 | "No" keeps the invariant |
| Valentine.ElapseInv | src/App.tsx:80-93 | firing the due timers keeps the invariant |
| Valentine.OverlayGuardsFollowFlags | src/App.tsx:262-272 | in a reachable state the render guards on the mood add nothing to the overlay flags, and the two overlays are never up together |
| Valentine.RunPrunesToCap | src/App.tsx:80-82 | once a pool's due prunes have run, the pool is its newest `cap` entries if any was due and unchanged otherwise, and none due is left pending |
| Valentine.ElapsePrunesToCap | src/App.tsx:80-93 | after time moves on, each pool whose prune fired is the newest 24 / 40 entries of the old pool, a pool with nothing due is unchanged, and no due timer is left pending |
| Valentine.ElapseFiresTimers | src/App.tsx:135-138 | after time moves on, exactly the prune deadlines after the new time stay pending, and each overlay whose hide deadline was reached is hidden with no timer, the other unchanged |
| Valentine.EarlierPruneCutsLaterBurst | src/App.tsx:80-82 | a heart prune scheduled before a "Yes" and due less than 16 s after it cuts that "Yes"'s 85 new hearts to the newest 24, while their own prune is still pending |
| Valentine.NoStepStage | src/App.tsx:168-206 | the message, mood, counter and factor after a "No" click depend only on those before it |
| Valentine.NoClicksStages | src/App.tsx:166-208 | k "No" clicks act on the message, mood, counter and factor as k steps of that projection |
| Valentine.StagesScale | src/App.tsx:170 | k growth steps give min(180, s + 12k) |
| Valentine.StagesCounter | src/App.tsx:168-206 | k steps move the counter to (c + k) mod 4 |
| Valentine.StagesFromReset | src/App.tsx:172-205 | from a reset counter the k-th step shows the message of step ((k - 1) mod 4) + 1, and the mood is sad from the 4th step on |
| Valentine.StagesReplay | src/App.tsx:204-206 | from a reset counter step k + 4 shows the message and leaves the counter of step k |
| Valentine.NoClicksScale | src/App.tsx:170 | after k ≥ 1 "No" clicks the factor is min(180, s + 12k) |
| Valentine.NoClicksScaleMonotone | src/App.tsx:170 | "No" clicks never decrease the factor nor push it past 180 |
| Valentine.NoClicksCounter | src/App.tsx:168-206 | the stored counter counts clicks modulo 4, so it stays in 0..3 |
| Valentine.NoClicksFromReset | src/App.tsx:172-205 | from a reset counter the k-th click shows step ((k - 1) mod 4) + 1's message, and the mood turns sad exactly from the 4th click on |
| Valentine.ReplayEveryFourth | src/App.tsx:204-206 | from a reset counter the (k + 4)-th click shows what the k-th showed and leaves the same counter |
| Valentine.DeclineSequence | src/App.tsx:172-205 | clicks 1 to 5 from a reset counter show the misclick, funny, for-real and sad messages and then the misclick one again with counter 1; the mood is sad exactly from the 4th click on |
| Valentine.ScaleAfterYes | src/App.tsx:149-170 | after "Yes" and then k "No" clicks the factor is min(180, 100 + 12k) |
| Valentine.YesForgetsEscalation | src/App.tsx:141-164 | the state after "Yes" does not depend on the message, mood, counter, factor, bad emojis or overlays before it |
| Component.RunDuePrunes | src/App.tsx:80-93 | the event loop running one pool's prune callbacks due by t, in scheduling order: the pool ends as one prune if any was due, unchanged otherwise, and exactly the later deadlines stay pending |
| Component.App.constructor | src/App.tsx:51-53 | the object holds the mounted state and satisfies the invariant |
| Component.App.SpawnHearts | src/App.tsx:74-83 | the heart pool and its pending prunes become those of the spawn step; nothing else changes |
| Component.App.SpawnBadEmojis | src/App.tsx:85-94 | the bad-emoji pool and its pending prunes become those of the spawn step; nothing else changes |
| Component.App.YesUpdates | src/App.tsx:141-164 | the field updates of handleYes, in order, produce the "Yes" transition |
| Component.App.HandleYes | src/App.tsx:141-164 | handleYes performs the "Yes" transition and keeps the invariant |
| Component.App.NoUpdates | src/App.tsx:166-208 | the field updates of handleNo, branch by branch, produce the "No" transition |
| Component.App.HandleNo | src/App.tsx:166-208 | handleNo performs the "No" transition and keeps the invariant |
| Component.App.RunDueTimers | src/App.tsx:135-138 | both pools' due prune callbacks and both overlays' due hide callbacks run, and the clock reads now + dt |
| Component.App.Elapse | src/App.tsx:80-93 | time moving on performs the elapse transition and keeps the invariant |

## Left out

- Audio: creating, preloading, playing and stopping the two sounds (`src/App.tsx:55-71`, `100-122`, `153`, `162`, `187`, `196`). These are browser media calls whose errors are swallowed, and nothing else depends on them.
- Rendering: JSX, CSS custom properties, ARIA attributes and the GIF images (`src/App.tsx:210-276`). The only logic there is the two overlay guards; `Valentine.OverlayGuardsFollowFlags` shows they add nothing in a reachable state.
- `Math.random`: the draws are parameters, and a stream is only required to lie in [0, 1).
- Floating point: attribute formulas and `Math.round` are computed on exact reals, and the growth factor on integers in hundredths. Binary rounding of `scale * 28`, `scale * 26` and `s + 0.12` is not modelled.
- React's scheduling: each handler is one atomic transition. State updates are batched, and `handleNo` calls setters inside the `setNoClickCount` updater, which StrictMode may invoke twice. Neither is modelled.
- Real timers: `setTimeout` and `clearTimeout` are deadlines on a virtual clock. Time moves only through `Elapse`, which runs every callback due by the new time. Callbacks of different timers touch different state, and a prune is idempotent, so their relative order does not change the result.
- `showGifFor`'s optional `onShow` callback and its default duration of 8000 ms: no caller passes the first or relies on the second. Likewise the default burst sizes of `spawnHearts` (8) and `spawnBadEmojis` (12) are never used, since every call passes `n`.
- The truthiness test on a timer reference: `if (timeoutRef.current)` treats a timer id of 0 as absent. Browsers hand out positive ids, so the model treats any pending timer as present.
- Valentine.ElapseStep: its own contract states only the clock and the fields time leaves alone. What the due timers do to the pools, the pending prune lists and the overlays is stated by `Valentine.ElapsePrunesToCap` and `Valentine.ElapseFiresTimers`. `Component.RunDuePrunes` is proved equal to the per-pool definition `Valentine.RunPrunes`.
- Particles.Spawn: its own contract states the prefix and the length. The ids, kinds and bounds of the new entries are stated by `Particles.SpawnFresh`.
- The intent that a prune lets long animations finish (`src/App.tsx:79`) is not met by the code, and the model keeps the code's behaviour. The model states two gaps as lemmas. `Particles.HeartCanOutlivePrune`: a heart's start delay plus duration can exceed the 16 s prune delay. `Valentine.EarlierPruneCutsLaterBurst`: a prune cuts the whole pool to its newest entries, whichever burst scheduled it, so a later burst loses entries long before its own 16 s have passed. No corrected prune is modelled, because the code does not show which fix is intended.
