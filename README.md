# Evolving snake: a verified model

A console game in which a snake lives in a swamp, is asked about each enemy
present (frog, lizard, mouse, bird), and evolves through five tiers (Snake,
BronzeSnake, SilverSnake, GoldSnake, DiamondSnake) by killing them. This
project models the game's logic in Dafny and proves what it does:

- `evolution.dfy`, module `Evolution`: the tiers, the enemy kinds, the
  `collect` transition table (`Evolve`) and the player class `Snake`, whose
  `Collect` method updates the tier in place.
- `location.dfy`, module `Habitat`: the biomes, the per-kind counters as a
  value (`Counters`, with `Add`, `Remove` and `AddAll` for a run of draws) and
  the class `Location`, whose fields are the source's: a fixed biome, capacity
  and spawn weights, four counters and the cached `population`. `SpawnEnemies`
  loops `capacity` times over externally supplied draws; `KillEnemy`
  decrements one counter. The invariant `Valid` says the cached population is
  the sum of the counters and that everything fits in 32 bits.
- `session.dfy`, module `Session`: one pass of the `while game_running` loop
  as a pure function (`Step`, built from one `Prompt` per kind), the loop
  itself (`Run`), and the same logic run imperatively on the objects:
  `FrogPrompt`, `LizardPrompt`, `MousePrompt`, `BirdPrompt`, `Pass`, `Loop`
  and `Play` (the body of `main`). Each imperative method is proved equal to
  its function.

Console lines are an input sequence of `Answer`s (`Y`, `N`, `Other`). Reading
past the end yields `Other`, because a failed `read_line` leaves the buffer
empty. Random draws are an input too. Pass i of the loop spawns, if it
spawns, from `rolls[i]`, a batch of `capacity` enemy kinds. A draw must be of
a kind with positive weight, since a weighted draw never yields a
zero-weight kind.

Behaviours of the code that the proofs make explicit:

- A lizard always gives SilverSnake, a mouse GoldSnake and a bird
  DiamondSnake. So a lizard demotes a gold or diamond snake, and a mouse
  demotes a diamond one (`CollectDemotes`).
- "Y" to the frog from a snake past the base tier kills the frog and ends the
  pass through `continue`. The other prompts are skipped and `collect` is not
  called (`FrogYesSkipsRest`). `FrogPrompt` reports the `continue` through a
  `skip` result, and `Pass` ends the pass early on it.
- "N" to the lizard sets `game_running` back to true. It undoes an "N" given
  to the frog earlier in the same pass (`LizardNoRevives`, `FullPassRunning`).
- Every kill is preceded by a check that the counter is positive, so the
  unsigned counters never underflow. `Step`, `Prompt` and `Pass` are only
  well-formed because `Remove` and `KillEnemy` get their preconditions.
- From the start of a game there are never more than 5 enemies, so the 32-bit
  counters cannot overflow (`RunBounded`, `Play`).
- Only an "N" or a win ends the game: with no "N" on the console, a loop
  that stops has stopped on the diamond snake's winning pass
  (`RunStopsOnlyByWin`).
- At end of input with enemies still present, every pass changes nothing, so
  the loop never stops (`EndOfInputStalls`).

The model follows the code where it departs from the game's apparent design:

- `spawn_enemies` recomputes the population after every draw, not once at
  the end.
- `kill_enemy` on an empty counter is an unsigned underflow in the code, not
  a clamp. The model makes a positive counter a precondition.
- A lizard refusal does more than "not end" the game: it sets the flag to
  true.
- An "N" to the frog, mouse or bird does not end the game at once: it only
  clears the flag, the rest of the pass still runs, and a later "Y" in the
  same pass still kills and evolves the snake (`Step`, `FullPassRunning`).

## Model

| member | source | states |
|---|---|---|
| Evolution.CollectIgnoresTier | src/main.rs:56-58 | a lizard, mouse or bird gives SilverSnake, GoldSnake or DiamondSnake whatever the tier before |
| Evolution.CollectFrog | src/main.rs:50-54 | a frog turns Snake into BronzeSnake and leaves every other tier unchanged |
| Evolution.CollectDemotes | src/main.rs:48-59 | the tier drops exactly for lizard on gold/diamond and mouse on diamond; a frog never lowers it |
| Evolution.CollectIdempotent | src/main.rs:48-59 | collecting the same kind twice is the same as once |
| Evolution.DiamondOnlyByBird | src/main.rs:48-59 | DiamondSnake results exactly from a bird, or from a frog that leaves a diamond snake as it is |
| Evolution.Snake.constructor | src/main.rs:43-47 | a new snake is at the base tier |
| Evolution.Snake.Collect | src/main.rs:48-60 | the new tier is the table's entry for the old tier and the enemy |
| Habitat.Add | src/main.rs:125-130 | one draw raises its own counter by one, leaves the others alone, and raises the total by one |
| Habitat.Remove | src/main.rs:140-146 | one kill lowers its own counter by one, leaves the others alone, and lowers the total by one |
| Habitat.EmptyIffNoPopulation | src/main.rs:131-161 | the cached population is zero exactly when no enemy of any kind is left |
| Habitat.RemoveUndoesAdd | src/main.rs:139-147 | killing the kind just added restores the counters |
| Habitat.AddAllCount | src/main.rs:123-132 | after a run of draws each counter has grown by the number of draws of its kind |
| Habitat.AddAllTotal | src/main.rs:123-132 | after a run of draws the population has grown by the number of draws |
| Habitat.Location.Swamp | src/main.rs:81-95 | an empty valid swamp of capacity 5 with weights 0.50/0.35/0.10/0.05, all positive |
| Habitat.Location.Prarie | src/main.rs:96-110 | an empty valid prairie of capacity 8 with all weights zero |
| Habitat.Location.SpawnEnemies | src/main.rs:112-137 | in a swamp the counters become the old ones plus the draws, and the population rises by capacity with the sum invariant kept after every draw; other biomes change nothing |
| Habitat.Location.KillEnemy | src/main.rs:139-147 | needs a positive counter; removes exactly one enemy of that kind and lowers the population by one, keeping the sum invariant |
| Session.RewardIsCollect | src/main.rs:182-269 | each guarded `collect` in the prompts has the effect of an unguarded `collect` |
| Session.PromptYes | src/main.rs:178-272 | "Y" on a present kind kills exactly one of it, evolves the tier by it, and leaves the flag alone |
| Session.PromptNo | src/main.rs:196-276 | "N" sets the flag to false for frog, mouse and bird and to true for the lizard, changing nothing else |
| Session.PromptOther | src/main.rs:172-277 | any other line, or a failed read, is consumed and changes nothing |
| Session.PromptAbsent | src/main.rs:171-256 | a kind with a zero counter is not asked about and no line is read |
| Session.PromptKillsAtMostOne | src/main.rs:171-279 | a prompt either leaves the counters alone or removes one enemy of its kind, which was present |
| Session.PromptKeepsRunning | src/main.rs:171-279 | a prompt not answered "N" leaves a running game running |
| Session.PromptIgnored | src/main.rs:171-279 | a prompt answered with an ignored line leaves the game unchanged |
| Session.PromptCounts | src/main.rs:171-279 | a prompt changes only its own counter, by at most one, and never raises the population |
| Session.IdlePass | src/main.rs:161-169 | with no enemies a non-diamond snake triggers a spawn and the game goes on; a diamond snake ends the game with the counters untouched; no line is read |
| Session.IdleSwampSpawnsCapacity | src/main.rs:161-165 | a spawn into an empty swamp leaves exactly one enemy per draw, each counter equal to its kind's draws |
| Session.FrogYesSkipsRest | src/main.rs:178-192 | "Y" to the frog from a snake past the base tier kills the frog, keeps the tier, reads one line and skips the other prompts |
| Session.LizardNoRevives | src/main.rs:196-228 | "N" to the frog then "N" to the lizard leaves the game running |
| Session.FullPassRunning | src/main.rs:170-280 | with every kind present the pass reads four lines and the last "N" decides the flag: false unless it was the lizard's |
| Session.NoRefusalKeepsRunning | src/main.rs:160-281 | a pass with no "N" keeps the game running unless it is the diamond snake's winning pass |
| Session.IgnoredPassChangesNothing | src/main.rs:170-280 | a pass with enemies present and only ignored lines changes nothing |
| Session.PassPopulation | src/main.rs:160-281 | a pass lowers each counter by at most one and never below zero; only a spawn into an empty area raises the population |
| Session.RunStopsOnlyByWin | src/main.rs:160-281 | with no "N" on the console, the loop can only stop on the diamond snake's winning pass, ending in an empty area |
| Session.RunBounded | src/main.rs:160-281 | the population never exceeds the largest spawn batch, and the biome never changes |
| Session.EndOfInputStalls | src/main.rs:171-277 | at end of input with enemies present the loop changes nothing, pass after pass |
| Session.DiamondWins | src/main.rs:160-169 | a diamond snake in an empty area ends the game at the next pass |
| Session.FrogPrompt | src/main.rs:171-202 | the frog block on the objects equals the frog prompt, and reports the `continue` |
| Session.LizardPrompt | src/main.rs:203-231 | the lizard block on the objects equals the lizard prompt |
| Session.MousePrompt | src/main.rs:232-255 | the mouse block on the objects equals the mouse prompt |
| Session.BirdPrompt | src/main.rs:256-279 | the bird block on the objects equals the bird prompt |
| Session.Pass | src/main.rs:161-280 | one loop body on the snake and the area equals one pass, and keeps the area valid |
| Session.Loop | src/main.rs:160-281 | the `while game_running` loop leaves the snake and the area in the state the loop function gives, keeps the area valid, and never leaves more than 5 enemies in the swamp |
| Session.Play | src/main.rs:150-282 | a game from a base snake in an empty swamp ends as the loop function says, with at most 5 enemies left |

## Left out

- Console output: `println!` and the `Display` impl for `State`. They only format text.
- Reading and trimming console lines. Each line is already an `Answer`, and a failed read is `Other`.
- The random generator: `thread_rng`, `WeightedIndex` and its `f32` weights. Draws are inputs, each of a kind with positive weight. The weights are exact `real`s, without `f32` rounding.
- The panic of `WeightedIndex::new` when every weight is zero. Only the swamp branch builds a `WeightedIndex`, and the swamp's weights are positive.
- Habitat.Location.SpawnEnemies: does not model a counter overflow past 32 bits. The precondition excludes it, and the game never comes near it (`RunBounded`).
- Session.Loop: runs at most |rolls| passes. The source loop is unbounded and may never stop (`EndOfInputStalls`).
- Session.Play: runs at most |rolls| passes. The source loop is unbounded and may never stop (`EndOfInputStalls`).
- The RNG draws for each pass come as a separate batch. The source draws from one generator stream. A pass that does not spawn ignores its batch.
