# Wool growth and evolutionary reproduction, modelled in Dafny

This project models two per-creature behaviours of the HideAndFabric game mod.

- **Wool** (`EntityBehaviorWool`, `wool.dfy`, module `Wool`). Wool is never stored. It is recomputed from three inputs: the hours since the last shearing, the creature's generation and the behaviour's configuration. The only persisted value is the `lastShear` timestamp. The derived quantities are pure functions: `HoursPerUnit`, `GenerationalWoolBonus`, `MaxWoolCount`, `WoolCount`, `WoolCountBonus`, `ModifiedScratchChance` and the scratch threshold. The class `Shearing` holds the timestamp. Its methods are load-time `Init`, the eligibility decision `CanShear`, the scratch roll `ReceiveShearDamage`, `DoShear` and `TryShear`.
- **Reproduction** (`EntityBehaviorMultiplyWithEvolution`). This is a two-state machine, idle or pregnant.
  - `reproduction.dfy` (module `Reproduction`) holds the pure parts: the configuration record with its defaults, the offspring-code resolution with its three branches, the two abort checks, and the fractional-litter spawn loop. Each part is a specification function, and the looping methods (`BuildChildCodes`, `SpawnLitter`) are proved equal to them.
  - `multiply.dfy` (module `MultiplyWithEvolution`) holds the partner predicate, the partner search and the spec function for a conception attempt. It also holds the class `Multiplier`, which carries the persisted fields `isPregnant`, `totalDaysPregnancyStart`, `totalDaysLastBirth` and `totalDaysCooldownUntil` plus the creature's hunger tree. Its operations are `ShouldEat`, `TryGetPregnant` and one tick, `CheckMultiplyEvolve`.
- `common.dfy` (module `Common`) holds `Option` and the numeric helpers: the C# `(int)` cast as truncation toward zero, `GameMath.Clamp`, and min/max.

Some things the code uses come from outside it, so the model takes them as inputs:

- The current time.
- Every random draw. Each is a real in [0, 1); `Rand.Next(n)` is a natural number taken modulo `n`.
- Whether the creature is alive, and the side (client or server).
- The creature's generation.
- The creatures the host's range query returns, nearest first.
- The host's wildcard match between a code and a pattern. This is a function parameter with no interpretation.

Doubles and floats are reals.

Two behaviours come from outside this repository, from the game API and from the base behaviour, so the model assumes them:

- `GameMath.Clamp(v, lo, hi)` is taken as `v < lo ? lo : v > hi ? hi : v`.
- The inherited `GetSaturation()` is taken to read `"saturation"` from the hunger tree, or 0 when there is no tree.

## Model

| member | source | states |
|---|---|---|
| Common.Trunc | src/Woolnt.cs:187 | The `(int)` cast truncates toward zero: the result is within 1 of the value, on the zero side. |
| Common.Clamp | src/Woolnt.cs:187 | The clamp result lies in `[lo, hi]` when `lo <= hi`, and is the value itself when the value is already inside. |
| Wool.ResolveWoolConfig | src/Woolnt.cs:262-273 | Each of the eleven fields is resolved on its own: the declared attribute when present (`minQuantity`/`maxQuantity` for the wool bounds), else its default (24, 0.5, 20, 8, 8, 0.05, 4, 12, 4, 3, 0.5). So no attributes gives exactly the defaults. |
| Wool.HoursPerUnit | src/Woolnt.cs:118-125 | Hours per unit never exceed `hoursPerWoolUnit - hoursPerWoolUnitMaxReduction`, nor that base minus the generational reduction. The result is one of the two. |
| Wool.GenerationalWoolBonus | src/Woolnt.cs:130-137 | The bonus is at most `maxGenBonus` and at most `(generation - minGen) * generationalMaxWoolGrowthBonus`. It has no lower bound. |
| Wool.MaxWoolCount | src/Woolnt.cs:169-175 | Capacity is at most `maxWool + maxGenBonus`. |
| Wool.WoolCount | src/Woolnt.cs:180-189 | The count is 0 when fewer than `minWool` units have grown. It is otherwise 0 or at most the cap, whatever the configuration. When `minWool <= MaxWoolCount`, a non-zero count lies in `[minWool, MaxWoolCount]`. |
| Wool.WoolCountBonus | src/Woolnt.cs:205-211 | The shears count is 0 when the plain count is not positive, and otherwise the plain count plus `shearsBonus`. With a non-negative bonus it is positive exactly when the plain count is, and never below it. |
| Wool.ModifiedScratchChance | src/Woolnt.cs:216-224 | The scratch chance is at least 0.05, and at least `scratchChance - generationalScratchChanceReduction * generation`. |
| Wool.ScratchThreshold | src/Woolnt.cs:289 | The threshold a draw is compared with is at least 0.05, whatever the multiplier. |
| Wool.Shearing.constructor | src/Woolnt.cs:277-280 | A fresh wool tree reads `lastShear` as 0. |
| Wool.Shearing.Init | src/Woolnt.cs:246-252 | Loading takes the entity's `lastShearTime` attribute, 0 when absent. Only the server clamps it to now, so growth is non-negative there afterwards. |
| Wool.Shearing.CanShear | src/Woolnt.cs:311-346 | Success means alive, server side, wool count > 0, generation >= `minGen`, and a knife or shears. The bonus is set exactly for shears. The client never succeeds. Its message is "too wild" when the generation is too low, and "not enough wool" only when the generation is high enough and the count is 0. |
| Wool.Shearing.ReceiveShearDamage | src/Woolnt.cs:286-293 | The creature is injured exactly when the draw is below the threshold, so every draw below 0.05 injures it. |
| Wool.Shearing.DoShear | src/Woolnt.cs:351-368 | The yield is the bonus count if bonused, else the plain count, both at the pre-shear growth. The scratch is rolled with multiplier 1. `lastShear` becomes now whatever the roll, so growth restarts at 0. |
| Wool.Shearing.TryShear | src/Woolnt.cs:298-306 | Shears exactly when `Shearable` holds. A successful shear yields the bonus count with shears and the plain count with a knife, at the growth before shearing. With a non-negative bonus that is at least 1 unit. It injures exactly when the draw is below the threshold at multiplier 1, and it restarts growth at now. A refused shear changes nothing and injures nothing. |
| Wool.MaxWoolCountMonotone | src/Woolnt.cs:169-175 | With a non-negative per-generation bonus, capacity is non-decreasing in generation. |
| Wool.GenerationalWoolBonusNegativeBelowMinGen | src/Woolnt.cs:130-137 | Below `minGen`, a positive per-generation bonus is a negative bonus, so capacity drops below `maxWool`. |
| Wool.WoolCountWholeUnits | src/Woolnt.cs:180-189 | With positive hours per unit and `0 <= minWool <= cap`, once `minWool` units have grown the count is `min(floor(growth / HoursPerUnit), cap)`. |
| Wool.DefaultHoursPerUnit | src/Woolnt.cs:118-125 | With the defaults, hours per unit are 4 for every generation up to 43. From generation 44 they are `24 - (generation - 3) * 0.5`. |
| Wool.DefaultHighGenerationGrowsNoWool | src/Woolnt.cs:180-189 | With the defaults, a creature of generation 52 or more never has wool. |
| Wool.DefaultGeneration0NegativeWool | src/Woolnt.cs:169-189 | With the defaults, generation 0 has capacity -12, and after 16 hours its wool count is -12. No shearing attempt succeeds at that state. |
| Wool.DefaultGeneration51GrowsAtOnce | src/Woolnt.cs:180-189 | With the defaults, generation 51 has zero hours per unit, and any positive growth gives the full capacity of 20. |
| Reproduction.ResolveMultiplyConfig | src/Multiplywithevolution.cs:37-114 | Each getter is resolved on its own: the declared attribute when present, else its default (3 pregnancy days, empty code lists, empty single code, range 5, exclusive evolution, quantity 1 to 2). The base behaviour's portions and cooldown bounds pass through. So no attributes gives exactly the defaults. |
| Reproduction.Qualifying | src/Multiplywithevolution.cs:224-228 | The qualifying evolved codes are never more than the evolved codes. |
| Reproduction.QualifyingMembership | src/Multiplywithevolution.cs:224-228 | A code qualifies exactly when it stands at an index whose threshold the generation reaches. |
| Reproduction.QualifyingAppend | src/Multiplywithevolution.cs:224-228 | Qualifying distributes over concatenation, so qualifying codes keep their index order. |
| Reproduction.QualifyingAll | src/Multiplywithevolution.cs:224-228 | When every threshold is reached, every evolved code qualifies, in order. |
| Reproduction.ChildCodes | src/Multiplywithevolution.cs:218-258 | Every candidate code is a base code or an evolved code. |
| Reproduction.BuildChildCodes | src/Multiplywithevolution.cs:218-258 | The loop-and-append construction yields exactly `ChildCodes`. |
| Reproduction.PerCodeThresholdsMembership | src/Multiplywithevolution.cs:220-243 | In branch 1 (thresholds non-empty and as many as evolved codes), a code is a candidate exactly when it is a qualifying evolved code, or a base code while evolution is non-exclusive or nothing qualifies. |
| Reproduction.PerCodeThresholdsAllReached | src/Multiplywithevolution.cs:220-243 | In branch 1, with exclusive evolution and all thresholds reached, the candidates are exactly the evolved codes, and no base code is appended. |
| Reproduction.PerCodeThresholdsNoneReachedNonExclusive | src/Multiplywithevolution.cs:231-241 | In branch 1, when nothing qualifies and evolution is non-exclusive, the base codes are used as fallback and then appended again. |
| Reproduction.SingleThresholdIgnoresExclusive | src/Multiplywithevolution.cs:245-252 | In branch 2 the candidates are the evolved codes followed by the base codes, and `exclusiveEvolution` does not change them. |
| Reproduction.FallbackUsesBaseCodes | src/Multiplywithevolution.cs:254-258 | Outside branches 1 and 2 the candidates are exactly the base codes. This includes a single threshold that is not reached. |
| Reproduction.SingleEvolvedCodeTakesPerCodeBranch | src/Multiplywithevolution.cs:220-243 | One evolved code with one reached threshold takes branch 1. Exclusive evolution then keeps the base codes out; non-exclusive appends them. |
| Reproduction.BirthAbortsIffNoBaseCodes | src/Multiplywithevolution.cs:260-274 | The two abort checks fire exactly when the base code list is empty, at every generation. |
| Reproduction.SpawnQuantity | src/Multiplywithevolution.cs:208 | The sampled litter size lies between the configured minimum and maximum. |
| Reproduction.CooldownDays | src/Multiplywithevolution.cs:210 | The sampled cooldown is non-negative when both cooldown bounds are. |
| Reproduction.LitterSizeBounds | src/Multiplywithevolution.cs:287-300 | For `q > 0` the loop spawns `ceil(q) - 1` or `ceil(q)` offspring, and a whole `q` exactly `q`. For `q <= 0` it spawns none. |
| Reproduction.Litter | src/Multiplywithevolution.cs:278-300 | Every offspring of a litter has the one drawn code, generation + 1 and origin `"reproduction"`. |
| Reproduction.SpawnLitter | src/Multiplywithevolution.cs:287-300 | The `while (q > 1 \|\| draw < q) q--` loop terminates and produces exactly `Litter`. |
| Reproduction.BirthChildren | src/Multiplywithevolution.cs:260-300 | A birth spawns nothing when it aborts, which is exactly when the base codes are empty. Otherwise it spawns `LitterSize(q, first loop draw)` offspring, so `LitterSizeBounds` applies. All of them share one candidate code, have generation + 1 and origin `"reproduction"`. |
| MultiplyWithEvolution.AcceptsPartnerIff | src/Multiplywithevolution.cs:356-371 | The search predicate accepts a creature exactly when its code matches some required pattern and it does not eat or has satiation >= 1. |
| MultiplyWithEvolution.FirstAccepted | src/Multiplywithevolution.cs:351-372 | The search returns the first accepted creature of the list, or none when none is accepted. |
| MultiplyWithEvolution.GetRequiredEntityNearby | src/Multiplywithevolution.cs:351-372 | There is no partner when no codes are required. Otherwise the result is the nearest accepted creature. |
| MultiplyWithEvolution.ConceptionAttempt | src/Multiplywithevolution.cs:307-348 | An attempt is not refused exactly when the draw is <= 0.06, the cooldown has ended, a hunger tree exists with the read satiation >= portions, and a required partner is found. It is botched exactly when it is not refused and the second draw is < 0.2, and otherwise it conceives with the found partner. |
| MultiplyWithEvolution.HungerAfter | src/Multiplywithevolution.cs:322-328 | A refusal leaves the actor's hunger tree as it was. A botch writes the value read under the misspelled key, less 1, to `"saturation"`; a conception writes that value less the portions. Both keep every other key and add `"saturation"` if it was missing. |
| MultiplyWithEvolution.PartnerAfterConception | src/Multiplywithevolution.cs:330-338 | A partner with a hunger tree has its satiation `s` replaced by `max(0, s - 1)`: `s - 1` when `s >= 1`, 0 otherwise. Only the `"saturation"` entry changes, and it is added if it was missing. A partner without a hunger tree is unchanged. |
| MultiplyWithEvolution.NeighboursAfter | src/Multiplywithevolution.cs:330-338 | After a conception with a partner, that partner's entry becomes `PartnerAfterConception` of it, and every other nearby creature is unchanged. After any other outcome, the list is unchanged. |
| MultiplyWithEvolution.Multiplier.constructor | src/Multiplywithevolution.cs:157-172 | The persisted fields are loaded as stored. A missing `totalDaysLastBirth` is -9999. |
| MultiplyWithEvolution.Multiplier.ShouldEat | src/Multiplywithevolution.cs:137-150 | The creature wants food with `eatAnyway`, or when it is idle, below the portions and out of cooldown. Otherwise, unless `eatAnyway` is set, it does not want food while pregnant, in cooldown or already at the portions. |
| MultiplyWithEvolution.Multiplier.TryGetPregnant | src/Multiplywithevolution.cs:307-348 | The outcome is `ConceptionAttempt`'s. A refusal changes nothing. A botch writes the read value - 1 to `"saturation"`. A conception writes the read value - portions, lowers the partner's satiation, and sets pregnant with start = now. Birth and cooldown fields are untouched. |
| MultiplyWithEvolution.Multiplier.CheckMultiplyEvolve | src/Multiplywithevolution.cs:175-305 | A dead creature, or a missing calendar, changes nothing. An idle tick only applies the conception attempt, with no offspring. A pregnant tick changes nothing until `now - start > pregnancyDays` (strict). Birth then sets not pregnant, last birth = now and cooldown = now + sample, and spawns `BirthChildren`, which is none when the birth aborts. Ticks keep `Consistent` (pregnant implies cooldown <= start <= now). A birth never moves the cooldown backwards. |
| MultiplyWithEvolution.MisspelledKeyPreventsConception | src/Multiplywithevolution.cs:315-317 | Satiation is read under `"saExtensionturation"`. A hunger tree without that key reads 0, so with positive portions no attempt ever conceives. |
| MultiplyWithEvolution.RefusedChangesNothing | src/Multiplywithevolution.cs:307-348 | A refused attempt leaves the actor's and the partners' hunger trees as they were. |

## Code versus documentation

The model follows the code. These consequences of the code are proved. Where a doc comment in the source says otherwise, the entry says so.

- `HoursPerUnit` subtracts the larger of the generational reduction and the cap (src/Woolnt.cs:122). The field documentation (src/Woolnt.cs:38-48) says it subtracts "whichever is smaller". With the defaults, generation 5 therefore grows a unit every 4 hours, not every 23 (`DefaultHoursPerUnit`).
- With the defaults, generation 51 divides by zero and has full wool at once (`DefaultGeneration51GrowsAtOnce`). From generation 52 on, hours per unit are negative and no wool ever grows (`DefaultHighGenerationGrowsNoWool`).
- `GenerationalWoolBonus` has no floor at 0 (`GenerationalWoolBonusNegativeBelowMinGen`). With the defaults, a generation-0 creature's capacity is -12, so after 16 hours the clamp in `WoolCount` returns -12 (`DefaultGeneration0NegativeWool`). The doc comment at src/Woolnt.cs:178 describes the count as the grown amount or `MaxWoolCount`, whichever is smaller. The value is harmless, because `CanShear` requires a positive count.
- Branch 1 of the child-code resolution needs at least one threshold, not two (src/Multiplywithevolution.cs:220). So one evolved code with one threshold honours `exclusiveEvolution` (`SingleEvolvedCodeTakesPerCodeBranch`). Only branch 2, with one threshold and a different number of evolved codes, always appends the base codes.
- In branch 1 with non-exclusive evolution and nothing qualifying, the base codes appear twice (`PerCodeThresholdsNoneReachedNonExclusive`).
- One child code is drawn for the whole litter (src/Multiplywithevolution.cs:278), so a litter is never mixed.
- The birth aborts, before any code is drawn, exactly when the base code list is empty (`BirthAbortsIffNoBaseCodes`). So an evolved-only configuration never reproduces. A birth that does not abort can still spawn nothing when the litter quantity is below 1 and the loop's draw fails.
- The conception attempt reads satiation under `"saExtensionturation"` (src/Multiplywithevolution.cs:315) but writes `"saturation"` (lines 324, 328) (`MisspelledKeyPreventsConception`).
- `init` reads `lastShearTime` from the sheared creature's attributes (src/Woolnt.cs:248). `DoShear` writes it onto the shearer (src/Woolnt.cs:364). The `lastShear` value in the wool tree is not consulted when loading. The doc comment at src/Woolnt.cs:243-244 says a newly spawned creature gets the current time; the code gives it the attribute's default 0, so its wool is already grown.

## Left out

- Mod registration (`Core.Start`), the behaviours' `PropertyName`, and the periodic callback: arming, re-arming each tick and unregistering on despawn. These are host plumbing. A tick is one call of `CheckMultiplyEvolve`.
- Entity creation, `SpawnEntity`, copying the parent's position, and the motion jitter. The model returns the offspring as values. The jitter draws two extra random values per offspring. The model's spawn-loop draws are the values the loop condition sees, whichever positions they take in the generator's stream.
- The spatial search `GetNearestEntity` itself, including `requiresNearbyEntityRange`. The host's result is the `nearby` list, in range and nearest first. The model picks the first accepted creature.
- `WildCardMatch` and `AssetLocation` parsing. Codes are opaque strings and matching is a function parameter. The `code == null` check after the pick cannot fail in the model, so it is not represented.
- The partner is a value in the `nearby` list, separate from the creature's own state. A partner that is the creature itself is not modelled.
- In `DoShear`: the item stack, giving or dropping it, the sound, tool durability, `MarkDirty`, and the write of `lastShearTime` onto the shearer. The damage itself, 1 slashing point, is reported as a boolean.
- `GetInfoText` of both behaviours, localisation, the client's in-game error rendering (only which message is chosen is kept), logger diagnostics, `MarkPathDirty` and `FrameProfiler`.
- The unused getter `RequiresNearbyEntityCode` is kept as a configuration field and nothing more.
- IEEE floating point, float versus double precision, and 32-bit overflow of the integer products in `GenerationalWoolBonus`. Reals and unbounded integers are used, apart from the explicit division-by-zero cases in `WoolCount`.
- The base behaviour `EntityBehaviorMultiplyBase`, which lives outside this repository. `PortionsEatenForMultiply`, `MultiplyCooldownDaysMin` and `MultiplyCooldownDaysMax` are configuration constants. `TotalDaysCooldownUntil` is a field. `GetSaturation` is as described above.
- `Rand.Next(n)` is modelled as a natural number taken modulo `n`. That is a choice of index, not the generator's algorithm.
