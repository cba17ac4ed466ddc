# Space English: the data core in Dafny

A Dafny model of the static data layer of the Space English learning app,
with proofs about it. The app is a React Native app for young children. They
visit planets, repeat English words after a voice prompt, and earn stars,
fuel and points. The core is made of three parts:

- `data/config.ts` holds the application configuration. This is the
  production preset, the development overrides and their merge. It also holds
  the scoring rules: the star rating for a recognition confidence, the
  rewards for a rating, and the mastery check over an item's recent attempts.
- `data/planets.ts` holds the planet table (Earth, Moon, Mars) and the unlock
  queries over it. These find a planet's entry, list the unlocked planets,
  give the next planet to unlock, tell whether a planet is unlocked, measure
  unlock progress and order the planets. The same file derives the
  `PLANET_STATS` summary.
- `data/animals.ts` holds the Earth animal catalogue and its queries. These
  look an animal up by id, filter by difficulty, category or habitat, list
  the enabled animals in order, and draw random animals. The same file
  derives the `ANIMAL_STATS` summary.

## Files

| file | contents |
|---|---|
| `optional.dfy` | `Option`, the model of a JavaScript value that may be `undefined` |
| `seqs.dfy` | the array operations the data layer uses, each with its contract. `filter` keeps the input order, and `find` comes with its first-match rule. `sort` takes a numeric key. `slice(0, n)` includes the negative-`n` case. `Math.min`/`Math.max` over a list are here too. |
| `learning_types.dfy` | the records and enumerations of `types/learning.ts` |
| `config.dfy` | `APP_CONFIG`, `DEV_CONFIG`, `getAppConfig`, the scoring functions and `CONFIG_CONSTANTS` |
| `planets.dfy` | `PLANET_CONFIGS`, the planet queries and `PLANET_STATS` |
| `animals.dfy` | `EARTH_ANIMALS`, the animal queries and `ANIMAL_STATS` |

Modelling choices:

- **Numbers.** JavaScript numbers become `real` where fractions matter
  (confidence, thresholds, unlock progress). They become `int` where the
  source only ever stores whole numbers (stars, orders, counts, durations).
- **Planet queries.** They read the module-level table `PLANET_CONFIGS`
  directly, as the source does.
- **Animal queries.** Each takes the catalogue it reads as its first
  argument; the app always passes `EARTH_ANIMALS`.
  - This makes every query's contract hold for any catalogue.
  - Separate lemmas state what the shipped catalogue adds: distinct ids,
    every animal enabled, and already in `order`.
- **Sorting.** `Array.prototype.sort` with a subtracting comparator is
  modelled as an insertion sort on the key. Like the stable sort ES2019
  requires, it keeps equal keys in input order, though only order and
  permutation are proved.
- **Random order.** `Math.random()` comparators are not modelled. The order
  a random shuffle produces is an input: any permutation of the list being
  shuffled.

## Model

| member | source | states |
|---|---|---|
| Seqs.Filter | data/planets.ts:77-81 | `Array.prototype.filter` as every query uses it: every kept element satisfies the predicate; each element is kept with its full multiplicity exactly when it satisfies it; the result is a subsequence of the input in the input's order |
| Seqs.Find | data/planets.ts:68-70 | `Array.prototype.find`: `undefined` exactly when no element matches, otherwise a matching element of the list with no match before it |
| Seqs.SortByKey | data/planets.ts:88-92 | `sort((a, b) => key(a) - key(b))`: the result is a permutation of the input that is ordered by the key |
| Seqs.SortOfSortedIsIdentity | data/planets.ts:126-128 | sorting a list that is already ordered by the key returns it unchanged |
| Seqs.SlicePrefix | data/animals.ts:184 | `slice(0, end)`: a prefix of the input holding `min(end, length)` elements for a non-negative end, and dropping `-end` elements from the back for a negative one |
| Seqs.MaxOf | data/planets.ts:144 | `Math.max(...list)` on a non-empty list is an element of the list and no element exceeds it |
| Seqs.MinOf | data/planets.ts:147-151 | `Math.min(...list)` on a non-empty list is an element of the list and no element is below it |
| Seqs.Map | data/planets.ts:144-150 | `Array.prototype.map`: the result has the input's length and holds `f` of the input's element at each position |
| Seqs.FilterCountsValue | data/animals.ts:144-164 | filtering on one value of a field keeps as many elements as that value occurs among the mapped fields |
| Config.Merge | data/config.ts:100-114 | the object-spread merge of a partial configuration over a base: each section comes from the overrides when they supply it and from the base otherwise |
| Config.GetAppConfig | data/config.ts:19-117 | production returns `APP_CONFIG` itself; development differs from it exactly in the thresholds (30/50/70), the animation duration (150) and the auto-play interval (1000); both presets have ascending thresholds |
| Config.RatingFor | data/config.ts:142-151 | the rating under any thresholds: 3 at or above the three-star cut, 2 between the two- and three-star cuts, 1 below both; the below-one-star branch still gives 1 |
| Config.CalculateStarRating | data/config.ts:139-152 | the rating the app computes reads the production thresholds: 3 stars from 90, 2 from 70 up to 90, 1 below 70 |
| Config.OneStarThresholdIsIrrelevant | data/config.ts:146-150 | changing the one-star threshold never changes a rating, since both of its branches return 1 |
| Config.RatingIsMonotone | data/config.ts:142-151 | for any thresholds, even a two-star cut above the three-star cut, a higher confidence never earns fewer stars |
| Config.DevRatingIsNeverLower | data/config.ts:76-84 | the development thresholds rate every confidence at least as high as the production ones |
| Config.CalculateRewards | data/config.ts:159-167 | the reward keeps the rating as its star count and pays one fuel and one point per star, from the production reward tables |
| Config.RewardsDoNotDependOnEnvironment | data/config.ts:76-93 | the development overrides leave the reward tables alone, so both environments pay the same rewards |
| Config.CheckMastery | data/config.ts:175-186 | fewer attempts than the count is never mastery; otherwise mastery holds exactly when each of the `masteryCount` most recent attempts has 3 stars; a negative count follows `slice` and checks all but the last `-count` attempts |
| Config.DefaultMasteryMatchesConstants | data/config.ts:191-197 | mastery with the default count is the rule the configuration constants spell out: at least `MASTERY_REQUIRED_COUNT` attempts, the latest ones all at `MASTERY_REQUIRED_RATING` |
| Config.MasteryIgnoresOlderAttempts | data/config.ts:183-185 | attempts older than the window never change the verdict |
| Config.MasteryUnderNewAttempt | data/config.ts:175-186 | a new 3-star attempt keeps a mastered item mastered; a new attempt with fewer stars always loses mastery |
| Config.ScoringExamples | data/config.ts:139-186 | worked examples: 95/75/55/10 rate 3/2/1/1 in production; 55 rates 2 under the development thresholds; rewards for 3 and 1 stars; three 3-star attempts are mastery, while a 2 in the window or too short a history is not |
| Planets.UnlockingIsMonotone | data/planets.ts:78-80 | earning stars never locks a planet that the unlock rule has opened |
| Planets.PlanetTypesAreDistinct | data/planets.ts:19-61 | no two entries of the planet table are for the same planet |
| Planets.GetPlanetConfig | data/planets.ts:68-70 | every planet type has an entry, it has that type, and it is the only entry for that type |
| Planets.GetUnlockedPlanets | data/planets.ts:77-81 | a table entry is listed exactly when it is unlocked by default or the stars reach its requirement; the list keeps table order |
| Planets.UnlockedPlanetsByStars | data/planets.ts:19-81 | the unlocked list is Earth alone below 15 stars, Earth and Moon from 15 to 29, and the whole table from 30 |
| Planets.IsPlanetUnlocked | data/planets.ts:100-105 | a planet counts as unlocked exactly when its entry is in the unlocked list |
| Planets.PlanetUnlockIsMonotone | data/planets.ts:100-105 | a planet unlocked at some star count stays unlocked at every higher count, and Earth is unlocked at every count |
| Planets.LeastLocked | data/planets.ts:88-92 | for any table: `undefined` exactly when no planet is locked; otherwise a locked planet of the table whose requirement is not above any other locked planet's |
| Planets.GetNextLockedPlanet | data/planets.ts:88-92 | `undefined` exactly when every planet is unlocked; otherwise a locked planet (one `isPlanetUnlocked` also rejects) with the smallest requirement among the locked ones |
| Planets.GetPlanetUnlockProgress | data/planets.ts:113-120 | 1 for a planet unlocked by default; for a planet not unlocked by default, the ratio of stars to the requirement (progress times requirement equals the stars) up to the requirement, negative counts included, and 1 from there on; for a non-negative star count, progress lies between 0 and 1, and it is 1 exactly when `isPlanetUnlocked` holds |
| Planets.Capped | data/planets.ts:119 | `Math.min(ratio, 1)`: at most both the ratio and 1, and equal to one of them |
| Planets.ProgressIsMonotone | data/planets.ts:113-120 | more stars never mean less progress towards any planet |
| Planets.GetPlanetsByOrder | data/planets.ts:126-128 | a permutation of the table ordered by `order`, which is the table itself |
| Planets.PlanetStatsAreConsistent | data/planets.ts:133-152 | the default and locked-by-default counts add up to the total; from `maxStarsRequired` stars every planet is unlocked; below `minStarsRequired` only default planets are |
| Planets.PlanetStatsValues | data/planets.ts:133-152 | the summary of the shipped table: 3 planets, 1 default, 2 to unlock, requirements from 15 up to 30 |
| Animals.EarthAnimalIdsAreDistinct | data/animals.ts:19-128 | no two animals of the shipped catalogue share an id |
| Animals.GetAnimalById | data/animals.ts:135-137 | `undefined` exactly when no entry has the id; otherwise an entry with that id, and with distinct ids the only one |
| Animals.EveryEarthAnimalIsFoundById | data/animals.ts:135-137 | looking up a shipped animal by its own id returns that animal |
| Animals.GetAnimalsByDifficulty | data/animals.ts:144-146 | an entry is in the result exactly when it has the difficulty, with its full multiplicity, in catalogue order |
| Animals.GetAnimalsByCategory | data/animals.ts:153-155 | an entry is in the result exactly when it has the category, with its full multiplicity, in catalogue order |
| Animals.GetAnimalsByHabitat | data/animals.ts:162-164 | an entry is in the result exactly when it has the habitat, with its full multiplicity, in catalogue order |
| Animals.GroupsCoverCatalogue | data/animals.ts:144-164 | for each of difficulty, category and habitat, the per-value selections of any catalogue together have as many entries as the catalogue |
| Animals.GetEnabledAnimals | data/animals.ts:170-174 | exactly the enabled entries with their multiplicities, ordered by `order` |
| Animals.EnabledEarthAnimalsAreTheCatalogue | data/animals.ts:19-128 | every shipped animal is enabled and the catalogue is in `order`, so the enabled list is the catalogue unchanged |
| Animals.GetRandomAnimals | data/animals.ts:181-185 | for any shuffle of the enabled list, the result holds `min(count, enabled)` animals (for a negative count, `-count` fewer than the enabled number, floored at 0); every drawn animal is enabled; none is drawn more often than it is enabled |
| Animals.DifficultyCountsOf | data/animals.ts:198-202 | each difficulty bucket holds the number of entries with that difficulty, and the buckets add up to the catalogue size |
| Animals.CategoryCountsOf | data/animals.ts:205-212 | each category bucket holds the number of entries with that category, and the buckets add up to the catalogue size |
| Animals.HabitatCountsOf | data/animals.ts:215-220 | each habitat bucket holds the number of entries with that habitat, and the buckets add up to the catalogue size |
| Animals.StatsOf | data/animals.ts:190-221 | the summary's total is the catalogue size; each difficulty, category and habitat bucket holds the number of entries with that value, and each grouping adds up to the total; its enabled count is the length of the enabled list |
| Animals.AnimalStatsValues | data/animals.ts:19-221 | the summary of the shipped catalogue: 5 animals, all enabled; 4 beginner, 1 intermediate, 0 advanced; 3 mammals, 1 bird, 1 fish and none of the other categories; 3 on land, 1 in water, 1 in the air, 0 mixed |

## Left out

- The screens, navigation, text-to-speech, animation and the simulated
  recording under `app/`: they are presentation around the data layer.
- `PLANET_THEME_COLORS` (`data/planets.ts`) is left out: it is a table of
  colour strings no query reads.
- The `DATA_META` block and the re-exports of `data/index.ts` are left out
  too. They are bookkeeping, and no query reads them.
- `LearningRecord` and `UserProgress` from `types/learning.ts` are not
  modelled. No function of the core reads or writes them, and their `Date`
  fields are clock values.
- Random order. `getRandomAnimals` shuffles with `Math.random()`. The model
  takes the shuffled order as the `shuffled` argument, constrained only to
  be a permutation of the enabled list. It does not model how uniform the
  shuffle is.
- Default arguments are not modelled. Callers pass `isDev`, `masteryCount`
  and `count` explicitly. The default `count = 1` of `getRandomAnimals`
  (data/animals.ts:181) has no counterpart. The default count 3 of
  `checkMastery` appears in `DefaultMasteryMatchesConstants`.
- The `timestamp: Date` field of `LearningAttempt` (types/learning.ts:122)
  is dropped from the record: it is a clock value and the mastery check
  does not read it.
- NaN, infinities and non-integer counts: confidence is a `real` and
  counts are integers. A NaN confidence falls through every comparison to 1
  star in JavaScript. A fractional `masteryCount` or `count` is truncated by
  `slice`. Neither case is modelled.
- Config.CheckMastery has no `requiredRating` parameter. `checkMastery`
  compares each rating with the literal 3 rather than with
  `CONFIG_CONSTANTS.MASTERY_REQUIRED_RATING` (data/config.ts:196). The
  model follows the code. The constant equals that literal, as
  `DefaultMasteryMatchesConstants` records.
- Animals.GetEnabledAnimals states the result as a permutation of the
  enabled entries sorted by `order`. The contract does not state how
  entries with equal `order` are arranged; the shipped catalogue has no
  such ties.
- Seqs.SortByKey states permutation and key order but not stability: its
  contract does not say that entries with equal keys keep their input
  order, which ES2019 requires of `Array.prototype.sort`.
- Seqs.MaxOf and Seqs.MinOf require a non-empty list. JavaScript gives
  `-Infinity` and `Infinity` for an empty spread. The planet table they
  are applied to is never empty.
- Planets.GetPlanetUnlockProgress states the bound 0 <= r <= 1 for
  non-negative star counts only. For a negative count the contract still
  gives the negative ratio JavaScript computes.
