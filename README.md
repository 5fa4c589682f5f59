# Sports pick engine: a verified Dafny model

This project models the rating-and-pick engine of a sports-picks chat bot (`bot.py`).
It covers five parts:

- **Rating store.** A map from a sport-namespaced key (`"MLB:Boston Red Sox"`) to an Elo rating. A key read for the first time is given 1500.
- **Paired Elo update.** The update for two competitors after a result.
- **Home-side deltas.** Each sport adds a delta to the home rating: MLB for home field, park factor and weather; NFL for home field, rest and outdoor weather; UFC has none. The table lookups of the feature selectors decide which inputs exist.
- **Probability and pick.** The transform `1 / (1 + 10^(-diff/400))` and the rule "pick the first-named side iff its chance is at least 1/2".
- **Slate assembly.** Keep today's items, stable-sort them by their raw timestamp text, and build a header with one line per item, or a placeholder when nothing is left.

Modules, leaves first:

- `Options`: optional values.
- `Probability`: `Pow10`, `WinProb`, the pick rule.
- `Ratings`: the store class `RatingStore` and the update (`ApplyResult`, `Updated`).
- `Venues`: the static tables.
- `Features`: the selectors and deltas.
- `Predictions`: the three predict methods.
- `Slate`: the day window, filter, sort and blocks.

Parts of the source that are state-changing are imperative Dafny:

- `RatingStore` is a class with a `map<string, real>` field. `Get`, `Set` and `Update` modify it.
- `MlbPredict` and `NflPredict` accumulate the home rating step by step.
- `FilterToday` and `MakeBlock` are loops.

Each imperative member is proved against a pure function: `Rating`/`Seed`, `ApplyResult`, `MlbChance`/`NflChance`/`UfcChance`, `SortByTime(Kept(..))` and `LinesFor`. The source's promises are proved as lemmas about those functions.

`Pow10` stands in for Python's `10 ** x`, because Dafny's reals have no exponential:

- It is exactly `10^n` at every integer `n`.
- For non-negative exponents it is linear from 1 to 10 on the first decade, and ten times the value one decade down above it.
- It is the reciprocal of its mirror image for negative exponents.

The probability lemmas use only four properties that `10 ** x` shares, each proved: positive, strictly increasing, `Pow10(0) == 1`, and `Pow10(-x) == 1/Pow10(x)`.

Four behaviours of `bot.py` that shape the model:

- The two expected scores are computed independently (`Ea` on line 107, `Eb` on line 108), not as `Eb = 1 - Ea`. Over the reals they still add up to one (`Ratings.ExpectedComplement`).
- There is no settled-result guard. The `results` table is created but never used, and `elo_update` has no caller. The update is therefore not idempotent, and the model does not claim it is.
- The day's items are sorted by the raw `commence_time` text, not by the instant.
- A present but unparseable timestamp makes the filter raise, rather than being excluded. The model does not cover that path (see below).

## Model

| member | source | states |
|---|---|---|
| Probability.Pow10 | bot.py:269 | the stand-in for `10 ** x` is positive |
| Probability.Pow10Zero | bot.py:269 | `Pow10(0) == 1` |
| Probability.Pow10AtIntegers | bot.py:269 | the stand-in equals `10^n` and `10^-n` at every integer exponent |
| Probability.Pow10WithinDecade | bot.py:269 | for `x >= 0`, `Pow10(x)` lies between `10^floor(x)` and `10^(floor(x)+1)`, as `10 ** x` does |
| Probability.Pow10Reciprocal | bot.py:269 | `Pow10(-x) == 1 / Pow10(x)` |
| Probability.Pow10StrictlyIncreasing | bot.py:269 | `x < y` implies `Pow10(x) < Pow10(y)` |
| Probability.WinProb | bot.py:268-269 | the win probability of any differential lies strictly between 0 and 1 |
| Probability.WinProbHalfIffEven | bot.py:288 | the probability is exactly 0.5 iff the differential is 0 |
| Probability.WinProbStrictlyIncreasing | bot.py:296 | a larger differential gives a strictly larger probability |
| Probability.WinProbComplement | bot.py:269 | `p(d) + p(-d) == 1` |
| Probability.PickBySign | bot.py:307 | "probability at least 0.5" holds iff the differential is non-negative |
| Ratings.Key | bot.py:253-254 | the store key of a name is the sport prefix (`MLB:`, `NFL:` or `UFC:`) followed by the name |
| Ratings.KeyInjective | bot.py:253-254 | sport-prefixed keys of different sports or names never coincide |
| Ratings.Rating | bot.py:90-96 | the rating a read returns: the stored value of a present key, 1500 for an absent one |
| Ratings.Seed | bot.py:90-96 | the store after a read: unchanged for a present key, the key inserted at 1500 for an absent one |
| Ratings.SeedKeepsRatings | bot.py:90-96 | a read inserts its key, changes no key's rating, and a second read changes nothing |
| Ratings.RatingStore.constructor | bot.py:78-81 | a fresh store holds no key |
| Ratings.RatingStore.Get | bot.py:90-96 | a present key returns its rating and leaves the store unchanged; an absent one inserts 1500 and returns 1500 |
| Ratings.RatingStore.Set | bot.py:98-101 | the store becomes the old store with `key` mapped to `rating`, every other key unchanged |
| Ratings.RatingStore.Update | bot.py:103-113 | the store becomes `ApplyResult` of the old one; for distinct keys the two ratings' sum is kept; every other key's rating is unchanged |
| Ratings.ActualScore | bot.py:109 | 1.0, 0.5 or 0.0 exactly when the first score is greater, equal or smaller |
| Ratings.ActualScoreComplement | bot.py:110 | `Sb = 1 - Sa` is the actual score seen from the second side |
| Ratings.Expected | bot.py:107-108 | the expected score `1 / (1 + 10^((Rb - Ra) / 400))` of the side rated `Ra` against `Rb` |
| Ratings.Updated | bot.py:107-112 | the two new ratings `Ra + k(Sa - Ea)` and `Rb + k(Sb - Eb)`, each expected score computed from its own side |
| Ratings.ApplyResult | bot.py:103-113 | the store after `elo_update`: both keys read with the 1500 default, then `aKey` written, then `bKey` |
| Ratings.ExpectedComplement | bot.py:107-108 | the independently computed `Ea` is the win probability of `Ra - Rb`, and `Ea + Eb == 1` |
| Ratings.ZeroSum | bot.py:107-112 | for distinct keys, `Ra2 + Rb2 == Ra + Rb` |
| Ratings.UpdateFrame | bot.py:113 | the update adds the two keys and changes no other key or rating |
| Ratings.WinnerGains | bot.py:109-112 | with `k > 0`, distinct keys and the first side winning, the first rating rises and the second falls |
| Ratings.WinnerGainsAsSecond | bot.py:109-112 | with `k > 0`, distinct keys and the second side winning, the second rating rises and the first falls |
| Ratings.DrawFavoursUnderdog | bot.py:109-112 | with `k > 0`, distinct keys and the first side rated lower, a draw raises the first rating and lowers the second |
| Ratings.DrawFavoursUnderdogAsSecond | bot.py:109-112 | with `k > 0`, distinct keys and the second side rated lower, a draw raises the second rating and lowers the first |
| Ratings.UnderdogExpectsLess | bot.py:107-108 | between distinct ratings the lower-rated side's expected score is below 0.5 and the higher-rated side's above |
| Ratings.FirstResultFromBase | bot.py:103-113 | two distinct keys both rated 1500 (unseen or stored at 1500), `k = 20`, first side winning: 1510.0 and 1490.0 |
| Ratings.SelfMatchLastWriteWins | bot.py:113 | with one key on both sides, the second write decides: rating plus `k * (1 - Sa - 0.5)` |
| Venues.ParkFactorRange | bot.py:29-35 | every park factor lies in [95, 118] |
| Venues.TeamParkCoverage | bot.py:190-200 | every mapped MLB park has a factor; exactly the Reds' park lacks coordinates |
| Venues.TeamStadiumCoverage | bot.py:214-227 | every mapped NFL stadium has an outdoor flag and coordinates |
| Features.ParkOf | bot.py:190-201 | the park of a home team in the nine-team map, absent for any other team or no team |
| Features.MlbFeatures | bot.py:181-207 | the item's home and away names, the park factor (100 when the park is unknown or has no factor), and temperature and wind from the weather lookup only for a park with coordinates |
| Features.ParkTerm | bot.py:259 | the park-factor term `(pf - 100) * 0.2` |
| Features.MlbHomeDelta | bot.py:255-265 | the MLB home adjustment: 30, plus the park term, plus `(temp - 20) * 0.5` when a temperature is present, plus 3 when the wind exceeds 30 km/h |
| Features.MlbUnknownPark | bot.py:201-203 | a home team with no mapped park gets factor 100, no weather, and a delta of exactly 30 |
| Features.MlbWeatherOnlyWithCoords | bot.py:203-206 | weather is the collaborator's reading exactly when the park has coordinates; otherwise it is absent and the delta is `30 + (pf-100)*0.2` |
| Features.MlbParkTermRange | bot.py:202 | every selected park factor lies in [95, 118], so the park term lies in [-1, 3.6] |
| Features.RockiesAtCoors | bot.py:191 | the Rockies get factor 118, a park term of 3.6, and a weather lookup at Coors Field's coordinates |
| Features.RedsWithoutWeather | bot.py:199-206 | the Reds get factor 104, no weather lookup, and a delta of 30.8 |
| Features.MlbWarmerHelpsHome | bot.py:262-263 | a higher temperature gives a strictly higher MLB delta |
| Features.MlbWindNudge | bot.py:264-265 | a wind reading adds 3 when above 30 km/h and nothing otherwise |
| Features.StadiumOf | bot.py:214-228 | the stadium of a home team in the twelve-team map, absent for any other team or no team |
| Features.NflFeatures | bot.py:209-236 | the item's names, the stadium, the outdoor flag (false when unknown), the three readings only for an outdoor stadium with coordinates, and rests of 7 and 7 |
| Features.NflWeatherBonus | bot.py:281-286 | 5 for a truthy wind of at least 32, plus 3 for a present temperature of at most 5, plus 2 for a truthy precipitation of at least 60 |
| Features.NflHomeDelta | bot.py:275-286 | the NFL home adjustment: 55, plus 1.5 per day of rest difference, plus the weather bonus only outdoors |
| Features.NflWeatherTerms | bot.py:280-286 | +5, +3 and +2 each need their own reading present and past its threshold; the bonus lies in [0, 10] |
| Features.NflIndoorIgnoresWeather | bot.py:280 | off an outdoor venue the delta is `55 + rest term` whatever the readings |
| Features.NflSelectedDelta | bot.py:228-235 | rests are both 7; weather is looked up exactly for outdoor stadiums; non-outdoor gives delta 55; every delta lies in [55, 65] |
| Features.RamsIndoors | bot.py:224 | the Rams map to SoFi Stadium, flagged indoor, so the delta is 55 |
| Features.PackersInTheCold | bot.py:215 | Lambeau Field is outdoor, and a windy, freezing, wet reading there gives a delta of 65 |
| Features.UfcFeatures | bot.py:238-243 | the first two listed names; with one name, that name and "Fighter B"; with none, "Fighter A" and "Fighter B" |
| Features.UfcFighterNames | bot.py:238-243 | each fighter is the name at its position, or "Fighter A"/"Fighter B" when the list is too short |
| Predictions.MlbChance | bot.py:251-270 | the MLB home chance: the win probability of the home rating plus the MLB delta minus the away rating |
| Predictions.NflChance | bot.py:272-289 | the NFL home chance: the win probability of the home rating plus the NFL delta minus the away rating |
| Predictions.UfcChance | bot.py:291-297 | the first fighter's chance: the win probability of the raw rating difference |
| Predictions.AfterReads | bot.py:253-254 | the store after a prediction's two reads, the first key seeded before the second |
| Predictions.ReadsKeepRatings | bot.py:253-254 | the two reads of a prediction insert the two keys and change no rating |
| Predictions.ChancesDependOnRatingsOnly | bot.py:251-297 | stores that agree on every rating predict the same chances |
| Predictions.MlbPredict | bot.py:251-270 | the probability is `WinProb(Rh + MLB delta - Ra)` over the old ratings; the store gains only the two default entries |
| Predictions.NflPredict | bot.py:272-289 | the probability is `WinProb(Rh + NFL delta - Ra)` over the old ratings; the store gains only the two default entries |
| Predictions.UfcPredict | bot.py:291-297 | the probability is `WinProb(Ra - Rb)` with no adjustment; the store gains only the two default entries |
| Predictions.UfcEqualRatingsPickFirst | bot.py:328 | equally rated fighters get 0.5, and the first fighter is picked |
| Predictions.MlbPickBySign | bot.py:307 | the home team is picked iff its rating plus the MLB delta is at least the away rating |
| Predictions.NflPickBySign | bot.py:317 | the home team is picked iff its rating plus the NFL delta is at least the away rating |
| Predictions.UfcPickBySign | bot.py:328 | the first fighter is picked iff their rating is at least the second's |
| Predictions.NflEqualRatingsFavourHome | bot.py:272-289 | with equal ratings, the selector's features always make the NFL home side favourite and pick |
| Slate.LocalDateBounds | bot.py:116-120 | the day that starts at the given local midnight and lasts 86400 seconds, end excluded |
| Slate.OnSlate | bot.py:339-342 | an item is kept iff its timestamp text is non-empty and parses to an instant inside the window |
| Slate.DayBoundaries | bot.py:116-120 | the window holds midnight and 23:59:59 and excludes the next midnight |
| Slate.LexLeTotal | bot.py:344 | any two timestamp texts are ordered one way or the other |
| Slate.LexLeTrans | bot.py:344 | the text order is transitive |
| Slate.SortByTime | bot.py:344 | the stable sort by timestamp text, as an insertion sort that puts each item before the first one whose text is not smaller |
| Slate.SortAscending | bot.py:344 | the sort's result is in ascending timestamp-text order |
| Slate.SortPermutes | bot.py:344 | the sort's result is a permutation of its input |
| Slate.SortStable | bot.py:344 | items with the same timestamp text keep their input order |
| Slate.AscendingPairwise | bot.py:344 | in a sorted result every earlier item's text is at most every later one's |
| Slate.Kept | bot.py:337-343 | the items the loop appends: those on the slate, in input order |
| Slate.KeptCounts | bot.py:338-343 | the loop keeps each item with a non-empty timestamp inside the window as often as it occurs, and no other |
| Slate.KeptWithTime | bot.py:338-343 | for one timestamp text the loop keeps all its items in order, or none |
| Slate.FilterToday | bot.py:334-345 | over the day starting at the given midnight, the output has exactly the in-window items with multiplicity, in ascending text order, equal texts in input order |
| Slate.LineFor | bot.py:302-331 | the line a block makes for one item: its features, the sport's chance against the given ratings, and the pick; NFL lines carry the stadium |
| Slate.LinesFor | bot.py:303-309 | the lines of a block, one per item in order; there are as many lines as items |
| Slate.PredictLine | bot.py:304-309 | one loop step yields the line predicted against the current ratings and changes no rating |
| Slate.LinesForAt | bot.py:304-309 | line `j` of a block is the line predicted for item `j` |
| Slate.MakeBlock | bot.py:302-331 | the placeholder for an empty list; otherwise the header and one line per item, line `j` being item `j`'s, predicted against the ratings before the block; no rating changes and no key is lost. Only the ratings are pinned down here; the keys each line adds are those of its predict method |
| Slate.LineForDependsOnRatingsOnly | bot.py:302-331 | stores that agree on every rating give every item the same line |
| Slate.LinePick | bot.py:307 | a line's chance lies in (0, 1), and it picks the first-named side iff that chance is at least 0.5 |
| Slate.Render | bot.py:310 | the placeholder as its own text; a listing as its header, a newline, and the formatted lines joined by newlines |
| Slate.RenderShape | bot.py:310 | the placeholder renders as itself; a listing's text starts with its header and a newline and is never the placeholder |
| Slate.TodayBlock | bot.py:302-350 | over the day starting at the given midnight, the block is the placeholder when no upcoming item falls in it, and otherwise the header with one line per in-window item in sorted order, predicted against the ratings before the call; no rating changes and no key is lost. Only the ratings are pinned down here; the keys each line adds are those of its predict method |

## Left out

- Telegram commands, the daily post, the scheduler and `main` (bot.py:353-466). These are chat and cron plumbing with process-wide mutable configuration. That includes `cmd_today all` skipping empty blocks.
- The network clients `open_meteo_temp_wind`, `odds_scores` and `odds_upcoming`:
  - The weather call becomes the function parameter `fetch`. Its m/s-to-km/h conversion and its all-absent fallback belong to it.
  - A schedule becomes a sequence of `Item`s.
- Timezones: `datetime.now`, `ZoneInfo` and `astimezone` are out. Instants are integer seconds, and local midnight is an input.
- Slate.LocalDateBounds: always a 86400-second day. The source adds one calendar day in local wall time, which is 23 or 25 hours on a daylight-saving change.
- ISO parsing (`fromisoformat`) is the function parameter `parse`. A present but unparseable timestamp makes the source raise; that is not modelled.
- Text rendering: `to_local_str`, `format_pct` and the pick-line template. `Render` takes the line formatter as a parameter.
- Floating point:
  - Ratings and deltas are exact reals. Float rounding is out, including the float sum `Ea + Eb`, which can differ from 1.
  - Python's `OverflowError` for `10 ** x` with a huge exponent is out.
- Probability.Pow10: matches `10 ** x` only at integer exponents and within each decade, not between integers. No lemma about the win probability depends on its values beyond the four properties above.
- The unused `logistic` helper (bot.py:249).
- Ratings.ActualScore: scores are integers. `elo_update` has no caller, so the source never fixes their type; string scores would compare lexicographically on bot.py:109.
- The unused `results` table and any settled-result idempotency: the source has neither a guard nor a caller of `elo_update`.
- SQLite connections, transactions, `INSERT OR IGNORE` atomicity, and concurrency between the command and scheduler call sites.
- The start instant `dt`: the selectors return it, and nothing in the core uses it except the weather lookup. The MLB selector also drops the precipitation reading, as the source does.
- Schedule items as dictionaries: the model keeps only `home_team`, `away_team`, `teams` and `commence_time`. A missing team name prints as `None`, as the f-strings do. `teams` entries of other types than strings are out.
