# Profession test: point allocation and detailed results

This project models the core of the profession quiz in `js/basefunc.js` and proves properties of it.

**The point-allocation board.** The user moves a budget of 100 points between a free pool (`totalPoints`) and the traits of the catalogue (`pointsData`), 5 points per click. A counter (`selectedQualitiesCount`) tracks how many traits hold points. The "+", "−" and submit buttons are enabled or disabled from these three fields. The board is the class `Allocation.PointsBoard`. Its invariant `Valid` states four things:
- the budget is conserved;
- every amount is a whole number of steps;
- the counter is exact;
- the free pool is never negative.

**`calculateDetailedResults`.** This turns the allocation into at most five ranked professions, in five stages:
1. **Scorer** (`Scoring`). It builds the user's profile and each profession's weighted profile. Then it scores every profession from matched traits, missing traits, coverage, irrelevant traits and concentration. It keeps the professions whose score exceeds 5 and that have at least one matched trait.
2. **Ranker** (`Ranking`). It takes the five best results by total score, using a stable sort. It perturbs each score by random factors and re-sorts by the perturbed score.
3. **Normaliser** (`Ranking`). It maps each perturbed score to a power of its ratio to the leader's. Sometimes it amplifies the leader.
4. **Percentages** (`Percentages`). It rounds each normalised score's share of 100 and fits the last result so that the sum is 100. If the last one falls below 2, it gives the last 2 to 5 points and rescales the others. It corrects any remaining drift on the leader.
5. **Contribution percentages** (`Shares`). For each result, it gives every matched trait its rounded share of the result's score, fits the last so that the sum is 100, and sorts the traits by percentage.

**How the source's state is modelled.**
- The code updates arrays in place, so the model does too. `StableSort.SortInPlace`, `Ranking.Perturb`, `Percentages.AssignPercentages` and `Shares.ShareContributions` work on arrays.
- Each method is proved equal to a specification function (`Sort`, `PerturbAll`, `Reconcile`, `SortedShares`). The properties are proved about those functions.
- `DetailedResults.CalculateDetailedResults` chains the stages. It is proved to return `DetailedResultsOf`. The lemmas on `RankedResults` state what the output satisfies.
- Every `Math.random()` draw is a parameter in [0, 1) (`DetailedResults.Draws`).
- `Math.pow(x, e)` with its random exponent e in [1.2, 2.8) is a caller-supplied function `power`. The model relies on two facts about it: it maps 1 to 1, and it maps (0, 1] into (0, 1].
- `Math.round(x)` is `Floor(x + 0.5)`, which is what JavaScript computes.
- The JavaScript sort is stable (ECMAScript requires it). A stable sort's result is fixed by its input and its comparator, so a stable insertion sort (`StableSort.Sort`) describes it exactly.
- A JavaScript object used as a dictionary is `JsObject.Dict`. It keeps its keys in first-insertion order, and a later write replaces a value in place.

**Facts about the code that the proofs establish.**
- For at most five results, the final drift correction never takes the leader's percentage outside [0, 100]. `Percentages.ReconcileBounds` proves every final percentage lies in [0, 100]. When the tail guard fires, the leader alone keeps at least 22 points after rescaling, which absorbs any negative drift.
- The last contribution percentage can be negative. Contribution scores 67, 67, 65 and 1 round to 34, 34 and 33, so the last contribution gets 100 − 101 = −1 (`Shares.NegativeLastShare`). The model keeps this behaviour. It proves only that the contribution percentages sum to 100 and end up in descending order.
- The normalisation divides by the leader's adjusted score without a guard, and it never needs one: every kept result scores above 5, so every perturbed score and the leader's score are positive (`Ranking.RankedProperties`).

## Model

| member | source | states |
|---|---|---|
| Allocation.PointsBoard.constructor | js/basefunc.js:71-76 | The reset gives every catalogue trait 0 points, leaves the full budget of 100 free and sets the counter to 0. The resulting board is valid. |
| Allocation.PointsBoard.Plus | js/basefunc.js:100-103 | With free points left, "+" moves 5 points to the trait and counts the trait as selected if it held 0. With none left, nothing changes. The board stays valid. |
| Allocation.PointsBoard.Minus | js/basefunc.js:113-116 | If the trait holds points, "−" moves 5 points back to the pool and uncounts the trait if it drops to 0. Otherwise nothing changes. The board stays valid. |
| Allocation.RaiseKeepsConsistent | js/basefunc.js:100-103 | One "+" step keeps the budget conserved, keeps every amount a multiple of 5 and keeps the selection count exact. |
| Allocation.LowerKeepsConsistent | js/basefunc.js:113-116 | One "−" step keeps the budget conserved, keeps every amount a multiple of 5 and keeps the selection count exact. |
| Allocation.SelectedRaise | js/basefunc.js:101 | Raising a trait from 0 adds one selected trait. Raising a selected trait changes no selection. |
| Allocation.SelectedLower | js/basefunc.js:115 | Lowering a selected trait to 0 removes one selected trait. Lowering it to a positive amount changes no selection. |
| Allocation.ButtonsMeaning | js/basefunc.js:165-176 | On a valid board, submit is enabled iff all 100 points sit on traits and at least 5 traits hold points. "+" is enabled iff points are free. "−" is enabled iff the trait holds points. Each trait holds 0 to 100 points. |
| JsObject.Dict.Put | js/basefunc.js:369 | Assigning a key sets its value and keeps the key order. A new key goes last and an existing key keeps its place, so keys stay distinct and match the keys that have values. |
| Scoring.WeightOf | js/basefunc.js:364-367 | A bare id weighs 1. A missing or zero weight counts as 1. Any other explicit weight is used as given. So no weight is 0. |
| Scoring.Find | js/basefunc.js:392-394 | The lookup finds a trait iff the catalogue has one with that id. What it finds has that id and is the first catalogue trait with it. |
| Scoring.UserProfileShape | js/basefunc.js:347-354 | The user profile holds exactly the catalogue traits with positive points, each with its points. The point total is non-negative, and positive iff the profile is non-empty. |
| Scoring.BuildUserProfile | js/basefunc.js:347-354 | The loop builds exactly that profile and its point total. |
| Scoring.ProfileShape | js/basefunc.js:359-371 | A profession's profile lists each required id once, holds no other id, and is no longer than the requirement list. |
| Scoring.ProfileOrder | js/basefunc.js:359-371 | The profile's keys are the required ids in order of first occurrence with repeats dropped (`FirstIds`, read from the front), so a later entry for an id changes its weight but not its place. |
| Scoring.ProfileWeightsPositive | js/basefunc.js:362-371 | With positive weights, every profile weight is positive, and so is the total weight of a non-empty list. |
| Scoring.ProfileLastWins | js/basefunc.js:369 | An id listed more than once takes the weight of its last entry. |
| Scoring.BuildProfessionProfile | js/basefunc.js:359-371 | The loop builds that profile, and a total weight that counts every entry, repeats included. |
| Scoring.ScoresArePositive | js/basefunc.js:383-405 | A matched trait scores positively and a missing trait costs a positive penalty. |
| Scoring.ContributionForPositive | js/basefunc.js:383-400 | A pushed contribution has positive points, score and weight. |
| Scoring.TallyContributions | js/basefunc.js:379-406 | The contributions are exactly the required ids the user holds points on, in profile order, each carrying its points, weight, score and catalogue name. |
| Scoring.TallySums | js/basefunc.js:379-406 | `matchScore` is the sum of the contribution scores, and `penaltyScore` is non-negative. |
| Scoring.TallyPositive | js/basefunc.js:379-406 | Every contribution has positive points, score and weight. There are no more contributions than required ids, and their score sum is non-negative. |
| Scoring.TallyRequired | js/basefunc.js:374-406 | The loop over the profile's ids computes that match score, penalty and contribution list. |
| Scoring.SumIrrelevant | js/basefunc.js:413-418 | The loop charges 5 points per 100 the user put on traits the profession does not require. |
| Scoring.IrrelevantPositive | js/basefunc.js:413-418 | With positive points the irrelevant-trait penalty is non-negative, and positive exactly when the user put points on a trait the profession does not weigh. |
| Scoring.ScoringPreconditions | js/basefunc.js:379-427 | Every required id has a positive weight, and a non-empty requirement list has a positive total weight. The user's point total is positive once any trait matches, so the concentration bonus never divides by zero. |
| Scoring.ApplyThreshold | js/basefunc.js:409-441 | It computes the coverage bonus and the total score, applies the `> 5` threshold, adds the concentration bonus and pushes the result as the threshold function defines it. |
| Scoring.ScoreProfession | js/basefunc.js:359-441 | Scoring one profession gives the evaluation of that profession. |
| Scoring.JudgeQualifies | js/basefunc.js:421-441 | A pushed result scores above 5 and keeps the profession's name, icon, description and contributions. It has at least one match, coverage in (0, 100], percentage 0 and positive contributions. |
| Scoring.EvaluateExcluded | js/basefunc.js:409-425 | A profession with no requirements, or none of whose required traits holds points, is never pushed. |
| Scoring.EvaluateIncluded | js/basefunc.js:421-441 | An included profession's result qualifies and carries the profession's name, icon and description. |
| Scoring.ScoredResults | js/basefunc.js:357-442 | There is at most one result per profession and every result qualifies. There are no results when no required trait holds points. |
| Scoring.ScoreAll | js/basefunc.js:347-442 | The scoring loops produce the results of the included professions, in catalogue order. |
| StableSort.SortIsDescendingPermutation | js/basefunc.js:445 | The sort returns a permutation of its input in descending key order. |
| StableSort.SortIsStable | js/basefunc.js:445 | The sort keeps elements with equal keys in their original order. |
| StableSort.InsertLast | js/basefunc.js:445 | One insertion step places the next element behind every element of the sorted prefix that ranks at least as high, and leaves the rest of the array unchanged. |
| StableSort.SortInPlace | js/basefunc.js:445 | Sorting an array in place leaves it equal to the stable descending sort of its old contents. |
| Ranking.TopFive | js/basefunc.js:444-448 | Exactly min(5, n) results are kept. |
| Ranking.TopFiveSelects | js/basefunc.js:444-450 | The kept results are in descending total-score order and are drawn from the scored ones. None is left out while a lower-scoring one is kept. The list is empty iff nothing was scored. |
| Ranking.PerturbedBounds | js/basefunc.js:453-467 | The adjusted score is positive. The leader's lies in [0.85t, 1.84t), positions 1-2 lie in [0.85t, 1.15t) and positions 3-4 lie in [0.51t, 1.15t). Without a bonus or a cut it lies in [0.85t, 1.15t). |
| Ranking.Perturb | js/basefunc.js:453-467 | The loop sets every adjusted score to its perturbed value in place and changes nothing else. |
| Ranking.RankedProperties | js/basefunc.js:469-470 | The re-sorted top five is a permutation of the perturbed one, in descending adjusted-score order, with positive adjusted scores. |
| Ranking.NormalizedBounds | js/basefunc.js:472-485 | The leader's normalised score is in [1, 1.8), and exactly 1 without amplification. Every other score is in (0, 1], so the leader's is the largest. |
| Ranking.NormalizeScores | js/basefunc.js:472-485 | The loop computes the ratios to the leader raised to the power, and amplifies the leader's when its roll exceeds 0.6. |
| Percentages.Round | js/basefunc.js:491-493 | The rounded value lies within half a unit of its argument, half-way cases going up. |
| Percentages.RoundMonotone | js/basefunc.js:491-493 | Rounding preserves order. |
| Percentages.BasePercentagesBounds | js/basefunc.js:487-494 | With positive normalised scores, the total is positive and every base percentage is in [0, 100]. The leader's base percentage is the largest. |
| Percentages.FitLastSum | js/basefunc.js:496-500 | Fitting the last percentage makes the sum exactly 100. |
| Percentages.RescaledNonNegative | js/basefunc.js:506-512 | Rescaling non-negative percentages to a non-negative remainder keeps them non-negative. |
| Percentages.RescaledSum | js/basefunc.js:506-512 | The rescaled percentages sum to at most the remainder plus half a point per entry. |
| Percentages.RescaledLeader | js/basefunc.js:503-512 | When the guard fires on at most five results, the leader keeps at least 22 points after rescaling. |
| Percentages.GuardedLeader | js/basefunc.js:503-519 | After the guard, the drift correction never makes the leader negative. |
| Percentages.FixDriftSum | js/basefunc.js:516-519 | The drift correction makes the sum exactly 100 and changes only the leader. |
| Percentages.ReconcileProperties | js/basefunc.js:496-519 | The final percentages sum to 100 and the last is at least 2. When the guard fires, the last is the drawn 2-5 points. Otherwise the result is the fitted list unchanged. |
| Percentages.ReconcileBounds | js/basefunc.js:496-519 | For at most five results with the leader's base percentage the largest, every final percentage lies in [0, 100]. |
| Percentages.SumNormalized | js/basefunc.js:487 | The reduce computes the sum of the normalised scores. |
| Percentages.PercentSum | js/basefunc.js:497-499 | The reduce computes the sum of the first entries' percentages. |
| Percentages.AssignBase | js/basefunc.js:490-494 | The loop sets every percentage to its rounded base share and changes nothing else. |
| Percentages.FitLastInPlace | js/basefunc.js:496-500 | It sets the last percentage so that the sum is 100. |
| Percentages.RescaleInPlace | js/basefunc.js:510-512 | The loop rescales every percentage but the last to the remainder. |
| Percentages.GuardTail | js/basefunc.js:503-513 | It applies the tail guard in place: the drawn value goes last and the others are rescaled. |
| Percentages.FixDriftInPlace | js/basefunc.js:516-519 | It adds the drift to the leader. |
| Percentages.AssignPercentages | js/basefunc.js:487-519 | The percentage stage leaves each result with its reconciled percentage and changes no other field. |
| Shares.SharesProperties | js/basefunc.js:522-543 | Only percentages change. With a positive score total, every contribution but the last gets its rounded share and the sum is 100. Otherwise nothing changes. |
| Shares.SortedSharesProperties | js/basefunc.js:521-547 | The sorted contributions are a permutation of the assigned ones, in descending percentage order, still summing to 100. |
| Shares.NegativeLastShare | js/basefunc.js:528-542 | Contribution scores 67, 67, 65 and 1 give the last contribution a percentage of −1. |
| Shares.ContributionTotal | js/basefunc.js:523-526 | The reduce computes the sum of the contribution scores. |
| Shares.ShareSum | js/basefunc.js:536-538 | The reduce computes the sum of the first contributions' percentages. |
| Shares.AssignShares | js/basefunc.js:528-543 | The loop assigns the contribution percentages in place. |
| Shares.ShareContributions | js/basefunc.js:528-546 | It assigns the contribution percentages, then sorts the contributions by descending percentage. |
| Shares.SortedSharesOf | js/basefunc.js:522-547 | It returns one result's contributions given percentages and sorted. |
| DetailedResults.ScoresPositive | js/basefunc.js:523-528 | A non-empty list of positive contribution scores has a positive total, so a kept result always takes the rounding branch. |
| DetailedResults.TopQualify | js/basefunc.js:444-448 | Every kept result qualifies and has a positive total score. |
| DetailedResults.RankedQualify | js/basefunc.js:452-470 | Perturbing and re-sorting keep every result qualifying. |
| DetailedResults.FinalPercentagesProperties | js/basefunc.js:472-519 | The percentages of the re-sorted top five sum to 100, each lies in [0, 100] and the last is at least 2. |
| DetailedResults.RankedResultsOrder | js/basefunc.js:444-470 | The output has min(5, n) results, is empty iff nothing was scored, and is in descending adjusted-score order. |
| DetailedResults.RankedResultsPercentages | js/basefunc.js:472-519 | The output's percentages sum to 100, each lies in [0, 100] and the last is at least 2. |
| DetailedResults.SharedContributions | js/basefunc.js:521-547 | A qualifying result's sorted contributions are in descending percentage order and sum to 100. |
| DetailedResults.SharedAll | js/basefunc.js:521-547 | Giving qualifying results percentages and then contribution percentages keeps their scores above 5, with contribution percentages descending and summing to 100. |
| DetailedResults.RankedContributions | js/basefunc.js:521-549 | Every returned result scores above 5, with contribution percentages descending and summing to 100. |
| DetailedResults.SelectTopFive | js/basefunc.js:444-448 | Sorting the results and slicing off the first five gives the top five. |
| DetailedResults.ShareAll | js/basefunc.js:521-547 | The final loop gives every result its sorted contribution percentages and changes nothing else. |
| DetailedResults.RankTopFive | js/basefunc.js:452-547 | Perturbing, re-sorting, normalising, assigning percentages and sharing contributions produce the ranked results. |
| DetailedResults.CalculateDetailedResults | js/basefunc.js:343-550 | The whole function returns the detailed results of the scored professions. The lemmas above state their properties. |

## Left out

- Loading the catalogue (`loadData`, `getFallbackData`), the DOM, rendering, the GSAP animations, particles, result display and restart are outside the core.
- `updateUI` is modelled only through the three button-enabling rules it applies. The text it writes is not modelled.
- Math.random: every draw is a parameter in [0, 1). The source draws some values only when an earlier roll succeeds. The model gives every position a full record of draws, so the order in which the random stream is consumed is not modelled.
- Math.pow with the random exponent in [1.2, 2.8) is the caller-supplied function `power`. Only two facts are used: `power(1) = 1`, and (0, 1] maps into (0, 1]. Values of other exponents are not modelled.
- Numbers are exact reals, not IEEE-754 doubles. Rounding error in the products, quotients and sums, and in the sort comparators `b.x - a.x`, is not modelled.
- JsObject.Dict: `Object.keys` lists integer-like keys (such as "12") in ascending numeric order before the other keys. The model lists every key in insertion order, which matches string trait ids.
- Scoring.ScoreAll requires every effective weight to be positive. A negative explicit weight in the catalogue, which the source would accept, is excluded.
- DetailedResults.CalculateDetailedResults requires every effective weight to be positive, for the same reason as Scoring.ScoreAll.
- DetailedResults.CalculateDetailedResults works on copies. In the source, `topFive` holds the same objects as `results`, and each result's `contributions` array is the one the scorer built. The model copies these values, so aliasing between the two lists is not modelled.
- A profession with an empty requirement list has a coverage of 0 / 0, which is NaN, so the source never pushes it. The model excludes such a profession with an explicit branch.
- Allocation.PointsBoard.Plus requires the trait to be on the board. The source only creates buttons for catalogue traits, each initialised to 0, so this always holds.
- Allocation.PointsBoard.Minus requires the trait to be on the board, for the same reason as Plus.
