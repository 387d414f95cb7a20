# NBA Commissioner: revenue-sharing engine and game session in Dafny

This project models the core of the "NBA Commissioner" teaching game and proves
properties about it. The game has two parts.

- **The revenue-sharing engine** (`js/parityEngine.js`). It pools a percentage
  of every team's base revenue. It pays the pool back out either in equal
  shares or by an inverse market-size weight. It then charges a 50% luxury tax
  on the part of each team's post-sharing revenue above a threshold, and rounds
  the results to one decimal. Around the engine sit the fairness score (the
  smallest final revenue over the largest, as a percentage), the coaching tip,
  the distribution explanation, the league total, the revenue gap, the
  millions/billions choice of the currency display, and the static catalog of
  five levels and their rosters.
- **The game session** (`js/gameLogic.js`, page rendering stripped). It covers:
  - the record of completed levels and the rule that level n unlocks only after level n−1;
  - the control reset on start and on retry;
  - the "show victory once" latch;
  - the classification of the overall status;
  - the level cards, the claim codes and the two bonus thresholds;
  - the tutorial step counter.

Files:

- `parity_engine.dfy`, module `ParityEngine`. Money is `real`. JavaScript's
  `Math.round(x * 10) / 10` is `Round1(x) = Floor(10x + 0.5) / 10`, and a `reduce`
  sum is the left fold `Sum`. `calculateRevenueSharing` is a method with a loop;
  each pass of the loop is tied to the specification function `SharingOutcome`.
  Conservation, ordering, tax and rounding properties are proved about that
  function.
- `levels.dfy`, module `Levels`. It holds `NBA_TEAMS`, `LEVELS` and
  `ACHIEVEMENT_CODES` with the values of `js/parityEngine.js:7-109`, plus facts about the catalog,
  including one fully worked level-1 scenario.
- `game_session.dfy`, module `GameSession`. The module-level variables of the
  game are the fields of `class Game`. The browser-stored progress record is
  the field `completedLevels`. The functions that change those variables are
  methods with `modifies` frames.

Victory conditions are computed by `checkVictoryConditions`, which is not part
of this model. So every method that recalculates takes its verdict `allMet` as
a parameter. Where the JavaScript arms a one-second timer to show the success
screen, the model instead returns how many times that timer was armed.

### What the code does, where a reader might expect otherwise

- The luxury tax is 50% of the overage of the *post-sharing* revenue
  (`js/parityEngine.js:151-153`). No tax pool is collected or redistributed.
- A score of 100 does not imply equal revenues. The score rounds the ratio to
  one decimal, so final revenues of 1999 and 2000 score 100
  (`FullFairnessWithoutEquality`). What a score of 100 does guarantee is that
  the smallest revenue is at least 0.9995 × the largest (`FullFairnessBound`).
- The five rosters have 3, 4, 5, 6 and 8 teams (`js/parityEngine.js:7-43`).

## Model

| member | source | states |
|---|---|---|
| ParityEngine.Round1 | js/parityEngine.js:161-162 | The rounded value is a whole number of tenths, and rounding moves a value by more than −0.05 and at most +0.05 |
| ParityEngine.Round1OfTenths | js/parityEngine.js:161 | A value that is already a whole number of tenths is left unchanged by the rounding |
| ParityEngine.CalculateRevenueSharing | js/parityEngine.js:114-167 | The loop builds exactly the outcome `SharingOutcome` specifies, one entry per team in order: afterSharing, redistribution under the chosen policy, the 50% luxury tax on the overage, rounded final revenue and change |
| ParityEngine.SharingOutcome | js/parityEngine.js:129-163 | The result list has the same length and order as the roster, and each entry carries its team unchanged |
| ParityEngine.LuxuryTax | js/parityEngine.js:150-154 | The tax is non-negative. It is positive exactly when the threshold is positive and the revenue exceeds it. A taxed team ends at threshold + (revenue − threshold)/2, which is above the threshold and below the pre-tax revenue |
| ParityEngine.SharedPoolIsShareOfBase | js/parityEngine.js:119-121 | The shared pool is sharingPercent/100 of the league's total base revenue |
| ParityEngine.KeepsRemainder | js/parityEngine.js:131 | Each team keeps its base revenue minus its own contribution to the pool |
| ParityEngine.TotalInverseWeightClosedForm | js/parityEngine.js:141-142 | The sum of the inverse weights (T − m + 1) is (n − 1)·T + n, where T is the total market size |
| ParityEngine.EmptyRosterHasNoResults | js/parityEngine.js:115-166 | An empty roster is accepted under every policy and yields an empty result list; the weighted division is never reached |
| ParityEngine.NonNegativeSizesWellWeighted | js/parityEngine.js:141-143 | With non-negative market sizes on a non-empty roster, the total inverse weight is at least n, so the weighted division is defined |
| ParityEngine.EqualSharesPayOutPool | js/parityEngine.js:135-137 | Equal shares sum to the shared pool |
| ParityEngine.WeightedSharesPayOutPool | js/parityEngine.js:138-144 | Inverse-weighted shares sum to the shared pool |
| ParityEngine.RedistributionPaysOutPool | js/parityEngine.js:134-144 | Under either recognised policy, the redistributions sum to the shared pool |
| ParityEngine.SharingConservesRevenue | js/parityEngine.js:129-147 | Under either recognised policy, before tax and rounding, the league total of afterSharing + redistribution equals the total base revenue |
| ParityEngine.UntaxedFinalIsRounded | js/parityEngine.js:147-161 | With the tax disabled (threshold ≤ 0), no tax is charged and the final revenue is the rounded pre-tax revenue |
| ParityEngine.NoTaxTotalWithinRounding | js/parityEngine.js:129-163 | Under either recognised policy and with no tax, the league's total final revenue is within 0.05 per team of the total base revenue |
| ParityEngine.EqualSplitIsUniform | js/parityEngine.js:135-137 | Under the equal split, every team receives the pool divided by the number of teams |
| ParityEngine.WeightedFavoursSmallerMarkets | js/parityEngine.js:138-144 | With non-negative sizes and a positive pool, a team with a strictly smaller market receives strictly more under the weighted policy |
| ParityEngine.WeightedBeatsEqualIffBelowMean | js/parityEngine.js:135-144 | With non-negative market sizes and a positive pool, a team receives more under weighted than under equal exactly when its market is below the league mean |
| ParityEngine.LuxuryTaxOutcome | js/parityEngine.js:147-162 | An entry is taxed iff the threshold is positive and the pre-tax revenue exceeds it. A taxed entry's final revenue is the rounded threshold + half the overage. An untaxed entry's final revenue is the rounded pre-tax revenue |
| ParityEngine.AfterTaxMonotoneInThreshold | js/parityEngine.js:150-154 | Raising a positive threshold never lowers what a team keeps, never raises its tax, and a team never keeps more than its pre-tax revenue |
| ParityEngine.ZeroSharingIdentity | js/parityEngine.js:131-162 | With 0% sharing and no tax, a team whose base revenue is a whole number of tenths ends at its base revenue, with change 0 and no tax |
| ParityEngine.MinOf | js/parityEngine.js:174 | The minimum is an element of the list and no element is below it |
| ParityEngine.MaxOf | js/parityEngine.js:175 | The maximum is an element of the list and no element is above it |
| ParityEngine.CalculateFairnessScore | js/parityEngine.js:172-180 | The score is 0 when the maximum is 0. Otherwise it is 100 × min/max to within 0.05, a whole number of tenths. It lies in [0, 100] for non-negative revenues, and it is 100 when all revenues are equal and non-zero |
| ParityEngine.FullFairnessBound | js/parityEngine.js:179 | A score of 100 with a positive maximum means the minimum is at least 0.9995 × the maximum |
| ParityEngine.FullFairnessWithoutEquality | js/parityEngine.js:179 | Final revenues 1999 and 2000 are unequal yet score 100, so a score of 100 does not imply equality |
| ParityEngine.CalculateTotalRevenue | js/parityEngine.js:240-242 | The total of an empty list is 0, and the total of non-negative final revenues is non-negative |
| ParityEngine.TotalRevenueBounded | js/parityEngine.js:240-242 | If every final revenue lies in [lo, hi], the league total lies in [n·lo, n·hi] |
| ParityEngine.CalculateRevenueGap | js/parityEngine.js:247-250 | The gap is non-negative, and it is zero exactly when all final revenues are equal |
| ParityEngine.GetCoachingTip | js/parityEngine.js:185-213 | The final fallback tip is never returned, and the "perfect" tip is returned exactly when the score reaches the target |
| ParityEngine.CoachingTipBuckets | js/parityEngine.js:186-210 | Each tip corresponds to one interval of the gap (≤ 0, (0, 5], (5, 10], (10, 20] split on sharing < 30, > 20) |
| ParityEngine.CoachingTipMonotone | js/parityEngine.js:186-210 | A lower score never yields a tip that says the player is closer to the target |
| ParityEngine.GetDistributionExplanation | js/parityEngine.js:218-225 | The explanation is empty exactly for an unrecognised distribution type |
| ParityEngine.FormatCurrency | js/parityEngine.js:230-235 | Amounts of 1000 or more are shown in billions and smaller ones in millions. The shown number times its unit is the amount, and each unit's shown number is within its range |
| Levels.LevelConfig | js/parityEngine.js:47-98 | Each level's roster has 3 to 8 teams, and only level 1 withholds the distribution choice |
| Levels.TargetFairnessIncreases | js/parityEngine.js:51-91 | The target fairness strictly increases from level 1 to level 5 |
| Levels.RostersGrow | js/parityEngine.js:7-43 | Each level's roster is strictly larger than the previous level's |
| Levels.LuxuryTaxFromLevelThree | js/parityEngine.js:55-95 | The luxury tax is enabled exactly from level 3 on |
| Levels.AchievementCode | js/parityEngine.js:101-109 | Each level's achievement code is a non-empty "NBA-" code |
| Levels.AchievementCodesDistinct | js/parityEngine.js:101-109 | No two levels share a code, and neither bonus code repeats a level's code or the other bonus code |
| Levels.ClaimCodesMatchAchievements | js/parityEngine.js:56-108 | The claim code a level reveals is the achievement code listed for that level |
| Levels.CatalogMarketSizesPositive | js/parityEngine.js:7-43 | Every catalog team has a positive market size |
| Levels.CatalogBaseRevenuesWhole | js/parityEngine.js:7-43 | Every catalog base revenue is a whole number of millions |
| Levels.CatalogWellWeighted | js/parityEngine.js:141-143 | On every level, the total inverse weight is at least the roster size, so the calculator is defined under every policy |
| Levels.CatalogZeroSharingIdentity | js/parityEngine.js:131-162 | On every level, 0% sharing with no tax leaves each team exactly at its base revenue with change 0 |
| Levels.RookieLeaguePool | js/parityEngine.js:119-121 | Level 1's pool at 20% sharing is 186 |
| Levels.RookieLeagueFinals | js/parityEngine.js:114-167 | Level 1 at 20% equal sharing without tax ends at 382, 238 and 310 |
| Levels.RookieLeagueExtremes | js/parityEngine.js:174-175 | The lowest of those finals is 238 and the highest 382 |
| Levels.ScoreOfRookieExtremes | js/parityEngine.js:172-180 | Any result list whose lowest final revenue is 238 and highest is 382 scores 62.3 (100·238/382 rounded to one decimal) |
| Levels.RookieLeagueAtTwentyPercent | js/parityEngine.js:172-180 | The fairness score of that outcome is 62.3 |
| GameSession.AddCompleted | js/gameLogic.js:51-57 | After saving, the level is recorded, earlier records keep their order, and nothing else is added. Saving an already-recorded level changes nothing |
| GameSession.CalculatorThreshold | js/gameLogic.js:186 | When the level disables the luxury tax, the threshold handed to the calculator taxes no revenue at all. Otherwise it is the slider value |
| GameSession.TaxFreeLevelIgnoresSlider | js/gameLogic.js:186-192 | On a level without the luxury tax, any two slider values give the same outcome, no team is taxed, and each final revenue is the rounded pre-tax revenue |
| GameSession.AddCompletedIdempotent | js/gameLogic.js:53-55 | Saving the same level twice is the same as saving it once |
| GameSession.AddCompletedKeepsDistinct | js/gameLogic.js:53-55 | The record never holds a level twice |
| GameSession.AddUnlockedKeepsClosed | js/gameLogic.js:66-69 | Recording an unlocked level keeps every recorded level a real, unlocked level |
| GameSession.IsUnlockedMeansEarlierCompleted | js/gameLogic.js:440 | On a record the gate produced, a level is unlocked exactly when every level before it is completed |
| GameSession.ClosedHasEarlierLevels | js/gameLogic.js:66-69 | Because of the unlock gate, a record holding level k holds every level 1..k |
| GameSession.CountMeansReached | js/gameLogic.js:476-485 | On such a record, holding at least m levels is the same as having completed level m, and the same as having completed every level 1..m |
| GameSession.MetCount | js/gameLogic.js:272 | The met count is at most 3. It is 3 iff all three conditions hold, and 0 iff none does |
| GameSession.UpdateOverallStatus | js/gameLogic.js:270-287 | Victory iff allMet. Otherwise almost iff 2 met, partial iff 1 met, and the neutral status in every other case. The four cases are exclusive and exhaustive |
| GameSession.StatusFollowsMetCount | js/gameLogic.js:270-287 | When allMet is the conjunction of the three conditions, the status is determined by the met count alone (3, 2, 1, 0) |
| GameSession.Game.constructor | js/gameLogic.js:12-19 | The initial state: level 1, no configuration, controls at 0 / equal / 150, the latch clear, the tutorial at step 0, nothing completed |
| GameSession.Game.SaveProgress | js/gameLogic.js:51-57 | The completed-levels record becomes `AddCompleted` of the old record, and nothing else changes |
| GameSession.Game.UpdateCalculations | js/gameLogic.js:184-228 | The results are the engine's outcome for the current controls, and no team is taxed on a level without the luxury tax. The success screen is scheduled exactly when allMet holds and the latch was clear, and the latch is then set |
| GameSession.Game.HandleSharingChange | js/gameLogic.js:146-150 | The sharing percentage takes the slider value, and the results and latch are as in `UpdateCalculations` |
| GameSession.Game.HandleLuxuryChange | js/gameLogic.js:155-159 | The threshold takes the slider value, and the results and latch are as in `UpdateCalculations` |
| GameSession.Game.SetDistribution | js/gameLogic.js:164-179 | The distribution type takes the chosen value, and the results and latch are as in `UpdateCalculations` |
| GameSession.Game.InitializeLevel | js/gameLogic.js:96-141 | The level's default distribution is put in place and the results are recalculated. Although the calculation can run twice, the success screen is scheduled at most once |
| GameSession.Game.ShowTutorial | js/gameLogic.js:506-511 | The tutorial restarts at step 0 and is shown |
| GameSession.Game.NextTutorialStep | js/gameLogic.js:513-520 | The step increases by one, and the overlay is hidden exactly when the step reaches the number of messages |
| GameSession.Game.StartLevel | js/gameLogic.js:62-91 | A locked level changes nothing. An unlocked level becomes current with the controls reset to 0 / default / 150 and the latch re-evaluated from a clear state. The tutorial is shown whenever level 1 is started before it has been completed |
| GameSession.Game.RetryLevel | js/gameLogic.js:395-402 | The level and progress stay. The controls are reset to 0 / default / 150, the results are recalculated, and the latch is re-evaluated from a clear state |
| GameSession.Game.ShowSuccess | js/gameLogic.js:351-376 | The current level is recorded as completed, the session stays consistent, and the revealed code is that level's achievement code |
| GameSession.Game.LevelCards | js/gameLogic.js:432-455 | For each level 1..5: shown unlocked iff it is level 1 or the previous level is completed, and shown completed iff it is recorded |
| GameSession.Game.ClaimCodes | js/gameLogic.js:460-492 | Each completed level reveals its achievement code. The bonus codes are revealed at ≥ 3 and ≥ 5 recorded levels, which on a consistent record means levels 1-3 and all five levels are completed |

## Left out

- Page rendering, event-listener wiring, `alert`, meters, team cards, warnings
  and the tutorial text: these are UI. Only the number of tutorial messages (6)
  is kept.
- `localStorage`, `JSON.parse` and its error fallback (`js/gameLogic.js:36-57`):
  the progress record is the in-memory field `completedLevels`, and it starts
  empty.
- `setTimeout` (`js/gameLogic.js:227`) and the clipboard (`js/gameLogic.js:407-417`).
  The timer is replaced by a count of how often the success screen is
  scheduled.
- `js/visualization.js` is not part of this model: it only configures a chart.
- `checkVictoryConditions`, `getWarningMessage`, and the per-team satisfaction,
  mood and quote are referenced but not defined in the modelled files. The
  verdict `allMet` is a parameter, and the `Conditions` record is an input to
  the status classification.
- The call at `js/gameLogic.js:206` passes the results and configuration to
  `getCoachingTip`, which expects a score and a target. It is not modelled.
  `GetCoachingTip` models the function as defined.
- The texts of the coaching tips are not kept: `Tip` has one constructor per
  message, in the order of `js/parityEngine.js:188-212`.
- IEEE-754 doubles: money is exact `real`. `toFixed(1)` string formatting in
  `formatCurrency` is left out; `FormatCurrency` models only the branch choice
  and the displayed quantity.
- NaN and Infinity. On a non-empty roster the weighted policy requires
  `WellWeighted` (a non-zero total inverse weight), since a zero total would
  give NaN or Infinity in JavaScript. An empty roster is accepted under every
  policy (`EmptyRosterHasNoResults`). Every catalog level meets the
  requirement (`CatalogWellWeighted`).
- `Math.min`/`Math.max` of an empty list: `CalculateFairnessScore` and
  `CalculateRevenueGap` require a non-empty result list.
- `totalBaseRevenue` (`js/parityEngine.js:116`) is computed but never used, so
  it is not modelled.
- The default parameter value `luxuryTaxThreshold = 150` of
  `calculateRevenueSharing`: every call site passes the argument explicitly.
- The check in `showSuccess` that the success modal is already open
  (`js/gameLogic.js:354`): modal visibility is UI state. `closeSuccessModal`,
  `backToLevels` and `copyClaimCode` only switch screens or copy text.
- GameSession.Game.StartLevel: requires a level number 1..5, the levels the
  page offers. Other numbers are not modelled. In the JavaScript, 6 before
  level 5 is recorded and every number from 7 up are refused by the gate at
  `js/gameLogic.js:66` before the configuration is read. Numbers up to 0, and
  6 once level 5 is recorded, pass the gate and then read an undefined
  configuration (`js/gameLogic.js:72-81`).
- Distribution types other than "equal" and "weighted" are the single value
  `Unrecognised`; their strings are not kept.
