# Verified model of the Premier League prediction platform

This project models the deterministic core of a football prediction platform and proves what that
core promises: features that never see the future, ratings that are conserved, fits that converge,
score grids that keep their mass, a rate limiter that keeps its word, and append-only tables whose
histories only move forward. `dafny verify dfyconfig.toml` checks all of it.

## How the model is laid out

| files | part of the platform |
|---|---|
| `Wrappers`, `Collections`, `Algebra`, `Chains`, `Calendar`, `SqlLogic` | shared vocabulary: results, listings and sums, products and quotients by name, step-by-step histories, local dates, three-valued truth |
| `Batching`, `Chronology`, `Simulation`, `LeagueTable` | simultaneous batches, the feature chronology, the simulation's copy of the rule, the table ledger |
| `Fixtures`, `Elo`, `EloLaws`, `Priors`, `Predictors`, `Replay`, `Engine`, `PointInTime`, `Published`, `SeasonLoop`, `Openings`, `AcrossSeasons` | the point-in-time feature replay and its carry-over from season to season |
| `GoldenSection`, `ScoreGrid`, `PoissonLaws`, `ScoreOrder`, `DixonColes`, `CorrectedOrder`, `RhoFit` | scalar fits, score probabilities and their correction |
| `Temperature`, `TemperatureFit`, `FitDirection`, `FloorEffects`, `Metrics`, `Calibration`, `Alignment` | temperature scaling, its fit, which way the fit goes and what the floor does to it, proper scores, calibration over expanding folds and what each fold may depend on |
| `LimiterLog`, `LimiterQueue`, `LimiterAdvice`, `CrossedCalls`, `RateLimiter` | the log of a sliding-window rate limiter, the queues that stand for it, its retry advice, calls that overtake each other, and the limiter itself |
| `ObservationHistory`, `Registry` | tables guarded by deferred triggers |
| `Polling` | the kickoff-aware polling policy |

Code that changes state step by step is a method or a class proved against a function of its inputs
(`UpdateEloBatch` against `AfterBatch`, `RunSeason` against `SeasonRows`, `SearchWith` against
`Narrowings`, `Evaluate` against the log); the theorems are then about those functions.

## Conventions

- Time is whole microseconds. A zone is any pair of functions such that an instant is on or after the
  start of a date exactly when its local date is at least that date; no time-zone table is used.
- Floating-point numbers are exact reals, so a validator's tolerance becomes equality and rounding to
  fifteen digits is the identity.
- The Elo curve is any function into the open unit interval; where its values matter it is one over one
  plus ten to a power, and ten to a power is any function that never falls and is one at zero. The
  exponential in the Poisson weights is any positive function. The logarithm in the rho fit is any
  function that lies strictly below its tangents of slope one over x. The exponential and logarithm of
  the temperature fit are any pair that undo each other, where the exponential is positive, turns sums
  into products and lies strictly above its tangent at zero. The golden ratio is any ratio strictly
  between zero and one whose square plus itself is one.
- Identifiers are opaque ordered integers. The predictor set is a record with one field for each
  published number in place of a list of named values.
- The feature chronology and the simulation each have their own copy of the batching loops; the model
  writes those loops once, over anything that has a kickoff slot, and both components call them.
- Registry and observation commits are serial: a transaction inserts its rows, all constraints and
  deferred triggers are evaluated in its final state, and it commits or leaves no trace. Existing rows
  can be neither updated nor deleted, which is what the immutable guards enforce.
- The rate limiter reads its clock before taking its lock. Evaluations are listed in the order in which
  the lock was taken, each with its reading as an argument, and a reading may be earlier than the last.
  A lawful log is one whose readings do not go back (`LawfulExactly`); the retry theorems are about those.

## Where the code does less than it seems to promise

- **Retry advice.** The wait is rounded up to whole seconds, so a call can be accepted between the
  instant the oldest time leaves and the advised instant, and then the first call at the advised
  instant can be denied (`AdviceCanFail`: limit two in ten seconds, calls accepted at 0 and 5, denied
  at 7.7 with advice 3, accepted at 10.2, denied at 10.7). `AllowedExactly` says when a later call is
  allowed. At the denial itself, `AdviceHoldsExactly` says when the advice can be relied on whatever
  follows: exactly when a stored time leaves the window at the advised instant.
- **Overtaking calls.** A call can read the clock, wait for the lock, and be served after a later
  reading has already pruned its window. The window up to the client's latest reading always keeps the
  limit (`LatestWindowBound`), but an earlier one can exceed it. One more call is safe after every run
  exactly when the limit is one or its reading is not before the client's latest (`CrossingExactly`).
- **Calibration folds.** The checks compare a prediction's season label with its window but never with
  the season of the example it refers to. `ChecksDoNotAlign` is an accepted input in which one outcome
  of a fold's own season changes its temperature and its predictions. It is enough that every reference
  prediction refers to an example of an earlier season, and nothing less is enough for all distributions
  the predictions may carry (`AlignmentIsExact`). For particular distributions less can do: even
  references keep their temperature whatever they refer to (`EvenReferenceIsFixed`).
- **Floored probabilities.** The temperature loss has one valley while the probability of what happened
  stays above the floor over the whole interval. Where it does not, the floor hides the slope: for one
  prediction the valley is there exactly when neither end reaches the floor (`OneRowExactly`), and
  `FloorCanBeReached` is a prediction that reaches the default floor within the default bounds. The
  search can then miss: in `SearchCanMiss` it ends below temperature one although its upper end,
  temperature two, loses less.
- **Two floors.** A fold's predictions are scaled with the default floor, whatever floor the fit used
  (`FoldsUseTheDefaultFloor`).
- **Expected-goal cap.** The parameter validator allows a cap above 6, but every rate above 6 is
  refused when it is used. All producible rates are accepted exactly when the cap is at most 6.
- **Repeated acceptance.** A check constraint passes when it evaluates to null, so an
  `accept_development` event with a null `from_state` can follow another one. The four intended chains
  are guaranteed exactly when no acceptance has sequence three or more.
- **Rho without evidence.** With no low-scoring training row the likelihood does not depend on rho and
  the search returns the lower end of the interval (plus its final half width), not zero.

## Model

| member | source | states |
|---|---|---|
| `Calendar.StartOfOwnDate` | src/pl_platform/features/chronology.py:29-35 | the start of an instant's own local date lies on that date and no later than the instant |
| `Batching.Timeline.EarlierExactly` | src/pl_platform/features/chronology.py:59-101 | an item comes strictly before another exactly when its local date is earlier, or the shared date is all exact and its kickoff is earlier; two items are simultaneous exactly when they share a date that holds a date-only item or share a kickoff |
| `Batching.Timeline.CutoffContract` | src/pl_platform/domain/features.py:206-227 | every batch cutoff is no later than its members' kickoffs, strictly before the local date of a date-only member, and no earlier than any kickoff of an earlier batch |
| `Batching.Timeline.CutoffsOrdered` | src/pl_platform/features/chronology.py:73-101 | cutoffs never go back along the chronology |
| `Batching.Timeline.BatchesPartition` | src/pl_platform/features/chronology.py:59-101 | every fixture is in exactly one batch, exactly once |
| `Batching.Timeline.SplitAt` | src/pl_platform/features/chronology.py:59-101 | the chronology of all items is the chronology of those before any key followed by the chronology of the rest: nothing later changes an earlier batch |
| `Batching.Timeline.PrefixAt` | src/pl_platform/features/chronology.py:59-101 | the first i batches are the whole chronology of the items strictly before batch i |
| `Batching.Timeline.BatchesBySlot` | src/pl_platform/features/chronology.py:38-101 | identifiers, kickoffs and precisions alone decide the grouping, its order, cutoffs and flags |
| `Batching.CollectBatches` | src/pl_platform/features/chronology.py:73-101 | the date loop computes the declarative chronology: one batch per group of simultaneous items, in key order, ids ascending |
| `Batching.DateBatches` | src/pl_platform/features/chronology.py:73-101 | one date yields its single date-only batch, or its kickoff batches, and leaves the chronology of all later dates |
| `Batching.KickoffBatches` | src/pl_platform/features/chronology.py:87-100 | the kickoff loop of an all-exact date splits it by identical kickoff, in order |
| `Chronology.BucketByDate` | src/pl_platform/features/chronology.py:52-72 | grouping succeeds exactly when ids are unique and every competition supported; otherwise the error is that of the first offending fixture |
| `Chronology.ChronologicalFixtureBatches` | src/pl_platform/features/chronology.py:47-101 | succeeds exactly on orderable input and then returns its chronology; fails with the first offending fixture's error |
| `Chronology.OrderFree` | src/pl_platform/features/chronology.py:47-101 | permuting the input changes neither acceptance nor any batch |
| `Chronology.BatchesPermute` | src/pl_platform/features/chronology.py:47-101 | flattening the batches is a permutation of the input |
| `Elo.PredictEloMatch` | src/pl_platform/features/elo.py:42-66 | expected scores lie strictly between zero and one and sum to one; a missing rating is reported for the home club first |
| `Elo.Expectation` | src/pl_platform/features/elo.py:53-63 | the clipped logistic expectation is a probability for every rating difference |
| `Elo.ExpectationFalls` | src/pl_platform/features/elo.py:56-60 | the home expectation falls as the away club gets further ahead, and passes one half where that lead is the home advantage |
| `Elo.HomeOdds` | src/pl_platform/features/elo.py:42-66 | the predicted home score is one over one plus ten to the clipped exponent of the visitor's lead |
| `Elo.ExponentIsLead` | src/pl_platform/features/elo.py:56-59 | the exponent times the scale is the away rating less the home rating less the home advantage, and clipping keeps it within twelve either way |
| `Elo.FavouriteExpectsMore` | src/pl_platform/features/elo.py:42-66 | the predicted home score is at least a half while the home rating and the home advantage together reach the away rating, and at most a half while they do not exceed it |
| `Elo.Exchange` | src/pl_platform/features/elo.py:89-97 | fewer than K points move, toward a winner and away from a loser |
| `Elo.UpdateEloBatch` | src/pl_platform/features/elo.py:69-99 | succeeds exactly when every fixture is completed and both clubs rated; then every club gains the sum of its deltas computed from the one pre-batch snapshot; otherwise the error is the first offending fixture's |
| `Elo.MatchMovesSurprise` | src/pl_platform/features/elo.py:80-99 | a match moves K times the result (one, a half or nothing) less the predicted home score to the home club and takes the same from the away club, when it is their only match of the batch |
| `Elo.IdleKeepsRating` | src/pl_platform/features/elo.py:69-99 | a club without a match in the batch keeps its rating |
| `Elo.InitializeSeasonRatings` | src/pl_platform/features/elo.py:17-39 | succeeds exactly when every continuing club has a final rating; then each member opens on the baseline or on its regressed rating |
| `EloLaws.BatchOrderFree` | src/pl_platform/features/elo.py:69-99 | permuting a batch leaves every rating unchanged |
| `EloLaws.BatchConserves` | src/pl_platform/features/elo.py:69-99 | a batch update keeps the sum of all ratings |
| `EloLaws.SeasonConserves` | src/pl_platform/features/elo.py:69-99 | any number of batches keeps the sum of all ratings |
| `EloLaws.SeasonDrift` | src/pl_platform/features/elo.py:69-99 | a season moves a club by at most K for each of its matches |
| `EloLaws.OpeningContracts` | src/pl_platform/features/elo.py:17-39 | opening a season shrinks every distance from the baseline by the retention factor |
| `Openings.RatingOpens` | src/pl_platform/features/elo.py:17-39 | a promoted club and every club of a first season open on the baseline; a continuing club keeps its side of the baseline, at the retention share of its distance |
| `Priors.Summary.Observe` | src/pl_platform/features/priors.py:91-102 | one observed result adds exactly one match with its result, points and goals |
| `Priors.LeagueTallyBalanced` | src/pl_platform/features/priors.py:142-170 | over any fixtures the league summary has two appearances a fixture, wins equal to losses, goals for equal to goals against, and one point lost for each draw |
| `Priors.PreviousSummaries` | src/pl_platform/features/priors.py:142-170 | every club is counted over exactly its own fixtures and the league over both sides of all; fails exactly on an unusable fixture |
| `Priors.PriorFromTally` | src/pl_platform/features/priors.py:118-139 | a prior from any balanced tally with a match satisfies its validator: rates sum to one and give its points; without a match it is refused |
| `Priors.FixedPrior` | src/pl_platform/features/priors.py:105-115 | the fixed prior satisfies its validator |
| `Priors.BuildSeasonOpeningPriors` | src/pl_platform/features/priors.py:173-217 | succeeds exactly when no history is given or an acceptable one is; then continuing clubs get their own previous season, promoted ones the league's |
| `Priors.PriorsAreValid` | src/pl_platform/features/priors.py:56-78 | every prior a season can open with passes its validator |
| `Openings.PriorReportsSeason` | src/pl_platform/features/priors.py:118-217 | a continuing club's prior gives back the matches, points, results and goals counted from its own fixtures of the season before, a promoted club's those of the whole league |
| `Openings.FirstSeasonIsLevel` | src/pl_platform/features/priors.py:105-115 | without a season before, every club opens with a third of each result, four thirds of a point and one and a half goals either way |
| `Openings.HistoryAcceptedExactly` | src/pl_platform/features/priors.py:142-217 | a season can open on another exactly when that one ended before it starts, has completed fixtures between its members only, and has the continuing clubs as members that played and the promoted ones not at all |
| `Predictors.Observe` | src/pl_platform/features/engine.py:397-445 | an observation has the score, points, result flags, side and local date of its match |
| `Predictors.BothSidesMirror` | src/pl_platform/features/engine.py:385-445 | the two clubs of a match observe mirrored goals, results and statistics |
| `Predictors.HistoryBalances` | src/pl_platform/features/engine.py:139-178 | wins, draws and losses of any history add up to its matches and give its points |
| `Predictors.BlendIsConsistent` | src/pl_platform/features/engine.py:283-316 | for every history and valid prior the blended rates sum to one and blended points are three wins plus a draw |
| `Predictors.ScheduleIsConsistent` | src/pl_platform/features/engine.py:217-250 | the seven-day count is within the fourteen-day count and rest days are never negative |
| `Replay.HistoryIsWitnessed` | src/pl_platform/features/engine.py:548-566 | every observation in a reachable state is a club's own view of a fixture committed earlier |
| `Replay.HistoryCounts` | src/pl_platform/features/engine.py:548-566 | a club's history holds one observation for each of its committed matches |
| `Replay.HistoryIsMatches` | src/pl_platform/features/engine.py:548-566 | a club's history is its own view of its committed matches, one by one and in order |
| `Replay.HistoryIsTally` | src/pl_platform/features/engine.py:548-566 | a club's history adds up to the matches, results, points and goals counted directly from its committed fixtures |
| `Replay.RatingsAreEloRun` | src/pl_platform/features/engine.py:560-566 | the ratings of a replay are the Elo run over the same batches |
| `Engine.ValidateBuildInputs` | src/pl_platform/features/engine.py:448-482 | reports the first complaint in the order the checks are made, or none |
| `Engine.InputsAccepted` | src/pl_platform/features/engine.py:448-482 | the inputs raise no complaint exactly when the provenance is the season's and every fixture is a finished, labelled and traceable one between two members of it |
| `Engine.BuildSeasonFeatureResult` | src/pl_platform/features/engine.py:485-575 | succeeds exactly on acceptable inputs; every row is made from the state left by the batches strictly before its own, and the final ratings are those after the last batch |
| `Engine.RunSeason` | src/pl_platform/features/engine.py:519-575 | the replay loop makes each batch's rows before committing any of its results |
| `Engine.ReplayCompleted` | src/pl_platform/features/engine.py:630-660 | the upcoming replay reaches the same state as the historical one over the same batches, or reports the first unusable fixture |
| `Engine.BuildUpcomingPredictorSet` | src/pl_platform/features/engine.py:599-669 | succeeds exactly for a scheduled fixture of the season with usable completed fixtures, and then depends only on their set |
| `Engine.AcceptedFixtureByFixture` | src/pl_platform/features/engine.py:637-655 | completed fixtures are accepted exactly when each of them is |
| `Engine.UpcomingAccepted` | src/pl_platform/features/engine.py:615-632 | an upcoming call raises no complaint about its fixture and setup exactly when the fixture is scheduled between two members of the season and priors and ratings cover the members |
| `Engine.CompletedAccepted` | src/pl_platform/features/engine.py:637-655 | a completed fixture is accepted exactly when it is finished, scored and labelled, of the season, and between two of its members |
| `PointInTime.RowsArePointInTime` | src/pl_platform/features/engine.py:519-575 | a season has exactly one row per fixture, and each is the row computed from only the fixtures of strictly earlier batches |
| `PointInTime.LeakageFreedom` | src/pl_platform/features/engine.py:519-570 | two seasons with the same schedule that agree on all fixtures of batches before f and on f's clubs give f the same predictors and cutoff, whatever happens in f's batch or later |
| `PointInTime.SeasonsDoNotLeak` | src/pl_platform/features/engine.py:485-575 | the same for the rows two whole season builds publish |
| `PointInTime.SamePast` | src/pl_platform/features/engine.py:519-570 | with equal schedules and equal earlier results the fixtures visible before f are equal |
| `PointInTime.ReplayEquivalence` | src/pl_platform/features/engine.py:599-669 | replaying the fixtures of all earlier batches, in any order, and asking for a scheduled copy of f gives exactly the predictors of f's historical row |
| `PointInTime.UpcomingAgreesWithHistory` | src/pl_platform/features/engine.py:599-669 | for any row of a buildable season, the whole upcoming call on the fixtures of all earlier batches and the fixture as it was scheduled succeeds and returns that row's predictors |
| `PointInTime.EarlierBatchesAreAccepted` | src/pl_platform/features/engine.py:630-655 | the earlier batches of any buildable season are accepted as completed state |
| `PointInTime.PastIsSound` | src/pl_platform/features/engine.py:548-566 | nothing a row reads is later than its fixture's date |
| `Published.RowPublishes` | src/pl_platform/features/engine.py:139-382 | a row carries its fixture, score and outcome, and its predictors are those of the strictly earlier batches: for each club the results, goals, rates, last five matches, matches in the same role, rest days, counts of seven and fourteen days and averages of optional statistics counted from its fixtures, its own prior, and blended values that weigh the prior as five matches; the Elo run's ratings, their difference with and without the home advantage and the expectation they give; who is promoted; and the number of earlier fixtures, which is the progress times 380 |
| `Published.SeasonRowPublishes` | src/pl_platform/features/engine.py:485-575 | the same for every row that a season build publishes |
| `Published.UpcomingPublishes` | src/pl_platform/features/engine.py:599-669 | the same for the answer of every successful upcoming call, over its completed fixtures |
| `Published.StatePublishes` | src/pl_platform/features/engine.py:319-382 | the same for the predictors of any fixture after any usable batches |
| `PointInTime.RowsAreSound` | src/pl_platform/domain/features.py:191-227 | every row meets the cutoff contract, labels the outcome of its score, has balanced histories, blended rates summing to one, and ratings within K per match of the opening ratings |
| `PointInTime.SeasonRowsAreSound` | src/pl_platform/domain/features.py:191-227 | the same for every row a season build publishes |
| `SeasonLoop.MaterializeFeatureEntries` | src/pl_platform/features/materialize.py:639-736 | succeeds exactly when a named stop exists and every visited season can be built on its predecessor; then each season opens on the priors and ratings its predecessor left; otherwise the error is the unknown stop or that of the first season that cannot be built |
| `SeasonLoop.StoppedRunIsPrefix` | src/pl_platform/features/materialize.py:733-754 | stopping at a season gives exactly the first builds of the full history |
| `SeasonLoop.VisitedEndsAtStop` | src/pl_platform/features/materialize.py:639-736 | the seasons visited are an initial part of the manifest that ends at the first entry of the named season, or all of it if none is named |
| `Openings.SeasonsInOrder` | src/pl_platform/features/materialize.py:664-704 | the seasons of any history that can be built are in calendar order, each ending before the next begins |
| `Openings.SeasonOpensOnLast` | src/pl_platform/features/materialize.py:684-704 | each later season opens its promoted clubs on the baseline and its continuing ones on their final rating of the season before, drawn in to the baseline |
| `SeasonLoop.BuildsAreDetermined` | src/pl_platform/features/materialize.py:684-704 | a season's priors, ratings and rows are determined by its entry and the build before it |
| `Chains.HistoryIsStable` | src/pl_platform/features/materialize.py:664-736 | no later season changes an earlier build |
| `AcrossSeasons.HistoriesDoNotLeak` | src/pl_platform/features/materialize.py:639-736 | two materialised histories that agree on all earlier seasons, and in one season on its members, schedule and the results of all batches before f's, publish the same predictors and cutoff for f, whatever follows |
| `SeasonLoop.RatingsStayBounded` | src/pl_platform/features/materialize.py:689-732 | over any number of seasons, after any batch, every rating is within K times the matches over one minus the retention of the baseline |
| `SeasonLoop.EverySeasonConserves` | src/pl_platform/features/materialize.py:689-732 | every season ends with the rating total it opened with |
| `GoldenSection.ProbeReused` | src/pl_platform/evaluation/calibration.py:190-202 | because the ratio squared plus the ratio is one, a surviving probe is a probe of the narrowed bracket |
| `GoldenSection.SearchWith` | src/pl_platform/evaluation/calibration.py:172-202 | the loop with one cached probe ends where recomputing both probes every time would |
| `GoldenSection.KeepsMinimiser` | src/pl_platform/evaluation/calibration.py:189-202 | no number of iterations loses a minimiser of a strictly quasiconvex objective |
| `GoldenSection.UnimodalIsQuasiconvex` | src/pl_platform/evaluation/calibration.py:189-202 | every strictly unimodal objective is covered |
| `GoldenSection.WidthShrinks` | src/pl_platform/evaluation/calibration.py:189-202 | the bracket shrinks by the ratio at every iteration |
| `GoldenSection.RisingGoesToLowerEnd` | src/pl_platform/evaluation/calibration.py:189-202 | on an objective that never falls the search runs to the lower end, to the width left after its iterations |
| `GoldenSection.FallingGoesToUpperEnd` | src/pl_platform/evaluation/calibration.py:189-202 | on an objective that always falls it runs to the upper end |
| `GoldenSection.FlatGoesToLowerEnd` | src/pl_platform/evaluation/score_models.py:463-475 | on an objective that never changes the search runs to the lower end |
| `GoldenSection.Search` | src/pl_platform/evaluation/score_models.py:456-476 | the midpoint is within half the width times the ratio to the n of any minimiser, and at the lower end plus that distance on a flat objective |
| `ScoreGrid.WeightArray` | src/pl_platform/evaluation/score_models.py:220-225 | the array loop fills in the Poisson weights |
| `ScoreGrid.DecayCancels` | src/pl_platform/evaluation/score_models.py:220-232 | the exponential factor cancels: the normalised shares do not depend on it |
| `ScoreGrid.PoissonScoreMatrix` | src/pl_platform/evaluation/score_models.py:207-232 | succeeds exactly for rates in the cap and 1 to 100 goals; each cell is then the product of the two sides' shares, and the mass check cannot fail |
| `ScoreGrid.OutcomesExhaust` | src/pl_platform/evaluation/score_models.py:235-247 | below, on and above the diagonal exhaust any square grid, so one minus home minus draw is the away mass |
| `ScoreGrid.OutcomesFromScoreMatrix` | src/pl_platform/evaluation/score_models.py:235-247 | refuses exactly a non-square grid; on a grid of mass one the third outcome is the mass above the diagonal |
| `ScoreGrid.OutcomesOfShares` | src/pl_platform/evaluation/score_models.py:250-260 | the grid has mass one and its outcomes sum to one |
| `PoissonLaws.GridSteps` | src/pl_platform/evaluation/score_models.py:220-232 | one more goal of a side multiplies a cell by the side's rate and divides it by the number of its goals |
| `PoissonLaws.MarginalsAreShares` | src/pl_platform/evaluation/score_models.py:220-232 | the goals of each side are distributed as its own shares, whatever the other side's rate |
| `PoissonLaws.GridExpects` | src/pl_platform/evaluation/score_models.py:207-232 | the grid expects of each side its rate times one minus the probability of its greatest number of goals |
| `ScoreGrid.PoissonOutcomeProbabilities` | src/pl_platform/evaluation/score_models.py:250-260 | the projection returns the three masses of the normalised grid, or the first refused argument |
| `ScoreGrid.SwapSymmetry` | src/pl_platform/evaluation/score_models.py:207-260 | swapping the rates swaps home and away and keeps the draw |
| `ScoreOrder.SharesOutweigh` | src/pl_platform/evaluation/score_models.py:220-232 | a higher rate dominates a lower one in likelihood ratio on every truncated grid |
| `ScoreOrder.HeavierMean` | src/pl_platform/evaluation/score_models.py:207-247 | likelihood-ratio dominance gives a strictly larger mean to everything that strictly rises |
| `ScoreOrder.HigherHomeRateWins` | src/pl_platform/evaluation/score_models.py:207-260 | on every grid size a higher home rate strictly raises the home win and strictly lowers the away win |
| `ScoreOrder.HigherAwayRateWins` | src/pl_platform/evaluation/score_models.py:207-260 | a higher away rate does the opposite |
| `DixonColes.Tau` | src/pl_platform/evaluation/score_models.py:403-427 | defined exactly on valid arguments, and then strictly positive |
| `DixonColes.SafeBoundsAreExact` | src/pl_platform/evaluation/score_models.py:88-95 | the validator's two inequalities hold exactly when no factor can reach zero anywhere within the cap and the rho interval |
| `DixonColes.CapsAgree` | src/pl_platform/evaluation/score_models.py:194-204 | every rate a valid model can produce is accepted exactly when its own cap is at most the fixed one |
| `DixonColes.ValidModelIsAccepted` | src/pl_platform/evaluation/score_models.py:80-95 | with a cap of at most six, every rate, rho and grid size that a valid model produces is accepted by the projection |
| `DixonColes.ValidParametersAboveTheCap` | src/pl_platform/evaluation/score_models.py:80-95 | a parameter set that validates although it can produce a rate the model then refuses |
| `DixonColes.CorrectCells` | src/pl_platform/evaluation/score_models.py:494-498 | the four in-place edits multiply every cell of the grid by its own factor |
| `DixonColes.CorrectionMoves` | src/pl_platform/evaluation/score_models.py:494-498 | the correction moves one and the same mass out of two low-score cells and into the other two |
| `DixonColes.MarginalsKept` | src/pl_platform/evaluation/score_models.py:485-503 | every row and column marginal is exactly what it was |
| `PoissonLaws.CorrectionKeepsExpectation` | src/pl_platform/evaluation/score_models.py:485-503 | the correction leaves the goals expected of each side as they were |
| `DixonColes.CellsStayPositive` | src/pl_platform/evaluation/score_models.py:499-502 | no corrected cell is zero or negative |
| `DixonColes.OutcomesAfterCorrection` | src/pl_platform/evaluation/score_models.py:485-503 | total mass stays one; each win gains the moved mass and the draw loses it twice |
| `DixonColes.ShiftFollowsRho` | src/pl_platform/evaluation/score_models.py:403-427 | a negative rho moves mass to the draw, a positive one away from it |
| `CorrectedOrder.HigherHomeRateStillWins` | src/pl_platform/evaluation/score_models.py:485-503 | for every valid rho and grid size a higher home rate strictly raises the corrected home win and strictly lowers the corrected away win |
| `CorrectedOrder.HigherAwayRateStillWins` | src/pl_platform/evaluation/score_models.py:485-503 | for every valid rho a higher away rate does the opposite |
| `CorrectedOrder.CorrectedSwap` | src/pl_platform/evaluation/score_models.py:485-503 | swapping the rates swaps the corrected wins and keeps the corrected draw |
| `DixonColes.DixonColesOutcomeProbabilities` | src/pl_platform/evaluation/score_models.py:485-503 | succeeds exactly on valid arguments, so the mass check after the correction never fires |
| `RhoFit.LossIsStrict` | src/pl_platform/evaluation/score_models.py:449-454 | with any low-scoring row the loss is strictly quasiconvex in rho |
| `RhoFit.SumBelowTangent` | src/pl_platform/evaluation/score_models.py:449-454 | the log likelihood lies below each of its tangents, strictly with a low-scoring row |
| `RhoFit.RowIsCellRatio` | src/pl_platform/evaluation/score_models.py:449-454 | the factor of a training row is the one by which the projection multiplies the probability of its score |
| `RhoFit.LossIsMeanLogRatio` | src/pl_platform/evaluation/score_models.py:449-456 | the loss is the mean over the rows of minus the log of that factor |
| `RhoFit.FitDixonColesRho` | src/pl_platform/evaluation/score_models.py:430-482 | succeeds exactly with rows whose rates are in the cap; rho is within the search precision of any best rho, or at the lower end when no row is low-scoring |
| `RateLimiter.SlidingWindowRateLimiter.constructor` | src/pl_platform/api/controls.py:53-66 | starts with an empty log that its state represents |
| `RateLimiter.SlidingWindowRateLimiter.Evaluate` | src/pl_platform/api/controls.py:68-109 | for any clock reading: appends the decision to the log and keeps the state representing it; remaining, reset and retry follow the times still waiting in the client's queue; while readings do not go back, the call is allowed exactly when fewer than the limit were accepted in the window that ends now |
| `RateLimiter.SlidingWindowRateLimiter.Track` | src/pl_platform/api/controls.py:74-81 | moves a known client to the end, or inserts it, evicting the front when full |
| `RateLimiter.SlidingWindowRateLimiter.Prune` | src/pl_platform/api/controls.py:82-83 | drops stale times from the front until the first that is later than the threshold |
| `RateLimiter.StillRepresents` | src/pl_platform/api/controls.py:74-109 | the updated dictionary represents the extended log |
| `LimiterQueue.WaitingIsFilling` | src/pl_platform/api/controls.py:82-83 | while readings do not go back, a client's pruned queue holds exactly its accepted times in the window that ends now |
| `LimiterQueue.LawfulExactly` | src/pl_platform/api/controls.py:68-109 | the logs that satisfy the window rule are exactly those the limiter produces while readings do not go back |
| `CrossedCalls.LatestWindowBound` | src/pl_platform/api/controls.py:68-99 | in whatever order readings and lock cross, the window up to a client's latest reading holds no more than the limit of its accepted calls |
| `CrossedCalls.OwnForwardBound` | src/pl_platform/api/controls.py:68-99 | every window keeps the limit as long as the client's own readings go forward, whatever other clients' readings do |
| `CrossedCalls.LoneBound` | src/pl_platform/api/controls.py:68-99 | a limit of one is kept in every window, whatever the order |
| `CrossedCalls.CrossingExactly` | src/pl_platform/api/controls.py:68-99 | after every run of calls up to a latest reading of the client, one more call keeps every window within the limit exactly when the limit is one or its reading is not before the latest |
| `CrossedCalls.LateCallExceeds` | src/pl_platform/api/controls.py:68-99 | for any limit of two or more and any reading before the latest, a run after which that call takes a window over the limit |
| `LimiterLog.TouchedIsTracked` | src/pl_platform/api/controls.py:74-81 | evicting the front and moving to the end keeps exactly the most recently evaluated clients |
| `LimiterLog.TrackedIsBounded` | src/pl_platform/api/controls.py:76-79 | never more clients than the capacity, and all forgotten ones were evaluated less recently |
| `LimiterLog.WindowBound` | src/pl_platform/api/controls.py:82-99 | no half-open window of the configured length holds more than the limit of accepted calls of a client since it was last inserted |
| `LimiterLog.DeniedHoldsLimit` | src/pl_platform/api/controls.py:85-97 | a denied client holds exactly the limit |
| `LimiterLog.RetryIsLeast` | src/pl_platform/api/controls.py:86-89 | the advice is between one second and the window, and is the least positive whole second by which the oldest time has left |
| `LimiterLog.NextAllowed` | src/pl_platform/api/controls.py:85-97 | until another call is accepted, calls are denied strictly before the oldest time plus the window and allowed from then on |
| `LimiterLog.DeniedUntilOldestLeaves` | src/pl_platform/api/controls.py:85-97 | every call before the oldest time plus the window is denied |
| `LimiterLog.RetryIsHonoured` | src/pl_platform/api/controls.py:85-97 | a client that makes no call from the oldest time plus the window on is let in at or after the advised time |
| `LimiterLog.WholeSecondAdvice` | src/pl_platform/api/controls.py:86-89 | when the wait is a whole number of seconds, the first call at or after the advised time is allowed |
| `LimiterLog.AllowedExactly` | src/pl_platform/api/controls.py:82-99 | after a denial a later call is allowed exactly when more stored times have left the window than newer ones were accepted and are still in it |
| `LimiterAdvice.AdviceHoldsExactly` | src/pl_platform/api/controls.py:82-109 | the advice given with a denial holds for every lawful continuation in which the client stays tracked exactly when one of its stored times leaves the window at the advised instant itself |
| `LimiterAdvice.AdviceCanFail` | src/pl_platform/api/controls.py:86-89 | a run in which the first call at the advised time is denied, because a call was accepted in the rounded-up fraction of a second before it |
| `Simulation.SimulationFixtureBatches` | src/pl_platform/domain/simulation.py:238-282 | succeeds exactly when ids are unique and every batch has one season, and then returns the chronology without cutoffs |
| `Simulation.GroupsAreValid` | src/pl_platform/domain/simulation.py:207-235 | every batch passes its own validator exactly when its fixtures share a season |
| `Simulation.SeasonsAgreeExactly` | src/pl_platform/domain/simulation.py:207-282 | all batches pass that check exactly when no two simultaneous fixtures are of different seasons |
| `Simulation.CanonicalIsPermutation` | src/pl_platform/domain/simulation.py:490-503 | flattening the batches permutes the fixtures, and doing it again changes nothing |
| `Simulation.CanonicalExactly` | src/pl_platform/domain/simulation.py:490-503 | a list equals its own flattened batches exactly when every fixture follows all that the schedule, then the id, puts before it |
| `Simulation.SeasonInputIsCanonical` | src/pl_platform/domain/simulation.py:480-516 | accepts exactly the inputs whose teams and completed matches are strictly ordered, whose remaining fixtures are in schedule order, and whose memberships and seasons agree |
| `Simulation.OneAcceptedOrder` | src/pl_platform/domain/simulation.py:490-503 | each set of remaining fixtures has exactly one accepted order |
| `Simulation.GroupedAsChronology` | src/pl_platform/domain/simulation.py:238-282 | the same slots are grouped, ordered and flagged alike by the simulation and by the feature chronology |
| `LeagueTable.TableIsCanonical` | src/pl_platform/domain/simulation.py:380-440 | accepts exactly tables whose rows are the standings of their strictly ordered ledger |
| `LeagueTable.Recount` | src/pl_platform/domain/simulation.py:398-434 | the accumulation loop gives every club the standing of the ledger |
| `LeagueTable.AcceptedRowsAreValid` | src/pl_platform/domain/simulation.py:357-363 | every row of an accepted table satisfies its identities |
| `LeagueTable.LedgerOrderFree` | src/pl_platform/domain/simulation.py:410-434 | standings depend on which matches were played, not on how they are listed |
| `LeagueTable.OneMatchTwoRows` | src/pl_platform/domain/simulation.py:410-434 | one more match changes the rows of its two clubs and no other |
| `LeagueTable.MatchCredits` | src/pl_platform/domain/simulation.py:410-434 | a match credits the home club with the home goals, the away club with the away goals, and the one with more goals with a win and three points, both with a draw and one point if level |
| `LeagueTable.ColumnTotals` | src/pl_platform/domain/simulation.py:410-434 | over all clubs: two appearances a match, wins equal losses, goals for equal goals against, and three points a match less one for each draw |
| `Temperature.ScaledIsShare` | src/pl_platform/evaluation/calibration.py:99-125 | subtracting the greatest logit changes nothing: each scaled probability is its share of the exponentials, the third one included |
| `Temperature.ScaledProbabilities` | src/pl_platform/evaluation/calibration.py:99-125 | refuses exactly a temperature that is not positive, then a floor outside zero to a third; otherwise the three probabilities are positive and sum to one |
| `Temperature.ScalingKeepsRanking` | src/pl_platform/evaluation/calibration.py:99-125 | scaling yields positive probabilities that sum to one and rank the outcomes as before |
| `Temperature.UnitTemperatureIsIdentity` | src/pl_platform/evaluation/calibration.py:99-125 | a temperature of one changes no probability above the floor |
| `Temperature.LossIsSmooth` | src/pl_platform/evaluation/calibration.py:99-148 | the loss is the log of the normaliser less the logit of what happened exactly while the floor is not reached |
| `Temperature.SmoothAboveTangent` | src/pl_platform/evaluation/calibration.py:99-148 | that loss is convex in the inverse temperature, strictly unless the three floored probabilities are equal |
| `TemperatureFit.LossIsStrict` | src/pl_platform/evaluation/calibration.py:128-148 | while no floor is reached and some prediction is uneven, the mean log loss at a temperature between two others is below that at one of them |
| `TemperatureFit.ObjectiveShape` | src/pl_platform/evaluation/calibration.py:172-188 | with no floor reached at the two ends the objective of the search is strictly quasiconvex in the log temperature, and with no uneven prediction it is constant |
| `TemperatureFit.OneRowExactly` | src/pl_platform/evaluation/calibration.py:128-148 | for a single uneven prediction the objective is strictly quasiconvex exactly when its floor is reached at neither end |
| `TemperatureFit.FloorCanBeReached` | src/pl_platform/evaluation/calibration.py:37-58 | with the default bounds and floor, a confident miss whose objective is not strictly quasiconvex |
| `TemperatureFit.FitLogTemperature` | src/pl_platform/evaluation/calibration.py:172-203 | the log temperature found is within the search precision of any best one while no floor is reached and some prediction is uneven, and at the lower end when none is |
| `Calibration.FitTemperatureScaling` | src/pl_platform/evaluation/calibration.py:151-208 | succeeds exactly on unique predictions whose targets are theirs; reports the temperature found, the count, and the loss at temperature one and at that temperature |
| `Calibration.FitIsOrderFree` | src/pl_platform/evaluation/calibration.py:151-166 | the fit depends on which predictions there are, not on how they are listed |
| `Calibration.FitReports` | src/pl_platform/evaluation/calibration.py:187-208 | a fit reports the number of its predictions, and their mean losses at temperature one and at the temperature found |
| `TemperatureFit.MeanOfLosses` | src/pl_platform/evaluation/calibration.py:128-148 | the mean log loss is the mean over the rows of minus the log of the scaled probability of what happened, or of the floor where that is more |
| `Calibration.DecidedTarget` | src/pl_platform/evaluation/calibration.py:277-281 | the outcome of an id is that of the last development example with that id |
| `Calibration.EvaluateExpandingTemperatureCalibration` | src/pl_platform/evaluation/calibration.py:242-417 | succeeds exactly on accepted sources with every window populated and no later source that gave its outcome no chance; each fold is fitted on all earlier windows only, its sources and its calibrated predictions are scored, scaling is selected exactly when it scores better over all folds together, and the final fit uses every source; otherwise the error is that of the first check to fail |
| `Calibration.SelectionMeans` | src/pl_platform/evaluation/calibration.py:387-398 | of the two populations scored over all folds, the lower mean log loss decides, on a tie the lower Brier score, then the lower ranked score; scaling is selected only if strictly better, and always if no score is worse and one is better |
| `Calibration.SourcesAccepted` | src/pl_platform/evaluation/calibration.py:242-311 | the sources raise no complaint exactly when there are some, each is a catboost prediction of an evaluated season in the window of that season, all name one configuration, and they cover the examples of those seasons once each |
| `Calibration.FoldSeasons` | src/pl_platform/evaluation/calibration.py:318-364 | a fold scores one season and lists the evaluated seasons before it, in order |
| `Alignment.FoldNonInterference` | src/pl_platform/evaluation/calibration.py:318-364 | if every reference prediction is judged by an example of an earlier season, a fold's fit and predictions ignore every outcome of its own, a later or an excluded season |
| `Alignment.AlignmentIsExact` | src/pl_platform/evaluation/calibration.py:318-364 | for accepted sources with given labels, a fold's temperature ignores those outcomes under every assignment of distributions exactly when that condition holds; the same is true of its calibrated predictions |
| `Alignment.AlignedInputsExactly` | src/pl_platform/evaluation/calibration.py:318-334 | the outcomes handed to a fold's fit ignore those outcomes exactly when the condition holds, whatever the distributions |
| `Alignment.EvenReferenceIsFixed` | src/pl_platform/evaluation/calibration.py:318-364 | for given distributions the condition can be more than is needed: a fold whose reference predictions are all even keeps its temperature and predictions whatever happened |
| `Alignment.LabelledIsAligned` | src/pl_platform/evaluation/calibration.py:297-311 | predictions labelled with their example's season meet the condition in every fold |
| `Alignment.ChecksDoNotAlign` | src/pl_platform/evaluation/calibration.py:283-311 | sources that the evaluation accepts under two sets of outcomes, which differ in one outcome of fold 1's own season, and give fold 1 two temperatures and different predictions, because no check compares a prediction's season with its example's |
| `FitDirection.RightAndWrongDiffer` | src/pl_platform/evaluation/calibration.py:172-203 | the same bracket is searched to a strictly lower temperature on mildly leaning predictions that were right than on such predictions that were wrong |
| `FitDirection.MildExists` | src/pl_platform/evaluation/calibration.py:99-148 | whatever the bounds and the floor, some distribution leans to a given outcome and reaches no floor at any temperature of the search |
| `Calibration.FoldsUseTheDefaultFloor` | src/pl_platform/evaluation/calibration.py:211-239 | a fold's predictions are scaled with the default floor even where the floor of its fit would give something else |
| `FloorEffects.SearchCanMiss` | src/pl_platform/evaluation/calibration.py:172-203 | with the default floor and a search between a quarter and two, predictions for which the temperature found loses more than the upper end of the search |
| `Calibration.FoldsExactly` | src/pl_platform/evaluation/calibration.py:318-364 | every fold can be evaluated exactly when no window is empty and every source after the first window gave its outcome a chance |
| `Metrics.EvaluateProbabilisticPredictions` | src/pl_platform/evaluation/metrics.py:23-96 | succeeds exactly on a non-empty population of one model, one prediction an example, whose targets are its own and whose outcomes all had a chance; the summary holds the counts and the three mean scores; otherwise the error is that of the first check to fail |
| `Metrics.ScoredExactly` | src/pl_platform/evaluation/metrics.py:23-58 | a population is scored exactly when it has predictions, all of one model, one for each target and no other, each of which gave what happened a chance |
| `Metrics.MeansOfScores` | src/pl_platform/evaluation/metrics.py:46-96 | each published mean times the number of rows is the sum of its own score over the rows |
| `Metrics.CountsAreOutcomes` | src/pl_platform/evaluation/metrics.py:84-96 | the published counts are the numbers of home wins, draws and away wins among the rows |
| `Metrics.ScoringIsOrderFree` | src/pl_platform/evaluation/metrics.py:46-58 | the rows that are scored depend on which predictions there are, not on how they are listed |
| `Metrics.ScoresCompared` | src/pl_platform/evaluation/metrics.py:60-82 | the Brier score is twice the ranked score plus the square of the draw's error; they are at most two and one, and zero exactly for a certain and correct prediction |
| `Metrics.SurpriseSign` | src/pl_platform/evaluation/metrics.py:54-58 | log loss is never negative, and zero exactly for a certain and correct prediction |
| `Metrics.CountsAddUp` | src/pl_platform/domain/evaluation.py:205-210 | the outcome counts of any scored population add up to its number of predictions, as the summary validator asks |
| `Metrics.BrierIsProper` | src/pl_platform/evaluation/metrics.py:66-75 | the expected Brier score is least exactly at the true probabilities, by the squared distance from them |
| `Metrics.RankedIsProper` | src/pl_platform/evaluation/metrics.py:76-82 | the expected ranked probability score is least exactly at the true probabilities |
| `Metrics.LogLossIsProper` | src/pl_platform/evaluation/metrics.py:54-58 | the expected log loss is least exactly at the true probabilities |
| `ObservationHistory.ValidateCurrentFixtureObservation` | migrations/versions/f0005_step_6_7_current_sync.py:385-454 | the trigger passes exactly when provenance matches, nothing newer exists and the newest earlier observation may be followed |
| `ObservationHistory.Database.constructor` | migrations/versions/f0005_step_6_7_current_sync.py:114-152 | starts from empty tables |
| `ObservationHistory.Database.Commit` | migrations/versions/f0005_step_6_7_current_sync.py:384-460 | a transaction commits exactly when every constraint and every deferred check passes in its final state; otherwise nothing changes |
| `ObservationHistory.AtMostOneNew` | migrations/versions/f0005_step_6_7_current_sync.py:424-429 | a commit adds at most one observation to each source row |
| `ObservationHistory.CommitKeepsLawful` | migrations/versions/f0005_step_6_7_current_sync.py:384-460 | every commit keeps every history moving strictly forward |
| `ObservationHistory.HistoryMovesForward` | migrations/versions/f0005_step_6_7_current_sync.py:384-460 | in every reachable state a later observation was retrieved later, is of the same fixture, and never revives, un-starts, blurs or back-dates an earlier one |
| `ObservationHistory.CommitsExactly` | migrations/versions/f0005_step_6_7_current_sync.py:384-460 | checking each new observation against the newest is enough: a transaction with any number of them commits exactly when it brings at most one to each source row and each follows the whole history of its row |
| `ObservationHistory.OneCommitsExactly` | migrations/versions/f0005_step_6_7_current_sync.py:384-460 | a lone new observation commits exactly when its response was fetched from its source at its retrieval, its row is mapped to its fixture, and for every earlier one of the row it is later, of the same fixture, no less precise or up to date, and in a status that may follow: the same one, any after scheduled or postponed, abandoned after in progress |
| `ObservationHistory.ReachableIsSourced` | migrations/versions/f0005_step_6_7_current_sync.py:384-460 | in every reachable state each observation has the fixtures response it was read from, its own fixture and an unfinished revision of it |
| `ObservationHistory.ReachableIsUnique` | migrations/versions/f0005_step_6_7_current_sync.py:114-152 | in every reachable state no observation identity occurs twice, and no source row is observed twice from one response or at one instant |
| `Registry.RowChecksMean` | migrations/versions/f0002_step_5_5_feature_model.py:721-763 | exactly which rows the null-tolerant checks let in |
| `Registry.NoGapExactly` | migrations/versions/f0002_step_5_5_feature_model.py:942-947 | distinct positive sequences whose greatest is their number are exactly one to n |
| `Registry.ValidateEventChain` | migrations/versions/f0002_step_5_5_feature_model.py:931-976 | the trigger passes exactly chains numbered from a registration whose every link raises no fault |
| `Registry.RegistryDatabase.constructor` | migrations/versions/f0002_step_5_5_feature_model.py:695-771 | starts from empty tables |
| `Registry.RegistryDatabase.Commit` | migrations/versions/f0002_step_5_5_feature_model.py:695-985 | a transaction commits exactly when every constraint and deferred trigger passes; otherwise nothing changes |
| `Registry.ReachableChain` | migrations/versions/f0002_step_5_5_feature_model.py:931-985 | in every reachable state an entry's events are numbered one to n, start with register, are linked to their immediate predecessor, and follow no rejection |
| `Registry.OneMoreCommitsExactly` | migrations/versions/f0002_step_5_5_feature_model.py:721-985 | one more event of a registered entry commits exactly when it is fresh, next in number, linked to the head of its chain, and an acceptance or a rejection that the state of the head allows |
| `Registry.NoPredictionEver` | migrations/versions/f0007_step_7_4_prediction_lifecycle.py:425-456 | no reachable state holds a model prediction, and so none holds an evaluation of one |
| `Registry.NoPredictionPasses` | migrations/versions/f0007_step_7_4_prediction_lifecycle.py:425-450 | no event state lets a prediction through the gate |
| `Registry.GateExactly` | migrations/versions/f0007_step_7_4_prediction_lifecycle.py:425-450 | a prediction passes exactly when it names the last event of its model's chain by identity and digest and that event made the model active |
| `Registry.IntendedExactly` | migrations/versions/f0002_step_5_5_feature_model.py:735-757 | a chain is one of the four intended ones exactly when nothing is accepted at sequence three or later |
| `Registry.AcceptedAgainHasNoFormerState` | migrations/versions/f0002_step_5_5_feature_model.py:742-757 | such an acceptance has a null former state |
| `Registry.AcceptedTwiceCommits` | migrations/versions/f0002_step_5_5_feature_model.py:742-968 | a transaction that commits although its model is accepted twice |
| `Polling.DecisionBounds` | src/pl_platform/automation/polling.py:76-148 | one decision is later than now, within a day, and never past the kickoff or local start still ahead; there is none exactly for a terminal fixture |
| `Polling.ExactPace` | src/pl_platform/automation/polling.py:103-120 | a scheduled exact fixture is polled every five minutes once due, every fifteen within six hours, hourly within two days, every six hours within seven days and daily before, and at its kickoff if that is sooner |
| `Polling.PollsQuicken` | src/pl_platform/automation/polling.py:103-120 | while the kickoff is ahead the wait for the next poll never grows |
| `Polling.DateOnlyPace` | src/pl_platform/automation/polling.py:122-148 | a date-only fixture is polled daily and at the start of its day, hourly on the day and then every six hours, with the matching reason |
| `Polling.ReasonIsState` | src/pl_platform/automation/polling.py:76-120 | the reason of a decision says exactly which state the fixture is in; in progress means a poll after a minute, postponed after six hours |
| `Polling.NextPollIsEarliest` | src/pl_platform/automation/polling.py:46-73 | the plan polls at the earliest decision of any fixture, and not at all exactly when all are terminal |
| `Polling.PlanListsFixtures` | src/pl_platform/automation/polling.py:46-73 | a plan holds one decision for each fixture, ordered by identity |
| `Polling.PollsStep` | src/pl_platform/automation/polling.py:46-148 | iterated polls move strictly forward by at most a day and never jump over a target |
| `Polling.EveryTargetIsPolled` | src/pl_platform/automation/polling.py:46-148 | every scheduled exact kickoff and date-only local start after the first evaluation is itself a poll time, reached after finitely many polls |

## Left out

- HTTP application, routing, health checks, SQL read queries, configuration, logging and command lines: input and output around the core.
- CatBoost, logistic regression and the gradient fit of the Poisson strengths: no exact claim to prove.
- SHA-256, UUIDv5, canonical JSON and the history hash chain of the season loop: identifiers are opaque, so row identity is not part of the leakage theorem.
- Publication of files and manifests, and the lineage checks that compare a canonical dataset's manifest with the registries.
- Rounding to fifteen digits and floating-point error, including overflow checks such as `isfinite`.
- Sampling, ranking and tie-breaking of simulated tables, and score distributions of remaining fixtures.
- Columns that no modelled check reads (identity hashes, venues, object references), and result, batch and standing tables of the synchronisation schema.
- Time-zone awareness of datetimes: every instant is already UTC.
- Predictors.TeamPredictorsOf: the form record also carries win, draw and loss counts that the platform publishes only as rates.
- TemperatureFit.ObjectiveShape: for several predictions, no floor reached at the ends is shown to be enough for one valley, not to be necessary; it is both for one prediction (`OneRowExactly`).
- Calibration.EvaluateExpandingTemperatureCalibration: prediction and dataset identities, cutoffs and kickoffs are not carried along; sources are taken in their canonical order instead of being sorted.
- GoldenSection.Search: assumes the ratio is exact; that a real number with that property exists is not proved.
- RateLimiter.SlidingWindowRateLimiter.Evaluate: threads are not modelled; the lock makes evaluations happen one after another, and they are listed in that order.
