# optimization: a Dafny model

This project models the core of the Java library `optimization`. The library
minimises a caller's cost function. The function is defined over vectors of
the caller's own element type `T`, and its domain is unknown in advance.

- An `Optimizator` session wraps `T` in a `TypeWrapper`. The wrapper converts
  coordinates to reals and back, and remembers every conversion.
- Each call of `optimize` builds an `UndeterminateCostFunc` and an
  `OptimizationProcedure` under the session's `Config`. It then runs the
  procedure from every start point the caller gives.
- The procedure grows a trajectory of points. Each point is one step of the
  selected algorithm, pulled back into the domain. It stops when the
  algorithm's stop criteria fire.
- The domain search pulls a point outside the domain back towards a point
  inside by a bounded bisection-like search. Its answers are memoised.
- There are four algorithms: gradient descent, Kaczmarz's row projection,
  a one-dimensional cubic-approximation search, and gradient-Kaczmarz
  training with the M1 stop rule.
- Each start leaves a shot in a `Result`: the start point, the time, the
  optimised decision and the trajectory, converted back to `T`. One call of
  `optimize` reuses one procedure for all its start points, so every shot of
  that call carries the procedure's first start point and the trajectory
  accumulated so far. Shots can be listed sorted by final cost and/or time.
- The session's `History` keeps the latest `Result` of each configuration.

Doubles are exact reals here. `Math.sqrt` is a caller-supplied function,
constrained where needed by `MathHelp.IsSqrt`.

Java's `null` is `Option.None`. A thrown exception is a `Result.Err` that
names its class, `IllegalArgument` or `Runtime`.

Objects whose fields the library updates in place are classes:
- the cost function with its memo table;
- the wrapper with its conversion maps;
- the algorithms with their parameters and stop criteria;
- the procedure with its trajectory;
- the result, the history and the session.

Loops are methods proved against the functions that specify them.

## Model

| member | source | states |
|---|---|---|
| MathHelp.Norm | src/main/java/ru/mipt/optimization/supportive/MathHelp.java:30-36 | the loop's result is the root of the sum of squares; with a square-root oracle it is non-negative and its square is the sum of squares |
| MathHelp.NormFacts | src/main/java/ru/mipt/optimization/supportive/MathHelp.java:30-36 | the sum of squares is non-negative and is zero exactly for the zero vector; the norm is then zero exactly for the zero vector |
| MathHelp.SumOfSquaresZero | src/main/java/ru/mipt/optimization/supportive/MathHelp.java:30-36 | the sum of squares is zero if and only if every coordinate is zero |
| MathHelp.GetDistance | src/main/java/ru/mipt/optimization/supportive/MathHelp.java:18-24 | a null argument or a dimension mismatch, and nothing else, gives IllegalArgument; a distance is non-negative and zero exactly when the two vectors are equal |
| MathHelp.Normal | src/main/java/ru/mipt/optimization/supportive/MathHelp.java:38-41 | the normalised vector keeps the dimension |
| MathHelp.NormalIsUnit | src/main/java/ru/mipt/optimization/supportive/MathHelp.java:38-41 | the zero vector normalises to the zero twin vector; any other vector to a vector of norm 1 |
| MathHelp.AddDistance | src/main/java/ru/mipt/optimization/supportive/MathHelp.java:26-28 | the moved point keeps the dimension |
| MathHelp.AddDistanceOffset | src/main/java/ru/mipt/optimization/supportive/MathHelp.java:26-28 | the move is the normalised direction scaled by the distance |
| MathHelp.AddDistanceMovesBy | src/main/java/ru/mipt/optimization/supportive/MathHelp.java:26-28 | towards a direction other than the point itself, the point moves by exactly the absolute distance |
| MathHelp.AddDistanceToItself | src/main/java/ru/mipt/optimization/supportive/MathHelp.java:26-28 | towards the point itself, the point does not move |
| MathHelp.Twin | src/main/java/ru/mipt/optimization/supportive/MathHelp.java:49-54 | a vector of the given dimension whose every element is the given value |
| MathHelp.GetTwinVector | src/main/java/ru/mipt/optimization/supportive/MathHelp.java:49-54 | the array-filling loop returns exactly that twin vector |
| MathHelp.ZeroIsTwin | src/main/java/ru/mipt/optimization/supportive/MathHelp.java:39 | a vector is zero if and only if it is the zero twin vector of its dimension |
| Configurations.NewConfig | src/main/java/ru/mipt/optimization/entity/inOut/Config.java:33-42 | a null algorithm, a range that is not a pair or an inverted pair, and nothing else, gives IllegalArgument; otherwise the range and algorithm are kept and accuracy 0 becomes 0.01 |
| Configurations.DefaultConfig | src/main/java/ru/mipt/optimization/entity/inOut/Config.java:49-53 | accuracy 0.01, range [-10000, 10000], gradient descent as the algorithm |
| Configurations.ConfigWith | src/main/java/ru/mipt/optimization/entity/inOut/Config.java:59-63 | default accuracy and range with the given algorithm |
| Configurations.IntValue | src/main/java/ru/mipt/optimization/entity/inOut/Config.java:95 | `intValue()` truncates towards zero and saturates at the int bounds |
| Configurations.MaxRecursionNumber | src/main/java/ru/mipt/optimization/entity/inOut/Config.java:92-96 | never above 400; exactly 400 when the range spans 400 steps or more; otherwise the whole number of steps for a positive accuracy |
| Configurations.DefaultRecursionCap | src/main/java/ru/mipt/optimization/entity/inOut/Config.java:14-16 | the default settings give the full cap of 400 |
| Configurations.NegativeAccuracyCap | src/main/java/ru/mipt/optimization/entity/inOut/Config.java:40 | a negative accuracy, which the constructor accepts, gives a cap of at most 0 |
| StopCriteria.IsAchieved | src/main/java/ru/mipt/optimization/entity/optimizationProcedure/StopCriteria.java:19-28 | never achieved with fewer than two trajectory points; from two points on, achieved when the subclass rule holds or the cap of 1000000 points is reached, and only then |
| StopCriteria.BasicCriteria | src/main/java/ru/mipt/optimization/entity/optimizationProcedure/StopCriteria.java:26-28 | holds exactly when the trajectory has reached 1000000 points |
| CostFunctions.UndeterminateCostFunc.constructor | src/main/java/ru/mipt/optimization/entity/optimizationProcedure/costFunction/UndeterminateCostFunc.java:31-33 | the rule, dimension and the config's accuracy, range and recursion cap are stored; the memo table starts empty and correct |
| CostFunctions.UndeterminateCostFunc.MemoisedUpdate | src/main/java/ru/mipt/optimization/entity/optimizationProcedure/costFunction/UndeterminateCostFunc.java:20 | storing a search answer under its key keeps every memoised answer equal to the answer a fresh search gives |
| CostFunctions.UndeterminateCostFunc.Clamp | src/main/java/ru/mipt/optimization/entity/optimizationProcedure/costFunction/UndeterminateCostFunc.java:119 | each coordinate is moved into the search range, and a coordinate already inside is kept |
| CostFunctions.UndeterminateCostFunc.Search | src/main/java/ru/mipt/optimization/entity/optimizationProcedure/costFunction/UndeterminateCostFunc.java:96-112 | the answer is the memoised entry or a point in the domain; the call count never passes the recursion cap by more than one call |
| CostFunctions.UndeterminateCostFunc.DomainSearch | src/main/java/ru/mipt/optimization/entity/optimizationProcedure/costFunction/UndeterminateCostFunc.java:96-112 | the recursive method leaves exactly the memo entry and call count of the search it is proved against |
| CostFunctions.UndeterminateCostFunc.NearestDomainPoint | src/main/java/ru/mipt/optimization/entity/optimizationProcedure/costFunction/UndeterminateCostFunc.java:114-123 | the memoised answer has the point's dimension and is the direction point or lies in the domain |
| CostFunctions.UndeterminateCostFunc.SearchCalls | src/main/java/ru/mipt/optimization/entity/optimizationProcedure/costFunction/UndeterminateCostFunc.java:97-98 | the search makes at most the recursion cap plus one calls |
| CostFunctions.UndeterminateCostFunc.InitiateSearch | src/main/java/ru/mipt/optimization/entity/optimizationProcedure/costFunction/UndeterminateCostFunc.java:114-123 | the memo table gains exactly that answer under the searched pair; the call counter is reset and then counts the search's calls |
| CostFunctions.UndeterminateCostFunc.NearestDomainPointResult | src/main/java/ru/mipt/optimization/entity/optimizationProcedure/costFunction/UndeterminateCostFunc.java:37-49 | IllegalArgument exactly for a wrong dimension or a point already in the domain; otherwise a point of the right dimension that is the direction point or lies in the domain |
| CostFunctions.UndeterminateCostFunc.GetNearestDomainPoint | src/main/java/ru/mipt/optimization/entity/optimizationProcedure/costFunction/UndeterminateCostFunc.java:37-49 | returns the specified answer; a memoised pair is answered without a new search, a new pair is searched once and memoised |
| CostFunctions.UndeterminateCostFunc.Shifted | src/main/java/ru/mipt/optimization/entity/optimizationProcedure/costFunction/UndeterminateCostFunc.java:127-132 | the accuracy is added to the chosen coordinate, or to every coordinate when none is chosen, and the rest are kept |
| CostFunctions.UndeterminateCostFunc.FillShifted | src/main/java/ru/mipt/optimization/entity/optimizationProcedure/costFunction/UndeterminateCostFunc.java:128-132 | the array loop builds exactly the shifted point |
| CostFunctions.UndeterminateCostFunc.AddDeltaPoint | src/main/java/ru/mipt/optimization/entity/optimizationProcedure/costFunction/UndeterminateCostFunc.java:127-134 | the shifted point when it lies in the domain; otherwise the start point or a domain point found towards it |
| CostFunctions.UndeterminateCostFunc.AddDelta | src/main/java/ru/mipt/optimization/entity/optimizationProcedure/costFunction/UndeterminateCostFunc.java:127-134 | returns that point and only adds memo entries |
| CostFunctions.UndeterminateCostFunc.DifferenceQuotient | src/main/java/ru/mipt/optimization/entity/optimizationProcedure/costFunction/UndeterminateCostFunc.java:66-68 | the quotient is never zero |
| CostFunctions.UndeterminateCostFunc.DifferenceQuotientScaled | src/main/java/ru/mipt/optimization/entity/optimizationProcedure/costFunction/UndeterminateCostFunc.java:66-68 | the quotient times the accuracy gives the difference back, or 0.00001 for a zero difference |
| CostFunctions.UndeterminateCostFunc.PartialDerivativeResult | src/main/java/ru/mipt/optimization/entity/optimizationProcedure/costFunction/UndeterminateCostFunc.java:52-69 | IllegalArgument exactly for a wrong dimension, a direction out of bounds or a point outside the domain; otherwise the non-zero forward difference quotient at the shifted point |
| CostFunctions.UndeterminateCostFunc.PartialDerivative | src/main/java/ru/mipt/optimization/entity/optimizationProcedure/costFunction/UndeterminateCostFunc.java:52-69 | returns the specified result and only adds memo entries |
| CostFunctions.UndeterminateCostFunc.GradientResult | src/main/java/ru/mipt/optimization/entity/optimizationProcedure/costFunction/UndeterminateCostFunc.java:72-80 | IllegalArgument exactly for a wrong dimension or a non-empty point outside the domain; otherwise entry i is the partial derivative along i |
| CostFunctions.UndeterminateCostFunc.Gradient | src/main/java/ru/mipt/optimization/entity/optimizationProcedure/costFunction/UndeterminateCostFunc.java:72-80 | the loop returns the specified gradient and only adds memo entries |
| CostFunctions.UndeterminateCostFunc.GradientNeverZero | src/main/java/ru/mipt/optimization/entity/optimizationProcedure/costFunction/UndeterminateCostFunc.java:67 | because of the zero-difference floor, a gradient of positive dimension is never the zero vector |
| CostFunctions.UndeterminateCostFunc.SubGradientsResult | src/main/java/ru/mipt/optimization/entity/optimizationProcedure/costFunction/UndeterminateCostFunc.java:83-93 | n copies of the gradient at the point shifted along every coordinate, or IllegalArgument exactly when the dimension is wrong or that gradient fails |
| CostFunctions.UndeterminateCostFunc.SubGradients | src/main/java/ru/mipt/optimization/entity/optimizationProcedure/costFunction/UndeterminateCostFunc.java:83-93 | the loop returns the specified list and only adds memo entries |
| PureAlgorithms.Abs | src/main/java/ru/mipt/optimization/algorithms/PureAlgorithm.java:126 | `Math.abs` is non-negative and is x or -x |
| PureAlgorithms.IterationResult | src/main/java/ru/mipt/optimization/algorithms/PureAlgorithm.java:22-29 | x + step when the cost is defined there; otherwise the nearest domain point towards x; from a point in the domain the result is in the domain; a step of another dimension is rejected |
| PureAlgorithms.ConductOneIteration | src/main/java/ru/mipt/optimization/algorithms/PureAlgorithm.java:22-29 | returns that result and only adds memo entries to the cost function |
| PureAlgorithms.CommonStoppingOf | src/main/java/ru/mipt/optimization/algorithms/PureAlgorithm.java:88-93 | the four flags are stored and the error is the default 0.1 |
| PureAlgorithms.CommonStoppingWithErrorAsWritten | src/main/java/ru/mipt/optimization/algorithms/PureAlgorithm.java:102-106 | as written, the error is stored but all four flags stay false |
| PureAlgorithms.CommonStoppingWithError | src/main/java/ru/mipt/optimization/algorithms/PureAlgorithm.java:102-106 | as intended: the four-flag object with the given error |
| PureAlgorithms.DefaultCommonStopping | src/main/java/ru/mipt/optimization/algorithms/PureAlgorithm.java:59-61 | all four checks switched on, error 0.1 |
| PureAlgorithms.ConfiguredCommonStopping | src/main/java/ru/mipt/optimization/algorithms/PureAlgorithm.java:49-54 | IllegalArgument exactly when there are not four flags; otherwise criteria with the flags in their documented order and the given error, as the corrected five-argument constructor builds them (see Left out and Findings) |
| PureAlgorithms.DecisionProximity | src/main/java/ru/mipt/optimization/algorithms/PureAlgorithm.java:124-127 | holds exactly when the derivative at the last point lies within plus or minus epsilon; never for a negative epsilon |
| PureAlgorithms.CostFuncChangeRate | src/main/java/ru/mipt/optimization/algorithms/PureAlgorithm.java:134-141 | holds only for a non-negative epsilon; when the last two costs are equal, it holds exactly then |
| PureAlgorithms.ArgumentsChangeRate | src/main/java/ru/mipt/optimization/algorithms/PureAlgorithm.java:143-157 | a negative delta = sqrt(100 epsilon) fails every non-empty point; when the last two points coincide, it holds exactly when the point is empty or delta is non-negative |
| PureAlgorithms.Specified | src/main/java/ru/mipt/optimization/algorithms/PureAlgorithm.java:108-120 | with the three checks on, decision proximity alone or both change rates together satisfy the criteria; the constraints check always passes |
| PureAlgorithms.CommonAchieved | src/main/java/ru/mipt/optimization/entity/optimizationProcedure/StopCriteria.java:19-24 | never with fewer than two points; from two points on, exactly when the common rule holds or the cap of 1000000 points is reached |
| PureAlgorithms.FirstError | src/main/java/ru/mipt/optimization/algorithms/PureAlgorithm.java:49 | the single error a pure algorithm takes: the first given one, or 0.1 when none is given |
| PureAlgorithms.ConstraintsFulfillment | src/main/java/ru/mipt/optimization/algorithms/PureAlgorithm.java:130-132 | the constraints check always passes |
| PureAlgorithms.CheckForArgumentsChangeRate | src/main/java/ru/mipt/optimization/algorithms/PureAlgorithm.java:143-157 | the scan with early exit answers true exactly when every coordinate moved by at most delta (1 + abs(x_k[i])) |
| PureAlgorithms.SpecifiedCriteria | src/main/java/ru/mipt/optimization/algorithms/PureAlgorithm.java:109-120 | the method, which scans the arguments only when that check is on, gives the value of the criteria |
| PureAlgorithms.SpecifiedIgnoresConstraints | src/main/java/ru/mipt/optimization/algorithms/PureAlgorithm.java:109-132 | the criteria hold exactly when decision proximity passes or both rate checks pass; the constraints flag never changes the answer |
| PureAlgorithms.SwitchedOffChecksPass | src/main/java/ru/mipt/optimization/algorithms/PureAlgorithm.java:110-119 | with decision proximity off, or both rate checks off, the criteria are met at every consultation |
| PureAlgorithms.StationaryPassesRateChecks | src/main/java/ru/mipt/optimization/algorithms/PureAlgorithm.java:134-157 | a trajectory whose last two points are equal passes both rate checks for a non-negative error |
| PureAlgorithms.AsWrittenStopsAtFirstConsultation | src/main/java/ru/mipt/optimization/algorithms/PureAlgorithm.java:102-119 | criteria built by the five-argument constructor as written say "stop" at the first consultation, whatever flags were passed |
| PureAlgorithms.AsWrittenDiffersFromIntended | src/main/java/ru/mipt/optimization/algorithms/PureAlgorithm.java:102-119 | on a trajectory whose derivative and cost change are still too large, the intended criteria say "continue" and the as-written ones say "stop" |
| Queues.Queue.constructor | src/main/java/ru/mipt/optimization/algorithms/GradientKaczmarzTraining.java:120-121 | a new queue is empty |
| Queues.Queue.Add | src/main/java/ru/mipt/optimization/algorithms/GradientKaczmarzTraining.java:122-125 | the value goes to the tail |
| Queues.Queue.Peek | src/main/java/ru/mipt/optimization/algorithms/GradientKaczmarzTraining.java:289-290 | the head, or null exactly when the queue is empty |
| Queues.Queue.Remove | src/main/java/ru/mipt/optimization/algorithms/GradientKaczmarzTraining.java:296-297 | the head is taken off and returned; an empty queue fails with a runtime error and is left as it was |
| VaryingParameters.DefaultMk | src/main/java/ru/mipt/optimization/algorithms/VaryingParams.java:41-47 | nine thresholds m_j with m_j (j + 1) = 100 |
| VaryingParameters.DefaultEk | src/main/java/ru/mipt/optimization/algorithms/VaryingParams.java:41-47 | eleven thresholds e_t with e_t (t + 9) = 1 |
| VaryingParameters.CreateDefaultEkMk | src/main/java/ru/mipt/optimization/algorithms/VaryingParams.java:41-47 | the loop over j = 0..19 appends exactly the default m_k values to one queue and the default e_k values to the other |
| VaryingParameters.VaryingParams.WithQueues | src/main/java/ru/mipt/optimization/algorithms/VaryingParams.java:20-36 | the field initialisers, and the given queues themselves stored |
| VaryingParameters.VaryingParams.constructor | src/main/java/ru/mipt/optimization/algorithms/VaryingParams.java:20-38 | the field initialisers, and no queues |
| GradientKaczmarzTrainingAlgorithm.JavaRound | src/main/java/ru/mipt/optimization/algorithms/GradientKaczmarzTraining.java:116 | `Math.round` is the floor of x + 1/2, saturated to the long range |
| GradientKaczmarzTrainingAlgorithm.ToInt32 | src/main/java/ru/mipt/optimization/algorithms/GradientKaczmarzTraining.java:116-117 | the `(int)` narrowing and the int product 2k + 2 keep the value modulo 2^32 within the int range, and leave an int-range value alone |
| GradientKaczmarzTrainingAlgorithm.RoundCount | src/main/java/ru/mipt/optimization/algorithms/GradientKaczmarzTraining.java:116 | always an int; when e + 1/2 lies in the int range, the integer k with k <= e + 1/2 < k + 1, that is e rounded half up |
| GradientKaczmarzTrainingAlgorithm.ErrorQueues | src/main/java/ru/mipt/optimization/algorithms/GradientKaczmarzTraining.java:113-125 | IllegalArgument exactly when there are fewer than two errors or not 2k + 2 of them; otherwise the entries from index 2 on split into e_k then m_k at index k + 2 |
| GradientKaczmarzTrainingAlgorithm.WellFormedErrorsSplitEvenly | src/main/java/ru/mipt/optimization/algorithms/GradientKaczmarzTraining.java:93-118 | with k written as a whole number and 2k + 2 errors, e_k and m_k get k values each |
| GradientKaczmarzTrainingAlgorithm.FillQueues | src/main/java/ru/mipt/optimization/algorithms/GradientKaczmarzTraining.java:120-125 | the loop puts every error from index 2 before the bound into e_k and the rest into m_k, in order |
| GradientKaczmarzTrainingAlgorithm.ConfiguredBase | src/main/java/ru/mipt/optimization/algorithms/GradientKaczmarzTraining.java:127-147 | one flag must be false and gives no base criteria; six flags give common criteria with the first error, all checks off unless the first flag is set, else the next five flags (with the corrected constructor's semantics); any other count is IllegalArgument |
| GradientKaczmarzTrainingAlgorithm.GradientKaczmarzTraining.CommonFlags | src/main/java/ru/mipt/optimization/algorithms/GradientKaczmarzTraining.java:134-141 | the loop's array is all false unless the first flag is set, and then holds the other five flags |
| GradientKaczmarzTrainingAlgorithm.GradientKaczmarzTraining.ConfigureStopCriteria | src/main/java/ru/mipt/optimization/algorithms/GradientKaczmarzTraining.java:113-148 | fails exactly when the errors or the flags are rejected, keeping the old criteria; otherwise fresh M1 criteria over the split queues and the configured base criteria, with zeroed counters |
| GradientKaczmarzTrainingAlgorithm.SubgradCompare | src/main/java/ru/mipt/optimization/algorithms/GradientKaczmarzTraining.java:195-211 | -1 exactly when only the first vector does not point along the direction, 1 exactly when only the second does not |
| GradientKaczmarzTrainingAlgorithm.Against | src/main/java/ru/mipt/optimization/algorithms/GradientKaczmarzTraining.java:200-205 | the subgradients not pointing along the direction |
| GradientKaczmarzTrainingAlgorithm.Along | src/main/java/ru/mipt/optimization/algorithms/GradientKaczmarzTraining.java:200-205 | the subgradients pointing along the direction |
| GradientKaczmarzTrainingAlgorithm.PartitionPermutes | src/main/java/ru/mipt/optimization/algorithms/GradientKaczmarzTraining.java:177 | the two groups together are a permutation of the subgradients |
| GradientKaczmarzTrainingAlgorithm.SortedSubgradients | src/main/java/ru/mipt/optimization/algorithms/GradientKaczmarzTraining.java:176-177 | the sorted list is a permutation of the subgradients and is ordered by the comparator |
| GradientKaczmarzTrainingAlgorithm.UniformSubgradientsUnchanged | src/main/java/ru/mipt/optimization/algorithms/GradientKaczmarzTraining.java:176-178 | subgradients that are all one vector come out of the sort unchanged |
| GradientKaczmarzTrainingAlgorithm.NoneAgainst | src/main/java/ru/mipt/optimization/algorithms/GradientKaczmarzTraining.java:200-205 | copies of a vector pointing along the direction contain none against it |
| GradientKaczmarzTrainingAlgorithm.AllAlong | src/main/java/ru/mipt/optimization/algorithms/GradientKaczmarzTraining.java:200-205 | copies of a vector pointing along the direction are all along it |
| GradientKaczmarzTrainingAlgorithm.AllAgainst | src/main/java/ru/mipt/optimization/algorithms/GradientKaczmarzTraining.java:200-205 | copies of a vector not pointing along the direction are all against it |
| GradientKaczmarzTrainingAlgorithm.NoneAlong | src/main/java/ru/mipt/optimization/algorithms/GradientKaczmarzTraining.java:200-205 | copies of a vector not pointing along the direction contain none along it |
| GradientKaczmarzTrainingAlgorithm.PickGradient | src/main/java/ru/mipt/optimization/algorithms/GradientKaczmarzTraining.java:175-179 | the gradient itself unless it points along the direction; then the first sorted subgradient, failing exactly when the subgradients fail |
| GradientKaczmarzTrainingAlgorithm.GradientKaczmarzTraining.PickTrainingGradient | src/main/java/ru/mipt/optimization/algorithms/GradientKaczmarzTraining.java:175-179 | the method returns that gradient and only adds memo entries |
| GradientKaczmarzTrainingAlgorithm.TrainingVector | src/main/java/ru/mipt/optimization/algorithms/GradientKaczmarzTraining.java:189-193 | the training vector keeps the dimension |
| GradientKaczmarzTrainingAlgorithm.TrainingVectorAgrees | src/main/java/ru/mipt/optimization/algorithms/GradientKaczmarzTraining.java:189-193 | the training vector has a positive dot product with a non-zero gradient; it is the gradient itself unless the gradient turns against the previous one, and then its dot product with the previous gradient is twice the gradient's |
| GradientKaczmarzTrainingAlgorithm.TrainingVectorReflects | src/main/java/ru/mipt/optimization/algorithms/GradientKaczmarzTraining.java:190-191 | against the previous gradient, the training vector is the gradient minus its projection step onto the previous gradient |
| GradientKaczmarzTrainingAlgorithm.TrainedDirection | src/main/java/ru/mipt/optimization/algorithms/GradientKaczmarzTraining.java:181 | the trained direction keeps the dimension and has dot product 1 with the gradient |
| GradientKaczmarzTrainingAlgorithm.MovedRound | src/main/java/ru/mipt/optimization/algorithms/GradientKaczmarzTraining.java:181-185 | a move past a non-zero gradient: the direction trained on it and the step -gamma times that direction |
| GradientKaczmarzTrainingAlgorithm.InnerStep | src/main/java/ru/mipt/optimization/algorithms/GradientKaczmarzTraining.java:169-186 | failures are IllegalArgument and include every failed gradient; stopping happens only for a point without coordinates; a move trains on the picked gradient, with direction-gradient dot product 1 and step -gamma times the direction |
| GradientKaczmarzTrainingAlgorithm.StationaryOnlyWithoutCoordinates | src/main/java/ru/mipt/optimization/algorithms/GradientKaczmarzTraining.java:171-174 | the gradient is the zero vector only at a point without coordinates |
| GradientKaczmarzTrainingAlgorithm.PickedGradientNonZero | src/main/java/ru/mipt/optimization/algorithms/GradientKaczmarzTraining.java:176-178 | the gradient a round trains on is not zero when the gradient at x is not |
| GradientKaczmarzTrainingAlgorithm.InnerStepMoves | src/main/java/ru/mipt/optimization/algorithms/GradientKaczmarzTraining.java:169-186 | past a non-zero gradient, the round is exactly the move trained on the picked gradient |
| GradientKaczmarzTrainingAlgorithm.InnerStepStationary | src/main/java/ru/mipt/optimization/algorithms/GradientKaczmarzTraining.java:171-174 | a round reports done if and only if the gradient at x is the zero vector |
| GradientKaczmarzTrainingAlgorithm.InnerStepFails | src/main/java/ru/mipt/optimization/algorithms/GradientKaczmarzTraining.java:169-186 | past a non-zero gradient, a round fails exactly on a direction or previous gradient of another dimension, or on subgradients that are needed and fail |
| GradientKaczmarzTrainingAlgorithm.FreshRoundFollowsGradient | src/main/java/ru/mipt/optimization/algorithms/GradientKaczmarzTraining.java:162-167 | a new outer round from zero vectors moves along g/abs(g)^2, the steepest-descent direction |
| GradientKaczmarzTrainingAlgorithm.GradientKaczmarzTraining.InnerLoop | src/main/java/ru/mipt/optimization/algorithms/GradientKaczmarzTraining.java:169-186 | the new direction, previous gradient, done flag and result are those of the round it is proved against; a success leaves the state ready for the M1 rule |
| GradientKaczmarzTrainingAlgorithm.GradientKaczmarzTraining.Train | src/main/java/ru/mipt/optimization/algorithms/GradientKaczmarzTraining.java:175-186 | the part past a non-zero gradient leaves the same state as the round |
| GradientKaczmarzTrainingAlgorithm.GradientKaczmarzTraining.Advance | src/main/java/ru/mipt/optimization/algorithms/GradientKaczmarzTraining.java:182-185 | stores the trained direction and the gradient, and returns -gamma times the direction |
| GradientKaczmarzTrainingAlgorithm.GradientKaczmarzTraining.OuterLoop | src/main/java/ru/mipt/optimization/algorithms/GradientKaczmarzTraining.java:162-167 | the round from the zero direction and zero previous gradient |
| GradientKaczmarzTrainingAlgorithm.GradientKaczmarzTraining.AlgorithmStep | src/main/java/ru/mipt/optimization/algorithms/GradientKaczmarzTraining.java:49-51 | a new outer round when `anew` is set, otherwise an inner round from the stored direction and gradient |
| GradientKaczmarzTrainingAlgorithm.GradientKaczmarzTraining.IsAble | src/main/java/ru/mipt/optimization/algorithms/GradientKaczmarzTraining.java:54-56 | every cost function is accepted |
| GradientKaczmarzTrainingAlgorithm.GradientKaczmarzTraining.SetParams | src/main/java/ru/mipt/optimization/algorithms/GradientKaczmarzTraining.java:68-73 | true exactly for three values, which set the cubic step, the Kaczmarz relaxation and the cubic stop error; otherwise nothing changes |
| GradientKaczmarzTrainingAlgorithm.GradientKaczmarzTraining.SetDefaultParameters | src/main/java/ru/mipt/optimization/algorithms/GradientKaczmarzTraining.java:81-88 | fresh inner algorithms with their defaults and fresh default M1 criteria; the training state is kept |
| GradientKaczmarzTrainingAlgorithm.GradientKaczmarzTraining.constructor | src/main/java/ru/mipt/optimization/algorithms/GradientKaczmarzTraining.java:28-32 | the field initialisers, then the default parameters |
| GradientKaczmarzTrainingAlgorithm.M1Stopping.constructor | src/main/java/ru/mipt/optimization/algorithms/GradientKaczmarzTraining.java:251-265 | the queues and base criteria are stored, with zeroed counters |
| GradientKaczmarzTrainingAlgorithm.CreateDefaultM1Stopping | src/main/java/ru/mipt/optimization/algorithms/GradientKaczmarzTraining.java:150-160 | fresh queues holding the default e_k and m_k, and common criteria with every check on and error 0.1 as the base |
| GradientKaczmarzTrainingAlgorithm.Guide | src/main/java/ru/mipt/optimization/algorithms/GradientKaczmarzTraining.java:287-299 | the consultation count grows by one and the sum of 1/abs(g)^2 grows; the outer round ends exactly when 1/sqrt(sum) < e_k or the round has lasted more than m_k consultations, and then both queue heads are taken |
| GradientKaczmarzTrainingAlgorithm.RootRuleWithoutRoot | src/main/java/ru/mipt/optimization/algorithms/GradientKaczmarzTraining.java:292 | 1/sqrt(s) < e holds exactly when e > 0 and s e^2 > 1 |
| GradientKaczmarzTrainingAlgorithm.GradientKaczmarzTraining.GuideAlgorithm | src/main/java/ru/mipt/optimization/algorithms/GradientKaczmarzTraining.java:287-299 | the counters, queues and `anew` flag become those of the consultation it is proved against |
| GradientKaczmarzTrainingAlgorithm.GradientKaczmarzTraining.SpecifiedCriteria | src/main/java/ru/mipt/optimization/algorithms/GradientKaczmarzTraining.java:268-273 | true at once, with nothing changed, when done or a queue is empty; otherwise one consultation, then true exactly when the base criteria exist and are achieved |
| KaczmarzAlgorithm.LinearStep | src/main/java/ru/mipt/optimization/algorithms/Kaczmarz.java:32-38 | IllegalArgument exactly for a row of another dimension; otherwise the row scaled by (b_i - a_i.x)/abs(a_i)^2 |
| KaczmarzAlgorithm.LinearStepSolvesRow | src/main/java/ru/mipt/optimization/algorithms/Kaczmarz.java:32-38 | the step lands on the hyperplane a_i.x = b_i, and is zero exactly when x is already on it |
| KaczmarzAlgorithm.TrainingStep | src/main/java/ru/mipt/optimization/algorithms/Kaczmarz.java:32-38 | the four-argument training form keeps the dimension and also lands on the hyperplane a.x = b |
| KaczmarzAlgorithm.TrainingStepGeneralisesLinearStep | src/main/java/ru/mipt/optimization/algorithms/Kaczmarz.java:32-38 | with the training vector equal to the row, the training form is the linear step |
| KaczmarzAlgorithm.GradientStep | src/main/java/ru/mipt/optimization/algorithms/Kaczmarz.java:72-74 | fails exactly when the gradient fails; otherwise x plus the step is orthogonal to the gradient |
| KaczmarzAlgorithm.Kaczmarz.AlgorithmStep | src/main/java/ru/mipt/optimization/algorithms/Kaczmarz.java:72-74 | the method returns that step and only adds memo entries |
| KaczmarzAlgorithm.Kaczmarz.constructor | src/main/java/ru/mipt/optimization/algorithms/Kaczmarz.java:46-50 | relaxation 0.2 and the default common criteria |
| KaczmarzAlgorithm.Kaczmarz.SetDefaultParameters | src/main/java/ru/mipt/optimization/algorithms/Kaczmarz.java:46-50 | relaxation 0.2 and the default common criteria |
| KaczmarzAlgorithm.Kaczmarz.SetParams | src/main/java/ru/mipt/optimization/algorithms/Kaczmarz.java:59-64 | true exactly for one value, which becomes the relaxation parameter; otherwise it is kept |
| KaczmarzAlgorithm.Kaczmarz.IsAble | src/main/java/ru/mipt/optimization/algorithms/Kaczmarz.java:40-44 | no cost function is accepted |
| KaczmarzAlgorithm.Kaczmarz.ConfigureStopCriteria | src/main/java/ru/mipt/optimization/algorithms/PureAlgorithm.java:49-54 | fails exactly when the four-flag configuration fails, keeping the old criteria; otherwise the configured criteria, built by the corrected constructor |
| GradientDescentAlgorithm.Probe | src/main/java/ru/mipt/optimization/algorithms/GradientDescent.java:28-33 | the j-th probe keeps the dimension |
| GradientDescentAlgorithm.FirstDefinedProbe | src/main/java/ru/mipt/optimization/algorithms/GradientDescent.java:27-35 | the first probe index from j at which the cost is defined, or 100 when there is none |
| GradientDescentAlgorithm.ProbeValue | src/main/java/ru/mipt/optimization/algorithms/GradientDescent.java:27-35 | null exactly when no probe with j = 1..99 is in the domain; otherwise the cost at the first of those probes that is in the domain |
| GradientDescentAlgorithm.GradientDescent.Walk | src/main/java/ru/mipt/optimization/algorithms/GradientDescent.java:24-35 | the probe loop returns exactly that value |
| GradientDescentAlgorithm.Difference | src/main/java/ru/mipt/optimization/algorithms/GradientDescent.java:36-39 | never zero: 0.1 when a walk found nothing, 0.00001 for equal values, otherwise fPlus - fMinus |
| GradientDescentAlgorithm.DescentStep | src/main/java/ru/mipt/optimization/algorithms/GradientDescent.java:17-45 | the step has x's dimension, every coordinate is the difference over 10, and it is never zero for a point with coordinates |
| GradientDescentAlgorithm.GradientDescent.FilledStep | src/main/java/ru/mipt/optimization/algorithms/GradientDescent.java:41-44 | the array loop gives the vector with every coordinate equal to the value |
| GradientDescentAlgorithm.GradientDescent.AlgorithmStep | src/main/java/ru/mipt/optimization/algorithms/GradientDescent.java:17-45 | the method returns exactly the specified step and changes nothing |
| GradientDescentAlgorithm.GradientDescent.constructor | src/main/java/ru/mipt/optimization/algorithms/GradientDescent.java:47-50 | only the two rate checks are on |
| GradientDescentAlgorithm.GradientDescent.SetDefaultParameters | src/main/java/ru/mipt/optimization/algorithms/GradientDescent.java:47-50 | only the two rate checks are on |
| GradientDescentAlgorithm.GradientDescent.IsAble | src/main/java/ru/mipt/optimization/algorithms/GradientDescent.java:52-56 | every cost function is accepted |
| GradientDescentAlgorithm.GradientDescent.ConfigureStopCriteria | src/main/java/ru/mipt/optimization/algorithms/PureAlgorithm.java:49-54 | fails exactly when the four-flag configuration fails, keeping the old criteria; otherwise the configured criteria, built by the corrected constructor |
| CubicApproximationAlgorithm.ErrorOf | src/main/java/ru/mipt/optimization/algorithms/CubicApproximation.java:38 | the error of the installed criteria: the simple criteria's own error, or the common criteria's epsilon |
| CubicApproximationAlgorithm.Bracket | src/main/java/ru/mipt/optimization/algorithms/CubicApproximation.java:26-35 | for a negative derivative the probe is x + h and the bracket [x, x + h]; otherwise the probe is x - h and the bracket [x - h, x]; the bracket is ordered for h >= 0 |
| CubicApproximationAlgorithm.CubicApproximation.NarrowBracket | src/main/java/ru/mipt/optimization/algorithms/CubicApproximation.java:38-44 | a bracket already within the error is returned unchanged; a result is within the error, and b either stays put or meets a; memo entries are only added |
| CubicApproximationAlgorithm.CubicApproximation.AlgorithmStep | src/main/java/ru/mipt/optimization/algorithms/CubicApproximation.java:22-47 | derivative failures are passed on; when the derivatives at x and at the probe do not have opposite signs the probe point is returned and done is untouched; otherwise the search is done and returns the midpoint of a bracket narrowed to within the error |
| CubicApproximationAlgorithm.CubicApproximation.constructor | src/main/java/ru/mipt/optimization/algorithms/CubicApproximation.java:17-19 | h = 0.5, not done, and the inherited default criteria |
| CubicApproximationAlgorithm.CubicApproximation.SetDefaultParameters | src/main/java/ru/mipt/optimization/algorithms/PureAlgorithm.java:59-61 | the inherited default criteria; h and done are kept |
| CubicApproximationAlgorithm.CubicApproximation.SetParams | src/main/java/ru/mipt/optimization/algorithms/CubicApproximation.java:61-66 | true exactly for one value, which becomes h; otherwise h is kept |
| CubicApproximationAlgorithm.CubicApproximation.IsAble | src/main/java/ru/mipt/optimization/algorithms/CubicApproximation.java:49-52 | able exactly for one-dimensional cost functions |
| CubicApproximationAlgorithm.CubicApproximation.ConfigureStopCriteria | src/main/java/ru/mipt/optimization/algorithms/CubicApproximation.java:81-86 | simple criteria with the first error, or the default 0.1 when none is given; the flags are ignored and nothing is rejected |
| CubicApproximationAlgorithm.CubicApproximation.SimpleSpecified | src/main/java/ru/mipt/optimization/algorithms/CubicApproximation.java:123-126 | the simple criteria hold exactly when the search has flagged itself done |
| OptimizationProcedures.IsAble | src/main/java/ru/mipt/optimization/entity/optimizationProcedure/OptimizationProcedure.java:39 | gradient descent and the training algorithm accept every cost function, Kaczmarz none, the cubic search exactly the one-dimensional ones |
| OptimizationProcedures.ConfigureStopCriteria | src/main/java/ru/mipt/optimization/entity/inOut/Config.java:76-78 | a null algorithm is a runtime error; the pure algorithms succeed exactly when the four-flag configuration does, the cubic search always, the training algorithm exactly when its errors and flags are accepted; common criteria are built by the corrected constructor |
| OptimizationProcedures.SetAlgorithmParams | src/main/java/ru/mipt/optimization/entity/inOut/Config.java:87-89 | a null algorithm is a runtime error; Kaczmarz and the cubic search accept exactly one value, the training algorithm exactly three, gradient descent none |
| OptimizationProcedures.ExtendedDimension | src/main/java/ru/mipt/optimization/entity/optimizationProcedure/OptimizationProcedure.java:85-87 | appending a point of the last point's dimension keeps every later point the dimension of the one before |
| OptimizationProcedures.ExtendedFollows | src/main/java/ru/mipt/optimization/entity/optimizationProcedure/OptimizationProcedure.java:85-87 | appending a point related to the last one keeps the whole trajectory related step by step |
| OptimizationProcedures.NotAchievedExtended | src/main/java/ru/mipt/optimization/entity/optimizationProcedure/OptimizationProcedure.java:88 | a round whose stop check did not fire extends the set of trajectory prefixes on which the criteria were not met |
| OptimizationProcedures.RoundExtends | src/main/java/ru/mipt/optimization/entity/optimizationProcedure/OptimizationProcedure.java:85-88 | one appended point keeps the dimensions in step, keeps every step a descent step for gradient descent, and keeps the record of unmet criteria |
| OptimizationProcedures.OptimizationProcedure.constructor | src/main/java/ru/mipt/optimization/entity/optimizationProcedure/OptimizationProcedure.java:43-44 | the cost function and configuration are stored, with an empty trajectory |
| OptimizationProcedures.OptimizationProcedure.Create | src/main/java/ru/mipt/optimization/entity/optimizationProcedure/OptimizationProcedure.java:36-45 | a null argument is IllegalArgument; it succeeds exactly for an algorithm able to optimise the function, with a fresh valid procedure over an empty trajectory |
| OptimizationProcedures.OptimizationProcedure.ProcedurePoints | src/main/java/ru/mipt/optimization/entity/optimizationProcedure/OptimizationProcedure.java:96-98 | the trajectory itself |
| OptimizationProcedures.OptimizationProcedure.OptimizedDecision | src/main/java/ru/mipt/optimization/entity/optimizationProcedure/OptimizationProcedure.java:70-75 | a runtime error exactly before the first start; otherwise the last point and the cost there |
| OptimizationProcedures.OptimizationProcedure.DecisionInDomain | src/main/java/ru/mipt/optimization/entity/optimizationProcedure/OptimizationProcedure.java:70-75 | in a valid procedure the decision has a defined cost |
| OptimizationProcedures.OptimizationProcedure.AlgorithmStep | src/main/java/ru/mipt/optimization/entity/optimizationProcedure/OptimizationProcedure.java:86 | the step of the selected algorithm; for gradient descent exactly the descent step, with the algorithm untouched |
| OptimizationProcedures.OptimizationProcedure.ConductOneIteration | src/main/java/ru/mipt/optimization/entity/optimizationProcedure/OptimizationProcedure.java:86 | from a point in the domain, the next point has the same dimension and lies in the domain |
| OptimizationProcedures.OptimizationProcedure.IsAchieved | src/main/java/ru/mipt/optimization/entity/optimizationProcedure/OptimizationProcedure.java:88 | never stops before two points; stops at the cap of 1000000 points; for algorithms with value criteria the answer is the common criteria's decision; for the training algorithm, one M1 consultation |
| OptimizationProcedures.StatelessAchieved | src/main/java/ru/mipt/optimization/entity/optimizationProcedure/OptimizationProcedure.java:87 | never with fewer than two points; always at the cap of 1000000 points; under the cubic search's simple criteria, exactly when there are two points or more and the search is done or the cap is reached |
| OptimizationProcedures.OptimizationProcedure.Round | src/main/java/ru/mipt/optimization/entity/optimizationProcedure/OptimizationProcedure.java:85-87 | on success one point is appended; a failure leaves the trajectory as it was; dimension, descent and unmet-criteria records are kept |
| OptimizationProcedures.OptimizationProcedure.Iterate | src/main/java/ru/mipt/optimization/entity/optimizationProcedure/OptimizationProcedure.java:85-88 | a round and its stop check; continuing implies the cap has not been reached and the criteria were not met |
| OptimizationProcedures.OptimizationProcedure.Optimize | src/main/java/ru/mipt/optimization/entity/optimizationProcedure/OptimizationProcedure.java:79-91 | without a start point a runtime error; otherwise the trajectory only grows, at least by one point, and stays within the cap; the criteria hold on the final trajectory and on no earlier prefix; for gradient descent each new point is a descent iteration of the one before |
| OptimizationProcedures.OptimizationProcedure.Start | src/main/java/ru/mipt/optimization/entity/optimizationProcedure/OptimizationProcedure.java:54-59 | a start point outside the domain is IllegalArgument and leaves the trajectory alone; otherwise the point and at least one iteration are appended, and the criteria hold at the end |
| TypeConversion.ProbeIndexFollowsLoop | src/main/java/ru/mipt/optimization/entity/typeWrapper/TypeWrapper.java:106-110 | the counter starts at 1 and each loop step applies i := (i + signum(i)) * -1 |
| TypeConversion.ProbesAlternate | src/main/java/ru/mipt/optimization/entity/typeWrapper/TypeWrapper.java:106-110 | probe indices are never 0, alternate in sign, grow by one in size and never repeat, so r itself is never probed and no point twice |
| TypeConversion.FoundAtFirstAnswer | src/main/java/ru/mipt/optimization/entity/typeWrapper/TypeWrapper.java:105-110 | a found value is the rule's answer at a probe the loop reaches, and every earlier probe had no answer |
| TypeConversion.NothingFound | src/main/java/ru/mipt/optimization/entity/typeWrapper/TypeWrapper.java:105-110 | nothing is found exactly when no reached probe has an answer |
| TypeConversion.ConvertedByExtends | src/main/java/ru/mipt/optimization/entity/typeWrapper/TypeWrapper.java:24-25 | a conversion stays valid while the maps only grow |
| TypeConversion.ConvertedByAppend | src/main/java/ru/mipt/optimization/entity/typeWrapper/TypeWrapper.java:88-89 | a converted prefix grows by one coordinate the map converts |
| TypeConversion.ConvertedToExtends | src/main/java/ru/mipt/optimization/entity/typeWrapper/TypeWrapper.java:24-25 | a conversion stays valid while the maps only grow |
| TypeConversion.ConvertedToAppend | src/main/java/ru/mipt/optimization/entity/typeWrapper/TypeWrapper.java:95-96 | a converted prefix grows by one element the map converts |
| TypeConversion.ExtendsTransitive | src/main/java/ru/mipt/optimization/entity/typeWrapper/TypeWrapper.java:24-25 | maps that grow twice have grown |
| TypeConversion.TypeWrapper.StorePair | src/main/java/ru/mipt/optimization/entity/typeWrapper/TypeWrapper.java:77-78 | storing a justified pair in both maps keeps every value of one map a key of the other |
| TypeConversion.TypeWrapper.ConversionsJustified | src/main/java/ru/mipt/optimization/entity/typeWrapper/TypeWrapper.java:24-25 | every coordinate converted in either direction is a pair the rules justify |
| TypeConversion.TypeWrapper.constructor | src/main/java/ru/mipt/optimization/entity/typeWrapper/TypeWrapper.java:31-49 | the two rules are stored and both maps start empty and valid |
| TypeConversion.TypeWrapper.Create | src/main/java/ru/mipt/optimization/entity/typeWrapper/TypeWrapper.java:31-49 | a null rule or a missing class, and nothing else, gives IllegalArgument |
| TypeConversion.TypeWrapper.Search | src/main/java/ru/mipt/optimization/entity/typeWrapper/TypeWrapper.java:104-110 | null exactly when the rule answers null at every probe r + 0.01 i that the alternating counter reaches within the bound |
| TypeConversion.TypeWrapper.CalculateTypeInterpretation | src/main/java/ru/mipt/optimization/entity/typeWrapper/TypeWrapper.java:104-116 | returns the search's answer; on success the pair is stored in both maps, otherwise neither map changes |
| TypeConversion.TypeWrapper.ConvertReal | src/main/java/ru/mipt/optimization/entity/typeWrapper/TypeWrapper.java:57-65 | a remembered value is returned unchanged; otherwise the search runs, a failed search is a runtime error, and a found value is stored; the maps only grow |
| TypeConversion.TypeWrapper.ConvertType | src/main/java/ru/mipt/optimization/entity/typeWrapper/TypeWrapper.java:72-82 | a remembered value is returned unchanged; otherwise the rule's answer is stored, and a null answer stores nothing; the maps only grow |
| TypeConversion.TypeWrapper.ConvertRealPoint | src/main/java/ru/mipt/optimization/entity/typeWrapper/TypeWrapper.java:85-91 | a null point is IllegalArgument; a result converts every coordinate through the map, and succeeds whenever every coordinate has a search answer |
| TypeConversion.TypeWrapper.ConvertTypePoint | src/main/java/ru/mipt/optimization/entity/typeWrapper/TypeWrapper.java:93-98 | a null point is IllegalArgument; a result converts every element through the map, and succeeds whenever the rule answers every element |
| OptimizationResults.CompareReals | src/main/java/ru/mipt/optimization/entity/inOut/Result.java:174-188 | the comparison is -1, 0 or 1, negative exactly when the first value is smaller and zero exactly when they are equal, as Double.compare on non-NaN values |
| OptimizationResults.CompareShots | src/main/java/ru/mipt/optimization/entity/inOut/Result.java:174-188 | two shots compare equal exactly when they agree on every enabled criterion; the first is smaller exactly when its final cost is smaller (by final decision) or the costs tie and its time is smaller (by time) |
| OptimizationResults.ShotOrderIsComparator | src/main/java/ru/mipt/optimization/entity/inOut/Result.java:174-188 | the results comparator is antisymmetric and its "not greater" is transitive, for every pair of flags |
| OptimizationResults.SortedShots | src/main/java/ru/mipt/optimization/entity/inOut/Result.java:143-151 | sorting the shots with the comparator gives a list sorted by it that is a permutation of the shots |
| OptimizationResults.FirstHasLeastTime | src/main/java/ru/mipt/optimization/entity/inOut/Result.java:69-71 | the first shot of a list sorted by time alone has the least time of all shots in it |
| OptimizationResults.FindShot | src/main/java/ru/mipt/optimization/entity/inOut/Result.java:58-60 | no shot is found exactly when no shot has that start point; a found shot is one of the shots and has that start point |
| OptimizationResults.Rethrown | src/main/java/ru/mipt/optimization/entity/inOut/Result.java:39-51 | the exception rethrown by updateResults is never the one that was caught |
| OptimizationResults.TracedExtends | src/main/java/ru/mipt/optimization/entity/inOut/Result.java:228-246 | a trajectory converted through a map stays converted when the map only grows |
| OptimizationResults.TracedAppend | src/main/java/ru/mipt/optimization/entity/inOut/Result.java:228-234 | a converted trajectory grows by one converted point with its cost |
| OptimizationResults.ParsedShot | src/main/java/ru/mipt/optimization/entity/inOut/Result.java:219-234 | a shot parsed from a trajectory has one evolution entry per point; the first entry's point is the start point, and the last entry is the final decision with its cost |
| OptimizationResults.RememberedGrows | src/main/java/ru/mipt/optimization/entity/inOut/Result.java:143-151 | a remembered sorted list stays a sorted permutation of the shots it was made from when a later shot is recorded |
| OptimizationResults.RememberedBelow | src/main/java/ru/mipt/optimization/entity/inOut/Result.java:143-151 | a remembered list never holds a shot more often than the recorded shots do |
| OptimizationResults.Results.CreateAsWritten | src/main/java/ru/mipt/optimization/entity/inOut/Result.java:32-37 | as written, the constructor fails with IllegalArgument for every procedure: a null one is rejected and a non-null one is never stored, so updateResults meets null |
| OptimizationResults.Results.Create | src/main/java/ru/mipt/optimization/entity/inOut/Result.java:32-37 | a null procedure is IllegalArgument; otherwise a fresh record that keeps the procedure, the converter and the algorithm and holds no shots and no sorted lists |
| OptimizationResults.Results.NewShot | src/main/java/ru/mipt/optimization/entity/inOut/Result.java:195-207 | a shot of the procedure's present trajectory: its start, final point and cost, and every point with its cost, converted back; no procedure, an empty trajectory or an unconvertible point is a RuntimeException |
| OptimizationResults.Results.UpdateResults | src/main/java/ru/mipt/optimization/entity/inOut/Result.java:39-51 | one new shot is appended, with a start point no earlier shot has, recording the trajectory; failures become IllegalArgument and record nothing; the sorted lists and the invariant are kept |
| OptimizationResults.Results.GetSortedResults | src/main/java/ru/mipt/optimization/entity/inOut/Result.java:143-151 | a remembered list for the flags is returned unchanged; otherwise the shots are sorted by the comparator and remembered; the answer is sorted and never holds more of a shot than was recorded |
| OptimizationResults.Results.OptimizationTime | src/main/java/ru/mipt/optimization/entity/inOut/Result.java:58-60 | a start point with no shot is a RuntimeException, and only then; otherwise the time of the shot with that start point |
| OptimizationResults.Results.OptimizedDecision | src/main/java/ru/mipt/optimization/entity/inOut/Result.java:79-81 | a start point with no shot is a RuntimeException, and only then; otherwise that shot's final point and cost |
| OptimizationResults.Results.ProcedurePoints | src/main/java/ru/mipt/optimization/entity/inOut/Result.java:100-102 | a start point with no shot is a RuntimeException, and only then; otherwise that shot's trajectory |
| OptimizationResults.Results.BestTime | src/main/java/ru/mipt/optimization/entity/inOut/Result.java:69-71 | whatever the flags, the list sorted by time alone is made or reused; no shot is a RuntimeException, otherwise its first shot's time, which is the least of all |
| OptimizationResults.Results.BestDecision | src/main/java/ru/mipt/optimization/entity/inOut/Result.java:90-92 | whatever the flags, the decision of the first shot sorted by time alone, the quickest one; no shot is a RuntimeException |
| OptimizationResults.Results.BestProcedurePoints | src/main/java/ru/mipt/optimization/entity/inOut/Result.java:111-113 | whatever the flags, the trajectory of the first shot sorted by time alone, the quickest one; no shot is a RuntimeException |
| Optimizers.MapGet | src/main/java/ru/mipt/optimization/entity/Optimizator.java:124 | a key is absent exactly when no entry has it; a present key's answer is the value of one of its entries |
| Optimizers.MapPutGet | src/main/java/ru/mipt/optimization/entity/Optimizator.java:92 | after a put the key maps to the new value and every other key keeps its answer |
| Optimizers.MapPutKeys | src/main/java/ru/mipt/optimization/entity/Optimizator.java:92 | a put keeps the keys distinct, adds one entry exactly when the key was absent, and every entry afterwards is the new one or an old one |
| Optimizers.Values | src/main/java/ru/mipt/optimization/entity/Optimizator.java:134 | the values of the history's entries, one per entry, in order |
| Optimizers.CompareBest | src/main/java/ru/mipt/optimization/entity/Optimizator.java:148-179 | a Result with no shots comes before one with shots; two Results compare equal exactly when both have no shots or their first shots agree on every enabled criterion |
| Optimizers.BestOrderIsComparator | src/main/java/ru/mipt/optimization/entity/Optimizator.java:148-179 | the history comparator is antisymmetric and its "not greater" is transitive, for every pair of flags |
| Optimizers.SortedPositions | src/main/java/ru/mipt/optimization/entity/Optimizator.java:133-137 | sorting the Results by their first shots gives an order that is sorted by the history comparator and is a permutation of the Results |
| Optimizers.History.constructor | src/main/java/ru/mipt/optimization/entity/Optimizator.java:124 | a new history holds no Results |
| Optimizers.History.Record | src/main/java/ru/mipt/optimization/entity/Optimizator.java:92 | the history becomes the put of the configuration and the Result, and every Result in it stays valid |
| Optimizers.History.FirstShot | src/main/java/ru/mipt/optimization/entity/Optimizator.java:153-167 | asking a Result for its sorted list leaves its shots as they are, remembers the list, and gives back its first shot, if any |
| Optimizers.History.FirstShots | src/main/java/ru/mipt/optimization/entity/Optimizator.java:153-167 | every Result, asked in order, keeps its shots and remembers its sorted list, whose first shot is the one given back for it |
| Optimizers.History.GetSortedResults | src/main/java/ru/mipt/optimization/entity/Optimizator.java:133-137 | the answer is a permutation of the history's Results, sorted by the history comparator on their first shots; with two or more Results every Result now remembers its list for the flags, with fewer the Results come back as stored and none is asked; every Result keeps its shots |
| Optimizers.ConvertedCost | src/main/java/ru/mipt/optimization/entity/Optimizator.java:109-116 | the cost rule over reals is defined only where every coordinate converts back to the caller's type by the search |
| Optimizers.ConvertedCostOfSearched | src/main/java/ru/mipt/optimization/entity/Optimizator.java:109-116 | where the search converts every coordinate to the matching entry of a point y, the rule is the caller's cost of y; where it fails at some coordinate the point is outside the domain |
| Optimizers.Optimizator.constructor | src/main/java/ru/mipt/optimization/entity/Optimizator.java:46-55 | the session keeps its dimension, converter and configuration and starts with an empty history |
| Optimizers.Optimizator.Create | src/main/java/ru/mipt/optimization/entity/Optimizator.java:46-55 | a null rule, a null class or a null configuration, and nothing else, is IllegalArgument; otherwise a fresh session with empty conversion tables and an empty history |
| Optimizers.Optimizator.ChangeConfigurations | src/main/java/ru/mipt/optimization/entity/Optimizator.java:61-64 | a null configuration is IllegalArgument and changes nothing; otherwise it becomes the configuration |
| Optimizers.Optimizator.GetDimension | src/main/java/ru/mipt/optimization/entity/Optimizator.java:98-100 | the session's dimension |
| Optimizers.Optimizator.SetDimension | src/main/java/ru/mipt/optimization/entity/Optimizator.java:102-104 | the dimension becomes the given one and the configuration is kept |
| Optimizers.Optimizator.RunStart | src/main/java/ru/mipt/optimization/entity/Optimizator.java:84-89 | a start point of the wrong length or outside the caller's cost function is IllegalArgument; a successful pass appends exactly one shot, timed by the timer, after the earlier ones |
| Optimizers.Optimizator.Launch | src/main/java/ru/mipt/optimization/entity/Optimizator.java:88 | a successful run started from a point that converts into the algorithms' terms |
| Optimizers.Optimizator.RunAll | src/main/java/ru/mipt/optimization/entity/Optimizator.java:83-90 | on success every start point had the right length and a defined cost, and the Result holds one shot per start point in order, each with its measured time |
| Optimizers.Optimizator.Prepare | src/main/java/ru/mipt/optimization/entity/Optimizator.java:80 | no algorithm is a RuntimeException and the Kaczmarz algorithm, which cannot optimise, is IllegalArgument; otherwise a fresh procedure with an empty trajectory under the present configuration |
| Optimizers.Optimizator.Run | src/main/java/ru/mipt/optimization/entity/Optimizator.java:81-90 | on success a fresh Result for the procedure's algorithm, one shot per start point in order, every start point checked |
| Optimizers.Optimizator.Optimize | src/main/java/ru/mipt/optimization/entity/Optimizator.java:78-94 | a failure leaves the history as it was; a success puts the fresh Result, one shot per checked start point, into the history under the present configuration |
| Sorting.SortBySorted | src/main/java/ru/mipt/optimization/entity/inOut/Result.java:143-151 | Collections.sort with a comparator gives a list sorted by the comparator that is a permutation of its input |
| Sorting.FirstIsLeast | src/main/java/ru/mipt/optimization/entity/inOut/Result.java:69-71 | the head of a list sorted by a comparator is not greater than any of its elements |

## Left out

- Floating point: doubles are exact reals. Rounding, overflow to infinity and NaN are not modelled. Division by zero is not modelled either, where the source would produce an infinity or a NaN.
- `Math.sqrt` is a parameter `sqrt` of the cost function, constrained by `MathHelp.IsSqrt` where a proof needs it. There is no exact square root over reals without axioms.
- `CostFunction.getDerivative` (used by the decision-proximity check) is inherited from `CostFunction`, which is not part of this model. It is a function-valued field `derivative` of the cost function.
- `CubicApproximation.calculatePolinomMin` and its helpers are a parameter `polinomMin`. They need a square root of a computed value and cost-function calls whose domain is not known.
- `GradientKaczmarzTraining.getOptimizedGamma` is a parameter `gamma` of the point and the new direction. It runs a whole nested one-dimensional optimisation procedure.
- `CubicApproximationAlgorithm.CubicApproximation.NarrowBracket`: the narrowing loop has no bound in the source. A `fuel` parameter bounds its rounds, and running out is an error the source does not have.
- Time measurement is a parameter. `Optimizers.Optimizator.Optimize` takes `timer(k)` as the time of the k-th run, and `Results.UpdateResults` takes the time it records.
- `HashMap` iteration order is unspecified. `Result.allStartsResults` and `History.results` are kept in insertion order.
- Start points are array keys compared by identity. Each parsed start point gets a new number, `startKey`, instead.
- `Config` keys of the history are compared by identity, through the class `Optimizers.ConfigRef`.
- `Result.visualizeProcedure`, `App`, and every `toString` and `getName` are left out: they are I/O and text.
- `History.getResultHistory` and the getters `getAlgorithm`, `getConverter` and `getCostFunction` of `Result` are left out. They only return fields, which the model's classes expose directly.
- `DeterminateCostFunc`, `FieldWrapper` and the commented-out `ArgumentField` are not part of this model. `optimize` only ever builds an `UndeterminateCostFunc`.
- `HybridAlgorithm.conductOneIteration` (HybridAlgorithm.java:16-21) is a stub. It runs the steps of `getPureAlgorithms`, discards them and returns `null`, and `GradientKaczmarzTraining` inherits it. The model bridges it: the training algorithm's iteration is its own step followed by the pull-back into the domain that `PureAlgorithm.conductOneIteration` performs. `getPureAlgorithms` is not part of this model.
- Calls to members that the source files do not declare are bridged as follows:
  - `Optimizator.optimize` (Optimizator.java:81) calls a two-argument `Result` constructor. It is modelled by `OptimizationResults.Results.Create`, which stands for that two-argument constructor rather than a repaired three-argument one: it keeps the procedure, starts with no shot, and does not make the `updateResults` call of Result.java:36.
  - `Optimizator.createCostFunction` (Optimizator.java:115) calls a two-argument `UndeterminateCostFunc` constructor. It is modelled by the three-argument one, with the session's dimension and configuration.
  - `OptimizationProcedure` consults `config.stopCriteria`, a field `Config` does not declare. The stop criteria of the selected algorithm are consulted instead.
  - `GradientKaczmarzTraining` calls a four-argument Kaczmarz step. It is `KaczmarzAlgorithm.TrainingStep`, which lands x on the row and, with p = a, is the linear step.
  - `GradientKaczmarzTraining` hands five flags to a `configureStopCriteria` of its base class. The five flags become the four-flag `CommonStopping`. The fifth flag, `byArgumentsChangeNorm`, has no check in `CommonStopping`.
  - `CubicApproximation.optimize` (CubicApproximation.java:38) calls `stopCriteria.getError()`, which `StopCriteria` does not declare. It is `CubicApproximationAlgorithm.ErrorOf`: the simple criteria's error, or the common criteria's epsilon.
  - `GradientKaczmarzTraining.createDefaultM1Stopping` (GradientKaczmarzTraining.java:157-158) calls a six-argument `CommonStopping` constructor that is not declared. It is modelled by `GradientKaczmarzTrainingAlgorithm.CreateDefaultM1Stopping` as the four-flag criteria with every check on and error 0.1, that is, with the corrected constructor's semantics.
  - `Config.configureStopCriteria` hands the pure algorithms their `errors` array. They take its first entry, or the default error when it is empty.
- `TypeConversion`: the probe bound of `calculateTypeInterpretation` comes from `Config.getDefaultSearchRange`, which is not part of this model. It is a parameter `searchBound` of the wrapper.
- `KaczmarzAlgorithm.LinearStep` requires a non-zero row, because the source would divide by zero there.
- `KaczmarzAlgorithm.TrainingStep` requires p . a != 0, because the source would divide by zero there too.
- `Optimizers.Optimizator.Launch` states only that a successful run began from a start point that converts. What the run appends is stated by `OptimizationProcedures.OptimizationProcedure.Start`, but `Launch` does not carry it over.
- `PureAlgorithms.ConfiguredCommonStopping`: `configureStopCriteria` (PureAlgorithm.java:53) calls the five-argument `CommonStopping` constructor, which as written drops its flags (see Findings). The model installs the criteria of the corrected constructor instead. So do `KaczmarzAlgorithm.Kaczmarz.ConfigureStopCriteria`, `GradientDescentAlgorithm.GradientDescent.ConfigureStopCriteria`, `OptimizationProcedures.ConfigureStopCriteria` and `GradientKaczmarzTrainingAlgorithm.ConfiguredBase`. With the code as written, every configured common criteria would stop at the first consultation.
- `Optimizers.ConvertedCost`: the cost rule converts each coordinate back by the wrapper's search alone, as a fixed function. The source's `convert(Real)` (TypeWrapper.java:57-65) first returns a value the wrapper remembers, and only then searches. So the model converts a start point's coordinate to the value found 0.01 or more away, where the source returns the start point's own value. A start point at the edge of the domain can therefore be rejected here but accepted by the source. The rule does not extend the wrapper's maps either. A coordinate the search cannot convert makes the source throw a `RuntimeException` that ends `optimize`; here the point counts as outside the domain.
- `OptimizationProcedure.optimize` (OptimizationProcedure.java:79-91) recurses once per iteration, so a long run ends in a `StackOverflowError` well before the cap of 1000000 points. The model iterates in a loop up to the cap and has no stack limit.
- `Sorting.SortBy`: `Collections.sort` is stable, but the model's contract states only that the result is sorted and a permutation. The order of shots that compare equal is not stated.
- Concurrency does not arise: the library is single-threaded.

## Findings

| source | as written | input that shows it | evidently intended | confidence | as-written member | corrected member |
|---|---|---|---|---|---|---|
| src/main/java/ru/mipt/optimization/algorithms/PureAlgorithm.java:102-106 | the five-argument `CommonStopping` constructor stores the error, then builds a second object with the flags and drops it, so the flags of the object under construction stay `false` | `new CommonStopping(true, true, true, true, 0.1)` with a trajectory whose derivative and cost change are both large: every check is off, so the criteria say "stop" at the first consultation | the object keeps the four flags and the error; the rest of the model uses this corrected constructor | not executed | PureAlgorithms.CommonStoppingWithErrorAsWritten, PureAlgorithms.AsWrittenDiffersFromIntended | PureAlgorithms.CommonStoppingWithError |
| src/main/java/ru/mipt/optimization/entity/inOut/Result.java:32-37 | the constructor checks the procedure for `null` and never stores it, so its own `updateResults` meets a `null` procedure and always throws `IllegalArgumentException` | any non-null procedure, started or not | the procedure is kept. The corrected member stands for the two-argument constructor that `Optimizator.optimize` (Optimizator.java:81) calls, and it also leaves out the constructor's own `updateResults` (Result.java:36), because `optimize` creates the Result before the first start and records each shot by the `updateResults` after it | not executed | OptimizationResults.Results.CreateAsWritten | OptimizationResults.Results.Create |
