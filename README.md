# Korali: delayed-rejection MCMC and the reinforcement-learning episode protocol

This project models two parts of the Korali optimisation and uncertainty-quantification framework in Dafny and proves properties about them.

**The Markov-chain Monte Carlo solver with delayed rejection** (`source/solvers/mcmc.cpp`):
- Each generation runs `rejectionLevels` rounds of propose, evaluate and accept/reject.
- The acceptance probability comes from the recursive formula of Trias et al. 2009.
- After the rounds, the chain grows by one and the leader may be appended to the chain database.
- The running chain mean and the adaptive chain covariance are then updated, and termination is checked.
- The solver's state is written to a JSON checkpoint and can be read back.

**The reinforcement-learning problem's episode protocol** (`source/modules/problem/reinforcementLearning/reinforcementLearning.cpp`):
- A sample is driven through an episode by resuming the user's environment, a coroutine that suspends at every decision point.
- After each resume, the lead rank checks and rescales the state and the reward.
- One experience is recorded per decision.
- A new policy is requested on a fixed schedule.
- The episode is sent to the engine in exactly one message.
- Configuration validation and operation dispatch are modelled as well.

The modules are:
- `Wrappers` (`Option`, `Result`, `Outcome`) and `Json`, a JSON value with path lookup and erasure.
- `McmcConfig`, `DelayedRejection`, `McmcStatistics`, `McmcCheckpoint` and `McmcSolver`. `McmcSolver` holds the class `Mcmc`, whose fields are the solver's counters and whose `array`/`array2` fields are its heap buffers.
- `RlConfig` and `RlProblem`. `RlProblem` holds the class `ReinforcementLearning` and the class `Sample`, a map of fields that the solver and the environment update in place.

Collaborators the core cannot see are parameters of the classes:
- the C library `exp` (only its positivity is used);
- the Gaussian and uniform generators, as functions from the draw index;
- the log-prior and the model;
- the agent's `getAction`, as a function on the sample's fields;
- the engine's replies to policy requests;
- the base problem's operations and keys;
- whether the worker is its group's lead rank.

Messages sent to the engine go to an outbox sequence, and checkpoints handed to the engine go to a `checkpoints` sequence. A fatal error of the source (`KORALI_LOG_ERROR`, `exit(-1)` or a JSON type exception) is a `Fail` or `Err` result of the modelled operation.

Three facts of the code are reproduced as written:
- **Acceptance does not end a generation.** The inner loop of `run` (mcmc.cpp:206-213) always runs all `rejectionLevels` rounds, even after a candidate has been accepted: `Mcmc.Rounds` and `Mcmc.Generation` always do `Levels()` rounds.
- **A fresh run stops at once.** The constructor zeroes `chainLength`, which is also the generation counter, after reading the configured value (mcmc.cpp:60). A fresh run therefore satisfies `databaseEntries == chainLength` and stops before its first generation. `Mcmc.Run` states this. The buffers keep the configured length, `Mcmc.Capacity()`.
- **A written checkpoint is never restored.** `setState` looks for "FunctionEvaluations" and "Candidate" (mcmc.cpp:169, 178), while `getConfiguration` writes "Function Evaluations" and "Candidates" (mcmc.cpp:113, 122). `Mcmc.Restore` reads under the source's keys, so it refuses every checkpoint `Mcmc.SaveState` writes.

## Model

| member | source | states |
|---|---|---|
| McmcConfig.SetConfiguration | source/solvers/mcmc.cpp:133-165 | An accepted configuration is valid: at least one rejection level, non-negative covariance scaling and increment, and one mean, one non-negative deviation and one log-space flag per variable. Every absent optional key takes its default (output frequency 100, burn-in 0, one rejection level, no adaptive sampling, 5% non-adaption period, 2.4²/N scaling, increment 0.001, evaluation cap 10⁶ and inactive, linear space). A missing chain length refuses the configuration, and so does a configuration with no variables and no covariance scaling, whose default 2.4²/0 is not a number. |
| McmcConfig.ConsumeNumber | source/solvers/mcmc.cpp:145-146 | `consume` of a number: a present number is taken; an absent key gives the default or, without one, a refusal; a value of another type is refused. |
| McmcConfig.ConsumeCount | source/solvers/mcmc.cpp:135-139 | `consume` of a count, with the same three cases; a present value is a count only when it is a non-negative number. |
| McmcConfig.ConsumeBool | source/solvers/mcmc.cpp:143 | `consume` of a boolean, with the same three cases. |
| McmcConfig.DefaultScaling | source/solvers/mcmc.cpp:145 | The Gelman default 2.4²/N is positive. |
| McmcConfig.DefaultNonAdaptionPeriod | source/solvers/mcmc.cpp:144 | The default non-adaption period is 5% of the chain length, rounded down. |
| McmcConfig.ConfigurationRefused | source/solvers/mcmc.cpp:139-149 | The refusals of scalar settings: fewer than one rejection level, or a negative covariance scaling or increment. |
| McmcConfig.VariableRefused | source/solvers/mcmc.cpp:157-163 | The refusals of per-variable settings: a negative standard deviation or a missing initial mean. |
| McmcConfig.MandatoryOnlyAccepted | source/solvers/mcmc.cpp:135-161 | A document that gives only the chain length and, per variable, a mean and a non-negative deviation is accepted with every other setting at its default. |
| DelayedRejection.ReversedPrefix | source/solvers/mcmc.cpp:262-263 | The temporary copy holds the first n log-likelihoods in reverse order. |
| DelayedRejection.Alpha | source/solvers/mcmc.cpp:250-284 | The acceptance probability of every level lies in [0, 1] and the denominator it leaves is non-negative, given a positive `exp`. |
| DelayedRejection.Survival | source/solvers/mcmc.cpp:267-272 | The numerator's product of (1 − α) over the reversed chain's levels lies in [0, 1]. |
| DelayedRejection.NextLevel | source/solvers/mcmc.cpp:275-282 | One level from its numerator parts and the level below keeps α in [0, 1] and the denominator non-negative. |
| DelayedRejection.MetropolisLevel | source/solvers/mcmc.cpp:254-258 | Level 0 sets the denominator to exp(llk0) and returns min(1, exp(l[0] − llk0)). When exp is at least 1 on non-negative arguments, an uphill or level move is always accepted. |
| DelayedRejection.LevelShape | source/solvers/mcmc.cpp:266-282 | A level whose numerator exp(l[N])·Π(1 − α_rev(i)) is 0 returns 0. Otherwise it returns that numerator over denom(N−1)·(1 − α(N−1)), clipped at 1. The numerator is never negative. |
| DelayedRejection.DenominatorClosedForm | source/solvers/mcmc.cpp:256-280 | The denominator of level N is exp(llk0) times the probability that every earlier level rejected. |
| DelayedRejection.AlphaReadsPrefix | source/solvers/mcmc.cpp:250-284 | Level N reads only the first N+1 log-likelihoods, so stale candidates of later levels never influence it. |
| DelayedRejection.AlphaAsWritten | source/solvers/mcmc.cpp:250-284 | The recursion as written, with `None` for a value that comes from the unassigned denominator; any value it determines is at most 1. |
| DelayedRejection.NextLevelAsWritten | source/solvers/mcmc.cpp:275-282 | As written, a zero numerator returns 0 and leaves the denominator unassigned. |
| DelayedRejection.AsWrittenAgrees | source/solvers/mcmc.cpp:250-284 | Wherever the source's result is determined by its inputs, it equals the corrected `Alpha`. |
| DelayedRejection.SurvivalAgrees | source/solvers/mcmc.cpp:267-272 | Wherever the source's numerator product is determined, it equals `Survival`. |
| DelayedRejection.UnassignedDenominatorRead | source/solvers/mcmc.cpp:275-280 | For the chain 0, 0, 1: level 1 returns 0 without assigning its denominator. Level 2 has a non-zero numerator and divides by that unassigned value. The corrected recursion carries the denominator through. |
| McmcStatistics.Mean | source/solvers/mcmc.cpp:359 | Each coordinate of the new mean is (mean·(k−1) + x)/k. |
| McmcStatistics.MeanIsRunningAverage | source/solvers/mcmc.cpp:359 | If the old mean averages the earlier database points, the update averages those points and the new one. |
| McmcStatistics.ScatterSymmetric | source/solvers/mcmc.cpp:351-367 | The scatter term `tmpC[d][e]` is symmetric in d and e. |
| McmcStatistics.Covariance | source/solvers/mcmc.cpp:369-375 | The blended chain covariance is an N×N matrix. |
| McmcStatistics.CovarianceSymmetric | source/solvers/mcmc.cpp:370-375 | The updated chain covariance is symmetric, whatever the old one was. |
| McmcStatistics.CovarianceEntries | source/solvers/mcmc.cpp:370-375 | From a symmetric covariance, every entry is (k−1)/k times its old value plus scaling/k times its own scatter term. |
| McmcStatistics.CovarianceAsWritten | source/solvers/mcmc.cpp:370-375 | The update as written agrees with `Covariance` on and below the diagonal. |
| McmcStatistics.AsymmetricCovarianceAsWritten | source/solvers/mcmc.cpp:372-373 | For two coordinates and a second database entry (1, 1), the source leaves 0.125 below the diagonal and 0.1875 above it. |
| McmcCheckpoint.FlattenLength | source/solvers/mcmc.cpp:124-127 | A row-major buffer of k rows of n numbers holds k·n numbers. |
| McmcCheckpoint.Unflatten | source/solvers/mcmc.cpp:180-184 | Reading a flat buffer back gives k rows of n numbers. |
| McmcCheckpoint.UnflattenFlatten | source/solvers/mcmc.cpp:124-127 | Reading back the rows of a row-major buffer gives the rows that were written. |
| McmcCheckpoint.Rows | source/solvers/mcmc.cpp:122 | The candidates are written as one array of numbers per candidate. |
| McmcCheckpoint.WrittenFields | source/solvers/mcmc.cpp:111-129 | Every scalar counter is written under its key. Each buffer key (leader, chain mean, chain and proposal covariance, candidates and their fitness, database points and fitness) is present exactly when its loop writes at least one value, and then holds those values. |
| McmcCheckpoint.NoVariablesNoBuffers | source/solvers/mcmc.cpp:111-127 | With no variables, none of the per-variable buffer keys is written at all. |
| McmcCheckpoint.ReadCount | source/solvers/mcmc.cpp:169-174 | A count is read from a non-negative number, dropping its fraction; anything else is refused. |
| McmcCheckpoint.ReadNumber | source/solvers/mcmc.cpp:173 | A real reads only from a number. |
| McmcCheckpoint.ReadBool | source/solvers/mcmc.cpp:175 | A flag reads only from a boolean. |
| McmcCheckpoint.ReadNumbers | source/solvers/mcmc.cpp:177-183 | Reading `count` numbers gives exactly that many. Reading none never fails, even when the key is missing. |
| McmcCheckpoint.ReadRows | source/solvers/mcmc.cpp:178 | Reading k candidate rows gives k rows of n numbers. Zero rows never fail. |
| McmcCheckpoint.ReadSquare | source/solvers/mcmc.cpp:183-184 | A flat N·N buffer reads back as a square matrix. |
| McmcCheckpoint.ReadStateWith | source/solvers/mcmc.cpp:167-188 | A successful read fits the solver's buffers for N variables. |
| McmcCheckpoint.ReadStateAsWritten | source/solvers/mcmc.cpp:167-188 | `setState` under its own keys, "FunctionEvaluations" and "Candidate"; a successful read fits the buffers. |
| McmcCheckpoint.ReadState | source/solvers/mcmc.cpp:167-188 | `setState` under the writer's keys; a successful read fits the buffers. |
| McmcCheckpoint.RestoreAsWrittenFails | source/solvers/mcmc.cpp:113-169 | No checkpoint the writer produces can be read by the source's reader. |
| McmcCheckpoint.RestoreWithCandidateKeyFails | source/solvers/mcmc.cpp:122-178 | With only the evaluation key repaired, any checkpoint with at least one candidate still fails, on "Candidate". |
| McmcCheckpoint.RestoreRoundTrip | source/solvers/mcmc.cpp:111-188 | Under the writer's keys, every checkpoint of well-shaped state reads back as exactly that state. |
| McmcSolver.Transform | source/solvers/mcmc.cpp:314-318 | Only log-space coordinates are exponentiated before evaluation. |
| McmcSolver.AcceptsIffBelowAlpha | source/solvers/mcmc.cpp:242 | For α in [0, 1] and a uniform draw u in [0, 1), "α == 1 or α > u" is the same as u < α. |
| McmcSolver.Draws | source/solvers/mcmc.cpp:325 | The direction is the next n draws of the Gaussian generator, in order. |
| McmcSolver.Mcmc.constructor | source/solvers/mcmc.cpp:16-64 | The leader starts at the initial means and the proposal covariance is the diagonal of the deviations. Every counter starts at 0, the generation counter `chainLength` included, and the leader's log-likelihood starts at the lowest double. |
| McmcSolver.Mcmc.ProcessSample | source/solvers/mcmc.cpp:231-234 | The candidate's log-likelihood becomes the model's value plus its log-prior; nothing else changes. |
| McmcSolver.Mcmc.AcceptanceProbability | source/solvers/mcmc.cpp:240-241 | The probability for a trial is in [0, 1]. |
| McmcSolver.Mcmc.AcceptReject | source/solvers/mcmc.cpp:237-247 | A trial is accepted exactly when α == 1 or α > u. Acceptance increments `naccept` and makes the candidate and its log-likelihood the leader's. Rejection changes nothing. A uniform draw is consumed only when α ≠ 1. |
| McmcSolver.Mcmc.UpdateDatabase | source/solvers/mcmc.cpp:287-292 | The point and its log-likelihood go to slot `databaseEntries`, which grows by one. Every other slot is unchanged. |
| McmcSolver.Mcmc.DrawDirection | source/solvers/mcmc.cpp:325 | z receives the next n Gaussian draws and the candidate row is zeroed; other candidates are unchanged. |
| McmcSolver.Mcmc.AccumulateRow | source/solvers/mcmc.cpp:328-330 | One coordinate of the candidate gains row d of the proposal matrix times z. |
| McmcSolver.Mcmc.SampleCandidate | source/solvers/mcmc.cpp:323-333 | The candidate is leader + M·z. M is the chain covariance when adaptive sampling is on and `databaseEntries > nonAdaptionPeriod + burnIn`; otherwise M is the fixed covariance. Other candidates are unchanged. |
| McmcSolver.Mcmc.AddLeader | source/solvers/mcmc.cpp:332 | The leader is added to M·z. |
| McmcSolver.Mcmc.UsesChainCovariance | source/solvers/mcmc.cpp:327 | Chain covariance is used only with adaptive sampling past the non-adaption period. |
| McmcSolver.Mcmc.GenerateCandidate | source/solvers/mcmc.cpp:295-341 | One candidate is sampled and `countgens` rises by one. Its log-prior is stored, and the prior check's result is ignored. |
| McmcSolver.Mcmc.EvaluateSample | source/solvers/mcmc.cpp:312-321 | The transformed candidate is stored and evaluated, its log-likelihood becomes fitness plus prior, and `countevals` rises by one. |
| McmcSolver.Mcmc.CheckTermination | source/solvers/mcmc.cpp:380-396 | The run is finished when it already was, when the evaluation cap is active and reached, or when `databaseEntries == chainLength`. The flag is never cleared, and the reason is the last condition that held. |
| McmcSolver.Mcmc.FillMoments | source/solvers/mcmc.cpp:351-356 | `tmpC` holds k·mean_d·mean_e + x_d·x_e, plus the increment on the diagonal. |
| McmcSolver.Mcmc.MoveMean | source/solvers/mcmc.cpp:359 | The chain mean becomes `Mean` of the old mean and the leader. |
| McmcSolver.Mcmc.SubtractRow | source/solvers/mcmc.cpp:361-366 | Row d's entries below the diagonal, and their mirrors, lose (k+1)·mean_d·mean_e; nothing else changes. |
| McmcSolver.Mcmc.SubtractMeanProducts | source/solvers/mcmc.cpp:361-367 | `tmpC` becomes the scatter term of every pair. |
| McmcSolver.Mcmc.BlendRow | source/solvers/mcmc.cpp:370-374 | Row d below the diagonal is blended, and its mirror gets the same value (the corrected upper-triangle update; see Findings). |
| McmcSolver.Mcmc.BlendCovariance | source/solvers/mcmc.cpp:370-375 | Every entry becomes the blend of its lower-triangle old value and its scatter term. |
| McmcSolver.Mcmc.UpdateState | source/solvers/mcmc.cpp:344-378 | The acceptance rate is always naccept/chainLength. With no database entry the mean and covariance are unchanged. Otherwise the mean becomes the running mean and the covariance becomes `Covariance`, which is symmetric. |
| McmcSolver.Mcmc.Snap | source/solvers/mcmc.cpp:111-129 | The state handed to the checkpoint fits the buffers and carries the counters. |
| McmcSolver.Mcmc.SaveState | source/solvers/mcmc.cpp:399-402 | A checkpoint is appended exactly when the run is finished or `chainLength` is a multiple of the output frequency. It would read back as the current state under the writer's keys, but it fails under the source's reader, which `Restore` uses. A zero frequency on an unfinished run is a division by zero. |
| McmcSolver.Mcmc.LoadCounters | source/solvers/mcmc.cpp:169-186 | The counters, the flag and the leader's log-likelihood take the checkpoint's values. |
| McmcSolver.Mcmc.LoadLeader | source/solvers/mcmc.cpp:177-179 | The leader, the candidates and their log-likelihoods take the checkpoint's values. |
| McmcSolver.Mcmc.LoadDatabase | source/solvers/mcmc.cpp:180-181 | The database's first `databaseEntries` slots take the checkpoint's points and values. |
| McmcSolver.Mcmc.LoadCovariances | source/solvers/mcmc.cpp:182-184 | The chain mean, the chain covariance and the proposal covariance take the checkpoint's values. |
| McmcSolver.Mcmc.Load | source/solvers/mcmc.cpp:167-188 | After loading, the solver's state is exactly the checkpoint's. |
| McmcSolver.Mcmc.Restore | source/solvers/mcmc.cpp:66-71 | Restoring succeeds exactly when the document reads under the source's keys ("FunctionEvaluations", "Candidate") and fits the buffers; the state is then the one read, and a refusal changes no counter. Together with `SaveState`, no checkpoint the solver writes is ever restored. |
| McmcSolver.Mcmc.Round | source/solvers/mcmc.cpp:208-211 | One generate/evaluate/accept round adds one evaluation, one generated candidate and n Gaussian draws. The candidate's log-likelihood is its fitness plus its log-prior. The round accepts exactly when `Accepts` holds for the delayed-rejection alpha and the next uniform draw, and a draw is used only when alpha is below 1. On acceptance the leader becomes that candidate; otherwise it is unchanged. The other levels' candidates are unchanged. |
| McmcSolver.Mcmc.Rounds | source/solvers/mcmc.cpp:205-213 | Exactly `rejectionLevels` rounds, with no early exit on acceptance. `countevals` and `countgens` rise by `rejectionLevels`, and `naccept` by the number of accepting rounds. After the rounds the leader is the candidate of the last accepting round, or the old leader when no round accepted. |
| McmcSolver.Mcmc.Generation | source/solvers/mcmc.cpp:205-216 | After the rounds (leader as in `Rounds`), `chainLength` rises by exactly 1. Past the burn-in the leader goes to the next database slot and earlier slots are unchanged; appending to a full database is a fault, exactly then. The acceptance rate becomes accepted/chain length, and the chain mean and covariance take the `Mean` and `Covariance` update with the new leader (unchanged while the database is empty). |
| McmcSolver.Mcmc.Advance | source/solvers/mcmc.cpp:203-222 | A generation followed by `saveState`. It fails exactly when the database is full past the burn-in or a checkpoint is due with a zero output frequency. On success the checkpoint list gains `WriteState` of the new state exactly when a save is due; a failure writes none. Termination is not decided here. |
| McmcSolver.Mcmc.Run | source/solvers/mcmc.cpp:194-228 | The counters grow by `rejectionLevels` per generation and the finished flag is never cleared; an already finished solver runs no generation. Unless a fault occurs, the solver ends finished exactly when it was finished, the evaluation cap is reached or `databaseEntries == chainLength`. The checkpoints only grow, by at most one per generation plus the initial save. A fresh run (`databaseEntries == chainLength`) runs no generation, and finishes when the output frequency is positive; with frequency 0 the first save divides by zero and the run faults. |
| RlConfig.AsCount | source/modules/problem/reinforcementLearning/reinforcementLearning.cpp:433 | A count is read exactly from a non-negative number, dropping its fraction; anything else, booleans included, is refused. |
| RlConfig.Without | source/modules/problem/reinforcementLearning/reinforcementLearning.cpp:397-471 | Erasing keys removes exactly those keys and keeps every other value. |
| RlConfig.CheckOptional | source/modules/problem/reinforcementLearning/reinforcementLearning.cpp:399-429 | An optional size, when present, must be a count; an optional index list must be a list of counts. |
| RlConfig.MandatoryCount | source/modules/problem/reinforcementLearning/reinforcementLearning.cpp:431-465 | A mandatory count must be present and a count. |
| RlConfig.Mandatory | source/modules/problem/reinforcementLearning/reinforcementLearning.cpp:467-473 | The custom settings must be present and are taken as they are. |
| RlConfig.MandatorySettings | source/modules/problem/reinforcementLearning/reinforcementLearning.cpp:431-473 | The five mandatory settings read successfully exactly when all are present and well typed; each value is the key's. |
| RlConfig.Bound | source/modules/problem/reinforcementLearning/reinforcementLearning.cpp:492-508 | A bound must be present and a float, finite or not. |
| RlConfig.ParseVariable | source/modules/problem/reinforcementLearning/reinforcementLearning.cpp:477-508 | A variable is accepted exactly when its type is "State" or "Action" and both bounds are floats; its kind and bounds are the document's. |
| RlConfig.ParseVariables | source/modules/problem/reinforcementLearning/reinforcementLearning.cpp:475-510 | All variables are accepted exactly when each is, and in order. |
| RlConfig.ParseVariablesStopsAtFirst | source/modules/problem/reinforcementLearning/reinforcementLearning.cpp:476-510 | The refusal is the first failing variable's. |
| RlConfig.Lower | source/modules/problem/reinforcementLearning/reinforcementLearning.cpp:512 | `toLower` leaves no upper-case letter and does not change spacing. |
| RlConfig.Normalize | source/modules/problem/reinforcementLearning/reinforcementLearning.cpp:512-514 | The normalised solver name has no white space and no upper-case letter. |
| RlConfig.NormalizeFixed | source/modules/problem/reinforcementLearning/reinforcementLearning.cpp:515-516 | An already lower-case name without white space, such as "agent", is its own normal form. |
| RlConfig.NormalizeIdempotent | source/modules/problem/reinforcementLearning/reinforcementLearning.cpp:512-514 | Normalising twice is normalising once. |
| RlConfig.CompatibleSolverNormalized | source/modules/problem/reinforcementLearning/reinforcementLearning.cpp:511-517 | Spacing and letter case of the solver type do not change compatibility. |
| RlConfig.CheckSolver | source/modules/problem/reinforcementLearning/reinforcementLearning.cpp:511-518 | The solver is accepted exactly when its type is a string whose normal form starts with "agent". |
| RlConfig.Configuration | source/modules/problem/reinforcementLearning/reinforcementLearning.cpp:395-524 | A missing or ill-typed mandatory setting refuses the configuration. Accepted settings hold the documents' values, and each variable is parsed from its document. |
| RlConfig.ConfigurationAccepted | source/modules/problem/reinforcementLearning/reinforcementLearning.cpp:395-524 | A configuration is accepted exactly when the optional settings are well typed, the mandatory ones are present and well typed, every variable is well formed, the solver is compatible, and no key is left over. |
| RlConfig.ConfigurationRefusals | source/modules/problem/reinforcementLearning/reinforcementLearning.cpp:482-523 | A variable typed other than "State"/"Action", a key nobody consumes, or an incompatible solver refuses the configuration. |
| RlConfig.Take | source/modules/problem/reinforcementLearning/reinforcementLearning.cpp:399-404 | Taking a key gives its value and the document without it. |
| RlConfig.TakeOptionals | source/modules/problem/reinforcementLearning/reinforcementLearning.cpp:397-429 | "Results" and the four optional settings are checked and erased. |
| RlConfig.TakeMandatories | source/modules/problem/reinforcementLearning/reinforcementLearning.cpp:431-473 | The mandatory settings are read and erased, stopping at the first missing one. |
| RlConfig.TakeVariables | source/modules/problem/reinforcementLearning/reinforcementLearning.cpp:475-510 | Each variable's type and bounds are read and erased in order. |
| RlConfig.SetConfiguration | source/modules/problem/reinforcementLearning/reinforcementLearning.cpp:395-524 | Consuming the document key by key gives `Configuration`'s result. An accepted document is left empty, and each variable's document loses exactly its type and bounds. |
| RlProblem.TerminationCheck | source/modules/problem/reinforcementLearning/reinforcementLearning.cpp:76-82 | A finished environment passes exactly when its status is "Terminal" or "Truncated". |
| RlProblem.WrapState | source/modules/problem/reinforcementLearning/reinforcementLearning.cpp:344-349 | With one agent, a flat float vector is wrapped into a one-agent array and anything else is an error; with more agents the state is untouched. |
| RlProblem.StateRows | source/modules/problem/reinforcementLearning/reinforcementLearning.cpp:351-363 | The state is accepted exactly when it is an array of one vector per agent, each of `stateVectorSize` finite numbers. |
| RlProblem.Scale | source/modules/problem/reinforcementLearning/reinforcementLearning.cpp:371-372 | A rescaled component times the deviation plus the mean is the original; a zero deviation gives a non-finite value. |
| RlProblem.NormalizedState | source/modules/problem/reinforcementLearning/reinforcementLearning.cpp:365-376 | Every state component is replaced by (x − mean[d]) / sdev[d], keeping the shape. |
| RlProblem.WrapReward | source/modules/problem/reinforcementLearning/reinforcementLearning.cpp:379-384 | With one agent, a scalar float reward is wrapped into a one-agent array. |
| RlProblem.RewardValues | source/modules/problem/reinforcementLearning/reinforcementLearning.cpp:386-392 | The reward is accepted exactly when it is an array of one finite number per agent. |
| RlProblem.ObserveSpec | source/modules/problem/reinforcementLearning/reinforcementLearning.cpp:343-392 | The leader goes on exactly when the state and reward are well formed. Each state component is then rescaled, the reward is one finite number per agent, and no other field changes. |
| RlProblem.ObserveKeeps | source/modules/problem/reinforcementLearning/reinforcementLearning.cpp:343-392 | Observing keeps the termination status and leaves an array state and a valid reward. |
| RlProblem.Column | source/modules/problem/reinforcementLearning/reinforcementLearning.cpp:146-155 | Every agent's entry of a field; indexing a value that is neither an array nor null throws. |
| RlProblem.UnwrapAction | source/modules/problem/reinforcementLearning/reinforcementLearning.cpp:159 | A single agent's action is its first entry, which must be a float vector. |
| RlProblem.RewardRows | source/modules/problem/reinforcementLearning/reinforcementLearning.cpp:164-166 | One reward row per recorded experience, in order. |
| RlProblem.ColumnTotals | source/modules/problem/reinforcementLearning/reinforcementLearning.cpp:177-179 | Each agent's training reward is the sum of its recorded rewards. |
| RlProblem.TotalByDecision | source/modules/problem/reinforcementLearning/reinforcementLearning.cpp:245-252 | Summing the agents' totals equals summing each decision's rewards, so the testing reward does not depend on the order of the sums. |
| RlProblem.SumOfSums | source/modules/problem/reinforcementLearning/reinforcementLearning.cpp:245-246 | Adding two reward vectors entrywise adds their sums. |
| RlProblem.ZeroSum | source/modules/problem/reinforcementLearning/reinforcementLearning.cpp:213 | The totals start at zero. |
| RlProblem.DivStep | source/modules/problem/reinforcementLearning/reinforcementLearning.cpp:185-187 | The request count rises by one exactly at multiples of the period. |
| RlProblem.IndexesOfSpec | source/modules/problem/reinforcementLearning/reinforcementLearning.cpp:45-51 | An index list holds exactly the positions of the variables of its kind, strictly increasing. |
| RlProblem.NumbersInverse | source/modules/problem/reinforcementLearning/reinforcementLearning.cpp:276-277 | The rescaling vectors, read as numbers and written back, are the vectors in the sample. |
| RlProblem.ReinforcementLearning.Initialize | source/modules/problem/reinforcementLearning/reinforcementLearning.cpp:42-61 | The index lists are the positions of the "State" and "Action" variables in order, and the sizes are their lengths. An empty list of either kind is an error. The launch counter resets to 0. |
| RlProblem.ReinforcementLearning.InitializeEnvironment | source/modules/problem/reinforcementLearning/reinforcementLearning.cpp:261-293 | The rescaling means and deviations must be number vectors and are stored. The sample becomes `Initialized`: the custom settings copied in and the reward zeroed for every agent. A fresh coroutine is set up. |
| RlProblem.ReinforcementLearning.Resume | source/modules/problem/reinforcementLearning/reinforcementLearning.cpp:66-88 | Resuming a finished environment is an error. The first resume stamps "Launch Id" and increments the counter; each resume runs the environment to its next suspension. On a leader, a final status other than "Terminal"/"Truncated" is an error. |
| RlProblem.ReinforcementLearning.NormalizeRows | source/modules/problem/reinforcementLearning/reinforcementLearning.cpp:365-376 | The nested loop builds exactly `NormalizedState`. |
| RlProblem.ReinforcementLearning.ObserveSample | source/modules/problem/reinforcementLearning/reinforcementLearning.cpp:343-392 | The leader's checks pass exactly when `Observe` succeeds, and the sample becomes its result. |
| RlProblem.ReinforcementLearning.RunEnvironment | source/modules/problem/reinforcementLearning/reinforcementLearning.cpp:332-393 | One resume. A non-leader stops with no checks. A leader goes on exactly when the observation is valid (and, after the last resume, the status is final), and the sample is then observed and rescaled. Both cases together are `Observed` of what the resume left. |
| RlProblem.ReinforcementLearning.GetAction | source/modules/problem/reinforcementLearning/reinforcementLearning.cpp:321-330 | The policy's fields are written into the sample. |
| RlProblem.ReinforcementLearning.UnwrapSingleAction | source/modules/problem/reinforcementLearning/reinforcementLearning.cpp:157-159 | With one agent, the action becomes its first entry, which must be a float vector; otherwise nothing changes. |
| RlProblem.ReinforcementLearning.RequestNewPolicy | source/modules/problem/reinforcementLearning/reinforcementLearning.cpp:301-319 | Exactly one request carrying the sample id is sent, and the next reply becomes the sample's policy hyperparameters. |
| RlProblem.ReinforcementLearning.Decide | source/modules/problem/reinforcementLearning/reinforcementLearning.cpp:142-182 | The decision succeeds exactly when the acting sample can be indexed per agent and `Step` (policy, handed action, resume, observation) succeeds; the sample then becomes `Step`'s result. The experience `Records` state, action and policy of the acting sample, reward and termination of the answer, and the answer's state exactly when the status is "Truncated". |
| RlProblem.ReinforcementLearning.CollectExperiences | source/modules/problem/reinforcementLearning/reinforcementLearning.cpp:139-188 | In every outcome the experiences form a `Trajectory`: decision k goes by `Step` from the sample before it to the sample after it and records what that decision saw; between decisions only a scheduled policy request, carrying the engine's next reply, changes the sample. Only the last experience may be final. The loop fails exactly when the next decision is `Stuck`: the episode goes on but that sample cannot be split per agent or its `Step` fails. On success there is one experience per resume, the last one is final, the sample is `Next` (the last decision's answer), the totals are each agent's reward sum, and the outbox gains exactly `Requests(post)`: one policy request per due decision, each carrying that sample's id. |
| RlProblem.ReinforcementLearning.StartEpisode | source/modules/problem/reinforcementLearning/reinforcementLearning.cpp:97-121 | The start succeeds exactly when the rescaling vectors are readable and the first observation succeeds; once they are readable the environment is installed. The sample is then `FirstObservation`: the `Opened` sample (initialised, mode "Training" or "Testing", status "Non Terminal", "Environment Id" 0 for training) after the first resume, checked and rescaled on a leader. The launch counter has risen by one and one resume is done. |
| RlProblem.ReinforcementLearning.SchedulePolicyRequest | source/modules/problem/reinforcementLearning/reinforcementLearning.cpp:181-187 | After decision n + 1, exactly one policy request carrying the sample's id is appended when the episode goes on and n + 1 is a multiple of the period, and none otherwise. The request count then matches the schedule of `PolicyRequests`, and the sample becomes `Refreshed`: its policy hyperparameters are the engine's next reply exactly when a request was made. |
| RlProblem.ReinforcementLearning.SendEpisode | source/modules/problem/reinforcementLearning/reinforcementLearning.cpp:189-199 | The sample changes only in "Training Rewards", which holds the per-agent sums, and exactly one "Send Episodes" message carrying the sample id and the episode is appended. |
| RlProblem.ReinforcementLearning.RunTrainingEpisode | source/modules/problem/reinforcementLearning/reinforcementLearning.cpp:90-209 | The episode fails exactly when the rescaling vectors are unreadable, the first observation fails, or, on a leader, the environment id (`EpisodeId`, the "Environment Id" after the first resume, read as a count) is missing or not below the environment count, or the collection gets `Stuck`. Once the start and the id are good, the leader's experiences form a `Trajectory` from `FirstObservation` in either outcome. On success the launch counter rises by one. A non-leader records and sends nothing, and its sample is the `Opened` sample after the first resume. A leader's sample is the last decision's answer with "Training Rewards" set to the per-agent sums. Its outbox gains exactly `Requests(post)`, the policy requests carrying the sample ids, and then one "Send Episodes" message holding the episode. |
| RlProblem.ReinforcementLearning.TestStep | source/modules/problem/reinforcementLearning/reinforcementLearning.cpp:237-246 | One decision succeeds exactly when `Step` does, and the sample becomes its result; the rewards returned are that sample's valid reward vector. |
| RlProblem.ReinforcementLearning.TestDecisions | source/modules/problem/reinforcementLearning/reinforcementLearning.cpp:234-247 | In every outcome the decisions form a `TestTrajectory`: decision k leaves `post[k]` by `Step` from the sample before it, `rows[k]` are that sample's rewards, and all but the last are "Non Terminal". The loop fails exactly when the next decision is `TestStuck` (the episode goes on and its `Step` fails). On success the sample is the last decision's answer, its status is final, and the totals are each agent's sum of the rows. |
| RlProblem.ReinforcementLearning.SumRewards | source/modules/problem/reinforcementLearning/reinforcementLearning.cpp:250-252 | The loop computes the sum of the agents' totals. |
| RlProblem.ReinforcementLearning.AddRewards | source/modules/problem/reinforcementLearning/reinforcementLearning.cpp:245-246 | Adding one decision's rewards extends the per-agent totals by that row. |
| RlProblem.ReinforcementLearning.RunTestingEpisode | source/modules/problem/reinforcementLearning/reinforcementLearning.cpp:211-259 | The episode fails exactly when the rescaling vectors are unreadable, the first observation fails, or, on a leader, a decision is `TestStuck`. On a leader whose start succeeded the decisions form a `TestTrajectory` from `FirstObservation` in either outcome. A non-leader's sample is the `Opened` sample (mode "Testing") after the first resume, and it observes nothing. On success a leader's sample is the last decision's answer, with a final status and "Testing Reward" set to the sum of the rewards the environment returned, over all agents and decisions, divided by the number of agents. |
| RlProblem.ReinforcementLearning.RunOperation | source/modules/problem/reinforcementLearning/reinforcementLearning.cpp:567-586 | The two episode operations and the base problem's are handled, and anything else is an error. A base operation changes nothing in this model. |

## Left out

- Coroutines (`co_create`, `co_switch`, `co_delete`, `co_active`) are not modelled as context switches. The environment is the `Environment` value: the number of suspensions and what each resume writes into the sample. `finalizeEnvironment` frees the coroutine and has no other effect.
- The engine transport (`KORALI_SEND_MSG_TO_ENGINE`, `KORALI_RECV_MSG_FROM_ENGINE`) is an outbox sequence and a reply function.
- `setAgentPolicy`, `resetTimeSequence` and the agent's `getAction` call into the learner. `getAction` is the `policy` parameter; the other two have no effect in this model.
- Profiling times, `std::chrono`, printing (`printGeneration`, `printFinal`), the random generators and GSL are not modelled; the draws are functions of the draw index.
- Floating point is not modelled: single and double precision are `real`, so rounding, overflow and NaN propagation are not represented. A zero rescaling deviation gives `JNonFinite`.
- RlProblem.ReinforcementLearning.Resume: when a non-leader's environment returns, the wrapper returns from the coroutine's entry function (reinforcementLearning.cpp:75), which the coroutine library does not define; the model lets that resume pass.
- RlProblem.ReinforcementLearning.InitializeEnvironment: a rescaling vector holding a non-finite value is refused. The source reads it as a float and a later state check would follow; a rescaling vector shorter than the state is not checked by the source (an out-of-bounds read) and fails `Observe` here.
- RlProblem.ReinforcementLearning.RunTrainingEpisode: the final sample omits "Computation Time", "Communication Time" and "Policy Evaluation Time", which the source writes into the sample last (reinforcementLearning.cpp:206-208); profiling is not modelled.
- RlProblem.Column: `operator[]` on a non-const array that is too short pads it with nulls; the model reads null without changing the sample.
- RlConfig.AsCount: a negative number is refused. `get<size_t>` does not refuse it: a negative integer wraps modulo 2⁶⁴ and a negative double converts with undefined behaviour.
- McmcConfig.ConsumeCount: a negative number is refused, where the assignment to a `size_t` setting converts it as above.
- McmcCheckpoint.ReadCount: a negative number is refused, where the assignment to a `size_t` counter converts it as above.
- RlProblem.StateRows: a boolean state entry is refused, although `get<float>` (reinforcementLearning.cpp:362) converts it to 0 or 1.
- RlProblem.RewardValues: a boolean reward is refused, although `get<float>` (reinforcementLearning.cpp:368, 392) converts it to 0 or 1.
- RlProblem.ReinforcementLearning.InitializeEnvironment: a boolean in a rescaling vector is refused, although `get<std::vector<float>>` (reinforcementLearning.cpp:276-277) converts it to 0 or 1.
- RlConfig.IsFloat: booleans are refused, although `get<float>` converts them to 0 or 1; the same holds for `RlProblem.IsFloatVector` on state vectors and actions.
- McmcConfig.SetConfiguration: with no variables and no covariance scaling given, the source hands the text of 2.4·2.4/0 ("inf") to `consume` as the default; `consume` is not part of this model, and the configuration is refused.
- The base `Problem::setConfiguration` and `Problem::runOperation` are not part of this model; they are the parameters `baseKeys` and `baseOperations`.
- RlConfig.Configuration does not store the optional vector sizes and index lists; `initialize` recomputes them from the variables.
- `applyModuleDefaults`, `applyVariableDefaults` (which merge defaults into the document before `setConfiguration`) and `getConfiguration` of the reinforcement-learning problem are not modelled; `mergeJson` is not part of this model. An absent "Variables" list is the empty sequence.
- `toLower` and `isspace` are ASCII and C-locale only.
- `MCMC::getConfiguration` is modelled only for its "State" part (`WriteState`); the settings it echoes back are not.
- McmcSolver.Mcmc.Generation: appending past the database's end is a fault rather than an out-of-bounds write. Mcmc.Restore likewise refuses a checkpoint larger than the buffers.
- McmcSolver.Mcmc.Run takes a `fuel` bound on the number of generations, because a run with the evaluation cap off need not end; `OutOfFuel` is not a state of the source.
- McmcSolver.Mcmc.Restore reads the whole checkpoint before changing anything. The source assigns field by field and throws partway; the partially restored state is not modelled.
- `countgens` is not written to the checkpoint by the source, and the model keeps it out of `Snapshot`.
- McmcSolver.Mcmc.UpdateState: the solver runs the symmetric covariance update `McmcStatistics.Covariance`, not line 373 as written, which blends the upper entry from the lower one just updated (see Findings; `McmcStatistics.CovarianceAsWritten` models the line). After such an update the adaptive proposals of the source draw from a different matrix than the model's.
- McmcSolver.Mcmc.BlendRow: copies the new lower entry to the upper one instead of blending it a second time, for the same reason.
- McmcSolver.Mcmc.BlendCovariance: gives the symmetric matrix instead of line 373's result, for the same reason.
- McmcSolver.Mcmc.AcceptanceProbability: uses the corrected recursion `DelayedRejection.Alpha`, which carries the denominator through a level whose numerator is 0. `DelayedRejection.AsWrittenAgrees` shows it equals the source's value wherever that value is determined; elsewhere the source reads an unassigned variable (see Findings).
- McmcSolver.Mcmc.Rounds: the ghost list of accepting rounds is not tied to each round's alpha and uniform draw in the contract; that tie is stated per round by `Mcmc.Round`. `Rounds`, `Generation` and `Advance` bound the number of uniform draws without fixing it.

## Findings

| source | as written | input that shows it | evidently intended | confidence | as-written member | corrected member |
|---|---|---|---|---|---|---|
| source/solvers/mcmc.cpp:275-280 | A level whose numerator is 0 returns before assigning `denom`, and the next level multiplies that unassigned value | log-likelihoods 0, 0, 1 with any leader: level 1 returns 0 early, and level 2 has a positive numerator and reads its uninitialised `denom1` | the denominator recursion `denom(N) = denom(N−1)·(1 − α(N−1))` holds at every level | not executed | DelayedRejection.UnassignedDenominatorRead | DelayedRejection.DenominatorClosedForm |
| source/solvers/mcmc.cpp:373 | The upper entry `chainCov[e][d]` is blended from `chainCov[d][e]`, which the line before has already updated | two coordinates, mean (0, 0), zero covariance, scaling 1, second database entry (1, 1): 0.125 below the diagonal, 0.1875 above | the chain covariance stays symmetric: both entries get the same blended value | not executed | McmcStatistics.AsymmetricCovarianceAsWritten | McmcStatistics.CovarianceSymmetric |
| source/solvers/mcmc.cpp:169 | `setState` reads "FunctionEvaluations" and "Candidate", but `getConfiguration` writes "Function Evaluations" (line 113) and "Candidates" (line 122) | any checkpoint the solver writes: the evaluation count is missing under the reader's key | a written checkpoint restores to the same state | not executed | McmcCheckpoint.RestoreAsWrittenFails | McmcCheckpoint.RestoreRoundTrip |
