# php-resque-pool, modelled in Dafny

php-resque-pool runs a pool of Resque worker processes. A YAML file or a PHP array says how
many workers each queue-set (a comma-separated list of queue names) should have. Optionally,
a block per environment overrides the top-level counts. A manager process then:

- forks workers until each configured queue-set has its count;
- sends QUIT to the surplus workers;
- reaps children that exit;
- reacts to signals. It forwards USR1, USR2 and CONT to every worker. On HUP it reloads the
  configuration and restarts the workers. On WINCH it stops every worker, if asked to. On
  QUIT, INT and TERM it shuts down in one of three ways.

The model covers the four core classes:

- **`Config`** (`configuration.dfy`), the `Configuration` class.
  - Values are PHP array values: integers, strings, booleans, null and nested arrays.
  - Construction from an array, a path or nothing.
  - Reading `RESQUE_ENV`, `INTERVAL`, `VVERBOSE`, `LOGGING` and `VERBOSE` from the environment.
  - `initialize()`: load when empty, overlay the environment block with PHP's left-biased
    `+`, keep only integers.
  - `workerCount`, `knownQueues` and `resetQueues`.
- **`PlatformAdapter`** (`platform.dfy`), the `Platform` class: the seam to the operating
  system.
  - `pcntl_fork` hands out pids from a script of fork results.
  - `pcntl_waitpid` answers from a script.
  - `posix_kill` calls and `sleep` calls are appended to logs.
  - An arriving signal is an explicit call to `TrapDeferred`. That call queues the signal
    (at most 5 wait), drops it, or records exit status 1, the process's `exit(1)` (the QUIT
  short circuit).
- **`PoolSpec`** and **`WorkerPool`** (`pool_spec.dfy`, `pool.dfy`), the `Pool` class.
  - The recorded workers are an ordered map from queue-set to pids (`Workers`).
  - `PoolState` bundles those workers with the kill log and the fork and wait scripts.
  - `PoolSpec` defines what each operation does as a function of `PoolState`. Its lemmas prove
    what maintaining, reaping and signalling achieve.
  - The `Pool` class's methods are proved to update the state exactly as those functions say.
- **`Manager`** (`manager.dfy`), the `PoolManager` class.
  - `Dispatch` is the signal table of `handleSignalQueue`.
  - `Iterated` is one turn of `join`'s loop; `Started` is `start`.
  - The class's methods are proved against these functions.
  - Lemmas state what HUP, WINCH, QUIT, an idle iteration and start-up achieve.

`OrderedArrays` models PHP's ordered arrays with string keys: lookup, `+`, `array_unique` and
`array_slice` from the front. `Signals` holds the Linux signal numbers. `Wrappers` holds
`Option` and `Result`.

## Model

| member | source | states |
|---|---|---|
| Config.WorkerIntervalFrom | lib/Resque/Pool/Configuration.php:114 | the worker interval is the `INTERVAL` variable when that is truthy, and the default 5 otherwise |
| Config.LogLevelFrom | lib/Resque/Pool/Configuration.php:117-121 | verbose exactly when `VVERBOSE` is truthy; normal exactly when it is not and `LOGGING` or `VERBOSE` is; none otherwise |
| Config.ClassifyArgument | lib/Resque/Pool/Configuration.php:52-59 | an array becomes the queue config with no file; a string becomes the file path; null keeps `RESQUE_POOL_CONFIG`; anything else is an InvalidArgument error, and only that fails |
| Config.FilterIntegers | lib/Resque/Pool/Configuration.php:72 | the filtered array holds only integers, under keys of the input |
| Config.FilterIntegersLookup | lib/Resque/Pool/Configuration.php:72 | a key keeps its value after filtering exactly when that value is an integer; keys stay unique |
| Config.FilterKeepsIntegerArray | lib/Resque/Pool/Configuration.php:72 | an all-integer array passes the filter unchanged |
| Config.Ints | lib/Resque/Pool/Configuration.php:95-100 | the desired state has the same keys, in the same order, with each integer count |
| Config.LoadBase | lib/Resque/Pool/Configuration.php:64-67 | definition: a non-empty config is kept; an empty one is replaced by the file's contents or fails; ResetTakesFilePath states it |
| Config.Overlaid | lib/Resque/Pool/Configuration.php:68-72 | definition of the environment overlay and filter; EnvironmentOverlay, NoEnvironmentTopLevelOnly and EnvironmentNamingQueueAborts state it |
| Config.WorkerCount | lib/Resque/Pool/Configuration.php:81-84 | definition of `workerCount`; WorkerCountLookup states it |
| Config.WorkerCountLookup | lib/Resque/Pool/Configuration.php:81-84 | `workerCount` is the stored count for a configured queue-set and 0 for any other |
| Config.WorkerCountOfInts | lib/Resque/Pool/Configuration.php:81-84 | over a filtered config, `workerCount` reads the integer stored under the queue-set, or 0 when there is none |
| Config.Initialized | lib/Resque/Pool/Configuration.php:62-74 | an initialize that succeeds leaves only integer counts |
| Config.IntegersWellKeyed | lib/Resque/Pool/Configuration.php:72 | integer counts under unique keys nest nothing, so they form a PHP array |
| Config.InitializedKeyed | lib/Resque/Pool/Configuration.php:62-74 | initialize keeps the config a PHP array, and a successful one leaves counts under unique keys |
| Config.EnvironmentOverlay | lib/Resque/Pool/Configuration.php:68-72 | with the environment naming an array block, the block's integer counts win over the top-level ones; top-level counts the block does not mention stay; nothing else survives |
| Config.NoEnvironmentTopLevelOnly | lib/Resque/Pool/Configuration.php:68-72 | with no active environment, exactly the top-level integer counts remain |
| Config.PlainArrayPreserved | lib/Resque/Pool/Configuration.php:62-74 | a non-empty all-integer array is neither reloaded nor changed, so its keys are the known queue-sets |
| Config.EnvironmentNamingQueueAborts | lib/Resque/Pool/Configuration.php:68-69 | an environment named like an integer-valued key makes `int + array` a fatal error |
| Config.ResetTakesFilePath | lib/Resque/Pool/Configuration.php:64-67 | an empty config is replaced by the loaded file's contents, or fails on a file that does not parse |
| Config.Configuration.KnownQueues | lib/Resque/Pool/Configuration.php:89-92 | the known queue-sets are the keys of the desired state |
| Config.Configuration.WorkerCountFor | lib/Resque/Pool/Configuration.php:81-84 | an unknown queue-set wants 0 workers; a configured one wants the integer stored under it |
| Config.Configuration.FromSource | lib/Resque/Pool/Configuration.php:47-60 | the constructor stores the argument's queue config and file and reads the environment settings; the stored config is a PHP array |
| Config.Configuration.Create | lib/Resque/Pool/Configuration.php:47-60 | construction fails exactly for an unsupported argument; otherwise the new object holds the classified source and environment settings, and its config is a PHP array |
| Config.Configuration.Initialize | lib/Resque/Pool/Configuration.php:62-74 | the new queue config and error are those of `Initialized`; the config stays a PHP array; on success only integers remain, under unique keys |
| Config.Configuration.ResetQueues | lib/Resque/Pool/Configuration.php:105-108 | the queue config becomes empty: no known queue-sets, and every queue-set wants 0 workers |
| PlatformAdapter.Targets | lib/Resque/Pool/Platform.php:83-85 | a single pid is wrapped in a list; a list is used as is |
| PlatformAdapter.KillsFor | lib/Resque/Pool/Platform.php:87-89 | one kill per pid, in order, all with the given signal |
| PlatformAdapter.KillsForAppend | lib/Resque/Pool/Platform.php:87-89 | signalling two lists in turn equals signalling their concatenation |
| PlatformAdapter.ForkResult | lib/Resque/Pool/Platform.php:62-65 | the parent never sees 0; a fork with no child left to hand out returns -1 |
| PlatformAdapter.DeadChildOf | lib/Resque/Pool/Platform.php:163-175 | waitpid's 0 and -1 mean no dead child; any other pid is reported with its exit status |
| PlatformAdapter.Deferral | lib/Resque/Pool/Platform.php:124-136 | a signal is dropped exactly when 5 are already queued; it short-circuits exactly when there is room, the QUIT flag is set and it is INT or TERM |
| PlatformAdapter.QueueAfter | lib/Resque/Pool/Platform.php:124-136 | the queue never grows beyond 5; the arriving signal is appended exactly when there is room and it is not an INT or TERM with the QUIT flag set, and otherwise the queue is unchanged |
| PlatformAdapter.BurstKeepsFirstArrivals | lib/Resque/Pool/Platform.php:126-134 | with the QUIT flag clear, a burst of signals keeps the earliest arrivals, in order, up to the capacity, and drops the rest |
| PlatformAdapter.Platform.constructor | lib/Resque/Pool/Platform.php:24-29 | an empty queue, the QUIT flag clear, nothing trapped, nothing sent |
| PlatformAdapter.Platform.SetQuitOnExitSignal | lib/Resque/Pool/Platform.php:44-47 | sets the QUIT flag |
| PlatformAdapter.Platform.Exit | lib/Resque/Pool/Platform.php:54-57 | records the exit status |
| PlatformAdapter.Platform.Fork | lib/Resque/Pool/Platform.php:62-65 | returns the next scripted pid, or -1 when none is left |
| PlatformAdapter.Platform.Sleep | lib/Resque/Pool/Platform.php:71-74 | logs one sleep of the given length |
| PlatformAdapter.Platform.SignalPids | lib/Resque/Pool/Platform.php:81-90 | appends one kill per target pid, in order |
| PlatformAdapter.Platform.TrapSignals | lib/Resque/Pool/Platform.php:96-102 | adds the signals to the trapped set |
| PlatformAdapter.Platform.ReleaseSignals | lib/Resque/Pool/Platform.php:107-115 | empties the trapped set |
| PlatformAdapter.Platform.TrapDeferred | lib/Resque/Pool/Platform.php:124-136 | the queue becomes `QueueAfter`, keeps at most 5 entries, and exit status 1 is recorded exactly on a short circuit |
| PlatformAdapter.Platform.NumSignalsPending | lib/Resque/Pool/Platform.php:141-146 | the number of queued signals |
| PlatformAdapter.Platform.NextSignal | lib/Resque/Pool/Platform.php:151-157 | removes and returns the oldest queued signal, or nothing from an empty queue |
| PlatformAdapter.Platform.NextDeadChild | lib/Resque/Pool/Platform.php:163-175 | consumes one waitpid answer and reports it as `DeadChildOf` does |
| PoolSpec.PidsFor | lib/Resque/Pool/Pool.php:148-151 | definition: the pids recorded under a queue-set, none for an unrecorded one; PidsForInAllPids and WithWorkerPids state its properties |
| PoolSpec.AllPids | lib/Resque/Pool/Pool.php:97-109 | a pid is listed exactly when some queue-set records it; InAllPids and AllPidsCount restate this with the count |
| PoolSpec.WorkerDelta | lib/Resque/Pool/Pool.php:140-146 | definition: configured count minus recorded pids; WorkerDeltaCounts states both cases |
| PoolSpec.WithWorker | lib/Resque/Pool/Pool.php:185 | definition of `$this->workers[$queues][$pid] = true`; WithWorkerPids, WithWorkerKeys, WithWorkerAllPids and WithWorkerTotal state its effect |
| PoolSpec.WithoutWorker | lib/Resque/Pool/Pool.php:153-162 | definition of `deleteWorker`; WithoutWorkerAt, WithoutWorkerShape and WithoutWorkerPids state its effect |
| PoolSpec.Spawned | lib/Resque/Pool/Pool.php:172-186 | definition of the parent's side of `spawnWorker`; ForkFailureRecorded and the SpawnedTimes lemmas state its effect |
| PoolSpec.SpawnedTimes | lib/Resque/Pool/Pool.php:61-64 | definition of the spawn loop; SpawnedTimesAppends, SpawnedTimesFresh and SpawnedTimesTotal state its effect |
| PoolSpec.QuitFor | lib/Resque/Pool/Pool.php:65-68 | definition of one queue-set's surplus QUITs; MaintainedQueuesKills states them |
| PoolSpec.QuitKills | lib/Resque/Pool/Pool.php:65-68 | definition of the surplus QUITs over a list of queue-sets; QuitKillsEmptyConfig and MaintainedQueuesKills state them |
| PoolSpec.MaintainedQueue | lib/Resque/Pool/Pool.php:60-68 | definition of one loop turn; MaintainedQueueFrame states its effect |
| PoolSpec.MaintainedQueues | lib/Resque/Pool/Pool.php:57-70 | definition of the loop; the MaintainedQueues lemmas state its effect |
| PoolSpec.Maintained | lib/Resque/Pool/Pool.php:57-70 | definition of `maintainWorkerCount`; MaintainedMeetsConfig, MaintainedIdempotent and MaintainedFromEmptyTotal state its effect |
| PoolSpec.SignalledAll | lib/Resque/Pool/Pool.php:116-119 | definition of `signalAllWorkers`; QuitShutsDownGracefully states its effect |
| PoolSpec.Reaped | lib/Resque/Pool/Pool.php:77-84 | definition of `reapAllWorkers`; ReapedEffect, ReapedExactly and ReapedNoDups state its effect |
| PoolSpec.WorkerDeltaCounts | lib/Resque/Pool/Pool.php:140-146 | the delta is the configured count for an unrecorded queue-set, and the configured count minus the recorded pids otherwise |
| PoolSpec.InAllPids | lib/Resque/Pool/Pool.php:97-109 | a pid is in `allPids` exactly when some queue-set records it |
| PoolSpec.AllPidsCount | lib/Resque/Pool/Pool.php:97-109 | `allPids` has one entry per recorded worker |
| PoolSpec.WorkerQueues | lib/Resque/Pool/Pool.php:86-95 | `workerQueues` fails exactly for a pid no queue-set records; otherwise it names a recorded queue-set |
| PoolSpec.WorkerQueuesHolds | lib/Resque/Pool/Pool.php:86-95 | the queue-set `workerQueues` names does record the pid |
| PoolSpec.PidsForInAllPids | lib/Resque/Pool/Pool.php:148-151 | every pid of a queue-set is among all pids |
| PoolSpec.AllKnownQueues | lib/Resque/Pool/Pool.php:111-114 | no duplicates, and a queue-set appears exactly when it is configured or has a record |
| PoolSpec.WithWorkerPids | lib/Resque/Pool/Pool.php:185 | recording a pid adds it to its queue-set (once) and leaves every other queue-set alone |
| PoolSpec.WithWorkerKeys | lib/Resque/Pool/Pool.php:185 | a new queue-set key is appended at the end; existing keys keep their order |
| PoolSpec.WithWorkerAllPids | lib/Resque/Pool/Pool.php:185 | after recording, all pids are the old ones plus the new pid |
| PoolSpec.WithWorkerWellFormed | lib/Resque/Pool/Pool.php:185 | recording keeps keys unique and each pid set free of duplicates |
| PoolSpec.WorkerQueuesAfterRecord | lib/Resque/Pool/Pool.php:86-95 | a pid just recorded under a queue-set is found under it |
| PoolSpec.WithoutWorkerAt | lib/Resque/Pool/Pool.php:153-162 | `deleteWorker` removes the pid from the first queue-set holding it and changes nothing else |
| PoolSpec.WorkerQueuesAt | lib/Resque/Pool/Pool.php:86-95 | `workerQueues` names the first queue-set holding the pid |
| PoolSpec.WithoutWorkerAbsent | lib/Resque/Pool/Pool.php:153-162 | deleting an unrecorded pid changes nothing |
| PoolSpec.WithoutWorkerAllPids | lib/Resque/Pool/Pool.php:153-162 | with no pid recorded twice, deleting removes exactly that pid from all pids; every key stays, even one whose set empties |
| PoolSpec.WithoutWorkerWellFormed | lib/Resque/Pool/Pool.php:153-162 | deleting keeps the records well formed |
| PoolSpec.WithoutWorkerShape | lib/Resque/Pool/Pool.php:153-162 | deleting keeps the length and every key; each pid set is either unchanged or loses the pid |
| PoolSpec.WithoutWorkerPids | lib/Resque/Pool/Pool.php:153-162 | with no hypothesis on the records: deleting adds no pid and keeps every other pid; the pid itself is gone when only one queue-set recorded it |
| PoolSpec.NoDupsRecordedOnce | lib/Resque/Pool/Pool.php:97-109 | when `allPids` has no duplicate, no pid is recorded under two queue-sets |
| PoolSpec.RecordedTwice | lib/Resque/Pool/Pool.php:97-109 | a pid recorded under two queue-sets appears twice in `allPids` |
| PoolSpec.RecordedOnceAfterDelete | lib/Resque/Pool/Pool.php:153-162 | deleting a pid never makes another pid recorded twice |
| PoolSpec.ForkFailureRecorded | lib/Resque/Pool/Pool.php:172-186 | a failed fork's -1 is recorded as a worker of the queue-set |
| PoolSpec.SpawnedTimesFrame | lib/Resque/Pool/Pool.php:61-64 | spawning sends no signal and reaps nothing |
| PoolSpec.SpawnedTimesKeys | lib/Resque/Pool/Pool.php:61-64 | spawning appends the queue-set key only if it was missing |
| PoolSpec.SpawnedTimesWellFormed | lib/Resque/Pool/Pool.php:61-64 | spawning keeps the records well formed |
| PoolSpec.SpawnedTimesOthers | lib/Resque/Pool/Pool.php:61-64 | spawning for one queue-set leaves the others' pids alone |
| PoolSpec.SpawnedTimesFresh | lib/Resque/Pool/Pool.php:61-64 | spawning n workers uses exactly the next n forks, and the remaining forks are still unrecorded |
| PoolSpec.SpawnedTimesAppends | lib/Resque/Pool/Pool.php:61-64 | spawning n workers appends exactly those n forked pids to the queue-set |
| PoolSpec.SpawnedTimesUnrepeated | lib/Resque/Pool/Pool.php:61-64 | with fresh forks, no pid ever ends up recorded twice |
| PoolSpec.WithWorkerTotal | lib/Resque/Pool/Pool.php:185 | recording a pid not yet recorded adds one worker to the total |
| PoolSpec.SpawnedTimesTotal | lib/Resque/Pool/Pool.php:61-64 | with fresh forks, spawning n workers adds exactly n to the total |
| PoolSpec.MaintainedQueuesPids | lib/Resque/Pool/Pool.php:57-70 | maintaining never removes a pid, and leaves a queue-set with no positive delta untouched |
| PoolSpec.MaintainedQueuesKills | lib/Resque/Pool/Pool.php:65-68 | the only signals sent are QUITs to the first surplus pids of each over-staffed queue-set, in queue-set order |
| PoolSpec.MaintainedQueuesKeys | lib/Resque/Pool/Pool.php:57-70 | maintaining adds only keys of the queue-sets it visits and removes none |
| PoolSpec.MaintainedQueuesWellFormed | lib/Resque/Pool/Pool.php:57-70 | maintaining keeps the records well formed |
| PoolSpec.MaintainedQueuesForks | lib/Resque/Pool/Pool.php:57-70 | maintaining forks exactly the sum of the positive deltas, and the pids stay distinct |
| PoolSpec.MaintainedQueuesTarget | lib/Resque/Pool/Pool.php:57-70 | each visited queue-set with a non-negative delta ends with exactly its configured count |
| PoolSpec.NoSpawnWhenSatisfied | lib/Resque/Pool/Pool.php:57-70 | when no delta is positive, maintaining forks nothing and records nothing |
| PoolSpec.MaintainedMeetsConfig | lib/Resque/Pool/Pool.php:57-70 | every configured queue-set that was not over-staffed reaches its count; no pid is removed; the kills are exactly the surplus QUITs; pids stay fresh |
| PoolSpec.MaintainedIdempotent | lib/Resque/Pool/Pool.php:57-70 | a second maintainWorkerCount right after the first forks nothing and records nothing |
| PoolSpec.FromEmptyDelta | lib/Resque/Pool/Pool.php:140-146 | from an empty pool, each configured queue-set's delta at its turn is its whole count |
| PoolSpec.FromEmptySpawns | lib/Resque/Pool/Pool.php:57-64 | from an empty pool, the first n configured queue-sets need exactly the sum of their counts |
| PoolSpec.TurnTotal | lib/Resque/Pool/Pool.php:60-64 | a queue-set's turn with a non-negative delta and enough fresh forks adds exactly that delta to the total |
| PoolSpec.FromEmptyPrefix | lib/Resque/Pool/Pool.php:57-64 | from an empty pool, with enough fresh forks, the first n configured queue-sets get exactly the sum of their counts |
| PoolSpec.MaintainedFromEmptyTotal | lib/Resque/Pool/Pool.php:57-70 | from an empty pool, with non-negative counts and enough fresh forks, `allPids` afterwards holds exactly the sum of the configured counts, all distinct |
| PoolSpec.QuitKillsEmptyConfig | lib/Resque/Pool/Pool.php:65-68 | against an empty config every recorded worker is a surplus worker |
| PoolSpec.MaintainedEmptyConfigQuitsAll | lib/Resque/Pool/Pool.php:57-70 | maintaining against an empty config sends QUIT to every recorded worker in `allPids` order and changes nothing else |
| PoolSpec.ReapedPids | lib/Resque/Pool/Pool.php:79 | the reaped children are the dead-child answers before the first answer that is not one; neither 0 nor -1 is ever reaped |
| PoolSpec.ReapedEffect | lib/Resque/Pool/Pool.php:77-84 | with no hypothesis on the records: reaping sends nothing and forks nothing and keeps every key; it adds no pid; a pid that was not reaped keeps its membership; a reaped pid recorded under only one queue-set is gone; a recorded -1 stays |
| PoolSpec.ReapedWellFormed | lib/Resque/Pool/Pool.php:77-84 | reaping keeps the records well formed |
| PoolSpec.ReapedFrame | lib/Resque/Pool/Pool.php:77-84 | reaping sends nothing, forks nothing and keeps every key |
| PoolSpec.ReapedPid | lib/Resque/Pool/Pool.php:77-84 | for one pid, with no hypothesis on the records: reaping never adds it, keeps it if it was not reaped, and removes it if it was reaped and recorded under one queue-set |
| PoolSpec.ReapedExactly | lib/Resque/Pool/Pool.php:77-84 | with no pid recorded twice, the pids left are exactly the old ones minus the reaped children |
| PoolSpec.ReapedNoDups | lib/Resque/Pool/Pool.php:77-84 | reaping never makes a pid appear twice in `allPids` |
| WorkerPool.Pool.constructor | lib/Resque/Pool/Pool.php:28-40 | an empty pool, not waiting for the reaper |
| WorkerPool.Pool.WaitingForReaper | lib/Resque/Pool/Pool.php:72-75 | returns the flag |
| WorkerPool.Pool.AllPidsOf | lib/Resque/Pool/Pool.php:97-109 | the loop returns `AllPids`, one entry per recorded worker |
| WorkerPool.Pool.WorkerQueuesOf | lib/Resque/Pool/Pool.php:86-95 | the loop returns `WorkerQueues`, nothing exactly for an unrecorded pid |
| WorkerPool.Pool.SpawnWorker | lib/Resque/Pool/Pool.php:172-186 | the new state is `Spawned`: fork once and record the result |
| WorkerPool.Pool.DeleteWorker | lib/Resque/Pool/Pool.php:153-162 | the loop leaves the records equal to `WithoutWorker` |
| WorkerPool.Pool.ReapAllWorkers | lib/Resque/Pool/Pool.php:77-84 | the loop leaves the state equal to `Reaped` and keeps the records well formed |
| WorkerPool.Pool.MaintainWorkerCount | lib/Resque/Pool/Pool.php:57-70 | the loop over all known queue-sets leaves the state equal to `Maintained` for the configured counts |
| WorkerPool.Pool.MaintainQueueSet | lib/Resque/Pool/Pool.php:60-68 | one queue-set: spawn delta times, or QUIT the first -delta pids |
| WorkerPool.Pool.SignalAllWorkers | lib/Resque/Pool/Pool.php:116-119 | every recorded pid is sent the signal, in `allPids` order |
| WorkerPool.Pool.GracefulWorkerShutdownAndWait | lib/Resque/Pool/Pool.php:121-126 | QUIT to all, then reap |
| WorkerPool.Pool.GracefulWorkerShutdown | lib/Resque/Pool/Pool.php:128-132 | QUIT to all |
| WorkerPool.Pool.ShutdownEverythingNow | lib/Resque/Pool/Pool.php:134-138 | TERM to all |
| Manager.TermShutdown | lib/Resque/Pool/PoolManager.php:111-124 | definition: TERM waits, does not wait, or sends TERM, by `termBehavior`; TermShutdownSignals states what each sends |
| Manager.Handle | lib/Resque/Pool/PoolManager.php:77-126 | definition of the signal table for one signal; Dispatch, ForwardedToWorkers, HupQuitsThenMaintains, WinchQuitsEveryWorker, QuitShutsDownGracefully, InterruptOnlyBroadcasts, TermShutsDown and IgnoredSignals state its branches |
| Manager.Reloaded | lib/Resque/Pool/PoolManager.php:86-94 | the HUP branch never shuts down; HupQuitsThenMaintains states what it achieves |
| Manager.Stopped | lib/Resque/Pool/PoolManager.php:102-124 | definition of the QUIT, INT and TERM branches; QuitShutsDownGracefully states the QUIT one |
| Manager.Settled | lib/Resque/Pool/PoolManager.php:66-69 | definition: maintain and sleep once; IdleIterationMeetsConfig states what it achieves |
| Manager.Started | lib/Resque/Pool/PoolManager.php:47-57 | definition of `start`; StartMeetsConfig states what it achieves |
| Manager.Dispatch | lib/Resque/Pool/PoolManager.php:77-126 | at most one signal is consumed; the manager stops exactly on QUIT, INT or TERM; only HUP can crash; the QUIT flag is set exactly by QUIT; a successful step leaves only integer counts |
| Manager.Iterated | lib/Resque/Pool/PoolManager.php:61-71 | an iteration stops exactly when its signal handling does; with no signal left after it, it maintains against the handled config and sleeps once; with a signal still pending it only reaps and handles |
| Manager.HupQuitsThenMaintains | lib/Resque/Pool/PoolManager.php:86-94 | on HUP the reloaded config is installed; every old worker gets QUIT before any surplus QUIT; configured counts not exceeded are reached, the QUIT-ed workers still counting |
| Manager.WinchQuitsEveryWorker | lib/Resque/Pool/PoolManager.php:95-101 | on WINCH with winch handling on, the config empties and every worker is sent QUIT, nothing else |
| Manager.ForwardedToWorkers | lib/Resque/Pool/PoolManager.php:80-85 | USR1, USR2 and CONT are sent to every recorded pid in `allPids` order; the records, the scripts, the QUIT flag and the config are untouched, and the manager goes on |
| Manager.InterruptOnlyBroadcasts | lib/Resque/Pool/PoolManager.php:107-110 | INT stops the manager after sending QUIT to every pid; nothing is reaped, the QUIT flag and the config are untouched |
| Manager.TermShutdownSignals | lib/Resque/Pool/PoolManager.php:112-122 | TERM's shutdown sends QUIT to every pid for either graceful behaviour and TERM otherwise; none forks; only the waiting behaviour reaps |
| Manager.TermShutsDown | lib/Resque/Pool/PoolManager.php:111-124 | TERM stops the manager with the shutdown `termBehavior` selects; the QUIT flag and the config are untouched |
| Manager.IgnoredSignals | lib/Resque/Pool/PoolManager.php:79-126 | WINCH with winch handling off, and any signal the switch has no case for, only leave the queue |
| Manager.QuitShutsDownGracefully | lib/Resque/Pool/PoolManager.php:102-106 | on QUIT the manager stops and sets the QUIT flag, sends QUIT to every recorded pid and forks nothing; afterwards no pid is new, every pid not reaped is still recorded, every reaped pid recorded under one queue-set is gone, and a later INT or TERM short-circuits |
| Manager.IdleIterationMeetsConfig | lib/Resque/Pool/PoolManager.php:61-69 | an iteration with no signal reaps, reaches the configured counts and sleeps once |
| Manager.StartMeetsConfig | lib/Resque/Pool/PoolManager.php:47-57 | start traps every queued signal and reaches the configured counts |
| Manager.StartFromEmptyTotal | lib/Resque/Pool/PoolManager.php:47-57 | starting an empty pool with non-negative counts and enough fresh forks records exactly as many workers as the counts add up to, all distinct |
| Manager.PoolManager.Create | lib/Resque/Pool/PoolManager.php:35-45 | construction initializes the configuration and fails exactly when initialize does |
| Manager.PoolManager.Start | lib/Resque/Pool/PoolManager.php:47-57 | the new state is `Started` |
| Manager.PoolManager.HandleSignalQueue | lib/Resque/Pool/PoolManager.php:77-126 | the new state and answer are `Dispatch`'s |
| Manager.PoolManager.Reload | lib/Resque/Pool/PoolManager.php:86-94 | the HUP branch yields `Reloaded` |
| Manager.PoolManager.Stop | lib/Resque/Pool/PoolManager.php:102-124 | the QUIT, INT and TERM branches yield `Stopped` |
| Manager.PoolManager.SettleIfIdle | lib/Resque/Pool/PoolManager.php:66-69 | with no signal pending, the new state is maintained against the configured counts and one sleep is logged; otherwise nothing changes |
| Manager.PoolManager.JoinIteration | lib/Resque/Pool/PoolManager.php:61-71 | the new state and answer are `Iterated`'s |

## Left out

- The child side of `spawnWorker` is not modelled: `releaseSignals`, `createWorker`, the log
  level mapping, `callAfterPrefork`, `work` and `_exit` (lib/Resque/Pool/Pool.php:175-183,
  189-208). They run in a forked process that never returns to the pool. `ParentPid`
  excludes 0, so only the parent's branch exists.
- Real system calls are not modelled. `pcntl_fork` and `pcntl_waitpid` answer from scripts.
  `posix_kill` and `sleep` append to logs. `pcntl_signal` and `pcntl_signal_dispatch` are not
  modelled; an arriving signal is a call to `TrapDeferred`. The blocking of
  `reapAllWorkers(true)` is not modelled: the script decides when waiting ends.
- `join` is modelled one iteration at a time (`Iterated`, `JoinIteration`), because the loop
  has no bound.
- `chooseConfigFile`, `file_exists`, `getcwd` and the YAML parser are not modelled. What the
  file-loading path yields is the `ConfigLoad` parameter: the parsed contents, or a parse
  failure. The process environment is an `Environment` map parameter.
- Logging is not modelled: `Logger`, `procline`, `reportWorkerPoolPids`, `log` and the
  `$signal` argument of the three shutdown methods, which only feeds a log line.
- The `Configuration` fields read only by the left-out parts are not modelled: `appName`,
  `afterPreFork`, `workerClass` and `configFiles`.
- `Cli.php` is not part of this model. Nor is `PoolManager::run`, which only wires
  construction, `start` and `join` together.
- PHP turns numeric-string array keys into integers. This is not modelled: every key is a
  string.
- WorkerPool.Pool.constructor takes the platform as a parameter. The constructor at
  lib/Resque/Pool/Pool.php:39 reads `$config->platform`, which `Configuration` never
  declares.
- Manager.PoolManager.Create takes `sleepTime` as a parameter, for the same reason with
  `$config->sleepTime` (lib/Resque/Pool/PoolManager.php:68).
- PlatformAdapter.Platform.Exit records the exit status and returns; it does not end the
  process. Nothing in the model runs after it: `TrapDeferred` calls it last, and the model
  has no signal handler that interrupts other code.
- PHP arrays always have unique keys, at every level. A sequence of entries need not, so
  Config.Configuration.Create, Config.Configuration.Initialize, Manager.PoolManager.Create,
  Reload, HandleSignalQueue and JoinIteration require the arrays they are handed (the
  argument, the loaded file's contents) to be well keyed (`WellKeyed`).
- WorkerPool.Pool.MaintainWorkerCount requires an initialized configuration, with integer
  counts only. Every caller runs it after `initialize`.
- WorkerPool.Pool.GracefulWorkerShutdownAndWait, GracefulWorkerShutdown and
  ShutdownEverythingNow take no `$signal` argument; it only feeds a log line.
- PoolSpec.MaintainedMeetsConfig, IdleIterationMeetsConfig, StartMeetsConfig and
  HupQuitsThenMaintains assume the fork script holds enough fresh pids for the spawns. A
  failed fork records -1 as a worker (PoolSpec.ForkFailureRecorded), and then the counts
  hold only for that recorded -1.
- Three behaviours of the source are kept as written.
  - A failed fork's -1 is recorded as a worker.
  - `deleteWorker` leaves a queue-set key in place after its last pid goes.
  - `waitingForReaper` is never set to true.
