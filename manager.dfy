/** The pool manager: the signal dispatch table, one iteration of the supervision loop, and
    start-up. */
module Manager {
  import opened Wrappers
  import opened OrderedArrays
  import opened Signals
  import opened Config
  import opened PlatformAdapter
  import opened PoolSpec
  import opened WorkerPool

  /** The signals whose handler is trapDeferred. */
  const QUEUE_SIGS: seq<int> := [SIGQUIT, SIGINT, SIGTERM, SIGUSR1, SIGUSR2, SIGCONT, SIGHUP, SIGWINCH, SIGCHLD]

  /** What handleSignalQueue tells join: keep looping, stop (it returned true), or the
      process died of a fatal error while reloading the configuration. */
  datatype Handled = KeepRunning | ShutDown | Crashed(error: ConfigError)

  /** Everything the manager's step reads and changes, as a value: the platform's signal queue,
      flag, trapped set and sleeps, the configuration's queue config, and the pool's state. */
  datatype Snapshot = Snapshot(
    queue: seq<int>, quitOnExit: bool, trapped: set<int>, sleeps: seq<int>,
    queueConfig: seq<Entry<PhpValue>>, pool: PoolState)

  /** The settings the step reads and never changes. */
  datatype Settings = Settings(environment: Option<string>, handleWinch: bool, termBehavior: string, sleepTime: int)

  /** The pool state after the shutdown variant `termBehavior` selects for SIGTERM. */
  function TermShutdown(p: PoolState, termBehavior: string): PoolState {
    if termBehavior == "graceful_worker_shutdown_and_wait" then Reaped(SignalledAll(p, SIGQUIT))
    else if termBehavior == "graceful_worker_shutdown" then SignalledAll(p, SIGQUIT)
    else SignalledAll(p, SIGTERM)
  }

  /** SIGHUP: reset the queue config and reload it, then QUIT every worker and spawn the
      configured counts afresh. */
  function Reloaded(t: Snapshot, environment: Option<string>, load: ConfigLoad): (r: (Snapshot, Handled))
    ensures r.1 != ShutDown
  {
    var init := Initialized([], environment, load);
    if init.error.Some? then (t.(queueConfig := init.queueConfig), Crashed(init.error.value))
    else
      (t.(queueConfig := init.queueConfig, pool := Maintained(SignalledAll(t.pool, SIGQUIT), Ints(init.queueConfig))),
       KeepRunning)
  }

  /** SIGQUIT, SIGINT and SIGTERM: the shutdown each selects. */
  function Stopped(t: Snapshot, sig: int, termBehavior: string): Snapshot
    requires sig in [SIGQUIT, SIGINT, SIGTERM]
  {
    if sig == SIGQUIT then t.(quitOnExit := true, pool := Reaped(SignalledAll(t.pool, SIGQUIT)))
    else if sig == SIGINT then t.(pool := SignalledAll(t.pool, SIGQUIT))
    else t.(pool := TermShutdown(t.pool, termBehavior))
  }

  /** The action taken for one signal `sig` already removed from the queue. */
  function Handle(t: Snapshot, sig: int, st: Settings, load: ConfigLoad): (Snapshot, Handled) {
    if sig == SIGUSR1 || sig == SIGUSR2 || sig == SIGCONT then (t.(pool := SignalledAll(t.pool, sig)), KeepRunning)
    else if sig == SIGHUP then Reloaded(t, st.environment, load)
    else if sig == SIGWINCH then
      if st.handleWinch then (t.(queueConfig := [], pool := Maintained(t.pool, [])), KeepRunning)
      else (t, KeepRunning)
    else if sig in [SIGQUIT, SIGINT, SIGTERM] then (Stopped(t, sig, st.termBehavior), ShutDown)
    else (t, KeepRunning)
  }

  /** `handleSignalQueue()`: take at most one signal and act on it. */
  function Dispatch(s: Snapshot, st: Settings, load: ConfigLoad): (r: (Snapshot, Handled))
    ensures r.0.queue == if s.queue == [] then [] else s.queue[1..]
    ensures s.queue == [] ==> r == (s, KeepRunning)
    ensures r.1 == ShutDown <==> s.queue != [] && s.queue[0] in [SIGQUIT, SIGINT, SIGTERM]
    ensures r.1.Crashed? ==> s.queue[0] == SIGHUP
    ensures r.0.quitOnExit == (s.quitOnExit || (s.queue != [] && s.queue[0] == SIGQUIT))
    ensures r.0.trapped == s.trapped && r.0.sleeps == s.sleeps
    ensures AllIntegers(s.queueConfig) && !r.1.Crashed? ==> AllIntegers(r.0.queueConfig)
  {
    if s.queue == [] then (s, KeepRunning)
    else Handle(s.(queue := s.queue[1..]), s.queue[0], st, load)
  }

  /** One iteration of `join()`: reap without waiting, handle one signal, and when that leaves
      no signal pending, maintain the worker count and sleep. */
  function Iterated(s: Snapshot, st: Settings, load: ConfigLoad): (r: (Snapshot, Handled))
    requires AllIntegers(s.queueConfig)
    ensures r.1 == Dispatch(s.(pool := Reaped(s.pool)), st, load).1
    ensures r.0.sleeps == s.sleeps + if r.1 == KeepRunning && |s.queue| <= 1 then [st.sleepTime] else []
    ensures |s.queue| >= 2 ==> r.0 == Dispatch(s.(pool := Reaped(s.pool)), st, load).0
    ensures r.1 == KeepRunning && |s.queue| <= 1 ==>
      var h := Dispatch(s.(pool := Reaped(s.pool)), st, load).0;
      r.0.pool == Maintained(h.pool, Ints(h.queueConfig)) && r.0.queueConfig == h.queueConfig
  {
    var reaped := s.(pool := Reaped(s.pool));
    var (h, handled) := Dispatch(reaped, st, load);
    if handled != KeepRunning then (h, handled)
    else (Settled(h, st.sleepTime), KeepRunning)
  }

  /** The tail of join's loop: with no signal pending, maintain the worker count and sleep. */
  function Settled(h: Snapshot, sleepTime: int): Snapshot
    requires AllIntegers(h.queueConfig)
  {
    if h.queue == [] then h.(pool := Maintained(h.pool, Ints(h.queueConfig)), sleeps := h.sleeps + [sleepTime])
    else h
  }

  /** `start()`: trap the queued signals, then bring the pool to the configured counts. */
  function Started(s: Snapshot): Snapshot
    requires AllIntegers(s.queueConfig)
  {
    s.(trapped := s.trapped + (set x | x in QUEUE_SIGS), pool := Maintained(s.pool, Ints(s.queueConfig)))
  }

  /** SIGUSR1, SIGUSR2 and SIGCONT are forwarded to every recorded worker, in allPids order;
      the records, the scripts, the flag and the configuration are untouched. */
  lemma ForwardedToWorkers(s: Snapshot, st: Settings, load: ConfigLoad)
    requires s.queue != [] && s.queue[0] in [SIGUSR1, SIGUSR2, SIGCONT]
    ensures var r := Dispatch(s, st, load);
      && r.1 == KeepRunning
      && r.0.pool.kills == s.pool.kills + KillsFor(AllPids(s.pool.workers), s.queue[0])
      && r.0.pool.workers == s.pool.workers && r.0.pool.forks == s.pool.forks && r.0.pool.waits == s.pool.waits
      && r.0.queueConfig == s.queueConfig && r.0.quitOnExit == s.quitOnExit
  {
  }

  /** SIGINT stops the manager after sending QUIT to every worker; nothing is reaped and the
      QUIT flag is left as it was. */
  lemma InterruptOnlyBroadcasts(s: Snapshot, st: Settings, load: ConfigLoad)
    requires s.queue != [] && s.queue[0] == SIGINT
    ensures var r := Dispatch(s, st, load);
      && r.1 == ShutDown
      && r.0.pool.kills == s.pool.kills + KillsFor(AllPids(s.pool.workers), SIGQUIT)
      && r.0.pool.workers == s.pool.workers && r.0.pool.forks == s.pool.forks && r.0.pool.waits == s.pool.waits
      && r.0.queueConfig == s.queueConfig && r.0.quitOnExit == s.quitOnExit
  {
  }

  /** The three SIGTERM behaviours: QUIT to all and reap, QUIT to all, or TERM to all. Only
      the first consumes dead-child reports; none forks. */
  lemma TermShutdownSignals(p: PoolState, termBehavior: string)
    ensures TermShutdown(p, termBehavior).kills == p.kills + KillsFor(AllPids(p.workers),
      if termBehavior in ["graceful_worker_shutdown_and_wait", "graceful_worker_shutdown"] then SIGQUIT else SIGTERM)
    ensures TermShutdown(p, termBehavior).forks == p.forks
    ensures termBehavior != "graceful_worker_shutdown_and_wait" ==>
      TermShutdown(p, termBehavior).workers == p.workers && TermShutdown(p, termBehavior).waits == p.waits
  {
    ReapedFrame(SignalledAll(p, SIGQUIT));
  }

  /** SIGTERM stops the manager with the shutdown `termBehavior` selects; the QUIT flag and
      the configuration are untouched. */
  lemma TermShutsDown(s: Snapshot, st: Settings, load: ConfigLoad)
    requires s.queue != [] && s.queue[0] == SIGTERM
    ensures var r := Dispatch(s, st, load);
      && r.1 == ShutDown
      && r.0.pool == TermShutdown(s.pool, st.termBehavior)
      && r.0.queueConfig == s.queueConfig && r.0.quitOnExit == s.quitOnExit
  {
  }

  /** SIGWINCH with winch handling off, and any signal the table has no case for, only leave
      the queue. */
  lemma IgnoredSignals(s: Snapshot, st: Settings, load: ConfigLoad)
    requires s.queue != []
    requires (s.queue[0] == SIGWINCH && !st.handleWinch)
      || s.queue[0] !in [SIGUSR1, SIGUSR2, SIGCONT, SIGHUP, SIGWINCH, SIGQUIT, SIGINT, SIGTERM]
    ensures Dispatch(s, st, load) == (s.(queue := s.queue[1..]), KeepRunning)
  {
  }

  /** SIGHUP with a configuration that loads: QUIT goes to every worker recorded before the
      signal, then maintainWorkerCount runs against the new counts. The QUIT-ed workers stay
      recorded until they are reaped, so they still count towards those targets. */
  lemma HupQuitsThenMaintains(s: Snapshot, st: Settings, load: ConfigLoad)
    requires s.queue != [] && s.queue[0] == SIGHUP
    requires Initialized([], st.environment, load).error.None?
    requires Fresh(s.pool.workers, s.pool.forks)
    requires var d := Ints(Initialized([], st.environment, load).queueConfig);
      SpawnsNeeded(s.pool.workers, d, AllKnownQueues(Keys(d), s.pool.workers)) <= |s.pool.forks|
    ensures var r := Dispatch(s, st, load);
      var d := Ints(r.0.queueConfig);
      var ws := s.pool.workers;
      && r.1 == KeepRunning
      && r.0.queueConfig == Initialized([], st.environment, load).queueConfig
      && r.0.pool.kills == s.pool.kills + KillsFor(AllPids(ws), SIGQUIT) + QuitKills(ws, d, AllKnownQueues(Keys(d), ws))
      && (forall k :: k in Keys(d) && WorkerDelta(ws, d, k) >= 0 ==> |PidsFor(r.0.pool.workers, k)| == WorkerCount(d, k))
      && Fresh(r.0.pool.workers, r.0.pool.forks)
  {
    var d := Ints(Initialized([], st.environment, load).queueConfig);
    var signalled := SignalledAll(s.pool, SIGQUIT);
    MaintainedMeetsConfig(signalled, d);
  }

  /** SIGWINCH with handleWinch set: the queue config is emptied and every recorded worker is
      sent QUIT, in allPids order; nothing is forked. */
  lemma WinchQuitsEveryWorker(s: Snapshot, st: Settings, load: ConfigLoad)
    requires s.queue != [] && s.queue[0] == SIGWINCH && st.handleWinch
    requires UniqueKeys(s.pool.workers)
    ensures Dispatch(s, st, load)
      == (s.(queue := s.queue[1..], queueConfig := [], pool := SignalledAll(s.pool, SIGQUIT)), KeepRunning)
  {
    MaintainedEmptyConfigQuitsAll(s.pool);
  }

  /** SIGQUIT: every worker is sent QUIT, the reported children are reaped, the manager stops,
      and from then on an arriving SIGINT or SIGTERM is never queued. */
  lemma QuitShutsDownGracefully(s: Snapshot, st: Settings, load: ConfigLoad)
    requires s.queue != [] && s.queue[0] == SIGQUIT
    requires |s.queue| <= SIG_QUEUE_MAX_SIZE
    ensures var r := Dispatch(s, st, load);
      var before := AllPids(s.pool.workers);
      var after := AllPids(r.0.pool.workers);
      && r.1 == ShutDown && r.0.quitOnExit
      && r.0.pool.kills == s.pool.kills + KillsFor(before, SIGQUIT)
      && r.0.pool.forks == s.pool.forks
      && (forall p :: p in after ==> p in before)
      && (forall p :: p !in ReapedPids(s.pool.waits) ==> (p in after <==> p in before))
      && (forall p :: p in ReapedPids(s.pool.waits) && RecordedOnce(s.pool.workers, p) ==> p !in after)
      && Deferral(r.0.queue, r.0.quitOnExit, SIGINT) == ShortCircuited
      && Deferral(r.0.queue, r.0.quitOnExit, SIGTERM) == ShortCircuited
  {
    ReapedEffect(SignalledAll(s.pool, SIGQUIT));
  }

  /** An iteration that finds no signal: after reaping, the configured counts are met, fresh
      pids are used, and the manager sleeps once. */
  lemma IdleIterationMeetsConfig(s: Snapshot, st: Settings, load: ConfigLoad)
    requires AllIntegers(s.queueConfig) && s.queue == []
    requires Fresh(s.pool.workers, s.pool.forks)
    requires var p := Reaped(s.pool); var d := Ints(s.queueConfig);
      SpawnsNeeded(p.workers, d, AllKnownQueues(Keys(d), p.workers)) <= |p.forks|
    ensures var r := Iterated(s, st, load);
      var d := Ints(s.queueConfig);
      var p := Reaped(s.pool);
      && r.1 == KeepRunning && r.0.sleeps == s.sleeps + [st.sleepTime]
      && (forall k :: k in Keys(d) && WorkerDelta(p.workers, d, k) >= 0 ==> |PidsFor(r.0.pool.workers, k)| == WorkerCount(d, k))
      && Fresh(r.0.pool.workers, r.0.pool.forks)
  {
    var p := Reaped(s.pool);
    ReapedEffect(s.pool);
    assert Fresh(p.workers, p.forks);
    MaintainedMeetsConfig(p, Ints(s.queueConfig));
  }

  /** `start()`: all of QUEUE_SIGS are trapped and the configured counts are met. */
  lemma StartMeetsConfig(s: Snapshot)
    requires AllIntegers(s.queueConfig)
    requires Fresh(s.pool.workers, s.pool.forks)
    requires var d := Ints(s.queueConfig);
      SpawnsNeeded(s.pool.workers, d, AllKnownQueues(Keys(d), s.pool.workers)) <= |s.pool.forks|
    ensures var r := Started(s);
      var d := Ints(s.queueConfig);
      && (forall sig :: sig in QUEUE_SIGS ==> sig in r.trapped)
      && r.queue == s.queue && r.sleeps == s.sleeps
      && (forall k :: k in Keys(d) && WorkerDelta(s.pool.workers, d, k) >= 0 ==> |PidsFor(r.pool.workers, k)| == WorkerCount(d, k))
      && r.pool.kills == s.pool.kills + QuitKills(s.pool.workers, d, AllKnownQueues(Keys(d), s.pool.workers))
  {
    MaintainedMeetsConfig(s.pool, Ints(s.queueConfig));
  }

  /** Starting from an empty pool with enough fresh forks, the workers recorded are exactly
      as many as the configured counts add up to, all distinct. */
  lemma StartFromEmptyTotal(s: Snapshot)
    requires AllIntegers(s.queueConfig) && UniqueKeys(s.queueConfig)
    requires s.pool.workers == [] && NoDups(s.pool.forks)
    requires NonNegativeCounts(Ints(s.queueConfig)) && CountSum(Ints(s.queueConfig)) <= |s.pool.forks|
    ensures |AllPids(Started(s).pool.workers)| == CountSum(Ints(s.queueConfig))
    ensures NoDups(AllPids(Started(s).pool.workers))
  {
    MaintainedFromEmptyTotal(s.pool, Ints(s.queueConfig));
  }

  class PoolManager {
    const config: Configuration
    const platform: Platform
    const pool: Pool
    /** `$config->sleepTime`, set from outside the configuration. */
    const sleepTime: int

    ghost predicate Valid()
      reads this, config, platform, pool
    {
      pool.config == config && pool.platform == platform && pool.Valid()
    }

    function Snap(): Snapshot
      reads this, config, platform, pool, pool.platform
    {
      Snapshot(platform.sigQueue, platform.quitOnExitSignal, platform.trappedSignals, platform.sleeps,
        config.queueConfig, pool.State())
    }

    function SettingsOf(): Settings
      reads this, config
    {
      Settings(config.environment, config.handleWinch, config.termBehavior, sleepTime)
    }

    constructor Wrap(pool: Pool, sleepTime: int)
      ensures this.pool == pool && config == pool.config && platform == pool.platform
      ensures this.sleepTime == sleepTime
    {
      this.pool := pool;
      config := pool.config;
      platform := pool.platform;
      this.sleepTime := sleepTime;
    }

    /** `new PoolManager($pool)`: initialize the configuration; a fatal error there ends the
        process. */
    static method Create(pool: Pool, sleepTime: int, load: ConfigLoad) returns (r: Result<PoolManager, ConfigError>)
      requires pool.platform.Valid() && WellFormed(pool.workers)
      requires pool.config.Keyed() && (load.Loaded? ==> WellKeyed(load.contents))
      modifies pool.config`queueConfig
      ensures var init := Initialized(old(pool.config.queueConfig), pool.config.environment, load);
        && pool.config.queueConfig == init.queueConfig
        && (r.Failure? <==> init.error.Some?)
        && (r.Failure? ==> r.error == init.error.value)
        && (r.Success? ==> fresh(r.value) && r.value.pool == pool && r.value.sleepTime == sleepTime && r.value.Valid())
    {
      var m := new PoolManager.Wrap(pool, sleepTime);
      var err := pool.config.Initialize(load);
      if err.Some? {
        return Failure(err.value);
      }
      return Success(m);
    }

    /** `start()`. */
    method Start()
      requires Valid()
      modifies platform`trappedSignals, pool`workers, platform`forkScript, platform`kills
      ensures Valid()
      ensures Snap() == Started(old(Snap()))
    {
      platform.TrapSignals(QUEUE_SIGS);
      pool.MaintainWorkerCount();
    }

    /** The SIGHUP branch of `handleSignalQueue()`. */
    method Reload(load: ConfigLoad) returns (h: Handled)
      requires Valid() && (load.Loaded? ==> WellKeyed(load.contents))
      modifies config`queueConfig, pool`workers, platform`forkScript, platform`kills
      ensures (Snap(), h) == Reloaded(old(Snap()), config.environment, load)
      ensures !h.Crashed? ==> Valid()
    {
      config.ResetQueues();
      var err := config.Initialize(load);
      if err.Some? {
        return Crashed(err.value);
      }
      pool.SignalAllWorkers(SIGQUIT);
      pool.MaintainWorkerCount();
      return KeepRunning;
    }

    /** The SIGQUIT, SIGINT and SIGTERM branches of `handleSignalQueue()`. */
    method Stop(sig: int)
      requires Valid() && sig in [SIGQUIT, SIGINT, SIGTERM]
      modifies platform`quitOnExitSignal, pool`workers, platform`kills, platform`waitScript
      ensures Valid()
      ensures Snap() == Stopped(old(Snap()), sig, config.termBehavior)
    {
      if sig == SIGQUIT {
        platform.SetQuitOnExitSignal(true);
        pool.GracefulWorkerShutdownAndWait();
      } else if sig == SIGINT {
        pool.GracefulWorkerShutdown();
      } else if config.termBehavior == "graceful_worker_shutdown_and_wait" {
        pool.GracefulWorkerShutdownAndWait();
      } else if config.termBehavior == "graceful_worker_shutdown" {
        pool.GracefulWorkerShutdown();
      } else {
        pool.ShutdownEverythingNow();
      }
    }

    /** `handleSignalQueue()`. */
    method HandleSignalQueue(load: ConfigLoad) returns (h: Handled)
      requires Valid() && (load.Loaded? ==> WellKeyed(load.contents))
      modifies platform`sigQueue, platform`quitOnExitSignal, config`queueConfig, pool`workers
      modifies platform`forkScript, platform`kills, platform`waitScript
      ensures (Snap(), h) == Dispatch(old(Snap()), SettingsOf(), load)
      ensures !h.Crashed? ==> Valid()
    {
      var next := platform.NextSignal();
      if next.None? {
        return KeepRunning;
      }
      var sig := next.value;
      if sig == SIGUSR1 || sig == SIGUSR2 || sig == SIGCONT {
        pool.SignalAllWorkers(sig);
        h := KeepRunning;
      } else if sig == SIGHUP {
        h := Reload(load);
      } else if sig == SIGWINCH {
        if config.handleWinch {
          config.ResetQueues();
          pool.MaintainWorkerCount();
        }
        h := KeepRunning;
      } else if sig in [SIGQUIT, SIGINT, SIGTERM] {
        Stop(sig);
        h := ShutDown;
      } else {
        h := KeepRunning;
      }
    }

    /** The end of one iteration of `join()`'s loop. */
    method SettleIfIdle()
      requires Valid()
      modifies pool`workers, platform`forkScript, platform`kills, platform`sleeps
      ensures Valid()
      ensures Snap() == Settled(old(Snap()), sleepTime)
    {
      var pending := platform.NumSignalsPending();
      if pending == 0 {
        pool.MaintainWorkerCount();
        platform.Sleep(sleepTime);
      }
    }

    /** One iteration of `join()`'s loop. */
    method JoinIteration(load: ConfigLoad) returns (h: Handled)
      requires Valid() && (load.Loaded? ==> WellKeyed(load.contents))
      modifies platform`sigQueue, platform`quitOnExitSignal, config`queueConfig, pool`workers
      modifies platform`forkScript, platform`kills, platform`waitScript, platform`sleeps
      ensures (Snap(), h) == Iterated(old(Snap()), SettingsOf(), load)
      ensures !h.Crashed? ==> Valid()
    {
      pool.ReapAllWorkers(false);
      h := HandleSignalQueue(load);
      if h == KeepRunning {
        SettleIfIdle();
      }
    }
  }
}
