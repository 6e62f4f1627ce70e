/** The worker pool: the map from queue-set to the pids of the workers forked for it, and the
    operations that fork, signal and forget workers. */
module WorkerPool {
  import opened Wrappers
  import opened OrderedArrays
  import opened Signals
  import opened PlatformAdapter
  import opened PoolSpec
  import Config

  class Pool {
    const config: Config.Configuration
    const platform: Platform
    /** `$workers`: queue-set => pids, in insertion order. */
    var workers: Workers
    /** `$waitingForReaper`: declared false and never assigned anywhere else. */
    var waitingForReaper: bool

    /** The configuration has been initialized, the signal queue is within its bound, and the
        map is a PHP array of PHP arrays. */
    ghost predicate Valid()
      reads this, config, platform
    {
      config.Filtered() && platform.Valid() && WellFormed(workers)
    }

    /** What the pool's operations read and change, as a value. */
    function State(): PoolState
      reads this, platform
    {
      PoolState(workers, platform.kills, platform.forkScript, platform.waitScript)
    }

    /** `new Pool($config)`; the platform is the configuration's. */
    constructor(config: Config.Configuration, platform: Platform)
      ensures this.config == config && this.platform == platform
      ensures workers == [] && !waitingForReaper
    {
      this.config := config;
      this.platform := platform;
      workers := [];
      waitingForReaper := false;
    }

    /** `waitingForReaper()`. */
    function WaitingForReaper(): (b: bool)
      reads this
      ensures b == waitingForReaper
    {
      waitingForReaper
    }

    /** `allPids()`: the pids of every queue-set, set after set. */
    method AllPidsOf() returns (pids: seq<int>)
      ensures pids == AllPids(workers)
      ensures |pids| == TotalRecorded(workers)
    {
      pids := [];
      var i := 0;
      while i < |workers|
        invariant 0 <= i <= |workers|
        invariant pids == AllPids(workers[..i])
      {
        AllPidsSnoc(workers[..i], workers[i]);
        TakeSnoc(workers, i + 1);
        pids := pids + workers[i].value;
        i := i + 1;
      }
      TakeAll(workers);
      AllPidsCount(workers);
    }

    /** `workerQueues($pid)`: the first queue-set whose set holds the pid; None stands for
        PHP's false. */
    method WorkerQueuesOf(pid: int) returns (r: Option<string>)
      ensures r == WorkerQueues(workers, pid)
      ensures r.None? <==> pid !in AllPids(workers)
    {
      var i := 0;
      while i < |workers|
        invariant 0 <= i <= |workers|
        invariant forall j :: 0 <= j < i ==> pid !in workers[j].value
      {
        if pid in workers[i].value {
          WorkerQueuesAt(workers, pid, i);
          return Some(workers[i].key);
        }
        i := i + 1;
      }
      WithoutWorkerAbsent(workers, pid);
      return None;
    }

    /** `spawnWorker($queues)`, parent side: fork and record whatever fork returned. */
    method SpawnWorker(q: string)
      modifies this`workers, platform`forkScript
      ensures State() == Spawned(old(State()), q)
    {
      var pid := platform.Fork();
      workers := WithWorker(workers, q, pid);
    }

    /** `deleteWorker($pid)`: unset the pid in the first set that holds it. */
    method DeleteWorker(pid: int)
      modifies this`workers
      ensures workers == WithoutWorker(old(workers), pid)
    {
      var i := 0;
      while i < |workers|
        invariant 0 <= i <= |workers| && workers == old(workers)
        invariant forall j :: 0 <= j < i ==> pid !in workers[j].value
      {
        if pid in workers[i].value {
          WithoutWorkerAt(workers, pid, i);
          workers := workers[i := Entry(workers[i].key, RemoveAll(workers[i].value, pid))];
          return;
        }
        i := i + 1;
      }
      WithoutWorkerAbsent(workers, pid);
    }

    /** `reapAllWorkers($wait)`: delete every dead child nextDeadChild reports. */
    method ReapAllWorkers(wait: bool)
      requires Valid()
      modifies this`workers, platform`waitScript
      ensures State() == Reaped(old(State()))
      ensures Valid()
    {
      ReapedWellFormed(State());
      while true
        invariant Reaped(State()) == Reaped(old(State()))
        invariant platform.kills == old(platform.kills) && platform.forkScript == old(platform.forkScript)
        decreases |platform.waitScript|
      {
        var exited := platform.NextDeadChild(wait);
        if exited.None? {
          return;
        }
        DeleteWorker(exited.value.pid);
      }
    }

    /** `maintainWorkerCount()`: for each known queue-set, fork the missing workers or send
        SIGQUIT to the first excess ones. */
    method MaintainWorkerCount()
      requires Valid()
      modifies this`workers, platform`forkScript, platform`kills
      ensures State() == Maintained(old(State()), config.Desired())
      ensures Valid()
    {
      var d := config.Desired();
      var queues := AllKnownQueues(Keys(d), workers);
      ghost var s0 := State();
      MaintainedQueuesWellFormed(s0, d, queues);
      var i := 0;
      while i < |queues|
        invariant 0 <= i <= |queues|
        invariant State() == MaintainedQueues(s0, d, queues[..i])
      {
        TakeTake(queues, i, i + 1);
        MaintainQueueSet(d, queues[i]);
        i := i + 1;
      }
      TakeAll(queues);
    }

    /** The body of maintainWorkerCount's loop for one queue-set. */
    method MaintainQueueSet(d: seq<Entry<int>>, q: string)
      modifies this`workers, platform`forkScript, platform`kills
      ensures State() == MaintainedQueue(old(State()), d, q)
    {
      var delta := WorkerDelta(workers, d, q);
      if delta > 0 {
        var remaining := delta;
        while remaining > 0
          invariant 0 <= remaining <= delta
          invariant State() == SpawnedTimes(old(State()), q, delta - remaining)
        {
          SpawnWorker(q);
          remaining := remaining - 1;
        }
      } else if delta < 0 {
        var pids := Take(PidsFor(workers, q), -delta);
        platform.SignalPids(PidList(pids), SIGQUIT);
      }
    }

    /** `signalAllWorkers($signal)`. */
    method SignalAllWorkers(sig: int)
      modifies platform`kills
      ensures State() == SignalledAll(old(State()), sig)
    {
      var pids := AllPidsOf();
      platform.SignalPids(PidList(pids), sig);
    }

    /** `gracefulWorkerShutdownAndWait($signal)`: QUIT every worker, then reap. */
    method GracefulWorkerShutdownAndWait()
      requires Valid()
      modifies this`workers, platform`kills, platform`waitScript
      ensures State() == Reaped(SignalledAll(old(State()), SIGQUIT))
      ensures Valid()
    {
      SignalAllWorkers(SIGQUIT);
      ReapAllWorkers(true);
    }

    /** `gracefulWorkerShutdown($signal)`: QUIT every worker without waiting. */
    method GracefulWorkerShutdown()
      modifies platform`kills
      ensures State() == SignalledAll(old(State()), SIGQUIT)
    {
      SignalAllWorkers(SIGQUIT);
    }

    /** `shutdownEverythingNow($signal)`: TERM every worker. */
    method ShutdownEverythingNow()
      modifies platform`kills
      ensures State() == SignalledAll(old(State()), SIGTERM)
    {
      SignalAllWorkers(SIGTERM);
    }
  }
}
