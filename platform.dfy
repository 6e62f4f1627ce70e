/** The seam around the operating system: fork, signals in and out, waitpid, sleep and exit.
    The OS itself is replaced by scripts (the pids fork hands out, the answers waitpid gives) and
    logs (the kills sent, the sleeps taken), so that what the pool does to processes can be
    stated. Asynchronous signal arrival is an explicit call to TrapDeferred. */
module PlatformAdapter {
  import opened Wrappers
  import opened Signals

  /** Capacity of the deferred-signal queue. */
  const SIG_QUEUE_MAX_SIZE := 5

  /** What pcntl_fork returns in the manager process: a child's pid, or -1 on failure. The
      child's own view (0) is not part of this model. */
  type ParentPid = p: int | p != 0 witness 1

  /** One `posix_kill($pid, $sig)`. */
  datatype Kill = Kill(pid: int, sig: int)

  /** One answer of `pcntl_waitpid(-1, $status, ...)`: the pid (0: none exited yet under
      WNOHANG, -1: no children) and the exit status it reports. */
  datatype WaitResult = WaitResult(wpid: int, status: int)

  /** A reaped child: `array($wpid, $exit)`. */
  datatype Exited = Exited(pid: int, status: int)

  /** The `$pids` argument of signalPids: a single pid or a list of them. */
  datatype PidTarget = OnePid(pid: int) | PidList(pids: seq<int>)

  /** What trapDeferred does with an incoming signal. */
  datatype Arrival = Queued | Dropped | ShortCircuited

  /** `if (!is_array($pids)) $pids = array($pids);` */
  function Targets(t: PidTarget): (ps: seq<int>)
    ensures t.OnePid? ==> ps == [t.pid]
    ensures t.PidList? ==> ps == t.pids
  {
    match t
    case OnePid(pid) => [pid]
    case PidList(pids) => pids
  }

  /** The kills that signal every pid of `pids` with `sig`, in list order. */
  function KillsFor(pids: seq<int>, sig: int): (ks: seq<Kill>)
    ensures |ks| == |pids|
    ensures forall i :: 0 <= i < |pids| ==> ks[i] == Kill(pids[i], sig)
  {
    seq(|pids|, i requires 0 <= i < |pids| => Kill(pids[i], sig))
  }

  lemma KillsForAppend(a: seq<int>, b: seq<int>, sig: int)
    ensures KillsFor(a + b, sig) == KillsFor(a, sig) + KillsFor(b, sig)
  {
  }

  /** The pid pcntl_fork hands the manager: the next scripted pid, or -1 once the OS can
      create no more processes. */
  function ForkResult(script: seq<ParentPid>): (pid: int)
    ensures pid != 0
    ensures script == [] ==> pid == -1
  {
    if script == [] then -1 else script[0]
  }

  function ForkRest(script: seq<ParentPid>): seq<ParentPid> {
    if script == [] then [] else script[1..]
  }

  /** nextDeadChild's mapping of a waitpid answer: 0 and -1 mean "no dead child". */
  function DeadChildOf(w: WaitResult): (r: Option<Exited>)
    ensures r.None? <==> w.wpid == 0 || w.wpid == -1
    ensures r.Some? ==> r.value.pid == w.wpid && r.value.status == w.status
  {
    if w.wpid == 0 || w.wpid == -1 then None else Some(Exited(w.wpid, w.status))
  }

  /** trapDeferred's decision: a full queue drops the signal; otherwise SIGINT and SIGTERM
      end the process once quitOnExitSignal is set, and everything else is queued. */
  function Deferral(queue: seq<int>, quitOnExitSignal: bool, sig: int): (a: Arrival)
    ensures a == Dropped <==> |queue| >= SIG_QUEUE_MAX_SIZE
    ensures a == ShortCircuited <==>
      |queue| < SIG_QUEUE_MAX_SIZE && quitOnExitSignal && (sig == SIGINT || sig == SIGTERM)
  {
    if |queue| < SIG_QUEUE_MAX_SIZE then
      if quitOnExitSignal && sig in [SIGINT, SIGTERM] then ShortCircuited else Queued
    else Dropped
  }

  /** The queue after one arrival. */
  function QueueAfter(queue: seq<int>, quitOnExitSignal: bool, sig: int): (q: seq<int>)
    ensures |queue| <= SIG_QUEUE_MAX_SIZE ==> |q| <= SIG_QUEUE_MAX_SIZE
    ensures q == queue || q == queue + [sig]
    ensures q == queue + [sig] <==>
      |queue| < SIG_QUEUE_MAX_SIZE && !(quitOnExitSignal && (sig == SIGINT || sig == SIGTERM))
  {
    if Deferral(queue, quitOnExitSignal, sig) == Queued then queue + [sig] else queue
  }

  /** The queue after a burst of signals that arrive before any is drained (no short circuit). */
  function AfterBurst(queue: seq<int>, sigs: seq<int>): seq<int> {
    if sigs == [] then queue
    else QueueAfter(AfterBurst(queue, sigs[..|sigs| - 1]), false, sigs[|sigs| - 1])
  }

  /** A burst keeps the earliest arrivals, in arrival order, up to the capacity, and drops the rest. */
  lemma {:induction false} BurstKeepsFirstArrivals(queue: seq<int>, sigs: seq<int>)
    requires |queue| <= SIG_QUEUE_MAX_SIZE
    ensures var all := queue + sigs;
      AfterBurst(queue, sigs) == all[..if |all| < SIG_QUEUE_MAX_SIZE then |all| else SIG_QUEUE_MAX_SIZE]
  {
    if sigs != [] {
      var init := sigs[..|sigs| - 1];
      BurstKeepsFirstArrivals(queue, init);
      assert queue + sigs == (queue + init) + [sigs[|sigs| - 1]];
    }
  }

  /** The platform's state: the deferred-signal queue and trap bookkeeping, the process's own
      exit, and the scripted and logged interaction with the OS. */
  class Platform {
    var sigQueue: seq<int>
    var quitOnExitSignal: bool
    var trappedSignals: set<int>
    /** Some(status) once `_exit(status)` has ended the process. */
    var exitStatus: Option<int>
    /** Every `posix_kill` made so far, in order. */
    var kills: seq<Kill>
    /** The pids pcntl_fork will hand out, in order. */
    var forkScript: seq<ParentPid>
    /** The answers pcntl_waitpid will give, in order. */
    var waitScript: seq<WaitResult>
    /** Every `sleep($seconds)` taken so far. */
    var sleeps: seq<int>

    ghost predicate Valid()
      reads this
    {
      |sigQueue| <= SIG_QUEUE_MAX_SIZE
    }

    constructor(forks: seq<ParentPid>, waits: seq<WaitResult>)
      ensures Valid()
      ensures sigQueue == [] && !quitOnExitSignal && trappedSignals == {} && exitStatus == None
      ensures kills == [] && forkScript == forks && waitScript == waits && sleeps == []
    {
      sigQueue, quitOnExitSignal, trappedSignals, exitStatus := [], false, {}, None;
      kills, forkScript, waitScript, sleeps := [], forks, waits, [];
    }

    method SetQuitOnExitSignal(b: bool)
      modifies this`quitOnExitSignal
      ensures quitOnExitSignal == b
    {
      quitOnExitSignal := b;
    }

    /** `_exit($status)`. */
    method Exit(status: int)
      modifies this`exitStatus
      ensures exitStatus == Some(status)
    {
      exitStatus := Some(status);
    }

    /** `pcntl_fork()`, parent side. */
    method Fork() returns (pid: int)
      modifies this`forkScript
      ensures pid == ForkResult(old(forkScript)) && forkScript == ForkRest(old(forkScript))
    {
      if forkScript == [] {
        pid := -1;
      } else {
        pid := forkScript[0];
        forkScript := forkScript[1..];
      }
    }

    method Sleep(seconds: int)
      modifies this`sleeps
      ensures sleeps == old(sleeps) + [seconds]
    {
      sleeps := sleeps + [seconds];
    }

    /** `signalPids($pids, $sig)`: one kill per pid, in list order. */
    method SignalPids(target: PidTarget, sig: int)
      modifies this`kills
      ensures kills == old(kills) + KillsFor(Targets(target), sig)
    {
      var pids := Targets(target);
      var i := 0;
      while i < |pids|
        invariant 0 <= i <= |pids|
        invariant kills == old(kills) + KillsFor(pids[..i], sig)
      {
        kills := kills + [Kill(pids[i], sig)];
        i := i + 1;
      }
      assert pids[..|pids|] == pids;
    }

    /** `trapSignals($signals)`: each signal is recorded as trapped (its handler becomes
        trapDeferred). */
    method TrapSignals(signals: seq<int>)
      modifies this`trappedSignals
      ensures trappedSignals == old(trappedSignals) + set s | s in signals
    {
      var i := 0;
      while i < |signals|
        invariant 0 <= i <= |signals|
        invariant trappedSignals == old(trappedSignals) + set s | s in signals[..i]
      {
        assert signals[..i + 1] == signals[..i] + [signals[i]];
        trappedSignals := trappedSignals + {signals[i]};
        i := i + 1;
      }
      assert signals[..|signals|] == signals;
    }

    /** `releaseSignals()`: every trapped signal gets a no-op handler and the set is emptied. */
    method ReleaseSignals()
      modifies this`trappedSignals
      ensures trappedSignals == {}
    {
      trappedSignals := {};
    }

    /** `trapDeferred($signal)`, the signal handler. */
    method TrapDeferred(sig: int)
      requires Valid()
      modifies this`sigQueue, this`exitStatus
      ensures Valid()
      ensures sigQueue == QueueAfter(old(sigQueue), quitOnExitSignal, sig)
      ensures exitStatus ==
        if Deferral(old(sigQueue), quitOnExitSignal, sig) == ShortCircuited then Some(1) else old(exitStatus)
    {
      if |sigQueue| < SIG_QUEUE_MAX_SIZE {
        if quitOnExitSignal && sig in [SIGINT, SIGTERM] {
          Exit(1);
          return;
        }
        sigQueue := sigQueue + [sig];
      }
    }

    method NumSignalsPending() returns (n: nat)
      ensures n == |sigQueue|
    {
      n := |sigQueue|;
    }

    /** `nextSignal()`: `array_shift` of the queue, null when it is empty. */
    method NextSignal() returns (sig: Option<int>)
      modifies this`sigQueue
      ensures old(sigQueue) == [] ==> sig.None? && sigQueue == []
      ensures old(sigQueue) != [] ==> sig == Some(old(sigQueue)[0]) && sigQueue == old(sigQueue)[1..]
    {
      if sigQueue == [] {
        sig := None;
      } else {
        sig := Some(sigQueue[0]);
        sigQueue := sigQueue[1..];
      }
    }

    /** `nextDeadChild($wait)`: the next waitpid answer, mapped; an exhausted script is
        waitpid's -1 (no children left). The script already is what waitpid answers in the
        mode `wait` selects. */
    method NextDeadChild(wait: bool) returns (r: Option<Exited>)
      modifies this`waitScript
      ensures old(waitScript) == [] ==> r.None? && waitScript == []
      ensures old(waitScript) != [] ==> r == DeadChildOf(old(waitScript)[0]) && waitScript == old(waitScript)[1..]
    {
      if waitScript == [] {
        r := None;
      } else {
        r := DeadChildOf(waitScript[0]);
        waitScript := waitScript[1..];
      }
    }
  }
}
