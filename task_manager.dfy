/**
 * The process-wide background task manager (apps/generation/task_manager.py): a FIFO queue
 * of submitted tasks, a registry of active task ids, and a pool of `max_workers` worker
 * threads. Threads are not modelled; every worker action is one atomic step of the
 * `TaskManager` object.
 */
module TaskManager {

  type TaskId = string

  /**
   * An entry of `task_queue`: a submitted task `(task_id, func, args, kwargs)`, where `job`
   * stands for `func`, `args` and `kwargs`, or the `None` that `stop` pushes to wake a worker.
   */
  datatype Entry<J> = Task(id: TaskId, job: J) | Sentinel

  /** What one pass of a worker's `while self.running` loop took from the queue. */
  datatype Taken<J> =
    | Exited                        // `running` was false: the loop ends
    | TimedOut                      // `queue.Empty` after the one-second wait: the loop goes on
    | SentinelTaken                 // the `None` sentinel: the loop breaks
    | Dequeued(id: TaskId, job: J)  // a task, which the worker now runs

  /** The task ids waiting in a queue. */
  function QueuedIds<J>(q: seq<Entry<J>>): set<TaskId> {
    if q == [] then {}
    else (if q[0].Task? then {q[0].id} else {}) + QueuedIds(q[1..])
  }

  /** The number of sentinels waiting in a queue. */
  function SentinelCount<J>(q: seq<Entry<J>>): nat {
    if q == [] then 0 else (if q[0].Sentinel? then 1 else 0) + SentinelCount(q[1..])
  }

  /** No task id is queued twice. */
  ghost predicate DistinctIds<J>(q: seq<Entry<J>>) {
    forall i, j :: 0 <= i < j < |q| && q[i].Task? && q[j].Task? ==> q[i].id != q[j].id
  }

  /** `n` sentinels. */
  function Sentinels<J>(n: nat): (r: seq<Entry<J>>)
    ensures |r| == n && forall k :: 0 <= k < n ==> r[k] == Sentinel
  {
    if n == 0 then [] else [Sentinel] + Sentinels(n - 1)
  }

  /** The worker threads `start` spawns, by the number in their name `TaskWorker-<n>`. */
  function WorkerNumbers(n: nat): (r: seq<nat>)
    ensures |r| == n && forall k :: 0 <= k < n ==> r[k] == k + 1
  {
    seq(n, k => k + 1)
  }

  lemma {:induction false} QueuedIdsMember<J>(q: seq<Entry<J>>, id: TaskId)
    ensures id in QueuedIds(q) <==> exists k :: 0 <= k < |q| && q[k].Task? && q[k].id == id
  {
    if q != [] {
      QueuedIdsMember(q[1..], id);
      if id in QueuedIds(q[1..]) {
        var k :| 0 <= k < |q[1..]| && q[1..][k].Task? && q[1..][k].id == id;
        assert q[k + 1] == q[1..][k];
      }
      forall k | 0 < k < |q| && q[k].Task? && q[k].id == id ensures id in QueuedIds(q[1..]) {
        assert q[1..][k - 1] == q[k];
      }
    }
  }

  /** Appending an entry adds its id (if any) to the queued ids, and the sentinels count up. */
  lemma {:induction false} QueueAppend<J>(q: seq<Entry<J>>, e: Entry<J>)
    ensures QueuedIds(q + [e]) == QueuedIds(q) + (if e.Task? then {e.id} else {})
    ensures SentinelCount(q + [e]) == SentinelCount(q) + (if e.Sentinel? then 1 else 0)
  {
    if q != [] {
      assert (q + [e])[1..] == q[1..] + [e];
      QueueAppend(q[1..], e);
    } else {
      assert [e][1..] == [];
    }
  }

  /** Appending a task whose id is not queued keeps the queued ids distinct. */
  lemma AppendKeepsDistinct<J>(q: seq<Entry<J>>, e: Entry<J>)
    requires DistinctIds(q)
    requires e.Task? ==> e.id !in QueuedIds(q)
    ensures DistinctIds(q + [e])
  {
    if e.Task? {
      QueuedIdsMember(q, e.id);
      var q' := q + [e];
      forall i, j | 0 <= i < j < |q'| && q'[i].Task? && q'[j].Task? ensures q'[i].id != q'[j].id {
        if j == |q| {
          assert q'[i] == q[i];
        }
      }
    }
  }

  /** Removing the head removes its id and no other from the queued ids (ids being distinct). */
  lemma RemoveHead<J>(q: seq<Entry<J>>)
    requires q != [] && DistinctIds(q)
    ensures DistinctIds(q[1..])
    ensures QueuedIds(q[1..]) == QueuedIds(q) - (if q[0].Task? then {q[0].id} else {})
    ensures q[0].Task? ==> q[0].id !in QueuedIds(q[1..])
  {
    if q[0].Task? {
      QueuedIdsMember(q[1..], q[0].id);
      forall k | 0 <= k < |q[1..]| && q[1..][k].Task? ensures q[1..][k].id != q[0].id {
        assert q[1..][k] == q[k + 1];
      }
    }
  }

  /** With distinct ids, the queue consists exactly of its queued tasks and its sentinels. */
  lemma {:induction false} QueueSizeSplit<J>(q: seq<Entry<J>>)
    requires DistinctIds(q)
    ensures |q| == |QueuedIds(q)| + SentinelCount(q)
  {
    if q != [] {
      RemoveHead(q);
      QueueSizeSplit(q[1..]);
    }
  }

  class TaskManager<J> {
    /** Whether the workers should keep looping (`self.running`). */
    var running: bool
    /** `self.task_queue`, oldest entry first. */
    var taskQueue: seq<Entry<J>>
    /** The keys of `self.active_tasks`; the submitting thread stored as value is not modelled. */
    var activeTasks: set<TaskId>
    /** `self.workers`, the worker threads spawned and not yet cleared by `stop`. */
    var workers: seq<nat>
    /** `self.max_workers`, from the setting `MAX_CONCURRENT_TASKS` (3 by default). */
    var maxWorkers: nat
    /** The ids of the tasks a worker has dequeued and is running. */
    ghost var inFlight: set<TaskId>

    /**
     * The registry invariant: every active id is either waiting in the queue or being run,
     * never both, and no id waits twice.
     */
    ghost predicate Valid()
      reads this
    {
      && DistinctIds(taskQueue)
      && QueuedIds(taskQueue) !! inFlight
      && activeTasks == QueuedIds(taskQueue) + inFlight
    }

    /** `TaskManager()` the first time: an empty manager that starts its workers at once. */
    constructor (maxWorkers: nat)
      ensures Valid()
      ensures running && taskQueue == [] && activeTasks == {} && inFlight == {}
      ensures this.maxWorkers == maxWorkers && workers == WorkerNumbers(maxWorkers)
    {
      this.maxWorkers := maxWorkers;
      taskQueue := [];
      activeTasks := {};
      workers := [];
      running := false;
      inFlight := {};
      new;
      Start();
    }

    /** `start`: nothing when already running; otherwise set `running` and spawn `max_workers` workers. */
    method Start()
      requires Valid()
      modifies this
      ensures Valid()
      ensures old(running) ==> workers == old(workers)
      ensures !old(running) ==> workers == old(workers) + WorkerNumbers(maxWorkers)
      ensures running
      ensures taskQueue == old(taskQueue) && activeTasks == old(activeTasks)
      ensures inFlight == old(inFlight) && maxWorkers == old(maxWorkers)
    {
      if running {
        return;
      }
      running := true;
      for i := 0 to maxWorkers
        invariant workers == old(workers) + WorkerNumbers(i)
        invariant running && maxWorkers == old(maxWorkers)
        invariant taskQueue == old(taskQueue) && activeTasks == old(activeTasks) && inFlight == old(inFlight)
      {
        workers := workers + [i + 1];
      }
    }

    /**
     * `stop`: clear `running`, push one sentinel per worker, forget the workers. The registry
     * and the queued tasks are kept.
     */
    method Stop()
      requires Valid()
      modifies this
      ensures Valid()
      ensures !running && workers == []
      ensures taskQueue == old(taskQueue) + Sentinels(maxWorkers)
      ensures activeTasks == old(activeTasks) && inFlight == old(inFlight)
      ensures maxWorkers == old(maxWorkers)
    {
      running := false;
      for i := 0 to maxWorkers
        invariant taskQueue == old(taskQueue) + Sentinels(i)
        invariant DistinctIds(taskQueue) && QueuedIds(taskQueue) == QueuedIds(old(taskQueue))
        invariant activeTasks == old(activeTasks) && inFlight == old(inFlight)
        invariant !running && maxWorkers == old(maxWorkers)
      {
        AppendKeepsDistinct(taskQueue, Sentinel);
        QueueAppend(taskQueue, Sentinel);
        assert Sentinels<J>(i + 1) == Sentinels<J>(i) + [Sentinel];
        taskQueue := taskQueue + [Sentinel];
      }
      workers := [];
    }

    /**
     * `submit_task`: refused when not running or when the id is already active; otherwise the
     * task goes to the tail of the queue and its id into the registry.
     */
    method SubmitTask(id: TaskId, job: J) returns (ok: bool)
      requires Valid()
      modifies this
      ensures Valid()
      ensures ok <==> old(running) && id !in old(activeTasks)
      ensures ok ==> taskQueue == old(taskQueue) + [Task(id, job)] && activeTasks == old(activeTasks) + {id}
      ensures !ok ==> taskQueue == old(taskQueue) && activeTasks == old(activeTasks)
      ensures running == old(running) && workers == old(workers) && maxWorkers == old(maxWorkers)
      ensures inFlight == old(inFlight)
    {
      if !running {
        return false;
      }
      if id in activeTasks {
        return false;
      }
      AppendKeepsDistinct(taskQueue, Task(id, job));
      QueueAppend(taskQueue, Task(id, job));
      taskQueue := taskQueue + [Task(id, job)];
      activeTasks := activeTasks + {id};
      return true;
    }

    /**
     * The first half of one pass of `_worker`: check `running`, then take the oldest entry.
     * A dequeued task stays in the registry while it runs.
     */
    method Take() returns (t: Taken<J>)
      requires Valid()
      modifies this
      ensures Valid()
      ensures !old(running) ==> t == Exited && taskQueue == old(taskQueue) && inFlight == old(inFlight)
      ensures old(running) && old(taskQueue) == [] ==> t == TimedOut && taskQueue == [] && inFlight == old(inFlight)
      ensures old(running) && old(taskQueue) != [] ==>
                taskQueue == old(taskQueue)[1..]
                && (old(taskQueue)[0].Sentinel? ==> t == SentinelTaken && inFlight == old(inFlight))
                && (old(taskQueue)[0].Task? ==>
                      t == Dequeued(old(taskQueue)[0].id, old(taskQueue)[0].job)
                      && inFlight == old(inFlight) + {t.id})
      ensures t.Dequeued? ==> t.id in inFlight && t.id !in QueuedIds(taskQueue)
      ensures activeTasks == old(activeTasks)
      ensures running == old(running) && workers == old(workers) && maxWorkers == old(maxWorkers)
    {
      if !running {
        return Exited;
      }
      if taskQueue == [] {
        return TimedOut;
      }
      var e := taskQueue[0];
      RemoveHead(taskQueue);
      taskQueue := taskQueue[1..];
      match e
      case Sentinel =>
        t := SentinelTaken;
      case Task(id, job) =>
        inFlight := inFlight + {id};
        t := Dequeued(id, job);
    }

    /**
     * The `finally` of one pass of `_worker`, run whether the task returned or raised: the
     * task's id leaves the registry.
     */
    method FinishTask(id: TaskId)
      requires Valid() && id in inFlight
      modifies this
      ensures Valid()
      ensures activeTasks == old(activeTasks) - {id} && inFlight == old(inFlight) - {id}
      ensures taskQueue == old(taskQueue) && running == old(running)
      ensures workers == old(workers) && maxWorkers == old(maxWorkers)
    {
      if id in activeTasks {
        activeTasks := activeTasks - {id};
      }
      inFlight := inFlight - {id};
    }

    /** `get_queue_size`: the waiting tasks and the not yet consumed sentinels. */
    function GetQueueSize(): (n: nat)
      requires Valid()
      reads this
      ensures n == |QueuedIds(taskQueue)| + SentinelCount(taskQueue)
    {
      QueueSizeSplit(taskQueue);
      |taskQueue|
    }

    /** `get_active_count`: the tasks waiting plus the tasks being run. */
    function GetActiveCount(): (n: nat)
      requires Valid()
      reads this
      ensures n == |QueuedIds(taskQueue)| + |inFlight|
    {
      |activeTasks|
    }

    /** `is_task_active`: the task is waiting in the queue or being run. */
    function IsTaskActive(id: TaskId): (b: bool)
      requires Valid()
      reads this
      ensures b <==> id in QueuedIds(taskQueue) || id in inFlight
    {
      id in activeTasks
    }
  }

  /** The module global `_task_manager` of the web process. */
  class Runtime<J> {
    var taskManager: TaskManager?<J>

    ghost predicate Valid()
      reads this, taskManager
    {
      taskManager != null ==> taskManager.Valid()
    }

    constructor ()
      ensures Valid() && taskManager == null
    {
      taskManager := null;
    }

    /** `get_task_manager`: the existing manager, or a new one, started, on first use. */
    method GetTaskManager(maxWorkers: nat) returns (m: TaskManager<J>)
      requires Valid()
      modifies this
      ensures Valid() && taskManager == m
      ensures old(taskManager) != null ==> m == old(taskManager)
      ensures old(taskManager) == null ==>
                fresh(m) && m.running && m.taskQueue == [] && m.activeTasks == {} && m.inFlight == {}
                && m.maxWorkers == maxWorkers && m.workers == WorkerNumbers(maxWorkers)
    {
      if taskManager == null {
        taskManager := new TaskManager(maxWorkers);
      }
      m := taskManager;
    }

    /**
     * `submit_background_task`: submit to the process's manager, creating it first if need be;
     * a manager created here is running and empty, so the task is then always accepted.
     */
    method SubmitBackgroundTask(maxWorkers: nat, id: TaskId, job: J) returns (ok: bool)
      requires Valid()
      modifies this, taskManager
      ensures Valid() && taskManager != null
      ensures old(taskManager) != null ==> taskManager == old(taskManager)
      ensures ok <==> old(taskManager) == null || (old(taskManager.running) && id !in old(taskManager.activeTasks))
      ensures ok ==> (id in taskManager.activeTasks && |taskManager.taskQueue| > 0
                      && taskManager.taskQueue[|taskManager.taskQueue| - 1] == Task(id, job))
      ensures old(taskManager) != null ==>
                && (ok ==> taskManager.taskQueue == old(taskManager.taskQueue) + [Task(id, job)]
                           && taskManager.activeTasks == old(taskManager.activeTasks) + {id})
                && (!ok ==> taskManager.taskQueue == old(taskManager.taskQueue)
                            && taskManager.activeTasks == old(taskManager.activeTasks))
                && taskManager.running == old(taskManager.running) && taskManager.workers == old(taskManager.workers)
                && taskManager.maxWorkers == old(taskManager.maxWorkers) && taskManager.inFlight == old(taskManager.inFlight)
      ensures old(taskManager) == null ==>
                && fresh(taskManager) && taskManager.running
                && taskManager.taskQueue == [Task(id, job)] && taskManager.activeTasks == {id}
                && taskManager.inFlight == {}
                && taskManager.maxWorkers == maxWorkers && taskManager.workers == WorkerNumbers(maxWorkers)
    {
      var m := GetTaskManager(maxWorkers);
      ok := m.SubmitTask(id, job);
    }
  }
}
