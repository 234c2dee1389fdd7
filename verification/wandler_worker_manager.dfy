/**
 * `WorkerManager` of the newer package (`packages/wandler/utils/worker-manager.ts`): one
 * manager per page, holding the worker instance of each model id. Instances are numbered in the
 * order they are created; what a single instance does is the business of `WorkerBridge`.
 */
module WandlerWorkerManager {
  import opened Types

  /** `WORKER_TIMEOUT`, in milliseconds. */
  const WorkerTimeout: real := 30000.0

  const UnsupportedMessage: string := "Web Workers are not supported in this environment"

  /** Which of the three browser primitives a worker needs are defined. */
  datatype Environment = Environment(hasWorker: bool, hasReadableStream: bool, hasMessageChannel: bool)

  /** `canUseWorker()` */
  predicate CanUseWorker(env: Environment)
  {
    env.hasWorker && env.hasReadableStream && env.hasMessageChannel
  }

  /** `options.workerOptions.timeout || WORKER_TIMEOUT`: a missing or zero timeout gives the default. */
  function IdleDelay(timeout: Option<real>): (d: real)
    ensures timeout.Some? && timeout.value != 0.0 ==> d == timeout.value
    ensures timeout.None? || timeout.value == 0.0 ==> d == WorkerTimeout
  {
    if timeout.Some? && timeout.value != 0.0 then timeout.value else WorkerTimeout
  }

  /** The idle timer `createWorker` starts: after `delay`, it terminates `instance` if `modelId` still maps to it. */
  datatype IdleTimer = IdleTimer(modelId: string, instance: nat, delay: real)

  class WorkerManager {
    /** `workers`: model id to instance. */
    var workers: map<string, nat>
    /** The number of instances created so far. */
    var created: nat
    /** The instances whose `terminate` has been called. */
    var stopped: set<nat>

    ghost predicate Valid()
      reads this
    {
      (forall id :: id in workers ==> workers[id] < created) && (forall i :: i in stopped ==> i < created)
    }

    constructor()
      ensures workers == map[] && created == 0 && stopped == {} && Valid()
    {
      workers := map[];
      created := 0;
      stopped := {};
    }

    /**
     * `createWorker(modelId, options)`. `creationError` is the message of the error creating the
     * worker or its bridge raises, if one does. An instance already stored under the id is
     * returned as it is, terminated or not.
     */
    method CreateWorker(modelId: string, env: Environment, options: ModelOptions, creationError: Option<string>)
      returns (r: Result<nat>, timer: Option<IdleTimer>)
      requires Valid()
      modifies this
      ensures Valid() && stopped == old(stopped)
      ensures !CanUseWorker(env) ==> r == Err(PlainError(UnsupportedMessage))
      ensures CanUseWorker(env) && modelId in old(workers) ==> r == Ok(old(workers)[modelId])
      ensures CanUseWorker(env) && modelId !in old(workers) && creationError.Some? ==>
        r == Err(PlainError("Failed to initialize worker: " + creationError.value))
      ensures r.Err? || modelId in old(workers) ==> workers == old(workers) && created == old(created) && timer.None?
      ensures CanUseWorker(env) && modelId !in old(workers) && creationError.None? ==>
        r == Ok(old(created)) && created == old(created) + 1 && workers == old(workers)[modelId := old(created)]
        && timer == (if options.terminateOnIdle then Some(IdleTimer(modelId, old(created), IdleDelay(options.timeout))) else None)
    {
      timer := None;
      if !CanUseWorker(env) {
        return Err(PlainError(UnsupportedMessage)), None;
      }
      if modelId in workers {
        return Ok(workers[modelId]), None;
      }
      if creationError.Some? {
        return Err(PlainError("Failed to initialize worker: " + creationError.value)), None;
      }
      var instance := created;
      created := created + 1;
      workers := workers[modelId := instance];
      if options.terminateOnIdle {
        timer := Some(IdleTimer(modelId, instance, IdleDelay(options.timeout)));
      }
      r := Ok(instance);
    }

    /** The idle timer fires: it terminates the model's worker only if the map still holds that same instance. */
    method OnIdleTimeout(timer: IdleTimer)
      requires Valid()
      modifies this
      ensures Valid() && created == old(created)
      ensures timer.modelId in old(workers) && old(workers)[timer.modelId] == timer.instance ==>
        workers == old(workers) - {timer.modelId} && stopped == old(stopped) + {timer.instance}
      ensures !(timer.modelId in old(workers) && old(workers)[timer.modelId] == timer.instance) ==>
        workers == old(workers) && stopped == old(stopped)
    {
      if timer.modelId in workers && workers[timer.modelId] == timer.instance {
        TerminateWorker(timer.modelId);
      }
    }

    /** A caller terminates an instance through its handle; the map keeps it. */
    method TerminateInstance(instance: nat)
      requires Valid() && instance < created
      modifies this
      ensures Valid() && workers == old(workers) && created == old(created) && stopped == old(stopped) + {instance}
    {
      stopped := stopped + {instance};
    }

    /** `terminateWorker(modelId)`: terminates and removes that id's instance; nothing happens for an unknown id. */
    method TerminateWorker(modelId: string)
      requires Valid()
      modifies this
      ensures Valid() && created == old(created)
      ensures modelId in old(workers) ==> workers == old(workers) - {modelId} && stopped == old(stopped) + {old(workers)[modelId]}
      ensures modelId !in old(workers) ==> workers == old(workers) && stopped == old(stopped)
    {
      if modelId in workers {
        stopped := stopped + {workers[modelId]};
        workers := workers - {modelId};
      }
    }

    /** `terminateAll()`: every stored instance is terminated and the map is emptied. */
    method TerminateAll()
      requires Valid()
      modifies this
      ensures Valid() && created == old(created)
      ensures workers == map[] && stopped == old(stopped) + old(workers).Values
    {
      var todo := workers.Keys;
      var done: set<string> := {};
      while todo != {}
        invariant todo + done == old(workers).Keys && todo !! done
        invariant workers == old(workers) && created == old(created)
        invariant stopped == old(stopped) + ValuesAt(old(workers), done)
        invariant Valid()
        decreases |todo|
      {
        var id :| id in todo;
        ValuesAtAdd(workers, done, id);
        stopped := stopped + {workers[id]};
        todo := todo - {id};
        done := done + {id};
      }
      ValuesAtAll(workers);
      workers := map[];
    }
  }

  /** The static `WorkerManager.instance`. */
  class ManagerSlot {
    var instance: WorkerManager?

    constructor()
      ensures instance == null
    {
      instance := null;
    }

    /** `getInstance()`: the first call creates the manager, every later call returns that same one. */
    method GetInstance() returns (m: WorkerManager)
      modifies this
      ensures old(instance) != null ==> m == old(instance)
      ensures old(instance) == null ==> fresh(m) && m.workers == map[] && m.created == 0 && m.stopped == {} && m.Valid()
      ensures instance == m
    {
      if instance == null {
        instance := new WorkerManager();
      }
      m := instance;
    }
  }
}
