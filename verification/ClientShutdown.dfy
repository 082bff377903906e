/** The client's shutdown state as it is updated in place, each critical section proved against its step. */
module ClientShutdown {
  import opened Shutdown

  class S3Client {
    var active: bool
    var destroying: bool
    var held: Resources
    var tasks: Tasks
    var numAllocated: int
    var table: map<nat, nat>
    var endpoints: seq<Endpoint>
    var finish: bool

    function Model(): Client
      reads this
    {
      Client(active, destroying, held, tasks, numAllocated, Registry(table, endpoints), finish)
    }

    constructor (fileLoops: bool, provider: bool)
      ensures Model() == Start(fileLoops, provider)
    {
      active, destroying, held := true, false, Resources(true, fileLoops, provider);
      tasks, numAllocated := Tasks(false, false, false, false, Idle, true), 0;
      table, endpoints, finish := map[], [], false;
    }

    method ScheduleProcessWork()
      modifies this`tasks
      ensures Model() == ScheduleWork(old(Model()))
    {
      if !tasks.workScheduled {
        tasks := tasks.(workScheduled := true);
      }
    }

    method MakeMetaRequest(host: nat)
      requires host in table ==> table[host] < |endpoints|
      modifies this
      ensures Model() == MakeRequest(old(Model()), host)
    {
      if host in table {
        AcquireEndpoint(table[host]);
      } else {
        table := table[host := |endpoints|];
        endpoints := endpoints + [Endpoint(host, 1, Live)];
        numAllocated := numAllocated + 1;
      }
      ScheduleProcessWork();
    }

    method AcquireEndpoint(i: nat)
      requires i < |endpoints|
      modifies this`endpoints
      ensures Model() == Acquire(old(Model()), i)
    {
      endpoints := endpoints[i := endpoints[i].(refs := endpoints[i].refs + 1)];
    }

    /** `s_s3_endpoint_release`; true if the caller must now destroy the endpoint. */
    method ReleaseEndpoint(i: nat) returns (shouldDestroy: bool)
      requires i < |endpoints| && endpoints[i].refs > 0
      modifies this`endpoints, this`table
      ensures Model() == Release(old(Model()), i)
      ensures shouldDestroy <==> old(endpoints[i].refs) == 1 && !active
    {
      var e := endpoints[i];
      shouldDestroy := e.refs == 1 && !active;
      if shouldDestroy {
        table := table - {e.host};
        e := e.(stage := Condemned);
      }
      endpoints := endpoints[i := e.(refs := e.refs - 1)];
    }

    method DestroyEndpoint(i: nat)
      requires i < |endpoints|
      modifies this`endpoints
      ensures Model() == Destroy(old(Model()), i)
    {
      endpoints := endpoints[i := endpoints[i].(stage := ShuttingDown)];
    }

    method EndpointShutdown(i: nat)
      requires i < |endpoints|
      modifies this`endpoints, this`numAllocated, this`tasks
      ensures Model() == EndpointGone(old(Model()), i)
    {
      endpoints := endpoints[i := endpoints[i].(stage := Gone)];
      numAllocated := numAllocated - 1;
      ScheduleProcessWork();
    }

    /** The sweep over the endpoints under the lock of the cleanup task. */
    method Sweep()
      modifies this`table, this`endpoints
      ensures Registry(table, endpoints) == SweepFrom(old(Registry(table, endpoints)), 0)
    {
      var i := 0;
      while i < |endpoints|
        invariant i <= |endpoints|
        invariant SweepFrom(Registry(table, endpoints), i) == SweepFrom(old(Registry(table, endpoints)), 0)
        decreases |endpoints| - i
      {
        var e := endpoints[i];
        if e.stage.Live? && e.refs == 0 {
          table := table - {e.host};
          endpoints := endpoints[i := e.(refs := 0, stage := Condemned)];
        }
        i := i + 1;
      }
    }

    /** `s_s3_endpoints_cleanup_task`. */
    method CleanupTask()
      modifies this`tasks, this`table, this`endpoints
      ensures Model() == Cleanup(old(Model()))
    {
      hide SweepFrom;
      tasks := tasks.(cleanupScheduled := false, cleanupQueued := false);
      Sweep();
      ScheduleProcessWork();
    }

    method BeginStartDestroy()
      modifies this`active, this`destroying, this`tasks
      ensures Model() == StartDestroy(old(Model()))
    {
      active := false;
      if !tasks.cleanupScheduled {
        tasks := tasks.(cleanupScheduled := true, cleanupQueued := true);
      }
      destroying := true;
    }

    method FinishStartDestroy()
      modifies this`destroying, this`tasks
      ensures Model() == EndStartDestroy(old(Model()))
    {
      destroying := false;
      ScheduleProcessWork();
    }

    /** Step 1 of the work task, up to where an inactive client's cleanup is cancelled. */
    method BeginWorkTask()
      modifies this`tasks
      ensures Model() == BeginWork(old(Model()))
    {
      tasks := tasks.(workScheduled := false, workRunning := true, sawActive := active);
      if active {
        if !tasks.cleanupScheduled {
          tasks := tasks.(cleanupScheduled := true, cleanupQueued := true);
        }
        tasks := tasks.(thread := Middle);
      } else if tasks.cleanupScheduled {
        tasks := tasks.(cleanupScheduled := false, thread := Cancelling);
      } else {
        tasks := tasks.(thread := Middle);
      }
    }

    method CancelCleanup()
      modifies this`tasks, this`table, this`endpoints
      ensures Model() == RunCancelled(old(Model()))
    {
      hide SweepFrom;
      CleanupTask();
      tasks := tasks.(thread := Middle);
    }

    /** Step 5 of the work task. */
    method EndWorkTask() returns (done: bool)
      modifies this`tasks, this`finish
      ensures Model() == EndWork(old(Model())) && done == finish
    {
      tasks := tasks.(workRunning := false, thread := Idle);
      finish := !active && !destroying && !held.bodyLoops && !held.fileLoops && !tasks.workScheduled &&
                !tasks.workRunning && !held.provider && numAllocated == 0;
      done := finish;
    }
  }
}
