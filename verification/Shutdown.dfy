/** The client's shutdown and its reference-counted endpoints. Each step is one critical section; the process-work
    task and the cleanup task share one event loop thread, everything else may come in between. */
module Shutdown {

  /** An endpoint is in the table, or out of it and waiting to be destroyed, shutting down, or gone. */
  datatype Stage = Live | Condemned | ShuttingDown | Gone

  datatype Endpoint = Endpoint(host: nat, refs: nat, stage: Stage)

  /** Where the event loop thread is. */
  datatype Thread = Idle | Cancelling | Middle

  /** The event loop groups and the credentials provider the client waits for. */
  datatype Resources = Resources(
    bodyLoops: bool,             // body_streaming_elg_allocated
    fileLoops: bool,             // file_io_elg_allocated
    provider: bool)              // s3express_provider_active

  datatype Tasks = Tasks(
    workScheduled: bool,
    workRunning: bool,
    cleanupScheduled: bool,      // endpoints_cleanup_task_scheduled
    cleanupQueued: bool,         // the cleanup task is in the event loop
    thread: Thread,
    sawActive: bool)             // was the client active when the running work task began?

  /** The client's endpoints: those in the table, by host, and all that were ever created. */
  datatype Registry = Registry(table: map<nat, nat>, endpoints: seq<Endpoint>)

  datatype Client = Client(
    active: bool,
    destroying: bool,            // start_destroy_executing
    held: Resources,
    tasks: Tasks,
    numAllocated: int,           // num_endpoints_allocated
    reg: Registry,
    finish: bool)                // finish_destroy

  function Start(fileLoops: bool, provider: bool): Client {
    Client(true, false, Resources(true, fileLoops, provider), Tasks(false, false, false, false, Idle, true), 0,
           Registry(map[], []), false)
  }

  function ScheduleWork(c: Client): Client {
    c.(tasks := c.tasks.(workScheduled := true))
  }

  function ScheduleCleanup(t: Tasks): Tasks {
    if t.cleanupScheduled then t else t.(cleanupScheduled := true, cleanupQueued := true)
  }

  // ----- Endpoints -----

  function SetEndpoint(r: Registry, i: nat, e: Endpoint): Registry
    requires i < |r.endpoints|
  {
    r.(endpoints := r.endpoints[i := e])
  }

  function AddReference(r: Registry, i: nat): Registry
    requires i < |r.endpoints|
  {
    SetEndpoint(r, i, r.endpoints[i].(refs := r.endpoints[i].refs + 1))
  }

  function AddEndpoint(r: Registry, host: nat): Registry {
    Registry(r.table[host := |r.endpoints|], r.endpoints + [Endpoint(host, 1, Live)])
  }

  /** A meta request is made for `host`: its endpoint is created, or found in the table and acquired. */
  function MakeRequest(c: Client, host: nat): Client
    requires host in c.reg.table ==> c.reg.table[host] < |c.reg.endpoints|
  {
    if host in c.reg.table then ScheduleWork(c.(reg := AddReference(c.reg, c.reg.table[host])))
    else ScheduleWork(c.(reg := AddEndpoint(c.reg, host), numAllocated := c.numAllocated + 1))
  }

  /** `s_s3_endpoint_acquire`, by someone who already holds a reference. */
  function Acquire(c: Client, i: nat): Client
    requires i < |c.reg.endpoints|
  {
    c.(reg := AddReference(c.reg, i))
  }

  /** An endpoint leaves the table, to be destroyed. */
  function Condemn(r: Registry, i: nat): Registry
    requires i < |r.endpoints|
  {
    var e := r.endpoints[i];
    Registry(r.table - {e.host}, r.endpoints[i := e.(refs := 0, stage := Condemned)])
  }

  /** `s_s3_endpoint_release`: the last reference of an inactive client's endpoint takes it out of the table. */
  function Release(c: Client, i: nat): Client
    requires i < |c.reg.endpoints| && c.reg.endpoints[i].refs > 0
  {
    var e := c.reg.endpoints[i];
    c.(reg := if e.refs == 1 && !c.active then Condemn(c.reg, i) else SetEndpoint(c.reg, i, e.(refs := e.refs - 1)))
  }

  function SetStage(r: Registry, i: nat, stage: Stage): Registry
    requires i < |r.endpoints|
  {
    SetEndpoint(r, i, r.endpoints[i].(stage := stage))
  }

  /** `aws_s3_endpoint_destroy`. */
  function Destroy(c: Client, i: nat): Client
    requires i < |c.reg.endpoints|
  {
    c.(reg := SetStage(c.reg, i, ShuttingDown))
  }

  /** The connection manager has shut down. */
  function EndpointGone(c: Client, i: nat): Client
    requires i < |c.reg.endpoints|
  {
    ScheduleWork(c.(reg := SetStage(c.reg, i, Gone), numAllocated := c.numAllocated - 1))
  }

  /** The sweep of the cleanup task: endpoints without references leave the table. */
  function SweepFrom(r: Registry, i: nat): Registry
    requires i <= |r.endpoints|
    decreases |r.endpoints| - i
  {
    if i == |r.endpoints| then r
    else if r.endpoints[i].stage.Live? && r.endpoints[i].refs == 0 then SweepFrom(Condemn(r, i), i + 1)
    else SweepFrom(r, i + 1)
  }

  /** `s_s3_endpoints_cleanup_task`, run by the event loop or, cancelled, by the work task. */
  function Cleanup(c: Client): Client {
    ScheduleWork(c.(tasks := c.tasks.(cleanupScheduled := false, cleanupQueued := false), reg := SweepFrom(c.reg, 0)))
  }

  // ----- Shutting down -----

  /** The first critical section of `s_s3_client_start_destroy`. */
  function StartDestroy(c: Client): Client {
    c.(active := false, tasks := ScheduleCleanup(c.tasks), destroying := true)
  }

  function EndStartDestroy(c: Client): Client {
    ScheduleWork(c.(destroying := false))
  }

  /** Step 1 of the work task. An inactive client's pending cleanup is cancelled, to run it at once. */
  function BeginWork(c: Client): Client {
    var t := c.tasks.(workScheduled := false, workRunning := true, sawActive := c.active);
    c.(tasks :=
        if c.active then ScheduleCleanup(t).(thread := Middle)
        else if t.cleanupScheduled then t.(cleanupScheduled := false, thread := Cancelling)
        else t.(thread := Middle))
  }

  function RunCancelled(c: Client): Client {
    var d := Cleanup(c);
    d.(tasks := d.tasks.(thread := Middle))
  }

  predicate ShouldFinish(c: Client) {
    && !c.active && !c.destroying && c.held == Resources(false, false, false)
    && !c.tasks.workScheduled && !c.tasks.workRunning && c.numAllocated == 0
  }

  /** Step 5 of the work task. */
  function EndWork(c: Client): Client {
    var d := c.(tasks := c.tasks.(workRunning := false, thread := Idle));
    d.(finish := ShouldFinish(d))
  }

  // ----- The invariant -----

  predicate Counted(e: Endpoint, live: bool) {
    if live then e.stage.Live? else !e.stage.Live? && !e.stage.Gone?
  }

  function Count(es: seq<Endpoint>, live: bool): nat {
    if es == [] then 0 else Count(es[..|es| - 1], live) + if Counted(es[|es| - 1], live) then 1 else 0
  }

  lemma {:induction false} CountUpdate(es: seq<Endpoint>, i: nat, e: Endpoint, live: bool)
    requires i < |es|
    ensures Count(es[i := e], live) + (if Counted(es[i], live) then 1 else 0) ==
            Count(es, live) + if Counted(e, live) then 1 else 0
  {
    var front := es[..|es| - 1];
    if i < |es| - 1 {
      CountUpdate(front, i, e, live);
      assert es[i := e][..|es| - 1] == front[i := e];
    } else {
      assert es[i := e][..|es| - 1] == front;
    }
  }

  lemma CountAppend(es: seq<Endpoint>, e: Endpoint, live: bool)
    ensures Count(es + [e], live) == Count(es, live) + if Counted(e, live) then 1 else 0
  {
    assert (es + [e])[..|es|] == es;
  }

  lemma {:induction false} CountZero(es: seq<Endpoint>, live: bool, i: nat)
    requires i < |es| && Counted(es[i], live)
    ensures Count(es, live) > 0
  {
    if i < |es| - 1 {
      CountZero(es[..|es| - 1], live, i);
    }
  }

  /** The table holds exactly the live endpoints, each under its host. */
  predicate TableOk(table: map<nat, nat>, es: seq<Endpoint>) {
    && (forall h :: h in table ==> table[h] < |es| && es[table[h]].host == h && es[table[h]].stage.Live?)
    && (forall i :: 0 <= i < |es| && es[i].stage.Live? ==> es[i].host in table && table[es[i].host] == i)
  }

  /** Only endpoints in the table are referenced. */
  predicate RefsOk(es: seq<Endpoint>) {
    forall i :: 0 <= i < |es| && es[i].refs > 0 ==> es[i].stage.Live?
  }

  predicate EndpointsOk(r: Registry, numAllocated: int) {
    && TableOk(r.table, r.endpoints) && RefsOk(r.endpoints)
    && |r.table| == Count(r.endpoints, true)
    && numAllocated == Count(r.endpoints, true) + Count(r.endpoints, false)
  }

  predicate TasksOk(t: Tasks, active: bool, destroying: bool) {
    && (t.workRunning <==> !t.thread.Idle?)
    && (t.cleanupQueued <==> t.cleanupScheduled || t.thread.Cancelling?)
    && (t.thread.Cancelling? ==> !t.sawActive && !t.cleanupScheduled)
    && (t.thread.Middle? && !t.sawActive ==> !t.cleanupQueued)
    && (destroying ==> !active)
    && (!t.thread.Idle? && !t.sawActive ==> !active)
    && (!t.thread.Idle? && t.sawActive && !active ==> destroying || t.workScheduled)
  }

  predicate FinishOk(c: Client) {
    c.finish ==> ShouldFinish(c) && !c.tasks.cleanupQueued && c.tasks.thread.Idle?
  }

  predicate Inv(c: Client) {
    EndpointsOk(c.reg, c.numAllocated) && TasksOk(c.tasks, c.active, c.destroying) && FinishOk(c)
  }

  // ----- Steps -----

  datatype Action =
    | DoMakeRequest(host: nat)
    | DoAcquire(endpoint: nat)
    | DoRelease(endpoint: nat)
    | DoDestroy(endpoint: nat)
    | DoEndpointGone(endpoint: nat)
    | DoCleanup
    | DoStartDestroy
    | DoEndStartDestroy
    | BodyLoopsGone
    | FileLoopsGone
    | ProviderGone
    | Poke
    | DoBeginWork
    | DoRunCancelled
    | DoEndWork

  /** Requests are made only while the client is referenced, which is while it is active; endpoints are acquired
      and released by holders; event loop groups end after they are released; and other completions may
      schedule work only while something they belong to is still there. */
  predicate Enabled(c: Client, a: Action) {
    && !c.finish
    && match a
       case DoMakeRequest(host) => c.active && (host in c.reg.table ==> c.reg.table[host] < |c.reg.endpoints|)
       case DoAcquire(i) => i < |c.reg.endpoints| && c.reg.endpoints[i].refs > 0
       case DoRelease(i) => i < |c.reg.endpoints| && c.reg.endpoints[i].refs > 0
       case DoDestroy(i) => i < |c.reg.endpoints| && c.reg.endpoints[i].stage.Condemned?
       case DoEndpointGone(i) => i < |c.reg.endpoints| && c.reg.endpoints[i].stage.ShuttingDown?
       case DoCleanup => c.tasks.cleanupQueued && c.tasks.thread.Idle?
       case DoStartDestroy => c.active
       case DoEndStartDestroy => c.destroying
       case BodyLoopsGone => !c.active && c.held.bodyLoops
       case FileLoopsGone => !c.active && c.held.fileLoops
       case ProviderGone => !c.active && c.held.provider
       case Poke => true
       case DoBeginWork => c.tasks.workScheduled && c.tasks.thread.Idle?
       case DoRunCancelled => c.tasks.thread.Cancelling?
       case DoEndWork => c.tasks.thread.Middle?
  }

  function Step(c: Client, a: Action): Client
    requires Enabled(c, a)
  {
    match a
    case DoMakeRequest(host) => MakeRequest(c, host)
    case DoAcquire(i) => Acquire(c, i)
    case DoRelease(i) => Release(c, i)
    case DoDestroy(i) => Destroy(c, i)
    case DoEndpointGone(i) => EndpointGone(c, i)
    case DoCleanup => Cleanup(c)
    case DoStartDestroy => StartDestroy(c)
    case DoEndStartDestroy => EndStartDestroy(c)
    case BodyLoopsGone => ScheduleWork(c.(held := c.held.(bodyLoops := false)))
    case FileLoopsGone => ScheduleWork(c.(held := c.held.(fileLoops := false)))
    case ProviderGone => ScheduleWork(c.(held := c.held.(provider := false)))
    case Poke => ScheduleWork(c)
    case DoBeginWork => BeginWork(c)
    case DoRunCancelled => RunCancelled(c)
    case DoEndWork => EndWork(c)
  }

  lemma StartInv(fileLoops: bool, provider: bool)
    ensures Inv(Start(fileLoops, provider))
  {
  }

  lemma RemoveCount(table: map<nat, nat>, h: nat)
    requires h in table
    ensures |table - {h}| == |table| - 1
  {
    assert table == (table - {h})[h := table[h]];
  }

  /** Taking an endpoint out of the table and condemning it. */
  lemma CondemnOk(r: Registry, n: int, i: nat)
    requires EndpointsOk(r, n) && i < |r.endpoints| && r.endpoints[i].stage.Live?
    ensures EndpointsOk(Condemn(r, i), n)
  {
    var d := r.endpoints[i].(refs := 0, stage := Condemned);
    CountUpdate(r.endpoints, i, d, true);
    CountUpdate(r.endpoints, i, d, false);
    RemoveCount(r.table, r.endpoints[i].host);
  }

  /** A change that keeps an endpoint's host and stage, and references only what is live. */
  lemma RecountOk(r: Registry, n: int, i: nat, refs: nat)
    requires EndpointsOk(r, n) && i < |r.endpoints| && (refs > 0 ==> r.endpoints[i].stage.Live?)
    ensures EndpointsOk(SetEndpoint(r, i, r.endpoints[i].(refs := refs)), n)
  {
    var e := r.endpoints[i].(refs := refs);
    CountUpdate(r.endpoints, i, e, true);
    CountUpdate(r.endpoints, i, e, false);
  }

  lemma NewEndpointOk(r: Registry, n: int, host: nat)
    requires EndpointsOk(r, n) && host !in r.table
    ensures EndpointsOk(AddEndpoint(r, host), n + 1)
  {
    var e := Endpoint(host, 1, Live);
    CountAppend(r.endpoints, e, true);
    CountAppend(r.endpoints, e, false);
  }

  /** An endpoint outside the table moves on. */
  lemma MoveOnOk(r: Registry, n: int, i: nat, stage: Stage)
    requires EndpointsOk(r, n) && i < |r.endpoints| && !stage.Live?
    requires !r.endpoints[i].stage.Live? && !r.endpoints[i].stage.Gone?
    ensures EndpointsOk(SetStage(r, i, stage), if stage.Gone? then n - 1 else n)
    ensures r.endpoints[i].refs == 0
  {
    var e := r.endpoints[i].(stage := stage);
    CountUpdate(r.endpoints, i, e, true);
    CountUpdate(r.endpoints, i, e, false);
  }

  lemma {:induction false} SweepOk(r: Registry, n: int, i: nat)
    requires EndpointsOk(r, n) && i <= |r.endpoints|
    ensures EndpointsOk(SweepFrom(r, i), n)
    decreases |r.endpoints| - i
  {
    hide EndpointsOk, Condemn;
    if i < |r.endpoints| {
      if r.endpoints[i].stage.Live? && r.endpoints[i].refs == 0 {
        CondemnOk(r, n, i);
        CondemnLength(r, i);
        SweepOk(Condemn(r, i), n, i + 1);
      } else {
        SweepOk(r, n, i + 1);
      }
    }
  }

  lemma CondemnLength(r: Registry, i: nat)
    requires i < |r.endpoints|
    ensures |Condemn(r, i).endpoints| == |r.endpoints|
  {
  }

  lemma EntryIsLive(r: Registry, n: int, host: nat)
    requires EndpointsOk(r, n) && host in r.table
    ensures r.table[host] < |r.endpoints| && r.endpoints[r.table[host]].stage.Live?
  {
  }

  lemma MakeRequestInv(c: Client, host: nat)
    requires Inv(c) && Enabled(c, DoMakeRequest(host))
    ensures Inv(MakeRequest(c, host))
  {
    hide EndpointsOk, AddEndpoint;
    if host in c.reg.table {
      EntryIsLive(c.reg, c.numAllocated, host);
      RecountOk(c.reg, c.numAllocated, c.reg.table[host], c.reg.endpoints[c.reg.table[host]].refs + 1);
    } else {
      NewEndpointOk(c.reg, c.numAllocated, host);
    }
  }

  lemma ReferencesInv(c: Client, i: nat)
    requires Inv(c) && Enabled(c, DoRelease(i))
    ensures Inv(Release(c, i)) && Inv(Acquire(c, i))
  {
    CondemnOk(c.reg, c.numAllocated, i);
    RecountOk(c.reg, c.numAllocated, i, c.reg.endpoints[i].refs - 1);
    RecountOk(c.reg, c.numAllocated, i, c.reg.endpoints[i].refs + 1);
    hide EndpointsOk, Condemn;
  }

  lemma OutgoingInv(c: Client, i: nat)
    requires Inv(c) && !c.finish && i < |c.reg.endpoints|
    ensures c.reg.endpoints[i].stage.Condemned? ==> Inv(Destroy(c, i)) && c.reg.endpoints[i].refs == 0
    ensures c.reg.endpoints[i].stage.ShuttingDown? ==> Inv(EndpointGone(c, i))
  {
    if c.reg.endpoints[i].stage.Condemned? {
      MoveOnOk(c.reg, c.numAllocated, i, ShuttingDown);
    } else if c.reg.endpoints[i].stage.ShuttingDown? {
      MoveOnOk(c.reg, c.numAllocated, i, Gone);
    }
    hide EndpointsOk;
  }

  lemma CleanupInv(c: Client)
    requires Inv(c) && !c.finish
    ensures c.tasks.thread.Idle? ==> Inv(Cleanup(c))
    ensures c.tasks.thread.Cancelling? ==> Inv(RunCancelled(c))
  {
    hide EndpointsOk, SweepFrom;
    SweepOk(c.reg, c.numAllocated, 0);
  }

  lemma StepInv(c: Client, a: Action)
    requires Inv(c) && Enabled(c, a)
    ensures Inv(Step(c, a))
  {
    hide Inv;
    match a
    case DoMakeRequest(host) => MakeRequestInv(c, host);
    case DoAcquire(i) => ReferencesInv(c, i);
    case DoRelease(i) => ReferencesInv(c, i);
    case DoDestroy(i) => OutgoingInv(c, i);
    case DoEndpointGone(i) => OutgoingInv(c, i);
    case DoCleanup => CleanupInv(c);
    case DoRunCancelled => CleanupInv(c);
    case _ => OtherInv(c, a);
  }

  lemma OtherInv(c: Client, a: Action)
    requires Inv(c) && Enabled(c, a)
    requires || a.DoStartDestroy? || a.DoEndStartDestroy? || a.BodyLoopsGone? || a.FileLoopsGone? || a.ProviderGone?
             || a.Poke? || a.DoBeginWork? || a.DoEndWork?
    ensures Inv(Step(c, a))
  {
    hide EndpointsOk;
  }

  predicate IsRun(c: Client, actions: seq<Action>)
    decreases |actions|
  {
    actions == [] || (Enabled(c, actions[0]) && IsRun(Step(c, actions[0]), actions[1..]))
  }

  function After(c: Client, actions: seq<Action>): Client
    requires IsRun(c, actions)
    decreases |actions|
  {
    if actions == [] then c else After(Step(c, actions[0]), actions[1..])
  }

  lemma {:induction false} RunInv(c: Client, actions: seq<Action>)
    requires Inv(c) && IsRun(c, actions)
    ensures Inv(After(c, actions))
    decreases |actions|
  {
    hide Inv;
    if actions != [] {
      StepInv(c, actions[0]);
      RunInv(Step(c, actions[0]), actions[1..]);
    }
  }

  // ----- The theorems -----

  /** An endpoint with references is the table's entry for its host, one that is destroyed has none, and the
      allocation count is the table's entries plus the endpoints shutting down. */
  lemma EndpointSafety(fileLoops: bool, provider: bool, actions: seq<Action>, i: nat)
    requires IsRun(Start(fileLoops, provider), actions)
    requires i < |After(Start(fileLoops, provider), actions).reg.endpoints|
    ensures var c := After(Start(fileLoops, provider), actions);
            var e := c.reg.endpoints[i];
            && (e.refs > 0 ==> e.host in c.reg.table && c.reg.table[e.host] == i)
            && (!e.stage.Live? ==> e.refs == 0)
            && c.numAllocated == |c.reg.table| + Count(c.reg.endpoints, false)
  {
    StartInv(fileLoops, provider);
    RunInv(Start(fileLoops, provider), actions);
  }

  /** How far an endpoint has got on its way out. */
  function Rank(s: Stage): nat {
    match s
    case Live => 0
    case Condemned => 1
    case ShuttingDown => 2
    case Gone => 3
  }

  /** An endpoint only moves forward, one stage at a time. It leaves the table with its last reference once the client
      is inactive, or unreferenced with a sweep; and is destroyed only without references. */
  lemma StepMovesForward(c: Client, a: Action, i: nat)
    requires Inv(c) && Enabled(c, a) && i < |c.reg.endpoints|
    ensures i < |Step(c, a).reg.endpoints|
    ensures var rank := Rank(c.reg.endpoints[i].stage); rank <= Rank(Step(c, a).reg.endpoints[i].stage) <= rank + 1
    ensures c.reg.endpoints[i].stage.Condemned? && Step(c, a).reg.endpoints[i].stage.ShuttingDown? ==>
              a == DoDestroy(i) && c.reg.endpoints[i].refs == 0
    ensures c.reg.endpoints[i].stage.ShuttingDown? && Step(c, a).reg.endpoints[i].stage.Gone? ==> a == DoEndpointGone(i)
    ensures c.reg.endpoints[i].stage.Live? && Step(c, a).reg.endpoints[i].stage.Condemned? ==>
              || (a == DoRelease(i) && !c.active && c.reg.endpoints[i].refs == 1)
              || ((a.DoCleanup? || a.DoRunCancelled?) && c.reg.endpoints[i].refs == 0)
  {
    hide Inv;
    match a
    case DoCleanup => SweepForward(c.reg, 0, i);
    case DoRunCancelled => SweepForward(c.reg, 0, i);
    case DoDestroy(k) => OutgoingInv(c, k);
    case DoRelease(k) => ReleasedIsLive(c, k);
    case _ =>
  }

  lemma ReleasedIsLive(c: Client, k: nat)
    requires Inv(c) && k < |c.reg.endpoints| && c.reg.endpoints[k].refs > 0
    ensures c.reg.endpoints[k].stage.Live?
  {
  }

  lemma {:induction false} SweepForward(r: Registry, from: nat, i: nat)
    requires from <= |r.endpoints| && i < |r.endpoints|
    ensures var d := SweepFrom(r, from);
            && |d.endpoints| == |r.endpoints|
            && d.endpoints[i] == if i >= from && r.endpoints[i].stage.Live? && r.endpoints[i].refs == 0
                                 then r.endpoints[i].(stage := Condemned) else r.endpoints[i]
    decreases |r.endpoints| - from
  {
    if from < |r.endpoints| {
      if r.endpoints[from].stage.Live? && r.endpoints[from].refs == 0 {
        SweepForward(Condemn(r, from), from + 1, i);
      } else {
        SweepForward(r, from + 1, i);
      }
    }
  }

  // ----- Each endpoint is destroyed once -----

  /** Has endpoint `i` got at least as far as `rank`? */
  function Reached(r: Registry, i: nat, rank: nat): nat {
    if i < |r.endpoints| && Rank(r.endpoints[i].stage) >= rank then 1 else 0
  }

  function Times(actions: seq<Action>, a: Action): nat {
    if actions == [] then 0 else (if actions[0] == a then 1 else 0) + Times(actions[1..], a)
  }

  lemma SweepLength(r: Registry, from: nat)
    requires from <= |r.endpoints|
    ensures |SweepFrom(r, from).endpoints| == |r.endpoints|
  {
    if |r.endpoints| > 0 {
      SweepForward(r, from, 0);
    }
  }

  /** The table changes only under requests and condemnations; a new endpoint starts at the beginning. */
  lemma StepLength(c: Client, a: Action)
    requires Enabled(c, a)
    ensures var es := Step(c, a).reg.endpoints;
            || |es| == |c.reg.endpoints|
            || (|es| == |c.reg.endpoints| + 1 && es[|c.reg.endpoints|].stage.Live?)
  {
    SweepLength(c.reg, 0);
    hide SweepFrom;
  }

  lemma StepReaches(c: Client, a: Action, i: nat)
    requires Inv(c) && Enabled(c, a)
    ensures Reached(Step(c, a).reg, i, 2) == Reached(c.reg, i, 2) + if a == DoDestroy(i) then 1 else 0
    ensures Reached(Step(c, a).reg, i, 3) == Reached(c.reg, i, 3) + if a == DoEndpointGone(i) then 1 else 0
  {
    StepLength(c, a);
    if i < |c.reg.endpoints| {
      StepMovesForward(c, a, i);
    }
    hide Inv;
  }

  lemma {:induction false} RunReaches(c: Client, actions: seq<Action>, i: nat)
    requires Inv(c) && IsRun(c, actions)
    ensures Reached(After(c, actions).reg, i, 2) == Reached(c.reg, i, 2) + Times(actions, DoDestroy(i))
    ensures Reached(After(c, actions).reg, i, 3) == Reached(c.reg, i, 3) + Times(actions, DoEndpointGone(i))
    decreases |actions|
  {
    hide Inv, Reached;
    if actions != [] {
      StepInv(c, actions[0]);
      StepReaches(c, actions[0], i);
      RunReaches(Step(c, actions[0]), actions[1..], i);
    }
  }

  /** Over every run an endpoint is destroyed, and reports its shutdown, at most once; and exactly once by the time
      the client's destruction finishes. */
  lemma DestroyedOnce(fileLoops: bool, provider: bool, actions: seq<Action>, i: nat)
    requires IsRun(Start(fileLoops, provider), actions)
    ensures Times(actions, DoEndpointGone(i)) <= Times(actions, DoDestroy(i)) <= 1
    ensures var c := After(Start(fileLoops, provider), actions);
            c.finish && i < |c.reg.endpoints| ==> Times(actions, DoDestroy(i)) == Times(actions, DoEndpointGone(i)) == 1
  {
    StartInv(fileLoops, provider);
    RunReaches(Start(fileLoops, provider), actions, i);
    if After(Start(fileLoops, provider), actions).finish {
      FinishesLast(fileLoops, provider, actions);
    }
  }

  /** Destruction finishes only when nothing is left: no endpoint that is not gone, no event loop group, no work
      task and no cleanup task, although the cleanup task is not among the conditions tested. */
  lemma FinishesLast(fileLoops: bool, provider: bool, actions: seq<Action>)
    requires IsRun(Start(fileLoops, provider), actions) && After(Start(fileLoops, provider), actions).finish
    ensures var c := After(Start(fileLoops, provider), actions);
            && !c.held.bodyLoops && !c.held.fileLoops && !c.held.provider && !c.destroying && !c.active
            && !c.tasks.workScheduled && !c.tasks.workRunning && !c.tasks.cleanupQueued && !c.tasks.cleanupScheduled
            && c.reg.table == map[] && forall i :: 0 <= i < |c.reg.endpoints| ==> c.reg.endpoints[i].stage.Gone?
  {
    var c := After(Start(fileLoops, provider), actions);
    StartInv(fileLoops, provider);
    RunInv(Start(fileLoops, provider), actions);
    forall i | 0 <= i < |c.reg.endpoints| ensures c.reg.endpoints[i].stage.Gone? {
      if !c.reg.endpoints[i].stage.Gone? {
        CountZero(c.reg.endpoints, c.reg.endpoints[i].stage.Live?, i);
      }
    }
    assert |c.reg.table| == 0;
  }
}
