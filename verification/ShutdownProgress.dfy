/** The client's shutdown never gets stuck: no wake-up is lost, and from wherever it is it can finish. */
module ShutdownProgress {
  import opened Shutdown

  // ----- No wake-up is lost -----

  /** Everything the client waits for is over. */
  predicate Over(c: Client) {
    !c.active && !c.destroying && c.held == Resources(false, false, false) && c.numAllocated == 0
  }

  /** Once everything is over, a work task that looks is on its way; and as long as an inactive client has an endpoint
      that nobody references, the sweep is. */
  predicate Awake(c: Client) {
    && (Over(c) && !c.finish ==> c.tasks.workScheduled || c.tasks.workRunning)
    && (!c.active && !c.tasks.cleanupQueued ==> Clean(c.reg.endpoints))
  }

  predicate Clean(es: seq<Endpoint>) {
    forall i :: 0 <= i < |es| && es[i].stage.Live? ==> es[i].refs > 0
  }

  lemma SweptClean(r: Registry)
    ensures Clean(SweepFrom(r, 0).endpoints)
  {
    var d := SweepFrom(r, 0);
    SweepLength(r, 0);
    forall i | 0 <= i < |d.endpoints| && d.endpoints[i].stage.Live? ensures d.endpoints[i].refs > 0 {
      SweepForward(r, 0, i);
    }
  }

  lemma StepAwake(c: Client, a: Action)
    requires Inv(c) && Awake(c) && Enabled(c, a)
    ensures Awake(Step(c, a))
  {
    hide EndpointsOk, SweepFrom;
    SweptClean(c.reg);
  }

  lemma {:induction false} RunAwake(c: Client, actions: seq<Action>)
    requires Inv(c) && Awake(c) && IsRun(c, actions)
    ensures Awake(After(c, actions))
    decreases |actions|
  {
    hide Inv, Awake;
    if actions != [] {
      StepInv(c, actions[0]);
      StepAwake(c, actions[0]);
      RunAwake(Step(c, actions[0]), actions[1..]);
    }
  }

  lemma Reached(fileLoops: bool, provider: bool, actions: seq<Action>)
    requires IsRun(Start(fileLoops, provider), actions)
    ensures Inv(After(Start(fileLoops, provider), actions)) && Awake(After(Start(fileLoops, provider), actions))
  {
    StartInv(fileLoops, provider);
    RunInv(Start(fileLoops, provider), actions);
    RunAwake(Start(fileLoops, provider), actions);
  }

  /** In every run: once the client is inactive, its destruction has begun in full, every event loop group and the
      provider are gone and no endpoint is left, either destruction has finished or a work task is scheduled or
      running; and an inactive client's unreferenced endpoint is in the table only until a cleanup task that is
      queued. */
  lemma NoShutdownWakeupLost(fileLoops: bool, provider: bool, actions: seq<Action>, i: nat)
    requires IsRun(Start(fileLoops, provider), actions)
    ensures var c := After(Start(fileLoops, provider), actions);
            && (Over(c) ==> c.finish || c.tasks.workScheduled || c.tasks.workRunning)
            && (!c.active && i < |c.reg.endpoints| && c.reg.endpoints[i].stage.Live? && c.reg.endpoints[i].refs == 0 ==>
                  c.tasks.cleanupQueued)
  {
    Reached(fileLoops, provider, actions);
  }

  // ----- What the state records -----

  /** By how much an action changes the references held to endpoint `i`: a request takes one to the endpoint that the
      table has for its host, or to the one that is then made. */
  function Holding(c: Client, a: Action, i: nat): int {
    match a
    case DoMakeRequest(host) =>
      if i == (if host in c.reg.table then c.reg.table[host] else |c.reg.endpoints|) then 1 else 0
    case DoAcquire(k) => if k == i then 1 else 0
    case DoRelease(k) => if k == i then -1 else 0
    case _ => 0
  }

  function Held(c: Client, actions: seq<Action>, i: nat): int
    requires IsRun(c, actions)
    decreases |actions|
  {
    if actions == [] then 0 else Holding(c, actions[0], i) + Held(Step(c, actions[0]), actions[1..], i)
  }

  function Refs(c: Client, i: nat): nat {
    if i < |c.reg.endpoints| then c.reg.endpoints[i].refs else 0
  }

  lemma StepRefs(c: Client, a: Action, i: nat)
    requires Enabled(c, a)
    ensures Refs(Step(c, a), i) == Refs(c, i) + Holding(c, a, i)
  {
    hide SweepFrom;
    SweepLength(c.reg, 0);
    if i < |c.reg.endpoints| {
      SweepForward(c.reg, 0, i);
    }
  }

  lemma {:induction false} RunRefs(c: Client, actions: seq<Action>, i: nat)
    requires IsRun(c, actions)
    ensures Refs(After(c, actions), i) == Refs(c, i) + Held(c, actions, i)
    decreases |actions|
  {
    hide Enabled, Step, Refs, Holding;
    if actions != [] {
      StepRefs(c, actions[0], i);
      RunRefs(Step(c, actions[0]), actions[1..], i);
    }
  }

  /** The flags, from the actions of a run. */
  predicate Records(c: Client, actions: seq<Action>, d: Client) {
    && (d.active <==> c.active && DoStartDestroy !in actions)
    && (d.destroying <==> (c.destroying || DoStartDestroy in actions) && DoEndStartDestroy !in actions)
    && (d.held.bodyLoops <==> c.held.bodyLoops && BodyLoopsGone !in actions)
    && (d.held.fileLoops <==> c.held.fileLoops && FileLoopsGone !in actions)
    && (d.held.provider <==> c.held.provider && ProviderGone !in actions)
  }

  lemma {:induction false} RunRecords(c: Client, actions: seq<Action>)
    requires Inv(c) && IsRun(c, actions)
    ensures Records(c, actions, After(c, actions))
    decreases |actions|
  {
    if actions != [] {
      var a := actions[0];
      StepInv(c, a);
      RunRecords(Step(c, a), actions[1..]);
      hide Inv;
      StepRecords(c, a);
      RestRecords(c, a, actions[1..], After(c, actions));
      assert [a] + actions[1..] == actions;
    }
  }

  lemma StepRecords(c: Client, a: Action)
    requires Inv(c) && Enabled(c, a)
    ensures Records(c, [a], Step(c, a)) && (c.destroying ==> !c.active)
  {
    hide EndpointsOk, SweepFrom, FinishOk;
  }

  lemma RestRecords(c: Client, a: Action, rest: seq<Action>, d: Client)
    requires Enabled(c, a) && Records(c, [a], Step(c, a)) && Records(Step(c, a), rest, d)
    requires c.destroying ==> !c.active
    requires IsRun(Step(c, a), rest) && Inv(Step(c, a))
    ensures Records(c, [a] + rest, d)
  {
    hide EndpointsOk, SweepFrom, FinishOk;
    if DoEndStartDestroy in rest || DoStartDestroy in rest {
      DestroyOrder(Step(c, a), rest);
    }
  }

  /** Destruction starts only once, and is started only after. */
  lemma {:induction false} DestroyOrder(c: Client, actions: seq<Action>)
    requires Inv(c) && IsRun(c, actions)
    ensures !c.active ==> DoStartDestroy !in actions
    ensures !c.active && !c.destroying ==> DoEndStartDestroy !in actions
    decreases |actions|
  {
    hide Inv, Step, Enabled;
    if actions != [] {
      StepInv(c, actions[0]);
      StepDestroy(c, actions[0]);
      DestroyOrder(Step(c, actions[0]), actions[1..]);
    }
  }

  lemma StepDestroy(c: Client, a: Action)
    requires Enabled(c, a)
    ensures !c.active ==> !a.DoStartDestroy? && !Step(c, a).active
    ensures !c.active && !c.destroying ==> !a.DoEndStartDestroy? && !Step(c, a).destroying
  {
    hide SweepFrom;
  }

  /** In every run an endpoint has as many references as were taken and not given back; the client is active until its
      destruction starts, which is under way until it is done; and each event loop group and the provider are held until
      they report to be gone. */
  lemma StateRecordsRun(fileLoops: bool, provider: bool, actions: seq<Action>, i: nat)
    requires IsRun(Start(fileLoops, provider), actions)
    ensures var c := After(Start(fileLoops, provider), actions);
            && Refs(c, i) == Held(Start(fileLoops, provider), actions, i)
            && (c.active <==> DoStartDestroy !in actions)
            && (c.destroying <==> DoStartDestroy in actions && DoEndStartDestroy !in actions)
            && (c.held.bodyLoops <==> BodyLoopsGone !in actions)
            && (c.held.fileLoops <==> fileLoops && FileLoopsGone !in actions)
            && (c.held.provider <==> provider && ProviderGone !in actions)
  {
    StartInv(fileLoops, provider);
    RunRefs(Start(fileLoops, provider), actions, i);
    RunRecords(Start(fileLoops, provider), actions);
  }

  // ----- What is left to do -----

  function Weight(e: Endpoint): nat {
    match e.stage
    case Live => e.refs + 3
    case Condemned => 2
    case ShuttingDown => 1
    case Gone => 0
  }

  function Load(es: seq<Endpoint>): nat {
    if es == [] then 0 else Load(es[..|es| - 1]) + Weight(es[|es| - 1])
  }

  lemma {:induction false} LoadUpdate(es: seq<Endpoint>, i: nat, e: Endpoint)
    requires i < |es|
    ensures Load(es[i := e]) + Weight(es[i]) == Load(es) + Weight(e)
  {
    var front := es[..|es| - 1];
    if i < |es| - 1 {
      LoadUpdate(front, i, e);
      assert es[i := e][..|es| - 1] == front[i := e];
    } else {
      assert es[i := e][..|es| - 1] == front;
    }
  }

  lemma {:induction false} SweepLoad(r: Registry, i: nat)
    requires i <= |r.endpoints|
    ensures Load(SweepFrom(r, i).endpoints) <= Load(r.endpoints)
    decreases |r.endpoints| - i
  {
    hide Load;
    if i < |r.endpoints| {
      if r.endpoints[i].stage.Live? && r.endpoints[i].refs == 0 {
        LoadUpdate(r.endpoints, i, r.endpoints[i].(refs := 0, stage := Condemned));
        SweepLoad(Condemn(r, i), i + 1);
      } else {
        SweepLoad(r, i + 1);
      }
    }
  }

  function Bit(b: bool): nat {
    if b then 1 else 0
  }

  /** What has to happen outside the event loop thread. */
  function Outside(c: Client): nat {
    2 * Bit(c.active) + Bit(c.destroying) + Load(c.reg.endpoints)
    + Bit(c.held.bodyLoops) + Bit(c.held.fileLoops) + Bit(c.held.provider)
  }

  /** What the event loop thread has to do. */
  function Inside(t: Tasks): nat {
    4 * Bit(t.cleanupQueued) + 2 * Bit(t.workScheduled)
    + if t.thread.Cancelling? then 6 else if t.thread.Middle? then 1 else 0
  }

  predicate Closer(c: Client, d: Client) {
    d.finish || Outside(d) < Outside(c) || (Outside(d) == Outside(c) && Inside(d.tasks) < Inside(c.tasks))
  }

  // ----- One step -----

  lemma EndpointStep(c: Client, i: nat) returns (a: Action)
    requires Inv(c) && Awake(c) && !c.finish && !c.active && !c.tasks.cleanupQueued
    requires i < |c.reg.endpoints| && !c.reg.endpoints[i].stage.Gone?
    ensures !a.Poke? && Enabled(c, a) && Closer(c, Step(c, a))
  {
    hide EndpointsOk, Load;
    var e := c.reg.endpoints[i];
    match e.stage
    case Live =>
      a := DoRelease(i);
      LoadUpdate(c.reg.endpoints, i, e.(refs := 0, stage := Condemned));
      LoadUpdate(c.reg.endpoints, i, e.(refs := e.refs - 1));
    case Condemned =>
      a := DoDestroy(i);
      LoadUpdate(c.reg.endpoints, i, e.(stage := ShuttingDown));
    case ShuttingDown =>
      a := DoEndpointGone(i);
      LoadUpdate(c.reg.endpoints, i, e.(stage := Gone));
  }

  lemma ThreadStep(c: Client) returns (a: Action)
    requires Inv(c) && !c.finish && (!c.tasks.thread.Idle? || c.tasks.cleanupQueued)
    ensures !a.Poke? && Enabled(c, a) && Closer(c, Step(c, a))
  {
    hide EndpointsOk, Load, SweepFrom;
    SweepLoad(c.reg, 0);
    a := if c.tasks.thread.Cancelling? then DoRunCancelled else if c.tasks.thread.Middle? then DoEndWork
         else DoCleanup;
  }

  lemma {:induction false} AllGoneCount(es: seq<Endpoint>, live: bool)
    requires forall i :: 0 <= i < |es| ==> es[i].stage.Gone?
    ensures Count(es, live) == 0
  {
    if es != [] {
      AllGoneCount(es[..|es| - 1], live);
    }
  }

  /** Nothing is left but the resources, or the work task. */
  lemma LastStep(c: Client) returns (a: Action)
    requires Inv(c) && Awake(c) && !c.finish && !c.active && !c.destroying
    requires !c.tasks.cleanupQueued && c.tasks.thread.Idle?
    requires forall i :: 0 <= i < |c.reg.endpoints| ==> c.reg.endpoints[i].stage.Gone?
    ensures !a.Poke? && Enabled(c, a) && Closer(c, Step(c, a))
  {
    AllGoneCount(c.reg.endpoints, true);
    AllGoneCount(c.reg.endpoints, false);
    hide Load;
    if c.held.bodyLoops {
      a := BodyLoopsGone;
    } else if c.held.fileLoops {
      a := FileLoopsGone;
    } else if c.held.provider {
      a := ProviderGone;
    } else {
      assert Over(c);
      a := DoBeginWork;
    }
  }

  lemma NextStep(c: Client) returns (a: Action)
    requires Inv(c) && Awake(c) && !c.finish
    ensures !a.Poke? && Enabled(c, a) && Closer(c, Step(c, a))
  {
    hide Inv, Awake, Load;
    if c.active {
      a := DoStartDestroy;
    } else if c.destroying {
      a := DoEndStartDestroy;
    } else if !c.tasks.thread.Idle? || c.tasks.cleanupQueued {
      a := ThreadStep(c);
    } else if i :| 0 <= i < |c.reg.endpoints| && !c.reg.endpoints[i].stage.Gone? {
      a := EndpointStep(c, i);
    } else {
      a := LastStep(c);
    }
  }

  // ----- The theorem -----

  lemma {:induction false} RunOn(c: Client) returns (more: seq<Action>)
    requires Inv(c) && Awake(c) && !c.finish
    ensures IsRun(c, more) && After(c, more).finish && Poke !in more
    decreases Outside(c), Inside(c.tasks)
  {
    hide Inv, Awake, Enabled, Step, Outside, Inside;
    var a := NextStep(c);
    StepInv(c, a);
    StepAwake(c, a);
    var d := Step(c, a);
    if d.finish {
      more := [a];
      assert more[1..] == [];
    } else {
      var rest := RunOn(d);
      more := [a] + rest;
      assert more[1..] == rest;
    }
  }

  /** After any run destruction can finish, once everybody lets go of what they hold: there is a way to go on that
      finishes it, in which nothing from outside schedules work. */
  lemma ShutdownCanFinish(fileLoops: bool, provider: bool, actions: seq<Action>) returns (more: seq<Action>)
    requires IsRun(Start(fileLoops, provider), actions) && !After(Start(fileLoops, provider), actions).finish
    ensures var c := After(Start(fileLoops, provider), actions);
            IsRun(c, more) && After(c, more).finish && Poke !in more
  {
    Reached(fileLoops, provider, actions);
    more := RunOn(After(Start(fileLoops, provider), actions));
  }
}
