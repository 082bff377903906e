/** What delivery guarantees over every run. */
module DeliveryTheorems {
  import opened Numbering
  import opened ObjectParts
  import opened PrefixTracker
  import opened Delivery
  import opened DeliveryLog
  import opened DeliverySafety
  import opened DeliveryLoop
  import opened DeliveryRuns

  // ----- The remaining steps -----

  /** Queueing a notice leaves the byte stream as it is. */
  lemma AliveNotice(plan: Plan, log: seq<Chunk>, pend: seq<Event>, marked: set<nat>, idle: set<nat>,
                    arrived: set<nat>, upTo: nat, nextStart: nat)
    requires Alive(plan, log, pend, marked, idle, arrived, upTo, nextStart)
    ensures Alive(plan, log, pend + [Notice], marked, idle, arrived, upTo, nextStart)
  {
    assert pend + [Notice] == pend + [Notice] + [] && pend + [] == pend;
    EventsOkAround(plan, pend, Notice, []);
    Around(log, pend, Notice, []);
    Drop(plan, pend, Notice, [], if |plan.parts| > 0 then plan.parts[0].start + |Bytes(log)| else 0);
  }

  lemma NotifyQueues(plan: Plan, m: Meta)
    requires Queues(plan, m)
    ensures Queues(plan, AddEvent(m, Notice))
  {
    BodyCountConcat(m.events, [Notice]);
  }

  lemma NotifyBooks(plan: Plan, m: Meta)
    requires Books(plan, m)
    ensures Books(plan, AddEvent(m, Notice)) && (Dead(m) ==> Dead(AddEvent(m, Notice)))
  {
    NotifyQueues(plan, m);
    hide Queues, Truthful;
  }

  lemma NotifyLive(plan: Plan, m: Meta)
    requires Live(plan, m)
    ensures Live(plan, AddEvent(m, Notice))
  {
    hide Alive, Tracks;
    AliveNotice(plan, m.log, m.batch + m.events, m.marked, m.pending + m.writes, m.arrived, m.nextPart - 1,
                m.nextStart);
    assert m.batch + (m.events + [Notice]) == m.batch + m.events + [Notice];
  }

  lemma NotifyInv(plan: Plan, m: Meta)
    requires Inv(plan, m)
    ensures Inv(plan, AddEvent(m, Notice)) && (Live(plan, m) ==> Live(plan, AddEvent(m, Notice)))
  {
    hide Books, Live, Dead, AddEvent;
    NotifyBooks(plan, m);
    if Live(plan, m) {
      NotifyLive(plan, m);
    }
  }

  lemma OpenWindowBooks(plan: Plan, m: Meta, n: nat)
    requires Books(plan, m)
    ensures Books(plan, OpenWindow(m, n)) && (Dead(m) ==> Dead(OpenWindow(m, n)))
  {
    hide Truthful;
  }

  lemma OpenWindowLive(plan: Plan, m: Meta, n: nat)
    requires Live(plan, m)
    ensures Live(plan, OpenWindow(m, n))
  {
    hide Alive, Tracks;
  }

  lemma OpenWindowInv(plan: Plan, m: Meta, n: nat)
    requires Inv(plan, m)
    ensures Inv(plan, OpenWindow(m, n)) && (Live(plan, m) ==> Live(plan, OpenWindow(m, n)))
  {
    hide Books, Live, Dead, OpenWindow;
    OpenWindowBooks(plan, m, n);
    if Live(plan, m) {
      OpenWindowLive(plan, m, n);
    }
  }

  lemma CancelInv(plan: Plan, m: Meta)
    requires Inv(plan, m)
    ensures Inv(plan, m.(failed := true))
  {
    hide Alive, Truthful, Tracks;
  }

  lemma WrittenDead(plan: Plan, m: Meta, p: nat, ok: bool)
    requires Queues(plan, m) && p in m.writes && 1 <= p <= |plan.parts|
    requires ok ==> Dead(m) || WriteDone(plan, m, p, ok).failed
    ensures Dead(WriteDone(plan, m, p, ok))
  {
    hide MarkCompleted;
    if ok {
      MarkFrame(plan, Leave(plan, m, p), [Completed(p, |PartBody(plan, p)|)]);
    }
  }

  lemma WrittenInv(plan: Plan, m: Meta, p: nat, ok: bool)
    requires Inv(plan, m) && p in m.writes && 1 <= p <= |plan.parts|
    ensures Inv(plan, WriteDone(plan, m, p, ok))
    ensures ok && Live(plan, m) && Joins(plan) ==>
              Live(plan, WriteDone(plan, m, p, ok)) && WriteDone(plan, m, p, ok).failed == m.failed
  {
    hide Live, Dead, WriteDone, Queues, WindowOk, NoLostWakeup, LogTruth;
    WrittenBooks(plan, m, p, ok);
    if ok && Live(plan, m) {
      WrittenLive(plan, m, p);
    }
    if !ok || !Live(plan, m) || WriteDone(plan, m, p, ok).failed {
      WrittenDead(plan, m, p, ok);
    }
  }

  // ----- Runs -----

  ghost predicate IsRun(plan: Plan, m: Meta, actions: seq<Action>)
    decreases |actions|
  {
    actions == [] || (Enabled(plan, m, actions[0]) && IsRun(plan, Step(plan, m, actions[0]), actions[1..]))
  }

  ghost function After(plan: Plan, m: Meta, actions: seq<Action>): Meta
    requires IsRun(plan, m, actions)
    decreases |actions|
  {
    if actions == [] then m else After(plan, Step(plan, m, actions[0]), actions[1..])
  }

  lemma StepInv(plan: Plan, m: Meta, a: Action)
    requires Inv(plan, m) && Enabled(plan, m, a)
    ensures Inv(plan, Step(plan, m, a))
  {
    hide Inv;
    match a
    case Arrive(p) => if plan.outOfOrder { StreamUnordered(plan, m, p); } else { StreamOrdered(plan, m, p); }
    case Window(n) => OpenWindowInv(plan, m, n);
    case Notify => NotifyInv(plan, m);
    case Cancel => CancelInv(plan, m);
    case BeginTick => BeginInv(plan, m);
    case EndTick(accepted) => EndTickInv(plan, m, accepted);
    case Written(p, ok, telemetry) =>
      WrittenInv(plan, m, p, ok);
      NotifyInv(plan, WriteDone(plan, m, p, ok));
  }

  lemma {:induction false} RunInv(plan: Plan, m: Meta, actions: seq<Action>)
    requires Inv(plan, m) && IsRun(plan, m, actions)
    ensures Inv(plan, After(plan, m, actions))
    decreases |actions|
  {
    hide Inv;
    if actions != [] {
      StepInv(plan, m, actions[0]);
      RunInv(plan, Step(plan, m, actions[0]), actions[1..]);
    }
  }

  /** Nothing goes wrong outside: no cancellation, and the sink and the file writers take what they are given. */
  ghost predicate Benign(m: Meta, a: Action) {
    match a
    case Cancel => false
    case EndTick(accepted) => forall j :: 0 <= j < |m.batch| ==> accepted(j)
    case Written(_, ok, _) => ok
    case _ => true
  }

  ghost predicate BenignRun(plan: Plan, m: Meta, actions: seq<Action>)
    requires IsRun(plan, m, actions)
    decreases |actions|
  {
    actions == [] || (Benign(m, actions[0]) && BenignRun(plan, Step(plan, m, actions[0]), actions[1..]))
  }

  ghost predicate Healthy(m: Meta) {
    !m.failed && (m.active ==> !m.batchError)
  }

  lemma {:induction false} PopReadyHealthy(m: Meta)
    ensures PopReady(m).failed == m.failed && PopReady(m).active == m.active && PopReady(m).batchError == m.batchError
    ensures PopReady(m).ioCompleted == m.ioCompleted && PopReady(m).window == m.window && PopReady(m).log == m.log
    decreases |m.pending|
  {
    if TopIs(m.pending, m.nextPart) {
      PopReadyHealthy(PopOne(m));
    }
  }

  lemma ArriveHealthy(plan: Plan, m: Meta, p: nat)
    requires Healthy(m)
    ensures Healthy(Stream(plan, m, p))
  {
    if !plan.outOfOrder {
      PopReadyHealthy(m.(arrived := m.arrived + {p}, pending := m.pending + {p}));
    }
  }

  lemma EndTickHealthy(plan: Plan, m: Meta, accepted: nat -> bool)
    requires Inv(plan, m) && m.active && Healthy(m) && forall j :: 0 <= j < |m.batch| ==> accepted(j)
    requires Live(plan, m) && Joins(plan)
    ensures var t := RunTick(plan, m, accepted);
            DoneOk(plan, t.done) && Live(plan, Close(plan, m, t)) && Healthy(Close(plan, m, t))
  {
    hide Live;
    EndTickInv(plan, m, accepted);
  }

  lemma WrittenHealthy(plan: Plan, m: Meta, p: nat)
    requires Inv(plan, m) && Live(plan, m) && Healthy(m) && Joins(plan) && p in m.writes && 1 <= p <= |plan.parts|
    ensures Live(plan, WriteDone(plan, m, p, true)) && Healthy(WriteDone(plan, m, p, true))
  {
    hide Live, MarkCompleted;
    WrittenInv(plan, m, p, true);
    MarkFrame(plan, Leave(plan, m, p), [Completed(p, |PartBody(plan, p)|)]);
  }

  /** Delivery raises no error of its own: in particular no order check and no duplicate mark ever fails. */
  lemma StepHealthy(plan: Plan, m: Meta, a: Action)
    requires Inv(plan, m) && Live(plan, m) && Healthy(m) && Joins(plan) && Enabled(plan, m, a) && Benign(m, a)
    ensures Live(plan, Step(plan, m, a)) && Healthy(Step(plan, m, a))
  {
    hide Inv, Live;
    match a
    case Arrive(p) =>
      ArriveHealthy(plan, m, p);
      if plan.outOfOrder { StreamUnordered(plan, m, p); } else { StreamOrdered(plan, m, p); }
    case Window(n) => OpenWindowInv(plan, m, n);
    case Notify => NotifyInv(plan, m);
    case BeginTick => BeginInv(plan, m);
    case EndTick(accepted) => EndTickHealthy(plan, m, accepted);
    case Written(p, _, _) =>
      WrittenHealthy(plan, m, p);
      WrittenInv(plan, m, p, true);
      NotifyInv(plan, WriteDone(plan, m, p, true));
  }

  lemma {:induction false} RunHealthy(plan: Plan, m: Meta, actions: seq<Action>)
    requires Inv(plan, m) && Live(plan, m) && Healthy(m) && Joins(plan) && IsRun(plan, m, actions)
    requires BenignRun(plan, m, actions)
    ensures Live(plan, After(plan, m, actions)) && Healthy(After(plan, m, actions))
    decreases |actions|
  {
    hide Inv, Live, Healthy;
    if actions != [] {
      StepInv(plan, m, actions[0]);
      StepHealthy(plan, m, actions[0]);
      RunHealthy(plan, Step(plan, m, actions[0]), actions[1..]);
    }
  }

  // ----- The read window -----

  /** The bytes by which the caller opens the window, over all its increments. */
  ghost function Increments(actions: seq<Action>): nat
    decreases |actions|
  {
    if actions == [] then 0
    else (if actions[0].Window? then actions[0].bytes else 0) + Increments(actions[1..])
  }

  /** Sums of window bytes stop at the largest 64-bit value. */
  function Saturated(bytes: nat): nat {
    if bytes < U64 then bytes else U64 - 1
  }

  lemma EndTickWindow(plan: Plan, m: Meta, accepted: nat -> bool)
    requires m.active && EventsOk(plan, m.batch)
    ensures Step(plan, m, EndTick(accepted)).window == m.window
  {
    hide RunTick;
    var t := RunTick(plan, m, accepted);
    if DoneOk(plan, t.done) {
      CloseClosed(plan, m, t);
    }
  }

  /** Only the caller moves the window, by what it asks for. */
  lemma StepWindow(plan: Plan, m: Meta, a: Action)
    requires Enabled(plan, m, a) && m.window < U64
    ensures Step(plan, m, a).window == Saturated(m.window + Increments([a]))
  {
    hide MarkCompleted, RunTick, Close, PopReady;
    match a
    case Arrive(p) => PopReadyHealthy(m.(arrived := m.arrived + {p}, pending := m.pending + {p}));
    case EndTick(accepted) => EndTickWindow(plan, m, accepted);
    case Written(p, ok, _) => if ok { MarkFrame(plan, Leave(plan, m, p), [Completed(p, |PartBody(plan, p)|)]); }
    case _ =>
  }

  lemma {:induction false} RunWindow(plan: Plan, m: Meta, actions: seq<Action>)
    requires IsRun(plan, m, actions) && m.window < U64
    ensures After(plan, m, actions).window == Saturated(m.window + Increments(actions))
    decreases |actions|
  {
    hide Enabled, Step;
    if actions != [] {
      StepWindow(plan, m, actions[0]);
      RunWindow(plan, Step(plan, m, actions[0]), actions[1..]);
    }
  }

  // ----- The theorems -----

  /** In every run, failed or not: what the sink received of each part is a prefix of that part's body,
      delivered once and at the right offsets; delivering in order, the whole stream is a prefix of the
      object and its length is the byte count reported; the window is what the caller opened it to, and no
      more bytes than that are delivered. */
  lemma DeliverySafe(plan: Plan, window: nat, actions: seq<Action>, p: nat)
    requires PlanOk(plan) && window < U64 && IsRun(plan, Init(window), actions) && 1 <= p <= |plan.parts|
    ensures var m := After(plan, Init(window), actions);
            && LogOk(plan, m.log) && PartBytes(m.log, p) <= PartBody(plan, p)
            && (!plan.outOfOrder ==>
                  && Bytes(m.log) <= Content(plan.parts)
                  && m.tracker.delivered == m.tracker.total == |Bytes(m.log)|)
            && m.window == Saturated(window + Increments(actions))
            && (plan.windowed ==> |Bytes(m.log)| <= window + Increments(actions))
  {
    hide Inv, LogOk, IsRun, After;
    RunWindow(plan, Init(window), actions);
    InitInv(plan, window);
    RunInv(plan, Init(window), actions);
    InvSafe(plan, After(plan, Init(window), actions), p);
  }

  lemma InvSafe(plan: Plan, m: Meta, p: nat)
    requires Inv(plan, m) && 1 <= p <= |plan.parts|
    ensures LogOk(plan, m.log) && PartBytes(m.log, p) <= PartBody(plan, p)
    ensures !plan.outOfOrder ==>
              Bytes(m.log) <= Content(plan.parts) && m.tracker.delivered == m.tracker.total == |Bytes(m.log)|
    ensures plan.windowed ==> |Bytes(m.log)| <= m.window
  {
    hide Live, Dead, Queues, NoLostWakeup;
    PartStream(plan, m.log, p);
  }

  /** An error-free run of part completions in any order, window increments and delivery ticks raises no error of
      its own, and in object order conserves the stream: what was delivered and what is queued are together the
      parts that came next in order. */
  lemma ErrorFreeDelivery(plan: Plan, window: nat, actions: seq<Action>)
    requires PlanOk(plan) && Joins(plan) && window < U64 && IsRun(plan, Init(window), actions)
    requires BenignRun(plan, Init(window), actions)
    ensures var m := After(plan, Init(window), actions);
            && !m.failed && EventsOk(plan, m.batch + m.events)
            && (!plan.outOfOrder ==>
                  1 <= m.nextPart <= |plan.parts| + 1 &&
                  Bytes(m.log) + Rest(plan, m.batch + m.events) == Content(plan.parts[..m.nextPart - 1]))
            && (plan.outOfOrder ==> Tracks(m.tracker, plan.parts, m.marked))
  {
    InitInv(plan, window);
    RunHealthy(plan, Init(window), actions);
    hide Received, NoDup, InSync, LogOk, Tracks, Positioned;
  }

  /** Queued events wait only for a scheduled task, for read window, or for nothing after a failure. A task is scheduled
      only with events queued, and one task runs at a time. */
  lemma NoWakeupLost(plan: Plan, window: nat, actions: seq<Action>)
    requires PlanOk(plan) && window < U64 && IsRun(plan, Init(window), actions)
    ensures var m := After(plan, Init(window), actions);
            && (m.events != [] && !m.scheduled ==>
                  !m.active && (m.failed || (plan.windowed && m.window == m.ioCompleted)))
            && (m.scheduled ==> m.events != [])
            && Times(actions, true) == Times(actions, false) + if m.active then 1 else 0
  {
    InitInv(plan, window);
    RunInv(plan, Init(window), actions);
    RunTimes(plan, Init(window), actions);
  }

  /** How often a task began, or ended. */
  ghost function Times(actions: seq<Action>, begins: bool): nat
    decreases |actions|
  {
    if actions == [] then 0 else TimesOne(actions[0], begins) + Times(actions[1..], begins)
  }

  function TimesOne(a: Action, begins: bool): nat {
    if (if begins then a.BeginTick? else a.EndTick?) then 1 else 0
  }

  lemma StepTimes(plan: Plan, m: Meta, a: Action)
    requires Inv(plan, m) && Enabled(plan, m, a)
    ensures TimesOne(a, true) + (if m.active then 1 else 0) ==
            TimesOne(a, false) + if Step(plan, m, a).active then 1 else 0
  {
    hide Inv, RunTick, Close, MarkCompleted, PopReady;
    match a
    case Arrive(p) => PopReadyHealthy(m.(arrived := m.arrived + {p}, pending := m.pending + {p}));
    case EndTick(accepted) =>
      EndTickInv(plan, m, accepted);
      CloseClosed(plan, m, RunTick(plan, m, accepted));
    case Written(p, ok, _) => if ok { MarkFrame(plan, Leave(plan, m, p), [Completed(p, |PartBody(plan, p)|)]); }
    case _ =>
  }

  lemma {:induction false} RunTimes(plan: Plan, m: Meta, actions: seq<Action>)
    requires Inv(plan, m) && IsRun(plan, m, actions)
    ensures Times(actions, true) + (if m.active then 1 else 0) ==
            Times(actions, false) + if After(plan, m, actions).active then 1 else 0
    decreases |actions|
  {
    hide Inv, Enabled, Step, TimesOne;
    if actions != [] {
      StepInv(plan, m, actions[0]);
      StepTimes(plan, m, actions[0]);
      RunTimes(plan, Step(plan, m, actions[0]), actions[1..]);
    }
  }

  /** Re-queueing: what a tick could not deliver goes back in its original order ahead of what arrived meanwhile, and
      only when the window allowance is used up. It has a task scheduled for itself only if the window was opened
      meanwhile and nothing has failed. */
  lemma RequeueOrder(plan: Plan, window: nat, actions: seq<Action>, accepted: nat -> bool)
    requires PlanOk(plan) && window < U64 && IsRun(plan, Init(window), actions)
    requires After(plan, Init(window), actions).active
    ensures var m := After(plan, Init(window), actions);
            && EventsOk(plan, m.batch)
            && var t := RunTick(plan, m, accepted);
            && DoneOk(plan, t.done)
            && Close(plan, m, t).events == t.kept + m.events
            && InBatchOrder(m.batch, t.kept)
            && (t.kept != [] ==> plan.windowed && t.allowed == 0)
            && (Close(plan, m, t).scheduled && !m.scheduled ==>
                  t.kept != [] && !t.error && m.window > t.ioCompleted)
  {
    hide IsRun, After;
    InitInv(plan, window);
    RunInv(plan, Init(window), actions);
    RequeuedInOrder(plan, After(plan, Init(window), actions), accepted);
  }

  lemma RequeuedInOrder(plan: Plan, m: Meta, accepted: nat -> bool)
    requires Inv(plan, m) && m.active
    ensures EventsOk(plan, m.batch)
    ensures var t := RunTick(plan, m, accepted);
            && DoneOk(plan, t.done) && Close(plan, m, t).events == t.kept + m.events
            && InBatchOrder(m.batch, t.kept) && (t.kept != [] ==> plan.windowed && t.allowed == 0)
            && (Close(plan, m, t).scheduled && !m.scheduled ==>
                  t.kept != [] && !t.error && m.window > t.ioCompleted)
  {
    hide Live, Dead, LogTruth, RunTick, Close, InBatchOrder;
    var t := RunTick(plan, m, accepted);
    RunTickResult(plan, m, accepted);
    CloseClosed(plan, m, t);
    BatchInOrder(plan, m, accepted);
    WithinWindow(plan, m, t);
  }

  lemma BatchInOrder(plan: Plan, m: Meta, accepted: nat -> bool)
    requires EventsOk(plan, m.batch)
    ensures InBatchOrder(m.batch, RunTick(plan, m, accepted).kept)
  {
    KeptInOrder(plan, StartTick(m), m.batch, 0, accepted);
  }

  lemma WithinWindow(plan: Plan, m: Meta, t: Tick)
    requires WindowOk(plan, m) && m.active && Grows(plan, StartTick(m), t)
    ensures plan.windowed ==> t.ioCompleted <= m.window
    ensures plan.windowed ==> Allowed(m.window, t.ioCompleted) == m.window - t.ioCompleted
  {
  }

  /** `kept` is a subsequence of `batch`, part for part. */
  predicate InBatchOrder(batch: seq<Event>, kept: seq<Event>)
    decreases |batch|
  {
    kept == [] ||
    (batch != [] &&
     (InBatchOrder(batch[..|batch| - 1], kept) ||
      (&& batch[|batch| - 1].Body? && kept[|kept| - 1].Body? && batch[|batch| - 1].part == kept[|kept| - 1].part
       && InBatchOrder(batch[..|batch| - 1], kept[..|kept| - 1]))))
  }

  /** One event adds itself to the kept ones, or nothing. */
  lemma KeepsAtMostOne(plan: Plan, t: Tick, e: Event, accepted: bool)
    requires EventOk(plan, e)
    ensures var kept := DeliverOne(plan, t, e, accepted).kept;
            || kept == t.kept
            || (&& e.Body? && kept != [] && kept[..|kept| - 1] == t.kept
                && kept[|kept| - 1].Body? && kept[|kept| - 1].part == e.part)
  {
  }

  lemma {:induction false} KeptInOrder(plan: Plan, t: Tick, es: seq<Event>, i: nat, accepted: nat -> bool)
    requires EventsOk(plan, es) && i <= |es| && InBatchOrder(es[..i], t.kept)
    ensures InBatchOrder(es, DeliverFrom(plan, t, es, i, accepted).kept)
    decreases |es| - i
  {
    hide DeliverOne, EventOk;
    if i < |es| {
      KeepsAtMostOne(plan, t, es[i], accepted(i));
      assert es[..i + 1][..i] == es[..i];
      KeptInOrder(plan, DeliverOne(plan, t, es[i], accepted(i)), es, i + 1, accepted);
    } else {
      assert es[..i] == es;
    }
  }

  lemma {:induction false} NoBodiesLeft(plan: Plan, es: seq<Event>)
    requires EventsOk(plan, es) && BodyCount(es) == 0
    ensures Rest(plan, es) == [] && Queued(es) == {}
  {
    if es != [] {
      NoBodiesLeft(plan, es[1..]);
    }
  }

  lemma AllMarked(plan: Plan, m: Meta)
    requires Live(plan, m) && m.completed >= |plan.parts|
    ensures m.marked == Parts(|plan.parts|) && m.completed == |plan.parts|
    ensures forall p :: 1 <= p <= |plan.parts| ==> Sent(m.log, p) == |PartBody(plan, p)|
  {
    hide LogOk, Ordered, Tracks, NoDup, InSync;
    assert m.marked <= m.arrived <= Parts(|plan.parts|);
    SubsetCardinality(m.marked, Parts(|plan.parts|));
  }

  lemma WholeStream(plan: Plan, m: Meta)
    requires Queues(plan, m) && Live(plan, m) && !plan.outOfOrder && m.completed >= |plan.parts|
    ensures Bytes(m.log) == Content(plan.parts)
  {
    hide LogOk, Received, Positioned, NoDup, InSync;
    BodyCountConcat(m.batch, m.events);
    NoBodiesLeft(plan, m.batch + m.events);
    assert plan.parts[..|plan.parts|] == plan.parts;
  }

  /** Once as many parts as there are have been delivered without failure, everything was: every part is
      marked, the sink has each part whole, in order the stream is the object, and the counts agree. */
  lemma AllDelivered(plan: Plan, m: Meta)
    requires Inv(plan, m) && !m.failed && m.completed >= |plan.parts|
    ensures m.marked == Parts(|plan.parts|) && m.completed == |plan.parts|
    ensures forall p :: 1 <= p <= |plan.parts| ==> Sent(m.log, p) == |PartBody(plan, p)|
    ensures !plan.outOfOrder ==> Bytes(m.log) == Content(plan.parts)
    ensures m.tracker.delivered == m.tracker.total == |Content(plan.parts)| && Joins(plan)
  {
    hide Alive, Queues, WindowOk, NoLostWakeup, Truthful;
    AllMarked(plan, m);
    if plan.outOfOrder {
      AllArrived(m.tracker, plan.parts, m.marked);
    } else {
      WholeStream(plan, m);
    }
  }
}
