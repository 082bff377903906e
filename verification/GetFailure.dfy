/** A download that has failed can be brought to its end: what is out comes back, and what is queued is dropped, one
    task at a time. */
module GetFailure {
  import opened ObjectParts
  import opened Delivery
  import opened DeliveryLog
  import opened DeliverySafety
  import opened DeliveryLoop
  import opened DeliveryRuns
  import opened DeliveryTheorems
  import opened DeliveryCounts
  import opened DeliveryFaults
  import opened AutoRangedGet
  import opened GetSafety
  import opened GetSteps
  import opened GetRuns
  import opened GetPolicy

  // ----- A task of a download that has failed -----

  lemma {:induction false} PartsCounted(plan: Plan, t: Tick, es: seq<Event>, i: nat, accepted: nat -> bool)
    requires EventsOk(plan, es) && i <= |es|
    ensures t.numParts <= DeliverFrom(plan, t, es, i, accepted).numParts
    decreases |es| - i
  {
    if i < |es| {
      PartsCounted(plan, DeliverOne(plan, t, es[i], accepted(i)), es, i + 1, accepted);
    }
  }

  /** With room in the window the first body that is queued is over, whole or not. */
  lemma {:induction false} DropsOne(plan: Plan, t: Tick, es: seq<Event>, i: nat, accepted: nat -> bool)
    requires EventsOk(plan, es) && i <= |es| && t.error && (plan.windowed ==> t.allowed > 0)
    requires BodyCount(es[i..]) > 0
    ensures t.numParts < DeliverFrom(plan, t, es, i, accepted).numParts
    decreases |es| - i
  {
    var u := DeliverOne(plan, t, es[i], accepted(i));
    assert es[i..][1..] == es[i + 1..];
    if es[i].Notice? {
      DropsOne(plan, u, es, i + 1, accepted);
    } else {
      assert u.numParts == t.numParts + 1;
      PartsCounted(plan, u, es, i + 1, accepted);
    }
  }

  /** What is counted against the window and what is queued add up to no more than before. */
  lemma {:induction false} NoMoreBytes(plan: Plan, t: Tick, es: seq<Event>, i: nat, accepted: nat -> bool)
    requires EventsOk(plan, es) && i <= |es| && EventsOk(plan, t.kept)
    ensures var u := DeliverFrom(plan, t, es, i, accepted);
            && EventsOk(plan, u.kept)
            && u.ioCompleted + |Rest(plan, u.kept)| <= t.ioCompleted + |Rest(plan, t.kept)| + |Rest(plan, es[i..])|
    decreases |es| - i
  {
    hide DeliverOne, EventOk;
    if i == |es| {
      assert es[i..] == [];
    } else {
      OneNoMore(plan, t, es[i], accepted(i));
      NoMoreBytes(plan, DeliverOne(plan, t, es[i], accepted(i)), es, i + 1, accepted);
      assert es[i..][1..] == es[i + 1..];
    }
  }

  lemma OneNoMore(plan: Plan, t: Tick, e: Event, accepted: bool)
    requires EventOk(plan, e) && EventsOk(plan, t.kept)
    ensures var u := DeliverOne(plan, t, e, accepted);
            && EventsOk(plan, u.kept)
            && u.ioCompleted + |Rest(plan, u.kept)| <= t.ioCompleted + |Rest(plan, t.kept)| + |Remaining(plan, e)|
  {
    hide Rest, DeliverBytes;
    if e.Body? && PartBody(plan, e.part) != [] {
      var n := Portion(plan, t, e);
      if n == 0 {
        KeepsAll(plan, t, e);
      } else {
        BytesNoMore(plan, t, e, n, accepted);
      }
    }
  }

  lemma BytesNoMore(plan: Plan, t: Tick, e: Event, n: nat, accepted: bool)
    requires e.Body? && EventOk(plan, e) && EventsOk(plan, t.kept) && 0 < n == Portion(plan, t, e)
    ensures var u := DeliverBytes(plan, t, e, n, accepted);
            && EventsOk(plan, u.kept)
            && u.ioCompleted + |Rest(plan, u.kept)| <= t.ioCompleted + |Rest(plan, t.kept)| + |Remaining(plan, e)|
  {
    hide Rest;
    if e.sent + n < |PartBody(plan, e.part)| {
      KeepsLeft(plan, t.kept, e, n);
    }
  }

  // ----- The end of a failed download -----

  /** The window never gets used up for good. */
  ghost predicate Headroom(plan: Plan, m: Meta) {
    EventsOk(plan, m.batch + m.events) &&
    (plan.windowed ==> m.ioCompleted + |Rest(plan, m.batch + m.events)| < U64 - 1)
  }

  ghost predicate Failing(plan: Plan, g: Get) {
    GetSafety.Inv(plan, g) && InStep(plan, g.m) && g.m.failed && Headroom(plan, g.m)
  }

  ghost predicate CanEnd(plan: Plan, c: Config, g: Get) {
    exists actions :: IsGetRun(plan, c, g, actions) && AfterGet(plan, c, g, actions).finished
  }

  lemma StepToEnd(plan: Plan, c: Config, g: Get, a: GetAction)
    requires CanStep(plan, c, g, a) && CanEnd(plan, c, NextGet(plan, c, g, a))
    ensures CanEnd(plan, c, g)
  {
    hide CanStep, NextGet;
    var h := NextGet(plan, c, g, a);
    var rest :| IsGetRun(plan, c, h, rest) && AfterGet(plan, c, h, rest).finished;
    var actions := [a] + rest;
    assert actions[0] == a && actions[1..] == rest;
    assert IsGetRun(plan, c, g, actions) && AfterGet(plan, c, g, actions) == AfterGet(plan, c, h, rest);
  }

  /** A step on which nothing new is queued keeps a failing download failing. */
  lemma FailingStep(plan: Plan, c: Config, g: Get, a: GetAction)
    requires PlanOk(plan) && Failing(plan, g) && CanStep(plan, c, g, a)
    requires Headroom(plan, NextGet(plan, c, g, a).m) && NextGet(plan, c, g, a).m.failed
    ensures Failing(plan, NextGet(plan, c, g, a))
  {
    hide GetSafety.Inv, InStep, Headroom, CanStep, NextGet;
    NextInv(plan, c, g, a);
    NextInStep(plan, c, g, a);
  }

  // ----- Requests come back -----

  /** The discovery request failed and told nothing. */
  const LOST := Reply(false, true, false, false, false, true, false)

  lemma LostStep(plan: Plan, c: Config, g: Get)
    requires Failing(plan, g) && !g.finished && g.discovery.Out?
    ensures var h := DiscoveryFinished(plan, c, g, LOST);
            && CanStep(plan, c, g, EndDiscovery(LOST)) && NextGet(plan, c, g, EndDiscovery(LOST)) == h
            && !h.finished && h.discovery.NotOut? && h.m == g.m
  {
    hide Failing, DiscoveryFinished;
    LostReply(plan, c, g);
    FailingFailed(plan, g);
  }

  lemma FailingFailed(plan: Plan, g: Get)
    requires Failing(plan, g)
    ensures g.m.failed
  {
  }

  lemma LostReply(plan: Plan, c: Config, g: Get)
    requires g.discovery.Out?
    ensures var h := DiscoveryFinished(plan, c, g, LOST);
            h.finished == g.finished && h.discovery.NotOut? && h.m == g.m.(failed := true)
  {
    hide PartSpread.Init;
    if g.discovery.kind.Head? {
      assert CountDiscovery(plan, g.(discovery := NotOut), g.discovery.kind, LOST).m == g.m;
    } else {
      assert CountDiscovery(plan, g.(discovery := NotOut), g.discovery.kind, LOST).m == g.m;
    }
  }

  lemma LostPart(plan: Plan, c: Config, g: Get, p: nat)
    requires Failing(plan, g) && !g.finished && p in g.inFlight
    ensures var h := PartFinished(plan, g, p, false, false);
            && CanStep(plan, c, g, EndPart(p, false, false)) && NextGet(plan, c, g, EndPart(p, false, false)) == h
            && !h.finished && h.discovery == g.discovery && h.inFlight == g.inFlight - {p} && h.m == g.m
  {
    hide GetSafety.Inv, InStep, Headroom;
    assert g.m.(failed := true) == g.m;
  }

  // ----- The engine runs empty -----

  /** What is left for the engine: a task that runs, file writes, bodies and events queued. */
  ghost predicate LessQueued(m: Meta, r: Meta) {
    || (m.active && !r.active)
    || (m.active == r.active && |r.writes| < |m.writes|)
    || (m.active == r.active && r.writes == m.writes && BodyCount(r.events) < BodyCount(m.events))
    || (&& m.active == r.active && r.writes == m.writes && BodyCount(r.events) == BodyCount(m.events)
        && m.events != [] && r.events == [])
  }

  lemma EndTickFailing(plan: Plan, m: Meta, accepted: nat -> bool)
    requires DeliveryRuns.Inv(plan, m) && m.active && m.failed && Headroom(plan, m)
    ensures DeliveryRuns.Enabled(plan, m, EndTick(accepted))
    ensures var r := DeliveryRuns.Step(plan, m, EndTick(accepted));
            && r.failed && !r.active && Headroom(plan, r) && r.writes == m.writes
            && r.events == RunTick(plan, m, accepted).kept + m.events
  {
    EventsOkParts(plan, m.batch, m.events);
    hide DeliveryRuns.Inv, DeliveryRuns.Step, DeliveryRuns.Enabled, RunTick, Close, EventsOk, Headroom;
    var t := RunTick(plan, m, accepted);
    EndTickCloses(plan, m, accepted);
    CloseClosed(plan, m, t);
    EndTickHeadroom(plan, m, accepted, Close(plan, m, t));
  }

  lemma EndTickCloses(plan: Plan, m: Meta, accepted: nat -> bool)
    requires DeliveryRuns.Inv(plan, m) && m.active && EventsOk(plan, m.batch)
    ensures DeliveryRuns.Enabled(plan, m, EndTick(accepted)) && DoneOk(plan, RunTick(plan, m, accepted).done)
    ensures DeliveryRuns.Step(plan, m, EndTick(accepted)) == Close(plan, m, RunTick(plan, m, accepted))
  {
    hide DeliveryRuns.Inv, RunTick, Close, EventsOk;
    EndTickInv(plan, m, accepted);
  }

  lemma EndTickHeadroom(plan: Plan, m: Meta, accepted: nat -> bool, r: Meta)
    requires Headroom(plan, m) && EventsOk(plan, m.batch) && EventsOk(plan, m.events) && r.batch == []
    requires var t := RunTick(plan, m, accepted); r.events == t.kept + m.events && r.ioCompleted == t.ioCompleted
    ensures Headroom(plan, r)
  {
    hide RunTick, EventsOk, Rest;
    var t := RunTick(plan, m, accepted);
    TaskNoMore(plan, m, accepted);
    RestConcat(plan, m.batch, m.events);
    RestConcat(plan, t.kept, m.events);
    assert [] + (t.kept + m.events) == t.kept + m.events;
  }

  lemma EventsOkParts(plan: Plan, a: seq<Event>, b: seq<Event>)
    requires EventsOk(plan, a + b)
    ensures EventsOk(plan, a) && EventsOk(plan, b)
  {
    assert forall i :: 0 <= i < |a| ==> (a + b)[i] == a[i];
    assert forall i :: 0 <= i < |b| ==> (a + b)[|a| + i] == b[i];
  }

  lemma TaskNoMore(plan: Plan, m: Meta, accepted: nat -> bool)
    requires EventsOk(plan, m.batch)
    ensures var t := RunTick(plan, m, accepted);
            EventsOk(plan, t.kept) && t.ioCompleted + |Rest(plan, t.kept)| <= m.ioCompleted + |Rest(plan, m.batch)|
  {
    assert m.batch[0..] == m.batch;
    NoMoreBytes(plan, StartTick(m), m.batch, 0, accepted);
  }

  lemma WriteFailing(plan: Plan, m: Meta, p: nat)
    requires DeliveryRuns.Inv(plan, m) && m.failed && Headroom(plan, m) && p in m.writes
    ensures DeliveryRuns.Enabled(plan, m, Written(p, false, false))
    ensures var r := DeliveryRuns.Step(plan, m, Written(p, false, false));
            r.failed && r.active == m.active && r.writes == m.writes - {p} && Headroom(plan, r)
  {
    hide Live, Dead, WindowOk, LogTruth;
    WritesInRange(plan, m, p);
  }

  /** Opening the window by a byte schedules a task, which then has room. */
  lemma OpenFailing(plan: Plan, m: Meta)
    requires DeliveryRuns.Inv(plan, m) && m.failed && Headroom(plan, m) && !m.active && m.events != []
    ensures var r := OpenWindow(m, 1);
            && r.failed && !r.active && r.scheduled && r.events == m.events && r.writes == m.writes && Headroom(plan, r)
            && (plan.windowed ==> Allowed(r.window, r.ioCompleted) > 0)
  {
    hide Live, Dead, LogTruth, Queues;
  }

  lemma BeginFailing(plan: Plan, m: Meta)
    requires DeliveryRuns.Inv(plan, m) && m.failed && Headroom(plan, m) && !m.active && m.scheduled
    ensures var r := Begin(m);
            && r.failed && r.active && r.events == [] && r.writes == m.writes && r.batch == m.events
            && Headroom(plan, r) && r.batchError && r.batchAllowed == Allowed(m.window, m.ioCompleted)
  {
    hide Live, Dead, LogTruth, WindowOk;
    assert m.events + [] == m.events && [] + m.events == m.events;
  }

  /** That task drops a body, or all events if none is one. */
  lemma TaskDrops(plan: Plan, m: Meta, accepted: nat -> bool)
    requires EventsOk(plan, m.batch) && m.batchError && (plan.windowed ==> m.batchAllowed > 0)
    ensures var t := RunTick(plan, m, accepted);
            if BodyCount(m.batch) > 0 then BodyCount(t.kept) < BodyCount(m.batch) else t.kept == []
  {
    assert m.batch[0..] == m.batch;
    RunTickResult(plan, m, accepted);
    if BodyCount(m.batch) > 0 {
      DropsOne(plan, StartTick(m), m.batch, 0, accepted);
    } else {
      OnlyNotices(plan, StartTick(m), m.batch, 0, accepted);
    }
  }

  // ----- Steps of a failed download -----

  lemma EngineStep(plan: Plan, c: Config, g: Get, d: Action)
    requires PlanOk(plan) && Failing(plan, g) && !g.finished && !d.Arrive? && DeliveryRuns.Enabled(plan, g.m, d)
    requires Headroom(plan, DeliveryRuns.Step(plan, g.m, d)) && DeliveryRuns.Step(plan, g.m, d).failed
    ensures var h := g.(m := DeliveryRuns.Step(plan, g.m, d));
            CanStep(plan, c, g, Deliver(d)) && NextGet(plan, c, g, Deliver(d)) == h && Failing(plan, h) && !h.finished
  {
    hide DeliveryRuns.Step, DeliveryRuns.Enabled, GetSafety.Inv, InStep, Headroom;
    FailingStep(plan, c, g, Deliver(d));
  }

  lemma TheSteps(plan: Plan, m: Meta)
    ensures DeliveryRuns.Enabled(plan, m, Window(1)) && DeliveryRuns.Step(plan, m, Window(1)) == OpenWindow(m, 1)
    ensures !m.active && m.scheduled ==>
              DeliveryRuns.Enabled(plan, m, BeginTick) && DeliveryRuns.Step(plan, m, BeginTick) == Begin(m)
  {
    hide OpenWindow, Begin;
  }

  /** Opening the window and beginning a task: all that is queued is in its batch. */
  lemma BeginStep(plan: Plan, c: Config, g: Get) returns (h: Get)
    requires PlanOk(plan) && Failing(plan, g) && !g.finished && !g.m.active && g.m.events != []
    ensures Failing(plan, h) && !h.finished && h.discovery == g.discovery && h.inFlight == g.inFlight
    ensures h.m.active && h.m.batch == g.m.events && h.m.events == [] && h.m.writes == g.m.writes
    ensures h.m.batchError && (plan.windowed ==> h.m.batchAllowed > 0)
    ensures CanEnd(plan, c, h) ==> CanEnd(plan, c, g)
  {
    hide Failing, CanEnd, Headroom, DeliveryRuns.Inv, DeliveryRuns.Step, DeliveryRuns.Enabled, OpenWindow, Begin,
         PlanOk, CanStep, NextGet, Allowed;
    var g1 := g.(m := OpenWindow(g.m, 1));
    FailingEngine(plan, g);
    OpenFailing(plan, g.m);
    TheSteps(plan, g.m);
    EngineStep(plan, c, g, Window(1));
    FailingEngine(plan, g1);
    BeginFailing(plan, g1.m);
    TheSteps(plan, g1.m);
    EngineStep(plan, c, g1, BeginTick);
    h := g1.(m := Begin(g1.m));
    if CanEnd(plan, c, h) {
      StepToEnd(plan, c, g1, Deliver(BeginTick));
      StepToEnd(plan, c, g, Deliver(Window(1)));
    }
  }

  /** A task then shortens the queue. */
  lemma DropStep(plan: Plan, c: Config, g: Get) returns (h: Get)
    requires PlanOk(plan) && Failing(plan, g) && !g.finished && !g.m.active && g.m.events != []
    ensures Failing(plan, h) && !h.finished && LessQueued(g.m, h.m)
    ensures h.discovery == g.discovery && h.inFlight == g.inFlight && (CanEnd(plan, c, h) ==> CanEnd(plan, c, g))
  {
    hide Failing, CanEnd, Headroom, DeliveryRuns.Inv, DeliveryRuns.Step, PlanOk, LessQueued, CanStep, NextGet, RunTick;
    var accepted := (j: nat) => true;
    var g2 := BeginStep(plan, c, g);
    FailingEngine(plan, g2);
    EndTickFailing(plan, g2.m, accepted);
    EngineStep(plan, c, g2, EndTick(accepted));
    h := g2.(m := DeliveryRuns.Step(plan, g2.m, EndTick(accepted)));
    ShorterQueue(plan, g.m, g2.m, h.m, accepted);
    if CanEnd(plan, c, h) {
      StepToEnd(plan, c, g2, Deliver(EndTick(accepted)));
    }
  }

  lemma FailingEngine(plan: Plan, g: Get)
    requires Failing(plan, g)
    ensures DeliveryRuns.Inv(plan, g.m) && g.m.failed && Headroom(plan, g.m) && EventsOk(plan, g.m.batch)
  {
    hide DeliveryRuns.Inv, Requesting, InStep, EventsOk;
    EngineInv(plan, g);
    EventsOkParts(plan, g.m.batch, g.m.events);
  }

  lemma ShorterQueue(plan: Plan, m: Meta, b: Meta, r: Meta, accepted: nat -> bool)
    requires EventsOk(plan, b.batch) && !m.active && b.batch == m.events != [] && b.events == []
    requires b.batchError && (plan.windowed ==> b.batchAllowed > 0)
    requires r.events == RunTick(plan, b, accepted).kept + b.events && !r.active && r.writes == m.writes
    ensures LessQueued(m, r)
  {
    hide RunTick, EventsOk;
    TaskDrops(plan, b, accepted);
    var kept := RunTick(plan, b, accepted).kept;
    assert kept + [] == kept;
  }

  /** Nothing is left: the next update finishes. */
  lemma LastUpdate(plan: Plan, c: Config, g: Get)
    requires PlanOk(plan) && Failing(plan, g) && !g.finished && g.discovery.NotOut? && g.inFlight == {}
    requires !g.m.active && g.m.writes == {} && g.m.events == []
    ensures CanEnd(plan, c, g)
  {
    hide InStep, Headroom;
    QuietIsIdle(plan, g);
    hide GetSafety.Inv, Idle, MaskFull;
    var done := Finish(plan, g);
    var none: seq<GetAction> := [];
    assert IsGetRun(plan, c, done, none) && AfterGet(plan, c, done, none) == done;
    assert NextGet(plan, c, g, DoUpdate(false)) == done;
    StepToEnd(plan, c, g, DoUpdate(false));
  }

  function Bit(b: bool): nat {
    if b then 1 else 0
  }

  /** Of two states of a download, the second has less left to do. */
  ghost predicate Less(g: Get, h: Get) {
    || Bit(h.discovery.Out?) < Bit(g.discovery.Out?)
    || (h.discovery.Out? == g.discovery.Out? && |h.inFlight| < |g.inFlight|)
    || (h.discovery.Out? == g.discovery.Out? && h.inFlight == g.inFlight && LessQueued(g.m, h.m))
  }

  /** `h` is a step or more on the way to the end from `g`. */
  ghost predicate OnTheWay(plan: Plan, c: Config, g: Get, h: Get) {
    Failing(plan, h) && !h.finished && Less(g, h) && (CanEnd(plan, c, h) ==> CanEnd(plan, c, g))
  }

  lemma RequestBack(plan: Plan, c: Config, g: Get) returns (h: Get)
    requires PlanOk(plan) && Failing(plan, g) && !g.finished && (g.discovery.Out? || g.inFlight != {})
    ensures OnTheWay(plan, c, g, h)
  {
    FailingEngine(plan, g);
    hide Failing, CanEnd, CanStep, NextGet, PlanOk, LessQueued, DiscoveryFinished, PartFinished, Headroom;
    var a: GetAction;
    if g.discovery.Out? {
      a := EndDiscovery(LOST);
      LostStep(plan, c, g);
    } else {
      var p :| p in g.inFlight;
      a := EndPart(p, false, false);
      LostPart(plan, c, g, p);
    }
    FailingStep(plan, c, g, a);
    h := NextGet(plan, c, g, a);
    if CanEnd(plan, c, h) {
      StepToEnd(plan, c, g, a);
    }
  }

  lemma EngineBack(plan: Plan, c: Config, g: Get) returns (h: Get)
    requires PlanOk(plan) && Failing(plan, g) && !g.finished && (g.m.active || g.m.writes != {})
    ensures OnTheWay(plan, c, g, h)
  {
    FailingEngine(plan, g);
    hide Failing, CanEnd, CanStep, NextGet, PlanOk, Headroom, DeliveryRuns.Inv, DeliveryRuns.Step, RunTick;
    var d: Action;
    if g.m.active {
      var accepted := (j: nat) => true;
      d := EndTick(accepted);
      EndTickFailing(plan, g.m, accepted);
    } else {
      var p :| p in g.m.writes;
      d := Written(p, false, false);
      WriteFailing(plan, g.m, p);
    }
    EngineStep(plan, c, g, d);
    h := g.(m := DeliveryRuns.Step(plan, g.m, d));
    if CanEnd(plan, c, h) {
      StepToEnd(plan, c, g, Deliver(d));
    }
  }

  lemma {:induction false} FailingCanEnd(plan: Plan, c: Config, g: Get)
    requires PlanOk(plan) && Failing(plan, g) && !g.finished
    ensures CanEnd(plan, c, g)
    decreases Bit(g.discovery.Out?), |g.inFlight|, Bit(g.m.active), |g.m.writes|, BodyCount(g.m.events),
              Bit(g.m.events != [])
  {
    hide Failing, CanEnd, PlanOk;
    if g.discovery.Out? || g.inFlight != {} {
      var h := RequestBack(plan, c, g);
      FailingCanEnd(plan, c, h);
    } else if g.m.active || g.m.writes != {} {
      var h := EngineBack(plan, c, g);
      FailingCanEnd(plan, c, h);
    } else if g.m.events != [] {
      var h := DropStep(plan, c, g);
      FailingCanEnd(plan, c, h);
    } else {
      LastUpdate(plan, c, g);
    }
  }

  // ----- The window is never used up for good -----

  /** The bytes of the parts in `s`. */
  ghost function Sizes(plan: Plan, s: set<nat>, n: nat): nat
    requires n <= |plan.parts|
  {
    if n == 0 then 0 else Sizes(plan, s, n - 1) + if n in s then |PartBody(plan, n)| else 0
  }

  lemma {:induction false} SizesAdd(plan: Plan, s: set<nat>, p: nat, n: nat)
    requires n <= |plan.parts| && 1 <= p <= |plan.parts| && p !in s
    ensures Sizes(plan, s + {p}, n) == Sizes(plan, s, n) + if p <= n then |PartBody(plan, p)| else 0
  {
    if n > 0 {
      SizesAdd(plan, s, p, n - 1);
    }
  }

  lemma {:induction false} SizesWithin(plan: Plan, s: set<nat>, n: nat)
    requires n <= |plan.parts|
    ensures Sizes(plan, s, n) <= |Content(plan.parts[..n])|
  {
    if n > 0 {
      SizesWithin(plan, s, n - 1);
      assert plan.parts[..n][..n - 1] == plan.parts[..n - 1];
    }
  }

  /** What is counted against the window and what is queued are bytes of parts that have left the ordered queue. */
  ghost predicate Afoot(plan: Plan, m: Meta) {
    && EventsOk(plan, m.batch + m.events)
    && (plan.windowed ==>
          m.ioCompleted + |Rest(plan, m.batch + m.events)| <= Sizes(plan, m.arrived - m.pending, |plan.parts|))
  }

  lemma AfootHeadroom(plan: Plan, m: Meta)
    requires Afoot(plan, m) && (plan.windowed ==> |Content(plan.parts)| < U64 - 1)
    ensures Headroom(plan, m)
  {
    hide EventsOk, Rest, Sizes, Content;
    SizesWithin(plan, m.arrived - m.pending, |plan.parts|);
    assert plan.parts[..|plan.parts|] == plan.parts;
  }

  /** A body goes to the end of the event array as its part leaves the queue or arrives. */
  lemma BodyAfoot(plan: Plan, m: Meta, r: Meta, p: nat)
    requires Afoot(plan, m) && 1 <= p <= |plan.parts| && p !in m.arrived - m.pending
    requires r.batch == m.batch && r.events == m.events + [Body(p, 0)] && r.ioCompleted == m.ioCompleted
    requires r.arrived - r.pending == (m.arrived - m.pending) + {p}
    ensures Afoot(plan, r)
  {
    var all := m.batch + m.events;
    assert r.batch + r.events == all + [Body(p, 0)];
    RestConcat(plan, all, [Body(p, 0)]);
    assert Rest(plan, [Body(p, 0)]) == PartBody(plan, p)[0..] + [];
    SizesAdd(plan, m.arrived - m.pending, p, |plan.parts|);
  }

  lemma NoticeAfoot(plan: Plan, m: Meta)
    requires Afoot(plan, m)
    ensures Afoot(plan, AddEvent(m, Notice))
  {
    var all := m.batch + m.events;
    assert m.batch + (m.events + [Notice]) == all + [Notice];
    RestConcat(plan, all, [Notice]);
    assert Rest(plan, [Notice]) == [] + [];
  }

  lemma {:induction false} PopAfoot(plan: Plan, m: Meta)
    requires Afoot(plan, m) && m.nextPart >= 1 && m.pending <= m.arrived
    requires forall p :: p in m.arrived ==> 1 <= p <= |plan.parts|
    ensures Afoot(plan, PopReady(m))
    decreases |m.pending|
  {
    hide Afoot;
    if TopIs(m.pending, m.nextPart) {
      var next := PopOne(m);
      assert next.arrived - next.pending == (m.arrived - m.pending) + {m.nextPart};
      BodyAfoot(plan, m, next, m.nextPart);
      PopAfoot(plan, next);
    }
  }

  lemma ArriveAfoot(plan: Plan, m: Meta, p: nat)
    requires DeliveryRuns.Inv(plan, m) && Afoot(plan, m) && 1 <= p <= |plan.parts| && p !in m.arrived
    ensures Afoot(plan, Stream(plan, m, p))
  {
    hide Live, Dead, LogTruth, WindowOk, PopReady;
    if !plan.outOfOrder {
      var n := m.(arrived := m.arrived + {p}, pending := m.pending + {p});
      assert n.arrived - n.pending == m.arrived - m.pending;
      PopAfoot(plan, n);
    } else if plan.parallelWrites {
      assert !plan.windowed;
    } else {
      assert (m.arrived + {p}) - m.pending == (m.arrived - m.pending) + {p};
      BodyAfoot(plan, m, Stream(plan, m, p), p);
    }
  }

  lemma EndTickAfoot(plan: Plan, m: Meta, accepted: nat -> bool)
    requires DeliveryRuns.Inv(plan, m) && Afoot(plan, m) && m.active
    ensures DeliveryRuns.Enabled(plan, m, EndTick(accepted))
    ensures Afoot(plan, DeliveryRuns.Step(plan, m, EndTick(accepted)))
  {
    EventsOkParts(plan, m.batch, m.events);
    hide DeliveryRuns.Inv, DeliveryRuns.Step, DeliveryRuns.Enabled, RunTick, Close, EventsOk, Afoot;
    var t := RunTick(plan, m, accepted);
    EndTickCloses(plan, m, accepted);
    CloseClosed(plan, m, t);
    ClosedAfoot(plan, m, accepted, Close(plan, m, t));
  }

  lemma ClosedAfoot(plan: Plan, m: Meta, accepted: nat -> bool, r: Meta)
    requires Afoot(plan, m) && EventsOk(plan, m.batch) && EventsOk(plan, m.events) && r.batch == []
    requires var t := RunTick(plan, m, accepted); r.events == t.kept + m.events && r.ioCompleted == t.ioCompleted
    requires r.arrived == m.arrived && r.pending == m.pending
    ensures Afoot(plan, r)
  {
    hide RunTick, EventsOk, Rest, Sizes;
    var t := RunTick(plan, m, accepted);
    TaskNoMore(plan, m, accepted);
    RestConcat(plan, m.batch, m.events);
    RestConcat(plan, t.kept, m.events);
    assert [] + (t.kept + m.events) == t.kept + m.events;
  }

  lemma StepAfoot(plan: Plan, m: Meta, a: Action)
    requires DeliveryRuns.Inv(plan, m) && Afoot(plan, m) && DeliveryRuns.Enabled(plan, m, a)
    ensures Afoot(plan, DeliveryRuns.Step(plan, m, a))
  {
    hide Live, Dead, LogTruth, WindowOk, MarkCompleted, RunTick, Close, Stream, EventsOk;
    match a
    case Arrive(p) => ArriveAfoot(plan, m, p);
    case Notify => NoticeAfoot(plan, m);
    case BeginTick => assert m.events + [] == m.batch + m.events;
    case EndTick(accepted) => EndTickAfoot(plan, m, accepted);
    case Written(p, ok, telemetry) =>
      WrittenAfoot(plan, m, p, ok);
      NoticeAfoot(plan, WriteDone(plan, m, p, ok));
    case _ =>
  }

  lemma WrittenAfoot(plan: Plan, m: Meta, p: nat, ok: bool)
    requires DeliveryRuns.Inv(plan, m) && Afoot(plan, m) && p in m.writes && 1 <= p <= |plan.parts|
    ensures Afoot(plan, WriteDone(plan, m, p, ok))
  {
    hide Live, Dead, LogTruth, WindowOk, MarkCompleted;
    assert !plan.windowed;
    if ok {
      MarkFrame(plan, Leave(plan, m, p), [Completed(p, |PartBody(plan, p)|)]);
    }
  }

  lemma CountAfoot(plan: Plan, g: Get, p: nat, ok: bool, progress: bool)
    requires DeliveryRuns.Inv(plan, g.m) && Afoot(plan, g.m) && (ok ==> 1 <= p <= |plan.parts| && p !in g.m.arrived)
    ensures Afoot(plan, CountPart(plan, g, p, ok, progress).m)
    ensures Afoot(plan, CountPart(plan, g, p, ok, progress).m.(failed := true))
  {
    hide DeliveryRuns.Inv, Stream, Afoot;
    if ok {
      var n := if progress then AddEvent(g.m, Notice) else g.m;
      NotifyInv(plan, g.m);
      NoticeAfoot(plan, g.m);
      ArriveAfoot(plan, n, p);
    }
    FailAfoot(plan, CountPart(plan, g, p, ok, progress).m);
  }

  lemma FailAfoot(plan: Plan, m: Meta)
    ensures Afoot(plan, m.(failed := true)) == Afoot(plan, m)
  {
  }

  lemma ReplyAfoot(plan: Plan, c: Config, g: Get, r: Reply)
    requires DeliveryRuns.Inv(plan, g.m) && Afoot(plan, g.m) && g.m.arrived == {}
    requires g.discovery.Out? && ReplyOk(plan, c, g.discovery.kind, r)
    ensures Afoot(plan, DiscoveryFinished(plan, c, g, r).m)
  {
    hide DeliveryRuns.Inv, CountDiscovery, RecordDiscovery, PartSpread.Init, Afoot, ReplyOk;
    var h := RecordDiscovery(plan, g.(discovery := NotOut), r);
    RecordFrame(plan, g.(discovery := NotOut), r);
    CountedAfoot(plan, c, h, g.discovery.kind, r);
    FailAfoot(plan, CountDiscovery(plan, h, g.discovery.kind, r).m);
  }

  lemma CountedAfoot(plan: Plan, c: Config, g: Get, kind: Kind, r: Reply)
    requires DeliveryRuns.Inv(plan, g.m) && Afoot(plan, g.m) && g.m.arrived == {} && ReplyOk(plan, c, kind, r)
    ensures Afoot(plan, CountDiscovery(plan, g, kind, r).m)
  {
    hide DeliveryRuns.Inv, CountPart, Afoot;
    if !kind.Head? && !(r.mismatch && r.found) && !r.emptyFile {
      CountAfoot(plan, g, 1, !r.requestFailed, r.progress);
    }
  }

  lemma NextAfoot(plan: Plan, c: Config, g: Get, a: GetAction)
    requires PlanOk(plan) && GetSafety.Inv(plan, g) && Afoot(plan, g.m) && CanStep(plan, c, g, a)
    ensures Afoot(plan, NextGet(plan, c, g, a).m)
  {
    EngineInv(plan, g);
    hide DeliveryRuns.Inv, CountPart, DeliveryRuns.Step, DiscoveryFinished, Update, GetSafety.Inv, Afoot, ReplyOk;
    FailAfoot(plan, g.m);
    match a
    case DoUpdate(hold) => UpdateSame(plan, c, g, hold);
    case EndDiscovery(r) => ReplyAfoot(plan, c, g, r);
    case EndPart(p, ok, progress) =>
      InFlightInRange(plan, g, p);
      CountAfoot(plan, g, p, ok, progress);
    case Deliver(d) => StepAfoot(plan, g.m, d);
  }

  lemma {:induction false} RunAfoot(plan: Plan, c: Config, g: Get, actions: seq<GetAction>)
    requires PlanOk(plan) && GetSafety.Inv(plan, g) && Afoot(plan, g.m) && IsGetRun(plan, c, g, actions)
    ensures Afoot(plan, AfterGet(plan, c, g, actions).m)
    decreases |actions|
  {
    hide GetSafety.Inv, Afoot;
    if actions != [] {
      NextInv(plan, c, g, actions[0]);
      NextAfoot(plan, c, g, actions[0]);
      RunAfoot(plan, c, NextGet(plan, c, g, actions[0]), actions[1..]);
    }
  }

  // ----- The theorem -----

  lemma StartFailing(plan: Plan, window: nat)
    requires PlanOk(plan) && window < U64
    ensures GetSafety.Inv(plan, Start(window)) && InStep(plan, Start(window).m) && Afoot(plan, Start(window).m)
  {
    StartInv(plan, window);
    InitCounted(window);
    assert Start(window).m.batch + Start(window).m.events == [];
  }

  /** After any run in which it has failed a download can finish: what is out comes back, with an error or not, and what
      is queued is dropped as the window is opened. With a read window the object is to be smaller than the largest
      window there is. */
  lemma FailedDownloadCanEnd(plan: Plan, c: Config, window: nat, actions: seq<GetAction>)
    requires PlanOk(plan) && window < U64 && (plan.windowed ==> |Content(plan.parts)| < U64 - 1)
    requires IsGetRun(plan, c, Start(window), actions)
    requires var g := AfterGet(plan, c, Start(window), actions); g.m.failed && !g.finished
    ensures CanEnd(plan, c, AfterGet(plan, c, Start(window), actions))
  {
    hide GetSafety.Inv, InStep, IsGetRun, AfterGet, CanEnd, Headroom, Afoot, Content;
    StartFailing(plan, window);
    GetRunInv(plan, c, Start(window), actions);
    RunGetInStep(plan, c, Start(window), actions);
    RunAfoot(plan, c, Start(window), actions);
    AfootHeadroom(plan, AfterGet(plan, c, Start(window), actions).m);
    FailingCanEnd(plan, c, AfterGet(plan, c, Start(window), actions));
  }
}
