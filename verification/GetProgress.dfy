/** What it takes to finish a download: with every part requested and arrived, one tick and an update. */
module GetProgress {
  import opened Arithmetic
  import opened Numbering
  import opened ObjectParts
  import opened Delivery
  import opened DeliveryLog
  import opened DeliverySafety
  import opened DeliveryRuns
  import opened DeliveryTheorems
  import opened DeliveryCounts
  import opened AutoRangedGet
  import opened GetSafety
  import opened GetSteps
  import opened GetRuns

  /** A finished download every part of which was delivered, and whether it is reported as a success. */
  ghost predicate DeliveredAndFinished(plan: Plan, g: Get) {
    && g.finished && g.m.marked == Parts(|plan.parts|)
    && (plan.total < U32 ==> (g.m.failed <==> plan.total > U32 - 8))
  }

  ghost predicate CanFinish(plan: Plan, c: Config, g: Get) {
    exists actions :: IsGetRun(plan, c, g, actions) && DeliveredAndFinished(plan, AfterGet(plan, c, g, actions))
  }

  lemma StepToFinish(plan: Plan, c: Config, g: Get, a: GetAction)
    requires CanStep(plan, c, g, a) && CanFinish(plan, c, NextGet(plan, c, g, a))
    ensures CanFinish(plan, c, g)
  {
    hide CanStep, NextGet, DeliveredAndFinished;
    var h := NextGet(plan, c, g, a);
    var rest :| IsGetRun(plan, c, h, rest) && DeliveredAndFinished(plan, AfterGet(plan, c, h, rest));
    var actions := [a] + rest;
    assert actions[0] == a && actions[1..] == rest;
    assert IsGetRun(plan, c, g, actions) && AfterGet(plan, c, g, actions) == AfterGet(plan, c, h, rest);
  }

  /** The delivery engine in good order, between ticks. */
  ghost predicate Settled(plan: Plan, m: Meta) {
    DeliveryRuns.Inv(plan, m) && Live(plan, m) && Healthy(m) && InStep(plan, m) && !m.active
  }

  /** No request is out. */
  ghost predicate Quiet(plan: Plan, g: Get) {
    GetSafety.Inv(plan, g) && !g.finished && g.known && g.discovery.NotOut? && g.inFlight == {}
  }

  /** The downloads considered: parts to request, or an empty object, which has no parts or the one that the discovery
      response is; and if the read window limits delivery, a size it can hold. */
  ghost predicate Downloadable(plan: Plan) {
    && PlanOk(plan) && Joins(plan)
    && (plan.total == |plan.parts| >= 1 || (plan.total == 0 && |plan.parts| <= 1))
    && (plan.windowed ==> |Content(plan.parts)| < U64)
  }

  predicate AllRequested(plan: Plan, g: Get) {
    g.requested == |plan.parts| && g.total == plan.total
  }

  /** Nothing is left to deliver. */
  ghost predicate Ready(plan: Plan, g: Get) {
    && Quiet(plan, g) && AllRequested(plan, g)
    && g.m.events == [] && !g.m.active && !g.m.failed && g.m.completed == g.m.sent == |plan.parts|
  }

  lemma FinishDelivered(plan: Plan, c: Config, g: Get)
    requires Downloadable(plan) && Ready(plan, g)
    ensures CanFinish(plan, c, g)
  {
    var done := Finish(plan, g);
    assert Idle(g) && !EventsOut(g.m);
    FinishInv(plan, g);
    ReadyMarked(plan, g);
    hide GetSafety.Inv;
    var actions: seq<GetAction> := [];
    assert IsGetRun(plan, c, done, actions) && AfterGet(plan, c, done, actions) == done;
    assert DeliveredAndFinished(plan, done);
    assert NextGet(plan, c, g, DoUpdate(false)) == done;
    StepToFinish(plan, c, g, DoUpdate(false));
  }

  lemma ReadyMarked(plan: Plan, g: Get)
    requires Ready(plan, g)
    ensures g.m.marked == Parts(|plan.parts|)
  {
    hide DeliveryRuns.Inv;
    AllDelivered(plan, g.m);
  }

  // ----- The last tick -----

  /** A window increment that covers the whole object. */
  function Opened(plan: Plan, m: Meta): Meta {
    OpenWindow(m, |Content(plan.parts)| + 1)
  }

  lemma OpenStep(plan: Plan, c: Config, g: Get)
    requires !g.finished
    ensures var a := Deliver(Window(|Content(plan.parts)| + 1));
            CanStep(plan, c, g, a) && NextGet(plan, c, g, a) == g.(m := Opened(plan, g.m))
  {
    hide Content;
  }

  lemma OpenedQuiet(plan: Plan, g: Get)
    requires Quiet(plan, g)
    ensures Quiet(plan, g.(m := Opened(plan, g.m)))
  {
    hide GetSafety.Inv, Content;
    DeliverInv(plan, g, Window(|Content(plan.parts)| + 1));
  }

  lemma TickFinishes(plan: Plan, c: Config, g: Get)
    requires Downloadable(plan) && Quiet(plan, g) && Settled(plan, g.m) && AllRequested(plan, g)
    requires g.m.arrived == Parts(|plan.parts|) && g.m.sent == |plan.parts| && g.m.scheduled && g.m.writes == {}
    requires plan.windowed ==> |Content(plan.parts)| - |Bytes(g.m.log)| <= g.m.window - g.m.ioCompleted
    ensures CanFinish(plan, c, g)
  {
    var accepted := (j: nat) => true;
    var g1 := g.(m := Begin(g.m));
    var t := TickDelivers(plan, g, accepted);
    hide Quiet, Settled;
    TickSteps(plan, c, g, accepted, t);
    hide Begin, Close, RunTick, EventsOk;
    FinishDelivered(plan, c, g.(m := Close(plan, g1.m, t)));
    hide Ready, CanFinish;
    StepToFinish(plan, c, g1, Deliver(EndTick(accepted)));
    StepToFinish(plan, c, g, Deliver(BeginTick));
  }

  lemma TickSteps(plan: Plan, c: Config, g: Get, accepted: nat -> bool, t: Tick)
    requires !g.finished && DeliveryRuns.Enabled(plan, g.m, BeginTick)
    requires DeliveryRuns.Enabled(plan, Begin(g.m), EndTick(accepted))
    requires t == RunTick(plan, Begin(g.m), accepted) && DoneOk(plan, t.done)
    ensures var g1 := g.(m := Begin(g.m));
            && CanStep(plan, c, g, Deliver(BeginTick)) && NextGet(plan, c, g, Deliver(BeginTick)) == g1
            && CanStep(plan, c, g1, Deliver(EndTick(accepted)))
            && NextGet(plan, c, g1, Deliver(EndTick(accepted))) == g.(m := Close(plan, g1.m, t))
  {
    hide RunTick, Close, EventsOk;
  }

  lemma TickDelivers(plan: Plan, g: Get, accepted: nat -> bool) returns (t: Tick)
    requires Downloadable(plan) && Quiet(plan, g) && Settled(plan, g.m) && AllRequested(plan, g)
    requires g.m.arrived == Parts(|plan.parts|) && g.m.sent == |plan.parts| && g.m.scheduled && g.m.writes == {}
    requires plan.windowed ==> |Content(plan.parts)| - |Bytes(g.m.log)| <= g.m.window - g.m.ioCompleted
    requires forall j :: accepted(j)
    ensures var b := Begin(g.m);
            && DeliveryRuns.Enabled(plan, g.m, BeginTick) && DeliveryRuns.Enabled(plan, b, EndTick(accepted))
            && EventsOk(plan, b.batch) && t == RunTick(plan, b, accepted) && DoneOk(plan, t.done)
            && Ready(plan, g.(m := Close(plan, b, t))) && !g.finished
  {
    hide Live, InStep, DeliveryRuns.Inv, GetSafety.Inv, Content;
    var b := Begin(g.m);
    LastTick(plan, g.m, accepted);
    t := RunTick(plan, b, accepted);
    DeliverInv(plan, g, BeginTick);
    DeliverInv(plan, g.(m := b), EndTick(accepted));
    hide RunTick, Close;
    CloseClosed(plan, b, t);
  }

  lemma WrittenFrame(plan: Plan, m: Meta, p: nat)
    requires 1 <= p <= |plan.parts|
    ensures var r := WriteFinished(plan, m, p, true, false);
            r.writes == m.writes - {p} && r.sent == m.sent && r.events == m.events && r.active == m.active
  {
    hide MarkCompleted;
    MarkFrame(plan, Leave(plan, m, p), [Completed(p, |PartBody(plan, p)|)]);
  }

  lemma RequestedInRange(plan: Plan, g: Get)
    requires GetSafety.Inv(plan, g) && g.known
    ensures g.requested <= |plan.parts| && g.total == plan.total
    ensures plan.total == 0 ==> g.requested == |plan.parts|
  {
    hide Delivering;
  }
}
