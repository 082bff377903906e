/** Every run of the auto-ranged GET, from the first update to the finish. */
module GetRuns {
  import opened Arithmetic
  import opened Numbering
  import opened ObjectParts
  import opened PrefixTracker
  import opened Delivery
  import opened DeliveryLog
  import opened DeliverySafety
  import opened DeliveryRuns
  import opened DeliveryTheorems
  import opened DeliveryCounts
  import opened DeliveryImage
  import DeliveredMask
  import opened AutoRangedGet
  import opened GetSafety
  import opened GetSteps

  // ----- Finishing -----

  /** Without a failure the download is idle only when every part has been delivered. */
  lemma IdleMeansDelivered(plan: Plan, g: Get)
    requires PlanOk(plan) && GetSafety.Inv(plan, g) && !g.m.failed && Idle(g)
    ensures g.m.completed >= |plan.parts| && g.inFlight == {} && g.discovery.NotOut?
  {
    NoPendingOutOfOrder(plan, g.m);
    hide Handed, SpreadOk, TopIs;
    if plan.total == 0 {
      NothingWaits(plan, g.m);
    }
  }

  /** A single arrived part does not wait in the ordered queue. */
  lemma NothingWaits(plan: Plan, m: Meta)
    requires Delivering(plan, m) && |m.arrived| <= 1 && (|m.arrived| == 1 ==> |plan.parts| == 1)
    ensures m.sent == |m.arrived|
  {
    SubsetCardinality(m.pending, m.arrived);
  }

  lemma FinishInv(plan: Plan, g: Get)
    requires PlanOk(plan) && GetSafety.Inv(plan, g) && !g.finished && Idle(g)
    ensures !EventsOut(g.m) ==> GetSafety.Inv(plan, Finish(plan, g))
    ensures !g.m.failed && plan.total < U32 ==>
              (Finish(plan, g).m.failed <==> plan.total > U32 - 8)
  {
    hide Delivering, MaskFull, Requesting;
    FailDelivering(plan, g.m);
    if !g.m.failed {
      IdleMeansDelivered(plan, g);
      DeliveredMaskOk(plan, g.m);
    }
    FailKeepsRequesting(plan, g);
    assert g.m.(failed := g.m.failed) == g.m;
  }

  lemma FailKeepsRequesting(plan: Plan, g: Get)
    requires Requesting(plan, g)
    ensures forall failed, finished :: Requesting(plan, g.(finished := finished, m := g.m.(failed := failed)))
  {
  }

  lemma DeliveredMaskOk(plan: Plan, m: Meta)
    requires Delivering(plan, m) && !m.failed && m.completed >= |plan.parts|
    ensures plan.total < U32 ==> (MaskFull(plan, m) <==> plan.total <= U32 - 8)
  {
    hide DeliveryRuns.Inv, MaskFull;
    FullMask(plan, m);
  }

  /** With every part delivered the mask passes exactly when its byte count fits. */
  lemma FullMask(plan: Plan, m: Meta)
    requires DeliveryRuns.Inv(plan, m) && !m.failed && m.completed >= |plan.parts|
    ensures plan.total < U32 ==> (MaskFull(plan, m) <==> plan.total <= U32 - 8)
  {
    hide Books, Live, Dead;
    AllDelivered(plan, m);
    if 0 < plan.total < U32 {
      DeliveredMask.ExpectedByteCount(plan.total);
    }
  }

  lemma UpdateInv(plan: Plan, c: Config, g: Get, hold: bool)
    requires PlanOk(plan) && GetSafety.Inv(plan, g) && !g.finished
    ensures GetSafety.Inv(plan, Update(plan, c, g, hold))
  {
    hide Delivering, Tally, Requesting, SendDiscovery, SendPart, Finish;
    if !g.m.failed && !g.known {
      if !(g.headSent || g.requested > 0 || hold) {
        SendDiscoveryInv(plan, c, g);
      }
    } else if !g.m.failed && g.requested < g.total {
      SendPartInv(plan, g);
    } else if Idle(g) && !EventsOut(g.m) {
      FinishInv(plan, g);
    }
  }

  // ----- Runs -----

  datatype GetAction =
    | DoUpdate(hold: bool)
    | EndDiscovery(reply: Reply)
    | EndPart(part: nat, ok: bool, progress: bool)
    | Deliver(action: Action)

  ghost predicate CanStep(plan: Plan, c: Config, g: Get, a: GetAction) {
    && !g.finished
    && match a
       case DoUpdate(_) => true
       case EndDiscovery(r) => g.discovery.Out? && ReplyOk(plan, c, g.discovery.kind, r)
       case EndPart(p, _, _) => p in g.inFlight
       case Deliver(d) => !d.Arrive? && DeliveryRuns.Enabled(plan, g.m, d)
  }

  ghost function NextGet(plan: Plan, c: Config, g: Get, a: GetAction): Get
    requires CanStep(plan, c, g, a)
  {
    match a
    case DoUpdate(hold) => Update(plan, c, g, hold)
    case EndDiscovery(r) => DiscoveryFinished(plan, c, g, r)
    case EndPart(p, ok, progress) => PartFinished(plan, g, p, ok, progress)
    case Deliver(d) => g.(m := DeliveryRuns.Step(plan, g.m, d))
  }

  lemma InFlightInRange(plan: Plan, g: Get, p: nat)
    requires PlanOk(plan) && GetSafety.Inv(plan, g) && p in g.inFlight
    ensures 1 <= p <= |plan.parts|
  {
    hide Delivering;
    assert g.known;
    assert p in Handed(g.spread, g.requested);
    if g.spread.numRegions >= 2 && p !in Parts(g.spread.first - 1) {
      SpreadPartsIndex(g.spread, g.total - (g.spread.first - 1), g.spread.handedOut, p);
    }
  }

  lemma NextInv(plan: Plan, c: Config, g: Get, a: GetAction)
    requires PlanOk(plan) && GetSafety.Inv(plan, g) && CanStep(plan, c, g, a)
    ensures GetSafety.Inv(plan, NextGet(plan, c, g, a))
  {
    hide GetSafety.Inv;
    match a
    case DoUpdate(hold) => UpdateInv(plan, c, g, hold);
    case EndDiscovery(r) => DiscoveryFinishedInv(plan, c, g, r);
    case EndPart(p, ok, progress) =>
      InFlightInRange(plan, g, p);
      PartFinishedInv(plan, g, p, ok, progress);
    case Deliver(d) => DeliverInv(plan, g, d);
  }

  ghost predicate IsGetRun(plan: Plan, c: Config, g: Get, actions: seq<GetAction>)
    decreases |actions|
  {
    || actions == []
    || (CanStep(plan, c, g, actions[0]) && IsGetRun(plan, c, NextGet(plan, c, g, actions[0]), actions[1..]))
  }

  ghost function AfterGet(plan: Plan, c: Config, g: Get, actions: seq<GetAction>): Get
    requires IsGetRun(plan, c, g, actions)
    decreases |actions|
  {
    if actions == [] then g else AfterGet(plan, c, NextGet(plan, c, g, actions[0]), actions[1..])
  }

  lemma {:induction false} GetRunInv(plan: Plan, c: Config, g: Get, actions: seq<GetAction>)
    requires PlanOk(plan) && GetSafety.Inv(plan, g) && IsGetRun(plan, c, g, actions)
    ensures GetSafety.Inv(plan, AfterGet(plan, c, g, actions))
    decreases |actions|
  {
    hide GetSafety.Inv;
    if actions != [] {
      NextInv(plan, c, g, actions[0]);
      GetRunInv(plan, c, NextGet(plan, c, g, actions[0]), actions[1..]);
    }
  }

  // ----- The theorems -----

  /** The counters keep their order in every reachable state, and no part is in two places. */
  lemma CountersOrdered(plan: Plan, c: Config, window: nat, actions: seq<GetAction>)
    requires PlanOk(plan) && window < U64 && IsGetRun(plan, c, Start(window), actions)
    ensures var g := AfterGet(plan, c, Start(window), actions);
            && g.m.completed <= g.m.sent <= g.successful <= g.completed <= g.requested
            && g.inFlight !! g.m.arrived
  {
    StartInv(plan, window);
    GetRunInv(plan, c, Start(window), actions);
    NoPendingOutOfOrder(plan, AfterGet(plan, c, Start(window), actions).m);
  }

  /** No part is requested twice: the part an update hands out was never handed out before. */
  lemma PartsHandedOutOnce(plan: Plan, c: Config, window: nat, actions: seq<GetAction>)
    requires PlanOk(plan) && window < U64 && IsGetRun(plan, c, Start(window), actions)
    ensures var g := AfterGet(plan, c, Start(window), actions);
            g.known && !g.finished && !g.m.failed && g.requested < g.total ==>
              1 <= NextPart(g) <= plan.total && NextPart(g) !in g.inFlight + g.m.arrived + g.lost
  {
    var g := AfterGet(plan, c, Start(window), actions);
    StartInv(plan, window);
    GetRunInv(plan, c, Start(window), actions);
    if g.known && !g.finished && !g.m.failed && g.requested < g.total {
      SendPartInv(plan, g);
    }
  }

  /** No run, successful or failed, finishes with a request of this download in flight, an event to deliver, or a
      body handed to a file worker and not written. */
  lemma FinishesWithNothingInFlight(plan: Plan, c: Config, window: nat, actions: seq<GetAction>)
    requires PlanOk(plan) && window < U64 && IsGetRun(plan, c, Start(window), actions)
    ensures var g := AfterGet(plan, c, Start(window), actions);
            g.finished ==>
              && g.discovery.NotOut? && g.inFlight == {} && g.completed == g.requested
              && g.m.events == [] && !g.m.active && g.m.writes == {}
  {
    var g := AfterGet(plan, c, Start(window), actions);
    StartInv(plan, window);
    GetRunInv(plan, c, Start(window), actions);
    if g.finished {
      NothingToWrite(plan, g.m);
    }
  }

  lemma NothingToWrite(plan: Plan, m: Meta)
    requires DeliveryRuns.Inv(plan, m) && m.completed >= m.sent
    ensures m.writes == {}
  {
    hide Live, LogTruth;
  }

  /** When the mask validation passes: a download about to report success has every part marked, so it reports
      success if and only if it has at most 2^32 - 8 parts. Part counts are 32-bit. */
  lemma ValidationPassesIff(plan: Plan, c: Config, window: nat, actions: seq<GetAction>)
    requires PlanOk(plan) && window < U64 && IsGetRun(plan, c, Start(window), actions)
    ensures var g := AfterGet(plan, c, Start(window), actions);
            !g.finished && !g.m.failed && Idle(g) ==>
              && Parts(plan.total) <= g.m.marked
              && (plan.total < U32 ==>
                    (!Finish(plan, g).m.failed <==> plan.total <= U32 - 8))
  {
    var g := AfterGet(plan, c, Start(window), actions);
    StartInv(plan, window);
    GetRunInv(plan, c, Start(window), actions);
    if !g.finished && !g.m.failed && Idle(g) {
      FinishInv(plan, g);
      IdleMeansDelivered(plan, g);
      AllDelivered(plan, g.m);
    }
  }

  /** The same of the bytes the mask is kept in: bits that stand for the parts marked pass the check, length and all,
      exactly when the finish is a success. */
  lemma MaskBytesDecide(plan: Plan, c: Config, window: nat, actions: seq<GetAction>, bytes: seq<bv8>)
    requires PlanOk(plan) && 0 < plan.total < U32 && window < U64
    requires IsGetRun(plan, c, Start(window), actions)
    requires |bytes| == (plan.total + 7) / 8
    requires DeliveredMask.Held(bytes, plan.total) == AfterGet(plan, c, Start(window), actions).m.marked
    ensures var g := AfterGet(plan, c, Start(window), actions);
            !g.finished && !g.m.failed && Idle(g) ==>
              && DeliveredMask.HoldsAll(bytes, plan.total)
              && (|bytes| == DeliveredMask.ExpectedBytes(plan.total) <==> !Finish(plan, g).m.failed)
  {
    hide DeliveredMask.Held, DeliveredMask.HoldsAll;
    ValidationPassesIff(plan, c, window, actions);
    DeliveredMask.ExpectedByteCount(plan.total);
    DeliveredMask.HeldAll(bytes, plan.total);
    DeliveredMask.HeldInRange(bytes, plan.total);
  }

  /** The whole download. A run that finishes without failure has delivered each part exactly once and whole;
      writing every chunk at its offset yields exactly the object, and in object order the caller received exactly
      the object; the byte counts agree; and delivery out of order had recorded ranges that join up. */
  lemma WholeDownload(plan: Plan, c: Config, window: nat, actions: seq<GetAction>, p: nat)
    requires PlanOk(plan) && window < U64 && IsGetRun(plan, c, Start(window), actions)
    requires AfterGet(plan, c, Start(window), actions).finished && !AfterGet(plan, c, Start(window), actions).m.failed
    requires 1 <= p <= |plan.parts|
    ensures var m := AfterGet(plan, c, Start(window), actions).m;
            && m.marked == m.arrived == Parts(|plan.parts|)
            && PartBytes(m.log, p) == PartBody(plan, p)
            && (!plan.outOfOrder ==> Bytes(m.log) == Content(plan.parts))
            && IsObject(plan, ImageOf(m.log)) && Joins(plan)
            && m.tracker.delivered == m.tracker.total == |Content(plan.parts)|
  {
    var g := AfterGet(plan, c, Start(window), actions);
    StartInv(plan, window);
    GetRunInv(plan, c, Start(window), actions);
    hide AfterGet, Start;
    EndedWell(plan, g, p);
  }

  lemma EndedWell(plan: Plan, g: Get, p: nat)
    requires GetSafety.Inv(plan, g) && g.finished && !g.m.failed && 1 <= p <= |plan.parts|
    ensures g.m.marked == g.m.arrived == Parts(|plan.parts|)
    ensures PartBytes(g.m.log, p) == PartBody(plan, p)
    ensures !plan.outOfOrder ==> Bytes(g.m.log) == Content(plan.parts)
    ensures IsObject(plan, ImageOf(g.m.log)) && Joins(plan)
    ensures g.m.tracker.delivered == g.m.tracker.total == |Content(plan.parts)|
  {
    hide DeliveryRuns.Inv, Counted, Handed, SpreadOk;
    AllDelivered(plan, g.m);
    AllArrivedToo(plan, g.m);
    PartStream(plan, g.m.log, p);
    hide LogOk, ImageOf, IsObject, Content;
    ImageIsObject(plan, g.m.log);
  }

  lemma AllArrivedToo(plan: Plan, m: Meta)
    requires DeliveryRuns.Inv(plan, m) && !m.failed && m.marked == Parts(|plan.parts|)
    ensures m.arrived == Parts(|plan.parts|) && LogOk(plan, m.log) && Contiguous(plan.parts)
  {
    hide Ordered, NoDup, InSync, LogOk, Tracks;
  }
}
