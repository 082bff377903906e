/** Every step of the auto-ranged GET keeps the invariant. */
module GetSteps {
  import opened Numbering
  import opened Delivery
  import opened DeliverySafety
  import opened DeliveryRuns
  import opened DeliveryTheorems
  import opened DeliveryCounts
  import opened PartSpread
  import opened AutoRangedGet
  import opened GetSafety

  lemma SendDiscoveryInv(plan: Plan, c: Config, g: Get)
    requires GetSafety.Inv(plan, g) && !g.finished && !g.m.failed && !g.known && !g.headSent && g.requested == 0
    ensures GetSafety.Inv(plan, SendDiscovery(c, g))
  {
    hide Delivering;
    assert |g.m.arrived| == 0 && |g.lost| == 0;
  }

  lemma SendPartInv(plan: Plan, g: Get)
    requires GetSafety.Inv(plan, g) && !g.finished && !g.m.failed && g.known && g.requested < g.total && PlanOk(plan)
    ensures GetSafety.Inv(plan, SendPart(g))
    ensures NextPart(g) !in g.inFlight + g.m.arrived + g.lost && 1 <= NextPart(g) <= plan.total
  {
    hide Delivering, Handed, SpreadOk, Next, Tally, Requesting;
    RequestingFacts(plan, g);
    SendPartRequesting(plan, g);
    SendPartTally(g, NextPart(g));
  }

  lemma RequestingFacts(plan: Plan, g: Get)
    requires Requesting(plan, g) && g.known
    ensures g.total == plan.total && SpreadOk(g.spread, g.requested, g.total)
  {
  }

  lemma SendPartTally(g: Get, part: nat)
    requires Tally(g) && part !in g.inFlight + g.m.arrived + g.lost && part == NextPart(g)
    ensures Tally(SendPart(g))
  {
    hide Next;
  }

  lemma SendPartRequesting(plan: Plan, g: Get)
    requires Requesting(plan, g) && g.known && g.requested < g.total && PlanOk(plan)
    ensures Requesting(plan, SendPart(g))
    ensures NextPart(g) !in g.inFlight + g.m.arrived + g.lost && 1 <= NextPart(g) <= plan.total
  {
    hide Handed, SpreadOk, Next;
    NextIsNew(g.spread, g.requested, g.total);
    var part := NextPart(g);
    assert (g.inFlight + {part}) + g.m.arrived + g.lost == (g.inFlight + g.m.arrived + g.lost) + {part};
  }

  // ----- A part request finishes -----

  /** What one finished part changes, apart from the finish result. */
  ghost predicate Moves(g: Get, h: Get, p: nat, ok: bool) {
    && h == g.(completed := g.completed + 1, inFlight := g.inFlight - {p}, successful := h.successful,
               failedParts := h.failedParts, lost := h.lost, m := h.m)
    && (if ok then
          && h.successful == g.successful + 1 && h.failedParts == g.failedParts && h.lost == g.lost
          && h.m.arrived == g.m.arrived + {p}
        else
          && h.successful == g.successful && h.failedParts == g.failedParts + 1 && h.lost == g.lost + {p}
          && h.m == g.m)
    && (g.m.failed ==> h.m.failed)
  }

  lemma CountPartMoves(plan: Plan, g: Get, p: nat, ok: bool, progress: bool)
    requires Delivering(plan, g.m) && 1 <= p <= |plan.parts| && p !in g.m.arrived
    ensures Moves(g, CountPart(plan, g, p, ok, progress), p, ok)
    ensures Delivering(plan, CountPart(plan, g, p, ok, progress).m)
  {
    hide Delivering, Stream;
    StreamPart(plan, g.m, p, progress);
  }

  lemma FailDelivering(plan: Plan, m: Meta)
    requires Delivering(plan, m)
    ensures Delivering(plan, m.(failed := true))
  {
    hide DeliveryRuns.Inv;
    CancelInv(plan, m);
  }

  lemma MoveSets(inFlight: set<nat>, arrived: set<nat>, lost: set<nat>, p: nat)
    requires p in inFlight && inFlight !! arrived && inFlight !! lost && lost !! arrived
    ensures p !in arrived && p !in lost && |inFlight - {p}| == |inFlight| - 1
    ensures |arrived + {p}| == |arrived| + 1 && |lost + {p}| == |lost| + 1
    ensures (inFlight - {p}) + (arrived + {p}) + lost == inFlight + arrived + lost
    ensures (inFlight - {p}) + arrived + (lost + {p}) == inFlight + arrived + lost
    ensures (inFlight - {p}) !! (arrived + {p}) && (inFlight - {p}) !! (lost + {p})
    ensures lost !! (arrived + {p}) && (lost + {p}) !! arrived
  {
  }

  lemma MovesTally(g: Get, h: Get, p: nat, ok: bool)
    requires Tally(g) && p in g.inFlight && Moves(g, h, p, ok)
    ensures Tally(SetFail(h, !ok))
    ensures h.inFlight + h.m.arrived + h.lost == g.inFlight + g.m.arrived + g.lost
  {
    MoveSets(g.inFlight, g.m.arrived, g.lost, p);
    if ok {
      assert h.m.arrived == g.m.arrived + {p};
    } else {
      assert h.lost == g.lost + {p};
    }
  }

  /** A part that was in flight arrives or is lost. */
  lemma MovesInv(plan: Plan, g: Get, h: Get, p: nat, ok: bool)
    requires GetSafety.Inv(plan, g) && !g.finished && p in g.inFlight && Delivering(plan, h.m) && Moves(g, h, p, ok)
    ensures GetSafety.Inv(plan, SetFail(h, !ok))
  {
    hide Delivering, Handed, SpreadOk, Tally;
    MovesTally(g, h, p, ok);
    FailDelivering(plan, h.m);
    assert g.known;
  }

  lemma PartFinishedInv(plan: Plan, g: Get, p: nat, ok: bool, progress: bool)
    requires GetSafety.Inv(plan, g) && !g.finished && p in g.inFlight && 1 <= p <= |plan.parts|
    ensures GetSafety.Inv(plan, PartFinished(plan, g, p, ok, progress))
  {
    hide Delivering, CountPart, Handed, SpreadOk;
    CountPartMoves(plan, g, p, ok, progress);
    MovesInv(plan, g, CountPart(plan, g, p, ok, progress), p, ok);
  }

  // ----- The discovery request finishes -----

  lemma InitSpreadOk(spreading: bool, requested: nat, total: nat, connections: nat)
    requires requested <= total
    ensures var s := PartSpread.Init(spreading, requested, total, connections);
            SpreadOk(s, requested, total) && Handed(s, requested) == Parts(requested)
  {
    InitCovers(requested, total, connections);
  }

  lemma InitSpreadEmpty(spreading: bool, requested: nat, connections: nat)
    ensures PartSpread.Init(spreading, requested, 0, connections) == OFF
  {
  }

  lemma InitSpreadInv(plan: Plan, c: Config, g: Get)
    requires PlanOk(plan) && Delivering(plan, g.m) && Tally(g) && Discovering(g) && !g.finished
    requires g.known ==> g.total == plan.total && g.requested <= |plan.parts| && EmptyOk(plan, g.requested, g.inFlight)
    requires g.known ==> g.inFlight + g.m.arrived + g.lost == Parts(g.requested)
    ensures GetSafety.Inv(plan, InitSpread(plan, c, g))
  {
    hide Delivering, PartSpread.Init, SpreadOk, Tally, Handed;
    TallyIgnoresSpread(g, InitSpread(plan, c, g).spread);
    if g.known {
      FreshSpread(plan, plan.outOfOrder && !c.sequential, g.requested, g.total, c.connections);
    }
  }

  lemma TallyIgnoresSpread(g: Get, s: Spread)
    requires Tally(g)
    ensures Tally(g.(spread := s))
  {
  }

  lemma FreshSpread(plan: Plan, spreading: bool, requested: nat, total: nat, connections: nat)
    requires total == 0 || requested <= total
    ensures var s := PartSpread.Init(spreading, requested, total, connections);
            SpreadOk(s, requested, total) && Handed(s, requested) == Parts(requested)
  {
    if total == 0 {
      InitSpreadEmpty(spreading, requested, connections);
      OffOk(requested, total);
    } else {
      InitSpreadOk(spreading, requested, total, connections);
    }
  }

  lemma OffOk(requested: nat, total: nat)
    ensures SpreadOk(OFF, requested, total) && Handed(OFF, requested) == Parts(requested)
  {
  }

  /** After the discovery request has been counted, before the spread is set up. */
  ghost predicate Discovered(plan: Plan, g: Get) {
    && Delivering(plan, g.m) && Tally(g) && Discovering(g) && !g.finished
    && (g.known ==> g.total == plan.total && g.requested <= |plan.parts| && EmptyOk(plan, g.requested, g.inFlight))
    && (g.known ==> g.inFlight + g.m.arrived + g.lost == Parts(g.requested))
  }

  /** The ways a discovery request ends without a body: a HEAD, a hint mismatch, an empty-file redo. */
  lemma NoBodyDiscovered(plan: Plan, c: Config, g: Get, r: Reply)
    requires PlanOk(plan) && GetSafety.Inv(plan, g) && !g.finished
    requires g.discovery.Out? && ReplyOk(plan, c, g.discovery.kind, r)
    requires g.discovery.kind.Head? || (r.mismatch && r.found) || r.emptyFile
    ensures var h := RecordDiscovery(plan, g.(discovery := NotOut), r);
            Discovered(plan, SetFail(CountDiscovery(plan, h, g.discovery.kind, r), r.error))
  {
    hide Delivering;
    assert |g.m.arrived| == 0 && |g.lost| == 0 && |g.inFlight| == 0;
    FailDelivering(plan, g.m);
  }

  lemma BodyDiscovered(plan: Plan, c: Config, g: Get, r: Reply)
    requires PlanOk(plan) && GetSafety.Inv(plan, g) && !g.finished
    requires g.discovery.Out? && ReplyOk(plan, c, g.discovery.kind, r)
    requires !g.discovery.kind.Head? && !(r.mismatch && r.found) && !r.emptyFile
    ensures var h := RecordDiscovery(plan, g.(discovery := NotOut), r);
            Discovered(plan, SetFail(CountDiscovery(plan, h, g.discovery.kind, r), r.error))
  {
    hide Delivering, CountPart;
    assert |g.m.arrived| == 0 && |g.lost| == 0 && |g.inFlight| == 0;
    var h := RecordDiscovery(plan, g.(discovery := NotOut), r);
    assert h.m == g.m;
    if !r.requestFailed {
      CountPartMoves(plan, h, 1, true, r.progress);
    } else {
      LostMoves(plan, h, r.progress);
    }
    var k := CountPart(plan, h, 1, !r.requestFailed, r.progress);
    FailDelivering(plan, k.m);
    FirstPartCounted(plan, g, h, k, r);
  }

  lemma LostMoves(plan: Plan, g: Get, progress: bool)
    requires Delivering(plan, g.m)
    ensures Moves(g, CountPart(plan, g, 1, false, progress), 1, false)
    ensures Delivering(plan, CountPart(plan, g, 1, false, progress).m)
  {
    hide Delivering;
  }

  lemma FirstPartCounted(plan: Plan, g: Get, h: Get, k: Get, r: Reply)
    requires PlanOk(plan) && GetSafety.Inv(plan, g) && !g.finished && Asks(g.discovery)
    requires |g.m.arrived| == 0 && |g.lost| == 0 && |g.inFlight| == 0
    requires h == RecordDiscovery(plan, g.(discovery := NotOut), r) && Moves(h, k, 1, !r.requestFailed)
    requires Delivering(plan, k.m) && Delivering(plan, k.m.(failed := true))
    requires !r.found ==> r.error
    requires r.requestFailed ==> !r.found
    requires r.found ==> if r.objectEmpty then plan.total == 0 && |plan.parts| == 1 else plan.total == |plan.parts| >= 1
    ensures Discovered(plan, SetFail(k, r.error))
  {
    hide Delivering;
    assert g.m.arrived == {} && g.lost == {} && g.inFlight == {};
    assert Parts(1) == {1};
  }

  lemma DiscoveryFinishedInv(plan: Plan, c: Config, g: Get, r: Reply)
    requires PlanOk(plan) && GetSafety.Inv(plan, g) && !g.finished
    requires g.discovery.Out? && ReplyOk(plan, c, g.discovery.kind, r)
    ensures GetSafety.Inv(plan, DiscoveryFinished(plan, c, g, r))
  {
    hide GetSafety.Inv, RecordDiscovery, CountDiscovery, InitSpread;
    if g.discovery.kind.Head? || (r.mismatch && r.found) || r.emptyFile {
      NoBodyDiscovered(plan, c, g, r);
    } else {
      BodyDiscovered(plan, c, g, r);
    }
    var h := RecordDiscovery(plan, g.(discovery := NotOut), r);
    InitSpreadInv(plan, c, SetFail(CountDiscovery(plan, h, g.discovery.kind, r), r.error));
  }

  // ----- Delivery steps -----

  lemma DeliverInv(plan: Plan, g: Get, a: Action)
    requires GetSafety.Inv(plan, g) && !g.finished && !a.Arrive? && DeliveryRuns.Enabled(plan, g.m, a)
    ensures GetSafety.Inv(plan, g.(m := DeliveryRuns.Step(plan, g.m, a)))
  {
    hide DeliveryRuns.Inv, DeliveryRuns.Step, Counted, Handed, SpreadOk, DeliveryRuns.Enabled;
    StepInv(plan, g.m, a);
    OtherCounted(plan, g.m, a);
    FailureSticks(plan, g.m, a);
  }

  lemma FailureSticks(plan: Plan, m: Meta, a: Action)
    requires DeliveryRuns.Inv(plan, m) && !a.Arrive? && DeliveryRuns.Enabled(plan, m, a)
    ensures m.failed ==> DeliveryRuns.Step(plan, m, a).failed
  {
    hide DeliveryRuns.Inv, Close, RunTick, MarkCompleted, EventsOk;
    match a
    case Written(p, ok, _) =>
      if ok {
        MarkFrame(plan, Leave(plan, m, p), [Completed(p, |PartBody(plan, p)|)]);
      }
    case EndTick(accepted) =>
      RunTickResult(plan, m, accepted);
      CloseClosed(plan, m, RunTick(plan, m, accepted));
    case _ =>
  }
}
