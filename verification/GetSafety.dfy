/** The invariant of the auto-ranged GET and its preservation by every step. */
module GetSafety {
  import opened Numbering
  import opened Delivery
  import opened DeliverySafety
  import opened DeliveryRuns
  import opened DeliveryTheorems
  import opened DeliveryCounts
  import opened PartSpread
  import opened AutoRangedGet

  // ----- Which parts have been handed out -----

  ghost function SpreadParts(s: Spread, n: nat): set<nat>
    requires s.numRegions >= 2
  {
    if n == 0 then {} else SpreadParts(s, n - 1) + {PartAt(s, n - 1)}
  }

  lemma {:induction false} SpreadPartsIndex(s: Spread, count: nat, n: nat, p: nat)
    requires Covers(s, count) && n <= count && p in SpreadParts(s, n)
    ensures s.first <= p < s.first + count && IndexOf(s, p) < n
  {
    hide PartAt, IndexOf;
    PartAtIndex(s, count, n - 1);
    if p != PartAt(s, n - 1) {
      SpreadPartsIndex(s, count, n - 1, p);
    }
  }

  /** The next part of the spread was not handed out before. */
  lemma SpreadPartNew(s: Spread, count: nat, n: nat)
    requires Covers(s, count) && n < count
    ensures s.first <= PartAt(s, n) < s.first + count && PartAt(s, n) !in SpreadParts(s, n)
  {
    hide PartAt, IndexOf;
    PartAtIndex(s, count, n);
    if PartAt(s, n) in SpreadParts(s, n) {
      SpreadPartsIndex(s, count, n, PartAt(s, n));
    }
  }

  /** Handing out the whole spread hands out the whole range. */
  lemma SpreadIsPermutation(s: Spread, count: nat)
    requires Covers(s, count) && s.first >= 1
    ensures Parts(s.first - 1) + SpreadParts(s, count) == Parts(s.first - 1 + count)
    ensures |SpreadParts(s, count)| == count
  {
    forall p | s.first <= p < s.first + count ensures p in SpreadParts(s, count) {
      IndexOfPart(s, count, p);
      SpreadPartsHas(s, count, IndexOf(s, p));
    }
    forall p | p in SpreadParts(s, count) ensures s.first <= p < s.first + count {
      SpreadPartsIndex(s, count, count, p);
    }
    SpreadPartsCount(s, count, count);
  }

  lemma {:induction false} SpreadPartsHas(s: Spread, n: nat, i: nat)
    requires s.numRegions >= 2 && i < n
    ensures PartAt(s, i) in SpreadParts(s, n)
  {
    if i < n - 1 {
      SpreadPartsHas(s, n - 1, i);
    }
  }

  lemma {:induction false} SpreadPartsCount(s: Spread, count: nat, n: nat)
    requires Covers(s, count) && n <= count
    ensures |SpreadParts(s, n)| == n
  {
    if n > 0 {
      SpreadPartsCount(s, count, n - 1);
      SpreadPartNew(s, count, n - 1);
    }
  }

  ghost function Handed(spread: Spread, requested: nat): set<nat> {
    if spread.numRegions < 2 then Parts(requested)
    else Parts(if spread.first == 0 then 0 else spread.first - 1) + SpreadParts(spread, spread.handedOut)
  }

  /** The spread is off, or in step with the number of parts requested. */
  ghost predicate SpreadOk(spread: Spread, requested: nat, total: nat) {
    spread.numRegions < 2 ||
    (&& 1 <= spread.first <= total && Covers(spread, total - (spread.first - 1))
     && spread.handedOut == requested - (spread.first - 1))
  }

  /** The next part number is new, in range, and keeps the spread in step. */
  lemma NextIsNew(spread: Spread, requested: nat, total: nat)
    requires SpreadOk(spread, requested, total) && requested < total
    ensures var (part, after) := Next(spread, requested);
            && 1 <= part <= total && part !in Handed(spread, requested)
            && Handed(after, requested + 1) == Handed(spread, requested) + {part}
            && SpreadOk(after, requested + 1, total)
  {
    hide PartAt;
    if spread.numRegions >= 2 {
      hide Covers, SpreadParts, Parts;
      NextSpreadIsNew(spread, requested, total);
    } else {
      assert Parts(requested + 1) == Parts(requested) + {requested + 1};
    }
  }

  lemma NextSpreadIsNew(spread: Spread, requested: nat, total: nat)
    requires SpreadOk(spread, requested, total) && requested < total && spread.numRegions >= 2
    ensures var part := PartAt(spread, spread.handedOut);
            var after := spread.(handedOut := spread.handedOut + 1);
            && 1 <= part <= total && part !in Handed(spread, requested)
            && Handed(after, requested + 1) == Handed(spread, requested) + {part}
            && SpreadOk(after, requested + 1, total)
  {
    hide PartAt, Covers, Parts;
    var count := total - (spread.first - 1);
    CoversTwo(spread, count);
    SpreadPartNew(spread, count, spread.handedOut);
    SameSpread(spread, spread.(handedOut := spread.handedOut + 1), spread.handedOut);
    AfterCovers(spread, count);
  }

  lemma CoversTwo(s: Spread, count: nat)
    requires Covers(s, count)
    ensures s.numRegions >= 2
  {
  }

  lemma {:induction false} SameSpread(s: Spread, s': Spread, n: nat)
    requires s.numRegions >= 2 && s' == s.(handedOut := s'.handedOut)
    ensures SpreadParts(s, n) == SpreadParts(s', n) && PartAt(s, n) == PartAt(s', n)
  {
    if n > 0 {
      SameSpread(s, s', n - 1);
    }
  }

  lemma AfterCovers(s: Spread, count: nat)
    requires Covers(s, count)
    ensures Covers(s.(handedOut := s.handedOut + 1), count)
  {
  }

  // ----- The invariant -----

  predicate Asks(d: Discovery) {
    d.Out? && !d.kind.Head?
  }

  /** Every request handed out is in flight, has arrived or was lost, and the counters say how many. */
  ghost predicate Tally(g: Get) {
    && g.inFlight !! g.m.arrived && g.inFlight !! g.lost && g.lost !! g.m.arrived
    && g.successful == |g.m.arrived| && g.failedParts == |g.lost|
    && g.completed == g.successful + g.failedParts
    && g.requested == g.completed + |g.inFlight| + (if Asks(g.discovery) then 1 else 0)
    && (g.lost != {} ==> g.m.failed)
  }

  ghost predicate Discovering(g: Get) {
    && (g.discovery.Out? ==> !g.known && g.m.arrived == {} && g.lost == {})
    && ((g.headSent && !g.headDone) <==> g.discovery == Out(Head))
    && (g.headDone ==> g.headSent) && (Asks(g.discovery) ==> !g.headSent)
    && (!g.known ==> g.total == 0 && g.inFlight == {})
    && (!g.known && !g.m.failed && g.discovery.NotOut? ==> !g.headSent && g.requested == 0)
  }

  /** An empty object has no parts, or one, which is the discovery response's. */
  ghost predicate EmptyOk(plan: Plan, requested: nat, inFlight: set<nat>) {
    plan.total == 0 ==> |plan.parts| == requested <= 1 && inFlight == {}
  }

  ghost predicate Requesting(plan: Plan, g: Get) {
    g.known ==>
      && g.total == plan.total && g.requested <= |plan.parts| && EmptyOk(plan, g.requested, g.inFlight)
      && g.inFlight + g.m.arrived + g.lost == Handed(g.spread, g.requested)
      && SpreadOk(g.spread, g.requested, g.total)
  }

  ghost predicate Delivering(plan: Plan, m: Meta) {
    DeliveryRuns.Inv(plan, m) && Counted(m)
  }

  ghost predicate Inv(plan: Plan, g: Get) {
    && Delivering(plan, g.m) && Tally(g) && Discovering(g) && Requesting(plan, g)
    && (g.finished ==> Ended(plan, g))
  }

  /** A finished download has nothing in flight and nothing being delivered, and if it succeeded every part was
      delivered. */
  ghost predicate Ended(plan: Plan, g: Get) {
    && g.discovery.NotOut? && g.inFlight == {} && !EventsOut(g.m) && g.m.completed >= g.m.sent
    && (!g.m.failed ==> MaskFull(plan, g.m) && g.m.completed >= |plan.parts|)
  }

  lemma StartInv(plan: Plan, window: nat)
    requires PlanOk(plan) && window < U64
    ensures Inv(plan, Start(window))
  {
    InitInv(plan, window);
    InitCounted(window);
  }

  // ----- Streaming a part -----

  lemma StreamPart(plan: Plan, m: Meta, p: nat, progress: bool)
    requires Delivering(plan, m) && 1 <= p <= |plan.parts| && p !in m.arrived
    ensures var r := Stream(plan, if progress then AddEvent(m, Notice) else m, p);
            Delivering(plan, r) && r.arrived == m.arrived + {p} && (m.failed ==> r.failed)
  {
    hide DeliveryRuns.Inv, Stream, Counted;
    var n := if progress then AddEvent(m, Notice) else m;
    NotifyInv(plan, m);
    NotifyCounted(plan, m);
    StepInv(plan, n, Arrive(p));
    NoPendingOutOfOrder(plan, n);
    ArriveCounted(plan, n, p);
    StreamFailed(plan, n, p);
  }

  lemma NotifyCounted(plan: Plan, m: Meta)
    requires Counted(m)
    ensures Counted(AddEvent(m, Notice)) && AddEvent(m, Notice).arrived == m.arrived
    ensures AddEvent(m, Notice).failed == m.failed
  {
  }

  lemma StreamFailed(plan: Plan, m: Meta, p: nat)
    ensures Stream(plan, m, p).failed == m.failed
  {
    if !plan.outOfOrder {
      PopReadyHealthy(m.(arrived := m.arrived + {p}, pending := m.pending + {p}));
    }
  }
}
