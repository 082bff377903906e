/** What a download decides: how it discovers the object, in which order it asks for parts, what it waits for, and
    when it fails. */
module GetPolicy {
  import opened Arithmetic
  import opened Numbering
  import opened ObjectParts
  import opened Delivery
  import opened DeliveryLog
  import opened DeliverySafety
  import opened DeliveryRuns
  import opened DeliveryTheorems
  import opened DeliveryCounts
  import opened DeliveryFaults
  import opened PartSpread
  import opened AutoRangedGet
  import opened GetSafety
  import opened GetSteps
  import opened GetRuns

  // ----- How the object is discovered -----

  /** How many replies said that the ranged request failed because the object is empty. */
  ghost function Redos(actions: seq<GetAction>): nat
    decreases |actions|
  {
    if actions == [] then 0 else RedoBy(actions[0]) + Redos(actions[1..])
  }

  function RedoBy(a: GetAction): nat {
    if a.EndDiscovery? && a.reply.emptyFile then 1 else 0
  }

  /** Which request discovers the object, the first time and again. */
  predicate Due(c: Config, kind: Kind, redo: bool) {
    match kind
    case Head => !redo && (if c.hasRange then !c.hasStart else c.needsHead && !c.hintFits)
    case Range => !redo && (if c.hasRange then c.hasStart else !c.needsHead && !c.hintFits)
    case PartNumber1 => redo || (!c.hasRange && c.hintFits)
  }

  ghost predicate InDiscovery(c: Config, g: Get, redos: nat) {
    && redos <= 1
    && (g.discovery.Out? ==> Due(c, g.discovery.kind, redos > 0))
    && (g.discovery.NotOut? && !g.known && !g.m.failed ==> (g.empty <==> redos > 0))
  }

  lemma UpdateDiscovery(plan: Plan, c: Config, g: Get, hold: bool, redos: nat)
    requires GetSafety.Inv(plan, g) && !g.finished && InDiscovery(c, g, redos)
    ensures InDiscovery(c, Update(plan, c, g, hold), redos)
  {
    hide Delivering, Requesting, Next, MaskFull;
  }

  lemma ReplyDiscovery(plan: Plan, c: Config, g: Get, r: Reply, redos: nat)
    requires GetSafety.Inv(plan, g) && InDiscovery(c, g, redos)
    requires g.discovery.Out? && ReplyOk(plan, c, g.discovery.kind, r)
    ensures InDiscovery(c, DiscoveryFinished(plan, c, g, r), redos + if r.emptyFile then 1 else 0)
  {
    hide GetSafety.Inv, DiscoveryFinished;
    ReplyFrame(plan, c, g, r);
  }

  lemma ReplyFrame(plan: Plan, c: Config, g: Get, r: Reply)
    requires g.discovery.Out? && ReplyOk(plan, c, g.discovery.kind, r)
    ensures var h := DiscoveryFinished(plan, c, g, r);
            h.discovery.NotOut? && (if r.emptyFile then h.empty else h.known || h.m.failed)
  {
    hide CountDiscovery, PartSpread.Init;
    CountedFrame(plan, RecordDiscovery(plan, g.(discovery := NotOut), r), g.discovery.kind, r);
  }

  lemma CountedFrame(plan: Plan, g: Get, kind: Kind, r: Reply)
    ensures var h := CountDiscovery(plan, g, kind, r);
            && h.discovery == g.discovery && h.empty == g.empty
            && (!r.emptyFile ==> h.known == g.known)
  {
    hide CountPart;
    CountFrame(plan, g, 1, !r.requestFailed, r.progress);
  }

  lemma CountFrame(plan: Plan, g: Get, p: nat, ok: bool, progress: bool)
    ensures var h := CountPart(plan, g, p, ok, progress);
            h.known == g.known && h.discovery == g.discovery && h.empty == g.empty
  {
    hide Stream;
  }

  lemma OtherDiscovery(plan: Plan, c: Config, g: Get, a: GetAction, redos: nat)
    requires PlanOk(plan) && GetSafety.Inv(plan, g) && CanStep(plan, c, g, a) && InDiscovery(c, g, redos)
    requires a.EndPart? || a.Deliver?
    ensures InDiscovery(c, NextGet(plan, c, g, a), redos)
  {
    hide Stream, DeliveryRuns.Step, DeliveryRuns.Inv, Requesting, Counted;
    if a.Deliver? && g.m.failed {
      FaultFails(plan, g.m, a.action);
    }
  }

  lemma {:induction false} RunDiscovery(plan: Plan, c: Config, g: Get, actions: seq<GetAction>, redos: nat)
    requires PlanOk(plan) && GetSafety.Inv(plan, g) && InDiscovery(c, g, redos) && IsGetRun(plan, c, g, actions)
    ensures InDiscovery(c, AfterGet(plan, c, g, actions), redos + Redos(actions))
    decreases |actions|
  {
    hide GetSafety.Inv, InDiscovery;
    if actions != [] {
      var a := actions[0];
      NextInv(plan, c, g, a);
      match a {
        case DoUpdate(hold) => UpdateDiscovery(plan, c, g, hold, redos);
        case EndDiscovery(r) => ReplyDiscovery(plan, c, g, r, redos);
        case _ => OtherDiscovery(plan, c, g, a, redos);
      }
      RunDiscovery(plan, c, NextGet(plan, c, g, a), actions[1..], redos + RedoBy(a));
    }
  }

  /** In every run: discovery is by HEAD exactly if the range asked for has no start, or there is no range and a
      checksum is wanted that no size hint makes unnecessary; by a ranged request exactly if the range has a start, or
      there is neither a range nor such a checksum nor a hint; and else, and after an object was found to be empty, by
      asking for part 1. An object is found to be empty in this way at most once. */
  lemma DiscoversByTheRightRequest(plan: Plan, c: Config, window: nat, actions: seq<GetAction>)
    requires PlanOk(plan) && window < U64 && IsGetRun(plan, c, Start(window), actions)
    ensures var d := AfterGet(plan, c, Start(window), actions).discovery;
            var redo := Redos(actions) > 0;
            && Redos(actions) <= 1
            && (d.Out? ==>
                  && (d.kind.Head? <==> Due(c, Head, redo)) && (d.kind.Range? <==> Due(c, Range, redo))
                  && (d.kind.PartNumber1? <==> Due(c, PartNumber1, redo)))
  {
    hide GetSafety.Inv, IsGetRun, AfterGet, Redos, PlanOk, InDiscovery, Due;
    StartInv(plan, window);
    StartDiscovery(c, window);
    RunDiscovery(plan, c, Start(window), actions, 0);
    OutWhenDue(c, AfterGet(plan, c, Start(window), actions), Redos(actions));
  }

  lemma StartDiscovery(c: Config, window: nat)
    ensures InDiscovery(c, Start(window), 0)
  {
  }

  lemma OutWhenDue(c: Config, g: Get, redos: nat)
    requires InDiscovery(c, g, redos)
    ensures redos <= 1
    ensures g.discovery.Out? ==>
              && (g.discovery.kind.Head? <==> Due(c, Head, redos > 0))
              && (g.discovery.kind.Range? <==> Due(c, Range, redos > 0))
              && (g.discovery.kind.PartNumber1? <==> Due(c, PartNumber1, redos > 0))
  {
  }

  // ----- In which order parts are asked for -----

  /** The spread is on only out of order, unless requests are to be sequential, and then it has a region for each
      connection; it is on whenever there are more parts than connections to spread them over. */
  ghost predicate Spreads(plan: Plan, c: Config, g: Get) {
    && (g.spread.numRegions >= 2 ==>
          g.known && plan.outOfOrder && !c.sequential && g.spread.numRegions == c.connections && g.spread.first <= 2)
    && (g.known && plan.outOfOrder && !c.sequential && 2 <= c.connections && c.connections + 1 < g.total ==>
          g.spread.numRegions >= 2)
  }

  lemma ReplySpreads(plan: Plan, c: Config, g: Get, r: Reply)
    requires GetSafety.Inv(plan, g) && Spreads(plan, c, g)
    requires g.discovery.Out? && ReplyOk(plan, c, g.discovery.kind, r)
    ensures Spreads(plan, c, DiscoveryFinished(plan, c, g, r))
  {
    hide Stream, Delivering, Requesting;
    assert |g.m.arrived| == 0 && |g.lost| == 0 && |g.inFlight| == 0;
  }

  lemma NextSpreads(plan: Plan, c: Config, g: Get, a: GetAction)
    requires GetSafety.Inv(plan, g) && Spreads(plan, c, g) && CanStep(plan, c, g, a)
    ensures Spreads(plan, c, NextGet(plan, c, g, a))
  {
    hide Stream, DeliveryRuns.Step, GetSafety.Inv, DiscoveryFinished, PartAt, MaskFull;
    if a.EndDiscovery? {
      ReplySpreads(plan, c, g, a.reply);
    }
  }

  lemma {:induction false} RunSpreads(plan: Plan, c: Config, g: Get, actions: seq<GetAction>)
    requires PlanOk(plan) && GetSafety.Inv(plan, g) && Spreads(plan, c, g) && IsGetRun(plan, c, g, actions)
    ensures Spreads(plan, c, AfterGet(plan, c, g, actions))
    decreases |actions|
  {
    hide GetSafety.Inv, Spreads;
    if actions != [] {
      NextInv(plan, c, g, actions[0]);
      NextSpreads(plan, c, g, actions[0]);
      RunSpreads(plan, c, NextGet(plan, c, g, actions[0]), actions[1..]);
    }
  }

  /** In every run parts are asked for in ascending order if delivery is in order, or requests are to be sequential, or
      there is one connection; and otherwise spread over as many regions as connections if there are enough parts. */
  lemma SpreadsOnlyWhenAllowed(plan: Plan, c: Config, window: nat, actions: seq<GetAction>)
    requires PlanOk(plan) && window < U64 && IsGetRun(plan, c, Start(window), actions)
    ensures var g := AfterGet(plan, c, Start(window), actions);
            && (!plan.outOfOrder || c.sequential || c.connections < 2 ==> NextPart(g) == g.requested + 1)
            && (g.known && plan.outOfOrder && !c.sequential && 2 <= c.connections && c.connections + 1 < g.total ==>
                  g.spread.numRegions == c.connections && g.spread.first <= 2)
  {
    StartInv(plan, window);
    hide GetSafety.Inv, PartAt;
    RunSpreads(plan, c, Start(window), actions);
  }

  // ----- How much is delivered -----

  /** The bytes by which the caller opens the window during a download. */
  ghost function OpenedBy(actions: seq<GetAction>): nat
    decreases |actions|
  {
    if actions == [] then 0 else Opening(actions[0]) + OpenedBy(actions[1..])
  }

  function Opening(a: GetAction): nat {
    if a.Deliver? && a.action.Window? then a.action.bytes else 0
  }

  lemma CountWindow(plan: Plan, g: Get, p: nat, ok: bool, progress: bool)
    ensures var m := CountPart(plan, g, p, ok, progress).m;
            m.window == g.m.window && m.log == g.m.log && m.ioCompleted == g.m.ioCompleted
  {
    hide Stream;
    StreamFrame(plan, if progress then AddEvent(g.m, Notice) else g.m, p);
  }

  lemma StreamFrame(plan: Plan, m: Meta, p: nat)
    ensures var r := Stream(plan, m, p); r.window == m.window && r.log == m.log && r.ioCompleted == m.ioCompleted
  {
    hide PopReady;
    PopReadyHealthy(m.(arrived := m.arrived + {p}, pending := m.pending + {p}));
  }

  lemma ReplyWindow(plan: Plan, c: Config, g: Get, r: Reply)
    requires g.discovery.Out?
    ensures var m := DiscoveryFinished(plan, c, g, r).m;
            m.window == g.m.window && m.log == g.m.log && m.ioCompleted == g.m.ioCompleted
  {
    hide CountDiscovery, RecordDiscovery, PartSpread.Init;
    RecordFrame(plan, g.(discovery := NotOut), r);
    CountedWindow(plan, RecordDiscovery(plan, g.(discovery := NotOut), r), g.discovery.kind, r);
  }

  lemma CountedWindow(plan: Plan, g: Get, kind: Kind, r: Reply)
    ensures var m := CountDiscovery(plan, g, kind, r).m;
            m.window == g.m.window && m.log == g.m.log && m.ioCompleted == g.m.ioCompleted
  {
    hide CountPart;
    CountWindow(plan, g, 1, !r.requestFailed, r.progress);
  }

  lemma NextWindow(plan: Plan, c: Config, g: Get, a: GetAction)
    requires CanStep(plan, c, g, a) && g.m.window < U64
    ensures NextGet(plan, c, g, a).m.window == Saturated(g.m.window + Opening(a))
  {
    hide CountPart, DeliveryRuns.Step, DiscoveryFinished, Update, ReplyOk;
    match a
    case DoUpdate(hold) => UpdateSame(plan, c, g, hold);
    case EndDiscovery(r) => ReplyWindow(plan, c, g, r);
    case EndPart(p, ok, progress) => CountWindow(plan, g, p, ok, progress);
    case Deliver(d) =>
      StepWindow(plan, g.m, d);
      assert [d][1..] == [];
  }

  lemma {:induction false} RunGetWindow(plan: Plan, c: Config, g: Get, actions: seq<GetAction>)
    requires IsGetRun(plan, c, g, actions) && g.m.window < U64
    ensures AfterGet(plan, c, g, actions).m.window == Saturated(g.m.window + OpenedBy(actions))
    decreases |actions|
  {
    hide NextGet, CanStep;
    if actions != [] {
      NextWindow(plan, c, g, actions[0]);
      RunGetWindow(plan, c, NextGet(plan, c, g, actions[0]), actions[1..]);
    }
  }

  /** With a read window no download delivers more than the caller has opened it to. */
  lemma DownloadWithinWindow(plan: Plan, c: Config, window: nat, actions: seq<GetAction>)
    requires PlanOk(plan) && window < U64 && IsGetRun(plan, c, Start(window), actions)
    ensures var m := AfterGet(plan, c, Start(window), actions).m;
            && m.window == Saturated(window + OpenedBy(actions))
            && (plan.windowed ==> |Bytes(m.log)| <= window + OpenedBy(actions))
  {
    hide IsGetRun, AfterGet, GetSafety.Inv;
    StartInv(plan, window);
    GetRunInv(plan, c, Start(window), actions);
    RunGetWindow(plan, c, Start(window), actions);
    Within(plan, AfterGet(plan, c, Start(window), actions));
  }

  lemma Within(plan: Plan, g: Get)
    requires GetSafety.Inv(plan, g)
    ensures plan.windowed ==> |Bytes(g.m.log)| <= g.m.window
  {
    hide Live, Dead, Queues, NoLostWakeup, LogTruth, Requesting, Tally;
  }

  // ----- When a download fails -----

  ghost predicate GetFault(plan: Plan, c: Config, g: Get, a: GetAction)
    requires CanStep(plan, c, g, a)
  {
    match a
    case DoUpdate(_) => false
    case EndDiscovery(r) => r.error
    case EndPart(_, ok, _) => !ok
    case Deliver(d) => Fault(plan, g.m, d)
  }

  ghost predicate GetFaulty(plan: Plan, c: Config, g: Get, actions: seq<GetAction>)
    requires IsGetRun(plan, c, g, actions)
    decreases |actions|
  {
    actions != [] &&
    (GetFault(plan, c, g, actions[0]) || GetFaulty(plan, c, NextGet(plan, c, g, actions[0]), actions[1..]))
  }

  /** The engine is in good order. */
  ghost predicate Fine(plan: Plan, m: Meta) {
    Live(plan, m) && Healthy(m)
  }

  lemma StreamFine(plan: Plan, m: Meta, p: nat, progress: bool)
    requires DeliveryRuns.Inv(plan, m) && Fine(plan, m) && 1 <= p <= |plan.parts| && p !in m.arrived
    ensures Fine(plan, Stream(plan, if progress then AddEvent(m, Notice) else m, p))
  {
    hide DeliveryRuns.Inv, Live, Stream;
    var n := if progress then AddEvent(m, Notice) else m;
    NotifyInv(plan, m);
    ArriveHealthy(plan, n, p);
    if plan.outOfOrder {
      StreamUnordered(plan, n, p);
    } else {
      StreamOrdered(plan, n, p);
    }
  }

  lemma EngineInv(plan: Plan, g: Get)
    requires GetSafety.Inv(plan, g)
    ensures DeliveryRuns.Inv(plan, g.m) && (forall p :: p in g.inFlight ==> p !in g.m.arrived)
    ensures g.discovery.Out? ==> g.m.arrived == {}
  {
    hide DeliveryRuns.Inv, Requesting, Counted;
  }

  /** A finished part leaves the engine in the order it was in. */
  lemma CountFine(plan: Plan, g: Get, p: nat, ok: bool, progress: bool)
    requires DeliveryRuns.Inv(plan, g.m) && (g.m.failed || Fine(plan, g.m))
    requires ok ==> 1 <= p <= |plan.parts| && p !in g.m.arrived
    ensures var h := CountPart(plan, g, p, ok, progress);
            h.m.failed == g.m.failed && (h.m.failed || Fine(plan, h.m)) && h.finished == g.finished
  {
    hide Stream, DeliveryRuns.Inv, Fine;
    if ok {
      StreamFailed(plan, if progress then AddEvent(g.m, Notice) else g.m, p);
      if !g.m.failed {
        StreamFine(plan, g.m, p, progress);
      }
    }
  }

  lemma ReplyFaults(plan: Plan, c: Config, g: Get, r: Reply)
    requires PlanOk(plan) && GetSafety.Inv(plan, g) && (g.m.failed || Fine(plan, g.m)) && !g.finished
    requires g.discovery.Out? && ReplyOk(plan, c, g.discovery.kind, r)
    ensures var h := DiscoveryFinished(plan, c, g, r);
            (h.m.failed <==> g.m.failed || r.error) && (h.m.failed || Fine(plan, h.m)) && !h.finished
  {
    EngineInv(plan, g);
    hide CountDiscovery, RecordDiscovery, DeliveryRuns.Inv, Fine, PartSpread.Init, GetSafety.Inv, ReplyOk;
    var h := RecordDiscovery(plan, g.(discovery := NotOut), r);
    RecordFrame(plan, g.(discovery := NotOut), r);
    CountedFine(plan, c, g, h, r);
  }

  lemma RecordFrame(plan: Plan, g: Get, r: Reply)
    ensures RecordDiscovery(plan, g, r).m == g.m && RecordDiscovery(plan, g, r).finished == g.finished
  {
  }

  lemma CountedFine(plan: Plan, c: Config, g: Get, h: Get, r: Reply)
    requires DeliveryRuns.Inv(plan, g.m) && (g.m.failed || Fine(plan, g.m)) && g.m.arrived == {} && !g.finished
    requires g.discovery.Out? && ReplyOk(plan, c, g.discovery.kind, r) && h.m == g.m && !h.finished
    ensures var k := CountDiscovery(plan, h, g.discovery.kind, r);
            k.m.failed == g.m.failed && (k.m.failed || Fine(plan, k.m)) && !k.finished
  {
    hide CountPart, DeliveryRuns.Inv, Fine;
    if !g.discovery.kind.Head? && !(r.mismatch && r.found) && !r.emptyFile {
      CountFine(plan, h, 1, !r.requestFailed, r.progress);
    }
  }

  lemma PartFaults(plan: Plan, c: Config, g: Get, p: nat, ok: bool, progress: bool)
    requires PlanOk(plan) && GetSafety.Inv(plan, g) && (g.m.failed || Fine(plan, g.m)) && p in g.inFlight && !g.finished
    ensures var h := PartFinished(plan, g, p, ok, progress);
            (h.m.failed <==> g.m.failed || !ok) && (h.m.failed || Fine(plan, h.m)) && !h.finished
  {
    InFlightInRange(plan, g, p);
    EngineInv(plan, g);
    hide CountPart, DeliveryRuns.Inv, Fine, GetSafety.Inv;
    CountFine(plan, g, p, ok, progress);
  }

  lemma DeliverFaults(plan: Plan, c: Config, g: Get, d: Action)
    requires GetSafety.Inv(plan, g) && Joins(plan) && (g.m.failed || Fine(plan, g.m))
    requires CanStep(plan, c, g, Deliver(d))
    ensures var m := DeliveryRuns.Step(plan, g.m, d);
            (m.failed <==> g.m.failed || Fault(plan, g.m, d)) && (m.failed || Fine(plan, m))
  {
    hide DeliveryRuns.Step, DeliveryRuns.Inv, Live, Fault, Counted, Requesting;
    if g.m.failed || Fault(plan, g.m, d) {
      FaultFails(plan, g.m, d);
    } else {
      NoFaultHealthy(plan, g.m, d);
    }
  }

  lemma UpdateFaults(plan: Plan, c: Config, g: Get, hold: bool)
    requires PlanOk(plan) && GetSafety.Inv(plan, g) && (g.m.failed || Fine(plan, g.m)) && !g.finished
    requires plan.total < U32
    ensures var h := Update(plan, c, g, hold);
            && (h.m.failed <==> g.m.failed || (h.finished && plan.total > U32 - 8))
            && (h.m.failed || Fine(plan, h.m))
  {
    hide SendDiscovery, SendPart, GetSafety.Inv, Live, MaskFull;
    SendFrame(c, g);
    if Idle(g) {
      FinishInv(plan, g);
    }
  }

  lemma SendFrame(c: Config, g: Get)
    ensures SendDiscovery(c, g).m == g.m && SendDiscovery(c, g).finished == g.finished
    ensures SendPart(g).m == g.m && SendPart(g).finished == g.finished
  {
    hide Next;
  }

  /** Has the run finished with more parts than the mask check can count? */
  predicate TooMany(plan: Plan, g: Get) {
    g.finished && plan.total > U32 - 8
  }

  lemma NextFaults(plan: Plan, c: Config, g: Get, a: GetAction)
    requires PlanOk(plan) && Joins(plan) && GetSafety.Inv(plan, g) && CanStep(plan, c, g, a) && plan.total < U32
    requires g.m.failed || Fine(plan, g.m)
    ensures var h := NextGet(plan, c, g, a);
            && (h.m.failed <==> g.m.failed || GetFault(plan, c, g, a) || TooMany(plan, h))
            && (h.m.failed || Fine(plan, h.m)) && (h.finished ==> a.DoUpdate?)
  {
    hide GetSafety.Inv, Fine, Update, DiscoveryFinished, PartFinished, DeliveryRuns.Step, Fault;
    match a
    case DoUpdate(hold) => UpdateFaults(plan, c, g, hold);
    case EndDiscovery(r) => ReplyFaults(plan, c, g, r);
    case EndPart(p, ok, progress) => PartFaults(plan, c, g, p, ok, progress);
    case Deliver(d) => DeliverFaults(plan, c, g, d);
  }

  lemma {:induction false} RunGetFaults(plan: Plan, c: Config, g: Get, actions: seq<GetAction>)
    requires PlanOk(plan) && Joins(plan) && GetSafety.Inv(plan, g) && IsGetRun(plan, c, g, actions)
    requires plan.total < U32 && (g.m.failed || Fine(plan, g.m)) && !g.finished
    ensures var h := AfterGet(plan, c, g, actions);
            h.m.failed <==> g.m.failed || GetFaulty(plan, c, g, actions) || TooMany(plan, h)
    decreases |actions|
  {
    hide GetSafety.Inv, Fine, NextGet, GetFault;
    if actions != [] {
      var h := NextGet(plan, c, g, actions[0]);
      NextInv(plan, c, g, actions[0]);
      NextFaults(plan, c, g, actions[0]);
      if h.finished {
        NothingMore(plan, c, h, actions[1..]);
      } else {
        RunGetFaults(plan, c, h, actions[1..]);
      }
    }
  }

  lemma NothingMore(plan: Plan, c: Config, g: Get, actions: seq<GetAction>)
    requires g.finished && IsGetRun(plan, c, g, actions)
    ensures actions == []
  {
  }

  /** A download fails in exactly the runs in which a request of it failed, or its delivery failed for a reason from
      outside, or it finishes with more than 2^32 - 8 parts. A failure is final. */
  lemma DownloadFailsOnlyOnFault(plan: Plan, c: Config, window: nat, actions: seq<GetAction>)
    requires PlanOk(plan) && Joins(plan) && window < U64 && plan.total < U32
    requires IsGetRun(plan, c, Start(window), actions)
    ensures var g := AfterGet(plan, c, Start(window), actions);
            g.m.failed <==> GetFaulty(plan, c, Start(window), actions) || TooMany(plan, g)
  {
    StartInv(plan, window);
    InitInv(plan, window);
    hide GetSafety.Inv, Live;
    RunGetFaults(plan, c, Start(window), actions);
  }

  // ----- What a download waits for -----

  lemma NextInStep(plan: Plan, c: Config, g: Get, a: GetAction)
    requires PlanOk(plan) && GetSafety.Inv(plan, g) && InStep(plan, g.m) && CanStep(plan, c, g, a)
    ensures InStep(plan, NextGet(plan, c, g, a).m)
  {
    EngineInv(plan, g);
    hide DeliveryRuns.Inv, CountPart, DeliveryRuns.Step, DiscoveryFinished, Update, GetSafety.Inv, InStep, ReplyOk;
    FailInStep(plan, g.m);
    match a
    case DoUpdate(hold) => UpdateSame(plan, c, g, hold);
    case EndDiscovery(r) => ReplyInStep(plan, c, g, r);
    case EndPart(p, ok, progress) =>
      InFlightInRange(plan, g, p);
      CountInStep(plan, g, p, ok, progress);
    case Deliver(d) => StepInStep(plan, g.m, d);
  }

  lemma UpdateSame(plan: Plan, c: Config, g: Get, hold: bool)
    ensures Update(plan, c, g, hold).m == g.m || Update(plan, c, g, hold).m == g.m.(failed := true)
  {
    hide SendDiscovery, SendPart, MaskFull, Idle;
    SendFrame(c, g);
    assert g.m.(failed := g.m.failed) == g.m;
  }

  lemma ReplyInStep(plan: Plan, c: Config, g: Get, r: Reply)
    requires DeliveryRuns.Inv(plan, g.m) && InStep(plan, g.m) && g.m.arrived == {}
    requires g.discovery.Out? && ReplyOk(plan, c, g.discovery.kind, r)
    ensures InStep(plan, DiscoveryFinished(plan, c, g, r).m)
  {
    hide DeliveryRuns.Inv, CountDiscovery, RecordDiscovery, PartSpread.Init, InStep, ReplyOk;
    var h := RecordDiscovery(plan, g.(discovery := NotOut), r);
    RecordFrame(plan, g.(discovery := NotOut), r);
    CountedInStep(plan, c, h, g.discovery.kind, r);
    FailInStep(plan, CountDiscovery(plan, h, g.discovery.kind, r).m);
  }

  lemma CountedInStep(plan: Plan, c: Config, g: Get, kind: Kind, r: Reply)
    requires DeliveryRuns.Inv(plan, g.m) && InStep(plan, g.m) && g.m.arrived == {} && ReplyOk(plan, c, kind, r)
    ensures InStep(plan, CountDiscovery(plan, g, kind, r).m)
  {
    hide DeliveryRuns.Inv, CountPart, InStep;
    if !kind.Head? && !(r.mismatch && r.found) && !r.emptyFile {
      CountInStep(plan, g, 1, !r.requestFailed, r.progress);
    }
  }

  lemma CountInStep(plan: Plan, g: Get, p: nat, ok: bool, progress: bool)
    requires DeliveryRuns.Inv(plan, g.m) && InStep(plan, g.m) && (ok ==> 1 <= p <= |plan.parts| && p !in g.m.arrived)
    ensures InStep(plan, CountPart(plan, g, p, ok, progress).m)
    ensures InStep(plan, CountPart(plan, g, p, ok, progress).m.(failed := true))
  {
    hide DeliveryRuns.Inv, Stream, InStep;
    if ok {
      StreamInStep(plan, g.m, p, progress);
    }
    FailInStep(plan, CountPart(plan, g, p, ok, progress).m);
  }

  lemma FailInStep(plan: Plan, m: Meta)
    ensures InStep(plan, m.(failed := true)) == InStep(plan, m)
  {
  }

  lemma StreamInStep(plan: Plan, m: Meta, p: nat, progress: bool)
    requires DeliveryRuns.Inv(plan, m) && InStep(plan, m) && 1 <= p <= |plan.parts| && p !in m.arrived
    ensures InStep(plan, Stream(plan, if progress then AddEvent(m, Notice) else m, p))
  {
    hide DeliveryRuns.Inv, InStep, Stream;
    var n := if progress then AddEvent(m, Notice) else m;
    NotifyInv(plan, m);
    StepInStep(plan, m, Notify);
    StepInStep(plan, n, Arrive(p));
  }

  lemma {:induction false} RunGetInStep(plan: Plan, c: Config, g: Get, actions: seq<GetAction>)
    requires PlanOk(plan) && GetSafety.Inv(plan, g) && InStep(plan, g.m) && IsGetRun(plan, c, g, actions)
    ensures InStep(plan, AfterGet(plan, c, g, actions).m)
    decreases |actions|
  {
    hide GetSafety.Inv, InStep;
    if actions != [] {
      NextInv(plan, c, g, actions[0]);
      NextInStep(plan, c, g, actions[0]);
      RunGetInStep(plan, c, NextGet(plan, c, g, actions[0]), actions[1..]);
    }
  }

  /** With no request out and nothing to deliver a download is idle. */
  lemma QuietIsIdle(plan: Plan, g: Get)
    requires PlanOk(plan) && GetSafety.Inv(plan, g) && InStep(plan, g.m) && g.discovery.NotOut? && g.inFlight == {}
    requires !EventsOut(g.m) && g.m.writes == {} && (!g.m.failed ==> g.known && g.requested >= g.total)
    ensures Idle(g)
  {
    NothingQueued(plan, g.m);
    hide DeliveryRuns.Inv, InStep, Handed, SpreadOk;
    if !g.m.failed {
      assert g.m.arrived == Handed(g.spread, g.requested);
      if plan.total > 0 {
        ArrivedAll(plan, g);
        AllSent(plan, g.m);
      }
    }
  }

  lemma NothingQueued(plan: Plan, m: Meta)
    requires DeliveryRuns.Inv(plan, m) && !EventsOut(m) && m.writes == {}
    ensures m.sent == m.completed
  {
    hide Live, LogTruth;
  }

  lemma ArrivedAll(plan: Plan, g: Get)
    requires GetSafety.Inv(plan, g) && g.known && g.requested == |plan.parts| && PlanOk(plan)
    requires g.inFlight == {} && g.lost == {} && g.discovery.NotOut?
    ensures g.m.arrived == Parts(|plan.parts|)
  {
    hide Handed, SpreadOk, Live, LogTruth;
    SubsetCardinality(g.m.arrived, Parts(|plan.parts|));
  }

  /** In every run an update that is not held back and yet does nothing waits for a request that is out, for events
      that are being delivered or for a file to be written. */
  lemma DownloadWaitsForSomething(plan: Plan, c: Config, window: nat, actions: seq<GetAction>)
    requires PlanOk(plan) && window < U64 && IsGetRun(plan, c, Start(window), actions)
    ensures var g := AfterGet(plan, c, Start(window), actions);
            !g.finished && Update(plan, c, g, false) == g ==>
              g.discovery.Out? || g.inFlight != {} || EventsOut(g.m) || g.m.writes != {}
  {
    var g := AfterGet(plan, c, Start(window), actions);
    StartInv(plan, window);
    InitCounted(window);
    GetRunInv(plan, c, Start(window), actions);
    RunGetInStep(plan, c, Start(window), actions);
    hide AfterGet, IsGetRun;
    if !g.finished && Update(plan, c, g, false) == g && g.discovery.NotOut? && g.inFlight == {} && !EventsOut(g.m) &&
       g.m.writes == {}
    {
      Unmoved(plan, c, g);
      QuietIsIdle(plan, g);
      assert false;
    }
  }

  lemma Unmoved(plan: Plan, c: Config, g: Get)
    requires GetSafety.Inv(plan, g) && !g.finished && Update(plan, c, g, false) == g && g.discovery.NotOut?
    ensures (!g.m.failed ==> g.known && g.requested >= g.total) && (!Idle(g) || EventsOut(g.m))
  {
    hide Delivering, Requesting, Next, MaskFull;
  }
}
