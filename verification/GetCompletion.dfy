/** A download that nothing has failed for can be completed from wherever it is. */
module GetCompletion {
  import opened Arithmetic
  import opened Numbering
  import opened ObjectParts
  import opened Delivery
  import opened DeliveryLog
  import opened DeliverySafety
  import opened DeliveryRuns
  import opened DeliveryTheorems
  import opened DeliveryCounts
  import opened DeliveryFaults
  import opened AutoRangedGet
  import opened GetSafety
  import opened GetSteps
  import opened GetRuns
  import opened GetProgress
  import opened GetPolicy

  /** What holds in every state of a run in which nothing has failed. */
  ghost predicate Good(plan: Plan, g: Get) {
    GetSafety.Inv(plan, g) && InStep(plan, g.m) && Fine(plan, g.m) && Exact(plan, g.m)
  }

  lemma StartGood(plan: Plan, window: nat)
    requires PlanOk(plan) && window < U64
    ensures Good(plan, Start(window))
  {
    StartInv(plan, window);
    InitInv(plan, window);
    InitCounted(window);
  }

  lemma PartWindow(plan: Plan, g: Get, p: nat, progress: bool)
    ensures var m := PartFinished(plan, g, p, true, progress).m; m.log == g.m.log && m.ioCompleted == g.m.ioCompleted
  {
    hide CountPart;
    CountWindow(plan, g, p, true, progress);
  }

  lemma SameExact(plan: Plan, m: Meta, r: Meta)
    requires Exact(plan, m) && r.log == m.log && r.ioCompleted == m.ioCompleted
    ensures Exact(plan, r)
  {
  }

  /** Unless something fails, a step keeps everything in good order. */
  lemma GoodStep(plan: Plan, c: Config, g: Get, a: GetAction)
    requires PlanOk(plan) && Joins(plan) && Good(plan, g) && CanStep(plan, c, g, a) && !GetFault(plan, c, g, a)
    requires a.DoUpdate? ==> !NextGet(plan, c, g, a).finished
    ensures Good(plan, NextGet(plan, c, g, a))
  {
    hide GetSafety.Inv, InStep, Fine, Exact, Update, DiscoveryFinished, PartFinished, DeliveryRuns.Step, Fault, ReplyOk;
    FineNotFailed(plan, g.m);
    NextInv(plan, c, g, a);
    NextInStep(plan, c, g, a);
    EngineInv(plan, g);
    match a
    case DoUpdate(hold) => UpdateKeeps(plan, c, g, hold);
    case EndDiscovery(r) =>
      ReplyFaults(plan, c, g, r);
      ReplyWindow(plan, c, g, r);
      SameExact(plan, g.m, DiscoveryFinished(plan, c, g, r).m);
    case EndPart(p, ok, progress) =>
      PartFaults(plan, c, g, p, ok, progress);
      PartWindow(plan, g, p, progress);
      SameExact(plan, g.m, PartFinished(plan, g, p, true, progress).m);
    case Deliver(d) =>
      DeliverFaults(plan, c, g, d);
      StepExact(plan, g.m, d);
  }

  lemma FineNotFailed(plan: Plan, m: Meta)
    requires Fine(plan, m)
    ensures !m.failed && Healthy(m) && Live(plan, m)
  {
  }

  lemma UpdateKeeps(plan: Plan, c: Config, g: Get, hold: bool)
    requires !g.finished && !Update(plan, c, g, hold).finished
    ensures Update(plan, c, g, hold).m == g.m
  {
    hide SendDiscovery, SendPart, Idle;
    SendFrame(c, g);
  }

  // ----- The last tick -----

  /** Every request is over; what is left is in the event array. */
  ghost predicate Fetched(plan: Plan, g: Get) {
    && Good(plan, g) && !g.finished && g.discovery.NotOut? && g.known && g.inFlight == {} && g.requested >= g.total
    && !g.m.active && g.m.writes == {}
  }

  lemma FetchedFacts(plan: Plan, g: Get)
    requires Downloadable(plan) && Fetched(plan, g)
    ensures Quiet(plan, g) && Settled(plan, g.m) && AllRequested(plan, g)
    ensures g.m.arrived == Parts(|plan.parts|) && g.m.sent == |plan.parts| && |Bytes(g.m.log)| <= |Content(plan.parts)|
  {
    EngineInv(plan, g);
    RequestedInRange(plan, g);
    NothingLost(g, plan);
    hide GetSafety.Inv, DeliveryRuns.Inv, InStep, Exact, Live;
    ArrivedAll(plan, g);
    AllSent(plan, g.m);
    hide Content, Bytes;
    DeliveredWithin(plan, g.m);
  }

  lemma NothingLost(g: Get, plan: Plan)
    requires GetSafety.Inv(plan, g) && !g.m.failed
    ensures g.lost == {}
  {
    hide Delivering, Requesting;
  }

  lemma DeliveredWithin(plan: Plan, m: Meta)
    requires DeliveryRuns.Inv(plan, m) && Live(plan, m) && !m.active && m.arrived == Parts(|plan.parts|)
    requires m.pending == {} && m.writes == {}
    ensures |Bytes(m.log)| <= |Content(plan.parts)|
  {
    hide Live;
    QueuedIsUndelivered(plan, m);
  }

  /** The window can be opened far enough for what is left. */
  lemma OpenedEnough(plan: Plan, m: Meta)
    requires Settled(plan, m) && Exact(plan, m) && |Bytes(m.log)| <= |Content(plan.parts)|
    requires plan.windowed ==> |Content(plan.parts)| < U64
    ensures var r := Opened(plan, m);
            && Settled(plan, r) && r.arrived == m.arrived && r.writes == m.writes && r.sent == m.sent
            && (m.events != [] ==> r.scheduled)
            && (plan.windowed ==> |Content(plan.parts)| - |Bytes(r.log)| <= r.window - r.ioCompleted)
  {
    hide DeliveryRuns.Inv, Live, InStep, Content, Bytes;
    OpenWindowInv(plan, m, |Content(plan.parts)| + 1);
    StepInStep(plan, m, Window(|Content(plan.parts)| + 1));
    WindowBound(plan, m);
  }

  lemma WindowBound(plan: Plan, m: Meta)
    requires DeliveryRuns.Inv(plan, m)
    ensures m.window < U64 && (plan.windowed ==> m.ioCompleted <= m.window)
  {
    hide Live, Dead, Queues, LogTruth;
  }

  lemma NothingLeft(plan: Plan, c: Config, g: Get)
    requires Downloadable(plan) && Fetched(plan, g) && g.m.events == []
    ensures CanFinish(plan, c, g)
  {
    FetchedFacts(plan, g);
    EngineInv(plan, g);
    FineNotFailed(plan, g.m);
    NothingQueued(plan, g.m);
    hide Good, CanFinish, Quiet, Fetched, Settled;
    FinishDelivered(plan, c, g);
  }

  lemma OpenedFinishes(plan: Plan, c: Config, g: Get)
    requires Downloadable(plan) && Quiet(plan, g) && Settled(plan, g.m) && AllRequested(plan, g) && Exact(plan, g.m)
    requires g.m.arrived == Parts(|plan.parts|) && g.m.sent == |plan.parts| && |Bytes(g.m.log)| <= |Content(plan.parts)|
    requires g.m.writes == {} && g.m.events != []
    ensures CanFinish(plan, c, g.(m := Opened(plan, g.m)))
  {
    hide Quiet, Settled, Exact, Content, Bytes, Opened, CanFinish, PlanOk;
    OpenedEnough(plan, g.m);
    OpenedQuiet(plan, g);
    TickFinishes(plan, c, g.(m := Opened(plan, g.m)));
  }

  lemma SomeLeft(plan: Plan, c: Config, g: Get)
    requires Downloadable(plan) && Fetched(plan, g) && g.m.events != []
    ensures CanFinish(plan, c, g)
  {
    hide Fetched, Quiet, Settled, Exact, Content, Bytes, Opened, CanFinish, Downloadable, CanStep, NextGet,
         AllRequested;
    FetchedFacts(plan, g);
    FetchedExact(plan, g);
    OpenedFinishes(plan, c, g);
    OpenStep(plan, c, g);
    StepToFinish(plan, c, g, Deliver(Window(|Content(plan.parts)| + 1)));
  }

  lemma FetchedExact(plan: Plan, g: Get)
    requires Fetched(plan, g)
    ensures Exact(plan, g.m) && g.m.writes == {} && !g.finished
  {
  }

  // ----- Getting there -----

  function Unknown(g: Get): nat {
    if g.known then 0 else if g.discovery.Out? then 1 else 2
  }

  function Unrequested(g: Get): nat {
    if g.requested < g.total then g.total - g.requested else 0
  }

  function Active(m: Meta): nat {
    if m.active then 1 else 0
  }

  /** Of two states of a download, the second has less left to do. */
  predicate Less(g: Get, h: Get) {
    || Unknown(h) < Unknown(g)
    || (&& Unknown(h) == Unknown(g)
        && (|| Unrequested(h) < Unrequested(g)
            || (&& Unrequested(h) == Unrequested(g)
                && (|| |h.inFlight| < |g.inFlight|
                    || (&& h.inFlight == g.inFlight
                        && (|| Active(h.m) < Active(g.m)
                            || (h.m.active == g.m.active && |h.m.writes| < |g.m.writes|)))))))
  }

  /** A step on which all goes well. */
  ghost predicate Well(plan: Plan, c: Config, g: Get, a: GetAction) {
    && CanStep(plan, c, g, a) && !GetFault(plan, c, g, a)
    && !NextGet(plan, c, g, a).finished && Less(g, NextGet(plan, c, g, a))
  }

  lemma RequestStep(plan: Plan, c: Config, g: Get) returns (a: GetAction)
    requires Downloadable(plan) && (plan.total >= 1 || g.known) && Good(plan, g) && !g.finished
    requires g.discovery.Out? || !g.known || g.inFlight != {} || g.requested < g.total
    ensures Well(plan, c, g, a)
  {
    hide Well, GetSafety.Inv, InStep, Exact;
    FineNotFailed(plan, g.m);
    OutUnknown(plan, g);
    if g.discovery.Out? {
      a := EndDiscovery(FOUND);
      FoundStep(plan, c, g);
    } else if !g.known {
      a := DoUpdate(false);
      DiscoverStep(plan, c, g);
    } else if g.inFlight != {} {
      var p :| p in g.inFlight;
      a := EndPart(p, true, false);
      ArriveStep(plan, c, g, p);
    } else {
      a := DoUpdate(false);
      AskStep(plan, c, g);
    }
  }

  lemma OutUnknown(plan: Plan, g: Get)
    requires GetSafety.Inv(plan, g)
    ensures g.discovery.Out? ==> !g.known
  {
  }

  lemma DiscoverStep(plan: Plan, c: Config, g: Get)
    requires GetSafety.Inv(plan, g) && !g.finished && !g.m.failed && g.discovery.NotOut? && !g.known
    ensures Well(plan, c, g, DoUpdate(false))
  {
    hide Delivering, Requesting, Tally;
  }

  lemma ArriveStep(plan: Plan, c: Config, g: Get, p: nat)
    requires !g.finished && g.known && p in g.inFlight
    ensures Well(plan, c, g, EndPart(p, true, false))
  {
    hide Stream;
  }

  lemma AskStep(plan: Plan, c: Config, g: Get)
    requires !g.finished && !g.m.failed && g.known && g.requested < g.total
    ensures Well(plan, c, g, DoUpdate(false))
  {
    hide PartSpread.Next;
  }

  const FOUND := Reply(true, false, false, false, false, false, false)

  lemma FoundStep(plan: Plan, c: Config, g: Get)
    requires Downloadable(plan) && plan.total >= 1 && GetSafety.Inv(plan, g) && !g.finished && g.discovery.Out?
    ensures Well(plan, c, g, EndDiscovery(FOUND))
  {
    hide Delivering, Requesting, Stream, PartSpread.Init;
  }

  lemma DeliveryStep(plan: Plan, c: Config, g: Get) returns (a: GetAction)
    requires Downloadable(plan) && Good(plan, g) && !g.finished && (g.m.active || g.m.writes != {})
    ensures Well(plan, c, g, a)
  {
    EngineInv(plan, g);
    hide GetSafety.Inv, Good, DeliveryRuns.Inv, Well;
    if g.m.active {
      var accepted := (j: nat) => true;
      a := Deliver(EndTick(accepted));
      TickIsOver(plan, g.m, accepted);
      EngineStep(plan, c, g, EndTick(accepted));
    } else {
      var p :| p in g.m.writes;
      a := Deliver(Written(p, true, false));
      WriteIsOver(plan, g.m, p);
      EngineStep(plan, c, g, Written(p, true, false));
    }
  }

  lemma EngineStep(plan: Plan, c: Config, g: Get, d: Action)
    requires !g.finished && !d.Arrive? && DeliveryRuns.Enabled(plan, g.m, d) && !Fault(plan, g.m, d)
    requires var m := DeliveryRuns.Step(plan, g.m, d);
             (g.m.active && !m.active) || (m.active == g.m.active && |m.writes| < |g.m.writes|)
    ensures Well(plan, c, g, Deliver(d))
  {
    hide DeliveryRuns.Step, DeliveryRuns.Enabled, Fault;
  }

  lemma TickIsOver(plan: Plan, m: Meta, accepted: nat -> bool)
    requires DeliveryRuns.Inv(plan, m) && m.active && forall j :: accepted(j)
    ensures DeliveryRuns.Enabled(plan, m, EndTick(accepted)) && !Fault(plan, m, EndTick(accepted))
    ensures !DeliveryRuns.Step(plan, m, EndTick(accepted)).active
  {
    hide Live, Dead, WindowOk, LogTruth, RunTick;
    EndTickInv(plan, m, accepted);
    CloseClosed(plan, m, RunTick(plan, m, accepted));
  }

  lemma WriteIsOver(plan: Plan, m: Meta, p: nat)
    requires DeliveryRuns.Inv(plan, m) && p in m.writes
    ensures DeliveryRuns.Enabled(plan, m, Written(p, true, false)) && !Fault(plan, m, Written(p, true, false))
    ensures var r := DeliveryRuns.Step(plan, m, Written(p, true, false));
            r.active == m.active && r.writes == m.writes - {p}
  {
    hide Live, Dead, WindowOk, LogTruth, WriteFinished;
    WritesInRange(plan, m, p);
    WrittenFrame(plan, m, p);
  }

  lemma {:induction false} GoodCanFinish(plan: Plan, c: Config, g: Get)
    requires Downloadable(plan) && (plan.total >= 1 || g.known) && Good(plan, g) && !g.finished
    ensures CanFinish(plan, c, g)
    decreases Unknown(g), Unrequested(g), |g.inFlight|, Active(g.m), |g.m.writes|
  {
    hide Good, CanFinish, CanStep, NextGet, GetFault, PlanOk, Joins, Content;
    if Fetched(plan, g) {
      hide Fetched;
      if g.m.events == [] {
        NothingLeft(plan, c, g);
      } else {
        SomeLeft(plan, c, g);
      }
    } else {
      var a: GetAction;
      if g.discovery.Out? || !g.known || g.inFlight != {} || g.requested < g.total {
        a := RequestStep(plan, c, g);
      } else {
        a := DeliveryStep(plan, c, g);
      }
      GoodStep(plan, c, g, a);
      GoodCanFinish(plan, c, NextGet(plan, c, g, a));
      StepToFinish(plan, c, g, a);
    }
  }

  lemma {:induction false} GoodRun(plan: Plan, c: Config, g: Get, actions: seq<GetAction>)
    requires PlanOk(plan) && Joins(plan) && Good(plan, g) && IsGetRun(plan, c, g, actions)
    requires !GetFaulty(plan, c, g, actions) && !AfterGet(plan, c, g, actions).finished
    ensures Good(plan, AfterGet(plan, c, g, actions))
    decreases |actions|
  {
    hide Good, CanStep, NextGet, GetFault;
    if actions != [] {
      var h := NextGet(plan, c, g, actions[0]);
      if h.finished {
        NothingMore(plan, c, h, actions[1..]);
      }
      GoodStep(plan, c, g, actions[0]);
      GoodRun(plan, c, h, actions[1..]);
    }
  }

  // ----- The theorems -----

  /** After any run in which nothing has failed a download, if its object has any bytes or is known, can be carried
      through: there is a way to go on that delivers every part and finishes, as a success exactly up to 2^32 - 8
      parts. */
  lemma DownloadCanGoOn(plan: Plan, c: Config, window: nat, actions: seq<GetAction>)
    requires Downloadable(plan) && window < U64 && IsGetRun(plan, c, Start(window), actions)
    requires !GetFaulty(plan, c, Start(window), actions) && !AfterGet(plan, c, Start(window), actions).finished
    requires plan.total >= 1 || AfterGet(plan, c, Start(window), actions).known
    ensures CanFinish(plan, c, AfterGet(plan, c, Start(window), actions))
  {
    hide Good, CanFinish, IsGetRun, AfterGet, GetFaulty;
    StartGood(plan, window);
    GoodRun(plan, c, Start(window), actions);
    GoodCanFinish(plan, c, AfterGet(plan, c, Start(window), actions));
  }

  /** In particular from the start, in any delivery mode. */
  lemma DownloadCanFinish(plan: Plan, c: Config, window: nat)
    requires Downloadable(plan) && plan.total >= 1 && window < U64
    ensures CanFinish(plan, c, Start(window))
  {
    hide Good, CanFinish;
    StartGood(plan, window);
    GoodCanFinish(plan, c, Start(window));
  }

  // ----- Discovering again -----

  lemma {:induction false} ConsRun(plan: Plan, c: Config, g: Get, a: GetAction, rest: seq<GetAction>)
    requires CanStep(plan, c, g, a) && IsGetRun(plan, c, NextGet(plan, c, g, a), rest)
    ensures IsGetRun(plan, c, g, [a] + rest)
    ensures AfterGet(plan, c, g, [a] + rest) == AfterGet(plan, c, NextGet(plan, c, g, a), rest)
  {
    hide CanStep, NextGet;
    assert ([a] + rest)[0] == a && ([a] + rest)[1..] == rest;
  }

  /** Two steps make a run. */
  lemma TwoSteps(plan: Plan, c: Config, g: Get, a: GetAction, b: GetAction)
    requires CanStep(plan, c, g, a) && CanStep(plan, c, NextGet(plan, c, g, a), b)
    ensures IsGetRun(plan, c, g, [a, b])
    ensures AfterGet(plan, c, g, [a, b]) == NextGet(plan, c, NextGet(plan, c, g, a), b)
  {
    hide CanStep, NextGet;
    var none: seq<GetAction> := [];
    ConsRun(plan, c, NextGet(plan, c, g, a), b, none);
    ConsRun(plan, c, g, a, [b] + none);
    assert [a] + ([b] + none) == [a, b];
  }

  lemma {:induction false} RunThenRun(plan: Plan, c: Config, g: Get, first: seq<GetAction>, next: seq<GetAction>)
    requires IsGetRun(plan, c, g, first) && IsGetRun(plan, c, AfterGet(plan, c, g, first), next)
    ensures IsGetRun(plan, c, g, first + next)
    ensures AfterGet(plan, c, g, first + next) == AfterGet(plan, c, AfterGet(plan, c, g, first), next)
    decreases |first|
  {
    hide CanStep, NextGet;
    if first == [] {
      assert first + next == next;
    } else {
      RunThenRun(plan, c, NextGet(plan, c, g, first[0]), first[1..], next);
      ConsRun(plan, c, g, first[0], first[1..] + next);
      assert [first[0]] + (first[1..] + next) == first + next;
    }
  }

  /** The ranged request failed because the object is empty. */
  const EMPTY_FILE := Reply(true, true, false, true, true, false, false)

  /** The object was found, and is empty. */
  const FOUND_EMPTY := Reply(true, false, false, false, true, false, false)

  /** The object was found, but its first part did not fit the buffer made for the hint. */
  const MISFIT := Reply(true, true, true, false, false, false, false)

  /** A discovery whose reply is not an error: the request goes out and the reply comes in. */
  lemma Exchange(plan: Plan, c: Config, g: Get, r: Reply)
    requires PlanOk(plan) && Joins(plan) && Good(plan, g) && !g.finished && !g.known && g.discovery.NotOut?
    requires ReplyOk(plan, c, DiscoverBy(c, g.empty), r) && !r.error
    ensures var begun := [DoUpdate(false), EndDiscovery(r)];
            && IsGetRun(plan, c, g, begun) && Good(plan, AfterGet(plan, c, g, begun))
            && AfterGet(plan, c, g, begun) == DiscoveryFinished(plan, c, SendDiscovery(c, g), r)
            && !AfterGet(plan, c, g, begun).finished
  {
    FineNotFailed(plan, g.m);
    SendStep(plan, c, g);
    var g1 := SendDiscovery(c, g);
    assert g1.discovery == Out(DiscoverBy(c, g.empty));
    hide Good, DiscoverBy, SendDiscovery, DiscoveryFinished, Update, ReplyOk;
    GoodStep(plan, c, g, DoUpdate(false));
    ReplyStep(plan, c, g1, r);
    GoodStep(plan, c, g1, EndDiscovery(r));
    TwoSteps(plan, c, g, DoUpdate(false), EndDiscovery(r));
  }

  lemma SendStep(plan: Plan, c: Config, g: Get)
    requires GetSafety.Inv(plan, g) && !g.finished && !g.known && g.discovery.NotOut? && !g.m.failed
    ensures var g1 := SendDiscovery(c, g);
            && CanStep(plan, c, g, DoUpdate(false)) && NextGet(plan, c, g, DoUpdate(false)) == g1
            && !GetFault(plan, c, g, DoUpdate(false)) && !g1.finished
  {
    hide Delivering, Requesting, Tally;
  }

  lemma ReplyStep(plan: Plan, c: Config, g: Get, r: Reply)
    requires !g.finished && g.discovery.Out? && ReplyOk(plan, c, g.discovery.kind, r) && !r.error
    ensures CanStep(plan, c, g, EndDiscovery(r)) && !GetFault(plan, c, g, EndDiscovery(r))
    ensures NextGet(plan, c, g, EndDiscovery(r)) == DiscoveryFinished(plan, c, g, r)
    ensures !DiscoveryFinished(plan, c, g, r).finished
  {
    hide CountDiscovery, RecordDiscovery, PartSpread.Init, ReplyOk;
    RecordFrame(plan, g.(discovery := NotOut), r);
    CountedUnfinished(plan, RecordDiscovery(plan, g.(discovery := NotOut), r), g.discovery.kind, r);
  }

  lemma CountedUnfinished(plan: Plan, g: Get, kind: Kind, r: Reply)
    ensures CountDiscovery(plan, g, kind, r).finished == g.finished
  {
    hide Stream;
  }

  /** The download of an empty object that begins with a ranged request. That request fails, and the object is asked for
      again; the second request can find the object as it is, and the download then finishes without failure. */
  lemma EmptyObjectFoundAgain(plan: Plan, c: Config, window: nat)
    requires Downloadable(plan) && plan.total == 0 && |plan.parts| == 1 && window < U64
    requires !c.hasRange && Due(c, Range, false)
    ensures var begun := [DoUpdate(false), EndDiscovery(EMPTY_FILE)] + [DoUpdate(false), EndDiscovery(FOUND_EMPTY)];
            && IsGetRun(plan, c, Start(window), begun)
            && CanFinish(plan, c, AfterGet(plan, c, Start(window), begun))
  {
    var g0 := Start(window);
    var g2 := g0.(empty := true);
    StartGood(plan, window);
    Exchange(plan, c, g0, EMPTY_FILE);
    EmptyAgain(plan, c, window);
    hide Good;
    Exchange(plan, c, g2, FOUND_EMPTY);
    FoundKnown(plan, c, g2, FOUND_EMPTY);
    hide IsGetRun, AfterGet, CanFinish, SendDiscovery, DiscoveryFinished, Start;
    RunThenRun(plan, c, g0, [DoUpdate(false), EndDiscovery(EMPTY_FILE)], [DoUpdate(false), EndDiscovery(FOUND_EMPTY)]);
    GoodCanFinish(plan, c, AfterGet(plan, c, g2, [DoUpdate(false), EndDiscovery(FOUND_EMPTY)]));
  }

  lemma EmptyAgain(plan: Plan, c: Config, window: nat)
    requires !c.hasRange && !c.hintFits && !c.needsHead
    ensures DiscoveryFinished(plan, c, SendDiscovery(c, Start(window)), EMPTY_FILE) == Start(window).(empty := true)
  {
    hide PartSpread.Init;
  }

  lemma FoundKnown(plan: Plan, c: Config, g: Get, r: Reply)
    requires r.found && !r.emptyFile
    ensures DiscoveryFinished(plan, c, SendDiscovery(c, g), r).known
  {
    hide CountDiscovery, PartSpread.Init;
    var g1 := SendDiscovery(c, g);
    CountedFrame(plan, RecordDiscovery(plan, g1.(discovery := NotOut), r), g1.discovery.kind, r);
  }

  /** By HEAD an empty object is found to have no parts, and by part number, which a size hint calls for, one that is
      empty. */
  lemma EmptyObjectFound(plan: Plan, c: Config, window: nat)
    requires Downloadable(plan) && plan.total == 0 && window < U64 && !Due(c, Range, false)
    requires |plan.parts| == if Due(c, Head, false) then 0 else 1
    ensures var begun := [DoUpdate(false), EndDiscovery(FOUND_EMPTY)];
            IsGetRun(plan, c, Start(window), begun) && CanFinish(plan, c, AfterGet(plan, c, Start(window), begun))
  {
    StartGood(plan, window);
    hide Good;
    Exchange(plan, c, Start(window), FOUND_EMPTY);
    FoundKnown(plan, c, Start(window), FOUND_EMPTY);
    hide IsGetRun, AfterGet, CanFinish, SendDiscovery, DiscoveryFinished;
    GoodCanFinish(plan, c, AfterGet(plan, c, Start(window), [DoUpdate(false), EndDiscovery(FOUND_EMPTY)]));
  }

  /** A size hint that turns out too small costs the first request, and the download goes on to the end: every part is
      asked for, the first one again. */
  lemma WrongHintCanFinish(plan: Plan, c: Config, window: nat)
    requires Downloadable(plan) && plan.total >= 1 && window < U64 && !c.hasRange && c.hintFits
    ensures var begun := [DoUpdate(false), EndDiscovery(MISFIT)];
            && IsGetRun(plan, c, Start(window), begun)
            && var g := AfterGet(plan, c, Start(window), begun);
            && g.requested == 0 && CanFinish(plan, c, g)
  {
    StartGood(plan, window);
    hide Good;
    Exchange(plan, c, Start(window), MISFIT);
    assert DiscoveryFinished(plan, c, SendDiscovery(c, Start(window)), MISFIT).requested == 0;
    hide IsGetRun, AfterGet, CanFinish, SendDiscovery, DiscoveryFinished;
    GoodCanFinish(plan, c, AfterGet(plan, c, Start(window), [DoUpdate(false), EndDiscovery(MISFIT)]));
  }

  /** One byte to a part. */
  function BytePerPart(n: nat): Plan {
    Plan(seq(n, i requires 0 <= i < n => Part(i, i, [0])), n, false, false, false)
  }

  /** 2^32 - 7 parts are too many: such a download delivers every part and then reports failure. */
  lemma LongDownloadFails(c: Config, window: nat)
    requires window < U64
    ensures var plan := BytePerPart(U32 - 7);
            exists actions ::
              && IsGetRun(plan, c, Start(window), actions)
              && var g := AfterGet(plan, c, Start(window), actions);
              && g.finished && g.m.marked == Parts(|plan.parts|) && g.m.failed
  {
    var plan := BytePerPart(U32 - 7);
    DownloadCanFinish(plan, c, window);
    var actions :| && IsGetRun(plan, c, Start(window), actions)
                   && DeliveredAndFinished(plan, AfterGet(plan, c, Start(window), actions));
  }
}
