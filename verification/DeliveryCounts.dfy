/** Arrivals are counted exactly, in every run: what was sent for delivery and what waits in the ordered queue
    together are what arrived, and nothing that could be sent is left waiting. */
module DeliveryCounts {
  import opened Numbering
  import opened ObjectParts
  import opened PrefixTracker
  import opened Delivery
  import opened DeliveryLog
  import opened DeliverySafety
  import opened DeliveryLoop
  import opened DeliveryRuns
  import opened DeliveryTheorems

  ghost predicate Waiting(m: Meta) {
    m.sent + |m.pending| == |m.arrived| && m.pending <= m.arrived
  }

  ghost predicate Counted(m: Meta) {
    Waiting(m) && !TopIs(m.pending, m.nextPart)
  }

  /** In order, the parts that left the queue are the first ones. */
  ghost predicate InTurn(m: Meta) {
    m.nextPart >= 1 && m.arrived - m.pending == Parts(m.nextPart - 1)
  }

  lemma PopOneWaiting(m: Meta)
    requires Waiting(m) && m.nextPart in m.pending
    ensures Waiting(PopOne(m))
  {
  }

  lemma {:induction false} PopReadyCounted(m: Meta)
    requires Waiting(m)
    ensures Counted(PopReady(m)) && PopReady(m).arrived == m.arrived && PopReady(m).completed == m.completed
    decreases |m.pending|
  {
    hide Waiting;
    if TopIs(m.pending, m.nextPart) {
      PopOneWaiting(m);
      PopReadyCounted(PopOne(m));
    }
  }

  lemma {:induction false} PopReadyInTurn(m: Meta)
    requires Waiting(m) && InTurn(m)
    ensures InTurn(PopReady(m))
    decreases |m.pending|
  {
    if TopIs(m.pending, m.nextPart) {
      PopOneWaiting(m);
      PopOneInTurn(m);
      hide Waiting, InTurn;
      PopReadyInTurn(PopOne(m));
    }
  }

  lemma PopOneInTurn(m: Meta)
    requires InTurn(m) && m.nextPart in m.pending && m.pending <= m.arrived
    ensures InTurn(PopOne(m))
  {
    NextInTurn(m.arrived, m.pending, m.nextPart);
  }

  lemma NextInTurn(arrived: set<nat>, pending: set<nat>, k: nat)
    requires k >= 1 && arrived - pending == Parts(k - 1) && k in pending && pending <= arrived
    ensures arrived - (pending - {k}) == Parts(k)
  {
    assert arrived - (pending - {k}) == (arrived - pending) + {k};
  }

  lemma ArriveSets(m: Meta, p: nat)
    requires Waiting(m) && p !in m.arrived
    ensures var n := m.(arrived := m.arrived + {p}, pending := m.pending + {p});
            Waiting(n) && n.arrived - n.pending == m.arrived - m.pending
  {
  }

  lemma ArriveCounted(plan: Plan, m: Meta, p: nat)
    requires Counted(m) && p !in m.arrived && (plan.outOfOrder ==> m.pending == {})
    ensures Counted(Stream(plan, m, p)) && Stream(plan, m, p).arrived == m.arrived + {p}
    ensures Stream(plan, m, p).completed == m.completed
  {
    hide PopReady;
    if !plan.outOfOrder {
      ArriveSets(m, p);
      PopReadyCounted(m.(arrived := m.arrived + {p}, pending := m.pending + {p}));
    }
  }

  lemma ArriveInTurn(plan: Plan, m: Meta, p: nat)
    requires Counted(m) && p !in m.arrived && !plan.outOfOrder && InTurn(m)
    ensures InTurn(Stream(plan, m, p))
  {
    hide PopReady, Parts;
    ArriveSets(m, p);
    PopReadyInTurn(m.(arrived := m.arrived + {p}, pending := m.pending + {p}));
  }

  ghost predicate SameCounts(m: Meta, r: Meta) {
    r.sent == m.sent && r.pending == m.pending && r.arrived == m.arrived && r.nextPart == m.nextPart
  }

  lemma WrittenSameCounts(plan: Plan, m: Meta, p: nat, ok: bool, telemetry: bool)
    requires 1 <= p <= |plan.parts|
    ensures SameCounts(m, WriteFinished(plan, m, p, ok, telemetry))
  {
    hide MarkCompleted;
    if ok {
      MarkFrame(plan, Leave(plan, m, p), [Completed(p, |PartBody(plan, p)|)]);
    }
  }

  lemma EndTickSameCounts(plan: Plan, m: Meta, accepted: nat -> bool)
    requires EventsOk(plan, m.batch)
    ensures var t := RunTick(plan, m, accepted); DoneOk(plan, t.done) && SameCounts(m, Close(plan, m, t))
  {
    hide RunTick, Close;
    RunTickResult(plan, m, accepted);
    CloseClosed(plan, m, RunTick(plan, m, accepted));
  }

  /** Everything but an arrival leaves the counts alone. */
  lemma OtherCounted(plan: Plan, m: Meta, a: Action)
    requires Counted(m) && Enabled(plan, m, a) && !a.Arrive?
    ensures Counted(Step(plan, m, a)) && Step(plan, m, a).arrived == m.arrived
    ensures InTurn(m) ==> InTurn(Step(plan, m, a))
  {
    hide Close, RunTick, WriteFinished, TopIs, EventsOk;
    assert SameCounts(m, Step(plan, m, a)) by {
      match a
      case Written(p, ok, telemetry) => WrittenSameCounts(plan, m, p, ok, telemetry);
      case EndTick(accepted) => EndTickSameCounts(plan, m, accepted);
      case _ =>
    }
  }

  lemma InitCounted(window: nat)
    ensures Counted(Init(window)) && InTurn(Init(window))
  {
  }

  // ----- Progress -----

  /** The arrivals of a run, in every reachable state. */
  ghost predicate InStep(plan: Plan, m: Meta) {
    Counted(m) && (plan.outOfOrder || InTurn(m))
  }

  lemma {:induction false} RunInStep(plan: Plan, m: Meta, actions: seq<Action>)
    requires Inv(plan, m) && InStep(plan, m) && IsRun(plan, m, actions)
    ensures InStep(plan, After(plan, m, actions))
    decreases |actions|
  {
    hide Inv, InStep, Step, Enabled;
    if actions != [] {
      StepInStep(plan, m, actions[0]);
      StepInv(plan, m, actions[0]);
      RunInStep(plan, Step(plan, m, actions[0]), actions[1..]);
    }
  }

  lemma StepInStep(plan: Plan, m: Meta, a: Action)
    requires Inv(plan, m) && InStep(plan, m) && Enabled(plan, m, a)
    ensures InStep(plan, Step(plan, m, a))
  {
    NoPendingOutOfOrder(plan, m);
    hide Inv, Counted, InTurn;
    match a
    case Arrive(p) =>
      ArriveCounted(plan, m, p);
      if !plan.outOfOrder {
        ArriveInTurn(plan, m, p);
      }
    case _ => OtherCounted(plan, m, a);
  }

  lemma NoPendingOutOfOrder(plan: Plan, m: Meta)
    requires Inv(plan, m)
    ensures plan.outOfOrder ==> m.pending == {}
    ensures forall p :: p in m.arrived ==> 1 <= p <= |plan.parts|
    ensures m.completed <= m.sent
  {
    hide WindowOk, NoLostWakeup, LogTruth, Live, Dead;
  }

  lemma NextWaits(m: Meta, n: nat)
    requires Waiting(m) && InTurn(m) && m.arrived == Parts(n) && m.pending != {}
    ensures TopIs(m.pending, m.nextPart)
  {
    forall q | q in m.pending ensures m.nextPart <= q {
      assert q !in m.arrived - m.pending;
    }
    var p :| p in m.pending;
    assert m.nextPart in Parts(n);
    assert m.nextPart !in m.arrived - m.pending;
  }

  /** Once every part has arrived none waits in the ordered queue. */
  lemma NothingHeldBack(m: Meta, n: nat)
    requires Counted(m) && InTurn(m) && m.arrived == Parts(n)
    ensures m.pending == {} && m.sent == n
  {
    if m.pending != {} {
      NextWaits(m, n);
    }
  }

  // ----- What is left to deliver -----

  /** Bytes the sink received of the first `n` parts. */
  ghost function SentOf(log: seq<Chunk>, n: nat): nat {
    if n == 0 then 0 else SentOf(log, n - 1) + Sent(log, n)
  }

  /** Bytes of the first `n` parts not received yet, among the parts in `s`. */
  ghost function LeftOf(plan: Plan, log: seq<Chunk>, s: set<nat>, n: nat): int
    requires n <= |plan.parts|
  {
    if n == 0 then 0 else LeftOf(plan, log, s, n - 1) + if n in s then |PartBody(plan, n)| - Sent(log, n) else 0
  }

  lemma {:induction false} SentOfStep(log: seq<Chunk>, c: Chunk, n: nat)
    ensures SentOf(log + [c], n) == SentOf(log, n) + if 1 <= c.part <= n then |c.data| else 0
  {
    if n > 0 {
      SentOfStep(log, c, n - 1);
      LogStep(log, c, n);
    }
  }

  lemma {:induction false} SentOfNone(n: nat)
    ensures SentOf([], n) == 0
  {
    if n > 0 {
      SentOfNone(n - 1);
    }
  }

  /** Every byte received is a byte of some part. */
  lemma {:induction false} SentOfAll(plan: Plan, log: seq<Chunk>)
    requires LogOk(plan, log)
    ensures SentOf(log, |plan.parts|) == |Bytes(log)|
  {
    if log == [] {
      SentOfNone(|plan.parts|);
    } else {
      var before, c := log[..|log| - 1], log[|log| - 1];
      assert log == before + [c];
      SentOfAll(plan, before);
      SentOfStep(before, c, |plan.parts|);
    }
  }

  lemma {:induction false} LeftOfAdd(plan: Plan, log: seq<Chunk>, s: set<nat>, p: nat, n: nat)
    requires n <= |plan.parts| && 1 <= p <= |plan.parts| && p !in s
    ensures LeftOf(plan, log, {p} + s, n) ==
            LeftOf(plan, log, s, n) + if p <= n then |PartBody(plan, p)| - Sent(log, p) else 0
  {
    if n > 0 {
      LeftOfAdd(plan, log, s, p, n - 1);
    }
  }

  lemma {:induction false} LeftOfNone(plan: Plan, log: seq<Chunk>, n: nat)
    requires n <= |plan.parts|
    ensures LeftOf(plan, log, {}, n) == 0
  {
    if n > 0 {
      LeftOfNone(plan, log, n - 1);
    }
  }

  /** The queue holds what is left of the parts in it. */
  lemma {:induction false} RestIsLeft(plan: Plan, log: seq<Chunk>, es: seq<Event>)
    requires EventsOk(plan, es) && NoDup(es) && InSync(log, es)
    ensures |Rest(plan, es)| == LeftOf(plan, log, Queued(es), |plan.parts|)
  {
    if es == [] {
      LeftOfNone(plan, log, |plan.parts|);
    } else {
      RestIsLeft(plan, log, es[1..]);
      if es[0].Body? {
        LeftOfAdd(plan, log, Queued(es[1..]), es[0].part, |plan.parts|);
      } else {
        assert {} + Queued(es[1..]) == Queued(es[1..]);
      }
    }
  }

  /** Parts that were received whole or are queued: received and queued bytes are all of them. */
  lemma {:induction false} SentAndLeft(plan: Plan, log: seq<Chunk>, s: set<nat>, n: nat)
    requires n <= |plan.parts|
    requires forall p :: 1 <= p <= n && p !in s ==> Sent(log, p) == |PartBody(plan, p)|
    ensures SentOf(log, n) + LeftOf(plan, log, s, n) == |Content(plan.parts[..n])|
  {
    if n == 0 {
      assert plan.parts[..0] == [];
    } else {
      SentAndLeft(plan, log, s, n - 1);
      ContentStep(plan.parts, n - 1);
    }
  }

  /** Once every part has arrived and none is idle, delivered and queued bytes are together the object's. */
  lemma QueuedIsUndelivered(plan: Plan, m: Meta)
    requires Live(plan, m) && m.arrived == Parts(|plan.parts|) && m.pending == {} && m.writes == {} && m.batch == []
    ensures EventsOk(plan, m.events) && |Bytes(m.log)| + |Rest(plan, m.events)| == |Content(plan.parts)|
  {
    hide Ordered, Tracks, LogOk, Counts;
    assert m.batch + m.events == m.events && m.pending + m.writes == {};
    AllCounted(plan, m.log, m.events, m.marked);
  }

  lemma AllCounted(plan: Plan, log: seq<Chunk>, es: seq<Event>, marked: set<nat>)
    requires LogOk(plan, log) && Counts(plan, log, es, marked, {}, Parts(|plan.parts|))
    ensures EventsOk(plan, es) && |Bytes(log)| + |Rest(plan, es)| == |Content(plan.parts)|
  {
    assert plan.parts[..|plan.parts|] == plan.parts;
    SentOfAll(plan, log);
    RestIsLeft(plan, log, es);
    hide LogOk, InSync, NoDup, EventsOk;
    SentAndLeft(plan, log, Queued(es), |plan.parts|);
  }

  /** An allowance for everything queued leaves nothing behind. */
  lemma {:induction false} NothingKeptBack(plan: Plan, t: Tick, es: seq<Event>, i: nat, accepted: nat -> bool)
    requires EventsOk(plan, es) && i <= |es| && t.kept == []
    requires plan.windowed ==> |Rest(plan, es[i..])| <= t.allowed
    ensures DeliverFrom(plan, t, es, i, accepted).kept == []
    decreases |es| - i
  {
    if i < |es| {
      assert es[i..][1..] == es[i + 1..];
      NothingKeptBack(plan, DeliverOne(plan, t, es[i], accepted(i)), es, i + 1, accepted);
    }
  }

  /** No part is stuck: once every part has arrived and no write worker is busy, a single tick that the sink accepts
      delivers everything that is left, if the read window covers it. */
  lemma OneTickDeliversAll(plan: Plan, window: nat, actions: seq<Action>, accepted: nat -> bool)
    requires PlanOk(plan) && Joins(plan) && window < U64 && IsRun(plan, Init(window), actions)
    requires BenignRun(plan, Init(window), actions) && forall j :: accepted(j)
    requires var m := After(plan, Init(window), actions);
             && m.arrived == Parts(|plan.parts|) && !m.active && m.writes == {}
             && (plan.windowed ==> |Content(plan.parts)| - |Bytes(m.log)| <= m.window - m.ioCompleted)
    ensures var m := Begin(After(plan, Init(window), actions));
            && EventsOk(plan, m.batch)
            && var t := RunTick(plan, m, accepted);
            && DoneOk(plan, t.done)
            && Whole(plan, Close(plan, m, t))
  {
    var m := After(plan, Init(window), actions);
    InitInv(plan, window);
    InitCounted(window);
    RunInv(plan, Init(window), actions);
    RunHealthy(plan, Init(window), actions);
    RunInStep(plan, Init(window), actions);
    hide After, IsRun, BenignRun;
    LastTick(plan, m, accepted);
  }

  /** Everything was delivered and nothing is left to do. */
  ghost predicate Whole(plan: Plan, r: Meta) {
    && r.events == [] && !r.failed && r.completed == |plan.parts|
    && (forall p :: 1 <= p <= |plan.parts| ==> PartBytes(r.log, p) == PartBody(plan, p))
    && (!plan.outOfOrder ==> Bytes(r.log) == Content(plan.parts))
  }

  lemma AllowanceCovers(plan: Plan, m: Meta)
    requires Inv(plan, m) && Live(plan, m) && !m.active && m.arrived == Parts(|plan.parts|)
    requires m.pending == {} && m.writes == {}
    requires plan.windowed ==> |Content(plan.parts)| - |Bytes(m.log)| <= m.window - m.ioCompleted
    ensures EventsOk(plan, m.events) && (plan.windowed ==> |Rest(plan, m.events)| <= Allowed(m.window, m.ioCompleted))
  {
    hide Live;
    QueuedIsUndelivered(plan, m);
  }

  lemma AllSent(plan: Plan, m: Meta)
    requires Inv(plan, m) && InStep(plan, m) && m.arrived == Parts(|plan.parts|)
    ensures m.pending == {} && m.sent == |plan.parts|
  {
    NoPendingOutOfOrder(plan, m);
    hide Inv;
    if !plan.outOfOrder {
      NothingHeldBack(m, |plan.parts|);
    }
  }

  lemma LastTick(plan: Plan, m: Meta, accepted: nat -> bool)
    requires Inv(plan, m) && Live(plan, m) && Healthy(m) && InStep(plan, m) && Joins(plan)
    requires m.arrived == Parts(|plan.parts|) && !m.active && m.writes == {} && forall j :: accepted(j)
    requires plan.windowed ==> |Content(plan.parts)| - |Bytes(m.log)| <= m.window - m.ioCompleted
    ensures var b := Begin(m);
            && EventsOk(plan, b.batch)
            && var t := RunTick(plan, b, accepted);
            && DoneOk(plan, t.done) && Whole(plan, Close(plan, b, t))
  {
    hide Live, InStep, Inv;
    AllSent(plan, m);
    AllowanceCovers(plan, m);
    BeginInv(plan, m);
    var b := Begin(m);
    assert b.batch[0..] == b.batch;
    NothingKeptBack(plan, StartTick(b), b.batch, 0, accepted);
    EndTickHealthy(plan, b, accepted);
    EndTickInv(plan, b, accepted);
    Finished(plan, b, accepted);
  }

  lemma Finished(plan: Plan, b: Meta, accepted: nat -> bool)
    requires Inv(plan, b) && b.active && b.events == [] && b.writes == {} && b.sent == |plan.parts|
    requires EventsOk(plan, b.batch)
    requires var t := RunTick(plan, b, accepted);
             t.kept == [] && DoneOk(plan, t.done) && Inv(plan, Close(plan, b, t)) && Healthy(Close(plan, b, t))
    ensures Whole(plan, Close(plan, b, RunTick(plan, b, accepted)))
  {
    hide Inv, RunTick, Close, TickResult, Closed, LogOk;
    var t := RunTick(plan, b, accepted);
    RunTickResult(plan, b, accepted);
    CloseClosed(plan, b, t);
    var r := Close(plan, b, t);
    CompletedAll(plan, b, t, r);
    AllDelivered(plan, r);
    forall p | 1 <= p <= |plan.parts| ensures PartBytes(r.log, p) == PartBody(plan, p) {
      LogIsOk(plan, r);
      PartStream(plan, r.log, p);
    }
  }

  lemma LogIsOk(plan: Plan, m: Meta)
    requires Inv(plan, m)
    ensures LogOk(plan, m.log)
  {
  }

  lemma CompletedAll(plan: Plan, b: Meta, t: Tick, r: Meta)
    requires Inv(plan, b) && TickResult(plan, b, t) && Closed(plan, b, t, r)
    requires b.events == [] && b.writes == {} && b.sent == |plan.parts| && t.kept == []
    ensures r.events == [] && r.completed == |plan.parts|
  {
    hide Live, Dead, WindowOk, LogTruth, Grows, EventsOk;
  }
}
