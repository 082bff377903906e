/** Every run of the delivery engine: part completions in any order, window increments, cancellation, delivery
    ticks with any sink answers, and file write completions, interleaved in any way. */
module DeliveryRuns {
  import opened ObjectParts
  import opened PrefixTracker
  import opened Delivery
  import opened DeliveryLog
  import opened DeliverySafety
  import opened DeliveryLoop

  datatype Action =
    | Arrive(part: nat)
    | Window(bytes: nat)
    | Notify
    | Cancel
    | BeginTick
    | EndTick(accepted: nat -> bool)
    | Written(part: nat, ok: bool, telemetry: bool)

  /** What the environment may do. Each part arrives once; the delivery task runs only when scheduled, and
      one at a time, since it runs on the meta request's event loop. */
  ghost predicate Enabled(plan: Plan, m: Meta, a: Action) {
    match a
    case Arrive(p) => 1 <= p <= |plan.parts| && p !in m.arrived
    case BeginTick => m.scheduled && !m.active
    case EndTick(_) => m.active && EventsOk(plan, m.batch)
    case Written(p, _, _) => p in m.writes && 1 <= p <= |plan.parts|
    case _ => true
  }

  ghost function Step(plan: Plan, m: Meta, a: Action): Meta
    requires Enabled(plan, m, a)
  {
    match a
    case Arrive(p) => Stream(plan, m, p)
    case Window(n) => OpenWindow(m, n)
    case Notify => AddEvent(m, Notice)
    case Cancel => m.(failed := true)
    case BeginTick => Begin(m)
    case EndTick(accepted) =>
      var t := RunTick(plan, m, accepted);
      if DoneOk(plan, t.done) then Close(plan, m, t) else m
    case Written(p, ok, telemetry) => WriteFinished(plan, m, p, ok, telemetry)
  }

  /** Nothing lost yet: everything that arrived is accounted for. */
  ghost predicate Live(plan: Plan, m: Meta) {
    && 1 <= m.nextPart
    && Alive(plan, m.log, m.batch + m.events, m.marked, m.pending + m.writes, m.arrived, m.nextPart - 1, m.nextStart)
    && m.completed == |m.marked|
    && (plan.outOfOrder ==> Tracks(m.tracker, plan.parts, m.marked) && Maximal(m.tracker, m.marked))
  }

  /** A finish result is set and no running tick will deliver any more. */
  ghost predicate Dead(m: Meta) {
    m.failed && (m.active ==> m.batchError || BodyCount(m.batch) == 0)
  }

  ghost predicate Queues(plan: Plan, m: Meta) {
    && 1 <= m.nextPart
    && EventsOk(plan, m.batch) && EventsOk(plan, m.events)
    && (!m.active ==> m.batch == [])
    && m.pending <= m.arrived && m.writes <= m.arrived
    && (forall p :: p in m.arrived ==> 1 <= p <= |plan.parts|)
    && (if plan.outOfOrder then m.pending == {} else m.writes == {})
    && (!plan.parallelWrites ==> m.writes == {})
    && (plan.outOfOrder && plan.parallelWrites ==> BodyCount(m.batch) == BodyCount(m.events) == 0)
    && m.sent == m.completed + BodyCount(m.batch) + BodyCount(m.events) + |m.writes|
    && (!plan.outOfOrder ==> m.sent == m.nextPart - 1 <= |plan.parts|)
  }

  ghost predicate WindowOk(plan: Plan, m: Meta) {
    && m.window < U64
    && (plan.windowed ==>
          && |Bytes(m.log)| <= m.ioCompleted <= m.window
          && (m.active ==> m.batchAllowed <= m.window - m.ioCompleted))
  }

  /** No lost wake-up: queued events with no task scheduled are waiting for window, or delivery has failed. And a task
      that is scheduled has something to do. */
  ghost predicate NoLostWakeup(plan: Plan, m: Meta) {
    && (m.events != [] && !m.scheduled ==> !m.active && (m.failed || (plan.windowed && m.window == m.ioCompleted)))
    && (m.scheduled ==> m.events != [])
  }

  ghost predicate LogTruth(plan: Plan, m: Meta) {
    && Truthful(plan, m.log, m.pending + m.writes, m.arrived)
    && (!plan.outOfOrder ==> m.tracker.delivered == m.tracker.total == |Bytes(m.log)|)
  }

  /** The bookkeeping, which holds in every state, failed or not. */
  ghost predicate Books(plan: Plan, m: Meta) {
    Queues(plan, m) && WindowOk(plan, m) && NoLostWakeup(plan, m) && LogTruth(plan, m)
  }

  ghost predicate Inv(plan: Plan, m: Meta) {
    PlanOk(plan) && Books(plan, m) && (Live(plan, m) || Dead(m))
  }

  lemma InitInv(plan: Plan, window: nat)
    requires PlanOk(plan) && window < U64
    ensures Inv(plan, Init(window)) && Live(plan, Init(window))
  {
    hide Tracks;
    EmptyTracks(plan.parts);
    assert plan.parts[..0] == [];
    assert Init(window).batch + Init(window).events == [];
  }

  // ----- Arrivals -----

  lemma AppendLive(plan: Plan, m: Meta, p: nat)
    requires PlanOk(plan) && Live(plan, m) && p in m.pending + m.writes
    requires !plan.outOfOrder ==> p == m.nextPart && 1 <= p <= |plan.parts|
    ensures Alive(plan, m.log, m.batch + (m.events + [Body(p, 0)]), m.marked, m.pending + m.writes - {p}, m.arrived,
                  if plan.outOfOrder then m.nextPart - 1 else m.nextPart, m.nextStart)
  {
    hide Alive, Tracks;
    assert m.batch + (m.events + [Body(p, 0)]) == m.batch + m.events + [Body(p, 0)];
    AliveAppend(plan, m.log, m.batch + m.events, m.marked, m.pending + m.writes, m.arrived, m.nextPart - 1,
                m.nextStart, p);
  }

  lemma AliveAppend(plan: Plan, log: seq<Chunk>, pend: seq<Event>, marked: set<nat>, idle: set<nat>,
                    arrived: set<nat>, upTo: nat, nextStart: nat, p: nat)
    requires PlanOk(plan) && Alive(plan, log, pend, marked, idle, arrived, upTo, nextStart) && p in idle
    requires !plan.outOfOrder ==> p == upTo + 1 && 1 <= p <= |plan.parts|
    ensures Alive(plan, log, pend + [Body(p, 0)], marked, idle - {p}, arrived,
                  if plan.outOfOrder then upTo else upTo + 1, nextStart)
  {
    assert EventsOk(plan, pend);
    hide LogOk, Counts, Ordered;
    CountsAppend(plan, log, pend, marked, idle, arrived, p);
    if !plan.outOfOrder {
      OrderedAppend(plan, log, pend, upTo, nextStart);
    }
  }

  /** One body moves from the ordered queue to the event array. */
  function PopOne(m: Meta): Meta {
    AddEvent(m.(pending := m.pending - {m.nextPart}, nextPart := m.nextPart + 1, sent := m.sent + 1),
             Body(m.nextPart, 0))
  }

  lemma PopOneQueues(plan: Plan, m: Meta)
    requires Queues(plan, m) && !plan.outOfOrder && m.nextPart in m.pending
    ensures Queues(plan, PopOne(m))
  {
    BodyCountConcat(m.events, [Body(m.nextPart, 0)]);
  }

  lemma PopOneBooks(plan: Plan, m: Meta)
    requires Books(plan, m) && !plan.outOfOrder && m.nextPart in m.pending
    ensures Books(plan, PopOne(m)) && (Dead(m) ==> Dead(PopOne(m)))
  {
    PopOneQueues(plan, m);
    hide Queues;
  }

  lemma PopOneLive(plan: Plan, m: Meta)
    requires PlanOk(plan) && Queues(plan, m) && Live(plan, m) && !plan.outOfOrder && m.nextPart in m.pending
    ensures Live(plan, PopOne(m))
  {
    hide Alive;
    AppendLive(plan, m, m.nextPart);
    assert m.pending + m.writes - {m.nextPart} == PopOne(m).pending + PopOne(m).writes;
  }

  lemma {:induction false} PopReadyInv(plan: Plan, m: Meta)
    requires Inv(plan, m) && !plan.outOfOrder
    ensures Inv(plan, PopReady(m)) && (Live(plan, m) ==> Live(plan, PopReady(m)))
    decreases |m.pending|
  {
    if TopIs(m.pending, m.nextPart) {
      PopOneBooks(plan, m);
      if Live(plan, m) {
        PopOneLive(plan, m);
      }
      PopReadyInv(plan, PopOne(m));
    }
  }

  lemma ArriveIdle(plan: Plan, m: Meta, p: nat)
    requires Live(plan, m) && 1 <= p <= |plan.parts| && p !in m.arrived
    ensures Alive(plan, m.log, m.batch + m.events, m.marked, (m.pending + m.writes) + {p}, m.arrived + {p},
                  m.nextPart - 1, m.nextStart)
  {
    CountsArrive(plan, m.log, m.batch + m.events, m.marked, m.pending + m.writes, m.arrived, p);
  }

  lemma StreamOrdered(plan: Plan, m: Meta, p: nat)
    requires Inv(plan, m) && 1 <= p <= |plan.parts| && p !in m.arrived && !plan.outOfOrder
    ensures Inv(plan, Stream(plan, m, p)) && (Live(plan, m) ==> Live(plan, Stream(plan, m, p)))
  {
    hide Alive, Tracks, PopReady;
    var m' := m.(arrived := m.arrived + {p}, pending := m.pending + {p});
    PendBooks(plan, m, p);
    if Live(plan, m) {
      ArriveIdle(plan, m, p);
      assert (m.pending + m.writes) + {p} == m'.pending + m'.writes;
    }
    hide Books;
    PopReadyInv(plan, m');
  }

  lemma PendBooks(plan: Plan, m: Meta, p: nat)
    requires Books(plan, m) && 1 <= p <= |plan.parts| && p !in m.arrived && !plan.outOfOrder
    ensures Books(plan, m.(arrived := m.arrived + {p}, pending := m.pending + {p}))
  {
  }

  lemma StreamWriteLive(plan: Plan, m: Meta, p: nat)
    requires Live(plan, m) && 1 <= p <= |plan.parts| && p !in m.arrived && plan.outOfOrder && plan.parallelWrites
    ensures Live(plan, Stream(plan, m, p))
  {
    hide Counts, LogOk;
    ArriveIdle(plan, m, p);
    assert (m.pending + m.writes) + {p} == m.pending + (m.writes + {p});
  }

  lemma AliveArriveQueued(plan: Plan, log: seq<Chunk>, pend: seq<Event>, marked: set<nat>, idle: set<nat>,
                          arrived: set<nat>, upTo: nat, nextStart: nat, p: nat)
    requires Alive(plan, log, pend, marked, idle, arrived, upTo, nextStart) && plan.outOfOrder
    requires 1 <= p <= |plan.parts| && p !in arrived
    ensures Alive(plan, log, pend + [Body(p, 0)], marked, idle, arrived + {p}, upTo, nextStart)
  {
    hide Counts, LogOk;
    CountsArriveQueued(plan, log, pend, marked, idle, arrived, p);
  }

  lemma StreamEventLive(plan: Plan, m: Meta, p: nat)
    requires Live(plan, m) && 1 <= p <= |plan.parts| && p !in m.arrived && plan.outOfOrder && !plan.parallelWrites
    ensures Live(plan, Stream(plan, m, p))
  {
    hide Alive, Tracks;
    AliveArriveQueued(plan, m.log, m.batch + m.events, m.marked, m.pending + m.writes, m.arrived, m.nextPart - 1,
                      m.nextStart, p);
    assert m.batch + (m.events + [Body(p, 0)]) == m.batch + m.events + [Body(p, 0)];
  }

  lemma StreamUnordered(plan: Plan, m: Meta, p: nat)
    requires Inv(plan, m) && 1 <= p <= |plan.parts| && p !in m.arrived && plan.outOfOrder
    ensures Inv(plan, Stream(plan, m, p)) && (Live(plan, m) ==> Live(plan, Stream(plan, m, p)))
  {
    StreamUnorderedBooks(plan, m, p);
    if Live(plan, m) {
      if plan.parallelWrites {
        StreamWriteLive(plan, m, p);
      } else {
        StreamEventLive(plan, m, p);
      }
    }
  }

  lemma StreamUnorderedQueues(plan: Plan, m: Meta, p: nat)
    requires Queues(plan, m) && 1 <= p <= |plan.parts| && p !in m.arrived && plan.outOfOrder
    ensures Queues(plan, Stream(plan, m, p))
  {
    BodyCountConcat(m.events, [Body(p, 0)]);
  }

  lemma StreamUnorderedBooks(plan: Plan, m: Meta, p: nat)
    requires Books(plan, m) && 1 <= p <= |plan.parts| && p !in m.arrived && plan.outOfOrder
    ensures Books(plan, Stream(plan, m, p)) && (Dead(m) ==> Dead(Stream(plan, m, p)))
  {
    StreamUnorderedQueues(plan, m, p);
    StreamUnorderedLog(plan, m, p);
    hide Queues, LogTruth;
  }

  lemma StreamUnorderedLog(plan: Plan, m: Meta, p: nat)
    requires LogTruth(plan, m) && p !in m.arrived && plan.outOfOrder
    ensures LogTruth(plan, Stream(plan, m, p))
  {
  }

  // ----- Delivery ticks -----

  ghost predicate TickResult(plan: Plan, m: Meta, t: Tick) {
    && KeptOk(plan, t) && DoneOk(plan, t.done) && Grows(plan, StartTick(m), t)
    && BodyCount(t.kept) + t.numParts == BodyCount(m.batch)
  }

  lemma RunTickResult(plan: Plan, m: Meta, accepted: nat -> bool)
    requires EventsOk(plan, m.batch)
    ensures TickResult(plan, m, RunTick(plan, m, accepted))
  {
    DeliverGrows(plan, StartTick(m), m.batch, 0, accepted);
    assert m.batch[0..] == m.batch;
  }

  lemma MarkOneFrame(plan: Plan, m: Meta, c: Completed)
    requires 1 <= c.part <= |plan.parts|
    ensures var r := MarkOne(plan, m, c);
            && r == m.(marked := r.marked, tracker := r.tracker, failed := r.failed)
            && (m.failed ==> r.failed) && (!plan.outOfOrder ==> r.tracker == m.tracker)
  {
    hide Recorded;
  }

  /** Only what can be marked is marked, and a failure is never taken back. */
  lemma {:induction false} MarkFrame(plan: Plan, m: Meta, done: seq<Completed>)
    requires DoneOk(plan, done)
    ensures var r := MarkCompleted(plan, m, done);
            && r == m.(marked := r.marked, tracker := r.tracker, failed := r.failed)
            && (m.failed ==> r.failed) && (!plan.outOfOrder ==> r.tracker == m.tracker)
    decreases |done|
  {
    hide MarkOne, Recorded;
    if done != [] {
      MarkOneFrame(plan, m, done[0]);
      MarkFrame(plan, MarkOne(plan, m, done[0]), done[1..]);
    }
  }

  ghost predicate TrackerOk(plan: Plan, tracker: Tracker, marked: set<nat>) {
    plan.outOfOrder ==> Tracks(tracker, plan.parts, marked) && Maximal(tracker, marked)
  }

  lemma DoneTail(plan: Plan, done: seq<Completed>, marked: set<nat>)
    requires done != [] && DoneWell(plan, done, marked)
    ensures DoneWell(plan, done[1..], marked + {done[0].part})
    ensures marked + DoneParts(done) == (marked + {done[0].part}) + DoneParts(done[1..])
    ensures done[0].part !in marked
  {
    assert done == [done[0]] + done[1..];
    forall p ensures p in DoneParts(done) <==> p == done[0].part || p in DoneParts(done[1..]) {
      if p in DoneParts(done) {
        var i :| 0 <= i < |done| && done[i].part == p;
        if i > 0 {
          assert done[1..][i - 1].part == p;
        }
      }
      if p in DoneParts(done[1..]) {
        var i :| 0 <= i < |done[1..]| && done[1..][i].part == p;
        assert done[i + 1].part == p;
      }
    }
  }

  /** The parts of `done` were marked, and recorded if delivery is out of order. */
  ghost predicate Marks(plan: Plan, m: Meta, done: seq<Completed>, r: Meta) {
    && r.marked == m.marked + DoneParts(done) && |r.marked| == |m.marked| + |done|
    && TrackerOk(plan, r.tracker, r.marked)
  }

  /** Parts delivered whole and for the first time are marked and recorded, or the download fails; it does not
      fail when the recorded ranges join up. */
  lemma {:induction false} MarkLive(plan: Plan, m: Meta, done: seq<Completed>)
    requires PlanOk(plan) && DoneWell(plan, done, m.marked) && TrackerOk(plan, m.tracker, m.marked)
    ensures var r := MarkCompleted(plan, m, done);
            (!r.failed || Joins(plan) ==> Marks(plan, m, done, r)) && (Joins(plan) ==> r.failed == m.failed)
    decreases |done|
  {
    if done == [] {
      assert m.marked + DoneParts(done) == m.marked;
    } else {
      MarkOneLive(plan, m, done[0]);
      if !plan.outOfOrder || Recorded(plan, m, done[0]).Ok? {
        DoneTail(plan, done, m.marked);
        MarkLive(plan, MarkOne(plan, m, done[0]), done[1..]);
      }
    }
  }

  lemma MarkOneLive(plan: Plan, m: Meta, c: Completed)
    requires PlanOk(plan) && TrackerOk(plan, m.tracker, m.marked) && 1 <= c.part <= |plan.parts| && c.part !in m.marked
    requires c.bytes == |PartBody(plan, c.part)|
    ensures var r := MarkOne(plan, m, c);
            if plan.outOfOrder && Recorded(plan, m, c).InvalidState? then r.failed && !Linked(plan.parts)
            else r.marked == m.marked + {c.part} && r.failed == m.failed && TrackerOk(plan, r.tracker, r.marked)
  {
    if plan.outOfOrder {
      RecordTracks(m.tracker, plan.parts, m.marked, c.part);
    }
  }

  /** What closing a tick leaves, field by field, apart from the scheduling and the marks. */
  ghost predicate Closed(plan: Plan, m: Meta, t: Tick, r: Meta) {
    && r.pending == m.pending && r.nextPart == m.nextPart && r.writes == m.writes && r.arrived == m.arrived
    && r.events == t.kept + m.events && !r.active && r.batch == []
    && r.window == m.window && r.ioCompleted == t.ioCompleted && r.nextStart == t.nextStart && r.log == t.log
    && r.sent == m.sent && r.completed == m.completed + t.numParts
    && (m.failed || t.error ==> r.failed)
    && (!plan.outOfOrder ==>
          && r.tracker.delivered == m.tracker.delivered + t.numBytes
          && r.tracker.total == m.tracker.total + t.numBytes)
    && (t.kept == [] ==> r.scheduled == m.scheduled)
    && (t.kept != [] && !m.scheduled && !r.scheduled ==> t.error || Allowed(m.window, t.ioCompleted) == 0)
    && (m.scheduled ==> r.scheduled)
    && (r.scheduled && !m.scheduled ==> !t.error && Allowed(m.window, t.ioCompleted) > 0)
  }

  lemma SettleFrame(plan: Plan, m: Meta, t: Tick)
    ensures var r := Settle(m, t);
            && r == m.(ioCompleted := t.ioCompleted, nextStart := t.nextStart, log := t.log,
                       failed := m.failed || t.error, completed := m.completed + t.numParts,
                       events := t.kept + m.events, scheduled := r.scheduled)
            && (t.kept == [] ==> r.scheduled == m.scheduled) && (m.scheduled ==> r.scheduled)
            && (t.kept != [] && !r.scheduled ==> t.error || Allowed(m.window, t.ioCompleted) == 0)
            && (r.scheduled && !m.scheduled ==> !t.error && Allowed(m.window, t.ioCompleted) > 0)
  {
    assert [] + m.events == m.events;
  }

  lemma CloseClosed(plan: Plan, m: Meta, t: Tick)
    requires DoneOk(plan, t.done)
    ensures Closed(plan, m, t, Close(plan, m, t))
  {
    SettleFrame(plan, m, t);
    MarkFrame(plan, Settle(m, t), t.done);
  }

  lemma ClosedQueues(plan: Plan, m: Meta, t: Tick, r: Meta)
    requires Queues(plan, m) && TickResult(plan, m, t) && Closed(plan, m, t, r)
    ensures Queues(plan, r)
  {
    BodyCountConcat(t.kept, m.events);
  }

  lemma ClosedWindow(plan: Plan, m: Meta, t: Tick, r: Meta)
    requires WindowOk(plan, m) && NoLostWakeup(plan, m) && m.active && TickResult(plan, m, t) && Closed(plan, m, t, r)
    ensures WindowOk(plan, r) && NoLostWakeup(plan, r)
  {
    if plan.windowed {
      assert t.ioCompleted + t.allowed == m.ioCompleted + m.batchAllowed;
      assert 0 <= m.window - t.ioCompleted < U64;
    }
  }

  lemma CloseBooks(plan: Plan, m: Meta, t: Tick)
    requires Books(plan, m) && m.active && TickResult(plan, m, t)
    requires Truthful(plan, t.log, m.pending + m.writes, m.arrived)
    ensures Books(plan, Close(plan, m, t)) && (Close(plan, m, t).failed || t.error ==> Dead(Close(plan, m, t)))
  {
    CloseClosed(plan, m, t);
    ClosedQueues(plan, m, t, Close(plan, m, t));
    ClosedWindow(plan, m, t, Close(plan, m, t));
  }

  lemma DoneCount(plan: Plan, t: Tick, es: seq<Event>, i: nat, accepted: nat -> bool)
    requires EventsOk(plan, es) && i <= |es| && |t.done| == t.numParts
    ensures var u := DeliverFrom(plan, t, es, i, accepted); !u.error ==> |u.done| == u.numParts
    decreases |es| - i
  {
    if i < |es| {
      var u := DeliverOne(plan, t, es[i], accepted(i));
      if u.error {
        ErrorSticks(plan, u, es, i + 1, accepted);
      } else {
        assert |u.done| == u.numParts;
        DoneCount(plan, u, es, i + 1, accepted);
      }
    }
  }

  lemma ErrorSticks(plan: Plan, t: Tick, es: seq<Event>, i: nat, accepted: nat -> bool)
    requires EventsOk(plan, es) && i <= |es| && t.error
    ensures DeliverFrom(plan, t, es, i, accepted).error
    decreases |es| - i
  {
    if i < |es| {
      ErrorSticks(plan, DeliverOne(plan, t, es[i], accepted(i)), es, i + 1, accepted);
    }
  }

  /** The tick of a live meta request: its result, seen from the invariant. */
  lemma RunTickLive(plan: Plan, m: Meta, accepted: nat -> bool)
    requires PlanOk(plan) && Queues(plan, m) && Live(plan, m) && m.active && !m.batchError
    ensures var t := RunTick(plan, m, accepted);
            && (!t.error ==>
                  && DoneWell(plan, t.done, m.marked) && |t.done| == t.numParts
                  && Alive(plan, t.log, t.kept + m.events, m.marked + DoneParts(t.done), m.pending + m.writes,
                           m.arrived, m.nextPart - 1, t.nextStart))
            && ((forall j :: 0 <= j < |m.batch| ==> accepted(j)) ==> !t.error)
            && Truthful(plan, t.log, m.pending + m.writes, m.arrived)
  {
    hide Alive;
    var t0 := StartTick(m);
    assert DoneParts(t0.done) == {};
    assert m.marked + DoneParts(t0.done) == m.marked;
    assert t0.kept + (m.batch[0..] + m.events) == m.batch + m.events;
    DeliverFromAlive(plan, t0, m.batch, 0, accepted, m.events, m.marked, m.pending + m.writes, m.arrived,
                     m.nextPart - 1);
    DoneCount(plan, t0, m.batch, 0, accepted);
  }

  lemma CloseMarks(plan: Plan, m: Meta, t: Tick)
    requires PlanOk(plan) && !t.error && DoneWell(plan, t.done, m.marked) && TrackerOk(plan, m.tracker, m.marked)
    ensures var r := Close(plan, m, t);
            (!r.failed || Joins(plan) ==> Marks(plan, m, t.done, r)) && (Joins(plan) ==> r.failed == m.failed)
  {
    SettleFrame(plan, m, t);
    MarkLive(plan, Settle(m, t), t.done);
  }

  lemma CloseLive(plan: Plan, m: Meta, t: Tick)
    requires PlanOk(plan) && Live(plan, m) && m.active && !t.error
    requires DoneWell(plan, t.done, m.marked) && |t.done| == t.numParts
    requires Alive(plan, t.log, t.kept + m.events, m.marked + DoneParts(t.done), m.pending + m.writes, m.arrived,
                   m.nextPart - 1, t.nextStart)
    ensures var r := Close(plan, m, t);
            (!r.failed || Joins(plan) ==> Live(plan, r)) && (Joins(plan) ==> r.failed == m.failed)
  {
    CloseClosed(plan, m, t);
    CloseMarks(plan, m, t);
    if !Close(plan, m, t).failed || Joins(plan) {
      ClosedLive(plan, m, t, Close(plan, m, t));
    }
  }

  lemma ClosedLive(plan: Plan, m: Meta, t: Tick, r: Meta)
    requires Live(plan, m) && Closed(plan, m, t, r) && |t.done| == t.numParts && Marks(plan, m, t.done, r)
    requires Alive(plan, t.log, t.kept + m.events, m.marked + DoneParts(t.done), m.pending + m.writes, m.arrived,
                   m.nextPart - 1, t.nextStart)
    ensures Live(plan, r)
  {
    hide Alive;
    assert r.batch + r.events == t.kept + m.events;
  }

  /** A tick with no bodies to deliver changes nothing. */
  lemma {:induction false} OnlyNotices(plan: Plan, t: Tick, es: seq<Event>, i: nat, accepted: nat -> bool)
    requires EventsOk(plan, es) && i <= |es| && BodyCount(es[i..]) == 0
    ensures DeliverFrom(plan, t, es, i, accepted) == t
    decreases |es| - i
  {
    if i < |es| {
      assert es[i..][1..] == es[i + 1..];
      OnlyNotices(plan, t, es, i + 1, accepted);
    }
  }

  lemma EndTickInv(plan: Plan, m: Meta, accepted: nat -> bool)
    requires Inv(plan, m) && m.active
    ensures var t := RunTick(plan, m, accepted);
            && DoneOk(plan, t.done) && Inv(plan, Close(plan, m, t))
            && (Live(plan, m) && !m.batchError && Joins(plan) && (forall j :: 0 <= j < |m.batch| ==> accepted(j)) ==>
                  Live(plan, Close(plan, m, t)) && Close(plan, m, t).failed == m.failed)
  {
    hide Alive;
    var t := RunTick(plan, m, accepted);
    RunTickResult(plan, m, accepted);
    if Live(plan, m) && !m.batchError {
      RunTickLive(plan, m, accepted);
      if !t.error {
        CloseLive(plan, m, t);
      }
    } else if BodyCount(m.batch) == 0 {
      assert m.batch[0..] == m.batch;
      OnlyNotices(plan, StartTick(m), m.batch, 0, accepted);
    }
    CloseBooks(plan, m, t);
  }

  lemma BeginInv(plan: Plan, m: Meta)
    requires Inv(plan, m) && !m.active
    ensures Inv(plan, Begin(m)) && (Live(plan, m) ==> Live(plan, Begin(m)))
  {
    hide Alive, Truthful, Tracks;
    assert m.batch + m.events == m.events + [];
  }

  // ----- File writes -----

  function WrittenChunk(plan: Plan, p: nat): Chunk
    requires 1 <= p <= |plan.parts|
  {
    Chunk(p, PartOf(plan.parts, p).start, PartBody(plan, p))
  }

  lemma WrittenLog(plan: Plan, log: seq<Chunk>, p: nat)
    requires LogOk(plan, log) && 1 <= p <= |plan.parts| && Sent(log, p) == 0
    ensures LogOk(plan, log + [WrittenChunk(plan, p)])
    ensures forall q :: Sent(log + [WrittenChunk(plan, p)], q) == if q == p then |PartBody(plan, p)| else Sent(log, q)
  {
    var body := PartBody(plan, p);
    assert body[0..|body|] == body;
    LogOkStep(plan, log, Body(p, 0), |body|);
    forall q ensures Sent(log + [WrittenChunk(plan, p)], q) == if q == p then |body| else Sent(log, q) {
      LogStep(log, WrittenChunk(plan, p), q);
    }
  }

  /** A part leaves the write worker and becomes delivered. */
  lemma WrittenCounts(plan: Plan, log: seq<Chunk>, log': seq<Chunk>, pend: seq<Event>, marked: set<nat>,
                      idle: set<nat>, arrived: set<nat>, p: nat)
    requires Counts(plan, log, pend, marked, idle, arrived) && p in idle
    requires forall q :: Sent(log', q) == if q == p then |PartBody(plan, p)| else Sent(log, q)
    ensures Counts(plan, log', pend, marked + {p}, idle - {p}, arrived) && p !in marked
  {
    InSyncFrame(log, log', pend);
  }

  lemma MarkBooks(plan: Plan, m: Meta, done: seq<Completed>)
    requires Books(plan, m) && DoneOk(plan, done) && plan.outOfOrder
    ensures Books(plan, MarkCompleted(plan, m, done))
  {
    MarkFrame(plan, m, done);
  }

  function Leave(plan: Plan, m: Meta, p: nat): Meta
    requires 1 <= p <= |plan.parts|
  {
    m.(writes := m.writes - {p}, completed := m.completed + 1, log := m.log + [WrittenChunk(plan, p)])
  }

  lemma LeaveBooks(plan: Plan, m: Meta, p: nat)
    requires PlanOk(plan) && Books(plan, m) && p in m.writes
    ensures Books(plan, Leave(plan, m, p))
  {
    WrittenLog(plan, m.log, p);
  }

  lemma WritesInRange(plan: Plan, m: Meta, p: nat)
    requires Books(plan, m) && p in m.writes
    ensures 1 <= p <= |plan.parts| && plan.outOfOrder
  {
  }

  lemma WrittenBooks(plan: Plan, m: Meta, p: nat, ok: bool)
    requires PlanOk(plan) && Books(plan, m) && p in m.writes
    ensures Books(plan, WriteDone(plan, m, p, ok))
  {
    hide Books, MarkCompleted;
    WritesInRange(plan, m, p);
    if ok {
      LeaveBooks(plan, m, p);
      MarkBooks(plan, Leave(plan, m, p), [Completed(p, |PartBody(plan, p)|)]);
    } else {
      FailedWriteBooks(plan, m, p);
    }
  }

  lemma FailedWriteBooks(plan: Plan, m: Meta, p: nat)
    requires Books(plan, m) && p in m.writes
    ensures Books(plan, m.(writes := m.writes - {p}, completed := m.completed + 1, failed := true))
  {
  }

  lemma OneDone(plan: Plan, p: nat, marked: set<nat>)
    requires 1 <= p <= |plan.parts| && p !in marked
    ensures var done := [Completed(p, |PartBody(plan, p)|)];
            DoneWell(plan, done, marked) && DoneParts(done) == {p}
  {
    var done := [Completed(p, |PartBody(plan, p)|)];
    assert done[0].part in DoneParts(done);
  }

  lemma IdleUnsent(plan: Plan, m: Meta, p: nat)
    requires Books(plan, m) && p in m.writes
    ensures LogOk(plan, m.log) && Sent(m.log, p) == 0 && m.pending == {}
  {
  }

  lemma WrittenLive(plan: Plan, m: Meta, p: nat)
    requires PlanOk(plan) && Books(plan, m) && Live(plan, m) && p in m.writes
    ensures var r := WriteDone(plan, m, p, true);
            (!r.failed || Joins(plan) ==> Live(plan, r)) && (Joins(plan) ==> r.failed == m.failed)
  {
    hide Counts, Ordered, Tracks, MarkCompleted, Books, LogOk;
    WritesInRange(plan, m, p);
    IdleUnsent(plan, m, p);
    WrittenLog(plan, m.log, p);
    var m1 := Leave(plan, m, p);
    WrittenCounts(plan, m.log, m1.log, m.batch + m.events, m.marked, m.pending + m.writes, m.arrived, p);
    OneDone(plan, p, m.marked);
    var done := [Completed(p, |PartBody(plan, p)|)];
    MarkFrame(plan, m1, done);
    MarkLive(plan, m1, done);
    assert m.pending + m.writes - {p} == m1.pending + m1.writes;
    if !MarkCompleted(plan, m1, done).failed || Joins(plan) {
      MarkedLive(plan, m, m1, MarkCompleted(plan, m1, done), p);
    }
  }

  lemma MarkedLive(plan: Plan, m: Meta, m1: Meta, r: Meta, p: nat)
    requires Live(plan, m) && 1 <= p <= |plan.parts| && m1 == Leave(plan, m, p) && plan.outOfOrder
    requires r == m1.(marked := m.marked + {p}, tracker := r.tracker, failed := r.failed) && p !in m.marked
    requires TrackerOk(plan, r.tracker, r.marked) && LogOk(plan, m1.log)
    requires Counts(plan, m1.log, m.batch + m.events, m.marked + {p}, m1.pending + m1.writes, m.arrived)
    ensures Live(plan, r)
  {
    hide Counts, Tracks, LogOk;
  }
}
