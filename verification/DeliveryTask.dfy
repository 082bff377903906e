/** The meta request's delivery state as it is updated in place, each method proved against its step function. */
module DeliveryTask {
  import opened Arithmetic
  import opened ObjectParts
  import opened PrefixTracker
  import opened Delivery
  import opened DeliveredMask

  /** The incomplete events are pushed to the front of their array, so they accumulate in reverse. */
  function Reverse(es: seq<Event>): seq<Event> {
    if es == [] then [] else Reverse(es[1..]) + [es[0]]
  }

  lemma {:induction false} ReverseAppend(es: seq<Event>, e: Event)
    ensures Reverse(es + [e]) == [e] + Reverse(es)
  {
    if es == [] {
      assert es + [e] == [e];
      assert [e][1..] == [];
    } else {
      assert (es + [e])[1..] == es[1..] + [e];
      ReverseAppend(es[1..], e);
    }
  }

  lemma ReversePush(es: seq<Event>, e: Event)
    ensures Reverse([e] + es) == Reverse(es) + [e]
  {
    assert ([e] + es)[1..] == es;
  }

  lemma PopReadyStep(m: Meta)
    ensures TopIs(m.pending, m.nextPart) ==> m.nextPart in m.pending
    ensures PopReady(m) ==
            if TopIs(m.pending, m.nextPart) then
              PopReady(AddEvent(m.(pending := m.pending - {m.nextPart}, nextPart := m.nextPart + 1, sent := m.sent + 1),
                                Body(m.nextPart, 0)))
            else m
  {
  }

  /** The state with `n` more parts counted as sent. */
  function Counted(m: Meta, n: nat): Meta {
    m.(sent := m.sent + n)
  }

  /** The delivery task's local variables; `incomplete` is the array of events to re-queue. */
  class TaskLocals {
    var error: bool
    var allowed: nat
    var numParts: nat
    var numBytes: nat
    var incomplete: seq<Event>
    var completed: seq<Completed>

    constructor (error: bool, allowed: nat)
      ensures this.error == error && this.allowed == allowed && numParts == 0 && numBytes == 0
      ensures incomplete == [] && completed == []
    {
      this.error, this.allowed, numParts, numBytes, incomplete, completed := error, allowed, 0, 0, [], [];
    }
  }

  /** The delivery task while it runs: the events swapped out, and the allowance and error it began with. */
  datatype Run = Run(active: bool, batch: seq<Event>, allowed: nat, error: bool)

  class MetaRequest {
    const plan: Plan
    const backpressure: bool
    const mask: Mask
    const prefix: DeliveredPrefix
    var pending: set<nat>
    var nextPart: nat
    var events: seq<Event>
    var scheduled: bool
    var run: Run
    var window: nat
    var ioCompleted: nat
    var nextStart: nat
    var sent: nat
    var completed: nat
    var writes: set<nat>
    var failed: bool
    var log: seq<Chunk>
    var arrived: set<nat>
    ghost var marked: set<nat>  // the parts marked, with or without a mask

    ghost function Model(): Meta
      reads this, prefix
    {
      Meta(pending, nextPart, events, scheduled, run.active, run.batch, run.allowed, run.error, window, ioCompleted,
           nextStart, sent, completed, prefix.Model(), writes, failed, log, arrived, marked)
    }

    /** A mask, once there is one, covers the download's parts and its bits stand for the parts marked. */
    ghost predicate Valid()
      reads this, mask, mask.bytes
    {
      && plan.total < U32 && mask.Valid()
      && (mask.bytes != null ==> plan.total > 0 && mask.numParts == plan.total && mask.Marked() == marked)
    }

    /** Discovery is over: there is a mask if there are parts to mark. */
    ghost predicate Discovered()
      reads this, mask, mask.bytes
    {
      Valid() && (plan.total > 0 ==> mask.bytes != null)
    }

    constructor (plan: Plan, backpressure: bool, window: nat)
      requires plan.total < U32
      ensures this.plan == plan && this.backpressure == backpressure && Model() == Init(window)
      ensures Valid() && fresh(mask) && fresh(prefix) && mask.bytes == null && nextPart > 0
    {
      this.plan, this.backpressure, this.window := plan, backpressure, window;
      mask := new Mask();
      prefix := new DeliveredPrefix();
      pending, nextPart, events, scheduled, run := {}, 1, [], false, Run(false, [], 0, false);
      ioCompleted, nextStart, sent, completed, writes := 0, 0, 0, 0, {};
      failed, log, arrived, marked := false, [], {}, {};
    }

    /** Discovery sizes the mask, before anything was delivered. */
    method SizeMask()
      requires Valid() && plan.total > 0 && marked == {}
      modifies mask
      ensures Discovered() && (mask.bytes != null ==> fresh(mask.bytes))
    {
      mask.Allocate(plan.total);
    }

    method SetFail()
      modifies this`failed
      ensures Model() == old(Model()).(failed := true) && (old(Discovered()) ==> Discovered())
    {
      failed := true;
    }

    /** `aws_s3_meta_request_add_event_for_delivery_synced` without an event. */
    method ScheduleDelivery()
      modifies this`scheduled
      ensures Model() == Schedule(old(Model()))
    {
      if !scheduled && events != [] {
        scheduled := true;
      }
    }

    method AddEventForDelivery(e: Event)
      modifies this`events, this`scheduled
      ensures Model() == AddEvent(old(Model()), e)
    {
      events := events + [e];
      ScheduleDelivery();
    }

    /** The body that is next in part order, if it has arrived. */
    method PopNext() returns (p: nat)
      requires nextPart > 0
      modifies this`pending, this`nextPart
      ensures p == if old(TopIs(pending, nextPart)) then old(nextPart) else 0
      ensures Model() == if p == 0 then old(Model())
                         else old(Model()).(pending := old(pending) - {p}, nextPart := p + 1)
    {
      if !TopIs(pending, nextPart) {
        return 0;
      }
      p := nextPart;
      pending := pending - {nextPart};
      nextPart := nextPart + 1;
    }

    /** `aws_s3_meta_request_stream_response_body_synced`. */
    method StreamResponseBody(p: nat)
      requires nextPart > 0
      modifies this`arrived, this`pending, this`nextPart, this`events, this`scheduled, this`sent, this`writes
      ensures Model() == Stream(plan, old(Model()), p) && nextPart > 0
    {
      hide PopReady;
      NoteArrival(p);
      hide Model;
      if plan.outOfOrder {
        StreamOutOfOrder(p);
      } else {
        QueueBody(p);
        StreamReady();
      }
    }

    method NoteArrival(p: nat)
      modifies this`arrived
      ensures Model() == old(Model()).(arrived := old(Model()).arrived + {p})
    {
      arrived := arrived + {p};
    }

    /** Push a body onto the queue that is ordered by part number. */
    method QueueBody(p: nat)
      modifies this`pending
      ensures Model() == old(Model()).(pending := old(Model()).pending + {p})
    {
      pending := pending + {p};
    }

    /** Out of order, a body never waits for the parts ahead of it. */
    method StreamOutOfOrder(p: nat)
      modifies this`sent, this`writes, this`events, this`scheduled
      ensures var m := old(Model()).(sent := old(Model()).sent + 1);
              Model() == if plan.parallelWrites then m.(writes := m.writes + {p}) else AddEvent(m, Body(p, 0))
    {
      sent := sent + 1;
      if plan.parallelWrites {
        writes := writes + {p};
      } else {
        AddEventForDelivery(Body(p, 0));
      }
    }

    /** Send every body that is next in part order for delivery. */
    method StreamReady()
      requires nextPart > 0
      modifies this`pending, this`nextPart, this`events, this`scheduled, this`sent
      ensures Model() == PopReady(old(Model())) && nextPart > 0
    {
      hide PopReady, TopIs;
      var streamed := 0;
      while true
        invariant nextPart > 0
        invariant PopReady(Counted(Model(), streamed)) == PopReady(old(Model()))
        decreases |pending|
      {
        var next := StreamNext(streamed);
        if next == 0 {
          break;
        }
        streamed := streamed + 1;
      }
      CountSent(streamed);
    }

    /** One turn of the loop: the next body, if it is there, moves to the event array. */
    method StreamNext(ghost streamed: nat) returns (next: nat)
      requires nextPart > 0
      modifies this`pending, this`nextPart, this`events, this`scheduled
      ensures nextPart > 0 && (next > 0 ==> next in old(pending) && pending == old(pending) - {next})
      ensures next == 0 ==>
                Model() == old(Model()) && PopReady(Counted(Model(), streamed)) == Counted(Model(), streamed)
      ensures next > 0 ==> PopReady(Counted(Model(), streamed + 1)) == PopReady(Counted(old(Model()), streamed))
    {
      hide PopReady, TopIs;
      PopReadyStep(Counted(Model(), streamed));
      next := PopNext();
      if next > 0 {
        AddEventForDelivery(Body(next, 0));
      }
    }

    method CountSent(n: nat)
      modifies this`sent
      ensures Model() == Counted(old(Model()), n)
    {
      sent := sent + n;
    }

    method IncrementReadWindow(n: nat)
      modifies this`window, this`scheduled
      ensures Model() == if backpressure then OpenWindow(old(Model()), n) else old(Model())
    {
      if n == 0 || !backpressure {
        return;
      }
      window := if window + n >= U64 then U64 - 1 else window + n;
      ScheduleDelivery();
    }

    /** The first critical section of the delivery task. */
    method BeginDelivery() returns (task: TaskLocals)
      modifies this`run, this`events, this`scheduled
      ensures Model() == Begin(old(Model())) && fresh(task) && LoopState(task) == StartTick(Model())
    {
      SwapEvents();
      task := new TaskLocals(run.error, run.allowed);
    }

    method SwapEvents()
      modifies this`run, this`events, this`scheduled
      ensures Model() == Begin(old(Model()))
    {
      hide Allowed;
      run := Run(true, events, Allowed(window, ioCompleted), failed);
      events, scheduled := [], false;
    }

    ghost function LoopState(task: TaskLocals): Tick
      reads this, task
    {
      Tick(task.error, task.allowed, ioCompleted, nextStart, log, task.numParts, task.numBytes,
           Reverse(task.incomplete), task.completed)
    }

    /** Step 3: in-order delivery must continue where the last delivery ended. */
    method CheckOrder(task: TaskLocals, part: nat, start: nat, n: nat)
      modifies task`error, this`nextStart
      ensures var expected := if part == 1 then start else old(nextStart);
              && task.error == (old(task.error) || (!plan.outOfOrder && start != expected))
              && nextStart == if plan.outOfOrder then old(nextStart) else expected + n
    {
      if !plan.outOfOrder {
        if part == 1 {
          nextStart := start;
        }
        if start != nextStart {
          task.error := true;
        }
        nextStart := nextStart + n;
      }
    }

    /** Steps 4 and 5: the running checksum and the sink take the bytes, unless delivery has failed. */
    method SinkBytes(task: TaskLocals, c: Chunk, accepted: bool)
      modifies task`error, task`numBytes, this`ioCompleted, this`log
      ensures task.error == (old(task.error) || !accepted)
      ensures log == if task.error then old(log) else old(log) + [c]
      ensures task.numBytes == if task.error then old(task.numBytes) else old(task.numBytes) + |c.data|
      ensures ioCompleted == old(ioCompleted) + |c.data|
    {
      if !task.error {
        if accepted {
          log := log + [c];
        } else {
          task.error := true;
        }
      }
      ioCompleted := ioCompleted + |c.data|;
      if !task.error {
        task.numBytes := task.numBytes + |c.data|;
      }
    }

    /** Step 6: the event is finished, or re-queued for what is left. */
    method TrackCompletion(task: TaskLocals, e: Event, whole: bool)
      requires e.Body?
      modifies task`numParts, task`completed, task`incomplete
      ensures var again := !whole && !task.error;
              && Reverse(task.incomplete) == Reverse(old(task.incomplete)) + (if again then [e] else [])
              && task.numParts == old(task.numParts) + (if again then 0 else 1)
              && task.completed ==
                 old(task.completed) + (if whole && !task.error then [Completed(e.part, e.sent)] else [])
    {
      if whole || task.error {
        task.numParts := task.numParts + 1;
        if !task.error {
          task.completed := task.completed + [Completed(e.part, e.sent)];
        }
      } else {
        ReversePush(task.incomplete, e);
        task.incomplete := [e] + task.incomplete;
      }
    }

    /** A body event with `n` bytes to deliver. */
    method DeliverPortion(task: TaskLocals, e: Event, n: nat, accepted: bool)
      requires e.Body? && EventOk(plan, e) && n <= |PartBody(plan, e.part)| - e.sent
      requires plan.windowed ==> n <= task.allowed
      modifies task, this`ioCompleted, this`nextStart, this`log
      ensures LoopState(task) == DeliverBytes(plan, old(LoopState(task)), e, n, accepted)
    {
      hide Reverse, PartOf;
      if plan.windowed {
        task.allowed := task.allowed - n;
      }
      var start := PartOf(plan.parts, e.part).start + e.sent;
      CheckOrder(task, e.part, start, n);
      SinkBytes(task, Chunk(e.part, start, PartBody(plan, e.part)[e.sent..e.sent + n]), accepted);
      TrackCompletion(task, Body(e.part, e.sent + n), e.sent + n == |PartBody(plan, e.part)|);
    }

    method DeliverEvent(task: TaskLocals, e: Event, accepted: bool)
      requires EventOk(plan, e)
      modifies task, this`ioCompleted, this`nextStart, this`log
      ensures LoopState(task) == DeliverOne(plan, old(LoopState(task)), e, accepted)
    {
      if e.Notice? {
        return;
      }
      if PartBody(plan, e.part) == [] {
        task.numParts := task.numParts + 1;
        if !task.error {
          task.completed := task.completed + [Completed(e.part, 0)];
        }
        return;
      }
      var n := |PartBody(plan, e.part)| - e.sent;
      if plan.windowed && n > task.allowed {
        n := task.allowed;
      }
      if n == 0 {
        ReversePush(task.incomplete, e);
        task.incomplete := [e] + task.incomplete;
        return;
      }
      DeliverPortion(task, e, n, accepted);
    }

    /** The delivery loop; `accepted(i)` is the sink's answer to the i-th event. */
    method DeliverEvents(task: TaskLocals, accepted: nat -> bool)
      requires EventsOk(plan, run.batch) && LoopState(task) == StartTick(Model())
      modifies task, this`ioCompleted, this`nextStart, this`log
      ensures LoopState(task) == RunTick(plan, old(Model()), accepted)
    {
      var i := 0;
      while i < |run.batch|
        invariant i <= |run.batch|
        invariant DeliverFrom(plan, LoopState(task), run.batch, i, accepted) == RunTick(plan, old(Model()), accepted)
      {
        DeliverEvent(task, run.batch[i], accepted(i));
        i := i + 1;
      }
    }

    /** Push the incomplete events back, last one first, and reschedule if the window has room. */
    method RequeueIncomplete(task: TaskLocals)
      modifies this`events, this`scheduled
      ensures Model() == Requeue(old(Model()), LoopState(task))
    {
      if |task.incomplete| == 0 {
        return;
      }
      var i := 0;
      while i < |task.incomplete|
        invariant i <= |task.incomplete|
        invariant events == Reverse(task.incomplete[..i]) + old(events)
        invariant Model() == old(Model()).(events := events)
      {
        assert task.incomplete[..i + 1] == task.incomplete[..i] + [task.incomplete[i]];
        ReverseAppend(task.incomplete[..i], task.incomplete[i]);
        events := [task.incomplete[i]] + events;
        i := i + 1;
      }
      assert task.incomplete[..i] == task.incomplete;
      ReverseNonEmpty(task.incomplete);
      if Allowed(window, ioCompleted) > 0 && !task.error {
        ScheduleDelivery();
      }
    }

    method MarkDelivered(p: nat) returns (ok: bool)
      requires Discovered()
      modifies this`marked, mask.bytes
      ensures Discovered()
      ensures Mark(plan, old(Model()), p) == if ok then Model() else old(Model()).(failed := true)
      ensures !ok ==> Model() == old(Model())
    {
      hide Held, Init;
      ok := mask.Mark(p);
      if ok {
        marked := marked + {p};
      }
    }

    /** Mark one part and, out of order, record it; `ok` says whether to go on. */
    method RecordOne(c: Completed) returns (ok: bool)
      requires Discovered() && 1 <= c.part <= |plan.parts|
      modifies this`marked, this`failed, prefix, mask.bytes
      ensures Discovered() && Model() == MarkOne(plan, old(Model()), c)
      ensures ok == !(plan.outOfOrder && Recorded(plan, old(Model()), c).InvalidState?)
    {
      hide RecordDelivered, PartOf, Model, Discovered;
      ok := true;
      var marked := MarkDelivered(c.part);
      if !marked {
        SetFail();
      }
      if plan.outOfOrder {
        var part := PartOf(plan.parts, c.part);
        ok := RecordPart(Record(c.part, part.start, part.end, c.bytes));
        if !ok {
          SetFail();
        }
      }
    }

    method RecordPart(r: Record) returns (ok: bool)
      modifies prefix
      ensures var m := old(Model());
              ok == RecordDelivered(m.tracker, r).Ok? && Model() == m.(tracker := RecordDelivered(m.tracker, r).tracker)
      ensures old(Discovered()) ==> Discovered()
    {
      hide RecordDelivered;
      ok := prefix.RecordDeliveredPart(r);
    }

    /** Mark and record what this tick completed. */
    method RecordCompleted(done: seq<Completed>)
      requires Discovered() && DoneOk(plan, done)
      modifies this`marked, this`failed, prefix, mask.bytes
      ensures Discovered() && Model() == MarkCompleted(plan, old(Model()), done)
    {
      hide MarkOne, Recorded;
      var i := 0;
      while i < |done|
        invariant i <= |done| && Discovered()
        invariant MarkCompleted(plan, Model(), done[i..]) == MarkCompleted(plan, old(Model()), done)
      {
        assert done[i..][1..] == done[i + 1..];
        var ok := RecordOne(done[i]);
        if !ok {
          return;
        }
        i := i + 1;
      }
    }

    /** The last critical section of the delivery task. */
    method FinishDelivery(task: TaskLocals, ghost before: Meta)
      requires Discovered() && DoneOk(plan, task.completed)
      requires Model() == before.(ioCompleted := ioCompleted, nextStart := nextStart, log := log)
      modifies this`failed, this`events, this`scheduled, this`completed, this`marked, this`run, prefix, mask.bytes
      ensures Discovered() && Model() == Close(plan, before, old(LoopState(task)))
    {
      hide Allowed, MarkCompleted, Reverse;
      ghost var t := LoopState(task);
      SettleDelivery(task, before);
      assert Model() == Settle(before, t);
      RecordCompleted(task.completed);
      CountDelivered(task.numBytes);
      run := run.(active := false, batch := []);
    }

    method CountDelivered(n: nat)
      modifies prefix
      ensures Model() == CountBytes(plan, old(Model()), n)
    {
      if !plan.outOfOrder {
        prefix.CountDelivered(n);
      }
    }

    method SettleDelivery(task: TaskLocals, ghost before: Meta)
      requires Model() == before.(ioCompleted := ioCompleted, nextStart := nextStart, log := log)
      modifies this`failed, this`events, this`scheduled, this`completed
      ensures Model() == Settle(before, old(LoopState(task)))
    {
      hide Requeue, Reverse;
      if task.error {
        failed := true;
      }
      RequeueIncomplete(task);
      completed := completed + task.numParts;
    }

    /** The end of a write worker's task: it opens the read window by what it wrote, and completes the part. */
    method BodyWritten(p: nat, written: bool, telemetry: bool)
      requires Discovered() && 1 <= p <= |plan.parts|
      modifies this`window, this`scheduled, this`events, this`writes, this`completed, this`log, this`marked, this`failed
      modifies prefix, mask.bytes
      ensures Discovered()
      ensures var m := if written && backpressure then OpenWindow(old(Model()), |PartBody(plan, p)|) else old(Model());
              Model() == WriteFinished(plan, m, p, written, telemetry)
    {
      hide MarkCompleted, OpenWindow, AddEvent;
      if written {
        IncrementReadWindow(|PartBody(plan, p)|);
      }
      CompleteWrite(p, written);
      if telemetry {
        AddEventForDelivery(Notice);
      }
    }

    method CompleteWrite(p: nat, written: bool)
      requires Discovered() && 1 <= p <= |plan.parts|
      modifies this`writes, this`completed, this`log, this`marked, this`failed, prefix, mask.bytes
      ensures Discovered() && Model() == WriteDone(plan, old(Model()), p, written)
    {
      hide MarkCompleted, Model, Discovered;
      LeaveWriter(p);
      if written {
        LogWritten(Chunk(p, PartOf(plan.parts, p).start, PartBody(plan, p)));
        RecordCompleted([Completed(p, |PartBody(plan, p)|)]);
      } else {
        SetFail();
      }
    }

    method LeaveWriter(p: nat)
      modifies this`writes, this`completed
      ensures Model() == old(Model()).(writes := old(Model()).writes - {p}, completed := old(Model()).completed + 1)
      ensures old(Discovered()) ==> Discovered()
    {
      writes, completed := writes - {p}, completed + 1;
    }

    method LogWritten(c: Chunk)
      modifies this`log
      ensures Model() == old(Model()).(log := old(Model()).log + [c]) && (old(Discovered()) ==> Discovered())
    {
      log := log + [c];
    }
  }

  lemma ReverseNonEmpty(es: seq<Event>)
    ensures Reverse(es) == [] <==> es == []
  {
  }
}
