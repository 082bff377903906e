/** Delivery of response bodies to the caller: the ordered part queue, the event array, and the delivery
    task that hands out as many bytes as the read window allows and re-queues what is left.

    The task is two steps, because the meta request is unlocked between them: `Begin` swaps the event array
    out under the lock, `End` runs the delivery loop and its closing critical section. Any other step may
    come in between. */
module Delivery {
  import opened ObjectParts
  import opened PrefixTracker

  const U64: nat := 0x1_0000_0000_0000_0000

  /** A queued event: a part's body, of which `sent` bytes were already delivered, or a progress or telemetry
      notice, which carries no body bytes. */
  datatype Event = Body(part: nat, sent: nat) | Notice

  /** Bytes the sink accepted, with the absolute object offset they were handed over at. */
  datatype Chunk = Chunk(part: nat, offset: nat, data: seq<byte>)

  datatype Completed = Completed(part: nat, bytes: nat)

  /** What discovery settles: the parts, how many the delivery mask covers (0 when there is no mask), and how
      bodies are delivered. */
  datatype Plan = Plan(
    parts: seq<Part>,
    total: nat,
    windowed: bool,         // the read window limits delivery
    outOfOrder: bool,
    parallelWrites: bool)   // out of order into a file: bodies go to write workers

  datatype Meta = Meta(
    pending: set<nat>,      // pending_body_streaming_requests, a min-heap by part number
    nextPart: nat,          // next_streaming_part
    events: seq<Event>,     // event_delivery_array
    scheduled: bool,        // event_delivery_task_scheduled
    active: bool,           // event_delivery_active
    batch: seq<Event>,      // the array swapped out by the running task
    batchAllowed: nat,      // bytes_allowed_to_deliver when the task began
    batchError: bool,       // had the meta request a finish result when the task began?
    window: nat,            // read_window_running_total
    ioCompleted: nat,       // num_bytes_delivery_completed
    nextStart: nat,         // next_deliver_range_start
    sent: nat,              // num_parts_delivery_sent
    completed: nat,         // num_parts_delivery_completed
    tracker: Tracker,
    writes: set<nat>,       // body writes handed to file workers
    failed: bool,           // a finish result is set
    log: seq<Chunk>,        // everything the sink accepted
    arrived: set<nat>,      // parts whose bodies were handed over for delivery
    marked: set<nat>)       // the delivered-parts mask

  function Init(window: nat): Meta {
    Meta({}, 1, [], false, false, [], 0, false, window, 0, 0, 0, 0, EMPTY, {}, false, [], {}, {})
  }

  function PartBody(plan: Plan, p: nat): seq<byte>
    requires 1 <= p <= |plan.parts|
  {
    PartOf(plan.parts, p).body
  }

  /** A queued body has bytes left to deliver, unless it never had any. */
  predicate EventOk(plan: Plan, e: Event) {
    e.Body? ==>
      && 1 <= e.part <= |plan.parts|
      && (e.sent < |PartBody(plan, e.part)| || (e.sent == 0 && PartBody(plan, e.part) == []))
      && (!plan.windowed ==> e.sent == 0)
  }

  predicate EventsOk(plan: Plan, es: seq<Event>) {
    forall i :: 0 <= i < |es| ==> EventOk(plan, es[i])
  }

  // ----- The delivery loop -----

  /** The loop's variables. `kept` holds the re-queued events in their original order. */
  datatype Tick = Tick(
    error: bool,
    allowed: nat,
    ioCompleted: nat,
    nextStart: nat,
    log: seq<Chunk>,
    numParts: nat,
    numBytes: nat,
    kept: seq<Event>,
    done: seq<Completed>)

  /** How many bytes of the event go out this tick. */
  function Portion(plan: Plan, t: Tick, e: Event): (n: nat)
    requires e.Body? && EventOk(plan, e)
  {
    var left := |PartBody(plan, e.part)| - e.sent;
    if plan.windowed && left > t.allowed then t.allowed else left
  }

  function DeliverEmptyBody(t: Tick, e: Event): Tick
    requires e.Body?
  {
    t.(numParts := t.numParts + 1, done := if t.error then t.done else t.done + [Completed(e.part, 0)])
  }

  /** Hand `n > 0` bytes to the sink. `accepted` says whether the sink (and the running checksum) took them. */
  function DeliverBytes(plan: Plan, t: Tick, e: Event, n: nat, accepted: bool): Tick
    requires e.Body? && EventOk(plan, e) && n <= |PartBody(plan, e.part)| - e.sent
    requires plan.windowed ==> n <= t.allowed
  {
    var start := PartOf(plan.parts, e.part).start + e.sent;
    var expected := if !plan.outOfOrder && e.part == 1 then start else t.nextStart;
    var error := t.error || (!plan.outOfOrder && start != expected) || !accepted;
    var advanced := t.(
      error := error,
      allowed := if plan.windowed then t.allowed - n else t.allowed,
      ioCompleted := t.ioCompleted + n,
      nextStart := if plan.outOfOrder then t.nextStart else expected + n,
      log := if error then t.log else t.log + [Chunk(e.part, start, PartBody(plan, e.part)[e.sent..e.sent + n])],
      numBytes := if error then t.numBytes else t.numBytes + n);
    if e.sent + n < |PartBody(plan, e.part)| && !error then
      advanced.(kept := t.kept + [Body(e.part, e.sent + n)])
    else
      advanced.(
        numParts := t.numParts + 1,
        done := if error then t.done else t.done + [Completed(e.part, e.sent + n)])
  }

  function DeliverOne(plan: Plan, t: Tick, e: Event, accepted: bool): Tick
    requires EventOk(plan, e)
  {
    if e.Notice? then t
    else if PartBody(plan, e.part) == [] then DeliverEmptyBody(t, e)
    else
      var n := Portion(plan, t, e);
      if n == 0 then t.(kept := t.kept + [e]) else DeliverBytes(plan, t, e, n, accepted)
  }

  /** The loop over the batch from index `i`; `accepted(j)` is the sink's answer to the j-th event. */
  function DeliverFrom(plan: Plan, t: Tick, es: seq<Event>, i: nat, accepted: nat -> bool): Tick
    requires EventsOk(plan, es) && i <= |es|
    decreases |es| - i
  {
    if i == |es| then t
    else DeliverFrom(plan, DeliverOne(plan, t, es[i], accepted(i)), es, i + 1, accepted)
  }

  // ----- The steps -----

  /** `aws_s3_meta_request_add_event_for_delivery_synced` with no event. */
  function Schedule(m: Meta): Meta {
    if !m.scheduled && m.events != [] then m.(scheduled := true) else m
  }

  function AddEvent(m: Meta, e: Event): Meta {
    Schedule(m.(events := m.events + [e]))
  }

  predicate TopIs(pending: set<nat>, p: nat) {
    p in pending && forall q :: q in pending ==> p <= q
  }

  /** Move every body that is next in part order from the queue to the event array. */
  function PopReady(m: Meta): Meta
    decreases |m.pending|
  {
    if !TopIs(m.pending, m.nextPart) then m
    else
      PopReady(AddEvent(
        m.(pending := m.pending - {m.nextPart}, nextPart := m.nextPart + 1, sent := m.sent + 1),
        Body(m.nextPart, 0)))
  }

  /** `aws_s3_meta_request_stream_response_body_synced`: part `p` has arrived. */
  function Stream(plan: Plan, m: Meta, p: nat): Meta {
    var m := m.(arrived := m.arrived + {p});
    if !plan.outOfOrder then PopReady(m.(pending := m.pending + {p}))
    else if plan.parallelWrites then m.(sent := m.sent + 1, writes := m.writes + {p})
    else AddEvent(m.(sent := m.sent + 1), Body(p, 0))
  }

  function OpenWindow(m: Meta, n: nat): Meta {
    if n == 0 then m
    else Schedule(m.(window := if m.window + n >= U64 then U64 - 1 else m.window + n))
  }

  /** The unsigned subtraction of `num_bytes_delivery_completed` from the window. */
  function Allowed(window: nat, ioCompleted: nat): nat {
    (window - ioCompleted) % U64
  }

  function Begin(m: Meta): Meta {
    m.(batch := m.events, events := [], active := true, scheduled := false,
       batchError := m.failed, batchAllowed := Allowed(m.window, m.ioCompleted))
  }

  function StartTick(m: Meta): Tick {
    Tick(m.batchError, m.batchAllowed, m.ioCompleted, m.nextStart, m.log, 0, 0, [], [])
  }

  function RunTick(plan: Plan, m: Meta, accepted: nat -> bool): Tick
    requires EventsOk(plan, m.batch)
  {
    DeliverFrom(plan, StartTick(m), m.batch, 0, accepted)
  }

  /** `s_mark_part_delivered`. */
  function Mark(plan: Plan, m: Meta, p: nat): Meta {
    if plan.total > 0 && (p < 1 || p > plan.total || p in m.marked) then m.(failed := true)
    else m.(marked := m.marked + {p})
  }

  /** Out of order, the part is also folded into the delivered prefix. */
  function Recorded(plan: Plan, m: Meta, c: Completed): Outcome
    requires 1 <= c.part <= |plan.parts|
  {
    var part := PartOf(plan.parts, c.part);
    RecordDelivered(m.tracker, Record(c.part, part.start, part.end, c.bytes))
  }

  function MarkOne(plan: Plan, m: Meta, c: Completed): Meta
    requires 1 <= c.part <= |plan.parts|
  {
    var marked := Mark(plan, m, c.part);
    if !plan.outOfOrder then marked
    else
      var r := Recorded(plan, m, c);
      marked.(tracker := r.tracker, failed := marked.failed || r.InvalidState?)
  }

  predicate DoneOk(plan: Plan, done: seq<Completed>) {
    forall i :: 0 <= i < |done| ==> 1 <= done[i].part <= |plan.parts|
  }

  /** Mark and record the parts completed this tick; a recording error ends the pass. */
  function MarkCompleted(plan: Plan, m: Meta, done: seq<Completed>): Meta
    requires DoneOk(plan, done)
    decreases |done|
  {
    if done == [] then m
    else if plan.outOfOrder && Recorded(plan, m, done[0]).InvalidState? then MarkOne(plan, m, done[0])
    else MarkCompleted(plan, MarkOne(plan, m, done[0]), done[1..])
  }

  /** Put the unfinished events back ahead of those that arrived meanwhile, and reschedule if there is room. */
  function Requeue(m: Meta, t: Tick): Meta {
    if t.kept == [] then m
    else
      var q := m.(events := t.kept + m.events);
      if Allowed(m.window, t.ioCompleted) > 0 && !t.error then Schedule(q) else q
  }

  /** The closing critical section up to the marks: record the outcome, re-queue, count the parts. */
  function Settle(m: Meta, t: Tick): Meta {
    Requeue(m.(ioCompleted := t.ioCompleted, nextStart := t.nextStart, log := t.log, failed := m.failed || t.error), t)
      .(completed := m.completed + t.numParts)
  }

  /** Delivering in object order, the prefix and the total advance together. */
  function CountBytes(plan: Plan, m: Meta, numBytes: nat): Meta {
    if plan.outOfOrder then m
    else m.(tracker := m.tracker.(delivered := m.tracker.delivered + numBytes, total := m.tracker.total + numBytes))
  }

  function Close(plan: Plan, m: Meta, t: Tick): Meta
    requires DoneOk(plan, t.done)
  {
    CountBytes(plan, MarkCompleted(plan, Settle(m, t), t.done), t.numBytes).(active := false, batch := [])
  }

  /** What becomes of part `p` when its write worker reports. */
  function WriteDone(plan: Plan, m: Meta, p: nat, written: bool): Meta
    requires 1 <= p <= |plan.parts|
  {
    var m := m.(writes := m.writes - {p}, completed := m.completed + 1);
    if !written then m.(failed := true)
    else
      var part := PartOf(plan.parts, p);
      var m := m.(log := m.log + [Chunk(p, part.start, part.body)]);
      MarkCompleted(plan, m, [Completed(p, |part.body|)])
  }

  /** The completion section of a write worker (`s_s3_body_write_task`), which may queue a telemetry event. */
  function WriteFinished(plan: Plan, m: Meta, p: nat, written: bool, telemetry: bool): Meta
    requires 1 <= p <= |plan.parts|
  {
    var r := WriteDone(plan, m, p, written);
    if telemetry then AddEvent(r, Notice) else r
  }
}
