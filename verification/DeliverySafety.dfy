/** The invariant of delivery and its preservation by every step. */
module DeliverySafety {
  import opened ObjectParts
  import opened Delivery
  import opened DeliveryLog

  predicate PlanOk(plan: Plan) {
    && Contiguous(plan.parts)
    && (|plan.parts| > 1 ==> plan.parts[0].body != [])
    && (plan.total == 0 || plan.total == |plan.parts|)
    && (plan.windowed ==> !plan.parallelWrites)
  }

  /** What out-of-order delivery needs of the recorded ranges to track its prefix without error. */
  predicate Joins(plan: Plan) {
    plan.outOfOrder ==> Linked(plan.parts)
  }

  function ChunkOf(plan: Plan, e: Event, n: nat): Chunk
    requires e.Body? && EventOk(plan, e) && e.sent + n <= |PartBody(plan, e.part)|
  {
    Chunk(e.part, PartOf(plan.parts, e.part).start + e.sent, PartBody(plan, e.part)[e.sent..e.sent + n])
  }

  // ----- Every part is delivered at most once, and what the log holds of it is what is not queued -----

  /** An arrived part is in exactly one place: idle (in the heap or with a write worker), queued, or
      delivered; and the sink has received precisely the bytes that place implies. */
  ghost predicate Counts(plan: Plan, log: seq<Chunk>, pend: seq<Event>, marked: set<nat>, idle: set<nat>,
                         arrived: set<nat>)
  {
    && EventsOk(plan, pend) && NoDup(pend) && InSync(log, pend)
    && arrived == marked + idle + Queued(pend)
    && marked !! idle && marked !! Queued(pend) && idle !! Queued(pend)
    && Received(plan, log, marked, Queued(pend), arrived)
  }

  /** Delivered parts were received whole; parts neither delivered nor queued not at all. */
  ghost predicate Received(plan: Plan, log: seq<Chunk>, marked: set<nat>, queued: set<nat>, arrived: set<nat>) {
    && (forall p :: p in arrived ==> 1 <= p <= |plan.parts|)
    && (forall p :: p in marked && p in arrived ==> Sent(log, p) == |PartBody(plan, p)|)
    && (forall p :: p !in marked && p !in queued ==> Sent(log, p) == 0)
  }

  lemma EventsOkConcat(plan: Plan, a: seq<Event>, b: seq<Event>)
    ensures EventsOk(plan, a + b) <==> EventsOk(plan, a) && EventsOk(plan, b)
  {
    var ab := a + b;
    assert forall i :: 0 <= i < |a| ==> ab[i] == a[i];
    assert forall i :: 0 <= i < |b| ==> ab[|a| + i] == b[i];
    assert forall i :: 0 <= i < |ab| ==> ab[i] == if i < |a| then a[i] else b[i - |a|];
  }

  lemma EventsOkAround(plan: Plan, a: seq<Event>, e: Event, b: seq<Event>)
    ensures EventsOk(plan, a + [e] + b) <==> EventsOk(plan, a + b) && EventOk(plan, e)
    ensures EventsOk(plan, a + b) <==> EventsOk(plan, a) && EventsOk(plan, b)
  {
    EventsOkConcat(plan, a, b);
    EventsOkConcat(plan, a + [e], b);
    EventsOkConcat(plan, a, [e]);
    assert EventsOk(plan, [e]) <==> EventOk(plan, [e][0]);
  }

  /** An event that delivers its last bytes leaves the queue and its part becomes delivered. */
  lemma CountsFinish(plan: Plan, log: seq<Chunk>, log': seq<Chunk>, a: seq<Event>, e: Event, b: seq<Event>,
                     marked: set<nat>, idle: set<nat>, arrived: set<nat>)
    requires Counts(plan, log, a + [e] + b, marked, idle, arrived) && e.Body? && 1 <= e.part <= |plan.parts|
    requires forall p :: Sent(log', p) == if p == e.part then |PartBody(plan, e.part)| else Sent(log, p)
    ensures Counts(plan, log', a + b, marked + {e.part}, idle, arrived)
    ensures e.part !in marked
  {
    EventsOkAround(plan, a, e, b);
    Around(log, a, e, b);
    InSyncFrame(log, log', a + b);
  }

  lemma CountsNotice(plan: Plan, log: seq<Chunk>, a: seq<Event>, e: Event, b: seq<Event>,
                     marked: set<nat>, idle: set<nat>, arrived: set<nat>)
    requires Counts(plan, log, a + [e] + b, marked, idle, arrived) && e.Notice?
    ensures Counts(plan, log, a + b, marked, idle, arrived)
  {
    EventsOkAround(plan, a, e, b);
    Around(log, a, e, b);
  }

  /** An event that delivers some of its bytes stays queued for the rest. */
  lemma CountsAdvance(plan: Plan, log: seq<Chunk>, log': seq<Chunk>, a: seq<Event>, e: Event, f: Event, b: seq<Event>,
                      marked: set<nat>, idle: set<nat>, arrived: set<nat>)
    requires Counts(plan, log, a + [e] + b, marked, idle, arrived) && e.Body? && f.Body? && e.part == f.part
    requires EventOk(plan, f)
    requires forall p :: Sent(log', p) == if p == e.part then f.sent else Sent(log, p)
    ensures Counts(plan, log', a + [f] + b, marked, idle, arrived)
  {
    EventsOkAround(plan, a, e, b);
    EventsOkAround(plan, a, f, b);
    Around(log, a, e, b);
    Around(log', a, f, b);
    InSyncFrame(log, log', a + b);
  }

  lemma CountsAppend(plan: Plan, log: seq<Chunk>, pend: seq<Event>, marked: set<nat>, idle: set<nat>,
                     arrived: set<nat>, p: nat)
    requires Counts(plan, log, pend, marked, idle, arrived) && p in idle
    ensures Counts(plan, log, pend + [Body(p, 0)], marked, idle - {p}, arrived)
  {
    var e := Body(p, 0);
    assert pend + [e] == pend + [e] + [] && pend + [] == pend;
    EventsOkAround(plan, pend, e, []);
    Around(log, pend, e, []);
  }

  lemma CountsArriveQueued(plan: Plan, log: seq<Chunk>, pend: seq<Event>, marked: set<nat>, idle: set<nat>,
                           arrived: set<nat>, p: nat)
    requires Counts(plan, log, pend, marked, idle, arrived) && p !in arrived && 1 <= p <= |plan.parts|
    ensures Counts(plan, log, pend + [Body(p, 0)], marked, idle, arrived + {p})
  {
    var e := Body(p, 0);
    assert pend + [e] == pend + [e] + [] && pend + [] == pend;
    EventsOkAround(plan, pend, e, []);
    Around(log, pend, e, []);
  }

  lemma CountsArrive(plan: Plan, log: seq<Chunk>, pend: seq<Event>, marked: set<nat>, idle: set<nat>,
                     arrived: set<nat>, p: nat)
    requires Counts(plan, log, pend, marked, idle, arrived) && p !in arrived && 1 <= p <= |plan.parts|
    ensures Counts(plan, log, pend, marked, idle + {p}, arrived + {p})
  {
  }

  // ----- In order: what was delivered plus what is queued is the object up to the next part -----

  ghost predicate Ordered(plan: Plan, log: seq<Chunk>, pend: seq<Event>, upTo: nat, nextStart: nat)
    requires EventsOk(plan, pend)
  {
    Conserved(plan, Bytes(log), pend, upTo) && Positioned(plan, |Bytes(log)|, pend, nextStart)
  }

  ghost predicate Conserved(plan: Plan, bytes: seq<byte>, pend: seq<Event>, upTo: nat)
    requires EventsOk(plan, pend)
  {
    upTo <= |plan.parts| && bytes + Rest(plan, pend) == Content(plan.parts[..upTo])
  }

  /** The queue continues the stream, and the order check expects what comes next. */
  ghost predicate Positioned(plan: Plan, count: nat, pend: seq<Event>, nextStart: nat)
    requires EventsOk(plan, pend)
  {
    |plan.parts| > 0 ==>
      var pos := plan.parts[0].start + count;
      Aligned(plan, pend, pos) && (count > 0 ==> nextStart == pos)
  }

  /** Removing an event with nothing left to deliver, wherever it is in the queue. */
  lemma OrderedDrop(plan: Plan, log: seq<Chunk>, a: seq<Event>, e: Event, b: seq<Event>, upTo: nat, nextStart: nat)
    requires EventsOk(plan, a) && EventsOk(plan, b) && EventOk(plan, e) && Remaining(plan, e) == []
    requires EventsOk(plan, a + [e] + b) && Ordered(plan, log, a + [e] + b, upTo, nextStart)
    ensures EventsOk(plan, a + b) && Ordered(plan, log, a + b, upTo, nextStart)
  {
    Drop(plan, a, e, b, if |plan.parts| > 0 then plan.parts[0].start + |Bytes(log)| else 0);
  }

  /** The head event's next byte is the stream's next byte, so the order check passes. */
  lemma HeadInOrder(plan: Plan, log: seq<Chunk>, e: Event, b: seq<Event>, upTo: nat, nextStart: nat)
    requires PlanOk(plan) && EventsOk(plan, [e] + b) && e.Body? && EventOk(plan, e) && Remaining(plan, e) != []
    requires Ordered(plan, log, [e] + b, upTo, nextStart)
    ensures PartOf(plan.parts, e.part).start + e.sent == plan.parts[0].start + |Bytes(log)|
    ensures e.part == 1 || nextStart == PartOf(plan.parts, e.part).start + e.sent
  {
    if e.part != 1 {
      StartOf(plan.parts, e.part - 1);
      StartOf(plan.parts, 1);
      ContentStep(plan.parts, 0);
      FirstPartPrecedes(plan, e.part - 1);
    }
  }

  lemma {:induction false} FirstPartPrecedes(plan: Plan, k: nat)
    requires 1 <= k < |plan.parts|
    ensures |Content(plan.parts[..k])| >= |plan.parts[0].body|
  {
    if k == 1 {
      ContentStep(plan.parts, 0);
    } else {
      FirstPartPrecedes(plan, k - 1);
      ContentStep(plan.parts, k - 1);
    }
  }

  /** Splitting off the bytes just delivered. */
  lemma Split(bytes: seq<byte>, body: seq<byte>, from: nat, n: nat, rest: seq<byte>)
    requires from + n <= |body|
    ensures bytes + (body[from..] + rest) == (bytes + body[from..from + n]) + (body[from + n..] + rest)
  {
    assert body[from..] == body[from..from + n] + body[from + n..];
  }

  lemma SplitAll(bytes: seq<byte>, body: seq<byte>, from: nat, rest: seq<byte>)
    requires from <= |body|
    ensures body[from..|body|] == body[from..]
    ensures bytes + (body[from..] + rest) == (bytes + body[from..]) + rest
  {
  }

  lemma ConservedAdvance(plan: Plan, bytes: seq<byte>, e: Event, n: nat, b: seq<Event>, upTo: nat)
    requires EventsOk(plan, b) && plan.windowed && e.Body? && EventOk(plan, e)
    requires 0 < n && e.sent + n < |PartBody(plan, e.part)|
    requires EventsOk(plan, [e] + b) && Conserved(plan, bytes, [e] + b, upTo)
    ensures EventsOk(plan, [Body(e.part, e.sent + n)] + b)
    ensures Conserved(plan, bytes + PartBody(plan, e.part)[e.sent..e.sent + n], [Body(e.part, e.sent + n)] + b, upTo)
  {
    hide Rest, Content, Aligned;
    Head(plan, e, b, 0);
    Head(plan, Body(e.part, e.sent + n), b, 0);
    Split(bytes, PartBody(plan, e.part), e.sent, n, Rest(plan, b));
  }

  lemma PositionedAdvance(plan: Plan, count: nat, e: Event, n: nat, b: seq<Event>, nextStart: nat)
    requires EventsOk(plan, b) && plan.windowed && e.Body? && EventOk(plan, e)
    requires 0 < n && e.sent + n < |PartBody(plan, e.part)|
    requires EventsOk(plan, [e] + b) && Positioned(plan, count, [e] + b, nextStart)
    ensures EventsOk(plan, [Body(e.part, e.sent + n)] + b)
    ensures Positioned(plan, count + n, [Body(e.part, e.sent + n)] + b, PartOf(plan.parts, e.part).start + e.sent + n)
  {
    hide Rest, Aligned;
    var pos := plan.parts[0].start + count;
    Head(plan, e, b, pos);
    Head(plan, Body(e.part, e.sent + n), b, pos + n);
  }

  /** The head event delivers `n` bytes and stays. */
  lemma OrderedAdvance(plan: Plan, log: seq<Chunk>, e: Event, n: nat, b: seq<Event>, upTo: nat, nextStart: nat)
    requires EventsOk(plan, b) && e.Body? && EventOk(plan, e) && 0 < n && e.sent + n < |PartBody(plan, e.part)|
    requires plan.windowed
    requires EventsOk(plan, [e] + b) && Ordered(plan, log, [e] + b, upTo, nextStart)
    ensures EventsOk(plan, [Body(e.part, e.sent + n)] + b)
    ensures Ordered(plan, log + [ChunkOf(plan, e, n)], [Body(e.part, e.sent + n)] + b, upTo,
                    PartOf(plan.parts, e.part).start + e.sent + n)
  {
    hide Conserved, Positioned;
    LogStep(log, ChunkOf(plan, e, n), 0);
    ConservedAdvance(plan, Bytes(log), e, n, b, upTo);
    PositionedAdvance(plan, |Bytes(log)|, e, n, b, nextStart);
  }

  lemma ConservedFinish(plan: Plan, bytes: seq<byte>, e: Event, b: seq<Event>, upTo: nat)
    requires EventsOk(plan, b) && e.Body? && EventOk(plan, e)
    requires EventsOk(plan, [e] + b) && Conserved(plan, bytes, [e] + b, upTo)
    ensures var body := PartBody(plan, e.part);
            Conserved(plan, bytes + body[e.sent..e.sent + (|body| - e.sent)], b, upTo)
  {
    hide Rest, Content, Aligned;
    Head(plan, e, b, 0);
    SplitAll(bytes, PartBody(plan, e.part), e.sent, Rest(plan, b));
  }

  lemma PositionedFinish(plan: Plan, count: nat, e: Event, b: seq<Event>, nextStart: nat)
    requires EventsOk(plan, b) && e.Body? && EventOk(plan, e) && Remaining(plan, e) != []
    requires EventsOk(plan, [e] + b) && Positioned(plan, count, [e] + b, nextStart)
    ensures var end := |PartBody(plan, e.part)|;
            Positioned(plan, count + (end - e.sent), b, PartOf(plan.parts, e.part).start + end)
  {
    hide Rest, Aligned;
    Head(plan, e, b, plan.parts[0].start + count);
  }

  /** The head event delivers everything it had left. */
  lemma OrderedFinish(plan: Plan, log: seq<Chunk>, e: Event, b: seq<Event>, upTo: nat, nextStart: nat)
    requires EventsOk(plan, b) && e.Body? && EventOk(plan, e) && Remaining(plan, e) != []
    requires EventsOk(plan, [e] + b) && Ordered(plan, log, [e] + b, upTo, nextStart)
    ensures Ordered(plan, log + [ChunkOf(plan, e, |PartBody(plan, e.part)| - e.sent)], b, upTo,
                    PartOf(plan.parts, e.part).start + |PartBody(plan, e.part)|)
  {
    hide Conserved, Positioned;
    var n := |PartBody(plan, e.part)| - e.sent;
    LogStep(log, ChunkOf(plan, e, n), 0);
    ConservedFinish(plan, Bytes(log), e, b, upTo);
    PositionedFinish(plan, |Bytes(log)|, e, b, nextStart);
  }

  /** Queueing the next part in order. */
  lemma OrderedAppend(plan: Plan, log: seq<Chunk>, pend: seq<Event>, upTo: nat, nextStart: nat)
    requires PlanOk(plan) && EventsOk(plan, pend) && upTo < |plan.parts|
    requires Ordered(plan, log, pend, upTo, nextStart)
    ensures EventsOk(plan, pend + [Body(upTo + 1, 0)])
    ensures Ordered(plan, log, pend + [Body(upTo + 1, 0)], upTo + 1, nextStart)
  {
    hide Rest, Content, Aligned, Bytes;
    Append(plan, pend, upTo + 1, plan.parts[0].start + |Bytes(log)|);
    ContentStep(plan.parts, upTo);
    StartOf(plan.parts, upTo);
    var body := PartBody(plan, upTo + 1);
    assert Bytes(log) + (Rest(plan, pend) + body) == (Bytes(log) + Rest(plan, pend)) + body;
  }
}
