/** The delivery loop keeps the invariant: an induction over the batch, one event at a time. */
module DeliveryLoop {
  import opened ObjectParts
  import opened Delivery
  import opened DeliveryLog
  import opened DeliverySafety

  ghost predicate Alive(plan: Plan, log: seq<Chunk>, pend: seq<Event>, marked: set<nat>, idle: set<nat>,
                        arrived: set<nat>, upTo: nat, nextStart: nat)
  {
    && LogOk(plan, log)
    && Counts(plan, log, pend, marked, idle, arrived)
    && (!plan.outOfOrder ==> Ordered(plan, log, pend, upTo, nextStart))
  }

  ghost function DoneParts(done: seq<Completed>): set<nat> {
    set i | 0 <= i < |done| :: done[i].part
  }

  /** The parts completed this tick were delivered whole, once each, and never before. */
  ghost predicate DoneWell(plan: Plan, done: seq<Completed>, marked: set<nat>) {
    && DoneOk(plan, done)
    && (forall i :: 0 <= i < |done| ==>
          done[i].bytes == |PartBody(plan, done[i].part)| && done[i].part !in marked)
    && (forall i, j :: 0 <= i < j < |done| ==> done[i].part != done[j].part)
  }

  lemma DonePartsStep(done: seq<Completed>, c: Completed)
    ensures DoneParts(done + [c]) == DoneParts(done) + {c.part}
  {
    var all := done + [c];
    assert forall i :: 0 <= i < |done| ==> all[i] == done[i];
    assert all[|done|] == c;
    forall p | p in DoneParts(done) + {c.part} ensures p in DoneParts(all) {
      if p in DoneParts(done) {
        var i :| 0 <= i < |done| && done[i].part == p;
        assert all[i].part == p;
      }
    }
  }

  /** Events are only re-queued once the window is used up. */
  ghost predicate KeptOk(plan: Plan, t: Tick) {
    EventsOk(plan, t.kept) && (t.kept != [] ==> plan.windowed && t.allowed == 0)
  }

  // ----- Bookkeeping that holds on every path, error or not -----

  ghost predicate Grows(plan: Plan, t: Tick, u: Tick) {
    && (t.error ==> u.error && u.log == t.log)
    && |Bytes(u.log)| - |Bytes(t.log)| == u.numBytes - t.numBytes
    && 0 <= u.numBytes - t.numBytes <= u.ioCompleted - t.ioCompleted
    && (plan.windowed ==> u.ioCompleted + u.allowed == t.ioCompleted + t.allowed)
  }

  lemma DeliverBytesGrows(plan: Plan, t: Tick, e: Event, n: nat, accepted: bool)
    requires e.Body? && EventOk(plan, e) && n <= |PartBody(plan, e.part)| - e.sent && (plan.windowed ==> n <= t.allowed)
    ensures Grows(plan, t, DeliverBytes(plan, t, e, n, accepted))
  {
    var start := PartOf(plan.parts, e.part).start + e.sent;
    LogStep(t.log, Chunk(e.part, start, PartBody(plan, e.part)[e.sent..e.sent + n]), 0);
  }

  lemma DeliverOneKept(plan: Plan, t: Tick, e: Event, accepted: bool)
    requires EventOk(plan, e) && KeptOk(plan, t) && DoneOk(plan, t.done)
    ensures var u := DeliverOne(plan, t, e, accepted);
            && KeptOk(plan, u) && DoneOk(plan, u.done)
            && BodyCount(u.kept) + u.numParts == BodyCount(t.kept) + t.numParts + if e.Body? then 1 else 0
  {
    if e.Body? && PartBody(plan, e.part) != [] {
      var n := Portion(plan, t, e);
      BodyCountConcat(t.kept, [e]);
      BodyCountConcat(t.kept, [Body(e.part, e.sent + n)]);
    }
  }

  lemma DeliverOneGrows(plan: Plan, t: Tick, e: Event, accepted: bool)
    requires EventOk(plan, e) && KeptOk(plan, t) && DoneOk(plan, t.done)
    ensures var u := DeliverOne(plan, t, e, accepted);
            && KeptOk(plan, u) && DoneOk(plan, u.done) && Grows(plan, t, u)
            && BodyCount(u.kept) + u.numParts == BodyCount(t.kept) + t.numParts + if e.Body? then 1 else 0
  {
    DeliverOneKept(plan, t, e, accepted);
    if e.Body? && PartBody(plan, e.part) != [] {
      DeliverBytesGrows(plan, t, e, Portion(plan, t, e), accepted);
    }
  }

  lemma {:induction false} DeliverGrows(plan: Plan, t: Tick, es: seq<Event>, i: nat, accepted: nat -> bool)
    requires EventsOk(plan, es) && i <= |es| && KeptOk(plan, t) && DoneOk(plan, t.done)
    ensures var u := DeliverFrom(plan, t, es, i, accepted);
            && KeptOk(plan, u) && DoneOk(plan, u.done) && Grows(plan, t, u)
            && BodyCount(u.kept) + u.numParts == BodyCount(t.kept) + t.numParts + BodyCount(es[i..])
    decreases |es| - i
  {
    if i < |es| {
      DeliverOneGrows(plan, t, es[i], accepted(i));
      DeliverGrows(plan, DeliverOne(plan, t, es[i], accepted(i)), es, i + 1, accepted);
      assert es[i..][1..] == es[i + 1..];
    } else {
      assert es[i..] == [];
    }
  }

  // ----- The invariant, case by case -----

  lemma DeliverEmpty(plan: Plan, t: Tick, e: Event, rest: seq<Event>, marked: set<nat>, idle: set<nat>,
                     arrived: set<nat>, upTo: nat)
    requires e.Body? && EventOk(plan, e) && EventsOk(plan, rest) && KeptOk(plan, t) && !t.error
    requires PartBody(plan, e.part) == [] && DoneWell(plan, t.done, marked)
    requires Alive(plan, t.log, t.kept + [e] + rest, marked + DoneParts(t.done), idle, arrived, upTo, t.nextStart)
    ensures var u := DeliverEmptyBody(t, e);
            && DoneWell(plan, u.done, marked)
            && Alive(plan, u.log, u.kept + rest, marked + DoneParts(u.done), idle, arrived, upTo, u.nextStart)
  {
    Around(t.log, t.kept, e, rest);
    CountsFinish(plan, t.log, t.log, t.kept, e, rest, marked + DoneParts(t.done), idle, arrived);
    DonePartsStep(t.done, Completed(e.part, 0));
    assert marked + DoneParts(t.done) + {e.part} == marked + (DoneParts(t.done) + {e.part});
    if !plan.outOfOrder {
      OrderedDrop(plan, t.log, t.kept, e, rest, upTo, t.nextStart);
    }
    DoneWellStep(plan, t.done, Completed(e.part, 0), marked);
  }

  lemma DoneWellStep(plan: Plan, done: seq<Completed>, c: Completed, marked: set<nat>)
    requires DoneWell(plan, done, marked) && 1 <= c.part <= |plan.parts| && c.bytes == |PartBody(plan, c.part)|
    requires c.part !in marked + DoneParts(done)
    ensures DoneWell(plan, done + [c], marked)
  {
    forall i | 0 <= i < |done| ensures done[i].part != c.part {
      assert done[i].part in DoneParts(done);
    }
  }

  /** Out of window: the event waits and nothing changes. */
  lemma DeliverNothing(t: Tick, e: Event, rest: seq<Event>)
    ensures t.kept + [e] + rest == (t.kept + [e]) + rest
  {
  }

  /** With window left, nothing is waiting in front of the event. */
  lemma NothingKept(plan: Plan, t: Tick, e: Event, rest: seq<Event>)
    requires e.Body? && EventOk(plan, e) && KeptOk(plan, t) && Portion(plan, t, e) > 0
    ensures t.kept == [] && t.kept + [e] + rest == [e] + rest
  {
  }

  lemma SentAfter(plan: Plan, log: seq<Chunk>, e: Event, n: nat)
    requires e.Body? && EventOk(plan, e) && e.sent + n <= |PartBody(plan, e.part)| && Sent(log, e.part) == e.sent
    ensures forall p :: Sent(log + [ChunkOf(plan, e, n)], p) == if p == e.part then e.sent + n else Sent(log, p)
  {
    forall p ensures Sent(log + [ChunkOf(plan, e, n)], p) == if p == e.part then e.sent + n else Sent(log, p) {
      LogStep(log, ChunkOf(plan, e, n), p);
    }
  }

  /** Does the order check let the event through? */
  predicate InOrder(plan: Plan, t: Tick, e: Event)
    requires e.Body? && EventOk(plan, e)
  {
    plan.outOfOrder || e.part == 1 || t.nextStart == PartOf(plan.parts, e.part).start + e.sent
  }

  lemma AcceptedSome(plan: Plan, t: Tick, e: Event, n: nat)
    requires e.Body? && EventOk(plan, e) && !t.error && t.kept == [] && InOrder(plan, t, e)
    requires 0 < n && e.sent + n < |PartBody(plan, e.part)| && (plan.windowed ==> n <= t.allowed)
    ensures var u := DeliverBytes(plan, t, e, n, true);
            && !u.error && u.done == t.done && u.kept == [Body(e.part, e.sent + n)]
            && u.log == t.log + [ChunkOf(plan, e, n)]
            && (!plan.outOfOrder ==> u.nextStart == PartOf(plan.parts, e.part).start + e.sent + n)
  {
  }

  lemma AcceptedAll(plan: Plan, t: Tick, e: Event, n: nat)
    requires e.Body? && EventOk(plan, e) && !t.error && t.kept == [] && InOrder(plan, t, e)
    requires e.sent + n == |PartBody(plan, e.part)| && (plan.windowed ==> n <= t.allowed)
    ensures var u := DeliverBytes(plan, t, e, n, true);
            && !u.error && u.done == t.done + [Completed(e.part, |PartBody(plan, e.part)|)] && u.kept == []
            && u.log == t.log + [ChunkOf(plan, e, n)]
            && (!plan.outOfOrder ==> u.nextStart == PartOf(plan.parts, e.part).start + |PartBody(plan, e.part)|)
  {
  }

  lemma HeadSent(plan: Plan, log: seq<Chunk>, e: Event, rest: seq<Event>, marked: set<nat>, idle: set<nat>,
                 arrived: set<nat>)
    requires Counts(plan, log, [e] + rest, marked, idle, arrived) && e.Body?
    ensures Sent(log, e.part) == e.sent
  {
    assert ([e] + rest)[0] == e;
  }

  lemma CountsAdvanceHead(plan: Plan, log: seq<Chunk>, e: Event, n: nat, rest: seq<Event>, marked: set<nat>,
                          idle: set<nat>, arrived: set<nat>)
    requires LogOk(plan, log) && Counts(plan, log, [e] + rest, marked, idle, arrived)
    requires plan.windowed && e.Body? && EventOk(plan, e) && 0 < n && e.sent + n < |PartBody(plan, e.part)|
    ensures LogOk(plan, log + [ChunkOf(plan, e, n)])
    ensures Counts(plan, log + [ChunkOf(plan, e, n)], [Body(e.part, e.sent + n)] + rest, marked, idle, arrived)
  {
    hide Counts, LogOk;
    var f := Body(e.part, e.sent + n);
    HeadSent(plan, log, e, rest, marked, idle, arrived);
    LogOkStep(plan, log, e, n);
    SentAfter(plan, log, e, n);
    assert [] + [e] + rest == [e] + rest && [] + [f] + rest == [f] + rest;
    CountsAdvance(plan, log, log + [ChunkOf(plan, e, n)], [], e, f, rest, marked, idle, arrived);
  }

  lemma CountsFinishHead(plan: Plan, log: seq<Chunk>, e: Event, n: nat, rest: seq<Event>, marked: set<nat>,
                         idle: set<nat>, arrived: set<nat>)
    requires LogOk(plan, log) && Counts(plan, log, [e] + rest, marked, idle, arrived)
    requires e.Body? && EventOk(plan, e) && e.sent + n == |PartBody(plan, e.part)|
    ensures LogOk(plan, log + [ChunkOf(plan, e, n)]) && e.part !in marked
    ensures Counts(plan, log + [ChunkOf(plan, e, n)], rest, marked + {e.part}, idle, arrived)
  {
    hide Counts, LogOk;
    HeadSent(plan, log, e, rest, marked, idle, arrived);
    LogOkStep(plan, log, e, n);
    SentAfter(plan, log, e, n);
    assert [] + [e] + rest == [e] + rest && [] + rest == rest;
    CountsFinish(plan, log, log + [ChunkOf(plan, e, n)], [], e, rest, marked, idle, arrived);
  }

  lemma AliveHeadInOrder(plan: Plan, t: Tick, e: Event, rest: seq<Event>, marked: set<nat>, idle: set<nat>,
                         arrived: set<nat>, upTo: nat)
    requires PlanOk(plan) && e.Body? && EventOk(plan, e) && Remaining(plan, e) != []
    requires Alive(plan, t.log, [e] + rest, marked, idle, arrived, upTo, t.nextStart)
    ensures InOrder(plan, t, e)
  {
    if !plan.outOfOrder {
      HeadInOrder(plan, t.log, e, rest, upTo, t.nextStart);
    }
  }

  lemma DeliverSome(plan: Plan, t: Tick, e: Event, rest: seq<Event>, marked: set<nat>, idle: set<nat>,
                    arrived: set<nat>, upTo: nat)
    requires PlanOk(plan) && e.Body? && EventOk(plan, e) && EventsOk(plan, rest) && KeptOk(plan, t) && !t.error
    requires PartBody(plan, e.part) != [] && 0 < Portion(plan, t, e) < |PartBody(plan, e.part)| - e.sent
    requires Alive(plan, t.log, [e] + rest, marked, idle, arrived, upTo, t.nextStart)
    ensures var u := DeliverBytes(plan, t, e, Portion(plan, t, e), true);
            && !u.error && u.done == t.done
            && Alive(plan, u.log, u.kept + rest, marked, idle, arrived, upTo, u.nextStart)
  {
    hide Counts, LogOk;
    var n := Portion(plan, t, e);
    NothingKept(plan, t, e, rest);
    AliveHeadInOrder(plan, t, e, rest, marked, idle, arrived, upTo);
    AcceptedSome(plan, t, e, n);
    CountsAdvanceHead(plan, t.log, e, n, rest, marked, idle, arrived);
    if !plan.outOfOrder {
      OrderedAdvance(plan, t.log, e, n, rest, upTo, t.nextStart);
    }
  }

  lemma DeliverAll(plan: Plan, t: Tick, e: Event, rest: seq<Event>, marked: set<nat>, idle: set<nat>,
                   arrived: set<nat>, upTo: nat)
    requires PlanOk(plan) && e.Body? && EventOk(plan, e) && EventsOk(plan, rest) && KeptOk(plan, t) && !t.error
    requires PartBody(plan, e.part) != [] && Portion(plan, t, e) == |PartBody(plan, e.part)| - e.sent
    requires Alive(plan, t.log, [e] + rest, marked, idle, arrived, upTo, t.nextStart)
    ensures var u := DeliverBytes(plan, t, e, Portion(plan, t, e), true);
            && !u.error && u.done == t.done + [Completed(e.part, |PartBody(plan, e.part)|)] && e.part !in marked
            && Alive(plan, u.log, u.kept + rest, marked + {e.part}, idle, arrived, upTo, u.nextStart)
  {
    hide Counts, LogOk, Conserved, Positioned;
    var n := Portion(plan, t, e);
    NothingKept(plan, t, e, rest);
    AliveHeadInOrder(plan, t, e, rest, marked, idle, arrived, upTo);
    AcceptedAll(plan, t, e, n);
    CountsFinishHead(plan, t.log, e, n, rest, marked, idle, arrived);
    if !plan.outOfOrder {
      OrderedFinish(plan, t.log, e, rest, upTo, t.nextStart);
    }
    assert [] + rest == rest;
  }

  lemma DeliverRefused(plan: Plan, t: Tick, e: Event)
    requires e.Body? && EventOk(plan, e)
    ensures DeliverBytes(plan, t, e, Portion(plan, t, e), false).error
  {
  }

  /** One event: unless the sink refuses it, no error arises and the invariant is kept. */
  lemma DeliverOneAlive(plan: Plan, t: Tick, e: Event, rest: seq<Event>, accepted: bool, marked: set<nat>,
                        idle: set<nat>, arrived: set<nat>, upTo: nat)
    requires PlanOk(plan) && EventOk(plan, e) && EventsOk(plan, rest) && KeptOk(plan, t) && !t.error
    requires DoneWell(plan, t.done, marked)
    requires Alive(plan, t.log, t.kept + [e] + rest, marked + DoneParts(t.done), idle, arrived, upTo, t.nextStart)
    ensures var u := DeliverOne(plan, t, e, accepted);
            && (u.error ==> !accepted)
            && (!u.error ==>
                  && DoneWell(plan, u.done, marked)
                  && Alive(plan, u.log, u.kept + rest, marked + DoneParts(u.done), idle, arrived, upTo, u.nextStart))
  {
    if e.Notice? {
      CountsNotice(plan, t.log, t.kept, e, rest, marked + DoneParts(t.done), idle, arrived);
      if !plan.outOfOrder {
        OrderedDrop(plan, t.log, t.kept, e, rest, upTo, t.nextStart);
      }
    } else if PartBody(plan, e.part) == [] {
      DeliverEmpty(plan, t, e, rest, marked, idle, arrived, upTo);
    } else if Portion(plan, t, e) == 0 {
      DeliverNothing(t, e, rest);
    } else {
      DeliverBytesAlive(plan, t, e, rest, accepted, marked, idle, arrived, upTo);
    }
  }

  lemma DeliverBytesAlive(plan: Plan, t: Tick, e: Event, rest: seq<Event>, accepted: bool, marked: set<nat>,
                          idle: set<nat>, arrived: set<nat>, upTo: nat)
    requires PlanOk(plan) && e.Body? && EventOk(plan, e) && EventsOk(plan, rest) && KeptOk(plan, t) && !t.error
    requires PartBody(plan, e.part) != [] && Portion(plan, t, e) > 0 && DoneWell(plan, t.done, marked)
    requires Alive(plan, t.log, t.kept + [e] + rest, marked + DoneParts(t.done), idle, arrived, upTo, t.nextStart)
    ensures var u := DeliverBytes(plan, t, e, Portion(plan, t, e), accepted);
            && (u.error ==> !accepted)
            && (!u.error ==>
                  && DoneWell(plan, u.done, marked)
                  && Alive(plan, u.log, u.kept + rest, marked + DoneParts(u.done), idle, arrived, upTo, u.nextStart))
  {
    hide Counts, Ordered, LogOk;
    NothingKept(plan, t, e, rest);
    if !accepted {
      DeliverRefused(plan, t, e);
    } else if Portion(plan, t, e) < |PartBody(plan, e.part)| - e.sent {
      DeliverSome(plan, t, e, rest, marked + DoneParts(t.done), idle, arrived, upTo);
    } else {
      var c := Completed(e.part, |PartBody(plan, e.part)|);
      DeliverAll(plan, t, e, rest, marked + DoneParts(t.done), idle, arrived, upTo);
      DonePartsStep(t.done, c);
      DoneWellStep(plan, t.done, c, marked);
      assert marked + DoneParts(t.done) + {e.part} == marked + DoneParts(t.done + [c]);
    }
  }

  /** The sink has received a prefix of the object, each chunk is where it belongs, and nothing was received
      of a part that is idle or has not arrived. */
  ghost predicate Truthful(plan: Plan, log: seq<Chunk>, idle: set<nat>, arrived: set<nat>) {
    && LogOk(plan, log)
    && (!plan.outOfOrder ==> Bytes(log) <= Content(plan.parts))
    && (forall p :: p in idle || p !in arrived ==> Sent(log, p) == 0)
  }

  lemma AliveTruthful(plan: Plan, log: seq<Chunk>, pend: seq<Event>, marked: set<nat>, idle: set<nat>,
                      arrived: set<nat>, upTo: nat, nextStart: nat)
    requires Alive(plan, log, pend, marked, idle, arrived, upTo, nextStart)
    ensures Truthful(plan, log, idle, arrived)
  {
    if !plan.outOfOrder {
      ContentPrefix(plan.parts, upTo);
    }
  }

  lemma ErrorKeepsLog(plan: Plan, t: Tick, e: Event, accepted: bool)
    requires EventOk(plan, e)
    ensures DeliverOne(plan, t, e, accepted).error ==> DeliverOne(plan, t, e, accepted).log == t.log
  {
  }

  /** The whole batch, with `later` the events that arrived while it was out: as long as the sink accepts
      what it is given, no error arises and the invariant is kept. */
  lemma {:induction false} DeliverFromAlive(plan: Plan, t: Tick, es: seq<Event>, i: nat, accepted: nat -> bool,
                                            later: seq<Event>, marked: set<nat>, idle: set<nat>, arrived: set<nat>,
                                            upTo: nat)
    requires PlanOk(plan) && EventsOk(plan, es) && i <= |es| && EventsOk(plan, later) && KeptOk(plan, t) && !t.error
    requires DoneWell(plan, t.done, marked)
    requires Alive(plan, t.log, t.kept + (es[i..] + later), marked + DoneParts(t.done), idle, arrived, upTo,
                   t.nextStart)
    ensures var u := DeliverFrom(plan, t, es, i, accepted);
            && (!u.error ==>
                  && DoneWell(plan, u.done, marked)
                  && Alive(plan, u.log, u.kept + later, marked + DoneParts(u.done), idle, arrived, upTo, u.nextStart))
            && ((forall j :: i <= j < |es| ==> accepted(j)) ==> !u.error)
            && Truthful(plan, u.log, idle, arrived)
    decreases |es| - i
  {
    hide Alive;
    AliveTruthful(plan, t.log, t.kept + (es[i..] + later), marked + DoneParts(t.done), idle, arrived, upTo,
                  t.nextStart);
    if i == |es| {
      assert es[i..] + later == later;
    } else {
      var rest := es[i + 1..] + later;
      BatchStep(t.kept, es, i, later);
      DeliverOneAlive(plan, t, es[i], rest, accepted(i), marked, idle, arrived, upTo);
      DeliverOneGrows(plan, t, es[i], accepted(i));
      var u := DeliverOne(plan, t, es[i], accepted(i));
      if u.error {
        ErrorKeepsLog(plan, t, es[i], accepted(i));
        DeliverGrows(plan, u, es, i + 1, accepted);
      } else {
        DeliverFromAlive(plan, u, es, i + 1, accepted, later, marked, idle, arrived, upTo);
      }
    }
  }

  lemma BatchStep(kept: seq<Event>, es: seq<Event>, i: nat, later: seq<Event>)
    requires i < |es|
    ensures kept + (es[i..] + later) == kept + [es[i]] + (es[i + 1..] + later)
  {
    assert es[i..] == [es[i]] + es[i + 1..];
  }
}
