/** What one delivery task hands to the sink, and when delivery fails: exactly when something outside went wrong. */
module DeliveryFaults {
  import opened ObjectParts
  import opened PrefixTracker
  import opened Delivery
  import opened DeliveryLog
  import opened DeliverySafety
  import opened DeliveryLoop
  import opened DeliveryRuns
  import opened DeliveryTheorems

  // ----- One task -----

  /** How many of `left` queued bytes fit. */
  function Fitting(plan: Plan, allowed: nat, left: nat): (n: nat)
    ensures n <= left && (plan.windowed ==> n <= allowed)
    ensures n == left || (plan.windowed && n == allowed)
  {
    if plan.windowed && left > allowed then allowed else left
  }

  /** The event's bytes that fit go out, and the rest is kept. */
  ghost predicate Divides(plan: Plan, t: Tick, u: Tick, bytes: seq<byte>)
    requires EventsOk(plan, t.kept)
  {
    var n := Fitting(plan, t.allowed, |bytes|);
    && Bytes(u.log) == Bytes(t.log) + bytes[..n]
    && EventsOk(plan, u.kept) && Rest(plan, u.kept) == Rest(plan, t.kept) + bytes[n..]
    && (plan.windowed ==> u.allowed == t.allowed - n)
  }

  lemma KeepsAll(plan: Plan, t: Tick, e: Event)
    requires EventOk(plan, e) && EventsOk(plan, t.kept) && plan.windowed && t.allowed == 0
    ensures Divides(plan, t, t.(kept := t.kept + [e]), Remaining(plan, e))
  {
    RestConcat(plan, t.kept, [e]);
    assert Rest(plan, [e]) == Remaining(plan, e);
  }

  lemma GivesSome(plan: Plan, t: Tick, e: Event, n: nat, accepted: bool)
    requires e.Body? && EventOk(plan, e) && EventsOk(plan, t.kept)
    requires 0 < n == Fitting(plan, t.allowed, |Remaining(plan, e)|)
    requires !DeliverBytes(plan, t, e, n, accepted).error
    ensures Divides(plan, t, DeliverBytes(plan, t, e, n, accepted), Remaining(plan, e))
  {
    hide Rest, Bytes;
    var body := PartBody(plan, e.part);
    LogGets(t.log, Chunk(e.part, PartOf(plan.parts, e.part).start + e.sent, body[e.sent..e.sent + n]));
    assert body[e.sent..][..n] == body[e.sent..e.sent + n];
    if e.sent + n < |body| {
      KeepsLeft(plan, t.kept, e, n);
    } else {
      assert Remaining(plan, e)[n..] == [];
    }
  }

  lemma LogGets(log: seq<Chunk>, c: Chunk)
    ensures Bytes(log + [c]) == Bytes(log) + c.data
  {
    LogStep(log, c, 0);
  }

  lemma KeepsLeft(plan: Plan, kept: seq<Event>, e: Event, n: nat)
    requires e.Body? && EventOk(plan, e) && EventsOk(plan, kept) && e.sent + n < |PartBody(plan, e.part)|
    requires plan.windowed
    ensures var after := kept + [Body(e.part, e.sent + n)];
            EventsOk(plan, after) && Rest(plan, after) == Rest(plan, kept) + Remaining(plan, e)[n..]
  {
    var left := Body(e.part, e.sent + n);
    RestConcat(plan, kept, [left]);
    assert Rest(plan, [left]) == Remaining(plan, left) == Remaining(plan, e)[n..];
  }

  lemma OneDivides(plan: Plan, t: Tick, e: Event, accepted: bool)
    requires EventOk(plan, e) && EventsOk(plan, t.kept) && !DeliverOne(plan, t, e, accepted).error
    ensures Divides(plan, t, DeliverOne(plan, t, e, accepted), Remaining(plan, e))
  {
    hide DeliverBytes, Rest, Bytes;
    if e.Body? && PartBody(plan, e.part) != [] {
      var n := Portion(plan, t, e);
      if n == 0 {
        KeepsAll(plan, t, e);
      } else {
        GivesSome(plan, t, e, n, accepted);
      }
    }
  }

  lemma JoinDivided(plan: Plan, t: Tick, u: Tick, v: Tick, a: seq<byte>, b: seq<byte>)
    requires EventsOk(plan, t.kept) && Divides(plan, t, u, a) && Divides(plan, u, v, b)
    ensures Divides(plan, t, v, a + b)
  {
    hide Rest, Bytes, EventsOk;
    var k := Fitting(plan, t.allowed, |a|);
    var n := Fitting(plan, t.allowed, |a + b|);
    if k < |a| {
      assert (a + b)[..n] == a[..k] + b[..0] && (a + b)[n..] == a[k..] + b[0..];
    } else {
      assert (a + b)[..n] == a[..k] + b[..n - k] && (a + b)[n..] == a[k..] + b[n - k..];
    }
  }

  lemma {:induction false} BatchDivides(plan: Plan, t: Tick, es: seq<Event>, i: nat, accepted: nat -> bool)
    requires EventsOk(plan, es) && i <= |es| && EventsOk(plan, t.kept)
    requires !DeliverFrom(plan, t, es, i, accepted).error
    ensures Divides(plan, t, DeliverFrom(plan, t, es, i, accepted), Rest(plan, es[i..]))
    decreases |es| - i
  {
    hide DeliverOne, EventOk, Bytes;
    if i == |es| {
      assert es[i..] == [];
    } else {
      var u := DeliverOne(plan, t, es[i], accepted(i));
      if u.error {
        ErrorSticks(plan, u, es, i + 1, accepted);
      }
      OneDivides(plan, t, es[i], accepted(i));
      BatchDivides(plan, u, es, i + 1, accepted);
      JoinDivided(plan, t, u, DeliverFrom(plan, u, es, i + 1, accepted), Remaining(plan, es[i]),
                  Rest(plan, es[i + 1..]));
      assert es[i..][1..] == es[i + 1..];
    }
  }

  /** A task that meets no error gives the sink exactly the queued bytes that fit the window, from the front and
      whatever parts they belong to, and leaves exactly the others, in order. */
  lemma TaskTakesPrefix(plan: Plan, m: Meta, accepted: nat -> bool)
    requires EventsOk(plan, m.batch) && !RunTick(plan, m, accepted).error
    ensures var t := RunTick(plan, m, accepted);
            var rest := Rest(plan, m.batch);
            var n := Fitting(plan, m.batchAllowed, |rest|);
            && Bytes(t.log) == Bytes(m.log) + rest[..n]
            && EventsOk(plan, t.kept) && Rest(plan, t.kept) == rest[n..]
  {
    hide DeliverFrom, Bytes;
    assert m.batch[0..] == m.batch;
    BatchDivides(plan, StartTick(m), m.batch, 0, accepted);
  }

  // ----- The checks -----

  /** Delivering in order, bytes that do not follow those handed over before are an error and do not go out, unless they
      are of part 1; and what goes out moves the position to its end. */
  lemma OutOfTurnRefused(plan: Plan, t: Tick, e: Event, n: nat, accepted: bool)
    requires e.Body? && EventOk(plan, e) && n <= |PartBody(plan, e.part)| - e.sent && (plan.windowed ==> n <= t.allowed)
    requires !plan.outOfOrder
    ensures var start := PartOf(plan.parts, e.part).start + e.sent;
            var u := DeliverBytes(plan, t, e, n, accepted);
            && (e.part != 1 && start != t.nextStart ==> u.error && u.log == t.log)
            && (!u.error ==> u.nextStart == start + n)
  {
  }

  /** With a mask, marking a part a second time fails, and so does marking one that is out of range; without one
      nothing fails. */
  lemma SecondMarkFails(plan: Plan, m: Meta, p: nat)
    ensures plan.total > 0 ==> Mark(plan, Mark(plan, m, p), p).failed
    ensures plan.total > 0 && !(1 <= p <= plan.total) ==> Mark(plan, m, p) == m.(failed := true)
    ensures plan.total == 0 ==> Mark(plan, m, p).failed == m.failed && p in Mark(plan, m, p).marked
  {
  }

  // ----- Refusals -----

  /** The sink is handed bytes of event `j`: it has some left, and what is queued before it does not use up the
      window. */
  ghost predicate Offered(plan: Plan, es: seq<Event>, allowed: nat, j: nat)
    requires EventsOk(plan, es) && j < |es|
  {
    Remaining(plan, es[j]) != [] && (plan.windowed ==> |Rest(plan, es[..j])| < allowed)
  }

  ghost predicate Refused(plan: Plan, es: seq<Event>, allowed: nat, from: nat, accepted: nat -> bool)
    requires EventsOk(plan, es)
  {
    exists j :: from <= j < |es| && !accepted(j) && Offered(plan, es, allowed, j)
  }

  /** What the window has left after event `i` is what it had less what was queued so far. */
  ghost predicate WindowLeft(plan: Plan, t: Tick, es: seq<Event>, i: nat, allowed: nat)
    requires EventsOk(plan, es) && i <= |es|
  {
    plan.windowed ==> t.allowed == allowed - Fitting(plan, allowed, |Rest(plan, es[..i])|)
  }

  lemma RestStep(plan: Plan, es: seq<Event>, i: nat)
    requires EventsOk(plan, es) && i < |es|
    ensures Rest(plan, es[..i + 1]) == Rest(plan, es[..i]) + Remaining(plan, es[i])
  {
    assert es[..i + 1] == es[..i] + [es[i]];
    RestConcat(plan, es[..i], [es[i]]);
  }

  lemma OneRefusal(plan: Plan, t: Tick, es: seq<Event>, i: nat, accepted: bool, allowed: nat)
    requires EventsOk(plan, es) && i < |es| && WindowLeft(plan, t, es, i, allowed)
    ensures var u := DeliverOne(plan, t, es[i], accepted);
            && WindowLeft(plan, u, es, i + 1, allowed)
            && (!Offered(plan, es, allowed, i) ==> u == DeliverOne(plan, t, es[i], true))
            && (Offered(plan, es, allowed, i) && !accepted ==> u.error)
  {
    hide Rest;
    RestStep(plan, es, i);
  }

  /** The loop depends on the sink's answers only where it asks the sink, and a refusal there is an error. */
  lemma {:induction false} Refusals(plan: Plan, t: Tick, es: seq<Event>, i: nat, accepted: nat -> bool,
                                    allowed: nat)
    requires EventsOk(plan, es) && i <= |es| && WindowLeft(plan, t, es, i, allowed)
    ensures var u := DeliverFrom(plan, t, es, i, accepted);
            if Refused(plan, es, allowed, i, accepted) then u.error
            else u == DeliverFrom(plan, t, es, i, j => true)
    decreases |es| - i
  {
    hide DeliverOne, Offered, WindowLeft, EventOk;
    if i < |es| {
      var u := DeliverOne(plan, t, es[i], accepted(i));
      OneRefusal(plan, t, es, i, accepted(i), allowed);
      if u.error {
        ErrorSticks(plan, u, es, i + 1, accepted);
      }
      Refusals(plan, u, es, i + 1, accepted, allowed);
    }
  }

  // ----- Runs -----

  /** The caller cancels, the sink refuses bytes it is handed, or a file worker fails. */
  ghost predicate Fault(plan: Plan, m: Meta, a: Action)
    requires Enabled(plan, m, a)
  {
    match a
    case Cancel => true
    case EndTick(accepted) => Refused(plan, m.batch, m.batchAllowed, 0, accepted)
    case Written(_, ok, _) => !ok
    case _ => false
  }

  ghost predicate Faulty(plan: Plan, m: Meta, actions: seq<Action>)
    requires IsRun(plan, m, actions)
    decreases |actions|
  {
    actions != [] && (Fault(plan, m, actions[0]) || Faulty(plan, Step(plan, m, actions[0]), actions[1..]))
  }

  lemma TaskRefusals(plan: Plan, m: Meta, accepted: nat -> bool)
    requires EventsOk(plan, m.batch)
    ensures if Refused(plan, m.batch, m.batchAllowed, 0, accepted) then RunTick(plan, m, accepted).error
            else RunTick(plan, m, accepted) == RunTick(plan, m, j => true)
  {
    assert m.batch[..0] == [];
    Refusals(plan, StartTick(m), m.batch, 0, accepted, m.batchAllowed);
  }

  lemma EndTickFails(plan: Plan, m: Meta, accepted: nat -> bool)
    requires Inv(plan, m) && Enabled(plan, m, EndTick(accepted))
    requires m.failed || Refused(plan, m.batch, m.batchAllowed, 0, accepted)
    ensures Step(plan, m, EndTick(accepted)).failed
  {
    hide RunTick, Refused, Inv;
    TaskRefusals(plan, m, accepted);
    EndTickInv(plan, m, accepted);
    CloseClosed(plan, m, RunTick(plan, m, accepted));
  }

  /** A fault sets the finish result, and a finish result is never taken back. */
  lemma FaultFails(plan: Plan, m: Meta, a: Action)
    requires Inv(plan, m) && Enabled(plan, m, a) && (m.failed || Fault(plan, m, a))
    ensures Step(plan, m, a).failed
  {
    hide Inv, RunTick, Close, MarkCompleted, PopReady;
    match a
    case Arrive(p) => PopReadyHealthy(m.(arrived := m.arrived + {p}, pending := m.pending + {p}));
    case EndTick(accepted) => EndTickFails(plan, m, accepted);
    case Written(p, ok, _) => if ok { MarkFrame(plan, Leave(plan, m, p), [Completed(p, |PartBody(plan, p)|)]); }
    case _ =>
  }

  /** A task that meets no refusal does what it does when the sink takes everything. */
  lemma Cleared(plan: Plan, m: Meta, a: Action) returns (b: Action)
    requires Enabled(plan, m, a) && !Fault(plan, m, a)
    ensures Enabled(plan, m, b) && Benign(m, b) && Step(plan, m, b) == Step(plan, m, a)
  {
    b := a;
    if a.EndTick? {
      b := EndTick(j => true);
      TaskRefusals(plan, m, a.accepted);
    }
  }

  lemma NoFaultHealthy(plan: Plan, m: Meta, a: Action)
    requires Inv(plan, m) && Live(plan, m) && Healthy(m) && Joins(plan) && Enabled(plan, m, a) && !Fault(plan, m, a)
    ensures Live(plan, Step(plan, m, a)) && Healthy(Step(plan, m, a))
  {
    hide Live, Healthy, Inv;
    var b := Cleared(plan, m, a);
    StepHealthy(plan, m, b);
  }

  lemma {:induction false} RunFaults(plan: Plan, m: Meta, actions: seq<Action>)
    requires Inv(plan, m) && Joins(plan) && IsRun(plan, m, actions)
    requires m.failed || (Live(plan, m) && Healthy(m))
    ensures After(plan, m, actions).failed <==> m.failed || Faulty(plan, m, actions)
    decreases |actions|
  {
    hide Inv, Live, Fault, Step, Enabled;
    if actions != [] {
      var a := actions[0];
      StepInv(plan, m, a);
      if m.failed || Fault(plan, m, a) {
        FaultFails(plan, m, a);
      } else {
        NoFaultHealthy(plan, m, a);
      }
      RunFaults(plan, Step(plan, m, a), actions[1..]);
    }
  }

  /** Delivery fails in exactly the runs in which the caller cancelled, the sink refused bytes that it was handed
      or a file worker failed. In particular a failure stays, and delivery raises no error of its own. */
  lemma FailsOnlyOnFault(plan: Plan, window: nat, actions: seq<Action>)
    requires PlanOk(plan) && Joins(plan) && window < U64 && IsRun(plan, Init(window), actions)
    ensures After(plan, Init(window), actions).failed <==> Faulty(plan, Init(window), actions)
  {
    InitInv(plan, window);
    RunFaults(plan, Init(window), actions);
  }

  // ----- Every byte handed over was taken -----

  lemma {:induction false} EveryByteCounts(plan: Plan, t: Tick, es: seq<Event>, i: nat, accepted: nat -> bool)
    requires EventsOk(plan, es) && i <= |es| && !DeliverFrom(plan, t, es, i, accepted).error
    ensures var u := DeliverFrom(plan, t, es, i, accepted);
            u.numBytes - t.numBytes == u.ioCompleted - t.ioCompleted
    decreases |es| - i
  {
    if i < |es| {
      var u := DeliverOne(plan, t, es[i], accepted(i));
      if u.error {
        ErrorSticks(plan, u, es, i + 1, accepted);
      }
      EveryByteCounts(plan, u, es, i + 1, accepted);
    }
  }

  /** As long as nothing has failed, the bytes counted against the window are those the sink took. */
  ghost predicate Exact(plan: Plan, m: Meta) {
    plan.windowed ==> m.ioCompleted == |Bytes(m.log)|
  }

  lemma EndTickExact(plan: Plan, m: Meta, accepted: nat -> bool)
    requires Inv(plan, m) && Exact(plan, m) && Enabled(plan, m, EndTick(accepted))
    requires !Step(plan, m, EndTick(accepted)).failed
    ensures Exact(plan, Step(plan, m, EndTick(accepted)))
  {
    hide RunTick, Inv, Bytes;
    var t := RunTick(plan, m, accepted);
    EndTickInv(plan, m, accepted);
    CloseClosed(plan, m, t);
    RunTickResult(plan, m, accepted);
    TaskExact(plan, m, accepted);
  }

  lemma TaskExact(plan: Plan, m: Meta, accepted: nat -> bool)
    requires EventsOk(plan, m.batch) && !RunTick(plan, m, accepted).error
    ensures RunTick(plan, m, accepted).numBytes == RunTick(plan, m, accepted).ioCompleted - m.ioCompleted
  {
    EveryByteCounts(plan, StartTick(m), m.batch, 0, accepted);
  }

  lemma StepExact(plan: Plan, m: Meta, a: Action)
    requires Inv(plan, m) && Exact(plan, m) && Enabled(plan, m, a) && !Step(plan, m, a).failed
    ensures Exact(plan, Step(plan, m, a))
  {
    hide RunTick, Close, MarkCompleted, PopReady, Live, Bytes;
    match a
    case Arrive(p) => PopReadyHealthy(m.(arrived := m.arrived + {p}, pending := m.pending + {p}));
    case EndTick(accepted) => EndTickExact(plan, m, accepted);
    case Written(p, ok, _) => assert !plan.windowed;
    case _ =>
  }
}
