/** What the sink's log and the queued events mean, independently of how delivery computes them. */
module DeliveryLog {
  import opened ObjectParts
  import opened Delivery

  /** The byte stream the sink received. */
  function Bytes(log: seq<Chunk>): seq<byte> {
    if log == [] then [] else Bytes(log[..|log| - 1]) + log[|log| - 1].data
  }

  /** How many bytes of part `p` the sink received. */
  function Sent(log: seq<Chunk>, p: nat): nat {
    if log == [] then 0
    else Sent(log[..|log| - 1], p) + if log[|log| - 1].part == p then |log[|log| - 1].data| else 0
  }

  /** The bytes of part `p` the sink received, in the order it received them. */
  function PartBytes(log: seq<Chunk>, p: nat): seq<byte> {
    if log == [] then []
    else PartBytes(log[..|log| - 1], p) + if log[|log| - 1].part == p then log[|log| - 1].data else []
  }

  /** Every chunk continues its part exactly where the part's previous chunk ended, at the right offset. */
  predicate LogOk(plan: Plan, log: seq<Chunk>) {
    log == [] ||
    var before := log[..|log| - 1];
    var c := log[|log| - 1];
    && LogOk(plan, before)
    && 1 <= c.part <= |plan.parts|
    && var from := Sent(before, c.part);
    && from + |c.data| <= |PartBody(plan, c.part)|
    && c.offset == PartOf(plan.parts, c.part).start + from
    && c.data == PartBody(plan, c.part)[from..from + |c.data|]
  }

  lemma LogStep(log: seq<Chunk>, c: Chunk, p: nat)
    ensures Bytes(log + [c]) == Bytes(log) + c.data
    ensures Sent(log + [c], p) == Sent(log, p) + if c.part == p then |c.data| else 0
  {
    assert (log + [c])[..|log|] == log;
  }

  lemma LogOkStep(plan: Plan, log: seq<Chunk>, e: Event, n: nat)
    requires LogOk(plan, log) && e.Body? && 1 <= e.part <= |plan.parts|
    requires e.sent == Sent(log, e.part) && e.sent + n <= |PartBody(plan, e.part)|
    ensures LogOk(plan, log + [Chunk(e.part, PartOf(plan.parts, e.part).start + e.sent,
                                     PartBody(plan, e.part)[e.sent..e.sent + n])])
  {
    var c := Chunk(e.part, PartOf(plan.parts, e.part).start + e.sent, PartBody(plan, e.part)[e.sent..e.sent + n]);
    assert (log + [c])[..|log|] == log;
  }

  /** A part's chunks put together are the part's body up to where delivery has got. */
  lemma {:induction false} PartStream(plan: Plan, log: seq<Chunk>, p: nat)
    requires LogOk(plan, log) && 1 <= p <= |plan.parts|
    ensures Sent(log, p) <= |PartBody(plan, p)|
    ensures PartBytes(log, p) == PartBody(plan, p)[..Sent(log, p)]
  {
    if log != [] {
      PartStream(plan, log[..|log| - 1], p);
    }
  }

  /** The bytes an event still has to deliver. */
  function Remaining(plan: Plan, e: Event): seq<byte>
    requires EventOk(plan, e)
  {
    if e.Notice? then [] else PartBody(plan, e.part)[e.sent..]
  }

  function Rest(plan: Plan, es: seq<Event>): seq<byte>
    requires EventsOk(plan, es)
  {
    if es == [] then [] else Remaining(plan, es[0]) + Rest(plan, es[1..])
  }

  /** Each event's next byte is the one after everything queued before it; `pos` is where the queue starts. */
  predicate Aligned(plan: Plan, es: seq<Event>, pos: nat)
    requires EventsOk(plan, es)
  {
    es == [] ||
    (&& (Remaining(plan, es[0]) != [] ==> PartOf(plan.parts, es[0].part).start + es[0].sent == pos)
     && Aligned(plan, es[1..], pos + |Remaining(plan, es[0])|))
  }

  /** The parts that are queued. */
  function Queued(es: seq<Event>): set<nat> {
    if es == [] then {} else (if es[0].Body? then {es[0].part} else {}) + Queued(es[1..])
  }

  /** No part is queued twice. */
  predicate NoDup(es: seq<Event>) {
    es == [] || ((es[0].Body? ==> es[0].part !in Queued(es[1..])) && NoDup(es[1..]))
  }

  /** The sink has received of each queued part just what its event says it has. */
  predicate InSync(log: seq<Chunk>, es: seq<Event>) {
    es == [] || ((es[0].Body? ==> Sent(log, es[0].part) == es[0].sent) && InSync(log, es[1..]))
  }

  function BodyCount(es: seq<Event>): nat {
    if es == [] then 0 else (if es[0].Body? then 1 else 0) + BodyCount(es[1..])
  }

  lemma {:induction false} RestConcat(plan: Plan, a: seq<Event>, b: seq<Event>)
    requires EventsOk(plan, a) && EventsOk(plan, b)
    ensures EventsOk(plan, a + b) && Rest(plan, a + b) == Rest(plan, a) + Rest(plan, b)
  {
    if a == [] {
      assert a + b == b;
    } else {
      RestConcat(plan, a[1..], b);
      assert (a + b)[1..] == a[1..] + b;
    }
  }

  lemma {:induction false} AlignedConcat(plan: Plan, a: seq<Event>, b: seq<Event>, pos: nat)
    requires EventsOk(plan, a) && EventsOk(plan, b)
    ensures EventsOk(plan, a + b)
    ensures Aligned(plan, a + b, pos) <==> Aligned(plan, a, pos) && Aligned(plan, b, pos + |Rest(plan, a)|)
  {
    if a == [] {
      assert a + b == b;
    } else {
      assert (a + b)[1..] == a[1..] + b;
      AlignedConcat(plan, a[1..], b, pos + |Remaining(plan, a[0])|);
    }
  }

  lemma Head(plan: Plan, e: Event, b: seq<Event>, pos: nat)
    requires EventOk(plan, e) && EventsOk(plan, b)
    ensures EventsOk(plan, [e] + b)
    ensures Rest(plan, [e] + b) == Remaining(plan, e) + Rest(plan, b)
    ensures Aligned(plan, [e] + b, pos) <==>
            && (Remaining(plan, e) != [] ==> PartOf(plan.parts, e.part).start + e.sent == pos)
            && Aligned(plan, b, pos + |Remaining(plan, e)|)
  {
    assert ([e] + b)[1..] == b;
  }

  /** An event with nothing left to deliver makes no difference to the stream. */
  lemma Drop(plan: Plan, a: seq<Event>, e: Event, b: seq<Event>, pos: nat)
    requires EventsOk(plan, a) && EventOk(plan, e) && EventsOk(plan, b) && Remaining(plan, e) == []
    ensures EventsOk(plan, a + [e] + b) && EventsOk(plan, a + b)
    ensures Rest(plan, a + [e] + b) == Rest(plan, a + b)
    ensures Aligned(plan, a + [e] + b, pos) <==> Aligned(plan, a + b, pos)
  {
    assert a + [e] + b == a + ([e] + b);
    Head(plan, e, b, pos + |Rest(plan, a)|);
    RestConcat(plan, a, b);
    RestConcat(plan, a, [e] + b);
    AlignedConcat(plan, a, b, pos);
    AlignedConcat(plan, a, [e] + b, pos);
  }

  lemma Append(plan: Plan, a: seq<Event>, p: nat, pos: nat)
    requires EventsOk(plan, a) && 1 <= p <= |plan.parts|
    ensures EventsOk(plan, a + [Body(p, 0)])
    ensures Rest(plan, a + [Body(p, 0)]) == Rest(plan, a) + PartBody(plan, p)
    ensures Aligned(plan, a, pos) && PartOf(plan.parts, p).start == pos + |Rest(plan, a)|
            ==> Aligned(plan, a + [Body(p, 0)], pos)
  {
    var e := Body(p, 0);
    assert [e] + [] == [e];
    Head(plan, e, [], pos + |Rest(plan, a)|);
    RestConcat(plan, a, [e]);
    AlignedConcat(plan, a, [e], pos);
  }

  lemma {:induction false} BodyCountConcat(a: seq<Event>, b: seq<Event>)
    ensures BodyCount(a + b) == BodyCount(a) + BodyCount(b)
  {
    if a == [] {
      assert a + b == b;
    } else {
      assert (a + b)[1..] == a[1..] + b;
      BodyCountConcat(a[1..], b);
    }
  }

  lemma {:induction false} QueuedConcat(a: seq<Event>, b: seq<Event>)
    ensures Queued(a + b) == Queued(a) + Queued(b)
    ensures NoDup(a + b) <==> NoDup(a) && NoDup(b) && Queued(a) !! Queued(b)
  {
    if a == [] {
      assert a + b == b;
    } else {
      assert (a + b)[1..] == a[1..] + b;
      QueuedConcat(a[1..], b);
    }
  }

  lemma {:induction false} InSyncConcat(log: seq<Chunk>, a: seq<Event>, b: seq<Event>)
    ensures InSync(log, a + b) <==> InSync(log, a) && InSync(log, b)
  {
    if a == [] {
      assert a + b == b;
    } else {
      assert (a + b)[1..] == a[1..] + b;
      InSyncConcat(log, a[1..], b);
    }
  }

  /** Receiving bytes of other parts changes nothing. */
  lemma {:induction false} InSyncFrame(log: seq<Chunk>, log': seq<Chunk>, es: seq<Event>)
    requires InSync(log, es) && forall p :: p in Queued(es) ==> Sent(log', p) == Sent(log, p)
    ensures InSync(log', es)
  {
    if es != [] {
      InSyncFrame(log, log', es[1..]);
    }
  }

  lemma One(log: seq<Chunk>, e: Event)
    ensures Queued([e]) == if e.Body? then {e.part} else {}
    ensures NoDup([e]) && (InSync(log, [e]) <==> e.Body? ==> Sent(log, e.part) == e.sent)
  {
    assert [e][1..] == [];
  }

  /** The queue around one event. */
  lemma Around(log: seq<Chunk>, a: seq<Event>, e: Event, b: seq<Event>)
    ensures Queued(a + b) == Queued(a) + Queued(b)
    ensures Queued(a + [e] + b) == Queued(a + b) + if e.Body? then {e.part} else {}
    ensures NoDup(a + [e] + b) <==> NoDup(a + b) && (e.Body? ==> e.part !in Queued(a + b))
    ensures InSync(log, a + [e] + b) <==> InSync(log, a + b) && (e.Body? ==> Sent(log, e.part) == e.sent)
  {
    One(log, e);
    QueuedConcat(a, b);
    QueuedConcat(a + [e], b);
    QueuedConcat(a, [e]);
    InSyncConcat(log, a, b);
    InSyncConcat(log, a + [e], b);
    InSyncConcat(log, a, [e]);
  }
}
