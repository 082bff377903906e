/** Out-of-order delivery accounting: `num_bytes_delivered` counts only the contiguous delivered prefix,
    and parts that finish ahead of a gap are parked in a min-heap until the gap closes. */
module PrefixTracker {
  import opened ObjectParts

  datatype Record = Record(part: nat, start: nat, end: int, bytes: nat)

  /** `parked` is the heap of completed deliveries, keyed by part number. */
  datatype Tracker = Tracker(
    next: nat,              // next_contiguous_delivered_part
    rangeStart: int,        // next_contiguous_delivered_range_start
    parked: map<nat, Record>,
    delivered: nat,         // num_bytes_delivered
    total: nat)             // num_bytes_delivered_total

  datatype Outcome = Ok(tracker: Tracker) | InvalidState(tracker: Tracker)

  const EMPTY := Tracker(1, 0, map[], 0, 0)

  /** Is `p` the heap's top? */
  predicate AtTop(parked: map<nat, Record>, p: nat) {
    p in parked && forall q :: q in parked ==> p <= q
  }

  function Extend(t: Tracker, r: Record): Outcome {
    if t.next != 1 && r.start != t.rangeStart then InvalidState(t)
    else Ok(t.(delivered := t.delivered + r.bytes, rangeStart := r.end + 1, next := t.next + 1))
  }

  function Drain(t: Tracker): Outcome
    decreases |t.parked|
  {
    if !AtTop(t.parked, t.next) then Ok(t)
    else
      var popped := t.(parked := t.parked - {t.next});
      match Extend(popped, t.parked[t.next])
      case Ok(extended) => Drain(extended)
      case InvalidState(s) => InvalidState(s)
  }

  /** `s_s3_meta_request_record_delivered_part_synced`. */
  function RecordDelivered(t: Tracker, r: Record): Outcome {
    var counted := t.(total := t.total + r.bytes);
    if r.part != t.next then Ok(counted.(parked := counted.parked[r.part := r]))
    else
      match Extend(counted, r)
      case Ok(extended) => Drain(extended)
      case InvalidState(s) => InvalidState(s)
  }

  function RecordOf(parts: seq<Part>, p: nat): Record
    requires 1 <= p <= |parts|
  {
    var part := PartOf(parts, p);
    Record(p, part.start, part.end, |part.body|)
  }

  /** Bytes of the parts in `s` among the first `n`. */
  ghost function BytesIn(parts: seq<Part>, s: set<nat>, n: nat): nat
    requires n <= |parts|
  {
    if n == 0 then 0 else BytesIn(parts, s, n - 1) + if n in s then |PartOf(parts, n).body| else 0
  }

  /** The recorded ranges of the first `n` parts join up. */
  ghost predicate LinkedTo(parts: seq<Part>, n: nat) {
    n <= |parts| && forall i :: 0 <= i < n - 1 ==> parts[i].end + 1 == parts[i + 1].start
  }

  /** The prefix 1..next-1 has arrived and both byte counts are exact. */
  ghost predicate Accounts(t: Tracker, parts: seq<Part>, arrived: set<nat>) {
    && 1 <= t.next <= |parts| + 1
    && (forall p :: p in arrived ==> 1 <= p <= |parts|)
    && (forall p :: 1 <= p < t.next ==> p in arrived)
    && (forall p :: p in t.parked ==> p in arrived && t.parked[p] == RecordOf(parts, p))
    && (t.next > 1 ==> t.rangeStart == parts[t.next - 2].end + 1)
    && LinkedTo(parts, t.next - 1)
    && t.delivered == |Content(parts[..t.next - 1])|
    && t.total == BytesIn(parts, arrived, |parts|)
  }

  /** The parts parked are exactly those that arrived from part `from` on. */
  ghost predicate ParksFrom(t: Tracker, arrived: set<nat>, from: nat) {
    forall p :: p in t.parked <==> p in arrived && from <= p
  }

  ghost predicate Tracks(t: Tracker, parts: seq<Part>, arrived: set<nat>) {
    Accounts(t, parts, arrived) && ParksFrom(t, arrived, t.next)
  }

  /** The prefix is maximal: the next part has not arrived. */
  ghost predicate Maximal(t: Tracker, arrived: set<nat>) {
    t.next !in arrived
  }

  lemma {:induction false} BytesInAdd(parts: seq<Part>, s: set<nat>, p: nat, n: nat)
    requires 1 <= p <= |parts| && p !in s && n <= |parts|
    ensures BytesIn(parts, s + {p}, n) == BytesIn(parts, s, n) + if p <= n then |PartOf(parts, p).body| else 0
  {
    if n > 0 {
      BytesInAdd(parts, s, p, n - 1);
    }
  }

  lemma {:induction false} BytesInPrefix(parts: seq<Part>, s: set<nat>, n: nat)
    requires n <= |parts| && forall p :: 1 <= p <= n ==> p in s
    ensures BytesIn(parts, s, n) == |Content(parts[..n])|
  {
    if n > 0 {
      BytesInPrefix(parts, s, n - 1);
      ContentStep(parts, n - 1);
    }
  }

  /** Folding the next part into the prefix keeps the accounting. */
  lemma ExtendTracks(t: Tracker, parts: seq<Part>, arrived: set<nat>)
    requires t.next in arrived && Accounts(t, parts, arrived) && ParksFrom(t, arrived, t.next + 1)
    ensures var r := Extend(t, RecordOf(parts, t.next));
            && (Linked(parts) ==> r.Ok?)
            && (r.Ok? ==> Tracks(r.tracker, parts, arrived) && r.tracker.parked == t.parked)
  {
    hide BytesIn;
    ContentStep(parts, t.next - 1);
  }

  lemma {:induction false} DrainTracks(t: Tracker, parts: seq<Part>, arrived: set<nat>)
    requires Tracks(t, parts, arrived)
    ensures Linked(parts) ==> Drain(t).Ok?
    ensures Drain(t).Ok? ==> Tracks(Drain(t).tracker, parts, arrived) && Maximal(Drain(t).tracker, arrived)
    decreases |t.parked|
  {
    if AtTop(t.parked, t.next) {
      var popped := t.(parked := t.parked - {t.next});
      ExtendTracks(popped, parts, arrived);
      var r := Extend(popped, t.parked[t.next]);
      if r.Ok? {
        DrainTracks(r.tracker, parts, arrived);
      }
    }
  }

  /** A part ahead of the gap is parked. */
  lemma ParkTracks(t: Tracker, parts: seq<Part>, arrived: set<nat>, p: nat)
    requires Tracks(t, parts, arrived) && Maximal(t, arrived)
    requires 1 <= p <= |parts| && p !in arrived && p != t.next
    ensures var r := RecordDelivered(t, RecordOf(parts, p)).tracker;
            Tracks(r, parts, arrived + {p}) && Maximal(r, arrived + {p})
  {
    BytesInAdd(parts, arrived, p, |parts|);
  }

  lemma CountTracks(t: Tracker, parts: seq<Part>, arrived: set<nat>, p: nat)
    requires Tracks(t, parts, arrived) && Maximal(t, arrived) && p == t.next <= |parts|
    ensures var counted := t.(total := t.total + |PartOf(parts, p).body|);
            Accounts(counted, parts, arrived + {p}) && ParksFrom(counted, arrived + {p}, p + 1)
  {
    BytesInAdd(parts, arrived, p, |parts|);
  }

  /** Recording a part not seen before keeps the tracker exact, whatever the order, and errs only if the
      recorded ranges do not join up. */
  lemma RecordTracks(t: Tracker, parts: seq<Part>, arrived: set<nat>, p: nat)
    requires Tracks(t, parts, arrived) && Maximal(t, arrived)
    requires 1 <= p <= |parts| && p !in arrived
    ensures var r := RecordDelivered(t, RecordOf(parts, p));
            && (Linked(parts) ==> r.Ok?)
            && (r.Ok? ==> Tracks(r.tracker, parts, arrived + {p}) && Maximal(r.tracker, arrived + {p}))
  {
    hide LinkedTo, BytesIn, Content, Linked;
    if p == t.next {
      CountTracks(t, parts, arrived, p);
      var counted := t.(total := t.total + |PartOf(parts, p).body|);
      ExtendTracks(counted, parts, arrived + {p});
      var r := Extend(counted, RecordOf(parts, p));
      if r.Ok? {
        DrainTracks(r.tracker, parts, arrived + {p});
      }
    } else {
      ParkTracks(t, parts, arrived, p);
    }
  }

  /** Record a whole arrival order, stopping at the first error. */
  function RecordAll(t: Tracker, parts: seq<Part>, order: seq<nat>): Outcome
    requires forall i :: 0 <= i < |order| ==> 1 <= order[i] <= |parts|
    decreases |order|
  {
    if order == [] then Ok(t)
    else
      match RecordDelivered(t, RecordOf(parts, order[0]))
      case Ok(s) => RecordAll(s, parts, order[1..])
      case InvalidState(s) => InvalidState(s)
  }

  ghost function Seen(order: seq<nat>): set<nat> {
    set p | p in order
  }

  lemma {:induction false} RecordAllTracks(t: Tracker, parts: seq<Part>, arrived: set<nat>, order: seq<nat>)
    requires Tracks(t, parts, arrived) && Maximal(t, arrived)
    requires forall i :: 0 <= i < |order| ==> 1 <= order[i] <= |parts| && order[i] !in arrived
    requires forall i, j :: 0 <= i < j < |order| ==> order[i] != order[j]
    ensures var r := RecordAll(t, parts, order);
            && (Linked(parts) ==> r.Ok?)
            && (r.Ok? ==> Tracks(r.tracker, parts, arrived + Seen(order)) && Maximal(r.tracker, arrived + Seen(order)))
    decreases |order|
  {
    if order == [] {
      assert arrived + Seen(order) == arrived;
    } else {
      RecordTracks(t, parts, arrived, order[0]);
      var r := RecordDelivered(t, RecordOf(parts, order[0]));
      if r.Ok? {
        RecordAllTracks(r.tracker, parts, arrived + {order[0]}, order[1..]);
        SeenStep(arrived, order);
      }
    }
  }

  lemma SeenStep(arrived: set<nat>, order: seq<nat>)
    requires order != []
    ensures arrived + {order[0]} + Seen(order[1..]) == arrived + Seen(order)
  {
    assert order == [order[0]] + order[1..];
  }

  lemma {:induction false} BytesInNone(parts: seq<Part>, n: nat)
    requires n <= |parts|
    ensures BytesIn(parts, {}, n) == 0
  {
    if n > 0 {
      BytesInNone(parts, n - 1);
    }
  }

  lemma EmptyTracks(parts: seq<Part>)
    ensures Tracks(EMPTY, parts, {}) && Maximal(EMPTY, {})
  {
    BytesInNone(parts, |parts|);
    assert parts[..0] == [];
  }

  /** Once every part has arrived nothing is parked and the prefix is the whole download. */
  lemma AllArrived(t: Tracker, parts: seq<Part>, arrived: set<nat>)
    requires Tracks(t, parts, arrived) && Maximal(t, arrived) && forall p :: 1 <= p <= |parts| ==> p in arrived
    ensures t.parked == map[] && t.delivered == t.total == |Content(parts)|
  {
    assert t.next == |parts| + 1;
    assert parts[..|parts|] == parts;
    BytesInPrefix(parts, arrived, |parts|);
    assert forall p :: p !in t.parked;
  }

  /** Every arrival order of distinct parts whose ranges join up is tracked without error: the prefix is
      the maximal delivered 1..k, the heap holds exactly the rest, and once all parts have arrived the heap
      is empty and the prefix is the whole download. */
  lemma AnyArrivalOrder(parts: seq<Part>, order: seq<nat>)
    requires Linked(parts)
    requires forall i :: 0 <= i < |order| ==> 1 <= order[i] <= |parts|
    requires forall i, j :: 0 <= i < j < |order| ==> order[i] != order[j]
    ensures var r := RecordAll(EMPTY, parts, order);
            && r.Ok? && Tracks(r.tracker, parts, Seen(order)) && Maximal(r.tracker, Seen(order))
            && ((forall p :: 1 <= p <= |parts| ==> p in Seen(order)) ==>
                  r.tracker.parked == map[] && r.tracker.delivered == r.tracker.total == |Content(parts)|)
  {
    EmptyTracks(parts);
    RecordAllTracks(EMPTY, parts, {}, order);
    var t := RecordAll(EMPTY, parts, order).tracker;
    assert {} + Seen(order) == Seen(order);
    if forall p :: 1 <= p <= |parts| ==> p in Seen(order) {
      AllArrived(t, parts, Seen(order));
    }
  }

  /** Exactly when a whole download can be recorded: the recorded ranges must join up. */
  lemma RecordsAllIffLinked(parts: seq<Part>, order: seq<nat>)
    requires forall i :: 0 <= i < |order| ==> 1 <= order[i] <= |parts|
    requires forall i, j :: 0 <= i < j < |order| ==> order[i] != order[j]
    requires forall p :: 1 <= p <= |parts| ==> p in Seen(order)
    ensures RecordAll(EMPTY, parts, order).Ok? <==> Linked(parts)
  {
    EmptyTracks(parts);
    RecordAllTracks(EMPTY, parts, {}, order);
    assert {} + Seen(order) == Seen(order);
    var r := RecordAll(EMPTY, parts, order);
    if r.Ok? {
      assert r.tracker.next == |parts| + 1;
    }
  }

  /** A first part whose recorded end is not where its body ends makes the second part an error, although
      the bodies themselves are contiguous. */
  lemma MisrecordedEndFails()
    ensures var parts := [Part(0, 7, [1, 2, 3, 4, 5]), Part(5, 9, [6, 7, 8, 9, 10])];
            Contiguous(parts) && RecordAll(EMPTY, parts, [1, 2]).InvalidState?
  {
    var parts := [Part(0, 7, [1, 2, 3, 4, 5]), Part(5, 9, [6, 7, 8, 9, 10])];
    var t := RecordDelivered(EMPTY, RecordOf(parts, 1));
    assert t == Ok(Tracker(2, 8, map[], 5, 5));
    assert RecordDelivered(t.tracker, RecordOf(parts, 2)).InvalidState?;
    assert [1, 2][1..] == [2];
  }

  /** The tracking fields as the meta request holds and updates them. */
  class DeliveredPrefix {
    var next: nat
    var rangeStart: int
    var parked: map<nat, Record>
    var delivered: nat
    var total: nat

    constructor ()
      ensures Model() == EMPTY
    {
      next, rangeStart, parked, delivered, total := 1, 0, map[], 0, 0;
    }

    ghost function Model(): Tracker
      reads this
    {
      Tracker(next, rangeStart, parked, delivered, total)
    }

    /** In object order the prefix and the total advance together. */
    method CountDelivered(n: nat)
      modifies this
      ensures Model() == old(Model()).(delivered := old(delivered) + n, total := old(total) + n)
    {
      delivered, total := delivered + n, total + n;
    }

    method ExtendDeliveredPrefix(r: Record) returns (ok: bool)
      modifies this
      ensures ok == Extend(old(Model()), r).Ok?
      ensures Model() == Extend(old(Model()), r).tracker
    {
      var expected := if next == 1 then r.start else rangeStart;
      if r.start != expected {
        return false;
      }
      delivered := delivered + r.bytes;
      rangeStart := r.end + 1;
      next := next + 1;
      return true;
    }

    method RecordDeliveredPart(r: Record) returns (ok: bool)
      modifies this
      ensures ok == RecordDelivered(old(Model()), r).Ok?
      ensures Model() == RecordDelivered(old(Model()), r).tracker
    {
      total := total + r.bytes;
      if r.part != next {
        parked := parked[r.part := r];
        return true;
      }
      ok := ExtendDeliveredPrefix(r);
      if !ok {
        return false;
      }
      ghost var extended := Model();
      while AtTop(parked, next)
        invariant Drain(Model()) == Drain(extended)
        decreases |parked|
      {
        var entry := parked[next];
        parked := parked - {next};
        ok := ExtendDeliveredPrefix(entry);
        if !ok {
          return false;
        }
      }
      return true;
    }
  }
}
