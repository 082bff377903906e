/** The client's work loops: asking meta requests for new requests, and giving queued requests to connections.
    What other threads and the service do is given by functions of the iteration. */
module Scheduler {

  // ----- Keeping order -----

  /** `a` is what is left of `b` after taking some elements out. */
  predicate Kept<T(==)>(a: seq<T>, b: seq<T>)
    decreases |b|
  {
    if b == [] then a == []
    else
      || Kept(a, b[..|b| - 1])
      || (a != [] && a[|a| - 1] == b[|b| - 1] && Kept(a[..|a| - 1], b[..|b| - 1]))
  }

  lemma {:induction false} KeptSelf<T>(a: seq<T>)
    ensures Kept(a, a)
  {
    if a != [] {
      KeptSelf(a[..|a| - 1]);
    }
  }

  lemma {:induction false} KeptAppend<T>(a: seq<T>, b: seq<T>, rest: seq<T>)
    requires Kept(a, b)
    ensures Kept(a + rest, b + rest)
  {
    if rest == [] {
      assert a + rest == a && b + rest == b;
    } else {
      var front := rest[..|rest| - 1];
      KeptAppend(a, b, front);
      assert (a + rest)[..|a + rest| - 1] == a + front && (b + rest)[..|b + rest| - 1] == b + front;
    }
  }

  lemma KeptStep<T>(a: seq<T>, b: seq<T>, x: T)
    requires Kept(a, b)
    ensures Kept(a, b + [x]) && Kept(a + [x], b + [x])
  {
    assert (b + [x])[..|b|] == b && (a + [x])[..|a|] == a;
  }

  /** Every element of `b` is kept in `a`, in order, or is among `gone`. */
  ghost predicate Divided<T(!new)>(b: seq<T>, a: seq<T>, gone: multiset<T>) {
    Kept(a, b) && multiset(b) == multiset(a) + gone
  }

  lemma DividedStep<T(!new)>(b: seq<T>, a: seq<T>, gone: multiset<T>, x: T)
    requires Divided(b, a, gone)
    ensures Divided(b + [x], a + [x], gone) && Divided(b + [x], a, gone + multiset{x})
  {
    KeptStep(a, b, x);
  }

  lemma DividedRest<T(!new)>(b: seq<T>, a: seq<T>, gone: multiset<T>, rest: seq<T>)
    requires Divided(b, a, gone)
    ensures Divided(b + rest, a + rest, gone)
  {
    KeptAppend(a, b, rest);
  }

  lemma DividedTwice<T(!new)>(c: seq<T>, b: seq<T>, a: seq<T>, gone: multiset<T>, more: multiset<T>)
    requires Divided(c, b, gone) && Divided(b, a, more)
    ensures Divided(c, a, gone + more)
  {
    KeptTrans(a, b, c);
  }

  lemma DividedNone<T(!new)>(a: seq<T>)
    ensures Divided(a, a, multiset{})
  {
    KeptSelf(a);
  }

  lemma {:induction false} KeptTrans<T>(a: seq<T>, b: seq<T>, c: seq<T>)
    requires Kept(a, b) && Kept(b, c)
    ensures Kept(a, c)
    decreases |c|
  {
    if c != [] && !Kept(b, c[..|c| - 1]) {
      if Kept(a, b[..|b| - 1]) {
        KeptTrans(a, b[..|b| - 1], c[..|c| - 1]);
      } else {
        KeptTrans(a[..|a| - 1], b[..|b| - 1], c[..|c| - 1]);
      }
    } else if c != [] {
      KeptTrans(a, b, c[..|c| - 1]);
    }
  }

  /** Elements kept keep their relative order. */
  lemma {:induction false} KeptInOrder<T>(a: seq<T>, b: seq<T>, i: nat, j: nat)
    requires Kept(a, b) && i < j < |a|
    ensures exists k, l :: 0 <= k < l < |b| && b[k] == a[i] && b[l] == a[j]
    decreases |b|
  {
    var front := b[..|b| - 1];
    if Kept(a, front) {
      KeptInOrder(a, front, i, j);
      var k, l :| 0 <= k < l < |front| && front[k] == a[i] && front[l] == a[j];
      assert b[k] == a[i] && b[l] == a[j];
    } else if j < |a| - 1 {
      KeptInOrder(a[..|a| - 1], front, i, j);
      var k, l :| 0 <= k < l < |front| && front[k] == a[i] && front[l] == a[j];
      assert b[k] == a[i] && b[l] == a[j];
    } else {
      KeptElement(a[..|a| - 1], front, i);
      var k :| 0 <= k < |front| && front[k] == a[i];
      assert b[k] == a[i] && b[|b| - 1] == a[j];
    }
  }

  lemma {:induction false} KeptElement<T>(a: seq<T>, b: seq<T>, i: nat)
    requires Kept(a, b) && i < |a|
    ensures exists k :: 0 <= k < |b| && b[k] == a[i]
    decreases |b|
  {
    var front := b[..|b| - 1];
    if Kept(a, front) {
      KeptElement(a, front, i);
      var k :| 0 <= k < |front| && front[k] == a[i];
      assert b[k] == a[i];
    } else if i < |a| - 1 {
      KeptElement(a[..|a| - 1], front, i);
      var k :| 0 <= k < |front| && front[k] == a[i];
      assert b[k] == a[i];
    } else {
      assert b[|b| - 1] == a[i];
    }
  }

  // ----- Updating the meta requests -----

  /** A meta request; a session is one that creates a session, which bypasses the limits and sends one request. */
  datatype MetaRequest = MetaRequest(id: nat, session: bool)

  /** What a meta request's update answers. */
  datatype Answer = Request | Nothing | Finished

  /** One pass over the meta requests. `gate(k)` says whether the other limits let the k-th visit through, and
      `answer(k)` what the update then says. Returns the meta requests with work remaining, and the visit after which
      each of them and each that finished was left: a meta request is left only because its update has nothing or a
      limit bars it, and a session also because no session request may be sent. */
  method UpdatePass(list: seq<MetaRequest>, prepared: nat, others: nat, maxPrepare: nat, sessions: nat,
                    gate: nat -> bool, answer: nat -> Answer, start: nat)
    returns (remaining: seq<MetaRequest>, finished: seq<MetaRequest>, total: nat, sessionsLeft: nat, visits: nat,
             ghost asked: seq<nat>, ghost ended: seq<nat>)
    ensures Divided(list, remaining, multiset(finished))
    ensures sessionsLeft <= sessions && prepared <= total
    ensures total + others <= Limit(prepared + others, maxPrepare) + (sessions - sessionsLeft)
    ensures LeftWhy(remaining, asked, total + others < maxPrepare, sessionsLeft, gate, answer)
    ensures |ended| == |finished| && forall i :: 0 <= i < |ended| ==> answer(ended[i]).Finished?
  {
    hide Divided;
    var todo := list;
    remaining, finished, total, sessionsLeft, visits := [], [], prepared, sessions, start;
    asked, ended := [], [];
    ghost var done: seq<MetaRequest> := [];
    DividedNone(done);
    while todo != []
      invariant list == done + todo && Divided(done, remaining, multiset(finished))
      invariant sessionsLeft <= sessions && prepared <= total
      invariant total + others <= Limit(prepared + others, maxPrepare) + (sessions - sessionsLeft)
      invariant LeftWhy(remaining, asked, total + others < maxPrepare, sessionsLeft, gate, answer)
      invariant |ended| == |finished| && forall i :: 0 <= i < |ended| ==> answer(ended[i]).Finished?
      decreases |todo|, (if total + others < maxPrepare then maxPrepare - (total + others) else 0) + sessionsLeft
    {
      var m := todo[0];
      var a := if !m.session && (total + others >= maxPrepare || !gate(visits)) then Nothing else answer(visits);
      if a.Request? && (!m.session || sessionsLeft > 0) {
        total := total + 1;
        if m.session {
          sessionsLeft := sessionsLeft - 1;
        }
      } else {
        DividedStep(done, remaining, multiset(finished), m);
        done, todo := done + [m], todo[1..];
        if a.Finished? {
          assert multiset(finished + [m]) == multiset(finished) + multiset{m};
          finished, ended := finished + [m], ended + [visits];
        } else {
          remaining, asked := remaining + [m], asked + [visits];
        }
      }
      visits := visits + 1;
    }
    assert done + [] == done;
  }

  /** Why each meta request with work remaining was left, if there is still room to prepare requests. */
  ghost predicate LeftWhy(remaining: seq<MetaRequest>, asked: seq<nat>, room: bool, sessions: nat, gate: nat -> bool,
                          answer: nat -> Answer)
  {
    && |asked| == |remaining|
    && (forall i :: 0 <= i < |asked| && !remaining[i].session && room ==>
          !gate(asked[i]) || answer(asked[i]).Nothing?)
    && (forall i :: 0 <= i < |asked| && remaining[i].session && sessions > 0 ==> answer(asked[i]).Nothing?)
  }

  function Limit(taken: nat, max: nat): nat {
    if taken >= max then taken else max
  }

  /** `aws_s3_client_update_meta_requests_threaded`: a conservative pass, then a full one. The surviving meta
      requests keep their order, none is lost, and the number of requests being prepared stays within the limit, apart
      from session requests. If there is still room at the end, every one that survives said that it has nothing. */
  method UpdateMetaRequests(list: seq<MetaRequest>, prepared: nat, others: nat, maxPrepare: nat, sessions: nat,
                            gate: nat -> bool, answer: nat -> Answer)
    returns (remaining: seq<MetaRequest>, finished: seq<MetaRequest>, total: nat, sessionsLeft: nat,
             ghost asked: seq<nat>)
    ensures Kept(remaining, list)
    ensures multiset(list) == multiset(remaining) + multiset(finished)
    ensures sessionsLeft <= sessions && prepared <= total
    ensures total + others <= Limit(prepared + others, maxPrepare) + (sessions - sessionsLeft)
    ensures LeftWhy(remaining, asked, total + others < maxPrepare, sessionsLeft, gate, answer)
  {
    hide LeftWhy;
    remaining, finished, total, sessionsLeft, asked := list, [], prepared, sessions, [];
    var visits := 0;
    DividedNone(list);
    for pass := 0 to 2
      invariant Divided(list, remaining, multiset(finished))
      invariant sessionsLeft <= sessions && prepared <= total
      invariant total + others <= Limit(prepared + others, maxPrepare) + (sessions - sessionsLeft)
      invariant pass > 0 ==> LeftWhy(remaining, asked, total + others < maxPrepare, sessionsLeft, gate, answer)
    {
      var left, ended;
      ghost var when;
      ghost var before := remaining;
      left, ended, total, sessionsLeft, visits, asked, when :=
        UpdatePass(remaining, total, others, maxPrepare, sessionsLeft, gate, answer, visits);
      DividedTwice(list, before, left, multiset(finished), multiset(ended));
      assert multiset(finished + ended) == multiset(finished) + multiset(ended);
      remaining, finished := left, finished + ended;
    }
  }

  // ----- Giving queued requests to connections -----

  datatype QueuedRequest = QueuedRequest(id: nat, noop: bool, alwaysSend: bool)

  /** What becomes of a queued request at its turn. */
  datatype Fate = Finish | Send | LeaveOver

  /** A no-op is finished, and so is a request of a stopped meta request unless it is always sent. Others are sent,
      unless their meta request has all the connections it may have. */
  function FateOf(r: QueuedRequest, stopped: bool, busy: bool): Fate {
    if r.noop || (stopped && !r.alwaysSend) then Finish else if busy then LeaveOver else Send
  }

  /** The requests that meet this fate, in order; the k-th has the k-th turn. */
  function Meeting(rs: seq<QueuedRequest>, stopped: nat -> bool, busy: nat -> bool, fate: Fate): seq<QueuedRequest> {
    if rs == [] then []
    else
      var k := |rs| - 1;
      Meeting(rs[..k], stopped, busy, fate) + if FateOf(rs[k], stopped(k), busy(k)) == fate then [rs[k]] else []
  }

  lemma MeetingStep(rs: seq<QueuedRequest>, r: QueuedRequest, stopped: nat -> bool, busy: nat -> bool, fate: Fate)
    ensures Meeting(rs + [r], stopped, busy, fate) ==
            Meeting(rs, stopped, busy, fate) + if FateOf(r, stopped(|rs|), busy(|rs|)) == fate then [r] else []
  {
    assert (rs + [r])[..|rs|] == rs;
  }

  datatype Dequeued = Empty | Dequeued(request: QueuedRequest)

  class RequestQueue {
    var queue: seq<QueuedRequest>
    var size: nat                    // request_queue_size

    ghost predicate Valid()
      reads this
    {
      size == |queue|
    }

    constructor ()
      ensures Valid() && queue == []
    {
      queue, size := [], 0;
    }

    /** `aws_s3_client_queue_requests_threaded`. */
    method QueueRequests(list: seq<QueuedRequest>, front: bool) returns (count: nat)
      requires Valid()
      modifies this
      ensures Valid() && count == |list|
      ensures queue == if front then list + old(queue) else old(queue) + list
    {
      count := 0;
      while count < |list|
        invariant count <= |list| && queue == old(queue) && size == old(size)
      {
        count := count + 1;
      }
      if front {
        queue := list + queue;
      } else {
        queue := queue + list;
      }
      size := size + count;
    }

    /** `aws_s3_client_dequeue_request_threaded`. */
    method Dequeue() returns (d: Dequeued)
      requires Valid()
      modifies this
      ensures Valid() && old(queue) == (if d.Dequeued? then [d.request] else []) + queue
      ensures d.Empty? <==> old(queue) == []
    {
      if queue == [] {
        return Empty;
      }
      d := Dequeued(queue[0]);
      queue := queue[1..];
      size := size - 1;
    }

    /** `aws_s3_client_update_connections_threaded`. At the k-th turn `maxActive(k)` is the client's maximum,
        `gone(k)` connections have ended meanwhile, `stopped(k)` says that the request's meta request has a finish
        result, and `busy(k)` that it has all the connections it may have. The requests are taken from the front, one a
        turn, until none is left or the maximum is reached, and each meets its fate; those left over go back to the
        front, in order. Every request sent found `inUse` connections below the maximum of its turn, so a bound on the
        maximum bounds the connections. */
    method UpdateConnections(network: nat, maxActive: nat -> nat, gone: nat -> nat, stopped: nat -> bool,
                             busy: nat -> bool, ghost bound: nat)
      returns (sent: seq<QueuedRequest>, finished: seq<QueuedRequest>, active: nat, ghost turns: seq<nat>,
               ghost inUse: seq<nat>, ghost last: nat)
      requires Valid()
      modifies this
      ensures last <= |old(queue)| && (last == |old(queue)| || active >= maxActive(last))
      ensures sent == Meeting(old(queue)[..last], stopped, busy, Send)
      ensures finished == Meeting(old(queue)[..last], stopped, busy, Finish)
      ensures queue == Meeting(old(queue)[..last], stopped, busy, LeaveOver) + old(queue)[last..]
      ensures Valid() && Kept(queue, old(queue))
      ensures multiset(old(queue)) == multiset(queue) + multiset(sent) + multiset(finished)
      ensures |turns| == |inUse| == |sent| && forall i :: 0 <= i < |sent| ==> inUse[i] < maxActive(turns[i])
      ensures network <= bound && (forall j :: maxActive(j) <= bound) ==> active <= bound
      ensures forall i :: 0 <= i < |sent| ==> !sent[i].noop
    {
      hide Served, Kept, Meeting, Met, UnderMax;
      UnderMaxNone(maxActive);
      sent, finished, active, turns, inUse := [], [], network, [], [];
      var leftOver: seq<QueuedRequest> := [];
      ghost var seen: seq<QueuedRequest> := [];
      var k := 0;
      MetNone(stopped, busy);
      while active < maxActive(k) && queue != []
        invariant Valid() && old(queue) == seen + queue && k == |seen|
        invariant Met(seen, sent, finished, leftOver, stopped, busy)
        invariant |turns| == |sent| && UnderMax(turns, inUse, maxActive)
        invariant network <= bound && (forall j :: maxActive(j) <= bound) ==> active <= bound
        decreases |queue|
      {
        ghost var before := queue;
        var d := Dequeue();
        var r := d.request;
        Moved(seen, before, queue, r);
        MetStep(seen, sent, finished, leftOver, r, stopped, busy);
        seen := seen + [r];
        if r.noop || (!r.alwaysSend && stopped(k)) {
          finished := finished + [r];
        } else if !busy(k) {
          UnderMaxStep(turns, inUse, k, active, maxActive);
          turns, inUse := turns + [k], inUse + [active];
          sent, active := sent + [r], active + 1;
        } else {
          leftOver := leftOver + [r];
        }
        active := if gone(k) <= active then active - gone(k) else 0;
        k := k + 1;
      }
      MetServed(seen, sent, finished, leftOver, queue, stopped, busy);
      UnderMaxAll(turns, inUse, maxActive);
      last := k;
      assert old(queue)[..last] == seen && old(queue)[last..] == queue;
      var count := QueueRequests(leftOver, true);
    }
  }

  /** At each of these turns fewer connections were in use than the maximum. */
  ghost predicate UnderMax(turns: seq<nat>, inUse: seq<nat>, maxActive: nat -> nat) {
    |turns| == |inUse| && forall i :: 0 <= i < |turns| ==> inUse[i] < maxActive(turns[i])
  }

  lemma UnderMaxNone(maxActive: nat -> nat)
    ensures UnderMax([], [], maxActive)
  {
  }

  lemma UnderMaxStep(turns: seq<nat>, inUse: seq<nat>, k: nat, active: nat, maxActive: nat -> nat)
    requires UnderMax(turns, inUse, maxActive) && active < maxActive(k)
    ensures UnderMax(turns + [k], inUse + [active], maxActive)
  {
  }

  lemma UnderMaxAll(turns: seq<nat>, inUse: seq<nat>, maxActive: nat -> nat)
    requires UnderMax(turns, inUse, maxActive)
    ensures |turns| == |inUse| && forall i :: 0 <= i < |turns| ==> inUse[i] < maxActive(turns[i])
  {
  }

  lemma Moved<T>(seen: seq<T>, before: seq<T>, after: seq<T>, r: T)
    requires before == [r] + after
    ensures seen + before == (seen + [r]) + after
  {
  }

  /** Everything seen was sent, finished or left over, and what is left over is in order. */
  ghost predicate Served<T(!new)>(seen: seq<T>, left: seq<T>, sent: seq<T>, finished: seq<T>) {
    Divided(seen, left, multiset(sent) + multiset(finished))
  }

  lemma ServedNone<T(!new)>()
    ensures Served<T>([], [], [], [])
  {
    DividedNone<T>([]);
  }

  lemma ServedStep<T(!new)>(seen: seq<T>, left: seq<T>, sent: seq<T>, finished: seq<T>, r: T)
    requires Served(seen, left, sent, finished)
    ensures Served(seen + [r], left + [r], sent, finished)
    ensures Served(seen + [r], left, sent + [r], finished) && Served(seen + [r], left, sent, finished + [r])
  {
    DividedStep(seen, left, multiset(sent) + multiset(finished), r);
    assert multiset(sent + [r]) + multiset(finished) == multiset(sent) + multiset(finished) + multiset{r};
    assert multiset(sent) + multiset(finished + [r]) == multiset(sent) + multiset(finished) + multiset{r};
  }

  /** Every request meets one fate, and no no-op is sent. */
  lemma {:induction false} AllMeetTheirFate(rs: seq<QueuedRequest>, stopped: nat -> bool, busy: nat -> bool)
    ensures Served(rs, Meeting(rs, stopped, busy, LeaveOver), Meeting(rs, stopped, busy, Send),
                   Meeting(rs, stopped, busy, Finish))
    ensures forall i :: 0 <= i < |Meeting(rs, stopped, busy, Send)| ==> !Meeting(rs, stopped, busy, Send)[i].noop
  {
    hide Served;
    if rs == [] {
      ServedNone<QueuedRequest>();
    } else {
      var k := |rs| - 1;
      var r := rs[k];
      var left, sent, finished := Meeting(rs[..k], stopped, busy, LeaveOver), Meeting(rs[..k], stopped, busy, Send),
                                  Meeting(rs[..k], stopped, busy, Finish);
      AllMeetTheirFate(rs[..k], stopped, busy);
      ServedStep(rs[..k], left, sent, finished, r);
      assert rs[..k] + [r] == rs;
      assert left + [] == left && sent + [] == sent && finished + [] == finished;
      match FateOf(r, stopped(k), busy(k)) {
        case Finish => assert Meeting(rs, stopped, busy, Finish) == finished + [r];
        case Send => assert Meeting(rs, stopped, busy, Send) == sent + [r];
        case LeaveOver => assert Meeting(rs, stopped, busy, LeaveOver) == left + [r];
      }
    }
  }

  /** The requests seen so far have met their fates. */
  ghost predicate Met(seen: seq<QueuedRequest>, sent: seq<QueuedRequest>, finished: seq<QueuedRequest>,
                      left: seq<QueuedRequest>, stopped: nat -> bool, busy: nat -> bool)
  {
    && sent == Meeting(seen, stopped, busy, Send) && finished == Meeting(seen, stopped, busy, Finish)
    && left == Meeting(seen, stopped, busy, LeaveOver)
  }

  lemma MetNone(stopped: nat -> bool, busy: nat -> bool)
    ensures Met([], [], [], [], stopped, busy)
  {
  }

  lemma MetStep(seen: seq<QueuedRequest>, sent: seq<QueuedRequest>, finished: seq<QueuedRequest>,
                left: seq<QueuedRequest>, r: QueuedRequest, stopped: nat -> bool, busy: nat -> bool)
    requires Met(seen, sent, finished, left, stopped, busy)
    ensures match FateOf(r, stopped(|seen|), busy(|seen|))
            case Finish => Met(seen + [r], sent, finished + [r], left, stopped, busy)
            case Send => Met(seen + [r], sent + [r], finished, left, stopped, busy)
            case LeaveOver => Met(seen + [r], sent, finished, left + [r], stopped, busy)
  {
    hide FateOf;
    MeetingStep(seen, r, stopped, busy, Send);
    MeetingStep(seen, r, stopped, busy, Finish);
    MeetingStep(seen, r, stopped, busy, LeaveOver);
  }

  lemma MetServed(seen: seq<QueuedRequest>, sent: seq<QueuedRequest>, finished: seq<QueuedRequest>,
                  left: seq<QueuedRequest>, rest: seq<QueuedRequest>, stopped: nat -> bool, busy: nat -> bool)
    requires Met(seen, sent, finished, left, stopped, busy)
    ensures sent == Meeting(seen, stopped, busy, Send) && finished == Meeting(seen, stopped, busy, Finish)
    ensures left == Meeting(seen, stopped, busy, LeaveOver)
    ensures forall i :: 0 <= i < |sent| ==> !sent[i].noop
    ensures Kept(left + rest, seen + rest)
    ensures multiset(seen + rest) == multiset(left + rest) + multiset(sent) + multiset(finished)
  {
    AllMeetTheirFate(seen, stopped, busy);
    ServedRest(seen, left, sent, finished, rest);
  }

  lemma ServedRest<T(!new)>(seen: seq<T>, left: seq<T>, sent: seq<T>, finished: seq<T>, rest: seq<T>)
    requires Served(seen, left, sent, finished)
    ensures Kept(left + rest, seen + rest)
    ensures multiset(seen + rest) == multiset(left + rest) + multiset(sent) + multiset(finished)
  {
    DividedRest(seen, left, multiset(sent) + multiset(finished), rest);
  }
}
