/** Uploading by writes: the caller's `poll_write` fills one part's buffer at a time, the update hands the full
    buffer to a part request, and a waker tells the caller when it may write again. */
module AsyncWrite {
  import opened ObjectParts

  datatype Writer = Writer(
    ready: bool,               // ready_to_send
    eof: bool,
    buffered: seq<byte>,       // buffered_data
    ticket: bool,              // buffered_data_ticket is held here
    future: bool,              // a deferred reservation is outstanding
    waker: bool,
    handing: bool,             // a part request holds the buffer and has not read it yet
    pendingRead: bool,         // num_parts_pending_read
    closed: bool,              // a finish result is set
    finished: bool,            // the meta request has finished
    parts: seq<seq<byte>>,     // bodies handed to part requests
    accepted: seq<byte>,       // everything poll_write has taken
    registered: nat, fired: nat)

  const START := Writer(false, false, [], false, false, false, false, false, false, false, [], [], 0, 0)

  /** How the pool answers a reservation that must not block. */
  datatype Answer = Granted | Deferred | Refused

  datatype Result = Processed(n: nat) | Pending | Error

  function Fail(w: Writer): Writer {
    w.(closed := true)
  }

  function RegisterWaker(w: Writer): Writer {
    w.(waker := true, registered := w.registered + 1)
  }

  /** Get a buffer, if there is none. */
  function Reserve(w: Writer, pool: Answer): Writer {
    if w.ticket then w
    else
      match pool
      case Granted => w.(ticket := true, buffered := [])
      case Deferred => RegisterWaker(w.(future := true))
      case Refused => Fail(w)
  }

  /** How much of the data fits. */
  function Room(size: nat, w: Writer, data: seq<byte>): nat {
    if |w.buffered| > size then 0 else if size - |w.buffered| <= |data| then size - |w.buffered| else |data|
  }

  /** Copy what fits, and note whether the buffer is ready to go. */
  function Copy(size: nat, w: Writer, data: seq<byte>, eof: bool): Writer {
    var n := Room(size, w, data);
    var v := w.(buffered := w.buffered + data[..n], accepted := w.accepted + data[..n],
                eof := w.eof || (eof && n == |data|));
    v.(ready := v.ready || v.eof || |v.buffered| == size)
  }

  /** Calling out of turn ends the upload. */
  predicate Illegal(w: Writer) {
    w.waker || w.eof
  }

  /** `aws_s3_meta_request_poll_write`. */
  function PollWrite(size: nat, w: Writer, data: seq<byte>, eof: bool, pool: Answer): (Writer, Result) {
    if w.closed then (w, Error)
    else if Illegal(w) then (Fail(w), Error)
    else if |w.buffered| == size then (RegisterWaker(w), Pending)
    else
      var v := Reserve(w, pool);
      if v.closed then (v, Error)
      else if v.future then (v, Pending)
      else (Copy(size, v, data, eof), Processed(Room(size, v, data)))
  }

  function FireWaker(w: Writer): Writer {
    w.(waker := false, fired := w.fired + if w.waker then 1 else 0)
  }

  /** `s_s3_meta_request_on_async_write_buffer_reserved`: the deferred reservation ends. */
  function Reserved(w: Writer, ok: bool): Writer {
    var v := w.(future := false);
    FireWaker(if !ok then Fail(v) else if v.closed then v else v.(ticket := true, buffered := []))
  }

  /** May the update hand out a part? */
  predicate CanHandOff(w: Writer) {
    !w.closed && w.ready && !w.pendingRead
  }

  /** The update gives the buffer to a part request. */
  function HandOff(w: Writer): Writer {
    w.(ticket := false, handing := true, pendingRead := true)
  }

  /** `s_s3_meta_request_read_from_pending_async_writes`: the part request has its body. */
  function ReadPart(w: Writer): Writer {
    FireWaker(w.(ready := false, handing := false, parts := w.parts + [w.buffered], buffered := []))
  }

  /** The part's info is recorded and the next part may be scheduled. */
  function PartRecorded(w: Writer): Writer {
    w.(pendingRead := false)
  }

  /** The last part has been handed off. */
  predicate LastSent(w: Writer) {
    w.eof && !w.ready
  }

  /** The meta request finishes with no part of it in flight: once it has a finish result, or everything was sent. */
  predicate CanFinish(w: Writer) {
    !w.finished && (w.closed || LastSent(w)) && !w.handing && !w.pendingRead
  }

  /** `aws_s3_meta_request_finish_default`. An outstanding reservation is errored, and its completion takes the
      waker; otherwise the waker is taken here. */
  function Finish(w: Writer): Writer {
    var v := w.(closed := true, finished := true);
    if w.future then v else FireWaker(v)
  }

  // ----- The invariant -----

  function Flatten(parts: seq<seq<byte>>): seq<byte> {
    if parts == [] then [] else Flatten(parts[..|parts| - 1]) + parts[|parts| - 1]
  }

  predicate PartSizes(size: nat, parts: seq<seq<byte>>, last: bool) {
    forall i :: 0 <= i < |parts| ==> |parts[i]| <= size && (|parts[i]| == size || (last && i == |parts| - 1))
  }

  predicate Buffers(size: nat, w: Writer) {
    && |w.buffered| <= size
    && (w.handing ==> w.ready && !w.ticket && w.pendingRead)
    && (w.future ==> !w.ticket && !w.ready && !w.handing && w.waker && !w.eof)
    && (!w.ticket && !w.handing ==> w.buffered == [])
    && (w.ready ==> (w.ticket || w.handing) && (w.eof || |w.buffered| == size))
    && (|w.buffered| == size ==> w.ready)
    && (LastSent(w) ==> w.buffered == [] && w.parts != [])
  }

  predicate Conserved(size: nat, w: Writer) {
    w.accepted == Flatten(w.parts) + w.buffered && PartSizes(size, w.parts, LastSent(w))
  }

  /** A waker waits for a full buffer to be read or for a reservation to end, and fires once. */
  predicate WakerOk(w: Writer) {
    && w.registered == w.fired + (if w.waker then 1 else 0)
    && (w.waker ==> w.future || w.ready)
    && (w.finished ==> w.closed && !w.handing && !w.pendingRead && (w.waker ==> w.future))
  }

  predicate Inv(size: nat, w: Writer) {
    size > 0 && Buffers(size, w) && Conserved(size, w) && WakerOk(w)
  }

  lemma FlattenAppend(parts: seq<seq<byte>>, p: seq<byte>)
    ensures Flatten(parts + [p]) == Flatten(parts) + p
  {
    assert (parts + [p])[..|parts|] == parts;
  }

  lemma PollWriteInv(size: nat, w: Writer, data: seq<byte>, eof: bool, pool: Answer)
    requires Inv(size, w)
    ensures Inv(size, PollWrite(size, w, data, eof, pool).0)
  {
    if !w.closed && !Illegal(w) && |w.buffered| != size && (w.ticket || pool.Granted?) {
      var v := Reserve(w, pool);
      assert !w.ready;
      CopyInv(size, v, data, eof);
    }
  }

  lemma CopyInv(size: nat, w: Writer, data: seq<byte>, eof: bool)
    requires Inv(size, w) && w.ticket && !w.ready && !w.eof && !w.handing
    ensures Inv(size, Copy(size, w, data, eof))
  {
    var n := Room(size, w, data);
    assert w.accepted + data[..n] == Flatten(w.parts) + (w.buffered + data[..n]);
  }

  lemma ReservedInv(size: nat, w: Writer, ok: bool)
    requires Inv(size, w) && w.future
    ensures Inv(size, Reserved(w, ok))
  {
  }

  lemma HandOffInv(size: nat, w: Writer)
    requires Inv(size, w) && CanHandOff(w)
    ensures Inv(size, HandOff(w)) && w.ticket
  {
  }

  lemma ReadPartInv(size: nat, w: Writer)
    requires Inv(size, w) && w.handing
    ensures Inv(size, ReadPart(w))
  {
    var v := ReadPart(w);
    FlattenAppend(w.parts, w.buffered);
    assert v.accepted == Flatten(v.parts) + [];
    forall i | 0 <= i < |v.parts|
      ensures |v.parts[i]| <= size && (|v.parts[i]| == size || (LastSent(v) && i == |v.parts| - 1))
    {
      if i < |w.parts| {
        assert v.parts[i] == w.parts[i];
      }
    }
  }

  lemma PartRecordedInv(size: nat, w: Writer)
    requires Inv(size, w) && !w.handing
    ensures Inv(size, PartRecorded(w))
  {
  }

  lemma FailInv(size: nat, w: Writer)
    requires Inv(size, w)
    ensures Inv(size, Fail(w))
  {
  }

  lemma FinishInv(size: nat, w: Writer)
    requires Inv(size, w) && CanFinish(w)
    ensures Inv(size, Finish(w))
  {
  }

  // ----- Runs -----

  datatype Action =
    | Write(data: seq<byte>, eof: bool, pool: Answer)
    | EndReserve(ok: bool)
    | DoHandOff
    | DoRead
    | Record
    | Stop
    | DoFinish

  predicate Enabled(w: Writer, a: Action) {
    match a
    case Write(_, _, _) => true
    case EndReserve(_) => w.future
    case DoHandOff => CanHandOff(w)
    case DoRead => w.handing
    case Record => w.pendingRead && !w.handing
    case Stop => true
    case DoFinish => CanFinish(w)
  }

  function Step(size: nat, w: Writer, a: Action): Writer
    requires Enabled(w, a)
  {
    match a
    case Write(data, eof, pool) => PollWrite(size, w, data, eof, pool).0
    case EndReserve(ok) => Reserved(w, ok)
    case DoHandOff => HandOff(w)
    case DoRead => ReadPart(w)
    case Record => PartRecorded(w)
    case Stop => Fail(w)
    case DoFinish => Finish(w)
  }

  predicate IsRun(size: nat, w: Writer, actions: seq<Action>)
    decreases |actions|
  {
    actions == [] || (Enabled(w, actions[0]) && IsRun(size, Step(size, w, actions[0]), actions[1..]))
  }

  function After(size: nat, w: Writer, actions: seq<Action>): Writer
    requires IsRun(size, w, actions)
    decreases |actions|
  {
    if actions == [] then w else After(size, Step(size, w, actions[0]), actions[1..])
  }

  lemma StepInv(size: nat, w: Writer, a: Action)
    requires Inv(size, w) && Enabled(w, a)
    ensures Inv(size, Step(size, w, a))
  {
    hide Inv;
    match a
    case Write(data, eof, pool) => PollWriteInv(size, w, data, eof, pool);
    case EndReserve(ok) => ReservedInv(size, w, ok);
    case DoHandOff => HandOffInv(size, w);
    case DoRead => ReadPartInv(size, w);
    case Record => PartRecordedInv(size, w);
    case Stop => FailInv(size, w);
    case DoFinish => FinishInv(size, w);
  }

  lemma {:induction false} RunInv(size: nat, w: Writer, actions: seq<Action>)
    requires Inv(size, w) && IsRun(size, w, actions)
    ensures Inv(size, After(size, w, actions))
    decreases |actions|
  {
    hide Inv;
    if actions != [] {
      StepInv(size, w, actions[0]);
      RunInv(size, Step(size, w, actions[0]), actions[1..]);
    }
  }

  // ----- What the caller was told -----

  function AnswerTo(size: nat, w: Writer, a: Action): Result
    requires a.Write?
  {
    PollWrite(size, w, a.data, a.eof, a.pool).1
  }

  /** The bytes the caller was told were taken: of each write answered with a count, that many from its front. */
  function Taken(size: nat, w: Writer, actions: seq<Action>): seq<byte>
    requires IsRun(size, w, actions)
    decreases |actions|
  {
    if actions == [] then []
    else TakenBy(size, w, actions[0]) + Taken(size, Step(size, w, actions[0]), actions[1..])
  }

  function TakenBy(size: nat, w: Writer, a: Action): seq<byte> {
    if a.Write? && AnswerTo(size, w, a).Processed? && AnswerTo(size, w, a).n <= |a.data|
    then a.data[..AnswerTo(size, w, a).n] else []
  }

  /** Some write was the last one and was told that all of it was taken. */
  predicate AllTaken(size: nat, w: Writer, actions: seq<Action>)
    requires IsRun(size, w, actions)
    decreases |actions|
  {
    actions != [] && (LastTaken(size, w, actions[0]) || AllTaken(size, Step(size, w, actions[0]), actions[1..]))
  }

  predicate LastTaken(size: nat, w: Writer, a: Action) {
    a.Write? && a.eof && AnswerTo(size, w, a) == Processed(|a.data|)
  }

  /** How many writes were told to wait. */
  function Waits(size: nat, w: Writer, actions: seq<Action>): nat
    requires IsRun(size, w, actions)
    decreases |actions|
  {
    if actions == [] then 0
    else
      var a := actions[0];
      (if a.Write? && AnswerTo(size, w, a).Pending? then 1 else 0) + Waits(size, Step(size, w, a), actions[1..])
  }

  /** The meta request was stopped or has finished, or a reservation or a write failed. */
  predicate Ended(size: nat, w: Writer, actions: seq<Action>)
    requires IsRun(size, w, actions)
    decreases |actions|
  {
    actions != [] && (Ends(size, w, actions[0]) || Ended(size, Step(size, w, actions[0]), actions[1..]))
  }

  predicate Ends(size: nat, w: Writer, a: Action) {
    match a
    case Stop => true
    case DoFinish => true
    case EndReserve(ok) => !ok
    case Write(_, _, _) => AnswerTo(size, w, a).Error?
    case _ => false
  }

  lemma WriteTold(size: nat, w: Writer, data: seq<byte>, eof: bool, pool: Answer)
    requires Inv(size, w)
    ensures var (v, r) := PollWrite(size, w, data, eof, pool);
            && (r.Processed? ==> r.n <= |data| && v.accepted == w.accepted + data[..r.n])
            && (!r.Processed? ==> v.accepted == w.accepted)
            && (v.eof <==> w.eof || (eof && r == Processed(|data|)))
            && v.registered == w.registered + (if r.Pending? then 1 else 0)
            && (v.closed <==> w.closed || r.Error?)
  {
    hide Conserved;
  }

  lemma StepTold(size: nat, w: Writer, a: Action)
    requires Inv(size, w) && Enabled(w, a)
    ensures var v := Step(size, w, a);
            && v.accepted == w.accepted + TakenBy(size, w, a)
            && (v.eof <==> w.eof || LastTaken(size, w, a))
            && v.registered == w.registered + (if a.Write? && AnswerTo(size, w, a).Pending? then 1 else 0)
            && (v.closed <==> w.closed || Ends(size, w, a))
  {
    hide PollWrite, Inv;
    if a.Write? {
      WriteTold(size, w, a.data, a.eof, a.pool);
    }
  }

  /** What the writer keeps is what its answers said. */
  lemma {:induction false} RunTold(size: nat, w: Writer, actions: seq<Action>)
    requires Inv(size, w) && IsRun(size, w, actions)
    ensures var v := After(size, w, actions);
            && v.accepted == w.accepted + Taken(size, w, actions)
            && (v.eof <==> w.eof || AllTaken(size, w, actions))
            && v.registered == w.registered + Waits(size, w, actions)
            && (v.closed <==> w.closed || Ended(size, w, actions))
    decreases |actions|
  {
    hide Inv, Step, Enabled, TakenBy, LastTaken, Ends;
    if actions != [] {
      StepInv(size, w, actions[0]);
      StepTold(size, w, actions[0]);
      RunTold(size, Step(size, w, actions[0]), actions[1..]);
    }
  }

  // ----- The theorems -----

  /** In every run the bytes that the caller was told were taken, from the front of each write and in order, are the
      part bodies handed off followed by what is buffered. Every part but the last is exactly a part long. The end
      is noted just when a last write was taken whole, and the upload finishes of itself only when everything taken
      was handed off. */
  lemma WritesConserved(size: nat, actions: seq<Action>)
    requires size > 0 && IsRun(size, START, actions)
    ensures var w := After(size, START, actions);
            && Taken(size, START, actions) == Flatten(w.parts) + w.buffered
            && (forall i :: 0 <= i < |w.parts| - 1 ==> |w.parts[i]| == size)
            && (!w.eof ==> forall i :: 0 <= i < |w.parts| ==> |w.parts[i]| == size)
            && (w.eof <==> AllTaken(size, START, actions))
            && (CanFinish(w) && !Ended(size, START, actions) ==>
                  w.eof && w.parts != [] && Taken(size, START, actions) == Flatten(w.parts))
  {
    RunInv(size, START, actions);
    RunTold(size, START, actions);
  }

  /** The answer to a write, from what the caller was told before. It is an error if the upload has ended or a last
      write was taken, if a waker is registered, or if no buffer can be had. It is to wait if a part's worth of bytes
      was taken and not yet read, or if the pool puts off the buffer. Otherwise as much is taken as fits. */
  lemma WriteAnswered(size: nat, actions: seq<Action>, data: seq<byte>, eof: bool, pool: Answer)
    requires size > 0 && IsRun(size, START, actions)
    ensures var w := After(size, START, actions);
            var held := |Taken(size, START, actions)| - |Flatten(w.parts)|;
            var barred := Ended(size, START, actions) || AllTaken(size, START, actions)
                          || Waits(size, START, actions) > w.fired;
            var r := PollWrite(size, w, data, eof, pool).1;
            && 0 <= held <= size
            && (r.Error? <==> barred || (!w.ticket && held < size && pool.Refused?))
            && (r.Pending? <==> !barred && (held == size || (!w.ticket && pool.Deferred?)))
            && (r.Processed? ==> r.n == if |data| <= size - held then |data| else size - held)
  {
    RunInv(size, START, actions);
    RunTold(size, START, actions);
  }

  /** While a part request holds the buffer, a write reserves nothing and writes nothing: it waits, or ends the
      upload if it comes out of turn. */
  lemma NoWriteDuringHandOff(size: nat, actions: seq<Action>, data: seq<byte>, eof: bool, pool: Answer)
    requires size > 0 && IsRun(size, START, actions) && After(size, START, actions).handing
    ensures var w := After(size, START, actions);
            var (v, r) := PollWrite(size, w, data, eof, pool);
            && (r.Pending? || r.Error?)
            && v.buffered == w.buffered && !v.ticket && !v.future && v.accepted == w.accepted && v.eof == w.eof
  {
    RunInv(size, START, actions);
  }

  /** A part is handed out only with its buffer's ticket in hand. */
  lemma HandOffHasTicket(size: nat, actions: seq<Action>)
    requires size > 0 && IsRun(size, START, actions) && CanHandOff(After(size, START, actions))
    ensures var w := After(size, START, actions);
            w.ticket && (w.eof || |w.buffered| == size)
  {
    RunInv(size, START, actions);
  }

  /** Each registration of a waker is consumed at most once. A registered waker is never stranded: a reservation is
      about to end, its buffer is being read or can be handed off, the part before it is being recorded, or the meta
      request can finish. Ending the reservation, reading the part or finishing consumes it, and once the meta
      request has finished and no reservation is outstanding every registration has been consumed. */
  lemma WakerConsumedOnce(size: nat, actions: seq<Action>)
    requires size > 0 && IsRun(size, START, actions)
    ensures var w := After(size, START, actions);
            && w.fired <= w.registered <= w.fired + 1 && (w.waker <==> w.registered == w.fired + 1)
            && (w.waker ==> w.future || w.handing || w.pendingRead || CanHandOff(w) || CanFinish(w))
            && (w.finished && !w.future ==> w.registered == w.fired)
            && (CanFinish(w) && !w.future ==> !Finish(w).waker)
            && (w.handing ==> !ReadPart(w).waker)
            && (w.future ==> !Reserved(w, true).waker && !Reserved(w, false).waker)
  {
    RunInv(size, START, actions);
  }

  // ----- The writer as it is updated in place -----

  class AsyncWriter {
    const size: nat
    var ready: bool
    var eof: bool
    var buffered: seq<byte>
    var ticket: bool
    var future: bool
    var waker: bool
    var handing: bool
    var pendingRead: bool
    var closed: bool
    var finished: bool
    var parts: seq<seq<byte>>
    ghost var accepted: seq<byte>
    ghost var registered: nat
    ghost var fired: nat

    ghost function Model(): Writer
      reads this
    {
      Writer(ready, eof, buffered, ticket, future, waker, handing, pendingRead, closed, finished, parts, accepted,
             registered, fired)
    }

    constructor (size: nat)
      ensures this.size == size && Model() == START
    {
      this.size := size;
      ready, eof, buffered, ticket, future, waker := false, false, [], false, false, false;
      handing, pendingRead, closed, finished := false, false, false, false;
      parts, accepted, registered, fired := [], [], 0, 0;
    }

    method SetWaker()
      modifies this`waker, this`registered
      ensures waker && registered == old(registered) + 1
    {
      waker, registered := true, registered + 1;
    }

    /** Take the waker, to be called once the lock is released. */
    method TakeWaker() returns (fire: bool)
      modifies this`waker, this`fired
      ensures fire == old(waker) && Model() == FireWaker(old(Model()))
    {
      fire := waker;
      waker := false;
      if fire {
        fired := fired + 1;
      }
    }

    method ReserveBuffer(pool: Answer)
      modifies this`ticket, this`buffered, this`future, this`waker, this`registered, this`closed
      ensures Model() == Reserve(old(Model()), pool)
    {
      if !ticket {
        match pool
        case Granted => ticket, buffered := true, [];
        case Deferred =>
          future := true;
          SetWaker();
        case Refused => closed := true;
      }
    }

    method CopyData(data: seq<byte>, last: bool) returns (n: nat)
      modifies this`buffered, this`accepted, this`eof, this`ready
      ensures Model() == Copy(size, old(Model()), data, last) && n == Room(size, old(Model()), data)
    {
      n := if |buffered| <= size then size - |buffered| else 0;
      if n > |data| {
        n := |data|;
      }
      buffered := buffered + data[..n];
      accepted := accepted + data[..n];
      if last && n == |data| {
        eof := true;
      }
      if eof || |buffered| == size {
        ready := true;
      }
    }

    /** `aws_s3_meta_request_poll_write`. */
    method PollWriteData(data: seq<byte>, last: bool, pool: Answer) returns (r: Result)
      modifies this
      ensures (Model(), r) == PollWrite(size, old(Model()), data, last, pool)
    {
      hide Copy, Room;
      if closed {
        return Error;
      }
      if waker || eof {
        closed := true;
        return Error;
      }
      if |buffered| == size {
        SetWaker();
        return Pending;
      }
      ReserveBuffer(pool);
      if closed {
        return Error;
      }
      if future {
        return Pending;
      }
      var n := CopyData(data, last);
      r := Processed(n);
    }

    method BufferReserved(ok: bool) returns (fire: bool)
      modifies this`future, this`closed, this`ticket, this`buffered, this`waker, this`fired
      ensures Model() == Reserved(old(Model()), ok) && fire == old(waker)
    {
      SettleReservation(ok);
      hide Model;
      fire := TakeWaker();
    }

    method SettleReservation(ok: bool)
      modifies this`future, this`closed, this`ticket, this`buffered
      ensures var v := old(Model()).(future := false);
              Model() == if !ok then Fail(v) else if v.closed then v else v.(ticket := true, buffered := [])
    {
      future := false;
      if !ok {
        closed := true;
      } else if !closed {
        ticket, buffered := true, [];
      }
    }

    method HandOffBuffer() returns (body: seq<byte>)
      modifies this`ticket, this`handing, this`pendingRead
      ensures Model() == HandOff(old(Model())) && body == buffered
    {
      ticket, handing, pendingRead := false, true, true;
      body := buffered;
    }

    method ReadPending() returns (atEnd: bool, fire: bool)
      modifies this`ready, this`handing, this`parts, this`buffered, this`waker, this`fired
      ensures Model() == ReadPart(old(Model())) && atEnd == eof && fire == old(waker)
    {
      atEnd := eof;
      ResetBuffer();
      hide Model;
      fire := TakeWaker();
    }

    method ResetBuffer()
      modifies this`ready, this`handing, this`parts, this`buffered
      ensures var w := old(Model());
              Model() == w.(ready := false, handing := false, parts := w.parts + [w.buffered], buffered := [])
    {
      ready, handing, parts, buffered := false, false, parts + [buffered], [];
    }

    /** The meta request finishes; an outstanding reservation keeps the waker. */
    method FinishWrites() returns (fire: bool)
      modifies this
      ensures Model() == Finish(old(Model())) && fire == (old(waker) && !future)
    {
      closed, finished, fire := true, true, false;
      if !future {
        fire := TakeWaker();
      }
    }
  }
}
