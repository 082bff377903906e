/** The auto-ranged PUT: resuming, creating the multipart upload, handing out parts, completing or aborting. */
module AutoRangedPut {

  /** An upload of known length has `total` parts; one of unknown length ends with its body stream. */
  datatype Config = Config(known: bool, total: nat, resuming: bool)

  /** An entry of the part list. */
  datatype Slot = NoInfo | Info(etag: bool, previous: bool)

  /** Whether a part is sent: not if the previous attempt uploaded it, nor if the stream had no bytes left for it,
      nor if preparing it failed. Those are no-ops. */
  datatype Sending = ToSend | SentBefore | NothingLeft | NotPrepared

  /** A part handed out: being read and prepared, prepared, or finished. */
  datatype Status = Preparing(previous: bool) | Prepared(sending: Sending) | Done(sending: Sending)

  datatype Failure = Paused | ResumeFailed | OtherFailure

  /** The finish result, set once. */
  datatype Result = Open | Success | Failed(why: Failure)

  datatype Listing = Listing(started: bool, continues: bool, done: bool)

  /** A request that is sent once. */
  datatype Exchange = Exchange(sent: bool, done: bool)

  datatype Upload = Upload(
    list: Listing,             // list_parts_state
    create: Exchange, uploadId: bool,
    parts: seq<Status>,        // parts 1.., in the order they are handed out; next_part_number is |parts| + 1
    slots: seq<Slot>,          // part_list
    completed: nat,            // num_parts_completed
    atEnd: bool,               // is_body_stream_at_end
    complete: Exchange, completeOk: bool,
    abort: Exchange,
    result: Result,
    finished: bool)

  function Start(c: Config): Upload {
    Upload(Listing(!c.resuming, false, !c.resuming), Exchange(c.resuming, c.resuming), c.resuming, [], [], 0, false,
           Exchange(false, false), false, Exchange(false, false), Open, false)
  }

  function SetFail(u: Upload, why: Failure): Upload {
    if u.result.Open? then u.(result := Failed(why)) else u
  }

  function SetSuccess(u: Upload): Upload {
    if u.result.Open? then u.(result := Success) else u
  }

  // ----- update -----

  /** Are there parts left to hand out? */
  predicate MoreParts(c: Config, u: Upload) {
    if c.known then |u.parts| < c.total else !u.atEnd
  }

  predicate AllPartsDone(c: Config, u: Upload) {
    if c.known then u.completed == c.total else u.atEnd && u.completed == |u.parts|
  }

  function SlotOf(slots: seq<Slot>, i: nat): Slot {
    if i < |slots| then slots[i] else NoInfo
  }

  /** The next part; one that the previous attempt uploaded is read again but not sent. */
  function HandOut(c: Config, u: Upload): Upload {
    u.(parts := u.parts + [Preparing(c.known && SlotOf(u.slots, |u.parts|).Info?)])
  }

  datatype Outcome = Wait | List | Create | Part | Complete | Abort | Finish

  /** What an update decides while no finish result is set. `skip` says that reads are throttled. */
  function DecideOpen(c: Config, u: Upload, skip: bool): Outcome {
    if !u.list.started || u.list.continues then List
    else if !u.list.done then Wait
    else if !u.create.sent then Create
    else if !u.create.done then Wait
    else if MoreParts(c, u) then (if skip then Wait else Part)
    else if !AllPartsDone(c, u) then Wait
    else if !u.complete.sent then Complete
    else if !u.complete.done then Wait
    else Finish
  }

  /** What an update decides once a finish result is set. */
  function DecideClosed(u: Upload): Outcome
    requires !u.result.Open?
  {
    if !u.create.sent then Finish
    else if !u.create.done then Wait
    else if u.completed < |u.parts| then Wait
    else if u.complete.sent && !u.complete.done then Wait
    else if u.result == Failed(Paused) || u.result == Failed(ResumeFailed) then Finish
    else if u.complete.done && u.completeOk then Finish
    else if !u.abort.sent then (if !u.uploadId || u.result.Success? then Finish else Abort)
    else if !u.abort.done then Wait
    else Finish
  }

  function Decide(c: Config, u: Upload, skip: bool): Outcome {
    if u.result.Open? then DecideOpen(c, u, skip) else DecideClosed(u)
  }

  /** `s_s3_auto_ranged_put_update`; `eventsOut` says that events are still being delivered. */
  function Update(c: Config, u: Upload, skip: bool, eventsOut: bool): Upload {
    match Decide(c, u, skip)
    case Wait => u
    case List => u.(list := u.list.(started := true, continues := if u.list.started then false else u.list.continues))
    case Create => u.(create := u.create.(sent := true))
    case Part => HandOut(c, u)
    case Complete => u.(complete := u.complete.(sent := true))
    case Abort => u.(abort := u.abort.(sent := true))
    case Finish => if eventsOut then u else SetSuccess(u).(finished := true)
  }

  // ----- preparing -----

  /** The list long enough to hold index `i`, with empty slots in between. */
  function Grown(slots: seq<Slot>, i: nat): (r: seq<Slot>)
    ensures |r| >= |slots| && |r| > i && forall k :: 0 <= k ==> SlotOf(r, k) == SlotOf(slots, k)
    decreases i + 1 - |slots|
  {
    if |slots| > i then slots else Grown(slots + [NoInfo], i)
  }

  /** `s_s3_new_upload_part_info_after_body`: part `i` has been read. `empty` says the stream had no bytes
      left for it. */
  function PartRead(u: Upload, i: nat, empty: bool, atEnd: bool): Upload
    requires i < |u.parts| && u.parts[i].Preparing?
  {
    var sending := Reading(u.parts[i].previous, empty);
    u.(atEnd := atEnd, parts := u.parts[i := Prepared(sending)],
       slots := if sending.ToSend? then Grown(u.slots, i)[i := Info(false, false)] else u.slots)
  }

  function Reading(previous: bool, empty: bool): Sending {
    if previous then SentBefore else if empty then NothingLeft else ToSend
  }

  /** Preparing part `i` failed; the finish result is set before the request is finished. */
  function PrepareFailed(u: Upload, i: nat, why: Failure): Upload
    requires i < |u.parts| && !u.parts[i].Done?
  {
    SetFail(u, why).(parts := u.parts[i := Done(NotPrepared)], completed := u.completed + 1)
  }

  // ----- request finished -----

  /** A prepared part finishes. `ok` means it succeeded and its response had an etag. */
  function PartFinished(u: Upload, i: nat, ok: bool): Upload
    requires i < |u.parts| && u.parts[i].Prepared?
  {
    var sending := u.parts[i].sending;
    var v := u.(parts := u.parts[i := Done(sending)], completed := u.completed + 1);
    if !sending.ToSend? then v
    else if !ok then SetFail(v, OtherFailure)
    else v.(slots := if i < |v.slots| && v.slots[i].Info? then v.slots[i := v.slots[i].(etag := true)] else v.slots)
  }

  /** The parts a ListParts response reports are put in their slots. */
  function Listed(slots: seq<Slot>, numbers: seq<nat>): seq<Slot>
    requires forall k :: 0 <= k < |numbers| ==> numbers[k] >= 1
    decreases |numbers|
  {
    if numbers == [] then slots
    else
      var i := numbers[0] - 1;
      Listed(Grown(slots, i)[i := Info(true, true)], numbers[1..])
  }

  /** ListParts finishes; `nothingToResume` is a 404 for an upload whose parts had all been completed. */
  function ListFinished(u: Upload, numbers: seq<nat>, more: bool, error: bool, nothingToResume: bool): Upload
    requires forall k :: 0 <= k < |numbers| ==> numbers[k] >= 1
  {
    var v := u.(slots := Listed(u.slots, numbers),
                list := u.list.(continues := more && !error, done := !more || error));
    if !error then v else if nothingToResume then SetSuccess(v) else SetFail(v, OtherFailure)
  }

  function CreateFinished(u: Upload, ok: bool): Upload {
    var v := u.(create := u.create.(done := true), uploadId := ok);
    if ok then v else SetFail(v, OtherFailure)
  }

  function CompleteFinished(u: Upload, ok: bool): Upload {
    var v := u.(complete := u.complete.(done := true), completeOk := ok);
    if ok then v else SetFail(v, OtherFailure)
  }

  function AbortFinished(u: Upload): Upload {
    u.(abort := u.abort.(done := true))
  }
}
