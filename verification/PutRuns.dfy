/** Every run of an upload: updates, reads, request completions, cancellation and pausing in any order. */
module PutRuns {
  import opened AutoRangedPut

  // ----- The invariant -----

  function DoneCount(parts: seq<Status>): nat {
    if parts == [] then 0 else DoneCount(parts[..|parts| - 1]) + if parts[|parts| - 1].Done? then 1 else 0
  }

  lemma {:induction false} DoneCountUpdate(parts: seq<Status>, i: nat, s: Status)
    requires i < |parts|
    ensures DoneCount(parts[i := s]) + (if parts[i].Done? then 1 else 0) == DoneCount(parts) + if s.Done? then 1 else 0
  {
    var front := parts[..|parts| - 1];
    if i < |parts| - 1 {
      DoneCountUpdate(front, i, s);
      assert parts[i := s][..|parts| - 1] == front[i := s];
    } else {
      assert parts[i := s][..|parts| - 1] == front;
    }
  }

  lemma DoneCountAppend(parts: seq<Status>, s: Status)
    ensures DoneCount(parts + [s]) == DoneCount(parts) + if s.Done? then 1 else 0
  {
    assert (parts + [s])[..|parts|] == parts;
  }

  lemma {:induction false} AllDoneByCount(parts: seq<Status>)
    ensures DoneCount(parts) <= |parts|
    ensures DoneCount(parts) == |parts| <==> AllDone(parts)
  {
    if parts != [] {
      var front := parts[..|parts| - 1];
      AllDoneByCount(front);
      if AllDone(parts) {
        assert AllDone(front);
      }
      if AllDone(front) && parts[|parts| - 1].Done? {
        assert forall i :: 0 <= i < |parts| ==> i < |front| ==> parts[i] == front[i];
      }
    }
  }

  predicate AllDone(parts: seq<Status>) {
    forall i :: 0 <= i < |parts| ==> parts[i].Done?
  }

  predicate Etagged(slots: seq<Slot>, i: nat) {
    SlotOf(slots, i).Info? && SlotOf(slots, i).etag
  }

  /** Why a part that nothing has failed for is not sent. Only a body of unknown length runs out, and not before its
      second part. */
  predicate NoUploadOk(c: Config, slots: seq<Slot>, sending: Sending, i: nat) {
    match sending
    case ToSend => true
    case SentBefore => Etagged(slots, i)
    case NothingLeft => !c.known && i > 0
    case NotPrepared => false
  }

  /** What a part's slot holds, as long as nothing has failed. */
  predicate PartOk(c: Config, slots: seq<Slot>, s: Status, i: nat) {
    match s
    case Preparing(previous) => previous ==> Etagged(slots, i)
    case Prepared(sending) => NoUploadOk(c, slots, sending, i) && (sending.ToSend? ==> SlotOf(slots, i).Info?)
    case Done(sending) => NoUploadOk(c, slots, sending, i) && (sending.ToSend? ==> Etagged(slots, i))
  }

  predicate PartsOk(c: Config, parts: seq<Status>, slots: seq<Slot>) {
    forall i :: 0 <= i < |parts| ==> PartOk(c, slots, parts[i], i)
  }

  /** Before a part is handed out only ListParts has filled its slot, and it fills it with an etag. */
  predicate SlotsFresh(slots: seq<Slot>, from: nat) {
    forall i :: from <= i < |slots| && slots[i].Info? ==> slots[i].etag && slots[i].previous
  }

  /** The slot of a part that is being read again was filled by ListParts; that of a part being sent is its own and has
      no etag. */
  predicate SlotHeld(slots: seq<Slot>, s: Status, i: nat) {
    && (s == Preparing(true) ==> SlotOf(slots, i).Info? && SlotOf(slots, i).previous)
    && (s == Prepared(ToSend) ==> SlotOf(slots, i) == Info(false, false))
  }

  /** Holds whether or not anything has failed. */
  predicate Stored(parts: seq<Status>, slots: seq<Slot>) {
    (forall i :: 0 <= i < |parts| ==> SlotHeld(slots, parts[i], i)) && SlotsFresh(slots, |parts|)
  }

  /** The flags imply one another in the order the requests are sent. */
  predicate Flags(u: Upload) {
    && (u.create.done ==> u.create.sent) && (u.complete.done ==> u.complete.sent) && (u.abort.done ==> u.abort.sent)
    && (u.list.done ==> u.list.started && !u.list.continues) && (u.list.continues ==> u.list.started)
    && (u.parts != [] || u.complete.sent || u.abort.sent ==> u.create.done)
    && (u.parts != [] || u.complete.sent ==> u.list.done)
    && (u.atEnd ==> u.parts != []) && (u.completeOk ==> u.complete.done)
    && (u.uploadId ==> u.create.done) && (u.create.done && u.result.Open? ==> u.uploadId)
  }

  predicate Counts(c: Config, u: Upload) {
    && u.completed == DoneCount(u.parts) && (c.known ==> |u.parts| <= c.total)
  }

  /** Nothing has failed: every part is on its way to an etag. */
  predicate Healthy(c: Config, parts: seq<Status>, slots: seq<Slot>) {
    PartsOk(c, parts, slots)
  }

  /** Once the complete request is out, every part of the upload has been handed out and finished. */
  predicate Completing(c: Config, u: Upload) {
    u.complete.sent ==> AllDone(u.parts) && (if c.known then |u.parts| == c.total else u.atEnd)
  }

  predicate Aborting(u: Upload) {
    u.abort.sent ==>
      && u.result == Failed(OtherFailure) && u.uploadId && AllDone(u.parts)
      && (u.complete.sent ==> u.complete.done && !u.completeOk)
  }

  predicate Ending(c: Config, u: Upload) {
    && (u.result.Success? ==> (u.complete.done && u.completeOk) || (c.resuming && u.parts == [] && !u.complete.sent))
    && (u.complete.done && !u.completeOk ==> !u.result.Open?)
    && (u.finished ==> !u.result.Open? && NothingInFlight(u) && CleanedUp(u))
  }

  /** An upload that has an id and failed, other than by pausing or in resuming, was aborted, unless its complete
      request succeeded after all. */
  predicate CleanedUp(u: Upload) {
    u.uploadId && u.result == Failed(OtherFailure) ==> u.abort.done || (u.complete.done && u.completeOk)
  }

  /** No create, part, complete or abort request is out. */
  predicate NothingInFlight(u: Upload) {
    && (u.create.sent ==> u.create.done) && AllDone(u.parts)
    && (u.complete.sent ==> u.complete.done) && (u.abort.sent ==> u.abort.done)
  }

  predicate Inv(c: Config, u: Upload) {
    && Flags(u) && Counts(c, u) && Stored(u.parts, u.slots) && (u.result.Open? ==> Healthy(c, u.parts, u.slots))
    && Completing(c, u) && Aborting(u) && Ending(c, u) && (!u.list.done ==> c.resuming)
  }

  lemma StartInv(c: Config)
    ensures Inv(c, Start(c))
  {
  }

  // ----- update -----

  lemma HandOutInv(c: Config, u: Upload)
    requires Inv(c, u) && !u.finished && u.result.Open? && u.list.done && u.create.done && MoreParts(c, u)
    ensures Inv(c, HandOut(c, u))
  {
    hide DoneCount, Stored, Healthy;
    DoneCountAppend(u.parts, Preparing(c.known && SlotOf(u.slots, |u.parts|).Info?));
    HandOutSlots(c, u.parts, u.slots);
  }

  lemma HandOutSlots(c: Config, parts: seq<Status>, slots: seq<Slot>)
    requires Stored(parts, slots) && Healthy(c, parts, slots)
    ensures var after := parts + [Preparing(c.known && SlotOf(slots, |parts|).Info?)];
            Stored(after, slots) && Healthy(c, after, slots)
  {
    var after := parts + [Preparing(c.known && SlotOf(slots, |parts|).Info?)];
    forall i | 0 <= i < |after| ensures SlotHeld(slots, after[i], i) && PartOk(c, slots, after[i], i) {
      if i < |parts| {
        assert after[i] == parts[i] && SlotHeld(slots, parts[i], i) && PartOk(c, slots, parts[i], i);
      }
    }
  }

  lemma SendCompleteInv(c: Config, u: Upload)
    requires Inv(c, u) && !u.finished && u.result.Open? && DecideOpen(c, u, false).Complete?
    ensures Inv(c, u.(complete := u.complete.(sent := true))) && AllDone(u.parts)
  {
    AllDoneByCount(u.parts);
    hide Healthy, DoneCount;
  }

  lemma OnlyOther(r: Result)
    requires r.Failed? && r != Failed(Paused) && r != Failed(ResumeFailed)
    ensures r == Failed(OtherFailure)
  {
    assert r.why.Paused? || r.why.ResumeFailed? || r.why.OtherFailure?;
  }

  lemma SendAbortInv(c: Config, u: Upload)
    requires Inv(c, u) && !u.finished && !u.result.Open? && DecideClosed(u).Abort?
    ensures Inv(c, u.(abort := u.abort.(sent := true))) && AllDone(u.parts) && u.result == Failed(OtherFailure)
  {
    OnlyOther(u.result);
    AllDoneByCount(u.parts);
    hide Healthy, DoneCount;
  }

  lemma FinishInv(c: Config, u: Upload)
    requires Inv(c, u) && !u.finished && Decide(c, u, false).Finish?
    ensures Inv(c, SetSuccess(u).(finished := true))
  {
    AllDoneByCount(u.parts);
    hide Healthy, DoneCount;
  }

  lemma UpdateInv(c: Config, u: Upload, skip: bool, eventsOut: bool)
    requires Inv(c, u) && !u.finished
    ensures Inv(c, Update(c, u, skip, eventsOut))
  {
    hide Healthy, DoneCount;
    match Decide(c, u, skip)
    case Part => HandOutInv(c, u);
    case Complete => SendCompleteInv(c, u);
    case Abort => SendAbortInv(c, u);
    case Finish => FinishInv(c, u);
    case _ =>
  }

  // ----- Parts -----

  lemma PartReadInv(c: Config, u: Upload, i: nat, empty: bool, atEnd: bool)
    requires Inv(c, u) && !u.finished && i < |u.parts| && u.parts[i].Preparing? && (empty ==> !c.known && i > 0)
    ensures Inv(c, PartRead(u, i, empty, atEnd))
  {
    DoneCountUpdate(u.parts, i, Prepared(Reading(u.parts[i].previous, empty)));
    if u.result.Open? {
      PartReadHealthy(c, u, i, empty, atEnd);
    }
    PartReadStored(u, i, empty, atEnd);
    hide Healthy, DoneCount, Stored, Grown;
    assert u.complete.sent ==> false;
    assert u.abort.sent ==> false;
  }

  lemma PartReadHealthy(c: Config, u: Upload, i: nat, empty: bool, atEnd: bool)
    requires Healthy(c, u.parts, u.slots) && i < |u.parts| && u.parts[i].Preparing? && (empty ==> !c.known && i > 0)
    ensures Healthy(c, PartRead(u, i, empty, atEnd).parts, PartRead(u, i, empty, atEnd).slots)
  {
    var v := PartRead(u, i, empty, atEnd);
    assert PartOk(c, u.slots, u.parts[i], i);
    assert forall k :: 0 <= k && k != i ==> SlotOf(v.slots, k) == SlotOf(u.slots, k);
    forall k | 0 <= k < |v.parts| ensures PartOk(c, v.slots, v.parts[k], k) {
      if k != i {
        assert PartOk(c, u.slots, u.parts[k], k);
      }
    }
  }

  lemma PartReadStored(u: Upload, i: nat, empty: bool, atEnd: bool)
    requires Stored(u.parts, u.slots) && i < |u.parts| && u.parts[i].Preparing?
    ensures Stored(PartRead(u, i, empty, atEnd).parts, PartRead(u, i, empty, atEnd).slots)
  {
    var v := PartRead(u, i, empty, atEnd);
    assert SlotHeld(u.slots, u.parts[i], i);
    assert forall k :: 0 <= k && k != i ==> SlotOf(v.slots, k) == SlotOf(u.slots, k);
    forall k | 0 <= k < |v.parts| ensures SlotHeld(v.slots, v.parts[k], k) {
      if k != i {
        assert SlotHeld(u.slots, u.parts[k], k);
      }
    }
    forall k | |v.parts| <= k < |v.slots| && v.slots[k].Info? ensures v.slots[k].etag && v.slots[k].previous {
      assert SlotOf(v.slots, k) == SlotOf(u.slots, k);
    }
  }

  lemma PartFinishedInv(c: Config, u: Upload, i: nat, ok: bool)
    requires Inv(c, u) && !u.finished && i < |u.parts| && u.parts[i].Prepared?
    requires !u.parts[i].sending.ToSend? && !ok ==> !u.result.Open?
    ensures Inv(c, PartFinished(u, i, ok))
  {
    DoneCountUpdate(u.parts, i, Done(u.parts[i].sending));
    if u.result.Open? && (ok || !u.parts[i].sending.ToSend?) {
      PartFinishedHealthy(c, u, i);
    }
    PartFinishedStored(u, i, ok);
    hide Healthy, DoneCount, Stored;
    assert u.complete.sent ==> false;
    assert u.abort.sent ==> false;
  }

  lemma PartFinishedHealthy(c: Config, u: Upload, i: nat)
    requires Healthy(c, u.parts, u.slots) && i < |u.parts| && u.parts[i].Prepared?
    ensures Healthy(c, PartFinished(u, i, true).parts, PartFinished(u, i, true).slots)
  {
    var v := PartFinished(u, i, true);
    assert PartOk(c, u.slots, u.parts[i], i);
    assert forall k :: 0 <= k && k != i ==> SlotOf(v.slots, k) == SlotOf(u.slots, k);
    forall k | 0 <= k < |v.parts| ensures PartOk(c, v.slots, v.parts[k], k) {
      if k != i {
        assert PartOk(c, u.slots, u.parts[k], k);
      }
    }
  }

  lemma PartFinishedStored(u: Upload, i: nat, ok: bool)
    requires Stored(u.parts, u.slots) && i < |u.parts| && u.parts[i].Prepared?
    ensures Stored(PartFinished(u, i, ok).parts, PartFinished(u, i, ok).slots)
  {
    var v := PartFinished(u, i, ok);
    assert forall k :: 0 <= k && k != i ==> SlotOf(v.slots, k) == SlotOf(u.slots, k);
    forall k | 0 <= k < |v.parts| ensures SlotHeld(v.slots, v.parts[k], k) {
      if k != i {
        assert SlotHeld(u.slots, u.parts[k], k);
      }
    }
  }

  lemma PrepareFailedInv(c: Config, u: Upload, i: nat, why: Failure)
    requires Inv(c, u) && !u.finished && i < |u.parts| && !u.parts[i].Done?
    ensures Inv(c, PrepareFailed(u, i, why))
  {
    DoneCountUpdate(u.parts, i, Done(NotPrepared));
    hide Healthy, DoneCount;
    assert u.complete.sent ==> false;
    assert u.abort.sent ==> false;
  }

  // ----- The other requests -----

  lemma {:induction false} ListedFresh(slots: seq<Slot>, numbers: seq<nat>)
    requires SlotsFresh(slots, 0) && forall k :: 0 <= k < |numbers| ==> numbers[k] >= 1
    ensures SlotsFresh(Listed(slots, numbers), 0)
    decreases |numbers|
  {
    if numbers != [] {
      var i := numbers[0] - 1;
      var grown := Grown(slots, i);
      forall k | 0 <= k < |grown| && grown[k].Info? ensures grown[k].etag && grown[k].previous {
        assert SlotOf(grown, k) == SlotOf(slots, k);
      }
      ListedFresh(grown[i := Info(true, true)], numbers[1..]);
    }
  }

  lemma ListFinishedInv(c: Config, u: Upload, numbers: seq<nat>, more: bool, error: bool, nothing: bool)
    requires Inv(c, u) && !u.finished && u.list.started && !u.list.done && !u.list.continues && c.resuming
    requires forall k :: 0 <= k < |numbers| ==> numbers[k] >= 1
    ensures Inv(c, ListFinished(u, numbers, more, error, nothing))
  {
    ListedFresh(u.slots, numbers);
  }

  lemma CreateFinishedInv(c: Config, u: Upload, ok: bool)
    requires Inv(c, u) && !u.finished && u.create.sent && !u.create.done
    ensures Inv(c, CreateFinished(u, ok))
  {
  }

  lemma CompleteFinishedInv(c: Config, u: Upload, ok: bool)
    requires Inv(c, u) && !u.finished && u.complete.sent && !u.complete.done
    ensures Inv(c, CompleteFinished(u, ok))
  {
  }

  lemma AbortFinishedInv(c: Config, u: Upload)
    requires Inv(c, u) && !u.finished && u.abort.sent && !u.abort.done
    ensures Inv(c, AbortFinished(u))
  {
  }

  lemma SetFailInv(c: Config, u: Upload, why: Failure)
    requires Inv(c, u) && !u.finished
    ensures Inv(c, SetFail(u, why))
  {
  }

  // ----- Runs -----

  datatype Action =
    | DoUpdate(skip: bool, eventsOut: bool)
    | EndRead(part: nat, empty: bool, atEnd: bool)
    | FailPrepare(part: nat, why: Failure)
    | EndPart(part: nat, ok: bool)
    | EndList(numbers: seq<nat>, more: bool, error: bool, nothingToResume: bool)
    | EndCreate(ok: bool)
    | EndComplete(ok: bool)
    | EndAbort
    | Stop(why: Failure)

  /** What can happen: a request finishes only while it is out, a part past the end of the stream is empty only
      when the length is unknown, and a no-op fails only when the upload has already stopped. */
  predicate Enabled(c: Config, u: Upload, a: Action) {
    && !u.finished
    && match a
       case DoUpdate(_, _) => true
       case EndRead(i, empty, _) => i < |u.parts| && u.parts[i].Preparing? && (empty ==> !c.known && i > 0)
       case FailPrepare(i, _) => i < |u.parts| && !u.parts[i].Done?
       case EndPart(i, ok) =>
         i < |u.parts| && u.parts[i].Prepared? && (!u.parts[i].sending.ToSend? && !ok ==> !u.result.Open?)
       case EndList(numbers, _, _, _) =>
         u.list.started && !u.list.done && !u.list.continues && c.resuming &&
         forall k :: 0 <= k < |numbers| ==> numbers[k] >= 1
       case EndCreate(_) => u.create.sent && !u.create.done
       case EndComplete(_) => u.complete.sent && !u.complete.done
       case EndAbort => u.abort.sent && !u.abort.done
       case Stop(_) => true
  }

  function Step(c: Config, u: Upload, a: Action): Upload
    requires Enabled(c, u, a)
  {
    match a
    case DoUpdate(skip, eventsOut) => Update(c, u, skip, eventsOut)
    case EndRead(i, empty, atEnd) => PartRead(u, i, empty, atEnd)
    case FailPrepare(i, why) => PrepareFailed(u, i, why)
    case EndPart(i, ok) => PartFinished(u, i, ok)
    case EndList(numbers, more, error, nothing) => ListFinished(u, numbers, more, error, nothing)
    case EndCreate(ok) => CreateFinished(u, ok)
    case EndComplete(ok) => CompleteFinished(u, ok)
    case EndAbort => AbortFinished(u)
    case Stop(why) => SetFail(u, why)
  }

  lemma StepInv(c: Config, u: Upload, a: Action)
    requires Inv(c, u) && Enabled(c, u, a)
    ensures Inv(c, Step(c, u, a))
  {
    hide Inv;
    match a
    case DoUpdate(skip, eventsOut) => UpdateInv(c, u, skip, eventsOut);
    case EndRead(i, empty, atEnd) => PartReadInv(c, u, i, empty, atEnd);
    case FailPrepare(i, why) => PrepareFailedInv(c, u, i, why);
    case EndPart(i, ok) => PartFinishedInv(c, u, i, ok);
    case EndList(numbers, more, error, nothing) => ListFinishedInv(c, u, numbers, more, error, nothing);
    case EndCreate(ok) => CreateFinishedInv(c, u, ok);
    case EndComplete(ok) => CompleteFinishedInv(c, u, ok);
    case EndAbort => AbortFinishedInv(c, u);
    case Stop(why) => SetFailInv(c, u, why);
  }

  predicate IsRun(c: Config, u: Upload, actions: seq<Action>)
    decreases |actions|
  {
    actions == [] || (Enabled(c, u, actions[0]) && IsRun(c, Step(c, u, actions[0]), actions[1..]))
  }

  function After(c: Config, u: Upload, actions: seq<Action>): Upload
    requires IsRun(c, u, actions)
    decreases |actions|
  {
    if actions == [] then u else After(c, Step(c, u, actions[0]), actions[1..])
  }

  lemma {:induction false} RunInv(c: Config, u: Upload, actions: seq<Action>)
    requires Inv(c, u) && IsRun(c, u, actions)
    ensures Inv(c, After(c, u, actions))
    decreases |actions|
  {
    hide Inv;
    if actions != [] {
      StepInv(c, u, actions[0]);
      RunInv(c, Step(c, u, actions[0]), actions[1..]);
    }
  }

  // ----- The theorems -----

  /** Complete only when complete. The complete request is created only when none was before, every part of an
      upload of known length was handed out and finished, and slots 1..N all hold an etag; with the length
      unknown, when the stream has ended, part 1 has an etag, and so has every other part handed out for which
      the stream had bytes left. */
  lemma CompleteOnlyWhenComplete(c: Config, actions: seq<Action>, skip: bool)
    requires IsRun(c, Start(c), actions)
    ensures var u := After(c, Start(c), actions);
            Decide(c, u, skip).Complete? ==>
              && u.result.Open? && !u.complete.sent && AllDone(u.parts)
              && (if c.known then |u.parts| == c.total else u.atEnd)
              && (forall i :: 0 <= i < |u.parts| ==> Etagged(u.slots, i) || u.parts[i] == Done(NothingLeft))
              && (if c.known then forall i :: 0 <= i < c.total ==> Etagged(u.slots, i) else Etagged(u.slots, 0))
  {
    var u := After(c, Start(c), actions);
    StartInv(c);
    RunInv(c, Start(c), actions);
    AllDoneByCount(u.parts);
    if Decide(c, u, skip).Complete? {
      forall i | 0 <= i < |u.parts|
        ensures Etagged(u.slots, i) || (u.parts[i] == Done(NothingLeft) && !c.known && i > 0)
      {
        assert PartOk(c, u.slots, u.parts[i], i);
      }
    }
  }

  /** What the client asserts of a part's slot holds in every run: a slot found filled when its part is handed out, or
      when the part has been read again, was filled by the previous attempt; and a part that was sent has a slot
      without an etag to store its own in. */
  lemma SlotAssertionsHold(c: Config, actions: seq<Action>, i: nat)
    requires IsRun(c, Start(c), actions)
    ensures var u := After(c, Start(c), actions);
            && (i >= |u.parts| && SlotOf(u.slots, i).Info? ==> SlotOf(u.slots, i).previous)
            && (i < |u.parts| && u.parts[i] == Preparing(true) ==>
                  SlotOf(u.slots, i).Info? && SlotOf(u.slots, i).previous)
            && (i < |u.parts| && u.parts[i] == Prepared(ToSend) ==> SlotOf(u.slots, i) == Info(false, false))
  {
    var u := After(c, Start(c), actions);
    StartInv(c);
    RunInv(c, Start(c), actions);
    if i < |u.parts| {
      assert SlotHeld(u.slots, u.parts[i], i);
    }
  }

  /** Abort safety. An abort is created at most once, only for an upload that has an id and was neither
      paused, resume-failed nor successful, never with a part or complete request in flight, and never after
      a complete that succeeded. */
  lemma AbortOnlyWhenSafe(c: Config, actions: seq<Action>, skip: bool)
    requires IsRun(c, Start(c), actions)
    ensures var u := After(c, Start(c), actions);
            Decide(c, u, skip).Abort? ==>
              && !u.abort.sent && u.uploadId && u.result == Failed(OtherFailure) && AllDone(u.parts)
              && (u.complete.sent ==> u.complete.done && !u.completeOk)
    ensures var u := After(c, Start(c), actions);
            u.abort.sent ==>
              u.result == Failed(OtherFailure) && !(u.complete.done && u.completeOk) && !Decide(c, u, skip).Complete?
  {
    var u := After(c, Start(c), actions);
    StartInv(c);
    RunInv(c, Start(c), actions);
    if Decide(c, u, skip).Abort? {
      OnlyOther(u.result);
      AllDoneByCount(u.parts);
    }
  }

  /** No run finishes with a create, part, complete or abort request in flight. One that succeeds has completed its
      upload, or had nothing left to resume; one that failed other than by pausing or in resuming leaves no upload
      behind: it never got an id, or was aborted, or was completed after all. */
  lemma UploadFinishesCleanly(c: Config, actions: seq<Action>)
    requires IsRun(c, Start(c), actions) && After(c, Start(c), actions).finished
    ensures var u := After(c, Start(c), actions);
            && NothingInFlight(u) && !u.result.Open?
            && (u.result.Success? ==> (u.complete.done && u.completeOk) || (c.resuming && u.parts == []))
            && (u.result == Failed(OtherFailure) && u.uploadId ==>
                  (u.abort.sent && u.abort.done) || (u.complete.done && u.completeOk))
  {
    StartInv(c);
    RunInv(c, Start(c), actions);
  }
}
