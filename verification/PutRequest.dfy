/** The auto-ranged PUT as it is updated in place, each method proved against its step function. */
module PutRequest {
  import opened AutoRangedPut

  class UploadRequest {
    const config: Config
    var list: Listing
    var create: Exchange
    var uploadId: bool
    var parts: seq<Status>
    var slots: seq<Slot>
    var completed: nat
    var atEnd: bool
    var complete: Exchange
    var completeOk: bool
    var abort: Exchange
    var result: Result
    var finished: bool

    function Model(): Upload
      reads this
    {
      Upload(list, create, uploadId, parts, slots, completed, atEnd, complete, completeOk, abort, result, finished)
    }

    constructor (config: Config)
      ensures this.config == config && Model() == Start(config)
    {
      this.config := config;
      list := Listing(!config.resuming, false, !config.resuming);
      create, uploadId := Exchange(config.resuming, config.resuming), config.resuming;
      parts, slots, completed, atEnd := [], [], 0, false;
      complete, completeOk, abort := Exchange(false, false), false, Exchange(false, false);
      result, finished := Open, false;
    }

    method Fail(why: Failure)
      modifies this`result
      ensures result == SetFail(old(Model()), why).result
    {
      if result.Open? {
        result := Failed(why);
      }
    }

    method Succeed()
      modifies this`result
      ensures result == SetSuccess(old(Model())).result
    {
      if result.Open? {
        result := Success;
      }
    }

    /** The next part. Only an upload of known length looks for one that the previous attempt uploaded. */
    method HandOutPart() returns (part: nat)
      modifies this`parts
      ensures Model() == HandOut(config, old(Model())) && part == old(|parts|) + 1
    {
      part := |parts| + 1;
      var previous := false;
      if config.known && part - 1 < |slots| {
        previous := slots[part - 1].Info?;
      }
      parts := parts + [Preparing(previous)];
    }

    method SendListParts()
      modifies this`list
      ensures Model() == old(Model()).(list := old(list).(
                           started := true, continues := if old(list).started then false else old(list).continues))
    {
      if list.started {
        list := list.(continues := false);
      } else {
        list := list.(started := true);
      }
    }

    method FinishUpload(eventsOut: bool)
      modifies this`result, this`finished
      ensures Model() == if eventsOut then old(Model()) else SetSuccess(old(Model())).(finished := true)
    {
      if !eventsOut {
        Succeed();
        finished := true;
      }
    }

    method SendCreate()
      modifies this`create
      ensures Model() == old(Model()).(create := old(create).(sent := true))
    {
      create := create.(sent := true);
    }

    method SendComplete()
      modifies this`complete
      ensures Model() == old(Model()).(complete := old(complete).(sent := true))
    {
      complete := complete.(sent := true);
    }

    method SendAbort()
      modifies this`abort
      ensures Model() == old(Model()).(abort := old(abort).(sent := true))
    {
      abort := abort.(sent := true);
    }

    /** Are all parts handed out and finished? Counted against the length, or the stream. */
    method PartsDone() returns (r: bool)
      ensures r == AllPartsDone(config, Model())
    {
      if config.known {
        r := completed == config.total;
      } else {
        r := atEnd && completed == |parts|;
      }
    }

    /** The update while no finish result is set, up to the parts. `go` says that all of that is behind. */
    method PrepareUpload(skip: bool) returns (sent: Outcome, go: bool)
      requires result.Open?
      modifies this`list, this`create, this`parts
      ensures !go ==> sent == Decide(config, old(Model()), skip) && !sent.Finish? && !sent.Complete? && !sent.Abort?
      ensures !go ==> Model() == Update(config, old(Model()), skip, false)
      ensures go ==> Model() == old(Model()) && list.started && !list.continues && list.done
      ensures go ==> create.sent && create.done && !MoreParts(config, Model())
    {
      hide HandOut, SetSuccess;
      sent, go := Wait, false;
      if !list.started || list.continues {
        SendListParts();
        sent := List;
      } else if !list.done {
        // waiting for ListParts
      } else if !create.sent {
        SendCreate();
        sent := Create;
      } else if !create.done {
        // waiting for CreateMultipartUpload
      } else if (config.known && |parts| < config.total) || (!config.known && !atEnd) {
        if !skip {
          var part := HandOutPart();
          sent := Part;
        }
      } else {
        go := true;
      }
    }

    /** The update once every part is handed out: the complete request, once the parts are finished. */
    method CompleteUpload(eventsOut: bool) returns (sent: Outcome)
      requires result.Open? && list.started && !list.continues && list.done && create.sent && create.done
      requires !MoreParts(config, Model())
      modifies this`complete, this`result, this`finished
      ensures sent == Decide(config, old(Model()), false)
      ensures Model() == Update(config, old(Model()), false, eventsOut)
    {
      hide SetSuccess;
      sent := Wait;
      var done := PartsDone();
      if done {
        if !complete.sent {
          SendComplete();
          sent := Complete;
        } else if complete.done {
          FinishUpload(eventsOut);
          sent := Finish;
        }
      }
    }

    /** The update once a finish result is set: what is in flight winds down, then the upload may be aborted. */
    method WindDown(eventsOut: bool) returns (sent: Outcome)
      requires !result.Open?
      modifies this`abort, this`result, this`finished
      ensures sent == Decide(config, old(Model()), false)
      ensures Model() == Update(config, old(Model()), false, eventsOut)
    {
      hide SetSuccess;
      sent := Wait;
      if create.sent {
        if !create.done || completed < |parts| || (complete.sent && !complete.done) {
          return;
        }
        var keep := result == Failed(Paused) || result == Failed(ResumeFailed) || (complete.done && completeOk);
        if !keep {
          if abort.sent && !abort.done {
            return;
          }
          if !abort.sent && uploadId && !result.Success? {
            SendAbort();
            return Abort;
          }
        }
      }
      FinishUpload(eventsOut);
      sent := Finish;
    }

    /** `s_s3_auto_ranged_put_update`: which request is sent, if any. */
    method UpdateUpload(skip: bool, eventsOut: bool) returns (sent: Outcome)
      modifies this`list, this`create, this`parts, this`complete, this`abort, this`result, this`finished
      ensures sent == Decide(config, old(Model()), skip)
      ensures Model() == Update(config, old(Model()), skip, eventsOut)
    {
      hide HandOut, SetSuccess;
      if result.Open? {
        var go;
        sent, go := PrepareUpload(skip);
        if go {
          sent := CompleteUpload(eventsOut);
        }
      } else {
        sent := WindDown(eventsOut);
      }
    }

    /** Lengthen the part list with empty slots until it holds index `i`. */
    method Grow(i: nat)
      modifies this`slots
      ensures slots == Grown(old(slots), i)
    {
      while |slots| <= i
        invariant Grown(slots, i) == Grown(old(slots), i)
        decreases i + 1 - |slots|
      {
        slots := slots + [NoInfo];
      }
    }

    method SetSlot(i: nat, s: Slot)
      modifies this`slots
      ensures slots == Grown(old(slots), i)[i := s]
    {
      Grow(i);
      slots := slots[i := s];
    }

    /** `s_s3_new_upload_part_info_after_body`. */
    method ReadPart(i: nat, empty: bool, end: bool)
      requires i < |parts| && parts[i].Preparing?
      modifies this`atEnd, this`parts, this`slots
      ensures Model() == PartRead(old(Model()), i, empty, end)
    {
      hide Grown;
      var sending := ToSend;
      if parts[i].previous {
        sending := SentBefore;
      } else if empty {
        sending := NothingLeft;
      }
      atEnd := end;
      parts := parts[i := Prepared(sending)];
      if sending.ToSend? {
        SetSlot(i, Info(false, false));
      }
    }

    method FailPrepare(i: nat, why: Failure)
      requires i < |parts| && !parts[i].Done?
      modifies this`parts, this`completed, this`result
      ensures Model() == PrepareFailed(old(Model()), i, why)
    {
      Fail(why);
      parts := parts[i := Done(NotPrepared)];
      completed := completed + 1;
    }

    method StoreEtag(i: nat)
      modifies this`slots
      ensures slots == if i < old(|slots|) && old(slots)[i].Info? then old(slots)[i := old(slots)[i].(etag := true)]
                       else old(slots)
    {
      if i < |slots| && slots[i].Info? {
        slots := slots[i := slots[i].(etag := true)];
      }
    }

    method FinishPart(i: nat, ok: bool)
      requires i < |parts| && parts[i].Prepared?
      modifies this`parts, this`completed, this`slots, this`result
      ensures Model() == PartFinished(old(Model()), i, ok)
    {
      var sending := parts[i].sending;
      completed, parts := completed + 1, parts[i := Done(sending)];
      if sending.ToSend? {
        if ok {
          StoreEtag(i);
        } else {
          Fail(OtherFailure);
        }
      }
    }

    /** `s_process_part_info_synced` for every part of a ListParts response. */
    method RecordListed(numbers: seq<nat>)
      requires forall k :: 0 <= k < |numbers| ==> numbers[k] >= 1
      modifies this`slots
      ensures slots == Listed(old(slots), numbers)
    {
      hide Grown;
      var k := 0;
      while k < |numbers|
        invariant k <= |numbers|
        invariant Listed(slots, numbers[k..]) == Listed(old(slots), numbers)
      {
        assert numbers[k..][1..] == numbers[k + 1..];
        SetSlot(numbers[k] - 1, Info(true, true));
        k := k + 1;
      }
    }

    method FinishList(numbers: seq<nat>, more: bool, error: bool, nothingToResume: bool)
      requires forall k :: 0 <= k < |numbers| ==> numbers[k] >= 1
      modifies this`slots, this`list, this`result
      ensures Model() == ListFinished(old(Model()), numbers, more, error, nothingToResume)
    {
      hide Listed;
      RecordListed(numbers);
      list := list.(continues := more && !error, done := !more || error);
      if error {
        if nothingToResume {
          Succeed();
        } else {
          Fail(OtherFailure);
        }
      }
    }

    method FinishCreate(ok: bool)
      modifies this`create, this`uploadId, this`result
      ensures Model() == CreateFinished(old(Model()), ok)
    {
      create, uploadId := create.(done := true), ok;
      if !ok {
        Fail(OtherFailure);
      }
    }

    method FinishComplete(ok: bool)
      modifies this`complete, this`completeOk, this`result
      ensures Model() == CompleteFinished(old(Model()), ok)
    {
      complete, completeOk := complete.(done := true), ok;
      if !ok {
        Fail(OtherFailure);
      }
    }

    method FinishAbort()
      modifies this`abort
      ensures Model() == AbortFinished(old(Model()))
    {
      abort := abort.(done := true);
    }
  }
}
