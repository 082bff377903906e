/** What an update of an upload decides, in both directions; how an upload ends; and which parts are sent. */
module PutPolicy {
  import opened AutoRangedPut
  import opened PutRuns

  // ----- What an update decides -----

  /** Every part there is to be was handed out, and all are finished. */
  predicate PartsOver(c: Config, u: Upload) {
    AllDone(u.parts) && (if c.known then |u.parts| == c.total else u.atEnd)
  }

  predicate PartsLeft(c: Config, u: Upload) {
    if c.known then |u.parts| < c.total else !u.atEnd
  }

  predicate ListOut(u: Upload) {
    u.list.started && !u.list.done && !u.list.continues
  }

  predicate Out(x: Exchange) {
    x.sent && !x.done
  }

  /** The multipart upload exists and nothing has failed. */
  predicate Uploading(u: Upload) {
    u.result.Open? && u.list.done && u.create.done
  }

  /** After any run: a create request is made exactly when nothing has failed, listing is over and none was made; a
      part is handed out exactly while there are any left and reads are not throttled; a complete request is made
      exactly when every part is over and none was made. */
  lemma SendsExactlyWhenDue(c: Config, actions: seq<Action>, skip: bool)
    requires IsRun(c, Start(c), actions)
    ensures var u := After(c, Start(c), actions);
            var d := Decide(c, u, skip);
            && (d.List? <==> u.result.Open? && !u.list.done && !ListOut(u))
            && (d.Create? <==> u.result.Open? && u.list.done && !u.create.sent)
            && (d.Part? <==> Uploading(u) && PartsLeft(c, u) && !skip)
            && (d.Complete? <==> Uploading(u) && PartsOver(c, u) && !u.complete.sent)
  {
    hide Stored, Healthy, DoneCount, AllDone, CleanedUp;
    var u := After(c, Start(c), actions);
    StartInv(c);
    RunInv(c, Start(c), actions);
    AllDoneByCount(u.parts);
  }

  /** After any run an abort is made exactly when the upload has an id and failed, other than by pausing or in
      resuming, no part or complete request is out, the upload was not completed and no abort was made. */
  lemma AbortsExactlyWhenDue(c: Config, actions: seq<Action>, skip: bool)
    requires IsRun(c, Start(c), actions)
    ensures var u := After(c, Start(c), actions);
            Decide(c, u, skip).Abort? <==>
              && u.uploadId && u.result == Failed(OtherFailure) && AllDone(u.parts)
              && !Out(u.complete) && !(u.complete.done && u.completeOk) && !u.abort.sent
  {
    hide Stored, Healthy, DoneCount, AllDone, CleanedUp;
    var u := After(c, Start(c), actions);
    StartInv(c);
    RunInv(c, Start(c), actions);
    AllDoneByCount(u.parts);
    if u.result.Failed? && u.result != Failed(Paused) && u.result != Failed(ResumeFailed) {
      OnlyOther(u.result);
    }
  }

  /** After any run an update waits only for a request that is out, or because reads are throttled. */
  lemma WaitsForSomething(c: Config, actions: seq<Action>, skip: bool)
    requires IsRun(c, Start(c), actions)
    ensures var u := After(c, Start(c), actions);
            Decide(c, u, skip).Wait? <==>
              if u.result.Open? then
                || ListOut(u)
                || (u.list.done && Out(u.create))
                || (Uploading(u) && (if PartsLeft(c, u) then skip else !AllDone(u.parts) || Out(u.complete)))
              else Out(u.create) || !AllDone(u.parts) || Out(u.complete) || Out(u.abort)
  {
    hide Stored, Healthy, DoneCount, AllDone, CleanedUp;
    var u := After(c, Start(c), actions);
    StartInv(c);
    RunInv(c, Start(c), actions);
    AllDoneByCount(u.parts);
  }

  // ----- Requests and replies -----

  /** How many requests of this kind the updates of a run made. */
  function Sends(c: Config, u: Upload, actions: seq<Action>, kind: Outcome): nat
    requires IsRun(c, u, actions)
    decreases |actions|
  {
    if actions == [] then 0
    else SendsOne(c, u, actions[0], kind) + Sends(c, Step(c, u, actions[0]), actions[1..], kind)
  }

  function SendsOne(c: Config, u: Upload, a: Action, kind: Outcome): nat {
    if a.DoUpdate? && Decide(c, u, a.skip) == kind then 1 else 0
  }

  /** How many replies to requests of this kind came in. */
  function Replies(actions: seq<Action>, kind: Outcome): nat
    decreases |actions|
  {
    if actions == [] then 0 else RepliesOne(actions[0], kind) + Replies(actions[1..], kind)
  }

  function RepliesOne(a: Action, kind: Outcome): nat {
    match a
    case EndList(_, _, _, _) => if kind.List? then 1 else 0
    case EndCreate(_) => if kind.Create? then 1 else 0
    case EndComplete(_) => if kind.Complete? then 1 else 0
    case EndAbort => if kind.Abort? then 1 else 0
    case _ => 0
  }

  function Bit(b: bool): nat {
    if b then 1 else 0
  }

  /** The number of requests of a kind made so far, and of replies, as far as the state tells. */
  function Made(u: Upload, kind: Outcome): nat {
    match kind
    case Create => Bit(u.create.sent)
    case Part => |u.parts|
    case Complete => Bit(u.complete.sent)
    case Abort => Bit(u.abort.sent)
    case _ => 0
  }

  function Answered(u: Upload, kind: Outcome): nat {
    match kind
    case Create => Bit(u.create.done)
    case Complete => Bit(u.complete.done)
    case Abort => Bit(u.abort.done)
    case _ => 0
  }

  predicate Once(kind: Outcome) {
    kind.Create? || kind.Complete? || kind.Abort?
  }

  lemma StepBalance(c: Config, u: Upload, a: Action, kind: Outcome)
    requires Inv(c, u) && Enabled(c, u, a)
    ensures var v := Step(c, u, a);
            && (Once(kind) || kind.Part? ==> Made(v, kind) == Made(u, kind) + SendsOne(c, u, a, kind))
            && (Once(kind) ==> Answered(v, kind) == Answered(u, kind) + RepliesOne(a, kind))
            && Bit(ListOut(u)) + SendsOne(c, u, a, List) == Bit(ListOut(v)) + RepliesOne(a, List)
  {
    hide Inv, Update;
    if a.DoUpdate? {
      UpdateBalance(c, u, a.skip, a.eventsOut, kind);
    } else {
      ReplyBalance(c, u, a, kind);
    }
  }

  lemma UpdateBalance(c: Config, u: Upload, skip: bool, eventsOut: bool, kind: Outcome)
    requires Inv(c, u)
    ensures var v := Update(c, u, skip, eventsOut);
            && (Once(kind) || kind.Part? ==> Made(v, kind) == Made(u, kind) + Bit(Decide(c, u, skip) == kind))
            && (Once(kind) ==> Answered(v, kind) == Answered(u, kind))
            && Bit(ListOut(u)) + Bit(Decide(c, u, skip).List?) == Bit(ListOut(v))
  {
    hide Inv, Decide, Update;
    DueOnce(c, u, skip);
    UpdateFrame(c, u, skip, eventsOut);
    UpdateProgress(c, u, skip, eventsOut);
  }

  lemma UpdateFrame(c: Config, u: Upload, skip: bool, eventsOut: bool)
    ensures var v := Update(c, u, skip, eventsOut);
            var d := Decide(c, u, skip);
            && v.create == (if d.Create? then u.create.(sent := true) else u.create)
            && v.complete == (if d.Complete? then u.complete.(sent := true) else u.complete)
            && v.abort == (if d.Abort? then u.abort.(sent := true) else u.abort)
  {
    hide Decide, SlotOf;
    match Decide(c, u, skip)
    case Wait =>
    case List =>
    case Create =>
    case Part =>
    case Complete =>
    case Abort =>
    case Finish =>
  }

  lemma UpdateProgress(c: Config, u: Upload, skip: bool, eventsOut: bool)
    ensures var v := Update(c, u, skip, eventsOut);
            var d := Decide(c, u, skip);
            && |v.parts| == |u.parts| + Bit(d.Part?)
            && (if d.List? then v.list.started && v.list.done == u.list.done && !(v.list.continues && u.list.started)
                else v.list == u.list)
            && (d.List? && !u.list.started ==> v.list.continues == u.list.continues)
  {
    hide Decide, SlotOf;
    match Decide(c, u, skip)
    case Wait =>
    case List =>
    case Create =>
    case Part =>
    case Complete =>
    case Abort =>
    case Finish =>
  }

  lemma ReplyFrame(c: Config, u: Upload, a: Action)
    requires Enabled(c, u, a) && !a.DoUpdate?
    ensures var v := Step(c, u, a);
            && v.create == (if a.EndCreate? then u.create.(done := true) else u.create)
            && v.complete == (if a.EndComplete? then u.complete.(done := true) else u.complete)
            && v.abort == (if a.EndAbort? then u.abort.(done := true) else u.abort)
            && |v.parts| == |u.parts| && (!a.EndList? ==> v.list == u.list)
            && (a.EndList? ==> !ListOut(v))
  {
    hide Listed, Grown, SlotOf;
    match a
    case FailPrepare(_, _) =>
    case EndPart(_, _) =>
    case EndList(_, _, _, _) =>
    case EndCreate(_) =>
    case EndComplete(_) =>
    case _ =>
  }

  lemma ReplyBalance(c: Config, u: Upload, a: Action, kind: Outcome)
    requires Enabled(c, u, a) && !a.DoUpdate?
    ensures var v := Step(c, u, a);
            && (Once(kind) || kind.Part? ==> Made(v, kind) == Made(u, kind))
            && (Once(kind) ==> Answered(v, kind) == Answered(u, kind) + RepliesOne(a, kind))
            && Bit(ListOut(u)) == Bit(ListOut(v)) + RepliesOne(a, List)
  {
    hide Step;
    ReplyFrame(c, u, a);
  }

  /** What is decided was not done before. */
  lemma DueOnce(c: Config, u: Upload, skip: bool)
    requires Inv(c, u)
    ensures var d := Decide(c, u, skip);
            && (d.Create? ==> !u.create.sent) && (d.Complete? ==> !u.complete.sent) && (d.Abort? ==> !u.abort.sent)
            && (d.List? ==> !u.list.done && (u.list.started ==> u.list.continues))
            && (u.list.continues ==> u.list.started)
  {
    hide Stored, Healthy, DoneCount, CleanedUp, AllDone;
  }

  lemma {:induction false} RunBalance(c: Config, u: Upload, actions: seq<Action>, kind: Outcome)
    requires Inv(c, u) && IsRun(c, u, actions)
    ensures var v := After(c, u, actions);
            && (Once(kind) || kind.Part? ==> Made(v, kind) == Made(u, kind) + Sends(c, u, actions, kind))
            && (Once(kind) ==> Answered(v, kind) == Answered(u, kind) + Replies(actions, kind))
            && Bit(ListOut(u)) + Sends(c, u, actions, List) == Bit(ListOut(v)) + Replies(actions, List)
    decreases |actions|
  {
    hide Inv, Step, Enabled, Made, Answered, SendsOne, RepliesOne;
    if actions != [] {
      StepInv(c, u, actions[0]);
      StepBalance(c, u, actions[0], kind);
      RunBalance(c, Step(c, u, actions[0]), actions[1..], kind);
    }
  }

  /** In every run the flags and counters tell the requests made and answered: the create, complete and abort requests
      are made at most once, a resumed upload makes no create request, and a list request is out exactly if more were
      made than answered. */
  lemma RequestsMadeOnce(c: Config, actions: seq<Action>)
    requires IsRun(c, Start(c), actions)
    ensures var u := After(c, Start(c), actions);
            && Sends(c, Start(c), actions, Create) == Bit(u.create.sent) - Bit(c.resuming)
            && Replies(actions, Create) == Bit(u.create.done) - Bit(c.resuming)
            && Sends(c, Start(c), actions, Complete) == Bit(u.complete.sent)
            && Replies(actions, Complete) == Bit(u.complete.done)
            && Sends(c, Start(c), actions, Abort) == Bit(u.abort.sent)
            && Replies(actions, Abort) == Bit(u.abort.done)
            && Sends(c, Start(c), actions, Part) == |u.parts|
            && Sends(c, Start(c), actions, List) == Replies(actions, List) + Bit(ListOut(u))
  {
    StartInv(c);
    RunBalance(c, Start(c), actions, Create);
    RunBalance(c, Start(c), actions, Part);
    RunBalance(c, Start(c), actions, Complete);
    RunBalance(c, Start(c), actions, Abort);
  }

  // ----- How an upload ends -----

  /** What an action says about the end: nothing, success or a failure. */
  function Verdict(c: Config, u: Upload, a: Action): Result
    requires Enabled(c, u, a)
  {
    match a
    case Stop(why) => Failed(why)
    case FailPrepare(_, why) => Failed(why)
    case EndPart(i, ok) => if ok || !u.parts[i].sending.ToSend? then Open else Failed(OtherFailure)
    case EndList(_, _, error, nothing) => if !error then Open else if nothing then Success else Failed(OtherFailure)
    case EndCreate(ok) => if ok then Open else Failed(OtherFailure)
    case EndComplete(ok) => if ok then Open else Failed(OtherFailure)
    case DoUpdate(_, _) => if Step(c, u, a).finished then Success else Open
    case _ => Open
  }

  /** The first verdict of a run. */
  function FirstVerdict(c: Config, u: Upload, actions: seq<Action>): Result
    requires IsRun(c, u, actions)
    decreases |actions|
  {
    if actions == [] then Open
    else if !Verdict(c, u, actions[0]).Open? then Verdict(c, u, actions[0])
    else FirstVerdict(c, Step(c, u, actions[0]), actions[1..])
  }

  lemma StepVerdict(c: Config, u: Upload, a: Action)
    requires Enabled(c, u, a)
    ensures Step(c, u, a).result == if u.result.Open? then Verdict(c, u, a) else u.result
  {
    hide Decide, Listed, Grown;
  }

  lemma {:induction false} RunVerdict(c: Config, u: Upload, actions: seq<Action>)
    requires IsRun(c, u, actions)
    ensures After(c, u, actions).result == if u.result.Open? then FirstVerdict(c, u, actions) else u.result
    decreases |actions|
  {
    hide Step, Enabled, Verdict;
    if actions != [] {
      StepVerdict(c, u, actions[0]);
      RunVerdict(c, Step(c, u, actions[0]), actions[1..]);
    }
  }

  /** The finish result is set once: it is the first thing that failed or succeeded in the run. */
  lemma FirstResultStands(c: Config, actions: seq<Action>)
    requires IsRun(c, Start(c), actions)
    ensures After(c, Start(c), actions).result == FirstVerdict(c, Start(c), actions)
  {
    RunVerdict(c, Start(c), actions);
  }

  // ----- Which parts are sent -----

  /** The parts that ListParts reported. */
  function Reported(actions: seq<Action>): set<nat>
    decreases |actions|
  {
    if actions == [] then {}
    else (if actions[0].EndList? then Elements(actions[0].numbers) else {}) + Reported(actions[1..])
  }

  function Elements(numbers: seq<nat>): set<nat> {
    set n | n in numbers
  }

  /** Is the part taken as uploaded before? */
  predicate Again(s: Status) {
    match s
    case Preparing(previous) => previous
    case Prepared(sending) => sending.SentBefore?
    case Done(sending) => sending.SentBefore?
  }

  predicate Dropped(s: Status) {
    s == Done(NotPrepared)
  }

  /** Slots of parts yet to come are filled as reported, and parts handed out were treated as reported. */
  ghost predicate AsReported(c: Config, parts: seq<Status>, slots: seq<Slot>, reported: set<nat>) {
    && (forall i :: i >= |parts| ==> (SlotOf(slots, i).Info? <==> i + 1 in reported))
    && (forall i :: 0 <= i < |parts| && !Dropped(parts[i]) ==> (Again(parts[i]) <==> c.known && i + 1 in reported))
  }

  lemma {:induction false} ListedSlots(slots: seq<Slot>, numbers: seq<nat>, i: nat)
    requires forall k :: 0 <= k < |numbers| ==> numbers[k] >= 1
    ensures SlotOf(Listed(slots, numbers), i) == if i + 1 in numbers then Info(true, true) else SlotOf(slots, i)
    decreases |numbers|
  {
    if numbers != [] {
      var k := numbers[0] - 1;
      var next := Grown(slots, k)[k := Info(true, true)];
      assert SlotOf(next, i) == if i == k then Info(true, true) else SlotOf(slots, i);
      ListedSlots(next, numbers[1..], i);
      assert i + 1 in numbers <==> i + 1 == numbers[0] || i + 1 in numbers[1..];
    }
  }

  lemma EndListReported(c: Config, u: Upload, numbers: seq<nat>, reported: set<nat>)
    requires AsReported(c, u.parts, u.slots, reported) && u.parts == []
    requires forall k :: 0 <= k < |numbers| ==> numbers[k] >= 1
    ensures AsReported(c, u.parts, Listed(u.slots, numbers), reported + Elements(numbers))
  {
    forall i | i >= 0
      ensures SlotOf(Listed(u.slots, numbers), i).Info? <==> i + 1 in reported + Elements(numbers)
    {
      ListedSlots(u.slots, numbers, i);
    }
  }

  lemma HandOutReported(c: Config, u: Upload, reported: set<nat>)
    requires AsReported(c, u.parts, u.slots, reported)
    ensures AsReported(c, HandOut(c, u).parts, HandOut(c, u).slots, reported)
  {
    var v := HandOut(c, u);
    assert forall i :: 0 <= i < |u.parts| ==> v.parts[i] == u.parts[i];
  }

  lemma PartReadReported(c: Config, u: Upload, i: nat, empty: bool, atEnd: bool, reported: set<nat>)
    requires AsReported(c, u.parts, u.slots, reported) && i < |u.parts| && u.parts[i].Preparing?
    ensures AsReported(c, PartRead(u, i, empty, atEnd).parts, PartRead(u, i, empty, atEnd).slots, reported)
  {
    var v := PartRead(u, i, empty, atEnd);
    assert forall k :: k >= |u.parts| ==> SlotOf(v.slots, k) == SlotOf(u.slots, k);
    assert Again(v.parts[i]) == Again(u.parts[i]);
    assert forall k :: 0 <= k < |u.parts| && k != i ==> v.parts[k] == u.parts[k];
  }

  lemma PartOverReported(c: Config, u: Upload, i: nat, s: Status, slots: seq<Slot>, reported: set<nat>)
    requires AsReported(c, u.parts, u.slots, reported) && i < |u.parts| && (Dropped(s) || Again(s) == Again(u.parts[i]))
    requires Dropped(u.parts[i]) ==> Dropped(s)
    requires forall k :: k >= |u.parts| ==> SlotOf(slots, k) == SlotOf(u.slots, k)
    ensures AsReported(c, u.parts[i := s], slots, reported)
  {
    assert forall k :: 0 <= k < |u.parts| && k != i ==> u.parts[i := s][k] == u.parts[k];
  }

  lemma StepReported(c: Config, u: Upload, a: Action, reported: set<nat>)
    requires Inv(c, u) && Enabled(c, u, a) && AsReported(c, u.parts, u.slots, reported)
    ensures var v := Step(c, u, a);
            AsReported(c, v.parts, v.slots, reported + if a.EndList? then Elements(a.numbers) else {})
  {
    hide AsReported, Stored, Healthy, DoneCount, Listed, Grown;
    assert reported + {} == reported;
    match a
    case DoUpdate(skip, eventsOut) => HandOutReported(c, u, reported);
    case EndRead(i, empty, atEnd) => PartReadReported(c, u, i, empty, atEnd, reported);
    case FailPrepare(i, why) => PartOverReported(c, u, i, Done(NotPrepared), u.slots, reported);
    case EndPart(i, ok) =>
      PartOverReported(c, u, i, Done(u.parts[i].sending), PartFinished(u, i, ok).slots, reported);
    case EndList(numbers, _, _, _) => EndListReported(c, u, numbers, reported);
    case _ =>
  }

  lemma {:induction false} RunReported(c: Config, u: Upload, actions: seq<Action>, reported: set<nat>)
    requires Inv(c, u) && IsRun(c, u, actions) && AsReported(c, u.parts, u.slots, reported)
    ensures var v := After(c, u, actions);
            AsReported(c, v.parts, v.slots, reported + Reported(actions))
    decreases |actions|
  {
    hide Inv, Step, Enabled, AsReported, Elements;
    if actions == [] {
      assert reported + Reported(actions) == reported;
    } else {
      var more := if actions[0].EndList? then Elements(actions[0].numbers) else {};
      StepInv(c, u, actions[0]);
      StepReported(c, u, actions[0], reported);
      RunReported(c, Step(c, u, actions[0]), actions[1..], reported + more);
      assert reported + more + Reported(actions[1..]) == reported + Reported(actions);
    }
  }

  /** In every run a part that the service listed is not sent again when the length is known, and one that it did not
      list is not passed over as sent before. */
  lemma ListedNotSentAgain(c: Config, actions: seq<Action>, i: nat)
    requires IsRun(c, Start(c), actions) && i < |After(c, Start(c), actions).parts|
    ensures var s := After(c, Start(c), actions).parts[i];
            if c.known && i + 1 in Reported(actions)
            then s in {Preparing(true), Prepared(SentBefore), Done(SentBefore), Done(NotPrepared)}
            else s != Preparing(true) && s != Prepared(SentBefore) && s != Done(SentBefore)
  {
    StartInv(c);
    RunReported(c, Start(c), actions, {});
    assert {} + Reported(actions) == Reported(actions);
  }
}
