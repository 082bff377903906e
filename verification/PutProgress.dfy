/** An upload never gets stuck: from wherever it is, it can finish, and successfully if nothing has failed. */
module PutProgress {
  import opened AutoRangedPut
  import opened PutRuns
  import opened PutPolicy

  // ----- What is left to do -----

  function Work(s: Status): nat {
    match s
    case Preparing(_) => 2
    case Prepared(_) => 1
    case Done(_) => 0
  }

  function PartsWork(parts: seq<Status>): nat {
    if parts == [] then 0 else PartsWork(parts[..|parts| - 1]) + Work(parts[|parts| - 1])
  }

  lemma {:induction false} PartsWorkUpdate(parts: seq<Status>, i: nat, s: Status)
    requires i < |parts|
    ensures PartsWork(parts[i := s]) + Work(parts[i]) == PartsWork(parts) + Work(s)
  {
    var front := parts[..|parts| - 1];
    if i < |parts| - 1 {
      PartsWorkUpdate(front, i, s);
      assert parts[i := s][..|parts| - 1] == front[i := s];
    } else {
      assert parts[i := s][..|parts| - 1] == front;
    }
  }

  lemma PartsWorkAppend(parts: seq<Status>, s: Status)
    ensures PartsWork(parts + [s]) == PartsWork(parts) + Work(s)
  {
    assert (parts + [s])[..|parts|] == parts;
  }

  function Left(x: Exchange): nat {
    if x.done then 0 else if x.sent then 1 else 2
  }

  predicate BeingRead(parts: seq<Status>) {
    exists i :: 0 <= i < |parts| && parts[i].Preparing?
  }

  /** Parts not handed out yet; a body of unknown length can end with the next part read. */
  function Ahead(c: Config, u: Upload): nat {
    if c.known then (if |u.parts| < c.total then 3 * (c.total - |u.parts|) else 0)
    else if u.atEnd || BeingRead(u.parts) then 0 else 3
  }

  /** The steps left at most, if nothing goes wrong from here. */
  function Measure(c: Config, u: Upload): nat {
    PartsWork(u.parts) +
    if u.result.Open? then
      (if u.list.done then 0 else if ListOut(u) then 1 else 2) + Left(u.create) + Ahead(c, u) + Left(u.complete)
    else
      (if Out(u.create) then 1 else 0) + (if Out(u.complete) then 1 else 0) + Left(u.abort)
  }

  // ----- One step -----

  /** A step closer to the end: the upload is finished or has less left to do, and nothing fails on the way. */
  predicate Closer(c: Config, u: Upload, v: Upload) {
    && (v.finished || Measure(c, v) < Measure(c, u))
    && (u.result.Open? ==> if v.finished then v.result.Success? && v.completeOk else v.result.Open?)
  }

  lemma PartStep(c: Config, u: Upload, i: nat) returns (a: Action)
    requires Inv(c, u) && !u.finished && i < |u.parts| && !u.parts[i].Done?
    ensures Enabled(c, u, a) && Closer(c, u, Step(c, u, a))
  {
    hide DoneCount, Stored, Healthy, Grown, PartsWork;
    if u.parts[i].Preparing? {
      a := EndRead(i, false, true);
      PartsWorkUpdate(u.parts, i, Prepared(Reading(u.parts[i].previous, false)));
    } else {
      a := EndPart(i, true);
      PartsWorkUpdate(u.parts, i, Done(u.parts[i].sending));
      if !c.known && BeingRead(u.parts) {
        var k :| 0 <= k < |u.parts| && u.parts[k].Preparing?;
        assert Step(c, u, a).parts[k].Preparing?;
      }
    }
  }

  /** A request that is out finishes well. */
  lemma ReplyStep(c: Config, u: Upload) returns (a: Action)
    requires Inv(c, u) && !u.finished
    requires if u.result.Open? then ListOut(u) || Out(u.create) || Out(u.complete)
             else Out(u.create) || Out(u.complete) || Out(u.abort)
    ensures Enabled(c, u, a) && Closer(c, u, Step(c, u, a))
  {
    hide DoneCount, Stored, Healthy, PartsWork, Ahead;
    if u.result.Open? && ListOut(u) {
      a := EndList([], false, false, false);
      assert Listed(u.slots, []) == u.slots;
    } else if Out(u.create) {
      a := EndCreate(true);
    } else if Out(u.complete) {
      a := EndComplete(true);
    } else {
      a := EndAbort;
    }
    SameAhead(c, u, Step(c, u, a));
  }

  lemma SameAhead(c: Config, u: Upload, v: Upload)
    requires u.parts == v.parts && u.atEnd == v.atEnd
    ensures Ahead(c, u) == Ahead(c, v) && PartsWork(u.parts) == PartsWork(v.parts)
  {
  }

  lemma NothingRead(parts: seq<Status>)
    requires AllDone(parts)
    ensures !BeingRead(parts)
  {
  }

  lemma OneBeingRead(parts: seq<Status>, s: Status)
    requires s.Preparing?
    ensures BeingRead(parts + [s])
  {
    assert (parts + [s])[|parts|].Preparing?;
  }

  /** With nothing out, an update goes on. */
  lemma UpdateStep(c: Config, u: Upload)
    requires Inv(c, u) && !u.finished && AllDone(u.parts) && !Out(u.create) && !Out(u.complete)
    requires if u.result.Open? then !ListOut(u) else !Out(u.abort)
    ensures Closer(c, u, Step(c, u, DoUpdate(false, false)))
  {
    hide DoneCount, Stored, Healthy, PartsWork, BeingRead;
    AllDoneByCount(u.parts);
    NothingRead(u.parts);
    var s := Preparing(c.known && SlotOf(u.slots, |u.parts|).Info?);
    PartsWorkAppend(u.parts, s);
    OneBeingRead(u.parts, s);
  }

  lemma NextStep(c: Config, u: Upload) returns (a: Action)
    requires Inv(c, u) && !u.finished
    ensures Enabled(c, u, a) && Closer(c, u, Step(c, u, a))
  {
    hide Inv, Closer, Step;
    if Out(u.create) || Out(u.complete) || (if u.result.Open? then ListOut(u) else Out(u.abort)) {
      a := ReplyStep(c, u);
    } else if i :| 0 <= i < |u.parts| && !u.parts[i].Done? {
      a := PartStep(c, u, i);
    } else {
      a := DoUpdate(false, false);
      UpdateStep(c, u);
    }
  }

  // ----- The theorem -----

  lemma {:induction false} RunOn(c: Config, u: Upload) returns (more: seq<Action>)
    requires Inv(c, u) && !u.finished
    ensures IsRun(c, u, more) && After(c, u, more).finished
    ensures u.result.Open? ==> After(c, u, more).result.Success? && After(c, u, more).completeOk
    decreases Measure(c, u)
  {
    hide Inv, Measure, Enabled, Step;
    var a := NextStep(c, u);
    StepInv(c, u, a);
    var v := Step(c, u, a);
    if v.finished {
      more := [a];
      assert more[1..] == [];
    } else {
      var rest := RunOn(c, v);
      more := [a] + rest;
      assert more[1..] == rest;
    }
  }

  /** After any run an upload that has not finished can: there is a way to go on that finishes it, and if nothing has
      failed so far it completes the upload. */
  lemma UploadCanFinish(c: Config, actions: seq<Action>) returns (more: seq<Action>)
    requires IsRun(c, Start(c), actions) && !After(c, Start(c), actions).finished
    ensures var u := After(c, Start(c), actions);
            && IsRun(c, u, more) && After(c, u, more).finished
            && (u.result.Open? ==>
                  && After(c, u, more).result.Success? && After(c, u, more).completeOk
                  && PartsOver(c, After(c, u, more)))
  {
    var u := After(c, Start(c), actions);
    StartInv(c);
    RunInv(c, Start(c), actions);
    more := RunOn(c, u);
    RunInv(c, u, more);
  }
}
