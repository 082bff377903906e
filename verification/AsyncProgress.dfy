/** Uploading by writes never gets stuck: from wherever it is, the caller's next write and the client's own steps can
    bring the upload to its end. */
module AsyncProgress {
  import opened ObjectParts
  import opened AsyncWrite

  /** A reservation that was put off gives the caller a buffer when it succeeds: the next write is not put off again,
      whatever the pool would say. Once the upload has ended it gives none. */
  lemma ReservationGivesBuffer(size: nat, actions: seq<Action>, data: seq<byte>, eof: bool, pool: Answer)
    requires size > 0 && IsRun(size, START, actions) && After(size, START, actions).future
    ensures var w := After(size, START, actions);
            var v := Reserved(w, true);
            && (Ended(size, START, actions) ==> !v.ticket && v.closed)
            && (!Ended(size, START, actions) ==> v.ticket && PollWrite(size, v, data, eof, pool).1.Processed?)
  {
    RunInv(size, START, actions);
    RunTold(size, START, actions);
  }

  // ----- What is left to do -----

  function Bit(b: bool): nat {
    if b then 1 else 0
  }

  /** Each part goes from the buffer to a request, is read and is recorded. */
  function Left(w: Writer): nat {
    Bit(w.future) + 4 * Bit(w.ready && !w.handing) + 2 * Bit(w.handing) + Bit(w.pendingRead) + 6 * Bit(!w.eof)
  }

  /** A step closer to the end, on which nothing fails. */
  predicate Closer(size: nat, w: Writer, v: Writer) {
    (v.finished && (w.closed || LastSent(w))) || (!v.finished && Left(v) < Left(w) && v.closed == w.closed)
  }

  lemma NextStep(size: nat, w: Writer) returns (a: Action)
    requires Inv(size, w) && !w.finished
    ensures Enabled(w, a) && !a.Stop? && Closer(size, w, Step(size, w, a))
    ensures Step(size, w, a).finished ==> a.DoFinish?
  {
    hide Conserved;
    if w.future {
      a := EndReserve(true);
    } else if w.handing {
      a := DoRead;
    } else if w.pendingRead {
      a := Record;
    } else if w.closed || LastSent(w) {
      a := DoFinish;
    } else if w.ready {
      a := DoHandOff;
    } else {
      a := Write([], true, Granted);
    }
  }

  lemma {:induction false} RunOn(size: nat, w: Writer) returns (more: seq<Action>)
    requires Inv(size, w) && !w.finished
    ensures IsRun(size, w, more) && After(size, w, more).finished && Stop !in more
    ensures !w.closed ==> var v := After(size, w, more); v.eof && v.accepted == Flatten(v.parts)
    decreases Left(w)
  {
    hide Inv, Enabled, Step, Left;
    var a := NextStep(size, w);
    StepInv(size, w, a);
    var v := Step(size, w, a);
    if v.finished {
      more := [a];
      assert more[1..] == [];
      if !w.closed {
        AllHandedOff(size, w);
      }
    } else {
      var rest := RunOn(size, v);
      more := [a] + rest;
      assert more[1..] == rest;
    }
  }

  lemma AllHandedOff(size: nat, w: Writer)
    requires Inv(size, w) && Enabled(w, DoFinish) && LastSent(w)
    ensures var v := Step(size, w, DoFinish); v.eof && v.accepted == Flatten(v.parts)
  {
  }

  lemma StartInv(size: nat)
    requires size > 0
    ensures Inv(size, START)
  {
  }

  /** After any run an upload that has not finished can: there is a way to go on that finishes it, in which nobody stops
      it; and if nothing has failed so far, everything the caller was told was taken is then in the parts. */
  lemma WritesCanFinish(size: nat, actions: seq<Action>) returns (more: seq<Action>)
    requires size > 0 && IsRun(size, START, actions) && !After(size, START, actions).finished
    ensures var w := After(size, START, actions);
            && IsRun(size, w, more) && After(size, w, more).finished && Stop !in more
            && (!Ended(size, START, actions) ==>
                  After(size, w, more).eof &&
                  Taken(size, START, actions) + Taken(size, w, more) == Flatten(After(size, w, more).parts))
  {
    hide Inv, IsRun, After, Ended, Taken, AllTaken, Waits, Flatten;
    StartInv(size);
    var w := After(size, START, actions);
    RunInv(size, START, actions);
    RunTold(size, START, actions);
    more := RunOn(size, w);
    RunTold(size, w, more);
  }
}
