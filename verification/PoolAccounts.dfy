/** The usage counters are sums over the tickets. */
module PoolAccounts {
  import opened Arithmetic
  import opened ChunkMask
  import opened Pool
  import opened PoolMemory

  function Plus(a: Usage, b: Usage): Usage {
    Usage(a.primaryUsed + b.primaryUsed, a.primaryReserved + b.primaryReserved,
          a.secondaryUsed + b.secondaryUsed, a.secondaryReserved + b.secondaryReserved,
          a.specialUsed + b.specialUsed, a.specialReserved + b.specialReserved,
          a.forcedUsed + b.forcedUsed)
  }

  /** What one ticket should contribute to each counter. */
  function Share(t: Ticket): Usage {
    if t.Claimed() then AddUsed(NOTHING, t.area, t.size).(forcedUsed := if t.forced then t.size else 0)
    else if t.hold.Reserved? && !t.forced then AddReserved(NOTHING, t.area, t.size)
    else NOTHING
  }

  /** What one ticket does contribute: one that lapsed has taken out what it never put in. */
  function Weight(t: Ticket): Usage {
    if t.hold.Lapsed? then AddReserved(NOTHING, t.area, 0 - t.size) else Share(t)
  }

  function SharesOf(ts: seq<Ticket>): Usage {
    if ts == [] then NOTHING else Plus(SharesOf(ts[..|ts| - 1]), Share(ts[|ts| - 1]))
  }

  function UsageOf(ts: seq<Ticket>): Usage {
    if ts == [] then NOTHING else Plus(UsageOf(ts[..|ts| - 1]), Weight(ts[|ts| - 1]))
  }

  lemma UsageAppend(ts: seq<Ticket>, t: Ticket)
    ensures UsageOf(ts + [t]) == Plus(UsageOf(ts), Weight(t))
  {
    assert (ts + [t])[..|ts|] == ts;
  }

  lemma {:induction false} UsageUpdate(ts: seq<Ticket>, i: nat, t: Ticket)
    requires i < |ts|
    ensures Plus(UsageOf(ts[i := t]), Weight(ts[i])) == Plus(UsageOf(ts), Weight(t))
  {
    hide Weight;
    var front := ts[..|ts| - 1];
    if i < |ts| - 1 {
      UsageUpdate(front, i, t);
      assert ts[i := t][..|ts| - 1] == front[i := t];
    } else {
      assert ts[i := t][..|ts| - 1] == front;
    }
  }

  predicate NonNegative(u: Usage) {
    && u.primaryUsed >= 0 && u.primaryReserved >= 0 && u.secondaryUsed >= 0 && u.secondaryReserved >= 0
    && u.specialUsed >= 0 && u.specialReserved >= 0 && 0 <= u.forcedUsed <= u.Overall()
  }

  predicate NothingLapsed(ts: seq<Ticket>) {
    forall i :: 0 <= i < |ts| ==> !ts[i].hold.Lapsed?
  }

  /** Unless a ticket lapsed no counter goes below zero, and forced use is part of the use. */
  lemma {:induction false} UsageNonNegative(ts: seq<Ticket>)
    requires NothingLapsed(ts)
    ensures NonNegative(UsageOf(ts))
  {
    if ts != [] {
      UsageNonNegative(ts[..|ts| - 1]);
    }
  }

  /** The reservations taken out that were never put in. */
  function LapsedBytes(ts: seq<Ticket>): nat {
    if ts == [] then 0
    else LapsedBytes(ts[..|ts| - 1]) + if ts[|ts| - 1].hold.Lapsed? then ts[|ts| - 1].size else 0
  }

  lemma {:induction false} LapsedMissing(ts: seq<Ticket>)
    ensures SharesOf(ts).Overall() == UsageOf(ts).Overall() + LapsedBytes(ts)
    ensures NothingLapsed(ts) ==> UsageOf(ts) == SharesOf(ts)
  {
    if ts != [] {
      LapsedMissing(ts[..|ts| - 1]);
    }
  }

  lemma {:induction false} LapsedCounts(ts: seq<Ticket>, i: nat)
    requires i < |ts| && ts[i].hold.Lapsed? && ts[i].size > 0
    ensures LapsedBytes(ts) > 0
  {
    if i < |ts| - 1 {
      LapsedCounts(ts[..|ts| - 1], i);
    }
  }

  /** The counters are what they should be exactly when no forced ticket was released unclaimed. */
  lemma BalancedIff(ts: seq<Ticket>)
    requires forall i :: 0 <= i < |ts| ==> ts[i].size > 0
    ensures UsageOf(ts) == SharesOf(ts) <==> NothingLapsed(ts)
  {
    hide UsageOf, SharesOf, LapsedBytes;
    LapsedMissing(ts);
    if i :| 0 <= i < |ts| && ts[i].hold.Lapsed? {
      LapsedCounts(ts, i);
    }
  }

  /** Special memory is never forced, so what is reserved of it covers each of its reservations. */
  predicate SpecialsUnforced(ts: seq<Ticket>) {
    forall i :: 0 <= i < |ts| && ts[i].area.Special? ==> !ts[i].hold.Lapsed?
  }

  lemma {:induction false} SpecialNonNegative(ts: seq<Ticket>)
    requires SpecialsUnforced(ts)
    ensures UsageOf(ts).specialReserved >= 0
  {
    if ts != [] {
      SpecialNonNegative(ts[..|ts| - 1]);
    }
  }

  lemma {:induction false} UsageCovers(ts: seq<Ticket>, i: nat)
    requires i < |ts| && SpecialsUnforced(ts)
    ensures Weight(ts[i]).specialReserved <= UsageOf(ts).specialReserved
  {
    SpecialNonNegative(ts[..|ts| - 1]);
    if i < |ts| - 1 {
      UsageCovers(ts[..|ts| - 1], i);
    }
  }

  /** If anything counts as taken, an outstanding ticket counts for it. */
  lemma {:induction false} TakenHasTicket(ts: seq<Ticket>)
    requires UsageOf(ts).Overall() > 0
    ensures exists i :: 0 <= i < |ts| && Weight(ts[i]).Overall() > 0
  {
    if Weight(ts[|ts| - 1]).Overall() <= 0 {
      TakenHasTicket(ts[..|ts| - 1]);
      var i :| 0 <= i < |ts| - 1 && Weight(ts[..|ts| - 1][i]).Overall() > 0;
      assert Weight(ts[i]).Overall() > 0;
    }
  }

  // ----- Primary storage never holds more than it has allocated -----

  ghost function ChunkTotal(c: Config, ts: seq<Ticket>): nat {
    if ts == [] then 0 else ChunkTotal(c, ts[..|ts| - 1]) + |TicketCells(c, ts[|ts| - 1], false)|
  }

  lemma {:induction false} OwnedCount(c: Config, ts: seq<Ticket>)
    requires NoOverlap(c, ts, false)
    ensures |Owned(c, ts, false)| == ChunkTotal(c, ts)
  {
    if ts != [] {
      OwnedCount(c, ts[..|ts| - 1]);
      UnionBound(Owned(c, ts[..|ts| - 1], false), TicketCells(c, ts[|ts| - 1], false));
    }
  }

  ghost predicate PrimaryFits(c: Config, t: Ticket) {
    t.area.Primary? && t.Claimed() ==> t.hold.Chunks? && PrimarySize(c, t.size)
  }

  lemma TicketFitsChunks(c: Config, t: Ticket)
    requires PrimaryFits(c, t)
    ensures Weight(t).primaryUsed <= c.chunkSize * |TicketCells(c, t, false)|
  {
    hide ChunksNeeded;
    Product(c.chunkSize, |TicketCells(c, t, false)|);
    if t.area.Primary? && t.Claimed() {
      ChunksNeededBounds(c, t.size);
      PairsCount(t.hold.block, Run(t.hold.first, ChunksNeeded(c, t.size)));
      assert |TicketCells(c, t, false)| == ChunksNeeded(c, t.size);
    }
  }

  lemma {:induction false} UsedWithinChunks(c: Config, ts: seq<Ticket>)
    requires forall i :: 0 <= i < |ts| ==> PrimaryFits(c, ts[i])
    ensures UsageOf(ts).primaryUsed <= c.chunkSize * ChunkTotal(c, ts)
  {
    hide TicketCells, Weight;
    if ts != [] {
      var front, t := ts[..|ts| - 1], ts[|ts| - 1];
      UsedWithinChunks(c, front);
      TicketFitsChunks(c, t);
      DistributeSum(ChunkTotal(c, front), |TicketCells(c, t, false)|, c.chunkSize);
    }
  }

  lemma ScaleCells(c: Config, cells: nat, blocks: nat)
    requires cells <= 16 * blocks
    ensures c.chunkSize * cells <= c.BlockSize() * blocks
    ensures c.BlockSize() * blocks == blocks * 16 * c.chunkSize
  {
    assert c.chunkSize * cells <= c.chunkSize * (16 * blocks);
  }

  lemma Product(a: nat, b: nat)
    ensures 0 <= a * b == b * a
  {
  }
}
