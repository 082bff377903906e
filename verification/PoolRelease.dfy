/** Releasing a ticket: its memory goes back, and parked reservations are granted in order. */
module PoolRelease {
  import opened ChunkMask
  import opened Pool
  import opened PoolMemory
  import opened PoolAccounts
  import opened PoolSafety

  /** Exactly the ticket's memory is free again; `q` is the pool with the memory returned. */
  ghost predicate Freed(c: Config, p: State, q: State, t: Ticket) {
    && q == p.(blocks := q.blocks, specials := q.specials, usage := q.usage)
    && BlocksOk(q) && AllocatedOk(c, q)
    && BlockCells(q.blocks) == BlockCells(p.blocks) - TicketCells(c, t, false)
    && SpecialCells(q.specials) == SpecialCells(p.specials) - TicketCells(c, t, true)
  }

  lemma OwnsBlock(c: Config, p: State, i: nat)
    requires Core(c, p) && i < |p.tickets| && p.tickets[i].hold.Chunks?
    ensures p.tickets[i].hold.block in Ids(p.blocks)
    ensures PrimarySize(c, p.tickets[i].size) && p.tickets[i].hold.first + Needed(c, p.tickets[i].size) <= 16
    ensures p.tickets[i].area.Primary?
  {
    hide BlockCells, Owned, NoOverlap, Ids, UsageOf, SpecialCells, ChunksNeeded;
    var t := p.tickets[i];
    assert TicketOk(c, p.sizes, t);
    OwnedHas(c, p.tickets, false, i);
    CellsLiveInBlocks(p.blocks);
    assert 1 <= Needed(c, t.size);
    assert t.hold.first in Run(t.hold.first, ChunksNeeded(c, t.size));
    assert (t.hold.block, t.hold.first) in TicketCells(c, t, false);
  }

  lemma FreePrimaryFreed(c: Config, p: State, i: nat)
    requires Core(c, p) && i < |p.tickets| && p.tickets[i].hold.Chunks?
    ensures PrimarySize(c, p.tickets[i].size)
    ensures var q := FreePrimary(c, p, p.tickets[i]);
            Freed(c, p, q, p.tickets[i]) && q.usage == ReleaseUsage(p.usage, p.tickets[i])
  {
    hide BlockCells, Owned, NoOverlap, Ids, DistinctIds, UsageOf, SpecialCells, ChunksNeeded, ClearBits, SpecialIds,
         SpecialsOk, TicketsOk, ReleaseUsage;
    var t := p.tickets[i];
    OwnsBlock(c, p, i);
    BlockFound(p.blocks, t.hold.block);
    var k := BlockIndex(p.blocks, t.hold.block);
    var n := Needed(c, t.size);
    ClearRun(p.blocks, k, t.hold.first, n);
    IdsUpdate(p.blocks, k, ClearBits(p.blocks[k].mask, t.hold.first, n));
  }

  lemma OwnsSpecial(c: Config, p: State, i: nat)
    requires Core(c, p) && i < |p.tickets| && p.tickets[i].hold.Whole?
    ensures (p.tickets[i].hold.id, p.tickets[i].size) in SpecialCells(p.specials)
    ensures p.tickets[i].size in p.sizes && p.tickets[i].area.Special?
  {
    hide BlockCells, Owned, NoOverlap, SpecialCells, UsageOf;
    assert TicketOk(c, p.sizes, p.tickets[i]);
    OwnedHas(c, p.tickets, true, i);
  }

  lemma FreeSpecialFreed(c: Config, p: State, i: nat)
    requires Core(c, p) && i < |p.tickets| && p.tickets[i].hold.Whole?
    ensures var q := FreeSpecialBlock(p, p.tickets[i]);
            Freed(c, p, q, p.tickets[i]) && q.usage == ReleaseUsage(p.usage, p.tickets[i])
  {
    hide BlockCells, Owned, NoOverlap, SpecialCells, UsageOf, SpecialIds, SpecialsOk, Ids, DistinctIds, TicketsOk,
         ReleaseUsage;
    var t := p.tickets[i];
    OwnsSpecial(c, p, i);
    SpecialFound(p.specials, t.size, t.hold.id);
    SpecialUpdate(p.specials, SpecialIndex(p.specials, t.size, t.hold.id), 0);
  }

  /** What a release leaves of the counters. */
  function AfterRelease(u: Usage, t: Ticket): Usage {
    if t.hold.Reserved? then AddReserved(u, t.area, 0 - t.size) else ReleaseUsage(u, t)
  }

  /** Releasing takes the ticket's share out of every counter, and more than that from a forced one never claimed. */
  lemma ReleasedUsage(c: Config, ts: seq<Ticket>, i: nat, u: Usage)
    requires i < |ts| && ts[i].Outstanding() && u == UsageOf(ts) && (NothingLapsed(ts) ==> WithinLimit(c, u))
    ensures var v := AfterRelease(u, ts[i]);
            var after := ts[i := Finished(ts[i])];
            v == UsageOf(after) && (NothingLapsed(after) ==> NothingLapsed(ts) && WithinLimit(c, v))
  {
    hide UsageOf;
    UsageUpdate(ts, i, Finished(ts[i]));
    LapsedUpdate(ts, i, Finished(ts[i]));
  }

  /** Releasing a ticket that was never claimed leaves the counters what they should be, if they were, exactly when
      the ticket was not forced. */
  lemma UnclaimedReleaseIff(c: Config, p: State, i: nat)
    requires Core(c, p) && p.usage == SharesOf(p.tickets) && i < |p.tickets| && p.tickets[i].hold.Reserved?
    ensures Releasable(c, p, i)
    ensures var q := GiveBack(c, p, i);
            q.usage == SharesOf(q.tickets) <==> !p.tickets[i].forced
  {
    hide UsageOf, SharesOf, TicketsOk;
    var after := p.tickets[i := Finished(p.tickets[i])];
    AllSized(c, p);
    BalancedIff(p.tickets);
    assert forall k :: 0 <= k < |after| ==> after[k].size == p.tickets[k].size;
    BalancedIff(after);
    LapsedUpdate(p.tickets, i, Finished(p.tickets[i]));
    ReleasedUsage(c, p.tickets, i, p.usage);
  }

  lemma AllSized(c: Config, p: State)
    requires TicketsOk(c, p.sizes, p.tickets)
    ensures forall i :: 0 <= i < |p.tickets| ==> p.tickets[i].size > 0
  {
    forall i | 0 <= i < |p.tickets| ensures p.tickets[i].size > 0 {
      assert TicketOk(c, p.sizes, p.tickets[i]);
    }
  }

  lemma FreedMasks(c: Config, p: State, q: State, i: nat)
    requires MasksOk(c, p) && i < |p.tickets| && Freed(c, p, q, p.tickets[i])
    ensures MasksOk(c, q.(tickets := p.tickets[i := Finished(p.tickets[i])]))
  {
    var t := Finished(p.tickets[i]);
    OwnedGive(c, p.tickets, i, t, false);
    OwnedGive(c, p.tickets, i, t, true);
  }

  lemma UnclaimedFreed(c: Config, p: State, t: Ticket, u: Usage)
    requires Core(c, p) && (t.hold.Reserved? || t.hold.Heap?)
    ensures Freed(c, p, p.(usage := u), t)
  {
    hide Owned, NoOverlap, UsageOf, TicketsOk;
  }

  lemma ReturnedFreed(c: Config, p: State, i: nat)
    requires Core(c, p) && Releasable(c, p, i)
    ensures var t := p.tickets[i]; var q := Returned(c, p, i);
            Freed(c, p, q, t) && q.usage == AfterRelease(p.usage, t)
  {
    hide Core, Freed, FreePrimary, FreeSpecialBlock;
    var t := p.tickets[i];
    if t.hold.Chunks? {
      FreePrimaryFreed(c, p, i);
    } else if t.hold.Whole? {
      FreeSpecialFreed(c, p, i);
    } else {
      UnclaimedFreed(c, p, t, Returned(c, p, i).usage);
    }
  }

  lemma GiveBackCore(c: Config, p: State, i: nat)
    requires Core(c, p) && Releasable(c, p, i)
    ensures Core(c, GiveBack(c, p, i))
    ensures var q := GiveBack(c, p, i);
            q == p.(blocks := q.blocks, specials := q.specials, usage := q.usage, tickets := q.tickets)
  {
    hide MasksOk, AllocatedOk, BlocksOk, UsageOf, TicketCells, BlockCells, SpecialCells, AddReserved, ReleaseUsage;
    var q := Returned(c, p, i);
    ReturnedFreed(c, p, i);
    assert GiveBack(c, p, i) == q.(tickets := p.tickets[i := Finished(p.tickets[i])]);
    hide Returned, GiveBack;
    FreedMasks(c, p, q, i);
    ReleasedUsage(c, p.tickets, i, p.usage);
    SameBlocks(c, q, GiveBack(c, p, i));
    GoneOk(c, p, i);
  }

  lemma GoneOk(c: Config, p: State, i: nat)
    requires TicketsOk(c, p.sizes, p.tickets) && i < |p.tickets|
    ensures TicketsOk(c, p.sizes, p.tickets[i := Finished(p.tickets[i])])
  {
    assert TicketOk(c, p.sizes, p.tickets[i]);
  }
}
