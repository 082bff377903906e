/** The pool's invariant and its preservation by every operation. */
module PoolSafety {
  import opened Arithmetic
  import opened ChunkMask
  import opened Pool
  import opened PoolMemory
  import opened PoolAccounts

  ghost predicate TicketOk(c: Config, sizes: set<nat>, t: Ticket) {
    && t.size > 0
    && (t.area.Primary? ==> PrimarySize(c, t.size))
    && (t.forced ==> !t.area.Special?) && (t.hold.Lapsed? ==> t.forced)
    && (t.hold.Chunks? ==> t.area.Primary? && t.hold.first + ChunksNeeded(c, t.size) <= 16)
    && (t.hold.Heap? ==> t.area.Secondary?)
    && (t.hold.Whole? ==> t.area.Special?)
    && (t.area.Special? && t.Outstanding() ==> t.size in sizes)
  }

  ghost predicate TicketsOk(c: Config, sizes: set<nat>, ts: seq<Ticket>) {
    forall i :: 0 <= i < |ts| ==> TicketOk(c, sizes, ts[i])
  }

  /** Blocks have distinct addresses, all handed out before `nextId`. */
  ghost predicate BlocksOk(p: State) {
    && DistinctIds(p.blocks) && SpecialsOk(p.specials)
    && Ids(p.blocks) !! SpecialIds(p.specials)
    && (forall id :: id in Ids(p.blocks) || id in SpecialIds(p.specials) ==> id < p.nextId)
  }

  /** The masks are exactly the union of what claimed tickets own, and no two tickets own the same memory. */
  ghost predicate MasksOk(c: Config, p: State) {
    && NoOverlap(c, p.tickets, false) && NoOverlap(c, p.tickets, true)
    && Owned(c, p.tickets, false) == BlockCells(p.blocks)
    && Owned(c, p.tickets, true) == SpecialCells(p.specials)
  }

  ghost predicate AllocatedOk(c: Config, p: State) {
    p.primaryAllocated == c.BlockSize() * |p.blocks| && p.specialAllocated == SpecialBytes(p.specials)
  }

  /** Every counter is the sum it stands for, and unless a ticket lapsed those that were not forced stay within the
      limit. */
  ghost predicate UsageOk(c: Config, p: State) {
    p.usage == UsageOf(p.tickets) && (NothingLapsed(p.tickets) ==> WithinLimit(c, p.usage))
  }

  predicate WithinLimit(c: Config, u: Usage) {
    u.Overall() - u.forcedUsed <= c.limit
  }

  ghost predicate Core(c: Config, p: State) {
    TicketsOk(c, p.sizes, p.tickets) && BlocksOk(p) && MasksOk(c, p) && AllocatedOk(c, p) && UsageOk(c, p)
  }

  // ----- Trimming -----

  lemma TrimPrimaryCore(c: Config, p: State)
    requires Core(c, p)
    ensures Core(c, TrimPrimary(c, p))
  {
    hide TicketsOk, Owned, NoOverlap, UsageOf, BlockCells, BusyBlocks, SpecialCells;
    TrimKeepsCells(p.blocks);
    var busy := BusyBlocks(p.blocks);
    assert c.BlockSize() * |p.blocks| - c.BlockSize() * (|p.blocks| - |busy|) == c.BlockSize() * |busy|;
  }

  /** A special list that an outstanding ticket needs is not dropped. */
  lemma TrimKeepsSizes(c: Config, p: State)
    requires Core(c, p)
    ensures TicketsOk(c, TrimSpecials(c, p).sizes, p.tickets)
  {
    hide BlockCells, NoOverlap;
    forall i | 0 <= i < |p.tickets| ensures TicketOk(c, TrimSpecials(c, p).sizes, p.tickets[i]) {
      TrimKeepsSize(c, p, i);
    }
  }

  lemma TrimKeepsSize(c: Config, p: State, i: nat)
    requires Core(c, p) && i < |p.tickets|
    ensures TicketOk(c, TrimSpecials(c, p).sizes, p.tickets[i])
  {
    hide UsageOf, Owned, NoOverlap, BlockCells, SpecialCells, BusySpecials, SizesIn;
    var t := p.tickets[i];
    assert TicketOk(c, p.sizes, t);
    if t.area.Special? && t.Outstanding() {
      if t.hold.Reserved? {
        SpecialTickets(c, p);
        UsageCovers(p.tickets, i);
      } else {
        OwnedHas(c, p.tickets, true, i);
        TrimKeepsSpecials(p.specials);
        assert (t.hold.id, t.size) in SpecialCells(p.specials);
      }
    }
  }

  lemma SpecialTickets(c: Config, p: State)
    requires TicketsOk(c, p.sizes, p.tickets)
    ensures SpecialsUnforced(p.tickets)
  {
    forall i | 0 <= i < |p.tickets| && p.tickets[i].area.Special? ensures !p.tickets[i].hold.Lapsed? {
      assert TicketOk(c, p.sizes, p.tickets[i]);
    }
  }

  lemma TrimSpecialsCore(c: Config, p: State)
    requires Core(c, p)
    ensures Core(c, TrimSpecials(c, p))
  {
    TrimKeepsSizes(c, p);
    hide TicketsOk, Owned, NoOverlap, UsageOf, BlockCells, BusySpecials, SpecialCells;
    TrimKeepsSpecials(p.specials);
  }

  lemma TrimCore(c: Config, p: State)
    requires Core(c, p)
    ensures Core(c, Trim(c, p))
  {
    hide Core, TrimPrimary, TrimSpecials;
    TrimPrimaryCore(c, p);
    TrimSpecialsCore(c, TrimPrimary(c, p));
  }

  // ----- Reserving -----

  lemma AppendTicket(c: Config, p: State, t: Ticket, u: Usage)
    requires Core(c, p) && TicketOk(c, p.sizes, t) && t.hold.Reserved?
    requires u == Plus(p.usage, Weight(t)) && (NothingLapsed(p.tickets) ==> WithinLimit(c, u))
    ensures Core(c, p.(tickets := p.tickets + [t], usage := u))
  {
    hide TicketOk, BlockCells, SpecialCells, Weight, WithinLimit, UsageOf, Owned, NoOverlap, NothingLapsed, Plus;
    LapsedAppend(p.tickets, t);
    UsageAppend(p.tickets, t);
    OwnedAppend(c, p.tickets, t, false);
    OwnedAppend(c, p.tickets, t, true);
  }

  lemma LapsedAppend(ts: seq<Ticket>, t: Ticket)
    requires !t.hold.Lapsed?
    ensures NothingLapsed(ts + [t]) <==> NothingLapsed(ts)
  {
    assert forall i :: 0 <= i < |ts| ==> (ts + [t])[i] == ts[i];
  }

  lemma GrantCore(c: Config, p: State, size: nat)
    requires Core(c, p) && 0 < size && Fits(c, p.usage, size)
    ensures Core(c, Grant(c, p, size))
  {
    hide Core;
    CoreNonNegative(c, p);
    var area := AreaFor(c, p, size);
    AppendTicket(c, p, Ticket(size, area, false, Reserved), AddReserved(p.usage, area, size));
  }

  lemma CoreNonNegative(c: Config, p: State)
    requires Core(c, p)
    ensures NothingLapsed(p.tickets) ==> NonNegative(p.usage) && WithinLimit(c, p.usage)
  {
    if NothingLapsed(p.tickets) {
      UsageNonNegative(p.tickets);
    }
  }

  lemma PreparedCore(c: Config, p: State, size: nat)
    requires Core(c, p)
    ensures Core(c, Prepared(c, p, size))
    ensures var q := Prepared(c, p, size);
            && q.usage == p.usage && q.tickets == p.tickets && q.pending == p.pending && q.served == p.served
            && q.arrivals == p.arrivals
  {
    hide Core;
    TrimCore(c, p);
  }

  lemma TryReserveCore(c: Config, p: State, size: nat)
    requires Core(c, p) && 0 < size
    ensures Core(c, TryReserve(c, p, size))
    ensures Granted(c, p, size) <==> Fits(c, p.usage, size)
    ensures !Granted(c, p, size) ==> TryReserve(c, p, size).usage == p.usage
    ensures Taken(c, p.usage) <= Taken(c, TryReserve(c, p, size).usage)
    ensures var q := TryReserve(c, p, size);
            && q.pending == p.pending && q.served == p.served && q.arrivals == p.arrivals
            && (NothingLapsed(q.tickets) <==> NothingLapsed(p.tickets))
  {
    hide Core, Prepared;
    PreparedCore(c, p, size);
    LapsedAppend(p.tickets, Ticket(size, AreaFor(c, Prepared(c, p, size), size), false, Reserved));
    if Fits(c, p.usage, size) {
      GrantCore(c, Prepared(c, p, size), size);
    }
  }

  lemma ForcedCore(c: Config, p: State, size: nat)
    requires Core(c, p) && 0 < size
    ensures Core(c, p.(tickets := p.tickets + [Ticket(size, ForcedArea(c, size), true, Reserved)]))
  {
    hide Core;
    CoreNonNegative(c, p);
    AppendTicket(c, p, Ticket(size, ForcedArea(c, size), true, Reserved), p.usage);
  }

  // ----- Claiming -----

  /** The memory handed out was free, and the masks now record it; `q` is the pool with the memory taken. */
  ghost predicate Placed(c: Config, p: State, q: State, t: Ticket) {
    && q.usage == p.usage && q.tickets == p.tickets && q.sizes == p.sizes && q.pending == p.pending
    && q.served == p.served && q.arrivals == p.arrivals && q.cancelled == p.cancelled
    && BlocksOk(q) && AllocatedOk(c, q)
    && TicketCells(c, t, false) !! BlockCells(p.blocks)
    && BlockCells(q.blocks) == BlockCells(p.blocks) + TicketCells(c, t, false)
    && TicketCells(c, t, true) !! SpecialCells(p.specials)
    && SpecialCells(q.specials) == SpecialCells(p.specials) + TicketCells(c, t, true)
  }

  function Needed(c: Config, size: nat): (n: nat)
    requires PrimarySize(c, size)
    ensures 1 <= n <= 4
  {
    ChunksNeededBounds(c, size);
    ChunksNeeded(c, size)
  }

  lemma EmptyMask(n: nat)
    requires 1 <= n <= 4
    ensures Cells(SetBits(0, 0, n)) == Run(0, n)
  {
    hide SetBits;
    SetBitsAddsRun(0, 0, n);
    FreeMask(0);
  }

  /** Placing a primary buffer, seen from the blocks. */
  ghost predicate BlocksTake(c: Config, p: State, q: State, hold: Hold, n: nat) {
    && q == p.(blocks := q.blocks, nextId := q.nextId, primaryAllocated := q.primaryAllocated)
    && hold.Chunks? && hold.first + n <= 16
    && DistinctIds(q.blocks) && Ids(q.blocks) <= Ids(p.blocks) + {p.nextId}
    && (q.nextId == p.nextId ==> Ids(q.blocks) == Ids(p.blocks)) && p.nextId <= q.nextId <= p.nextId + 1
    && (if |q.blocks| == |p.blocks| then q.primaryAllocated == p.primaryAllocated
        else |q.blocks| == |p.blocks| + 1 && q.primaryAllocated == p.primaryAllocated + c.BlockSize())
    && Pairs(hold.block, Run(hold.first, n)) !! BlockCells(p.blocks)
    && BlockCells(q.blocks) == BlockCells(p.blocks) + Pairs(hold.block, Run(hold.first, n))
  }

  lemma TakeChunksBlocks(c: Config, p: State, s: Spot, n: nat)
    requires DistinctIds(p.blocks) && 1 <= n <= 4 && s.Spot? && s.index < |p.blocks| && s.first + n <= 16
    requires !CheckBits(p.blocks[s.index].mask, s.first, n)
    ensures BlocksTake(c, p, TakeChunks(p, s, n), Chunks(p.blocks[s.index].id, s.first), n)
  {
    hide SetBits, CheckBits, BlockCells, Ids;
    TakeRun(p.blocks, s.index, s.first, n);
    IdsUpdate(p.blocks, s.index, SetBits(p.blocks[s.index].mask, s.first, n));
  }

  lemma NewBlockBlocks(c: Config, p: State, n: nat)
    requires BlocksOk(p) && 1 <= n <= 4
    ensures BlocksTake(c, p, NewBlock(c, p, n), Chunks(p.nextId, 0), n)
  {
    hide SetBits, BlockCells, Ids, Cells, Pairs, DistinctIds, SpecialIds, SpecialsOk;
    AppendBlock(p.blocks, Block(p.nextId, SetBits(0, 0, n)));
    EmptyMask(n);
    PairsApart(p.nextId, Run(0, n), p.blocks);
  }

  lemma PairsApart(id: nat, cells: set<nat>, blocks: seq<Block>)
    requires id !in Ids(blocks)
    ensures Pairs(id, cells) !! BlockCells(blocks)
  {
    hide BlockCells, Ids;
    CellsLiveInBlocks(blocks);
  }

  lemma PlacePrimaryBlocks(c: Config, p: State, size: nat)
    requires BlocksOk(p) && PrimarySize(c, size)
    ensures var (q, hold) := PlacePrimary(c, p, size);
            BlocksTake(c, p, q, hold, Needed(c, size))
  {
    hide BlocksTake, ChunksNeeded, CheckBits, TakeChunks, NewBlock;
    var n := Needed(c, size);
    var s := FindSpot(p.blocks, n, 0);
    if s.Spot? {
      TakeChunksBlocks(c, p, s, n);
    } else {
      NewBlockBlocks(c, p, n);
    }
  }

  lemma PlacePrimaryPlaced(c: Config, p: State, q: State, t: Ticket, hold: Hold)
    requires BlocksOk(p) && AllocatedOk(c, p) && t.area.Primary? && PrimarySize(c, t.size)
    requires BlocksTake(c, p, q, hold, Needed(c, t.size))
    ensures Placed(c, p, q, t.(hold := hold))
  {
    hide BlockCells, SpecialCells, ChunksNeeded, Ids, SpecialIds, SpecialsOk, DistinctIds;
    DistributeSum(|p.blocks|, 1, c.BlockSize());
  }

  lemma PlaceSpecialPlaced(c: Config, p: State, t: Ticket)
    requires Core(c, p) && t.area.Special?
    ensures var (q, hold) := PlaceSpecial(p, t.size);
            Placed(c, p, q, t.(hold := hold)) && hold.Whole?
  {
    hide BlockCells, Owned, NoOverlap, UsageOf, TicketsOk, SpecialCells, SpecialIds, SpecialsOk;
    var i := FreeSpecial(p.specials, t.size, 0);
    if i < |p.specials| {
      SpecialUpdate(p.specials, i, FULL);
    } else {
      SpecialAppend(p.specials, SpecialBlock(t.size, p.nextId, FULL));
      SpecialCellsLive(p.specials);
    }
  }

  lemma PlacePlaced(c: Config, p: State, t: Ticket)
    requires Core(c, p) && TicketOk(c, p.sizes, t) && t.hold.Reserved?
    ensures var (q, hold) := Place(c, p, t);
            && Placed(c, p, q, t.(hold := hold)) && TicketOk(c, p.sizes, t.(hold := hold))
            && t.(hold := hold).Claimed()
  {
    hide Placed, BlocksOk, PlacePrimary, ChunksNeeded, AllocatedOk;
    if t.area.Primary? {
      var (q, hold) := PlacePrimary(c, p, t.size);
      PlacePrimaryBlocks(c, p, t.size);
      PlacePrimaryPlaced(c, p, q, t, hold);
    } else if t.area.Special? {
      hide Core;
      PlaceSpecialPlaced(c, p, t);
    } else {
      assert Placed(c, p, p, t.(hold := Heap)) by {
        HeapPlaced(c, p, t);
      }
    }
  }

  lemma HeapPlaced(c: Config, p: State, t: Ticket)
    requires Core(c, p)
    ensures Placed(c, p, p, t.(hold := Heap))
  {
  }

  lemma ClaimUsageOk(c: Config, p: State, i: nat, t: Ticket)
    requires UsageOk(c, p) && i < |p.tickets| && p.tickets[i].hold.Reserved?
    requires t == p.tickets[i].(hold := t.hold) && t.Claimed()
    ensures ClaimUsage(p.usage, p.tickets[i]) == UsageOf(p.tickets[i := t])
    ensures NothingLapsed(p.tickets) ==> WithinLimit(c, ClaimUsage(p.usage, p.tickets[i]))
    ensures NothingLapsed(p.tickets[i := t]) <==> NothingLapsed(p.tickets)
    ensures Taken(c, p.usage) <= Taken(c, ClaimUsage(p.usage, p.tickets[i]))
  {
    hide UsageOf;
    UsageUpdate(p.tickets, i, t);
    LapsedUpdate(p.tickets, i, t);
  }

  lemma LapsedUpdate(ts: seq<Ticket>, i: nat, t: Ticket)
    requires i < |ts| && !ts[i].hold.Lapsed?
    ensures NothingLapsed(ts[i := t]) <==> NothingLapsed(ts) && !t.hold.Lapsed?
  {
    var after := ts[i := t];
    assert after[i] == t && forall k :: 0 <= k < |ts| && k != i ==> after[k] == ts[k];
  }

  lemma ClaimMasks(c: Config, p: State, q: State, i: nat, t: Ticket)
    requires MasksOk(c, p) && i < |p.tickets| && p.tickets[i].hold.Reserved? && Placed(c, p, q, t)
    ensures MasksOk(c, q.(tickets := p.tickets[i := t]))
  {
    OwnedTake(c, p.tickets, i, t, false);
    OwnedTake(c, p.tickets, i, t, true);
  }

  /** A list has a free block. */
  predicate HasFree(specials: seq<SpecialBlock>, size: nat) {
    exists k :: 0 <= k < |specials| && specials[k].size == size && specials[k].mask == 0
  }

  /** A primary buffer goes into the first adjacent free chunks of the blocks there are; a block is made only if none
      has room. */
  ghost predicate FirstFit(p: State, q: State, hold: Hold, n: nat) {
    && hold.Chunks? && q.specials == p.specials
    && |q.blocks| == |p.blocks| + (if HasRoom(p.blocks, n) then 0 else 1)
    && (HasRoom(p.blocks, n) ==>
          exists b: nat :: b < |p.blocks| && p.blocks[b].id == hold.block && FreeAt(p.blocks[b].mask, hold.first, n) &&
                           NoRoomBefore(p.blocks, n, 0, b, hold.first))
    && (!HasRoom(p.blocks, n) ==> hold == Chunks(p.nextId, 0))
  }

  lemma PlacePrimaryFirst(c: Config, p: State, size: nat)
    requires PrimarySize(c, size)
    ensures var (q, hold) := PlacePrimary(c, p, size); FirstFit(p, q, hold, Needed(c, size))
  {
    hide FreeAt, FindSpot, ChunksNeeded, SetBits;
    FindSpotFirst(p.blocks, Needed(c, size), 0);
  }

  /** A special buffer takes the first free block of its list; a block is made only if none is free. */
  ghost predicate FirstFree(p: State, q: State, hold: Hold, size: nat) {
    && hold.Whole? && q.blocks == p.blocks
    && |q.specials| == |p.specials| + (if HasFree(p.specials, size) then 0 else 1)
    && (HasFree(p.specials, size) ==>
          exists k: nat :: k < |p.specials| && p.specials[k].id == hold.id && p.specials[k].size == size &&
                           p.specials[k].mask == 0 && !HasFree(p.specials[..k], size))
    && (!HasFree(p.specials, size) ==> hold == Whole(p.nextId))
  }

  lemma PlaceSpecialFirst(p: State, size: nat)
    ensures var (q, hold) := PlaceSpecial(p, size); FirstFree(p, q, hold, size)
  {
    hide FreeSpecial;
    FreeSpecialFirst(p.specials, size, 0);
    var i := FreeSpecial(p.specials, size, 0);
    assert !HasFree(p.specials[..i], size);
  }

  /** Where a claim finds its memory. */
  ghost predicate PlacedFirst(c: Config, p: State, q: State, t: Ticket, hold: Hold) {
    match t.area
    case Primary => PrimarySize(c, t.size) && FirstFit(p, q, hold, Needed(c, t.size))
    case Secondary => hold.Heap? && q.blocks == p.blocks && q.specials == p.specials
    case Special => FirstFree(p, q, hold, t.size)
  }

  lemma ClaimPlaces(c: Config, p: State, i: nat)
    requires Claimable(c, p, i)
    ensures var q := Claim(c, p, i); PlacedFirst(c, p, q, p.tickets[i], q.tickets[i].hold)
  {
    hide PlacePrimary, PlaceSpecial, FirstFit, FirstFree;
    var t := p.tickets[i];
    var (q, hold) := Place(c, p, t);
    if t.area.Primary? {
      PlacePrimaryFirst(c, p, t.size);
      FitsAlike(p, q, Claim(c, p, i), hold, Needed(c, t.size), t.size);
    } else if t.area.Special? {
      PlaceSpecialFirst(p, t.size);
      FitsAlike(p, q, Claim(c, p, i), hold, 1, t.size);
    }
  }

  lemma FitsAlike(p: State, q: State, r: State, hold: Hold, n: nat, size: nat)
    requires r.blocks == q.blocks && r.specials == q.specials
    ensures FirstFit(p, q, hold, n) == FirstFit(p, r, hold, n)
    ensures FirstFree(p, q, hold, size) == FirstFree(p, r, hold, size)
  {
    hide HasRoom, HasFree, NoRoomBefore, FreeAt;
  }

  /** A claim keeps the invariant, and makes a block only where there is no room. */
  lemma ClaimCore(c: Config, p: State, i: nat)
    requires Core(c, p) && i < |p.tickets| && p.tickets[i].hold.Reserved?
    ensures Claimable(c, p, i) && Core(c, Claim(c, p, i))
    ensures PlacedFirst(c, p, Claim(c, p, i), p.tickets[i], Claim(c, p, i).tickets[i].hold)
    ensures var q := Claim(c, p, i);
            && q.pending == p.pending && q.served == p.served && q.arrivals == p.arrivals
            && Taken(c, p.usage) <= Taken(c, q.usage) && (NothingLapsed(q.tickets) <==> NothingLapsed(p.tickets))
  {
    hide MasksOk, AllocatedOk, BlocksOk, UsageOf, TicketCells, BlockCells, SpecialCells, Place, TicketOk, PlacedFirst;
    var t := p.tickets[i];
    assert TicketOk(c, p.sizes, t);
    TicketClaimable(c, p, i);
    ClaimPlaces(c, p, i);
    var (q, hold) := Place(c, p, t);
    PlacePlaced(c, p, t);
    ClaimMasks(c, p, q, i, t.(hold := hold));
    ClaimUsageOk(c, p, i, t.(hold := hold));
    SameBlocks(c, q, Claim(c, p, i));
    SameBlocks(c, q.(tickets := p.tickets[i := t.(hold := hold)]), Claim(c, p, i));
  }

  lemma TicketClaimable(c: Config, p: State, i: nat)
    requires i < |p.tickets| && p.tickets[i].hold.Reserved? && TicketOk(c, p.sizes, p.tickets[i])
    ensures Claimable(c, p, i)
  {
  }

  lemma SameBlocks(c: Config, p: State, q: State)
    requires p.blocks == q.blocks && p.specials == q.specials && p.nextId == q.nextId
    requires p.primaryAllocated == q.primaryAllocated && p.specialAllocated == q.specialAllocated
    ensures BlocksOk(p) == BlocksOk(q) && AllocatedOk(c, p) == AllocatedOk(c, q)
    ensures p.tickets == q.tickets ==> MasksOk(c, p) == MasksOk(c, q)
  {
  }
}
