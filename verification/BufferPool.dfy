/** The buffer pool as it is updated in place, each method proved against its step function. */
module BufferPool {
  import opened Arithmetic
  import opened ChunkMask
  import opened Pool
  import PoolSafety

  lemma {:induction false} BusyAppend(a: seq<Block>, b: seq<Block>)
    ensures BusyBlocks(a + b) == BusyBlocks(a) + BusyBlocks(b)
  {
    if a == [] {
      assert a + b == b;
    } else {
      assert (a + b)[1..] == a[1..] + b;
      BusyAppend(a[1..], b);
    }
  }

  lemma {:induction false} AllBusy(a: seq<Block>)
    requires forall i :: 0 <= i < |a| ==> a[i].mask != 0
    ensures BusyBlocks(a) == a
  {
    if a != [] {
      AllBusy(a[1..]);
      assert [a[0]] + a[1..] == a;
    }
  }

  lemma DropFree(front: seq<Block>, free: Block, back: seq<Block>)
    requires free.mask == 0
    ensures BusyBlocks(front + ([free] + back)) == BusyBlocks(front + back)
  {
    BusyAppend(front, back);
    BusyAppend(front, [free] + back);
    assert ([free] + back)[1..] == back;
    assert BusyBlocks([free] + back) == [] + BusyBlocks(back);
  }

  /** Erasing a free block leaves the busy ones. */
  lemma EraseBlock(a: seq<Block>, i: nat)
    requires i < |a| && a[i].mask == 0
    ensures BusyBlocks(a[..i] + a[i + 1..]) == BusyBlocks(a)
  {
    hide BusyBlocks;
    assert a == a[..i] + ([a[i]] + a[i + 1..]);
    DropFree(a[..i], a[i], a[i + 1..]);
  }

  lemma {:induction false} BusySpecialsAppend(a: seq<SpecialBlock>, b: seq<SpecialBlock>)
    ensures BusySpecials(a + b) == BusySpecials(a) + BusySpecials(b)
    ensures SpecialBytes(a + b) == SpecialBytes(a) + SpecialBytes(b)
  {
    if a == [] {
      assert a + b == b;
    } else {
      assert (a + b)[1..] == a[1..] + b;
      BusySpecialsAppend(a[1..], b);
    }
  }

  lemma {:induction false} AllSpecialsBusy(a: seq<SpecialBlock>)
    requires forall i :: 0 <= i < |a| ==> a[i].mask != 0
    ensures BusySpecials(a) == a
  {
    if a != [] {
      AllSpecialsBusy(a[1..]);
      assert [a[0]] + a[1..] == a;
    }
  }

  lemma DropFreeSpecial(front: seq<SpecialBlock>, free: SpecialBlock, back: seq<SpecialBlock>)
    requires free.mask == 0
    ensures BusySpecials(front + ([free] + back)) == BusySpecials(front + back)
    ensures SpecialBytes(front + ([free] + back)) == SpecialBytes(front + back) + free.size
  {
    BusySpecialsAppend(front, back);
    BusySpecialsAppend(front, [free] + back);
    assert ([free] + back)[1..] == back;
    assert BusySpecials([free] + back) == [] + BusySpecials(back);
  }

  lemma EraseSpecial(a: seq<SpecialBlock>, i: nat)
    requires i < |a| && a[i].mask == 0
    ensures BusySpecials(a[..i] + a[i + 1..]) == BusySpecials(a)
    ensures SpecialBytes(a[..i] + a[i + 1..]) == SpecialBytes(a) - a[i].size
  {
    hide BusySpecials, SpecialBytes;
    assert a == a[..i] + ([a[i]] + a[i + 1..]);
    DropFreeSpecial(a[..i], a[i], a[i + 1..]);
  }

  class DefaultPool {
    const config: Config
    var blocks: seq<Block>
    var primaryAllocated: int
    var sizes: set<nat>
    var specials: seq<SpecialBlock>
    var specialAllocated: int
    var nextId: nat
    var usage: Usage
    var tickets: seq<Ticket>
    var pending: seq<Waiter>
    var cancelled: set<nat>
    var arrivals: nat
    var served: seq<nat>

    function Model(): State
      reads this
    {
      State(blocks, primaryAllocated, sizes, specials, specialAllocated, nextId, usage, tickets, pending, cancelled,
            arrivals, served)
    }

    constructor (config: Config)
      ensures this.config == config && Model() == EMPTY
    {
      this.config := config;
      blocks, primaryAllocated, sizes, specials, specialAllocated, nextId := [], 0, {}, [], 0, 0;
      usage, tickets, pending, cancelled, arrivals, served := NOTHING, [], [], {}, 0, [];
    }

    method TrimPrimaryBlocks()
      modifies this`blocks, this`primaryAllocated
      ensures Model() == TrimPrimary(config, old(Model()))
    {
      var i := 0;
      while i < |blocks|
        invariant i <= |blocks| <= old(|blocks|)
        invariant BusyBlocks(blocks) == BusyBlocks(old(blocks))
        invariant forall j :: 0 <= j < i ==> blocks[j].mask != 0
        invariant primaryAllocated == old(primaryAllocated) - config.BlockSize() * (old(|blocks|) - |blocks|)
        decreases |blocks| - i
      {
        if blocks[i].mask == 0 {
          EraseBlock(blocks, i);
          DistributeSum(old(|blocks|) - |blocks|, 1, config.BlockSize());
          primaryAllocated := primaryAllocated - config.BlockSize();
          blocks := blocks[..i] + blocks[i + 1..];
        } else {
          i := i + 1;
        }
      }
      AllBusy(blocks);
    }

    method TrimSpecialBlocks()
      modifies this`specials, this`specialAllocated, this`sizes
      ensures Model() == TrimSpecials(config, old(Model()))
    {
      var i := 0;
      while i < |specials|
        invariant i <= |specials|
        invariant BusySpecials(specials) == BusySpecials(old(specials)) && sizes == old(sizes)
        invariant forall j :: 0 <= j < i ==> specials[j].mask != 0
        invariant specialAllocated == old(specialAllocated) - (SpecialBytes(old(specials)) - SpecialBytes(specials))
        decreases |specials| - i
      {
        if specials[i].mask == 0 {
          EraseSpecial(specials, i);
          specialAllocated := specialAllocated - specials[i].size;
          specials := specials[..i] + specials[i + 1..];
        } else {
          i := i + 1;
        }
      }
      AllSpecialsBusy(specials);
      assert specials == BusySpecials(old(specials));
      if usage.specialReserved == 0 && !config.keepSpecial {
        sizes := sizes * SizesIn(specials);
      }
    }

    method TrimAll()
      modifies this`blocks, this`primaryAllocated, this`specials, this`specialAllocated, this`sizes
      ensures Model() == Trim(config, old(Model()))
    {
      hide TrimPrimary, TrimSpecials;
      TrimPrimaryBlocks();
      TrimSpecialBlocks();
    }

    /** `s_try_reserve_synced`. */
    method TryReserveTicket(size: nat) returns (granted: bool)
      modifies this`blocks, this`primaryAllocated, this`specials, this`specialAllocated, this`sizes
      modifies this`usage, this`tickets
      ensures granted == Granted(config, old(Model()), size)
      ensures Model() == TryReserve(config, old(Model()), size)
    {
      hide ShouldTrim, Trim, AreaFor, Fits;
      if ShouldTrim(config, Model(), size) {
        TrimAll();
      }
      assert Model() == Prepared(config, old(Model()), size);
      granted := Fits(config, usage, size);
      if granted {
        GrantTicket(size);
      }
    }

    method GrantTicket(size: nat)
      modifies this`usage, this`tickets
      ensures Model() == Grant(config, old(Model()), size)
    {
      hide AreaFor, AddReserved;
      var area := AreaFor(config, Model(), size);
      usage := AddReserved(usage, area, size);
      tickets := tickets + [Ticket(size, area, false, Reserved)];
    }

    /** `aws_s3_default_buffer_pool_reserve`; false when the size can never be satisfied. */
    method ReserveTicket(size: nat, canBlock: bool) returns (ok: bool)
      modifies this
      ensures ok == (size <= config.limit)
      ensures Model() == Reserve(config, old(Model()), size, canBlock)
    {
      hide TryReserve, Granted, ForcedArea;
      if size > config.limit {
        return false;
      }
      ok := true;
      if canBlock {
        tickets := tickets + [Ticket(size, ForcedArea(config, size), true, Reserved)];
      } else {
        var granted := TryReserveTicket(size);
        if !granted {
          Park(size);
        }
      }
    }

    method Park(size: nat)
      modifies this`pending, this`arrivals
      ensures Model() == old(Model()).(
                           pending := old(pending) + [Waiter(old(arrivals), size)], arrivals := old(arrivals) + 1)
    {
      pending := pending + [Waiter(arrivals, size)];
      arrivals := arrivals + 1;
    }

    /** The search of the existing blocks for `n` adjacent free chunks. */
    method SearchBlocks(n: nat) returns (s: Spot)
      requires 1 <= n <= 4
      ensures s == FindSpot(blocks, n, 0)
      ensures s.Nowhere? <==> !HasRoom(blocks, n)
      ensures s.Spot? ==>
                && s.index < |blocks| && FreeAt(blocks[s.index].mask, s.first, n)
                && NoRoomBefore(blocks, n, 0, s.index, s.first)
    {
      hide CheckBits, FreeAt, FindSpot;
      FindSpotFirst(blocks, n, 0);
      s := ScanBlocks(n);
    }

    method ScanBlocks(n: nat) returns (s: Spot)
      requires 1 <= n <= 4
      ensures s == FindSpot(blocks, n, 0)
    {
      hide CheckBits;
      var i := 0;
      while i < |blocks|
        invariant i <= |blocks|
        invariant FindSpot(blocks, n, i) == FindSpot(blocks, n, 0)
      {
        var chunk := 0;
        while chunk < CHUNKS_PER_BLOCK - n + 1
          invariant chunk <= CHUNKS_PER_BLOCK - n + 1
          invariant FreeRun(blocks[i].mask, n, chunk) == FreeRun(blocks[i].mask, n, 0)
        {
          if !CheckBits(blocks[i].mask, chunk, n) {
            return Spot(i, chunk);
          }
          chunk := chunk + 1;
        }
        i := i + 1;
      }
      return Nowhere;
    }

    /** `s_primary_acquire_synced`, up to the counters. */
    method AcquirePrimary(size: nat) returns (hold: Hold)
      requires PrimarySize(config, size)
      modifies this`blocks, this`nextId, this`primaryAllocated
      ensures (Model(), hold) == PlacePrimary(config, old(Model()), size)
      ensures PoolSafety.FirstFit(old(Model()), Model(), hold, PoolSafety.Needed(config, size))
    {
      hide FindSpot, SetBits, CheckBits, ChunksNeeded, FreeAt, PoolSafety.FirstFit, PlacePrimary;
      PoolSafety.PlacePrimaryFirst(config, Model(), size);
      hold := PlaceChunks(size);
    }

    method PlaceChunks(size: nat) returns (hold: Hold)
      requires PrimarySize(config, size)
      modifies this`blocks, this`nextId, this`primaryAllocated
      ensures (Model(), hold) == PlacePrimary(config, old(Model()), size)
    {
      hide FindSpot, SetBits, CheckBits, ChunksNeeded, FreeAt, NoRoomBefore, HasRoom;
      ChunksNeededBounds(config, size);
      var n := ChunksNeeded(config, size);
      var s := SearchBlocks(n);
      if s.Spot? {
        var b := blocks[s.index];
        blocks := blocks[s.index := b.(mask := SetBits(b.mask, s.first, n))];
        return Chunks(b.id, s.first);
      }
      blocks := blocks + [Block(nextId, SetBits(0, 0, n))];
      hold := Chunks(nextId, 0);
      nextId := nextId + 1;
      primaryAllocated := primaryAllocated + config.BlockSize();
    }

    method AcquireSpecial(size: nat) returns (hold: Hold)
      modifies this`specials, this`nextId, this`specialAllocated
      ensures (Model(), hold) == PlaceSpecial(old(Model()), size)
      ensures PoolSafety.FirstFree(old(Model()), Model(), hold, size)
    {
      hide PoolSafety.FirstFree;
      PoolSafety.PlaceSpecialFirst(Model(), size);
      var i := 0;
      while i < |specials|
        invariant i <= |specials|
        invariant FreeSpecial(specials, size, i) == FreeSpecial(specials, size, 0)
      {
        if specials[i].size == size && specials[i].mask == 0 {
          hold := Whole(specials[i].id);
          specials := specials[i := specials[i].(mask := FULL)];
          return;
        }
        i := i + 1;
      }
      hold := NewSpecial(size);
    }

    method NewSpecial(size: nat) returns (hold: Hold)
      modifies this`specials, this`nextId, this`specialAllocated
      ensures hold == Whole(old(nextId))
      ensures Model() == old(Model()).(specials := old(specials) + [SpecialBlock(size, old(nextId), FULL)],
                                       nextId := old(nextId) + 1, specialAllocated := old(specialAllocated) + size)
    {
      hold := Whole(nextId);
      specials := specials + [SpecialBlock(size, nextId, FULL)];
      nextId := nextId + 1;
      specialAllocated := specialAllocated + size;
    }

    /** `s_acquire_buffer_synced`. */
    method ClaimTicket(i: nat)
      requires Claimable(config, Model(), i)
      modifies this
      ensures Model() == Claim(config, old(Model()), i)
    {
      hide PlacePrimary, PlaceSpecial, ClaimUsage;
      var t := tickets[i];
      var hold := Acquire(t);
      usage := ClaimUsage(usage, t);
      tickets := tickets[i := t.(hold := hold)];
    }

    method Acquire(t: Ticket) returns (hold: Hold)
      requires t.area.Primary? ==> PrimarySize(config, t.size)
      modifies this`blocks, this`nextId, this`primaryAllocated, this`specials, this`specialAllocated
      ensures (Model(), hold) == Place(config, old(Model()), t)
    {
      hide PlacePrimary, PlaceSpecial;
      match t.area
      case Primary => hold := AcquirePrimary(t.size);
      case Secondary => hold := Heap;
      case Special => hold := AcquireSpecial(t.size);
    }

    method FindBlock(id: nat) returns (k: nat)
      ensures k == BlockIndex(blocks, id)
    {
      k := 0;
      while k < |blocks|
        invariant k <= |blocks|
        invariant BlockIndex(blocks, id) == k + BlockIndex(blocks[k..], id)
      {
        if blocks[k].id == id {
          return;
        }
        assert blocks[k..][1..] == blocks[k + 1..];
        k := k + 1;
      }
    }

    method FindSpecial(size: nat, id: nat) returns (k: nat)
      ensures k == SpecialIndex(specials, size, id)
    {
      k := 0;
      while k < |specials|
        invariant k <= |specials|
        invariant SpecialIndex(specials, size, id) == k + SpecialIndex(specials[k..], size, id)
      {
        if specials[k] == SpecialBlock(size, id, FULL) {
          return;
        }
        assert specials[k..][1..] == specials[k + 1..];
        k := k + 1;
      }
    }

    method ReleasePrimary(t: Ticket)
      requires PrimarySize(config, t.size) && t.hold.Chunks?
      modifies this`blocks, this`usage
      ensures Model() == FreePrimary(config, old(Model()), t)
    {
      hide BlockIndex, ClearBits, ChunksNeeded, ReleaseUsage;
      ChunksNeededBounds(config, t.size);
      var n := ChunksNeeded(config, t.size);
      var k := FindBlock(t.hold.block);
      if k < |blocks| && t.hold.first + n <= CHUNKS_PER_BLOCK {
        blocks := blocks[k := blocks[k].(mask := ClearBits(blocks[k].mask, t.hold.first, n))];
        usage := ReleaseUsage(usage, t);
      }
    }

    method ReleaseSpecial(t: Ticket)
      requires t.hold.Whole?
      modifies this`specials, this`usage
      ensures Model() == FreeSpecialBlock(old(Model()), t)
    {
      hide SpecialIndex, ReleaseUsage;
      if t.size in sizes {
        var k := FindSpecial(t.size, t.hold.id);
        if k < |specials| {
          specials := specials[k := specials[k].(mask := 0)];
          usage := ReleaseUsage(usage, t);
        }
      }
    }

    /** The first half of `s_aws_ticket_wrapper_destroy`: the ticket's memory goes back. */
    method GiveBackTicket(i: nat)
      requires Releasable(config, Model(), i)
      modifies this`blocks, this`specials, this`usage, this`tickets
      ensures Model() == GiveBack(config, old(Model()), i)
    {
      hide FreePrimary, FreeSpecialBlock, AddReserved, ReleaseUsage;
      var t := tickets[i];
      ReturnMemory(t, i);
      tickets := tickets[i := Finished(t)];
    }

    method ReturnMemory(t: Ticket, ghost i: nat)
      requires Releasable(config, Model(), i) && t == tickets[i]
      modifies this`blocks, this`specials, this`usage
      ensures Model() == Returned(config, old(Model()), i)
    {
      hide FreePrimary, FreeSpecialBlock, AddReserved, ReleaseUsage;
      match t.hold
      case Reserved => usage := AddReserved(usage, t.area, 0 - t.size);
      case Chunks(_, _) => ReleasePrimary(t);
      case Heap => usage := ReleaseUsage(usage, t);
      case Whole(_) => ReleaseSpecial(t);
    }

    /** Waiters whose future was cancelled leave the queue. */
    method DropCancelled()
      modifies this`pending
      ensures Model() == old(Model()).(pending := Uncancelled(old(pending), cancelled))
    {
      hide Uncancelled;
      var kept: seq<Waiter> := [];
      var i := 0;
      UncancelledNone(pending, cancelled);
      while i < |pending|
        invariant i <= |pending| && pending == old(pending)
        invariant kept + Uncancelled(pending[i..], cancelled) == Uncancelled(pending, cancelled)
      {
        UncancelledStep(pending, cancelled, i, kept);
        if pending[i].id !in cancelled {
          kept := kept + [pending[i]];
        }
        i := i + 1;
      }
      UncancelledNone(pending, cancelled);
      assert kept + [] == kept;
      pending := kept;
    }

    /** Grant parked reservations from the front until one does not fit. */
    method CompletePending()
      modifies this
      ensures Model() == GrantPending(config, old(Model()))
    {
      hide TryReserve, Granted;
      while |pending| > 0
        invariant GrantPending(config, Model()) == GrantPending(config, old(Model()))
        decreases |pending|
      {
        var w := pending[0];
        ghost var before := Model();
        var granted := TryReserveTicket(w.size);
        if !granted {
          GrantPendingBlocked(config, before);
          return;
        }
        Serve();
      }
    }

    method Serve()
      requires pending != []
      modifies this`pending, this`served
      ensures Model() == old(Model()).(pending := old(pending)[1..], served := old(served) + [old(pending)[0].id])
    {
      served := served + [pending[0].id];
      pending := pending[1..];
    }

    /** `s_aws_ticket_wrapper_destroy`. */
    method ReleaseTicket(i: nat)
      requires Releasable(config, Model(), i)
      modifies this
      ensures Model() == Release(config, old(Model()), i)
    {
      hide GiveBack, GrantPending;
      GiveBackTicket(i);
      DropCancelled();
      CompletePending();
    }

    method RegisterSpecialSize(size: nat)
      modifies this`sizes
      ensures Model() == AddSpecialSize(config, old(Model()), size)
    {
      if size > config.Cutoff() && size !in sizes {
        sizes := sizes + {size};
      }
    }
  }

  lemma UncancelledNone(ws: seq<Waiter>, cancelled: set<nat>)
    ensures Uncancelled(ws[|ws|..], cancelled) == []
    ensures [] + Uncancelled(ws[0..], cancelled) == Uncancelled(ws, cancelled)
  {
    assert ws[0..] == ws;
  }

  lemma UncancelledStep(ws: seq<Waiter>, cancelled: set<nat>, i: nat, kept: seq<Waiter>)
    requires i < |ws|
    ensures kept + Uncancelled(ws[i..], cancelled) ==
            kept + (if ws[i].id in cancelled then [] else [ws[i]]) + Uncancelled(ws[i + 1..], cancelled)
  {
    assert ws[i..][1..] == ws[i + 1..];
  }

  lemma GrantPendingBlocked(c: Config, p: State)
    requires p.pending != [] && !Granted(c, p, p.pending[0].size)
    ensures GrantPending(c, p) == TryReserve(c, p, p.pending[0].size)
    ensures TryReserve(c, p, p.pending[0].size).pending == p.pending
  {
  }
}
