/** What the pool decides, told by sizes and tickets: which reservations are granted and from which area, what is
    trimmed and when, which sizes are special, and what becomes of a reservation that waits. */
module PoolPolicy {
  import opened ChunkMask
  import opened Pool
  import opened PoolMemory
  import opened PoolAccounts
  import opened PoolSafety
  import opened PoolRelease
  import opened PoolRuns

  // ----- What is taken -----

  /** The bytes of the tickets that count against the limit: forced ones count once they are claimed. */
  function BytesIn(ts: seq<Ticket>, area: Area): nat {
    if ts == [] then 0
    else BytesIn(ts[..|ts| - 1], area) + if ts[|ts| - 1].area == area then Charge(ts[|ts| - 1]) else 0
  }

  function Charge(t: Ticket): nat {
    if t.Claimed() || (t.hold.Reserved? && !t.forced) then t.size else 0
  }

  function ForcedBytes(ts: seq<Ticket>): nat {
    if ts == [] then 0
    else ForcedBytes(ts[..|ts| - 1]) + if ts[|ts| - 1].forced then Charge(ts[|ts| - 1]) else 0
  }

  function AllBytes(ts: seq<Ticket>): nat {
    BytesIn(ts, Primary) + BytesIn(ts, Secondary) + BytesIn(ts, Special)
  }

  /** Forced buffers weigh in with at most the cap. */
  function Counted(c: Config, ts: seq<Ticket>): int {
    AllBytes(ts) - ForcedBytes(ts) + if ForcedBytes(ts) > c.forcedCap then c.forcedCap else ForcedBytes(ts)
  }

  lemma {:induction false} UsageIsBytes(ts: seq<Ticket>)
    requires NothingLapsed(ts)
    ensures var u := UsageOf(ts);
            && u.primaryUsed + u.primaryReserved == BytesIn(ts, Primary)
            && u.secondaryUsed + u.secondaryReserved == BytesIn(ts, Secondary)
            && u.specialUsed + u.specialReserved == BytesIn(ts, Special)
            && u.forcedUsed == ForcedBytes(ts)
  {
    if ts != [] {
      UsageIsBytes(ts[..|ts| - 1]);
    }
  }

  lemma TakenIsCounted(c: Config, p: State)
    requires Core(c, p) && NothingLapsed(p.tickets)
    ensures p.usage.Overall() == AllBytes(p.tickets) && Taken(c, p.usage) == Counted(c, p.tickets) >= 0
    ensures p.usage.primaryUsed + p.usage.primaryReserved == BytesIn(p.tickets, Primary)
    ensures p.usage.specialUsed + p.usage.specialReserved == BytesIn(p.tickets, Special)
    ensures NonNegative(p.usage)
  {
    hide TicketsOk, BlocksOk, MasksOk, AllocatedOk, UsageOf, BytesIn, ForcedBytes;
    UsageIsBytes(p.tickets);
    UsageNonNegative(p.tickets);
  }

  // ----- Counters as words -----

  const WORD: nat := 0x1_0000_0000_0000_0000

  /** The unsigned word that a counter is kept in. */
  function Word(n: int): nat {
    n % WORD
  }

  predicate Small(n: int) {
    -(WORD / 2) <= n < WORD / 2
  }

  /** The comparisons read counters below zero as the words they have wrapped to: greater is greater as a word, a
      saturating difference is that of words, and the checked sum asks for trimming exactly if it does not overflow and
      reaches the limit. */
  lemma CountersAsWords(c: Config, a: int, b: int, size: nat)
    requires Small(a) && Small(b) && Small(size) && Small(c.limit)
    ensures b >= 0 ==> (Exceeds(a, b) <==> Word(a) > Word(b))
    ensures a >= 0 ==> SaturatingSub(a, b) == if Word(b) > Word(a) then 0 else Word(a) - Word(b)
    ensures NeedsMore(c, a, size) <==> Word(a) + size < WORD && Word(a) + size >= c.limit
  {
    WordOf(a);
    WordOf(b);
    hide Word;
  }

  lemma WordOf(n: int)
    requires Small(n)
    ensures Word(n) == if n < 0 then n + WORD else n
  {
    if n < 0 {
      assert n == -1 * WORD + (n + WORD);
    } else {
      assert n == 0 * WORD + n;
    }
  }

  // ----- Reserving -----

  /** Is there room for the reservation? */
  predicate Room(c: Config, p: State, size: nat) {
    Counted(c, p.tickets) + size <= c.limit
  }

  /** The bytes of the blocks that no ticket needs, by the counters. */
  function Idle(made: int, needed: nat): nat {
    if made > needed then made - needed else 0
  }

  /** Large reservations of no registered size call for trimming when they reach the limit and the blocks hold enough
      that is idle. */
  predicate Trims(c: Config, p: State, size: nat) {
    && size !in p.sizes && size > 4 * c.chunkSize
    && AllBytes(p.tickets) + size >= c.limit
    && Idle(16 * c.chunkSize * |p.blocks|, BytesIn(p.tickets, Primary))
       + Idle(SpecialBytes(p.specials), BytesIn(p.tickets, Special)) >= size
  }

  lemma TrimsWhen(c: Config, p: State, size: nat)
    requires Core(c, p) && NothingLapsed(p.tickets)
    ensures ShouldTrim(c, p, size) <==> Trims(c, p, size)
  {
    hide Core, BytesIn, SpecialBytes;
    TakenIsCounted(c, p);
    AllocatedBytes(c, p);
  }

  lemma AllocatedBytes(c: Config, p: State)
    requires Core(c, p)
    ensures p.primaryAllocated == 16 * c.chunkSize * |p.blocks| >= 0
    ensures p.specialAllocated == SpecialBytes(p.specials)
  {
    hide TicketsOk, BlocksOk, MasksOk, UsageOk, SpecialBytes;
  }

  /** Registered sizes come from their list. Others come from the chunks if they are larger than the lower cutoff and
      at most four chunks, and the blocks there are or one more block will do; else from the heap. */
  function AreaGiven(c: Config, p: State, size: nat): Area {
    if size in p.sizes then Special
    else if c.minCutoff < size <= 4 * c.chunkSize
            && (|| BytesIn(p.tickets, Primary) + size <= 16 * c.chunkSize * |p.blocks|
                || Counted(c, p.tickets) + 16 * c.chunkSize <= c.limit) then Primary
    else Secondary
  }

  lemma AreaIsGiven(c: Config, p: State, size: nat)
    requires Core(c, p) && NothingLapsed(p.tickets)
    ensures AreaFor(c, p, size) == AreaGiven(c, p, size)
  {
    hide Core, BytesIn, ForcedBytes;
    TakenIsCounted(c, p);
    AllocatedBytes(c, p);
  }

  lemma TrimSameArea(c: Config, p: State, size: nat)
    requires Core(c, p) && NothingLapsed(p.tickets)
    ensures AreaFor(c, Prepared(c, p, size), size) == AreaGiven(c, p, size)
  {
    hide Core, BytesIn, ForcedBytes, Counted;
    if ShouldTrim(c, p, size) {
      TrimSizes(c, p);
    } else {
      AreaIsGiven(c, p, size);
    }
  }

  lemma TrimSizes(c: Config, p: State)
    ensures Trim(c, p).sizes <= p.sizes
  {
  }

  /** What a reservation comes to. One above the limit fails. A forced one gets its ticket at once. Any other gets
      one, from the area its size calls for, if what counts as taken leaves room; else it is parked behind those that
      wait. */
  predicate Decided(c: Config, p: State, size: nat, forced: bool, q: State) {
    if size > c.limit then q == p
    else if forced then
      q == p.(tickets := p.tickets + [Ticket(size, ForcedArea(c, size), true, Reserved)])
    else
      && (Trims(c, p, size) || (q.blocks == p.blocks && q.specials == p.specials && q.sizes == p.sizes))
      && (Trims(c, p, size) ==> q.blocks == Trim(c, p).blocks && q.specials == Trim(c, p).specials)
      && (if Room(c, p, size) then
            q.pending == p.pending && q.tickets == p.tickets + [Ticket(size, AreaGiven(c, p, size), false, Reserved)]
          else
            q.tickets == p.tickets && q.pending == p.pending + [Waiter(p.arrivals, size)])
  }

  /** Every reservation made after any run is decided so, unless a forced ticket was released unclaimed. */
  lemma ReserveDecides(c: Config, actions: seq<Action>, size: nat, forced: bool)
    requires IsRun(c, EMPTY, actions) && size > 0
    ensures var p := After(c, EMPTY, actions);
            NothingLapsed(p.tickets) ==> Decided(c, p, size, forced, Reserve(c, p, size, forced))
  {
    hide IsRun, After, Inv, Core, Decided, Reserve;
    ReachedInv(c, actions);
    var p := After(c, EMPTY, actions);
    if NothingLapsed(p.tickets) {
      InvCore(c, p);
      Decides(c, p, size, forced);
    }
  }

  lemma InvCore(c: Config, p: State)
    requires Inv(c, p)
    ensures Core(c, p)
  {
    hide Core;
  }

  lemma Decides(c: Config, p: State, size: nat, forced: bool)
    requires Core(c, p) && NothingLapsed(p.tickets) && size > 0
    ensures Decided(c, p, size, forced, Reserve(c, p, size, forced))
  {
    hide Core, BytesIn, ForcedBytes, Counted, AreaGiven, AreaFor, ShouldTrim, Trims, Taken, Trim;
    TakenIsCounted(c, p);
    TrimsWhen(c, p, size);
    TrimSameArea(c, p, size);
    PreparedCore(c, p, size);
  }

  /** Forced and ordinary buffers disagree about the lower cutoff itself, and only there. */
  lemma ForcedAreaAgrees(c: Config, p: State, size: nat)
    requires size !in p.sizes && !(AreaFor(c, p, size).Secondary? && c.minCutoff < size <= 4 * c.chunkSize)
    ensures AreaFor(c, p, size) == ForcedArea(c, size) <==> size != c.minCutoff || size > 4 * c.chunkSize
  {
  }

  // ----- Trimming -----

  lemma NonZeroHasCell(mask: bv16)
    requires mask != 0
    ensures Cells(mask) != {}
  {
    var k := SomeBit(mask);
    assert k in Run(0, 16);
    assert k in Cells(mask);
  }

  lemma SomeBit(mask: bv16) returns (k: nat)
    requires mask != 0
    ensures k < 16 && Bit(mask, k)
  {
    if mask & 0x00FF != 0 {
      k := if mask & 1 != 0 then 0 else if mask & 2 != 0 then 1 else if mask & 4 != 0 then 2
           else if mask & 8 != 0 then 3 else if mask & 16 != 0 then 4 else if mask & 32 != 0 then 5
           else if mask & 64 != 0 then 6 else 7;
    } else {
      k := if mask & 256 != 0 then 8 else if mask & 512 != 0 then 9 else if mask & 1024 != 0 then 10
           else if mask & 2048 != 0 then 11 else if mask & 4096 != 0 then 12 else if mask & 8192 != 0 then 13
           else if mask & 16384 != 0 then 14 else 15;
    }
  }

  /** A block kept by trimming has a chunk in use. */
  lemma {:induction false} BusyHasCell(blocks: seq<Block>, id: nat) returns (chunk: nat)
    requires id in Ids(BusyBlocks(blocks))
    ensures (id, chunk) in BlockCells(blocks)
  {
    hide Cells;
    var rest := BusyBlocks(blocks[1..]);
    if blocks[0].mask != 0 && blocks[0].id == id {
      NonZeroHasCell(blocks[0].mask);
      chunk :| chunk in Cells(blocks[0].mask);
    } else {
      assert ([blocks[0]] + rest)[1..] == rest && [] + rest == rest;
      chunk := BusyHasCell(blocks[1..], id);
    }
  }

  lemma {:induction false} BusyHasSpecial(specials: seq<SpecialBlock>, id: nat) returns (size: nat)
    requires id in SpecialIds(BusySpecials(specials))
    ensures (id, size) in SpecialCells(specials)
  {
    var rest := BusySpecials(specials[1..]);
    if specials[0].mask != 0 && specials[0].id == id {
      size := specials[0].size;
    } else {
      assert ([specials[0]] + rest)[1..] == rest && [] + rest == rest;
      size := BusyHasSpecial(specials[1..], id);
    }
  }

  lemma {:induction false} BusyHasSize(specials: seq<SpecialBlock>, size: nat) returns (id: nat)
    requires size in SizesIn(BusySpecials(specials))
    ensures (id, size) in SpecialCells(specials)
  {
    var rest := BusySpecials(specials[1..]);
    if specials[0].mask != 0 && specials[0].size == size {
      id := specials[0].id;
    } else {
      assert ([specials[0]] + rest)[1..] == rest && [] + rest == rest;
      id := BusyHasSize(specials[1..], size);
    }
  }

  lemma {:induction false} Owner(c: Config, ts: seq<Ticket>, special: bool, x: (nat, nat)) returns (i: nat)
    requires x in Owned(c, ts, special)
    ensures i < |ts| && x in TicketCells(c, ts[i], special)
  {
    if x in TicketCells(c, ts[|ts| - 1], special) {
      i := |ts| - 1;
    } else {
      i := Owner(c, ts[..|ts| - 1], special, x);
    }
  }

  predicate HoldsBlock(ts: seq<Ticket>, id: nat) {
    exists i :: 0 <= i < |ts| && ts[i].hold.Chunks? && ts[i].hold.block == id
  }

  predicate HoldsSpecial(ts: seq<Ticket>, id: nat) {
    exists i :: 0 <= i < |ts| && ts[i].hold == Whole(id)
  }

  predicate HoldsSize(ts: seq<Ticket>, size: nat) {
    exists i :: 0 <= i < |ts| && ts[i].hold.Whole? && ts[i].size == size
  }

  predicate AwaitsSpecial(ts: seq<Ticket>) {
    exists i :: 0 <= i < |ts| && WaitsSpecial(ts[i])
  }

  lemma TrimmedBlock(c: Config, p: State, id: nat)
    requires Core(c, p)
    ensures id in Ids(Trim(c, p).blocks) <==> HoldsBlock(p.tickets, id)
  {
    hide Cells, Owned, NoOverlap, UsageOf, BlockCells, SpecialCells, Ids, SpecialIds, SpecialsOk, DistinctIds,
         BusyBlocks, TicketsOk, Pairs;
    if id in Ids(BusyBlocks(p.blocks)) {
      var chunk := BusyHasCell(p.blocks, id);
      var i := Owner(c, p.tickets, false, (id, chunk));
      HeldBy(c, p.tickets[i], id, chunk);
    }
    if i :| 0 <= i < |p.tickets| && p.tickets[i].hold.Chunks? && p.tickets[i].hold.block == id {
      TrimKeepsTicket(c, p, i);
    }
  }

  lemma HeldBy(c: Config, t: Ticket, id: nat, chunk: nat)
    requires (id, chunk) in TicketCells(c, t, false)
    ensures t.hold.Chunks? && t.hold.block == id
  {
  }

  lemma TrimmedSpecial(c: Config, p: State, id: nat)
    requires Core(c, p)
    ensures id in SpecialIds(Trim(c, p).specials) <==> HoldsSpecial(p.tickets, id)
  {
    hide Owned, NoOverlap, UsageOf, BlockCells, SpecialCells, Ids, SpecialIds, SpecialsOk, DistinctIds,
         BusySpecials, TicketsOk, Core;
    CoreSpecials(c, p);
    if id in SpecialIds(BusySpecials(p.specials)) {
      var size := BusyHasSpecial(p.specials, id);
      var i := Owner(c, p.tickets, true, (id, size));
    }
    if i :| 0 <= i < |p.tickets| && p.tickets[i].hold == Whole(id) {
      TrimKeepsTicket(c, p, i);
      SpecialCellsLive(Trim(c, p).specials);
    }
  }

  lemma CoreSpecials(c: Config, p: State)
    requires Core(c, p)
    ensures Owned(c, p.tickets, true) == SpecialCells(p.specials)
  {
    hide TicketsOk, BlocksOk, AllocatedOk, UsageOk, NoOverlap, Owned, SpecialCells, BlockCells;
  }

  predicate WaitsSpecial(t: Ticket) {
    t.area.Special? && t.hold.Reserved?
  }

  lemma AwaitsStep(ts: seq<Ticket>)
    requires ts != []
    ensures AwaitsSpecial(ts) <==> AwaitsSpecial(ts[..|ts| - 1]) || WaitsSpecial(ts[|ts| - 1])
  {
    var front := ts[..|ts| - 1];
    if i :| 0 <= i < |front| && WaitsSpecial(front[i]) {
      assert WaitsSpecial(ts[i]);
    }
    if i :| 0 <= i < |ts| && WaitsSpecial(ts[i]) && i < |ts| - 1 {
      assert WaitsSpecial(front[i]);
    }
  }

  /** Special memory is not forced, and no ticket is empty. */
  predicate SpecialTicketOk(t: Ticket) {
    t.size > 0 && (t.area.Special? ==> !t.forced && !t.hold.Lapsed?)
  }

  lemma SpecialShare(t: Ticket)
    requires SpecialTicketOk(t)
    ensures Weight(t).specialReserved == if WaitsSpecial(t) then t.size else 0
  {
  }

  lemma {:induction false} ReservedSpecials(ts: seq<Ticket>)
    requires forall i :: 0 <= i < |ts| ==> SpecialTicketOk(ts[i])
    ensures UsageOf(ts).specialReserved >= 0
    ensures UsageOf(ts).specialReserved == 0 <==> !AwaitsSpecial(ts)
  {
    hide AwaitsSpecial, WaitsSpecial, Weight;
    if ts == [] {
      NoneAwaits();
    } else {
      ReservedSpecials(ts[..|ts| - 1]);
      AwaitsStep(ts);
      SpecialShare(ts[|ts| - 1]);
    }
  }

  lemma NoneAwaits()
    ensures !AwaitsSpecial([])
  {
  }

  lemma SpecialReserve(c: Config, p: State)
    requires Core(c, p)
    ensures p.usage.specialReserved == 0 <==> !AwaitsSpecial(p.tickets)
  {
    hide BlocksOk, MasksOk, AllocatedOk, UsageOf;
    forall i | 0 <= i < |p.tickets| ensures SpecialTicketOk(p.tickets[i]) {
      assert TicketOk(c, p.sizes, p.tickets[i]);
    }
    ReservedSpecials(p.tickets);
  }

  lemma TrimmedSize(c: Config, p: State, size: nat)
    requires Core(c, p)
    ensures size in Trim(c, p).sizes <==>
            size in p.sizes && (c.keepSpecial || AwaitsSpecial(p.tickets) || HoldsSize(p.tickets, size))
  {
    hide Owned, NoOverlap, UsageOf, BlockCells, SpecialCells, Ids, SpecialIds, SpecialsOk, DistinctIds,
         BusySpecials, BusyBlocks, TicketsOk, Core, SizesIn;
    CoreSpecials(c, p);
    SpecialReserve(c, p);
    if size in SizesIn(BusySpecials(p.specials)) {
      var id := BusyHasSize(p.specials, size);
      var i := Owner(c, p.tickets, true, (id, size));
    }
    if i :| 0 <= i < |p.tickets| && p.tickets[i].hold.Whole? && p.tickets[i].size == size {
      SizeNeeded(c, p, i);
    }
  }

  lemma SizeNeeded(c: Config, p: State, i: nat)
    requires Core(c, p) && i < |p.tickets| && p.tickets[i].hold.Whole?
    ensures p.tickets[i].size in Trim(c, p).sizes
  {
    hide Core, Trim;
    TrimKeepsTicket(c, p, i);
    WholeIsSpecial(c, p, i);
  }

  lemma WholeIsSpecial(c: Config, p: State, i: nat)
    requires Core(c, p) && i < |p.tickets| && p.tickets[i].hold.Whole?
    ensures p.tickets[i].area.Special?
  {
    hide BlocksOk, MasksOk, AllocatedOk, UsageOk;
    assert TicketOk(c, p.sizes, p.tickets[i]);
  }

  /** Trimming after any run keeps exactly the blocks and special blocks in which some ticket has memory. A registered
      size survives it if lists are kept, or any special buffer is reserved, or one of the size is in use. */
  lemma TrimKeepsExactly(c: Config, actions: seq<Action>, id: nat, size: nat)
    requires IsRun(c, EMPTY, actions)
    ensures var p := After(c, EMPTY, actions);
            var q := Trim(c, p);
            && (id in Ids(q.blocks) <==> HoldsBlock(p.tickets, id))
            && (id in SpecialIds(q.specials) <==> HoldsSpecial(p.tickets, id))
            && (size in q.sizes <==>
                  size in p.sizes && (c.keepSpecial || AwaitsSpecial(p.tickets) || HoldsSize(p.tickets, size)))
            && q.tickets == p.tickets && q.pending == p.pending
  {
    hide IsRun, After, Inv, Core, HoldsBlock, HoldsSpecial, HoldsSize, AwaitsSpecial;
    ReachedInv(c, actions);
    var p := After(c, EMPTY, actions);
    InvCore(c, p);
    TrimmedBlock(c, p, id);
    TrimmedSpecial(c, p, id);
    TrimmedSize(c, p, size);
  }

  // ----- Waiting -----

  lemma {:induction false} IdsSplit(pending: seq<Waiter>, k: nat)
    requires k <= |pending|
    ensures WaiterIds(pending) == WaiterIds(pending[..k]) + WaiterIds(pending[k..])
  {
    if k == 0 {
      assert pending[..0] == [] && pending[0..] == pending;
    } else {
      IdsSplit(pending[1..], k - 1);
      assert pending[..k][1..] == pending[1..][..k - 1] && pending[1..][k - 1..] == pending[k..];
    }
  }

  /** The loop grants the first so many of those that wait, each with a ticket of its size. */
  ghost predicate GrantsFirst(p: State, r: State, k: nat) {
    && k <= |p.pending| && r.pending == p.pending[k..] && r.served == p.served + WaiterIds(p.pending[..k])
    && |r.tickets| == |p.tickets| + k && r.tickets[..|p.tickets|] == p.tickets
    && (forall j :: |p.tickets| <= j < |r.tickets| ==>
          r.tickets[j].size == p.pending[j - |p.tickets|].size && !r.tickets[j].forced && r.tickets[j].hold.Reserved?)
    && r.arrivals == p.arrivals && r.cancelled == p.cancelled
  }

  lemma TryReserveAdds(c: Config, p: State, size: nat)
    ensures var q := TryReserve(c, p, size);
            && q.pending == p.pending && q.served == p.served && q.arrivals == p.arrivals
            && q.cancelled == p.cancelled
            && q.tickets == p.tickets +
                 if Granted(c, p, size) then [Ticket(size, AreaFor(c, Prepared(c, p, size), size), false, Reserved)]
                 else []
  {
    hide ShouldTrim, AreaFor, Fits, AddReserved;
  }

  lemma GrantsOneMore(p: State, q: State, r: State, t: Ticket, k: nat)
    requires p.pending != [] && q.pending == p.pending[1..] && q.served == p.served + [p.pending[0].id]
    requires q.tickets == p.tickets + [t] && t.size == p.pending[0].size && !t.forced && t.hold.Reserved?
    requires q.arrivals == p.arrivals && q.cancelled == p.cancelled && GrantsFirst(q, r, k)
    ensures GrantsFirst(p, r, k + 1)
  {
    var n := |p.tickets|;
    assert p.pending[..k + 1][1..] == p.pending[1..][..k];
    assert r.tickets[..n + 1][..n] == r.tickets[..n] && r.tickets[n] == r.tickets[..n + 1][n] == t;
    forall j | n <= j < |r.tickets|
      ensures r.tickets[j].size == p.pending[j - n].size && !r.tickets[j].forced && r.tickets[j].hold.Reserved?
    {
      if j > n {
        assert q.pending[j - n - 1] == p.pending[j - n];
      }
    }
  }

  lemma {:induction false} GrantPendingGrants(c: Config, p: State)
    ensures var r := GrantPending(c, p);
            |r.pending| <= |p.pending| && GrantsFirst(p, r, |p.pending| - |r.pending|)
    decreases |p.pending|
  {
    hide TryReserve, Granted, GrantsFirst, AreaFor, Prepared;
    if p.pending == [] {
      GrantsNone(p, p);
    } else {
      var w := p.pending[0];
      var q := TryReserve(c, p, w.size);
      TryReserveAdds(c, p, w.size);
      if Granted(c, p, w.size) {
        var next := q.(pending := p.pending[1..], served := p.served + [w.id]);
        GrantPendingGrants(c, next);
        var r := GrantPending(c, next);
        GrantsOneMore(p, next, r, Ticket(w.size, AreaFor(c, Prepared(c, p, w.size), w.size), false, Reserved),
                      |next.pending| - |r.pending|);
      } else {
        GrantsNone(p, q);
      }
    }
  }

  lemma GrantsNone(p: State, q: State)
    requires q.pending == p.pending && q.served == p.served && q.arrivals == p.arrivals
    requires q.cancelled == p.cancelled && q.tickets == p.tickets
    ensures GrantsFirst(p, q, 0)
  {
    assert p.pending[..0] == [] && p.pending[0..] == p.pending;
  }

  lemma {:induction false} UncancelledHas(pending: seq<Waiter>, cancelled: set<nat>)
    ensures forall w :: w in Uncancelled(pending, cancelled) <==> w in pending && w.id !in cancelled
  {
    if pending != [] {
      UncancelledHas(pending[1..], cancelled);
    }
  }

  /** A release first drops those who gave up waiting, and only them. It then serves the others from the front, each
      with a ticket of its size, and stops when the next one does not fit. */
  lemma ReleaseServes(c: Config, actions: seq<Action>, i: nat)
    requires IsRun(c, EMPTY, actions) && Releasable(c, After(c, EMPTY, actions), i)
    ensures var p := After(c, EMPTY, actions);
            var kept := Uncancelled(p.pending, p.cancelled);
            var r := Release(c, p, i);
            && (forall w :: w in kept <==> w in p.pending && w.id !in p.cancelled)
            && |r.pending| <= |kept|
            && GrantsFirst(p.(pending := kept, tickets := p.tickets[i := Finished(p.tickets[i])]), r,
                           |kept| - |r.pending|)
            && (NothingLapsed(r.tickets) && r.pending != [] ==> !Room(c, r, r.pending[0].size))
  {
    hide IsRun, After, Inv, GrantsFirst, GrantPending, Finished, Releasable, Room;
    ReachedInv(c, actions);
    var p := After(c, EMPTY, actions);
    UncancelledHas(p.pending, p.cancelled);
    ReleaseGrants(c, p, i);
    ReleaseInv(c, p, i);
    BlockedHead(c, Release(c, p, i));
  }

  lemma BlockedHead(c: Config, p: State)
    requires Inv(c, p)
    ensures NothingLapsed(p.tickets) && p.pending != [] ==> !Room(c, p, p.pending[0].size)
  {
    hide Core, Taken, Counted;
    if NothingLapsed(p.tickets) {
      TakenIsCounted(c, p);
    }
  }

  lemma ReleaseGrants(c: Config, p: State, i: nat)
    requires Inv(c, p) && Releasable(c, p, i)
    ensures var kept := Uncancelled(p.pending, p.cancelled);
            var r := Release(c, p, i);
            && |r.pending| <= |kept|
            && GrantsFirst(p.(pending := kept, tickets := p.tickets[i := Finished(p.tickets[i])]), r,
                           |kept| - |r.pending|)
  {
    hide Core, GrantPending, Uncancelled, Inv, Finished;
    InvCore(c, p);
    GiveBackCore(c, p, i);
    var q := GiveBack(c, p, i);
    GrantPendingGrants(c, q.(pending := Uncancelled(p.pending, p.cancelled)));
  }

  /** Every reservation that was parked has been granted, waits, or was given up. */
  ghost predicate NoneLost(p: State) {
    forall id: nat :: id < p.arrivals ==> id in p.served || id in WaiterIds(p.pending) || id in p.cancelled
  }

  lemma {:induction false} IdsHave(pending: seq<Waiter>, id: nat)
    ensures id in WaiterIds(pending) <==> exists w :: w in pending && w.id == id
  {
    if pending != [] {
      IdsHave(pending[1..], id);
      if w :| w in pending && w.id == id {
        assert w == pending[0] || w in pending[1..];
      }
      if w :| w in pending[1..] && w.id == id {
        assert w in pending;
      }
      assert pending[0] in pending;
    }
  }

  lemma ReleaseLoses(c: Config, p: State, i: nat)
    requires Inv(c, p) && NoneLost(p) && Releasable(c, p, i)
    ensures NoneLost(Release(c, p, i))
  {
    hide Inv, Releasable, Finished, GrantPending, Uncancelled;
    var kept := Uncancelled(p.pending, p.cancelled);
    var r := Release(c, p, i);
    ReleaseGrants(c, p, i);
    UncancelledHas(p.pending, p.cancelled);
    IdsSplit(kept, |kept| - |r.pending|);
    forall id: nat | id < r.arrivals ensures id in r.served || id in WaiterIds(r.pending) || id in r.cancelled {
      IdsHave(p.pending, id);
      IdsHave(kept, id);
    }
  }

  lemma ReserveLoses(c: Config, p: State, size: nat, forced: bool)
    requires NoneLost(p)
    ensures NoneLost(Reserve(c, p, size, forced))
  {
    hide TryReserve, Granted, ForcedArea, AreaFor, Prepared;
    TryReserveAdds(c, p, size);
    IdsAppend(p.pending, Waiter(p.arrivals, size));
  }

  lemma StepLoses(c: Config, p: State, a: Action)
    requires Inv(c, p) && NoneLost(p) && Enabled(c, p, a)
    ensures NoneLost(Step(c, p, a))
  {
    hide Inv, Reserve, Release, BusyBlocks, BusySpecials;
    match a
    case DoReserve(size, forced) => ReserveLoses(c, p, size, forced);
    case DoRelease(i) => ReleaseLoses(c, p, i);
    case DoClaim(i) => ClaimSameQueue(c, p, i);
    case _ =>
  }

  lemma ClaimSameQueue(c: Config, p: State, i: nat)
    requires Inv(c, p) && Claimable(c, p, i)
    ensures var q := Claim(c, p, i);
            && q.pending == p.pending && q.served == p.served && q.arrivals == p.arrivals
            && q.cancelled == p.cancelled
  {
    hide FindSpot, SetBits, FreeSpecial;
  }

  lemma {:induction false} RunLoses(c: Config, p: State, actions: seq<Action>)
    requires Inv(c, p) && NoneLost(p) && IsRun(c, p, actions)
    ensures NoneLost(After(c, p, actions))
    decreases |actions|
  {
    hide Inv, NoneLost, Step, Enabled;
    if actions != [] {
      StepInv(c, p, actions[0]);
      StepLoses(c, p, actions[0]);
      RunLoses(c, Step(c, p, actions[0]), actions[1..]);
    }
  }

  /** In every run no parked reservation is lost: it has been granted, it waits, or its caller gave it up. */
  lemma NoWaiterLost(c: Config, actions: seq<Action>, id: nat)
    requires IsRun(c, EMPTY, actions) && id < After(c, EMPTY, actions).arrivals
    ensures var p := After(c, EMPTY, actions);
            id in p.served || id in WaiterIds(p.pending) || id in p.cancelled
  {
    EmptyInv(c);
    hide Inv;
    RunLoses(c, EMPTY, actions);
  }

  // ----- Special sizes -----

  /** Some action registered the size, which is large enough. */
  ghost predicate Registered(c: Config, actions: seq<Action>, size: nat)
    decreases |actions|
  {
    actions != [] &&
    ((actions[0] == DoAddSize(size) && size > 4 * c.chunkSize) || Registered(c, actions[1..], size))
  }

  lemma TryReserveSizes(c: Config, p: State, size: nat)
    ensures TryReserve(c, p, size).sizes <= p.sizes && (c.keepSpecial ==> TryReserve(c, p, size).sizes == p.sizes)
  {
    hide ShouldTrim, AreaFor, Fits, AddReserved;
  }

  lemma {:induction false} GrantPendingSizes(c: Config, p: State)
    ensures GrantPending(c, p).sizes <= p.sizes && (c.keepSpecial ==> GrantPending(c, p).sizes == p.sizes)
    decreases |p.pending|
  {
    hide TryReserve, Granted;
    if p.pending != [] {
      var w := p.pending[0];
      TryReserveSizes(c, p, w.size);
      GrantPendingSizes(c, TryReserve(c, p, w.size).(pending := p.pending[1..], served := p.served + [w.id]));
    }
  }

  lemma StepSizes(c: Config, p: State, a: Action, size: nat)
    requires Inv(c, p) && Enabled(c, p, a)
    ensures size in Step(c, p, a).sizes ==> size in p.sizes || Registered(c, [a], size)
    ensures c.keepSpecial ==> (size in Step(c, p, a).sizes <==> size in p.sizes || Registered(c, [a], size))
  {
    hide Inv, Core, TryReserve, GrantPending, GiveBack, Claim, Uncancelled, Granted;
    match a
    case DoReserve(n, forced) => TryReserveSizes(c, p, n);
    case DoRelease(i) =>
      InvCore(c, p);
      GiveBackCore(c, p, i);
      var q := GiveBack(c, p, i);
      GrantPendingSizes(c, q.(pending := Uncancelled(q.pending, q.cancelled)));
    case DoClaim(i) => ClaimSizes(c, p, i);
    case _ =>
  }

  lemma ClaimSizes(c: Config, p: State, i: nat)
    requires Claimable(c, p, i)
    ensures Claim(c, p, i).sizes == p.sizes
  {
    hide FindSpot, SetBits, FreeSpecial;
  }

  lemma {:induction false} RunSizes(c: Config, p: State, actions: seq<Action>, size: nat)
    requires Inv(c, p) && IsRun(c, p, actions)
    ensures var q := After(c, p, actions);
            && (size in q.sizes ==> size in p.sizes || Registered(c, actions, size))
            && (c.keepSpecial ==> (size in q.sizes <==> size in p.sizes || Registered(c, actions, size)))
    decreases |actions|
  {
    hide Inv, Step, Enabled;
    if actions != [] {
      StepInv(c, p, actions[0]);
      StepSizes(c, p, actions[0], size);
      assert [actions[0]][1..] == [];
      RunSizes(c, Step(c, p, actions[0]), actions[1..], size);
    }
  }

  /** Only registered sizes above four chunks have lists, and with lists kept all of those have. */
  lemma SpecialSizes(c: Config, actions: seq<Action>, size: nat)
    requires IsRun(c, EMPTY, actions)
    ensures var p := After(c, EMPTY, actions);
            && (size in p.sizes ==> Registered(c, actions, size))
            && (c.keepSpecial ==> (size in p.sizes <==> Registered(c, actions, size)))
  {
    EmptyInv(c);
    hide Inv;
    RunSizes(c, EMPTY, actions, size);
  }

  // ----- Claiming -----

  /** A claim after any run takes the first memory there is, in the order of blocks and chunks, and makes a block only
      if there is none. */
  lemma ClaimsFirst(c: Config, actions: seq<Action>, i: nat)
    requires IsRun(c, EMPTY, actions) && Claimable(c, After(c, EMPTY, actions), i)
    ensures var p := After(c, EMPTY, actions);
            var q := Claim(c, p, i);
            && PlacedFirst(c, p, q, p.tickets[i], q.tickets[i].hold)
            && q.tickets == p.tickets[i := p.tickets[i].(hold := q.tickets[i].hold)]
  {
    hide IsRun, After, Inv, Core, PlacedFirst;
    ReachedInv(c, actions);
    InvCore(c, After(c, EMPTY, actions));
    ClaimCore(c, After(c, EMPTY, actions), i);
  }
}
