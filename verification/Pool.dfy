/** The default buffer pool: a bitmap chunk allocator (primary), the system allocator (secondary) and lists of
    whole blocks of registered sizes (special), handed out through tickets that are reserved, claimed and
    released, with a queue of reservations waiting for memory. */
module Pool {
  import opened ChunkMask

  /** Fixed when the pool is created. A chunk size of 0 switches primary storage off. */
  datatype Config = Config(
    chunkSize: nat,
    minCutoff: nat,        // primary_size_min_cutoff
    limit: nat,            // mem_limit
    forcedCap: nat,        // max_impact_of_forced_on_limit
    keepSpecial: bool)     // force_keeping_special_blocks
  {
    function Cutoff(): nat { 4 * chunkSize }
    function BlockSize(): nat { CHUNKS_PER_BLOCK * chunkSize }
  }

  datatype Area = Primary | Secondary | Special

  /** Where a ticket's memory is. */
  datatype Hold =
    | Reserved
    | Chunks(block: nat, first: nat)
    | Heap
    | Whole(id: nat)
    | Gone
    | Lapsed               // gone without having been claimed, though it was forced

  datatype Ticket = Ticket(size: nat, area: Area, forced: bool, hold: Hold) {
    predicate Claimed() { hold.Chunks? || hold.Heap? || hold.Whole? }
    predicate Outstanding() { !hold.Gone? && !hold.Lapsed? }
  }

  /** A primary block; ids stand for addresses and are never reused while the block lives. */
  datatype Block = Block(id: nat, mask: bv16)

  /** A block of the special list for `size`. */
  datatype SpecialBlock = SpecialBlock(size: nat, id: nat, mask: bv16)

  const FULL: bv16 := 0xFFFF

  /** The usage counters; integers, so that an underflow shows. The client's are unsigned: one below zero wraps to a
      number above every limit, which is how the comparisons below read it. */
  datatype Usage = Usage(
    primaryUsed: int, primaryReserved: int,
    secondaryUsed: int, secondaryReserved: int,
    specialUsed: int, specialReserved: int,
    forcedUsed: int)
  {
    function Overall(): int {
      primaryUsed + primaryReserved + secondaryUsed + secondaryReserved + specialReserved + specialUsed
    }
  }

  const NOTHING := Usage(0, 0, 0, 0, 0, 0, 0)

  /** A parked reservation; `id` numbers them in order of arrival. */
  datatype Waiter = Waiter(id: nat, size: nat)

  datatype State = State(
    blocks: seq<Block>,
    primaryAllocated: int,
    sizes: set<nat>,                // the keys of special_blocks
    specials: seq<SpecialBlock>,    // all special lists; a list is the blocks of its size, in order
    specialAllocated: int,
    nextId: nat,
    usage: Usage,
    tickets: seq<Ticket>,           // every ticket ever handed out
    pending: seq<Waiter>,
    cancelled: set<nat>,            // waiters whose future was cancelled
    arrivals: nat,
    served: seq<nat>)               // waiters granted, in order

  const EMPTY := State([], 0, {}, [], 0, 0, NOTHING, [], [], {}, 0, [])

  // ----- Usage updates -----

  function AddUsed(u: Usage, area: Area, n: int): Usage {
    match area
    case Primary => u.(primaryUsed := u.primaryUsed + n)
    case Secondary => u.(secondaryUsed := u.secondaryUsed + n)
    case Special => u.(specialUsed := u.specialUsed + n)
  }

  function AddReserved(u: Usage, area: Area, n: int): Usage {
    match area
    case Primary => u.(primaryReserved := u.primaryReserved + n)
    case Secondary => u.(secondaryReserved := u.secondaryReserved + n)
    case Special => u.(specialReserved := u.specialReserved + n)
  }

  // ----- Trimming -----

  function BusyBlocks(blocks: seq<Block>): seq<Block> {
    if blocks == [] then []
    else (if blocks[0].mask == 0 then [] else [blocks[0]]) + BusyBlocks(blocks[1..])
  }

  function BusySpecials(specials: seq<SpecialBlock>): seq<SpecialBlock> {
    if specials == [] then []
    else (if specials[0].mask == 0 then [] else [specials[0]]) + BusySpecials(specials[1..])
  }

  function SpecialBytes(specials: seq<SpecialBlock>): nat {
    if specials == [] then 0 else specials[0].size + SpecialBytes(specials[1..])
  }

  function SizesIn(specials: seq<SpecialBlock>): set<nat> {
    if specials == [] then {} else {specials[0].size} + SizesIn(specials[1..])
  }

  function TrimPrimary(c: Config, p: State): State {
    var busy := BusyBlocks(p.blocks);
    p.(blocks := busy, primaryAllocated := p.primaryAllocated - c.BlockSize() * (|p.blocks| - |busy|))
  }

  /** Free blocks go; a list left empty goes too, unless special memory is reserved or lists are kept. */
  function TrimSpecials(c: Config, p: State): State {
    var busy := BusySpecials(p.specials);
    p.(specials := busy,
       specialAllocated := p.specialAllocated - (SpecialBytes(p.specials) - SpecialBytes(busy)),
       sizes := if p.usage.specialReserved == 0 && !c.keepSpecial then p.sizes * SizesIn(busy) else p.sizes)
  }

  function Trim(c: Config, p: State): State {
    TrimSpecials(c, TrimPrimary(c, p))
  }

  // ----- Reserving -----

  /** Unsigned comparison: a number below zero has wrapped. */
  predicate Exceeds(a: int, b: int) {
    a < 0 || a > b
  }

  function SaturatingSub(a: int, b: int): int {
    if Exceeds(b, a) then 0 else a - b
  }

  /** The checked sum of what is taken and what is asked for is at least the limit; it does not overflow. */
  predicate NeedsMore(c: Config, overall: int, size: nat) {
    if overall < 0 then overall + size < 0 else overall + size >= c.limit
  }

  predicate ShouldTrim(c: Config, p: State, size: nat) {
    && size !in p.sizes && size > c.Cutoff()
    && NeedsMore(c, p.usage.Overall(), size)
    && SaturatingSub(SaturatingSub(p.specialAllocated, p.usage.specialUsed), p.usage.specialReserved)
       + SaturatingSub(SaturatingSub(p.primaryAllocated, p.usage.primaryUsed), p.usage.primaryReserved) >= size
  }

  /** What counts as taken: forced buffers weigh in only up to the cap. */
  function Taken(c: Config, u: Usage): int {
    if u.forcedUsed > c.forcedCap then u.Overall() - u.forcedUsed + c.forcedCap else u.Overall()
  }

  predicate Fits(c: Config, u: Usage, size: nat) {
    !Exceeds(size + Taken(c, u), c.limit)
  }

  function AreaFor(c: Config, p: State, size: nat): Area {
    if size in p.sizes then Special
    else if size > c.Cutoff() || size <= c.minCutoff then Secondary
    else if Exceeds(p.usage.primaryUsed + p.usage.primaryReserved + size, p.primaryAllocated) &&
            Exceeds(Taken(c, p.usage) + c.BlockSize(), c.limit) then Secondary
    else Primary
  }

  function Grant(c: Config, p: State, size: nat): State {
    var area := AreaFor(c, p, size);
    p.(usage := AddReserved(p.usage, area, size), tickets := p.tickets + [Ticket(size, area, false, Reserved)])
  }

  /** Trimming, if trimming is called for, happens whether or not the reservation then fits. */
  function Prepared(c: Config, p: State, size: nat): State {
    if ShouldTrim(c, p, size) then Trim(c, p) else p
  }

  function TryReserve(c: Config, p: State, size: nat): State {
    var q := Prepared(c, p, size);
    if Fits(c, q.usage, size) then Grant(c, q, size) else q
  }

  predicate Granted(c: Config, p: State, size: nat) {
    Fits(c, Prepared(c, p, size).usage, size)
  }

  function ForcedArea(c: Config, size: nat): Area {
    if size <= c.Cutoff() && size >= c.minCutoff then Primary else Secondary
  }

  /** `aws_s3_default_buffer_pool_reserve`; a reservation over the limit fails and changes nothing. */
  function Reserve(c: Config, p: State, size: nat, forced: bool): State {
    if size > c.limit then p
    else if forced then p.(tickets := p.tickets + [Ticket(size, ForcedArea(c, size), true, Reserved)])
    else if Granted(c, p, size) then TryReserve(c, p, size)
    else
      var q := TryReserve(c, p, size);
      q.(pending := q.pending + [Waiter(q.arrivals, size)], arrivals := q.arrivals + 1)
  }

  // ----- Claiming -----

  function ChunksNeeded(c: Config, size: nat): nat
    requires c.chunkSize > 0
  {
    size / c.chunkSize + if size % c.chunkSize != 0 then 1 else 0
  }

  datatype Spot = Nowhere | Spot(index: nat, first: nat)

  /** The first free run of `n` chunks in a block, from chunk `from` on. */
  function FreeRun(mask: bv16, n: nat, from: nat): (r: nat)
    requires 1 <= n <= 4
    ensures r + n <= 16 ==> from <= r && !CheckBits(mask, r, n)
    decreases 17 - from
  {
    if from + n > 16 then 16
    else if !CheckBits(mask, from, n) then from
    else FreeRun(mask, n, from + 1)
  }

  /** The first block with a free run, and the run. */
  function FindSpot(blocks: seq<Block>, n: nat, from: nat): (s: Spot)
    requires 1 <= n <= 4 && from <= |blocks|
    ensures s.Spot? ==> s.index < |blocks| && s.first + n <= 16 && !CheckBits(blocks[s.index].mask, s.first, n)
    decreases |blocks| - from
  {
    if from == |blocks| then Nowhere
    else
      var r := FreeRun(blocks[from].mask, n, 0);
      if r + n <= 16 then Spot(from, r) else FindSpot(blocks, n, from + 1)
  }

  /** The `n` chunks from `first` on are all free. */
  ghost predicate FreeAt(mask: bv16, first: nat, n: nat) {
    first + n <= 16 && Cells(mask) !! Run(first, n)
  }

  /** Some block has `n` adjacent free chunks. */
  ghost predicate HasRoom(blocks: seq<Block>, n: nat) {
    exists b: nat, f: nat :: b < |blocks| && FreeAt(blocks[b].mask, f, n)
  }

  /** No block from `from` on and before `index` has `n` adjacent free chunks, nor has that one before `first`. */
  ghost predicate NoRoomBefore(blocks: seq<Block>, n: nat, from: nat, index: nat, first: nat) {
    forall b: nat, f: nat :: b < |blocks| && (from <= b < index || (b == index && f < first)) ==>
      !FreeAt(blocks[b].mask, f, n)
  }

  lemma {:induction false} FreeRunFirst(mask: bv16, n: nat, from: nat)
    requires 1 <= n <= 4
    ensures var r := FreeRun(mask, n, from);
            (r + n <= 16 ==> FreeAt(mask, r, n)) && forall f: nat :: from <= f < r ==> !FreeAt(mask, f, n)
    decreases 17 - from
  {
    hide Cells, Run, CheckBits;
    if from + n <= 16 {
      CheckBitsMeetsRun(mask, from, n);
      if CheckBits(mask, from, n) {
        FreeRunFirst(mask, n, from + 1);
      }
    }
  }

  /** The search finds the first free run in the order of blocks and chunks, and finds none only if there is none. */
  lemma {:induction false} FindSpotFirst(blocks: seq<Block>, n: nat, from: nat)
    requires 1 <= n <= 4 && from <= |blocks|
    ensures match FindSpot(blocks, n, from)
            case Nowhere => NoRoomBefore(blocks, n, from, |blocks|, 0)
            case Spot(i, first) =>
              from <= i < |blocks| && FreeAt(blocks[i].mask, first, n) && NoRoomBefore(blocks, n, from, i, first)
    decreases |blocks| - from
  {
    hide FreeAt, FreeRun;
    if from < |blocks| {
      FreeRunFirst(blocks[from].mask, n, 0);
      var r := FreeRun(blocks[from].mask, n, 0);
      if r + n > 16 {
        NoRunBeyond(blocks[from].mask, n);
        FindSpotFirst(blocks, n, from + 1);
      }
    }
  }

  lemma NoRunBeyond(mask: bv16, n: nat)
    ensures forall f: nat :: f + n > 16 ==> !FreeAt(mask, f, n)
  {
  }

  /** Whether a primary ticket for `size` makes sense in this pool. */
  predicate PrimarySize(c: Config, size: nat) {
    0 < size <= c.Cutoff()
  }

  lemma ChunksNeededBounds(c: Config, size: nat)
    requires PrimarySize(c, size)
    ensures 1 <= ChunksNeeded(c, size) <= 4
    ensures (ChunksNeeded(c, size) - 1) * c.chunkSize < size <= ChunksNeeded(c, size) * c.chunkSize
  {
    assert size == c.chunkSize * (size / c.chunkSize) + size % c.chunkSize;
  }

  function TakeChunks(p: State, s: Spot, n: nat): State
    requires 1 <= n <= 4 && s.Spot? && s.index < |p.blocks| && s.first + n <= 16
  {
    var b := p.blocks[s.index];
    p.(blocks := p.blocks[s.index := b.(mask := SetBits(b.mask, s.first, n))])
  }

  function NewBlock(c: Config, p: State, n: nat): State
    requires 1 <= n <= 4
  {
    p.(blocks := p.blocks + [Block(p.nextId, SetBits(0, 0, n))], nextId := p.nextId + 1,
       primaryAllocated := p.primaryAllocated + c.BlockSize())
  }

  /** Memory for a primary ticket: the state with the chunks taken, and where they are. */
  function PlacePrimary(c: Config, p: State, size: nat): (State, Hold)
    requires PrimarySize(c, size)
  {
    ChunksNeededBounds(c, size);
    var n := ChunksNeeded(c, size);
    var s := FindSpot(p.blocks, n, 0);
    if s.Spot? then (TakeChunks(p, s, n), Chunks(p.blocks[s.index].id, s.first))
    else (NewBlock(c, p, n), Chunks(p.nextId, 0))
  }

  /** The first free block of the list for `size`, or the number of blocks. */
  function FreeSpecial(specials: seq<SpecialBlock>, size: nat, from: nat): (i: nat)
    requires from <= |specials|
    ensures from <= i <= |specials|
    ensures i < |specials| ==> specials[i].size == size && specials[i].mask == 0
    decreases |specials| - from
  {
    if from == |specials| || (specials[from].size == size && specials[from].mask == 0) then from
    else FreeSpecial(specials, size, from + 1)
  }

  /** Every block of the list before the one found is in use; if none is found all are. */
  lemma {:induction false} FreeSpecialFirst(specials: seq<SpecialBlock>, size: nat, from: nat)
    requires from <= |specials|
    ensures forall k :: from <= k < FreeSpecial(specials, size, from) ==>
              !(specials[k].size == size && specials[k].mask == 0)
    decreases |specials| - from
  {
    if from < |specials| && !(specials[from].size == size && specials[from].mask == 0) {
      FreeSpecialFirst(specials, size, from + 1);
    }
  }

  function PlaceSpecial(p: State, size: nat): (State, Hold) {
    var i := FreeSpecial(p.specials, size, 0);
    if i < |p.specials| then
      (p.(specials := p.specials[i := p.specials[i].(mask := FULL)]), Whole(p.specials[i].id))
    else
      (p.(specials := p.specials + [SpecialBlock(size, p.nextId, FULL)], nextId := p.nextId + 1,
          specialAllocated := p.specialAllocated + size),
       Whole(p.nextId))
  }

  /** Forced buffers are acquired without having been reserved. */
  function ClaimUsage(u: Usage, t: Ticket): Usage {
    var used := AddUsed(u, t.area, t.size);
    if t.forced then used.(forcedUsed := used.forcedUsed + t.size) else AddReserved(used, t.area, 0 - t.size)
  }

  predicate Claimable(c: Config, p: State, i: nat) {
    i < |p.tickets| && p.tickets[i].hold.Reserved? &&
    (p.tickets[i].area.Primary? ==> PrimarySize(c, p.tickets[i].size))
  }

  function Place(c: Config, p: State, t: Ticket): (State, Hold)
    requires t.area.Primary? ==> PrimarySize(c, t.size)
  {
    match t.area
    case Primary => PlacePrimary(c, p, t.size)
    case Secondary => (p, Heap)
    case Special => PlaceSpecial(p, t.size)
  }

  /** `s_acquire_buffer_synced` for ticket `i`. */
  function Claim(c: Config, p: State, i: nat): State
    requires Claimable(c, p, i)
  {
    var t := p.tickets[i];
    var (q, hold) := Place(c, p, t);
    q.(usage := ClaimUsage(p.usage, t), tickets := p.tickets[i := t.(hold := hold)])
  }

  // ----- Releasing -----

  /** The index of the block with this id, or the number of blocks. */
  function BlockIndex(blocks: seq<Block>, id: nat): (i: nat)
    ensures i <= |blocks| && (i < |blocks| ==> blocks[i].id == id)
  {
    if blocks == [] || blocks[0].id == id then 0 else 1 + BlockIndex(blocks[1..], id)
  }

  function SpecialIndex(specials: seq<SpecialBlock>, size: nat, id: nat): (i: nat)
    ensures i <= |specials|
    ensures i < |specials| ==> specials[i].size == size && specials[i].id == id && specials[i].mask == FULL
  {
    if specials == [] || specials[0] == SpecialBlock(size, id, FULL) then 0
    else 1 + SpecialIndex(specials[1..], size, id)
  }

  function FreePrimary(c: Config, p: State, t: Ticket): State
    requires PrimarySize(c, t.size) && t.hold.Chunks?
  {
    ChunksNeededBounds(c, t.size);
    var n := ChunksNeeded(c, t.size);
    var k := BlockIndex(p.blocks, t.hold.block);
    if k == |p.blocks| || t.hold.first + n > 16 then p
    else
      p.(blocks := p.blocks[k := p.blocks[k].(mask := ClearBits(p.blocks[k].mask, t.hold.first, n))],
         usage := ReleaseUsage(p.usage, t))
  }

  function FreeSpecialBlock(p: State, t: Ticket): State
    requires t.hold.Whole?
  {
    var k := SpecialIndex(p.specials, t.size, t.hold.id);
    if t.size !in p.sizes || k == |p.specials| then p
    else p.(specials := p.specials[k := p.specials[k].(mask := 0)], usage := ReleaseUsage(p.usage, t))
  }

  function ReleaseUsage(u: Usage, t: Ticket): Usage {
    var freed := AddUsed(u, t.area, 0 - t.size);
    if t.forced then freed.(forcedUsed := freed.forcedUsed - t.size) else freed
  }

  predicate Releasable(c: Config, p: State, i: nat) {
    && i < |p.tickets|
    && p.tickets[i].Outstanding()
    && (p.tickets[i].hold.Chunks? ==> PrimarySize(c, p.tickets[i].size))
  }

  /** The pool with the memory returned, before the ticket itself goes. */
  function Returned(c: Config, p: State, i: nat): State
    requires Releasable(c, p, i)
  {
    var t := p.tickets[i];
    match t.hold
    case Reserved => p.(usage := AddReserved(p.usage, t.area, 0 - t.size))
    case Chunks(_, _) => FreePrimary(c, p, t)
    case Heap => p.(usage := ReleaseUsage(p.usage, t))
    case Whole(_) => FreeSpecialBlock(p, t)
  }

  /** What a ticket is once released. */
  function Finished(t: Ticket): Ticket {
    t.(hold := if t.hold.Reserved? && t.forced then Lapsed else Gone)
  }

  /** The ticket's memory goes back and the ticket is gone. A ticket never claimed takes its reservation out of the
      counters, also if it was forced and so never entered them. */
  function GiveBack(c: Config, p: State, i: nat): State
    requires Releasable(c, p, i)
  {
    Returned(c, p, i).(tickets := p.tickets[i := Finished(p.tickets[i])])
  }

  function Uncancelled(pending: seq<Waiter>, cancelled: set<nat>): seq<Waiter> {
    if pending == [] then []
    else (if pending[0].id in cancelled then [] else [pending[0]]) + Uncancelled(pending[1..], cancelled)
  }

  /** Grant parked reservations in order for as long as the first one fits. */
  function GrantPending(c: Config, p: State): State
    decreases |p.pending|
  {
    if p.pending == [] then p
    else
      var w := p.pending[0];
      var q := TryReserve(c, p, w.size);
      if Granted(c, p, w.size) then
        GrantPending(c, q.(pending := p.pending[1..], served := p.served + [w.id]))
      else q
  }

  /** `s_aws_ticket_wrapper_destroy` for ticket `i`. */
  function Release(c: Config, p: State, i: nat): State
    requires Releasable(c, p, i)
  {
    var q := GiveBack(c, p, i);
    GrantPending(c, q.(pending := Uncancelled(q.pending, q.cancelled)))
  }

  // ----- Special sizes -----

  function AddSpecialSize(c: Config, p: State, size: nat): State {
    if size <= c.Cutoff() then p else p.(sizes := p.sizes + {size})
  }
}
