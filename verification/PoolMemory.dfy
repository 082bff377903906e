/** Who owns which memory: every claimed ticket's chunks and blocks, and how the masks record them. */
module PoolMemory {
  import opened ChunkMask
  import opened Pool

  // ----- What tickets own -----

  ghost function Pairs(id: nat, cells: set<nat>): set<(nat, nat)> {
    set i | i in cells :: (id, i)
  }

  lemma {:induction false} PairsCount(id: nat, cells: set<nat>)
    ensures |Pairs(id, cells)| == |cells|
  {
    if cells != {} {
      var i :| i in cells;
      PairsCount(id, cells - {i});
      assert Pairs(id, cells) == Pairs(id, cells - {i}) + {(id, i)};
      assert (id, i) !in Pairs(id, cells - {i});
    }
  }

  lemma PairsAlgebra(id: nat, a: set<nat>, b: set<nat>)
    ensures Pairs(id, a + b) == Pairs(id, a) + Pairs(id, b)
    ensures Pairs(id, a - b) == Pairs(id, a) - Pairs(id, b)
    ensures a !! b ==> Pairs(id, a) !! Pairs(id, b)
  {
    assert forall i :: (id, i) in Pairs(id, a) <==> i in a;
    assert forall i :: (id, i) in Pairs(id, b) <==> i in b;
  }

  /** A primary ticket owns (block, chunk) pairs, a special one a (block, size) pair; `special` says which
      kind is asked for. */
  ghost function TicketCells(c: Config, t: Ticket, special: bool): set<(nat, nat)> {
    if !special && t.hold.Chunks? && PrimarySize(c, t.size) then
      Pairs(t.hold.block, Run(t.hold.first, ChunksNeeded(c, t.size)))
    else if special && t.hold.Whole? then {(t.hold.id, t.size)}
    else {}
  }

  ghost function Owned(c: Config, ts: seq<Ticket>, special: bool): set<(nat, nat)> {
    if ts == [] then {} else Owned(c, ts[..|ts| - 1], special) + TicketCells(c, ts[|ts| - 1], special)
  }

  /** No two tickets own the same memory. */
  ghost predicate NoOverlap(c: Config, ts: seq<Ticket>, special: bool) {
    ts == [] ||
    (NoOverlap(c, ts[..|ts| - 1], special) &&
     TicketCells(c, ts[|ts| - 1], special) !! Owned(c, ts[..|ts| - 1], special))
  }

  lemma {:induction false} OwnedHas(c: Config, ts: seq<Ticket>, special: bool, i: nat)
    requires i < |ts|
    ensures TicketCells(c, ts[i], special) <= Owned(c, ts, special)
  {
    if i < |ts| - 1 {
      OwnedHas(c, ts[..|ts| - 1], special, i);
    }
  }

  /** Distinct tickets own disjoint memory. */
  lemma {:induction false} TicketsDisjoint(c: Config, ts: seq<Ticket>, special: bool, i: nat, j: nat)
    requires NoOverlap(c, ts, special) && i < j < |ts|
    ensures TicketCells(c, ts[i], special) !! TicketCells(c, ts[j], special)
  {
    if j < |ts| - 1 {
      TicketsDisjoint(c, ts[..|ts| - 1], special, i, j);
    } else {
      OwnedHas(c, ts[..|ts| - 1], special, i);
    }
  }

  lemma OwnedAppend(c: Config, ts: seq<Ticket>, t: Ticket, special: bool)
    requires NoOverlap(c, ts, special) && TicketCells(c, t, special) == {}
    ensures Owned(c, ts + [t], special) == Owned(c, ts, special) && NoOverlap(c, ts + [t], special)
  {
    assert (ts + [t])[..|ts|] == ts;
  }

  /** A ticket that owned nothing takes memory nobody owned. */
  lemma {:induction false} OwnedTake(c: Config, ts: seq<Ticket>, i: nat, t: Ticket, special: bool)
    requires i < |ts| && NoOverlap(c, ts, special)
    requires TicketCells(c, ts[i], special) == {} && TicketCells(c, t, special) !! Owned(c, ts, special)
    ensures Owned(c, ts[i := t], special) == Owned(c, ts, special) + TicketCells(c, t, special)
    ensures NoOverlap(c, ts[i := t], special)
  {
    hide TicketCells;
    var front := ts[..|ts| - 1];
    if i < |ts| - 1 {
      OwnedTake(c, front, i, t, special);
      assert ts[i := t][..|ts| - 1] == front[i := t];
    } else {
      assert ts[i := t][..|ts| - 1] == front;
    }
  }

  /** A ticket gives up its memory and nobody else's. */
  lemma {:induction false} OwnedGive(c: Config, ts: seq<Ticket>, i: nat, t: Ticket, special: bool)
    requires i < |ts| && NoOverlap(c, ts, special) && TicketCells(c, t, special) == {}
    ensures Owned(c, ts[i := t], special) == Owned(c, ts, special) - TicketCells(c, ts[i], special)
    ensures NoOverlap(c, ts[i := t], special)
  {
    hide TicketCells;
    var front := ts[..|ts| - 1];
    if i < |ts| - 1 {
      OwnedGive(c, front, i, t, special);
      OwnedHas(c, front, special, i);
      assert ts[i := t][..|ts| - 1] == front[i := t];
    } else {
      assert ts[i := t][..|ts| - 1] == front;
    }
  }

  // ----- What the masks record -----

  ghost function Ids(blocks: seq<Block>): set<nat> {
    if blocks == [] then {} else {blocks[0].id} + Ids(blocks[1..])
  }

  ghost predicate DistinctIds(blocks: seq<Block>) {
    blocks == [] || (blocks[0].id !in Ids(blocks[1..]) && DistinctIds(blocks[1..]))
  }

  ghost function BlockCells(blocks: seq<Block>): set<(nat, nat)> {
    if blocks == [] then {} else Pairs(blocks[0].id, Cells(blocks[0].mask)) + BlockCells(blocks[1..])
  }

  lemma {:induction false} CellsLiveInBlocks(blocks: seq<Block>)
    ensures forall x :: x in BlockCells(blocks) ==> x.0 in Ids(blocks)
  {
    if blocks != [] {
      CellsLiveInBlocks(blocks[1..]);
    }
  }

  lemma {:induction false} IdIn(blocks: seq<Block>, k: nat)
    requires k < |blocks|
    ensures blocks[k].id in Ids(blocks)
  {
    if k > 0 {
      IdIn(blocks[1..], k - 1);
    }
  }

  lemma {:induction false} IdsUpdate(blocks: seq<Block>, k: nat, mask: bv16)
    requires k < |blocks|
    ensures Ids(blocks[k := blocks[k].(mask := mask)]) == Ids(blocks)
    ensures DistinctIds(blocks) ==> DistinctIds(blocks[k := blocks[k].(mask := mask)])
  {
    var after := blocks[k := blocks[k].(mask := mask)];
    if k > 0 {
      IdsUpdate(blocks[1..], k - 1, mask);
      assert after[1..] == blocks[1..][k - 1 := blocks[k].(mask := mask)];
    } else {
      assert after[1..] == blocks[1..];
    }
  }

  /** Changing one block's mask changes only that block's cells. */
  lemma {:induction false} CellsUpdate(blocks: seq<Block>, k: nat, mask: bv16)
    requires k < |blocks| && DistinctIds(blocks)
    ensures var id := blocks[k].id;
            var before := Pairs(id, Cells(blocks[k].mask));
            && before <= BlockCells(blocks)
            && BlockCells(blocks[k := blocks[k].(mask := mask)]) ==
               BlockCells(blocks) - before + Pairs(id, Cells(mask))
            && (forall i :: (id, i) in BlockCells(blocks) ==> i in Cells(blocks[k].mask))
  {
    hide Cells;
    var after := blocks[k := blocks[k].(mask := mask)];
    CellsLiveInBlocks(blocks[1..]);
    if k > 0 {
      CellsUpdate(blocks[1..], k - 1, mask);
      IdIn(blocks[1..], k - 1);
      assert after[1..] == blocks[1..][k - 1 := blocks[k].(mask := mask)];
    } else {
      assert after[1..] == blocks[1..];
    }
  }

  lemma {:induction false} AppendBlock(blocks: seq<Block>, b: Block)
    requires DistinctIds(blocks) && b.id !in Ids(blocks)
    ensures DistinctIds(blocks + [b]) && Ids(blocks + [b]) == Ids(blocks) + {b.id}
    ensures BlockCells(blocks + [b]) == BlockCells(blocks) + Pairs(b.id, Cells(b.mask))
  {
    hide Cells;
    if blocks != [] {
      AppendBlock(blocks[1..], b);
      assert (blocks + [b])[1..] == blocks[1..] + [b];
    } else {
      assert blocks + [b] == [b];
      assert [b][1..] == [];
    }
  }

  /** Setting a free run adds exactly its cells. */
  lemma TakeRun(blocks: seq<Block>, k: nat, first: nat, n: nat)
    requires k < |blocks| && DistinctIds(blocks) && 1 <= n <= 4 && first + n <= 16
    requires !CheckBits(blocks[k].mask, first, n)
    ensures var run := Pairs(blocks[k].id, Run(first, n));
            && run !! BlockCells(blocks)
            && BlockCells(blocks[k := blocks[k].(mask := SetBits(blocks[k].mask, first, n))]) ==
               BlockCells(blocks) + run
  {
    hide Cells, SetBits, CheckBits;
    var b := blocks[k];
    CellsUpdate(blocks, k, SetBits(b.mask, first, n));
    SetBitsAddsRun(b.mask, first, n);
    CheckBitsMeetsRun(b.mask, first, n);
    PairsAlgebra(b.id, Cells(b.mask), Run(first, n));
  }

  /** Clearing a run removes exactly its cells. */
  lemma ClearRun(blocks: seq<Block>, k: nat, first: nat, n: nat)
    requires k < |blocks| && DistinctIds(blocks) && 1 <= n <= 4 && first + n <= 16
    ensures BlockCells(blocks[k := blocks[k].(mask := ClearBits(blocks[k].mask, first, n))]) ==
            BlockCells(blocks) - Pairs(blocks[k].id, Run(first, n))
  {
    hide Cells, ClearBits;
    var b := blocks[k];
    CellsUpdate(blocks, k, ClearBits(b.mask, first, n));
    ClearBitsRemovesRun(b.mask, first, n);
    PairsAlgebra(b.id, Cells(b.mask), Run(first, n));
    ClearCells(BlockCells(blocks), b.id, Cells(b.mask), Run(first, n));
  }

  lemma ClearCells(all: set<(nat, nat)>, id: nat, cells: set<nat>, run: set<nat>)
    requires Pairs(id, cells) <= all && forall i :: (id, i) in all ==> i in cells
    ensures all - Pairs(id, cells) + Pairs(id, cells - run) == all - Pairs(id, run)
  {
    assert forall i :: (id, i) in Pairs(id, cells) <==> i in cells;
  }

  /** Trimming drops only blocks in which nothing is in use. */
  lemma {:induction false} TrimKeepsCells(blocks: seq<Block>)
    ensures BlockCells(BusyBlocks(blocks)) == BlockCells(blocks)
    ensures Ids(BusyBlocks(blocks)) <= Ids(blocks) && |BusyBlocks(blocks)| <= |blocks|
    ensures DistinctIds(blocks) ==> DistinctIds(BusyBlocks(blocks))
  {
    hide Cells;
    if blocks != [] {
      TrimKeepsCells(blocks[1..]);
      FreeMask(blocks[0].mask);
      var rest := BusyBlocks(blocks[1..]);
      assert ([blocks[0]] + rest)[1..] == rest;
      assert [] + rest == rest;
    }
  }

  lemma {:induction false} CellsBound(blocks: seq<Block>)
    ensures |BlockCells(blocks)| <= 16 * |blocks|
  {
    hide Cells;
    if blocks != [] {
      CellsBound(blocks[1..]);
      PairsCount(blocks[0].id, Cells(blocks[0].mask));
      CellsCount(blocks[0].mask);
      UnionBound(Pairs(blocks[0].id, Cells(blocks[0].mask)), BlockCells(blocks[1..]));
    }
  }

  lemma UnionBound(a: set<(nat, nat)>, b: set<(nat, nat)>)
    ensures |a + b| <= |a| + |b|
    ensures a !! b ==> |a + b| == |a| + |b|
  {
    assert a + b == a + (b - a);
    assert |a + (b - a)| == |a| + |b - a|;
    assert b == (b - a) + (b * a);
  }

  // ----- Special blocks -----

  ghost function SpecialIds(specials: seq<SpecialBlock>): set<nat> {
    if specials == [] then {} else {specials[0].id} + SpecialIds(specials[1..])
  }

  ghost predicate SpecialsOk(specials: seq<SpecialBlock>) {
    specials == [] ||
    (&& specials[0].id !in SpecialIds(specials[1..])
     && (specials[0].mask == 0 || specials[0].mask == FULL)
     && SpecialsOk(specials[1..]))
  }

  ghost function SpecialCells(specials: seq<SpecialBlock>): set<(nat, nat)> {
    if specials == [] then {}
    else (if specials[0].mask == 0 then {} else {(specials[0].id, specials[0].size)}) + SpecialCells(specials[1..])
  }

  lemma {:induction false} SpecialCellsLive(specials: seq<SpecialBlock>)
    ensures forall x :: x in SpecialCells(specials) ==> x.0 in SpecialIds(specials)
  {
    if specials != [] {
      SpecialCellsLive(specials[1..]);
    }
  }

  lemma {:induction false} SpecialIdIn(specials: seq<SpecialBlock>, k: nat)
    requires k < |specials|
    ensures specials[k].id in SpecialIds(specials)
  {
    if k > 0 {
      SpecialIdIn(specials[1..], k - 1);
    }
  }

  /** Marking or clearing one special block. */
  lemma {:induction false} SpecialUpdate(specials: seq<SpecialBlock>, k: nat, mask: bv16)
    requires k < |specials| && SpecialsOk(specials) && (mask == 0 || mask == FULL)
    ensures var b := specials[k];
            var after := specials[k := b.(mask := mask)];
            && SpecialsOk(after) && SpecialIds(after) == SpecialIds(specials)
            && SpecialBytes(after) == SpecialBytes(specials)
            && SpecialCells(after) ==
               SpecialCells(specials) - {(b.id, b.size)} + (if mask == 0 then {} else {(b.id, b.size)})
            && ((b.id, b.size) in SpecialCells(specials) <==> b.mask != 0)
  {
    var b := specials[k];
    var after := specials[k := b.(mask := mask)];
    SpecialCellsLive(specials[1..]);
    if k > 0 {
      SpecialUpdate(specials[1..], k - 1, mask);
      SpecialIdIn(specials[1..], k - 1);
      assert after[1..] == specials[1..][k - 1 := b.(mask := mask)];
    } else {
      assert after[1..] == specials[1..];
    }
  }

  lemma {:induction false} SpecialAppend(specials: seq<SpecialBlock>, b: SpecialBlock)
    requires SpecialsOk(specials) && b.id !in SpecialIds(specials) && b.mask == FULL
    ensures var after := specials + [b];
            && SpecialsOk(after) && SpecialIds(after) == SpecialIds(specials) + {b.id}
            && SpecialCells(after) == SpecialCells(specials) + {(b.id, b.size)}
            && SpecialBytes(after) == SpecialBytes(specials) + b.size
  {
    if specials != [] {
      SpecialAppend(specials[1..], b);
      assert (specials + [b])[1..] == specials[1..] + [b];
    } else {
      assert specials + [b] == [b];
      assert [b][1..] == [];
    }
  }

  lemma {:induction false} TrimKeepsSpecials(specials: seq<SpecialBlock>)
    requires SpecialsOk(specials)
    ensures var busy := BusySpecials(specials);
            && SpecialsOk(busy) && SpecialIds(busy) <= SpecialIds(specials)
            && SpecialCells(busy) == SpecialCells(specials)
            && (forall x :: x in SpecialCells(specials) ==> x.1 in SizesIn(busy))
  {
    if specials != [] {
      TrimKeepsSpecials(specials[1..]);
      var rest := BusySpecials(specials[1..]);
      assert ([specials[0]] + rest)[1..] == rest;
      assert [] + rest == rest;
    }
  }

  /** A special block belongs to one list. */
  lemma {:induction false} OneSizeEach(specials: seq<SpecialBlock>, id: nat, a: nat, b: nat)
    requires SpecialsOk(specials) && (id, a) in SpecialCells(specials) && (id, b) in SpecialCells(specials)
    ensures a == b
  {
    SpecialCellsLive(specials[1..]);
    if specials[0].id != id {
      OneSizeEach(specials[1..], id, a, b);
    }
  }

  /** A block in use is found again by its address. */
  lemma {:induction false} SpecialFound(specials: seq<SpecialBlock>, size: nat, id: nat)
    requires SpecialsOk(specials) && (id, size) in SpecialCells(specials)
    ensures SpecialIndex(specials, size, id) < |specials|
  {
    if specials[0] != SpecialBlock(size, id, FULL) {
      SpecialFound(specials[1..], size, id);
    }
  }

  lemma {:induction false} BlockFound(blocks: seq<Block>, id: nat)
    requires id in Ids(blocks)
    ensures BlockIndex(blocks, id) < |blocks|
  {
    if blocks[0].id != id {
      BlockFound(blocks[1..], id);
    }
  }
}
