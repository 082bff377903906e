/** The bit helpers of the primary blocks: a block is sixteen chunks, and its 16-bit mask is the set of chunks
    in use. */
module ChunkMask {

  const CHUNKS_PER_BLOCK: nat := 16

  function Half(bits: bv16): bv16 {
    bits >> 1
  }

  function Twice(bits: bv16): bv16 {
    bits << 1
  }

  /** `bits << p`: `p` shifts by one place. */
  function Up(bits: bv16, p: nat): bv16 {
    if p == 0 then bits else Twice(Up(bits, p - 1))
  }

  /** `bits >> p`: `p` shifts by one place. */
  function Down(bits: bv16, p: nat): bv16 {
    if p == 0 then bits else Down(Half(bits), p - 1)
  }

  /** `0x00FF >> (8 - n)`: the lowest `n` bits. */
  function LowBits(n: nat): bv16
    requires n <= 8
  {
    Down(0x00FF, 8 - n)
  }

  function Or(a: bv16, b: bv16): bv16 {
    a | b
  }

  function SetBits(mask: bv16, position: nat, n: nat): bv16
    requires n <= 8 && position + n <= 16
  {
    Or(mask, Up(LowBits(n), position))
  }

  function ClearBits(mask: bv16, position: nat, n: nat): bv16
    requires n <= 8 && position + n <= 16
  {
    mask & !Up(LowBits(n), position)
  }

  predicate CheckBits(mask: bv16, position: nat, n: nat)
    requires n <= 8 && position + n <= 16
  {
    Meets(Down(mask, position), LowBits(n))
  }

  // ----- The set a mask stands for -----

  function OneBit(k: nat): bv16
    requires k < 16
  {
    if k < 4 then (if k == 0 then 1 else if k == 1 then 2 else if k == 2 then 4 else 8)
    else if k < 8 then (if k == 4 then 16 else if k == 5 then 32 else if k == 6 then 64 else 128)
    else if k < 12 then (if k == 8 then 0x100 else if k == 9 then 0x200 else if k == 10 then 0x400 else 0x800)
    else (if k == 12 then 0x1000 else if k == 13 then 0x2000 else if k == 14 then 0x4000 else 0x8000)
  }

  predicate Meets(a: bv16, b: bv16) {
    a & b != 0
  }

  predicate Bit(mask: bv16, k: nat)
    requires k < 16
  {
    Meets(mask, OneBit(k))
  }

  /** The chunks `first .. first + n - 1`. */
  ghost function Run(first: nat, n: nat): (r: set<nat>)
    ensures forall i :: i in r <==> first <= i < first + n
    ensures |r| == n
  {
    if n == 0 then {} else Run(first, n - 1) + {first + n - 1}
  }

  ghost function Cells(mask: bv16): set<nat> {
    set k | k in Run(0, 16) && Bit(mask, k)
  }

  lemma OneBitBit(j: nat, k: nat)
    requires j < 16 && k < 16
    ensures Bit(OneBit(j), k) <==> j == k
  {
  }

  lemma MeetsIs(a: bv16, b: bv16)
    ensures Meets(a, b) <==> a & b != 0
    ensures Meets(a, b) <==> b & a != 0
  {
  }

  lemma MeetsEither(a: bv16, x: bv16, y: bv16)
    ensures (a | x) & y != 0 <==> a & y != 0 || x & y != 0
  {
  }

  lemma OrMeets(a: bv16, x: bv16, y: bv16)
    ensures Meets(Or(a, x), y) <==> Meets(a, y) || Meets(x, y)
    ensures Meets(y, Or(a, x)) <==> Meets(y, a) || Meets(y, x)
  {
    hide Meets;
    MeetsEither(a, x, y);
    MeetsIs(a, y);
    MeetsIs(x, y);
    MeetsIs(a | x, y);
    MeetsIs(y, a);
    MeetsIs(y, x);
    MeetsIs(y, a | x);
  }

  lemma OrBit(a: bv16, x: bv16, k: nat)
    requires k < 16
    ensures Bit(Or(a, x), k) <==> Bit(a, k) || Bit(x, k)
  {
    hide OneBit, Meets, Or;
    OrMeets(a, x, OneBit(k));
  }

  predicate AllOrNone(x: bv16, y: bv16) {
    x & y == 0 || (x & y == y && y != 0)
  }

  lemma MinusMeets(a: bv16, x: bv16, y: bv16)
    requires AllOrNone(x, y)
    ensures Meets(a & !x, y) <==> Meets(a, y) && !Meets(x, y)
  {
  }

  /** A mask meets a single bit in all of it or not at all. */
  lemma OneBitAllOrNone(x: bv16, k: nat)
    requires k < 16
    ensures AllOrNone(x, OneBit(k))
  {
  }

  lemma MinusBit(a: bv16, x: bv16, k: nat)
    requires k < 16
    ensures Bit(a & !x, k) <==> Bit(a, k) && !Bit(x, k)
  {
    hide OneBit, Meets, AllOrNone;
    OneBitAllOrNone(x, k);
    MinusMeets(a, x, OneBit(k));
  }

  lemma HalfTable()
    ensures Half(255) == 127 && Half(127) == 63 && Half(63) == 31 && Half(31) == 15
    ensures Half(15) == 7 && Half(7) == 3 && Half(3) == 1 && Half(1) == 0
  {
  }

  lemma LowBitsTable()
    ensures LowBits(0) == 0 && LowBits(1) == 1 && LowBits(2) == 3 && LowBits(3) == 7 && LowBits(4) == 15
    ensures LowBits(5) == 31 && LowBits(6) == 63 && LowBits(7) == 127 && LowBits(8) == 255
  {
    hide Half;
    HalfTable();
  }

  lemma LowBitsStep(n: nat)
    requires 1 <= n <= 8
    ensures LowBits(n) == Or(LowBits(n - 1), OneBit(n - 1))
  {
    hide LowBits;
    LowBitsTable();
  }

  lemma TwiceOr(a: bv16, b: bv16)
    ensures Twice(Or(a, b)) == Or(Twice(a), Twice(b))
  {
  }

  lemma {:induction false} UpOr(a: bv16, b: bv16, p: nat)
    ensures Up(Or(a, b), p) == Or(Up(a, p), Up(b, p))
  {
    hide Twice, Or;
    if p > 0 {
      UpOr(a, b, p - 1);
      TwiceOr(Up(a, p - 1), Up(b, p - 1));
    }
  }

  lemma TwiceOneBit(k: nat)
    requires k < 15
    ensures Twice(OneBit(k)) == OneBit(k + 1)
  {
  }

  lemma {:induction false} UpOneBit(k: nat, p: nat)
    requires k + p < 16
    ensures Up(OneBit(k), p) == OneBit(k + p)
  {
    hide OneBit, Twice;
    if p > 0 {
      UpOneBit(k, p - 1);
      TwiceOneBit(k + p - 1);
    }
  }

  lemma {:induction false} UpZero(p: nat)
    ensures Up(0, p) == 0
  {
    if p > 0 {
      UpZero(p - 1);
    }
  }

  /** The shifted low bits as single bits. */
  function RunBits(first: nat, n: nat): bv16
    requires first + n <= 16
  {
    if n == 0 then 0 else Or(RunBits(first, n - 1), OneBit(first + n - 1))
  }

  lemma {:induction false} ShiftedLowBits(p: nat, n: nat)
    requires n <= 8 && p + n <= 16
    ensures Up(LowBits(n), p) == RunBits(p, n)
  {
    hide OneBit, LowBits, Up, Or;
    if n == 0 {
      LowBitsTable();
      UpZero(p);
    } else {
      LowBitsStep(n);
      UpOr(LowBits(n - 1), OneBit(n - 1), p);
      ShiftedLowBits(p, n - 1);
      UpOneBit(n - 1, p);
    }
  }

  lemma {:induction false} RunBitsBit(first: nat, n: nat, k: nat)
    requires first + n <= 16 && k < 16
    ensures Bit(RunBits(first, n), k) <==> first <= k < first + n
  {
    hide OneBit, Bit;
    if n == 0 {
      ZeroHasNoBit(k);
    } else {
      OneBitBit(first + n - 1, k);
      RunBitsBit(first, n - 1, k);
      OrBit(RunBits(first, n - 1), OneBit(first + n - 1), k);
    }
  }

  // ----- The helpers are the set operations -----

  lemma SetBitsBit(mask: bv16, p: nat, n: nat, k: nat)
    requires n <= 8 && p + n <= 16 && k < 16
    ensures Bit(SetBits(mask, p, n), k) <==> Bit(mask, k) || p <= k < p + n
  {
    hide OneBit, LowBits, RunBits, Bit;
    ShiftedLowBits(p, n);
    RunBitsBit(p, n, k);
    OrBit(mask, RunBits(p, n), k);
  }

  lemma ClearBitsBit(mask: bv16, p: nat, n: nat, k: nat)
    requires n <= 8 && p + n <= 16 && k < 16
    ensures Bit(ClearBits(mask, p, n), k) <==> Bit(mask, k) && !(p <= k < p + n)
  {
    hide OneBit, LowBits, RunBits, Bit;
    ShiftedLowBits(p, n);
    RunBitsBit(p, n, k);
    MinusBit(mask, RunBits(p, n), k);
  }

  lemma CellsUnion(mask: bv16, after: bv16, p: nat, n: nat)
    requires p + n <= 16 && forall k :: 0 <= k < 16 ==> (Bit(after, k) <==> Bit(mask, k) || p <= k < p + n)
    ensures Cells(after) == Cells(mask) + Run(p, n)
  {
    hide Bit;
  }

  /** Setting a run adds exactly its chunks. */
  lemma SetBitsAddsRun(mask: bv16, p: nat, n: nat)
    requires n <= 8 && p + n <= 16
    ensures Cells(SetBits(mask, p, n)) == Cells(mask) + Run(p, n)
  {
    hide Bit, SetBits, Cells;
    forall k: nat | k < 16 ensures Bit(SetBits(mask, p, n), k) <==> Bit(mask, k) || p <= k < p + n {
      SetBitsBit(mask, p, n, k);
    }
    CellsUnion(mask, SetBits(mask, p, n), p, n);
  }

  /** Clearing a run removes exactly its chunks. */
  lemma ClearBitsRemovesRun(mask: bv16, p: nat, n: nat)
    requires n <= 8 && p + n <= 16
    ensures Cells(ClearBits(mask, p, n)) == Cells(mask) - Run(p, n)
  {
    hide Bit, ClearBits;
    forall k: nat | k < 16 ensures Bit(ClearBits(mask, p, n), k) <==> Bit(mask, k) && !(p <= k < p + n) {
      ClearBitsBit(mask, p, n, k);
    }
  }

  lemma HalfMeets(mask: bv16, bits: bv16)
    ensures Meets(Half(mask), bits) <==> Meets(mask, Twice(bits))
  {
    hide Meets;
    HalfAnd(mask, bits);
    MeetsIs(mask >> 1, bits);
    MeetsIs(mask, bits << 1);
  }

  lemma HalfAnd(mask: bv16, bits: bv16)
    ensures (mask >> 1) & bits != 0 <==> mask & (bits << 1) != 0
  {
  }

  /** What the mask moved down meets is what the mask meets moved up. */
  lemma {:induction false} ShiftMeets(mask: bv16, bits: bv16, p: nat)
    ensures Meets(Down(mask, p), bits) <==> Meets(mask, Up(bits, p))
    decreases p
  {
    hide Meets, Half, Twice;
    if p > 0 {
      ShiftMeets(Half(mask), bits, p - 1);
      HalfMeets(mask, Up(bits, p - 1));
    }
  }

  lemma NothingMeetsZero(mask: bv16)
    ensures !Meets(mask, 0)
  {
  }

  lemma {:induction false} MeetsSomeBit(mask: bv16, first: nat, n: nat)
    requires first + n <= 16
    ensures Meets(mask, RunBits(first, n)) <==> exists k :: first <= k < first + n && Bit(mask, k)
  {
    hide OneBit, Meets, Or;
    if n == 0 {
      NothingMeetsZero(mask);
    } else {
      MeetsSomeBit(mask, first, n - 1);
      OrMeets(RunBits(first, n - 1), OneBit(first + n - 1), mask);
      assert Bit(mask, first + n - 1) <==> Meets(mask, OneBit(first + n - 1));
    }
  }

  lemma CheckBitsShifts(mask: bv16, p: nat, n: nat)
    requires n <= 8 && p + n <= 16
    ensures CheckBits(mask, p, n) <==> Meets(mask, RunBits(p, n))
  {
    hide LowBits, RunBits, Up, Down, Meets;
    ShiftedLowBits(p, n);
    ShiftMeets(mask, LowBits(n), p);
  }

  lemma CheckBitsMeets(mask: bv16, p: nat, n: nat)
    requires n <= 8 && p + n <= 16
    ensures CheckBits(mask, p, n) <==> exists k :: p <= k < p + n && Bit(mask, k)
  {
    hide CheckBits, RunBits, Bit, Meets;
    CheckBitsShifts(mask, p, n);
    MeetsSomeBit(mask, p, n);
  }

  /** The check sees any chunk of the run that is in use. */
  lemma CheckBitsMeetsRun(mask: bv16, p: nat, n: nat)
    requires n <= 8 && p + n <= 16
    ensures CheckBits(mask, p, n) <==> !(Cells(mask) !! Run(p, n))
  {
    hide Bit, CheckBits;
    CheckBitsMeets(mask, p, n);
    if k :| p <= k < p + n && Bit(mask, k) {
      assert k in Cells(mask) && k in Run(p, n);
    }
  }

  lemma ZeroHasNoBit(k: nat)
    requires k < 16
    ensures !Bit(0, k)
  {
  }

  lemma NonZeroHasBit(mask: bv16)
    requires mask != 0
    ensures exists k :: 0 <= k < 16 && Bit(mask, k)
  {
    hide OneBit, RunBits, LowBits, Bit;
    LowBitsTable();
    ShiftedLowBits(0, 8);
    ShiftedLowBits(8, 8);
    MeetsSomeBit(mask, 0, 8);
    MeetsSomeBit(mask, 8, 8);
  }

  lemma CellsCount(mask: bv16)
    ensures |Cells(mask)| <= 16
  {
    hide Bit;
    assert Cells(mask) <= Run(0, 16);
    assert Run(0, 16) == Cells(mask) + (Run(0, 16) - Cells(mask));
  }

  /** A block is free exactly when its mask is zero. */
  lemma FreeMask(mask: bv16)
    ensures Cells(mask) == {} <==> mask == 0
  {
    hide Bit;
    if mask == 0 {
      forall k: nat | k < 16 ensures !Bit(mask, k) {
        ZeroHasNoBit(k);
      }
    } else {
      NonZeroHasBit(mask);
      var k :| 0 <= k < 16 && Bit(mask, k);
      assert k in Cells(mask);
    }
  }
}
