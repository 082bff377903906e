/** The delivered-parts validation mask: one bit per part, packed eight to a byte, marked as parts reach
    their sink and checked before a download reports success. The byte array is proved to represent
    exactly the set of parts marked so far. */
module DeliveredMask {
  import opened Arithmetic
  import opened Numbering

  /** `1u << k`. */
  function OneBit(k: nat): bv8
    requires k < 8
  {
    if k == 0 then 1 else if k == 1 then 2 else if k == 2 then 4 else if k == 3 then 8 else
    if k == 4 then 16 else if k == 5 then 32 else if k == 6 then 64 else 128
  }

  predicate Bit(b: bv8, k: nat)
    requires k < 8
  {
    b & OneBit(k) != 0
  }

  function ByteIndexHoldingPart(part: nat): nat
    requires part >= 1
  {
    (part - 1) / 8
  }

  function BitMaskForPart(part: nat): bv8
    requires part >= 1
  {
    OneBit((part - 1) % 8)
  }

  /** `(1u << count) - 1`: a byte whose lowest `count` bits are set. */
  function ByteWithLowestBitsSet(count: nat): bv8
    requires count <= 8
  {
    if count == 8 then 0xFF else OneBit(count) - 1
  }

  predicate Has(bytes: seq<bv8>, part: nat)
  {
    1 <= part && ByteIndexHoldingPart(part) < |bytes| &&
    Bit(bytes[ByteIndexHoldingPart(part)], (part - 1) % 8)
  }

  /** The set of parts the bytes represent. */
  ghost function Held(bytes: seq<bv8>, n: nat): set<nat> {
    set p | p in Parts(n) && Has(bytes, p)
  }

  lemma OrOneBit(b: bv8, j: nat, k: nat)
    requires j < 8 && k < 8
    ensures Bit(b | OneBit(j), k) <==> j == k || Bit(b, k)
  {
  }

  lemma MarkSetsOneBit(bytes: seq<bv8>, part: nat, other: nat)
    requires 1 <= part && ByteIndexHoldingPart(part) < |bytes|
    ensures var i := ByteIndexHoldingPart(part);
            Has(bytes[i := bytes[i] | BitMaskForPart(part)], other) <==> other == part || Has(bytes, other)
  {
    var i := ByteIndexHoldingPart(part);
    if 1 <= other && ByteIndexHoldingPart(other) == i {
      OrOneBit(bytes[i], (part - 1) % 8, (other - 1) % 8);
    }
  }

  /** Marking a part adds exactly that part to the represented set. */
  lemma MarkAddsExactlyOnePart(bytes: seq<bv8>, part: nat, n: nat)
    requires 1 <= part <= n && ByteIndexHoldingPart(part) < |bytes|
    ensures var i := ByteIndexHoldingPart(part);
            Held(bytes[i := bytes[i] | BitMaskForPart(part)], n) == Held(bytes, n) + {part}
  {
    var i := ByteIndexHoldingPart(part);
    var after := bytes[i := bytes[i] | BitMaskForPart(part)];
    forall q: nat ensures Has(after, q) <==> q == part || Has(bytes, q) {
      MarkSetsOneBit(bytes, part, q);
    }
  }

  /** The byte-wide test: are all of the lowest `count` bits set? */
  predicate AllRequired(b: bv8, count: nat)
    requires count <= 8
  {
    var required := ByteWithLowestBitsSet(count);
    b & required == required
  }

  function MissingBits(b: bv8, count: nat): (missing: bv8)
    requires count <= 8
    ensures missing == 0 <==> AllRequired(b, count)
  {
    ByteWithLowestBitsSet(count) & !b
  }

  lemma MissingBit(b: bv8, count: nat, k: nat)
    requires count <= 8 && k < 8
    ensures Bit(MissingBits(b, count), k) <==> k < count && !Bit(b, k)
  {
  }

  ghost predicate NoBitBelow(b: bv8, k: nat)
    requires k <= 8
  {
    forall j :: 0 <= j < k ==> !Bit(b, j)
  }

  lemma NonZeroHasBit(b: bv8)
    requires b != 0
    ensures !NoBitBelow(b, 8)
  {
    assert Bit(b, 0) || Bit(b, 1) || Bit(b, 2) || Bit(b, 3) || Bit(b, 4) || Bit(b, 5) || Bit(b, 6) || Bit(b, 7);
  }

  /** `aws_ctz_u32`: the position of the lowest set bit. */
  method CountTrailingZeros(b: bv8) returns (r: nat)
    requires b != 0
    ensures r < 8 && Bit(b, r) && NoBitBelow(b, r)
  {
    r := 0;
    NonZeroHasBit(b);
    while !Bit(b, r)
      invariant r < 8 && NoBitBelow(b, r)
      decreases 8 - r
    {
      assert NoBitBelow(b, r + 1);
      r := r + 1;
    }
  }

  lemma HasByBit(bytes: seq<bv8>, i: nat, k: nat)
    requires i < |bytes| && k < 8
    ensures Has(bytes, 8 * i + k + 1) <==> Bit(bytes[i], k)
  {
    assert ByteIndexHoldingPart(8 * i + k + 1) == i && (8 * i + k) % 8 == k;
  }

  /** Every part of byte `i` below its `count`-th is held. */
  ghost predicate HoldsFirst(bytes: seq<bv8>, i: nat, count: nat) {
    forall p: nat :: 8 * i < p <= 8 * i + count ==> Has(bytes, p)
  }

  /** A byte that passes the byte-wide test holds all its required parts. */
  lemma WholeByteHeld(bytes: seq<bv8>, i: nat, count: nat)
    requires i < |bytes| && count <= 8 && AllRequired(bytes[i], count)
    ensures HoldsFirst(bytes, i, count)
  {
    forall p: nat | 8 * i < p <= 8 * i + count ensures Has(bytes, p) {
      HasByBit(bytes, i, p - 1 - 8 * i);
      MissingBit(bytes[i], count, p - 1 - 8 * i);
    }
  }

  /** In a byte that fails it, the lowest missing bit is the first missing part. */
  lemma FirstMissingPart(bytes: seq<bv8>, i: nat, count: nat, k: nat)
    requires i < |bytes| && count <= 8 && k < 8
    requires Bit(MissingBits(bytes[i], count), k) && NoBitBelow(MissingBits(bytes[i], count), k)
    ensures k < count && !Has(bytes, 8 * i + k + 1) && HoldsFirst(bytes, i, k)
  {
    HasByBit(bytes, i, k);
    MissingBit(bytes[i], count, k);
    forall p: nat | 8 * i < p <= 8 * i + k ensures Has(bytes, p) {
      HasByBit(bytes, i, p - 1 - 8 * i);
      MissingBit(bytes[i], count, p - 1 - 8 * i);
    }
  }

  /** One byte of the walk: the first of its `count` required parts that is missing, if any. */
  method FirstPartMissingFromByte(bytes: seq<bv8>, i: nat, count: nat) returns (found: bool, k: nat)
    requires i < |bytes| && count <= 8
    ensures !found ==> HoldsFirst(bytes, i, count)
    ensures found ==> k < count && !Has(bytes, 8 * i + k + 1) && HoldsFirst(bytes, i, k)
  {
    if AllRequired(bytes[i], count) {
      WholeByteHeld(bytes, i, count);
      return false, 0;
    }
    k := CountTrailingZeros(MissingBits(bytes[i], count));
    FirstMissingPart(bytes, i, count, k);
    found := true;
  }

  ghost predicate HoldsAll(bytes: seq<bv8>, n: nat) {
    forall p: nat :: 1 <= p <= n ==> Has(bytes, p)
  }

  lemma HeldAll(bytes: seq<bv8>, n: nat)
    ensures Held(bytes, n) == Parts(n) <==> HoldsAll(bytes, n)
  {
    hide Has;
    if Held(bytes, n) == Parts(n) {
      forall p: nat | 1 <= p <= n ensures Has(bytes, p) {
        assert p in Held(bytes, n);
      }
    }
  }

  lemma AllBelow(bytes: seq<bv8>, n: nat, p: nat)
    requires 1 <= p <= n && HoldsAll(bytes, p - 1)
    ensures Parts(p - 1) <= Held(bytes, n)
  {
    hide Has;
  }

  lemma HeldInRange(bytes: seq<bv8>, n: nat)
    ensures Held(bytes, n) <= Parts(n)
  {
  }

  lemma HeldPart(bytes: seq<bv8>, n: nat, p: nat)
    ensures p in Held(bytes, n) <==> 1 <= p <= n && Has(bytes, p)
  {
  }

  /** The walk over the mask's bytes. Only the low bits of a partial last byte stand for parts. */
  method FirstPartMissing(bytes: seq<bv8>, numParts: nat) returns (found: bool, missing: nat)
    requires |bytes| == (numParts + 7) / 8
    ensures !found ==> HoldsAll(bytes, numParts)
    ensures found ==> 1 <= missing <= numParts && !Has(bytes, missing) && HoldsAll(bytes, missing - 1)
  {
    var numFullBytes := numParts / 8;
    for i := 0 to |bytes|
      invariant HoldsAll(bytes, if i <= numFullBytes then 8 * i else numParts)
    {
      var count := if i >= numFullBytes then numParts % 8 else 8;
      var k;
      found, k := FirstPartMissingFromByte(bytes, i, count);
      if found {
        return true, i * 8 + k + 1;
      }
    }
    return false, 0;
  }

  /** The byte count the check expects of a mask for `n` parts, in 32-bit arithmetic. */
  function ExpectedBytes(n: nat): nat {
    (n + 7) % U32 / 8
  }

  /** The expected byte count is the true one up to 2^32 - 8 parts, and 0 from there on. */
  lemma ExpectedByteCount(n: nat)
    requires n < U32
    ensures ExpectedBytes(n) == if n <= U32 - 8 then (n + 7) / 8 else 0
  {
    if n <= U32 - 8 {
      assert (n + 7) % U32 == n + 7;
    } else {
      assert (n + 7) % U32 == n + 7 - U32;
    }
  }

  method TestPart(bytes: array<bv8>, part: nat) returns (isSet: bool)
    requires 1 <= part && ByteIndexHoldingPart(part) < bytes.Length
    ensures isSet <==> Has(bytes[..], part)
  {
    isSet := bytes[ByteIndexHoldingPart(part)] & BitMaskForPart(part) != 0;
  }

  method SetPart(bytes: array<bv8>, part: nat, ghost n: nat)
    requires 1 <= part <= n && ByteIndexHoldingPart(part) < bytes.Length
    modifies bytes
    ensures Held(bytes[..], n) == old(Held(bytes[..], n)) + {part}
  {
    MarkAddsExactlyOnePart(bytes[..], part, n);
    var i := ByteIndexHoldingPart(part);
    ghost var before := bytes[..];
    bytes[i] := bytes[i] | BitMaskForPart(part);
    assert bytes[..] == before[i := before[i] | BitMaskForPart(part)];
  }

  class Mask {
    var bytes: array?<bv8>  // null until the part count is discovered
    var numParts: nat

    ghost predicate Valid()
      reads this, bytes
    {
      numParts < U32 && (bytes != null ==> bytes.Length == (numParts + 7) / 8)
    }

    /** The set of parts the mask says were delivered. */
    ghost function Marked(): set<nat>
      reads this, bytes
    {
      if bytes == null then {} else Held(bytes[..], numParts)
    }

    constructor ()
      ensures Valid() && bytes == null
    {
      bytes, numParts := null, 0;
    }

    /** Discovery sizes the mask for `n` parts, all of them unmarked. */
    method Allocate(n: nat)
      requires n < U32
      modifies this
      ensures Valid() && bytes != null && fresh(bytes) && numParts == n && Marked() == {}
    {
      bytes := new bv8[(n + 7) / 8](_ => 0);
      numParts := n;
    }

    /** Once validated the mask is freed. */
    method Release()
      modifies this
      ensures Valid() && bytes == null
    {
      bytes, numParts := null, 0;
    }

    /** Fails, changing nothing, exactly on an out-of-range or repeated part. */
    method Mark(part: nat) returns (ok: bool)
      requires Valid()
      modifies bytes
      ensures Valid()
      ensures ok <==> bytes == null || (part in Parts(numParts) && part !in old(Marked()))
      ensures bytes != null && ok ==> Marked() == old(Marked()) + {part}
      ensures bytes != null && !ok ==> bytes[..] == old(bytes[..])
    {
      if bytes == null {
        return true;
      }
      if part < 1 || part > numParts {
        return false;
      }
      if ByteIndexHoldingPart(part) >= bytes.Length {
        return false;
      }
      var alreadyDelivered := TestPart(bytes, part);
      if alreadyDelivered {
        return false;
      }
      SetPart(bytes, part, numParts);
      return true;
    }

    /** Succeeds exactly when every part is marked; otherwise names the smallest part that is not. The
        required byte count is computed in 32 bits, so above 2^32 - 8 parts it wraps and the check fails
        whatever was delivered. */
    method ValidatePartsDelivered() returns (ok: bool, missing: nat)
      requires Valid()
      ensures ok <==> bytes == null || (numParts <= U32 - 8 && Marked() == Parts(numParts))
      ensures !ok && numParts <= U32 - 8 ==>
                1 <= missing <= numParts && missing !in Marked() && Parts(missing - 1) <= Marked()
    {
      hide Has, Held, HoldsAll, ExpectedBytes;
      if bytes == null {
        return true, 0;
      }
      ExpectedByteCount(numParts);
      if bytes.Length != ExpectedBytes(numParts) {
        return false, 0;
      }
      var found;
      found, missing := FirstPartMissing(bytes[..], numParts);
      ok := !found;
      HeldAll(bytes[..], numParts);
      if found {
        HeldPart(bytes[..], numParts, missing);
        AllBelow(bytes[..], numParts, missing);
      }
    }
  }
}
