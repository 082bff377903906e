/** How uploads, copies and downloads cut a range into parts. Range ends are inclusive. */
module PartTiling {
  import opened Arithmetic
  import opened ObjectParts

  datatype Range = Range(start: nat, end: int)

  /** The ranges cover `from .. to - 1` in order, without gap or overlap, each with at least one byte. */
  predicate Tiles(ranges: seq<Range>, from: nat, to: nat)
    decreases |ranges|
  {
    if ranges == [] then from == to
    else ranges[0].start == from && from <= ranges[0].end && Tiles(ranges[1..], ranges[0].end + 1, to)
  }

  // ----- Arithmetic -----

  function CeilDiv(length: nat, size: nat): nat
    requires size > 0
  {
    length / size + if length % size > 0 then 1 else 0
  }

  /** Every part before the last is whole; the last holds what is left, and it is not empty. */
  lemma LastPart(length: nat, size: nat)
    requires length > 0 && size > 0
    ensures var n := CeilDiv(length, size);
            && n >= 1 && (n - 1) * size < length <= n * size
            && (length % size > 0 ==> length == (n - 1) * size + length % size)
            && (length % size == 0 ==> length == n * size)
  {
    DivMod(length, size);
    Distribute(length / size, size);
    if length % size == 0 && length / size > 0 {
      Distribute(length / size - 1, size);
    }
  }

  lemma WholeParts(length: nat, size: nat, p: nat)
    requires length > 0 && size > 0 && 1 <= p < CeilDiv(length, size)
    ensures p * size < length && (p - 1) * size + size == p * size
  {
    LastPart(length, size);
    Scale(p, CeilDiv(length, size) - 1, size);
    Distribute(p - 1, size);
  }

  // ----- Uploads and copies -----

  /** `s_compute_request_body_size`: the last part is the remainder, if there is one. */
  function UploadRange(length: nat, size: nat, p: nat): Range
    requires size > 0 && p >= 1
  {
    var body := if p == CeilDiv(length, size) && length % size > 0 then length % size else size;
    Range((p - 1) * size, (p - 1) * size + body - 1)
  }

  /** The range of an UploadPartCopy: the last part is clamped to the object. */
  function CopyRange(length: nat, size: nat, p: nat): Range
    requires size > 0 && p >= 1
  {
    var end := (p - 1) * size + size - 1;
    Range((p - 1) * size, if end >= length then length - 1 else end)
  }

  /** Uploads and copies cut the same ranges. */
  lemma UploadIsCopy(length: nat, size: nat, p: nat)
    requires length > 0 && size > 0 && 1 <= p <= CeilDiv(length, size)
    ensures UploadRange(length, size, p) == CopyRange(length, size, p)
    ensures UploadRange(length, size, p).end < length
  {
    LastPart(length, size);
    Distribute(p - 1, size);
    if p < CeilDiv(length, size) {
      WholeParts(length, size, p);
    }
  }

  function UploadRanges(length: nat, size: nat, from: nat): seq<Range>
    requires size > 0 && from >= 1
    decreases CeilDiv(length, size) + 1 - from
  {
    if from > CeilDiv(length, size) then []
    else [UploadRange(length, size, from)] + UploadRanges(length, size, from + 1)
  }

  lemma {:induction false} UploadTilesFrom(length: nat, size: nat, from: nat)
    requires length > 0 && size > 0 && 1 <= from <= CeilDiv(length, size)
    ensures Tiles(UploadRanges(length, size, from), (from - 1) * size, length)
    decreases CeilDiv(length, size) + 1 - from
  {
    hide CeilDiv;
    var rest := UploadRanges(length, size, from + 1);
    assert UploadRanges(length, size, from) == [UploadRange(length, size, from)] + rest;
    assert ([UploadRange(length, size, from)] + rest)[1..] == rest;
    UploadStep(length, size, from);
    if from < CeilDiv(length, size) {
      UploadTilesFrom(length, size, from + 1);
    }
  }

  lemma UploadStep(length: nat, size: nat, p: nat)
    requires length > 0 && size > 0 && 1 <= p <= CeilDiv(length, size)
    ensures var r := UploadRange(length, size, p);
            && r.start == (p - 1) * size && r.start <= r.end
            && r.end + 1 == if p == CeilDiv(length, size) then length else p * size
  {
    LastPart(length, size);
    Distribute(p - 1, size);
    if p < CeilDiv(length, size) {
      WholeParts(length, size, p);
    }
  }

  /** The parts of an upload partition its body into non-empty contiguous pieces. */
  lemma UploadTiles(length: nat, size: nat)
    requires length > 0 && size > 0
    ensures Tiles(UploadRanges(length, size, 1), 0, length)
  {
    LastPart(length, size);
    UploadTilesFrom(length, size, 1);
  }

  // ----- Aligning the part size to the buffer pool -----

  /** `s_default_pool_derive_aligned_buffer_size`. */
  function AlignedSize(chunk: nat, size: nat): nat {
    if chunk == 0 then size else CeilDiv(size, chunk) * chunk
  }

  lemma AlignedNotSmaller(chunk: nat, size: nat)
    ensures size <= AlignedSize(chunk, size) && (chunk > 0 ==> AlignedSize(chunk, size) < size + chunk)
  {
    if chunk > 0 {
      DivMod(size, chunk);
      Distribute(size / chunk, chunk);
    }
  }

  /** Fewer or as many larger parts cover the same length. */
  lemma LargerPartsAreFewer(length: nat, size: nat, larger: nat)
    requires length > 0 && 0 < size <= larger
    ensures 1 <= CeilDiv(length, larger) <= CeilDiv(length, size)
  {
    var n, m := CeilDiv(length, size), CeilDiv(length, larger);
    LastPart(length, size);
    LastPart(length, larger);
    if m > n {
      Scale(n, m - 1, larger);
      ScaleRight(n, size, larger);
    }
  }

  lemma ScaleRight(n: nat, a: nat, b: nat)
    requires a <= b
    ensures n * a <= n * b
  {
  }

  /** Aligning the part size upward and recounting keeps the tiling, with no more parts than before. */
  lemma AligningKeepsTiling(length: nat, size: nat, chunk: nat)
    requires length > 0 && size > 0
    ensures AlignedSize(chunk, size) > 0
    ensures Tiles(UploadRanges(length, AlignedSize(chunk, size), 1), 0, length)
    ensures CeilDiv(length, AlignedSize(chunk, size)) <= CeilDiv(length, size)
  {
    AlignedNotSmaller(chunk, size);
    UploadTiles(length, AlignedSize(chunk, size));
    LargerPartsAreFewer(length, size, AlignedSize(chunk, size));
  }

  // ----- Downloads -----

  /** `aws_s3_calculate_auto_ranged_get_num_parts` for the object range `start .. end`. */
  function NumGetParts(size: nat, first: nat, start: nat, end: nat): nat
    requires size > 0
  {
    if first == 0 || start + first > end then 1 else 1 + CeilDiv(end + 1 - (start + first), size)
  }

  /** `aws_s3_calculate_auto_ranged_get_part_range`. */
  function GetRange(size: nat, first: nat, start: nat, end: nat, p: nat): Range
    requires size > 0 && first > 0 && p >= 1
  {
    var from := if p == 1 then start else start + (p - 2) * size + first;
    var to := from + (if p == 1 then first else size) - 1;
    Range(from, if to > end then end else to)
  }

  function GetRanges(size: nat, first: nat, start: nat, end: nat, p: nat): seq<Range>
    requires size > 0 && first > 0 && p >= 1
    decreases NumGetParts(size, first, start, end) + 1 - p
  {
    if p > NumGetParts(size, first, start, end) then []
    else [GetRange(size, first, start, end, p)] + GetRanges(size, first, start, end, p + 1)
  }

  function GetStart(size: nat, first: nat, start: nat, p: nat): nat
    requires p >= 1
  {
    if p == 1 then start else start + (p - 2) * size + first
  }

  lemma GetStep(size: nat, first: nat, start: nat, end: nat, p: nat)
    requires size > 0 && first > 0 && start <= end && 1 <= p <= NumGetParts(size, first, start, end)
    ensures var r := GetRange(size, first, start, end, p);
            && r.start == GetStart(size, first, start, p) && r.start <= r.end
            && r.end + 1 == if p == NumGetParts(size, first, start, end) then end + 1
                            else GetStart(size, first, start, p + 1)
  {
    if start + first <= end {
      var rest := end + 1 - (start + first);
      LastPart(rest, size);
      if p >= 2 {
        Distribute(p - 2, size);
        if p < NumGetParts(size, first, start, end) {
          WholeParts(rest, size, p - 1);
        }
      }
    }
  }

  lemma {:induction false} GetTilesFrom(size: nat, first: nat, start: nat, end: nat, p: nat)
    requires size > 0 && first > 0 && start <= end && 1 <= p <= NumGetParts(size, first, start, end)
    ensures Tiles(GetRanges(size, first, start, end, p), GetStart(size, first, start, p), end + 1)
    decreases NumGetParts(size, first, start, end) + 1 - p
  {
    hide NumGetParts, GetRange, GetStart;
    var r := GetRange(size, first, start, end, p);
    var rest := GetRanges(size, first, start, end, p + 1);
    assert GetRanges(size, first, start, end, p) == [r] + rest;
    assert ([r] + rest)[1..] == rest;
    GetStep(size, first, start, end, p);
    if p < NumGetParts(size, first, start, end) {
      GetTilesFrom(size, first, start, end, p + 1);
    }
  }

  /** The parts of a download partition the object range. */
  lemma GetTiles(size: nat, first: nat, start: nat, end: nat)
    requires size > 0 && first > 0 && start <= end
    ensures Tiles(GetRanges(size, first, start, end, 1), start, end + 1)
    ensures |GetRanges(size, first, start, end, 1)| == NumGetParts(size, first, start, end)
  {
    GetTilesFrom(size, first, start, end, 1);
    GetRangesCount(size, first, start, end, 1);
  }

  lemma {:induction false} GetRangesCount(size: nat, first: nat, start: nat, end: nat, p: nat)
    requires size > 0 && first > 0 && 1 <= p <= NumGetParts(size, first, start, end) + 1
    ensures |GetRanges(size, first, start, end, p)| == NumGetParts(size, first, start, end) + 1 - p
    decreases NumGetParts(size, first, start, end) + 1 - p
  {
    hide NumGetParts, GetRange;
    if p <= NumGetParts(size, first, start, end) {
      GetRangesCount(size, first, start, end, p + 1);
    }
  }

  /** `aws_s3_calculate_auto_ranged_get_num_parts`, which counts in 32 bits. */
  function NumGetParts32(size: nat, first: nat, start: nat, end: nat): nat
    requires size > 0 && first > 0
  {
    if start + first > end then 1
    else
      var rest := end + 1 - (start + first);
      ((1 + rest / size % U32) % U32 + if rest % size > 0 then 1 else 0) % U32
  }

  lemma Wraps(a: nat, b: nat)
    ensures (a + b % U32) % U32 == (a + b) % U32 && (a % U32 + b) % U32 == (a + b) % U32
  {
  }

  /** The count is the number of ranges that tile the download exactly when there are fewer than 2^32 of them. */
  lemma GetCountFits(size: nat, first: nat, start: nat, end: nat)
    requires size > 0 && first > 0 && start <= end
    ensures NumGetParts32(size, first, start, end) == NumGetParts(size, first, start, end) % U32
    ensures NumGetParts32(size, first, start, end) == |GetRanges(size, first, start, end, 1)| <==>
            NumGetParts(size, first, start, end) < U32
  {
    hide GetRanges;
    GetTiles(size, first, start, end);
    if start + first <= end {
      var rest := end + 1 - (start + first);
      CountWraps(rest / size, if rest % size > 0 then 1 else 0);
    }
  }

  lemma CountWraps(whole: nat, extra: nat)
    ensures ((1 + whole % U32) % U32 + extra) % U32 == (1 + whole + extra) % U32
  {
    Wraps(1, whole);
    Wraps(1 + whole, extra);
  }

  /** 2^32 parts of one byte are counted as none. */
  lemma GetCountWraps()
    ensures NumGetParts32(1, 1, 0, U32 - 1) == 0 && NumGetParts(1, 1, 0, U32 - 1) == U32
  {
  }

  // ----- Tilings and parts -----

  /** The ranges lie inside the object. */
  predicate Inside(ranges: seq<Range>, length: nat) {
    forall i :: 0 <= i < |ranges| ==> ranges[i].start <= ranges[i].end + 1 <= length
  }

  /** The parts an object is downloaded as, when each response body fills the range it was asked for. */
  function PartsOf(data: seq<byte>, ranges: seq<Range>): seq<Part>
    requires Inside(ranges, |data|)
  {
    if ranges == [] then []
    else
      var r := ranges[0];
      assert r.start <= r.end + 1 <= |data|;
      [Part(r.start, r.end, data[r.start..r.end + 1])] + PartsOf(data, ranges[1..])
  }

  lemma {:induction false} TilesInside(ranges: seq<Range>, from: nat, to: nat)
    requires Tiles(ranges, from, to)
    ensures from <= to && Inside(ranges, to)
    decreases |ranges|
  {
    if ranges != [] {
      TilesInside(ranges[1..], ranges[0].end + 1, to);
      assert forall i :: 1 <= i < |ranges| ==> ranges[i] == ranges[1..][i - 1];
    }
  }

  /** The joining of a first part onto a list of parts. */
  lemma JoinParts(p: Part, rest: seq<Part>, next: nat)
    requires Contiguous(rest) && Linked(rest) && (rest != [] ==> rest[0].start == next)
    requires p.end + 1 == next && next == p.start + |p.body|
    ensures Contiguous([p] + rest) && Linked([p] + rest)
  {
    var all := [p] + rest;
    assert forall i :: 0 <= i < |rest| ==> all[i + 1] == rest[i];
    forall i | 0 <= i < |all| - 1
      ensures all[i + 1].start == all[i].start + |all[i].body| && all[i].end + 1 == all[i + 1].start
    {
      if i > 0 {
        assert all[i] == rest[i - 1] && all[i + 1] == rest[i];
      }
    }
  }

  lemma {:induction false} ContentJoin(p: Part, rest: seq<Part>)
    ensures Content([p] + rest) == p.body + Content(rest)
  {
    var all := [p] + rest;
    if rest == [] {
      assert all == [p] && all[..0] == [];
    } else {
      var k := |rest| - 1;
      assert all[..|all| - 1] == [p] + rest[..k];
      ContentJoin(p, rest[..k]);
    }
  }

  lemma Slices(data: seq<byte>, from: nat, mid: nat, to: nat)
    requires from <= mid <= to <= |data|
    ensures data[from..to] == data[from..mid] + data[mid..to]
  {
  }

  /** Any tiling of an object range gives parts that are contiguous, join up, and make up that range. */
  lemma {:induction false} TiledObject(data: seq<byte>, ranges: seq<Range>, from: nat, to: nat)
    requires Tiles(ranges, from, to) && to <= |data|
    ensures from <= to && Inside(ranges, |data|)
    ensures var parts := PartsOf(data, ranges);
            && Contiguous(parts) && Linked(parts) && |parts| == |ranges|
            && (parts != [] ==> parts[0].start == from)
            && Content(parts) == data[from..to]
    decreases |ranges|
  {
    hide Contiguous, Linked, Content, PartsOf, Inside, Tiles;
    TilesInside(ranges, from, to);
    InsideMore(ranges, to, |data|);
    if ranges == [] {
      TiledNothing(data, from, to);
    } else {
      TilesHead(ranges, from, to);
      var mid := ranges[0].end + 1;
      TilesInside(ranges[1..], mid, to);
      TiledObject(data, ranges[1..], mid, to);
      PartsStep(data, ranges);
      JoinObject(data, PartsOf(data, ranges[1..]), from, mid, to);
    }
  }

  lemma TiledNothing(data: seq<byte>, from: nat, to: nat)
    requires Tiles([], from, to) && to <= |data|
    ensures Inside([], |data|) && PartsOf(data, []) == []
    ensures Contiguous([]) && Linked([]) && Content([]) == data[from..to]
  {
  }

  lemma TilesHead(ranges: seq<Range>, from: nat, to: nat)
    requires Tiles(ranges, from, to) && ranges != []
    ensures ranges[0].start == from <= ranges[0].end && Tiles(ranges[1..], ranges[0].end + 1, to)
  {
  }

  lemma InsideMore(ranges: seq<Range>, to: nat, length: nat)
    requires Inside(ranges, to) && to <= length
    ensures Inside(ranges, length)
  {
  }

  lemma JoinObject(data: seq<byte>, rest: seq<Part>, from: nat, mid: nat, to: nat)
    requires from <= mid <= to <= |data|
    requires Contiguous(rest) && Linked(rest) && (rest != [] ==> rest[0].start == mid) && Content(rest) == data[mid..to]
    ensures var all := [Part(from, mid - 1, data[from..mid])] + rest;
            Contiguous(all) && Linked(all) && all[0].start == from && Content(all) == data[from..to]
  {
    hide Contiguous, Linked, Content;
    var p := Part(from, mid - 1, data[from..mid]);
    JoinParts(p, rest, mid);
    ContentJoin(p, rest);
    Slices(data, from, mid, to);
  }

  lemma PartsStep(data: seq<byte>, ranges: seq<Range>)
    requires Inside(ranges, |data|) && ranges != []
    ensures var r := ranges[0];
            && r.start <= r.end + 1 <= |data| && Inside(ranges[1..], |data|)
            && PartsOf(data, ranges) == [Part(r.start, r.end, data[r.start..r.end + 1])] + PartsOf(data, ranges[1..])
  {
  }

  /** The parts with the first one's recorded end set by the size reserved for it. */
  function WithReserved(parts: seq<Part>, reserved: nat): seq<Part> {
    if parts == [] then [] else parts[0 := parts[0].(end := parts[0].start + reserved - 1)]
  }

  /** A part-number-1 discovery records its first part's end from the size it reserved. Recording then joins up
      exactly when that reservation was the first part's size, or there is no second part. */
  lemma ReservedFirstPart(parts: seq<Part>, reserved: nat)
    requires parts != [] && Contiguous(parts) && Linked(parts) && reserved >= 1
    ensures var recorded := WithReserved(parts, reserved);
            && Contiguous(recorded)
            && (Linked(recorded) <==> |parts| == 1 || reserved == |parts[0].body|)
  {
    var recorded := WithReserved(parts, reserved);
    if |parts| > 1 {
      assert recorded[1] == parts[1];
      assert parts[0 + 1].start == parts[0].start + |parts[0].body|;
      if reserved == |parts[0].body| {
        forall i | 0 <= i < |recorded| - 1 ensures recorded[i].end + 1 == recorded[i + 1].start {
          assert parts[i].end + 1 == parts[i + 1].start;
        }
      } else {
        assert recorded[0].end + 1 != recorded[0 + 1].start;
      }
    }
  }
}
