/** The whole-object checksum of a download, folded from one digest per part. The CRC functions themselves are
    the library's; only the laws in `Lawful` are used of them. */
module ChecksumFold {
  import opened ObjectParts

  datatype Library = Library(
    crc: seq<byte> -> nat,
    extend: (nat, seq<byte>) -> nat,       // a running value fed more bytes
    combine: (nat, nat, nat) -> nat,       // head value, tail value, tail length
    width: nat)                            // digest size in bytes

  /** The value is that of everything fed so far, values compose, and they fit their digest. */
  ghost predicate Lawful(lib: Library) {
    && (forall a: seq<byte>, b: seq<byte> :: lib.combine(lib.crc(a), lib.crc(b), |b|) == lib.crc(a + b))
    && (forall a: seq<byte>, b: seq<byte> :: lib.extend(lib.crc(a), b) == lib.crc(a + b))
    && (forall a: seq<byte> :: lib.crc(a) < Power(lib.width))
    && lib.width > 0
  }

  // ----- Digests are big-endian -----

  function Power(n: nat): nat {
    if n == 0 then 1 else 256 * Power(n - 1)
  }

  function BigEndian(v: nat, n: nat): (digest: seq<byte>)
    ensures |digest| == n
  {
    if n == 0 then [] else BigEndian(v / 256, n - 1) + [v % 256]
  }

  function FromBigEndian(digest: seq<byte>): nat {
    if digest == [] then 0
    else 256 * FromBigEndian(digest[..|digest| - 1]) + digest[|digest| - 1]
  }

  /** Reading a digest back gives the value it was written from. */
  lemma {:induction false} DigestRoundTrip(v: nat, n: nat)
    requires v < Power(n)
    ensures FromBigEndian(BigEndian(v, n)) == v
  {
    if n > 0 {
      DigestRoundTrip(v / 256, n - 1);
      var digest := BigEndian(v, n);
      assert digest[..|digest| - 1] == BigEndian(v / 256, n - 1);
    }
  }

  // ----- Slots -----

  /** A part's digest and length; no digest means none was recorded. */
  datatype Slot = Slot(length: nat, digest: seq<byte>)

  const EMPTY := Slot(0, [])

  /** `s_s3_meta_request_record_part_digest`: a part beyond the slots is ignored. */
  function Record(slots: seq<Slot>, part: nat, length: nat, digest: seq<byte>): seq<Slot>
    requires part > 0
  {
    if part > |slots| then slots else slots[part - 1 := Slot(length, digest)]
  }

  /** A part's checksum, computed from its body. */
  function Digest(lib: Library, body: seq<byte>): seq<byte> {
    BigEndian(lib.crc(body), lib.width)
  }

  /** A running sum; it is no longer good once finalized. */
  datatype Running = Running(value: nat, good: bool)

  datatype Folded = Folded(ok: bool, sum: Running)

  /** `aws_checksum_combine_digest`. */
  function CombineDigest(lib: Library, sum: Running, s: Slot): Folded {
    if !sum.good || |s.digest| != lib.width then Folded(false, sum)
    else Folded(true, sum.(value := lib.combine(sum.value, FromBigEndian(s.digest), s.length)))
  }

  /** The fold over the slots from index `i`. A slot without a digest ends it, and what was folded up to there
      stays in the sum. */
  function FoldFrom(lib: Library, sum: Running, slots: seq<Slot>, i: nat): Folded
    requires i <= |slots|
    decreases |slots| - i
  {
    if i == |slots| then Folded(true, sum)
    else if slots[i].digest == [] then Folded(false, sum)
    else
      var r := CombineDigest(lib, sum, slots[i]);
      if r.ok then FoldFrom(lib, r.sum, slots, i + 1) else r
  }

  /** `s_s3_meta_request_fold_combine_slots`. */
  function Fold(lib: Library, sum: Running, slots: seq<Slot>): Folded {
    if slots == [] then Folded(false, sum) else FoldFrom(lib, sum, slots, 0)
  }

  /** A sum nothing was fed to. */
  function NewSum(lib: Library): Running {
    Running(lib.crc([]), true)
  }

  // ----- Recording in any order -----

  /** A part whose checksum completed, with the body it was computed from. */
  datatype Recording = Recording(part: nat, body: seq<byte>)

  function RecordAll(lib: Library, slots: seq<Slot>, rs: seq<Recording>): (r: seq<Slot>)
    requires forall i :: 0 <= i < |rs| ==> rs[i].part > 0
    ensures |r| == |slots|
  {
    if rs == [] then slots
    else
      var last := rs[|rs| - 1];
      Record(RecordAll(lib, slots, rs[..|rs| - 1]), last.part, |last.body|, Digest(lib, last.body))
  }

  predicate Recorded(rs: seq<Recording>, part: nat) {
    rs != [] && (rs[|rs| - 1].part == part || Recorded(rs[..|rs| - 1], part))
  }

  /** The body of the last recording of a part. */
  function LastBody(rs: seq<Recording>, part: nat): seq<byte>
    requires Recorded(rs, part)
  {
    if rs[|rs| - 1].part == part then rs[|rs| - 1].body else LastBody(rs[..|rs| - 1], part)
  }

  function NoSlots(n: nat): (slots: seq<Slot>)
    ensures |slots| == n && forall i :: 0 <= i < n ==> slots[i] == EMPTY
  {
    seq(n, i => EMPTY)
  }

  /** A slot holds its part's last recording, whatever the order, or nothing. */
  lemma {:induction false} SlotHoldsLast(lib: Library, n: nat, rs: seq<Recording>, part: nat)
    requires (forall i :: 0 <= i < |rs| ==> rs[i].part > 0) && 1 <= part <= n
    ensures var s := RecordAll(lib, NoSlots(n), rs)[part - 1];
            if Recorded(rs, part) then
              s == Slot(|LastBody(rs, part)|, Digest(lib, LastBody(rs, part)))
            else s == EMPTY
  {
    if rs != [] {
      SlotHoldsLast(lib, n, rs[..|rs| - 1], part);
    }
  }

  // ----- The fold is the checksum of the object -----

  ghost predicate SlotsOf(lib: Library, parts: seq<Part>, slots: seq<Slot>) {
    |slots| == |parts| && forall i :: 0 <= i < |parts| ==> slots[i] == Slot(|parts[i].body|, Digest(lib, parts[i].body))
  }

  lemma CombineStep(lib: Library, before: seq<byte>, body: seq<byte>)
    requires Lawful(lib)
    ensures var r := CombineDigest(lib, Running(lib.crc(before), true), Slot(|body|, Digest(lib, body)));
            r == Folded(true, Running(lib.crc(before + body), true)) && Digest(lib, body) != []
  {
    DigestRoundTrip(lib.crc(body), lib.width);
  }

  lemma {:induction false} FoldFromChecksum(lib: Library, parts: seq<Part>, slots: seq<Slot>, i: nat)
    requires Lawful(lib) && SlotsOf(lib, parts, slots) && i <= |parts|
    ensures FoldFrom(lib, Running(lib.crc(Content(parts[..i])), true), slots, i) ==
            Folded(true, Running(lib.crc(Content(parts)), true))
    decreases |parts| - i
  {
    if i == |parts| {
      assert parts[..i] == parts;
    } else {
      CombineStep(lib, Content(parts[..i]), parts[i].body);
      ContentStep(parts, i);
      FoldFromChecksum(lib, parts, slots, i + 1);
    }
  }

  lemma {:induction false} FoldFromStops(lib: Library, sum: Running, slots: seq<Slot>, i: nat, k: nat)
    requires i <= k < |slots| && slots[k].digest == []
    ensures !FoldFrom(lib, sum, slots, i).ok
    decreases |slots| - i
  {
    if i < k && slots[i].digest != [] {
      var r := CombineDigest(lib, sum, slots[i]);
      if r.ok {
        FoldFromStops(lib, r.sum, slots, i + 1, k);
      }
    }
  }

  /** Recorded in any order, with retries overwriting and stray parts ignored, the digests of all parts fold into
      the checksum of the whole object; if any part recorded none, or the sum was finalized before, the fold says
      so. */
  lemma {:induction false} FoldIsObjectChecksum(lib: Library, parts: seq<Part>, rs: seq<Recording>)
    requires Lawful(lib) && parts != [] && forall i :: 0 <= i < |rs| ==> rs[i].part > 0
    requires forall p :: 1 <= p <= |parts| && Recorded(rs, p) ==> LastBody(rs, p) == PartOf(parts, p).body
    ensures var slots := RecordAll(lib, NoSlots(|parts|), rs);
            var r := Fold(lib, NewSum(lib), slots);
            && (r.ok <==> forall p :: 1 <= p <= |parts| ==> Recorded(rs, p))
            && (r.ok ==> r.sum == Running(lib.crc(Content(parts)), true))
            && (forall value :: !Fold(lib, Running(value, false), slots).ok)
  {
    hide Lawful, Digest, RecordAll, Content, SlotsOf;
    assert forall value :: !Fold(lib, Running(value, false), RecordAll(lib, NoSlots(|parts|), rs)).ok;
    hide Fold;
    if p :| 1 <= p <= |parts| && !Recorded(rs, p) {
      MissingPartFolds(lib, |parts|, rs, p);
    } else {
      SlotsRecorded(lib, parts, rs);
      AllPartsFold(lib, parts, RecordAll(lib, NoSlots(|parts|), rs));
    }
  }

  lemma {:induction false} MissingPartFolds(lib: Library, n: nat, rs: seq<Recording>, p: nat)
    requires (forall i :: 0 <= i < |rs| ==> rs[i].part > 0) && 1 <= p <= n && !Recorded(rs, p)
    ensures !Fold(lib, NewSum(lib), RecordAll(lib, NoSlots(n), rs)).ok
  {
    hide RecordAll, Digest;
    SlotHoldsLast(lib, n, rs, p);
    FoldFromStops(lib, NewSum(lib), RecordAll(lib, NoSlots(n), rs), 0, p - 1);
  }

  lemma {:induction false} SlotRecorded(lib: Library, parts: seq<Part>, rs: seq<Recording>, i: nat)
    requires forall k :: 0 <= k < |rs| ==> rs[k].part > 0
    requires i < |parts| && Recorded(rs, i + 1) && LastBody(rs, i + 1) == PartOf(parts, i + 1).body
    ensures RecordAll(lib, NoSlots(|parts|), rs)[i] == Slot(|parts[i].body|, Digest(lib, parts[i].body))
  {
    SlotHoldsLast(lib, |parts|, rs, i + 1);
  }

  lemma {:induction false} SlotsRecorded(lib: Library, parts: seq<Part>, rs: seq<Recording>)
    requires forall i :: 0 <= i < |rs| ==> rs[i].part > 0
    requires forall p :: 1 <= p <= |parts| ==> Recorded(rs, p) && LastBody(rs, p) == PartOf(parts, p).body
    ensures SlotsOf(lib, parts, RecordAll(lib, NoSlots(|parts|), rs))
  {
    hide RecordAll, Digest;
    forall i | 0 <= i < |parts|
      ensures RecordAll(lib, NoSlots(|parts|), rs)[i] == Slot(|parts[i].body|, Digest(lib, parts[i].body))
    {
      assert Recorded(rs, i + 1);
      SlotRecorded(lib, parts, rs, i);
    }
  }

  lemma {:induction false} AllPartsFold(lib: Library, parts: seq<Part>, slots: seq<Slot>)
    requires Lawful(lib) && parts != [] && SlotsOf(lib, parts, slots)
    ensures Fold(lib, NewSum(lib), slots) == Folded(true, Running(lib.crc(Content(parts)), true))
  {
    hide Lawful, Digest, SlotsOf;
    assert slots != [] by {
      SlotsCount(lib, parts, slots);
    }
    assert parts[..0] == [];
    FoldFromChecksum(lib, parts, slots, 0);
  }

  lemma SlotsCount(lib: Library, parts: seq<Part>, slots: seq<Slot>)
    requires SlotsOf(lib, parts, slots)
    ensures |slots| == |parts|
  {
  }

  lemma SlotOf(lib: Library, parts: seq<Part>, slots: seq<Slot>, i: nat)
    requires SlotsOf(lib, parts, slots) && i < |slots|
    ensures i < |parts| && slots[i] == Slot(|parts[i].body|, Digest(lib, parts[i].body))
  {
  }

  lemma NoContent(parts: seq<Part>)
    ensures Content(parts[..0]) == []
  {
  }

  // ----- The checksum objects and the slots as they are updated in place -----

  /** A running CRC; finalizing it makes it unusable. `fed` is what it is the sum of, as far as that is `known`:
      combining the digest of bytes nobody can name leaves a value that is the sum of nothing in particular. */
  class Checksum {
    const lib: Library
    var value: nat
    var good: bool
    ghost var fed: seq<byte>
    ghost var known: bool

    ghost predicate Valid()
      reads this
    {
      Lawful(lib) && (known ==> value == lib.crc(fed))
    }

    ghost function Model(): Running
      reads this
    {
      Running(value, good)
    }

    constructor (lib: Library)
      requires Lawful(lib)
      ensures Valid() && Model() == NewSum(lib) && known && fed == [] && this.lib == lib
    {
      this.lib := lib;
      value, good, fed, known := lib.crc([]), true, [], true;
    }

    method Update(data: seq<byte>) returns (ok: bool)
      requires Valid()
      modifies this`value, this`fed
      ensures Valid() && ok == good && fed == if ok then old(fed) + data else old(fed)
    {
      if !good {
        return false;
      }
      value, fed := lib.extend(value, data), fed + data;
      return true;
    }

    /** The digest of everything fed, once. */
    method Finalize() returns (ok: bool, digest: seq<byte>)
      requires Valid()
      modifies this`good
      ensures Valid() && ok == old(good) && !good
      ensures digest == if ok then BigEndian(value, lib.width) else []
      ensures ok && known ==> digest == Digest(lib, fed)
    {
      if !good {
        return false, [];
      }
      good := false;
      return true, BigEndian(value, lib.width);
    }

    /** `aws_checksum_combine_digest`. If the digest is that of `tail`, those bytes count as fed. */
    method Combine(s: Slot, ghost tail: seq<byte>) returns (ok: bool)
      requires Valid()
      modifies this`value, this`fed, this`known
      ensures Valid() && Folded(ok, Model()) == CombineDigest(lib, old(Model()), s)
      ensures fed == (if ok then old(fed) + tail else old(fed))
      ensures known == (old(known) && (ok ==> s == Slot(|tail|, Digest(lib, tail))))
    {
      if !good || |s.digest| != lib.width {
        return false;
      }
      CombineStep(lib, fed, tail);
      value, fed := lib.combine(value, FromBigEndian(s.digest), s.length), fed + tail;
      known := known && s == Slot(|tail|, Digest(lib, tail));
      return true;
    }
  }

  class CombineSlots {
    const lib: Library
    var slots: array<Slot>

    constructor (lib: Library, parts: nat)
      ensures this.lib == lib && slots[..] == NoSlots(parts) && fresh(slots)
    {
      this.lib := lib;
      slots := new Slot[parts](i => EMPTY);
      new;
      assert slots[..] == NoSlots(parts);
    }

    method RecordPartDigest(part: nat, length: nat, digest: seq<byte>)
      requires part > 0
      modifies slots
      ensures slots[..] == Record(old(slots[..]), part, length, digest)
    {
      if part > slots.Length {
        return;
      }
      slots[part - 1] := Slot(length, digest);
    }

    /** Fold the slots into the running sum. If they hold the digests of `parts`, the bytes of those are then fed. */
    method FoldSlots(sum: Checksum, ghost parts: seq<Part>) returns (ok: bool)
      requires sum.Valid() && sum.lib == lib
      modifies sum`value, sum`fed, sum`known
      ensures sum.Valid() && Folded(ok, sum.Model()) == Fold(lib, old(sum.Model()), slots[..])
      ensures ok && old(sum.known) && SlotsOf(lib, parts, slots[..]) ==>
                sum.known && sum.fed == old(sum.fed) + Content(parts)
    {
      hide Lawful, Digest, CombineDigest, Content, SlotsOf;
      if slots.Length == 0 {
        return false;
      }
      ghost var named := old(sum.known) && SlotsOf(lib, parts, slots[..]);
      ghost var all := slots[..];
      var i := 0;
      NoContent(parts);
      if named {
        SlotsCount(lib, parts, all);
      }
      while i < slots.Length
        invariant i <= slots.Length && sum.Valid() && all == slots[..]
        invariant FoldFrom(lib, sum.Model(), all, i) == Fold(lib, old(sum.Model()), all)
        invariant named ==> |parts| == |all| && sum.known && sum.fed == old(sum.fed) + Content(parts[..i])
      {
        if slots[i].digest == [] {
          return false;
        }
        ghost var tail := if i < |parts| then parts[i].body else [];
        if named {
          SlotOf(lib, parts, all, i);
          ContentStep(parts, i);
        }
        ok := sum.Combine(slots[i], tail);
        if !ok {
          return false;
        }
        i := i + 1;
      }
      if named {
        assert parts[..i] == parts;
      }
      return true;
    }
  }
}
