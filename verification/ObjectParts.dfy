/** The parts a download is split into, and the object range they tile. */
module ObjectParts {

  type byte = b: int | 0 <= b < 256

  /** One part: the inclusive object range recorded for it and the body the service answered with. */
  datatype Part = Part(start: nat, end: int, body: seq<byte>)

  /** The part bodies concatenated in part order. */
  function Content(parts: seq<Part>): seq<byte> {
    if parts == [] then [] else Content(parts[..|parts| - 1]) + parts[|parts| - 1].body
  }

  /** Each part's range starts where the body before it ends. */
  predicate Contiguous(parts: seq<Part>) {
    forall i :: 0 <= i < |parts| - 1 ==> parts[i + 1].start == parts[i].start + |parts[i].body|
  }

  /** Each part's range, as recorded, ends where the next one starts. */
  predicate Linked(parts: seq<Part>) {
    forall i :: 0 <= i < |parts| - 1 ==> parts[i].end + 1 == parts[i + 1].start
  }

  /** The part numbered `p` (part numbers run from 1). */
  function PartOf(parts: seq<Part>, p: nat): Part
    requires 1 <= p <= |parts|
  {
    parts[p - 1]
  }

  lemma ContentStep(parts: seq<Part>, k: nat)
    requires k < |parts|
    ensures Content(parts[..k + 1]) == Content(parts[..k]) + parts[k].body
  {
    assert parts[..k + 1][..k] == parts[..k];
  }

  lemma {:induction false} ContentPrefix(parts: seq<Part>, k: nat)
    requires k <= |parts|
    ensures Content(parts[..k]) <= Content(parts)
    decreases |parts| - k
  {
    if k == |parts| {
      assert parts[..k] == parts;
    } else {
      ContentStep(parts, k);
      ContentPrefix(parts, k + 1);
    }
  }

  /** A part starts at the first part's start plus everything before it. */
  lemma {:induction false} StartOf(parts: seq<Part>, k: nat)
    requires Contiguous(parts) && k < |parts|
    ensures parts[k].start == parts[0].start + |Content(parts[..k])|
  {
    if k == 0 {
      assert parts[..0] == [];
    } else {
      StartOf(parts, k - 1);
      ContentStep(parts, k - 1);
    }
  }
}
