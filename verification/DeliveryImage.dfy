/** Where the delivered bytes land when each chunk is written at the offset it was delivered at, as the file sink
    and the write workers do. */
module DeliveryImage {
  import opened ObjectParts
  import opened Delivery
  import opened DeliveryLog

  /** A file's bytes by object offset; only written offsets are present. */
  type Image = map<nat, byte>

  function WriteAt(image: Image, at: nat, data: seq<byte>): (r: Image)
    ensures forall k :: k in r <==> k in image || at <= k < at + |data|
    ensures forall k :: k in r ==> r[k] == if at <= k < at + |data| then data[k - at] else image[k]
  {
    if data == [] then image
    else WriteAt(image, at, data[..|data| - 1])[at + |data| - 1 := data[|data| - 1]]
  }

  /** The file after every chunk of the log was written, in the order the sink received them. */
  function ImageOf(log: seq<Chunk>): Image {
    if log == [] then map[]
    else WriteAt(ImageOf(log[..|log| - 1]), log[|log| - 1].offset, log[|log| - 1].data)
  }

  /** The first `n` bytes of part `p` are in the file, where they belong. */
  ghost predicate Holds(plan: Plan, image: Image, p: nat, n: nat)
    requires 1 <= p <= |plan.parts| && n <= |PartBody(plan, p)|
  {
    forall k :: PartOf(plan.parts, p).start <= k < PartOf(plan.parts, p).start + n ==>
      k in image && image[k] == PartBody(plan, p)[k - PartOf(plan.parts, p).start]
  }

  /** The ranges of different parts do not overlap. */
  lemma {:induction false} PartsApart(parts: seq<Part>, p: nat, q: nat)
    requires Contiguous(parts) && 1 <= p < q <= |parts|
    ensures PartOf(parts, p).start + |PartOf(parts, p).body| <= PartOf(parts, q).start
    decreases q
  {
    assert parts[q - 2 + 1].start == parts[q - 2].start + |parts[q - 2].body|;
    if p < q - 1 {
      PartsApart(parts, p, q - 1);
    }
  }

  /** A chunk of one part leaves what the file holds of another as it is. */
  lemma HoldsOther(plan: Plan, image: Image, p: nat, n: nat, c: Chunk, from: nat)
    requires Contiguous(plan.parts) && 1 <= p <= |plan.parts| && n <= |PartBody(plan, p)| && Holds(plan, image, p, n)
    requires 1 <= c.part <= |plan.parts| && c.part != p && from + |c.data| <= |PartBody(plan, c.part)|
    requires c.offset == PartOf(plan.parts, c.part).start + from
    ensures Holds(plan, WriteAt(image, c.offset, c.data), p, n)
  {
    if p < c.part {
      PartsApart(plan.parts, p, c.part);
    } else {
      PartsApart(plan.parts, c.part, p);
    }
  }

  lemma HoldsMore(plan: Plan, image: Image, c: Chunk, from: nat)
    requires 1 <= c.part <= |plan.parts| && from + |c.data| <= |PartBody(plan, c.part)|
    requires Holds(plan, image, c.part, from) && c.offset == PartOf(plan.parts, c.part).start + from
    requires c.data == PartBody(plan, c.part)[from..from + |c.data|]
    ensures Holds(plan, WriteAt(image, c.offset, c.data), c.part, from + |c.data|)
  {
  }

  /** Whatever the order of delivery, the file holds of each part what the sink received of it. */
  lemma {:induction false} ImageHolds(plan: Plan, log: seq<Chunk>, p: nat)
    requires LogOk(plan, log) && Contiguous(plan.parts) && 1 <= p <= |plan.parts|
    ensures Sent(log, p) <= |PartBody(plan, p)| && Holds(plan, ImageOf(log), p, Sent(log, p))
  {
    hide Holds, WriteAt;
    PartStream(plan, log, p);
    if log == [] {
      NothingHeld(plan, p);
    } else {
      var before, c := log[..|log| - 1], log[|log| - 1];
      ImageHolds(plan, before, p);
      if c.part == p {
        HoldsMore(plan, ImageOf(before), c, Sent(before, p));
      } else {
        HoldsOther(plan, ImageOf(before), p, Sent(before, p), c, Sent(before, c.part));
      }
    }
  }

  lemma NothingHeld(plan: Plan, p: nat)
    requires 1 <= p <= |plan.parts|
    ensures Holds(plan, map[], p, 0)
  {
  }

  /** A part lies inside the object range. */
  lemma PartInside(parts: seq<Part>, p: nat)
    requires Contiguous(parts) && 1 <= p <= |parts|
    ensures parts[0].start <= PartOf(parts, p).start
    ensures PartOf(parts, p).start + |PartOf(parts, p).body| <= parts[0].start + |Content(parts)|
  {
    hide Content, Contiguous;
    StartOf(parts, p - 1);
    ContentStep(parts, p - 1);
    ContentPrefix(parts, p);
  }

  lemma ByteOfPart(parts: seq<Part>, p: nat, j: nat)
    requires Contiguous(parts) && 1 <= p <= |parts| && j < |PartOf(parts, p).body|
    ensures 0 <= PartOf(parts, p).start - parts[0].start + j < |Content(parts)|
    ensures Content(parts)[PartOf(parts, p).start - parts[0].start + j] == PartOf(parts, p).body[j]
  {
    hide Content, Contiguous;
    StartOf(parts, p - 1);
    ContentStep(parts, p - 1);
    ContentPrefix(parts, p);
    assert Content(parts[..p])[|Content(parts[..p - 1])| + j] == parts[p - 1].body[j];
  }

  /** Nothing is written outside the object range. */
  lemma {:induction false} ImageInside(plan: Plan, log: seq<Chunk>)
    requires LogOk(plan, log) && Contiguous(plan.parts) && plan.parts != []
    ensures forall k :: k in ImageOf(log) ==>
              plan.parts[0].start <= k < plan.parts[0].start + |Content(plan.parts)|
  {
    hide Content;
    if log != [] {
      ImageInside(plan, log[..|log| - 1]);
      PartInside(plan.parts, log[|log| - 1].part);
    }
  }

  /** Every offset of the object range belongs to a part. */
  lemma {:induction false} PartHolding(parts: seq<Part>, n: nat, k: nat) returns (p: nat)
    requires Contiguous(parts) && 1 <= n <= |parts| && k < |Content(parts[..n])|
    ensures 1 <= p <= n
    ensures PartOf(parts, p).start <= parts[0].start + k < PartOf(parts, p).start + |PartOf(parts, p).body|
  {
    ContentStep(parts, n - 1);
    StartOf(parts, n - 1);
    assert parts[..0] == [];
    if k < |Content(parts[..n - 1])| {
      p := PartHolding(parts, n - 1, k);
    } else {
      p := n;
    }
  }

  /** The file holds exactly the object range, each byte at its own offset. */
  ghost predicate IsObject(plan: Plan, image: Image) {
    plan.parts != [] ==>
      var origin := plan.parts[0].start;
      && (forall k :: k in image <==> origin <= k < origin + |Content(plan.parts)|)
      && (forall k :: k in image ==> image[k] == Content(plan.parts)[k - origin])
  }

  /** Once the sink received every part whole, in any order, the file is exactly the object. */
  lemma ImageIsObject(plan: Plan, log: seq<Chunk>)
    requires LogOk(plan, log) && Contiguous(plan.parts)
    requires forall p :: 1 <= p <= |plan.parts| ==> Sent(log, p) == |PartBody(plan, p)|
    ensures IsObject(plan, ImageOf(log))
  {
    hide Content, Contiguous, LogOk, ImageOf, Sent;
    if plan.parts != [] {
      forall k: nat
        ensures var origin := plan.parts[0].start;
                && (k in ImageOf(log) <==> origin <= k < origin + |Content(plan.parts)|)
                && (k in ImageOf(log) ==> ImageOf(log)[k] == Content(plan.parts)[k - origin])
      {
        ByteInPlace(plan, log, k);
      }
    }
  }

  lemma ByteInPlace(plan: Plan, log: seq<Chunk>, k: nat)
    requires LogOk(plan, log) && Contiguous(plan.parts) && plan.parts != []
    requires forall p :: 1 <= p <= |plan.parts| ==> Sent(log, p) == |PartBody(plan, p)|
    ensures var origin := plan.parts[0].start;
            && (k in ImageOf(log) <==> origin <= k < origin + |Content(plan.parts)|)
            && (k in ImageOf(log) ==> ImageOf(log)[k] == Content(plan.parts)[k - origin])
  {
    hide Content, Contiguous, LogOk, ImageOf, Sent;
    ImageInside(plan, log);
    var origin := plan.parts[0].start;
    assert plan.parts[..|plan.parts|] == plan.parts;
    if origin <= k < origin + |Content(plan.parts)| {
      var p := PartHolding(plan.parts, |plan.parts|, k - origin);
      ImageHolds(plan, log, p);
      ByteOfPart(plan.parts, p, k - PartOf(plan.parts, p).start);
    }
  }
}
