/** The stream an upload body is read from: the chunk prefix, the body, whose checksum is computed as it is read
    unless an earlier attempt has stored it, and the suffix with the checksum trailer. */
module ChunkStream {
  import opened ObjectParts
  import opened ChunkCoding

  /** The body, the checksum header's name, and the encoded checksum of some bytes. The body may come in pieces: read
      at position `p` it gives at most `1 + gives(p)` bytes. Its stream may report its end with the last bytes, or
      late, in a read that finds no more. */
  datatype Source = Source(
    body: seq<byte>, name: seq<byte>, checksum: seq<byte> -> seq<byte>, gives: nat -> nat, lateEnd: bool)

  /** The stored checksum, written once and shared by all attempts. */
  datatype Stored = NotYet | Stored(text: seq<byte>)

  /** `aws_s3_upload_request_checksum_context_finalize_checksum`: the first value stays. */
  function Finalize(stored: Stored, text: seq<byte>): Stored {
    if stored.NotYet? then Stored(text) else stored
  }

  datatype Stage = AtPrefix | AtBody | AtSuffix | AtEnd

  /** `calculates` is fixed when the stream is made: whether it wraps the body in a checksum stream. */
  datatype Reader = Reader(stage: Stage, pos: nat, calculates: bool, fed: seq<byte>, stored: Stored)

  /** `aws_chunk_stream_new`: an empty body has no prefix. */
  function Open(src: Source, stored: Stored): Reader {
    Reader(if src.body == [] then AtBody else AtPrefix, 0, stored.NotYet?, [], stored)
  }

  function StoredText(stored: Stored): seq<byte> {
    if stored.Stored? then stored.text else []
  }

  /** The stream being read. */
  function Section(src: Source, r: Reader): seq<byte> {
    match r.stage
    case AtPrefix => Prefix(src.body)
    case AtBody => src.body
    case AtSuffix => Suffix(src.body, Trailer(src.name, StoredText(r.stored)))
    case AtEnd => []
  }

  /** Does the current stream report its end after a read of `k` bytes? */
  predicate Ends(src: Source, r: Reader, k: nat) {
    r.pos + k == |Section(src, r)| && (r.stage.AtBody? && src.lateEnd ==> k == 0)
  }

  /** Reading `k` bytes of the current stream. Of the body, only the bytes just read are summed, and the end of the
      body finalizes the checksum. */
  function Advance(src: Source, r: Reader, k: nat): Reader
    requires r.pos + k <= |Section(src, r)|
  {
    var p := r.pos + k;
    if r.stage.AtBody? && r.calculates then
      var fed := r.fed + src.body[r.pos..p];
      r.(pos := p, fed := fed, stored := if Ends(src, r, k) then Finalize(r.stored, src.checksum(fed)) else r.stored)
    else r.(pos := p)
  }

  function NextStage(s: Stage): Stage {
    match s
    case AtPrefix => AtBody
    case AtBody => AtSuffix
    case AtSuffix => AtEnd
    case AtEnd => AtEnd
  }

  function Left(s: Stage): nat {
    match s
    case AtPrefix => 3
    case AtBody => 2
    case AtSuffix => 1
    case AtEnd => 0
  }

  /** One turn of the read loop: a read of `k` bytes, and at its end the switch to the next stream. */
  function Turn(src: Source, r: Reader, k: nat): Reader
    requires r.pos + k <= |Section(src, r)|
  {
    var after := Advance(src, r, k);
    if Ends(src, r, k) then after.(stage := NextStage(r.stage), pos := 0) else after
  }

  function Min(a: nat, b: nat): nat {
    if a <= b then a else b
  }

  /** How many bytes the current stream gives into room for `n`. Only the body gives fewer than it has. */
  function Take(src: Source, r: Reader, n: nat): nat {
    if r.pos > |Section(src, r)| then 0
    else
      var k := Min(n, |Section(src, r)| - r.pos);
      if r.stage.AtBody? && k > 0 then Min(k, 1 + src.gives(r.pos)) else k
  }

  /** `s_aws_input_chunk_stream_read` into a destination with room for `n` bytes. */
  function Read(src: Source, r: Reader, n: nat): (Reader, seq<byte>)
    decreases Left(r.stage), n
  {
    if r.stage.AtEnd? || n == 0 || r.pos > |Section(src, r)| then (r, [])
    else
      var k := Take(src, r, n);
      var piece := Section(src, r)[r.pos..r.pos + k];
      var after := Turn(src, r, k);
      if k == 0 && after.stage == r.stage then (after, [])
      else
        var (last, rest) := Read(src, after, n - k);
        (last, piece + rest)
  }

  // ----- What is left to read -----

  /** The checksum the trailer will carry. */
  function FinalText(src: Source, stored: Stored): seq<byte> {
    if stored.Stored? then stored.text else src.checksum(src.body)
  }

  function FinalSuffix(src: Source, r: Reader): seq<byte> {
    Suffix(src.body, Trailer(src.name, FinalText(src, r.stored)))
  }

  function Remaining(src: Source, r: Reader): seq<byte>
    requires r.pos <= |Section(src, r)|
  {
    match r.stage
    case AtPrefix => Prefix(src.body)[r.pos..] + (src.body + FinalSuffix(src, r))
    case AtBody => src.body[r.pos..] + FinalSuffix(src, r)
    case AtSuffix => Section(src, r)[r.pos..]
    case AtEnd => []
  }

  predicate Valid(src: Source, r: Reader) {
    && r.pos <= |Section(src, r)|
    && (r.stage.AtPrefix? ==> r.pos < |Section(src, r)| && r.fed == [])
    && (r.stage.AtBody? ==> (r.calculates ==> r.fed == src.body[..r.pos]))
    && (r.stage.AtSuffix? ==> r.stored.Stored?)
    && (!r.calculates ==> r.stored.Stored? && r.fed == [])
  }

  lemma OpenValid(src: Source, stored: Stored)
    ensures Valid(src, Open(src, stored))
    ensures Remaining(src, Open(src, stored)) == Encode(src.body, Trailer(src.name, FinalText(src, stored)))
  {
    var r := Open(src, stored);
    if src.body != [] {
      assert Prefix(src.body)[0..] == Prefix(src.body);
      assert Prefix(src.body) + (src.body + FinalSuffix(src, r)) == Prefix(src.body) + src.body + FinalSuffix(src, r);
    } else {
      assert [] + src.body + FinalSuffix(src, r) == src.body[0..] + FinalSuffix(src, r);
    }
  }

  /** One turn of the loop: a piece of what is left, and the rest still left. */
  lemma TurnRemaining(src: Source, r: Reader, n: nat)
    requires Valid(src, r) && !r.stage.AtEnd?
    ensures var k := Take(src, r, n);
            var after := Turn(src, r, k);
            && r.pos + k <= |Section(src, r)|
            && Valid(src, after) && FinalText(src, after.stored) == FinalText(src, r.stored)
            && Remaining(src, r) == Section(src, r)[r.pos..r.pos + k] + Remaining(src, after)
            && k <= n && (n > 0 ==> k > 0 || after.stage != r.stage)
  {
    hide Valid, Remaining, Section, Turn, FinalText, Take;
    ValidPos(src, r);
    TakeBounds(src, r, n);
    var k := Take(src, r, n);
    match r.stage
    case AtPrefix => PrefixTurn(src, r, k);
    case AtBody => BodyTurn(src, r, k);
    case AtSuffix => SuffixTurn(src, r, k);
  }

  lemma TakeBounds(src: Source, r: Reader, n: nat)
    requires r.pos <= |Section(src, r)| && !r.stage.AtEnd?
    ensures var k := Take(src, r, n);
            && k <= n && r.pos + k <= |Section(src, r)|
            && (n > 0 ==> k > 0 || Turn(src, r, k).stage != r.stage)
  {
  }

  lemma PrefixTurn(src: Source, r: Reader, k: nat)
    requires Valid(src, r) && r.stage.AtPrefix? && r.pos + k <= |Section(src, r)|
    ensures var after := Turn(src, r, k);
            && Valid(src, after) && FinalText(src, after.stored) == FinalText(src, r.stored)
            && Remaining(src, r) == Section(src, r)[r.pos..r.pos + k] + Remaining(src, after)
  {
    hide Suffix, Prefix;
    SplitMiddle(Prefix(src.body), r.pos, k, src.body + FinalSuffix(src, r));
    assert src.body[0..] == src.body && src.body[..0] == [];
  }

  lemma SplitMiddle(s: seq<byte>, i: nat, k: nat, rest: seq<byte>)
    requires i + k <= |s|
    ensures s[i..] + rest == s[i..i + k] + (s[i + k..] + rest)
    ensures i + k == |s| ==> s[i..] == s[i..i + k] && s[i + k..] + rest == rest
  {
  }

  lemma BodyTurn(src: Source, r: Reader, k: nat)
    requires Valid(src, r) && r.stage.AtBody? && r.pos + k <= |Section(src, r)|
    ensures var after := Turn(src, r, k);
            && Valid(src, after) && FinalText(src, after.stored) == FinalText(src, r.stored)
            && Remaining(src, r) == Section(src, r)[r.pos..r.pos + k] + Remaining(src, after)
  {
    hide Suffix;
    var b, p := src.body, r.pos + k;
    SplitMiddle(b, r.pos, k, FinalSuffix(src, r));
    assert b[..r.pos] + b[r.pos..p] == b[..p];
    if p == |b| {
      assert b[..p] == b && b[p..] == [];
      var after := Turn(src, r, k);
      assert Section(src, after)[0..] == Section(src, after);
    }
  }

  lemma SuffixTurn(src: Source, r: Reader, k: nat)
    requires Valid(src, r) && r.stage.AtSuffix? && r.pos + k <= |Section(src, r)|
    ensures var after := Turn(src, r, k);
            && Valid(src, after) && FinalText(src, after.stored) == FinalText(src, r.stored)
            && Remaining(src, r) == Section(src, r)[r.pos..r.pos + k] + Remaining(src, after)
  {
    hide Suffix;
    var s := Section(src, r);
    assert s[r.pos..] == s[r.pos..r.pos + k] + s[r.pos + k..];
  }

  /** A read fills the destination with the next bytes of the encoding, or with all that is left. */
  lemma {:induction false} ReadRemaining(src: Source, r: Reader, n: nat)
    requires Valid(src, r)
    ensures var (last, out) := Read(src, r, n);
            && Valid(src, last) && Remaining(src, r) == out + Remaining(src, last)
            && |out| == Min(n, |Remaining(src, r)|) && FinalText(src, last.stored) == FinalText(src, r.stored)
    decreases Left(r.stage), n
  {
    hide Valid, Remaining, Section, Turn, FinalText, Take, Left, Read;
    ValidPos(src, r);
    if r.stage.AtEnd? || n == 0 {
      EndRemaining(src, r);
      ReadNothing(src, r, n);
    } else {
      TurnRemaining(src, r, n);
      var k := Take(src, r, n);
      var piece := Section(src, r)[r.pos..r.pos + k];
      var after := Turn(src, r, k);
      StageForward(src, r, k);
      ReadRemaining(src, after, n - k);
      ReadTurn(src, r, n);
      var (last, rest) := Read(src, after, n - k);
      ValidPos(src, last);
      assert piece + (rest + Remaining(src, last)) == (piece + rest) + Remaining(src, last);
    }
  }

  lemma ReadNothing(src: Source, r: Reader, n: nat)
    requires r.stage.AtEnd? || n == 0
    ensures Read(src, r, n) == (r, [])
  {
  }

  /** One turn of the loop, as the whole read sees it. */
  lemma ReadTurn(src: Source, r: Reader, n: nat)
    requires Valid(src, r) && !r.stage.AtEnd? && n > 0
    ensures var k := Take(src, r, n);
            && k <= n && r.pos + k <= |Section(src, r)|
            && var (last, rest) := Read(src, Turn(src, r, k), n - k);
               Read(src, r, n) == (last, Section(src, r)[r.pos..r.pos + k] + rest)
  {
    hide Section, Turn, Take, Valid;
    ValidPos(src, r);
    TakeBounds(src, r, n);
  }

  lemma ValidPos(src: Source, r: Reader)
    requires Valid(src, r)
    ensures r.pos <= |Section(src, r)|
  {
  }

  lemma EndRemaining(src: Source, r: Reader)
    requires Valid(src, r)
    ensures r.stage.AtEnd? ==> Remaining(src, r) == []
  {
  }

  lemma StageForward(src: Source, r: Reader, k: nat)
    requires !r.stage.AtEnd? && r.pos + k <= |Section(src, r)|
    ensures var after := Turn(src, r, k); after.stage == r.stage || Left(after.stage) < Left(r.stage)
  {
  }

  // ----- Reading with any sequence of destination sizes -----

  function ReadAll(src: Source, r: Reader, sizes: seq<nat>): (Reader, seq<byte>)
    decreases |sizes|
  {
    if sizes == [] then (r, [])
    else
      var (next, out) := Read(src, r, sizes[0]);
      var (last, rest) := ReadAll(src, next, sizes[1..]);
      (last, out + rest)
  }

  function Sum(sizes: seq<nat>): nat {
    if sizes == [] then 0 else sizes[0] + Sum(sizes[1..])
  }

  lemma {:induction false} ReadAllRemaining(src: Source, r: Reader, sizes: seq<nat>)
    requires Valid(src, r)
    ensures var (last, out) := ReadAll(src, r, sizes);
            && Valid(src, last) && Remaining(src, r) == out + Remaining(src, last)
            && |out| == Min(Sum(sizes), |Remaining(src, r)|)
    decreases |sizes|
  {
    hide Valid, Remaining, Section, Read;
    ValidPos(src, r);
    if sizes != [] {
      ReadRemaining(src, r, sizes[0]);
      var (next, out) := Read(src, r, sizes[0]);
      ReadAllRemaining(src, next, sizes[1..]);
      var (last, rest) := ReadAll(src, next, sizes[1..]);
      ValidPos(src, last);
      ValidPos(src, next);
      assert out + (rest + Remaining(src, last)) == (out + rest) + Remaining(src, last);
    }
  }

  /** For every body, in whatever pieces it comes, and every sequence of destination sizes the bytes read are the same
      encoding, cut off where the destinations end; and with the sizes adding up to the advertised length, all of it.
      The checksum may be computed by this very read or have been stored by an earlier attempt. */
  lemma ReadsTheEncoding(src: Source, stored: Stored, sizes: seq<nat>)
    requires stored.Stored? ==> stored.text == src.checksum(src.body)
    ensures var encoding := Encode(src.body, Trailer(src.name, src.checksum(src.body)));
            var out := ReadAll(src, Open(src, stored), sizes).1;
            && out == encoding[..Min(Sum(sizes), |encoding|)]
            && |encoding| == AdvertisedLength(|src.body|, |src.name|, |src.checksum(src.body)|)
  {
    hide Encode, Remaining, Valid;
    OpenValid(src, stored);
    ReadAllRemaining(src, Open(src, stored), sizes);
    EncodingLength(src.body, Trailer(src.name, src.checksum(src.body)));
  }

  /** What is read, once all of it is, decodes to the body and its checksum. */
  lemma ReadsDecode(src: Source, stored: Stored, sizes: seq<nat>)
    requires stored.Stored? ==> stored.text == src.checksum(src.body)
    requires TrailerOk(Trailer(src.name, src.checksum(src.body)))
    requires Sum(sizes) >= AdvertisedLength(|src.body|, |src.name|, |src.checksum(src.body)|)
    ensures var t := Trailer(src.name, src.checksum(src.body));
            Decode(ReadAll(src, Open(src, stored), sizes).1) == Decoded(Message(src.body, [t]))
  {
    hide Encode, Decode, ReadAll, AdvertisedLength;
    var t := Trailer(src.name, src.checksum(src.body));
    ReadsTheEncoding(src, stored, sizes);
    var encoding := Encode(src.body, t);
    assert encoding[..|encoding|] == encoding;
    DecodeEncode(src.body, t);
  }

  // ----- The stream as it is read in place -----

  class ChunkedBody {
    const src: Source
    var reader: Reader

    constructor (src: Source, stored: Stored)
      ensures this.src == src && reader == Open(src, stored)
    {
      this.src := src;
      reader := Open(src, stored);
    }

    /** `s_aws_input_chunk_stream_read`. */
    method ReadInto(n: nat) returns (out: seq<byte>)
      requires Valid(src, reader)
      modifies this`reader
      ensures Valid(src, reader) && (reader, out) == Read(src, old(reader), n)
    {
      hide Valid, Section, Turn, Read, Take, Left, Remaining, FinalText;
      out := [];
      var room: nat := n;
      NothingBefore(src, reader, n);
      while !reader.stage.AtEnd? && room > 0
        invariant Valid(src, reader) && room <= n
        invariant var (last, rest) := Read(src, reader, room); (last, out + rest) == Read(src, old(reader), n)
        decreases Left(reader.stage), room
      {
        ValidPos(src, reader);
        TurnRemaining(src, reader, room);
        ReadTurn(src, reader, room);
        var k := Take(src, reader, room);
        StageForward(src, reader, k);
        ghost var rest := Read(src, Turn(src, reader, k), room - k).1;
        var piece := Section(src, reader)[reader.pos..reader.pos + k];
        assert out + (piece + rest) == (out + piece) + rest;
        out := out + piece;
        reader := Turn(src, reader, k);
        room := room - k;
      }
      ReadNothing(src, reader, room);
      assert out + [] == out;
    }
  }

  lemma NothingBefore(src: Source, r: Reader, n: nat)
    ensures var (last, rest) := Read(src, r, n); [] + rest == rest
  {
  }
}
