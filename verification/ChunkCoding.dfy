/** The framing an upload body is sent in, and a decoder for it: the chunked transfer coding of section 7.1 of
    RFC 9112, with the checksum in the trailer. */
module ChunkCoding {
  import opened ObjectParts

  const CR: byte := 13
  const LF: byte := 10
  const COLON: byte := 58
  const ZERO: byte := 48

  const CRLF: seq<byte> := [CR, LF]

  // ----- Hexadecimal chunk sizes -----

  function HexDigit(d: nat): byte
    requires d < 16
  {
    if d < 10 then 48 + d else 55 + d
  }

  /** `%PRIX64`: upper case, no leading zeros. */
  function Hex(n: nat): (digits: seq<byte>)
    ensures digits != []
  {
    if n < 16 then [HexDigit(n)] else Hex(n / 16) + [HexDigit(n % 16)]
  }

  predicate IsHex(b: byte) {
    48 <= b <= 57 || 65 <= b <= 70 || 97 <= b <= 102
  }

  function DigitValue(b: byte): nat
    requires IsHex(b)
  {
    if b <= 57 then b - 48 else if b <= 70 then b - 55 else b - 87
  }

  predicate AllHex(s: seq<byte>) {
    forall i :: 0 <= i < |s| ==> IsHex(s[i])
  }

  function HexValue(s: seq<byte>): nat
    requires AllHex(s)
  {
    if s == [] then 0 else 16 * HexValue(s[..|s| - 1]) + DigitValue(s[|s| - 1])
  }

  lemma {:induction false} HexRoundTrip(n: nat)
    ensures AllHex(Hex(n)) && HexValue(Hex(n)) == n
  {
    var s := Hex(n);
    if n >= 16 {
      HexRoundTrip(n / 16);
      assert s[..|s| - 1] == Hex(n / 16);
    } else {
      assert s[..0] == [];
    }
  }

  // ----- The encoding -----

  /** The checksum's trailer field: its header name and the encoded checksum. */
  datatype Trailer = Trailer(name: seq<byte>, value: seq<byte>)

  function Prefix(body: seq<byte>): seq<byte> {
    if body == [] then [] else Hex(|body|) + CRLF
  }

  function TrailerSection(t: Trailer): seq<byte> {
    t.name + [COLON] + t.value + CRLF + CRLF
  }

  /** The chunk of size zero that ends the chunks, and the trailer. */
  function LastChunk(t: Trailer): seq<byte> {
    [ZERO] + CRLF + TrailerSection(t)
  }

  /** Ends the data, if there is any, and the chunks, and carries the trailer. */
  function Suffix(body: seq<byte>, t: Trailer): seq<byte> {
    if body == [] then LastChunk(t) else CRLF + LastChunk(t)
  }

  function Encode(body: seq<byte>, t: Trailer): seq<byte> {
    Prefix(body) + body + Suffix(body, t)
  }

  /** The length the stream advertises before anything is read: from the body's length, the header name and
      the size of the encoded checksum. */
  function AdvertisedLength(bodyLength: nat, nameLength: nat, valueLength: nat): nat {
    (if bodyLength > 0 then |Hex(bodyLength)| + 2 else 0) + bodyLength + (if bodyLength > 0 then 5 else 3)
    + nameLength + 1 + valueLength + 4
  }

  lemma EncodingLength(body: seq<byte>, t: Trailer)
    ensures |Encode(body, t)| == AdvertisedLength(|body|, |t.name|, |t.value|)
  {
  }

  // ----- The decoder -----

  datatype Message = Message(body: seq<byte>, trailers: seq<Trailer>)

  datatype Decoded = Malformed | Decoded(message: Message)

  function HexPrefix(s: seq<byte>): (n: nat)
    ensures n <= |s| && AllHex(s[..n]) && (n < |s| ==> !IsHex(s[n]))
  {
    if s == [] || !IsHex(s[0]) then 0
    else
      var n := 1 + HexPrefix(s[1..]);
      assert s[..n] == [s[0]] + s[1..][..n - 1];
      n
  }

  /** The position of the first `b`, or the length. */
  function Find(s: seq<byte>, b: byte): (n: nat)
    ensures n <= |s| && (n < |s| ==> s[n] == b) && b !in s[..n]
  {
    if s == [] || s[0] == b then 0
    else
      var n := 1 + Find(s[1..], b);
      assert s[..n] == [s[0]] + s[1..][..n - 1];
      n
  }

  /** trailer-section CRLF, with nothing after it. */
  function DecodeTrailers(s: seq<byte>): (r: Decoded)
    ensures r.Decoded? ==> r.message.body == []
    decreases |s|
  {
    if CRLF <= s then (if |s| == 2 then Decoded(Message([], [])) else Malformed)
    else
      var n := Find(s, CR);
      var colon := Find(s, COLON);
      if n + 2 > |s| || s[n..n + 2] != CRLF || colon >= n then Malformed
      else
        match DecodeTrailers(s[n + 2..])
        case Malformed => Malformed
        case Decoded(m) => Decoded(Message([], [Trailer(s[..colon], s[colon + 1..n])] + m.trailers))
  }

  /** chunked-body: chunks, a last chunk of size zero, and the trailer. */
  function Decode(s: seq<byte>): Decoded
    decreases |s|
  {
    var n := HexPrefix(s);
    if n == 0 || n + 2 > |s| || s[n..n + 2] != CRLF then Malformed
    else
      var size, rest := HexValue(s[..n]), s[n + 2..];
      if size == 0 then DecodeTrailers(rest)
      else if size + 2 > |rest| || rest[size..size + 2] != CRLF then Malformed
      else
        match Decode(rest[size + 2..])
        case Malformed => Malformed
        case Decoded(m) => Decoded(Message(rest[..size] + m.body, m.trailers))
  }

  // ----- Decoding what was encoded -----

  /** Header names have no colon or line end, and encoded checksums no line end. */
  predicate TrailerOk(t: Trailer) {
    CR !in t.name && COLON !in t.name && CR !in t.value
  }

  lemma {:induction false} FindFirst(a: seq<byte>, b: byte, rest: seq<byte>)
    requires b !in a
    ensures Find(a + [b] + rest, b) == |a|
  {
    if a == [] {
      assert (a + [b] + rest)[0] == b;
    } else {
      assert (a + [b] + rest)[1..] == a[1..] + [b] + rest;
      assert (a + [b] + rest)[0] == a[0] && a[0] in a;
      FindFirst(a[1..], b, rest);
    }
  }

  lemma {:induction false} HexPrefixEnds(a: seq<byte>, rest: seq<byte>)
    requires AllHex(a) && rest != [] && !IsHex(rest[0])
    ensures HexPrefix(a + rest) == |a|
  {
    if a == [] {
      assert (a + rest)[0] == rest[0];
    } else {
      assert (a + rest)[1..] == a[1..] + rest && (a + rest)[0] == a[0];
      HexPrefixEnds(a[1..], rest);
    }
  }

  lemma Slices(a: seq<byte>, b: seq<byte>, c: seq<byte>)
    ensures var s := a + b + c;
            && s[..|a|] == a && s[|a|..|a| + |b|] == b && s[|a| + |b|..] == c && |s| == |a| + |b| + |c|
  {
  }

  lemma NoTrailers()
    ensures DecodeTrailers(CRLF) == Decoded(Message([], []))
  {
  }

  lemma TrailerDecodes(t: Trailer)
    requires TrailerOk(t)
    ensures DecodeTrailers(TrailerSection(t)) == Decoded(Message([], [t]))
  {
    var line := t.name + [COLON] + t.value;
    var s := line + CRLF + CRLF;
    FirstColon(t);
    FirstCr(t);
    assert s[0] == if t.name == [] then COLON else t.name[0];
    assert s[0] != CR;
    Slices(line, CRLF, CRLF);
    Slices(t.name, [COLON], t.value);
    assert s[|t.name| + 1..|line|] == t.value && s[..|t.name|] == t.name;
    NoTrailers();
    assert [t] + [] == [t];
  }

  lemma FirstColon(t: Trailer)
    requires TrailerOk(t)
    ensures Find(t.name + [COLON] + t.value + CRLF + CRLF, COLON) == |t.name|
  {
    FindFirst(t.name, COLON, t.value + CRLF + CRLF);
    assert t.name + [COLON] + (t.value + CRLF + CRLF) == t.name + [COLON] + t.value + CRLF + CRLF;
  }

  lemma FirstCr(t: Trailer)
    requires TrailerOk(t)
    ensures Find(t.name + [COLON] + t.value + CRLF + CRLF, CR) == |t.name + [COLON] + t.value|
  {
    var line := t.name + [COLON] + t.value;
    assert CR !in line;
    FindFirst(line, CR, [LF] + CRLF);
    assert line + [CR] + ([LF] + CRLF) == line + CRLF + CRLF;
  }

  /** A chunk header is read back as its size. */
  lemma HeaderDecodes(size: nat, rest: seq<byte>)
    ensures var s := Hex(size) + CRLF + rest;
            var n := HexPrefix(s);
            && n == |Hex(size)| && s[..n] == Hex(size) && HexValue(s[..n]) == size
            && n + 2 <= |s| && s[n..n + 2] == CRLF && s[n + 2..] == rest
  {
    HexRoundTrip(size);
    HexPrefixEnds(Hex(size), CRLF + rest);
    assert Hex(size) + (CRLF + rest) == Hex(size) + CRLF + rest;
  }

  lemma LastChunkDecodes(t: Trailer)
    requires TrailerOk(t)
    ensures Decode(LastChunk(t)) == Decoded(Message([], [t]))
  {
    hide DecodeTrailers, TrailerSection;
    assert Hex(0) == [ZERO];
    HeaderDecodes(0, TrailerSection(t));
    TrailerDecodes(t);
  }

  /** One chunk in front of what follows it. */
  lemma ChunkDecodes(data: seq<byte>, tail: seq<byte>, m: Message)
    requires data != [] && Decode(tail) == Decoded(m)
    ensures Decode(Hex(|data|) + CRLF + (data + CRLF + tail)) == Decoded(Message(data + m.body, m.trailers))
  {
    hide DecodeTrailers, Hex;
    HeaderDecodes(|data|, data + CRLF + tail);
    Slices(data, CRLF, tail);
  }

  lemma Regroup(a: seq<byte>, b: seq<byte>, c: seq<byte>, d: seq<byte>, e: seq<byte>)
    ensures (a + b) + c + (d + e) == a + b + (c + d + e)
  {
  }

  lemma EncodeChunks(body: seq<byte>, t: Trailer)
    ensures Encode(body, t) == if body == [] then LastChunk(t) else Hex(|body|) + CRLF + (body + CRLF + LastChunk(t))
  {
    hide LastChunk, Hex;
    if body == [] {
      assert [] + body + LastChunk(t) == LastChunk(t);
    } else {
      Regroup(Hex(|body|), CRLF, body, CRLF, LastChunk(t));
    }
  }

  /** Decoding recovers the body and the checksum trailer. */
  lemma DecodeEncode(body: seq<byte>, t: Trailer)
    requires TrailerOk(t)
    ensures Decode(Encode(body, t)) == Decoded(Message(body, [t]))
  {
    hide Decode, Encode, Hex, LastChunk;
    EncodeChunks(body, t);
    LastChunkDecodes(t);
    if body != [] {
      ChunkDecodes(body, LastChunk(t), Message([], [t]));
      assert body + [] == body;
    }
  }
}
