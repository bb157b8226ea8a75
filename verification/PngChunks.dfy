/** The walk over the chunks of a PNG file that decides whether it is animated, on every byte string, and what it
    decides on files laid out as section 3.2 of RFC 2083 says. */
module PngChunks {
  import opened Prelude
  import opened PngCrc

  datatype ProbeError =
    | InvalidSignature
    | InvalidChunkHeader
    | InvalidControlLength
    | InvalidControlData
    | InvalidControlCrc
    | InvalidFrameCount

  const SIGNATURE: seq<bv8> := [0x89, 0x50, 0x4e, 0x47, 0x0d, 0x0a, 0x1a, 0x0a]
  const ACTL: seq<bv8> := [0x61, 0x63, 0x54, 0x4c]
  const IDAT: seq<bv8> := [0x49, 0x44, 0x41, 0x54]
  const IEND: seq<bv8> := [0x49, 0x45, 0x4e, 0x44]

  function Bit(byte: bv8, mask: bv8): nat { if byte & mask == 0 then 0 else 1 }

  function ByteValue(byte: bv8): (n: nat)
    ensures n < 256
  {
    128 * Bit(byte, 0x80) + 64 * Bit(byte, 0x40) + 32 * Bit(byte, 0x20) + 16 * Bit(byte, 0x10)
    + 8 * Bit(byte, 0x08) + 4 * Bit(byte, 0x04) + 2 * Bit(byte, 0x02) + Bit(byte, 0x01)
  }

  /** `readUInt32BE`, as a number */
  function Number(bytes: seq<bv8>): (n: nat)
    requires |bytes| == 4
    ensures n < 0x1_0000_0000
  {
    ByteValue(bytes[0]) * 0x100_0000 + ByteValue(bytes[1]) * 0x1_0000 + ByteValue(bytes[2]) * 0x100 + ByteValue(bytes[3])
  }

  /** `readUInt32BE`, as a machine word */
  function Word(bytes: seq<bv8>): bv32
    requires |bytes| == 4
  {
    (Wide(bytes[0]) << 24) | (Wide(bytes[1]) << 16) | (Wide(bytes[2]) << 8) | Wide(bytes[3])
  }

  /** A Buffer decoded as 'ascii' loses the highest bit of every byte. */
  function Ascii(bytes: seq<bv8>): (text: seq<bv8>)
    ensures |text| == |bytes|
  {
    seq(|bytes|, i requires 0 <= i < |bytes| => bytes[i] & 0x7f)
  }

  /** What a positioned read of up to n bytes returns. */
  function ReadAt(file: seq<bv8>, position: nat, n: nat): (bytes: seq<bv8>)
    ensures |bytes| <= n && (bytes != [] ==> position < |file|)
    ensures position + n <= |file| ==> bytes == file[position..position + n]
  {
    if position >= |file| then []
    else if position + n <= |file| then file[position..position + n]
    else file[position..]
  }

  /** The decision on an acTL chunk: header, then the bytes that follow it, as far as the file has them. */
  function JudgeControl(header: seq<bv8>, body: seq<bv8>): Result<bool, ProbeError>
    requires |header| == 8
  {
    if Number(header[..4]) != 8 then Err(InvalidControlLength)
    else if |body| != 12 then Err(InvalidControlData)
    else if Word(body[8..]) != Crc32(header[4..] + body[..8]) then Err(InvalidControlCrc)
    else if Number(body[..4]) == 0 then Err(InvalidFrameCount)
    else Ok(Number(body[..4]) > 1)
  }

  function Walk(file: seq<bv8>, position: nat): Result<bool, ProbeError>
    decreases |file| - position
  {
    var header := ReadAt(file, position, 8);
    if |header| != 8 then Err(InvalidChunkHeader)
    else if Ascii(header[4..]) == ACTL then JudgeControl(header, ReadAt(file, position + 8, 12))
    else if Ascii(header[4..]) == IDAT || Ascii(header[4..]) == IEND then Ok(false)
    else Walk(file, position + Number(header[..4]) + 12)
  }

  function Probe(file: seq<bv8>): Result<bool, ProbeError> {
    if ReadAt(file, 0, 8) != SIGNATURE then Err(InvalidSignature) else Walk(file, 8)
  }

  /** `detectAnimatedPng`, which ends on every file. */
  method DetectAnimatedPng(file: seq<bv8>) returns (animated: Result<bool, ProbeError>)
    ensures animated == Probe(file)
  {
    hide Ascii, Number, Word, Crc32, ReadAt;
    var signature := ReadAt(file, 0, |SIGNATURE|);
    if |signature| != |SIGNATURE| || signature != SIGNATURE { return Err(InvalidSignature); }
    var position: nat := |SIGNATURE|;
    while true
      invariant Walk(file, position) == Walk(file, 8)
      decreases |file| - position
    {
      var chunkHeader := ReadAt(file, position, 8);
      if |chunkHeader| != 8 { return Err(InvalidChunkHeader); }
      var chunkLength, chunkType := Number(chunkHeader[..4]), Ascii(chunkHeader[4..]);
      if chunkType == ACTL {
        if chunkLength != 8 { return Err(InvalidControlLength); }
        var controlDataAndCrc := ReadAt(file, position + 8, 12);
        if |controlDataAndCrc| != 12 { return Err(InvalidControlData); }
        var controlData := controlDataAndCrc[..8];
        var storedCrc := Word(controlDataAndCrc[8..]);
        var calculatedCrc := CalculatePngCrc32(chunkHeader[4..] + controlData);
        if storedCrc != calculatedCrc { return Err(InvalidControlCrc); }
        assert controlData[..4] == controlDataAndCrc[..4];
        var frameCount := Number(controlData[..4]);
        if frameCount == 0 { return Err(InvalidFrameCount); }
        return Ok(frameCount > 1);
      }
      if chunkType == IDAT || chunkType == IEND { return Ok(false); }
      position := position + chunkLength + 12;
    }
  }

  // ----- files made of chunks ---------------------------------------------------------------------------

  datatype Chunk = Chunk(length: seq<bv8>, name: seq<bv8>, data: seq<bv8>, crc: seq<bv8>)

  /** Length, type, data and CRC, the length counting the data alone. */
  predicate WellFormed(chunk: Chunk) {
    |chunk.length| == 4 && |chunk.name| == 4 && |chunk.crc| == 4 && Number(chunk.length) == |chunk.data|
  }

  predicate AllWellFormed(chunks: seq<Chunk>) { forall i :: 0 <= i < |chunks| ==> WellFormed(chunks[i]) }

  function ChunkBytes(chunk: Chunk): seq<bv8> { chunk.length + chunk.name + chunk.data + chunk.crc }

  function Bytes(chunks: seq<Chunk>): seq<bv8> {
    if chunks == [] then [] else ChunkBytes(chunks[0]) + Bytes(chunks[1..])
  }

  /** A chunk that settles the question, by the name the walk gives it. */
  predicate Decides(chunk: Chunk) { Ascii(chunk.name) in {ACTL, IDAT, IEND} }

  /** A complete animation control chunk that announces more than one frame. */
  predicate Animates(chunk: Chunk)
    requires WellFormed(chunk)
  {
    && Ascii(chunk.name) == ACTL && |chunk.data| == 8
    && Word(chunk.crc) == Crc32(chunk.name + chunk.data)
    && Number(chunk.data[..4]) > 1
  }

  /** What the chunk alone says about the file. */
  function Verdict(chunk: Chunk): Result<bool, ProbeError>
    requires WellFormed(chunk)
  {
    if Ascii(chunk.name) != ACTL then Ok(false)
    else if |chunk.data| != 8 then Err(InvalidControlLength)
    else if Word(chunk.crc) != Crc32(chunk.name + chunk.data) then Err(InvalidControlCrc)
    else if Number(chunk.data[..4]) == 0 then Err(InvalidFrameCount)
    else Ok(Number(chunk.data[..4]) > 1)
  }

  lemma HeaderOf(prefix: seq<bv8>, chunk: Chunk, rest: seq<bv8>)
    requires WellFormed(chunk)
    ensures ReadAt(prefix + ChunkBytes(chunk) + rest, |prefix|, 8) == chunk.length + chunk.name
    ensures (chunk.length + chunk.name)[..4] == chunk.length && (chunk.length + chunk.name)[4..] == chunk.name
    ensures |ChunkBytes(chunk)| == |chunk.data| + 12
  {
  }

  lemma ControlOf(prefix: seq<bv8>, chunk: Chunk, rest: seq<bv8>)
    requires WellFormed(chunk) && |chunk.data| == 8
    ensures ReadAt(prefix + ChunkBytes(chunk) + rest, |prefix| + 8, 12) == chunk.data + chunk.crc
  {
  }

  lemma ControlIsJudged(prefix: seq<bv8>, chunk: Chunk, rest: seq<bv8>)
    requires WellFormed(chunk) && Ascii(chunk.name) == ACTL
    ensures |chunk.length + chunk.name| == 8
    ensures JudgeControl(chunk.length + chunk.name, ReadAt(prefix + ChunkBytes(chunk) + rest, |prefix| + 8, 12)) == Verdict(chunk)
  {
    hide Ascii, Number, Word, Crc32, ReadAt, ChunkBytes;
    assert (chunk.length + chunk.name)[..4] == chunk.length && (chunk.length + chunk.name)[4..] == chunk.name;
    if |chunk.data| == 8 {
      ControlOf(prefix, chunk, rest);
      var body := chunk.data + chunk.crc;
      assert body[..8] == chunk.data && body[8..] == chunk.crc && body[..4] == chunk.data[..4];
    }
  }

  /** The walk skips chunks until one decides, whatever bytes follow that chunk. */
  lemma {:induction false} WalkFindsDecider(prefix: seq<bv8>, chunks: seq<Chunk>, k: nat, rest: seq<bv8>)
    requires AllWellFormed(chunks) && k < |chunks| && Decides(chunks[k])
    requires forall i :: 0 <= i < k ==> !Decides(chunks[i])
    ensures Walk(prefix + Bytes(chunks) + rest, |prefix|) == Verdict(chunks[k])
    decreases |chunks|
  {
    hide Ascii, Number, Word, Crc32, Verdict, JudgeControl, ReadAt, ChunkBytes;
    var chunk, others := chunks[0], Bytes(chunks[1..]) + rest;
    var file := prefix + ChunkBytes(chunk) + others;
    assert prefix + Bytes(chunks) + rest == file;
    HeaderOf(prefix, chunk, others);
    if k == 0 {
      if Ascii(chunk.name) == ACTL { ControlIsJudged(prefix, chunk, others); } else { PlainVerdict(chunk); }
    } else {
      var longer := prefix + ChunkBytes(chunk);
      assert file == longer + Bytes(chunks[1..]) + rest;
      WalkFindsDecider(longer, chunks[1..], k - 1, rest);
    }
  }

  lemma PlainVerdict(chunk: Chunk)
    requires WellFormed(chunk) && Ascii(chunk.name) != ACTL
    ensures Verdict(chunk) == Ok(false)
  {
  }

  lemma {:induction false} WalkRunsOut(prefix: seq<bv8>, chunks: seq<Chunk>)
    requires AllWellFormed(chunks) && forall i :: 0 <= i < |chunks| ==> !Decides(chunks[i])
    ensures Walk(prefix + Bytes(chunks), |prefix|) == Err(InvalidChunkHeader)
    decreases |chunks|
  {
    hide Ascii, Number, Crc32, JudgeControl, ChunkBytes;
    if chunks != [] {
      var chunk, longer := chunks[0], prefix + ChunkBytes(chunks[0]);
      assert prefix + Bytes(chunks) == longer + Bytes(chunks[1..]);
      HeaderOf(prefix, chunk, Bytes(chunks[1..]));
      WalkRunsOut(longer, chunks[1..]);
    }
  }

  predicate FirstDecider(chunks: seq<Chunk>, k: int) {
    0 <= k < |chunks| && Decides(chunks[k]) && forall i :: 0 <= i < k ==> !Decides(chunks[i])
  }

  lemma {:induction false} DeciderOrNone(chunks: seq<Chunk>)
    ensures (exists k :: FirstDecider(chunks, k)) || forall i :: 0 <= i < |chunks| ==> !Decides(chunks[i])
    decreases |chunks|
  {
    hide Decides;
    if chunks != [] {
      var init := chunks[..|chunks| - 1];
      DeciderOrNone(init);
      if k :| FirstDecider(init, k) {
        assert FirstDecider(chunks, k);
      } else if Decides(chunks[|chunks| - 1]) {
        assert forall i :: 0 <= i < |init| ==> chunks[i] == init[i];
        assert FirstDecider(chunks, |chunks| - 1);
      }
    }
  }

  /** Four bytes stand for a number, the first for the highest part. */
  lemma NumberIsBigEndian(bytes: seq<bv8>)
    requires |bytes| == 4
    ensures Number(bytes) == ((bytes[0] as int * 256 + bytes[1] as int) * 256 + bytes[2] as int) * 256 + bytes[3] as int
  {
    hide ByteValue;
    ByteValueIs(bytes[0]);
    ByteValueIs(bytes[1]);
    ByteValueIs(bytes[2]);
    ByteValueIs(bytes[3]);
  }

  lemma ByteValueIs(byte: bv8)
    ensures ByteValue(byte) == byte as int
  {
  }

  /** A file that is a signature and a list of chunks is found animated exactly when the first chunk named acTL, IDAT or
      IEND is an animation control chunk with the right length and checksum and more than one frame. */
  lemma AnimatedExactlyWhen(chunks: seq<Chunk>)
    requires AllWellFormed(chunks)
    ensures Probe(SIGNATURE + Bytes(chunks)) == Ok(true) <==> exists k :: FirstDecider(chunks, k) && Animates(chunks[k])
  {
    hide Walk, Bytes, Animates, Decides;
    var file := SIGNATURE + Bytes(chunks);
    assert ReadAt(file, 0, 8) == SIGNATURE;
    DeciderOrNone(chunks);
    if k :| FirstDecider(chunks, k) {
      assert SIGNATURE + Bytes(chunks) + [] == file;
      WalkFindsDecider(SIGNATURE, chunks, k, []);
      VerdictMeans(chunks[k]);
      forall j | FirstDecider(chunks, j) ensures j == k {}
    } else {
      WalkRunsOut(SIGNATURE, chunks);
    }
  }

  /** What a chunk named acTL, IDAT or IEND makes of the file: not animated for the last two; an acTL must be eight bytes
      long, with the right checksum and at least one frame, and more than one makes it animated. */
  predicate JudgedBy(chunk: Chunk, out: Result<bool, ProbeError>)
    requires WellFormed(chunk)
  {
    var control := Ascii(chunk.name) == ACTL;
    var summed := |chunk.data| == 8 && Word(chunk.crc) == Crc32(chunk.name + chunk.data);
    && (out == Ok(true) <==> control && summed && Number(chunk.data[..4]) > 1)
    && (out == Ok(false) <==> !control || (summed && Number(chunk.data[..4]) == 1))
    && (out == Err(InvalidFrameCount) <==> control && summed && Number(chunk.data[..4]) == 0)
    && (out == Err(InvalidControlCrc) <==> control && |chunk.data| == 8 && !summed)
    && (out == Err(InvalidControlLength) <==> control && |chunk.data| != 8)
  }

  /** Every file of chunks is judged by its first chunk of those names, and one without any runs off the end. */
  lemma ProbeExactly(chunks: seq<Chunk>)
    requires AllWellFormed(chunks)
    ensures forall k :: FirstDecider(chunks, k) ==> JudgedBy(chunks[k], Probe(SIGNATURE + Bytes(chunks)))
    ensures (forall k :: !FirstDecider(chunks, k)) ==> Probe(SIGNATURE + Bytes(chunks)) == Err(InvalidChunkHeader)
  {
    hide Walk, Bytes, Decides, Ascii, Number, Word, Crc32;
    var file := SIGNATURE + Bytes(chunks);
    assert ReadAt(file, 0, 8) == SIGNATURE;
    DeciderOrNone(chunks);
    if k :| FirstDecider(chunks, k) {
      assert SIGNATURE + Bytes(chunks) + [] == file;
      WalkFindsDecider(SIGNATURE, chunks, k, []);
      forall j | FirstDecider(chunks, j) ensures j == k {}
    } else {
      WalkRunsOut(SIGNATURE, chunks);
    }
  }

  lemma {:induction false} WalkSkips(prefix: seq<bv8>, chunks: seq<Chunk>, rest: seq<bv8>)
    requires AllWellFormed(chunks) && forall i :: 0 <= i < |chunks| ==> !Decides(chunks[i])
    ensures Walk(prefix + Bytes(chunks) + rest, |prefix|) == Walk(prefix + Bytes(chunks) + rest, |prefix + Bytes(chunks)|)
    decreases |chunks|
  {
    hide Ascii, Number, Word, Crc32, JudgeControl, ReadAt, ChunkBytes;
    if chunks != [] {
      var chunk, longer := chunks[0], prefix + ChunkBytes(chunks[0]);
      assert prefix + Bytes(chunks) + rest == longer + Bytes(chunks[1..]) + rest;
      assert prefix + Bytes(chunks) == longer + Bytes(chunks[1..]);
      HeaderOf(prefix, chunk, Bytes(chunks[1..]) + rest);
      assert prefix + ChunkBytes(chunk) + (Bytes(chunks[1..]) + rest) == prefix + Bytes(chunks) + rest;
      WalkSkips(longer, chunks[1..], rest);
    }
  }

  /** A file that ends inside its animation control chunk is refused for that. */
  lemma CutControlIsRefused(chunks: seq<Chunk>, header: seq<bv8>, body: seq<bv8>)
    requires AllWellFormed(chunks) && forall i :: 0 <= i < |chunks| ==> !Decides(chunks[i])
    requires |header| == 8 && Number(header[..4]) == 8 && Ascii(header[4..]) == ACTL && |body| < 12
    ensures Probe(SIGNATURE + Bytes(chunks) + (header + body)) == Err(InvalidControlData)
  {
    hide *;
    var bytes, tail := Bytes(chunks), header + body;
    assert SIGNATURE + bytes + tail == SIGNATURE + (bytes + tail);
    ProbeWalks(bytes + tail);
    WalkSkips(SIGNATURE, chunks, tail);
    CutControl(SIGNATURE + bytes, header, body);
  }

  lemma ProbeWalks(rest: seq<bv8>)
    ensures Probe(SIGNATURE + rest) == Walk(SIGNATURE + rest, |SIGNATURE|)
  {
    hide Walk;
    assert |SIGNATURE| == 8 && (SIGNATURE + rest)[0..8] == SIGNATURE;
  }

  lemma CutControl(prefix: seq<bv8>, header: seq<bv8>, body: seq<bv8>)
    requires |header| == 8 && Number(header[..4]) == 8 && Ascii(header[4..]) == ACTL && |body| < 12
    ensures Walk(prefix + (header + body), |prefix|) == Err(InvalidControlData)
  {
    hide Ascii, Number;
    var file := prefix + (header + body);
    assert ReadAt(file, |prefix|, 8) == header;
    assert |ReadAt(file, |prefix| + 8, 12)| == |body|;
  }

  /** A file is refused for its signature exactly when it does not begin with the eight bytes of section 3.1 of RFC 2083. */
  lemma SignatureExactly(file: seq<bv8>)
    ensures Probe(file) == Err(InvalidSignature) <==> |file| < 8 || file[..8] != [137, 80, 78, 71, 13, 10, 26, 10]
  {
    hide Walk;
    WalkKeepsSignatureError(file, 8);
  }

  lemma {:induction false} WalkKeepsSignatureError(file: seq<bv8>, position: nat)
    ensures Walk(file, position) != Err(InvalidSignature)
    decreases |file| - position
  {
    hide Ascii, Number, Word, Crc32;
    var header := ReadAt(file, position, 8);
    if |header| == 8 { WalkKeepsSignatureError(file, position + Number(header[..4]) + 12); }
  }

  lemma VerdictMeans(chunk: Chunk)
    requires WellFormed(chunk)
    ensures Verdict(chunk) == Ok(true) <==> Animates(chunk)
  {
  }

  predicate Plain(name: seq<bv8>) { forall i :: 0 <= i < |name| ==> name[i] < 0x80 }

  /** The decoding leaves a type name alone exactly when it has no byte with the highest bit set. */
  lemma PlainNamesAreExact(name: seq<bv8>)
    ensures Ascii(name) == name <==> Plain(name)
  {
    forall i | 0 <= i < |name| ensures name[i] & 0x7f == name[i] <==> name[i] < 0x80 { SmallByte(name[i]); }
    if Ascii(name) == name {
      forall i | 0 <= i < |name| ensures name[i] < 0x80 { assert Ascii(name)[i] == name[i]; }
    }
  }

  lemma SmallByte(byte: bv8)
    ensures byte & 0x7f == byte <==> byte < 0x80
  {
  }

  /** Section 3.2 of RFC 2083 restricts the bytes of a chunk type to the letters. */
  predicate Letter(byte: bv8) { 0x41 <= byte <= 0x5a || 0x61 <= byte <= 0x7a }

  predicate Lettered(chunk: Chunk) { forall i :: 0 <= i < |chunk.name| ==> Letter(chunk.name[i]) }

  /** The first chunk whose type is acTL, IDAT or IEND, byte for byte. */
  predicate FirstNamed(chunks: seq<Chunk>, k: int) {
    0 <= k < |chunks| && chunks[k].name in {ACTL, IDAT, IEND} && forall i :: 0 <= i < k ==> chunks[i].name !in {ACTL, IDAT, IEND}
  }

  lemma LetteredName(chunk: Chunk)
    requires Lettered(chunk)
    ensures Ascii(chunk.name) == chunk.name
  {
    PlainNamesAreExact(chunk.name);
  }

  /** A file of chunks whose types consist of letters is found animated exactly when its first chunk of type acTL, IDAT
      or IEND is of type acTL and a complete animation control chunk for more than one frame. */
  lemma LetteredFilesAreJudgedByName(chunks: seq<Chunk>)
    requires AllWellFormed(chunks) && forall i :: 0 <= i < |chunks| ==> Lettered(chunks[i])
    ensures Probe(SIGNATURE + Bytes(chunks)) == Ok(true) <==>
              exists k :: FirstNamed(chunks, k) && chunks[k].name == ACTL && |chunks[k].data| == 8
                          && Word(chunks[k].crc) == Crc32(chunks[k].name + chunks[k].data) && Number(chunks[k].data[..4]) > 1
  {
    hide Probe, Bytes, Ascii, Crc32, Word, Number, Lettered;
    AnimatedExactlyWhen(chunks);
    forall i | 0 <= i < |chunks| ensures Ascii(chunks[i].name) == chunks[i].name { LetteredName(chunks[i]); }
    assert forall k :: FirstDecider(chunks, k) <==> FirstNamed(chunks, k);
  }

  /** Without that, it is not: a file whose first chunk merely resembles an acTL chunk, in a byte with the highest
      bit set, is judged by that chunk. */
  lemma DisguisedNamePasses(chunk: Chunk, rest: seq<bv8>)
    requires WellFormed(chunk) && chunk.name == [0xe1, 0x63, 0x54, 0x4c]
    ensures chunk.name != ACTL
    ensures Probe(SIGNATURE + Bytes([chunk]) + rest) == Verdict(chunk)
    ensures |chunk.data| != 8 ==> Probe(SIGNATURE + Bytes([chunk]) + rest) == Err(InvalidControlLength)
  {
    DisguisedAscii(chunk.name);
    hide Walk, Bytes;
    var file := SIGNATURE + Bytes([chunk]) + rest;
    assert ReadAt(file, 0, 8) == SIGNATURE;
    WalkFindsDecider(SIGNATURE, [chunk], 0, rest);
  }

  lemma DisguisedAscii(name: seq<bv8>)
    requires name == [0xe1, 0x63, 0x54, 0x4c]
    ensures Ascii(name) == ACTL
  {
    assert Ascii(name)[0] == 0x61 && Ascii(name)[1] == 0x63 && Ascii(name)[2] == 0x54 && Ascii(name)[3] == 0x4c;
  }
}
