/** The WAL file frame: magic, big-endian CRC-32 of the payload, payload; and how a file is read back. */
module Frame {
  import opened Base
  import opened Register
  import opened Crc32

  /** "OIW1" */
  const MAGIC: seq<byte> := [0x4F, 0x49, 0x57, 0x31]
  const HEADER_LEN := 8

  datatype ReadError = CrcMismatch | Undecodable

  function BigEndian(c: bv32): (s: seq<byte>)
    ensures |s| == 4
  {
    [((c >> 24) & 0xFF) as byte, ((c >> 16) & 0xFF) as byte, ((c >> 8) & 0xFF) as byte, (c & 0xFF) as byte]
  }

  function FromBigEndian(s: seq<byte>): bv32
    requires |s| == 4
  {
    ((s[0] as bv32) << 24) | ((s[1] as bv32) << 16) | ((s[2] as bv32) << 8) | (s[3] as bv32)
  }

  /** The bytes of a file holding `payload`. */
  function Framed(payload: seq<byte>): seq<byte> {
    MAGIC + BigEndian(Crc(payload)) + payload
  }

  lemma HighestByteFirst()
    ensures BigEndian(0xCBF4_3926) == [0xCB, 0xF4, 0x39, 0x26]
  {}

  /** A whole file, byte for byte: "OIW1", the checksum with its highest byte first, the payload. */
  lemma FrameOfDigits(payload: seq<byte>)
    requires payload == [0x31, 0x32, 0x33, 0x34, 0x35, 0x36, 0x37, 0x38, 0x39]
    ensures Framed(payload) == [0x4F, 0x49, 0x57, 0x31] + [0xCB, 0xF4, 0x39, 0x26] + payload
  {
    assert Crc(payload) == 0xCBF4_3926 by {
      CheckValue();
    }
    HighestByteFirst();
  }

  predicate HasMagic(bytes: seq<byte>) {
    |bytes| >= HEADER_LEN && bytes[..4] == MAGIC
  }

  /** The decoder sees the payload of an intact frame, or the whole of a file without the magic (legacy). */
  function Read<B>(decode: seq<byte> -> Option<B>, bytes: seq<byte>): Result<B, ReadError> {
    if HasMagic(bytes) then
      if FromBigEndian(bytes[4..8]) != Crc(bytes[HEADER_LEN..]) then Err(CrcMismatch)
      else Decoded(decode(bytes[HEADER_LEN..]))
    else
      Decoded(decode(bytes))
  }

  function Decoded<B>(o: Option<B>): Result<B, ReadError> {
    match o
    case Some(b) => Ok(b)
    case None => Err(Undecodable)
  }

  lemma BytesOf(c: bv32)
    ensures FromBigEndian(BigEndian(c)) == c
  {}

  lemma BytesTo(s: seq<byte>)
    requires |s| == 4
    ensures BigEndian(FromBigEndian(s)) == s
  {}

  /** A file with the magic is decoded exactly when its stored checksum is that of its payload. */
  lemma ReadsWhole<B>(decode: seq<byte> -> Option<B>, stored: bv32, payload: seq<byte>)
    ensures var file := MAGIC + BigEndian(stored) + payload;
      Read(decode, file) == if stored == Crc(payload) then Decoded(decode(payload)) else Err(CrcMismatch)
  {
    var file := MAGIC + BigEndian(stored) + payload;
    assert file[..4] == MAGIC;
    assert file[4..8] == BigEndian(stored);
    assert file[HEADER_LEN..] == payload;
    BytesOf(stored);
  }

  /** What was framed is what the decoder is handed. */
  lemma RoundTrip<B>(decode: seq<byte> -> Option<B>, payload: seq<byte>)
    ensures Read(decode, Framed(payload)) == Decoded(decode(payload))
  {
    ReadsWhole(decode, Crc(payload), payload);
  }

  /** The file is an intact frame of something that decodes to b, or a legacy file that does. */
  ghost predicate Holds<B>(decode: seq<byte> -> Option<B>, file: seq<byte>, b: B) {
    || (exists payload :: file == Framed(payload) && decode(payload) == Some(b))
    || (!HasMagic(file) && decode(file) == Some(b))
  }

  /** The file starts like a frame, but is not the frame of any payload. */
  ghost predicate Broken(file: seq<byte>) {
    HasMagic(file) && forall payload :: file != Framed(payload)
  }

  /** Neither as a frame nor as a legacy file can anything be made of it. */
  ghost predicate Illegible<B>(decode: seq<byte> -> Option<B>, file: seq<byte>) {
    && (forall payload :: file == Framed(payload) ==> decode(payload) == None)
    && (!HasMagic(file) ==> decode(file) == None)
  }

  lemma IntactIsFramed(file: seq<byte>)
    requires HasMagic(file) && FromBigEndian(file[4..8]) == Crc(file[HEADER_LEN..])
    ensures file == Framed(file[HEADER_LEN..])
  {
    BytesTo(file[4..8]);
    assert file == file[..4] + file[4..8] + file[HEADER_LEN..];
  }

  lemma FramedIsIntact(payload: seq<byte>)
    ensures var file := Framed(payload);
      HasMagic(file) && file[HEADER_LEN..] == payload && FromBigEndian(file[4..8]) == Crc(payload)
  {
    var file := Framed(payload);
    assert file[..4] == MAGIC && file[4..8] == BigEndian(Crc(payload)) && file[HEADER_LEN..] == payload;
    BytesOf(Crc(payload));
  }

  /** What is read is what the file holds; a checksum error means no frame, any other error nothing legible. */
  lemma ReadMeans<B>(decode: seq<byte> -> Option<B>, file: seq<byte>)
    ensures var r := Read(decode, file);
      && (r.Ok? ==> Holds(decode, file, r.value))
      && (r.Err? ==> Illegible(decode, file))
      && (r == Err(CrcMismatch) <==> Broken(file))
  {
    if HasMagic(file) && FromBigEndian(file[4..8]) == Crc(file[HEADER_LEN..]) {
      IntactIsFramed(file);
    }
    forall payload | file == Framed(payload)
      ensures HasMagic(file) && file[HEADER_LEN..] == payload && FromBigEndian(file[4..8]) == Crc(payload)
    {
      FramedIsIntact(payload);
    }
  }

  /** Damage to at most four adjacent payload bytes is always reported. */
  lemma PayloadDamageRejected<B>(decode: seq<byte> -> Option<B>, payload: seq<byte>, file: seq<byte>, at: nat)
    requires HEADER_LEN <= at && DifferInWindow(Framed(payload), file, at)
    ensures Read(decode, file) == Err(CrcMismatch)
  {
    var q := file[HEADER_LEN..];
    WindowBehind(MAGIC + BigEndian(Crc(payload)), payload, file, at);
    BurstChangesCrc(payload, q, at - HEADER_LEN);
    ReadsWhole(decode, Crc(payload), q);
  }

  /** So is any damage to the stored checksum alone. */
  lemma StoredCrcDamageRejected<B>(decode: seq<byte> -> Option<B>, payload: seq<byte>, file: seq<byte>)
    requires DifferInWindow(Framed(payload), file, 4)
    ensures Read(decode, file) == Err(CrcMismatch)
  {
    var f, stored := Framed(payload), FromBigEndian(file[4..8]);
    assert f[..4] == MAGIC && f[HEADER_LEN..] == payload;
    assert file[..4] == f[..4] && file[HEADER_LEN..] == f[HEADER_LEN..];
    assert file == file[..4] + file[4..8] + file[HEADER_LEN..];
    BytesTo(file[4..8]);
    assert file == MAGIC + BigEndian(stored) + payload;
    ReadsWhole(decode, stored, payload);
  }
}
