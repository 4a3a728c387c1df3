/**
 * The data layout of a RIFF/WAVE file as the loader sees it: the four-byte
 * chunk tags and their predicates, the chunk header (ChunkInfo), the outer
 * RIFF header, the `fmt ` record, the `data` block, the decoded Wav, and the
 * result codes of the loader.  The wire layout is the RIFF chunk layout
 * (a four-byte tag, then a little-endian u32 payload size, then the payload)
 * with the WAVE form's `fmt ` and `data` chunks.
 */
module WavFormat {
  import opened LittleEndian

  /** A four-byte chunk identifier or form type. */
  type Tag = s: seq<Byte> | |s| == 4 witness [0, 0, 0, 0]

  const FORMAT: Tag := [0x57, 0x41, 0x56, 0x45]   // "WAVE"
  const ID_RIFF: Tag := [0x52, 0x49, 0x46, 0x46]  // "RIFF"
  const ID_FMT: Tag := [0x66, 0x6D, 0x74, 0x20]   // "fmt "
  const ID_DATA: Tag := [0x64, 0x61, 0x74, 0x61]  // "data"

  /*
   * The tag predicates compare four bytes with `memcmp(id, TAG, 4) == 0`,
   * which is equality of the two four-byte sequences.
   */

  predicate IsFormat(id: Tag) {
    id == FORMAT
  }

  predicate IsRiff(id: Tag) {
    id == ID_RIFF
  }

  predicate IsFmt(id: Tag) {
    id == ID_FMT
  }

  predicate IsData(id: Tag) {
    id == ID_DATA
  }

  /** The bytes of an ASCII string. */
  function Ascii(s: string): (r: seq<Byte>)
    requires forall k :: 0 <= k < |s| ==> s[k] as int < 0x80
    ensures |r| == |s| && forall k :: 0 <= k < |s| ==> r[k] == s[k] as int
  {
    seq(|s|, k requires 0 <= k < |s| => s[k] as int)
  }

  /**
   * Each predicate holds exactly for the four ASCII letters of its tag, and
   * the four tags differ, so at most one of the predicates holds for any id.
   */
  lemma TagSpelling(id: Tag)
    ensures IsFormat(id) <==> id == Ascii("WAVE")
    ensures IsRiff(id) <==> id == Ascii("RIFF")
    ensures IsFmt(id) <==> id == Ascii("fmt ")
    ensures IsData(id) <==> id == Ascii("data")
    ensures !(IsFmt(id) && IsData(id)) && !(IsRiff(id) && IsFormat(id))
    ensures !(IsFmt(id) && IsRiff(id)) && !(IsData(id) && IsRiff(id))
    ensures !(IsFmt(id) && IsFormat(id)) && !(IsData(id) && IsFormat(id))
  {
    assert Ascii("WAVE") == FORMAT;
    assert Ascii("RIFF") == ID_RIFF;
    assert Ascii("fmt ") == ID_FMT;
    assert Ascii("data") == ID_DATA;
  }

  /** An 8-byte chunk header: the tag and the payload length, header excluded. */
  datatype ChunkInfo = ChunkInfo(chunkID: Tag, chunkSize: U32)

  /** The 12-byte outer header: a chunk header followed by the form type. */
  datatype Riff = Riff(info: ChunkInfo, format: Tag)

  /** The `fmt ` chunk: its header and the six fixed little-endian fields (16 bytes). */
  datatype Format = Format(
    info: ChunkInfo,
    audioFormat: U16,
    numChannels: U16,
    sampleRate: U32,
    byteRate: U32,
    blockAlign: U16,
    bitsPerSample: U16)

  /** The `data` chunk: its header and the owned sample buffer. */
  datatype Data = Data(info: ChunkInfo, bytes: seq<Byte>) {
    /**
     * The number of elements of the sample buffer, `chunkSize / sizeof(uint8_t)`
     * with `sizeof(uint8_t) == 1`: one element per byte of the payload, a
     * count that fits the u32 size field.
     */
    function Size(): (n: nat)
      ensures n == info.chunkSize && n < 0x1_0000_0000
    {
      info.chunkSize / 1
    }
  }

  /** A decoded file: the outer header, the format record and the data block. */
  datatype Wav = Wav(riff: Riff, fmt: Format, data: Data)

  /** The loader's result codes. */
  datatype Result = Success | CannotOpenFile | BadFormatting | ProblemReadingData | UnknownError

  /** Whether a result code is an error (the console message for each code is not modelled). */
  function CheckResultForErrors(result: Result): (isError: bool)
    ensures isError <==> result != Success
  {
    match result
    case Success => false
    case CannotOpenFile => true
    case BadFormatting => true
    case ProblemReadingData => true
    case UnknownError => true
  }

  // ----- the wire layout of the headers -----

  const RIFF_HEADER_SIZE: nat := 12
  const CHUNK_HEADER_SIZE: nat := 8
  const FORMAT_FIELDS_SIZE: nat := 16

  /** The chunk header stored at f[pos..pos+8]. */
  function HeaderAt(f: seq<Byte>, pos: nat): ChunkInfo
    requires pos + CHUNK_HEADER_SIZE <= |f|
  {
    ChunkInfo(f[pos..pos + 4], U32At(f, pos + 4))
  }

  /** The outer header stored at f[0..12]. */
  function RiffAt(f: seq<Byte>): Riff
    requires RIFF_HEADER_SIZE <= |f|
  {
    Riff(HeaderAt(f, 0), f[8..12])
  }

  function HeaderBytes(h: ChunkInfo): (r: seq<Byte>)
    ensures |r| == CHUNK_HEADER_SIZE && HeaderAt(r, 0) == h
  {
    h.chunkID + U32Bytes(h.chunkSize)
  }

  function RiffBytes(riff: Riff): (r: seq<Byte>)
    ensures |r| == RIFF_HEADER_SIZE && RiffAt(r) == riff
  {
    var r := HeaderBytes(riff.info) + riff.format;
    assert r[..8] == HeaderBytes(riff.info);
    assert HeaderAt(r, 0) == HeaderAt(HeaderBytes(riff.info), 0);
    r
  }

  /** The 16 bytes of the six fixed fields of a format record, in struct order. */
  function FieldBytes(fmt: Format): (r: seq<Byte>)
    ensures |r| == FORMAT_FIELDS_SIZE
  {
    U16Bytes(fmt.audioFormat) + U16Bytes(fmt.numChannels) +
    U32Bytes(fmt.sampleRate) + U32Bytes(fmt.byteRate) +
    U16Bytes(fmt.blockAlign) + U16Bytes(fmt.bitsPerSample)
  }

  /** The format record whose header is `info` and whose field area holds `area`. */
  function FormatFrom(info: ChunkInfo, area: seq<Byte>): Format
    requires |area| == FORMAT_FIELDS_SIZE
  {
    Format(info, U16At(area, 0), U16At(area, 2), U32At(area, 4), U32At(area, 8),
           U16At(area, 12), U16At(area, 14))
  }

  /** Reading the fields back from their 16 bytes gives the same record. */
  lemma FormatFromFieldBytes(fmt: Format)
    ensures FormatFrom(fmt.info, FieldBytes(fmt)) == fmt
  {
    var a := FieldBytes(fmt);
    assert a[0..2] == U16Bytes(fmt.audioFormat);
    assert a[2..4] == U16Bytes(fmt.numChannels);
    assert a[4..8] == U32Bytes(fmt.sampleRate);
    assert a[8..12] == U32Bytes(fmt.byteRate);
    assert a[12..14] == U16Bytes(fmt.blockAlign);
    assert a[14..16] == U16Bytes(fmt.bitsPerSample);
  }

  /** Writing back the fields read from a 16-byte area reproduces the area. */
  lemma FieldBytesOfFormatFrom(info: ChunkInfo, area: seq<Byte>)
    requires |area| == FORMAT_FIELDS_SIZE
    ensures FieldBytes(FormatFrom(info, area)) == area
  {
    U16BytesOfRead(area, 0);
    U16BytesOfRead(area, 2);
    U32BytesOfRead(area, 4);
    U32BytesOfRead(area, 8);
    U16BytesOfRead(area, 12);
    U16BytesOfRead(area, 14);
    assert area == area[0..2] + area[2..4] + area[4..8] + area[8..12] + area[12..14] + area[14..16];
  }

  /** Writing back a chunk header read from 8 bytes reproduces those bytes. */
  lemma HeaderAtBytes(f: seq<Byte>, pos: nat)
    requires pos + CHUNK_HEADER_SIZE <= |f|
    ensures HeaderBytes(HeaderAt(f, pos)) == f[pos..pos + CHUNK_HEADER_SIZE]
  {
    U32BytesOfRead(f, pos + 4);
    assert f[pos..pos + CHUNK_HEADER_SIZE] == f[pos..pos + 4] + f[pos + 4..pos + 8];
  }

  /** Writing back the outer header read from the first 12 bytes reproduces those bytes. */
  lemma RiffAtBytes(f: seq<Byte>)
    requires RIFF_HEADER_SIZE <= |f|
    ensures RiffBytes(RiffAt(f)) == f[..RIFF_HEADER_SIZE]
  {
    HeaderAtBytes(f, 0);
    assert f[..RIFF_HEADER_SIZE] == f[0..CHUNK_HEADER_SIZE] + f[8..12];
  }

  /** The outer header is read from the first 12 bytes. */
  lemma RiffAtSlice(f: seq<Byte>)
    requires RIFF_HEADER_SIZE <= |f|
    ensures RiffAt(f) == RiffAt(f[..RIFF_HEADER_SIZE])
  {
    var h := f[..RIFF_HEADER_SIZE];
    assert h[0..4] == f[0..4] && h[8..12] == f[8..12];
  }

  /** A chunk header is read from its own eight bytes. */
  lemma HeaderAtSlice(f: seq<Byte>, pos: nat)
    requires pos + CHUNK_HEADER_SIZE <= |f|
    ensures HeaderAt(f, pos) == HeaderAt(f[pos..pos + CHUNK_HEADER_SIZE], 0)
  {
    var h := f[pos..pos + CHUNK_HEADER_SIZE];
    assert h[0..4] == f[pos..pos + 4];
  }
}
