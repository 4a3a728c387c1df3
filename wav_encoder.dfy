/**
 * The encoder `Wav::rawAll`: allocate a buffer of `riff.chunkSize + 8`
 * bytes (the declared file length, truncated to the u32 `size`), then step a
 * write pointer through it storing the outer header (12 bytes), the format
 * record (24 bytes), the data chunk header (8 bytes) and the payload.
 *
 * The source stores through the pointer whatever the buffer length; the
 * model writes only the bytes that fall inside the buffer.  Bytes of a new
 * buffer that nothing writes are zero in the model.
 */
module WavEncoder {
  import opened LittleEndian
  import opened WavFormat

  /** `sizeof(Format)`: the chunk header and the 16 bytes of fields. */
  const FORMAT_SIZE: nat := 24
  /** The offsets at which `rawAll` stores the format record, the data header and the payload. */
  const FMT_OFFSET: nat := 12
  const DATA_OFFSET: nat := 36
  const PAYLOAD_OFFSET: nat := 44

  /** The 24 bytes of a format record: its chunk header, then its fields. */
  function FormatBytes(fmt: Format): (r: seq<Byte>)
    ensures |r| == FORMAT_SIZE
  {
    HeaderBytes(fmt.info) + FieldBytes(fmt)
  }

  /** The encoding laid out without regard to the buffer's length. */
  function Layout(w: Wav): (r: seq<Byte>)
    ensures |r| == PAYLOAD_OFFSET + |w.data.bytes|
  {
    RiffBytes(w.riff) + FormatBytes(w.fmt) + HeaderBytes(w.data.info) + w.data.bytes
  }

  /** The buffer length: `riff.chunkSize + 8` stored into the u32 `size`. */
  function BufferSize(w: Wav): (size: U32)
    ensures w.riff.info.chunkSize + CHUNK_HEADER_SIZE < 0x1_0000_0000 ==>
      size == w.riff.info.chunkSize + CHUNK_HEADER_SIZE
    ensures w.riff.info.chunkSize + CHUNK_HEADER_SIZE >= 0x1_0000_0000 ==>
      size == w.riff.info.chunkSize + CHUNK_HEADER_SIZE - 0x1_0000_0000 && size < CHUNK_HEADER_SIZE
  {
    (w.riff.info.chunkSize + CHUNK_HEADER_SIZE) % 0x1_0000_0000
  }

  /** `layout` in a zeroed buffer of `n` bytes: the part that fits is kept, the rest of the buffer is zero. */
  function Fit(layout: seq<Byte>, n: nat): (r: seq<Byte>)
    ensures |r| == n
    ensures forall k :: 0 <= k < n ==> r[k] == if k < |layout| then layout[k] else 0
  {
    seq(n, k requires 0 <= k < n => if k < |layout| then layout[k] else 0)
  }

  /** What `rawAll` leaves in its buffer. */
  function Encode(w: Wav): (r: seq<Byte>)
    ensures |r| == BufferSize(w)
  {
    Fit(Layout(w), BufferSize(w))
  }

  /** The buffer `b` after `src` is stored from `at` on, keeping only the bytes inside it. */
  function Written(b: seq<Byte>, at: nat, src: seq<Byte>): (r: seq<Byte>)
    ensures |r| == |b|
    ensures forall k :: 0 <= k < |b| ==> r[k] == if at <= k < at + |src| then src[k - at] else b[k]
  {
    seq(|b|, k requires 0 <= k < |b| => if at <= k < at + |src| then src[k - at] else b[k])
  }

  /** Storing `src` right after the laid-out prefix extends the prefix. */
  lemma WrittenFit(prefix: seq<Byte>, src: seq<Byte>, n: nat)
    ensures Written(Fit(prefix, n), |prefix|, src) == Fit(prefix + src, n)
  {
    var l := Written(Fit(prefix, n), |prefix|, src);
    var r := Fit(prefix + src, n);
    forall k | 0 <= k < n
      ensures l[k] == r[k]
    {
      if k < |prefix| {
        assert (prefix + src)[k] == prefix[k];
      } else if k < |prefix| + |src| {
        assert (prefix + src)[k] == src[k - |prefix|];
      }
    }
  }

  /** Store `src` into `buf` from `at` on, one byte at a time, stopping at the end of the buffer. */
  method Put(buf: array<Byte>, at: nat, src: seq<Byte>)
    modifies buf
    ensures buf[..] == Written(old(buf[..]), at, src)
  {
    var k := 0;
    while k < |src| && at + k < buf.Length
      invariant 0 <= k <= |src|
      invariant forall i :: 0 <= i < buf.Length ==>
        buf[i] == if at <= i < at + k then src[i - at] else old(buf[i])
    {
      buf[at + k] := src[k];
      k := k + 1;
    }
  }

  /** Store `src` at `ptr`, right after the bytes `laid` already laid out in `buf`. */
  method PutNext(buf: array<Byte>, ptr: nat, ghost laid: seq<Byte>, src: seq<Byte>)
    requires ptr == |laid| && buf[..] == Fit(laid, buf.Length)
    modifies buf
    ensures buf[..] == Fit(laid + src, buf.Length)
  {
    Put(buf, ptr, src);
    WrittenFit(laid, src, buf.Length);
  }

  /** A new buffer of `n` bytes, nothing laid out in it yet. */
  method NewBuffer(n: nat) returns (buf: array<Byte>)
    ensures fresh(buf)
    ensures buf[..] == Fit([], n)
  {
    buf := new Byte[n](_ => 0);
  }

  /**
   * `rawAll` with the payload copy in place (see `WavFindings` for the
   * source as written).  The caller's data block must own `Size()` bytes,
   * as the source reads that many from it.
   */
  method RawAll(w: Wav) returns (start: array<Byte>, size: U32)
    requires |w.data.bytes| == w.data.Size()
    ensures fresh(start)
    ensures size == BufferSize(w) && start.Length == size
    ensures start[..] == Encode(w)
  {
    size := BufferSize(w);
    start := NewBuffer(size);
    var ptr: nat := 0;
    ghost var laid: seq<Byte> := [];
    PutNext(start, ptr, laid, RiffBytes(w.riff));
    laid, ptr := laid + RiffBytes(w.riff), ptr + RIFF_HEADER_SIZE;
    PutNext(start, ptr, laid, FormatBytes(w.fmt));
    laid, ptr := laid + FormatBytes(w.fmt), ptr + FORMAT_SIZE;
    PutNext(start, ptr, laid, HeaderBytes(w.data.info));
    laid, ptr := laid + HeaderBytes(w.data.info), ptr + CHUNK_HEADER_SIZE;
    PutNext(start, ptr, laid, w.data.bytes);
    laid := laid + w.data.bytes;
    LaidOut(w);
    ptr := ptr + w.data.Size();
  }

  /** The four stores of `rawAll`, one after the other from an empty buffer, lay out `Layout(w)`. */
  lemma LaidOut(w: Wav)
    ensures [] + RiffBytes(w.riff) + FormatBytes(w.fmt) + HeaderBytes(w.data.info) + w.data.bytes == Layout(w)
  {
    assert [] + RiffBytes(w.riff) == RiffBytes(w.riff);
  }

  /**
   * The write pointer ends exactly at the end of the buffer iff the outer
   * header declares 36 bytes plus the data chunk's size, and that sum plus 8
   * does not overflow the u32 `size`.
   */
  lemma ExactFit(w: Wav)
    requires |w.data.bytes| == w.data.Size()
    ensures PAYLOAD_OFFSET + w.data.Size() == BufferSize(w) <==>
      w.riff.info.chunkSize == DATA_OFFSET + w.data.Size() &&
      w.riff.info.chunkSize + CHUNK_HEADER_SIZE < 0x1_0000_0000
    ensures PAYLOAD_OFFSET + w.data.Size() == BufferSize(w) ==> Encode(w) == Layout(w)
  {
    if PAYLOAD_OFFSET + w.data.Size() == BufferSize(w) {
      var e, l := Encode(w), Layout(w);
      assert forall k :: 0 <= k < |e| ==> e[k] == l[k];
    }
  }

  /**
   * When the buffer holds at least the three headers, reading them back
   * with the decoder's layout gives the outer header, the format record
   * and the data chunk header that were written.
   */
  lemma EncodedHeaders(w: Wav)
    requires BufferSize(w) >= PAYLOAD_OFFSET
    ensures var e := Encode(w);
      && RiffAt(e) == w.riff
      && HeaderAt(e, FMT_OFFSET) == w.fmt.info
      && FormatFrom(w.fmt.info, e[FMT_OFFSET + CHUNK_HEADER_SIZE..DATA_OFFSET]) == w.fmt
      && HeaderAt(e, DATA_OFFSET) == w.data.info
  {
    var e := Encode(w);
    var h := RiffBytes(w.riff) + FormatBytes(w.fmt) + HeaderBytes(w.data.info);
    HeadersPrefix(w);
    HeaderSlices(w);
    assert e[..RIFF_HEADER_SIZE] == h[..RIFF_HEADER_SIZE];
    assert e[FMT_OFFSET..FMT_OFFSET + CHUNK_HEADER_SIZE] == h[FMT_OFFSET..FMT_OFFSET + CHUNK_HEADER_SIZE];
    assert e[FMT_OFFSET + CHUNK_HEADER_SIZE..DATA_OFFSET] == h[FMT_OFFSET + CHUNK_HEADER_SIZE..DATA_OFFSET];
    assert e[DATA_OFFSET..PAYLOAD_OFFSET] == h[DATA_OFFSET..PAYLOAD_OFFSET];
    RiffAtSlice(e);
    HeaderAtSlice(e, FMT_OFFSET);
    HeaderAtSlice(e, DATA_OFFSET);
    FormatFromFieldBytes(w.fmt);
  }

  /** The first 44 bytes of the encoding are the three headers. */
  lemma HeadersPrefix(w: Wav)
    requires BufferSize(w) >= PAYLOAD_OFFSET
    ensures Encode(w)[..PAYLOAD_OFFSET] == RiffBytes(w.riff) + FormatBytes(w.fmt) + HeaderBytes(w.data.info)
  {
    var h := RiffBytes(w.riff) + FormatBytes(w.fmt) + HeaderBytes(w.data.info);
    assert Layout(w) == h + w.data.bytes;
    assert Layout(w)[..PAYLOAD_OFFSET] == h;
  }

  /** Where each header sits among the three. */
  lemma HeaderSlices(w: Wav)
    ensures var h := RiffBytes(w.riff) + FormatBytes(w.fmt) + HeaderBytes(w.data.info);
      && h[..RIFF_HEADER_SIZE] == RiffBytes(w.riff)
      && h[FMT_OFFSET..FMT_OFFSET + CHUNK_HEADER_SIZE] == HeaderBytes(w.fmt.info)
      && h[FMT_OFFSET + CHUNK_HEADER_SIZE..DATA_OFFSET] == FieldBytes(w.fmt)
      && h[DATA_OFFSET..PAYLOAD_OFFSET] == HeaderBytes(w.data.info)
  {
    var r, f, d := RiffBytes(w.riff), FormatBytes(w.fmt), HeaderBytes(w.data.info);
    var h := r + f + d;
    assert f[..CHUNK_HEADER_SIZE] == HeaderBytes(w.fmt.info);
    assert f[CHUNK_HEADER_SIZE..] == FieldBytes(w.fmt);
    assert h[FMT_OFFSET..DATA_OFFSET] == f;
    assert h[FMT_OFFSET..FMT_OFFSET + CHUNK_HEADER_SIZE] == f[..CHUNK_HEADER_SIZE];
    assert h[FMT_OFFSET + CHUNK_HEADER_SIZE..DATA_OFFSET] == f[CHUNK_HEADER_SIZE..];
  }
}
