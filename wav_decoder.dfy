/**
 * The loader `loadRawFile`: validate the 12-byte outer header, then walk the
 * 8-byte chunk headers until fewer than 8 bytes remain, filling the format
 * record from a `fmt ` chunk, the sample buffer from a `data` chunk, and
 * skipping every other chunk by its declared size.
 *
 * The file is an in-memory byte sequence read through a position (the
 * stream's get pointer).  A read that finds fewer bytes than it asks for
 * takes what is there and leaves the stream failed, and a seek past the end
 * leaves the next header read failing; either way the walk ends, which the
 * model expresses by a position from which no full header can be read.
 *
 * `Scan` and `Load` specify the loader as functions; the method
 * `LoadRawFile` is the loop of the source, proved equal to them.
 */
module WavDecoder {
  import opened LittleEndian
  import opened WavFormat

  datatype Option<T> = None | Some(value: T)

  function Min(a: nat, b: nat): nat {
    if a <= b then a else b
  }

  function Zeros(n: nat): (r: seq<Byte>)
    ensures |r| == n && forall k :: 0 <= k < n ==> r[k] == 0
  {
    seq(n, _ => 0)
  }

  /** `dst` after `src` has been copied over its start (a stream read into a buffer). */
  function Overwrite(dst: seq<Byte>, src: seq<Byte>): (r: seq<Byte>)
    requires |src| <= |dst|
    ensures |r| == |dst|
    ensures forall k :: 0 <= k < |src| ==> r[k] == src[k]
    ensures forall k :: |src| <= k < |dst| ==> r[k] == dst[k]
  {
    src + dst[|src|..]
  }

  /** The memory of the six fields of a `Format` record, as the stream writes it. */
  type FieldArea = s: seq<Byte> | |s| == FORMAT_FIELDS_SIZE
    witness [0, 0, 0, 0, 0, 0, 0, 0, 0, 0, 0, 0, 0, 0, 0, 0]

  /**
   * The loader's locals while it walks the chunks: the `fmt` record (its
   * chunk header and the bytes of its field area), `data`, `fmt_read` and
   * `data_read`.
   */
  datatype ScanState = ScanState(fmtInfo: ChunkInfo, fmtArea: FieldArea, data: Data, fmtRead: bool, dataRead: bool)
  {
    /** The `fmt` record: its header and the fields its area holds. */
    function Fmt(): Format {
      FormatFrom(fmtInfo, fmtArea)
    }
  }

  /**
   * The state before the first chunk.  The source leaves `fmt` and `data`
   * uninitialised; the model fixes them to zero bytes and an empty buffer.
   */
  const InitialState: ScanState :=
    ScanState(
      ChunkInfo([0, 0, 0, 0], 0), [0, 0, 0, 0, 0, 0, 0, 0, 0, 0, 0, 0, 0, 0, 0, 0],
      Data(ChunkInfo([0, 0, 0, 0], 0), []),
      false, false)

  /**
   * The effect of one chunk with header `info`, of whose payload the bytes
   * `payload` were in the file (all of them unless the file ends early).
   * A `fmt ` chunk overwrites the start of the 16-byte field area with what
   * it has (at most 16 bytes); a `data` chunk gets a fresh zeroed buffer of
   * the declared size with what it has copied to the start; either sets its
   * flag even when the payload was short.  Other chunks change nothing.
   */
  function ApplyChunk(st: ScanState, info: ChunkInfo, payload: seq<Byte>): (r: ScanState)
    requires |payload| <= info.chunkSize
    ensures !IsFmt(info.chunkID) ==>
      r.fmtInfo == st.fmtInfo && r.fmtArea == st.fmtArea && r.fmtRead == st.fmtRead
    ensures !IsData(info.chunkID) ==> r.data == st.data && r.dataRead == st.dataRead
    ensures IsFmt(info.chunkID) ==>
      && r.fmtRead && r.fmtInfo == info
      && r.fmtArea[..Min(|payload|, FORMAT_FIELDS_SIZE)] == payload[..Min(|payload|, FORMAT_FIELDS_SIZE)]
    ensures IsData(info.chunkID) ==>
      && r.dataRead && r.data.info == info
      && |r.data.bytes| == info.chunkSize
      && r.data.bytes[..|payload|] == payload
  {
    if IsFmt(info.chunkID) then st.(fmtInfo := info, fmtArea := FieldsAfter(st.fmtArea, payload), fmtRead := true)
    else if IsData(info.chunkID) then st.(data := DataAfter(info, payload), dataRead := true)
    else st
  }

  /** The field area after a `fmt ` chunk: the first (up to) 16 payload bytes overwrite it. */
  function FieldsAfter(area: FieldArea, payload: seq<Byte>): FieldArea {
    Overwrite(area, payload[..Min(|payload|, FORMAT_FIELDS_SIZE)])
  }

  /** The data block after a `data` chunk: a zeroed buffer of the declared size, the payload at its start. */
  function DataAfter(info: ChunkInfo, payload: seq<Byte>): Data
    requires |payload| <= info.chunkSize
  {
    Data(info, Overwrite(Zeros(info.chunkSize), payload))
  }

  /** The bytes of the payload of the chunk whose header is at `pos` that the file holds. */
  function PayloadAt(f: seq<Byte>, pos: nat): (p: seq<Byte>)
    requires pos + CHUNK_HEADER_SIZE <= |f|
    ensures |p| == Min(HeaderAt(f, pos).chunkSize, |f| - pos - CHUNK_HEADER_SIZE)
  {
    var start := pos + CHUNK_HEADER_SIZE;
    f[start..start + Min(HeaderAt(f, pos).chunkSize, |f| - start)]
  }

  /** The chunk walk from the header position `pos`: each chunk moves it by 8 + chunkSize. */
  function Scan(f: seq<Byte>, pos: nat, st: ScanState): ScanState
    decreases |f| - pos
  {
    if pos + CHUNK_HEADER_SIZE > |f| then st
    else
      var info := HeaderAt(f, pos);
      Scan(f, pos + CHUNK_HEADER_SIZE + info.chunkSize, ApplyChunk(st, info, PayloadAt(f, pos)))
  }

  /**
   * Advancing by the payload bytes actually consumed walks on exactly as
   * advancing by the declared size does: the two differ only for a chunk cut
   * short by the end of the file, after which neither finds another header.
   */
  lemma ScanConsumed(f: seq<Byte>, pos: nat, st: ScanState, next: nat)
    requires pos + CHUNK_HEADER_SIZE <= |f|
    requires next == pos + CHUNK_HEADER_SIZE + |PayloadAt(f, pos)| ||
             next == pos + CHUNK_HEADER_SIZE + HeaderAt(f, pos).chunkSize
    ensures Scan(f, pos, st) == Scan(f, next, ApplyChunk(st, HeaderAt(f, pos), PayloadAt(f, pos)))
  {
    var info, payload := HeaderAt(f, pos), PayloadAt(f, pos);
    var end := pos + CHUNK_HEADER_SIZE + info.chunkSize;
    var st' := ApplyChunk(st, info, payload);
    ScanStep(f, pos, st);
    if next != end {
      assert next == |f| < end;
      ScanEnd(f, next, st');
      ScanEnd(f, end, st');
    }
    assert Scan(f, next, st') == Scan(f, end, st');
  }

  /** A header that fits is applied and the walk goes on `8 + chunkSize` bytes further. */
  lemma ScanStep(f: seq<Byte>, pos: nat, st: ScanState)
    requires pos + CHUNK_HEADER_SIZE <= |f|
    ensures Scan(f, pos, st) ==
      Scan(f, pos + CHUNK_HEADER_SIZE + HeaderAt(f, pos).chunkSize, ApplyChunk(st, HeaderAt(f, pos), PayloadAt(f, pos)))
  {
  }

  /** No header fits past the end: the walk stops there. */
  lemma ScanEnd(f: seq<Byte>, pos: nat, st: ScanState)
    requires pos + CHUNK_HEADER_SIZE > |f|
    ensures Scan(f, pos, st) == st
  {
  }

  /** The checks on the outer header: 12 bytes, `RIFF` at 0 and `WAVE` at 8. */
  predicate HeaderOk(f: seq<Byte>) {
    |f| >= RIFF_HEADER_SIZE && IsRiff(f[0..4]) && IsFormat(f[8..12])
  }

  /** The outer header passes exactly when the 12 bytes read as a `RIFF` header of form `WAVE`. */
  lemma HeaderOkTags(f: seq<Byte>)
    ensures HeaderOk(f) <==>
      |f| >= RIFF_HEADER_SIZE && RiffAt(f).info.chunkID == ID_RIFF && RiffAt(f).format == FORMAT
  {
  }

  /** What a state says about itself: a seen chunk has its tag and, for data, its declared length. */
  predicate Consistent(st: ScanState) {
    && (st.fmtRead ==> st.fmtInfo.chunkID == ID_FMT)
    && (st.dataRead ==> st.data.info.chunkID == ID_DATA && |st.data.bytes| == st.data.Size())
  }

  lemma ApplyChunkConsistent(st: ScanState, info: ChunkInfo, payload: seq<Byte>)
    requires |payload| <= info.chunkSize
    requires Consistent(st)
    ensures Consistent(ApplyChunk(st, info, payload))
    ensures st.fmtRead ==> ApplyChunk(st, info, payload).fmtRead
    ensures st.dataRead ==> ApplyChunk(st, info, payload).dataRead
  {
  }

  lemma {:induction false} ScanConsistent(f: seq<Byte>, pos: nat, st: ScanState)
    requires Consistent(st)
    ensures Consistent(Scan(f, pos, st))
    ensures st.fmtRead ==> Scan(f, pos, st).fmtRead
    ensures st.dataRead ==> Scan(f, pos, st).dataRead
    decreases |f| - pos
  {
    if pos + CHUNK_HEADER_SIZE <= |f| {
      var info, payload := HeaderAt(f, pos), PayloadAt(f, pos);
      var next, st' := pos + CHUNK_HEADER_SIZE + info.chunkSize, ApplyChunk(st, info, payload);
      ApplyChunkConsistent(st, info, payload);
      ScanConsistent(f, next, st');
      ScanConsumed(f, pos, st, next);
    }
  }

  /**
   * `loadRawFile` as a function of the file's contents (None when the file
   * cannot be opened) and of the caller's `wav`, which is only replaced on
   * success.  The result is BadFormatting exactly when the outer header is
   * short or has the wrong tags, ProblemReadingData exactly when the walk saw
   * no `fmt ` or no `data` chunk, and otherwise Success with the outer header,
   * the format record (tagged `fmt `) and a data block (tagged `data`) whose
   * buffer has the declared length.
   */
  function Load(file: Option<seq<Byte>>, wav0: Wav): (r: (Result, Wav))
    ensures file.None? <==> r.0 == CannotOpenFile
    ensures file.Some? ==> (r.0 == BadFormatting <==> !HeaderOk(file.value))
    ensures file.Some? && HeaderOk(file.value) ==>
      var st := Scan(file.value, RIFF_HEADER_SIZE, InitialState);
      (r.0 == ProblemReadingData <==> !st.fmtRead || !st.dataRead)
    ensures r.0 != Success ==> r.1 == wav0
    ensures r.0 == Success ==>
      && r.1.riff == RiffAt(file.value)
      && r.1.riff.info.chunkID == ID_RIFF && r.1.riff.format == FORMAT
      && r.1.fmt.info.chunkID == ID_FMT
      && r.1.data.info.chunkID == ID_DATA
      && |r.1.data.bytes| == r.1.data.Size()
    ensures r.0 != UnknownError
  {
    if file.None? then (CannotOpenFile, wav0)
    else if !HeaderOk(file.value) then (BadFormatting, wav0)
    else
      var st := Scan(file.value, RIFF_HEADER_SIZE, InitialState);
      ScanConsistent(file.value, RIFF_HEADER_SIZE, InitialState);
      if !st.dataRead || !st.fmtRead then (ProblemReadingData, wav0)
      else (Success, Wav(RiffAt(file.value), st.Fmt(), st.data))
  }

  /**
   * `ifs.read(dst, count)` at position `from`, with the copy bounded by the
   * destination: it consumes up to `count` bytes of the file (fewer when the
   * file ends first) and stores as many of them as `dst` can hold.
   */
  method ReadInto(f: seq<Byte>, from: nat, count: nat, dst: array<Byte>) returns (consumed: nat)
    requires from <= |f|
    modifies dst
    ensures consumed == Min(count, |f| - from)
    ensures dst[..] == Overwrite(old(dst[..]), f[from..from + Min(consumed, dst.Length)])
  {
    consumed := Min(count, |f| - from);
    var n := Min(consumed, dst.Length);
    var k := 0;
    while k < n
      invariant 0 <= k <= n
      invariant forall j :: 0 <= j < k ==> dst[j] == f[from + j]
      invariant forall j :: k <= j < dst.Length ==> dst[j] == old(dst[j])
    {
      dst[k] := f[from + k];
      k := k + 1;
    }
  }

  /** The `fmt ` branch: read the payload into the field area of the running record. */
  method ReadFormat(f: seq<Byte>, pos: nat, area: FieldArea) returns (area': FieldArea, consumed: nat)
    requires pos + CHUNK_HEADER_SIZE <= |f| && IsFmt(HeaderAt(f, pos).chunkID)
    ensures consumed == |PayloadAt(f, pos)|
    ensures area' == FieldsAfter(area, PayloadAt(f, pos))
  {
    var ch := HeaderAt(f, pos);
    var fields := new Byte[FORMAT_FIELDS_SIZE](k requires 0 <= k < FORMAT_FIELDS_SIZE => area[k]);
    assert fields[..] == area;
    consumed := ReadInto(f, pos + CHUNK_HEADER_SIZE, ch.chunkSize, fields);
    ghost var payload := PayloadAt(f, pos);
    ghost var n := Min(consumed, FORMAT_FIELDS_SIZE);
    assert f[pos + CHUNK_HEADER_SIZE..pos + CHUNK_HEADER_SIZE + n] == payload[..n];
    area' := fields[..];
  }

  /** The `data` branch: allocate a buffer of the declared size and read the payload into it. */
  method ReadData(f: seq<Byte>, pos: nat) returns (data: Data, consumed: nat)
    requires pos + CHUNK_HEADER_SIZE <= |f| && IsData(HeaderAt(f, pos).chunkID)
    ensures consumed == |PayloadAt(f, pos)|
    ensures data == DataAfter(HeaderAt(f, pos), PayloadAt(f, pos))
  {
    var ch := HeaderAt(f, pos);
    var buffer := new Byte[ch.chunkSize](_ => 0);
    assert buffer[..] == Zeros(ch.chunkSize);
    consumed := ReadInto(f, pos + CHUNK_HEADER_SIZE, ch.chunkSize, buffer);
    data := Data(ch, buffer[..]);
  }

  /**
   * One pass of the loader's loop: the chunk whose header is at `pos` is
   * dispatched on its tag, and `next` is where the stream stands afterwards.
   */
  method ReadChunk(f: seq<Byte>, pos: nat, st: ScanState) returns (st': ScanState, next: nat)
    requires pos + CHUNK_HEADER_SIZE <= |f|
    ensures st' == ApplyChunk(st, HeaderAt(f, pos), PayloadAt(f, pos))
    ensures next == pos + CHUNK_HEADER_SIZE + |PayloadAt(f, pos)| ||
            next == pos + CHUNK_HEADER_SIZE + HeaderAt(f, pos).chunkSize
  {
    var ch := HeaderAt(f, pos);
    if IsFmt(ch.chunkID) {
      var area, n := ReadFormat(f, pos, st.fmtArea);
      st' := st.(fmtInfo := ch, fmtArea := area, fmtRead := true);
      next := pos + CHUNK_HEADER_SIZE + n;
    } else if IsData(ch.chunkID) {
      var data, n := ReadData(f, pos);
      st' := st.(data := data, dataRead := true);
      next := pos + CHUNK_HEADER_SIZE + n;
    } else {
      st' := st;
      next := pos + CHUNK_HEADER_SIZE + ch.chunkSize;
    }
  }

  /** The loader's loop over the chunks, proved to compute `Load`. */
  method LoadRawFile(file: Option<seq<Byte>>, wav0: Wav) returns (result: Result, wav: Wav)
    ensures (result, wav) == Load(file, wav0)
  {
    if file.None? {
      return CannotOpenFile, wav0;
    }
    var f := file.value;
    if |f| < RIFF_HEADER_SIZE {
      return BadFormatting, wav0;
    }
    var riff := RiffAt(f);
    if !IsRiff(riff.info.chunkID) || !IsFormat(riff.format) {
      return BadFormatting, wav0;
    }

    var st := InitialState;
    var pos := RIFF_HEADER_SIZE;
    ghost var goal := Scan(f, RIFF_HEADER_SIZE, InitialState);
    while pos + CHUNK_HEADER_SIZE <= |f|
      invariant Scan(f, pos, st) == goal
      decreases |f| - pos
    {
      var st', next := ReadChunk(f, pos, st);
      ScanConsumed(f, pos, st, next);
      st, pos := st', next;
    }

    if !st.dataRead || !st.fmtRead {
      return ProblemReadingData, wav0;
    }
    return Success, Wav(riff, st.Fmt(), st.data);
  }

  /**
   * `Wav()`: every member value-initialised, so every tag byte and every
   * field is zero and the data block owns no bytes.
   */
  function EmptyWav(): (w: Wav)
    ensures w.riff.info.chunkID == w.riff.format == w.fmt.info.chunkID == w.data.info.chunkID == [0, 0, 0, 0]
    ensures w.riff.info.chunkSize == w.fmt.info.chunkSize == w.data.Size() == 0
    ensures w.fmt.audioFormat == w.fmt.numChannels == w.fmt.blockAlign == w.fmt.bitsPerSample == 0
    ensures w.fmt.sampleRate == w.fmt.byteRate == 0
    ensures w.data.bytes == []
  {
    var zero := ChunkInfo([0, 0, 0, 0], 0);
    Wav(Riff(zero, [0, 0, 0, 0]), Format(zero, 0, 0, 0, 0, 0, 0), Data(zero, []))
  }

  /**
   * `load`: the loaded Wav, or None where the source throws because
   * `checkResultForErrors` reports an error.
   */
  function LoadOrThrow(file: Option<seq<Byte>>): (r: Option<Wav>)
    ensures r.None? <==>
      || file.None?
      || !HeaderOk(file.value)
      || !Scan(file.value, RIFF_HEADER_SIZE, InitialState).fmtRead
      || !Scan(file.value, RIFF_HEADER_SIZE, InitialState).dataRead
    ensures r.Some? ==>
      && r.value.riff == RiffAt(file.value)
      && r.value.fmt.info.chunkID == ID_FMT
      && r.value.data.info.chunkID == ID_DATA
      && |r.value.data.bytes| == r.value.data.Size()
  {
    var (result, wav) := Load(file, EmptyWav());
    if CheckResultForErrors(result) then None else Some(wav)
  }
}
