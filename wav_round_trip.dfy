/**
 * Encoding followed by decoding.  A Wav whose headers agree with its
 * contents (the tags are right, the format chunk has the 16 bytes of
 * fields, the buffer has the declared length and the outer header declares
 * the 36 header bytes plus the payload) is laid out by `rawAll` as an outer
 * header followed by exactly two whole chunks, and `loadRawFile` reads it
 * back to the same Wav.
 */
module WavRoundTrip {
  import opened WavFormat
  import opened WavDecoder
  import opened WavChunks
  import opened WavEncoder

  /** A Wav whose declared sizes and tags match what it holds. */
  predicate WellFormed(w: Wav) {
    && w.riff.info.chunkID == ID_RIFF
    && w.riff.format == FORMAT
    && w.fmt.info == ChunkInfo(ID_FMT, FORMAT_FIELDS_SIZE)
    && w.data.info.chunkID == ID_DATA
    && |w.data.bytes| == w.data.Size()
    && w.riff.info.chunkSize == DATA_OFFSET + w.data.Size()
    && w.riff.info.chunkSize + CHUNK_HEADER_SIZE < 0x1_0000_0000
  }

  /** The `fmt ` chunk of a Wav: its 16 bytes of fields. */
  function FmtChunk(w: Wav): Chunk {
    Chunk(ID_FMT, FieldBytes(w.fmt))
  }

  /** The `data` chunk of a Wav: its payload. */
  function DataChunk(w: Wav): Chunk {
    Chunk(ID_DATA, w.data.bytes)
  }

  /** Two chunks laid out one after the other. */
  lemma ChunksBytesPair(a: Chunk, b: Chunk)
    requires Fits(a) && Fits(b)
    ensures AllFit([a, b])
    ensures ChunksBytes([a, b]) == ChunkBytes(a) + ChunkBytes(b)
  {
    assert [a, b][1..] == [b] && [b][1..] == [];
    assert ChunksBytes([b]) == ChunkBytes(b) + [];
  }

  /** The encoder's layout of a well-formed Wav is its outer header and its two chunks. */
  lemma LayoutAsChunks(w: Wav)
    requires WellFormed(w)
    ensures AllFit([FmtChunk(w), DataChunk(w)])
    ensures Layout(w) == RiffBytes(w.riff) + ChunksBytes([FmtChunk(w), DataChunk(w)])
  {
    ChunksBytesPair(FmtChunk(w), DataChunk(w));
    ChunkBytesOfWav(w);
    assert RiffBytes(w.riff) + FormatBytes(w.fmt) + HeaderBytes(w.data.info) + w.data.bytes ==
      RiffBytes(w.riff) + (FormatBytes(w.fmt) + (HeaderBytes(w.data.info) + w.data.bytes));
  }

  /** The two chunks' bytes are the format record's 24 bytes and the data header followed by the payload. */
  lemma ChunkBytesOfWav(w: Wav)
    requires WellFormed(w)
    ensures Fits(FmtChunk(w)) && ChunkBytes(FmtChunk(w)) == FormatBytes(w.fmt)
    ensures Fits(DataChunk(w)) && ChunkBytes(DataChunk(w)) == HeaderBytes(w.data.info) + w.data.bytes
  {
    assert Header(FmtChunk(w)) == w.fmt.info;
    assert Header(DataChunk(w)) == w.data.info;
  }

  /** The loader's state after the two chunks of a well-formed Wav holds its format record and data block. */
  lemma FeedTwoChunks(w: Wav)
    requires WellFormed(w)
    ensures AllFit([FmtChunk(w), DataChunk(w)])
    ensures var st := Feed(InitialState, [FmtChunk(w), DataChunk(w)]);
      st.fmtRead && st.dataRead && st.Fmt() == w.fmt && st.data == w.data
  {
    var fc, dc := FmtChunk(w), DataChunk(w);
    assert [] + [fc] + [dc] == [fc, dc];
    assert [fc] + [dc] + [] == [fc, dc];
    assert !HasTag([dc], ID_FMT);
    assert !HasTag([], ID_DATA);
    FormatLastWins(InitialState, [], fc, [dc]);
    DataLastWins(InitialState, [fc], dc, []);
    assert FieldBytes(w.fmt)[..FORMAT_FIELDS_SIZE] == FieldBytes(w.fmt);
    FormatFromFieldBytes(w.fmt);
  }

  /** Decoding the encoding of a well-formed Wav gives it back, with Success. */
  lemma RoundTrip(w: Wav, wav0: Wav)
    requires WellFormed(w)
    ensures Load(Some(Encode(w)), wav0) == (Success, w)
  {
    ExactFit(w);
    LayoutAsChunks(w);
    LoadTwoChunks(w, wav0);
  }

  /** A file of a well-formed Wav's outer header and two chunks loads to that Wav. */
  lemma LoadTwoChunks(w: Wav, wav0: Wav)
    requires WellFormed(w)
    ensures AllFit([FmtChunk(w), DataChunk(w)])
    ensures Load(Some(RiffBytes(w.riff) + ChunksBytes([FmtChunk(w), DataChunk(w)])), wav0) == (Success, w)
  {
    var cs := [FmtChunk(w), DataChunk(w)];
    FeedTwoChunks(w);
    assert HasTag(cs, ID_FMT) by { assert cs[0].id == ID_FMT; }
    assert HasTag(cs, ID_DATA) by { assert cs[1].id == ID_DATA; }
    LoadChunksResult(w.riff, cs, wav0);
  }

  /** The file of a 4-byte 16-bit stereo PCM fragment at 44100 Hz. */
  const Example: Wav :=
    Wav(Riff(ChunkInfo(ID_RIFF, 40), FORMAT),
        Format(ChunkInfo(ID_FMT, 16), 1, 2, 44100, 176400, 4, 16),
        Data(ChunkInfo(ID_DATA, 4), [1, 2, 3, 4]))

  /** The example's 48 encoded bytes decode back to the same format fields and the same 4 bytes. */
  lemma ExampleRoundTrip(wav0: Wav)
    ensures |Encode(Example)| == 48
    ensures Load(Some(Encode(Example)), wav0) == (Success, Example)
  {
    assert WellFormed(Example);
    RoundTrip(Example, wav0);
  }
}
