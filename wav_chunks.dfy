/**
 * The chunk walk seen from the chunks' side.  A file built from whole chunks
 * (a tag, the little-endian size of the payload, the payload) is walked one
 * chunk at a time: the walk is always header-aligned at the next chunk, so
 * decoding such a file is a left fold of `ApplyChunk` over its chunk list.
 * From that follow the properties of the loader that talk about chunk
 * order: unknown chunks are skipped without effect, the last `fmt ` and
 * `data` chunks win, and the result is ProblemReadingData exactly when one of
 * the two kinds is missing.
 */
module WavChunks {
  import opened LittleEndian
  import opened WavFormat
  import opened WavDecoder

  /** A whole chunk: its tag and its payload; the size field is the payload's length. */
  datatype Chunk = Chunk(id: Tag, payload: seq<Byte>)

  /** The payload length is representable in the u32 size field. */
  predicate Fits(c: Chunk) {
    |c.payload| < 0x1_0000_0000
  }

  predicate AllFit(cs: seq<Chunk>) {
    forall i :: 0 <= i < |cs| ==> Fits(cs[i])
  }

  function Header(c: Chunk): ChunkInfo
    requires Fits(c)
  {
    ChunkInfo(c.id, |c.payload|)
  }

  function ChunkBytes(c: Chunk): (r: seq<Byte>)
    requires Fits(c)
    ensures |r| == CHUNK_HEADER_SIZE + |c.payload|
  {
    HeaderBytes(Header(c)) + c.payload
  }

  /** The chunks laid out one after the other. */
  function ChunksBytes(cs: seq<Chunk>): seq<Byte>
    requires AllFit(cs)
  {
    if cs == [] then [] else ChunkBytes(cs[0]) + ChunksBytes(cs[1..])
  }

  /** The loader's state after the chunks `cs`, taken in order. */
  function Feed(st: ScanState, cs: seq<Chunk>): ScanState
    requires AllFit(cs)
    decreases |cs|
  {
    if cs == [] then st else Feed(ApplyChunk(st, Header(cs[0]), cs[0].payload), cs[1..])
  }

  /** Any stretch of a suffix `g` of `f` reads the same in `f`, `d` bytes further on. */
  lemma SuffixSlice(f: seq<Byte>, g: seq<Byte>, d: nat, i: nat, n: nat)
    requires d <= |f| && f[d..] == g && i + n <= |g|
    ensures f[d + i..d + i + n] == g[i..i + n]
  {
    assert f[d..][i..i + n] == f[d + i..d + i + n];
  }

  /** A chunk header and payload read the same in a suffix of the file as in the file. */
  lemma SuffixChunk(f: seq<Byte>, g: seq<Byte>, d: nat, i: nat)
    requires d <= |f| && f[d..] == g && i + CHUNK_HEADER_SIZE <= |g|
    ensures HeaderAt(f, d + i) == HeaderAt(g, i)
    ensures PayloadAt(f, d + i) == PayloadAt(g, i)
  {
    SuffixSlice(f, g, d, i, CHUNK_HEADER_SIZE);
    HeaderAtSlice(f, d + i);
    HeaderAtSlice(g, i);
    var n := Min(HeaderAt(g, i).chunkSize, |g| - i - CHUNK_HEADER_SIZE);
    SuffixSlice(f, g, d, i + CHUNK_HEADER_SIZE, n);
  }

  /** Two walks that meet the same chunk and agree after it agree from it. */
  lemma ScanSameStep(f: seq<Byte>, p: nat, nf: nat, g: seq<Byte>, q: nat, ng: nat, st: ScanState, st': ScanState)
    requires p + CHUNK_HEADER_SIZE <= |f| && q + CHUNK_HEADER_SIZE <= |g|
    requires HeaderAt(f, p) == HeaderAt(g, q) && PayloadAt(f, p) == PayloadAt(g, q)
    requires nf == p + CHUNK_HEADER_SIZE + HeaderAt(f, p).chunkSize
    requires ng == q + CHUNK_HEADER_SIZE + HeaderAt(g, q).chunkSize
    requires st' == ApplyChunk(st, HeaderAt(g, q), PayloadAt(g, q))
    requires Scan(f, nf, st') == Scan(g, ng, st')
    ensures Scan(f, p, st) == Scan(g, q, st)
  {
    ScanConsumed(f, p, st, nf);
    ScanConsumed(g, q, st, ng);
  }

  /** The walk over a file from `d + i` is the walk over its suffix `g`, from `d` on, from `i`. */
  lemma {:induction false} ScanSuffix(f: seq<Byte>, g: seq<Byte>, d: nat, i: nat, st: ScanState)
    requires d <= |f| && f[d..] == g
    ensures Scan(f, d + i, st) == Scan(g, i, st)
    decreases |g| - i
  {
    if i + CHUNK_HEADER_SIZE <= |g| {
      var next := i + CHUNK_HEADER_SIZE + HeaderAt(g, i).chunkSize;
      var st' := ApplyChunk(st, HeaderAt(g, i), PayloadAt(g, i));
      ScanSuffix(f, g, d, next, st');
      ScanSuffixStep(f, g, d, i, st, next, st');
    }
  }

  /** One chunk of the walk over a suffix: if the walks agree after the chunk, they agree from it. */
  lemma ScanSuffixStep(f: seq<Byte>, g: seq<Byte>, d: nat, i: nat, st: ScanState, next: nat, st': ScanState)
    requires d <= |f| && f[d..] == g && i + CHUNK_HEADER_SIZE <= |g|
    requires next == i + CHUNK_HEADER_SIZE + HeaderAt(g, i).chunkSize
    requires st' == ApplyChunk(st, HeaderAt(g, i), PayloadAt(g, i))
    requires Scan(f, d + next, st') == Scan(g, next, st')
    ensures Scan(f, d + i, st) == Scan(g, i, st)
  {
    SuffixChunk(f, g, d, i);
    ScanSameStep(f, d + i, d + next, g, i, next, st, st');
  }

  /** The walk over a file `pre + s` from the end of `pre` on is the walk over `s`. */
  lemma ScanShift(f: seq<Byte>, pre: seq<Byte>, s: seq<Byte>, st: ScanState)
    requires f == pre + s
    ensures Scan(f, |pre|, st) == Scan(s, 0, st)
  {
    assert f[|pre|..] == s;
    ScanSuffix(f, s, |pre|, 0, st);
  }

  /** The first chunk of a file of whole chunks is read back as it was written. */
  lemma FirstChunk(c: Chunk, rest: seq<Byte>)
    requires Fits(c)
    ensures HeaderAt(ChunkBytes(c) + rest, 0) == Header(c)
    ensures PayloadAt(ChunkBytes(c) + rest, 0) == c.payload
  {
    var f := ChunkBytes(c) + rest;
    assert f[..CHUNK_HEADER_SIZE] == HeaderBytes(Header(c));
    assert f[0..4] == HeaderBytes(Header(c))[0..4];
    assert U32At(f, 4) == U32At(HeaderBytes(Header(c)), 4);
    assert f[CHUNK_HEADER_SIZE..CHUNK_HEADER_SIZE + |c.payload|] == c.payload;
  }

  /** A file that starts with a whole chunk is walked by applying it and going on after it. */
  lemma ScanFirstChunk(c: Chunk, rest: seq<Byte>, st: ScanState, st': ScanState)
    requires Fits(c)
    requires st' == ApplyChunk(st, Header(c), c.payload)
    ensures Scan(ChunkBytes(c) + rest, 0, st) == Scan(rest, 0, st')
  {
    FirstChunk(c, rest);
    ScanConsumed(ChunkBytes(c) + rest, 0, st, |ChunkBytes(c)|);
    ScanShift(ChunkBytes(c) + rest, ChunkBytes(c), rest, st');
  }

  /**
   * Walking a run of whole chunks applies them in order and leaves the walk
   * aligned on whatever follows them: each chunk moves the position by
   * exactly 8 + its size.
   */
  lemma {:induction false} ScanChunks(cs: seq<Chunk>, tail: seq<Byte>, st: ScanState)
    requires AllFit(cs)
    ensures Scan(ChunksBytes(cs) + tail, 0, st) == Scan(tail, 0, Feed(st, cs))
    decreases |cs|
  {
    if cs == [] {
      assert ChunksBytes(cs) + tail == tail;
    } else {
      var rest := ChunksBytes(cs[1..]) + tail;
      var st' := ApplyChunk(st, Header(cs[0]), cs[0].payload);
      assert Feed(st, cs) == Feed(st', cs[1..]);
      assert ChunksBytes(cs) + tail == ChunkBytes(cs[0]) + rest;
      ScanFirstChunk(cs[0], rest, st, st');
      ScanChunks(cs[1..], tail, st');
    }
  }

  /** The walk of a whole file: outer header, whole chunks, then anything. */
  lemma WalkOverChunks(riff: Riff, cs: seq<Chunk>, tail: seq<Byte>, st: ScanState)
    requires AllFit(cs)
    ensures Scan(RiffBytes(riff) + ChunksBytes(cs) + tail, RIFF_HEADER_SIZE, st) == Scan(tail, 0, Feed(st, cs))
  {
    Associate(RiffBytes(riff), ChunksBytes(cs), tail);
    ScanShift(RiffBytes(riff) + (ChunksBytes(cs) + tail), RiffBytes(riff), ChunksBytes(cs) + tail, st);
    ScanChunks(cs, tail, st);
  }

  /** Regrouping a three-part concatenation. */
  lemma Associate(a: seq<Byte>, b: seq<Byte>, c: seq<Byte>)
    ensures a + b + c == a + (b + c)
  {
  }

  lemma AllFitConcat(a: seq<Chunk>, b: seq<Chunk>)
    requires AllFit(a) && AllFit(b)
    ensures AllFit(a + b)
  {
  }

  /** Feeding two runs of chunks is feeding the first, then the second. */
  lemma {:induction false} FeedConcat(st: ScanState, a: seq<Chunk>, b: seq<Chunk>)
    requires AllFit(a) && AllFit(b)
    ensures AllFit(a + b) && Feed(st, a + b) == Feed(Feed(st, a), b)
    decreases |a|
  {
    if a == [] {
      assert a + b == b;
    } else {
      assert (a + b)[1..] == a[1..] + b;
      FeedConcat(ApplyChunk(st, Header(a[0]), a[0].payload), a[1..], b);
    }
  }

  /** Whether a run of chunks holds one with the given tag. */
  predicate HasTag(cs: seq<Chunk>, tag: Tag) {
    exists i :: 0 <= i < |cs| && cs[i].id == tag
  }

  /** After a run of chunks, the `fmt ` flag is set iff it was set or the run has a `fmt ` chunk. */
  lemma {:induction false} FeedFmtSeen(st: ScanState, cs: seq<Chunk>)
    requires AllFit(cs)
    ensures Feed(st, cs).fmtRead <==> st.fmtRead || HasTag(cs, ID_FMT)
    ensures !HasTag(cs, ID_FMT) ==> Feed(st, cs).fmtInfo == st.fmtInfo && Feed(st, cs).fmtArea == st.fmtArea
    decreases |cs|
  {
    if cs != [] {
      var st' := ApplyChunk(st, Header(cs[0]), cs[0].payload);
      FeedFmtSeen(st', cs[1..]);
      if HasTag(cs[1..], ID_FMT) {
        var i :| 0 <= i < |cs[1..]| && cs[1..][i].id == ID_FMT;
        assert cs[i + 1].id == ID_FMT;
      }
    }
  }

  /** After a run of chunks, the `data` flag is set iff it was set or the run has a `data` chunk. */
  lemma {:induction false} FeedDataSeen(st: ScanState, cs: seq<Chunk>)
    requires AllFit(cs)
    ensures Feed(st, cs).dataRead <==> st.dataRead || HasTag(cs, ID_DATA)
    ensures !HasTag(cs, ID_DATA) ==> Feed(st, cs).data == st.data
    decreases |cs|
  {
    if cs != [] {
      var st' := ApplyChunk(st, Header(cs[0]), cs[0].payload);
      FeedDataSeen(st', cs[1..]);
      if HasTag(cs[1..], ID_DATA) {
        var i :| 0 <= i < |cs[1..]| && cs[1..][i].id == ID_DATA;
        assert cs[i + 1].id == ID_DATA;
      }
    }
  }

  /** A chunk that is neither `fmt ` nor `data` leaves the loader's state as it was. */
  lemma UnknownChunkNoEffect(st: ScanState, u: Chunk)
    requires Fits(u) && u.id != ID_FMT && u.id != ID_DATA
    ensures Feed(st, [u]) == st
  {
    assert [u][1..] == [];
  }

  /** Two files with the same outer header and the same walk result load alike. */
  lemma LoadBySameWalk(f: seq<Byte>, g: seq<Byte>, wav0: Wav)
    requires |f| >= RIFF_HEADER_SIZE && |g| >= RIFF_HEADER_SIZE && f[..RIFF_HEADER_SIZE] == g[..RIFF_HEADER_SIZE]
    requires Scan(f, RIFF_HEADER_SIZE, InitialState) == Scan(g, RIFF_HEADER_SIZE, InitialState)
    ensures Load(Some(f), wav0) == Load(Some(g), wav0)
  {
    RiffAtSlice(f);
    RiffAtSlice(g);
    assert f[0..4] == f[..RIFF_HEADER_SIZE][0..4];
    assert g[0..4] == g[..RIFF_HEADER_SIZE][0..4];
    assert f[8..12] == f[..RIFF_HEADER_SIZE][8..12];
    assert g[8..12] == g[..RIFF_HEADER_SIZE][8..12];
  }

  /** Files of the same outer header and chunk runs with the same effect load alike. */
  lemma LoadBySameFeed(riff: Riff, cs: seq<Chunk>, ds: seq<Chunk>, tail: seq<Byte>, wav0: Wav)
    requires AllFit(cs) && AllFit(ds)
    requires Feed(InitialState, cs) == Feed(InitialState, ds)
    ensures Load(Some(RiffBytes(riff) + ChunksBytes(cs) + tail), wav0) ==
            Load(Some(RiffBytes(riff) + ChunksBytes(ds) + tail), wav0)
  {
    WalkOverChunks(riff, cs, tail, InitialState);
    WalkOverChunks(riff, ds, tail, InitialState);
    var f := RiffBytes(riff) + ChunksBytes(cs) + tail;
    var g := RiffBytes(riff) + ChunksBytes(ds) + tail;
    Associate(RiffBytes(riff), ChunksBytes(cs), tail);
    Associate(RiffBytes(riff), ChunksBytes(ds), tail);
    assert f[..RIFF_HEADER_SIZE] == RiffBytes(riff);
    assert g[..RIFF_HEADER_SIZE] == RiffBytes(riff);
    LoadBySameWalk(f, g, wav0);
  }

  /** Inserting a chunk that is neither `fmt ` nor `data` into a run of chunks does not change its effect. */
  lemma FeedIgnoresUnknown(st: ScanState, a: seq<Chunk>, u: Chunk, b: seq<Chunk>)
    requires AllFit(a) && Fits(u) && AllFit(b)
    requires u.id != ID_FMT && u.id != ID_DATA
    ensures AllFit(a + [u] + b) && AllFit(a + b)
    ensures Feed(st, a + [u] + b) == Feed(st, a + b)
  {
    AllFitConcat(a, [u]);
    FeedConcat(st, a + [u], b);
    FeedConcat(st, a, [u]);
    FeedConcat(st, a, b);
    UnknownChunkNoEffect(Feed(st, a), u);
  }

  /**
   * Inserting a chunk that is neither `fmt ` nor `data` anywhere between the
   * chunks of a file does not change what the loader returns.
   */
  lemma UnknownChunkIgnored(riff: Riff, a: seq<Chunk>, u: Chunk, b: seq<Chunk>, tail: seq<Byte>, wav0: Wav)
    requires AllFit(a) && Fits(u) && AllFit(b)
    requires u.id != ID_FMT && u.id != ID_DATA
    ensures AllFit(a + [u] + b) && AllFit(a + b)
    ensures Load(Some(RiffBytes(riff) + ChunksBytes(a + [u] + b) + tail), wav0) ==
            Load(Some(RiffBytes(riff) + ChunksBytes(a + b) + tail), wav0)
  {
    FeedIgnoresUnknown(InitialState, a, u, b);
    LoadBySameFeed(riff, a + [u] + b, a + b, tail, wav0);
  }

  /** The outer header at the front of a file is read back as it was written. */
  lemma RiffInFront(riff: Riff, rest: seq<Byte>)
    ensures RiffAt(RiffBytes(riff) + rest) == riff
    ensures HeaderOk(RiffBytes(riff) + rest) <==> riff.info.chunkID == ID_RIFF && riff.format == FORMAT
  {
    var r := RiffBytes(riff);
    var f := r + rest;
    assert f[0..4] == r[0..4] && f[8..12] == r[8..12];
    assert f[4..8] == r[4..8];
    assert U32At(f, 4) == U32At(r, 4);
  }

  /**
   * The file made of an outer header with the right tags and whole chunks
   * loads successfully exactly when the chunks include a `fmt ` and a
   * `data` chunk, and otherwise reports ProblemReadingData.
   */
  lemma LoadChunksResult(riff: Riff, cs: seq<Chunk>, wav0: Wav)
    requires AllFit(cs)
    requires riff.info.chunkID == ID_RIFF && riff.format == FORMAT
    ensures var r := Load(Some(RiffBytes(riff) + ChunksBytes(cs)), wav0);
      && (r.0 == Success <==> HasTag(cs, ID_FMT) && HasTag(cs, ID_DATA))
      && (r.0 == ProblemReadingData <==> !HasTag(cs, ID_FMT) || !HasTag(cs, ID_DATA))
      && (r.0 == Success ==> r.1 == Wav(riff, Feed(InitialState, cs).Fmt(), Feed(InitialState, cs).data))
  {
    var f := RiffBytes(riff) + ChunksBytes(cs);
    RiffInFront(riff, ChunksBytes(cs));
    WalkOverChunks(riff, cs, [], InitialState);
    assert f == RiffBytes(riff) + ChunksBytes(cs) + [];
    var st := Feed(InitialState, cs);
    assert Scan(f, RIFF_HEADER_SIZE, InitialState) == st;
    FeedFmtSeen(InitialState, cs);
    FeedDataSeen(InitialState, cs);
  }

  /**
   * With a payload of at least 16 bytes, a `fmt ` chunk overwrites the whole
   * field area with the first 16 payload bytes, whatever it held before.
   */
  lemma FieldsAfterFull(area: FieldArea, payload: seq<Byte>)
    requires |payload| >= FORMAT_FIELDS_SIZE
    ensures FieldsAfter(area, payload) == payload[..FORMAT_FIELDS_SIZE]
  {
  }

  /**
   * Of several `fmt ` chunks the last one wins: the format record is the one
   * its payload gives, whatever came before it and whatever non-`fmt ` chunks
   * follow it.
   */
  lemma FormatLastWins(st: ScanState, a: seq<Chunk>, c: Chunk, b: seq<Chunk>)
    requires AllFit(a) && Fits(c) && AllFit(b)
    requires c.id == ID_FMT && |c.payload| >= FORMAT_FIELDS_SIZE
    requires !HasTag(b, ID_FMT)
    ensures AllFit(a + [c] + b)
    ensures Feed(st, a + [c] + b).fmtRead
    ensures Feed(st, a + [c] + b).Fmt() == FormatFrom(Header(c), c.payload[..FORMAT_FIELDS_SIZE])
  {
    AllFitConcat(a, [c]);
    FeedConcat(st, a + [c], b);
    FeedConcat(st, a, [c]);
    var mid := Feed(st, a + [c]);
    assert [c][1..] == [];
    assert mid == ApplyChunk(Feed(st, a), Header(c), c.payload);
    FieldsAfterFull(Feed(st, a).fmtArea, c.payload);
    FeedFmtSeen(mid, b);
  }

  /**
   * Of several `data` chunks the last one wins: the data block is that
   * chunk's header and payload, whatever came before it and whatever
   * non-`data` chunks follow it.
   */
  lemma DataLastWins(st: ScanState, a: seq<Chunk>, c: Chunk, b: seq<Chunk>)
    requires AllFit(a) && Fits(c) && AllFit(b)
    requires c.id == ID_DATA
    requires !HasTag(b, ID_DATA)
    ensures AllFit(a + [c] + b)
    ensures Feed(st, a + [c] + b).dataRead
    ensures Feed(st, a + [c] + b).data == Data(Header(c), c.payload)
  {
    AllFitConcat(a, [c]);
    FeedConcat(st, a + [c], b);
    FeedConcat(st, a, [c]);
    var mid := Feed(st, a + [c]);
    assert [c][1..] == [];
    assert mid == ApplyChunk(Feed(st, a), Header(c), c.payload);
    assert Overwrite(Zeros(|c.payload|), c.payload) == c.payload;
    FeedDataSeen(mid, b);
  }
}
