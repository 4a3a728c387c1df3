/**
 * Two places where the loader and the encoder, as written, do not do what
 * the surrounding code evidently intends.  Each is modelled here as written,
 * with the input that shows the difference; the rest of the model uses the
 * corrected behaviour (`WavDecoder.DataAfter`, `WavEncoder.Encode`).
 *
 * 1. `rawAll` advances its write pointer past the payload but the copy of
 *    the payload is commented out, so no payload byte reaches the buffer.
 *    What is there instead is the `data.data` pointer, stored with the whole
 *    `Data` struct, and then uninitialised memory; the model leaves
 *    addresses out and reads unwritten memory as zero.
 * 2. `loadRawFile` reads a `data` payload to offset 8 of its fresh buffer
 *    instead of offset 0, so the first 8 bytes stay unwritten and the last
 *    8 payload bytes land past the buffer's end.
 */
module WavFindings {
  import opened LittleEndian
  import opened WavFormat
  import opened WavDecoder
  import opened WavEncoder
  import opened WavRoundTrip

  // ----- 1. rawAll without the payload copy -----

  /**
   * What `rawAll` as written leaves in its buffer: the three headers, then
   * nothing (zero in the model).  The store of the whole `Data` struct also
   * writes the `data.data` pointer (the address of the Wav's sample buffer)
   * after the data header; addresses are not modelled.
   */
  function EncodeAsWritten(w: Wav): (r: seq<Byte>)
    ensures |r| == BufferSize(w)
  {
    Fit(RiffBytes(w.riff) + FormatBytes(w.fmt) + HeaderBytes(w.data.info), BufferSize(w))
  }

  /** The Wav with its payload replaced by as many zero bytes. */
  function Silenced(w: Wav): Wav {
    w.(data := w.data.(bytes := Zeros(|w.data.bytes|)))
  }

  /** The as-written encoding is the encoding of the silenced Wav. */
  lemma AsWrittenIsSilenced(w: Wav)
    ensures EncodeAsWritten(w) == Encode(Silenced(w))
  {
    var h := RiffBytes(w.riff) + FormatBytes(w.fmt) + HeaderBytes(w.data.info);
    var l := Layout(Silenced(w));
    assert l == h + Zeros(|w.data.bytes|);
    var a, e := EncodeAsWritten(w), Encode(Silenced(w));
    forall k | 0 <= k < |a|
      ensures a[k] == e[k]
    {
      if k >= |h| && k < |l| {
        assert l[k] == Zeros(|w.data.bytes|)[k - |h|];
      }
    }
  }

  /**
   * Decoding what `rawAll` as written produces for a well-formed Wav gives
   * Success with every payload byte zero: the round trip fails for every
   * Wav whose payload is not all zeros.
   */
  lemma AsWrittenLosesPayload(w: Wav, wav0: Wav)
    requires WellFormed(w)
    ensures Load(Some(EncodeAsWritten(w)), wav0) == (Success, Silenced(w))
    ensures w.data.bytes != Zeros(|w.data.bytes|) ==> Load(Some(EncodeAsWritten(w)), wav0) != (Success, w)
  {
    AsWrittenIsSilenced(w);
    SilencedWellFormed(w);
    RoundTrip(Silenced(w), wav0);
  }

  lemma SilencedWellFormed(w: Wav)
    requires WellFormed(w)
    ensures WellFormed(Silenced(w))
    ensures w.data.bytes != Zeros(|w.data.bytes|) ==> Silenced(w) != w
  {
  }

  /** The 4-byte example comes back as four zero bytes instead of 1, 2, 3, 4. */
  lemma ExampleAsWritten(wav0: Wav)
    ensures Load(Some(EncodeAsWritten(Example)), wav0).1.data.bytes == [0, 0, 0, 0]
    ensures Load(Some(Encode(Example)), wav0).1.data.bytes == [1, 2, 3, 4]
  {
    assert WellFormed(Example);
    AsWrittenLosesPayload(Example, wav0);
    FourZeros();
    ExampleRoundTrip(wav0);
  }

  lemma FourZeros()
    ensures Zeros(4) == [0, 0, 0, 0]
  {
    var z := Zeros(4);
    assert z[0] == 0 && z[1] == 0 && z[2] == 0 && z[3] == 0;
  }

  // ----- 2. the data payload read to offset 8 -----

  /**
   * The data block after a `data` chunk as written: a buffer of the declared
   * size whose bytes from offset 8 on receive the payload, as far as the
   * buffer reaches (the part past its end is out of bounds and not
   * modelled), and whose first 8 bytes are not written (zero in the model).
   */
  function DataAfterAsWritten(info: ChunkInfo, payload: seq<Byte>): (d: Data)
    requires |payload| <= info.chunkSize
    ensures d.info == info && |d.bytes| == info.chunkSize
  {
    Data(info, Written(Zeros(info.chunkSize), CHUNK_HEADER_SIZE, payload))
  }

  /**
   * A whole payload read as written comes out unchanged exactly when it is
   * all zeros: every other payload is corrupted.
   */
  lemma DataAsWrittenKeepsOnlyZeros(info: ChunkInfo, payload: seq<Byte>)
    requires |payload| == info.chunkSize
    ensures DataAfterAsWritten(info, payload).bytes == payload <==> payload == Zeros(|payload|)
  {
    var b := DataAfterAsWritten(info, payload).bytes;
    if b == payload {
      forall k | 0 <= k < |payload|
        ensures payload[k] == 0
      {
        ShiftedZero(payload, k);
      }
    }
    if payload == Zeros(|payload|) {
      assert forall k :: 0 <= k < |b| ==> b[k] == payload[k];
    }
  }

  /** If a sequence equals itself written at offset 8 over zeros, each of its bytes is zero. */
  lemma {:induction false} ShiftedZero(payload: seq<Byte>, k: nat)
    requires k < |payload|
    requires Written(Zeros(|payload|), CHUNK_HEADER_SIZE, payload) == payload
    ensures payload[k] == 0
    decreases k
  {
    var b := Written(Zeros(|payload|), CHUNK_HEADER_SIZE, payload);
    if k >= CHUNK_HEADER_SIZE {
      ShiftedZero(payload, k - CHUNK_HEADER_SIZE);
      assert b[k] == payload[k - CHUNK_HEADER_SIZE];
    } else {
      assert b[k] == 0;
    }
  }

  /** The corrected read keeps a whole payload as it is. */
  lemma DataAfterKeepsPayload(info: ChunkInfo, payload: seq<Byte>)
    requires |payload| == info.chunkSize
    ensures DataAfter(info, payload) == Data(info, payload)
  {
    assert Overwrite(Zeros(info.chunkSize), payload) == payload;
  }

  /** A 4-byte `data` chunk holding 1, 2, 3, 4 is read as written into four zero bytes. */
  lemma ExampleDataAsWritten()
    ensures DataAfterAsWritten(ChunkInfo(ID_DATA, 4), [1, 2, 3, 4]).bytes == [0, 0, 0, 0]
    ensures DataAfter(ChunkInfo(ID_DATA, 4), [1, 2, 3, 4]).bytes == [1, 2, 3, 4]
  {
    var b := DataAfterAsWritten(ChunkInfo(ID_DATA, 4), [1, 2, 3, 4]).bytes;
    assert b[0] == 0 && b[1] == 0 && b[2] == 0 && b[3] == 0;
    DataAfterKeepsPayload(ChunkInfo(ID_DATA, 4), [1, 2, 3, 4]);
  }
}
