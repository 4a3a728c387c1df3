# DynamicAudio: WAVE loading and notes, modelled in Dafny

This project models two parts of the DynamicAudio library.

**The RIFF/WAVE loader and encoder of `AudioLoaderWav`.**
- `loadRawFile` reads the 12-byte outer header (tag `RIFF`, little-endian u32 size, form `WAVE`). It then walks 8-byte chunk headers:
  - a `fmt ` chunk fills the format record;
  - a `data` chunk fills a byte buffer of the declared length;
  - any other chunk is skipped by its declared size;
  - the walk ends when fewer than 8 bytes remain.
- `Wav::rawAll` lays the three headers out into a buffer of `riff.chunkSize + 8` bytes. Its copy of the payload after them is commented out in the source; the model restores that copy and records the code as written under "## Findings".
- `checkResultForErrors` classifies the `Result` codes.
- The wire layout is the RIFF chunk layout (chapter 2 of the Microsoft/IBM "Multimedia Programming Interface and Data Specifications 1.0"), with the WAVE form's `fmt ` and `data` chunks (chapter 3 of the same document).

**The musical values of `Note` and `Chord`.**
- Note values are `uint16_t` MIDI numbers, where 0 means "no note".
- Transposition adds with 16-bit wrap-around.
- A name-to-value lookup turns note names into values.
- A `Chord` is a vector of notes changed in place.

Modules:
- `LittleEndian`: bytes, u16 and u32, and their little-endian encoding.
- `WavFormat`:
  - the tags and tag predicates;
  - `ChunkInfo`, `Riff`, `Format`, `Data` and `Wav`;
  - the `Result` codes;
  - the wire layout of the headers.
- `WavDecoder`:
  - the loader as a specification (`Scan` walks the chunks; `Load` gives the result);
  - the loader as the source's imperative loop (`LoadRawFile`), proved equal to `Load`.
- `WavChunks`: the walk seen as a fold over a list of whole chunks. The ordering properties follow from it: alignment, unknown chunks being ignored, the last chunk winning, and the result codes.
- `WavEncoder`:
  - the encoder as a specification (`Encode`);
  - the encoder as the source's pointer-stepping method (`RawAll`) over an array.
- `WavRoundTrip`: encoding then decoding a well-formed Wav gives it back.
- `WavFindings`: two defects of the source, each modelled as written, with an input that shows it.
- `Notes`: `Note::Value` and `Note`. A note is a value struct, so it is a datatype here.
- `Chords`: the `Chord` class, with its `notes` field as a `seq<Note>`.

How the file and memory are modelled:
- The file the loader reads is `Option<seq<Byte>>`. `None` is a file that cannot be opened.
- The stream is a position in that sequence:
  - a read that finds fewer bytes than it asks for takes what is there, and the walk then ends;
  - a seek past the end makes the next header read fail.
- Memory the source leaves uninitialised is zero in the model. This covers a fresh `Format` and a buffer from `new uint8_t[n]`.
- During the walk the format record is kept as its chunk header and the raw 16 bytes of its field area, which is what the stream writes into. The six fields are read from those bytes when the walk ends.

## Model

| member | source | states |
|---|---|---|
| `WavFormat.TagSpelling` | AudioLoaderWav.h:20-28 | `isFORMAT`, `isRIFF`, `isFMT` and `isDATA` each hold exactly when the four bytes spell `WAVE`, `RIFF`, `fmt ` and `data`. The four are pairwise exclusive: no id satisfies two of them. |
| `WavFormat.CheckResultForErrors` | AudioLoaderWav.h:192-210 | The result is an error exactly when it is not `Success`. |
| `WavFormat.HeaderBytes` | AudioLoaderWav.h:32-35 | A chunk header is 8 bytes (the tag, then the little-endian size) and reads back as the same header. |
| `WavFormat.RiffBytes` | AudioLoaderWav.h:37-39 | The outer header is 12 bytes and reads back as the same header. |
| `WavFormat.Data.Size` | AudioLoaderWav.h:57-59 | `size()` counts one element per payload byte (`chunkSize / sizeof(uint8_t)` with a one-byte element), so it equals `chunkSize` and fits in 32 bits. |
| `WavFormat.RiffAtBytes` | AudioLoaderWav.h:136 | `RiffAt`, the packed 12-byte read of the outer header, loses nothing: writing the header it gives back reproduces the 12 bytes read. |
| `WavFormat.HeaderAtBytes` | AudioLoaderWav.h:148 | `HeaderAt`, the packed 8-byte read of a chunk header, loses nothing: writing the header it gives back reproduces the 8 bytes read. |
| `WavFormat.FormatFromFieldBytes` | AudioLoaderWav.h:42-49 | The six format fields (u16, u16, u32, u32, u16, u16) are written little-endian into 16 bytes and read back as the same fields. |
| `WavFormat.FieldBytesOfFormatFrom` | AudioLoaderWav.h:156 | `FormatFrom` reads the six fields from the 16 bytes that the stream read leaves in the record's field area. It loses nothing: writing the fields back gives the same 16 bytes, whatever they were. |
| `WavFormat.RiffAtSlice` | AudioLoaderWav.h:135-136 | The outer header depends only on the first 12 bytes of the file. |
| `WavDecoder.ApplyChunk` | AudioLoaderWav.h:151-177 | A `fmt ` chunk sets the `fmt` flag, takes the chunk header, and writes its first 16 payload bytes at most over the start of the record's field area. A `data` chunk sets the `data` flag, takes the chunk header and gets a buffer of exactly `chunkSize` bytes that starts with the payload. Each leaves the other record and flag as they were. Any other chunk changes nothing. |
| `WavDecoder.ScanStep` | AudioLoaderWav.h:148-178 | `Scan`, the chunk walk: while a whole 8-byte header fits, the chunk is applied and the walk goes on `8 + chunkSize` bytes further. |
| `WavDecoder.ScanEnd` | AudioLoaderWav.h:148 | `Scan` stops, with the state unchanged, once fewer than 8 bytes remain for a header. |
| `WavDecoder.HeaderOkTags` | AudioLoaderWav.h:136-140 | The outer header check passes exactly when 12 bytes are there, the header read from them has the tag `RIFF` and its form is `WAVE`. |
| `WavDecoder.ScanConsumed` | AudioLoaderWav.h:148-177 | Advancing past the payload bytes actually read continues the walk exactly as advancing by 8 + `chunkSize` does. So every chunk moves the walk to the next header. |
| `WavDecoder.ScanConsistent` | AudioLoaderWav.h:148-178 | During the walk a seen flag is never cleared. A seen `fmt ` record carries the `fmt ` tag. A seen data block carries the `data` tag and as many bytes as `size()`. |
| `WavDecoder.Load` | AudioLoaderWav.h:123-189 | The result codes and the Wav:<br>- `CannotOpenFile` exactly when the file cannot be opened.<br>- `BadFormatting` exactly when the file has fewer than 12 bytes, or does not start with `RIFF`, or has no `WAVE` at offset 8.<br>- `ProblemReadingData` exactly when the walk saw no `fmt ` or no `data` chunk.<br>- Otherwise `Success`, with the outer header, a `fmt `-tagged record and a `data`-tagged block whose buffer has `size()` bytes.<br>- The caller's Wav is unchanged on every error.<br>- `UnknownError` never occurs. |
| `WavDecoder.ReadInto` | AudioLoaderWav.h:156 | `ifs.read` consumes up to the requested count (fewer at the end of the file) and copies those bytes to the start of the destination, as far as the destination reaches. The rest of the destination is unchanged. |
| `WavDecoder.ReadFormat` | AudioLoaderWav.h:151-160 | The `fmt ` branch consumes the payload and overwrites the record's field area with its first 16 bytes at most. |
| `WavDecoder.ReadData` | AudioLoaderWav.h:163-174 | The `data` branch allocates `size()` bytes and reads the payload into them. |
| `WavDecoder.ReadChunk` | AudioLoaderWav.h:148-177 | One pass of the loop dispatches on the tag and leaves the stream at the end of the payload read, or at 8 + `chunkSize` past the header. |
| `WavDecoder.EmptyWav` | AudioLoaderWav.h:67-68 | `Wav()` value-initialises its members: every tag byte, size and format field is zero, and the data block owns no bytes. |
| `WavDecoder.LoadOrThrow` | AudioLoaderWav.h:214-220 | `load` gives a Wav exactly when the file opens, its outer header is valid and the walk saw both a `fmt ` and a `data` chunk. That Wav has the file's outer header and correctly tagged records. Otherwise it throws. |
| `WavDecoder.LoadRawFile` | AudioLoaderWav.h:123-189 | The loader's loop returns exactly the result and the Wav that `Load` specifies. |
| `WavChunks.ChunkBytes` | AudioLoaderWav.h:148-177 | A whole chunk occupies 8 + its payload's length bytes. |
| `WavChunks.SuffixChunk` | AudioLoaderWav.h:148-177 | A chunk header and its payload read the same in a file as in the file's suffix from some offset on, whatever the bytes before that offset are. |
| `WavChunks.ScanSuffix` | AudioLoaderWav.h:148-178 | The walk over a file from offset `d + i` is the walk over the file's suffix from `d`, started at `i`. |
| `WavChunks.ScanShift` | AudioLoaderWav.h:148-178 | The walk over `pre + s` that starts where `pre` ends is the walk over `s` alone. |
| `WavChunks.FirstChunk` | AudioLoaderWav.h:148-156 | A whole chunk at the head of the input reads back with its own tag, size and payload. |
| `WavChunks.ScanFirstChunk` | AudioLoaderWav.h:148-178 | After a whole chunk the walk is header-aligned at the next byte, with that chunk applied. |
| `WavChunks.ScanChunks` | AudioLoaderWav.h:148-178 | Walking a run of whole chunks applies them in order and leaves the walk aligned on what follows them. |
| `WavChunks.WalkOverChunks` | AudioLoaderWav.h:135-178 | A file made of the outer header, whole chunks and anything after them is walked as the fold of its chunks, then the rest. |
| `WavChunks.FeedConcat` | AudioLoaderWav.h:148-178 | Walking two runs of chunks is walking the first, then the second from where the first left off. |
| `WavChunks.FeedFmtSeen` | AudioLoaderWav.h:151-160 | After a run of chunks, the `fmt ` flag is set exactly when it was set before or the run has a `fmt ` chunk. Without one, the record's header and field area are untouched. |
| `WavChunks.FeedDataSeen` | AudioLoaderWav.h:163-174 | After a run of chunks, the `data` flag is set exactly when it was set before or the run has a `data` chunk. Without one, the block is untouched. |
| `WavChunks.UnknownChunkNoEffect` | AudioLoaderWav.h:176-177 | A chunk that is neither `fmt ` nor `data` leaves the loader's state as it was. |
| `WavChunks.LoadBySameWalk` | AudioLoaderWav.h:135-188 | Two files with the same outer header and the same walk result load to the same result and Wav. |
| `WavChunks.LoadBySameFeed` | AudioLoaderWav.h:135-188 | Two files with the same outer header and chunk runs of the same effect load alike. |
| `WavChunks.FeedIgnoresUnknown` | AudioLoaderWav.h:176-177 | Inserting an unknown chunk anywhere in a run of chunks leaves the state after the run unchanged. |
| `WavChunks.UnknownChunkIgnored` | AudioLoaderWav.h:176-177 | Inserting an unknown chunk anywhere between the chunks of a file leaves what the loader returns unchanged. |
| `WavChunks.RiffInFront` | AudioLoaderWav.h:135-140 | The outer header at the front of a file reads back as written. It passes the check exactly when its tags are `RIFF` and `WAVE`. |
| `WavChunks.LoadChunksResult` | AudioLoaderWav.h:182-188 | A file of a valid outer header and whole chunks loads with `Success` exactly when the chunks include a `fmt ` and a `data` chunk, and with `ProblemReadingData` exactly when one of them is missing. On success the Wav holds the outer header and the state the chunks leave. |
| `WavChunks.FieldsAfterFull` | AudioLoaderWav.h:151-156 | A `fmt ` chunk of at least 16 payload bytes fills the whole field area with its first 16 payload bytes, whatever the area held before. |
| `WavChunks.FormatLastWins` | AudioLoaderWav.h:151-160 | When the last `fmt ` chunk of a run has at least 16 payload bytes, it alone decides the record: its header, and the six fields read from its first 16 payload bytes. |
| `WavChunks.DataLastWins` | AudioLoaderWav.h:163-174 | Of several `data` chunks, the last one decides the block. |
| `WavEncoder.FormatBytes` | AudioLoaderWav.h:93-95 | The format record is stored as 24 bytes. |
| `WavEncoder.Layout` | AudioLoaderWav.h:89-107 | The headers and the payload together take 44 + payload length bytes. |
| `WavEncoder.BufferSize` | AudioLoaderWav.h:79 | The buffer length is `riff.chunkSize + 8`, reduced modulo 2^32 when that overflows the u32 `size`. In that case it is below 8. |
| `WavEncoder.Fit` | AudioLoaderWav.h:80 | A laid-out sequence is placed in a fresh buffer of `n` bytes: the part that fits is kept and the rest is zero. |
| `WavEncoder.Encode` | AudioLoaderWav.h:79-107 | The encoding has exactly the buffer's length. |
| `WavEncoder.Written` | AudioLoaderWav.h:89-98 | A store through the pointer changes exactly the bytes from the pointer on that the source covers, and keeps every other byte. |
| `WavEncoder.WrittenFit` | AudioLoaderWav.h:89-107 | Storing right after what is already laid out extends the layout. |
| `WavEncoder.Put` | AudioLoaderWav.h:89-98 | The byte-by-byte store leaves the buffer equal to `Written` of its old contents. |
| `WavEncoder.PutNext` | AudioLoaderWav.h:89-107 | A store at the pointer after the laid-out prefix leaves the buffer holding the longer prefix. |
| `WavEncoder.RawAll` | AudioLoaderWav.h:74-119 | Returns a fresh buffer whose length is the truncated `riff.chunkSize + 8` and whose contents are `Encode(w)`: the outer header at [0,12), the format record at [12,36), the data header at [36,44), then the payload, as far as the buffer reaches. |
| `WavEncoder.ExactFit` | AudioLoaderWav.h:101-109 | The write pointer ends exactly at the buffer's end iff `riff.chunkSize == 36 + data.chunkSize` and the sum plus 8 does not overflow. In that case the buffer is exactly the layout. |
| `WavEncoder.EncodedHeaders` | AudioLoaderWav.h:79-98 | Reading back the first 44 bytes with the loader's layout recovers the outer header, the `fmt ` header and fields, and the `data` header. |
| `WavEncoder.HeadersPrefix` | AudioLoaderWav.h:89-98 | The first 44 bytes of a buffer that holds them are the three headers. |
| `WavEncoder.HeaderSlices` | AudioLoaderWav.h:89-98 | The three headers sit at the offsets 0, 12, 20 (the fields) and 36. |
| `WavRoundTrip.ChunksBytesPair` | AudioLoaderWav.h:148-177 | Two whole chunks laid out one after the other. |
| `WavRoundTrip.ChunkBytesOfWav` | AudioLoaderWav.h:89-107 | The encoder's format record and its data header plus payload are exactly the `fmt ` and `data` chunks of the Wav. |
| `WavRoundTrip.LayoutAsChunks` | AudioLoaderWav.h:89-107 | The encoder's layout of a well-formed Wav is its outer header followed by two whole chunks. |
| `WavRoundTrip.FeedTwoChunks` | AudioLoaderWav.h:148-174 | Walking those two chunks yields the Wav's format record and data block, with both flags set. |
| `WavRoundTrip.LoadTwoChunks` | AudioLoaderWav.h:123-189 | A file of a well-formed Wav's outer header and two chunks loads to that Wav, with `Success`. |
| `WavRoundTrip.RoundTrip` | AudioLoaderWav.h:74-189 | Loading the encoding of a well-formed Wav returns `Success` and the same Wav. |
| `WavRoundTrip.ExampleRoundTrip` | AudioLoaderWav.h:74-189 | A 4-byte stereo PCM fragment encodes to 48 bytes and loads back unchanged. |
| `WavFindings.EncodeAsWritten` | AudioLoaderWav.h:101-107 | `rawAll` as written fills a buffer of the same length, without the payload copy. |
| `WavFindings.AsWrittenIsSilenced` | AudioLoaderWav.h:101-107 | The as-written buffer is the encoding of the same Wav with an all-zero payload. |
| `WavFindings.AsWrittenLosesPayload` | AudioLoaderWav.h:101-107 | In the model (addresses left out, unwritten memory zero), loading the as-written buffer of a well-formed Wav gives `Success` with an all-zero payload. So the round trip fails whenever the payload is not all zeros. |
| `WavFindings.SilencedWellFormed` | AudioLoaderWav.h:101-107 | Zeroing the payload keeps a Wav well-formed. It changes the Wav when the payload was not all zeros. |
| `WavFindings.ExampleAsWritten` | AudioLoaderWav.h:106 | In the model, the example payload 1, 2, 3, 4 loads back from the as-written buffer as 0, 0, 0, 0 (unwritten memory read as zero, addresses left out), and from the corrected buffer as 1, 2, 3, 4. |
| `WavFindings.DataAfterAsWritten` | AudioLoaderWav.h:168-170 | `data` as written has the declared header and length, with the payload stored from offset 8. |
| `WavFindings.DataAsWrittenKeepsOnlyZeros` | AudioLoaderWav.h:170 | A whole payload read as written comes out unchanged exactly when it is all zeros. |
| `WavFindings.ShiftedZero` | AudioLoaderWav.h:170 | A sequence equal to itself stored at offset 8 over zeros is all zeros. |
| `WavFindings.DataAfterKeepsPayload` | AudioLoaderWav.h:163-170 | The corrected read keeps a whole payload as it is. |
| `WavFindings.ExampleDataAsWritten` | AudioLoaderWav.h:170 | The payload 1, 2, 3, 4 read as written gives four zero bytes, and read correctly gives 1, 2, 3, 4. |
| `LittleEndian.U16Bytes` | AudioLoaderWav.h:42-49 | Two bytes, least significant first, that read back as the value. |
| `LittleEndian.U32Bytes` | AudioLoaderWav.h:32-35 | Four bytes, least significant first, that read back as the value. |
| `LittleEndian.U16BytesOfRead` | AudioLoaderWav.h:42-49 | Writing back a u16 read from two bytes reproduces them. |
| `LittleEndian.U32BytesOfRead` | AudioLoaderWav.h:32-35 | Writing back a u32 read from four bytes reproduces them. |
| `Notes.PitchConstants` | Note.h:14-36 | The enharmonic pairs are equal, `Middle_C == C == 60`, `MIDI_A440 == A == 69`, and the pitches ascend from `Cf` to `B`. |
| `Notes.NullOrValid` | Note.h:36-50 | `isNull` holds iff the value is 0, and `isValid` is its negation. |
| `Notes.TransposeValue` | Note.h:56-58 | `originalNote + semitones` in `uint16_t`: the plain sum below 65536, the sum minus 65536 otherwise. |
| `Notes.TransposeByZero` | Note.h:56-58 | Transposing by 0 changes nothing. |
| `Notes.TransposeTwice` | Note.h:56-58 | Two transpositions are one by the wrapped sum of their steps. |
| `Notes.Inverse` | Note.h:56-58 | Every step has an inverse step that wraps it to 0. |
| `Notes.TransposeBack` | Note.h:56-58 | Transposing by a step and then by its inverse restores the value. |
| `Notes.FromString` | Note.h:95-104 | A name in the table gives its value. Any other string gives the null value. |
| `Notes.FromStringNames` | Note.h:77-90 | "C", "Cs", "D", "Ds", "E", "F", "Fs", "G", "Gs", "A", "As" and "B" give 60 to 71 in order. |
| `Notes.FromStringValid` | Note.h:77-104 | A name gives a valid value exactly when it is in the table, and then a value between C and B. Flat names such as "Df", and the empty string, give null. |
| `Notes.Note.Transpose` | Note.h:152-154 | `transpose` moves only the value, with wrap-around. The duration stays. |
| `Notes.Note.Plus` | Note.h:164-168 | `note + s` is a copy with the value transposed and the same duration. |
| `Notes.FromValue` | Note.h:147 | `Note(v)` keeps v and is a whole note. |
| `Notes.DefaultNote` | Note.h:148 | `Note()` is a null whole note. |
| `Notes.Null` | Note.h:171-173 | `Note::null(d)` has value 0 and duration d. |
| `Notes.EqualsIsEquality` | Note.h:175-187 | `==` holds iff value and duration are both equal, and `!=` is its negation. |
| `Notes.PlusBack` | Note.h:164-168 | Adding a step and then its inverse gives the same note back. |
| `Notes.PlusZero` | Note.h:164-168 | Adding 0 gives the same note. |
| `Chords.Without` | Chord.h:40-45 | Removing by value never lengthens the notes. |
| `Chords.WithoutMultiset` | Chord.h:40-45 | Removing by value deletes exactly the notes equal to the given one. Every other note keeps its number of occurrences. |
| `Chords.WithoutRemovesAll` | Chord.h:40-45 | No note equal to the removed one is left. |
| `Chords.WithoutAbsent` | Chord.h:40-45 | Removing a note that is not there changes nothing. |
| `Chords.WithoutConcat` | Chord.h:40-45 | Removal keeps the relative order of the survivors. It works piecewise over a concatenation. |
| `Chords.TransposedAll` | Chord.h:62-66 | Transposing all notes keeps the count, the order and the durations, and moves each value with wrap-around. |
| `Chords.TransposedAllBack` | Chord.h:62-66 | Transposing a chord by a step and then by its inverse restores it. |
| `Chords.BuiltFromRoot` | Chord.h:112-145 | Every note of a scale or arpeggio lasts as long as the root. Its value is the root's plus its step, modulo 65536. |
| `Chords.Chord.constructor` | Chord.h:14 | `Chord()` has no notes. |
| `Chords.Chord.FromNotes` | Chord.h:17 | `Chord(notes)` holds exactly the given notes. |
| `Chords.Chord.AddNote` | Chord.h:21-23 | `addNote` appends the note at the end and leaves the earlier notes as they were. Afterwards the chord has the note. |
| `Chords.Chord.AddNull` | Chord.h:27-31 | `addNull(d)` appends a null note of duration d. |
| `Chords.Chord.HasNote` | Chord.h:56-58 | `hasNote(n)` holds iff some stored note is `==` to n. |
| `Chords.Chord.RemoveNote` | Chord.h:40-45 | `removeNote(note)` keeps, in order, exactly the notes that differ from `note`. Afterwards `hasNote(note)` is false, and every other note keeps its number of occurrences. |
| `Chords.Chord.RemoveNoteAt` | Chord.h:49-51 | `removeNote(index)`, for an index inside the chord, deletes exactly that position. Earlier notes stay and later ones move down by one. |
| `Chords.Chord.Transpose` | Chord.h:62-66 | `transpose(s)` leaves the notes equal to `TransposedAll` of the old notes. |
| `Chords.Chord.First` | Chord.h:70-72 | `first()` of a non-empty chord is its element 0, a note the chord has. |
| `Chords.Chord.MaxDuration` | Chord.h:89-94 | `maxDuration()` is at least 0 and at least every note's duration. It is 0 or the duration of some note. |
| `Chords.Chord.GetScale` | Chord.h:112-126 | `getScale(r)` is a new chord of 7 notes: `r + 0`, `r + 2`, `r + 4`, `r + 5`, `r + 7`, `r + 9`, `r + 11`. |
| `Chords.Chord.GetArpeggio` | Chord.h:134-145 | `getArpeggio(r)` is a new chord of 4 notes: `r + 0`, `r + 4`, `r + 7`, `r + 11`. |
| `Chords.Chord.NullChord` | Chord.h:153-159 | `null(len)` is a new chord holding exactly one null note of duration `len`. |
| `Chords.Chord.FromNote` | Chord.h:166-170 | `fromNote(n)` is a new chord holding exactly `[n]`. |
| `Chords.Chord.Empty` | Chord.h:176-178 | `empty()` is a new chord with no notes. |

## Left out

- Opening, reading and closing the file stream, and `seekg`, are not modelled. The file is an in-memory byte sequence read through a position, and a file that cannot be opened is `None`.
- All console output is left out: `std::cout` and `std::cerr` in `rawAll`, in `loadRawFile`'s duplicate-chunk warnings, in `checkResultForErrors`, and in `debug_printInfo`. Only the returned values and the state are modelled.
- `debug_play` and the Win32 `PlaySound` call are left out. They are a foreign operating-system API.
- `load` throws a string literal on an error. `LoadOrThrow` models the throw as `None`.
- `Wav(riff, fmt, data)` is the datatype constructor. The default `Wav()` is `EmptyWav`.
- Memory the source leaves uninitialised reads as zero in the model. This covers the `Format fmt` local before the first `fmt ` chunk and the bytes of `new uint8_t[n]` that nothing writes.
- Manual `new[]` ownership is not modelled, and the buffers `loadRawFile` and `rawAll` leak are not tracked. Buffers are sequences. `RawAll` returns a fresh array.
- The host-dependent `sizeof(Data)` is not modelled. `rawAll` stores the whole `Data` struct, including its pointer, and then moves back over the pointer, so the pointer's bytes after the data header are overwritten by the payload, stay in the buffer, or land past its end. The model uses the explicit 12/24/8-byte wire layout.
- `WavDecoder.ReadFormat`: line 156 reads `chunkSize` bytes into the 16-byte field area, overrunning the `Format` struct when `chunkSize > 16`. The model stores at most 16 bytes and consumes the rest of the payload without storing it.
- `WavDecoder.ReadData`: a failing `new uint8_t[data.size()]` (AudioLoaderWav.h:168) is not modelled. The size comes straight from the file and is not checked against the bytes that remain, so a `data` header declaring up to 0xFFFFFFFF bytes can make the allocation throw `std::bad_alloc`, which escapes `loadRawFile` and `load` uncaught. The model always allocates, and on such a file (with a `fmt ` chunk) `Load` gives `Success` with a buffer of the declared length that is zero past the bytes the file holds.
- `WavEncoder.RawAll`: a failing `new uint8_t[size]` (AudioLoaderWav.h:80), which throws `std::bad_alloc`, is not modelled; the model always allocates a buffer of `size` bytes.
- `WavEncoder.RawAll`: when `riff.chunkSize + 8` is smaller than `36 + sizeof(Data)` (52 bytes on a 64-bit host, so any well-formed Wav with a payload under 8 bytes) or than the headers and the payload, the source stores past the end of its buffer. The model stores only the bytes inside the buffer.
- The RIFF pad byte after an odd-length chunk is not modelled, because the source does not implement it.
- A chunk cut short by the end of the file still sets its "seen" flag (lines 159 and 173), so a truncated last chunk can still give `Success`. The model follows the code here, not the RIFF standard's reading of a truncated chunk as an error.
- A second `fmt ` or `data` chunk overwrites the first (last wins), and the source only prints a warning. The model follows the code.
- The outer header's `chunkSize` is never checked against the file length. `rawAll` trusts it as the buffer size rather than recomputing it from the contents, and the model does the same.
- `Note::Value::calculateFrequency` and `Note::calculateFrequency` are left out because they use floating-point `pow`.
- The `Note::Duration` table is left out. Its integer divisions make most entries 0. Only `Semibreve == 1`, the default duration, is kept, as `SEMIBREVE`.
- Durations are `real`: a floating-point NaN duration, for which `==` is not reflexive and `std::max` is order-dependent, is not modelled.
- `Note` is a value struct, so it is a datatype. `Note::transpose` is the function giving the note after the in-place update, and `operator+` returns a transposed copy.
- `Chord::allNotes` is left out: it returns a reference to the `notes` field itself, which the model exposes directly. The aliasing such a reference allows is not modelled (see the next line).
- `Chords.Chord.RemoveNote`: the note is passed by value. In the source it is a `const Note&`, and a caller can pass a reference into the chord's own vector, such as `c.removeNote(c.allNotes()[0])`. `remove_if` then overwrites the referenced element while still comparing against it. For example, `[X, Y, X]` becomes `[Y, X]`, and `hasNote(X)` still holds. The contract (`Without(old(notes), note)`, `!HasNote(note)`) describes only a note that is not an element of the chord.
- `Chords.Chord.Transpose`: the shift is passed by value. In the source it is a `const NoteValueType&`, and a caller can pass a reference into the chord's own notes, such as `c.transpose(c.allNotes()[0].value)`. The loop then shifts the first note by x, and every later note by the new first value 2x, so `[x, y]` becomes `[2x, y + 2x]` (modulo 65536). The contract (`TransposedAll(old(notes), semitones)`) describes only a shift that is not read from the chord.
- `removeNote(index)` with an index outside the chord is undefined behaviour in the source. `RemoveNoteAt` requires a valid index.
- `first()` on an empty chord is undefined behaviour in the source. `First` requires a non-empty chord.
- The static builders of `Chord` return newly allocated chords (`fresh`) rather than values copied on return.
- `Tune.h` and `EffectBase.h` are not part of this model. The first is floating-point timeline queries and trivial appends. The second is random numbers, wall-clock time and virtual dispatch.

## Findings

| source | as written | input that shows it | evidently intended | confidence | as-written member | corrected member |
|---|---|---|---|---|---|---|
| AudioLoaderWav.h:106 | The payload copy `std::copy(firs, last, ptr)` in `rawAll` is commented out, and the pointer still advances over the payload, so no payload byte is written to the buffer. What the payload region holds instead is not the payload: line 97 stores the whole `Data` struct, so the `data.data` pointer's bytes follow the data header (on a 64-bit host, 8 bytes from offset 44), and the rest of the region is uninitialised memory. | The well-formed Wav `Example` (riff size 40, 16-bit stereo PCM `fmt `, payload 1, 2, 3, 4), whose buffer is 48 bytes. In the source, its payload reads back as the low 4 bytes of the `data.data` pointer (the address of the Wav's sample buffer), and the pointer's other 4 bytes are stored past the end of the 48-byte output buffer. In the model, which leaves addresses out and reads unwritten memory as zero, it reads back as 0, 0, 0, 0. Either way it is not 1, 2, 3, 4. | The payload is copied after the data header, so that loading the buffer gives the Wav back. | not executed | `WavFindings.AsWrittenLosesPayload` | `WavRoundTrip.RoundTrip` |
| AudioLoaderWav.h:170 | The `data` payload is read to `data.data + sizeof(ChunkInfo)`, 8 bytes into a buffer of `chunkSize` bytes. The first 8 bytes stay unwritten, and the last 8 payload bytes land past the buffer's end. | A `data` chunk of size 4 with payload 1, 2, 3, 4 gives a buffer of four unwritten (zero) bytes. Every payload that is not all zeros is corrupted. | The payload is read to offset 0 of the buffer. | not executed | `WavFindings.DataAsWrittenKeepsOnlyZeros` | `WavFindings.DataAfterKeepsPayload` |
