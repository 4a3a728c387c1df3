/**
 * Musical notes: a MIDI note number (`uint16_t`, 0 meaning "no note") and a
 * duration in whole notes.  The note values, their predicates, wrapping
 * transposition and the name-to-value lookup are `Note::Value`; the note
 * itself is a value struct whose copies never share state, so it is a
 * datatype here, and its in-place `transpose` is the function giving the
 * note after the call.
 */
module Notes {

  /** `NoteValueType`: an unsigned 16-bit MIDI note number. */
  type NoteValue = x: int | 0 <= x < 0x1_0000

  /** The number of distinct note values; arithmetic on them wraps modulo this. */
  const VALUE_RANGE: nat := 0x1_0000

  // ----- pitch constants of the fourth octave -----

  const Cf: NoteValue := 59
  const C: NoteValue := 60
  const Cs: NoteValue := 61
  const Df: NoteValue := 61
  const D: NoteValue := 62
  const Ds: NoteValue := 63
  const Ef: NoteValue := 63
  const E: NoteValue := 64
  const F: NoteValue := 65
  const Fs: NoteValue := 66
  const Gf: NoteValue := 66
  const G: NoteValue := 67
  const Gs: NoteValue := 68
  const Af: NoteValue := 68
  const A: NoteValue := 69
  const As: NoteValue := 70
  const Bf: NoteValue := 70
  const B: NoteValue := 71

  const Middle_C: NoteValue := C
  const MIDI_A440: NoteValue := A

  /** The value of a note that sounds nothing. */
  const NULL: NoteValue := 0

  /** The flats and sharps name the same keys, and the two reference pitches are C and A. */
  lemma PitchConstants()
    ensures Cs == Df && Ds == Ef && Fs == Gf && Gs == Af && As == Bf
    ensures Middle_C == C == 60 && MIDI_A440 == A == 69
    ensures Cf < C < Cs < D < Ds < E < F < Fs < G < Gs < A < As < B
  {
  }

  predicate IsNull(value: NoteValue) {
    value == NULL
  }

  predicate IsValid(value: NoteValue) {
    !IsNull(value)
  }

  /** A value is valid exactly when it is not the null value 0, and null exactly when it is 0. */
  lemma NullOrValid(value: NoteValue)
    ensures IsNull(value) <==> value == 0
    ensures IsValid(value) <==> value != 0
    ensures IsValid(value) != IsNull(value)
  {
  }

  /** `originalNote + semitones` stored back into a `uint16_t`: the sum wraps past 65535. */
  function TransposeValue(originalNote: NoteValue, semitones: NoteValue): (r: NoteValue)
    ensures originalNote + semitones < VALUE_RANGE ==> r == originalNote + semitones
    ensures originalNote + semitones >= VALUE_RANGE ==> r == originalNote + semitones - VALUE_RANGE
  {
    (originalNote + semitones) % VALUE_RANGE
  }

  /** Transposing by 0 changes nothing. */
  lemma TransposeByZero(n: NoteValue)
    ensures TransposeValue(n, 0) == n
  {
  }

  /** Two transpositions are one by the (wrapped) sum of their steps. */
  lemma TransposeTwice(n: NoteValue, a: NoteValue, b: NoteValue)
    ensures TransposeValue(TransposeValue(n, a), b) == TransposeValue(n, TransposeValue(a, b))
  {
  }

  /** The step that undoes a transposition by `s`. */
  function Inverse(s: NoteValue): (t: NoteValue)
    ensures TransposeValue(s, t) == 0
  {
    (VALUE_RANGE - s) % VALUE_RANGE
  }

  /** Transposing by `s` and then by its inverse gives the original value back. */
  lemma TransposeBack(n: NoteValue, s: NoteValue)
    ensures TransposeValue(TransposeValue(n, s), Inverse(s)) == n
  {
    TransposeTwice(n, s, Inverse(s));
  }

  /** The note names the lookup knows: the twelve keys of the octave, sharps written with `s`. */
  const NoteNames: map<string, NoteValue> := map[
    "C" := C, "Cs" := Cs, "D" := D, "Ds" := Ds, "E" := E, "F" := F,
    "Fs" := Fs, "G" := G, "Gs" := Gs, "A" := A, "As" := As, "B" := B]

  /** The value a note name stands for, or the null value for a name the table does not hold. */
  function FromString(noteString: string): (v: NoteValue)
    ensures noteString in NoteNames ==> v == NoteNames[noteString]
    ensures noteString !in NoteNames ==> v == NULL
  {
    if noteString in NoteNames then NoteNames[noteString] else NULL
  }

  /** The twelve names give 60 to 71 in order. */
  lemma FromStringNames()
    ensures FromString("C") == 60 && FromString("Cs") == 61 && FromString("D") == 62
    ensures FromString("Ds") == 63 && FromString("E") == 64 && FromString("F") == 65
    ensures FromString("Fs") == 66 && FromString("G") == 67 && FromString("Gs") == 68
    ensures FromString("A") == 69 && FromString("As") == 70 && FromString("B") == 71
  {
  }

  /** A name gives a valid note exactly when it is one of the twelve; flat names are not among them. */
  lemma FromStringValid(noteString: string)
    ensures IsValid(FromString(noteString)) <==> noteString in NoteNames
    ensures noteString in NoteNames ==> C <= FromString(noteString) <= B
    ensures FromString("Df") == NULL && FromString("Cf") == NULL && FromString("") == NULL
  {
    assert "Df" !in NoteNames by {
      assert "Df" != "D" && "Df" != "Ds";
    }
    assert "Cf" !in NoteNames by {
      assert "Cf" != "C" && "Cf" != "Cs";
    }
  }

  /** `Duration::Semibreve`: a whole note, the default duration. */
  const SEMIBREVE: real := 1.0

  /** A note: its value and how long it lasts (durations are only compared). */
  datatype Note = Note(value: NoteValue, duration: real) {

    /** The note after `transpose(semitones)`: only the value moves. */
    function Transpose(semitones: NoteValue): (r: Note)
      ensures r.value == TransposeValue(value, semitones) && r.duration == duration
    {
      this.(value := TransposeValue(value, semitones))
    }

    /** `note + semitones`: a transposed copy; the note itself is a value and stays as it was. */
    function Plus(semitones: NoteValue): (r: Note)
      ensures r.value == TransposeValue(value, semitones) && r.duration == duration
    {
      var result := Note(value, duration);
      result.Transpose(semitones)
    }

    /** `operator==`: same value and same duration. */
    predicate Equals(other: Note) {
      value == other.value && duration == other.duration
    }

    /** `operator!=`. */
    predicate NotEquals(other: Note) {
      !Equals(other)
    }
  }

  /** `Note(value)`: the given value for a whole note. */
  function FromValue(value: NoteValue): (n: Note)
    ensures n.value == value && n.duration == SEMIBREVE
  {
    Note(value, SEMIBREVE)
  }

  /** `Note()`: a null whole note. */
  function DefaultNote(): (n: Note)
    ensures IsNull(n.value) && n.duration == SEMIBREVE
  {
    Note(NULL, SEMIBREVE)
  }

  /** `Note::null(duration)`: a note with no value, a whole note unless told otherwise. */
  function Null(duration: real := SEMIBREVE): (n: Note)
    ensures IsNull(n.value) && n.duration == duration
  {
    Note(NULL, duration)
  }

  /** The note's `==` is equality of notes and `!=` its negation. */
  lemma EqualsIsEquality(a: Note, b: Note)
    ensures a.Equals(b) <==> a == b
    ensures a.NotEquals(b) <==> a != b
  {
  }

  /** Adding semitones and then their inverse gives the same note back. */
  lemma PlusBack(n: Note, s: NoteValue)
    ensures n.Plus(s).Plus(Inverse(s)) == n
  {
    TransposeBack(n.value, s);
  }

  /** Adding 0 semitones gives the same note. */
  lemma PlusZero(n: Note)
    ensures n.Plus(0) == n
  {
  }
}
