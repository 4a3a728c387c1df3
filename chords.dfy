/**
 * A chord: an ordered collection of notes, changed in place.  The vector of
 * notes is the `notes` field; `removeNote` by value is the remove-erase
 * idiom (keep the notes that differ from the given one, in order, then drop
 * the tail), `transpose` moves every note's value in a loop, and
 * `maxDuration` folds `std::max` over the durations starting from 0.
 */
module Chords {
  import opened Notes

  /** The notes of `s` that differ from `x`, in their order. */
  function Without(s: seq<Note>, x: Note): (r: seq<Note>)
    ensures |r| <= |s|
    decreases |s|
  {
    if s == [] then []
    else
      var rest := Without(s[..|s| - 1], x);
      if s[|s| - 1] == x then rest else rest + [s[|s| - 1]]
  }

  /** Exactly the notes equal to `x` go; every other note keeps its number of occurrences. */
  lemma {:induction false} WithoutMultiset(s: seq<Note>, x: Note)
    ensures multiset(Without(s, x)) == multiset(s)[x := 0]
    decreases |s|
  {
    if s != [] {
      var init, last := s[..|s| - 1], s[|s| - 1];
      WithoutMultiset(init, x);
      assert s == init + [last];
      assert multiset(s) == multiset(init) + multiset{last};
    }
  }

  /** No note equal to `x` is left. */
  lemma WithoutRemovesAll(s: seq<Note>, x: Note)
    ensures forall k :: 0 <= k < |Without(s, x)| ==> Without(s, x)[k] != x
  {
    var r := Without(s, x);
    WithoutMultiset(s, x);
    forall k | 0 <= k < |r|
      ensures r[k] != x
    {
      assert r[k] in multiset(r);
    }
  }

  /** Removing from a sequence that has no `x` leaves it as it is. */
  lemma {:induction false} WithoutAbsent(s: seq<Note>, x: Note)
    requires forall k :: 0 <= k < |s| ==> s[k] != x
    ensures Without(s, x) == s
    decreases |s|
  {
    if s != [] {
      WithoutAbsent(s[..|s| - 1], x);
      assert s == s[..|s| - 1] + [s[|s| - 1]];
    }
  }

  /** Removing from two runs one after the other keeps the survivors of the first before those of the second. */
  lemma {:induction false} WithoutConcat(a: seq<Note>, b: seq<Note>, x: Note)
    ensures Without(a + b, x) == Without(a, x) + Without(b, x)
    decreases |b|
  {
    if b == [] {
      assert a + b == a;
    } else {
      var b', last := b[..|b| - 1], b[|b| - 1];
      WithoutConcat(a, b', x);
      var ab := a + b;
      assert ab[..|ab| - 1] == a + b';
      assert ab[|ab| - 1] == last;
      assert Without(b, x) == Without(b', x) + (if last == x then [] else [last]);
      assert Without(ab, x) == Without(a + b', x) + (if last == x then [] else [last]);
    }
  }

  /** Every note moved by `semitones`; the order and the durations stay. */
  function TransposedAll(ns: seq<Note>, semitones: NoteValue): (r: seq<Note>)
    ensures |r| == |ns|
    ensures forall k :: 0 <= k < |ns| ==>
      r[k].value == TransposeValue(ns[k].value, semitones) && r[k].duration == ns[k].duration
  {
    seq(|ns|, k requires 0 <= k < |ns| => ns[k].Transpose(semitones))
  }

  /** Transposing a whole chord back by the inverse step restores it. */
  lemma TransposedAllBack(ns: seq<Note>, s: NoteValue)
    ensures TransposedAll(TransposedAll(ns, s), Inverse(s)) == ns
  {
    var r := TransposedAll(TransposedAll(ns, s), Inverse(s));
    forall k | 0 <= k < |ns|
      ensures r[k] == ns[k]
    {
      TransposeBack(ns[k].value, s);
    }
  }

  /** The steps above the root of the major scale and of the major seventh arpeggio. */
  const ScaleSteps: seq<NoteValue> := [0, 2, 4, 5, 7, 9, 11]
  const ArpeggioSteps: seq<NoteValue> := [0, 4, 7, 11]

  class Chord {
    var notes: seq<Note>

    /** `Chord()`: no notes. */
    constructor ()
      ensures notes == []
    {
      notes := [];
    }

    /** `Chord(notes)`: a copy of the given notes. */
    constructor FromNotes(ns: seq<Note>)
      ensures notes == ns
    {
      notes := ns;
    }

    /** `addNote`: append one note at the end. */
    method AddNote(note: Note)
      modifies this
      ensures notes == old(notes) + [note]
      ensures HasNote(note)
    {
      notes := notes + [note];
    }

    /** `addNull`: append a null note of the given duration. */
    method AddNull(duration: real)
      modifies this
      ensures notes == old(notes) + [Null(duration)]
      ensures IsNull(notes[|notes| - 1].value)
    {
      notes := notes + [Null(duration)];
    }

    /** `hasNote`: whether some note of the chord is `==` to the given one. */
    function HasNote(note: Note): (b: bool)
      reads this
      ensures b <==> exists k :: 0 <= k < |notes| && notes[k].Equals(note)
    {
      note in notes
    }

    /**
     * `removeNote(note)`: `remove_if` moves the notes that differ from `note`
     * to the front, in order, and `erase` drops the rest.
     */
    method RemoveNote(note: Note)
      modifies this
      ensures notes == Without(old(notes), note)
      ensures !HasNote(note)
      ensures multiset(notes) == multiset(old(notes))[note := 0]
    {
      var kept: seq<Note> := [];
      var i := 0;
      while i < |notes|
        invariant 0 <= i <= |notes|
        invariant kept == Without(notes[..i], note)
      {
        assert notes[..i + 1][..i] == notes[..i];
        if !notes[i].Equals(note) {
          kept := kept + [notes[i]];
        }
        i := i + 1;
      }
      assert notes[..i] == notes;
      notes := kept;
      WithoutRemovesAll(old(notes), note);
      WithoutMultiset(old(notes), note);
    }

    /** `removeNote(index)`: erase the note at `index`; the later ones move down by one. */
    method RemoveNoteAt(index: int)
      requires 0 <= index < |notes|
      modifies this
      ensures |notes| == |old(notes)| - 1
      ensures forall k :: 0 <= k < index ==> notes[k] == old(notes)[k]
      ensures forall k :: index <= k < |notes| ==> notes[k] == old(notes)[k + 1]
      ensures multiset(notes) == multiset(old(notes)) - multiset{old(notes)[index]}
    {
      assert notes == notes[..index] + [notes[index]] + notes[index + 1..];
      notes := notes[..index] + notes[index + 1..];
    }

    /** `transpose`: move every note's value by `semitones`, one note at a time. */
    method Transpose(semitones: NoteValue)
      modifies this
      ensures notes == TransposedAll(old(notes), semitones)
    {
      var i := 0;
      while i < |notes|
        invariant 0 <= i <= |notes| == |old(notes)|
        invariant forall k :: 0 <= k < i ==> notes[k] == old(notes)[k].Transpose(semitones)
        invariant forall k :: i <= k < |notes| ==> notes[k] == old(notes)[k]
      {
        notes := notes[i := notes[i].(value := TransposeValue(notes[i].value, semitones))];
        i := i + 1;
      }
    }

    /** `first`: the note at the front of a non-empty chord. */
    function First(): (n: Note)
      reads this
      requires |notes| > 0
      ensures n == notes[0] && HasNote(n)
    {
      notes[0]
    }

    /**
     * `maxDuration`: the longest duration, and never less than 0, the
     * running value the fold starts from.
     */
    method MaxDuration() returns (longestTime: real)
      ensures longestTime >= 0.0
      ensures forall k :: 0 <= k < |notes| ==> notes[k].duration <= longestTime
      ensures longestTime == 0.0 || exists k :: 0 <= k < |notes| && notes[k].duration == longestTime
    {
      longestTime := 0.0;
      for i := 0 to |notes|
        invariant longestTime >= 0.0
        invariant forall k :: 0 <= k < i ==> notes[k].duration <= longestTime
        invariant longestTime == 0.0 || exists k :: 0 <= k < i && notes[k].duration == longestTime
      {
        // std::max(a, b) is b when a < b, and a otherwise
        if longestTime < notes[i].duration {
          longestTime := notes[i].duration;
        }
      }
    }

    /** `getScale`: the root and the notes 2, 4, 5, 7, 9 and 11 semitones above it. */
    static method GetScale(root: Note) returns (c: Chord)
      ensures fresh(c)
      ensures |c.notes| == |ScaleSteps| == 7
      ensures forall k :: 0 <= k < 7 ==> c.notes[k] == root.Plus(ScaleSteps[k])
    {
      var scale: seq<Note> := [];
      scale := scale + [root];
      scale := scale + [root.Plus(2)];
      scale := scale + [root.Plus(4)];
      scale := scale + [root.Plus(5)];
      scale := scale + [root.Plus(7)];
      scale := scale + [root.Plus(9)];
      scale := scale + [root.Plus(11)];
      PlusZero(root);
      c := new Chord.FromNotes(scale);
    }

    /** `getArpeggio`: the root and the notes 4, 7 and 11 semitones above it. */
    static method GetArpeggio(root: Note) returns (c: Chord)
      ensures fresh(c)
      ensures |c.notes| == |ArpeggioSteps| == 4
      ensures forall k :: 0 <= k < 4 ==> c.notes[k] == root.Plus(ArpeggioSteps[k])
    {
      var arpeggio: seq<Note> := [];
      arpeggio := arpeggio + [root];
      arpeggio := arpeggio + [root.Plus(4)];
      arpeggio := arpeggio + [root.Plus(7)];
      arpeggio := arpeggio + [root.Plus(11)];
      PlusZero(root);
      c := new Chord.FromNotes(arpeggio);
    }

    /** `null`: a chord holding one null note of the given length. */
    static method NullChord(length: real) returns (c: Chord)
      ensures fresh(c)
      ensures c.notes == [Null(length)]
    {
      var empty: seq<Note> := [];
      empty := empty + [Null(length)];
      c := new Chord.FromNotes(empty);
    }

    /** `fromNote`: a chord holding just the given note. */
    static method FromNote(note: Note) returns (c: Chord)
      ensures fresh(c)
      ensures c.notes == [note]
    {
      c := new Chord();
      c.AddNote(note);
    }

    /** `empty`: a chord with no notes. */
    static method Empty() returns (c: Chord)
      ensures fresh(c)
      ensures c.notes == []
    {
      c := new Chord();
    }
  }

  /** Every note of a scale or arpeggio lasts as long as its root, and its value is the root's moved up by its step. */
  lemma BuiltFromRoot(root: Note, steps: seq<NoteValue>, ns: seq<Note>)
    requires |ns| == |steps|
    requires forall k :: 0 <= k < |ns| ==> ns[k] == root.Plus(steps[k])
    ensures forall k :: 0 <= k < |ns| ==>
      ns[k].duration == root.duration && ns[k].value == (root.value + steps[k]) % VALUE_RANGE
  {
  }
}
