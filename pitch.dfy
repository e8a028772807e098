/**
 * Pitch arithmetic over the twelve sharp-spelled note names
 * (js/constants.js:30, js/chord-logic.js:7-14).
 */
module Pitch {

  /** The chromatic scale from C, sharp spelling only. */
  const NOTES: seq<string> := ["C", "C#", "D", "D#", "E", "F", "F#", "G", "G#", "A", "A#", "B"]

  /** Position of the first `x` in `s`, or -1 when absent (Array.prototype.indexOf). */
  function IndexOf(s: seq<string>, x: string): (r: int)
    ensures -1 <= r < |s|
  {
    if s == [] then -1
    else if s[0] == x then 0
    else
      var k := IndexOf(s[1..], x);
      if k == -1 then -1 else k + 1
  }

  /** indexOf finds the first occurrence, and -1 means there is none. */
  lemma {:induction false} IndexOfSpec(s: seq<string>, x: string)
    ensures IndexOf(s, x) == -1 <==> x !in s
    ensures 0 <= IndexOf(s, x) ==> s[IndexOf(s, x)] == x && x !in s[..IndexOf(s, x)]
  {
    if s != [] && s[0] != x {
      IndexOfSpec(s[1..], x);
      var k := IndexOf(s[1..], x);
      assert s == [s[0]] + s[1..];
      if k != -1 {
        assert s[..k + 1] == [s[0]] + s[1..][..k];
      }
    }
  }

  /** getNoteIndex: index of a name in NOTES, -1 for any other string. */
  function NoteIndex(name: string): (r: int)
    ensures -1 <= r < 12
  {
    IndexOf(NOTES, name)
  }

  /** -1 exactly for the strings outside NOTES; otherwise the position of the name. */
  lemma NoteIndexSpec(name: string)
    ensures NoteIndex(name) == -1 <==> name !in NOTES
    ensures 0 <= NoteIndex(name) ==> NOTES[NoteIndex(name)] == name
  {
    IndexOfSpec(NOTES, name);
  }

  /** JavaScript's `x % 12`: the remainder of division by 12 truncated toward zero. */
  function JsRem12(a: int): (r: int)
    ensures -12 < r < 12
    ensures (a - r) % 12 == 0
    ensures a >= 0 ==> r >= 0
    ensures a <= 0 ==> r <= 0
  {
    if a >= 0 then a % 12 else -((-a) % 12)
  }

  /**
   * getNoteByIndex: NOTES[((index % 12) + 12) % 12] with JavaScript's `%`.
   * The double remainder is the floor modulus, so every integer, negative
   * ones included, names a note, with period 12.
   */
  function NoteByIndex(index: int): (r: string)
    ensures r == NOTES[index % 12]
  {
    var k := JsRem12(JsRem12(index) + 12);
    assert k == index % 12 by { FloorModOfTruncated(index); }
    NOTES[k]
  }

  /** The source's double truncated remainder is Dafny's Euclidean `%`. */
  lemma FloorModOfTruncated(a: int)
    ensures JsRem12(JsRem12(a) + 12) == a % 12
  {
    var r := JsRem12(a);
    assert 0 < r + 12 < 24;
    var q := (a - r) / 12;
    assert a - r == 12 * q;
    assert a == 12 * q + (r + 12) - 12;
  }

  /** The twelve names are pairwise distinct. */
  lemma NotesDistinct()
    ensures |NOTES| == 12
    ensures forall i, j :: 0 <= i < j < 12 ==> NOTES[i] != NOTES[j]
  {
  }

  /** Looking up the name of any index gives back the index modulo 12. */
  lemma NoteIndexOfNoteByIndex(index: int)
    ensures NoteIndex(NoteByIndex(index)) == index % 12
  {
    NotesDistinct();
    var k := index % 12;
    var name := NoteByIndex(index);
    NoteIndexSpec(name);
    assert name in NOTES by { assert NOTES[k] == name; }
    var r := NoteIndex(name);
    assert NOTES[r] == NOTES[k];
  }

  /** Indices 0..11 name NOTES directly. */
  lemma NoteByIndexInRange(k: int)
    requires 0 <= k < 12
    ensures NoteByIndex(k) == NOTES[k]
  {
  }

  /** A known name survives the index round trip. */
  lemma NoteByIndexOfNoteIndex(name: string)
    requires name in NOTES
    ensures NoteByIndex(NoteIndex(name)) == name
  {
    NoteIndexSpec(name);
    var k := NoteIndex(name);
    NoteByIndexInRange(k);
  }

  /** Shifting an index by a whole octave names the same note. */
  lemma NoteByIndexPeriodic(index: int, octaves: int)
    ensures NoteByIndex(index + 12 * octaves) == NoteByIndex(index)
  {
    assert (index + 12 * octaves) % 12 == index % 12;
  }

  /** Each name is found at its own position. */
  lemma NoteIndexAt(k: int)
    requires 0 <= k < 12
    ensures NoteIndex(NOTES[k]) == k
  {
    NotesDistinct();
    NoteIndexSpec(NOTES[k]);
    var r := NoteIndex(NOTES[k]);
    assert NOTES[r] == NOTES[k];
  }

  /** getNoteIndex of each name: the pitch classes the fingering search compares. */
  function PitchClasses(names: seq<string>): (r: seq<int>)
    ensures |r| == |names|
    ensures forall k :: 0 <= k < |r| ==> r[k] == NoteIndex(names[k])
  {
    if names == [] then []
    else [NoteIndex(names[0])] + PitchClasses(names[1..])
  }

  /** For a name of the table, `getNoteByIndex(x) === name` is `x % 12` being its index. */
  lemma SameNoteIffSameClass(x: int, name: string)
    requires 0 <= NoteIndex(name)
    ensures NoteByIndex(x) == name <==> x % 12 == NoteIndex(name)
  {
    var k := NoteIndex(name);
    NotesDistinct();
    NoteIndexSpec(name);
    assert NOTES[k] == name;
    if x % 12 != k {
      assert NOTES[x % 12] != NOTES[k];
    }
  }

  /**
   * Over names of the table, `names.includes(getNoteByIndex(x))` is `x % 12`
   * being among their indices: the search may compare pitch classes instead
   * of names.
   */
  lemma {:induction false} IncludesIffClassIn(names: seq<string>, x: int)
    requires forall k :: 0 <= k < |names| ==> 0 <= NoteIndex(names[k])
    ensures NoteByIndex(x) in names <==> x % 12 in PitchClasses(names)
  {
    if names != [] {
      IncludesIffClassIn(names[1..], x);
      SameNoteIffSameClass(x, names[0]);
      assert names == [names[0]] + names[1..];
    }
  }

  /** SameNoteIffSameClass for every index at once. */
  lemma NamesNoteIffClass(name: string)
    requires 0 <= NoteIndex(name)
    ensures forall x :: NoteByIndex(x) == name <==> x % 12 == NoteIndex(name)
  {
    forall x
      ensures NoteByIndex(x) == name <==> x % 12 == NoteIndex(name)
    {
      SameNoteIffSameClass(x, name);
    }
  }

  /** IncludesIffClassIn for every index at once. */
  lemma IncludesIffClassInAll(names: seq<string>)
    requires forall k :: 0 <= k < |names| ==> 0 <= NoteIndex(names[k])
    ensures forall x :: NoteByIndex(x) in names <==> x % 12 in PitchClasses(names)
  {
    forall x
      ensures NoteByIndex(x) in names <==> x % 12 in PitchClasses(names)
    {
      IncludesIffClassIn(names, x);
    }
  }
}
