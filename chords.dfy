/**
 * The chord-quality table (js/constants.js:32-42) and the note list of a
 * chord (js/chord-logic.js:17-22).
 */
module Chords {
  import opened Wrappers
  import opened Pitch

  /** The nine keys of CHORD_TYPES. */
  datatype ChordType = Major | Minor | Dom7 | Maj7 | Min7 | Sus2 | Sus4 | Dim | Aug

  /**
   * Semitone intervals above the root. Every list starts at the root, rises
   * strictly and stays inside one octave.
   */
  function Intervals(t: ChordType): (r: seq<int>)
    ensures 3 <= |r| <= 4 && r[0] == 0
    ensures forall i, j :: 0 <= i < j < |r| ==> r[i] < r[j]
    ensures forall i :: 0 <= i < |r| ==> 0 <= r[i] <= 11
  {
    match t
    case Major => [0, 4, 7]
    case Minor => [0, 3, 7]
    case Dom7 => [0, 4, 7, 10]
    case Maj7 => [0, 4, 7, 11]
    case Min7 => [0, 3, 7, 10]
    case Sus2 => [0, 2, 7]
    case Sus4 => [0, 5, 7]
    case Dim => [0, 3, 6]
    case Aug => [0, 4, 8]
  }

  /** The display suffix written after the root in a chord symbol. */
  function Suffix(t: ChordType): string
  {
    match t
    case Major => ""
    case Minor => "m"
    case Dom7 => "7"
    case Maj7 => "maj7"
    case Min7 => "m7"
    case Sus2 => "sus2"
    case Sus4 => "sus4"
    case Dim => "dim"
    case Aug => "aug"
  }

  /** The Spanish display name of each quality. */
  function DisplayName(t: ChordType): string
  {
    match t
    case Major => "Mayor"
    case Minor => "Menor"
    case Dom7 => "Séptima dominante"
    case Maj7 => "Séptima mayor"
    case Min7 => "Séptima menor"
    case Sus2 => "Suspendido 2"
    case Sus4 => "Suspendido 4"
    case Dim => "Disminuido"
    case Aug => "Aumentado"
  }

  /** The parser's `typeMap`: lower-case quality token to chord type (js/chord-logic.js:358-368). */
  function TypeMap(token: string): (r: Option<ChordType>)
  {
    if token == "" then Some(Major)
    else if token == "m" then Some(Minor)
    else if token == "7" then Some(Dom7)
    else if token == "maj7" then Some(Maj7)
    else if token == "m7" then Some(Min7)
    else if token == "sus2" then Some(Sus2)
    else if token == "sus4" then Some(Sus4)
    else if token == "dim" then Some(Dim)
    else if token == "aug" then Some(Aug)
    else None
  }

  /** Each suffix is exactly the token `typeMap` sends back to its own type. */
  lemma SuffixRoundTrip(t: ChordType)
    ensures TypeMap(Suffix(t)) == Some(t)
  {
  }

  /** `typeMap` knows no token other than the nine suffixes. */
  lemma TypeMapOnlySuffixes(token: string, t: ChordType)
    requires TypeMap(token) == Some(t)
    ensures token == Suffix(t)
  {
  }

  /** Hence the nine suffixes are pairwise distinct. */
  lemma SuffixesDistinct(t: ChordType, u: ChordType)
    requires t != u
    ensures Suffix(t) != Suffix(u)
  {
    SuffixRoundTrip(t);
    SuffixRoundTrip(u);
  }

  /** getChordNotes: the name of root + each interval, in table order. */
  function ChordNotes(root: string, t: ChordType): (r: seq<string>)
    ensures |r| == |Intervals(t)|
  {
    NamesAbove(NoteIndex(root), Intervals(t))
  }

  /** `intervals.map(i => getNoteByIndex(base + i))`. */
  function NamesAbove(base: int, intervals: seq<int>): (r: seq<string>)
    ensures |r| == |intervals|
  {
    if intervals == [] then []
    else [NoteByIndex(base + intervals[0])] + NamesAbove(base, intervals[1..])
  }

  /** The k-th name is the note `intervals[k]` semitones above `base`. */
  lemma {:induction false} NamesAboveAt(base: int, intervals: seq<int>, k: int)
    requires 0 <= k < |intervals|
    ensures NamesAbove(base, intervals)[k] == NoteByIndex(base + intervals[k])
  {
    assert NamesAbove(base, intervals) == [NoteByIndex(base + intervals[0])] + NamesAbove(base, intervals[1..]);
    if k > 0 {
      NamesAboveAt(base, intervals[1..], k - 1);
    }
  }

  /** The notes of a chord are pairwise distinct. */
  lemma ChordNotesDistinct(root: string, t: ChordType, i: int, j: int)
    requires 0 <= i < j < |ChordNotes(root, t)|
    ensures ChordNotes(root, t)[i] != ChordNotes(root, t)[j]
  {
    NamesAboveDistinct(NoteIndex(root), Intervals(t), i, j);
  }

  /** Offsets less than an octave apart name distinct notes. */
  lemma NamesAboveDistinct(base: int, intervals: seq<int>, i: int, j: int)
    requires 0 <= i < j < |intervals|
    requires 0 <= intervals[i] < intervals[j] <= 11
    ensures NamesAbove(base, intervals)[i] != NamesAbove(base, intervals)[j]
  {
    NamesAboveAt(base, intervals, i);
    NamesAboveAt(base, intervals, j);
    DistinctWithinOctave(base, intervals[i], intervals[j]);
  }

  /** A root spelled as in NOTES is the first note of its chord. */
  lemma ChordNotesRootFirst(root: string, t: ChordType)
    requires root in NOTES
    ensures ChordNotes(root, t)[0] == root
  {
    NamesAboveAt(NoteIndex(root), Intervals(t), 0);
    NoteByIndexOfNoteIndex(root);
  }

  /** Two offsets less than an octave apart name different notes. */
  lemma DistinctWithinOctave(base: int, a: int, b: int)
    requires 0 <= a < b <= 11
    ensures NoteByIndex(base + a) != NoteByIndex(base + b)
  {
    NotesDistinct();
    var q1, q2 := (base + a) / 12, (base + b) / 12;
    assert base + a == 12 * q1 + (base + a) % 12;
    assert base + b == 12 * q2 + (base + b) % 12;
    assert (base + a) % 12 != (base + b) % 12;
  }

  /**
   * Every chord note is a name of the table, and its index is the root's
   * index plus the interval, modulo 12.
   */
  lemma ChordNoteClass(root: string, t: ChordType, k: int)
    requires 0 <= k < |Intervals(t)|
    ensures NoteIndex(ChordNotes(root, t)[k]) == (NoteIndex(root) + Intervals(t)[k]) % 12
  {
    NamesAboveClass(NoteIndex(root), Intervals(t), k);
  }

  lemma NamesAboveClass(base: int, intervals: seq<int>, k: int)
    requires 0 <= k < |intervals|
    ensures NoteIndex(NamesAbove(base, intervals)[k]) == (base + intervals[k]) % 12
  {
    var y := base + intervals[k];
    NamesAboveAt(base, intervals, k);
    SameIndex(NamesAbove(base, intervals)[k], NoteByIndex(y));
    NoteIndexOfNoteByIndex(y);
  }

  lemma SameIndex(a: string, b: string)
    requires a == b
    ensures NoteIndex(a) == NoteIndex(b)
  {
  }
}
