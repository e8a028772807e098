/**
 * generateChordFingerrings as the page calls it, with the open-string names
 * of an instrument and the note names of a chord, and the bridge between
 * those names and the pitch classes the search compares.
 */
module Engine {
  import opened Pitch
  import opened Chords
  import opened Fingerings
  import opened Search
  import Instruments

  /** The default of the `maxFret` parameter. */
  const DefaultMaxFret := 5

  /** The search inputs for a tuning and a chord given by note names. */
  function SearchContext(tuningNames: seq<string>, chordNames: seq<string>, maxFret: int): (ctx: Context)
    ensures |ctx.tuning| == |tuningNames| && |ctx.chordNotes| == |chordNames| && ctx.maxFret == maxFret
  {
    Context(PitchClasses(tuningNames), PitchClasses(chordNames), maxFret)
  }

  /** `getNoteIndex(tuning[i]) + fret`; a string beyond the tuning reads as a name outside the table. */
  function Sounding(tuningNames: seq<string>, i: int, fret: int): int
  {
    (if 0 <= i < |tuningNames| then NoteIndex(tuningNames[i]) else -1) + fret
  }

  /** The note name the source computes for string `i` at `fret`. */
  function NameAt(tuningNames: seq<string>, i: int, fret: int): string
  {
    NoteByIndex(Sounding(tuningNames, i, fret))
  }

  /** Every name is one of the twelve names of the table. */
  predicate InTable(names: seq<string>)
  {
    forall k :: 0 <= k < |names| ==> 0 <= NoteIndex(names[k])
  }

  /** The notes of every chord, even one whose root is not spelled as in the table, are table names. */
  lemma ChordNamesInTable(root: string, t: ChordType)
    ensures InTable(ChordNotes(root, t))
  {
    forall k | 0 <= k < |ChordNotes(root, t)|
      ensures 0 <= NoteIndex(ChordNotes(root, t)[k])
    {
      ChordNoteClass(root, t, k);
    }
  }

  /** The index the source names is the one the search reduces to a pitch class. */
  lemma SoundingIsOpenIndex(tuningNames: seq<string>, i: int, fret: int)
    ensures Sounding(tuningNames, i, fret) == OpenIndex(PitchClasses(tuningNames), i) + fret
  {
  }

  /** Comparing the computed name with a chord note is comparing pitch classes. */
  lemma SameNoteByName(tuningNames: seq<string>, chordNames: seq<string>, maxFret: int, i: int, fret: int, k: int)
    requires InTable(chordNames) && 0 <= k < |chordNames|
    ensures var ctx := SearchContext(tuningNames, chordNames, maxFret);
      NoteAt(ctx, i, fret) == ctx.chordNotes[k] <==> NameAt(tuningNames, i, fret) == chordNames[k]
  {
    var ctx := SearchContext(tuningNames, chordNames, maxFret);
    SoundingIsOpenIndex(tuningNames, i, fret);
    assert NoteAt(ctx, i, fret) == Sounding(tuningNames, i, fret) % 12;
    NamesNoteIffClass(chordNames[k]);
  }

  /** `chordNotes.includes(note)` on names is membership of the pitch class. */
  lemma ChordToneByName(tuningNames: seq<string>, chordNames: seq<string>, maxFret: int, i: int, fret: int)
    requires InTable(chordNames)
    ensures ChordTone(SearchContext(tuningNames, chordNames, maxFret), i, fret) <==> NameAt(tuningNames, i, fret) in chordNames
  {
    var ctx := SearchContext(tuningNames, chordNames, maxFret);
    SoundingIsOpenIndex(tuningNames, i, fret);
    assert NoteAt(ctx, i, fret) == Sounding(tuningNames, i, fret) % 12;
    IncludesIffClassInAll(chordNames);
  }

  /** `foundNotes` of isValidFingering, as names. */
  function SoundedNames(tuningNames: seq<string>, frets: seq<Choice>): set<string>
  {
    set i | 0 <= i < |frets| && frets[i].Fret? :: NameAt(tuningNames, i, frets[i].n)
  }

  /** isValidFingering on names: every chord note sounds, on at least three strings. */
  lemma ValidByName(tuningNames: seq<string>, chordNames: seq<string>, maxFret: int, frets: seq<Choice>)
    requires InTable(chordNames)
    ensures Valid(SearchContext(tuningNames, chordNames, maxFret), frets) <==>
      (forall k :: 0 <= k < |chordNames| ==> chordNames[k] in SoundedNames(tuningNames, frets)) && UsedStrings(frets) >= 3
  {
    var ctx := SearchContext(tuningNames, chordNames, maxFret);
    forall k | 0 <= k < |chordNames|
      ensures chordNames[k] in SoundedNames(tuningNames, frets) <==> ctx.chordNotes[k] in SoundedNotes(ctx, frets)
    {
      if chordNames[k] in SoundedNames(tuningNames, frets) {
        var i :| 0 <= i < |frets| && frets[i].Fret? && NameAt(tuningNames, i, frets[i].n) == chordNames[k];
        SameNoteByName(tuningNames, chordNames, maxFret, i, frets[i].n, k);
      }
      if ctx.chordNotes[k] in SoundedNotes(ctx, frets) {
        var i :| 0 <= i < |frets| && frets[i].Fret? && NoteAt(ctx, i, frets[i].n) == ctx.chordNotes[k];
        SameNoteByName(tuningNames, chordNames, maxFret, i, frets[i].n, k);
      }
    }
  }

  /** A combination the search completes from the empty prefix, read on names: every string is muted or sounds a chord note within reach. */
  lemma CompletesByName(tuningNames: seq<string>, chordNames: seq<string>, maxFret: int, frets: seq<Choice>)
    requires InTable(chordNames)
    requires Completes(SearchContext(tuningNames, chordNames, maxFret), [], frets)
    ensures |frets| == |tuningNames|
    ensures forall i :: 0 <= i < |frets| ==> (frets[i].Muted? ||
      ((frets[i].n == 0 || frets[i].n <= maxFret) && NameAt(tuningNames, i, frets[i].n) in chordNames))
  {
    var ctx := SearchContext(tuningNames, chordNames, maxFret);
    forall i | 0 <= i < |frets| && frets[i].Fret?
      ensures NameAt(tuningNames, i, frets[i].n) in chordNames
    {
      assert Allowed(ctx, i, frets[i]);
      ChordToneByName(tuningNames, chordNames, maxFret, i, frets[i].n);
    }
  }

  /**
   * What the search returns for a tuning and a chord given by names: each
   * fingering has one choice per string, muted or a fret up to maxFret (or
   * open) that sounds a chord note; every chord note sounds, on at least
   * three strings; and it is the processed, playable form of those frets.
   */
  lemma ResultByName(tuningNames: seq<string>, chordNames: seq<string>, maxFret: int, f: Fingering)
    requires InTable(chordNames)
    requires f in Top(SearchContext(tuningNames, chordNames, maxFret))
    ensures |f.frets| == |tuningNames|
    ensures forall i :: 0 <= i < |f.frets| ==> (f.frets[i].Muted? ||
      ((f.frets[i].n == 0 || f.frets[i].n <= maxFret) && NameAt(tuningNames, i, f.frets[i].n) in chordNames))
    ensures forall k :: 0 <= k < |chordNames| ==> chordNames[k] in SoundedNames(tuningNames, f.frets)
    ensures UsedStrings(f.frets) >= 3
    ensures f == Process(f.frets) && Playable(f)
  {
    var ctx := SearchContext(tuningNames, chordNames, maxFret);
    TopSpec(ctx);
    var m :| 0 <= m < |Top(ctx)| && Top(ctx)[m] == f;
    SurvivorSound(ctx, f);
    ValidByName(tuningNames, chordNames, maxFret, f.frets);
    CompletesByName(tuningNames, chordNames, maxFret, f.frets);
  }

  /** generateChordFingerrings with a tuning and a chord given by note names. */
  method GenerateChordFingerrings(tuningNames: seq<string>, chordNames: seq<string>, maxFret: int) returns (r: seq<Fingering>)
    ensures r == Top(SearchContext(tuningNames, chordNames, maxFret))
  {
    r := GenerateChordFingerings(SearchContext(tuningNames, chordNames, maxFret));
  }

  /** generateChordFingerrings for an instrument, reading its current tuning from the table. */
  method GenerateForInstrument(table: Instruments.TuningTable, instrument: Instruments.Instrument, chordNames: seq<string>, maxFret: int)
    returns (r: seq<Fingering>)
    requires table.Valid()
    ensures r == Top(SearchContext(table.strings[instrument], chordNames, maxFret))
  {
    r := GenerateChordFingerrings(table.strings[instrument], chordNames, maxFret);
  }

  /** generateChordFingerrings called without its `maxFret` argument, as the diagrams call it: frets up to 5. */
  method GenerateForInstrumentDefault(table: Instruments.TuningTable, instrument: Instruments.Instrument, chordNames: seq<string>)
    returns (r: seq<Fingering>)
    requires table.Valid()
    ensures r == Top(SearchContext(table.strings[instrument], chordNames, 5))
  {
    r := GenerateForInstrument(table, instrument, chordNames, DefaultMaxFret);
  }
}
