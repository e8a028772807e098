/**
 * The instrument table (js/constants.js:1-26) and the tuning snapshot taken
 * when the table is loaded (js/constants.js:28).
 */
module Instruments {
  import opened Pitch

  /** The four keys of INSTRUMENTS. */
  datatype Instrument = Guitar | Charango | Ronroco | Ukulele

  /** The key under which the table, and the fingering cache, name an instrument. */
  function Key(i: Instrument): string
  {
    match i
    case Guitar => "guitar"
    case Charango => "charango"
    case Ronroco => "ronroco"
    case Ukulele => "ukulele"
  }

  function DisplayName(i: Instrument): string
  {
    match i
    case Guitar => "Guitarra"
    case Charango => "Charango"
    case Ronroco => "Ronroco/Maulincho"
    case Ukulele => "Ukelele"
  }

  /** The emoji shown beside each instrument's name. */
  function Icon(i: Instrument): string
  {
    match i
    case Guitar => "\U{1F3B8}"
    case Charango => "\U{1FA95}"
    case Ronroco => "\U{1F3BB}"
    case Ukulele => "\U{1F3A4}"
  }

  /** Open-string note names, from the lowest-numbered position of the diagram on. */
  function Strings(i: Instrument): seq<string>
  {
    match i
    case Guitar => ["E", "A", "D", "G", "B", "E"]
    case Charango => ["G", "C", "E", "A", "E"]
    case Ronroco => ["D", "G", "B", "E", "B"]
    case Ukulele => ["G", "C", "E", "A"]
  }

  /** The label of each string. */
  function StringNames(i: Instrument): seq<string>
  {
    match i
    case Guitar => ["6ta", "5ta", "4ta", "3ra", "2da", "1ra"]
    case Charango => ["5ta", "4ta", "3ra", "2da", "1ra"]
    case Ronroco => ["5ta", "4ta", "3ra", "2da", "1ra"]
    case Ukulele => ["4ta", "3ra", "2da", "1ra"]
  }

  /** Every string has a label, and every instrument has four to six strings. */
  lemma StringsLabelled(i: Instrument)
    ensures |Strings(i)| == |StringNames(i)|
    ensures 4 <= |Strings(i)| <= 6
  {
  }

  /** Every open-string name is a name of the chromatic table. */
  lemma OpenStringsInTable(i: Instrument, k: int)
    requires 0 <= k < |Strings(i)|
    ensures Strings(i)[k] in NOTES
    ensures 0 <= NoteIndex(Strings(i)[k])
  {
    var name := Strings(i)[k];
    assert name in {"E", "A", "D", "G", "B", "C"};
    assert NOTES[0] == "C" && NOTES[2] == "D" && NOTES[4] == "E" && NOTES[7] == "G" && NOTES[9] == "A" && NOTES[11] == "B";
    NoteIndexSpec(name);
  }

  /** No instrument key contains the separator of the cache's string keys, and keys tell instruments apart. */
  lemma KeysSeparable(i: Instrument, j: Instrument)
    ensures '|' !in Key(i)
    ensures i != j ==> Key(i) != Key(j)
  {
    assert Key(i)[0] != Key(j)[0] || |Key(i)| != |Key(j)| || i == j;
  }

  /**
   * The live tunings, which the page edits string by string, beside the
   * snapshot taken at load.
   */
  class TuningTable {
    var strings: map<Instrument, seq<string>>
    const original: map<Instrument, seq<string>>

    /** Every instrument has a tuning. */
    ghost predicate Valid()
      reads this
    {
      forall i: Instrument :: i in strings && i in original && |strings[i]| == |original[i]|
    }

    /** Loading the table: the live tunings and the snapshot both hold the table's strings. */
    constructor()
      ensures Valid()
      ensures forall i: Instrument :: strings[i] == Strings(i) && original[i] == Strings(i)
    {
      var table := map[Guitar := Strings(Guitar), Charango := Strings(Charango),
                       Ronroco := Strings(Ronroco), Ukulele := Strings(Ukulele)];
      strings := table;
      original := table;
      forall i: Instrument
        ensures i in table && table[i] == Strings(i)
      {
        match i
        case Guitar =>
        case Charango =>
        case Ronroco =>
        case Ukulele =>
      }
    }

    /** Retuning one string changes that string only; the snapshot keeps the loaded tuning. */
    method Retune(i: Instrument, k: int, note: string)
      requires Valid() && 0 <= k < |strings[i]|
      modifies this
      ensures Valid()
      ensures strings == old(strings)[i := old(strings)[i][k := note]]
    {
      strings := strings[i := strings[i][k := note]];
      assert |strings[i]| == |original[i]|;
    }

    /** Resetting an instrument restores the snapshot's tuning for it and leaves the others alone. */
    method Reset(i: Instrument)
      requires Valid()
      modifies this
      ensures Valid()
      ensures strings == old(strings)[i := original[i]]
    {
      strings := strings[i := original[i]];
    }
  }
}
