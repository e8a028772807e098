# Chord fingerings for fretted instruments, in Dafny

This project models the chord-fingering engine of a small web page that
draws chord diagrams for guitar, charango, ronroco and ukulele
(`js/chord-logic.js`), together with the static tables it reads
(`js/constants.js`). The model covers the following parts:

- **Pitch arithmetic** (module `Pitch`). `getNoteIndex` and `getNoteByIndex`
  over the twelve sharp-spelled names. JavaScript's truncating `%` is written
  out, and the double remainder is proved to be the floor modulus.
- **Chord tables and chord notes** (module `Chords`). The nine chord
  qualities, their intervals and suffixes, and `getChordNotes`.
- **Chord-token parsing** (module `ChordParser`):
  - `parseChord`, with its regular expression written as a matcher over characters;
  - `parseChordSequence`, with `split(/\s+/)` written as a function on strings.
- **The fingering search** (module `Search`). It models
  `generateChordFingerrings`:
  - the depth-first `generateCombinations` over a `current` array;
  - the leaf filter `isValidFingering`;
  - the ranking by `calculateFingeringScore` with a stable sort, keeping six.

  The search compares pitch classes. The tuning and the chord are given as
  the `getNoteIndex` of each name. Module `Engine` takes the names the page
  passes and proves that comparing pitch classes is the same test as the
  source's comparison of names.
- **Barre detection, finger labels and the hand-shape rules** (modules
  `Fingerings` and `FingeringFacts`). These model
  `processFingeringWithBarre`, `assignFingers` and `isPlayableFingering`,
  including the rules that can never reject a processed fingering.
- **The fingering cache** (module `Cache`). `cacheFingerings`,
  `getCachedFingerings` and `clearInstrumentCache` on a class that holds a
  map.
- **The instrument table and its load-time snapshot** (module
  `Instruments`). The page retunes a string or resets an instrument
  (`js/main.js`) on this table.
- **Shared orderings** (module `Sorting`). JavaScript's stable
  `Array.prototype.sort` with a numeric comparator is one insertion sort,
  `SortBy`, by ascending key. `Math.min` and `Math.max` are modelled here too.

A string's choice is `Muted` (the source's `'x'`) or `Fret(n)`, where
`Fret(0)` is the open string. The imperative parts of the source are Dafny
methods proved equal to the specification functions about which the lemmas
are stated:

- `Search.GenerateCombinations` with its `for` loop `Search.TryFrets`;
- `Fingerings.AssignFingers` with its two loops;
- the `foundNonX` scans;
- the checks of `isPlayableFingering`;
- the delete loop of the cache.

On the parser, `parseChord` holds a table of flats (`noteMap`,
js/chord-logic.js:354) that maps "Db" to "C#", but line 350 upper-cases the
root before the lower-case `b` test at line 353, so the table is never
consulted: "Db" keeps the root "DB", whose index is -1, and its major chord
is built on B (B, D#, F#). The model follows the code
(`ChordParser.ParseDbKeepsUnknownRoot`).

## Model

| member | source | states |
|---|---|---|
| Pitch.IndexOfSpec | js/chord-logic.js:7-9 | `indexOf` gives -1 exactly when the name is absent; otherwise it gives the position of its first occurrence |
| Pitch.NoteIndexSpec | js/chord-logic.js:7-9 | getNoteIndex is -1 for every string outside NOTES and otherwise the position of the name in NOTES |
| Pitch.NoteByIndex | js/chord-logic.js:12-14 | getNoteByIndex, with JavaScript's truncating remainder written out, names NOTES at the floor modulus 12 of any integer, negatives included |
| Pitch.FloorModOfTruncated | js/chord-logic.js:13 | `((i % 12) + 12) % 12` with the truncating `%` equals the Euclidean remainder of i by 12 |
| Pitch.NoteByIndexPeriodic | js/chord-logic.js:12-14 | indices a whole number of octaves apart name the same note |
| Pitch.NoteIndexOfNoteByIndex | js/chord-logic.js:7-14 | the index of the name of any integer is that integer modulo 12 |
| Pitch.NoteByIndexOfNoteIndex | js/chord-logic.js:7-14 | every name of NOTES survives the index round trip |
| Pitch.NoteIndexAt | js/chord-logic.js:7-9 | each name of the table is found at its own position |
| Pitch.NotesDistinct | js/constants.js:30 | NOTES has twelve pairwise distinct names |
| Pitch.PitchClasses | js/chord-logic.js:49 | one getNoteIndex per name, position by position |
| Pitch.SameNoteIffSameClass | js/chord-logic.js:285 | for a name of the table, getNoteByIndex(x) is that name exactly when x modulo 12 is its index |
| Pitch.NamesNoteIffClass | js/chord-logic.js:317-318 | the same equivalence, for every index at once |
| Pitch.IncludesIffClassIn | js/chord-logic.js:53 | over table names, `includes(getNoteByIndex(x))` holds exactly when x modulo 12 is among the names' indices |
| Pitch.IncludesIffClassInAll | js/chord-logic.js:62-63 | the same equivalence, for every index at once |
| Chords.Intervals | js/constants.js:32-42 | every interval list has three or four entries, starts at 0, rises strictly and stays within 0..11 |
| Chords.SuffixRoundTrip | js/chord-logic.js:358-370 | `typeMap` sends each chord type's symbol suffix back to that type |
| Chords.TypeMapOnlySuffixes | js/chord-logic.js:358-370 | `typeMap` knows no token other than the nine suffixes |
| Chords.SuffixesDistinct | js/constants.js:32-42 | the nine suffixes are pairwise distinct |
| Chords.ChordNotes | js/chord-logic.js:17-22 | a chord has one note per interval |
| Chords.NamesAboveAt | js/chord-logic.js:21 | the k-th chord note is the name of the root index plus the k-th interval |
| Chords.ChordNotesDistinct | js/chord-logic.js:17-22 | the notes of every chord are pairwise distinct, whatever the root |
| Chords.ChordNotesRootFirst | js/chord-logic.js:17-22 | a root spelled as in NOTES is the first note of its chord |
| Chords.DistinctWithinOctave | js/chord-logic.js:21 | offsets less than an octave apart name different notes |
| Chords.ChordNoteClass | js/chord-logic.js:17-22 | every chord note is a table name whose index is the root's index plus the interval, modulo 12 |
| ChordParser.MatchTokenSpec | js/chord-logic.js:345-348 | the matcher succeeds exactly on tokens of the grammar root, optional accidental, optional quality (case-insensitive), and splits them as the regular expression's groups do |
| ChordParser.ParseChord | js/chord-logic.js:344-381 | parseChord gives a chord exactly when the token matches the grammar |
| ChordParser.UpperHasNoLowerB | js/chord-logic.js:350-353 | an upper-cased root never contains a lower-case `b` |
| ChordParser.ParseChordRoot | js/chord-logic.js:350-356 | the root of every parse is the upper-cased first group: the flat table is never consulted |
| ChordParser.SymbolRoundTrip | js/chord-logic.js:372-380 | parsing the symbol of a parsed chord gives the same root, type, notes and symbol |
| ChordParser.ParseAm7 | js/chord-logic.js:344-381 | "Am7" parses to root A, type min7, notes A, C, E, G and symbol "Am7" |
| ChordParser.ParseDbKeepsUnknownRoot | js/chord-logic.js:350-356 | "Db" parses to root "DB", type major, notes B, D#, F# and symbol "DB" |
| ChordParser.DBIsNoNote | js/chord-logic.js:7-9 | "DB" is not a note name: its index is -1 |
| ChordParser.ParseUpperMIsMinor | js/chord-logic.js:351 | an upper-case "M" quality is lower-cased to minor |
| ChordParser.ParseRejectsH | js/chord-logic.js:345-348 | a root letter outside A-G does not parse |
| ChordParser.ParseRejectsXb9 | js/chord-logic.js:345-348 | a token starting with a letter outside A-G does not parse |
| ChordParser.ParseRejectsCm9 | js/chord-logic.js:345-348 | a quality outside the list does not parse, instead of falling back to major |
| ChordParser.TokenLength | js/chord-logic.js:331 | the length of the leading run of non-space characters, which stops at a space or at the end |
| ChordParser.Split | js/chord-logic.js:331 | `split(/\s+/)` without empty strings yields non-empty words with no whitespace |
| ChordParser.SplitAtSpace | js/chord-logic.js:331 | a whitespace character splits the text into two independent halves |
| ChordParser.SplitJoin | js/chord-logic.js:331 | splitting non-empty words joined by spaces gives the words back |
| ChordParser.ParseChordSequence | js/chord-logic.js:330-342 | parseChordSequence yields at most one chord per whitespace-separated token |
| ChordParser.SymbolIsWord | js/chord-logic.js:373 | a parsed symbol is a non-empty word without whitespace |
| ChordParser.ParseAllSymbols | js/chord-logic.js:334-341 | re-parsing the symbols of the successful parses gives the same chords |
| ChordParser.SequenceRoundTrip | js/chord-logic.js:330-342 | writing a parsed sequence back as its symbols separated by spaces and parsing it again gives the same chords |
| Sorting.InsertBySorted | js/chord-logic.js:80 | inserting into a list sorted by key keeps it sorted |
| Sorting.SortBy | js/chord-logic.js:80 | the sort is a permutation of its input |
| Sorting.SortBySorted | js/chord-logic.js:80 | the sort's result is in ascending key order |
| Sorting.SortByStable | js/chord-logic.js:80 | stability: for every key value, the elements with that key keep their input order |
| Sorting.SortByDistinct | js/chord-logic.js:158 | sorting a list without repetitions gives a list without repetitions |
| Sorting.SortByMembers | js/chord-logic.js:229 | every element of the sorted list comes from the input |
| Sorting.SortByPrefix | js/chord-logic.js:80-81 | a prefix of the sorted list comes from the input and is in key order |
| Sorting.SortByPrefixLeast | js/chord-logic.js:80-81 | no input element outside a prefix of the sorted list has a smaller key than an element of the prefix |
| Sorting.MinOf | js/chord-logic.js:108 | `Math.min` of a non-empty list is a member of it and bounds it from below |
| Sorting.MaxOf | js/chord-logic.js:212 | `Math.max` of a non-empty list is a member of it and bounds it from above |
| Fingerings.CheckMutedOnlyLeading | js/chord-logic.js:95-102 | the `foundNonX` scan succeeds exactly when no muted string follows a sounded one |
| Fingerings.PressOrder | js/chord-logic.js:156-158 | the visit order of assignFingers lists distinct stopped strings with their frets |
| Fingerings.PlaceSpec | js/chord-logic.js:160-169 | the finger loop gives the k-th unfingered string the k-th finger of the pool, leaves the others alone, and fails exactly when those strings outnumber the pool |
| Fingerings.BarreBase | js/chord-logic.js:141-149 | the only finger the barre loop writes is finger 1 |
| Fingerings.Unused | js/chord-logic.js:152 | the filter keeps exactly the fingers not yet used, and never more fingers than it was given |
| Fingerings.PoolSpec | js/chord-logic.js:148-152 | the available fingers are 1, 2, 3, 4 in order, or 2, 3, 4 once the barre has used finger 1 |
| Fingerings.MarkBarre | js/chord-logic.js:138-149 | the first loop of assignFingers yields a fresh array with finger 1 on the barre's strings stopped at its fret and nothing elsewhere, and the used fingers are {1} with a barre and none without |
| Fingerings.PlaceFingers | js/chord-logic.js:152-171 | the second loop of assignFingers computes the finger loop's result, including `null` when the pool runs out |
| Fingerings.AssignFingers | js/chord-logic.js:137-172 | assignFingers computes finger 1 along the barre followed by the finger loop |
| Fingerings.StringsAtUpTo | js/chord-logic.js:111-114 | the strings stopped at the lowest fret are listed in ascending order, each exactly once |
| Fingerings.FindBarre | js/chord-logic.js:90-123 | steps 1 to 5 yield no barre after an open string, a muted string after a sounded one, fewer than two stopped strings or fewer than two strings at the lowest fret, and otherwise the lowest fret from its first to its last string |
| Fingerings.ProcessFingeringWithBarre | js/chord-logic.js:85-134 | processFingeringWithBarre computes the barre decision of the model |
| Fingerings.NoBarre | js/chord-logic.js:92 | each early return is the fingering without a barre, labelled by assignFingers |
| Fingerings.CheckNoOpenUnderBarre | js/chord-logic.js:191-197 | the check succeeds exactly when no open string lies at or after the barre's first string |
| Fingerings.CheckAllPressedFingered | js/chord-logic.js:200-206 | the check succeeds exactly when every stopped string has a finger |
| Fingerings.FingerPositionsUpTo | js/chord-logic.js:219-228 | every `fingerPos` entry is a fingered stopped string with its own fret and finger |
| Fingerings.CollectFingerPositions | js/chord-logic.js:219-228 | the loop builds `fingerPos`, leaving out the barre finger's strings at the barre fret |
| Fingerings.CheckConsecutive | js/chord-logic.js:231-241 | the check succeeds exactly when no two fingers with consecutive numbers differ in both string and fret by more than four in total |
| Fingerings.CheckPairs | js/chord-logic.js:244-252 | the check succeeds exactly when no two fingers are more than three strings and more than three frets apart |
| Fingerings.IsPlayableFingering | js/chord-logic.js:175-255 | isPlayableFingering accepts exactly the fingerings that have fingers and satisfy the six hand-shape rules in source order |
| FingeringFacts.PressOrderVisits | js/chord-logic.js:156-158 | stopped strings are visited by ascending fret, ties by ascending string |
| FingeringFacts.PressVisited | js/chord-logic.js:156-158 | every stopped string is visited by the finger loop |
| FingeringFacts.AssignFailsExactly | js/chord-logic.js:164-168 | assignFingers returns null exactly when the stopped strings outside the barre outnumber the free fingers |
| FingeringFacts.AssignUnbarred | js/chord-logic.js:151-169 | the strings outside the barre are visited by ascending fret, ties by string, and the k-th gets the k-th free finger, so their fingers are distinct and increase along the visit |
| FingeringFacts.AssignKeepsBarre | js/chord-logic.js:141-149 | the barre's strings keep finger 1 |
| FingeringFacts.PressedGetsFinger | js/chord-logic.js:160-169 | when assignFingers succeeds, every stopped string has a finger |
| FingeringFacts.MutedGetsNoFinger | js/chord-logic.js:156-157 | no muted string gets a finger |
| FingeringFacts.AssignCoversPresses | js/chord-logic.js:137-172 | when assignFingers succeeds, every stopped string gets a finger and no muted string does |
| FingeringFacts.CandidateShape | js/chord-logic.js:90-123 | a barre is only tried when no string is open, no muted string follows a sounded one and at least two strings are stopped at the lowest fret. It sits at that fret, from the first to the last string stopped there |
| FingeringFacts.ShapeBase | js/chord-logic.js:143-146 | under such a barre, finger 1 goes to exactly the strings stopped at its fret |
| FingeringFacts.ShapeUnbarred | js/chord-logic.js:151-169 | under such a barre, the strings left for fingers 2 to 4 are exactly those stopped above the barre fret |
| FingeringFacts.FingerCountAtMostThree | js/chord-logic.js:129-131 | `fingerCount > 3` never holds: with a barre, every string above its fret carries finger 2, 3 or 4 |
| FingeringFacts.FewExtraFingers | js/chord-logic.js:129 | fingers drawn from 2, 3, 4 are at most three |
| FingeringFacts.ProcessSpec | js/chord-logic.js:85-134 | processFingeringWithBarre keeps the frets and labels them for the barre it settles on. It settles on the candidate barre exactly when at most three stopped strings lie outside it |
| FingeringFacts.BarreEndsFingerOne | js/chord-logic.js:119-126 | a chosen barre holds finger 1 on its first and on its last string |
| FingeringFacts.BarreLeavesNoOpenString | js/chord-logic.js:191-197 | the barre/open check never rejects a processed fingering, because a barre is only chosen when no string is open |
| FingeringFacts.ProcessedFingersCover | js/chord-logic.js:200-206 | the fingered-strings check never rejects a processed fingering that has fingers |
| FingeringFacts.HandOrderFret | js/chord-logic.js:219-229 | each `fingerPos` entry's fret is a stopped fret |
| FingeringFacts.SpanMakesReachOk | js/chord-logic.js:243-252 | once the span rule holds, the any-pair rule never rejects |
| Search.NoteAt | js/chord-logic.js:62 | the pitch class a string sounds at a fret lies in 0..11 |
| Search.FretOptions | js/chord-logic.js:61-69 | the fret loop tries only frets 1..maxFret that sound a chord tone |
| Search.FretOptionsHas | js/chord-logic.js:61-69 | the fret loop tries every fret 1..maxFret that sounds a chord tone |
| Search.OptionsSpec | js/chord-logic.js:51-73 | a string's options are exactly its allowed choices: muted, or open or a fret up to maxFret that sounds a chord tone |
| Search.ExtendSound | js/chord-logic.js:32-74 | every leaf the depth-first search reaches from a prefix is an allowed completion of it |
| Search.ExtendComplete | js/chord-logic.js:32-74 | every allowed completion of a prefix is reached |
| Search.UsedStrings | js/chord-logic.js:293 | at most the number of strings are sounded |
| Search.IsValidFingering | js/chord-logic.js:276-296 | isValidFingering holds exactly when every chord tone sounds and at least three strings sound |
| Search.KeepConcat | js/chord-logic.js:32-46 | what the leaf filters keep from two runs of leaves is what they keep from each, in order |
| Search.GenerateCombinations | js/chord-logic.js:32-74 | from string k on, generateCombinations appends the kept fingerings of every completion of the current prefix, in depth-first order, and restores the prefix |
| Search.TryFrets | js/chord-logic.js:61-69 | the fret loop appends what every chord-tone fret's subtree keeps, in fret order |
| Search.TryChoice | js/chord-logic.js:54-56 | one branch sets the string and appends what its subtree keeps |
| Search.VisitLeaf | js/chord-logic.js:33-45 | a leaf pushes its processed fingering exactly when it is valid and the processed form is playable |
| Search.SurvivorSound | js/chord-logic.js:32-74 | every pushed fingering is the processed form of an allowed, tone-complete choice on every string with three or more sounded strings, and it is playable |
| Search.SurvivorComplete | js/chord-logic.js:32-74 | every allowed combination that passes the filters is pushed |
| Search.SoundedFretsMembers | js/chord-logic.js:309 | the numeric frets are exactly the sounded strings' frets |
| Search.HighestFretSpec | js/chord-logic.js:309 | the highest fret is some sounded string's fret and no sounded string is higher |
| Search.FirstSoundedSpec | js/chord-logic.js:313 | the first sounded string is sounded and every string before it is muted, and there is none only when all are muted |
| Search.FingerPenaltyZero | js/chord-logic.js:324-325 | the finger penalty is always 0, since only four finger numbers exist |
| Search.ScoreSpec | js/chord-logic.js:299-328 | the score is ten per sounded string, less twice the highest fret, plus fifty when the first sounded string plays the chord's first note |
| Search.NonEmptyKeepsAll | js/chord-logic.js:79 | the filter keeps a list whose fingerings all have frets unchanged |
| Search.SurvivorsNonEmpty | js/chord-logic.js:79 | the filter removes nothing the search pushed |
| Search.SearchAll | js/chord-logic.js:76 | the top call over a fresh array yields every kept fingering in search order |
| Search.GenerateChordFingerings | js/chord-logic.js:25-82 | generateChordFingerrings returns the first six of the survivors sorted stably by descending score |
| Search.RankOrderIsScoreOrder | js/chord-logic.js:80 | a list is in ascending rank-key order exactly when its scores never increase |
| Search.RankedSpec | js/chord-logic.js:78-81 | the ranked list is a permutation of the survivors, and the result is its first six |
| Search.TopIsPrefix | js/chord-logic.js:78-81 | the result has min(6, survivors) entries and is a prefix of the ranked survivors |
| Search.TopByKey | js/chord-logic.js:78-81 | the result's members are survivors in rank order, none ranked behind a survivor left out |
| Search.TopSpec | js/chord-logic.js:81 | at most six fingerings, all of them pushed by the search |
| Search.TopOrdered | js/chord-logic.js:80 | the result is in non-increasing score order |
| Search.TopKeepsHighest | js/chord-logic.js:80-81 | no survivor left out scores higher than one kept |
| Search.TopTiesInSearchOrder | js/chord-logic.js:80 | fingerings with equal scores keep the order the search found them in |
| Engine.SearchContext | js/chord-logic.js:25-26 | the search inputs have one pitch class per string and per chord note |
| Engine.ChordNamesInTable | js/chord-logic.js:17-22 | every chord note is a name of the table, even for a root spelled outside it |
| Engine.SoundingIsOpenIndex | js/chord-logic.js:62 | the index the source names is the search's open-string index plus the fret |
| Engine.SameNoteByName | js/chord-logic.js:317-318 | comparing a string's computed note name with a chord note is comparing pitch classes |
| Engine.ChordToneByName | js/chord-logic.js:52-53 | `chordNotes.includes(note)` on names is membership of the pitch class |
| Engine.ValidByName | js/chord-logic.js:276-296 | isValidFingering on names holds exactly when every chord note name is sounded and three strings sound |
| Engine.CompletesByName | js/chord-logic.js:48-73 | a completed combination has one choice per string, each muted or a fret up to maxFret (or open) whose note name is a chord note |
| Engine.ResultByName | js/chord-logic.js:25-82 | every returned fingering has one entry per string, each muted or a reachable chord note. It sounds every chord note on three or more strings, and it is the processed, playable form of its frets |
| Engine.GenerateChordFingerrings | js/chord-logic.js:25-82 | the search on a tuning and a chord given by names returns the ranked top six |
| Engine.GenerateForInstrument | js/chord-logic.js:26 | the search for an instrument reads its current tuning from the table |
| Engine.GenerateForInstrumentDefault | js/chord-logic.js:25 | called without a fret limit, the search for an instrument runs with frets up to the default 5 |
| Cache.JoinedKeyInjective | js/chord-logic.js:259 | the string key `instrument|symbol` tells entries apart when instrument keys hold no separator |
| Cache.PrefixMeansInstrument | js/chord-logic.js:270 | the prefix test of clearInstrumentCache selects exactly that instrument's entries |
| Cache.StoreThenLookup | js/chord-logic.js:258-265 | a lookup returns what the last store for that key put, and a store leaves other keys alone |
| Cache.ClearThenLookup | js/chord-logic.js:268-274 | after clearing an instrument its entries read as empty, and every other entry is unchanged |
| Cache.FingeringCache.constructor | js/chord-logic.js:4 | the cache starts empty |
| Cache.FingeringCache.Store | js/chord-logic.js:258-260 | cacheFingerings sets one entry and leaves the rest alone |
| Cache.FingeringCache.Lookup | js/chord-logic.js:263-265 | getCachedFingerings returns the stored list, or the empty list |
| Cache.FingeringCache.ClearInstrument | js/chord-logic.js:268-274 | clearInstrumentCache deletes exactly the entries of that instrument |
| Instruments.StringsLabelled | js/constants.js:1-26 | every instrument has as many string labels as strings, and four to six strings |
| Instruments.OpenStringsInTable | js/constants.js:1-26 | every open-string name is a name of NOTES |
| Instruments.KeysSeparable | js/constants.js:1-26 | no instrument key contains the cache's separator, and the keys are distinct |
| Instruments.TuningTable.constructor | js/constants.js:28 | at load, the live tunings and the snapshot both hold the table's strings |
| Instruments.TuningTable.Retune | js/main.js:30 | retuning a string changes that string only, and the snapshot keeps the loaded tuning |
| Instruments.TuningTable.Reset | js/main.js:40-42 | resetting an instrument restores the snapshot's tuning for it and leaves the others alone |

## Left out

- js/ui.js is not part of this model. It holds the diagram drawing: DOM, SVG and fractional coordinates.
- The event wiring of js/main.js is left out, and so is its prev/next flipper. Only the two table writes (`Retune`, `Reset`) are modelled.
- The debug counters `totalGenerated`, `rejectedByValidation` and `rejectedByPlayability` are left out. So is the `usedNotes` set of generateCombinations. Nothing ever reads them.
- The instrument emoji icons (`Instruments.Icon`) and the Spanish display names (`Instruments.DisplayName`) carry no property and are stated as data only.
- `INSTRUMENTS[instrument]` with a key outside the table throws in the source. The model names instruments by an enumeration, so that case does not arise.
- The search reads the global INSTRUMENTS table on every call. The model passes it the tuning instead. `Engine.GenerateForInstrument` reads the tuning from a `TuningTable` object.
- The cache is keyed by (instrument, symbol) pairs rather than by the joined string. `Cache.JoinedKeyInjective` and `Cache.PrefixMeansInstrument` show the two agree when instrument keys hold no `|`, which `Instruments.KeysSeparable` proves of the table's keys.
- The matcher covers only the one fixed regular expression of parseChord, not a general regex engine.
- Search.GenerateCombinations: the array `new Array(strings.length)` starts with holes. The model fills it with `Muted`; no entry is read before it is written.
- Search.HighestFret: an all-muted fingering gives `-Infinity` in JavaScript, and the model gives 0. The validity filter never lets such a fingering through, because it needs three sounded strings.
- Search.FingerPenalty: a fingering with `null` fingers would throw in the source. The model gives 0. The search never scores one, because `isPlayableFingering` rejects it.
- Fingerings.ProcessFingeringWithBarre: the null guards at js/chord-logic.js:37 and 86 are left out. The search never passes null there.
- The model writes the search as one method per source loop and branch: `Search.TryFrets`, `Search.TryChoice`, `Search.VisitLeaf` and `Search.SearchAll`. The recursion and the order of the pushes are those of generateCombinations.
