/**
 * generateChordFingerrings (js/chord-logic.js:25-82): depth-first
 * enumeration of string choices, the leaf filters, and the ranking by
 * calculateFingeringScore.
 *
 * Notes are compared as pitch classes: the tuning holds getNoteIndex of
 * each open-string name (-1 for a name outside the table) and the chord
 * holds getNoteIndex of each chord note. `Engine.SameNoteByName` and
 * `Engine.ChordToneByName` show this is the same test as comparing the names.
 */
module Search {
  import opened Wrappers
  import opened Sorting
  import opened Fingerings
  import opened FingeringFacts

  /** The inputs of one search: open-string indices, chord-tone classes and the highest fret tried. */
  datatype Context = Context(tuning: seq<int>, chordNotes: seq<int>, maxFret: int)

  /** getNoteIndex of string `i`'s open note; a string beyond the tuning reads as an unknown name. */
  function OpenIndex(tuning: seq<int>, i: int): int
  {
    if 0 <= i < |tuning| then tuning[i] else -1
  }

  /** The pitch class string `i` sounds at `fret`: the index getNoteByIndex reads. */
  function NoteAt(ctx: Context, i: int, fret: int): (r: int)
    ensures 0 <= r < 12
  {
    (OpenIndex(ctx.tuning, i) + fret) % 12
  }

  predicate ChordTone(ctx: Context, i: int, fret: int)
  {
    NoteAt(ctx, i, fret) in ctx.chordNotes
  }

  /** Frets 1 to `hi` of string `i` that sound a chord tone, ascending. */
  function FretOptions(ctx: Context, i: int, hi: int): (r: seq<Choice>)
    ensures forall k :: 0 <= k < |r| ==> r[k].Fret? && 1 <= r[k].n <= hi && ChordTone(ctx, i, r[k].n)
    decreases hi
  {
    if hi < 1 then []
    else FretOptions(ctx, i, hi - 1) + (if ChordTone(ctx, i, hi) then [Fret(hi)] else [])
  }

  function OpenOption(ctx: Context, i: int): seq<Choice>
  {
    if ChordTone(ctx, i, 0) then [Fret(0)] else []
  }

  /** What the search tries on string `i`, in its order: open, frets 1..maxFret, then muted. */
  function Options(ctx: Context, i: int): seq<Choice>
  {
    OpenOption(ctx, i) + FretOptions(ctx, i, ctx.maxFret) + [Muted]
  }

  /** A choice is allowed on string `i`: muted, or a fret up to maxFret that sounds a chord tone. */
  predicate Allowed(ctx: Context, i: int, c: Choice)
  {
    c.Muted? || ((c.n == 0 || c.n <= ctx.maxFret) && ChordTone(ctx, i, c.n))
  }

  lemma {:induction false} FretOptionsHas(ctx: Context, i: int, hi: int, f: nat)
    requires 1 <= f <= hi && ChordTone(ctx, i, f)
    ensures Fret(f) in FretOptions(ctx, i, hi)
    decreases hi
  {
    if f < hi {
      FretOptionsHas(ctx, i, hi - 1, f);
    }
  }

  /** The options of a string are exactly its allowed choices. */
  lemma OptionsSpec(ctx: Context, i: int, c: Choice)
    ensures c in Options(ctx, i) <==> Allowed(ctx, i, c)
  {
    var opts := Options(ctx, i);
    if c in opts {
      if c in OpenOption(ctx, i) {
      } else if c in FretOptions(ctx, i, ctx.maxFret) {
      } else {
        assert c == Muted;
      }
    }
    if Allowed(ctx, i, c) {
      if c.Muted? {
        assert opts[|opts| - 1] == Muted;
      } else if c.n == 0 {
        assert opts[0] == c;
      } else {
        FretOptionsHas(ctx, i, ctx.maxFret, c.n);
        assert c in OpenOption(ctx, i) + FretOptions(ctx, i, ctx.maxFret);
      }
    }
  }

  /** Every complete combination that extends `prefix`, in the order the depth-first search reaches them. */
  function Extend(ctx: Context, prefix: seq<Choice>): seq<seq<Choice>>
    requires |prefix| <= |ctx.tuning|
    decreases |ctx.tuning| - |prefix|, 1, 0
  {
    if |prefix| == |ctx.tuning| then [prefix]
    else ExtendAll(ctx, prefix, Options(ctx, |prefix|))
  }

  function ExtendAll(ctx: Context, prefix: seq<Choice>, opts: seq<Choice>): seq<seq<Choice>>
    requires |prefix| < |ctx.tuning|
    decreases |ctx.tuning| - |prefix|, 0, |opts|
  {
    if opts == [] then []
    else Extend(ctx, prefix + [opts[0]]) + ExtendAll(ctx, prefix, opts[1..])
  }

  /** The allowed complete combinations that start with `prefix`. */
  predicate Completes(ctx: Context, prefix: seq<Choice>, leaf: seq<Choice>)
  {
    |leaf| == |ctx.tuning| && prefix <= leaf &&
    forall i :: |prefix| <= i < |leaf| ==> Allowed(ctx, i, leaf[i])
  }

  lemma {:induction false} ExtendAllConcat(ctx: Context, prefix: seq<Choice>, a: seq<Choice>, b: seq<Choice>)
    requires |prefix| < |ctx.tuning|
    ensures ExtendAll(ctx, prefix, a + b) == ExtendAll(ctx, prefix, a) + ExtendAll(ctx, prefix, b)
  {
    if a == [] {
      assert a + b == b;
    } else {
      assert (a + b)[1..] == a[1..] + b;
      ExtendAllConcat(ctx, prefix, a[1..], b);
    }
  }

  /** Every leaf the search reaches from `prefix` is an allowed completion of it. */
  lemma {:induction false} ExtendSound(ctx: Context, prefix: seq<Choice>, leaf: seq<Choice>)
    requires |prefix| <= |ctx.tuning| && leaf in Extend(ctx, prefix)
    ensures Completes(ctx, prefix, leaf)
    decreases |ctx.tuning| - |prefix|, 1, 0
  {
    if |prefix| < |ctx.tuning| {
      ExtendAllSound(ctx, prefix, Options(ctx, |prefix|), leaf);
    }
  }

  lemma {:induction false} ExtendAllSound(ctx: Context, prefix: seq<Choice>, opts: seq<Choice>, leaf: seq<Choice>)
    requires |prefix| < |ctx.tuning| && leaf in ExtendAll(ctx, prefix, opts)
    requires forall k :: 0 <= k < |opts| ==> opts[k] in Options(ctx, |prefix|)
    ensures Completes(ctx, prefix, leaf)
    decreases |ctx.tuning| - |prefix|, 0, |opts|
  {
    if leaf in Extend(ctx, prefix + [opts[0]]) {
      ExtendSound(ctx, prefix + [opts[0]], leaf);
      OptionsSpec(ctx, |prefix|, opts[0]);
      assert leaf[|prefix|] == opts[0];
    } else {
      ExtendAllSound(ctx, prefix, opts[1..], leaf);
    }
  }

  /** Every allowed completion of `prefix` is reached. */
  lemma {:induction false} ExtendComplete(ctx: Context, prefix: seq<Choice>, leaf: seq<Choice>)
    requires |prefix| <= |ctx.tuning| && Completes(ctx, prefix, leaf)
    ensures leaf in Extend(ctx, prefix)
    decreases |ctx.tuning| - |prefix|, 1, 0
  {
    if |prefix| == |ctx.tuning| {
      assert leaf == prefix;
    } else {
      var c := leaf[|prefix|];
      OptionsSpec(ctx, |prefix|, c);
      ExtendAllComplete(ctx, prefix, Options(ctx, |prefix|), leaf);
    }
  }

  lemma {:induction false} ExtendAllComplete(ctx: Context, prefix: seq<Choice>, opts: seq<Choice>, leaf: seq<Choice>)
    requires |prefix| < |ctx.tuning| && Completes(ctx, prefix, leaf) && leaf[|prefix|] in opts
    ensures leaf in ExtendAll(ctx, prefix, opts)
    decreases |ctx.tuning| - |prefix|, 0, |opts|
  {
    if opts[0] == leaf[|prefix|] {
      assert leaf[..|prefix| + 1] == prefix + [opts[0]];
      ExtendComplete(ctx, prefix + [opts[0]], leaf);
    } else {
      ExtendAllComplete(ctx, prefix, opts[1..], leaf);
    }
  }

  /** Pitch classes sounded by the non-muted strings (`foundNotes`). */
  function SoundedNotes(ctx: Context, frets: seq<Choice>): set<int>
  {
    set i | 0 <= i < |frets| && frets[i].Fret? :: NoteAt(ctx, i, frets[i].n)
  }

  /** The number of non-muted strings. */
  function UsedStrings(frets: seq<Choice>): (r: nat)
    ensures r <= |frets|
  {
    if frets == [] then 0 else (if frets[0].Muted? then 0 else 1) + UsedStrings(frets[1..])
  }

  /** isValidFingering: every chord tone sounds, on at least three strings. */
  predicate Valid(ctx: Context, frets: seq<Choice>)
  {
    (forall k :: 0 <= k < |ctx.chordNotes| ==> ctx.chordNotes[k] in SoundedNotes(ctx, frets)) &&
    UsedStrings(frets) >= 3
  }

  /** isValidFingering: collect the sounded notes, strike them from the required ones, count strings. */
  method IsValidFingering(ctx: Context, frets: seq<Choice>) returns (ok: bool)
    ensures ok == Valid(ctx, frets)
  {
    var required := set k | 0 <= k < |ctx.chordNotes| :: ctx.chordNotes[k];
    var foundNotes: set<int> := {};
    var i := 0;
    while i < |frets|
      invariant 0 <= i <= |frets|
      invariant foundNotes == set j | 0 <= j < i && frets[j].Fret? :: NoteAt(ctx, j, frets[j].n)
    {
      if frets[i].Fret? {
        foundNotes := foundNotes + {NoteAt(ctx, i, frets[i].n)};
      }
      i := i + 1;
    }
    assert foundNotes == SoundedNotes(ctx, frets);
    var requiredNotes := required - foundNotes;
    assert requiredNotes == {} <==> forall k :: 0 <= k < |ctx.chordNotes| ==> ctx.chordNotes[k] in foundNotes by {
      if requiredNotes == {} {
        forall k | 0 <= k < |ctx.chordNotes|
          ensures ctx.chordNotes[k] in foundNotes
        {
          assert ctx.chordNotes[k] in required;
          assert ctx.chordNotes[k] !in requiredNotes;
        }
      }
      if forall k :: 0 <= k < |ctx.chordNotes| ==> ctx.chordNotes[k] in foundNotes {
        forall x | x in required
          ensures x in foundNotes
        {
          var k :| 0 <= k < |ctx.chordNotes| && ctx.chordNotes[k] == x;
        }
      }
    }
    ok := |requiredNotes| == 0 && UsedStrings(frets) >= 3;
  }

  /** The leaf filters: the processed fingering of a valid leaf, when it is playable. */
  function KeepOne(ctx: Context, leaf: seq<Choice>): seq<Fingering>
  {
    if Valid(ctx, leaf) && Playable(Process(leaf)) then [Process(leaf)] else []
  }

  /** What the search pushes for `leaves`, in their order. */
  function Keep(ctx: Context, leaves: seq<seq<Choice>>): seq<Fingering>
  {
    if leaves == [] then [] else KeepOne(ctx, leaves[0]) + Keep(ctx, leaves[1..])
  }

  lemma {:induction false} KeepConcat(ctx: Context, a: seq<seq<Choice>>, b: seq<seq<Choice>>)
    ensures Keep(ctx, a + b) == Keep(ctx, a) + Keep(ctx, b)
  {
    if a == [] {
      assert a + b == b;
    } else {
      var head := KeepOne(ctx, a[0]);
      assert (a + b)[0] == a[0];
      assert (a + b)[1..] == a[1..] + b;
      KeepConcat(ctx, a[1..], b);
      calc {
        Keep(ctx, a + b);
        head + Keep(ctx, a[1..] + b);
        head + (Keep(ctx, a[1..]) + Keep(ctx, b));
        (head + Keep(ctx, a[1..])) + Keep(ctx, b);
        Keep(ctx, a) + Keep(ctx, b);
      }
    }
  }

  /** Regrouping the pieces of the accumulator `found`. */
  lemma AppendAssoc(a: seq<Fingering>, b: seq<Fingering>, c: seq<Fingering>)
    ensures (a + b) + c == a + (b + c)
  {
  }

  /** Every fingering the search pushes, in push order. */
  function Survivors(ctx: Context): seq<Fingering>
  {
    Keep(ctx, Extend(ctx, []))
  }

  /**
   * generateCombinations: fill `current[k..]` choice by choice, appending
   * to `found` every leaf that passes the filters.
   */
  method GenerateCombinations(ctx: Context, k: int, current: array<Choice>, found: seq<Fingering>) returns (res: seq<Fingering>)
    requires current.Length == |ctx.tuning| && 0 <= k <= current.Length
    modifies current
    ensures current[..k] == old(current[..k])
    ensures res == found + Keep(ctx, Extend(ctx, old(current[..k])))
    decreases current.Length - k, 2
  {
    var prefix := current[..k];
    if k == current.Length {
      assert current[..] == prefix;
      res := VisitLeaf(ctx, current[..], found);
      return;
    }
    ghost var open := Keep(ctx, ExtendAll(ctx, prefix, OpenOption(ctx, k)));
    ghost var frets := Keep(ctx, ExtendAll(ctx, prefix, FretOptions(ctx, k, ctx.maxFret)));
    ghost var muted := Keep(ctx, Extend(ctx, prefix + [Muted]));
    res := found;
    if ChordTone(ctx, k, 0) {
      res := TryChoice(ctx, k, current, res, Fret(0));
      ExtendAllSingle(ctx, prefix, Fret(0));
    } else {
      assert ExtendAll(ctx, prefix, OpenOption(ctx, k)) == [];
    }
    assert res == found + open;
    res := TryFrets(ctx, k, current, res);
    res := TryChoice(ctx, k, current, res, Muted);
    ExtendOptions(ctx, prefix);
    AppendAssoc(found, open, frets);
    AppendAssoc(found, open + frets, muted);
  }

  /** The `for` loop of generateCombinations over frets 1 to maxFret. */
  method TryFrets(ctx: Context, k: int, current: array<Choice>, found: seq<Fingering>) returns (res: seq<Fingering>)
    requires current.Length == |ctx.tuning| && 0 <= k < current.Length
    modifies current
    ensures current[..k] == old(current[..k])
    ensures res == found + Keep(ctx, ExtendAll(ctx, old(current[..k]), FretOptions(ctx, k, ctx.maxFret)))
    decreases current.Length - k, 1
  {
    var prefix := current[..k];
    res := found;
    var fret := 1;
    while fret <= ctx.maxFret
      invariant 1 <= fret <= (if ctx.maxFret < 1 then 1 else ctx.maxFret + 1)
      invariant current[..k] == prefix
      invariant res == found + Keep(ctx, ExtendAll(ctx, prefix, FretOptions(ctx, k, fret - 1)))
    {
      ghost var before := FretOptions(ctx, k, fret - 1);
      if ChordTone(ctx, k, fret) {
        res := TryChoice(ctx, k, current, res, Fret(fret));
        SearchStep(ctx, prefix, before, Fret(fret));
        assert FretOptions(ctx, k, fret) == before + [Fret(fret)];
        AppendAssoc(found, Keep(ctx, ExtendAll(ctx, prefix, before)), Keep(ctx, Extend(ctx, prefix + [Fret(fret)])));
      } else {
        assert FretOptions(ctx, k, fret) == before + [];
        assert FretOptions(ctx, k, fret) == before;
      }
      fret := fret + 1;
    }
    if ctx.maxFret < 1 {
      assert FretOptions(ctx, k, ctx.maxFret) == [] == FretOptions(ctx, k, fret - 1);
    } else {
      assert fret - 1 == ctx.maxFret;
    }
  }

  /** One iteration of generateCombinations: set string `k` to `c` and search below it. */
  method TryChoice(ctx: Context, k: int, current: array<Choice>, found: seq<Fingering>, c: Choice) returns (res: seq<Fingering>)
    requires current.Length == |ctx.tuning| && 0 <= k < current.Length
    modifies current
    ensures current[..k] == old(current[..k])
    ensures res == found + Keep(ctx, Extend(ctx, old(current[..k]) + [c]))
    decreases current.Length - k, 0
  {
    var prefix := current[..k];
    current[k] := c;
    assert current[..k + 1] == prefix + [c];
    res := GenerateCombinations(ctx, k + 1, current, found);
    assert current[..k] == current[..k + 1][..k];
  }

  /** The leaf of generateCombinations: keep the processed fingering of a valid, playable leaf. */
  method VisitLeaf(ctx: Context, leaf: seq<Choice>, found: seq<Fingering>) returns (res: seq<Fingering>)
    ensures res == found + Keep(ctx, [leaf])
  {
    var valid := IsValidFingering(ctx, leaf);
    res := found;
    if valid {
      var processed := ProcessFingeringWithBarre(leaf);
      var playable := IsPlayableFingering(processed);
      if playable {
        res := found + [processed];
      }
    }
  }

  /** What a string's options keep is what its open string, its frets and its muted choice keep, in that order. */
  lemma ExtendOptions(ctx: Context, prefix: seq<Choice>)
    requires |prefix| < |ctx.tuning|
    ensures Keep(ctx, Extend(ctx, prefix)) ==
      Keep(ctx, ExtendAll(ctx, prefix, OpenOption(ctx, |prefix|))) +
      Keep(ctx, ExtendAll(ctx, prefix, FretOptions(ctx, |prefix|, ctx.maxFret))) +
      Keep(ctx, Extend(ctx, prefix + [Muted]))
  {
    var open, frets := OpenOption(ctx, |prefix|), FretOptions(ctx, |prefix|, ctx.maxFret);
    calc {
      Keep(ctx, Extend(ctx, prefix));
      Keep(ctx, ExtendAll(ctx, prefix, (open + frets) + [Muted]));
      { KeepExtendAllConcat(ctx, prefix, open + frets, [Muted]); }
      Keep(ctx, ExtendAll(ctx, prefix, open + frets)) + Keep(ctx, ExtendAll(ctx, prefix, [Muted]));
      { KeepExtendAllConcat(ctx, prefix, open, frets); ExtendAllSingle(ctx, prefix, Muted); }
      Keep(ctx, ExtendAll(ctx, prefix, open)) + Keep(ctx, ExtendAll(ctx, prefix, frets)) + Keep(ctx, Extend(ctx, prefix + [Muted]));
    }
  }

  lemma KeepExtendAllConcat(ctx: Context, prefix: seq<Choice>, a: seq<Choice>, b: seq<Choice>)
    requires |prefix| < |ctx.tuning|
    ensures Keep(ctx, ExtendAll(ctx, prefix, a + b)) == Keep(ctx, ExtendAll(ctx, prefix, a)) + Keep(ctx, ExtendAll(ctx, prefix, b))
  {
    ExtendAllConcat(ctx, prefix, a, b);
    KeepConcat(ctx, ExtendAll(ctx, prefix, a), ExtendAll(ctx, prefix, b));
  }

  lemma ExtendAllSingle(ctx: Context, prefix: seq<Choice>, c: Choice)
    requires |prefix| < |ctx.tuning|
    ensures ExtendAll(ctx, prefix, [c]) == Extend(ctx, prefix + [c])
  {
    assert ExtendAll(ctx, prefix, [c]) == Extend(ctx, prefix + [c]) + ExtendAll(ctx, prefix, []);
  }

  /** Trying one more option appends what its subtree keeps. */
  lemma SearchStep(ctx: Context, prefix: seq<Choice>, opts: seq<Choice>, c: Choice)
    requires |prefix| < |ctx.tuning|
    ensures Keep(ctx, ExtendAll(ctx, prefix, opts + [c])) ==
      Keep(ctx, ExtendAll(ctx, prefix, opts)) + Keep(ctx, Extend(ctx, prefix + [c]))
  {
    KeepExtendAllConcat(ctx, prefix, opts, [c]);
    ExtendAllSingle(ctx, prefix, c);
  }

  /** A leaf the filters keep contributes its processed fingering; any other leaf contributes nothing. */
  lemma KeepOneSpec(ctx: Context, leaf: seq<Choice>)
    ensures KeepOne(ctx, leaf) == (if Valid(ctx, leaf) && Playable(Process(leaf)) then [Process(leaf)] else [])
    ensures |KeepOne(ctx, leaf)| <= 1
  {
  }

  /** Every fingering kept from `leaves` is kept from one of them. */
  lemma {:induction false} KeepFrom(ctx: Context, leaves: seq<seq<Choice>>, f: Fingering)
    requires f in Keep(ctx, leaves)
    ensures exists k :: 0 <= k < |leaves| && f in KeepOne(ctx, leaves[k])
  {
    if f !in KeepOne(ctx, leaves[0]) {
      KeepFrom(ctx, leaves[1..], f);
      var k :| 0 <= k < |leaves[1..]| && f in KeepOne(ctx, leaves[1..][k]);
      assert leaves[k + 1] == leaves[1..][k];
    }
  }

  /** A fingering kept from one leaf is that leaf's processed form, and the leaf passed the filters. */
  lemma KeptLeaf(ctx: Context, leaf: seq<Choice>, f: Fingering)
    requires f in KeepOne(ctx, leaf)
    ensures Valid(ctx, leaf) && Playable(Process(leaf)) && f == Process(leaf)
  {
  }

  /** Every leaf that passes the filters contributes its processed fingering. */
  lemma {:induction false} KeepHas(ctx: Context, leaves: seq<seq<Choice>>, k: int)
    requires 0 <= k < |leaves| && Valid(ctx, leaves[k]) && Playable(Process(leaves[k]))
    ensures Process(leaves[k]) in Keep(ctx, leaves)
  {
    KeepOneSpec(ctx, leaves[0]);
    if k > 0 {
      assert leaves[1..][k - 1] == leaves[k];
      KeepHas(ctx, leaves[1..], k - 1);
    }
  }

  /**
   * Soundness of the search: every fingering it pushes is the processed
   * form of an allowed choice on every string that is tone-complete on at
   * least three strings, and it is playable.
   */
  lemma SurvivorSound(ctx: Context, f: Fingering)
    requires f in Survivors(ctx)
    ensures Completes(ctx, [], f.frets) && Valid(ctx, f.frets)
    ensures f == Process(f.frets) && Playable(f)
  {
    var leaves := Extend(ctx, []);
    KeepFrom(ctx, leaves, f);
    var k :| 0 <= k < |leaves| && f in KeepOne(ctx, leaves[k]);
    KeptLeaf(ctx, leaves[k], f);
    ProcessSpec(leaves[k]);
    ExtendSound(ctx, [], leaves[k]);
  }

  /** Completeness of the search: every allowed combination that passes the filters is pushed. */
  lemma SurvivorComplete(ctx: Context, leaf: seq<Choice>)
    requires Completes(ctx, [], leaf) && Valid(ctx, leaf) && Playable(Process(leaf))
    ensures Process(leaf) in Survivors(ctx)
  {
    var leaves := Extend(ctx, []);
    ExtendComplete(ctx, [], leaf);
    var k :| 0 <= k < |leaves| && leaves[k] == leaf;
    KeepHas(ctx, leaves, k);
  }

  /** The fret numbers of the sounded strings, open strings counting 0, left to right. */
  function SoundedFrets(frets: seq<Choice>): (r: seq<int>)
    ensures |r| == UsedStrings(frets)
    ensures forall k :: 0 <= k < |r| ==> r[k] >= 0
  {
    if frets == [] then []
    else (if frets[0].Fret? then [frets[0].n] else []) + SoundedFrets(frets[1..])
  }

  /** Each sounded string's fret is among the sounded frets, and each of those is some sounded string's fret. */
  lemma {:induction false} SoundedFretsMembers(frets: seq<Choice>)
    ensures forall i :: 0 <= i < |frets| && frets[i].Fret? ==> frets[i].n in SoundedFrets(frets)
    ensures forall v :: v in SoundedFrets(frets) ==> exists i :: 0 <= i < |frets| && frets[i] == Fret(v)
  {
    if frets != [] {
      SoundedFretsMembers(frets[1..]);
      forall i | 1 <= i < |frets| && frets[i].Fret?
        ensures frets[i].n in SoundedFrets(frets)
      {
        assert frets[1..][i - 1] == frets[i];
      }
      forall v | v in SoundedFrets(frets[1..])
        ensures exists i :: 0 <= i < |frets| && frets[i] == Fret(v)
      {
        var j :| 0 <= j < |frets[1..]| && frets[1..][j] == Fret(v);
        assert frets[j + 1] == Fret(v);
      }
    }
  }

  /** `Math.max` of the sounded frets; 0 when no string sounds. */
  function HighestFret(frets: seq<Choice>): int
  {
    var v := SoundedFrets(frets);
    if v == [] then 0 else MaxOf(v)
  }

  /** The highest fret is the fret of some sounded string and no sounded string is higher. */
  lemma HighestFretSpec(frets: seq<Choice>)
    requires UsedStrings(frets) > 0
    ensures exists i :: 0 <= i < |frets| && frets[i].Fret? && frets[i].n == HighestFret(frets)
    ensures forall i :: 0 <= i < |frets| && frets[i].Fret? ==> frets[i].n <= HighestFret(frets)
  {
    var v := SoundedFrets(frets);
    SoundedFretsMembers(frets);
    forall i | 0 <= i < |frets| && frets[i].Fret?
      ensures frets[i].n <= HighestFret(frets)
    {
      var j :| 0 <= j < |v| && v[j] == frets[i].n;
    }
  }

  /** `frets.findIndex(f => f !== 'x')`, as an option. */
  function FirstSounded(frets: seq<Choice>): (r: Option<nat>)
  {
    if frets == [] then None
    else if frets[0].Fret? then Some(0)
    else match FirstSounded(frets[1..])
      case None => None
      case Some(i) => Some(i + 1)
  }

  /** The first sounded string is sounded and every string before it is muted; there is none only when all are muted. */
  lemma {:induction false} FirstSoundedSpec(frets: seq<Choice>)
    ensures FirstSounded(frets).Some? ==>
      var i := FirstSounded(frets).value;
      i < |frets| && frets[i].Fret? && forall j :: 0 <= j < i ==> frets[j].Muted?
    ensures FirstSounded(frets).None? ==> forall j :: 0 <= j < |frets| ==> frets[j].Muted?
  {
    if frets != [] && frets[0].Muted? {
      FirstSoundedSpec(frets[1..]);
      forall j | 1 <= j < |frets|
        ensures frets[j] == frets[1..][j - 1]
      {
      }
    }
  }

  /** Fifty points when the first sounded string plays the chord's first note. */
  function RootBonus(ctx: Context, frets: seq<Choice>): int
  {
    match FirstSounded(frets)
    case None => 0
    case Some(i) =>
      if i < |frets| && frets[i].Fret? && |ctx.chordNotes| > 0 && NoteAt(ctx, i, frets[i].n) == ctx.chordNotes[0] then 50 else 0
  }

  /** The distinct finger numbers in use (`new Set(fingers.filter(f => f !== null))`). */
  function FingerSet(fs: seq<Option<FingerId>>): set<int>
  {
    set i | 0 <= i < |fs| && fs[i].Some? :: fs[i].value as int
  }

  function FingerPenalty(f: Fingering): int
  {
    match f.fingers
    case None => 0
    case Some(fs) => (if |FingerSet(fs)| > 4 then |FingerSet(fs)| - 4 else 0) * 10
  }

  /** calculateFingeringScore: higher is better. */
  function Score(ctx: Context, f: Fingering): int
  {
    10 * UsedStrings(f.frets) - 2 * HighestFret(f.frets) + RootBonus(ctx, f.frets) - FingerPenalty(f)
  }

  /** Line 325 of js/chord-logic.js never lowers a score: only four finger numbers exist. */
  lemma FingerPenaltyZero(f: Fingering)
    ensures FingerPenalty(f) == 0
  {
    if f.fingers.Some? {
      var used := FingerSet(f.fingers.value);
      assert used <= {1, 2, 3, 4};
      SubsetSize(used, {1, 2, 3, 4});
      assert |{1, 2, 3, 4}| == 4;
    }
  }

  /**
   * The score of a fingering: ten per sounded string, less twice the fret of
   * its highest sounded string, plus fifty when its first sounded string
   * plays the chord's first note.
   */
  lemma ScoreSpec(ctx: Context, f: Fingering)
    requires UsedStrings(f.frets) > 0 && |ctx.chordNotes| > 0
    ensures exists i, j :: (0 <= i <= j < |f.frets| && f.frets[i].Fret? && f.frets[j].Fret? &&
      (forall m :: 0 <= m < i ==> f.frets[m].Muted?) &&
      (forall m :: 0 <= m < |f.frets| && f.frets[m].Fret? ==> f.frets[m].n <= f.frets[j].n) &&
      Score(ctx, f) == 10 * UsedStrings(f.frets) - 2 * f.frets[j].n +
        (if NoteAt(ctx, i, f.frets[i].n) == ctx.chordNotes[0] then 50 else 0))
  {
    FingerPenaltyZero(f);
    HighestFretSpec(f.frets);
    FirstSoundedSpec(f.frets);
    var j :| 0 <= j < |f.frets| && f.frets[j].Fret? && f.frets[j].n == HighestFret(f.frets);
    assert FirstSounded(f.frets).Some?;
    var i := FirstSounded(f.frets).value;
    assert i <= j;
    var bonus := if NoteAt(ctx, i, f.frets[i].n) == ctx.chordNotes[0] then 50 else 0;
    assert RootBonus(ctx, f.frets) == bonus;
    assert Score(ctx, f) == 10 * UsedStrings(f.frets) - 2 * f.frets[j].n + bonus;
  }

  /** Sorting by this key ascending is sorting by score descending. */
  function RankKey(ctx: Context): Fingering -> int
  {
    f => -Score(ctx, f)
  }

  /** `filter(f => f && f.frets.length > 0)`. */
  function NonEmpty(fs: seq<Fingering>): (r: seq<Fingering>)
  {
    if fs == [] then []
    else (if |fs[0].frets| > 0 then [fs[0]] else []) + NonEmpty(fs[1..])
  }

  /** A list whose fingerings all have frets passes the filter unchanged. */
  lemma {:induction false} NonEmptyKeepsAll(fs: seq<Fingering>)
    requires forall k :: 0 <= k < |fs| ==> |fs[k].frets| > 0
    ensures NonEmpty(fs) == fs
  {
    if fs != [] {
      NonEmptyKeepsAll(fs[1..]);
      assert [fs[0]] + fs[1..] == fs;
    }
  }

  /** Every fingering the search pushes has one entry per string, at least three of them sounded. */
  lemma SurvivorsNonEmpty(ctx: Context)
    ensures NonEmpty(Survivors(ctx)) == Survivors(ctx)
  {
    var fs := Survivors(ctx);
    forall k | 0 <= k < |fs|
      ensures |fs[k].frets| > 0
    {
      SurvivorSound(ctx, fs[k]);
    }
    NonEmptyKeepsAll(fs);
  }

  /** The survivors sorted stably by descending score. */
  function Ranked(ctx: Context): (r: seq<Fingering>)
  {
    SortBy(NonEmpty(Survivors(ctx)), RankKey(ctx))
  }

  /** The return expression of generateChordFingerrings: filter, sort by descending score, keep six. */
  function Best(ctx: Context, found: seq<Fingering>): (r: seq<Fingering>)
  {
    var ranked := SortBy(NonEmpty(found), RankKey(ctx));
    if |ranked| <= 6 then ranked else ranked[..6]
  }

  /** generateChordFingerrings: the first six of the ranked survivors. */
  function Top(ctx: Context): (r: seq<Fingering>)
  {
    Best(ctx, Survivors(ctx))
  }

  /** The search part of generateChordFingerrings: a fresh `current` array and `generateCombinations(0)`. */
  method SearchAll(ctx: Context) returns (found: seq<Fingering>)
    ensures found == Survivors(ctx)
  {
    var current := new Choice[|ctx.tuning|](_ => Muted);
    assert current[..0] == [];
    found := GenerateCombinations(ctx, 0, current, []);
    assert found == [] + Survivors(ctx);
  }

  /** generateChordFingerrings: search, drop empty results, sort by descending score, keep six. */
  method GenerateChordFingerings(ctx: Context) returns (r: seq<Fingering>)
    ensures r == Top(ctx)
  {
    var found := SearchAll(ctx);
    r := Best(ctx, found);
  }

  lemma RankKeyIsScore(ctx: Context, f: Fingering)
    ensures RankKey(ctx)(f) == -Score(ctx, f)
  {
  }

  /** A list is in ascending rank-key order exactly when its scores never increase. */
  lemma RankOrderIsScoreOrder(ctx: Context, s: seq<Fingering>)
    ensures SortedBy(s, RankKey(ctx)) <==> forall i, j :: 0 <= i < j < |s| ==> Score(ctx, s[i]) >= Score(ctx, s[j])
  {
    forall i, j | 0 <= i < j < |s|
      ensures RankKey(ctx)(s[i]) <= RankKey(ctx)(s[j]) <==> Score(ctx, s[i]) >= Score(ctx, s[j])
    {
      RankKeyIsScore(ctx, s[i]);
      RankKeyIsScore(ctx, s[j]);
    }
  }

  /** The ranked list is the survivors, reordered. */
  lemma RankedSpec(ctx: Context)
    ensures multiset(Ranked(ctx)) == multiset(Survivors(ctx))
    ensures Top(ctx) == if |Ranked(ctx)| <= 6 then Ranked(ctx) else Ranked(ctx)[..6]
  {
    SurvivorsNonEmpty(ctx);
  }

  /** The result is the first |Top| fingerings of the survivors sorted by rank. */
  lemma TopIsPrefix(ctx: Context)
    ensures |Top(ctx)| == if |Survivors(ctx)| <= 6 then |Survivors(ctx)| else 6
    ensures Top(ctx) == SortBy(Survivors(ctx), RankKey(ctx))[..|Top(ctx)|]
  {
    RankedSpec(ctx);
    SurvivorsNonEmpty(ctx);
  }

  /** SortByPrefix read on the result: its members are survivors, ranked, and rank no worse than any survivor left out. */
  lemma TopByKey(ctx: Context)
    ensures forall k :: 0 <= k < |Top(ctx)| ==> Top(ctx)[k] in Survivors(ctx)
    ensures forall i, j :: 0 <= i < j < |Top(ctx)| ==> RankKey(ctx)(Top(ctx)[i]) <= RankKey(ctx)(Top(ctx)[j])
    ensures forall f :: f in Survivors(ctx) && f !in Top(ctx) ==>
      forall k :: 0 <= k < |Top(ctx)| ==> RankKey(ctx)(Top(ctx)[k]) <= RankKey(ctx)(f)
  {
    TopIsPrefix(ctx);
    SortByPrefix(Survivors(ctx), RankKey(ctx), Top(ctx));
    SortByPrefixLeast(Survivors(ctx), RankKey(ctx), Top(ctx));
  }

  /** The result holds at most six fingerings, each of them pushed by the search. */
  lemma TopSpec(ctx: Context)
    ensures |Top(ctx)| == if |Survivors(ctx)| <= 6 then |Survivors(ctx)| else 6
    ensures forall k :: 0 <= k < |Top(ctx)| ==> Top(ctx)[k] in Survivors(ctx)
  {
    TopIsPrefix(ctx);
    TopByKey(ctx);
  }

  /** The result is in non-increasing score order. */
  lemma TopOrdered(ctx: Context)
    ensures forall i, j :: 0 <= i < j < |Top(ctx)| ==> Score(ctx, Top(ctx)[i]) >= Score(ctx, Top(ctx)[j])
  {
    var top := Top(ctx);
    TopByKey(ctx);
    forall i, j | 0 <= i < j < |top|
      ensures Score(ctx, top[i]) >= Score(ctx, top[j])
    {
      RankKeyIsScore(ctx, top[i]);
      RankKeyIsScore(ctx, top[j]);
    }
  }

  /** No fingering the search pushed but the result leaves out scores higher than one kept. */
  lemma TopKeepsHighest(ctx: Context)
    ensures forall f :: f in Survivors(ctx) && f !in Top(ctx) ==>
      forall k :: 0 <= k < |Top(ctx)| ==> Score(ctx, f) <= Score(ctx, Top(ctx)[k])
  {
    var top := Top(ctx);
    TopByKey(ctx);
    forall f, k | f in Survivors(ctx) && f !in top && 0 <= k < |top|
      ensures Score(ctx, f) <= Score(ctx, top[k])
    {
      RankKeyIsScore(ctx, top[k]);
      RankKeyIsScore(ctx, f);
    }
  }

  /** Fingerings with equal scores keep the order in which the search found them. */
  lemma TopTiesInSearchOrder(ctx: Context, v: int)
    ensures KeyRun(Ranked(ctx), RankKey(ctx), v) == KeyRun(Survivors(ctx), RankKey(ctx), v)
  {
    SurvivorsNonEmpty(ctx);
    SortByStable(Survivors(ctx), RankKey(ctx), v);
  }
}

