/**
 * Chord-token parsing (js/chord-logic.js:330-381). The regular expression
 * `^([A-G][#b]?)(m|maj7|m7|7|sus2|sus4|dim|aug)?$` with the `i` flag is
 * written out as a matcher over characters.
 */
module ChordParser {
  import opened Wrappers
  import opened Pitch
  import opened Chords

  /** A parsed chord: root as written (upper-cased), quality, notes and display symbol. */
  datatype Chord = Chord(root: string, chordType: ChordType, notes: seq<string>, symbol: string)

  /** The two capture groups of a successful match; `quality` is "" when group 2 is absent. */
  datatype Groups = Groups(root: string, quality: string)

  /** ASCII case mapping; the regex `i` flag never relates a non-ASCII character to an ASCII one. */
  function LowerChar(c: char): char
  {
    if 'A' <= c <= 'Z' then (c as int + 32) as char else c
  }

  function UpperChar(c: char): char
  {
    if 'a' <= c <= 'z' then (c as int - 32) as char else c
  }

  function Lower(s: string): (r: string)
    ensures |r| == |s|
    ensures forall i :: 0 <= i < |s| ==> r[i] == LowerChar(s[i])
  {
    seq(|s|, i requires 0 <= i < |s| => LowerChar(s[i]))
  }

  function Upper(s: string): (r: string)
    ensures |r| == |s|
    ensures forall i :: 0 <= i < |s| ==> r[i] == UpperChar(s[i])
  {
    seq(|s|, i requires 0 <= i < |s| => UpperChar(s[i]))
  }

  /** `[A-G]` under the `i` flag. */
  predicate IsRootLetter(c: char)
  {
    'A' <= c <= 'G' || 'a' <= c <= 'g'
  }

  /** `[#b]` under the `i` flag. */
  predicate IsAccidental(c: char)
  {
    c == '#' || c == 'b' || c == 'B'
  }

  /** The alternatives of the quality group, in the order the regex lists them. */
  const QUALITY_ALTERNATIVES: seq<string> := ["m", "maj7", "m7", "7", "sus2", "sus4", "dim", "aug"]

  /** Text that capture group 1 accepts. */
  predicate IsRootText(r: string)
  {
    (|r| == 1 || |r| == 2) && IsRootLetter(r[0]) && (|r| == 2 ==> IsAccidental(r[1]))
  }

  /** Text that the optional group 2 accepts, case-insensitively. */
  predicate IsQualityText(q: string)
  {
    q == [] || Lower(q) in QUALITY_ALTERNATIVES
  }

  /** The whole token is a root followed by an optional quality. */
  predicate MatchesGrammar(s: string)
  {
    exists k :: 1 <= k <= 2 && k <= |s| && IsRootText(s[..k]) && IsQualityText(s[k..])
  }

  /**
   * The matcher: a root letter, an accidental when the next character is
   * one, then the rest must be a quality. No quality starts with '#', 'b'
   * or 'B', so taking the accidental greedily never loses a match.
   */
  function MatchToken(s: string): (r: Option<Groups>)
  {
    if |s| == 0 || !IsRootLetter(s[0]) then None
    else
      var n := if |s| >= 2 && IsAccidental(s[1]) then 2 else 1;
      if IsQualityText(s[n..]) then Some(Groups(s[..n], s[n..])) else None
  }

  /** No quality alternative begins with a character group 1 could also take. */
  lemma QualityNeverStartsWithAccidental(q: string)
    requires IsQualityText(q) && q != []
    ensures !IsAccidental(q[0])
  {
    var l := Lower(q);
    assert l[0] == LowerChar(q[0]);
    assert l[0] in {'m', '7', 's', 'd', 'a'} by {
      assert l in QUALITY_ALTERNATIVES;
    }
  }

  /** The matcher accepts exactly the grammar and returns the split the regex captures. */
  lemma MatchTokenSpec(s: string)
    ensures MatchToken(s).Some? <==> MatchesGrammar(s)
    ensures MatchToken(s).Some? ==>
      var g := MatchToken(s).value;
      s == g.root + g.quality && IsRootText(g.root) && IsQualityText(g.quality)
  {
    if MatchesGrammar(s) {
      var k :| 1 <= k <= 2 && k <= |s| && IsRootText(s[..k]) && IsQualityText(s[k..]);
      if k == 1 && |s| >= 2 && IsAccidental(s[1]) {
        QualityNeverStartsWithAccidental(s[1..]);
        assert false;
      }
      assert s[..k] + s[k..] == s;
    }
    if MatchToken(s).Some? {
      var g := MatchToken(s).value;
      assert s == g.root + g.quality;
      assert IsRootText(s[..|g.root|]);
    }
  }

  /** noteMap of js/chord-logic.js:354: flat roots to their sharp spelling. */
  function FlatToSharp(root: string): string
  {
    if root == "Db" then "C#"
    else if root == "Eb" then "D#"
    else if root == "Gb" then "F#"
    else if root == "Ab" then "G#"
    else if root == "Bb" then "A#"
    else root
  }

  /**
   * parseChord. The root is upper-cased before the test for a lower-case
   * 'b', so the flat table is never consulted: "Db" keeps the root "DB".
   */
  function ParseChord(token: string): (r: Option<Chord>)
    ensures r.Some? <==> MatchesGrammar(token)
  {
    MatchTokenSpec(token);
    match MatchToken(token)
    case None => None
    case Some(g) =>
      var upper := Upper(g.root);
      var root := if 'b' in upper then FlatToSharp(upper) else upper;
      var quality := Lower(g.quality);
      var t := match TypeMap(quality) case Some(t) => t case None => Major;
      Some(Chord(root, t, ChordNotes(root, t), root + Suffix(t)))
  }

  /** Upper-casing leaves no lower-case 'b' behind. */
  lemma UpperHasNoLowerB(s: string)
    ensures 'b' !in Upper(s)
  {
  }

  /**
   * The root of every parse is the upper-cased group 1: the flat table is
   * dead code, so "Db" yields root "DB", not "C#".
   */
  lemma ParseChordRoot(token: string)
    requires MatchesGrammar(token)
    ensures var g := MatchToken(token).value;
      ParseChord(token).value.root == Upper(g.root)
  {
    MatchTokenSpec(token);
    UpperHasNoLowerB(MatchToken(token).value.root);
  }

  /** Every suffix is already lower case and is a quality the grammar accepts. */
  lemma SuffixIsQualityText(t: ChordType)
    ensures Lower(Suffix(t)) == Suffix(t)
    ensures IsQualityText(Suffix(t))
    ensures Suffix(t) != [] ==> !IsAccidental(Suffix(t)[0])
  {
    assert Lower(Suffix(t)) == Suffix(t);
  }

  /** Upper-casing a root text is idempotent and keeps it a root text. */
  lemma UpperRootText(r: string)
    requires IsRootText(r)
    ensures IsRootText(Upper(r))
    ensures Upper(Upper(r)) == Upper(r)
    ensures 'A' <= Upper(r)[0] <= 'G'
    ensures |Upper(r)| == 2 ==> Upper(r)[1] == '#' || Upper(r)[1] == 'B'
  {
  }

  /** Re-parsing the symbol of a parsed chord gives back the same chord: root, type, notes and symbol. */
  lemma SymbolRoundTrip(token: string)
    requires MatchesGrammar(token)
    ensures ParseChord(ParseChord(token).value.symbol) == ParseChord(token)
  {
    MatchTokenSpec(token);
    ParseChordRoot(token);
    var g := MatchToken(token).value;
    var c := ParseChord(token).value;
    var root := Upper(g.root);
    UpperRootText(g.root);
    SuffixIsQualityText(c.chordType);
    var suffix := Suffix(c.chordType);
    assert c.symbol == root + suffix;
    var n := |root|;
    assert c.symbol[..n] == root && c.symbol[n..] == suffix;
    assert MatchToken(c.symbol) == Some(Groups(root, suffix));
    UpperHasNoLowerB(root);
    SuffixRoundTrip(c.chordType);
  }

  /** "Am7" is A minor seventh with notes A, C, E, G. */
  lemma ParseAm7()
    ensures ParseChord("Am7").Some?
    ensures var c := ParseChord("Am7").value;
      c.root == "A" && c.chordType == Min7 && c.notes == ["A", "C", "E", "G"] && c.symbol == "Am7"
  {
    ParseAm7Shape();
    NotesOfAMinor7();
  }

  lemma ParseAm7Shape()
    ensures ParseChord("Am7") == Some(Chord("A", Min7, ChordNotes("A", Min7), "Am7"))
  {
    MatchAm7();
    assert Upper("A") == "A" by {
      assert Upper("A")[0] == 'A';
    }
    assert Lower("m7") == "m7" by {
      assert Lower("m7")[0] == 'm' && Lower("m7")[1] == '7';
    }
    assert TypeMap("m7") == Some(Min7);
    UpperHasNoLowerB("A");
    assert "A" + Suffix(Min7) == "Am7";
  }

  lemma MatchAm7()
    ensures MatchToken("Am7") == Some(Groups("A", "m7"))
  {
    var s := "Am7";
    assert s[1..] == "m7" && s[..1] == "A";
    assert Lower("m7") == "m7" by {
      assert Lower("m7")[0] == 'm' && Lower("m7")[1] == '7';
    }
    assert "m7" == QUALITY_ALTERNATIVES[2];
  }

  lemma NotesOfAMinor7()
    ensures ChordNotes("A", Min7) == ["A", "C", "E", "G"]
  {
    assert NoteIndex("A") == 9 by {
      assert "A" == NOTES[9];
      NoteIndexAt(9);
    }
    NamesOfAMinor7();
  }

  lemma NamesOfAMinor7()
    ensures NamesAbove(9, [0, 3, 7, 10]) == ["A", "C", "E", "G"]
  {
    assert NoteByIndex(9) == "A" && NoteByIndex(12) == "C";
    assert NoteByIndex(16) == "E" && NoteByIndex(19) == "G";
    assert [0, 3, 7, 10][1..] == [3, 7, 10];
    assert [3, 7, 10][1..] == [7, 10];
    assert [7, 10][1..] == [10];
    assert NamesAbove(9, [10]) == ["G"];
    assert NamesAbove(9, [7, 10]) == ["E", "G"];
    assert NamesAbove(9, [3, 7, 10]) == ["C", "E", "G"];
  }

  /**
   * "Db" keeps the root "DB", which is no name in NOTES: its index is -1,
   * so the chord is built on B (B, D#, F#) rather than on C#.
   */
  lemma ParseDbKeepsUnknownRoot()
    ensures ParseChord("Db").Some?
    ensures var c := ParseChord("Db").value;
      c.root == "DB" && c.chordType == Major && c.notes == ["B", "D#", "F#"] && c.symbol == "DB"
  {
    MatchDb();
    assert Upper("Db") == "DB" by {
      assert Upper("Db")[0] == 'D' && Upper("Db")[1] == 'B';
    }
    assert Lower("") == "";
    assert TypeMap("") == Some(Major);
    UpperHasNoLowerB("Db");
    NotesOfDBMajor();
  }

  lemma MatchDb()
    ensures MatchToken("Db") == Some(Groups("Db", ""))
  {
    var s := "Db";
    assert s[2..] == "" && s[..2] == "Db";
  }

  lemma NotesOfDBMajor()
    ensures ChordNotes("DB", Major) == ["B", "D#", "F#"]
  {
    DBIsNoNote();
    NamesOfBMajor();
  }

  lemma DBIsNoNote()
    ensures NoteIndex("DB") == -1
  {
    assert "DB" !in NOTES by {
      forall k | 0 <= k < 12
        ensures NOTES[k] != "DB"
      {
        assert |NOTES[k]| == 1 || NOTES[k][1] == '#';
      }
    }
    NoteIndexSpec("DB");
  }

  lemma NamesOfBMajor()
    ensures NamesAbove(-1, [0, 4, 7]) == ["B", "D#", "F#"]
  {
    assert NoteByIndex(-1) == "B" && NoteByIndex(3) == "D#" && NoteByIndex(6) == "F#";
    assert [0, 4, 7][1..] == [4, 7];
    assert [4, 7][1..] == [7];
    assert NamesAbove(-1, [7]) == ["F#"];
    assert NamesAbove(-1, [4, 7]) == ["D#", "F#"];
  }

  /** An upper-case "M" is lower-cased to the minor quality. */
  lemma ParseUpperMIsMinor()
    ensures ParseChord("AM").Some? && ParseChord("AM").value.chordType == Minor
  {
    var s := "AM";
    assert s[1..] == "M" && s[..1] == "A";
    assert Lower("M") == "m" by {
      assert Lower("M")[0] == 'm';
    }
    assert "m" == QUALITY_ALTERNATIVES[0];
    assert MatchToken(s) == Some(Groups("A", "M"));
  }

  /** Tokens outside the grammar do not parse. */
  lemma ParseRejectsH()
    ensures ParseChord("H").None?
  {
  }

  lemma ParseRejectsXb9()
    ensures ParseChord("Xb9").None?
  {
  }

  lemma ParseRejectsCm9()
    ensures ParseChord("Cm9").None?
  {
    var s := "Cm9";
    assert s[1..] == "m9";
    assert Lower("m9") !in QUALITY_ALTERNATIVES by {
      assert Lower("m9")[1] == '9';
    }
  }

  /** The characters `\s` matches in a JavaScript regular expression. */
  predicate IsSpace(c: char)
  {
    var u := c as int;
    (0x09 <= u <= 0x0D) || u == 0x20 || u == 0xA0 || u == 0x1680 || (0x2000 <= u <= 0x200A)
    || u == 0x2028 || u == 0x2029 || u == 0x202F || u == 0x205F || u == 0x3000 || u == 0xFEFF
  }

  predicate NoSpace(s: string)
  {
    forall i :: 0 <= i < |s| ==> !IsSpace(s[i])
  }

  /** Length of the run of non-space characters at the start of `s`. */
  function TokenLength(s: string): (n: nat)
    ensures n <= |s|
    ensures NoSpace(s[..n])
    ensures n < |s| ==> IsSpace(s[n])
  {
    if s == [] || IsSpace(s[0]) then 0
    else
      var m := TokenLength(s[1..]);
      assert s[..m + 1] == [s[0]] + s[1..][..m];
      1 + m
  }

  /** `split(/\s+/).filter(s => s.length > 0)`: the maximal runs of non-space characters, in order. */
  function Split(s: string): (r: seq<string>)
    ensures forall i :: 0 <= i < |r| ==> r[i] != [] && NoSpace(r[i])
    decreases |s|
  {
    if s == [] then []
    else if IsSpace(s[0]) then Split(s[1..])
    else
      var n := TokenLength(s);
      [s[..n]] + Split(s[n..])
  }

  /** A space before `b` ends whatever run `a` ends with. */
  lemma {:induction false} TokenLengthStopsAtSpace(a: string, w: char, b: string)
    requires IsSpace(w)
    ensures TokenLength(a + [w] + b) == TokenLength(a)
  {
    if a != [] && !IsSpace(a[0]) {
      assert (a + [w] + b)[1..] == a[1..] + [w] + b;
      TokenLengthStopsAtSpace(a[1..], w, b);
    }
  }

  /** A space splits the text in two independent halves. */
  lemma {:induction false} SplitAtSpace(a: string, w: char, b: string)
    requires IsSpace(w)
    ensures Split(a + [w] + b) == Split(a) + Split(b)
    decreases |a|
  {
    var s := a + [w] + b;
    if a == [] {
      assert s == [w] + b;
      assert s[1..] == b;
    } else if IsSpace(a[0]) {
      assert s[1..] == a[1..] + [w] + b;
      SplitAtSpace(a[1..], w, b);
    } else {
      TokenLengthStopsAtSpace(a, w, b);
      var n := TokenLength(a);
      assert n > 0;
      assert s[..n] == a[..n];
      assert s[n..] == a[n..] + [w] + b;
      SplitAtSpace(a[n..], w, b);
    }
  }

  /** A non-empty word without spaces splits into itself. */
  lemma SplitWord(t: string)
    requires t != [] && NoSpace(t)
    ensures Split(t) == [t]
  {
    TokenLengthOfWord(t);
    assert t[..|t|] == t;
    assert t[|t|..] == [];
  }

  lemma {:induction false} TokenLengthOfWord(t: string)
    requires NoSpace(t)
    ensures TokenLength(t) == |t|
  {
    if t != [] {
      TokenLengthOfWord(t[1..]);
    }
  }

  /** The words joined by single spaces. */
  function Join(words: seq<string>): string
  {
    if |words| == 0 then ""
    else if |words| == 1 then words[0]
    else words[0] + " " + Join(words[1..])
  }

  /** Splitting words joined by spaces gives the words back. */
  lemma {:induction false} SplitJoin(words: seq<string>)
    requires forall i :: 0 <= i < |words| ==> words[i] != [] && NoSpace(words[i])
    ensures Split(Join(words)) == words
  {
    if |words| == 1 {
      SplitWord(words[0]);
    } else if |words| > 1 {
      SplitAtSpace(words[0], ' ', Join(words[1..]));
      assert words[0] + " " + Join(words[1..]) == words[0] + [' '] + Join(words[1..]);
      SplitWord(words[0]);
      SplitJoin(words[1..]);
    }
  }

  /** The successful parses of `tokens`, in order. */
  function ParseAll(tokens: seq<string>): (r: seq<Chord>)
    ensures |r| <= |tokens|
  {
    if tokens == [] then []
    else
      match ParseChord(tokens[0])
      case Some(c) => [c] + ParseAll(tokens[1..])
      case None => ParseAll(tokens[1..])
  }

  /** parseChordSequence: parse every whitespace-separated token and drop those that do not parse. */
  function ParseChordSequence(text: string): (r: seq<Chord>)
    ensures |r| <= |Split(text)|
  {
    ParseAll(Split(text))
  }

  function Symbols(chords: seq<Chord>): (r: seq<string>)
    ensures |r| == |chords|
    ensures forall i :: 0 <= i < |r| ==> r[i] == chords[i].symbol
  {
    if chords == [] then [] else [chords[0].symbol] + Symbols(chords[1..])
  }

  lemma SuffixHasNoSpace(t: ChordType)
    ensures NoSpace(Suffix(t))
  {
  }

  lemma RootTextHasNoSpace(r: string)
    requires IsRootText(r)
    ensures NoSpace(r)
  {
  }

  lemma NoSpaceConcat(a: string, b: string)
    requires NoSpace(a) && NoSpace(b)
    ensures NoSpace(a + b)
  {
    forall i | 0 <= i < |a + b|
      ensures !IsSpace((a + b)[i])
    {
      if i < |a| {
        assert (a + b)[i] == a[i];
      } else {
        assert (a + b)[i] == b[i - |a|];
      }
    }
  }

  /** A parsed symbol is a non-empty word: a root, then a suffix, and no spaces. */
  lemma SymbolIsWord(token: string)
    requires MatchesGrammar(token)
    ensures ParseChord(token).value.symbol != []
    ensures NoSpace(ParseChord(token).value.symbol)
  {
    var c := ParseChord(token).value;
    MatchTokenSpec(token);
    ParseChordRoot(token);
    UpperRootText(MatchToken(token).value.root);
    assert IsRootText(c.root);
    assert c.symbol == c.root + Suffix(c.chordType);
    RootTextHasNoSpace(c.root);
    SuffixHasNoSpace(c.chordType);
    NoSpaceConcat(c.root, Suffix(c.chordType));
  }

  /** Re-parsing the symbols of parsed chords gives the same chords. */
  lemma {:induction false} ParseAllSymbols(tokens: seq<string>)
    ensures ParseAll(Symbols(ParseAll(tokens))) == ParseAll(tokens)
    ensures forall i :: 0 <= i < |ParseAll(tokens)| ==>
      ParseAll(tokens)[i].symbol != [] && NoSpace(ParseAll(tokens)[i].symbol)
  {
    if tokens != [] {
      ParseAllSymbols(tokens[1..]);
      if ParseChord(tokens[0]).Some? {
        var c := ParseChord(tokens[0]).value;
        SymbolRoundTrip(tokens[0]);
        SymbolIsWord(tokens[0]);
        var rest := ParseAll(tokens[1..]);
        assert ParseAll(tokens) == [c] + rest;
        assert Symbols([c] + rest) == [c.symbol] + Symbols(rest);
        assert ([c.symbol] + Symbols(rest))[1..] == Symbols(rest);
      }
    }
  }

  /**
   * Writing a parsed sequence back as its symbols separated by spaces and
   * parsing that text again gives the same chords.
   */
  lemma SequenceRoundTrip(text: string)
    ensures ParseChordSequence(Join(Symbols(ParseChordSequence(text)))) == ParseChordSequence(text)
  {
    var cs := ParseChordSequence(text);
    ParseAllSymbols(Split(text));
    SplitJoin(Symbols(cs));
  }
}
