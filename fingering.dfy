/**
 * What happens to one complete combination of string choices: the finger
 * labels of `assignFingers`, the barre detection of
 * `processFingeringWithBarre` and the hand-shape rules of
 * `isPlayableFingering` (js/chord-logic.js).
 */
module Fingerings {
  import opened Wrappers
  import opened Sorting

  /** What one string does: muted ('x') or stopped at a fret, fret 0 being the open string. */
  datatype Choice = Muted | Fret(n: nat)

  /** The four fretting fingers, index finger first. */
  type FingerId = x: int | 1 <= x <= 4 witness 1

  datatype Barre = Barre(fret: int, fromString: int, toString: int)

  /** `{frets, barre, fingers}`; a null barre or null finger list is `None`. */
  datatype Fingering = Fingering(frets: seq<Choice>, barre: Option<Barre>, fingers: Option<seq<Option<FingerId>>>)

  /** The JavaScript test `frets[i] === fret` for a numeric `fret`. */
  predicate StoppedAt(c: Choice, fret: int)
  {
    c.Fret? && c.n == fret
  }

  /** A string stopped at a fret above the nut. */
  predicate Pressed(c: Choice)
  {
    c.Fret? && c.n > 0
  }

  /** No muted string comes after a sounded one. */
  predicate MutedOnlyLeading(frets: seq<Choice>)
  {
    forall i, j :: 0 <= i < j < |frets| && !frets[i].Muted? ==> !frets[j].Muted?
  }

  /** The left-to-right scan with the `foundNonX` flag, shared by the barre detection and the playability check. */
  method CheckMutedOnlyLeading(frets: seq<Choice>) returns (ok: bool)
    ensures ok <==> MutedOnlyLeading(frets)
  {
    var foundNonX := false;
    var i := 0;
    while i < |frets|
      invariant 0 <= i <= |frets|
      invariant MutedOnlyLeading(frets[..i])
      invariant foundNonX <==> exists k :: 0 <= k < i && !frets[k].Muted?
    {
      if !frets[i].Muted? {
        foundNonX := true;
      } else if foundNonX {
        return false;
      }
      i := i + 1;
    }
    assert frets[..i] == frets;
    return true;
  }

  /** A stopped string: its position and fret. */
  datatype Press = Press(index: nat, fret: nat)

  function PressFret(p: Press): int
  {
    p.fret
  }

  /** The stopped strings among the first `n`, by string index. */
  function PressesUpTo(frets: seq<Choice>, n: nat): (r: seq<Press>)
    requires n <= |frets|
    ensures forall k :: 0 <= k < |r| ==> r[k].index < n && frets[r[k].index] == Fret(r[k].fret) && r[k].fret > 0
    ensures forall k, l :: 0 <= k < l < |r| ==> r[k].index < r[l].index
    ensures forall i :: 0 <= i < n && Pressed(frets[i]) ==> Press(i, frets[i].n) in r
  {
    if n == 0 then []
    else PressesUpTo(frets, n - 1) + (if Pressed(frets[n - 1]) then [Press(n - 1, frets[n - 1].n)] else [])
  }

  function Presses(frets: seq<Choice>): (r: seq<Press>)
  {
    PressesUpTo(frets, |frets|)
  }

  /** The frets of the stopped strings, left to right (`usedFrets`, `numericFrets`). */
  function PressedFrets(frets: seq<Choice>): (r: seq<int>)
    ensures |r| == |Presses(frets)|
    ensures forall k :: 0 <= k < |r| ==> r[k] == Presses(frets)[k].fret
  {
    var ps := Presses(frets);
    seq(|ps|, k requires 0 <= k < |ps| => ps[k].fret)
  }

  predicate InRange(order: seq<Press>, n: int)
  {
    forall k :: 0 <= k < |order| ==> order[k].index < n
  }

  predicate DistinctIndices(order: seq<Press>)
  {
    forall k, l :: 0 <= k < l < |order| ==> order[k].index != order[l].index
  }

  /**
   * The order `assignFingers` visits the stopped strings in: a stable sort
   * by ascending fret, so strings on the same fret keep string order.
   */
  function PressOrder(frets: seq<Choice>): (r: seq<Press>)
    ensures InRange(r, |frets|) && DistinctIndices(r)
    ensures forall k :: 0 <= k < |r| ==> frets[r[k].index] == Fret(r[k].fret) && r[k].fret > 0
  {
    PressOrderFacts(frets);
    SortBy(Presses(frets), PressFret)
  }

  lemma PressOrderFacts(frets: seq<Choice>)
    ensures var r := SortBy(Presses(frets), PressFret);
      InRange(r, |frets|) && DistinctIndices(r) &&
      forall k :: 0 <= k < |r| ==> frets[r[k].index] == Fret(r[k].fret) && r[k].fret > 0
  {
    var s := Presses(frets);
    var r := SortBy(s, PressFret);
    forall k | 0 <= k < |r|
      ensures r[k] in s
    {
      SortByMembers(s, PressFret, k);
    }
    SortByDistinct(s, PressFret);
  }

  /**
   * The finger loop of `assignFingers`: walk `order`, skip strings that
   * already carry a finger, give the others the next finger of `pool`, and
   * fail when the pool runs out.
   */
  function Place(fingers: seq<Option<FingerId>>, order: seq<Press>, pool: seq<FingerId>): (r: Option<seq<Option<FingerId>>>)
    requires InRange(order, |fingers|)
    ensures r.Some? ==> |r.value| == |fingers|
    decreases |order|
  {
    if order == [] then Some(fingers)
    else if fingers[order[0].index].Some? then Place(fingers, order[1..], pool)
    else if pool == [] then None
    else Place(fingers[order[0].index := Some(pool[0])], order[1..], pool[1..])
  }

  /** The strings of `order` that still lack a finger, in visiting order. */
  function Pending(fingers: seq<Option<FingerId>>, order: seq<Press>): (r: seq<Press>)
    requires InRange(order, |fingers|)
    ensures |r| <= |order|
    ensures forall k :: 0 <= k < |r| ==> r[k].index < |fingers| && fingers[r[k].index].None?
  {
    if order == [] then []
    else (if fingers[order[0].index].None? then [order[0]] else []) + Pending(fingers, order[1..])
  }

  predicate Touches(order: seq<Press>, i: int)
  {
    exists k :: 0 <= k < |order| && order[k].index == i
  }

  lemma {:induction false} PendingIgnores(fingers: seq<Option<FingerId>>, order: seq<Press>, i: int, v: Option<FingerId>)
    requires InRange(order, |fingers|) && 0 <= i < |fingers|
    requires !Touches(order, i)
    ensures Pending(fingers[i := v], order) == Pending(fingers, order)
  {
    if order != [] {
      assert order[0].index != i;
      PendingIgnores(fingers, order[1..], i, v);
    }
  }

  lemma TouchesTail(order: seq<Press>, i: int)
    requires order != [] && !Touches(order, i)
    ensures !Touches(order[1..], i)
  {
    var rest := order[1..];
    forall k | 0 <= k < |rest|
      ensures rest[k].index != i
    {
      assert rest[k] == order[k + 1];
    }
  }

  lemma HeadNotInTail(order: seq<Press>)
    requires order != [] && DistinctIndices(order)
    ensures !Touches(order[1..], order[0].index)
  {
    var rest := order[1..];
    forall k | 0 <= k < |rest|
      ensures rest[k].index != order[0].index
    {
      assert rest[k] == order[k + 1];
    }
  }

  /**
   * The finger loop gives the k-th still unfingered string the k-th finger
   * of the pool, leaves every other string as it was, and fails exactly when
   * those strings outnumber the pool.
   */
  lemma {:induction false} PlaceSpec(fingers: seq<Option<FingerId>>, order: seq<Press>, pool: seq<FingerId>)
    requires InRange(order, |fingers|) && DistinctIndices(order)
    ensures var r := Place(fingers, order, pool); var p := Pending(fingers, order);
      (r.Some? <==> |p| <= |pool|) &&
      (r.Some? ==> forall k :: 0 <= k < |p| ==> r.value[p[k].index] == Some(pool[k])) &&
      (r.Some? ==> forall i :: 0 <= i < |fingers| && (fingers[i].Some? || !Touches(order, i)) ==> r.value[i] == fingers[i])
    decreases |order|
  {
    if order != [] {
      var rest := order[1..];
      var idx := order[0].index;
      HeadNotInTail(order);
      forall i | 0 <= i < |fingers| && !Touches(order, i)
        ensures !Touches(rest, i)
      {
        TouchesTail(order, i);
      }
      if fingers[idx].Some? {
        PlaceSpec(fingers, rest, pool);
      } else if pool != [] {
        PlaceStep(fingers, order, pool);
      }
    }
  }

  lemma {:induction false} PlaceStep(fingers: seq<Option<FingerId>>, order: seq<Press>, pool: seq<FingerId>)
    requires InRange(order, |fingers|) && DistinctIndices(order)
    requires order != [] && pool != [] && fingers[order[0].index].None?
    requires forall i :: 0 <= i < |fingers| && !Touches(order, i) ==> !Touches(order[1..], i)
    requires !Touches(order[1..], order[0].index)
    ensures var r := Place(fingers, order, pool); var p := Pending(fingers, order);
      (r.Some? <==> |p| <= |pool|) &&
      (r.Some? ==> forall k :: 0 <= k < |p| ==> r.value[p[k].index] == Some(pool[k])) &&
      (r.Some? ==> forall i :: 0 <= i < |fingers| && (fingers[i].Some? || !Touches(order, i)) ==> r.value[i] == fingers[i])
    decreases |order|, 0
  {
    var rest := order[1..];
    var idx := order[0].index;
    var f2 := fingers[idx := Some(pool[0])];
    PendingIgnores(fingers, rest, idx, Some(pool[0]));
    PlaceSpec(f2, rest, pool[1..]);
    assert Pending(fingers, order) == [order[0]] + Pending(f2, rest);
  }

  /** Finger 1 on every string of the barre range stopped at the barre fret. */
  function BarreBase(frets: seq<Choice>, barre: Option<Barre>): (r: seq<Option<FingerId>>)
    ensures |r| == |frets|
    ensures forall i :: 0 <= i < |r| ==> r[i].Some? ==> r[i] == Some(1)
  {
    seq(|frets|, i requires 0 <= i < |frets| =>
      if barre.Some? && barre.value.fromString <= i <= barre.value.toString && StoppedAt(frets[i], barre.value.fret)
      then Some(1) else None)
  }

  /** `usedFingers` after the barre loop: finger 1 when there is a barre. */
  function UsedFingers(barre: Option<Barre>): set<int>
  {
    if barre.Some? then {1} else {}
  }

  /** `fingers.filter(f => !used.has(f))`: the fingers not in `used`, in their order. */
  function Unused(fingers: seq<FingerId>, used: set<int>): (r: seq<FingerId>)
    ensures |r| <= |fingers|
    ensures forall x :: x in r <==> x in fingers && x as int !in used
  {
    if fingers == [] then []
    else (if fingers[0] as int in used then [] else [fingers[0]]) + Unused(fingers[1..], used)
  }

  /** `availableFingers`: the four fingers less those the barre took. */
  function Pool(barre: Option<Barre>): seq<FingerId>
  {
    Unused([1, 2, 3, 4], UsedFingers(barre))
  }

  /** The free fingers are all four in order, or 2, 3, 4 once the index finger holds a barre. */
  lemma PoolSpec(barre: Option<Barre>)
    ensures barre.None? ==> Pool(barre) == [1, 2, 3, 4]
    ensures barre.Some? ==> Pool(barre) == [2, 3, 4]
  {
    var all: seq<FingerId> := [1, 2, 3, 4];
    var used := UsedFingers(barre);
    assert all[1..] == [2, 3, 4] && all[1..][1..] == [3, 4] && all[1..][1..][1..] == [4];
    assert Unused([4], used) == [4];
    assert Unused([3, 4], used) == [3, 4];
    assert Unused([2, 3, 4], used) == [2, 3, 4];
  }

  /** assignFingers as a value: `None` stands for its `null`. */
  function Assign(frets: seq<Choice>, barre: Option<Barre>): Option<seq<Option<FingerId>>>
  {
    Place(BarreBase(frets, barre), PressOrder(frets), Pool(barre))
  }

  /** The stopped strings that the barre does not already cover, in the order they receive fingers. */
  function Unbarred(frets: seq<Choice>, barre: Option<Barre>): seq<Press>
  {
    Pending(BarreBase(frets, barre), PressOrder(frets))
  }

  /** The first loop of assignFingers: a fresh finger array with finger 1 along the barre, and the fingers used. */
  method MarkBarre(frets: seq<Choice>, barre: Option<Barre>) returns (fingers: array<Option<FingerId>>, usedFingers: set<int>)
    ensures fresh(fingers)
    ensures fingers[..] == BarreBase(frets, barre)
    ensures usedFingers == UsedFingers(barre)
  {
    fingers := new Option<FingerId>[|frets|](_ => None);
    usedFingers := {};
    if barre.Some? {
      var b := barre.value;
      var i := b.fromString;
      while i <= b.toString
        invariant b.fromString <= i || b.fromString > b.toString
        invariant forall j :: 0 <= j < fingers.Length ==>
          fingers[j] == (if b.fromString <= j < i && j <= b.toString && StoppedAt(frets[j], b.fret) then Some(1) else None)
      {
        if 0 <= i < |frets| && StoppedAt(frets[i], b.fret) {
          fingers[i] := Some(1);
        }
        i := i + 1;
      }
      usedFingers := usedFingers + {1};
    }
  }

  /** The second loop of assignFingers: the next free finger for each string in `order` that has none. */
  method PlaceFingers(fingers: array<Option<FingerId>>, order: seq<Press>, pool: seq<FingerId>, barre: Option<Barre>)
    returns (r: Option<seq<Option<FingerId>>>)
    requires InRange(order, fingers.Length)
    modifies fingers
    ensures r == Place(old(fingers[..]), order, pool)
  {
    var fingerIndex := 0;
    var j := 0;
    while j < |order|
      invariant 0 <= j <= |order| && 0 <= fingerIndex <= |pool|
      invariant Place(fingers[..], order[j..], pool[fingerIndex..]) == Place(old(fingers[..]), order, pool)
    {
      var p := order[j];
      if barre.Some? && p.fret == barre.value.fret && fingers[p.index] == Some(1) {
        j := j + 1;
        continue;
      }
      if fingers[p.index].Some? {
        j := j + 1;
        continue;
      }
      if fingerIndex < |pool| {
        fingers[p.index] := Some(pool[fingerIndex]);
        fingerIndex := fingerIndex + 1;
      } else {
        return None;
      }
      j := j + 1;
    }
    return Some(fingers[..]);
  }

  /** assignFingers: finger 1 along the barre, then one finger per remaining stopped string. */
  method AssignFingers(frets: seq<Choice>, barre: Option<Barre>) returns (r: Option<seq<Option<FingerId>>>)
    ensures r == Assign(frets, barre)
  {
    var fingers, usedFingers := MarkBarre(frets, barre);
    var availableFingers := Unused([1, 2, 3, 4], usedFingers);
    r := PlaceFingers(fingers, PressOrder(frets), availableFingers, barre);
  }

  /** The strings stopped exactly at `fret` among the first `n`, left to right. */
  function StringsAtUpTo(frets: seq<Choice>, fret: int, n: nat): (r: seq<int>)
    requires n <= |frets|
    ensures forall k :: 0 <= k < |r| ==> 0 <= r[k] < n && StoppedAt(frets[r[k]], fret)
    ensures forall k, l :: 0 <= k < l < |r| ==> r[k] < r[l]
    ensures forall i :: 0 <= i < n && StoppedAt(frets[i], fret) ==> i in r
  {
    if n == 0 then []
    else StringsAtUpTo(frets, fret, n - 1) + (if StoppedAt(frets[n - 1], fret) then [n - 1] else [])
  }

  /** `stringsOnMinFret`: the strings stopped at `fret`, left to right. */
  function StringsAt(frets: seq<Choice>, fret: int): seq<int>
  {
    StringsAtUpTo(frets, fret, |frets|)
  }

  /** The fingering without a barre, as every early return of processFingeringWithBarre builds it. */
  function Plain(frets: seq<Choice>): Fingering
  {
    Fingering(frets, None, Assign(frets, None))
  }

  /**
   * The barre processFingeringWithBarre tries: none with an open string or
   * a muted string after a sounded one, none with fewer than two stopped
   * strings or fewer than two strings at the lowest stopped fret, and
   * otherwise the lowest stopped fret from its first to its last string.
   */
  function BarreCandidate(frets: seq<Choice>): Option<Barre>
  {
    if Fret(0) in frets || !MutedOnlyLeading(frets) then None
    else
      var used := PressedFrets(frets);
      if |used| < 2 then None
      else
        var m := MinOf(used);
        var at := StringsAt(frets, m);
        if |at| < 2 then None else Some(Barre(m, MinOf(at), MaxOf(at)))
  }

  /** `fingerCount` as a set: the fingers on strings stopped above `minFret`, other than finger 1. */
  function ExtraFingers(frets: seq<Choice>, fs: seq<Option<FingerId>>, minFret: int): set<Option<FingerId>>
  {
    set i | 0 <= i < |frets| && i < |fs| && frets[i].Fret? && frets[i].n > minFret && fs[i] != Some(1) :: fs[i]
  }

  /** processFingeringWithBarre as a value. */
  function Process(frets: seq<Choice>): Fingering
  {
    match BarreCandidate(frets)
    case None => Plain(frets)
    case Some(b) =>
      match Assign(frets, Some(b))
      case None => Plain(frets)
      case Some(fs) =>
        if |ExtraFingers(frets, fs, b.fret)| > 3 then Plain(frets)
        else Fingering(frets, Some(b), Some(fs))
  }

  method NoBarre(frets: seq<Choice>) returns (r: Fingering)
    ensures r == Plain(frets)
  {
    var fingers := AssignFingers(frets, None);
    r := Fingering(frets, None, fingers);
  }

  /** Steps 1 to 5 of processFingeringWithBarre: the barre to try, or `None` where the source gives up on one. */
  method FindBarre(frets: seq<Choice>) returns (barre: Option<Barre>)
    ensures barre == BarreCandidate(frets)
  {
    if Fret(0) in frets {
      return None;
    }
    var mutedOnlyLeading := CheckMutedOnlyLeading(frets);
    if !mutedOnlyLeading {
      return None;
    }
    var usedFrets := PressedFrets(frets);
    if |usedFrets| < 2 {
      return None;
    }
    var minFret := MinOf(usedFrets);
    var stringsOnMinFret := StringsAt(frets, minFret);
    if |stringsOnMinFret| < 2 {
      return None;
    }
    return Some(Barre(minFret, MinOf(stringsOnMinFret), MaxOf(stringsOnMinFret)));
  }

  /** processFingeringWithBarre: decide whether the lowest stopped fret is held by a barre. */
  method ProcessFingeringWithBarre(frets: seq<Choice>) returns (r: Fingering)
    ensures r == Process(frets)
  {
    var barre := FindBarre(frets);
    if barre.None? {
      r := NoBarre(frets);
      return;
    }
    var minFret := barre.value.fret;
    var fingers := AssignFingers(frets, barre);
    if fingers.None? {
      r := NoBarre(frets);
      return;
    }
    var fingerCount := |ExtraFingers(frets, fingers.value, minFret)|;
    if fingerCount > 3 {
      r := NoBarre(frets);
      return;
    }
    r := Fingering(frets, barre, fingers);
  }

  function FingerAt(fs: seq<Option<FingerId>>, i: int): Option<FingerId>
  {
    if 0 <= i < |fs| then fs[i] else None
  }

  function Abs(x: int): nat
  {
    if x < 0 then -x else x
  }

  /** With a barre, no open string at or after the barre's first string. */
  predicate NoOpenUnderBarre(f: Fingering)
  {
    f.barre.Some? ==> forall i :: 0 <= i < |f.frets| && f.frets[i] == Fret(0) ==> i < f.barre.value.fromString
  }

  /** Every stopped string carries a finger. */
  predicate AllPressedFingered(frets: seq<Choice>, fs: seq<Option<FingerId>>)
  {
    forall i :: 0 <= i < |frets| && Pressed(frets[i]) ==> FingerAt(fs, i).Some?
  }

  /** The stopped frets lie within a span of three frets. */
  predicate SpanOk(frets: seq<Choice>)
  {
    var v := PressedFrets(frets);
    |v| > 0 ==> MaxOf(v) - MinOf(v) <= 3
  }

  /** An entry of `fingerPos`. */
  datatype Placed = Placed(stringIndex: int, fret: int, finger: int)

  function PlacedFinger(p: Placed): int
  {
    p.finger
  }

  /**
   * `fingerPos` before sorting, over the first `n` finger entries: each
   * fingered stopped string, except the strings the barre's index finger
   * holds at the barre fret.
   */
  function FingerPositionsUpTo(frets: seq<Choice>, barre: Option<Barre>, fs: seq<Option<FingerId>>, n: nat): (r: seq<Placed>)
    requires n <= |fs|
    ensures forall k :: 0 <= k < |r| ==>
      0 <= r[k].stringIndex < n && r[k].stringIndex < |frets| &&
      StoppedAt(frets[r[k].stringIndex], r[k].fret) && r[k].fret > 0 &&
      fs[r[k].stringIndex] == Some(r[k].finger)
  {
    if n == 0 then []
    else
      var i := n - 1;
      FingerPositionsUpTo(frets, barre, fs, i) +
        (if fs[i].Some? && i < |frets| && Pressed(frets[i]) &&
            !(barre.Some? && fs[i].value == 1 && frets[i].n == barre.value.fret)
         then [Placed(i, frets[i].n, fs[i].value)] else [])
  }

  function FingerPositions(frets: seq<Choice>, barre: Option<Barre>, fs: seq<Option<FingerId>>): seq<Placed>
  {
    FingerPositionsUpTo(frets, barre, fs, |fs|)
  }

  /** `fingerPos` after the stable sort by finger. */
  function HandOrder(frets: seq<Choice>, barre: Option<Barre>, fs: seq<Option<FingerId>>): seq<Placed>
  {
    SortBy(FingerPositions(frets, barre, fs), PlacedFinger)
  }

  /** Two fingers with consecutive numbers may not stretch over more than four strings plus frets diagonally. */
  predicate StretchOk(a: Placed, b: Placed)
  {
    b.finger == a.finger + 1 ==>
      var stringDist := Abs(b.stringIndex - a.stringIndex);
      var fretDist := Abs(b.fret - a.fret);
      !(stringDist > 0 && fretDist > 0 && stringDist + fretDist > 4)
  }

  predicate ConsecutiveOk(ps: seq<Placed>)
  {
    forall i :: 1 <= i < |ps| ==> StretchOk(ps[i - 1], ps[i])
  }

  /** No two fingers are more than three strings and more than three frets apart. */
  predicate ReachOk(a: Placed, b: Placed)
  {
    !(Abs(a.stringIndex - b.stringIndex) > 3 && Abs(a.fret - b.fret) > 3)
  }

  predicate PairsOk(ps: seq<Placed>)
  {
    forall i, j :: 0 <= i < j < |ps| ==> ReachOk(ps[i], ps[j])
  }

  /** isPlayableFingering: the six hand-shape rules, in the order the source checks them. */
  predicate Playable(f: Fingering)
  {
    f.fingers.Some? &&
    MutedOnlyLeading(f.frets) &&
    NoOpenUnderBarre(f) &&
    AllPressedFingered(f.frets, f.fingers.value) &&
    SpanOk(f.frets) &&
    ConsecutiveOk(HandOrder(f.frets, f.barre, f.fingers.value)) &&
    PairsOk(HandOrder(f.frets, f.barre, f.fingers.value))
  }

  method CheckNoOpenUnderBarre(f: Fingering) returns (ok: bool)
    ensures ok == NoOpenUnderBarre(f)
  {
    if f.barre.Some? {
      var i := 0;
      while i < |f.frets|
        invariant 0 <= i <= |f.frets|
        invariant forall k :: 0 <= k < i && f.frets[k] == Fret(0) ==> k < f.barre.value.fromString
      {
        if f.frets[i] == Fret(0) && i >= f.barre.value.fromString {
          return false;
        }
        i := i + 1;
      }
    }
    return true;
  }

  method CheckAllPressedFingered(frets: seq<Choice>, fs: seq<Option<FingerId>>) returns (ok: bool)
    ensures ok == AllPressedFingered(frets, fs)
  {
    var i := 0;
    while i < |frets|
      invariant 0 <= i <= |frets|
      invariant forall k :: 0 <= k < i && Pressed(frets[k]) ==> FingerAt(fs, k).Some?
    {
      if Pressed(frets[i]) && FingerAt(fs, i).None? {
        return false;
      }
      i := i + 1;
    }
    return true;
  }

  /** The loop that fills `fingerPos`. */
  method CollectFingerPositions(frets: seq<Choice>, barre: Option<Barre>, fs: seq<Option<FingerId>>) returns (ps: seq<Placed>)
    ensures ps == FingerPositions(frets, barre, fs)
  {
    ps := [];
    var i := 0;
    while i < |fs|
      invariant 0 <= i <= |fs|
      invariant ps == FingerPositionsUpTo(frets, barre, fs, i)
    {
      var f := fs[i];
      if f.Some? && i < |frets| && Pressed(frets[i]) {
        if !(barre.Some? && f.value == 1 && frets[i].n == barre.value.fret) {
          ps := ps + [Placed(i, frets[i].n, f.value)];
        }
      }
      i := i + 1;
    }
  }

  method CheckConsecutive(ps: seq<Placed>) returns (ok: bool)
    ensures ok == ConsecutiveOk(ps)
  {
    var i := 1;
    while i < |ps|
      invariant 1 <= i <= |ps| || |ps| == 0
      invariant forall k :: 1 <= k < i && k < |ps| ==> StretchOk(ps[k - 1], ps[k])
    {
      var prev := ps[i - 1];
      var curr := ps[i];
      if curr.finger == prev.finger + 1 {
        var stringDist := Abs(curr.stringIndex - prev.stringIndex);
        var fretDist := Abs(curr.fret - prev.fret);
        if stringDist > 0 && fretDist > 0 && stringDist + fretDist > 4 {
          assert !StretchOk(ps[i - 1], ps[i]);
          return false;
        }
      }
      i := i + 1;
    }
    return true;
  }

  method CheckPairs(ps: seq<Placed>) returns (ok: bool)
    ensures ok == PairsOk(ps)
  {
    var i := 0;
    while i < |ps|
      invariant 0 <= i <= |ps|
      invariant forall a, b :: 0 <= a < i && a < b < |ps| ==> ReachOk(ps[a], ps[b])
    {
      var j := i + 1;
      while j < |ps|
        invariant i + 1 <= j <= |ps| || j == i + 1
        invariant forall a, b :: 0 <= a < i && a < b < |ps| ==> ReachOk(ps[a], ps[b])
        invariant forall b :: i < b < j && b < |ps| ==> ReachOk(ps[i], ps[b])
      {
        var stringDist := Abs(ps[i].stringIndex - ps[j].stringIndex);
        var fretDist := Abs(ps[i].fret - ps[j].fret);
        if stringDist > 3 && fretDist > 3 {
          assert !ReachOk(ps[i], ps[j]);
          return false;
        }
        j := j + 1;
      }
      i := i + 1;
    }
    return true;
  }

  /** isPlayableFingering. */
  method IsPlayableFingering(f: Fingering) returns (ok: bool)
    ensures ok == Playable(f)
  {
    if f.fingers.None? {
      return false;
    }
    var frets, barre, fingers := f.frets, f.barre, f.fingers.value;
    ok := CheckMutedOnlyLeading(frets);
    if !ok {
      return;
    }
    ok := CheckNoOpenUnderBarre(f);
    if !ok {
      return;
    }
    ok := CheckAllPressedFingered(frets, fingers);
    if !ok {
      return;
    }
    var numericFrets := PressedFrets(frets);
    if |numericFrets| > 0 {
      var minFret := MinOf(numericFrets);
      var maxFret := MaxOf(numericFrets);
      if maxFret - minFret > 3 {
        return false;
      }
    }
    var fingerPos := CollectFingerPositions(frets, barre, fingers);
    fingerPos := SortBy(fingerPos, PlacedFinger);
    ok := CheckConsecutive(fingerPos);
    if !ok {
      return;
    }
    ok := CheckPairs(fingerPos);
  }
}
