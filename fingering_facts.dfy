/**
 * What the finger labels, the barre detection and the hand-shape rules
 * guarantee, and the rules of isPlayableFingering that a fingering coming
 * out of processFingeringWithBarre can never break.
 */
module FingeringFacts {
  import opened Wrappers
  import opened Sorting
  import opened Fingerings

  /** `a` comes before `b` when visiting: lower fret, or the same fret and a lower string. */
  predicate Before(a: Press, b: Press)
  {
    a.fret < b.fret || (a.fret == b.fret && a.index < b.index)
  }

  predicate VisitOrder(s: seq<Press>)
  {
    forall k, l :: 0 <= k < l < |s| ==> Before(s[k], s[l])
  }

  lemma VisitCons(h: Press, s: seq<Press>)
    requires VisitOrder(s)
    requires forall l :: 0 <= l < |s| ==> Before(h, s[l])
    ensures VisitOrder([h] + s)
  {
    forall k, l | 0 <= k < l < |[h] + s|
      ensures Before(([h] + s)[k], ([h] + s)[l])
    {
      if k > 0 {
        assert ([h] + s)[k] == s[k - 1];
      }
      assert ([h] + s)[l] == s[l - 1];
    }
  }

  lemma {:induction false} InsertVisitOrder(x: Press, t: seq<Press>)
    requires VisitOrder(t)
    requires forall e :: e in t ==> x.index < e.index
    ensures VisitOrder(InsertBy(x, t, PressFret))
  {
    if t == [] || PressFret(x) <= PressFret(t[0]) {
      forall l | 0 <= l < |t|
        ensures Before(x, t[l])
      {
        assert t[l] in t;
        if l > 0 {
          assert Before(t[0], t[l]);
        }
      }
      VisitCons(x, t);
    } else {
      var rest := InsertBy(x, t[1..], PressFret);
      InsertVisitOrder(x, t[1..]);
      forall l | 0 <= l < |rest|
        ensures Before(t[0], rest[l])
      {
        InsertedFrom(x, t, rest[l]);
      }
      VisitCons(t[0], rest);
    }
  }

  /** An element after the head of a non-trivial insertion is `x` or comes from the tail. */
  lemma InsertedFrom(x: Press, t: seq<Press>, e: Press)
    requires t != [] && VisitOrder(t) && PressFret(x) > PressFret(t[0])
    requires e in InsertBy(x, t[1..], PressFret)
    ensures Before(t[0], e)
  {
    assert e in multiset(InsertBy(x, t[1..], PressFret));
    if e != x {
      assert e in t[1..];
      var m :| 0 <= m < |t[1..]| && t[1..][m] == e;
      assert t[m + 1] == e;
    }
  }

  lemma {:induction false} SortVisitOrder(s: seq<Press>)
    requires forall k, l :: 0 <= k < l < |s| ==> s[k].index < s[l].index
    ensures VisitOrder(SortBy(s, PressFret))
  {
    if s != [] {
      SortVisitOrder(s[1..]);
      var t := SortBy(s[1..], PressFret);
      forall e | e in t
        ensures s[0].index < e.index
      {
        assert e in multiset(t);
        var m :| 0 <= m < |s[1..]| && s[1..][m] == e;
        assert s[m + 1] == e;
      }
      InsertVisitOrder(s[0], t);
    }
  }

  /**
   * assignFingers visits the stopped strings by ascending fret, and strings
   * on the same fret from the lowest string index up.
   */
  lemma PressOrderVisits(frets: seq<Choice>)
    ensures VisitOrder(PressOrder(frets))
  {
    SortVisitOrder(Presses(frets));
  }

  lemma {:induction false} PendingMembers(fingers: seq<Option<FingerId>>, order: seq<Press>)
    requires InRange(order, |fingers|)
    ensures forall k :: 0 <= k < |Pending(fingers, order)| ==> Pending(fingers, order)[k] in order
  {
    if order != [] {
      PendingMembers(fingers, order[1..]);
    }
  }

  /** Skipping the strings that already carry a finger keeps the visiting order. */
  lemma {:induction false} PendingVisitOrder(fingers: seq<Option<FingerId>>, order: seq<Press>)
    requires InRange(order, |fingers|) && VisitOrder(order)
    ensures VisitOrder(Pending(fingers, order))
  {
    if order != [] {
      var rest := order[1..];
      PendingVisitOrder(fingers, rest);
      PendingMembers(fingers, rest);
      var p := Pending(fingers, rest);
      forall l | 0 <= l < |p|
        ensures order[0].fret < p[l].fret || (order[0].fret == p[l].fret && order[0].index < p[l].index)
      {
        var m :| 0 <= m < |rest| && rest[m] == p[l];
        assert order[m + 1] == p[l];
      }
    }
  }

  /** A string of `order` still without a finger is among the pending ones. */
  lemma {:induction false} PendingHas(fingers: seq<Option<FingerId>>, order: seq<Press>, k: int)
    requires InRange(order, |fingers|) && 0 <= k < |order|
    requires fingers[order[k].index].None?
    ensures order[k] in Pending(fingers, order)
  {
    if k > 0 {
      PendingHas(fingers, order[1..], k - 1);
    }
  }

  /** A stopped string is visited by the finger loop. */
  lemma PressVisited(frets: seq<Choice>, i: int)
    requires 0 <= i < |frets| && Pressed(frets[i])
    ensures Press(i, frets[i].n) in PressOrder(frets)
  {
    assert Press(i, frets[i].n) in Presses(frets);
    assert Press(i, frets[i].n) in multiset(PressOrder(frets));
  }

  /** assignFingers fails exactly when the strings outside the barre outnumber the pool of free fingers. */
  lemma AssignFailsExactly(frets: seq<Choice>, barre: Option<Barre>)
    ensures Assign(frets, barre).Some? <==> |Unbarred(frets, barre)| <= |Pool(barre)|
    ensures Assign(frets, barre).Some? ==> |Assign(frets, barre).value| == |frets|
  {
    PlaceSpec(BarreBase(frets, barre), PressOrder(frets), Pool(barre));
  }

  /**
   * The strings outside the barre are visited by ascending fret, ties by
   * string; the k-th of them gets the k-th finger of the pool, so their
   * fingers are distinct and grow along the visiting order.
   */
  lemma AssignUnbarred(frets: seq<Choice>, barre: Option<Barre>)
    ensures VisitOrder(Unbarred(frets, barre))
    ensures var r := Assign(frets, barre); var u := Unbarred(frets, barre);
      r.Some? ==> |u| <= |Pool(barre)| && forall k :: 0 <= k < |u| ==> r.value[u[k].index] == Some(Pool(barre)[k])
    ensures var r := Assign(frets, barre); var u := Unbarred(frets, barre);
      r.Some? ==> forall k, l :: 0 <= k < l < |u| ==> r.value[u[k].index].value < r.value[u[l].index].value
  {
    PlaceSpec(BarreBase(frets, barre), PressOrder(frets), Pool(barre));
    PoolSpec(barre);
    PressOrderVisits(frets);
    PendingVisitOrder(BarreBase(frets, barre), PressOrder(frets));
  }

  /** The strings under the barre keep finger 1. */
  lemma AssignKeepsBarre(frets: seq<Choice>, barre: Option<Barre>)
    ensures var r := Assign(frets, barre);
      r.Some? ==> forall i :: 0 <= i < |frets| && BarreBase(frets, barre)[i].Some? ==> r.value[i] == Some(1)
  {
    PlaceSpec(BarreBase(frets, barre), PressOrder(frets), Pool(barre));
  }

  lemma PressedGetsFinger(frets: seq<Choice>, barre: Option<Barre>, i: int)
    requires Assign(frets, barre).Some? && 0 <= i < |frets| && Pressed(frets[i])
    ensures |Assign(frets, barre).value| == |frets| && Assign(frets, barre).value[i].Some?
  {
    var base := BarreBase(frets, barre);
    var order := PressOrder(frets);
    PlaceSpec(base, order, Pool(barre));
    if base[i].None? {
      PressVisited(frets, i);
      var k :| 0 <= k < |order| && order[k] == Press(i, frets[i].n);
      PendingHas(base, order, k);
    }
  }

  lemma MutedGetsNoFinger(frets: seq<Choice>, barre: Option<Barre>, i: int)
    requires Assign(frets, barre).Some? && 0 <= i < |frets| && frets[i].Muted?
    ensures |Assign(frets, barre).value| == |frets| && Assign(frets, barre).value[i].None?
  {
    var order := PressOrder(frets);
    PlaceSpec(BarreBase(frets, barre), order, Pool(barre));
    assert !Touches(order, i);
  }

  /** Every stopped string gets a finger, and no muted string does. */
  lemma AssignCoversPresses(frets: seq<Choice>, barre: Option<Barre>)
    ensures var r := Assign(frets, barre);
      r.Some? ==> (|r.value| == |frets| &&
        (forall i :: 0 <= i < |frets| && Pressed(frets[i]) ==> r.value[i].Some?) &&
        (forall i :: 0 <= i < |frets| && frets[i].Muted? ==> r.value[i].None?))
  {
    var r := Assign(frets, barre);
    if r.Some? {
      AssignFailsExactly(frets, barre);
      forall i | 0 <= i < |frets| && Pressed(frets[i])
        ensures r.value[i].Some?
      {
        PressedGetsFinger(frets, barre, i);
      }
      forall i | 0 <= i < |frets| && frets[i].Muted?
        ensures r.value[i].None?
      {
        MutedGetsNoFinger(frets, barre, i);
      }
    }
  }

  /**
   * A barre on the lowest stopped fret, from the first to the last string
   * stopped there, on a fingering with no open string and no muted string
   * after a sounded one.
   */
  predicate BarreShape(frets: seq<Choice>, b: Barre)
  {
    Fret(0) !in frets && MutedOnlyLeading(frets) && b.fret > 0 &&
    (forall i :: 0 <= i < |frets| && Pressed(frets[i]) ==> b.fret <= frets[i].n) &&
    0 <= b.fromString < b.toString < |frets| &&
    StoppedAt(frets[b.fromString], b.fret) && StoppedAt(frets[b.toString], b.fret) &&
    (forall i :: 0 <= i < |frets| && StoppedAt(frets[i], b.fret) ==> b.fromString <= i <= b.toString)
  }

  /**
   * The barre processFingeringWithBarre tries has that shape, and its fret
   * is one of at least two stopped frets.
   */
  lemma CandidateShape(frets: seq<Choice>)
    requires BarreCandidate(frets).Some?
    ensures BarreShape(frets, BarreCandidate(frets).value)
    ensures |PressedFrets(frets)| >= 2 && BarreCandidate(frets).value.fret in PressedFrets(frets)
  {
    var b := BarreCandidate(frets).value;
    var used := PressedFrets(frets);
    var at := StringsAt(frets, b.fret);
    forall i | 0 <= i < |frets| && Pressed(frets[i])
      ensures b.fret <= frets[i].n
    {
      var k :| 0 <= k < |Presses(frets)| && Presses(frets)[k] == Press(i, frets[i].n);
      assert used[k] == frets[i].n;
    }
    assert MinOf(at) <= at[0] < at[1] <= MaxOf(at);
  }

  /** Under such a barre, finger 1 goes to exactly the strings stopped at the barre fret. */
  lemma ShapeBase(frets: seq<Choice>, b: Barre, i: int)
    requires BarreShape(frets, b) && 0 <= i < |frets|
    ensures BarreBase(frets, Some(b))[i].Some? <==> StoppedAt(frets[i], b.fret)
  {
  }

  lemma UnbarredAbovePoint(frets: seq<Choice>, b: Barre, k: int)
    requires BarreShape(frets, b) && 0 <= k < |Unbarred(frets, Some(b))|
    ensures Unbarred(frets, Some(b))[k].fret > b.fret
  {
    var u := Unbarred(frets, Some(b));
    PendingMembers(BarreBase(frets, Some(b)), PressOrder(frets));
    assert u[k] in PressOrder(frets);
    ShapeBase(frets, b, u[k].index);
  }

  lemma AboveIsUnbarred(frets: seq<Choice>, b: Barre, i: int)
    requires BarreShape(frets, b) && 0 <= i < |frets| && Pressed(frets[i]) && frets[i].n > b.fret
    ensures Press(i, frets[i].n) in Unbarred(frets, Some(b))
  {
    var order := PressOrder(frets);
    PressVisited(frets, i);
    var k :| 0 <= k < |order| && order[k] == Press(i, frets[i].n);
    ShapeBase(frets, b, i);
    PendingHas(BarreBase(frets, Some(b)), order, k);
  }

  /** Under such a barre, the strings left for fingers 2 to 4 are the strings stopped above the barre fret. */
  lemma ShapeUnbarred(frets: seq<Choice>, b: Barre)
    requires BarreShape(frets, b)
    ensures var u := Unbarred(frets, Some(b));
      (forall k :: 0 <= k < |u| ==> u[k].fret > b.fret) &&
      (forall i :: 0 <= i < |frets| && Pressed(frets[i]) && frets[i].n > b.fret ==> Press(i, frets[i].n) in u)
  {
    var u := Unbarred(frets, Some(b));
    forall k | 0 <= k < |u|
      ensures u[k].fret > b.fret
    {
      UnbarredAbovePoint(frets, b, k);
    }
    forall i | 0 <= i < |frets| && Pressed(frets[i]) && frets[i].n > b.fret
      ensures Press(i, frets[i].n) in u
    {
      AboveIsUnbarred(frets, b, i);
    }
  }

  lemma {:induction false} SubsetSize<T>(a: set<T>, b: set<T>)
    requires a <= b
    ensures |a| <= |b|
    decreases b
  {
    if a != {} {
      var x :| x in a;
      SubsetSize(a - {x}, b - {x});
    }
  }

  /**
   * Line 131 of js/chord-logic.js never fires: with the barre's index
   * finger taken, at most three other fingers are in use, all from the
   * pool 2, 3, 4.
   */
  lemma FingerCountAtMostThree(frets: seq<Choice>, b: Barre, fs: seq<Option<FingerId>>)
    requires BarreShape(frets, b) && Assign(frets, Some(b)) == Some(fs)
    ensures forall i :: 0 <= i < |frets| && i < |fs| && frets[i].Fret? && frets[i].n > b.fret ==>
      fs[i] in {Some(2), Some(3), Some(4)}
    ensures |ExtraFingers(frets, fs, b.fret)| <= 3
  {
    var u := Unbarred(frets, Some(b));
    AssignUnbarred(frets, Some(b));
    forall i | 0 <= i < |frets| && i < |fs| && frets[i].Fret? && frets[i].n > b.fret
      ensures fs[i] in {Some(2), Some(3), Some(4)}
    {
      AboveIsUnbarred(frets, b, i);
      var k :| 0 <= k < |u| && u[k] == Press(i, frets[i].n);
      PoolSpec(Some(b));
      assert fs[i] == Some(Pool(Some(b))[k]);
    }
    FewExtraFingers(frets, fs, b.fret);
  }

  /** Fingers drawn from 2, 3, 4 are at most three. */
  lemma FewExtraFingers(frets: seq<Choice>, fs: seq<Option<FingerId>>, minFret: int)
    requires forall i :: 0 <= i < |frets| && i < |fs| && frets[i].Fret? && frets[i].n > minFret ==>
      fs[i] in {Some(2), Some(3), Some(4)}
    ensures |ExtraFingers(frets, fs, minFret)| <= 3
  {
    var pool: set<Option<FingerId>> := {Some(2), Some(3), Some(4)};
    assert ExtraFingers(frets, fs, minFret) <= pool;
    SubsetSize(ExtraFingers(frets, fs, minFret), pool);
  }

  /**
   * processFingeringWithBarre keeps the frets, labels them with
   * assignFingers for the barre it settles on, and settles on the candidate
   * barre exactly when at most three stopped strings lie outside it.
   */
  lemma ProcessSpec(frets: seq<Choice>)
    ensures var f := Process(frets);
      f.frets == frets &&
      f.fingers == Assign(frets, f.barre) &&
      (f.barre.Some? ==> f.barre == BarreCandidate(frets)) &&
      (f.barre.Some? <==> BarreCandidate(frets).Some? && |Unbarred(frets, BarreCandidate(frets))| <= 3)
  {
    var c := BarreCandidate(frets);
    if c.Some? {
      var b := c.value;
      CandidateShape(frets);
      AssignFailsExactly(frets, c);
      PoolSpec(c);
      match Assign(frets, c)
      case None =>
      case Some(fs) =>
        FingerCountAtMostThree(frets, b, fs);
        assert Process(frets) == Fingering(frets, c, Some(fs));
    }
  }

  /** A barre holds finger 1 on its first and its last string. */
  lemma BarreEndsFingerOne(frets: seq<Choice>)
    requires Process(frets).barre.Some?
    ensures var f := Process(frets); var b := f.barre.value;
      f.fingers.Some? && 0 <= b.fromString < b.toString < |f.fingers.value| &&
      f.fingers.value[b.fromString] == Some(1) && f.fingers.value[b.toString] == Some(1)
  {
    ProcessSpec(frets);
    var b := BarreCandidate(frets);
    CandidateShape(frets);
    AssignFailsExactly(frets, b);
    AssignKeepsBarre(frets, b);
    ShapeBase(frets, b.value, b.value.fromString);
    ShapeBase(frets, b.value, b.value.toString);
  }

  /**
   * Lines 191-197 of js/chord-logic.js never reject a processed fingering:
   * a barre is only chosen when no string is open.
   */
  lemma BarreLeavesNoOpenString(frets: seq<Choice>)
    ensures Process(frets).barre.Some? ==> Fret(0) !in frets
    ensures NoOpenUnderBarre(Process(frets))
  {
    ProcessSpec(frets);
    if Process(frets).barre.Some? {
      CandidateShape(frets);
    }
  }

  /** Lines 200-206 of js/chord-logic.js never reject a processed fingering that has fingers. */
  lemma ProcessedFingersCover(frets: seq<Choice>)
    ensures var f := Process(frets);
      f.fingers.Some? ==> AllPressedFingered(frets, f.fingers.value)
  {
    ProcessSpec(frets);
    var f := Process(frets);
    AssignCoversPresses(frets, f.barre);
  }

  lemma HandOrderFret(frets: seq<Choice>, barre: Option<Barre>, fs: seq<Option<FingerId>>, k: int)
    requires 0 <= k < |HandOrder(frets, barre, fs)|
    ensures HandOrder(frets, barre, fs)[k].fret in PressedFrets(frets)
  {
    var p := HandOrder(frets, barre, fs)[k];
    SortByMembers(FingerPositions(frets, barre, fs), PlacedFinger, k);
    var ps := Presses(frets);
    assert Press(p.stringIndex, p.fret) in ps;
    var m :| 0 <= m < |ps| && ps[m] == Press(p.stringIndex, p.fret);
    assert PressedFrets(frets)[m] == p.fret;
  }

  /**
   * Lines 243-252 of js/chord-logic.js never reject a fingering that passed
   * the span rule of lines 209-216: no two fingers can be more than three
   * frets apart.
   */
  lemma SpanMakesReachOk(frets: seq<Choice>, barre: Option<Barre>, fs: seq<Option<FingerId>>)
    requires SpanOk(frets)
    ensures PairsOk(HandOrder(frets, barre, fs))
  {
    var ps := HandOrder(frets, barre, fs);
    var v := PressedFrets(frets);
    forall i, j | 0 <= i < j < |ps|
      ensures ReachOk(ps[i], ps[j])
    {
      HandOrderFret(frets, barre, fs, i);
      HandOrderFret(frets, barre, fs, j);
      assert MinOf(v) <= ps[i].fret <= MaxOf(v);
      assert MinOf(v) <= ps[j].fret <= MaxOf(v);
    }
  }
}
