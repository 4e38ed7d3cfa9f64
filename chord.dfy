/** The chord deduplicator: the frame's pitches with repeats removed, the
    order-insensitive comparison with the previous frame's chord, and the decision
    whether to sound the chord. */
module Chord {

  predicate Sorted(s: seq<nat>)
  {
    forall i, j :: 0 <= i < j < |s| ==> s[i] <= s[j]
  }

  predicate NoDup(s: seq<nat>)
  {
    forall i, j :: 0 <= i < j < |s| ==> s[i] != s[j]
  }

  function Insert(x: nat, s: seq<nat>): (r: seq<nat>)
    requires Sorted(s)
    ensures Sorted(r) && multiset(r) == multiset(s) + multiset{x}
    ensures |r| == |s| + 1 && (r[0] == x || (s != [] && r[0] == s[0]))
  {
    if s == [] || x <= s[0] then [x] + s
    else
      assert s == [s[0]] + s[1..];
      var rest := Insert(x, s[1..]);
      assert s[0] <= rest[0];
      assert forall j :: 0 <= j < |rest| ==> s[0] <= rest[j];
      [s[0]] + rest
  }

  /** An ascending copy of the pitches. */
  function SortedCopy(s: seq<nat>): (r: seq<nat>)
    ensures Sorted(r) && multiset(r) == multiset(s)
  {
    if s == [] then []
    else
      assert s == [s[0]] + s[1..];
      Insert(s[0], SortedCopy(s[1..]))
  }

  /** The first element of an ascending sequence is its least. */
  lemma SortedHeadLeast(s: seq<nat>, x: nat)
    requires Sorted(s) && x in multiset(s)
    ensures s != [] && s[0] <= x
  {
    assert x in s;
  }

  /** Two ascending sequences with the same elements, counted with multiplicity, are equal. */
  lemma {:induction false} SortedUnique(a: seq<nat>, b: seq<nat>)
    requires Sorted(a) && Sorted(b) && multiset(a) == multiset(b)
    ensures a == b
  {
    if a == [] {
      assert |b| == |multiset(b)| == 0;
    } else {
      assert a[0] in multiset(a);
      SortedHeadLeast(b, a[0]);
      SortedHeadLeast(a, b[0]);
      assert a[0] == b[0];
      assert a == [a[0]] + a[1..];
      assert b == [b[0]] + b[1..];
      assert multiset(a) == multiset{a[0]} + multiset(a[1..]);
      assert multiset(b) == multiset{b[0]} + multiset(b[1..]);
      assert multiset(a[1..]) == multiset(a) - multiset{a[0]};
      assert multiset(b[1..]) == multiset(b) - multiset{b[0]};
      SortedUnique(a[1..], b[1..]);
    }
  }

  /** The comparison of this frame's pitches with the previous frame's: different
      lengths differ; otherwise the ascending copies are compared position by
      position. It holds exactly when both hold the same pitches the same number of
      times, so it ignores order. */
  method ArraysEqual(a: seq<nat>, b: seq<nat>) returns (equal: bool)
    ensures equal <==> multiset(a) == multiset(b)
  {
    if |a| != |b| {
      assert |multiset(a)| != |multiset(b)|;
      return false;
    }
    var sortedA := SortedCopy(a);
    var sortedB := SortedCopy(b);
    assert |sortedA| == |multiset(a)| == |a| && |sortedB| == |multiset(b)| == |b|;
    var i := 0;
    while i < |a|
      invariant 0 <= i <= |a|
      invariant forall k :: 0 <= k < i ==> sortedA[k] == sortedB[k]
    {
      if sortedA[i] != sortedB[i] {
        if multiset(a) == multiset(b) {
          SortedUnique(sortedA, sortedB);
        }
        return false;
      }
      i := i + 1;
    }
    assert sortedA == sortedB;
    return true;
  }

  /** The frame's pitches with repeats removed, each kept at its first occurrence. */
  function Unique(xs: seq<nat>): (r: seq<nat>)
    ensures NoDup(r)
    ensures forall x :: x in r <==> x in xs
    ensures |r| <= |xs|
  {
    if xs == [] then []
    else
      var front := Unique(xs[..|xs| - 1]);
      var x := xs[|xs| - 1];
      assert forall y :: y in xs <==> y in xs[..|xs| - 1] || y == x by {
        assert xs == xs[..|xs| - 1] + [x];
      }
      if x in front then front else front + [x]
  }

  /** Without repeats, having the same elements counted with multiplicity is having
      the same elements, so comparing deduplicated chords is comparing pitch sets. */
  lemma {:induction false} NoDupMultisetIsSet(a: seq<nat>, b: seq<nat>)
    requires NoDup(a) && NoDup(b)
    ensures multiset(a) == multiset(b) <==> (forall x :: x in a <==> x in b)
  {
    if forall x :: x in a <==> x in b {
      forall x
        ensures multiset(a)[x] == multiset(b)[x]
      {
        NoDupCount(a, x);
        NoDupCount(b, x);
      }
      assert multiset(a) == multiset(b);
    }
    if multiset(a) == multiset(b) {
      forall x
        ensures x in a <==> x in b
      {
        assert x in a <==> x in multiset(a);
        assert x in b <==> x in multiset(b);
      }
    }
  }

  lemma {:induction false} NoDupCount(s: seq<nat>, x: nat)
    requires NoDup(s)
    ensures multiset(s)[x] == if x in s then 1 else 0
  {
    if s != [] {
      assert s == [s[0]] + s[1..];
      assert NoDup(s[1..]);
      NoDupCount(s[1..], x);
      assert s[0] !in s[1..];
    }
  }

  /** What one frame does to the chord: sound it when it is non-empty and differs
      from the remembered one, forget the remembered chord when the frame is silent. */
  datatype ChordOutcome = ChordOutcome(play: bool, last: seq<nat>)

  function ChordStep(unique: seq<nat>, last: seq<nat>): ChordOutcome
  {
    if |unique| > 0 && multiset(unique) != multiset(last) then ChordOutcome(true, unique)
    else if |unique| == 0 && |last| > 0 then ChordOutcome(false, [])
    else ChordOutcome(false, last)
  }

  /** After any frame the remembered chord holds the frame's pitches (as a multiset),
      and it is replaced by the frame's own list exactly when the chord is sounded;
      a chord sounds exactly when it is non-empty and differs from the remembered one. */
  lemma ChordStepFollows(unique: seq<nat>, last: seq<nat>)
    ensures var o := ChordStep(unique, last);
            multiset(o.last) == multiset(unique) &&
            (o.play <==> unique != [] && multiset(unique) != multiset(last)) &&
            (o.play ==> o.last == unique)
  {
    if unique == [] && last == [] {
      assert multiset(last) == multiset{};
    }
  }

  /** The chords sounded over a run of frames, starting from a remembered chord. */
  function PlayLog(frames: seq<seq<nat>>, last: seq<nat>): seq<seq<nat>>
  {
    if frames == [] then []
    else
      var o := ChordStep(frames[0], last);
      (if o.play then [frames[0]] else []) + PlayLog(frames[1..], o.last)
  }

  /** Holding a chord that is already remembered sounds nothing. */
  lemma {:induction false} HeldChordSilent(frames: seq<seq<nat>>, last: seq<nat>)
    requires last != []
    requires forall k :: 0 <= k < |frames| ==> multiset(frames[k]) == multiset(last)
    ensures PlayLog(frames, last) == []
  {
    if frames != [] {
      ChordStepFollows(frames[0], last);
      assert frames[0] != [] by {
        assert |multiset(frames[0])| == |multiset(last)| > 0;
      }
      HeldChordSilent(frames[1..], last);
    }
  }

  /** Holding the same non-empty chord over consecutive frames sounds it once, on the
      first frame, unless it was already remembered. */
  lemma HeldChordPlaysOnce(frames: seq<seq<nat>>, last: seq<nat>)
    requires frames != [] && frames[0] != []
    requires forall k :: 0 <= k < |frames| ==> multiset(frames[k]) == multiset(frames[0])
    ensures PlayLog(frames, last) == if multiset(last) == multiset(frames[0]) then [] else [frames[0]]
  {
    var o := ChordStep(frames[0], last);
    ChordStepFollows(frames[0], last);
    assert o.last != [] by {
      assert |multiset(o.last)| == |multiset(frames[0])| > 0;
    }
    HeldChordSilent(frames[1..], o.last);
  }
}
