/**
 The scoring rules of the lower and upper sections, as the LINQ expressions of
 the source compute them, each next to an independent description of what it
 is meant to recognise and a lemma connecting the two. Both scoring front ends
 (`Category` and `CalculateScore`) evaluate the same expressions; they differ
 only in how they validate the hand and in the large straight, which exists
 here in both forms.
 */
module Rules {
  import opened Dice

  // ---------------------------------------------------------------------
  // The rules as written.

  /** Upper section: `Count(die => die == number) * number`, an unchecked 32-bit product. */
  function UpperRule(h: seq<int>, n: int): int
  {
    Wrap32(Count(h, n) * n)
  }

  /** `GroupBy(d => d).Any(g => g.Count() >= n)`. */
  predicate AnyGroupAtLeast(h: seq<int>, n: int)
  {
    var g := GroupCounts(h);
    exists i :: 0 <= i < |g| && g[i] >= n
  }

  /** Three- and four-of-a-kind: the (checked) sum of the dice when some group is large enough. */
  function NOfAKindRule(h: seq<int>, n: int): Outcome
  {
    if AnyGroupAtLeast(h, n) then CheckedSum(h) else Ok(0)
  }

  /** Full house: the group sizes, largest first, are exactly `[3, 2]`. */
  function FullHouseRule(h: seq<int>): int
  {
    if GroupSizes(h) == [3, 2] then 25 else 0
  }

  /** Yahtzee: exactly one distinct face. */
  function YahtzeeRule(h: seq<int>): int
  {
    if |Dedup(h)| == 1 then 50 else 0
  }

  /** `run.All(num => u.Contains(num))`. */
  predicate ContainsAll(u: seq<int>, run: seq<int>)
  {
    forall k :: 0 <= k < |run| ==> run[k] in u
  }

  /** Small straight: one of the three four-face runs is among the distinct faces. */
  function SmallStraightRule(h: seq<int>): int
  {
    var u := UniqueSorted(h);
    if ContainsAll(u, [1, 2, 3, 4]) || ContainsAll(u, [2, 3, 4, 5]) || ContainsAll(u, [3, 4, 5, 6])
    then 30 else 0
  }

  /** Large straight as `Category` writes it: one of the two five-face runs is among the distinct faces. */
  function SubsetLargeStraightRule(h: seq<int>): int
  {
    var u := UniqueSorted(h);
    if ContainsAll(u, [1, 2, 3, 4, 5]) || ContainsAll(u, [2, 3, 4, 5, 6]) then 40 else 0
  }

  /** Large straight as `CalculateScore` writes it: the sorted distinct faces ARE one of the two runs. */
  function ExactLargeStraightRule(h: seq<int>): int
  {
    var u := UniqueSorted(h);
    if u == [1, 2, 3, 4, 5] || u == [2, 3, 4, 5, 6] then 40 else 0
  }

  // ---------------------------------------------------------------------
  // What the rules are meant to recognise, stated without grouping or sorting.

  /** Some face shows on at least `n` dice. */
  ghost predicate HasNOfAKind(h: seq<int>, n: int)
  {
    exists v :: Count(h, v) >= n
  }

  /** Exactly two faces occur, one on three dice and the other on two. */
  ghost predicate IsFullHouse(h: seq<int>)
  {
    exists a, b :: a != b && Count(h, a) == 3 && Count(h, b) == 2 && OnlyFaces(h, a, b)
  }

  /** Every die shows `a` or `b`. */
  predicate OnlyFaces(h: seq<int>, a: int, b: int)
  {
    forall i :: 0 <= i < |h| ==> h[i] == a || h[i] == b
  }

  /** The hand is non-empty and every die shows the same face. */
  predicate AllSame(h: seq<int>)
  {
    |h| > 0 && forall i :: 0 <= i < |h| ==> h[i] == h[0]
  }

  /** Each of the faces `s .. s + len - 1` occurs in the hand. */
  predicate HasRun(h: seq<int>, s: int, len: nat)
  {
    forall v :: s <= v < s + len ==> v in h
  }

  /** The hand holds a run of `len` consecutive faces within 1..6. */
  ghost predicate HasStraight(h: seq<int>, len: nat)
  {
    exists s :: 1 <= s && s + len <= 7 && HasRun(h, s, len)
  }

  /** The faces that occur are exactly `s .. s + len - 1`. */
  ghost predicate IsRunExactly(h: seq<int>, s: int, len: nat)
  {
    forall v :: v in h <==> s <= v < s + len
  }

  /** The faces that occur are exactly a run of `len` consecutive faces within 1..6. */
  ghost predicate IsExactStraight(h: seq<int>, len: nat)
  {
    exists s :: 1 <= s && s + len <= 7 && IsRunExactly(h, s, len)
  }

  // ---------------------------------------------------------------------
  // The rules recognise what they are meant to.

  /** A face lies among the sorted distinct faces exactly when some die shows it. */
  lemma UniqueSortedMembers(h: seq<int>)
    ensures forall v :: v in UniqueSorted(h) <==> v in h
  {
    var u := UniqueSorted(h);
    forall v
      ensures v in u <==> v in h
    {
      assert v in u <==> v in multiset(u);
      assert v in Dedup(h) <==> v in multiset(Dedup(h));
    }
  }

  /** n-of-a-kind (n >= 1) scores the sum exactly when some face shows on n dice. */
  lemma NOfAKindMeaning(h: seq<int>, n: int)
    requires n >= 1
    ensures NOfAKindRule(h, n) == (if HasNOfAKind(h, n) then ExpectedSum(h) else Ok(0))
  {
    var d, g := Dedup(h), GroupCounts(h);
    if HasNOfAKind(h, n) {
      var v :| Count(h, v) >= n;
      assert v in d;
      var i :| 0 <= i < |d| && d[i] == v;
      assert g[i] >= n;
    }
    if AnyGroupAtLeast(h, n) {
      var i :| 0 <= i < |g| && g[i] >= n;
      assert Count(h, d[i]) >= n;
    }
  }

  /** A sequence holding exactly two different values is one of their two orders. */
  lemma PairOrders(s: seq<int>, x: int, y: int)
    requires x != y
    requires multiset(s) == multiset{x, y}
    ensures s == [x, y] || s == [y, x]
  {
    assert |s| == |multiset(s)| == 2;
    assert s == [s[0], s[1]];
    assert multiset(s) == multiset{s[0], s[1]};
    assert s[0] in multiset(s) && s[1] in multiset(s);
  }

  /** Group sizes `[3, 2]` mean three dice of one face and two of another. */
  lemma FullHouseSound(h: seq<int>)
    requires GroupSizes(h) == [3, 2]
    ensures IsFullHouse(h)
  {
    var d, g := Dedup(h), GroupCounts(h);
    assert multiset(g) == multiset{3, 2};
    PairOrders(g, 3, 2);
    var a, b := if g[0] == 3 then d[0] else d[1], if g[0] == 3 then d[1] else d[0];
    NoDupDistinct(d, 0, 1);
    forall i | 0 <= i < |h|
      ensures h[i] == a || h[i] == b
    {
      assert h[i] in d;
    }
    assert Count(h, a) == 3 && Count(h, b) == 2 && OnlyFaces(h, a, b);
  }

  /** A duplicate-free sequence drawn from two values has at most two elements. */
  lemma NoDupPairBound(d: seq<int>, a: int, b: int)
    requires NoDup(d)
    requires forall k :: 0 <= k < |d| ==> d[k] == a || d[k] == b
    ensures |d| <= 2
  {
    if |d| > 2 {
      NoDupDistinct(d, 0, 1);
      NoDupDistinct(d, 0, 2);
      NoDupDistinct(d, 1, 2);
    }
  }

  /** Three dice of one face and two of another leave exactly those two distinct faces. */
  lemma FullHouseFaces(h: seq<int>, a: int, b: int)
    requires a != b && Count(h, a) == 3 && Count(h, b) == 2 && OnlyFaces(h, a, b)
    ensures Dedup(h) == [a, b] || Dedup(h) == [b, a]
  {
    var d := Dedup(h);
    assert a in d && b in d;
    forall k | 0 <= k < |d|
      ensures d[k] == a || d[k] == b
    {
      assert d[k] in h;
    }
    NoDupPairBound(d, a, b);
    assert |d| == 2 by {
      var i :| 0 <= i < |d| && d[i] == a;
      var j :| 0 <= j < |d| && d[j] == b;
      assert i != j;
    }
    NoDupDistinct(d, 0, 1);
    assert d == [d[0], d[1]];
  }

  /** Three dice of one face and two of another make exactly two groups, of sizes 3 and 2. */
  lemma FullHouseGroups(h: seq<int>, a: int, b: int)
    requires a != b && Count(h, a) == 3 && Count(h, b) == 2 && OnlyFaces(h, a, b)
    ensures multiset(GroupCounts(h)) == multiset{3, 2}
  {
    FullHouseFaces(h, a, b);
    var g := GroupCounts(h);
    if Dedup(h) == [a, b] {
      assert g == [3, 2];
    } else {
      assert g == [2, 3];
    }
  }

  /** Three dice of one face and two of another give group sizes `[3, 2]`. */
  lemma FullHouseComplete(h: seq<int>)
    requires IsFullHouse(h)
    ensures GroupSizes(h) == [3, 2]
  {
    var a, b :| a != b && Count(h, a) == 3 && Count(h, b) == 2 && OnlyFaces(h, a, b);
    FullHouseGroups(h, a, b);
    assert multiset(GroupSizes(h)) == multiset{3, 2};
    PairOrders(GroupSizes(h), 3, 2);
  }

  /** Full house scores 25 exactly for three dice of one face and two of another. */
  lemma FullHouseMeaning(h: seq<int>)
    ensures FullHouseRule(h) == (if IsFullHouse(h) then 25 else 0)
  {
    if GroupSizes(h) == [3, 2] {
      FullHouseSound(h);
    }
    if IsFullHouse(h) {
      FullHouseComplete(h);
    }
  }

  /** Yahtzee scores 50 exactly when the hand is non-empty and every die shows the same face. */
  lemma YahtzeeMeaning(h: seq<int>)
    ensures YahtzeeRule(h) == (if AllSame(h) then 50 else 0)
  {
    var d := Dedup(h);
    if |d| == 1 {
      assert h[0] in d;
      forall i | 0 <= i < |h|
        ensures h[i] == h[0]
      {
        assert h[i] in d;
      }
    }
    if AllSame(h) {
      assert h[0] in d;
      forall k | 0 <= k < |d|
        ensures d[k] == h[0]
      {
        assert d[k] in h;
      }
      if |d| > 1 {
        NoDupDistinct(d, 0, 1);
      }
    }
  }

  /** `ContainsAll` on the sorted distinct faces is a run of faces in the hand. */
  lemma ContainsAllRun(h: seq<int>, s: int, len: nat)
    ensures ContainsAll(UniqueSorted(h), Range(s, len)) <==> HasRun(h, s, len)
  {
    UniqueSortedMembers(h);
    var run := Range(s, len);
    if HasRun(h, s, len) {
      forall k | 0 <= k < |run|
        ensures run[k] in UniqueSorted(h)
      {
        assert run[k] == s + k;
      }
    }
    if ContainsAll(UniqueSorted(h), run) {
      forall v | s <= v < s + len
        ensures v in h
      {
        assert run[v - s] == v;
      }
    }
  }

  /** Small straight scores 30 exactly when the hand holds four consecutive faces within 1..6. */
  lemma SmallStraightMeaning(h: seq<int>)
    ensures SmallStraightRule(h) == (if HasStraight(h, 4) then 30 else 0)
  {
    var u := UniqueSorted(h);
    assert Range(1, 4) == [1, 2, 3, 4];
    assert Range(2, 4) == [2, 3, 4, 5];
    assert Range(3, 4) == [3, 4, 5, 6];
    ContainsAllRun(h, 1, 4);
    ContainsAllRun(h, 2, 4);
    ContainsAllRun(h, 3, 4);
    if HasStraight(h, 4) {
      var s :| 1 <= s && s + 4 <= 7 && HasRun(h, s, 4);
      assert s == 1 || s == 2 || s == 3;
    }
  }

  /** `Category`'s large straight scores 40 exactly when the hand holds five consecutive faces within 1..6. */
  lemma SubsetLargeStraightMeaning(h: seq<int>)
    ensures SubsetLargeStraightRule(h) == (if HasStraight(h, 5) then 40 else 0)
  {
    assert Range(1, 5) == [1, 2, 3, 4, 5];
    assert Range(2, 5) == [2, 3, 4, 5, 6];
    ContainsAllRun(h, 1, 5);
    ContainsAllRun(h, 2, 5);
    if HasStraight(h, 5) {
      var s :| 1 <= s && s + 5 <= 7 && HasRun(h, s, 5);
      assert s == 1 || s == 2;
    }
  }

  /** The sorted distinct faces are the run `s .. s + len - 1` exactly when those are the faces that occur. */
  lemma UniqueSortedIsRun(h: seq<int>, s: int, len: nat)
    ensures UniqueSorted(h) == Range(s, len) <==> IsRunExactly(h, s, len)
  {
    var u := UniqueSorted(h);
    UniqueSortedMembers(h);
    if IsRunExactly(h, s, len) {
      assert NoDup(u) by {
        assert multiset(u) == multiset(Dedup(h));
      }
      SortedNoDupStrict(u);
      StrictExactRange(u, s, len);
    }
    if u == Range(s, len) {
      forall v
        ensures v in h <==> s <= v < s + len
      {
        if s <= v < s + len {
          assert u[v - s] == v;
        }
      }
    }
  }

  /** `CalculateScore`'s large straight scores 40 exactly when the faces that occur are five consecutive faces within 1..6. */
  lemma ExactLargeStraightMeaning(h: seq<int>)
    ensures ExactLargeStraightRule(h) == (if IsExactStraight(h, 5) then 40 else 0)
  {
    assert Range(1, 5) == [1, 2, 3, 4, 5];
    assert Range(2, 5) == [2, 3, 4, 5, 6];
    UniqueSortedIsRun(h, 1, 5);
    UniqueSortedIsRun(h, 2, 5);
    if IsExactStraight(h, 5) {
      var s :| 1 <= s && s + 5 <= 7 && IsRunExactly(h, s, 5);
      assert s == 1 || s == 2;
    }
  }

  // ---------------------------------------------------------------------
  // Relations between the categories.

  /** A four-of-a-kind hand is also a three-of-a-kind hand, and both score the sum. */
  lemma FourOfAKindIsThreeOfAKind(h: seq<int>)
    requires NOfAKindRule(h, 4) != Ok(0)
    ensures NOfAKindRule(h, 3) == NOfAKindRule(h, 4) == ExpectedSum(h)
  {
    NOfAKindMeaning(h, 4);
    NOfAKindMeaning(h, 3);
    var v :| Count(h, v) >= 4;
    assert Count(h, v) >= 3;
  }

  /** A five-dice Yahtzee also scores its sum as four- and three-of-a-kind. */
  lemma YahtzeeIsFourOfAKind(h: seq<int>)
    requires |h| == 5
    requires YahtzeeRule(h) == 50
    ensures NOfAKindRule(h, 4) == ExpectedSum(h)
    ensures NOfAKindRule(h, 3) == ExpectedSum(h)
  {
    YahtzeeMeaning(h);
    UniformCount(h);
    NOfAKindMeaning(h, 4);
    NOfAKindMeaning(h, 3);
    assert Count(h, h[0]) >= 4;
  }

  /** Dice that all show one face are never a full house. */
  lemma AllSameIsNotFullHouse(h: seq<int>)
    requires AllSame(h)
    ensures FullHouseRule(h) == 0
  {
    YahtzeeMeaning(h);
    assert |GroupSizes(h)| == |multiset(GroupCounts(h))| == 1;
  }

  /** A large straight (in `Category`'s form) is also a small straight. */
  lemma LargeStraightIsSmallStraight(h: seq<int>)
    requires SubsetLargeStraightRule(h) == 40
    ensures SmallStraightRule(h) == 30
  {
    SubsetLargeStraightMeaning(h);
    SmallStraightMeaning(h);
    var s :| 1 <= s && s + 5 <= 7 && HasRun(h, s, 5);
    assert HasRun(h, s, 4);
  }

  /** On five dice, holding a five-face run and having exactly those faces are the same thing. */
  lemma FiveDiceRunIsExact(h: seq<int>, s: int)
    requires |h| == 5
    ensures HasRun(h, s, 5) <==> IsRunExactly(h, s, 5)
  {
    if HasRun(h, s, 5) {
      var run := RangeSet(s, 5);
      assert run <= Faces(h);
      FacesSize(h);
      assert Faces(h) == run + (Faces(h) - run);
      assert |Faces(h) - run| == 0;
      forall v | v in h
        ensures s <= v < s + 5
      {
        assert v in Faces(h);
      }
    }
  }

  /** On five dice the two large-straight rules agree. */
  lemma LargeStraightRulesAgreeOnFiveDice(h: seq<int>)
    requires |h| == 5
    ensures SubsetLargeStraightRule(h) == ExactLargeStraightRule(h)
  {
    SubsetLargeStraightMeaning(h);
    ExactLargeStraightMeaning(h);
    FiveDiceRunIsExact(h, 1);
    FiveDiceRunIsExact(h, 2);
    if HasStraight(h, 5) {
      var s :| 1 <= s && s + 5 <= 7 && HasRun(h, s, 5);
      FiveDiceRunIsExact(h, s);
    }
    if IsExactStraight(h, 5) {
      var s :| 1 <= s && s + 5 <= 7 && IsRunExactly(h, s, 5);
      FiveDiceRunIsExact(h, s);
    }
  }

  /** With faces in 1..6, the six upper-section products add up to the sum of the dice. */
  lemma {:induction false} UpperSectionAddsUp(h: seq<int>)
    requires FacesInRange(h)
    ensures Count(h, 1) * 1 + Count(h, 2) * 2 + Count(h, 3) * 3
          + Count(h, 4) * 4 + Count(h, 5) * 5 + Count(h, 6) * 6 == Sum(h)
  {
    if |h| > 0 {
      UpperSectionAddsUp(Init(h));
    }
  }
}
