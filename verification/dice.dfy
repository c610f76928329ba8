/**
 The vocabulary the scoring rules are written in: a hand is a sequence of die
 faces (`seq<int>`, faces are never range-checked), and the LINQ operators the
 rules use (`Count`, `Sum`, `Distinct`, `OrderBy`, `GroupBy`) become recursive
 functions over it. Also holds the scoring outcome type shared by both scoring
 front ends.
 */
module Dice {

  /** Why scoring failed: the two `ArgumentException`s of the scoring code, and the
      `OverflowException` of LINQ's checked `Sum`. */
  datatype ScoreError =
    | NotFiveDice   // the hand does not hold exactly five dice
    | EmptyHand     // the hand holds no dice at all
    | Overflow      // a running sum of the faces left the 32-bit range

  /** The result of a scoring call: a score, or the reason there is none. */
  datatype Outcome = Ok(value: int) | Err(error: ScoreError)

  const Int32Min: int := -0x8000_0000
  const Int32Max: int := 0x7fff_ffff

  predicate InInt32(x: int)
  {
    Int32Min <= x <= Int32Max
  }

  /** C#'s unchecked 32-bit `int` arithmetic: reduces `x` into the 32-bit range modulo 2^32. */
  function Wrap32(x: int): (r: int)
    ensures InInt32(r)
    ensures InInt32(x) ==> r == x
    ensures (r - x) % 0x1_0000_0000 == 0
  {
    (x - Int32Min) % 0x1_0000_0000 + Int32Min
  }

  /** All but the last die of a non-empty hand. */
  function Init(h: seq<int>): seq<int>
    requires |h| > 0
  {
    h[..|h| - 1]
  }

  /** Number of dice in `h` that show face `v`. */
  function Count(h: seq<int>, v: int): (n: nat)
    ensures n == multiset(h)[v]
    ensures n <= |h|
    ensures n > 0 <==> v in h
  {
    if |h| == 0 then 0
    else
      assert h == Init(h) + [h[|h| - 1]];
      Count(Init(h), v) + (if h[|h| - 1] == v then 1 else 0)
  }

  /** The exact sum of all faces; `CheckedSum` below is what LINQ's checked `Sum()` makes of it. */
  function Sum(h: seq<int>): int
  {
    if |h| == 0 then 0 else Sum(Init(h)) + h[|h| - 1]
  }

  /** Every running sum `h[0] + … + h[k - 1]` lies in the 32-bit range. */
  predicate SumFits(h: seq<int>)
  {
    forall k :: 0 <= k <= |h| ==> InInt32(Sum(h[..k]))
  }

  /** What LINQ's checked `Sum()` yields: the sum, unless some running sum overflows. */
  ghost function ExpectedSum(h: seq<int>): Outcome
  {
    if SumFits(h) then Ok(Sum(h)) else Err(Overflow)
  }

  /** LINQ's `Sum()` on a `List<int>`: adds left to right and throws once a running sum overflows. */
  function CheckedSum(h: seq<int>): (r: Outcome)
    ensures r == ExpectedSum(h)
  {
    if |h| == 0 then Ok(0)
    else
      var before := CheckedSum(Init(h));
      assert forall k :: 0 <= k <= |h| - 1 ==> Init(h)[..k] == h[..k];
      assert h[..|h|] == h;
      if before.Err? then before
      else if InInt32(before.value + h[|h| - 1]) then Ok(before.value + h[|h| - 1])
      else Err(Overflow)
  }

  /** The set of faces that occur in `h`. */
  function Faces(h: seq<int>): set<int>
  {
    set v | v in h
  }

  /** No value occurs twice in `s`. */
  ghost predicate NoDup(s: seq<int>)
  {
    forall v :: multiset(s)[v] <= 1
  }

  /** `Distinct()`: every face of `h` once, in order of first occurrence. */
  function Dedup(h: seq<int>): (d: seq<int>)
    ensures NoDup(d)
    ensures forall v :: v in d <==> v in h
    ensures |d| <= |h|
  {
    if |h| == 0 then []
    else
      assert h == Init(h) + [h[|h| - 1]];
      var rest := Dedup(Init(h));
      var x := h[|h| - 1];
      if x in rest then rest else rest + [x]
  }

  /** The two orders the rules sort in: `OrderBy` and `OrderByDescending`. */
  datatype Direction = Ascending | Descending

  predicate InOrder(a: int, b: int, dir: Direction)
  {
    match dir
    case Ascending => a <= b
    case Descending => a >= b
  }

  predicate Sorted(s: seq<int>, dir: Direction)
  {
    forall i, j :: 0 <= i < j < |s| ==> InOrder(s[i], s[j], dir)
  }

  /** Inserts `x` into the sorted sequence `s`, keeping it sorted. */
  function Insert(x: int, s: seq<int>, dir: Direction): (r: seq<int>)
    requires Sorted(s, dir)
    ensures Sorted(r, dir)
    ensures multiset(r) == multiset(s) + multiset{x}
  {
    if |s| == 0 then [x]
    else if InOrder(x, s[0], dir) then [x] + s
    else
      var t := Insert(x, s[1..], dir);
      assert s == [s[0]] + s[1..];
      assert forall k :: 0 <= k < |t| ==> InOrder(s[0], t[k], dir) by {
        forall k | 0 <= k < |t|
          ensures InOrder(s[0], t[k], dir)
        {
          assert t[k] in multiset(s[1..]) + multiset{x};
          if t[k] != x {
            assert t[k] in s[1..];
          }
        }
      }
      SortedCons(s[0], t, dir);
      [s[0]] + t
  }

  /** Putting a value in front of a sorted sequence it precedes keeps it sorted. */
  lemma SortedCons(a: int, t: seq<int>, dir: Direction)
    requires Sorted(t, dir)
    requires forall k :: 0 <= k < |t| ==> InOrder(a, t[k], dir)
    ensures Sorted([a] + t, dir)
  {
    var r := [a] + t;
    forall i, j | 0 <= i < j < |r|
      ensures InOrder(r[i], r[j], dir)
    {
      if i > 0 {
        assert r[i] == t[i - 1] && r[j] == t[j - 1];
      }
    }
  }

  /** Insertion sort: a sorted permutation of `s`. */
  function Sort(s: seq<int>, dir: Direction): (r: seq<int>)
    ensures Sorted(r, dir)
    ensures multiset(r) == multiset(s)
  {
    if |s| == 0 then []
    else
      assert s == [s[0]] + s[1..];
      Insert(s[0], Sort(s[1..], dir), dir)
  }

  /** How many dice of `h` show each of the faces `d[0], d[1], …`, in that order. */
  function CountsOf(h: seq<int>, d: seq<int>): (g: seq<int>)
    ensures |g| == |d|
    ensures forall i :: 0 <= i < |d| ==> g[i] == Count(h, d[i])
  {
    if |d| == 0 then [] else CountsOf(h, Init(d)) + [Count(h, d[|d| - 1])]
  }

  /** The size of each `GroupBy` group, one per distinct face, in first-occurrence order:
      every group holds at least one die, and the groups together hold every die once. */
  function GroupCounts(h: seq<int>): (g: seq<int>)
    ensures |g| == |Dedup(h)|
    ensures forall i :: 0 <= i < |g| ==> g[i] == Count(h, Dedup(h)[i])
    ensures forall i :: 0 <= i < |g| ==> g[i] >= 1
    ensures Sum(g) == |h|
  {
    CountsCoverHand(h, Dedup(h));
    CountsOf(h, Dedup(h))
  }

  /** Counting in the empty hand gives zero for every face. */
  lemma {:induction false} CountsOfEmpty(d: seq<int>)
    ensures Sum(CountsOf([], d)) == 0
  {
    if |d| > 0 {
      CountsOfEmpty(Init(d));
      var g := CountsOf([], d);
      assert Init(g) == CountsOf([], Init(d));
    }
  }

  /** Adding a die to the hand adds, to the total count, the number of times its face is listed. */
  lemma {:induction false} CountsOfStep(h: seq<int>, d: seq<int>)
    requires |h| > 0
    ensures Sum(CountsOf(h, d)) == Sum(CountsOf(Init(h), d)) + Count(d, h[|h| - 1])
  {
    if |d| > 0 {
      CountsOfStep(h, Init(d));
      var g, g' := CountsOf(h, d), CountsOf(Init(h), d);
      assert Init(g) == CountsOf(h, Init(d));
      assert Init(g') == CountsOf(Init(h), Init(d));
    }
  }

  /** Counting each face of a duplicate-free list that covers the hand counts every die once. */
  lemma {:induction false} CountsCoverHand(h: seq<int>, d: seq<int>)
    requires NoDup(d)
    requires forall v :: v in h ==> v in d
    ensures Sum(CountsOf(h, d)) == |h|
  {
    if |h| == 0 {
      CountsOfEmpty(d);
    } else {
      var x := h[|h| - 1];
      assert x in h;
      CountsOfStep(h, d);
      forall v | v in Init(h)
        ensures v in d
      {
        assert v in h;
      }
      CountsCoverHand(Init(h), d);
      assert Count(d, x) == multiset(d)[x] <= 1;
    }
  }

  /** The group sizes, largest first. */
  function GroupSizes(h: seq<int>): seq<int>
  {
    Sort(GroupCounts(h), Descending)
  }

  /** `Distinct().OrderBy(d => d)`: the distinct faces in ascending order. */
  function UniqueSorted(h: seq<int>): seq<int>
  {
    Sort(Dedup(h), Ascending)
  }

  /** Every face of `h` lies in 1..6 (never checked by the source; used only as a lemma premise). */
  predicate FacesInRange(h: seq<int>)
  {
    forall i :: 0 <= i < |h| ==> 1 <= h[i] <= 6
  }

  /** The faces `lo, lo + 1, …, lo + len - 1` in ascending order. */
  function Range(lo: int, len: nat): (r: seq<int>)
    ensures |r| == len
    ensures forall i :: 0 <= i < len ==> r[i] == lo + i
    decreases len
  {
    if len == 0 then [] else [lo] + Range(lo + 1, len - 1)
  }

  /** Two positions of a duplicate-free sequence hold different values. */
  lemma NoDupDistinct(s: seq<int>, i: int, j: int)
    requires NoDup(s)
    requires 0 <= i < j < |s|
    ensures s[i] != s[j]
  {
    assert s == s[..j] + [s[j]] + s[j + 1..];
    assert multiset(s)[s[j]] == multiset(s[..j])[s[j]] + 1 + multiset(s[j + 1..])[s[j]];
    assert s[i] in s[..j];
  }

  /** A sorted duplicate-free sequence is strictly ordered. */
  lemma SortedNoDupStrict(s: seq<int>)
    requires NoDup(s)
    requires Sorted(s, Ascending)
    ensures forall i, j :: 0 <= i < j < |s| ==> s[i] < s[j]
  {
    forall i, j | 0 <= i < j < |s|
      ensures s[i] < s[j]
    {
      NoDupDistinct(s, i, j);
    }
  }

  /** The first element of a non-empty sequence is one of its members. */
  lemma FirstIsMember(u: seq<int>)
    ensures |u| > 0 ==> u[0] in u
  {
  }

  /** A strictly increasing sequence holding exactly the values `lo .. lo + len - 1` is that range. */
  lemma {:induction false} StrictExactRange(u: seq<int>, lo: int, len: nat)
    requires forall i, j :: 0 <= i < j < |u| ==> u[i] < u[j]
    requires forall v :: v in u <==> lo <= v < lo + len
    ensures u == Range(lo, len)
  {
    if len == 0 {
      FirstIsMember(u);
    } else {
      assert lo in u;
      assert u[0] in u;
      assert u[0] == lo;
      var tail := u[1..];
      assert u == [u[0]] + tail;
      forall v
        ensures v in tail <==> lo + 1 <= v < lo + 1 + (len - 1)
      {
        if v in tail {
          var k :| 0 <= k < |tail| && tail[k] == v;
          assert u[0] < u[k + 1];
          assert v in u;
        }
        if lo + 1 <= v < lo + len {
          assert v in u;
          var k :| 0 <= k < |u| && u[k] == v;
          assert k != 0;
          assert tail[k - 1] == v;
        }
      }
      StrictExactRange(tail, lo + 1, len - 1);
    }
  }

  /** The set of faces `lo .. lo + len - 1`. */
  function RangeSet(lo: int, len: nat): (r: set<int>)
    ensures |r| == len
    ensures forall v :: v in r <==> lo <= v < lo + len
  {
    if len == 0 then {} else RangeSet(lo, len - 1) + {lo + len - 1}
  }

  /** A hand has at most as many distinct faces as dice. */
  lemma {:induction false} FacesSize(h: seq<int>)
    ensures |Faces(h)| <= |h|
  {
    if |h| > 0 {
      FacesSize(Init(h));
      assert h == Init(h) + [h[|h| - 1]];
      assert Faces(h) == Faces(Init(h)) + {h[|h| - 1]};
    }
  }

  /** Every die of a hand whose faces all equal the first one shows that face. */
  lemma {:induction false} UniformCount(h: seq<int>)
    requires |h| > 0
    requires forall i :: 0 <= i < |h| ==> h[i] == h[0]
    ensures Count(h, h[0]) == |h|
  {
    if |h| > 1 {
      UniformCount(Init(h));
    }
  }

  /** Scaling a count by a non-negative face keeps it below the scaled bound. */
  lemma ScaledBound(count: int, bound: int, face: int)
    ensures 0 <= count <= bound && 0 <= face ==> 0 <= count * face <= bound * face
  {
    if 0 <= count <= bound && 0 <= face {
      assert (bound - count) * face >= 0;
    }
  }

  /** With faces in 1..6, a hand sums to between one and six per die. */
  lemma {:induction false} SumBounds(h: seq<int>)
    ensures FacesInRange(h) ==> |h| <= Sum(h) <= 6 * |h|
  {
    if |h| > 0 && FacesInRange(h) {
      SumBounds(Init(h));
    }
  }

  /** With faces in 1..6, a hand of up to a million dice never overflows the checked sum. */
  lemma RealDiceFit(h: seq<int>)
    ensures FacesInRange(h) && |h| <= 1_000_000 ==> SumFits(h)
  {
    if FacesInRange(h) && |h| <= 1_000_000 {
      forall k | 0 <= k <= |h|
        ensures InInt32(Sum(h[..k]))
      {
        assert FacesInRange(h[..k]);
        SumBounds(h[..k]);
      }
    }
  }
}
