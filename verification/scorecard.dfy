/**
 The scorecard: thirteen `Category` slots kept in two arrays (six upper, seven
 lower), addressed by one flat index 0..12, and a running total that every
 claim recomputes. The class also carries an older block of per-category
 integer fields with its own total, which nothing links to the slots.
 */
module ScoreCards {
  import Categories

  type Category = Categories.Category

  const UpperSlots: nat := 6
  const LowerSlots: nat := 7
  const SlotCount: nat := 13

  // ---------------------------------------------------------------------
  // The legacy per-field block (its used flags and getters are not modelled).

  /** The fields of the legacy block that hold a score. */
  datatype LegacyField =
    | Ones | Twos | Threes | Fours | Fives | Sixes | Sum
    | ThreeOfAKind | FourOfAKind | FullHouse | SmallStraight | LargeStraight | Chance | Yahtzee

  datatype Legacy = Legacy(
    ones: int, twos: int, threes: int, fours: int, fives: int, sixes: int, sum: int,
    threeOfAKind: int, fourOfAKind: int, fullHouse: int, smallStraight: int,
    largeStraight: int, chance: int, yahtzee: int,
    totalScore: int)

  /** Every field starts at the integer default, 0. */
  function NewLegacy(): (l: Legacy)
    ensures forall f :: LegacyValue(l, f) == 0
    ensures l.totalScore == 0
  {
    Legacy(0, 0, 0, 0, 0, 0, 0, 0, 0, 0, 0, 0, 0, 0, 0)
  }

  function LegacyValue(l: Legacy, f: LegacyField): int
  {
    match f
    case Ones => l.ones
    case Twos => l.twos
    case Threes => l.threes
    case Fours => l.fours
    case Fives => l.fives
    case Sixes => l.sixes
    case Sum => l.sum
    case ThreeOfAKind => l.threeOfAKind
    case FourOfAKind => l.fourOfAKind
    case FullHouse => l.fullHouse
    case SmallStraight => l.smallStraight
    case LargeStraight => l.largeStraight
    case Chance => l.chance
    case Yahtzee => l.yahtzee
  }

  /** The fourteen setters (`SetOnes`, …, `SetSum`, …, `FullHouse(int)`, …, `SetYahtzee`). */
  function SetLegacyField(l: Legacy, f: LegacyField, v: int): (r: Legacy)
    ensures LegacyValue(r, f) == v
    ensures forall g :: g != f ==> LegacyValue(r, g) == LegacyValue(l, g)
    ensures r.totalScore == l.totalScore
  {
    match f
    case Ones => l.(ones := v)
    case Twos => l.(twos := v)
    case Threes => l.(threes := v)
    case Fours => l.(fours := v)
    case Fives => l.(fives := v)
    case Sixes => l.(sixes := v)
    case Sum => l.(sum := v)
    case ThreeOfAKind => l.(threeOfAKind := v)
    case FourOfAKind => l.(fourOfAKind := v)
    case FullHouse => l.(fullHouse := v)
    case SmallStraight => l.(smallStraight := v)
    case LargeStraight => l.(largeStraight := v)
    case Chance => l.(chance := v)
    case Yahtzee => l.(yahtzee := v)
  }

  /** The thirteen category fields, in the order the legacy total adds them. */
  const CategoryFields: seq<LegacyField> :=
    [Ones, Twos, Threes, Fours, Fives, Sixes, ThreeOfAKind, FourOfAKind, FullHouse,
     SmallStraight, LargeStraight, Chance, Yahtzee]

  /** The category fields are every field except `Sum`. */
  lemma CategoryFieldsAreAllButSum()
    ensures |CategoryFields| == 13
    ensures forall f :: f in CategoryFields <==> f != Sum
  {
  }

  /** The values of the fields `fs`, added up. */
  function FieldSum(l: Legacy, fs: seq<LegacyField>): int
  {
    if |fs| == 0 then 0 else LegacyValue(l, fs[0]) + FieldSum(l, fs[1..])
  }

  /** Folding over a field followed by more fields adds that field's value to the rest. */
  lemma FieldSumCons(l: Legacy, f: LegacyField, fs: seq<LegacyField>)
    ensures FieldSum(l, [f] + fs) == LegacyValue(l, f) + FieldSum(l, fs)
  {
    assert ([f] + fs)[1..] == fs;
  }

  /** The fold over the category fields is their plain sum. */
  lemma FieldSumOfCategories(l: Legacy)
    ensures FieldSum(l, CategoryFields) == l.ones + l.twos + l.threes + l.fours + l.fives + l.sixes
      + l.threeOfAKind + l.fourOfAKind + l.fullHouse + l.smallStraight + l.largeStraight + l.chance + l.yahtzee
  {
    FieldSumCons(l, Ones, [Twos, Threes, Fours, Fives, Sixes, ThreeOfAKind, FourOfAKind, FullHouse, SmallStraight, LargeStraight, Chance, Yahtzee]);
    FieldSumCons(l, Twos, [Threes, Fours, Fives, Sixes, ThreeOfAKind, FourOfAKind, FullHouse, SmallStraight, LargeStraight, Chance, Yahtzee]);
    FieldSumCons(l, Threes, [Fours, Fives, Sixes, ThreeOfAKind, FourOfAKind, FullHouse, SmallStraight, LargeStraight, Chance, Yahtzee]);
    FieldSumCons(l, Fours, [Fives, Sixes, ThreeOfAKind, FourOfAKind, FullHouse, SmallStraight, LargeStraight, Chance, Yahtzee]);
    FieldSumCons(l, Fives, [Sixes, ThreeOfAKind, FourOfAKind, FullHouse, SmallStraight, LargeStraight, Chance, Yahtzee]);
    FieldSumCons(l, Sixes, [ThreeOfAKind, FourOfAKind, FullHouse, SmallStraight, LargeStraight, Chance, Yahtzee]);
    FieldSumCons(l, ThreeOfAKind, [FourOfAKind, FullHouse, SmallStraight, LargeStraight, Chance, Yahtzee]);
    FieldSumCons(l, FourOfAKind, [FullHouse, SmallStraight, LargeStraight, Chance, Yahtzee]);
    FieldSumCons(l, FullHouse, [SmallStraight, LargeStraight, Chance, Yahtzee]);
    FieldSumCons(l, SmallStraight, [LargeStraight, Chance, Yahtzee]);
    FieldSumCons(l, LargeStraight, [Chance, Yahtzee]);
    FieldSumCons(l, Chance, [Yahtzee]);
    FieldSumCons(l, Yahtzee, []);
  }

  /** Stores the sum of the thirteen category fields (not `sum`) in the legacy total. */
  function CalculateTotalScore(l: Legacy): (r: Legacy)
    ensures forall f :: LegacyValue(r, f) == LegacyValue(l, f)
    ensures r.totalScore == FieldSum(l, CategoryFields)
  {
    FieldSumOfCategories(l);
    l.(totalScore := l.ones + l.twos + l.threes + l.fours + l.fives + l.sixes + l.threeOfAKind
                   + l.fourOfAKind + l.fullHouse + l.smallStraight + l.largeStraight + l.chance + l.yahtzee)
  }

  /** The legacy total ignores the `sum` field. */
  lemma LegacyTotalExcludesSum(l: Legacy, v: int)
    ensures CalculateTotalScore(SetLegacyField(l, Sum, v)).totalScore == CalculateTotalScore(l).totalScore
  {
  }

  /** Every other field counts once, with weight one, in the legacy total. */
  lemma LegacyTotalCountsField(l: Legacy, f: LegacyField, v: int)
    requires f != Sum
    ensures CalculateTotalScore(SetLegacyField(l, f, v)).totalScore
         == CalculateTotalScore(l).totalScore + v - LegacyValue(l, f)
  {
  }

  // ---------------------------------------------------------------------
  // The slot arrays.

  datatype ScoreCard = ScoreCard(
    upper: seq<Category>,
    lower: seq<Category>,
    totalScore: int,
    legacy: Legacy)

  /** The arrays have their fixed lengths. */
  predicate Shaped(c: ScoreCard)
  {
    |c.upper| == UpperSlots && |c.lower| == LowerSlots
  }

  /** Index 0..5 addresses the upper array, 6..12 the lower one. */
  function GetCategoryByIndex(c: ScoreCard, i: int): (slot: Category)
    requires Shaped(c)
    requires 0 <= i < SlotCount
    ensures slot == (c.upper + c.lower)[i]
  {
    if i < UpperSlots then c.upper[i] else c.lower[i - UpperSlots]
  }

  /** Whether slot `i` has been claimed or marked. */
  function IsCategoryUsed(c: ScoreCard, i: int): (used: bool)
    requires Shaped(c)
    requires 0 <= i < SlotCount
    ensures used == (c.upper + c.lower)[i].used
  {
    GetCategoryByIndex(c, i).used
  }

  /** `Sum(c => c.Score)` over one array. */
  function ScoreSum(cats: seq<Category>): int
  {
    if |cats| == 0 then 0 else ScoreSum(cats[..|cats| - 1]) + cats[|cats| - 1].score
  }

  /** The scores of slots `0 .. k - 1`, added in flat-index order. */
  function FlatTotal(c: ScoreCard, k: nat): int
    requires Shaped(c)
    requires k <= SlotCount
  {
    if k == 0 then 0 else FlatTotal(c, k - 1) + GetCategoryByIndex(c, k - 1).score
  }

  /** The running total is the sum of all thirteen slot scores. */
  predicate TotalIsSum(c: ScoreCard)
    requires Shaped(c)
  {
    c.totalScore == FlatTotal(c, SlotCount)
  }

  /** Adding the two arrays separately gives the flat-index sum. */
  lemma {:induction false} FlatTotalSplits(c: ScoreCard, k: nat)
    requires Shaped(c)
    requires k <= SlotCount
    ensures k <= UpperSlots ==> FlatTotal(c, k) == ScoreSum(c.upper[..k])
    ensures k >= UpperSlots ==> FlatTotal(c, k) == ScoreSum(c.upper) + ScoreSum(c.lower[..k - UpperSlots])
  {
    if k > 0 {
      FlatTotalSplits(c, k - 1);
      if k <= UpperSlots {
        assert c.upper[..k][..k - 1] == c.upper[..k - 1];
      } else {
        assert c.lower[..k - UpperSlots][..k - 1 - UpperSlots] == c.lower[..k - 1 - UpperSlots];
        assert c.upper[..UpperSlots] == c.upper;
      }
    }
  }

  /** Two cards whose slots agree on every score have the same flat-index sum. */
  lemma {:induction false} FlatTotalOfScores(c: ScoreCard, d: ScoreCard, k: nat)
    requires Shaped(c) && Shaped(d)
    requires k <= SlotCount
    requires forall j :: 0 <= j < SlotCount ==> GetCategoryByIndex(c, j).score == GetCategoryByIndex(d, j).score
    ensures FlatTotal(c, k) == FlatTotal(d, k)
  {
    if k > 0 {
      FlatTotalOfScores(c, d, k - 1);
    }
  }

  /** Changing the score of one slot changes the flat-index sum by the difference. */
  lemma {:induction false} FlatTotalOneSlot(c: ScoreCard, d: ScoreCard, i: int, k: nat)
    requires Shaped(c) && Shaped(d)
    requires 0 <= i < SlotCount
    requires k <= SlotCount
    requires forall j :: 0 <= j < SlotCount && j != i ==> GetCategoryByIndex(c, j).score == GetCategoryByIndex(d, j).score
    ensures FlatTotal(d, k) == FlatTotal(c, k)
      + (if i < k then GetCategoryByIndex(d, i).score - GetCategoryByIndex(c, i).score else 0)
  {
    if k > 0 {
      FlatTotalOneSlot(c, d, i, k - 1);
    }
  }

  /** `UpdateTotalScore`: recomputes the total from the two arrays. */
  function UpdateTotalScore(c: ScoreCard): (r: ScoreCard)
    requires Shaped(c)
    ensures Shaped(r)
    ensures r.upper == c.upper && r.lower == c.lower && r.legacy == c.legacy
    ensures TotalIsSum(r)
  {
    var r := c.(totalScore := ScoreSum(c.upper) + ScoreSum(c.lower));
    FlatTotalSplits(r, SlotCount);
    assert r.lower[..SlotCount - UpperSlots] == r.lower;
    r
  }

  /** The constructor: thirteen fresh slots, a zero total and a zeroed legacy block. */
  function New(): (c: ScoreCard)
    ensures Shaped(c)
    ensures forall i :: 0 <= i < SlotCount ==> GetCategoryByIndex(c, i) == Categories.NewCategory()
    ensures c.totalScore == 0
    ensures TotalIsSum(c)
    ensures c.legacy == NewLegacy()
  {
    var c := ScoreCard(seq(UpperSlots, _ => Categories.NewCategory()),
                       seq(LowerSlots, _ => Categories.NewCategory()),
                       0, NewLegacy());
    ZeroScoresZeroTotal(c, SlotCount);
    c
  }

  /** A card whose slots all score 0 has a flat-index sum of 0. */
  lemma {:induction false} ZeroScoresZeroTotal(c: ScoreCard, k: nat)
    requires Shaped(c)
    requires k <= SlotCount
    requires forall j :: 0 <= j < SlotCount ==> GetCategoryByIndex(c, j).score == 0
    ensures FlatTotal(c, k) == 0
  {
    if k > 0 {
      ZeroScoresZeroTotal(c, k - 1);
    }
  }

  /** The card with slot `i` replaced. */
  function WithSlot(c: ScoreCard, i: int, slot: Category): (r: ScoreCard)
    requires Shaped(c)
    requires 0 <= i < SlotCount
    ensures Shaped(r)
    ensures GetCategoryByIndex(r, i) == slot
    ensures forall j :: 0 <= j < SlotCount && j != i ==> GetCategoryByIndex(r, j) == GetCategoryByIndex(c, j)
    ensures r.totalScore == c.totalScore && r.legacy == c.legacy
  {
    if i < UpperSlots then c.(upper := c.upper[i := slot])
    else c.(lower := c.lower[i - UpperSlots := slot])
  }

  /** Claims slot `i` with score `s` (a no-op on a used slot), then recomputes the total. */
  function SetScore(c: ScoreCard, i: int, s: int): (r: ScoreCard)
    requires Shaped(c)
    requires 0 <= i < SlotCount
    ensures Shaped(r)
    ensures IsCategoryUsed(r, i)
    ensures !IsCategoryUsed(c, i) ==> GetCategoryByIndex(r, i).score == s
    ensures IsCategoryUsed(c, i) ==> GetCategoryByIndex(r, i) == GetCategoryByIndex(c, i)
    ensures forall j :: 0 <= j < SlotCount && j != i ==> GetCategoryByIndex(r, j) == GetCategoryByIndex(c, j)
    ensures r.legacy == c.legacy
    ensures TotalIsSum(r)
    ensures TotalIsSum(c) ==>
      r.totalScore == c.totalScore + (if IsCategoryUsed(c, i) then 0 else s - GetCategoryByIndex(c, i).score)
    ensures TotalIsSum(c) && IsCategoryUsed(c, i) ==> r == c
  {
    var claimed := WithSlot(c, i, Categories.SetScore(GetCategoryByIndex(c, i), s));
    var r := UpdateTotalScore(claimed);
    FlatTotalOneSlot(c, r, i, SlotCount);
    SameSlotsSameArrays(c, r);
    r
  }

  /** Two cards whose thirteen slots agree index by index have the same arrays. */
  lemma SameSlotsSameArrays(c: ScoreCard, d: ScoreCard)
    requires Shaped(c) && Shaped(d)
    ensures (forall j :: 0 <= j < SlotCount ==> GetCategoryByIndex(c, j) == GetCategoryByIndex(d, j))
      ==> c.upper == d.upper && c.lower == d.lower
  {
    if forall j :: 0 <= j < SlotCount ==> GetCategoryByIndex(c, j) == GetCategoryByIndex(d, j) {
      forall j | 0 <= j < SlotCount
        ensures (c.upper + c.lower)[j] == (d.upper + d.lower)[j]
      {
        assert GetCategoryByIndex(c, j) == GetCategoryByIndex(d, j);
      }
      assert c.upper + c.lower == d.upper + d.lower;
      assert c.upper == (c.upper + c.lower)[..UpperSlots] && d.upper == (d.upper + d.lower)[..UpperSlots];
      assert c.lower == (c.upper + c.lower)[UpperSlots..] && d.lower == (d.upper + d.lower)[UpperSlots..];
    }
  }

  /** Marks slot `i` used without scoring it; the total is left as it was. */
  function MarkCategoryAsUsed(c: ScoreCard, i: int): (r: ScoreCard)
    requires Shaped(c)
    requires 0 <= i < SlotCount
    ensures Shaped(r)
    ensures IsCategoryUsed(r, i)
    ensures GetCategoryByIndex(r, i).score == GetCategoryByIndex(c, i).score
    ensures forall j :: 0 <= j < SlotCount && j != i ==> GetCategoryByIndex(r, j) == GetCategoryByIndex(c, j)
    ensures r.totalScore == c.totalScore && r.legacy == c.legacy
    ensures TotalIsSum(c) ==> TotalIsSum(r)
  {
    var r := WithSlot(c, i, Categories.MarkAsUsed(GetCategoryByIndex(c, i)));
    FlatTotalOfScores(c, r, SlotCount);
    r
  }

  /** `ResetCategory` on every slot of one array. */
  function ResetAll(cats: seq<Category>): (r: seq<Category>)
    ensures |r| == |cats|
    ensures forall k :: 0 <= k < |r| ==> r[k] == Categories.ResetCategory(cats[k])
  {
    seq(|cats|, k requires 0 <= k < |cats| => Categories.ResetCategory(cats[k]))
  }

  /** Reopens every slot for a new game and zeroes the total; the legacy block is untouched. */
  function ResetScorecard(c: ScoreCard): (r: ScoreCard)
    requires Shaped(c)
    ensures Shaped(r)
    ensures forall i :: 0 <= i < SlotCount ==> !IsCategoryUsed(r, i) && GetCategoryByIndex(r, i).score == 0
    ensures r.totalScore == 0
    ensures TotalIsSum(r)
    ensures r.legacy == c.legacy
  {
    var r := c.(upper := ResetAll(c.upper), lower := ResetAll(c.lower), totalScore := 0);
    ZeroScoresZeroTotal(r, SlotCount);
    r
  }

  /** Writes one legacy field; the slots and the running total are untouched. */
  function SetLegacyScore(c: ScoreCard, f: LegacyField, v: int): (r: ScoreCard)
    ensures r.upper == c.upper && r.lower == c.lower && r.totalScore == c.totalScore
    ensures LegacyValue(r.legacy, f) == v
    ensures forall g :: g != f ==> LegacyValue(r.legacy, g) == LegacyValue(c.legacy, g)
    ensures r.legacy.totalScore == c.legacy.totalScore
  {
    c.(legacy := SetLegacyField(c.legacy, f, v))
  }

  /** Recomputes the legacy total; the slots and the running total are untouched. */
  function CalculateLegacyTotal(c: ScoreCard): (r: ScoreCard)
    ensures r.upper == c.upper && r.lower == c.lower && r.totalScore == c.totalScore
    ensures forall f :: LegacyValue(r.legacy, f) == LegacyValue(c.legacy, f)
    ensures r.legacy.totalScore == FieldSum(c.legacy, CategoryFields)
  {
    c.(legacy := CalculateTotalScore(c.legacy))
  }

  // ---------------------------------------------------------------------
  // The total invariant over any sequence of operations.

  /** One operation a caller can apply to a card. */
  datatype Action =
    | Claim(index: int, score: int)
    | Mark(index: int)
    | ResetCard
    | SetLegacy(field: LegacyField, value: int)
    | LegacyTotal

  /** Slot indices lie in 0..12 (outside it the arrays throw). */
  predicate IndexInRange(a: Action)
  {
    match a
    case Claim(i, _) => 0 <= i < SlotCount
    case Mark(i) => 0 <= i < SlotCount
    case _ => true
  }

  function Apply(c: ScoreCard, a: Action): (r: ScoreCard)
    requires Shaped(c)
    requires IndexInRange(a)
    ensures Shaped(r)
  {
    match a
    case Claim(i, s) => SetScore(c, i, s)
    case Mark(i) => MarkCategoryAsUsed(c, i)
    case ResetCard => ResetScorecard(c)
    case SetLegacy(f, v) => SetLegacyScore(c, f, v)
    case LegacyTotal => CalculateLegacyTotal(c)
  }

  function Run(c: ScoreCard, actions: seq<Action>): (r: ScoreCard)
    requires Shaped(c)
    requires forall k :: 0 <= k < |actions| ==> IndexInRange(actions[k])
    ensures Shaped(r)
    decreases |actions|
  {
    if |actions| == 0 then c else Run(Apply(c, actions[0]), actions[1..])
  }

  /** Every operation keeps the running total equal to the sum of the slot scores. */
  lemma ApplyKeepsTotal(c: ScoreCard, a: Action)
    requires Shaped(c) && TotalIsSum(c)
    requires IndexInRange(a)
    ensures TotalIsSum(Apply(c, a))
  {
    match a
    case SetLegacy(f, v) =>
      FlatTotalOfScores(c, Apply(c, a), SlotCount);
    case LegacyTotal =>
      FlatTotalOfScores(c, Apply(c, a), SlotCount);
    case _ =>
  }

  /** From a fresh card, whatever is done to it, the total is the sum of the slot scores. */
  lemma {:induction false} RunKeepsTotal(c: ScoreCard, actions: seq<Action>)
    requires Shaped(c) && TotalIsSum(c)
    requires forall k :: 0 <= k < |actions| ==> IndexInRange(actions[k])
    ensures TotalIsSum(Run(c, actions))
    decreases |actions|
  {
    if |actions| > 0 {
      ApplyKeepsTotal(c, actions[0]);
      RunKeepsTotal(Apply(c, actions[0]), actions[1..]);
    }
  }

  /** A fresh card keeps its total equal to the sum of its slot scores, whatever is done to it. */
  lemma TotalIsAlwaysSum(actions: seq<Action>)
    requires forall k :: 0 <= k < |actions| ==> IndexInRange(actions[k])
    ensures TotalIsSum(Run(New(), actions))
  {
    RunKeepsTotal(New(), actions);
  }

  // ---------------------------------------------------------------------
  // Claiming scenarios.

  /** Claiming Sixes (slot 5) with 24 closes it; a second claim with 0 leaves the 24. */
  lemma ClaimSixesTwice()
    ensures IsCategoryUsed(SetScore(New(), 5, 24), 5)
    ensures GetCategoryByIndex(SetScore(SetScore(New(), 5, 24), 5, 0), 5).score == 24
    ensures SetScore(New(), 5, 24).totalScore == 24
  {
  }

  /** Ones = 3 and Chance (slot 11) = 20 total 23; a reset brings the total back to 0. */
  lemma OnesAndChanceTotal()
    ensures SetScore(SetScore(New(), 0, 3), 11, 20).totalScore == 23
    ensures ResetScorecard(SetScore(SetScore(New(), 0, 3), 11, 20)).totalScore == 0
  {
    var card := New();
    var ones := SetScore(card, 0, 3);
    assert ones.totalScore == 3;
    assert GetCategoryByIndex(ones, 11) == GetCategoryByIndex(card, 11);
    assert SetScore(ones, 11, 20).totalScore == 23;
  }
}
