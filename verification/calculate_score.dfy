/**
 The static scoring helpers of `CalculateScore`: the same rules as `Category`,
 but the only hand they reject is the empty one (hands of four or six dice are
 scored), and the large straight demands that the distinct faces be EXACTLY a
 five-face run.
 */
module CalculateScore {
  import opened Dice
  import opened Rules

  /** The rule's outcome for a non-empty hand, the rejection of the empty one. */
  function NonEmpty(h: seq<int>, rule: Outcome): (r: Outcome)
    ensures |h| == 0 ==> r == Err(EmptyHand)
    ensures |h| > 0 ==> r == rule
  {
    if |h| == 0 then Err(EmptyHand) else rule
  }

  /** Upper section: the dice showing `category`, times `category`, in 32-bit arithmetic. */
  function CalculateCategoryScore(h: seq<int>, category: int): (r: Outcome)
    ensures r.Err? <==> |h| == 0
    ensures r.Err? ==> r.error == EmptyHand
    ensures r.Ok? ==> r.value == Wrap32(Count(h, category) * category)
    ensures r.Ok? && 0 <= category && |h| * category <= Int32Max ==>
      0 <= r.value == Count(h, category) * category <= |h| * category
  {
    ScaledBound(Count(h, category), |h|, category);
    NonEmpty(h, Ok(UpperRule(h, category)))
  }

  /** Yahtzee: 50 when every die shows one face, 0 otherwise. */
  function CalculateYahtzeeScore(h: seq<int>): (r: Outcome)
    ensures |h| == 0 ==> r == Err(EmptyHand)
    ensures |h| > 0 ==> r == Ok(if AllSame(h) then 50 else 0)
  {
    YahtzeeMeaning(h);
    NonEmpty(h, Ok(YahtzeeRule(h)))
  }

  /** Three-of-a-kind: the checked sum of the dice when some face shows at least three times, else 0. */
  function CalculateThreeOfAKind(h: seq<int>): (r: Outcome)
    ensures |h| == 0 ==> r == Err(EmptyHand)
    ensures |h| > 0 ==> r == (if HasNOfAKind(h, 3) then ExpectedSum(h) else Ok(0))
  {
    NOfAKindMeaning(h, 3);
    NonEmpty(h, NOfAKindRule(h, 3))
  }

  /** Four-of-a-kind: the checked sum of the dice when some face shows at least four times, else 0. */
  function CalculateFourOfAKind(h: seq<int>): (r: Outcome)
    ensures |h| == 0 ==> r == Err(EmptyHand)
    ensures |h| > 0 ==> r == (if HasNOfAKind(h, 4) then ExpectedSum(h) else Ok(0))
  {
    NOfAKindMeaning(h, 4);
    NonEmpty(h, NOfAKindRule(h, 4))
  }

  /** Full house: 25 for three dice of one face and two of another (and nothing else), 0 otherwise. */
  function CalculateFullHouse(h: seq<int>): (r: Outcome)
    ensures |h| == 0 ==> r == Err(EmptyHand)
    ensures |h| > 0 ==> r == Ok(if IsFullHouse(h) then 25 else 0)
  {
    FullHouseMeaning(h);
    NonEmpty(h, Ok(FullHouseRule(h)))
  }

  /** Small straight: 30 when four consecutive faces within 1..6 occur, 0 otherwise. */
  function CalculateSmallStraight(h: seq<int>): (r: Outcome)
    ensures |h| == 0 ==> r == Err(EmptyHand)
    ensures |h| > 0 ==> r == Ok(if HasStraight(h, 4) then 30 else 0)
  {
    SmallStraightMeaning(h);
    NonEmpty(h, Ok(SmallStraightRule(h)))
  }

  /** Large straight: 40 when the faces that occur are exactly five consecutive faces within 1..6. */
  function CalculateLargeStraight(h: seq<int>): (r: Outcome)
    ensures |h| == 0 ==> r == Err(EmptyHand)
    ensures |h| > 0 ==> r == Ok(if IsExactStraight(h, 5) then 40 else 0)
  {
    ExactLargeStraightMeaning(h);
    NonEmpty(h, Ok(ExactLargeStraightRule(h)))
  }

  /** Chance: the checked sum of the dice, between one and six per die when every face is in 1..6. */
  function CalculateChance(h: seq<int>): (r: Outcome)
    ensures |h| == 0 ==> r == Err(EmptyHand)
    ensures |h| > 0 ==> r == ExpectedSum(h)
    ensures 0 < |h| <= 1_000_000 && FacesInRange(h) ==> r == Ok(Sum(h)) && |h| <= r.value <= 6 * |h|
  {
    SumBounds(h);
    RealDiceFit(h);
    NonEmpty(h, CheckedSum(h))
  }
}
