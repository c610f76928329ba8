/**
 How the two scoring front ends relate. On a hand of exactly five dice every
 `Category` method and its `CalculateScore` counterpart return the same score;
 they part ways on the hands only one of them accepts, and the large straight
 is where the rules themselves diverge once the hand is not five dice long.
 */
module Agreement {
  import opened Dice
  import opened Rules
  import Categories
  import CalculateScore

  /** Every scoring method gives the same score in both front ends on five dice. */
  lemma FrontEndsAgreeOnFiveDice(h: seq<int>, number: int)
    requires |h| == 5
    ensures Categories.CalculateUpperScore(h, number) == CalculateScore.CalculateCategoryScore(h, number)
    ensures Categories.CalculateThreeOfAKind(h) == CalculateScore.CalculateThreeOfAKind(h)
    ensures Categories.CalculateFourOfAKind(h) == CalculateScore.CalculateFourOfAKind(h)
    ensures Categories.CalculateFullHouse(h) == CalculateScore.CalculateFullHouse(h)
    ensures Categories.CalculateYahtzee(h) == CalculateScore.CalculateYahtzeeScore(h)
    ensures Categories.CalculateSmallStraight(h) == CalculateScore.CalculateSmallStraight(h)
    ensures Categories.CalculateLargeStraight(h) == CalculateScore.CalculateLargeStraight(h)
    ensures Categories.CalculateChance(h) == CalculateScore.CalculateChance(h)
  {
    LargeStraightRulesAgreeOnFiveDice(h);
  }

  /** A non-empty hand of any other length is rejected by every `Category` method but scored,
      by the same rule, by every `CalculateScore` method. */
  lemma FrontEndsDisagreeOnLength(h: seq<int>, number: int)
    requires |h| > 0 && |h| != 5
    ensures Categories.CalculateUpperScore(h, number) == Err(NotFiveDice)
    ensures Categories.CalculateThreeOfAKind(h) == Err(NotFiveDice)
    ensures Categories.CalculateFourOfAKind(h) == Err(NotFiveDice)
    ensures Categories.CalculateFullHouse(h) == Err(NotFiveDice)
    ensures Categories.CalculateYahtzee(h) == Err(NotFiveDice)
    ensures Categories.CalculateSmallStraight(h) == Err(NotFiveDice)
    ensures Categories.CalculateLargeStraight(h) == Err(NotFiveDice)
    ensures Categories.CalculateChance(h) == Err(NotFiveDice)
    ensures CalculateScore.CalculateCategoryScore(h, number) == Ok(UpperRule(h, number))
    ensures CalculateScore.CalculateThreeOfAKind(h) == NOfAKindRule(h, 3)
    ensures CalculateScore.CalculateFourOfAKind(h) == NOfAKindRule(h, 4)
    ensures CalculateScore.CalculateFullHouse(h) == Ok(FullHouseRule(h))
    ensures CalculateScore.CalculateYahtzeeScore(h) == Ok(YahtzeeRule(h))
    ensures CalculateScore.CalculateSmallStraight(h) == Ok(SmallStraightRule(h))
    ensures CalculateScore.CalculateLargeStraight(h) == Ok(ExactLargeStraightRule(h))
    ensures CalculateScore.CalculateChance(h) == ExpectedSum(h)
  {
    NOfAKindMeaning(h, 3);
    NOfAKindMeaning(h, 4);
    FullHouseMeaning(h);
    YahtzeeMeaning(h);
    SmallStraightMeaning(h);
    ExactLargeStraightMeaning(h);
  }

  /** The faces of the six-die hand 1..6 are exactly 1..6. */
  lemma SixDiceFaces(h: seq<int>)
    requires h == [1, 2, 3, 4, 5, 6]
    ensures forall v :: v in h <==> 1 <= v <= 6
  {
    forall v
      ensures v in h <==> 1 <= v <= 6
    {
      if 1 <= v <= 6 {
        assert h[v - 1] == v;
      }
    }
  }

  /** On the six-die hand 1..6 the subset rule finds a large straight and the exact rule does not. */
  lemma LargeStraightRulesSplitOnSixDice(h: seq<int>)
    requires h == [1, 2, 3, 4, 5, 6]
    ensures SubsetLargeStraightRule(h) == 40
    ensures ExactLargeStraightRule(h) == 0
    ensures CalculateScore.CalculateLargeStraight(h) == Ok(0)
    ensures Categories.CalculateLargeStraight(h) == Err(NotFiveDice)
  {
    SixDiceFaces(h);
    SubsetLargeStraightMeaning(h);
    ExactLargeStraightMeaning(h);
    assert HasRun(h, 1, 5);
    forall s | 1 <= s && s + 5 <= 7
      ensures !IsRunExactly(h, s, 5)
    {
      assert 1 in h && 6 in h;
    }
  }
}
