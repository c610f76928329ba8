/**
 One scorecard slot (`Category`): a write-once score with a used flag, plus the
 per-category scoring methods the class carries. Those methods accept only
 hands of exactly five dice; the faces themselves are never checked.
 */
module Categories {
  import opened Dice
  import opened Rules

  /** A slot's state. The display name is not modelled. */
  datatype Category = Category(score: int, used: bool)

  // ---------------------------------------------------------------------
  // The slot's state machine: unused --SetScore/MarkAsUsed--> used --ResetCategory--> unused.

  /** A fresh slot: no score, not used. */
  function NewCategory(): (c: Category)
    ensures c.score == 0 && !c.used
  {
    Category(0, false)
  }

  /** Stores `s` and closes the slot, unless it is already used, in which case nothing changes. */
  function SetScore(c: Category, s: int): (r: Category)
    ensures r.used
    ensures !c.used ==> r.score == s
    ensures c.used ==> r == c
  {
    if !c.used then Category(s, true) else c
  }

  /** Reopens the slot for a new game. */
  function ResetCategory(c: Category): (r: Category)
    ensures r == NewCategory()
  {
    Category(0, false)
  }

  /** Closes the slot without touching its score. */
  function MarkAsUsed(c: Category): (r: Category)
    ensures r.used
    ensures r.score == c.score
  {
    c.(used := true)
  }

  /** A score is written at most once: a second `SetScore` changes nothing. */
  lemma SetScoreWriteOnce(c: Category, s: int, t: int)
    ensures SetScore(SetScore(c, s), t) == SetScore(c, s)
  {
  }

  /** Resetting twice is resetting once. */
  lemma ResetIdempotent(c: Category)
    ensures ResetCategory(ResetCategory(c)) == ResetCategory(c)
  {
  }

  /** After `MarkAsUsed` the slot keeps its score against every `SetScore`. */
  lemma MarkedSlotIgnoresSetScore(c: Category, s: int)
    ensures SetScore(MarkAsUsed(c), s) == MarkAsUsed(c)
    ensures SetScore(MarkAsUsed(c), s).score == c.score
  {
  }

  /** A reset slot accepts a new score. */
  lemma ResetReopens(c: Category, s: int)
    ensures SetScore(ResetCategory(c), s) == Category(s, true)
  {
  }

  // ---------------------------------------------------------------------
  // Scoring. `ValidateDiceValues` throws for any hand that is not exactly five dice.

  /** The rule's outcome when the hand holds exactly five dice, the rejection otherwise. */
  function Validated(h: seq<int>, rule: Outcome): (r: Outcome)
    ensures |h| != 5 ==> r == Err(NotFiveDice)
    ensures |h| == 5 ==> r == rule
  {
    if |h| != 5 then Err(NotFiveDice) else rule
  }

  /** Upper section: the dice showing `number`, times `number`, in 32-bit arithmetic. */
  function CalculateUpperScore(h: seq<int>, number: int): (r: Outcome)
    ensures r.Err? <==> |h| != 5
    ensures r.Err? ==> r.error == NotFiveDice
    ensures r.Ok? ==> r.value == Wrap32(Count(h, number) * number)
    ensures r.Ok? && 0 <= number <= Int32Max / 5 ==> 0 <= r.value == Count(h, number) * number <= 5 * number
  {
    ScaledBound(Count(h, number), 5, number);
    Validated(h, Ok(UpperRule(h, number)))
  }

  /** Three-of-a-kind: the checked sum of the dice when some face shows at least three times, else 0. */
  function CalculateThreeOfAKind(h: seq<int>): (r: Outcome)
    ensures |h| != 5 ==> r == Err(NotFiveDice)
    ensures |h| == 5 ==> r == (if HasNOfAKind(h, 3) then ExpectedSum(h) else Ok(0))
  {
    NOfAKindMeaning(h, 3);
    Validated(h, NOfAKindRule(h, 3))
  }

  /** Four-of-a-kind: the checked sum of the dice when some face shows at least four times, else 0. */
  function CalculateFourOfAKind(h: seq<int>): (r: Outcome)
    ensures |h| != 5 ==> r == Err(NotFiveDice)
    ensures |h| == 5 ==> r == (if HasNOfAKind(h, 4) then ExpectedSum(h) else Ok(0))
  {
    NOfAKindMeaning(h, 4);
    Validated(h, NOfAKindRule(h, 4))
  }

  /** Full house: 25 for three dice of one face and two of another, 0 otherwise. */
  function CalculateFullHouse(h: seq<int>): (r: Outcome)
    ensures |h| != 5 ==> r == Err(NotFiveDice)
    ensures |h| == 5 ==> r == Ok(if IsFullHouse(h) then 25 else 0)
  {
    FullHouseMeaning(h);
    Validated(h, Ok(FullHouseRule(h)))
  }

  /** Yahtzee: 50 when all five dice show one face, 0 otherwise. */
  function CalculateYahtzee(h: seq<int>): (r: Outcome)
    ensures |h| != 5 ==> r == Err(NotFiveDice)
    ensures |h| == 5 ==> r == Ok(if AllSame(h) then 50 else 0)
  {
    YahtzeeMeaning(h);
    Validated(h, Ok(YahtzeeRule(h)))
  }

  /** Small straight: 30 when four consecutive faces within 1..6 occur, 0 otherwise. */
  function CalculateSmallStraight(h: seq<int>): (r: Outcome)
    ensures |h| != 5 ==> r == Err(NotFiveDice)
    ensures |h| == 5 ==> r == Ok(if HasStraight(h, 4) then 30 else 0)
  {
    SmallStraightMeaning(h);
    Validated(h, Ok(SmallStraightRule(h)))
  }

  /** Large straight: 40 when five consecutive faces within 1..6 occur, 0 otherwise. */
  function CalculateLargeStraight(h: seq<int>): (r: Outcome)
    ensures |h| != 5 ==> r == Err(NotFiveDice)
    ensures |h| == 5 ==> r == Ok(if HasStraight(h, 5) then 40 else 0)
  {
    SubsetLargeStraightMeaning(h);
    Validated(h, Ok(SubsetLargeStraightRule(h)))
  }

  /** Chance: the checked sum of the dice, which lies in 5..30 when every face is in 1..6. */
  function CalculateChance(h: seq<int>): (r: Outcome)
    ensures |h| != 5 ==> r == Err(NotFiveDice)
    ensures |h| == 5 ==> r == ExpectedSum(h)
    ensures |h| == 5 && FacesInRange(h) ==> r == Ok(Sum(h)) && 5 <= r.value <= 30
  {
    SumBounds(h);
    RealDiceFit(h);
    Validated(h, CheckedSum(h))
  }

  /** With faces in 1..6, the six upper-section scores of a hand add up to its chance score. */
  lemma UpperSectionAddsUpToChance(h: seq<int>)
    requires |h| == 5
    requires FacesInRange(h)
    ensures CalculateUpperScore(h, 1).value + CalculateUpperScore(h, 2).value
          + CalculateUpperScore(h, 3).value + CalculateUpperScore(h, 4).value
          + CalculateUpperScore(h, 5).value + CalculateUpperScore(h, 6).value
          == CalculateChance(h).value
  {
    UpperSectionAddsUp(h);
  }

  /** A Yahtzee scores the same as four-of-a-kind, three-of-a-kind and chance. */
  lemma YahtzeeScoresAsFourAndThree(h: seq<int>)
    requires CalculateYahtzee(h) == Ok(50)
    ensures CalculateFourOfAKind(h) == CalculateChance(h)
    ensures CalculateThreeOfAKind(h) == CalculateChance(h)
  {
    YahtzeeIsFourOfAKind(h);
  }

  /** A hand with some face on four dice scores the same as three-of-a-kind and as four-of-a-kind. */
  lemma FourOfAKindScoresAsThree(h: seq<int>)
    requires HasNOfAKind(h, 4)
    ensures CalculateThreeOfAKind(h) == CalculateFourOfAKind(h)
  {
    var v :| Count(h, v) >= 4;
    assert Count(h, v) >= 3;
  }

  /** Five identical dice score nothing as a full house. */
  lemma FiveOfAKindIsNoFullHouse(h: seq<int>)
    requires |h| == 5
    requires AllSame(h)
    ensures CalculateFullHouse(h) == Ok(0)
  {
    AllSameIsNotFullHouse(h);
  }

  /** A large straight is also a small straight. */
  lemma LargeStraightScoresAsSmall(h: seq<int>)
    requires CalculateLargeStraight(h) == Ok(40)
    ensures CalculateSmallStraight(h) == Ok(30)
  {
    LargeStraightIsSmallStraight(h);
  }
}
