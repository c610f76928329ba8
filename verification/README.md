# Yahtzee scoring core, modelled in Dafny

This project models the scoring core of a WinForms Yahtzee game written in C#:

- the dice-hand scoring rules (upper section, three- and four-of-a-kind, full
  house, small and large straight, chance, Yahtzee), which the source writes
  twice — as instance methods of `Category` and as static methods of
  `CalculateScore`;
- the write-once state machine of one `Category` slot (`SetScore`,
  `ResetCategory`, `MarkAsUsed`);
- the `ScoreCard`: thirteen slots in two arrays (six upper, seven lower)
  addressed by a flat index 0..12, a running `TotalScore`, and the older
  block of per-category integer fields with its own `CalculateTotalScore`.

Modules:

| module | file | models |
|---|---|---|
| `Dice` | dice.dfy | the LINQ operators the rules use (`Count`, `Sum`, `Distinct`, `OrderBy`, `GroupBy`), the outcome type, 32-bit arithmetic |
| `Rules` | rules.dfy | each rule's expression as written, an independent description of what it recognises, and the lemmas joining them |
| `Categories` | category.dfy | `Category.cs`: the slot state machine and the five-dice scoring methods |
| `CalculateScore` | calculate_score.dfy | `CalculateScore.cs`: the non-empty-hand scoring methods |
| `Agreement` | agreement.dfy | where the two scoring front ends agree and where they differ |
| `ScoreCards` | scorecard.dfy | `ScoreCard.cs`: slots, index mapping, running total, reset, legacy fields |

The rule expressions are identical in the two scoring classes except for the
large straight, so each is modelled once in `Rules` and wrapped by each front
end with its own validation: `Category` rejects every hand that is not
exactly five dice (`NotFiveDice`), `CalculateScore` rejects only the empty
hand (`EmptyHand`). Exceptions are modelled as `Err` values of `Dice.Outcome`.
Neither class checks that faces lie in 1..6, so no error exists for that;
faces-in-range appears only as a premise of lemmas (`Dice.FacesInRange`).

Integer width: the upper-section product `Count(...) * number` is unchecked
32-bit C# arithmetic and is modelled with `Dice.Wrap32`; LINQ's `Sum()` on a
`List<int>` is checked and throws `OverflowException` when a running sum
leaves the 32-bit range, modelled as `Err(Overflow)` through `Dice.CheckedSum`.
For real dice neither ever happens: `Dice.RealDiceFit` keeps the checked sum
in range, and the last postcondition of `Categories.CalculateUpperScore` and of
`CalculateScore.CalculateCategoryScore` shows the product is exact whenever it
cannot overflow.

In short, the code has two scoring classes with different validation, no
check of the faces, and a scorecard whose slots are addressed by integer
indices.

## Model

| member | source | states |
|---|---|---|
| Dice.Count | Category.cs:60 | the number of dice showing a face is that face's multiplicity in the hand; so it is at most the hand's length and positive exactly when the face occurs |
| Dice.Dedup | Category.cs:102 | `Distinct()` holds each face of the hand exactly once and nothing else |
| Dice.Sort | Category.cs:87 | `OrderBy`/`OrderByDescending` return a sorted permutation of their input |
| Dice.GroupCounts | Category.cs:51-54 | one group per distinct face, each holding at least one die, the sizes together adding up to the number of dice |
| Dice.CheckedSum | Category.cs:80 | LINQ's checked `Sum()` yields the sum exactly when every running sum fits in 32 bits, and `Overflow` otherwise |
| Dice.Wrap32 | Category.cs:60 | unchecked 32-bit arithmetic: the result is in range, equals the exact value when that is in range, and agrees with it modulo 2^32 |
| Dice.RealDiceFit | CalculateScore.cs:87 | with faces in 1..6 and at most 1,000,000 dice, the checked sum of a hand never overflows |
| Rules.NOfAKindMeaning | Category.cs:78-81 | `NOfAKindRule`, the test "some group has at least n dice", scores the checked sum exactly when some face shows on n dice, else 0 |
| Rules.FullHouseMeaning | Category.cs:84-89 | `FullHouseRule` scores 25 exactly when the group sizes sorted descending equal `[3, 2]`, that is exactly when two faces occur, one on three dice and the other on two |
| Rules.YahtzeeMeaning | Category.cs:92-96 | `YahtzeeRule`, the one-distinct-value test, gives 50 exactly when the hand is non-empty and all dice agree |
| Rules.SmallStraightMeaning | Category.cs:99-110 | `SmallStraightRule`, the three-subset test, scores 30 exactly when four consecutive faces within 1..6 occur |
| Rules.SubsetLargeStraightMeaning | Category.cs:112-123 | `SubsetLargeStraightRule`, the two-subset test, scores 40 exactly when five consecutive faces within 1..6 occur |
| Rules.ExactLargeStraightMeaning | CalculateScore.cs:72-79 | `ExactLargeStraightRule`: sorted distinct values equal to `[1..5]` or `[2..6]` score 40 exactly when the faces that occur are exactly such a run |
| Rules.UniqueSortedIsRun | CalculateScore.cs:77-78 | the sorted distinct faces equal a run exactly when the set of faces is that run |
| Rules.FourOfAKindIsThreeOfAKind | Category.cs:64-81 | a four-of-a-kind that does not score 0 makes three-of-a-kind score the same |
| Rules.YahtzeeIsFourOfAKind | Category.cs:64-96 | a five-dice Yahtzee makes four- and three-of-a-kind both score the checked sum |
| Rules.AllSameIsNotFullHouse | Category.cs:84-89 | dice that all show one face (group sizes `[n]`) never score a full house |
| Rules.LargeStraightIsSmallStraight | Category.cs:99-123 | a large straight is also a small straight |
| Rules.LargeStraightRulesAgreeOnFiveDice | Category.cs:113-123 | on five dice, the subset form and the exact form of the large straight give the same score |
| Rules.UpperSectionAddsUp | Category.cs:57-61 | with faces in 1..6, count × face (`UpperRule`) summed over the six faces is the sum of the dice |
| Categories.NewCategory | Category.cs:14-19 | a new slot has score 0 and is unused |
| Categories.SetScore | Category.cs:22-29 | an unused slot takes the score and becomes used; a used slot is left exactly as it was |
| Categories.ResetCategory | Category.cs:32-36 | a reset slot is a fresh slot, whatever its state before |
| Categories.MarkAsUsed | Category.cs:38-41 | marking makes the slot used and keeps its score |
| Categories.SetScoreWriteOnce | Category.cs:22-29 | a second `SetScore` never changes a slot |
| Categories.ResetIdempotent | Category.cs:32-36 | resetting twice equals resetting once |
| Categories.MarkedSlotIgnoresSetScore | Category.cs:22-41 | after `MarkAsUsed`, `SetScore` is a no-op and the original score stays |
| Categories.ResetReopens | Category.cs:22-36 | after a reset, `SetScore` stores the new score |
| Categories.Validated | Category.cs:44-48 | a hand is rejected with `NotFiveDice` exactly when it does not hold five dice |
| Categories.CalculateUpperScore | Category.cs:57-61 | fails exactly when the hand is not five dice; otherwise the 32-bit count × number (`Rules.UpperRule`), which lies in [0, 5·number] for a non-negative number that cannot overflow |
| Categories.CalculateThreeOfAKind | Category.cs:64-68 | rejected with `NotFiveDice` exactly off five dice; otherwise, when some face shows three times, the checked sum, which is `Overflow` when a running sum leaves 32 bits; else 0 |
| Categories.CalculateFourOfAKind | Category.cs:71-75 | rejected with `NotFiveDice` exactly off five dice; otherwise, when some face shows four times, the checked sum, which is `Overflow` when a running sum leaves 32 bits; else 0 |
| Categories.CalculateFullHouse | Category.cs:84-89 | fails exactly off five dice; otherwise 25 exactly for a three-and-two hand, else 0 |
| Categories.CalculateYahtzee | Category.cs:92-96 | fails exactly off five dice; otherwise 50 exactly when all dice agree, else 0 |
| Categories.CalculateSmallStraight | Category.cs:99-110 | fails exactly off five dice; otherwise 30 exactly when four consecutive faces in 1..6 occur |
| Categories.CalculateLargeStraight | Category.cs:113-123 | fails exactly off five dice; otherwise 40 exactly when five consecutive faces in 1..6 occur |
| Categories.CalculateChance | Category.cs:126-130 | rejected with `NotFiveDice` exactly off five dice; otherwise the checked sum, which is `Overflow` when a running sum leaves 32 bits, and for faces in 1..6 is a value in 5..30 |
| Categories.UpperSectionAddsUpToChance | Category.cs:57-61 | with faces in 1..6 the six upper scores of a hand add up to its chance score |
| Categories.YahtzeeScoresAsFourAndThree | Category.cs:64-96 | a hand scoring 50 as Yahtzee scores its chance value as four- and three-of-a-kind |
| Categories.FourOfAKindScoresAsThree | Category.cs:64-81 | a hand with some face on four dice gets the same outcome from four-of-a-kind as from three-of-a-kind |
| Categories.FiveOfAKindIsNoFullHouse | Category.cs:84-89 | five identical dice score 0 as a full house |
| Categories.LargeStraightScoresAsSmall | Category.cs:99-123 | a hand scoring 40 as large straight scores 30 as small straight |
| CalculateScore.NonEmpty | CalculateScore.cs:12-13 | a hand is rejected with `EmptyHand` exactly when it is empty |
| CalculateScore.CalculateCategoryScore | CalculateScore.cs:10-16 | fails exactly on the empty hand; otherwise the 32-bit count × category, within [0, length·category] when that cannot overflow |
| CalculateScore.CalculateYahtzeeScore | CalculateScore.cs:19-25 | fails exactly on the empty hand; otherwise 50 exactly when all dice agree |
| CalculateScore.CalculateThreeOfAKind | CalculateScore.cs:28-34 | rejected with `EmptyHand` exactly on the empty hand; otherwise, when some face shows three times, the checked sum, which is `Overflow` when a running sum leaves 32 bits; else 0 |
| CalculateScore.CalculateFourOfAKind | CalculateScore.cs:37-43 | rejected with `EmptyHand` exactly on the empty hand; otherwise, when some face shows four times, the checked sum, which is `Overflow` when a running sum leaves 32 bits; else 0 |
| CalculateScore.CalculateFullHouse | CalculateScore.cs:46-53 | fails exactly on the empty hand; otherwise 25 exactly for a three-and-two hand |
| CalculateScore.CalculateSmallStraight | CalculateScore.cs:56-69 | fails exactly on the empty hand; otherwise 30 exactly when four consecutive faces in 1..6 occur |
| CalculateScore.CalculateLargeStraight | CalculateScore.cs:72-79 | fails exactly on the empty hand; otherwise 40 exactly when the faces that occur are exactly five consecutive faces in 1..6 |
| CalculateScore.CalculateChance | CalculateScore.cs:82-88 | rejected with `EmptyHand` exactly on the empty hand; otherwise the checked sum, which is `Overflow` when a running sum leaves 32 bits, and for faces in 1..6 (at most 1,000,000 dice) lies between one and six per die |
| Agreement.FrontEndsAgreeOnFiveDice | CalculateScore.cs:10-88 | on five dice every `Category` scoring method returns the same outcome as its `CalculateScore` counterpart |
| Agreement.FrontEndsDisagreeOnLength | CalculateScore.cs:10-88 | a non-empty hand of any length other than five is rejected with `NotFiveDice` by all eight `Category` methods, while each `CalculateScore` method scores it with its rule |
| Agreement.LargeStraightRulesSplitOnSixDice | CalculateScore.cs:77-78 | on the hand 1,2,3,4,5,6 the subset rule scores 40, the exact rule 0 |
| ScoreCards.NewLegacy | ScoreCard.cs:88-90 | every legacy field and the legacy total start at 0 |
| ScoreCards.SetLegacyField | ScoreCard.cs:98-153 | a legacy setter changes its own field only and leaves the legacy total alone |
| ScoreCards.CalculateTotalScore | ScoreCard.cs:156-160 | the legacy total becomes the sum of the thirteen category fields (every field but `sum`); no field changes |
| ScoreCards.CategoryFieldsAreAllButSum | ScoreCard.cs:158-159 | the fields the legacy total adds are exactly the thirteen other than `sum` |
| ScoreCards.LegacyTotalExcludesSum | ScoreCard.cs:156-160 | the legacy total does not depend on the `sum` field |
| ScoreCards.LegacyTotalCountsField | ScoreCard.cs:156-160 | each of the thirteen category fields counts once in the legacy total |
| ScoreCards.GetCategoryByIndex | ScoreCard.cs:66-70 | index i addresses position i of the upper array followed by the lower array |
| ScoreCards.IsCategoryUsed | ScoreCard.cs:73-76 | reports the used flag of the slot at position i of the flat view, changing nothing |
| ScoreCards.FlatTotalSplits | ScoreCard.cs:44-47 | summing the two arrays separately (`ScoreSum`, the `Sum(c => c.Score)` of each array) equals summing slots 0..12 by index |
| ScoreCards.UpdateTotalScore | ScoreCard.cs:44-47 | afterwards the total equals the sum of all thirteen slot scores; slots are unchanged |
| ScoreCards.New | ScoreCard.cs:13-27 | six upper and seven lower slots, each fresh, total 0 and equal to the slot sum, legacy block all zero |
| ScoreCards.SetScore | ScoreCard.cs:30-41 | an unused slot i takes the score and becomes used, a used one is unchanged; other slots unchanged; afterwards total = slot sum; when the total already equalled the slot sum, it moves by exactly the change of slot i, and on a used slot the whole card is unchanged |
| ScoreCards.MarkCategoryAsUsed | ScoreCard.cs:79-86 | slot i becomes used with its score kept, other slots and the total unchanged, the total invariant preserved |
| ScoreCards.ResetScorecard | ScoreCard.cs:50-63 | every slot unused with score 0, total 0, legacy block untouched |
| ScoreCards.SetLegacyScore | ScoreCard.cs:98-153 | writing a legacy field sets that field only, keeps the legacy total, and leaves the slots and `TotalScore` untouched |
| ScoreCards.CalculateLegacyTotal | ScoreCard.cs:156-160 | the legacy total becomes the sum of the thirteen category fields; no field, slot or `TotalScore` changes |
| ScoreCards.ApplyKeepsTotal | ScoreCard.cs:30-86 | each of the card's own operations preserves "total equals the sum of the slot scores" |
| ScoreCards.RunKeepsTotal | ScoreCard.cs:30-63 | any sequence of the card's own operations preserves the total invariant |
| ScoreCards.TotalIsAlwaysSum | ScoreCard.cs:9-63 | from construction on, after any sequence of the card's own operations, the total equals the sum of the thirteen slot scores |
| ScoreCards.ClaimSixesTwice | ScoreCard.cs:30-41 | claiming Sixes with 24 marks it used; claiming it again with 0 keeps 24 |
| ScoreCards.OnesAndChanceTotal | ScoreCard.cs:30-63 | Ones = 3 and Chance = 20 give a total of 23; a reset gives 0 |

## Left out

- Form1.cs: window events, random rolls, dice images, message boxes and its unfinished `CalculateCategoryScore` stub are presentation, not scoring.
- Null lists: hands are Dafny sequences and cannot be null; the `null` halves of the validation checks are therefore not modelled.
- Exception types: each thrown `ArgumentException`/`OverflowException` is an `Err` value naming its cause; messages are not modelled.
- `CategoryName` and the two name arrays of the scorecard constructor: display strings only.
- The legacy getters, used flags, `IsXUsed` and `MarkXAsUsed` methods: plain field reads and writes with no logic and no link to the slots.
- LINQ iteration order of `GroupBy` and `Distinct` beyond first-occurrence order: every rule that uses them either sorts first or only tests membership.
- Face values are unbounded integers; a C# `List<int>` could not hold a face outside the 32-bit range, so the model admits more hands than the source can build.
- ScoreCards.GetCategoryByIndex: indices outside 0..12 make the source throw `IndexOutOfRangeException`; the model requires an index in range instead of modelling that exception.
- ScoreCards.GetCategoryByIndex: the source returns the live `Category` object, and the slot arrays are public with public setters, so a caller can change a slot (`GetCategoryByIndex(3).SetScore(10)`) or replace it without `UpdateTotalScore` running, leaving `TotalScore` stale. The model's slots are values, so the total invariant covers only the card's own operations. The game's window code never takes that path.
- ScoreCards.MarkCategoryAsUsed: the `category != null` test is not modelled; a slot is null only if a caller stores null into the public arrays, which the model's value slots cannot express.
- ScoreCards.SetScore: an index outside 0..12 is excluded by a precondition rather than modelled as the source's `IndexOutOfRangeException`; the same holds for `IsCategoryUsed` and `MarkCategoryAsUsed`.
- ScoreCards.UpdateTotalScore: slot scores are unbounded integers and the total is their exact sum. In the source each array's `Sum` is checked, so it throws once one array's scores leave the 32-bit range; because `SetScore` has already written the slot by then, `TotalScore` is left stale. The two array sums are then joined by an unchecked `+`, so when each fits but their total does not, `TotalScore` wraps. Neither happens with scores a game produces.
- ScoreCards.CalculateTotalScore: the legacy total is an exact sum; the source adds 32-bit integers unchecked, which wraps only for field values no game produces.
