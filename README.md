# Farkle turn engine in Dafny

This project models the turn engine of a console Farkle game. The model covers:

- **Scoring a roll.** One triple bonus per face: 1000 for three 1s, otherwise 100 times the face. The 1s and 5s left over score 100 and 50 each.
- **Rebuilding a sorted dice list** from per-face counts.
- **The exact-odds oracle.** It enumerates every ordered outcome of n dice. For each n it computes the chance of a bust (a roll that scores nothing) and the mean score, and memoises both.
- **The computer's choice of dice to keep.** It keeps every triple, then every loose 1 and 5.
- **The human's selection loop.** The human types face values until a 0.
- **The computer's roll-again rule.**
- **The turn loop itself.** It rolls, busts or keeps, handles hot dice, then asks or decides, until the turn is banked or busted.

Five modules follow the source's own sections:

- `Scoring` holds `calculatePoints` and `countsToDice`.
- `Selection` holds the computer's keep policy and the human's selection loop.
- `Oracle` holds `enumerateOutcomesRec`, `computeDiceStats` and the statistics cache.
- `Policy` holds `aiShouldRollAgain`.
- `Turn` holds `playTurn`.

Each imperative routine of the source is a `method` with its loops. Its contract ties it to a specification function, and lemmas about those functions state what the game promises. The statistics cache is a class with two `map` fields, updated in place. The turn loop is a `while (true)` method that runs passes. Each pass is proved equal to one step of the function `Play`, and lemmas about `Play` describe every finished turn.

Randomness and console input are parameters:

- The rand() values arrive as a finite stream, and a roll takes `rand() % 6 + 1` of the next values.
- The human's typed numbers arrive as one token list per selection prompt.
- The y/n answers arrive as one character per prompt.

In a few places the code does something other than what the rules it prints (`Farkle/Farkle.cpp:31-38`) or its own comments and messages say. The model follows the code:

- **Hot dice.** The printed rule 3 (`Farkle/Farkle.cpp:36`) and the comment at `Farkle/Farkle.cpp:253` say "all dice scored". The code tests for six kept dice (`Farkle/Farkle.cpp:254`). Keeping every die of a roll of fewer than six dice is not hot dice (`Turn.AfterScore`, `Turn.HumanHotDice`).
- **The size of the next roll.** Printed rule 5 (`Farkle/Farkle.cpp:38`) speaks of re-rolling the remaining dice. The code rolls six minus the dice kept in this pass (`Farkle/Farkle.cpp:270`, `Farkle/Farkle.cpp:294`), not the dice still in play. So keeping 1 die of a four-dice roll and rolling on rolls five dice (`Turn.ExampleFiveDiceAfterKeepingOneOfFour`).
- **The clamp to six dice.** The clamp that turns a next roll of zero or fewer dice into six appears on both the human and the computer path. It never fires, because six kept dice already took the hot-dice branch (`Turn.NextRollSize`, `Turn.EndPass`).
- **A human keep that scores nothing.** The message at `Farkle/Farkle.cpp:240` says "Try again", which reads as a new selection from the same roll. The `continue` at `Farkle/Farkle.cpp:241` instead rolls the same number of fresh dice (`Turn.AfterKeep`).
- **The computer's zero-point keep.** The comment at `Farkle/Farkle.cpp:244` says this "shouldn't happen". It cannot: the computer's keep scores whatever the roll scores (`Selection.AiKeepPreservesPoints`, `Turn.TurnLog`).
- **The "first roll" nudge.** The comment at `Farkle/Farkle.cpp:195` describes this override. It is checked after the rule that rolls on below 300 points, so it never changes the decision (`Policy.Decide`).

## Model

| member | source | states |
|---|---|---|
| Scoring.CountFaces | Farkle/Farkle.cpp:53-54 | the six counters hold, for each face, how many dice show it |
| Scoring.CalculatePoints | Farkle/Farkle.cpp:50-70 | the loop computes exactly `Points`: one triple bonus per face (1000 for 1s, 100·face otherwise), then 100 per remaining 1 and 50 per remaining 5 |
| Scoring.PointsOfEmpty | Farkle/Farkle.cpp:51 | the empty roll scores 0 |
| Scoring.PointsPermutationInvariant | Farkle/Farkle.cpp:53-54 | two rolls holding the same dice in any order score the same |
| Scoring.TripleBonusesMultipleOf100 | Farkle/Farkle.cpp:57-63 | all triple bonuses are multiples of 100 |
| Scoring.PointsMultipleOf50 | Farkle/Farkle.cpp:56-67 | every score is a non-negative multiple of 50 |
| Scoring.TripleBonusesDependOnTriples | Farkle/Farkle.cpp:57-63 | the triple bonuses depend only on which faces reach three |
| Scoring.TripleBonusesZero | Farkle/Farkle.cpp:57-63 | the triple bonuses are zero exactly when no face reaches three |
| Scoring.FarkleCondition | Farkle/Farkle.cpp:50-70 | a roll scores nothing exactly when it has no 1, no 5 and no face three times or more |
| Scoring.NonScoringFaceAddsNothing | Farkle/Farkle.cpp:57-67 | adding a 2, 3, 4 or 6 that does not complete a triple leaves the score unchanged |
| Scoring.ExampleSixTwos | Farkle/Farkle.cpp:57-63 | six 2s score 200: only one triple per face |
| Scoring.ExampleSixOnes | Farkle/Farkle.cpp:57-66 | six 1s score 1300 |
| Scoring.ExampleFourTwosAndFive | Farkle/Farkle.cpp:57-67 | 2 2 2 2 5 scores 250: the fourth 2 is wasted |
| Scoring.ExampleTripleOnesTwoFives | Farkle/Farkle.cpp:57-67 | 1 1 1 5 5 2 scores 1100 |
| Scoring.ExampleOneTwoFives | Farkle/Farkle.cpp:65-67 | 1 5 5 2 3 4 scores 200 |
| Scoring.ExampleNoScoringDice | Farkle/Farkle.cpp:50-70 | 2 3 4 6 2 3 scores 0 |
| Scoring.DrawnDice | Farkle/Farkle.cpp:223-237 | dice taken from a roll are die faces and no more numerous than the roll, so scoring them stays in bounds |
| Scoring.ExpandLength | Farkle/Farkle.cpp:75-77 | the first k faces' runs have total length the sum of their counts |
| Scoring.ExpandMultiset | Farkle/Farkle.cpp:75-77 | after the first k faces, face f occurs exactly counts[f-1] times, and no other value occurs |
| Scoring.ExpandSorted | Farkle/Farkle.cpp:75-77 | the runs of the first k faces are nondecreasing and use faces 1..k only |
| Scoring.CountsToDiceSpec | Farkle/Farkle.cpp:73-79 | the rebuilt list has length sum(counts), holds only faces, is sorted, and holds face f exactly counts[f-1] times |
| Scoring.TallyOfCountsToDice | Farkle/Farkle.cpp:73-79 | tallying the rebuilt list gives the counts back (round trip) |
| Scoring.CountsToDiceLoop | Farkle/Farkle.cpp:73-79 | the two nested push_back loops build exactly `CountsToDice` |
| Selection.KeepCountsFacts | Farkle/Farkle.cpp:122-133 | the kept counts never exceed the rolled counts, reach three exactly where the roll does, and keep every loose 1 and 5 |
| Selection.AiKeepSubMultiset | Farkle/Farkle.cpp:118-136 | every die the computer keeps comes from the roll (sub-multiset) |
| Selection.AiKeepPreservesPoints | Farkle/Farkle.cpp:118-136 | the computer's keep scores exactly what the whole roll scores |
| Selection.AiKeepScoresWhenRollScores | Farkle/Farkle.cpp:243-247 | a scoring roll gives a non-empty, scoring keep, so the "couldn't identify scoring dice" branch is dead |
| Selection.AiKeepSorted | Farkle/Farkle.cpp:135 | the keep comes back in increasing face order and holds only faces |
| Selection.AiChooseDiceToKeep | Farkle/Farkle.cpp:118-136 | the counter-based method returns exactly `AiKeep` |
| Selection.IndexOf | Farkle/Farkle.cpp:151 | the index is that of the first occurrence of the value, or the length when it is absent (std::find) |
| Selection.RemoveAtMultiset | Farkle/Farkle.cpp:154 | erasing one die removes exactly that one instance |
| Selection.SelectConserves | Farkle/Farkle.cpp:148-159 | kept plus available dice always make up the same multiset: no die is lost or duplicated |
| Selection.HumanKeepSubMultiset | Farkle/Farkle.cpp:148-159 | the human's keep is a sub-multiset of the roll and no longer than it |
| Selection.SelectStopsAtZero | Farkle/Farkle.cpp:150 | reading stops at the first 0: tokens after it change nothing |
| Selection.SelectAt | Farkle/Farkle.cpp:151-158 | a token found among the available dice moves one instance to the kept dice; a token not found is skipped and changes nothing |
| Selection.DrawFirst | Farkle/Farkle.cpp:151-155 | when all tokens are available, the first is found and the rest remain available after it is erased |
| Selection.SelectExact | Farkle/Farkle.cpp:149-155 | naming only available dice, each no more often than it appears, keeps exactly the dice named, in order |
| Selection.SelectDiceToKeepHuman | Farkle/Farkle.cpp:139-162 | the loop returns `HumanKeep` of the tokens, a sub-multiset of the roll |
| Oracle.EnumerateOutcomesRec | Farkle/Farkle.cpp:90-104 | the three counters grow by exactly what the recursion over the remaining dice counts |
| Oracle.CountsOfFirstFace | Farkle/Farkle.cpp:99-103 | the outcomes whose first die shows k contribute exactly their own zero count and point total |
| Oracle.CountFaceRangeIsListCount | Farkle/Farkle.cpp:99-103 | the face loop counts k·6^(n-1) outcomes, and the zeros and points of exactly the outcomes whose first die shows 1..k |
| Oracle.CountFromIsListCount | Farkle/Farkle.cpp:90-104 | the recursion counts 6^n outcomes, and the zeros and points of exactly the n-dice outcomes |
| Oracle.FirstFaceUpToLength | Farkle/Farkle.cpp:99-103 | there are k·6^(n-1) outcomes whose first die shows 1..k |
| Oracle.OutcomesLength | Farkle/Farkle.cpp:90-104 | there are 6^n outcomes of n dice |
| Oracle.FirstFaceUpToMembers | Farkle/Farkle.cpp:99-103 | the enumerated outcomes with first die at most k are exactly the length-n face sequences starting with at most k |
| Oracle.OutcomesMembers | Farkle/Farkle.cpp:90-104 | the enumerated outcomes are exactly the length-n sequences of faces |
| Oracle.FirstFaceUpToDistinct | Farkle/Farkle.cpp:99-103 | no outcome with first die at most k is enumerated twice |
| Oracle.OutcomesDistinct | Farkle/Farkle.cpp:90-104 | no outcome is enumerated twice |
| Oracle.Ratio | Farkle/Farkle.cpp:111-112 | the quotient is non-negative, and at most 1 when the numerator does not exceed the denominator |
| Oracle.ZeroCountAtMost | Farkle/Farkle.cpp:96 | the zero count never exceeds the number of outcomes |
| Oracle.StatsInRange | Farkle/Farkle.cpp:108-111 | zero-scoring outcomes never outnumber all outcomes; the bust chance lies in [0, 1] |
| Oracle.PointsOfOneDie | Farkle/Farkle.cpp:50-70 | a single 1 scores 100, a single 5 scores 50, and any other single die scores 0 |
| Oracle.OneDieCounts | Farkle/Farkle.cpp:90-104 | one die: 4 of 6 outcomes score nothing, and the outcomes score 150 in all |
| Oracle.OneDieStats | Farkle/Farkle.cpp:106-115 | one die: bust chance 4/6, mean score 25 |
| Oracle.PointsOfTwoDice | Farkle/Farkle.cpp:50-70 | two dice never make a triple, so they score the sum of their single values (100 per 1, 50 per 5) |
| Oracle.SecondDieUpTo | Farkle/Farkle.cpp:99-103 | for any scoring that values two dice one at a time, as the game's does: with the first die fixed, the face loop over the second die's faces 1..j counts j outcomes, the zeros among them (none unless the first die is worthless) and their points |
| Oracle.SecondDie | Farkle/Farkle.cpp:90-104 | a full roll of the second die after a first die k counts 6 outcomes, 4 zeros when k scores nothing (else 0), and 6·value(k) + 150 points |
| Oracle.FirstDieUpTo | Farkle/Farkle.cpp:99-103 | the face loop over the first die's faces 1..j, each followed by a full roll of the second, counts 6j outcomes and the matching zeros and points |
| Oracle.TwoDiceEnumeration | Farkle/Farkle.cpp:90-104 | under such a scoring, the recursion over two dice ends with 36 outcomes, 16 zeros and 1800 points |
| Oracle.TwoDiceCounts | Farkle/Farkle.cpp:90-104 | under such a scoring, among the 36 two-dice outcomes, 16 score nothing and all together score 1800 |
| Oracle.TwoDiceCountsOfPoints | Farkle/Farkle.cpp:90-104 | under the game's own scoring, 16 of the 36 two-dice outcomes score nothing and all together score 1800 |
| Oracle.TwoDiceStats | Farkle/Farkle.cpp:106-115 | two dice: bust chance 16/36, mean score 50 |
| Oracle.StatsOfEnumeration | Farkle/Farkle.cpp:108-112 | the counters after the enumeration give 6^n outcomes and exactly the bust chance and mean score |
| Oracle.StatsCache.constructor | Farkle/Farkle.cpp:82-87 | the cache starts empty and consistent |
| Oracle.StatsCache.ComputeDiceStats | Farkle/Farkle.cpp:106-115 | afterwards both maps hold the exact statistics at the key and are otherwise unchanged; a key already present leaves the cache untouched, so a second call is idempotent; both maps always share their keys |
| Policy.Decide | Farkle/Farkle.cpp:175-198 | roll on below 300; bank from 1000; from 600 to 999, roll exactly when the gain exceeds 100; from 300 to 599 with no points kept, roll exactly when the gain exceeds 100; the first-roll override never changes the result |
| Policy.OneDieLeftBanksFrom300 | Farkle/Farkle.cpp:166-199 | with one die left, the computer rolls again exactly when it holds fewer than 300 turn points |
| Policy.TwoDiceLeftBankFrom300 | Farkle/Farkle.cpp:166-199 | with two dice left (gain 250/9), likewise: the computer rolls again exactly when it holds fewer than 300 turn points |
| Policy.AiShouldRollAgain | Farkle/Farkle.cpp:166-199 | the method fills the cache entry and returns exactly `Decide` on the exact expected gain |
| Turn.Roll | Farkle/Farkle.cpp:44-47 | a roll has one die per rand() value, each a face 1..6 |
| Turn.NextRollSize | Farkle/Farkle.cpp:269-271 | the next roll has 6 − k dice when k < 6 are kept, otherwise 6 |
| Turn.Step | Farkle/Farkle.cpp:207-218 | a pass that continues keeps 1..6 dice in play and consumes rand() values |
| Turn.AfterRoll | Farkle/Farkle.cpp:213-237 | a pass that continues after the roll keeps 1..6 dice in play |
| Turn.AfterKeep | Farkle/Farkle.cpp:237-250 | a pass that continues after the keep keeps 1..6 dice in play |
| Turn.AfterScore | Farkle/Farkle.cpp:253-303 | a pass that continues after scoring keeps 1..6 dice in play |
| Turn.HumanAnswer | Farkle/Farkle.cpp:261-273 | after keeping fewer than six dice, a human's y/Y rolls 6 − kept dice, and any other answer banks |
| Turn.AiDecision | Farkle/Farkle.cpp:276-302 | after keeping fewer than six dice, the computer rolls 6 − kept dice exactly when its policy says so, and banks otherwise |
| Turn.KeepScores | Farkle/Farkle.cpp:237-250 | a scoring keep is logged and its points added to the turn points |
| Turn.LogOkEvents | Farkle/Farkle.cpp:207-304 | in a well-formed log every roll is well formed, only the last roll busts, the first roll has six dice, and each roll has the size the previous one calls for |
| Turn.StepOk | Farkle/Farkle.cpp:207-304 | every pass keeps the log well formed and the turn points equal to the sum of the kept points |
| Turn.PlayOk | Farkle/Farkle.cpp:207-304 | from any consistent state, the turn finishes with a well-formed log that extends the current one |
| Turn.TurnLog | Farkle/Farkle.cpp:202-313 | every turn: turn points are the sum of the scoring keeps, each worth more than 0; a bust exactly when the last roll scores nothing; a banked turn has earned points; the computer never makes a zero-point keep |
| Turn.KeepByTokens | Farkle/Farkle.cpp:148-159 | typing available dice and then 0 keeps exactly those dice |
| Turn.HumanScoringPass | Farkle/Farkle.cpp:207-250 | a human's scoring pass logs the keep, adds its points, and consumes one token list |
| Turn.HumanBanksFirstKeep | Farkle/Farkle.cpp:202-313 | a human who keeps fewer than six scoring dice on the first roll and declines banks exactly that keep's points |
| Turn.HumanHotDice | Farkle/Farkle.cpp:253-258 | keeping six dice leads to six fresh dice without a prompt |
| Turn.HumanRollsOn | Farkle/Farkle.cpp:261-273 | keeping fewer than six dice and answering y rolls 6 − kept dice, whatever was just rolled |
| Turn.ExampleHumanBanks200 | Farkle/Farkle.cpp:202-313 | rolling 1 5 5 2 3 4, keeping 1 5 5 and answering n banks 200 |
| Turn.ExampleBust | Farkle/Farkle.cpp:213-218 | rolling 2 3 4 6 2 3 busts with 0 points, for either player |
| Turn.ExampleHotDiceWithDeadDie | Farkle/Farkle.cpp:253-258 | keeping all of 1 1 1 5 5 2, dead 2 included, scores 1100 and rolls six again |
| Turn.ExampleFiveDiceAfterKeepingOneOfFour | Farkle/Farkle.cpp:268-273 | keeping one die of a four-dice roll and rolling on rolls five dice |
| Turn.PlayPass | Farkle/Farkle.cpp:207-304 | one pass of the loop as written equals `Step`; the cache stays consistent and keeps every entry it had |
| Turn.EndPass | Farkle/Farkle.cpp:253-303 | the end of a pass as written (hot dice, the y/n answer or the computer's decision, the clamp) equals `AfterScore`; the computer's decision after keeping k < 6 dice fills the cache entry for 6 − k dice with the exact statistics, and the cache is otherwise untouched |
| Turn.AiRollsAgain | Farkle/Farkle.cpp:277-289 | the cache entry for the dice the computer would roll holds their exact statistics afterwards, every other entry is unchanged, and the result is the policy's decision for them |
| Turn.PlayTurn | Farkle/Farkle.cpp:202-313 | the loop's result is `Play` of the inputs; the total grows by the turn points exactly when the turn is banked, and is unchanged after a bust; the cache keeps every entry it had |

## Left out

- Console output: every message, the dice display and the "AI analysis" printout (`Farkle/Farkle.cpp:228-234`, `Farkle/Farkle.cpp:280-287` apart from the cache refresh). `playerIndex` is used only for printing and is dropped.
- Console input:
  - `std::cin` state handling (`clear`, `ignore`) becomes input streams.
  - Each selection prompt reads one token list, which ends at a 0 or at the end of the list.
  - A non-numeric token, which stops the source's loop, is the end of that list.
  - Once the selection lists run out, every prompt sees an empty list.
- Running out of input. The source's rand() stream never ends, and a missing y/n answer leaves its `choice` uninitialised. The model ends such a turn with the outcome `OutOfInput` and leaves the total unchanged.
- rand()/srand(): the values are an input stream of naturals; their distribution is not modelled.
- Floating point. The statistics and the expected gain are exact rationals, not IEEE doubles, so rounding of the quotients and of the comparisons at 193 is not modelled.
- Integer widths. `int` and `long long` are unbounded integers. With at most six dice, the counts (6^6) and scores fit the source's types anyway.
- The global `statsCache` becomes a `StatsCache` object passed to the routines that use it.
- `rollDice` on the resized `dice` vector becomes taking `diceCount` values of the stream; the vector is represented by its size.
- `displayRules`, `menu`, `setupPlayers`, `checkWinner` and `main` are not part of this model: they are the console front end and the game loop around the turn engine.
