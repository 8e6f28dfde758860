/** The computer's decision whether to roll again after keeping dice: a
    threshold rule over the points banked so far this turn, the points of
    the last keep, and the expected gain of one more roll of the remaining
    dice. */
module Policy {
  import opened Oracle

  /** The chance-weighted gain of rolling n dice once more: the chance of not
      busting times the mean score of the roll. */
  function ExpectedGain(n: nat): real {
    (1.0 - FarkleProb(n)) * ExpectedPoints(n)
  }

  /** The gain a roll must beat outright: 150 below 600 turn points, else 100. */
  function Threshold(turnPoints: int): real {
    if turnPoints < 600 then 150.0 else 100.0
  }

  /** The rule without its closing "first roll" override: roll on below 300,
      bank from 1000, and in between roll when the gain beats the threshold,
      or beats 100 while exceeding a quarter of the last keep. */
  function RuleWithoutOverride(turnPoints: int, keptPointsThisRoll: int, expectedGain: real): bool {
    turnPoints < 300 ||
    (turnPoints < 1000 &&
     (expectedGain > Threshold(turnPoints) ||
      (expectedGain - keptPointsThisRoll as real * 0.25 > 0.0 && expectedGain > 100.0)))
  }

  /** The decision as the source takes it, override included. Rolling on
      below 300 and banking from 1000 are unconditional; from 600 on the
      last keep plays no part; and the override for a fresh six-dice turn
      never changes the outcome. */
  function Decide(diceRemaining: int, turnPoints: int, keptPointsThisRoll: int, expectedGain: real): (b: bool)
    ensures turnPoints < 300 ==> b
    ensures turnPoints >= 1000 ==> !b
    ensures 600 <= turnPoints < 1000 ==> (b <==> expectedGain > 100.0)
    ensures 300 <= turnPoints < 600 && keptPointsThisRoll <= 0 ==> (b <==> expectedGain > 100.0)
    ensures b == RuleWithoutOverride(turnPoints, keptPointsThisRoll, expectedGain)
  {
    if turnPoints < 300 then true
    else if turnPoints >= 1000 then false
    else
      var threshold := if turnPoints < 600 then 150.0 else 100.0;
      var relative := expectedGain - keptPointsThisRoll as real * 0.25;
      var decision := expectedGain > threshold || (relative > 0.0 && expectedGain > 100.0);
      if diceRemaining == 6 && turnPoints == 0 then true else decision
  }

  /** Whether the computer rolls again with n dice left, using the exact statistics. */
  function RollAgain(diceRemaining: nat, turnPoints: int, keptPointsThisRoll: int): bool {
    Decide(diceRemaining, turnPoints, keptPointsThisRoll, ExpectedGain(diceRemaining))
  }

  /** With a single die left the gain of one more roll is 25/3 points, so the
      computer banks as soon as it holds 300 points or more. */
  lemma OneDieLeftBanksFrom300(turnPoints: int, keptPointsThisRoll: int)
    ensures RollAgain(1, turnPoints, keptPointsThisRoll) <==> turnPoints < 300
  {
    OneDieStats();
    assert ExpectedGain(1) == (1.0 - 4.0 / 6.0) * 25.0;
  }

  /** With two dice left the gain of one more roll is 250/9 points, so here
      too the computer banks as soon as it holds 300 points or more. */
  lemma TwoDiceLeftBankFrom300(turnPoints: int, keptPointsThisRoll: int)
    ensures RollAgain(2, turnPoints, keptPointsThisRoll) <==> turnPoints < 300
  {
    TwoDiceStats(2);
    assert ExpectedGain(2) == (1.0 - 16.0 / 36.0) * 50.0;
  }

  /** The source's function: fetch (computing and caching if need be) the
      statistics of the remaining dice, then decide. */
  method AiShouldRollAgain(cache: StatsCache, diceRemaining: nat, turnPoints: int, keptPointsThisRoll: int)
    returns (rollAgain: bool)
    requires cache.Valid()
    modifies cache
    ensures cache.Valid()
    ensures rollAgain == RollAgain(diceRemaining, turnPoints, keptPointsThisRoll)
    ensures cache.farkleProb == old(cache.farkleProb)[diceRemaining := FarkleProb(diceRemaining)]
    ensures cache.expectedPoints == old(cache.expectedPoints)[diceRemaining := ExpectedPoints(diceRemaining)]
  {
    cache.ComputeDiceStats(diceRemaining);
    var farkleChance := cache.farkleProb[diceRemaining];
    var expectedImmediate := cache.expectedPoints[diceRemaining];
    var expectedGain := (1.0 - farkleChance) * expectedImmediate;
    assert farkleChance == FarkleProb(diceRemaining) && expectedImmediate == ExpectedPoints(diceRemaining);
    assert expectedGain == ExpectedGain(diceRemaining);
    ghost var spec := Decide(diceRemaining, turnPoints, keptPointsThisRoll, expectedGain);
    assert spec == RollAgain(diceRemaining, turnPoints, keptPointsThisRoll);
    if turnPoints < 300 {
      return true;
    }
    if turnPoints >= 1000 {
      return false;
    }
    var threshold: real;
    if turnPoints < 600 {
      threshold := 150.0;
    } else {
      threshold := 100.0;
    }
    var relative := expectedGain - keptPointsThisRoll as real * 0.25;
    var decision := (expectedGain > threshold) || (relative > 0.0 && expectedGain > 100.0);
    if diceRemaining == 6 && turnPoints == 0 {
      decision := true;
    }
    rollAgain := decision;
  }
}
