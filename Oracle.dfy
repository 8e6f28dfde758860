/** The exact outcome statistics: every ordered outcome of n fair dice is
    enumerated, the zero-scoring outcomes and the total points are counted,
    and the two ratios are memoised per dice count. */
module Oracle {
  import opened Scoring

  function Pow6(n: nat): (p: nat)
    ensures p >= 1
  {
    if n == 0 then 1 else 6 * Pow6(n - 1)
  }

  /** Puts face f in front of every sequence of ts. */
  function Prepend(f: int, ts: seq<seq<int>>): seq<seq<int>> {
    seq(|ts|, i requires 0 <= i < |ts| => [f] + ts[i])
  }

  /** The ordered outcomes of n dice, in the order the recursive enumeration
      visits them: the first die runs through 1 .. 6 outermost. */
  function Outcomes(n: nat): seq<seq<int>>
    decreases n, 1
  {
    if n == 0 then [[]] else FirstFaceUpTo(n, 6)
  }

  /** The outcomes of n dice whose first die shows 1 .. k. */
  function FirstFaceUpTo(n: nat, k: nat): seq<seq<int>>
    requires n >= 1
    decreases n, 0, k
  {
    if k == 0 then [] else FirstFaceUpTo(n, k - 1) + Prepend(k, Outcomes(n - 1))
  }

  /** The scores, under score, of the completions prefix + s for s in outs, in order. */
  function Scores(score: seq<int> -> nat, prefix: seq<int>, outs: seq<seq<int>>): (r: seq<nat>)
    ensures |r| == |outs|
    ensures forall i :: 0 <= i < |outs| ==> r[i] == score(prefix + outs[i])
  {
    seq(|outs|, i requires 0 <= i < |outs| => score(prefix + outs[i]))
  }

  /** How many of the values are zero. */
  function Zeros(xs: seq<nat>): (z: nat)
    ensures z <= |xs|
  {
    if xs == [] then 0 else Zeros(xs[..|xs| - 1]) + (if xs[|xs| - 1] == 0 then 1 else 0)
  }

  function Sum(xs: seq<nat>): nat {
    if xs == [] then 0 else Sum(xs[..|xs| - 1]) + xs[|xs| - 1]
  }

  /** How many of the completions prefix + s, s in outs, score nothing. */
  function ZeroCount(score: seq<int> -> nat, prefix: seq<int>, outs: seq<seq<int>>): nat {
    Zeros(Scores(score, prefix, outs))
  }

  /** The scores of all completions prefix + s, s in outs, added up. */
  function PointTotal(score: seq<int> -> nat, prefix: seq<int>, outs: seq<seq<int>>): nat {
    Sum(Scores(score, prefix, outs))
  }

  lemma {:induction false} ZerosSumOfAppend(a: seq<nat>, b: seq<nat>)
    ensures Zeros(a + b) == Zeros(a) + Zeros(b)
    ensures Sum(a + b) == Sum(a) + Sum(b)
    decreases |b|
  {
    if b == [] {
      assert a + b == a;
    } else {
      var b' := b[..|b| - 1];
      ZerosSumOfAppend(a, b');
      assert (a + b)[..|a + b| - 1] == a + b';
    }
  }

  lemma CountsOfAppend(score: seq<int> -> nat, p: seq<int>, a: seq<seq<int>>, b: seq<seq<int>>)
    ensures ZeroCount(score, p, a + b) == ZeroCount(score, p, a) + ZeroCount(score, p, b)
    ensures PointTotal(score, p, a + b) == PointTotal(score, p, a) + PointTotal(score, p, b)
  {
    assert Scores(score, p, a + b) == Scores(score, p, a) + Scores(score, p, b);
    ZerosSumOfAppend(Scores(score, p, a), Scores(score, p, b));
  }

  lemma CountsOfPrepend(score: seq<int> -> nat, p: seq<int>, f: int, ts: seq<seq<int>>)
    ensures ZeroCount(score, p, Prepend(f, ts)) == ZeroCount(score, p + [f], ts)
    ensures PointTotal(score, p, Prepend(f, ts)) == PointTotal(score, p + [f], ts)
  {
    forall i | 0 <= i < |ts| ensures p + Prepend(f, ts)[i] == p + [f] + ts[i] {
      assert p + ([f] + ts[i]) == p + [f] + ts[i];
    }
    assert Scores(score, p, Prepend(f, ts)) == Scores(score, p + [f], ts);
  }

  // ---------- The enumeration ----------

  /** The three counters the enumeration keeps: outcomes seen, outcomes that
      scored nothing, and points scored in all. */
  datatype Counters = Counters(combos: nat, zeros: nat, points: nat)

  function Add(a: Counters, b: Counters): Counters {
    Counters(a.combos + b.combos, a.zeros + b.zeros, a.points + b.points)
  }

  /** What the recursion adds to the counters when `current` is already rolled
      and `left` dice remain: score `current` when none remain, otherwise
      extend it by each face 1 .. 6 in turn. */
  function CountFrom(score: seq<int> -> nat, current: seq<int>, left: nat): Counters
    decreases left, 1
  {
    if left == 0 then Counters(1, if score(current) == 0 then 1 else 0, score(current))
    else CountFaceRange(score, current, left, 6)
  }

  /** The same, for the next die showing only faces 1 .. k. */
  function CountFaceRange(score: seq<int> -> nat, current: seq<int>, left: nat, k: nat): Counters
    requires left >= 1
    decreases left, 0, k
  {
    if k == 0 then Counters(0, 0, 0)
    else Add(CountFaceRange(score, current, left, k - 1), CountFrom(score, current + [k], left - 1))
  }

  /** The source's recursion. The three counters passed by reference become in
      and out parameters; the shared vector `current`, whose every push_back is
      undone by a pop_back, is passed as a value. */
  method EnumerateOutcomesRec(diceLeft: nat, current: seq<int>,
                              totalCombos: int, zeroScoreCombos: int, totalPoints: int)
    returns (totalCombos': int, zeroScoreCombos': int, totalPoints': int)
    requires AllFaces(current)
    ensures totalCombos' == totalCombos + CountFrom(Points, current, diceLeft).combos
    ensures zeroScoreCombos' == zeroScoreCombos + CountFrom(Points, current, diceLeft).zeros
    ensures totalPoints' == totalPoints + CountFrom(Points, current, diceLeft).points
    decreases diceLeft
  {
    if diceLeft == 0 {
      var pts := CalculatePoints(current);
      totalCombos' := totalCombos + 1;
      totalPoints' := totalPoints + pts;
      zeroScoreCombos' := if pts == 0 then zeroScoreCombos + 1 else zeroScoreCombos;
      return;
    }
    totalCombos', zeroScoreCombos', totalPoints' := totalCombos, zeroScoreCombos, totalPoints;
    for face := 1 to 7
      invariant totalCombos' == totalCombos + CountFaceRange(Points, current, diceLeft, face - 1).combos
      invariant zeroScoreCombos' == zeroScoreCombos + CountFaceRange(Points, current, diceLeft, face - 1).zeros
      invariant totalPoints' == totalPoints + CountFaceRange(Points, current, diceLeft, face - 1).points
    {
      assert AllFaces(current + [face]);
      totalCombos', zeroScoreCombos', totalPoints' :=
        EnumerateOutcomesRec(diceLeft - 1, current + [face], totalCombos', zeroScoreCombos', totalPoints');
    }
  }

  // ---------- What the recursion counts ----------

  /** Splitting off the outcomes whose first die shows k. */
  lemma CountsOfFirstFace(score: seq<int> -> nat, p: seq<int>, n: nat, k: nat)
    requires n >= 1 && k >= 1
    ensures ZeroCount(score, p, FirstFaceUpTo(n, k))
         == ZeroCount(score, p, FirstFaceUpTo(n, k - 1)) + ZeroCount(score, p + [k], Outcomes(n - 1))
    ensures PointTotal(score, p, FirstFaceUpTo(n, k))
         == PointTotal(score, p, FirstFaceUpTo(n, k - 1)) + PointTotal(score, p + [k], Outcomes(n - 1))
  {
    CountsOfAppend(score, p, FirstFaceUpTo(n, k - 1), Prepend(k, Outcomes(n - 1)));
    CountsOfPrepend(score, p, k, Outcomes(n - 1));
  }

  lemma {:induction false} CountFaceRangeIsListCount(score: seq<int> -> nat, p: seq<int>, n: nat, k: nat)
    requires n >= 1
    ensures CountFaceRange(score, p, n, k).combos == k * Pow6(n - 1)
    ensures CountFaceRange(score, p, n, k).zeros == ZeroCount(score, p, FirstFaceUpTo(n, k))
    ensures CountFaceRange(score, p, n, k).points == PointTotal(score, p, FirstFaceUpTo(n, k))
    decreases n, 0, k
  {
    if k > 0 {
      CountFaceRangeIsListCount(score, p, n, k - 1);
      CountFromIsListCount(score, p + [k], n - 1);
      CountsOfFirstFace(score, p, n, k);
      var sub := Pow6(n - 1);
      assert (k - 1) * sub + sub == k * sub;
    }
  }

  /** The recursion visits each of the 6^n outcomes of the remaining dice once:
      it counts 6^n outcomes, the zero-scoring ones among them, and the sum of
      their scores. */
  lemma {:induction false} CountFromIsListCount(score: seq<int> -> nat, p: seq<int>, n: nat)
    ensures CountFrom(score, p, n).combos == Pow6(n)
    ensures CountFrom(score, p, n).zeros == ZeroCount(score, p, Outcomes(n))
    ensures CountFrom(score, p, n).points == PointTotal(score, p, Outcomes(n))
    decreases n, 1
  {
    if n == 0 {
      assert p + [] == p;
      var r := Scores(score, p, Outcomes(0));
      assert r == [score(p)];
      assert r[..0] == [];
      assert Sum(r) == Sum(r[..0]) + score(p);
    } else {
      CountFaceRangeIsListCount(score, p, n, 6);
    }
  }

  // ---------- What the enumeration covers ----------

  lemma {:induction false} FirstFaceUpToLength(n: nat, k: nat)
    requires n >= 1
    ensures |FirstFaceUpTo(n, k)| == k * Pow6(n - 1)
    decreases n, 0, k
  {
    if k > 0 {
      FirstFaceUpToLength(n, k - 1);
      OutcomesLength(n - 1);
    }
  }

  /** There are 6^n outcomes of n dice. */
  lemma {:induction false} OutcomesLength(n: nat)
    ensures |Outcomes(n)| == Pow6(n)
    decreases n, 1
  {
    if n > 0 {
      FirstFaceUpToLength(n, 6);
    }
  }

  lemma {:induction false} FirstFaceUpToMembers(n: nat, k: nat, s: seq<int>)
    requires n >= 1 && k <= 6
    ensures s in FirstFaceUpTo(n, k) <==> |s| == n && AllFaces(s) && s[0] <= k
    decreases n, 0, k
  {
    if k > 0 {
      FirstFaceUpToMembers(n, k - 1, s);
      if |s| == n && AllFaces(s) {
        OutcomesMembers(n - 1, s[1..]);
        if s[0] == k {
          assert s == [k] + s[1..];
          assert s == Prepend(k, Outcomes(n - 1))[IndexIn(s[1..], Outcomes(n - 1))];
        }
      }
      if s in Prepend(k, Outcomes(n - 1)) {
        var i :| 0 <= i < |Outcomes(n - 1)| && s == [k] + Outcomes(n - 1)[i];
        OutcomesMembers(n - 1, Outcomes(n - 1)[i]);
      }
    }
  }

  /** Some position of x in xs. */
  function IndexIn(x: seq<int>, xs: seq<seq<int>>): (i: nat)
    requires x in xs
    ensures i < |xs| && xs[i] == x
  {
    if xs[0] == x then 0 else 1 + IndexIn(x, xs[1..])
  }

  /** The outcomes of n dice are exactly the length-n sequences of die faces. */
  lemma {:induction false} OutcomesMembers(n: nat, s: seq<int>)
    ensures s in Outcomes(n) <==> |s| == n && AllFaces(s)
    decreases n, 1
  {
    if n > 0 {
      FirstFaceUpToMembers(n, 6, s);
    }
  }

  predicate Distinct(xs: seq<seq<int>>) {
    forall i, j :: 0 <= i < j < |xs| ==> xs[i] != xs[j]
  }

  lemma {:induction false} FirstFaceUpToDistinct(n: nat, k: nat)
    requires n >= 1 && k <= 6
    ensures Distinct(FirstFaceUpTo(n, k))
    decreases n, 0, k
  {
    if k > 0 {
      FirstFaceUpToDistinct(n, k - 1);
      OutcomesDistinct(n - 1);
      var a, b := FirstFaceUpTo(n, k - 1), Prepend(k, Outcomes(n - 1));
      forall i, j | 0 <= i < j < |a + b| ensures (a + b)[i] != (a + b)[j] {
        if j >= |a| && i < |a| {
          FirstFaceUpToMembers(n, k - 1, a[i]);
          assert b[j - |a|][0] == k;
        } else if i >= |a| {
          assert b[i - |a|][1..] == Outcomes(n - 1)[i - |a|];
          assert b[j - |a|][1..] == Outcomes(n - 1)[j - |a|];
        }
      }
    }
  }

  /** No outcome is enumerated twice. */
  lemma {:induction false} OutcomesDistinct(n: nat)
    ensures Distinct(Outcomes(n))
    decreases n, 1
  {
    if n > 0 {
      FirstFaceUpToDistinct(n, 6);
    }
  }

  // ---------- The statistics ----------

  /** The number of zero-scoring outcomes of n dice. */
  function ZeroScoreCombos(n: nat): nat {
    ZeroCount(Points, [], Outcomes(n))
  }

  /** The points of all outcomes of n dice, added up. */
  function TotalPoints(n: nat): nat {
    PointTotal(Points, [], Outcomes(n))
  }

  /** a / b as an exact real number. */
  function Ratio(a: nat, b: nat): (r: real)
    requires b >= 1
    ensures r >= 0.0
    ensures a <= b ==> r <= 1.0
  {
    a as real / b as real
  }

  /** The exact chance that n dice score nothing. */
  function FarkleProb(n: nat): real {
    Ratio(ZeroScoreCombos(n), Pow6(n))
  }

  /** The exact mean score of a roll of n dice. */
  function ExpectedPoints(n: nat): real {
    Ratio(TotalPoints(n), Pow6(n))
  }

  lemma ZeroCountAtMost(score: seq<int> -> nat, p: seq<int>, outs: seq<seq<int>>)
    ensures ZeroCount(score, p, outs) <= |outs|
  {
  }

  /** The zero-scoring outcomes are among the 6^n outcomes, so the bust chance
      is a probability. */
  lemma StatsInRange(n: nat)
    ensures ZeroScoreCombos(n) <= Pow6(n)
    ensures 0.0 <= FarkleProb(n) <= 1.0
  {
    OutcomesLength(n);
    ZeroCountAtMost(Points, [], Outcomes(n));
  }

  lemma PointsOfOneDie()
    ensures Points([1]) == 100 && Points([5]) == 50
    ensures Points([2]) == 0 && Points([3]) == 0 && Points([4]) == 0 && Points([6]) == 0
  {
    assert Tally([1]) == [1, 0, 0, 0, 0, 0];
    assert Tally([2]) == [0, 1, 0, 0, 0, 0];
    assert Tally([3]) == [0, 0, 1, 0, 0, 0];
    assert Tally([4]) == [0, 0, 0, 1, 0, 0];
    assert Tally([5]) == [0, 0, 0, 0, 1, 0];
    assert Tally([6]) == [0, 0, 0, 0, 0, 1];
  }

  lemma {:induction false} FirstFaceUpToOne(k: nat)
    ensures FirstFaceUpTo(1, k) == seq(k, i => [i + 1])
  {
    if k > 0 {
      FirstFaceUpToOne(k - 1);
      assert Outcomes(0) == [[]];
      var pre := Prepend(k, Outcomes(0));
      assert |pre| == 1 && pre[0] == [k] + [];
      assert [k] + [] == [k];
      assert pre == [[k]];
    }
  }

  lemma ScoresOfOneDie(score: seq<int> -> nat)
    ensures Scores(score, [], Outcomes(1))
         == [score([1]), score([2]), score([3]), score([4]), score([5]), score([6])]
  {
    FirstFaceUpToOne(6);
    var outs := Outcomes(1);
    assert outs == [[1], [2], [3], [4], [5], [6]];
    forall i | 0 <= i < 6 ensures [] + outs[i] == outs[i] {
    }
  }

  lemma ZerosAndSumOfOneDie()
    ensures Zeros([100, 0, 0, 0, 50, 0]) == 4 && Sum([100, 0, 0, 0, 50, 0]) == 150
  {
    var r: seq<nat> := [100, 0, 0, 0, 50, 0];
    assert r[..1][..0] == [];
    assert Zeros(r[..1]) == 0 && Sum(r[..1]) == 100;
    assert r[..2][..1] == r[..1];
    assert Zeros(r[..2]) == 1 && Sum(r[..2]) == 100;
    assert r[..3][..2] == r[..2];
    assert Zeros(r[..3]) == 2 && Sum(r[..3]) == 100;
    assert r[..4][..3] == r[..3];
    assert Zeros(r[..4]) == 3 && Sum(r[..4]) == 100;
    assert r[..5][..4] == r[..4];
    assert Zeros(r[..5]) == 3 && Sum(r[..5]) == 150;
    assert r[..5] == r[..|r| - 1];
  }

  /** One die: four of the six faces score nothing, and the faces score 150 in
      all, so the bust chance is 4/6 and the mean score 25. */
  lemma OneDieCounts()
    ensures ZeroScoreCombos(1) == 4 && TotalPoints(1) == 150
  {
    ScoresOfOneDie(Points);
    PointsOfOneDie();
    ZerosAndSumOfOneDie();
  }

  lemma OneDieStats()
    ensures ZeroScoreCombos(1) == 4 && TotalPoints(1) == 150
    ensures FarkleProb(1) == 4.0 / 6.0 && ExpectedPoints(1) == 25.0
  {
    OneDieCounts();
    assert Pow6(1) == 6;
  }

  // ---------- Two dice ----------

  /** The points a lone die is worth: 100 for a 1, 50 for a 5, else nothing. */
  function DieValue(f: int): nat {
    if f == 1 then 100 else if f == 5 then 50 else 0
  }

  /** How many of the faces 1 .. j are worth nothing alone. */
  function WorthlessFacesUpTo(j: nat): nat {
    if j == 0 then 0 else WorthlessFacesUpTo(j - 1) + (if DieValue(j) == 0 then 1 else 0)
  }

  /** What the faces 1 .. j are worth alone, added up. */
  function FaceValuesUpTo(j: nat): nat {
    if j == 0 then 0 else FaceValuesUpTo(j - 1) + DieValue(j)
  }

  /** v added up n times. */
  function Times(v: nat, n: nat): nat {
    if n == 0 then 0 else Times(v, n - 1) + v
  }

  lemma {:induction false} TimesIsProduct(v: nat, n: nat)
    ensures Times(v, n) == n * v
  {
    if n > 0 {
      TimesIsProduct(v, n - 1);
    }
  }

  /** Two dice cannot make a triple, so each scores on its own. */
  lemma PointsOfTwoDice(a: int, b: int)
    ensures Points([a, b]) == DieValue(a) + DieValue(b)
  {
    var c := Tally([a, b]);
    assert multiset([a, b]) == multiset{a, b};
    forall i | 0 <= i < 6 ensures c[i] < 3 {
      assert c[i] == multiset{a, b}[i + 1];
    }
    TripleBonusesZero(c, 6);
    assert c[0] == (if a == 1 then 1 else 0) + (if b == 1 then 1 else 0);
    assert c[4] == (if a == 5 then 1 else 0) + (if b == 5 then 1 else 0);
  }

  /** One more face of the loop over the next die. */
  lemma FaceRangeStep(score: seq<int> -> nat, current: seq<int>, left: nat, k: nat)
    requires left >= 1 && k >= 1
    ensures CountFaceRange(score, current, left, k)
         == Add(CountFaceRange(score, current, left, k - 1), CountFrom(score, current + [k], left - 1))
  {
  }

  /** A finished outcome counts once, as a zero when it scores nothing. */
  lemma FinishedOutcome(score: seq<int> -> nat, current: seq<int>)
    ensures CountFrom(score, current, 0)
         == Counters(1, if score(current) == 0 then 1 else 0, score(current))
  {
  }

  /** The second die's loop over the faces 1 .. j, once the first die shows k,
      as the counts it adds up to when two dice score one at a time. */
  function PairCounts(k: int, j: nat): Counters {
    Counters(j, if DieValue(k) == 0 then WorthlessFacesUpTo(j) else 0, Times(DieValue(k), j) + FaceValuesUpTo(j))
  }

  /** The outcome k, j adds one combination, a zero exactly when neither die scores. */
  lemma PairCountsStep(k: int, j: nat)
    requires j >= 1
    ensures PairCounts(k, j)
         == Add(PairCounts(k, j - 1),
                Counters(1, if DieValue(k) + DieValue(j) == 0 then 1 else 0, DieValue(k) + DieValue(j)))
  {
  }

  /** Face j of the second die, after a first die showing k. */
  lemma SecondDieFace(score: seq<int> -> nat, k: int, j: nat)
    requires j >= 1
    requires score([k, j]) == DieValue(k) + DieValue(j)
    requires CountFaceRange(score, [k], 1, j - 1) == PairCounts(k, j - 1)
    ensures CountFaceRange(score, [k], 1, j) == PairCounts(k, j)
  {
    FaceRangeStep(score, [k], 1, j);
    assert [k] + [j] == [k, j];
    FinishedOutcome(score, [k, j]);
    PairCountsStep(k, j);
  }

  /** A scoring that values two dice one at a time, as Points does. */
  ghost predicate ScoresPairsSingly(score: seq<int> -> nat) {
    forall a, b :: score([a, b]) == DieValue(a) + DieValue(b)
  }

  /** The second die's loop over the faces 1 .. j, once the first die shows k. */
  lemma {:induction false} SecondDieUpTo(score: seq<int> -> nat, k: int, j: nat)
    requires ScoresPairsSingly(score)
    ensures CountFaceRange(score, [k], 1, j) == PairCounts(k, j)
  {
    if j > 0 {
      SecondDieUpTo(score, k, j - 1);
      SecondDieFace(score, k, j);
    }
  }

  /** What the second die's full roll after a first die showing k adds up to. */
  function SecondDieCounts(k: int): Counters {
    Counters(6, if DieValue(k) == 0 then 4 else 0, 6 * DieValue(k) + 150)
  }

  lemma PairCountsOfAllFaces(k: int)
    ensures PairCounts(k, 6) == SecondDieCounts(k)
  {
    TimesIsProduct(DieValue(k), 6);
    assert WorthlessFacesUpTo(6) == 4 && FaceValuesUpTo(6) == 150;
  }

  /** The second die rolled in full after a first die showing k. */
  lemma SecondDie(score: seq<int> -> nat, k: int)
    requires ScoresPairsSingly(score)
    ensures CountFrom(score, [k], 1) == SecondDieCounts(k)
  {
    SecondDieUpTo(score, k, 6);
    PairCountsOfAllFaces(k);
  }

  /** One more face of the first die's loop, with one die still to roll after it. */
  lemma FirstDieStep(score: seq<int> -> nat, j: nat)
    requires j >= 1
    ensures CountFaceRange(score, [], 2, j)
         == Add(CountFaceRange(score, [], 2, j - 1), CountFrom(score, [j], 1))
  {
    assert [] + [j] == [j];
  }

  /** The first die's loop over the faces 1 .. j, with the second die rolled in
      full, as the counts it adds up to. */
  function FirstDieCounts(j: nat): Counters {
    Counters(6 * j, 4 * WorthlessFacesUpTo(j), 6 * FaceValuesUpTo(j) + 150 * j)
  }

  /** The counts over the faces 1 .. i + 1 grow by one full roll of the second die. */
  lemma FirstDieCountsStep(i: nat)
    ensures FirstDieCounts(i + 1) == Add(FirstDieCounts(i), SecondDieCounts(i + 1))
  {
  }

  /** Face i + 1 of the first die adds what the second die's full roll adds. */
  lemma FirstDieFace(score: seq<int> -> nat, i: nat)
    requires CountFrom(score, [i + 1], 1) == SecondDieCounts(i + 1)
    requires CountFaceRange(score, [], 2, i) == FirstDieCounts(i)
    ensures CountFaceRange(score, [], 2, i + 1) == FirstDieCounts(i + 1)
  {
    FirstDieStep(score, i + 1);
    FirstDieCountsStep(i);
  }

  /** The first die's loop over the faces 1 .. j. */
  lemma {:induction false} FirstDieUpTo(score: seq<int> -> nat, j: nat)
    requires ScoresPairsSingly(score)
    ensures CountFaceRange(score, [], 2, j) == FirstDieCounts(j)
  {
    if j > 0 {
      var i := j - 1;
      FirstDieUpTo(score, i);
      SecondDie(score, i + 1);
      FirstDieFace(score, i);
    }
  }

  lemma FirstDieCountsOfAllFaces()
    ensures FirstDieCounts(6) == Counters(36, 16, 1800)
  {
    assert WorthlessFacesUpTo(6) == 4 && FaceValuesUpTo(6) == 150;
  }

  /** The enumeration of two dice under any scoring that values them one at a time. */
  lemma TwoDiceEnumeration(score: seq<int> -> nat)
    requires ScoresPairsSingly(score)
    ensures CountFrom(score, [], 2) == Counters(36, 16, 1800)
  {
    FirstDieUpTo(score, 6);
    FirstDieCountsOfAllFaces();
  }

  /** The 36 outcomes of two dice, under the same scoring. */
  lemma TwoDiceCounts(score: seq<int> -> nat, n: nat)
    requires ScoresPairsSingly(score) && n == 2
    ensures ZeroCount(score, [], Outcomes(n)) == 16 && PointTotal(score, [], Outcomes(n)) == 1800
  {
    TwoDiceEnumeration(score);
    CountFromIsListCount(score, [], n);
  }

  lemma PointsScoresPairsSingly()
    ensures ScoresPairsSingly(Points)
  {
    forall a, b
      ensures Points([a, b]) == DieValue(a) + DieValue(b)
    {
      PointsOfTwoDice(a, b);
    }
  }

  lemma TwoDiceCountsOfPoints(n: nat)
    requires n == 2
    ensures ZeroScoreCombos(n) == 16 && TotalPoints(n) == 1800
  {
    PointsScoresPairsSingly();
    TwoDiceCounts(Points, n);
  }

  /** Two dice: 16 of the 36 outcomes score nothing, and the outcomes score
      1800 in all, so the bust chance is 16/36 and the mean score 50. (The
      count is a parameter so that the solver does not evaluate the
      enumeration of the literal 2 on its own.) */
  lemma TwoDiceStats(n: nat)
    requires n == 2
    ensures ZeroScoreCombos(n) == 16 && TotalPoints(n) == 1800
    ensures FarkleProb(n) == 16.0 / 36.0 && ExpectedPoints(n) == 50.0
  {
    TwoDiceCountsOfPoints(n);
    assert Pow6(n) == 36;
  }

  /** The counters the enumeration of n dice ends with give the exact statistics. */
  lemma StatsOfEnumeration(n: nat, combos: int, zeros: int, points: int)
    requires combos == CountFrom(Points, [], n).combos
    requires zeros == CountFrom(Points, [], n).zeros
    requires points == CountFrom(Points, [], n).points
    ensures combos == Pow6(n)
    ensures zeros as real / combos as real == FarkleProb(n)
    ensures points as real / combos as real == ExpectedPoints(n)
  {
    CountFromIsListCount(Points, [], n);
  }

  // ---------- The memo table ----------

  /** The two memo maps of the statistics, keyed by dice count. Every entry
      holds the exact statistics of its key, and both maps always have the
      same keys. */
  class StatsCache {
    var farkleProb: map<int, real>
    var expectedPoints: map<int, real>

    ghost predicate Valid()
      reads this
    {
      farkleProb.Keys == expectedPoints.Keys &&
      forall n :: n in farkleProb ==>
        n >= 0 && farkleProb[n] == FarkleProb(n) && expectedPoints[n] == ExpectedPoints(n)
    }

    constructor ()
      ensures Valid()
      ensures farkleProb == map[] && expectedPoints == map[]
    {
      farkleProb := map[];
      expectedPoints := map[];
    }

    /** Computes and stores the statistics of diceCount dice, unless they are
        already stored; a second call for the same count changes nothing. */
    method ComputeDiceStats(diceCount: nat)
      requires Valid()
      modifies this
      ensures Valid()
      ensures diceCount in farkleProb && diceCount in expectedPoints
      ensures old(diceCount in farkleProb) ==> unchanged(this)
      ensures farkleProb == old(farkleProb)[diceCount := FarkleProb(diceCount)]
      ensures expectedPoints == old(expectedPoints)[diceCount := ExpectedPoints(diceCount)]
    {
      if diceCount in farkleProb {
        assert farkleProb == farkleProb[diceCount := FarkleProb(diceCount)];
        assert expectedPoints == expectedPoints[diceCount := ExpectedPoints(diceCount)];
        return;
      }
      var totalCombos, zeroScoreCombos, totalPoints := EnumerateOutcomesRec(diceCount, [], 0, 0, 0);
      StatsOfEnumeration(diceCount, totalCombos, zeroScoreCombos, totalPoints);
      var farkle := zeroScoreCombos as real / totalCombos as real;
      var expected := totalPoints as real / totalCombos as real;
      farkleProb := farkleProb[diceCount := farkle];
      expectedPoints := expectedPoints[diceCount := expected];
    }
  }
}
