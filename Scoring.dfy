/** Scoring of a Farkle roll: per-face tallies, one triple bonus per face,
    loose ones and fives; and the rebuilding of a sorted dice list from
    six per-face counts. */
module Scoring {

  /** A die face, 1 through 6. */
  predicate IsFace(d: int) { 1 <= d <= 6 }

  predicate AllFaces(dice: seq<int>) {
    forall i :: 0 <= i < |dice| ==> IsFace(dice[i])
  }

  predicate Nondecreasing(s: seq<int>) {
    forall i, j :: 0 <= i <= j < |s| ==> s[i] <= s[j]
  }

  /** The six per-face counts of a roll: entry i holds how often face i + 1 occurs. */
  function Tally(dice: seq<int>): seq<nat> {
    seq(6, i => multiset(dice)[i + 1])
  }

  /** The bonus for one triple of the face at index i (face i + 1). */
  function TripleValue(i: int): nat
    requires 0 <= i < 6
  {
    if i == 0 then 1000 else (i + 1) * 100
  }

  /** A count once the one triple it may hold has been taken out. */
  function AfterTriple(n: nat): nat {
    if n >= 3 then n - 3 else n
  }

  /** Triple bonuses earned by the faces at indices 0 .. k - 1, at most one per face. */
  function TripleBonuses(c: seq<nat>, k: nat): nat
    requires k <= |c|
    requires k <= 6
  {
    if k == 0 then 0
    else TripleBonuses(c, k - 1) + (if c[k - 1] >= 3 then TripleValue(k - 1) else 0)
  }

  /** The points of a roll given its six per-face counts. */
  function ScoreCounts(c: seq<nat>): nat
    requires |c| == 6
  {
    TripleBonuses(c, 6) + AfterTriple(c[0]) * 100 + AfterTriple(c[4]) * 50
  }

  /** The points of a roll. */
  function Points(dice: seq<int>): nat {
    ScoreCounts(Tally(dice))
  }

  /** The counting loop both scoring and the computer's keep start with:
      a fresh array of six counters, counter i holding the number of dice
      showing face i + 1. */
  method CountFaces(dice: seq<int>) returns (counts: array<int>)
    requires AllFaces(dice)
    ensures fresh(counts) && counts.Length == 6
    ensures forall i :: 0 <= i < 6 ==> counts[i] == Tally(dice)[i]
  {
    counts := new int[6](_ => 0);
    for k := 0 to |dice|
      invariant forall i :: 0 <= i < 6 ==> counts[i] == multiset(dice[..k])[i + 1]
    {
      assert dice[..k + 1] == dice[..k] + [dice[k]];
      counts[dice[k] - 1] := counts[dice[k] - 1] + 1;
    }
    assert dice[..|dice|] == dice;
  }

  /** Scores a roll the way the source does: tally the faces into six counters,
      take one triple out of every counter that reaches three, then add the
      leftover ones and fives. */
  method CalculatePoints(dice: seq<int>) returns (points: int)
    requires AllFaces(dice)
    ensures points == Points(dice)
  {
    if |dice| == 0 {
      assert dice == [];
      PointsOfEmpty();
      return 0;
    }
    points := 0;
    var counts := CountFaces(dice);
    ghost var c := Tally(dice);
    for i := 0 to 6
      invariant forall j :: 0 <= j < i ==> counts[j] == AfterTriple(c[j])
      invariant forall j :: i <= j < 6 ==> counts[j] == c[j]
      invariant points == TripleBonuses(c, i)
    {
      if counts[i] >= 3 {
        if i == 0 {
          points := points + 1000;
        } else {
          points := points + (i + 1) * 100;
        }
        counts[i] := counts[i] - 3;
      }
    }
    points := points + counts[0] * 100;
    points := points + counts[4] * 50;
  }

  /** Dice drawn from a roll of die faces are die faces, and no more of them
      than were rolled. */
  lemma DrawnDice(part: seq<int>, whole: seq<int>)
    requires AllFaces(whole)
    requires multiset(part) <= multiset(whole)
    ensures AllFaces(part) && |part| <= |whole|
  {
    forall i | 0 <= i < |part| ensures IsFace(part[i]) {
      assert part[i] in multiset(whole);
    }
    var rest := multiset(whole) - multiset(part);
    assert multiset(whole) == multiset(part) + rest;
    assert |multiset(whole)| == |multiset(part)| + |rest|;
  }

  // ---------- Properties of the score ----------

  lemma PointsOfEmpty()
    ensures Points([]) == 0
  {
    assert Tally([]) == [0, 0, 0, 0, 0, 0];
  }

  /** The score depends on the per-face counts only, so reordering a roll keeps it. */
  lemma PointsPermutationInvariant(a: seq<int>, b: seq<int>)
    requires multiset(a) == multiset(b)
    ensures Points(a) == Points(b)
  {
    assert Tally(a) == Tally(b);
  }

  lemma {:induction false} TripleBonusesMultipleOf100(c: seq<nat>, k: nat)
    requires k <= |c| && k <= 6
    ensures TripleBonuses(c, k) % 100 == 0
  {
    if k > 0 {
      TripleBonusesMultipleOf100(c, k - 1);
      var i := k - 1;
      assert TripleValue(i) % 100 == 0 by {
        if i == 0 {} else if i == 1 {} else if i == 2 {} else if i == 3 {} else if i == 4 {} else {}
      }
    }
  }

  /** Every score is a non-negative multiple of 50. */
  lemma PointsMultipleOf50(dice: seq<int>)
    ensures Points(dice) >= 0 && Points(dice) % 50 == 0
  {
    var c := Tally(dice);
    TripleBonusesMultipleOf100(c, 6);
  }

  /** Two count vectors that agree on which faces reach a triple earn the same triple bonuses. */
  lemma {:induction false} TripleBonusesDependOnTriples(c: seq<nat>, d: seq<nat>, k: nat)
    requires |c| == |d| == 6 && k <= 6
    requires forall j :: 0 <= j < k ==> (c[j] >= 3 <==> d[j] >= 3)
    ensures TripleBonuses(c, k) == TripleBonuses(d, k)
  {
    if k > 0 {
      TripleBonusesDependOnTriples(c, d, k - 1);
    }
  }

  lemma {:induction false} TripleBonusesZero(c: seq<nat>, k: nat)
    requires |c| == 6 && k <= 6
    ensures TripleBonuses(c, k) == 0 <==> forall j :: 0 <= j < k ==> c[j] < 3
  {
    if k > 0 {
      TripleBonusesZero(c, k - 1);
    }
  }

  /** A roll scores nothing (a Farkle) exactly when it holds no 1, no 5 and no
      face three or more times. */
  lemma FarkleCondition(dice: seq<int>)
    ensures Points(dice) == 0 <==>
      (multiset(dice)[1] == 0 && multiset(dice)[5] == 0 &&
       forall f :: 1 <= f <= 6 ==> multiset(dice)[f] < 3)
  {
    var c := Tally(dice);
    TripleBonusesZero(c, 6);
    assert forall f :: 1 <= f <= 6 ==> c[f - 1] == multiset(dice)[f];
  }

  /** A die showing 2, 3, 4 or 6 that does not complete a triple adds nothing. */
  lemma NonScoringFaceAddsNothing(dice: seq<int>, f: int)
    requires f == 2 || f == 3 || f == 4 || f == 6
    requires multiset(dice)[f] < 2
    ensures Points(dice + [f]) == Points(dice)
  {
    var c, d := Tally(dice), Tally(dice + [f]);
    assert multiset(dice + [f]) == multiset(dice) + multiset{f};
    assert forall j :: 0 <= j < 6 && j != f - 1 ==> d[j] == c[j];
    TripleBonusesDependOnTriples(c, d, 6);
  }

  // Worked examples: only one triple is awarded per face per call.

  /** Six 2s earn one triple only. */
  lemma ExampleSixTwos()
    ensures Points([2, 2, 2, 2, 2, 2]) == 200
  {
    assert Tally([2, 2, 2, 2, 2, 2]) == [0, 6, 0, 0, 0, 0];
  }

  /** Six 1s earn one triple and three loose ones. */
  lemma ExampleSixOnes()
    ensures Points([1, 1, 1, 1, 1, 1]) == 1300
  {
    assert Tally([1, 1, 1, 1, 1, 1]) == [6, 0, 0, 0, 0, 0];
  }

  /** The fourth 2 is wasted. */
  lemma ExampleFourTwosAndFive()
    ensures Points([2, 2, 2, 2, 5]) == 250
  {
    assert Tally([2, 2, 2, 2, 5]) == [0, 4, 0, 0, 1, 0];
  }

  /** A triple of 1s and two loose 5s. */
  lemma ExampleTripleOnesTwoFives()
    ensures Points([1, 1, 1, 5, 5, 2]) == 1100
  {
    assert Tally([1, 1, 1, 5, 5, 2]) == [3, 1, 0, 0, 2, 0];
  }

  /** One loose 1 and two loose 5s. */
  lemma ExampleOneTwoFives()
    ensures Points([1, 5, 5, 2, 3, 4]) == 200
  {
    assert Tally([1, 5, 5, 2, 3, 4]) == [1, 1, 1, 1, 2, 0];
  }

  /** A Farkle. */
  lemma ExampleNoScoringDice()
    ensures Points([2, 3, 4, 6, 2, 3]) == 0
  {
    assert Tally([2, 3, 4, 6, 2, 3]) == [0, 2, 2, 1, 0, 1];
  }

  // ---------- Rebuilding dice from counts ----------

  /** n copies of face f. */
  function Repeat(f: int, n: nat): seq<int> {
    seq(n, _ => f)
  }

  /** Faces 1 .. k, face i repeated c[i - 1] times, in increasing face order. */
  function Expand(c: seq<nat>, k: nat): seq<int>
    requires k <= |c| && k <= 6
  {
    if k == 0 then [] else Expand(c, k - 1) + Repeat(k, c[k - 1])
  }

  function SumUpTo(c: seq<nat>, k: nat): nat
    requires k <= |c|
  {
    if k == 0 then 0 else SumUpTo(c, k - 1) + c[k - 1]
  }

  /** The dice list that holds face i + 1 exactly c[i] times, sorted. */
  function CountsToDice(c: seq<nat>): seq<int>
    requires |c| == 6
  {
    Expand(c, 6)
  }

  lemma {:induction false} RepeatMultiset(f: int, n: nat)
    ensures forall x :: multiset(Repeat(f, n))[x] == if x == f then n else 0
  {
    if n > 0 {
      RepeatMultiset(f, n - 1);
      assert Repeat(f, n) == Repeat(f, n - 1) + [f];
    }
  }

  lemma {:induction false} ExpandLength(c: seq<nat>, k: nat)
    requires |c| == 6 && k <= 6
    ensures |Expand(c, k)| == SumUpTo(c, k)
  {
    if k > 0 {
      ExpandLength(c, k - 1);
    }
  }

  lemma {:induction false} ExpandMultiset(c: seq<nat>, k: nat)
    requires |c| == 6 && k <= 6
    ensures forall x :: multiset(Expand(c, k))[x] == if 1 <= x <= k then c[x - 1] else 0
  {
    if k > 0 {
      ExpandMultiset(c, k - 1);
      RepeatMultiset(k, c[k - 1]);
      var e, r := Expand(c, k - 1), Repeat(k, c[k - 1]);
      assert multiset(Expand(c, k)) == multiset(e) + multiset(r);
    }
  }

  lemma {:induction false} ExpandSorted(c: seq<nat>, k: nat)
    requires |c| == 6 && k <= 6
    ensures forall i :: 0 <= i < |Expand(c, k)| ==> 1 <= Expand(c, k)[i] <= k
    ensures Nondecreasing(Expand(c, k))
  {
    if k > 0 {
      ExpandSorted(c, k - 1);
      var e, r := Expand(c, k - 1), Repeat(k, c[k - 1]);
      assert Expand(c, k) == e + r;
      forall i | 0 <= i < |e + r| ensures 1 <= (e + r)[i] <= k {
        if i < |e| {
          assert (e + r)[i] == e[i];
        } else {
          assert (e + r)[i] == r[i - |e|];
        }
      }
      forall i, j | 0 <= i <= j < |e + r| ensures (e + r)[i] <= (e + r)[j] {
        if j < |e| {
          assert (e + r)[i] == e[i] && (e + r)[j] == e[j];
        } else if i >= |e| {
          assert (e + r)[i] == r[i - |e|] && (e + r)[j] == r[j - |e|];
        } else {
          assert (e + r)[i] == e[i] && (e + r)[j] == r[j - |e|];
        }
      }
    }
  }

  /** countsToDice returns a nondecreasing list of length sum(counts) in which
      face i + 1 occurs exactly counts[i] times and no other value occurs. */
  lemma CountsToDiceSpec(c: seq<nat>)
    requires |c| == 6
    ensures |CountsToDice(c)| == SumUpTo(c, 6)
    ensures AllFaces(CountsToDice(c))
    ensures Nondecreasing(CountsToDice(c))
    ensures forall x :: multiset(CountsToDice(c))[x] == if IsFace(x) then c[x - 1] else 0
  {
    ExpandLength(c, 6);
    ExpandMultiset(c, 6);
    ExpandSorted(c, 6);
  }

  /** Tallying the rebuilt list gives the counts back. */
  lemma TallyOfCountsToDice(c: seq<nat>)
    requires |c| == 6
    ensures Tally(CountsToDice(c)) == c
  {
    CountsToDiceSpec(c);
    var t := Tally(CountsToDice(c));
    forall i | 0 <= i < 6 ensures t[i] == c[i] {
      assert IsFace(i + 1);
    }
  }

  /** Rebuilds the dice list with the source's two nested loops and push_back. */
  method CountsToDiceLoop(counts: seq<nat>) returns (d: seq<int>)
    requires |counts| == 6
    ensures d == CountsToDice(counts)
  {
    d := [];
    for i := 0 to 6
      invariant d == Expand(counts, i)
    {
      for j := 0 to counts[i]
        invariant d == Expand(counts, i) + Repeat(i + 1, j)
      {
        assert Repeat(i + 1, j + 1) == Repeat(i + 1, j) + [i + 1];
        d := d + [i + 1];
      }
    }
  }
}
