/** Choosing the dice to keep from a roll: the computer's fixed policy
    (one triple per face plus every loose 1 and 5) and the human's
    face-by-face selection, which strikes each chosen face from the dice
    still available. */
module Selection {
  import opened Scoring

  // ---------- Computer keep policy ----------

  /** Per-face counts the computer keeps: three of every face that reaches a
      triple, and whatever 1s and 5s are left over after that. */
  function KeepCounts(c: seq<nat>): seq<nat>
    requires |c| == 6
  {
    seq(6, i requires 0 <= i < 6 =>
      (if c[i] >= 3 then 3 else 0) + (if i == 0 || i == 4 then AfterTriple(c[i]) else 0))
  }

  /** The dice the computer keeps from a roll, in increasing face order. */
  function AiKeep(rolled: seq<int>): seq<int> {
    CountsToDice(KeepCounts(Tally(rolled)))
  }

  lemma KeepCountsFacts(c: seq<nat>)
    requires |c| == 6
    ensures |KeepCounts(c)| == 6
    ensures forall i :: 0 <= i < 6 ==> KeepCounts(c)[i] <= c[i]
    ensures forall i :: 0 <= i < 6 ==> (KeepCounts(c)[i] >= 3 <==> c[i] >= 3)
    ensures AfterTriple(KeepCounts(c)[0]) == AfterTriple(c[0])
    ensures AfterTriple(KeepCounts(c)[4]) == AfterTriple(c[4])
  {
  }

  /** Every kept die comes from the roll: the kept dice form a sub-multiset of it. */
  lemma AiKeepSubMultiset(rolled: seq<int>)
    ensures multiset(AiKeep(rolled)) <= multiset(rolled)
  {
    var c := Tally(rolled);
    KeepCountsFacts(c);
    CountsToDiceSpec(KeepCounts(c));
    forall x ensures multiset(AiKeep(rolled))[x] <= multiset(rolled)[x] {
      if IsFace(x) {
        assert c[x - 1] == multiset(rolled)[x];
      }
    }
  }

  /** The kept dice score exactly what the whole roll scores. */
  lemma AiKeepPreservesPoints(rolled: seq<int>)
    ensures Points(AiKeep(rolled)) == Points(rolled)
  {
    var c := Tally(rolled);
    var k := KeepCounts(c);
    KeepCountsFacts(c);
    TallyOfCountsToDice(k);
    TripleBonusesDependOnTriples(k, c, 6);
  }

  /** So the computer always keeps something from a scoring roll, and what it
      keeps always scores: its "no scoring dice" fallback is unreachable. */
  lemma AiKeepScoresWhenRollScores(rolled: seq<int>)
    requires Points(rolled) > 0
    ensures |AiKeep(rolled)| > 0 && Points(AiKeep(rolled)) > 0
  {
    AiKeepPreservesPoints(rolled);
    if AiKeep(rolled) == [] {
      PointsOfEmpty();
    }
  }

  /** The kept dice come back sorted and hold only die faces. */
  lemma AiKeepSorted(rolled: seq<int>)
    ensures Nondecreasing(AiKeep(rolled)) && AllFaces(AiKeep(rolled))
  {
    CountsToDiceSpec(KeepCounts(Tally(rolled)));
  }

  /** The computer's choice, with the source's counters: tally the roll, move
      one triple per face into the keep counters, add the leftover 1s and 5s,
      and rebuild the list. */
  method AiChooseDiceToKeep(rolledDice: seq<int>) returns (kept: seq<int>)
    requires AllFaces(rolledDice)
    ensures kept == AiKeep(rolledDice)
  {
    var counts := CountFaces(rolledDice);
    ghost var c := Tally(rolledDice);
    var keepCounts := new nat[6](_ => 0);
    for i := 0 to 6
      invariant forall j :: 0 <= j < i ==> counts[j] == AfterTriple(c[j])
      invariant forall j :: 0 <= j < i ==> keepCounts[j] == if c[j] >= 3 then 3 else 0
      invariant forall j :: i <= j < 6 ==> counts[j] == c[j] && keepCounts[j] == 0
    {
      if counts[i] >= 3 {
        keepCounts[i] := keepCounts[i] + 3;
        counts[i] := counts[i] - 3;
      }
    }
    keepCounts[0] := keepCounts[0] + counts[0];
    keepCounts[4] := keepCounts[4] + counts[4];
    assert keepCounts[..] == KeepCounts(c);
    kept := CountsToDiceLoop(keepCounts[..]);
  }

  // ---------- Human selection ----------

  /** Position of the first x in s, or |s| when there is none (std::find). */
  function IndexOf(s: seq<int>, x: int): (i: nat)
    ensures i <= |s|
    ensures i < |s| ==> s[i] == x
    ensures forall j :: 0 <= j < i ==> s[j] != x
  {
    if s == [] then 0
    else if s[0] == x then 0
    else 1 + IndexOf(s[1..], x)
  }

  function RemoveAt(s: seq<int>, i: nat): seq<int>
    requires i < |s|
  {
    s[..i] + s[i + 1..]
  }

  lemma RemoveAtMultiset(s: seq<int>, i: nat)
    requires i < |s|
    ensures multiset(RemoveAt(s, i)) + multiset{s[i]} == multiset(s)
  {
    assert s == s[..i] + [s[i]] + s[i + 1..];
  }

  /** The selection loop from a given state: the kept dice and the dice still
      available when the tokens run out or a 0 is read. A token equal to an
      available face moves one instance of it to the kept dice; any other
      token is rejected and skipped. */
  function Select(kept: seq<int>, available: seq<int>, tokens: seq<int>): (seq<int>, seq<int>)
    decreases |tokens|
  {
    if tokens == [] || tokens[0] == 0 then (kept, available)
    else
      var i := IndexOf(available, tokens[0]);
      if i < |available| then Select(kept + [tokens[0]], RemoveAt(available, i), tokens[1..])
      else Select(kept, available, tokens[1..])
  }

  /** The dice a human keeps from a roll, given the tokens typed at the prompt. */
  function HumanKeep(rolled: seq<int>, tokens: seq<int>): seq<int> {
    Select([], rolled, tokens).0
  }

  /** No die is ever lost or duplicated: kept plus available is always the
      same multiset. */
  lemma {:induction false} SelectConserves(kept: seq<int>, available: seq<int>, tokens: seq<int>)
    ensures multiset(Select(kept, available, tokens).0) + multiset(Select(kept, available, tokens).1)
         == multiset(kept) + multiset(available)
    decreases |tokens|
  {
    if tokens == [] || tokens[0] == 0 {
    } else {
      var i := IndexOf(available, tokens[0]);
      if i < |available| {
        SelectConserves(kept + [tokens[0]], RemoveAt(available, i), tokens[1..]);
        assert available == available[..i] + [available[i]] + available[i + 1..];
      } else {
        SelectConserves(kept, available, tokens[1..]);
      }
    }
  }

  /** The kept dice are a sub-multiset of the roll, so at most as many as were rolled. */
  lemma HumanKeepSubMultiset(rolled: seq<int>, tokens: seq<int>)
    ensures multiset(HumanKeep(rolled, tokens)) <= multiset(rolled)
    ensures |HumanKeep(rolled, tokens)| <= |rolled|
  {
    SelectConserves([], rolled, tokens);
    var r := Select([], rolled, tokens);
    assert multiset(r.0) + multiset(r.1) == multiset(rolled);
    assert multiset(r.0) <= multiset(rolled);
    assert |multiset(r.0) + multiset(r.1)| == |multiset(r.0)| + |multiset(r.1)|;
  }

  /** Reading stops at the first 0: whatever follows it is ignored. */
  lemma {:induction false} SelectStopsAtZero(kept: seq<int>, available: seq<int>, tokens: seq<int>, rest: seq<int>)
    ensures Select(kept, available, tokens + [0] + rest) == Select(kept, available, tokens)
    decreases |tokens|
  {
    if tokens == [] {
      assert (tokens + [0] + rest)[0] == 0;
    } else {
      assert (tokens + [0] + rest)[1..] == tokens[1..] + [0] + rest;
      if tokens[0] != 0 {
        var i := IndexOf(available, tokens[0]);
        if i < |available| {
          SelectStopsAtZero(kept + [tokens[0]], RemoveAt(available, i), tokens[1..], rest);
        } else {
          SelectStopsAtZero(kept, available, tokens[1..], rest);
        }
      }
    }
  }

  lemma SplitFirst(tokens: seq<int>)
    requires tokens != []
    ensures multiset(tokens) == multiset(tokens[1..]) + multiset{tokens[0]}
    ensures forall x :: x in tokens[1..] ==> x in tokens
  {
    assert tokens == [tokens[0]] + tokens[1..];
  }

  lemma IndexOfPresent(s: seq<int>, x: int)
    requires x in multiset(s)
    ensures IndexOf(s, x) < |s|
  {
    assert x in s;
  }

  lemma SubMultisetCancel(a: multiset<int>, b: multiset<int>, t: int)
    requires a + multiset{t} <= b + multiset{t}
    ensures a <= b
  {
    forall x ensures a[x] <= b[x] {
      assert (a + multiset{t})[x] <= (b + multiset{t})[x];
    }
  }

  /** A token drawn from a multiset that holds all the tokens is found
      among the available dice, and the remaining tokens are drawn from what
      is left once it is struck out. */
  lemma DrawFirst(available: seq<int>, tokens: seq<int>)
    requires tokens != [] && 0 !in tokens && multiset(tokens) <= multiset(available)
    ensures tokens[0] != 0 && 0 !in tokens[1..]
    ensures IndexOf(available, tokens[0]) < |available|
    ensures multiset(tokens[1..]) <= multiset(RemoveAt(available, IndexOf(available, tokens[0])))
  {
    var t := tokens[0];
    SplitFirst(tokens);
    assert t in multiset(available);
    IndexOfPresent(available, t);
    var i := IndexOf(available, t);
    RemoveAtMultiset(available, i);
    SubMultisetCancel(multiset(tokens[1..]), multiset(RemoveAt(available, i)), t);
  }

  /** One step of the loop on a token that is found. */
  lemma SelectFound(kept: seq<int>, available: seq<int>, tokens: seq<int>)
    requires tokens != [] && tokens[0] != 0 && IndexOf(available, tokens[0]) < |available|
    ensures Select(kept, available, tokens)
         == Select(kept + [tokens[0]], RemoveAt(available, IndexOf(available, tokens[0])), tokens[1..])
  {
  }

  lemma SeqStep(kept: seq<int>, tokens: seq<int>)
    requires tokens != []
    ensures kept + [tokens[0]] + tokens[1..] == kept + tokens
  {
    assert tokens == [tokens[0]] + tokens[1..];
  }

  /** A player who names only dice that are there, each as often as it was
      rolled, keeps exactly the dice named. */
  lemma {:induction false} SelectExact(kept: seq<int>, available: seq<int>, tokens: seq<int>)
    requires 0 !in tokens
    requires multiset(tokens) <= multiset(available)
    ensures Select(kept, available, tokens).0 == kept + tokens
    decreases |tokens|
  {
    if tokens != [] {
      var t := tokens[0];
      DrawFirst(available, tokens);
      SelectFound(kept, available, tokens);
      SelectExact(kept + [t], RemoveAt(available, IndexOf(available, t)), tokens[1..]);
      SeqStep(kept, tokens);
    }
  }

  /** The loop's view of Select: one token read at position k. */
  lemma SelectAt(kept: seq<int>, available: seq<int>, tokens: seq<int>, k: nat)
    requires k < |tokens| && tokens[k] != 0
    ensures IndexOf(available, tokens[k]) < |available| ==>
      Select(kept, available, tokens[k..])
        == Select(kept + [tokens[k]], RemoveAt(available, IndexOf(available, tokens[k])), tokens[k + 1..])
    ensures IndexOf(available, tokens[k]) == |available| ==>
      Select(kept, available, tokens[k..]) == Select(kept, available, tokens[k + 1..])
  {
    assert tokens[k..][0] == tokens[k] && tokens[k..][1..] == tokens[k + 1..];
  }

  /** The human loop as written: read tokens until a 0 or the end of input,
      moving each token found among the available dice to the kept dice. */
  method SelectDiceToKeepHuman(rolledDice: seq<int>, tokens: seq<int>) returns (keptDice: seq<int>)
    ensures keptDice == HumanKeep(rolledDice, tokens)
    ensures multiset(keptDice) <= multiset(rolledDice)
  {
    keptDice := [];
    var available := rolledDice;
    var k := 0;
    while k < |tokens| && tokens[k] != 0
      invariant 0 <= k <= |tokens|
      invariant Select(keptDice, available, tokens[k..]) == Select([], rolledDice, tokens)
      invariant multiset(keptDice) + multiset(available) == multiset(rolledDice)
    {
      var die := tokens[k];
      var i := IndexOf(available, die);
      SelectAt(keptDice, available, tokens, k);
      if i < |available| {
        RemoveAtMultiset(available, i);
        keptDice := keptDice + [die];
        available := RemoveAt(available, i);
      }
      k := k + 1;
    }
    assert Select(keptDice, available, tokens[k..]) == (keptDice, available);
    HumanKeepSubMultiset(rolledDice, tokens);
  }
}
