/** One player's turn: roll, score, keep, and roll again or bank, until the
    player banks or busts (a Farkle). The random rolls, the human's typed
    selections and y/n answers are supplied as finite input streams. */
module Turn {
  import opened Scoring
  import opened Selection
  import opened Oracle
  import opened Policy

  /** The inputs a turn consumes: raw values of rand(), one token list per
      selection prompt, and one character per "Roll again?" prompt. */
  datatype Inputs = Inputs(rands: seq<nat>, selections: seq<seq<int>>, answers: seq<char>)

  /** How a turn ends. OutOfInput means the streams ran dry first. */
  datatype Outcome = Banked | Farkled | OutOfInput

  /** What happened on one roll: a bust, a keep worth nothing, or a scoring keep. */
  datatype Event =
    | Farkle(roll: seq<int>)
    | NoScore(roll: seq<int>, kept: seq<int>)
    | Keep(roll: seq<int>, kept: seq<int>, points: nat)

  datatype TurnResult = TurnResult(outcome: Outcome, turnPoints: nat, events: seq<Event>)

  /** The faces rand() % 6 + 1 of the raw values. */
  function Roll(rs: seq<nat>): (dice: seq<int>)
    ensures |dice| == |rs|
    ensures AllFaces(dice)
  {
    seq(|rs|, i requires 0 <= i < |rs| => rs[i] % 6 + 1)
  }

  /** The number of dice to roll after keeping k: six minus k, or six when
      that leaves none. It counts from six, not from the dice just rolled. */
  function NextRollSize(k: nat): (n: nat)
    ensures 1 <= n <= 6
    ensures k < 6 ==> n == 6 - k
    ensures k >= 6 ==> n == 6
  {
    if 6 - k <= 0 then 6 else 6 - k
  }

  /** The tokens typed at the next selection prompt; none once input has ended. */
  function NextTokens(selections: seq<seq<int>>): seq<int> {
    if selections == [] then [] else selections[0]
  }

  function Drop1<T>(s: seq<T>): seq<T> {
    if s == [] then [] else s[1..]
  }

  /** What one pass of the loop leads to: the end of the turn, or the state
      the next pass starts from. */
  datatype Next =
    | Stop(result: TurnResult)
    | Go(inp: Inputs, turnPoints: nat, diceCount: nat, events: seq<Event>)

  /** One pass of the source's loop: roll diceCount dice from the rand()
      stream, or stop when it has too few values left. */
  function Step(isAI: bool, inp: Inputs, turnPoints: nat, diceCount: nat, events: seq<Event>): (n: Next)
    requires 1 <= diceCount <= 6
    ensures n.Go? ==> 1 <= n.diceCount <= 6 && |n.inp.rands| < |inp.rands|
  {
    if |inp.rands| < diceCount then Stop(TurnResult(OutOfInput, turnPoints, events))
    else
      AfterRoll(isAI, Inputs(inp.rands[diceCount..], inp.selections, inp.answers), turnPoints, events,
                Roll(inp.rands[..diceCount]))
  }

  /** The rest of a pass once the dice show roll: bust when the roll scores
      nothing, otherwise choose the dice to keep (the computer by its policy,
      the human from the next prompt's tokens). */
  function AfterRoll(isAI: bool, rest: Inputs, turnPoints: nat, events: seq<Event>, roll: seq<int>): (n: Next)
    requires 1 <= |roll| <= 6
    ensures n.Go? ==> 1 <= n.diceCount <= 6 && |n.inp.rands| == |rest.rands|
  {
    if Points(roll) == 0 then Stop(TurnResult(Farkled, turnPoints, events + [Farkle(roll)]))
    else if isAI then AfterKeep(isAI, rest, turnPoints, events, roll, AiKeep(roll))
    else
      AfterKeep(isAI, Inputs(rest.rands, Drop1(rest.selections), rest.answers), turnPoints, events,
                roll, HumanKeep(roll, NextTokens(rest.selections)))
  }

  /** The rest of a pass once kept is chosen: a keep worth nothing sends the
      human back to roll the same number of dice and makes the computer
      bank; a scoring keep is added to the turn. */
  function AfterKeep(isAI: bool, rest: Inputs, turnPoints: nat, events: seq<Event>, roll: seq<int>, kept: seq<int>): (n: Next)
    requires 1 <= |roll| <= 6
    ensures n.Go? ==> 1 <= n.diceCount <= 6 && |n.inp.rands| == |rest.rands|
  {
    var keptPoints := Points(kept);
    if keptPoints == 0 then
      var events' := events + [NoScore(roll, kept)];
      if isAI then Stop(TurnResult(Banked, turnPoints, events'))
      else Go(rest, turnPoints, |roll|, events')
    else
      AfterScore(isAI, rest, turnPoints + keptPoints, events + [Keep(roll, kept, keptPoints)], |kept|, keptPoints)
  }

  /** The end of a pass after a scoring keep of keptCount dice: six kept
      means six more dice at once (hot dice); otherwise the human is asked
      and the computer decides whether to roll 6 - keptCount dice. */
  function AfterScore(isAI: bool, rest: Inputs, turnPoints: nat, events: seq<Event>, keptCount: nat, keptPoints: nat): (n: Next)
    ensures n.Go? ==> 1 <= n.diceCount <= 6 && |n.inp.rands| == |rest.rands|
  {
    var next := NextRollSize(keptCount);
    if keptCount == 6 then Go(rest, turnPoints, 6, events)
    else if isAI then
      if RollAgain(next, turnPoints, keptPoints) then Go(rest, turnPoints, next, events)
      else Stop(TurnResult(Banked, turnPoints, events))
    else if rest.answers == [] then Stop(TurnResult(OutOfInput, turnPoints, events))
    else if rest.answers[0] != 'y' && rest.answers[0] != 'Y' then Stop(TurnResult(Banked, turnPoints, events))
    else Go(Inputs(rest.rands, rest.selections, rest.answers[1..]), turnPoints, next, events)
  }

  /** At the "Roll again?" prompt after keeping fewer than six dice, a human
      who answers y or Y rolls the 6 - keptCount dice not kept, and any
      other answer banks the turn points. */
  lemma HumanAnswer(rest: Inputs, turnPoints: nat, events: seq<Event>, keptCount: nat, keptPoints: nat)
    requires keptCount < 6 && rest.answers != []
    ensures rest.answers[0] == 'y' || rest.answers[0] == 'Y' ==>
      AfterScore(false, rest, turnPoints, events, keptCount, keptPoints)
        == Go(Inputs(rest.rands, rest.selections, rest.answers[1..]), turnPoints, 6 - keptCount, events)
    ensures rest.answers[0] != 'y' && rest.answers[0] != 'Y' ==>
      AfterScore(false, rest, turnPoints, events, keptCount, keptPoints) == Stop(TurnResult(Banked, turnPoints, events))
  {
  }

  /** After keeping fewer than six dice, the computer rolls the 6 - keptCount
      dice not kept exactly when its policy says so, and otherwise banks. */
  lemma AiDecision(rest: Inputs, turnPoints: nat, events: seq<Event>, keptCount: nat, keptPoints: nat)
    requires keptCount < 6
    ensures RollAgain(6 - keptCount, turnPoints, keptPoints) ==>
      AfterScore(true, rest, turnPoints, events, keptCount, keptPoints) == Go(rest, turnPoints, 6 - keptCount, events)
    ensures !RollAgain(6 - keptCount, turnPoints, keptPoints) ==>
      AfterScore(true, rest, turnPoints, events, keptCount, keptPoints) == Stop(TurnResult(Banked, turnPoints, events))
  {
  }

  /** The turn from a given state: passes of the loop until one stops it. */
  function Play(isAI: bool, inp: Inputs, turnPoints: nat, diceCount: nat, events: seq<Event>): TurnResult
    requires 1 <= diceCount <= 6
    decreases |inp.rands|
  {
    match Step(isAI, inp, turnPoints, diceCount, events)
    case Stop(r) => r
    case Go(inp', tp, dc, events') => Play(isAI, inp', tp, dc, events')
  }

  // ---------- What a turn's log looks like ----------

  function Last(es: seq<Event>): Event
    requires es != []
  {
    es[|es| - 1]
  }

  /** The points an event adds to the turn. */
  function KeptPoints(e: Event): nat {
    if e.Keep? then e.points else 0
  }

  /** The points of all scoring keeps of a log. */
  function SumKept(es: seq<Event>): nat {
    if es == [] then 0 else SumKept(es[..|es| - 1]) + KeptPoints(Last(es))
  }

  /** The number of dice rolled after an event: the same number again after
      a keep worth nothing, else six minus the dice kept (six after six). */
  function SizeAfter(e: Event): nat {
    match e
    case Farkle(roll) => |roll|
    case NoScore(roll, _) => |roll|
    case Keep(_, kept, _) => NextRollSize(|kept|)
  }

  /** One roll of a well-formed log: one to six die faces; a bust scores
      nothing; a keep is drawn from its roll, and a scoring keep adds exactly
      its own points. The computer keeps exactly its policy's dice, which
      score what the whole roll scores, and never makes a keep worth nothing. */
  predicate EventOk(isAI: bool, e: Event) {
    1 <= |e.roll| <= 6 && AllFaces(e.roll) &&
    match e
    case Farkle(roll) => Points(roll) == 0
    case NoScore(roll, kept) =>
      !isAI && Points(roll) > 0 && Points(kept) == 0 && multiset(kept) <= multiset(roll)
    case Keep(roll, kept, points) =>
      Points(roll) > 0 && points == Points(kept) && points > 0 && multiset(kept) <= multiset(roll) &&
      (isAI ==> kept == AiKeep(roll) && points == Points(roll))
  }

  /** A well-formed log, built roll by roll: every event is well formed,
      only the last may be a bust, the first roll has six dice, and each
      roll has the size the event before it calls for. */
  predicate LogOk(isAI: bool, es: seq<Event>)
    decreases |es|
  {
    if es == [] then true
    else
      var init := es[..|es| - 1];
      LogOk(isAI, init) && EventOk(isAI, Last(es)) &&
      if init == [] then |Last(es).roll| == 6
      else !Last(init).Farkle? && |Last(es).roll| == SizeAfter(Last(init))
  }

  /** The same, event by event. */
  lemma {:induction false} LogOkEvents(isAI: bool, es: seq<Event>)
    requires LogOk(isAI, es)
    ensures forall i :: 0 <= i < |es| ==> EventOk(isAI, es[i])
    ensures forall i :: 0 <= i < |es| - 1 ==> !es[i].Farkle?
    ensures |es| > 0 ==> |es[0].roll| == 6
    ensures forall i :: 0 <= i < |es| - 1 ==> |es[i + 1].roll| == SizeAfter(es[i])
    decreases |es|
  {
    if es != [] {
      var init := es[..|es| - 1];
      LogOkEvents(isAI, init);
      assert forall i :: 0 <= i < |init| ==> es[i] == init[i];
      assert EventOk(isAI, es[|es| - 1]);
      if init != [] {
        assert |es[|es| - 1].roll| == SizeAfter(es[|es| - 2]);
      }
    }
  }

  /** The state at the top of the loop agrees with its log. */
  predicate InProgress(isAI: bool, es: seq<Event>, turnPoints: nat, diceCount: nat) {
    LogOk(isAI, es) && (es == [] || !Last(es).Farkle?) &&
    turnPoints == SumKept(es) &&
    diceCount == (if es == [] then 6 else SizeAfter(Last(es)))
  }

  /** A finished turn: its log is well formed, its points are the sum of its
      scoring keeps, it is a bust exactly when its last roll is, and a banked
      turn ends with a scoring keep. */
  predicate Finished(isAI: bool, r: TurnResult) {
    LogOk(isAI, r.events) && r.turnPoints == SumKept(r.events) &&
    (r.outcome == Farkled <==> (r.events != [] && Last(r.events).Farkle?)) &&
    (r.outcome == Banked ==> r.events != [] && Last(r.events).Keep?)
  }

  /** A pass's result agrees with the log es it started from: a finished
      turn, or a state in progress, whose log extends es. */
  predicate NextOk(isAI: bool, es: seq<Event>, n: Next) {
    match n
    case Stop(r) => Finished(isAI, r) && es <= r.events
    case Go(_, tp, dc, es') => es <= es' && InProgress(isAI, es', tp, dc)
  }

  lemma AppendEvent(isAI: bool, es: seq<Event>, turnPoints: nat, diceCount: nat, e: Event)
    requires InProgress(isAI, es, turnPoints, diceCount)
    requires EventOk(isAI, e) && |e.roll| == diceCount
    ensures LogOk(isAI, es + [e])
    ensures SumKept(es + [e]) == turnPoints + KeptPoints(e)
    ensures Last(es + [e]) == e && es <= es + [e]
  {
    assert (es + [e])[..|es|] == es;
    assert Last(es + [e]) == e;
  }

  // The lemmas below bind NextOk to a name in their postconditions, so that
  // each is checked as one formula rather than conjunct by conjunct.

  lemma AfterScoreOk(isAI: bool, start: seq<Event>, rest: Inputs, turnPoints: nat, es: seq<Event>, keptCount: nat, keptPoints: nat, n: Next)
    requires LogOk(isAI, es) && es != [] && Last(es).Keep? && |Last(es).kept| == keptCount
    requires turnPoints == SumKept(es)
    requires start <= es
    requires n == AfterScore(isAI, rest, turnPoints, es, keptCount, keptPoints)
    ensures var ok := NextOk(isAI, start, n); ok
  {
    assert SizeAfter(Last(es)) == NextRollSize(keptCount);
    var banked := Stop(TurnResult(Banked, turnPoints, es));
    if keptCount == 6 {
      assert AfterScore(isAI, rest, turnPoints, es, keptCount, keptPoints) == Go(rest, turnPoints, 6, es);
    } else if isAI {
      var again := RollAgain(NextRollSize(keptCount), turnPoints, keptPoints);
      if again {
        assert AfterScore(isAI, rest, turnPoints, es, keptCount, keptPoints)
            == Go(rest, turnPoints, NextRollSize(keptCount), es);
      } else {
        assert AfterScore(isAI, rest, turnPoints, es, keptCount, keptPoints) == banked;
      }
    }
  }

  lemma KeepEventOk(isAI: bool, roll: seq<int>, kept: seq<int>)
    requires 1 <= |roll| <= 6 && AllFaces(roll) && Points(roll) > 0 && Points(kept) > 0
    requires multiset(kept) <= multiset(roll)
    requires isAI ==> kept == AiKeep(roll)
    ensures EventOk(isAI, Keep(roll, kept, Points(kept)))
  {
    if isAI {
      AiKeepPreservesPoints(roll);
    }
  }

  lemma NoScoreOk(isAI: bool, rest: Inputs, turnPoints: nat, es: seq<Event>, roll: seq<int>, kept: seq<int>)
    requires InProgress(isAI, es, turnPoints, |roll|)
    requires 1 <= |roll| <= 6 && AllFaces(roll) && Points(roll) > 0 && Points(kept) == 0
    requires multiset(kept) <= multiset(roll)
    requires !isAI
    ensures var ok := NextOk(isAI, es, AfterKeep(isAI, rest, turnPoints, es, roll, kept)); ok
  {
    var e := NoScore(roll, kept);
    AppendEvent(isAI, es, turnPoints, |roll|, e);
    assert AfterKeep(isAI, rest, turnPoints, es, roll, kept) == Go(rest, turnPoints, |roll|, es + [e]);
  }

  /** A scoring keep is recorded and its points added before the end of the pass. */
  lemma KeepScores(isAI: bool, rest: Inputs, turnPoints: nat, es: seq<Event>, roll: seq<int>, kept: seq<int>)
    requires 1 <= |roll| <= 6 && Points(kept) > 0
    ensures AfterKeep(isAI, rest, turnPoints, es, roll, kept)
         == AfterScore(isAI, rest, turnPoints + Points(kept), es + [Keep(roll, kept, Points(kept))], |kept|, Points(kept))
  {
  }

  lemma ScoredOk(isAI: bool, rest: Inputs, turnPoints: nat, es: seq<Event>, roll: seq<int>, kept: seq<int>)
    requires InProgress(isAI, es, turnPoints, |roll|)
    requires 1 <= |roll| <= 6 && AllFaces(roll) && Points(roll) > 0 && Points(kept) > 0
    requires multiset(kept) <= multiset(roll)
    requires isAI ==> kept == AiKeep(roll)
    ensures var ok := NextOk(isAI, es, AfterKeep(isAI, rest, turnPoints, es, roll, kept)); ok
  {
    var keptPoints := Points(kept);
    var e := Keep(roll, kept, keptPoints);
    var n := AfterKeep(isAI, rest, turnPoints, es, roll, kept);
    KeepScores(isAI, rest, turnPoints, es, roll, kept);
    KeepEventOk(isAI, roll, kept);
    AppendEvent(isAI, es, turnPoints, |roll|, e);
    AfterScoreOk(isAI, es, rest, turnPoints + keptPoints, es + [e], |kept|, keptPoints, n);
  }

  lemma AfterKeepOk(isAI: bool, rest: Inputs, turnPoints: nat, es: seq<Event>, roll: seq<int>, kept: seq<int>)
    requires InProgress(isAI, es, turnPoints, |roll|)
    requires 1 <= |roll| <= 6 && AllFaces(roll) && Points(roll) > 0
    requires multiset(kept) <= multiset(roll)
    requires isAI ==> kept == AiKeep(roll)
    ensures var ok := NextOk(isAI, es, AfterKeep(isAI, rest, turnPoints, es, roll, kept)); ok
  {
    if Points(kept) == 0 {
      if isAI {
        AiKeepScoresWhenRollScores(roll);
        assert false;
      }
      NoScoreOk(isAI, rest, turnPoints, es, roll, kept);
    } else {
      ScoredOk(isAI, rest, turnPoints, es, roll, kept);
    }
  }

  lemma AfterRollOk(isAI: bool, rest: Inputs, turnPoints: nat, es: seq<Event>, roll: seq<int>)
    requires InProgress(isAI, es, turnPoints, |roll|)
    requires 1 <= |roll| <= 6 && AllFaces(roll)
    ensures var ok := NextOk(isAI, es, AfterRoll(isAI, rest, turnPoints, es, roll)); ok
  {
    if Points(roll) == 0 {
      AppendEvent(isAI, es, turnPoints, |roll|, Farkle(roll));
    } else if isAI {
      AiKeepSubMultiset(roll);
      AfterKeepOk(isAI, rest, turnPoints, es, roll, AiKeep(roll));
    } else {
      HumanKeepSubMultiset(roll, NextTokens(rest.selections));
      AfterKeepOk(isAI, Inputs(rest.rands, Drop1(rest.selections), rest.answers), turnPoints, es,
                  roll, HumanKeep(roll, NextTokens(rest.selections)));
    }
  }

  /** Every pass keeps the log well formed and only ever extends it. */
  lemma StepOk(isAI: bool, inp: Inputs, turnPoints: nat, diceCount: nat, es: seq<Event>)
    requires 1 <= diceCount <= 6
    requires InProgress(isAI, es, turnPoints, diceCount)
    ensures var ok := NextOk(isAI, es, Step(isAI, inp, turnPoints, diceCount, es)); ok
  {
    if |inp.rands| >= diceCount {
      AfterRollOk(isAI, Inputs(inp.rands[diceCount..], inp.selections, inp.answers), turnPoints, es,
                  Roll(inp.rands[..diceCount]));
    }
  }

  lemma {:induction false} PlayOk(isAI: bool, inp: Inputs, turnPoints: nat, diceCount: nat, es: seq<Event>)
    requires 1 <= diceCount <= 6
    requires InProgress(isAI, es, turnPoints, diceCount)
    ensures Finished(isAI, Play(isAI, inp, turnPoints, diceCount, es))
    ensures es <= Play(isAI, inp, turnPoints, diceCount, es).events
    decreases |inp.rands|
  {
    StepOk(isAI, inp, turnPoints, diceCount, es);
    match Step(isAI, inp, turnPoints, diceCount, es)
    case Stop(r) =>
    case Go(inp', tp, dc, es') =>
      PlayOk(isAI, inp', tp, dc, es');
  }

  /** What every turn satisfies, whatever the rolls and answers: its log is
      well formed, its points are the sum of its scoring keeps (each worth
      more than nothing), it is a bust exactly when its last roll scores
      nothing, a banked turn has earned points, and the computer never
      makes a keep worth nothing. */
  lemma TurnLog(isAI: bool, inp: Inputs)
    ensures Finished(isAI, Play(isAI, inp, 0, 6, []))
    ensures var r := Play(isAI, inp, 0, 6, []);
      (forall i :: 0 <= i < |r.events| && r.events[i].Keep? ==> r.events[i].points > 0) &&
      (r.outcome == Banked ==> r.turnPoints > 0) &&
      (isAI ==> forall i :: 0 <= i < |r.events| ==> !r.events[i].NoScore?)
  {
    PlayOk(isAI, inp, 0, 6, []);
    var r := Play(isAI, inp, 0, 6, []);
    LogOkEvents(isAI, r.events);
    if r.outcome == Banked {
      assert EventOk(isAI, r.events[|r.events| - 1]);
    }
  }

  // ---------- Worked turns ----------

  lemma KeepByTokens(roll: seq<int>, tokens: seq<int>)
    requires 0 !in tokens && multiset(tokens) <= multiset(roll)
    ensures HumanKeep(roll, tokens + [0]) == tokens
  {
    SelectStopsAtZero([], roll, tokens, []);
    assert tokens + [0] + [] == tokens + [0];
    SelectExact([], roll, tokens);
  }

  /** A human's pass that rolls roll, keeps kept by typing tokens, and scores. */
  lemma HumanScoringPass(inp: Inputs, turnPoints: nat, diceCount: nat, es: seq<Event>, roll: seq<int>, kept: seq<int>, points: nat)
    requires 1 <= diceCount <= |inp.rands| && diceCount <= 6
    requires Roll(inp.rands[..diceCount]) == roll && Points(roll) > 0
    requires inp.selections != [] && HumanKeep(roll, inp.selections[0]) == kept && Points(kept) == points > 0
    ensures Step(false, inp, turnPoints, diceCount, es)
         == AfterScore(false, Inputs(inp.rands[diceCount..], inp.selections[1..], inp.answers),
                       turnPoints + points, es + [Keep(roll, kept, points)], |kept|, points)
  {
  }

  /** A human who rolls six dice, keeps fewer than six that score, and then
      declines to roll again banks exactly the points of that keep. */
  lemma HumanBanksFirstKeep(inp: Inputs, roll: seq<int>, kept: seq<int>, points: nat)
    requires |inp.rands| >= 6 && Roll(inp.rands[..6]) == roll && Points(roll) > 0
    requires inp.selections != [] && HumanKeep(roll, inp.selections[0]) == kept
    requires Points(kept) == points > 0 && |kept| < 6
    requires inp.answers != [] && inp.answers[0] != 'y' && inp.answers[0] != 'Y'
    ensures Play(false, inp, 0, 6, []) == TurnResult(Banked, points, [Keep(roll, kept, points)])
  {
    HumanScoringPass(inp, 0, 6, [], roll, kept, points);
    HumanAnswer(Inputs(inp.rands[6..], inp.selections[1..], inp.answers), points, [Keep(roll, kept, points)], |kept|, points);
  }

  /** A human who keeps all six dice rolls six fresh dice without being
      asked, whatever the dice kept. */
  lemma HumanHotDice(inp: Inputs, turnPoints: nat, diceCount: nat, es: seq<Event>, roll: seq<int>, kept: seq<int>, points: nat)
    requires 1 <= diceCount <= |inp.rands| && diceCount <= 6
    requires Roll(inp.rands[..diceCount]) == roll && Points(roll) > 0
    requires inp.selections != [] && HumanKeep(roll, inp.selections[0]) == kept && Points(kept) == points > 0
    requires |kept| == 6
    ensures Step(false, inp, turnPoints, diceCount, es)
         == Go(Inputs(inp.rands[diceCount..], inp.selections[1..], inp.answers), turnPoints + points, 6,
               es + [Keep(roll, kept, points)])
  {
    HumanScoringPass(inp, turnPoints, diceCount, es, roll, kept, points);
  }

  /** A human who keeps fewer than six dice and answers y rolls six minus
      the dice kept in that pass, whatever the number of dice just rolled. */
  lemma HumanRollsOn(inp: Inputs, turnPoints: nat, diceCount: nat, es: seq<Event>, roll: seq<int>, kept: seq<int>, points: nat)
    requires 1 <= diceCount <= |inp.rands| && diceCount <= 6
    requires Roll(inp.rands[..diceCount]) == roll && Points(roll) > 0
    requires inp.selections != [] && HumanKeep(roll, inp.selections[0]) == kept && Points(kept) == points > 0
    requires |kept| < 6 && inp.answers != [] && (inp.answers[0] == 'y' || inp.answers[0] == 'Y')
    ensures Step(false, inp, turnPoints, diceCount, es)
         == Go(Inputs(inp.rands[diceCount..], inp.selections[1..], inp.answers[1..]), turnPoints + points, 6 - |kept|,
               es + [Keep(roll, kept, points)])
  {
    HumanScoringPass(inp, turnPoints, diceCount, es, roll, kept, points);
    HumanAnswer(Inputs(inp.rands[diceCount..], inp.selections[1..], inp.answers), turnPoints + points,
                es + [Keep(roll, kept, points)], |kept|, points);
  }

  lemma PointsOfOneTwoFivesKept()
    ensures Points([1, 5, 5]) == 200
  {
    assert Tally([1, 5, 5]) == [1, 0, 0, 0, 2, 0];
  }

  lemma PointsOfOneToFour()
    ensures Points([1, 2, 3, 4]) == 100 && Points([1]) == 100
  {
    assert Tally([1, 2, 3, 4]) == [1, 1, 1, 1, 0, 0];
    assert Tally([1]) == [1, 0, 0, 0, 0, 0];
  }

  lemma OneEntry(e: Event, selections: seq<seq<int>>)
    ensures [] + [e] == [e]
    ensures |selections| == 1 ==> selections[1..] == []
  {
  }

  lemma RollOfBanks200(rands: seq<nat>)
    requires rands == [0, 4, 4, 1, 2, 3]
    ensures Roll(rands[..6]) == [1, 5, 5, 2, 3, 4]
  {
    assert rands[..6] == rands;
  }

  lemma RollOfHotDice(rands: seq<nat>)
    requires rands == [0, 0, 0, 4, 4, 1]
    ensures Roll(rands[..6]) == [1, 1, 1, 5, 5, 2] && rands[6..] == []
  {
    assert rands[..6] == rands;
  }

  lemma RollOfFourDice(rands: seq<nat>)
    requires rands == [0, 1, 2, 3]
    ensures Roll(rands[..4]) == [1, 2, 3, 4] && rands[4..] == []
  {
    assert rands[..4] == rands;
  }

  lemma KeepOneTwoFives()
    ensures HumanKeep([1, 5, 5, 2, 3, 4], [1, 5, 5, 0]) == [1, 5, 5]
  {
    KeepByTokens([1, 5, 5, 2, 3, 4], [1, 5, 5]);
    assert [1, 5, 5] + [0] == [1, 5, 5, 0];
  }

  lemma KeepAllSix()
    ensures HumanKeep([1, 1, 1, 5, 5, 2], [1, 1, 1, 5, 5, 2, 0]) == [1, 1, 1, 5, 5, 2]
  {
    KeepByTokens([1, 1, 1, 5, 5, 2], [1, 1, 1, 5, 5, 2]);
    assert [1, 1, 1, 5, 5, 2] + [0] == [1, 1, 1, 5, 5, 2, 0];
  }

  lemma KeepOneOfFour()
    ensures HumanKeep([1, 2, 3, 4], [1, 0]) == [1]
  {
    KeepByTokens([1, 2, 3, 4], [1]);
    assert [1] + [0] == [1, 0];
  }

  // The worked turns take their input streams as parameters fixed by a
  // precondition, so that the solver unfolds the turn one pass at a time.

  /** A human rolls 1 5 5 2 3 4, keeps 1 5 5 and stops: 200 points banked. */
  lemma ExampleHumanBanks200(inp: Inputs)
    requires inp == Inputs([0, 4, 4, 1, 2, 3], [[1, 5, 5, 0]], ['n'])
    ensures Play(false, inp, 0, 6, []) == TurnResult(Banked, 200, [Keep([1, 5, 5, 2, 3, 4], [1, 5, 5], 200)])
  {
    RollOfBanks200(inp.rands);
    KeepOneTwoFives();
    ExampleOneTwoFives();
    PointsOfOneTwoFivesKept();
    HumanBanksFirstKeep(inp, [1, 5, 5, 2, 3, 4], [1, 5, 5], 200);
  }

  /** Rolling 2 3 4 6 2 3 is a bust, for either kind of player. */
  lemma ExampleBust(isAI: bool, inp: Inputs)
    requires inp.rands == [1, 2, 3, 5, 1, 2]
    ensures Play(isAI, inp, 0, 6, []) == TurnResult(Farkled, 0, [Farkle([2, 3, 4, 6, 2, 3])])
  {
    assert Roll([1, 2, 3, 5, 1, 2]) == [2, 3, 4, 6, 2, 3];
    assert inp.rands[..6] == [1, 2, 3, 5, 1, 2];
    ExampleNoScoringDice();
  }

  /** A human who keeps all six dice rolls six again at once, even when one
      of the kept dice scores nothing. */
  lemma ExampleHotDiceWithDeadDie(inp: Inputs)
    requires inp == Inputs([0, 0, 0, 4, 4, 1], [[1, 1, 1, 5, 5, 2, 0]], [])
    ensures Step(false, inp, 0, 6, [])
         == Go(Inputs([], [], []), 1100, 6, [Keep([1, 1, 1, 5, 5, 2], [1, 1, 1, 5, 5, 2], 1100)])
  {
    RollOfHotDice(inp.rands);
    KeepAllSix();
    ExampleTripleOnesTwoFives();
    var e := Keep([1, 1, 1, 5, 5, 2], [1, 1, 1, 5, 5, 2], 1100);
    HumanHotDice(inp, 0, 6, [], e.roll, e.kept, e.points);
    OneEntry(e, inp.selections);
  }

  /** The next roll counts from six, not from the dice in play: after keeping
      one die of a four-dice roll and rolling on, five dice are rolled. */
  lemma ExampleFiveDiceAfterKeepingOneOfFour(inp: Inputs, turnPoints: nat, es: seq<Event>)
    requires inp == Inputs([0, 1, 2, 3], [[1, 0]], ['y'])
    ensures Step(false, inp, turnPoints, 4, es)
         == Go(Inputs([], [], []), turnPoints + 100, 5, es + [Keep([1, 2, 3, 4], [1], 100)])
  {
    RollOfFourDice(inp.rands);
    KeepOneOfFour();
    PointsOfOneToFour();
    HumanRollsOn(inp, turnPoints, 4, es, [1, 2, 3, 4], [1], 100);
  }

  /** One pass of the source's loop, as written, on the state at its top:
      the dice vector is represented by its size diceCount, and rollDice
      takes that many values of the rand() stream. */
  method PlayPass(cache: StatsCache, isAI: bool, inp: Inputs, turnPoints: nat, diceCount: nat, events: seq<Event>)
    returns (next: Next)
    requires 1 <= diceCount <= 6
    requires cache.Valid()
    modifies cache
    ensures cache.Valid()
    ensures old(cache.farkleProb).Keys <= cache.farkleProb.Keys
    ensures old(cache.expectedPoints).Keys <= cache.expectedPoints.Keys
    ensures next == Step(isAI, inp, turnPoints, diceCount, events)
  {
    if |inp.rands| < diceCount {
      return Stop(TurnResult(OutOfInput, turnPoints, events));
    }
    var dice := Roll(inp.rands[..diceCount]);
    var rands, selections, answers := inp.rands[diceCount..], inp.selections, inp.answers;
    var rollPoints := CalculatePoints(dice);
    if rollPoints == 0 {
      return Stop(TurnResult(Farkled, turnPoints, events + [Farkle(dice)]));
    }
    var keptDice: seq<int>;
    if !isAI {
      keptDice := SelectDiceToKeepHuman(dice, NextTokens(selections));
      DrawnDice(keptDice, dice);
      selections := Drop1(selections);
    } else {
      keptDice := AiChooseDiceToKeep(dice);
      AiKeepSubMultiset(dice);
      DrawnDice(keptDice, dice);
    }
    var keptPoints := CalculatePoints(keptDice);
    if keptPoints == 0 {
      if !isAI {
        return Go(Inputs(rands, selections, answers), turnPoints, diceCount, events + [NoScore(dice, keptDice)]);
      } else {
        return Stop(TurnResult(Banked, turnPoints, events + [NoScore(dice, keptDice)]));
      }
    }
    var turnPoints' := turnPoints + keptPoints;
    var events' := events + [Keep(dice, keptDice, keptPoints)];
    assert Step(isAI, inp, turnPoints, diceCount, events)
        == AfterScore(isAI, Inputs(rands, selections, answers), turnPoints', events', |keptDice|, keptPoints);
    next := EndPass(cache, isAI, Inputs(rands, selections, answers), turnPoints', events', |keptDice|, keptPoints);
  }

  /** The end of a pass after a scoring keep of keptCount dice, as written:
      hot dice, else the human's y/n answer or the computer's decision, and
      the size of the next roll. */
  method EndPass(cache: StatsCache, isAI: bool, rest: Inputs, turnPoints: nat, events: seq<Event>, keptCount: nat, keptPoints: nat)
    returns (next: Next)
    requires keptCount <= 6
    requires cache.Valid()
    modifies cache
    ensures cache.Valid()
    ensures next == AfterScore(isAI, rest, turnPoints, events, keptCount, keptPoints)
    ensures isAI && keptCount < 6 ==>
      cache.farkleProb == old(cache.farkleProb)[6 - keptCount := FarkleProb(6 - keptCount)] &&
      cache.expectedPoints == old(cache.expectedPoints)[6 - keptCount := ExpectedPoints(6 - keptCount)]
    ensures !isAI || keptCount == 6 ==> unchanged(cache)
  {
    if keptCount == 6 {
      return Go(rest, turnPoints, 6, events);
    }
    if !isAI {
      if rest.answers == [] {
        return Stop(TurnResult(OutOfInput, turnPoints, events));
      }
      var choice := rest.answers[0];
      if choice != 'y' && choice != 'Y' {
        HumanAnswer(rest, turnPoints, events, keptCount, keptPoints);
        return Stop(TurnResult(Banked, turnPoints, events));
      }
      var newSize := 6 - keptCount;
      if newSize <= 0 {
        newSize := 6;
      }
      HumanAnswer(rest, turnPoints, events, keptCount, keptPoints);
      return Go(Inputs(rest.rands, rest.selections, rest.answers[1..]), turnPoints, newSize, events);
    } else {
      var rollAgain := AiRollsAgain(cache, turnPoints, keptCount, keptPoints);
      if rollAgain {
        var newSize := 6 - keptCount;
        if newSize <= 0 {
          newSize := 6;
        }
        return Go(rest, turnPoints, newSize, events);
      } else {
        return Stop(TurnResult(Banked, turnPoints, events));
      }
    }
  }

  /** The computer's side of the end of a pass: refresh the statistics of the
      dice it would roll, then decide whether to roll them. */
  method AiRollsAgain(cache: StatsCache, turnPoints: nat, keptCount: nat, keptPoints: nat)
    returns (rollAgain: bool)
    requires keptCount < 6
    requires cache.Valid()
    modifies cache
    ensures cache.Valid()
    ensures rollAgain == RollAgain(NextRollSize(keptCount), turnPoints, keptPoints)
    ensures cache.farkleProb
         == old(cache.farkleProb)[NextRollSize(keptCount) := FarkleProb(NextRollSize(keptCount))]
    ensures cache.expectedPoints
         == old(cache.expectedPoints)[NextRollSize(keptCount) := ExpectedPoints(NextRollSize(keptCount))]
  {
    var diceRemaining := 6 - keptCount;
    if diceRemaining <= 0 {
      diceRemaining := 6;
    }
    assert diceRemaining == NextRollSize(keptCount);
    cache.ComputeDiceStats(diceRemaining);
    rollAgain := AiShouldRollAgain(cache, diceRemaining, turnPoints, keptPoints);
  }

  /** The source's turn loop: passes until one ends the turn. The total is
      passed by reference in the source and returned here; it grows by the
      turn's points only when the turn is banked. */
  method PlayTurn(cache: StatsCache, totalScore: int, isAI: bool, inp: Inputs)
    returns (newTotal: int, result: TurnResult)
    requires cache.Valid()
    modifies cache
    ensures cache.Valid()
    ensures old(cache.farkleProb).Keys <= cache.farkleProb.Keys
    ensures old(cache.expectedPoints).Keys <= cache.expectedPoints.Keys
    ensures result == Play(isAI, inp, 0, 6, [])
    ensures newTotal == if result.outcome == Banked then totalScore + result.turnPoints else totalScore
  {
    var state := Inputs(inp.rands, inp.selections, inp.answers);
    var turnPoints: nat := 0;
    var diceCount := 6;
    var events: seq<Event> := [];
    while true
      invariant 1 <= diceCount <= 6
      invariant cache.Valid()
      invariant old(cache.farkleProb).Keys <= cache.farkleProb.Keys
      invariant old(cache.expectedPoints).Keys <= cache.expectedPoints.Keys
      invariant Play(isAI, state, turnPoints, diceCount, events) == Play(isAI, inp, 0, 6, [])
      decreases |state.rands|
    {
      var next := PlayPass(cache, isAI, state, turnPoints, diceCount, events);
      if next.Stop? {
        result := next.result;
        break;
      }
      state, turnPoints, diceCount, events := next.inp, next.turnPoints, next.diceCount, next.events;
    }
    if result.outcome == Banked {
      newTotal := totalScore + result.turnPoints;
    } else {
      newTotal := totalScore;
    }
  }
}
