/** The objective function of the genetic search (ExternalFcts.cs: FObj): a
    candidate move sequence is played from the scramble, every prefix is
    scored, and the best prefix score and the length of the first prefix
    reaching it are combined into one fitness value. */
module Objective {
  import opened Cube
  import opened Evaluators

  /** Whether a score type reads the target state (only Compare does). */
  predicate NeedsTarget(typeFunc: int)
  {
    typeFunc == 1
  }

  /** The score of one state under score type typeFunc: 1 Compare with the
      target, 2 Entropy, 3 Is2x2x3, 4 ten times Is2gen plus ten times Is2x2x3,
      anything else 0 (ExternalFcts.cs:412-419). */
  function Evaluate(typeFunc: int, c: seq<int>, target: seq<int>): (n: int)
    requires IsCube(c) && (NeedsTarget(typeFunc) ==> |target| >= 54)
    ensures 0 <= n <= MaxScore(typeFunc)
  {
    match typeFunc
    case 1 => MatchCount(c[..54], target[..54])
    case 2 => Entropy(c)
    case 3 => Is2x2x3(c)
    case 4 => 10 * Is2gen(c) + 10 * Is2x2x3(c)
    case _ => 0
  }

  /** The largest score of each type. */
  function MaxScore(typeFunc: int): int
  {
    match typeFunc
    case 1 => 54
    case 2 => 48
    case 3 => 16
    case 4 => 170
    case _ => 0
  }

  /** The solved cube, scored against itself, reaches the maximum of every
      score type. */
  lemma SolvedScoresMax(typeFunc: int)
    ensures Evaluate(typeFunc, Solved(), Solved()) == MaxScore(typeFunc)
  {
    var s := Solved();
    if typeFunc == 1 {
      FullMatchIffEqual(s[..54], s[..54]);
    } else if typeFunc == 4 {
      SolvedCounts();
      SolvedIs2gen();
    } else {
      SolvedCounts();
    }
  }

  /** Score type 4 reaches its maximum 170 exactly when the state is 2-gen
      and the 2x2x3 block is complete. */
  lemma TwoGenScoreMax(c: seq<int>, target: seq<int>)
    requires IsCube(c)
    ensures Evaluate(4, c, target) == 170 <==> Is2gen(c) == 1 && Is2x2x3(c) == 16
  {
  }

  /** The score of the prefix of length i + 1 of a move sequence. */
  function PrefixScores(typeFunc: int, start: seq<int>, target: seq<int>, moves: seq<int>): (s: seq<int>)
    requires IsCube(start) && (NeedsTarget(typeFunc) ==> |target| >= 54) && NonNegative(moves)
    ensures |s| == |moves|
    ensures forall i :: 0 <= i < |moves| ==> s[i] == Evaluate(typeFunc, Sequence(start, moves[..i + 1]), target)
  {
    seq(|moves|, i requires 0 <= i < |moves| => Evaluate(typeFunc, Sequence(start, moves[..i + 1]), target))
  }

  /** The best score among the first n entries (0 when none is positive) and
      the 1-based position where it is first reached (0 when none). */
  function RunningBest(scores: seq<int>, n: nat): (best: (int, int))
    requires n <= |scores|
    ensures best.0 >= 0 && 0 <= best.1 <= n
    ensures forall j :: 0 <= j < n ==> scores[j] <= best.0
    ensures best.1 == 0 <==> forall j :: 0 <= j < n ==> scores[j] <= 0
    ensures best.1 > 0 ==> scores[best.1 - 1] == best.0 && best.0 > 0
    ensures best.1 > 0 ==> forall j :: 0 <= j < best.1 - 1 ==> scores[j] < best.0
    ensures best.1 == 0 ==> best.0 == 0
  {
    if n == 0 then (0, 0)
    else
      var prev := RunningBest(scores, n - 1);
      if scores[n - 1] > prev.0 then (scores[n - 1], n) else prev
  }

  /** The pair FObj returns: ten times the best score minus the cut, and the
      cut (the length of the shortest best prefix). */
  function Fitness(best: (int, int)): (r: seq<int>)
    ensures |r| == 2 && r[1] == best.1 && r[0] + r[1] == 10 * best.0
  {
    [10 * best.0 - best.1, best.1]
  }

  /** The fitness of a candidate, with a missing or empty sequence scoring
      (0, 0). */
  function FObjValue(typeFunc: int, start: seq<int>, target: seq<int>, moves: seq<int>): (r: seq<int>)
    requires IsCube(start) && (NeedsTarget(typeFunc) ==> |target| >= 54) && NonNegative(moves)
    ensures |r| == 2
  {
    Fitness(RunningBest(PrefixScores(typeFunc, start, target, moves), |moves|))
  }

  /** One more move extends the played prefix by one. */
  lemma PrefixStep(start: seq<int>, moves: seq<int>, i: int)
    requires IsCube(start) && NonNegative(moves) && 0 <= i < |moves|
    ensures Sequence(start, moves[..i + 1]) == Move(Sequence(start, moves[..i]), moves[i])
  {
    assert moves[..i + 1][..i] == moves[..i];
  }

  /** The score switch of FObj (ExternalFcts.cs:412-419). */
  method Score(typeFunc: int, cube: array<int>, cubeSolved: array<int>) returns (ni: int)
    requires cube.Length == 54 && (NeedsTarget(typeFunc) ==> cubeSolved.Length >= 54)
    ensures ni == Evaluate(typeFunc, cube[..], cubeSolved[..])
  {
    ni := 0;
    if typeFunc == 1 {
      ni := Compare(cube, cubeSolved);
    } else if typeFunc == 2 {
      ni := Entropy(cube[..]);
    } else if typeFunc == 3 {
      ni := Is2x2x3(cube[..]);
    } else if typeFunc == 4 {
      ni := 10 * Is2gen(cube[..]) + 10 * Is2x2x3(cube[..]);
    }
  }

  /** FObj: play the sequence move by move, keep the best score and the first
      prefix length reaching it (ExternalFcts.cs:395-431). */
  method FObj(cube: array<int>, cubeSolved: array<int>, movesSequence: array?<int>, typeFunc: int)
    returns (res: array<int>)
    requires cube.Length == 54
    requires NeedsTarget(typeFunc) ==> cubeSolved.Length >= 54
    requires movesSequence != null ==> NonNegative(movesSequence[..])
    ensures fresh(res)
    ensures res[..] == FObjValue(typeFunc, cube[..], cubeSolved[..],
                                 if movesSequence == null then [] else movesSequence[..])
  {
    res := new int[2];
    if movesSequence == null || movesSequence.Length == 0 {
      res[0] := 0;
      res[1] := 0;
      return;
    }
    var nmax, x := BestPrefix(cube, cubeSolved, movesSequence, typeFunc);
    res[0] := 10 * nmax - x;
    res[1] := x;
  }

  /** The loop of FObj: the best prefix score and the first prefix length
      reaching it. */
  method BestPrefix(cube: array<int>, cubeSolved: array<int>, movesSequence: array<int>, typeFunc: int)
    returns (nmax: int, x: int)
    requires cube.Length == 54
    requires NeedsTarget(typeFunc) ==> cubeSolved.Length >= 54
    requires NonNegative(movesSequence[..])
    ensures (nmax, x) == RunningBest(PrefixScores(typeFunc, cube[..], cubeSolved[..], movesSequence[..]), movesSequence.Length)
  {
    ghost var moves := movesSequence[..];
    ghost var scores := PrefixScores(typeFunc, cube[..], cubeSolved[..], moves);
    nmax := 0;
    x := 0;
    var cubeTemp := Clone(cube);
    for i := 0 to movesSequence.Length
      invariant cubeTemp.Length == 54 && fresh(cubeTemp)
      invariant cubeTemp[..] == Sequence(cube[..], moves[..i])
      invariant (nmax, x) == RunningBest(scores, i)
    {
      PrefixStep(cube[..], moves, i);
      cubeTemp := DoMove(cubeTemp, movesSequence[i]);
      var ni := Score(typeFunc, cubeTemp, cubeSolved);
      assert ni == scores[i];
      if ni > nmax {
        nmax := ni;
        x := i + 1;
      }
    }
  }

  /** An unknown score type scores every candidate (0, 0). */
  lemma UnknownTypeScoresZero(typeFunc: int, start: seq<int>, target: seq<int>, moves: seq<int>)
    requires IsCube(start) && NonNegative(moves) && !(1 <= typeFunc <= 4)
    ensures FObjValue(typeFunc, start, target, moves) == [0, 0]
  {
    var scores := PrefixScores(typeFunc, start, target, moves);
    assert forall j :: 0 <= j < |moves| ==> scores[j] == 0;
  }

  /** The cut lies within the sequence, and ten times the best prefix score
      is recovered as the sum of the two entries. */
  lemma FitnessShape(typeFunc: int, start: seq<int>, target: seq<int>, moves: seq<int>)
    requires IsCube(start) && (NeedsTarget(typeFunc) ==> |target| >= 54) && NonNegative(moves)
    ensures var r := FObjValue(typeFunc, start, target, moves);
      0 <= r[1] <= |moves| &&
      0 <= r[0] + r[1] <= 10 * MaxScore(typeFunc) &&
      (r[1] == 0 ==> r[0] == 0) &&
      (r[1] > 0 ==>
         r[0] + r[1] == 10 * Evaluate(typeFunc, Sequence(start, moves[..r[1]]), target))
  {
    var scores := PrefixScores(typeFunc, start, target, moves);
    var best := RunningBest(scores, |moves|);
    if best.1 > 0 {
      assert scores[best.1 - 1] == best.0;
    }
    if |moves| > 0 {
      assert scores[0] <= MaxScore(typeFunc);
    }
  }
}
