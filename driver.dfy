/** The pieces of the driver program (Program.cs) that decide what the
    genetic stages work on and when they are done: the projection of a
    population onto the F/U moves, row extraction, the twelve starting
    orientations of the 2x2x3 search, the location score with its restart
    test, the two stage success tests and the running move total. */
module Driver {
  import opened CSharpInt
  import opened Cube
  import opened Evaluators
  import opened Reorient
  import opened Objective
  import opened Population
  import opened BruteForce

  // ---------------------------------------------------------------------
  // ToTwoGen

  /** The F/U symbol a gene is projected to: its parity picks F or U, its
      turn class m / 6 is kept (C# remainder and quotient). */
  function TwoGenSymbol(m: int): int
  {
    CsRem(m, 2) + CsDiv(m, 6) * 6
  }

  /** ToTwoGen: a fresh population of the same shape with every gene
      projected (Program.cs:592-602). */
  method ToTwoGen(pop: array2<int>) returns (result: array2<int>)
    ensures fresh(result) && result.Length0 == pop.Length0 && result.Length1 == pop.Length1
    ensures forall i, j :: 0 <= i < pop.Length0 && 0 <= j < pop.Length1 ==>
      result[i, j] == TwoGenSymbol(pop[i, j])
  {
    var rows := pop.Length0;
    var cols := pop.Length1;
    result := new int[rows, cols];
    for i := 0 to rows
      invariant forall r, j :: 0 <= r < i && 0 <= j < cols ==> result[r, j] == TwoGenSymbol(pop[r, j])
    {
      for j := 0 to cols
        invariant forall r, k :: 0 <= r < rows && 0 <= k < cols && (r < i || (r == i && k < j)) ==>
          result[r, k] == TwoGenSymbol(pop[r, k])
      {
        result[i, j] := CsRem(pop[i, j], 2) + CsDiv(pop[i, j], 6) * 6;
      }
    }
  }

  /** Every move symbol lands on one of the six symbols the brute-force
      search uses, on face F for an even symbol and U for an odd one, with
      its turn class kept. */
  lemma TwoGenSymbolLands(m: int)
    requires IsMove(m)
    ensures TwoGenMove(TwoGenSymbol(m)) && TwoGenSymbol(m) in AllowedMoves
    ensures TwoGenSymbol(m) / 6 == m / 6
    ensures TwoGenSymbol(m) % 6 == m % 2
  {
    assert TwoGenSymbol(m) == m % 2 + (m / 6) * 6;
  }

  /** The six F/U symbols are left as they are. */
  lemma TwoGenSymbolFixesTwoGen(m: int)
    requires TwoGenMove(m)
    ensures TwoGenSymbol(m) == m
  {
  }

  /** x = 6q + r with r in {0, 1} splits x by 2 and by 6. */
  lemma SplitSix(x: int, q: int, r: int)
    requires 0 <= r <= 1 && x == q * 6 + r
    ensures x % 2 == r && x / 6 == q
  {
  }

  /** Projecting twice is projecting once, for every integer gene. */
  lemma TwoGenSymbolIdempotent(m: int)
    ensures TwoGenSymbol(TwoGenSymbol(m)) == TwoGenSymbol(m)
  {
    var r := CsRem(m, 2);
    var q := CsDiv(m, 6);
    var x := r + q * 6;
    if m >= 0 {
      SplitSix(x, q, r);
    } else if x < 0 {
      SplitSix(-x, -q, -r);
    }
  }

  // ---------------------------------------------------------------------
  // GetRow

  /** GetRow: a fresh copy of one row (Program.cs:584-590).  The row index
      is read only when the matrix has columns. */
  method GetRow(arr: array2<int>, row: int) returns (res: array<int>)
    requires arr.Length1 > 0 ==> 0 <= row < arr.Length0
    ensures fresh(res) && res.Length == arr.Length1
    ensures forall c :: 0 <= c < arr.Length1 ==> res[c] == arr[row, c]
  {
    var cols := arr.Length1;
    res := new int[cols];
    for c := 0 to cols
      invariant forall k :: 0 <= k < c ==> res[k] == arr[row, k]
    {
      res[c] := arr[row, c];
    }
  }

  // ---------------------------------------------------------------------
  // The twelve locations of the 2x2x3 block

  /** n quarter rotations of the whole cube about the vertical axis. */
  function RotatedTimes(c: seq<int>, n: nat): (r: seq<int>)
    requires IsCube(c)
    ensures IsCube(r)
  {
    if n == 0 then c else RotateWholeCube(RotatedTimes(c, n - 1))
  }

  /** The orientation of location loc: loc / 3 rotations, then a corner
      twist when loc % 3 is 1 or two turns about the L-R axis when it is 2. */
  function Oriented(c: seq<int>, loc: int): (r: seq<int>)
    requires IsCube(c) && 0 <= loc < 12
    ensures IsCube(r)
  {
    var turned := RotatedTimes(c, loc / 3);
    if loc % 3 == 1 then TwistCube(turned)
    else if loc % 3 == 2 then RotateWholeCubeX(RotateWholeCubeX(turned))
    else turned
  }

  /** The orientation step, run from the scramble copy both in the sweep
      over the locations and when the winning location is promoted
      (Program.cs:160-182, 317-341); the console and results-file lines
      are not modelled. */
  method Orient(scrambledCopy: seq<int>, loc: int) returns (cube: seq<int>)
    requires IsCube(scrambledCopy) && 0 <= loc < 12
    ensures cube == Oriented(scrambledCopy, loc)
  {
    cube := RotateTimes(scrambledCopy, loc / 3);
    if loc % 3 == 1 {
      cube := TwistCube(cube);
    } else if loc % 3 == 2 {
      cube := RotateXTwice(cube);
    }
  }

  /** The quarter rotations about the vertical axis that start every
      location (Program.cs:163-167). */
  method RotateTimes(c: seq<int>, n: nat) returns (cube: seq<int>)
    requires IsCube(c)
    ensures cube == RotatedTimes(c, n)
  {
    cube := c;
    var ll := 0;
    while ll < n
      invariant 0 <= ll <= n
      invariant cube == RotatedTimes(c, ll)
    {
      RotatedTimesStep(c, ll);
      cube := RotateWholeCube(cube);
      ll := ll + 1;
    }
  }

  /** One more rotation. */
  lemma RotatedTimesStep(c: seq<int>, n: nat)
    requires IsCube(c)
    ensures RotatedTimes(c, n + 1) == RotateWholeCube(RotatedTimes(c, n))
  {
  }

  /** The two quarter turns about the L-R axis of the third orientation of
      every rotation (Program.cs:175-179). */
  method RotateXTwice(c: seq<int>) returns (cube: seq<int>)
    requires IsCube(c)
    ensures cube == RotateWholeCubeX(RotateWholeCubeX(c))
  {
    cube := c;
    for i := 0 to 2
      invariant IsCube(cube)
      invariant cube == if i == 0 then c else if i == 1 then RotateWholeCubeX(c) else RotateWholeCubeX(RotateWholeCubeX(c))
    {
      cube := RotateWholeCubeX(cube);
    }
  }

  /** One whole-cube rotation, as a step on any sequence (a cube turns,
      anything else stays put). */
  function RotateStep(c: seq<int>): (r: seq<int>)
    ensures IsCube(c) ==> r == RotateWholeCube(c)
  {
    if IsCube(c) then RotateWholeCube(c) else c
  }

  /** n applications of f, innermost first. */
  function Iterate<T>(f: T -> T, x: T, n: nat): T
  {
    if n == 0 then x else f(Iterate(f, x, n - 1))
  }

  lemma {:induction false} IterateAdd<T>(f: T -> T, x: T, a: nat, b: nat)
    ensures Iterate(f, Iterate(f, x, a), b) == Iterate(f, x, a + b)
    decreases b
  {
    if b > 0 {
      IterateAdd(f, x, a, b - 1);
      assert a + (b - 1) == a + b - 1;
    }
  }

  /** The rotations are the rotation step iterated. */
  lemma {:induction false} RotatedTimesIterate(c: seq<int>, n: nat)
    requires IsCube(c)
    ensures RotatedTimes(c, n) == Iterate(RotateStep, c, n)
  {
    if n > 0 {
      RotatedTimesIterate(c, n - 1);
    }
  }

  /** Rotations add up. */
  lemma RotatedTimesAdd(c: seq<int>, a: nat, b: nat)
    requires IsCube(c)
    ensures RotatedTimes(RotatedTimes(c, a), b) == RotatedTimes(c, a + b)
  {
    var ca := RotatedTimes(c, a);
    RotatedTimesIterate(c, a);
    RotatedTimesIterate(ca, b);
    RotatedTimesIterate(c, a + b);
    IterateAdd(RotateStep, c, a, b);
  }

  /** Four rotations are no rotation. */
  lemma RotatedFour(c: seq<int>)
    requires IsCube(c)
    ensures RotatedTimes(c, 4) == c
  {
    assert RotatedTimes(c, 0) == c;
    var c1 := RotatedTimes(c, 1);
    var c2 := RotatedTimes(c, 2);
    var c3 := RotatedTimes(c, 3);
    assert c1 == RotateWholeCube(c);
    assert c2 == RotateWholeCube(c1);
    assert c3 == RotateWholeCube(c2);
    RotateWholeCubeOrder4(c);
  }

  /** The reorientation that undoes location loc: the rest of the corner
      twist's or of the L-R turn's cycle, then the rest of the rotations'. */
  function Unoriented(c: seq<int>, loc: int): (r: seq<int>)
    requires IsCube(c) && 0 <= loc < 12
    ensures IsCube(r)
  {
    var untwisted :=
      if loc % 3 == 1 then TwistCube(TwistCube(c))
      else if loc % 3 == 2 then RotateWholeCubeX(RotateWholeCubeX(c))
      else c;
    RotatedTimes(untwisted, 4 - loc / 3)
  }

  /** Every location is a reorientation that can be undone, so the twelve
      searches all start from the same physical scramble. */
  lemma OrientedUndone(c: seq<int>, loc: int)
    requires IsCube(c) && 0 <= loc < 12
    ensures Unoriented(Oriented(c, loc), loc) == c
  {
    var turned := RotatedTimes(c, loc / 3);
    if loc % 3 == 1 {
      TwistCubeOrder3(turned);
    } else if loc % 3 == 2 {
      RotateWholeCubeXOrder4(turned);
    }
    RotatedTimesAdd(c, loc / 3, 4 - loc / 3);
    RotatedFour(c);
  }

  /** Reorienting keeps every facelet a face label. */
  lemma OrientedKeepsLabels(c: seq<int>, loc: int)
    requires IsCube(c) && ValidLabels(c) && 0 <= loc < 12
    ensures ValidLabels(Oriented(c, loc))
  {
    RotatedTimesKeepsLabels(c, loc / 3);
  }

  lemma {:induction false} RotatedTimesKeepsLabels(c: seq<int>, n: nat)
    requires IsCube(c) && ValidLabels(c)
    ensures ValidLabels(RotatedTimes(c, n))
  {
    if n > 0 {
      RotatedTimesKeepsLabels(c, n - 1);
    }
  }

  // ---------------------------------------------------------------------
  // The location score and the restart test

  /** The score of a location from its elite's fitness pair: minus the cut,
      minus 100 for every 2x2x3 point short of 16 (Program.cs:269). */
  function LocationScore(perf0: int, perf1: int): int
  {
    -perf1 - (16 - CsDiv(perf0 + perf1, 10)) * 100
  }

  /** The elite's best prefix is non-empty, at most limit moves long, and
      completes the 2x2x3 block. */
  predicate BlockWithin(start: seq<int>, target: seq<int>, moves: seq<int>, limit: int)
    requires IsCube(start) && NonNegative(moves)
  {
    var r := FObjValue(3, start, target, moves);
    0 < r[1] <= limit && Is2x2x3(Sequence(start, moves[..r[1]])) == 16
  }

  /** On a fitness pair from FObj with the 2x2x3 score, the location score
      is minus the cut minus 100 times the block points missing after the
      best prefix (all 16 when no prefix scores); it is at least -20
      exactly when the block is complete after at most 20 moves. */
  lemma LocationScoreMeaning(start: seq<int>, target: seq<int>, moves: seq<int>)
    requires IsCube(start) && NonNegative(moves)
    ensures var r := FObjValue(3, start, target, moves);
      r[1] == 0 ==> LocationScore(r[0], r[1]) == -1600
    ensures var r := FObjValue(3, start, target, moves);
      r[1] > 0 ==> LocationScore(r[0], r[1]) == -r[1] - 100 * (16 - Is2x2x3(Sequence(start, moves[..r[1]])))
    ensures var r := FObjValue(3, start, target, moves);
      LocationScore(r[0], r[1]) >= -20 <==> BlockWithin(start, target, moves, 20)
  {
    var r := FObjValue(3, start, target, moves);
    FitnessShape(3, start, target, moves);
    if r[1] > 0 {
      LocationScoreOf(r[0], r[1], Is2x2x3(Sequence(start, moves[..r[1]])));
    } else {
      LocationScoreOf(r[0], r[1], 0);
    }
  }

  /** The arithmetic behind the location score: a pair whose sum is ten
      times a block score in 0..16. */
  lemma LocationScoreOf(perf0: int, perf1: int, block: int)
    requires perf1 >= 0 && 0 <= block <= 16 && perf0 + perf1 == 10 * block
    requires perf1 == 0 ==> block == 0
    ensures LocationScore(perf0, perf1) == -perf1 - 100 * (16 - block)
    ensures LocationScore(perf0, perf1) >= -20 <==> perf1 <= 20 && block == 16
  {
    assert CsDiv(10 * block, 10) == block;
  }

  /** The sweep starts over when the first of the ranked location scores is
      below -20, which is when every location's score is. */
  predicate Restart(fobjs: seq<int>)
    requires |fobjs| > 0
  {
    fobjs[RankOrder(fobjs)[0]] < -20
  }

  lemma RestartIffAllBelow(fobjs: seq<int>)
    requires |fobjs| > 0
    ensures Restart(fobjs) <==> forall l :: 0 <= l < |fobjs| ==> fobjs[l] < -20
  {
    RankOrderBestFirst(fobjs);
    RankOrderIsStableSort(fobjs);
    assert 0 <= RankOrder(fobjs)[0] < |fobjs|;
  }

  /** With the location scores of the twelve elites, the sweep starts over
      exactly when no location completed the block within 20 moves
      (Program.cs:269, 291). */
  lemma RestartMeaning(copy: seq<int>, target: seq<int>, elites: seq<seq<int>>, fobjs: seq<int>)
    requires IsCube(copy) && |elites| == 12 && |fobjs| == 12
    requires forall l :: 0 <= l < 12 ==> NonNegative(elites[l])
    requires forall l :: 0 <= l < 12 ==>
      fobjs[l] == LocationScore(FObjValue(3, Oriented(copy, l), target, elites[l])[0],
                                FObjValue(3, Oriented(copy, l), target, elites[l])[1])
    ensures Restart(fobjs) <==> forall l :: 0 <= l < 12 ==> !BlockWithin(Oriented(copy, l), target, elites[l], 20)
  {
    RestartIffAllBelow(fobjs);
    forall l | 0 <= l < 12
      ensures fobjs[l] >= -20 <==> BlockWithin(Oriented(copy, l), target, elites[l], 20)
    {
      LocationScoreMeaning(Oriented(copy, l), target, elites[l]);
    }
  }

  // ---------------------------------------------------------------------
  // Stage success tests

  /** The getting-into-2-gen stage is done when the elite's pair sums to
      1700 (Program.cs:436). */
  predicate IntoTwoGenDone(perf0: int, perf1: int)
  {
    perf0 + perf1 == 1700
  }

  /** On a fitness pair from FObj with score type 4, the test holds exactly
      when the elite's best prefix is non-empty and ends in a 2-gen state
      with a complete 2x2x3 block. */
  lemma IntoTwoGenDoneMeaning(start: seq<int>, target: seq<int>, moves: seq<int>)
    requires IsCube(start) && NonNegative(moves)
    ensures var r := FObjValue(4, start, target, moves);
      IntoTwoGenDone(r[0], r[1]) <==>
        r[1] > 0 && Is2gen(Sequence(start, moves[..r[1]])) == 1 &&
        Is2x2x3(Sequence(start, moves[..r[1]])) == 16
  {
    var r := FObjValue(4, start, target, moves);
    FitnessShape(4, start, target, moves);
    if r[1] > 0 {
      TwoGenScoreMax(Sequence(start, moves[..r[1]]), target);
    }
  }

  /** The 2-gen stage is done when the elite's pair, divided by 10.0 in
      floating point, equals 48.0 (Program.cs:547); the sum of two ints
      divided by ten is exactly 48 when the sum is 480. */
  predicate TwoGenSolved(perf0: int, perf1: int)
  {
    perf0 + perf1 == 480
  }

  /** On a fitness pair from FObj with score type 2, the test holds exactly
      when the elite's best prefix is non-empty and reaches the Entropy
      maximum 48. */
  lemma TwoGenSolvedMeaning(start: seq<int>, target: seq<int>, moves: seq<int>)
    requires IsCube(start) && NonNegative(moves)
    ensures var r := FObjValue(2, start, target, moves);
      TwoGenSolved(r[0], r[1]) <==>
        r[1] > 0 && Entropy(Sequence(start, moves[..r[1]])) == 48
  {
    FitnessShape(2, start, target, moves);
  }

  // ---------------------------------------------------------------------
  // The move total

  /** The moves applied to the cube after the sweep: the stage-1 elite's
      best prefix, then the stage-2 elite's when it has more than one move. */
  function AppliedMoves(elite1: seq<int>, cut1: int, elite2: seq<int>, cut2: int): (s: seq<int>)
    requires 0 <= cut1 <= |elite1| && 0 <= cut2 <= |elite2|
    ensures |s| == cut1 + (if cut2 > 1 then cut2 else 0)
  {
    elite1[..cut1] + (if cut2 > 1 then elite2[..cut2] else [])
  }

  /** The bookkeeping after stage 1, stage 2 and the genetic 2-gen stage
      (Program.cs:348-352, 439-447, 556): the cube takes the stage-1 prefix
      when it is non-empty and the stage-2 prefix when it has more than one
      move, and moves_total adds the stage-1 cut, the stage-2 cut under the
      same condition and the stage-3 cut. */
  method AccountMoves(cube: seq<int>, elite1: seq<int>, cut1: int, elite2: seq<int>, cut2: int, cut3: int)
    returns (finalCube: seq<int>, movesTotal: int)
    requires IsCube(cube) && NonNegative(elite1) && NonNegative(elite2)
    requires 0 <= cut1 <= |elite1| && 0 <= cut2 <= |elite2|
    ensures IsCube(finalCube)
    ensures finalCube == Sequence(cube, AppliedMoves(elite1, cut1, elite2, cut2))
    ensures movesTotal == |AppliedMoves(elite1, cut1, elite2, cut2)| + cut3
  {
    ghost var first := elite1[..cut1];
    ghost var second := if cut2 > 1 then elite2[..cut2] else [];
    assert NonNegative(first) && NonNegative(second);
    finalCube := cube;
    if cut1 > 0 {
      finalCube := Sequence(finalCube, elite1[..cut1]);
    }
    assert finalCube == Sequence(cube, first);
    movesTotal := cut1;
    if cut2 > 0 {
      if cut2 > 1 {
        finalCube := Sequence(finalCube, elite2[..cut2]);
        movesTotal := movesTotal + cut2;
      }
    }
    assert finalCube == Sequence(Sequence(cube, first), second);
    SequenceAppend(cube, first, second);
    movesTotal := movesTotal + cut3;
  }
}
