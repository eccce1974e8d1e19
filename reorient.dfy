/** Whole-cube reorientations (ExternalFcts.cs: TwistCube, RotateWholeCube,
    RotateWholeCubeX, TwistSequence).  Each is a fixed relabelling of the 54
    positions; the solver uses them to try the scramble from twelve viewpoints
    and to translate move sequences between viewpoints. */
module Reorient {
  import opened CSharpInt
  import opened Cube

  /** Source position read by TwistCube for each position of the result: F takes
      the old R, U the old F, R the old U, B the old L, D the old B and L the
      old D, each block turned as the assignments of ExternalFcts.cs:671-696 say. */
  function TwistSrc(i: int): int
  {
    match i
    case 0 => 24 case 1 => 21 case 2 => 18 case 3 => 25 case 4 => 22 case 5 => 19
    case 6 => 26 case 7 => 23 case 8 => 20 case 9 => 6 case 10 => 3 case 11 => 0
    case 12 => 7 case 13 => 4 case 14 => 1 case 15 => 8 case 16 => 5 case 17 => 2
    case 18 => 17 case 19 => 16 case 20 => 15 case 21 => 14 case 22 => 13 case 23 => 12
    case 24 => 11 case 25 => 10 case 26 => 9 case 27 => 47 case 28 => 50 case 29 => 53
    case 30 => 46 case 31 => 49 case 32 => 52 case 33 => 45 case 34 => 48 case 35 => 51
    case 36 => 33 case 37 => 30 case 38 => 27 case 39 => 34 case 40 => 31 case 41 => 28
    case 42 => 35 case 43 => 32 case 44 => 29 case 45 => 36 case 46 => 37 case 47 => 38
    case 48 => 39 case 49 => 40 case 50 => 41 case 51 => 42 case 52 => 43 case 53 => 44
    case _ => i
  }

  /** Source position read by RotateWholeCube: U and D turn in place, and the
      side blocks shift F <- R <- B <- L <- F (ExternalFcts.cs:699-718). */
  function RotateSrc(i: int): int
  {
    match i
    case 0 => 18 case 1 => 19 case 2 => 20 case 3 => 21 case 4 => 22 case 5 => 23
    case 6 => 24 case 7 => 25 case 8 => 26 case 9 => 15 case 10 => 12 case 11 => 9
    case 12 => 16 case 13 => 13 case 14 => 10 case 15 => 17 case 16 => 14 case 17 => 11
    case 18 => 27 case 19 => 28 case 20 => 29 case 21 => 30 case 22 => 31 case 23 => 32
    case 24 => 33 case 25 => 34 case 26 => 35 case 27 => 45 case 28 => 46 case 29 => 47
    case 30 => 48 case 31 => 49 case 32 => 50 case 33 => 51 case 34 => 52 case 35 => 53
    case 36 => 38 case 37 => 41 case 38 => 44 case 39 => 37 case 40 => 40 case 41 => 43
    case 42 => 36 case 43 => 39 case 44 => 42 case 45 => 0 case 46 => 1 case 47 => 2
    case 48 => 3 case 49 => 4 case 50 => 5 case 51 => 6 case 52 => 7 case 53 => 8
    case _ => i
  }

  /** Source position read by RotateWholeCubeX, worked out from its definition
      as a twist followed by three rotations: F takes the old D, U the old F,
      B the old U and D the old B (both turned by a half turn), R turns
      clockwise and L counter-clockwise in place. */
  function TurnXSrc(i: int): int
  {
    match i
    case 0 => 36 case 1 => 37 case 2 => 38 case 3 => 39 case 4 => 40 case 5 => 41
    case 6 => 42 case 7 => 43 case 8 => 44 case 9 => 0 case 10 => 1 case 11 => 2
    case 12 => 3 case 13 => 4 case 14 => 5 case 15 => 6 case 16 => 7 case 17 => 8
    case 18 => 24 case 19 => 21 case 20 => 18 case 21 => 25 case 22 => 22 case 23 => 19
    case 24 => 26 case 25 => 23 case 26 => 20 case 27 => 17 case 28 => 16 case 29 => 15
    case 30 => 14 case 31 => 13 case 32 => 12 case 33 => 11 case 34 => 10 case 35 => 9
    case 36 => 35 case 37 => 34 case 38 => 33 case 39 => 32 case 40 => 31 case 41 => 30
    case 42 => 29 case 43 => 28 case 44 => 27 case 45 => 47 case 46 => 50 case 47 => 53
    case 48 => 46 case 49 => 49 case 50 => 52 case 51 => 45 case 52 => 48 case 53 => 51
    case _ => i
  }

  lemma TwistSrcRange(i: int)
    requires 0 <= i < 54
    ensures 0 <= TwistSrc(i) < 54
  {
  }

  lemma RotateSrcRange(i: int)
    requires 0 <= i < 54
    ensures 0 <= RotateSrc(i) < 54
  {
  }

  lemma TurnXSrcRange(i: int)
    requires 0 <= i < 54
    ensures 0 <= TurnXSrc(i) < 54
  {
  }

  /** The cube seen after a corner-axis turn of the whole cube. */
  function TwistCube(c: seq<int>): (r: seq<int>)
    requires IsCube(c)
    ensures IsCube(r)
    ensures ValidLabels(c) ==> ValidLabels(r)
  {
    seq(54, i requires 0 <= i < 54 => TwistSrcRange(i); c[TwistSrc(i)])
  }

  /** The cube seen after a quarter turn of the whole cube about the U-D axis. */
  function RotateWholeCube(c: seq<int>): (r: seq<int>)
    requires IsCube(c)
    ensures IsCube(r)
    ensures ValidLabels(c) ==> ValidLabels(r)
  {
    seq(54, i requires 0 <= i < 54 => RotateSrcRange(i); c[RotateSrc(i)])
  }

  /** The whole-cube turn about the L-R axis: a twist followed by three
      quarter rotations (ExternalFcts.cs:721-727). */
  function RotateWholeCubeX(c: seq<int>): (r: seq<int>)
    requires IsCube(c)
    ensures IsCube(r)
    ensures ValidLabels(c) ==> ValidLabels(r)
  {
    RotateWholeCube(RotateWholeCube(RotateWholeCube(TwistCube(c))))
  }

  // ---------------------------------------------------------------------
  // Orders of the reorientations
  //
  // Facts about the 54-entry tables are split into ranges of positions to
  // keep each case analysis small.

  lemma TwistSrcOrder3Part0(i: int)
    requires 0 <= i < 9
    ensures TwistSrc(TwistSrc(TwistSrc(i))) == i
  {
  }

  lemma TwistSrcOrder3Part1(i: int)
    requires 9 <= i < 18
    ensures TwistSrc(TwistSrc(TwistSrc(i))) == i
  {
  }

  lemma TwistSrcOrder3Part2(i: int)
    requires 18 <= i < 27
    ensures TwistSrc(TwistSrc(TwistSrc(i))) == i
  {
  }

  lemma TwistSrcOrder3Part3(i: int)
    requires 27 <= i < 36
    ensures TwistSrc(TwistSrc(TwistSrc(i))) == i
  {
  }

  lemma TwistSrcOrder3Part4(i: int)
    requires 36 <= i < 45
    ensures TwistSrc(TwistSrc(TwistSrc(i))) == i
  {
  }

  lemma TwistSrcOrder3Part5(i: int)
    requires 45 <= i < 54
    ensures TwistSrc(TwistSrc(TwistSrc(i))) == i
  {
  }

  lemma TwistSrcOrder3(i: int)
    requires 0 <= i < 54
    ensures TwistSrc(TwistSrc(TwistSrc(i))) == i
  {
    if i < 9 {
      TwistSrcOrder3Part0(i);
    } else if i < 18 {
      TwistSrcOrder3Part1(i);
    } else if i < 27 {
      TwistSrcOrder3Part2(i);
    } else if i < 36 {
      TwistSrcOrder3Part3(i);
    } else if i < 45 {
      TwistSrcOrder3Part4(i);
    } else {
      TwistSrcOrder3Part5(i);
    }
  }

  /** Three twists bring the cube back: the twist cycles F, U, R and B, D, L. */
  lemma TwistCubeOrder3(c: seq<int>)
    requires IsCube(c)
    ensures TwistCube(TwistCube(TwistCube(c))) == c
  {
    forall i | 0 <= i < 54
      ensures TwistCube(TwistCube(TwistCube(c)))[i] == c[i]
    {
      TwistSrcRange(i);
      TwistSrcRange(TwistSrc(i));
      TwistSrcOrder3(i);
    }
  }

  lemma RotateSrcOrder4Part0(i: int)
    requires 0 <= i < 9
    ensures RotateSrc(RotateSrc(RotateSrc(RotateSrc(i)))) == i
  {
  }

  lemma RotateSrcOrder4Part1(i: int)
    requires 9 <= i < 18
    ensures RotateSrc(RotateSrc(RotateSrc(RotateSrc(i)))) == i
  {
  }

  lemma RotateSrcOrder4Part2(i: int)
    requires 18 <= i < 27
    ensures RotateSrc(RotateSrc(RotateSrc(RotateSrc(i)))) == i
  {
  }

  lemma RotateSrcOrder4Part3(i: int)
    requires 27 <= i < 36
    ensures RotateSrc(RotateSrc(RotateSrc(RotateSrc(i)))) == i
  {
  }

  lemma RotateSrcOrder4Part4(i: int)
    requires 36 <= i < 45
    ensures RotateSrc(RotateSrc(RotateSrc(RotateSrc(i)))) == i
  {
  }

  lemma RotateSrcOrder4Part5(i: int)
    requires 45 <= i < 54
    ensures RotateSrc(RotateSrc(RotateSrc(RotateSrc(i)))) == i
  {
  }

  lemma RotateSrcOrder4(i: int)
    requires 0 <= i < 54
    ensures RotateSrc(RotateSrc(RotateSrc(RotateSrc(i)))) == i
  {
    if i < 9 {
      RotateSrcOrder4Part0(i);
    } else if i < 18 {
      RotateSrcOrder4Part1(i);
    } else if i < 27 {
      RotateSrcOrder4Part2(i);
    } else if i < 36 {
      RotateSrcOrder4Part3(i);
    } else if i < 45 {
      RotateSrcOrder4Part4(i);
    } else {
      RotateSrcOrder4Part5(i);
    }
  }

  /** Four quarter rotations of the whole cube bring it back. */
  lemma RotateWholeCubeOrder4(c: seq<int>)
    requires IsCube(c)
    ensures RotateWholeCube(RotateWholeCube(RotateWholeCube(RotateWholeCube(c)))) == c
  {
    forall i | 0 <= i < 54
      ensures RotateWholeCube(RotateWholeCube(RotateWholeCube(RotateWholeCube(c))))[i] == c[i]
    {
      RotateSrcRange(i);
      RotateSrcRange(RotateSrc(i));
      RotateSrcRange(RotateSrc(RotateSrc(i)));
      RotateSrcOrder4(i);
    }
  }

  lemma TurnXSrcComposedPart0(i: int)
    requires 0 <= i < 9
    ensures TurnXSrc(i) == TwistSrc(RotateSrc(RotateSrc(RotateSrc(i))))
  {
  }

  lemma TurnXSrcComposedPart1(i: int)
    requires 9 <= i < 18
    ensures TurnXSrc(i) == TwistSrc(RotateSrc(RotateSrc(RotateSrc(i))))
  {
  }

  lemma TurnXSrcComposedPart2(i: int)
    requires 18 <= i < 27
    ensures TurnXSrc(i) == TwistSrc(RotateSrc(RotateSrc(RotateSrc(i))))
  {
  }

  lemma TurnXSrcComposedPart3(i: int)
    requires 27 <= i < 36
    ensures TurnXSrc(i) == TwistSrc(RotateSrc(RotateSrc(RotateSrc(i))))
  {
  }

  lemma TurnXSrcComposedPart4(i: int)
    requires 36 <= i < 45
    ensures TurnXSrc(i) == TwistSrc(RotateSrc(RotateSrc(RotateSrc(i))))
  {
  }

  lemma TurnXSrcComposedPart5(i: int)
    requires 45 <= i < 54
    ensures TurnXSrc(i) == TwistSrc(RotateSrc(RotateSrc(RotateSrc(i))))
  {
  }

  /** The table of TurnXSrc is the composition of the twist and three
      rotations. */
  lemma TurnXSrcComposed(i: int)
    requires 0 <= i < 54
    ensures TurnXSrc(i) == TwistSrc(RotateSrc(RotateSrc(RotateSrc(i))))
  {
    if i < 9 {
      TurnXSrcComposedPart0(i);
    } else if i < 18 {
      TurnXSrcComposedPart1(i);
    } else if i < 27 {
      TurnXSrcComposedPart2(i);
    } else if i < 36 {
      TurnXSrcComposedPart3(i);
    } else if i < 45 {
      TurnXSrcComposedPart4(i);
    } else {
      TurnXSrcComposedPart5(i);
    }
  }

  lemma TurnXAt(c: seq<int>, i: int)
    requires IsCube(c) && 0 <= i < 54
    ensures 0 <= TurnXSrc(i) < 54 && RotateWholeCubeX(c)[i] == c[TurnXSrc(i)]
  {
    TwistSrcRange(RotateSrc(RotateSrc(RotateSrc(i))));
    RotateSrcRange(i);
    RotateSrcRange(RotateSrc(i));
    RotateSrcRange(RotateSrc(RotateSrc(i)));
    TurnXSrcRange(i);
    TurnXSrcComposed(i);
  }

  lemma TurnXSrcOrder4Part0(i: int)
    requires 0 <= i < 9
    ensures TurnXSrc(TurnXSrc(TurnXSrc(TurnXSrc(i)))) == i
  {
  }

  lemma TurnXSrcOrder4Part1(i: int)
    requires 9 <= i < 18
    ensures TurnXSrc(TurnXSrc(TurnXSrc(TurnXSrc(i)))) == i
  {
  }

  lemma TurnXSrcOrder4Part2(i: int)
    requires 18 <= i < 27
    ensures TurnXSrc(TurnXSrc(TurnXSrc(TurnXSrc(i)))) == i
  {
  }

  lemma TurnXSrcOrder4Part3(i: int)
    requires 27 <= i < 36
    ensures TurnXSrc(TurnXSrc(TurnXSrc(TurnXSrc(i)))) == i
  {
  }

  lemma TurnXSrcOrder4Part4(i: int)
    requires 36 <= i < 45
    ensures TurnXSrc(TurnXSrc(TurnXSrc(TurnXSrc(i)))) == i
  {
  }

  lemma TurnXSrcOrder4Part5(i: int)
    requires 45 <= i < 54
    ensures TurnXSrc(TurnXSrc(TurnXSrc(TurnXSrc(i)))) == i
  {
  }

  lemma TurnXSrcOrder4(i: int)
    requires 0 <= i < 54
    ensures TurnXSrc(TurnXSrc(TurnXSrc(TurnXSrc(i)))) == i
  {
    if i < 9 {
      TurnXSrcOrder4Part0(i);
    } else if i < 18 {
      TurnXSrcOrder4Part1(i);
    } else if i < 27 {
      TurnXSrcOrder4Part2(i);
    } else if i < 36 {
      TurnXSrcOrder4Part3(i);
    } else if i < 45 {
      TurnXSrcOrder4Part4(i);
    } else {
      TurnXSrcOrder4Part5(i);
    }
  }

  /** Four turns about the L-R axis bring the cube back. */
  lemma RotateWholeCubeXOrder4(c: seq<int>)
    requires IsCube(c)
    ensures RotateWholeCubeX(RotateWholeCubeX(RotateWholeCubeX(RotateWholeCubeX(c)))) == c
  {
    var x1 := RotateWholeCubeX(c);
    var x2 := RotateWholeCubeX(x1);
    var x3 := RotateWholeCubeX(x2);
    forall i | 0 <= i < 54
      ensures RotateWholeCubeX(x3)[i] == c[i]
    {
      var j1 := TurnXSrc(i);
      var j2 := TurnXSrc(j1);
      var j3 := TurnXSrc(j2);
      TurnXAt(x3, i);
      TurnXAt(x2, j1);
      TurnXAt(x1, j2);
      TurnXAt(c, j3);
      TurnXSrcOrder4(i);
    }
  }

  // ---------------------------------------------------------------------
  // Translating move sequences

  /** The face that a twist carries face f to: F to U, U to R, R to F, and
      B to D, D to L, L to B. */
  function TwistFace(f: int): int
  {
    match f
    case 0 => 1 case 1 => 2 case 2 => 0
    case 3 => 4 case 4 => 5 case 5 => 3
    case _ => f
  }

  /** One symbol of TwistSequence, with C#'s truncating division and remainder
      (ExternalFcts.cs:661-666). A symbol keeps its turn class and moves to the
      twisted face. */
  function TwistMove(m: int): (r: int)
    ensures m >= 0 ==> r >= 0 && r / 6 == m / 6 && r % 6 == TwistFace(m % 6)
  {
    var baseFace := CsDiv(m, 6) * 6;
    var part1 := CsRem(1 + m - baseFace, 3);
    var part2 := 3 * CsDiv(m - baseFace, 3);
    baseFace + (part1 + part2)
  }

  /** TwistSequence: every symbol translated (ExternalFcts.cs:655-669). */
  function TwistSequence(s: seq<int>): (r: seq<int>)
    ensures |r| == |s|
    ensures forall k :: 0 <= k < |s| ==> r[k] == TwistMove(s[k])
    ensures NonNegative(s) ==> NonNegative(r)
  {
    seq(|s|, k requires 0 <= k < |s| => TwistMove(s[k]))
  }

  lemma TwistFaceOrder3(f: int)
    requires 0 <= f < 6
    ensures 0 <= TwistFace(f) < 6 && TwistFace(TwistFace(TwistFace(f))) == f
  {
  }

  /** Translating a symbol three times gives it back. */
  lemma TwistMoveOrder3(m: int)
    requires m >= 0
    ensures TwistMove(TwistMove(TwistMove(m))) == m
  {
    var m1 := TwistMove(m);
    var m2 := TwistMove(m1);
    var m3 := TwistMove(m2);
    TwistFaceOrder3(m % 6);
    assert m3 / 6 == m / 6 && m3 % 6 == m % 6;
  }

  /** Translating a sequence three times gives it back. */
  lemma TwistSequenceOrder3(s: seq<int>)
    requires NonNegative(s)
    ensures TwistSequence(TwistSequence(TwistSequence(s))) == s
  {
    forall k | 0 <= k < |s|
      ensures TwistMove(TwistMove(TwistMove(s[k]))) == s[k]
    {
      TwistMoveOrder3(s[k]);
    }
  }

  lemma TwistConjugatesFPart0(i: int)
    requires 0 <= i < 9
    ensures QuarterSrc(0, TwistSrc(i)) == TwistSrc(QuarterSrc(1, i))
  { TwistSrcRange(i);
  }

  lemma TwistConjugatesFPart1(i: int)
    requires 9 <= i < 18
    ensures QuarterSrc(0, TwistSrc(i)) == TwistSrc(QuarterSrc(1, i))
  { TwistSrcRange(i);
  }

  lemma TwistConjugatesFPart2(i: int)
    requires 18 <= i < 27
    ensures QuarterSrc(0, TwistSrc(i)) == TwistSrc(QuarterSrc(1, i))
  { TwistSrcRange(i);
  }

  lemma TwistConjugatesFPart3(i: int)
    requires 27 <= i < 36
    ensures QuarterSrc(0, TwistSrc(i)) == TwistSrc(QuarterSrc(1, i))
  { TwistSrcRange(i);
  }

  lemma TwistConjugatesFPart4(i: int)
    requires 36 <= i < 45
    ensures QuarterSrc(0, TwistSrc(i)) == TwistSrc(QuarterSrc(1, i))
  { TwistSrcRange(i);
  }

  lemma TwistConjugatesFPart5(i: int)
    requires 45 <= i < 54
    ensures QuarterSrc(0, TwistSrc(i)) == TwistSrc(QuarterSrc(1, i))
  { TwistSrcRange(i);
  }

  lemma TwistConjugatesF(i: int)
    requires 0 <= i < 54
    ensures QuarterSrc(0, TwistSrc(i)) == TwistSrc(QuarterSrc(1, i))
  {
    if i < 9 {
      TwistConjugatesFPart0(i);
    } else if i < 18 {
      TwistConjugatesFPart1(i);
    } else if i < 27 {
      TwistConjugatesFPart2(i);
    } else if i < 36 {
      TwistConjugatesFPart3(i);
    } else if i < 45 {
      TwistConjugatesFPart4(i);
    } else {
      TwistConjugatesFPart5(i);
    }
  }

  lemma TwistConjugatesUPart0(i: int)
    requires 0 <= i < 9
    ensures QuarterSrc(1, TwistSrc(i)) == TwistSrc(QuarterSrc(2, i))
  { TwistSrcRange(i);
  }

  lemma TwistConjugatesUPart1(i: int)
    requires 9 <= i < 18
    ensures QuarterSrc(1, TwistSrc(i)) == TwistSrc(QuarterSrc(2, i))
  { TwistSrcRange(i);
  }

  lemma TwistConjugatesUPart2(i: int)
    requires 18 <= i < 27
    ensures QuarterSrc(1, TwistSrc(i)) == TwistSrc(QuarterSrc(2, i))
  { TwistSrcRange(i);
  }

  lemma TwistConjugatesUPart3(i: int)
    requires 27 <= i < 36
    ensures QuarterSrc(1, TwistSrc(i)) == TwistSrc(QuarterSrc(2, i))
  { TwistSrcRange(i);
  }

  lemma TwistConjugatesUPart4(i: int)
    requires 36 <= i < 45
    ensures QuarterSrc(1, TwistSrc(i)) == TwistSrc(QuarterSrc(2, i))
  { TwistSrcRange(i);
  }

  lemma TwistConjugatesUPart5(i: int)
    requires 45 <= i < 54
    ensures QuarterSrc(1, TwistSrc(i)) == TwistSrc(QuarterSrc(2, i))
  { TwistSrcRange(i);
  }

  lemma TwistConjugatesU(i: int)
    requires 0 <= i < 54
    ensures QuarterSrc(1, TwistSrc(i)) == TwistSrc(QuarterSrc(2, i))
  {
    if i < 9 {
      TwistConjugatesUPart0(i);
    } else if i < 18 {
      TwistConjugatesUPart1(i);
    } else if i < 27 {
      TwistConjugatesUPart2(i);
    } else if i < 36 {
      TwistConjugatesUPart3(i);
    } else if i < 45 {
      TwistConjugatesUPart4(i);
    } else {
      TwistConjugatesUPart5(i);
    }
  }

  lemma TwistConjugatesRPart0(i: int)
    requires 0 <= i < 9
    ensures QuarterSrc(2, TwistSrc(i)) == TwistSrc(QuarterSrc(0, i))
  { TwistSrcRange(i);
  }

  lemma TwistConjugatesRPart1(i: int)
    requires 9 <= i < 18
    ensures QuarterSrc(2, TwistSrc(i)) == TwistSrc(QuarterSrc(0, i))
  { TwistSrcRange(i);
  }

  lemma TwistConjugatesRPart2(i: int)
    requires 18 <= i < 27
    ensures QuarterSrc(2, TwistSrc(i)) == TwistSrc(QuarterSrc(0, i))
  { TwistSrcRange(i);
  }

  lemma TwistConjugatesRPart3(i: int)
    requires 27 <= i < 36
    ensures QuarterSrc(2, TwistSrc(i)) == TwistSrc(QuarterSrc(0, i))
  { TwistSrcRange(i);
  }

  lemma TwistConjugatesRPart4(i: int)
    requires 36 <= i < 45
    ensures QuarterSrc(2, TwistSrc(i)) == TwistSrc(QuarterSrc(0, i))
  { TwistSrcRange(i);
  }

  lemma TwistConjugatesRPart5(i: int)
    requires 45 <= i < 54
    ensures QuarterSrc(2, TwistSrc(i)) == TwistSrc(QuarterSrc(0, i))
  { TwistSrcRange(i);
  }

  lemma TwistConjugatesR(i: int)
    requires 0 <= i < 54
    ensures QuarterSrc(2, TwistSrc(i)) == TwistSrc(QuarterSrc(0, i))
  {
    if i < 9 {
      TwistConjugatesRPart0(i);
    } else if i < 18 {
      TwistConjugatesRPart1(i);
    } else if i < 27 {
      TwistConjugatesRPart2(i);
    } else if i < 36 {
      TwistConjugatesRPart3(i);
    } else if i < 45 {
      TwistConjugatesRPart4(i);
    } else {
      TwistConjugatesRPart5(i);
    }
  }

  lemma TwistConjugatesBPart0(i: int)
    requires 0 <= i < 9
    ensures QuarterSrc(3, TwistSrc(i)) == TwistSrc(QuarterSrc(4, i))
  { TwistSrcRange(i);
  }

  lemma TwistConjugatesBPart1(i: int)
    requires 9 <= i < 18
    ensures QuarterSrc(3, TwistSrc(i)) == TwistSrc(QuarterSrc(4, i))
  { TwistSrcRange(i);
  }

  lemma TwistConjugatesBPart2(i: int)
    requires 18 <= i < 27
    ensures QuarterSrc(3, TwistSrc(i)) == TwistSrc(QuarterSrc(4, i))
  { TwistSrcRange(i);
  }

  lemma TwistConjugatesBPart3(i: int)
    requires 27 <= i < 36
    ensures QuarterSrc(3, TwistSrc(i)) == TwistSrc(QuarterSrc(4, i))
  { TwistSrcRange(i);
  }

  lemma TwistConjugatesBPart4(i: int)
    requires 36 <= i < 45
    ensures QuarterSrc(3, TwistSrc(i)) == TwistSrc(QuarterSrc(4, i))
  { TwistSrcRange(i);
  }

  lemma TwistConjugatesBPart5(i: int)
    requires 45 <= i < 54
    ensures QuarterSrc(3, TwistSrc(i)) == TwistSrc(QuarterSrc(4, i))
  { TwistSrcRange(i);
  }

  lemma TwistConjugatesB(i: int)
    requires 0 <= i < 54
    ensures QuarterSrc(3, TwistSrc(i)) == TwistSrc(QuarterSrc(4, i))
  {
    if i < 9 {
      TwistConjugatesBPart0(i);
    } else if i < 18 {
      TwistConjugatesBPart1(i);
    } else if i < 27 {
      TwistConjugatesBPart2(i);
    } else if i < 36 {
      TwistConjugatesBPart3(i);
    } else if i < 45 {
      TwistConjugatesBPart4(i);
    } else {
      TwistConjugatesBPart5(i);
    }
  }

  lemma TwistConjugatesDPart0(i: int)
    requires 0 <= i < 9
    ensures QuarterSrc(4, TwistSrc(i)) == TwistSrc(QuarterSrc(5, i))
  { TwistSrcRange(i);
  }

  lemma TwistConjugatesDPart1(i: int)
    requires 9 <= i < 18
    ensures QuarterSrc(4, TwistSrc(i)) == TwistSrc(QuarterSrc(5, i))
  { TwistSrcRange(i);
  }

  lemma TwistConjugatesDPart2(i: int)
    requires 18 <= i < 27
    ensures QuarterSrc(4, TwistSrc(i)) == TwistSrc(QuarterSrc(5, i))
  { TwistSrcRange(i);
  }

  lemma TwistConjugatesDPart3(i: int)
    requires 27 <= i < 36
    ensures QuarterSrc(4, TwistSrc(i)) == TwistSrc(QuarterSrc(5, i))
  { TwistSrcRange(i);
  }

  lemma TwistConjugatesDPart4(i: int)
    requires 36 <= i < 45
    ensures QuarterSrc(4, TwistSrc(i)) == TwistSrc(QuarterSrc(5, i))
  { TwistSrcRange(i);
  }

  lemma TwistConjugatesDPart5(i: int)
    requires 45 <= i < 54
    ensures QuarterSrc(4, TwistSrc(i)) == TwistSrc(QuarterSrc(5, i))
  { TwistSrcRange(i);
  }

  lemma TwistConjugatesD(i: int)
    requires 0 <= i < 54
    ensures QuarterSrc(4, TwistSrc(i)) == TwistSrc(QuarterSrc(5, i))
  {
    if i < 9 {
      TwistConjugatesDPart0(i);
    } else if i < 18 {
      TwistConjugatesDPart1(i);
    } else if i < 27 {
      TwistConjugatesDPart2(i);
    } else if i < 36 {
      TwistConjugatesDPart3(i);
    } else if i < 45 {
      TwistConjugatesDPart4(i);
    } else {
      TwistConjugatesDPart5(i);
    }
  }

  lemma TwistConjugatesLPart0(i: int)
    requires 0 <= i < 9
    ensures QuarterSrc(5, TwistSrc(i)) == TwistSrc(QuarterSrc(3, i))
  { TwistSrcRange(i);
  }

  lemma TwistConjugatesLPart1(i: int)
    requires 9 <= i < 18
    ensures QuarterSrc(5, TwistSrc(i)) == TwistSrc(QuarterSrc(3, i))
  { TwistSrcRange(i);
  }

  lemma TwistConjugatesLPart2(i: int)
    requires 18 <= i < 27
    ensures QuarterSrc(5, TwistSrc(i)) == TwistSrc(QuarterSrc(3, i))
  { TwistSrcRange(i);
  }

  lemma TwistConjugatesLPart3(i: int)
    requires 27 <= i < 36
    ensures QuarterSrc(5, TwistSrc(i)) == TwistSrc(QuarterSrc(3, i))
  { TwistSrcRange(i);
  }

  lemma TwistConjugatesLPart4(i: int)
    requires 36 <= i < 45
    ensures QuarterSrc(5, TwistSrc(i)) == TwistSrc(QuarterSrc(3, i))
  { TwistSrcRange(i);
  }

  lemma TwistConjugatesLPart5(i: int)
    requires 45 <= i < 54
    ensures QuarterSrc(5, TwistSrc(i)) == TwistSrc(QuarterSrc(3, i))
  { TwistSrcRange(i);
  }

  lemma TwistConjugatesL(i: int)
    requires 0 <= i < 54
    ensures QuarterSrc(5, TwistSrc(i)) == TwistSrc(QuarterSrc(3, i))
  {
    if i < 9 {
      TwistConjugatesLPart0(i);
    } else if i < 18 {
      TwistConjugatesLPart1(i);
    } else if i < 27 {
      TwistConjugatesLPart2(i);
    } else if i < 36 {
      TwistConjugatesLPart3(i);
    } else if i < 45 {
      TwistConjugatesLPart4(i);
    } else {
      TwistConjugatesLPart5(i);
    }
  }

  /** A twist followed by the translated quarter turn is the quarter turn
      followed by the twist. */
  lemma TwistQuarterTurn(c: seq<int>, f: int)
    requires IsCube(c) && 0 <= f < 6
    ensures TwistCube(QuarterTurn(c, f)) == QuarterTurn(TwistCube(c), TwistFace(f))
  {
    forall i | 0 <= i < 54
      ensures TwistCube(QuarterTurn(c, f))[i] == QuarterTurn(TwistCube(c), TwistFace(f))[i]
    {
      TwistSrcRange(i);
      match f
      case 0 => TwistConjugatesF(i);
      case 1 => TwistConjugatesU(i);
      case 2 => TwistConjugatesR(i);
      case 3 => TwistConjugatesB(i);
      case 4 => TwistConjugatesD(i);
      case 5 => TwistConjugatesL(i);
    }
  }

  lemma {:induction false} TwistTurns(c: seq<int>, f: int, n: nat)
    requires IsCube(c) && 0 <= f < 6
    ensures TwistCube(Turns(c, f, n)) == Turns(TwistCube(c), TwistFace(f), n)
  {
    if n > 0 {
      var t := Turns(c, f, n - 1);
      var u := Turns(TwistCube(c), TwistFace(f), n - 1);
      TwistTurns(c, f, n - 1);
      TwistQuarterTurn(t, f);
      assert Turns(c, f, n) == QuarterTurn(t, f);
      assert Turns(TwistCube(c), TwistFace(f), n) == QuarterTurn(u, TwistFace(f));
    }
  }

  /** Twisting the state after move m gives the twisted state after the
      translated move. */
  lemma TwistMoveCommutes(c: seq<int>, m: int)
    requires IsCube(c) && m >= 0
    ensures TwistCube(Move(c, m)) == Move(TwistCube(c), TwistMove(m))
  {
    var r := TwistMove(m);
    assert Repetition(r) == Repetition(m);
    TwistTurns(c, m % 6, Repetition(m) + 1);
  }

  /** A scramble applied and then twisted equals the twisted start with the
      translated scramble: TwistSequence is the move-level image of TwistCube. */
  lemma {:induction false} TwistSequenceCommutes(c: seq<int>, s: seq<int>)
    requires IsCube(c) && NonNegative(s)
    ensures TwistCube(Sequence(c, s)) == Sequence(TwistCube(c), TwistSequence(s))
  {
    if s != [] {
      var init := s[..|s| - 1];
      TwistSequenceCommutes(c, init);
      assert TwistSequence(s)[..|s| - 1] == TwistSequence(init);
      TwistMoveCommutes(Sequence(c, init), s[|s| - 1]);
    }
  }
}
