/** The scoring functions of the solver (ExternalFcts.cs: Compare, Entropy,
    Is2x2x3, Is2gen): facelet agreements with a target, pairs of facelets that
    agree with each other, the D-B-L 2x2x3 block, and the test that a state
    can be finished with F and U turns only. */
module Evaluators {
  import opened CSharpInt
  import opened Cube

  // ---------------------------------------------------------------------
  // Compare

  /** Facelet x agrees with target facelet y when they are equal, or when the
      target holds a wildcard (a label above 5) and x is a face label. */
  predicate Agrees(x: int, y: int)
  {
    x == y || (y > 5 && x < 6)
  }

  /** The points Compare gives one position: one for equality, one for a
      face label under a wildcard.  The two never both apply. */
  function Credit(x: int, y: int): (k: int)
    ensures k == (if Agrees(x, y) then 1 else 0)
  {
    (if x == y then 1 else 0) + (if y > 5 && x < 6 then 1 else 0)
  }

  /** The number of agreeing positions of two equally long states. */
  function MatchCount(a: seq<int>, b: seq<int>): (n: int)
    requires |a| == |b|
    ensures 0 <= n <= |a|
    ensures n == |a| <==> forall k :: 0 <= k < |a| ==> Agrees(a[k], b[k])
  {
    if a == [] then 0
    else
      var n := MatchCount(a[..|a| - 1], b[..|b| - 1]) + Credit(a[|a| - 1], b[|b| - 1]);
      assert forall k :: 0 <= k < |a| - 1 ==> a[..|a| - 1][k] == a[k] && b[..|b| - 1][k] == b[k];
      n
  }

  /** Compare: the running counter over the 54 positions
      (ExternalFcts.cs:228-240). */
  method Compare(cube1: array<int>, cube2: array<int>) returns (cmp: int)
    requires cube1.Length >= 54 && cube2.Length >= 54
    ensures cmp == MatchCount(cube1[..54], cube2[..54])
  {
    cmp := 0;
    for m := 0 to 54
      invariant cmp == MatchCount(cube1[..m], cube2[..m])
    {
      if cube1[m] == cube2[m] {
        cmp := cmp + 1;
      }
      if cube2[m] > 5 {
        if cube1[m] < 6 {
          cmp := cmp + 1;
        }
      }
      assert cube1[..m + 1][..m] == cube1[..m] && cube2[..m + 1][..m] == cube2[..m];
    }
  }

  /** Against a target without wildcards, the full score 54 is reached exactly
      when the two states are equal. */
  lemma FullMatchIffEqual(a: seq<int>, b: seq<int>)
    requires |a| == |b| && forall k :: 0 <= k < |b| ==> 0 <= b[k] <= 5
    ensures MatchCount(a, b) == |a| <==> a == b
  {
    if MatchCount(a, b) == |a| {
      forall k | 0 <= k < |a|
        ensures a[k] == b[k]
      {
        assert Agrees(a[k], b[k]);
      }
    }
  }

  // ---------------------------------------------------------------------
  // Entropy and Is2x2x3

  /** 1 when the condition holds. */
  function Ind(b: bool): int
  {
    if b then 1 else 0
  }

  /** The 24 corner-edge pairs of Entropy (ExternalFcts.cs:246-269). */
  function CornerEdgePairs(c: seq<int>): (n: int)
    requires |c| >= 54
    ensures 0 <= n <= 24
  {
    Ind(c[0] == c[1] && c[15] == c[16]) + Ind(c[0] == c[3] && c[47] == c[50]) +
    Ind(c[47] == c[46] && c[15] == c[12]) + Ind(c[2] == c[5] && c[18] == c[21]) +
    Ind(c[2] == c[1] && c[17] == c[16]) + Ind(c[17] == c[14] && c[18] == c[19]) +
    Ind(c[8] == c[5] && c[24] == c[21]) + Ind(c[8] == c[7] && c[38] == c[37]) +
    Ind(c[38] == c[41] && c[24] == c[25]) + Ind(c[6] == c[3] && c[53] == c[50]) +
    Ind(c[6] == c[7] && c[36] == c[37]) + Ind(c[36] == c[39] && c[53] == c[52]) +
    Ind(c[29] == c[32] && c[45] == c[48]) + Ind(c[29] == c[28] && c[9] == c[10]) +
    Ind(c[9] == c[12] && c[45] == c[46]) + Ind(c[27] == c[28] && c[11] == c[10]) +
    Ind(c[27] == c[30] && c[20] == c[23]) + Ind(c[11] == c[14] && c[20] == c[19]) +
    Ind(c[33] == c[34] && c[44] == c[43]) + Ind(c[33] == c[30] && c[26] == c[23]) +
    Ind(c[44] == c[41] && c[26] == c[25]) + Ind(c[35] == c[34] && c[42] == c[43]) +
    Ind(c[35] == c[32] && c[51] == c[48]) + Ind(c[42] == c[39] && c[51] == c[52])
  }

  /** The 24 edge-centre pairs of Entropy (ExternalFcts.cs:272-296). */
  function EdgeCentrePairs(c: seq<int>): (n: int)
    requires |c| >= 54
    ensures 0 <= n <= 24
  {
    Ind(c[4] == c[1]) + Ind(c[4] == c[3]) + Ind(c[4] == c[5]) +
    Ind(c[4] == c[7]) + Ind(c[13] == c[10]) + Ind(c[13] == c[12]) +
    Ind(c[13] == c[14]) + Ind(c[13] == c[16]) + Ind(c[22] == c[19]) +
    Ind(c[22] == c[21]) + Ind(c[22] == c[23]) + Ind(c[22] == c[25]) +
    Ind(c[31] == c[28]) + Ind(c[31] == c[30]) + Ind(c[31] == c[32]) +
    Ind(c[31] == c[34]) + Ind(c[40] == c[37]) + Ind(c[40] == c[39]) +
    Ind(c[40] == c[41]) + Ind(c[40] == c[43]) + Ind(c[49] == c[46]) +
    Ind(c[49] == c[48]) + Ind(c[49] == c[50]) + Ind(c[49] == c[52])
  }

  /** Entropy: the pairs of adjacent facelets that agree
      (ExternalFcts.cs:242-298). */
  function Entropy(c: seq<int>): (ent: int)
    requires |c| >= 54
    ensures 0 <= ent <= 48
  {
    CornerEdgePairs(c) + EdgeCentrePairs(c)
  }

  /** Is2x2x3: the six corner-edge pairs and ten edge-centre pairs of the
      D-B-L 2x2x3 block (ExternalFcts.cs:300-324). */
  function Is2x2x3(c: seq<int>): (ok: int)
    requires |c| >= 54
    ensures 0 <= ok <= 16
  {
    Ind(c[33] == c[34] && c[44] == c[43]) + Ind(c[33] == c[30] && c[26] == c[23]) +
    Ind(c[44] == c[41] && c[26] == c[25]) + Ind(c[35] == c[34] && c[42] == c[43]) +
    Ind(c[35] == c[32] && c[51] == c[48]) + Ind(c[42] == c[39] && c[51] == c[52]) +
    Ind(c[22] == c[23]) + Ind(c[22] == c[25]) + Ind(c[31] == c[30]) +
    Ind(c[31] == c[32]) + Ind(c[31] == c[34]) + Ind(c[40] == c[39]) +
    Ind(c[40] == c[41]) + Ind(c[40] == c[43]) + Ind(c[49] == c[48]) +
    Ind(c[49] == c[52])
  }

  /** The solved cube scores the maximum of both counts. */
  lemma SolvedCounts()
    ensures Entropy(Solved()) == 48
    ensures Is2x2x3(Solved()) == 16
  {
  }

  /** Every check of Is2x2x3 is also a check of Entropy, so the block score
      never exceeds the entropy and the other 32 checks make up the rest. */
  lemma BlockWithinEntropy(c: seq<int>)
    requires |c| >= 54
    ensures Is2x2x3(c) <= Entropy(c) <= Is2x2x3(c) + 32
  {
  }

  /** The facelets Is2x2x3 reads. */
  function BlockPositions(): set<int>
  {
    {22, 23, 25, 26, 30, 31, 32, 33, 34, 35, 39, 40, 41, 42, 43, 44, 48, 49, 51, 52}
  }

  lemma FrontUpFixBlock(f: int, i: int)
    requires (f == 0 || f == 1) && i in BlockPositions()
    ensures QuarterSrc(f, i) == i
  {
  }

  /** Two states agree on every facelet Is2x2x3 reads. */
  predicate SameBlock(c: seq<int>, d: seq<int>)
    requires |c| >= 54 && |d| >= 54
  {
    c[22] == d[22] && c[23] == d[23] && c[25] == d[25] && c[26] == d[26] &&
    c[30] == d[30] && c[31] == d[31] && c[32] == d[32] && c[33] == d[33] &&
    c[34] == d[34] && c[35] == d[35] && c[39] == d[39] && c[40] == d[40] &&
    c[41] == d[41] && c[42] == d[42] && c[43] == d[43] && c[44] == d[44] &&
    c[48] == d[48] && c[49] == d[49] && c[51] == d[51] && c[52] == d[52]
  }

  /** The block score depends only on the block. */
  lemma SameBlockSameScore(c: seq<int>, d: seq<int>)
    requires |c| >= 54 && |d| >= 54 && SameBlock(c, d)
    ensures Is2x2x3(c) == Is2x2x3(d)
  {
  }

  /** Turns of F or U leave every facelet of the block in place. */
  lemma {:induction false} TurnsFixBlock(c: seq<int>, f: int, n: nat, i: int)
    requires IsCube(c) && (f == 0 || f == 1) && i in BlockPositions()
    ensures Turns(c, f, n)[i] == c[i]
  {
    if n > 0 {
      var t := Turns(c, f, n - 1);
      TurnsFixBlock(c, f, n - 1, i);
      FrontUpFixBlock(f, i);
      assert QuarterTurn(t, f)[i] == t[QuarterSrc(f, i)];
    }
  }

  lemma FixedBlockIsSame(t: seq<int>, c: seq<int>)
    requires |t| >= 54 && |c| >= 54
    requires forall i :: i in BlockPositions() ==> t[i] == c[i]
    ensures SameBlock(t, c)
  {
  }

  lemma TurnsKeepBlock(c: seq<int>, f: int, n: nat)
    requires IsCube(c) && (f == 0 || f == 1)
    ensures Is2x2x3(Turns(c, f, n)) == Is2x2x3(c)
  {
    var t := Turns(c, f, n);
    forall i | i in BlockPositions()
      ensures t[i] == c[i]
    {
      TurnsFixBlock(c, f, n, i);
    }
    FixedBlockIsSame(t, c);
    SameBlockSameScore(t, c);
  }

  /** Whether a symbol turns F or U (the moves of the 2-gen group). */
  predicate FrontOrUp(m: int)
  {
    m >= 0 && (m % 6 == 0 || m % 6 == 1)
  }

  /** A sequence of F and U moves leaves the 2x2x3 block score unchanged: the
      block built in the first stage survives the 2-gen stage. */
  lemma {:induction false} FrontUpSequenceKeepsBlock(c: seq<int>, s: seq<int>)
    requires IsCube(c) && forall k :: 0 <= k < |s| ==> FrontOrUp(s[k])
    ensures NonNegative(s)
    ensures Is2x2x3(Sequence(c, s)) == Is2x2x3(c)
  {
    if s != [] {
      var init := s[..|s| - 1];
      var m := s[|s| - 1];
      FrontUpSequenceKeepsBlock(c, init);
      TurnsKeepBlock(Sequence(c, init), m % 6, Repetition(m) + 1);
    }
  }

  // ---------------------------------------------------------------------
  // Is2gen

  /** The 32-bit sum of the bits of three facelet labels: C#'s
      `(1 << a) + (1 << b) + (1 << d)`. */
  function Corner(a: int, b: int, d: int): int
  {
    Wrap32(ShiftOne(a) + ShiftOne(b) + ShiftOne(d))
  }

  /** The seven edge-orientation checks of Is2gen (ExternalFcts.cs:332-338);
      the sixth compares position 13 with itself and always holds. */
  function EdgeChecks(c: seq<int>): (n: int)
    requires |c| >= 54
    ensures 0 <= n <= 7
  {
    Ind(c[1] == c[4] || c[16] == c[13]) + Ind(c[3] == c[4] || c[50] == c[13]) +
    Ind(c[5] == c[4] || c[21] == c[13]) + Ind(c[7] == c[4] || c[37] == c[13]) +
    Ind(c[28] == c[4] || c[10] == c[13]) + Ind(c[46] == c[4] || c[13] == c[13]) +
    Ind(c[19] == c[4] || c[14] == c[13])
  }

  /** The bit sums of the six corners FDL, FDR, FUL, FUR, BUL, BUR. */
  function CornerSums(c: seq<int>): (v: seq<int>)
    requires |c| >= 54
    ensures |v| == 6
  {
    [Corner(c[6], c[36], c[53]), Corner(c[8], c[38], c[24]), Corner(c[0], c[15], c[47]),
     Corner(c[2], c[17], c[18]), Corner(c[29], c[9], c[45]), Corner(c[27], c[11], c[20])]
  }

  /** The six reference sums a corner is compared with, built from the
      centres F, D, L, R, U and B. */
  function References(c: seq<int>): (r: seq<int>)
    requires |c| >= 54
    ensures |r| == 6
  {
    [Corner(c[4], c[40], c[49]), Corner(c[4], c[40], c[22]), Corner(c[4], c[13], c[49]),
     Corner(c[4], c[13], c[22]), Corner(c[31], c[13], c[49]), Corner(c[31], c[13], c[22])]
  }

  /** The class of the first reference equal to v, or 9 when none is. */
  function Classify(v: int, refs: seq<int>, classes: seq<int>): (p: int)
    requires |refs| == 6 && |classes| == 6
    ensures p == 9 || p in classes
  {
    if v == refs[0] then classes[0]
    else if v == refs[1] then classes[1]
    else if v == refs[2] then classes[2]
    else if v == refs[3] then classes[3]
    else if v == refs[4] then classes[4]
    else if v == refs[5] then classes[5]
    else 9
  }

  /** The classes of the two mappings (ExternalFcts.cs:359-365 and 378-384). */
  const FirstClasses: seq<int> := [0, 1, 2, 2, 0, 1]
  const SecondClasses: seq<int> := [0, 1, 0, 2, 1, 2]

  /** The six corner classes read as a decimal number. */
  function CodeOf(p: seq<int>): int
    requires |p| == 6
  {
    p[0] * 100000 + p[1] * 10000 + p[2] * 1000 + p[3] * 100 + p[4] * 10 + p[5]
  }

  /** The corner code of a state under one mapping. */
  function CornerCode(c: seq<int>, classes: seq<int>): int
    requires |c| >= 54 && |classes| == 6
  {
    var v := CornerSums(c);
    var r := References(c);
    CodeOf([Classify(v[0], r, classes), Classify(v[1], r, classes), Classify(v[2], r, classes),
            Classify(v[3], r, classes), Classify(v[4], r, classes), Classify(v[5], r, classes)])
  }

  /** The allowed list of Is2gen: the corner codes of states reachable with
      F and U turns (ExternalFcts.cs:370). */
  predicate Allowed(code: int)
  {
    code == 12201 || code == 1221 || code == 11022 || code == 12120 || code == 10212 ||
    code == 102210 || code == 110220 || code == 100122 || code == 102021 || code == 101202 ||
    code == 210021 || code == 221001 || code == 211200 || code == 210102 || code == 212010 ||
    code == 21102 || code == 2112 || code == 22011 || code == 21210 || code == 20121 ||
    code == 120012 || code == 112002 || code == 122100 || code == 120201 || code == 121020 ||
    code == 201120 || code == 220110 || code == 200211 || code == 201012 || code == 202101
  }

  /** Is2gen: 1 when all edge checks pass and both corner codes are in the
      allowed list, 0 otherwise (ExternalFcts.cs:327-392). */
  function Is2gen(c: seq<int>): (r: int)
    requires |c| >= 54
    ensures r == 0 || r == 1
    ensures r == 1 <==>
      EdgeChecks(c) == 7 && Allowed(CornerCode(c, FirstClasses)) && Allowed(CornerCode(c, SecondClasses))
  {
    if EdgeChecks(c) < 7 then 0
    else if !Allowed(CornerCode(c, FirstClasses)) then 0
    else if Allowed(CornerCode(c, SecondClasses)) then 1
    else 0
  }

  /** A state with a misoriented edge is never 2-gen. */
  lemma Is2genNeedsOrientedEdges(c: seq<int>)
    requires |c| >= 54 && Is2gen(c) == 1
    ensures c[1] == c[4] || c[16] == c[13]
    ensures c[3] == c[4] || c[50] == c[13]
    ensures c[5] == c[4] || c[21] == c[13]
    ensures c[7] == c[4] || c[37] == c[13]
    ensures c[28] == c[4] || c[10] == c[13]
    ensures c[19] == c[4] || c[14] == c[13]
  {
  }

  lemma SolvedSums()
    ensures CornerSums(Solved()) == [49, 21, 35, 7, 42, 14]
    ensures References(Solved()) == [49, 21, 35, 7, 42, 14]
  {
    assert ShiftOne(0) == 1 && ShiftOne(1) == 2 && ShiftOne(2) == 4;
    assert ShiftOne(3) == 8 && ShiftOne(4) == 16 && ShiftOne(5) == 32;
  }

  /** With the centres in the standard colours (F 0, U 1, R 2, B 3, D 4,
      L 5), a state whose six corners carry the colours of their home slots
      gets the code of the class list itself. */
  lemma CornersInPlaceCode(c: seq<int>, classes: seq<int>)
    requires |c| >= 54 && |classes| == 6
    requires CornerSums(c) == References(c) == [49, 21, 35, 7, 42, 14]
    ensures CornerCode(c, classes) == CodeOf(classes)
  {
    var r := References(c);
    assert Classify(r[0], r, classes) == classes[0];
    assert Classify(r[1], r, classes) == classes[1];
    assert Classify(r[2], r, classes) == classes[2];
    assert Classify(r[3], r, classes) == classes[3];
    assert Classify(r[4], r, classes) == classes[4];
    assert Classify(r[5], r, classes) == classes[5];
  }

  lemma SolvedEdges()
    ensures EdgeChecks(Solved()) == 7
  {
  }

  lemma SolvedFirstCode()
    ensures CornerCode(Solved(), FirstClasses) == 12201
  {
    SolvedSums();
    CornersInPlaceCode(Solved(), FirstClasses);
  }

  lemma SolvedSecondCode()
    ensures CornerCode(Solved(), SecondClasses) == 10212
  {
    SolvedSums();
    CornersInPlaceCode(Solved(), SecondClasses);
  }

  /** The solved cube is 2-gen: its corner codes 12201 and 10212 are both
      allowed. */
  lemma SolvedIs2gen()
    ensures Is2gen(Solved()) == 1
  {
    SolvedFirstCode();
    SolvedSecondCode();
    SolvedEdges();
    assert Allowed(12201) && Allowed(10212);
  }
}
