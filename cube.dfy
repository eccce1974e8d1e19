/** The cube state and the move engine of the solver: the solved state, the
    quarter-turn permutations of the six faces, single moves and move sequences
    (ExternalFcts.cs: InitCube, TurnFace, DoMove, DoSequence).

    A state is 54 facelet labels.  Face f (0..5 for F, U, R, B, D, L) owns the
    positions 9f .. 9f+8; position 9f+4 is its centre.  A move symbol m turns
    face m % 6 clockwise m / 6 + 1 times (quarter, half, inverse quarter). */
module Cube {

  /** A cube state has exactly 54 facelets. */
  predicate IsCube(c: seq<int>)
  {
    |c| == 54
  }

  /** Every facelet carries a face label in 0..5. */
  predicate ValidLabels(c: seq<int>)
  {
    |c| == 54 && forall p :: 0 <= p < 54 ==> 0 <= c[p] <= 5
  }

  /** The eighteen move symbols. */
  predicate IsMove(m: int)
  {
    0 <= m <= 17
  }

  /** Move sequences the engine accepts: no negative symbol (whose C# remainder
      would select no face table). */
  predicate NonNegative(s: seq<int>)
  {
    forall k :: 0 <= k < |s| ==> s[k] >= 0
  }

  /** The solved state: each block of nine facelets holds its face index. */
  function Solved(): (s: seq<int>)
    ensures ValidLabels(s)
  {
    seq(54, p => p / 9)
  }

  /** Builds the solved state in a fresh array, face by face (ExternalFcts.cs:25-32). */
  method InitCube() returns (res: array<int>)
    ensures fresh(res)
    ensures res.Length == 54 && forall p :: 0 <= p < 54 ==> res[p] == p / 9
    ensures res[..] == Solved()
  {
    res := new int[54];
    for face := 0 to 6
      invariant forall p :: 0 <= p < 9 * face ==> res[p] == p / 9
    {
      for p := 0 to 9
        invariant forall q :: 0 <= q < 9 * face ==> res[q] == q / 9
        invariant forall q :: 9 * face <= q < 9 * face + p ==> res[q] == face
      {
        res[face * 9 + p] := face;
      }
      forall q | 9 * face <= q < 9 * face + 9
        ensures q / 9 == face
      {
        DivBlock(q, face);
      }
    }
  }

  lemma DivBlock(q: int, face: int)
    requires 9 * face <= q < 9 * face + 9
    ensures q / 9 == face
  {
  }

  // ---------------------------------------------------------------------
  // One quarter turn, as the engine writes it

  /** The state after TurnFace: face f's block turned clockwise, every other
      facelet kept (ExternalFcts.cs:212-226). */
  function FaceTurned(c: seq<int>, f: int): (r: seq<int>)
    requires IsCube(c) && 0 <= f < 6
    ensures IsCube(r)
  {
    var o := 9 * f;
    c[o := c[o + 6]][o + 1 := c[o + 3]][o + 2 := c[o]][o + 3 := c[o + 7]]
     [o + 5 := c[o + 1]][o + 6 := c[o + 8]][o + 7 := c[o + 5]][o + 8 := c[o + 2]]
  }

  /** The ring of the front face, as DoMove writes it for face 0. */
  function RingF(r: seq<int>, p: seq<int>): (t: seq<int>)
    requires IsCube(r) && IsCube(p)
    ensures IsCube(t)
  {
    r[15 := p[53]][16 := p[50]][17 := p[47]]
     [18 := p[15]][21 := p[16]][24 := p[17]]
     [36 := p[24]][37 := p[21]][38 := p[18]]
     [47 := p[36]][50 := p[37]][53 := p[38]]
  }

  /** The ring of the up face, as DoMove writes it for face 1. */
  function RingU(r: seq<int>, p: seq<int>): (t: seq<int>)
    requires IsCube(r) && IsCube(p)
    ensures IsCube(t)
  {
    r[0 := p[18]][1 := p[19]][2 := p[20]]
     [18 := p[27]][19 := p[28]][20 := p[29]]
     [27 := p[45]][28 := p[46]][29 := p[47]]
     [45 := p[0]][46 := p[1]][47 := p[2]]
  }

  /** The ring of the right face, as DoMove writes it for face 2. */
  function RingR(r: seq<int>, p: seq<int>): (t: seq<int>)
    requires IsCube(r) && IsCube(p)
    ensures IsCube(t)
  {
    r[2 := p[38]][5 := p[41]][8 := p[44]]
     [11 := p[2]][14 := p[5]][17 := p[8]]
     [27 := p[17]][30 := p[14]][33 := p[11]]
     [38 := p[33]][41 := p[30]][44 := p[27]]
  }

  /** The ring of the back face, as DoMove writes it for face 3. */
  function RingB(r: seq<int>, p: seq<int>): (t: seq<int>)
    requires IsCube(r) && IsCube(p)
    ensures IsCube(t)
  {
    r[9 := p[20]][10 := p[23]][11 := p[26]]
     [20 := p[44]][23 := p[43]][26 := p[42]]
     [42 := p[45]][43 := p[48]][44 := p[51]]
     [45 := p[11]][48 := p[10]][51 := p[9]]
  }

  /** The ring of the down face, as DoMove writes it for face 4. */
  function RingD(r: seq<int>, p: seq<int>): (t: seq<int>)
    requires IsCube(r) && IsCube(p)
    ensures IsCube(t)
  {
    r[6 := p[51]][7 := p[52]][8 := p[53]]
     [24 := p[6]][25 := p[7]][26 := p[8]]
     [33 := p[24]][34 := p[25]][35 := p[26]]
     [51 := p[33]][52 := p[34]][53 := p[35]]
  }

  /** The ring of the left face, as DoMove writes it for face 5. */
  function RingL(r: seq<int>, p: seq<int>): (t: seq<int>)
    requires IsCube(r) && IsCube(p)
    ensures IsCube(t)
  {
    r[0 := p[9]][3 := p[12]][6 := p[15]]
     [9 := p[35]][12 := p[32]][15 := p[29]]
     [29 := p[42]][32 := p[39]][35 := p[36]]
     [36 := p[0]][39 := p[3]][42 := p[6]]
  }

  /** The twelve ring facelets around face f, in r, take the labels that p
      holds at their sources (the switch of DoMove, ExternalFcts.cs:116-205). */
  function RingTurned(r: seq<int>, p: seq<int>, f: int): (t: seq<int>)
    requires IsCube(r) && IsCube(p) && 0 <= f < 6
    ensures IsCube(t)
  {
    match f
    case 0 => RingF(r, p)
    case 1 => RingU(r, p)
    case 2 => RingR(r, p)
    case 3 => RingB(r, p)
    case 4 => RingD(r, p)
    case _ => RingL(r, p)
  }

  /** One clockwise quarter turn of face f as DoMove writes it: the face block
      turns and the ring shifts, both read from the state before the turn. */
  function QuarterChain(c: seq<int>, f: int): (r: seq<int>)
    requires IsCube(c) && 0 <= f < 6
    ensures IsCube(r)
  {
    RingTurned(FaceTurned(c, f), c, f)
  }

  // ---------------------------------------------------------------------
  // The same quarter turn as a permutation of positions

  /** Source position, within one face block, of the facelet that a clockwise
      turn brings to local position k. */
  function LocalSrc(k: int): int
  {
    match k
    case 0 => 6 case 1 => 3 case 2 => 0 case 3 => 7 case 5 => 1
    case 6 => 8 case 7 => 5 case 8 => 2 case _ => k
  }

  function RingSrcF(i: int): int
  {
    match i
    case 15 => 53 case 16 => 50 case 17 => 47 case 18 => 15 case 21 => 16 case 24 => 17
    case 36 => 24 case 37 => 21 case 38 => 18 case 47 => 36 case 50 => 37 case 53 => 38
    case _ => i
  }

  function RingSrcU(i: int): int
  {
    match i
    case 0 => 18 case 1 => 19 case 2 => 20 case 18 => 27 case 19 => 28 case 20 => 29
    case 27 => 45 case 28 => 46 case 29 => 47 case 45 => 0 case 46 => 1 case 47 => 2
    case _ => i
  }

  function RingSrcR(i: int): int
  {
    match i
    case 2 => 38 case 5 => 41 case 8 => 44 case 11 => 2 case 14 => 5 case 17 => 8
    case 27 => 17 case 30 => 14 case 33 => 11 case 38 => 33 case 41 => 30 case 44 => 27
    case _ => i
  }

  function RingSrcB(i: int): int
  {
    match i
    case 9 => 20 case 10 => 23 case 11 => 26 case 20 => 44 case 23 => 43 case 26 => 42
    case 42 => 45 case 43 => 48 case 44 => 51 case 45 => 11 case 48 => 10 case 51 => 9
    case _ => i
  }

  function RingSrcD(i: int): int
  {
    match i
    case 6 => 51 case 7 => 52 case 8 => 53 case 24 => 6 case 25 => 7 case 26 => 8
    case 33 => 24 case 34 => 25 case 35 => 26 case 51 => 33 case 52 => 34 case 53 => 35
    case _ => i
  }

  function RingSrcL(i: int): int
  {
    match i
    case 0 => 9 case 3 => 12 case 6 => 15 case 9 => 35 case 12 => 32 case 15 => 29
    case 29 => 42 case 32 => 39 case 35 => 36 case 36 => 0 case 39 => 3 case 42 => 6
    case _ => i
  }

  /** Source position of the facelet that a quarter turn of face f brings to
      ring position i; positions off the ring map to themselves. */
  function RingSrc(f: int, i: int): int
  {
    match f
    case 0 => RingSrcF(i)
    case 1 => RingSrcU(i)
    case 2 => RingSrcR(i)
    case 3 => RingSrcB(i)
    case 4 => RingSrcD(i)
    case 5 => RingSrcL(i)
    case _ => i
  }

  /** Whether position i lies on face f's own 3x3 block. */
  predicate OnFace(f: int, i: int)
  {
    9 * f <= i < 9 * f + 9
  }

  /** Source position of the facelet that one clockwise quarter turn of face f
      brings to position i. */
  function QuarterSrc(f: int, i: int): (j: int)
    requires 0 <= f < 6 && 0 <= i < 54
    ensures 0 <= j < 54
  {
    if OnFace(f, i) then 9 * f + LocalSrc(i - 9 * f) else RingSrc(f, i)
  }

  lemma FaceTurnedAt(c: seq<int>, f: int, i: int)
    requires IsCube(c) && 0 <= f < 6 && 0 <= i < 54
    ensures FaceTurned(c, f)[i] == if OnFace(f, i) then c[9 * f + LocalSrc(i - 9 * f)] else c[i]
  {
  }

  lemma RingFAt(r: seq<int>, p: seq<int>, i: int)
    requires IsCube(r) && IsCube(p) && 0 <= i < 54
    ensures RingF(r, p)[i] == if RingSrcF(i) != i then p[RingSrcF(i)] else r[i]
    ensures OnFace(0, i) ==> RingSrcF(i) == i
  {
  }

  lemma RingUAt(r: seq<int>, p: seq<int>, i: int)
    requires IsCube(r) && IsCube(p) && 0 <= i < 54
    ensures RingU(r, p)[i] == if RingSrcU(i) != i then p[RingSrcU(i)] else r[i]
    ensures OnFace(1, i) ==> RingSrcU(i) == i
  {
  }

  lemma RingRAt(r: seq<int>, p: seq<int>, i: int)
    requires IsCube(r) && IsCube(p) && 0 <= i < 54
    ensures RingR(r, p)[i] == if RingSrcR(i) != i then p[RingSrcR(i)] else r[i]
    ensures OnFace(2, i) ==> RingSrcR(i) == i
  {
  }

  lemma RingBAt(r: seq<int>, p: seq<int>, i: int)
    requires IsCube(r) && IsCube(p) && 0 <= i < 54
    ensures RingB(r, p)[i] == if RingSrcB(i) != i then p[RingSrcB(i)] else r[i]
    ensures OnFace(3, i) ==> RingSrcB(i) == i
  {
  }

  lemma RingDAt(r: seq<int>, p: seq<int>, i: int)
    requires IsCube(r) && IsCube(p) && 0 <= i < 54
    ensures RingD(r, p)[i] == if RingSrcD(i) != i then p[RingSrcD(i)] else r[i]
    ensures OnFace(4, i) ==> RingSrcD(i) == i
  {
  }

  lemma RingLAt(r: seq<int>, p: seq<int>, i: int)
    requires IsCube(r) && IsCube(p) && 0 <= i < 54
    ensures RingL(r, p)[i] == if RingSrcL(i) != i then p[RingSrcL(i)] else r[i]
    ensures OnFace(5, i) ==> RingSrcL(i) == i
  {
  }

  lemma RingTurnedAt(r: seq<int>, p: seq<int>, f: int, i: int)
    requires IsCube(r) && IsCube(p) && 0 <= f < 6 && 0 <= i < 54
    ensures RingTurned(r, p, f)[i] == if RingSrc(f, i) != i then p[RingSrc(f, i)] else r[i]
    ensures OnFace(f, i) ==> RingSrc(f, i) == i
  {
    match f
    case 0 => RingFAt(r, p, i);
    case 1 => RingUAt(r, p, i);
    case 2 => RingRAt(r, p, i);
    case 3 => RingBAt(r, p, i);
    case 4 => RingDAt(r, p, i);
    case 5 => RingLAt(r, p, i);
  }

  /** One clockwise quarter turn of face f, as a permutation of positions. */
  function QuarterTurn(c: seq<int>, f: int): (r: seq<int>)
    requires IsCube(c) && 0 <= f < 6
    ensures IsCube(r)
  {
    seq(54, i requires 0 <= i < 54 => c[QuarterSrc(f, i)])
  }

  /** The two views of a quarter turn agree: the written-out assignments of
      DoMove move every facelet from the permutation's source position. */
  lemma QuarterChainIsTurn(c: seq<int>, f: int)
    requires IsCube(c) && 0 <= f < 6
    ensures QuarterChain(c, f) == QuarterTurn(c, f)
  {
    forall i | 0 <= i < 54
      ensures QuarterChain(c, f)[i] == c[QuarterSrc(f, i)]
    {
      FaceTurnedAt(c, f, i);
      RingTurnedAt(FaceTurned(c, f), c, f, i);
    }
  }

  // ---------------------------------------------------------------------
  // Moves and sequences

  /** n successive quarter turns of face f. */
  function Turns(c: seq<int>, f: int, n: nat): (r: seq<int>)
    requires IsCube(c) && 0 <= f < 6
    ensures IsCube(r)
  {
    if n == 0 then c else QuarterTurn(Turns(c, f, n - 1), f)
  }

  /** The repetition counter of DoMove: 0, 1, 2 for the three turn classes and
      3 (a full turn) for any symbol above 17 (ExternalFcts.cs:104-107). */
  function Repetition(m: int): int
  {
    if m > 17 then 3 else if m > 11 then 2 else if m > 5 then 1 else 0
  }

  /** The state after move m: face m % 6 turned Repetition(m) + 1 times. */
  function Move(c: seq<int>, m: int): (r: seq<int>)
    requires IsCube(c) && m >= 0
    ensures IsCube(r)
  {
    Turns(c, m % 6, Repetition(m) + 1)
  }

  /** The left fold of Move over a move sequence. */
  function Sequence(c: seq<int>, s: seq<int>): (r: seq<int>)
    requires IsCube(c) && NonNegative(s)
    ensures IsCube(r)
  {
    if s == [] then c else Move(Sequence(c, s[..|s| - 1]), s[|s| - 1])
  }

  // ---------------------------------------------------------------------
  // The imperative engine

  /** A fresh copy of an array (C#'s Clone). */
  method Clone(a: array<int>) returns (b: array<int>)
    ensures fresh(b) && b[..] == a[..]
  {
    b := new int[a.Length](i requires 0 <= i < a.Length reads a => a[i]);
  }

  /** Turns face `face` of a copy of `cube` a quarter turn clockwise
      (ExternalFcts.cs:212-226). */
  method TurnFace(cube: array<int>, face: int) returns (res: array<int>)
    requires cube.Length == 54 && 0 <= face < 6
    ensures fresh(res) && res[..] == FaceTurned(cube[..], face)
  {
    res := Clone(cube);
    var offset := face * 9;
    res[offset + 0] := cube[offset + 6];
    res[offset + 1] := cube[offset + 3];
    res[offset + 2] := cube[offset + 0];
    res[offset + 3] := cube[offset + 7];
    res[offset + 5] := cube[offset + 1];
    res[offset + 6] := cube[offset + 8];
    res[offset + 7] := cube[offset + 5];
    res[offset + 8] := cube[offset + 2];
  }

  /** Applies one move: the quarter turn of face move % 6 is repeated
      Repetition(move) + 1 times, each time turning the face block with
      TurnFace and shifting the ring from a copy taken before the turn
      (ExternalFcts.cs:101-209). */
  method DoMove(cubeState: array<int>, move: int) returns (res: array<int>)
    requires cubeState.Length == 54 && move >= 0
    ensures fresh(res) && res[..] == Move(cubeState[..], move)
  {
    res := Clone(cubeState);
    var repetition := 0;
    if move > 5 { repetition := 1; }
    if move > 11 { repetition := 2; }
    if move > 17 { repetition := 3; }
    for rep := 0 to repetition + 1
      invariant fresh(res) && res[..] == Turns(cubeState[..], move % 6, rep)
    {
      var prev := Clone(res);
      res := TurnFace(res, move % 6);
      TurnRing(res, prev, move % 6);
      QuarterChainIsTurn(prev[..], move % 6);
    }
  }

  /** The ring part of a quarter turn: the twelve ring facelets of `face` take
      the labels that `prev` holds at their sources (the switch of DoMove,
      ExternalFcts.cs:116-205, one case per helper below). */
  method TurnRing(res: array<int>, prev: array<int>, face: int)
    requires res.Length == 54 && prev.Length == 54 && res != prev && 0 <= face < 6
    modifies res
    ensures res[..] == RingTurned(old(res[..]), prev[..], face)
  {
    match face
    case 0 => TurnRingF(res, prev);
    case 1 => TurnRingU(res, prev);
    case 2 => TurnRingR(res, prev);
    case 3 => TurnRingB(res, prev);
    case 4 => TurnRingD(res, prev);
    case 5 => TurnRingL(res, prev);
  }

  method TurnRingF(res: array<int>, prev: array<int>)
    requires res.Length == 54 && prev.Length == 54 && res != prev
    modifies res
    ensures res[..] == RingF(old(res[..]), prev[..])
  {
    res[15] := prev[53]; res[16] := prev[50]; res[17] := prev[47];
    res[18] := prev[15]; res[21] := prev[16]; res[24] := prev[17];
    res[36] := prev[24]; res[37] := prev[21]; res[38] := prev[18];
    res[47] := prev[36]; res[50] := prev[37]; res[53] := prev[38];
  }

  method TurnRingU(res: array<int>, prev: array<int>)
    requires res.Length == 54 && prev.Length == 54 && res != prev
    modifies res
    ensures res[..] == RingU(old(res[..]), prev[..])
  {
    res[0] := prev[18]; res[1] := prev[19]; res[2] := prev[20];
    res[18] := prev[27]; res[19] := prev[28]; res[20] := prev[29];
    res[27] := prev[45]; res[28] := prev[46]; res[29] := prev[47];
    res[45] := prev[0]; res[46] := prev[1]; res[47] := prev[2];
  }

  method TurnRingR(res: array<int>, prev: array<int>)
    requires res.Length == 54 && prev.Length == 54 && res != prev
    modifies res
    ensures res[..] == RingR(old(res[..]), prev[..])
  {
    res[2] := prev[38]; res[5] := prev[41]; res[8] := prev[44];
    res[11] := prev[2]; res[14] := prev[5]; res[17] := prev[8];
    res[27] := prev[17]; res[30] := prev[14]; res[33] := prev[11];
    res[38] := prev[33]; res[41] := prev[30]; res[44] := prev[27];
  }

  method TurnRingB(res: array<int>, prev: array<int>)
    requires res.Length == 54 && prev.Length == 54 && res != prev
    modifies res
    ensures res[..] == RingB(old(res[..]), prev[..])
  {
    res[9] := prev[20]; res[10] := prev[23]; res[11] := prev[26];
    res[20] := prev[44]; res[23] := prev[43]; res[26] := prev[42];
    res[42] := prev[45]; res[43] := prev[48]; res[44] := prev[51];
    res[45] := prev[11]; res[48] := prev[10]; res[51] := prev[9];
  }

  method TurnRingD(res: array<int>, prev: array<int>)
    requires res.Length == 54 && prev.Length == 54 && res != prev
    modifies res
    ensures res[..] == RingD(old(res[..]), prev[..])
  {
    res[6] := prev[51]; res[7] := prev[52]; res[8] := prev[53];
    res[24] := prev[6]; res[25] := prev[7]; res[26] := prev[8];
    res[33] := prev[24]; res[34] := prev[25]; res[35] := prev[26];
    res[51] := prev[33]; res[52] := prev[34]; res[53] := prev[35];
  }

  method TurnRingL(res: array<int>, prev: array<int>)
    requires res.Length == 54 && prev.Length == 54 && res != prev
    modifies res
    ensures res[..] == RingL(old(res[..]), prev[..])
  {
    res[0] := prev[9]; res[3] := prev[12]; res[6] := prev[15];
    res[9] := prev[35]; res[12] := prev[32]; res[15] := prev[29];
    res[29] := prev[42]; res[32] := prev[39]; res[35] := prev[36];
    res[36] := prev[0]; res[39] := prev[3]; res[42] := prev[6];
  }

  /** Applies a move sequence to a copy of the cube; an absent or empty
      sequence yields an unchanged copy (ExternalFcts.cs:88-98). */
  method DoSequence(cube: array<int>, moveSequence: array?<int>) returns (cur: array<int>)
    requires cube.Length == 54
    requires moveSequence != null ==> NonNegative(moveSequence[..])
    ensures fresh(cur)
    ensures cur[..] == Sequence(cube[..], if moveSequence == null then [] else moveSequence[..])
  {
    cur := Clone(cube);
    if moveSequence == null || moveSequence.Length == 0 {
      return;
    }
    for k := 0 to moveSequence.Length
      invariant fresh(cur)
      invariant cur[..] == Sequence(cube[..], moveSequence[..k])
    {
      cur := DoMove(cur, moveSequence[k]);
      assert moveSequence[..k + 1][..k] == moveSequence[..k];
    }
    assert moveSequence[..moveSequence.Length] == moveSequence[..];
  }

  // ---------------------------------------------------------------------
  // Properties of the engine

  /** A clockwise turn of a face block is two 4-cycles (corners, edges) around
      the fixed centre. */
  lemma LocalSrcCycles(k: int)
    requires 0 <= k < 9
    ensures 0 <= LocalSrc(k) < 9
    ensures LocalSrc(LocalSrc(LocalSrc(LocalSrc(k)))) == k
  {
  }

  lemma RingSrcFCycles(i: int)
    requires 0 <= i < 54
    ensures RingSrcF(RingSrcF(RingSrcF(RingSrcF(i)))) == i
    ensures !OnFace(0, i) ==> 0 <= RingSrcF(i) < 54 && !OnFace(0, RingSrcF(i))
  {
  }

  lemma RingSrcUCycles(i: int)
    requires 0 <= i < 54
    ensures RingSrcU(RingSrcU(RingSrcU(RingSrcU(i)))) == i
    ensures !OnFace(1, i) ==> 0 <= RingSrcU(i) < 54 && !OnFace(1, RingSrcU(i))
  {
  }

  lemma RingSrcRCycles(i: int)
    requires 0 <= i < 54
    ensures RingSrcR(RingSrcR(RingSrcR(RingSrcR(i)))) == i
    ensures !OnFace(2, i) ==> 0 <= RingSrcR(i) < 54 && !OnFace(2, RingSrcR(i))
  {
  }

  lemma RingSrcBCycles(i: int)
    requires 0 <= i < 54
    ensures RingSrcB(RingSrcB(RingSrcB(RingSrcB(i)))) == i
    ensures !OnFace(3, i) ==> 0 <= RingSrcB(i) < 54 && !OnFace(3, RingSrcB(i))
  {
  }

  lemma RingSrcDCycles(i: int)
    requires 0 <= i < 54
    ensures RingSrcD(RingSrcD(RingSrcD(RingSrcD(i)))) == i
    ensures !OnFace(4, i) ==> 0 <= RingSrcD(i) < 54 && !OnFace(4, RingSrcD(i))
  {
  }

  lemma RingSrcLCycles(i: int)
    requires 0 <= i < 54
    ensures RingSrcL(RingSrcL(RingSrcL(RingSrcL(i)))) == i
    ensures !OnFace(5, i) ==> 0 <= RingSrcL(i) < 54 && !OnFace(5, RingSrcL(i))
  {
  }

  /** The ring of each face is three 4-cycles of positions off the face. */
  lemma RingSrcCycles(f: int, i: int)
    requires 0 <= f < 6 && 0 <= i < 54
    ensures RingSrc(f, RingSrc(f, RingSrc(f, RingSrc(f, i)))) == i
    ensures !OnFace(f, i) ==> 0 <= RingSrc(f, i) < 54 && !OnFace(f, RingSrc(f, i))
  {
    match f
    case 0 => RingSrcFCycles(i);
    case 1 => RingSrcUCycles(i);
    case 2 => RingSrcRCycles(i);
    case 3 => RingSrcBCycles(i);
    case 4 => RingSrcDCycles(i);
    case 5 => RingSrcLCycles(i);
  }

  /** Every quarter turn is built from 4-cycles of positions, so four of them
      bring every facelet back to where it started. */
  lemma QuarterSrcOrder4(f: int, i: int)
    requires 0 <= f < 6 && 0 <= i < 54
    ensures QuarterSrc(f, QuarterSrc(f, QuarterSrc(f, QuarterSrc(f, i)))) == i
  {
    if OnFace(f, i) {
      var k := i - 9 * f;
      LocalSrcCycles(k);
      LocalSrcCycles(LocalSrc(k));
      LocalSrcCycles(LocalSrc(LocalSrc(k)));
      LocalSrcCycles(LocalSrc(LocalSrc(LocalSrc(k))));
    } else {
      RingSrcCycles(f, i);
      RingSrcCycles(f, RingSrc(f, i));
      RingSrcCycles(f, RingSrc(f, RingSrc(f, i)));
      RingSrcCycles(f, RingSrc(f, RingSrc(f, RingSrc(f, i))));
    }
  }

  /** Four quarter turns of the same face restore any state. */
  lemma {:induction false} FourTurnsIdentity(c: seq<int>, f: int)
    requires IsCube(c) && 0 <= f < 6
    ensures Turns(c, f, 4) == c
  {
    var t1 := QuarterTurn(c, f);
    var t2 := QuarterTurn(t1, f);
    var t3 := QuarterTurn(t2, f);
    var t4 := QuarterTurn(t3, f);
    assert Turns(c, f, 1) == t1;
    assert Turns(c, f, 2) == t2;
    assert Turns(c, f, 3) == t3;
    assert Turns(c, f, 4) == t4;
    forall i | 0 <= i < 54
      ensures t4[i] == c[i]
    {
      var j1 := QuarterSrc(f, i);
      var j2 := QuarterSrc(f, j1);
      var j3 := QuarterSrc(f, j2);
      QuarterSrcOrder4(f, i);
    }
  }

  /** Turning a face a times and then b times is turning it a + b times. */
  lemma {:induction false} TurnsAdd(c: seq<int>, f: int, a: nat, b: nat)
    requires IsCube(c) && 0 <= f < 6
    ensures Turns(Turns(c, f, a), f, b) == Turns(c, f, a + b)
  {
    if b > 0 {
      TurnsAdd(c, f, a, b - 1);
    }
  }

  /** Only the number of quarter turns modulo 4 matters. */
  lemma {:induction false} TurnsMod4(c: seq<int>, f: int, n: nat)
    requires IsCube(c) && 0 <= f < 6
    ensures Turns(c, f, n) == Turns(c, f, n % 4)
  {
    if n >= 4 {
      TurnsAdd(c, f, 4, n - 4);
      FourTurnsIdentity(c, f);
      TurnsMod4(c, f, n - 4);
    }
  }

  /** A move symbol in 0..17 turns face m % 6 exactly m / 6 + 1 times; any larger
      symbol is a full turn and leaves the state unchanged. */
  lemma MoveTurnCount(c: seq<int>, m: int)
    requires IsCube(c) && m >= 0
    ensures IsMove(m) ==> Move(c, m) == Turns(c, m % 6, m / 6 + 1)
    ensures m > 17 ==> Move(c, m) == c
  {
    if m > 17 {
      FourTurnsIdentity(c, m % 6);
    }
  }

  /** The move undoing m: same face, quarter and inverse quarter swapped, the
      half turn its own inverse. */
  function InverseMove(m: int): (r: int)
    requires IsMove(m)
    ensures IsMove(r) && r % 6 == m % 6 && r / 6 == 2 - m / 6
  {
    m % 6 + 6 * (2 - m / 6)
  }

  /** Applying a move and then its inverse restores the state. */
  lemma MoveThenInverse(c: seq<int>, m: int)
    requires IsCube(c) && IsMove(m)
    ensures Move(Move(c, m), InverseMove(m)) == c
  {
    var f := m % 6;
    MoveTurnCount(c, m);
    MoveTurnCount(Move(c, m), InverseMove(m));
    TurnsAdd(c, f, m / 6 + 1, 3 - m / 6);
    FourTurnsIdentity(c, f);
  }

  /** Applying s + t is applying s, then t. */
  lemma {:induction false} SequenceAppend(c: seq<int>, s: seq<int>, t: seq<int>)
    requires IsCube(c) && NonNegative(s) && NonNegative(t)
    ensures NonNegative(s + t)
    ensures Sequence(c, s + t) == Sequence(Sequence(c, s), t)
  {
    if t == [] {
      assert s + t == s;
    } else {
      var u := s + t;
      assert u[..|u| - 1] == s + t[..|t| - 1];
      SequenceAppend(c, s, t[..|t| - 1]);
    }
  }

  /** Every symbol of s is one of the eighteen moves. */
  predicate AllMoves(s: seq<int>)
  {
    forall k :: 0 <= k < |s| ==> IsMove(s[k])
  }

  /** The sequence undoing s: the inverses of its moves in reverse order. */
  function InverseSequence(s: seq<int>): (r: seq<int>)
    requires AllMoves(s)
    ensures |r| == |s| && AllMoves(r)
    ensures forall k :: 0 <= k < |s| ==> r[k] == InverseMove(s[|s| - 1 - k])
  {
    if s == [] then [] else [InverseMove(s[|s| - 1])] + InverseSequence(s[..|s| - 1])
  }

  /** A sequence followed by its inverse restores the state. */
  lemma {:induction false} SequenceThenInverse(c: seq<int>, s: seq<int>)
    requires IsCube(c) && AllMoves(s)
    ensures Sequence(Sequence(c, s), InverseSequence(s)) == c
  {
    if s != [] {
      var last := s[|s| - 1];
      var init := s[..|s| - 1];
      var mid := Sequence(c, init);
      assert InverseSequence(s) == [InverseMove(last)] + InverseSequence(init);
      calc {
        Sequence(Sequence(c, s), InverseSequence(s));
        { SequenceAppend(Sequence(c, s), [InverseMove(last)], InverseSequence(init)); }
        Sequence(Sequence(Sequence(c, s), [InverseMove(last)]), InverseSequence(init));
        { assert [InverseMove(last)][..0] == []; }
        Sequence(Move(Move(mid, last), InverseMove(last)), InverseSequence(init));
        { MoveThenInverse(mid, last); }
        Sequence(mid, InverseSequence(init));
        { SequenceThenInverse(c, init); }
        c;
      }
    }
  }

  /** The scramble F U R followed by R' U' F' gives back the solved cube. */
  lemma ScrambleUndone()
    ensures Sequence(Solved(), [0, 1, 2, 14, 13, 12]) == Solved()
  {
    var s := [0, 1, 2];
    assert InverseSequence(s) == [14, 13, 12];
    SequenceAppend(Solved(), s, [14, 13, 12]);
    assert s + [14, 13, 12] == [0, 1, 2, 14, 13, 12];
    SequenceThenInverse(Solved(), s);
  }

  /** Moves only permute facelets, so face labels stay face labels. */
  lemma {:induction false} TurnsKeepLabels(c: seq<int>, f: int, n: nat)
    requires ValidLabels(c) && 0 <= f < 6
    ensures ValidLabels(Turns(c, f, n))
  {
    if n > 0 {
      var t := Turns(c, f, n - 1);
      TurnsKeepLabels(c, f, n - 1);
    }
  }

  lemma {:induction false} SequenceKeepsLabels(c: seq<int>, s: seq<int>)
    requires ValidLabels(c) && NonNegative(s)
    ensures ValidLabels(Sequence(c, s))
  {
    if s != [] {
      SequenceKeepsLabels(c, s[..|s| - 1]);
      TurnsKeepLabels(Sequence(c, s[..|s| - 1]), s[|s| - 1] % 6, Repetition(s[|s| - 1]) + 1);
    }
  }
}
