/** The exhaustive 2-gen solver (ExternalFcts.cs: SolveTwogenBourrin): an
    iterative-deepening depth-first search over the six F and U moves that
    never turns the same face twice in a row. */
module BruteForce {
  import opened Cube
  import opened Evaluators

  datatype Option<T> = None | Some(value: T)

  /** The six symbols the search tries, in its order: F, U, F2, U2, F', U'. */
  const AllowedMoves: seq<int> := [0, 1, 6, 7, 12, 13]

  /** The deepest search the solver runs. */
  const MaxDepth: nat := 20

  predicate TwoGenMove(m: int)
  {
    m == 0 || m == 1 || m == 6 || m == 7 || m == 12 || m == 13
  }

  /** The state matches the target at all 54 positions (Compare gives 54). */
  predicate Reached(c: seq<int>, target: seq<int>)
    requires IsCube(c) && |target| >= 54
  {
    MatchCount(c[..54], target[..54]) == 54
  }

  /** A sequence the search can produce after a turn of face lastFace (-1
      at the start): 2-gen symbols, no face turned twice in a row. */
  predicate Pruned(s: seq<int>, lastFace: int)
    decreases |s|
  {
    s == [] ||
    (TwoGenMove(s[0]) && (lastFace != -1 ==> s[0] % 6 != lastFace) && Pruned(s[1..], s[0] % 6))
  }

  /** The moves at k and k + 1 turn different faces. */
  predicate FaceChanges(s: seq<int>, k: int)
    requires 0 <= k < |s| - 1
  {
    s[k] % 6 != s[k + 1] % 6
  }

  /** Dfs: the solution suffix the depth-limited search returns from state c,
      or None (ExternalFcts.cs:748-772). */
  function Dfs(c: seq<int>, target: seq<int>, depthLeft: nat, lastFace: int): Option<seq<int>>
    requires IsCube(c) && |target| >= 54
    decreases depthLeft, 7
  {
    if Reached(c, target) then Some([])
    else if depthLeft == 0 then None
    else TryMoves(c, target, depthLeft, lastFace, 0)
  }

  /** The foreach over the allowed moves, from the k-th one on. */
  function TryMoves(c: seq<int>, target: seq<int>, depthLeft: nat, lastFace: int, k: nat): Option<seq<int>>
    requires IsCube(c) && |target| >= 54 && 0 < depthLeft && k <= 6
    decreases depthLeft, 6 - k
  {
    if k == 6 then None
    else
      var move := AllowedMoves[k];
      var face := move % 6;
      if lastFace != -1 && face == lastFace then TryMoves(c, target, depthLeft, lastFace, k + 1)
      else match Dfs(Move(c, move), target, depthLeft - 1, face)
        case Some(rest) => Some([move] + rest)
        case None => TryMoves(c, target, depthLeft, lastFace, k + 1)
  }

  /** The iterative deepening: the first depth in 0..20 at which the search
      succeeds, with its solution (ExternalFcts.cs:732-784).  The console and
      results-file output is not modelled. */
  method SolveTwogenBourrin(cube2gen: array?<int>, cubeSolved: array?<int>)
    returns (found: bool, solution: seq<int>)
    requires cube2gen != null ==> cube2gen.Length == 54
    requires cubeSolved != null ==> cubeSolved.Length >= 54
    ensures cube2gen == null || cubeSolved == null ==> !found
    ensures cube2gen != null && cubeSolved != null ==>
      (found <==> exists d :: 0 <= d <= MaxDepth && Dfs(cube2gen[..], cubeSolved[..], d, -1).Some?) &&
      (found ==> |solution| <= MaxDepth &&
                 Dfs(cube2gen[..], cubeSolved[..], |solution|, -1) == Some(solution) &&
                 forall d :: 0 <= d < |solution| ==> Dfs(cube2gen[..], cubeSolved[..], d, -1) == None)
  {
    found := false;
    solution := [];
    if cube2gen == null || cubeSolved == null {
      return;
    }
    var depth := 0;
    while depth <= MaxDepth
      invariant 0 <= depth <= MaxDepth + 1
      invariant forall d :: 0 <= d < depth ==> Dfs(cube2gen[..], cubeSolved[..], d, -1) == None
      decreases MaxDepth + 1 - depth
    {
      var startCube := Clone(cube2gen);
      var r := Dfs(startCube[..], cubeSolved[..], depth, -1);
      if r.Some? {
        DeepeningFindsFullLength(cube2gen[..], cubeSolved[..], depth);
        found := true;
        solution := r.value;
        return;
      }
      depth := depth + 1;
    }
  }

  // ---------------------------------------------------------------------
  // Properties

  lemma SequenceCons(c: seq<int>, m: int, rest: seq<int>)
    requires IsCube(c) && m >= 0 && NonNegative(rest)
    ensures NonNegative([m] + rest)
    ensures Sequence(c, [m] + rest) == Sequence(Move(c, m), rest)
  {
    SequenceAppend(c, [m], rest);
    assert [m][..0] == [];
  }

  lemma PrunedCons(m: int, rest: seq<int>, lastFace: int)
    ensures Pruned([m] + rest, lastFace) <==>
      TwoGenMove(m) && (lastFace != -1 ==> m % 6 != lastFace) && Pruned(rest, m % 6)
  {
    assert ([m] + rest)[1..] == rest;
  }

  /** A pruned sequence holds only 2-gen symbols and never turns the same
      face twice in a row. */
  lemma {:induction false} PrunedNoRepeat(s: seq<int>, lastFace: int)
    requires Pruned(s, lastFace)
    ensures forall k :: 0 <= k < |s| ==> TwoGenMove(s[k])
    ensures forall k :: 0 <= k < |s| - 1 ==> FaceChanges(s, k)
    ensures |s| > 0 && lastFace != -1 ==> s[0] % 6 != lastFace
    decreases |s|
  {
    if s != [] {
      var r := s[1..];
      PrunedNoRepeat(r, s[0] % 6);
      assert forall k :: 0 < k < |s| ==> s[k] == r[k - 1];
      forall k | 0 <= k < |s| - 1
        ensures FaceChanges(s, k)
      {
        if k > 0 {
          assert FaceChanges(r, k - 1);
        }
      }
    }
  }

  /** A move followed by a solution from the state it leads to solves the
      state before it. */
  lemma ConsSolves(c: seq<int>, target: seq<int>, move: int, rest: seq<int>, lastFace: int, depth: nat)
    requires IsCube(c) && |target| >= 54 && 0 < depth
    requires TwoGenMove(move) && (lastFace != -1 ==> move % 6 != lastFace)
    requires |rest| <= depth - 1 && Pruned(rest, move % 6) && NonNegative(rest)
    requires Reached(Sequence(Move(c, move), rest), target)
    ensures |[move] + rest| <= depth && Pruned([move] + rest, lastFace) && NonNegative([move] + rest)
    ensures Reached(Sequence(c, [move] + rest), target)
  {
    SequenceCons(c, move, rest);
    PrunedCons(move, rest, lastFace);
  }

  /** The moves after the first of a solution solve the state the first
      move leads to. */
  lemma SplitSolves(c: seq<int>, target: seq<int>, s: seq<int>, lastFace: int, depth: nat)
    requires IsCube(c) && |target| >= 54
    requires 0 < |s| <= depth && Pruned(s, lastFace) && NonNegative(s) && Reached(Sequence(c, s), target)
    ensures TwoGenMove(s[0]) && (lastFace != -1 ==> s[0] % 6 != lastFace)
    ensures |s[1..]| <= depth - 1 && Pruned(s[1..], s[0] % 6) && NonNegative(s[1..])
    ensures Reached(Sequence(Move(c, s[0]), s[1..]), target)
  {
    assert s == [s[0]] + s[1..];
    SequenceCons(c, s[0], s[1..]);
    PrunedCons(s[0], s[1..], lastFace);
  }

  /** Every solution the search returns is pruned, no longer than the depth,
      and brings the state to the target. */
  lemma {:induction false} DfsSound(c: seq<int>, target: seq<int>, depthLeft: nat, lastFace: int)
    requires IsCube(c) && |target| >= 54 && Dfs(c, target, depthLeft, lastFace).Some?
    ensures var s := Dfs(c, target, depthLeft, lastFace).value;
      |s| <= depthLeft && Pruned(s, lastFace) && NonNegative(s) && Reached(Sequence(c, s), target)
    decreases depthLeft, 7
  {
    if !Reached(c, target) {
      TryMovesSound(c, target, depthLeft, lastFace, 0);
    }
  }

  lemma {:induction false} TryMovesSound(c: seq<int>, target: seq<int>, depthLeft: nat, lastFace: int, k: nat)
    requires IsCube(c) && |target| >= 54 && 0 < depthLeft && k <= 6
    requires TryMoves(c, target, depthLeft, lastFace, k).Some?
    ensures var s := TryMoves(c, target, depthLeft, lastFace, k).value;
      |s| <= depthLeft && Pruned(s, lastFace) && NonNegative(s) && Reached(Sequence(c, s), target)
    decreases depthLeft, 6 - k
  {
    var move := AllowedMoves[k];
    var face := move % 6;
    var skip := lastFace != -1 && face == lastFace;
    if !skip && Dfs(Move(c, move), target, depthLeft - 1, face).Some? {
      var rest := Dfs(Move(c, move), target, depthLeft - 1, face).value;
      TryMovesHit(c, target, depthLeft, lastFace, k);
      DfsSound(Move(c, move), target, depthLeft - 1, face);
      ConsSolves(c, target, move, rest, lastFace, depthLeft);
    } else {
      TryMovesSkip(c, target, depthLeft, lastFace, k);
      TryMovesSound(c, target, depthLeft, lastFace, k + 1);
    }
  }

  /** The foreach moves on when the k-th move is pruned or fails. */
  lemma TryMovesSkip(c: seq<int>, target: seq<int>, depthLeft: nat, lastFace: int, k: nat)
    requires IsCube(c) && |target| >= 54 && 0 < depthLeft && k < 6
    requires (lastFace != -1 && AllowedMoves[k] % 6 == lastFace) ||
             Dfs(Move(c, AllowedMoves[k]), target, depthLeft - 1, AllowedMoves[k] % 6).None?
    ensures TryMoves(c, target, depthLeft, lastFace, k) == TryMoves(c, target, depthLeft, lastFace, k + 1)
  {
  }

  /** The foreach returns as soon as the k-th move leads to a solution. */
  lemma TryMovesHit(c: seq<int>, target: seq<int>, depthLeft: nat, lastFace: int, k: nat)
    requires IsCube(c) && |target| >= 54 && 0 < depthLeft && k < 6
    requires !(lastFace != -1 && AllowedMoves[k] % 6 == lastFace)
    requires Dfs(Move(c, AllowedMoves[k]), target, depthLeft - 1, AllowedMoves[k] % 6).Some?
    ensures TryMoves(c, target, depthLeft, lastFace, k) ==
      Some([AllowedMoves[k]] + Dfs(Move(c, AllowedMoves[k]), target, depthLeft - 1, AllowedMoves[k] % 6).value)
  {
  }

  /** The search misses no pruned solution within its depth. */
  lemma {:induction false} DfsComplete(c: seq<int>, target: seq<int>, depthLeft: nat, lastFace: int, s: seq<int>)
    requires IsCube(c) && |target| >= 54
    requires |s| <= depthLeft && Pruned(s, lastFace) && NonNegative(s) && Reached(Sequence(c, s), target)
    ensures Dfs(c, target, depthLeft, lastFace).Some?
    decreases depthLeft, 7
  {
    if !Reached(c, target) {
      assert s != [];
      var k0 := if s[0] == 0 then 0 else if s[0] == 1 then 1 else if s[0] == 6 then 2
                else if s[0] == 7 then 3 else if s[0] == 12 then 4 else 5;
      assert AllowedMoves[k0] == s[0];
      TryMovesComplete(c, target, depthLeft, lastFace, s, 0, k0);
    }
  }

  lemma {:induction false} TryMovesComplete(c: seq<int>, target: seq<int>, depthLeft: nat, lastFace: int,
                                            s: seq<int>, k: nat, k0: nat)
    requires IsCube(c) && |target| >= 54 && 0 < depthLeft && k <= k0 < 6
    requires 0 < |s| <= depthLeft && Pruned(s, lastFace) && NonNegative(s) && Reached(Sequence(c, s), target)
    requires AllowedMoves[k0] == s[0]
    ensures TryMoves(c, target, depthLeft, lastFace, k).Some?
    decreases depthLeft, 6 - k
  {
    var move := AllowedMoves[k];
    var face := move % 6;
    var skip := lastFace != -1 && face == lastFace;
    if !skip && Dfs(Move(c, move), target, depthLeft - 1, face).Some? {
      TryMovesHit(c, target, depthLeft, lastFace, k);
    } else {
      if k == k0 {
        FirstMoveSucceeds(c, target, depthLeft, lastFace, s);
        assert false;
      }
      TryMovesSkip(c, target, depthLeft, lastFace, k);
      TryMovesComplete(c, target, depthLeft, lastFace, s, k + 1, k0);
    }
  }

  /** The first move of a solution is not pruned, and the search below it
      succeeds. */
  lemma FirstMoveSucceeds(c: seq<int>, target: seq<int>, depthLeft: nat, lastFace: int, s: seq<int>)
    requires IsCube(c) && |target| >= 54 && 0 < depthLeft
    requires 0 < |s| <= depthLeft && Pruned(s, lastFace) && NonNegative(s) && Reached(Sequence(c, s), target)
    ensures !(lastFace != -1 && s[0] % 6 == lastFace)
    ensures Dfs(Move(c, s[0]), target, depthLeft - 1, s[0] % 6).Some?
    decreases depthLeft, 0
  {
    SplitSolves(c, target, s, lastFace, depthLeft);
    DfsComplete(Move(c, s[0]), target, depthLeft - 1, s[0] % 6, s[1..]);
  }

  /** A solution found at depth d has exactly d moves once every shallower
      search has failed: a shorter one would have been found earlier. */
  lemma DeepeningFindsFullLength(c: seq<int>, target: seq<int>, d: nat)
    requires IsCube(c) && |target| >= 54 && Dfs(c, target, d, -1).Some?
    requires forall e :: 0 <= e < d ==> Dfs(c, target, e, -1) == None
    ensures |Dfs(c, target, d, -1).value| == d
  {
    var s := Dfs(c, target, d, -1).value;
    DfsSound(c, target, d, -1);
    if |s| < d {
      DfsComplete(c, target, |s|, -1, s);
      assert false;
    }
  }

  /** What the solver reports is a shortest pruned 2-gen solution: it
      reaches the target, and no pruned sequence of fewer moves does. */
  lemma SolutionIsShortest(c: seq<int>, target: seq<int>, solution: seq<int>)
    requires IsCube(c) && |target| >= 54
    requires Dfs(c, target, |solution|, -1) == Some(solution)
    requires forall d :: 0 <= d < |solution| ==> Dfs(c, target, d, -1) == None
    ensures Pruned(solution, -1) && NonNegative(solution) && Reached(Sequence(c, solution), target)
    ensures forall s :: |s| < |solution| && Pruned(s, -1) && NonNegative(s) ==> !Reached(Sequence(c, s), target)
  {
    DfsSound(c, target, |solution|, -1);
    forall s | |s| < |solution| && Pruned(s, -1) && NonNegative(s)
      ensures !Reached(Sequence(c, s), target)
    {
      if Reached(Sequence(c, s), target) {
        DfsComplete(c, target, |s|, -1, s);
        assert false;
      }
    }
  }

  /** A state already at the target is solved at depth 0 by the empty
      sequence. */
  lemma AlreadySolved(c: seq<int>, target: seq<int>)
    requires IsCube(c) && |target| >= 54 && Reached(c, target)
    ensures Dfs(c, target, 0, -1) == Some([])
  {
  }

  /** Against the solved cube, the search succeeds from the solved cube at
      depth 0. */
  lemma SolvedNeedsNoMove()
    ensures Dfs(Solved(), Solved(), 0, -1) == Some([])
  {
    var s := Solved();
    FullMatchIffEqual(s[..54], s[..54]);
  }
}
