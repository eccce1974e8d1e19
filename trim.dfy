/** Sequence trimming (ExternalFcts.cs: TrimSequence): adjacent turns of the
    same face are merged into one turn or cancelled, the rest of the array is
    shifted left and the freed tail slots are refilled with random symbols, so
    the array keeps its length.  The random refills are an explicit stream of
    draws, and the open-ended repetition is bounded by a fuel count of
    rewrites. */
module Trim {
  import opened CSharpInt
  import opened Cube

  /** What the rules do with one adjacent pair. */
  datatype Rewrite = Keep | Cancel | Merge(symbol: int)

  /** The rewrite rules for the pair (move, next), tried in the order of
      ExternalFcts.cs:560-648: different faces are kept; a difference of 12
      cancels; the remaining same-face pairs merge or cancel by turn class. */
  function Rule(move: int, next: int): Rewrite
  {
    if CsRem(move, 6) != CsRem(next, 6) then Keep
    else if move - next == 12 || next - move == 12 then Cancel
    else if move < 6 && next == move then Merge(move + 6)
    else if move < 6 && next == move + 6 then Merge(move + 12)
    else if 6 <= move < 12 && next == move - 6 then Merge(move + 6)
    else if 6 <= move < 12 && next == move then Cancel
    else if 6 <= move < 12 && next == move + 6 then Merge(move - 6)
    else if move >= 12 && next == move - 6 then Merge(move - 12)
    else if move >= 12 && next == move then Merge(move - 6)
    else Keep
  }

  /** The number of slots a rewrite frees (and so of draws it consumes). */
  function Freed(rw: Rewrite): nat
  {
    match rw
    case Keep => 0
    case Cancel => 2
    case Merge(_) => 1
  }

  /** The array after rewriting the pair at l and refilling the tail from
      the draws. */
  function Apply(s: seq<int>, l: int, rw: Rewrite, draws: seq<int>): (r: seq<int>)
    requires 0 <= l < |s| - 1 && |draws| >= Freed(rw)
    ensures |r| == |s| && r[..l] == s[..l]
    ensures r[|s| - Freed(rw)..] == draws[..Freed(rw)]
  {
    match rw
    case Keep => s
    case Cancel => s[..l] + s[l + 2..] + [draws[0], draws[1]]
    case Merge(v) => s[..l] + [v] + s[l + 2..] + [draws[0]]
  }

  /** No rule applies to the pair at j. */
  predicate Kept(s: seq<int>, j: int)
    requires 0 <= j < |s| - 1
  {
    Rule(s[j], s[j + 1]) == Keep
  }

  /** No rule applies to any adjacent pair. */
  predicate Settled(s: seq<int>)
  {
    forall j :: 0 <= j < |s| - 1 ==> Kept(s, j)
  }

  /** The first pair at or after `from` a rule applies to, or |s| when none
      does (the inner for loop of ExternalFcts.cs:558-649). */
  function Scan(s: seq<int>, from: nat): (k: nat)
    requires from <= |s|
    ensures from <= k <= |s| && (k == |s| || k + 1 < |s|)
    ensures forall j :: from <= j < k && j + 1 < |s| ==> Kept(s, j)
    ensures k + 1 < |s| ==> !Kept(s, k)
    decreases |s| - from
  {
    if from + 1 >= |s| then |s|
    else if Rule(s[from], s[from + 1]) != Keep then from
    else Scan(s, from + 1)
  }

  /** The scan stops at the first pair a rule applies to. */
  lemma ScanFinds(s: seq<int>, l: int)
    requires 0 <= l < |s| - 1 && !Kept(s, l)
    requires forall j :: 0 <= j < l ==> Kept(s, j)
    ensures Scan(s, 0) == l
  {
  }

  /** The scan of a settled array finds nothing. */
  lemma ScanSettled(s: seq<int>)
    ensures Settled(s) <==> Scan(s, 0) == |s|
  {
  }

  /** The first applicable rewrite of an unsettled array, applied. */
  function Step(s: seq<int>, draws: seq<int>): (r: seq<int>)
    requires Scan(s, 0) < |s| && |draws| >= 2
    ensures |r| == |s|
  {
    var l := Scan(s, 0);
    Apply(s, l, Rule(s[l], s[l + 1]), draws)
  }

  /** The number of draws that rewrite consumes. */
  function StepDraws(s: seq<int>): (n: nat)
    requires Scan(s, 0) < |s|
    ensures 1 <= n <= 2
  {
    var l := Scan(s, 0);
    Freed(Rule(s[l], s[l + 1]))
  }

  /** The outcome of trimming with at most `fuel` rewrites. */
  function Trimmed(s: seq<int>, draws: seq<int>, fuel: nat): (r: seq<int>)
    requires |draws| >= 2 * fuel
    ensures |r| == |s|
    decreases fuel
  {
    if fuel == 0 || Scan(s, 0) == |s| then s
    else Trimmed(Step(s, draws), draws[StepDraws(s)..], fuel - 1)
  }

  /** The number of rewrites trimming with at most `fuel` rewrites performs. */
  function Rewrites(s: seq<int>, draws: seq<int>, fuel: nat): (n: nat)
    requires |draws| >= 2 * fuel
    ensures n <= fuel
    decreases fuel
  {
    if fuel == 0 || Scan(s, 0) == |s| then 0
    else 1 + Rewrites(Step(s, draws), draws[StepDraws(s)..], fuel - 1)
  }

  // ---------------------------------------------------------------------
  // The in-place method

  /** Drops the pair at l, shifts the rest two places left and refills the
      last two slots (ExternalFcts.cs:568-570). */
  method RemovePair(a: array<int>, l: int, draws: seq<int>)
    requires 0 <= l < a.Length - 1 && |draws| >= 2
    modifies a
    ensures a[..] == Apply(old(a[..]), l, Cancel, draws)
  {
    ghost var s := a[..];
    var ltot := a.Length;
    for t := l to ltot - 2
      invariant forall k :: 0 <= k < l ==> a[k] == s[k]
      invariant forall k :: l <= k < t ==> a[k] == s[k + 2]
      invariant forall k :: t <= k < ltot ==> a[k] == s[k]
    {
      a[t] := a[t + 2];
    }
    a[ltot - 2] := draws[0];
    a[ltot - 1] := draws[1];
    assert a[..] == s[..l] + s[l + 2..] + [draws[0], draws[1]];
  }

  /** Writes v over the pair at l, shifts the rest one place left and refills
      the last slot (ExternalFcts.cs:580-582). */
  method ReplacePair(a: array<int>, l: int, v: int, draws: seq<int>)
    requires 0 <= l < a.Length - 1 && |draws| >= 1
    modifies a
    ensures a[..] == Apply(old(a[..]), l, Merge(v), draws)
  {
    ghost var s := a[..];
    var ltot := a.Length;
    a[l] := v;
    for t := l + 1 to ltot - 1
      invariant a[l] == v
      invariant forall k :: 0 <= k < l ==> a[k] == s[k]
      invariant forall k :: l < k < t ==> a[k] == s[k + 1]
      invariant forall k :: t <= k < ltot ==> a[k] == s[k]
    {
      a[t] := a[t + 1];
    }
    a[ltot - 1] := draws[0];
    assert a[..] == s[..l] + [v] + s[l + 2..] + [draws[0]];
  }

  /** One pass of the do-while loop: rewrite the first pair a rule applies
      to, consuming draws from position d, or report that none applies
      (ExternalFcts.cs:557-650). */
  method Pass(a: array<int>, draws: seq<int>, d: int) returns (changed: bool, used: nat)
    requires 0 <= d && d + 2 <= |draws|
    modifies a
    ensures changed <==> Scan(old(a[..]), 0) < a.Length
    ensures changed ==> a[..] == Step(old(a[..]), draws[d..]) && used == StepDraws(old(a[..]))
    ensures !changed ==> a[..] == old(a[..]) && used == 0
  {
    ghost var before := a[..];
    var ltot := a.Length;
    changed := false;
    used := 0;
    var l := 0;
    while l < ltot - 1
      invariant 0 <= l && a[..] == before
      invariant forall j :: 0 <= j < l && j + 1 < ltot ==> Kept(before, j)
    {
      var rw := Rule(a[l], a[l + 1]);
      if rw != Keep {
        ScanFinds(before, l);
      }
      if rw.Cancel? {
        RemovePair(a, l, draws[d..]);
        changed, used := true, 2;
        return;
      } else if rw.Merge? {
        ReplacePair(a, l, rw.symbol, draws[d..]);
        changed, used := true, 1;
        return;
      }
      l := l + 1;
    }
    ScanSettled(before);
  }

  /** What one pass does to the outcome of trimming with `rest` rewrites
      left. */
  lemma PassStep(before: seq<int>, after: seq<int>, draws: seq<int>, d: nat, used: nat, changed: bool, rest: nat)
    requires rest > 0 && d + 2 * rest <= |draws|
    requires changed <==> Scan(before, 0) < |before|
    requires changed ==> after == Step(before, draws[d..]) && used == StepDraws(before)
    requires !changed ==> after == before && used == 0
    ensures d + used + 2 * (rest - 1) <= |draws|
    ensures changed ==> Trimmed(after, draws[d + used..], rest - 1) == Trimmed(before, draws[d..], rest)
    ensures !changed ==> after == Trimmed(before, draws[d..], rest)
  {
    if changed {
      assert draws[d..][used..] == draws[d + used..];
    }
  }

  /** One pass of TrimSequence, seen from the outcome of the whole trim:
      either the pass rewrote a pair and the rest of the trim, with one
      pass fewer and the unused draws, reaches the same result, or the
      sequence is already the result. */
  method TrimPass(res: array<int>, draws: seq<int>, d: nat, left: nat, ghost goal: seq<int>)
    returns (changed: bool, used: nat)
    requires left > 0 && d + 2 * left <= |draws|
    requires Trimmed(res[..], draws[d..], left) == goal
    modifies res
    ensures d + used + 2 * (left - 1) <= |draws|
    ensures changed ==> Trimmed(res[..], draws[d + used..], left - 1) == goal
    ensures !changed ==> res[..] == goal
  {
    ghost var before := res[..];
    changed, used := Pass(res, draws, d);
    PassStep(before, res[..], draws, d, used, changed, left);
  }

  /** TrimSequence: repeat passes over a copy until a pass rewrites nothing
      (or the fuel runs out); a missing array gives an empty one
      (ExternalFcts.cs:548-653). */
  method TrimSequence(movesSequence: array?<int>, draws: seq<int>, fuel: nat) returns (res: array<int>)
    requires |draws| >= 2 * fuel
    ensures fresh(res)
    ensures res[..] == if movesSequence == null then [] else Trimmed(movesSequence[..], draws, fuel)
  {
    if movesSequence == null {
      res := new int[0];
      return;
    }
    ghost var goal := Trimmed(movesSequence[..], draws, fuel);
    res := Clone(movesSequence);
    var d := 0;
    var left: nat := fuel;
    var changed := true;
    assert draws[0..] == draws;
    while changed && left > 0
      invariant fresh(res)
      invariant 0 <= d && d + 2 * left <= |draws|
      invariant changed ==> Trimmed(res[..], draws[d..], left) == goal
      invariant !changed ==> res[..] == goal
      decreases left
    {
      var used;
      changed, used := TrimPass(res, draws, d, left, goal);
      d := d + used;
      left := left - 1;
    }
  }

  // ---------------------------------------------------------------------
  // Properties of the rules

  /** For move symbols the rules cover all nine pairs of turn classes: a pair
      is rewritten exactly when both turns are of the same face. */
  lemma RuleCoversSameFace(move: int, next: int)
    requires IsMove(move) && IsMove(next)
    ensures Rule(move, next) == Keep <==> move % 6 != next % 6
  {
  }

  /** The turn class of a move symbol (0 quarter, 1 half, 2 inverse) and
      its face, without division. */
  function Class(m: int): int
  {
    if m < 6 then 0 else if m < 12 then 1 else 2
  }

  lemma ClassAndFace(m: int)
    requires IsMove(m)
    ensures m / 6 == Class(m) && m % 6 == m - 6 * Class(m) == CsRem(m, 6)
  {
  }

  /** A merge writes a move symbol of the same face whose turn count is the
      pair's total modulo 4; a cancel happens exactly when that total is a
      multiple of 4. */
  lemma RuleKeepsTurnCount(move: int, next: int)
    requires IsMove(move) && IsMove(next) && move % 6 == next % 6
    ensures Rule(move, next).Cancel? <==> (move / 6 + next / 6 + 2) % 4 == 0
    ensures Rule(move, next).Merge? ==>
      var v := Rule(move, next).symbol;
      IsMove(v) && v % 6 == move % 6 && v / 6 + 1 == (move / 6 + next / 6 + 2) % 4
  {
    ClassAndFace(move);
    ClassAndFace(next);
    var rw := Rule(move, next);
    if rw.Merge? {
      ClassAndFace(rw.symbol);
    }
  }

  /** Each rewrite leaves the cube unchanged: a cancelled pair does nothing
      and a merged pair does what the merged symbol does. */
  lemma RuleSound(c: seq<int>, move: int, next: int)
    requires IsCube(c) && IsMove(move) && IsMove(next)
    ensures Rule(move, next).Cancel? ==> Move(Move(c, move), next) == c
    ensures Rule(move, next).Merge? ==> Move(Move(c, move), next) == Move(c, Rule(move, next).symbol)
  {
    var rw := Rule(move, next);
    if rw != Keep {
      RuleCoversSameFace(move, next);
      RuleKeepsTurnCount(move, next);
      var f := move % 6;
      MoveTurnCount(c, move);
      MoveTurnCount(Move(c, move), next);
      TurnsAdd(c, f, move / 6 + 1, next / 6 + 1);
      TurnsMod4(c, f, move / 6 + 1 + next / 6 + 1);
      if rw.Merge? {
        MoveTurnCount(c, rw.symbol);
      }
    }
  }

  lemma SequenceSplitOne(c: seq<int>, head: seq<int>, x: int, tail: seq<int>)
    requires IsCube(c) && NonNegative(head) && x >= 0 && NonNegative(tail)
    ensures NonNegative(head + [x] + tail)
    ensures Sequence(c, head + [x] + tail) == Sequence(Move(Sequence(c, head), x), tail)
  {
    SequenceAppend(c, head + [x], tail);
    SequenceAppend(c, head, [x]);
    assert [x][..0] == [];
  }

  lemma SequenceSplitTwo(c: seq<int>, head: seq<int>, x: int, y: int, tail: seq<int>)
    requires IsCube(c) && NonNegative(head) && x >= 0 && y >= 0 && NonNegative(tail)
    ensures NonNegative(head + [x, y] + tail)
    ensures Sequence(c, head + [x, y] + tail) == Sequence(Move(Move(Sequence(c, head), x), y), tail)
  {
    assert head + [x, y] + tail == (head + [x]) + [y] + tail;
    SequenceSplitOne(c, head + [x], y, tail);
    SequenceSplitOne(c, head, x, []);
  }

  /** Rewriting the first applicable pair keeps the state the sequence
      reaches, once the refilled tail is set aside. */
  lemma ApplySound(c: seq<int>, s: seq<int>, l: int, draws: seq<int>)
    requires IsCube(c) && AllMoves(s) && 0 <= l < |s| - 1
    requires Rule(s[l], s[l + 1]) != Keep && |draws| >= 2
    ensures var rw := Rule(s[l], s[l + 1]);
      var r := Apply(s, l, rw, draws)[..|s| - Freed(rw)];
      NonNegative(r) && Sequence(c, r) == Sequence(c, s)
  {
    var rw := Rule(s[l], s[l + 1]);
    var r := Apply(s, l, rw, draws)[..|s| - Freed(rw)];
    var head, tail := s[..l], s[l + 2..];
    assert s == head + [s[l], s[l + 1]] + tail;
    SequenceSplitTwo(c, head, s[l], s[l + 1], tail);
    var mid := Sequence(c, head);
    RuleSound(mid, s[l], s[l + 1]);
    if rw.Cancel? {
      assert r == head + tail;
      SequenceAppend(c, head, tail);
    } else {
      RuleKeepsTurnCount(s[l], s[l + 1]);
      assert r == head + [rw.symbol] + tail;
      SequenceSplitOne(c, head, rw.symbol, tail);
    }
  }

  // ---------------------------------------------------------------------
  // Properties of trimming

  /** A settled array of move symbols has no two adjacent turns of the same
      face. */
  lemma SettledHasNoSameFacePair(s: seq<int>)
    requires AllMoves(s) && Settled(s)
    ensures forall j :: 0 <= j < |s| - 1 ==> s[j] % 6 != s[j + 1] % 6
  {
    forall j | 0 <= j < |s| - 1
      ensures s[j] % 6 != s[j + 1] % 6
    {
      assert Kept(s, j);
      RuleCoversSameFace(s[j], s[j + 1]);
    }
  }

  /** Trimming stops either on a settled array or when the fuel is used up. */
  lemma {:induction false} TrimmedSettlesOrRunsOut(s: seq<int>, draws: seq<int>, fuel: nat)
    requires |draws| >= 2 * fuel
    ensures Settled(Trimmed(s, draws, fuel)) || Rewrites(s, draws, fuel) == fuel
    decreases fuel
  {
    if fuel == 0 || Scan(s, 0) == |s| {
      ScanSettled(s);
    } else {
      TrimmedSettlesOrRunsOut(Step(s, draws), draws[StepDraws(s)..], fuel - 1);
    }
  }

  /** A settled array is a fixed point of trimming. */
  lemma TrimmedFixedPoint(s: seq<int>, draws: seq<int>, fuel: nat)
    requires |draws| >= 2 * fuel && Settled(s)
    ensures Trimmed(s, draws, fuel) == s && Rewrites(s, draws, fuel) == 0
  {
    ScanSettled(s);
  }

  /** A rewrite of move symbols, refilled from move-symbol draws, leaves
      move symbols. */
  lemma ApplyKeepsMoves(s: seq<int>, l: int, draws: seq<int>)
    requires AllMoves(s) && AllMoves(draws) && 0 <= l < |s| - 1 && |draws| >= 2
    ensures AllMoves(Apply(s, l, Rule(s[l], s[l + 1]), draws))
  {
    var rw := Rule(s[l], s[l + 1]);
    if rw.Merge? {
      RuleCoversSameFace(s[l], s[l + 1]);
      RuleKeepsTurnCount(s[l], s[l + 1]);
    }
  }

  /** Trimming move symbols with move-symbol draws yields move symbols. */
  lemma {:induction false} TrimmedKeepsMoves(s: seq<int>, draws: seq<int>, fuel: nat)
    requires |draws| >= 2 * fuel && AllMoves(s) && AllMoves(draws)
    ensures AllMoves(Trimmed(s, draws, fuel))
    decreases fuel
  {
    if fuel != 0 && Scan(s, 0) != |s| {
      ApplyKeepsMoves(s, Scan(s, 0), draws);
      TrimmedKeepsMoves(Step(s, draws), draws[StepDraws(s)..], fuel - 1);
    }
  }
}
