/** One generation of the genetic search, in the order the driver runs it
    (Program.cs:203-251, and the same body at 380-427 and 497-544): the
    optional projection onto F/U, the trim of every row, the evaluation of
    every row, the ranking of rows and fitness pairs by score, the intruders
    that overwrite the last rows, crossover and mutation.  The random draws
    are inputs. */
module Generation {
  import opened Cube
  import opened Objective
  import opened Trim
  import opened Population
  import opened Driver

  /** Every gene is a move symbol. */
  predicate AllRowsMoves(p: seq<seq<int>>)
  {
    forall i :: 0 <= i < |p| ==> AllMoves(p[i])
  }

  /** The population after the optional projection onto F/U. */
  function Projected(p: seq<seq<int>>, twoGen: bool): (q: seq<seq<int>>)
    ensures |q| == |p| && forall i :: 0 <= i < |p| ==> |q[i]| == |p[i]|
  {
    if twoGen then seq(|p|, i requires 0 <= i < |p| => seq(|p[i]|, j requires 0 <= j < |p[i]| => TwoGenSymbol(p[i][j])))
    else p
  }

  /** Every row trimmed with its own draws. */
  function TrimmedRows(p: seq<seq<int>>, draws: seq<seq<int>>, fuel: nat): (q: seq<seq<int>>)
    requires |draws| == |p| && forall i :: 0 <= i < |p| ==> |draws[i]| >= 2 * fuel
    ensures |q| == |p| && forall i :: 0 <= i < |p| ==> |q[i]| == |p[i]|
  {
    seq(|p|, i requires 0 <= i < |p| => Trimmed(p[i], draws[i], fuel))
  }

  /** The ranking key of every row: the first entry of its fitness pair. */
  function Keys(p: seq<seq<int>>, typeFunc: int, cube: seq<int>, target: seq<int>): (k: seq<int>)
    requires IsCube(cube) && (NeedsTarget(typeFunc) ==> |target| >= 54)
    requires AllRowsMoves(p)
    ensures |k| == |p| && forall i :: 0 <= i < |p| ==> k[i] == FObjValue(typeFunc, cube, target, p[i])[0]
  {
    seq(|p|, i requires 0 <= i < |p| => FObjValue(typeFunc, cube, target, p[i])[0])
  }

  /** Row i of the array holds the sequence s. */
  predicate RowIs(a: array2<int>, i: int, s: seq<int>)
    requires 0 <= i < a.Length0
    reads a
  {
    |s| == a.Length1 && forall j :: 0 <= j < a.Length1 ==> a[i, j] == s[j]
  }

  /** The array holds the population q, row by row. */
  predicate Holds(a: array2<int>, q: seq<seq<int>>)
    reads a
  {
    |q| == a.Length0 && forall i :: 0 <= i < a.Length0 ==> RowIs(a, i, q[i])
  }

  lemma HoldsRows(a: array2<int>)
    ensures Holds(a, Rows(a))
  {
  }

  lemma RowsOfHolds(a: array2<int>, q: seq<seq<int>>)
    requires Holds(a, q)
    ensures Rows(a) == q
  {
    var p := Rows(a);
    forall i | 0 <= i < |q|
      ensures p[i] == q[i]
    {
      assert RowIs(a, i, q[i]);
    }
  }

  /** The projection keeps every gene a move symbol. */
  lemma ProjectedKeepsMoves(p: seq<seq<int>>, twoGen: bool)
    requires AllRowsMoves(p)
    ensures AllRowsMoves(Projected(p, twoGen))
  {
    if twoGen {
      var q := Projected(p, twoGen);
      forall i, j | 0 <= i < |p| && 0 <= j < |p[i]|
        ensures IsMove(q[i][j])
      {
        TwoGenSymbolLands(p[i][j]);
      }
    }
  }

  /** The trim keeps every gene a move symbol. */
  lemma TrimmedRowsKeepMoves(p: seq<seq<int>>, draws: seq<seq<int>>, fuel: nat)
    requires |draws| == |p| && forall i :: 0 <= i < |p| ==> |draws[i]| >= 2 * fuel && AllMoves(draws[i])
    requires AllRowsMoves(p)
    ensures AllRowsMoves(TrimmedRows(p, draws, fuel))
  {
    forall i | 0 <= i < |p|
      ensures AllMoves(TrimmedRows(p, draws, fuel)[i])
    {
      TrimmedKeepsMoves(p[i], draws[i], fuel);
    }
  }

  /** ToTwoGen's result holds the projected population. */
  lemma ToTwoGenHolds(pop: array2<int>, result: array2<int>, p: seq<seq<int>>)
    requires Holds(pop, p) && result.Length0 == pop.Length0 && result.Length1 == pop.Length1
    requires forall i, j :: 0 <= i < pop.Length0 && 0 <= j < pop.Length1 ==>
      result[i, j] == TwoGenSymbol(pop[i, j])
    ensures Holds(result, Projected(p, true))
  {
    var q := Projected(p, true);
    forall i | 0 <= i < pop.Length0
      ensures RowIs(result, i, q[i])
    {
      assert RowIs(pop, i, p[i]);
    }
  }

  /** Row i of pop is copied out, trimmed, and written back. */
  method TrimRow(pop: array2<int>, i: int, ghost s: seq<int>, draws: seq<int>, fuel: nat)
    requires 0 <= i < pop.Length0 && RowIs(pop, i, s) && |draws| >= 2 * fuel
    modifies pop
    ensures RowIs(pop, i, Trimmed(s, draws, fuel))
    ensures forall r, j :: 0 <= r < pop.Length0 && r != i && 0 <= j < pop.Length1 ==> pop[r, j] == old(pop[r, j])
  {
    var m := pop.Length1;
    var row := GetRow(pop, i);
    assert row[..] == s;
    var trimmed := TrimSequence(row, draws, fuel);
    assert trimmed[..] == Trimmed(s, draws, fuel);
    for j := 0 to m
      modifies pop
      invariant forall r, k :: 0 <= r < pop.Length0 && 0 <= k < m ==>
        pop[r, k] == if r == i && k < j then trimmed[k] else old(pop[r, k])
    {
      pop[i, j] := trimmed[j];
    }
    assert forall j :: 0 <= j < m ==> pop[i, j] == trimmed[..][j];
  }

  /** The trim loop over all rows. */
  method TrimPopulation(pop: array2<int>, ghost p: seq<seq<int>>, draws: seq<seq<int>>, fuel: nat)
    requires Holds(pop, p)
    requires |draws| == pop.Length0 && forall i :: 0 <= i < pop.Length0 ==> |draws[i]| >= 2 * fuel
    modifies pop
    ensures Holds(pop, TrimmedRows(p, draws, fuel))
  {
    ghost var q := TrimmedRows(p, draws, fuel);
    var n := pop.Length0;
    for i := 0 to n
      invariant forall r :: 0 <= r < n ==> RowIs(pop, r, if r < i then q[r] else p[r])
    {
      label before:
      TrimRow(pop, i, p[i], draws[i], fuel);
      forall r | 0 <= r < n && r != i
        ensures RowIs(pop, r, if r < i + 1 then q[r] else p[r])
      {
        assert old@before(RowIs(pop, r, if r < i then q[r] else p[r]));
      }
    }
  }

  /** Evaluates row i of pop into row i of perfo. */
  method EvaluateRow(pop: array2<int>, i: int, ghost s: seq<int>, cube: array<int>, cubeSolved: array<int>,
                     typeFunc: int, perfo: array2<int>)
    requires 0 <= i < pop.Length0 && RowIs(pop, i, s) && AllMoves(s)
    requires cube.Length == 54 && (NeedsTarget(typeFunc) ==> cubeSolved.Length >= 54)
    requires i < perfo.Length0 && perfo.Length1 == 2
    modifies perfo
    ensures perfo[i, 0] == FObjValue(typeFunc, cube[..], cubeSolved[..], s)[0]
    ensures perfo[i, 1] == FObjValue(typeFunc, cube[..], cubeSolved[..], s)[1]
    ensures forall r, k :: 0 <= r < perfo.Length0 && r != i && 0 <= k < 2 ==> perfo[r, k] == old(perfo[r, k])
  {
    ghost var v := FObjValue(typeFunc, cube[..], cubeSolved[..], s);
    var row := GetRow(pop, i);
    assert row[..] == s;
    var perf := FObj(cube, cubeSolved, row, typeFunc);
    assert perf[..] == v;
    perfo[i, 0] := perf[0];
    perfo[i, 1] := perf[1];
  }

  /** The evaluation loop: row i's fitness pair goes to row i of perfo. */
  method EvaluatePopulation(pop: array2<int>, ghost p: seq<seq<int>>, cube: array<int>, cubeSolved: array<int>,
                            typeFunc: int)
    returns (perfo: array2<int>)
    requires Holds(pop, p) && AllRowsMoves(p)
    requires cube.Length == 54 && (NeedsTarget(typeFunc) ==> cubeSolved.Length >= 54)
    ensures fresh(perfo) && perfo.Length0 == pop.Length0 && perfo.Length1 == 2
    ensures forall i, k :: 0 <= i < pop.Length0 && 0 <= k < 2 ==>
      perfo[i, k] == FObjValue(typeFunc, cube[..], cubeSolved[..], p[i])[k]
  {
    var n := pop.Length0;
    ghost var c, t := cube[..], cubeSolved[..];
    perfo := new int[n, 2];
    for i := 0 to n
      modifies perfo
      invariant forall r :: 0 <= r < i ==>
        perfo[r, 0] == FObjValue(typeFunc, c, t, p[r])[0] && perfo[r, 1] == FObjValue(typeFunc, c, t, p[r])[1]
    {
      assert RowIs(pop, i, p[i]);
      EvaluateRow(pop, i, p[i], cube, cubeSolved, typeFunc, perfo);
    }
  }

  /** The ranking keys: column 0 of the fitness pairs. */
  method FirstColumn(perfo: array2<int>) returns (perfo0: array<int>)
    requires perfo.Length1 >= 1
    ensures fresh(perfo0) && perfo0.Length == perfo.Length0
    ensures forall i :: 0 <= i < perfo.Length0 ==> perfo0[i] == perfo[i, 0]
  {
    perfo0 := new int[perfo.Length0];
    for idx := 0 to perfo.Length0
      invariant forall i :: 0 <= i < idx ==> perfo0[i] == perfo[i, 0]
    {
      perfo0[idx] := perfo[idx, 0];
    }
  }

  /** The population after intrusion: the last nIntrus rows are the drawn
      intruders, when there are any. */
  function Intruded(p: seq<seq<int>>, nIntrus: int, intruders: seq<seq<int>>): (q: seq<seq<int>>)
    requires nIntrus <= |p| && (nIntrus > 0 ==> |intruders| == nIntrus)
    ensures |q| == |p|
  {
    seq(|p|, i requires 0 <= i < |p| =>
      if nIntrus > 0 && i >= |p| - nIntrus then intruders[i - (|p| - nIntrus)] else p[i])
  }

  /** Intrusion: the last nIntrus rows are overwritten by the intruders
      (Program.cs:239-247). */
  method Intrude(pop: array2<int>, ghost p: seq<seq<int>>, nIntrus: int, intruders: seq<seq<int>>)
    requires Holds(pop, p) && nIntrus <= pop.Length0
    requires nIntrus > 0 ==> (|intruders| == nIntrus &&
      forall r :: 0 <= r < nIntrus ==> |intruders[r]| == pop.Length1)
    modifies pop
    ensures Holds(pop, Intruded(p, nIntrus, intruders))
  {
    var n := pop.Length0;
    var m := pop.Length1;
    if nIntrus > 0 {
      for i := n - nIntrus to n
        invariant forall r, j :: 0 <= r < n && 0 <= j < m ==>
          pop[r, j] == if n - nIntrus <= r < i then intruders[r - (n - nIntrus)][j] else old(pop[r, j])
      {
        for j := 0 to m
          invariant forall r, k :: 0 <= r < n && 0 <= k < m ==>
            pop[r, k] == if n - nIntrus <= r < i || (r == i && k < j) then intruders[r - (n - nIntrus)][k]
                         else old(pop[r, k])
        {
          pop[i, j] := intruders[i - (n - nIntrus)][j];
        }
      }
    }
    ghost var q := Intruded(p, nIntrus, intruders);
    forall r | 0 <= r < n
      ensures RowIs(pop, r, q[r])
    {
      assert old(RowIs(pop, r, p[r]));
    }
  }

  /** The population after crossover, as PopMariee builds it. */
  function BredRows(p: seq<seq<int>>, choices: seq<Pairing>, last: int, m: nat): (q: seq<seq<int>>)
    requires ValidPairings(choices, last, |p|, m) && forall r :: 0 <= r < |p| ==> |p[r]| == m
    ensures |q| == |p| && forall i :: 0 <= i < |p| ==> |q[i]| == m
  {
    seq(|p|, i requires 0 <= i < |p| => seq(m, j requires 0 <= j < m => BredGene(p, choices, last, m, i, j)))
  }

  /** The population after mutation, as PopMutee builds it. */
  function MutatedRows(p: seq<seq<int>>, mutations: seq<seq<Mutation>>, m: nat): (q: seq<seq<int>>)
    requires ValidMutations(mutations, |p|, m) && forall r :: 0 <= r < |p| ==> |p[r]| == m
    ensures |q| == |p| && forall i :: 0 <= i < |p| ==> |q[i]| == m
  {
    seq(|p|, i requires 0 <= i < |p| => seq(m, j requires 0 <= j < m => MutatedGene(p, mutations, m, i, j)))
  }

  /** The next population bred from the ranked one: intrusion, crossover,
      mutation. */
  function Offspring(r: seq<seq<int>>, m: nat, nIntrus: int, intruders: seq<seq<int>>,
                     choices: seq<Pairing>, last: int, mutations: seq<seq<Mutation>>): (q: seq<seq<int>>)
    requires forall i :: 0 <= i < |r| ==> |r[i]| == m
    requires nIntrus <= |r| && (nIntrus > 0 ==> (|intruders| == nIntrus &&
      forall k :: 0 <= k < nIntrus ==> |intruders[k]| == m))
    requires ValidPairings(choices, last, |r|, m) && ValidMutations(mutations, |r|, m)
    ensures |q| == |r| && forall i :: 0 <= i < |r| ==> |q[i]| == m
  {
    MutatedRows(BredRows(Intruded(r, nIntrus, intruders), choices, last, m), mutations, m)
  }

  /** Breeding keeps every gene a move symbol, and keeps the best row
      unless the intruders reach it. */
  lemma OffspringKeepsMovesAndElite(r: seq<seq<int>>, m: nat, nIntrus: int, intruders: seq<seq<int>>,
                                    choices: seq<Pairing>, last: int, mutations: seq<seq<Mutation>>)
    requires forall i :: 0 <= i < |r| ==> |r[i]| == m
    requires nIntrus <= |r| && (nIntrus > 0 ==> (|intruders| == nIntrus &&
      forall k :: 0 <= k < nIntrus ==> |intruders[k]| == m && AllMoves(intruders[k])))
    requires ValidPairings(choices, last, |r|, m) && ValidMutations(mutations, |r|, m)
    requires AllRowsMoves(r)
    ensures AllRowsMoves(Offspring(r, m, nIntrus, intruders, choices, last, mutations))
    ensures 0 <= nIntrus < |r| ==> Offspring(r, m, nIntrus, intruders, choices, last, mutations)[0] == r[0]
  {
    var r1 := Intruded(r, nIntrus, intruders);
    assert AllRowsMoves(r1);
    var b := BredRows(r1, choices, last, m);
    BredKeepsMoves(r1, choices, last, m);
    MutatedKeepsMoves(b, mutations, m);
    var q := MutatedRows(b, mutations, m);
    assert AllRowsMoves(q) by {
      forall i | 0 <= i < |q|
        ensures AllMoves(q[i])
      {
        assert forall j :: 0 <= j < m ==> q[i][j] == MutatedGene(b, mutations, m, i, j);
      }
    }
    if 0 <= nIntrus < |r| {
      BredKeepsElite(r1, choices, last, m);
      assert q[0] == r1[0];
    }
  }

  /** Intrusion, crossover and mutation on the ranked population. */
  method Reproduce(ranked: array2<int>, ghost r: seq<seq<int>>, nIntrus: int, intruders: seq<seq<int>>,
                   choices: seq<Pairing>, last: int, mutations: seq<seq<Mutation>>)
    returns (newPop: array2<int>)
    requires Holds(ranked, r) && nIntrus <= ranked.Length0
    requires nIntrus > 0 ==> (|intruders| == nIntrus &&
      forall k :: 0 <= k < nIntrus ==> |intruders[k]| == ranked.Length1)
    requires ValidPairings(choices, last, ranked.Length0, ranked.Length1)
    requires ValidMutations(mutations, ranked.Length0, ranked.Length1)
    modifies ranked
    ensures fresh(newPop) && newPop.Length0 == ranked.Length0 && newPop.Length1 == ranked.Length1
    ensures Holds(newPop, Offspring(r, ranked.Length1, nIntrus, intruders, choices, last, mutations))
  {
    var m := ranked.Length1;
    Intrude(ranked, r, nIntrus, intruders);
    ghost var r1 := Intruded(r, nIntrus, intruders);
    RowsOfHolds(ranked, r1);
    var bred := PopMariee(ranked, choices, last);
    ghost var b := BredRows(r1, choices, last, m);
    assert Holds(bred, b);
    RowsOfHolds(bred, b);
    newPop := PopMutee(bred, mutations);
    ghost var q := MutatedRows(b, mutations, m);
    assert Holds(newPop, q);
  }

  /** Every row after the projection and the trim; genes stay move symbols. */
  function Prepared(p: seq<seq<int>>, twoGen: bool, draws: seq<seq<int>>, fuel: nat): (q: seq<seq<int>>)
    requires AllRowsMoves(p)
    requires |draws| == |p| && forall i :: 0 <= i < |p| ==> |draws[i]| >= 2 * fuel && AllMoves(draws[i])
    ensures |q| == |p| && forall i :: 0 <= i < |p| ==> |q[i]| == |p[i]|
    ensures AllRowsMoves(q)
  {
    ProjectedKeepsMoves(p, twoGen);
    TrimmedRowsKeepMoves(Projected(p, twoGen), draws, fuel);
    TrimmedRows(Projected(p, twoGen), draws, fuel)
  }

  /** The order ClassementPopulation puts the rows of q in: by the first
      entry of their fitness pairs, best first, ties in row order. */
  function Ranking(q: seq<seq<int>>, typeFunc: int, cube: seq<int>, target: seq<int>): (order: seq<int>)
    requires IsCube(cube) && (NeedsTarget(typeFunc) ==> |target| >= 54) && AllRowsMoves(q)
    ensures |order| == |q| && forall k :: 0 <= k < |q| ==> 0 <= order[k] < |q|
  {
    RankOrder(Keys(q, typeFunc, cube, target))
  }

  /** Rows taken in the given order. */
  function Reordered(q: seq<seq<int>>, order: seq<int>): (r: seq<seq<int>>)
    requires forall k :: 0 <= k < |order| ==> 0 <= order[k] < |q|
    ensures |r| == |order| && forall k :: 0 <= k < |order| ==> r[k] == q[order[k]]
  {
    seq(|order|, k requires 0 <= k < |order| => q[order[k]])
  }

  /** Row i of perfo is the fitness pair of row order[i] of q. */
  predicate RankedFitness(perfo: array2<int>, q: seq<seq<int>>, order: seq<int>,
                          typeFunc: int, cube: seq<int>, target: seq<int>)
    requires IsCube(cube) && (NeedsTarget(typeFunc) ==> |target| >= 54) && AllRowsMoves(q)
    requires forall k :: 0 <= k < |order| ==> 0 <= order[k] < |q|
    reads perfo
  {
    perfo.Length0 == |order| && perfo.Length1 == 2 &&
    forall i, k :: 0 <= i < |order| && 0 <= k < 2 ==>
      perfo[i, k] == FObjValue(typeFunc, cube, target, q[order[i]])[k]
  }

  /** The first fitness pair after ranking holds the best score of all rows. */
  lemma RankedFitnessBestFirst(perfo: array2<int>, q: seq<seq<int>>, typeFunc: int, cube: seq<int>, target: seq<int>)
    requires IsCube(cube) && (NeedsTarget(typeFunc) ==> |target| >= 54) && AllRowsMoves(q)
    requires RankedFitness(perfo, q, Ranking(q, typeFunc, cube, target), typeFunc, cube, target)
    ensures forall i :: 0 <= i < |q| ==> perfo[0, 0] >= FObjValue(typeFunc, cube, target, q[i])[0]
  {
    var keys := Keys(q, typeFunc, cube, target);
    if |q| > 0 {
      RankOrderBestFirst(keys);
      assert perfo[0, 0] == keys[RankOrder(keys)[0]];
      forall i | 0 <= i < |q|
        ensures perfo[0, 0] >= FObjValue(typeFunc, cube, target, q[i])[0]
      {
        assert keys[RankOrder(keys)[0]] >= keys[i];
      }
    }
  }

  /** Projection, trim, evaluation and ranking of the rows and of their
      fitness pairs (Program.cs:205-232). */
  method Select(pop: array2<int>, ghost p: seq<seq<int>>, cube: array<int>, cubeSolved: array<int>,
                typeFunc: int, twoGen: bool, draws: seq<seq<int>>, fuel: nat)
    returns (ranked: array2<int>, perfo: array2<int>)
    requires Holds(pop, p) && AllRowsMoves(p)
    requires cube.Length == 54 && (NeedsTarget(typeFunc) ==> cubeSolved.Length >= 54)
    requires |draws| == |p| && forall i :: 0 <= i < |p| ==> |draws[i]| >= 2 * fuel && AllMoves(draws[i])
    modifies pop
    ensures fresh(ranked) && ranked.Length1 == pop.Length1
    ensures fresh(perfo) && perfo != ranked
    ensures var q := Prepared(p, twoGen, draws, fuel);
      var order := Ranking(q, typeFunc, cube[..], cubeSolved[..]);
      Holds(ranked, Reordered(q, order)) && RankedFitness(perfo, q, order, typeFunc, cube[..], cubeSolved[..])
  {
    var n := pop.Length0;
    ghost var p1 := Projected(p, twoGen);
    ghost var q := Prepared(p, twoGen, draws, fuel);
    var cur := pop;
    if twoGen {
      cur := ToTwoGen(pop);
      ToTwoGenHolds(pop, cur, p);
    }
    TrimPopulation(cur, p1, draws, fuel);
    var fit := EvaluatePopulation(cur, q, cube, cubeSolved, typeFunc);
    var perfo0 := FirstColumn(fit);
    ghost var keys := Keys(q, typeFunc, cube[..], cubeSolved[..]);
    assert perfo0[..] == keys;
    ghost var order := RankOrder(keys);
    ranked := ClassementPopulation(cur, perfo0);
    perfo := ClassementPopulation(fit, perfo0);
    ghost var rq := Reordered(q, order);
    forall i | 0 <= i < n
      ensures RowIs(ranked, i, rq[i])
    {
      assert RowIs(cur, order[i], q[order[i]]);
    }
  }

  /** The random draws one generation consumes: the trim draws of every row
      and the trim's step bound, the number of intruders and the intruders,
      the pairings and the spare row for crossover, and the mutations. */
  datatype Draws = Draws(trims: seq<seq<int>>, fuel: nat, nIntrus: int, intruders: seq<seq<int>>,
                         choices: seq<Pairing>, last: int, mutations: seq<seq<Mutation>>)

  /** Draws fit a population of n rows of m genes. */
  predicate ValidDraws(d: Draws, n: int, m: int)
  {
    |d.trims| == n && (forall i :: 0 <= i < n ==> |d.trims[i]| >= 2 * d.fuel && AllMoves(d.trims[i])) &&
    d.nIntrus <= n && (d.nIntrus > 0 ==> (|d.intruders| == d.nIntrus &&
      forall k :: 0 <= k < d.nIntrus ==> |d.intruders[k]| == m && AllMoves(d.intruders[k]))) &&
    ValidPairings(d.choices, d.last, n, m) && ValidMutations(d.mutations, n, m)
  }

  /** perfo holds the ranked fitness pairs of the prepared rows of p, and
      newPop the population bred from those rows in ranked order. */
  predicate NextGeneration(newPop: array2<int>, perfo: array2<int>, p: seq<seq<int>>, m: nat,
                           typeFunc: int, twoGen: bool, cube: seq<int>, target: seq<int>, d: Draws)
    requires AllRowsMoves(p) && (forall i :: 0 <= i < |p| ==> |p[i]| == m) && ValidDraws(d, |p|, m)
    requires IsCube(cube) && (NeedsTarget(typeFunc) ==> |target| >= 54)
    reads newPop, perfo
  {
    var q := Prepared(p, twoGen, d.trims, d.fuel);
    var order := Ranking(q, typeFunc, cube, target);
    RankedFitness(perfo, q, order, typeFunc, cube, target) &&
    Holds(newPop, Offspring(Reordered(q, order), m, d.nIntrus, d.intruders, d.choices, d.last, d.mutations))
  }

  /** After a generation no prepared row scores higher than the first
      fitness pair. */
  lemma NextGenerationBestFirst(newPop: array2<int>, perfo: array2<int>, p: seq<seq<int>>, m: nat,
                                typeFunc: int, twoGen: bool, cube: seq<int>, target: seq<int>, d: Draws)
    requires AllRowsMoves(p) && (forall i :: 0 <= i < |p| ==> |p[i]| == m) && ValidDraws(d, |p|, m)
    requires IsCube(cube) && (NeedsTarget(typeFunc) ==> |target| >= 54)
    requires NextGeneration(newPop, perfo, p, m, typeFunc, twoGen, cube, target, d)
    ensures var q := Prepared(p, twoGen, d.trims, d.fuel);
      forall i :: 0 <= i < |p| ==> perfo[0, 0] >= FObjValue(typeFunc, cube, target, q[i])[0]
  {
    RankedFitnessBestFirst(perfo, Prepared(p, twoGen, d.trims, d.fuel), typeFunc, cube, target);
  }

  /** After a generation the first row of the new population is the
      prepared row with the best score, as long as the intruders do not
      reach it, and the first fitness pair is that row's. */
  lemma NextGenerationKeepsElite(newPop: array2<int>, perfo: array2<int>, p: seq<seq<int>>, m: nat,
                                 typeFunc: int, twoGen: bool, cube: seq<int>, target: seq<int>, d: Draws)
    requires AllRowsMoves(p) && (forall i :: 0 <= i < |p| ==> |p[i]| == m) && ValidDraws(d, |p|, m)
    requires IsCube(cube) && (NeedsTarget(typeFunc) ==> |target| >= 54)
    requires NextGeneration(newPop, perfo, p, m, typeFunc, twoGen, cube, target, d)
    requires 0 <= d.nIntrus < |p|
    ensures var q := Prepared(p, twoGen, d.trims, d.fuel);
      var best := q[Ranking(q, typeFunc, cube, target)[0]];
      RowIs(newPop, 0, best) && perfo[0, 0] == FObjValue(typeFunc, cube, target, best)[0]
  {
    var q := Prepared(p, twoGen, d.trims, d.fuel);
    var order := Ranking(q, typeFunc, cube, target);
    var r := Reordered(q, order);
    var o := Offspring(r, m, d.nIntrus, d.intruders, d.choices, d.last, d.mutations);
    OffspringKeepsMovesAndElite(r, m, d.nIntrus, d.intruders, d.choices, d.last, d.mutations);
    assert RowIs(newPop, 0, o[0]);
    assert perfo[0, 0] == FObjValue(typeFunc, cube, target, q[order[0]])[0];
  }

  /** After a generation every gene is a move symbol. */
  lemma NextGenerationKeepsMoves(newPop: array2<int>, perfo: array2<int>, p: seq<seq<int>>, m: nat,
                                 typeFunc: int, twoGen: bool, cube: seq<int>, target: seq<int>, d: Draws)
    requires AllRowsMoves(p) && (forall i :: 0 <= i < |p| ==> |p[i]| == m) && ValidDraws(d, |p|, m)
    requires IsCube(cube) && (NeedsTarget(typeFunc) ==> |target| >= 54)
    requires NextGeneration(newPop, perfo, p, m, typeFunc, twoGen, cube, target, d)
    ensures AllRowsMoves(Rows(newPop))
  {
    var q := Prepared(p, twoGen, d.trims, d.fuel);
    var r := Reordered(q, Ranking(q, typeFunc, cube, target));
    var o := Offspring(r, m, d.nIntrus, d.intruders, d.choices, d.last, d.mutations);
    assert Holds(newPop, o);
    RowsOfHolds(newPop, o);
    OffspringKeepsMovesAndElite(r, m, d.nIntrus, d.intruders, d.choices, d.last, d.mutations);
  }

  /** One generation (Program.cs:203-251): projection, trim, evaluation,
      ranking, intrusion, crossover and mutation. */
  method Generation(pop: array2<int>, ghost p: seq<seq<int>>, cube: array<int>, cubeSolved: array<int>,
                    typeFunc: int, twoGen: bool, d: Draws)
    returns (newPop: array2<int>, perfo: array2<int>)
    requires Holds(pop, p) && AllRowsMoves(p) && ValidDraws(d, pop.Length0, pop.Length1)
    requires cube.Length == 54 && (NeedsTarget(typeFunc) ==> cubeSolved.Length >= 54)
    modifies pop
    ensures fresh(newPop) && fresh(perfo)
    ensures forall i :: 0 <= i < |p| ==> |p[i]| == pop.Length1
    ensures NextGeneration(newPop, perfo, p, pop.Length1, typeFunc, twoGen, cube[..], cubeSolved[..], d)
  {
    assert forall i :: 0 <= i < |p| ==> |p[i]| == pop.Length1 by {
      forall i | 0 <= i < |p|
        ensures |p[i]| == pop.Length1
      {
        assert RowIs(pop, i, p[i]);
      }
    }
    var ranked;
    ranked, perfo := Select(pop, p, cube, cubeSolved, typeFunc, twoGen, d.trims, d.fuel);
    ghost var q := Prepared(p, twoGen, d.trims, d.fuel);
    ghost var r := Reordered(q, Ranking(q, typeFunc, cube[..], cubeSolved[..]));
    newPop := Reproduce(ranked, r, d.nIntrus, d.intruders, d.choices, d.last, d.mutations);
  }
}
