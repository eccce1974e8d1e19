/** The genetic operators on a population (ExternalFcts.cs:
    ClassementPopulation, PopMariee, PopMutee).  A population is a 2-D array
    whose rows are candidate move sequences; row 0 holds the elite.  Random
    draws are explicit oracle arguments whose values lie in the ranges the
    source's draws produce. */
module Population {
  import opened Cube

  /** The rows of a 2-D array, as a value. */
  function Rows(a: array2<int>): (p: seq<seq<int>>)
    reads a
    ensures |p| == a.Length0
    ensures forall i :: 0 <= i < a.Length0 ==> |p[i]| == a.Length1
    ensures forall i, j :: 0 <= i < a.Length0 && 0 <= j < a.Length1 ==> p[i][j] == a[i, j]
  {
    seq(a.Length0, i requires 0 <= i < a.Length0 reads a =>
      seq(a.Length1, j requires 0 <= j < a.Length1 reads a => a[i, j]))
  }

  /** The population clone of the source (`(int[,])pop.Clone()`). */
  method Clone2(a: array2<int>) returns (b: array2<int>)
    ensures fresh(b) && b.Length0 == a.Length0 && b.Length1 == a.Length1
    ensures forall i, j :: 0 <= i < a.Length0 && 0 <= j < a.Length1 ==> b[i, j] == a[i, j]
  {
    b := new int[a.Length0, a.Length1]((i, j) reads a =>
      if 0 <= i < a.Length0 && 0 <= j < a.Length1 then a[i, j] else 0);
  }

  /** Copies columns from..to-1 of row src of `pop` into row `row` of `dst`. */
  method CopySegment(dst: array2<int>, row: int, pop: array2<int>, src: int, from: int, to: int)
    requires dst != pop && dst.Length1 == pop.Length1
    requires 0 <= row < dst.Length0 && 0 <= src < pop.Length0 && 0 <= from <= to <= dst.Length1
    modifies dst
    ensures forall i, j :: 0 <= i < dst.Length0 && 0 <= j < dst.Length1 ==>
      dst[i, j] == if i == row && from <= j < to then pop[src, j] else old(dst[i, j])
  {
    for j := from to to
      invariant forall i, k :: 0 <= i < dst.Length0 && 0 <= k < dst.Length1 ==>
        dst[i, k] == if i == row && from <= k < j then pop[src, k] else old(dst[i, k])
    {
      dst[row, j] := pop[src, j];
    }
  }

  // ---------------------------------------------------------------------
  // Ranking (ClassementPopulation)

  /** Entries of `order` are indices of `vals`. */
  predicate Indices(order: seq<int>, vals: seq<int>)
  {
    forall k :: 0 <= k < |order| ==> 0 <= order[k] < |vals|
  }

  /** Non-increasing by score, and indices of equal scores in increasing
      order: the order a stable descending sort produces. */
  predicate Ranked(order: seq<int>, vals: seq<int>)
    requires Indices(order, vals)
  {
    forall a, b :: 0 <= a < b < |order| ==>
      vals[order[a]] > vals[order[b]] || (vals[order[a]] == vals[order[b]] && order[a] < order[b])
  }

  /** No index occurs twice. */
  predicate Distinct(order: seq<int>)
  {
    forall a, b :: 0 <= a < b < |order| ==> order[a] != order[b]
  }

  /** Inserts index i after every index whose score is at least its own. */
  function InsertByScore(order: seq<int>, i: int, vals: seq<int>): (r: seq<int>)
    requires 0 <= i < |vals| && Indices(order, vals)
    ensures |r| == |order| + 1 && Indices(r, vals)
    ensures forall x :: x in r <==> x in order || x == i
    decreases |order|
  {
    if order == [] then [i]
    else if vals[order[0]] < vals[i] then [i] + order
    else
      var rest := InsertByScore(order[1..], i, vals);
      assert forall x :: x in order <==> x == order[0] || x in order[1..];
      [order[0]] + rest
  }

  /** An index ranked before every entry of a ranked order extends it. */
  lemma ConsRanked(x: int, rest: seq<int>, vals: seq<int>)
    requires 0 <= x < |vals| && Indices(rest, vals) && Ranked(rest, vals) && Distinct(rest)
    requires forall b :: 0 <= b < |rest| ==>
      vals[x] > vals[rest[b]] || (vals[x] == vals[rest[b]] && x < rest[b])
    ensures Indices([x] + rest, vals) && Ranked([x] + rest, vals) && Distinct([x] + rest)
  {
    var r := [x] + rest;
    assert forall b :: 0 < b < |r| ==> r[b] == rest[b - 1];
  }

  /** Inserting an index larger than all ranked ones keeps the order ranked
      and free of repetitions. */
  lemma {:induction false} InsertKeepsRanked(order: seq<int>, i: int, vals: seq<int>)
    requires 0 <= i < |vals| && Indices(order, vals)
    requires Ranked(order, vals) && Distinct(order) && forall k :: 0 <= k < |order| ==> order[k] < i
    ensures Ranked(InsertByScore(order, i, vals), vals) && Distinct(InsertByScore(order, i, vals))
    decreases |order|
  {
    if order == [] {
    } else if vals[order[0]] < vals[i] {
      ConsRanked(i, order, vals);
    } else {
      var rest := InsertByScore(order[1..], i, vals);
      InsertKeepsRanked(order[1..], i, vals);
      forall b | 0 <= b < |rest|
        ensures vals[order[0]] > vals[rest[b]] || (vals[order[0]] == vals[rest[b]] && order[0] < rest[b])
      {
        assert rest[b] in rest;
        if rest[b] != i {
          var a :| 0 <= a < |order[1..]| && order[1..][a] == rest[b];
          assert order[a + 1] == rest[b];
        }
      }
      ConsRanked(order[0], rest, vals);
    }
  }

  /** The first n indices of vals, ranked. */
  function RankPrefix(vals: seq<int>, n: nat): (r: seq<int>)
    requires n <= |vals|
    ensures |r| == n && Indices(r, vals) && Ranked(r, vals) && Distinct(r)
    ensures forall k :: 0 <= k < n ==> r[k] < n
    ensures forall x :: 0 <= x < n ==> x in r
  {
    if n == 0 then []
    else
      var prev := RankPrefix(vals, n - 1);
      InsertKeepsRanked(prev, n - 1, vals);
      var r := InsertByScore(prev, n - 1, vals);
      assert forall k :: 0 <= k < n ==> r[k] in r;
      r
  }

  /** The row order of OrderByDescending over the scores
      (ExternalFcts.cs:438-442). */
  function RankOrder(vals: seq<int>): (r: seq<int>)
    ensures |r| == |vals| && Indices(r, vals)
  {
    RankPrefix(vals, |vals|)
  }

  /** The ranking is a permutation of the row indices, ordered by
      non-increasing score, with ties kept in their input order. */
  lemma RankOrderIsStableSort(vals: seq<int>)
    ensures Ranked(RankOrder(vals), vals) && Distinct(RankOrder(vals))
    ensures forall x :: 0 <= x < |vals| ==> x in RankOrder(vals)
  {
  }

  /** The best score comes first. */
  lemma RankOrderBestFirst(vals: seq<int>)
    requires |vals| > 0
    ensures forall k :: 0 <= k < |vals| ==> vals[RankOrder(vals)[0]] >= vals[k]
  {
    var r := RankOrder(vals);
    RankOrderIsStableSort(vals);
    forall k | 0 <= k < |vals|
      ensures vals[r[0]] >= vals[k]
    {
      assert k in r;
      var a :| 0 <= a < |r| && r[a] == k;
      if a > 0 {
        assert vals[r[0]] >= vals[r[a]];
      }
    }
  }

  /** ClassementPopulation: row i of the result is the row of the i-th
      ranked score (ExternalFcts.cs:434-452). */
  method ClassementPopulation(pop: array2<int>, valFobj: array<int>) returns (outArr: array2<int>)
    requires valFobj.Length == pop.Length0
    ensures fresh(outArr) && outArr.Length0 == pop.Length0 && outArr.Length1 == pop.Length1
    ensures forall i, j :: 0 <= i < pop.Length0 && 0 <= j < pop.Length1 ==>
      outArr[i, j] == pop[RankOrder(valFobj[..])[i], j]
  {
    var rows := pop.Length0;
    var cols := pop.Length1;
    var indices := RankOrder(valFobj[..]);
    outArr := new int[rows, cols];
    for i := 0 to rows
      invariant forall r, j :: 0 <= r < i && 0 <= j < cols ==> outArr[r, j] == pop[indices[r], j]
    {
      var src := indices[i];
      for j := 0 to cols
        invariant forall r, k :: 0 <= r < i && 0 <= k < cols ==> outArr[r, k] == pop[indices[r], k]
        invariant forall k :: 0 <= k < j ==> outArr[i, k] == pop[src, k]
      {
        outArr[i, j] := pop[src, j];
      }
    }
  }

  // ---------------------------------------------------------------------
  // Crossover (PopMariee)

  /** The draws for one pair of children: the two parents, the crossover
      point and whether crossover happens. */
  datatype Pairing = Pairing(first: int, second: int, cut: int, crossover: bool)

  /** The number of child pairs: slots 1,2 then 3,4 and so on while both
      slots exist. */
  function PairCount(n: int): (p: nat)
    ensures n >= 1 ==> 2 * p + 1 <= n && n <= 2 * p + 2
  {
    if n >= 1 then (n - 1) / 2 else 0
  }

  /** The crossover point after the source's correction of a draw equal to
      the row length. */
  function CrossPoint(cut: int, m: int): int
  {
    if cut == m then m - 1 else cut
  }

  /** The draws are in the ranges the source produces: parents in [0, n),
      the raw crossover draw in [1, m-1] (it is 1 when m < 2), and the
      parent of an odd last slot in [0, n).  With no column at all the
      source only survives when no crossover happens. */
  predicate ValidPairings(choices: seq<Pairing>, last: int, n: int, m: int)
  {
    |choices| >= PairCount(n) &&
    (forall k :: 0 <= k < |choices| ==>
       0 <= choices[k].first < n && 0 <= choices[k].second < n &&
       (if m >= 2 then 1 <= choices[k].cut <= m - 1 else choices[k].cut == 1) &&
       (m == 0 ==> !choices[k].crossover)) &&
    (2 * PairCount(n) + 1 < n ==> 0 <= last < n)
  }

  /** The parent gene j of a child comes from: its own parent (the first
      for the first child, the second for the second) before the crossover
      point, the other parent from it on. */
  function ChildDonor(ch: Pairing, m: int, firstChild: bool, j: int): int
  {
    var own := if firstChild then ch.first else ch.second;
    var other := if firstChild then ch.second else ch.first;
    if ch.crossover && j >= CrossPoint(ch.cut, m) then other else own
  }

  /** The input row gene j of result row i is copied from. */
  function Donor(choices: seq<Pairing>, last: int, n: int, m: int, i: int, j: int): (r: int)
    requires ValidPairings(choices, last, n, m) && 0 <= i < n && 0 <= j
    ensures 0 <= r < n
  {
    if i == 0 then 0
    else if i <= 2 * PairCount(n) then ChildDonor(choices[(i - 1) / 2], m, i % 2 == 1, j)
    else last
  }

  /** Gene (i, j) of the bred population. */
  function BredGene(p: seq<seq<int>>, choices: seq<Pairing>, last: int, m: int, i: int, j: int): int
    requires ValidPairings(choices, last, |p|, m) && 0 <= i < |p| && 0 <= j < m
    requires forall r :: 0 <= r < |p| ==> |p[r]| == m
  {
    p[Donor(choices, last, |p|, m, i, j)][j]
  }

  /** Pair k fills rows 2k+1 and 2k+2. */
  lemma PairDonors(choices: seq<Pairing>, last: int, n: int, m: int, k: int, j: int)
    requires ValidPairings(choices, last, n, m) && 0 <= k && 2 * k + 2 < n && 0 <= j
    ensures Donor(choices, last, n, m, 2 * k + 1, j) == ChildDonor(choices[k], m, true, j)
    ensures Donor(choices, last, n, m, 2 * k + 2, j) == ChildDonor(choices[k], m, false, j)
  {
    assert (2 * k + 1 - 1) / 2 == k && (2 * k + 2 - 1) / 2 == k;
    assert (2 * k + 1) % 2 == 1 && (2 * k + 2) % 2 == 0;
  }

  /** Writes the two children of one pair into rows childIdx and
      childIdx + 1 (the body of the while loop, ExternalFcts.cs:473-513). */
  method BreedPair(result: array2<int>, childIdx: int, pop: array2<int>, pair: Pairing)
    requires result != pop && result.Length0 == pop.Length0 && result.Length1 == pop.Length1
    requires 0 <= childIdx && childIdx + 1 < pop.Length0
    requires 0 <= pair.first < pop.Length0 && 0 <= pair.second < pop.Length0
    requires (if pop.Length1 >= 2 then 1 <= pair.cut <= pop.Length1 - 1 else pair.cut == 1)
    requires pop.Length1 == 0 ==> !pair.crossover
    modifies result
    ensures forall i, j :: 0 <= i < result.Length0 && 0 <= j < result.Length1 ==>
      result[i, j] == if i == childIdx then pop[ChildDonor(pair, pop.Length1, true, j), j]
                      else if i == childIdx + 1 then pop[ChildDonor(pair, pop.Length1, false, j), j]
                      else old(result[i, j])
  {
    var m := pop.Length1;
    var p1 := pair.first;
    var p2 := pair.second;
    var cross := pair.cut;
    if cross == m {
      cross := m - 1;
    }
    if pair.crossover {
      CopySegment(result, childIdx, pop, p1, 0, cross);
      CopySegment(result, childIdx, pop, p2, cross, m);
      CopySegment(result, childIdx + 1, pop, p2, 0, cross);
      CopySegment(result, childIdx + 1, pop, p1, cross, m);
    } else {
      CopySegment(result, childIdx, pop, p1, 0, m);
      CopySegment(result, childIdx + 1, pop, p2, 0, m);
    }
  }

  /** PopMariee: keep row 0, fill rows 1.. pairwise with the children of two
      parents, and an odd last row with a copy of one parent
      (ExternalFcts.cs:455-524). */
  method PopMariee(pop: array2<int>, choices: seq<Pairing>, last: int) returns (result: array2<int>)
    requires ValidPairings(choices, last, pop.Length0, pop.Length1)
    ensures fresh(result) && result.Length0 == pop.Length0 && result.Length1 == pop.Length1
    ensures forall i, j :: 0 <= i < pop.Length0 && 0 <= j < pop.Length1 ==>
      result[i, j] == BredGene(Rows(pop), choices, last, pop.Length1, i, j)
  {
    var n := pop.Length0;
    var m := pop.Length1;
    ghost var p := Rows(pop);
    result := Clone2(pop);
    var childIdx := BreedPairs(result, pop, p, choices, last);
    if childIdx < n {
      CopySegment(result, childIdx, pop, last, 0, m);
      forall i, j | 0 <= i < n && 0 <= j < m
        ensures result[i, j] == BredGene(p, choices, last, m, i, j)
      {
      }
    }
  }

  /** The pairing loop of PopMariee (ExternalFcts.cs:470-514): rows 1 up to
      the returned slot hold the children; the rest are still the input. */
  method BreedPairs(result: array2<int>, pop: array2<int>, ghost p: seq<seq<int>>, choices: seq<Pairing>, last: int)
    returns (childIdx: int)
    requires result != pop && result.Length0 == pop.Length0 && result.Length1 == pop.Length1
    requires ValidPairings(choices, last, pop.Length0, pop.Length1)
    requires p == Rows(pop)
    requires forall i, j :: 0 <= i < pop.Length0 && 0 <= j < pop.Length1 ==> result[i, j] == p[i][j]
    modifies result
    ensures 1 <= childIdx && (pop.Length0 >= 1 ==> childIdx == 2 * PairCount(pop.Length0) + 1)
    ensures forall i, j :: 0 <= i < pop.Length0 && 0 <= j < pop.Length1 ==>
      result[i, j] == if 1 <= i < childIdx then BredGene(p, choices, last, pop.Length1, i, j) else p[i][j]
  {
    var n := pop.Length0;
    var m := pop.Length1;
    childIdx := 1;
    while childIdx < n && childIdx + 1 < n
      invariant childIdx % 2 == 1 && 1 <= childIdx && (n >= 1 ==> childIdx <= 2 * PairCount(n) + 1)
      invariant forall i, j :: 0 <= i < n && 0 <= j < m ==>
        result[i, j] == if 1 <= i < childIdx then BredGene(p, choices, last, m, i, j) else p[i][j]
    {
      var k := (childIdx - 1) / 2;
      assert childIdx == 2 * k + 1 && childIdx + 1 == 2 * k + 2;
      BreedPair(result, childIdx, pop, choices[k]);
      forall i, j | 0 <= i < n && 0 <= j < m
        ensures result[i, j] == if 1 <= i < childIdx + 2 then BredGene(p, choices, last, m, i, j) else p[i][j]
      {
        if i == childIdx || i == childIdx + 1 {
          PairDonors(choices, last, n, m, k, j);
        }
      }
      childIdx := childIdx + 2;
    }
    if n >= 1 {
      assert n <= 2 * PairCount(n) + 2;
    }
  }


  /** The elite row survives crossover. */
  lemma BredKeepsElite(p: seq<seq<int>>, choices: seq<Pairing>, last: int, m: int)
    requires ValidPairings(choices, last, |p|, m) && |p| > 0
    requires forall r :: 0 <= r < |p| ==> |p[r]| == m
    ensures forall j :: 0 <= j < m ==> BredGene(p, choices, last, m, 0, j) == p[0][j]
  {
  }

  /** The two children of a pair hold, column by column, the two parents'
      genes: child one takes the first parent's prefix up to the crossover
      point and the second parent's suffix, child two the reverse; without
      crossover they are copies of the parents. */
  lemma ChildrenAreComplementary(p: seq<seq<int>>, choices: seq<Pairing>, last: int, m: int, k: int, j: int)
    requires ValidPairings(choices, last, |p|, m) && forall r :: 0 <= r < |p| ==> |p[r]| == m
    requires 0 <= k < PairCount(|p|) && 0 <= j < m
    ensures var ch := choices[k];
      var swap := ch.crossover && j >= CrossPoint(ch.cut, m);
      BredGene(p, choices, last, m, 2 * k + 1, j) == (if swap then p[ch.second][j] else p[ch.first][j]) &&
      BredGene(p, choices, last, m, 2 * k + 2, j) == (if swap then p[ch.first][j] else p[ch.second][j])
  {
    assert (2 * k + 1 - 1) / 2 == k && (2 * k + 2 - 1) / 2 == k;
    assert (2 * k + 1) % 2 == 1 && (2 * k + 2) % 2 == 0;
  }

  /** On rows of two or more genes a crossover really mixes the parents:
      each child starts like its own parent and ends like the other one. */
  lemma ChildrenMixParents(p: seq<seq<int>>, choices: seq<Pairing>, last: int, m: int, k: int)
    requires ValidPairings(choices, last, |p|, m) && forall r :: 0 <= r < |p| ==> |p[r]| == m
    requires 0 <= k < PairCount(|p|) && m >= 2 && choices[k].crossover
    ensures BredGene(p, choices, last, m, 2 * k + 1, 0) == p[choices[k].first][0]
    ensures BredGene(p, choices, last, m, 2 * k + 1, m - 1) == p[choices[k].second][m - 1]
    ensures BredGene(p, choices, last, m, 2 * k + 2, 0) == p[choices[k].second][0]
    ensures BredGene(p, choices, last, m, 2 * k + 2, m - 1) == p[choices[k].first][m - 1]
  {
    ChildrenAreComplementary(p, choices, last, m, k, 0);
    ChildrenAreComplementary(p, choices, last, m, k, m - 1);
  }

  /** Crossover of move-symbol rows yields move-symbol rows. */
  lemma BredKeepsMoves(p: seq<seq<int>>, choices: seq<Pairing>, last: int, m: int)
    requires ValidPairings(choices, last, |p|, m) && forall r :: 0 <= r < |p| ==> |p[r]| == m
    requires forall r :: 0 <= r < |p| ==> AllMoves(p[r])
    ensures forall i, j :: 0 <= i < |p| && 0 <= j < m ==> IsMove(BredGene(p, choices, last, m, i, j))
  {
  }

  // ---------------------------------------------------------------------
  // Mutation (PopMutee)

  /** The draw for one gene: left alone, or replaced by a symbol. */
  datatype Mutation = Unchanged | Mutate(symbol: int)

  /** One draw per gene, each replacement symbol in [0, 17]. */
  predicate ValidMutations(mutations: seq<seq<Mutation>>, n: int, m: int)
  {
    |mutations| == n &&
    (forall i :: 0 <= i < n ==> |mutations[i]| == m) &&
    (forall i, j :: 0 <= i < n && 0 <= j < m && mutations[i][j].Mutate? ==> IsMove(mutations[i][j].symbol))
  }

  /** Gene (i, j) after mutation: rows from 1 on take their draw. */
  function MutatedGene(p: seq<seq<int>>, mutations: seq<seq<Mutation>>, m: int, i: int, j: int): (g: int)
    requires ValidMutations(mutations, |p|, m) && 0 <= i < |p| && 0 <= j < m
    requires forall r :: 0 <= r < |p| ==> |p[r]| == m
    ensures i == 0 || mutations[i][j] == Unchanged ==> g == p[i][j]
  {
    if i >= 1 && mutations[i][j].Mutate? then mutations[i][j].symbol else p[i][j]
  }

  /** PopMutee: every gene outside row 0 may be replaced by a drawn symbol
      (ExternalFcts.cs:527-545). */
  method PopMutee(pop: array2<int>, mutations: seq<seq<Mutation>>) returns (res: array2<int>)
    requires ValidMutations(mutations, pop.Length0, pop.Length1)
    ensures fresh(res) && res.Length0 == pop.Length0 && res.Length1 == pop.Length1
    ensures forall i, j :: 0 <= i < pop.Length0 && 0 <= j < pop.Length1 ==>
      res[i, j] == MutatedGene(Rows(pop), mutations, pop.Length1, i, j)
  {
    var n := pop.Length0;
    var m := pop.Length1;
    ghost var p := Rows(pop);
    res := Clone2(pop);
    var i := 1;
    while i < n
      invariant 1 <= i
      invariant forall r, j :: 0 <= r < n && 0 <= j < m ==>
        res[r, j] == if r < i then MutatedGene(p, mutations, m, r, j) else p[r][j]
    {
      for j := 0 to m
        invariant forall r, k :: 0 <= r < n && 0 <= k < m ==>
          res[r, k] == if r < i || (r == i && k < j) then MutatedGene(p, mutations, m, r, k) else p[r][k]
      {
        if mutations[i][j].Mutate? {
          res[i, j] := mutations[i][j].symbol;
        }
      }
      i := i + 1;
    }
  }

  /** Mutation writes only move symbols into a population of move symbols. */
  lemma MutatedKeepsMoves(p: seq<seq<int>>, mutations: seq<seq<Mutation>>, m: int)
    requires ValidMutations(mutations, |p|, m) && forall r :: 0 <= r < |p| ==> |p[r]| == m
    requires forall r :: 0 <= r < |p| ==> AllMoves(p[r])
    ensures forall i, j :: 0 <= i < |p| && 0 <= j < m ==> IsMove(MutatedGene(p, mutations, m, i, j))
  {
  }
}
