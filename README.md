# RubikGeneticSolver in Dafny

This project models the core of RubikGeneticSolver, a C# program that solves a
3x3x3 Rubik's cube in three stages, each driven by a genetic search over
fixed-length rows of move symbols:

1. It builds the 2x2x3 block at the best of twelve reorientations ("locations").
2. It gets the cube into the 2-gen group, the states that F and U turns alone can solve.
3. It solves the 2-gen cube, either genetically or by an exhaustive
   iterative-deepening search.

A cube is 54 facelet labels: face `f` holds facelets `9f..9f+8`, with faces
F, U, R, B, D, L numbered 0..5. A move symbol `m` in 0..17 turns face `m % 6`
clockwise `m / 6 + 1` times. So 0..5 are quarter turns, 6..11 half turns and
12..17 inverse turns.

Modules, one per file:

- `CSharpInt` (`csharp_int.dfy`): C#'s truncating `/` and `%`, 32-bit
  wrap-around and `1 << n`.
- `Cube` (`cube.dfy`): the state, `InitCube`, `TurnFace`, `DoMove` and
  `DoSequence`. The methods work on arrays and are proved equal to the
  specification functions `FaceTurned`, `Move` and `Sequence`. Each quarter
  turn is the permutation `QuarterSrc`.
- `Reorient` (`reorient.dfy`): the whole-cube relabelings `TwistCube`,
  `RotateWholeCube` and `RotateWholeCubeX`, and the symbol translation
  `TwistSequence`.
- `Notation` (`notation.dfy`): the printer `ToNotation` and the parser `ToNumbers`.
- `Evaluators` (`evaluators.dfy`): `Compare`, `Entropy`, `Is2x2x3` and `Is2gen`.
- `Objective` (`objective.dfy`): `FObj`, the best prefix of a row under one of
  the four scores, encoded as `(10 * max - cut, cut)`.
- `Trim` (`trim.dfy`): `TrimSequence`, the in-place merging and cancelling of
  adjacent same-face moves, with backfilled random symbols.
- `Population` (`population.dfy`): the genetic operators on a 2-D population.
  These are `ClassementPopulation` (stable ranking), `PopMariee` (crossover)
  and `PopMutee` (mutation).
- `BruteForce` (`bruteforce.dfy`): the depth-limited search `Dfs` and the
  deepening loop of `SolveTwogenBourrin`.
- `Driver` (`driver.dfy`): the pieces of `Program.cs` that decide what the
  stages do:
  - the F/U projection `ToTwoGen` and `GetRow`;
  - the twelve-location reorientation recipe;
  - the location score and the restart test;
  - the two stage success tests;
  - the move total.
- `Generation` (`generation.dfy`): one generation of the genetic loop, in the
  driver's order: projection, trim, evaluation, ranking, intrusion, crossover
  and mutation.

Random draws are explicit inputs. Each generation takes a `Draws` value
holding the trim backfills, the intruders, the crossover pairings and the
mutations, and the contracts state only the ranges of these draws.

The corner twist `TwistCube` (ExternalFcts.cs:671-697) has order 3: three
twists restore any cube (`Reorient.TwistCubeOrder3`).

`Is2gen` compares facelet 13 with itself in its sixth edge check
(ExternalFcts.cs:337), so that check always passes. The model keeps this as
written.

## Model

| member | source | states |
|---|---|---|
| CSharpInt.CsDiv | Program.cs:600 | C# `/` truncates toward zero: for a non-negative dividend q is the largest quotient with q * b <= a, for a negative dividend the smallest with a <= q * b, so q never rounds away from zero |
| CSharpInt.CsRem | Program.cs:600 | C# `%` takes the sign of the dividend: the Euclidean remainder for a non-negative dividend, in (-b, 0] otherwise |
| CSharpInt.CsDivRem | Program.cs:600 | the truncating quotient and remainder recompose the dividend |
| CSharpInt.Wrap32 | ExternalFcts.cs:347 | the result is a 32-bit value congruent to the input modulo 2^32, and unchanged when the input already fits |
| CSharpInt.ShiftOne | ExternalFcts.cs:347 | `1 << n` is 2^n for shift counts 0..30 and the sign bit for 31 |
| Cube.Solved | ExternalFcts.cs:25-32 | every label of the solved state is a face index 0..5 |
| Cube.InitCube | ExternalFcts.cs:25-32 | a fresh 54-facelet array whose facelet p holds p / 9, the solved state |
| Cube.FaceTurnedAt | ExternalFcts.cs:212-226 | the face turn moves the nine facelets of face f by the local quarter rotation and leaves every other facelet alone |
| Cube.TurnFace | ExternalFcts.cs:212-226 | a fresh array holding the face-turned state |
| Cube.RingTurnedAt | ExternalFcts.cs:116-205 | after the ring step, a facelet whose ring source differs from itself holds that source facelet of the previous state, and every other facelet keeps its face-turned value; the turned face itself is not in the ring |
| Cube.TurnRing | ExternalFcts.cs:116-205 | the switch on the face writes exactly the ring permutation of that face |
| Cube.QuarterChainIsTurn | ExternalFcts.cs:109-205 | the face turn followed by the ring step is the single facelet permutation `QuarterSrc` of the face |
| Cube.QuarterSrcOrder4 | ExternalFcts.cs:116-226 | each quarter-turn permutation applied four times is the identity, because it is built from 4-cycles |
| Cube.FourTurnsIdentity | ExternalFcts.cs:101-209 | four quarter turns of one face restore any cube |
| Cube.TurnsMod4 | ExternalFcts.cs:109-206 | only the number of quarter turns modulo 4 matters |
| Cube.MoveTurnCount | ExternalFcts.cs:101-209 | a symbol 0..17 turns face m % 6 exactly m / 6 + 1 times; a symbol above 17 (four turns) leaves the cube unchanged |
| Cube.DoMove | ExternalFcts.cs:101-209 | a fresh array holding the state after the move |
| Cube.InverseMove | ExternalFcts.cs:104-106 | the inverse of a symbol turns the same face with the complementary turn class |
| Cube.MoveThenInverse | ExternalFcts.cs:101-209 | a move followed by its inverse restores the cube |
| Cube.TurnsAdd | ExternalFcts.cs:104-107 | quarter-turn counts on one face add up |
| Cube.DoSequence | ExternalFcts.cs:88-98 | a fresh array holding the left fold of the moves over the cube; a null or empty sequence yields an unchanged copy |
| Cube.SequenceAppend | ExternalFcts.cs:88-98 | applying s then t is applying s + t |
| Cube.InverseSequence | ExternalFcts.cs:88-98 | the inverse sequence has the same length and holds the inverse symbols in reverse order |
| Cube.SequenceThenInverse | ExternalFcts.cs:88-98 | any sequence of move symbols is undone by its inverse sequence |
| Cube.SequenceKeepsLabels | ExternalFcts.cs:88-209 | moves keep every facelet a face label |
| Cube.TurnsKeepLabels | ExternalFcts.cs:212-226 | repeated turns keep every facelet a face label |
| Reorient.TwistCube | ExternalFcts.cs:671-697 | the twist yields a 54-facelet state and keeps labels in 0..5 |
| Reorient.TwistCubeOrder3 | ExternalFcts.cs:671-697 | three twists about the FUR corner are the identity |
| Reorient.RotateWholeCube | ExternalFcts.cs:699-719 | the rotation yields a 54-facelet state and keeps labels in 0..5 |
| Reorient.RotateWholeCubeOrder4 | ExternalFcts.cs:699-719 | four quarter rotations about the vertical axis are the identity |
| Reorient.RotateWholeCubeX | ExternalFcts.cs:721-727 | the L-R axis rotation yields a 54-facelet state and keeps labels in 0..5 |
| Reorient.TurnXAt | ExternalFcts.cs:721-727 | the L-R axis rotation (a twist then three vertical rotations) is the facelet permutation `TurnXSrc` |
| Reorient.RotateWholeCubeXOrder4 | ExternalFcts.cs:721-727 | four L-R axis rotations are the identity |
| Reorient.TwistMove | ExternalFcts.cs:661-666 | a symbol keeps its turn class m / 6 and its face moves along F->U->R->F and B->D->L->B |
| Reorient.TwistSequence | ExternalFcts.cs:655-669 | the result has the same length and holds each symbol translated |
| Reorient.TwistFaceOrder3 | ExternalFcts.cs:661-666 | the face translation has order 3 |
| Reorient.TwistMoveOrder3 | ExternalFcts.cs:661-666 | translating a symbol three times gives it back |
| Reorient.TwistSequenceOrder3 | ExternalFcts.cs:655-669 | translating a sequence three times gives it back |
| Reorient.TwistQuarterTurn | ExternalFcts.cs:655-697 | twisting after a quarter turn of face f equals a quarter turn of the translated face after twisting |
| Reorient.TwistMoveCommutes | ExternalFcts.cs:655-697 | twisting after a move equals the translated move applied to the twisted cube |
| Reorient.TwistSequenceCommutes | ExternalFcts.cs:655-697 | twisting after a sequence equals the translated sequence applied to the twisted cube |
| Notation.ToNotation | ExternalFcts.cs:36-61 | three entries per symbol: entries 3a..3a+2 are the letter, modifier and blank of the a-th symbol |
| Notation.Trim | ExternalFcts.cs:64-85 | the trimmed string is no longer than the input, has no white space at either end, and is empty only when the input is all white space |
| Notation.TrimIsSlice | ExternalFcts.cs:67 | the trimmed string is a slice of the input with only white space before and after it: the input without its leading and trailing white space |
| Notation.UpperChar | ExternalFcts.cs:67 | the result is never a lower-case ASCII letter; a lower-case letter becomes the same letter in upper case and every other character is kept |
| Notation.Upper | ExternalFcts.cs:64-85 | upper-casing keeps the length, leaves no lower-case ASCII letter, and maps each character on its own: a lower-case letter to the same letter in upper case, every other character to itself |
| Notation.UpperIdempotent | ExternalFcts.cs:67 | upper-casing twice is upper-casing once |
| Notation.ToNumbers | ExternalFcts.cs:64-85 | every string parses to a symbol in 0..17 |
| Notation.QuarterTokenRoundTrip | ExternalFcts.cs:36-85 | a face letter followed by a blank parses back to the quarter turn |
| Notation.ModifiedTokenRoundTrip | ExternalFcts.cs:36-85 | a face letter followed by "2" or "'" parses to the half or inverse turn |
| Notation.TokenRoundTrip | ExternalFcts.cs:36-85 | the letter and modifier printed for any symbol 0..17 parse back to it |
| Notation.NotationRoundTrip | ExternalFcts.cs:36-85 | entries 3a and 3a+1 of the printed sequence parse back to its a-th symbol |
| Notation.ParsePrinted | ExternalFcts.cs:36-85 | every symbol of a printed sequence is recovered |
| Notation.TrimUpper | ExternalFcts.cs:64-85 | trimming and upper-casing commute |
| Notation.FaceLetterParses | ExternalFcts.cs:36-85 | each printed face letter is one non-blank character that reads back as its face |
| Notation.ToNumbersIgnoresCase | ExternalFcts.cs:64-85 | parsing ignores letter case |
| Notation.TrimBlankPrefix | ExternalFcts.cs:67 | leading white space of any length does not survive trimming |
| Notation.TrimBlankSuffix | ExternalFcts.cs:67 | trailing white space of any length does not survive trimming |
| Notation.ToNumbersIgnoresBlanks | ExternalFcts.cs:64-85 | any run of white space before and after a token leaves its parse unchanged |
| Notation.UnknownLetterIsFront | ExternalFcts.cs:64-85 | a single unknown letter reads as face F |
| Evaluators.MatchCount | ExternalFcts.cs:228-240 | the count lies in 0..length, and reaches the length exactly when every position agrees (equal, or any face label against a target entry above 5) |
| Evaluators.Compare | ExternalFcts.cs:228-240 | the loop's count equals the agreement count over the 54 facelets |
| Evaluators.FullMatchIffEqual | ExternalFcts.cs:228-240 | against a target of labels 0..5, a full score of 54 means the two states are equal, and only then |
| Evaluators.CornerEdgePairs | ExternalFcts.cs:246-269 | 24 corner-edge checks give a count in 0..24 |
| Evaluators.EdgeCentrePairs | ExternalFcts.cs:272-295 | 24 edge-centre checks give a count in 0..24 |
| Evaluators.Entropy | ExternalFcts.cs:242-298 | the entropy lies in 0..48 |
| Evaluators.Is2x2x3 | ExternalFcts.cs:300-324 | the block score lies in 0..16 |
| Evaluators.SolvedCounts | ExternalFcts.cs:242-324 | the solved cube scores the maxima 48 and 16 |
| Evaluators.BlockWithinEntropy | ExternalFcts.cs:242-324 | every block check is also an entropy check, so the block score is at most the entropy and at least the entropy minus 32 |
| Evaluators.TurnsKeepBlock | ExternalFcts.cs:300-324 | F and U turns never change the D-B-L block score |
| Evaluators.FrontUpSequenceKeepsBlock | ExternalFcts.cs:300-324 | any F/U sequence keeps the block score |
| Evaluators.SameBlockSameScore | ExternalFcts.cs:300-324 | two states that agree on the block facelets have the same block score |
| Evaluators.EdgeChecks | ExternalFcts.cs:332-338 | seven edge-orientation checks give a count in 0..7 |
| Evaluators.Classify | ExternalFcts.cs:356-366 | a corner gets one of the mapping's classes, or the sentinel 9 |
| Evaluators.Is2gen | ExternalFcts.cs:327-392 | the result is 0 or 1, and 1 exactly when all edge checks pass and both corner codes are on the allowed list |
| Evaluators.Is2genNeedsOrientedEdges | ExternalFcts.cs:332-340 | a state judged 2-gen passes each of the six meaningful edge checks |
| Evaluators.CornersInPlaceCode | ExternalFcts.cs:349-387 | when the six corner sums and their references all have the solved values, the code is the mapping's own class code |
| Evaluators.SolvedFirstCode | ExternalFcts.cs:356-368 | the solved cube's first corner code is 12201 |
| Evaluators.SolvedSecondCode | ExternalFcts.cs:375-387 | the solved cube's second corner code is 10212 |
| Evaluators.SolvedIs2gen | ExternalFcts.cs:327-392 | the solved cube is in the 2-gen group |
| Objective.Evaluate | ExternalFcts.cs:412-419 | each score type lies between 0 and its maximum (54, 48, 16, 170; 0 for an unknown type) |
| Objective.SolvedScoresMax | ExternalFcts.cs:412-419 | the solved cube reaches the maximum of every score type |
| Objective.TwoGenScoreMax | ExternalFcts.cs:417 | the type-4 score is 170 exactly when the state is 2-gen with a complete block |
| Objective.PrefixScores | ExternalFcts.cs:409-419 | entry i is the score of the state after the first i + 1 moves |
| Objective.RunningBest | ExternalFcts.cs:405-428 | the best is at least every prefix score; the cut is 0 exactly when no prefix scores above 0; otherwise the cut's prefix reaches the best and every earlier prefix scores strictly less |
| Objective.Fitness | ExternalFcts.cs:428-430 | the pair's second entry is the cut and the two entries sum to ten times the best |
| Objective.Score | ExternalFcts.cs:412-419 | the switch computes the score of the chosen type |
| Objective.BestPrefix | ExternalFcts.cs:405-428 | the loop's (nmax, x) is the running best over all prefix scores |
| Objective.FObj | ExternalFcts.cs:395-431 | a fresh pair equal to the fitness of the best prefix; (0, 0) for a null or empty sequence |
| Objective.UnknownTypeScoresZero | ExternalFcts.cs:412-419 | an unknown score type always gives (0, 0) |
| Objective.FitnessShape | ExternalFcts.cs:395-431 | the cut lies in 0..length; cut 0 gives score 0; otherwise score + cut is ten times the score of the cut's prefix |
| Trim.Apply | ExternalFcts.cs:564-647 | a rewrite keeps the length and every position before the pair, and the freed tail slots hold the next draws |
| Trim.Scan | ExternalFcts.cs:558-649 | the scan stops at the first pair that a rule rewrites, or at the end when no pair is rewritten |
| Trim.ScanSettled | ExternalFcts.cs:558-649 | the scan runs off the end exactly when no adjacent pair is rewritten |
| Trim.Trimmed | ExternalFcts.cs:548-653 | trimming keeps the row length |
| Trim.Rewrites | ExternalFcts.cs:555-650 | trimming performs at most fuel rewrites |
| Trim.RemovePair | ExternalFcts.cs:568-570 | the in-place shift by two with two draws is the cancel rewrite |
| Trim.ReplacePair | ExternalFcts.cs:580-582 | the in-place replacement and shift by one with one draw is the merge rewrite |
| Trim.Pass | ExternalFcts.cs:557-650 | one pass changes the array exactly when some pair is rewritten, and then performs the first rewrite |
| Trim.TrimPass | ExternalFcts.cs:555-650 | after one pass, either the array is the trimmed row or the remaining passes on the remaining draws still lead to it |
| Trim.TrimSequence | ExternalFcts.cs:548-653 | a fresh array holding the trimmed row; a null input gives an empty array |
| Trim.RuleCoversSameFace | ExternalFcts.cs:560-648 | for symbols 0..17 the rules rewrite a pair exactly when both turn the same face, so all nine turn-class pairs are covered |
| Trim.RuleKeepsTurnCount | ExternalFcts.cs:560-648 | a same-face pair cancels exactly when its quarter-turn count is 0 mod 4; otherwise it merges into a symbol on the same face whose count is the pair's sum mod 4 |
| Trim.RuleSound | ExternalFcts.cs:560-648 | a cancelled pair leaves the cube unchanged, and a merged pair acts as its single replacement symbol |
| Trim.ApplySound | ExternalFcts.cs:560-648 | the rewritten row, without its freed tail, reaches the same state as the original row from any cube |
| Trim.SettledHasNoSameFacePair | ExternalFcts.cs:558-650 | a settled row has no two adjacent moves on the same face |
| Trim.TrimmedSettlesOrRunsOut | ExternalFcts.cs:555-650 | the trimmed row is settled unless the rewrites used up the fuel |
| Trim.TrimmedFixedPoint | ExternalFcts.cs:555-650 | a settled row is returned unchanged, with no rewrite |
| Trim.ApplyKeepsMoves | ExternalFcts.cs:560-648 | a rewrite with backfills in 0..17 keeps every symbol in 0..17 |
| Trim.TrimmedKeepsMoves | ExternalFcts.cs:548-653 | trimming a row of symbols 0..17 gives a row of symbols 0..17 |
| Population.InsertByScore | ExternalFcts.cs:438-442 | insertion adds the index to the valid index list, and nothing else |
| Population.InsertKeepsRanked | ExternalFcts.cs:438-442 | inserting the highest index so far keeps the order descending by key, ties by index, without repeats |
| Population.RankOrder | ExternalFcts.cs:438-442 | the order has one valid row index per key |
| Population.RankOrderIsStableSort | ExternalFcts.cs:438-442 | the order is a permutation of the indices, descending by key, with ties kept in input order |
| Population.RankOrderBestFirst | ExternalFcts.cs:438-442 | the first index has the highest key |
| Population.ClassementPopulation | ExternalFcts.cs:434-452 | output row i is input row RankOrder[i] |
| Population.Donor | ExternalFcts.cs:468-521 | every gene of the new population is copied from some input row |
| Population.BreedPair | ExternalFcts.cs:473-513 | the two children take their own parent's genes before the crossover point and the other parent's from it on, or copy their parents when there is no crossover; other rows stay |
| Population.BreedPairs | ExternalFcts.cs:470-514 | the loop fills rows 1 .. 2*PairCount with the children of the successive pairings and leaves the rest as in the input |
| Population.PopMariee | ExternalFcts.cs:455-524 | a fresh array of the same shape whose gene (i, j) is column j of the input row chosen by the draws |
| Population.BredKeepsElite | ExternalFcts.cs:468-470 | crossover leaves row 0 as in the input |
| Population.ChildrenAreComplementary | ExternalFcts.cs:494-511 | at each column the two children of a pair hold the two parents' genes, swapped from the crossover point on |
| Population.ChildrenMixParents | ExternalFcts.cs:490-502 | on rows of two or more genes, each crossover child starts with its own parent's first gene and ends with the other parent's last gene |
| Population.BredKeepsMoves | ExternalFcts.cs:455-524 | crossover of rows of symbols 0..17 gives rows of symbols 0..17 |
| Population.MutatedGene | ExternalFcts.cs:533-541 | row 0 and every gene not drawn for mutation keep their input value |
| Population.PopMutee | ExternalFcts.cs:527-545 | a fresh array of the same shape holding the mutated genes |
| Population.MutatedKeepsMoves | ExternalFcts.cs:539 | mutation writes only symbols 0..17 |
| BruteForce.PrunedNoRepeat | ExternalFcts.cs:760-763 | a pruned sequence uses only F/U symbols and never turns the same face twice in a row |
| BruteForce.DfsSound | ExternalFcts.cs:748-772 | a sequence the search returns is within the depth, pruned, and reaches the target |
| BruteForce.TryMovesSound | ExternalFcts.cs:760-771 | the same for the loop over the six allowed symbols |
| BruteForce.DfsComplete | ExternalFcts.cs:748-772 | when some pruned sequence within the depth reaches the target, the search finds one |
| BruteForce.TryMovesComplete | ExternalFcts.cs:760-771 | the loop reaches the symbol that starts a solving sequence and succeeds there |
| BruteForce.FirstMoveSucceeds | ExternalFcts.cs:760-771 | when a pruned sequence solves the cube, its first move is allowed after the previous face and the search below it succeeds |
| BruteForce.DeepeningFindsFullLength | ExternalFcts.cs:775-784 | at the first depth that succeeds, the solution has exactly that length |
| BruteForce.SolutionIsShortest | ExternalFcts.cs:775-784 | the first solution found solves the cube, and no shorter pruned sequence does |
| BruteForce.AlreadySolved | ExternalFcts.cs:751-756 | a cube already at the target is solved at depth 0 with no move |
| BruteForce.SolveTwogenBourrin | ExternalFcts.cs:732-784 | no search on null input; otherwise found exactly when some depth 0..20 succeeds, and then the solution is the search result at the first such depth |
| Driver.ToTwoGen | Program.cs:592-602 | a fresh array of the same shape whose every gene is projected onto the F/U symbols |
| Driver.TwoGenSymbolLands | Program.cs:600 | a symbol 0..17 lands among the search's six F/U symbols, keeps its turn class, and takes face m % 2 |
| Driver.TwoGenSymbolFixesTwoGen | Program.cs:600 | F/U symbols are left unchanged |
| Driver.TwoGenSymbolIdempotent | Program.cs:600 | projecting twice is projecting once, for any integer under C# arithmetic |
| Driver.GetRow | Program.cs:584-590 | a fresh array of the row length holding the row |
| Driver.RotateTimes | Program.cs:163-167 | the loop applies loc / 3 vertical rotations |
| Driver.RotateXTwice | Program.cs:175-179 | the loop applies two L-R rotations |
| Driver.Orient | Program.cs:160-182 | the state built for a location is its reorientation of the scramble copy |
| Driver.RotatedTimesAdd | Program.cs:163-167 | rotation counts add up |
| Driver.RotatedFour | Program.cs:163-167 | four rotations are no rotation |
| Driver.OrientedUndone | Program.cs:160-182 | every location's reorientation can be undone, so no location loses the scramble |
| Driver.OrientedKeepsLabels | Program.cs:160-182 | reorienting keeps every facelet a face label |
| Driver.RotatedTimesKeepsLabels | Program.cs:163-167 | any number of vertical rotations keeps every facelet a face label |
| Driver.LocationScoreOf | Program.cs:269 | for a pair whose sum is ten times a block score, the location score is minus the cut minus 100 per missing block point, and at least -20 exactly when the block is complete within 20 moves |
| Driver.LocationScoreMeaning | Program.cs:269 | on the type-3 fitness pair: cut 0 scores -1600; otherwise the score is minus the cut minus 100 per block point missing after the cut prefix; and the score is at least -20 exactly when the block is complete within 20 moves |
| Driver.RestartIffAllBelow | Program.cs:285-291 | the first of the ranked location scores is below -20 exactly when all are |
| Driver.RestartMeaning | Program.cs:269-291 | the sweep restarts exactly when no location's elite completes the block within 20 moves |
| Driver.IntoTwoGenDoneMeaning | Program.cs:436 | a pair sum of 1700 means the best prefix is non-empty and ends 2-gen with a complete block |
| Driver.TwoGenSolvedMeaning | Program.cs:547 | a pair sum of 480 (48.0 after dividing by ten) means the best prefix is non-empty and reaches the entropy maximum 48 |
| Driver.AccountMoves | Program.cs:439-447 | the final cube applies the stage-1 prefix and, only when its cut exceeds 1, the stage-2 prefix; moves_total counts those moves plus the stage-3 cut |
| Generation.Keys | Program.cs:216-229 | key i is the score entry of the fitness pair of row i |
| Generation.ProjectedKeepsMoves | Program.cs:205 | the projection keeps every gene a symbol 0..17 |
| Generation.ToTwoGenHolds | Program.cs:205 | the projected array holds the projected rows |
| Generation.TrimRow | Program.cs:209-213 | row i becomes the trimmed row and the other rows stay |
| Generation.TrimPopulation | Program.cs:207-214 | the population holds the trimmed rows |
| Generation.TrimmedRowsKeepMoves | Program.cs:207-214 | trimming keeps every gene a symbol 0..17 |
| Generation.EvaluateRow | Program.cs:218-223 | row i's fitness pair is FObj of the row and the other pairs stay |
| Generation.EvaluatePopulation | Program.cs:216-224 | a fresh array with every row's fitness pair |
| Generation.FirstColumn | Program.cs:227-229 | the key array is the first column of the fitness pairs |
| Generation.Intrude | Program.cs:239-247 | only the last nIntrus rows are overwritten, with the drawn intruders |
| Generation.OffspringKeepsMovesAndElite | Program.cs:239-250 | intrusion, crossover and mutation keep every gene a symbol 0..17; when fewer intruders than rows are drawn, the ranked elite stays row 0 |
| Generation.Reproduce | Program.cs:239-250 | the new population holds the intruded, crossed and mutated rows |
| Generation.Prepared | Program.cs:205-214 | projection and trim keep the shape and the symbol range |
| Generation.RankedFitnessBestFirst | Program.cs:226-232 | after ranking, no row scores above the first fitness pair |
| Generation.Select | Program.cs:205-232 | the rows are projected, trimmed, evaluated and ranked, with rows and fitness pairs in the same order |
| Generation.NextGenerationBestFirst | Program.cs:203-251 | after a generation no prepared row scores above the first fitness pair |
| Generation.NextGenerationKeepsElite | Program.cs:203-251 | when fewer intruders than rows are drawn, the best-ranked prepared row survives as row 0 of the new population, and the first fitness pair is its score |
| Generation.NextGenerationKeepsMoves | Program.cs:203-251 | every gene of the new population is a symbol 0..17 |
| Generation.Generation | Program.cs:203-251 | one generation yields the ranked fitness pairs and the population bred from the ranked rows |

## Left out

- Null arrays on most paths. `ToNotation(null)` returns an empty array (ExternalFcts.cs:38), but `Notation.ToNotation` takes a sequence. A null cube makes `DoSequence` throw `ArgumentNullException` (ExternalFcts.cs:89), and `DoMove`, `TurnFace`, `Compare`, `FObj` and the population operators dereference their arrays; the model's non-null array parameters rule these paths out. Only the null move sequence of `DoSequence`, `FObj` and `TrimSequence` and the null inputs of `SolveTwogenBourrin` are modelled.
- Console output, `Console.ReadLine`, the writes to `results.txt` and the
  reading of the scramble file. This is I/O; the model keeps the values that
  would be printed.
- The random number generator, its seeding, and the floating-point
  distributions: the rank weights `pi[]` and the rejection test in
  `PopMariee`, the `pc` and `pm` comparisons and the `0.9999` scaling. Every
  draw is an input, and only its range is stated.
- Population.PopMariee: the `phi`, `pc` and `perfo` parameters are dropped,
  because they only shape probabilities and `perfo` is never read. With no
  column at all, a crossover is excluded by the draws' precondition.
- The logging averages over `perfo` and the generation counters.
- Trim.TrimSequence: the `do ... while (changed)` loop has no bound in the
  source, because the random backfill can create new pairs. The model bounds
  it by `fuel` rewrites and proves settledness only when the fuel is not
  used up.
- The open-ended driver loops are modelled only through their exit tests
  (`Driver.Restart`, `Driver.IntoTwoGenDone`, `Driver.TwoGenSolved`). These
  loops are the twelve-location restart, the growth of `Ttot`, and the 2-gen
  retry. Their termination depends on the random draws.
- Cube.DoMove: negative symbols are excluded. In C#, `move % 6` is then
  negative and `TurnFace` indexes outside the array.
- Evaluators.Compare: requires arrays of at least 54 entries; shorter arrays
  make the source throw.
- Population.ClassementPopulation: requires one key per row; other lengths
  make the source throw or index out of range.
- BruteForce.Dfs is a pure function returning the solution. The source
  instead writes into the captured `currentSeq`, `found` and `foundDepth`;
  the values are the same.
- Driver.AccountMoves: the stage-3 cut is an input. When the exhaustive
  search solves stage 3 it does not add to `moves_total`, as in the source.
- Generation.Generation: takes the population's rows as a ghost argument
  equal to the array's contents. The driver's cube is a value (`seq`), not
  the reassigned array.
- `ParseInt`, culture-aware upper-casing and white space beyond ASCII.
- `RandomInt`, `InitRandomSeed` and the printing and file output of
  `SolveTwogenBourrin` after the search.
