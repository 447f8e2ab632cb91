/** The greedy line diff behind anchor relocation: a furthest-reaching search
    over edit distances, and the backtrack that turns its trace into pairs of
    equal lines. */
module Myers {

  /** One-based positions of two lines that normalise to the same text. */
  datatype LinePair = LinePair(oldLine: int, newLine: int)

  /** Line text after normalisation; only its equality is used. */
  type Text(==)

  /** The normalised lines of two versions of one file. */
  datatype Files = Files(a: seq<Text>, b: seq<Text>)

  ghost predicate InGrid(f: Files, x: int, y: int) {
    0 <= x <= |f.a| && 0 <= y <= |f.b|
  }

  /** The lines at zero-based positions `x` and `y` exist and are equal. */
  predicate SameLine(f: Files, x: int, y: int) {
    0 <= x < |f.a| && 0 <= y < |f.b| && f.a[x] == f.b[y]
  }

  // ---------------------------------------------------------------------
  // Reference definitions, independent of the search
  // ---------------------------------------------------------------------

  /** One step of an edit script that reads both files from the top. */
  datatype Edit = Keep | Delete | Insert

  /** `script` rewrites the first `x` old lines into the first `y` new lines. */
  ghost predicate Rewrites(f: Files, x: int, y: int, script: seq<Edit>)
    decreases |script|
  {
    if script == [] then x == 0 && y == 0
    else
      var rest := script[..|script| - 1];
      match script[|script| - 1]
      case Keep => SameLine(f, x - 1, y - 1) && Rewrites(f, x - 1, y - 1, rest)
      case Delete => 0 < x <= |f.a| && Rewrites(f, x - 1, y, rest)
      case Insert => 0 < y <= |f.b| && Rewrites(f, x, y - 1, rest)
  }

  /** Insertions plus deletions. */
  ghost function Cost(script: seq<Edit>): nat {
    if script == [] then 0
    else Cost(script[..|script| - 1]) + if script[|script| - 1] == Keep then 0 else 1
  }

  /** `pairs` is a common subsequence of the first `x` and the first `y` lines. */
  ghost predicate CommonSubsequence(f: Files, x: int, y: int, pairs: seq<LinePair>) {
    && (forall i :: 0 <= i < |pairs| ==>
          && 1 <= pairs[i].oldLine <= x && 1 <= pairs[i].newLine <= y
          && SameLine(f, pairs[i].oldLine - 1, pairs[i].newLine - 1))
    && (forall i, j :: 0 <= i < j < |pairs| ==>
          pairs[i].oldLine < pairs[j].oldLine && pairs[i].newLine < pairs[j].newLine)
  }

  function Min(x: int, y: int): int { if x <= y then x else y }

  /** The least number of insertions plus deletions, as a recurrence. */
  ghost function Distance(f: Files, x: int, y: int): nat
    requires InGrid(f, x, y)
    decreases x + y
  {
    if x == 0 then y
    else if y == 0 then x
    else
      var edit := 1 + Min(Distance(f, x - 1, y), Distance(f, x, y - 1));
      if SameLine(f, x - 1, y - 1) then Min(edit, Distance(f, x - 1, y - 1)) else edit
  }

  /** Distance is at least the diagonal offset and at most the total length. */
  lemma {:induction false} DistanceBounds(f: Files, x: int, y: int)
    requires InGrid(f, x, y)
    ensures x - y <= Distance(f, x, y) && y - x <= Distance(f, x, y)
    ensures Distance(f, x, y) <= x + y
    decreases x + y
  {
    hide SameLine;
    if x > 0 && y > 0 {
      DistanceBounds(f, x - 1, y);
      DistanceBounds(f, x, y - 1);
      DistanceBounds(f, x - 1, y - 1);
    }
  }

  /** No script is cheaper than `Distance`. */
  lemma {:induction false} DistanceIsALowerBound(f: Files, x: int, y: int, script: seq<Edit>)
    requires InGrid(f, x, y) && Rewrites(f, x, y, script)
    ensures Distance(f, x, y) <= Cost(script)
    decreases |script|
  {
    if script != [] {
      var rest := script[..|script| - 1];
      match script[|script| - 1]
      case Keep => DistanceIsALowerBound(f, x - 1, y - 1, rest);
      case Delete => DistanceIsALowerBound(f, x - 1, y, rest);
      case Insert => DistanceIsALowerBound(f, x, y - 1, rest);
    }
  }

  /** Some script costs exactly `Distance`. */
  lemma {:induction false} DistanceIsAttained(f: Files, x: int, y: int) returns (script: seq<Edit>)
    requires InGrid(f, x, y)
    ensures Rewrites(f, x, y, script) && Cost(script) == Distance(f, x, y)
    decreases x + y
  {
    var step: Edit;
    if x == 0 && y == 0 {
      return [];
    } else if x > 0 && Distance(f, x, y) == 1 + Distance(f, x - 1, y) {
      script := DistanceIsAttained(f, x - 1, y);
      step := Delete;
    } else if y > 0 && Distance(f, x, y) == 1 + Distance(f, x, y - 1) {
      script := DistanceIsAttained(f, x, y - 1);
      step := Insert;
    } else {
      script := DistanceIsAttained(f, x - 1, y - 1);
      step := Keep;
    }
    assert (script + [step])[..|script|] == script;
    script := script + [step];
  }

  /** The same notion read off from the last pair. */
  ghost predicate Chain(f: Files, x: int, y: int, pairs: seq<LinePair>)
    decreases |pairs|
  {
    pairs == [] ||
    (var last := pairs[|pairs| - 1];
     && 1 <= last.oldLine <= x && 1 <= last.newLine <= y
     && SameLine(f, last.oldLine - 1, last.newLine - 1)
     && Chain(f, last.oldLine - 1, last.newLine - 1, pairs[..|pairs| - 1]))
  }

  lemma {:induction false} ChainIffCommonSubsequence(f: Files, x: int, y: int, pairs: seq<LinePair>)
    ensures Chain(f, x, y, pairs) <==> CommonSubsequence(f, x, y, pairs)
    decreases |pairs|
  {
    if pairs != [] {
      var n := |pairs| - 1;
      ChainIffCommonSubsequence(f, pairs[n].oldLine - 1, pairs[n].newLine - 1, pairs[..n]);
      SplitLast(f, x, y, pairs);
    }
  }

  lemma SplitLast(f: Files, x: int, y: int, pairs: seq<LinePair>)
    requires pairs != []
    ensures var last := pairs[|pairs| - 1];
            CommonSubsequence(f, x, y, pairs) <==>
            && 1 <= last.oldLine <= x && 1 <= last.newLine <= y
            && SameLine(f, last.oldLine - 1, last.newLine - 1)
            && CommonSubsequence(f, last.oldLine - 1, last.newLine - 1, pairs[..|pairs| - 1])
  {
    hide SameLine;
    var n := |pairs| - 1;
    var rest := pairs[..n];
    assert forall i :: 0 <= i < n ==> rest[i] == pairs[i];
  }

  /** Every common subsequence leaves at least `Distance` lines unmatched, so
      one that leaves exactly that many is a longest one. */
  lemma {:induction false} ChainBound(f: Files, x: int, y: int, pairs: seq<LinePair>)
    requires InGrid(f, x, y) && Chain(f, x, y, pairs)
    ensures 2 * |pairs| + Distance(f, x, y) <= x + y
    decreases x + y
  {
    hide SameLine;
    if pairs == [] {
      DistanceBounds(f, x, y);
    } else {
      var last := pairs[|pairs| - 1];
      if last.oldLine < x {
        ChainBound(f, x - 1, y, pairs);
      } else if last.newLine < y {
        ChainBound(f, x, y - 1, pairs);
      } else {
        ChainBound(f, x - 1, y - 1, pairs[..|pairs| - 1]);
      }
    }
  }

  /** How many lines a cheapest script keeps: distance has the parity of the
      total length, because what is left pairs up. */
  ghost function Kept(f: Files, x: int, y: int): (kept: nat)
    requires InGrid(f, x, y)
    ensures x + y == Distance(f, x, y) + 2 * kept
    decreases x + y
  {
    if x == 0 || y == 0 then 0
    else if Distance(f, x, y) == 1 + Distance(f, x - 1, y) then Kept(f, x - 1, y)
    else if Distance(f, x, y) == 1 + Distance(f, x, y - 1) then Kept(f, x, y - 1)
    else 1 + Kept(f, x - 1, y - 1)
  }

  // ---------------------------------------------------------------------
  // The furthest-reaching frontier
  // ---------------------------------------------------------------------

  /** The j-th diagonal probed at distance `d`. */
  function Diagonal(d: int, j: int): int { 2 * j - d }

  /** Follow equal lines down a diagonal. */
  ghost function Slide(f: Files, x: nat, y: nat): (r: nat)
    ensures r >= x && !SameLine(f, r, y + r - x)
    decreases |f.a| - x
  {
    if SameLine(f, x, y) then Slide(f, x + 1, y + 1) else x
  }

  function Max(x: int, y: int): int { if x >= y then x else y }

  /** Where a probe stands after its one edit and before its slide: the better
      of an insertion from the diagonal above and a deletion from the one below.
      The outermost diagonals have one neighbour only. */
  function Probe(d: nat, j: nat, above: nat, below: nat): nat
    requires j <= d
  {
    if d == 0 then 0
    else if j == 0 then above
    else if j == d then below + 1
    else Max(above, below + 1)
  }

  ghost function ProbeStart(f: Files, d: nat, j: nat): (x: nat)
    requires j <= d
    ensures x >= Diagonal(d, j)
    decreases d, 0
  {
    Probe(d, j, if j < d then Furthest(f, d - 1, j) else 0, if 0 < j then Furthest(f, d - 1, j - 1) else 0)
  }

  /** How far down the old file the j-th diagonal gets with `d` edits. */
  ghost function Furthest(f: Files, d: nat, j: nat): (x: nat)
    requires j <= d
    ensures x >= Diagonal(d, j)
    decreases d, 1
  {
    Slide(f, ProbeStart(f, d, j), ProbeStart(f, d, j) - Diagonal(d, j))
  }

  /** Distance on the unbounded grid a probe may overrun into: lines past the
      end of a file cost one edit each. */
  ghost function OpenDistance(f: Files, x: nat, y: nat): nat {
    var x' := Min(x, |f.a|);
    var y' := Min(y, |f.b|);
    Distance(f, x', y') + (x - x') + (y - y')
  }

  /** The point on diagonal `k` at old line `x` is within `d` edits. */
  ghost predicate Within(f: Files, x: nat, k: int, d: nat) {
    x >= k && OpenDistance(f, x, x - k) <= d
  }

  lemma OriginIsFree(f: Files)
    ensures Within(f, 0, Diagonal(0, 0), 0)
  {
  }

  lemma InsertionCostsOne(f: Files, d: nat, j: nat, x: nat)
    requires j < d && Within(f, x, Diagonal(d - 1, j), d - 1)
    ensures Within(f, x, Diagonal(d, j), d)
  {
  }

  lemma DeletionCostsOne(f: Files, d: nat, j: nat, x: nat)
    requires 0 < j <= d && Within(f, x, Diagonal(d - 1, j - 1), d - 1)
    ensures Within(f, x + 1, Diagonal(d, j), d)
  {
    assert Diagonal(d, j) == Diagonal(d - 1, j - 1) + 1;
  }

  lemma {:induction false} SlideIsFree(f: Files, x: nat, k: int, d: nat)
    requires Within(f, x, k, d)
    ensures Within(f, Slide(f, x, x - k), k, d)
    decreases |f.a| - x
  {
    if SameLine(f, x, x - k) {
      SlideIsFree(f, x + 1, k, d);
    }
  }

  /** Soundness: a probe at distance `d` really is within `d` edits. */
  lemma {:induction false} FurthestIsReachable(f: Files, d: nat, j: nat)
    requires j <= d
    ensures Within(f, Furthest(f, d, j), Diagonal(d, j), d)
    decreases d
  {
    ProbeIsReachable(f, d, j);
    hide Within, Diagonal;
    SlideIsFree(f, ProbeStart(f, d, j), Diagonal(d, j), d);
  }

  lemma {:induction false} ProbeIsReachable(f: Files, d: nat, j: nat)
    requires j <= d
    ensures Within(f, ProbeStart(f, d, j), Diagonal(d, j), d)
    decreases d, 0
  {
    hide Within, Diagonal, Furthest;
    if d == 0 { OriginIsFree(f); }
    if j < d {
      FurthestIsReachable(f, d - 1, j);
      InsertionCostsOne(f, d, j, Furthest(f, d - 1, j));
    }
    if 0 < j {
      FurthestIsReachable(f, d - 1, j - 1);
      DeletionCostsOne(f, d, j, Furthest(f, d - 1, j - 1));
    }
  }

  ghost predicate MatchIsLast(f: Files, x: int, y: int)
    requires InGrid(f, x, y)
  {
    x > 0 && y > 0 && SameLine(f, x - 1, y - 1) && Distance(f, x, y) == Distance(f, x - 1, y - 1)
  }

  /** Whatever the point, its last step is a match or one edit. */
  lemma LastStep(f: Files, x: int, y: int)
    requires InGrid(f, x, y) && (x > 0 || y > 0)
    ensures MatchIsLast(f, x, y)
         || (x > 0 && Distance(f, x, y) == 1 + Distance(f, x - 1, y))
         || (y > 0 && Distance(f, x, y) == 1 + Distance(f, x, y - 1))
  {
  }

  /** A frontier is past everything its two neighbours reach in one more edit. */
  lemma FrontierPassesNeighbours(f: Files, d: nat, j: nat)
    requires j <= d
    ensures j < d ==> Furthest(f, d - 1, j) <= Furthest(f, d, j)
    ensures 0 < j ==> Furthest(f, d - 1, j - 1) < Furthest(f, d, j)
  {
  }

  /** A frontier stops at no match. */
  lemma FrontierIsMaximal(f: Files, d: nat, j: nat)
    requires j <= d
    ensures !SameLine(f, Furthest(f, d, j), Furthest(f, d, j) - Diagonal(d, j))
  {
  }

  /** Completeness: no grid point within `d` edits lies beyond the frontier. */
  lemma {:induction false} FrontierIsComplete(f: Files, d: nat, j: nat, x: int, y: int)
    requires j <= d && InGrid(f, x, y) && x - y == Diagonal(d, j) && Distance(f, x, y) <= d
    ensures x <= Furthest(f, d, j)
    decreases d, x + y
  {
    hide Distance, Furthest, SameLine, Diagonal;
    if x > 0 || y > 0 {
      LastStep(f, x, y);
      FrontierPassesNeighbours(f, d, j);
      if MatchIsLast(f, x, y) {
        FrontierIsComplete(f, d, j, x - 1, y - 1);
        FrontierIsMaximal(f, d, j);
      } else if x > 0 && Distance(f, x, y) == 1 + Distance(f, x - 1, y) {
        DeletionComesFromBelow(f, d, j, x, y);
        FrontierIsComplete(f, d - 1, j - 1, x - 1, y);
      } else {
        InsertionComesFromAbove(f, d, j, x, y);
        FrontierIsComplete(f, d - 1, j, x, y - 1);
      }
    }
  }

  lemma DeletionComesFromBelow(f: Files, d: nat, j: nat, x: int, y: int)
    requires InGrid(f, x - 1, y) && j <= d && x - y == Diagonal(d, j) && Distance(f, x - 1, y) < d
    ensures 0 < j && x - 1 - y == Diagonal(d - 1, j - 1)
  {
    DistanceBounds(f, x - 1, y);
  }

  lemma InsertionComesFromAbove(f: Files, d: nat, j: nat, x: int, y: int)
    requires InGrid(f, x, y - 1) && j <= d && x - y == Diagonal(d, j) && Distance(f, x, y - 1) < d
    ensures j < d && x - (y - 1) == Diagonal(d - 1, j)
  {
    DistanceBounds(f, x, y - 1);
  }

  // ---------------------------------------------------------------------
  // Where the search stops
  // ---------------------------------------------------------------------

  /** The stopping test of the search: both files are used up, or overrun. */
  ghost predicate Exhausted(f: Files, d: nat, j: nat)
    requires j <= d
  {
    Furthest(f, d, j) >= |f.a| && Furthest(f, d, j) - Diagonal(d, j) >= |f.b|
  }

  ghost function CornerDistance(f: Files): nat {
    Distance(f, |f.a|, |f.b|)
  }

  /** The index, at the corner's distance, of the diagonal through the corner. */
  ghost function CornerIndex(f: Files): (j: nat)
    ensures j <= CornerDistance(f) && Diagonal(CornerDistance(f), j) == |f.a| - |f.b|
  {
    DistanceBounds(f, |f.a|, |f.b|);
    |f.a| - Kept(f, |f.a|, |f.b|)
  }

  /** The search cannot run past the corner's distance... */
  lemma CornerIsReached(f: Files)
    ensures Exhausted(f, CornerDistance(f), CornerIndex(f))
  {
    hide Furthest, SameLine;
    FrontierIsComplete(f, CornerDistance(f), CornerIndex(f), |f.a|, |f.b|);
  }

  /** ...and up to that distance an exhausted probe is exactly at the corner,
      although probes may leave the grid. */
  lemma ExhaustedAtTheCorner(f: Files, d: nat, j: nat)
    requires j <= d <= CornerDistance(f) && Exhausted(f, d, j)
    ensures d == CornerDistance(f) && j == CornerIndex(f) && Furthest(f, d, j) == |f.a|
  {
    FurthestIsReachable(f, d, j);
  }

  // ---------------------------------------------------------------------
  // The pairs a trace gives
  // ---------------------------------------------------------------------

  /** The pairs of a slide along diagonal `k` from old line `x` to `x'`. */
  function SlidePairs(k: int, x: int, x': int): (pairs: seq<LinePair>)
    requires x <= x'
    ensures |pairs| == x' - x
    decreases x' - x
  {
    if x == x' then [] else [LinePair(x + 1, x + 1 - k)] + SlidePairs(k, x + 1, x')
  }

  ghost predicate TakesInsertion(f: Files, d: nat, j: nat)
    requires 0 < d && j <= d
  {
    j == 0 || (j != d && Furthest(f, d - 1, j - 1) < Furthest(f, d - 1, j))
  }

  /** The index, one distance back, of the diagonal a probe came from. */
  ghost function Previous(f: Files, d: nat, j: nat): (p: nat)
    requires 0 < d && j <= d
    ensures p <= d - 1
  {
    if TakesInsertion(f, d, j) then j else j - 1
  }

  /** The pairs of every slide up to a frontier point, save the first one. */
  ghost function Emitted(f: Files, d: nat, j: nat): seq<LinePair>
    requires j <= d
    decreases d
  {
    if d == 0 then []
    else Emitted(f, d - 1, Previous(f, d, j)) + SlidePairs(Diagonal(d, j), ProbeStart(f, d, j), Furthest(f, d, j))
  }

  /** What the line diff of two files returns. */
  ghost function LineDiff(f: Files): seq<LinePair> {
    if f.a == [] || f.b == [] then [] else Emitted(f, CornerDistance(f), CornerIndex(f))
  }

  /** The pairs of the leading common lines, which no line diff contains. */
  ghost function LeadingPairs(f: Files): seq<LinePair> {
    SlidePairs(0, 0, Furthest(f, 0, 0))
  }

  lemma ChainExtends(f: Files, x: nat, y: nat, pairs: seq<LinePair>)
    requires Chain(f, x, y, pairs) && SameLine(f, x, y)
    ensures Chain(f, x + 1, y + 1, pairs + [LinePair(x + 1, y + 1)])
  {
    hide SameLine;
    assert (pairs + [LinePair(x + 1, y + 1)])[..|pairs|] == pairs;
  }

  lemma Regroup(pairs: seq<LinePair>, pair: LinePair, more: seq<LinePair>)
    ensures pairs + ([pair] + more) == (pairs + [pair]) + more
  {
  }

  /** A slide extends a common subsequence. */
  lemma {:induction false} SlideExtends(f: Files, x: nat, k: int, pairs: seq<LinePair>)
    requires x >= k && Chain(f, x, x - k, pairs)
    ensures var x' := Slide(f, x, x - k);
            Chain(f, x', x' - k, pairs + SlidePairs(k, x, x'))
    decreases |f.a| - x
  {
    hide Chain;
    var x' := Slide(f, x, x - k);
    if SameLine(f, x, x - k) {
      var pair := LinePair(x + 1, x + 1 - k);
      ChainExtends(f, x, x - k, pairs);
      SlideExtends(f, x + 1, k, pairs + [pair]);
      Regroup(pairs, pair, SlidePairs(k, x + 1, x'));
    } else {
      assert pairs + [] == pairs;
    }
  }

  /** `pairs` aligns the point of diagonal `k` at old line `x` with `d` edits. */
  ghost predicate Aligns(f: Files, x: nat, k: int, d: nat, pairs: seq<LinePair>) {
    x >= k && Chain(f, x, x - k, pairs) && 2 * |pairs| + d == x + (x - k)
  }

  lemma SlideAligns(f: Files, x: nat, k: int, d: nat, pairs: seq<LinePair>)
    requires Aligns(f, x, k, d, pairs)
    ensures var x' := Slide(f, x, x - k); Aligns(f, x', k, d, pairs + SlidePairs(k, x, x'))
  {
    SlideExtends(f, x, k, pairs);
  }

  /** One edit moves on to a neighbouring diagonal. */
  lemma EditAligns(f: Files, d: nat, j: nat, pairs: seq<LinePair>)
    requires 0 < d && j <= d
    requires var p := Previous(f, d, j); Aligns(f, Furthest(f, d - 1, p), Diagonal(d - 1, p), d - 1, pairs)
    ensures Aligns(f, ProbeStart(f, d, j), Diagonal(d, j), d, pairs)
  {
    var p := Previous(f, d, j);
    assert ProbeStart(f, d, j) == Furthest(f, d - 1, p) + (if p == j then 0 else 1);
  }

  /** The leading pairs and the emitted ones together align every frontier
      point, leaving exactly `d` lines unmatched. */
  lemma {:induction false} EmittedAligns(f: Files, d: nat, j: nat)
    requires j <= d
    ensures Aligns(f, Furthest(f, d, j), Diagonal(d, j), d, LeadingPairs(f) + Emitted(f, d, j))
    decreases d
  {
    hide Aligns, Furthest;
    if d == 0 {
      LeadingPairsAlign(f);
      assert LeadingPairs(f) + Emitted(f, d, j) == LeadingPairs(f);
    } else {
      EmittedAligns(f, d - 1, Previous(f, d, j));
      EmittedExtends(f, d, j);
    }
  }

  lemma LeadingPairsAlign(f: Files)
    ensures Aligns(f, Furthest(f, 0, 0), Diagonal(0, 0), 0, LeadingPairs(f))
  {
    SlideAligns(f, 0, 0, 0, []);
    assert LeadingPairs(f) == [] + SlidePairs(0, 0, Furthest(f, 0, 0));
  }

  lemma EmittedExtends(f: Files, d: nat, j: nat)
    requires 0 < d && j <= d
    requires var p := Previous(f, d, j);
             Aligns(f, Furthest(f, d - 1, p), Diagonal(d - 1, p), d - 1, LeadingPairs(f) + Emitted(f, d - 1, p))
    ensures Aligns(f, Furthest(f, d, j), Diagonal(d, j), d, LeadingPairs(f) + Emitted(f, d, j))
  {
    hide Aligns, Diagonal, ProbeStart, Previous, Slide, SlidePairs, LeadingPairs;
    var before := LeadingPairs(f) + Emitted(f, d - 1, Previous(f, d, j));
    EditAligns(f, d, j, before);
    SlideAligns(f, ProbeStart(f, d, j), Diagonal(d, j), d, before);
    assert LeadingPairs(f) + Emitted(f, d, j)
        == before + SlidePairs(Diagonal(d, j), ProbeStart(f, d, j), Furthest(f, d, j));
  }

  /** The line diff, with the leading pairs put back, is a longest common
      subsequence of the two files, of length (N + M - D) / 2. */
  lemma LineDiffIsLongestWithLeadingPairs(f: Files)
    requires f.a != [] && f.b != []
    ensures var pairs := LeadingPairs(f) + LineDiff(f);
            && CommonSubsequence(f, |f.a|, |f.b|, pairs)
            && 2 * |pairs| + CornerDistance(f) == |f.a| + |f.b|
            && forall other :: CommonSubsequence(f, |f.a|, |f.b|, other) ==> |other| <= |pairs|
  {
    var pairs := LeadingPairs(f) + LineDiff(f);
    CornerIsReached(f);
    ExhaustedAtTheCorner(f, CornerDistance(f), CornerIndex(f));
    EmittedAligns(f, CornerDistance(f), CornerIndex(f));
    ChainIffCommonSubsequence(f, |f.a|, |f.b|, pairs);
    hide Furthest, Distance, CommonSubsequence, Chain, LeadingPairs, Emitted, CornerIndex;
    forall other | CommonSubsequence(f, |f.a|, |f.b|, other) ensures |other| <= |pairs| {
      ChainIffCommonSubsequence(f, |f.a|, |f.b|, other);
      ChainBound(f, |f.a|, |f.b|, other);
    }
  }

  /** The line diff alone is a longest common subsequence exactly when the two
      files do not start with the same line. */
  lemma LineDiffIsLongestIffFirstLinesDiffer(f: Files)
    requires f.a != [] && f.b != []
    ensures (forall other :: CommonSubsequence(f, |f.a|, |f.b|, other) ==> |other| <= |LineDiff(f)|)
            <==> !SameLine(f, 0, 0)
  {
    LineDiffIsLongestWithLeadingPairs(f);
    assert CommonSubsequence(f, |f.a|, |f.b|, LeadingPairs(f) + LineDiff(f));
    assert |LeadingPairs(f)| == Slide(f, 0, 0);
  }

  /** The smallest witness: on two copies of one line the line diff is empty. */
  lemma IdenticalFilesGiveNoPairs(line: Text)
    ensures LineDiff(Files([line], [line])) == []
    ensures CommonSubsequence(Files([line], [line]), 1, 1, [LinePair(1, 1)])
  {
  }

  // ---------------------------------------------------------------------
  // The search and the backtrack
  // ---------------------------------------------------------------------

  function NormalizedLines(norm: string -> Text, lines: seq<string>): (normalized: seq<Text>)
    ensures |normalized| == |lines|
  {
    seq(|lines|, i requires 0 <= i < |lines| => norm(lines[i]))
  }

  ghost function Normalized(norm: string -> Text, oldLines: seq<string>, newLines: seq<string>): Files {
    Files(NormalizedLines(norm, oldLines), NormalizedLines(norm, newLines))
  }

  /** `front` records the first `n` probes of distance `d`. */
  ghost predicate Records(f: Files, d: nat, n: nat, front: map<int, int>)
    requires n <= d + 1
  {
    forall j :: 0 <= j < n ==> Diagonal(d, j) in front && front[Diagonal(d, j)] == Furthest(f, d, j)
  }

  ghost predicate IsTrace(f: Files, trace: seq<map<int, int>>) {
    forall d :: 0 <= d < |trace| ==> Records(f, d, d + 1, trace[d])
  }

  /** Advance one probe along its diagonal. */
  method Advance(norm: string -> Text, oldLines: seq<string>, newLines: seq<string>, start: nat, diagonal: int)
    returns (x: nat)
    requires start >= diagonal
    ensures x == Slide(Normalized(norm, oldLines, newLines), start, start - diagonal)
  {
    ghost var f := Normalized(norm, oldLines, newLines);
    x := start;
    var y := x - diagonal;
    while x < |oldLines| && y < |newLines| && norm(oldLines[x]) == norm(newLines[y])
      invariant x >= start && y == x - diagonal
      invariant Slide(f, x, y) == Slide(f, start, start - diagonal)
    {
      x := x + 1;
      y := y + 1;
    }
  }

  function Reversed(pairs: seq<LinePair>): (r: seq<LinePair>)
    ensures |r| == |pairs|
  {
    if pairs == [] then [] else [pairs[|pairs| - 1]] + Reversed(pairs[..|pairs| - 1])
  }

  lemma {:induction false} ReversedAt(pairs: seq<LinePair>, i: nat)
    requires i < |pairs|
    ensures Reversed(pairs)[i] == pairs[|pairs| - 1 - i]
  {
    if i > 0 { ReversedAt(pairs[..|pairs| - 1], i - 1); }
  }

  method Reverse(pairs: seq<LinePair>) returns (r: seq<LinePair>)
    ensures r == Reversed(pairs)
  {
    r := pairs;
    var left, right := 0, |r| - 1;
    while left < right
      invariant |r| == |pairs| && 0 <= left && right == |r| - 1 - left && left <= right + 1
      invariant forall i :: 0 <= i < left || right < i < |r| ==> r[i] == pairs[|r| - 1 - i]
      invariant forall i :: left <= i <= right ==> r[i] == pairs[i]
    {
      r := r[left := r[right]][right := r[left]];
      left, right := left + 1, right - 1;
    }
    forall i | 0 <= i < |r| ensures r[i] == Reversed(pairs)[i] { ReversedAt(pairs, i); }
  }

  /** What the two neighbours of a probe's diagonal hold one distance back. */
  lemma Neighbours(f: Files, d: nat, j: nat, v: map<int, int>)
    requires 0 < d && j <= d && Records(f, d - 1, d, v)
    ensures var k := Diagonal(d, j);
            && (k == 0 - d <==> j == 0) && (k == d <==> j == d)
            && (j < d ==> k + 1 in v && v[k + 1] == Furthest(f, d - 1, j) && k + 1 == Diagonal(d - 1, j))
            && (0 < j ==> k - 1 in v && v[k - 1] == Furthest(f, d - 1, j - 1) && k - 1 == Diagonal(d - 1, j - 1))
  {
    hide Furthest;
    assert j < d ==> Diagonal(d - 1, j) in v;
    assert 0 < j ==> Diagonal(d - 1, j - 1) in v;
  }

  /** Walk one slide backwards, from old line `x` to where it started, one edit
      after the previous point. */
  method CollectSlide(pairs: seq<LinePair>, x: int, y: int, previousX: int, previousY: int, ghost start: int)
    returns (more: seq<LinePair>)
    requires start <= x
    requires (start, start - (x - y)) == (previousX + 1, previousY) || (start, start - (x - y)) == (previousX, previousY + 1)
    ensures Reversed(more) == SlidePairs(x - y, start, x) + Reversed(pairs)
  {
    more := pairs;
    var i, l := x, y;
    while i > previousX && l > previousY
      invariant start <= i <= x && i - l == x - y
      invariant Reversed(more) == SlidePairs(x - y, i, x) + Reversed(pairs)
    {
      assert (more + [LinePair(i, l)])[..|more|] == more;
      more := more + [LinePair(i, l)];
      i := i - 1;
      l := l - 1;
    }
  }

  /** A probe starts one insertion or one deletion from the previous point. */
  lemma PreviousPoint(f: Files, d: nat, j: nat)
    requires 0 < d && j <= d
    ensures var p, start, k := Previous(f, d, j), ProbeStart(f, d, j), Diagonal(d, j);
            var x := Furthest(f, d - 1, p);
            var y := x - Diagonal(d - 1, p);
            (start, start - k) == (x + 1, y) || (start, start - k) == (x, y + 1)
  {
    hide Furthest, Slide;
  }

  lemma EmittedStep(f: Files, d: nat, j: nat, pairs: seq<LinePair>, more: seq<LinePair>)
    requires 0 < d && j <= d
    requires Reversed(more) == SlidePairs(Diagonal(d, j), ProbeStart(f, d, j), Furthest(f, d, j)) + Reversed(pairs)
    ensures Emitted(f, d, j) + Reversed(pairs) == Emitted(f, d - 1, Previous(f, d, j)) + Reversed(more)
  {
    hide Furthest, Diagonal, Reversed, SlidePairs, ProbeStart, Previous;
  }

  /** The diagonal a frontier point came from, one distance back. */
  method PreviousDiagonal(ghost f: Files, previous: map<int, int>, distance: int, diagonal: int, ghost j: nat)
    returns (previousDiagonal: int)
    requires 0 < distance && j <= distance && Records(f, distance - 1, distance, previous) && diagonal == Diagonal(distance, j)
    ensures var p := Previous(f, distance, j);
            && previousDiagonal == Diagonal(distance - 1, p)
            && previousDiagonal in previous && previous[previousDiagonal] == Furthest(f, distance - 1, p)
  {
    Neighbours(f, distance, j, previous);
    hide Furthest, Diagonal, Records;
    if diagonal == -distance || (diagonal != distance && previous[diagonal - 1] < previous[diagonal + 1]) {
      previousDiagonal := diagonal + 1;
    } else {
      previousDiagonal := diagonal - 1;
    }
  }

  /** One step of the backtrack: go to the point a frontier point came from,
      collecting the slide in between. */
  method StepBack(ghost f: Files, previous: map<int, int>, distance: int, x: int, y: int, pairs: seq<LinePair>, ghost j: nat)
    returns (previousX: int, previousY: int, more: seq<LinePair>)
    requires 0 < distance && j <= distance && Records(f, distance - 1, distance, previous)
    requires x == Furthest(f, distance, j) && y == x - Diagonal(distance, j)
    ensures var p := Previous(f, distance, j);
            previousX == Furthest(f, distance - 1, p) && previousY == previousX - Diagonal(distance - 1, p)
    ensures Emitted(f, distance, j) + Reversed(pairs) == Emitted(f, distance - 1, Previous(f, distance, j)) + Reversed(more)
  {
    PreviousPoint(f, distance, j);
    assert ProbeStart(f, distance, j) <= Furthest(f, distance, j);
    hide *;
    var diagonal := x - y;
    var previousDiagonal := PreviousDiagonal(f, previous, distance, diagonal, j);
    previousX := previous[previousDiagonal];
    previousY := previousX - previousDiagonal;
    more := CollectSlide(pairs, x, y, previousX, previousY, ProbeStart(f, distance, j));
    EmittedStep(f, distance, j, pairs, more);
  }

  lemma BacktrackStart(f: Files, trace: seq<map<int, int>>)
    requires f.a != [] && f.b != []
    requires |trace| == CornerDistance(f) + 1 && IsTrace(f, trace[..|trace| - 1])
    ensures CornerIndex(f) <= CornerDistance(f)
    ensures Furthest(f, CornerDistance(f), CornerIndex(f)) == |f.a|
    ensures Diagonal(CornerDistance(f), CornerIndex(f)) == |f.a| - |f.b|
    ensures LineDiff(f) == Emitted(f, CornerDistance(f), CornerIndex(f)) + Reversed([])
    ensures forall d :: 0 <= d < |trace| - 1 ==> Records(f, d, d + 1, trace[d])
  {
    CornerIsReached(f);
    ExhaustedAtTheCorner(f, CornerDistance(f), CornerIndex(f));
    hide Furthest, Distance, Records, CornerIndex;
    forall d | 0 <= d < |trace| - 1 ensures Records(f, d, d + 1, trace[d]) {
      assert trace[..|trace| - 1][d] == trace[d];
    }
  }

  lemma BacktrackEnd(f: Files)
    ensures Emitted(f, 0, 0) == []
  {
  }

  method ReconstructLinePairs(ghost f: Files, trace: seq<map<int, int>>, oldCount: int, newCount: int)
    returns (pairs: seq<LinePair>)
    requires oldCount == |f.a| && newCount == |f.b| && oldCount > 0 && newCount > 0
    requires |trace| == CornerDistance(f) + 1 && IsTrace(f, trace[..|trace| - 1])
    ensures pairs == LineDiff(f)
  {
    hide *;
    BacktrackStart(f, trace);
    BacktrackEnd(f);
    var x, y := oldCount, newCount;
    pairs := [];
    var distance := |trace| - 1;
    ghost var j := CornerIndex(f);
    while distance > 0
      invariant 0 <= distance < |trace| && 0 <= j <= distance
      invariant x == Furthest(f, distance, j) && y == x - Diagonal(distance, j)
      invariant LineDiff(f) == Emitted(f, distance, j) + Reversed(pairs)
    {
      x, y, pairs := StepBack(f, trace[distance - 1], distance, x, y, pairs, j);
      j := Previous(f, distance, j);
      distance := distance - 1;
    }
    pairs := Reverse(pairs);
  }

  /** Where the probe on `diagonal` starts, read off the previous frontier. */
  method StartProbe(ghost f: Files, v: map<int, int>, distance: int, diagonal: int, ghost j: nat) returns (x: nat)
    requires 0 <= distance && j <= distance && diagonal == Diagonal(distance, j)
    requires if distance == 0 then v == map[1 := 0] else Records(f, distance - 1, distance, v)
    ensures x == ProbeStart(f, distance, j) && x >= diagonal
  {
    if distance > 0 { Neighbours(f, distance, j, v); }
    hide Furthest, Diagonal, Records;
    if diagonal == -distance || (diagonal != distance && v[diagonal - 1] < v[diagonal + 1]) {
      x := v[diagonal + 1];
    } else {
      x := v[diagonal - 1] + 1;
    }
  }

  /** One probe: one edit from the previous frontier, then the slide. */
  method ProbeOne(norm: string -> Text, oldLines: seq<string>, newLines: seq<string>, v: map<int, int>, distance: int,
                  diagonal: int, ghost j: nat)
    returns (x: nat)
    requires 0 <= distance && j <= distance && diagonal == Diagonal(distance, j)
    requires if distance == 0 then v == map[1 := 0]
             else Records(Normalized(norm, oldLines, newLines), distance - 1, distance, v)
    ensures x == Furthest(Normalized(norm, oldLines, newLines), distance, j)
  {
    x := StartProbe(Normalized(norm, oldLines, newLines), v, distance, diagonal, j);
    x := Advance(norm, oldLines, newLines, x, diagonal);
  }

  /** Probe every diagonal of one distance, until both files are used up. */
  method ProbeDistance(norm: string -> Text, oldLines: seq<string>, newLines: seq<string>, v: map<int, int>, distance: int)
    returns (current: map<int, int>, done: bool)
    requires 0 <= distance <= CornerDistance(Normalized(norm, oldLines, newLines))
    requires if distance == 0 then v == map[1 := 0]
             else Records(Normalized(norm, oldLines, newLines), distance - 1, distance, v)
    ensures done <==> distance == CornerDistance(Normalized(norm, oldLines, newLines))
    ensures !done ==> Records(Normalized(norm, oldLines, newLines), distance, distance + 1, current)
  {
    ghost var f := Normalized(norm, oldLines, newLines);
    hide Furthest, Distance, CornerIndex;
    current := map[];
    var diagonal := -distance;
    ghost var j := 0;
    while diagonal <= distance
      invariant 0 <= j <= distance + 1 && diagonal == Diagonal(distance, j)
      invariant Records(f, distance, j, current)
      invariant forall i :: 0 <= i < j ==> !Exhausted(f, distance, i)
    {
      var x := ProbeOne(norm, oldLines, newLines, v, distance, diagonal, j);
      var y := x - diagonal;
      current := current[diagonal := x];
      if x >= |oldLines| && y >= |newLines| {
        ExhaustedAtTheCorner(f, distance, j);
        return current, true;
      }
      diagonal := diagonal + 2;
      j := j + 1;
    }
    CornerIsReached(f);
    return current, false;
  }

  /** The search itself: it stops at the least distance, exactly at the corner,
      and its last statement is never reached. */
  method MyersEqualLines(norm: string -> Text, oldLines: seq<string>, newLines: seq<string>)
    returns (pairs: seq<LinePair>)
    ensures pairs == LineDiff(Normalized(norm, oldLines, newLines))
  {
    if |oldLines| == 0 || |newLines| == 0 {
      return [];
    }
    ghost var f := Normalized(norm, oldLines, newLines);
    var max := |oldLines| + |newLines|;
    DistanceBounds(f, |oldLines|, |newLines|);
    var v: map<int, int> := map[1 := 0];
    var trace: seq<map<int, int>> := [];
    var distance := 0;
    while distance <= max
      invariant 0 <= distance <= CornerDistance(f) <= max
      invariant |trace| == distance && IsTrace(f, trace)
      invariant if distance == 0 then v == map[1 := 0] else Records(f, distance - 1, distance, v)
    {
      hide Records, Distance, LineDiff;
      var current, done := ProbeDistance(norm, oldLines, newLines, v, distance);
      if done {
        assert (trace + [current])[..|trace|] == trace;
        trace := trace + [current];
        pairs := ReconstructLinePairs(f, trace, |oldLines|, |newLines|);
        return;
      }
      trace := trace + [current];
      v := current;
      distance := distance + 1;
    }
    assert false;
  }
}
