/** The path search matcher: ASCII-folding exact, contiguous, prefix and
    minimal-span subsequence matching, the class ladder over them, and the order
    of results that a page must have. */
module TreeSearch {
  import opened Ordering
  import opened Wrappers

  type Snapshot(==)

  const SLASH: Byte := 47

  /** Offsets and lengths are kept in 32 bits. */
  const MAX_PATH: nat := 0xFFFF_FFFF

  datatype Range = Range(start: nat, end: nat)

  function Fold(b: Byte): Byte { if 65 <= b <= 90 then b + 32 else b }

  predicate Same(a: Byte, b: Byte) { Fold(a) == Fold(b) }

  // ---------------------------------------------------------------------
  // Embeddings
  // ---------------------------------------------------------------------

  /** Positions that spell the needle in the path, in order. */
  ghost predicate Embeds(path: Bytes, needle: Bytes, positions: seq<nat>) {
    && |positions| == |needle|
    && (forall i :: 0 <= i < |positions| ==> positions[i] < |path| && Same(path[positions[i]], needle[i]))
    && (forall i, j :: 0 <= i < j < |positions| ==> positions[i] < positions[j])
  }

  ghost predicate IsSubsequence(path: Bytes, needle: Bytes) {
    exists positions :: Embeds(path, needle, positions)
  }

  /** The bytes skipped between the first and the last position. */
  function Gap(positions: seq<nat>): int
    requires positions != []
  {
    positions[|positions| - 1] - positions[0] + 1 - |positions|
  }

  /** The first position from `from` on that matches, or the length of the path. */
  function Next(path: Bytes, wanted: Byte, from: nat): (r: nat)
    requires from <= |path|
    ensures from <= r <= |path|
    ensures r < |path| ==> Same(path[r], wanted)
    ensures forall k :: from <= k < r ==> !Same(path[k], wanted)
    decreases |path| - from
  {
    if from == |path| || Same(path[from], wanted) then from else Next(path, wanted, from + 1)
  }

  /** The earliest positions for the needle from `from` on. */
  function Greedy(path: Bytes, needle: Bytes, from: nat): (r: Option<seq<nat>>)
    requires from <= |path|
    ensures r.Some? ==> |r.value| == |needle|
    decreases |needle|
  {
    if needle == [] then Some([])
    else
      var p := Next(path, needle[0], from);
      if p == |path| then None
      else match Greedy(path, needle[1..], p + 1)
        case None => None
        case Some(rest) => Some([p] + rest)
  }

  lemma {:induction false} GreedyEmbeds(path: Bytes, needle: Bytes, from: nat)
    requires from <= |path| && Greedy(path, needle, from).Some?
    ensures Embeds(path, needle, Greedy(path, needle, from).value)
    ensures forall i :: 0 <= i < |needle| ==> from <= Greedy(path, needle, from).value[i]
    decreases |needle|
  {
    if needle != [] {
      GreedyEmbeds(path, needle[1..], Next(path, needle[0], from) + 1);
    }
  }

  /** Greedy finds an embedding if there is one, and no position of any other is
      earlier. */
  lemma {:induction false} GreedyIsEarliest(path: Bytes, needle: Bytes, from: nat, positions: seq<nat>)
    requires from <= |path| && Embeds(path, needle, positions) && (positions == [] || from <= positions[0])
    ensures Greedy(path, needle, from).Some?
    ensures forall i :: 0 <= i < |needle| ==> Greedy(path, needle, from).value[i] <= positions[i]
    decreases |needle|
  {
    if needle != [] {
      var p := Next(path, needle[0], from);
      assert Same(path[positions[0]], needle[0]);
      GreedyIsEarliest(path, needle[1..], p + 1, positions[1..]);
      GreedyEmbeds(path, needle[1..], p + 1);
    }
  }

  /** The embedding that starts at `start` and ends as early as possible. */
  function From(path: Bytes, needle: Bytes, start: nat): (r: Option<seq<nat>>)
    requires needle != [] && start < |path|
    ensures r.Some? ==> |r.value| == |needle|
  {
    if !Same(path[start], needle[0]) then None
    else match Greedy(path, needle[1..], start + 1)
      case None => None
      case Some(rest) => Some([start] + rest)
  }

  lemma FromEmbeds(path: Bytes, needle: Bytes, start: nat)
    requires needle != [] && start < |path| && From(path, needle, start).Some?
    ensures var positions := From(path, needle, start).value;
            Embeds(path, needle, positions) && positions[0] == start && 0 <= Gap(positions)
  {
    GreedyEmbeds(path, needle[1..], start + 1);
    GapIsNatural(path, needle, From(path, needle, start).value);
  }

  lemma {:induction false} SpreadsOut(path: Bytes, needle: Bytes, positions: seq<nat>, i: nat)
    requires Embeds(path, needle, positions) && i < |positions|
    ensures positions[0] + i <= positions[i]
  {
    if i > 0 { SpreadsOut(path, needle, positions, i - 1); }
  }

  lemma GapIsNatural(path: Bytes, needle: Bytes, positions: seq<nat>)
    requires Embeds(path, needle, positions) && needle != []
    ensures 0 <= Gap(positions) < |path|
  {
    SpreadsOut(path, needle, positions, |positions| - 1);
  }

  lemma FromIsTightest(path: Bytes, needle: Bytes, positions: seq<nat>)
    requires needle != [] && Embeds(path, needle, positions)
    ensures var found := From(path, needle, positions[0]);
            found.Some? && found.value[0] == positions[0] && Gap(found.value) <= Gap(positions)
  {
    hide Greedy;
    GreedyIsEarliest(path, needle[1..], positions[0] + 1, positions[1..]);
    var rest := Greedy(path, needle[1..], positions[0] + 1).value;
    assert From(path, needle, positions[0]).value == [positions[0]] + rest;
    if rest != [] {
      assert rest[|rest| - 1] <= positions[1..][|rest| - 1];
    }
  }

  // ---------------------------------------------------------------------
  // Ranges
  // ---------------------------------------------------------------------

  /** The positions a list of ranges covers. */
  function Expand(ranges: seq<Range>): seq<nat> {
    if ranges == [] then []
    else Expand(ranges[..|ranges| - 1]) + Interval(ranges[|ranges| - 1].start, ranges[|ranges| - 1].end)
  }

  function Interval(start: nat, end: nat): (r: seq<nat>)
    ensures |r| == if start <= end then end - start else 0
    ensures forall i :: 0 <= i < |r| ==> r[i] == start + i
    decreases end - start
  {
    if start >= end then [] else [start] + Interval(start + 1, end)
  }

  /** Nonempty ranges with a hole between any two neighbours. */
  ghost predicate Separate(ranges: seq<Range>) {
    && (forall i :: 0 <= i < |ranges| ==> ranges[i].start < ranges[i].end)
    && (forall i :: 0 <= i < |ranges| - 1 ==> ranges[i].end < ranges[i + 1].start)
  }

  /** The maximal runs of consecutive positions. */
  ghost predicate AreRunsOf(ranges: seq<Range>, positions: seq<nat>) {
    Separate(ranges) && Expand(ranges) == positions
  }

  lemma ExpandLast(ranges: seq<Range>, last: Range)
    ensures Expand(ranges + [last]) == Expand(ranges) + Interval(last.start, last.end)
  {
    assert (ranges + [last])[..|ranges|] == ranges;
  }

  lemma IntervalGrows(start: nat, end: nat)
    requires start <= end
    ensures Interval(start, end) + [end] == Interval(start, end + 1)
  {
  }

  /** Closed runs, and an open one from `start` to `previous`, cover `seen`. */
  ghost predicate Collected(ranges: seq<Range>, start: nat, previous: nat, seen: seq<nat>) {
    && Separate(ranges) && start <= previous
    && (ranges != [] ==> ranges[|ranges| - 1].end < start)
    && Expand(ranges) + Interval(start, previous + 1) == seen
  }

  lemma CollectExtends(ranges: seq<Range>, start: nat, previous: nat, seen: seq<nat>)
    requires Collected(ranges, start, previous, seen)
    ensures Collected(ranges, start, previous + 1, seen + [previous + 1])
  {
    IntervalGrows(start, previous + 1);
    assert Expand(ranges) + Interval(start, previous + 1) + [previous + 1] ==
           Expand(ranges) + (Interval(start, previous + 1) + [previous + 1]);
  }

  lemma CollectCloses(ranges: seq<Range>, start: nat, previous: nat, seen: seq<nat>)
    requires Collected(ranges, start, previous, seen)
    ensures AreRunsOf(ranges + [Range(start, previous + 1)], seen)
  {
    hide Expand, Separate;
    ExpandLast(ranges, Range(start, previous + 1));
    SeparateAppends(ranges, Range(start, previous + 1));
  }

  lemma SeparateAppends(ranges: seq<Range>, last: Range)
    requires Separate(ranges) && last.start < last.end && (ranges != [] ==> ranges[|ranges| - 1].end < last.start)
    ensures Separate(ranges + [last])
  {
    var more := ranges + [last];
    forall i | 0 <= i < |more| - 1 ensures more[i].end < more[i + 1].start {
      if i < |ranges| - 1 { assert ranges[i].end < ranges[i + 1].start; }
    }
  }

  lemma CollectBreaks(ranges: seq<Range>, start: nat, previous: nat, seen: seq<nat>, position: nat)
    requires Collected(ranges, start, previous, seen) && position > previous + 1
    ensures Collected(ranges + [Range(start, previous + 1)], position, position, seen + [position])
  {
    CollectCloses(ranges, start, previous, seen);
    assert Interval(position, position + 1) == [position];
  }

  lemma CollectBegins(position: nat)
    ensures Collected([], position, position, [position])
  {
    assert Interval(position, position + 1) == [position];
  }

  /** Collects the runs of a rising list of positions. */
  method RunsOf(positions: seq<nat>) returns (ranges: seq<Range>)
    requires positions != [] && forall i, j :: 0 <= i < j < |positions| ==> positions[i] < positions[j]
    ensures AreRunsOf(ranges, positions)
    ensures ranges != [] && |ranges| <= |positions| && ranges[|ranges| - 1].end == positions[|positions| - 1] + 1
  {
    hide Collected, AreRunsOf;
    ranges := [];
    var start, previous := positions[0], positions[0];
    var i := 1;
    CollectBegins(start);
    assert positions[..1] == [start];
    while i < |positions|
      invariant 1 <= i <= |positions| && previous == positions[i - 1] && |ranges| < i
      invariant Collected(ranges, start, previous, positions[..i])
    {
      var position := positions[i];
      assert positions[..i + 1] == positions[..i] + [position];
      if position != previous + 1 {
        CollectBreaks(ranges, start, previous, positions[..i], position);
        ranges := ranges + [Range(start, previous + 1)];
        start := position;
      } else {
        CollectExtends(ranges, start, previous, positions[..i]);
      }
      previous := position;
      i := i + 1;
    }
    assert positions[..i] == positions;
    CollectCloses(ranges, start, previous, positions);
    ranges := ranges + [Range(start, previous + 1)];
  }

  // ---------------------------------------------------------------------
  // Minimal-span subsequence
  // ---------------------------------------------------------------------

  /** No embedding is tighter, and among equally tight ones none starts earlier. */
  ghost predicate IsTightest(path: Bytes, needle: Bytes, positions: seq<nat>)
    requires positions != []
  {
    && Embeds(path, needle, positions)
    && forall other :: other != [] && Embeds(path, needle, other) ==>
         Gap(positions) < Gap(other) || (Gap(positions) == Gap(other) && positions[0] <= other[0])
  }

  function Prefixed(before: seq<nat>, rest: Option<seq<nat>>): Option<seq<nat>> {
    match rest case None => None case Some(positions) => Some(before + positions)
  }

  /** One greedy step, with what was found before it. */
  lemma GreedyStep(path: Bytes, needle: Bytes, i: nat, from: nat, before: seq<nat>)
    requires i < |needle| && from <= |path|
    ensures var p := Next(path, needle[i], from);
            Prefixed(before, Greedy(path, needle[i..], from)) ==
            if p == |path| then None else Prefixed(before + [p], Greedy(path, needle[i + 1..], p + 1))
  {
    assert needle[i..][0] == needle[i] && needle[i..][1..] == needle[i + 1..];
    var p := Next(path, needle[i], from);
    if p < |path| && Greedy(path, needle[i + 1..], p + 1).Some? {
      var rest := Greedy(path, needle[i + 1..], p + 1).value;
      assert before + ([p] + rest) == before + [p] + rest;
    }
  }

  lemma NoNeedleLeft(path: Bytes, needle: Bytes, from: nat, before: seq<nat>)
    requires from <= |path|
    ensures Prefixed(before, Greedy(path, needle[|needle|..], from)) == Some(before)
  {
    assert needle[|needle|..] == [] && before + [] == before;
  }

  method Scan(path: Bytes, wanted: Byte, from: nat, limit: nat) returns (r: nat)
    requires from <= limit <= |path|
    ensures from <= r <= limit
    ensures r < limit ==> r == Next(path, wanted, from)
    ensures r == limit ==> limit <= Next(path, wanted, from)
  {
    r := from;
    while r < limit && !Same(path[r], wanted)
      invariant from <= r <= limit && Next(path, wanted, from) == Next(path, wanted, r)
    {
      r := r + 1;
    }
  }

  /** Scans to the end of the earliest embedding that starts at `start`. */
  method EndFrom(path: Bytes, needle: Bytes, start: nat) returns (found: bool, end: nat)
    requires needle != [] && start < |path| && Same(path[start], needle[0])
    ensures found <==> From(path, needle, start).Some?
    ensures found ==> end == From(path, needle, start).value[|needle| - 1] && start <= end < |path|
  {
    hide Greedy, Next;
    var pathIndex := start;
    end := start;
    ghost var before: seq<nat> := [start];
    for i := 1 to |needle|
      invariant start <= pathIndex < |path| && end == pathIndex && |before| == i && before[i - 1] == end
      invariant From(path, needle, start) == Prefixed(before, Greedy(path, needle[i..], pathIndex + 1))
    {
      GreedyStep(path, needle, i, pathIndex + 1, before);
      pathIndex := Scan(path, needle[i], pathIndex + 1, |path|);
      if pathIndex == |path| {
        return false, end;
      }
      end := pathIndex;
      before := before + [pathIndex];
    }
    NoNeedleLeft(path, needle, pathIndex + 1, before);
    return true, end;
  }

  /** The positions of the embedding from `start`, once its end is known. */
  method PositionsFrom(path: Bytes, needle: Bytes, start: nat, end: nat) returns (positions: seq<nat>)
    requires needle != [] && start < |path| && From(path, needle, start).Some?
    requires end == From(path, needle, start).value[|needle| - 1]
    ensures positions == From(path, needle, start).value
  {
    hide Greedy, Next;
    FromEmbeds(path, needle, start);
    positions := [start];
    var pathIndex := start;
    for i := 1 to |needle|
      invariant pathIndex <= end < |path| && |positions| == i && positions[i - 1] == pathIndex
      invariant From(path, needle, start) == Prefixed(positions, Greedy(path, needle[i..], pathIndex + 1))
    {
      GreedyStep(path, needle, i, pathIndex + 1, positions);
      assert From(path, needle, start).value[i] == Next(path, needle[i], pathIndex + 1) <= end;
      pathIndex := Scan(path, needle[i], pathIndex + 1, end + 1);
      positions := positions + [pathIndex];
    }
    NoNeedleLeft(path, needle, pathIndex + 1, positions);
  }

  /** The tightest embedding among those that start before `limit`. */
  ghost predicate BestBefore(path: Bytes, needle: Bytes, limit: nat, best: Option<(nat, nat)>)
    requires needle != [] && limit <= |path|
  {
    && (best.Some? ==>
        && best.value.0 < limit && From(path, needle, best.value.0).Some?
        && best.value.1 == From(path, needle, best.value.0).value[|needle| - 1])
    && forall start :: 0 <= start < limit && From(path, needle, start).Some? ==>
         best.Some? &&
         (Width(best.value) < Width((start, From(path, needle, start).value[|needle| - 1])) ||
          (Width(best.value) == Width((start, From(path, needle, start).value[|needle| - 1])) && best.value.0 <= start))
  }

  function Width(span: (nat, nat)): int { span.1 - span.0 }

  lemma BestIsTightest(path: Bytes, needle: Bytes, best: (nat, nat))
    requires needle != [] && BestBefore(path, needle, |path|, Some(best))
    ensures IsTightest(path, needle, From(path, needle, best.0).value)
  {
    hide From;
    var positions := From(path, needle, best.0).value;
    FromEmbeds(path, needle, best.0);
    forall other | other != [] && Embeds(path, needle, other)
      ensures Gap(positions) < Gap(other) || (Gap(positions) == Gap(other) && positions[0] <= other[0])
    {
      FromIsTightest(path, needle, other);
    }
  }

  lemma NoneMeansNoSubsequence(path: Bytes, needle: Bytes)
    requires needle != [] && BestBefore(path, needle, |path|, None)
    ensures !IsSubsequence(path, needle)
  {
    hide From;
    if IsSubsequence(path, needle) {
      var positions :| Embeds(path, needle, positions);
      FromIsTightest(path, needle, positions);
      assert false;
    }
  }

  /** A span without gap cannot be improved. */
  lemma GaplessIsBest(path: Bytes, needle: Bytes, limit: nat, best: (nat, nat))
    requires needle != [] && limit <= |path| && BestBefore(path, needle, limit, Some(best)) && Width(best) + 1 == |needle|
    ensures BestBefore(path, needle, |path|, Some(best))
  {
    hide From;
    forall start | limit <= start < |path| && From(path, needle, start).Some?
      ensures Width(best) <= Width((start, From(path, needle, start).value[|needle| - 1]))
    {
      FromEmbeds(path, needle, start);
    }
  }

  lemma NothingBefore(path: Bytes, needle: Bytes)
    requires needle != []
    ensures BestBefore(path, needle, 0, None)
  {
  }

  lemma BestImproves(path: Bytes, needle: Bytes, start: nat, best: Option<(nat, nat)>, end: nat)
    requires needle != [] && start < |path| && BestBefore(path, needle, start, best)
    requires From(path, needle, start).Some? && end == From(path, needle, start).value[|needle| - 1]
    requires best.None? || Width((start, end)) < Width(best.value)
    ensures BestBefore(path, needle, start + 1, Some((start, end)))
  {
    hide From;
  }

  lemma BestStays(path: Bytes, needle: Bytes, start: nat, best: Option<(nat, nat)>)
    requires needle != [] && start < |path| && BestBefore(path, needle, start, best)
    requires From(path, needle, start).Some? ==>
               best.Some? && Width(best.value) <= Width((start, From(path, needle, start).value[|needle| - 1]))
    ensures BestBefore(path, needle, start + 1, best)
  {
    hide From;
  }

  lemma BestIsFound(path: Bytes, needle: Bytes, limit: nat, best: (nat, nat))
    requires needle != [] && limit <= |path| && BestBefore(path, needle, limit, Some(best))
    ensures best.0 < limit && From(path, needle, best.0).Some?
    ensures best.1 == From(path, needle, best.0).value[|needle| - 1]
  {
  }

  /** Succeeds exactly when the needle is a subsequence of the path; the ranges are
      the runs of an embedding of least gap, leftmost among those. */
  method SubsequenceFold(path: Bytes, needle: Bytes)
    returns (ok: bool, ranges: seq<Range>, gap: nat, ghost positions: seq<nat>)
    requires needle != [] && |path| <= MAX_PATH
    ensures ok <==> IsSubsequence(path, needle)
    ensures ok ==> positions != [] && IsTightest(path, needle, positions) && gap == Gap(positions)
    ensures ok ==> AreRunsOf(ranges, positions)
    ensures ok ==> 0 < |ranges| <= |needle| && ranges[|ranges| - 1].end <= |path|
  {
    hide From, AreRunsOf, IsTightest, BestBefore;
    NothingBefore(path, needle);
    var best: Option<(nat, nat)> := None;
    var bestGap := MAX_PATH;
    var start := 0;
    while start < |path|
      invariant start <= |path| && BestBefore(path, needle, start, best)
      invariant best.Some? ==> bestGap == Width(best.value) + 1 - |needle|
      invariant best.None? ==> bestGap == MAX_PATH
      invariant best.Some? ==> best.value.0 < start
    {
      if Same(path[start], needle[0]) {
        var found, end := EndFrom(path, needle, start);
        if found {
          FromEmbeds(path, needle, start);
          var gapHere := end - start + 1 - |needle|;
          if gapHere < bestGap || (gapHere == bestGap && (best.None? || start < best.value.0)) {
            BestImproves(path, needle, start, best, end);
            bestGap, best := gapHere, Some((start, end));
            if bestGap == 0 {
              GaplessIsBest(path, needle, start + 1, best.value);
              start := |path|;
              break;
            }
          } else {
            BestStays(path, needle, start, best);
          }
        } else {
          BestStays(path, needle, start, best);
        }
      } else {
        NoStart(path, needle, start);
        BestStays(path, needle, start, best);
      }
      start := start + 1;
    }
    if best.None? {
      NoneMeansNoSubsequence(path, needle);
      return false, [], 0, [];
    }
    BestIsFound(path, needle, |path|, best.value);
    FromEmbeds(path, needle, best.value.0);
    BestIsTightest(path, needle, best.value);
    var spelled := PositionsFrom(path, needle, best.value.0, best.value.1);
    ranges := RunsOf(spelled);
    return true, ranges, bestGap, spelled;
  }

  lemma NoStart(path: Bytes, needle: Bytes, start: nat)
    requires needle != [] && start < |path| && !Same(path[start], needle[0])
    ensures From(path, needle, start).None?
  {
  }

  // ---------------------------------------------------------------------
  // The class ladder
  // ---------------------------------------------------------------------

  /** The needle stands at one place, byte by byte. */
  ghost predicate MatchesAt(path: Bytes, needle: Bytes, at: nat) {
    at + |needle| <= |path| && forall k :: 0 <= k < |needle| ==> Same(path[at + k], needle[k])
  }

  /** Behind the last slash. */
  function BaseStart(path: Bytes): (r: nat)
    ensures r <= |path|
    ensures r > 0 ==> path[r - 1] == SLASH
    ensures forall k :: r <= k < |path| ==> path[k] != SLASH
  {
    if path == [] then 0
    else if path[|path| - 1] == SLASH then |path|
    else BaseStart(path[..|path| - 1])
  }

  ghost predicate ComponentAt(path: Bytes, at: nat) {
    at <= |path| && (at == 0 || path[at - 1] == SLASH)
  }

  /** The needle begins a path component and does not leave it. */
  ghost predicate BeginsComponent(path: Bytes, needle: Bytes, at: nat) {
    ComponentAt(path, at) && MatchesAt(path, needle, at) && forall k :: at <= k < at + |needle| ==> path[k] != SLASH
  }

  /** What each class of the ladder asks for. */
  ghost predicate Applies(path: Bytes, needle: Bytes, rank: nat) {
    match rank
    case 0 => |path| == |needle| && MatchesAt(path, needle, 0)
    case 1 => |path| - BaseStart(path) == |needle| && MatchesAt(path, needle, BaseStart(path))
    case 2 => MatchesAt(path, needle, BaseStart(path))
    case 3 => exists at :: BeginsComponent(path, needle, at)
    case 4 => exists at :: MatchesAt(path, needle, at)
    case 5 => IsSubsequence(path, needle)
    case _ => false
  }

  lemma PlaceEmbeds(path: Bytes, needle: Bytes, at: nat)
    requires MatchesAt(path, needle, at)
    ensures Embeds(path, needle, Interval(at, at + |needle|))
  {
  }

  /** Every class is a way of being a subsequence. */
  lemma ClassesEmbed(path: Bytes, needle: Bytes, rank: nat)
    requires Applies(path, needle, rank)
    ensures IsSubsequence(path, needle)
  {
    hide Embeds;
    match rank
    case 0 => PlaceEmbeds(path, needle, 0);
    case 1 => PlaceEmbeds(path, needle, BaseStart(path));
    case 2 => PlaceEmbeds(path, needle, BaseStart(path));
    case 3 =>
      var at :| BeginsComponent(path, needle, at);
      PlaceEmbeds(path, needle, at);
    case 4 =>
      var at :| MatchesAt(path, needle, at);
      PlaceEmbeds(path, needle, at);
    case _ =>
  }

  /** The same bytes, but for the case of ASCII letters. */
  ghost predicate DifferInCase(a: Bytes, b: Bytes) {
    && |a| == |b|
    && forall i :: 0 <= i < |a| ==>
         a[i] == b[i] || ('A' as int <= a[i] <= 'Z' as int && b[i] == a[i] + 32) || ('A' as int <= b[i] <= 'Z' as int && a[i] == b[i] + 32)
  }

  /** The best class is for the needle itself, up to the case of its ASCII letters. */
  lemma TheWholePathMatchesIff(path: Bytes, needle: Bytes)
    ensures Applies(path, needle, 0) <==> DifferInCase(path, needle)
  {
    if DifferInCase(path, needle) {
      assert forall k :: 0 <= k < |needle| ==> Same(path[0 + k], needle[k]);
    }
    if Applies(path, needle, 0) {
      assert forall k :: 0 <= k < |needle| ==> Same(path[0 + k], needle[k]);
    }
  }

  lemma {:induction false} CaseKeepsBase(path: Bytes, other: Bytes)
    requires DifferInCase(path, other)
    ensures BaseStart(path) == BaseStart(other)
  {
    if path != [] {
      CaseKeepsBase(path[..|path| - 1], other[..|other| - 1]);
    }
  }

  lemma CaseKeepsPlaces(path: Bytes, other: Bytes, needle: Bytes, at: nat)
    requires DifferInCase(path, other)
    ensures MatchesAt(path, needle, at) <==> MatchesAt(other, needle, at)
    ensures BeginsComponent(path, needle, at) <==> BeginsComponent(other, needle, at)
  {
    assert forall k :: 0 <= k < |path| ==> Same(path[k], other[k]) && (path[k] == SLASH <==> other[k] == SLASH);
  }

  /** No class depends on the case of the path's letters. */
  lemma CaseNeverDecides(path: Bytes, other: Bytes, needle: Bytes, rank: nat)
    requires DifferInCase(path, other)
    ensures Applies(path, needle, rank) <==> Applies(other, needle, rank)
  {
    hide MatchesAt, BeginsComponent, BaseStart;
    CaseKeepsBase(path, other);
    forall at: nat
      ensures MatchesAt(path, needle, at) <==> MatchesAt(other, needle, at)
      ensures BeginsComponent(path, needle, at) <==> BeginsComponent(other, needle, at)
    {
      CaseKeepsPlaces(path, other, needle, at);
    }
    CaseKeepsEmbeddings(path, other, needle);
  }

  lemma CaseKeepsEmbeddings(path: Bytes, other: Bytes, needle: Bytes)
    requires DifferInCase(path, other)
    ensures IsSubsequence(path, needle) <==> IsSubsequence(other, needle)
  {
    assert forall k :: 0 <= k < |path| ==> Same(path[k], other[k]);
    if positions :| Embeds(path, needle, positions) {
      assert Embeds(other, needle, positions);
    }
    if positions :| Embeds(other, needle, positions) {
      assert Embeds(path, needle, positions);
    }
  }

  lemma {:induction false} SpreadsBack(path: Bytes, needle: Bytes, positions: seq<nat>, i: nat)
    requires Embeds(path, needle, positions) && i < |positions|
    ensures positions[i] + (|positions| - 1 - i) <= positions[|positions| - 1]
    decreases |positions| - i
  {
    if i < |positions| - 1 { SpreadsBack(path, needle, positions, i + 1); }
  }

  /** An embedding without gap is a place of the needle. */
  lemma GaplessIsContiguous(path: Bytes, needle: Bytes, positions: seq<nat>)
    requires needle != [] && Embeds(path, needle, positions) && Gap(positions) == 0
    ensures MatchesAt(path, needle, positions[0])
  {
    forall k | 0 <= k < |needle|
      ensures positions[0] + k < |path| && Same(path[positions[0] + k], needle[k])
    {
      SpreadsOut(path, needle, positions, k);
      SpreadsBack(path, needle, positions, k);
    }
  }

  lemma SliceMatches(path: Bytes, needle: Bytes, lo: nat, hi: nat, at: nat)
    requires lo <= hi <= |path|
    ensures MatchesAt(path[lo..hi], needle, at) <==> lo + at + |needle| <= hi && MatchesAt(path, needle, lo + at)
  {
    var slice := path[lo..hi];
    if lo + at + |needle| <= hi {
      if MatchesAt(slice, needle, at) {
        forall k | 0 <= k < |needle| ensures Same(path[lo + at + k], needle[k]) {
          assert Same(slice[at + k], needle[k]);
        }
      }
      if MatchesAt(path, needle, lo + at) {
        forall k | 0 <= k < |needle| ensures Same(slice[at + k], needle[k]) {
          assert Same(path[lo + at + k], needle[k]);
        }
      }
    }
  }

  method ExactPath(path: Bytes, needle: Bytes) returns (ok: bool)
    ensures ok <==> Applies(path, needle, 0)
  {
    if |path| != |needle| {
      return false;
    }
    for index := 0 to |path|
      invariant forall k :: 0 <= k < index ==> Same(path[k], needle[k])
    {
      if Fold(path[index]) != Fold(needle[index]) {
        assert !Same(path[0 + index], needle[index]);
        return false;
      }
    }
    return true;
  }

  /** The first place of the needle in the haystack. */
  method ContiguousFold(haystack: Bytes, needle: Bytes, offset: nat) returns (ok: bool, range: Range)
    ensures ok <==> exists at :: MatchesAt(haystack, needle, at)
    ensures ok ==> offset <= range.start && range.end == range.start + |needle| && MatchesAt(haystack, needle, range.start - offset)
    ensures ok ==> forall at :: 0 <= at < range.start - offset ==> !MatchesAt(haystack, needle, at)
  {
    if |needle| > |haystack| {
      return false, Range(0, 0);
    }
    var start := 0;
    while start <= |haystack| - |needle|
      invariant 0 <= start <= |haystack| - |needle| + 1
      invariant forall at :: 0 <= at < start ==> !MatchesAt(haystack, needle, at)
    {
      var matched, index := true, 0;
      while index < |needle| && matched
        invariant 0 <= index <= |needle|
        invariant matched ==> forall k :: 0 <= k < index ==> Same(haystack[start + k], needle[k])
        invariant !matched ==> !MatchesAt(haystack, needle, start)
      {
        if Fold(haystack[start + index]) != Fold(needle[index]) {
          matched := false;
          assert !Same(haystack[start + index], needle[index]);
        }
        index := index + 1;
      }
      if matched {
        assert MatchesAt(haystack, needle, start);
        return true, Range(offset + start, offset + start + |needle|);
      }
      start := start + 1;
    }
    return false, Range(0, 0);
  }

  method PrefixFold(haystack: Bytes, needle: Bytes, offset: nat) returns (ok: bool, range: Range)
    ensures ok <==> MatchesAt(haystack, needle, 0)
    ensures range == Range(offset, offset + |needle|)
  {
    range := Range(offset, offset + |needle|);
    if |needle| > |haystack| {
      return false, range;
    }
    for index := 0 to |needle|
      invariant forall k :: 0 <= k < index ==> Same(haystack[k], needle[k])
    {
      if Fold(haystack[index]) != Fold(needle[index]) {
        assert !Same(haystack[0 + index], needle[index]);
        return false, range;
      }
    }
    return true, range;
  }

  method LastSlashEnd(path: Bytes) returns (start: nat)
    ensures start == BaseStart(path)
  {
    start := |path|;
    while start > 0 && path[start - 1] != SLASH
      invariant start <= |path| && forall k :: start <= k < |path| ==> path[k] != SLASH
    {
      start := start - 1;
    }
    BaseStartIsUnique(path, start);
  }

  lemma BaseStartIsUnique(path: Bytes, start: nat)
    requires start <= |path| && (start > 0 ==> path[start - 1] == SLASH)
    requires forall k :: start <= k < |path| ==> path[k] != SLASH
    ensures start == BaseStart(path)
  {
    var base := BaseStart(path);
    var beforeBase := if base > 0 then path[base - 1] else SLASH;
    var beforeStart := if start > 0 then path[start - 1] else SLASH;
    assert beforeBase == SLASH && beforeStart == SLASH;
  }

  /** Tries the components from left to right. */
  method ComponentPrefix(path: Bytes, needle: Bytes) returns (ok: bool, range: Range)
    requires needle != []
    ensures ok <==> Applies(path, needle, 3)
    ensures ok ==> range.end == range.start + |needle| && BeginsComponent(path, needle, range.start)
  {
    var start := 0;
    while start < |path|
      invariant start <= |path| && ComponentAt(path, start)
      invariant forall at :: 0 <= at < start ==> !BeginsComponent(path, needle, at)
    {
      var end := start;
      while end < |path| && path[end] != SLASH
        invariant start <= end <= |path| && forall k :: start <= k < end ==> path[k] != SLASH
      {
        end := end + 1;
      }
      ok, range := PrefixFold(path[start..end], needle, start);
      SliceMatches(path, needle, start, end, 0);
      if ok {
        assert BeginsComponent(path, needle, start);
        return true, range;
      }
      OnlyHere(path, needle, start, end);
      if end == |path| {
        break;
      }
      start := end + 1;
    }
    return false, Range(0, 0);
  }

  /** Between a component's start and its end no component begins. */
  lemma OnlyHere(path: Bytes, needle: Bytes, start: nat, end: nat)
    requires needle != [] && start <= end <= |path| && (forall k :: start <= k < end ==> path[k] != SLASH)
    requires end == |path| || path[end] == SLASH
    requires !(start + |needle| <= end && MatchesAt(path, needle, start))
    ensures forall at :: start <= at <= end ==> !BeginsComponent(path, needle, at)
    ensures end == |path| ==> forall at :: start <= at ==> !BeginsComponent(path, needle, at)
  {
    forall at | start <= at <= end ensures !BeginsComponent(path, needle, at) {
      if at == start {
        if start + |needle| > end && end < |path| { assert path[end] == SLASH; }
      } else {
        assert path[at - 1] != SLASH;
      }
    }
  }

  datatype Match = Match(path: Bytes, rank: nat, gap: nat, ranges: seq<Range>)

  /** Ranges in the path, in order and apart, whose bytes spell the needle. */
  ghost predicate Spells(path: Bytes, needle: Bytes, ranges: seq<Range>) {
    && ranges != [] && |ranges| <= |needle| && ranges[|ranges| - 1].end <= |path|
    && Separate(ranges) && Embeds(path, needle, Expand(ranges))
  }

  lemma OneRangeSpells(path: Bytes, needle: Bytes, at: nat)
    requires needle != [] && MatchesAt(path, needle, at)
    ensures Spells(path, needle, [Range(at, at + |needle|)])
  {
    PlaceEmbeds(path, needle, at);
    assert Expand([Range(at, at + |needle|)]) == Expand([]) + Interval(at, at + |needle|);
  }

  /** The smallest class that applies, and nothing when none does. */
  method MatchTreeEntry(path: Bytes, needle: Bytes) returns (r: Option<Match>)
    requires |path| <= MAX_PATH
    ensures path == [] || needle == [] ==> r.None?
    ensures path != [] && needle != [] ==> (r.Some? <==> IsSubsequence(path, needle))
    ensures r.Some? ==>
              var m := r.value;
              && m.path == path && m.rank <= 5 && Applies(path, needle, m.rank)
              && (forall k: nat :: k < m.rank ==> !Applies(path, needle, k))
              && (m.gap > 0 <==> m.rank == 5)
              && Spells(path, needle, m.ranges)
  {
    hide IsSubsequence, Spells;
    if path == [] || needle == [] {
      return None;
    }
    var ok := ExactPath(path, needle);
    if ok {
      ClassesEmbed(path, needle, 0);
      OneRangeSpells(path, needle, 0);
      return Some(Match(path, 0, 0, [Range(0, |path|)]));
    }
    var baseStart := LastSlashEnd(path);
    var base := path[baseStart..];
    assert base == path[baseStart..|path|];
    r := MatchBase(path, needle, baseStart, base);
    if r.Some? {
      return;
    }
    var range;
    ok, range := ComponentPrefix(path, needle);
    if ok {
      ClassesEmbed(path, needle, 3);
      OneRangeSpells(path, needle, range.start);
      return Some(Match(path, 3, 0, [range]));
    }
    r := MatchAnywhere(path, needle);
  }

  method MatchBase(path: Bytes, needle: Bytes, baseStart: nat, base: Bytes) returns (r: Option<Match>)
    requires needle != [] && baseStart == BaseStart(path) && base == path[baseStart..|path|]
    requires !Applies(path, needle, 0)
    ensures r.None? ==> !Applies(path, needle, 1) && !Applies(path, needle, 2)
    ensures r.Some? ==>
              && r.value.path == path && (r.value.rank == 1 || r.value.rank == 2) && Applies(path, needle, r.value.rank)
              && (forall k: nat :: k < r.value.rank ==> !Applies(path, needle, k))
              && r.value.gap == 0 && Spells(path, needle, r.value.ranges) && IsSubsequence(path, needle)
  {
    hide IsSubsequence, Spells;
    SliceMatches(path, needle, baseStart, |path|, 0);
    if |base| == |needle| {
      var ok, range := ContiguousFold(base, needle, baseStart);
      if ok {
        SameLengthMatchesAtZero(base, needle, range.start - baseStart);
        ClassesEmbed(path, needle, 1);
        OneRangeSpells(path, needle, range.start);
        return Some(Match(path, 1, 0, [range]));
      }
      assert !MatchesAt(base, needle, 0);
    }
    var ok, range := PrefixFold(base, needle, baseStart);
    if ok {
      ClassesEmbed(path, needle, 2);
      OneRangeSpells(path, needle, range.start);
      return Some(Match(path, 2, 0, [range]));
    }
    return None;
  }

  lemma SameLengthMatchesAtZero(haystack: Bytes, needle: Bytes, at: nat)
    requires |haystack| == |needle| && MatchesAt(haystack, needle, at)
    ensures at == 0
  {
  }

  lemma TightestSpells(path: Bytes, needle: Bytes, positions: seq<nat>, ranges: seq<Range>)
    requires needle != [] && positions != [] && IsTightest(path, needle, positions) && AreRunsOf(ranges, positions)
    requires 0 < |ranges| <= |needle| && ranges[|ranges| - 1].end <= |path|
    ensures Spells(path, needle, ranges)
    ensures Gap(positions) == 0 ==> exists at :: MatchesAt(path, needle, at)
  {
    if Gap(positions) == 0 { GaplessIsContiguous(path, needle, positions); }
  }

  method MatchAnywhere(path: Bytes, needle: Bytes) returns (r: Option<Match>)
    requires needle != [] && |path| <= MAX_PATH
    requires forall k: nat :: k < 4 ==> !Applies(path, needle, k)
    ensures r.None? ==> !IsSubsequence(path, needle)
    ensures r.Some? ==>
              && r.value.path == path && (r.value.rank == 4 || r.value.rank == 5) && Applies(path, needle, r.value.rank)
              && (forall k: nat :: k < r.value.rank ==> !Applies(path, needle, k))
              && (r.value.gap > 0 <==> r.value.rank == 5)
              && Spells(path, needle, r.value.ranges) && IsSubsequence(path, needle)
  {
    hide IsSubsequence, MatchesAt, Spells, IsTightest, AreRunsOf, BaseStart;
    var ok, range := ContiguousFold(path, needle, 0);
    if ok {
      ClassesEmbed(path, needle, 4);
      OneRangeSpells(path, needle, range.start);
      return Some(Match(path, 4, 0, [range]));
    }
    var ranges, gap;
    ghost var positions;
    ok, ranges, gap, positions := SubsequenceFold(path, needle);
    if ok {
      TightestSpells(path, needle, positions, ranges);
      assert gap > 0;
      return Some(Match(path, 5, gap, ranges));
    }
    return None;
  }

  // ---------------------------------------------------------------------
  // The order of results
  // ---------------------------------------------------------------------

  function CompareNat(a: nat, b: nat): int { if a < b then -1 else if a > b then 1 else 0 }

  /** By class, gap and path length, then by raw bytes. */
  function CompareMatch(left: Match, right: Match): int {
    if left.rank != right.rank then CompareNat(left.rank, right.rank)
    else if left.gap != right.gap then CompareNat(left.gap, right.gap)
    else if |left.path| != |right.path| then CompareNat(|left.path|, |right.path|)
    else CompareBytes(left.path, right.path)
  }

  function Before(): (Match, Match) -> bool { (l: Match, r: Match) => CompareMatch(l, r) < 0 }

  function MatchPath(): Match -> Bytes { (m: Match) => m.path }

  /** The comparison is a strict order that tells different paths apart. */
  lemma BeforeIsStrictOrder()
    ensures WeakOrder(Before()) && Decides(Before(), MatchPath())
  {
    hide CompareBytes;
    forall l, r ensures Before()(l, r) ==> !Before()(r, l) {
      CompareBytesDecides(l.path, r.path);
    }
    forall x, y, z | Before()(x, z) ensures Before()(x, y) || Before()(y, z) {
      if CompareBytes(x.path, z.path) < 0 { CompareBytesSplits(x.path, y.path, z.path); }
    }
    forall l, r | MatchPath()(l) != MatchPath()(r) ensures Before()(l, r) || Before()(r, l) {
      CompareBytesDecides(l.path, r.path);
      CompareBytesDecides(r.path, l.path);
    }
  }

  /** What a page demands of one match. */
  predicate MatchIsAccepted(m: Match, rangeLimit: nat) {
    m.rank <= 5 && 0 < |m.ranges| <= rangeLimit && RangesAreAccepted(m.ranges, |m.path|)
  }

  predicate RangesAreAccepted(ranges: seq<Range>, length: nat) {
    && (forall i :: 0 <= i < |ranges| ==> ranges[i].start < ranges[i].end <= length)
    && (forall i :: 0 < i < |ranges| ==> ranges[i - 1].end <= ranges[i].start)
  }

  method ValidateRanges(ranges: seq<Range>, length: nat) returns (ok: bool)
    ensures ok <==> RangesAreAccepted(ranges, length)
  {
    var previousEnd := 0;
    for r := 0 to |ranges|
      invariant forall i :: 0 <= i < r ==> ranges[i].start < ranges[i].end <= length
      invariant forall i :: 0 < i < r ==> ranges[i - 1].end <= ranges[i].start
      invariant r > 0 ==> previousEnd == ranges[r - 1].end
    {
      var range := ranges[r];
      if range.start >= range.end || range.end > length || (r > 0 && range.start < previousEnd) {
        return false;
      }
      previousEnd := range.end;
    }
    return true;
  }

  predicate PageIsAccepted(page: seq<Match>, rangeLimit: nat) {
    && (forall i :: 0 <= i < |page| ==> MatchIsAccepted(page[i], rangeLimit))
    && (forall i :: 0 < i < |page| ==> CompareMatch(page[i - 1], page[i]) < 0)
  }

  /** One page of results, and what limits it. */
  datatype Page = Page(snapshot: Snapshot, matches: seq<Match>, nextCursor: Bytes, scanned: nat, complete: bool)

  datatype Policy = Policy(pageLimit: nat, entryCeiling: nat, matchRanges: nat)

  /** The validators of a snapshot, of UTF-8 text and of the entry of a path. */
  datatype Checks = Checks(snapshot: Snapshot -> bool, utf8: Bytes -> bool, entry: Bytes -> bool)

  /** No control characters. */
  predicate IsSafe(value: Bytes) { forall i :: 0 <= i < |value| ==> 0x20 <= value[i] && value[i] != 0x7F }

  /** All that does not concern a single match. */
  predicate HeaderFits(policy: Policy, checks: Checks, page: Page) {
    && checks.snapshot(page.snapshot) && page.complete
    && |page.matches| <= policy.pageLimit && page.scanned <= policy.entryCeiling
    && (page.nextCursor != [] ==> checks.utf8(page.nextCursor) && IsSafe(page.nextCursor))
  }

  predicate EntriesFit(checks: Checks, matches: seq<Match>) {
    forall i :: 0 <= i < |matches| ==> checks.entry(matches[i].path)
  }

  /** A whole, bounded page of valid, ordered matches. */
  predicate PageFits(policy: Policy, checks: Checks, page: Page) {
    && HeaderFits(policy, checks, page)
    && EntriesFit(checks, page.matches) && PageIsAccepted(page.matches, policy.matchRanges)
  }

  datatype Verdict = Good | Invalid | Stale

  method SafeSearchCursor(value: Bytes) returns (safe: bool)
    ensures safe <==> IsSafe(value)
  {
    for index := 0 to |value|
      invariant forall i :: 0 <= i < index ==> 0x20 <= value[i] && value[i] != 0x7F
    {
      if value[index] < 0x20 || value[index] == 0x7F {
        return false;
      }
    }
    return true;
  }

  method ValidatePage(policy: Policy, checks: Checks, page: Page) returns (ok: bool)
    ensures ok <==> PageFits(policy, checks, page)
  {
    if !checks.snapshot(page.snapshot) || !page.complete || |page.matches| > policy.pageLimit || page.scanned > policy.entryCeiling {
      return false;
    }
    if |page.nextCursor| > 0 {
      var safe := SafeSearchCursor(page.nextCursor);
      if !checks.utf8(page.nextCursor) || !safe {
        return false;
      }
    }
    ok := ValidateMatches(checks, page.matches, policy.matchRanges);
  }

  /** A result of another snapshot than the query's is stale, whatever it holds. */
  method ValidateSearchTreeResult(policy: Policy, checks: Checks, snapshot: Snapshot, page: Page) returns (verdict: Verdict)
    ensures verdict == Good <==> page.snapshot == snapshot && PageFits(policy, checks, page)
    ensures verdict == Stale <==> page.snapshot != snapshot
  {
    if page.snapshot != snapshot {
      return Stale;
    }
    var ok := ValidatePage(policy, checks, page);
    return if ok then Good else Invalid;
  }

  method ValidateMatches(checks: Checks, page: seq<Match>, rangeLimit: nat) returns (ok: bool)
    ensures ok <==> EntriesFit(checks, page) && PageIsAccepted(page, rangeLimit)
  {
    hide CompareMatch, RangesAreAccepted;
    for index := 0 to |page|
      invariant forall i :: 0 <= i < index ==> checks.entry(page[i].path)
      invariant forall i :: 0 <= i < index ==> MatchIsAccepted(page[i], rangeLimit)
      invariant forall i :: 0 < i < index ==> CompareMatch(page[i - 1], page[i]) < 0
    {
      var m := page[index];
      if !checks.entry(m.path) || m.rank > 5 || |m.ranges| == 0 || |m.ranges| > rangeLimit {
        return false;
      }
      ok := ValidateRanges(m.ranges, |m.path|);
      if !ok {
        return false;
      }
      if index > 0 && CompareMatch(page[index - 1], m) >= 0 {
        return false;
      }
    }
    return true;
  }

  /** What MatchTreeEntry says of the matches it returns. */
  ghost predicate IsMatchOf(m: Match, needle: Bytes) {
    m.rank <= 5 && Spells(m.path, needle, m.ranges)
  }

  lemma {:induction false} EndsGrow(ranges: seq<Range>, i: nat)
    requires Separate(ranges) && i < |ranges|
    ensures ranges[i].end <= ranges[|ranges| - 1].end
    decreases |ranges| - i
  {
    if i < |ranges| - 1 { EndsGrow(ranges, i + 1); }
  }

  lemma MatchIsAcceptedIff(m: Match, needle: Bytes, rangeLimit: nat)
    requires IsMatchOf(m, needle)
    ensures MatchIsAccepted(m, rangeLimit) <==> |m.ranges| <= rangeLimit
  {
    forall i | 0 <= i < |m.ranges| ensures m.ranges[i].end <= |m.path| {
      EndsGrow(m.ranges, i);
    }
    forall i | 0 < i < |m.ranges| ensures m.ranges[i - 1].end <= m.ranges[i].start {
      assert m.ranges[i - 1].end < m.ranges[i - 1 + 1].start;
    }
  }

  lemma AllAcceptedIff(page: seq<Match>, needle: Bytes, rangeLimit: nat)
    requires forall i :: 0 <= i < |page| ==> IsMatchOf(page[i], needle)
    ensures (forall i :: 0 <= i < |page| ==> MatchIsAccepted(page[i], rangeLimit)) <==>
            (forall i :: 0 <= i < |page| ==> |page[i].ranges| <= rangeLimit)
  {
    hide IsMatchOf, MatchIsAccepted;
    forall i | 0 <= i < |page| ensures MatchIsAccepted(page[i], rangeLimit) <==> |page[i].ranges| <= rangeLimit {
      MatchIsAcceptedIff(page[i], needle, rangeLimit);
    }
  }

  /** The order a page asks of its neighbours is the order of sorted matches. */
  lemma SortedMatchesAreInPageOrder(matches: seq<Match>)
    requires DistinctKeys(MatchPath(), matches)
    ensures var page := StableSort(Before(), matches);
            && multiset(page) == multiset(matches)
            && (forall i :: 0 < i < |page| ==> CompareMatch(page[i - 1], page[i]) < 0)
  {
    hide CompareMatch;
    BeforeIsStrictOrder();
    StableSortIsStrict(Before(), MatchPath(), matches);
    var page := StableSort(Before(), matches);
    forall i | 0 < i < |page| ensures CompareMatch(page[i - 1], page[i]) < 0 {
      assert Before()(page[i - 1], page[i]);
    }
  }

  /** In a page a smaller class comes first, then a smaller gap, then a shorter path,
      and among these the path whose bytes are smaller. */
  lemma {:induction false} APageListsTheClosestFirst(page: seq<Match>, rangeLimit: nat, i: nat, j: nat)
    requires PageIsAccepted(page, rangeLimit) && i < j < |page|
    ensures var a, b := page[i], page[j];
            || a.rank < b.rank
            || (a.rank == b.rank && a.gap < b.gap)
            || (a.rank == b.rank && a.gap == b.gap && |a.path| < |b.path|)
            || (a.rank == b.rank && a.gap == b.gap && |a.path| == |b.path| && exists shared :: ComesFirst(a.path, b.path, shared))
    decreases j
  {
    hide PageIsAccepted;
    NeighboursCompare(page, rangeLimit);
    EarlierComparesBefore(page, i, j);
    CompareBytesIsByteOrder(page[i].path, page[j].path);
  }

  lemma NeighboursCompare(page: seq<Match>, rangeLimit: nat)
    requires PageIsAccepted(page, rangeLimit)
    ensures forall i :: 0 < i < |page| ==> CompareMatch(page[i - 1], page[i]) < 0
  {
  }

  lemma {:induction false} EarlierComparesBefore(page: seq<Match>, i: nat, j: nat)
    requires (forall i :: 0 < i < |page| ==> CompareMatch(page[i - 1], page[i]) < 0) && i < j < |page|
    ensures CompareMatch(page[i], page[j]) < 0
    decreases j
  {
    hide CompareMatch;
    assert CompareMatch(page[j - 1], page[j]) < 0;
    if i < j - 1 {
      EarlierComparesBefore(page, i, j - 1);
      BeforeIsStrictOrder();
      assert Before()(page[i], page[j - 1]) && Before()(page[j - 1], page[j]);
      assert !Before()(page[j], page[j - 1]);
    }
  }

  lemma SameMembers(page: seq<Match>, matches: seq<Match>)
    requires multiset(page) == multiset(matches)
    ensures forall m :: m in page <==> m in matches
  {
    forall m ensures m in page <==> m in matches {
      assert m in multiset(page) <==> m in multiset(matches);
    }
  }

  /** Sorted matches of distinct paths make a page exactly when no match has more
      ranges than a page allows; a needle of at most that many bytes never has. */
  lemma SortedMatchesMakeAPage(matches: seq<Match>, needle: Bytes, rangeLimit: nat)
    requires forall m :: m in matches ==> IsMatchOf(m, needle)
    requires DistinctKeys(MatchPath(), matches)
    ensures var page := StableSort(Before(), matches);
            && multiset(page) == multiset(matches)
            && (PageIsAccepted(page, rangeLimit) <==> forall m :: m in matches ==> |m.ranges| <= rangeLimit)
            && (|needle| <= rangeLimit ==> PageIsAccepted(page, rangeLimit))
  {
    hide CompareMatch, IsMatchOf, MatchIsAccepted, DistinctKeys, StableSort;
    var page := StableSort(Before(), matches);
    SortedMatchesAreInPageOrder(matches);
    SameMembers(page, matches);
    AllAcceptedIff(page, needle, rangeLimit);
    RangesAreFew(page, needle);
  }

  /** So, once it is complete and within its bounds, a page of all matches of a query
      is refused for nothing but the number of ranges of one of them. */
  lemma OnlyRangesSpoilAPage(policy: Policy, checks: Checks, page: Page, matches: seq<Match>, needle: Bytes)
    requires forall m :: m in matches ==> IsMatchOf(m, needle) && checks.entry(m.path)
    requires DistinctKeys(MatchPath(), matches)
    requires page.matches == StableSort(Before(), matches) && HeaderFits(policy, checks, page)
    ensures PageFits(policy, checks, page) <==> forall m :: m in matches ==> |m.ranges| <= policy.matchRanges
    ensures |needle| <= policy.matchRanges ==> PageFits(policy, checks, page)
  {
    hide IsMatchOf, DistinctKeys, StableSort, PageIsAccepted, HeaderFits;
    SortedMatchesMakeAPage(matches, needle, policy.matchRanges);
    SameMembers(page.matches, matches);
  }

  lemma RangesAreFew(matches: seq<Match>, needle: Bytes)
    requires forall i :: 0 <= i < |matches| ==> IsMatchOf(matches[i], needle)
    ensures forall i :: 0 <= i < |matches| ==> |matches[i].ranges| <= |needle|
  {
  }

  // --- A long query with a range for every byte ---

  const LETTER: Byte := 97
  const DASH: Byte := 45

  function Letters(n: nat): Bytes { if n == 0 then [] else Letters(n - 1) + [LETTER] }

  function Dashed(n: nat): (r: Bytes)
    ensures |r| == 2 * n
    ensures forall k :: 0 <= k < 2 * n ==> (Same(r[k], LETTER) <==> k % 2 == 0)
  {
    if n == 0 then [] else Dashed(n - 1) + [LETTER, DASH]
  }

  lemma LongIntervalsTouch(before: seq<nat>, last: Range)
    ensures var positions := before + Interval(last.start, last.end);
            last.end > last.start + 1 ==> |positions| > |before| + 1 && positions[|before|] + 1 == positions[|before| + 1]
  {
  }

  /** Apart by at least one byte each, positions are as many ranges. */
  lemma {:induction false} ScatteredPositionsAreSingleRanges(ranges: seq<Range>, positions: seq<nat>)
    requires AreRunsOf(ranges, positions)
    requires forall i :: 0 < i < |positions| ==> positions[i - 1] + 1 < positions[i]
    ensures |ranges| == |positions|
    decreases |ranges|
  {
    if ranges != [] {
      var last, before := ranges[|ranges| - 1], Expand(ranges[..|ranges| - 1]);
      var interval := Interval(last.start, last.end);
      assert positions == before + interval;
      LongIntervalsTouch(before, last);
      assert positions[..|before|] == before;
      ScatteredPositionsAreSingleRanges(ranges[..|ranges| - 1], before);
    }
  }

  /** A query of n letters matches a path of n dashed letters, and every such match
      has n ranges, so a longer query than a page has ranges spoils the page. */
  lemma ALongQuerySpoilsThePage(n: nat, m: Match, rangeLimit: nat)
    requires n > rangeLimit && m.path == Dashed(n) && IsMatchOf(m, Letters(n))
    ensures |m.ranges| == n && !MatchIsAccepted(m, rangeLimit)
  {
    LettersAreLetters(n);
    DashedLettersAreApart(n, Expand(m.ranges));
    ScatteredPositionsAreSingleRanges(m.ranges, Expand(m.ranges));
  }

  lemma DashedLettersAreApart(n: nat, positions: seq<nat>)
    requires Embeds(Dashed(n), Letters(n), positions)
    ensures forall i :: 0 < i < |positions| ==> positions[i - 1] + 1 < positions[i]
  {
    LettersAreLetters(n);
    forall i | 0 < i < |positions| ensures positions[i - 1] + 1 < positions[i] {
      assert Same(Dashed(n)[positions[i - 1]], LETTER) && Same(Dashed(n)[positions[i]], LETTER);
      assert positions[i - 1] % 2 == 0 && positions[i] % 2 == 0;
    }
  }

  lemma {:induction false} LettersAreLetters(n: nat)
    ensures |Letters(n)| == n && forall i :: 0 <= i < n ==> Letters(n)[i] == LETTER
  {
    if n > 0 { LettersAreLetters(n - 1); }
  }

  /** And such a match exists. */
  lemma LettersAreASubsequence(n: nat)
    ensures IsSubsequence(Dashed(n), Letters(n))
  {
    LettersAreLetters(n);
    assert Embeds(Dashed(n), Letters(n), seq(n, i => 2 * i));
  }
}
