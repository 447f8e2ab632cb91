/** Deciding, path by path, whether an observed destination is the expected
    result or still the recorded baseline. Paths, contents and links are opaque
    values; the order of paths is a parameter. */
module ApplyPaths {
  import opened Ordering
  import opened Wrappers

  type Path(==, !new)
  type Digest(==, !new)
  type Class(==, !new)
  type Semantics(==, !new)
  type Link(==, !new)
  type Native(==, !new)

  datatype Kind = Regular | Symlink | Directory | Gitlink | Unknown

  /** One observed path, or one recorded precondition: the two carry the same
      fields. */
  datatype PathState = PathState(
    path: Path, present: bool, kind: Kind, mode: nat, contentBytes: nat, contentHash: Option<Digest>,
    contentClass: Option<Class>, textSemantics: Option<Semantics>, symlinkTargetHash: Option<Digest>,
    symlinkEvidence: Option<Link>, nativePath: Option<Native>)

  datatype ProposedFile = ProposedFile(
    path: Path, oldPath: Option<Path>, deleted: bool, copied: bool,
    kind: Kind, mode: nat, contentBytes: nat, contentHash: Option<Digest>, contentClass: Option<Class>,
    textSemantics: Option<Semantics>, symlinkEvidence: Option<Link>,
    oldKind: Kind, oldMode: nat, oldContentBytes: nat, oldContentHash: Option<Digest>, oldContentClass: Option<Class>,
    oldTextSemantics: Option<Semantics>)

  datatype Expected = Absent | Present(
    kind: Kind, mode: nat, contentBytes: nat, contentHash: Option<Digest>, contentClass: Option<Class>,
    textSemantics: Option<Semantics>, symlinkEvidence: Option<Link>)

  /** What a proposed file leaves at its own path. */
  function Target(file: ProposedFile): Expected {
    if file.deleted then Absent
    else Present(file.kind, file.mode, file.contentBytes, file.contentHash, file.contentClass, file.textSemantics,
                 file.symlinkEvidence)
  }

  /** What it leaves at the path it came from. */
  function Origin(file: ProposedFile): Expected {
    if file.copied then
      Present(file.oldKind, file.oldMode, file.oldContentBytes, file.oldContentHash, file.oldContentClass,
              file.oldTextSemantics, None)
    else Absent
  }

  predicate ComesFrom(file: ProposedFile, key: Path) {
    file.oldPath == Some(key) && key != file.path
  }

  predicate Meets(observed: PathState, want: Expected) {
    match want
    case Absent => !observed.present
    case Present(kind, mode, contentBytes, contentHash, contentClass, textSemantics, symlinkEvidence) =>
      var observedHash := if kind == Symlink then observed.symlinkTargetHash else observed.contentHash;
      && observed.present && observed.kind == kind && observed.mode == mode
      && (contentClass.Some? ==>
          && observed.contentBytes == contentBytes && observed.contentClass == contentClass
          && (textSemantics.Some? ==> observed.textSemantics == textSemantics))
      && (contentHash.Some? ==> observedHash == contentHash)
      && (symlinkEvidence.Some? ==> observed.symlinkEvidence == symlinkEvidence)
  }

  /** What a list of proposed files asks of one path: the last file that mentions
      it decides. */
  function Demand(files: seq<ProposedFile>, key: Path): Option<Expected> {
    if files == [] then None
    else
      var last := files[|files| - 1];
      if ComesFrom(last, key) then Some(Origin(last))
      else if last.path == key then Some(Target(last))
      else Demand(files[..|files| - 1], key)
  }

  /** The observation covers exactly the paths asked about and meets every one. */
  ghost predicate IsResult(actual: map<Path, PathState>, files: seq<ProposedFile>) {
    forall key: Path ::
      && (key in actual <==> Demand(files, key).Some?)
      && (key in actual ==> Meets(actual[key], Demand(files, key).value))
  }

  ghost predicate Answers(expected: map<Path, Expected>, files: seq<ProposedFile>) {
    forall key: Path ::
      && (key in expected <==> Demand(files, key).Some?)
      && (key in expected ==> expected[key] == Demand(files, key).value)
  }

  lemma AnswersNext(expected: map<Path, Expected>, files: seq<ProposedFile>, i: nat)
    requires i < |files| && Answers(expected, files[..i])
    ensures var more := expected[files[i].path := Target(files[i])];
            Answers(if files[i].oldPath.Some? && files[i].oldPath.value != files[i].path
                    then more[files[i].oldPath.value := Origin(files[i])] else more, files[..i + 1])
  {
    assert files[..i + 1][..i] == files[..i];
  }

  lemma SubsetOfSameSize<T>(a: set<T>, b: set<T>)
    requires a <= b && |a| == |b|
    ensures a == b
  {
    assert |b - a| == |b| - |a|;
  }

  /** The comparison accepts an observation exactly when it is the result the
      list asks for: no path missing, none extra, every one as demanded. */
  method ApplyResultPathsMatch(actual: map<Path, PathState>, files: seq<ProposedFile>) returns (matches: bool)
    ensures matches <==> IsResult(actual, files)
  {
    var expected: map<Path, Expected> := map[];
    for i := 0 to |files|
      invariant Answers(expected, files[..i])
    {
      AnswersNext(expected, files, i);
      var file := files[i];
      expected := expected[file.path := Target(file)];
      if file.oldPath.Some? && file.oldPath.value != file.path {
        expected := expected[file.oldPath.value := Origin(file)];
      }
    }
    assert files[..|files|] == files;
    if |actual| != |expected| {
      assert IsResult(actual, files) ==> actual.Keys == expected.Keys;
      return false;
    }
    var remaining := expected.Keys;
    while remaining != {}
      invariant remaining <= expected.Keys
      invariant forall key :: key in expected.Keys - remaining ==> key in actual && Meets(actual[key], expected[key])
      decreases |remaining|
    {
      var key :| key in remaining;
      if key !in actual || !Meets(actual[key], expected[key]) {
        return false;
      }
      remaining := remaining - {key};
    }
    assert forall key :: key in expected.Keys ==> key in expected.Keys - {};
    SubsetOfSameSize(expected.Keys, actual.Keys);
    return true;
  }

  // ---------------------------------------------------------------------
  // When the order of the files matters
  // ---------------------------------------------------------------------

  ghost predicate DistinctPaths(files: seq<ProposedFile>) {
    forall i, j :: 0 <= i < j < |files| ==> files[i].path != files[j].path
  }

  /** No file from index `from` on mentions the path. */
  ghost predicate Unmentioned(files: seq<ProposedFile>, from: nat, key: Path) {
    forall j :: from <= j < |files| ==> files[j].path != key && files[j].oldPath != Some(key)
  }

  lemma {:induction false} DemandIsTheLastMention(files: seq<ProposedFile>, i: nat, key: Path)
    requires i < |files| && Unmentioned(files, i + 1, key)
    requires ComesFrom(files[i], key) || files[i].path == key
    ensures Demand(files, key) == Some(if ComesFrom(files[i], key) then Origin(files[i]) else Target(files[i]))
    decreases |files|
  {
    if i < |files| - 1 {
      DemandIsTheLastMention(files[..|files| - 1], i, key);
    }
  }

  /** What a file asks of a path it mentions. */
  function Asked(file: ProposedFile, key: Path): Expected { if ComesFrom(file, key) then Origin(file) else Target(file) }

  predicate Mentions(file: ProposedFile, key: Path) { ComesFrom(file, key) || file.path == key }

  /** The file mentions the path and no later one does. */
  ghost predicate MentionsLast(files: seq<ProposedFile>, i: nat, key: Path) {
    i < |files| && Mentions(files[i], key) && forall j :: i < j < |files| ==> !Mentions(files[j], key)
  }

  lemma {:induction false} DemandIsWhatTheLastAsks(files: seq<ProposedFile>, i: nat, key: Path)
    requires MentionsLast(files, i, key)
    ensures i < |files| && Demand(files, key) == Some(Asked(files[i], key))
    decreases |files|
  {
    if i < |files| - 1 {
      assert !Mentions(files[|files| - 1], key);
      DemandIsWhatTheLastAsks(files[..|files| - 1], i, key);
    }
  }

  lemma {:induction false} DemandHasALastMention(files: seq<ProposedFile>, key: Path) returns (i: nat)
    requires Demand(files, key).Some?
    ensures MentionsLast(files, i, key)
    decreases |files|
  {
    if Mentions(files[|files| - 1], key) {
      i := |files| - 1;
    } else {
      i := DemandHasALastMention(files[..|files| - 1], key);
      assert files[..|files| - 1][i] == files[i];
      forall j | i < j < |files| ensures !Mentions(files[j], key) {
        assert j < |files| - 1 ==> files[..|files| - 1][j] == files[j];
      }
    }
  }

  /** An observation is the result exactly when it covers the mentioned paths and
      meets, at each of them, what the last file that mentions it asks. */
  lemma ResultIffLastMentionsAreMet(actual: map<Path, PathState>, files: seq<ProposedFile>)
    ensures IsResult(actual, files) <==>
            && (forall key :: key in actual <==> exists i: nat :: MentionsLast(files, i, key))
            && (forall key, i: nat :: i < |files| && key in actual && MentionsLast(files, i, key) ==> Meets(actual[key], Asked(files[i], key)))
  {
    hide Meets, MentionsLast, Asked, Demand;
    forall key, i: nat | MentionsLast(files, i, key) ensures i < |files| && Demand(files, key) == Some(Asked(files[i], key)) {
      DemandIsWhatTheLastAsks(files, i, key);
    }
    forall key: Path | Demand(files, key).Some? ensures exists i: nat :: MentionsLast(files, i, key) {
      var i := DemandHasALastMention(files, key);
    }
  }

  ghost function LastSource(files: seq<ProposedFile>, i: nat, key: Path): (j: nat)
    requires i < |files| && exists j :: i < j < |files| && files[j].oldPath == Some(key)
    ensures i < j < |files| && files[j].oldPath == Some(key)
    ensures forall k :: j < k < |files| ==> files[k].oldPath != Some(key)
    decreases |files|
  {
    if files[|files| - 1].oldPath == Some(key) then |files| - 1
    else LastSource(files[..|files| - 1], i, key)
  }

  ghost predicate LastFrom(files: seq<ProposedFile>, j: nat, key: Path) {
    forall k :: j < k < |files| ==> files[k].oldPath != Some(key)
  }

  /** A path that some file leaves in place is demanded as that file leaves it
      exactly when the last later file that comes from it, if any, leaves the
      same there. */
  lemma {:induction false} RenameOrderDecides(files: seq<ProposedFile>, i: nat)
    requires DistinctPaths(files) && i < |files|
    ensures Demand(files, files[i].path) == Some(Target(files[i])) <==>
            forall j :: i < j < |files| && files[j].oldPath == Some(files[i].path) && LastFrom(files, j, files[i].path) ==>
              Origin(files[j]) == Target(files[i])
  {
    var key := files[i].path;
    if forall j :: i < j < |files| ==> files[j].oldPath != Some(key) {
      DemandIsTheLastMention(files, i, key);
    } else {
      var j := LastSource(files, i, key);
      assert files[j].path != key;
      DemandIsTheLastMention(files, j, key);
      assert LastFrom(files, j, key);
    }
  }

  // ---------------------------------------------------------------------
  // The baseline
  // ---------------------------------------------------------------------

  /** Paths are distinct and the order of paths decides between any two. */
  ghost predicate PathOrder(less: (Path, Path) -> bool) {
    && WeakOrder(less)
    && forall p, q :: p != q ==> less(p, q) || less(q, p)
  }

  function PathOf(): PathState -> Path { (s: PathState) => s.path }

  ghost predicate DistinctStates(states: seq<PathState>) { DistinctKeys(PathOf(), states) }

  function ByPath(less: (Path, Path) -> bool): (PathState, PathState) -> bool {
    (a: PathState, b: PathState) => less(a.path, b.path)
  }

  lemma ByPathIsWeakOrder(less: (Path, Path) -> bool)
    requires PathOrder(less)
    ensures WeakOrder(ByPath(less)) && Decides(ByPath(less), PathOf())
  {
    var before := ByPath(less);
    forall x, y | before(x, y) ensures !before(y, x) {
      assert less(x.path, y.path);
    }
    forall x, y, z | before(x, z) ensures before(x, y) || before(y, z) {
      assert less(x.path, z.path) ==> less(x.path, y.path) || less(y.path, z.path);
    }
  }

  function SameApplyPreconditions(less: (Path, Path) -> bool, left: seq<PathState>, right: seq<PathState>): bool {
    |left| == |right| && StableSort(ByPath(less), left) == StableSort(ByPath(less), right)
  }

  /** Sorting both lists and comparing them in order decides whether they hold the
      same states. */
  lemma SameIffSameStates(less: (Path, Path) -> bool, left: seq<PathState>, right: seq<PathState>)
    requires PathOrder(less) && DistinctStates(left) && DistinctStates(right)
    ensures SameApplyPreconditions(less, left, right) <==> multiset(left) == multiset(right)
  {
    ByPathIsWeakOrder(less);
    if multiset(left) == multiset(right) {
      ArrangementsSortAlike(ByPath(less), PathOf(), left, right);
      assert |multiset(left)| == |left| && |multiset(right)| == |right|;
    } else {
      StableSortPermutes(ByPath(less), left);
      StableSortPermutes(ByPath(less), right);
    }
  }

  /** Every observed path carries its own name. */
  ghost predicate Keyed(actual: map<Path, PathState>) {
    forall key :: key in actual ==> actual[key].path == key
  }

  /** The observation is the baseline: as many paths, each precondition observed. */
  ghost predicate IsBaseline(actual: map<Path, PathState>, expected: seq<PathState>) {
    && |actual| == |expected|
    && forall i :: 0 <= i < |expected| ==> expected[i].path in actual && actual[expected[i].path] == expected[i]
  }

  lemma {:induction false} PathsOf(states: seq<PathState>)
    requires DistinctStates(states)
    ensures |set s | s in states :: s.path| == |states|
  {
    if states != [] {
      var rest := states[..|states| - 1];
      PathsOf(rest);
      var last := states[|states| - 1];
      assert (set s | s in states :: s.path) == (set s | s in rest :: s.path) + {last.path};
      assert last.path !in (set s | s in rest :: s.path);
    }
  }

  lemma BaselineIffSameStates(actual: map<Path, PathState>, observed: seq<PathState>, expected: seq<PathState>)
    requires Keyed(actual) && DistinctStates(expected) && DistinctStates(observed) && |observed| == |actual| == |expected|
    requires forall s :: s in observed <==> s.path in actual && actual[s.path] == s
    ensures multiset(observed) == multiset(expected) <==> IsBaseline(actual, expected)
  {
    if multiset(observed) == multiset(expected) {
      forall i | 0 <= i < |expected| ensures expected[i].path in actual && actual[expected[i].path] == expected[i] {
        assert expected[i] in multiset(observed);
      }
    }
    if IsBaseline(actual, expected) {
      PathsOf(expected);
      SubsetOfSameSize(set s | s in expected :: s.path, actual.Keys);
      forall s: PathState ensures multiset(observed)[s] == multiset(expected)[s] {
        if s in observed {
          assert s.path in (set t | t in expected :: t.path);
          var i :| 0 <= i < |expected| && expected[i].path == s.path;
          var k :| 0 <= k < |observed| && observed[k] == s;
          OnceOnly(PathOf(), observed, k);
          OnceOnly(PathOf(), expected, i);
        } else {
          assert s !in expected;
        }
      }
    }
  }

  /** The observed states are gathered in whatever order the map yields them; the
      verdict does not depend on it. */
  method ApplyBaselinePathsMatch(less: (Path, Path) -> bool, actual: map<Path, PathState>, expected: seq<PathState>)
    returns (matches: bool)
    requires PathOrder(less) && Keyed(actual) && DistinctStates(expected)
    ensures matches <==> IsBaseline(actual, expected)
  {
    if |actual| != |expected| {
      return false;
    }
    var observed: seq<PathState> := [];
    var remaining := actual.Keys;
    while remaining != {}
      invariant remaining <= actual.Keys && |observed| + |remaining| == |actual|
      invariant DistinctStates(observed)
      invariant forall s :: s in observed <==> s.path in actual.Keys - remaining && actual[s.path] == s
      decreases |remaining|
    {
      var key :| key in remaining;
      observed := observed + [actual[key]];
      remaining := remaining - {key};
    }
    SameIffSameStates(less, observed, expected);
    BaselineIffSameStates(actual, observed, expected);
    return SameApplyPreconditions(less, observed, expected);
  }
}
