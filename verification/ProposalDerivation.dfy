/** Publishing a proposal: a patch is accepted when its file sections cover the
    delta between baseline and result, and becomes a list of proposed files. The
    question is whether the true result, observed later, is recognised as the
    result of that list. */
module ProposalDerivation {
  import opened Wrappers
  import opened ApplyPaths

  datatype Manifest = Manifest(
    kind: Kind, mode: nat, bytes: nat, sha256: Option<Digest>, class_: Option<Class>, text: Option<Semantics>, link: Option<Link>)

  /** One path of the delta: how it was and how it is. */
  datatype Entry = Entry(baseline: Option<Manifest>, result: Option<Manifest>)

  datatype Change = Added | Modified | Deleted | Renamed | Copied | TypeChanged | Untracked

  /** One section of the patch; `evidence` says that it carries the similarity
      evidence of the present policy for its two paths. */
  datatype ChangedFile = ChangedFile(
    change: Change, oldPath: Option<Path>, newPath: Option<Path>, oldKind: Kind, newKind: Kind, oldMode: nat, newMode: nat,
    evidence: bool)

  predicate ValidChange(file: ChangedFile) {
    match file.change
    case Added => file.oldPath.None? && file.newPath.Some?
    case Untracked => file.oldPath.None? && file.newPath.Some?
    case Deleted => file.oldPath.Some? && file.newPath.None?
    case Modified => file.oldPath.Some? && file.newPath.Some? && file.oldKind == file.newKind
    case TypeChanged => file.oldPath.Some? && file.newPath.Some? && file.oldKind != file.newKind
    case _ => file.oldPath.Some? && file.newPath.Some?
  }

  const PLAIN: nat := 0x81A4
  const EXECUTABLE: nat := 0x81ED

  /** The kind of a Git mode. */
  function ModeKind(mode: nat): Kind {
    if mode == PLAIN || mode == EXECUTABLE then Regular
    else if mode == 0xA000 then Symlink
    else if mode == 0xE000 then Gitlink
    else if mode == 0x4000 then Directory
    else Unknown
  }

  predicate IsSide(side: Option<Manifest>, kind: Kind, mode: nat) {
    && side.Some? && side.value.kind == kind && side.value.mode == mode
    && ModeKind(mode) == kind != Unknown
  }

  predicate RenameMatches(file: ChangedFile, delta: map<Path, Entry>) {
    && file.oldPath.Some? && file.newPath.Some? && file.evidence && file.oldPath != file.newPath
    && file.newPath.value in delta && delta[file.newPath.value].baseline.None? && delta[file.newPath.value].result.Some?
    && file.oldPath.value in delta && delta[file.oldPath.value].baseline.Some?
    && (delta[file.oldPath.value].result.None? <==> file.change == Renamed)
  }

  predicate FileFits(file: ChangedFile, delta: map<Path, Entry>) {
    && ValidChange(file)
    && (file.change == Renamed || file.change == Copied ==> RenameMatches(file, delta))
    && (file.oldPath.Some? ==>
          if file.oldPath.value in delta then IsSide(delta[file.oldPath.value].baseline, file.oldKind, file.oldMode)
          else file.change == Copied)
    && (file.newPath.Some? ==>
          file.newPath.value in delta && IsSide(delta[file.newPath.value].result, file.newKind, file.newMode))
  }

  predicate Names(file: ChangedFile, key: Path) { file.oldPath == Some(key) || file.newPath == Some(key) }

  /** Every section fits the delta, and every path of the delta is in a section. */
  ghost predicate CoversDelta(files: seq<ChangedFile>, delta: map<Path, Entry>) {
    && (forall i :: 0 <= i < |files| ==> FileFits(files[i], delta))
    && (forall key :: key in delta ==> exists i :: 0 <= i < |files| && Names(files[i], key))
  }

  /** The modes Git gives to each kind. */
  const GIT_MODES := {(Regular, 0x81A4), (Regular, 0x81ED), (Symlink, 0xA000), (Gitlink, 0xE000), (Directory, 0x4000)}

  /** A section fits exactly if its paths are in the delta as it describes them: each side
      in kind and Git mode, present where the change has it; and a rename or copy goes to
      a new path, from one that is gone in the result or still there. The test that lets
      the source of a copy be outside the delta decides nothing. */
  lemma ASectionFitsIff(file: ChangedFile, delta: map<Path, Entry>)
    ensures FileFits(file, delta) <==>
              && (file.oldPath.Some? <==> file.change != Added && file.change != Untracked)
              && (file.newPath.Some? <==> file.change != Deleted)
              && (file.change == Modified ==> file.oldKind == file.newKind)
              && (file.change == TypeChanged ==> file.oldKind != file.newKind)
              && (file.oldPath.Some? ==>
                    && file.oldPath.value in delta && delta[file.oldPath.value].baseline.Some?
                    && var m := delta[file.oldPath.value].baseline.value;
                       (m.kind, m.mode) == (file.oldKind, file.oldMode) && (m.kind, m.mode) in GIT_MODES)
              && (file.newPath.Some? ==>
                    && file.newPath.value in delta && delta[file.newPath.value].result.Some?
                    && var m := delta[file.newPath.value].result.value;
                       (m.kind, m.mode) == (file.newKind, file.newMode) && (m.kind, m.mode) in GIT_MODES)
              && (file.change == Renamed || file.change == Copied ==>
                    && file.evidence && file.oldPath != file.newPath && delta[file.newPath.value].baseline.None?
                    && (delta[file.oldPath.value].result.None? <==> file.change == Renamed))
  {
    forall kind: Kind, mode: nat ensures ModeKind(mode) == kind != Unknown <==> (kind, mode) in GIT_MODES {
    }
  }

  function NamesOf(file: ChangedFile): (r: set<Path>)
    ensures forall key :: key in r <==> Names(file, key)
  {
    (if file.oldPath.Some? then {file.oldPath.value} else {}) + (if file.newPath.Some? then {file.newPath.value} else {})
  }

  ghost predicate IsCovered(files: seq<ChangedFile>, n: int, covered: set<Path>) {
    forall key :: key in covered <==> exists i :: 0 <= i < n && i < |files| && Names(files[i], key)
  }

  lemma CoversNext(files: seq<ChangedFile>, i: nat, covered: set<Path>)
    requires i < |files| && IsCovered(files, i, covered)
    ensures IsCovered(files, i + 1, covered + NamesOf(files[i]))
  {
    hide Names;
  }

  lemma CoversIffAllNamed(files: seq<ChangedFile>, delta: map<Path, Entry>, covered: set<Path>)
    requires IsCovered(files, |files|, covered) && covered <= delta.Keys
    requires forall i :: 0 <= i < |files| ==> FileFits(files[i], delta)
    ensures CoversDelta(files, delta) <==> |covered| == |delta|
  {
    hide FileFits, Names;
    assert |delta| == |delta.Keys|;
    if |covered| == |delta| {
      SubsetOfSameSize(covered, delta.Keys);
    }
    if CoversDelta(files, delta) {
      forall key | key in delta.Keys ensures key in covered {
        var i :| 0 <= i < |files| && Names(files[i], key);
      }
      assert covered == delta.Keys;
    }
  }

  /** The check of the sections, one after the other, gathering covered paths. */
  method ArtifactCoversDelta(files: seq<ChangedFile>, delta: map<Path, Entry>) returns (covers: bool)
    ensures covers <==> CoversDelta(files, delta)
  {
    hide FileFits, IsCovered, Names, NamesOf;
    var covered: set<Path> := {};
    assert IsCovered(files, 0, {}) by { NothingCovered(files); }
    for i := 0 to |files|
      invariant forall k :: 0 <= k < i ==> FileFits(files[k], delta)
      invariant covered <= delta.Keys && IsCovered(files, i, covered)
    {
      if !FileFits(files[i], delta) {
        return false;
      }
      FitsWithin(files[i], delta);
      CoversNext(files, i, covered);
      covered := covered + NamesOf(files[i]);
    }
    CoversIffAllNamed(files, delta, covered);
    return |covered| == |delta|;
  }

  lemma NothingCovered(files: seq<ChangedFile>)
    ensures IsCovered(files, 0, {})
  {
  }

  lemma FitsWithin(file: ChangedFile, delta: map<Path, Entry>)
    requires FileFits(file, delta)
    ensures forall key :: Names(file, key) ==> key in delta
  {
  }

  // ---------------------------------------------------------------------
  // The list of proposed files
  // ---------------------------------------------------------------------

  /** What the delta says of the source: its result for a copy, else its baseline. */
  function Source(file: ChangedFile, delta: map<Path, Entry>): Option<Manifest>
    requires file.oldPath.Some?
  {
    if file.oldPath.value !in delta then None
    else if file.change == Copied && delta[file.oldPath.value].result.Some? then delta[file.oldPath.value].result
    else delta[file.oldPath.value].baseline
  }

  /** One proposed file; only a copy is told the digest of its source. */
  function Derived(file: ChangedFile, delta: map<Path, Entry>): ProposedFile
    requires ValidChange(file)
  {
    if file.newPath.None? then
      ProposedFile(file.oldPath.value, None, true, false, Unknown, 0, 0, None, None, None, None, Unknown, 0, 0, None, None, None)
    else
      var result := if file.newPath.value in delta then delta[file.newPath.value].result else None;
      var source := if file.oldPath.Some? then Source(file, delta) else None;
      var target := ProposedFile(
        file.newPath.value, None, false, file.change == Copied, file.newKind, file.newMode,
        if result.Some? then result.value.bytes else 0,
        if result.Some? then result.value.sha256 else None,
        if result.Some? then result.value.class_ else None,
        if result.Some? then result.value.text else None,
        if result.Some? then result.value.link else None,
        Unknown, 0, 0, None, None, None);
      if file.oldPath.None? then target
      else
        target.(
          oldPath := file.oldPath, oldKind := file.oldKind, oldMode := file.oldMode,
          oldContentBytes := if source.Some? then source.value.bytes else 0,
          oldContentHash := if source.Some? && file.change == Copied then source.value.sha256 else None,
          oldContentClass := if source.Some? then source.value.class_ else None,
          oldTextSemantics := if source.Some? then source.value.text else None)
  }

  ghost predicate AreDerived(proposed: seq<ProposedFile>, files: seq<ChangedFile>, delta: map<Path, Entry>) {
    && |proposed| == |files|
    && forall i :: 0 <= i < |files| ==> ValidChange(files[i]) && proposed[i] == Derived(files[i], delta)
  }

  /** Derives the list, or nothing if a section or a proposed file is invalid. */
  method DeriveProposedFiles(valid: ProposedFile -> bool, files: seq<ChangedFile>, delta: map<Path, Entry>)
    returns (proposed: Option<seq<ProposedFile>>)
    ensures proposed.None? <==> exists i :: 0 <= i < |files| && (!ValidChange(files[i]) || !valid(Derived(files[i], delta)))
    ensures proposed.Some? ==> AreDerived(proposed.value, files, delta)
  {
    var result: seq<ProposedFile> := [];
    for i := 0 to |files|
      invariant AreDerived(result, files[..i], delta)
      invariant forall k :: 0 <= k < i ==> ValidChange(files[k]) && valid(Derived(files[k], delta))
    {
      if !ValidChange(files[i]) || !valid(Derived(files[i], delta)) {
        return None;
      }
      result := result + [Derived(files[i], delta)];
    }
    assert files[..|files|] == files;
    return Some(result);
  }

  // ---------------------------------------------------------------------
  // The true result
  // ---------------------------------------------------------------------

  /** What an observer sees of a path that is as the manifest says. */
  function Observed(path: Path, m: Option<Manifest>): PathState {
    match m
    case None => PathState(path, false, Unknown, 0, 0, None, None, None, None, None, None)
    case Some(v) =>
      PathState(path, true, v.kind, v.mode, v.bytes, if v.kind == Symlink then None else v.sha256, v.class_, v.text,
                if v.kind == Symlink then v.sha256 else None, v.link, None)
  }

  /** The destination once every path of the delta is as in the result. */
  function TrueResult(delta: map<Path, Entry>): map<Path, PathState> {
    map key | key in delta :: Observed(key, delta[key].result)
  }

  /** No section behind it names the path. */
  ghost predicate NamedLast(files: seq<ChangedFile>, i: nat, key: Path) {
    i < |files| && Names(files[i], key) && forall j :: i < j < |files| ==> !Names(files[j], key)
  }

  /** The path had its present kind and mode before. */
  predicate KeepsShape(entry: Entry) {
    entry.baseline.Some? && entry.result.Some? &&
    entry.baseline.value.kind == entry.result.value.kind && entry.baseline.value.mode == entry.result.value.mode
  }

  /** What a section says of the path it starts from is true of the result. */
  predicate TellsTruth(file: ChangedFile, delta: map<Path, Entry>, key: Path)
    requires key in delta
  {
    if file.newPath == Some(key) then true
    else if file.change == Copied then KeepsShape(delta[key])
    else delta[key].result.None?
  }

  lemma MentionsAreNames(file: ChangedFile, delta: map<Path, Entry>, key: Path)
    requires ValidChange(file)
    ensures Mentions(Derived(file, delta), key) <==> Names(file, key)
  {
  }

  lemma AskedIsMetIff(file: ChangedFile, delta: map<Path, Entry>, key: Path)
    requires FileFits(file, delta) && key in delta && Names(file, key)
    ensures Meets(Observed(key, delta[key].result), Asked(Derived(file, delta), key)) <==> TellsTruth(file, delta, key)
  {
  }

  lemma MentionedLastIffNamedLast(files: seq<ChangedFile>, proposed: seq<ProposedFile>, delta: map<Path, Entry>, i: nat, key: Path)
    requires AreDerived(proposed, files, delta)
    ensures MentionsLast(proposed, i, key) <==> NamedLast(files, i, key)
  {
    hide Mentions, Names, Derived;
    forall j | 0 <= j < |files| ensures Mentions(proposed[j], key) <==> Names(files[j], key) {
      MentionsAreNames(files[j], delta, key);
    }
  }

  lemma {:induction false} SomeSectionNamesLast(files: seq<ChangedFile>, i: nat, key: Path) returns (last: nat)
    requires i < |files| && Names(files[i], key)
    ensures NamedLast(files, last, key)
    decreases |files| - i
  {
    if j :| i < j < |files| && Names(files[j], key) {
      last := SomeSectionNamesLast(files, j, key);
    } else {
      last := i;
    }
  }

  /** The result that the patch was made from is recognised exactly when the last
      section that names a path tells the truth about it. */
  lemma TheTrueResultIsAcceptedIff(files: seq<ChangedFile>, proposed: seq<ProposedFile>, delta: map<Path, Entry>)
    requires CoversDelta(files, delta) && AreDerived(proposed, files, delta)
    ensures IsResult(TrueResult(delta), proposed) <==>
            forall i: nat, key :: i < |files| && key in delta && NamedLast(files, i, key) ==> TellsTruth(files[i], delta, key)
  {
    hide Meets, Asked, Derived, MentionsLast, NamedLast, TellsTruth, Names, FileFits, Observed, IsResult;
    var actual := TrueResult(delta);
    ResultIffLastMentionsAreMet(actual, proposed);
    forall i: nat, key ensures MentionsLast(proposed, i, key) <==> NamedLast(files, i, key) {
      MentionedLastIffNamedLast(files, proposed, delta, i, key);
    }
    forall key ensures key in actual <==> exists i :: MentionsLast(proposed, i, key) {
      if key in delta {
        var i :| 0 <= i < |files| && Names(files[i], key);
        var last := SomeSectionNamesLast(files, i, key);
      }
      if i :| NamedLast(files, i, key) {
        LastFits(files, delta, i, key);
      }
    }
    forall i: nat, key | i < |files| && key in delta && NamedLast(files, i, key)
      ensures Meets(actual[key], Asked(proposed[i], key)) <==> TellsTruth(files[i], delta, key)
    {
      LastFits(files, delta, i, key);
      AskedIsMetIff(files[i], delta, key);
    }
  }

  lemma LastFits(files: seq<ChangedFile>, delta: map<Path, Entry>, i: nat, key: Path)
    requires CoversDelta(files, delta) && NamedLast(files, i, key)
    ensures i < |files| && FileFits(files[i], delta) && Names(files[i], key) && key in delta
  {
    hide FileFits;
    FitsWithin(files[i], delta);
  }

  /** Sections as Git writes them: only renames and copies have two different
      paths, and what is deleted has no result. */
  ghost predicate AsGitWrites(files: seq<ChangedFile>, delta: map<Path, Entry>) {
    forall i :: 0 <= i < |files| ==>
      && (files[i].change == Modified || files[i].change == TypeChanged ==> files[i].oldPath == files[i].newPath)
      && (files[i].change == Deleted && files[i].oldPath.Some? && files[i].oldPath.value in delta ==>
            delta[files[i].oldPath.value].result.None?)
  }

  /** Of such a patch the true result is recognised exactly when every copied path
      that no later section names has kept its kind and mode: the copy records the
      mode its source had before, and asks for it afterwards. */
  lemma OnlyCopiesMislead(files: seq<ChangedFile>, proposed: seq<ProposedFile>, delta: map<Path, Entry>)
    requires CoversDelta(files, delta) && AreDerived(proposed, files, delta) && AsGitWrites(files, delta)
    ensures IsResult(TrueResult(delta), proposed) <==>
            forall i: nat, key :: i < |files| && key in delta && NamedLast(files, i, key) && files[i].change == Copied && files[i].oldPath == Some(key) ==>
              KeepsShape(delta[key])
  {
    hide IsResult, TrueResult, AreDerived, KeepsShape, NamedLast;
    TheTrueResultIsAcceptedIff(files, proposed, delta);
    forall i: nat, key | i < |files| && key in delta && NamedLast(files, i, key)
      ensures TellsTruth(files[i], delta, key) <==>
              (files[i].change == Copied && files[i].oldPath == Some(key) ==> KeepsShape(delta[key]))
    {
      LastFits(files, delta, i, key);
    }
  }

  /** A rename never overrides another file: no section leaves anything at the path
      it came from, and no section comes from where it or a copy goes. So two files
      that swap their paths are no publishable pair of renames. */
  lemma RenamesNeverOverride(files: seq<ChangedFile>, delta: map<Path, Entry>, i: nat, j: nat)
    requires CoversDelta(files, delta) && i < |files| && j < |files|
    ensures files[i].change == Renamed ==> files[j].newPath != files[i].oldPath
    ensures files[i].change == Renamed || files[i].change == Copied ==> files[j].oldPath != files[i].newPath
  {
    assert FileFits(files[i], delta) && FileFits(files[j], delta);
  }

  /** And a proposal without copies is always recognised. */
  lemma WithoutCopiesTheResultIsAccepted(files: seq<ChangedFile>, proposed: seq<ProposedFile>, delta: map<Path, Entry>)
    requires CoversDelta(files, delta) && AreDerived(proposed, files, delta) && AsGitWrites(files, delta)
    requires forall i :: 0 <= i < |files| ==> files[i].change != Copied
    ensures IsResult(TrueResult(delta), proposed)
  {
    hide IsResult, TrueResult, AreDerived, CoversDelta;
    OnlyCopiesMislead(files, proposed, delta);
  }

  // ---------------------------------------------------------------------
  // What else is accepted
  // ---------------------------------------------------------------------

  /** The observation shows what the manifest records: always kind and mode, and of the
      content and the link whatever is recorded. */
  predicate LooksLike(seen: PathState, m: Option<Manifest>) {
    match m
    case None => !seen.present
    case Some(v) =>
      && seen.present && (seen.kind, seen.mode) == (v.kind, v.mode)
      && (v.class_.Some? ==> (seen.contentBytes, seen.contentClass) == (v.bytes, v.class_))
      && (v.class_.Some? && v.text.Some? ==> seen.textSemantics == v.text)
      && (v.sha256.Some? ==> v.sha256 == if v.kind == Symlink then seen.symlinkTargetHash else seen.contentHash)
      && (v.link.Some? ==> seen.symlinkEvidence == v.link)
  }

  /** What must be seen at a path that this section names last: the path's result; but
      where a copy came from, the result's content in the shape it had before. */
  function Wanted(file: ChangedFile, entry: Entry, key: Path): Option<Manifest> {
    if file.change == Copied && file.newPath != Some(key) && entry.baseline.Some? && entry.result.Some? then
      Some(entry.result.value.(kind := entry.baseline.value.kind, mode := entry.baseline.value.mode, link := None))
    else entry.result
  }

  lemma AskedIsWanted(seen: PathState, file: ChangedFile, delta: map<Path, Entry>, key: Path)
    requires FileFits(file, delta) && key in delta && Names(file, key)
    requires file.change == Modified || file.change == TypeChanged ==> file.oldPath == file.newPath
    requires file.change == Deleted ==> delta[key].result.None?
    ensures Meets(seen, Asked(Derived(file, delta), key)) <==> LooksLike(seen, Wanted(file, delta[key], key))
  {
  }

  /** Of a patch as Git writes it an observation is accepted exactly when it shows the
      paths of the delta and no other, each as the last section that names it wants. */
  lemma AnObservationIsAcceptedIff(
    files: seq<ChangedFile>, proposed: seq<ProposedFile>, delta: map<Path, Entry>, actual: map<Path, PathState>)
    requires CoversDelta(files, delta) && AreDerived(proposed, files, delta) && AsGitWrites(files, delta)
    ensures IsResult(actual, proposed) <==>
            && actual.Keys == delta.Keys
            && forall i: nat, key :: i < |files| && key in delta && key in actual && NamedLast(files, i, key) ==>
                 LooksLike(actual[key], Wanted(files[i], delta[key], key))
  {
    hide Meets, Asked, Derived, MentionsLast, NamedLast, Names, FileFits, LooksLike, Wanted, IsResult;
    ResultIffLastMentionsAreMet(actual, proposed);
    forall i: nat, key ensures MentionsLast(proposed, i, key) <==> NamedLast(files, i, key) {
      MentionedLastIffNamedLast(files, proposed, delta, i, key);
    }
    forall key ensures key in delta <==> exists i: nat :: MentionsLast(proposed, i, key) {
      if key in delta {
        var i :| 0 <= i < |files| && Names(files[i], key);
        var last := SomeSectionNamesLast(files, i, key);
      }
      if i: nat :| NamedLast(files, i, key) {
        LastFits(files, delta, i, key);
      }
    }
    forall i: nat, key | i < |files| && key in delta && key in actual && NamedLast(files, i, key)
      ensures Meets(actual[key], Asked(proposed[i], key)) <==> LooksLike(actual[key], Wanted(files[i], delta[key], key))
    {
      LastIsWanted(files, delta, i, key, actual[key]);
    }
  }

  lemma LastIsWanted(files: seq<ChangedFile>, delta: map<Path, Entry>, i: nat, key: Path, seen: PathState)
    requires CoversDelta(files, delta) && AsGitWrites(files, delta) && key in delta && NamedLast(files, i, key)
    ensures i < |files| && ValidChange(files[i])
    ensures Meets(seen, Asked(Derived(files[i], delta), key)) <==> LooksLike(seen, Wanted(files[i], delta[key], key))
  {
    hide Meets, Asked, Derived, LooksLike, Wanted;
    LastFits(files, delta, i, key);
    DeletedIsNamedOnce(files[i], key);
    AskedIsWanted(seen, files[i], delta, key);
  }

  lemma DeletedIsNamedOnce(file: ChangedFile, key: Path)
    requires ValidChange(file) && Names(file, key)
    ensures file.change == Deleted ==> file.oldPath == Some(key)
  {
  }

  /** Without copies nothing but the result is accepted: the paths of the delta, each as
      the delta's result records it. */
  lemma OnlyTheResultIsAccepted(
    files: seq<ChangedFile>, proposed: seq<ProposedFile>, delta: map<Path, Entry>, actual: map<Path, PathState>)
    requires CoversDelta(files, delta) && AreDerived(proposed, files, delta) && AsGitWrites(files, delta)
    requires forall i :: 0 <= i < |files| ==> files[i].change != Copied
    ensures IsResult(actual, proposed) <==>
            actual.Keys == delta.Keys && forall key :: key in delta && key in actual ==> LooksLike(actual[key], delta[key].result)
  {
    hide IsResult, AreDerived, LooksLike, NamedLast, CoversDelta, AsGitWrites, Wanted;
    AnObservationIsAcceptedIff(files, proposed, delta, actual);
    EveryPathIsNamedLast(files, delta);
    forall i: nat, key | i < |files| && key in delta && NamedLast(files, i, key)
      ensures Wanted(files[i], delta[key], key) == delta[key].result
    {
      WantedWithoutCopy(files[i], delta[key], key);
    }
    if forall i: nat, key :: i < |files| && key in delta && key in actual && NamedLast(files, i, key) ==>
         LooksLike(actual[key], Wanted(files[i], delta[key], key))
    {
      forall key | key in delta && key in actual ensures LooksLike(actual[key], delta[key].result) {
        var i: nat :| i < |files| && NamedLast(files, i, key);
      }
    }
  }

  lemma WantedWithoutCopy(file: ChangedFile, entry: Entry, key: Path)
    requires file.change != Copied
    ensures Wanted(file, entry, key) == entry.result
  {
  }

  lemma EveryPathIsNamedLast(files: seq<ChangedFile>, delta: map<Path, Entry>)
    requires CoversDelta(files, delta)
    ensures forall key :: key in delta ==> exists i: nat :: i < |files| && NamedLast(files, i, key)
  {
    hide FileFits;
    forall key | key in delta ensures exists i: nat :: i < |files| && NamedLast(files, i, key) {
      var i :| 0 <= i < |files| && Names(files[i], key);
      var last := SomeSectionNamesLast(files, i, key);
    }
  }

  // ---------------------------------------------------------------------
  // A copy that misleads
  // ---------------------------------------------------------------------

  function Content(mode: nat, digest: Digest): Manifest { Manifest(Regular, mode, 1, Some(digest), None, None, None) }

  /** One file becomes executable and the other is copied from it. */
  function ExecutableDelta(a: Path, b: Path, digest: Digest): map<Path, Entry> {
    map[a := Entry(Some(Content(PLAIN, digest)), Some(Content(EXECUTABLE, digest))), b := Entry(None, Some(Content(PLAIN, digest)))]
  }

  function ExecutablePatch(a: Path, b: Path): seq<ChangedFile> {
    [ChangedFile(Modified, Some(a), Some(a), Regular, Regular, PLAIN, EXECUTABLE, false),
     ChangedFile(Copied, Some(a), Some(b), Regular, Regular, PLAIN, PLAIN, true)]
  }

  /** The patch is publishable, its proposed files have distinct paths, and its own
      result is not recognised. */
  lemma ACopyOfAChangedModeIsRefused(a: Path, b: Path, digest: Digest, proposed: seq<ProposedFile>)
    requires a != b && AreDerived(proposed, ExecutablePatch(a, b), ExecutableDelta(a, b, digest))
    ensures CoversDelta(ExecutablePatch(a, b), ExecutableDelta(a, b, digest)) && AsGitWrites(ExecutablePatch(a, b), ExecutableDelta(a, b, digest))
    ensures DistinctPaths(proposed)
    ensures !IsResult(TrueResult(ExecutableDelta(a, b, digest)), proposed)
  {
    hide IsResult, TrueResult;
    var files, delta := ExecutablePatch(a, b), ExecutableDelta(a, b, digest);
    assert Names(files[0], a) && Names(files[1], b);
    OnlyCopiesMislead(files, proposed, delta);
    assert NamedLast(files, 1, a) && !KeepsShape(delta[a]);
  }
}
