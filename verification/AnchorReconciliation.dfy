/** Relocating one persisted anchor against one accepted capture: the ladder of
    evidence tiers, the specification it refines, and what a second
    reconciliation of its result does. Text normalisation and fingerprints are
    parameters of the model. */
module AnchorReconciliation {
  import opened Myers
  import opened Ordering
  import opened Wrappers

  type Path(==, !new)
  type Side(==, !new)
  type Digest(==)
  type Terms(==)
  type Flag(==)

  const MAX_CANDIDATES: nat := 20
  const WINDOW: nat := 200
  const CONTEXT_LINES: nat := 3

  datatype AnchorState = Valid | Relocated | Ambiguous | Orphaned

  datatype Relocation = Relocation(previousPath: Path, previousStartLine: int, previousEndLine: int, reason: Reason)

  datatype Reason =
    | InitialPlacement
    | ScopedPathUnavailable
    | SelectedRangeNotPresent
    | AnchorEvidenceNotFound
    | Evidence(tier: Tier)

  datatype Tier = ExactGeneration | ExactContextAtLine | ContextWindow | ContextFile | SelectionWindow | SelectionFile

  /** A fingerprint field that may be blank carries an Option. */
  datatype Anchor = Anchor(
    path: Path, previousPath: Option<Path>, side: Side, startLine: int, endLine: int, generation: nat,
    selectionHash: Digest, selectedText: Option<string>, beforeContext: Option<Digest>, afterContext: Option<Digest>,
    state: AnchorState, relocation: Option<Relocation>)

  datatype Content = Content(path: Path, side: Side, identity: Option<Digest>, lines: seq<string>)

  datatype PathIdentity = PathIdentity(oldPath: Path, newPath: Path, oldIdentity: Option<Digest>, newIdentity: Option<Digest>)

  /** `evident` says that the mapping is well formed and carries its similarity. */
  datatype RenameMapping = RenameMapping(oldPath: Path, newPath: Path, evident: bool)

  /** How renames were looked for: the scalar terms, the flags, and whether the whole
      is valid and complete. */
  datatype PolicyEvidence = PolicyEvidence(terms: Terms, flags: seq<Flag>, complete: bool)

  datatype Transition = Transition(
    fromGeneration: nat, toGeneration: nat, changedPaths: seq<PathIdentity>, renameMappings: seq<RenameMapping>,
    renameEvidence: PolicyEvidence, fromRenameEvidence: PolicyEvidence, toRenameEvidence: PolicyEvidence)

  datatype Input = Input(anchor: Anchor, transition: Transition, content: Content, previous: Option<Content>)

  datatype Candidate = Candidate(
    generation: nat, sourcePath: Path, path: Path, side: Side, startLine: int, endLine: int, fingerprint: Digest,
    selectedText: string, beforeContext: seq<string>, afterContext: seq<string>, tier: Tier)

  datatype Outcome = Outcome(anchor: Anchor, candidates: seq<Candidate>, overflow: bool, reason: Reason)

  datatype Result = Ok(outcome: Outcome) | InvalidInput | InvalidOutcome

  /** Normalisation, fingerprints and the validation of a staged outcome. */
  datatype Env = Env(
    norm: string -> Text,
    selection: string -> Digest,
    legacySelection: (Side, Path, int, int, string) -> Digest,
    context: seq<string> -> Digest,
    legacyContext: seq<(int, string)> -> Digest,
    captured: seq<string> -> Digest,
    pathLess: (Path, Path) -> bool,
    sideLess: (Side, Side) -> bool,
    accepts: Outcome -> bool)

  predicate ValidInput(input: Input) {
    && 1 <= input.anchor.startLine <= input.anchor.endLine
    && input.anchor.generation == input.transition.fromGeneration < input.transition.toGeneration
    && input.content.side == input.anchor.side
    && (input.previous.Some? ==> input.previous.value.path == input.anchor.path)
  }

  // ---------------------------------------------------------------------
  // Evidence at one place
  // ---------------------------------------------------------------------

  function Join(lines: seq<string>): string {
    if lines == [] then "" else if |lines| == 1 then lines[0] else lines[0] + "\n" + Join(lines[1..])
  }

  function Count(anchor: Anchor): int { anchor.endLine - anchor.startLine + 1 }

  /** The same-length window that starts at line `start` lies in the file. */
  predicate InFile(input: Input, start: int) {
    1 <= start && start + Count(input.anchor) - 1 <= |input.content.lines|
  }

  function Selected(input: Input, start: int): string
    requires ValidInput(input) && InFile(input, start)
  {
    Join(input.content.lines[start - 1..start - 1 + Count(input.anchor)])
  }

  predicate SelectionMatches(env: Env, anchor: Anchor, selected: string) {
    match anchor.selectedText
    case Some(text) => env.norm(text) == env.norm(selected)
    case None =>
      || anchor.selectionHash == env.selection(selected)
      || anchor.selectionHash == env.legacySelection(anchor.side, anchor.path, anchor.startLine, anchor.endLine, selected)
  }

  /** Up to three lines before line `edge`. */
  function LinesBefore(lines: seq<string>, edge: int): seq<string> {
    var last := Max(0, Min(edge - 1, |lines|));
    lines[Min(Max(0, edge - 1 - CONTEXT_LINES), last)..last]
  }

  /** Up to three lines after line `edge`. */
  function LinesAfter(lines: seq<string>, edge: int): seq<string>
    requires 0 <= edge
  {
    lines[Min(edge, |lines|)..Min(edge + CONTEXT_LINES, |lines|)]
  }

  /** Blank context has a blank fingerprint. */
  function FingerprintContext(env: Env, lines: seq<string>): Option<Digest> {
    if lines == [] then None else Some(env.context(lines))
  }

  /** Context lines numbered by the anchor's own position. */
  function Numbered(first: int, lines: seq<string>): seq<(int, string)> {
    seq(|lines|, i requires 0 <= i < |lines| => (first + i, lines[i]))
  }

  function LegacyFingerprintContext(env: Env, first: int, lines: seq<string>): Option<Digest> {
    if lines == [] then None else Some(env.legacyContext(Numbered(first, lines)))
  }

  predicate ContextMatches(env: Env, anchor: Anchor, lines: seq<string>, start: int, end: int)
    requires 0 <= end
  {
    var before, after := LinesBefore(lines, start), LinesAfter(lines, end);
    && (anchor.beforeContext.Some? ==>
          || anchor.beforeContext == FingerprintContext(env, before)
          || anchor.beforeContext == LegacyFingerprintContext(env, anchor.startLine - |before|, before))
    && (anchor.afterContext.Some? ==>
          || anchor.afterContext == FingerprintContext(env, after)
          || anchor.afterContext == LegacyFingerprintContext(env, anchor.endLine + 1, after))
  }

  predicate HasContextEvidence(anchor: Anchor) {
    anchor.beforeContext.Some? || anchor.afterContext.Some?
  }

  predicate WithinWindow(original: int, candidate: int) {
    original - WINDOW <= candidate <= original + WINDOW
  }

  // ---------------------------------------------------------------------
  // The specification
  // ---------------------------------------------------------------------

  /** The content may be searched: it is at the anchor's path, or at the one
      place an allowed rename maps that path to. */
  ghost predicate AllowedPath(input: Input) {
    || input.content.path == input.anchor.path
    || (&& RenamesAllowed(input.transition)
        && exists i :: OnlyMapping(input.transition.renameMappings, input.anchor.path, i)
                    && input.transition.renameMappings[i].newPath == input.content.path)
  }

  /** Every mapping is evident, and renames were looked for completely: over the
      transition, or alike on both its sides. */
  ghost predicate RenamesAllowed(t: Transition) {
    && t.renameMappings != [] && (forall i :: 0 <= i < |t.renameMappings| ==> t.renameMappings[i].evident)
    && (t.renameEvidence.complete ||
        (&& t.fromRenameEvidence.complete && t.toRenameEvidence.complete
         && t.fromRenameEvidence.terms == t.toRenameEvidence.terms && t.fromRenameEvidence.flags == t.toRenameEvidence.flags))
  }

  /** The i-th mapping is the only one for `old`. */
  ghost predicate OnlyMapping(mappings: seq<RenameMapping>, path: Path, i: int) {
    && 0 <= i < |mappings| && mappings[i].oldPath == path
    && forall j :: 0 <= j < |mappings| && mappings[j].oldPath == path ==> j == i
  }

  /** An unchanged path whose content identity did not change either. */
  ghost predicate SameContentIdentity(input: Input) {
    && input.content.identity.Some?
    && exists i :: 0 <= i < |input.transition.changedPaths| && IdentityKept(input, input.transition.changedPaths[i])
  }

  predicate IdentityKept(input: Input, p: PathIdentity) {
    && p.oldPath == input.anchor.path && p.newPath == input.content.path
    && p.oldIdentity.Some? && p.oldIdentity == p.newIdentity == input.content.identity
  }

  /** The selection occurs at line `start`. */
  predicate SelectionAt(env: Env, input: Input, start: int)
    requires ValidInput(input)
  {
    InFile(input, start) && SelectionMatches(env, input.anchor, Selected(input, start))
  }

  predicate ContextAt(env: Env, input: Input, start: int)
    requires ValidInput(input)
  {
    && 1 <= start && HasContextEvidence(input.anchor)
    && ContextMatches(env, input.anchor, input.content.lines, start, start + Count(input.anchor) - 1)
  }

  /** What a tier asks of a place, strongest tier first. */
  ghost predicate Holds(env: Env, input: Input, tier: Tier, start: int)
    requires ValidInput(input)
  {
    && SelectionAt(env, input, start)
    && match tier
       case ExactGeneration => SameContentIdentity(input) && input.content.path == input.anchor.path && start == input.anchor.startLine
       case ExactContextAtLine => start == input.anchor.startLine && ContextAt(env, input, start)
       case ContextWindow => WithinWindow(input.anchor.startLine, start) && ContextAt(env, input, start)
       case ContextFile => ContextAt(env, input, start)
       case SelectionWindow => WithinWindow(input.anchor.startLine, start)
       case SelectionFile => true
  }

  /** The places before line `limit` at which a tier holds, in file order. */
  ghost function PlacesBefore(env: Env, input: Input, tier: Tier, limit: nat): seq<int>
    requires ValidInput(input)
  {
    if limit <= 1 then []
    else if Holds(env, input, tier, limit - 1) then PlacesBefore(env, input, tier, limit - 1) + [limit - 1]
    else PlacesBefore(env, input, tier, limit - 1)
  }

  /** `places` are the places before `limit` at which a tier holds, in order. */
  ghost predicate AllPlaces(env: Env, input: Input, tier: Tier, limit: nat, places: seq<int>)
    requires ValidInput(input)
  {
    && (forall i :: 0 <= i < |places| ==> 1 <= places[i] < limit && Holds(env, input, tier, places[i]))
    && (forall i, j :: 0 <= i < j < |places| ==> places[i] < places[j])
    && (forall s :: 1 <= s < limit && Holds(env, input, tier, s) ==> s in places)
  }

  lemma {:induction false} PlacesAreAllPlaces(env: Env, input: Input, tier: Tier, limit: nat)
    requires ValidInput(input)
    ensures AllPlaces(env, input, tier, limit, PlacesBefore(env, input, tier, limit))
  {
    hide Holds;
    if limit > 1 { PlacesAreAllPlaces(env, input, tier, limit - 1); }
  }

  ghost function Places(env: Env, input: Input, tier: Tier): (places: seq<int>)
    requires ValidInput(input)
    ensures AllPlaces(env, input, tier, |input.content.lines| + 1, places)
    ensures forall i :: 0 <= i < |places| ==> InFile(input, places[i])
  {
    PlacesAreAllPlaces(env, input, tier, |input.content.lines| + 1);
    PlacesBefore(env, input, tier, |input.content.lines| + 1)
  }

  const TIERS := [ExactGeneration, ExactContextAtLine, ContextWindow, ContextFile, SelectionWindow, SelectionFile]

  /** The strongest tier, from the k-th on, that holds anywhere. */
  ghost function Strongest(env: Env, input: Input, k: nat): Tier
    requires ValidInput(input) && k < |TIERS|
    decreases |TIERS| - k
  {
    if k + 1 == |TIERS| || Places(env, input, TIERS[k]) != [] then TIERS[k] else Strongest(env, input, k + 1)
  }

  /** Where the anchor can be: the places of the strongest tier that has any. */
  ghost function Decide(env: Env, input: Input): seq<int>
    requires ValidInput(input)
  {
    if AllowedPath(input) then Places(env, input, Strongest(env, input, 0)) else []
  }

  /** The decision is empty exactly off the allowed path or when no window of
      the anchor's length carries the selection; otherwise it is the places of
      the strongest tier that holds anywhere. */
  lemma DecisionIsTheStrongestTier(env: Env, input: Input)
    requires ValidInput(input)
    ensures Decide(env, input) == [] <==> !AllowedPath(input) || forall s :: !SelectionAt(env, input, s)
    ensures Decide(env, input) != [] ==>
              exists k :: 0 <= k < |TIERS| && Decide(env, input) == Places(env, input, TIERS[k])
                       && forall i :: 0 <= i < k ==> Places(env, input, TIERS[i]) == []
  {
    var k := StrongestIndex(env, input, 0);
    SelectionFileIsWeakest(env, input);
    var places := Places(env, input, TIERS[k]);
    if places != [] { assert SelectionAt(env, input, places[0]); }
    hide Holds, SelectionAt, AllPlaces;
  }

  lemma {:induction false} StrongestIndex(env: Env, input: Input, from: nat) returns (k: nat)
    requires ValidInput(input) && from < |TIERS|
    ensures from <= k < |TIERS| && Strongest(env, input, from) == TIERS[k]
    ensures forall i :: from <= i < k ==> Places(env, input, TIERS[i]) == []
    ensures Places(env, input, TIERS[k]) == [] ==> k + 1 == |TIERS|
    decreases |TIERS| - from
  {
    hide Places;
    if from + 1 == |TIERS| || Places(env, input, TIERS[from]) != [] {
      k := from;
    } else {
      k := StrongestIndex(env, input, from + 1);
    }
  }

  /** The last tier asks for the selection alone. */
  lemma SelectionFileIsWeakest(env: Env, input: Input)
    requires ValidInput(input)
    ensures Places(env, input, SelectionFile) == [] <==> forall s :: !SelectionAt(env, input, s)
  {
    var p := Places(env, input, SelectionFile);
    if p != [] { assert SelectionAt(env, input, p[0]); }
    forall s | SelectionAt(env, input, s) ensures p != [] {
      assert Holds(env, input, SelectionFile, s);
      assert s in p;
    }
  }

  // ---------------------------------------------------------------------
  // Outcomes
  // ---------------------------------------------------------------------

  function Moved(input: Input, state: AnchorState, reason: Reason): Anchor {
    input.anchor.(
      generation := input.transition.toGeneration, state := state,
      relocation := Some(Relocation(input.anchor.path, input.anchor.startLine, input.anchor.endLine, reason)))
  }

  function Accepted(env: Env, outcome: Outcome): Result {
    if env.accepts(outcome) then Ok(outcome) else InvalidOutcome
  }

  function OrphanedOutcome(env: Env, input: Input, reason: Reason): Result {
    Accepted(env, Outcome(Moved(input, Orphaned, reason), [], false, reason))
  }

  function AmbiguousOutcome(env: Env, input: Input, candidates: seq<Candidate>, overflow: bool, reason: Reason): Result {
    Accepted(env, Outcome(Moved(input, Ambiguous, reason), candidates, overflow, reason))
  }

  /** The anchor as it stands at line `start` of the new content: fingerprints
      are taken afresh, but only those the anchor had. */
  function Placed(env: Env, input: Input, start: int, state: AnchorState, reason: Reason): Anchor
    requires ValidInput(input) && InFile(input, start)
  {
    var a := input.anchor;
    var end := start + Count(a) - 1;
    var stays := state == Valid && input.content.path == a.path && start == a.startLine;
    a.(
      path := input.content.path,
      previousPath := if input.content.path == a.path then a.previousPath else Some(a.path),
      startLine := start, endLine := end, generation := input.transition.toGeneration,
      selectionHash := env.selection(Selected(input, start)),
      beforeContext := if a.beforeContext.Some? then FingerprintContext(env, LinesBefore(input.content.lines, start)) else None,
      afterContext := if a.afterContext.Some? then FingerprintContext(env, LinesAfter(input.content.lines, end)) else None,
      state := state,
      relocation := if stays then a.relocation else Moved(input, state, reason).relocation)
  }

  function RelocatedOutcome(env: Env, input: Input, start: int, state: AnchorState, reason: Reason): Result
    requires ValidInput(input) && InFile(input, start)
  {
    Accepted(env, Outcome(Placed(env, input, start, state, reason), [], false, reason))
  }

  function PlacedState(input: Input, start: int): AnchorState {
    if input.content.path == input.anchor.path && start == input.anchor.startLine then Valid else Relocated
  }

  function MakeCandidate(env: Env, input: Input, start: int, tier: Tier): Candidate
    requires ValidInput(input) && InFile(input, start)
  {
    var end := start + Count(input.anchor) - 1;
    var lines := input.content.lines;
    Candidate(
      input.transition.toGeneration, input.anchor.path, input.content.path, input.content.side, start, end,
      if input.content.identity.Some? then input.content.identity.value else env.captured(lines),
      Selected(input, start), LinesBefore(lines, start), LinesAfter(lines, end), tier)
  }

  /** The candidates kept for a list of places: at most the first twenty. */
  ghost function Kept(env: Env, input: Input, places: seq<int>, tier: Tier): seq<Candidate>
    requires ValidInput(input) && forall i :: 0 <= i < |places| ==> InFile(input, places[i])
  {
    seq(Min(|places|, MAX_CANDIDATES), i requires 0 <= i < Min(|places|, MAX_CANDIDATES) => MakeCandidate(env, input, places[i], tier))
  }

  /** The specification of the whole relocation. */
  ghost function Reconciled(env: Env, input: Input): Result {
    if !ValidInput(input) then InvalidInput
    else if !AllowedPath(input) then OrphanedOutcome(env, input, ScopedPathUnavailable)
    else if Count(input.anchor) > |input.content.lines| then OrphanedOutcome(env, input, SelectedRangeNotPresent)
    else
      var tier := Strongest(env, input, 0);
      var places := Places(env, input, tier);
      if places == [] then OrphanedOutcome(env, input, AnchorEvidenceNotFound)
      else if |places| == 1 then RelocatedOutcome(env, input, places[0], PlacedState(input, places[0]), Evidence(tier))
      else AmbiguousOutcome(env, input, Kept(env, input, places, tier), |places| > MAX_CANDIDATES, Evidence(tier))
  }

  /** What the specification says of the final state. */
  lemma StateFollowsTheDecision(env: Env, input: Input)
    requires Reconciled(env, input).Ok?
    ensures ValidInput(input)
    ensures var o, d := Reconciled(env, input).outcome, Decide(env, input);
            && (o.anchor.state == Orphaned <==> |d| == 0)
            && (o.anchor.state == Ambiguous <==> |d| > 1)
            && (o.anchor.state == Valid <==> |d| == 1 && input.content.path == input.anchor.path && d[0] == input.anchor.startLine)
            && (|d| == 1 ==> (o.anchor.path, o.anchor.startLine, Count(o.anchor)) == (input.content.path, d[0], Count(input.anchor)))
            && |o.candidates| <= MAX_CANDIDATES && (o.overflow <==> |d| > MAX_CANDIDATES)
  {
    hide Holds, Places, SelectionAt;
    DecisionIsTheStrongestTier(env, input);
    if Count(input.anchor) > |input.content.lines| { NothingFits(env, input); }
  }

  lemma NothingFits(env: Env, input: Input)
    requires ValidInput(input) && Count(input.anchor) > |input.content.lines|
    ensures forall s :: !SelectionAt(env, input, s)
  {
  }

  // ---------------------------------------------------------------------
  // What a tier accepts, by the lines of two files
  // ---------------------------------------------------------------------

  /** The up to three lines above a line, and those below one. */
  function Above(lines: seq<string>, line: int): seq<string>
    requires 1 <= line <= |lines| + 1
  {
    if line <= 4 then lines[..line - 1] else lines[line - 4..line - 1]
  }

  function Below(lines: seq<string>, line: int): seq<string>
    requires 0 <= line <= |lines|
  {
    if |lines| <= line + 3 then lines[line..] else lines[line..line + 3]
  }

  /** Fingerprints that tell different lists of lines apart, of either version. */
  ghost predicate Distinguishes(env: Env) {
    && (forall a, b :: env.context(a) == env.context(b) ==> a == b)
    && (forall a, b :: env.legacyContext(a) == env.legacyContext(b) ==> a == b)
    && (forall a, b :: env.context(a) != env.legacyContext(b))
  }

  /** A fingerprint field left blank, or taken of these lines by either version. */
  ghost predicate Recorded(env: Env, field: Option<Digest>, first: int, lines: seq<string>) {
    || field.None?
    || (lines != [] && (field == Some(env.context(lines)) || field == Some(env.legacyContext(Numbered(first, lines)))))
  }

  /** The anchor's context was taken from the old file, where the anchor then was. */
  ghost predicate ContextTaken(env: Env, anchor: Anchor, past: seq<string>) {
    && 1 <= anchor.startLine <= anchor.endLine <= |past|
    && Recorded(env, anchor.beforeContext, anchor.startLine - |Above(past, anchor.startLine)|, Above(past, anchor.startLine))
    && Recorded(env, anchor.afterContext, anchor.endLine + 1, Below(past, anchor.endLine))
  }

  lemma NumberedTells(first: int, a: seq<string>, second: int, b: seq<string>)
    ensures Numbered(first, a) == Numbered(second, b) ==> a == b
  {
    if Numbered(first, a) == Numbered(second, b) {
      assert |a| == |Numbered(first, a)| && |b| == |Numbered(second, b)|;
      forall i | 0 <= i < |a| ensures a[i] == b[i] {
        assert Numbered(first, a)[i] == Numbered(second, b)[i];
      }
    }
  }

  /** One side of the context, compared through its fingerprint. */
  lemma SideMatchesIff(env: Env, field: Option<Digest>, first: int, past: seq<string>, second: int, present: seq<string>)
    requires Distinguishes(env) && Recorded(env, field, first, past) && field.Some?
    requires past == present ==> first == second
    ensures (field == FingerprintContext(env, present) || field == LegacyFingerprintContext(env, second, present)) <==> present == past
  {
    hide Numbered;
    NumberedTells(first, past, second, present);
  }

  lemma SlicesAreSides(lines: seq<string>, start: int, end: int)
    requires 1 <= start <= end <= |lines|
    ensures LinesBefore(lines, start) == Above(lines, start) && LinesAfter(lines, end) == Below(lines, end)
  {
  }

  /** With fingerprints that tell lines apart, context matches at a place exactly when
      the lines on each recorded side are those of the old file. */
  lemma ContextMatchesIff(env: Env, input: Input, past: seq<string>, start: int)
    requires ValidInput(input) && InFile(input, start) && Distinguishes(env) && ContextTaken(env, input.anchor, past)
    ensures var end := start + Count(input.anchor) - 1;
            ContextMatches(env, input.anchor, input.content.lines, start, end) <==>
            && (input.anchor.beforeContext.Some? ==> Above(input.content.lines, start) == Above(past, input.anchor.startLine))
            && (input.anchor.afterContext.Some? ==> Below(input.content.lines, end) == Below(past, input.anchor.endLine))
  {
    hide Distinguishes, Numbered, FingerprintContext, LegacyFingerprintContext, Above, Below, LinesBefore, LinesAfter, Recorded;
    var a, end := input.anchor, start + Count(input.anchor) - 1;
    var above, below := Above(input.content.lines, start), Below(input.content.lines, end);
    SlicesAreSides(input.content.lines, start, end);
    if a.beforeContext.Some? {
      SideMatchesIff(env, a.beforeContext, a.startLine - |Above(past, a.startLine)|, Above(past, a.startLine), a.startLine - |above|, above);
    }
    if a.afterContext.Some? {
      SideMatchesIff(env, a.afterContext, a.endLine + 1, Below(past, a.endLine), a.endLine + 1, below);
    }
  }

  /** What the tiers of context accept of an anchor taken from an old file: the
      selection, somewhere on their reach, between the very lines that stood around
      it, on every side on which they were recorded. */
  lemma ContextTiersAcceptIff(env: Env, input: Input, past: seq<string>, start: int)
    requires ValidInput(input) && Distinguishes(env) && ContextTaken(env, input.anchor, past)
    ensures Holds(env, input, ContextFile, start) <==>
              && SelectionAt(env, input, start) && (input.anchor.beforeContext.Some? || input.anchor.afterContext.Some?)
              && (input.anchor.beforeContext.Some? ==> Above(input.content.lines, start) == Above(past, input.anchor.startLine))
              && (input.anchor.afterContext.Some? ==>
                    Below(input.content.lines, start + Count(input.anchor) - 1) == Below(past, input.anchor.endLine))
    ensures Holds(env, input, ContextWindow, start) <==>
              Holds(env, input, ContextFile, start) && input.anchor.startLine - 200 <= start <= input.anchor.startLine + 200
    ensures Holds(env, input, ExactContextAtLine, start) <==>
              Holds(env, input, ContextFile, start) && start == input.anchor.startLine
  {
    hide Distinguishes, ContextTaken, ContextMatches, SelectionMatches, Above, Below, Selected;
    if InFile(input, start) {
      ContextMatchesIff(env, input, past, start);
    }
  }

  /** The anchor's selection was taken from the old file: as text, or as a fingerprint
      of either version. */
  ghost predicate SelectionTaken(env: Env, anchor: Anchor, past: seq<string>) {
    && 1 <= anchor.startLine <= anchor.endLine <= |past|
    && var text := Join(past[anchor.startLine - 1..anchor.endLine]);
       match anchor.selectedText
       case Some(t) => t == text
       case None =>
         || anchor.selectionHash == env.selection(text)
         || anchor.selectionHash == env.legacySelection(anchor.side, anchor.path, anchor.startLine, anchor.endLine, text)
  }

  ghost predicate DistinguishesSelections(env: Env) {
    && (forall a, b :: env.selection(a) == env.selection(b) ==> a == b)
    && (forall side, path, i, j, a, b :: env.legacySelection(side, path, i, j, a) == env.legacySelection(side, path, i, j, b) ==> a == b)
    && (forall side, path, i, j, a, b :: env.selection(a) != env.legacySelection(side, path, i, j, b))
  }

  /** A place carries the selection exactly when its lines, joined, are the text that
      was selected: alike up to normalisation if that text was kept, else the same. */
  lemma SelectionsAreFoundIff(env: Env, input: Input, past: seq<string>, start: int)
    requires ValidInput(input) && SelectionTaken(env, input.anchor, past) && DistinguishesSelections(env)
    ensures SelectionAt(env, input, start) <==>
              && 1 <= start && start + (input.anchor.endLine - input.anchor.startLine) <= |input.content.lines|
              && var was := Join(past[input.anchor.startLine - 1..input.anchor.endLine]);
                 var found := Join(input.content.lines[start - 1..start + (input.anchor.endLine - input.anchor.startLine)]);
                 if input.anchor.selectedText.Some? then env.norm(was) == env.norm(found) else was == found
  {
    hide Join;
    var count := input.anchor.endLine - input.anchor.startLine;
    if 1 <= start && start + count <= |input.content.lines| {
      assert input.content.lines[start - 1..start - 1 + Count(input.anchor)] == input.content.lines[start - 1..start + count];
    }
  }

  /** What the other tiers accept: a selection the capture knows to be untouched, one
      within two hundred lines, any. */
  lemma OtherTiersAcceptIff(env: Env, input: Input, start: int)
    requires ValidInput(input)
    ensures Holds(env, input, ExactGeneration, start) <==>
              && SelectionAt(env, input, start) && start == input.anchor.startLine
              && input.content.path == input.anchor.path && input.content.identity.Some?
              && PathIdentity(input.anchor.path, input.anchor.path, input.content.identity, input.content.identity) in input.transition.changedPaths
    ensures Holds(env, input, SelectionWindow, start) <==>
              SelectionAt(env, input, start) && input.anchor.startLine - 200 <= start <= input.anchor.startLine + 200
    ensures Holds(env, input, SelectionFile, start) <==> SelectionAt(env, input, start)
  {
    hide SelectionMatches, Selected;
    SameContentIff(input);
  }

  lemma SameContentIff(input: Input)
    ensures SameContentIdentity(input) <==>
              && input.content.identity.Some?
              && PathIdentity(input.anchor.path, input.content.path, input.content.identity, input.content.identity) in input.transition.changedPaths
  {
    var kept := PathIdentity(input.anchor.path, input.content.path, input.content.identity, input.content.identity);
    if input.content.identity.Some? && kept in input.transition.changedPaths {
      var i :| 0 <= i < |input.transition.changedPaths| && input.transition.changedPaths[i] == kept;
      assert IdentityKept(input, input.transition.changedPaths[i]);
    }
    if SameContentIdentity(input) {
      var i :| 0 <= i < |input.transition.changedPaths| && IdentityKept(input, input.transition.changedPaths[i]);
      assert input.transition.changedPaths[i] == kept;
    }
  }

  /** The order of the tiers: what one tier finds is what is decided, if no tier named
      before it finds anything. */
  lemma TiersAreTriedInThisOrder(env: Env, input: Input)
    requires ValidInput(input) && AllowedPath(input)
    ensures var p, d := (tier: Tier) => Places(env, input, tier), Decide(env, input);
            && (p(ExactGeneration) != [] ==> d == p(ExactGeneration))
            && (p(ExactGeneration) == [] && p(ExactContextAtLine) != [] ==> d == p(ExactContextAtLine))
            && (p(ExactGeneration) == p(ExactContextAtLine) == [] && p(ContextWindow) != [] ==> d == p(ContextWindow))
            && (p(ExactGeneration) == p(ExactContextAtLine) == p(ContextWindow) == [] && p(ContextFile) != [] ==> d == p(ContextFile))
            && (p(ExactGeneration) == p(ExactContextAtLine) == p(ContextWindow) == p(ContextFile) == [] ==>
                  d == if p(SelectionWindow) != [] then p(SelectionWindow) else p(SelectionFile))
  {
    hide Places;
    assert Strongest(env, input, 5) == SelectionFile;
    assert Strongest(env, input, 4) == if Places(env, input, SelectionWindow) != [] then SelectionWindow else SelectionFile;
    assert Strongest(env, input, 3) == if Places(env, input, ContextFile) != [] then ContextFile else Strongest(env, input, 4);
    assert Strongest(env, input, 2) == if Places(env, input, ContextWindow) != [] then ContextWindow else Strongest(env, input, 3);
    assert Strongest(env, input, 1) == if Places(env, input, ExactContextAtLine) != [] then ExactContextAtLine else Strongest(env, input, 2);
  }

  /** Where the mappings take a path, in their order. */
  function MappedTo(mappings: seq<RenameMapping>, path: Path): seq<Path> {
    if mappings == [] then []
    else MappedTo(mappings[..|mappings| - 1], path) +
         if mappings[|mappings| - 1].oldPath == path then [mappings[|mappings| - 1].newPath] else []
  }

  lemma {:induction false} MappedOnceIff(mappings: seq<RenameMapping>, path: Path, to: Path)
    ensures MappedTo(mappings, path) == [] <==> forall i :: 0 <= i < |mappings| ==> mappings[i].oldPath != path
    ensures MappedTo(mappings, path) == [to] <==> exists i :: OnlyMapping(mappings, path, i) && mappings[i].newPath == to
  {
    if mappings != [] {
      var last, rest := |mappings| - 1, mappings[..|mappings| - 1];
      MappedOnceIff(rest, path, to);
      if mappings[last].oldPath == path {
        assert MappedTo(mappings, path) == MappedTo(rest, path) + [mappings[last].newPath];
        assert forall i :: OnlyMapping(mappings, path, i) ==> i == last;
        assert OnlyMapping(mappings, path, last) <==> MappedTo(rest, path) == [];
        assert |MappedTo(mappings, path)| == |MappedTo(rest, path)| + 1;
        assert MappedTo(rest, path) == [] ==> MappedTo(mappings, path) == [mappings[last].newPath];
      } else {
        assert forall i :: 0 <= i < last ==> (OnlyMapping(mappings, path, i) <==> OnlyMapping(rest, path, i));
      }
    }
  }

  /** Content is searched at the anchor's own path, or where the mappings take that path,
      once; then every mapping is evident, and renames were looked for completely over
      the transition, or with the same complete policy on both of its sides. */
  lemma APathIsSearchedIff(input: Input)
    ensures AllowedPath(input) <==>
              || input.content.path == input.anchor.path
              || (&& MappedTo(input.transition.renameMappings, input.anchor.path) == [input.content.path]
                  && (forall m :: m in input.transition.renameMappings ==> m.evident)
                  && (|| input.transition.renameEvidence.complete
                      || (input.transition.fromRenameEvidence == input.transition.toRenameEvidence && input.transition.toRenameEvidence.complete)))
  {
    MappedOnceIff(input.transition.renameMappings, input.anchor.path, input.content.path);
  }

  /** Why an anchor is orphaned: its path is gone, the file is too short for it, or no
      lines of the file carry its selection. */
  lemma AnOrphanSaysWhy(env: Env, input: Input)
    requires ValidInput(input) && Reconciled(env, input).Ok?
    ensures var o := Reconciled(env, input).outcome;
            && (o.reason == ScopedPathUnavailable <==> !AllowedPath(input))
            && (o.reason == SelectedRangeNotPresent <==> AllowedPath(input) && Count(input.anchor) > |input.content.lines|)
            && (o.reason == AnchorEvidenceNotFound <==>
                  AllowedPath(input) && Count(input.anchor) <= |input.content.lines| && forall s :: !SelectionAt(env, input, s))
            && (o.anchor.state == Orphaned <==> o.reason in {ScopedPathUnavailable, SelectedRangeNotPresent, AnchorEvidenceNotFound})
            && (o.anchor.state != Orphaned ==> exists tier :: o.reason == Evidence(tier) && Decide(env, input) == Places(env, input, tier))
  {
    hide AllowedPath, SelectionAt, Places;
    DecisionIsTheStrongestTier(env, input);
  }

  // --- The outcome, by the lines of the new file ---

  function OneOrNone(env: Env, had: bool, lines: seq<string>): Option<Digest> {
    if had && lines != [] then Some(env.context(lines)) else None
  }

  /** An accepted outcome with one place: the anchor taken afresh there, its context
      only on the sides that had one, and where it came from if it moved. */
  lemma APlacedAnchorIsTakenAfresh(env: Env, input: Input)
    requires Reconciled(env, input).Ok? && ValidInput(input) && |Decide(env, input)| == 1
    ensures InFile(input, Decide(env, input)[0])
    ensures var a, was, start := Reconciled(env, input).outcome.anchor, input.anchor, Decide(env, input)[0];
            var end := start + (was.endLine - was.startLine);
            var lines := input.content.lines;
            && (a.path, a.side, a.startLine, a.endLine, a.generation) ==
               (input.content.path, was.side, start, end, input.transition.toGeneration)
            && a.selectionHash == env.selection(Join(lines[start - 1..end])) && a.selectedText == was.selectedText
            && a.beforeContext == OneOrNone(env, was.beforeContext.Some?, Above(lines, start))
            && a.afterContext == OneOrNone(env, was.afterContext.Some?, Below(lines, end))
            && a.previousPath == (if input.content.path == was.path then was.previousPath else Some(was.path))
            && a.state == (if input.content.path == was.path && start == was.startLine then Valid else Relocated)
            && (a.state == Valid ==> a.relocation == was.relocation)
            && (a.state == Relocated ==>
                  a.relocation.Some? && a.relocation.value.previousPath == was.path &&
                  (a.relocation.value.previousStartLine, a.relocation.value.previousEndLine) == (was.startLine, was.endLine))
            && Reconciled(env, input).outcome.candidates == [] && !Reconciled(env, input).outcome.overflow
  {
    hide Holds, SelectionAt, Join, Places, Strongest, AllowedPath;
    var start := Decide(env, input)[0];
    ThePlaceIsInFile(env, input);
    SlicesAreSides(input.content.lines, start, start + Count(input.anchor) - 1);
    assert input.content.lines[start - 1..start - 1 + Count(input.anchor)] ==
           input.content.lines[start - 1..start + (input.anchor.endLine - input.anchor.startLine)];
  }

  lemma ThePlaceIsInFile(env: Env, input: Input)
    requires ValidInput(input) && Decide(env, input) != []
    ensures InFile(input, Decide(env, input)[0]) && AllowedPath(input) && Count(input.anchor) <= |input.content.lines|
    ensures forall i :: 0 <= i < |Decide(env, input)| ==> InFile(input, Decide(env, input)[i])
  {
    hide Holds, Strongest, AllowedPath;
  }

  /** With no place, or several, the anchor keeps its lines and its evidence; only its
      state, its generation and the reason are new. */
  lemma AnUnplacedAnchorKeepsItsEvidence(env: Env, input: Input)
    requires Reconciled(env, input).Ok? && ValidInput(input) && |Decide(env, input)| != 1
    ensures var o, was, d := Reconciled(env, input).outcome, input.anchor, Decide(env, input);
            && o.anchor == was.(generation := input.transition.toGeneration, state := if d == [] then Orphaned else Ambiguous,
                                relocation := Some(Relocation(was.path, was.startLine, was.endLine, o.reason)))
            && |o.candidates| == Min(|d|, 20) && (o.overflow <==> |d| > 20)
  {
    hide Holds, SelectionAt, Places, Strongest, AllowedPath, MakeCandidate;
    if Decide(env, input) == [] {
      NothingDecided(env, input);
    } else {
      ThePlaceIsInFile(env, input);
    }
  }

  /** The candidates are the first twenty places, each with the lines that stand
      there. */
  lemma CandidatesDescribeTheirPlaces(env: Env, input: Input, i: nat)
    requires Reconciled(env, input).Ok? && ValidInput(input) && |Decide(env, input)| > 1 && i < Min(|Decide(env, input)|, 20)
    ensures i < |Reconciled(env, input).outcome.candidates| && InFile(input, Decide(env, input)[i])
    ensures var c, start := Reconciled(env, input).outcome.candidates[i], Decide(env, input)[i];
            var end := start + (input.anchor.endLine - input.anchor.startLine);
            && (c.path, c.sourcePath, c.startLine, c.endLine) == (input.content.path, input.anchor.path, start, end)
            && c.generation == input.transition.toGeneration && c.selectedText == Join(input.content.lines[start - 1..end])
            && c.beforeContext == Above(input.content.lines, start) && c.afterContext == Below(input.content.lines, end)
            && c.side == input.content.side && Evidence(c.tier) == Reconciled(env, input).outcome.reason
            && (input.content.identity.Some? ==> c.fingerprint == input.content.identity.value)
            && (input.content.identity.None? ==> c.fingerprint == env.captured(input.content.lines))
  {
    hide Holds, SelectionAt, Join, Places, Strongest, AllowedPath;
    var start := Decide(env, input)[i];
    ThePlaceIsInFile(env, input);
    SlicesAreSides(input.content.lines, start, start + Count(input.anchor) - 1);
    assert input.content.lines[start - 1..start - 1 + Count(input.anchor)] ==
           input.content.lines[start - 1..start + (input.anchor.endLine - input.anchor.startLine)];
  }

  lemma NothingDecided(env: Env, input: Input)
    requires ValidInput(input) && Decide(env, input) == []
    ensures !AllowedPath(input) || Count(input.anchor) > |input.content.lines| || Places(env, input, Strongest(env, input, 0)) == []
  {
  }

  // --- Two copies in different surroundings ---

  /** Line 4 was selected, with three lines above it on record. The file now has the
      line twice: at line 4 in other surroundings, and at line 8 in the old ones. */
  ghost predicate TwoCopies(env: Env, input: Input, a: string, b: string, c: string, q: string, r: string, s: string, x: string) {
    && ValidInput(input) && input.content.path == input.anchor.path && !SameContentIdentity(input)
    && input.anchor.startLine == input.anchor.endLine == 4 && input.anchor.selectedText == Some(x)
    && input.anchor.beforeContext == Some(env.context([a, b, c])) && input.anchor.afterContext.None?
    && input.content.lines == [q, r, s, x, a, b, c, x] && [q, r, s] != [a, b, c]
    && env.norm(q) != env.norm(x) && env.norm(r) != env.norm(x) && env.norm(s) != env.norm(x)
    && env.norm(a) != env.norm(x) && env.norm(b) != env.norm(x) && env.norm(c) != env.norm(x)
  }

  lemma OneLineIsSelected(env: Env, input: Input, start: int)
    requires ValidInput(input) && input.anchor.startLine == input.anchor.endLine && input.anchor.selectedText.Some?
    ensures SelectionAt(env, input, start) <==>
              1 <= start <= |input.content.lines| &&
              env.norm(input.anchor.selectedText.value) == env.norm(input.content.lines[start - 1])
  {
    if InFile(input, start) {
      assert input.content.lines[start - 1..start] == [input.content.lines[start - 1]];
    }
  }

  /** The anchor goes where its surroundings are. */
  lemma SurroundingsDecideBetweenCopies(
    env: Env, input: Input, a: string, b: string, c: string, q: string, r: string, s: string, x: string)
    requires Distinguishes(env) && TwoCopies(env, input, a, b, c, q, r, s, x)
    ensures Decide(env, input) == [8]
    ensures Reconciled(env, input).Ok? ==>
              Reconciled(env, input).outcome.anchor.state == Relocated && Reconciled(env, input).outcome.anchor.startLine == 8
  {
    hide Reconciled, Decide, ContextMatches, Distinguishes, Above, Below, SelectionAt;
    CopiesAreTwo(env, input, a, b, c, q, r, s, x);
    var past := [a, b, c, x];
    OldContextIsTaken(env, input.anchor, a, b, c, x);
    NewSurroundings(a, b, c, q, r, s, x);
    NoPlace(env, input, ExactGeneration);
    forall start ensures (Holds(env, input, ContextWindow, start) <==> start == 8) && !Holds(env, input, ExactContextAtLine, start) {
      ContextTiersAcceptIff(env, input, past, start);
      if !SelectionAt(env, input, start) {
        assert !Holds(env, input, ContextFile, start);
      }
    }
    NoPlace(env, input, ExactContextAtLine);
    SinglePlace(env, input, ContextWindow, 8);
    DecidesByContextWindow(env, input);
    if Reconciled(env, input).Ok? {
      StateFollowsTheDecision(env, input);
    }
  }

  lemma CopiesAreTwo(env: Env, input: Input, a: string, b: string, c: string, q: string, r: string, s: string, x: string)
    requires TwoCopies(env, input, a, b, c, q, r, s, x)
    ensures forall start :: SelectionAt(env, input, start) <==> start == 4 || start == 8
  {
    hide SelectionAt;
    forall start ensures SelectionAt(env, input, start) <==> start == 4 || start == 8 {
      OneLineIsSelected(env, input, start);
    }
  }

  lemma OldContextIsTaken(env: Env, anchor: Anchor, a: string, b: string, c: string, x: string)
    requires anchor.startLine == anchor.endLine == 4 && anchor.afterContext.None? && anchor.beforeContext == Some(env.context([a, b, c]))
    ensures ContextTaken(env, anchor, [a, b, c, x]) && Above([a, b, c, x], 4) == [a, b, c]
  {
    assert [a, b, c, x][..3] == [a, b, c];
  }

  lemma NewSurroundings(a: string, b: string, c: string, q: string, r: string, s: string, x: string)
    ensures Above([q, r, s, x, a, b, c, x], 4) == [q, r, s] && Above([q, r, s, x, a, b, c, x], 8) == [a, b, c]
  {
  }

  lemma DecidesByContextWindow(env: Env, input: Input)
    requires ValidInput(input) && AllowedPath(input) && Places(env, input, ContextWindow) != []
    requires Places(env, input, ExactGeneration) == Places(env, input, ExactContextAtLine) == []
    ensures Decide(env, input) == Places(env, input, ContextWindow)
  {
    hide Places;
    assert Strongest(env, input, 0) == Strongest(env, input, 1) == Strongest(env, input, 2);
  }

  // ---------------------------------------------------------------------
  // Reconciling a result again
  // ---------------------------------------------------------------------

  /** `again` asks about the anchor a first reconciliation placed at `start`,
      against the same content. */
  ghost predicate Again(env: Env, input: Input, start: int, state: AnchorState, reason: Reason, again: Input) {
    && ValidInput(input) && SelectionAt(env, input, start)
    && ValidInput(again) && again.content == input.content
    && again.anchor == Placed(env, input, start, state, reason)
  }

  /** A placed anchor is found where it was placed, with whatever context
      evidence it kept. */
  lemma PlacedIsFound(env: Env, input: Input, start: int, state: AnchorState, reason: Reason, again: Input)
    requires Again(env, input, start, state, reason, again)
    ensures AllowedPath(again) && SelectionAt(env, again, start)
    ensures HasContextEvidence(again.anchor) ==> Holds(env, again, ExactContextAtLine, start)
    ensures SameContentIdentity(again) ==> Holds(env, again, ExactGeneration, start)
  {
    assert Selected(again, start) == Selected(input, start);
  }

  /** A tier that holds at one line only. */
  lemma SinglePlace(env: Env, input: Input, tier: Tier, start: int)
    requires ValidInput(input) && Holds(env, input, tier, start)
    requires forall s :: Holds(env, input, tier, s) ==> s == start
    ensures Places(env, input, tier) == [start]
  {
    assert InFile(input, start);
    hide Holds;
    var places := Places(env, input, tier);
    assert start in places;
    var first, last := places[0], places[|places| - 1];
    assert first == last == start;
  }

  lemma NoPlace(env: Env, input: Input, tier: Tier)
    requires ValidInput(input)
    ensures (forall s :: !Holds(env, input, tier, s)) ==> Places(env, input, tier) == []
  {
    hide Holds;
    var places := Places(env, input, tier);
    if places != [] { assert Holds(env, input, tier, places[0]); }
  }

  /** The selection occurs nowhere else within the window. */
  ghost predicate AloneInWindow(env: Env, input: Input, start: int)
    requires ValidInput(input)
  {
    forall s :: SelectionAt(env, input, s) && WithinWindow(start, s) ==> s == start
  }

  /** Reconciling a valid or relocated result again against the same content
      finds it where it is, whatever duplicates the file holds, exactly when
      some context evidence survived, or the content identity is known to be
      unchanged, or the selection has no duplicate nearby. */
  lemma ReconcilingAgainStaysPutIff(env: Env, input: Input, start: int, state: AnchorState, reason: Reason, again: Input)
    requires Again(env, input, start, state, reason, again)
    ensures Decide(env, again) == [start] <==>
              HasContextEvidence(again.anchor) || SameContentIdentity(again) || AloneInWindow(env, again, start)
  {
    PlacedIsFound(env, input, start, state, reason, again);
    assert again.anchor.startLine == start && again.content.path == again.anchor.path;
    if SameContentIdentity(again) {
      SinglePlace(env, again, ExactGeneration, start);
    } else {
      NoPlace(env, again, ExactGeneration);
      if HasContextEvidence(again.anchor) {
        SinglePlace(env, again, ExactContextAtLine, start);
      } else {
        NoPlace(env, again, ExactContextAtLine);
        NoPlace(env, again, ContextWindow);
        NoPlace(env, again, ContextFile);
        WindowDecides(env, again, start);
      }
    }
  }

  lemma WindowDecides(env: Env, again: Input, start: int)
    requires ValidInput(again) && AllowedPath(again) && SelectionAt(env, again, start) && again.anchor.startLine == start
    requires Places(env, again, ExactGeneration) == Places(env, again, ExactContextAtLine) == []
    requires Places(env, again, ContextWindow) == Places(env, again, ContextFile) == []
    ensures Decide(env, again) == Places(env, again, SelectionWindow)
    ensures Decide(env, again) == [start] <==> AloneInWindow(env, again, start)
  {
    var places := Places(env, again, SelectionWindow);
    assert Holds(env, again, SelectionWindow, start);
    assert start in places;
    if AloneInWindow(env, again, start) {
      SinglePlace(env, again, SelectionWindow, start);
    } else {
      var s :| SelectionAt(env, again, s) && WithinWindow(start, s) && s != start;
      assert Holds(env, again, SelectionWindow, s);
      assert s in places;
    }
    assert Strongest(env, again, 0) == Strongest(env, again, 1) == Strongest(env, again, 2);
    assert Strongest(env, again, 2) == Strongest(env, again, 3) == Strongest(env, again, 4);
  }

  /** So, when the outcome is accepted at all, it is valid at the very same lines
      exactly then. */
  lemma ReconciledAgainIsValidIff(env: Env, input: Input, start: int, state: AnchorState, reason: Reason, again: Input)
    requires Again(env, input, start, state, reason, again) && Reconciled(env, again).Ok?
    ensures var a := Reconciled(env, again).outcome.anchor;
            (a.state == Valid && a.path == again.anchor.path && (a.startLine, a.endLine) == (start, again.anchor.endLine)) <==>
            HasContextEvidence(again.anchor) || SameContentIdentity(again) || AloneInWindow(env, again, start)
  {
    hide Decide, Reconciled, SelectionAt, AloneInWindow, SameContentIdentity;
    ReconcilingAgainStaysPutIff(env, input, start, state, reason, again);
    StateFollowsTheDecision(env, again);
    var d := Decide(env, again);
    assert d == [start] <==> |d| == 1 && d[0] == start;
  }

  /** Context evidence is lost only at the edge of the file: a placed anchor
      keeps it unless every side it had evidence for is now blank. */
  lemma EvidenceSurvivesUnlessBlank(env: Env, input: Input, start: int, state: AnchorState, reason: Reason)
    requires ValidInput(input) && InFile(input, start)
    ensures HasContextEvidence(Placed(env, input, start, state, reason)) <==>
              || (input.anchor.beforeContext.Some? && start > 1)
              || (input.anchor.afterContext.Some? && start + Count(input.anchor) - 1 < |input.content.lines|)
  {
  }

  /** The witness: a first line kept by content identity alone loses its blank
      context, and a duplicate below it then makes the same anchor ambiguous. */
  lemma BlankContextLosesTheAnchor(env: Env, line: string, input: Input, again: Input)
    requires ValidInput(input) && input.content.lines == [line, line] && input.content.path == input.anchor.path
    requires input.anchor.startLine == input.anchor.endLine == 1 && input.anchor.selectedText == Some(line)
    requires input.anchor.beforeContext.Some? && input.anchor.afterContext.None? && SameContentIdentity(input)
    requires Again(env, input, 1, Valid, Evidence(ExactGeneration), again) && !SameContentIdentity(again)
    ensures Decide(env, input) == [1]
    ensures Decide(env, again) != [1]
  {
    assert Selected(input, 1) == line && Selected(again, 2) == line && Selected(again, 1) == line;
    assert SelectionAt(env, again, 2) && WithinWindow(1, 2);
    assert Holds(env, input, ExactGeneration, 1);
    SinglePlace(env, input, ExactGeneration, 1);
    ReconcilingAgainStaysPutIff(env, input, 1, Valid, Evidence(ExactGeneration), again);
  }

  /** What the file cut short leaves of the tiers before the selection window. */
  lemma CutFileHasNoContext(env: Env, input: Input)
    requires CutFile(env, input)
    ensures Places(env, input, ExactGeneration) == Places(env, input, ExactContextAtLine) == []
    ensures Places(env, input, ContextWindow) == Places(env, input, ContextFile) == []
  {
    hide SelectionMatches, LinesBefore;
    assert LinesAfter(input.content.lines, 150) == [];
    NoPlace(env, input, ExactGeneration);
    NoPlace(env, input, ExactContextAtLine);
    NoPlace(env, input, ContextWindow);
    NoPlace(env, input, ContextFile);
  }

  /** The selected line was line 300, told apart by what follows it. The file is cut
      to 150 lines; the selection is now the last of them, and line 60 carries the
      same text in other surroundings. */
  ghost predicate CutFile(env: Env, input: Input) {
    && ValidInput(input) && input.content.path == input.anchor.path && |input.content.lines| == 150
    && input.anchor.startLine == input.anchor.endLine == 300
    && input.anchor.beforeContext.None? && input.anchor.afterContext.Some?
    && input.content.lines[59] == input.content.lines[149]
    && (forall s :: SelectionAt(env, input, s) <==> s == 60 || s == 150)
    && !ContextMatches(env, input.anchor, input.content.lines, 60, 60)
  }

  lemma CutFileIsDecided(env: Env, input: Input)
    requires CutFile(env, input)
    ensures Decide(env, input) == [150]
  {
    hide Decide, Selected, SelectionMatches, ContextMatches;
    CutFileHasNoContext(env, input);
    assert Holds(env, input, SelectionWindow, 150);
    SinglePlace(env, input, SelectionWindow, 150);
    DecidesByWindow(env, input);
  }

  lemma TheSameTextIsSelected(env: Env, input: Input, again: Input)
    requires CutFile(env, input) && Again(env, input, 150, Relocated, Evidence(SelectionWindow), again)
    ensures SelectionAt(env, again, 60)
  {
    hide ContextMatches, LinesAfter, LinesBefore, Join;
    assert SelectionAt(env, input, 60);
    assert input.content.lines[59..60] == input.content.lines[149..150];
    assert Selected(again, 60) == Selected(again, 150) == Selected(input, 150);
  }

  /** A placement that loses its anchor: the window around line 300 holds line 150
      alone, and nothing follows that line; asked again, the window around line 150
      holds line 60 too. */
  lemma ACutFileLosesTheAnchor(env: Env, input: Input, again: Input)
    requires CutFile(env, input) && Again(env, input, 150, Relocated, Evidence(SelectionWindow), again)
    requires !SameContentIdentity(again)
    ensures Decide(env, input) == [150]
    ensures Decide(env, again) != [150]
  {
    hide Decide, Selected, SelectionAt, ContextMatches, SameContentIdentity;
    CutFileIsDecided(env, input);
    EvidenceSurvivesUnlessBlank(env, input, 150, Relocated, Evidence(SelectionWindow));
    TheSameTextIsSelected(env, input, again);
    ReconcilingAgainStaysPutIff(env, input, 150, Relocated, Evidence(SelectionWindow), again);
    assert WithinWindow(150, 60);
  }

  lemma DecidesByWindow(env: Env, input: Input)
    requires ValidInput(input) && AllowedPath(input) && Places(env, input, SelectionWindow) != []
    requires Places(env, input, ExactGeneration) == Places(env, input, ExactContextAtLine) == []
    requires Places(env, input, ContextWindow) == Places(env, input, ContextFile) == []
    ensures Decide(env, input) == Places(env, input, SelectionWindow)
  {
    hide Places;
    assert Strongest(env, input, 0) == Strongest(env, input, 1) == Strongest(env, input, 2);
    assert Strongest(env, input, 2) == Strongest(env, input, 3) == Strongest(env, input, 4);
  }

  // ---------------------------------------------------------------------
  // The algorithm
  // ---------------------------------------------------------------------

  /** Collect the context lines on one side of `edge`. */
  method ContextLines(lines: seq<string>, edge: int, direction: int) returns (result: seq<string>)
    requires 0 <= edge
    ensures result == if direction < 0 then LinesBefore(lines, edge) else LinesAfter(lines, edge)
  {
    result := [];
    if direction < 0 {
      var first := edge - 1 - CONTEXT_LINES;
      if first < 0 { first := 0; }
      var index := first;
      while index < edge - 1 && index < |lines|
        invariant first <= index && (index == first || (index <= edge - 1 && index <= |lines|))
        invariant result == if index == first then [] else lines[first..index]
      {
        result := result + [lines[index]];
        SliceGrows(lines, first, index);
        index := index + 1;
      }
      return;
    }
    var last := edge + CONTEXT_LINES;
    if last > |lines| { last := |lines|; }
    var index := edge;
    while index < last
      invariant edge <= index && (index == edge || index <= last)
      invariant result == if index == edge then [] else lines[edge..index]
    {
      result := result + [lines[index]];
      SliceGrows(lines, edge, index);
      index := index + 1;
    }
  }

  lemma SliceGrows(lines: seq<string>, first: int, index: int)
    requires 0 <= first <= index < |lines|
    ensures lines[first..index + 1] == lines[first..index] + [lines[index]]
    ensures lines[first..first] == []
  {
  }

  method RenameMappingsAllowed(transition: Transition) returns (allowed: bool)
    ensures allowed <==> RenamesAllowed(transition)
  {
    if |transition.renameMappings| == 0 {
      return false;
    }
    if !transition.renameEvidence.complete {
      if !transition.fromRenameEvidence.complete || !transition.toRenameEvidence.complete {
        return false;
      }
      var same := SamePolicyEvidence(transition.fromRenameEvidence, transition.toRenameEvidence);
      if !same {
        return false;
      }
    }
    for i := 0 to |transition.renameMappings|
      invariant forall j :: 0 <= j < i ==> transition.renameMappings[j].evident
    {
      if !transition.renameMappings[i].evident {
        return false;
      }
    }
    return true;
  }

  method SamePolicyEvidence(left: PolicyEvidence, right: PolicyEvidence) returns (same: bool)
    ensures same <==> left.terms == right.terms && left.flags == right.flags
  {
    if left.terms != right.terms || |left.flags| != |right.flags| {
      return false;
    }
    for i := 0 to |left.flags|
      invariant forall j :: 0 <= j < i ==> left.flags[j] == right.flags[j]
    {
      if left.flags[i] != right.flags[i] {
        return false;
      }
    }
    return true;
  }

  /** The path the content may be searched under. */
  method ReconciliationPath(input: Input) returns (ok: bool)
    ensures ok <==> AllowedPath(input)
  {
    if input.content.path == input.anchor.path {
      return true;
    }
    var mappings := input.transition.renameMappings;
    var allowed := RenameMappingsAllowed(input.transition);
    if !allowed {
      return false;
    }
    var mapped: Option<Path> := None;
    ghost var at := -1;
    var i := 0;
    while i < |mappings|
      invariant 0 <= i <= |mappings|
      invariant mapped.None? ==> forall j :: 0 <= j < i ==> mappings[j].oldPath != input.anchor.path
      invariant mapped.Some? ==> 0 <= at < i && mappings[at].oldPath == input.anchor.path && mapped.value == mappings[at].newPath
      invariant mapped.Some? ==> forall j :: 0 <= j < i && mappings[j].oldPath == input.anchor.path ==> j == at
    {
      if mappings[i].oldPath == input.anchor.path {
        if mapped.Some? {
          assert forall k :: !OnlyMapping(mappings, input.anchor.path, k);
          return false;
        }
        mapped, at := Some(mappings[i].newPath), i;
      }
      i := i + 1;
    }
    assert mapped.Some? ==> OnlyMapping(mappings, input.anchor.path, at);
    return mapped == Some(input.content.path);
  }

  method ContentIdentityMatches(input: Input) returns (ok: bool)
    ensures ok <==> SameContentIdentity(input)
  {
    if input.content.identity.None? {
      return false;
    }
    for i := 0 to |input.transition.changedPaths|
      invariant forall j :: 0 <= j < i ==> !IdentityKept(input, input.transition.changedPaths[j])
    {
      if IdentityKept(input, input.transition.changedPaths[i]) {
        return true;
      }
    }
    return false;
  }

  /** Candidates are listed by path, then side, then line. */
  function CandidateLess(env: Env): (Candidate, Candidate) -> bool {
    (c: Candidate, d: Candidate) =>
      if c.path != d.path then env.pathLess(c.path, d.path)
      else if c.side != d.side then env.sideLess(c.side, d.side)
      else c.startLine < d.startLine
  }

  method CapCandidates(env: Env, candidates: seq<Candidate>) returns (retained: seq<Candidate>, overflow: bool)
    ensures var sorted := StableSort(CandidateLess(env), candidates);
            retained == sorted[..Min(|candidates|, MAX_CANDIDATES)]
    ensures overflow <==> |candidates| > MAX_CANDIDATES
  {
    var sorted := StableSort(CandidateLess(env), candidates);
    if |sorted| <= MAX_CANDIDATES {
      assert sorted[..|sorted|] == sorted;
      return sorted, false;
    }
    return sorted[..MAX_CANDIDATES], true;
  }

  /** Every candidate for a list of places, before the cap. */
  ghost function CandidatesAt(env: Env, input: Input, places: seq<int>, tier: Tier): seq<Candidate>
    requires ValidInput(input) && forall i :: 0 <= i < |places| ==> InFile(input, places[i])
  {
    seq(|places|, i requires 0 <= i < |places| => MakeCandidate(env, input, places[i], tier))
  }

  lemma CandidatesComeSorted(env: Env, input: Input, places: seq<int>, tier: Tier)
    requires ValidInput(input) && forall i :: 0 <= i < |places| ==> InFile(input, places[i])
    requires forall i, j :: 0 <= i < j < |places| ==> places[i] < places[j]
    ensures var c := CandidatesAt(env, input, places, tier);
            && StableSort(CandidateLess(env), c) == c
            && c[..Min(|c|, MAX_CANDIDATES)] == Kept(env, input, places, tier)
  {
    StableSortKeepsSorted(CandidateLess(env), CandidatesAt(env, input, places, tier));
  }

  /** Scan the whole file for the places one tier accepts. */
  method FirstCandidates(env: Env, input: Input, matches: (int, string) -> bool, tier: Tier)
    returns (candidates: seq<Candidate>, found: bool, overflow: bool)
    requires ValidInput(input)
    requires forall s :: InFile(input, s) ==> (matches(s, Selected(input, s)) <==> Holds(env, input, tier, s))
    ensures var places := Places(env, input, tier);
            && found == (places != []) && candidates == Kept(env, input, places, tier) && overflow == (|places| > MAX_CANDIDATES)
  {
    hide Join, Holds, MakeCandidate, Kept;
    var count := Count(input.anchor);
    candidates := [];
    ghost var places: seq<int> := [];
    var start := 1;
    while start <= |input.content.lines| - count + 1
      invariant 1 <= start && (start == 1 || start <= |input.content.lines| - count + 2)
      invariant forall i :: 0 <= i < |places| ==> InFile(input, places[i])
      invariant places == PlacesBefore(env, input, tier, start)
      invariant candidates == CandidatesAt(env, input, places, tier)
    {
      var selected := Selected(input, start);
      if matches(start, selected) {
        places := places + [start];
        candidates := candidates + [MakeCandidate(env, input, start, tier)];
      }
      start := start + 1;
    }
    NoPlacesPast(env, input, tier, start, |input.content.lines| + 1);
    assert places == Places(env, input, tier);
    CandidatesComeSorted(env, input, places, tier);
    found := |candidates| > 0;
    candidates, overflow := CapCandidates(env, candidates);
  }

  lemma {:induction false} NoPlacesPast(env: Env, input: Input, tier: Tier, from: nat, limit: nat)
    requires ValidInput(input) && 1 <= from <= limit && forall s :: from <= s ==> !InFile(input, s)
    ensures PlacesBefore(env, input, tier, from) == PlacesBefore(env, input, tier, limit)
    decreases limit
  {
    if from < limit { NoPlacesPast(env, input, tier, from, limit - 1); }
  }

  // ---------------------------------------------------------------------
  // The line diff
  // ---------------------------------------------------------------------

  /** The diff carries the anchor's lines, in order, to those from line `n` on. */
  ghost predicate DiffCarries(env: Env, input: Input, n: int) {
    && input.previous.Some? && input.previous.value.path == input.anchor.path && input.previous.value.lines != []
    && var diff := LineDiff(Normalized(env.norm, input.previous.value.lines, input.content.lines));
       Carries(diff, input.anchor.startLine, Count(input.anchor), n)
  }

  /** The k-th of the anchor's lines, and where it is carried. */
  function Carried(first: int, n: int, k: int): LinePair { LinePair(first + k, n + k) }

  ghost predicate Carries(pairs: seq<LinePair>, first: int, count: int, n: int) {
    forall k :: 0 <= k < count ==> Carried(first, n, k) in pairs
  }

  ghost predicate Rising(pairs: seq<LinePair>) {
    forall i, j :: 0 <= i < j < |pairs| ==> pairs[i].oldLine < pairs[j].oldLine
  }

  /** The pairs of a line diff rise, and lie within both files. */
  lemma LineDiffRises(f: Files)
    ensures Rising(LineDiff(f))
    ensures forall i :: 0 <= i < |LineDiff(f)| ==> 1 <= LineDiff(f)[i].newLine <= |f.b|
  {
    if f.a != [] && f.b != [] {
      LineDiffIsLongestWithLeadingPairs(f);
      var pairs := LeadingPairs(f) + LineDiff(f);
      hide LineDiff, LeadingPairs, SameLine;
      forall i | 0 <= i < |LineDiff(f)| ensures LineDiff(f)[i] == pairs[|LeadingPairs(f)| + i] {
      }
    }
  }

  /** `mapped` are the pairs, in order, whose old lines lie in the range. */
  ghost predicate IsRange(mapped: seq<LinePair>, pairs: seq<LinePair>, first: int, last: int) {
    && Rising(mapped)
    && forall p :: p in mapped <==> p in pairs && first <= p.oldLine <= last
  }

  lemma RangeNext(mapped: seq<LinePair>, pairs: seq<LinePair>, i: nat, first: int, last: int)
    requires Rising(pairs) && i < |pairs| && IsRange(mapped, pairs[..i], first, last)
    ensures IsRange(if first <= pairs[i].oldLine <= last then mapped + [pairs[i]] else mapped, pairs[..i + 1], first, last)
  {
    assert pairs[..i + 1] == pairs[..i] + [pairs[i]];
    forall k | 0 <= k < |mapped| ensures mapped[k].oldLine < pairs[i].oldLine {
      assert mapped[k] in pairs[..i];
    }
  }

  /** As many rising numbers as a range holds are the range. */
  lemma {:induction false} RisingFills(mapped: seq<LinePair>, first: int, k: nat)
    requires Rising(mapped) && k < |mapped|
    requires forall p :: p in mapped ==> first <= p.oldLine < first + |mapped|
    ensures mapped[k].oldLine == first + k
  {
    RisingFromBelow(mapped, first, k);
    RisingFromAbove(mapped, first + |mapped| - 1, k);
  }

  lemma {:induction false} RisingFromBelow(mapped: seq<LinePair>, first: int, k: nat)
    requires Rising(mapped) && k < |mapped| && forall p :: p in mapped ==> first <= p.oldLine
    ensures first + k <= mapped[k].oldLine
  {
    assert mapped[0] in mapped;
    if k > 0 {
      RisingFromBelow(mapped, first, k - 1);
    }
  }

  lemma {:induction false} RisingFromAbove(mapped: seq<LinePair>, last: int, k: nat)
    requires Rising(mapped) && k < |mapped| && forall p :: p in mapped ==> p.oldLine <= last
    ensures mapped[k].oldLine <= last - (|mapped| - 1 - k)
    decreases |mapped| - k
  {
    assert mapped[k] in mapped;
    if k + 1 < |mapped| {
      RisingFromAbove(mapped, last, k + 1);
    }
  }

  /** The range maps the anchor's lines one by one to those from line `n` on. */
  ghost predicate Shifts(mapped: seq<LinePair>, first: int, count: int, n: int) {
    |mapped| == count && forall k :: 0 <= k < count ==> mapped[k] == Carried(first, n, k)
  }

  lemma ShiftsIffCarried(mapped: seq<LinePair>, pairs: seq<LinePair>, first: int, count: int, n: int)
    requires count >= 1 && Rising(pairs) && IsRange(mapped, pairs, first, first + count - 1)
    ensures Shifts(mapped, first, count, n) <==> Carries(pairs, first, count, n)
  {
    if Carries(pairs, first, count, n) {
      CarriedIsAll(mapped, pairs, first, count, n, count);
      assert mapped != [];
      RisingFromBelow(mapped, first, |mapped| - 1);
      assert mapped[|mapped| - 1] in mapped;
      forall k | 0 <= k < count ensures mapped[k] == Carried(first, n, k) {
        RisingFills(mapped, first, k);
        assert Carried(first, n, k) in mapped;
        var i :| 0 <= i < |mapped| && mapped[i] == Carried(first, n, k);
        RisingFills(mapped, first, i);
      }
    }
    if Shifts(mapped, first, count, n) {
      forall k | 0 <= k < count ensures Carried(first, n, k) in pairs {
        assert mapped[k] in mapped;
      }
    }
  }

  /** All the carried lines are among the mapped ones, so these are as many. */
  lemma CarriedIsAll(mapped: seq<LinePair>, pairs: seq<LinePair>, first: int, count: int, n: int, k: nat)
    requires IsRange(mapped, pairs, first, first + count - 1) && 1 <= k <= count && Carries(pairs, first, count, n)
    ensures |mapped| >= k && Carries(mapped, first, k, n)
  {
    forall l | 0 <= l < k ensures Carried(first, n, l) in mapped {
      assert Carried(first, n, l) in pairs;
    }
    assert Carried(first, n, k - 1) in mapped;
    var last :| 0 <= last < |mapped| && mapped[last] == Carried(first, n, k - 1);
    CountedBelow(mapped, first, n, k - 1, last);
  }

  /** Before a carried line stand all carried lines below it. */
  lemma {:induction false} CountedBelow(mapped: seq<LinePair>, first: int, n: int, k: nat, at: nat)
    requires Rising(mapped) && at < |mapped| && mapped[at] == Carried(first, n, k) && Carries(mapped, first, k, n)
    ensures at >= k
    decreases k
  {
    if k > 0 {
      assert Carried(first, n, k - 1) in mapped;
      var i :| 0 <= i < |mapped| && mapped[i] == Carried(first, n, k - 1);
      CountedBelow(mapped, first, n, k - 1, i);
    }
  }

  lemma ShiftAt(mapped: seq<LinePair>, first: int, count: int, m: int, i: nat)
    requires count >= 1 && |mapped| == count && i < count
    ensures Shifts(mapped, first, count, m) ==> mapped[0].newLine == m && mapped[i] == LinePair(first + i, m + i)
  {
    if Shifts(mapped, first, count, m) {
      assert mapped[0] == Carried(first, m, 0) && mapped[i] == Carried(first, m, i);
    }
  }

  method MappedPairs(pairs: seq<LinePair>, first: int, last: int) returns (mapped: seq<LinePair>)
    requires Rising(pairs)
    ensures IsRange(mapped, pairs, first, last)
  {
    mapped := [];
    for i := 0 to |pairs|
      invariant IsRange(mapped, pairs[..i], first, last)
    {
      RangeNext(mapped, pairs, i, first, last);
      if first <= pairs[i].oldLine <= last {
        mapped := mapped + [pairs[i]];
      }
    }
    assert pairs[..|pairs|] == pairs;
  }

  method ShiftOf(mapped: seq<LinePair>, first: int, count: int) returns (found: bool, n: int)
    requires count >= 1 && Rising(mapped) && forall p :: p in mapped ==> first <= p.oldLine < first + count
    ensures found ==> Shifts(mapped, first, count, n)
    ensures !found ==> forall m :: !Shifts(mapped, first, count, m)
  {
    found, n := false, 0;
    if |mapped| != count {
      return;
    }
    n := mapped[0].newLine;
    RisingFills(mapped, first, 0);
    for i := 1 to |mapped|
      invariant forall k :: 0 <= k < i ==> mapped[k] == Carried(first, n, k)
    {
      if mapped[i].oldLine != mapped[0].oldLine + i || mapped[i].newLine != n + i {
        forall m ensures !Shifts(mapped, first, count, m) { ShiftAt(mapped, first, count, m, i); }
        return;
      }
    }
    found := true;
  }

  /** The last resort: carry the anchor's lines across a line diff. A candidate is
      found exactly when the diff carries them all, in order, to a place that
      matches; that place is the candidate. */
  method LineDiffCandidate(env: Env, input: Input) returns (found: bool, start: int)
    requires ValidInput(input)
    ensures found ==> DiffCarries(env, input, start) && SelectionAt(env, input, start) &&
                      ContextMatches(env, input.anchor, input.content.lines, start, start + Count(input.anchor) - 1)
    ensures !found ==> forall n :: DiffCarries(env, input, n) && SelectionAt(env, input, n) ==>
                         !ContextMatches(env, input.anchor, input.content.lines, n, n + Count(input.anchor) - 1)
  {
    hide SelectionMatches, ContextMatches, LineDiff, Join, Rising, IsRange, Shifts, Carries;
    found, start := false, 0;
    if input.previous.None? || input.previous.value.path != input.anchor.path || |input.previous.value.lines| == 0 {
      return;
    }
    var count := Count(input.anchor);
    var pairs := MyersEqualLines(env.norm, input.previous.value.lines, input.content.lines);
    LineDiffRises(Normalized(env.norm, input.previous.value.lines, input.content.lines));
    var mapped := MappedPairs(pairs, input.anchor.startLine, input.anchor.endLine);
    RangeRises(mapped, pairs, input.anchor.startLine, input.anchor.endLine);
    forall n ensures Shifts(mapped, input.anchor.startLine, count, n) <==> DiffCarries(env, input, n) {
      ShiftsIffCarried(mapped, pairs, input.anchor.startLine, count, n);
    }
    var first;
    found, first := ShiftOf(mapped, input.anchor.startLine, count);
    if !found {
      return;
    }
    OneShift(mapped, input.anchor.startLine, count, first);
    if first <= 0 || first + count - 1 > |input.content.lines| {
      return false, 0;
    }
    if !SelectionMatches(env, input.anchor, Selected(input, first)) {
      return false, 0;
    }
    if !ContextMatches(env, input.anchor, input.content.lines, first, first + count - 1) {
      return false, 0;
    }
    return true, first;
  }

  lemma RangeRises(mapped: seq<LinePair>, pairs: seq<LinePair>, first: int, last: int)
    requires IsRange(mapped, pairs, first, last)
    ensures Rising(mapped) && forall p :: p in mapped ==> first <= p.oldLine <= last
  {
  }

  lemma OneShift(mapped: seq<LinePair>, first: int, count: int, n: int)
    requires count >= 1 && Shifts(mapped, first, count, n)
    ensures forall m :: Shifts(mapped, first, count, m) ==> m == n
  {
    assert mapped[0] == Carried(first, n, 0);
    forall m | Shifts(mapped, first, count, m) ensures m == n { ShiftAt(mapped, first, count, m, 0); }
  }

  /** What several candidates amount to. */
  function OutcomeFromCandidates(env: Env, input: Input, candidates: seq<Candidate>, overflow: bool, reason: Reason): Result
    requires ValidInput(input) && candidates != [] && InFile(input, candidates[0].startLine)
  {
    if |candidates| > 1 then AmbiguousOutcome(env, input, candidates, overflow, reason)
    else RelocatedOutcome(env, input, candidates[0].startLine, PlacedState(input, candidates[0].startLine), reason)
  }

  /** The evidence a tier asks of a place, as the scan evaluates it. */
  function TierTest(env: Env, input: Input, tier: Tier): (int, string) -> bool
    requires ValidInput(input)
  {
    (start: int, selected: string) =>
      && SelectionMatches(env, input.anchor, selected)
      && (tier == ExactContextAtLine ==> start == input.anchor.startLine)
      && (tier == ContextWindow || tier == SelectionWindow ==> WithinWindow(input.anchor.startLine, start))
      && (tier == SelectionWindow || tier == SelectionFile || ContextAt(env, input, start))
  }

  /** No tier stronger than the k-th holds anywhere. */
  ghost predicate NothingBefore(env: Env, input: Input, k: nat)
    requires ValidInput(input) && k <= |TIERS|
  {
    forall i :: 0 <= i < k ==> Places(env, input, TIERS[i]) == []
  }

  lemma {:induction false} StrongestIs(env: Env, input: Input, from: nat, k: nat)
    requires ValidInput(input) && from <= k < |TIERS| && NothingBefore(env, input, k)
    requires Places(env, input, TIERS[k]) != [] || k + 1 == |TIERS|
    ensures Strongest(env, input, from) == TIERS[k]
    decreases k - from
  {
    hide Places;
    if from < k { StrongestIs(env, input, from + 1, k); }
  }

  lemma TierTestIsHolds(env: Env, input: Input, k: nat)
    requires ValidInput(input) && 1 <= k < |TIERS|
    ensures forall s :: InFile(input, s) ==> (TierTest(env, input, TIERS[k])(s, Selected(input, s)) <==> Holds(env, input, TIERS[k], s))
  {
    hide ContextMatches, SelectionMatches, Selected;
  }

  /** Scan for one tier and, when it holds somewhere, conclude. */
  method TryTier(env: Env, input: Input, k: nat) returns (found: bool, r: Result)
    requires ValidInput(input) && AllowedPath(input) && Count(input.anchor) <= |input.content.lines|
    requires 1 <= k < |TIERS| && NothingBefore(env, input, k)
    ensures if found then r == Reconciled(env, input) else NothingBefore(env, input, k + 1)
  {
    hide Holds, TierTest, ContextMatches, SelectionMatches, SameContentIdentity, AllowedPath;
    TierTestIsHolds(env, input, k);
    var candidates, overflow;
    candidates, found, overflow := FirstCandidates(env, input, TierTest(env, input, TIERS[k]), TIERS[k]);
    r := InvalidOutcome;
    if found {
      StrongestIs(env, input, 0, k);
      r := OutcomeFromCandidates(env, input, candidates, overflow, Evidence(TIERS[k]));
    }
  }

  lemma NoTierLeft(env: Env, input: Input)
    requires ValidInput(input) && NothingBefore(env, input, |TIERS|)
    ensures forall s :: !SelectionAt(env, input, s)
    ensures Places(env, input, Strongest(env, input, 0)) == []
  {
    hide Holds;
    assert TIERS[|TIERS| - 1] == SelectionFile;
    SelectionFileIsWeakest(env, input);
    StrongestIs(env, input, 0, |TIERS| - 1);
  }

  /** Try the tiers in order; the first that holds anywhere decides. When none
      does the line diff is tried too, and can find nothing. */
  method ReconcileAnchor(env: Env, input: Input) returns (r: Result)
    ensures r == Reconciled(env, input)
  {
    if !ValidInput(input) {
      return InvalidInput;
    }
    var ok := ReconciliationPath(input);
    if !ok {
      return OrphanedOutcome(env, input, ScopedPathUnavailable);
    }
    var oldCount := Count(input.anchor);
    if oldCount <= 0 || oldCount > |input.content.lines| {
      return OrphanedOutcome(env, input, SelectedRangeNotPresent);
    }
    var identityMatch := ContentIdentityMatches(input);
    if identityMatch && input.content.path == input.anchor.path && SelectionAt(env, input, input.anchor.startLine) {
      SinglePlace(env, input, ExactGeneration, input.anchor.startLine);
      return RelocatedOutcome(env, input, input.anchor.startLine, Valid, Evidence(ExactGeneration));
    }
    NoPlace(env, input, ExactGeneration);
    hide Places, SelectionAt, Reconciled, AllowedPath, OrphanedOutcome;
    var found;
    found, r := TryTier(env, input, 1);
    if found { return; }
    found, r := TryTier(env, input, 2);
    if found { return; }
    found, r := TryTier(env, input, 3);
    if found { return; }
    found, r := TryTier(env, input, 4);
    if found { return; }
    found, r := TryTier(env, input, 5);
    if found { return; }
    NoTierLeft(env, input);
    var start;
    found, start := LineDiffCandidate(env, input);
    if found {
      assert false;
    }
    Unmatched(env, input);
    return OrphanedOutcome(env, input, AnchorEvidenceNotFound);
  }

  lemma Unmatched(env: Env, input: Input)
    requires ValidInput(input) && AllowedPath(input) && Count(input.anchor) <= |input.content.lines|
    requires Places(env, input, Strongest(env, input, 0)) == []
    ensures Reconciled(env, input) == OrphanedOutcome(env, input, AnchorEvidenceNotFound)
  {
  }
}
