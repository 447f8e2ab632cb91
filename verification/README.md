# Nudge application core: verified model

A Dafny model of the algorithms and protocols in `internal/app` of Nudge, a
terminal review tool, with proofs of what they keep over all inputs, all runs
and all interleavings. `dafny verify dfyconfig.toml` checks the project.

| file | models |
|---|---|
| `Wrappers.dfy` | the optional value that all modules share |
| `Ordering.dfy` | stable sorting, sorting by a key, byte-wise comparison |
| `Myers.dfy` | the furthest-reaching line diff and its backtrack |
| `AnchorReconciliation.dfy` | relocating a review anchor by tiers of evidence |
| `AnchorStaging.dfy` | staging reconciled anchors page by page, with resume |
| `Reconciler.dfy` | the owner of one worker and one follow-up |
| `ApplyExecution.dfy`, `ApplyPaths.dfy` | applying a proposal under a journal; deciding whether a destination is baseline or result |
| `ProposalDerivation.dfy` | publishing a proposal, and whether its own result is recognised afterwards |
| `RefreshScheduler.dfy`, `RefreshCoordinator.dfy`, `RefreshDelivery.dfy` | debouncing refresh hints; the wake and drain loop around it; what the loop hands on |
| `ProviderConversations.dfy`, `ProviderOutcomes.dfy` | journalled conversations and turns of one thread; what the journal says of what happened |
| `EventStream.dfy` | the bounded event queue and the snapshot slot |
| `Cleanup.dfy`, `CleanupRuns.dfy`, `CleanupAttempt.dfy`, `CleanupOutcomes.dfy` | removing a repository under a journal; what runs of attempts can do; one attempt as a service; what it leaves behind |
| `Reducer.dfy` | operations, supersession and stale results |
| `TreeSearch.dfy` | path matching, ranking and result pages |
| `WorkspaceManifest.dfy` | the hashed identity of a workspace root |
| `PatchReader.dfy` | reading an adopted patch in bounded ranges |

Protocols are state machines: one function for each step between two effects or
inside one critical section, actions that carry what the environment answers,
and invariants over every run of actions. Beside each machine a class with the
source's fields runs the same steps as methods, and every method's contract says
that it leaves the state where the machine's step does; the theorems about runs
therefore speak of the methods too.

What is taken from outside is a parameter: line normalisation, fingerprints,
digests and validators are functions; the store's transaction is compare the
revision, write and bump, and may be refused or committed without the caller
learning of it; a prepared apply begins at its baseline, its verifier is
truthful, only the mutating call changes the destination, and clocks do not run
backwards; in a patch as Git writes it only renames and copies have two paths; a caller's fence comes from the store; operation and turn identifiers
are fresh.

## Where the code does not keep a promise

- The line diff omits the leading equal lines, since the backtrack stops before
  distance zero (`internal/app/reconcile_anchors.go:461`): it is a longest common
  subsequence exactly when the first lines differ. The tier that uses it can
  decide no outcome in any case.
- Reconciling a result again stays put exactly when context evidence survived,
  the content identity is unchanged or no duplicate lies in the window; a file cut
  behind the selection loses its anchor.
- An anchor operation whose workers are all gone can be completed exactly when its
  last page is not yet staged and the total it knows is the true one: behind the
  last page its empty cursor restarts the list, which totals and unique rows then
  refuse.
- A queued reconciliation is lost exactly when its operation identifier cannot be
  made.
- A proposal with a copy records the mode its source had before
  (`internal/app/derive_proposal.go:574-578`) and asks for it afterwards
  (`internal/app/apply_execution.go:543-546`). Its true result is recognised
  exactly when every copied path that no later file names has kept its kind and
  mode; a file made executable and copied to a path listed behind it never is.
- A cleanup attempt that loaded the journal before another one held the gate
  removes a recorded resource again exactly when its copy lacks one and the rows
  are still there.
- A complete cleanup can be taken up again exactly when an attempt still waits with
  a copy of a database phase: it finds no rows to delete, which is no error
  (`internal/store/sqlite/cleanup.go:521-524`), and saves its phase over the
  complete one.
- A begun cleanup can be completed exactly when it is not stuck: rows gone, and
  neither the journal nor any waiting copy in a phase that excuses that. A
  deletion that commits but reports an error leads there, and so does a crash
  behind the deletion followed by a deletion that is refused.
- A target asked of one repository is installed under the next one: the installed
  target is of the open repository exactly when no repository load was accepted
  between the start of its operation and its result.
- A page of all matches of a query is refused exactly when one of them has more
  ranges than a page allows, which a longer query can bring about.

## Model

| member | source | states |
|---|---|---|
| `Myers.DistanceIsALowerBound` | internal/app/reconcile_anchors.go:422-453 | no edit script between the two line lists is cheaper than the distance the search is measured against |
| `Myers.DistanceIsAttained` | internal/app/reconcile_anchors.go:422-453 | and one script costs exactly that distance |
| `Myers.FurthestIsReachable` | internal/app/reconcile_anchors.go:429-441 | a probe of distance D is within D edits of the origin, also where it overruns the grid |
| `Myers.FrontierIsComplete` | internal/app/reconcile_anchors.go:429-441 | no point of the grid within D edits lies beyond the probe of its diagonal |
| `Myers.CornerIsReached` | internal/app/reconcile_anchors.go:430-451 | the search reaches the corner at the least distance, on a diagonal it probes |
| `Myers.ExhaustedAtTheCorner` | internal/app/reconcile_anchors.go:444-447 | up to that distance a probe that uses up both files stands exactly at the corner, so no smaller distance stops the search |
| `Myers.LineDiffIsLongestWithLeadingPairs` | internal/app/reconcile_anchors.go:455-483 | with the leading equal lines put back the returned pairs are a common subsequence, strictly increasing on both sides, of length (N+M-D)/2, and none is longer |
| `Myers.LineDiffIsLongestIffFirstLinesDiffer` | internal/app/reconcile_anchors.go:461 | the returned pairs alone are a longest common subsequence exactly when the files do not start with equal lines, because the backtrack stops before distance zero |
| `Myers.IdenticalFilesGiveNoPairs` | internal/app/reconcile_anchors.go:461 | the smallest witness: two copies of one line give no pair |
| `Myers.Advance` | internal/app/reconcile_anchors.go:437-440 | the snake loop follows equal lines as far as they go |
| `Myers.StartProbe` | internal/app/reconcile_anchors.go:432-436 | a probe starts from the better neighbour of the previous frontier |
| `Myers.ProbeDistance` | internal/app/reconcile_anchors.go:429-450 | one round records every furthest point of its distance, and ends the search exactly at the corner's distance |
| `Myers.MyersEqualLines` | internal/app/reconcile_anchors.go:422-453 | the search returns the line diff for any two lists, and its last statement is never reached |
| `Myers.StepBack` | internal/app/reconcile_anchors.go:461-477 | one backtrack step goes to the point the frontier came from and collects the slide between |
| `Myers.ReconstructLinePairs` | internal/app/reconcile_anchors.go:455-483 | the backtrack over a recorded trace yields the emitted pairs in order |
| `Myers.Reverse` | internal/app/reconcile_anchors.go:479-481 | the in-place reversal |
| `AnchorReconciliation.DecisionIsTheStrongestTier` | internal/app/reconcile_anchors.go:14-71 | there is no place exactly off the allowed path or when no same-length window matches the selection; otherwise the places are those of the strongest tier that has any |
| `AnchorReconciliation.StateFollowsTheDecision` | internal/app/reconcile_anchors.go:191-203 | orphaned, ambiguous, valid and relocated follow from how many places that tier has; the candidates are capped at twenty and the overflow flag is exact |
| `AnchorReconciliation.ReconcileAnchor` | internal/app/reconcile_anchors.go:14-71 | the ladder of tiers refines that specification, and its line-diff branch is unreachable |
| `AnchorReconciliation.NoTierLeft` | internal/app/reconcile_anchors.go:62-70 | when the six scans fail, no window matches the selection, so the line diff cannot decide either |
| `AnchorReconciliation.FirstCandidates` | internal/app/reconcile_anchors.go:150-161 | the scan keeps exactly the places a tier accepts, in file order, capped |
| `AnchorReconciliation.CapCandidates` | internal/app/reconcile_anchors.go:163-177 | candidates are put in canonical order and cut at twenty |
| `AnchorReconciliation.LineDiffCandidate` | internal/app/reconcile_anchors.go:362-390 | a candidate is found exactly when the diff carries all of the anchor's lines, in order, to a place that matches selection and context, and it is that place |
| `AnchorReconciliation.ReconciliationPath` | internal/app/reconcile_anchors.go:80-102 | the content is searched at the anchor's own path, or at the only mapping of that path when renames are allowed |
| `AnchorReconciliation.RenameMappingsAllowed` | internal/app/reconcile_anchors.go:104-136 | renames are allowed exactly when every mapping is evident and renames were looked for completely, over the transition or alike on both sides |
| `AnchorReconciliation.ContentIdentityMatches` | internal/app/reconcile_anchors.go:138-148 | content identity counts only for a path listed as unchanged |
| `AnchorReconciliation.ContextLines` | internal/app/reconcile_anchors.go:332-352 | up to three lines on one side of an edge, in file order |
| `AnchorReconciliation.ReconcilingAgainStaysPutIff` | internal/app/reconcile_anchors.go:205-244 | a placed anchor reconciled again against the same content stays where it is exactly when context evidence survived, the content identity is unchanged, or no duplicate lies in the window |
| `AnchorReconciliation.EvidenceSurvivesUnlessBlank` | internal/app/reconcile_anchors.go:219-236 | context evidence survives a placement unless every side that had it is now blank |
| `AnchorReconciliation.ReconciledAgainIsValidIff` | internal/app/reconcile_anchors.go:191-244 | so an accepted second outcome is valid at the very same lines exactly under that condition |
| `AnchorReconciliation.BlankContextLosesTheAnchor` | internal/app/reconcile_anchors.go:205-244 | a witness where it does not hold: a first line and its duplicate |
| `AnchorReconciliation.ACutFileLosesTheAnchor` | internal/app/reconcile_anchors.go:205-244 | and another: a file cut behind the selection, with a duplicate that only the second window reaches |
| `AnchorReconciliation.ContextMatchesIff` | internal/app/reconcile_anchors.go:298-352 | with fingerprints that tell line lists apart, context matches at a place exactly when the up to three lines on each recorded side are those of the old file, of whichever version the fingerprint is |
| `AnchorReconciliation.ContextTiersAcceptIff` | internal/app/reconcile_anchors.go:36-58 | a context tier accepts exactly the places on its reach that carry the selection between the lines that stood around it, on every side on record |
| `AnchorReconciliation.OtherTiersAcceptIff` | internal/app/reconcile_anchors.go:29-61 | what the other tiers accept: a selection the capture lists as untouched, one within two hundred lines, any |
| `AnchorReconciliation.TiersAreTriedInThisOrder` | internal/app/reconcile_anchors.go:29-70 | the order of the tiers, one by one |
| `AnchorReconciliation.SelectionsAreFoundIff` | internal/app/reconcile_anchors.go:291-296 | a place carries the selection exactly when its lines are the selected text, alike up to normalisation if the text was kept, else the same |
| `AnchorReconciliation.APathIsSearchedIff` | internal/app/reconcile_anchors.go:80-136 | content is searched at the anchor's path or where the mappings, all evident and completely looked for, take that path exactly once |
| `AnchorReconciliation.APlacedAnchorIsTakenAfresh` | internal/app/reconcile_anchors.go:205-244 | an anchor with one place: path, lines, selection and context as they stand there, context only on sides that had one, and where it came from if it moved |
| `AnchorReconciliation.AnUnplacedAnchorKeepsItsEvidence` | internal/app/reconcile_anchors.go:246-289 | with no place, or several, lines and evidence stay; state, generation and reason are new |
| `AnchorReconciliation.AnOrphanSaysWhy` | internal/app/reconcile_anchors.go:14-71 | the reason of an orphan is exact: its path is gone, the file is too short, or no lines carry the selection |
| `AnchorReconciliation.CandidatesDescribeTheirPlaces` | internal/app/reconcile_anchors.go:163-189 | the candidates are the first twenty places in order, each with the lines that stand in and around it |
| `AnchorReconciliation.SurroundingsDecideBetweenCopies` | internal/app/reconcile_anchors.go:298-304 | a witness: of two copies of the selected line the one in the recorded surroundings is taken, although the other stands on the old line |
| `ApplyExecution.VerificationOutcomeIsFit` | internal/app/apply_execution.go:393-487 | whatever a truthful verification is turned into is a valid operation, one legal transition away, and true of the destination |
| `ApplyExecution.StepIsSafe` | internal/app/apply_execution.go:301-362 | every step, crash, refused or unacknowledged write keeps the safety invariant and moves the journal only along an edge the store accepts |
| `ApplyExecution.NoRunAppliesAPatchTwice` | internal/app/apply_execution.go:301-362 | over every run each mutating call finds the destination at baseline and all but the last leave it there; the journalled phase is true of the destination; everything handed to the journal is a valid operation |
| `ApplyExecution.TerminalPhasesAbsorb` | internal/app/apply_execution.go:317-319 | from a terminal phase no run writes the journal or calls the mutator |
| `ApplyExecution.WithoutAuthorityOneMutation` | internal/app/apply_execution.go:328-332 | without an authorised retry a run makes at most one mutating call, however often it is executed |
| `ApplyExecution.AnUninterruptedExecutionEnds` | internal/app/apply_execution.go:337-362 | a prepared operation left alone ends in a terminal phase, applied exactly when the verifier saw the expected result in an unchanged context |
| `ApplyExecution.ApplyExecutionService.Execute` | internal/app/apply_execution.go:301-362 | one execution leaves journal and destination as the machine's script does, and reports what the journal then says |
| `ApplyExecution.ApplyExecutionService.Transition` | internal/app/apply_execution.go:489-497 | a journal write under the fence, with its three answers |
| `ApplyExecution.ApplyExecutionService.Conclude` | internal/app/apply_execution.go:393-487 | verification, classification and the final journal write |
| `ApplyExecution.ARecoveryConcludes` | internal/app/apply_execution.go:393-413 | an execution that finds the intent journalled and is left alone: ready for a retry exactly when the verifier saw the baseline in the same context, applied exactly when it saw the result, else in need of repair, with the failure code of each case; it mutates nothing |
| `ApplyExecution.ARecoveryWithoutOutcomeKeepsTheOperation` | internal/app/apply_execution.go:393-397 | without an answer, or with its write refused, the operation stays as it was |
| `ApplyExecution.AFreshExecutionConcludes` | internal/app/apply_execution.go:337-446 | a prepared operation, or an authorised retry, left alone: it mutates once and is cleanly failed exactly when the baseline was seen, applied exactly when the result was, else in need of repair, whatever the mutating call reported |
| `ApplyExecution.AFreshExecutionWithoutOutcomeIsInFlight` | internal/app/apply_execution.go:415-419 | without an answer it stays in flight, mutated once |
| `ApplyExecution.AnUnheardIntentMutatesNothing` | internal/app/apply_execution.go:337-346 | an intent committed without its caller learning of it: in flight, nothing mutated |
| `ApplyExecution.AnUnsavedMutationIsInFlight` | internal/app/apply_execution.go:347-362 | a mutation that could not be journalled: in flight, mutated once, the verifier not asked |
| `ApplyExecution.WithoutItsIntentNothingIsMutated` | internal/app/apply_execution.go:337-346 | with a stale fence or a refused intent nothing is mutated and nothing journalled |
| `ApplyExecution.AnExecutionThatMayNotBeginChangesNothing` | internal/app/apply_execution.go:301-335 | an execution that may not begin changes nothing at all |
| `ApplyExecution.ApplyExecutionService.MutateAndConclude` | internal/app/apply_execution.go:337-362 | intent, mutation and conclusion of a first execution or an authorised retry |
| `ApplyPaths.ApplyResultPathsMatch` | internal/app/apply_execution.go:539-582 | the observation is accepted exactly when it covers the demanded paths and meets every demand, the last file that mentions a path deciding |
| `ApplyPaths.ResultIffLastMentionsAreMet` | internal/app/apply_execution.go:539-582 | an observation is the result exactly when it covers the mentioned paths and meets, at each, what the last file that mentions it asks |
| `ApplyPaths.RenameOrderDecides` | internal/app/apply_execution.go:539-551 | a path some file leaves is demanded as that file leaves it exactly when the last later file that comes from it leaves the same there |
| `ProposalDerivation.ArtifactCoversDelta` | internal/app/derive_proposal.go:352-422 | a patch is accepted exactly when every section fits the delta and every path of the delta is in a section |
| `ProposalDerivation.ASectionFitsIff` | internal/app/derive_proposal.go:352-422 | when a section fits, change by change, in Git's own modes; the test that lets the source of a copy be outside the delta decides nothing |
| `ProposalDerivation.DeriveProposedFiles` | internal/app/derive_proposal.go:539-608 | every section becomes its proposed file, or the proposal is refused for one that is invalid |
| `ProposalDerivation.TheTrueResultIsAcceptedIff` | internal/app/apply_execution.go:539-582 | the result a patch was made from is recognised exactly when the last section that names a path tells the truth about it |
| `ProposalDerivation.OnlyCopiesMislead` | internal/app/derive_proposal.go:574-590 | of a patch as Git writes it that is so exactly when every copied path that no later section names has kept its kind and mode |
| `ProposalDerivation.RenamesNeverOverride` | internal/app/derive_proposal.go:401-422 | no publishable section leaves anything where a rename came from, and none comes from where a rename or copy goes |
| `ProposalDerivation.WithoutCopiesTheResultIsAccepted` | internal/app/apply_execution.go:539-582 | a publishable proposal without copies is always recognised |
| `ProposalDerivation.ACopyOfAChangedModeIsRefused` | internal/app/derive_proposal.go:574-590 | the witness: a file made executable and copied makes a publishable patch whose own result is refused |
| `ProposalDerivation.AnObservationIsAcceptedIff` | internal/app/apply_execution.go:539-582 | of a patch as Git writes it any observation is accepted exactly when it shows the paths of the delta and no other, each as its last section wants: kind and mode, and of content and link whatever is recorded |
| `ProposalDerivation.OnlyTheResultIsAccepted` | internal/app/apply_execution.go:539-582 | without copies that is the recorded result and nothing else |
| `ApplyPaths.ApplyBaselinePathsMatch` | internal/app/apply_execution.go:584-593 | in whatever order the map yields the paths, the observation is accepted exactly when every precondition is observed and nothing else |
| `ApplyPaths.SameIffSameStates` | internal/app/apply_preflight.go:603-612 | sorting both lists and comparing them decides whether they hold the same states |
| `AnchorStaging.StepKeepsGood` | internal/app/reconcile.go:449-555 | only the worker with the current fence writes; what is staged is whole laps over the list and a prefix up to the stored cursor, and is counted |
| `AnchorStaging.StagedOnceIffNeverRestarted` | internal/app/reconcile.go:474-555 | over every run an operation that completes has staged the list exactly once, in order, if and only if no resumed worker started over behind the last page |
| `AnchorStaging.CompletionStagesEveryAnchorOnce` | internal/app/reconcile.go:489-541 | with a true total on every page, or unique rows in the journal, completion means every anchor is staged exactly once and the counters are those of the list |
| `AnchorStaging.AfterTheLastPageNothingCompletes` | internal/app/reconcile.go:531-541 | the price of that guarantee: if every worker dies between the last page and completion no later run completes the operation |
| `AnchorStaging.CompletionIsInReachIff` | internal/app/reconcile.go:449-541 | without workers some run completes the operation exactly if its last page is not yet staged and the total it knows, if any, is the true one |
| `AnchorStaging.WithoutTotalsAnAnchorCanBeStagedTwice` | internal/app/reconcile.go:535-537 | without totals and unique rows a concrete run completes with an anchor staged twice |
| `AnchorStaging.Reconciliation.Begin` | internal/app/reconcile.go:449-474 | taking up an operation and journalling its start |
| `AnchorStaging.Reconciliation.PageBudget` | internal/app/reconcile.go:622-644 | distinct paths and bytes of a page, or nothing when they wrap or exceed the budget |
| `AnchorStaging.Reconciliation.Stage` | internal/app/reconcile.go:475-530 | one page: its checks, its budget, the counters, the cursor and the fenced write |
| `AnchorStaging.Reconciliation.Finish` | internal/app/reconcile.go:535-555 | completion only if processed equals total |
| `AnchorStaging.Reconciliation.Work` | internal/app/reconcile.go:449-555 | one worker from start to return leaves the journal as the machine does, and reports completion exactly if it completed the operation and heard so |
| `AnchorStaging.APageIsStagedIff` | internal/app/reconcile.go:475-530 | a page reaches the journal exactly when its worker is up to date, the page fits list, limit, reported count, total, budget and sixty-four bits, and the write is not refused; and the whole journal behind it |
| `AnchorStaging.CountersNeverWrap` | internal/app/reconcile.go:509-516 | over every run no counter wraps, and paths are counted at least once for each that is staged |
| `AnchorStaging.AnOverfilledOperationStays` | internal/app/reconcile.go:449-474 | an operation with more rows than its total is never taken up again |
| `Reconciler.OneWorkerAndOneClosing` | internal/app/reconcile.go:329-417 | over every interleaving there is at most one worker, the event channel closes at most once, only when closed and idle, and nothing is sent to it afterwards |
| `Reconciler.FatesAreFinal` | internal/app/reconcile.go:346-357 | what became of an accepted request never changes again |
| `Reconciler.EveryRequestIsSettled` | internal/app/reconcile.go:693-716 | every accepted request is started, replaced by a newer one, dropped by Close or still the one follow-up; one is lost exactly when a follow-up cannot be given an identifier |
| `Reconciler.NewestRequestStarts` | internal/app/reconcile.go:693-716 | an open owner at rest has started its newest request, if identifiers could be given |
| `Reconciler.CommittingIsNeverCancelled` | internal/app/reconcile.go:346-354 | once a worker commits no submission cancels it: its context is done exactly when that of its own submitter is |
| `Reconciler.ClosedStaysClosed` | internal/app/reconcile.go:392-410 | a closed owner accepts and starts nothing more, and closes the channel when its worker is gone |
| `Reconciler.AuthoritativeReconciler.Submit` | internal/app/reconcile.go:329-357 | the critical section of a submission |
| `Reconciler.AuthoritativeReconciler.LaunchLocked` | internal/app/reconcile.go:412-417 | launching a worker |
| `Reconciler.AuthoritativeReconciler.Close` | internal/app/reconcile.go:392-410 | the critical section of Close |
| `Reconciler.AuthoritativeReconciler.SetPhaseCommitting` | internal/app/reconcile.go:656-664 | entering the commit phase, refused once closed |
| `Reconciler.AuthoritativeReconciler.EndContext` | internal/app/reconcile.go:412-417 | the context of a submitter ends, which reaches the worker and a follow-up launched under it |
| `Reconciler.AuthoritativeReconciler.Emit` | internal/app/reconcile.go:686-691 | sending one event, or giving up once the worker is cancelled or its submitter's context is done |
| `Reconciler.AuthoritativeReconciler.Finish` | internal/app/reconcile.go:693-716 | a worker's last act: the follow-up, or rest |
| `Reconciler.ASubmissionStopsTheWorkerIff` | internal/app/reconcile.go:346-357 | an accepted submission that finds a worker makes its context done exactly if that was so or the worker had not begun to commit, and waits behind it |
| `Reconciler.ASubmissionAtRestIsLaunched` | internal/app/reconcile.go:346-357 | one that finds none is launched at once, as asked for |
| `Reconciler.ASubmissionIsAcceptedIff` | internal/app/reconcile.go:329-345 | exactly an open owner accepts, if an identifier is brought or could be made; a refused submission leaves no trace |
| `Reconciler.ClosingStopsTheWorker` | internal/app/reconcile.go:392-410 | closing makes the context of any live worker done |
| `Reconciler.DoneStaysDone` | internal/app/reconcile.go:346-354 | a context that is done stays done over every run until its worker is gone |
| `Reconciler.AWorkerCommitsIff` | internal/app/reconcile.go:656-664 | a worker of an open owner begins to commit when it asks to, that of a closed one never |
| `Reconciler.AFinishedWorkerIsFollowedIff` | internal/app/reconcile.go:693-716 | the request that waits is started as a follow-up exactly when it has or can be given an identifier, and lost otherwise |
| `Reconciler.WorkersServeWhatWasAsked` | internal/app/reconcile.go:412-417 | over every run a worker works on an accepted request as it was asked for, in its own submitter's context |
| `Reconciler.EventsArriveInOrder` | internal/app/reconcile.go:686-691 | over every run events are received in the order they were sent, none lost |
| `Reconciler.AnEventIsSentIff` | internal/app/reconcile.go:686-691 | with room in the channel an event is sent unless a done worker gives up, which it never does with its cancelled event |
| `RefreshScheduler.FiresExactlyWhenDue` | internal/app/change_hints.go:412-454 | a request is emitted exactly when the next due instant is set and reached |
| `RefreshScheduler.EmissionCarriesWhatWasMerged` | internal/app/change_hints.go:377-471 | from one emission to the next a request carries exactly the reasons merged in between, and maximum age when due, in the fixed order, and lost truth exactly when one of them lost it |
| `RefreshScheduler.EmissionsAndCompletionsAlternate` | internal/app/change_hints.go:455-492 | emissions and completions take turns, each completion naming the emission before it, each emission one number higher |
| `RefreshScheduler.NoHintStreamDelaysForEver` | internal/app/change_hints.go:417-422 | however many hints arrive, an idle scheduler emits once the maximum delay after the first of them has passed |
| `RefreshScheduler.ReasonsAreThePendingOnes` | internal/app/change_hints.go:473-481 | the listed reasons are those pending, once each, in the fixed order |
| `RefreshScheduler.RefreshScheduler.SetWatchedSet` | internal/app/change_hints.go:340-359 | a changed set counts as lost truth |
| `RefreshScheduler.RefreshScheduler.SetFocused` | internal/app/change_hints.go:362-375 | focus switches the maximum-age timer |
| `RefreshScheduler.RefreshScheduler.SubmitHint` | internal/app/change_hints.go:378-395 | a hint of another set counts as a changed set |
| `RefreshScheduler.RefreshScheduler.Add` | internal/app/change_hints.go:397-408 | merging one reason |
| `RefreshScheduler.RefreshScheduler.NextDueAt` | internal/app/change_hints.go:412-431 | the next due instant: quiet, maximum delay or age, whichever comes first |
| `RefreshScheduler.RefreshScheduler.Due` | internal/app/change_hints.go:435-471 | emission and the reset behind it |
| `RefreshScheduler.RefreshScheduler.ReasonsFromBits` | internal/app/change_hints.go:473-481 | the loop over the fixed order |
| `RefreshScheduler.RefreshScheduler.Complete` | internal/app/change_hints.go:485-492 | completion by ticket |
| `RefreshScheduler.RequestsAreOnTime` | internal/app/change_hints.go:397-471 | over every run, in the times of the actions alone: a request is emitted exactly when none is out and the quiet delay has passed since the latest merging action, the maximum delay since the first, or the maximum age since the last emission of a focused local session |
| `RefreshScheduler.ASecondHintPostponesTheRequest` | internal/app/change_hints.go:405-420 | the witness: of two hints the second starts the quiet delay anew |
| `RefreshCoordinator.NoInputIsForgotten` | internal/app/change_hints.go:596-648 | over every interleaving an admitted input waits in the slots with a wake token or a drain about to run, is in the loop's hands, or was merged after its admission, as itself or as a changed set with truth lost |
| `RefreshCoordinator.BatchStandsAsItselfIff` | internal/app/change_hints.go:777-783 | a drained batch is merged as itself exactly when it brings a set, has no hint, or its hint is of the current set |
| `RefreshCoordinator.MergesAt` | internal/app/change_hints.go:784-790 | what becomes of every reason of a batch |
| `RefreshCoordinator.MergeOfIsWhatIsMerged` | internal/app/change_hints.go:378-408 | a merge record is what the scheduler merges |
| `RefreshCoordinator.StepKeepsAwake` | internal/app/change_hints.go:818-858 | filled slots always have a token or a drain, and the loop rests only with its timer armed for the next due instant |
| `RefreshCoordinator.RefreshCoordinator.Enqueue` | internal/app/change_hints.go:596-615 | the critical section of a lifecycle trigger |
| `RefreshCoordinator.RefreshCoordinator.SubmitHint` | internal/app/change_hints.go:618-648 | the critical section of a hint |
| `RefreshCoordinator.RefreshCoordinator.SetFocused` | internal/app/change_hints.go:678-695 | the critical section of a focus change |
| `RefreshCoordinator.RefreshCoordinator.FinishReplace` | internal/app/change_hints.go:716-730 | the second critical section of a replacement |
| `RefreshCoordinator.RefreshCoordinator.DrainInput` | internal/app/change_hints.go:761-791 | emptying the slots and merging what they held |
| `RefreshCoordinator.RefreshCoordinator.SubmitReasons` | internal/app/change_hints.go:784-790 | the loop over the drained reasons |
| `RefreshCoordinator.RefreshCoordinator.SubmitCompletion` | internal/app/change_hints.go:734-759 | one completion waits at a time |
| `RefreshCoordinator.RefreshCoordinator.TakeWatcherHint` | internal/app/change_hints.go:846-847 | the loop merges a watcher hint |
| `RefreshCoordinator.RefreshCoordinator.TakeWatcherClosed` | internal/app/change_hints.go:838-845 | the end of the watcher's hints loses truth |
| `RefreshCoordinator.RefreshCoordinator.TakeCompletion` | internal/app/change_hints.go:851-853 | the loop completes the active request |
| `RefreshCoordinator.RefreshCoordinator.EmitDue` | internal/app/change_hints.go:798-816 | emitting what is due and arming the timer |
| `RefreshDelivery.TheSchedulerIsDriven` | internal/app/change_hints.go:761-858 | over every interleaving the scheduler stands where its own run over the drained batches, watcher hints, completions and due instants leaves it, in the order the loop took them |
| `RefreshDelivery.TheLoopIsOnTime` | internal/app/change_hints.go:798-816 | so the loop emits exactly when a request is due by the times of what it took |
| `RefreshDelivery.ATickLooks` | internal/app/change_hints.go:848-858 | the timer's tick makes a resting loop look, and take in hand what is due |
| `RefreshDelivery.ABatchHoldsItsInputs` | internal/app/change_hints.go:596-730 | over every interleaving a drained batch holds exactly the inputs accepted since the drain before: their reasons, lost truth, last focus and set, the hint it keeps, and a changed set exactly if two hints disagree |
| `RefreshDelivery.FocusAndSetReachTheScheduler` | internal/app/change_hints.go:678-783 | once drained and merged, the last focus and the last set are the scheduler's |
| `RefreshDelivery.ACompletionWaitsAndEnds` | internal/app/change_hints.go:734-759 | a completion waits until the loop takes it and then ends the request it names |
| `RefreshDelivery.RequestsAreHandedOver` | internal/app/change_hints.go:798-806 | until the loop stops every request that became due is received or on its way, in order and once |
| `ProviderConversations.StepKeepsFenced` | internal/app/provider_conversations.go:399-446 | a call writes only under the current fence, and then what it read is still so; one journalled turn at most is active |
| `ProviderConversations.AtMostOneRemoteConversation` | internal/app/provider_conversations.go:350-456 | over every interleaving with crashes at most one remote conversation is started for a thread, only once its row is journalled |
| `ProviderConversations.AtMostOneActiveTurn` | internal/app/provider_conversations.go:527-719 | at most one journalled turn of a thread is active |
| `ProviderConversations.EachTurnIsStartedOnce` | internal/app/provider_conversations.go:573-590 | every remote turn start is of a journalled turn, and none is repeated |
| `ProviderConversations.ProviderConversationService.WithSessionTx` | internal/store/sqlite/queries.go:438-472 | the fence: compare the revision, write, bump |
| `ProviderConversations.ProviderConversationService.EnsureConversation` | internal/app/provider_conversations.go:350-456 | one call leaves the store as the machine does, and is ready only with the row attached |
| `ProviderConversations.ProviderConversationService.StartTurn` | internal/app/provider_conversations.go:527-627 | one call journals, starts and journals again as the machine does |
| `ProviderConversations.ProviderConversationService.SteerTurn` | internal/app/provider_conversations.go:630-662 | steering journalled around the remote call |
| `ProviderConversations.ProviderConversationService.InterruptTurn` | internal/app/provider_conversations.go:666-691 | a cancellation; an uncertain one leaves the turn unknown |
| `ProviderConversations.ProviderConversationService.CompleteTurn` | internal/app/provider_conversations.go:696-719 | closing an active turn |
| `ProviderConversations.ProviderConversationService.Restore` | internal/app/provider_conversations.go:723-749 | after a restart every active turn is interrupted in one transaction, and none is active |
| `ProviderConversations.ProviderConversationService.HasActiveTurn` | internal/app/provider_conversations.go:879-900 | the scan for an active turn |
| `ProviderConversations.ProviderConversationService.SaveTurn` | internal/app/provider_conversations.go:902-915 | saving one turn under the fence |
| `ProviderConversations.ProviderConversationService.ObtainConversation` | internal/app/provider_conversations.go:399-446 | the part of the call behind the journalled row: remote start, attachment or orphan |
| `ProviderOutcomes.AttachedMeansObtained` | internal/app/provider_conversations.go:399-446 | over every interleaving a conversation is journalled as attached, and the thread with it, exactly if its attachment was committed, only after the one remote start was answered well; after a bad answer never; and no turn is started before |
| `ProviderOutcomes.TurnsSayWhatHappened` | internal/app/provider_conversations.go:573-719 | over every interleaving a turn that is started, steering, unknown, completed or failed was started well; one whose start failed refers to nothing and is prepared, an orphan or interrupted |
| `ProviderOutcomes.CallsJournalTheirAnswers` | internal/app/provider_conversations.go:573-691 | a call whose remote effect failed or is uncertain writes nothing but an unknown turn or an orphan; one that was answered well writes just what was asked for |
| `ProviderOutcomes.AnEnsureCallJournals` | internal/app/provider_conversations.go:350-456 | the row, the attachment and the claim a call leaves, by every combination of answers |
| `ProviderOutcomes.AStartCallJournals` | internal/app/provider_conversations.go:527-627 | the turn a call leaves, by every combination of answers; nothing is asked without an attached conversation or with an active turn |
| `ProviderOutcomes.ASteerCallJournals` | internal/app/provider_conversations.go:630-662 | the turn that steering leaves |
| `ProviderOutcomes.AnInterruptCallJournals` | internal/app/provider_conversations.go:666-691 | the turn that a cancellation leaves |
| `ProviderOutcomes.ACompleteCallJournals` | internal/app/provider_conversations.go:696-719 | the turn that closing leaves |
| `ProviderOutcomes.ATurnThatIsNotReadyIsLeftAlone` | internal/app/provider_conversations.go:630-719 | a turn that is not active, or refers to nothing, is neither steered, cancelled nor closed |
| `ProviderOutcomes.ARestoreCallJournals` | internal/app/provider_conversations.go:723-749 | after a restart exactly the active turns are interrupted |
| `TreeSearch.GreedyIsEarliest` | internal/app/query_tree_search.go:324-337 | scanning greedily finds an embedding if there is one, and no position of any other is earlier |
| `TreeSearch.FromIsTightest` | internal/app/query_tree_search.go:320-346 | from a given start no embedding is tighter than the greedy one |
| `TreeSearch.EndFrom` | internal/app/query_tree_search.go:324-337 | the scan for the end of the earliest embedding from a start |
| `TreeSearch.PositionsFrom` | internal/app/query_tree_search.go:352-361 | the second scan recovers its positions |
| `TreeSearch.RunsOf` | internal/app/query_tree_search.go:362-372 | the ranges are nonempty, in order, never adjacent, and cover exactly the positions |
| `TreeSearch.SubsequenceFold` | internal/app/query_tree_search.go:317-374 | succeeds exactly when the folded needle is a subsequence; the ranges are the runs of an embedding of least gap, leftmost among those |
| `TreeSearch.ExactPath` | internal/app/query_tree_search.go:274-284 | the exact match |
| `TreeSearch.ContiguousFold` | internal/app/query_tree_search.go:286-303 | finds the first place of the needle, if any |
| `TreeSearch.PrefixFold` | internal/app/query_tree_search.go:305-315 | the prefix match |
| `TreeSearch.ComponentPrefix` | internal/app/query_tree_search.go:246-260 | tries every path component and finds one that the needle begins, if any |
| `TreeSearch.MatchTreeEntry` | internal/app/query_tree_search.go:227-268 | matches exactly when some embedding exists, with the smallest class that applies, a positive gap exactly in the last class, and ranges that spell the needle |
| `TreeSearch.ClassesEmbed` | internal/app/query_tree_search.go:233-266 | every class is a way of being a subsequence |
| `TreeSearch.BeforeIsStrictOrder` | internal/app/query_tree_search.go:192-203 | the comparison is a strict order that tells different paths apart |
| `TreeSearch.ValidatePage` | internal/app/query_tree_search.go:145-170 | snapshot, completeness, size, scan ceiling and cursor of a page, its entries, ranges and order |
| `TreeSearch.ValidateSearchTreeResult` | internal/app/query_tree_search.go:110-119 | a page of another snapshot is stale, whatever it holds |
| `TreeSearch.OnlyRangesSpoilAPage` | internal/app/query_tree_search.go:145-170 | a complete page within its bounds that holds all matches, sorted, is refused for nothing but the number of ranges of one of them |
| `TreeSearch.SortedMatchesMakeAPage` | internal/app/query_tree_search.go:145-170 | sorted matches of distinct paths form a page exactly when no match has more ranges than a page allows; a query of at most that many bytes never has |
| `TreeSearch.SortedMatchesAreInPageOrder` | internal/app/query_tree_search.go:396-398 | sorting gives the strict order a page demands |
| `TreeSearch.ALongQuerySpoilsThePage` | internal/app/query_tree_search.go:155 | a longer query can: a match with a range for every byte makes the page invalid |
| `TreeSearch.LettersAreASubsequence` | internal/app/query_tree_search.go:264-266 | and that match exists |
| `TreeSearch.TheWholePathMatchesIff` | internal/app/query_tree_search.go:274-284 | the best class is for the needle itself, up to the case of ASCII letters |
| `TreeSearch.CaseNeverDecides` | internal/app/query_tree_search.go:227-268 | no class depends on the case of the path's letters |
| `TreeSearch.APageListsTheClosestFirst` | internal/app/query_tree_search.go:145-203 | in a page a smaller class comes first, then a smaller gap, a shorter path, smaller bytes |
| `EventStream.DeliveryIsAPrefix` | internal/app/client.go:425-512 | over every interleaving the non-coalescible events received are a prefix of those offered; while open, received, buffered, in flight and queued ones are all of them in order |
| `EventStream.KeysArriveInOrder` | internal/app/client.go:441-450 | a consumer never sees two events of one key out of order, although coalescing replaces events in place |
| `EventStream.QueuedEventsAreNoticed` | internal/app/client.go:478-512 | queue and channel stay within capacity; an open worker waits on a nonempty queue only with a wake token present or owed, and a closed one has its stop signal present or owed |
| `EventStream.LastWithKey` | internal/app/client.go:442-450 | which queued event is replaced |
| `EventStream.EventSubscription.Enqueue` | internal/app/client.go:425-459 | the producer's critical section |
| `EventStream.EventSubscription.Take` | internal/app/client.go:488-505 | the worker's critical section |
| `EventStream.SnapshotsAreLatestWins` | internal/app/client.go:351-393 | over every interleaving the consumer sees strictly rising revisions, a publisher that drained finds room, and the newest snapshot is there to be seen |
| `EventStream.SnapshotSubscription.Offer` | internal/app/client.go:367-384 | offering a snapshot leaves it in the slot |
| `EventStream.TheNewestOfAKeyIsKept` | internal/app/client.go:425-459 | over every interleaving the last queued event of a key is the newest offered, and the newest of a key is queued, on its way or delivered unless it found the queue full and without that key |
| `EventStream.AnOfferIsQueuedIff` | internal/app/client.go:425-459 | an open subscription queues an event exactly if there is room or a queued event of its key, and signals each it queues |
| `EventStream.OnlySolidEventsOverflow` | internal/app/client.go:452-459 | an open subscription is closed only by its closing or by an event that may not be coalesced and finds the queue full |
| `EventStream.TheNewestOfferedIsSeen` | internal/app/client.go:367-384 | over every interleaving the last snapshot the consumer has taken or will take is the newest offered, as soon as no publisher is at work |
| `Cleanup.SearchFindsMembers` | internal/app/cleanup.go:634-638 | binary search in the rising list finds exactly its members |
| `Cleanup.RecordKeepsRising` | internal/app/cleanup.go:582-583 | recording a resource keeps the list strictly rising and adds just it |
| `Cleanup.StepKeepsLedger` | internal/app/cleanup.go:496-617 | every step of every attempt, stale copies included, keeps the ledger of what is removed, recorded, listed and done |
| `Cleanup.TheJournalNeverLies` | internal/app/cleanup.go:496-617 | over every run only removed, planned resources are recorded, the list is strictly rising, rows go only when every planned resource is recorded, and what is complete lists them all and has lost its rows |
| `CleanupRuns.NothingIsRemovedAgain` | internal/app/cleanup.go:571-588 | over every run in which no attempt takes the gate with a copy that lacks a recorded resource, none is removed again and the journal lists all that was recorded |
| `CleanupRuns.AnAttemptRepeatsIffItMisses` | internal/app/cleanup.go:507-588 | an attempt that takes the gate and is left alone removes a recorded resource again exactly when its copy lacks one and the rows are still there |
| `CleanupRuns.AloneRepeatsNothing` | internal/app/cleanup.go:507-588 | and one that lacks none repeats no removal, however it is answered |
| `CleanupRuns.AStepLeavesCompleteIff` | internal/app/cleanup.go:589-628 | one step leaves a complete cleanup exactly when it is a save, not refused, of a holder of the gate with another phase to write |
| `CleanupRuns.CompleteAbsorbs` | internal/app/cleanup.go:512-514 | a complete cleanup is never touched again unless an attempt takes the gate after its completion |
| `CleanupRuns.OnlyDatabaseCopiesReopen` | internal/app/cleanup.go:538-547 | which only an attempt with a copy of a database phase can do |
| `CleanupRuns.CompleteCanBeLeftIff` | internal/app/cleanup.go:538-601 | with the gate free some run leaves a complete cleanup exactly when an attempt still waits with such a copy |
| `CleanupRuns.ACompleteCleanupIsReopened` | internal/app/cleanup.go:507-601 | every plan that is not blocked has a run that completes its cleanup and goes on to undo that |
| `CleanupRuns.AStaleAttemptRemovesAgain` | internal/app/cleanup.go:507-588 | every plan with resources has a run in which a stale attempt removes a recorded one again |
| `CleanupRuns.CompletionIsInReachIff` | internal/app/cleanup.go:496-617 | with the gate free some run completes the cleanup exactly when the plan is not blocked and the cleanup is not stuck |
| `CleanupRuns.AnAttemptCompletes` | internal/app/cleanup.go:548-616 | an attempt whose copy still passes the inventory check, left alone, completes it |
| `CleanupRuns.StuckForEver` | internal/app/cleanup.go:538-547 | a stuck cleanup stays stuck over every run |
| `CleanupRuns.AFailedDeletionSticksIff` | internal/app/cleanup.go:595-597 | a failing deletion and the save behind it leave the cleanup stuck exactly when the rows are gone all the same and the journal then holds no phase that excuses it |
| `CleanupRuns.AnUnacknowledgedDeletionSticks` | internal/app/cleanup.go:595-597 | a run from the beginning that sticks: the deletion commits and reports an error |
| `CleanupRuns.ARefusedDeletionSticks` | internal/app/cleanup.go:595-597 | and another: a crash behind the deletion, and a refused one in the next attempt |
| `CleanupAttempt.CleanupPlanMatches` | internal/app/cleanup.go:644-670 | plan and inventory match exactly when nothing has changed or, once removals are recorded, nothing but the absence of what is recorded |
| `CleanupAttempt.PlannedResources` | internal/app/cleanup.go:651-654 | the map holds the last resource of each identifier |
| `CleanupAttempt.CleanupService.Check` | internal/app/cleanup.go:518-527 | one look at the inventory: the comparison, or a database phase once it is gone |
| `CleanupAttempt.CleanupService.Begin` | internal/app/cleanup.go:500-562 | loading or beginning the operation, the blockers, and the look at the inventory before and inside the gate |
| `CleanupAttempt.CleanupService.RemoveResources` | internal/app/cleanup.go:571-588 | the loop over the resources |
| `CleanupAttempt.CleanupService.RemoveOne` | internal/app/cleanup.go:572-587 | one resource: skip, remove and record, or ask for another cleanup |
| `CleanupAttempt.CleanupService.DeleteRows` | internal/app/cleanup.go:595-616 | the rows and the phases behind them |
| `CleanupAttempt.CleanupService.Required` | internal/app/cleanup.go:619-628 | journalling that another cleanup is needed |
| `CleanupAttempt.CleanupService.Execute` | internal/app/cleanup.go:496-617 | one attempt, alone, leaves the world as the machine's steps do, and reports success exactly when the cleanup was complete before, or is now and the last save was acknowledged |
| `CleanupOutcomes.AnAttemptGetsInIff` | internal/app/cleanup.go:500-562 | an attempt takes the gate exactly if the plan is not blocked, the journal not complete, and both looks are passed, by the inventory or, once the rows are gone, by the journalled phase; it counts itself and goes straight to the rows if the files are gone; otherwise nothing changes |
| `CleanupOutcomes.ASaveGoesOnIff` | internal/app/cleanup.go:563-628 | what is committed is the holder's own list under its number; the attempt goes on exactly if it hears so and is not at its end, and frees the gate otherwise |
| `CleanupOutcomes.ALateBeginningEnds` | internal/app/cleanup.go:555-562 | an attempt that found no operation writes nothing once another has begun one |
| `CleanupOutcomes.AFailedRemovalIsJournalled` | internal/app/cleanup.go:576-580 | a failed removal records nothing, journals that another cleanup is needed and ends the attempt |
| `CleanupOutcomes.AFailedDeletionIsJournalled` | internal/app/cleanup.go:595-597 | and so does a failed deletion of the rows, which are gone all the same if only its acknowledgement was lost |
| `CleanupOutcomes.AResourceIsRemovedIff` | internal/app/cleanup.go:571-588 | a resource is removed exactly when it is reached, is not on the list and its removal succeeds, and is then on the list |
| `CleanupOutcomes.OneAttemptWritesUnderOneNumber` | internal/app/cleanup.go:548-616 | over every run, as long as an attempt holds the gate only it writes, under the number it took on its way in |
| `Reducer.RunsAreBalanced` | internal/app/reducer.go:309-566 | over every run one operation at most is active in each family, each has one start event and one terminal event exactly if it is no longer active, and none is active after shutdown |
| `Reducer.StepCommitsOneOrNothing` | internal/app/reducer.go:550-566 | an input changes nothing, or commits exactly one revision that all its events carry |
| `Reducer.EndedForEver` | internal/app/reducer.go:542-548 | a terminal status is never left |
| `Reducer.LateResultsChangeNothing` | internal/app/reducer.go:513-540 | once an operation has ended no result of it is ever accepted again |
| `Reducer.TargetNeverFalls` | internal/app/reducer.go:533-538 | between repository loads the generation of the target never falls |
| `Reducer.ATargetOfTheRepositoryBefore` | internal/app/reducer.go:309-361 | a target asked of the repository before is installed under the one now open: opening does not end target operations, and the test of a result does not compare repositories |
| `Reducer.InstalledTargetIsOfTheOpenRepositoryIff` | internal/app/reducer.go:309-361 | whatever went before and comes in between, an installed target is of the open repository exactly when no repository load was accepted between the start of its operation and its result |
| `Reducer.ALateTargetIsInstalled` | internal/app/reducer.go:309-361 | the witness, from the empty state: one repository is opened, a target asked, another opened, and the late target installed |
| `Reducer.SupersedingLeavesOne` | internal/app/reducer.go:401-430 | superseding ends exactly the active rivals of the family |
| `Reducer.ShutdownKeepsBalanced` | internal/app/reducer.go:487-511 | shutdown ends every active operation with one event each |
| `Reducer.Reducer.StartOperation` | internal/app/reducer.go:391-464 | starting and superseding |
| `Reducer.Reducer.CancelInOrder` | internal/app/reducer.go:409-422 | cancelling a set of operations in the order of their identifiers |
| `Reducer.Reducer.SelectFile` | internal/app/reducer.go:128-157 | an operation started and finished in one revision |
| `Reducer.Reducer.CancelOperation` | internal/app/reducer.go:466-485 | cancelling |
| `Reducer.Reducer.CloseApplication` | internal/app/reducer.go:487-511 | shutdown |
| `Reducer.Reducer.AcceptResult` | internal/app/reducer.go:513-540 | the conditions a result must meet |
| `Reducer.Reducer.HandleResult` | internal/app/reducer.go:309-389 | the four results |
| `Reducer.AnOperationEndsIff` | internal/app/reducer.go:309-511 | over every run an active operation is ended exactly by a rival's start, its cancellation if it may be cancelled, shutdown, or a result of its own correlation, with the status that fits |
| `Reducer.AResultCountsIff` | internal/app/reducer.go:513-540 | a result changes the state exactly if it answers an active operation; one of another correlation changes nothing |
| `Reducer.AStartedOperationIsAsAskedFor` | internal/app/reducer.go:432-464 | kind, correlation, generation and cancellability of a started operation |
| `Reducer.AnOperationIsStartedIff` | internal/app/reducer.go:391-464 | an operation is started exactly if it is new, safe and what it works on is there |
| `Reducer.StartsAndShutdownsReport` | internal/app/reducer.go:401-511 | what a start or a shutdown reports: the ends of exactly the active rivals, or of all, in rising order, and then itself, in one revision |
| `Reducer.AFileIsChosenIff` | internal/app/reducer.go:128-157 | when a file is chosen, and the three events and the finished operation it leaves |
| `Reducer.ResultsReport` | internal/app/reducer.go:309-389 | what an accepted result installs and reports, and in which order |
| `Reducer.ClosedForEver` | internal/app/reducer.go:487-511 | a closed reducer changes nothing more |
| `WorkspaceManifest.EncodeUint` | internal/app/proposal_workspace.go:369-375 | eight bytes, highest first, by shifting |
| `WorkspaceManifest.EntryRoundTrip` | internal/app/proposal_workspace.go:285-296 | a decoder reads an entry back from its encoding and touches nothing behind it |
| `WorkspaceManifest.PreimageRoundTrip` | internal/app/proposal_workspace.go:282-298 | and version and entries from the preimage |
| `WorkspaceManifest.PreimagesDiffer` | internal/app/proposal_workspace.go:282-298 | so different manifests have different preimages |
| `WorkspaceManifest.PermutationsMakeTheSameManifest` | internal/app/proposal_workspace.go:165-187 | any permutation of the entries makes the same manifest, hash included, or none |
| `WorkspaceManifest.PermutationsHaveTheSamePreimage` | internal/app/proposal_workspace.go:165-187 | and has the same preimage |
| `WorkspaceManifest.OneHashOneManifest` | internal/app/proposal_workspace.go:185 | two manifests with one hash are the same manifest, or the digest collides on their preimages |
| `WorkspaceManifest.NewWorkspaceManifest` | internal/app/proposal_workspace.go:165-187 | accepts exactly valid entries of distinct paths whose byte total fits, and returns them sorted with that total and the digest of their preimage |
| `WorkspaceManifest.NeighboursTellAll` | internal/app/proposal_workspace.go:180-184 | comparing sorted neighbours finds every duplicate path |
| `WorkspaceManifest.HashWriter.WriteManifest` | internal/app/proposal_workspace.go:282-298 | writing field by field yields the preimage |
| `WorkspaceManifest.HashWriter.WriteEntry` | internal/app/proposal_workspace.go:286-295 | one entry |
| `WorkspaceManifest.HashWriter.WriteTextSemantics` | internal/app/proposal_workspace.go:334-350 | the optional text part |
| `WorkspaceManifest.HashWriter.WriteSymlink` | internal/app/proposal_workspace.go:300-315 | the optional link part |
| `WorkspaceManifest.HashWriter.WriteNativePath` | internal/app/proposal_workspace.go:317-332 | the optional native-path part |
| `WorkspaceManifest.HashWriter.WriteBytes` | internal/app/proposal_workspace.go:360-367 | bytes behind their length |
| `WorkspaceManifest.HashWriter.WriteBool` | internal/app/proposal_workspace.go:352-358 | a flag as a number |
| `WorkspaceManifest.EntriesAreInByteOrder` | internal/app/proposal_workspace.go:165-187 | a manifest holds exactly the given entries, by the bytes of their paths |
| `Ordering.CompareBytesIsByteOrder` | internal/app/query_tree_search.go:192-203 | the comparison is the order of bytes, a prefix coming first |
| `PatchReader.EndOfFileIsTheEnd` | internal/app/apply_preflight.go:517-551 | over any sequence of buffer sizes and answers the end of the file is reported only after bytes of exactly the declared length and digest |
| `PatchReader.HonestRunsStreamThePatch` | internal/app/apply_preflight.go:517-551 | over an honest store the consumer receives the patch byte for byte from its beginning |
| `PatchReader.RequestsFollowOneAnother` | internal/app/apply_preflight.go:517-551 | over every run each request begins at the sum of the lengths accepted before it, and what was accepted is what was handed out and is buffered |
| `PatchReader.ReadReportsTruly` | internal/app/apply_preflight.go:517-551 | one read hands out what it reports, and records what it asked and accepted |
| `PatchReader.ProposalPatchRangeReader.Read` | internal/app/apply_preflight.go:517-551 | the read fills the front of the output and leaves the rest alone |
| `PatchReader.ReportsIff` | internal/app/apply_preflight.go:517-551 | over every run, exactly when a read reports the end, staleness, an unavailable store or bytes, which ranges it accepts, and how many bytes |
| `PatchReader.AServedPatchIsReadToItsEnd` | internal/app/apply_preflight.go:517-551 | a store that serves the patch is read to its end, which is then reported |

## Left out

- Store, Git, provider, watcher and filesystem: answers given by the environment, as described above.
- SHA-256, JSON identities, text normalisation and fingerprints: uninterpreted; the proofs speak of preimages, not of collisions.
- Field validators, clone helpers, enum checks and capability tables: single branches; where a protocol depends on one it is a parameter.
- Reconciler.OneWorkerAndOneClosing: a worker blocked on a full event channel is a worker that has not moved; that a consumer eventually drains it is not modelled.
- RefreshScheduler.EmissionsAndCompletionsAlternate: the sequence is a natural number, so the wrap-around of its 64 bits is not modelled; reasons are a set and not the bits of a word.
- RefreshCoordinator.NoInputIsForgotten: starting and closing are single steps; the adapter that forwards watcher hints is not part of this model.
- ProviderConversations.AtMostOneActiveTurn: durable mode only; in no-persist mode steering writes its copy back without a fence. The start lock is not modelled, since it only removes interleavings, and resuming a conversation, which starts none, is left out.
- Cleanup.TheJournalNeverLies: over runs the outcome of an inventory look is an answer of the environment, because what the inventory lists after a removal depends on its store; one attempt computes it from the inventory it is given. Digests of plan and inventory are values.
- ApplyExecution.NoRunAppliesAPatchTwice: identity checks against the request are one answer together with loading the proposal.
- AnchorStaging.CompletionStagesEveryAnchorOnce: the weights of an anchor are a function of its thread.
- ProposalDerivation.ArtifactCoversDelta: entries of the delta are unique by path and complete; the similarity evidence of a section is one flag, and of its validation only what concerns its paths and kinds is modelled.
- AnchorReconciliation.ReconcileAnchor: which validators reject a staged outcome is a parameter.
- TreeSearch.SubsequenceFold: paths shorter than four gibibytes, so that 32-bit offsets are exact.
- Thread commands of the reducer and the window counters they update, the client's mailbox, and reading large content by lines.
- Preflight, the other steps of proposal derivation, repair, export and logging.
