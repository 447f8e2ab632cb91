/** Applying a proposal to its destination: one journalled operation, one
    mutating call, independent verification, and recovery after a crash at any
    point. Each action below is what happens between two effects. */
module ApplyExecution {
  import opened Wrappers

  // ---------------------------------------------------------------------
  // The journalled operation
  // ---------------------------------------------------------------------

  datatype Phase = Prepared | Mutating | Verifying | RetrySafe | Applied | FailedClean | RepairRequired

  datatype Failure = NoFailure | MutationClean | VerificationUnavailable | MixedState | GlobalChanged | RetryIsSafe

  /** What the verifier says the destination looks like. */
  datatype Observation = SawBaseline | SawResult | SawMixed | SawUncertain

  /** One validated observation. `sameContext` stands for every identity, index,
      reference, conversion and capability comparison together. */
  datatype Evidence = Evidence(
    observation: Observation, sameContext: bool, resultPathsMatch: bool, baselinePathsMatch: bool, sameFingerprint: bool)

  datatype Operation = Operation(
    phase: Phase, failure: Failure, verification: Option<Evidence>, preparedAt: nat, completedAt: Option<nat>)

  predicate Terminal(phase: Phase) {
    phase == Applied || phase == FailedClean || phase == RepairRequired
  }

  /** What a valid operation owes between its phase and its evidence. */
  predicate Coupled(op: Operation) {
    && (op.completedAt.Some? ==> op.completedAt.value != 0 && op.preparedAt <= op.completedAt.value)
    && if Terminal(op.phase) then
         op.completedAt.Some? && op.verification.Some? && (op.failure == NoFailure ==> op.phase == Applied)
       else if op.phase == RetrySafe then
         op.completedAt.None? && op.verification.Some? && op.failure == RetryIsSafe
       else
         op.completedAt.None? && op.verification.None? && op.failure == NoFailure
  }

  /** The phase changes the store lets through. */
  predicate LegalTransition(from: Phase, to: Phase) {
    match from
    case Prepared => to == Mutating
    case Mutating => to == Verifying || to == RetrySafe || Terminal(to)
    case Verifying => to == RetrySafe || Terminal(to)
    case RetrySafe => to == Mutating
    case _ => false
  }

  // ---------------------------------------------------------------------
  // Classification
  // ---------------------------------------------------------------------

  datatype Classification = IsApplied | IsFailedClean | IsRetrySafe | NeedsRepair

  datatype Verdict = Verdict(evidence: Evidence, classification: Classification, failure: Failure)

  /** The verifier may have no valid evidence, or report an error beside it. */
  datatype VerifierAnswer = NoEvidence | EvidenceWithError(evidence: Evidence) | Observed(evidence: Evidence)

  function ClassifyApplyVerification(e: Evidence): (Classification, Failure) {
    if !e.sameContext then (NeedsRepair, GlobalChanged)
    else if e.observation == SawResult && e.resultPathsMatch then (IsApplied, NoFailure)
    else if e.observation == SawBaseline && e.baselinePathsMatch && e.sameFingerprint then (IsRetrySafe, RetryIsSafe)
    else (NeedsRepair, MixedState)
  }

  function VerifyAndClassify(answer: VerifierAnswer): Option<Verdict> {
    match answer
    case NoEvidence => None
    case EvidenceWithError(e) => Some(Verdict(e, NeedsRepair, VerificationUnavailable))
    case Observed(e) =>
      var (classification, failure) := ClassifyApplyVerification(e);
      Some(Verdict(e, classification, if classification == NeedsRepair && failure == NoFailure then MixedState else failure))
  }

  /** The terminal operation a classification is persisted as; there is none for
      a retry. */
  function PersistClassification(op: Operation, v: Verdict, now: nat): Option<Operation> {
    if now == 0 then None
    else
      var done := op.(verification := Some(v.evidence), failure := v.failure, completedAt := Some(now));
      match v.classification
      case IsApplied => Some(done.(phase := Applied))
      case IsFailedClean => Some(done.(phase := FailedClean))
      case NeedsRepair => Some(done.(phase := RepairRequired))
      case IsRetrySafe => None
  }

  /** A restart finds a nonterminal phase: verification alone decides. */
  function RecoverNonterminal(op: Operation, answer: VerifierAnswer, now: nat): Option<Operation> {
    match VerifyAndClassify(answer)
    case None => None
    case Some(v) =>
      if v.classification == IsRetrySafe then
        Some(op.(phase := RetrySafe, failure := RetryIsSafe, verification := Some(v.evidence)))
      else PersistClassification(op, v, now)
  }

  /** The mutating call reported an error. */
  function ClassifyAfterMutation(op: Operation, answer: VerifierAnswer, now: nat): Option<Operation> {
    match VerifyAndClassify(answer)
    case None => None
    case Some(v) =>
      if v.classification == IsApplied then
        PersistClassification(op, v.(failure := NoFailure), now)
      else if v.classification == IsFailedClean || v.classification == IsRetrySafe then
        PersistClassification(op, v.(classification := IsFailedClean, failure := MutationClean), now)
      else
        PersistClassification(op, v.(failure := if v.failure == NoFailure then MixedState else v.failure), now)
  }

  /** The mutating call reported success. */
  function VerifyAndTerminalize(op: Operation, answer: VerifierAnswer, now: nat): Option<Operation> {
    match VerifyAndClassify(answer)
    case None => None
    case Some(v) =>
      if v.classification == IsRetrySafe then
        PersistClassification(op, v.(classification := IsFailedClean, failure := MutationClean), now)
      else PersistClassification(op, v, now)
  }

  datatype Why = Recovery | AfterFailure | AfterSuccess

  function Final(op: Operation, why: Why, answer: VerifierAnswer, now: nat): Option<Operation> {
    match why
    case Recovery => RecoverNonterminal(op, answer, now)
    case AfterFailure => ClassifyAfterMutation(op, answer, now)
    case AfterSuccess => VerifyAndTerminalize(op, answer, now)
  }

  // ---------------------------------------------------------------------
  // The machine
  // ---------------------------------------------------------------------

  datatype Destination = AtBaseline | AtResult | Elsewhere(id: nat)

  /** What the running execution does next. Its own copy of the operation is in
      `op`; a journal write carries it and then goes on to `next`. */
  datatype Next = DoMutate | DoVerify(why: Why) | Return
  datatype Pc = Load | Journal(next: Next) | Mutate | Verify(why: Why)

  datatype Execution = Execution(pc: Pc, op: Operation, guard: nat, authorizeRetry: bool)

  /** The destination lock admits one execution at a time. `handed` lists every
      operation given to the journal, `mutations` every mutating call with the
      destination before and after it. */
  datatype State = State(
    journal: Operation, revision: nat, destination: Destination, running: Option<Execution>,
    handed: seq<Operation>, mutations: seq<(Destination, Destination)>)

  /** A fenced write commits, is refused, or commits without the caller
      learning of it. */
  datatype TxAnswer = Committed | Refused | Unacknowledged

  datatype Action =
    | Begin(guard: nat, authorizeRetry: bool)
    | LoadOperation(proposalLoads: bool, patchOpens: bool)
    | WriteJournal(tx: TxAnswer)
    | CallMutate(fails: bool, after: Destination)
    | CallVerifier(answer: VerifierAnswer, now: nat)
    | OtherSessionWrite
    | Crash
    | CrashWhileMutating(after: Destination)

  ghost predicate TruthfulAnswer(answer: VerifierAnswer, destination: Destination) {
    answer.NoEvidence? ||
    ((answer.evidence.observation == SawBaseline ==> destination == AtBaseline) &&
     (answer.evidence.observation == SawResult ==> destination == AtResult))
  }

  /** The verifier tells the truth and the clock does not run backwards. */
  ghost predicate Truthful(s: State, a: Action) {
    match a
    case CallVerifier(answer, now) => s.journal.preparedAt <= now && TruthfulAnswer(answer, s.destination)
    case _ => true
  }

  function Stop(s: State): State { s.(running := None) }

  function Continue(s: State, e: Execution): State { s.(running := Some(e)) }

  function GoOn(next: Next): Option<Pc> {
    match next
    case DoMutate => Some(Mutate)
    case DoVerify(why) => Some(Verify(why))
    case Return => None
  }

  /** Load, then either return, recover, or journal the intent to mutate. */
  function LoadStep(s: State, e: Execution, proposalLoads: bool, patchOpens: bool): State {
    var op := s.journal;
    if !Coupled(op) || Terminal(op.phase) || !proposalLoads then Stop(s)
    else if op.phase == Mutating || op.phase == Verifying then Continue(s, e.(pc := Verify(Recovery), op := op))
    else if op.phase == RetrySafe && !e.authorizeRetry then Stop(s)
    else if !patchOpens then Stop(s)
    else
      var intent := op.(phase := Mutating, failure := NoFailure, verification := None, completedAt := None);
      Continue(s, e.(pc := Journal(DoMutate), op := intent))
  }

  function WriteStep(s: State, e: Execution, next: Next, tx: TxAnswer): State {
    var s := s.(handed := s.handed + [e.op]);
    if tx == Refused || e.guard != s.revision then Stop(s)
    else
      var s := s.(journal := e.op, revision := s.revision + 1);
      if tx == Unacknowledged || GoOn(next).None? then Stop(s)
      else Continue(s, e.(pc := GoOn(next).value, guard := e.guard + 1))
  }

  function MutateStep(s: State, e: Execution, fails: bool, after: Destination): State {
    var s := s.(destination := after, mutations := s.mutations + [(s.destination, after)]);
    if fails then Continue(s, e.(pc := Verify(AfterFailure)))
    else Continue(s, e.(pc := Journal(DoVerify(AfterSuccess)), op := e.op.(phase := Verifying)))
  }

  function VerifyStep(s: State, e: Execution, why: Why, answer: VerifierAnswer, now: nat): State {
    var final := Final(e.op, why, answer, now);
    if final.None? then Stop(s) else Continue(s, e.(pc := Journal(Return), op := final.value))
  }

  /** One action; one that does not apply changes nothing. */
  function Step(s: State, a: Action): State {
    match s.running
    case None =>
      (match a
       case Begin(guard, authorizeRetry) => Continue(s, Execution(Load, s.journal, guard, authorizeRetry))
       case OtherSessionWrite => s.(revision := s.revision + 1)
       case _ => s)
    case Some(e) =>
      (match (a, e.pc)
       case (LoadOperation(proposalLoads, patchOpens), Load) => LoadStep(s, e, proposalLoads, patchOpens)
       case (WriteJournal(tx), Journal(next)) => WriteStep(s, e, next, tx)
       case (CallMutate(fails, after), Mutate) => MutateStep(s, e, fails, after)
       case (CallVerifier(answer, now), Verify(why)) => VerifyStep(s, e, why, answer, now)
       case (OtherSessionWrite, _) => s.(revision := s.revision + 1)
       case (Crash, _) => Stop(s)
       case (CrashWhileMutating(after), Mutate) => Stop(MutateStep(s, e, true, after))
       case _ => s)
  }

  /** The states of a run in which every action is truthful. */
  ghost predicate IsRun(s: State, actions: seq<Action>)
    decreases |actions|
  {
    actions == [] || (Truthful(s, actions[0]) && IsRun(Step(s, actions[0]), actions[1..]))
  }

  function Run(s: State, actions: seq<Action>): State
    decreases |actions|
  {
    if actions == [] then s else Run(Step(s, actions[0]), actions[1..])
  }

  // ---------------------------------------------------------------------
  // Safety
  // ---------------------------------------------------------------------

  ghost predicate Initial(s: State) {
    && s.journal.phase == Prepared && Coupled(s.journal)
    && s.destination == AtBaseline && s.running.None? && s.handed == [] && s.mutations == []
  }

  /** What a journalled phase says of the destination. */
  ghost predicate PhaseIsTrue(phase: Phase, destination: Destination) {
    && (phase == Prepared || phase == RetrySafe || phase == FailedClean ==> destination == AtBaseline)
    && (phase == Applied ==> destination == AtResult)
  }

  /** An operation fit to replace the journalled one: coupled, a phase the store
      accepts next, and true of the destination. */
  ghost predicate Fit(before: Operation, op: Operation, destination: Destination) {
    && Coupled(op) && op.preparedAt == before.preparedAt
    && LegalTransition(before.phase, op.phase) && PhaseIsTrue(op.phase, destination)
  }

  /** What a running execution knows at each point. */
  ghost predicate ExecutionKnows(s: State, e: Execution) {
    match e.pc
    case Load => true
    case Journal(next) =>
      && Fit(s.journal, e.op, s.destination)
      && (next == DoMutate ==> e.op.phase == Mutating && s.destination == AtBaseline)
      && (next.DoVerify? ==> next.why == AfterSuccess && e.op.phase == Verifying)
      && (next == Return ==> e.op.phase != Mutating && e.op.phase != Verifying)
    case Mutate => e.op == s.journal && e.op.phase == Mutating && s.destination == AtBaseline
    case Verify(why) => e.op == s.journal && (e.op.phase == Mutating || e.op.phase == Verifying)
  }

  /** Every mutating call found the destination at baseline, each where the one
      before it left it. */
  ghost predicate MutationsAreSafe(mutations: seq<(Destination, Destination)>, destination: Destination) {
    && (forall i :: 0 <= i < |mutations| ==> mutations[i].0 == AtBaseline)
    && (forall i :: 0 <= i < |mutations| - 1 ==> mutations[i].1 == mutations[i + 1].0)
    && destination == if mutations == [] then AtBaseline else mutations[|mutations| - 1].1
  }

  ghost predicate Safe(s: State) {
    && Coupled(s.journal) && PhaseIsTrue(s.journal.phase, s.destination)
    && (forall i :: 0 <= i < |s.handed| ==> Coupled(s.handed[i]))
    && MutationsAreSafe(s.mutations, s.destination)
    && (s.running.Some? ==> ExecutionKnows(s, s.running.value))
  }

  // --- What each way of ending an operation hands to the journal ---

  lemma VerdictIsTrue(answer: VerifierAnswer, destination: Destination)
    requires TruthfulAnswer(answer, destination)
    ensures var v := VerifyAndClassify(answer);
            && (v.Some? && v.value.classification == IsApplied ==> destination == AtResult && v.value.failure == NoFailure)
            && (v.Some? && v.value.classification == IsRetrySafe ==> destination == AtBaseline)
            && (v.Some? && v.value.classification == NeedsRepair ==> v.value.failure != NoFailure)
            && (v.Some? ==> v.value.classification != IsFailedClean)
  {
  }

  lemma VerificationOutcomeIsFit(op: Operation, why: Why, answer: VerifierAnswer, now: nat, destination: Destination)
    requires op.phase == Mutating || op.phase == Verifying
    requires Coupled(op) && op.preparedAt <= now && TruthfulAnswer(answer, destination)
    ensures var final := Final(op, why, answer, now);
            final.Some? ==> Fit(op, final.value, destination) &&
                            final.value.phase != Mutating && final.value.phase != Verifying
  {
    hide VerifyAndClassify;
    VerdictIsTrue(answer, destination);
  }

  // --- Each kind of step keeps safety ---

  lemma LoadStepIsSafe(s: State, e: Execution, proposalLoads: bool, patchOpens: bool)
    requires Safe(s)
    ensures Safe(LoadStep(s, e, proposalLoads, patchOpens))
  {
    hide MutationsAreSafe;
  }

  lemma WriteStepIsSafe(s: State, e: Execution, next: Next, tx: TxAnswer)
    requires Safe(s) && s.running == Some(e) && e.pc == Journal(next)
    ensures Safe(WriteStep(s, e, next, tx))
  {
    hide MutationsAreSafe, Coupled;
  }

  lemma MutationsStaySafe(mutations: seq<(Destination, Destination)>, after: Destination)
    requires MutationsAreSafe(mutations, AtBaseline)
    ensures MutationsAreSafe(mutations + [(AtBaseline, after)], after)
  {
    var more := mutations + [(AtBaseline, after)];
    forall i | 0 <= i < |more| - 1 ensures more[i].1 == more[i + 1].0 {
      if i == |mutations| - 1 { assert more[i].1 == AtBaseline; }
    }
  }

  lemma MutateStepIsSafe(s: State, e: Execution, fails: bool, after: Destination)
    requires Safe(s) && s.running == Some(e) && e.pc == Mutate
    ensures Safe(MutateStep(s, e, fails, after))
  {
    hide MutationsAreSafe;
    MutationsStaySafe(s.mutations, after);
  }

  lemma VerifyStepIsSafe(s: State, e: Execution, why: Why, answer: VerifierAnswer, now: nat)
    requires Safe(s) && s.running == Some(e) && e.pc == Verify(why) && Truthful(s, CallVerifier(answer, now))
    ensures Safe(VerifyStep(s, e, why, answer, now))
  {
    hide MutationsAreSafe, Final, Coupled;
    VerificationOutcomeIsFit(e.op, why, answer, now, s.destination);
  }

  /** Every action keeps safety and changes the journal only along an edge the
      store accepts. */
  lemma StepIsSafe(s: State, a: Action)
    requires Safe(s) && Truthful(s, a)
    ensures Safe(Step(s, a))
    ensures Step(s, a).journal == s.journal || LegalTransition(s.journal.phase, Step(s, a).journal.phase)
  {
    hide MutationsAreSafe, Coupled, Final, PhaseIsTrue;
    if s.running.Some? {
      var e := s.running.value;
      match (a, e.pc)
      case (LoadOperation(proposalLoads, patchOpens), Load) => LoadStepIsSafe(s, e, proposalLoads, patchOpens);
      case (WriteJournal(tx), Journal(next)) => WriteStepIsSafe(s, e, next, tx);
      case (CallMutate(fails, after), Mutate) => MutateStepIsSafe(s, e, fails, after);
      case (CallVerifier(answer, now), Verify(why)) => VerifyStepIsSafe(s, e, why, answer, now);
      case (CrashWhileMutating(after), Mutate) => MutateStepIsSafe(s, e, true, after);
      case _ =>
    }
  }

  // ---------------------------------------------------------------------
  // Whole runs
  // ---------------------------------------------------------------------

  lemma {:induction false} RunIsSafe(s: State, actions: seq<Action>)
    requires Safe(s) && IsRun(s, actions)
    ensures Safe(Run(s, actions))
    decreases |actions|
  {
    hide Safe, Step, Truthful;
    if actions != [] {
      StepIsSafe(s, actions[0]);
      RunIsSafe(Step(s, actions[0]), actions[1..]);
    }
  }

  lemma InitialIsSafe(s: State)
    requires Initial(s)
    ensures Safe(s)
  {
  }

  /** Whatever crashes, refusals and lost acknowledgements a run holds, every
      mutating call found the destination at baseline and all but the last left
      it there, so no run applies a patch twice; the journal never claims what
      is not so; and everything handed to the journal was a valid operation. */
  lemma NoRunAppliesAPatchTwice(s: State, actions: seq<Action>)
    requires Initial(s) && IsRun(s, actions)
    ensures var end := Run(s, actions);
            && (forall i :: 0 <= i < |end.mutations| ==> end.mutations[i].0 == AtBaseline)
            && (forall i :: 0 <= i < |end.mutations| - 1 ==> end.mutations[i].1 == AtBaseline)
            && end.destination == (if end.mutations == [] then AtBaseline else end.mutations[|end.mutations| - 1].1)
            && PhaseIsTrue(end.journal.phase, end.destination)
            && (forall i :: 0 <= i < |end.handed| ==> Coupled(end.handed[i]))
  {
    hide Run, IsRun, Initial, Coupled, PhaseIsTrue, ExecutionKnows;
    InitialIsSafe(s);
    RunIsSafe(s, actions);
    var m := Run(s, actions).mutations;
    forall i | 0 <= i < |m| - 1 ensures m[i].1 == AtBaseline {
      assert m[i].1 == m[i + 1].0;
    }
  }

  lemma TerminalStep(s: State, a: Action)
    requires Safe(s) && Terminal(s.journal.phase)
    ensures Step(s, a).journal == s.journal && Step(s, a).destination == s.destination
    ensures Step(s, a).mutations == s.mutations
  {
    hide MutationsAreSafe, PhaseIsTrue, Coupled, Final;
  }

  /** A terminal phase absorbs: later executions neither write the journal nor
      call the mutator. */
  lemma {:induction false} TerminalPhasesAbsorb(s: State, actions: seq<Action>)
    requires Safe(s) && Terminal(s.journal.phase) && IsRun(s, actions)
    ensures Run(s, actions).journal == s.journal && Run(s, actions).destination == s.destination
    ensures Run(s, actions).mutations == s.mutations
    decreases |actions|
  {
    hide Safe, Step, Truthful;
    if actions != [] {
      TerminalStep(s, actions[0]);
      StepIsSafe(s, actions[0]);
      TerminalPhasesAbsorb(Step(s, actions[0]), actions[1..]);
    }
  }

  /** Nothing has authorised a second attempt yet. */
  ghost predicate Unretried(s: State) {
    && (s.running.Some? ==> !s.running.value.authorizeRetry)
    && (s.mutations != [] ==>
        && |s.mutations| == 1 && s.journal.phase != Prepared
        && (s.running.Some? ==> s.running.value.pc != Mutate && s.running.value.pc != Journal(DoMutate)))
    && (s.running.Some? && s.running.value.pc == Journal(DoMutate) ==> s.journal.phase == Prepared)
    && (s.running.Some? && s.running.value.pc.Journal? && s.running.value.pc.next != DoMutate ==>
        s.running.value.op.phase != Prepared)
  }

  lemma UnretriedStep(s: State, a: Action)
    requires Safe(s) && Truthful(s, a) && Unretried(s) && (a.Begin? ==> !a.authorizeRetry)
    ensures Unretried(Step(s, a))
  {
    hide MutationsAreSafe, PhaseIsTrue, Coupled, Final;
    StepIsSafe(s, a);
  }

  ghost predicate NeverAuthorizes(actions: seq<Action>) {
    forall i :: 0 <= i < |actions| && actions[i].Begin? ==> !actions[i].authorizeRetry
  }

  lemma {:induction false} UnretriedRun(s: State, actions: seq<Action>)
    requires Safe(s) && Unretried(s) && IsRun(s, actions) && NeverAuthorizes(actions)
    ensures Unretried(Run(s, actions))
    decreases |actions|
  {
    hide Safe, Step, Truthful, Unretried;
    if actions != [] {
      UnretriedStep(s, actions[0]);
      StepIsSafe(s, actions[0]);
      UnretriedRun(Step(s, actions[0]), actions[1..]);
    }
  }

  /** A run in which no execution is authorised to retry calls the mutator at
      most once, however often the operation is executed again. */
  lemma WithoutAuthorityOneMutation(s: State, actions: seq<Action>)
    requires Initial(s) && IsRun(s, actions) && NeverAuthorizes(actions)
    ensures |Run(s, actions).mutations| <= 1
  {
    hide Run, IsRun, Safe, NeverAuthorizes;
    InitialIsSafe(s);
    UnretriedRun(s, actions);
  }

  // ---------------------------------------------------------------------
  // One execution
  // ---------------------------------------------------------------------

  /** What the effects answer during one uninterrupted execution. */
  datatype Answers = Answers(
    proposalLoads: bool, patchOpens: bool, intent: TxAnswer, mutationFails: bool, after: Destination,
    progress: TxAnswer, verifier: VerifierAnswer, now: nat, outcome: TxAnswer)

  /** The actions of that execution; those that do not apply are passed over. */
  function Script(guard: nat, authorizeRetry: bool, a: Answers): seq<Action> {
    [Begin(guard, authorizeRetry), LoadOperation(a.proposalLoads, a.patchOpens), WriteJournal(a.intent),
     CallMutate(a.mutationFails, a.after), WriteJournal(a.progress), CallVerifier(a.verifier, a.now),
     WriteJournal(a.outcome)]
  }

  function ClassificationForPhase(phase: Phase): Classification {
    match phase
    case Applied => IsApplied
    case FailedClean => IsFailedClean
    case RetrySafe => IsRetrySafe
    case _ => NeedsRepair
  }

  lemma RunPrepend(s: State, a: Action, actions: seq<Action>)
    ensures Run(s, [a] + actions) == Run(Step(s, a), actions)
  {
    assert ([a] + actions)[1..] == actions;
  }

  /** A script is seven steps. */
  lemma ScriptSteps(s: State, guard: nat, authorizeRetry: bool, a: Answers)
    ensures Run(s, Script(guard, authorizeRetry, a)) ==
            Step(Step(Step(Step(Step(Step(Step(s, Begin(guard, authorizeRetry)),
              LoadOperation(a.proposalLoads, a.patchOpens)), WriteJournal(a.intent)),
              CallMutate(a.mutationFails, a.after)), WriteJournal(a.progress)),
              CallVerifier(a.verifier, a.now)), WriteJournal(a.outcome))
  {
    hide Step, Run;
    var script := Script(guard, authorizeRetry, a);
    SuffixStep(s, script, 0);
    var s1 := Step(s, script[0]);
    SuffixStep(s1, script, 1);
    var s2 := Step(s1, script[1]);
    SuffixStep(s2, script, 2);
    var s3 := Step(s2, script[2]);
    SuffixStep(s3, script, 3);
    var s4 := Step(s3, script[3]);
    SuffixStep(s4, script, 4);
    var s5 := Step(s4, script[4]);
    SuffixStep(s5, script, 5);
    var s6 := Step(s5, script[5]);
    SuffixStep(s6, script, 6);
    assert script[0..] == script;
    EmptyRun(Step(s6, script[6]), script[7..]);
  }

  lemma SuffixStep(s: State, script: seq<Action>, i: nat)
    requires i < |script|
    ensures Run(s, script[i..]) == Run(Step(s, script[i]), script[i + 1..])
  {
    hide Step;
    assert script[i..] == [script[i]] + script[i + 1..];
    RunPrepend(s, script[i], script[i + 1..]);
  }

  lemma EmptyRun(s: State, none: seq<Action>)
    requires none == []
    ensures Run(s, none) == s
  {
  }

  /** An execution that is about to ask the verifier after a mutating call. */
  ghost predicate AboutToVerify(s: State) {
    && s.running.Some? && s.running.value.guard == s.revision
    && (s.running.value.pc == Verify(AfterFailure) || s.running.value.pc == Verify(AfterSuccess))
  }

  lemma ReachesVerification(s: State, a: Answers)
    requires Initial(s) && a.proposalLoads && a.patchOpens && a.intent == Committed && a.progress == Committed
    ensures AboutToVerify(Step(Step(Step(Step(Step(s, Begin(s.revision, false)),
              LoadOperation(a.proposalLoads, a.patchOpens)), WriteJournal(a.intent)),
              CallMutate(a.mutationFails, a.after)), WriteJournal(a.progress)))
  {
    hide Final;
  }

  lemma VerificationEnds(s: State, a: Answers)
    requires AboutToVerify(s) && a.now != 0 && !a.verifier.NoEvidence? && a.outcome == Committed
    ensures var phase := Step(Step(s, CallVerifier(a.verifier, a.now)), WriteJournal(a.outcome)).journal.phase;
            && Terminal(phase)
            && (phase == Applied <==>
                a.verifier.Observed? && a.verifier.evidence.sameContext &&
                a.verifier.evidence.observation == SawResult && a.verifier.evidence.resultPathsMatch)
  {
  }

  /** Left alone, a prepared operation always ends: applied exactly when the
      verifier saw the expected result in an unchanged context, whether or not
      the mutating call reported success. */
  lemma AnUninterruptedExecutionEnds(s: State, a: Answers)
    requires Initial(s)
    requires a.proposalLoads && a.patchOpens && a.now != 0 && !a.verifier.NoEvidence?
    requires a.intent == Committed && a.progress == Committed && a.outcome == Committed
    ensures var phase := Run(s, Script(s.revision, false, a)).journal.phase;
            && Terminal(phase)
            && (phase == Applied <==>
                a.verifier.Observed? && a.verifier.evidence.sameContext &&
                a.verifier.evidence.observation == SawResult && a.verifier.evidence.resultPathsMatch)
  {
    hide Run, Step, AboutToVerify, Initial;
    ScriptSteps(s, s.revision, false, a);
    ReachesVerification(s, a);
    VerificationEnds(Step(Step(Step(Step(Step(s, Begin(s.revision, false)),
              LoadOperation(a.proposalLoads, a.patchOpens)), WriteJournal(a.intent)),
              CallMutate(a.mutationFails, a.after)), WriteJournal(a.progress)), a);
  }

  // --- What each execution leaves behind ---

  /** The verifier saw the recorded baseline, or the expected result, with nothing
      around it changed. */
  predicate SawTheBaseline(answer: VerifierAnswer) {
    && answer.Observed? && answer.evidence.sameContext && answer.evidence.observation == SawBaseline
    && answer.evidence.baselinePathsMatch && answer.evidence.sameFingerprint
  }

  predicate SawTheResult(answer: VerifierAnswer) {
    && answer.Observed? && answer.evidence.sameContext && answer.evidence.observation == SawResult
    && answer.evidence.resultPathsMatch
  }

  predicate InFlight(op: Operation) { op.phase == Mutating || op.phase == Verifying }

  /** What is journalled: when neither was seen the failure says why. */
  ghost predicate Concluded(before: Operation, after: Operation, ifBaseline: Phase, a: Answers) {
    && after.preparedAt == before.preparedAt
    && (after.phase == ifBaseline <==> SawTheBaseline(a.verifier))
    && (after.phase == Applied <==> SawTheResult(a.verifier))
    && (after.phase == RepairRequired <==> !SawTheBaseline(a.verifier) && !SawTheResult(a.verifier))
    && !a.verifier.NoEvidence? && after.verification == Some(a.verifier.evidence)
    && after.completedAt == (if after.phase == RetrySafe then None else Some(a.now))
    && (after.phase == RetrySafe ==> after.failure == RetryIsSafe)
    && (after.phase == FailedClean ==> after.failure == MutationClean)
    && (after.phase == Applied ==> after.failure == NoFailure)
    && (after.phase == RepairRequired ==>
          (after.failure == VerificationUnavailable <==> a.verifier.EvidenceWithError?) &&
          (after.failure == GlobalChanged <==> a.verifier.Observed? && !a.verifier.evidence.sameContext) &&
          (after.failure == MixedState <==> a.verifier.Observed? && a.verifier.evidence.sameContext))
  }

  lemma Loading(s: State, guard: nat, authorizeRetry: bool, a: Answers)
    requires s.running.None?
    ensures var e := Execution(Load, s.journal, guard, authorizeRetry);
            Step(Step(s, Begin(guard, authorizeRetry)), LoadOperation(a.proposalLoads, a.patchOpens)) ==
            LoadStep(Continue(s, e), e, a.proposalLoads, a.patchOpens)
  {
    hide LoadStep;
  }

  lemma NothingApplies(s: State, a: Answers)
    requires s.running.None?
    ensures Step(s, WriteJournal(a.intent)) == s && Step(s, CallMutate(a.mutationFails, a.after)) == s
    ensures Step(s, WriteJournal(a.progress)) == s && Step(s, CallVerifier(a.verifier, a.now)) == s
    ensures Step(s, WriteJournal(a.outcome)) == s
  {
  }

  /** An operation that an execution may not take up: invalid, terminal, awaiting
      authority, or without its proposal or patch. */
  predicate MayNotBegin(op: Operation, authorizeRetry: bool, a: Answers) {
    || !Coupled(op) || Terminal(op.phase) || !a.proposalLoads
    || (!InFlight(op) && ((op.phase == RetrySafe && !authorizeRetry) || !a.patchOpens))
  }

  /** It changes nothing at all. */
  lemma AnExecutionThatMayNotBeginChangesNothing(s: State, guard: nat, authorizeRetry: bool, a: Answers)
    requires s.running.None? && MayNotBegin(s.journal, authorizeRetry, a)
    ensures Run(s, Script(guard, authorizeRetry, a)) == s
  {
    hide Run, Step, Coupled;
    ScriptSteps(s, guard, authorizeRetry, a);
    Loading(s, guard, authorizeRetry, a);
    NothingApplies(s, a);
  }

  lemma WaitsForVerification(s: State, e: Execution, a: Answers)
    requires s.running == Some(e) && e.pc.Verify?
    ensures Step(s, WriteJournal(a.intent)) == s && Step(s, CallMutate(a.mutationFails, a.after)) == s
    ensures Step(s, WriteJournal(a.progress)) == s
  {
  }

  /** A recovery goes straight to the verifier. */
  lemma RecoveryAsks(s: State, guard: nat, authorizeRetry: bool, a: Answers)
    requires s.running.None? && Coupled(s.journal) && InFlight(s.journal) && a.proposalLoads
    ensures var t := Continue(s, Execution(Verify(Recovery), s.journal, guard, authorizeRetry));
            Run(s, Script(guard, authorizeRetry, a)) == Step(Step(t, CallVerifier(a.verifier, a.now)), WriteJournal(a.outcome))
  {
    hide Run, Step, Coupled;
    ScriptSteps(s, guard, authorizeRetry, a);
    Loading(s, guard, authorizeRetry, a);
    var e := Execution(Verify(Recovery), s.journal, guard, authorizeRetry);
    WaitsForVerification(Continue(s, e), e, a);
  }

  /** Asking and journalling the outcome, for an execution that holds the fence. */
  lemma AskingConcludes(s: State, e: Execution, why: Why, a: Answers)
    requires s.running == Some(e) && e.pc == Verify(why)
    ensures var end := Step(Step(s, CallVerifier(a.verifier, a.now)), WriteJournal(a.outcome));
            var final := Final(e.op, why, a.verifier, a.now);
            && end.destination == s.destination && end.mutations == s.mutations && end.running.None?
            && end.journal == (if final.Some? && a.outcome != Refused && e.guard == s.revision then final.value else s.journal)
            && (final.Some? && a.outcome != Refused && e.guard == s.revision ==> end.revision == s.revision + 1)
  {
    hide Final;
  }

  /** What the outcome is, by what the verifier saw. */
  lemma OutcomeIsConcluded(before: Operation, op: Operation, why: Why, a: Answers)
    requires op.preparedAt == before.preparedAt && op.completedAt.None?
    requires !a.verifier.NoEvidence? && a.now != 0
    ensures var final := Final(op, why, a.verifier, a.now);
            final.Some? && Concluded(before, final.value, if why == Recovery then RetrySafe else FailedClean, a)
  {
  }

  /** An execution that finds the intent to mutate journalled, and is left alone,
      makes the operation ready for a retry exactly when the verifier saw the
      baseline and applied exactly when it saw the result; else it asks for a
      repair. It does not touch the destination. */
  lemma ARecoveryConcludes(s: State, authorizeRetry: bool, a: Answers)
    requires s.running.None? && Coupled(s.journal) && InFlight(s.journal)
    requires a.proposalLoads && !a.verifier.NoEvidence? && a.now != 0 && a.outcome != Refused
    ensures var end := Run(s, Script(s.revision, authorizeRetry, a));
            && Concluded(s.journal, end.journal, RetrySafe, a)
            && end.destination == s.destination && end.mutations == s.mutations
            && end.revision == s.revision + 1 && end.running.None?
  {
    hide Run, Step, Final, Concluded;
    RecoveryAsks(s, s.revision, authorizeRetry, a);
    var e := Execution(Verify(Recovery), s.journal, s.revision, authorizeRetry);
    AskingConcludes(Continue(s, e), e, Recovery, a);
    OutcomeIsConcluded(s.journal, s.journal, Recovery, a);
  }

  /** Without an answer, or with the last write refused, it leaves the operation as
      it was, to be recovered again. */
  lemma ARecoveryWithoutOutcomeKeepsTheOperation(s: State, guard: nat, authorizeRetry: bool, a: Answers)
    requires s.running.None? && Coupled(s.journal) && InFlight(s.journal) && a.proposalLoads
    requires a.verifier.NoEvidence? || a.outcome == Refused || guard != s.revision
    ensures var end := Run(s, Script(guard, authorizeRetry, a));
            end.journal == s.journal && end.destination == s.destination && end.mutations == s.mutations && end.running.None?
  {
    hide Run, Step, Coupled;
    RecoveryAsks(s, guard, authorizeRetry, a);
    var e := Execution(Verify(Recovery), s.journal, guard, authorizeRetry);
    AskingConcludes(Continue(s, e), e, Recovery, a);
  }

  /** What is journalled when the mutating call is made. */
  function Intent(op: Operation): Operation {
    Operation(Mutating, NoFailure, None, op.preparedAt, None)
  }

  /** The state in which a first execution, or an authorised retry, asks the
      verifier: it has journalled its intent and mutated. */
  function Asking(s: State, authorizeRetry: bool, a: Answers): State {
    var intent := Intent(s.journal);
    if a.mutationFails then
      State(intent, s.revision + 1, a.after, Some(Execution(Verify(AfterFailure), intent, s.revision + 1, authorizeRetry)),
            s.handed + [intent], s.mutations + [(s.destination, a.after)])
    else
      var progress := intent.(phase := Verifying);
      State(progress, s.revision + 2, a.after, Some(Execution(Verify(AfterSuccess), progress, s.revision + 2, authorizeRetry)),
            s.handed + [intent] + [progress], s.mutations + [(s.destination, a.after)])
  }

  /** The state behind the journalled intent. */
  function Intending(s: State, authorizeRetry: bool): State {
    State(Intent(s.journal), s.revision + 1, s.destination,
          Some(Execution(Mutate, Intent(s.journal), s.revision + 1, authorizeRetry)), s.handed + [Intent(s.journal)], s.mutations)
  }

  lemma IntentIsJournalled(s: State, authorizeRetry: bool, a: Answers)
    requires s.running.None? && !MayNotBegin(s.journal, authorizeRetry, a) && !InFlight(s.journal) && a.intent == Committed
    ensures Step(Step(Step(s, Begin(s.revision, authorizeRetry)), LoadOperation(a.proposalLoads, a.patchOpens)),
                 WriteJournal(a.intent)) == Intending(s, authorizeRetry)
  {
    hide Coupled;
    var e := Execution(Load, s.journal, s.revision, authorizeRetry);
    assert Step(Step(s, Begin(s.revision, authorizeRetry)), LoadOperation(a.proposalLoads, a.patchOpens)) ==
           Continue(s, e.(pc := Journal(DoMutate), op := Intent(s.journal)));
  }

  lemma MutationAsks(s: State, authorizeRetry: bool, a: Answers)
    requires a.mutationFails || a.progress == Committed
    ensures Step(Step(Intending(s, authorizeRetry), CallMutate(a.mutationFails, a.after)), WriteJournal(a.progress)) ==
            Asking(s, authorizeRetry, a)
  {
  }

  lemma AFreshExecutionAsks(s: State, authorizeRetry: bool, a: Answers)
    requires s.running.None? && !MayNotBegin(s.journal, authorizeRetry, a)
    requires !InFlight(s.journal) && a.intent == Committed && (a.mutationFails || a.progress == Committed)
    ensures Run(s, Script(s.revision, authorizeRetry, a)) ==
            Step(Step(Asking(s, authorizeRetry, a), CallVerifier(a.verifier, a.now)), WriteJournal(a.outcome))
  {
    hide Run, Step, MayNotBegin;
    ScriptSteps(s, s.revision, authorizeRetry, a);
    IntentIsJournalled(s, authorizeRetry, a);
    MutationAsks(s, authorizeRetry, a);
  }

  /** A prepared operation, or one whose retry is authorised, mutates once and, left
      alone, ends: cleanly failed exactly when the verifier saw the baseline, applied
      exactly when it saw the result, else in need of repair, and all the same
      whether the mutating call reported success or not. */
  lemma AFreshExecutionConcludes(s: State, authorizeRetry: bool, a: Answers)
    requires s.running.None? && Coupled(s.journal)
    requires s.journal.phase == Prepared || (s.journal.phase == RetrySafe && authorizeRetry)
    requires a.proposalLoads && a.patchOpens && a.intent == Committed && (a.mutationFails || a.progress == Committed)
    requires !a.verifier.NoEvidence? && a.now != 0 && a.outcome != Refused
    ensures var end := Run(s, Script(s.revision, authorizeRetry, a));
            && Concluded(s.journal, end.journal, FailedClean, a)
            && end.destination == a.after && end.mutations == s.mutations + [(s.destination, a.after)]
            && end.running.None?
  {
    hide Run, Step, Coupled, Final, Concluded;
    AFreshExecutionAsks(s, authorizeRetry, a);
    var asking := Asking(s, authorizeRetry, a);
    var e := asking.running.value;
    AskingConcludes(asking, e, e.pc.why, a);
    if a.now != 0 && !a.verifier.NoEvidence? {
      OutcomeIsConcluded(s.journal, e.op, e.pc.why, a);
    }
    FinalIffAnswered(e.op, e.pc.why, a);
  }

  /** Without an answer, or with the last write refused, it is left in flight, for a
      recovery to decide. */
  lemma AFreshExecutionWithoutOutcomeIsInFlight(s: State, authorizeRetry: bool, a: Answers)
    requires s.running.None? && Coupled(s.journal)
    requires s.journal.phase == Prepared || (s.journal.phase == RetrySafe && authorizeRetry)
    requires a.proposalLoads && a.patchOpens && a.intent == Committed && (a.mutationFails || a.progress == Committed)
    requires a.verifier.NoEvidence? || a.outcome == Refused || a.now == 0
    ensures var end := Run(s, Script(s.revision, authorizeRetry, a));
            && end.journal == Intent(s.journal).(phase := if a.mutationFails then Mutating else Verifying)
            && end.destination == a.after && end.mutations == s.mutations + [(s.destination, a.after)]
            && end.running.None?
  {
    hide Run, Step, Coupled, Final, Concluded;
    AFreshExecutionAsks(s, authorizeRetry, a);
    var asking := Asking(s, authorizeRetry, a);
    var e := asking.running.value;
    AskingConcludes(asking, e, e.pc.why, a);
    if a.now != 0 && !a.verifier.NoEvidence? {
      OutcomeIsConcluded(s.journal, e.op, e.pc.why, a);
    }
    FinalIffAnswered(e.op, e.pc.why, a);
  }

  /** Whose fence is stale, or whose intent is refused, never reaches the mutating
      call. */
  lemma WithoutItsIntentNothingIsMutated(s: State, guard: nat, authorizeRetry: bool, a: Answers)
    requires s.running.None? && !InFlight(s.journal) && (a.intent == Refused || guard != s.revision)
    ensures var end := Run(s, Script(guard, authorizeRetry, a));
            && end.journal == s.journal && end.destination == s.destination && end.mutations == s.mutations
            && end.running.None?
  {
    hide Run, Coupled, Final;
    ScriptSteps(s, guard, authorizeRetry, a);
  }

  /** An intent that was committed without its caller learning of it: the operation is in
      flight, and nothing was mutated. */
  lemma AnUnheardIntentMutatesNothing(s: State, authorizeRetry: bool, a: Answers)
    requires s.running.None? && !MayNotBegin(s.journal, authorizeRetry, a) && !InFlight(s.journal) && a.intent == Unacknowledged
    ensures var end := Run(s, Script(s.revision, authorizeRetry, a));
            && end.journal == Intent(s.journal) && end.destination == s.destination && end.mutations == s.mutations
            && end.running.None?
  {
    hide Run, Coupled, Final;
    ScriptSteps(s, s.revision, authorizeRetry, a);
  }

  /** A mutation that succeeded and could not be journalled, or not to the caller's
      knowledge: the verifier is not asked, and a recovery decides. */
  lemma AnUnsavedMutationIsInFlight(s: State, authorizeRetry: bool, a: Answers)
    requires s.running.None? && !MayNotBegin(s.journal, authorizeRetry, a) && !InFlight(s.journal)
    requires a.intent == Committed && !a.mutationFails && a.progress != Committed
    ensures var end := Run(s, Script(s.revision, authorizeRetry, a));
            && end.journal == Intent(s.journal).(phase := if a.progress == Refused then Mutating else Verifying)
            && end.destination == a.after && end.mutations == s.mutations + [(s.destination, a.after)]
            && end.running.None?
  {
    hide Run, Step, MayNotBegin, Final;
    ScriptSteps(s, s.revision, authorizeRetry, a);
    IntentIsJournalled(s, authorizeRetry, a);
    MutationIsUnsaved(s, authorizeRetry, a);
  }

  lemma MutationIsUnsaved(s: State, authorizeRetry: bool, a: Answers)
    requires !a.mutationFails && a.progress != Committed
    ensures var t := Step(Step(Intending(s, authorizeRetry), CallMutate(a.mutationFails, a.after)), WriteJournal(a.progress));
            && t.journal == Intent(s.journal).(phase := if a.progress == Refused then Mutating else Verifying)
            && t.destination == a.after && t.mutations == s.mutations + [(s.destination, a.after)] && t.running.None?
            && Step(Step(t, CallVerifier(a.verifier, a.now)), WriteJournal(a.outcome)) == t
  {
    hide Final;
  }

  /** The verifier gives an outcome to journal; a retry needs no time for it. */
  predicate Answered(recovery: bool, a: Answers) {
    !a.verifier.NoEvidence? && (a.now != 0 || (recovery && SawTheBaseline(a.verifier)))
  }

  lemma FinalIffAnswered(op: Operation, why: Why, a: Answers)
    ensures Final(op, why, a.verifier, a.now).Some? <==> Answered(why == Recovery, a)
  {
  }

  /** When an execution can say how things stand. */
  predicate Reports(s: State, guard: nat, authorizeRetry: bool, a: Answers) {
    && Coupled(s.journal)
    && (Terminal(s.journal.phase) ||
        (a.proposalLoads &&
         if InFlight(s.journal) then guard == s.revision && Answered(true, a) && a.outcome == Committed
         else if s.journal.phase == RetrySafe && !authorizeRetry then true
         else
           && a.patchOpens && guard == s.revision && a.intent == Committed && (a.mutationFails || a.progress == Committed)
           && Answered(false, a) && a.outcome == Committed))
  }

  /** The journal row, the destination and the service that executes against
      them. */
  class ApplyExecutionService {
    var journal: Operation
    var revision: nat
    var destination: Destination
    ghost var handed: seq<Operation>
    ghost var mutations: seq<(Destination, Destination)>

    ghost function View(running: Option<Execution>): State
      reads this
    {
      State(journal, revision, destination, running, handed, mutations)
    }

    /** Hands one operation to the fenced journal. */
    method Transition(guard: nat, op: Operation, tx: TxAnswer, ghost next: Next, ghost e: Execution)
      returns (written: bool, newGuard: nat)
      requires e.guard == guard && e.op == op && e.pc == Journal(next)
      modifies this
      ensures !written ==> View(None) == WriteStep(old(View(Some(e))), e, next, tx).(running := None)
      ensures written ==>
                && newGuard == guard + 1 && journal == op
                && View(if GoOn(next).None? then None else Some(e.(pc := GoOn(next).value, guard := newGuard))) ==
                   WriteStep(old(View(Some(e))), e, next, tx)
      ensures !written ==> WriteStep(old(View(Some(e))), e, next, tx).running == None
      ensures written <==> guard == old(revision) && tx == Committed
    {
      newGuard := guard;
      handed := handed + [op];
      if tx == Refused || guard != revision {
        return false, guard;
      }
      journal, revision := op, revision + 1;
      if tx == Unacknowledged {
        return false, guard;
      }
      return true, guard + 1;
    }

    /** The part of an execution after the mutating call, and all of a recovery:
        ask the verifier, then journal what follows. */
    method Conclude(guard: nat, op: Operation, why: Why, answer: VerifierAnswer, now: nat, tx: TxAnswer,
                    ghost e: Execution) returns (result: Option<Classification>)
      requires e.guard == guard && e.op == op && e.pc == Verify(why)
      modifies this
      ensures View(None) == Step(Step(old(View(Some(e))), CallVerifier(answer, now)), WriteJournal(tx))
      ensures result.Some? <==> Final(op, why, answer, now).Some? && guard == old(revision) && tx == Committed
      ensures result.Some? ==> result.value == ClassificationForPhase(journal.phase)
    {
      var final := Final(op, why, answer, now);
      if final.None? {
        return None;
      }
      var written, _ := Transition(guard, final.value, tx, Return, e.(pc := Journal(Return), op := final.value));
      if !written {
        return None;
      }
      return Some(ClassificationForPhase(final.value.phase));
    }

    /** A first execution, or an authorised retry: journals the intent, mutates and
        concludes. */
    method MutateAndConclude(guard: nat, authorizeRetry: bool, a: Answers) returns (result: Option<Classification>)
      requires !InFlight(journal) && !MayNotBegin(journal, authorizeRetry, a)
      modifies this
      ensures View(None) == Run(old(View(None)), Script(guard, authorizeRetry, a))
      ensures result.Some? <==> Reports(old(View(None)), guard, authorizeRetry, a)
      ensures result.Some? ==> result.value == ClassificationForPhase(journal.phase)
    {
      hide Final, Run, Coupled, Answered;
      ScriptSteps(View(None), guard, authorizeRetry, a);
      forall op, why ensures Final(op, why, a.verifier, a.now).Some? <==> Answered(why == Recovery, a) {
        FinalIffAnswered(op, why, a);
      }
      var op := journal.(phase := Mutating, failure := NoFailure, verification := None, completedAt := None);
      ghost var e := Execution(Journal(DoMutate), op, guard, authorizeRetry);
      var written, fence := Transition(guard, op, a.intent, DoMutate, e);
      if !written {
        return None;
      }
      e := e.(pc := Mutate, guard := fence);
      mutations := mutations + [(destination, a.after)];
      destination := a.after;
      if a.mutationFails {
        result := Conclude(fence, op, AfterFailure, a.verifier, a.now, a.outcome, e.(pc := Verify(AfterFailure)));
        return;
      }
      op := op.(phase := Verifying);
      e := e.(pc := Journal(DoVerify(AfterSuccess)), op := op);
      written, fence := Transition(fence, op, a.progress, DoVerify(AfterSuccess), e);
      if !written {
        return None;
      }
      result := Conclude(fence, op, AfterSuccess, a.verifier, a.now, a.outcome,
                         e.(pc := Verify(AfterSuccess), guard := fence));
    }

    /** One execution. It leaves the journal and the destination as the machine's
        script does, and what it reports is what the journal then says. */
    method Execute(guard: nat, authorizeRetry: bool, a: Answers) returns (result: Option<Classification>)
      modifies this
      ensures View(None) == Run(old(View(None)), Script(guard, authorizeRetry, a))
      ensures result.Some? <==> Reports(old(View(None)), guard, authorizeRetry, a)
      ensures result.Some? ==> result.value == ClassificationForPhase(journal.phase)
    {
      hide Final, Run, Coupled, Script, Step, Answered;
      if MayNotBegin(journal, authorizeRetry, a) {
        AnExecutionThatMayNotBeginChangesNothing(View(None), guard, authorizeRetry, a);
      }
      if !Coupled(journal) {
        return None;
      }
      if Terminal(journal.phase) {
        return Some(ClassificationForPhase(journal.phase));
      }
      if !a.proposalLoads {
        return None;
      }
      if journal.phase == Mutating || journal.phase == Verifying {
        RecoveryAsks(View(None), guard, authorizeRetry, a);
        FinalIffAnswered(journal, Recovery, a);
        result := Conclude(guard, journal, Recovery, a.verifier, a.now, a.outcome,
                           Execution(Verify(Recovery), journal, guard, authorizeRetry));
        return;
      }
      if journal.phase == RetrySafe && !authorizeRetry {
        return Some(IsRetrySafe);
      }
      if !a.patchOpens {
        return None;
      }
      result := MutateAndConclude(guard, authorizeRetry, a);
    }
  }
}
