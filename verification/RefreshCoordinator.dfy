/** The refresh coordinator: producers fill input slots and leave a wake token,
    one loop takes the token, drains the slots and merges them into the
    scheduler. Steps of producers, the loop, the watcher, the consumer and the
    closer interleave freely. */
module RefreshCoordinator {
  import S = RefreshScheduler
  import opened Wrappers

  type Reason = S.Reason
  type WatchedSet = S.WatchedSet

  /** The clock never reads the zero time. */
  type Instant = t: nat | t != 0 witness 1

  const DAY: nat := 86_400_000_000_000

  datatype Hint = Hint(watchedSet: WatchedSet, reason: Reason, truthLost: bool)

  datatype Focus = Focus(focused: bool, localSession: bool)

  datatype Slots = Slots(
    bits: set<Reason>, truthLost: bool, focus: Option<Focus>, watchedSet: Option<WatchedSet>, hint: Option<Hint>)

  const EMPTY := Slots({}, false, None, None, None)

  /** Where the loop stands. `Draining` has taken the token and not yet the lock;
      `Merging` has left the lock with what it took. */
  datatype Pc = Idle | Draining | Merging(taken: Slots) | Emitting | Sending(request: S.Request) | Stopped

  /** One reason given to the scheduler. */
  datatype Merge = Merge(reason: Reason, truthLost: bool)

  /** An admitted input, and how many merges came before it. */
  datatype Admitted = Admitted(reason: Reason, truthLost: bool, after: nat)

  datatype Coordinator = Coordinator(
    closed: bool, slots: Slots, wake: bool, complete: Option<nat>, requests: Option<S.Request>, pc: Pc,
    scheduler: S.Scheduler, timer: nat, armedAt: nat, merges: seq<Merge>, admitted: seq<Admitted>)

  datatype Action =
    | Enqueue(reason: Reason, truthLost: bool)
    | SubmitHint(hint: Hint)
    | SetFocused(focus: Focus)
    | FinishReplace(watchedSet: WatchedSet)
    | SubmitCompletion(ticket: nat)
    | Nudge
    | Close
    | Receive
    | TakeWake
    | Drain
    | MergeTaken(now: Instant)
    | WatcherHint(now: Instant, hint: Hint)
    | WatcherClosed(now: Instant)
    | TakeCompletion(now: Instant)
    | Tick
    | EmitDue(now: Instant, later: Instant)
    | Send
    | Stop

  // ---------------------------------------------------------------------
  // Producers
  // ---------------------------------------------------------------------

  function Admit(c: Coordinator, slots: Slots, reason: Reason, truthLost: bool): Coordinator {
    c.(slots := slots.(bits := slots.bits + {reason}, truthLost := slots.truthLost || truthLost), wake := true,
       admitted := c.admitted + [Admitted(reason, truthLost, |c.merges|)])
  }

  /** The first hint of a batch lends its set; a hint of another set takes its
      place and counts as a changed set. */
  function HintSlots(slots: Slots, hint: Hint): Slots {
    if slots.hint.None? then slots.(hint := Some(hint))
    else if slots.hint.value.watchedSet != hint.watchedSet then
      slots.(hint := Some(hint), bits := slots.bits + {S.WATCHED_SET_CHANGED}, truthLost := true)
    else slots
  }

  // ---------------------------------------------------------------------
  // The loop
  // ---------------------------------------------------------------------

  /** The set that a batch is submitted under. */
  function BatchSet(taken: Slots, scheduler: S.Scheduler): Option<WatchedSet> {
    if taken.watchedSet.Some? then taken.watchedSet
    else if taken.hint.Some? then Some(taken.hint.value.watchedSet)
    else match scheduler.watchedSet case None => None case Some(w) => Some(w)
  }

  function Prepared(taken: Slots, scheduler: S.Scheduler, now: Instant): S.Scheduler {
    var focused := if taken.focus.Some? then
                     S.SetFocusedStep(scheduler, now, taken.focus.value.focused, taken.focus.value.localSession)
                   else scheduler;
    if taken.watchedSet.Some? then S.SetWatchedSetStep(focused, now, taken.watchedSet.value) else focused
  }

  function BatchTruthLost(taken: Slots, reason: Reason): bool {
    taken.truthLost || (taken.hint.Some? && taken.hint.value.reason == reason && taken.hint.value.truthLost)
  }

  function SubmitAll(scheduler: S.Scheduler, now: Instant, given: WatchedSet, taken: Slots, reasons: seq<Reason>): S.Scheduler
    decreases |reasons|
  {
    if reasons == [] then scheduler
    else SubmitAll(S.SubmitHintStep(scheduler, now, given, reasons[0], BatchTruthLost(taken, reasons[0])), now, given, taken, reasons[1..])
  }

  /** What the scheduler merges for one submitted reason. */
  function MergeOf(scheduler: S.Scheduler, given: WatchedSet, reason: Reason, truthLost: bool): Merge {
    if scheduler.watchedSet.Some? && scheduler.watchedSet != Some(given) then Merge(S.WATCHED_SET_CHANGED, true)
    else Merge(reason, truthLost)
  }

  function MergesOf(scheduler: S.Scheduler, given: WatchedSet, taken: Slots, reasons: seq<Reason>): seq<Merge>
    decreases |reasons|
  {
    if reasons == [] then []
    else [MergeOf(scheduler, given, reasons[0], BatchTruthLost(taken, reasons[0]))] + MergesOf(scheduler, given, taken, reasons[1..])
  }

  function MergeStep(c: Coordinator, taken: Slots, now: Instant): Coordinator {
    var prepared := Prepared(taken, c.scheduler, now);
    var given := BatchSet(taken, c.scheduler);
    var reasons := S.ReasonsFrom(taken.bits, 0);
    if given.None? then c.(scheduler := prepared, pc := Emitting)
    else
      c.(scheduler := SubmitAll(prepared, now, given.value, taken, reasons),
         merges := c.merges + MergesOf(prepared, given.value, taken, reasons), pc := Emitting)
  }

  function Max(a: nat, b: nat): nat { if a >= b then a else b }

  /** Emits if due, then arms the timer for the next due instant; a request that
      is due must be handed over first. */
  function EmitDueStep(c: Coordinator, now: Instant, later: Instant): Coordinator {
    var scheduler := S.DueStep(c.scheduler, now);
    var next := S.NextDue(scheduler);
    c.(scheduler := scheduler, timer := if next == 0 then later + DAY else Max(next, later + 1), armedAt := later,
       pc := if S.Fires(c.scheduler, now) then Sending(S.Emission(c.scheduler, now)) else Idle)
  }

  function WatcherStep(c: Coordinator, now: Instant, given: WatchedSet, reason: Reason, truthLost: bool): Coordinator {
    c.(scheduler := S.SubmitHintStep(c.scheduler, now, given, reason, truthLost),
       merges := c.merges + [MergeOf(c.scheduler, given, reason, truthLost)], pc := Emitting)
  }

  const WATCHER_CLOSED: Reason := 11

  function Step(c: Coordinator, a: Action): Coordinator {
    match a
    case Enqueue(reason, truthLost) => if c.closed then c else Admit(c, c.slots, reason, truthLost)
    case SubmitHint(hint) => if c.closed then c else Admit(c, HintSlots(c.slots, hint), hint.reason, hint.truthLost)
    case SetFocused(focus) => if c.closed then c else c.(slots := c.slots.(focus := Some(focus)), wake := true)
    case FinishReplace(watchedSet) =>
      if c.closed then c else Admit(c, c.slots.(watchedSet := Some(watchedSet)), S.WATCHED_SET_CHANGED, true)
    case SubmitCompletion(ticket) =>
      if c.closed || ticket == 0 || c.complete.Some? then c else c.(complete := Some(ticket))
    case Nudge => c.(wake := true)
    case Close => c.(closed := true)
    case Receive => c.(requests := None)
    case TakeWake => if c.pc == Idle && c.wake then c.(wake := false, pc := Draining) else c
    case Drain => if c.pc == Draining then c.(slots := EMPTY, pc := Merging(c.slots)) else c
    case MergeTaken(now) => if c.pc.Merging? then MergeStep(c, c.pc.taken, now) else c
    case WatcherHint(now, hint) =>
      if c.pc == Idle then WatcherStep(c, now, hint.watchedSet, hint.reason, hint.truthLost) else c
    case WatcherClosed(now) =>
      if c.pc == Idle && c.scheduler.watchedSet.Some? then
        WatcherStep(c, now, c.scheduler.watchedSet.value, WATCHER_CLOSED, true)
      else c
    case TakeCompletion(now) =>
      if c.pc == Idle && c.complete.Some? then
        c.(scheduler := S.CompleteStep(c.scheduler, now, c.complete.value), complete := None, pc := Emitting)
      else c
    case Tick => if c.pc == Idle then c.(pc := Emitting) else c
    case EmitDue(now, later) => if c.pc == Emitting then EmitDueStep(c, now, later) else c
    case Send =>
      if c.pc.Sending? && c.requests.None? then c.(requests := Some(c.pc.request), pc := Idle) else c
    case Stop => if c.closed && (c.pc == Idle || c.pc.Sending?) then c.(pc := Stopped) else c
  }

  function Run(c: Coordinator, actions: seq<Action>): Coordinator
    decreases |actions|
  {
    if actions == [] then c else Run(Step(c, actions[0]), actions[1..])
  }

  /** Started on a first watched set. */
  function Started(config: S.Config, watchedSet: WatchedSet, now: Instant): Coordinator {
    Coordinator(false, EMPTY, false, None, None, Idle, S.SetWatchedSetStep(S.New(config), now, watchedSet),
                now + DAY, now, [], [])
  }

  // ---------------------------------------------------------------------
  // No lost wake-up
  // ---------------------------------------------------------------------

  /** Filled slots have a token, or a drain that is about to run; the loop rests
      only with its timer armed for the next due instant. */
  ghost predicate Awake(c: Coordinator) {
    && c.scheduler.watchedSet.Some? && S.Sound(c.scheduler)
    && (c.pc == Stopped ==> c.closed)
    && (c.slots != EMPTY && c.pc != Stopped ==> c.wake || c.pc == Draining)
    && ((c.pc == Idle || c.pc.Sending?) && S.NextDue(c.scheduler) != 0 ==> c.timer <= Max(S.NextDue(c.scheduler), c.armedAt + 1))
  }

  /** The input waits in the slots, is in the loop's hands, or was merged after it
      was admitted: as itself, or as a changed set with truth lost. */
  ghost predicate Kept(c: Coordinator, a: Admitted) {
    || Holds(c.slots, a)
    || (c.pc.Merging? && Holds(c.pc.taken, a))
    || exists k :: a.after <= k < |c.merges| && Stands(c.merges[k], a)
  }

  predicate Holds(slots: Slots, a: Admitted) {
    a.reason in slots.bits && (a.truthLost ==> slots.truthLost)
  }

  predicate Stands(m: Merge, a: Admitted) {
    (m.reason == a.reason && (a.truthLost ==> m.truthLost)) || m == Merge(S.WATCHED_SET_CHANGED, true)
  }

  ghost predicate AllKept(c: Coordinator) {
    forall i :: 0 <= i < |c.admitted| ==> c.admitted[i].after <= |c.merges| && Kept(c, c.admitted[i])
  }

  /** A merge record says what the scheduler merges for a submitted reason. */
  lemma MergeOfIsWhatIsMerged(scheduler: S.Scheduler, now: Instant, given: WatchedSet, reason: Reason, truthLost: bool)
    ensures var m := MergeOf(scheduler, given, reason, truthLost);
            && S.Merged(scheduler, S.SubmitHint(now, given, reason, truthLost)) == {m.reason}
            && (S.LosesTruth(scheduler, S.SubmitHint(now, given, reason, truthLost)) <==> m.truthLost)
  {
  }

  lemma SubmitKeepsSet(scheduler: S.Scheduler, now: Instant, given: WatchedSet, reason: Reason, truthLost: bool)
    requires S.Sound(scheduler) && scheduler.watchedSet.Some?
    ensures var t := S.SubmitHintStep(scheduler, now, given, reason, truthLost);
            S.Sound(t) && t.watchedSet == scheduler.watchedSet
  {
    S.StepKeepsSound(scheduler, S.SubmitHint(now, given, reason, truthLost));
  }

  lemma {:induction false} SubmitAllKeepsSet(scheduler: S.Scheduler, now: Instant, given: WatchedSet, taken: Slots, reasons: seq<Reason>)
    requires S.Sound(scheduler) && scheduler.watchedSet.Some?
    ensures var t := SubmitAll(scheduler, now, given, taken, reasons); S.Sound(t) && t.watchedSet == scheduler.watchedSet
    decreases |reasons|
  {
    hide S.Sound, S.SubmitHintStep;
    if reasons != [] {
      SubmitKeepsSet(scheduler, now, given, reasons[0], BatchTruthLost(taken, reasons[0]));
      SubmitAllKeepsSet(S.SubmitHintStep(scheduler, now, given, reasons[0], BatchTruthLost(taken, reasons[0])),
                        now, given, taken, reasons[1..]);
    }
  }

  lemma PreparedKeepsSound(taken: Slots, scheduler: S.Scheduler, now: Instant)
    requires S.Sound(scheduler) && scheduler.watchedSet.Some?
    ensures var t := Prepared(taken, scheduler, now); S.Sound(t) && t.watchedSet.Some?
    ensures taken.watchedSet.Some? ==> Prepared(taken, scheduler, now).watchedSet == Some(taken.watchedSet.value)
    ensures taken.watchedSet.None? ==> Prepared(taken, scheduler, now).watchedSet == scheduler.watchedSet
  {
    var focused := if taken.focus.Some? then
                     S.SetFocusedStep(scheduler, now, taken.focus.value.focused, taken.focus.value.localSession)
                   else scheduler;
    if taken.focus.Some? {
      S.StepKeepsSound(scheduler, S.SetFocused(now, taken.focus.value.focused, taken.focus.value.localSession));
    }
    if taken.watchedSet.Some? {
      S.StepKeepsSound(focused, S.SetWatchedSet(now, taken.watchedSet.value));
    }
  }

  /** Merge records of a batch, reason by reason: every reason is merged as itself
      exactly when the batch's set is the scheduler's. */
  lemma {:induction false} MergesAt(scheduler: S.Scheduler, given: WatchedSet, taken: Slots, reasons: seq<Reason>, i: nat)
    requires i < |reasons| && scheduler.watchedSet.Some?
    ensures |MergesOf(scheduler, given, taken, reasons)| == |reasons|
    ensures MergesOf(scheduler, given, taken, reasons)[i] ==
            if scheduler.watchedSet.value == given then Merge(reasons[i], BatchTruthLost(taken, reasons[i]))
            else Merge(S.WATCHED_SET_CHANGED, true)
    decreases |reasons|
  {
    MergesLength(scheduler, given, taken, reasons);
    if i > 0 {
      MergesAt(scheduler, given, taken, reasons[1..], i - 1);
    }
  }

  lemma {:induction false} MergesLength(scheduler: S.Scheduler, given: WatchedSet, taken: Slots, reasons: seq<Reason>)
    ensures |MergesOf(scheduler, given, taken, reasons)| == |reasons|
    decreases |reasons|
  {
    if reasons != [] { MergesLength(scheduler, given, taken, reasons[1..]); }
  }

  lemma BatchMergesWhatItHolds(c: Coordinator, taken: Slots, now: Instant, a: Admitted)
    requires S.Sound(c.scheduler) && c.scheduler.watchedSet.Some? && Holds(taken, a) && a.after <= |c.merges|
    ensures exists k :: a.after <= k < |MergeStep(c, taken, now).merges| && Stands(MergeStep(c, taken, now).merges[k], a)
  {
    hide S.Sound, S.ReasonsFrom, SubmitAll, MergesOf;
    PreparedKeepsSound(taken, c.scheduler, now);
    var reasons := S.ReasonsFrom(taken.bits, 0);
    S.ReasonsAreThePendingOnes(taken.bits, 0);
    assert a.reason in reasons;
    var i :| 0 <= i < |reasons| && reasons[i] == a.reason;
    var prepared, given := Prepared(taken, c.scheduler, now), BatchSet(taken, c.scheduler).value;
    MergesAt(prepared, given, taken, reasons, i);
    assert Stands(MergeStep(c, taken, now).merges[|c.merges| + i], a);
  }

  /** When a drained batch is merged its reasons stand as themselves exactly when
      it brings a set of its own, has no hint, or has a hint of the current set. */
  lemma BatchStandsAsItselfIff(taken: Slots, scheduler: S.Scheduler, now: Instant)
    requires S.Sound(scheduler) && scheduler.watchedSet.Some?
    ensures Prepared(taken, scheduler, now).watchedSet == Some(BatchSet(taken, scheduler).value) <==>
            taken.watchedSet.Some? || taken.hint.None? || scheduler.watchedSet == Some(taken.hint.value.watchedSet)
  {
    hide S.Sound;
    PreparedKeepsSound(taken, scheduler, now);
  }

  lemma MergeStepKeepsAwake(c: Coordinator, now: Instant)
    requires Awake(c) && c.pc.Merging?
    ensures Awake(MergeStep(c, c.pc.taken, now))
  {
    hide S.Sound, S.ReasonsFrom, SubmitAll, MergesOf, S.NextDue, Prepared;
    var taken := c.pc.taken;
    PreparedKeepsSound(taken, c.scheduler, now);
    SubmitAllKeepsSet(Prepared(taken, c.scheduler, now), now, BatchSet(taken, c.scheduler).value, taken,
                      S.ReasonsFrom(taken.bits, 0));
  }

  lemma EmitDueKeepsAwake(c: Coordinator, now: Instant, later: Instant)
    requires Awake(c) && c.pc == Emitting
    ensures Awake(EmitDueStep(c, now, later))
  {
    hide S.Sound, S.Fires, S.NextDue;
    S.StepKeepsSound(c.scheduler, S.Due(now));
    DueKeepsSet(c.scheduler, now);
  }

  lemma DueKeepsSet(scheduler: S.Scheduler, now: Instant)
    ensures S.DueStep(scheduler, now).watchedSet == scheduler.watchedSet
  {
  }

  lemma StepKeepsAwake(c: Coordinator, a: Action)
    requires Awake(c)
    ensures Awake(Step(c, a))
  {
    hide S.Sound, S.NextDue, MergeStep, EmitDueStep, S.SubmitHintStep, S.CompleteStep;
    match a
    case MergeTaken(now) => if c.pc.Merging? { MergeStepKeepsAwake(c, now); }
    case EmitDue(now, later) => if c.pc == Emitting { EmitDueKeepsAwake(c, now, later); }
    case WatcherHint(now, hint) => SubmitKeepsSet(c.scheduler, now, hint.watchedSet, hint.reason, hint.truthLost);
    case WatcherClosed(now) => SubmitKeepsSet(c.scheduler, now, c.scheduler.watchedSet.value, WATCHER_CLOSED, true);
    case TakeCompletion(now) =>
      if c.complete.Some? {
        S.StepKeepsSound(c.scheduler, S.Complete(now, c.complete.value));
        CompleteKeepsSet(c.scheduler, now, c.complete.value);
      }
    case _ =>
  }

  lemma CompleteKeepsSet(scheduler: S.Scheduler, now: Instant, ticket: nat)
    ensures S.CompleteStep(scheduler, now, ticket).watchedSet == scheduler.watchedSet
  {
  }

  lemma StaysKept(c: Coordinator, d: Coordinator, a: Admitted)
    requires Kept(c, a)
    requires Holds(c.slots, a) ==> Holds(d.slots, a) || (d.pc.Merging? && Holds(d.pc.taken, a))
    requires c.pc.Merging? && Holds(c.pc.taken, a) ==>
               (d.pc.Merging? && Holds(d.pc.taken, a)) || exists k :: a.after <= k < |d.merges| && Stands(d.merges[k], a)
    requires c.merges <= d.merges
    ensures Kept(d, a)
  {
    if exists k :: a.after <= k < |c.merges| && Stands(c.merges[k], a) {
      var k :| a.after <= k < |c.merges| && Stands(c.merges[k], a);
      assert d.merges[k] == c.merges[k];
    }
  }

  lemma StepKeepsOne(c: Coordinator, a: Action, input: Admitted)
    requires Awake(c) && Kept(c, input) && input.after <= |c.merges|
    ensures Kept(Step(c, a), input)
  {
    hide S.Sound, S.NextDue, EmitDueStep, S.SubmitHintStep, S.CompleteStep, MergeStep, Kept;
    if a.MergeTaken? && c.pc.Merging? {
      if Holds(c.pc.taken, input) {
        BatchMergesWhatItHolds(c, c.pc.taken, a.now, input);
      }
      MergeStepOnlyAppends(c, c.pc.taken, a.now);
    } else if a.EmitDue? && c.pc == Emitting {
      EmitDueKeepsRest(c, a.now, a.later);
    }
    StaysKept(c, Step(c, a), input);
  }

  lemma MergeStepOnlyAppends(c: Coordinator, taken: Slots, now: Instant)
    ensures var d := MergeStep(c, taken, now); c.merges <= d.merges && d.slots == c.slots && d.admitted == c.admitted
  {
  }

  lemma EmitDueKeepsRest(c: Coordinator, now: Instant, later: Instant)
    ensures var d := EmitDueStep(c, now, later);
            d.merges == c.merges && d.slots == c.slots && d.admitted == c.admitted && !d.pc.Merging?
  {
  }

  /** The newly admitted input, if any, is held by the slots. */
  lemma AdmissionIsHeld(c: Coordinator, a: Action)
    ensures var d := Step(c, a);
            && c.merges <= d.merges
            && (d.admitted == c.admitted ||
                (d.admitted == c.admitted + [d.admitted[|d.admitted| - 1]] &&
                 d.admitted[|d.admitted| - 1].after == |d.merges| && Holds(d.slots, d.admitted[|d.admitted| - 1])))
  {
    hide S.Sound, S.NextDue, EmitDueStep, S.SubmitHintStep, S.CompleteStep, MergeStep;
    if a.MergeTaken? && c.pc.Merging? {
      MergeStepOnlyAppends(c, c.pc.taken, a.now);
    } else if a.EmitDue? && c.pc == Emitting {
      EmitDueKeepsRest(c, a.now, a.later);
    }
  }

  lemma StepKeepsAll(c: Coordinator, a: Action)
    requires Awake(c) && AllKept(c)
    ensures AllKept(Step(c, a))
  {
    hide Awake, Step, Holds;
    AdmissionIsHeld(c, a);
    forall i | 0 <= i < |c.admitted| ensures Kept(Step(c, a), c.admitted[i]) {
      StepKeepsOne(c, a, c.admitted[i]);
    }
  }

  lemma {:induction false} RunKeepsInputs(c: Coordinator, actions: seq<Action>)
    requires Awake(c) && AllKept(c)
    ensures Awake(Run(c, actions)) && AllKept(Run(c, actions))
    decreases |actions|
  {
    hide Awake, AllKept, Step;
    if actions != [] {
      StepKeepsAwake(c, actions[0]);
      StepKeepsAll(c, actions[0]);
      RunKeepsInputs(Step(c, actions[0]), actions[1..]);
    }
  }

  lemma StartedIsAwake(config: S.Config, watchedSet: WatchedSet, now: Instant)
    requires S.ValidConfig(config)
    ensures Awake(Started(config, watchedSet, now)) && AllKept(Started(config, watchedSet, now))
  {
  }

  /** Over every interleaving no admitted input is forgotten: it waits in the
      slots with a wake token or a drain about to run, it is in the loop's hands,
      or it was merged after its admission. */
  lemma NoInputIsForgotten(config: S.Config, watchedSet: WatchedSet, start: Instant, actions: seq<Action>, i: nat)
    requires S.ValidConfig(config)
    requires i < |Run(Started(config, watchedSet, start), actions).admitted|
    ensures var c := Run(Started(config, watchedSet, start), actions);
            var input := c.admitted[i];
            || (Holds(c.slots, input) && (c.wake || c.pc == Draining || (c.pc == Stopped && c.closed)))
            || (c.pc.Merging? && Holds(c.pc.taken, input))
            || exists k :: input.after <= k < |c.merges| && Stands(c.merges[k], input)
  {
    hide Run, Started, S.ValidConfig, S.Sound, S.NextDue;
    StartedIsAwake(config, watchedSet, start);
    RunKeepsInputs(Started(config, watchedSet, start), actions);
  }

  // ---------------------------------------------------------------------
  // The coordinator as an object
  // ---------------------------------------------------------------------

  /** Each producer method is one critical section; `DrainInput` is the critical
      section that empties the slots, followed by the merge outside the lock. */
  class RefreshCoordinator {
    const scheduler: S.RefreshScheduler
    var closed: bool
    var inputBits: set<Reason>
    var inputTruthLost: bool
    var inputFocus: Option<Focus>
    var inputSet: Option<WatchedSet>
    var inputHint: Option<Hint>
    var wake: bool
    var complete: Option<nat>
    var requests: Option<S.Request>
    var timer: nat
    var armedAt: nat
    ghost var merges: seq<Merge>
    ghost var admitted: seq<Admitted>

    constructor (scheduler: S.RefreshScheduler)
      ensures this.scheduler == scheduler && View(Idle).slots == EMPTY && !closed && !wake
      ensures merges == [] && admitted == [] && complete == None && requests == None
    {
      this.scheduler := scheduler;
      closed, inputBits, inputTruthLost, inputFocus, inputSet, inputHint := false, {}, false, None, None, None;
      wake, complete, requests, merges, admitted := false, None, None, [], [];
      timer, armedAt := 0, 0;
    }

    /** The machine's state with the loop at `pc`. */
    ghost function View(pc: Pc): Coordinator
      reads this, scheduler
    {
      Coordinator(closed, Slots(inputBits, inputTruthLost, inputFocus, inputSet, inputHint), wake, complete, requests, pc,
                  scheduler.View(), timer, armedAt, merges, admitted)
    }

    method Enqueue(reason: Reason, truthLost: bool) returns (ok: bool)
      modifies this
      ensures View(Idle) == Step(old(View(Idle)), Action.Enqueue(reason, truthLost))
      ensures ok <==> !old(closed)
    {
      if closed {
        return false;
      }
      inputBits, inputTruthLost, wake := inputBits + {reason}, inputTruthLost || truthLost, true;
      admitted := admitted + [Admitted(reason, truthLost, |merges|)];
      return true;
    }

    method SubmitHint(hint: Hint) returns (ok: bool)
      modifies this
      ensures View(Idle) == Step(old(View(Idle)), Action.SubmitHint(hint))
      ensures ok <==> !old(closed)
    {
      if closed {
        return false;
      }
      if inputHint.None? {
        inputHint := Some(hint);
      } else if inputHint.value.watchedSet != hint.watchedSet {
        inputHint, inputBits, inputTruthLost := Some(hint), inputBits + {S.WATCHED_SET_CHANGED}, true;
      }
      inputBits, inputTruthLost, wake := inputBits + {hint.reason}, inputTruthLost || hint.truthLost, true;
      admitted := admitted + [Admitted(hint.reason, hint.truthLost, |merges|)];
      return true;
    }

    method SetFocused(focused: bool, localSession: bool) returns (ok: bool)
      modifies this`inputFocus, this`wake
      ensures View(Idle) == Step(old(View(Idle)), Action.SetFocused(Focus(focused, localSession)))
      ensures ok <==> !closed
    {
      if closed {
        return false;
      }
      inputFocus, wake := Some(Focus(focused, localSession)), true;
      return true;
    }

    /** The second critical section of a replacement, after the watcher's answer. */
    method FinishReplace(given: WatchedSet) returns (ok: bool)
      modifies this
      ensures View(Idle) == Step(old(View(Idle)), Action.FinishReplace(given))
      ensures ok <==> !old(closed)
    {
      if closed {
        return false;
      }
      inputBits, inputSet, inputTruthLost, wake := inputBits + {S.WATCHED_SET_CHANGED}, Some(given), true, true;
      admitted := admitted + [Admitted(S.WATCHED_SET_CHANGED, true, |merges|)];
      return true;
    }

    /** One completion waits at a time. */
    method SubmitCompletion(ticket: nat) returns (ok: bool)
      modifies this`complete
      ensures View(Idle) == Step(old(View(Idle)), Action.SubmitCompletion(ticket))
      ensures ok <==> ticket != 0 && !closed && old(complete).None?
    {
      if ticket == 0 || closed || complete.Some? {
        return false;
      }
      complete := Some(ticket);
      return true;
    }

    /** The loop is handed a watcher hint. */
    method TakeWatcherHint(now: Instant, hint: Hint)
      modifies this`merges, scheduler
      ensures View(Emitting) == Step(old(View(Idle)), Action.WatcherHint(now, hint))
    {
      merges := merges + [MergeOf(scheduler.View(), hint.watchedSet, hint.reason, hint.truthLost)];
      var _ := scheduler.SubmitHint(now, hint.watchedSet, hint.reason, hint.truthLost);
    }

    /** The watcher's hints have ended: truth is lost. */
    method TakeWatcherClosed(now: Instant)
      requires scheduler.watchedSet.Some?
      modifies this`merges, scheduler
      ensures View(Emitting) == Step(old(View(Idle)), Action.WatcherClosed(now))
    {
      var given := scheduler.watchedSet.value;
      merges := merges + [MergeOf(scheduler.View(), given, WATCHER_CLOSED, true)];
      var _ := scheduler.SubmitHint(now, given, WATCHER_CLOSED, true);
    }

    method TakeCompletion(now: Instant)
      requires complete.Some?
      modifies this`complete, scheduler
      ensures View(Emitting) == Step(old(View(Idle)), Action.TakeCompletion(now))
    {
      var _ := scheduler.Complete(now, complete.value);
      complete := None;
    }

    /** Emits if due and arms the timer for what comes next. */
    method EmitDue(now: Instant, later: Instant) returns (request: Option<S.Request>)
      modifies this`timer, this`armedAt, scheduler
      ensures View(if request.Some? then Sending(request.value) else Idle) ==
              Step(old(View(Emitting)), Action.EmitDue(now, later))
    {
      var ticket;
      request, ticket := scheduler.Due(now);
      var next := scheduler.NextDueAt();
      armedAt := later;
      if next == 0 {
        timer := later + DAY;
      } else {
        timer := if next > later then next else later + 1;
      }
    }

    /** Empties the slots under the lock. */
    method TakeSlots() returns (taken: Slots)
      modifies this`inputBits, this`inputTruthLost, this`inputFocus, this`inputSet, this`inputHint
      ensures View(Merging(taken)) == Step(old(View(Draining)), Action.Drain)
    {
      taken := Slots(inputBits, inputTruthLost, inputFocus, inputSet, inputHint);
      inputBits, inputTruthLost, inputFocus, inputSet, inputHint := {}, false, None, None, None;
    }

    method DrainInput(now: Instant)
      modifies this, scheduler
      ensures View(Emitting) == Step(Step(old(View(Draining)), Action.Drain), Action.MergeTaken(now))
    {
      hide S.ReasonsFrom, Prepared, BatchSet, SubmitAll, MergesOf;
      var taken := TakeSlots();
      var current := PrepareScheduler(now, taken);
      if current.Some? {
        SubmitReasons(now, current.value, taken);
      }
    }

    /** Hands focus and watched set of the taken batch to the scheduler. */
    method PrepareScheduler(now: Instant, taken: Slots) returns (current: Option<WatchedSet>)
      modifies scheduler
      ensures scheduler.View() == Prepared(taken, old(scheduler.View()), now) && current == BatchSet(taken, old(scheduler.View()))
    {
      ghost var start := scheduler.View();
      if taken.focus.Some? {
        var _ := scheduler.SetFocused(now, taken.focus.value.focused, taken.focus.value.localSession);
      }
      current := if scheduler.watchedSet.Some? then Some(scheduler.watchedSet.value) else None;
      if taken.watchedSet.Some? {
        var _ := scheduler.SetWatchedSet(now, taken.watchedSet.value);
        current := taken.watchedSet;
      } else if taken.hint.Some? {
        current := Some(taken.hint.value.watchedSet);
      }
      FocusKeepsSet(taken, start, now);
    }

    lemma FocusKeepsSet(taken: Slots, start: S.Scheduler, now: Instant)
      ensures taken.watchedSet.None? ==> Prepared(taken, start, now).watchedSet == start.watchedSet
    {
    }

    method SubmitReasons(now: Instant, given: WatchedSet, taken: Slots)
      modifies this`merges, scheduler
      ensures scheduler.View() == SubmitAll(old(scheduler.View()), now, given, taken, S.ReasonsFrom(taken.bits, 0))
      ensures merges == old(merges) + MergesOf(old(scheduler.View()), given, taken, S.ReasonsFrom(taken.bits, 0))
    {
      hide S.ReasonsFrom, S.SubmitHintStep, MergesOf;
      var reasons := S.ReasonsFrom(taken.bits, 0);
      merges := merges + MergesOf(scheduler.View(), given, taken, reasons);
      var i := 0;
      while i < |reasons|
        invariant i <= |reasons|
        invariant SubmitAll(scheduler.View(), now, given, taken, reasons[i..]) ==
                  SubmitAll(old(scheduler.View()), now, given, taken, reasons)
        modifies scheduler
      {
        var truthLost := taken.truthLost;
        if taken.hint.Some? && reasons[i] == taken.hint.value.reason {
          truthLost := taken.hint.value.truthLost || truthLost;
        }
        var _ := scheduler.SubmitHint(now, given, reasons[i], truthLost);
        i := i + 1;
      }
    }
  }
}
