/** What the coordinator hands on: the scheduler inside it is driven by exactly the
    inputs that were taken, and every request it emits reaches the consumer. */
module RefreshDelivery {
  import S = RefreshScheduler
  import opened Wrappers
  import opened RefreshCoordinator

  // ---------------------------------------------------------------------
  // What drives the scheduler
  // ---------------------------------------------------------------------

  function SubmissionsOf(now: Instant, given: WatchedSet, taken: Slots, reasons: seq<Reason>): seq<S.Action>
    decreases |reasons|
  {
    if reasons == [] then []
    else
      var truthLost := taken.truthLost ||
        (taken.hint.Some? && taken.hint.value.reason == reasons[0] && taken.hint.value.truthLost);
      [S.SubmitHint(now, given, reasons[0], truthLost)] + SubmissionsOf(now, given, taken, reasons[1..])
  }

  /** The scheduler's actions for a drained batch: its focus, its set, and each of its
      reasons under the set of the batch, else of its hint, else of the scheduler. */
  function BatchActions(taken: Slots, current: Option<WatchedSet>, now: Instant): seq<S.Action> {
    var given := if taken.watchedSet.Some? then taken.watchedSet
                 else if taken.hint.Some? then Some(taken.hint.value.watchedSet) else current;
    (if taken.focus.Some? then [S.SetFocused(now, taken.focus.value.focused, taken.focus.value.localSession)] else [])
    + (if taken.watchedSet.Some? then [S.SetWatchedSet(now, taken.watchedSet.value)] else [])
    + (if given.Some? then SubmissionsOf(now, given.value, taken, S.ReasonsFrom(taken.bits, 0)) else [])
  }

  /** The scheduler's actions for one action of the loop. */
  function Driven(c: Coordinator, a: Action): seq<S.Action> {
    match a
    case MergeTaken(now) => if c.pc.Merging? then BatchActions(c.pc.taken, c.scheduler.watchedSet, now) else []
    case WatcherHint(now, hint) => if c.pc == Idle then [S.SubmitHint(now, hint.watchedSet, hint.reason, hint.truthLost)] else []
    case WatcherClosed(now) =>
      if c.pc == Idle && c.scheduler.watchedSet.Some? then [S.SubmitHint(now, c.scheduler.watchedSet.value, WATCHER_CLOSED, true)] else []
    case TakeCompletion(now) => if c.pc == Idle && c.complete.Some? then [S.Complete(now, c.complete.value)] else []
    case EmitDue(now, _) => if c.pc == Emitting then [S.Due(now)] else []
    case _ => []
  }

  function AllDriven(c: Coordinator, actions: seq<Action>): seq<S.Action>
    decreases |actions|
  {
    if actions == [] then [] else Driven(c, actions[0]) + AllDriven(Step(c, actions[0]), actions[1..])
  }

  lemma {:induction false} SchedulerRunConcat(s: S.Scheduler, first: seq<S.Action>, second: seq<S.Action>)
    ensures S.Run(s, first + second) == S.Run(S.Run(s, first), second)
    decreases |first|
  {
    hide S.Step;
    if first == [] {
      assert first + second == second;
    } else {
      assert (first + second)[1..] == first[1..] + second;
      SchedulerRunConcat(S.Step(s, first[0]), first[1..], second);
    }
  }

  lemma SchedulerRunOne(s: S.Scheduler, a: S.Action)
    ensures S.Run(s, [a]) == S.Step(s, a)
    ensures S.Run(s, []) == s
  {
    hide S.Step;
  }

  lemma {:induction false} SubmissionsDrive(s: S.Scheduler, now: Instant, given: WatchedSet, taken: Slots, reasons: seq<Reason>)
    ensures SubmitAll(s, now, given, taken, reasons) == S.Run(s, SubmissionsOf(now, given, taken, reasons))
    decreases |reasons|
  {
    hide S.SubmitHintStep;
    if reasons != [] {
      var truthLost := BatchTruthLost(taken, reasons[0]);
      var rest := SubmissionsOf(now, given, taken, reasons[1..]);
      SubmissionsDrive(S.SubmitHintStep(s, now, given, reasons[0], truthLost), now, given, taken, reasons[1..]);
      SchedulerRunConcat(s, [S.SubmitHint(now, given, reasons[0], truthLost)], rest);
      SchedulerRunOne(s, S.SubmitHint(now, given, reasons[0], truthLost));
    }
  }

  lemma BatchDrives(c: Coordinator, taken: Slots, now: Instant)
    ensures MergeStep(c, taken, now).scheduler == S.Run(c.scheduler, BatchActions(taken, c.scheduler.watchedSet, now))
  {
    hide S.Run, S.SubmitHintStep, S.SetFocusedStep, S.SetWatchedSetStep, SubmissionsOf, SubmitAll, S.ReasonsFrom, MergesOf;
    var s := c.scheduler;
    var focus := if taken.focus.Some? then [S.SetFocused(now, taken.focus.value.focused, taken.focus.value.localSession)] else [];
    var install := if taken.watchedSet.Some? then [S.SetWatchedSet(now, taken.watchedSet.value)] else [];
    var given := BatchSet(taken, s);
    var reasons := S.ReasonsFrom(taken.bits, 0);
    var submissions := if given.Some? then SubmissionsOf(now, given.value, taken, reasons) else [];
    assert BatchActions(taken, s.watchedSet, now) == focus + install + submissions;
    var focused := S.Run(s, focus);
    SchedulerRunOne(s, S.SetFocused(now, if taken.focus.Some? then taken.focus.value.focused else true,
                                    if taken.focus.Some? then taken.focus.value.localSession else true));
    if taken.watchedSet.Some? {
      SchedulerRunOne(focused, S.SetWatchedSet(now, taken.watchedSet.value));
    }
    RunsNothing(focused);
    assert S.Run(focused, install) == Prepared(taken, s, now);
    SchedulerRunConcat(s, focus, install);
    SchedulerRunConcat(s, focus + install, submissions);
    RunsNothing(Prepared(taken, s, now));
    if given.Some? {
      SubmissionsDrive(Prepared(taken, s, now), now, given.value, taken, reasons);
    }
  }

  lemma RunsNothing(s: S.Scheduler)
    ensures S.Run(s, []) == s
  {
  }

  lemma StepDrives(c: Coordinator, a: Action)
    ensures Step(c, a).scheduler == S.Run(c.scheduler, Driven(c, a))
  {
    hide S.Run, S.SubmitHintStep, S.DueStep, S.CompleteStep, BatchActions, MergeStep, S.Fires, S.NextDue, HintSlots;
    RunsNothing(c.scheduler);
    match a
    case MergeTaken(now) => if c.pc.Merging? { BatchDrives(c, c.pc.taken, now); }
    case WatcherHint(now, hint) => SchedulerRunOne(c.scheduler, S.SubmitHint(now, hint.watchedSet, hint.reason, hint.truthLost));
    case WatcherClosed(now) =>
      if c.scheduler.watchedSet.Some? {
        SchedulerRunOne(c.scheduler, S.SubmitHint(now, c.scheduler.watchedSet.value, WATCHER_CLOSED, true));
      }
    case TakeCompletion(now) => if c.complete.Some? { SchedulerRunOne(c.scheduler, S.Complete(now, c.complete.value)); }
    case EmitDue(now, later) => SchedulerRunOne(c.scheduler, S.Due(now));
    case _ =>
  }

  /** Over every interleaving the scheduler stands where a run of its own actions
      leaves it, and these are exactly the drained batches, watcher hints, completions
      and due instants that the loop took, in that order. */
  lemma {:induction false} TheSchedulerIsDriven(c: Coordinator, actions: seq<Action>)
    ensures Run(c, actions).scheduler == S.Run(c.scheduler, AllDriven(c, actions))
    decreases |actions|
  {
    hide Step, Driven, S.Run;
    RunsNothing(c.scheduler);
    if actions != [] {
      StepDrives(c, actions[0]);
      TheSchedulerIsDriven(Step(c, actions[0]), actions[1..]);
      SchedulerRunConcat(c.scheduler, Driven(c, actions[0]), AllDriven(Step(c, actions[0]), actions[1..]));
    }
  }

  /** So the loop emits exactly when a request is due by the times of what it took. */
  lemma TheLoopIsOnTime(config: S.Config, watchedSet: WatchedSet, start: Instant, actions: seq<Action>, now: Instant, later: Instant)
    requires S.ValidConfig(config) && Run(Started(config, watchedSet, start), actions).pc == Emitting
    ensures var c := Run(Started(config, watchedSet, start), actions);
            var taken := [S.SetWatchedSet(start, watchedSet)] + AllDriven(Started(config, watchedSet, start), actions);
            var log := S.Noted(S.New(config), S.NOTHING_NOTED, taken);
            && (log.latest.Some? ==> log.first.Some?)
            && (Step(c, EmitDue(now, later)).pc.Sending? <==> S.IsDue(config, log, now))
  {
    hide Run, S.Run, AllDriven, S.Noted, S.Fires, S.DueStep, S.NextDue, S.SetWatchedSetStep;
    var c0 := Started(config, watchedSet, start);
    TheSchedulerIsDriven(c0, actions);
    SchedulerRunOne(S.New(config), S.SetWatchedSet(start, watchedSet));
    SchedulerRunConcat(S.New(config), [S.SetWatchedSet(start, watchedSet)], AllDriven(c0, actions));
    S.RequestsAreOnTime(config, [S.SetWatchedSet(start, watchedSet)] + AllDriven(c0, actions), now);
  }

  /** The timer's tick makes a resting loop look: it then has the request that is due in
      hand, if one is. */
  lemma ATickLooks(c: Coordinator, now: Instant, later: Instant)
    requires c.pc == Idle
    ensures var t := Step(Step(c, Tick), EmitDue(now, later));
            && t.scheduler == S.Step(c.scheduler, S.Due(now))
            && (if S.Fires(c.scheduler, now) then t.pc.Sending? && t.pc.request == S.Emission(c.scheduler, now) else t.pc == Idle)
  {
    hide S.Fires, S.Emission, S.NextDue;
  }

  // ---------------------------------------------------------------------
  // What a batch holds
  // ---------------------------------------------------------------------

  /** The inputs accepted since the slots were last emptied. */
  function Gather(c: Coordinator, inputs: seq<Action>, a: Action): seq<Action> {
    if a == Drain && c.pc == Draining then []
    else if !c.closed && (a.Enqueue? || a.SubmitHint? || a.SetFocused? || a.FinishReplace?) then inputs + [a]
    else inputs
  }

  function Gathered(c: Coordinator, inputs: seq<Action>, actions: seq<Action>): seq<Action>
    decreases |actions|
  {
    if actions == [] then inputs else Gathered(Step(c, actions[0]), Gather(c, inputs, actions[0]), actions[1..])
  }

  predicate Gives(a: Action, reason: Reason) {
    || (a.Enqueue? && a.reason == reason) || (a.SubmitHint? && a.hint.reason == reason)
    || (a.FinishReplace? && reason == S.WATCHED_SET_CHANGED)
  }

  predicate Loses(a: Action) { (a.Enqueue? && a.truthLost) || (a.SubmitHint? && a.hint.truthLost) || a.FinishReplace? }

  ghost predicate SomeGives(inputs: seq<Action>, reason: Reason) { exists i :: 0 <= i < |inputs| && Gives(inputs[i], reason) }

  ghost predicate SomeLoses(inputs: seq<Action>) { exists i :: 0 <= i < |inputs| && Loses(inputs[i]) }

  function HintsOf(inputs: seq<Action>): seq<Hint> {
    if inputs == [] then []
    else HintsOf(inputs[..|inputs| - 1]) + if inputs[|inputs| - 1].SubmitHint? then [inputs[|inputs| - 1].hint] else []
  }

  /** Two hints speak of different sets. */
  ghost predicate HintsDiffer(hints: seq<Hint>) {
    exists i, j :: 0 <= i < j < |hints| && hints[i].watchedSet != hints[j].watchedSet
  }

  /** The first of those hints, at the end of the list, that speak of one set. */
  ghost predicate FirstOfLast(hints: seq<Hint>, i: nat) {
    && i < |hints| && (i == 0 || hints[i - 1].watchedSet != hints[i].watchedSet)
    && forall j :: i < j < |hints| ==> hints[j].watchedSet == hints[i].watchedSet
  }

  ghost predicate IsFirstOfLast(hints: seq<Hint>, hint: Hint) { exists i: nat :: i < |hints| && FirstOfLast(hints, i) && hints[i] == hint }

  ghost predicate LastFocus(inputs: seq<Action>, focus: Focus) {
    exists i :: 0 <= i < |inputs| && inputs[i] == SetFocused(focus) && forall j :: i < j < |inputs| ==> !inputs[j].SetFocused?
  }

  ghost predicate LastSet(inputs: seq<Action>, watchedSet: WatchedSet) {
    exists i :: 0 <= i < |inputs| && inputs[i] == FinishReplace(watchedSet) && forall j :: i < j < |inputs| ==> !inputs[j].FinishReplace?
  }

  /** The slots hold these inputs and nothing else: their reasons, and a changed set if
      hints disagree; lost truth if one of them lost it or hints disagree; the last focus
      and set; and the first of the last hints that agree. */
  ghost predicate Batch(slots: Slots, inputs: seq<Action>) {
    && (forall r: Reason :: r in slots.bits <==> SomeGives(inputs, r) || (r == S.WATCHED_SET_CHANGED && HintsDiffer(HintsOf(inputs))))
    && (slots.truthLost <==> SomeLoses(inputs) || HintsDiffer(HintsOf(inputs)))
    && BatchHint(slots.hint, HintsOf(inputs))
    && (if slots.focus.Some? then LastFocus(inputs, slots.focus.value) else forall i :: 0 <= i < |inputs| ==> !inputs[i].SetFocused?)
    && (if slots.watchedSet.Some? then LastSet(inputs, slots.watchedSet.value)
        else forall i :: 0 <= i < |inputs| ==> !inputs[i].FinishReplace?)
  }

  ghost predicate BatchHint(slot: Option<Hint>, hints: seq<Hint>) {
    if slot.Some? then IsFirstOfLast(hints, slot.value) else hints == []
  }

  lemma GivesNext(inputs: seq<Action>, a: Action)
    ensures forall r :: SomeGives(inputs + [a], r) <==> SomeGives(inputs, r) || Gives(a, r)
    ensures SomeLoses(inputs + [a]) <==> SomeLoses(inputs) || Loses(a)
  {
    var more := inputs + [a];
    assert forall i :: 0 <= i < |inputs| ==> more[i] == inputs[i];
    assert more[|inputs|] == a;
  }

  lemma HintsNext(inputs: seq<Action>, a: Action)
    ensures HintsOf(inputs + [a]) == if a.SubmitHint? then HintsOf(inputs) + [a.hint] else HintsOf(inputs)
  {
    assert (inputs + [a])[..|inputs|] == inputs;
  }

  lemma DifferNext(slot: Option<Hint>, hints: seq<Hint>, hint: Hint)
    requires BatchHint(slot, hints)
    ensures HintsDiffer(hints + [hint]) <==> HintsDiffer(hints) || (slot.Some? && slot.value.watchedSet != hint.watchedSet)
  {
    var more := hints + [hint];
    assert forall i :: 0 <= i < |hints| ==> more[i] == hints[i];
    if slot.Some? {
      var i: nat :| i < |hints| && FirstOfLast(hints, i) && hints[i] == slot.value;
      if HintsDiffer(hints) {
        var j, k :| 0 <= j < k < |hints| && hints[j].watchedSet != hints[k].watchedSet;
        assert more[j].watchedSet != more[k].watchedSet;
      } else if slot.value.watchedSet != hint.watchedSet {
        assert more[i].watchedSet != more[|hints|].watchedSet;
      } else {
        assert forall j :: 0 <= j < |hints| ==> hints[j].watchedSet == hints[i].watchedSet;
      }
    }
  }

  lemma HintNext(slots: Slots, hints: seq<Hint>, hint: Hint)
    requires BatchHint(slots.hint, hints)
    ensures BatchHint(HintSlots(slots, hint).hint, hints + [hint])
  {
    var more := hints + [hint];
    assert forall i :: 0 <= i < |hints| ==> more[i] == hints[i];
    if slots.hint.Some? {
      var i: nat :| i < |hints| && FirstOfLast(hints, i) && hints[i] == slots.hint.value;
      if hint.watchedSet != slots.hint.value.watchedSet {
        assert hints[|hints| - 1].watchedSet == hints[i].watchedSet;
        assert FirstOfLast(more, |hints|);
      } else {
        assert FirstOfLast(more, i);
      }
    } else {
      assert FirstOfLast(more, 0);
    }
  }

  lemma LastsNext(inputs: seq<Action>, a: Action)
    ensures forall f :: LastFocus(inputs + [a], f) <==> if a.SetFocused? then a == SetFocused(f) else LastFocus(inputs, f)
    ensures forall w :: LastSet(inputs + [a], w) <==> if a.FinishReplace? then a == FinishReplace(w) else LastSet(inputs, w)
  {
    var more := inputs + [a];
    assert forall i :: 0 <= i < |inputs| ==> more[i] == inputs[i];
    assert more[|inputs|] == a;
  }

  lemma BatchNext(c: Coordinator, inputs: seq<Action>, a: Action)
    requires Batch(c.slots, inputs) && !c.closed && (a.Enqueue? || a.SubmitHint? || a.SetFocused? || a.FinishReplace?)
    ensures Batch(Step(c, a).slots, inputs + [a])
  {
    hide BatchHint, HintsDiffer, HintsOf, SomeGives, SomeLoses, LastFocus, LastSet;
    GivesNext(inputs, a);
    HintsNext(inputs, a);
    LastsNext(inputs, a);
    if a.SubmitHint? {
      DifferNext(c.slots.hint, HintsOf(inputs), a.hint);
      HintNext(c.slots, HintsOf(inputs), a.hint);
    }
  }

  lemma StepBatches(c: Coordinator, inputs: seq<Action>, a: Action)
    requires Batch(c.slots, inputs)
    ensures Batch(Step(c, a).slots, Gather(c, inputs, a))
  {
    hide Batch, HintSlots, MergeStep, EmitDueStep, WatcherStep, S.CompleteStep;
    if !c.closed && (a.Enqueue? || a.SubmitHint? || a.SetFocused? || a.FinishReplace?) {
      BatchNext(c, inputs, a);
    } else if a == Drain && c.pc == Draining {
      AnEmptyBatch();
    } else {
      OtherStepsKeepSlots(c, a);
    }
  }

  lemma AnEmptyBatch()
    ensures Batch(EMPTY, [])
  {
  }

  /** Over every interleaving the slots, and so each batch that is drained from them, hold
      exactly the inputs accepted since the drain before; a closed coordinator accepts
      none. */
  lemma {:induction false} ABatchHoldsItsInputs(c: Coordinator, inputs: seq<Action>, actions: seq<Action>)
    requires Batch(c.slots, inputs)
    ensures Batch(Run(c, actions).slots, Gathered(c, inputs, actions))
    decreases |actions|
  {
    hide Step, Batch, Gather;
    if actions != [] {
      StepBatches(c, inputs, actions[0]);
      ABatchHoldsItsInputs(Step(c, actions[0]), Gather(c, inputs, actions[0]), actions[1..]);
    }
  }

  lemma OtherStepsKeepSlots(c: Coordinator, a: Action)
    requires !(a == Drain && c.pc == Draining)
    requires c.closed || !(a.Enqueue? || a.SubmitHint? || a.SetFocused? || a.FinishReplace?)
    ensures Step(c, a).slots == c.slots
  {
    hide S.Fires, S.NextDue, S.DueStep, SubmitAll, MergesOf, Prepared, S.SubmitHintStep, S.CompleteStep, MergeOf;
  }

  // ---------------------------------------------------------------------
  // Focus, watched set and completions
  // ---------------------------------------------------------------------

  /** The last accepted focus and watched set. */
  datatype Asked = Asked(focus: Option<Focus>, watchedSet: WatchedSet)

  function Ask(c: Coordinator, asked: Asked, a: Action): Asked {
    match a
    case SetFocused(focus) => if c.closed then asked else asked.(focus := Some(focus))
    case FinishReplace(watchedSet) => if c.closed then asked else asked.(watchedSet := watchedSet)
    case _ => asked
  }

  function LastAsked(c: Coordinator, asked: Asked, actions: seq<Action>): Asked
    decreases |actions|
  {
    if actions == [] then asked else LastAsked(Step(c, actions[0]), Ask(c, asked, actions[0]), actions[1..])
  }

  /** What the loop has in hand, if anything. */
  function InHand(pc: Pc): Slots { if pc.Merging? then pc.taken else EMPTY }

  /** The last focus and the last set wait in the slots, are in the loop's hands, or
      are the scheduler's. */
  ghost predicate Reaches(c: Coordinator, asked: Asked) {
    && c.scheduler.watchedSet.Some?
    && (if c.slots.focus.Some? then asked.focus == c.slots.focus
        else if InHand(c.pc).focus.Some? then asked.focus == InHand(c.pc).focus
        else asked.focus.Some? ==>
          (c.scheduler.focused, c.scheduler.localSession) == (asked.focus.value.focused, asked.focus.value.localSession))
    && (if c.slots.watchedSet.Some? then asked.watchedSet == c.slots.watchedSet.value
        else if InHand(c.pc).watchedSet.Some? then asked.watchedSet == InHand(c.pc).watchedSet.value
        else c.scheduler.watchedSet == Some(asked.watchedSet))
  }

  lemma {:induction false} SubmittingKeepsFocus(s: S.Scheduler, now: Instant, given: WatchedSet, taken: Slots, reasons: seq<Reason>)
    requires s.watchedSet.Some?
    ensures var t := SubmitAll(s, now, given, taken, reasons);
            t.watchedSet == s.watchedSet && t.focused == s.focused && t.localSession == s.localSession
    decreases |reasons|
  {
    if reasons != [] {
      SubmittingKeepsFocus(S.SubmitHintStep(s, now, given, reasons[0], BatchTruthLost(taken, reasons[0])), now, given, taken, reasons[1..]);
    }
  }

  lemma PreparingReaches(taken: Slots, s: S.Scheduler, now: Instant)
    requires s.watchedSet.Some?
    ensures var t := Prepared(taken, s, now);
            && t.watchedSet == (if taken.watchedSet.Some? then taken.watchedSet else s.watchedSet)
            && (t.focused, t.localSession) ==
               if taken.focus.Some? then (taken.focus.value.focused, taken.focus.value.localSession) else (s.focused, s.localSession)
  {
  }

  lemma MergingReaches(c: Coordinator, asked: Asked, now: Instant)
    requires Reaches(c, asked) && c.pc.Merging?
    ensures Reaches(MergeStep(c, c.pc.taken, now), asked)
  {
    hide SubmitAll, MergesOf, S.ReasonsFrom, Prepared;
    PreparingReaches(c.pc.taken, c.scheduler, now);
    SubmittingKeepsFocus(Prepared(c.pc.taken, c.scheduler, now), now, BatchSet(c.pc.taken, c.scheduler).value, c.pc.taken,
                         S.ReasonsFrom(c.pc.taken.bits, 0));
  }

  lemma LoopStepsKeepFocus(s: S.Scheduler, now: Instant, ticket: nat, given: WatchedSet, reason: Reason, truthLost: bool)
    requires s.watchedSet.Some?
    ensures forall t | t in {S.DueStep(s, now), S.CompleteStep(s, now, ticket), S.SubmitHintStep(s, now, given, reason, truthLost)} ::
              t.watchedSet == s.watchedSet && t.focused == s.focused && t.localSession == s.localSession
  {
  }

  lemma StepReaches(c: Coordinator, asked: Asked, a: Action)
    requires Reaches(c, asked)
    ensures Reaches(Step(c, a), Ask(c, asked, a))
  {
    hide MergeStep, MergeOf, HintSlots, S.Fires, S.NextDue, S.Emission, S.DueStep, S.CompleteStep, S.SubmitHintStep;
    var s := c.scheduler;
    match a
    case MergeTaken(now) => if c.pc.Merging? { MergingReaches(c, asked, now); }
    case WatcherHint(now, hint) => LoopStepsKeepFocus(s, now, 0, hint.watchedSet, hint.reason, hint.truthLost);
    case WatcherClosed(now) => LoopStepsKeepFocus(s, now, 0, s.watchedSet.value, WATCHER_CLOSED, true);
    case TakeCompletion(now) => if c.complete.Some? { LoopStepsKeepFocus(s, now, c.complete.value, s.watchedSet.value, 0, true); }
    case EmitDue(now, _) => LoopStepsKeepFocus(s, now, 0, s.watchedSet.value, 0, true);
    case _ => HintsKeepFocus(c.slots, a);
  }

  lemma HintsKeepFocus(slots: Slots, a: Action)
    ensures a.SubmitHint? ==> HintSlots(slots, a.hint).focus == slots.focus && HintSlots(slots, a.hint).watchedSet == slots.watchedSet
  {
  }

  lemma {:induction false} RunReaches(c: Coordinator, asked: Asked, actions: seq<Action>)
    requires Reaches(c, asked)
    ensures Reaches(Run(c, actions), LastAsked(c, asked, actions))
    decreases |actions|
  {
    hide Reaches, Step, Ask;
    if actions != [] {
      StepReaches(c, asked, actions[0]);
      RunReaches(Step(c, actions[0]), Ask(c, asked, actions[0]), actions[1..]);
    }
  }

  /** Over every interleaving: once the slots are drained and the loop has merged what
      it took, the scheduler has the last focus and the last set that were asked for. */
  lemma FocusAndSetReachTheScheduler(config: S.Config, watchedSet: WatchedSet, start: Instant, actions: seq<Action>)
    requires var c := Run(Started(config, watchedSet, start), actions); c.slots == EMPTY && !c.pc.Merging?
    ensures var c := Run(Started(config, watchedSet, start), actions);
            var asked := LastAsked(Started(config, watchedSet, start), Asked(None, watchedSet), actions);
            && c.scheduler.watchedSet == Some(asked.watchedSet)
            && (asked.focus.Some? ==>
                  (c.scheduler.focused, c.scheduler.localSession) == (asked.focus.value.focused, asked.focus.value.localSession))
  {
    hide Run, LastAsked;
    RunReaches(Started(config, watchedSet, start), Asked(None, watchedSet), actions);
  }

  /** A completion is taken up by an open coordinator that has none waiting. */
  lemma ACompletionIsTakenUpIff(c: Coordinator, ticket: nat)
    ensures var t := Step(c, SubmitCompletion(ticket));
            && t.complete == (if !c.closed && ticket != 0 && c.complete.None? then Some(ticket) else c.complete)
            && t == c.(complete := t.complete)
  {
  }

  /** A completion waits until the loop takes it, and then ends the request it names. */
  lemma ACompletionWaitsAndEnds(c: Coordinator, a: Action)
    requires S.Sound(c.scheduler) && c.complete.Some? && c.complete.value != 0
    ensures var t := Step(c, a);
            && (t.complete != c.complete <==> a.TakeCompletion? && c.pc == Idle)
            && (a.TakeCompletion? && c.pc == Idle ==>
                  t.complete.None? &&
                  (t.scheduler.active <==> c.scheduler.active && c.scheduler.activeTicket != c.complete.value))
  {
    hide SubmitAll, MergesOf, Prepared, S.ReasonsFrom, S.Fires, S.NextDue, S.DueStep, S.SubmitHintStep, HintSlots;
  }

  // ---------------------------------------------------------------------
  // Requests
  // ---------------------------------------------------------------------

  /** The requests that became due, and those the consumer received. */
  function DueRequests(c: Coordinator, actions: seq<Action>): seq<S.Request>
    decreases |actions|
  {
    if actions == [] then []
    else
      var a := actions[0];
      (if a.EmitDue? && c.pc == Emitting && S.Fires(c.scheduler, a.now) then [S.Emission(c.scheduler, a.now)] else [])
      + DueRequests(Step(c, a), actions[1..])
  }

  function Received(c: Coordinator, actions: seq<Action>): seq<S.Request>
    decreases |actions|
  {
    if actions == [] then []
    else
      (if actions[0] == Receive && c.requests.Some? then [c.requests.value] else [])
      + Received(Step(c, actions[0]), actions[1..])
  }

  /** What is on its way to the consumer. */
  function OnTheWay(c: Coordinator): seq<S.Request> {
    (if c.requests.Some? then [c.requests.value] else []) + (if c.pc.Sending? then [c.pc.request] else [])
  }

  lemma StepHandsOn(c: Coordinator, a: Action)
    requires a != Stop
    ensures (if a == Receive && c.requests.Some? then [c.requests.value] else []) + OnTheWay(Step(c, a)) ==
            OnTheWay(c) +
            if a.EmitDue? && c.pc == Emitting && S.Fires(c.scheduler, a.now) then [S.Emission(c.scheduler, a.now)] else []
  {
    hide SubmitAll, MergesOf, Prepared, S.ReasonsFrom, S.Fires, S.NextDue, S.DueStep, S.SubmitHintStep, S.CompleteStep, S.Emission, HintSlots;
    hide MergeOf, Admit;
    if a.Enqueue? || a.SubmitHint? || a.FinishReplace? {
      AdmittingHandsOnNothing(c, a);
    }
  }

  lemma AdmittingHandsOnNothing(c: Coordinator, a: Action)
    requires a.Enqueue? || a.SubmitHint? || a.FinishReplace?
    ensures OnTheWay(Step(c, a)) == OnTheWay(c)
  {
    hide HintSlots;
  }

  lemma Regroup<T>(out: seq<T>, received: seq<T>, end: seq<T>, way: seq<T>, due: seq<T>, later: seq<T>, before: seq<T>)
    requires out + way == before + due && received + end == way + later
    ensures (out + received) + end == before + (due + later)
  {
    assert (out + received) + end == out + (received + end) == out + (way + later) == (out + way) + later;
    assert (before + due) + later == before + (due + later);
  }

  /** As long as the loop is not stopped, every request that became due is received,
      or on its way, in order and once. */
  lemma {:induction false} RequestsAreHandedOver(c: Coordinator, actions: seq<Action>)
    requires Stop !in actions
    ensures Received(c, actions) + OnTheWay(Run(c, actions)) == OnTheWay(c) + DueRequests(c, actions)
    decreases |actions|
  {
    hide Step, OnTheWay, S.Fires, S.Emission;
    if actions == [] {
      assert [] + OnTheWay(c) == OnTheWay(c) + [];
    } else {
      var a, t := actions[0], Step(c, actions[0]);
      var out := if a == Receive && c.requests.Some? then [c.requests.value] else [];
      var due := if a.EmitDue? && c.pc == Emitting && S.Fires(c.scheduler, a.now) then [S.Emission(c.scheduler, a.now)] else [];
      StepHandsOn(c, a);
      RequestsAreHandedOver(t, actions[1..]);
      Regroup(out, Received(t, actions[1..]), OnTheWay(Run(t, actions[1..])), OnTheWay(t), due, DueRequests(t, actions[1..]),
              OnTheWay(c));
    }
  }
}
