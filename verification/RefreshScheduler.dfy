/** The debounce scheduler: hints are merged while a request is pending or
    active, and one request at a time is emitted when it is due. Times count from
    the zero time, which stands for "not set". */
module RefreshScheduler {
  import opened Wrappers

  type WatchedSet(==, !new)

  /** The fifteen refresh reasons, by their position in the fixed order. */
  const REASON_COUNT: nat := 15

  type Reason = r: nat | r < REASON_COUNT

  const MAXIMUM_AGE: Reason := 8
  const WATCHED_SET_CHANGED: Reason := 13

  type Time = nat

  datatype Config = Config(quietDelay: nat, maximumDelay: nat, focusedMaximumAge: nat)

  const AGE_LIMIT: nat := 30_000_000_000

  predicate ValidConfig(c: Config) {
    0 < c.quietDelay <= c.maximumDelay && 0 < c.focusedMaximumAge <= AGE_LIMIT
  }

  datatype Request = Request(watchedSet: WatchedSet, reasons: seq<Reason>, truthLost: bool, requestedAt: Time, sequence: nat)

  datatype Scheduler = Scheduler(
    config: Config, watchedSet: Option<WatchedSet>, focused: bool, localSession: bool,
    pending: set<Reason>, truthLost: bool, firstHintAt: Time, lastHintAt: Time, lastRefreshAt: Time,
    active: bool, activeTicket: nat, sequence: nat)

  datatype Action =
    | SetWatchedSet(now: Time, watchedSet: WatchedSet)
    | SetFocused(now: Time, focused: bool, localSession: bool)
    | SubmitHint(now: Time, watchedSet: WatchedSet, reason: Reason, truthLost: bool)
    | Due(now: Time)
    | Complete(now: Time, ticket: nat)

  // ---------------------------------------------------------------------
  // Steps
  // ---------------------------------------------------------------------

  function Merge(s: Scheduler, now: Time, reason: Reason, truthLost: bool): Scheduler {
    s.(firstHintAt := if s.pending == {} then now else s.firstHintAt, lastHintAt := now,
       pending := s.pending + {reason}, truthLost := s.truthLost || truthLost)
  }

  function SetWatchedSetStep(s: Scheduler, now: Time, watchedSet: WatchedSet): Scheduler {
    if now == 0 then s
    else if s.watchedSet.None? then s.(watchedSet := Some(watchedSet), lastRefreshAt := now)
    else if s.watchedSet == Some(watchedSet) then s
    else Merge(s.(watchedSet := Some(watchedSet)), now, WATCHED_SET_CHANGED, true)
  }

  function SetFocusedStep(s: Scheduler, now: Time, focused: bool, localSession: bool): Scheduler {
    if now == 0 || s.watchedSet.None? then s
    else
      var s := s.(focused := focused, localSession := localSession);
      if focused && localSession && s.lastRefreshAt == 0 then s.(lastRefreshAt := now) else s
  }

  function SubmitHintStep(s: Scheduler, now: Time, watchedSet: WatchedSet, reason: Reason, truthLost: bool): Scheduler {
    if now == 0 then s
    else if s.watchedSet.None? then Merge(SetWatchedSetStep(s, now, watchedSet), now, reason, truthLost)
    else if s.watchedSet != Some(watchedSet) then Merge(s, now, WATCHED_SET_CHANGED, true)
    else Merge(s, now, reason, truthLost)
  }

  function Min(a: nat, b: nat): nat { if a <= b then a else b }

  function HintDue(s: Scheduler): Time {
    Min(s.lastHintAt + s.config.quietDelay, s.firstHintAt + s.config.maximumDelay)
  }

  /** The next instant at which a request may be emitted, or zero. */
  function NextDue(s: Scheduler): Time {
    if s.watchedSet.None? || s.active then 0
    else
      var due := if s.pending != {} then HintDue(s) else 0;
      var ageDue := s.lastRefreshAt + s.config.focusedMaximumAge;
      if s.focused && s.localSession && (due == 0 || ageDue < due) then ageDue else due
  }

  predicate AgeDue(s: Scheduler, now: Time) {
    s.focused && s.localSession && s.lastRefreshAt + s.config.focusedMaximumAge <= now
  }

  /** A due age joins the pending reasons. */
  function Aged(s: Scheduler, now: Time): Scheduler {
    if !AgeDue(s, now) then s
    else
      var pending := s.pending + {MAXIMUM_AGE};
      s.(pending := pending, firstHintAt := if pending == {MAXIMUM_AGE} then now else s.firstHintAt, lastHintAt := now)
  }

  /** The reasons from position `from` on, in the fixed order. */
  function ReasonsFrom(pending: set<Reason>, from: nat): seq<Reason>
    requires from <= REASON_COUNT
    decreases REASON_COUNT - from
  {
    if from == REASON_COUNT then []
    else (if from in pending then [from] else []) + ReasonsFrom(pending, from + 1)
  }

  lemma NextReason(pending: set<Reason>, index: nat)
    requires index < REASON_COUNT
    ensures ReasonsFrom(pending, index) == (if index in pending then [index] else []) + ReasonsFrom(pending, index + 1)
  {
  }

  lemma NoReasonLeft(pending: set<Reason>, index: nat)
    requires index == REASON_COUNT
    ensures ReasonsFrom(pending, index) == []
  {
  }

  predicate Fires(s: Scheduler, now: Time) {
    && s.watchedSet.Some? && !s.active && now != 0
    && (var t := Aged(s, now);
        && t.pending != {}
        && (AgeDue(s, now) || t.lastHintAt + s.config.quietDelay <= now || t.firstHintAt + s.config.maximumDelay <= now))
  }

  function Emission(s: Scheduler, now: Time): Request
    requires Fires(s, now)
  {
    Request(s.watchedSet.value, ReasonsFrom(Aged(s, now).pending, 0), s.truthLost, now, s.sequence + 1)
  }

  function DueStep(s: Scheduler, now: Time): Scheduler {
    if s.watchedSet.None? || s.active || now == 0 then s
    else if !Fires(s, now) then Aged(s, now)
    else s.(sequence := s.sequence + 1, activeTicket := s.sequence + 1, active := true, lastRefreshAt := now,
            pending := {}, truthLost := false, firstHintAt := 0, lastHintAt := 0)
  }

  predicate Completes(s: Scheduler, now: Time, ticket: nat) {
    now != 0 && s.active && ticket != 0 && ticket == s.activeTicket
  }

  function CompleteStep(s: Scheduler, now: Time, ticket: nat): Scheduler {
    if Completes(s, now, ticket) then s.(active := false, activeTicket := 0) else s
  }

  function Step(s: Scheduler, a: Action): Scheduler {
    match a
    case SetWatchedSet(now, watchedSet) => SetWatchedSetStep(s, now, watchedSet)
    case SetFocused(now, focused, localSession) => SetFocusedStep(s, now, focused, localSession)
    case SubmitHint(now, watchedSet, reason, truthLost) => SubmitHintStep(s, now, watchedSet, reason, truthLost)
    case Due(now) => DueStep(s, now)
    case Complete(now, ticket) => CompleteStep(s, now, ticket)
  }

  function Run(s: Scheduler, actions: seq<Action>): Scheduler
    decreases |actions|
  {
    if actions == [] then s else Run(Step(s, actions[0]), actions[1..])
  }

  function New(config: Config): Scheduler {
    Scheduler(config, None, false, false, {}, false, 0, 0, 0, false, 0, 0)
  }

  // ---------------------------------------------------------------------
  // The state every run is in
  // ---------------------------------------------------------------------

  ghost predicate Sound(s: Scheduler) {
    && ValidConfig(s.config)
    && (s.watchedSet.Some? ==> s.lastRefreshAt != 0)
    && (s.watchedSet.None? ==> s.pending == {} && !s.active && s.sequence == 0)
    && (s.pending == {} <==> s.firstHintAt == 0) && (s.pending == {} <==> s.lastHintAt == 0)
    && (s.pending == {} ==> !s.truthLost)
    && (if s.active then s.activeTicket == s.sequence != 0 else s.activeTicket == 0)
  }

  lemma StepKeepsSound(s: Scheduler, a: Action)
    requires Sound(s)
    ensures Sound(Step(s, a)) && Step(s, a).config == s.config
  {
  }

  /** A request is emitted exactly when the next due instant is set and reached. */
  lemma FiresExactlyWhenDue(s: Scheduler, now: Time)
    requires Sound(s) && now != 0
    ensures Fires(s, now) <==> NextDue(s) != 0 && NextDue(s) <= now
  {
  }

  lemma {:induction false} RunKeepsSound(s: Scheduler, actions: seq<Action>)
    requires Sound(s)
    ensures Sound(Run(s, actions)) && Run(s, actions).config == s.config
    decreases |actions|
  {
    hide Sound, Step;
    if actions != [] {
      StepKeepsSound(s, actions[0]);
      RunKeepsSound(Step(s, actions[0]), actions[1..]);
    }
  }

  // ---------------------------------------------------------------------
  // What an emission carries
  // ---------------------------------------------------------------------

  /** The listed reasons are those pending, once each, in the fixed order. */
  lemma {:induction false} ReasonsAreThePendingOnes(pending: set<Reason>, from: nat)
    requires from <= REASON_COUNT
    ensures var reasons := ReasonsFrom(pending, from);
            && (forall r: Reason :: r in reasons <==> r in pending && from <= r)
            && (forall i, j :: 0 <= i < j < |reasons| ==> reasons[i] < reasons[j])
    decreases REASON_COUNT - from
  {
    hide ReasonsFrom;
    if from == REASON_COUNT {
      NoReasonLeft(pending, from);
    } else {
      NextReason(pending, from);
      ReasonsAreThePendingOnes(pending, from + 1);
      var rest := ReasonsFrom(pending, from + 1);
      forall i | 0 <= i < |rest| ensures from < rest[i] {
        assert rest[i] in rest;
      }
    }
  }

  /** What an action merges into the next request: a hint bound to another set, or
      a change of the set, counts as a changed set with truth lost. */
  function Merged(s: Scheduler, a: Action): set<Reason> {
    match a
    case SetWatchedSet(now, watchedSet) =>
      if now != 0 && s.watchedSet.Some? && s.watchedSet != Some(watchedSet) then {WATCHED_SET_CHANGED} else {}
    case SubmitHint(now, watchedSet, reason, _) =>
      if now == 0 then {}
      else if s.watchedSet.Some? && s.watchedSet != Some(watchedSet) then {WATCHED_SET_CHANGED}
      else {reason}
    case _ => {}
  }

  predicate LosesTruth(s: Scheduler, a: Action) {
    match a
    case SetWatchedSet(_, _) => Merged(s, a) != {}
    case SubmitHint(now, watchedSet, _, truthLost) =>
      now != 0 && (truthLost || (s.watchedSet.Some? && s.watchedSet != Some(watchedSet)))
    case _ => false
  }

  predicate Emits(s: Scheduler, a: Action) { a.Due? && Fires(s, a.now) }

  predicate EverEmits(s: Scheduler, actions: seq<Action>)
    decreases |actions|
  {
    actions != [] && (Emits(s, actions[0]) || EverEmits(Step(s, actions[0]), actions[1..]))
  }

  function AllMerged(s: Scheduler, actions: seq<Action>): set<Reason>
    decreases |actions|
  {
    if actions == [] then {} else Merged(s, actions[0]) + AllMerged(Step(s, actions[0]), actions[1..])
  }

  predicate AnyLosesTruth(s: Scheduler, actions: seq<Action>)
    decreases |actions|
  {
    actions != [] && (LosesTruth(s, actions[0]) || AnyLosesTruth(Step(s, actions[0]), actions[1..]))
  }

  lemma SilentDue(s: Scheduler, now: Time)
    requires Sound(s) && !Fires(s, now)
    ensures DueStep(s, now).pending == s.pending && DueStep(s, now).truthLost == s.truthLost
  {
  }

  lemma SilentStep(s: Scheduler, a: Action)
    requires Sound(s) && !Emits(s, a)
    ensures Step(s, a).pending == s.pending + Merged(s, a)
    ensures Step(s, a).truthLost <==> s.truthLost || LosesTruth(s, a)
  {
    hide DueStep, Fires;
    if a.Due? { SilentDue(s, a.now); }
  }

  lemma {:induction false} SilentRun(s: Scheduler, actions: seq<Action>)
    requires Sound(s) && !EverEmits(s, actions)
    ensures Run(s, actions).pending == s.pending + AllMerged(s, actions)
    ensures Run(s, actions).truthLost <==> s.truthLost || AnyLosesTruth(s, actions)
    decreases |actions|
  {
    hide Sound, Step, Merged, LosesTruth, Emits;
    if actions != [] {
      StepKeepsSound(s, actions[0]);
      SilentStep(s, actions[0]);
      SilentRun(Step(s, actions[0]), actions[1..]);
    }
  }

  /** From one emission to the next: the next request carries exactly the reasons
      merged in between, with maximum age when that is due, in the fixed order, and
      lost truth exactly when one of them lost it. */
  lemma EmissionCarriesWhatWasMerged(s: Scheduler, emitted: Time, actions: seq<Action>, now: Time)
    requires Sound(s) && Fires(s, emitted)
    requires var t := Step(s, Due(emitted)); !EverEmits(t, actions) && Fires(Run(t, actions), now)
    ensures var t := Step(s, Due(emitted));
            var request := Emission(Run(t, actions), now);
            && (forall r: Reason :: r in request.reasons <==>
                 r in AllMerged(t, actions) || (r == MAXIMUM_AGE && AgeDue(Run(t, actions), now)))
            && (forall i, j :: 0 <= i < j < |request.reasons| ==> request.reasons[i] < request.reasons[j])
            && (request.truthLost <==> AnyLosesTruth(t, actions))
  {
    hide Run, AllMerged, AnyLosesTruth, EverEmits;
    var t := Step(s, Due(emitted));
    StepKeepsSound(s, Due(emitted));
    SilentRun(t, actions);
    ReasonsAreThePendingOnes(Aged(Run(t, actions), now).pending, 0);
  }

  // ---------------------------------------------------------------------
  // Alternation and delay
  // ---------------------------------------------------------------------

  datatype Output = Emitted(sequence: nat) | Completed(sequence: nat)

  function Outputs(s: Scheduler, actions: seq<Action>): seq<Output>
    decreases |actions|
  {
    if actions == [] then []
    else
      var rest := Outputs(Step(s, actions[0]), actions[1..]);
      if Emits(s, actions[0]) then [Emitted(s.sequence + 1)] + rest
      else if actions[0].Complete? && Completes(s, actions[0].now, actions[0].ticket) then
        [Completed(actions[0].ticket)] + rest
      else rest
  }

  /** Emissions and completions take turns, each completion naming the emission
      before it and each emission one number higher. */
  predicate Alternates(outputs: seq<Output>, active: bool, sequence: nat)
    decreases |outputs|
  {
    outputs == [] ||
    if active then outputs[0] == Completed(sequence) && Alternates(outputs[1..], false, sequence)
    else outputs[0] == Emitted(sequence + 1) && Alternates(outputs[1..], true, sequence + 1)
  }

  lemma TurnsOfAStep(s: Scheduler, a: Action)
    requires Sound(s)
    ensures Emits(s, a) ==> !s.active && Step(s, a).active && Step(s, a).sequence == s.sequence + 1
    ensures a.Complete? && Completes(s, a.now, a.ticket) ==>
              s.active && a.ticket == s.sequence && !Step(s, a).active && Step(s, a).sequence == s.sequence
    ensures !Emits(s, a) && !(a.Complete? && Completes(s, a.now, a.ticket)) ==>
              Step(s, a).active == s.active && Step(s, a).sequence == s.sequence
  {
  }

  lemma {:induction false} EmissionsAndCompletionsAlternate(s: Scheduler, actions: seq<Action>)
    requires Sound(s)
    ensures Alternates(Outputs(s, actions), s.active, s.sequence)
    decreases |actions|
  {
    hide Sound, Step, Emits, Completes;
    if actions != [] {
      var t := Step(s, actions[0]);
      StepKeepsSound(s, actions[0]);
      TurnsOfAStep(s, actions[0]);
      EmissionsAndCompletionsAlternate(t, actions[1..]);
      var rest := Outputs(t, actions[1..]);
      assert ([Emitted(s.sequence + 1)] + rest)[1..] == rest;
      assert actions[0].Complete? ==> ([Completed(actions[0].ticket)] + rest)[1..] == rest;
    }
  }

  /** An idle scheduler with something pending since `since`. */
  ghost predicate WaitingSince(s: Scheduler, since: Time) {
    Sound(s) && s.watchedSet.Some? && !s.active && s.pending != {} && s.firstHintAt <= since
  }

  lemma StillWaiting(s: Scheduler, a: Action, since: Time)
    requires WaitingSince(s, since) && !Emits(s, a)
    ensures WaitingSince(Step(s, a), since)
  {
    StepKeepsSound(s, a);
  }

  /** However many hints arrive, an idle scheduler emits once the maximum delay
      after the first of them has passed. */
  lemma {:induction false} NoHintStreamDelaysForEver(s: Scheduler, actions: seq<Action>, since: Time, now: Time)
    requires WaitingSince(s, since) && !EverEmits(s, actions)
    requires since + s.config.maximumDelay <= now
    ensures 0 < NextDue(Run(s, actions)) <= since + s.config.maximumDelay
    ensures Fires(Run(s, actions), now)
    decreases |actions|
  {
    hide Step, Emits;
    if actions == [] {
      FiresExactlyWhenDue(s, now);
    } else {
      StepKeepsSound(s, actions[0]);
      StillWaiting(s, actions[0], since);
      NoHintStreamDelaysForEver(Step(s, actions[0]), actions[1..], since, now);
    }
  }

  // ---------------------------------------------------------------------
  // The schedule, by the times of the actions
  // ---------------------------------------------------------------------

  /** What a watch on the actions notes: the set in force, the last focus, whether a
      request is out, when the first and the latest action merged something since
      the last emission, and when that was, or when the set was first installed. */
  datatype Log = Log(
    watchedSet: Option<WatchedSet>, focused: bool, localSession: bool, busy: bool, emissions: nat,
    first: Option<Time>, latest: Option<Time>, refreshed: Time)

  const NOTHING_NOTED: Log := Log(None, false, false, false, 0, None, None, 0)

  function NoteMerge(l: Log, now: Time): Log {
    l.(first := if l.first.None? then Some(now) else l.first, latest := Some(now))
  }

  function NoteInstalled(l: Log, now: Time, watchedSet: WatchedSet): Log { l.(watchedSet := Some(watchedSet), refreshed := now) }

  /** One action, and whether it emitted a request. */
  function Note(l: Log, a: Action, emitted: bool): Log {
    if a.now == 0 then l
    else match a
      case SetWatchedSet(now, watchedSet) =>
        if l.watchedSet.None? then NoteInstalled(l, now, watchedSet)
        else if l.watchedSet == Some(watchedSet) then l
        else NoteMerge(l.(watchedSet := Some(watchedSet)), now)
      case SetFocused(_, focused, localSession) =>
        if l.watchedSet.None? then l else l.(focused := focused, localSession := localSession)
      case SubmitHint(now, watchedSet, _, _) =>
        NoteMerge(if l.watchedSet.None? then NoteInstalled(l, now, watchedSet) else l, now)
      case Due(now) =>
        if emitted then l.(busy := true, emissions := l.emissions + 1, first := None, latest := None, refreshed := now) else l
      case Complete(_, ticket) => if l.busy && ticket == l.emissions then l.(busy := false) else l
  }

  /** A due action emits when the number of the last request rises. */
  predicate IsEmission(s: Scheduler, a: Action) { Step(s, a).sequence == s.sequence + 1 }

  function Noted(s: Scheduler, l: Log, actions: seq<Action>): Log
    decreases |actions|
  {
    if actions == [] then l else Noted(Step(s, actions[0]), Note(l, actions[0], IsEmission(s, actions[0])), actions[1..])
  }

  ghost predicate Agrees(s: Scheduler, l: Log) {
    && Sound(s) && s.watchedSet == l.watchedSet && s.focused == l.focused && s.localSession == l.localSession
    && s.active == l.busy && s.sequence == l.emissions
    && (s.pending == {} <==> l.latest.None?) && (l.latest.None? <==> l.first.None?)
    && (l.latest.Some? ==> s.lastHintAt == l.latest.value && s.firstHintAt == l.first.value)
    && (s.watchedSet.Some? ==> s.lastRefreshAt == l.refreshed)
    && (s.watchedSet.None? ==> !s.focused)
  }

  lemma DueAgrees(s: Scheduler, l: Log, now: Time)
    requires Agrees(s, l) && Sound(DueStep(s, now))
    ensures Agrees(DueStep(s, now), Note(l, Due(now), DueStep(s, now).sequence == s.sequence + 1))
  {
  }

  lemma MergingAgrees(s: Scheduler, l: Log, a: Action)
    requires Agrees(s, l) && (a.SetWatchedSet? || a.SubmitHint?) && Sound(Step(s, a))
    ensures Agrees(Step(s, a), Note(l, a, IsEmission(s, a)))
  {
    hide DueStep, CompleteStep, SetFocusedStep;
  }

  lemma StepAgrees(s: Scheduler, l: Log, a: Action)
    requires Agrees(s, l)
    ensures Agrees(Step(s, a), Note(l, a, IsEmission(s, a)))
  {
    hide DueStep, SubmitHintStep, SetWatchedSetStep, Sound, ValidConfig;
    StepKeepsSound(s, a);
    if a.Due? {
      DueAgrees(s, l, a.now);
    } else if a.SetWatchedSet? || a.SubmitHint? {
      MergingAgrees(s, l, a);
    } else {
      ActiveTickets(s);
    }
  }

  lemma ActiveTickets(s: Scheduler)
    requires Sound(s)
    ensures if s.active then s.activeTicket == s.sequence != 0 else s.activeTicket == 0
    ensures s.watchedSet.Some? ==> s.lastRefreshAt != 0
  {
  }

  lemma {:induction false} RunAgrees(s: Scheduler, l: Log, actions: seq<Action>)
    requires Agrees(s, l)
    ensures Agrees(Run(s, actions), Noted(s, l, actions)) && Run(s, actions).config == s.config
    decreases |actions|
  {
    hide Agrees, Step, Note, IsEmission;
    if actions != [] {
      StepAgrees(s, l, actions[0]);
      ConfigStays(s, l, actions[0]);
      RunAgrees(Step(s, actions[0]), Note(l, actions[0], IsEmission(s, actions[0])), actions[1..]);
    }
  }

  lemma ConfigStays(s: Scheduler, l: Log, a: Action)
    requires Agrees(s, l)
    ensures Step(s, a).config == s.config
  {
    StepKeepsSound(s, a);
  }

  /** Whether a log says that a request is due. */
  predicate IsDue(c: Config, l: Log, now: Time)
    requires l.latest.Some? ==> l.first.Some?
  {
    && l.watchedSet.Some? && !l.busy
    && (|| (l.latest.Some? && (l.latest.value + c.quietDelay <= now || l.first.value + c.maximumDelay <= now))
        || (l.focused && l.localSession && l.refreshed + c.focusedMaximumAge <= now))
  }

  /** Over every run a request is emitted exactly when it is due by the times of the
      actions: the quiet delay behind the latest of those that merged something
      since the last emission, the maximum delay behind the first, or the maximum age
      behind the last emission of a focused local session; not a moment earlier, and
      not while one is out. It names the set in force and the time of its emission. */
  lemma RequestsAreOnTime(config: Config, actions: seq<Action>, now: Time)
    requires ValidConfig(config) && now != 0
    ensures var s, l := Run(New(config), actions), Noted(New(config), NOTHING_NOTED, actions);
            && (l.latest.Some? ==> l.first.Some?)
            && (IsEmission(s, Due(now)) <==> IsDue(config, l, now))
            && (Fires(s, now) <==> IsDue(config, l, now))
            && (Fires(s, now) ==>
                  Some(Emission(s, now).watchedSet) == l.watchedSet && Emission(s, now).requestedAt == now &&
                  Emission(s, now).sequence == l.emissions + 1)
  {
    hide Run, Noted;
    RunAgrees(New(config), NOTHING_NOTED, actions);
  }

  /** Two hints, the second within the quiet delay of the first: nothing is emitted
      before the quiet delay has passed since the second. */
  lemma ASecondHintPostponesTheRequest(config: Config, watchedSet: WatchedSet, reason: Reason, first: Time, second: Time, now: Time)
    requires ValidConfig(config) && 0 < first <= second <= first + config.quietDelay
    requires second + config.quietDelay <= first + config.maximumDelay && now != 0
    ensures var s := Run(New(config), [SubmitHint(first, watchedSet, reason, false), SubmitHint(second, watchedSet, reason, false)]);
            IsEmission(s, Due(now)) <==> second + config.quietDelay <= now
  {
    var a, b := SubmitHint(first, watchedSet, reason, false), SubmitHint(second, watchedSet, reason, false);
    RequestsAreOnTime(config, [a, b], now);
    var l1 := Note(NOTHING_NOTED, a, IsEmission(New(config), a));
    assert l1 == Log(Some(watchedSet), false, false, false, 0, Some(first), Some(first), first);
    var s1 := Step(New(config), a);
    var l2 := Note(l1, b, IsEmission(s1, b));
    assert l2 == l1.(latest := Some(second));
    assert [a, b][1..] == [b] && [b][1..] == [];
    hide Step, Note, IsEmission;
    assert Noted(s1, l1, [b]) == Noted(Step(s1, b), l2, []) == l2;
  }

  // ---------------------------------------------------------------------
  // The scheduler as an object
  // ---------------------------------------------------------------------

  class RefreshScheduler {
    const config: Config
    var watchedSet: Option<WatchedSet>
    var focused: bool
    var localSession: bool
    var pending: set<Reason>
    var truthLost: bool
    var firstHintAt: Time
    var lastHintAt: Time
    var lastRefreshAt: Time
    var active: bool
    var activeTicket: nat
    var sequence: nat

    ghost function View(): Scheduler
      reads this
    {
      Scheduler(config, watchedSet, focused, localSession, pending, truthLost, firstHintAt, lastHintAt, lastRefreshAt,
                active, activeTicket, sequence)
    }

    constructor (config: Config)
      requires ValidConfig(config)
      ensures View() == New(config) && Sound(View())
    {
      this.config := config;
      watchedSet, focused, localSession, pending, truthLost := None, false, false, {}, false;
      firstHintAt, lastHintAt, lastRefreshAt, active, activeTicket, sequence := 0, 0, 0, false, 0, 0;
    }

    method Add(now: Time, reason: Reason, lost: bool)
      modifies this`firstHintAt, this`lastHintAt, this`pending, this`truthLost
      ensures View() == Merge(old(View()), now, reason, lost)
    {
      if pending == {} {
        firstHintAt := now;
      }
      lastHintAt, pending, truthLost := now, pending + {reason}, truthLost || lost;
    }

    method SetWatchedSet(now: Time, given: WatchedSet) returns (ok: bool)
      modifies this
      ensures View() == Step(old(View()), Action.SetWatchedSet(now, given))
      ensures ok <==> now != 0
    {
      if now == 0 {
        return false;
      }
      if watchedSet.None? {
        watchedSet, lastRefreshAt := Some(given), now;
      } else if watchedSet.value != given {
        watchedSet := Some(given);
        Add(now, WATCHED_SET_CHANGED, true);
      }
      return true;
    }

    method SetFocused(now: Time, focus: bool, local: bool) returns (ok: bool)
      modifies this
      ensures View() == Step(old(View()), Action.SetFocused(now, focus, local))
      ensures ok <==> now != 0 && old(watchedSet).Some?
    {
      if now == 0 || watchedSet.None? {
        return false;
      }
      focused, localSession := focus, local;
      if focus && local && lastRefreshAt == 0 {
        lastRefreshAt := now;
      }
      return true;
    }

    method SubmitHint(now: Time, hinted: WatchedSet, reason: Reason, lost: bool) returns (ok: bool)
      modifies this
      ensures View() == Step(old(View()), Action.SubmitHint(now, hinted, reason, lost))
      ensures ok <==> now != 0
    {
      if now == 0 {
        return false;
      }
      if watchedSet.None? {
        var _ := SetWatchedSet(now, hinted);
      } else if watchedSet.value != hinted {
        Add(now, WATCHED_SET_CHANGED, true);
        return true;
      }
      Add(now, reason, lost);
      return true;
    }

    method NextDueAt() returns (due: Time)
      ensures due == NextDue(View())
    {
      if watchedSet.None? || active {
        return 0;
      }
      due := 0;
      if pending != {} {
        due := lastHintAt + config.quietDelay;
        var maximum := firstHintAt + config.maximumDelay;
        if maximum < due {
          due := maximum;
        }
      }
      if focused && localSession {
        var ageDue := lastRefreshAt + config.focusedMaximumAge;
        if due == 0 || ageDue < due {
          due := ageDue;
        }
      }
    }

    method Due(now: Time) returns (request: Option<Request>, ticket: nat)
      modifies this
      ensures View() == Step(old(View()), Action.Due(now))
      ensures request == (if Fires(old(View()), now) then Some(Emission(old(View()), now)) else None)
      ensures ticket == if request.Some? then activeTicket else 0
    {
      hide ReasonsFrom, Aged, AgeDue;
      if watchedSet.None? || active || now == 0 {
        return None, 0;
      }
      var ageDue := JoinAge(now);
      if pending == {} {
        return None, 0;
      }
      var quietDue := lastHintAt + config.quietDelay <= now;
      var maximumDue := firstHintAt + config.maximumDelay <= now;
      if !ageDue && !quietDue && !maximumDue {
        return None, 0;
      }
      var emitted := EmitRequest(now);
      return Some(emitted), activeTicket;
    }

    /** The pending reasons leave as one request. */
    method EmitRequest(now: Time) returns (request: Request)
      requires watchedSet.Some?
      modifies this
      ensures var s := old(View());
              && View() == s.(sequence := s.sequence + 1, activeTicket := s.sequence + 1, active := true, lastRefreshAt := now,
                              pending := {}, truthLost := false, firstHintAt := 0, lastHintAt := 0)
              && request == Request(s.watchedSet.value, ReasonsFrom(s.pending, 0), s.truthLost, now, s.sequence + 1)
    {
      hide ReasonsFrom;
      sequence := sequence + 1;
      activeTicket, active, lastRefreshAt := sequence, true, now;
      var reasons := ReasonsFromBits();
      request := Request(watchedSet.value, reasons, truthLost, now, sequence);
      pending, truthLost, firstHintAt, lastHintAt := {}, false, 0, 0;
    }

    /** A due age joins the pending reasons. */
    method JoinAge(now: Time) returns (ageDue: bool)
      modifies this`pending, this`firstHintAt, this`lastHintAt
      ensures View() == Aged(old(View()), now) && ageDue == AgeDue(old(View()), now)
      ensures View() == old(View()).(pending := pending, firstHintAt := firstHintAt, lastHintAt := lastHintAt)
    {
      ageDue := focused && localSession && lastRefreshAt + config.focusedMaximumAge <= now;
      if ageDue {
        pending := pending + {MAXIMUM_AGE};
        if pending == {MAXIMUM_AGE} {
          firstHintAt := now;
        }
        lastHintAt := now;
      }
    }

    method ReasonsFromBits() returns (reasons: seq<Reason>)
      ensures reasons == ReasonsFrom(pending, 0)
    {
      hide ReasonsFrom;
      reasons := [];
      for index := 0 to REASON_COUNT
        invariant reasons + ReasonsFrom(pending, index) == ReasonsFrom(pending, 0)
      {
        NextReason(pending, index);
        if index in pending {
          reasons := reasons + [index];
        }
      }
      NoReasonLeft(pending, REASON_COUNT);
    }

    method Complete(now: Time, ticket: nat) returns (ok: bool)
      modifies this`active, this`activeTicket
      ensures View() == Step(old(View()), Action.Complete(now, ticket))
      ensures ok <==> Completes(old(View()), now, ticket)
    {
      if now == 0 || !active || ticket == 0 || ticket != activeTicket {
        return false;
      }
      active, activeTicket := false, 0;
      return true;
    }
  }
}
