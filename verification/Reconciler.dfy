/** The owner of reconciliation work: one running worker, one follow-up, and a
    bounded event channel. Every critical section is one step; steps of
    submitters, closers, the worker and the event consumer interleave freely. */
module Reconciler {
  import opened Wrappers

  const EVENT_CAPACITY: nat := 32

  /** A request, its place in the order of acceptance and the context of its
      submitter; a resuming request brings its own operation identifier. */
  datatype Request = Request(number: nat, resume: bool, parent: nat)

  /** What became of an accepted request. A request is lost when its worker cannot
      be given an identifier. */
  datatype Fate = Waiting | Started | Replaced | Dropped | Lost

  datatype Event = Progressed(work: nat) | Cancelled(work: nat)

  datatype Work = Work(request: Request, committing: bool, cancelled: bool, followUp: bool)

  /** `live` holds the goroutines between launch and finish; `active` is what the
      owner believes; `ended` holds the submitters' contexts that are done. `fates`
      records what became of every accepted request, `panics` counts sends on the
      closed channel and `closings` its closings. */
  datatype Owner = Owner(
    launched: nat, active: Option<nat>, live: map<nat, Work>, followUp: Option<Request>,
    closed: bool, events: seq<Event>, eventsClosed: bool, closings: nat, panics: nat,
    fates: seq<Fate>, ended: set<nat>)

  datatype Action =
    | Submit(resume: bool, idOk: bool, parent: nat)
    | EndContext(parent: nat)
    | Close
    | Emit(work: nat, event: Event, giveUp: bool)
    | SetCommitting(work: nat)
    | Finish(work: nat, idOk: bool)
    | Receive

  // ---------------------------------------------------------------------
  // Steps
  // ---------------------------------------------------------------------

  function Settle(fates: seq<Fate>, request: Option<Request>, fate: Fate): seq<Fate> {
    if request.Some? && request.value.number < |fates| then fates[request.value.number := fate] else fates
  }

  function Launch(s: Owner, request: Request, followUp: bool): Owner {
    s.(launched := s.launched + 1, active := Some(s.launched),
       live := s.live[s.launched := Work(request, false, false, followUp)],
       fates := Settle(s.fates, Some(request), Started))
  }

  function CancelWork(s: Owner, work: nat): Owner {
    if work in s.live then s.(live := s.live[work := s.live[work].(cancelled := true)]) else s
  }

  function CloseEvents(s: Owner): Owner {
    if s.eventsClosed then s else s.(eventsClosed := true, closings := s.closings + 1)
  }

  predicate Accepts(s: Owner, resume: bool, idOk: bool) { !s.closed && (resume || idOk) }

  function SubmitStep(s: Owner, resume: bool, idOk: bool, parent: nat): Owner {
    if !Accepts(s, resume, idOk) then s
    else
      var request := Request(|s.fates|, resume, parent);
      var s := s.(fates := s.fates + [Waiting]);
      match s.active
      case None => Launch(s, request, false)
      case Some(work) =>
        var committing := work in s.live && s.live[work].committing;
        var t := if committing then s else CancelWork(s, work);
        t.(followUp := Some(request), fates := Settle(t.fates, t.followUp, Replaced))
  }

  function CloseStep(s: Owner): Owner {
    if s.closed then s
    else
      var t := s.(closed := true, followUp := None, fates := Settle(s.fates, s.followUp, Dropped));
      match t.active
      case None => CloseEvents(t)
      case Some(work) => CancelWork(t, work)
  }

  /** A worker's context is done once it is cancelled or its submitter's is done. */
  predicate Done(s: Owner, work: Work) { work.cancelled || work.request.parent in s.ended }

  /** A send waits for room, or gives up once its context is done; the cancelled
      event never gives up. */
  function EmitStep(s: Owner, work: nat, event: Event, giveUp: bool): Owner {
    if work !in s.live then s
    else if giveUp && Done(s, s.live[work]) && !event.Cancelled? then s
    else if s.eventsClosed then s.(panics := s.panics + 1)
    else if |s.events| < EVENT_CAPACITY then s.(events := s.events + [event])
    else s
  }

  function SetCommittingStep(s: Owner, work: nat): Owner {
    if work !in s.live || s.active != Some(work) || s.closed then s
    else s.(live := s.live[work := s.live[work].(committing := true)])
  }

  function FinishStep(s: Owner, work: nat, idOk: bool): Owner {
    if work !in s.live then s
    else
      var s := s.(live := s.live - {work});
      if s.active != Some(work) then s
      else if s.followUp.Some? && !s.closed && (idOk || s.followUp.value.resume) then
        Launch(s.(followUp := None), s.followUp.value, true)
      else
        var t := if s.followUp.Some? && !s.closed then s.(followUp := None, fates := Settle(s.fates, s.followUp, Lost)) else s;
        var t := t.(active := None);
        if t.closed then CloseEvents(t) else t
  }

  function Step(s: Owner, a: Action): Owner {
    match a
    case Submit(resume, idOk, parent) => SubmitStep(s, resume, idOk, parent)
    case EndContext(parent) => s.(ended := s.ended + {parent})
    case Close => CloseStep(s)
    case Emit(work, event, giveUp) => EmitStep(s, work, event, giveUp)
    case SetCommitting(work) => SetCommittingStep(s, work)
    case Finish(work, idOk) => FinishStep(s, work, idOk)
    case Receive => if s.events == [] then s else s.(events := s.events[1..])
  }

  function Run(s: Owner, actions: seq<Action>): Owner
    decreases |actions|
  {
    if actions == [] then s else Run(Step(s, actions[0]), actions[1..])
  }

  const FRESH := Owner(0, None, map[], None, false, [], false, 0, 0, [], {})

  // ---------------------------------------------------------------------
  // What every interleaving keeps
  // ---------------------------------------------------------------------

  /** The owner knows its one worker; only a closed, idle owner has closed the
      event channel; a follow-up waits only behind a worker. */
  ghost predicate Owned(s: Owner) {
    && (match s.active
        case None => s.live == map[]
        case Some(work) => s.live.Keys == {work} && work < s.launched)
    && (s.eventsClosed <==> s.closed && s.active.None?)
    && (s.followUp.Some? ==> s.active.Some? && !s.closed)
    && s.closings == (if s.eventsClosed then 1 else 0)
    && s.panics == 0 && |s.events| <= EVENT_CAPACITY
  }

  /** The follow-up is the newest accepted request and the only one that waits; a
      replaced request has a newer one behind it; only a closed owner drops. */
  ghost predicate Accounted(s: Owner) {
    && (s.followUp.Some? ==> s.followUp.value.number == |s.fates| - 1)
    && (forall n :: 0 <= n < |s.fates| ==> (s.fates[n] == Waiting <==> s.followUp.Some? && n == |s.fates| - 1))
    && (|s.fates| > 0 ==> s.fates[|s.fates| - 1] != Replaced)
    && (forall n :: 0 <= n < |s.fates| && s.fates[n] == Dropped ==> s.closed)
  }

  lemma StepKeepsOwned(s: Owner, a: Action)
    requires Owned(s)
    ensures Owned(Step(s, a))
  {
  }

  lemma StepKeepsAccounted(s: Owner, a: Action)
    requires Owned(s) && Accounted(s)
    ensures Accounted(Step(s, a))
  {
  }

  /** A step settles a request once: what is no longer waiting keeps its fate. */
  lemma StepKeepsFates(s: Owner, a: Action, n: nat)
    requires Owned(s) && Accounted(s) && n < |s.fates| && s.fates[n] != Waiting
    ensures n < |Step(s, a).fates| && Step(s, a).fates[n] == s.fates[n]
  {
  }

  /** A request is lost only when a follow-up that does not resume cannot be given
      an identifier. */
  predicate LosesARequest(s: Owner, a: Action) {
    && a.Finish? && a.work in s.live && s.active == Some(a.work)
    && s.followUp.Some? && !s.closed && !s.followUp.value.resume && !a.idOk
  }

  lemma StepMarksLost(s: Owner, a: Action)
    requires Owned(s) && Accounted(s)
    ensures LosesARequest(s, a) ==> |s.fates| > 0 && Step(s, a).fates == s.fates[|s.fates| - 1 := Lost]
    ensures !LosesARequest(s, a) ==> forall n :: 0 <= n < |Step(s, a).fates| && Step(s, a).fates[n] == Lost ==>
                                       n < |s.fates| && s.fates[n] == Lost
  {
  }

  // ---------------------------------------------------------------------
  // Whole runs
  // ---------------------------------------------------------------------

  predicate EverLoses(s: Owner, actions: seq<Action>)
    decreases |actions|
  {
    actions != [] && (LosesARequest(s, actions[0]) || EverLoses(Step(s, actions[0]), actions[1..]))
  }

  ghost predicate HasLost(s: Owner) { exists n :: 0 <= n < |s.fates| && s.fates[n] == Lost }

  lemma {:induction false} RunKeepsInvariants(s: Owner, actions: seq<Action>)
    requires Owned(s) && Accounted(s)
    ensures Owned(Run(s, actions)) && Accounted(Run(s, actions))
    decreases |actions|
  {
    hide Owned, Accounted, Step;
    if actions != [] {
      StepKeepsOwned(s, actions[0]);
      StepKeepsAccounted(s, actions[0]);
      RunKeepsInvariants(Step(s, actions[0]), actions[1..]);
    }
  }

  /** At every point of every interleaving there is at most one worker, the event
      channel has been closed at most once, only when closed and idle, and nothing
      was sent to it afterwards. */
  lemma OneWorkerAndOneClosing(actions: seq<Action>)
    ensures var s := Run(FRESH, actions);
            && |s.live| <= 1 && s.panics == 0 && s.closings <= 1
            && (s.eventsClosed <==> s.closed && s.live == map[])
  {
    hide Run;
    RunKeepsInvariants(FRESH, actions);
    var s := Run(FRESH, actions);
    if s.active.Some? {
      assert s.live.Keys == {s.active.value};
      assert |s.live.Keys| == |s.live|;
    }
  }

  lemma {:induction false} FatesAreFinal(s: Owner, actions: seq<Action>, n: nat)
    requires Owned(s) && Accounted(s) && n < |s.fates| && s.fates[n] != Waiting
    ensures n < |Run(s, actions).fates| && Run(s, actions).fates[n] == s.fates[n]
    decreases |actions|
  {
    hide Owned, Accounted, Step;
    if actions != [] {
      StepKeepsOwned(s, actions[0]);
      StepKeepsAccounted(s, actions[0]);
      StepKeepsFates(s, actions[0], n);
      FatesAreFinal(Step(s, actions[0]), actions[1..], n);
    }
  }

  lemma {:induction false} LostIffEverLoses(s: Owner, actions: seq<Action>)
    requires Owned(s) && Accounted(s) && !HasLost(s)
    ensures HasLost(Run(s, actions)) <==> EverLoses(s, actions)
    decreases |actions|
  {
    hide Owned, Accounted, Step, LosesARequest;
    if actions != [] {
      var t := Step(s, actions[0]);
      StepKeepsOwned(s, actions[0]);
      StepKeepsAccounted(s, actions[0]);
      StepMarksLost(s, actions[0]);
      if LosesARequest(s, actions[0]) {
        assert t.fates[|t.fates| - 1] == Lost;
        FatesAreFinal(t, actions[1..], |t.fates| - 1);
      } else {
        LostIffEverLoses(t, actions[1..]);
      }
    }
  }

  /** Where accepted requests go. Every one but the newest has been started,
      replaced by a newer one, lost to a missing identifier, or, after Close,
      dropped; the newest may still wait behind a worker; and none is lost exactly
      when every follow-up could be given an identifier. */
  lemma EveryRequestIsSettled(actions: seq<Action>)
    ensures var s := Run(FRESH, actions);
            && (forall n :: 0 <= n < |s.fates| && s.fates[n] == Waiting ==> n == |s.fates| - 1 && s.active.Some? && !s.closed)
            && (forall n :: 0 <= n < |s.fates| && s.fates[n] == Replaced ==> n < |s.fates| - 1)
            && (forall n :: 0 <= n < |s.fates| && s.fates[n] == Dropped ==> s.closed)
            && (HasLost(s) <==> EverLoses(FRESH, actions))
  {
    hide Run, EverLoses;
    RunKeepsInvariants(FRESH, actions);
    LostIffEverLoses(FRESH, actions);
  }

  /** An open owner that has come to rest has started its newest request, if every
      follow-up could be given an identifier. */
  lemma NewestRequestStarts(actions: seq<Action>)
    requires !EverLoses(FRESH, actions)
    requires var s := Run(FRESH, actions); s.active.None? && !s.closed && s.fates != []
    ensures var s := Run(FRESH, actions); s.fates[|s.fates| - 1] == Started
  {
    hide Run, EverLoses;
    RunKeepsInvariants(FRESH, actions);
    LostIffEverLoses(FRESH, actions);
    var s := Run(FRESH, actions);
    assert s.fates[|s.fates| - 1] != Waiting;
  }

  /** The worker is gone, or still commits undisturbed. */
  ghost predicate Undisturbed(s: Owner, work: nat) {
    && work < s.launched
    && (work in s.live ==> s.live[work].committing && !s.live[work].cancelled)
  }

  lemma StepKeepsUndisturbed(s: Owner, a: Action, work: nat)
    requires Owned(s) && Undisturbed(s, work) && a != Close
    ensures Undisturbed(Step(s, a), work)
    ensures var t := Step(s, a); work in t.live ==> work in s.live && t.live[work].request == s.live[work].request
  {
  }

  /** Once a worker commits, no submission cancels it; only Close and the context of
      its own submitter can. */
  lemma {:induction false} CommittingIsNeverCancelled(s: Owner, actions: seq<Action>, work: nat)
    requires Owned(s) && Undisturbed(s, work) && Close !in actions
    ensures Undisturbed(Run(s, actions), work)
    ensures var t := Run(s, actions); work in t.live ==>
              work in s.live && t.live[work].request == s.live[work].request &&
              (Done(t, t.live[work]) <==> s.live[work].request.parent in t.ended)
    decreases |actions|
  {
    hide Owned, Step;
    if actions != [] {
      StepKeepsOwned(s, actions[0]);
      StepKeepsUndisturbed(s, actions[0], work);
      CommittingIsNeverCancelled(Step(s, actions[0]), actions[1..], work);
    }
  }

  /** Over every run an accepted submission that finds a worker leaves it there, waits
      behind it, and makes its context done exactly if that was so before or the
      worker had not begun to commit. */
  lemma ASubmissionStopsTheWorkerIff(actions: seq<Action>, resume: bool, idOk: bool, parent: nat, work: nat)
    requires var s := Run(FRESH, actions); Accepts(s, resume, idOk) && work in s.live
    ensures var s := Run(FRESH, actions);
            var t := Step(s, Submit(resume, idOk, parent));
            && t.live.Keys == s.live.Keys && t.launched == s.launched && t.live[work].request == s.live[work].request
            && (Done(t, t.live[work]) <==> Done(s, s.live[work]) || !s.live[work].committing)
            && t.followUp == Some(Request(|s.fates|, resume, parent))
  {
    hide Run;
    RunKeepsInvariants(FRESH, actions);
  }

  /** And one that finds none is launched at once. */
  lemma ASubmissionAtRestIsLaunched(actions: seq<Action>, resume: bool, idOk: bool, parent: nat)
    requires var s := Run(FRESH, actions); Accepts(s, resume, idOk) && s.live == map[]
    ensures var s := Run(FRESH, actions);
            var t := Step(s, Submit(resume, idOk, parent));
            && t.live == map[s.launched := Work(Request(|s.fates|, resume, parent), false, false, false)]
            && t.active == Some(s.launched) && t.followUp.None?
  {
    hide Run;
    RunKeepsInvariants(FRESH, actions);
  }

  /** Closing makes the context of any worker done. */
  lemma ClosingStopsTheWorker(actions: seq<Action>, work: nat)
    requires var s := Run(FRESH, actions); !s.closed && work in s.live
    ensures var s := Run(FRESH, actions);
            var t := Step(s, Close);
            t.closed && t.followUp.None? && work in t.live && Done(t, t.live[work])
  {
    hide Run;
    RunKeepsInvariants(FRESH, actions);
  }

  /** Gone, or done and of the same request. */
  ghost predicate IsDone(s: Owner, work: nat, request: Request) {
    work < s.launched && (work in s.live ==> s.live[work].request == request && Done(s, s.live[work]))
  }

  lemma DoneStep(s: Owner, a: Action, work: nat, request: Request)
    requires Owned(s) && IsDone(s, work, request)
    ensures IsDone(Step(s, a), work, request)
  {
  }

  /** A context that is done stays so until its worker is gone. */
  lemma {:induction false} DoneStaysDone(s: Owner, actions: seq<Action>, work: nat, request: Request)
    requires Owned(s) && IsDone(s, work, request)
    ensures IsDone(Run(s, actions), work, request)
    decreases |actions|
  {
    hide Owned, IsDone, Step;
    if actions != [] {
      StepKeepsOwned(s, actions[0]);
      DoneStep(s, actions[0], work, request);
      DoneStaysDone(Step(s, actions[0]), actions[1..], work, request);
    }
  }

  // --- Requests and events ---

  /** A submission is accepted exactly by an open owner, if it brings an identifier or
      one could be made; else it leaves no trace. */
  lemma ASubmissionIsAcceptedIff(actions: seq<Action>, resume: bool, idOk: bool, parent: nat)
    ensures var s := Run(FRESH, actions);
            var t := Step(s, Submit(resume, idOk, parent));
            if s.closed || !(resume || idOk) then t == s else |t.fates| == |s.fates| + 1
  {
    hide Run;
  }

  /** A live worker of an open owner enters its commit phase when it asks to; that of a
      closed one never does. */
  lemma AWorkerCommitsIff(actions: seq<Action>, work: nat)
    requires work in Run(FRESH, actions).live
    ensures var s := Run(FRESH, actions);
            var t := Step(s, SetCommitting(work));
            if s.closed then t == s
            else t.live == map[work := s.live[work].(committing := true)] && t == s.(live := t.live)
  {
    hide Run;
    RunKeepsInvariants(FRESH, actions);
  }

  /** When a worker finishes, the request that waits is started as a follow-up of an open
      owner, if it brings an identifier or one could be made, and is lost otherwise;
      with none waiting the owner is at rest. */
  lemma AFinishedWorkerIsFollowedIff(actions: seq<Action>, work: nat, idOk: bool)
    requires work in Run(FRESH, actions).live
    ensures var s := Run(FRESH, actions); s.followUp.Some? ==> s.followUp.value.number < |s.fates|
    ensures var s := Run(FRESH, actions);
            var t := Step(s, Finish(work, idOk));
            && t.followUp.None?
            && (if s.followUp.Some? && (idOk || s.followUp.value.resume) then
                  t.active == Some(s.launched) && t.live == map[s.launched := Work(s.followUp.value, false, false, true)]
                else t.active.None? && t.live == map[])
            && (s.followUp.Some? && !(idOk || s.followUp.value.resume) ==> t.fates == s.fates[s.followUp.value.number := Lost])
            && (s.closed ==> t.eventsClosed)
  {
    hide Run;
    RunKeepsInvariants(FRESH, actions);
    assert Run(FRESH, actions).live - {work} == map[];
  }

  /** What accepted submissions asked for, in their order. */
  function Asked(s: Owner, actions: seq<Action>): seq<(bool, nat)>
    decreases |actions|
  {
    if actions == [] then []
    else if actions[0].Submit? && Accepts(s, actions[0].resume, actions[0].idOk) then
      [(actions[0].resume, actions[0].parent)] + Asked(Step(s, actions[0]), actions[1..])
    else Asked(Step(s, actions[0]), actions[1..])
  }

  predicate IsAsked(asked: seq<(bool, nat)>, request: Request) {
    request.number < |asked| && (request.resume, request.parent) == asked[request.number]
  }

  /** Every worker, and the follow-up, has a request as it was asked for. */
  ghost predicate Serves(s: Owner, asked: seq<(bool, nat)>) {
    && |asked| == |s.fates|
    && (s.followUp.Some? ==> IsAsked(asked, s.followUp.value))
    && (forall work :: work in s.live ==>
          IsAsked(asked, s.live[work].request) && s.fates[s.live[work].request.number] == Started)
  }

  lemma StepServes(s: Owner, a: Action, asked: seq<(bool, nat)>)
    requires Owned(s) && Accounted(s) && Serves(s, asked)
    ensures Serves(Step(s, a), asked + if a.Submit? && Accepts(s, a.resume, a.idOk) then [(a.resume, a.parent)] else [])
  {
    assert asked + [] == asked;
  }

  lemma {:induction false} RunServes(s: Owner, actions: seq<Action>, asked: seq<(bool, nat)>)
    requires Owned(s) && Accounted(s) && Serves(s, asked)
    ensures Serves(Run(s, actions), asked + Asked(s, actions))
    decreases |actions|
  {
    hide Owned, Accounted, Serves, Step;
    if actions == [] {
      assert asked + [] == asked;
    } else {
      var a := actions[0];
      StepKeepsOwned(s, a);
      StepKeepsAccounted(s, a);
      StepServes(s, a, asked);
      var more := asked + if a.Submit? && Accepts(s, a.resume, a.idOk) then [(a.resume, a.parent)] else [];
      RunServes(Step(s, a), actions[1..], more);
      assert asked + Asked(s, actions) == more + Asked(Step(s, a), actions[1..]);
    }
  }

  /** Over every run a worker works on an accepted request as it was asked for, with
      the context of its own submitter, and that request counts as started. */
  lemma WorkersServeWhatWasAsked(actions: seq<Action>, work: nat)
    requires work in Run(FRESH, actions).live
    ensures var s, asked := Run(FRESH, actions), Asked(FRESH, actions);
            var request := s.live[work].request;
            && |asked| == |s.fates| && request.number < |asked| && (request.resume, request.parent) == asked[request.number]
            && s.fates[request.number] == Started
  {
    hide Run, Asked;
    RunServes(FRESH, actions, []);
  }

  /** The events a run accepts into the channel, and those it hands out. */
  function Sent(s: Owner, actions: seq<Action>): seq<Event>
    decreases |actions|
  {
    if actions == [] then []
    else
      var t := Step(s, actions[0]);
      (if actions[0].Emit? && t.events != s.events then [actions[0].event] else []) + Sent(t, actions[1..])
  }

  function Received(s: Owner, actions: seq<Action>): seq<Event>
    decreases |actions|
  {
    if actions == [] then []
    else (if actions[0] == Receive && s.events != [] then [s.events[0]] else []) + Received(Step(s, actions[0]), actions[1..])
  }

  lemma StepQueues(s: Owner, a: Action)
    ensures (if a == Receive && s.events != [] then [s.events[0]] else []) + Step(s, a).events ==
            s.events + (if a.Emit? && Step(s, a).events != s.events then [a.event] else [])
  {
    hide FinishStep, SubmitStep, CloseStep;
    EventsOnlyMoveThere(s, a);
  }

  lemma EventsOnlyMoveThere(s: Owner, a: Action)
    ensures !a.Emit? && a != Receive ==> Step(s, a).events == s.events
  {
  }

  lemma Regroup<T>(out: seq<T>, received: seq<T>, end: seq<T>, way: seq<T>, put: seq<T>, later: seq<T>, before: seq<T>)
    requires out + way == before + put && received + end == way + later
    ensures (out + received) + end == before + (put + later)
  {
    assert (out + received) + end == out + (received + end) == out + (way + later) == (out + way) + later;
    assert (before + put) + later == before + (put + later);
  }

  /** Events are received in the order in which they were sent, none lost. */
  lemma {:induction false} EventsArriveInOrder(s: Owner, actions: seq<Action>)
    ensures Received(s, actions) + Run(s, actions).events == s.events + Sent(s, actions)
    decreases |actions|
  {
    hide Step;
    if actions != [] {
      var t := Step(s, actions[0]);
      var out := if actions[0] == Receive && s.events != [] then [s.events[0]] else [];
      var put := if actions[0].Emit? && t.events != s.events then [actions[0].event] else [];
      StepQueues(s, actions[0]);
      EventsArriveInOrder(t, actions[1..]);
      Regroup(out, Received(t, actions[1..]), Run(t, actions[1..]).events, t.events, put, Sent(t, actions[1..]), s.events);
    }
  }

  /** With room in the channel the event of a worker is sent, unless it gives up,
      which only a done one does, and never with its cancelled event. */
  lemma AnEventIsSentIff(actions: seq<Action>, work: nat, event: Event, giveUp: bool)
    requires var s := Run(FRESH, actions); work in s.live && |s.events| < EVENT_CAPACITY
    ensures var s := Run(FRESH, actions);
            var t := Step(s, Emit(work, event, giveUp));
            t.events == (if giveUp && Done(s, s.live[work]) && !event.Cancelled? then s.events else s.events + [event])
  {
    hide Run;
    RunKeepsInvariants(FRESH, actions);
  }

  lemma ClosedStep(s: Owner, a: Action)
    requires Owned(s) && s.closed
    ensures Step(s, a).closed && Step(s, a).launched == s.launched && |Step(s, a).fates| == |s.fates|
  {
  }

  /** A closed owner accepts and starts nothing more; when its worker, if any, is gone
      the event channel is closed. */
  lemma {:induction false} ClosedStaysClosed(s: Owner, actions: seq<Action>)
    requires Owned(s) && s.closed
    ensures var t := Run(s, actions);
            t.closed && t.launched == s.launched && |t.fates| == |s.fates| && (t.live == map[] ==> t.eventsClosed)
    decreases |actions|
  {
    hide Step;
    if actions != [] {
      StepKeepsOwned(s, actions[0]);
      ClosedStep(s, actions[0]);
      ClosedStaysClosed(Step(s, actions[0]), actions[1..]);
    }
  }

  // ---------------------------------------------------------------------
  // The owner as an object
  // ---------------------------------------------------------------------

  class ReconciliationWork {
    const number: nat
    const request: Request
    const followUp: bool
    var committing: bool
    var cancelled: bool

    constructor (number: nat, request: Request, followUp: bool)
      ensures this.number == number && this.request == request && this.followUp == followUp
      ensures !committing && !cancelled
    {
      this.number, this.request, this.followUp := number, request, followUp;
      committing, cancelled := false, false;
    }

    ghost function Value(): Work
      reads this
    {
      Work(request, committing, cancelled, followUp)
    }
  }

  /** Each method is one critical section. */
  class AuthoritativeReconciler {
    var active: ReconciliationWork?
    var followUp: Option<Request>
    var closed: bool
    var events: seq<Event>
    var eventsClosed: bool
    var launched: nat
    var accepted: nat
    var ended: set<nat>
    ghost var closings: nat
    ghost var fates: seq<Fate>

    /** The owner with its one live worker. */
    ghost function View(): Owner
      reads this, active
    {
      Owner(launched, if active == null then None else Some(active.number),
            if active == null then map[] else map[active.number := active.Value()],
            followUp, closed, events, eventsClosed, closings, 0, fates, ended)
    }

    ghost predicate Valid()
      reads this, active
    {
      Owned(View()) && Accounted(View()) && accepted == |fates|
    }

    constructor ()
      ensures View() == FRESH && Valid()
    {
      active, followUp, closed, events, eventsClosed := null, None, false, [], false;
      launched, accepted, closings, fates, ended := 0, 0, 0, [], {};
    }

    method Submit(resume: bool, idOk: bool, parent: nat) returns (admitted: bool)
      requires Valid()
      modifies this, active
      ensures View() == Step(old(View()), Action.Submit(resume, idOk, parent)) && Valid()
      ensures admitted <==> Accepts(old(View()), resume, idOk)
    {
      StepKeepsOwned(View(), Action.Submit(resume, idOk, parent));
      StepKeepsAccounted(View(), Action.Submit(resume, idOk, parent));
      if closed || (!resume && !idOk) {
        return false;
      }
      var request := Request(accepted, resume, parent);
      accepted, fates := accepted + 1, fates + [Waiting];
      if active != null {
        if !active.committing {
          active.cancelled := true;
        }
        fates := Settle(fates, followUp, Replaced);
        followUp := Some(request);
        return true;
      }
      LaunchLocked(request, false);
      return true;
    }

    method LaunchLocked(request: Request, isFollowUp: bool)
      modifies this
      ensures fresh(active) && active.Value() == Work(request, false, false, isFollowUp) && active.number == old(launched)
      ensures launched == old(launched) + 1 && fates == Settle(old(fates), Some(request), Started)
      ensures followUp == old(followUp) && closed == old(closed) && events == old(events)
      ensures eventsClosed == old(eventsClosed) && closings == old(closings) && accepted == old(accepted) && ended == old(ended)
    {
      active := new ReconciliationWork(launched, request, isFollowUp);
      launched, fates := launched + 1, Settle(fates, Some(request), Started);
    }

    /** A submitter's context is done. */
    method EndContext(parent: nat)
      requires Valid()
      modifies this`ended
      ensures View() == Step(old(View()), Action.EndContext(parent)) && Valid()
    {
      StepKeepsOwned(View(), Action.EndContext(parent));
      StepKeepsAccounted(View(), Action.EndContext(parent));
      ended := ended + {parent};
    }

    method Close()
      requires Valid()
      modifies this, active
      ensures View() == Step(old(View()), Action.Close) && Valid()
    {
      StepKeepsOwned(View(), Action.Close);
      StepKeepsAccounted(View(), Action.Close);
      if closed {
        return;
      }
      closed, fates, followUp := true, Settle(fates, followUp, Dropped), None;
      if active == null {
        CloseEventsLocked();
      } else {
        active.cancelled := true;
      }
    }

    method CloseEventsLocked()
      modifies this`eventsClosed, this`closings
      ensures eventsClosed && closings == if old(eventsClosed) then old(closings) else old(closings) + 1
    {
      if !eventsClosed {
        eventsClosed, closings := true, closings + 1;
      }
    }

    method SetPhaseCommitting(work: ReconciliationWork) returns (entered: bool)
      requires Valid() && work == active
      modifies this, work
      ensures View() == Step(old(View()), SetCommitting(work.number)) && Valid()
      ensures entered <==> !closed
    {
      StepKeepsOwned(View(), SetCommitting(work.number));
      StepKeepsAccounted(View(), SetCommitting(work.number));
      if active != work || closed {
        return false;
      }
      work.committing := true;
      return true;
    }

    /** Sends one event, or gives up when its context is done; a full channel keeps
        the worker waiting. */
    method Emit(work: ReconciliationWork, event: Event, giveUp: bool) returns (sent: bool)
      requires Valid() && work == active
      modifies this`events
      ensures View() == Step(old(View()), Action.Emit(work.number, event, giveUp)) && Valid()
      ensures sent <==> events == old(events) + [event]
    {
      StepKeepsOwned(View(), Action.Emit(work.number, event, giveUp));
      StepKeepsAccounted(View(), Action.Emit(work.number, event, giveUp));
      if giveUp && (work.cancelled || work.request.parent in ended) && !event.Cancelled? {
        return false;
      }
      if |events| < EVENT_CAPACITY {
        events := events + [event];
        return true;
      }
      return false;
    }

    /** The worker's last act. Its context is cancelled, which nobody reads again. */
    method Finish(work: ReconciliationWork, idOk: bool)
      requires Valid() && work == active
      modifies this, work
      ensures View() == Step(old(View()), Action.Finish(work.number, idOk)) && Valid()
    {
      StepKeepsOwned(View(), Action.Finish(work.number, idOk));
      StepKeepsAccounted(View(), Action.Finish(work.number, idOk));
      work.cancelled := true;
      if followUp.Some? && !closed {
        var queued := followUp.value;
        followUp := None;
        if idOk || queued.resume {
          LaunchLocked(queued, true);
          return;
        }
        fates := Settle(fates, Some(queued), Lost);
      }
      active := null;
      if closed {
        CloseEventsLocked();
      }
    }
  }
}
