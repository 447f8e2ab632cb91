/** The application reducer: every input is one step that either changes nothing
    or commits one revision. Operations are started, superseded, cancelled and
    finished; stale results are discarded. */
module Reducer {
  import opened Ordering
  import opened Wrappers

  type Text(==)
  type RepositoryId(==)

  datatype Kind =
    | OpenRepository | SelectTarget | RefreshTarget | SelectFile
    | RequestProposal | RefreshProposal | RejectProposal | ApproveProposal | DiscardProposalResult

  datatype Status = Running | Cancelling | Succeeded | Failed | Cancelled

  /** A blank correlation is replaced by the operation's own identity. */
  datatype Correlation = Given(text: Text) | OfOperation(id: nat)

  /** A repository as it was opened by one load; `load` counts the loads. */
  datatype Opened = Opened(repository: RepositoryId, load: nat)

  /** `openedUnder` is the repository that was open when the operation started, and
      of which its result therefore speaks; no condition of a step looks at it. */
  datatype Operation = Operation(
    kind: Kind, status: Status, correlation: Correlation, generation: nat, cancellable: bool, openedUnder: Option<Opened>)

  /** A target and the repository it was resolved in. */
  datatype Target = Target(generation: nat, repository: Option<Opened>)

  datatype Event =
    | OperationStarted(id: nat) | OperationCompleted(id: nat) | OperationFailed(id: nat) | OperationCancelled(id: nat)
    | RepositoryLoaded(id: nat) | TargetLoaded(id: nat) | FileSelected(id: nat) | ApprovalDecided | ApplicationClosed

  datatype Committed = Committed(revision: nat, event: Event)

  datatype Metadata = Metadata(id: nat, correlation: Correlation, generation: nat)

  datatype State = State(
    repository: Option<Opened>, target: Option<Target>, operations: map<nat, Operation>, revision: nat,
    closed: bool, log: seq<Committed>)

  /** What a command brings for a new operation: an identity, unless the source
      fails, and a correlation, which may be blank or unsafe. */
  datatype Draft = Draft(id: Option<nat>, correlation: Option<Text>, safe: bool)

  datatype Input =
    | Start(kind: Kind, draft: Draft, confirmed: nat)
    | ChooseFile(draft: Draft)
    | Cancel(id: nat)
    | DecideApproval
    | Shutdown
    | LoadRepository(meta: Metadata, loaded: RepositoryId)
    | LoadTarget(meta: Metadata)
    | ReportFailure(meta: Metadata)
    | ReportCancellation(meta: Metadata)

  predicate Active(op: Operation) { op.status == Running || op.status == Cancelling }

  function Family(kind: Kind): Kind { if kind == SelectTarget then RefreshTarget else kind }

  // ---------------------------------------------------------------------
  // Steps
  // ---------------------------------------------------------------------

  function Below(): (nat, nat) -> bool { (a: nat, b: nat) => a < b }

  /** The members of a set in rising order. */
  ghost function Rising(s: set<nat>): seq<nat> {
    if s == {} then [] else var last := Largest(s); Rising(s - {last}) + [last]
  }

  ghost function Largest(s: set<nat>): (r: nat)
    requires s != {}
    ensures r in s && forall x :: x in s ==> x <= r
  {
    var x :| x in s;
    if s - {x} == {} then
      assert forall y :: y in s && y != x ==> y in s - {x};
      x
    else
      var r := Largest(s - {x});
      assert forall y :: y in s && y != x ==> y in s - {x};
      if r > x then r else x
  }

  function Finish(op: Operation, status: Status): Operation { op.(status := status, cancellable := false) }

  function CancelAll(operations: map<nat, Operation>, ids: set<nat>): map<nat, Operation> {
    map id | id in operations :: if id in ids then Finish(operations[id], Cancelled) else operations[id]
  }

  function Cancellations(ids: seq<nat>): seq<Event> {
    if ids == [] then [] else Cancellations(ids[..|ids| - 1]) + [OperationCancelled(ids[|ids| - 1])]
  }

  function Stamp(revision: nat, events: seq<Event>): seq<Committed> {
    if events == [] then [] else Stamp(revision, events[..|events| - 1]) + [Committed(revision, events[|events| - 1])]
  }

  function Commit(s: State, events: seq<Event>): State {
    s.(revision := s.revision + 1, log := s.log + Stamp(s.revision + 1, events))
  }

  predicate Admits(s: State, draft: Draft) { draft.id.Some? && draft.id.value !in s.operations && draft.safe }

  function NewOperation(kind: Kind, draft: Draft, generation: nat, cancellable: bool, openedUnder: Option<Opened>): Operation
    requires draft.id.Some?
  {
    Operation(kind, Running, if draft.correlation.Some? then Given(draft.correlation.value) else OfOperation(draft.id.value),
              generation, cancellable, openedUnder)
  }

  function NextOpened(before: Option<Opened>, loaded: RepositoryId): Opened {
    Opened(loaded, if before.Some? then before.value.load + 1 else 1)
  }

  function ActiveIds(operations: map<nat, Operation>): set<nat> { set id | id in operations && Active(operations[id]) }

  function Rivals(operations: map<nat, Operation>, kind: Kind, replacement: nat): set<nat> {
    set id | id in operations && id != replacement && Active(operations[id]) && Family(operations[id].kind) == Family(kind)
  }

  predicate Ready(s: State, kind: Kind) {
    match kind
    case SelectTarget => s.repository.Some?
    case RefreshTarget => s.repository.Some? && s.target.Some?
    case SelectFile => false
    case _ => true
  }

  function GenerationOf(s: State, kind: Kind, confirmed: nat): nat {
    match kind
    case SelectTarget => if s.target.Some? then s.target.value.generation else 0
    case RefreshTarget => if s.target.Some? then s.target.value.generation else 0
    case RequestProposal => confirmed
    case RefreshProposal => confirmed
    case _ => 0
  }

  predicate CancellableKind(kind: Kind) {
    kind != RejectProposal && kind != ApproveProposal && kind != DiscardProposalResult
  }

  ghost function StartStep(s: State, kind: Kind, draft: Draft, confirmed: nat): State {
    if !Ready(s, kind) || !Admits(s, draft) then s
    else
      var id := draft.id.value;
      var operations := s.operations[id := NewOperation(kind, draft, GenerationOf(s, kind, confirmed), CancellableKind(kind), s.repository)];
      var rivals := Rivals(operations, kind, id);
      Commit(s.(operations := CancelAll(operations, rivals)), Cancellations(Rising(rivals)) + [OperationStarted(id)])
  }

  function ChooseFileStep(s: State, draft: Draft): State {
    if s.repository.None? || s.target.None? || !Admits(s, draft) then s
    else
      var id := draft.id.value;
      var op := Finish(NewOperation(SelectFile, draft, s.target.value.generation, false, s.repository), Succeeded);
      Commit(s.(operations := s.operations[id := op]), [OperationStarted(id), FileSelected(id), OperationCompleted(id)])
  }

  function CancelStep(s: State, id: nat): State {
    if id !in s.operations || !Active(s.operations[id]) || !s.operations[id].cancellable then s
    else Commit(s.(operations := s.operations[id := Finish(s.operations[id], Cancelled)]), [OperationCancelled(id)])
  }

  ghost function ShutdownStep(s: State): State {
    var active := ActiveIds(s.operations);
    Commit(s.(operations := CancelAll(s.operations, active), closed := true), Cancellations(Rising(active)) + [ApplicationClosed])
  }

  /** A result is accepted only for its own active operation, of an allowed kind,
      and not for a target older than the operation's or the current one. */
  predicate Accepts(s: State, meta: Metadata, allowed: set<Kind>) {
    && meta.id in s.operations && Active(s.operations[meta.id]) && s.operations[meta.id].correlation == meta.correlation
    && (allowed != {} ==> s.operations[meta.id].kind in allowed)
    && (s.operations[meta.id].generation != 0 ==> s.operations[meta.id].generation <= meta.generation)
    && (s.target.Some? && meta.generation != 0 ==> s.target.value.generation <= meta.generation)
  }

  function FinishWith(s: State, id: nat, status: Status, events: seq<Event>): State
    requires id in s.operations
  {
    Commit(s.(operations := s.operations[id := Finish(s.operations[id], status)]), events)
  }

  function ResultStep(s: State, input: Input): State {
    match input
    case LoadRepository(meta, loaded) =>
      if !Accepts(s, meta, {OpenRepository}) then s
      else FinishWith(s.(repository := Some(NextOpened(s.repository, loaded)), target := None), meta.id, Succeeded, [RepositoryLoaded(meta.id), OperationCompleted(meta.id)])
    case LoadTarget(meta) =>
      if meta.generation == 0 || !Accepts(s, meta, {SelectTarget, RefreshTarget}) then s
      else FinishWith(s.(target := Some(Target(meta.generation, s.operations[meta.id].openedUnder))), meta.id, Succeeded, [TargetLoaded(meta.id), OperationCompleted(meta.id)])
    case ReportFailure(meta) => if !Accepts(s, meta, {}) then s else FinishWith(s, meta.id, Failed, [OperationFailed(meta.id)])
    case ReportCancellation(meta) => if !Accepts(s, meta, {}) then s else FinishWith(s, meta.id, Cancelled, [OperationCancelled(meta.id)])
    case _ => s
  }

  /** One input. A closed reducer, an input whose conditions are not met and a
      discarded result change nothing. */
  ghost function Step(s: State, input: Input): State {
    if s.closed then s
    else match input
      case Start(kind, draft, confirmed) => StartStep(s, kind, draft, confirmed)
      case ChooseFile(draft) => ChooseFileStep(s, draft)
      case Cancel(id) => CancelStep(s, id)
      case DecideApproval => Commit(s, [ApprovalDecided])
      case Shutdown => ShutdownStep(s)
      case _ => ResultStep(s, input)
  }

  ghost function Run(s: State, inputs: seq<Input>): State
    decreases |inputs|
  {
    if inputs == [] then s else Run(Step(s, inputs[0]), inputs[1..])
  }

  const EMPTY := State(None, None, map[], 0, false, [])

  // ---------------------------------------------------------------------
  // The ledger of events
  // ---------------------------------------------------------------------

  function Terminal(e: Event): multiset<nat> {
    match e
    case OperationCompleted(id) => multiset{id}
    case OperationFailed(id) => multiset{id}
    case OperationCancelled(id) => multiset{id}
    case _ => multiset{}
  }

  function Begun(e: Event): multiset<nat> {
    match e case OperationStarted(id) => multiset{id} case _ => multiset{}
  }

  /** The operations ended by the events of a log, once for each event. */
  function Terminals(log: seq<Committed>): multiset<nat> {
    if log == [] then multiset{} else Terminals(log[..|log| - 1]) + Terminal(log[|log| - 1].event)
  }

  function Starts(log: seq<Committed>): multiset<nat> {
    if log == [] then multiset{} else Starts(log[..|log| - 1]) + Begun(log[|log| - 1].event)
  }

  function Ended(operations: map<nat, Operation>): set<nat> { operations.Keys - ActiveIds(operations) }

  /** Every operation was started once and ended once if it is no longer active;
      one operation at most is active in each family, none after closing. */
  ghost predicate Balanced(s: State) {
    && Starts(s.log) == multiset(s.operations.Keys)
    && Terminals(s.log) == multiset(Ended(s.operations))
    && OneActive(s.operations)
    && (s.closed ==> ActiveIds(s.operations) == {})
  }

  predicate Rivalry(a: Operation, b: Operation) { Active(a) && Active(b) && Family(a.kind) == Family(b.kind) }

  ghost predicate OneActive(operations: map<nat, Operation>) {
    forall a, b :: a in operations && b in operations && Rivalry(operations[a], operations[b]) ==> a == b
  }

  lemma {:induction false} LedgerOfConcat(a: seq<Committed>, b: seq<Committed>)
    ensures Terminals(a + b) == Terminals(a) + Terminals(b)
    ensures Starts(a + b) == Starts(a) + Starts(b)
  {
    if b == [] {
      assert a + b == a;
    } else {
      assert (a + b)[..|a + b| - 1] == a + b[..|b| - 1];
      LedgerOfConcat(a, b[..|b| - 1]);
    }
  }

  lemma {:induction false} StampOfConcat(revision: nat, a: seq<Event>, b: seq<Event>)
    ensures Stamp(revision, a + b) == Stamp(revision, a) + Stamp(revision, b)
  {
    if b == [] {
      assert a + b == a;
    } else {
      assert (a + b)[..|a + b| - 1] == a + b[..|b| - 1];
      StampOfConcat(revision, a, b[..|b| - 1]);
    }
  }

  lemma {:induction false} SortedIsSorted(s: set<nat>)
    ensures multiset(Rising(s)) == multiset(s)
    ensures StrictlySorted(Below(), Rising(s))
  {
    if s != {} {
      var last := Largest(s);
      SortedIsSorted(s - {last});
      assert multiset(s) == multiset(s - {last}) + multiset{last};
      forall i | 0 <= i < |Rising(s - {last})| ensures Rising(s - {last})[i] < last {
        assert Rising(s - {last})[i] in multiset(Rising(s - {last}));
      }
    }
  }

  lemma {:induction false} LedgerOfCancellations(revision: nat, ids: seq<nat>)
    ensures Terminals(Stamp(revision, Cancellations(ids))) == multiset(ids)
    ensures Starts(Stamp(revision, Cancellations(ids))) == multiset{}
  {
    hide Stamp, Terminals, Starts;
    if ids == [] {
      NothingStamped(revision);
    } else {
      var rest, last := Cancellations(ids[..|ids| - 1]), ids[|ids| - 1];
      LedgerOfCancellations(revision, ids[..|ids| - 1]);
      assert ids == ids[..|ids| - 1] + [last];
      StampLast(revision, rest, OperationCancelled(last));
      LedgerLast(Stamp(revision, rest), Committed(revision, OperationCancelled(last)));
    }
  }

  lemma NothingStamped(revision: nat)
    ensures Stamp(revision, []) == [] && Terminals([]) == multiset{} && Starts([]) == multiset{}
  {
  }

  lemma StampLast(revision: nat, events: seq<Event>, last: Event)
    ensures Stamp(revision, events + [last]) == Stamp(revision, events) + [Committed(revision, last)]
  {
    assert (events + [last])[..|events|] == events;
  }

  lemma LedgerLast(log: seq<Committed>, last: Committed)
    ensures Terminals(log + [last]) == Terminals(log) + Terminal(last.event)
    ensures Starts(log + [last]) == Starts(log) + Begun(last.event)
  {
    assert (log + [last])[..|log|] == log;
  }

  // ---------------------------------------------------------------------
  // What every step keeps
  // ---------------------------------------------------------------------

  /** A commit whose events end exactly the newly ended operations, and start
      exactly the new ones, keeps the ledger balanced. */
  lemma CommitBalances(s: State, t: State, events: seq<Event>, begun: set<nat>, ended: set<nat>)
    requires Balanced(s) && t.log == s.log && t.revision == s.revision
    requires Starts(Stamp(s.revision + 1, events)) == multiset(begun) && begun !! s.operations.Keys
    requires t.operations.Keys == s.operations.Keys + begun
    requires Terminals(Stamp(s.revision + 1, events)) == multiset(ended) && ended !! Ended(s.operations)
    requires Ended(t.operations) == Ended(s.operations) + ended
    requires OneActive(t.operations) && (t.closed ==> ActiveIds(t.operations) == {})
    ensures Balanced(Commit(t, events))
  {
    hide OneActive, ActiveIds, Ended, Stamp, Starts, Terminals;
    var added := Stamp(s.revision + 1, events);
    LedgerOfConcat(s.log, added);
    assert Starts(s.log + added) == multiset(t.operations.Keys) by { DisjointMultisets(s.operations.Keys, begun); }
    assert Terminals(s.log + added) == multiset(Ended(t.operations)) by { DisjointMultisets(Ended(s.operations), ended); }
  }

  lemma DisjointMultisets(a: set<nat>, b: set<nat>)
    requires a !! b
    ensures multiset(a + b) == multiset(a) + multiset(b)
  {
  }

  lemma BalancedKeepsOne(s: State)
    requires Balanced(s)
    ensures OneActive(s.operations)
  {
  }

  /** Fewer active operations, of the same kinds, cannot become rivals. */
  lemma FewerActive(before: map<nat, Operation>, after: map<nat, Operation>)
    requires OneActive(before)
    requires forall id :: id in after && Active(after[id]) ==> id in before && before[id] == after[id]
    ensures OneActive(after)
  {
  }

  lemma AddEnded(operations: map<nat, Operation>, id: nat, op: Operation)
    requires id !in operations && !Active(op)
    ensures Ended(operations[id := op]) == Ended(operations) + {id} && {id} !! Ended(operations)
    ensures ActiveIds(operations[id := op]) == ActiveIds(operations)
  {
  }

  lemma EndOne(operations: map<nat, Operation>, id: nat, op: Operation)
    requires id in operations && Active(operations[id]) && !Active(op)
    ensures Ended(operations[id := op]) == Ended(operations) + {id} && {id} !! Ended(operations)
    ensures operations[id := op].Keys == operations.Keys
  {
  }

  lemma EndAll(operations: map<nat, Operation>)
    ensures var t := CancelAll(operations, ActiveIds(operations));
            && t.Keys == operations.Keys && ActiveIds(t) == {} && OneActive(t)
            && Ended(t) == Ended(operations) + ActiveIds(operations) && ActiveIds(operations) !! Ended(operations)
  {
    var t := CancelAll(operations, ActiveIds(operations));
    assert forall id :: id in t ==> !Active(t[id]);
  }

  lemma LedgerOfOne(revision: nat, e: Event)
    ensures Starts(Stamp(revision, [e])) == Begun(e) && Terminals(Stamp(revision, [e])) == Terminal(e)
  {
    hide Stamp, Starts, Terminals;
    NothingStamped(revision);
    assert [] + [e] == [e];
    StampLast(revision, [], e);
    LedgerLast([], Committed(revision, e));
  }

  lemma LedgerOfTwo(revision: nat, d: Event, e: Event)
    ensures Starts(Stamp(revision, [d, e])) == Begun(d) + Begun(e)
    ensures Terminals(Stamp(revision, [d, e])) == Terminal(d) + Terminal(e)
  {
    hide Stamp, Starts, Terminals;
    LedgerOfOne(revision, d);
    assert [d] + [e] == [d, e];
    StampLast(revision, [d], e);
    LedgerLast(Stamp(revision, [d]), Committed(revision, e));
  }

  lemma LedgerOfThree(revision: nat, c: Event, d: Event, e: Event)
    ensures Starts(Stamp(revision, [c, d, e])) == Begun(c) + Begun(d) + Begun(e)
    ensures Terminals(Stamp(revision, [c, d, e])) == Terminal(c) + Terminal(d) + Terminal(e)
  {
    hide Stamp, Starts, Terminals;
    LedgerOfTwo(revision, c, d);
    assert [c, d] + [e] == [c, d, e];
    StampLast(revision, [c, d], e);
    LedgerLast(Stamp(revision, [c, d]), Committed(revision, e));
  }

  lemma LedgerOfRivals(revision: nat, ids: set<nat>, e: Event)
    ensures var events := Cancellations(Rising(ids)) + [e];
            && Starts(Stamp(revision, events)) == Begun(e)
            && Terminals(Stamp(revision, events)) == multiset(ids) + Terminal(e)
  {
    hide Stamp, Starts, Terminals, Cancellations;
    SortedIsSorted(ids);
    LedgerOfCancellations(revision, Rising(ids));
    StampLast(revision, Cancellations(Rising(ids)), e);
    LedgerLast(Stamp(revision, Cancellations(Rising(ids))), Committed(revision, e));
  }

  lemma SupersedingLeavesOne(s: State, operations: map<nat, Operation>, id: nat, kind: Kind)
    requires OneActive(s.operations) && id !in s.operations
    requires id in operations && operations == s.operations[id := operations[id]] && operations[id].kind == kind && Active(operations[id])
    ensures var rivals := Rivals(operations, kind, id);
            && OneActive(CancelAll(operations, rivals))
            && CancelAll(operations, rivals).Keys == s.operations.Keys + {id}
            && Ended(CancelAll(operations, rivals)) == Ended(s.operations) + rivals && rivals !! Ended(s.operations)
  {
    var rivals := Rivals(operations, kind, id);
    var t := CancelAll(operations, rivals);
    forall a, b | a in t && b in t && Rivalry(t[a], t[b]) ensures a == b {
      assert Active(operations[a]) && Active(operations[b]) && a !in rivals && b !in rivals;
      if a != id && b != id { assert Rivalry(s.operations[a], s.operations[b]); }
    }
  }

  lemma StartKeepsBalanced(s: State, kind: Kind, draft: Draft, confirmed: nat)
    requires Balanced(s) && !s.closed
    ensures Balanced(StartStep(s, kind, draft, confirmed))
  {
    hide Terminals, Starts, Stamp, Cancellations, OneActive, ActiveIds, CancelAll, Rivals;
    if Ready(s, kind) && Admits(s, draft) {
      var id := draft.id.value;
      var operations := s.operations[id := NewOperation(kind, draft, GenerationOf(s, kind, confirmed), CancellableKind(kind), s.repository)];
      var rivals := Rivals(operations, kind, id);
      SupersedingLeavesOne(s, operations, id, kind);
      LedgerOfRivals(s.revision + 1, rivals, OperationStarted(id));
      assert multiset({id}) == multiset{id};
      CommitBalances(s, s.(operations := CancelAll(operations, rivals)), Cancellations(Rising(rivals)) + [OperationStarted(id)], {id}, rivals);
    }
  }

  lemma ChooseFileKeepsBalanced(s: State, draft: Draft)
    requires Balanced(s) && !s.closed
    ensures Balanced(ChooseFileStep(s, draft))
  {
    hide Terminals, Starts, Stamp, Balanced, OneActive, Ended, ActiveIds;
    if s.repository.Some? && s.target.Some? && Admits(s, draft) {
      var id := draft.id.value;
      var op := Finish(NewOperation(SelectFile, draft, s.target.value.generation, false, s.repository), Succeeded);
      LedgerOfThree(s.revision + 1, OperationStarted(id), FileSelected(id), OperationCompleted(id));
      var t := s.(operations := s.operations[id := op]);
      assert multiset({id}) == multiset{id};
      AddEnded(s.operations, id, op);
      BalancedKeepsOne(s);
      FewerActive(s.operations, t.operations);
      CommitBalances(s, t, [OperationStarted(id), FileSelected(id), OperationCompleted(id)], {id}, {id});
    }
  }

  /** Ending one active operation with events that end it once. */
  lemma FinishKeepsBalanced(s: State, t: State, id: nat, status: Status, events: seq<Event>)
    requires Balanced(s) && !s.closed && id in s.operations && Active(s.operations[id]) && status != Running && status != Cancelling
    requires t.log == s.log && t.revision == s.revision && t.operations == s.operations && !t.closed
    requires Starts(Stamp(s.revision + 1, events)) == multiset{} && Terminals(Stamp(s.revision + 1, events)) == multiset{id}
    ensures Balanced(FinishWith(t, id, status, events))
  {
    hide Terminals, Starts, Stamp, Balanced, OneActive, Ended, ActiveIds;
    var u := t.(operations := t.operations[id := Finish(t.operations[id], status)]);
    assert multiset({id}) == multiset{id};
    var nobody: set<nat> := {};
    assert multiset(nobody) == multiset{};
    EndOne(s.operations, id, Finish(s.operations[id], status));
    BalancedKeepsOne(s);
    FewerActive(s.operations, u.operations);
    CommitBalances(s, u, events, nobody, {id});
  }

  lemma LoadKeepsBalanced(s: State, t: State, id: nat, loaded: Event)
    requires Balanced(s) && !s.closed && id in s.operations && Active(s.operations[id])
    requires t.log == s.log && t.revision == s.revision && t.operations == s.operations && !t.closed
    requires loaded == RepositoryLoaded(id) || loaded == TargetLoaded(id)
    ensures Balanced(FinishWith(t, id, Succeeded, [loaded, OperationCompleted(id)]))
  {
    hide Terminals, Starts, Stamp, Balanced, FinishWith;
    LedgerOfTwo(s.revision + 1, loaded, OperationCompleted(id));
    FinishKeepsBalanced(s, t, id, Succeeded, [loaded, OperationCompleted(id)]);
  }

  lemma ReportKeepsBalanced(s: State, id: nat, status: Status, e: Event)
    requires Balanced(s) && !s.closed && id in s.operations && Active(s.operations[id]) && status != Running && status != Cancelling
    requires e == OperationFailed(id) || e == OperationCancelled(id)
    ensures Balanced(FinishWith(s, id, status, [e]))
  {
    hide Terminals, Starts, Stamp, Balanced, FinishWith;
    LedgerOfOne(s.revision + 1, e);
    FinishKeepsBalanced(s, s, id, status, [e]);
  }

  lemma ResultKeepsBalanced(s: State, input: Input)
    requires Balanced(s) && !s.closed
    ensures Balanced(ResultStep(s, input))
  {
    hide Balanced, FinishWith;
    match input
    case LoadRepository(meta, loaded) =>
      if Accepts(s, meta, {OpenRepository}) {
        LoadKeepsBalanced(s, s.(repository := Some(NextOpened(s.repository, loaded)), target := None), meta.id, RepositoryLoaded(meta.id));
      }
    case LoadTarget(meta) =>
      if meta.generation != 0 && Accepts(s, meta, {SelectTarget, RefreshTarget}) {
        LoadKeepsBalanced(s, s.(target := Some(Target(meta.generation, s.operations[meta.id].openedUnder))), meta.id, TargetLoaded(meta.id));
      }
    case ReportFailure(meta) => if Accepts(s, meta, {}) { ReportKeepsBalanced(s, meta.id, Failed, OperationFailed(meta.id)); }
    case ReportCancellation(meta) => if Accepts(s, meta, {}) { ReportKeepsBalanced(s, meta.id, Cancelled, OperationCancelled(meta.id)); }
    case _ =>
  }

  lemma CancelKeepsBalanced(s: State, id: nat)
    requires Balanced(s) && !s.closed
    ensures Balanced(CancelStep(s, id))
  {
    hide Terminals, Starts, Stamp, Balanced;
    if id in s.operations && Active(s.operations[id]) && s.operations[id].cancellable {
      LedgerOfOne(s.revision + 1, OperationCancelled(id));
      FinishKeepsBalanced(s, s, id, Cancelled, [OperationCancelled(id)]);
    }
  }

  lemma ShutdownKeepsBalanced(s: State)
    requires Balanced(s) && !s.closed
    ensures Balanced(ShutdownStep(s)) && ActiveIds(ShutdownStep(s).operations) == {}
  {
    hide Terminals, Starts, Stamp, Cancellations, Balanced, OneActive, Ended, ActiveIds, CancelAll, Rising;
    var active := ActiveIds(s.operations);
    var t := s.(operations := CancelAll(s.operations, active), closed := true);
    LedgerOfRivals(s.revision + 1, active, ApplicationClosed);
    EndAll(s.operations);
    CommitBalances(s, t, Cancellations(Rising(active)) + [ApplicationClosed], {}, active);
  }

  lemma ApprovalKeepsBalanced(s: State)
    requires Balanced(s) && !s.closed
    ensures Balanced(Commit(s, [ApprovalDecided]))
  {
    hide Terminals, Starts, Stamp;
    LedgerOfOne(s.revision + 1, ApprovalDecided);
    CommitBalances(s, s, [ApprovalDecided], {}, {});
  }

  lemma StepKeepsBalanced(s: State, input: Input)
    requires Balanced(s)
    ensures Balanced(Step(s, input))
  {
    hide Balanced, StartStep, ChooseFileStep, CancelStep, ShutdownStep, ResultStep, Commit;
    if !s.closed {
      match input
      case Start(kind, draft, confirmed) => StartKeepsBalanced(s, kind, draft, confirmed);
      case ChooseFile(draft) => ChooseFileKeepsBalanced(s, draft);
      case Cancel(id) => CancelKeepsBalanced(s, id);
      case DecideApproval => ApprovalKeepsBalanced(s);
      case Shutdown => ShutdownKeepsBalanced(s);
      case _ => ResultKeepsBalanced(s, input);
    }
  }

  // ---------------------------------------------------------------------
  // Whole runs
  // ---------------------------------------------------------------------

  lemma {:induction false} RunKeepsBalanced(s: State, inputs: seq<Input>)
    requires Balanced(s)
    ensures Balanced(Run(s, inputs))
    decreases |inputs|
  {
    hide Balanced, Step;
    if inputs != [] {
      StepKeepsBalanced(s, inputs[0]);
      RunKeepsBalanced(Step(s, inputs[0]), inputs[1..]);
    }
  }

  /** Over every run: one operation at most is active in each family; each started
      operation has one start event, and one terminal event exactly if it is no
      longer active; after shutdown none is active. */
  lemma RunsAreBalanced(inputs: seq<Input>, id: nat, other: nat)
    ensures var s := Run(EMPTY, inputs);
            && Starts(s.log)[id] == (if id in s.operations then 1 else 0)
            && Terminals(s.log)[id] == (if id in s.operations && !Active(s.operations[id]) then 1 else 0)
            && (id in s.operations && other in s.operations && Rivalry(s.operations[id], s.operations[other]) ==> id == other)
            && (s.closed && id in s.operations ==> !Active(s.operations[id]))
  {
    hide Run, Starts, Terminals;
    EmptyIsBalanced();
    RunKeepsBalanced(EMPTY, inputs);
    var s := Run(EMPTY, inputs);
    assert id in s.operations && Active(s.operations[id]) <==> id in ActiveIds(s.operations);
  }

  lemma EmptyIsBalanced()
    ensures Balanced(EMPTY)
  {
    assert multiset(EMPTY.operations.Keys) == multiset{};
  }

  lemma {:induction false} StampsAlike(revision: nat, events: seq<Event>)
    ensures |Stamp(revision, events)| == |events|
    ensures forall i :: 0 <= i < |events| ==> Stamp(revision, events)[i] == Committed(revision, events[i])
  {
    if events != [] { StampsAlike(revision, events[..|events| - 1]); }
  }

  /** An input changes nothing, or commits exactly one revision whose events, at
      least one, all carry it. */
  ghost predicate CommitsOne(s: State, t: State) {
    && t.revision == s.revision + 1 && s.log < t.log
    && forall i :: |s.log| <= i < |t.log| ==> t.log[i].revision == t.revision
  }

  lemma CommitCommitsOne(s: State, t: State, events: seq<Event>)
    requires t.log == s.log && t.revision == s.revision && events != []
    ensures CommitsOne(s, Commit(t, events))
  {
    hide Stamp;
    StampsAlike(s.revision + 1, events);
  }

  lemma StepCommitsOneOrNothing(s: State, input: Input)
    ensures Step(s, input) == s || CommitsOne(s, Step(s, input))
  {
    hide Commit, Cancellations, Rising, CommitsOne, CancelAll, Rivals, ActiveIds;
    forall t: State, events | t.log == s.log && t.revision == s.revision && events != [] ensures CommitsOne(s, Commit(t, events)) {
      CommitCommitsOne(s, t, events);
    }
  }

  lemma StepKeepsEnded(s: State, input: Input, id: nat)
    requires id in s.operations && !Active(s.operations[id])
    ensures id in Step(s, input).operations && Step(s, input).operations[id] == s.operations[id]
  {
    hide Stamp, Cancellations, Rising;
  }

  lemma {:induction false} EndedForEver(s: State, inputs: seq<Input>, id: nat)
    requires id in s.operations && !Active(s.operations[id])
    ensures id in Run(s, inputs).operations && Run(s, inputs).operations[id] == s.operations[id]
    decreases |inputs|
  {
    hide Step;
    if inputs != [] {
      StepKeepsEnded(s, inputs[0], id);
      EndedForEver(Step(s, inputs[0]), inputs[1..], id);
    }
  }

  predicate IsResult(input: Input) {
    input.LoadRepository? || input.LoadTarget? || input.ReportFailure? || input.ReportCancellation?
  }

  predicate ResultOf(input: Input, id: nat) { IsResult(input) && input.meta.id == id }

  /** Once an operation has ended, superseded, cancelled, failed or succeeded, no
      result of it is ever accepted again, whatever happens in between. */
  lemma LateResultsChangeNothing(s: State, inputs: seq<Input>, id: nat, result: Input)
    requires id in s.operations && !Active(s.operations[id]) && ResultOf(result, id)
    ensures Step(Run(s, inputs), result) == Run(s, inputs)
  {
    hide Run;
    EndedForEver(s, inputs, id);
  }

  lemma TargetStep(s: State, input: Input)
    requires s.target.Some? && !input.LoadRepository?
    ensures Step(s, input).target.Some? && s.target.value.generation <= Step(s, input).target.value.generation
  {
    hide Stamp, Cancellations, Rising, CancelAll, Rivals, ActiveIds;
  }

  ghost predicate LoadsRepository(inputs: seq<Input>)
    decreases |inputs|
  {
    inputs != [] && (inputs[0].LoadRepository? || LoadsRepository(inputs[1..]))
  }

  /** Between repository loads the generation of the target never falls. */
  lemma {:induction false} TargetNeverFalls(s: State, inputs: seq<Input>)
    requires s.target.Some? && !LoadsRepository(inputs)
    ensures Run(s, inputs).target.Some? && s.target.value.generation <= Run(s, inputs).target.value.generation
    decreases |inputs|
  {
    hide Step;
    if inputs != [] {
      TargetStep(s, inputs[0]);
      TargetNeverFalls(Step(s, inputs[0]), inputs[1..]);
    }
  }

  // ---------------------------------------------------------------------
  // How an operation ends
  // ---------------------------------------------------------------------

  /** An active operation may be cancelled exactly if its kind allows it. */
  ghost predicate KindsDecide(s: State) {
    forall id :: id in s.operations && Active(s.operations[id]) ==>
      s.operations[id].kind != SelectFile && (s.operations[id].cancellable <==> !Final(s.operations[id].kind))
  }

  /** The decisions that take effect at once and cannot be taken back. */
  predicate Final(kind: Kind) { kind == RejectProposal || kind == ApproveProposal || kind == DiscardProposalResult }

  lemma StepKeepsKinds(s: State, input: Input)
    requires KindsDecide(s)
    ensures KindsDecide(Step(s, input))
  {
    hide Stamp, Cancellations, Rising, Rivals, ActiveIds;
  }

  lemma {:induction false} RunKeepsKinds(s: State, inputs: seq<Input>)
    requires KindsDecide(s)
    ensures KindsDecide(Run(s, inputs))
    decreases |inputs|
  {
    hide KindsDecide, Step;
    if inputs != [] {
      StepKeepsKinds(s, inputs[0]);
      RunKeepsKinds(Step(s, inputs[0]), inputs[1..]);
    }
  }

  /** A result speaks of the operation: its correlation is the operation's own, its
      kind is one the result can have, and it is of no older target than the
      operation or the one now installed. */
  predicate Answers(s: State, input: Input, id: nat)
    requires id in s.operations
  {
    && ResultOf(input, id) && input.meta.correlation == s.operations[id].correlation
    && (input.LoadRepository? ==> s.operations[id].kind == OpenRepository)
    && (input.LoadTarget? ==>
          (s.operations[id].kind == SelectTarget || s.operations[id].kind == RefreshTarget) && input.meta.generation > 0)
    && (s.operations[id].generation == 0 || input.meta.generation >= s.operations[id].generation)
    && (input.meta.generation == 0 || s.target.None? || input.meta.generation >= s.target.value.generation)
  }

  function EndOf(input: Input): Status {
    match input
    case LoadRepository(_, _) => Succeeded
    case LoadTarget(_) => Succeeded
    case ReportFailure(_) => Failed
    case _ => Cancelled
  }

  /** What ends an operation: the shutdown, its own cancellation if its kind can be
      cancelled, the start of another of its family, or a result that answers it. */
  predicate Ends(s: State, input: Input, id: nat)
    requires id in s.operations
  {
    !s.closed &&
    (|| input == Shutdown
     || (input == Cancel(id) && !Final(s.operations[id].kind))
     || (input.Start? && Ready(s, input.kind) && Admits(s, input.draft) && Family(input.kind) == Family(s.operations[id].kind))
     || Answers(s, input, id))
  }

  lemma AStepEndsIff(s: State, input: Input, id: nat)
    requires KindsDecide(s) && id in s.operations && Active(s.operations[id])
    ensures var t := Step(s, input);
            && id in t.operations && (!Active(t.operations[id]) <==> Ends(s, input, id))
            && t.operations[id] == if Ends(s, input, id) then Finish(s.operations[id], EndOf(input)) else s.operations[id]
  {
    hide Stamp, Cancellations, Rising;
  }

  /** Over every run an active operation is ended by an input exactly if that is one
      of these, with the status that fits; any other input leaves it as it is. */
  lemma AnOperationEndsIff(inputs: seq<Input>, input: Input, id: nat)
    requires var s := Run(EMPTY, inputs); id in s.operations && Active(s.operations[id])
    ensures var s := Run(EMPTY, inputs);
            var t := Step(s, input);
            && id in t.operations && (!Active(t.operations[id]) <==> Ends(s, input, id))
            && t.operations[id] == if Ends(s, input, id) then Finish(s.operations[id], EndOf(input)) else s.operations[id]
  {
    hide Run, Step, Ends, Finish;
    RunKeepsKinds(EMPTY, inputs);
    AStepEndsIff(Run(EMPTY, inputs), input, id);
  }

  /** A result changes the state exactly if it answers an active operation. */
  lemma AResultCountsIff(s: State, input: Input, id: nat)
    requires ResultOf(input, id)
    ensures Step(s, input) != s <==> !s.closed && id in s.operations && Active(s.operations[id]) && Answers(s, input, id)
  {
    hide Stamp;
    if Step(s, input) != s {
      assert Step(s, input).revision == s.revision + 1;
    }
  }

  /** A started operation is what was asked for. */
  lemma AStartedOperationIsAsAskedFor(s: State, kind: Kind, draft: Draft, confirmed: nat)
    requires !s.closed && Ready(s, kind) && Admits(s, draft)
    ensures var t := Step(s, Start(kind, draft, confirmed));
            draft.id.value in t.operations &&
            var op := t.operations[draft.id.value];
            && op.kind == kind && op.status == Running && (op.cancellable <==> !Final(kind))
            && op.correlation == (if draft.correlation.Some? then Given(draft.correlation.value) else OfOperation(draft.id.value))
            && (kind == SelectTarget || kind == RefreshTarget ==>
                  op.generation == if s.target.Some? then s.target.value.generation else 0)
            && (kind == RequestProposal || kind == RefreshProposal ==> op.generation == confirmed)
            && (kind == OpenRepository || Final(kind) ==> op.generation == 0)
            && t.repository == s.repository && t.target == s.target
  {
    hide Stamp, Cancellations, Rising;
  }

  /** An operation is started exactly if it is new, its correlation is safe and what it
      works on is there: a target is selected in a repository, and refreshed where one
      is; files are chosen, not started. */
  lemma AnOperationIsStartedIff(s: State, kind: Kind, draft: Draft, confirmed: nat)
    ensures Step(s, Start(kind, draft, confirmed)) != s <==>
              && !s.closed && draft.id.Some? && draft.id.value !in s.operations && draft.safe && kind != SelectFile
              && (kind == SelectTarget || kind == RefreshTarget ==> s.repository.Some?)
              && (kind == RefreshTarget ==> s.target.Some?)
  {
    hide Stamp, Cancellations, Rising;
    if Step(s, Start(kind, draft, confirmed)) != s {
      assert Step(s, Start(kind, draft, confirmed)).revision == s.revision + 1;
    }
  }

  lemma {:induction false} CancellationAt(ids: seq<nat>, i: nat)
    requires i < |ids|
    ensures |Cancellations(ids)| == |ids| && Cancellations(ids)[i] == OperationCancelled(ids[i])
  {
    if i < |ids| - 1 {
      CancellationAt(ids[..|ids| - 1], i);
    } else if |ids| > 1 {
      CancellationAt(ids[..|ids| - 1], 0);
    }
  }

  lemma {:induction false} StampAt(revision: nat, events: seq<Event>, i: nat)
    requires i < |events|
    ensures |Stamp(revision, events)| == |events| && Stamp(revision, events)[i] == Committed(revision, events[i])
  {
    if i < |events| - 1 {
      StampAt(revision, events[..|events| - 1], i);
    } else if |events| > 1 {
      StampAt(revision, events[..|events| - 1], 0);
    }
  }

  /** A log that went on with the end of these operations, in rising order, and one event
      more, all in one revision. */
  ghost predicate GoesOn(s: State, t: State, ended: set<nat>, last: Event) {
    && |t.log| == |s.log| + |ended| + 1 && s.log <= t.log && t.log[|t.log| - 1] == Committed(s.revision + 1, last)
    && (forall i :: |s.log| <= i < |t.log| - 1 ==>
          t.log[i].revision == s.revision + 1 && t.log[i].event.OperationCancelled? && t.log[i].event.id in ended)
    && (forall i, j :: |s.log| <= i < j < |t.log| - 1 && t.log[i].event.OperationCancelled? && t.log[j].event.OperationCancelled? ==>
          t.log[i].event.id < t.log[j].event.id)
  }

  lemma CommitGoesOn(s: State, t: State, ended: set<nat>, last: Event)
    requires t.log == s.log + Stamp(s.revision + 1, Cancellations(Rising(ended)) + [last])
    ensures GoesOn(s, t, ended, last)
  {
    hide Stamp, Cancellations, Rising, StrictlySorted;
    var ids := Rising(ended);
    var events := Cancellations(ids) + [last];
    RisingHolds(ended);
    if ids == [] { NothingIsCancelled(); } else { CancellationAt(ids, 0); }
    StampAt(s.revision + 1, events, 0);
    assert |t.log| == |s.log| + |events|;
    forall i | |s.log| <= i < |t.log| ensures t.log[i] == Committed(s.revision + 1, events[i - |s.log|]) {
      StampAt(s.revision + 1, events, i - |s.log|);
    }
    forall i | 0 <= i < |ids| ensures events[i] == OperationCancelled(ids[i]) {
      CancellationAt(ids, i);
    }
  }

  lemma NothingIsCancelled()
    ensures Cancellations([]) == []
  {
  }

  lemma RisingHolds(s: set<nat>)
    ensures |Rising(s)| == |s| && (forall i :: 0 <= i < |Rising(s)| ==> Rising(s)[i] in s)
    ensures forall i, j :: 0 <= i < j < |Rising(s)| ==> Rising(s)[i] < Rising(s)[j]
  {
    SortedIsSorted(s);
    assert |multiset(Rising(s))| == |multiset(s)|;
    forall i | 0 <= i < |Rising(s)| ensures Rising(s)[i] in s {
      assert Rising(s)[i] in multiset(Rising(s));
    }
  }

  function ActiveInFamily(s: State, kind: Kind): set<nat> {
    set id | id in s.operations && Active(s.operations[id]) && Family(s.operations[id].kind) == Family(kind)
  }

  lemma RivalsOfNew(s: State, operations: map<nat, Operation>, kind: Kind, id: nat)
    requires id !in s.operations && id in operations && operations == s.operations[id := operations[id]]
    ensures Rivals(operations, kind, id) == ActiveInFamily(s, kind)
  {
  }

  /** What is reported when an operation starts: the end of every active one of its
      family, in rising order, and then its own beginning; and when the reducer closes:
      the end of every active operation, and then the closing. */
  lemma StartsAndShutdownsReport(s: State, kind: Kind, draft: Draft, confirmed: nat)
    requires !s.closed
    ensures Ready(s, kind) && Admits(s, draft) ==>
              GoesOn(s, Step(s, Start(kind, draft, confirmed)), ActiveInFamily(s, kind), OperationStarted(draft.id.value))
    ensures GoesOn(s, Step(s, Shutdown), (set id | id in s.operations && Active(s.operations[id])), ApplicationClosed)
  {
    hide Stamp, Cancellations, Rising, GoesOn;
    CommitGoesOn(s, Step(s, Shutdown), ActiveIds(s.operations), ApplicationClosed);
    if Ready(s, kind) && Admits(s, draft) {
      var id := draft.id.value;
      var operations := s.operations[id := NewOperation(kind, draft, GenerationOf(s, kind, confirmed), CancellableKind(kind), s.repository)];
      RivalsOfNew(s, operations, kind, id);
      CommitGoesOn(s, Step(s, Start(kind, draft, confirmed)), Rivals(operations, kind, id), OperationStarted(id));
    }
  }

  /** A file is chosen exactly if the choice is new and safe and a target is there;
      the choice is an operation that has succeeded, reported in three events of one
      revision. */
  lemma AFileIsChosenIff(s: State, draft: Draft)
    ensures var t := Step(s, ChooseFile(draft));
            if !s.closed && draft.id.Some? && draft.id.value !in s.operations && draft.safe && s.repository.Some? && s.target.Some? then
              var id := draft.id.value;
              && t.log == s.log + [Committed(s.revision + 1, OperationStarted(id)), Committed(s.revision + 1, FileSelected(id)),
                                   Committed(s.revision + 1, OperationCompleted(id))]
              && id in t.operations && t.operations[id].status == Succeeded && !t.operations[id].cancellable
              && t == s.(revision := s.revision + 1, log := t.log, operations := s.operations[id := t.operations[id]])
            else t == s
  {
    hide Stamp;
    if !s.closed && Admits(s, draft) {
      var id := draft.id.value;
      var events := [OperationStarted(id), FileSelected(id), OperationCompleted(id)];
      StampAt(s.revision + 1, events, 0);
      StampAt(s.revision + 1, events, 1);
      StampAt(s.revision + 1, events, 2);
      assert Stamp(s.revision + 1, events) ==
             [Committed(s.revision + 1, events[0]), Committed(s.revision + 1, events[1]), Committed(s.revision + 1, events[2])];
    }
  }

  /** One event, or two, in the next revision. */
  function Reported(s: State, first: Event, second: Option<Event>): seq<Committed> {
    s.log + [Committed(s.revision + 1, first)] + if second.Some? then [Committed(s.revision + 1, second.value)] else []
  }

  lemma CommitReports(s: State, t: State, first: Event, second: Option<Event>)
    requires t.log == s.log && t.revision == s.revision
    ensures Commit(t, [first] + if second.Some? then [second.value] else []).log == Reported(s, first, second)
    ensures Commit(t, [first]).log == Reported(s, first, None)
  {
    hide Stamp;
    var events := [first] + if second.Some? then [second.value] else [];
    StampAt(s.revision + 1, [first], 0);
    StampAt(s.revision + 1, events, 0);
    if second.Some? { StampAt(s.revision + 1, events, 1); }
    assert Stamp(s.revision + 1, events) == [Committed(s.revision + 1, first)] + if second.Some? then [Committed(s.revision + 1, second.value)] else [];
  }

  /** What an accepted result, and a decided approval, leave behind: a loaded repository
      is open and without a target, a loaded target is the target, anything else leaves
      both; and the events say so, before they end the operation. */
  lemma ResultsReport(s: State, meta: Metadata, loaded: RepositoryId)
    requires !s.closed
    ensures Accepts(s, meta, {OpenRepository}) ==>
              var t := Step(s, LoadRepository(meta, loaded));
              && t.repository.Some? && t.repository.value.repository == loaded && t.target.None?
              && t.log == Reported(s, RepositoryLoaded(meta.id), Some(OperationCompleted(meta.id)))
    ensures Accepts(s, meta, {SelectTarget, RefreshTarget}) && meta.generation != 0 ==>
              var t := Step(s, LoadTarget(meta));
              && t.repository == s.repository && t.target.Some? && t.target.value.generation == meta.generation
              && t.log == Reported(s, TargetLoaded(meta.id), Some(OperationCompleted(meta.id)))
    ensures Accepts(s, meta, {}) ==>
              var t, c := Step(s, ReportFailure(meta)), Step(s, ReportCancellation(meta));
              && t.repository == c.repository == s.repository && t.target == c.target == s.target
              && t.log == Reported(s, OperationFailed(meta.id), None) && c.log == Reported(s, OperationCancelled(meta.id), None)
    ensures Step(s, DecideApproval) == s.(revision := s.revision + 1, log := Reported(s, ApprovalDecided, None))
  {
    hide Stamp;
    CommitReports(s, s, ApprovalDecided, None);
    CommitReports(s, s, OperationFailed(meta.id), None);
    CommitReports(s, s, OperationCancelled(meta.id), None);
    CommitReports(s, s, RepositoryLoaded(meta.id), Some(OperationCompleted(meta.id)));
    CommitReports(s, s, TargetLoaded(meta.id), Some(OperationCompleted(meta.id)));
    assert [RepositoryLoaded(meta.id)] + [OperationCompleted(meta.id)] == [RepositoryLoaded(meta.id), OperationCompleted(meta.id)];
    assert [TargetLoaded(meta.id)] + [OperationCompleted(meta.id)] == [TargetLoaded(meta.id), OperationCompleted(meta.id)];
  }

  /** A closed reducer changes nothing more. */
  lemma {:induction false} ClosedForEver(s: State, inputs: seq<Input>)
    requires s.closed
    ensures Run(s, inputs) == s
    decreases |inputs|
  {
    if inputs != [] { ClosedForEver(Step(s, inputs[0]), inputs[1..]); }
  }

  // ---------------------------------------------------------------------
  // A target of the repository before
  // ---------------------------------------------------------------------

  /** Opening a repository does not end the target operation of the one before. */
  lemma OpeningKeepsTargetOperations(s: State, meta: Metadata, loaded: RepositoryId, id: nat)
    requires !s.closed && Accepts(s, meta, {OpenRepository})
    requires id in s.operations && Active(s.operations[id]) && Family(s.operations[id].kind) == RefreshTarget
    ensures var t := Step(s, LoadRepository(meta, loaded));
            t.target.None? && id in t.operations && t.operations[id] == s.operations[id]
  {
  }

  /** A target result is accepted exactly when its operation is active, its own and
      not too old. The repository now open has no say: a target asked of the one
      before is installed under the new one. */
  lemma ATargetOfTheRepositoryBefore(s: State, meta: Metadata, loaded: RepositoryId, late: Metadata)
    requires !s.closed && Accepts(s, meta, {OpenRepository})
    requires late.id in s.operations && Active(s.operations[late.id]) && Family(s.operations[late.id].kind) == RefreshTarget
    requires late.correlation == s.operations[late.id].correlation && late.generation != 0
    requires s.operations[late.id].generation <= late.generation
    ensures var t := Step(Step(s, LoadRepository(meta, loaded)), LoadTarget(late));
            && t.repository == Some(NextOpened(s.repository, loaded))
            && t.target == Some(Target(late.generation, s.operations[late.id].openedUnder))
  {
    hide Step;
    OpeningKeepsTargetOperations(s, meta, loaded, late.id);
    OpeningOpens(s, meta, loaded);
    LoadingLoads(Step(s, LoadRepository(meta, loaded)), late);
  }

  lemma OpeningOpens(s: State, meta: Metadata, loaded: RepositoryId)
    requires !s.closed && Accepts(s, meta, {OpenRepository})
    ensures var t := Step(s, LoadRepository(meta, loaded));
            t.repository == Some(NextOpened(s.repository, loaded)) && t.target.None? && !t.closed
  {
  }

  lemma LoadingLoads(s: State, meta: Metadata)
    requires !s.closed && meta.generation != 0 && Accepts(s, meta, {SelectTarget, RefreshTarget})
    ensures var t := Step(s, LoadTarget(meta));
            t.repository == s.repository && t.target == Some(Target(meta.generation, s.operations[meta.id].openedUnder))
  {
  }

  /** The input is a repository load and is accepted. */
  predicate Reopens(s: State, input: Input) {
    !s.closed && input.LoadRepository? && Accepts(s, input.meta, {OpenRepository})
  }

  ghost predicate EverReopens(s: State, inputs: seq<Input>)
    decreases |inputs|
  {
    inputs != [] && (Reopens(s, inputs[0]) || EverReopens(Step(s, inputs[0]), inputs[1..]))
  }

  /** How many repositories have been loaded. */
  function Loads(s: State): nat { if s.repository.Some? then s.repository.value.load else 0 }

  lemma StepCountsLoads(s: State, input: Input)
    ensures var t := Step(s, input);
            if Reopens(s, input) then Loads(t) == Loads(s) + 1 else t.repository == s.repository
  {
    hide Stamp, Cancellations, Rising, CancelAll, Rivals, ActiveIds;
  }

  lemma {:induction false} RunCountsLoads(s: State, inputs: seq<Input>)
    ensures var t := Run(s, inputs);
            if EverReopens(s, inputs) then Loads(t) > Loads(s) else t.repository == s.repository
    decreases |inputs|
  {
    hide Step, Reopens;
    if inputs != [] {
      StepCountsLoads(s, inputs[0]);
      RunCountsLoads(Step(s, inputs[0]), inputs[1..]);
    }
  }

  lemma StepKeepsOrigin(s: State, input: Input, id: nat)
    requires id in s.operations
    ensures var t := Step(s, input); id in t.operations && t.operations[id].openedUnder == s.operations[id].openedUnder
  {
    hide Stamp, Cancellations, Rising;
  }

  lemma {:induction false} RunKeepsOrigin(s: State, inputs: seq<Input>, id: nat)
    requires id in s.operations
    ensures var t := Run(s, inputs); id in t.operations && t.operations[id].openedUnder == s.operations[id].openedUnder
    decreases |inputs|
  {
    hide Step;
    if inputs != [] {
      StepKeepsOrigin(s, inputs[0], id);
      RunKeepsOrigin(Step(s, inputs[0]), inputs[1..], id);
    }
  }

  lemma StartingRecordsOrigin(s: State, kind: Kind, draft: Draft, confirmed: nat)
    requires !s.closed && Ready(s, kind) && Admits(s, draft)
    ensures var t := Step(s, Start(kind, draft, confirmed));
            && draft.id.value in t.operations && t.operations[draft.id.value].openedUnder == s.repository
            && t.repository == s.repository
  {
    hide Stamp, Cancellations, Rising;
  }

  /** Whatever went before and comes in between, the target that an accepted result
      installs is of the repository then open exactly when no repository load was
      accepted between the start of its operation and the result. */
  lemma InstalledTargetIsOfTheOpenRepositoryIff(
    before: seq<Input>, kind: Kind, draft: Draft, confirmed: nat, between: seq<Input>, late: Metadata)
    requires kind == SelectTarget || kind == RefreshTarget
    requires var s := Run(EMPTY, before); !s.closed && Ready(s, kind) && Admits(s, draft)
    requires var s := Run(Step(Run(EMPTY, before), Start(kind, draft, confirmed)), between);
             !s.closed && late.id == draft.id.value && late.generation != 0 && Accepts(s, late, {SelectTarget, RefreshTarget})
    ensures var started := Step(Run(EMPTY, before), Start(kind, draft, confirmed));
            var end := Step(Run(started, between), LoadTarget(late));
            && end.target.Some? && end.repository.Some?
            && (end.target.value.repository == end.repository <==> !EverReopens(started, between))
  {
    hide Step, Run, Accepts, Admits;
    var s := Run(EMPTY, before);
    var started := Step(s, Start(kind, draft, confirmed));
    StartingRecordsOrigin(s, kind, draft, confirmed);
    RunKeepsOrigin(started, between, late.id);
    RunCountsLoads(started, between);
    LoadingLoads(Run(started, between), late);
  }

  lemma RunNext(s: State, inputs: seq<Input>, next: Input)
    ensures Run(s, inputs + [next]) == Step(Run(s, inputs), next)
    decreases |inputs|
  {
    hide Step;
    if inputs == [] {
      assert [] + [next] == [next];
    } else {
      assert (inputs + [next])[1..] == inputs[1..] + [next];
      RunNext(Step(s, inputs[0]), inputs[1..], next);
    }
  }

  /** A start without rivals only adds its operation. */
  lemma StartsAlone(s: State, kind: Kind, draft: Draft)
    requires !s.closed && Ready(s, kind) && Admits(s, draft)
    requires forall id :: id in s.operations && Active(s.operations[id]) ==> Family(s.operations[id].kind) != Family(kind)
    ensures var t := Step(s, Start(kind, draft, 0));
            && !t.closed && t.repository == s.repository && t.target == s.target
            && t.operations ==
               s.operations[draft.id.value := NewOperation(kind, draft, GenerationOf(s, kind, 0), CancellableKind(kind), s.repository)]
  {
    hide Stamp, Cancellations, Rising;
    var operations :=
      s.operations[draft.id.value := NewOperation(kind, draft, GenerationOf(s, kind, 0), CancellableKind(kind), s.repository)];
    assert Rivals(operations, kind, draft.id.value) == {};
    assert CancelAll(operations, {}) == operations;
  }

  function Fresh(id: nat): Draft { Draft(Some(id), None, true) }

  function ResultFor(id: nat, generation: nat): Metadata { Metadata(id, OfOperation(id), generation) }

  /** A repository is opened and a target asked of it; another is opened before the
      answer comes. */
  function LateTarget(first: RepositoryId, second: RepositoryId): seq<Input> {
    [Start(OpenRepository, Fresh(0), 0)] + [LoadRepository(ResultFor(0, 0), first)] + [Start(SelectTarget, Fresh(1), 0)] +
    [Start(OpenRepository, Fresh(2), 0)] + [LoadRepository(ResultFor(2, 0), second)] + [LoadTarget(ResultFor(1, 1))]
  }

  /** From the beginning: the answer of the first repository is installed as the
      target of the second. */
  lemma ALateTargetIsInstalled(first: RepositoryId, second: RepositoryId)
    ensures var end := Run(EMPTY, LateTarget(first, second));
            && end.repository == Some(Opened(second, 2))
            && end.target == Some(Target(1, Some(Opened(first, 1))))
  {
    hide Step, Run;
    var i1 := [Start(OpenRepository, Fresh(0), 0)];
    var i2 := i1 + [LoadRepository(ResultFor(0, 0), first)];
    var i3 := i2 + [Start(SelectTarget, Fresh(1), 0)];
    var i4 := i3 + [Start(OpenRepository, Fresh(2), 0)];
    var i5 := i4 + [LoadRepository(ResultFor(2, 0), second)];
    RunsNothing(EMPTY);
    assert [] + i1 == i1;
    RunNext(EMPTY, [], i1[0]);
    RunNext(EMPTY, i1, LoadRepository(ResultFor(0, 0), first));
    RunNext(EMPTY, i2, Start(SelectTarget, Fresh(1), 0));
    RunNext(EMPTY, i3, Start(OpenRepository, Fresh(2), 0));
    RunNext(EMPTY, i4, LoadRepository(ResultFor(2, 0), second));
    RunNext(EMPTY, i5, LoadTarget(ResultFor(1, 1)));
    StartsAlone(EMPTY, OpenRepository, Fresh(0));
    OpeningOpens(Run(EMPTY, i1), ResultFor(0, 0), first);
    OpeningEnds(Run(EMPTY, i1), ResultFor(0, 0), first);
    StartsAlone(Run(EMPTY, i2), SelectTarget, Fresh(1));
    StartsAlone(Run(EMPTY, i3), OpenRepository, Fresh(2));
    ATargetOfTheRepositoryBefore(Run(EMPTY, i4), ResultFor(2, 0), second, ResultFor(1, 1));
  }

  lemma RunsNothing(s: State)
    ensures Run(s, []) == s
  {
  }

  lemma OpeningEnds(s: State, meta: Metadata, loaded: RepositoryId)
    requires !s.closed && Accepts(s, meta, {OpenRepository})
    ensures Step(s, LoadRepository(meta, loaded)).operations == s.operations[meta.id := Finish(s.operations[meta.id], Succeeded)]
  {
  }

  // ---------------------------------------------------------------------
  // The reducer as an object
  // ---------------------------------------------------------------------

  lemma BelowIsStrictOrder()
    ensures WeakOrder(Below())
  {
  }

  /** Identifiers gathered in any order sort into the same list. */
  lemma AnyOrderSorts(ids: seq<nat>, s: set<nat>)
    requires multiset(ids) == multiset(s)
    ensures StableSort(Below(), ids) == Rising(s)
  {
    BelowIsStrictOrder();
    SortedIsSorted(s);
    StableSortPermutes(Below(), ids);
    StableSortSorts(Below(), ids);
    var sorted := StableSort(Below(), ids);
    forall i, j | 0 <= i < j < |sorted| ensures Below()(sorted[i], sorted[j]) {
      assert !Below()(sorted[j], sorted[i]);
      if sorted[i] == sorted[j] {
        TwiceAtLeast(sorted, i, j);
      }
    }
    SortedArrangementIsUnique(Below(), sorted, Rising(s));
  }

  class Reducer {
    var repository: Option<Opened>
    var target: Option<Target>
    var operations: map<nat, Operation>
    var revision: nat
    var closed: bool
    ghost var log: seq<Committed>

    ghost function View(): State
      reads this
    {
      State(repository, target, operations, revision, closed, log)
    }

    constructor ()
      ensures View() == EMPTY
    {
      repository, target, operations, revision, closed, log := None, None, map[], 0, false, [];
    }

    /** One revision, which every event carries. */
    method CommitEvents(events: seq<Event>)
      modifies this`revision, this`log
      ensures View() == Commit(old(View()), events)
    {
      revision := revision + 1;
      log := log + Stamp(revision, events);
    }

    /** Cancels operations in the order of their identifiers. */
    method CancelInOrder(ids: set<nat>) returns (events: seq<Event>)
      requires ids <= operations.Keys
      modifies this`operations
      ensures operations == CancelAll(old(operations), ids)
      ensures events == Cancellations(Rising(ids))
    {
      hide Rising, Cancellations, StableSort;
      var order := InOrder(ids);
      events := [];
      NoCancellations();
      for i := 0 to |order|
        invariant operations == CancelAll(old(operations), set id | id in order[..i])
        invariant events == Cancellations(order[..i])
      {
        CancellationsLast(order[..i], order[i]);
        assert order[..i + 1] == order[..i] + [order[i]];
        InOrderMembers(order, ids);
        operations := operations[order[i] := Finish(operations[order[i]], Cancelled)];
        events := events + [OperationCancelled(order[i])];
      }
      assert order[..|order|] == order;
      InOrderMembers(order, ids);
    }

    method InOrder(ids: set<nat>) returns (order: seq<nat>)
      ensures order == Rising(ids)
    {
      hide Rising, StableSort;
      order := [];
      var remaining := ids;
      while remaining != {}
        invariant multiset(order) + multiset(remaining) == multiset(ids)
        decreases |remaining|
      {
        var id :| id in remaining;
        order := order + [id];
        assert multiset(remaining) == multiset(remaining - {id}) + multiset{id};
        remaining := remaining - {id};
      }
      AnyOrderSorts(order, ids);
      order := StableSort(Below(), order);
    }

    lemma InOrderMembers(order: seq<nat>, ids: set<nat>)
      requires order == Rising(ids)
      ensures (set id | id in order) == ids
      ensures forall i, j :: 0 <= i < j < |order| ==> order[i] != order[j]
      ensures forall i :: 0 <= i < |order| ==> order[i] in ids
    {
      SortedIsSorted(ids);
      forall id ensures id in order <==> id in ids {
        assert id in order <==> id in multiset(order);
        assert id in multiset(ids) <==> id in ids;
      }
      forall i, j | 0 <= i < j < |order| ensures order[i] != order[j] {
        assert Below()(order[i], order[j]);
      }
    }

    lemma CancellationsLast(ids: seq<nat>, last: nat)
      ensures Cancellations(ids + [last]) == Cancellations(ids) + [OperationCancelled(last)]
    {
      assert (ids + [last])[..|ids|] == ids;
    }

    lemma NoCancellations()
      ensures Cancellations([]) == []
    {
    }

    method StartOperation(kind: Kind, draft: Draft, confirmed: nat) returns (id: Option<nat>)
      requires !closed
      modifies this
      ensures View() == Step(old(View()), Start(kind, draft, confirmed))
      ensures id == if Ready(old(View()), kind) && Admits(old(View()), draft) then draft.id else None
    {
      hide Rising, Cancellations, CancelAll, Stamp, GenerationOf;
      if (kind == SelectTarget && repository.None?) || (kind == RefreshTarget && (repository.None? || target.None?)) || kind == Kind.SelectFile {
        return None;
      }
      if draft.id.None? || draft.id.value in operations || !draft.safe {
        return None;
      }
      var generation := GenerationOfKind(kind, confirmed);
      operations := operations[draft.id.value := NewOperation(kind, draft, generation, CancellableKind(kind), repository)];
      var events := CancelInOrder(Rivals(operations, kind, draft.id.value));
      CommitEvents(events + [OperationStarted(draft.id.value)]);
      return draft.id;
    }

    method GenerationOfKind(kind: Kind, confirmed: nat) returns (generation: nat)
      ensures generation == GenerationOf(View(), kind, confirmed)
    {
      if kind == SelectTarget || kind == RefreshTarget {
        return if target.Some? then target.value.generation else 0;
      }
      if kind == RequestProposal || kind == RefreshProposal {
        return confirmed;
      }
      return 0;
    }

    method SelectFile(draft: Draft) returns (ok: bool)
      requires !closed
      modifies this
      ensures View() == Step(old(View()), ChooseFile(draft))
      ensures ok <==> revision == old(revision) + 1
    {
      if repository.None? || target.None? || draft.id.None? || draft.id.value in operations || !draft.safe {
        return false;
      }
      var id := draft.id.value;
      operations := operations[id := NewOperation(Kind.SelectFile, draft, target.value.generation, false, repository)];
      operations := operations[id := Finish(operations[id], Succeeded)];
      CommitEvents([OperationStarted(id), FileSelected(id), OperationCompleted(id)]);
      return true;
    }

    method CancelOperation(id: nat) returns (cancelled: bool)
      requires !closed
      modifies this
      ensures View() == Step(old(View()), Cancel(id))
      ensures cancelled <==> revision == old(revision) + 1
    {
      if id !in operations || !Active(operations[id]) || !operations[id].cancellable {
        return false;
      }
      operations := operations[id := Finish(operations[id], Cancelled)];
      CommitEvents([OperationCancelled(id)]);
      return true;
    }

    method CloseApplication()
      requires !closed
      modifies this
      ensures View() == Step(old(View()), Shutdown)
    {
      hide Rising, Cancellations, CancelAll;
      var events := CancelInOrder(ActiveIds(operations));
      closed := true;
      CommitEvents(events + [ApplicationClosed]);
    }

    method AcceptResult(meta: Metadata, allowed: set<Kind>) returns (accepted: bool)
      ensures accepted <==> Accepts(View(), meta, allowed)
    {
      if meta.id !in operations {
        return false;
      }
      var op := operations[meta.id];
      if !Active(op) || op.correlation != meta.correlation {
        return false;
      }
      if allowed != {} && op.kind !in allowed {
        return false;
      }
      if op.generation != 0 && meta.generation < op.generation {
        return false;
      }
      if target.Some? && meta.generation != 0 && meta.generation < target.value.generation {
        return false;
      }
      return true;
    }

    method HandleResult(input: Input) returns (accepted: bool)
      requires !closed && IsResult(input)
      modifies this
      ensures View() == Step(old(View()), input)
      ensures accepted <==> revision == old(revision) + 1
    {
      hide Accepts;
      match input
      case LoadRepository(meta, loaded) =>
        accepted := AcceptResult(meta, {OpenRepository});
        if accepted {
          LoadedIsKnown(View(), meta, {OpenRepository});
          repository, target := Some(NextOpened(repository, loaded)), None;
          operations := operations[meta.id := Finish(operations[meta.id], Succeeded)];
          CommitEvents([RepositoryLoaded(meta.id), OperationCompleted(meta.id)]);
        }
      case LoadTarget(meta) =>
        if meta.generation == 0 {
          return false;
        }
        accepted := AcceptResult(meta, {SelectTarget, RefreshTarget});
        if accepted {
          LoadedIsKnown(View(), meta, {SelectTarget, RefreshTarget});
          target := Some(Target(meta.generation, operations[meta.id].openedUnder));
          operations := operations[meta.id := Finish(operations[meta.id], Succeeded)];
          CommitEvents([TargetLoaded(meta.id), OperationCompleted(meta.id)]);
        }
      case ReportFailure(meta) =>
        accepted := AcceptResult(meta, {});
        if accepted {
          LoadedIsKnown(View(), meta, {});
          operations := operations[meta.id := Finish(operations[meta.id], Failed)];
          CommitEvents([OperationFailed(meta.id)]);
        }
      case ReportCancellation(meta) =>
        accepted := AcceptResult(meta, {});
        if accepted {
          LoadedIsKnown(View(), meta, {});
          operations := operations[meta.id := Finish(operations[meta.id], Cancelled)];
          CommitEvents([OperationCancelled(meta.id)]);
        }
    }

    lemma LoadedIsKnown(s: State, meta: Metadata, allowed: set<Kind>)
      requires Accepts(s, meta, allowed)
      ensures meta.id in s.operations
    {
    }
  }
}
