/** Journalling provider conversations and turns of one review thread in durable
    mode. Calls of any number of processes interleave step by step between their
    store reads, fenced writes and remote effects; a process may crash at any
    point and other threads write the same session. */
module ProviderConversations {
  import opened Wrappers

  datatype ConversationState = Creating | Attached | PossibleOrphan

  datatype TurnState = Prepared | Started | Steering | Interrupted | Unknown | Completed | Failed | TurnOrphan

  datatype Turn = Turn(state: TurnState, hasRef: bool)

  predicate Active(t: Turn) { t.state == Prepared || t.state == Started || t.state == Steering }

  /** The store: the session's revision, the thread's conversation row and its
      turn journal. */
  datatype Store = Store(revision: nat, threadAttached: bool, row: Option<ConversationState>, turns: map<nat, Turn>)

  /** Where a call stands, named by what it does next. */
  datatype Pc =
    | EnsureReadThread | EnsureReadRow | EnsureClaim | EnsureSaveRow | EnsureRemote | EnsureSaveAttached | EnsureSaveOrphan
    | TurnReadConversation | TurnCheckActive | TurnSavePrepared(turn: nat) | TurnRemote(turn: nat)
    | TurnSaveStarted(turn: nat) | TurnSaveOrphan(turn: nat, hasRef: bool)
    | SteerRead(turn: nat) | SteerSave(turn: nat) | SteerRemote(turn: nat) | SteerSaveStarted(turn: nat) | SteerSaveUnknown(turn: nat)
    | InterruptRead(turn: nat) | InterruptRemote(turn: nat) | InterruptSave(turn: nat, state: TurnState)
    | CompleteRead(turn: nat, state: TurnState) | CompleteSave(turn: nat, state: TurnState)
    | RestoreRead | RestoreSave(listed: map<nat, Turn>)

  predicate Entry(pc: Pc) {
    || pc == EnsureReadThread || pc == TurnReadConversation || pc.SteerRead? || pc.InterruptRead?
    || (pc.CompleteRead? && (pc.state == Completed || pc.state == Failed || pc.state == Interrupted))
    || pc == RestoreRead
  }

  datatype Call = Call(process: nat, pc: Pc, guard: nat)

  /** `claimed` holds the processes whose memory has an entry for the thread;
      `starter` is the call whose row was journalled first, and `conversations` and
      `remoteTurns` record the remote calls issued. */
  datatype World = World(
    store: Store, calls: map<nat, Call>, claimed: set<nat>, nextTurn: nat,
    starter: Option<nat>, conversations: nat, remoteTurns: seq<nat>)

  datatype TxAnswer = Committed | Refused | Unacknowledged

  datatype Action =
    | Begin(id: nat, process: nat, pc: Pc, guard: nat)
    | Advance(id: nat, ok: bool, tx: TxAnswer)
    | Abandon(id: nat)
    | Crash(process: nat)
    | OtherWrite

  // ---------------------------------------------------------------------
  // Steps
  // ---------------------------------------------------------------------

  function End(w: World, id: nat): (r: World)
    ensures w.calls.Keys <= {id} ==> r.calls == map[]
  {
    w.(calls := w.calls - {id})
  }

  function Goto(w: World, id: nat, c: Call, pc: Pc): (r: World)
    ensures w.calls.Keys <= {id} ==> r.calls == map[id := c.(pc := pc)]
  {
    w.(calls := w.calls[id := c.(pc := pc)])
  }

  predicate Commits(w: World, c: Call, tx: TxAnswer) { tx != Refused && c.guard == w.store.revision }

  /** A fenced write. Not knowing that it was committed is a failure: the call then
      goes on with its old fence, or ends. */
  function Write(w: World, id: nat, c: Call, store: Store, tx: TxAnswer, next: Option<Pc>, failed: Option<Pc>): World {
    var committed := Commits(w, c, tx);
    var w := if committed then w.(store := store.(revision := w.store.revision + 1)) else w;
    if committed && tx == Committed then
      if next.Some? then w.(calls := w.calls[id := c.(pc := next.value, guard := c.guard + 1)]) else End(w, id)
    else if failed.Some? then Goto(w, id, c, failed.value)
    else End(w, id)
  }

  function PutTurn(s: Store, turn: nat, state: TurnState, hasRef: bool): Store {
    s.(turns := s.turns[turn := Turn(state, hasRef)])
  }

  predicate ReadyTurn(s: Store, turn: nat) { turn in s.turns && Active(s.turns[turn]) && s.turns[turn].hasRef }

  predicate AnyActive(s: Store) { exists t :: t in s.turns && Active(s.turns[t]) }

  function InterruptAll(turns: map<nat, Turn>, listed: map<nat, Turn>): map<nat, Turn> {
    map t | t in turns.Keys + listed.Keys ::
      if t in listed && Active(listed[t]) then Turn(Interrupted, listed[t].hasRef)
      else if t in turns then turns[t]
      else listed[t]
  }

  function EnsureStep(w: World, id: nat, c: Call, ok: bool, tx: TxAnswer): World {
    match c.pc
    case EnsureReadThread => if w.store.threadAttached then End(w, id) else Goto(w, id, c, EnsureReadRow)
    case EnsureReadRow => if w.store.row.Some? then End(w, id) else Goto(w, id, c, EnsureClaim)
    case EnsureClaim =>
      if c.process in w.claimed then End(w, id)
      else Goto(w.(claimed := w.claimed + {c.process}), id, c, EnsureSaveRow)
    case EnsureSaveRow =>
      var t := Write(w, id, c, w.store.(row := Some(Creating)), tx, Some(EnsureRemote), None);
      var t := if Commits(w, c, tx) then t.(starter := Some(id)) else t;
      if Commits(w, c, tx) && tx == Committed then t else t.(claimed := t.claimed - {c.process})
    case EnsureRemote =>
      Goto(w.(conversations := w.conversations + 1), id, c, if ok then EnsureSaveAttached else EnsureSaveOrphan)
    case EnsureSaveAttached =>
      Write(w, id, c, w.store.(row := Some(Attached), threadAttached := true), tx, None, Some(EnsureSaveOrphan))
    case _ => Write(w, id, c, w.store.(row := Some(PossibleOrphan)), tx, None, None)
  }

  function TurnStep(w: World, id: nat, c: Call, ok: bool, tx: TxAnswer): World {
    match c.pc
    case TurnReadConversation => if w.store.row == Some(Attached) then Goto(w, id, c, TurnCheckActive) else End(w, id)
    case TurnCheckActive =>
      if AnyActive(w.store) then End(w, id)
      else Goto(w.(nextTurn := w.nextTurn + 1), id, c, TurnSavePrepared(w.nextTurn))
    case TurnSavePrepared(turn) =>
      Write(w, id, c, PutTurn(w.store, turn, Prepared, false), tx, Some(TurnRemote(turn)), None)
    case TurnRemote(turn) =>
      Goto(w.(remoteTurns := w.remoteTurns + [turn]), id, c, if ok then TurnSaveStarted(turn) else TurnSaveOrphan(turn, false))
    case TurnSaveStarted(turn) =>
      Write(w, id, c, PutTurn(w.store, turn, Started, true), tx, None, Some(TurnSaveOrphan(turn, true)))
    case TurnSaveOrphan(turn, hasRef) => Write(w, id, c, PutTurn(w.store, turn, TurnOrphan, hasRef), tx, None, None)
    case _ => w
  }

  function SteerStep(w: World, id: nat, c: Call, ok: bool, tx: TxAnswer): World {
    match c.pc
    case SteerRead(turn) => if ReadyTurn(w.store, turn) then Goto(w, id, c, SteerSave(turn)) else End(w, id)
    case SteerSave(turn) => Write(w, id, c, PutTurn(w.store, turn, Steering, true), tx, Some(SteerRemote(turn)), None)
    case SteerRemote(turn) => Goto(w, id, c, if ok then SteerSaveStarted(turn) else SteerSaveUnknown(turn))
    case SteerSaveStarted(turn) => Write(w, id, c, PutTurn(w.store, turn, Started, true), tx, None, None)
    case SteerSaveUnknown(turn) => Write(w, id, c, PutTurn(w.store, turn, Unknown, true), tx, None, None)
    case _ => w
  }

  function CloseTurnStep(w: World, id: nat, c: Call, ok: bool, tx: TxAnswer): World {
    match c.pc
    case InterruptRead(turn) => if ReadyTurn(w.store, turn) then Goto(w, id, c, InterruptRemote(turn)) else End(w, id)
    case InterruptRemote(turn) => Goto(w, id, c, InterruptSave(turn, if ok then Interrupted else Unknown))
    case InterruptSave(turn, state) => Write(w, id, c, PutTurn(w.store, turn, state, true), tx, None, None)
    case CompleteRead(turn, state) => if ReadyTurn(w.store, turn) then Goto(w, id, c, CompleteSave(turn, state)) else End(w, id)
    case CompleteSave(turn, state) => Write(w, id, c, PutTurn(w.store, turn, state, true), tx, None, None)
    case RestoreRead => Goto(w, id, c, RestoreSave(w.store.turns))
    case RestoreSave(listed) => Write(w, id, c, w.store.(turns := InterruptAll(w.store.turns, listed)), tx, None, None)
    case _ => w
  }

  function AdvanceStep(w: World, id: nat, c: Call, ok: bool, tx: TxAnswer): World {
    match c.pc
    case EnsureReadThread | EnsureReadRow | EnsureClaim | EnsureSaveRow | EnsureRemote | EnsureSaveAttached | EnsureSaveOrphan =>
      EnsureStep(w, id, c, ok, tx)
    case TurnReadConversation | TurnCheckActive | TurnSavePrepared(_) | TurnRemote(_) | TurnSaveStarted(_) | TurnSaveOrphan(_, _) =>
      TurnStep(w, id, c, ok, tx)
    case SteerRead(_) | SteerSave(_) | SteerRemote(_) | SteerSaveStarted(_) | SteerSaveUnknown(_) => SteerStep(w, id, c, ok, tx)
    case _ => CloseTurnStep(w, id, c, ok, tx)
  }

  /** One action; one that does not apply changes nothing. A caller's fence comes
      from the store, so it is never ahead of it. */
  function Step(w: World, a: Action): World {
    match a
    case Begin(id, process, pc, guard) =>
      if id in w.calls || w.starter == Some(id) || !Entry(pc) || guard > w.store.revision then w
      else w.(calls := w.calls[id := Call(process, pc, guard)])
    case Advance(id, ok, tx) => if id in w.calls then AdvanceStep(w, id, w.calls[id], ok, tx) else w
    case Abandon(id) => End(w, id)
    case Crash(process) =>
      w.(calls := map id | id in w.calls && w.calls[id].process != process :: w.calls[id], claimed := w.claimed - {process})
    case OtherWrite => w.(store := w.store.(revision := w.store.revision + 1))
  }

  function Run(w: World, actions: seq<Action>): World
    decreases |actions|
  {
    if actions == [] then w else Run(Step(w, actions[0]), actions[1..])
  }

  /** Nothing is journalled and nobody is at work. */
  predicate Initial(w: World) {
    && !w.store.threadAttached && w.store.row.None? && w.store.turns == map[] && w.calls == map[]
    && w.starter.None? && w.conversations == 0 && w.remoteTurns == []
  }

  // ---------------------------------------------------------------------
  // The fence
  // ---------------------------------------------------------------------

  /** What a call that still holds the current fence knows of the store. */
  ghost predicate Known(s: Store, pc: Pc) {
    match pc
    case EnsureClaim => s.row.None?
    case EnsureSaveRow => s.row.None?
    case TurnSavePrepared(_) => !AnyActive(s)
    case TurnRemote(turn) => turn in s.turns && Active(s.turns[turn])
    case TurnSaveStarted(turn) => turn in s.turns && Active(s.turns[turn])
    case SteerSave(turn) => turn in s.turns && Active(s.turns[turn])
    case SteerRemote(turn) => turn in s.turns && Active(s.turns[turn])
    case SteerSaveStarted(turn) => turn in s.turns && Active(s.turns[turn])
    case RestoreSave(listed) => listed == s.turns
    case _ => true
  }

  /** Turns are closed in an inactive state. */
  predicate Closing(pc: Pc) {
    && (pc.InterruptSave? ==> pc.state == Interrupted || pc.state == Unknown)
    && (pc.CompleteRead? || pc.CompleteSave? ==> pc.state == Completed || pc.state == Failed || pc.state == Interrupted)
  }

  ghost predicate Holds(s: Store, c: Call) {
    c.guard <= s.revision && (c.guard == s.revision ==> Known(s, c.pc)) && Closing(c.pc)
  }

  ghost predicate OneActive(turns: map<nat, Turn>) {
    forall t, u :: t in turns && u in turns && Active(turns[t]) && Active(turns[u]) ==> t == u
  }

  ghost predicate Fenced(w: World) {
    OneActive(w.store.turns) && forall id :: id in w.calls ==> Holds(w.store, w.calls[id])
  }

  /** A write happens only under the current fence and outdates every other. */
  lemma WriteKeepsFenced(w: World, id: nat, c: Call, store: Store, tx: TxAnswer, next: Option<Pc>, failed: Option<Pc>)
    requires Fenced(w) && id in w.calls && w.calls[id] == c
    requires c.guard == w.store.revision ==> OneActive(store.turns)
    requires c.guard == w.store.revision && next.Some? ==> Known(store.(revision := c.guard + 1), next.value)
    requires c.guard == w.store.revision && failed.Some? ==> Known(w.store, failed.value)
    requires (next.Some? ==> Closing(next.value)) && (failed.Some? ==> Closing(failed.value))
    ensures Fenced(Write(w, id, c, store, tx, next, failed))
  {
    hide Known, Closing;
  }

  lemma PutKeepsOneActive(s: Store, turn: nat, state: TurnState, hasRef: bool)
    requires OneActive(s.turns)
    requires !AnyActive(s) || !Active(Turn(state, hasRef)) || (turn in s.turns && Active(s.turns[turn]))
    ensures OneActive(PutTurn(s, turn, state, hasRef).turns)
  {
  }

  lemma InterruptKeepsOneActive(s: Store)
    requires OneActive(s.turns)
    ensures OneActive(InterruptAll(s.turns, s.turns))
  {
  }

  lemma EnsureKeepsFenced(w: World, id: nat, c: Call, ok: bool, tx: TxAnswer)
    requires Fenced(w) && id in w.calls && w.calls[id] == c
    ensures Fenced(EnsureStep(w, id, c, ok, tx))
  {
    hide OneActive, Write;
    match c.pc
    case EnsureSaveRow => WriteKeepsFenced(w, id, c, w.store.(row := Some(Creating)), tx, Some(EnsureRemote), None);
    case EnsureSaveAttached =>
      WriteKeepsFenced(w, id, c, w.store.(row := Some(Attached), threadAttached := true), tx, None, Some(EnsureSaveOrphan));
    case EnsureReadThread =>
    case EnsureReadRow =>
    case EnsureClaim =>
    case EnsureRemote =>
    case _ => WriteKeepsFenced(w, id, c, w.store.(row := Some(PossibleOrphan)), tx, None, None);
  }

  lemma TurnKeepsFenced(w: World, id: nat, c: Call, ok: bool, tx: TxAnswer)
    requires Fenced(w) && id in w.calls && w.calls[id] == c
    ensures Fenced(TurnStep(w, id, c, ok, tx))
  {
    hide OneActive, Write;
    match c.pc
    case TurnSavePrepared(turn) =>
      if c.guard == w.store.revision { PutKeepsOneActive(w.store, turn, Prepared, false); }
      WriteKeepsFenced(w, id, c, PutTurn(w.store, turn, Prepared, false), tx, Some(TurnRemote(turn)), None);
    case TurnSaveStarted(turn) =>
      if c.guard == w.store.revision { PutKeepsOneActive(w.store, turn, Started, true); }
      WriteKeepsFenced(w, id, c, PutTurn(w.store, turn, Started, true), tx, None, Some(TurnSaveOrphan(turn, true)));
    case TurnSaveOrphan(turn, hasRef) =>
      PutKeepsOneActive(w.store, turn, TurnOrphan, hasRef);
      WriteKeepsFenced(w, id, c, PutTurn(w.store, turn, TurnOrphan, hasRef), tx, None, None);
    case _ =>
  }

  lemma SteerKeepsFenced(w: World, id: nat, c: Call, ok: bool, tx: TxAnswer)
    requires Fenced(w) && id in w.calls && w.calls[id] == c
    ensures Fenced(SteerStep(w, id, c, ok, tx))
  {
    hide OneActive, Write;
    match c.pc
    case SteerSave(turn) =>
      if c.guard == w.store.revision { PutKeepsOneActive(w.store, turn, Steering, true); }
      WriteKeepsFenced(w, id, c, PutTurn(w.store, turn, Steering, true), tx, Some(SteerRemote(turn)), None);
    case SteerSaveStarted(turn) =>
      if c.guard == w.store.revision { PutKeepsOneActive(w.store, turn, Started, true); }
      WriteKeepsFenced(w, id, c, PutTurn(w.store, turn, Started, true), tx, None, None);
    case SteerSaveUnknown(turn) =>
      PutKeepsOneActive(w.store, turn, Unknown, true);
      WriteKeepsFenced(w, id, c, PutTurn(w.store, turn, Unknown, true), tx, None, None);
    case _ =>
  }

  lemma CloseKeepsFenced(w: World, id: nat, c: Call, ok: bool, tx: TxAnswer)
    requires Fenced(w) && id in w.calls && w.calls[id] == c
    ensures Fenced(CloseTurnStep(w, id, c, ok, tx))
  {
    hide OneActive, Write;
    match c.pc
    case InterruptSave(turn, state) =>
      PutKeepsOneActive(w.store, turn, state, true);
      WriteKeepsFenced(w, id, c, PutTurn(w.store, turn, state, true), tx, None, None);
    case CompleteSave(turn, state) =>
      PutKeepsOneActive(w.store, turn, state, true);
      WriteKeepsFenced(w, id, c, PutTurn(w.store, turn, state, true), tx, None, None);
    case RestoreSave(listed) =>
      if c.guard == w.store.revision { InterruptKeepsOneActive(w.store); }
      WriteKeepsFenced(w, id, c, w.store.(turns := InterruptAll(w.store.turns, listed)), tx, None, None);
    case _ =>
  }

  lemma StepKeepsFenced(w: World, a: Action)
    requires Fenced(w)
    ensures Fenced(Step(w, a))
  {
    hide OneActive, EnsureStep, TurnStep, SteerStep, CloseTurnStep;
    match a
    case Advance(id, ok, tx) =>
      if id in w.calls {
        EnsureKeepsFenced(w, id, w.calls[id], ok, tx);
        TurnKeepsFenced(w, id, w.calls[id], ok, tx);
        SteerKeepsFenced(w, id, w.calls[id], ok, tx);
        CloseKeepsFenced(w, id, w.calls[id], ok, tx);
      }
    case _ =>
  }

  // ---------------------------------------------------------------------
  // The remote calls
  // ---------------------------------------------------------------------

  /** The conversation is started remotely only by the call that journalled the
      first row, and only once. */
  ghost predicate OneConversation(w: World) {
    && (w.store.row.None? ==> w.starter.None?)
    && (w.starter.None? ==> w.conversations == 0)
    && w.conversations <= 1
    && forall id :: id in w.calls && w.calls[id].pc == EnsureRemote ==> w.starter == Some(id) && w.conversations == 0
  }

  /** The turn a call is about to journal or to start remotely. */
  function Pending(pc: Pc): Option<nat> {
    match pc
    case TurnSavePrepared(turn) => Some(turn)
    case TurnRemote(turn) => Some(turn)
    case _ => None
  }

  /** Each journalled turn is started remotely at most once, after its row. */
  ghost predicate TurnsOnce(w: World) {
    && (forall id :: id in w.calls && Pending(w.calls[id].pc).Some? ==>
         Pending(w.calls[id].pc).value < w.nextTurn && Pending(w.calls[id].pc).value !in w.remoteTurns)
    && (forall id, other ::
         (id in w.calls && other in w.calls && Pending(w.calls[id].pc).Some? &&
          Pending(w.calls[id].pc) == Pending(w.calls[other].pc)) ==> id == other)
    && (forall id :: id in w.calls && w.calls[id].pc.TurnRemote? ==> w.calls[id].pc.turn in w.store.turns)
    && (forall i :: 0 <= i < |w.remoteTurns| ==> w.remoteTurns[i] < w.nextTurn && w.remoteTurns[i] in w.store.turns)
    && (forall i, j :: 0 <= i < j < |w.remoteTurns| ==> w.remoteTurns[i] != w.remoteTurns[j])
  }

  /** A call's step leaves the other calls where they are. */
  ghost predicate OthersStay(w: World, t: World, id: nat) {
    forall other :: other != id ==>
      (other in t.calls <==> other in w.calls) && (other in t.calls ==> t.calls[other] == w.calls[other])
  }

  lemma WriteLeavesOthers(w: World, id: nat, c: Call, store: Store, tx: TxAnswer, next: Option<Pc>, failed: Option<Pc>)
    ensures var t := Write(w, id, c, store, tx, next, failed);
            && OthersStay(w, t, id) && t.starter == w.starter && t.conversations == w.conversations
            && t.nextTurn == w.nextTurn && t.remoteTurns == w.remoteTurns
            && t.store == (if Commits(w, c, tx) then store.(revision := w.store.revision + 1) else w.store)
            && (id in t.calls ==> Some(t.calls[id].pc) == next || Some(t.calls[id].pc) == failed)
            && (id in t.calls && Some(t.calls[id].pc) != failed ==> Commits(w, c, tx))
  {
  }

  // --- Conversations ---

  lemma SaveRowKeepsOneConversation(w: World, id: nat, c: Call, ok: bool, tx: TxAnswer)
    requires Fenced(w) && OneConversation(w) && id in w.calls && w.calls[id] == c && c.pc == EnsureSaveRow
    ensures OneConversation(EnsureStep(w, id, c, ok, tx))
  {
    hide OneActive, Write, Closing;
    WriteLeavesOthers(w, id, c, w.store.(row := Some(Creating)), tx, Some(EnsureRemote), None);
    var t := EnsureStep(w, id, c, ok, tx);
    forall other | other in t.calls && t.calls[other].pc == EnsureRemote
      ensures t.starter == Some(other) && t.conversations == 0
    {
      if other != id { assert w.calls[other].pc == EnsureRemote; }
    }
  }

  lemma SaveAgainKeepsOneConversation(w: World, id: nat, c: Call, ok: bool, tx: TxAnswer)
    requires OneConversation(w) && id in w.calls && w.calls[id] == c
    requires c.pc == EnsureSaveAttached || c.pc == EnsureSaveOrphan
    ensures OneConversation(EnsureStep(w, id, c, ok, tx))
  {
    hide Write;
    WriteLeavesOthers(w, id, c, w.store.(row := Some(Attached), threadAttached := true), tx, None, Some(EnsureSaveOrphan));
    WriteLeavesOthers(w, id, c, w.store.(row := Some(PossibleOrphan)), tx, None, None);
  }

  lemma EnsureKeepsOneConversation(w: World, id: nat, c: Call, ok: bool, tx: TxAnswer)
    requires Fenced(w) && OneConversation(w) && id in w.calls && w.calls[id] == c
    requires c.pc == EnsureReadThread || c.pc == EnsureReadRow || c.pc == EnsureClaim || c.pc == EnsureSaveRow ||
             c.pc == EnsureRemote || c.pc == EnsureSaveAttached || c.pc == EnsureSaveOrphan
    ensures OneConversation(EnsureStep(w, id, c, ok, tx))
  {
    hide Fenced, Write;
    if c.pc == EnsureSaveRow {
      SaveRowKeepsOneConversation(w, id, c, ok, tx);
    } else if c.pc == EnsureSaveAttached || c.pc == EnsureSaveOrphan {
      SaveAgainKeepsOneConversation(w, id, c, ok, tx);
    }
  }

  /** A step that neither touches the row nor reaches the remote start. */
  ghost predicate LeavesConversation(w: World, t: World, id: nat) {
    && OthersStay(w, t, id) && t.starter == w.starter && t.conversations == w.conversations && t.store.row == w.store.row
    && (id in t.calls ==> t.calls[id].pc != EnsureRemote)
  }

  lemma TurnLeavesConversation(w: World, id: nat, c: Call, ok: bool, tx: TxAnswer)
    requires id in w.calls && w.calls[id] == c && c.pc != EnsureRemote
    ensures LeavesConversation(w, TurnStep(w, id, c, ok, tx), id)
  {
    hide AnyActive;
  }

  lemma SteerLeavesConversation(w: World, id: nat, c: Call, ok: bool, tx: TxAnswer)
    requires id in w.calls && w.calls[id] == c && c.pc != EnsureRemote
    ensures LeavesConversation(w, SteerStep(w, id, c, ok, tx), id)
  {
    hide ReadyTurn;
  }

  lemma CloseLeavesConversation(w: World, id: nat, c: Call, ok: bool, tx: TxAnswer)
    requires id in w.calls && w.calls[id] == c && c.pc != EnsureRemote
    ensures LeavesConversation(w, CloseTurnStep(w, id, c, ok, tx), id)
  {
    hide ReadyTurn, InterruptAll;
  }

  lemma LeavingKeepsOneConversation(w: World, t: World, id: nat)
    requires OneConversation(w) && LeavesConversation(w, t, id)
    ensures OneConversation(t)
  {
  }

  lemma TurnKeepsOneConversation(w: World, id: nat, c: Call, ok: bool, tx: TxAnswer)
    requires OneConversation(w) && id in w.calls && w.calls[id] == c && c.pc != EnsureRemote
    ensures OneConversation(TurnStep(w, id, c, ok, tx))
    ensures OneConversation(SteerStep(w, id, c, ok, tx))
    ensures OneConversation(CloseTurnStep(w, id, c, ok, tx))
  {
    hide TurnStep, SteerStep, CloseTurnStep, LeavesConversation, OneConversation;
    TurnLeavesConversation(w, id, c, ok, tx);
    LeavingKeepsOneConversation(w, TurnStep(w, id, c, ok, tx), id);
    SteerLeavesConversation(w, id, c, ok, tx);
    LeavingKeepsOneConversation(w, SteerStep(w, id, c, ok, tx), id);
    CloseLeavesConversation(w, id, c, ok, tx);
    LeavingKeepsOneConversation(w, CloseTurnStep(w, id, c, ok, tx), id);
  }

  lemma OtherActionsKeepOneConversation(w: World, a: Action)
    requires OneConversation(w) && !a.Advance?
    ensures OneConversation(Step(w, a))
  {
    hide EnsureStep, TurnStep, SteerStep, CloseTurnStep;
  }

  lemma StepKeepsOneConversation(w: World, a: Action)
    requires Fenced(w) && OneConversation(w)
    ensures OneConversation(Step(w, a))
  {
    hide Fenced, OneConversation, EnsureStep, TurnStep, SteerStep, CloseTurnStep;
    if !a.Advance? {
      OtherActionsKeepOneConversation(w, a);
    } else if a.id in w.calls {
      var c := w.calls[a.id];
      if c.pc == EnsureReadThread || c.pc == EnsureReadRow || c.pc == EnsureClaim || c.pc == EnsureSaveRow ||
         c.pc == EnsureRemote || c.pc == EnsureSaveAttached || c.pc == EnsureSaveOrphan {
        EnsureKeepsOneConversation(w, a.id, c, a.ok, a.tx);
      } else {
        TurnKeepsOneConversation(w, a.id, c, a.ok, a.tx);
      }
    }
  }

  // --- Turns ---

  /** A step that keeps every turn row; a turn that is pending afterwards was
      pending before, and is journalled if it is to be started. */
  ghost predicate LeavesTurns(w: World, t: World, id: nat) {
    && OthersStay(w, t, id) && t.nextTurn == w.nextTurn && t.remoteTurns == w.remoteTurns
    && w.store.turns.Keys <= t.store.turns.Keys
    && (id in t.calls && Pending(t.calls[id].pc).Some? ==>
        && id in w.calls && Pending(t.calls[id].pc) == Pending(w.calls[id].pc)
        && Pending(t.calls[id].pc).value in t.store.turns)
  }

  lemma LeavingKeepsTurnsOnce(w: World, t: World, id: nat)
    requires TurnsOnce(w) && LeavesTurns(w, t, id)
    ensures TurnsOnce(t)
  {
    assert forall other :: other in t.calls && other != id ==> other in w.calls && t.calls[other] == w.calls[other];
  }

  lemma WriteLeavesTurns(w: World, id: nat, c: Call, store: Store, tx: TxAnswer, next: Option<Pc>, failed: Option<Pc>)
    requires id in w.calls && w.calls[id] == c
    requires w.store.turns.Keys <= store.turns.Keys
    requires next.Some? && Pending(next.value).Some? ==>
               Pending(next.value) == Pending(c.pc) && Pending(next.value).value in store.turns
    requires failed.Some? ==> Pending(failed.value).None?
    ensures LeavesTurns(w, Write(w, id, c, store, tx, next, failed), id)
  {
    hide Write, Pending;
    WriteLeavesOthers(w, id, c, store, tx, next, failed);
  }

  lemma EnsureLeavesTurns(w: World, id: nat, c: Call, ok: bool, tx: TxAnswer)
    requires id in w.calls && w.calls[id] == c
    ensures LeavesTurns(w, EnsureStep(w, id, c, ok, tx), id)
  {
    hide Write;
    match c.pc
    case EnsureSaveRow => WriteLeavesTurns(w, id, c, w.store.(row := Some(Creating)), tx, Some(EnsureRemote), None);
    case EnsureSaveAttached =>
      WriteLeavesTurns(w, id, c, w.store.(row := Some(Attached), threadAttached := true), tx, None, Some(EnsureSaveOrphan));
    case EnsureReadThread =>
    case EnsureReadRow =>
    case EnsureClaim =>
    case EnsureRemote =>
    case _ => WriteLeavesTurns(w, id, c, w.store.(row := Some(PossibleOrphan)), tx, None, None);
  }

  lemma SteerLeavesTurns(w: World, id: nat, c: Call, ok: bool, tx: TxAnswer)
    requires id in w.calls && w.calls[id] == c && Pending(c.pc).None?
    ensures LeavesTurns(w, SteerStep(w, id, c, ok, tx), id)
  {
    hide Write, ReadyTurn;
    match c.pc
    case SteerSave(turn) => WriteLeavesTurns(w, id, c, PutTurn(w.store, turn, Steering, true), tx, Some(SteerRemote(turn)), None);
    case SteerSaveStarted(turn) => WriteLeavesTurns(w, id, c, PutTurn(w.store, turn, Started, true), tx, None, None);
    case SteerSaveUnknown(turn) => WriteLeavesTurns(w, id, c, PutTurn(w.store, turn, Unknown, true), tx, None, None);
    case _ =>
  }

  lemma CloseLeavesTurns(w: World, id: nat, c: Call, ok: bool, tx: TxAnswer)
    requires id in w.calls && w.calls[id] == c && Pending(c.pc).None?
    ensures LeavesTurns(w, CloseTurnStep(w, id, c, ok, tx), id)
  {
    hide Write, ReadyTurn;
    match c.pc
    case InterruptSave(turn, state) => WriteLeavesTurns(w, id, c, PutTurn(w.store, turn, state, true), tx, None, None);
    case CompleteSave(turn, state) => WriteLeavesTurns(w, id, c, PutTurn(w.store, turn, state, true), tx, None, None);
    case RestoreSave(listed) =>
      WriteLeavesTurns(w, id, c, w.store.(turns := InterruptAll(w.store.turns, listed)), tx, None, None);
    case _ =>
  }

  /** The steps of a starting turn other than the two that give it its number and
      start it. */
  lemma TurnLeavesTurns(w: World, id: nat, c: Call, ok: bool, tx: TxAnswer)
    requires id in w.calls && w.calls[id] == c && c.pc != TurnCheckActive && !c.pc.TurnRemote?
    ensures LeavesTurns(w, TurnStep(w, id, c, ok, tx), id)
  {
    hide Write;
    match c.pc
    case TurnSavePrepared(turn) =>
      WriteLeavesTurns(w, id, c, PutTurn(w.store, turn, Prepared, false), tx, Some(TurnRemote(turn)), None);
    case TurnSaveStarted(turn) =>
      WriteLeavesTurns(w, id, c, PutTurn(w.store, turn, Started, true), tx, None, Some(TurnSaveOrphan(turn, true)));
    case TurnSaveOrphan(turn, hasRef) =>
      WriteLeavesTurns(w, id, c, PutTurn(w.store, turn, TurnOrphan, hasRef), tx, None, None);
    case _ =>
  }

  lemma TurnRemoteKeepsTurnsOnce(w: World, id: nat, c: Call, ok: bool, tx: TxAnswer)
    requires TurnsOnce(w) && id in w.calls && w.calls[id] == c && c.pc.TurnRemote?
    ensures TurnsOnce(TurnStep(w, id, c, ok, tx))
  {
    hide AnyActive, Write;
    var t := TurnStep(w, id, c, ok, tx);
    assert Pending(c.pc) == Some(c.pc.turn);
    forall other | other in t.calls && Pending(t.calls[other].pc).Some? ensures Pending(t.calls[other].pc).value !in t.remoteTurns {
      assert Pending(w.calls[other].pc) != Pending(w.calls[id].pc);
    }
  }

  lemma TurnCheckKeepsTurnsOnce(w: World, id: nat, c: Call, ok: bool, tx: TxAnswer)
    requires TurnsOnce(w) && id in w.calls && w.calls[id] == c && c.pc == TurnCheckActive
    ensures TurnsOnce(TurnStep(w, id, c, ok, tx))
  {
    hide AnyActive;
  }

  lemma TurnKeepsTurnsOnce(w: World, id: nat, c: Call, ok: bool, tx: TxAnswer)
    requires TurnsOnce(w) && id in w.calls && w.calls[id] == c
    ensures TurnsOnce(TurnStep(w, id, c, ok, tx))
  {
    hide TurnStep, TurnsOnce, LeavesTurns;
    if c.pc.TurnRemote? {
      TurnRemoteKeepsTurnsOnce(w, id, c, ok, tx);
    } else if c.pc == TurnCheckActive {
      TurnCheckKeepsTurnsOnce(w, id, c, ok, tx);
    } else {
      TurnLeavesTurns(w, id, c, ok, tx);
      LeavingKeepsTurnsOnce(w, TurnStep(w, id, c, ok, tx), id);
    }
  }

  lemma StepKeepsTurnsOnce(w: World, a: Action)
    requires TurnsOnce(w)
    ensures TurnsOnce(Step(w, a))
  {
    hide EnsureStep, TurnStep, SteerStep, CloseTurnStep, LeavesTurns;
    match a
    case Advance(id, ok, tx) =>
      if id in w.calls {
        var c := w.calls[id];
        TurnKeepsTurnsOnce(w, id, c, ok, tx);
        EnsureLeavesTurns(w, id, c, ok, tx);
        LeavingKeepsTurnsOnce(w, EnsureStep(w, id, c, ok, tx), id);
        if Pending(c.pc).None? {
          SteerLeavesTurns(w, id, c, ok, tx);
          LeavingKeepsTurnsOnce(w, SteerStep(w, id, c, ok, tx), id);
          CloseLeavesTurns(w, id, c, ok, tx);
          LeavingKeepsTurnsOnce(w, CloseTurnStep(w, id, c, ok, tx), id);
        }
      }
    case _ =>
  }

  // ---------------------------------------------------------------------
  // Whole runs
  // ---------------------------------------------------------------------

  lemma {:induction false} RunKeepsInvariants(w: World, actions: seq<Action>)
    requires Fenced(w) && OneConversation(w) && TurnsOnce(w)
    ensures Fenced(Run(w, actions)) && OneConversation(Run(w, actions)) && TurnsOnce(Run(w, actions))
    decreases |actions|
  {
    hide Fenced, OneConversation, TurnsOnce, Step;
    if actions != [] {
      StepKeepsFenced(w, actions[0]);
      StepKeepsOneConversation(w, actions[0]);
      StepKeepsTurnsOnce(w, actions[0]);
      RunKeepsInvariants(Step(w, actions[0]), actions[1..]);
    }
  }

  lemma InitialIsSound(w: World)
    requires Initial(w)
    ensures Fenced(w) && OneConversation(w) && TurnsOnce(w)
  {
  }

  /** Over every interleaving, with crashes, refused and unacknowledged writes: one
      remote conversation at most is started for the thread, only once its row is
      journalled. */
  lemma AtMostOneRemoteConversation(w: World, actions: seq<Action>)
    requires Initial(w)
    ensures var end := Run(w, actions);
            end.conversations <= 1 && (end.conversations == 1 ==> end.store.row.Some?)
  {
    hide Run, Fenced, TurnsOnce;
    InitialIsSound(w);
    RunKeepsInvariants(w, actions);
  }

  /** And one journalled turn at most is active; every remote turn start was of a
      journalled turn, and none is repeated. */
  lemma AtMostOneActiveTurn(w: World, actions: seq<Action>, t: nat, u: nat)
    requires Initial(w)
    requires t in Run(w, actions).store.turns && u in Run(w, actions).store.turns
    requires Active(Run(w, actions).store.turns[t]) && Active(Run(w, actions).store.turns[u])
    ensures t == u
  {
    hide Run, OneConversation, TurnsOnce;
    InitialIsSound(w);
    RunKeepsInvariants(w, actions);
  }

  lemma EachTurnIsStartedOnce(w: World, actions: seq<Action>)
    requires Initial(w)
    ensures var end := Run(w, actions);
            && (forall i :: 0 <= i < |end.remoteTurns| ==> end.remoteTurns[i] in end.store.turns)
            && (forall i, j :: 0 <= i < j < |end.remoteTurns| ==> end.remoteTurns[i] != end.remoteTurns[j])
  {
    hide Run, OneConversation, Fenced;
    InitialIsSound(w);
    RunKeepsInvariants(w, actions);
  }

  // ---------------------------------------------------------------------
  // The service as an object
  // ---------------------------------------------------------------------

  /** The advances of one call, each with the answer of its effect. */
  datatype Answer = Answer(ok: bool, tx: TxAnswer)

  function Advances(id: nat, answers: seq<Answer>): seq<Action> {
    if answers == [] then [] else [Advance(id, answers[0].ok, answers[0].tx)] + Advances(id, answers[1..])
  }

  /** Answers in the order the call asks for them. */
  function CallRun(w: World, id: nat, answers: seq<Answer>): World { Run(w, Advances(id, answers)) }

  lemma CallRunNext(w: World, id: nat, c: Call, answers: seq<Answer>)
    requires answers != [] && w.calls == map[id := c]
    ensures CallRun(w, id, answers) == CallRun(AdvanceStep(w, id, c, answers[0].ok, answers[0].tx), id, answers[1..])
  {
    hide AdvanceStep;
    var rest := Advances(id, answers[1..]);
    assert ([Advance(id, answers[0].ok, answers[0].tx)] + rest)[1..] == rest;
  }

  lemma {:induction false} CallRunEnded(w: World, id: nat, answers: seq<Answer>)
    requires w.calls == map[]
    ensures CallRun(w, id, answers) == w
    decreases |answers|
  {
    hide AdvanceStep;
    if answers != [] {
      var rest := Advances(id, answers[1..]);
      assert ([Advance(id, answers[0].ok, answers[0].tx)] + rest)[1..] == rest;
      CallRunEnded(w, id, answers[1..]);
    }
  }

  /** The answers of one EnsureConversation call, in the order it asks for them. */
  function EnsureAnswers(row: TxAnswer, remoteOk: bool, attach: TxAnswer, orphan: TxAnswer): seq<Answer> {
    [Answer(true, Committed), Answer(true, Committed), Answer(true, Committed), Answer(true, row), Answer(remoteOk, Committed),
     Answer(true, if remoteOk then attach else orphan), Answer(true, orphan)]
  }

  /** Those of the remote start and behind it. */
  function ObtainAnswers(remoteOk: bool, attach: TxAnswer, orphan: TxAnswer): seq<Answer> {
    [Answer(remoteOk, Committed), Answer(true, if remoteOk then attach else orphan), Answer(true, orphan)]
  }

  lemma FirstAnswers(row: TxAnswer, remoteOk: bool, attach: TxAnswer, orphan: TxAnswer)
    ensures var a := EnsureAnswers(row, remoteOk, attach, orphan);
            && |a| == 7 && a[0] == a[1] == a[2] == Answer(true, Committed) && a[3] == Answer(true, row)
            && a[4] == Answer(remoteOk, Committed) && a[5] == Answer(true, if remoteOk then attach else orphan)
            && a[6] == Answer(true, orphan)
  {
  }

  predicate Ensuring(pc: Pc) {
    || pc == EnsureReadThread || pc == EnsureReadRow || pc == EnsureClaim || pc == EnsureSaveRow || pc == EnsureRemote
    || pc == EnsureSaveAttached || pc == EnsureSaveOrphan
  }

  lemma EnsureNext(w: World, id: nat, c: Call, answers: seq<Answer>)
    requires answers != [] && w.calls == map[id := c] && Ensuring(c.pc)
    ensures CallRun(w, id, answers) == CallRun(EnsureStep(w, id, c, answers[0].ok, answers[0].tx), id, answers[1..])
  {
    hide EnsureStep, CallRun;
    CallRunNext(w, id, c, answers);
  }

  /** Where the two reads and the claim leave a call that is alone. */
  function AfterReads(w: World, id: nat): World {
    if id !in w.calls then w
    else if w.store.threadAttached || w.store.row.Some? || w.calls[id].process in w.claimed then w.(calls := map[])
    else w.(claimed := w.claimed + {w.calls[id].process}, calls := map[id := w.calls[id].(pc := EnsureSaveRow)])
  }

  lemma ThreeSteps(w: World, id: nat, c: Call, answers: seq<Answer>)
    requires |answers| >= 3 && w.calls == map[id := c] && c.pc == EnsureReadThread
    ensures CallRun(w, id, answers) == CallRun(AfterReads(w, id), id, answers[3..])
  {
    hide CallRun;
    EnsureNext(w, id, c, answers);
    assert answers[1..][1..] == answers[2..] && answers[2..][1..] == answers[3..];
    if w.store.threadAttached {
      assert EnsureStep(w, id, c, answers[0].ok, answers[0].tx) == AfterReads(w, id);
      CallRunEnded(AfterReads(w, id), id, answers[1..]);
      CallRunEnded(AfterReads(w, id), id, answers[3..]);
    } else {
      var c2 := c.(pc := EnsureReadRow);
      var w2 := w.(calls := map[id := c2]);
      assert EnsureStep(w, id, c, answers[0].ok, answers[0].tx) == w2;
      EnsureNext(w2, id, c2, answers[1..]);
      if w.store.row.Some? {
        assert EnsureStep(w2, id, c2, answers[1].ok, answers[1].tx) == AfterReads(w, id);
        CallRunEnded(AfterReads(w, id), id, answers[2..]);
        CallRunEnded(AfterReads(w, id), id, answers[3..]);
      } else {
        var c3 := c.(pc := EnsureClaim);
        var w3 := w.(calls := map[id := c3]);
        assert EnsureStep(w2, id, c2, answers[1].ok, answers[1].tx) == w3;
        EnsureNext(w3, id, c3, answers[2..]);
        assert EnsureStep(w3, id, c3, answers[2].ok, answers[2].tx) == AfterReads(w, id);
      }
    }
  }

  function Advanced(w: World, id: nat, a: Answer): World { Step(w, Advance(id, a.ok, a.tx)) }

  lemma OneAdvance(w: World, id: nat, a: Answer, rest: seq<Answer>)
    ensures CallRun(w, id, [a] + rest) == CallRun(Advanced(w, id, a), id, rest)
  {
    hide Step;
    assert ([a] + rest)[1..] == rest;
    var more := Advances(id, rest);
    assert ([Advance(id, a.ok, a.tx)] + more)[1..] == more;
  }

  lemma NoAdvance(w: World, id: nat)
    ensures CallRun(w, id, []) == w
  {
  }

  lemma TwoAdvances(w: World, id: nat, a: Answer, b: Answer)
    ensures CallRun(w, id, [a, b]) == Advanced(Advanced(w, id, a), id, b)
  {
    hide CallRun, Step;
    OneAdvance(w, id, a, [b]);
    OneAdvance(Advanced(w, id, a), id, b, []);
    NoAdvance(Advanced(Advanced(w, id, a), id, b), id);
    assert [a] + [b] == [a, b] && [b] + [] == [b];
  }

  lemma ThreeAdvances(w: World, id: nat, a: Answer, b: Answer, c: Answer)
    ensures CallRun(w, id, [a, b, c]) == Advanced(Advanced(Advanced(w, id, a), id, b), id, c)
  {
    hide CallRun, Step;
    OneAdvance(w, id, a, [b, c]);
    TwoAdvances(Advanced(w, id, a), id, b, c);
    assert [a] + [b, c] == [a, b, c];
  }

  lemma FourAdvances(w: World, id: nat, a: Answer, b: Answer, c: Answer, d: Answer)
    ensures CallRun(w, id, [a, b, c, d]) == Advanced(Advanced(Advanced(Advanced(w, id, a), id, b), id, c), id, d)
  {
    hide CallRun, Step;
    OneAdvance(w, id, a, [b, c, d]);
    ThreeAdvances(Advanced(w, id, a), id, b, c, d);
    assert [a] + [b, c, d] == [a, b, c, d];
  }

  /** Where a write leaves a call that is alone. */
  function AfterWrite(id: nat, c: Call, saved: bool, guard: nat, next: Option<Pc>, failed: Option<Pc>): map<nat, Call> {
    if saved then (if next.Some? then map[id := c.(pc := next.value, guard := guard)] else map[])
    else if failed.Some? then map[id := c.(pc := failed.value)]
    else map[]
  }

  lemma NothingNext(w: World, id: nat, a: Answer)
    requires w.calls == map[]
    ensures Advanced(w, id, a) == w
  {
  }

  lemma CloseNext(w: World, id: nat, c: Call, a: Answer)
    requires w.calls == map[id := c]
    requires c.pc.InterruptRead? || c.pc.InterruptRemote? || c.pc.InterruptSave? || c.pc.CompleteRead? || c.pc.CompleteSave? ||
             c.pc == RestoreRead || c.pc.RestoreSave?
    ensures Advanced(w, id, a) == CloseTurnStep(w, id, c, a.ok, a.tx)
  {
    hide CloseTurnStep, SteerStep, TurnStep, EnsureStep;
  }

  lemma SteerNext(w: World, id: nat, c: Call, a: Answer)
    requires w.calls == map[id := c]
    requires c.pc.SteerRead? || c.pc.SteerSave? || c.pc.SteerRemote? || c.pc.SteerSaveStarted? || c.pc.SteerSaveUnknown?
    ensures Advanced(w, id, a) == SteerStep(w, id, c, a.ok, a.tx)
  {
    hide CloseTurnStep, SteerStep, TurnStep, EnsureStep;
  }

  lemma TurnNext(w: World, id: nat, c: Call, a: Answer)
    requires w.calls == map[id := c]
    requires c.pc == TurnReadConversation || c.pc == TurnCheckActive || c.pc.TurnSavePrepared? || c.pc.TurnRemote? ||
             c.pc.TurnSaveStarted? || c.pc.TurnSaveOrphan?
    ensures Advanced(w, id, a) == TurnStep(w, id, c, a.ok, a.tx)
  {
    hide CloseTurnStep, SteerStep, TurnStep, EnsureStep;
  }

  datatype Outcome = Ready | Existing | Unavailable | Orphaned

  class ProviderConversationService {
    const process: nat
    var store: Store
    var claimed: bool
    var nextTurn: nat
    ghost var starter: Option<nat>
    ghost var conversations: nat
    ghost var remoteTurns: seq<nat>

    /** The machine's view while one call is at work, or none is. */
    ghost function View(calls: map<nat, Call>): World
      reads this
    {
      World(store, calls, if claimed then {process} else {}, nextTurn, starter, conversations, remoteTurns)
    }

    /** One fenced transaction. */
    method WithSessionTx(guard: nat, next: Store, tx: TxAnswer) returns (committed: bool, newGuard: nat)
      modifies this`store
      ensures store == if tx != Refused && guard == old(store).revision then next.(revision := guard + 1) else old(store)
      ensures committed <==> tx == Committed && guard == old(store).revision
      ensures newGuard == if committed then guard + 1 else guard
    {
      if tx == Refused || guard != store.revision {
        return false, guard;
      }
      store := next.(revision := guard + 1);
      if tx == Unacknowledged {
        return false, guard;
      }
      return true, guard + 1;
    }

    /** Journals the row, starts the conversation remotely, attaches it in a second
        transaction; an uncertain outcome is kept as a possible orphan. */
    method EnsureConversation(ghost id: nat, guard: nat, row: TxAnswer, remoteOk: bool, attach: TxAnswer, orphan: TxAnswer)
      returns (outcome: Outcome)
      modifies this
      ensures View(map[]) == CallRun(old(View(map[id := Call(process, EnsureReadThread, guard)])), id,
                                     EnsureAnswers(row, remoteOk, attach, orphan))
      ensures outcome == Ready ==> store.row == Some(Attached) && store.threadAttached
      ensures outcome == Existing <==> old(store.threadAttached || store.row.Some? || claimed)
      ensures outcome == Unavailable <==> outcome != Existing && (row != Committed || guard != old(store).revision)
      ensures outcome == Ready <==> outcome != Existing && outcome != Unavailable && remoteOk && attach == Committed
    {
      hide CallRun, EnsureStep, EnsureAnswers;
      ghost var answers := EnsureAnswers(row, remoteOk, attach, orphan);
      ghost var start := View(map[id := Call(process, EnsureReadThread, guard)]);
      FirstAnswers(row, remoteOk, attach, orphan);
      var claims := Claim(id, guard);
      ThreeSteps(start, id, Call(process, EnsureReadThread, guard), answers);
      if !claims {
        CallRunEnded(View(map[]), id, answers[3..]);
        return Existing;
      }
      ghost var c := Call(process, EnsureSaveRow, guard);
      EnsureNext(View(map[id := c]), id, c, answers[3..]);
      var journalled, fence := JournalRow(id, guard, row);
      if !journalled {
        CallRunEnded(View(map[]), id, answers[4..]);
        return Unavailable;
      }
      assert answers[4..] == ObtainAnswers(remoteOk, attach, orphan);
      var attached := ObtainConversation(id, fence, remoteOk, attach, orphan);
      return if attached then Ready else Orphaned;
    }

    /** Starts the conversation remotely and journals what came of it. */
    method ObtainConversation(ghost id: nat, guard: nat, remoteOk: bool, attach: TxAnswer, orphan: TxAnswer) returns (attached: bool)
      requires guard == store.revision
      modifies this
      ensures View(map[]) == CallRun(old(View(map[id := Call(process, EnsureRemote, guard)])), id, ObtainAnswers(remoteOk, attach, orphan))
      ensures attached ==> store.row == Some(Attached) && store.threadAttached
      ensures attached <==> remoteOk && attach == Committed
    {
      hide CallRun, EnsureStep;
      ghost var answers := ObtainAnswers(remoteOk, attach, orphan);
      ghost var c := Call(process, EnsureRemote, guard);
      EnsureNext(View(map[id := c]), id, c, answers);
      StartRemotely(id, guard, remoteOk);
      c := c.(pc := if remoteOk then EnsureSaveAttached else EnsureSaveOrphan);
      EnsureNext(View(map[id := c]), id, c, answers[1..]);
      if remoteOk {
        attached := SaveAttached(id, guard, attach);
        if attached {
          CallRunEnded(View(map[]), id, answers[2..]);
          return;
        }
        EnsureNext(View(map[id := c.(pc := EnsureSaveOrphan)]), id, c.(pc := EnsureSaveOrphan), answers[2..]);
      }
      SaveOrphan(id, guard, orphan);
      CallRunEnded(View(map[]), id, if remoteOk then answers[3..] else answers[2..]);
      return false;
    }

    /** Nothing journalled for the thread, and nobody in this process at it. */
    method Claim(ghost id: nat, guard: nat) returns (claims: bool)
      modifies this`claimed
      ensures claims <==> !(store.threadAttached || store.row.Some? || old(claimed))
      ensures claims ==> claimed
      ensures View(if claims then map[id := Call(process, EnsureSaveRow, guard)] else map[]) ==
              AfterReads(old(View(map[id := Call(process, EnsureReadThread, guard)])), id)
    {
      if store.threadAttached || store.row.Some? || claimed {
        return false;
      }
      claimed := true;
      return true;
    }

    method JournalRow(ghost id: nat, guard: nat, row: TxAnswer) returns (journalled: bool, fence: nat)
      requires claimed
      modifies this
      ensures journalled <==> row == Committed && guard == old(store).revision
      ensures journalled ==> fence == store.revision
      ensures View(if journalled then map[id := Call(process, EnsureRemote, fence)] else map[]) ==
              EnsureStep(old(View(map[id := Call(process, EnsureSaveRow, guard)])), id, Call(process, EnsureSaveRow, guard), true, row)
    {
      if row != Refused && guard == store.revision {
        starter := Some(id);
      }
      journalled, fence := WithSessionTx(guard, store.(row := Some(Creating)), row);
      if !journalled {
        claimed := false;
      }
    }

    method StartRemotely(ghost id: nat, guard: nat, remoteOk: bool)
      modifies this`conversations
      ensures View(map[id := Call(process, if remoteOk then EnsureSaveAttached else EnsureSaveOrphan, guard)]) ==
              EnsureStep(old(View(map[id := Call(process, EnsureRemote, guard)])), id, Call(process, EnsureRemote, guard), remoteOk, Committed)
    {
      conversations := conversations + 1;
    }

    method SaveAttached(ghost id: nat, guard: nat, attach: TxAnswer) returns (attached: bool)
      modifies this`store
      ensures View(if attached then map[] else map[id := Call(process, EnsureSaveOrphan, guard)]) ==
              EnsureStep(old(View(map[id := Call(process, EnsureSaveAttached, guard)])), id, Call(process, EnsureSaveAttached, guard), true, attach)
      ensures attached ==> store.row == Some(Attached) && store.threadAttached
      ensures attached <==> attach == Committed && guard == old(store).revision
    {
      var committed, _ := WithSessionTx(guard, store.(row := Some(Attached), threadAttached := true), attach);
      return committed;
    }

    method SaveOrphan(ghost id: nat, guard: nat, orphan: TxAnswer)
      modifies this`store
      ensures View(map[]) ==
              EnsureStep(old(View(map[id := Call(process, EnsureSaveOrphan, guard)])), id, Call(process, EnsureSaveOrphan, guard), true, orphan)
    {
      var _, _ := WithSessionTx(guard, store.(row := Some(PossibleOrphan)), orphan);
    }

    /** Any journalled turn of the thread still prepared, started or steering. */
    method HasActiveTurn() returns (active: bool)
      ensures active <==> AnyActive(store)
    {
      var remaining := store.turns.Keys;
      while remaining != {}
        invariant remaining <= store.turns.Keys
        invariant forall t :: t in store.turns.Keys - remaining ==> !Active(store.turns[t])
        decreases |remaining|
      {
        var t :| t in remaining;
        if Active(store.turns[t]) {
          return true;
        }
        remaining := remaining - {t};
      }
      return false;
    }

    /** Saves one turn of the journal under the fence. */
    method SaveTurn(ghost id: nat, ghost c: Call, guard: nat, turn: nat, state: TurnState, hasRef: bool, tx: TxAnswer,
                    ghost next: Option<Pc>, ghost failed: Option<Pc>) returns (saved: bool, newGuard: nat)
      requires c.process == process && c.guard == guard
      modifies this`store
      ensures newGuard == (if saved then guard + 1 else guard)
      ensures View(AfterWrite(id, c, saved, newGuard, next, failed)) ==
              Write(old(View(map[id := c])), id, c, PutTurn(old(store), turn, state, hasRef), tx, next, failed)
      ensures saved ==> turn in store.turns && store.turns[turn] == Turn(state, hasRef)
      ensures saved <==> guard == old(store).revision && tx == Committed
      ensures saved ==> store.revision == guard + 1
    {
      saved, newGuard := WithSessionTx(guard, PutTurn(store, turn, state, hasRef), tx);
    }

    /** Closes an active turn in the state the provider reported. */
    method CompleteTurn(ghost id: nat, guard: nat, turn: nat, state: TurnState, tx: TxAnswer) returns (completed: bool)
      modifies this`store
      ensures View(map[]) == CallRun(old(View(map[id := Call(process, CompleteRead(turn, state), guard)])), id,
                                     [Answer(true, Committed), Answer(true, tx)])
      ensures completed ==> turn in store.turns && store.turns[turn] == Turn(state, true)
      ensures completed <==> ReadyTurn(old(store), turn) && guard == old(store).revision && tx == Committed
    {
      hide Write, Step, AdvanceStep, CallRun;
      ghost var a, b := Answer(true, Committed), Answer(true, tx);
      ghost var c := Call(process, CompleteRead(turn, state), guard);
      TwoAdvances(View(map[id := c]), id, a, b);
      CloseNext(View(map[id := c]), id, c, a);
      if turn !in store.turns || !Active(store.turns[turn]) || !store.turns[turn].hasRef {
        NothingNext(View(map[]), id, b);
        return false;
      }
      c := c.(pc := CompleteSave(turn, state));
      CloseNext(View(map[id := c]), id, c, b);
      var last;
      completed, last := SaveTurn(id, c, guard, turn, state, true, tx, None, None);
    }

    /** Cancels a turn remotely; an uncertain cancellation leaves it unknown. */
    method InterruptTurn(ghost id: nat, guard: nat, turn: nat, remoteOk: bool, tx: TxAnswer) returns (interrupted: bool)
      modifies this`store
      ensures View(map[]) == CallRun(old(View(map[id := Call(process, InterruptRead(turn), guard)])), id,
                                     [Answer(true, Committed), Answer(remoteOk, Committed), Answer(true, tx)])
      ensures interrupted <==> ReadyTurn(old(store), turn) && remoteOk && guard == old(store).revision && tx == Committed
      ensures interrupted ==> turn in store.turns && store.turns[turn] == Turn(Interrupted, true)
    {
      hide Write, Step, AdvanceStep, CallRun;
      ghost var a, b, d := Answer(true, Committed), Answer(remoteOk, Committed), Answer(true, tx);
      ghost var c := Call(process, InterruptRead(turn), guard);
      ThreeAdvances(View(map[id := c]), id, a, b, d);
      CloseNext(View(map[id := c]), id, c, a);
      if turn !in store.turns || !Active(store.turns[turn]) || !store.turns[turn].hasRef {
        NothingNext(View(map[]), id, b);
        NothingNext(View(map[]), id, d);
        return false;
      }
      interrupted := CancelRemotely(id, guard, turn, remoteOk, tx);
    }

    /** The remote cancellation and its outcome. */
    method CancelRemotely(ghost id: nat, guard: nat, turn: nat, remoteOk: bool, tx: TxAnswer) returns (interrupted: bool)
      modifies this`store
      ensures View(map[]) == Advanced(Advanced(old(View(map[id := Call(process, InterruptRemote(turn), guard)])), id,
                                               Answer(remoteOk, Committed)), id, Answer(true, tx))
      ensures interrupted <==> remoteOk && guard == old(store).revision && tx == Committed
      ensures interrupted ==> turn in store.turns && store.turns[turn] == Turn(Interrupted, true)
    {
      hide Write, Step, AdvanceStep;
      ghost var c := Call(process, InterruptRemote(turn), guard);
      CloseNext(View(map[id := c]), id, c, Answer(remoteOk, Committed));
      c := c.(pc := InterruptSave(turn, if remoteOk then Interrupted else Unknown));
      CloseNext(View(map[id := c]), id, c, Answer(true, tx));
      var saved, last := SaveTurn(id, c, guard, turn, if remoteOk then Interrupted else Unknown, true, tx, None, None);
      return saved && remoteOk;
    }

    /** Journals steering around the remote call. */
    method SteerTurn(ghost id: nat, guard: nat, turn: nat, steering: TxAnswer, remoteOk: bool, outcome: TxAnswer)
      returns (steered: bool)
      modifies this`store
      ensures View(map[]) == CallRun(old(View(map[id := Call(process, SteerRead(turn), guard)])), id,
                [Answer(true, Committed), Answer(true, steering), Answer(remoteOk, Committed), Answer(true, outcome)])
      ensures steered <==> ReadyTurn(old(store), turn) && guard == old(store).revision && steering == Committed &&
                           remoteOk && outcome == Committed
      ensures steered ==> turn in store.turns && store.turns[turn] == Turn(Started, true)
    {
      hide Write, Step, AdvanceStep, CallRun;
      ghost var a, b := Answer(true, Committed), Answer(true, steering);
      ghost var d, e := Answer(remoteOk, Committed), Answer(true, outcome);
      ghost var c := Call(process, SteerRead(turn), guard);
      FourAdvances(View(map[id := c]), id, a, b, d, e);
      SteerNext(View(map[id := c]), id, c, a);
      if turn !in store.turns || !Active(store.turns[turn]) || !store.turns[turn].hasRef {
        NothingNext(View(map[]), id, b);
        NothingNext(View(map[]), id, d);
        NothingNext(View(map[]), id, e);
        return false;
      }
      c := c.(pc := SteerSave(turn));
      SteerNext(View(map[id := c]), id, c, b);
      var saved, fence := SaveTurn(id, c, guard, turn, Steering, true, steering, Some(SteerRemote(turn)), None);
      if !saved {
        NothingNext(View(map[]), id, d);
        NothingNext(View(map[]), id, e);
        return false;
      }
      steered := SteerRemotely(id, fence, turn, remoteOk, outcome);
    }

    /** The remote steering and its outcome. */
    method SteerRemotely(ghost id: nat, guard: nat, turn: nat, remoteOk: bool, outcome: TxAnswer) returns (steered: bool)
      modifies this`store
      ensures View(map[]) == Advanced(Advanced(old(View(map[id := Call(process, SteerRemote(turn), guard)])), id,
                                               Answer(remoteOk, Committed)), id, Answer(true, outcome))
      ensures steered <==> remoteOk && guard == old(store).revision && outcome == Committed
      ensures steered ==> turn in store.turns && store.turns[turn] == Turn(Started, true)
    {
      hide Write, Step, AdvanceStep;
      ghost var c := Call(process, SteerRemote(turn), guard);
      SteerNext(View(map[id := c]), id, c, Answer(remoteOk, Committed));
      c := c.(pc := if remoteOk then SteerSaveStarted(turn) else SteerSaveUnknown(turn));
      SteerNext(View(map[id := c]), id, c, Answer(true, outcome));
      var saved, last := SaveTurn(id, c, guard, turn, if remoteOk then Started else Unknown, true, outcome, None, None);
      return saved && remoteOk;
    }

    /** Journals a prepared turn, starts it remotely, and journals what came of it. */
    method StartTurn(ghost id: nat, guard: nat, prepared: TxAnswer, remoteOk: bool, started: TxAnswer, orphan: TxAnswer)
      returns (ok: bool, turn: nat)
      modifies this
      ensures View(map[]) == CallRun(old(View(map[id := Call(process, TurnReadConversation, guard)])), id,
                [Answer(true, Committed), Answer(true, Committed), Answer(true, prepared), Answer(remoteOk, Committed),
                 Answer(true, if remoteOk then started else orphan), Answer(true, orphan)])
      ensures ok <==> old(store).row == Some(Attached) && !AnyActive(old(store)) && guard == old(store).revision &&
                      prepared == Committed && remoteOk && started == Committed
      ensures ok ==> turn in store.turns && store.turns[turn] == Turn(Started, true)
    {
      hide Write, Step, AdvanceStep, CallRun, AnyActive;
      ghost var none, d := Answer(true, Committed), Answer(true, prepared);
      ghost var rest := [Answer(remoteOk, Committed), Answer(true, if remoteOk then started else orphan), Answer(true, orphan)];
      ghost var c := Call(process, TurnReadConversation, guard);
      assert [none, none, d, rest[0], rest[1], rest[2]] == [none] + ([none] + ([d] + rest));
      OneAdvance(View(map[id := c]), id, none, [none] + ([d] + rest));
      TurnNext(View(map[id := c]), id, c, none);
      turn := nextTurn;
      if store.row != Some(Attached) {
        CallRunEnded(View(map[]), id, [none] + ([d] + rest));
        return false, turn;
      }
      c := c.(pc := TurnCheckActive);
      OneAdvance(View(map[id := c]), id, none, [d] + rest);
      TurnNext(View(map[id := c]), id, c, none);
      var active := HasActiveTurn();
      if active {
        CallRunEnded(View(map[]), id, [d] + rest);
        return false, turn;
      }
      nextTurn := nextTurn + 1;
      c := c.(pc := TurnSavePrepared(turn));
      OneAdvance(View(map[id := c]), id, d, rest);
      TurnNext(View(map[id := c]), id, c, d);
      var saved, fence := SaveTurn(id, c, guard, turn, Prepared, false, prepared, Some(TurnRemote(turn)), None);
      if !saved {
        CallRunEnded(View(map[]), id, rest);
        return false, turn;
      }
      ok := StartRemoteTurn(id, fence, turn, remoteOk, started, orphan);
    }

    /** The remote start of a journalled turn, outside the lock, and its outcome. */
    method StartRemoteTurn(ghost id: nat, guard: nat, turn: nat, remoteOk: bool, started: TxAnswer, orphan: TxAnswer)
      returns (ok: bool)
      modifies this
      ensures View(map[]) == CallRun(old(View(map[id := Call(process, TurnRemote(turn), guard)])), id,
                [Answer(remoteOk, Committed), Answer(true, if remoteOk then started else orphan), Answer(true, orphan)])
      ensures ok <==> remoteOk && guard == old(store).revision && started == Committed
      ensures ok ==> turn in store.turns && store.turns[turn] == Turn(Started, true)
    {
      hide Write, Step, AdvanceStep, CallRun;
      ghost var a, b, d := Answer(remoteOk, Committed), Answer(true, if remoteOk then started else orphan), Answer(true, orphan);
      ghost var c := Call(process, TurnRemote(turn), guard);
      ThreeAdvances(View(map[id := c]), id, a, b, d);
      TurnNext(View(map[id := c]), id, c, a);
      remoteTurns := remoteTurns + [turn];
      if !remoteOk {
        c := c.(pc := TurnSaveOrphan(turn, false));
        TurnNext(View(map[id := c]), id, c, b);
        var _, _ := SaveTurn(id, c, guard, turn, TurnOrphan, false, orphan, None, None);
        NothingNext(View(map[]), id, d);
        return false;
      }
      c := c.(pc := TurnSaveStarted(turn));
      TurnNext(View(map[id := c]), id, c, b);
      var fence;
      ok, fence := SaveTurn(id, c, guard, turn, Started, true, started, None, Some(TurnSaveOrphan(turn, true)));
      if ok {
        NothingNext(View(map[]), id, d);
        return true;
      }
      c := c.(pc := TurnSaveOrphan(turn, true));
      TurnNext(View(map[id := c]), id, c, d);
      var _, _ := SaveTurn(id, c, guard, turn, TurnOrphan, true, orphan, None, None);
    }

    /** After a restart every active turn is interrupted, in one transaction. */
    method Restore(ghost id: nat, guard: nat, tx: TxAnswer) returns (restored: bool)
      modifies this`store
      ensures View(map[]) == CallRun(old(View(map[id := Call(process, RestoreRead, guard)])), id,
                                     [Answer(true, Committed), Answer(true, tx)])
      ensures restored ==> !AnyActive(store)
      ensures restored <==> guard == old(store).revision && tx == Committed
    {
      hide Step, AdvanceStep, CallRun, InterruptAll;
      ghost var a, b := Answer(true, Committed), Answer(true, tx);
      ghost var c := Call(process, RestoreRead, guard);
      TwoAdvances(View(map[id := c]), id, a, b);
      CloseNext(View(map[id := c]), id, c, a);
      c := c.(pc := RestoreSave(store.turns));
      CloseNext(View(map[id := c]), id, c, b);
      var turns := InterruptedTurns();
      RestoredNoneActive(store);
      var committed, _ := WithSessionTx(guard, store.(turns := turns), tx);
      return committed;
    }

    lemma RestoredNoneActive(s: Store)
      ensures forall t: Store :: t.turns == InterruptAll(s.turns, s.turns) ==> !AnyActive(t)
    {
    }

    method InterruptedTurns() returns (turns: map<nat, Turn>)
      ensures turns == InterruptAll(store.turns, store.turns)
    {
      turns := map[];
      var remaining := store.turns.Keys;
      while remaining != {}
        invariant remaining <= store.turns.Keys && turns.Keys == store.turns.Keys - remaining
        invariant forall t :: t in turns ==>
          turns[t] == if Active(store.turns[t]) then Turn(Interrupted, store.turns[t].hasRef) else store.turns[t]
        decreases |remaining|
      {
        var t :| t in remaining;
        turns := turns[t := if Active(store.turns[t]) then Turn(Interrupted, store.turns[t].hasRef) else store.turns[t]];
        remaining := remaining - {t};
      }
    }
  }
}
