/** Removing one repository's resources and rows under a journal. Attempts load
    the journal and look at the inventory before they take the maintenance gate,
    any step may be the last of an attempt, and a save may be refused or go
    unacknowledged. */
module Cleanup {
  import opened Wrappers

  /** Resource identifiers, in the order their text is sorted. */
  type Id = int

  datatype Phase = Prepared | Quiesced | FilesystemRemoved | DatabaseRemoved | Verified | Complete | CleanupRequired

  /** The journalled operation; `id` tells apart operations of one plan. */
  datatype Operation = Operation(id: nat, phase: Phase, attempt: nat, completed: seq<Id>)

  /** What an attempt does next. */
  datatype Pc =
    | Loaded | Waiting | Preparing | Quiescing | Removing(next: nat) | Recording(next: nat) | LeavingFilesystem | Deleting
    | SavingDatabaseRemoved | SavingVerified | SavingComplete | SavingRequired

  datatype Attempt = Attempt(pc: Pc, found: bool, op: Operation)

  /** The plan names `resources` and may be `blocked`. `removed` holds the resources
      whose removal succeeded, `recorded` those ever journalled; `repeated` says
      that a recorded resource was removed again. */
  datatype World = World(
    resources: seq<Id>, blocked: bool, journal: Option<Operation>, rowsDeleted: bool, removed: set<Id>,
    attempts: map<nat, Attempt>, gate: Option<nat>, recorded: set<Id>, repeated: bool)

  datatype TxAnswer = Committed | Refused | Unacknowledged

  /** `ok` answers a removal or a deletion, `tx` a save or a deletion. */
  datatype Answer = Answer(ok: bool, tx: TxAnswer)

  /** `matches` says that the inventory is still that of the plan. */
  datatype Action =
    | Load(id: nat) | Inspect(id: nat, matches: bool) | Acquire(id: nat, matches: bool)
    | Advance(id: nat, answer: Answer) | Crash(id: nat)

  predicate DatabasePhase(phase: Phase) {
    phase == FilesystemRemoved || phase == DatabaseRemoved || phase == Verified
  }

  /** Not yet inside the gate. */
  predicate Outside(pc: Pc) { pc == Loaded || pc == Waiting }

  // ---------------------------------------------------------------------
  // The sorted list of completed resources
  // ---------------------------------------------------------------------

  ghost predicate StrictlyRising(s: seq<Id>) {
    forall i, j :: 0 <= i < j < |s| ==> s[i] < s[j]
  }

  /** The first index whose element is not below the key. */
  function SearchIndex(s: seq<Id>, key: Id): (r: nat)
    ensures r <= |s|
  {
    if s == [] || s[0] >= key then 0 else 1 + SearchIndex(s[1..], key)
  }

  predicate ResourceCompleted(completed: seq<Id>, key: Id) {
    var index := SearchIndex(completed, key);
    index < |completed| && completed[index] == key
  }

  /** Appending and sorting. */
  function Record(completed: seq<Id>, key: Id): seq<Id> {
    completed[..SearchIndex(completed, key)] + [key] + completed[SearchIndex(completed, key)..]
  }

  lemma {:induction false} SearchSplits(s: seq<Id>, key: Id)
    requires StrictlyRising(s)
    ensures var i := SearchIndex(s, key);
            (forall k :: 0 <= k < i ==> s[k] < key) && (forall k :: i <= k < |s| ==> key <= s[k])
  {
    if s != [] && s[0] < key {
      SearchSplits(s[1..], key);
      var i := SearchIndex(s[1..], key);
      forall k | 0 <= k < 1 + i ensures s[k] < key { if k > 0 { assert s[k] == s[1..][k - 1]; } }
      forall k | 1 + i <= k < |s| ensures key <= s[k] { assert s[k] == s[1..][k - 1]; }
    }
  }

  /** Searching a rising list finds exactly its members. */
  lemma SearchFindsMembers(completed: seq<Id>, key: Id)
    requires StrictlyRising(completed)
    ensures ResourceCompleted(completed, key) <==> key in completed
  {
    SearchSplits(completed, key);
    if key in completed {
      var k :| 0 <= k < |completed| && completed[k] == key;
    }
  }

  /** Recording a new resource keeps the list rising and adds just it. */
  lemma RecordKeepsRising(completed: seq<Id>, key: Id)
    requires StrictlyRising(completed) && key !in completed
    ensures StrictlyRising(Record(completed, key))
    ensures forall r :: r in Record(completed, key) <==> r in completed || r == key
  {
    SearchSplits(completed, key);
    var i := SearchIndex(completed, key);
    assert completed == completed[..i] + completed[i..];
    assert i < |completed| ==> completed[i] != key;
  }

  // ---------------------------------------------------------------------
  // Steps
  // ---------------------------------------------------------------------

  function End(w: World, id: nat): World {
    w.(attempts := w.attempts - {id}, gate := if w.gate == Some(id) then None else w.gate)
  }

  function Goto(w: World, id: nat, a: Attempt): World { w.(attempts := w.attempts[id := a]) }

  predicate Saves(w: World, op: Operation, tx: TxAnswer) {
    tx != Refused && (w.journal.Some? ==> w.journal.value.id == op.id)
  }

  function Members(s: seq<Id>): set<Id> { set r | r in s }

  /** The world after a save is committed, before the attempt goes on. */
  function Saved(w: World, op: Operation): World {
    w.(journal := Some(op), recorded := w.recorded + Members(op.completed))
  }

  /** Saves the operation and goes on, or ends the attempt. */
  function Save(w: World, id: nat, op: Operation, tx: TxAnswer, next: Option<Pc>): World {
    if !Saves(w, op, tx) then End(w, id)
    else if tx == Unacknowledged || next.None? then End(Saved(w, op), id)
    else Goto(Saved(w, op), id, Attempt(next.value, true, op))
  }

  /** The inventory check: once the rows are gone only a copy of a database phase
      passes it. */
  predicate Passes(w: World, a: Attempt, matches: bool) {
    if w.rowsDeleted then a.found && DatabasePhase(a.op.phase) else matches
  }

  function InspectStep(w: World, id: nat, a: Attempt, matches: bool): World {
    if Passes(w, a, matches) then Goto(w, id, a.(pc := Waiting)) else End(w, id)
  }

  /** The attempt inside the gate. */
  function Entered(id: nat, a: Attempt): Attempt {
    if !a.found then Attempt(Preparing, false, Operation(id, Prepared, 1, []))
    else Attempt(if DatabasePhase(a.op.phase) then Deleting else Quiescing, true, a.op.(attempt := a.op.attempt + 1))
  }

  function AcquireStep(w: World, id: nat, a: Attempt, matches: bool): World {
    if !Passes(w, a, matches) then End(w, id) else Goto(w.(gate := Some(id)), id, Entered(id, a))
  }

  function RemoveStep(w: World, id: nat, a: Attempt, next: nat, ok: bool): World {
    if next >= |w.resources| then Goto(w, id, a.(pc := LeavingFilesystem))
    else
      var r := w.resources[next];
      if ResourceCompleted(a.op.completed, r) then Goto(w, id, a.(pc := Removing(next + 1)))
      else
        var w := w.(repeated := w.repeated || r in w.recorded);
        if !ok then Goto(w, id, a.(pc := SavingRequired))
        else
          Goto(w.(removed := w.removed + {r}), id,
               a.(pc := Recording(next), op := a.op.(completed := Record(a.op.completed, r))))
  }

  function DeleteStep(w: World, id: nat, a: Attempt, answer: Answer): World {
    if answer.ok then Goto(w.(rowsDeleted := true), id, a.(pc := SavingDatabaseRemoved))
    else Goto(w.(rowsDeleted := w.rowsDeleted || answer.tx == Unacknowledged), id, a.(pc := SavingRequired))
  }

  function AdvanceStep(w: World, id: nat, a: Attempt, answer: Answer): World {
    match a.pc
    case Loaded => w
    case Waiting => w
    case Preparing => Save(w, id, a.op, answer.tx, Some(Quiescing))
    case Quiescing => Save(w, id, a.op.(phase := Quiesced), answer.tx, Some(Removing(0)))
    case Removing(next) => RemoveStep(w, id, a, next, answer.ok)
    case Recording(next) => Save(w, id, a.op, answer.tx, Some(Removing(next + 1)))
    case LeavingFilesystem => Save(w, id, a.op.(phase := FilesystemRemoved), answer.tx, Some(Deleting))
    case Deleting => DeleteStep(w, id, a, answer)
    case SavingDatabaseRemoved => Save(w, id, a.op.(phase := DatabaseRemoved), answer.tx, Some(SavingVerified))
    case SavingVerified => Save(w, id, a.op.(phase := Verified), answer.tx, Some(SavingComplete))
    case SavingComplete => Save(w, id, a.op.(phase := Complete), answer.tx, None)
    case SavingRequired => Save(w, id, a.op.(phase := CleanupRequired), answer.tx, None)
  }

  const NOTHING := Operation(0, Prepared, 0, [])

  /** The copy an attempt starts from. */
  function Copied(journal: Option<Operation>): Attempt {
    match journal
    case None => Attempt(Loaded, false, NOTHING)
    case Some(op) => Attempt(Loaded, true, op)
  }

  predicate Completed(w: World) { w.journal.Some? && w.journal.value.phase == Complete }

  predicate TakesGate(w: World, action: Action) {
    action.Acquire? && action.id in w.attempts && w.attempts[action.id].pc == Waiting && w.gate.None? &&
    Passes(w, w.attempts[action.id], action.matches)
  }

  /** One action; one that does not apply changes nothing. */
  function Step(w: World, action: Action): World {
    match action
    case Load(id) =>
      if id in w.attempts || Completed(w) || w.blocked then w else Goto(w, id, Copied(w.journal))
    case Inspect(id, matches) =>
      if id in w.attempts && w.attempts[id].pc == Loaded then InspectStep(w, id, w.attempts[id], matches) else w
    case Acquire(id, matches) =>
      if id in w.attempts && w.attempts[id].pc == Waiting && w.gate.None? then AcquireStep(w, id, w.attempts[id], matches) else w
    case Advance(id, answer) =>
      if id in w.attempts && w.gate == Some(id) then AdvanceStep(w, id, w.attempts[id], answer) else w
    case Crash(id) => End(w, id)
  }

  function Run(w: World, actions: seq<Action>): World
    decreases |actions|
  {
    if actions == [] then w else Run(Step(w, actions[0]), actions[1..])
  }

  lemma {:induction false} RunConcat(w: World, first: seq<Action>, second: seq<Action>)
    ensures Run(w, first + second) == Run(Run(w, first), second)
    decreases |first|
  {
    hide Step;
    if first == [] {
      assert first + second == second;
    } else {
      assert (first + second)[1..] == first[1..] + second;
      RunConcat(Step(w, first[0]), first[1..], second);
    }
  }

  lemma RunOne(w: World, action: Action)
    ensures Run(w, [action]) == Step(w, action)
  {
    hide Step;
  }

  predicate Initial(w: World) {
    && w.journal.None? && !w.rowsDeleted && w.removed == {} && w.attempts == map[] && w.gate.None?
    && w.recorded == {} && !w.repeated
  }

  // ---------------------------------------------------------------------
  // What every step keeps
  // ---------------------------------------------------------------------

  ghost predicate CoversUpTo(resources: seq<Id>, completed: seq<Id>, n: int) {
    forall i :: 0 <= i < n && i < |resources| ==> resources[i] in completed
  }

  ghost predicate Covers(resources: seq<Id>, completed: seq<Id>) { CoversUpTo(resources, completed, |resources|) }

  /** An operation that some attempt journalled. */
  ghost predicate Fits(resources: seq<Id>, recorded: set<Id>, op: Operation) {
    && StrictlyRising(op.completed) && Members(op.completed) <= recorded
    && (DatabasePhase(op.phase) || op.phase == Complete ==> Covers(resources, op.completed))
  }

  ghost predicate AllRecorded(w: World) { forall i :: 0 <= i < |w.resources| ==> w.resources[i] in w.recorded }

  ghost predicate Journalled(w: World) {
    && (match w.journal
        case None => w.recorded == {} && !w.rowsDeleted
        case Some(op) => !w.blocked && Fits(w.resources, w.recorded, op) && (op.phase == Complete ==> w.rowsDeleted))
    && w.recorded <= w.removed && w.recorded <= Members(w.resources)
    && (w.rowsDeleted ==> AllRecorded(w))
  }

  /** The copy an attempt outside the gate has loaded. */
  ghost predicate CopyFits(w: World, id: nat, a: Attempt) {
    && Outside(a.pc)
    && if a.found then
         w.journal.Some? && w.journal.value.id == a.op.id && Fits(w.resources, w.recorded, a.op) && a.op.phase != Complete
       else a.op == NOTHING && (w.journal.Some? ==> w.journal.value.id != id)
  }

  /** What is removed but not yet recorded. */
  function Pending(w: World, pc: Pc): set<Id> {
    if pc.Recording? && pc.next < |w.resources| then {w.resources[pc.next]} else {}
  }

  predicate BehindRows(pc: Pc) { pc == SavingDatabaseRemoved || pc == SavingVerified || pc == SavingComplete }

  predicate BehindRemoval(pc: Pc) { pc == LeavingFilesystem || pc == Deleting || BehindRows(pc) }

  ghost predicate ListFits(w: World, a: Attempt) {
    && StrictlyRising(a.op.completed) && Members(a.op.completed) <= w.recorded + Pending(w, a.pc)
    && (a.pc.Removing? ==> CoversUpTo(w.resources, a.op.completed, a.pc.next))
    && (a.pc.Recording? ==> a.pc.next < |w.resources| && CoversUpTo(w.resources, a.op.completed, a.pc.next + 1))
    && (BehindRemoval(a.pc) ==> Covers(w.resources, a.op.completed))
  }

  /** What the holder of the gate knows at each point. */
  ghost predicate HolderFits(w: World, id: nat, a: Attempt) {
    && !Outside(a.pc) && !w.blocked
    && if a.pc == Preparing then
         a == Attempt(Preparing, false, Operation(id, Prepared, 1, [])) && (w.journal.Some? ==> w.journal.value.id != id)
       else
         && a.found && w.journal.Some? && w.journal.value.id == a.op.id && ListFits(w, a) && Pending(w, a.pc) <= w.removed
         && (a.pc.Removing? || a.pc.Recording? ==> a.op.phase == Quiesced)
         && (BehindRows(a.pc) ==> w.rowsDeleted)
  }

  ghost predicate Ledger(w: World) {
    && Journalled(w)
    && (w.gate.Some? ==> w.gate.value in w.attempts && HolderFits(w, w.gate.value, w.attempts[w.gate.value]))
    && (forall id :: id in w.attempts && w.gate != Some(id) ==> CopyFits(w, id, w.attempts[id]))
    && (w.blocked ==> w.attempts == map[])
  }

  /** Copies outside the gate stay good when the holder saves. */
  lemma CopySurvivesSave(w: World, holder: nat, op: Operation, id: nat, a: Attempt)
    requires CopyFits(w, id, a) && id != holder
    requires if w.journal.Some? then w.journal.value.id == op.id else op.id == holder
    ensures CopyFits(Saved(w, op), id, a)
  {
    hide Members, Covers, StrictlyRising;
  }

  lemma SaveKeepsLedger(w: World, id: nat, op: Operation, tx: TxAnswer, next: Option<Pc>)
    requires Ledger(w) && w.gate == Some(id)
    requires Saves(w, op, tx) ==> Journalled(Saved(w, op)) && (w.journal.None? ==> op.id == id)
    requires Saves(w, op, tx) && next.Some? ==> HolderFits(Saved(w, op), id, Attempt(next.value, true, op))
    ensures Ledger(Save(w, id, op, tx, next))
  {
    hide Ledger, Journalled, HolderFits, CopyFits;
    EndKeepsLedger(w, id);
    LedgerHolds(w, id);
    if Saves(w, op, tx) {
      forall other | other in w.attempts && other != id ensures CopyFits(Saved(w, op), other, w.attempts[other]) {
        CopySurvivesSave(w, id, op, other, w.attempts[other]);
      }
      LedgerAfterSave(Saved(w, op), id, if next.Some? then Some(Attempt(next.value, true, op)) else None);
    }
  }

  /** Attempts and the gate are no part of what the journal says. */
  lemma JournalSurvivesMove(w: World, t: World)
    requires t == w.(attempts := t.attempts, gate := t.gate)
    ensures Journalled(t) == Journalled(w)
    ensures forall id, a :: CopyFits(t, id, a) == CopyFits(w, id, a)
    ensures forall id, a :: HolderFits(t, id, a) == HolderFits(w, id, a)
  {
    hide Fits, Members, StrictlyRising, Covers, CoversUpTo;
  }

  /** Every copy fits, and the holder ends or goes on. */
  lemma LedgerAfterSave(w: World, id: nat, a: Option<Attempt>)
    requires w.gate == Some(id) && Journalled(w) && !w.blocked
    requires forall other :: other in w.attempts && other != id ==> CopyFits(w, other, w.attempts[other])
    requires a.Some? ==> HolderFits(w, id, a.value)
    ensures Ledger(End(w, id))
    ensures a.Some? ==> Ledger(Goto(w, id, a.value))
  {
    hide Journalled, CopyFits, HolderFits;
    JournalSurvivesMove(w, End(w, id));
    if a.Some? {
      JournalSurvivesMove(w, Goto(w, id, a.value));
    }
  }

  lemma EndKeepsLedger(w: World, id: nat)
    requires Ledger(w)
    ensures Ledger(End(w, id))
  {
    hide Journalled, CopyFits, HolderFits;
    JournalSurvivesMove(w, End(w, id));
  }

  lemma OutsideKeepsLedger(w: World, id: nat, a: Attempt)
    requires Ledger(w) && w.gate != Some(id) && CopyFits(w, id, a) && !w.blocked
    ensures Ledger(Goto(w, id, a))
  {
    hide Journalled, CopyFits, HolderFits;
    JournalSurvivesMove(w, Goto(w, id, a));
  }

  lemma LoadKeepsLedger(w: World, id: nat)
    requires Ledger(w)
    ensures Ledger(Step(w, Load(id)))
  {
    hide Fits, HolderFits;
    if id !in w.attempts && !Completed(w) && !w.blocked {
      OutsideKeepsLedger(w, id, Copied(w.journal));
    }
  }

  lemma EnteredHolds(w: World, id: nat, a: Attempt)
    requires CopyFits(w, id, a) && !w.blocked
    ensures HolderFits(w, id, Entered(id, a))
  {
    hide Members, StrictlyRising;
  }

  lemma AcquireKeepsLedger(w: World, id: nat, a: Attempt, matches: bool)
    requires Ledger(w) && id in w.attempts && w.attempts[id] == a && w.gate.None?
    ensures Ledger(AcquireStep(w, id, a, matches))
  {
    hide CopyFits, HolderFits, Journalled, Passes;
    EndKeepsLedger(w, id);
    EnteredHolds(w, id, a);
    JournalSurvivesMove(w, w.(gate := Some(id)));
    LedgerAfterSave(w.(gate := Some(id)), id, Some(Entered(id, a)));
  }

  lemma RecordedStaysWithin(w: World, a: Attempt, next: nat)
    requires StrictlyRising(a.op.completed) && Members(a.op.completed) <= w.recorded && next < |w.resources|
    requires w.resources[next] !in a.op.completed && CoversUpTo(w.resources, a.op.completed, next)
    ensures ListFits(w, Attempt(Recording(next), true, a.op.(completed := Record(a.op.completed, w.resources[next]))))
  {
    hide StrictlyRising, Record;
    var after := Record(a.op.completed, w.resources[next]);
    RecordKeepsRising(a.op.completed, w.resources[next]);
    forall i | 0 <= i < next + 1 && i < |w.resources| ensures w.resources[i] in after {
      var r := w.resources[i];
      assert r in a.op.completed || r == w.resources[next];
      assert r in Record(a.op.completed, w.resources[next]);
    }
    forall r | r in Members(after) ensures r in w.recorded + {w.resources[next]} {
      assert r in a.op.completed ==> r in Members(a.op.completed);
    }
  }

  /** The world in which the resource is gone. */
  function Without(w: World, r: Id): World {
    w.(removed := w.removed + {r}, repeated := w.repeated || r in w.recorded)
  }

  lemma RemovingSurvives(w: World, t: World)
    requires t == w.(removed := t.removed, repeated := t.repeated) && w.removed <= t.removed
    ensures Journalled(w) ==> Journalled(t)
    ensures forall id, a :: CopyFits(w, id, a) ==> CopyFits(t, id, a)
    ensures forall id, a :: HolderFits(w, id, a) ==> HolderFits(t, id, a)
  {
    hide Fits, Members, StrictlyRising, Covers, CoversUpTo;
  }

  lemma RemoveKeepsLedger(w: World, id: nat, a: Attempt, next: nat, ok: bool)
    requires Ledger(w) && id in w.attempts && w.attempts[id] == a && w.gate == Some(id) && a.pc == Removing(next)
    ensures Ledger(RemoveStep(w, id, a, next, ok))
  {
    hide Ledger, Journalled, CopyFits, StrictlyRising, Record, ResourceCompleted, Members;
    LedgerHolds(w, id);
    if next >= |w.resources| {
      LedgerAfterSave(w, id, Some(a.(pc := LeavingFilesystem)));
    } else {
      var r := w.resources[next];
      SearchFindsMembers(a.op.completed, r);
      if r in a.op.completed {
        LedgerAfterSave(w, id, Some(a.(pc := Removing(next + 1))));
      } else if !ok {
        var t := w.(repeated := w.repeated || r in w.recorded);
        RemovingSurvives(w, t);
        LedgerAfterSave(t, id, Some(a.(pc := SavingRequired)));
      } else {
        var t := Without(w, r);
        RemovingSurvives(w, t);
        RecordedStaysWithin(w, a, next);
        LedgerAfterSave(t, id, Some(a.(pc := Recording(next), op := a.op.(completed := Record(a.op.completed, r)))));
      }
    }
  }

  lemma LedgerHolds(w: World, id: nat)
    requires Ledger(w) && w.gate == Some(id)
    ensures id in w.attempts && HolderFits(w, id, w.attempts[id]) && Journalled(w) && !w.blocked
    ensures forall other :: other in w.attempts && other != id ==> CopyFits(w, other, w.attempts[other])
  {
  }

  lemma RowsGoneSurvives(w: World, t: World, a: Attempt)
    requires t == w.(rowsDeleted := t.rowsDeleted) && (w.rowsDeleted ==> t.rowsDeleted)
    requires w.journal.Some? && Members(a.op.completed) <= w.recorded && Covers(w.resources, a.op.completed)
    ensures Journalled(w) ==> Journalled(t)
    ensures forall id, a :: CopyFits(w, id, a) ==> CopyFits(t, id, a)
    ensures forall id, a :: HolderFits(w, id, a) ==> HolderFits(t, id, a)
  {
    hide Fits, StrictlyRising;
  }

  lemma DeleteKeepsLedger(w: World, id: nat, a: Attempt, answer: Answer)
    requires Ledger(w) && id in w.attempts && w.attempts[id] == a && w.gate == Some(id) && a.pc == Deleting
    ensures Ledger(DeleteStep(w, id, a, answer))
  {
    hide Ledger, Journalled, CopyFits, StrictlyRising, Members, Covers;
    LedgerHolds(w, id);
    var t := w.(rowsDeleted := w.rowsDeleted || answer.ok || answer.tx == Unacknowledged);
    RowsGoneSurvives(w, t, a);
    LedgerAfterSave(t, id, Some(a.(pc := if answer.ok then SavingDatabaseRemoved else SavingRequired)));
  }

  lemma PendingIsPlanned(w: World, pc: Pc)
    ensures Pending(w, pc) <= Members(w.resources)
  {
  }

  /** A save of an operation whose list fits. */
  lemma SavedFits(w: World, id: nat, a: Attempt, op: Operation)
    requires Journalled(w) && HolderFits(w, id, a) && op.completed == a.op.completed && op.id == a.op.id
    requires DatabasePhase(op.phase) || op.phase == Complete ==> BehindRemoval(a.pc)
    requires op.phase == Complete ==> BehindRows(a.pc)
    ensures Journalled(Saved(w, op))
  {
    hide StrictlyRising, CoversUpTo, Members, AllRecorded;
    var t := Saved(w, op);
    PendingIsPlanned(w, a.pc);
    if a.pc == Preparing {
      NothingRises();
      assert Members(op.completed) == {} by { NothingRises(); }
    }
    assert StrictlyRising(op.completed);
    assert Members(op.completed) <= w.recorded + Pending(w, a.pc);
    assert AllRecorded(w) ==> AllRecorded(t) by { if AllRecorded(w) { MoreRecorded(w, t); } }
  }

  lemma NothingRises()
    ensures StrictlyRising([]) && Members([]) == {}
  {
  }

  lemma MoreRecorded(w: World, t: World)
    requires AllRecorded(w) && t.resources == w.resources && w.recorded <= t.recorded
    ensures AllRecorded(t)
  {
  }

  /** Where a save leads. */
  function Saving(a: Attempt): (r: (Operation, Option<Pc>))
    requires !Outside(a.pc) && !a.pc.Removing? && a.pc != Deleting
  {
    match a.pc
    case Preparing => (a.op, Some(Quiescing))
    case Quiescing => (a.op.(phase := Quiesced), Some(Removing(0)))
    case Recording(next) => (a.op, Some(Removing(next + 1)))
    case LeavingFilesystem => (a.op.(phase := FilesystemRemoved), Some(Deleting))
    case SavingDatabaseRemoved => (a.op.(phase := DatabaseRemoved), Some(SavingVerified))
    case SavingVerified => (a.op.(phase := Verified), Some(SavingComplete))
    case SavingComplete => (a.op.(phase := Complete), None)
    case SavingRequired => (a.op.(phase := CleanupRequired), None)
  }

  lemma SavingIsASave(w: World, id: nat, a: Attempt, answer: Answer)
    requires !Outside(a.pc) && !a.pc.Removing? && a.pc != Deleting
    ensures AdvanceStep(w, id, a, answer) == Save(w, id, Saving(a).0, answer.tx, Saving(a).1)
  {
    hide Save;
  }

  lemma NextHolderFits(w: World, id: nat, a: Attempt)
    requires HolderFits(w, id, a) && !a.pc.Removing? && a.pc != Deleting && Saving(a).1.Some?
    ensures HolderFits(Saved(w, Saving(a).0), id, Attempt(Saving(a).1.value, true, Saving(a).0))
  {
    hide StrictlyRising, CoversUpTo, Members;
    var (op, next) := Saving(a);
    NothingRises();
    CoversNone(w.resources, op.completed);
    assert Members(op.completed) <= Saved(w, op).recorded;
  }

  lemma CoversNone(resources: seq<Id>, completed: seq<Id>)
    ensures CoversUpTo(resources, completed, 0)
  {
  }

  lemma SavingKeepsLedger(w: World, id: nat, a: Attempt, answer: Answer)
    requires Ledger(w) && id in w.attempts && w.attempts[id] == a && w.gate == Some(id)
    requires !Outside(a.pc) && !a.pc.Removing? && a.pc != Deleting
    ensures Ledger(AdvanceStep(w, id, a, answer))
  {
    hide Ledger, Journalled, CopyFits, ListFits, AdvanceStep, Save;
    LedgerHolds(w, id);
    SavingIsASave(w, id, a, answer);
    var (op, next) := Saving(a);
    if Saves(w, op, answer.tx) {
      SavedFits(w, id, a, op);
      if next.Some? {
        NextHolderFits(w, id, a);
      }
    }
    SaveKeepsLedger(w, id, op, answer.tx, next);
  }

  /** Every step keeps the ledger, whatever an attempt has loaded and whoever crashes. */
  lemma StepKeepsLedger(w: World, action: Action)
    requires Ledger(w)
    ensures Ledger(Step(w, action))
  {
    hide AcquireStep, RemoveStep, DeleteStep, AdvanceStep, Journalled, HolderFits, Passes;
    match action
    case Load(id) => LoadKeepsLedger(w, id);
    case Inspect(id, matches) =>
      EndKeepsLedger(w, id);
      if id in w.attempts && w.attempts[id].pc == Loaded {
        LoadedIsOutside(w, id);
        OutsideKeepsLedger(w, id, w.attempts[id].(pc := Waiting));
      }
    case Acquire(id, matches) =>
      if id in w.attempts && w.attempts[id].pc == Waiting && w.gate.None? {
        AcquireKeepsLedger(w, id, w.attempts[id], matches);
      }
    case Advance(id, answer) =>
      if id in w.attempts && w.gate == Some(id) {
        AdvanceKeepsLedger(w, id, answer);
      }
    case Crash(id) => EndKeepsLedger(w, id);
  }

  lemma LoadedIsOutside(w: World, id: nat)
    requires Ledger(w) && id in w.attempts && w.attempts[id].pc == Loaded
    ensures w.gate != Some(id) && CopyFits(w, id, w.attempts[id].(pc := Waiting)) && !w.blocked
  {
    hide Fits, ListFits;
  }

  lemma AdvanceKeepsLedger(w: World, id: nat, answer: Answer)
    requires Ledger(w) && w.gate == Some(id) && id in w.attempts
    ensures Ledger(AdvanceStep(w, id, w.attempts[id], answer))
  {
    hide Ledger, Journalled, ListFits, CopyFits, RemoveStep, DeleteStep, Save;
    LedgerHolds(w, id);
    var a := w.attempts[id];
    match a.pc {
      case Removing(next) => RemoveKeepsLedger(w, id, a, next, answer.ok);
      case Deleting => DeleteKeepsLedger(w, id, a, answer);
      case _ => SavingKeepsLedger(w, id, a, answer);
    }
  }

  predicate SamePlan(w: World, t: World) { t.resources == w.resources && t.blocked == w.blocked }

  lemma SaveKeepsPlan(w: World, id: nat, op: Operation, tx: TxAnswer, next: Option<Pc>)
    ensures SamePlan(w, Save(w, id, op, tx, next))
  {
  }

  lemma RemoveKeepsPlan(w: World, id: nat, a: Attempt, next: nat, ok: bool)
    ensures SamePlan(w, RemoveStep(w, id, a, next, ok))
  {
    hide ResourceCompleted, Record;
  }

  lemma AdvanceKeepsPlan(w: World, id: nat, a: Attempt, answer: Answer)
    ensures SamePlan(w, AdvanceStep(w, id, a, answer))
  {
    hide Save, RemoveStep, Saving;
    if a.pc.Removing? {
      RemoveKeepsPlan(w, id, a, a.pc.next, answer.ok);
    } else if !Outside(a.pc) && a.pc != Deleting {
      SavingIsASave(w, id, a, answer);
      SaveKeepsPlan(w, id, Saving(a).0, answer.tx, Saving(a).1);
    }
  }

  lemma StepKeepsPlan(w: World, action: Action)
    ensures Step(w, action).resources == w.resources && Step(w, action).blocked == w.blocked
  {
    hide AdvanceStep, Passes, Entered, Completed;
    if action.Advance? && action.id in w.attempts {
      AdvanceKeepsPlan(w, action.id, w.attempts[action.id], action.answer);
    }
  }

  // ---------------------------------------------------------------------
  // Whole runs
  // ---------------------------------------------------------------------

  lemma {:induction false} RunKeepsLedger(w: World, actions: seq<Action>)
    requires Ledger(w)
    ensures var end := Run(w, actions); Ledger(end) && end.resources == w.resources && end.blocked == w.blocked
    decreases |actions|
  {
    hide Ledger, Step;
    if actions != [] {
      StepKeepsLedger(w, actions[0]);
      StepKeepsPlan(w, actions[0]);
      RunKeepsLedger(Step(w, actions[0]), actions[1..]);
    }
  }

  lemma InitialIsLedger(w: World)
    requires Initial(w)
    ensures Ledger(w)
  {
  }

  /** Whatever attempts have loaded, wherever they crash and however their saves
      are answered: only removed resources are ever recorded, and only planned
      ones; the journalled list is strictly rising; the rows go only when every
      planned resource is recorded; and what is complete has lost its rows. */
  lemma TheJournalNeverLies(w: World, actions: seq<Action>)
    requires Initial(w)
    ensures var end := Run(w, actions);
            && end.recorded <= end.removed && (forall r :: r in end.recorded ==> r in w.resources)
            && (end.journal.Some? ==>
                  StrictlyRising(end.journal.value.completed) && forall r :: r in end.journal.value.completed ==> r in end.recorded)
            && (end.rowsDeleted ==> forall i :: 0 <= i < |w.resources| ==> w.resources[i] in end.recorded)
            && (Completed(end) ==>
                  end.rowsDeleted && forall i :: 0 <= i < |w.resources| ==> w.resources[i] in end.journal.value.completed)
  {
    hide Run, StrictlyRising;
    InitialIsLedger(w);
    RunKeepsLedger(w, actions);
  }
}
