/** What one attempt at a cleanup leaves behind: when it gets in, what its saves say,
    and how it ends. */
module CleanupOutcomes {
  import opened Cleanup
  import opened Wrappers

  // ---------------------------------------------------------------------
  // Getting in
  // ---------------------------------------------------------------------

  function Entrance(id: nat, seen: bool, seenAgain: bool): seq<Action> {
    [Load(id), Inspect(id, seen), Acquire(id, seenAgain)]
  }

  /** The two looks at the inventory are passed: with the rows still there by seeing
      the planned inventory twice, with the rows gone by what the journal says. */
  predicate MayEnter(w: World, seen: bool, seenAgain: bool) {
    && !w.blocked && (w.journal.Some? ==> w.journal.value.phase != Complete)
    && if w.rowsDeleted then w.journal.Some? && w.journal.value.phase in {FilesystemRemoved, DatabaseRemoved, Verified}
       else seen && seenAgain
  }

  lemma ThreeSteps(w: World, a: Action, b: Action, c: Action)
    ensures Run(w, [a, b, c]) == Step(Step(Step(w, a), b), c)
  {
    hide Step;
    RunConcat(w, [a], [b] + [c]);
    RunConcat(Step(w, a), [b], [c]);
    RunOne(w, a);
    RunOne(Step(w, a), b);
    RunOne(Step(Step(w, a), b), c);
    assert [a] + ([b] + [c]) == [a, b, c];
  }

  lemma TwoSteps(w: World, a: Action, b: Action)
    ensures Run(w, [a, b]) == Step(Step(w, a), b)
  {
    hide Step;
    RunConcat(w, [a], [b]);
    RunOne(w, a);
    RunOne(Step(w, a), b);
    assert [a] + [b] == [a, b];
  }

  /** The holder of the gate, as the journal makes it. */
  function Holder(id: nat, journal: Option<Operation>): Attempt {
    match journal
    case None => Attempt(Preparing, false, Operation(id, Prepared, 1, []))
    case Some(op) =>
      Attempt(if op.phase in {FilesystemRemoved, DatabaseRemoved, Verified} then Deleting else Quiescing, true,
              Operation(op.id, op.phase, op.attempt + 1, op.completed))
  }

  /** An attempt with nobody in its way takes the gate exactly if both looks are passed;
      it counts itself, and goes straight to the rows once the journal says that the
      files are gone. Otherwise it leaves everything as it was. */
  lemma AnAttemptGetsInIff(w: World, id: nat, seen: bool, seenAgain: bool)
    requires w.gate.None? && id !in w.attempts
    ensures Run(w, Entrance(id, seen, seenAgain)) ==
            if MayEnter(w, seen, seenAgain) then w.(gate := Some(id), attempts := w.attempts[id := Holder(id, w.journal)]) else w
  {
    hide Step, Passes, Entered, Holder;
    ThreeSteps(w, Load(id), Inspect(id, seen), Acquire(id, seenAgain));
    if w.blocked || Completed(w) {
      NotInNothingHappens(w, id, seen, seenAgain);
    } else {
      LooksDecide(w, id, seen, seenAgain);
      HolderEnters(id, w.journal);
      PassingTwice(w, seen, seenAgain);
    }
  }

  lemma NotInNothingHappens(w: World, id: nat, seen: bool, seenAgain: bool)
    requires id !in w.attempts
    ensures w.blocked || Completed(w) ==> Step(w, Load(id)) == w
    ensures Step(w, Inspect(id, seen)) == w && Step(w, Acquire(id, seenAgain)) == w
  {
  }

  lemma HolderEnters(id: nat, journal: Option<Operation>)
    ensures Entered(id, Copied(journal).(pc := Waiting)) == Holder(id, journal)
  {
  }

  lemma PassingTwice(w: World, seen: bool, seenAgain: bool)
    requires !w.blocked && !Completed(w)
    ensures Passes(w, Copied(w.journal), seen) && Passes(w, Copied(w.journal).(pc := Waiting), seenAgain) <==> MayEnter(w, seen, seenAgain)
  {
  }

  function With(w: World, id: nat, a: Attempt): World { w.(attempts := w.attempts[id := a]) }

  lemma TheFirstLook(w: World, id: nat, a: Attempt, seen: bool)
    requires id !in w.attempts && a.pc == Loaded
    ensures Step(With(w, id, a), Inspect(id, seen)) == if Passes(w, a, seen) then With(w, id, a.(pc := Waiting)) else w.(gate := if w.gate == Some(id) then None else w.gate)
  {
    assert w.attempts[id := a] - {id} == w.attempts;
    assert w.attempts[id := a][id := a.(pc := Waiting)] == w.attempts[id := a.(pc := Waiting)];
  }

  lemma TheSecondLook(w: World, id: nat, a: Attempt, seen: bool)
    requires w.gate.None? && id !in w.attempts && a.pc == Waiting
    ensures Step(With(w, id, a), Acquire(id, seen)) == if Passes(w, a, seen) then With(w.(gate := Some(id)), id, Entered(id, a)) else w
  {
    hide Entered;
    assert w.attempts[id := a] - {id} == w.attempts;
    assert w.attempts[id := a][id := Entered(id, a)] == w.attempts[id := Entered(id, a)];
  }

  lemma LooksDecide(w: World, id: nat, seen: bool, seenAgain: bool)
    requires w.gate.None? && id !in w.attempts && !w.blocked && !Completed(w)
    ensures var a := Copied(w.journal);
            Step(Step(Step(w, Load(id)), Inspect(id, seen)), Acquire(id, seenAgain)) ==
            if Passes(w, a, seen) && Passes(w, a.(pc := Waiting), seenAgain) then
              With(w.(gate := Some(id)), id, Entered(id, a.(pc := Waiting)))
            else w
  {
    hide Entered, Passes, With, InspectStep, AcquireStep;
    Loads(w, id);
    TheFirstLook(w, id, Copied(w.journal), seen);
    TheSecondLook(w, id, Copied(w.journal).(pc := Waiting), seenAgain);
    NotInNothingHappens(w, id, seen, seenAgain);
  }

  lemma Loads(w: World, id: nat)
    requires id !in w.attempts && !w.blocked && !Completed(w)
    ensures Step(w, Load(id)) == With(w, id, Copied(w.journal)) && Copied(w.journal).pc == Loaded
  {
  }

  // ---------------------------------------------------------------------
  // Saving
  // ---------------------------------------------------------------------

  /** A save of the holder: whatever was committed is the holder's own operation under
      its own number; the attempt goes on exactly if it hears so and is not at its
      end. Otherwise the gate is free again. */
  lemma ASaveGoesOnIff(w: World, id: nat, answer: Answer)
    requires Ledger(w) && w.gate == Some(id) && id in w.attempts
    requires !w.attempts[id].pc.Removing? && w.attempts[id].pc != Deleting
    requires w.attempts[id].pc == Preparing ==> w.journal.None?
    ensures var a, t := w.attempts[id], Step(w, Advance(id, answer));
            && (t.journal != w.journal ==> answer.tx != Refused)
            && (answer.tx != Refused ==>
                  t.journal.Some? && (t.journal.value.id, t.journal.value.attempt, t.journal.value.completed) == (a.op.id, a.op.attempt, a.op.completed))
            && (id in t.attempts <==> answer.tx == Committed && a.pc != SavingComplete && a.pc != SavingRequired)
            && t.gate == (if id in t.attempts then Some(id) else None)
            && (id in t.attempts ==> t.journal == Some(t.attempts[id].op))
            && t.removed == w.removed && t.rowsDeleted == w.rowsDeleted
  {
    hide Journalled, ListFits, CopyFits, Save;
    LedgerHolds(w, id);
    SavingIsASave(w, id, w.attempts[id], answer);
    SavingKeepsList(w.attempts[id]);
    ASaveEndsOrGoesOn(w, id, Saving(w.attempts[id]).0, answer.tx, Saving(w.attempts[id]).1);
  }

  lemma SavingKeepsList(a: Attempt)
    requires !Outside(a.pc) && !a.pc.Removing? && a.pc != Deleting
    ensures var (op, next) := Saving(a);
            && (op.id, op.attempt, op.completed) == (a.op.id, a.op.attempt, a.op.completed)
            && (next.None? <==> a.pc == SavingComplete || a.pc == SavingRequired)
  {
  }

  lemma ASaveEndsOrGoesOn(w: World, id: nat, op: Operation, tx: TxAnswer, next: Option<Pc>)
    requires w.gate == Some(id) && (w.journal.Some? ==> w.journal.value.id == op.id)
    ensures var t := Save(w, id, op, tx, next);
            && t.journal == (if tx == Refused then w.journal else Some(op))
            && (id in t.attempts <==> tx == Committed && next.Some?)
            && (id in t.attempts ==> t.attempts[id] == Attempt(next.value, true, op))
            && t.gate == (if id in t.attempts then Some(id) else None)
            && t.removed == w.removed && t.rowsDeleted == w.rowsDeleted
  {
  }

  /** The first save of an attempt that found no operation, when another has journalled
      one in the meantime: nothing is written and the attempt ends. */
  lemma ALateBeginningEnds(w: World, id: nat, answer: Answer)
    requires Ledger(w) && w.gate == Some(id) && id in w.attempts && w.attempts[id].pc == Preparing && w.journal.Some?
    ensures Step(w, Advance(id, answer)) == w.(attempts := w.attempts - {id}, gate := None)
  {
    hide Journalled, ListFits, CopyFits;
    LedgerHolds(w, id);
  }

  // ---------------------------------------------------------------------
  // Failing
  // ---------------------------------------------------------------------

  /** What a failure leaves in the journal: that another cleanup is needed. */
  function Given(w: World, op: Operation, tx: TxAnswer): Option<Operation> {
    if tx == Refused then w.journal else Some(Operation(op.id, CleanupRequired, op.attempt, op.completed))
  }

  /** A resource that cannot be removed ends the attempt: nothing is recorded for it,
      the journal says that another cleanup is needed, and the gate is free. */
  lemma AFailedRemovalIsJournalled(w: World, id: nat, answer: Answer, save: Answer)
    requires Ledger(w) && w.gate == Some(id) && id in w.attempts && w.attempts[id].pc.Removing? && !answer.ok
    requires w.attempts[id].pc.next < |w.resources| && w.resources[w.attempts[id].pc.next] !in w.attempts[id].op.completed
    ensures var t := Run(w, [Advance(id, answer), Advance(id, save)]);
            && t.journal == Given(w, w.attempts[id].op, save.tx) && id !in t.attempts && t.gate.None?
            && t.removed == w.removed && t.rowsDeleted == w.rowsDeleted
  {
    hide Journalled, CopyFits, StrictlyRising, Record, ResourceCompleted;
    LedgerHolds(w, id);
    SearchFindsMembers(w.attempts[id].op.completed, w.resources[w.attempts[id].pc.next]);
    TwoSteps(w, Advance(id, answer), Advance(id, save));
  }

  /** So does a deletion of the rows that fails; they are gone all the same if only its
      acknowledgement was lost. */
  lemma AFailedDeletionIsJournalled(w: World, id: nat, answer: Answer, save: Answer)
    requires Ledger(w) && w.gate == Some(id) && id in w.attempts && w.attempts[id].pc == Deleting && !answer.ok
    ensures var t := Run(w, [Advance(id, answer), Advance(id, save)]);
            && t.journal == Given(w, w.attempts[id].op, save.tx) && id !in t.attempts && t.gate.None?
            && t.removed == w.removed && (t.rowsDeleted <==> w.rowsDeleted || answer.tx == Unacknowledged)
  {
    hide Journalled, CopyFits, ListFits;
    LedgerHolds(w, id);
    TwoSteps(w, Advance(id, answer), Advance(id, save));
  }

  /** A resource is removed exactly when the holder reaches it, its list does not name it
      and the removal succeeds; the list then names it too. */
  lemma AResourceIsRemovedIff(w: World, id: nat, answer: Answer)
    requires Ledger(w) && w.gate == Some(id) && id in w.attempts && w.attempts[id].pc.Removing?
    requires w.attempts[id].pc.next < |w.resources|
    ensures var a, t := w.attempts[id], Step(w, Advance(id, answer));
            var r := w.resources[a.pc.next];
            && t.removed == (if r !in a.op.completed && answer.ok then w.removed + {r} else w.removed)
            && id in t.attempts && t.journal == w.journal
            && (r in a.op.completed ==> t.attempts[id] == Attempt(Removing(a.pc.next + 1), true, a.op))
            && (r !in a.op.completed && answer.ok ==>
                  t.attempts[id].pc == Recording(a.pc.next) && forall x :: x in t.attempts[id].op.completed <==> x in a.op.completed || x == r)
  {
    hide Journalled, CopyFits, StrictlyRising, Record, ResourceCompleted;
    LedgerHolds(w, id);
    var a := w.attempts[id];
    SearchFindsMembers(a.op.completed, w.resources[a.pc.next]);
    if w.resources[a.pc.next] !in a.op.completed {
      RecordKeepsRising(a.op.completed, w.resources[a.pc.next]);
    }
  }

  // ---------------------------------------------------------------------
  // Under one number
  // ---------------------------------------------------------------------

  /** The attempt holds the gate before every action of the run and after the last. */
  predicate KeepsGate(w: World, id: nat, actions: seq<Action>)
    decreases |actions|
  {
    w.gate == Some(id) && id in w.attempts && (actions == [] || KeepsGate(Step(w, actions[0]), id, actions[1..]))
  }

  lemma AStepKeepsTheNumber(w: World, id: nat, action: Action)
    requires Ledger(w) && w.gate == Some(id) && id in w.attempts
    requires Step(w, action).gate == Some(id) && id in Step(w, action).attempts
    ensures var a, t := w.attempts[id].op, Step(w, action);
            && (t.attempts[id].op.id, t.attempts[id].op.attempt) == (a.id, a.attempt)
            && (t.journal == w.journal || (t.journal.Some? && (t.journal.value.id, t.journal.value.attempt) == (a.id, a.attempt)))
  {
    hide Journalled, CopyFits, ListFits, RemoveStep, Record, ResourceCompleted, Saving;
    if action.Advance? && action.id == id {
      LedgerHolds(w, id);
      var a := w.attempts[id];
      if a.pc.Removing? {
        RemovingKeepsTheNumber(w, id, a, a.pc.next, action.answer.ok);
      } else if a.pc != Deleting && (a.pc == Preparing ==> w.journal.None?) {
        ASaveGoesOnIff(w, id, action.answer);
      }
    }
  }

  lemma RemovingKeepsTheNumber(w: World, id: nat, a: Attempt, next: nat, ok: bool)
    ensures var t := RemoveStep(w, id, a, next, ok);
            id in t.attempts && (t.attempts[id].op.id, t.attempts[id].op.attempt) == (a.op.id, a.op.attempt) && t.journal == w.journal
  {
    hide Record, ResourceCompleted;
  }

  /** As long as an attempt holds the gate only it writes, always under the number it
      took on its way in. */
  lemma {:induction false} OneAttemptWritesUnderOneNumber(w: World, id: nat, actions: seq<Action>)
    requires Ledger(w) && KeepsGate(w, id, actions)
    ensures var a, end := w.attempts[id].op, Run(w, actions);
            && id in end.attempts && (end.attempts[id].op.id, end.attempts[id].op.attempt) == (a.id, a.attempt)
            && (end.journal == w.journal ||
                (end.journal.Some? && (end.journal.value.id, end.journal.value.attempt) == (a.id, a.attempt)))
    decreases |actions|
  {
    hide Ledger, Step;
    if actions != [] {
      var t := Step(w, actions[0]);
      AStepKeepsTheNumber(w, id, actions[0]);
      StepKeepsLedger(w, actions[0]);
      OneAttemptWritesUnderOneNumber(t, id, actions[1..]);
    }
  }
}
