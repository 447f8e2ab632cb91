/** What runs of cleanup attempts can do: when a recorded resource is removed
    again, when a cleanup that is complete is taken up again, and when one that
    has begun can still be completed. */
module CleanupRuns {
  import opened Wrappers
  import opened Cleanup

  const GOOD := Answer(true, Committed)

  /** The attempt goes on and everything it asks for succeeds. */
  ghost predicate Smooth(id: nat, actions: seq<Action>) {
    forall k :: 0 <= k < |actions| ==> actions[k] == Advance(id, GOOD)
  }

  lemma RunTwo(w: World, first: Action, second: Action)
    ensures Run(w, [first, second]) == Step(Step(w, first), second)
  {
    hide Step;
    RunConcat(w, [first], [second]);
    RunOne(w, first);
    RunOne(Step(w, first), second);
  }

  // ---------------------------------------------------------------------
  // Removing a recorded resource again
  // ---------------------------------------------------------------------

  /** The attempt's copy lacks a planned resource that has been recorded. */
  ghost predicate Misses(w: World, a: Attempt) {
    a.found && exists i :: 0 <= i < |w.resources| && w.resources[i] in w.recorded && w.resources[i] !in a.op.completed
  }

  ghost predicate EverMisses(w: World, actions: seq<Action>)
    decreases |actions|
  {
    actions != [] &&
    ((TakesGate(w, actions[0]) && Misses(w, w.attempts[actions[0].id])) || EverMisses(Step(w, actions[0]), actions[1..]))
  }

  /** The holder's list is all that is recorded, and what it has just removed. */
  ghost predicate HolderCurrent(w: World) {
    w.gate.Some? && w.gate.value in w.attempts ==>
      var a := w.attempts[w.gate.value];
      a.pc != Preparing ==> Members(a.op.completed) == w.recorded + Pending(w, a.pc)
  }

  ghost predicate JournalCurrent(w: World) {
    w.journal.Some? ==> Members(w.journal.value.completed) == w.recorded
  }

  lemma AcquiringIsCurrent(w: World, id: nat)
    requires Ledger(w) && w.gate.None? && id in w.attempts && !Misses(w, w.attempts[id])
    ensures w.attempts[id].found ==> Members(w.attempts[id].op.completed) == w.recorded
  {
    hide StrictlyRising, Covers, AllRecorded;
    var a := w.attempts[id];
    if a.found {
      forall r | r in w.recorded ensures r in a.op.completed {
        assert r in Members(w.resources);
        var i :| 0 <= i < |w.resources| && w.resources[i] == r;
      }
    }
  }

  lemma AcquireStaysCurrent(w: World, id: nat, matches: bool)
    requires Ledger(w) && w.gate.None? && id in w.attempts
    requires Passes(w, w.attempts[id], matches) ==> !Misses(w, w.attempts[id])
    ensures HolderCurrent(AcquireStep(w, id, w.attempts[id], matches))
  {
    hide Ledger, Passes, Misses, Members;
    if Passes(w, w.attempts[id], matches) {
      AcquiringIsCurrent(w, id);
    }
  }

  lemma RemoveStaysCurrent(w: World, id: nat, a: Attempt, next: nat, ok: bool)
    requires Ledger(w) && id in w.attempts && w.attempts[id] == a && w.gate == Some(id) && a.pc == Removing(next)
    requires HolderCurrent(w)
    ensures var t := RemoveStep(w, id, a, next, ok);
            HolderCurrent(t) && t.repeated == w.repeated && t.journal == w.journal && t.recorded == w.recorded
  {
    hide Ledger, StrictlyRising, ResourceCompleted, Record;
    LedgerHolds(w, id);
    if next < |w.resources| {
      SearchFindsMembers(a.op.completed, w.resources[next]);
      if w.resources[next] !in a.op.completed {
        RecordKeepsRising(a.op.completed, w.resources[next]);
        assert w.resources[next] !in Members(a.op.completed);
        assert Members(Record(a.op.completed, w.resources[next])) == Members(a.op.completed) + {w.resources[next]};
      }
    }
  }

  lemma SaveStaysCurrent(w: World, id: nat, a: Attempt, answer: Answer)
    requires Ledger(w) && id in w.attempts && w.attempts[id] == a && w.gate == Some(id)
    requires !Outside(a.pc) && !a.pc.Removing? && a.pc != Deleting && HolderCurrent(w)
    ensures var t := AdvanceStep(w, id, a, answer);
            HolderCurrent(t) && t.repeated == w.repeated && (JournalCurrent(w) ==> JournalCurrent(t))
  {
    hide Ledger, AdvanceStep, Members, AllRecorded, Fits, CopyFits, StrictlyRising, Covers, CoversUpTo;
    LedgerHolds(w, id);
    SavingIsASave(w, id, a, answer);
    var op := Saving(a).0;
    NothingRises();
    if Saves(w, op, answer.tx) {
      assert op.completed == a.op.completed;
      assert Saved(w, op).recorded == Members(op.completed);
    }
  }

  lemma AdvanceStaysCurrent(w: World, id: nat, answer: Answer)
    requires Ledger(w) && HolderCurrent(w)
    ensures var t := Step(w, Advance(id, answer));
            HolderCurrent(t) && t.repeated == w.repeated && (JournalCurrent(w) ==> JournalCurrent(t))
  {
    hide Ledger, RemoveStep, DeleteStep, Members, HolderFits, Save, CopyFits, Journalled;
    if id in w.attempts && w.gate == Some(id) {
      LedgerHolds(w, id);
      var a := w.attempts[id];
      match a.pc {
        case Removing(next) => RemoveStaysCurrent(w, id, a, next, answer.ok);
        case Deleting => DeleteStaysCurrent(w, id, a, answer);
        case Loaded =>
        case Waiting =>
        case _ => SaveStaysCurrent(w, id, a, answer);
      }
    }
  }

  lemma DeleteStaysCurrent(w: World, id: nat, a: Attempt, answer: Answer)
    requires id in w.attempts && w.attempts[id] == a && w.gate == Some(id) && a.pc == Deleting && HolderCurrent(w)
    ensures var t := DeleteStep(w, id, a, answer);
            HolderCurrent(t) && t.repeated == w.repeated && t.journal == w.journal && t.recorded == w.recorded
  {
  }

  lemma StepStaysCurrent(w: World, action: Action)
    requires Ledger(w) && HolderCurrent(w) && JournalCurrent(w) && !w.repeated
    requires TakesGate(w, action) ==> !Misses(w, w.attempts[action.id])
    ensures var t := Step(w, action); HolderCurrent(t) && JournalCurrent(t) && !t.repeated
  {
    hide Ledger, AdvanceStep, Members, Misses;
    match action
    case Load(id) => AttemptOutside(w, id);
    case Inspect(id, matches) => AttemptOutside(w, id);
    case Acquire(id, matches) =>
      if id in w.attempts && w.attempts[id].pc == Waiting && w.gate.None? {
        AcquireStaysCurrent(w, id, matches);
      }
    case Advance(id, answer) => AdvanceStaysCurrent(w, id, answer);
    case Crash(id) =>
  }

  lemma AttemptOutside(w: World, id: nat)
    requires Ledger(w)
    ensures w.gate.Some? ==> w.gate.value in w.attempts && !Outside(w.attempts[w.gate.value].pc)
  {
    hide Journalled, CopyFits, ListFits;
  }

  lemma {:induction false} RunStaysCurrent(w: World, actions: seq<Action>)
    requires Ledger(w) && HolderCurrent(w) && JournalCurrent(w) && !w.repeated && !EverMisses(w, actions)
    ensures var t := Run(w, actions); HolderCurrent(t) && JournalCurrent(t) && !t.repeated
    decreases |actions|
  {
    hide Ledger, Step, TakesGate, Misses, HolderCurrent, JournalCurrent;
    if actions != [] {
      StepKeepsLedger(w, actions[0]);
      StepStaysCurrent(w, actions[0]);
      RunStaysCurrent(Step(w, actions[0]), actions[1..]);
    }
  }

  /** If no attempt takes the gate with a copy that lacks a recorded resource, none
      is ever removed again, and the journal lists all that was ever recorded. */
  lemma NothingIsRemovedAgain(w: World, actions: seq<Action>)
    requires Initial(w) && !EverMisses(w, actions)
    ensures var end := Run(w, actions);
            !end.repeated && (end.journal.Some? ==> forall r :: r in end.journal.value.completed <==> r in end.recorded)
  {
    hide Run, EverMisses;
    InitialIsLedger(w);
    RunStaysCurrent(w, actions);
  }

  /** Once inside the gate an attempt whose copy lacks nothing repeats no removal,
      whatever it is answered. */
  lemma {:induction false} HolderRepeatsNothing(w: World, id: nat, actions: seq<Action>)
    requires Ledger(w) && HolderCurrent(w) && !w.repeated
    requires forall k :: 0 <= k < |actions| ==> actions[k].Advance? && actions[k].id == id
    ensures !Run(w, actions).repeated
    decreases |actions|
  {
    hide Ledger, Step, HolderCurrent;
    if actions != [] {
      StepKeepsLedger(w, actions[0]);
      AdvanceStaysCurrent(w, id, actions[0].answer);
      HolderRepeatsNothing(Step(w, actions[0]), id, actions[1..]);
    }
  }

  /** A removed and recorded resource in the loop. */
  lemma RemovesAndRecords(w: World, id: nat, next: nat) returns (t: World)
    requires Ledger(w) && w.gate == Some(id) && id in w.attempts && w.attempts[id].pc == Removing(next) && next < |w.resources|
    requires w.resources[next] !in w.attempts[id].op.completed
    ensures t == Run(w, [Advance(id, GOOD), Advance(id, GOOD)]) && Ledger(t) && t.resources == w.resources
    ensures t.gate == w.gate && t.attempts.Keys == w.attempts.Keys && t.attempts - {id} == w.attempts - {id}
    ensures t.attempts[id].pc == Removing(next + 1) && t.rowsDeleted == w.rowsDeleted && w.recorded <= t.recorded
    ensures forall r :: r in t.attempts[id].op.completed <==> r in w.attempts[id].op.completed || r == w.resources[next]
  {
    hide Ledger, Record, ResourceCompleted, StrictlyRising, Members;
    LedgerHolds(w, id);
    var a := w.attempts[id];
    var r := w.resources[next];
    SearchFindsMembers(a.op.completed, r);
    RecordKeepsRising(a.op.completed, r);
    RunTwo(w, Advance(id, GOOD), Advance(id, GOOD));
    var op := a.op.(completed := Record(a.op.completed, r));
    var between := Goto(Without(w, r), id, a.(pc := Recording(next), op := op));
    assert Step(w, Advance(id, GOOD)) == between;
    t := Goto(Saved(between, op), id, Attempt(Removing(next + 1), true, op));
    assert Step(between, Advance(id, GOOD)) == t;
    StepKeepsLedger(w, Advance(id, GOOD));
    StepKeepsLedger(between, Advance(id, GOOD));
  }

  /** A resource already listed is passed over. */
  lemma PassesOver(w: World, id: nat, next: nat) returns (t: World)
    requires Ledger(w) && w.gate == Some(id) && id in w.attempts && w.attempts[id].pc == Removing(next) && next < |w.resources|
    requires w.resources[next] in w.attempts[id].op.completed
    ensures t == Run(w, [Advance(id, GOOD)]) && Ledger(t) && t == Goto(w, id, w.attempts[id].(pc := Removing(next + 1)))
  {
    hide Ledger, Record, ResourceCompleted, StrictlyRising, Members;
    LedgerHolds(w, id);
    SearchFindsMembers(w.attempts[id].op.completed, w.resources[next]);
    RunOne(w, Advance(id, GOOD));
    StepKeepsLedger(w, Advance(id, GOOD));
    t := Step(w, Advance(id, GOOD));
  }

  /** In the loop a holder that misses a resource removes it again. */
  lemma {:induction false} RepeatsInLoop(w: World, id: nat, next: nat, i: nat) returns (actions: seq<Action>)
    requires Ledger(w) && w.gate == Some(id) && id in w.attempts && w.attempts[id].pc == Removing(next)
    requires i < |w.resources| && w.resources[i] in w.recorded && w.resources[i] !in w.attempts[id].op.completed
    ensures Smooth(id, actions) && Run(w, actions).repeated
    decreases |w.resources| - next
  {
    hide Ledger, Run, Step, Goto;
    MissingLiesAhead(w, id, next, i);
    var r := w.resources[next];
    var t, rest;
    if r in w.attempts[id].op.completed {
      t := PassesOver(w, id, next);
      GotoIs(w, id, w.attempts[id].(pc := Removing(next + 1)));
      rest := RepeatsInLoop(t, id, next + 1, i);
      actions := [Advance(id, GOOD)] + rest;
      RunConcat(w, [Advance(id, GOOD)], rest);
    } else if r in w.recorded {
      RemovesRecorded(w, id, next);
      actions := [Advance(id, GOOD)];
    } else {
      t := RemovesAndRecords(w, id, next);
      assert w.resources[i] != r && w.resources[i] !in t.attempts[id].op.completed;
      rest := RepeatsInLoop(t, id, next + 1, i);
      actions := [Advance(id, GOOD), Advance(id, GOOD)] + rest;
      RunConcat(w, [Advance(id, GOOD), Advance(id, GOOD)], rest);
    }
  }

  lemma GotoIs(w: World, id: nat, a: Attempt)
    ensures Goto(w, id, a) == w.(attempts := w.attempts[id := a])
  {
  }

  lemma MissingLiesAhead(w: World, id: nat, next: nat, i: nat)
    requires Ledger(w) && w.gate == Some(id) && id in w.attempts && w.attempts[id].pc == Removing(next)
    requires i < |w.resources| && w.resources[i] !in w.attempts[id].op.completed
    ensures next <= i
  {
    hide Journalled, CopyFits, StrictlyRising, Members;
  }

  lemma RemovesRecorded(w: World, id: nat, next: nat)
    requires Ledger(w) && w.gate == Some(id) && id in w.attempts && w.attempts[id].pc == Removing(next) && next < |w.resources|
    requires w.resources[next] !in w.attempts[id].op.completed && w.resources[next] in w.recorded
    ensures Run(w, [Advance(id, GOOD)]).repeated
  {
    hide Ledger, Record, ResourceCompleted, StrictlyRising, Members;
    LedgerHolds(w, id);
    SearchFindsMembers(w.attempts[id].op.completed, w.resources[next]);
    RunOne(w, Advance(id, GOOD));
  }

  /** A copy that needs the filesystem phase enters the loop. */
  lemma EntersLoop(w: World, id: nat) returns (t: World)
    requires Ledger(w) && w.gate.None? && id in w.attempts && w.attempts[id].pc == Waiting && !w.rowsDeleted
    requires w.attempts[id].found && !DatabasePhase(w.attempts[id].op.phase)
    ensures t == Run(Step(w, Acquire(id, true)), [Advance(id, GOOD)]) && Ledger(t)
    ensures t.gate == Some(id) && t.attempts.Keys == w.attempts.Keys && t.attempts - {id} == w.attempts - {id}
    ensures t.attempts[id].pc == Removing(0) && t.attempts[id].op.completed == w.attempts[id].op.completed
    ensures t.resources == w.resources && t.rowsDeleted == w.rowsDeleted && w.recorded <= t.recorded
  {
    hide Journalled, StrictlyRising, Members, HolderFits, Fits;
    var entered := Step(w, Acquire(id, true));
    RunOne(entered, Advance(id, GOOD));
    t := Step(entered, Advance(id, GOOD));
    StepKeepsLedger(w, Acquire(id, true));
    StepKeepsLedger(entered, Advance(id, GOOD));
  }

  /** An attempt that takes the gate and is left alone removes a recorded resource
      again exactly when its copy lacks one and the rows are still there. */
  lemma AnAttemptRepeatsIffItMisses(w: World, id: nat)
    requires Ledger(w) && w.gate.None? && !w.repeated && id in w.attempts && w.attempts[id].pc == Waiting
    ensures (exists actions :: Smooth(id, actions) && Run(Step(w, Acquire(id, true)), actions).repeated) <==>
            !w.rowsDeleted && Misses(w, w.attempts[id])
  {
    hide Ledger, Run, Step, HolderCurrent, Covers, Members;
    var a := w.attempts[id];
    if !w.rowsDeleted && Misses(w, a) {
      var i :| 0 <= i < |w.resources| && w.resources[i] in w.recorded && w.resources[i] !in a.op.completed;
      DatabaseCopiesMissNothing(w, id, i);
      var t := EntersLoop(w, id);
      var rest := RepeatsInLoop(t, id, 0, i);
      RunConcat(Step(w, Acquire(id, true)), [Advance(id, GOOD)], rest);
      assert Smooth(id, [Advance(id, GOOD)] + rest);
    } else {
      forall actions | Smooth(id, actions) ensures !Run(Step(w, Acquire(id, true)), actions).repeated {
        AloneRepeatsNothing(w, id, true, actions);
      }
    }
  }

  lemma DatabaseCopiesMissNothing(w: World, id: nat, i: nat)
    requires Ledger(w) && w.gate.None? && id in w.attempts && w.attempts[id].found
    requires i < |w.resources| && w.resources[i] !in w.attempts[id].op.completed
    ensures !DatabasePhase(w.attempts[id].op.phase)
  {
    hide Journalled, StrictlyRising, Members;
  }

  lemma GoneRowsAdmitFullCopies(w: World, id: nat)
    requires Ledger(w) && w.gate.None? && id in w.attempts && w.rowsDeleted && Passes(w, w.attempts[id], true)
    ensures !Misses(w, w.attempts[id])
  {
    hide Journalled, StrictlyRising, Members;
  }

  /** And one that misses nothing repeats none, however it is answered. */
  lemma AloneRepeatsNothing(w: World, id: nat, matches: bool, actions: seq<Action>)
    requires Ledger(w) && w.gate.None? && !w.repeated && id in w.attempts && w.attempts[id].pc == Waiting
    requires w.rowsDeleted || !Misses(w, w.attempts[id])
    requires forall k :: 0 <= k < |actions| ==> actions[k].Advance? && actions[k].id == id
    ensures !Run(Step(w, Acquire(id, matches)), actions).repeated
  {
    hide Ledger, Run, HolderCurrent, Misses, Members;
    if w.rowsDeleted && Passes(w, w.attempts[id], matches) {
      GoneRowsAdmitFullCopies(w, id);
    }
    AcquireStaysCurrent(w, id, matches);
    StepKeepsLedger(w, Acquire(id, matches));
    HolderRepeatsNothing(Step(w, Acquire(id, matches)), id, actions);
  }

  // ---------------------------------------------------------------------
  // An attempt to which nothing happens completes the cleanup
  // ---------------------------------------------------------------------

  /** The attempt stands before the deletion of the rows, as the journal says. */
  ghost predicate Drained(w: World, t: World, id: nat) {
    && Ledger(t) && t.gate == Some(id) && id in t.attempts && t.attempts[id].pc == Deleting
    && t.attempts[id].op.phase == FilesystemRemoved && t.journal == Some(t.attempts[id].op)
    && t.rowsDeleted == w.rowsDeleted && t.attempts - {id} == w.attempts - {id} && t.resources == w.resources
  }

  lemma {:induction false} Drains(w: World, id: nat, next: nat) returns (actions: seq<Action>)
    requires Ledger(w) && w.gate == Some(id) && id in w.attempts && w.attempts[id].pc == Removing(next)
    ensures Smooth(id, actions) && Drained(w, Run(w, actions), id)
    decreases |w.resources| - next
  {
    hide Ledger, Run, Step, Goto;
    var t, rest;
    if next >= |w.resources| {
      LeavesLoop(w, id, next);
      actions := [Advance(id, GOOD), Advance(id, GOOD)];
    } else if w.resources[next] in w.attempts[id].op.completed {
      t := PassesOver(w, id, next);
      GotoIs(w, id, w.attempts[id].(pc := Removing(next + 1)));
      rest := Drains(t, id, next + 1);
      actions := [Advance(id, GOOD)] + rest;
      RunConcat(w, [Advance(id, GOOD)], rest);
      assert t.attempts - {id} == w.attempts - {id};
    } else {
      t := RemovesAndRecords(w, id, next);
      rest := Drains(t, id, next + 1);
      actions := [Advance(id, GOOD), Advance(id, GOOD)] + rest;
      RunConcat(w, [Advance(id, GOOD), Advance(id, GOOD)], rest);
    }
  }

  lemma LeavesLoop(w: World, id: nat, next: nat)
    requires Ledger(w) && w.gate == Some(id) && id in w.attempts && w.attempts[id].pc == Removing(next) && next >= |w.resources|
    ensures Drained(w, Run(w, [Advance(id, GOOD), Advance(id, GOOD)]), id)
  {
    hide Ledger, Members, StrictlyRising, Record, ResourceCompleted;
    LedgerHolds(w, id);
    RunTwo(w, Advance(id, GOOD), Advance(id, GOOD));
    StepKeepsLedger(w, Advance(id, GOOD));
    var between := Goto(w, id, w.attempts[id].(pc := LeavingFilesystem));
    assert Step(w, Advance(id, GOOD)) == between;
    StepKeepsLedger(between, Advance(id, GOOD));
  }

  /** From the deletion on, four good answers complete the cleanup. */
  lemma Finishes(w: World, id: nat) returns (actions: seq<Action>)
    requires Ledger(w) && w.gate == Some(id) && id in w.attempts && w.attempts[id].pc == Deleting
    ensures Smooth(id, actions)
    ensures var t := Run(w, actions); Ledger(t) && Completed(t) && t.gate.None? && t.attempts == w.attempts - {id}
  {
    hide Ledger, Members, Run;
    LedgerHolds(w, id);
    var op := w.attempts[id].op;
    var w1 := Goto(w.(rowsDeleted := true), id, Attempt(SavingDatabaseRemoved, true, op));
    var w2 := Goto(Saved(w1, op.(phase := DatabaseRemoved)), id, Attempt(SavingVerified, true, op.(phase := DatabaseRemoved)));
    var w3 := Goto(Saved(w2, op.(phase := Verified)), id, Attempt(SavingComplete, true, op.(phase := Verified)));
    var w4 := End(Saved(w3, op.(phase := Complete)), id);
    assert Step(w, Advance(id, GOOD)) == w1;
    assert Step(w1, Advance(id, GOOD)) == w2;
    assert Step(w2, Advance(id, GOOD)) == w3;
    assert Step(w3, Advance(id, GOOD)) == w4;
    RunTwo(w, Advance(id, GOOD), Advance(id, GOOD));
    RunTwo(w2, Advance(id, GOOD), Advance(id, GOOD));
    RunConcat(w, [Advance(id, GOOD), Advance(id, GOOD)], [Advance(id, GOOD), Advance(id, GOOD)]);
    actions := [Advance(id, GOOD), Advance(id, GOOD)] + [Advance(id, GOOD), Advance(id, GOOD)];
    RunKeepsLedger(w, actions);
  }

  /** An attempt that the journal still takes for its own. */
  predicate CanGoOn(w: World, id: nat) {
    w.gate.None? && id in w.attempts && (w.journal.Some? ==> w.attempts[id].found) && Passes(w, w.attempts[id], true)
  }

  /** It reaches the deletion of the rows. */
  lemma ReachesDeletion(w: World, id: nat) returns (actions: seq<Action>)
    requires Ledger(w) && CanGoOn(w, id) && w.attempts[id].pc == Waiting
    ensures var t := Run(w, actions);
            && Ledger(t) && t.gate == Some(id) && id in t.attempts && t.attempts[id].pc == Deleting
            && t.rowsDeleted == w.rowsDeleted && t.attempts - {id} == w.attempts - {id} && t.resources == w.resources
            && DatabasePhase(t.attempts[id].op.phase)
            && (!DatabasePhase(w.attempts[id].op.phase) ==> Drained(w, t, id))
  {
    hide Ledger, Run, Step;
    var a := w.attempts[id];
    var entered := Step(w, Acquire(id, true));
    RunOne(w, Acquire(id, true));
    if a.found && DatabasePhase(a.op.phase) {
      actions := [Acquire(id, true)];
      EntersDeletion(w, id);
    } else if a.found {
      var looping := EntersLoop(w, id);
      var rest := Drains(looping, id, 0);
      RunConcat(w, [Acquire(id, true)], [Advance(id, GOOD)] + rest);
      RunConcat(entered, [Advance(id, GOOD)], rest);
      actions := [Acquire(id, true)] + ([Advance(id, GOOD)] + rest);
    } else {
      var looping := BeginsLoop(w, id);
      var rest := Drains(looping, id, 0);
      RunConcat(w, [Acquire(id, true)], [Advance(id, GOOD), Advance(id, GOOD)] + rest);
      RunConcat(entered, [Advance(id, GOOD), Advance(id, GOOD)], rest);
      actions := [Acquire(id, true)] + ([Advance(id, GOOD), Advance(id, GOOD)] + rest);
    }
  }

  lemma EntersDeletion(w: World, id: nat)
    requires Ledger(w) && CanGoOn(w, id) && w.attempts[id].pc == Waiting
    requires w.attempts[id].found && DatabasePhase(w.attempts[id].op.phase)
    ensures var t := Step(w, Acquire(id, true));
            && Ledger(t) && t.gate == Some(id) && id in t.attempts && t.attempts[id].pc == Deleting
            && t.rowsDeleted == w.rowsDeleted && t.attempts - {id} == w.attempts - {id} && t.resources == w.resources
            && DatabasePhase(t.attempts[id].op.phase)
  {
    hide Ledger;
    StepKeepsLedger(w, Acquire(id, true));
  }

  /** A first attempt journals its operation and enters the loop. */
  lemma BeginsLoop(w: World, id: nat) returns (t: World)
    requires Ledger(w) && CanGoOn(w, id) && w.attempts[id].pc == Waiting && !w.attempts[id].found
    ensures t == Run(Step(w, Acquire(id, true)), [Advance(id, GOOD), Advance(id, GOOD)]) && Ledger(t)
    ensures t.gate == Some(id) && id in t.attempts && t.attempts - {id} == w.attempts - {id}
    ensures t.attempts[id].pc == Removing(0) && t.resources == w.resources && t.rowsDeleted == w.rowsDeleted
  {
    hide Ledger, Members;
    var op := Operation(id, Prepared, 1, []);
    var w1 := Goto(w.(gate := Some(id)), id, Attempt(Preparing, false, op));
    var w2 := Goto(Saved(w1, op), id, Attempt(Quiescing, true, op));
    var w3 := Goto(Saved(w2, op.(phase := Quiesced)), id, Attempt(Removing(0), true, op.(phase := Quiesced)));
    assert Step(w, Acquire(id, true)) == w1;
    assert Step(w1, Advance(id, GOOD)) == w2;
    assert Step(w2, Advance(id, GOOD)) == w3;
    RunTwo(w1, Advance(id, GOOD), Advance(id, GOOD));
    StepKeepsLedger(w, Acquire(id, true));
    StepKeepsLedger(w1, Advance(id, GOOD));
    StepKeepsLedger(w2, Advance(id, GOOD));
    t := w3;
  }

  /** An attempt that may go on and is left alone completes the cleanup. */
  lemma AnAttemptCompletes(w: World, id: nat) returns (actions: seq<Action>)
    requires Ledger(w) && CanGoOn(w, id)
    ensures var t := Run(w, actions); Ledger(t) && Completed(t) && t.gate.None? && t.attempts == w.attempts - {id}
  {
    hide Ledger, Run, Step, Completed;
    Inspects(w, id);
    var waiting := Step(w, Inspect(id, true));
    RunOne(w, Inspect(id, true));
    var first := ReachesDeletion(waiting, id);
    var second := Finishes(Run(waiting, first), id);
    RunConcat(waiting, first, second);
    RunConcat(w, [Inspect(id, true)], first + second);
    actions := [Inspect(id, true)] + (first + second);
    assert Run(waiting, first).attempts - {id} == w.attempts - {id};
  }

  lemma Inspects(w: World, id: nat)
    requires Ledger(w) && CanGoOn(w, id)
    ensures var t := Step(w, Inspect(id, true));
            && Ledger(t) && CanGoOn(t, id) && t.attempts[id].pc == Waiting && t.attempts - {id} == w.attempts - {id}
            && t == w.(attempts := t.attempts) && t.attempts[id] == w.attempts[id].(pc := Waiting)
  {
    IsOutside(w, id);
    StepKeepsLedger(w, Inspect(id, true));
    assert w.attempts[id].pc == Waiting ==> w.attempts[id].(pc := Waiting) == w.attempts[id];
    assert w.attempts == w.attempts[id := w.attempts[id]];
  }

  lemma IsOutside(w: World, id: nat)
    requires Ledger(w) && w.gate != Some(id) && id in w.attempts
    ensures Outside(w.attempts[id].pc) && w.attempts[id].op.phase != Complete && !w.blocked
  {
    hide Journalled, Fits;
  }

  // ---------------------------------------------------------------------
  // Cleanups that nothing can complete
  // ---------------------------------------------------------------------

  predicate DatabaseCopy(w: World, id: nat) {
    id in w.attempts && w.attempts[id].found && DatabasePhase(w.attempts[id].op.phase)
  }

  /** The rows are gone, and neither the journal nor any copy of it excuses that. */
  ghost predicate Stuck(w: World) {
    && w.rowsDeleted && w.gate.None?
    && !(w.journal.Some? && (DatabasePhase(w.journal.value.phase) || w.journal.value.phase == Complete))
    && forall id :: !DatabaseCopy(w, id)
  }

  lemma StuckStep(w: World, action: Action)
    requires Stuck(w)
    ensures Stuck(Step(w, action))
  {
    hide AdvanceStep;
    match action
    case Crash(id) => assert forall other :: DatabaseCopy(End(w, id), other) ==> DatabaseCopy(w, other);
    case Load(id) => assert forall other :: other != id ==> DatabaseCopy(Step(w, action), other) == DatabaseCopy(w, other);
    case Inspect(id, matches) => assert DatabaseCopy(w, id) || forall other :: DatabaseCopy(Step(w, action), other) ==> DatabaseCopy(w, other);
    case Acquire(id, matches) => assert DatabaseCopy(w, id) || forall other :: DatabaseCopy(Step(w, action), other) ==> DatabaseCopy(w, other);
    case Advance(id, answer) =>
  }

  lemma {:induction false} StuckForEver(w: World, actions: seq<Action>)
    requires Stuck(w)
    ensures Stuck(Run(w, actions)) && !Completed(Run(w, actions))
    decreases |actions|
  {
    hide Step;
    if actions != [] {
      StuckStep(w, actions[0]);
      StuckForEver(Step(w, actions[0]), actions[1..]);
    }
  }

  lemma {:induction false} BlockedForEver(w: World, actions: seq<Action>)
    requires w.blocked && w.attempts == map[] && w.gate.None?
    ensures Run(w, actions) == w
    decreases |actions|
  {
    if actions != [] {
      assert w.attempts - {actions[0].id} == map[];
      assert Step(w, actions[0]) == w;
      BlockedForEver(w, actions[1..]);
    }
  }

  /** A journal that allows it lets a new attempt go on. */
  lemma ANewAttemptGoesOn(w: World)
    requires Ledger(w) && w.gate.None? && !w.blocked && !Completed(w)
    requires !w.rowsDeleted || (w.journal.Some? && DatabasePhase(w.journal.value.phase))
    ensures var t := Run(w, [Crash(0), Load(0)]); Ledger(t) && CanGoOn(t, 0)
  {
    hide Ledger, Run;
    RunTwo(w, Crash(0), Load(0));
    RunKeepsLedger(w, [Crash(0), Load(0)]);
  }

  lemma SomeRunCompletes(w: World) returns (actions: seq<Action>)
    requires Ledger(w) && w.gate.None? && !w.blocked && !Stuck(w)
    ensures Completed(Run(w, actions))
  {
    hide Ledger, Step;
    if Completed(w) {
      actions := [];
    } else if !w.rowsDeleted || (w.journal.Some? && DatabasePhase(w.journal.value.phase)) {
      hide Run;
      ANewAttemptGoesOn(w);
      var rest := AnAttemptCompletes(Run(w, [Crash(0), Load(0)]), 0);
      RunConcat(w, [Crash(0), Load(0)], rest);
      actions := [Crash(0), Load(0)] + rest;
    } else {
      var id :| DatabaseCopy(w, id);
      actions := AnAttemptCompletes(w, id);
    }
  }

  lemma BlockedHasNothing(w: World)
    requires Ledger(w) && w.blocked
    ensures w.attempts == map[] && !Completed(w)
  {
  }

  /** With the gate free a cleanup can still be completed exactly when its plan is
      not blocked and it is not stuck. */
  lemma CompletionIsInReachIff(w: World)
    requires Ledger(w) && w.gate.None?
    ensures (exists actions :: Completed(Run(w, actions))) <==> !w.blocked && !Stuck(w)
  {
    hide Ledger, Run, Stuck, Completed;
    if w.blocked {
      BlockedHasNothing(w);
      forall actions ensures !Completed(Run(w, actions)) { BlockedForEver(w, actions); }
    } else if Stuck(w) {
      forall actions ensures !Completed(Run(w, actions)) { StuckForEver(w, actions); }
    } else {
      var actions := SomeRunCompletes(w);
    }
  }

  /** A deletion that fails and the save behind it leave the cleanup stuck exactly
      when the rows are gone all the same and the journal then holds no phase that
      excuses it. */
  lemma AFailedDeletionSticksIff(w: World, id: nat, answer: Answer, save: Answer)
    requires Ledger(w) && w.gate == Some(id) && w.attempts[id].pc == Deleting && !answer.ok
    requires forall other :: other != id ==> !DatabaseCopy(w, other)
    ensures Stuck(Step(Step(w, Advance(id, answer)), Advance(id, save))) <==>
            && (w.rowsDeleted || answer.tx == Unacknowledged)
            && (save.tx != Refused || !(DatabasePhase(w.journal.value.phase) || w.journal.value.phase == Complete))
  {
    hide Journalled, CopyFits, ListFits, Members;
    var between := Step(w, Advance(id, answer));
    var a := w.attempts[id].(pc := SavingRequired);
    assert between == Goto(w.(rowsDeleted := w.rowsDeleted || answer.tx == Unacknowledged), id, a);
    var end := Step(between, Advance(id, save));
    assert end == Save(between, id, a.op.(phase := CleanupRequired), save.tx, None);
    forall other ensures !DatabaseCopy(end, other) {
      assert other != id ==> !DatabaseCopy(w, other);
    }
  }

  // ---------------------------------------------------------------------
  // Cleanups that are complete
  // ---------------------------------------------------------------------

  /** Saves in this place write a phase other than complete. */
  predicate SavesAnother(pc: Pc) {
    !Outside(pc) && !pc.Removing? && pc != Deleting && pc != SavingComplete && pc != Preparing
  }

  /** One step leaves a complete cleanup exactly when it is a save, not refused, of a
      holder of the gate that has another phase to write. */
  lemma AStepLeavesCompleteIff(w: World, action: Action)
    requires Ledger(w) && Completed(w)
    ensures !Completed(Step(w, action)) <==>
            && action.Advance? && w.gate == Some(action.id)
            && SavesAnother(w.attempts[action.id].pc) && action.answer.tx != Refused
  {
    hide Members, ListFits, CopyFits, Fits, AllRecorded, ResourceCompleted, Record;
  }

  ghost predicate EverReopens(w: World, actions: seq<Action>)
    decreases |actions|
  {
    actions != [] && ((Completed(w) && TakesGate(w, actions[0])) || EverReopens(Step(w, actions[0]), actions[1..]))
  }

  /** Apart from attempts outside the gate nothing has changed. */
  predicate Untouched(w: World, t: World) { t == w.(attempts := t.attempts) }

  lemma CompletedStep(w: World, action: Action)
    requires Completed(w) && w.gate.None? && !TakesGate(w, action)
    ensures Untouched(w, Step(w, action))
  {
    hide AdvanceStep;
  }

  /** A complete cleanup is never touched again, unless an attempt takes the gate
      after its completion. */
  lemma {:induction false} CompleteAbsorbs(w: World, actions: seq<Action>)
    requires Completed(w) && w.gate.None? && !EverReopens(w, actions)
    ensures Untouched(w, Run(w, actions))
    decreases |actions|
  {
    hide Step, TakesGate;
    if actions != [] {
      CompletedStep(w, actions[0]);
      CompleteAbsorbs(Step(w, actions[0]), actions[1..]);
    }
  }

  /** Only a copy of a database phase takes the gate then. */
  lemma OnlyDatabaseCopiesReopen(w: World, action: Action)
    requires Ledger(w) && Completed(w)
    ensures TakesGate(w, action) ==> DatabaseCopy(w, action.id)
  {
  }

  lemma CopiesStayAway(w: World, action: Action)
    requires Ledger(w) && Completed(w) && w.gate.None? && forall id :: !DatabaseCopy(w, id)
    ensures var t := Step(w, action); Untouched(w, t) && forall id :: !DatabaseCopy(t, id)
  {
    hide AdvanceStep, Ledger;
    OnlyDatabaseCopiesReopen(w, action);
    CompletedStep(w, action);
    forall id ensures !DatabaseCopy(Step(w, action), id) {
      assert !DatabaseCopy(w, id);
    }
  }

  lemma {:induction false} WithoutCopiesComplete(w: World, actions: seq<Action>)
    requires Ledger(w) && Completed(w) && w.gate.None? && forall id :: !DatabaseCopy(w, id)
    ensures Completed(Run(w, actions))
    decreases |actions|
  {
    hide Ledger, Step, DatabaseCopy;
    if actions != [] {
      StepKeepsLedger(w, actions[0]);
      CopiesStayAway(w, actions[0]);
      WithoutCopiesComplete(Step(w, actions[0]), actions[1..]);
    }
  }

  /** Such an attempt saves its phase over the complete one. */
  lemma ACopyReopens(w: World, id: nat) returns (actions: seq<Action>)
    requires Ledger(w) && Completed(w) && w.gate.None? && DatabaseCopy(w, id)
    ensures !Completed(Run(w, actions))
  {
    hide Ledger, Run, Step;
    CompleteHasNoRows(w);
    Inspects(w, id);
    var waiting := Step(w, Inspect(id, true));
    var entered := Step(waiting, Acquire(id, true));
    EntersDeletion(waiting, id);
    DeletesAndSaves(entered, id);
    RunTwo(w, Inspect(id, true), Acquire(id, true));
    RunConcat(w, [Inspect(id, true), Acquire(id, true)], [Advance(id, GOOD), Advance(id, GOOD)]);
    actions := [Inspect(id, true), Acquire(id, true)] + [Advance(id, GOOD), Advance(id, GOOD)];
  }

  lemma CompleteHasNoRows(w: World)
    requires Ledger(w) && Completed(w)
    ensures w.rowsDeleted
  {
  }

  lemma DeletesAndSaves(w: World, id: nat)
    requires Ledger(w) && w.gate == Some(id) && id in w.attempts && w.attempts[id].pc == Deleting
    ensures !Completed(Run(w, [Advance(id, GOOD), Advance(id, GOOD)]))
  {
    hide Members, Journalled, ListFits, CopyFits;
    RunTwo(w, Advance(id, GOOD), Advance(id, GOOD));
  }

  /** With the gate free a complete cleanup can cease to be so exactly when an
      attempt still waits with a copy of a database phase. */
  lemma CompleteCanBeLeftIff(w: World)
    requires Ledger(w) && Completed(w) && w.gate.None?
    ensures (exists actions :: !Completed(Run(w, actions))) <==> exists id :: DatabaseCopy(w, id)
  {
    hide Ledger, Run, Completed, DatabaseCopy;
    if id :| DatabaseCopy(w, id) {
      var actions := ACopyReopens(w, id);
    } else {
      forall actions ensures Completed(Run(w, actions)) { WithoutCopiesComplete(w, actions); }
    }
  }

  // ---------------------------------------------------------------------
  // Runs from the beginning
  // ---------------------------------------------------------------------

  /** A first attempt stands before the deletion of the rows. */
  lemma FirstAttemptDrains(w: World) returns (actions: seq<Action>)
    requires Initial(w) && !w.blocked
    ensures var t := Run(w, actions); Drained(w, t, 0) && t.attempts.Keys == {0} && !t.rowsDeleted
  {
    hide Ledger, Run, Step;
    InitialIsLedger(w);
    FirstLoads(w);
    var loaded := Step(w, Load(0));
    Inspects(loaded, 0);
    var waiting := Step(loaded, Inspect(0, true));
    var rest := ReachesDeletion(waiting, 0);
    RunTwo(w, Load(0), Inspect(0, true));
    RunConcat(w, [Load(0), Inspect(0, true)], rest);
    actions := [Load(0), Inspect(0, true)] + rest;
    var t := Run(w, actions);
    assert t.attempts.Keys - {0} == (t.attempts - {0}).Keys == (waiting.attempts - {0}).Keys == {};
  }

  lemma FirstLoads(w: World)
    requires Initial(w) && !w.blocked
    ensures var t := Step(w, Load(0)); Ledger(t) && CanGoOn(t, 0) && t.attempts.Keys == {0} && !t.rowsDeleted
    ensures !DatabasePhase(Step(w, Load(0)).attempts[0].op.phase) && Step(w, Load(0)).resources == w.resources
  {
    InitialIsLedger(w);
    StepKeepsLedger(w, Load(0));
  }

  /** A row deletion that is committed but reported as failed, and the save behind
      it, leave any cleanup stuck. */
  lemma AnUnacknowledgedDeletionSticks(w: World) returns (actions: seq<Action>)
    requires Initial(w) && !w.blocked
    ensures Stuck(Run(w, actions))
  {
    hide Ledger, Run, Step, Stuck;
    var first := FirstAttemptDrains(w);
    var t := Run(w, first);
    AFailedDeletionSticksIff(t, 0, Answer(false, Unacknowledged), GOOD);
    RunTwo(t, Advance(0, Answer(false, Unacknowledged)), Advance(0, GOOD));
    RunConcat(w, first, [Advance(0, Answer(false, Unacknowledged)), Advance(0, GOOD)]);
    actions := first + [Advance(0, Answer(false, Unacknowledged)), Advance(0, GOOD)];
  }

  /** So does a crash behind the deletion, when the deletion of the next attempt is
      plainly refused. */
  lemma ARefusedDeletionSticks(w: World) returns (actions: seq<Action>)
    requires Initial(w) && !w.blocked
    ensures Stuck(Run(w, actions))
  {
    hide Ledger, Run, Step, Stuck;
    var first := FirstAttemptDrains(w);
    var t := Run(w, first);
    CrashesBehindDeletion(t);
    var again := Run(t, [Advance(0, GOOD), Crash(0)]);
    LoadsOnceMore(again);
    var loaded := Step(again, Load(0));
    Inspects(loaded, 0);
    var waiting := Step(loaded, Inspect(0, true));
    EntersDeletion(waiting, 0);
    var entered := Step(waiting, Acquire(0, true));
    RunTwo(again, Load(0), Inspect(0, true));
    RunOne(waiting, Acquire(0, true));
    RunConcat(again, [Load(0), Inspect(0, true)], [Acquire(0, true)]);
    OnlyAttempt(again, entered);
    AFailedDeletionSticksIff(entered, 0, Answer(false, Refused), GOOD);
    RunTwo(entered, Advance(0, Answer(false, Refused)), Advance(0, GOOD));
    RunConcat(again, [Load(0), Inspect(0, true)] + [Acquire(0, true)], [Advance(0, Answer(false, Refused)), Advance(0, GOOD)]);
    var last := [Load(0), Inspect(0, true)] + [Acquire(0, true)] + [Advance(0, Answer(false, Refused)), Advance(0, GOOD)];
    RunConcat(t, [Advance(0, GOOD), Crash(0)], last);
    RunConcat(w, first, [Advance(0, GOOD), Crash(0)] + last);
    actions := first + ([Advance(0, GOOD), Crash(0)] + last);
  }

  lemma OnlyAttempt(w: World, t: World)
    requires w.attempts == map[] && t.attempts - {0} == w.attempts - {0}
    ensures forall id :: id != 0 ==> !DatabaseCopy(t, id)
  {
    forall id | id != 0 ensures id !in t.attempts {
      assert id !in t.attempts - {0};
    }
  }

  lemma CrashesBehindDeletion(w: World)
    requires Ledger(w) && w.gate == Some(0) && 0 in w.attempts && w.attempts[0].pc == Deleting && w.attempts.Keys == {0}
    ensures var t := Run(w, [Advance(0, GOOD), Crash(0)]);
            Ledger(t) && t.rowsDeleted && t.gate.None? && t.journal == w.journal && t.attempts == map[]
  {
    hide Ledger;
    RunTwo(w, Advance(0, GOOD), Crash(0));
    RunKeepsLedger(w, [Advance(0, GOOD), Crash(0)]);
  }

  lemma LoadsOnceMore(w: World)
    requires Ledger(w) && w.gate.None? && w.attempts == map[] && w.journal.Some? && DatabasePhase(w.journal.value.phase)
    ensures var t := Step(w, Load(0));
            && Ledger(t) && CanGoOn(t, 0) && t.attempts - {0} == w.attempts - {0} && t.rowsDeleted == w.rowsDeleted
            && t.attempts[0].found && DatabasePhase(t.attempts[0].op.phase) && t.journal == w.journal
  {
    assert !w.blocked;
    StepKeepsLedger(w, Load(0));
  }

  /** Two attempts load a database phase before either of them completes. */
  lemma TwoLoad(w: World)
    requires Ledger(w) && w.gate == Some(0) && w.attempts.Keys == {0} && w.journal.Some? && DatabasePhase(w.journal.value.phase)
    ensures var t := Run(w, [Crash(0)] + [Load(1), Load(2)]);
            Ledger(t) && t.gate.None? && CanGoOn(t, 1) && DatabaseCopy(t, 2)
  {
    hide Ledger;
    LedgerHolds(w, 0);
    RunConcat(w, [Crash(0)], [Load(1), Load(2)]);
    RunOne(w, Crash(0));
    RunTwo(Step(w, Crash(0)), Load(1), Load(2));
    RunKeepsLedger(w, [Crash(0)] + [Load(1), Load(2)]);
  }

  /** Every cleanup has a run that completes it and goes on to undo that: an attempt
      that loaded a database phase before the other completed. */
  lemma ACompleteCleanupIsReopened(w: World) returns (first: seq<Action>, second: seq<Action>)
    requires Initial(w) && !w.blocked
    ensures Completed(Run(w, first)) && !Completed(Run(w, first + second))
  {
    hide Ledger, Run, Step, Completed, CanGoOn;
    var begin := FirstAttemptDrains(w);
    var drained := Run(w, begin);
    TwoLoad(drained);
    var loading := [Crash(0)] + [Load(1), Load(2)];
    var t := Run(drained, loading);
    var finish := AnAttemptCompletes(t, 1);
    RunConcat(drained, loading, finish);
    RunConcat(w, begin, loading + finish);
    first := begin + (loading + finish);
    CopyStays(t, Run(t, finish));
    second := ACopyReopens(Run(w, first), 2);
    RunConcat(w, first, second);
  }

  lemma CopyStays(w: World, t: World)
    requires DatabaseCopy(w, 2) && t.attempts == w.attempts - {1}
    ensures DatabaseCopy(t, 2)
  {
  }

  /** A first attempt journals its operation and crashes; two more load it; one of
      them removes and records every planned resource before the other takes the
      gate with its old copy and removes one again. */
  lemma AStaleAttemptRemovesAgain(w: World) returns (actions: seq<Action>)
    requires Initial(w) && !w.blocked && w.resources != []
    ensures Run(w, actions).repeated
  {
    hide Ledger, Run, Step, CanGoOn;
    var begin := TwoLoadTheBeginning(w);
    var t := Run(w, begin);
    var middle := ReachesDeletion(t, 1);
    var drained := Run(t, middle);
    CrashesDrained(t, drained);
    var free := Step(drained, Crash(1));
    RunOne(drained, Crash(1));
    if free.repeated {
      actions := begin + (middle + [Crash(1)]);
    } else {
      AnAttemptRepeatsIffItMisses(free, 2);
      var last :| Smooth(2, last) && Run(Step(free, Acquire(2, true)), last).repeated;
      RunOne(free, Acquire(2, true));
      RunConcat(free, [Acquire(2, true)], last);
      RunConcat(t, middle + [Crash(1)], [Acquire(2, true)] + last);
      actions := begin + ((middle + [Crash(1)]) + ([Acquire(2, true)] + last));
    }
    RunConcat(t, middle, [Crash(1)]);
    RunConcat(w, begin, actions[|begin|..]);
    assert actions == begin + actions[|begin|..];
  }

  /** Attempts 1 and 2 wait with an empty list. */
  lemma TwoLoadTheBeginning(w: World) returns (actions: seq<Action>)
    requires Initial(w) && !w.blocked
    ensures var t := Run(w, actions);
            && Ledger(t) && CanGoOn(t, 1) && t.attempts[1].pc == Waiting && !DatabasePhase(t.attempts[1].op.phase)
            && 2 in t.attempts && t.attempts[2].pc == Waiting && t.attempts[2].found && t.attempts[2].op.completed == []
            && t.resources == w.resources && !t.rowsDeleted
  {
    hide Members;
    var op := Operation(0, Prepared, 1, []);
    var w1 := w.(attempts := map[0 := Attempt(Loaded, false, NOTHING)]);
    var w2 := w1.(attempts := map[0 := Attempt(Waiting, false, NOTHING)]);
    var w3 := w2.(gate := Some(0), attempts := map[0 := Attempt(Preparing, false, op)]);
    var w4 := Saved(w3, op).(attempts := map[0 := Attempt(Quiescing, true, op)]);
    var w5 := w4.(gate := None, attempts := map[]);
    var w6 := w5.(attempts := map[1 := Attempt(Loaded, true, op)]);
    var w7 := w6.(attempts := map[1 := Attempt(Waiting, true, op)]);
    var w8 := w7.(attempts := map[1 := Attempt(Waiting, true, op), 2 := Attempt(Loaded, true, op)]);
    var w9 := w8.(attempts := map[1 := Attempt(Waiting, true, op), 2 := Attempt(Waiting, true, op)]);
    assert Step(w, Load(0)) == w1;
    assert Step(w1, Inspect(0, true)) == w2;
    assert Step(w2, Acquire(0, true)) == w3;
    assert Step(w3, Advance(0, GOOD)) == w4;
    assert Step(w4, Crash(0)) == w5;
    assert Step(w5, Load(1)) == w6;
    assert Step(w6, Inspect(1, true)) == w7;
    assert Step(w7, Load(2)) == w8;
    assert Step(w8, Inspect(2, true)) == w9;
    actions := [Load(0), Inspect(0, true), Acquire(0, true), Advance(0, GOOD), Crash(0), Load(1), Inspect(1, true), Load(2),
                Inspect(2, true)];
    FollowSteps([w, w1, w2, w3, w4, w5, w6, w7, w8, w9], actions);
    InitialIsLedger(w);
    RunKeepsLedger(w, actions);
  }

  lemma {:induction false} FollowSteps(worlds: seq<World>, actions: seq<Action>)
    requires |worlds| == |actions| + 1
    requires forall k :: 0 <= k < |actions| ==> Step(worlds[k], actions[k]) == worlds[k + 1]
    ensures Run(worlds[0], actions) == worlds[|actions|]
    decreases |actions|
  {
    hide Step;
    if actions != [] {
      FollowSteps(worlds[1..], actions[1..]);
    }
  }

  /** The stale copy lacks what is recorded by now. */
  lemma CrashesDrained(w: World, t: World)
    requires Drained(w, t, 1) && w.resources != [] && !w.rowsDeleted
    requires 2 in w.attempts && w.attempts[2].pc == Waiting && w.attempts[2].found && w.attempts[2].op.completed == []
    ensures var free := Step(t, Crash(1));
            && Ledger(free) && free.gate.None? && !free.rowsDeleted
            && 2 in free.attempts && free.attempts[2].pc == Waiting && Misses(free, free.attempts[2])
  {
    hide Journalled, CopyFits, StrictlyRising;
    StepKeepsLedger(t, Crash(1));
    assert 2 in w.attempts - {1} && (w.attempts - {1})[2] == w.attempts[2];
    assert t.resources[0] in t.attempts[1].op.completed;
    assert t.resources[0] in Members(t.attempts[1].op.completed);
    assert Step(t, Crash(1)).resources[0] in Step(t, Crash(1)).recorded;
  }
}
