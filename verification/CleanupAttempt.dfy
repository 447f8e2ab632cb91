/** One attempt at a cleanup, as a service with the journal and the rows in its
    fields: the comparison of plan and inventory, and the steps behind it. */
module CleanupAttempt {
  import opened Wrappers
  import opened Cleanup
  import opened CleanupRuns

  // ---------------------------------------------------------------------
  // Comparing the plan with the inventory
  // ---------------------------------------------------------------------

  type Digest = int

  /** A resource with everything the store records of it. */
  datatype Resource = Resource(id: Id, recorded: Digest)

  /** What the store lists, or once listed when the plan was made: the digest of its
      database part, of all of it and of its revision; and whether something
      blocks a cleanup. */
  datatype Inventory = Inventory(database: Digest, manifest: Digest, revision: Digest, resources: seq<Resource>, blocked: bool)

  function Ids(resources: seq<Resource>): seq<Id> { seq(|resources|, i requires 0 <= i < |resources| => resources[i].id) }

  /** The resource is the last one of its identifier. */
  ghost predicate IsPlanned(resources: seq<Resource>, r: Resource) {
    exists k :: 0 <= k < |resources| && resources[k] == r && forall l :: k < l < |resources| ==> resources[l].id != r.id
  }

  ghost predicate IsListed(resources: seq<Resource>, id: Id) {
    exists k :: 0 <= k < |resources| && resources[k].id == id
  }

  /** Nothing has changed since the plan; once removals are recorded, nothing but
      the absence of the removed. */
  ghost predicate PlanMatches(plan: Inventory, current: Inventory, completed: seq<Id>) {
    && current.database == plan.database
    && if completed == [] then current.revision == plan.revision && current.manifest == plan.manifest
       else
         && (forall k :: 0 <= k < |current.resources| ==> IsPlanned(plan.resources, current.resources[k]))
         && (forall k :: 0 <= k < |plan.resources| ==>
               IsListed(current.resources, plan.resources[k].id) || ResourceCompleted(completed, plan.resources[k].id))
         && !current.blocked
  }

  /** The map holds the last resource of each identifier. */
  ghost predicate Plans(planned: map<Id, Resource>, resources: seq<Resource>) {
    forall r: Resource :: (r.id in planned && planned[r.id] == r) <==> IsPlanned(resources, r)
  }

  lemma PlansOneMore(planned: map<Id, Resource>, resources: seq<Resource>, last: Resource)
    requires Plans(planned, resources) && forall id :: id in planned ==> planned[id].id == id
    ensures Plans(planned[last.id := last], resources + [last])
  {
    var longer := resources + [last];
    forall r: Resource ensures (r.id in planned[last.id := last] && planned[last.id := last][r.id] == r) <==> IsPlanned(longer, r) {
      if r.id == last.id {
        if r == last {
          assert longer[|resources|] == r;
        }
        assert longer[|resources|].id == r.id;
      } else {
        KeepsPlanned(resources, last, r);
      }
    }
  }

  lemma KeepsPlanned(resources: seq<Resource>, last: Resource, r: Resource)
    requires r.id != last.id
    ensures IsPlanned(resources + [last], r) <==> IsPlanned(resources, r)
  {
    if IsPlanned(resources, r) {
      var k :| 0 <= k < |resources| && resources[k] == r && forall l :: k < l < |resources| ==> resources[l].id != r.id;
      assert (resources + [last])[k] == r;
    }
    if IsPlanned(resources + [last], r) {
      var k :| 0 <= k < |resources| + 1 && (resources + [last])[k] == r &&
               forall l :: k < l < |resources| + 1 ==> (resources + [last])[l].id != r.id;
      assert k < |resources| && resources[k] == r;
      forall l | k < l < |resources| ensures resources[l].id != r.id {
        assert (resources + [last])[l] == resources[l];
      }
    }
  }

  lemma NothingIsPlanned()
    ensures Plans(map[], [])
  {
  }

  method PlannedResources(resources: seq<Resource>) returns (planned: map<Id, Resource>)
    ensures Plans(planned, resources)
  {
    hide Plans;
    planned := map[];
    NothingIsPlanned();
    assert resources[..0] == [];
    for i := 0 to |resources|
      invariant Plans(planned, resources[..i])
      invariant forall id :: id in planned ==> planned[id].id == id
    {
      PlansOneMore(planned, resources[..i], resources[i]);
      assert resources[..i + 1] == resources[..i] + [resources[i]];
      planned := planned[resources[i].id := resources[i]];
    }
    assert resources[..|resources|] == resources;
  }

  method CleanupPlanMatches(plan: Inventory, current: Inventory, completed: seq<Id>) returns (matches: bool)
    ensures matches <==> PlanMatches(plan, current, completed)
  {
    hide IsPlanned, ResourceCompleted;
    if current.database != plan.database {
      return false;
    }
    if completed == [] {
      return current.revision == plan.revision && current.manifest == plan.manifest;
    }
    var planned := PlannedResources(plan.resources);
    var seen: set<Id> := {};
    for i := 0 to |current.resources|
      invariant forall k :: 0 <= k < i ==> IsPlanned(plan.resources, current.resources[k])
      invariant forall id :: id in seen <==> exists k :: 0 <= k < i && current.resources[k].id == id
    {
      var r := current.resources[i];
      if r.id !in planned || planned[r.id] != r {
        assert !IsPlanned(plan.resources, r);
        return false;
      }
      assert IsPlanned(plan.resources, r);
      seen := seen + {r.id};
    }
    for i := 0 to |plan.resources|
      invariant forall k :: 0 <= k < i ==>
                  IsListed(current.resources, plan.resources[k].id) || ResourceCompleted(completed, plan.resources[k].id)
    {
      if plan.resources[i].id !in seen && !ResourceCompleted(completed, plan.resources[i].id) {
        return false;
      }
    }
    return !current.blocked;
  }

  // ---------------------------------------------------------------------
  // One attempt
  // ---------------------------------------------------------------------

  /** What the looks at the inventory find before the gate and inside it. */
  datatype Checks = Checks(before: bool, inside: bool)

  /** The world after an attempt's load, its look at the inventory, its taking of the
      gate, and `steps` of its steps. */
  function Trace(w: World, id: nat, checks: Checks, answers: nat -> Answer, steps: nat): World {
    if steps == 0 then Step(Step(Step(w, Load(id)), Inspect(id, checks.before)), Acquire(id, checks.inside))
    else Step(Trace(w, id, checks, answers, steps - 1), Advance(id, answers(steps - 1)))
  }

  function AttemptActions(id: nat, checks: Checks, answers: nat -> Answer, steps: nat): seq<Action> {
    if steps == 0 then [Load(id), Inspect(id, checks.before)] + [Acquire(id, checks.inside)]
    else AttemptActions(id, checks, answers, steps - 1) + [Advance(id, answers(steps - 1))]
  }

  lemma {:induction false} TraceIsARun(w: World, id: nat, checks: Checks, answers: nat -> Answer, steps: nat)
    ensures Trace(w, id, checks, answers, steps) == Run(w, AttemptActions(id, checks, answers, steps))
  {
    hide Step;
    if steps == 0 {
      RunTwo(w, Load(id), Inspect(id, checks.before));
      RunConcat(w, [Load(id), Inspect(id, checks.before)], [Acquire(id, checks.inside)]);
      RunOne(Step(Step(w, Load(id)), Inspect(id, checks.before)), Acquire(id, checks.inside));
    } else {
      TraceIsARun(w, id, checks, answers, steps - 1);
      RunConcat(w, AttemptActions(id, checks, answers, steps - 1), [Advance(id, answers(steps - 1))]);
      RunOne(Trace(w, id, checks, answers, steps - 1), Advance(id, answers(steps - 1)));
    }
  }

  /** One step of the attempt that holds the gate. */
  lemma TraceNext(w: World, id: nat, checks: Checks, answers: nat -> Answer, steps: nat, now: World, a: Attempt)
    requires Trace(w, id, checks, answers, steps) == now && now.gate == Some(id)
    requires id in now.attempts && now.attempts[id] == a
    ensures Trace(w, id, checks, answers, steps + 1) == AdvanceStep(now, id, a, answers(steps))
  {
    hide AdvanceStep;
  }

  class CleanupService {
    const plan: Inventory
    var journal: Option<Operation>
    var rowsDeleted: bool
    ghost var removed: set<Id>
    ghost var recorded: set<Id>
    ghost var repeated: bool

    /** No attempt at work, or one that holds the gate. */
    ghost function View(at: Option<(nat, Attempt)>): World
      reads this
    {
      World(Ids(plan.resources), plan.blocked, journal, rowsDeleted, removed, if at.None? then map[] else map[at.value.0 := at.value.1],
            if at.None? then None else Some(at.value.0), recorded, repeated)
    }

    ghost predicate Finished()
      reads this`journal
    {
      journal.Some? && journal.value.phase == Complete
    }

    method SaveCleanupOperation(ghost id: nat, ghost a: Attempt, op: Operation, tx: TxAnswer, ghost next: Option<Pc>)
      returns (saved: bool)
      modifies this`journal, this`recorded
      ensures View(if saved && next.Some? then Some((id, Attempt(next.value, true, op))) else None) ==
              Save(old(View(Some((id, a)))), id, op, tx, next)
      ensures saved <==> tx == Committed && (old(journal).Some? ==> old(journal).value.id == op.id)
      ensures journal == Some(op) || (!saved && journal == old(journal))
    {
      if tx == Refused || (journal.Some? && journal.value.id != op.id) {
        return false;
      }
      journal := Some(op);
      recorded := recorded + Members(op.completed);
      return tx == Committed;
    }

    /** Removes what is not yet recorded, journalling after each removal. */
    method RemoveResources(ghost w: World, id: nat, ghost checks: Checks, answers: nat -> Answer, op: Operation, steps: nat)
      returns (done: bool, newOp: Operation, newSteps: nat)
      requires Trace(w, id, checks, answers, steps) == View(Some((id, Attempt(Removing(0), true, op))))
      modifies this
      ensures Trace(w, id, checks, answers, newSteps) ==
              View(if done then Some((id, Attempt(LeavingFilesystem, true, newOp))) else None)
      ensures op.phase != Complete && !old(Finished()) ==> newOp.phase != Complete && !Finished()
    {
      hide Trace, Save, Record, ResourceCompleted, AdvanceStep;
      newOp, newSteps := op, steps;
      var i := 0;
      while i < |plan.resources|
        invariant i <= |plan.resources|
        invariant Trace(w, id, checks, answers, newSteps) == View(Some((id, Attempt(Removing(i), true, newOp))))
        invariant op.phase != Complete && !old(Finished()) ==> newOp.phase != Complete && !Finished()
      {
        done, newOp, newSteps := RemoveOne(w, id, checks, answers, newOp, newSteps, i);
        if !done {
          return;
        }
        i := i + 1;
      }
      LeaveLoop(w, id, checks, answers, newSteps, View(Some((id, Attempt(Removing(i), true, newOp)))), Attempt(Removing(i), true, newOp));
      return true, newOp, newSteps + 1;
    }

    lemma LeaveLoop(w: World, id: nat, checks: Checks, answers: nat -> Answer, steps: nat, now: World, a: Attempt)
      requires Trace(w, id, checks, answers, steps) == now && now.gate == Some(id) && now.attempts == map[id := a]
      requires a.pc == Removing(|now.resources|)
      ensures Trace(w, id, checks, answers, steps + 1) == now.(attempts := map[id := a.(pc := LeavingFilesystem)])
    {
      hide Trace;
      TraceNext(w, id, checks, answers, steps, now, a);
    }

    method RemoveOne(ghost w: World, id: nat, ghost checks: Checks, answers: nat -> Answer, op: Operation, steps: nat, i: nat)
      returns (done: bool, newOp: Operation, newSteps: nat)
      requires i < |plan.resources|
      requires Trace(w, id, checks, answers, steps) == View(Some((id, Attempt(Removing(i), true, op))))
      modifies this
      ensures Trace(w, id, checks, answers, newSteps) ==
              View(if done then Some((id, Attempt(Removing(i + 1), true, newOp))) else None)
      ensures op.phase != Complete && !old(Finished()) ==> newOp.phase != Complete && !Finished()
    {
      hide Trace, Save, Saved, Saves, Members, Record, ResourceCompleted, StrictlyRising;
      ghost var a := Attempt(Removing(i), true, op);
      TraceNext(w, id, checks, answers, steps, View(Some((id, a))), a);
      newOp, newSteps := op, steps + 1;
      if ResourceCompleted(op.completed, plan.resources[i].id) {
        assert View(Some((id, a.(pc := Removing(i + 1))))) == Trace(w, id, checks, answers, newSteps);
        return true, newOp, newSteps;
      }
      repeated := repeated || plan.resources[i].id in recorded;
      if !answers(steps).ok {
        a := a.(pc := SavingRequired);
        assert View(Some((id, a))) == Trace(w, id, checks, answers, newSteps);
        newSteps := Required(w, id, checks, answers, newOp, newSteps);
        return false, newOp, newSteps;
      }
      removed := removed + {plan.resources[i].id};
      newOp := op.(completed := Record(op.completed, plan.resources[i].id));
      assert View(Some((id, Attempt(Recording(i), true, newOp)))) == Trace(w, id, checks, answers, newSteps);
      done, newSteps := RecordOne(w, id, checks, answers, newOp, newSteps, i);
    }

    /** Journals a removal. */
    method RecordOne(ghost w: World, id: nat, ghost checks: Checks, answers: nat -> Answer, op: Operation, steps: nat, ghost i: nat)
      returns (done: bool, newSteps: nat)
      requires Trace(w, id, checks, answers, steps) == View(Some((id, Attempt(Recording(i), true, op))))
      modifies this`journal, this`recorded
      ensures Trace(w, id, checks, answers, newSteps) ==
              View(if done then Some((id, Attempt(Removing(i + 1), true, op))) else None)
      ensures op.phase != Complete && !old(Finished()) ==> !Finished()
    {
      hide Trace, Save;
      ghost var a := Attempt(Recording(i), true, op);
      TraceNext(w, id, checks, answers, steps, View(Some((id, a))), a);
      done := SaveCleanupOperation(id, a, op, answers(steps).tx, Some(Removing(i + 1)));
      newSteps := steps + 1;
    }

    /** Journals that another cleanup is needed. */
    method Required(ghost w: World, id: nat, ghost checks: Checks, answers: nat -> Answer, op: Operation, steps: nat)
      returns (newSteps: nat)
      requires Trace(w, id, checks, answers, steps) == View(Some((id, Attempt(SavingRequired, true, op))))
      modifies this`journal, this`recorded
      ensures newSteps > steps && Trace(w, id, checks, answers, newSteps) == View(None)
      ensures !old(Finished()) ==> !Finished()
    {
      hide Trace, Save;
      ghost var a := Attempt(SavingRequired, true, op);
      TraceNext(w, id, checks, answers, steps, View(Some((id, a))), a);
      var _ := SaveCleanupOperation(id, a, op.(phase := CleanupRequired), answers(steps).tx, None);
      return steps + 1;
    }

    /** Deletes the rows and journals the rest of the phases. */
    method DeleteRows(ghost w: World, id: nat, ghost checks: Checks, answers: nat -> Answer, op: Operation, steps: nat)
      returns (completed: bool, newSteps: nat)
      requires Trace(w, id, checks, answers, steps) == View(Some((id, Attempt(Deleting, true, op))))
      modifies this
      ensures newSteps > steps
      ensures Trace(w, id, checks, answers, newSteps) == View(None)
      ensures completed ==> journal == Some(op.(phase := Complete)) && rowsDeleted
      ensures !old(Finished()) ==> (completed <==> Finished() && answers(newSteps - 1).tx == Committed)
    {
      hide Trace, Save;
      ghost var a := Attempt(Deleting, true, op);
      TraceNext(w, id, checks, answers, steps, View(Some((id, a))), a);
      newSteps := steps + 1;
      if !answers(steps).ok {
        rowsDeleted := rowsDeleted || answers(steps).tx == Unacknowledged;
        assert View(Some((id, a.(pc := SavingRequired)))) == Trace(w, id, checks, answers, newSteps);
        newSteps := Required(w, id, checks, answers, op, newSteps);
        return false, newSteps;
      }
      rowsDeleted := true;
      assert View(Some((id, a.(pc := SavingDatabaseRemoved)))) == Trace(w, id, checks, answers, newSteps);
      completed, newSteps := SavePhases(w, id, checks, answers, op, newSteps);
    }

    /** One save of the attempt. */
    method SavePhase(
      ghost w: World, ghost id: nat, ghost checks: Checks, answers: nat -> Answer, ghost a: Attempt, op: Operation,
      ghost next: Option<Pc>, steps: nat)
      returns (saved: bool)
      requires Trace(w, id, checks, answers, steps) == View(Some((id, a)))
      requires !Outside(a.pc) && !a.pc.Removing? && a.pc != Deleting && Saving(a) == (op, next)
      modifies this`journal, this`recorded
      ensures Trace(w, id, checks, answers, steps + 1) ==
              View(if saved && next.Some? then Some((id, Attempt(next.value, true, op))) else None)
      ensures saved <==> answers(steps).tx == Committed && (old(journal).Some? ==> old(journal).value.id == op.id)
      ensures journal == Some(op) || (!saved && journal == old(journal))
    {
      hide Trace, Save, AdvanceStep;
      TraceNext(w, id, checks, answers, steps, View(Some((id, a))), a);
      SavingIsASave(View(Some((id, a))), id, a, answers(steps));
      saved := SaveCleanupOperation(id, a, op, answers(steps).tx, next);
    }

    method SavePhases(ghost w: World, id: nat, ghost checks: Checks, answers: nat -> Answer, op: Operation, steps: nat)
      returns (completed: bool, newSteps: nat)
      requires Trace(w, id, checks, answers, steps) == View(Some((id, Attempt(SavingDatabaseRemoved, true, op))))
      modifies this`journal, this`recorded
      ensures newSteps > steps && Trace(w, id, checks, answers, newSteps) == View(None)
      ensures completed ==> journal == Some(op.(phase := Complete))
      ensures !old(Finished()) ==> (completed <==> Finished() && answers(newSteps - 1).tx == Committed)
    {
      hide Trace, View;
      ghost var a := Attempt(SavingDatabaseRemoved, true, op);
      newSteps := steps + 1;
      var saved := SavePhase(w, id, checks, answers, a, op.(phase := DatabaseRemoved), Some(SavingVerified), steps);
      if !saved {
        return false, newSteps;
      }
      a := Attempt(SavingVerified, true, op.(phase := DatabaseRemoved));
      saved := SavePhase(w, id, checks, answers, a, op.(phase := Verified), Some(SavingComplete), newSteps);
      newSteps := newSteps + 1;
      if !saved {
        return false, newSteps;
      }
      a := Attempt(SavingComplete, true, op.(phase := Verified));
      saved := SavePhase(w, id, checks, answers, a, op.(phase := Complete), None, newSteps);
      return saved, newSteps + 1;
    }

    /** Journals the quiesced phase, removes the resources and journals that. */
    method RemoveFilesystem(ghost w: World, id: nat, ghost checks: Checks, answers: nat -> Answer, op: Operation, steps: nat)
      returns (done: bool, newOp: Operation, newSteps: nat)
      requires Trace(w, id, checks, answers, steps) == View(Some((id, Attempt(Quiescing, true, op))))
      modifies this
      ensures Trace(w, id, checks, answers, newSteps) ==
              View(if done then Some((id, Attempt(Deleting, true, newOp))) else None)
      ensures !old(Finished()) ==> !Finished()
    {
      hide Trace, Save;
      ghost var a := Attempt(Quiescing, true, op);
      TraceNext(w, id, checks, answers, steps, View(Some((id, a))), a);
      newOp, newSteps := op.(phase := Quiesced), steps + 1;
      done := SaveCleanupOperation(id, a, newOp, answers(steps).tx, Some(Removing(0)));
      if !done {
        return;
      }
      done, newOp, newSteps := RemoveResources(w, id, checks, answers, newOp, newSteps);
      if !done {
        return;
      }
      a := Attempt(LeavingFilesystem, true, newOp);
      TraceNext(w, id, checks, answers, newSteps, View(Some((id, a))), a);
      newOp := newOp.(phase := FilesystemRemoved);
      done := SaveCleanupOperation(id, a, newOp, answers(newSteps).tx, Some(Deleting));
      newSteps := newSteps + 1;
    }

    /** What the two looks at the inventory find, for the copy that is loaded. */
    ghost function Looks(before: Option<Inventory>, inside: Option<Inventory>): Checks
      reads this
    {
      var completed := if journal.Some? then journal.value.completed else [];
      Checks(before.Some? && PlanMatches(plan, before.value, completed),
             inside.Some? && PlanMatches(plan, inside.value, completed))
    }

    /** Looks at the inventory; None is an error other than finding none. */
    method Check(current: Option<Inventory>, found: bool, op: Operation) returns (passes: bool)
      ensures passes <==> if rowsDeleted then found && DatabasePhase(op.phase)
                          else current.Some? && PlanMatches(plan, current.value, op.completed)
    {
      if rowsDeleted {
        return found && DatabasePhase(op.phase);
      }
      if current.None? {
        return false;
      }
      passes := CleanupPlanMatches(plan, current.value, op.completed);
    }

    /** Loads the operation or begins one, once the gate is held. */
    method Begin(ghost w: World, id: nat, before: Option<Inventory>, inside: Option<Inventory>, answers: nat -> Answer)
      returns (begun: bool, op: Operation, steps: nat)
      requires w == View(None)
      modifies this`journal, this`recorded
      ensures Trace(w, id, old(Looks(before, inside)), answers, steps) ==
              View(if begun then Some((id, Attempt(if DatabasePhase(op.phase) then Deleting else Quiescing, true, op))) else None)
      ensures old(Finished()) ==> !begun && journal == old(journal)
      ensures !old(Finished()) ==> !Finished()
    {
      hide Save, PlanMatches;
      ghost var checks := Looks(before, inside);
      op := if journal.Some? then journal.value else NOTHING;
      var found := journal.Some?;
      Opening(w, id, checks, answers);
      if (found && op.phase == Complete) || plan.blocked {
        return false, op, 0;
      }
      var passes := Check(before, found, op);
      if passes {
        passes := Check(inside, found, op);
      }
      if !passes {
        return false, op, 0;
      }
      if found {
        op := op.(attempt := op.attempt + 1);
        return true, op, 0;
      }
      op := Operation(id, Prepared, 1, []);
      ghost var a := Attempt(Preparing, false, op);
      assert View(Some((id, a))) == Trace(w, id, checks, answers, 0);
      TraceNext(w, id, checks, answers, 0, View(Some((id, a))), a);
      begun := SaveCleanupOperation(id, a, op, answers(0).tx, Some(Quiescing));
      return begun, op, 1;
    }

    /** An attempt alone enters the gate exactly when both its looks pass. */
    lemma Opening(w: World, id: nat, checks: Checks, answers: nat -> Answer)
      requires w.attempts == map[] && w.gate.None?
      ensures var a := Copied(w.journal);
              Trace(w, id, checks, answers, 0) ==
              if Completed(w) || w.blocked || !Passes(w, a, checks.before) || !Passes(w, a, checks.inside) then w
              else Goto(w.(gate := Some(id)), id, Entered(id, a.(pc := Waiting)))
    {
      hide AdvanceStep, Entered;
      var a := Copied(w.journal);
      assert Trace(w, id, checks, answers, 0) == Step(Step(Step(w, Load(id)), Inspect(id, checks.before)), Acquire(id, checks.inside));
      if !Completed(w) && !w.blocked {
        var loaded := w.(attempts := map[id := a]);
        assert Step(w, Load(id)) == loaded;
        assert loaded.attempts - {id} == map[];
        if Passes(w, a, checks.before) {
          assert Step(loaded, Inspect(id, checks.before)) == w.(attempts := map[id := a.(pc := Waiting)]);
        } else {
          assert Step(loaded, Inspect(id, checks.before)) == w;
        }
      }
    }

    /** One attempt, alone: it leaves the world as the machine's steps do, and reports
        success exactly if the cleanup was complete before, or is now and its last save
        was acknowledged. */
    method Execute(id: nat, before: Option<Inventory>, inside: Option<Inventory>, answers: nat -> Answer)
      returns (completed: bool, steps: nat)
      modifies this
      ensures View(None) == Run(old(View(None)), AttemptActions(id, old(Looks(before, inside)), answers, steps))
      ensures completed <==> old(Finished()) || (Finished() && steps > 0 && answers(steps - 1).tx == Committed)
      ensures completed && !old(Finished()) ==> rowsDeleted
    {
      hide Run, Trace, Looks;
      ghost var w := View(None);
      ghost var checks := Looks(before, inside);
      completed := journal.Some? && journal.value.phase == Complete;
      var begun, op;
      begun, op, steps := Begin(w, id, before, inside, answers);
      if begun && !DatabasePhase(op.phase) {
        begun, op, steps := RemoveFilesystem(w, id, checks, answers, op, steps);
      }
      if begun {
        completed, steps := DeleteRows(w, id, checks, answers, op, steps);
      }
      TraceIsARun(w, id, checks, answers, steps);
    }
  }
}
