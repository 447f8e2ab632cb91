/** What the journal of a thread says of the provider: what a conversation row and a
    turn state mean over every run, and what one call, left alone, journals. */
module ProviderOutcomes {
  import opened Wrappers
  import opened ProviderConversations

  /** What the provider answered and which writes of an outcome were committed.
      `begun` and `failed` hold the turns whose remote start was answered well or
      badly, `uncertain` and `certain` the calls whose remote effect was. */
  datatype History = History(
    obtained: nat, refused: nat, attached: nat, orphaned: nat,
    begun: set<nat>, failed: set<nat>, uncertain: set<nat>, certain: set<nat>)

  const UNTOLD := History(0, 0, 0, 0, {}, {}, {}, {})

  function NoteAnswer(h: History, id: nat, ok: bool): History {
    if ok then h.(certain := h.certain + {id}) else h.(uncertain := h.uncertain + {id})
  }

  function NoteAdvance(w: World, h: History, id: nat, c: Call, ok: bool, tx: TxAnswer): History {
    match c.pc
    case EnsureRemote => if ok then h.(obtained := h.obtained + 1) else h.(refused := h.refused + 1)
    case EnsureSaveAttached => if Commits(w, c, tx) then h.(attached := h.attached + 1) else h
    case EnsureSaveOrphan => if Commits(w, c, tx) then h.(orphaned := h.orphaned + 1) else h
    case TurnRemote(turn) =>
      if ok then h.(begun := h.begun + {turn}) else NoteAnswer(h.(failed := h.failed + {turn}), id, false)
    case SteerRemote(turn) => NoteAnswer(h, id, ok)
    case InterruptRemote(turn) => NoteAnswer(h, id, ok)
    case _ => h
  }

  /** What an action adds to the history; a call that begins has asked nothing yet. */
  function Note(w: World, h: History, a: Action): History {
    match a
    case Advance(id, ok, tx) => if id in w.calls then NoteAdvance(w, h, id, w.calls[id], ok, tx) else h
    case Begin(id, _, _, _) =>
      if id in w.calls then h else h.(uncertain := h.uncertain - {id}, certain := h.certain - {id})
    case _ => h
  }

  function Chronicle(w: World, h: History, actions: seq<Action>): History
    decreases |actions|
  {
    if actions == [] then h else Chronicle(Step(w, actions[0]), Note(w, h, actions[0]), actions[1..])
  }

  // ---------------------------------------------------------------------
  // What a conversation row means
  // ---------------------------------------------------------------------

  predicate Starting(pc: Pc) { pc == EnsureRemote || pc == EnsureSaveAttached || pc == EnsureSaveOrphan }

  /** A call that goes on to start a turn. */
  predicate Turning(pc: Pc) {
    || pc == TurnCheckActive || pc.TurnSavePrepared? || pc.TurnRemote? || pc.TurnSaveStarted? || pc.TurnSaveOrphan?
  }

  ghost predicate CallTells(w: World, h: History, id: nat, c: Call) {
    && (Starting(c.pc) ==> w.starter == Some(id) && h.orphaned == 0)
    && (c.pc == EnsureRemote ==> h.obtained + h.refused == 0 && h.attached == 0)
    && (c.pc == EnsureSaveAttached ==> h.obtained == 1 && h.attached == 0)
    && (c.pc == EnsureSaveOrphan ==> h.attached == 0 || c.guard < w.store.revision)
    && (Turning(c.pc) ==> h.attached == 1)
  }

  ghost predicate RowTells(w: World, h: History) {
    && h.obtained + h.refused <= 1 && h.attached + h.orphaned <= 1 && h.attached <= h.obtained
    && (w.store.row.Some? <==> w.starter.Some?)
    && (w.starter.None? ==> h.obtained + h.refused == 0 && h.orphaned == 0)
    && (w.store.row == Some(Attached) <==> h.attached == 1)
    && (w.store.threadAttached <==> h.attached == 1)
    && (w.store.row == Some(PossibleOrphan) <==> h.orphaned == 1)
    && (w.remoteTurns != [] ==> h.attached == 1)
  }

  ghost predicate Told(w: World, h: History) {
    RowTells(w, h) && forall id :: id in w.calls ==> CallTells(w, h, id, w.calls[id])
  }

  /** The step of one call, with what it leaves of the others. */
  lemma TellsAfter(w: World, h: History, t: World, k: History, id: nat)
    requires Told(w, h) && OthersStay(w, t, id) && RowTells(t, k)
    requires id in t.calls ==> CallTells(t, k, id, t.calls[id])
    requires forall other, c :: other != id && other in w.calls && w.calls[other] == c && CallTells(w, h, other, c) ==> CallTells(t, k, other, c)
    ensures Told(t, k)
  {
    hide RowTells, CallTells;
  }

  lemma SaveRowTells(w: World, h: History, id: nat, c: Call, ok: bool, tx: TxAnswer)
    requires Told(w, h) && Fenced(w) && id in w.calls && w.calls[id] == c && c.pc == EnsureSaveRow
    ensures Told(EnsureStep(w, id, c, ok, tx), h)
  {
    hide OneActive, Closing, Write;
    WriteLeavesOthers(w, id, c, w.store.(row := Some(Creating)), tx, Some(EnsureRemote), None);
    TellsAfter(w, h, EnsureStep(w, id, c, ok, tx), h, id);
  }

  lemma RemoteTells(w: World, h: History, id: nat, c: Call, ok: bool, tx: TxAnswer)
    requires Told(w, h) && Fenced(w) && id in w.calls && w.calls[id] == c && c.pc == EnsureRemote
    ensures Told(EnsureStep(w, id, c, ok, tx), NoteAdvance(w, h, id, c, ok, tx))
  {
    hide OneActive, Closing;
    TellsAfter(w, h, EnsureStep(w, id, c, ok, tx), NoteAdvance(w, h, id, c, ok, tx), id);
  }

  lemma SaveAttachedTells(w: World, h: History, id: nat, c: Call, ok: bool, tx: TxAnswer)
    requires Told(w, h) && Fenced(w) && id in w.calls && w.calls[id] == c && c.pc == EnsureSaveAttached
    ensures Told(EnsureStep(w, id, c, ok, tx), NoteAdvance(w, h, id, c, ok, tx))
  {
    hide OneActive, Closing, Known;
    WriteLeavesOthers(w, id, c, w.store.(row := Some(Attached), threadAttached := true), tx, None, Some(EnsureSaveOrphan));
    TellsAfter(w, h, EnsureStep(w, id, c, ok, tx), NoteAdvance(w, h, id, c, ok, tx), id);
  }

  lemma SaveOrphanTells(w: World, h: History, id: nat, c: Call, ok: bool, tx: TxAnswer)
    requires Told(w, h) && Fenced(w) && id in w.calls && w.calls[id] == c && c.pc == EnsureSaveOrphan
    ensures Told(EnsureStep(w, id, c, ok, tx), NoteAdvance(w, h, id, c, ok, tx))
  {
    hide OneActive, Closing, Known, Write;
    WriteLeavesOthers(w, id, c, w.store.(row := Some(PossibleOrphan)), tx, None, None);
    TellsAfter(w, h, EnsureStep(w, id, c, ok, tx), NoteAdvance(w, h, id, c, ok, tx), id);
  }

  /** Steps that touch neither the row nor its call. */
  ghost predicate LeavesRow(w: World, t: World, id: nat) {
    && OthersStay(w, t, id) && t.starter == w.starter && w.store.revision <= t.store.revision
    && t.store.row == w.store.row && t.store.threadAttached == w.store.threadAttached
    && (id in t.calls ==> !Starting(t.calls[id].pc))
    && (id in t.calls && Turning(t.calls[id].pc) ==>
          w.store.row == Some(Attached) || (id in w.calls && Turning(w.calls[id].pc)))
    && (t.remoteTurns == w.remoteTurns || (id in w.calls && Turning(w.calls[id].pc)))
  }

  predicate SameRowHistory(h: History, k: History) {
    k == h.(begun := k.begun, failed := k.failed, uncertain := k.uncertain, certain := k.certain)
  }

  lemma LeavingTells(w: World, h: History, t: World, k: History, id: nat)
    requires Told(w, h) && LeavesRow(w, t, id) && SameRowHistory(h, k)
    ensures Told(t, k)
  {
    TellsAfter(w, h, t, k, id);
  }

  lemma ReadsLeaveRow(w: World, id: nat, c: Call, ok: bool, tx: TxAnswer)
    requires id in w.calls && w.calls[id] == c && (c.pc == EnsureReadThread || c.pc == EnsureReadRow || c.pc == EnsureClaim)
    ensures LeavesRow(w, EnsureStep(w, id, c, ok, tx), id)
  {
  }

  lemma TurnLeavesRow(w: World, id: nat, c: Call, ok: bool, tx: TxAnswer)
    requires id in w.calls && w.calls[id] == c && !Starting(c.pc)
    ensures LeavesRow(w, TurnStep(w, id, c, ok, tx), id)
  {
    hide AnyActive;
  }

  lemma SteerLeavesRow(w: World, id: nat, c: Call, ok: bool, tx: TxAnswer)
    requires id in w.calls && w.calls[id] == c && !Starting(c.pc)
    ensures LeavesRow(w, SteerStep(w, id, c, ok, tx), id)
  {
    hide ReadyTurn;
  }

  lemma CloseLeavesRow(w: World, id: nat, c: Call, ok: bool, tx: TxAnswer)
    requires id in w.calls && w.calls[id] == c && !Starting(c.pc)
    ensures LeavesRow(w, CloseTurnStep(w, id, c, ok, tx), id)
  {
    hide ReadyTurn, InterruptAll;
  }

  lemma AdvanceTells(w: World, h: History, id: nat, ok: bool, tx: TxAnswer)
    requires Told(w, h) && Fenced(w) && id in w.calls
    ensures Told(AdvanceStep(w, id, w.calls[id], ok, tx), NoteAdvance(w, h, id, w.calls[id], ok, tx))
  {
    hide Told, Fenced, EnsureStep, TurnStep, SteerStep, CloseTurnStep, LeavesRow;
    var c := w.calls[id];
    var k := NoteAdvance(w, h, id, c, ok, tx);
    match c.pc
    case EnsureSaveRow => SaveRowTells(w, h, id, c, ok, tx);
    case EnsureRemote => RemoteTells(w, h, id, c, ok, tx);
    case EnsureSaveAttached => SaveAttachedTells(w, h, id, c, ok, tx);
    case EnsureSaveOrphan => SaveOrphanTells(w, h, id, c, ok, tx);
    case EnsureReadThread | EnsureReadRow | EnsureClaim =>
      ReadsLeaveRow(w, id, c, ok, tx);
      LeavingTells(w, h, EnsureStep(w, id, c, ok, tx), k, id);
    case _ =>
      TurnLeavesRow(w, id, c, ok, tx);
      LeavingTells(w, h, TurnStep(w, id, c, ok, tx), k, id);
      SteerLeavesRow(w, id, c, ok, tx);
      LeavingTells(w, h, SteerStep(w, id, c, ok, tx), k, id);
      CloseLeavesRow(w, id, c, ok, tx);
      LeavingTells(w, h, CloseTurnStep(w, id, c, ok, tx), k, id);
  }

  lemma OtherActionsTell(w: World, h: History, a: Action)
    requires Told(w, h) && !a.Advance?
    ensures Told(Step(w, a), Note(w, h, a))
  {
    hide AdvanceStep;
  }

  lemma StepTells(w: World, h: History, a: Action)
    requires Told(w, h) && Fenced(w)
    ensures Told(Step(w, a), Note(w, h, a))
  {
    hide Told, Fenced, AdvanceStep, NoteAdvance;
    if !a.Advance? {
      OtherActionsTell(w, h, a);
    } else if a.id in w.calls {
      AdvanceTells(w, h, a.id, a.ok, a.tx);
    }
  }

  // ---------------------------------------------------------------------
  // What a turn state means
  // ---------------------------------------------------------------------

  /** A row that refers to a remote turn, or says anything of one beyond its
      preparation, is of a turn that began; one of a turn whose start failed says
      nothing of the kind. */
  ghost predicate TurnTells(turn: nat, t: Turn, h: History) {
    && (t.hasRef ==> turn in h.begun)
    && (t.state == Started || t.state == Steering || t.state == Unknown || t.state == Completed || t.state == Failed ==> t.hasRef)
    && (t.state == TurnOrphan ==> turn in h.begun || turn in h.failed)
  }

  ghost predicate TurnsTell(turns: map<nat, Turn>, h: History) {
    forall turn :: turn in turns ==> TurnTells(turn, turns[turn], h)
  }

  /** The begun turn a call works on. */
  function Working(pc: Pc): Option<nat> {
    match pc
    case TurnSaveStarted(turn) => Some(turn)
    case SteerSave(turn) => Some(turn)
    case SteerRemote(turn) => Some(turn)
    case SteerSaveStarted(turn) => Some(turn)
    case SteerSaveUnknown(turn) => Some(turn)
    case InterruptRemote(turn) => Some(turn)
    case InterruptSave(turn, _) => Some(turn)
    case CompleteSave(turn, _) => Some(turn)
    case _ => None
  }

  ghost predicate WorkTells(c: Call, h: History) {
    && (Working(c.pc).Some? ==> Working(c.pc).value in h.begun)
    && (c.pc.TurnSaveOrphan? ==> if c.pc.hasRef then c.pc.turn in h.begun else c.pc.turn in h.failed)
    && (c.pc.RestoreSave? ==> TurnsTell(c.pc.listed, h))
  }

  predicate Uncertain(pc: Pc) {
    (pc.TurnSaveOrphan? && !pc.hasRef) || pc.SteerSaveUnknown? || (pc.InterruptSave? && pc.state == Unknown)
  }

  predicate Certain(pc: Pc) { pc.SteerSaveStarted? || (pc.InterruptSave? && pc.state == Interrupted) }

  /** What the answers to a call say of where it stands. */
  ghost predicate AnswersTell(id: nat, c: Call, h: History) {
    (id in h.uncertain ==> Uncertain(c.pc)) && (id in h.certain ==> Certain(c.pc))
  }

  ghost predicate Spoken(w: World, h: History) {
    && TurnsTell(w.store.turns, h)
    && h.begun !! h.failed && (forall turn :: turn in h.begun || turn in h.failed <==> turn in w.remoteTurns)
    && (forall id :: id in w.calls ==> WorkTells(w.calls[id], h) && AnswersTell(id, w.calls[id], h))
  }

  /** The history only grows in what turns it knows. */
  lemma MoreIsKnown(h: History, k: History)
    requires h.begun <= k.begun && h.failed <= k.failed
    ensures forall turns :: TurnsTell(turns, h) ==> TurnsTell(turns, k)
    ensures forall c :: WorkTells(c, h) ==> WorkTells(c, k)
  {
  }

  lemma SpokenAfter(w: World, h: History, t: World, k: History, id: nat)
    requires Spoken(w, h) && OthersStay(w, t, id) && h.begun <= k.begun && h.failed <= k.failed
    requires forall other :: other != id ==> (other in k.uncertain <==> other in h.uncertain) && (other in k.certain <==> other in h.certain)
    requires TurnsTell(t.store.turns, k) && k.begun !! k.failed
    requires forall turn :: turn in k.begun || turn in k.failed <==> turn in t.remoteTurns
    requires id in t.calls ==> WorkTells(t.calls[id], k) && AnswersTell(id, t.calls[id], k)
    ensures Spoken(t, k)
  {
    hide TurnsTell, Uncertain, Certain, WorkTells;
    MoreIsKnown(h, k);
    forall other | other in t.calls ensures WorkTells(t.calls[other], k) && AnswersTell(other, t.calls[other], k) {
      assert other != id ==> other in w.calls && t.calls[other] == w.calls[other];
    }
  }

  lemma PutTells(s: Store, turn: nat, state: TurnState, hasRef: bool, h: History)
    requires TurnsTell(s.turns, h) && TurnTells(turn, Turn(state, hasRef), h)
    ensures TurnsTell(PutTurn(s, turn, state, hasRef).turns, h)
  {
  }

  /** A write of turns that tell the truth. */
  lemma WriteSpeaks(w: World, h: History, id: nat, c: Call, store: Store, tx: TxAnswer, next: Option<Pc>, failed: Option<Pc>)
    requires Spoken(w, h) && id in w.calls && w.calls[id] == c && TurnsTell(store.turns, h)
    requires next.Some? ==> WorkTells(c.(pc := next.value), h) && AnswersTell(id, c.(pc := next.value), h)
    requires failed.Some? ==> WorkTells(c.(pc := failed.value), h) && AnswersTell(id, c.(pc := failed.value), h)
    ensures Spoken(Write(w, id, c, store, tx, next, failed), h)
  {
    hide Write, TurnsTell, Uncertain, Certain;
    WriteLeavesOthers(w, id, c, store, tx, next, failed);
    SpokenAfter(w, h, Write(w, id, c, store, tx, next, failed), h, id);
  }

  lemma MovesSpeak(w: World, h: History, id: nat, c: Call, pc: Pc)
    requires Spoken(w, h) && id in w.calls && w.calls[id] == c
    requires WorkTells(c.(pc := pc), h) && AnswersTell(id, c.(pc := pc), h)
    ensures Spoken(Goto(w, id, c, pc), h)
    ensures Spoken(End(w, id), h)
  {
    hide TurnsTell, WorkTells, AnswersTell;
    SpokenAfter(w, h, Goto(w, id, c, pc), h, id);
    EndSpeaks(w, h, id);
  }

  lemma EndSpeaks(w: World, h: History, id: nat)
    requires Spoken(w, h)
    ensures Spoken(End(w, id), h)
  {
    hide TurnsTell, WorkTells, AnswersTell;
    SpokenAfter(w, h, End(w, id), h, id);
  }

  /** Starting a conversation leaves the turns alone. */
  lemma EnsuringLeavesTurns(w: World, id: nat, c: Call, ok: bool, tx: TxAnswer)
    requires id in w.calls && w.calls[id] == c && Ensuring(c.pc)
    ensures var t := EnsureStep(w, id, c, ok, tx);
            && OthersStay(w, t, id) && t.store.turns == w.store.turns && t.remoteTurns == w.remoteTurns
            && (id in t.calls ==> Ensuring(t.calls[id].pc))
  {
    hide Write, Commits;
    match c.pc
    case EnsureSaveRow => WriteLeavesOthers(w, id, c, w.store.(row := Some(Creating)), tx, Some(EnsureRemote), None);
    case EnsureSaveAttached =>
      WriteLeavesOthers(w, id, c, w.store.(row := Some(Attached), threadAttached := true), tx, None, Some(EnsureSaveOrphan));
    case EnsureSaveOrphan => WriteLeavesOthers(w, id, c, w.store.(row := Some(PossibleOrphan)), tx, None, None);
    case _ =>
  }

  lemma EnsureSpeaks(w: World, h: History, id: nat, c: Call, ok: bool, tx: TxAnswer)
    requires Spoken(w, h) && id in w.calls && w.calls[id] == c && Ensuring(c.pc)
    ensures Spoken(EnsureStep(w, id, c, ok, tx), NoteAdvance(w, h, id, c, ok, tx))
  {
    hide TurnsTell, EnsureStep;
    EnsuringLeavesTurns(w, id, c, ok, tx);
    MoreIsKnown(h, NoteAdvance(w, h, id, c, ok, tx));
    SpokenAfter(w, h, EnsureStep(w, id, c, ok, tx), NoteAdvance(w, h, id, c, ok, tx), id);
  }

  lemma TurnRemoteSpeaks(w: World, h: History, id: nat, c: Call, ok: bool, tx: TxAnswer)
    requires Spoken(w, h) && TurnsOnce(w) && id in w.calls && w.calls[id] == c && c.pc.TurnRemote?
    ensures Spoken(TurnStep(w, id, c, ok, tx), NoteAdvance(w, h, id, c, ok, tx))
  {
    hide TurnsTell;
    var k := NoteAdvance(w, h, id, c, ok, tx);
    MoreIsKnown(h, k);
    assert Pending(c.pc) == Some(c.pc.turn);
    SpokenAfter(w, h, TurnStep(w, id, c, ok, tx), k, id);
  }

  lemma TurnSpeaks(w: World, h: History, id: nat, c: Call, ok: bool, tx: TxAnswer)
    requires Spoken(w, h) && TurnsOnce(w) && id in w.calls && w.calls[id] == c
    requires c.pc == TurnReadConversation || c.pc == TurnCheckActive || c.pc.TurnSavePrepared? || c.pc.TurnRemote? ||
             c.pc.TurnSaveStarted? || c.pc.TurnSaveOrphan?
    ensures Spoken(TurnStep(w, id, c, ok, tx), NoteAdvance(w, h, id, c, ok, tx))
  {
    hide TurnsTell, Write, TurnsOnce, AnyActive;
    match c.pc
    case TurnReadConversation => MovesSpeak(w, h, id, c, TurnCheckActive);
    case TurnCheckActive =>
      EndSpeaks(w, h, id);
      SpokenAfter(w, h, TurnStep(w, id, c, ok, tx), h, id);
    case TurnSavePrepared(turn) =>
      PutTells(w.store, turn, Prepared, false, h);
      WriteSpeaks(w, h, id, c, PutTurn(w.store, turn, Prepared, false), tx, Some(TurnRemote(turn)), None);
    case TurnSaveStarted(turn) =>
      PutTells(w.store, turn, Started, true, h);
      WriteSpeaks(w, h, id, c, PutTurn(w.store, turn, Started, true), tx, None, Some(TurnSaveOrphan(turn, true)));
    case TurnSaveOrphan(turn, hasRef) =>
      PutTells(w.store, turn, TurnOrphan, hasRef, h);
      WriteSpeaks(w, h, id, c, PutTurn(w.store, turn, TurnOrphan, hasRef), tx, None, None);
    case _ => TurnRemoteSpeaks(w, h, id, c, ok, tx);
  }

  lemma ReadyTurnsHaveBegun(w: World, h: History, turn: nat)
    requires Spoken(w, h) && ReadyTurn(w.store, turn)
    ensures turn in h.begun
  {
  }

  /** An answered effect on a begun turn. */
  lemma AnsweredSpeaks(w: World, h: History, id: nat, c: Call, ok: bool, pc: Pc)
    requires Spoken(w, h) && id in w.calls && w.calls[id] == c
    requires Working(pc) == Working(c.pc) && Working(c.pc).Some? && (if ok then Certain(pc) else Uncertain(pc))
    requires id !in h.uncertain && id !in h.certain
    ensures Spoken(Goto(w, id, c, pc), NoteAnswer(h, id, ok))
  {
    hide TurnsTell;
    var k := NoteAnswer(h, id, ok);
    MoreIsKnown(h, k);
    SpokenAfter(w, h, Goto(w, id, c, pc), k, id);
  }

  lemma SteerSpeaks(w: World, h: History, id: nat, c: Call, ok: bool, tx: TxAnswer)
    requires Spoken(w, h) && id in w.calls && w.calls[id] == c
    requires c.pc.SteerRead? || c.pc.SteerSave? || c.pc.SteerRemote? || c.pc.SteerSaveStarted? || c.pc.SteerSaveUnknown?
    ensures Spoken(SteerStep(w, id, c, ok, tx), NoteAdvance(w, h, id, c, ok, tx))
  {
    hide TurnsTell, Write, ReadyTurn;
    EndSpeaks(w, h, id);
    match c.pc
    case SteerRead(turn) =>
      if ReadyTurn(w.store, turn) {
        ReadyTurnsHaveBegun(w, h, turn);
        MovesSpeak(w, h, id, c, SteerSave(turn));
      }
    case SteerSave(turn) =>
      PutTells(w.store, turn, Steering, true, h);
      WriteSpeaks(w, h, id, c, PutTurn(w.store, turn, Steering, true), tx, Some(SteerRemote(turn)), None);
    case SteerRemote(turn) => AnsweredSpeaks(w, h, id, c, ok, if ok then SteerSaveStarted(turn) else SteerSaveUnknown(turn));
    case SteerSaveStarted(turn) =>
      PutTells(w.store, turn, Started, true, h);
      WriteSpeaks(w, h, id, c, PutTurn(w.store, turn, Started, true), tx, None, None);
    case SteerSaveUnknown(turn) =>
      PutTells(w.store, turn, Unknown, true, h);
      WriteSpeaks(w, h, id, c, PutTurn(w.store, turn, Unknown, true), tx, None, None);
  }

  lemma RestoringTells(turns: map<nat, Turn>, listed: map<nat, Turn>, h: History)
    requires TurnsTell(turns, h) && TurnsTell(listed, h)
    ensures TurnsTell(InterruptAll(turns, listed), h)
  {
  }

  lemma CloseSpeaks(w: World, h: History, id: nat, c: Call, ok: bool, tx: TxAnswer)
    requires Spoken(w, h) && id in w.calls && w.calls[id] == c
    requires c.pc.InterruptRead? || c.pc.InterruptRemote? || c.pc.InterruptSave? || c.pc.CompleteRead? || c.pc.CompleteSave? ||
             c.pc == RestoreRead || c.pc.RestoreSave?
    ensures Spoken(CloseTurnStep(w, id, c, ok, tx), NoteAdvance(w, h, id, c, ok, tx))
  {
    hide TurnsTell, Write, ReadyTurn, InterruptAll;
    EndSpeaks(w, h, id);
    match c.pc
    case InterruptRead(turn) =>
      if ReadyTurn(w.store, turn) {
        ReadyTurnsHaveBegun(w, h, turn);
        MovesSpeak(w, h, id, c, InterruptRemote(turn));
      }
    case InterruptRemote(turn) => AnsweredSpeaks(w, h, id, c, ok, InterruptSave(turn, if ok then Interrupted else Unknown));
    case InterruptSave(turn, state) =>
      PutTells(w.store, turn, state, true, h);
      WriteSpeaks(w, h, id, c, PutTurn(w.store, turn, state, true), tx, None, None);
    case CompleteRead(turn, state) =>
      if ReadyTurn(w.store, turn) {
        ReadyTurnsHaveBegun(w, h, turn);
        MovesSpeak(w, h, id, c, CompleteSave(turn, state));
      }
    case CompleteSave(turn, state) =>
      PutTells(w.store, turn, state, true, h);
      WriteSpeaks(w, h, id, c, PutTurn(w.store, turn, state, true), tx, None, None);
    case RestoreRead => MovesSpeak(w, h, id, c, RestoreSave(w.store.turns));
    case RestoreSave(listed) =>
      RestoringTells(w.store.turns, listed, h);
      WriteSpeaks(w, h, id, c, w.store.(turns := InterruptAll(w.store.turns, listed)), tx, None, None);
  }

  lemma AdvanceSpeaks(w: World, h: History, id: nat, ok: bool, tx: TxAnswer)
    requires Spoken(w, h) && TurnsOnce(w) && id in w.calls
    ensures Spoken(AdvanceStep(w, id, w.calls[id], ok, tx), NoteAdvance(w, h, id, w.calls[id], ok, tx))
  {
    hide Spoken, TurnsOnce, EnsureStep, TurnStep, SteerStep, CloseTurnStep, NoteAdvance;
    var c := w.calls[id];
    match c.pc
    case EnsureReadThread | EnsureReadRow | EnsureClaim | EnsureSaveRow | EnsureRemote | EnsureSaveAttached | EnsureSaveOrphan =>
      EnsureSpeaks(w, h, id, c, ok, tx);
    case TurnReadConversation | TurnCheckActive | TurnSavePrepared(_) | TurnRemote(_) | TurnSaveStarted(_) | TurnSaveOrphan(_, _) =>
      TurnSpeaks(w, h, id, c, ok, tx);
    case SteerRead(_) | SteerSave(_) | SteerRemote(_) | SteerSaveStarted(_) | SteerSaveUnknown(_) =>
      SteerSpeaks(w, h, id, c, ok, tx);
    case _ => CloseSpeaks(w, h, id, c, ok, tx);
  }

  lemma OtherActionsSpeak(w: World, h: History, a: Action)
    requires Spoken(w, h) && !a.Advance?
    ensures Spoken(Step(w, a), Note(w, h, a))
  {
    hide AdvanceStep, TurnsTell;
    MoreIsKnown(h, Note(w, h, a));
  }

  lemma StepSpeaks(w: World, h: History, a: Action)
    requires Spoken(w, h) && TurnsOnce(w)
    ensures Spoken(Step(w, a), Note(w, h, a))
  {
    hide Spoken, TurnsOnce, AdvanceStep, NoteAdvance;
    if !a.Advance? {
      OtherActionsSpeak(w, h, a);
    } else if a.id in w.calls {
      AdvanceSpeaks(w, h, a.id, a.ok, a.tx);
    }
  }

  // ---------------------------------------------------------------------
  // Whole runs
  // ---------------------------------------------------------------------

  lemma {:induction false} RunTells(w: World, h: History, actions: seq<Action>)
    requires Fenced(w) && OneConversation(w) && TurnsOnce(w) && Told(w, h) && Spoken(w, h)
    ensures Told(Run(w, actions), Chronicle(w, h, actions)) && Spoken(Run(w, actions), Chronicle(w, h, actions))
    decreases |actions|
  {
    hide Fenced, OneConversation, TurnsOnce, Told, Spoken, Step, Note;
    if actions != [] {
      StepKeepsFenced(w, actions[0]);
      StepKeepsOneConversation(w, actions[0]);
      StepKeepsTurnsOnce(w, actions[0]);
      StepTells(w, h, actions[0]);
      StepSpeaks(w, h, actions[0]);
      RunTells(Step(w, actions[0]), Note(w, h, actions[0]), actions[1..]);
    }
  }

  lemma InitialTells(w: World)
    requires Initial(w)
    ensures Told(w, UNTOLD) && Spoken(w, UNTOLD)
  {
  }

  /** Over every interleaving: the conversation is journalled as attached, and the
      thread with it, exactly if its attachment was committed, which happens only
      after the one remote start was answered well; as a possible orphan exactly if
      that was committed, and never both. After a start that was answered badly it
      is never attached, and no turn is ever started remotely before it is. */
  lemma AttachedMeansObtained(w: World, actions: seq<Action>)
    requires Initial(w)
    ensures var end, h := Run(w, actions), Chronicle(w, UNTOLD, actions);
            && (end.store.row == Some(Attached) <==> h.attached == 1)
            && (end.store.threadAttached <==> end.store.row == Some(Attached))
            && (end.store.row == Some(PossibleOrphan) <==> h.orphaned == 1)
            && (end.store.row == Some(Attached) ==> h.obtained == 1 && h.refused == 0)
            && h.obtained + h.refused <= 1 && h.attached + h.orphaned <= 1
            && (h.refused > 0 ==> end.store.row != Some(Attached))
            && (end.remoteTurns != [] ==> end.store.row == Some(Attached))
  {
    hide Run, Chronicle, Spoken, Fenced, OneConversation, TurnsOnce;
    InitialIsSound(w);
    InitialTells(w);
    RunTells(w, UNTOLD, actions);
  }

  /** And of turns: one that refers to a remote turn, or is started, steered,
      unknown, completed or failed, was answered well when it was started; one that
      was answered badly stays prepared, or becomes an orphan or, at a restart,
      interrupted, and refers to nothing. */
  lemma TurnsSayWhatHappened(w: World, actions: seq<Action>, turn: nat)
    requires Initial(w) && turn in Run(w, actions).store.turns
    ensures var t, h := Run(w, actions).store.turns[turn], Chronicle(w, UNTOLD, actions);
            && (t.hasRef ==> turn in h.begun)
            && (t.state == Started || t.state == Steering || t.state == Unknown || t.state == Completed || t.state == Failed ==>
                  t.hasRef && turn in h.begun)
            && (turn in h.failed ==> !t.hasRef && (t.state == Prepared || t.state == TurnOrphan || t.state == Interrupted))
            && (turn in h.begun || turn in h.failed <==> turn in Run(w, actions).remoteTurns)
  {
    hide Run, Chronicle, Told, Fenced, OneConversation, TurnsOnce, WorkTells, AnswersTell;
    InitialIsSound(w);
    InitialTells(w);
    RunTells(w, UNTOLD, actions);
  }

  /** The turn rows a step changes. */
  predicate Changes(s: Store, t: Store, turn: nat) { turn in t.turns && (turn in s.turns ==> t.turns[turn] != s.turns[turn]) }

  /** A call whose remote effect was answered badly writes nothing but that: the turn
      is unknown or an orphan. One whose steering or cancellation was answered well
      writes just what was asked for. */
  lemma CallsJournalTheirAnswers(w: World, actions: seq<Action>, id: nat, ok: bool, tx: TxAnswer, turn: nat)
    requires Initial(w) && Changes(Run(w, actions).store, Step(Run(w, actions), Advance(id, ok, tx)).store, turn)
    ensures var state, h := Step(Run(w, actions), Advance(id, ok, tx)).store.turns[turn].state, Chronicle(w, UNTOLD, actions);
            && (id in h.uncertain ==> state == Unknown || state == TurnOrphan)
            && (id in h.certain ==> state == Started || state == Interrupted)
  {
    hide Run, Chronicle, Told, Fenced, OneConversation, TurnsOnce, WorkTells, TurnsTell, Step;
    InitialIsSound(w);
    InitialTells(w);
    RunTells(w, UNTOLD, actions);
    var end, h := Run(w, actions), Chronicle(w, UNTOLD, actions);
    AnsweredCallsWrite(end, h, id, ok, tx, turn);
  }

  lemma AnsweredCallsWrite(w: World, h: History, id: nat, ok: bool, tx: TxAnswer, turn: nat)
    requires Spoken(w, h) && Changes(w.store, Step(w, Advance(id, ok, tx)).store, turn)
    ensures var state := Step(w, Advance(id, ok, tx)).store.turns[turn].state;
            && (id in h.uncertain ==> state == Unknown || state == TurnOrphan)
            && (id in h.certain ==> state == Started || state == Interrupted)
  {
    hide TurnsTell, WorkTells, EnsureStep, TurnStep, SteerStep, CloseTurnStep;
    if id in w.calls && (id in h.uncertain || id in h.certain) {
      var c := w.calls[id];
      assert AnswersTell(id, c, h);
      OutcomeWrites(w, id, c, ok, tx, turn);
    }
  }

  lemma PutChangesOne(w: World, id: nat, c: Call, turn: nat, state: TurnState, hasRef: bool, tx: TxAnswer, failed: Option<Pc>, other: nat)
    requires Changes(w.store, Write(w, id, c, PutTurn(w.store, turn, state, hasRef), tx, None, failed).store, other)
    ensures Write(w, id, c, PutTurn(w.store, turn, state, hasRef), tx, None, failed).store.turns[other].state == state
  {
  }

  /** A write of an outcome changes its turn only, and to that outcome. */
  lemma OutcomeWrites(w: World, id: nat, c: Call, ok: bool, tx: TxAnswer, turn: nat)
    requires id in w.calls && w.calls[id] == c && (Uncertain(c.pc) || Certain(c.pc))
    requires Changes(w.store, AdvanceStep(w, id, c, ok, tx).store, turn)
    ensures var state := AdvanceStep(w, id, c, ok, tx).store.turns[turn].state;
            if Uncertain(c.pc) then state == Unknown || state == TurnOrphan else state == Started || state == Interrupted
  {
    hide EnsureStep, ReadyTurn, InterruptAll, AnyActive, Write, Changes;
    match c.pc
    case TurnSaveOrphan(t, hasRef) => PutChangesOne(w, id, c, t, TurnOrphan, hasRef, tx, None, turn);
    case SteerSaveUnknown(t) => PutChangesOne(w, id, c, t, Unknown, true, tx, None, turn);
    case SteerSaveStarted(t) => PutChangesOne(w, id, c, t, Started, true, tx, None, turn);
    case InterruptSave(t, state) => PutChangesOne(w, id, c, t, state, true, tx, None, turn);
    case _ =>
  }

  // ---------------------------------------------------------------------
  // What one call journals
  // ---------------------------------------------------------------------

  /** The row that a starting call leaves, by what was answered and committed. */
  lemma AnEnsureCallJournals(w: World, id: nat, process: nat, row: TxAnswer, remoteOk: bool, attach: TxAnswer, orphan: TxAnswer)
    requires w.calls == map[id := Call(process, EnsureReadThread, w.store.revision)]
    requires !w.store.threadAttached && w.store.row.None? && process !in w.claimed
    ensures var end := CallRun(w, id, EnsureAnswers(row, remoteOk, attach, orphan));
            && end.conversations == w.conversations + (if row == Committed then 1 else 0)
            && end.store.turns == w.store.turns && end.calls == map[]
            && (end.store.row.None? <==> row == Refused)
            && (process in end.claimed <==> row == Committed)
            && (end.store.row == Some(Attached) <==> row == Committed && remoteOk && attach != Refused)
            && (end.store.row == Some(PossibleOrphan) <==>
                  row == Committed && (!remoteOk || attach == Refused) && orphan != Refused)
            && (end.store.threadAttached <==> end.store.row == Some(Attached))
  {
    hide CallRun, EnsureStep, EnsureAnswers;
    var answers := EnsureAnswers(row, remoteOk, attach, orphan);
    FirstAnswers(row, remoteOk, attach, orphan);
    var c := Call(process, EnsureReadThread, w.store.revision);
    ThreeSteps(w, id, c, answers);
    EnsureWrites(AfterReads(w, id), id, c.(pc := EnsureSaveRow), row, remoteOk, attach, orphan);
    EnsureRuns(AfterReads(w, id), id, answers[3..]);
    assert answers[3..] == [answers[3], answers[4], answers[5], answers[6]];
  }

  /** Four steps of a call. */
  lemma EnsureRuns(w: World, id: nat, answers: seq<Answer>)
    requires |answers| == 4
    ensures CallRun(w, id, answers) ==
            Advanced(Advanced(Advanced(Advanced(w, id, answers[0]), id, answers[1]), id, answers[2]), id, answers[3])
  {
    hide CallRun, Advanced;
    FourAdvances(w, id, answers[0], answers[1], answers[2], answers[3]);
    assert answers == [answers[0], answers[1], answers[2], answers[3]];
  }

  lemma EnsureAdvances(w: World, id: nat, c: Call, a: Answer)
    requires w.calls == map[id := c] && Ensuring(c.pc)
    ensures Advanced(w, id, a) == EnsureStep(w, id, c, a.ok, a.tx)
  {
    hide EnsureStep, TurnStep, SteerStep, CloseTurnStep;
  }

  /** A fenced write of a call that is alone and holds the fence. */
  lemma WritesAlone(w: World, id: nat, c: Call, store: Store, tx: TxAnswer, next: Option<Pc>, failed: Option<Pc>)
    requires w.calls == map[id := c] && c.guard == w.store.revision
    ensures var t := Write(w, id, c, store, tx, next, failed);
            && t.store == (if tx == Refused then w.store else store.(revision := w.store.revision + 1))
            && t.calls == AfterWrite(id, c, tx == Committed, c.guard + 1, next, failed)
            && t.conversations == w.conversations && t.remoteTurns == w.remoteTurns && t.claimed == w.claimed
  {
  }

  /** A write of a call whose fence has passed changes nothing. */
  lemma WritesStale(w: World, id: nat, c: Call, store: Store, tx: TxAnswer)
    requires w.calls == map[id := c] && c.guard < w.store.revision
    ensures var t := Write(w, id, c, store, tx, None, None); t == w.(calls := map[])
  {
  }

  lemma EnsureWrites(w: World, id: nat, c: Call, row: TxAnswer, remoteOk: bool, attach: TxAnswer, orphan: TxAnswer)
    requires w.calls == map[id := c] && c.pc == EnsureSaveRow && c.guard == w.store.revision
    requires !w.store.threadAttached && w.store.row.None?
    ensures var end := Advanced(Advanced(Advanced(Advanced(w, id, Answer(true, row)), id, Answer(remoteOk, Committed)), id,
                         Answer(true, if remoteOk then attach else orphan)), id, Answer(true, orphan));
            && end.conversations == w.conversations + (if row == Committed then 1 else 0)
            && end.store.turns == w.store.turns && end.calls == map[]
            && (end.store.row.None? <==> row == Refused)
            && end.claimed == (if row == Committed then w.claimed else w.claimed - {c.process})
            && (end.store.row == Some(Attached) <==> row == Committed && remoteOk && attach != Refused)
            && (end.store.row == Some(PossibleOrphan) <==>
                  row == Committed && (!remoteOk || attach == Refused) && orphan != Refused)
            && (end.store.threadAttached <==> end.store.row == Some(Attached))
  {
    hide Advanced, Write;
    var w1 := Advanced(w, id, Answer(true, row));
    EnsureAdvances(w, id, c, Answer(true, row));
    WritesAlone(w, id, c, w.store.(row := Some(Creating)), row, Some(EnsureRemote), None);
    if row != Committed {
      NothingNext(w1, id, Answer(remoteOk, Committed));
      NothingNext(w1, id, Answer(true, if remoteOk then attach else orphan));
      NothingNext(w1, id, Answer(true, orphan));
    } else {
      var c1 := c.(pc := EnsureRemote, guard := c.guard + 1);
      var w2 := Advanced(w1, id, Answer(remoteOk, Committed));
      EnsureAdvances(w1, id, c1, Answer(remoteOk, Committed));
      var c2 := c1.(pc := if remoteOk then EnsureSaveAttached else EnsureSaveOrphan);
      assert w2 == w1.(conversations := w1.conversations + 1, calls := map[id := c2]);
      OutcomeIsWritten(w2, id, c2, remoteOk, attach, orphan);
    }
  }

  lemma OutcomeIsWritten(w: World, id: nat, c: Call, remoteOk: bool, attach: TxAnswer, orphan: TxAnswer)
    requires w.calls == map[id := c] && c.pc == (if remoteOk then EnsureSaveAttached else EnsureSaveOrphan)
    requires c.guard == w.store.revision && !w.store.threadAttached && w.store.row == Some(Creating)
    ensures var end := Advanced(Advanced(w, id, Answer(true, if remoteOk then attach else orphan)), id, Answer(true, orphan));
            && end.conversations == w.conversations && end.store.turns == w.store.turns && end.calls == map[]
            && end.store.row.Some? && end.claimed == w.claimed
            && (end.store.row == Some(Attached) <==> remoteOk && attach != Refused)
            && (end.store.row == Some(PossibleOrphan) <==> (!remoteOk || attach == Refused) && orphan != Refused)
            && (end.store.threadAttached <==> end.store.row == Some(Attached))
  {
    hide Advanced, Write;
    var first := Answer(true, if remoteOk then attach else orphan);
    var w1 := Advanced(w, id, first);
    EnsureAdvances(w, id, c, first);
    if !remoteOk {
      WritesAlone(w, id, c, w.store.(row := Some(PossibleOrphan)), orphan, None, None);
      NothingNext(w1, id, Answer(true, orphan));
    } else {
      WritesAlone(w, id, c, w.store.(row := Some(Attached), threadAttached := true), attach, None, Some(EnsureSaveOrphan));
      if attach == Committed {
        NothingNext(w1, id, Answer(true, orphan));
      } else {
        var c1 := c.(pc := EnsureSaveOrphan);
        EnsureAdvances(w1, id, c1, Answer(true, orphan));
        if attach == Refused {
          WritesAlone(w1, id, c1, w1.store.(row := Some(PossibleOrphan)), orphan, None, None);
        } else {
          WritesStale(w1, id, c1, w1.store.(row := Some(PossibleOrphan)), orphan);
        }
      }
    }
  }

  /** The turn row a call leaves, the others being as they were. */
  ghost predicate LeavesTurn(w: World, end: World, turn: nat, t: Option<Turn>) {
    && end.calls == map[] && end.store.row == w.store.row && end.store.threadAttached == w.store.threadAttached
    && end.store.turns == if t.None? then w.store.turns else w.store.turns[turn := t.value]
  }

  /** Steering a ready turn: it is started again when the provider took it, unknown
      when that is not known, and steering when the outcome could not be written. */
  lemma ASteerCallJournals(w: World, id: nat, process: nat, turn: nat, steering: TxAnswer, remoteOk: bool, outcome: TxAnswer)
    requires w.calls == map[id := Call(process, SteerRead(turn), w.store.revision)] && ReadyTurn(w.store, turn)
    ensures LeavesTurn(w, CallRun(w, id, [Answer(true, Committed), Answer(true, steering), Answer(remoteOk, Committed),
                                          Answer(true, outcome)]), turn,
              if steering == Refused then None
              else if steering == Unacknowledged || outcome == Refused then Some(Turn(Steering, true))
              else Some(Turn(if remoteOk then Started else Unknown, true)))
  {
    hide CallRun, Step, AdvanceStep, Write;
    var a, b := Answer(true, Committed), Answer(true, steering);
    var d, e := Answer(remoteOk, Committed), Answer(true, outcome);
    var c := Call(process, SteerRead(turn), w.store.revision);
    FourAdvances(w, id, a, b, d, e);
    SteerNext(w, id, c, a);
    c := c.(pc := SteerSave(turn));
    var w1 := w.(calls := map[id := c]);
    SteerNext(w1, id, c, b);
    WritesAlone(w1, id, c, PutTurn(w1.store, turn, Steering, true), steering, Some(SteerRemote(turn)), None);
    var w2 := Advanced(w1, id, b);
    if steering != Committed {
      NothingNext(w2, id, d);
      NothingNext(w2, id, e);
    } else {
      SteeringJournals(w2, id, c.(pc := SteerRemote(turn), guard := c.guard + 1), turn, remoteOk, outcome);
      PutTwice(w.store.turns, turn, Turn(Steering, true), Some(Turn(if remoteOk then Started else Unknown, true)));
    }
  }

  lemma SteeringJournals(w: World, id: nat, c: Call, turn: nat, remoteOk: bool, outcome: TxAnswer)
    requires w.calls == map[id := c] && c.pc == SteerRemote(turn) && c.guard == w.store.revision
    ensures var end := Advanced(Advanced(w, id, Answer(remoteOk, Committed)), id, Answer(true, outcome));
            LeavesTurn(w, end, turn, if outcome == Refused then None else Some(Turn(if remoteOk then Started else Unknown, true)))
  {
    hide Advanced, Write;
    SteerNext(w, id, c, Answer(remoteOk, Committed));
    var c1 := c.(pc := if remoteOk then SteerSaveStarted(turn) else SteerSaveUnknown(turn));
    var w1 := w.(calls := map[id := c1]);
    SteerNext(w1, id, c1, Answer(true, outcome));
    WritesAlone(w1, id, c1, PutTurn(w1.store, turn, if remoteOk then Started else Unknown, true), outcome, None, None);
  }

  /** Cancelling a ready turn: interrupted, or unknown when that is not certain. */
  lemma AnInterruptCallJournals(w: World, id: nat, process: nat, turn: nat, remoteOk: bool, tx: TxAnswer)
    requires w.calls == map[id := Call(process, InterruptRead(turn), w.store.revision)] && ReadyTurn(w.store, turn)
    ensures LeavesTurn(w, CallRun(w, id, [Answer(true, Committed), Answer(remoteOk, Committed), Answer(true, tx)]), turn,
              if tx == Refused then None else Some(Turn(if remoteOk then Interrupted else Unknown, true)))
  {
    hide CallRun, Step, AdvanceStep, Write;
    var a, b, d := Answer(true, Committed), Answer(remoteOk, Committed), Answer(true, tx);
    var c := Call(process, InterruptRead(turn), w.store.revision);
    ThreeAdvances(w, id, a, b, d);
    CloseNext(w, id, c, a);
    c := c.(pc := InterruptRemote(turn));
    var w1 := w.(calls := map[id := c]);
    CloseNext(w1, id, c, b);
    c := c.(pc := InterruptSave(turn, if remoteOk then Interrupted else Unknown));
    var w2 := w.(calls := map[id := c]);
    CloseNext(w2, id, c, d);
    WritesAlone(w2, id, c, PutTurn(w2.store, turn, if remoteOk then Interrupted else Unknown, true), tx, None, None);
  }

  /** Closing a ready turn in the state the provider reported. */
  lemma ACompleteCallJournals(w: World, id: nat, process: nat, turn: nat, state: TurnState, tx: TxAnswer)
    requires w.calls == map[id := Call(process, CompleteRead(turn, state), w.store.revision)] && ReadyTurn(w.store, turn)
    ensures LeavesTurn(w, CallRun(w, id, [Answer(true, Committed), Answer(true, tx)]), turn,
              if tx == Refused then None else Some(Turn(state, true)))
  {
    hide CallRun, Step, AdvanceStep, Write;
    var a, b := Answer(true, Committed), Answer(true, tx);
    var c := Call(process, CompleteRead(turn, state), w.store.revision);
    TwoAdvances(w, id, a, b);
    CloseNext(w, id, c, a);
    c := c.(pc := CompleteSave(turn, state));
    var w1 := w.(calls := map[id := c]);
    CloseNext(w1, id, c, b);
    WritesAlone(w1, id, c, PutTurn(w1.store, turn, state, true), tx, None, None);
  }

  /** A turn that is not ready is neither steered, cancelled nor closed. */
  lemma ATurnThatIsNotReadyIsLeftAlone(w: World, id: nat, c: Call, answers: seq<Answer>)
    requires w.calls == map[id := c] && answers != []
    requires (c.pc.SteerRead? && !ReadyTurn(w.store, c.pc.turn)) || (c.pc.InterruptRead? && !ReadyTurn(w.store, c.pc.turn)) ||
             (c.pc.CompleteRead? && !ReadyTurn(w.store, c.pc.turn))
    ensures CallRun(w, id, answers) == w.(calls := map[])
  {
    hide CallRun, Write, EnsureStep, TurnStep, ReadyTurn;
    CallRunNext(w, id, c, answers);
    CallRunEnded(w.(calls := map[]), id, answers[1..]);
  }

  /** What becomes of the turn a call starts. */
  function StartedTurn(prepared: TxAnswer, remoteOk: bool, started: TxAnswer, orphan: TxAnswer): Option<Turn> {
    if prepared == Refused then None
    else if prepared == Unacknowledged then Some(Turn(Prepared, false))
    else if remoteOk && started != Refused then Some(Turn(Started, true))
    else if orphan == Refused then Some(Turn(Prepared, false))
    else Some(Turn(TurnOrphan, remoteOk))
  }

  function StartAnswers(prepared: TxAnswer, remoteOk: bool, started: TxAnswer, orphan: TxAnswer): seq<Answer> {
    [Answer(true, Committed), Answer(true, Committed), Answer(true, prepared), Answer(remoteOk, Committed),
     Answer(true, if remoteOk then started else orphan), Answer(true, orphan)]
  }

  function RemoteAnswers(remoteOk: bool, started: TxAnswer, orphan: TxAnswer): seq<Answer> {
    [Answer(remoteOk, Committed), Answer(true, if remoteOk then started else orphan), Answer(true, orphan)]
  }

  lemma AnswersSplit(prepared: TxAnswer, remoteOk: bool, started: TxAnswer, orphan: TxAnswer)
    ensures StartAnswers(prepared, remoteOk, started, orphan) ==
            [Answer(true, Committed)] + ([Answer(true, Committed)] + ([Answer(true, prepared)] + RemoteAnswers(remoteOk, started, orphan)))
  {
  }

  lemma PutTwice(turns: map<nat, Turn>, turn: nat, first: Turn, second: Option<Turn>)
    ensures second.Some? ==> turns[turn := first][turn := second.value] == turns[turn := second.value]
  {
  }

  /** Starting a turn: without an attached conversation, or with a turn still active,
      nothing is asked and nothing journalled. Else the new turn is started remotely
      once it is journalled, and journalled as what came of that. */
  lemma AStartCallJournals(
    w: World, id: nat, process: nat, prepared: TxAnswer, remoteOk: bool, started: TxAnswer, orphan: TxAnswer)
    requires w.calls == map[id := Call(process, TurnReadConversation, w.store.revision)]
    ensures var end := CallRun(w, id, StartAnswers(prepared, remoteOk, started, orphan));
            if w.store.row != Some(Attached) || AnyActive(w.store) then end == w.(calls := map[])
            else
              && LeavesTurn(w, end, w.nextTurn, StartedTurn(prepared, remoteOk, started, orphan))
              && end.remoteTurns == w.remoteTurns + if prepared == Committed then [w.nextTurn] else []
  {
    hide CallRun, Step, AdvanceStep, AnyActive, StartAnswers, RemoteAnswers, StartedTurn, LeavesTurn;
    var none, d := Answer(true, Committed), Answer(true, prepared);
    var rest := RemoteAnswers(remoteOk, started, orphan);
    var c := Call(process, TurnReadConversation, w.store.revision);
    AnswersSplit(prepared, remoteOk, started, orphan);
    OneAdvance(w, id, none, [none] + ([d] + rest));
    TurnNext(w, id, c, none);
    if w.store.row != Some(Attached) {
      CallRunEnded(w.(calls := map[]), id, [none] + ([d] + rest));
    } else {
      c := c.(pc := TurnCheckActive);
      var w1 := w.(calls := map[id := c]);
      OneAdvance(w1, id, none, [d] + rest);
      TurnNext(w1, id, c, none);
      if AnyActive(w.store) {
        CallRunEnded(w.(calls := map[]), id, [d] + rest);
      } else {
        c := c.(pc := TurnSavePrepared(w.nextTurn));
        var w2 := w.(nextTurn := w.nextTurn + 1, calls := map[id := c]);
        PreparedTurnJournals(w2, id, c, w.nextTurn, prepared, remoteOk, started, orphan);
        LeavesTurnFrom(w, w2, CallRun(w2, id, [d] + rest), w.nextTurn, StartedTurn(prepared, remoteOk, started, orphan));
      }
    }
  }

  lemma LeavesTurnFrom(w: World, w2: World, end: World, turn: nat, t: Option<Turn>)
    requires w2.store == w.store
    ensures LeavesTurn(w2, end, turn, t) == LeavesTurn(w, end, turn, t)
  {
  }

  lemma PreparedTurnJournals(
    w: World, id: nat, c: Call, turn: nat, prepared: TxAnswer, remoteOk: bool, started: TxAnswer, orphan: TxAnswer)
    requires w.calls == map[id := c] && c.pc == TurnSavePrepared(turn) && c.guard == w.store.revision
    ensures var end := CallRun(w, id, [Answer(true, prepared)] + RemoteAnswers(remoteOk, started, orphan));
            && LeavesTurn(w, end, turn, StartedTurn(prepared, remoteOk, started, orphan))
            && end.remoteTurns == w.remoteTurns + if prepared == Committed then [turn] else []
  {
    hide CallRun, Step, AdvanceStep, Write, RemoteAnswers;
    var d, rest := Answer(true, prepared), RemoteAnswers(remoteOk, started, orphan);
    OneAdvance(w, id, d, rest);
    TurnNext(w, id, c, d);
    WritesAlone(w, id, c, PutTurn(w.store, turn, Prepared, false), prepared, Some(TurnRemote(turn)), None);
    var w1 := Advanced(w, id, d);
    if prepared != Committed {
      CallRunEnded(w1, id, rest);
    } else {
      RemoteTurnJournals(w1, id, c.(pc := TurnRemote(turn), guard := c.guard + 1), turn, remoteOk, started, orphan);
      PutTwice(w.store.turns, turn, Turn(Prepared, false), StartedTurn(Committed, remoteOk, started, orphan));
    }
  }

  lemma RemoteTurnJournals(w: World, id: nat, c: Call, turn: nat, remoteOk: bool, started: TxAnswer, orphan: TxAnswer)
    requires w.calls == map[id := c] && c.pc == TurnRemote(turn) && c.guard == w.store.revision
    requires turn in w.store.turns && w.store.turns[turn] == Turn(Prepared, false)
    ensures var end := CallRun(w, id, RemoteAnswers(remoteOk, started, orphan));
            && LeavesTurn(w, end, turn, StartedTurn(Committed, remoteOk, started, orphan)) && end.remoteTurns == w.remoteTurns + [turn]
  {
    hide CallRun, Step, AdvanceStep, Write;
    var a, b, d := Answer(remoteOk, Committed), Answer(true, if remoteOk then started else orphan), Answer(true, orphan);
    ThreeAdvances(w, id, a, b, d);
    TurnNext(w, id, c, a);
    var w0 := w.(remoteTurns := w.remoteTurns + [turn]);
    assert w.store.turns[turn := Turn(Prepared, false)] == w.store.turns;
    if !remoteOk {
      var c1 := c.(pc := TurnSaveOrphan(turn, false));
      var w1 := w0.(calls := map[id := c1]);
      TurnNext(w1, id, c1, b);
      WritesAlone(w1, id, c1, PutTurn(w1.store, turn, TurnOrphan, false), orphan, None, None);
      NothingNext(Advanced(w1, id, b), id, d);
    } else {
      var c1 := c.(pc := TurnSaveStarted(turn));
      var w1 := w0.(calls := map[id := c1]);
      TurnNext(w1, id, c1, b);
      WritesAlone(w1, id, c1, PutTurn(w1.store, turn, Started, true), started, None, Some(TurnSaveOrphan(turn, true)));
      var w2 := Advanced(w1, id, b);
      if started == Committed {
        NothingNext(w2, id, d);
      } else {
        var c2 := c.(pc := TurnSaveOrphan(turn, true));
        TurnNext(w2, id, c2, d);
        if started == Refused {
          WritesAlone(w2, id, c2, PutTurn(w2.store, turn, TurnOrphan, true), orphan, None, None);
        } else {
          WritesStale(w2, id, c2, PutTurn(w2.store, turn, TurnOrphan, true), orphan);
        }
      }
    }
  }

  /** A crash ends the calls of its process and forgets what that had claimed; what is
      journalled stays. */
  lemma ACrashForgets(w: World, process: nat)
    ensures var t := Step(w, Crash(process));
            && t.store == w.store && t.claimed == w.claimed - {process}
            && (forall id :: id in t.calls <==> id in w.calls && w.calls[id].process != process)
            && (forall id :: id in t.calls ==> t.calls[id] == w.calls[id])
  {
  }

  /** After a restart no turn is active; what was closed before stays as it was. */
  lemma ARestoreCallJournals(w: World, id: nat, process: nat, tx: TxAnswer, turn: nat)
    requires w.calls == map[id := Call(process, RestoreRead, w.store.revision)] && turn in w.store.turns && tx != Refused
    ensures var end := CallRun(w, id, [Answer(true, Committed), Answer(true, tx)]);
            && end.store.turns.Keys == w.store.turns.Keys && end.calls == map[]
            && end.store.turns[turn] ==
               if Active(w.store.turns[turn]) then Turn(Interrupted, w.store.turns[turn].hasRef) else w.store.turns[turn]
  {
    hide CallRun, Step, AdvanceStep, Write;
    var a, b := Answer(true, Committed), Answer(true, tx);
    var c := Call(process, RestoreRead, w.store.revision);
    TwoAdvances(w, id, a, b);
    CloseNext(w, id, c, a);
    c := c.(pc := RestoreSave(w.store.turns));
    var w1 := w.(calls := map[id := c]);
    CloseNext(w1, id, c, b);
    WritesAlone(w1, id, c, w1.store.(turns := InterruptAll(w1.store.turns, w.store.turns)), tx, None, None);
  }
}
