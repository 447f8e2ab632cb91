/** Staging reconciled anchors page by page into a journal, with crashes,
    cancelled workers, lost acknowledgements and resumption from a stored cursor.
    The anchor source serves one fixed list; a cursor is a position in it and the
    empty cursor is its beginning. */
module AnchorStaging {
  import opened Wrappers

  type Thread(==)
  type Path(==)

  const MAX_UINT64: nat := 0xFFFF_FFFF_FFFF_FFFF

  /** What one anchor brings to a page. */
  datatype Weight = Weight(anchorPath: Path, contentPath: Path, sourceBytes: nat, evidenceBytes: nat)

  /** The budget of a page, and what pages have used of paths and bytes. */
  datatype Load = Load(paths: nat, sourceBytes: nat, evidenceBytes: nat)

  /** The served list, and whether the journal refuses a second row for the same
      thread, as the SQLite journal's primary key does. */
  datatype Setting = Setting(anchors: seq<Thread>, unique: bool, weight: Thread -> Weight, budget: Load, pageLimit: nat)

  datatype Progress = Progress(processed: nat, total: nat, cursor: nat, used: Load)

  const NOTHING := Progress(0, 0, 0, Load(0, 0, 0))

  /** The journalled operation. */
  datatype Durable = Durable(revision: nat, created: bool, progress: Progress, staged: seq<Thread>, completed: bool)

  datatype Pc = Start(resume: bool) | Paging | Deciding | Committing

  /** A worker carries its own fence and its own copy of the progress. */
  datatype Worker = Worker(pc: Pc, guard: nat, progress: Progress)

  /** `laps` counts final pages staged: bookkeeping for what is proved. */
  datatype State = State(durable: Durable, workers: map<nat, Worker>, laps: nat)

  /** A fenced write commits, is refused, or commits unacknowledged. */
  datatype TxAnswer = Committed | Refused | Unacknowledged

  datatype Action =
    | Launch(id: nat)
    | Resume(id: nat)
    | StartOperation(id: nat, tx: TxAnswer)
    | StagePage(id: nat, count: nat, done: bool, reported: nat, tx: TxAnswer)
    | Decide(id: nat)
    | Complete(id: nat, tx: TxAnswer)
    | Stop(id: nat)
    | Crash
    | OtherWrite

  // ---------------------------------------------------------------------
  // Steps
  // ---------------------------------------------------------------------

  function Drop(s: State, id: nat): State { s.(workers := s.workers - {id}) }

  function Put(s: State, id: nat, w: Worker): State { s.(workers := s.workers[id := w]) }

  function WouldOverflow(value: nat, add: nat): bool { add > MAX_UINT64 - value }

  /** The fenced transaction: compare the revision, write, bump. */
  function Commit(s: State, id: nat, w: Worker, durable: Durable, next: Worker, tx: TxAnswer): State {
    if tx == Refused || w.guard != s.durable.revision then Drop(s, id)
    else
      var s := s.(durable := durable.(revision := s.durable.revision + 1));
      if tx == Unacknowledged then Drop(s, id) else Put(s, id, next.(guard := w.guard + 1))
  }

  function StartStep(s: State, id: nat, w: Worker, resume: bool, tx: TxAnswer): State {
    if resume != s.durable.created then Drop(s, id)
    else Commit(s, id, w, s.durable.(created := true, progress := w.progress), w.(pc := Paging), tx)
  }

  /** The paths a page mentions, each once. */
  function PathsOf(weight: Thread -> Weight, page: seq<Thread>): set<Path> {
    if page == [] then {}
    else
      var last := weight(page[|page| - 1]);
      PathsOf(weight, page[..|page| - 1]) + {last.anchorPath, last.contentPath}
  }

  function SourceOf(weight: Thread -> Weight, page: seq<Thread>): nat {
    if page == [] then 0 else SourceOf(weight, page[..|page| - 1]) + weight(page[|page| - 1]).sourceBytes
  }

  function EvidenceOf(weight: Thread -> Weight, page: seq<Thread>): nat {
    if page == [] then 0 else EvidenceOf(weight, page[..|page| - 1]) + weight(page[|page| - 1]).evidenceBytes
  }

  function LoadOf(setting: Setting, page: seq<Thread>): Load {
    Load(|PathsOf(setting.weight, page)|, SourceOf(setting.weight, page), EvidenceOf(setting.weight, page))
  }

  predicate WithinBudget(setting: Setting, load: Load) {
    && load.paths <= setting.budget.paths
    && load.sourceBytes <= MAX_UINT64 && load.sourceBytes <= setting.budget.sourceBytes
    && load.evidenceBytes <= MAX_UINT64 && load.evidenceBytes <= setting.budget.evidenceBytes
  }

  predicate Overflows(used: Load, load: Load) {
    || WouldOverflow(used.paths, load.paths) || WouldOverflow(used.sourceBytes, load.sourceBytes)
    || WouldOverflow(used.evidenceBytes, load.evidenceBytes)
  }

  function Add(used: Load, load: Load): Load {
    Load(used.paths + load.paths, used.sourceBytes + load.sourceBytes, used.evidenceBytes + load.evidenceBytes)
  }

  function PageAt(setting: Setting, cursor: nat, count: nat): seq<Thread>
    requires cursor + count <= |setting.anchors|
  {
    setting.anchors[cursor..cursor + count]
  }

  /** The progress after a page: the reported total is adopted or must agree, and
      no counter may wrap. */
  function Advance(p: Progress, count: nat, done: bool, reported: nat, load: Load): Progress {
    Progress(p.processed + count, if p.total == 0 then reported else p.total, if done then 0 else p.cursor + count,
             Add(p.used, load))
  }

  predicate PageIsAccepted(setting: Setting, p: Progress, count: nat, done: bool, reported: nat) {
    && p.cursor + count <= |setting.anchors|
    && (done ==> p.cursor + count == |setting.anchors|)
    && count <= setting.pageLimit
    && (!done ==> count != 0)
    && (reported != 0 ==> count <= reported)
    && (p.total != 0 && reported != 0 ==> p.total == reported)
    && !WouldOverflow(p.processed, count)
    && WithinBudget(setting, LoadOf(setting, PageAt(setting, p.cursor, count)))
    && !Overflows(p.used, LoadOf(setting, PageAt(setting, p.cursor, count)))
  }

  predicate Duplicates(staged: seq<Thread>, page: seq<Thread>) {
    exists i :: 0 <= i < |page| && page[i] in staged
  }

  function StageStep(setting: Setting, s: State, id: nat, w: Worker, count: nat, done: bool, reported: nat, tx: TxAnswer): State {
    if !PageIsAccepted(setting, w.progress, count, done, reported) then Drop(s, id)
    else
      var page := PageAt(setting, w.progress.cursor, count);
      if setting.unique && Duplicates(s.durable.staged, page) then Drop(s, id)
      else
        var p := Advance(w.progress, count, done, reported, LoadOf(setting, page));
        var next := w.(pc := if done then Deciding else Paging, progress := p);
        var t := Commit(s, id, w, s.durable.(progress := p, staged := s.durable.staged + page), next, tx);
        if done && t.durable != s.durable then t.(laps := s.laps + 1) else t
  }

  function Settle(p: Progress): Progress { if p.total == 0 then p.(total := p.processed) else p }

  function DecideStep(s: State, id: nat, w: Worker): State {
    var p := Settle(w.progress);
    if p.processed != p.total then Drop(s, id)
    else Put(s, id, w.(pc := Committing, progress := p.(cursor := 0)))
  }

  function CompleteStep(s: State, id: nat, w: Worker, tx: TxAnswer): State {
    Drop(Commit(s, id, w, s.durable.(progress := w.progress, completed := true), w, tx), id)
  }

  /** Stored progress that a resume accepts. */
  predicate Resumable(p: Progress) {
    p.total == 0 || p.processed <= p.total
  }

  /** One action; one that does not apply changes nothing. */
  function Step(setting: Setting, s: State, a: Action): State {
    match a
    case Launch(id) =>
      if id in s.workers then s else Put(s, id, Worker(Start(false), s.durable.revision, NOTHING))
    case Resume(id) =>
      if id in s.workers || !s.durable.created || s.durable.completed || !Resumable(s.durable.progress) then s
      else Put(s, id, Worker(Start(true), s.durable.revision, s.durable.progress))
    case StartOperation(id, tx) =>
      if id in s.workers && s.workers[id].pc.Start? then StartStep(s, id, s.workers[id], s.workers[id].pc.resume, tx) else s
    case StagePage(id, count, done, reported, tx) =>
      if id in s.workers && s.workers[id].pc == Paging then
        StageStep(setting, s, id, s.workers[id], count, done, reported, tx)
      else s
    case Decide(id) => if id in s.workers && s.workers[id].pc == Deciding then DecideStep(s, id, s.workers[id]) else s
    case Complete(id, tx) =>
      if id in s.workers && s.workers[id].pc == Committing then CompleteStep(s, id, s.workers[id], tx) else s
    case Stop(id) => Drop(s, id)
    case Crash => s.(workers := map[])
    case OtherWrite => s.(durable := s.durable.(revision := s.durable.revision + 1))
  }

  function Run(setting: Setting, s: State, actions: seq<Action>): State
    decreases |actions|
  {
    if actions == [] then s else Run(setting, Step(setting, s, actions[0]), actions[1..])
  }

  predicate Initial(s: State) {
    && !s.durable.created && !s.durable.completed && s.durable.staged == []
    && s.durable.progress == NOTHING && s.workers == map[] && s.laps == 0
  }

  // ---------------------------------------------------------------------
  // What every run keeps
  // ---------------------------------------------------------------------

  function Repeat(list: seq<Thread>, times: nat): seq<Thread> {
    if times == 0 then [] else Repeat(list, times - 1) + list
  }

  lemma {:induction false} RepeatLength(list: seq<Thread>, times: nat)
    ensures |Repeat(list, times)| == times * |list|
  {
    if times > 0 { RepeatLength(list, times - 1); }
  }

  /** What has been staged is whole laps over the list and a prefix up to the
      stored cursor, and is counted. */
  ghost predicate Accounted(setting: Setting, d: Durable, laps: nat) {
    && d.progress.cursor <= |setting.anchors|
    && d.staged == Repeat(setting.anchors, laps) + setting.anchors[..d.progress.cursor]
    && d.progress.processed == |d.staged|
    && d.progress.used.sourceBytes == SourceOf(setting.weight, d.staged)
    && d.progress.used.evidenceBytes == EvidenceOf(setting.weight, d.staged)
    && (!d.created ==> d.progress == NOTHING && d.staged == [] && laps == 0 && !d.completed)
    && (d.completed ==> d.created && d.progress.cursor == 0 && laps >= 1 && d.progress.total == d.progress.processed)
  }

  /** A worker whose fence is current holds the stored progress, and nothing is
      completed under it. */
  ghost predicate Current(d: Durable, laps: nat, w: Worker) {
    && w.guard <= d.revision
    && (w.pc == Start(false) ==> w.progress == NOTHING)
    && (w.guard == d.revision && w.pc != Start(false) ==>
        && !d.completed
        && match w.pc
           case Start(true) => d.created && w.progress == d.progress
           case Paging => d.created && w.progress == d.progress
           case Deciding => d.created && w.progress == d.progress && d.progress.cursor == 0 && laps >= 1
           case Committing =>
             && d.created && d.progress.cursor == 0 && laps >= 1
             && w.progress == Settle(d.progress) && w.progress.processed == w.progress.total)
  }

  ghost predicate Good(setting: Setting, s: State) {
    && Accounted(setting, s.durable, s.laps)
    && forall id :: id in s.workers ==> Current(s.durable, s.laps, s.workers[id])
  }

  /** Only the worker whose fence is current can write, and its write makes every
      other fence stale. */
  lemma CommitKeepsGood(setting: Setting, s: State, id: nat, w: Worker, d: Durable, laps: nat, next: Worker, tx: TxAnswer)
    requires Good(setting, s)
    requires w.guard == s.durable.revision ==>
               Accounted(setting, d, laps) &&
               Current(d.(revision := w.guard + 1), laps, next.(guard := w.guard + 1))
    ensures var t := Commit(s, id, w, d, next, tx);
            Good(setting, if t.durable == s.durable then t else t.(laps := laps))
    ensures Commit(s, id, w, d, next, tx).laps == s.laps
    ensures Commit(s, id, w, d, next, tx).durable == s.durable || w.guard == s.durable.revision
  {
    hide Repeat;
  }

  lemma StartKeepsGood(setting: Setting, s: State, id: nat, w: Worker, resume: bool, tx: TxAnswer)
    requires Good(setting, s) && id in s.workers && s.workers[id] == w && w.pc == Start(resume)
    ensures Good(setting, StartStep(s, id, w, resume, tx))
  {
    hide Repeat, Commit;
    if resume == s.durable.created {
      var d := s.durable.(created := true, progress := w.progress);
      CommitKeepsGood(setting, s, id, w, d, s.laps, w.(pc := Paging), tx);
    }
  }

  lemma PageExtends(setting: Setting, d: Durable, laps: nat, count: nat, done: bool)
    requires Accounted(setting, d, laps) && d.progress.cursor + count <= |setting.anchors|
    requires done ==> d.progress.cursor + count == |setting.anchors|
    ensures d.staged + setting.anchors[d.progress.cursor..d.progress.cursor + count] ==
            if done then Repeat(setting.anchors, laps + 1) + setting.anchors[..0]
            else Repeat(setting.anchors, laps) + setting.anchors[..d.progress.cursor + count]
  {
    hide SourceOf, EvidenceOf;
    var c := d.progress.cursor;
    assert setting.anchors[..c + count] == setting.anchors[..c] + setting.anchors[c..c + count];
    if done {
      assert setting.anchors[..c + count] == setting.anchors;
    }
  }

  lemma {:induction false} BytesAdd(weight: Thread -> Weight, a: seq<Thread>, b: seq<Thread>)
    ensures SourceOf(weight, a + b) == SourceOf(weight, a) + SourceOf(weight, b)
    ensures EvidenceOf(weight, a + b) == EvidenceOf(weight, a) + EvidenceOf(weight, b)
  {
    if b == [] {
      assert a + b == a;
    } else {
      assert (a + b)[..|a + b| - 1] == a + b[..|b| - 1];
      BytesAdd(weight, a, b[..|b| - 1]);
    }
  }

  lemma StageKeepsGood(setting: Setting, s: State, id: nat, w: Worker, count: nat, done: bool, reported: nat, tx: TxAnswer)
    requires Good(setting, s) && id in s.workers && s.workers[id] == w && w.pc == Paging
    ensures Good(setting, StageStep(setting, s, id, w, count, done, reported, tx))
  {
    hide Repeat, Commit, Duplicates, SourceOf, EvidenceOf, PathsOf;
    if PageIsAccepted(setting, w.progress, count, done, reported) {
      var page := PageAt(setting, w.progress.cursor, count);
      var p := Advance(w.progress, count, done, reported, LoadOf(setting, page));
      var next := w.(pc := if done then Deciding else Paging, progress := p);
      var d := s.durable.(progress := p, staged := s.durable.staged + page);
      var laps := if done then s.laps + 1 else s.laps;
      if w.guard == s.durable.revision {
        PageExtends(setting, s.durable, s.laps, count, done);
        BytesAdd(setting.weight, s.durable.staged, page);
      }
      CommitKeepsGood(setting, s, id, w, d, laps, next, tx);
    }
  }

  lemma CompleteKeepsGood(setting: Setting, s: State, id: nat, w: Worker, tx: TxAnswer)
    requires Good(setting, s) && id in s.workers && s.workers[id] == w && w.pc == Committing
    ensures Good(setting, CompleteStep(s, id, w, tx))
  {
    hide Repeat;
  }

  lemma StepKeepsGood(setting: Setting, s: State, a: Action)
    requires Good(setting, s)
    ensures Good(setting, Step(setting, s, a))
  {
    hide Repeat, Commit, Duplicates, StartStep, StageStep, CompleteStep, SourceOf, EvidenceOf;
    match a
    case StartOperation(id, tx) =>
      if id in s.workers && s.workers[id].pc.Start? {
        StartKeepsGood(setting, s, id, s.workers[id], s.workers[id].pc.resume, tx);
      }
    case StagePage(id, count, done, reported, tx) =>
      if id in s.workers && s.workers[id].pc == Paging {
        StageKeepsGood(setting, s, id, s.workers[id], count, done, reported, tx);
      }
    case Complete(id, tx) =>
      if id in s.workers && s.workers[id].pc == Committing {
        CompleteKeepsGood(setting, s, id, s.workers[id], tx);
      }
    case _ =>
  }

  lemma {:induction false} RunKeepsGood(setting: Setting, s: State, actions: seq<Action>)
    requires Good(setting, s)
    ensures Good(setting, Run(setting, s, actions))
    decreases |actions|
  {
    hide Good, Step;
    if actions != [] {
      StepKeepsGood(setting, s, actions[0]);
      RunKeepsGood(setting, Step(setting, s, actions[0]), actions[1..]);
    }
  }

  lemma InitialIsGood(setting: Setting, s: State)
    requires Initial(s)
    ensures Good(setting, s)
  {
  }

  // ---------------------------------------------------------------------
  // Restarts
  // ---------------------------------------------------------------------

  /** A resumed worker commits its start although the stored cursor is empty and
      something is staged: the last page was staged before. */
  predicate Restarts(s: State, a: Action) {
    && a.StartOperation? && a.id in s.workers && s.workers[a.id].pc == Start(true)
    && s.workers[a.id].guard == s.durable.revision && a.tx != Refused
    && s.durable.progress.cursor == 0 && s.durable.progress.processed > 0
  }

  predicate EverRestarts(setting: Setting, s: State, actions: seq<Action>)
    decreases |actions|
  {
    actions != [] && (Restarts(s, actions[0]) || EverRestarts(setting, Step(setting, s, actions[0]), actions[1..]))
  }

  ghost predicate Holds(s: State, id: nat) {
    id in s.workers && s.workers[id].guard == s.durable.revision
  }

  /** The first lap, or just behind it. */
  ghost predicate FirstLap(s: State) {
    s.laps == 0 ||
    (s.laps == 1 && s.durable.progress.cursor == 0 && forall id :: Holds(s, id) ==> s.workers[id].pc != Paging)
  }

  /** The list is being staged again: whoever completes has staged it twice. */
  ghost predicate Again(s: State) {
    && s.laps >= 1
    && (s.durable.completed ==> s.laps >= 2)
    && forall id :: Holds(s, id) && (s.workers[id].pc == Deciding || s.workers[id].pc == Committing) ==> s.laps >= 2
  }

  lemma StepKeepsFirstLap(setting: Setting, s: State, a: Action)
    requires Good(setting, s) && FirstLap(s) && !Restarts(s, a) && setting.anchors != []
    ensures FirstLap(Step(setting, s, a))
  {
    hide Repeat, Duplicates, PageIsAccepted, LoadOf, PageAt, Add, SourceOf, EvidenceOf;
    if s.laps == 1 { RepeatLength(setting.anchors, 1); }
  }

  lemma StageKeepsAgain(setting: Setting, s: State, id: nat, w: Worker, count: nat, done: bool, reported: nat, tx: TxAnswer)
    requires Good(setting, s) && Again(s) && id in s.workers && s.workers[id] == w && w.pc == Paging
    ensures Again(StageStep(setting, s, id, w, count, done, reported, tx))
  {
    hide Accounted, Duplicates, PageIsAccepted, LoadOf, PageAt, Advance;
  }

  lemma StepKeepsAgain(setting: Setting, s: State, a: Action)
    requires Good(setting, s) && Again(s)
    ensures Again(Step(setting, s, a))
  {
    hide Accounted, StageStep;
    if a.StagePage? && a.id in s.workers && s.workers[a.id].pc == Paging {
      StageKeepsAgain(setting, s, a.id, s.workers[a.id], a.count, a.done, a.reported, a.tx);
    }
  }

  lemma RestartBeginsAgain(setting: Setting, s: State, a: Action)
    requires Good(setting, s) && Restarts(s, a)
    ensures Again(Step(setting, s, a))
  {
    hide Duplicates, PageIsAccepted, LoadOf, PageAt, Add, SourceOf, EvidenceOf;
  }

  lemma {:induction false} AgainForEver(setting: Setting, s: State, actions: seq<Action>)
    requires Good(setting, s) && Again(s)
    ensures Again(Run(setting, s, actions))
    decreases |actions|
  {
    hide Good, Again, Step;
    if actions != [] {
      StepKeepsGood(setting, s, actions[0]);
      StepKeepsAgain(setting, s, actions[0]);
      AgainForEver(setting, Step(setting, s, actions[0]), actions[1..]);
    }
  }

  lemma {:induction false} RestartedRun(setting: Setting, s: State, actions: seq<Action>)
    requires Good(setting, s) && EverRestarts(setting, s, actions)
    ensures Again(Run(setting, s, actions))
    decreases |actions|
  {
    hide Good, Again, Step, Restarts;
    if actions != [] {
      StepKeepsGood(setting, s, actions[0]);
      if Restarts(s, actions[0]) {
        RestartBeginsAgain(setting, s, actions[0]);
        AgainForEver(setting, Step(setting, s, actions[0]), actions[1..]);
      } else {
        RestartedRun(setting, Step(setting, s, actions[0]), actions[1..]);
      }
    }
  }

  lemma {:induction false} FirstLapRun(setting: Setting, s: State, actions: seq<Action>)
    requires Good(setting, s) && FirstLap(s) && !EverRestarts(setting, s, actions) && setting.anchors != []
    ensures FirstLap(Run(setting, s, actions))
    decreases |actions|
  {
    hide Good, FirstLap, Step, Restarts;
    if actions != [] {
      StepKeepsGood(setting, s, actions[0]);
      StepKeepsFirstLap(setting, s, actions[0]);
      FirstLapRun(setting, Step(setting, s, actions[0]), actions[1..]);
    }
  }

  lemma StagedOnceIffOneLap(setting: Setting, d: Durable, laps: nat)
    requires Accounted(setting, d, laps) && d.completed && setting.anchors != []
    ensures d.staged == setting.anchors <==> laps == 1
    ensures d.progress.processed == laps * |setting.anchors|
  {
    RepeatLength(setting.anchors, laps);
    assert d.staged == Repeat(setting.anchors, laps) + setting.anchors[..0];
    if laps == 1 {
      assert Repeat(setting.anchors, 1) == Repeat(setting.anchors, 0) + setting.anchors == setting.anchors;
    } else {
      MoreLapsAreLonger(laps, |setting.anchors|);
    }
  }

  lemma MoreLapsAreLonger(laps: nat, length: nat)
    requires laps >= 2 && length > 0
    ensures laps * length > length
  {
    assert laps * length == (laps - 2) * length + 2 * length;
    assert (laps - 2) * length >= 0;
  }

  /** Whatever the source reports and whatever crashes: an operation that
      completes has staged the list exactly once, in order, if and only if no
      resumed worker ever started over behind the last page. */
  lemma StagedOnceIffNeverRestarted(setting: Setting, s: State, actions: seq<Action>)
    requires Initial(s) && setting.anchors != [] && Run(setting, s, actions).durable.completed
    ensures Run(setting, s, actions).durable.staged == setting.anchors <==> !EverRestarts(setting, s, actions)
  {
    hide Run, EverRestarts;
    InitialIsGood(setting, s);
    RunKeepsGood(setting, s, actions);
    var end := Run(setting, s, actions);
    StagedOnceIffOneLap(setting, end.durable, end.laps);
    if EverRestarts(setting, s, actions) {
      RestartedRun(setting, s, actions);
    } else {
      FirstLapRun(setting, s, actions);
    }
  }

  // ---------------------------------------------------------------------
  // Exactly once
  // ---------------------------------------------------------------------

  /** Every page reports the true total. */
  predicate AllReportTotal(setting: Setting, actions: seq<Action>)
    decreases |actions|
  {
    actions == [] ||
    ((actions[0].StagePage? ==> actions[0].reported == |setting.anchors|) && AllReportTotal(setting, actions[1..]))
  }

  /** What keeps a second lap from completing: unique rows, or a total known
      since the first page. */
  ghost predicate Guarded(setting: Setting, s: State) {
    if setting.unique then s.laps == 0 || (s.laps == 1 && s.durable.progress.cursor == 0)
    else s.durable.staged != [] ==> s.durable.progress.total == |setting.anchors|
  }

  lemma SecondLapDuplicates(setting: Setting, d: Durable, count: nat)
    requires Accounted(setting, d, 1) && d.progress.cursor == 0 && 0 < count <= |setting.anchors|
    ensures Duplicates(d.staged, setting.anchors[0..0 + count])
  {
    assert d.staged == Repeat(setting.anchors, 0) + setting.anchors + [];
    assert d.staged == setting.anchors;
    assert setting.anchors[0..0 + count][0] in d.staged;
  }

  lemma StageKeepsGuarded(setting: Setting, s: State, id: nat, w: Worker, count: nat, done: bool, reported: nat, tx: TxAnswer)
    requires Good(setting, s) && Guarded(setting, s) && setting.anchors != []
    requires id in s.workers && s.workers[id] == w && w.pc == Paging
    requires setting.unique || reported == |setting.anchors|
    ensures Guarded(setting, StageStep(setting, s, id, w, count, done, reported, tx))
  {
    hide Repeat, Duplicates;
    if setting.unique && s.laps == 1 && 0 < count <= |setting.anchors| {
      SecondLapDuplicates(setting, s.durable, count);
    }
  }

  lemma StepKeepsGuarded(setting: Setting, s: State, a: Action)
    requires Good(setting, s) && Guarded(setting, s) && setting.anchors != []
    requires setting.unique || (a.StagePage? ==> a.reported == |setting.anchors|)
    ensures Guarded(setting, Step(setting, s, a))
  {
    hide Repeat, Duplicates, StageStep;
    if a.StagePage? && a.id in s.workers && s.workers[a.id].pc == Paging {
      StageKeepsGuarded(setting, s, a.id, s.workers[a.id], a.count, a.done, a.reported, a.tx);
    }
    if s.laps > 0 { RepeatLength(setting.anchors, s.laps); }
  }

  lemma {:induction false} GuardedRun(setting: Setting, s: State, actions: seq<Action>)
    requires Good(setting, s) && Guarded(setting, s) && setting.anchors != []
    requires setting.unique || AllReportTotal(setting, actions)
    ensures Guarded(setting, Run(setting, s, actions))
    decreases |actions|
  {
    hide Good, Guarded, Step;
    if actions != [] {
      StepKeepsGood(setting, s, actions[0]);
      StepKeepsGuarded(setting, s, actions[0]);
      GuardedRun(setting, Step(setting, s, actions[0]), actions[1..]);
    }
  }

  lemma GuardedCompletionIsOneLap(setting: Setting, s: State)
    requires Good(setting, s) && Guarded(setting, s) && s.durable.completed && setting.anchors != []
    ensures s.laps == 1 && s.durable.staged == setting.anchors
  {
    hide Repeat;
    StagedOnceIffOneLap(setting, s.durable, s.laps);
    if s.laps >= 2 { MoreLapsAreLonger(s.laps, |setting.anchors|); }
  }

  /** With a true total on every page, or unique rows in the journal, an
      operation is completed only when every anchor is staged exactly once; its
      counters are then those of the list. */
  lemma CompletionStagesEveryAnchorOnce(setting: Setting, s: State, actions: seq<Action>)
    requires Initial(s) && setting.anchors != []
    requires setting.unique || AllReportTotal(setting, actions)
    requires Run(setting, s, actions).durable.completed
    ensures Run(setting, s, actions).durable.staged == setting.anchors
    ensures var p := Run(setting, s, actions).durable.progress;
            && p.processed == p.total == |setting.anchors|
            && p.used.sourceBytes == SourceOf(setting.weight, setting.anchors)
            && p.used.evidenceBytes == EvidenceOf(setting.weight, setting.anchors)
  {
    hide Run, AllReportTotal;
    InitialIsGood(setting, s);
    RunKeepsGood(setting, s, actions);
    GuardedRun(setting, s, actions);
    GuardedCompletionIsOneLap(setting, Run(setting, s, actions));
  }

  /** The other side of that guarantee: if every worker dies between the last
      page and completion, no later run completes the operation. */
  lemma AfterTheLastPageNothingCompletes(setting: Setting, s: State, actions: seq<Action>)
    requires Good(setting, s) && Guarded(setting, s) && setting.anchors != []
    requires s.laps >= 1 && !s.durable.completed && s.workers == map[]
    requires setting.unique || AllReportTotal(setting, actions)
    ensures !Run(setting, s, actions).durable.completed
  {
    hide Run, AllReportTotal, Good, Guarded;
    RunKeepsGood(setting, s, actions);
    GuardedRun(setting, s, actions);
    AgainForEver(setting, s, actions);
    if Run(setting, s, actions).durable.completed {
      GuardedCompletionIsOneLap(setting, Run(setting, s, actions));
    }
  }

  // ---------------------------------------------------------------------
  // When an operation can still be completed
  // ---------------------------------------------------------------------

  /** A total, once known, is kept. */
  lemma StepKeepsTotal(setting: Setting, s: State, a: Action)
    requires Good(setting, s) && s.durable.progress.total != 0
    ensures Step(setting, s, a).durable.progress.total == s.durable.progress.total
  {
    hide Repeat, Duplicates, PageIsAccepted, LoadOf, PageAt, Add, SourceOf, EvidenceOf;
  }

  lemma {:induction false} RunKeepsTotal(setting: Setting, s: State, actions: seq<Action>)
    requires Good(setting, s) && s.durable.progress.total != 0
    ensures Run(setting, s, actions).durable.progress.total == s.durable.progress.total
    decreases |actions|
  {
    hide Good, Step;
    if actions != [] {
      StepKeepsGood(setting, s, actions[0]);
      StepKeepsTotal(setting, s, actions[0]);
      RunKeepsTotal(setting, Step(setting, s, actions[0]), actions[1..]);
    }
  }

  /** The anchors can be served one by one: each fits a page, no counter wraps before
      the end, and where rows are unique no thread comes twice. */
  ghost predicate Servable(setting: Setting, p: Progress) {
    && p.cursor <= |setting.anchors| <= MAX_UINT64 && setting.pageLimit >= 1
    && (forall i :: 0 <= i < |setting.anchors| ==> WithinBudget(setting, LoadOf(setting, PageAt(setting, i, 1))))
    && p.used.paths + 2 * (|setting.anchors| - p.cursor) <= MAX_UINT64
    && SourceOf(setting.weight, setting.anchors) <= MAX_UINT64 && EvidenceOf(setting.weight, setting.anchors) <= MAX_UINT64
    && (setting.unique ==> forall i, j :: 0 <= i < j < |setting.anchors| ==> setting.anchors[i] != setting.anchors[j])
  }

  predicate TotalAgrees(setting: Setting, p: Progress) { p.total == 0 || p.total == |setting.anchors| }

  /** A worker pages through the first lap, up to date with the journal. */
  ghost predicate Serving(setting: Setting, s: State) {
    && Good(setting, s) && s.laps == 0 && !s.durable.completed
    && 0 in s.workers && s.workers[0] == Worker(Paging, s.durable.revision, s.durable.progress)
    && Servable(setting, s.durable.progress) && TotalAgrees(setting, s.durable.progress)
  }

  lemma FirstLapIsAPrefix(setting: Setting, d: Durable)
    requires Accounted(setting, d, 0)
    ensures d.staged == setting.anchors[..d.progress.cursor] && d.progress.processed == d.progress.cursor
    ensures d.progress.used.sourceBytes == SourceOf(setting.weight, setting.anchors[..d.progress.cursor])
    ensures d.progress.used.evidenceBytes == EvidenceOf(setting.weight, setting.anchors[..d.progress.cursor])
  {
    assert Repeat(setting.anchors, 0) + setting.anchors[..d.progress.cursor] == setting.anchors[..d.progress.cursor];
  }

  lemma PrefixWeighsLess(setting: Setting, i: nat, j: nat)
    requires i + j <= |setting.anchors|
    ensures SourceOf(setting.weight, setting.anchors[..i]) + SourceOf(setting.weight, setting.anchors[i..i + j]) <=
            SourceOf(setting.weight, setting.anchors)
    ensures EvidenceOf(setting.weight, setting.anchors[..i]) + EvidenceOf(setting.weight, setting.anchors[i..i + j]) <=
            EvidenceOf(setting.weight, setting.anchors)
  {
    var a, b, c := setting.anchors[..i], setting.anchors[i..i + j], setting.anchors[i + j..];
    assert a + b + c == setting.anchors;
    BytesAdd(setting.weight, a, b);
    BytesAdd(setting.weight, a + b, c);
  }

  /** The next anchor makes an acceptable page. */
  lemma NextPageIsAccepted(setting: Setting, s: State)
    requires Serving(setting, s) && s.durable.progress.cursor < |setting.anchors|
    ensures PageIsAccepted(setting, s.durable.progress, 1, false, |setting.anchors|)
    ensures setting.unique ==> !Duplicates(s.durable.staged, PageAt(setting, s.durable.progress.cursor, 1))
    ensures LoadOf(setting, PageAt(setting, s.durable.progress.cursor, 1)).paths <= 2
  {
    hide SourceOf, EvidenceOf, PathsOf, Repeat;
    var p := s.durable.progress;
    FirstLapIsAPrefix(setting, s.durable);
    PrefixWeighsLess(setting, p.cursor, 1);
    LoadOfOne(setting, setting.anchors[p.cursor]);
    assert PageAt(setting, p.cursor, 1) == [setting.anchors[p.cursor]];
  }

  lemma ServesOne(setting: Setting, s: State)
    requires Serving(setting, s) && s.durable.progress.cursor < |setting.anchors|
    ensures var t := Step(setting, s, StagePage(0, 1, false, |setting.anchors|, Committed));
            Serving(setting, t) && t.durable.progress.cursor == s.durable.progress.cursor + 1
  {
    hide Repeat, Duplicates, LoadOf, PageIsAccepted, SourceOf, EvidenceOf, Accounted, Current;
    NextPageIsAccepted(setting, s);
    StepKeepsGood(setting, s, StagePage(0, 1, false, |setting.anchors|, Committed));
  }

  lemma EmptyPageIsAccepted(setting: Setting, s: State)
    requires Serving(setting, s) && s.durable.progress.cursor == |setting.anchors| > 0
    ensures PageIsAccepted(setting, s.durable.progress, 0, true, |setting.anchors|)
    ensures !Duplicates(s.durable.staged, PageAt(setting, s.durable.progress.cursor, 0))
    ensures s.durable.progress.processed == |setting.anchors|
  {
    hide Repeat, SourceOf, EvidenceOf, PathsOf, LoadOf, Current;
    var p := s.durable.progress;
    FirstLapIsAPrefix(setting, s.durable);
    PrefixWeighsLess(setting, |setting.anchors|, 0);
    NothingWeighs(setting, s.durable.staged);
    assert PageAt(setting, p.cursor, 0) == [];
    assert setting.anchors[..p.cursor] == setting.anchors;
    assert p.used.paths <= MAX_UINT64 && p.used.sourceBytes <= MAX_UINT64 && p.used.evidenceBytes <= MAX_UINT64;
  }

  lemma NothingWeighs(setting: Setting, staged: seq<Thread>)
    ensures LoadOf(setting, []) == Load(0, 0, 0) && !Duplicates(staged, [])
  {
  }

  /** An empty page behind the last anchor ends the lap. */
  lemma EndsLap(setting: Setting, s: State)
    requires Serving(setting, s) && s.durable.progress.cursor == |setting.anchors| > 0
    ensures var t := Step(setting, s, StagePage(0, 0, true, |setting.anchors|, Committed));
            && 0 in t.workers && t.workers[0] == Worker(Deciding, t.durable.revision, t.durable.progress)
            && t.durable.progress.processed == t.durable.progress.total == |setting.anchors|
  {
    hide PageIsAccepted, Duplicates, LoadOf, PageAt, Good, Servable;
    EmptyPageIsAccepted(setting, s);
  }

  lemma Completes(setting: Setting, s: State)
    requires 0 in s.workers && s.workers[0] == Worker(Deciding, s.durable.revision, s.durable.progress)
    requires s.durable.progress.processed == s.durable.progress.total
    ensures Run(setting, s, [Decide(0), Complete(0, Committed)]).durable.completed
  {
    RunTwo(setting, s, Decide(0), Complete(0, Committed));
  }

  lemma {:induction false} ServesAll(setting: Setting, s: State) returns (actions: seq<Action>)
    requires Serving(setting, s) && setting.anchors != []
    ensures Run(setting, s, actions).durable.completed && AllReportTotal(setting, actions)
    decreases |setting.anchors| - s.durable.progress.cursor
  {
    hide Run, Step;
    assert s.durable.progress.cursor <= |setting.anchors|;
    if s.durable.progress.cursor == |setting.anchors| {
      EndsLap(setting, s);
      var last := StagePage(0, 0, true, |setting.anchors|, Committed);
      Completes(setting, Step(setting, s, last));
      RunNext(setting, s, last, [Decide(0), Complete(0, Committed)]);
      actions := [last] + [Decide(0), Complete(0, Committed)];
      EndingReportsTotal(setting, last);
    } else {
      var next := StagePage(0, 1, false, |setting.anchors|, Committed);
      ServesOne(setting, s);
      var rest := ServesAll(setting, Step(setting, s, next));
      RunNext(setting, s, next, rest);
      actions := [next] + rest;
    }
  }

  lemma EndingReportsTotal(setting: Setting, last: Action)
    requires last.StagePage? && last.reported == |setting.anchors|
    ensures AllReportTotal(setting, [last] + [Decide(0), Complete(0, Committed)])
  {
    var rest := [Decide(0), Complete(0, Committed)];
    assert ([last] + rest)[1..] == rest && rest[1..] == [Complete(0, Committed)];
  }

  lemma Takes(setting: Setting, s: State)
    requires Good(setting, s) && s.workers == map[] && !s.durable.completed && s.laps == 0
    requires Servable(setting, s.durable.progress) && TotalAgrees(setting, s.durable.progress)
    ensures var first := if s.durable.created then Resume(0) else Launch(0);
            Serving(setting, Step(setting, Step(setting, s, first), StartOperation(0, Committed)))
  {
    hide Repeat, SourceOf, EvidenceOf, LoadOf, Servable;
    FirstLapIsAPrefix(setting, s.durable);
    assert Servable(setting, s.durable.progress) && s.durable.progress.cursor <= |setting.anchors| by { ServableIsInside(setting, s.durable.progress); }
    var first := if s.durable.created then Resume(0) else Launch(0);
    StepKeepsGood(setting, s, first);
    StepKeepsGood(setting, Step(setting, s, first), StartOperation(0, Committed));
  }

  lemma ServableIsInside(setting: Setting, p: Progress)
    requires Servable(setting, p)
    ensures p.cursor <= |setting.anchors|
  {
  }

  lemma SomeRunCompletes(setting: Setting, s: State) returns (actions: seq<Action>)
    requires Good(setting, s) && s.workers == map[] && !s.durable.completed && s.laps == 0 && setting.anchors != []
    requires Servable(setting, s.durable.progress) && TotalAgrees(setting, s.durable.progress)
    ensures Run(setting, s, actions).durable.completed && AllReportTotal(setting, actions)
  {
    hide Run, Step, Serving, Servable, Good;
    var first := if s.durable.created then Resume(0) else Launch(0);
    Takes(setting, s);
    var begun := Step(setting, s, first);
    var rest := ServesAll(setting, Step(setting, begun, StartOperation(0, Committed)));
    RunNext(setting, begun, StartOperation(0, Committed), rest);
    RunNext(setting, s, first, [StartOperation(0, Committed)] + rest);
    actions := [first] + ([StartOperation(0, Committed)] + rest);
    assert actions[1..] == [StartOperation(0, Committed)] + rest && actions[1..][1..] == rest;
  }

  /** When no worker is left, an operation whose anchors can be served is completed
      by some run exactly if its last page has not been staged yet and the total it
      knows, if any, is the true one. */
  lemma CompletionIsInReachIff(setting: Setting, s: State)
    requires Good(setting, s) && Guarded(setting, s) && setting.anchors != []
    requires !s.durable.completed && s.workers == map[] && Servable(setting, s.durable.progress)
    ensures (exists actions :: (setting.unique || AllReportTotal(setting, actions)) && Run(setting, s, actions).durable.completed) <==>
            s.laps == 0 && TotalAgrees(setting, s.durable.progress)
  {
    hide Run, AllReportTotal, Good, Guarded, Servable;
    if s.laps == 0 && TotalAgrees(setting, s.durable.progress) {
      var actions := SomeRunCompletes(setting, s);
    } else {
      forall actions | setting.unique || AllReportTotal(setting, actions) ensures !Run(setting, s, actions).durable.completed {
        if s.laps >= 1 {
          AfterTheLastPageNothingCompletes(setting, s, actions);
        } else {
          AWrongTotalNeverCompletes(setting, s, actions);
        }
      }
    }
  }

  lemma AWrongTotalNeverCompletes(setting: Setting, s: State, actions: seq<Action>)
    requires Good(setting, s) && Guarded(setting, s) && setting.anchors != [] && !TotalAgrees(setting, s.durable.progress)
    requires setting.unique || AllReportTotal(setting, actions)
    ensures !Run(setting, s, actions).durable.completed
  {
    hide Run, AllReportTotal, Guarded;
    RunKeepsGood(setting, s, actions);
    GuardedRun(setting, s, actions);
    RunKeepsTotal(setting, s, actions);
    var end := Run(setting, s, actions);
    if end.durable.completed {
      GuardedCompletionIsOneLap(setting, end);
    }
  }

  // ---------------------------------------------------------------------
  // What a page must be
  // ---------------------------------------------------------------------

  function Mentioned(setting: Setting, page: seq<Thread>): set<Path> {
    (set t | t in page :: setting.weight(t).anchorPath) + (set t | t in page :: setting.weight(t).contentPath)
  }

  lemma {:induction false} PathsAreMentioned(setting: Setting, page: seq<Thread>)
    ensures PathsOf(setting.weight, page) == Mentioned(setting, page)
  {
    if page != [] {
      var rest, last := page[..|page| - 1], page[|page| - 1];
      PathsAreMentioned(setting, rest);
      assert forall t :: t in page <==> t in rest || t == last;
    }
  }

  /** The page is served where the journal stands, ends where the list does, is no longer
      than asked and reported, and keeps to the budget; no counter of the journal wraps,
      and where rows are unique none of its threads is staged already. */
  ghost predicate Fits(setting: Setting, d: Durable, page: seq<Thread>, done: bool, reported: nat)
    requires d.progress.cursor <= |setting.anchors|
  {
    var p := d.progress;
    && page <= setting.anchors[p.cursor..] && (if done then page == setting.anchors[p.cursor..] else page != [])
    && |page| <= setting.pageLimit && (reported == 0 || |page| <= reported)
    && (p.total == 0 || reported == 0 || p.total == reported)
    && |Mentioned(setting, page)| <= setting.budget.paths
    && SourceOf(setting.weight, page) <= setting.budget.sourceBytes && EvidenceOf(setting.weight, page) <= setting.budget.evidenceBytes
    && p.processed + |page| <= MAX_UINT64 && p.used.paths + |Mentioned(setting, page)| <= MAX_UINT64
    && p.used.sourceBytes + SourceOf(setting.weight, page) <= MAX_UINT64
    && p.used.evidenceBytes + EvidenceOf(setting.weight, page) <= MAX_UINT64
    && (setting.unique ==> forall t :: t in page ==> t !in d.staged)
  }

  lemma AcceptedIffFits(setting: Setting, d: Durable, laps: nat, count: nat, done: bool, reported: nat)
    requires Accounted(setting, d, laps) && d.progress.cursor + count <= |setting.anchors|
    ensures var page := setting.anchors[d.progress.cursor..d.progress.cursor + count];
            Fits(setting, d, page, done, reported) <==>
            PageIsAccepted(setting, d.progress, count, done, reported) && !(setting.unique && Duplicates(d.staged, page))
  {
    hide PathsOf, Mentioned, SourceOf, EvidenceOf, Accounted;
    var page := setting.anchors[d.progress.cursor..d.progress.cursor + count];
    PathsAreMentioned(setting, page);
    DuplicatesTell(d.staged, page);
    assert |setting.anchors[d.progress.cursor..]| == |setting.anchors| - d.progress.cursor;
    assert done && d.progress.cursor + count == |setting.anchors| ==> page == setting.anchors[d.progress.cursor..];
  }

  lemma DuplicatesTell(staged: seq<Thread>, page: seq<Thread>)
    ensures Duplicates(staged, page) <==> exists t :: t in page && t in staged
  {
    if t :| t in page && t in staged {
      var i :| 0 <= i < |page| && page[i] == t;
    }
  }

  /** A page reaches the journal exactly when the worker that stages it is up to date,
      the page fits and the write is not refused; it is then counted, and the journal
      stands behind it, or at the beginning again if it was the last one. */
  lemma APageIsStagedIff(setting: Setting, s: State, id: nat, count: nat, done: bool, reported: nat, tx: TxAnswer)
    requires Good(setting, s) && id in s.workers && s.workers[id].pc == Paging
    ensures var d, t := s.durable, Step(setting, s, StagePage(id, count, done, reported, tx)).durable;
            var at := d.progress.cursor;
            if && s.workers[id].guard == d.revision && tx != Refused && at + count <= |setting.anchors|
               && Fits(setting, d, setting.anchors[at..at + count], done, reported)
            then
              var page, was := setting.anchors[at..at + count], d.progress;
              t == Durable(d.revision + 1, true,
                           Progress(was.processed + count, if was.total != 0 then was.total else reported,
                                    if done then 0 else at + count,
                                    Load(was.used.paths + |Mentioned(setting, page)|,
                                         was.used.sourceBytes + SourceOf(setting.weight, page),
                                         was.used.evidenceBytes + EvidenceOf(setting.weight, page))),
                           d.staged + page, false)
            else t == d
  {
    hide PathsOf, Mentioned, SourceOf, EvidenceOf, Accounted, Fits, PageIsAccepted, Duplicates;
    var at := s.durable.progress.cursor;
    if s.workers[id].guard == s.durable.revision && at + count <= |setting.anchors| {
      AcceptedIffFits(setting, s.durable, s.laps, count, done, reported);
      PathsAreMentioned(setting, setting.anchors[at..at + count]);
    }
    OutsideTheListNothingIsAccepted(setting, s.workers[id].progress, count, done, reported);
  }

  lemma OutsideTheListNothingIsAccepted(setting: Setting, p: Progress, count: nat, done: bool, reported: nat)
    ensures PageIsAccepted(setting, p, count, done, reported) ==> p.cursor + count <= |setting.anchors|
  {
  }

  /** The counters fit sixty-four bits, and paths are counted page by page: not fewer
      than the different ones staged, nor more than two for every row. */
  ghost predicate Counted(setting: Setting, d: Durable) {
    && d.progress.processed <= MAX_UINT64 && d.progress.used.sourceBytes <= MAX_UINT64
    && d.progress.used.evidenceBytes <= MAX_UINT64 && d.progress.used.paths <= MAX_UINT64
    && |Mentioned(setting, d.staged)| <= d.progress.used.paths <= 2 * |d.staged|
  }

  lemma MentionedAdds(setting: Setting, a: seq<Thread>, b: seq<Thread>)
    ensures |Mentioned(setting, a + b)| <= |Mentioned(setting, a)| + |Mentioned(setting, b)|
    ensures |Mentioned(setting, b)| <= 2 * |b|
  {
    assert Mentioned(setting, a + b) == Mentioned(setting, a) + Mentioned(setting, b);
    FewPaths(setting.weight, b);
    PathsAreMentioned(setting, b);
  }

  lemma {:induction false} FewPaths(weight: Thread -> Weight, page: seq<Thread>)
    ensures |PathsOf(weight, page)| <= 2 * |page|
  {
    if page != [] {
      FewPaths(weight, page[..|page| - 1]);
      TwoAtMost(weight(page[|page| - 1]).anchorPath, weight(page[|page| - 1]).contentPath);
    }
  }

  lemma StepKeepsCounted(setting: Setting, s: State, a: Action)
    requires Good(setting, s) && Counted(setting, s.durable)
    ensures Counted(setting, Step(setting, s, a).durable)
  {
    hide Mentioned, Accounted, StageStep, SourceOf, EvidenceOf, Fits;
    if a.StagePage? && a.id in s.workers && s.workers[a.id].pc == Paging {
      APageIsStagedIff(setting, s, a.id, a.count, a.done, a.reported, a.tx);
      var at := s.durable.progress.cursor;
      if at + a.count <= |setting.anchors| {
        var page := setting.anchors[at..at + a.count];
        MentionedAdds(setting, s.durable.staged, page);
        FitsBounds(setting, s.durable, page, a.done, a.reported);
      }
    } else {
      OtherStepsKeepCounters(setting, s, a);
    }
  }

  lemma OtherStepsKeepCounters(setting: Setting, s: State, a: Action)
    requires Good(setting, s) && !(a.StagePage? && a.id in s.workers && s.workers[a.id].pc == Paging)
    ensures var d, t := s.durable, Step(setting, s, a).durable;
            t.staged == d.staged && t.progress.processed == d.progress.processed && t.progress.used == d.progress.used
  {
    hide Repeat, StageStep, SourceOf, EvidenceOf;
  }

  lemma FitsBounds(setting: Setting, d: Durable, page: seq<Thread>, done: bool, reported: nat)
    requires d.progress.cursor <= |setting.anchors|
    ensures Fits(setting, d, page, done, reported) ==>
              && d.progress.processed + |page| <= MAX_UINT64 && d.progress.used.paths + |Mentioned(setting, page)| <= MAX_UINT64
              && d.progress.used.sourceBytes + SourceOf(setting.weight, page) <= MAX_UINT64
              && d.progress.used.evidenceBytes + EvidenceOf(setting.weight, page) <= MAX_UINT64
  {
  }

  /** Over every run no counter wraps. */
  lemma {:induction false} CountersNeverWrap(setting: Setting, s: State, actions: seq<Action>)
    requires Good(setting, s) && Counted(setting, s.durable)
    ensures Counted(setting, Run(setting, s, actions).durable)
    decreases |actions|
  {
    hide Good, Counted, Step;
    if actions != [] {
      StepKeepsGood(setting, s, actions[0]);
      StepKeepsCounted(setting, s, actions[0]);
      CountersNeverWrap(setting, Step(setting, s, actions[0]), actions[1..]);
    }
  }

  /** More rows are staged than were reported, and no worker has taken up the operation. */
  ghost predicate Overfilled(s: State) {
    && s.durable.created && s.durable.progress.processed > s.durable.progress.total > 0
    && forall id :: id in s.workers ==> s.workers[id].pc == Start(false)
  }

  /** Nobody takes up such an operation again. */
  lemma {:induction false} AnOverfilledOperationStays(setting: Setting, s: State, actions: seq<Action>)
    requires Overfilled(s)
    ensures var end := Run(setting, s, actions).durable;
            end.(revision := s.durable.revision) == s.durable
    decreases |actions|
  {
    hide StageStep, DecideStep, CompleteStep;
    if actions != [] {
      AnOverfilledOperationStays(setting, Step(setting, s, actions[0]), actions[1..]);
    }
  }

  // ---------------------------------------------------------------------
  // Without totals
  // ---------------------------------------------------------------------

  /** One anchor, no reported total: staged, crashed, resumed at the empty
      cursor, staged again, completed. */
  function FirstAttempt(): seq<Action> {
    [Launch(0), StartOperation(0, Committed), StagePage(0, 1, true, 0, Committed), Crash]
  }

  function SecondAttempt(): seq<Action> {
    [Resume(1), StartOperation(1, Committed), StagePage(1, 1, true, 0, Committed), Decide(1), Complete(1, Committed)]
  }

  lemma {:induction false} RunConcat(setting: Setting, s: State, first: seq<Action>, second: seq<Action>)
    ensures Run(setting, s, first + second) == Run(setting, Run(setting, s, first), second)
    decreases |first|
  {
    hide Step;
    if first == [] {
      assert first + second == second;
    } else {
      assert (first + second)[1..] == first[1..] + second;
      RunConcat(setting, Step(setting, s, first[0]), first[1..], second);
    }
  }

  /** One anchor that fits a page, and whose bytes could be counted twice. */
  ghost predicate OneAnchor(setting: Setting, anchor: Thread) {
    && setting.anchors == [anchor] && !setting.unique && setting.budget.paths >= 2 && setting.pageLimit >= 1
    && setting.weight(anchor).sourceBytes <= setting.budget.sourceBytes
    && setting.weight(anchor).evidenceBytes <= setting.budget.evidenceBytes
    && 2 * setting.weight(anchor).sourceBytes <= MAX_UINT64 && 2 * setting.weight(anchor).evidenceBytes <= MAX_UINT64
  }

  /** Its page can be staged, also a second time. */
  lemma OneAnchorFits(setting: Setting, anchor: Thread)
    requires OneAnchor(setting, anchor)
    ensures |setting.anchors| == 1 && PageAt(setting, 0, 1) == [anchor]
    ensures PageIsAccepted(setting, NOTHING, 1, true, 0)
    ensures PageIsAccepted(setting, Advance(NOTHING, 1, true, 0, LoadOf(setting, [anchor])), 1, true, 0)
  {
    assert PageAt(setting, 0, 1) == [anchor];
    LoadOfOne(setting, anchor);
  }

  lemma LoadOfOne(setting: Setting, anchor: Thread)
    ensures var w, load := setting.weight(anchor), LoadOf(setting, [anchor]);
            load.paths <= 2 && load.sourceBytes == w.sourceBytes && load.evidenceBytes == w.evidenceBytes
  {
    var w := setting.weight(anchor);
    assert [anchor][..0] == [];
    assert PathsOf(setting.weight, [anchor]) == PathsOf(setting.weight, []) + {w.anchorPath, w.contentPath} == {w.anchorPath, w.contentPath};
    assert SourceOf(setting.weight, [anchor]) == SourceOf(setting.weight, []) + w.sourceBytes;
    assert EvidenceOf(setting.weight, [anchor]) == EvidenceOf(setting.weight, []) + w.evidenceBytes;
    TwoAtMost(w.anchorPath, w.contentPath);
  }

  lemma TwoAtMost(a: Path, b: Path)
    ensures |{a, b}| <= 2
  {
    if a == b { assert {a, b} == {a}; }
  }

  function OnceStaged(setting: Setting, anchor: Thread): Progress { Advance(NOTHING, 1, true, 0, LoadOf(setting, [anchor])) }

  lemma FirstAttemptLeaves(setting: Setting, anchor: Thread, s: State)
    requires Initial(s) && OneAnchor(setting, anchor)
    ensures Run(setting, s, FirstAttempt()) ==
            State(Durable(s.durable.revision + 2, true, OnceStaged(setting, anchor), [anchor], false), map[], 1)
  {
    hide LoadOf, PageIsAccepted, PageAt, Advance;
    OneAnchorFits(setting, anchor);
    var revision := s.durable.revision;
    var s1 := Put(s, 0, Worker(Start(false), revision, NOTHING));
    var s2 := s1.(durable := Durable(revision + 1, true, NOTHING, [], false),
                  workers := s1.workers[0 := Worker(Paging, revision + 1, NOTHING)]);
    assert Step(setting, s, Launch(0)) == s1;
    assert Step(setting, s1, StartOperation(0, Committed)) == s2;
    assert Step(setting, s2, StagePage(0, 1, true, 0, Committed)).durable ==
           Durable(revision + 2, true, OnceStaged(setting, anchor), [anchor], false);
    FinalPageLeaves(setting, anchor, s2);
  }

  lemma FinalPageLeaves(setting: Setting, anchor: Thread, s: State)
    requires 0 in s.workers && s.workers[0] == Worker(Paging, s.durable.revision, NOTHING)
    requires s.durable == Durable(s.durable.revision, true, NOTHING, [], false) && s.laps == 0
    requires !setting.unique && PageIsAccepted(setting, NOTHING, 1, true, 0) && PageAt(setting, 0, 1) == [anchor]
    ensures Step(setting, Step(setting, s, StagePage(0, 1, true, 0, Committed)), Crash) ==
            State(Durable(s.durable.revision + 1, true, OnceStaged(setting, anchor), [anchor], false), map[], 1)
  {
    hide LoadOf, PageIsAccepted, PageAt, Advance;
    NoProgressAtStart();
  }

  lemma NoProgressAtStart()
    ensures NOTHING.cursor == 0
  {
  }

  lemma SecondAttemptCompletes(setting: Setting, anchor: Thread, revision: nat)
    requires OneAnchor(setting, anchor)
    ensures var s := State(Durable(revision, true, OnceStaged(setting, anchor), [anchor], false), map[], 1);
            var end := Run(setting, s, SecondAttempt()).durable;
            end.completed && end.staged == [anchor, anchor]
  {
    hide LoadOf, PageIsAccepted, PageAt;
    OneAnchorFits(setting, anchor);
  }

  lemma WithoutTotalsAnAnchorCanBeStagedTwice(setting: Setting, anchor: Thread, s: State)
    requires Initial(s) && OneAnchor(setting, anchor)
    ensures var end := Run(setting, s, FirstAttempt() + SecondAttempt()).durable;
            end.completed && end.staged == [anchor, anchor]
  {
    hide Run, FirstAttempt, SecondAttempt, Initial, OneAnchor;
    RunConcat(setting, s, FirstAttempt(), SecondAttempt());
    FirstAttemptLeaves(setting, anchor, s);
    SecondAttemptCompletes(setting, anchor, s.durable.revision + 2);
  }

  // ---------------------------------------------------------------------
  // One worker
  // ---------------------------------------------------------------------

  /** A page of the fixed list, and how the journal answers when it is staged. */
  datatype Page = Page(count: nat, done: bool, reported: nat, tx: TxAnswer)

  /** The pages a worker asks for, then its decision and completion; what does not
      apply any more is passed over. */
  function Remaining(pages: seq<Page>, complete: TxAnswer): seq<Action> {
    if pages == [] then [Decide(0), Complete(0, complete)]
    else [StagePage(0, pages[0].count, pages[0].done, pages[0].reported, pages[0].tx)] + Remaining(pages[1..], complete)
  }

  function WorkerActions(resume: bool, start: TxAnswer, pages: seq<Page>, complete: TxAnswer): seq<Action> {
    [if resume then Resume(0) else Launch(0), StartOperation(0, start)] + Remaining(pages, complete)
  }

  lemma RunNext(setting: Setting, s: State, a: Action, rest: seq<Action>)
    ensures Run(setting, s, [a] + rest) == Run(setting, Step(setting, s, a), rest)
  {
    hide Step;
    assert ([a] + rest)[1..] == rest;
  }

  lemma RunTwo(setting: Setting, s: State, a: Action, b: Action)
    ensures Run(setting, s, [a, b]) == Step(setting, Step(setting, s, a), b)
  {
    hide Step;
    RunNext(setting, s, a, [b]);
    RunNext(setting, Step(setting, s, a), b, []);
    assert [a] + [b] == [a, b] && [b] + [] == [b];
  }

  /** Without its worker the rest of the actions do nothing. */
  lemma {:induction false} WithoutWorker(setting: Setting, s: State, pages: seq<Page>, complete: TxAnswer)
    requires 0 !in s.workers
    ensures Run(setting, s, Remaining(pages, complete)) == s
    decreases |pages|
  {
    if pages == [] {
      RunTwo(setting, s, Decide(0), Complete(0, complete));
    } else {
      RunNext(setting, s, StagePage(0, pages[0].count, pages[0].done, pages[0].reported, pages[0].tx),
              Remaining(pages[1..], complete));
      WithoutWorker(setting, s, pages[1..], complete);
    }
  }

  /** Behind the final page no further page is staged. */
  lemma {:induction false} BehindTheFinalPage(setting: Setting, s: State, pages: seq<Page>, complete: TxAnswer)
    requires 0 in s.workers && s.workers[0].pc == Deciding
    ensures Run(setting, s, Remaining(pages, complete)) == Step(setting, Step(setting, s, Decide(0)), Complete(0, complete))
    decreases |pages|
  {
    if pages == [] {
      RunTwo(setting, s, Decide(0), Complete(0, complete));
    } else {
      RunNext(setting, s, StagePage(0, pages[0].count, pages[0].done, pages[0].reported, pages[0].tx),
              Remaining(pages[1..], complete));
      BehindTheFinalPage(setting, s, pages[1..], complete);
    }
  }

  lemma Beginning(setting: Setting, s: State, resume: bool, start: TxAnswer, pages: seq<Page>, complete: TxAnswer)
    ensures var m := Step(setting, Step(setting, s, if resume then Resume(0) else Launch(0)), StartOperation(0, start));
            Run(setting, s, WorkerActions(resume, start, pages, complete)) == Run(setting, m, Remaining(pages, complete))
  {
    hide Step;
    var first := if resume then Resume(0) else Launch(0);
    assert WorkerActions(resume, start, pages, complete) ==
           [first] + ([StartOperation(0, start)] + Remaining(pages, complete));
    RunNext(setting, s, first, [StartOperation(0, start)] + Remaining(pages, complete));
    RunNext(setting, Step(setting, s, first), StartOperation(0, start), Remaining(pages, complete));
  }

  lemma StageOne(setting: Setting, s: State, pages: seq<Page>, i: nat, complete: TxAnswer)
    requires i < |pages| && 0 in s.workers && s.workers[0].pc == Paging
    ensures var m := StageStep(setting, s, 0, s.workers[0], pages[i].count, pages[i].done, pages[i].reported, pages[i].tx);
            Run(setting, s, Remaining(pages[i..], complete)) == Run(setting, m, Remaining(pages[i + 1..], complete))
  {
    hide StageStep;
    assert pages[i..][1..] == pages[i + 1..];
    RunNext(setting, s, StagePage(0, pages[i].count, pages[i].done, pages[i].reported, pages[i].tx),
            Remaining(pages[i + 1..], complete));
  }

  lemma CancelledWorker(setting: Setting, s: State, complete: TxAnswer)
    requires 0 in s.workers && s.workers[0].pc == Paging
    ensures Run(setting, s, Remaining([], complete)) == s
  {
    RunTwo(setting, s, Decide(0), Complete(0, complete));
  }

  /** The journalled operation and the worker that fills it. */
  class Reconciliation {
    const setting: Setting
    var durable: Durable
    ghost var laps: nat

    constructor (setting: Setting, revision: nat)
      ensures this.setting == setting && Initial(View())
    {
      this.setting := setting;
      durable := Durable(revision, false, NOTHING, [], false);
      laps := 0;
    }

    ghost function View(): State
      reads this
    {
      State(durable, map[], laps)
    }

    /** The view with one worker at work. */
    ghost function Working(pc: Pc, guard: nat, progress: Progress): State
      reads this
    {
      State(durable, map[0 := Worker(pc, guard, progress)], laps)
    }

    /** Takes up the operation and journals its start. */
    method Begin(resume: bool, start: TxAnswer) returns (begun: bool, guard: nat, progress: Progress)
      modifies this`durable
      ensures var m := Step(setting, Step(setting, old(View()), if resume then Resume(0) else Launch(0)), StartOperation(0, start));
              if begun then m == Working(Paging, guard, progress) && guard == durable.revision else m == View()
      ensures durable.completed == old(durable.completed)
      ensures old(durable.created && durable.completed) ==> !begun
    {
      guard := durable.revision;
      progress := if resume then durable.progress else NOTHING;
      if resume && (!durable.created || durable.completed || !Resumable(progress)) {
        return false, guard, progress;
      }
      if resume != durable.created || start == Refused {
        return false, guard, progress;
      }
      durable := durable.(created := true, progress := progress, revision := guard + 1);
      return start == Committed, guard + 1, progress;
    }

    /** Weighs a page: nothing if it is over budget or its bytes would wrap. */
    method PageBudget(page: seq<Thread>) returns (load: Option<Load>)
      ensures load == if WithinBudget(setting, LoadOf(setting, page)) then Some(LoadOf(setting, page)) else None
    {
      var paths: set<Path>, source, evidence := {}, 0, 0;
      for i := 0 to |page|
        invariant paths == PathsOf(setting.weight, page[..i])
        invariant source == SourceOf(setting.weight, page[..i]) <= MAX_UINT64
        invariant evidence == EvidenceOf(setting.weight, page[..i]) <= MAX_UINT64
      {
        var item := setting.weight(page[i]);
        assert page[..i + 1][..i] == page[..i];
        paths := paths + {item.anchorPath, item.contentPath};
        if WouldOverflow(source, item.sourceBytes) || WouldOverflow(evidence, item.evidenceBytes) {
          PrefixesWeighLess(page, i + 1);
          return None;
        }
        source, evidence := source + item.sourceBytes, evidence + item.evidenceBytes;
      }
      assert page[..|page|] == page;
      if |paths| > setting.budget.paths || source > setting.budget.sourceBytes || evidence > setting.budget.evidenceBytes {
        return None;
      }
      return Some(Load(|paths|, source, evidence));
    }

    lemma PrefixesWeighLess(page: seq<Thread>, i: nat)
      requires i <= |page|
      ensures SourceOf(setting.weight, page[..i]) <= SourceOf(setting.weight, page)
      ensures EvidenceOf(setting.weight, page[..i]) <= EvidenceOf(setting.weight, page)
    {
      BytesAdd(setting.weight, page[..i], page[i..]);
      assert page[..i] + page[i..] == page;
    }

    /** Stages one page under the fence, with the progress it makes. */
    method Stage(guard: nat, progress: Progress, page: Page) returns (staged: bool, newGuard: nat, newProgress: Progress)
      requires guard == durable.revision
      modifies this
      ensures var m := StageStep(setting, old(Working(Paging, guard, progress)), 0, Worker(Paging, guard, progress),
                                 page.count, page.done, page.reported, page.tx);
              if staged then
                m == Working(if page.done then Deciding else Paging, newGuard, newProgress) && newGuard == durable.revision
              else m == View()
      ensures durable.completed == old(durable.completed)
    {
      newGuard, newProgress := guard, progress;
      hide LoadOf;
      if progress.cursor + page.count > |setting.anchors| || (page.done && progress.cursor + page.count != |setting.anchors|) {
        return false, guard, progress;
      }
      if page.count > setting.pageLimit || (!page.done && page.count == 0) || (page.reported != 0 && page.reported < page.count) {
        return false, guard, progress;
      }
      if progress.total != 0 && page.reported != 0 && progress.total != page.reported {
        return false, guard, progress;
      }
      var threads := setting.anchors[progress.cursor..progress.cursor + page.count];
      var load := PageBudget(threads);
      if load.None? || WouldOverflow(progress.processed, page.count) || Overflows(progress.used, load.value) {
        return false, guard, progress;
      }
      newProgress := Advance(progress, page.count, page.done, page.reported, load.value);
      if (setting.unique && Duplicates(durable.staged, threads)) || page.tx == Refused {
        return false, guard, progress;
      }
      durable := durable.(progress := newProgress, staged := durable.staged + threads, revision := guard + 1);
      if page.done {
        laps := laps + 1;
      }
      return page.tx == Committed, guard + 1, newProgress;
    }

    /** Behind the final page: completes only when every counted anchor is there. */
    method Finish(guard: nat, progress: Progress, complete: TxAnswer) returns (completed: bool)
      requires guard == durable.revision
      modifies this`durable
      ensures View() == Step(setting, Step(setting, old(Working(Deciding, guard, progress)), Decide(0)), Complete(0, complete))
      ensures completed ==> durable.completed
      ensures !old(durable.completed) ==> (completed <==> durable.completed && complete == Committed)
    {
      var settled := Settle(progress);
      if settled.processed != settled.total || complete == Refused {
        return false;
      }
      durable := durable.(revision := guard + 1, progress := settled.(cursor := 0), completed := true);
      return complete == Committed;
    }

    /** One worker from its start to the point where it returns; running out of
        pages is its cancellation. It leaves the journal as the machine does, and
        reports completion exactly if it completed the operation and heard so. */
    method Work(resume: bool, start: TxAnswer, pages: seq<Page>, complete: TxAnswer) returns (completed: bool)
      modifies this
      ensures durable == Run(setting, old(View()), WorkerActions(resume, start, pages, complete)).durable
      ensures laps == Run(setting, old(View()), WorkerActions(resume, start, pages, complete)).laps
      ensures completed ==> durable.completed
      ensures !old(durable.completed) ==> (completed <==> durable.completed && complete == Committed)
      ensures old(durable.created && durable.completed) ==> !completed
    {
      hide Run, StageStep, WorkerActions, Remaining;
      ghost var end := Run(setting, View(), WorkerActions(resume, start, pages, complete));
      Beginning(setting, View(), resume, start, pages, complete);
      var begun, guard, progress := Begin(resume, start);
      if !begun {
        WithoutWorker(setting, View(), pages, complete);
        return false;
      }
      var i, done := 0, false;
      while i < |pages| && !done
        invariant i <= |pages| && guard == durable.revision && durable.completed == old(durable.completed)
        invariant end == Run(setting, Working(if done then Deciding else Paging, guard, progress), Remaining(pages[i..], complete))
      {
        StageOne(setting, Working(Paging, guard, progress), pages, i, complete);
        done := pages[i].done;
        var staged;
        staged, guard, progress := Stage(guard, progress, pages[i]);
        i := i + 1;
        if !staged {
          WithoutWorker(setting, View(), pages[i..], complete);
          return false;
        }
      }
      if !done {
        CancelledWorker(setting, Working(Paging, guard, progress), complete);
        assert pages[i..] == [];
        return false;
      }
      BehindTheFinalPage(setting, Working(Deciding, guard, progress), pages[i..], complete);
      completed := Finish(guard, progress, complete);
    }
  }
}
