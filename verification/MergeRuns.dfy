/** Concurrent merge runs over the duplicate_groups table (internal/services/merge/orchestrator.go).
  *
  * Every repository call is one atomic step.  Any number of runs interleave with each other and with
  * re-detection and status changes.  Store, snapshot and executor outcomes are nondeterministic.
  */
module MergeRuns {
  import opened Scorer
  import opened DuplicateTable

  // ----- runs ------------------------------------------------------------------------------------

  datatype Request = Request(merchant: int, group: Option<int>, primary: int, secondaries: seq<int>, plan: string)

  function AllIds(req: Request): seq<int> {
    [req.primary] + req.secondaries
  }

  /** The billing gate for snapshots. */
  predicate SnapshotsEnabled(req: Request) {
    req.plan == "basic" || req.plan == "pro"
  }

  datatype Outcome =
    | Succeeded | NotFound | AlreadyMerged | CustomersMissing | Rejected | SnapshotFailed | ExecutorFailed | StoreFailed

  datatype Pc = Begin | Loaded | Fetched | Validated | Snapshotted | Executed | Recorded | Marked | Finished(outcome: Outcome)

  datatype Event =
    | GroupLoaded(status: Status)
    | SnapshotTaken(ids: seq<int>)
    | ExecutorCalled(primary: int, secondaries: seq<int>, ok: bool)
    | RecordWritten
    | GroupMarked

  datatype Run = Run(req: Request, pc: Pc, history: seq<Event>)

  /** `used` holds every row id ever issued. */
  datatype State = State(table: Table, used: set<int>, runs: map<int, Run>)

  datatype Action =
    | Start(run: int, req: Request)
    | Load(run: int, ok: bool)
    | Fetch(run: int, cached: set<int>)
    | Validate(run: int, ok: bool)
    | Snapshot(run: int, ok: bool)
    | Execute(run: int, ok: bool)
    | Record(run: int, ok: bool)
    | Mark(run: int, ok: bool)
    | Confirm(run: int)
    | Environment(op: Operation, newId: int)

  // ----- one run's step, in the order of the source ------------------------------------------------

  function Ended(run: Run, outcome: Outcome): Run {
    run.(pc := Finished(outcome))
  }

  function Noted(run: Run, pc: Pc, e: Event): Run {
    run.(pc := pc, history := run.history + [e])
  }

  function AfterLoad(run: Run, t: Table, ok: bool): Run {
    match run.req.group
    case None => run.(pc := Loaded)
    case Some(g) =>
      if !ok then Ended(run, StoreFailed)
      else if g !in t || t[g].merchant != run.req.merchant then Ended(run, NotFound)
      else if t[g].status == Merged then Noted(run, Finished(AlreadyMerged), GroupLoaded(Merged))
      else Noted(run, Loaded, GroupLoaded(t[g].status))
  }

  function AfterFetch(run: Run, cached: set<int>): Run {
    if forall id :: id in AllIds(run.req) ==> id in cached then run.(pc := Fetched) else Ended(run, CustomersMissing)
  }

  function AfterSnapshot(run: Run, ok: bool): Run {
    if !SnapshotsEnabled(run.req) then run.(pc := Snapshotted)
    else if ok then Noted(run, Snapshotted, SnapshotTaken(AllIds(run.req)))
    else Ended(run, SnapshotFailed)
  }

  function AfterExecute(run: Run, ok: bool): Run {
    Noted(run, if ok then Executed else Finished(ExecutorFailed), ExecutorCalled(run.req.primary, run.req.secondaries, ok))
  }

  function AfterRecord(run: Run, ok: bool): Run {
    if ok then Noted(run, Recorded, RecordWritten) else run.(pc := Recorded)
  }

  function AfterMark(run: Run, t: Table, ok: bool): Run {
    match run.req.group
    case None => Ended(run, Succeeded)
    case Some(g) =>
      if !ok then Ended(run, StoreFailed)
      else if g in t && t[g].status != Merged then Noted(run, Marked, GroupMarked)
      else Ended(run, AlreadyMerged)
  }

  function TableAfterMark(run: Run, t: Table, ok: bool): Table {
    if run.req.group.Some? && ok then Transitioned(t, run.req.group.value) else t
  }

  predicate At(s: State, r: int, pc: Pc) {
    r in s.runs && s.runs[r].pc == pc
  }

  /** Where a run must be for the action to be its next call. */
  function PcBefore(a: Action): Pc
    requires !a.Start? && !a.Environment?
  {
    match a
    case Load(_, _) => Begin
    case Fetch(_, _) => Loaded
    case Validate(_, _) => Fetched
    case Snapshot(_, _) => Validated
    case Execute(_, _) => Snapshotted
    case Record(_, _) => Executed
    case Mark(_, _) => Recorded
    case Confirm(_) => Marked
  }

  function NextRun(run: Run, a: Action, t: Table): Run
    requires !a.Start? && !a.Environment?
  {
    match a
    case Load(_, ok) => AfterLoad(run, t, ok)
    case Fetch(_, cached) => AfterFetch(run, cached)
    case Validate(_, ok) => if ok then run.(pc := Validated) else Ended(run, Rejected)
    case Snapshot(_, ok) => AfterSnapshot(run, ok)
    case Execute(_, ok) => AfterExecute(run, ok)
    case Record(_, ok) => AfterRecord(run, ok)
    case Mark(_, ok) => AfterMark(run, t, ok)
    case Confirm(_) => Ended(run, Succeeded)
  }

  /** Only the transition touches the table. */
  function NextTable(run: Run, a: Action, t: Table): Table {
    if a.Mark? then TableAfterMark(run, t, a.ok) else t
  }

  ghost predicate Step(s: State, a: Action, s': State) {
    match a
    case Start(r, req) => r !in s.runs && s' == s.(runs := s.runs[r := Run(req, Begin, [])])
    case Environment(op, newId) =>
      !op.TryMerge? && newId !in s.used && s'.runs == s.runs && s'.used == s.used + {newId} &&
      EnvironmentEffect(s.table, op, newId, s'.table)
    case _ =>
      At(s, a.run, PcBefore(a)) &&
      s' == State(NextTable(s.runs[a.run], a, s.table), s.used, s.runs[a.run := NextRun(s.runs[a.run], a, s.table)])
  }

  ghost predicate EnvironmentEffect(t: Table, op: Operation, newId: int, t': Table) {
    match op
    case CreateGroup(m, h, f) => Upserted(t, m, h, f, newId, t')
    case DeletePending(m) => t' == WithoutPending(t, m)
    case TryMerge(_) => false
    case SetStatus(id, status) => t' == WithStatus(t, id, status)
  }

  ghost predicate Initial(s: State) {
    s.runs == map[] && s.table.Keys <= s.used
  }

  /** Consecutive steps: `ss[k]` is the state before action `k`. */
  ghost predicate Steps(ss: seq<State>, acts: seq<Action>) {
    && |ss| == |acts| + 1
    && forall k :: 0 <= k < |acts| ==> Step(ss[k], acts[k], ss[k + 1])
  }

  /** An interleaving of runs and environment. */
  ghost predicate Execution(ss: seq<State>, acts: seq<Action>) {
    Steps(ss, acts) && Initial(ss[0])
  }

  /** The action rewrites the status of merged row `g`. */
  predicate Unmerges(s: State, a: Action, g: int) {
    && a.Environment? && a.op.SetStatus? && a.op.id == g
    && g in s.table && s.table[g].status == Merged && a.op.status != Merged
  }

  // ----- what a history can look like ------------------------------------------------------------

  function LoadLength(req: Request): nat {
    if req.group.Some? then 1 else 0
  }

  function SnapshotLength(req: Request): nat {
    if SnapshotsEnabled(req) then 1 else 0
  }

  predicate LoadedHistory(req: Request, h: seq<Event>) {
    |h| == LoadLength(req) && (|h| == 1 ==> h[0].GroupLoaded? && h[0].status != Merged)
  }

  predicate ReadyHistory(req: Request, h: seq<Event>) {
    && |h| == LoadLength(req) + SnapshotLength(req)
    && LoadedHistory(req, h[..LoadLength(req)])
    && (SnapshotsEnabled(req) ==> h[|h| - 1] == SnapshotTaken(AllIds(req)))
  }

  predicate CalledHistory(req: Request, h: seq<Event>, ok: bool) {
    && |h| > 0
    && ReadyHistory(req, h[..|h| - 1])
    && h[|h| - 1] == ExecutorCalled(req.primary, req.secondaries, ok)
  }

  predicate RecordedHistory(req: Request, h: seq<Event>) {
    || CalledHistory(req, h, true)
    || (|h| > 0 && h[|h| - 1] == RecordWritten && CalledHistory(req, h[..|h| - 1], true))
  }

  predicate MarkedHistory(req: Request, h: seq<Event>) {
    req.group.Some? && |h| > 0 && h[|h| - 1] == GroupMarked && RecordedHistory(req, h[..|h| - 1])
  }

  predicate Fits(run: Run) {
    var (req, h) := (run.req, run.history);
    match run.pc
    case Begin => h == []
    case Loaded => LoadedHistory(req, h)
    case Fetched => LoadedHistory(req, h)
    case Validated => LoadedHistory(req, h)
    case Snapshotted => ReadyHistory(req, h)
    case Executed => CalledHistory(req, h, true)
    case Recorded => RecordedHistory(req, h)
    case Marked => MarkedHistory(req, h)
    case Finished(o) =>
      match o
      case Succeeded => if req.group.None? then RecordedHistory(req, h) else MarkedHistory(req, h)
      case NotFound => h == []
      case AlreadyMerged => h == [GroupLoaded(Merged)] || RecordedHistory(req, h)
      case CustomersMissing => LoadedHistory(req, h)
      case Rejected => LoadedHistory(req, h)
      case SnapshotFailed => LoadedHistory(req, h)
      case ExecutorFailed => CalledHistory(req, h, false)
      case StoreFailed => h == [] || RecordedHistory(req, h)
  }

  lemma RunStepFits(run: Run, t: Table, cached: set<int>, ok: bool)
    requires Fits(run)
    ensures run.pc == Begin ==> Fits(AfterLoad(run, t, ok))
    ensures run.pc == Loaded ==> Fits(AfterFetch(run, cached))
    ensures run.pc == Fetched ==> Fits(run.(pc := Validated)) && Fits(Ended(run, Rejected))
    ensures run.pc == Marked ==> Fits(Ended(run, Succeeded))
  {
  }

  lemma Prefix(h: seq<Event>, e: Event)
    ensures (h + [e])[..|h + [e]| - 1] == h && (h + [e])[|h + [e]| - 1] == e
  {
  }

  lemma SnapshotFits(run: Run, ok: bool)
    requires Fits(run) && run.pc == Validated
    ensures Fits(AfterSnapshot(run, ok))
  {
    var h, e := run.history, SnapshotTaken(AllIds(run.req));
    assert h[..|h|] == h && (h + [e])[..|h|] == h;
  }

  lemma ExecuteFits(run: Run, ok: bool)
    requires Fits(run) && run.pc == Snapshotted
    ensures Fits(AfterExecute(run, ok))
  {
    hide ReadyHistory, AllIds;
    Prefix(run.history, ExecutorCalled(run.req.primary, run.req.secondaries, ok));
  }

  lemma RecordFits(run: Run, ok: bool)
    requires Fits(run) && run.pc == Executed
    ensures Fits(AfterRecord(run, ok))
  {
    hide CalledHistory;
    Prefix(run.history, RecordWritten);
  }

  lemma MarkFits(run: Run, t: Table, ok: bool)
    requires Fits(run) && run.pc == Recorded
    ensures Fits(AfterMark(run, t, ok))
  {
    hide RecordedHistory;
    Prefix(run.history, GroupMarked);
  }

  // ----- the invariant -----------------------------------------------------------------------------

  /** The run has made the transition of group `g`. */
  predicate Won(run: Run, g: int) {
    run.req.group == Some(g) && (run.pc == Marked || run.pc == Finished(Succeeded))
  }

  predicate IsMerged(t: Table, g: int) {
    g in t && t[g].status == Merged
  }

  ghost predicate RunsFit(s: State) {
    && s.table.Keys <= s.used
    && forall r :: r in s.runs ==> Fits(s.runs[r])
  }

  ghost predicate OneWinner(s: State, g: int) {
    && (forall r :: r in s.runs && Won(s.runs[r], g) ==> IsMerged(s.table, g))
    && (forall r, q :: r in s.runs && q in s.runs && Won(s.runs[r], g) && Won(s.runs[q], g) ==> r == q)
  }

  lemma StepKeepsRunsFit(s: State, a: Action, s': State)
    requires RunsFit(s) && Step(s, a, s')
    ensures RunsFit(s')
  {
    hide Fits, NextRun, NextTable;
    match a
    case Start(r, req) => FreshRunFits(req);
    case Environment(op, newId) => EnvironmentKeys(s.table, op, newId, s'.table);
    case _ =>
      NextRunFits(s.runs[a.run], a, s.table);
      NextTableKeys(s.runs[a.run], a, s.table);
  }

  lemma NextTableKeys(run: Run, a: Action, t: Table)
    ensures NextTable(run, a, t).Keys == t.Keys
  {
  }

  lemma NextRunFits(run: Run, a: Action, t: Table)
    requires !a.Start? && !a.Environment? && run.pc == PcBefore(a) && Fits(run)
    ensures Fits(NextRun(run, a, t))
  {
    hide Fits, AfterLoad, AfterFetch, AfterSnapshot, AfterExecute, AfterRecord, AfterMark, Ended;
    match a
    case Load(r, ok) => RunStepFits(run, t, {}, ok);
    case Fetch(r, cached) => RunStepFits(run, t, cached, true);
    case Validate(r, ok) => RunStepFits(run, t, {}, ok);
    case Snapshot(r, ok) => SnapshotFits(run, ok);
    case Execute(r, ok) => ExecuteFits(run, ok);
    case Record(r, ok) => RecordFits(run, ok);
    case Mark(r, ok) => MarkFits(run, t, ok);
    case Confirm(r) => RunStepFits(run, t, {}, true);
  }

  lemma FreshRunFits(req: Request)
    ensures Fits(Run(req, Begin, []))
  {
  }

  lemma EnvironmentKeys(t: Table, op: Operation, newId: int, t': Table)
    requires EnvironmentEffect(t, op, newId, t')
    ensures t'.Keys <= t.Keys + {newId}
  {
  }

  lemma StepKeepsOneWinner(s: State, a: Action, s': State, g: int)
    requires RunsFit(s) && OneWinner(s, g) && Step(s, a, s') && !Unmerges(s, a, g)
    ensures OneWinner(s', g)
  {
    StepKeepsMerged(s, a, s', g);
    hide Fits, EnvironmentEffect, AllIds, OneWinner, IsMerged;
    if a.Environment? {
      WinnersCarryOver(s, s', g);
    } else if a.Mark? {
      MarkKeepsOneWinner(s, a.run, a.ok, s', g);
    } else {
      OwnStepCarriesOver(s, a, s', g);
    }
  }

  lemma OwnStepCarriesOver(s: State, a: Action, s': State, g: int)
    requires OneWinner(s, g) && Step(s, a, s') && !a.Environment? && !a.Mark?
    requires IsMerged(s.table, g) ==> IsMerged(s'.table, g)
    ensures OneWinner(s', g)
  {
    hide AllIds, OneWinner, EnvironmentEffect, NextRun, NextTable, Won, IsMerged;
    if a.Start? {
      assert !Won(s'.runs[a.run], g) by {
        FreshRunHasNotWon(a.req, g);
      }
    } else {
      QuietRunWinsNothing(s.runs[a.run], a, s.table, g);
    }
    WinnersCarryOver(s, s', g);
  }

  lemma FreshRunHasNotWon(req: Request, g: int)
    ensures !Won(Run(req, Begin, []), g)
  {
  }

  lemma QuietRunWinsNothing(run: Run, a: Action, t: Table, g: int)
    requires !a.Start? && !a.Environment? && !a.Mark? && run.pc == PcBefore(a)
    ensures NextTable(run, a, t) == t
    ensures NextRun(run, a, t).req == run.req
    ensures Won(NextRun(run, a, t), g) ==> Won(run, g)
  {
  }

  /** No new winner and the group not un-merged. */
  lemma WinnersCarryOver(s: State, s': State, g: int)
    requires OneWinner(s, g)
    requires forall r :: r in s'.runs && Won(s'.runs[r], g) ==> r in s.runs && Won(s.runs[r], g)
    requires IsMerged(s.table, g) ==> IsMerged(s'.table, g)
    ensures OneWinner(s', g)
  {
  }

  lemma MarkKeepsOneWinner(s: State, r: int, ok: bool, s': State, g: int)
    requires OneWinner(s, g) && Step(s, Mark(r, ok), s')
    requires IsMerged(s.table, g) ==> IsMerged(s'.table, g)
    ensures OneWinner(s', g)
  {
    var run := s.runs[r];
    if run.req.group == Some(g) && ok && g in s.table && s.table[g].status != Merged {
      assert forall q :: q in s.runs ==> !Won(s.runs[q], g);
    } else {
      assert !Won(s'.runs[r], g);
      WinnersCarryOver(s, s', g);
    }
  }

  /** A merged row stays merged under every step but an un-merge of it. */
  lemma StepKeepsMerged(s: State, a: Action, s': State, g: int)
    requires s.table.Keys <= s.used && Step(s, a, s') && !Unmerges(s, a, g)
    ensures IsMerged(s.table, g) ==> IsMerged(s'.table, g)
    ensures s'.table.Keys <= s'.used
  {
    hide Fits, AllIds, NextRun;
    if a.Environment? {
      EnvironmentKeepsMerged(s.table, a.op, a.newId, s'.table, g);
      EnvironmentKeys(s.table, a.op, a.newId, s'.table);
    } else if !a.Start? {
      NextTableKeys(s.runs[a.run], a, s.table);
    }
  }

  lemma EnvironmentKeepsMerged(t: Table, op: Operation, newId: int, t': Table, g: int)
    requires EnvironmentEffect(t, op, newId, t') && newId !in t
    requires !(op.SetStatus? && op.id == g && IsMerged(t, g) && op.status != Merged)
    ensures IsMerged(t, g) ==> IsMerged(t', g)
  {
    if op.CreateGroup? {
      UpsertIsGentle(t, op.merchant, op.hash, op.finding, newId, t');
    }
  }

  lemma {:induction false} ReachableRunsFit(ss: seq<State>, acts: seq<Action>, k: nat)
    requires Execution(ss, acts) && k < |ss|
    ensures RunsFit(ss[k])
  {
    hide Step, Fits;
    if k > 0 {
      var i := k - 1;
      ReachableRunsFit(ss, acts, i);
      assert Step(ss[i], acts[i], ss[i + 1]);
      StepKeepsRunsFit(ss[i], acts[i], ss[i + 1]);
    }
  }

  lemma {:induction false} ReachableOneWinner(ss: seq<State>, acts: seq<Action>, k: nat, g: int)
    requires Execution(ss, acts) && k < |ss|
    requires forall i :: 0 <= i < k ==> !Unmerges(ss[i], acts[i], g)
    ensures OneWinner(ss[k], g)
  {
    hide Step, Fits, Unmerges;
    if k > 0 {
      var i := k - 1;
      ReachableOneWinner(ss, acts, i, g);
      ReachableRunsFit(ss, acts, i);
      assert Step(ss[i], acts[i], ss[i + 1]);
      StepKeepsOneWinner(ss[i], acts[i], ss[i + 1], g);
    }
  }

  // ----- theorems over every interleaving ------------------------------------------------------------

  /** Unless its merged row is rewritten, at most one run on a group ever returns success, and from then
      on the group is merged; what happens to other rows does not matter. */
  lemma AtMostOneSuccess(ss: seq<State>, acts: seq<Action>, k: nat, g: int, r: int, q: int)
    requires Execution(ss, acts) && k < |ss|
    requires forall i :: 0 <= i < k ==> !Unmerges(ss[i], acts[i], g)
    requires At(ss[k], r, Finished(Succeeded)) && ss[k].runs[r].req.group == Some(g)
    ensures At(ss[k], q, Finished(Succeeded)) && ss[k].runs[q].req.group == Some(g) ==> r == q
    ensures g in ss[k].table && ss[k].table[g].status == Merged
  {
    hide Step, Fits, Unmerges;
    ReachableOneWinner(ss, acts, k, g);
  }

  predicate IsPreparation(e: Event) {
    (e.GroupLoaded? && e.status != Merged) || e.SnapshotTaken?
  }

  predicate IsAftermath(e: Event) {
    e == RecordWritten || e == GroupMarked
  }

  /** The history of a run that called its executor, at position `c`. */
  predicate CalledAt(run: Run, c: nat) {
    var (req, h) := (run.req, run.history);
    && c < |h|
    && h[c].ExecutorCalled? && h[c].primary == req.primary && h[c].secondaries == req.secondaries
    && (if req.plan == "basic" || req.plan == "pro" then
          c > 0 && h[c - 1] == SnapshotTaken([req.primary] + req.secondaries)
        else forall i :: 0 <= i < c ==> !h[i].SnapshotTaken?)
    && (forall i :: 0 <= i < c ==> IsPreparation(h[i]))
    && (forall i :: c < i < |h| ==> IsAftermath(h[i]))
    && (!h[c].ok ==> c == |h| - 1 && run.pc == Finished(ExecutorFailed))
  }

  /** The history of a run that did not call its executor. */
  predicate NeverCalled(run: Run) {
    run.history == [GroupLoaded(Merged)] || forall i :: 0 <= i < |run.history| ==> IsPreparation(run.history[i])
  }

  /** In every interleaving a run either never calls its executor, or calls it once, for its own
      request, directly after the snapshot of the primary and all secondaries on a paid plan; all it
      did before is load a group that was not merged and take that snapshot, on other plans it takes none, all it does after a
      successful call is write its record and mark its group, and a failed call is its last event. */
  lemma EveryRunIsDisciplined(ss: seq<State>, acts: seq<Action>, k: nat, r: int)
    requires Execution(ss, acts) && k < |ss| && r in ss[k].runs
    ensures NeverCalled(ss[k].runs[r]) || exists c :: CalledAt(ss[k].runs[r], c)
  {
    hide Step, Fits, NeverCalled, CalledAt;
    ReachableRunsFit(ss, acts, k);
    FitIsDisciplined(ss[k].runs[r]);
  }

  lemma FitIsDisciplined(run: Run)
    requires Fits(run)
    ensures NeverCalled(run) || exists c :: CalledAt(run, c)
  {
    hide CalledHistory, LoadedHistory, ReadyHistory, CalledAt, NeverCalled, AllIds;
    var (req, h) := (run.req, run.history);
    if LoadedHistory(req, h) || ReadyHistory(req, h) || h == [] || h == [GroupLoaded(Merged)] {
      QuietIsNeverCalled(run);
    } else if CalledHistory(req, h, false) && run.pc == Finished(ExecutorFailed) {
      CalledShape(run, h, false);
    } else if CalledHistory(req, h, true) {
      CalledShape(run, h, true);
    } else if RecordedHistory(req, h) {
      CalledShape(run, h[..|h| - 1], true);
    } else {
      var rec := h[..|h| - 1];
      CalledShape(run, if CalledHistory(req, rec, true) then rec else rec[..|rec| - 1], true);
    }
  }

  lemma QuietIsNeverCalled(run: Run)
    requires var (req, h) := (run.req, run.history);
             LoadedHistory(req, h) || ReadyHistory(req, h) || h == [] || h == [GroupLoaded(Merged)]
    ensures NeverCalled(run)
  {
    var (req, h) := (run.req, run.history);
    if ReadyHistory(req, h) {
      assert forall i :: 0 <= i < LoadLength(req) ==> h[i] == h[..LoadLength(req)][i];
    }
  }

  lemma CalledShape(run: Run, called: seq<Event>, ok: bool)
    requires CalledHistory(run.req, called, ok)
    requires called <= run.history && forall i :: |called| <= i < |run.history| ==> IsAftermath(run.history[i])
    requires !ok ==> called == run.history && run.pc == Finished(ExecutorFailed)
    ensures exists c :: CalledAt(run, c)
  {
    hide CalledHistory, IsPreparation, IsAftermath;
    CalledParts(run.req, called, ok);
    assert forall i :: 0 <= i < |called| ==> run.history[i] == called[i];
    assert CalledAt(run, |called| - 1);
  }

  lemma CalledParts(req: Request, called: seq<Event>, ok: bool)
    requires CalledHistory(req, called, ok)
    ensures var c := |called| - 1;
            && c >= 0
            && called[c] == ExecutorCalled(req.primary, req.secondaries, ok)
            && (forall i :: 0 <= i < c ==> IsPreparation(called[i]))
            && (SnapshotsEnabled(req) ==> c > 0 && called[c - 1] == SnapshotTaken(AllIds(req)))
            && (!SnapshotsEnabled(req) ==> forall i :: 0 <= i < c ==> !called[i].SnapshotTaken?)
  {
    var ready := called[..|called| - 1];
    var n := LoadLength(req);
    forall i | 0 <= i < |ready|
      ensures IsPreparation(ready[i])
      ensures i < n ==> ready[i].GroupLoaded?
    {
      if i < n {
        assert ready[i] == ready[..n][i];
      }
    }
    assert forall i :: 0 <= i < |ready| ==> ready[i] == called[i];
  }

  lemma {:induction false} GroupStaysMerged(ss: seq<State>, acts: seq<Action>, i: nat, k: nat, g: int)
    requires Execution(ss, acts) && i <= k < |ss| && IsMerged(ss[i].table, g)
    requires forall m :: i <= m < k ==> !Unmerges(ss[m], acts[m], g)
    ensures IsMerged(ss[k].table, g)
  {
    hide Step, Fits, Unmerges;
    if i < k {
      var m := k - 1;
      GroupStaysMerged(ss, acts, i, m, g);
      ReachableRunsFit(ss, acts, m);
      assert Step(ss[m], acts[m], ss[m + 1]);
      StepKeepsMerged(ss[m], acts[m], ss[m + 1], g);
    }
  }

  lemma {:induction false} FinishedStays(ss: seq<State>, acts: seq<Action>, i: nat, k: nat, r: int)
    requires Execution(ss, acts) && i <= k < |ss| && r in ss[i].runs && ss[i].runs[r].pc.Finished?
    ensures r in ss[k].runs && ss[k].runs[r] == ss[i].runs[r]
  {
    hide Step;
    if i < k {
      var m := k - 1;
      FinishedStays(ss, acts, i, m, r);
      assert Step(ss[m], acts[m], ss[m + 1]);
      FinishedStep(ss[m], acts[m], ss[m + 1], r);
    }
  }

  lemma FinishedStep(s: State, a: Action, s': State, r: int)
    requires Step(s, a, s') && r in s.runs && s.runs[r].pc.Finished?
    ensures r in s'.runs && s'.runs[r] == s.runs[r]
  {
    hide NextRun, NextTable, EnvironmentEffect;
  }

  /** A run that loads its group at any time after it was merged, and not un-merged since, does nothing
      further: whatever happens later, it never calls its executor, takes no snapshot and writes no record. */
  lemma MergedGroupStopsRun(ss: seq<State>, acts: seq<Action>, i: nat, l: nat, k: nat, g: int, r: int, ok: bool)
    requires Execution(ss, acts) && i <= l < k < |ss| && IsMerged(ss[i].table, g)
    requires forall m :: i <= m < l ==> !Unmerges(ss[m], acts[m], g)
    requires acts[l] == Load(r, ok) && r in ss[l].runs && ss[l].runs[r].req.group == Some(g)
    ensures r in ss[k].runs && ss[k].runs[r].pc.Finished?
    ensures ss[k].runs[r].history == [] || ss[k].runs[r].history == [GroupLoaded(Merged)]
  {
    hide Unmerges, Fits;
    GroupStaysMerged(ss, acts, i, l, g);
    ReachableRunsFit(ss, acts, l);
    assert Step(ss[l], acts[l], ss[l + 1]);
    LoadMerged(ss[l].runs[r], ss[l].table, g, ok);
    hide Step, AfterLoad;
    FinishedStays(ss, acts, l + 1, k, r);
  }

  lemma LoadMerged(run: Run, t: Table, g: int, ok: bool)
    requires Fits(run) && run.pc == Begin && run.req.group == Some(g) && IsMerged(t, g)
    ensures var run' := AfterLoad(run, t, ok);
            run'.pc.Finished? && (run'.history == [] || run'.history == [GroupLoaded(Merged)])
  {
  }

  /** A run that returns success on a group has called its executor and marked the group. */
  lemma SuccessIsEarned(ss: seq<State>, acts: seq<Action>, k: nat, r: int)
    requires Execution(ss, acts) && k < |ss|
    requires At(ss[k], r, Finished(Succeeded))
    ensures ExecutorCalled(ss[k].runs[r].req.primary, ss[k].runs[r].req.secondaries, true) in ss[k].runs[r].history
    ensures ss[k].runs[r].req.group.Some? ==> GroupMarked in ss[k].runs[r].history
  {
    hide Step, Fits;
    ReachableRunsFit(ss, acts, k);
    EarnedShape(ss[k].runs[r]);
  }

  lemma EarnedShape(run: Run)
    requires Fits(run) && run.pc == Finished(Succeeded)
    ensures ExecutorCalled(run.req.primary, run.req.secondaries, true) in run.history
    ensures run.req.group.Some? ==> GroupMarked in run.history
  {
    hide ReadyHistory;
  }

  // ----- continuations -------------------------------------------------------------------------------

  /** Steps lead from `s` to `t`, none of which un-merges a group in `kept`. */
  ghost predicate Leads(s: State, t: State, kept: set<int>) {
    exists ss: seq<State>, acts: seq<Action> ::
      Steps(ss, acts) && ss[0] == s && ss[|ss| - 1] == t && AllKeep(ss, acts, kept)
  }

  ghost predicate AllKeep(ss: seq<State>, acts: seq<Action>, kept: set<int>)
    requires |ss| == |acts| + 1
  {
    forall k :: 0 <= k < |acts| ==> Keeps(ss[k], acts[k], kept)
  }

  ghost predicate Keeps(s: State, a: Action, kept: set<int>) {
    forall g :: g in kept ==> !Unmerges(s, a, g)
  }

  lemma LeadsNowhere(s: State, kept: set<int>)
    ensures Leads(s, s, kept)
  {
    hide Step;
    assert Steps([s], []) && [s][0] == s && AllKeep([s], [], kept);
  }

  lemma Extend(ss: seq<State>, acts: seq<Action>, a: Action, s': State)
    requires Steps(ss, acts) && Step(ss[|ss| - 1], a, s')
    ensures Steps(ss + [s'], acts + [a])
  {
    hide Step;
    var ss', acts' := ss + [s'], acts + [a];
    forall k | 0 <= k < |acts'|
      ensures Step(ss'[k], acts'[k], ss'[k + 1])
    {
      if k < |acts| {
        assert Step(ss[k], acts[k], ss[k + 1]);
      }
    }
  }

  lemma LeadsOn(s: State, t: State, kept: set<int>, a: Action, u: State)
    requires Leads(s, t, kept) && Step(t, a, u) && Keeps(t, a, kept)
    ensures Leads(s, u, kept)
  {
    hide Step, Keeps;
    var ss: seq<State>, acts: seq<Action> :|
      Steps(ss, acts) && ss[0] == s && ss[|ss| - 1] == t && AllKeep(ss, acts, kept);
    Extend(ss, acts, a, u);
    var ss', acts' := ss + [u], acts + [a];
    forall k | 0 <= k < |acts'|
      ensures Keeps(ss'[k], acts'[k], kept)
    {
      if k < |acts| {
        assert Keeps(ss[k], acts[k], kept);
      }
    }
    assert ss'[0] == s && ss'[|ss'| - 1] == u && AllKeep(ss', acts', kept);
  }

  // ----- the straight-line code ----------------------------------------------------------------------

  /** A state in which run 0 is alone. */
  ghost function Solo(t: Table, run: Run): State {
    State(t, {}, map[0 := run])
  }

  /** Run 0 alone makes its next call. */
  lemma SoloStep(start: State, t: Table, run: Run, a: Action)
    requires Leads(start, Solo(t, run), {})
    requires !a.Start? && !a.Environment? && a.run == 0 && run.pc == PcBefore(a)
    ensures Leads(start, Solo(NextTable(run, a, t), NextRun(run, a, t)), {})
  {
    hide Leads, NextRun, NextTable;
    var s := Solo(t, run);
    assert s.runs[0 := NextRun(run, a, t)] == map[0 := NextRun(run, a, t)];
    LeadsOn(start, s, {}, a, Solo(NextTable(run, a, t), NextRun(run, a, t)));
  }

  predicate HasRow(all: seq<Customer>, id: int) {
    exists j :: 0 <= j < |all| && all[j].id == id
  }

  /** `c` is the last of the rows with this id. */
  predicate LastRow(all: seq<Customer>, id: int, c: Customer) {
    exists j :: 0 <= j < |all| && all[j] == c && c.id == id && forall m :: j < m < |all| ==> all[m].id != id
  }

  lemma LastRowStep(all: seq<Customer>, next: Customer, id: int, c: Customer)
    ensures LastRow(all, id, c) && next.id != id ==> LastRow(all + [next], id, c)
    ensures LastRow(all + [next], next.id, next)
    ensures HasRow(all + [next], id) <==> HasRow(all, id) || next.id == id
  {
    var all' := all + [next];
    assert all'[|all|] == next;
    if LastRow(all, id, c) && next.id != id {
      var j :| 0 <= j < |all| && all[j] == c && c.id == id && forall m :: j < m < |all| ==> all[m].id != id;
      assert all'[j] == c;
    }
    if j :| 0 <= j < |all| && all[j].id == id {
      assert all'[j].id == id;
    }
  }

  /** Cached rows for the wanted ids in order, or nothing if one is missing; of rows with the same id
      the last one counts. */
  method LoadCacheCustomers(all: seq<Customer>, ids: seq<int>) returns (found: bool, result: seq<Customer>)
    ensures found <==> forall k :: 0 <= k < |ids| ==> HasRow(all, ids[k])
    ensures found ==> |result| == |ids| && forall k :: 0 <= k < |ids| ==> LastRow(all, ids[k], result[k])
  {
    hide HasRow, LastRow;
    var index: map<int, Customer> := map[];
    NoRows();
    for i := 0 to |all|
      invariant forall id :: id in index <==> HasRow(all[..i], id)
      invariant forall id :: id in index ==> LastRow(all[..i], id, index[id])
    {
      assert all[..i + 1] == all[..i] + [all[i]];
      forall id
        ensures HasRow(all[..i + 1], id) <==> HasRow(all[..i], id) || all[i].id == id
        ensures id in index && id != all[i].id ==> LastRow(all[..i + 1], id, index[id])
        ensures LastRow(all[..i + 1], all[i].id, all[i])
      {
        LastRowStep(all[..i], all[i], id, if id in index then index[id] else all[i]);
      }
      index := index[all[i].id := all[i]];
    }
    assert all[..|all|] == all;
    result := [];
    for k := 0 to |ids|
      invariant |result| == k
      invariant forall x :: 0 <= x < k ==> ids[x] in index && result[x] == index[ids[x]]
    {
      if ids[k] !in index {
        return false, [];
      }
      result := result + [index[ids[k]]];
    }
    found := true;
  }

  lemma NoRows()
    ensures forall id :: !HasRow([], id)
  {
  }

  /** What the calls out of one run will answer. */
  datatype Answers = Answers(
    load: bool, cache: seq<Customer>, valid: bool, snapshot: bool, executor: bool, record: bool, mark: bool)

  /** The group, if there is one, can be loaded and is not merged. */
  predicate GroupIsLive(t: Table, req: Request) {
    req.group.Some? ==>
      req.group.value in t && t[req.group.value].merchant == req.merchant && t[req.group.value].status != Merged
  }

  predicate AllCached(cache: seq<Customer>, ids: seq<int>) {
    forall k :: 0 <= k < |ids| ==> HasRow(cache, ids[k])
  }

  /** Nothing stops the run before its executor call. */
  predicate ReachesExecutor(t: Table, req: Request, answers: Answers) {
    && (req.group.Some? ==> answers.load) && GroupIsLive(t, req)
    && AllCached(answers.cache, AllIds(req)) && answers.valid
    && (SnapshotsEnabled(req) ==> answers.snapshot)
  }

  /** The bookkeeping after a successful executor call also goes through. */
  predicate Completes(req: Request, answers: Answers) {
    answers.executor && (req.group.Some? ==> answers.mark)
  }

  function Aftermath(req: Request, answers: Answers): seq<Event> {
    (if answers.record then [RecordWritten] else []) + (if req.group.Some? && answers.mark then [GroupMarked] else [])
  }

  function SnapshotEvents(req: Request): seq<Event> {
    if SnapshotsEnabled(req) then [SnapshotTaken(AllIds(req))] else []
  }

  function FromValidated(req: Request, answers: Answers): seq<Event> {
    if SnapshotsEnabled(req) && !answers.snapshot then []
    else
      SnapshotEvents(req) + FromSnapshotted(req, answers)
  }

  function FromSnapshotted(req: Request, answers: Answers): seq<Event> {
    [ExecutorCalled(req.primary, req.secondaries, answers.executor)] +
    if answers.executor then Aftermath(req, answers) else []
  }

  predicate CallsExecutor(h: seq<Event>) {
    exists k :: 0 <= k < |h| && h[k].ExecutorCalled?
  }

  /** Loading the group adds no call and no record of its own. */
  lemma TraceShape(loaded: seq<Event>, req: Request, answers: Answers, go: bool)
    requires |loaded| <= 1 && forall k :: 0 <= k < |loaded| ==> loaded[k].GroupLoaded?
    ensures var h := loaded + (if go then FromValidated(req, answers) else []);
            var called := go && (SnapshotsEnabled(req) ==> answers.snapshot);
            && (CallsExecutor(h) <==> called)
            && (RecordWritten in h <==> called && answers.executor && answers.record)
  {
    hide AllIds;
    var n := |loaded| + |SnapshotEvents(req)|;
    var h := loaded + (if go then FromValidated(req, answers) else []);
    if go && (SnapshotsEnabled(req) ==> answers.snapshot) {
      assert h[n].ExecutorCalled?;
    }
  }

  lemma NoCalls()
    ensures !CallsExecutor([]) && forall s :: !CallsExecutor([GroupLoaded(s)])
  {
  }

  /** The group is merged when the run has succeeded on it, and nothing else ever changes. */
  function TableAfter(t: Table, req: Request, outcome: Outcome): Table {
    if outcome == Succeeded && req.group.Some? then Transitioned(t, req.group.value) else t
  }

  /** `Execute` as written, with its early returns.  Undisturbed, it calls the executor exactly when
      nothing stops it before, succeeds exactly when the rest goes through too, writes its record exactly
      after a successful call, and merges the group exactly when it succeeds.  And its effect, outcome
      and order of calls are those of one run of the step machine. */
  method ExecuteMerge(repo: DuplicateRepo, req: Request, answers: Answers)
    returns (outcome: Outcome, history: seq<Event>)
    requires repo.Valid()
    modifies repo`rows
    ensures repo.Valid()
    ensures outcome == Succeeded <==> ReachesExecutor(old(repo.rows), req, answers) && Completes(req, answers)
    ensures repo.rows == TableAfter(old(repo.rows), req, outcome)
    ensures CallsExecutor(history) <==> ReachesExecutor(old(repo.rows), req, answers)
    ensures RecordWritten in history <==>
              ReachesExecutor(old(repo.rows), req, answers) && answers.executor && answers.record
    ensures Leads(Solo(old(repo.rows), Run(req, Begin, [])), Solo(repo.rows, Run(req, Finished(outcome), history)), {})
  {
    ghost var t := repo.rows;
    ghost var start := Solo(t, Run(req, Begin, []));
    hide Leads, OneLive, AllIds, Step, Solo, CallsExecutor, FromValidated, AllCached;
    NoCalls();
    LeadsNowhere(start, {});
    history := [];
    if req.group.Some? {
      if !answers.load {
        SoloStep(start, t, Run(req, Begin, []), Load(0, false));
        return StoreFailed, [];
      }
      var g := repo.FindByID(req.group.value, req.merchant);
      if g == Missing {
        SoloStep(start, t, Run(req, Begin, []), Load(0, true));
        return NotFound, [];
      }
      history := [GroupLoaded(g.group.status)];
      assert [] + history == history;
      if g.group.status == Merged {
        SoloStep(start, t, Run(req, Begin, []), Load(0, true));
        return AlreadyMerged, history;
      }
    }
    SoloStep(start, t, Run(req, Begin, []), Load(0, true));
    TraceShape(history, req, answers, AllCached(answers.cache, AllIds(req)) && answers.valid);
    outcome, history := MergeLoaded(repo, req, answers, start, history);
  }

  /** From the cache look-up to the executor call. */
  method MergeLoaded(repo: DuplicateRepo, req: Request, answers: Answers, ghost start: State, loaded: seq<Event>)
    returns (outcome: Outcome, history: seq<Event>)
    requires repo.Valid() && Leads(start, Solo(repo.rows, Run(req, Loaded, loaded)), {}) && GroupIsLive(repo.rows, req)
    modifies repo`rows
    ensures repo.Valid()
    ensures var go := AllCached(answers.cache, AllIds(req)) && answers.valid;
            && history == loaded + (if go then FromValidated(req, answers) else [])
            && (outcome == Succeeded <==> go && (SnapshotsEnabled(req) ==> answers.snapshot) && Completes(req, answers))
    ensures repo.rows == TableAfter(old(repo.rows), req, outcome)
    ensures Leads(start, Solo(repo.rows, Run(req, Finished(outcome), history)), {})
  {
    ghost var t := repo.rows;
    ghost var cached := set c | c in answers.cache :: c.id;
    hide Leads, OneLive, Step, Solo;
    history := loaded;
    assert loaded + [] == loaded;
    var found, customers := LoadCacheCustomers(answers.cache, AllIds(req));
    CacheCovers(answers.cache, AllIds(req), found);
    if !found {
      SoloStep(start, t, Run(req, Loaded, history), Fetch(0, cached));
      return CustomersMissing, history;
    }
    SoloStep(start, t, Run(req, Loaded, history), Fetch(0, cached));
    if !answers.valid {
      SoloStep(start, t, Run(req, Fetched, history), Validate(0, false));
      return Rejected, history;
    }
    SoloStep(start, t, Run(req, Fetched, history), Validate(0, true));
    outcome, history := MergeValidated(repo, req, answers, start, history);
  }

  lemma CacheCovers(cache: seq<Customer>, ids: seq<int>, found: bool)
    requires found <==> forall k :: 0 <= k < |ids| ==> HasRow(cache, ids[k])
    ensures found <==> forall id :: id in ids ==> id in set c | c in cache :: c.id
  {
    var cached := set c | c in cache :: c.id;
    forall id
      ensures id in cached <==> HasRow(cache, id)
    {
      if j :| 0 <= j < |cache| && cache[j].id == id {
        assert cache[j] in cache;
      }
    }
    hide HasRow;
    if forall id :: id in ids ==> id in cached {
      assert forall k :: 0 <= k < |ids| ==> ids[k] in ids;
    }
  }

  /** From the snapshot to the transition. */
  method MergeValidated(repo: DuplicateRepo, req: Request, answers: Answers, ghost start: State, validated: seq<Event>)
    returns (outcome: Outcome, history: seq<Event>)
    requires repo.Valid() && Leads(start, Solo(repo.rows, Run(req, Validated, validated)), {}) && GroupIsLive(repo.rows, req)
    modifies repo`rows
    ensures repo.Valid()
    ensures history == validated + FromValidated(req, answers)
    ensures outcome == Succeeded <==> (SnapshotsEnabled(req) ==> answers.snapshot) && Completes(req, answers)
    ensures repo.rows == TableAfter(old(repo.rows), req, outcome)
    ensures Leads(start, Solo(repo.rows, Run(req, Finished(outcome), history)), {})
  {
    ghost var t := repo.rows;
    hide Leads, OneLive, AllIds, Step, Solo;
    history := validated;
    assert validated + [] == validated;
    if SnapshotsEnabled(req) {
      if !answers.snapshot {
        SoloStep(start, t, Run(req, Validated, history), Snapshot(0, false));
        return SnapshotFailed, history;
      }
      history := history + [SnapshotTaken(AllIds(req))];
    }
    SoloStep(start, t, Run(req, Validated, validated), Snapshot(0, true));
    outcome, history := MergeSnapshotted(repo, req, answers, start, history);
  }

  /** From the executor call on. */
  method MergeSnapshotted(repo: DuplicateRepo, req: Request, answers: Answers, ghost start: State, taken: seq<Event>)
    returns (outcome: Outcome, history: seq<Event>)
    requires repo.Valid() && Leads(start, Solo(repo.rows, Run(req, Snapshotted, taken)), {}) && GroupIsLive(repo.rows, req)
    modifies repo`rows
    ensures repo.Valid()
    ensures history == taken + FromSnapshotted(req, answers)
    ensures outcome == Succeeded <==> Completes(req, answers)
    ensures repo.rows == TableAfter(old(repo.rows), req, outcome)
    ensures Leads(start, Solo(repo.rows, Run(req, Finished(outcome), history)), {})
  {
    hide Leads, OneLive, Step, Solo;
    history := taken + [ExecutorCalled(req.primary, req.secondaries, answers.executor)];
    SoloStep(start, repo.rows, Run(req, Snapshotted, taken), Execute(0, answers.executor));
    if !answers.executor {
      return ExecutorFailed, history;
    }
    outcome, history := MergeExecuted(repo, req, answers, start, history);
  }

  /** From the audit record on. */
  method MergeExecuted(repo: DuplicateRepo, req: Request, answers: Answers, ghost start: State, executed: seq<Event>)
    returns (outcome: Outcome, history: seq<Event>)
    requires repo.Valid() && Leads(start, Solo(repo.rows, Run(req, Executed, executed)), {}) && GroupIsLive(repo.rows, req)
    modifies repo`rows
    ensures repo.Valid()
    ensures history == executed + Aftermath(req, answers)
    ensures outcome == Succeeded <==> (req.group.Some? ==> answers.mark)
    ensures repo.rows == TableAfter(old(repo.rows), req, outcome)
    ensures Leads(start, Solo(repo.rows, Run(req, Finished(outcome), history)), {})
  {
    ghost var t := repo.rows;
    hide Leads, OneLive, AllIds, Step, Solo;
    history := executed;
    if answers.record {
      history := history + [RecordWritten];
    }
    ghost var run := Run(req, Recorded, history);
    SoloStep(start, t, Run(req, Executed, executed), Record(0, answers.record));
    if req.group.None? {
      SoloStep(start, t, run, Mark(0, true));
      return Succeeded, history;
    }
    if !answers.mark {
      SoloStep(start, t, run, Mark(0, false));
      return StoreFailed, history;
    }
    var ok := repo.TryTransitionToMerged(req.group.value);
    if !ok {
      SoloStep(start, t, run, Mark(0, true));
      return AlreadyMerged, history;
    }
    history := history + [GroupMarked];
    SoloStep(start, t, run, Mark(0, true));
    SoloStep(start, repo.rows, Run(req, Marked, history), Confirm(0));
    outcome := Succeeded;
  }
}
