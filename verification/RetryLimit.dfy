/** Retries and final statuses when workers crash and the sweep re-queues their jobs
  * (internal/services/jobs/worker.go, internal/repository/job_repo.go).
  */
module RetryLimit {
  import opened JobStore
  import opened WorkerProtocol
  import opened WorkerExclusion

  /** An interleaving with crashes anywhere, in which the sweep re-queues only jobs whose worker died. */
  ghost predicate GuardedExecution(ss: seq<State>, acts: seq<Action>) {
    Execution(ss, acts) && forall k :: 0 <= k < |acts| ==> Guarded(ss[k], acts[k])
  }

  // ----- rows under crashes --------------------------------------------------------------------------

  /** What the row of a job must look like while a live worker in this phase handles it. */
  predicate RowFits(p: Phase, row: Job) {
    match p
    case Popped(_) => row.status == Queued
    case Loaded(_, r) => row == Job(Queued, r)
    case Running(_, r) => row == Job(Processing, r)
    case Errored(_, r) => row == Job(Processing, r)
    case Counted(_, r) => row == Job(Processing, r + 1)
    case Reported(_) => row.status == Completed
    case Succeeded(_) => row.status == Processing || row.status == Completed
    case Retrying(_) => row.status == Queued
    case _ => true
  }

  ghost predicate RowsFit(s: State) {
    forall w, j :: w in s.workers && Carries(s.workers[w], j) && j in s.rows ==> RowFits(s.workers[w], s.rows[j])
  }

  /** What the sweep has still to re-queue is still marked as processing. */
  ghost predicate TodoProcessing(s: State) {
    forall j :: j in Todo(s) && j in s.rows ==> s.rows[j].status == Processing
  }

  ghost predicate Tame(s: State) {
    Orderly(s) && RowsFit(s) && TodoProcessing(s)
  }

  lemma EmptyIsTame()
    ensures Tame(EMPTY)
  {
    EmptyIsOrderly();
    hide Orderly;
  }

  lemma NotCarriedBy(s: State, j: int, w: int)
    requires TodoFree(s) && j in Todo(s)
    ensures w in s.workers ==> !Carries(s.workers[w], j)
  {
    assert Free(s, j);
    assert !Token(s, AtWorker(w), j);
  }

  lemma OneCarrier(s: State, v: int, w: int, j: int)
    requires Exclusive(s) && v in s.workers && w in s.workers && Carries(s.workers[v], j) && Carries(s.workers[w], j)
    ensures v == w
  {
    assert Token(s, AtWorker(v), j) && Token(s, AtWorker(w), j);
  }

  lemma OrderlyParts(s: State)
    requires Orderly(s)
    ensures Exclusive(s) && TokensKnown(s) && TodoFree(s) && QueuedOutside(s)
  {
  }

  /** The carried job's row moves with the phase. */
  lemma OwnRowFits(s: State, w: int, c: Choice, j: int)
    requires CanWork(s, w, c) && Carries(s.workers[w], j) && j in s.rows && RowFits(s.workers[w], s.rows[j])
    ensures j in NextRows(s, w, c)
    ensures Carries(NextPhase(s, w, c), j) ==> RowFits(NextPhase(s, w, c), NextRows(s, w, c)[j])
    ensures Terminal(s.rows[j].status) ==> NextRows(s, w, c)[j].status == s.rows[j].status
  {
  }

  lemma CallKeepsRowsFit(s: State, w: int, c: Choice)
    requires Tame(s) && CanWork(s, w, c)
    ensures RowsFit(Work(s, w, c)) && TodoProcessing(Work(s, w, c))
  {
    hide Orderly, Exclusive, TokensKnown, TodoFree, QueuedOutside, RowFits, NextRows, NextPhase, NextMain, NextProcessing;
    OrderlyParts(s);
    KeysStay(s, w, c);
    var s' := Work(s, w, c);
    forall v, j | v in s'.workers && Carries(s'.workers[v], j) && j in s'.rows
      ensures RowFits(s'.workers[v], s'.rows[j])
    {
      CallRowFits(s, w, c, v, j);
    }
    forall j | j in Todo(s') && j in s'.rows
      ensures s'.rows[j].status == Processing
    {
      NotCarriedBy(s, j, w);
      RowsElsewhere(s, w, c, j);
    }
  }

  lemma CallRowFits(s: State, w: int, c: Choice, v: int, j: int)
    requires Exclusive(s) && QueuedOutside(s) && RowsFit(s) && CanWork(s, w, c) && j in s.rows
    requires v in Work(s, w, c).workers && Carries(Work(s, w, c).workers[v], j) && j in Work(s, w, c).rows
    ensures RowFits(Work(s, w, c).workers[v], Work(s, w, c).rows[j])
  {
    hide Exclusive, QueuedOutside, RowFits, NextRows, NextPhase, NextMain, NextProcessing;
    if v != w {
      assert Carries(s.workers[w], j) ==> v == w by {
        if Carries(s.workers[w], j) {
          OneCarrier(s, v, w, j);
        }
      }
      RowsElsewhere(s, w, c, j);
    } else if s.workers[w].Idle? {
      PoppedFits(s, w, c, j);
    } else {
      CarriedStays(s, w, c);
      OwnRowFits(s, w, c, j);
    }
  }

  lemma PoppedFits(s: State, w: int, c: Choice, j: int)
    requires QueuedOutside(s) && CanWork(s, w, c) && s.workers[w].Idle?
    requires Carries(NextPhase(s, w, c), j) && j in s.rows
    ensures j in NextRows(s, w, c) && RowFits(NextPhase(s, w, c), NextRows(s, w, c)[j])
  {
    assert Token(s, InMain(|s.main| - 1), j);
    QueuedElim(s, InMain(|s.main| - 1), j);
  }

  lemma OtherStepKeepsRowsFit(s: State, a: Action)
    requires Tame(s) && Enabled(s, a) && !a.Call?
    ensures RowsFit(Next(s, a)) && TodoProcessing(Next(s, a))
  {
    hide Orderly, Exclusive, TokensKnown, RowFits;
    OrderlyParts(s);
    if a.Create? {
      CreateKeepsRowsFit(s, a.job);
    } else if a.SweepWrite? {
      SweepWriteKeepsRowsFit(s);
    } else {
      hide TodoFree;
      var s' := Next(s, a);
      forall w, j | w in s'.workers && Carries(s'.workers[w], j) && j in s'.rows
        ensures RowFits(s'.workers[w], s'.rows[j])
      {
        assert w in s.workers && Carries(s.workers[w], j);
      }
    }
  }

  lemma CreateKeepsRowsFit(s: State, j: int)
    requires TokensKnown(s) && TodoFree(s) && RowsFit(s) && TodoProcessing(s) && j !in s.rows
    ensures RowsFit(Next(s, Create(j))) && TodoProcessing(Next(s, Create(j)))
  {
    hide RowFits;
    forall w | w in s.workers
      ensures !Carries(s.workers[w], j)
    {
      assert !Token(s, AtWorker(w), j);
    }
    assert j in Todo(s) ==> Free(s, j);
  }

  lemma SweepWriteKeepsRowsFit(s: State)
    requires TodoFree(s) && RowsFit(s) && TodoProcessing(s) && Enabled(s, SweepWrite)
    ensures RowsFit(Next(s, SweepWrite)) && TodoProcessing(Next(s, SweepWrite))
  {
    hide RowFits;
    var s', x := Next(s, SweepWrite), s.sweeper.todo[0];
    assert x in Todo(s);
    forall w
      ensures w in s.workers ==> !Carries(s.workers[w], x)
    {
      NotCarriedBy(s, x, w);
    }
    forall j | j in Todo(s')
      ensures j in Todo(s) && j != x
    {
      var k :| 0 <= k < |Todo(s')| && Todo(s')[k] == j;
      assert Todo(s')[k] == Todo(s)[k + 1];
    }
  }

  lemma StepKeepsTame(s: State, a: Action)
    requires Tame(s) && Enabled(s, a) && Guarded(s, a)
    ensures Tame(Next(s, a))
  {
    StepKeepsOrder(s, a);
    hide Orderly, RowsFit, TodoProcessing, Work, Guarded;
    if a.Call? {
      CallKeepsRowsFit(s, a.worker, a.choice);
    } else {
      OtherStepKeepsRowsFit(s, a);
    }
  }

  lemma {:induction false} ReachableIsTame(ss: seq<State>, acts: seq<Action>, k: nat)
    requires GuardedExecution(ss, acts) && k < |ss|
    ensures Tame(ss[k])
  {
    hide Tame, Enabled, Next, Guarded;
    if k == 0 {
      EmptyIsTame();
    } else {
      var i := k - 1;
      ReachableIsTame(ss, acts, i);
      assert Enabled(ss[i], acts[i]) && ss[i + 1] == Next(ss[i], acts[i]) && Guarded(ss[i], acts[i]);
      StepKeepsTame(ss[i], acts[i]);
    }
  }

  // ----- final statuses ------------------------------------------------------------------------------

  /** A terminal status never changes again, crashes or not. */
  lemma {:induction false} TerminalStays(ss: seq<State>, acts: seq<Action>, i: nat, k: nat, j: int)
    requires GuardedExecution(ss, acts) && i <= k < |ss|
    requires j in ss[i].rows && Terminal(ss[i].rows[j].status)
    ensures j in ss[k].rows && ss[k].rows[j].status == ss[i].rows[j].status
  {
    hide Tame, Enabled, Next, Guarded;
    if i < k {
      var m := k - 1;
      TerminalStays(ss, acts, i, m, j);
      ReachableIsTame(ss, acts, m);
      assert Enabled(ss[m], acts[m]) && ss[m + 1] == Next(ss[m], acts[m]);
      TerminalStep(ss[m], acts[m], j);
    }
  }

  lemma TerminalStep(s: State, a: Action, j: int)
    requires Tame(s) && Enabled(s, a) && j in s.rows && Terminal(s.rows[j].status)
    ensures j in Next(s, a).rows && Next(s, a).rows[j].status == s.rows[j].status
  {
    hide Orderly, RowFits, NextRows, NextPhase, NextMain, NextProcessing;
    if a.Call? {
      if Carries(s.workers[a.worker], j) {
        OwnRowFits(s, a.worker, a.choice, j);
      } else {
        RowsElsewhere(s, a.worker, a.choice, j);
      }
    } else if a.SweepWrite? {
      assert s.sweeper.todo[0] in Todo(s);
    }
  }

  // ----- the limit -------------------------------------------------------------------------------------

  /** A worker dies that has counted the last failure job `j` may have, but not yet written its status. */
  predicate LosesCount(s: State, a: Action, j: int) {
    && a.Crash? && a.worker in s.workers
    && s.workers[a.worker].Counted? && s.workers[a.worker].job == j
    && s.workers[a.worker].retries + 1 >= MAX_RETRIES
  }

  ghost function LostCounts(ss: seq<State>, acts: seq<Action>, j: int, k: nat): nat
    requires k <= |acts| && k < |ss|
  {
    if k == 0 then 0
    else LostCounts(ss, acts, j, k - 1) + if LosesCount(ss[k - 1], acts[k - 1], j) then 1 else 0
  }

  ghost predicate JustCounted(s: State, j: int) {
    exists w :: w in s.workers && s.workers[w].Counted? && s.workers[w].job == j
  }

  /** At most two failures are counted before a run starts, apart from the `lost` last ones. */
  ghost predicate Limited(s: State, j: int, lost: nat) {
    j in s.rows ==>
      && s.rows[j].retries <=
         lost + (if s.rows[j].status == Failed || JustCounted(s, j) then MAX_RETRIES else MAX_RETRIES - 1)
      && (s.rows[j].status == Failed ==> s.rows[j].retries >= MAX_RETRIES)
  }

  lemma CarriedLimited(s: State, w: int, c: Choice, lost: nat)
    requires Exclusive(s) && RowsFit(s) && CanWork(s, w, c)
    requires !s.workers[w].Idle? && !s.workers[w].Acking? && s.workers[w].job in s.rows && Limited(s, s.workers[w].job, lost)
    ensures Limited(Work(s, w, c), s.workers[w].job, lost)
  {
    hide Exclusive, NextMain, NextProcessing;
    var s', j := Work(s, w, c), s.workers[w].job;
    forall v | v in s.workers && s.workers[v].Counted? && s.workers[v].job == j
      ensures v == w
    {
      OneCarrier(s, v, w, j);
    }
    assert RowFits(s.workers[w], s.rows[j]);
    if s.workers[w].Errored? {
      assert s'.workers[w].Counted? && s'.workers[w].job == j;
    }
  }

  lemma ElsewhereLimited(s: State, w: int, c: Choice, j: int, lost: nat)
    requires CanWork(s, w, c) && j in s.rows && !Carries(s.workers[w], j) && Limited(s, j, lost)
    ensures Limited(Work(s, w, c), j, lost)
  {
    RowsElsewhere(s, w, c, j);
    hide NextRows, NextPhase, NextMain, NextProcessing;
    var s' := Work(s, w, c);
    if JustCounted(s, j) {
      var v :| v in s.workers && s.workers[v].Counted? && s.workers[v].job == j;
      assert v in s'.workers && s'.workers[v] == s.workers[v];
    }
  }

  lemma StepKeepsLimited(s: State, a: Action, j: int, lost: nat)
    requires Tame(s) && Enabled(s, a) && Limited(s, j, lost)
    ensures Limited(Next(s, a), j, lost + if LosesCount(s, a, j) then 1 else 0)
  {
    hide Orderly, RowsFit, Limited, Work;
    OrderlyParts(s);
    if a.Call? {
      var w := a.worker;
      if Carries(s.workers[w], j) {
        assert Token(s, AtWorker(w), j);
        CarriedLimited(s, w, a.choice, lost);
      } else if j in s.rows {
        ElsewhereLimited(s, w, a.choice, j, lost);
      } else {
        UnknownLimited(s, w, a.choice, j, lost);
      }
    } else {
      OtherStepKeepsLimited(s, a, j, lost);
    }
  }

  lemma UnknownLimited(s: State, w: int, c: Choice, j: int, lost: nat)
    requires CanWork(s, w, c) && j !in s.rows
    ensures Limited(Work(s, w, c), j, lost)
  {
    KeysStay(s, w, c);
    hide NextRows, NextPhase, NextMain, NextProcessing;
  }

  lemma OtherStepKeepsLimited(s: State, a: Action, j: int, lost: nat)
    requires TodoFree(s) && TodoProcessing(s) && RowsFit(s) && Enabled(s, a) && !a.Call? && Limited(s, j, lost)
    ensures Limited(Next(s, a), j, lost + if LosesCount(s, a, j) then 1 else 0)
  {
    hide TodoFree;
    var s' := Next(s, a);
    if JustCounted(s, j) {
      var v :| v in s.workers && s.workers[v].Counted? && s.workers[v].job == j;
      assert j in s.rows ==> RowFits(s.workers[v], s.rows[j]);
      assert (a.Crash? && a.worker == v) || (v in s'.workers && s'.workers[v] == s.workers[v]);
    }
    if a.SweepWrite? {
      var x := s.sweeper.todo[0];
      assert x in Todo(s);
    }
  }

  lemma {:induction false} ReachableLimited(ss: seq<State>, acts: seq<Action>, j: int, k: nat)
    requires GuardedExecution(ss, acts) && k < |ss|
    ensures Limited(ss[k], j, LostCounts(ss, acts, j, k))
  {
    hide Tame, Enabled, Next, Guarded, Limited;
    if k == 0 {
      EmptyLimited(j);
    } else {
      var i := k - 1;
      ReachableLimited(ss, acts, j, i);
      ReachableIsTame(ss, acts, i);
      assert Enabled(ss[i], acts[i]) && ss[i + 1] == Next(ss[i], acts[i]);
      StepKeepsLimited(ss[i], acts[i], j, LostCounts(ss, acts, j, i));
    }
  }

  lemma EmptyLimited(j: int)
    ensures Limited(EMPTY, j, 0)
  {
  }

  /** Over every guarded interleaving, crashes anywhere: a job's retries exceed the limit by no more than
      the number of times a worker died between counting its last allowed failure and writing "failed".
      A row is "failed" only after at least three counted failures. */
  lemma RetryBound(ss: seq<State>, acts: seq<Action>, j: int, k: nat)
    requires GuardedExecution(ss, acts) && k < |ss| && j in ss[k].rows
    ensures ss[k].rows[j].retries <= 3 + LostCounts(ss, acts, j, k)
    ensures ss[k].rows[j].status == Failed ==> ss[k].rows[j].retries >= 3
  {
    hide Execution, Guarded, LostCounts;
    ReachableLimited(ss, acts, j, k);
  }

  lemma {:induction false} NothingLost(ss: seq<State>, acts: seq<Action>, j: int, k: nat)
    requires k <= |acts| && k < |ss| && forall i :: 0 <= i < k ==> !LosesCount(ss[i], acts[i], j)
    ensures LostCounts(ss, acts, j, k) == 0
  {
    if k > 0 {
      NothingLost(ss, acts, j, k - 1);
    }
  }

  /** So the limit of three holds whatever else crashes, as long as no worker dies between counting the
      last allowed failure of the job and writing its status; and then "failed" means exactly three. */
  lemma RetryLimitHolds(ss: seq<State>, acts: seq<Action>, j: int, k: nat)
    requires GuardedExecution(ss, acts) && k < |ss| && j in ss[k].rows
    requires forall i :: 0 <= i < k ==> !LosesCount(ss[i], acts[i], j)
    ensures ss[k].rows[j].retries <= 3
    ensures ss[k].rows[j].status == Failed ==> ss[k].rows[j].retries == 3
  {
    hide Enabled, Next, Guarded, LosesCount;
    NothingLost(ss, acts, j, k);
    RetryBound(ss, acts, j, k);
  }

  // ----- how often Process is entered ----------------------------------------------------------------

  /** The worker has entered Process for the job, and what came of it is not yet in the row's count or status. */
  predicate Busy(p: Phase, j: int) {
    (p.Running? || p.Reported? || p.Errored? || p.Succeeded?) && p.job == j
  }

  ghost predicate BusyOn(s: State, j: int) {
    exists w :: w in s.workers && Busy(s.workers[w], j)
  }

  predicate IsCompleted(s: State, j: int) {
    j in s.rows && s.rows[j].status == Completed
  }

  /** A worker dies after entering Process, before the outcome is in the row, and the row still allows
      another run. */
  predicate LosesRun(s: State, a: Action, j: int) {
    && a.Crash? && a.worker in s.workers
    && ((Busy(s.workers[a.worker], j) && !IsCompleted(s, j)) || LosesCount(s, a, j))
  }

  ghost function LostRuns(ss: seq<State>, acts: seq<Action>, j: int, k: nat): nat
    requires k <= |acts| && k < |ss|
  {
    if k == 0 then 0
    else LostRuns(ss, acts, j, k - 1) + if LosesRun(ss[k - 1], acts[k - 1], j) then 1 else 0
  }

  /** Every entry into Process is counted as a failure, was lost, is still going on, or was the last. */
  ghost predicate Accounted(s: State, j: int, lost: nat, runs: nat) {
    s.started[j] + lost <=
      runs + (if j in s.rows then s.rows[j].retries else 0) +
      (if BusyOn(s, j) || IsCompleted(s, j) then 1 else 0)
  }

  lemma CarriedAccounted(s: State, w: int, c: Choice, lost: nat, runs: nat)
    requires Exclusive(s) && RowsFit(s) && CanWork(s, w, c)
    requires !s.workers[w].Idle? && !s.workers[w].Acking? && s.workers[w].job in s.rows
    requires Accounted(s, s.workers[w].job, lost, runs)
    ensures Accounted(Work(s, w, c), s.workers[w].job, lost, runs)
  {
    hide Exclusive, NextMain, NextProcessing;
    var s', j := Work(s, w, c), s.workers[w].job;
    forall v | v in s.workers && Busy(s.workers[v], j)
      ensures v == w
    {
      OneCarrier(s, v, w, j);
    }
    assert RowFits(s.workers[w], s.rows[j]);
    assert Busy(s'.workers[w], j) ==> BusyOn(s', j);
  }

  lemma ElsewhereAccounted(s: State, w: int, c: Choice, j: int, lost: nat, runs: nat)
    requires CanWork(s, w, c) && !Carries(s.workers[w], j) && Accounted(s, j, lost, runs)
    ensures Accounted(Work(s, w, c), j, lost, runs)
  {
    KeysStay(s, w, c);
    if j in s.rows {
      RowsElsewhere(s, w, c, j);
    }
    hide NextRows, NextPhase, NextMain, NextProcessing;
    var s' := Work(s, w, c);
    if BusyOn(s, j) {
      var v :| v in s.workers && Busy(s.workers[v], j);
      assert v in s'.workers && s'.workers[v] == s.workers[v];
    }
    assert s'.started[j] == s.started[j];
  }

  lemma OtherStepAccounted(s: State, a: Action, j: int, lost: nat, runs: nat)
    requires TodoProcessing(s) && Enabled(s, a) && !a.Call? && Accounted(s, j, lost, runs)
    ensures Accounted(Next(s, a), j, lost + (if LosesCount(s, a, j) then 1 else 0), runs + if LosesRun(s, a, j) then 1 else 0)
  {
    var s' := Next(s, a);
    if BusyOn(s, j) {
      var v :| v in s.workers && Busy(s.workers[v], j);
      if !(a.Crash? && a.worker == v) {
        assert v in s'.workers && Busy(s'.workers[v], j);
      }
    }
    if a.SweepWrite? {
      assert s.sweeper.todo[0] in Todo(s);
    }
    assert s'.started == s.started;
    assert j in s.rows ==> j in s'.rows && s'.rows[j].retries == s.rows[j].retries;
    assert j in s.rows && s.rows[j].status == Completed ==> s'.rows[j].status == Completed;
  }

  lemma StepKeepsAccounted(s: State, a: Action, j: int, lost: nat, runs: nat)
    requires Tame(s) && Enabled(s, a) && Accounted(s, j, lost, runs)
    ensures Accounted(Next(s, a), j, lost + (if LosesCount(s, a, j) then 1 else 0), runs + if LosesRun(s, a, j) then 1 else 0)
  {
    hide Orderly, RowsFit, Accounted, Work;
    OrderlyParts(s);
    if a.Call? {
      if Carries(s.workers[a.worker], j) {
        assert Token(s, AtWorker(a.worker), j);
        CarriedAccounted(s, a.worker, a.choice, lost, runs);
      } else {
        ElsewhereAccounted(s, a.worker, a.choice, j, lost, runs);
      }
    } else {
      OtherStepAccounted(s, a, j, lost, runs);
    }
  }

  lemma {:induction false} ReachableAccounted(ss: seq<State>, acts: seq<Action>, j: int, k: nat)
    requires GuardedExecution(ss, acts) && k < |ss|
    ensures Accounted(ss[k], j, LostCounts(ss, acts, j, k), LostRuns(ss, acts, j, k))
  {
    hide Tame, Enabled, Next, Guarded, Accounted;
    if k == 0 {
      EmptyAccounted(j);
    } else {
      var i := k - 1;
      ReachableAccounted(ss, acts, j, i);
      ReachableIsTame(ss, acts, i);
      assert Enabled(ss[i], acts[i]) && ss[i + 1] == Next(ss[i], acts[i]);
      StepKeepsAccounted(ss[i], acts[i], j, LostCounts(ss, acts, j, i), LostRuns(ss, acts, j, i));
    }
  }

  lemma EmptyAccounted(j: int)
    ensures Accounted(EMPTY, j, 0, 0)
  {
  }

  /** The row of a job that a live worker is busy with is not failed, nor just counted. */
  lemma BusyRow(s: State, j: int)
    requires Tame(s) && BusyOn(s, j)
    ensures j in s.rows && s.rows[j].status != Failed && !JustCounted(s, j)
  {
    hide TodoProcessing, Exclusive, TodoFree, QueuedOutside;
    var w :| w in s.workers && Busy(s.workers[w], j);
    assert Token(s, AtWorker(w), j);
    assert RowFits(s.workers[w], s.rows[j]);
    if JustCounted(s, j) {
      var v :| v in s.workers && s.workers[v].Counted? && s.workers[v].job == j;
      OneCarrier(s, v, w, j);
    }
  }

  lemma CountedRow(s: State, j: int)
    requires Tame(s) && JustCounted(s, j)
    ensures j in s.rows ==> !Terminal(s.rows[j].status)
  {
    hide Orderly, TodoProcessing;
    var w :| w in s.workers && s.workers[w].Counted? && s.workers[w].job == j;
    assert j in s.rows ==> RowFits(s.workers[w], s.rows[j]);
  }

  /** Over every guarded interleaving Process is entered for a job at most three times, plus once for every
      run that was lost to a crash before its outcome reached the row. */
  lemma RunsBound(ss: seq<State>, acts: seq<Action>, j: int, k: nat)
    requires GuardedExecution(ss, acts) && k < |ss|
    ensures ss[k].started[j] <= 3 + LostRuns(ss, acts, j, k)
  {
    hide Enabled, Next, Guarded, LostCounts, LostRuns, Tame;
    ReachableAccounted(ss, acts, j, k);
    ReachableLimited(ss, acts, j, k);
    ReachableIsTame(ss, acts, k);
    hide BusyOn, JustCounted;
    if BusyOn(ss[k], j) {
      BusyRow(ss[k], j);
    }
    if JustCounted(ss[k], j) {
      CountedRow(ss[k], j);
    }
    LostFew(ss, acts, j, k);
  }

  lemma {:induction false} LostFew(ss: seq<State>, acts: seq<Action>, j: int, k: nat)
    requires k <= |acts| && k < |ss|
    ensures LostCounts(ss, acts, j, k) <= LostRuns(ss, acts, j, k)
  {
    if k > 0 {
      LostFew(ss, acts, j, k - 1);
    }
  }

  // ----- the bounds are reached ------------------------------------------------------------------------

  /** A guarded interleaving so far, with the numbers of lost counts and lost runs of job `j`. */
  ghost predicate Story(ss: seq<State>, acts: seq<Action>, j: int, lost: nat, runs: nat) {
    && GuardedExecution(ss, acts)
    && LostCounts(ss, acts, j, |acts|) == lost && LostRuns(ss, acts, j, |acts|) == runs
  }

  lemma {:induction false} LostLocal(
    ss: seq<State>, acts: seq<Action>, ss': seq<State>, acts': seq<Action>, j: int, k: nat)
    requires k <= |acts| && k < |ss| && ss <= ss' && acts <= acts'
    ensures LostCounts(ss', acts', j, k) == LostCounts(ss, acts, j, k)
    ensures LostRuns(ss', acts', j, k) == LostRuns(ss, acts, j, k)
  {
    if k > 0 {
      LostLocal(ss, acts, ss', acts', j, k - 1);
    }
  }

  lemma Continue(ss: seq<State>, acts: seq<Action>, j: int, lost: nat, runs: nat, a: Action)
    returns (ss': seq<State>, acts': seq<Action>)
    requires Story(ss, acts, j, lost, runs) && Enabled(ss[|ss| - 1], a) && Guarded(ss[|ss| - 1], a)
    ensures Story(ss', acts', j, lost + (if LosesCount(ss[|ss| - 1], a, j) then 1 else 0),
                  runs + if LosesRun(ss[|ss| - 1], a, j) then 1 else 0)
    ensures |ss'| > 0 && ss'[|ss'| - 1] == Next(ss[|ss| - 1], a)
  {
    hide Enabled, Next, Guarded, LosesCount, LosesRun;
    ss', acts' := ss + [Next(ss[|ss| - 1], a)], acts + [a];
    forall k | 0 <= k < |acts'|
      ensures Enabled(ss'[k], acts'[k]) && ss'[k + 1] == Next(ss'[k], acts'[k]) && Guarded(ss'[k], acts'[k])
    {
      if k < |acts| {
        assert Enabled(ss[k], acts[k]) && ss[k + 1] == Next(ss[k], acts[k]) && Guarded(ss[k], acts[k]);
      }
    }
    LostLocal(ss, acts, ss', acts', j, |acts|);
  }

  /** The only queued copy is job `j`'s; `n` workers so far have each started it once, and died. */
  ghost predicate Abandoned(s: State, j: int, r: nat, n: nat) {
    && s.main == [j] && j in s.rows && s.rows[j] == Job(Queued, r) && s.sweeper == Resting && s.started[j] == n
    && forall w :: w in s.workers ==> w < n && s.workers[w].Dead?
  }

  /** Worker `n` is in phase `p` of job `j`, whose row is processing, and nobody else is alive. */
  ghost predicate Alone(s: State, j: int, p: Phase, retries: nat, n: nat) {
    && s.main == [] && j in s.rows && s.rows[j] == Job(Processing, retries)
    && s.sweeper == Resting && s.started[j] == n + 1
    && n in s.workers && s.workers[n] == p
    && forall w :: w in s.workers && w != n ==> w < n && s.workers[w].Dead?
  }

  lemma StartAlone(ss: seq<State>, acts: seq<Action>, j: int, lost: nat, runs: nat, r: nat, n: nat)
    returns (ss': seq<State>, acts': seq<Action>)
    requires Story(ss, acts, j, lost, runs) && |ss| > 0 && Abandoned(ss[|ss| - 1], j, r, n)
    ensures Story(ss', acts', j, lost, runs) && |ss'| > 0 && Alone(ss'[|ss'| - 1], j, Running(j, r), r, n)
  {
    hide Story, NextProcessing;
    ss', acts' := Continue(ss, acts, j, lost, runs, Spawn(n));
    ss', acts' := Continue(ss', acts', j, lost, runs, Call(n, Go));
    ss', acts' := Continue(ss', acts', j, lost, runs, Call(n, Go));
    ss', acts' := Continue(ss', acts', j, lost, runs, Call(n, Go));
  }

  /** A new worker takes the job, sees it fail and counts the failure. */
  lemma CountAlone(ss: seq<State>, acts: seq<Action>, j: int, lost: nat, runs: nat, r: nat, n: nat)
    returns (ss': seq<State>, acts': seq<Action>)
    requires Story(ss, acts, j, lost, runs) && |ss| > 0 && Abandoned(ss[|ss| - 1], j, r, n)
    ensures Story(ss', acts', j, lost, runs) && |ss'| > 0 && Alone(ss'[|ss'| - 1], j, Counted(j, r), r + 1, n)
  {
    hide Story, NextProcessing, Abandoned;
    ss', acts' := StartAlone(ss, acts, j, lost, runs, r, n);
    ss', acts' := Continue(ss', acts', j, lost, runs, Call(n, ReturnError));
    ss', acts' := Continue(ss', acts', j, lost, runs, Call(n, Go));
  }

  /** The worker dies inside Process or just after counting; the sweep queues the job again. */
  lemma DieAlone(ss: seq<State>, acts: seq<Action>, j: int, lost: nat, runs: nat, p: Phase, r: nat, n: nat)
    returns (ss': seq<State>, acts': seq<Action>)
    requires Story(ss, acts, j, lost, runs) && |ss| > 0 && Alone(ss[|ss| - 1], j, p, r, n)
    requires (p.Running? || (p.Counted? && p.retries + 1 >= MAX_RETRIES)) && p.job == j
    ensures Story(ss', acts', j, lost + (if p.Counted? then 1 else 0), runs + 1)
    ensures |ss'| > 0 && Abandoned(ss'[|ss'| - 1], j, r, n + 1)
  {
    hide Story;
    var lost', runs' := lost + (if p.Counted? then 1 else 0), runs + 1;
    ss', acts' := Continue(ss, acts, j, lost, runs, Crash(n));
    ss', acts' := Continue(ss', acts', j, lost', runs', ListStuck([j]));
    assert ss'[|ss'| - 1].sweeper == Sweeping([j]);
    ss', acts' := Continue(ss', acts', j, lost', runs', SweepWrite);
    ss', acts' := Continue(ss', acts', j, lost', runs', SweepPush);
    ss', acts' := Continue(ss', acts', j, lost', runs', SweepEnd);
  }

  /** It has a try left: it queues the job again, acknowledges, and dies idle. */
  lemma RetryAlone(ss: seq<State>, acts: seq<Action>, j: int, lost: nat, runs: nat, r: nat, n: nat)
    returns (ss': seq<State>, acts': seq<Action>)
    requires Story(ss, acts, j, lost, runs) && |ss| > 0 && Alone(ss[|ss| - 1], j, Counted(j, r), r + 1, n)
    requires r + 1 < MAX_RETRIES
    ensures Story(ss', acts', j, lost, runs) && |ss'| > 0 && Abandoned(ss'[|ss'| - 1], j, r + 1, n + 1)
  {
    hide Story, NextProcessing;
    ss', acts' := Continue(ss, acts, j, lost, runs, Call(n, Go));
    ss', acts' := Continue(ss', acts', j, lost, runs, Call(n, Go));
    ss', acts' := Continue(ss', acts', j, lost, runs, Call(n, Go));
    ss', acts' := Continue(ss', acts', j, lost, runs, Crash(n));
  }

  lemma Dispatched(j: int) returns (ss: seq<State>, acts: seq<Action>)
    ensures Story(ss, acts, j, 0, 0) && |ss| > 0 && Abandoned(ss[|ss| - 1], j, 0, 0)
  {
    ss, acts := [EMPTY], [];
    assert Story(ss, acts, j, 0, 0);
    hide Story;
    ss, acts := Continue(ss, acts, j, 0, 0, Create(j));
    ss, acts := Continue(ss, acts, j, 0, 0, Enqueue(j));
  }

  /** `runs` runs die inside Process. */
  lemma {:induction false} LoseRuns(j: int, runs: nat) returns (ss: seq<State>, acts: seq<Action>)
    ensures Story(ss, acts, j, 0, runs) && |ss| > 0 && Abandoned(ss[|ss| - 1], j, 0, runs)
  {
    hide Story, Abandoned, Alone;
    if runs == 0 {
      ss, acts := Dispatched(j);
    } else {
      ss, acts := LoseRuns(j, runs - 1);
      ss, acts := StartAlone(ss, acts, j, 0, runs - 1, 0, runs - 1);
      ss, acts := DieAlone(ss, acts, j, 0, runs - 1, Running(j, 0), 0, runs - 1);
    }
  }

  /** Then two ordinary failures. */
  lemma FailTwice(j: int, runs: nat) returns (ss: seq<State>, acts: seq<Action>)
    ensures Story(ss, acts, j, 0, runs) && |ss| > 0 && Abandoned(ss[|ss| - 1], j, 2, runs + 2)
  {
    hide Story, Abandoned, Alone;
    ss, acts := LoseRuns(j, runs);
    ss, acts := CountAlone(ss, acts, j, 0, runs, 0, runs);
    ss, acts := RetryAlone(ss, acts, j, 0, runs, 0, runs);
    ss, acts := CountAlone(ss, acts, j, 0, runs, 1, runs + 1);
    ss, acts := RetryAlone(ss, acts, j, 0, runs, 1, runs + 1);
  }

  /** Then `lost` counted failures whose status write is lost. */
  lemma {:induction false} LoseCounts(j: int, runs: nat, lost: nat) returns (ss: seq<State>, acts: seq<Action>)
    ensures Story(ss, acts, j, lost, runs + lost) && |ss| > 0
    ensures Abandoned(ss[|ss| - 1], j, 2 + lost, runs + 2 + lost)
  {
    hide Story, Abandoned, Alone;
    if lost == 0 {
      ss, acts := FailTwice(j, runs);
    } else {
      var (l, r, n) := (lost - 1, lost + 1, runs + lost + 1);
      ss, acts := LoseCounts(j, runs, l);
      ss, acts := CountAlone(ss, acts, j, l, runs + l, r, n);
      ss, acts := DieAlone(ss, acts, j, l, runs + l, Counted(j, r), r + 1, n);
    }
  }

  /** `RetryBound` and `RunsBound` are sharp, together, for all numbers of lost counts and of other lost
      runs; so with crashes there is no limit. */
  lemma BoundsAreReached(j: int, runs: nat, lost: nat) returns (ss: seq<State>, acts: seq<Action>)
    ensures GuardedExecution(ss, acts)
    ensures LostCounts(ss, acts, j, |acts|) == lost && LostRuns(ss, acts, j, |acts|) == runs + lost
    ensures var s := ss[|ss| - 1];
            && j in s.rows && s.rows[j] == Job(Failed, 3 + lost)
            && s.started[j] == 3 + runs + lost
  {
    var (r, n) := (2 + lost, runs + 2 + lost);
    ss, acts := LoseCounts(j, runs, lost);
    ss, acts := CountAlone(ss, acts, j, lost, runs + lost, r, n);
    FailAlone(ss[|ss| - 1], j, r, n);
    hide Abandoned, Alone, Work;
    ss, acts := Continue(ss, acts, j, lost, runs + lost, Call(n, Go));
  }

  lemma FailAlone(s: State, j: int, r: nat, n: nat)
    requires Alone(s, j, Counted(j, r), r + 1, n) && r + 1 >= MAX_RETRIES
    ensures CanWork(s, n, Go) && Work(s, n, Go).started[j] == n + 1
    ensures j in Work(s, n, Go).rows && Work(s, n, Go).rows[j] == Job(Failed, r + 1)
  {
    hide NextProcessing, NextMain;
  }
}
