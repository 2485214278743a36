/** Which crash lets a job be tried too often (internal/services/jobs/worker.go). */
module CrashLimits {
  import opened JobStore
  import opened WorkerProtocol
  import opened WorkerExclusion
  import opened JobRecovery
  import opened RetryLimit

  // ----- careful continuations keep the bounds -------------------------------------------------------

  /** Everything known about job `j` after `lost` lost counts and `runs` lost runs. */
  ghost predicate Bounded(s: State, j: int, lost: nat, runs: nat) {
    Tame(s) && Limited(s, j, lost) && Accounted(s, j, lost, runs)
  }

  lemma CrashFreeStep(s: State, a: Action, j: int, lost: nat, runs: nat)
    requires Bounded(s, j, lost, runs) && Enabled(s, a) && Guarded(s, a) && !LosesCount(s, a, j) && !LosesRun(s, a, j)
    ensures Bounded(Next(s, a), j, lost, runs)
  {
    hide Tame, Limited, Accounted, Guarded, LosesCount, LosesRun, Next;
    StepKeepsTame(s, a);
    StepKeepsLimited(s, a, j, lost);
    StepKeepsAccounted(s, a, j, lost, runs);
  }

  lemma CarefulKeepsBounds(s: State, t: State, j: int, lost: nat, runs: nat)
    requires Bounded(s, j, lost, runs) && Reaches(s, t, true)
    ensures Bounded(t, j, lost, runs)
  {
    hide Bounded, Enabled, Next, Guarded, Reaches;
    var ss, acts := ReachesElim(s, t, true);
    var i := 0;
    while i < |acts|
      invariant i <= |acts| && Bounded(ss[i], j, lost, runs)
    {
      assert Enabled(ss[i], acts[i]) && ss[i + 1] == Next(ss[i], acts[i]) && Benign(ss[i], acts[i], true);
      CrashFreeStep(ss[i], acts[i], j, lost, runs);
      i := i + 1;
    }
  }

  lemma ReachableBounded(ss: seq<State>, acts: seq<Action>, j: int, k: nat)
    requires GuardedExecution(ss, acts) && k < |ss|
    ensures Bounded(ss[k], j, LostCounts(ss, acts, j, k), LostRuns(ss, acts, j, k))
  {
    hide Enabled, Next, Guarded, Tame, Limited, Accounted;
    ReachableIsTame(ss, acts, k);
    ReachableLimited(ss, acts, j, k);
    ReachableAccounted(ss, acts, j, k);
  }

  /** With nothing lost a job has at most three retries and at most three runs. */
  lemma NothingLostBounds(s: State, j: int)
    requires Bounded(s, j, 0, 0)
    ensures j in s.rows ==> s.rows[j].retries <= MAX_RETRIES
    ensures s.started[j] <= MAX_RETRIES
  {
    hide Tame, BusyOn, JustCounted;
    if BusyOn(s, j) {
      BusyRow(s, j);
    }
    if JustCounted(s, j) {
      CountedRow(s, j);
    }
  }

  // ----- every count and every busy worker stems from a run --------------------------------------------

  ghost predicate Grounded(s: State, j: int) {
    j in s.rows ==> s.rows[j].retries + (if BusyOn(s, j) then 1 else 0) <= s.started[j]
  }

  lemma CarriedGrounded(s: State, w: int, c: Choice)
    requires Exclusive(s) && CanWork(s, w, c) && !s.workers[w].Idle? && !s.workers[w].Acking?
    requires s.workers[w].job in s.rows && Grounded(s, s.workers[w].job)
    ensures Grounded(Work(s, w, c), s.workers[w].job)
  {
    hide Exclusive, NextMain, NextProcessing;
    var s', j := Work(s, w, c), s.workers[w].job;
    forall v | v in s.workers && Busy(s.workers[v], j)
      ensures v == w
    {
      OneCarrier(s, v, w, j);
    }
    if Busy(s.workers[w], j) {
      assert BusyOn(s, j);
    }
  }

  lemma ElsewhereGrounded(s: State, w: int, c: Choice, j: int)
    requires CanWork(s, w, c) && !Carries(s.workers[w], j) && Grounded(s, j)
    ensures Grounded(Work(s, w, c), j)
  {
    KeysStay(s, w, c);
    if j in s.rows {
      RowsElsewhere(s, w, c, j);
    }
    if !s.workers[w].Idle? {
      CarriedStays(s, w, c);
    }
    NotSuddenlyBusy(s, w, c, j);
    hide NextRows, NextPhase, NextMain, NextProcessing;
    var s' := Work(s, w, c);
    if BusyOn(s', j) {
      var v :| v in s'.workers && Busy(s'.workers[v], j);
      assert v in s.workers && Busy(s.workers[v], j);
    }
    assert s'.started[j] == s.started[j];
  }

  lemma NotSuddenlyBusy(s: State, w: int, c: Choice, j: int)
    requires CanWork(s, w, c) && !Carries(s.workers[w], j)
    ensures !Busy(NextPhase(s, w, c), j)
  {
    hide Terminal;
  }

  lemma OtherStepGrounded(s: State, a: Action, j: int)
    requires TokensKnown(s) && Enabled(s, a) && !a.Call? && Grounded(s, j)
    ensures Grounded(Next(s, a), j)
  {
    var s' := Next(s, a);
    if BusyOn(s', j) {
      var v :| v in s'.workers && Busy(s'.workers[v], j);
      assert v in s.workers && Busy(s.workers[v], j);
      assert Token(s, AtWorker(v), j);
    }
  }

  lemma StepKeepsGrounded(s: State, a: Action, j: int)
    requires Tame(s) && Enabled(s, a) && Grounded(s, j)
    ensures Grounded(Next(s, a), j)
  {
    hide Orderly, RowsFit, Grounded, Work;
    OrderlyParts(s);
    if a.Call? {
      if Carries(s.workers[a.worker], j) {
        assert Token(s, AtWorker(a.worker), j);
        CarriedGrounded(s, a.worker, a.choice);
      } else {
        ElsewhereGrounded(s, a.worker, a.choice, j);
      }
    } else {
      OtherStepGrounded(s, a, j);
    }
  }

  lemma {:induction false} ReachableGrounded(ss: seq<State>, acts: seq<Action>, j: int, k: nat)
    requires GuardedExecution(ss, acts) && k < |ss|
    ensures Grounded(ss[k], j)
  {
    hide Tame, Enabled, Next, Guarded;
    if k > 0 {
      hide Grounded;
      var i := k - 1;
      ReachableGrounded(ss, acts, j, i);
      ReachableIsTame(ss, acts, i);
      assert Enabled(ss[i], acts[i]) && ss[i + 1] == Next(ss[i], acts[i]);
      StepKeepsGrounded(ss[i], acts[i], j);
    }
  }

  // ----- the job is run again --------------------------------------------------------------------------

  predicate InFront(t: State, j: int, r: nat) {
    t.main != [] && t.main[0] == j && j in t.rows && t.rows[j] == Job(Queued, r)
  }

  lemma RunOne(s: State, t: State, j: int, r: nat) returns (u: State, w: int)
    requires Reaches(s, t, true) && InFront(t, j, r)
    ensures Reaches(s, u, true) && w in u.workers && u.workers[w] == Running(j, r)
    ensures j in u.rows && u.rows[j] == Job(Processing, r) && u.started[j] == t.started[j] + 1
  {
    hide Reaches, NextProcessing, NextMain;
    u, w := PopIt(s, t, true, j, 0);
    u := CallOn(s, u, true, w, Go);
    u := CallOn(s, u, true, w, Go);
  }

  lemma CountOne(s: State, t: State, j: int, r: nat) returns (u: State, w: int)
    requires Reaches(s, t, true) && InFront(t, j, r)
    ensures Reaches(s, u, true) && w in u.workers && u.workers[w] == Counted(j, r)
    ensures j in u.rows && u.rows[j] == Job(Processing, r + 1) && u.started[j] == t.started[j] + 1
  {
    hide Reaches, NextProcessing, NextMain, InFront;
    u, w := RunOne(s, t, j, r);
    u := CallOn(s, u, true, w, ReturnError);
    u := CallOn(s, u, true, w, Go);
  }

  lemma RetryOne(s: State, t: State, j: int, r: nat) returns (u: State)
    requires Reaches(s, t, true) && InFront(t, j, r) && r + 1 < MAX_RETRIES
    ensures Reaches(s, u, true) && InFront(u, j, r + 1) && u.started[j] == t.started[j] + 1
  {
    var w: int;
    u, w := CountOne(s, t, j, r);
    hide Reaches, NextProcessing;
    u := CallOn(s, u, true, w, Go);
    u := CallOn(s, u, true, w, Go);
  }

  /** As many runs as the count still allows, and at least one. */
  lemma {:induction false} RunSome(s: State, t: State, j: int, r: nat, n: nat) returns (u: State)
    requires Reaches(s, t, true) && InFront(t, j, r) && n >= 1 && (n == 1 || r + n <= MAX_RETRIES)
    ensures Reaches(s, u, true) && u.started[j] >= t.started[j] + n
    decreases n
  {
    hide Reaches, InFront;
    if n == 1 {
      var w: int;
      u, w := RunOne(s, t, j, r);
    } else {
      u := RetryOne(s, t, j, r);
      u := RunSome(s, u, j, r + 1, n - 1);
    }
  }

  /** After the only worker on a processing job has died, the sweep brings the job back. */
  lemma ComesBack(s: State, w: int, j: int, r: nat) returns (u: State)
    requires Tame(s) && w in s.workers && Carries(s.workers[w], j) && j in s.rows && s.rows[j] == Job(Processing, r)
    ensures Reaches(Next(s, Crash(w)), u, true) && InFront(u, j, r) && u.started == s.started
  {
    hide RowsFit, TodoProcessing, TodoFree, TokensKnown, QueuedOutside, Exclusive;
    var s' := Next(s, Crash(w));
    forall v | v in s'.workers
      ensures !Carries(s'.workers[v], j)
    {
      if v != w && Carries(s.workers[v], j) {
        OneCarrier(s, v, w, j);
      }
    }
    ReachesItself(s', true);
    hide Reaches;
    u := ProcessingPush(s', s', true, j);
  }

  // ----- exactly which crash breaks the limits ---------------------------------------------------------

  /** After no harmful crash so far, the death of a worker opens a way, by careful and crash-free steps, to
      more than three retries of a job exactly when it had counted the job's last allowed failure and not
      yet written the status. */
  lemma LimitBreaksIff(ss: seq<State>, acts: seq<Action>, k: nat, w: int, j: int)
    requires GuardedExecution(ss, acts) && k < |ss| && Enabled(ss[k], Crash(w))
    requires forall i :: 0 <= i < k ==> !LosesCount(ss[i], acts[i], j)
    ensures (exists t :: Reaches(Next(ss[k], Crash(w)), t, true) && j in t.rows && t.rows[j].retries > 3) <==>
            LosesCount(ss[k], Crash(w), j)
  {
    hide Tame, Limited, Accounted, Steps, Reaches, LosesRun;
    Lengths(ss, acts);
    ReachableBounded(ss, acts, j, k);
    assert LostCounts(ss, acts, j, k) == 0 by {
      LostNothing(ss, acts, j, k);
    }
    var s, s' := ss[k], Next(ss[k], Crash(w));
    if LosesCount(s, Crash(w), j) {
      var t := FourthRetry(s, w, j);
    } else {
      StepKeepsTame(s, Crash(w));
      StepKeepsLimited(s, Crash(w), j, 0);
      forall t | Reaches(s', t, true) && j in t.rows
        ensures t.rows[j].retries <= MAX_RETRIES
      {
        CarefulKeepsLimited(s', t, j);
      }
    }
  }

  lemma Lengths(ss: seq<State>, acts: seq<Action>)
    requires GuardedExecution(ss, acts)
    ensures |ss| == |acts| + 1
  {
  }

  lemma LostNothing(ss: seq<State>, acts: seq<Action>, j: int, k: nat)
    requires GuardedExecution(ss, acts) && k < |ss|
    requires forall i :: 0 <= i < k ==> !LosesCount(ss[i], acts[i], j)
    ensures LostCounts(ss, acts, j, k) == 0
  {
    hide Enabled, Next, Guarded, LosesCount;
    NothingLost(ss, acts, j, k);
  }

  lemma CarefulKeepsLimited(s: State, t: State, j: int)
    requires Tame(s) && Limited(s, j, 0) && Reaches(s, t, true)
    ensures j in t.rows ==> t.rows[j].retries <= MAX_RETRIES
  {
    hide Tame, Enabled, Next, Guarded, Reaches;
    var ss, acts := ReachesElim(s, t, true);
    hide Limited;
    var i := 0;
    while i < |acts|
      invariant i <= |acts| && Tame(ss[i]) && Limited(ss[i], j, 0)
    {
      assert Enabled(ss[i], acts[i]) && ss[i + 1] == Next(ss[i], acts[i]) && Benign(ss[i], acts[i], true);
      StepKeepsTame(ss[i], acts[i]);
      StepKeepsLimited(ss[i], acts[i], j, 0);
      i := i + 1;
    }
    LimitedSays(t, j);
  }

  lemma LimitedSays(s: State, j: int)
    requires Limited(s, j, 0)
    ensures j in s.rows ==> s.rows[j].retries <= MAX_RETRIES
  {
  }

  lemma FourthRetry(s: State, w: int, j: int) returns (t: State)
    requires Tame(s) && LosesCount(s, Crash(w), j)
    ensures Reaches(Next(s, Crash(w)), t, true) && j in t.rows && t.rows[j].retries > MAX_RETRIES
  {
    CarriedRow(s, w, j);
    hide Tame, Reaches, InFront;
    var r := s.workers[w].retries + 1;
    t := ComesBack(s, w, j, r);
    var v: int;
    t, v := CountOne(Next(s, Crash(w)), t, j, r);
  }

  /** The row of a job that a live worker handles. */
  lemma CarriedRow(s: State, w: int, j: int)
    requires Tame(s) && w in s.workers && Carries(s.workers[w], j)
    ensures j in s.rows && RowFits(s.workers[w], s.rows[j])
  {
    hide TodoProcessing, RowFits, Exclusive, QueuedOutside, TodoFree;
    assert Token(s, AtWorker(w), j);
  }

  /** After no lost run so far, the death of a worker opens a way, by careful and crash-free steps, to a
      fourth run of a job exactly when it was on the job past its start, short of its outcome in the row,
      and the row was not completed. */
  lemma RunsExceedIff(ss: seq<State>, acts: seq<Action>, k: nat, w: int, j: int)
    requires GuardedExecution(ss, acts) && k < |ss| && Enabled(ss[k], Crash(w))
    requires forall i :: 0 <= i < k ==> !LosesRun(ss[i], acts[i], j)
    ensures (exists t :: Reaches(Next(ss[k], Crash(w)), t, true) && t.started[j] > 3) <==>
            LosesRun(ss[k], Crash(w), j)
  {
    hide Bounded, Steps, Reaches, LosesRun, LosesCount, Next;
    Lengths(ss, acts);
    ReachableBounded(ss, acts, j, k);
    assert LostCounts(ss, acts, j, k) == 0 && LostRuns(ss, acts, j, k) == 0 by {
      NoRunLost(ss, acts, j, k);
    }
    var s, s' := ss[k], Next(ss[k], Crash(w));
    if LosesRun(s, Crash(w), j) {
      assert Grounded(s, j) by {
        ReachableGrounded(ss, acts, j, k);
      }
      var t := FourthRun(s, w, j);
    } else {
      assert Bounded(s', j, 0, 0) by {
        CountIsRun(s, Crash(w), j);
        CrashFreeStep(s, Crash(w), j, 0, 0);
      }
      forall t | Reaches(s', t, true)
        ensures t.started[j] <= MAX_RETRIES
      {
        CarefulKeepsBounds(s', t, j, 0, 0);
        NothingLostBounds(t, j);
      }
    }
  }

  lemma CountIsRun(s: State, a: Action, j: int)
    ensures LosesCount(s, a, j) ==> LosesRun(s, a, j)
    ensures a.Crash? ==> Guarded(s, a)
  {
  }

  lemma {:induction false} NoRunLost(ss: seq<State>, acts: seq<Action>, j: int, k: nat)
    requires k <= |acts| && k < |ss| && forall i :: 0 <= i < k ==> !LosesRun(ss[i], acts[i], j)
    ensures LostCounts(ss, acts, j, k) == 0 && LostRuns(ss, acts, j, k) == 0
  {
    hide LosesRun, LosesCount;
    if k > 0 {
      NoRunLost(ss, acts, j, k - 1);
      CountIsRun(ss[k - 1], acts[k - 1], j);
    }
  }

  lemma FourthRun(s: State, w: int, j: int) returns (t: State)
    requires Bounded(s, j, 0, 0) && Grounded(s, j) && LosesRun(s, Crash(w), j)
    ensures Reaches(Next(s, Crash(w)), t, true) && t.started[j] > MAX_RETRIES
  {
    var r, n := LostRow(s, w, j);
    hide Bounded, Grounded, LosesRun, Reaches, InFront;
    assert Tame(s) by {
      BoundedIsTame(s, j);
    }
    t := ComesBack(s, w, j, r);
    t := RunSome(Next(s, Crash(w)), t, j, r, n);
  }

  lemma BoundedIsTame(s: State, j: int)
    requires Bounded(s, j, 0, 0)
    ensures Tame(s)
  {
  }

  /** How often the job has run when its worker dies, and how many runs its count still allows. */
  lemma LostRow(s: State, w: int, j: int) returns (r: nat, n: nat)
    requires Bounded(s, j, 0, 0) && Grounded(s, j) && LosesRun(s, Crash(w), j)
    ensures w in s.workers && Carries(s.workers[w], j) && j in s.rows && s.rows[j] == Job(Processing, r)
    ensures n >= 1 && (n == 1 || r + n <= MAX_RETRIES) && s.started[j] + n > MAX_RETRIES
  {
    CarriedRow(s, w, j);
    hide Tame, Accounted;
    r := s.rows[j].retries;
    if LosesCount(s, Crash(w), j) {
      n := 1;
    } else {
      assert BusyOn(s, j);
      BusyRow(s, j);
      n := MAX_RETRIES - r;
    }
  }
}
