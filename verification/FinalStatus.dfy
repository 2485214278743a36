/** Which sweep lets a final status be overwritten (internal/services/jobs/worker.go). */
module FinalStatus {
  import opened JobStore
  import opened WorkerProtocol
  import opened WorkerExclusion
  import opened Continuation
  import opened JobRecovery
  import opened ExclusionGuard
  import opened RetryLimit

  predicate IsFinal(s: State, j: int) {
    j in s.rows && Terminal(s.rows[j].status)
  }

  /** Careful benign steps lead from `s` to `t`, where the job has ended, and on to `u`, where its status is
      another. */
  ghost predicate Rewrites(s: State, t: State, u: State, j: int) {
    && Reaches(s, t, true) && Reaches(t, u, true)
    && IsFinal(t, j) && j in u.rows && u.rows[j].status != t.rows[j].status
  }

  /** The worker brings its job to an end while the sweep rests in the middle of its list; then the sweep
      writes "queued" over it. */
  lemma ListedCarrierRewrites(s: State, jobs: seq<int>, w: int, j: int) returns (t: State, u: State)
    requires Enabled(s, ListStuck(jobs)) && j in jobs && w in s.workers && Carries(s.workers[w], j)
    ensures Rewrites(Next(s, ListStuck(jobs)), t, u, j)
  {
    var s' := Next(s, ListStuck(jobs));
    ReachesItself(s', true);
    hide Reaches;
    CarriedEnds(s', s', w, j);
    t :| Reaches(s', t, true) && t.sweeper == s'.sweeper && j in t.rows && Terminal(t.rows[j].status);
    assert Reaches(t, t, true) by {
      ReachesItself(t, true);
    }
    u := TodoPush(t, t, true, j);
  }

  lemma CarefulKeepsFinal(s: State, t: State, j: int)
    requires Tame(s) && Reaches(s, t, true)
    ensures Tame(t)
    ensures IsFinal(s, j) ==> j in t.rows && t.rows[j].status == s.rows[j].status
  {
    hide Tame, Enabled, Next, Guarded, Reaches;
    var ss, acts := ReachesElim(s, t, true);
    var i := 0;
    while i < |acts|
      invariant i <= |acts| && Tame(ss[i])
      invariant IsFinal(s, j) ==> j in ss[i].rows && ss[i].rows[j].status == s.rows[j].status
    {
      assert Enabled(ss[i], acts[i]) && ss[i + 1] == Next(ss[i], acts[i]) && Benign(ss[i], acts[i], true);
      StepKeepsTame(ss[i], acts[i]);
      if IsFinal(s, j) {
        TerminalStep(ss[i], acts[i], j);
      }
      i := i + 1;
    }
  }

  /** The guard is exact for final statuses.  From every state reached by guarded steps, a sweep that lists
      `jobs` opens a way, by careful and crash-free steps, to a final status that is overwritten, if and
      only if a live worker still handles one of the listed jobs. */
  lemma RewriteIffUnguarded(ss: seq<State>, acts: seq<Action>, k: nat, jobs: seq<int>)
    requires GuardedExecution(ss, acts) && k < |ss| && Enabled(ss[k], ListStuck(jobs))
    ensures (exists t, u, j :: Rewrites(Next(ss[k], ListStuck(jobs)), t, u, j)) <==> !Guarded(ss[k], ListStuck(jobs))
  {
    hide Tame, Steps, Rewrites;
    ReachableIsTame(ss, acts, k);
    var s := ss[k];
    if Guarded(s, ListStuck(jobs)) {
      StepKeepsTame(s, ListStuck(jobs));
      forall t, u, j
        ensures !Rewrites(Next(s, ListStuck(jobs)), t, u, j)
      {
        TameNeverRewrites(Next(s, ListStuck(jobs)), t, u, j);
      }
    } else {
      var j, w :| j in jobs && w in s.workers && Carries(s.workers[w], j);
      var t, u := ListedCarrierRewrites(s, jobs, w, j);
    }
  }

  lemma TameNeverRewrites(s: State, t: State, u: State, j: int)
    requires Tame(s)
    ensures !Rewrites(s, t, u, j)
  {
    hide Tame, Reaches;
    if Reaches(s, t, true) && Reaches(t, u, true) {
      CarefulKeepsFinal(s, t, j);
      CarefulKeepsFinal(t, u, j);
    }
  }

  /** From the empty system, with every sweep harmless for exclusion, a job is completed and later queued
      and pushed again: the sweep lists it while its worker has yet to write "completed". */
  lemma CompletedIsQueuedAgain(j: int) returns (t: State, u: State)
    ensures LeadsHarmlessly(EMPTY, t) && LeadsHarmlessly(t, u)
    ensures j in t.rows && t.rows[j].status == Completed
    ensures j in u.rows && u.rows[j].status == Queued && j in u.main
  {
    var s, w := FinishedRun(j);
    CarefulIsHarmless(EMPTY, s);
    assert Harmless(s, ListStuck([j]));
    var s' := LeadsOn(EMPTY, s, HarmlessRule(), ListStuck([j]));
    ReachesItself(s', true);
    hide Reaches, LeadsHarmlessly, NextMain, NextProcessing, LeadsBy;
    t := CallOn(s', s', true, w, Go);
    CarefulIsHarmless(s', t);
    assert LeadsHarmlessly(EMPTY, t) by {
      HarmlessThrough(EMPTY, s', t);
    }
    assert Reaches(t, t, true) by {
      ReachesItself(t, true);
    }
    u := TodoPush(t, t, true, j);
    CarefulIsHarmless(t, u);
    assert u.main[0] == j;
  }

  lemma HarmlessThrough(s: State, t: State, u: State)
    requires LeadsBy(s, t, HarmlessRule()) && LeadsHarmlessly(t, u)
    ensures LeadsHarmlessly(s, u)
  {
    LeadsThrough(s, t, u, HarmlessRule());
  }

  /** One worker alone in the system has run the job and is about to write "completed". */
  lemma FinishedRun(j: int) returns (s: State, w: int)
    ensures Reaches(EMPTY, s, true) && s.sweeper == Resting
    ensures w in s.workers && s.workers[w] == Succeeded(j) && s.workers.Keys == {w}
    ensures j in s.rows && s.rows[j].status == Processing
  {
    ReachesItself(EMPTY, true);
    hide Reaches, NextProcessing;
    s := ReachesOn(EMPTY, EMPTY, true, Create(j));
    s := ReachesOn(EMPTY, s, true, Enqueue(j));
    w := 0;
    s := ReachesOn(EMPTY, s, true, Spawn(w));
    s := CallOn(EMPTY, s, true, w, Go);
    s := CallOn(EMPTY, s, true, w, Go);
    s := CallOn(EMPTY, s, true, w, Go);
    s := CallOn(EMPTY, s, true, w, ReturnOk);
  }
}
