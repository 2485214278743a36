/** Which unfinished jobs can still end, and what an unguarded sweep can do
  * (internal/services/jobs/worker.go, internal/repository/job_repo.go).
  */
module JobRecovery {
  import opened Sets
  import opened JobStore
  import opened WorkerProtocol
  import opened WorkerExclusion
  import opened Continuation

  // ----- continuations -------------------------------------------------------------------------------

  /** A step without a crash; with `careful`, the sweep lists no job of a live worker either. */
  ghost predicate Benign(s: State, a: Action, careful: bool) {
    !a.Crash? && (careful ==> Guarded(s, a))
  }

  ghost function BenignRule(careful: bool): Rule {
    (s: State, a: Action) => Benign(s, a, careful)
  }

  /** Benign steps lead from `s` to `t`. */
  ghost predicate Reaches(s: State, t: State, careful: bool) {
    LeadsBy(s, t, BenignRule(careful))
  }

  lemma ReachesItself(s: State, careful: bool)
    ensures Reaches(s, s, careful)
  {
    LeadsNowhere(s, BenignRule(careful));
  }

  lemma ReachesOn(s: State, t: State, careful: bool, a: Action) returns (u: State)
    requires Reaches(s, t, careful) && Enabled(t, a) && Benign(t, a, careful)
    ensures u == Next(t, a) && Reaches(s, u, careful)
  {
    hide Enabled, Next, LeadsBy;
    u := LeadsOn(s, t, BenignRule(careful), a);
  }

  lemma ReachesElim(s: State, t: State, careful: bool) returns (ss: seq<State>, acts: seq<Action>)
    requires Reaches(s, t, careful)
    ensures Steps(ss, acts) && ss[0] == s && ss[|ss| - 1] == t
    ensures forall k :: 0 <= k < |acts| ==> Benign(ss[k], acts[k], careful)
  {
    hide Enabled, Next, LeadsBy, Benign;
    ss, acts := LeadsElim(s, t, BenignRule(careful));
    forall k | 0 <= k < |acts|
      ensures Benign(ss[k], acts[k], careful)
    {
      assert BenignRule(careful)(ss[k], acts[k]);
    }
  }

  lemma CallOn(s: State, t: State, careful: bool, w: int, c: Choice) returns (u: State)
    requires Reaches(s, t, careful) && CanWork(t, w, c)
    ensures u == Work(t, w, c) && Reaches(s, u, careful)
  {
    hide Reaches, Work, CanWork;
    u := ReachesOn(s, t, careful, Call(w, c));
  }

  /** Careful benign steps can complete or fail the job, and leave the sweep as given. */
  ghost predicate EndsWith(s: State, sweeper: Sweeper, j: int) {
    exists t :: Reaches(s, t, true) && t.sweeper == sweeper && j in t.rows && Terminal(t.rows[j].status)
  }

  /** Careful benign steps can complete or fail the job. */
  ghost predicate CanEnd(s: State, j: int) {
    exists t :: Reaches(s, t, true) && j in t.rows && Terminal(t.rows[j].status)
  }

  // ----- a worker finishes a job -----------------------------------------------------------------------

  lemma SucceededEnds(s: State, t: State, w: int, j: int)
    requires Reaches(s, t, true) && w in t.workers && t.workers[w] == Succeeded(j) && j in t.rows
    ensures EndsWith(s, t.sweeper, j)
  {
    hide Reaches, NextMain, NextProcessing;
    var u := CallOn(s, t, true, w, Go);
    assert j in u.rows && Terminal(u.rows[j].status);
  }

  lemma RunningEnds(s: State, t: State, w: int, j: int)
    requires Reaches(s, t, true) && w in t.workers && InsideProcess(t.workers[w], j) && j in t.rows
    ensures EndsWith(s, t.sweeper, j)
  {
    hide Reaches, EndsWith, NextMain, NextProcessing;
    var u := CallOn(s, t, true, w, ReturnOk);
    SucceededEnds(s, u, w, j);
  }

  lemma LoadedEnds(s: State, t: State, w: int, j: int)
    requires Reaches(s, t, true) && w in t.workers && t.workers[w].Loaded? && t.workers[w].job == j && j in t.rows
    ensures EndsWith(s, t.sweeper, j)
  {
    hide Reaches, EndsWith, NextMain, NextProcessing;
    var u := CallOn(s, t, true, w, Go);
    RunningEnds(s, u, w, j);
  }

  lemma PoppedEnds(s: State, t: State, w: int, j: int)
    requires Reaches(s, t, true) && w in t.workers && t.workers[w] == Popped(j) && j in t.rows
    ensures EndsWith(s, t.sweeper, j)
  {
    hide Reaches, NextMain, NextProcessing;
    if !Terminal(t.rows[j].status) {
      var u := CallOn(s, t, true, w, Go);
      LoadedEnds(s, u, w, j);
    }
  }

  /** Fresh workers empty the tail of the main list until one of them holds the job. */
  lemma {:induction false} PopIt(s: State, t: State, careful: bool, j: int, k: nat) returns (u: State, w: int)
    requires Reaches(s, t, careful) && k < |t.main| && t.main[k] == j
    ensures Reaches(s, u, careful) && u.rows == t.rows && u.sweeper == t.sweeper && u.started == t.started
    ensures w in u.workers && w !in t.workers && u.workers[w] == Popped(j)
    ensures forall v :: v in t.workers ==> v in u.workers && u.workers[v] == t.workers[v]
    decreases |t.main|
  {
    hide Reaches, NextProcessing;
    w := UnusedId(t.workers.Keys);
    u := ReachesOn(s, t, careful, Spawn(w));
    IdleRows(u, w);
    hide NextRows;
    u := CallOn(s, u, careful, w, Go);
    if k < |t.main| - 1 {
      u, w := PopIt(s, u, careful, j, k);
    }
  }

  lemma MainEnds(s: State, t: State, j: int)
    requires Reaches(s, t, true) && j in t.main && j in t.rows
    ensures EndsWith(s, t.sweeper, j)
  {
    hide Reaches, EndsWith;
    var k :| 0 <= k < |t.main| && t.main[k] == j;
    var u, w := PopIt(s, t, true, j, k);
    PoppedEnds(s, u, w, j);
  }

  lemma RetryingEnds(s: State, t: State, w: int, j: int)
    requires Reaches(s, t, true) && w in t.workers && t.workers[w] == Retrying(j) && j in t.rows
    ensures EndsWith(s, t.sweeper, j)
  {
    hide Reaches, EndsWith, NextProcessing;
    var u := CallOn(s, t, true, w, Go);
    assert u.main[0] == j;
    MainEnds(s, u, j);
  }

  lemma CountedEnds(s: State, t: State, w: int, j: int)
    requires Reaches(s, t, true) && w in t.workers && t.workers[w].Counted? && t.workers[w].job == j && j in t.rows
    ensures EndsWith(s, t.sweeper, j)
  {
    hide Reaches, NextMain, NextProcessing;
    var u := CallOn(s, t, true, w, Go);
    if u.workers[w].Retrying? {
      RetryingEnds(s, u, w, j);
    } else {
      assert j in u.rows && Terminal(u.rows[j].status);
    }
  }

  lemma ErroredEnds(s: State, t: State, w: int, j: int)
    requires Reaches(s, t, true) && w in t.workers && t.workers[w].Errored? && t.workers[w].job == j && j in t.rows
    ensures EndsWith(s, t.sweeper, j)
  {
    hide Reaches, EndsWith, NextMain, NextProcessing;
    var u := CallOn(s, t, true, w, Go);
    CountedEnds(s, u, w, j);
  }

  lemma CarriedEnds(s: State, t: State, w: int, j: int)
    requires Reaches(s, t, true) && w in t.workers && Carries(t.workers[w], j) && j in t.rows
    ensures EndsWith(s, t.sweeper, j)
  {
    hide Reaches, EndsWith;
    match t.workers[w]
    case Popped(_) => PoppedEnds(s, t, w, j);
    case Loaded(_, _) => LoadedEnds(s, t, w, j);
    case Running(_, _) => RunningEnds(s, t, w, j);
    case Reported(_) => RunningEnds(s, t, w, j);
    case Succeeded(_) => SucceededEnds(s, t, w, j);
    case Errored(_, _) => ErroredEnds(s, t, w, j);
    case Counted(_, _) => CountedEnds(s, t, w, j);
    case Retrying(_) => RetryingEnds(s, t, w, j);
  }

  // ----- the sweep pushes a job ------------------------------------------------------------------------

  /** The running sweep gets to the job. */
  lemma {:induction false} TodoPush(s: State, t: State, careful: bool, j: int) returns (u: State)
    requires Reaches(s, t, careful) && j in Todo(t) && j in t.rows
    ensures Reaches(s, u, careful) && u.main != [] && u.main[0] == j && u.workers == t.workers
    ensures j in u.rows && u.rows[j] == Job(Queued, t.rows[j].retries) && u.started == t.started
    decreases |Todo(t)|, t.sweeper.Pushing?
  {
    hide Reaches;
    if t.sweeper.Pushing? {
      u := ReachesOn(s, t, careful, SweepPush);
      u := TodoPush(s, u, careful, j);
    } else {
      u := ReachesOn(s, t, careful, SweepWrite);
      if t.sweeper.todo[0] == j {
        u := ReachesOn(s, u, careful, SweepPush);
      } else {
        assert j in t.sweeper.todo[1..];
        u := TodoPush(s, u, careful, j);
      }
    }
  }

  /** The running sweep ends without touching the job. */
  lemma {:induction false} FinishSweep(s: State, t: State, careful: bool, j: int) returns (u: State)
    requires Reaches(s, t, careful) && j !in Todo(t) && j in t.rows
    ensures Reaches(s, u, careful) && u.sweeper == Resting && u.workers == t.workers
    ensures j in u.rows && u.rows[j] == t.rows[j] && u.started == t.started
    decreases |Todo(t)|, t.sweeper
  {
    hide Reaches;
    if t.sweeper.Resting? {
      u := t;
    } else if t.sweeper.Pushing? {
      u := ReachesOn(s, t, careful, SweepPush);
      assert Todo(u) == Todo(t);
      u := FinishSweepList(s, u, careful, j);
    } else {
      u := FinishSweepList(s, t, careful, j);
    }
  }

  lemma {:induction false} FinishSweepList(s: State, t: State, careful: bool, j: int) returns (u: State)
    requires Reaches(s, t, careful) && t.sweeper.Sweeping? && j !in t.sweeper.todo && j in t.rows
    ensures Reaches(s, u, careful) && u.sweeper == Resting && u.workers == t.workers
    ensures j in u.rows && u.rows[j] == t.rows[j] && u.started == t.started
    decreases |t.sweeper.todo|
  {
    hide Reaches;
    if t.sweeper.todo == [] {
      u := ReachesOn(s, t, careful, SweepEnd);
    } else {
      assert t.sweeper.todo[0] in t.sweeper.todo;
      u := ReachesOn(s, t, careful, SweepWrite);
      u := ReachesOn(s, u, careful, SweepPush);
      u := FinishSweepList(s, u, careful, j);
    }
  }

  /** A processing job is listed by the next sweep, if not by the one that is running. */
  lemma ProcessingPush(s: State, t: State, careful: bool, j: int) returns (u: State)
    requires Reaches(s, t, careful) && j in t.rows && t.rows[j].status == Processing
    requires careful ==> forall w :: w in t.workers ==> !Carries(t.workers[w], j)
    ensures Reaches(s, u, careful) && u.main != [] && u.main[0] == j && u.workers == t.workers
    ensures j in u.rows && u.rows[j] == Job(Queued, t.rows[j].retries) && u.started == t.started
  {
    hide Reaches;
    if j in Todo(t) {
      u := TodoPush(s, t, careful, j);
    } else {
      u := FinishSweep(s, t, careful, j);
      u := ReachesOn(s, u, careful, ListStuck([j]));
      u := TodoPush(s, u, careful, j);
    }
  }

  // ----- exactly the stranded jobs never end -----------------------------------------------------------

  lemma TokenEnds(s: State, p: Place, j: int)
    requires Token(s, p, j) && j in s.rows
    ensures exists sweeper :: EndsWith(s, sweeper, j)
  {
    ReachesItself(s, true);
    hide Reaches, EndsWith;
    match p
    case InMain(k) => MainEnds(s, s, j);
    case AtDispatcher =>
      var u := ReachesOn(s, s, true, Enqueue(j));
      assert u.main[0] == j;
      MainEnds(s, u, j);
    case AtSweep =>
      var u := ReachesOn(s, s, true, SweepPush);
      assert u.main[0] == j;
      MainEnds(s, u, j);
    case AtWorker(w) => CarriedEnds(s, s, w, j);
  }

  lemma FreeEnds(s: State, j: int)
    requires Free(s, j) && !Terminal(s.rows[j].status) && !Stranded(s, j)
    ensures exists sweeper :: EndsWith(s, sweeper, j)
  {
    ReachesItself(s, true);
    hide Reaches, EndsWith;
    var u: State;
    if j in Todo(s) {
      u := TodoPush(s, s, true, j);
    } else {
      forall w | w in s.workers
        ensures !Carries(s.workers[w], j)
      {
        assert !Token(s, AtWorker(w), j);
      }
      u := ProcessingPush(s, s, true, j);
    }
    MainEnds(s, u, j);
  }

  /** A stranded job stays stranded, whatever happens: crashes, sweeps and new workers included. */
  lemma {:induction false} StrandedForever(ss: seq<State>, acts: seq<Action>, k: nat, j: int)
    requires Steps(ss, acts) && k < |ss| && Stranded(ss[0], j)
    ensures Stranded(ss[k], j)
  {
    hide Enabled, Next, Stranded;
    if k > 0 {
      var i := k - 1;
      StrandedForever(ss, acts, i, j);
      assert Enabled(ss[i], acts[i]) && ss[i + 1] == Next(ss[i], acts[i]);
      StrandedForGood(ss[i], acts[i], j);
    }
  }

  lemma StrandedNeverEnds(s: State, j: int)
    requires Stranded(s, j)
    ensures !CanEnd(s, j)
  {
    hide Enabled, Next, Token;
    hide Reaches;
    if t :| Reaches(s, t, true) && j in t.rows && Terminal(t.rows[j].status) {
      var ss, acts := ReachesElim(s, t, true);
      StrandedForever(ss, acts, |acts|, j);
      assert false;
    }
  }

  /** An unfinished job can still be completed or failed, by careful steps and without any crash, exactly
      when it is not stranded: when a copy waits in the main list, a dispatcher, a live worker or the sweep
      still carries it, or its row says "processing" or is about to be re-queued. */
  lemma EndsIffNotStranded(s: State, j: int)
    requires j in s.rows && !Terminal(s.rows[j].status)
    ensures CanEnd(s, j) <==> !Stranded(s, j)
  {
    hide Token, Reaches;
    if Stranded(s, j) {
      StrandedNeverEnds(s, j);
    } else {
      if p :| Token(s, p, j) {
        TokenEnds(s, p, j);
      } else {
        FreeEnds(s, j);
      }
      var sweeper :| EndsWith(s, sweeper, j);
    }
  }

  /** A dispatcher whose push fails after the row was created strands its job. */
  lemma LostPushStrands(s: State, j: int)
    requires Orderly(s) && j !in s.rows
    ensures Stranded(Next(s, Create(j)).(dispatching := s.dispatching), j)
  {
    var s' := Next(s, Create(j)).(dispatching := s.dispatching);
    forall p
      ensures !Token(s', p, j)
    {
      assert Token(s', p, j) ==> Token(s, p, j);
    }
    assert j in Todo(s) ==> Free(s, j);
  }

  /** A worker that acknowledges a queued job because its row could not be read strands it. */
  lemma LostLookupStrands(s: State, w: int, j: int)
    requires Orderly(s) && w in s.workers && s.workers[w] == Popped(j) && j in s.rows && s.rows[j].status == Queued
    ensures Stranded(s.(workers := s.workers[w := Acking(j)]), j)
  {
    var s' := s.(workers := s.workers[w := Acking(j)]);
    assert Token(s, AtWorker(w), j);
    forall p
      ensures !Token(s', p, j)
    {
      assert Token(s', p, j) ==> Token(s, p, j) && p != AtWorker(w);
    }
    assert j in Todo(s) ==> Free(s, j);
  }

  /** A sweep that dies between writing a row and pushing its job strands it. */
  lemma LostSweepStrands(s: State, j: int)
    requires Orderly(s) && IsPushing(s, j)
    ensures Stranded(s.(sweeper := Resting), j)
  {
    var s' := s.(sweeper := Resting);
    assert Token(s, AtSweep, j);
    forall p
      ensures !Token(s', p, j)
    {
      assert Token(s', p, j) ==> Token(s, p, j) && p != AtSweep;
    }
  }

  // ----- why the sweep must be guarded -------------------------------------------------------------------

  /** Two workers are inside Process for the same job. */
  ghost predicate Clash(s: State, j: int) {
    exists v, w :: v in s.workers && w in s.workers && v != w &&
                   InsideProcess(s.workers[v], j) && InsideProcess(s.workers[w], j)
  }

  /** From any state in which a worker is inside Process and its row is processing: if the sweep may
      re-queue a slow live worker's job, a second worker can get inside too. */
  lemma UnguardedSweepBreaksExclusion(s: State, v: int, j: int) returns (t: State)
    requires v in s.workers && s.workers[v].Running? && s.workers[v].job == j
    requires j in s.rows && s.rows[j].status == Processing
    ensures Reaches(s, t, false) && Clash(t, j)
  {
    ReachesItself(s, false);
    hide Reaches, NextProcessing, NextMain;
    var u := ProcessingPush(s, s, false, j);
    var w: int;
    t, w := PopIt(s, u, false, j, 0);
    t := CallOn(s, t, false, w, Go);
    t := CallOn(s, t, false, w, Go);
    assert InsideProcess(t.workers[v], j) && InsideProcess(t.workers[w], j);
  }

  /** So from the empty system two workers can end up inside Process for any job. */
  lemma ExclusionCanBreak(j: int) returns (t: State)
    ensures Reaches(EMPTY, t, false) && Clash(t, j)
  {
    ReachesItself(EMPTY, false);
    hide Reaches, Clash, NextProcessing;
    var s := ReachesOn(EMPTY, EMPTY, false, Create(j));
    s := ReachesOn(EMPTY, s, false, Enqueue(j));
    var u, v := PopIt(EMPTY, s, false, j, 0);
    u := CallOn(EMPTY, u, false, v, Go);
    u := CallOn(EMPTY, u, false, v, Go);
    t := UnguardedSweepBreaksExclusion(u, v, j);
    ReachesThrough(EMPTY, u, t, false);
  }

  lemma ReachesThrough(s: State, t: State, u: State, careful: bool)
    requires Reaches(s, t, careful) && Reaches(t, u, careful)
    ensures Reaches(s, u, careful)
  {
    LeadsThrough(s, t, u, BenignRule(careful));
  }
}
