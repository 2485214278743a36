/** The weakest guard on the sweep that keeps two workers out of Process for the same job
  * (internal/services/jobs/worker.go).
  *
  * `WorkerExclusion` asks that no live worker handles a listed job at all.  For exclusion it is enough
  * that none of them may still run the job or push it again.  A worker that has finished with Process
  * and has no retry left cannot break exclusion; that it can still spoil the final status of the job is
  * the subject of `FinalStatus`.
  */
module ExclusionGuard {
  import opened JobStore
  import opened WorkerProtocol
  import opened WorkerExclusion
  import opened JobRecovery
  import opened Continuation

  // ----- permits -------------------------------------------------------------------------------------

  /** The worker is alive and may yet run the job, is running it, or will push it again. */
  predicate MayRun(p: Phase, j: int) {
    && Carries(p, j)
    && !p.Succeeded?
    && (p.Errored? || p.Counted? ==> p.retries + 1 < MAX_RETRIES)
  }

  ghost predicate Permit(s: State, p: Place, j: int) {
    Token(s, p, j) && (p.AtWorker? ==> p.worker in s.workers && MayRun(s.workers[p.worker], j))
  }

  ghost predicate Sole(s: State) {
    forall p, q, j :: Permit(s, p, j) && Permit(s, q, j) ==> p == q
  }

  ghost predicate PermitsKnown(s: State) {
    forall p, j :: Permit(s, p, j) ==> j in s.rows
  }

  /** The row of a job that waits outside a worker does not say "processing". */
  ghost predicate IdleOutside(s: State) {
    forall p, j :: Permit(s, p, j) && Outside(s, p) && j in s.rows ==> s.rows[j].status != Processing
  }

  ghost predicate Unpermitted(s: State, j: int) {
    j in s.rows && forall p :: !Permit(s, p, j)
  }

  ghost predicate TodoUnpermitted(s: State) {
    Distinct(Todo(s)) && forall j :: j in Todo(s) ==> Unpermitted(s, j)
  }

  ghost predicate InOrder(s: State) {
    Sole(s) && PermitsKnown(s) && IdleOutside(s) && TodoUnpermitted(s)
  }

  /** The sweep lists no job that a live worker may still run. */
  ghost predicate Harmless(s: State, a: Action) {
    a.ListStuck? ==> forall j, w :: j in a.jobs && w in s.workers ==> !MayRun(s.workers[w], j)
  }

  // ----- the guard is enough -------------------------------------------------------------------------

  /** Every permit of `s'` was in `s`, at the place `back` says, and no two were at the same one. */
  ghost predicate Shifted(s: State, s': State, back: Place -> Place) {
    && (forall p, j :: Permit(s', p, j) ==> Permit(s, back(p), j))
    && (forall p, q, j :: Permit(s', p, j) && Permit(s', q, j) && back(p) == back(q) ==> p == q)
    && s.rows.Keys <= s'.rows.Keys
    && (Todo(s') == Todo(s) || Todo(s') == [])
  }

  lemma ShiftedKeeps(s: State, s': State, back: Place -> Place)
    requires Sole(s) && PermitsKnown(s) && TodoUnpermitted(s) && Shifted(s, s', back)
    ensures Sole(s') && PermitsKnown(s') && TodoUnpermitted(s')
  {
    hide Permit;
  }

  lemma MayRunStays(s: State, w: int, c: Choice)
    requires CanWork(s, w, c) && !s.workers[w].Idle?
    ensures forall j :: MayRun(NextPhase(s, w, c), j) ==> MayRun(s.workers[w], j)
  {
    hide Terminal;
  }

  lemma CallShifts(s: State, w: int, c: Choice) returns (back: Place -> Place)
    requires CanWork(s, w, c)
    ensures Shifted(s, Work(s, w, c), back)
  {
    KeysStay(s, w, c);
    if s.workers[w].Idle? {
      back := PoppedBy(w, |s.main| - 1);
      PopMoves(s, w);
      PermitMoves(s, w, c, back);
    } else {
      MayRunStays(s, w, c);
      if s.workers[w].Retrying? {
        back := PushedFrom(AtWorker(w));
        RetryPushMoves(s, w);
        PermitMoves(s, w, c, back);
      } else {
        back := Stay;
        OtherCallMoves(s, w, c);
        PermitMoves(s, w, c, back);
      }
    }
  }

  /** Permits move as tokens do. */
  lemma PermitMoves(s: State, w: int, c: Choice, back: Place -> Place)
    requires CanWork(s, w, c) && Moved(s, Work(s, w, c), back)
    requires back == (if s.workers[w].Idle? then PoppedBy(w, |s.main| - 1)
                      else if s.workers[w].Retrying? then PushedFrom(AtWorker(w)) else Stay)
    requires !s.workers[w].Idle? ==> forall j :: MayRun(NextPhase(s, w, c), j) ==> MayRun(s.workers[w], j)
    ensures Shifted(s, Work(s, w, c), back)
  {
    hide NextRows, NextPhase, NextMain, NextProcessing, Token;
    var s' := Work(s, w, c);
    forall p, j | Permit(s', p, j)
      ensures Permit(s, back(p), j)
    {
      assert Token(s, back(p), j);
      if back(p).AtWorker? {
        RetryingMayRun(s, w, j);
        CarriedAt(s, back(p), j);
      }
    }
  }

  lemma RetryingMayRun(s: State, w: int, j: int)
    requires w in s.workers
    ensures s.workers[w].Retrying? && s.workers[w].job == j ==> MayRun(s.workers[w], j)
  {
  }

  lemma CarriedAt(s: State, p: Place, j: int)
    requires Token(s, p, j) && p.AtWorker?
    ensures p.worker in s.workers && Carries(s.workers[p.worker], j)
  {
  }

  /** Only a worker that has loaded a job marks its row as processing. */
  lemma MarksOwnRow(s: State, w: int, c: Choice, j: int)
    requires CanWork(s, w, c) && j in s.rows
    ensures j in NextRows(s, w, c)
    ensures NextRows(s, w, c)[j].status == Processing ==>
              s.rows[j].status == Processing || (s.workers[w].Loaded? && s.workers[w].job == j)
  {
  }

  /** A worker that counts its failure with a retry left queues the row first. */
  lemma RetryingIsQueued(s: State, w: int, c: Choice, j: int)
    requires CanWork(s, w, c) && NextPhase(s, w, c).Retrying? && NextPhase(s, w, c).job == j && j in NextRows(s, w, c)
    ensures NextRows(s, w, c)[j].status == Queued
  {
  }

  lemma CallIdleOutside(s: State, w: int, c: Choice)
    requires InOrder(s) && CanWork(s, w, c)
    ensures IdleOutside(Work(s, w, c))
  {
    var back := CallShifts(s, w, c);
    KeysStay(s, w, c);
    hide Sole, PermitsKnown, IdleOutside, TodoUnpermitted, NextRows, NextPhase, NextMain, NextProcessing;
    var s' := Work(s, w, c);
    forall p, j | Permit(s', p, j) && Outside(s', p) && j in s'.rows
      ensures s'.rows[j].status != Processing
    {
      OutsideAfterCall(s, w, c, p, j);
    }
    IdleIntro(s');
  }

  lemma IdleIntro(s: State)
    requires forall p, j :: Permit(s, p, j) && Outside(s, p) && j in s.rows ==> s.rows[j].status != Processing
    ensures IdleOutside(s)
  {
  }

  lemma OutsideAfterCall(s: State, w: int, c: Choice, p: Place, j: int)
    requires Sole(s) && IdleOutside(s) && CanWork(s, w, c)
    requires Permit(Work(s, w, c), p, j) && Outside(Work(s, w, c), p) && j in s.rows
    ensures j in Work(s, w, c).rows && Work(s, w, c).rows[j].status != Processing
  {
    hide Sole, IdleOutside, NextProcessing;
    MarksOwnRow(s, w, c, j);
    if p == AtWorker(w) {
      RetryingIsQueued(s, w, c, j);
    } else {
      var q := PermitBefore(s, w, c, p, j);
      NotProcessing(s, q, j);
      if s.workers[w].Loaded? && s.workers[w].job == j {
        assert Permit(s, AtWorker(w), j);
        TwoPermits(s, q, AtWorker(w), j);
      }
    }
  }

  lemma PermitBefore(s: State, w: int, c: Choice, p: Place, j: int) returns (q: Place)
    requires CanWork(s, w, c) && p != AtWorker(w)
    requires Permit(Work(s, w, c), p, j) && Outside(Work(s, w, c), p)
    ensures Permit(s, q, j) && Outside(s, q)
  {
    hide NextRows, NextPhase, NextProcessing;
    q := if s.workers[w].Retrying? && p.InMain? then (if p.index == 0 then AtWorker(w) else InMain(p.index - 1)) else p;
  }

  lemma NotProcessing(s: State, p: Place, j: int)
    requires IdleOutside(s) && Permit(s, p, j) && Outside(s, p) && j in s.rows
    ensures s.rows[j].status != Processing
  {
  }

  lemma TwoPermits(s: State, p: Place, q: Place, j: int)
    requires Sole(s) && Permit(s, p, j) && Permit(s, q, j)
    ensures p == q
  {
  }

  lemma CallStaysInOrder(s: State, w: int, c: Choice)
    requires InOrder(s) && CanWork(s, w, c)
    ensures InOrder(Work(s, w, c))
  {
    hide Sole, PermitsKnown, IdleOutside, TodoUnpermitted, Work, Shifted;
    CallIdleOutside(s, w, c);
    var back := CallShifts(s, w, c);
    ShiftedKeeps(s, Work(s, w, c), back);
  }

  lemma PushStaysInOrder(s: State, s': State, source: Place)
    requires InOrder(s) && Shifted(s, s', PushedFrom(source)) && !source.AtWorker?
    requires s'.rows == s.rows && s'.workers == s.workers
    ensures InOrder(s')
  {
    ShiftedKeeps(s, s', PushedFrom(source));
    hide Permit, Sole, PermitsKnown, TodoUnpermitted;
    forall p, j | Permit(s', p, j) && Outside(s', p) && j in s'.rows
      ensures s'.rows[j].status != Processing
    {
      assert Permit(s, PushedFrom(source)(p), j);
    }
  }

  lemma EnqueueStaysInOrder(s: State, j: int)
    requires InOrder(s) && j in s.dispatching
    ensures InOrder(Next(s, Enqueue(j)))
  {
    hide InOrder;
    var s' := Next(s, Enqueue(j));
    assert Shifted(s, s', PushedFrom(AtDispatcher)) by {
      forall p, i | Permit(s', p, i)
        ensures Permit(s, PushedFrom(AtDispatcher)(p), i)
      {
      }
    }
    PushStaysInOrder(s, s', AtDispatcher);
  }

  lemma SweepPushStaysInOrder(s: State)
    requires InOrder(s) && s.sweeper.Pushing?
    ensures InOrder(Next(s, SweepPush))
  {
    hide InOrder;
    var s' := Next(s, SweepPush);
    assert Shifted(s, s', PushedFrom(AtSweep)) by {
      forall p, i | Permit(s', p, i)
        ensures Permit(s, PushedFrom(AtSweep)(p), i)
      {
      }
    }
    PushStaysInOrder(s, s', AtSweep);
  }

  lemma CreateStaysInOrder(s: State, j: int)
    requires InOrder(s) && j !in s.rows
    ensures InOrder(Next(s, Create(j)))
  {
    var s' := Next(s, Create(j));
    forall p, i
      ensures Permit(s', p, i) <==> Permit(s, p, i) || (p == AtDispatcher && i == j)
    {
    }
    hide Permit;
    assert forall p :: !Permit(s, p, j);
  }

  lemma SweepWriteStaysInOrder(s: State)
    requires InOrder(s) && Enabled(s, SweepWrite)
    ensures InOrder(Next(s, SweepWrite))
  {
    var s', j := Next(s, SweepWrite), s.sweeper.todo[0];
    assert j in Todo(s);
    forall p, i
      ensures Permit(s', p, i) <==> Permit(s, p, i) || (p == AtSweep && i == j)
    {
    }
    hide Permit;
    assert Unpermitted(s, j);
    forall k | 0 <= k < |Todo(s')|
      ensures Todo(s')[k] in Todo(s) && Todo(s')[k] != j
    {
      assert Todo(s')[k] == Todo(s)[k + 1];
    }
  }

  lemma ListStaysInOrder(s: State, jobs: seq<int>)
    requires InOrder(s) && Enabled(s, ListStuck(jobs)) && Harmless(s, ListStuck(jobs))
    ensures InOrder(Next(s, ListStuck(jobs)))
  {
    var s' := Next(s, ListStuck(jobs));
    forall p, i
      ensures Permit(s', p, i) <==> Permit(s, p, i)
    {
    }
    forall j | j in jobs
      ensures Unpermitted(s', j)
    {
      forall p
        ensures !Permit(s, p, j)
      {
        assert Outside(s, p) ==> !Permit(s, p, j);
      }
    }
  }

  lemma QuietStaysInOrder(s: State, a: Action)
    requires InOrder(s) && Enabled(s, a) && (a.Spawn? || a.Crash? || a.SweepEnd?)
    ensures InOrder(Next(s, a))
  {
    var s' := Next(s, a);
    forall p, j | Permit(s', p, j)
      ensures Permit(s, p, j) && (p.AtWorker? ==> s'.workers[p.worker] == s.workers[p.worker])
    {
    }
    assert Shifted(s, s', Stay);
    ShiftedKeeps(s, s', Stay);
    hide Permit;
  }

  lemma StepStaysInOrder(s: State, a: Action)
    requires InOrder(s) && Enabled(s, a) && Harmless(s, a)
    ensures InOrder(Next(s, a))
  {
    hide InOrder, Work, Harmless;
    if a.Call? {
      CallStaysInOrder(s, a.worker, a.choice);
    } else if a.Create? {
      CreateStaysInOrder(s, a.job);
    } else if a.Enqueue? {
      EnqueueStaysInOrder(s, a.job);
    } else if a.SweepWrite? {
      SweepWriteStaysInOrder(s);
    } else if a.SweepPush? {
      SweepPushStaysInOrder(s);
    } else if a.ListStuck? {
      ListStaysInOrder(s, a.jobs);
    } else {
      QuietStaysInOrder(s, a);
    }
  }

  lemma EmptyInOrder()
    ensures InOrder(EMPTY)
  {
  }

  lemma {:induction false} StaysInOrder(ss: seq<State>, acts: seq<Action>, k: nat)
    requires Steps(ss, acts) && k < |ss| && InOrder(ss[0])
    requires forall i :: 0 <= i < k ==> Harmless(ss[i], acts[i])
    ensures InOrder(ss[k])
  {
    hide InOrder, Enabled, Next, Harmless;
    if k > 0 {
      var i := k - 1;
      StaysInOrder(ss, acts, i);
      assert Enabled(ss[i], acts[i]) && ss[i + 1] == Next(ss[i], acts[i]);
      StepStaysInOrder(ss[i], acts[i]);
    }
  }

  lemma InOrderNoClash(s: State, j: int)
    requires InOrder(s)
    ensures !Clash(s, j)
  {
    forall v, w | v in s.workers && w in s.workers && InsideProcess(s.workers[v], j) && InsideProcess(s.workers[w], j)
      ensures v == w
    {
      assert Permit(s, AtWorker(v), j) && Permit(s, AtWorker(w), j);
    }
  }

  /** Over every interleaving, crashes anywhere, in which the sweep lists no job that a live worker may
      still run, no two workers are ever inside Process for the same job. */
  lemma HarmlessSweepsExclude(ss: seq<State>, acts: seq<Action>, k: nat, j: int)
    requires Execution(ss, acts) && k < |ss|
    requires forall i :: 0 <= i < k ==> Harmless(ss[i], acts[i])
    ensures !Clash(ss[k], j)
  {
    hide Enabled, Next, InOrder, Harmless, Clash;
    EmptyInOrder();
    StaysInOrder(ss, acts, k);
    InOrderNoClash(ss[k], j);
  }

  // ----- the guard is needed -------------------------------------------------------------------------

  ghost function HarmlessRule(): Rule {
    (s: State, a: Action) => Harmless(s, a)
  }

  /** Harmless steps lead from `s` to `t`. */
  ghost predicate LeadsHarmlessly(s: State, t: State) {
    LeadsBy(s, t, HarmlessRule())
  }

  lemma CarefulIsHarmless(s: State, t: State)
    requires Reaches(s, t, true)
    ensures LeadsHarmlessly(s, t)
  {
    LeadsWeaker(s, t, BenignRule(true), HarmlessRule());
  }

  lemma HarmlessElim(s: State, t: State) returns (ss: seq<State>, acts: seq<Action>)
    requires LeadsHarmlessly(s, t)
    ensures Steps(ss, acts) && ss[0] == s && ss[|ss| - 1] == t
    ensures forall k :: 0 <= k < |acts| ==> Harmless(ss[k], acts[k])
  {
    hide Enabled, Next, LeadsBy, Harmless;
    ss, acts := LeadsElim(s, t, HarmlessRule());
    forall k | 0 <= k < |acts|
      ensures Harmless(ss[k], acts[k])
    {
      assert HarmlessRule()(ss[k], acts[k]);
    }
  }

  /** A queued copy is taken up by a fresh worker, while nobody else moves. */
  lemma TakeUp(s: State, t: State, j: int) returns (u: State, w: int)
    requires Reaches(s, t, true) && t.main != [] && t.main[0] == j && j in t.rows && !Terminal(t.rows[j].status)
    ensures Reaches(s, u, true) && w in u.workers && w !in t.workers && InsideProcess(u.workers[w], j)
    ensures forall v :: v in t.workers ==> v in u.workers && u.workers[v] == t.workers[v]
    ensures j in u.rows && u.rows[j].status == Processing
  {
    hide Reaches, NextProcessing, NextMain;
    u, w := PopIt(s, t, true, j, 0);
    u := CallOn(s, u, true, w, Go);
    u := CallOn(s, u, true, w, Go);
  }

  /** One worker is inside; another that may run the job follows, or pushes a copy that a third takes up. */
  lemma Follow(s: State, t: State, v: int, w: int, j: int) returns (u: State)
    requires Reaches(s, t, true) && v in t.workers && w in t.workers && v != w
    requires InsideProcess(t.workers[w], j) && MayRun(t.workers[v], j)
    requires j in t.rows && t.rows[j].status == Processing
    ensures Reaches(s, u, true) && Clash(u, j)
  {
    hide Reaches;
    u := t;
    if t.workers[v].Popped? || t.workers[v].Loaded? {
      u := FollowInside(s, t, v, j);
    } else if !InsideProcess(t.workers[v], j) {
      u := PushCopy(s, t, v, j);
      var x: int;
      u, x := TakeUp(s, u, j);
      assert u.workers[w] == t.workers[w] && x != w && InsideProcess(u.workers[x], j) && InsideProcess(u.workers[w], j);
      return;
    }
    assert InsideProcess(u.workers[v], j) && InsideProcess(u.workers[w], j);
  }

  lemma FollowInside(s: State, t: State, v: int, j: int) returns (u: State)
    requires Reaches(s, t, true) && v in t.workers && (t.workers[v].Popped? || t.workers[v].Loaded?)
    requires t.workers[v].job == j && j in t.rows && t.rows[j].status == Processing
    ensures Reaches(s, u, true) && v in u.workers && InsideProcess(u.workers[v], j)
    ensures forall w :: w in t.workers && w != v ==> w in u.workers && u.workers[w] == t.workers[w]
  {
    hide Reaches, NextProcessing, NextMain;
    u := t;
    if t.workers[v].Popped? {
      u := CallOn(s, u, true, v, Go);
    }
    u := CallOn(s, u, true, v, Go);
  }

  /** A queued copy is in front, and only worker `v` has moved. */
  predicate Copied(t: State, u: State, v: int, j: int) {
    && u.main != [] && u.main[0] == j && j in u.rows && !Terminal(u.rows[j].status)
    && forall w :: w in t.workers && w != v ==> w in u.workers && u.workers[w] == t.workers[w]
  }

  lemma PushRetrying(s: State, t: State, v: int, j: int) returns (u: State)
    requires Reaches(s, t, true) && v in t.workers && t.workers[v] == Retrying(j)
    requires j in t.rows && !Terminal(t.rows[j].status)
    ensures Reaches(s, u, true) && Copied(t, u, v, j)
  {
    hide Reaches, NextProcessing;
    u := CallOn(s, t, true, v, Go);
  }

  lemma PushCounted(s: State, t: State, v: int, j: int) returns (u: State)
    requires Reaches(s, t, true) && v in t.workers && t.workers[v].Counted? && MayRun(t.workers[v], j) && j in t.rows
    ensures Reaches(s, u, true) && Copied(t, u, v, j)
  {
    hide Reaches, NextProcessing, NextMain, Copied;
    var m := CallOn(s, t, true, v, Go);
    u := PushRetrying(s, m, v, j);
    CopiedThrough(t, m, u, v, j);
  }

  /** A worker with a retry left comes to its push. */
  lemma PushCopy(s: State, t: State, v: int, j: int) returns (u: State)
    requires Reaches(s, t, true) && v in t.workers && MayRun(t.workers[v], j) && j in t.rows
    requires t.rows[j].status == Processing
    requires t.workers[v].Errored? || t.workers[v].Counted? || t.workers[v].Retrying?
    ensures Reaches(s, u, true) && Copied(t, u, v, j)
  {
    hide Reaches, NextProcessing, NextMain, Copied;
    if t.workers[v].Errored? {
      var m := CallOn(s, t, true, v, Go);
      u := PushCounted(s, m, v, j);
      CopiedThrough(t, m, u, v, j);
    } else if t.workers[v].Counted? {
      u := PushCounted(s, t, v, j);
    } else {
      u := PushRetrying(s, t, v, j);
    }
  }

  lemma CopiedThrough(t: State, m: State, u: State, v: int, j: int)
    requires Copied(m, u, v, j)
    requires forall w :: w in t.workers && w != v ==> w in m.workers && m.workers[w] == t.workers[w]
    ensures Copied(t, u, v, j)
  {
  }

  lemma HarmfulListClashes(s: State, jobs: seq<int>, v: int, j: int)
    requires Enabled(s, ListStuck(jobs)) && j in jobs && v in s.workers && MayRun(s.workers[v], j)
    ensures exists t :: LeadsHarmlessly(Next(s, ListStuck(jobs)), t) && Clash(t, j)
  {
    var s' := Next(s, ListStuck(jobs));
    ReachesItself(s', true);
    hide Reaches, Clash, LeadsHarmlessly;
    var t := TodoPush(s', s', true, j);
    var w: int;
    t, w := TakeUp(s', t, j);
    t := Follow(s', t, v, w, j);
    CarefulIsHarmless(s', t);
  }

  lemma HarmlessListNeverClashes(s: State, jobs: seq<int>, t: State, j: int)
    requires InOrder(s) && Enabled(s, ListStuck(jobs)) && Harmless(s, ListStuck(jobs))
    requires LeadsHarmlessly(Next(s, ListStuck(jobs)), t)
    ensures !Clash(t, j)
  {
    ListStaysInOrder(s, jobs);
    hide Enabled, Next, InOrder, Harmless, Clash;
    var ss, acts := HarmlessElim(Next(s, ListStuck(jobs)), t);
    StaysInOrder(ss, acts, |acts|);
    InOrderNoClash(t, j);
  }

  /** The guard is exact.  From any state so reached, a sweep that lists `jobs` opens a way, by harmless
      steps alone, to two workers inside Process for one job if and only if one of the listed jobs may
      still be run by a live worker. */
  lemma ClashIffHarmful(ss: seq<State>, acts: seq<Action>, k: nat, jobs: seq<int>)
    requires Execution(ss, acts) && k < |ss|
    requires forall i :: 0 <= i < k ==> Harmless(ss[i], acts[i])
    requires Enabled(ss[k], ListStuck(jobs))
    ensures (exists t, j :: LeadsHarmlessly(Next(ss[k], ListStuck(jobs)), t) && Clash(t, j)) <==>
            !Harmless(ss[k], ListStuck(jobs))
  {
    hide InOrder, Clash, MayRun, LeadsHarmlessly, Work;
    EmptyInOrder();
    StaysInOrder(ss, acts, k);
    var s := ss[k];
    if Harmless(s, ListStuck(jobs)) {
      forall t, j | LeadsHarmlessly(Next(s, ListStuck(jobs)), t)
        ensures !Clash(t, j)
      {
        HarmlessListNeverClashes(s, jobs, t, j);
      }
    } else {
      var j, v :| j in jobs && v in s.workers && MayRun(s.workers[v], j);
      HarmfulListClashes(s, jobs, v, j);
    }
  }
}
