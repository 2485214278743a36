/** No two workers process the same job, as long as the sweep re-queues only jobs whose worker died
  * (internal/services/jobs/worker.go).
  */
module WorkerExclusion {
  import opened JobStore
  import opened WorkerProtocol

  // ----- tokens ----------------------------------------------------------------------------------

  /** Where permission to run a job can sit. */
  datatype Place = InMain(index: nat) | AtDispatcher | AtSweep | AtWorker(worker: int)

  ghost predicate Token(s: State, p: Place, j: int) {
    match p
    case InMain(k) => k < |s.main| && s.main[k] == j
    case AtDispatcher => j in s.dispatching
    case AtSweep => IsPushing(s, j)
    case AtWorker(w) => w in s.workers && Carries(s.workers[w], j)
  }

  /** A job's permission sits in at most one place. */
  ghost predicate Exclusive(s: State) {
    forall p, q, j :: Token(s, p, j) && Token(s, q, j) ==> p == q
  }

  /** Not inside a worker, or inside one that is about to push the job again. */
  predicate Outside(s: State, p: Place) {
    p.AtWorker? ==> p.worker in s.workers && s.workers[p.worker].Retrying?
  }

  /** Outside a worker, or in one about to push, the row says "queued". */
  ghost predicate QueuedOutside(s: State) {
    forall p, j :: Token(s, p, j) && Outside(s, p) ==>
      j in s.rows && s.rows[j].status == Queued
  }

  ghost predicate TokensKnown(s: State) {
    forall p, j :: Token(s, p, j) ==> j in s.rows
  }

  function Todo(s: State): seq<int> {
    if s.sweeper.Resting? then [] else s.sweeper.todo
  }

  ghost predicate Free(s: State, j: int) {
    j in s.rows && forall p :: !Token(s, p, j)
  }

  ghost predicate TodoFree(s: State) {
    Distinct(Todo(s)) && forall j :: j in Todo(s) ==> Free(s, j)
  }

  ghost predicate Orderly(s: State) {
    Exclusive(s) && TokensKnown(s) && QueuedOutside(s) && TodoFree(s)
  }

  /** The sweep lists only jobs that no live worker is still handling. */
  ghost predicate Guarded(s: State, a: Action) {
    a.ListStuck? ==> forall j, w :: j in a.jobs && w in s.workers ==> !Carries(s.workers[w], j)
  }

  // ----- moving tokens ---------------------------------------------------------------------------

  /** Every token of `s'` was in `s`, at the place `back` says, and no two were at the same one. */
  ghost predicate Moved(s: State, s': State, back: Place -> Place) {
    && (forall p, j :: Token(s', p, j) ==> Token(s, back(p), j))
    && (forall p, q, j :: Token(s', p, j) && Token(s', q, j) && back(p) == back(q) ==> p == q)
    && s.rows.Keys <= s'.rows.Keys
    && (Todo(s') == Todo(s) || Todo(s') == [])
  }

  lemma MovedKeeps(s: State, s': State, back: Place -> Place)
    requires Exclusive(s) && TokensKnown(s) && TodoFree(s) && Moved(s, s', back)
    ensures Exclusive(s') && TokensKnown(s') && TodoFree(s')
  {
    hide Token;
  }

  function Stay(p: Place): Place {
    p
  }

  /** The head of the main list came from `source`; everything else in it moved up by one. */
  function PushedFrom(source: Place): Place -> Place {
    (p: Place) => if p.InMain? then (if p.index == 0 then source else InMain(p.index - 1)) else p
  }

  function PoppedBy(w: int, tail: nat): Place -> Place {
    (p: Place) => if p == AtWorker(w) then InMain(tail) else p
  }

  // ----- worker calls ------------------------------------------------------------------------------

  lemma PopMoves(s: State, w: int)
    requires CanWork(s, w, Go) && s.workers[w].Idle?
    ensures Moved(s, Work(s, w, Go), PoppedBy(w, |s.main| - 1))
  {
    hide NextRows, NextProcessing;
    var s' := Work(s, w, Go);
    assert s'.rows == s.rows by {
      IdleRows(s, w);
    }
    forall p, j | Token(s', p, j)
      ensures Token(s, PoppedBy(w, |s.main| - 1)(p), j)
    {
    }
  }

  lemma IdleRows(s: State, w: int)
    requires CanWork(s, w, Go) && s.workers[w].Idle?
    ensures NextRows(s, w, Go) == s.rows
  {
  }

  lemma RetryPushMoves(s: State, w: int)
    requires CanWork(s, w, Go) && s.workers[w].Retrying?
    ensures Moved(s, Work(s, w, Go), PushedFrom(AtWorker(w)))
  {
    hide NextProcessing;
    var s' := Work(s, w, Go);
    forall p, j | Token(s', p, j)
      ensures Token(s, PushedFrom(AtWorker(w))(p), j)
    {
    }
  }

  lemma OtherCallMoves(s: State, w: int, c: Choice)
    requires CanWork(s, w, c) && !s.workers[w].Idle? && !s.workers[w].Retrying?
    ensures Moved(s, Work(s, w, c), Stay)
  {
    CarriedStays(s, w, c);
    KeysStay(s, w, c);
    hide NextRows, NextPhase, NextProcessing;
    var s' := Work(s, w, c);
    forall p, j | Token(s', p, j)
      ensures Token(s, p, j)
    {
    }
  }

  lemma CarriedStays(s: State, w: int, c: Choice)
    requires CanWork(s, w, c) && !s.workers[w].Idle?
    ensures forall j :: Carries(NextPhase(s, w, c), j) ==> Carries(s.workers[w], j)
  {
    hide Terminal;
  }

  lemma KeysStay(s: State, w: int, c: Choice)
    requires CanWork(s, w, c)
    ensures NextRows(s, w, c).Keys == s.rows.Keys
  {
  }

  /** A call only changes the row of the job it carries. */
  lemma RowsElsewhere(s: State, w: int, c: Choice, j: int)
    requires CanWork(s, w, c) && j in s.rows && !Carries(s.workers[w], j)
    ensures j in NextRows(s, w, c) && NextRows(s, w, c)[j] == s.rows[j]
  {
  }

  lemma RetryingRow(s: State, w: int, c: Choice)
    requires CanWork(s, w, c) && NextPhase(s, w, c).Retrying? && NextPhase(s, w, c).job in s.rows
    ensures NextRows(s, w, c)[NextPhase(s, w, c).job].status == Queued
    ensures Carries(s.workers[w], NextPhase(s, w, c).job)
  {
  }

  lemma CallQueuedOutside(s: State, w: int, c: Choice)
    requires Orderly(s) && CanWork(s, w, c)
    ensures QueuedOutside(Work(s, w, c))
  {
    hide NextRows, NextPhase, NextMain, NextProcessing, Exclusive, TodoFree, QueuedOutside;
    var s' := Work(s, w, c);
    forall p, j | Token(s', p, j) && Outside(s', p)
      ensures j in s'.rows && s'.rows[j].status == Queued
    {
      CallQueuedToken(s, w, c, p, j);
    }
    assert QueuedOutside(s') by {
      QueuedIntro(s');
    }
  }

  lemma QueuedIntro(s: State)
    requires forall p, j :: Token(s, p, j) && Outside(s, p) ==>
               j in s.rows && s.rows[j].status == Queued
    ensures QueuedOutside(s)
  {
  }

  lemma CallQueuedToken(s: State, w: int, c: Choice, p: Place, j: int)
    requires Orderly(s) && CanWork(s, w, c)
    requires Token(Work(s, w, c), p, j) && Outside(Work(s, w, c), p)
    ensures j in Work(s, w, c).rows && Work(s, w, c).rows[j].status == Queued
  {
    hide Exclusive, QueuedOutside, TodoFree, NextProcessing;
    if p == AtWorker(w) {
      CarriedStays(s, w, c);
      hide NextRows;
      assert Token(s, p, j);
      RetryingRow(s, w, c);
    } else if s.workers[w].Retrying? && p == InMain(0) {
      assert Token(s, AtWorker(w), j);
      QueuedElim(s, AtWorker(w), j);
    } else {
      var q := if s.workers[w].Retrying? && p.InMain? then InMain(p.index - 1) else p;
      assert Token(s, q, j);
      QueuedElim(s, q, j);
      NotCarriedToo(s, w, q, j);
      RowsElsewhere(s, w, c, j);
    }
  }

  lemma QueuedElim(s: State, p: Place, j: int)
    requires QueuedOutside(s) && Token(s, p, j) && Outside(s, p)
    ensures j in s.rows && s.rows[j].status == Queued
  {
  }

  lemma NotCarriedToo(s: State, w: int, p: Place, j: int)
    requires Exclusive(s) && Token(s, p, j) && p != AtWorker(w) && w in s.workers
    ensures !Carries(s.workers[w], j)
  {
    assert Carries(s.workers[w], j) ==> Token(s, AtWorker(w), j);
  }

  lemma CallKeepsOrder(s: State, w: int, c: Choice)
    requires Orderly(s) && CanWork(s, w, c)
    ensures Orderly(Work(s, w, c))
  {
    CallQueuedOutside(s, w, c);
    hide Exclusive, TokensKnown, TodoFree, QueuedOutside, Work, Moved;
    if s.workers[w].Idle? {
      PopMoves(s, w);
      MovedKeeps(s, Work(s, w, c), PoppedBy(w, |s.main| - 1));
    } else if s.workers[w].Retrying? {
      RetryPushMoves(s, w);
      MovedKeeps(s, Work(s, w, c), PushedFrom(AtWorker(w)));
    } else {
      OtherCallMoves(s, w, c);
      MovedKeeps(s, Work(s, w, c), Stay);
    }
  }

  // ----- the other steps -----------------------------------------------------------------------------

  lemma EnqueueKeepsOrder(s: State, j: int)
    requires Orderly(s) && j in s.dispatching
    ensures Orderly(Next(s, Enqueue(j)))
  {
    var s' := Next(s, Enqueue(j));
    assert Moved(s, s', PushedFrom(AtDispatcher)) by {
      forall p, i | Token(s', p, i)
        ensures Token(s, PushedFrom(AtDispatcher)(p), i)
      {
      }
    }
    MovedKeeps(s, s', PushedFrom(AtDispatcher));
    PushKeepsQueued(s, s', AtDispatcher);
  }

  lemma SweepPushKeepsOrder(s: State)
    requires Orderly(s) && s.sweeper.Pushing?
    ensures Orderly(Next(s, SweepPush))
  {
    var s' := Next(s, SweepPush);
    assert Moved(s, s', PushedFrom(AtSweep)) by {
      forall p, i | Token(s', p, i)
        ensures Token(s, PushedFrom(AtSweep)(p), i)
      {
      }
    }
    MovedKeeps(s, s', PushedFrom(AtSweep));
    PushKeepsQueued(s, s', AtSweep);
  }

  lemma PushKeepsQueued(s: State, s': State, source: Place)
    requires QueuedOutside(s) && Moved(s, s', PushedFrom(source)) && !source.AtWorker?
    requires s'.rows == s.rows && s'.workers == s.workers
    ensures QueuedOutside(s')
  {
    hide Token;
    forall p, j | Token(s', p, j) && Outside(s', p)
      ensures j in s'.rows && s'.rows[j].status == Queued
    {
      assert Token(s, PushedFrom(source)(p), j);
    }
  }

  lemma CreateKeepsOrder(s: State, j: int)
    requires Orderly(s) && j !in s.rows
    ensures Orderly(Next(s, Create(j)))
  {
    var s' := Next(s, Create(j));
    forall p, i
      ensures Token(s', p, i) <==> Token(s, p, i) || (p == AtDispatcher && i == j)
    {
    }
    hide Token;
    assert forall p :: !Token(s, p, j);
  }

  lemma SweepWriteKeepsOrder(s: State)
    requires Orderly(s) && Enabled(s, SweepWrite)
    ensures Orderly(Next(s, SweepWrite))
  {
    var s', j := Next(s, SweepWrite), s.sweeper.todo[0];
    assert j in Todo(s);
    forall p, i
      ensures Token(s', p, i) <==> Token(s, p, i) || (p == AtSweep && i == j)
    {
    }
    hide Token;
    assert Free(s, j);
    assert forall i :: i in Todo(s') ==> i in Todo(s) && i != j by {
      forall k | 0 <= k < |Todo(s')|
        ensures Todo(s')[k] in Todo(s) && Todo(s')[k] != j
      {
        assert Todo(s')[k] == Todo(s)[k + 1];
      }
    }
  }

  lemma ListStuckKeepsOrder(s: State, jobs: seq<int>)
    requires Orderly(s) && Enabled(s, ListStuck(jobs)) && Guarded(s, ListStuck(jobs))
    ensures Orderly(Next(s, ListStuck(jobs)))
  {
    var s' := Next(s, ListStuck(jobs));
    forall p, i
      ensures Token(s', p, i) <==> Token(s, p, i)
    {
    }
    forall j | j in jobs
      ensures Free(s', j)
    {
      forall p
        ensures !Token(s, p, j)
      {
        assert Outside(s, p) ==> !Token(s, p, j);
      }
    }
  }

  lemma QuietKeepsOrder(s: State, a: Action)
    requires Orderly(s) && Enabled(s, a) && (a.Spawn? || a.Crash? || a.SweepEnd?)
    ensures Orderly(Next(s, a))
  {
    var s' := Next(s, a);
    forall p, j | Token(s', p, j)
      ensures Token(s, p, j) && (p.AtWorker? ==> s'.workers[p.worker] == s.workers[p.worker])
    {
    }
    assert Moved(s, s', Stay);
    MovedKeeps(s, s', Stay);
    hide Token;
  }

  lemma StepKeepsOrder(s: State, a: Action)
    requires Orderly(s) && Enabled(s, a) && Guarded(s, a)
    ensures Orderly(Next(s, a))
  {
    hide Orderly, Work, Guarded;
    if a.Call? {
      CallKeepsOrder(s, a.worker, a.choice);
    } else if a.Create? {
      CreateKeepsOrder(s, a.job);
    } else if a.Enqueue? {
      EnqueueKeepsOrder(s, a.job);
    } else if a.SweepWrite? {
      SweepWriteKeepsOrder(s);
    } else if a.SweepPush? {
      SweepPushKeepsOrder(s);
    } else if a.ListStuck? {
      ListStuckKeepsOrder(s, a.jobs);
    } else {
      QuietKeepsOrder(s, a);
    }
  }

  lemma {:induction false} ReachableIsOrderly(ss: seq<State>, acts: seq<Action>, k: nat)
    requires Execution(ss, acts) && k < |ss|
    requires forall i :: 0 <= i < k ==> Guarded(ss[i], acts[i])
    ensures Orderly(ss[k])
  {
    if k == 0 {
      EmptyIsOrderly();
    } else {
      var i := k - 1;
      hide Orderly, Enabled, Next, Guarded;
      ReachableIsOrderly(ss, acts, i);
      assert Enabled(ss[i], acts[i]) && ss[i + 1] == Next(ss[i], acts[i]);
      StepKeepsOrder(ss[i], acts[i]);
    }
  }

  lemma EmptyIsOrderly()
    ensures Orderly(EMPTY)
  {
  }

  /** With any number of jobs and workers, any interleaving and crashes anywhere: if the sweep re-queues
      only jobs whose worker died, no two workers are ever inside Process for the same job, although
      a retry pushes the new copy before it acknowledges the old one. */
  lemma MutualExclusion(ss: seq<State>, acts: seq<Action>, k: nat, v: int, w: int, j: int)
    requires Execution(ss, acts) && k < |ss|
    requires forall i :: 0 <= i < k ==> Guarded(ss[i], acts[i])
    requires v in ss[k].workers && w in ss[k].workers
    requires InsideProcess(ss[k].workers[v], j) && InsideProcess(ss[k].workers[w], j)
    ensures v == w
  {
    hide Steps, Guarded;
    ReachableIsOrderly(ss, acts, k);
    var s := ss[k];
    assert Token(s, AtWorker(v), j) && Token(s, AtWorker(w), j);
  }

  // ----- what the sweep cannot recover -------------------------------------------------------------

  lemma OneMore(ss: seq<State>, acts: seq<Action>, a: Action) returns (ss': seq<State>, acts': seq<Action>)
    requires Steps(ss, acts) && Enabled(ss[|ss| - 1], a)
    ensures Steps(ss', acts') && ss'[0] == ss[0] && ss'[|ss'| - 1] == Next(ss[|ss| - 1], a)
  {
    hide Enabled, Next;
    ss', acts' := ss + [Next(ss[|ss| - 1], a)], acts + [a];
    forall k | 0 <= k < |acts'|
      ensures Enabled(ss'[k], acts'[k]) && ss'[k + 1] == Next(ss'[k], acts'[k])
    {
      if k < |acts| {
        assert Enabled(ss[k], acts[k]) && ss[k + 1] == Next(ss[k], acts[k]);
      }
    }
  }

  /** The row is "queued" but every copy is in the processing list and nobody alive handles it. */
  ghost predicate Stranded(s: State, j: int) {
    Free(s, j) && s.rows[j].status == Queued && j !in Todo(s)
  }

  /** The sweep only looks at processing rows, so a stranded job stays stranded whatever happens. */
  lemma StrandedForGood(s: State, a: Action, j: int)
    requires Stranded(s, j) && Enabled(s, a)
    ensures Stranded(Next(s, a), j)
  {
    var s' := Next(s, a);
    if a.Call? {
      CallLeavesStranded(s, a.worker, a.choice, j);
    } else {
      forall p
        ensures !Token(s', p, j)
      {
        assert !Token(s, p, j);
        assert p.InMain? && p.index > 0 ==> !Token(s, InMain(p.index - 1), j);
        assert !Token(s, AtDispatcher, j) && !Token(s, AtSweep, j);
      }
    }
  }

  lemma CallLeavesStranded(s: State, w: int, c: Choice, j: int)
    requires Stranded(s, j) && CanWork(s, w, c)
    ensures Stranded(Work(s, w, c), j)
  {
    assert !Token(s, AtWorker(w), j);
    RowsElsewhere(s, w, c, j);
    CarriedNowhere(s, w, c, j);
    hide NextRows, NextPhase, NextProcessing;
    var s' := Work(s, w, c);
    forall p
      ensures !Token(s', p, j)
    {
      assert !Token(s, p, j);
      assert p.InMain? && p.index > 0 ==> !Token(s, InMain(p.index - 1), j);
    }
  }

  lemma CarriedNowhere(s: State, w: int, c: Choice, j: int)
    requires Free(s, j) && CanWork(s, w, c)
    ensures !Carries(NextPhase(s, w, c), j)
  {
    hide Terminal;
    assert !Token(s, AtWorker(w), j);
    if s.workers[w].Idle? {
      assert !Token(s, InMain(|s.main| - 1), j);
    }
  }

  /** A worker that dies between popping a job and marking it strands it. */
  lemma CrashAfterPopStrands(j: int, w: int) returns (ss: seq<State>, acts: seq<Action>)
    ensures Execution(ss, acts) && Stranded(ss[|ss| - 1], j)
  {
    hide NextProcessing, NextRows;
    ss, acts := [EMPTY], [];
    ss, acts := OneMore(ss, acts, Create(j));
    ss, acts := OneMore(ss, acts, Enqueue(j));
    ss, acts := OneMore(ss, acts, Spawn(w));
    IdleRows(ss[|ss| - 1], w);
    ss, acts := OneMore(ss, acts, Call(w, Go));
    ss, acts := OneMore(ss, acts, Crash(w));
    assert ss[|ss| - 1].main == [] && ss[|ss| - 1].dispatching == {};
  }
}
