/** The job queue as a step machine: dispatchers, workers and the recovery sweep
  * (internal/services/jobs/worker.go, internal/services/jobs/dispatcher.go).
  *
  * Each Redis or SQL call is one atomic step.  There are any number of jobs and workers, and they
  * interleave freely.  "Stuck for ten minutes" is a nondeterministic choice among processing rows.
  */
module WorkerProtocol {
  import opened JobStore

  const MAX_RETRIES := 3

  // ----- state -----------------------------------------------------------------------------------

  /** Where a worker is inside `runLoop` and `processJob`. */
  datatype Phase =
    | Idle
    | Popped(job: int)
    | Loaded(job: int, retries: nat)
    | Running(job: int, retries: nat)   // inside Process
    | Reported(job: int)                // still inside Process, which has already written "completed"
    | Succeeded(job: int)
    | Errored(job: int, retries: nat)
    | Counted(job: int, retries: nat)
    | Retrying(job: int)                // status is "queued", the new copy not yet pushed
    | Acking(job: int)
    | Dead(last: Phase)

  datatype Sweeper = Resting | Sweeping(todo: seq<int>) | Pushing(job: int, todo: seq<int>)

  /** `pushed`, `acked`, `started` and `errors` count, per job, successful pushes, effective
      acknowledges, entries into Process and failed returns from it. */
  datatype State = State(
    rows: JobTable,
    main: seq<int>,
    processing: seq<int>,
    workers: map<int, Phase>,
    dispatching: set<int>,
    sweeper: Sweeper,
    pushed: multiset<int>,
    acked: multiset<int>,
    started: multiset<int>,
    errors: multiset<int>)

  /** The worker has popped the job and not acknowledged it. */
  predicate Holds(p: Phase, j: int) {
    match p
    case Idle => false
    case Dead(q) => Holds(q, j)
    case _ => p.job == j
  }

  /** The worker is alive and can still run the job or push it again. */
  predicate Carries(p: Phase, j: int) {
    !p.Idle? && !p.Acking? && !p.Dead? && p.job == j
  }

  predicate InsideProcess(p: Phase, j: int) {
    (p.Running? || p.Reported?) && p.job == j
  }

  // ----- one call of a worker --------------------------------------------------------------------

  /** What Process does next, where that is not determined. */
  datatype Choice = Go | ReportDone | ReturnOk | ReturnError

  predicate CanWork(s: State, w: int, c: Choice) {
    w in s.workers &&
    match s.workers[w]
    case Idle => c == Go && s.main != []
    case Running(_, _) => c != Go
    case Reported(_) => c == ReturnOk
    case Dead(_) => false
    case _ => c == Go
  }

  /** The job at the tail of the main list. */
  function Tail(s: State): int
    requires s.main != []
  {
    s.main[|s.main| - 1]
  }

  function NextPhase(s: State, w: int, c: Choice): Phase
    requires CanWork(s, w, c)
  {
    match s.workers[w]
    case Idle => Popped(Tail(s))
    case Popped(j) => if j !in s.rows || Terminal(s.rows[j].status) then Acking(j) else Loaded(j, s.rows[j].retries)
    case Loaded(j, r) => Running(j, r)
    case Running(j, r) => if c == ReportDone then Reported(j) else if c == ReturnOk then Succeeded(j) else Errored(j, r)
    case Reported(j) => Succeeded(j)
    case Succeeded(j) => Acking(j)
    case Errored(j, r) => Counted(j, r)
    case Counted(j, r) => if r + 1 >= MAX_RETRIES then Acking(j) else Retrying(j)
    case Retrying(j) => Acking(j)
    case Acking(_) => Idle
    case Dead(p) => Dead(p)
  }

  function NextRows(s: State, w: int, c: Choice): JobTable
    requires CanWork(s, w, c)
  {
    match s.workers[w]
    case Loaded(j, _) => WithStatus(s.rows, j, Processing)
    case Running(j, _) => if c == ReportDone then WithStatus(s.rows, j, Completed) else s.rows
    case Succeeded(j) => WithStatus(s.rows, j, Completed)
    case Errored(j, _) => WithOneMoreRetry(s.rows, j)
    case Counted(j, r) => WithStatus(s.rows, j, if r + 1 >= MAX_RETRIES then Failed else Queued)
    case _ => s.rows
  }

  function NextMain(s: State, w: int, c: Choice): seq<int>
    requires CanWork(s, w, c)
  {
    match s.workers[w]
    case Idle => s.main[..|s.main| - 1]
    case Retrying(j) => [j] + s.main
    case _ => s.main
  }

  function NextProcessing(s: State, w: int, c: Choice): seq<int>
    requires CanWork(s, w, c)
  {
    match s.workers[w]
    case Idle => [Tail(s)] + s.processing
    case Acking(j) => RemoveFirst(s.processing, j)
    case _ => s.processing
  }

  /** The call a worker makes next, with its effect on the lists, the row and the worker itself. */
  function Work(s: State, w: int, c: Choice): State
    requires CanWork(s, w, c)
  {
    var p := s.workers[w];
    State(
      NextRows(s, w, c),
      NextMain(s, w, c),
      NextProcessing(s, w, c),
      s.workers[w := NextPhase(s, w, c)],
      s.dispatching,
      s.sweeper,
      if p.Retrying? then s.pushed + multiset{p.job} else s.pushed,
      if p.Acking? && p.job in s.processing then s.acked + multiset{p.job} else s.acked,
      if p.Loaded? then s.started + multiset{p.job} else s.started,
      if p.Running? && c == ReturnError then s.errors + multiset{p.job} else s.errors)
  }

  function Pushed(s: State, j: int): State {
    s.(main := [j] + s.main, pushed := s.pushed + multiset{j})
  }

  // ----- steps -----------------------------------------------------------------------------------

  datatype Action =
    | Create(job: int)
    | Enqueue(job: int)
    | Spawn(worker: int)
    | Call(worker: int, choice: Choice)
    | Crash(worker: int)
    | ListStuck(jobs: seq<int>)
    | SweepWrite
    | SweepPush
    | SweepEnd

  predicate Distinct(jobs: seq<int>) {
    forall i, j :: 0 <= i < j < |jobs| ==> jobs[i] != jobs[j]
  }

  predicate Enabled(s: State, a: Action) {
    match a
    case Create(j) => j !in s.rows
    case Enqueue(j) => j in s.dispatching
    case Spawn(w) => w !in s.workers
    case Call(w, c) => CanWork(s, w, c)
    case Crash(w) => w in s.workers && !s.workers[w].Dead?
    case ListStuck(jobs) =>
      s.sweeper == Resting && Distinct(jobs) && forall j :: j in jobs ==> j in s.rows && s.rows[j].status == Processing
    case SweepWrite => s.sweeper.Sweeping? && s.sweeper.todo != []
    case SweepPush => s.sweeper.Pushing?
    case SweepEnd => s.sweeper == Sweeping([])
  }

  function Next(s: State, a: Action): State
    requires Enabled(s, a)
  {
    match a
    case Create(j) => s.(rows := s.rows[j := Job(Queued, 0)], dispatching := s.dispatching + {j})
    case Enqueue(j) => Pushed(s, j).(dispatching := s.dispatching - {j})
    case Spawn(w) => s.(workers := s.workers[w := Idle])
    case Call(w, c) => Work(s, w, c)
    case Crash(w) => s.(workers := s.workers[w := Dead(s.workers[w])])
    case ListStuck(jobs) => s.(sweeper := Sweeping(jobs))
    case SweepWrite =>
      var j := s.sweeper.todo[0];
      s.(rows := WithStatus(s.rows, j, Queued), sweeper := Pushing(j, s.sweeper.todo[1..]))
    case SweepPush => Pushed(s, s.sweeper.job).(sweeper := Sweeping(s.sweeper.todo))
    case SweepEnd => s.(sweeper := Resting)
  }

  const EMPTY := State(map[], [], [], map[], {}, Resting, multiset{}, multiset{}, multiset{}, multiset{})

  /** Consecutive steps: `ss[k]` is the state before action `k`. */
  ghost predicate Steps(ss: seq<State>, acts: seq<Action>) {
    && |ss| == |acts| + 1
    && forall k :: 0 <= k < |acts| ==> Enabled(ss[k], acts[k]) && ss[k + 1] == Next(ss[k], acts[k])
  }

  ghost predicate Execution(ss: seq<State>, acts: seq<Action>) {
    Steps(ss, acts) && ss[0] == EMPTY
  }

  // ----- conservation of copies --------------------------------------------------------------------

  ghost predicate Conserved(s: State) {
    s.pushed == multiset(s.main) + multiset(s.processing) + s.acked
  }

  lemma StepConserves(s: State, a: Action)
    requires Conserved(s) && Enabled(s, a)
    ensures Conserved(Next(s, a))
  {
    if a.Call? {
      CallConserves(s, a.worker, a.choice);
    }
  }

  lemma CallConserves(s: State, w: int, c: Choice)
    requires Conserved(s) && CanWork(s, w, c)
    ensures Conserved(Work(s, w, c))
  {
    hide NextRows, NextPhase, RemoveFirst, Conserved;
    if s.workers[w].Idle? {
      PopConserves(s, w);
    } else if s.workers[w].Retrying? {
      PushConserves(s, Work(s, w, c), s.workers[w].job);
    } else if s.workers[w].Acking? {
      AckConserves(s, w, s.workers[w].job);
    } else {
      UntouchedConserves(s, Work(s, w, c));
    }
  }

  lemma UntouchedConserves(s: State, s': State)
    requires Conserved(s) && s'.main == s.main && s'.processing == s.processing && s'.pushed == s.pushed && s'.acked == s.acked
    ensures Conserved(s')
  {
  }

  lemma PushConserves(s: State, s': State, j: int)
    requires Conserved(s) && s'.main == [j] + s.main && s'.pushed == s.pushed + multiset{j}
    requires s'.processing == s.processing && s'.acked == s.acked
    ensures Conserved(s')
  {
  }

  lemma PopConserves(s: State, w: int)
    requires Conserved(s) && CanWork(s, w, Go) && s.workers[w] == Idle
    ensures Conserved(Work(s, w, Go))
  {
    hide NextRows, NextPhase;
    var s' := Work(s, w, Go);
    MoveTail(s.main, s.processing);
    assert s'.main == s.main[..|s.main| - 1] && s'.processing == [Tail(s)] + s.processing;
    assert s'.pushed == s.pushed && s'.acked == s.acked;
  }

  lemma AckConserves(s: State, w: int, j: int)
    requires Conserved(s) && CanWork(s, w, Go) && s.workers[w] == Acking(j)
    ensures Conserved(Work(s, w, Go))
  {
    hide NextRows, NextPhase, RemoveFirst;
    var s' := Work(s, w, Go);
    assert s'.main == s.main && s'.processing == RemoveFirst(s.processing, j) && s'.pushed == s.pushed;
    RemoveFirstCounts(s.processing, j);
    AckArithmetic(multiset(s.main), multiset(s.processing), s.acked, j);
  }

  lemma AckArithmetic(m: multiset<int>, p: multiset<int>, a: multiset<int>, j: int)
    ensures m + (p - multiset{j}) + (if j in p then a + multiset{j} else a) == m + p + a
  {
  }

  lemma MoveTail(main: seq<int>, processing: seq<int>)
    requires main != []
    ensures multiset(main[..|main| - 1]) + multiset([main[|main| - 1]] + processing) == multiset(main) + multiset(processing)
  {
    assert main == main[..|main| - 1] + [main[|main| - 1]];
  }

  // ----- every unacknowledged holder has its copy --------------------------------------------------

  ghost function Holders(s: State, j: int): set<int> {
    set w | w in s.workers && Holds(s.workers[w], j)
  }

  ghost predicate Balanced(s: State) {
    forall j :: multiset(s.processing)[j] == |Holders(s, j)|
  }

  lemma SameHolders(s: State, s': State, w: int)
    requires s'.processing == s.processing && s'.workers.Keys == s.workers.Keys + {w}
    requires forall v :: v in s.workers && v != w ==> s'.workers[v] == s.workers[v]
    requires forall j :: Holds(s'.workers[w], j) <==> w in s.workers && Holds(s.workers[w], j)
    requires Balanced(s)
    ensures Balanced(s')
  {
    forall j
      ensures multiset(s'.processing)[j] == |Holders(s', j)|
    {
      forall v
        ensures v in Holders(s', j) <==> v in Holders(s, j)
      {
        assert Holds(s'.workers[w], j) <==> w in s.workers && Holds(s.workers[w], j);
      }
      assert Holders(s', j) == Holders(s, j);
    }
  }

  lemma StepBalances(s: State, a: Action)
    requires Balanced(s) && Enabled(s, a)
    ensures Balanced(Next(s, a))
  {
    hide Balanced, Work;
    if a.Call? {
      CallBalances(s, a.worker, a.choice);
    } else if a.Spawn? || a.Crash? {
      SameHolders(s, Next(s, a), a.worker);
    } else {
      UntouchedBalances(s, Next(s, a));
    }
  }

  lemma UntouchedBalances(s: State, s': State)
    requires Balanced(s) && s'.processing == s.processing && s'.workers == s.workers
    ensures Balanced(s')
  {
    forall j
      ensures multiset(s'.processing)[j] == |Holders(s', j)|
    {
      assert Holders(s', j) == Holders(s, j);
    }
  }

  lemma CallBalances(s: State, w: int, c: Choice)
    requires Balanced(s) && CanWork(s, w, c)
    ensures Balanced(Work(s, w, c))
  {
    hide Balanced, NextRows, RemoveFirst, Terminal;
    if s.workers[w].Idle? {
      PopBalances(s, w);
    } else if s.workers[w].Acking? {
      AckBalances(s, w, s.workers[w].job);
    } else {
      SameJobHeld(s, w, c);
      hide NextPhase;
      SameHolders(s, Work(s, w, c), w);
    }
  }

  lemma SameJobHeld(s: State, w: int, c: Choice)
    requires CanWork(s, w, c) && !s.workers[w].Idle? && !s.workers[w].Acking?
    ensures forall j :: Holds(NextPhase(s, w, c), j) <==> Holds(s.workers[w], j)
  {
    hide Terminal;
  }

  lemma PopBalances(s: State, w: int)
    requires Balanced(s) && w in s.workers && s.workers[w] == Idle && s.main != []
    ensures Balanced(Work(s, w, Go))
  {
    hide NextRows;
    var s', x := Work(s, w, Go), Tail(s);
    forall j
      ensures multiset(s'.processing)[j] == |Holders(s', j)|
    {
      assert multiset(s'.processing) == multiset{x} + multiset(s.processing);
      if j == x {
        assert Holders(s', j) == Holders(s, j) + {w};
      } else {
        assert Holders(s', j) == Holders(s, j);
      }
    }
  }

  lemma AckBalances(s: State, w: int, x: int)
    requires Balanced(s) && w in s.workers && s.workers[w] == Acking(x)
    ensures Balanced(Work(s, w, Go))
  {
    hide NextRows, RemoveFirst, Holders;
    var s' := Work(s, w, Go);
    RemoveFirstCounts(s.processing, x);
    forall j
      ensures multiset(s'.processing)[j] == |Holders(s', j)|
    {
      AckHolders(s, w, x, j);
    }
  }

  /** The acknowledging worker holds its job, and no job afterwards. */
  lemma AckHolders(s: State, w: int, x: int, j: int)
    requires w in s.workers && s.workers[w] == Acking(x)
    ensures |Holders(s, j)| == |Holders(Work(s, w, Go), j)| + if j == x then 1 else 0
  {
    hide NextRows, NextMain, NextProcessing;
    var s' := Work(s, w, Go);
    if j == x {
      assert Holders(s, j) == Holders(s', j) + {w};
    } else {
      assert Holders(s', j) == Holders(s, j);
    }
  }

  // ----- no job is lost ----------------------------------------------------------------------------

  /** Someone will still deal with the job, or died holding it. */
  predicate Keeps(p: Phase, j: int) {
    Carries(p, j) || (p.Dead? && Holds(p, j))
  }

  predicate IsPushing(s: State, j: int) {
    s.sweeper.Pushing? && s.sweeper.job == j
  }

  ghost predicate Covered(s: State, j: int) {
    || j in s.main
    || j in s.dispatching
    || IsPushing(s, j)
    || exists w :: w in s.workers && Keeps(s.workers[w], j)
  }

  ghost predicate AllCovered(s: State) {
    forall j :: j in s.rows && !Terminal(s.rows[j].status) ==> Covered(s, j)
  }

  lemma StepCovers(s: State, a: Action)
    requires AllCovered(s) && Enabled(s, a)
    ensures AllCovered(Next(s, a))
  {
    hide Work;
    var s' := Next(s, a);
    if a.Call? {
      CallCovers(s, a.worker, a.choice);
    } else {
      forall j | j in s'.rows && !Terminal(s'.rows[j].status)
        ensures Covered(s', j)
      {
        OtherStepCovers(s, a, j);
      }
    }
  }

  lemma OtherStepCovers(s: State, a: Action, j: int)
    requires AllCovered(s) && Enabled(s, a) && !a.Call?
    requires j in Next(s, a).rows && !Terminal(Next(s, a).rows[j].status)
    ensures Covered(Next(s, a), j)
  {
    var s' := Next(s, a);
    if j in s.rows && !Terminal(s.rows[j].status) {
      assert Covered(s, j);
      if w :| w in s.workers && Keeps(s.workers[w], j) {
        assert w in s'.workers && Keeps(s'.workers[w], j);
      }
    }
  }

  lemma CallCovers(s: State, w: int, c: Choice)
    requires AllCovered(s) && CanWork(s, w, c)
    ensures AllCovered(Work(s, w, c))
  {
    var s' := Work(s, w, c);
    forall j | j in s'.rows && !Terminal(s'.rows[j].status)
      ensures Covered(s', j)
    {
      CallCoversJob(s, w, c, j);
    }
  }

  lemma CallCoversJob(s: State, w: int, c: Choice, j: int)
    requires AllCovered(s) && CanWork(s, w, c)
    requires j in Work(s, w, c).rows && !Terminal(Work(s, w, c).rows[j].status)
    ensures Covered(Work(s, w, c), j)
  {
    hide RemoveFirst;
    var s' := Work(s, w, c);
    if Keeps(s'.workers[w], j) {
    } else if j in s'.main {
    } else {
      assert Covered(s, j);
      if v :| v in s.workers && Keeps(s.workers[v], j) {
        assert v in s'.workers && (v == w || Keeps(s'.workers[v], j));
      }
    }
  }

  // ----- reachable states ----------------------------------------------------------------------------

  ghost predicate Sound(s: State) {
    Conserved(s) && Balanced(s) && AllCovered(s)
  }

  lemma EmptyIsSound()
    ensures Sound(EMPTY)
  {
    assert forall j :: Holders(EMPTY, j) == {};
  }

  lemma {:induction false} ReachableIsSound(ss: seq<State>, acts: seq<Action>, k: nat)
    requires Execution(ss, acts) && k < |ss|
    ensures Sound(ss[k])
  {
    hide Sound, Enabled, Next;
    if k == 0 {
      EmptyIsSound();
    } else {
      var i := k - 1;
      ReachableIsSound(ss, acts, i);
      assert Enabled(ss[i], acts[i]) && ss[i + 1] == Next(ss[i], acts[i]);
      StepKeepsSound(ss[i], acts[i]);
    }
  }

  lemma StepKeepsSound(s: State, a: Action)
    requires Sound(s) && Enabled(s, a)
    ensures Sound(Next(s, a))
  {
    hide Conserved, Balanced, AllCovered, Enabled, Next;
    StepConserves(s, a);
    StepBalances(s, a);
    StepCovers(s, a);
  }

  /** In every interleaving, workers crashing anywhere and the sweep re-queuing whatever it likes: a
      queued or processing job has a copy in one of the two lists, or its dispatcher or the sweep is
      between writing the row and pushing. */
  lemma NoJobIsLost(ss: seq<State>, acts: seq<Action>, k: nat, j: int)
    requires Execution(ss, acts) && k < |ss|
    requires j in ss[k].rows && !Terminal(ss[k].rows[j].status)
    ensures var s := ss[k];
            j in s.main || j in s.processing || j in s.dispatching || IsPushing(s, j)
  {
    hide Steps;
    ReachableIsSound(ss, acts, k);
    var s := ss[k];
    assert Covered(s, j);
    if w :| w in s.workers && Keeps(s.workers[w], j) {
      assert w in Holders(s, j);
      assert multiset(s.processing)[j] == |Holders(s, j)| > 0;
    }
  }

  /** In every interleaving the pushes of a job equal its copies in both lists plus its effective
      acknowledges, and the processing list has exactly one copy per unacknowledged holder. */
  lemma CopiesAreConserved(ss: seq<State>, acts: seq<Action>, k: nat, j: int)
    requires Execution(ss, acts) && k < |ss|
    ensures var s := ss[k];
            && s.pushed[j] == multiset(s.main)[j] + multiset(s.processing)[j] + s.acked[j]
            && multiset(s.processing)[j] == |Holders(s, j)|
  {
    hide Steps;
    ReachableIsSound(ss, acts, k);
  }
}
