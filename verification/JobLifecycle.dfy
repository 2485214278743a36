/** The life of a job when no worker crashes and the sweep does not run
  * (internal/services/jobs/worker.go, internal/repository/job_repo.go).
  */
module JobLifecycle {
  import opened Sets
  import opened JobStore
  import opened WorkerProtocol
  import opened WorkerExclusion

  predicate Calm(a: Action) {
    a.Create? || a.Enqueue? || a.Spawn? || a.Call?
  }

  // ----- the ledger ------------------------------------------------------------------------------

  /** A job's row together with how often Process was entered and how often it failed. */
  datatype Account = Account(status: JobStatus, retries: nat, started: nat, errors: nat)

  function AccountOf(s: State, j: int): Account
    requires j in s.rows
  {
    Account(s.rows[j].status, s.rows[j].retries, s.started[j], s.errors[j])
  }

  /** Queued; every run so far failed and was counted. */
  predicate Waiting(x: Account) {
    x.status == Queued && x.retries == x.errors == x.started && x.retries < MAX_RETRIES
  }

  /** One run more than there were failures. */
  predicate Ahead(x: Account) {
    x.retries == x.errors < MAX_RETRIES && x.started == x.errors + 1
  }

  predicate Closed(x: Account) {
    || (x.status == Completed && Ahead(x))
    || (x.status == Failed && x.retries == x.errors == x.started == MAX_RETRIES)
  }

  /** What the account of a job must look like while a worker in this phase handles it. */
  predicate Books(p: Phase, x: Account) {
    match p
    case Popped(_) => Waiting(x)
    case Loaded(_, r) => Waiting(x) && r == x.retries
    case Running(_, r) => x.status == Processing && Ahead(x) && r == x.retries
    case Reported(_) => x.status == Completed && Ahead(x)
    case Succeeded(_) => (x.status == Processing || x.status == Completed) && Ahead(x)
    case Errored(_, r) => x.status == Processing && r == x.retries < MAX_RETRIES && x.errors == x.started == r + 1
    case Counted(_, r) => x.status == Processing && r < MAX_RETRIES && x.retries == x.errors == x.started == r + 1
    case Retrying(_) => Waiting(x)
    case _ => false
  }

  ghost predicate TokenBooks(s: State, p: Place, j: int)
    requires j in s.rows
  {
    if p.AtWorker? then p.worker in s.workers && Books(s.workers[p.worker], AccountOf(s, j))
    else Waiting(AccountOf(s, j))
  }

  ghost predicate Ledger(s: State) {
    && (forall p, j :: Token(s, p, j) ==> j in s.rows && TokenBooks(s, p, j))
    && (forall j :: j in s.rows ==> Closed(AccountOf(s, j)) || exists p :: Token(s, p, j))
    && (forall j :: j !in s.rows ==> s.started[j] == 0 && s.errors[j] == 0)
    && s.sweeper == Resting
    && (forall w :: w in s.workers ==> !s.workers[w].Dead?)
  }

  // ----- a call keeps the books --------------------------------------------------------------------

  lemma AccountElsewhere(s: State, w: int, c: Choice, j: int)
    requires CanWork(s, w, c) && j in s.rows && !Carries(s.workers[w], j)
    ensures j in Work(s, w, c).rows && AccountOf(Work(s, w, c), j) == AccountOf(s, j)
  {
    RowsElsewhere(s, w, c, j);
    hide NextRows, NextPhase, NextMain, NextProcessing;
  }

  /** The carried job's account moves with the phase, or closes. */
  lemma CarriedBooks(s: State, w: int, c: Choice)
    requires CanWork(s, w, c) && !s.workers[w].Idle? && !s.workers[w].Acking?
    requires s.workers[w].job in s.rows && Books(s.workers[w], AccountOf(s, s.workers[w].job))
    ensures var (j, s') := (s.workers[w].job, Work(s, w, c));
            && j in s'.rows
            && (if s'.workers[w].Acking? then s.workers[w].Retrying? || Closed(AccountOf(s', j))
                else Books(s'.workers[w], AccountOf(s', j)) && Carries(s'.workers[w], j))
            && (s.workers[w].Retrying? ==> Waiting(AccountOf(s', j)) && s'.main == [j] + s.main)
  {
    hide NextProcessing;
  }

  lemma IdleBooks(s: State, w: int, j: int)
    requires CanWork(s, w, Go) && s.workers[w].Idle? && j in s.rows
    ensures j in Work(s, w, Go).rows && AccountOf(Work(s, w, Go), j) == AccountOf(s, j)
    ensures Work(s, w, Go).workers[w] == Popped(Tail(s))
  {
    IdleRows(s, w);
    hide NextRows, NextMain, NextProcessing;
  }

  /** The place a token of the next state had before the call. */
  function Origin(s: State, w: int, p: Place): Place
    requires w in s.workers && (s.workers[w].Idle? ==> s.main != [])
  {
    if s.workers[w].Idle? then PoppedBy(w, |s.main| - 1)(p)
    else if s.workers[w].Retrying? then PushedFrom(AtWorker(w))(p)
    else p
  }

  lemma CallMoves(s: State, w: int, c: Choice, p: Place, j: int)
    requires CanWork(s, w, c) && Token(Work(s, w, c), p, j)
    ensures Token(s, Origin(s, w, p), j)
  {
    hide Work, Token;
    if s.workers[w].Idle? {
      PopMoves(s, w);
    } else if s.workers[w].Retrying? {
      RetryPushMoves(s, w);
    } else {
      OtherCallMoves(s, w, c);
    }
  }

  lemma CallTokenBooks(s: State, w: int, c: Choice, p: Place, j: int)
    requires Exclusive(s) && Ledger(s) && CanWork(s, w, c) && Token(Work(s, w, c), p, j)
    ensures j in Work(s, w, c).rows && TokenBooks(Work(s, w, c), p, j)
  {
    CallMoves(s, w, c, p, j);
    var q := Origin(s, w, p);
    LedgerElim(s, q, j);
    hide Exclusive, Ledger, Waiting, Books, NextRows, NextPhase, NextMain, NextProcessing;
    if s.workers[w].Idle? {
      IdleBooks(s, w, j);
      if p == AtWorker(w) {
        PoppedBooks(Tail(s), AccountOf(s, j));
      }
    } else if q == AtWorker(w) {
      CarriedBooks(s, w, c);
    } else {
      NotCarriedToo(s, w, q, j);
      AccountElsewhere(s, w, c, j);
    }
  }

  lemma PoppedBooks(j: int, x: Account)
    ensures Waiting(x) ==> Books(Popped(j), x)
  {
  }

  lemma LedgerElim(s: State, p: Place, j: int)
    requires Ledger(s) && Token(s, p, j)
    ensures j in s.rows && TokenBooks(s, p, j)
  {
  }

  lemma CallClosedOrToken(s: State, w: int, c: Choice, j: int)
    requires Exclusive(s) && Ledger(s) && CanWork(s, w, c) && j in s.rows
    ensures j in Work(s, w, c).rows
    ensures Closed(AccountOf(Work(s, w, c), j)) || exists p :: Token(Work(s, w, c), p, j)
  {
    hide Exclusive, Books, Waiting, Closed, NextRows, NextProcessing;
    var s' := Work(s, w, c);
    if Carries(s.workers[w], j) {
      LedgerElim(s, AtWorker(w), j);
      CarriedBooks(s, w, c);
      if s.workers[w].Retrying? {
        assert Token(s', InMain(0), j);
      } else if !s'.workers[w].Acking? {
        assert Token(s', AtWorker(w), j);
      }
    } else {
      AccountElsewhere(s, w, c, j);
      hide NextPhase;
      if p :| Token(s, p, j) {
        SurvivingToken(s, w, c, p, j);
      }
    }
  }

  lemma SurvivingToken(s: State, w: int, c: Choice, p: Place, j: int)
    requires CanWork(s, w, c) && Token(s, p, j) && !Carries(s.workers[w], j)
    ensures exists q :: Token(Work(s, w, c), q, j)
  {
    hide NextRows, NextProcessing;
    var s' := Work(s, w, c);
    if p.InMain? && s.workers[w].Idle? && p.index == |s.main| - 1 {
      assert Token(s', AtWorker(w), j);
    } else if p.InMain? && s.workers[w].Retrying? {
      assert Token(s', InMain(p.index + 1), j);
    } else {
      assert Token(s', p, j);
    }
  }

  lemma CallCounters(s: State, w: int, c: Choice, j: int)
    requires Ledger(s) && CanWork(s, w, c) && j !in Work(s, w, c).rows
    ensures Work(s, w, c).started[j] == 0 && Work(s, w, c).errors[j] == 0
  {
    KeysStay(s, w, c);
    hide NextRows, NextPhase, NextMain, NextProcessing;
    assert Token(s, AtWorker(w), j) ==> j in s.rows;
  }

  lemma StaysAlive(s: State, w: int, c: Choice)
    requires CanWork(s, w, c)
    ensures !NextPhase(s, w, c).Dead?
  {
    hide Terminal;
  }

  lemma CallKeepsLedger(s: State, w: int, c: Choice)
    requires Exclusive(s) && Ledger(s) && CanWork(s, w, c)
    ensures Ledger(Work(s, w, c))
  {
    var s' := Work(s, w, c);
    forall p, j | Token(s', p, j)
      ensures j in s'.rows && TokenBooks(s', p, j)
    {
      CallTokenBooks(s, w, c, p, j);
    }
    KeysStay(s, w, c);
    StaysAlive(s, w, c);
    hide Exclusive, Books, Waiting, Closed, NextRows, NextPhase, NextMain, NextProcessing, Token, TokenBooks;
    forall j | j in s'.rows
      ensures Closed(AccountOf(s', j)) || exists p :: Token(s', p, j)
    {
      CallClosedOrToken(s, w, c, j);
    }
    forall j | j !in s'.rows
      ensures s'.started[j] == 0 && s'.errors[j] == 0
    {
      CallCounters(s, w, c, j);
    }
  }

  lemma EnqueueKeepsLedger(s: State, j: int)
    requires Ledger(s) && j in s.dispatching
    ensures Ledger(Next(s, Enqueue(j)))
  {
    hide Books, Waiting, Closed;
    var s' := Next(s, Enqueue(j));
    forall p, i | Token(s', p, i)
      ensures i in s'.rows && TokenBooks(s', p, i)
    {
      LedgerElim(s, PushedFrom(AtDispatcher)(p), i);
    }
    forall i | i in s'.rows
      ensures Closed(AccountOf(s', i)) || exists p :: Token(s', p, i)
    {
      assert AccountOf(s', i) == AccountOf(s, i);
      if p :| Token(s, p, i) {
        if i == j {
          assert Token(s', InMain(0), i);
        } else {
          assert Token(s', if p.InMain? then InMain(p.index + 1) else p, i);
        }
      }
    }
  }

  lemma CreateKeepsLedger(s: State, j: int)
    requires Ledger(s) && j !in s.rows
    ensures Ledger(Next(s, Create(j)))
  {
    hide Books, Closed;
    var s' := Next(s, Create(j));
    forall p, i
      ensures Token(s', p, i) <==> Token(s, p, i) || (p == AtDispatcher && i == j)
    {
    }
    forall i | i in s.rows
      ensures AccountOf(s', i) == AccountOf(s, i)
    {
    }
    hide Token;
    assert Waiting(AccountOf(s', j));
    assert Token(s', AtDispatcher, j);
  }

  lemma SpawnKeepsLedger(s: State, w: int)
    requires Ledger(s) && w !in s.workers
    ensures Ledger(Next(s, Spawn(w)))
  {
    hide Books, Closed, Waiting;
    var s' := Next(s, Spawn(w));
    forall p, i
      ensures Token(s', p, i) <==> Token(s, p, i)
    {
    }
    assert forall p, i :: Token(s, p, i) && p.AtWorker? ==> p.worker in s.workers && p.worker != w;
    hide Token;
  }

  lemma CalmStepKeepsLedger(s: State, a: Action)
    requires Exclusive(s) && Ledger(s) && Enabled(s, a) && Calm(a)
    ensures Ledger(Next(s, a))
  {
    hide Exclusive, Ledger, Work;
    if a.Call? {
      CallKeepsLedger(s, a.worker, a.choice);
    } else if a.Create? {
      CreateKeepsLedger(s, a.job);
    } else if a.Enqueue? {
      EnqueueKeepsLedger(s, a.job);
    } else {
      SpawnKeepsLedger(s, a.worker);
    }
  }

  lemma EmptyLedger()
    ensures Ledger(EMPTY)
  {
  }

  ghost predicate CalmExecution(ss: seq<State>, acts: seq<Action>) {
    Execution(ss, acts) && forall k :: 0 <= k < |acts| ==> Calm(acts[k])
  }

  lemma {:induction false} ReachableLedger(ss: seq<State>, acts: seq<Action>, k: nat)
    requires CalmExecution(ss, acts) && k < |ss|
    ensures Orderly(ss[k]) && Ledger(ss[k])
  {
    hide Ledger, Enabled, Next, Orderly, Exclusive;
    if k == 0 {
      EmptyLedger();
      EmptyIsOrderly();
    } else {
      var i := k - 1;
      ReachableLedger(ss, acts, i);
      assert Enabled(ss[i], acts[i]) && ss[i + 1] == Next(ss[i], acts[i]) && Calm(acts[i]);
      StepKeepsOrder(ss[i], acts[i]);
      OrderlyIsExclusive(ss[i]);
      CalmStepKeepsLedger(ss[i], acts[i]);
    }
  }

  lemma OrderlyIsExclusive(s: State)
    requires Orderly(s)
    ensures Exclusive(s)
  {
  }

  // ----- what the ledger says ------------------------------------------------------------------------

  /** In every calm interleaving: Process is entered at most three times for a job; the retry column
      equals the number of failed runs, except in the instant between a failure and its count; the
      row is "failed" only after the third failure; and after a third failure the row is "failed"
      unless the worker that saw the failure is just about to write it. */
  lemma ThreeTries(ss: seq<State>, acts: seq<Action>, k: nat, j: int)
    requires CalmExecution(ss, acts) && k < |ss| && j in ss[k].rows
    ensures var s := ss[k];
            var x := AccountOf(s, j);
            && x.started <= 3 && x.errors <= 3
            && (x.retries == x.errors || exists w :: w in s.workers && s.workers[w].Errored? && s.workers[w].job == j)
            && (x.status == Failed ==> x.errors == x.retries == 3)
            && (x.errors == 3 ==>
                  x.status == Failed ||
                  exists w :: w in s.workers && (s.workers[w].Errored? || s.workers[w].Counted?) && s.workers[w].job == j)
  {
    hide Execution, Orderly;
    ReachableLedger(ss, acts, k);
    var s := ss[k];
    if p :| Token(s, p, j) {
      LedgerElim(s, p, j);
    }
  }

  // ----- every dispatched job ends -------------------------------------------------------------------

  /** Nothing but new jobs and new workers can happen. */
  predicate Quiet(s: State) {
    s.dispatching == {} && forall w, c :: w in s.workers ==> !CanWork(s, w, c)
  }

  /** When a calm system with at least one worker has come to rest, every job is completed or failed
      and no copy remains in either list. */
  lemma RestMeansDone(ss: seq<State>, acts: seq<Action>, k: nat)
    requires CalmExecution(ss, acts) && k < |ss| && Quiet(ss[k]) && ss[k].workers != map[]
    ensures var s := ss[k];
            && (forall j :: j in s.rows ==> Terminal(s.rows[j].status))
            && s.main == [] && s.processing == []
  {
    hide Steps, Orderly;
    ReachableLedger(ss, acts, k);
    ReachableIsSound(ss, acts, k);
    var s := ss[k];
    AllIdle(s);
    forall j | j in s.rows
      ensures Terminal(s.rows[j].status)
    {
      if p :| Token(s, p, j) {
        assert false;
      }
    }
    NoCopies(s);
  }

  lemma AllIdle(s: State)
    requires Ledger(s) && Quiet(s) && s.workers != map[]
    ensures s.main == [] && forall w :: w in s.workers ==> s.workers[w] == Idle
  {
    forall w | w in s.workers
      ensures s.workers[w] == Idle && s.main == []
    {
      assert !CanWork(s, w, Go) && !CanWork(s, w, ReturnOk);
    }
    assert s.workers.Keys != {};
    NonEmpty(s.workers.Keys);
    var w :| w in s.workers.Keys;
    assert w in s.workers;
  }

  lemma NoCopies(s: State)
    requires Balanced(s) && forall w :: w in s.workers ==> s.workers[w] == Idle
    ensures s.processing == []
  {
    assert forall k :: 0 <= k < |s.processing| ==> s.processing[k] in multiset(s.processing);
    forall j
      ensures multiset(s.processing)[j] == 0
    {
      assert forall v :: v !in Holders(s, j);
      assert Holders(s, j) == {};
    }
  }

  /** How many more calls a worker in this phase, or a queued copy, can lead to. */
  function Remaining(retries: nat): nat {
    if retries <= MAX_RETRIES then 20 * (MAX_RETRIES - retries) else 0
  }

  function PhaseRank(p: Phase, retries: nat): nat {
    match p
    case Popped(_) => Remaining(retries) + 13
    case Loaded(_, _) => Remaining(retries) + 12
    case Running(_, r) => Remaining(r) + 11
    case Reported(_) => 10
    case Succeeded(_) => 9
    case Errored(_, r) => Remaining(r) + 10
    case Counted(_, r) => Remaining(r) + 9
    case Retrying(_) => Remaining(retries) + 18
    case _ => 0
  }

  ghost function Rank(s: State, p: Place, j: int): nat
    requires j in s.rows && (p.AtWorker? ==> p.worker in s.workers)
  {
    match p
    case InMain(_) => Remaining(s.rows[j].retries) + 14
    case AtDispatcher => Remaining(s.rows[j].retries) + 19
    case AtSweep => 0
    case AtWorker(w) => PhaseRank(s.workers[w], s.rows[j].retries)
  }

  /** The work a job can still cause. */
  ghost function Due(s: State, j: int): nat {
    if j in s.rows && exists p :: Token(s, p, j) then
      var p :| Token(s, p, j);
      Rank(s, p, j)
    else 0
  }

  lemma DueIs(s: State, p: Place, j: int)
    requires Exclusive(s) && Token(s, p, j) && j in s.rows
    ensures Due(s, j) == Rank(s, p, j)
  {
  }

  ghost function Acks(s: State): set<int> {
    set w | w in s.workers && s.workers[w].Acking?
  }

  ghost function Sum(keys: set<int>, f: int -> nat): nat {
    if keys == {} then 0
    else
      NonEmpty(keys);
      var x :| x in keys;
      f(x) + Sum(keys - {x}, f)
  }

  lemma {:induction false} SumTakeOut(keys: set<int>, f: int -> nat, x: int)
    requires x in keys
    ensures Sum(keys, f) == f(x) + Sum(keys - {x}, f)
    decreases |keys|
  {
    var y :| y in keys && Sum(keys, f) == f(y) + Sum(keys - {y}, f);
    if y != x {
      SumTakeOut(keys - {y}, f, x);
      SumTakeOut(keys - {x}, f, y);
      assert keys - {y} - {x} == keys - {x} - {y};
    }
  }

  lemma {:induction false} SumSame(keys: set<int>, f: int -> nat, g: int -> nat)
    requires forall x :: x in keys ==> f(x) == g(x)
    ensures Sum(keys, f) == Sum(keys, g)
    decreases |keys|
  {
    if keys != {} {
      NonEmpty(keys);
      var x :| x in keys;
      SumTakeOut(keys, f, x);
      SumTakeOut(keys, g, x);
      SumSame(keys - {x}, f, g);
    }
  }

  /** All the work the system can still do without new jobs. */
  ghost function Potential(s: State): nat {
    Sum(s.rows.Keys, (j: int) => Due(s, j)) + |Acks(s)|
  }

  /** Only job `x` and the acknowledging workers changed. */
  lemma PotentialDrops(s: State, s': State, x: int)
    requires x in s.rows && s'.rows.Keys == s.rows.Keys
    requires forall j :: j in s.rows && j != x ==> Due(s', j) == Due(s, j)
    requires Due(s', x) + |Acks(s')| < Due(s, x) + |Acks(s)|
    ensures Potential(s') < Potential(s)
  {
    hide Due, Acks;
    var f, g := (j: int) => Due(s, j), (j: int) => Due(s', j);
    SumTakeOut(s.rows.Keys, f, x);
    SumTakeOut(s.rows.Keys, g, x);
    SumSame(s.rows.Keys - {x}, f, g);
  }

  lemma NoTokenNothingDue(s: State, j: int)
    requires forall p :: !Token(s, p, j)
    ensures Due(s, j) == 0
  {
  }

  lemma DueElsewhere(s: State, w: int, c: Choice, j: int)
    requires CanWork(s, w, c) && Orderly(s) && Orderly(Work(s, w, c)) && j in s.rows
    requires !Carries(s.workers[w], j) && (s.workers[w].Idle? ==> j != Tail(s))
    ensures Due(Work(s, w, c), j) == Due(s, j)
  {
    hide Orderly, Due, Rank, NextProcessing;
    OrderlyIsExclusive(s);
    OrderlyIsExclusive(Work(s, w, c));
    AccountElsewhere(s, w, c, j);
    hide Exclusive, NextRows;
    var s' := Work(s, w, c);
    if p :| Token(s, p, j) {
      var q := if p.InMain? && s.workers[w].Retrying? then InMain(p.index + 1) else p;
      assert Token(s', q, j);
      DueIs(s, p, j);
      DueIs(s', q, j);
      SameRank(s, s', p, q, j);
    } else {
      forall q
        ensures !Token(s', q, j)
      {
        if Token(s', q, j) {
          CallMoves(s, w, c, q, j);
        }
      }
      NoTokenNothingDue(s, j);
      NoTokenNothingDue(s', j);
    }
  }

  lemma SameRank(s: State, s': State, p: Place, q: Place, j: int)
    requires j in s.rows && j in s'.rows && s'.rows[j] == s.rows[j]
    requires q == p || (p.InMain? && q.InMain?)
    requires p.AtWorker? ==> p.worker in s.workers && p.worker in s'.workers && s'.workers[p.worker] == s.workers[p.worker]
    ensures Rank(s', q, j) == Rank(s, p, j)
  {
  }

  lemma CallDropsDue(s: State, w: int, c: Choice, x: int)
    requires Orderly(s) && Ledger(s) && CanWork(s, w, c) && Carries(s.workers[w], x)
    requires Orderly(Work(s, w, c))
    ensures x in s.rows && Due(s, x) > Due(Work(s, w, c), x) + if Work(s, w, c).workers[w].Acking? then 1 else 0
  {
    OrderlyIsExclusive(s);
    var s' := Work(s, w, c);
    OrderlyIsExclusive(s');
    LedgerElim(s, AtWorker(w), x);
    DueIs(s, AtWorker(w), x);
    hide Orderly, Exclusive, Due, Ledger, NextProcessing;
    if s.workers[w].Retrying? {
      assert Token(s', InMain(0), x);
      DueIs(s', InMain(0), x);
    } else if s'.workers[w].Acking? {
      forall q
        ensures !Token(s', q, x)
      {
        if Token(s', q, x) {
          CallMoves(s, w, c, q, x);
          NotElsewhere(s, w, q, x);
        }
      }
      NoTokenNothingDue(s', x);
      ClosingRank(s, w, c, x);
    } else {
      CarriedBooks(s, w, c);
      assert Token(s', AtWorker(w), x);
      DueIs(s', AtWorker(w), x);
      PhaseRankDrops(s, w, c, x);
    }
  }

  lemma NotElsewhere(s: State, w: int, q: Place, x: int)
    requires Exclusive(s) && w in s.workers && Carries(s.workers[w], x) && Token(s, q, x)
    ensures q == AtWorker(w)
  {
    assert Token(s, AtWorker(w), x);
  }

  lemma ClosingRank(s: State, w: int, c: Choice, x: int)
    requires CanWork(s, w, c) && Carries(s.workers[w], x) && x in s.rows
    requires Books(s.workers[w], AccountOf(s, x)) && NextPhase(s, w, c).Acking?
    ensures PhaseRank(s.workers[w], s.rows[x].retries) > 1
  {
  }

  lemma PhaseRankDrops(s: State, w: int, c: Choice, x: int)
    requires CanWork(s, w, c) && Carries(s.workers[w], x) && x in s.rows
    requires Books(s.workers[w], AccountOf(s, x)) && !NextPhase(s, w, c).Acking?
    ensures x in NextRows(s, w, c)
    ensures PhaseRank(NextPhase(s, w, c), NextRows(s, w, c)[x].retries) < PhaseRank(s.workers[w], s.rows[x].retries)
  {
  }

  lemma AcksAfterCall(s: State, w: int, c: Choice)
    requires CanWork(s, w, c)
    ensures Acks(Work(s, w, c)) ==
            if NextPhase(s, w, c).Acking? then Acks(s) + {w} else Acks(s) - {w}
  {
    hide NextRows, NextMain, NextProcessing, NextPhase;
  }

  lemma CallLowersPotential(s: State, w: int, c: Choice)
    requires Orderly(s) && Ledger(s) && CanWork(s, w, c)
    ensures Potential(Work(s, w, c)) < Potential(s)
  {
    CallKeepsOrder(s, w, c);
    KeysStay(s, w, c);
    AcksAfterCall(s, w, c);
    hide Orderly, Potential, Due, NextRows, NextMain, NextProcessing;
    var s' := Work(s, w, c);
    if s.workers[w].Acking? {
      AckLowersPotential(s, w, c);
    } else if s.workers[w].Idle? {
      PopLowersPotential(s, w);
    } else {
      var x := s.workers[w].job;
      CallDropsDue(s, w, c, x);
      OtherDuesStay(s, w, c, x);
      hide NextPhase;
      PotentialDrops(s, s', x);
    }
  }

  lemma OtherDuesStay(s: State, w: int, c: Choice, x: int)
    requires CanWork(s, w, c) && Orderly(s) && Orderly(Work(s, w, c))
    requires Carries(s.workers[w], x) || s.workers[w].Acking? || (s.workers[w].Idle? && x == Tail(s))
    ensures forall j :: j in s.rows && (s.workers[w].Acking? || j != x) ==> Due(Work(s, w, c), j) == Due(s, j)
  {
    hide Orderly, Due, Work;
    forall j | j in s.rows && (s.workers[w].Acking? || j != x)
      ensures Due(Work(s, w, c), j) == Due(s, j)
    {
      DueElsewhere(s, w, c, j);
    }
  }

  lemma AckLowersPotential(s: State, w: int, c: Choice)
    requires CanWork(s, w, c) && Orderly(s) && Orderly(Work(s, w, c)) && s.workers[w].Acking?
    ensures Potential(Work(s, w, c)) < Potential(s)
  {
    OtherDuesStay(s, w, c, s.workers[w].job);
    AcksAfterCall(s, w, c);
    KeysStay(s, w, c);
    hide Orderly, Due, NextRows, NextMain, NextProcessing;
    var s' := Work(s, w, c);
    assert w in Acks(s);
    SumSame(s.rows.Keys, (j: int) => Due(s, j), (j: int) => Due(s', j));
  }

  lemma PopLowersPotential(s: State, w: int)
    requires Orderly(s) && Ledger(s) && CanWork(s, w, Go) && s.workers[w].Idle? && Orderly(Work(s, w, Go))
    ensures Potential(Work(s, w, Go)) < Potential(s)
  {
    var x, s' := Tail(s), Work(s, w, Go);
    assert Token(s, InMain(|s.main| - 1), x);
    LedgerElim(s, InMain(|s.main| - 1), x);
    IdleBooks(s, w, x);
    KeysStay(s, w, Go);
    OtherDuesStay(s, w, Go, x);
    AcksAfterCall(s, w, Go);
    OrderlyIsExclusive(s);
    OrderlyIsExclusive(s');
    hide Orderly, Ledger, NextRows, NextMain, NextProcessing;
    assert Token(s', AtWorker(w), x);
    DueIs(s, InMain(|s.main| - 1), x);
    DueIs(s', AtWorker(w), x);
    hide Due, Exclusive, Potential;
    assert Acks(s') == Acks(s) - {w} && w !in Acks(s);
    assert Acks(s') == Acks(s);
    PotentialDrops(s, s', x);
  }

  lemma EnqueueLowersPotential(s: State, x: int)
    requires Orderly(s) && Ledger(s) && x in s.dispatching
    ensures Potential(Next(s, Enqueue(x))) < Potential(s)
  {
    var s' := Next(s, Enqueue(x));
    EnqueueKeepsOrder(s, x);
    OrderlyIsExclusive(s);
    OrderlyIsExclusive(s');
    hide Orderly, Potential;
    LedgerElim(s, AtDispatcher, x);
    DueIs(s, AtDispatcher, x);
    assert Token(s', InMain(0), x);
    DueIs(s', InMain(0), x);
    forall j | j in s.rows && j != x
      ensures Due(s', j) == Due(s, j)
    {
      EnqueueElsewhere(s, x, j);
    }
    assert Acks(s') == Acks(s);
    PotentialDrops(s, s', x);
  }

  lemma EnqueueElsewhere(s: State, x: int, j: int)
    requires x in s.dispatching && Exclusive(s) && Exclusive(Next(s, Enqueue(x))) && j in s.rows && j != x
    ensures Due(Next(s, Enqueue(x)), j) == Due(s, j)
  {
    hide Exclusive, Due, Rank;
    var s' := Next(s, Enqueue(x));
    if p :| Token(s, p, j) {
      var q := if p.InMain? then InMain(p.index + 1) else p;
      assert Token(s', q, j);
      DueIs(s, p, j);
      DueIs(s', q, j);
      SameRank(s, s', p, q, j);
    } else {
      forall q
        ensures !Token(s', q, j)
      {
        assert !Token(s, PushedFrom(AtDispatcher)(q), j);
      }
      NoTokenNothingDue(s, j);
      NoTokenNothingDue(s', j);
    }
  }

  /** Without new jobs a calm system makes at most `Potential` further steps; so it comes to rest, and
      by `RestMeansDone` every dispatched job has then ended. */
  lemma {:induction false} WorkIsBounded(ss: seq<State>, acts: seq<Action>, k: nat)
    requires CalmExecution(ss, acts) && k < |ss|
    requires forall i :: k <= i < |acts| ==> acts[i].Call? || acts[i].Enqueue?
    ensures |acts| - k <= Potential(ss[k])
    decreases |ss| - k
  {
    hide Potential, Orderly, Ledger, Next, Enabled;
    if k < |acts| {
      WorkIsBounded(ss, acts, k + 1);
      ReachableLedger(ss, acts, k);
      assert Enabled(ss[k], acts[k]) && ss[k + 1] == Next(ss[k], acts[k]);
      StepLowersPotential(ss[k], acts[k]);
    }
  }

  lemma StepLowersPotential(s: State, a: Action)
    requires Orderly(s) && Ledger(s) && Enabled(s, a) && (a.Call? || a.Enqueue?)
    ensures Potential(Next(s, a)) < Potential(s)
  {
    hide Potential, Orderly, Ledger, Work;
    if a.Call? {
      CallLowersPotential(s, a.worker, a.choice);
    } else {
      EnqueueLowersPotential(s, a.job);
    }
  }
}
