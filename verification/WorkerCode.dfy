/** The dispatcher, the worker and the recovery sweep as the sequential code they are
  * (internal/services/jobs/dispatcher.go, internal/services/jobs/worker.go), each proved to make only
  * its own steps of the machine in WorkerProtocol.
  */
module WorkerCode {
  import opened JobStore
  import opened WorkerProtocol
  import opened Continuation

  // ----- code and machine --------------------------------------------------------------------------

  /** The part of a machine state that lives in the database and in Redis. */
  ghost predicate Mirrors(s: State, q: Queue, repo: JobRepo)
    reads q, repo
  {
    s.rows == repo.rows && s.main == q.main && s.processing == q.processing
  }

  datatype Actor = ADispatcher(job: int) | AWorker(worker: int) | TheSweep

  predicate By(a: Action, who: Actor) {
    match who
    case ADispatcher(j) => a == Create(j) || a == Enqueue(j)
    case AWorker(w) => a.Call? && a.worker == w
    case TheSweep => a.ListStuck? || a.SweepWrite? || a.SweepPush? || a.SweepEnd?
  }

  ghost function RuleOf(who: Actor): Rule {
    (s: State, a: Action) => By(a, who)
  }

  /** `who` alone can take the machine from `s` to `t`. */
  ghost predicate Leads(s: State, t: State, who: Actor) {
    LeadsBy(s, t, RuleOf(who))
  }

  lemma StartsAt(s: State, who: Actor)
    ensures Leads(s, s, who)
  {
    LeadsNowhere(s, RuleOf(who));
  }

  lemma GoesOn(s: State, t: State, who: Actor, a: Action)
    requires Leads(s, t, who) && Enabled(t, a) && By(a, who)
    ensures Leads(s, Next(t, a), who)
  {
    hide Enabled, Next, LeadsBy;
    var _ := LeadsOn(s, t, RuleOf(who), a);
  }

  lemma GoesThrough(s: State, t: State, u: State, who: Actor)
    requires Leads(s, t, who) && Leads(t, u, who)
    ensures Leads(s, u, who)
  {
    LeadsThrough(s, t, u, RuleOf(who));
  }

  /** So whatever every step keeps, the code keeps. */
  lemma CodeKeepsSound(s: State, t: State, who: Actor)
    requires Sound(s) && Leads(s, t, who)
    ensures Sound(t)
  {
    hide Enabled, Next, By, Sound, LeadsBy;
    var ss, acts := LeadsElim(s, t, RuleOf(who));
    var i := 0;
    while i < |acts|
      invariant i <= |acts| && Sound(ss[i])
    {
      assert Enabled(ss[i], acts[i]) && ss[i + 1] == Next(ss[i], acts[i]);
      StepKeepsSound(ss[i], acts[i]);
      i := i + 1;
    }
  }

  /** Worker `w` has come from `s` to `t`, where it is in phase `p` and the stores hold the given values. */
  ghost predicate At(s: State, t: State, w: int, p: Phase, rows: JobTable, main: seq<int>, processing: seq<int>) {
    && Leads(s, t, AWorker(w))
    && t.workers == s.workers[w := p]
    && t.rows == rows && t.main == main && t.processing == processing
  }

  lemma WorkerStep(s: State, t: State, w: int, c: Choice) returns (t': State)
    requires CanWork(t, w, c) && At(s, t, w, t.workers[w], t.rows, t.main, t.processing)
    ensures At(s, t', w, NextPhase(t, w, c), NextRows(t, w, c), NextMain(t, w, c), NextProcessing(t, w, c))
  {
    hide Leads, NextRows, NextPhase, NextMain, NextProcessing, CanWork;
    GoesOn(s, t, AWorker(w), Call(w, c));
    t' := Work(t, w, c);
  }

  lemma PopStep(s: State, w: int) returns (t: State)
    requires w in s.workers && s.workers[w] == Idle && s.main != []
    ensures At(s, t, w, Popped(Tail(s)), s.rows, s.main[..|s.main| - 1], [Tail(s)] + s.processing)
  {
    hide Leads;
    StartsAt(s, AWorker(w));
    t := WorkerStep(s, s, w, Go);
  }

  lemma RefuseStep(s: State, t: State, w: int, j: int, rows: JobTable, main: seq<int>, processing: seq<int>)
    returns (t': State)
    requires At(s, t, w, Popped(j), rows, main, processing) && (j !in rows || Terminal(rows[j].status))
    ensures At(s, t', w, Acking(j), rows, main, processing)
  {
    hide Leads;
    t' := WorkerStep(s, t, w, Go);
  }

  lemma LoadStep(s: State, t: State, w: int, j: int, rows: JobTable, main: seq<int>, processing: seq<int>)
    returns (t': State)
    requires At(s, t, w, Popped(j), rows, main, processing) && j in rows && !Terminal(rows[j].status)
    ensures At(s, t', w, Loaded(j, rows[j].retries), rows, main, processing)
  {
    hide Leads;
    t' := WorkerStep(s, t, w, Go);
  }

  lemma MarkStep(s: State, t: State, w: int, j: int, r: nat, rows: JobTable, main: seq<int>, processing: seq<int>)
    returns (t': State)
    requires At(s, t, w, Loaded(j, r), rows, main, processing)
    ensures At(s, t', w, Running(j, r), WithStatus(rows, j, Processing), main, processing)
  {
    hide Leads, WithStatus;
    t' := WorkerStep(s, t, w, Go);
  }

  lemma ReportStep(s: State, t: State, w: int, j: int, r: nat, rows: JobTable, main: seq<int>, processing: seq<int>)
    returns (t': State)
    requires At(s, t, w, Running(j, r), rows, main, processing)
    ensures At(s, t', w, Reported(j), WithStatus(rows, j, Completed), main, processing)
  {
    hide Leads, WithStatus;
    t' := WorkerStep(s, t, w, ReportDone);
  }

  lemma ReturnStep(s: State, t: State, w: int, p: Phase, rows: JobTable, main: seq<int>, processing: seq<int>)
    returns (t': State)
    requires At(s, t, w, p, rows, main, processing) && (p.Running? || p.Reported?)
    ensures At(s, t', w, Succeeded(p.job), rows, main, processing)
  {
    hide Leads, WithStatus;
    t' := WorkerStep(s, t, w, ReturnOk);
  }

  lemma CompleteStep(s: State, t: State, w: int, j: int, rows: JobTable, main: seq<int>, processing: seq<int>)
    returns (t': State)
    requires At(s, t, w, Succeeded(j), rows, main, processing)
    ensures At(s, t', w, Acking(j), WithStatus(rows, j, Completed), main, processing)
  {
    hide Leads, WithStatus;
    t' := WorkerStep(s, t, w, Go);
  }

  /** Process fails, and the failure is counted. */
  lemma FailSteps(s: State, t: State, w: int, j: int, r: nat, rows: JobTable, main: seq<int>, processing: seq<int>)
    returns (t': State)
    requires At(s, t, w, Running(j, r), rows, main, processing)
    ensures At(s, t', w, Counted(j, r), WithOneMoreRetry(rows, j), main, processing)
  {
    hide Leads, WithOneMoreRetry;
    t' := WorkerStep(s, t, w, ReturnError);
    t' := WorkerStep(s, t', w, Go);
  }

  lemma GiveUpStep(s: State, t: State, w: int, j: int, r: nat, rows: JobTable, main: seq<int>, processing: seq<int>)
    returns (t': State)
    requires At(s, t, w, Counted(j, r), rows, main, processing) && r + 1 >= MAX_RETRIES
    ensures At(s, t', w, Acking(j), WithStatus(rows, j, Failed), main, processing)
  {
    hide Leads, WithStatus;
    t' := WorkerStep(s, t, w, Go);
  }

  lemma RetrySteps(s: State, t: State, w: int, j: int, r: nat, rows: JobTable, main: seq<int>, processing: seq<int>)
    returns (t': State)
    requires At(s, t, w, Counted(j, r), rows, main, processing) && r + 1 < MAX_RETRIES
    ensures At(s, t', w, Acking(j), WithStatus(rows, j, Queued), [j] + main, processing)
  {
    hide Leads, WithStatus;
    t' := WorkerStep(s, t, w, Go);
    t' := WorkerStep(s, t', w, Go);
  }

  lemma AckStep(s: State, t: State, w: int, j: int, rows: JobTable, main: seq<int>, processing: seq<int>)
    returns (t': State)
    requires At(s, t, w, Acking(j), rows, main, processing)
    ensures At(s, t', w, Idle, rows, main, RemoveFirst(processing, j))
  {
    hide Leads, RemoveFirst;
    t' := WorkerStep(s, t, w, Go);
  }

  // ----- dispatcher --------------------------------------------------------------------------------

  /** Row first, then the push. */
  method Dispatch(q: Queue, repo: JobRepo, ghost s: State) returns (id: int, ghost t: State)
    requires repo.Valid() && Mirrors(s, q, repo)
    modifies q, repo
    ensures repo.Valid() && id !in old(repo.rows)
    ensures repo.rows == old(repo.rows)[id := Job(Queued, 0)]
    ensures q.main == [id] + old(q.main) && q.processing == old(q.processing)
    ensures Leads(s, t, ADispatcher(id)) && Mirrors(t, q, repo) && t.workers == s.workers
    ensures t.dispatching == s.dispatching - {id}
  {
    hide Leads;
    id := repo.Create();
    StartsAt(s, ADispatcher(id));
    GoesOn(s, s, ADispatcher(id), Create(id));
    t := Next(s, Create(id));
    q.Push(id);
    GoesOn(s, t, ADispatcher(id), Enqueue(id));
    t := Next(t, Enqueue(id));
  }

  // ----- worker ------------------------------------------------------------------------------------

  /** How Process ends; a detect job has by then already been marked completed. */
  datatype Outcome = Fine | FineAndReported | Failing

  /** The row a run of Process and its bookkeeping leave behind. */
  function Settled(job: Job, outcome: Outcome): Job {
    if Terminal(job.status) then job
    else if outcome != Failing then Job(Completed, job.retries)
    else Job(if job.retries + 1 >= MAX_RETRIES then Failed else Queued, job.retries + 1)
  }

  predicate RunsAgain(rows: JobTable, id: int, outcome: Outcome) {
    id in rows && !Terminal(rows[id].status) && outcome == Failing && rows[id].retries + 1 < MAX_RETRIES
  }

  /** What the whole table looks like once job `id` is settled. */
  function SettledTable(rows: JobTable, id: int, outcome: Outcome): JobTable {
    if id in rows then rows[id := Settled(rows[id], outcome)] else rows
  }

  lemma RefusedRow(rows: JobTable, id: int, outcome: Outcome)
    requires id !in rows || Terminal(rows[id].status)
    ensures SettledTable(rows, id, outcome) == rows && !RunsAgain(rows, id, outcome)
  {
  }

  lemma FineRow(rows: JobTable, id: int, outcome: Outcome)
    requires id in rows && !Terminal(rows[id].status) && outcome != Failing
    ensures var busy := WithStatus(rows, id, Processing);
            && SettledTable(rows, id, outcome) == WithStatus(busy, id, Completed)
            && SettledTable(rows, id, outcome) == WithStatus(WithStatus(busy, id, Completed), id, Completed)
  {
  }

  lemma FailingRow(rows: JobTable, id: int)
    requires id in rows && !Terminal(rows[id].status)
    ensures SettledTable(rows, id, Failing) ==
            WithStatus(WithOneMoreRetry(WithStatus(rows, id, Processing), id), id,
                       if rows[id].retries + 1 >= MAX_RETRIES then Failed else Queued)
  {
  }

  lemma Arrived(s: State, w: int, j: int)
    requires w in s.workers && s.workers[w] == Popped(j)
    ensures At(s, s, w, Popped(j), s.rows, s.main, s.processing)
  {
    hide Leads;
    StartsAt(s, AWorker(w));
  }

  lemma AtHome(s: State, t: State, w: int, rows: JobTable, main: seq<int>, processing: seq<int>)
    requires At(s, t, w, Idle, rows, main, processing)
    ensures Leads(s, t, AWorker(w)) && t.workers == s.workers[w := Idle]
    ensures t.rows == rows && t.main == main && t.processing == processing
  {
  }

  /** One job from load to acknowledge.  Undisturbed, it leaves exactly the settled row, pushes one new
      copy if and only if the job is to run again, and takes one copy off the processing list; and it
      is a run of worker `w` from "popped" to "idle". */
  method ProcessJob(q: Queue, repo: JobRepo, id: int, outcome: Outcome, ghost s: State, w: int) returns (ghost t: State)
    requires repo.Valid() && Mirrors(s, q, repo) && w in s.workers && s.workers[w] == Popped(id)
    modifies q, repo`rows
    ensures repo.Valid() && repo.rows == SettledTable(old(repo.rows), id, outcome)
    ensures q.main == if RunsAgain(old(repo.rows), id, outcome) then [id] + old(q.main) else old(q.main)
    ensures q.processing == RemoveFirst(old(q.processing), id)
    ensures Leads(s, t, AWorker(w)) && Mirrors(t, q, repo) && t.workers == s.workers[w := Idle]
  {
    hide At, RemoveFirst, WithStatus, WithOneMoreRetry, Settled;
    t := s;
    Arrived(s, w, id);
    var found, job := repo.FindByID(id);
    if !found || job.status == Completed || job.status == Failed {
      t := RefuseStep(s, t, w, id, repo.rows, q.main, q.processing);
      t := AckStep(s, t, w, id, repo.rows, q.main, q.processing);
      q.Acknowledge(id);
      RefusedRow(repo.rows, id, outcome);
    } else {
      ghost var rows := repo.rows;
      t := LoadStep(s, t, w, id, repo.rows, q.main, q.processing);
      t := MarkStep(s, t, w, id, job.retries, repo.rows, q.main, q.processing);
      repo.UpdateStatus(id, Processing);
      if outcome == Failing {
        t := FailSteps(s, t, w, id, job.retries, repo.rows, q.main, q.processing);
        repo.IncrementRetries(id);
        if job.retries + 1 >= MAX_RETRIES {
          t := GiveUpStep(s, t, w, id, job.retries, repo.rows, q.main, q.processing);
          repo.UpdateStatus(id, Failed);
        } else {
          t := RetrySteps(s, t, w, id, job.retries, repo.rows, q.main, q.processing);
          repo.UpdateStatus(id, Queued);
          q.Push(id);
        }
        FailingRow(rows, id);
      } else {
        if outcome == FineAndReported {
          t := ReportStep(s, t, w, id, job.retries, repo.rows, q.main, q.processing);
          repo.UpdateStatus(id, Completed);
          t := ReturnStep(s, t, w, Reported(id), repo.rows, q.main, q.processing);
        } else {
          t := ReturnStep(s, t, w, Running(id, job.retries), repo.rows, q.main, q.processing);
        }
        t := CompleteStep(s, t, w, id, repo.rows, q.main, q.processing);
        repo.UpdateStatus(id, Completed);
        FineRow(rows, id, outcome);
      }
      t := AckStep(s, t, w, id, repo.rows, q.main, q.processing);
      q.Acknowledge(id);
    }
    AtHome(s, t, w, repo.rows, q.main, q.processing);
  }

  /** One turn of the worker loop: the job at the tail of the main list is settled, and its copy leaves
      both lists unless it is to run again. */
  method RunOnce(q: Queue, repo: JobRepo, outcome: Outcome, ghost s: State, w: int)
    returns (found: bool, ghost t: State)
    requires repo.Valid() && Mirrors(s, q, repo) && w in s.workers && s.workers[w] == Idle
    modifies q, repo`rows
    ensures repo.Valid() && q.processing == old(q.processing)
    ensures found <==> old(q.main) != []
    ensures !found ==> repo.rows == old(repo.rows) && q.main == []
    ensures found ==>
              var n := |old(q.main)| - 1;
              var id := old(q.main)[n];
              && repo.rows == SettledTable(old(repo.rows), id, outcome)
              && q.main == (if RunsAgain(old(repo.rows), id, outcome) then [id] else []) + old(q.main)[..n]
    ensures Leads(s, t, AWorker(w)) && Mirrors(t, q, repo) && t.workers == s.workers
  {
    hide Leads, SettledTable, RunsAgain;
    StartsAt(s, AWorker(w));
    t := s;
    var id: int;
    found, id := q.Pop();
    if found {
      ghost var s1 := PopStep(s, w);
      ghost var s2 := ProcessJob(q, repo, id, outcome, s1, w);
      GoesThrough(s, s1, s2, AWorker(w));
      t := s2;
    }
  }

  // ----- recovery sweep ------------------------------------------------------------------------------

  function Reversed(jobs: seq<int>): seq<int> {
    if jobs == [] then [] else Reversed(jobs[1..]) + [jobs[0]]
  }

  lemma {:induction false} ReversedGrows(jobs: seq<int>, j: int)
    ensures Reversed(jobs + [j]) == [j] + Reversed(jobs)
  {
    if jobs != [] {
      assert (jobs + [j])[1..] == jobs[1..] + [j];
      ReversedGrows(jobs[1..], j);
    }
  }

  /** The rows after the listed jobs have been queued again. */
  function Requeued(rows: JobTable, jobs: seq<int>): JobTable {
    map j | j in rows :: if j in jobs then rows[j].(status := Queued) else rows[j]
  }

  lemma RequeuedGrows(rows: JobTable, jobs: seq<int>, j: int)
    requires j in rows
    ensures Requeued(rows, jobs + [j]) == WithStatus(Requeued(rows, jobs), j, Queued)
  {
  }

  lemma NothingRequeued(rows: JobTable)
    ensures Requeued(rows, []) == rows && Reversed([]) == []
  {
  }

  /** The sweep has come from `s` to `t` and still has to treat `todo`. */
  ghost predicate Swept(s: State, t: State, todo: seq<int>, rows: JobTable, main: seq<int>, processing: seq<int>) {
    && Leads(s, t, TheSweep)
    && t.workers == s.workers && t.sweeper == Sweeping(todo)
    && t.rows == rows && t.main == main && t.processing == processing
  }

  lemma SweepBegins(s: State, stuck: seq<int>) returns (t: State)
    requires s.sweeper == Resting && Distinct(stuck)
    requires forall j :: j in stuck ==> j in s.rows && s.rows[j].status == Processing
    ensures Swept(s, t, stuck, s.rows, s.main, s.processing)
  {
    hide Leads;
    StartsAt(s, TheSweep);
    GoesOn(s, s, TheSweep, ListStuck(stuck));
    t := Next(s, ListStuck(stuck));
  }

  lemma SweepsOne(s: State, t: State, todo: seq<int>, rows: JobTable, main: seq<int>, processing: seq<int>)
    returns (t': State)
    requires todo != [] && Swept(s, t, todo, rows, main, processing)
    ensures Swept(s, t', todo[1..], WithStatus(rows, todo[0], Queued), [todo[0]] + main, processing)
  {
    hide Leads, WithStatus;
    GoesOn(s, t, TheSweep, SweepWrite);
    t' := Next(t, SweepWrite);
    GoesOn(s, t', TheSweep, SweepPush);
    t' := Next(t', SweepPush);
  }

  lemma SweepEnds(s: State, t: State, rows: JobTable, main: seq<int>, processing: seq<int>) returns (t': State)
    requires Swept(s, t, [], rows, main, processing)
    ensures Leads(s, t', TheSweep) && t'.workers == s.workers && t'.sweeper == Resting
    ensures t'.rows == rows && t'.main == main && t'.processing == processing
  {
    hide Leads;
    GoesOn(s, t, TheSweep, SweepEnd);
    t' := Next(t, SweepEnd);
  }

  /** Every stale processing row, and no other, is queued again with its retry count kept; one copy of
      each goes to the head of the main list, and the processing list is not touched. */
  method RunRecoverySweep(q: Queue, repo: JobRepo, stale: set<int>, ghost s: State)
      returns (stuck: seq<int>, ghost t: State)
    requires repo.Valid() && Mirrors(s, q, repo) && s.sweeper == Resting
    modifies q, repo`rows
    ensures repo.Valid() && Distinct(stuck)
    ensures forall j :: j in stuck <==> j in old(repo.rows) && old(repo.rows)[j].status == Processing && j in stale
    ensures repo.rows == Requeued(old(repo.rows), stuck)
    ensures q.main == Reversed(stuck) + old(q.main) && q.processing == old(q.processing)
    ensures Leads(s, t, TheSweep) && Mirrors(t, q, repo) && t.workers == s.workers && t.sweeper == Resting
  {
    hide Leads, Reversed, Requeued, WithStatus, Swept;
    stuck := repo.ListStuckJobs(stale);
    t := SweepBegins(s, stuck);
    NothingRequeued(repo.rows);
    assert stuck[..0] == [];
    for i := 0 to |stuck|
      invariant repo.Valid() && repo.rows == Requeued(old(repo.rows), stuck[..i])
      invariant q.main == Reversed(stuck[..i]) + old(q.main) && q.processing == old(q.processing)
      invariant Swept(s, t, stuck[i..], repo.rows, q.main, q.processing)
    {
      t := SweepsOne(s, t, stuck[i..], repo.rows, q.main, q.processing);
      repo.UpdateStatus(stuck[i], Queued);
      q.Push(stuck[i]);
      RequeuedGrows(old(repo.rows), stuck[..i], stuck[i]);
      ReversedGrows(stuck[..i], stuck[i]);
      assert stuck[..i + 1] == stuck[..i] + [stuck[i]];
      assert stuck[i..][1..] == stuck[i + 1..];
    }
    assert stuck[..|stuck|] == stuck && stuck[|stuck|..] == [];
    t := SweepEnds(s, t, repo.rows, q.main, q.processing);
  }
}
