/** Job rows and the two Redis lists (internal/repository/job_repo.go, internal/queue/queue.go). */
module JobStore {
  import opened Sets

  datatype JobStatus = Queued | Processing | Completed | Failed

  datatype Job = Job(status: JobStatus, retries: nat)

  type JobTable = map<int, Job>

  predicate Terminal(s: JobStatus) {
    s == Completed || s == Failed
  }

  // ----- effects ---------------------------------------------------------------------------------

  function WithStatus(rows: JobTable, id: int, status: JobStatus): JobTable {
    if id in rows then rows[id := rows[id].(status := status)] else rows
  }

  function WithOneMoreRetry(rows: JobTable, id: int): JobTable {
    if id in rows then rows[id := rows[id].(retries := rows[id].retries + 1)] else rows
  }

  /** LREM key 1 value: the first occurrence from the head goes. */
  function RemoveFirst(s: seq<int>, v: int): seq<int> {
    if s == [] then []
    else if s[0] == v then s[1..]
    else [s[0]] + RemoveFirst(s[1..], v)
  }

  /** Removal takes one copy if there is one, and nothing else. */
  lemma {:induction false} RemoveFirstCounts(s: seq<int>, v: int)
    ensures multiset(RemoveFirst(s, v)) == multiset(s) - multiset{v}
  {
    if s != [] {
      assert s == [s[0]] + s[1..];
      if s[0] != v {
        RemoveFirstCounts(s[1..], v);
      }
    }
  }

  class Queue {
    var main: seq<int>
    var processing: seq<int>

    constructor ()
      ensures main == [] && processing == []
    {
      main, processing := [], [];
    }

    /** LPUSH. */
    method Push(value: int)
      modifies this`main
      ensures main == [value] + old(main)
    {
      main := [value] + main;
    }

    /** BRPOPLPUSH: the tail of the main list moves to the head of the processing list in one step. */
    method Pop() returns (found: bool, value: int)
      modifies this
      ensures found <==> old(main) != []
      ensures found ==> old(main) == main + [value] && processing == [value] + old(processing)
      ensures !found ==> main == old(main) && processing == old(processing)
    {
      found, value := main != [], 0;
      if found {
        value := main[|main| - 1];
        main := main[..|main| - 1];
        processing := [value] + processing;
      }
    }

    method Acknowledge(value: int)
      modifies this`processing
      ensures processing == RemoveFirst(old(processing), value)
      ensures multiset(processing) == multiset(old(processing)) - multiset{value}
    {
      RemoveFirstCounts(processing, value);
      processing := RemoveFirst(processing, value);
    }

    /** Moves everything back; the processing list ends up, in order, in front of the main list. */
    method Requeue() returns (count: nat)
      modifies this
      ensures main == old(processing) + old(main) && processing == []
      ensures count == |old(processing)|
    {
      count := 0;
      while processing != []
        invariant processing + main == old(processing) + old(main)
        invariant count + |processing| == |old(processing)|
        decreases |processing|
      {
        var value := processing[|processing| - 1];
        assert processing == processing[..|processing| - 1] + [value];
        processing, main := processing[..|processing| - 1], [value] + main;
        count := count + 1;
      }
    }
  }

  class JobRepo {
    var rows: JobTable
    var nextId: int

    ghost predicate Valid()
      reads this
    {
      forall id :: id in rows ==> id < nextId
    }

    method Create() returns (id: int)
      requires Valid()
      modifies this
      ensures Valid() && id !in old(rows)
      ensures rows == old(rows)[id := Job(Queued, 0)]
    {
      id := nextId;
      assert id !in rows;
      rows := rows[id := Job(Queued, 0)];
      nextId := nextId + 1;
    }

    method FindByID(id: int) returns (found: bool, job: Job)
      ensures found <==> id in rows
      ensures found ==> job == rows[id]
    {
      found, job := id in rows, Job(Queued, 0);
      if found {
        job := rows[id];
      }
    }

    method UpdateStatus(id: int, status: JobStatus)
      requires Valid()
      modifies this`rows
      ensures Valid() && rows == WithStatus(old(rows), id, status)
    {
      if id in rows {
        rows := rows[id := rows[id].(status := status)];
      }
    }

    method IncrementRetries(id: int)
      requires Valid()
      modifies this`rows
      ensures Valid() && rows == WithOneMoreRetry(old(rows), id)
    {
      if id in rows {
        rows := rows[id := rows[id].(retries := rows[id].retries + 1)];
      }
    }

    /** `stale` holds the rows whose last update is old enough. */
    method ListStuckJobs(stale: set<int>) returns (stuck: seq<int>)
      ensures forall id :: id in stuck <==> id in rows && rows[id].status == Processing && id in stale
      ensures forall i, j :: 0 <= i < j < |stuck| ==> stuck[i] != stuck[j]
    {
      stuck := [];
      var todo := rows.Keys;
      while todo != {}
        invariant todo <= rows.Keys
        invariant forall id :: id in stuck <==> id in rows && rows[id].status == Processing && id in stale && id !in todo
        invariant forall i, j :: 0 <= i < j < |stuck| ==> stuck[i] != stuck[j]
        decreases todo
      {
        NonEmpty(todo);
        var id :| id in todo;
        if rows[id].status == Processing && id in stale {
          stuck := stuck + [id];
        }
        todo := todo - {id};
      }
    }
  }
}
