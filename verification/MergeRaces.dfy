/** What racing merge runs can still do from a given state (internal/services/merge/orchestrator.go). */
module MergeRaces {
  import opened Scorer
  import opened DuplicateTable
  import opened MergeRuns
  import Sets

  // ----- a run goes on -------------------------------------------------------------------------------

  predicate Own(a: Action) {
    !a.Start? && !a.Environment?
  }

  /** A run makes its next call. */
  lemma OwnOn(s: State, t: State, kept: set<int>, a: Action) returns (u: State)
    requires Leads(s, t, kept) && Own(a) && At(t, a.run, PcBefore(a))
    ensures Leads(s, u, kept)
    ensures u == State(NextTable(t.runs[a.run], a, t.table), t.used, t.runs[a.run := NextRun(t.runs[a.run], a, t.table)])
  {
    hide Leads, NextRun, NextTable;
    u := State(NextTable(t.runs[a.run], a, t.table), t.used, t.runs[a.run := NextRun(t.runs[a.run], a, t.table)]);
    LeadsOn(s, t, kept, a, u);
  }

  /** Past loading its group, with its record still to write. */
  predicate InFlight(pc: Pc) {
    pc.Loaded? || pc.Fetched? || pc.Validated? || pc.Snapshotted? || pc.Executed?
  }

  /** Only run `q` has moved, and its request is the same. */
  predicate OnlyMoved(t: State, u: State, q: int) {
    && q in t.runs && q in u.runs
    && u == State(t.table, t.used, t.runs[q := u.runs[q]])
    && u.runs[q].req == t.runs[q].req
  }

  lemma OneCallOn(s: State, t: State, kept: set<int>, q: int) returns (u: State)
    requires Leads(s, t, kept) && q in t.runs && InFlight(t.runs[q].pc) && !t.runs[q].pc.Executed?
    ensures Leads(s, u, kept) && OnlyMoved(t, u, q)
    ensures u.runs[q].pc == if t.runs[q].pc.Loaded? then Fetched else if t.runs[q].pc.Fetched? then Validated
                            else if t.runs[q].pc.Validated? then Snapshotted else Executed
    ensures t.runs[q].pc.Snapshotted? ==> CallsExecutor(u.runs[q].history)
  {
    hide Leads, AllIds;
    var run := t.runs[q];
    if run.pc.Loaded? {
      u := OwnOn(s, t, kept, Fetch(q, set id | id in AllIds(run.req)));
    } else if run.pc.Fetched? {
      u := OwnOn(s, t, kept, Validate(q, true));
    } else if run.pc.Validated? {
      u := OwnOn(s, t, kept, Snapshot(q, true));
    } else {
      u := OwnOn(s, t, kept, Execute(q, true));
      assert u.runs[q].history[|run.history|].ExecutorCalled?;
    }
  }

  /** If nothing goes wrong, a run that has loaded its group calls its executor. */
  lemma CallsOn(s: State, t: State, kept: set<int>, q: int) returns (u: State)
    requires Leads(s, t, kept) && q in t.runs && InFlight(t.runs[q].pc) && !t.runs[q].pc.Executed?
    ensures Leads(s, u, kept) && OnlyMoved(t, u, q)
    ensures u.runs[q].pc == Executed && CallsExecutor(u.runs[q].history)
  {
    hide Leads, CallsExecutor;
    u := t;
    assert t.runs[q := t.runs[q]] == t.runs;
    if u.runs[q].pc.Loaded? {
      u := OneCallOn(s, u, kept, q);
    }
    if u.runs[q].pc.Fetched? {
      u := OneCallOn(s, u, kept, q);
    }
    if u.runs[q].pc.Validated? {
      u := OneCallOn(s, u, kept, q);
    }
    u := OneCallOn(s, u, kept, q);
  }

  /** And a run in flight writes its record. */
  lemma RecordsOn(s: State, t: State, kept: set<int>, q: int) returns (u: State)
    requires Leads(s, t, kept) && q in t.runs && InFlight(t.runs[q].pc)
    ensures Leads(s, u, kept) && OnlyMoved(t, u, q)
    ensures u.runs[q].pc == Recorded && RecordWritten in u.runs[q].history
  {
    hide Leads;
    var v := t;
    assert t.runs[q := t.runs[q]] == t.runs;
    if !t.runs[q].pc.Executed? {
      v := CallsOn(s, t, kept, q);
    }
    u := OwnOn(s, v, kept, Record(q, true));
    assert u.runs[q].history == v.runs[q].history + [RecordWritten];
  }

  predicate RowIsLive(t: Table, g: int) {
    g in t && t[g].status != Merged
  }

  /** A new run loads a live group. */
  lemma LoadsOn(s: State, t: State, kept: set<int>, g: int) returns (u: State, q: int)
    requires Leads(s, t, kept) && RowIsLive(t.table, g)
    ensures Leads(s, u, kept) && q !in t.runs && q in u.runs
    ensures u == State(t.table, t.used, t.runs[q := u.runs[q]])
    ensures u.runs[q].req.group == Some(g) && u.runs[q].pc == Loaded
  {
    hide Leads;
    q := Sets.UnusedId(t.runs.Keys);
    var req := Request(t.table[g].merchant, Some(g), 0, [], "");
    var v := t.(runs := t.runs[q := Run(req, Begin, [])]);
    LeadsOn(s, t, kept, Start(q, req), v);
    u := OwnOn(s, v, kept, Load(q, true));
    assert u.runs == t.runs[q := u.runs[q]];
  }

  /** A run that has written its record merges its live group and succeeds. */
  lemma SucceedsOn(s: State, t: State, kept: set<int>, q: int, g: int) returns (u: State)
    requires Leads(s, t, kept) && At(t, q, Recorded) && t.runs[q].req.group == Some(g) && RowIsLive(t.table, g)
    ensures Leads(s, u, kept) && q in u.runs && u.used == t.used
    ensures u.table == t.table[g := t.table[g].(status := Merged)]
    ensures u.runs == t.runs[q := u.runs[q]]
    ensures u.runs[q].req == t.runs[q].req && u.runs[q].pc == Finished(Succeeded)
  {
    hide Leads;
    u := OwnOn(s, t, kept, Mark(q, true));
    u := OwnOn(s, u, kept, Confirm(q));
  }

  /** A new run takes a live group all the way. */
  lemma MergesOn(s: State, t: State, kept: set<int>, g: int) returns (u: State, q: int)
    requires Leads(s, t, kept) && RowIsLive(t.table, g)
    ensures Leads(s, u, kept) && q !in t.runs && q in u.runs && u.used == t.used
    ensures u.table == t.table[g := t.table[g].(status := Merged)]
    ensures u.runs == t.runs[q := u.runs[q]]
    ensures u.runs[q].req.group == Some(g) && u.runs[q].pc == Finished(Succeeded)
  {
    hide Leads;
    u, q := LoadsOn(s, t, kept, g);
    u := RecordsOn(s, u, kept, q);
    u := SucceedsOn(s, u, kept, q, g);
    assert u.runs == t.runs[q := u.runs[q]];
  }

  // ----- exactly when another call or record can follow ------------------------------------------------

  /** What a run does once: the irreversible executor call, and its record. */
  datatype Deed = TheCall | TheRecord

  predicate Has(s: State, q: int, d: Deed) {
    q in s.runs && Done(s.runs[q], d)
  }

  predicate Done(run: Run, d: Deed) {
    if d == TheCall then CallsExecutor(run.history) else RecordWritten in run.history
  }

  /** Past loading the group, with the deed still to do. */
  predicate Pending(pc: Pc, d: Deed) {
    InFlight(pc) && (d == TheCall ==> !pc.Executed?)
  }

  /** Without un-merging the group, some run that has not done the deed for it can still do it. */
  ghost predicate Again(s: State, g: int, d: Deed) {
    exists t, q :: Leads(s, t, {g}) && Has(t, q, d) && t.runs[q].req.group == Some(g) && !Has(s, q, d)
  }

  /** The group is live, or some run on it has loaded it and not yet come to the deed. */
  ghost predicate Racing(s: State, g: int, d: Deed) {
    || RowIsLive(s.table, g)
    || exists q :: q in s.runs && s.runs[q].req.group == Some(g) && Pending(s.runs[q].pc, d)
  }

  /** No run gets past loading a group whose row was never issued. */
  ghost predicate GroupsKnown(s: State) {
    && s.table.Keys <= s.used
    && forall r :: r in s.runs && s.runs[r].req.group.Some? && s.runs[r].history != [] ==>
         s.runs[r].req.group.value in s.used
  }

  lemma OwnStepHistory(run: Run, a: Action, t: Table)
    requires Own(a) && run.pc == PcBefore(a) && Fits(run)
    ensures NextRun(run, a, t).req == run.req
    ensures run.req.group.Some? && NextRun(run, a, t).history != [] ==> run.history != [] || run.req.group.value in t
  {
  }

  lemma StepKeepsKnown(s: State, a: Action, s': State)
    requires RunsFit(s) && GroupsKnown(s) && Step(s, a, s')
    ensures GroupsKnown(s')
  {
    hide Fits, NextRun, NextTable;
    if a.Environment? {
      EnvironmentKeys(s.table, a.op, a.newId, s'.table);
    } else if !a.Start? {
      NextTableKeys(s.runs[a.run], a, s.table);
      OwnStepHistory(s.runs[a.run], a, s.table);
    }
  }

  lemma {:induction false} ReachableKnown(ss: seq<State>, acts: seq<Action>, k: nat)
    requires Execution(ss, acts) && k < |ss|
    ensures GroupsKnown(ss[k])
  {
    hide Step, RunsFit, GroupsKnown;
    if k == 0 {
      InitialKnown(ss[0]);
    } else {
      var i := k - 1;
      ReachableKnown(ss, acts, i);
      ReachableRunsFit(ss, acts, i);
      assert Step(ss[i], acts[i], ss[i + 1]);
      StepKeepsKnown(ss[i], acts[i], ss[i + 1]);
    }
  }

  lemma InitialKnown(s: State)
    requires Initial(s)
    ensures GroupsKnown(s)
  {
  }

  lemma PendingUndone(run: Run, d: Deed)
    requires Fits(run) && Pending(run.pc, d)
    ensures !Done(run, d)
  {
    var (req, h) := (run.req, run.history);
    var ready := if run.pc.Executed? then h[..|h| - 1] else h;
    if ReadyHistory(req, ready) {
      assert forall i :: 0 <= i < LoadLength(req) ==> ready[i] == ready[..LoadLength(req)][i];
    }
    assert run.pc.Executed? ==> h == ready + [h[|h| - 1]];
  }

  /** The executor call comes with the step from `Snapshotted`, the record with that from `Executed`. */
  lemma OwnStepUnraced(run: Run, a: Action, t: Table, g: int, d: Deed)
    requires Own(a) && run.pc == PcBefore(a) && run.req.group == Some(g) && !Pending(run.pc, d) && !RowIsLive(t, g)
    ensures NextRun(run, a, t).req == run.req && !Pending(NextRun(run, a, t).pc, d)
    ensures Done(NextRun(run, a, t), d) ==> Done(run, d)
  {
    var run' := NextRun(run, a, t);
    if d == TheCall {
      if c :| 0 <= c < |run'.history| && run'.history[c].ExecutorCalled? {
        assert c < |run.history| && run.history[c] == run'.history[c];
      }
    }
  }

  lemma StepStaysUnraced(s: State, a: Action, s': State, g: int, d: Deed)
    requires s.table.Keys <= s.used && g in s.used && !Racing(s, g, d) && Step(s, a, s') && !Unmerges(s, a, g)
    ensures s'.table.Keys <= s'.used && g in s'.used && !Racing(s', g, d)
    ensures forall q :: Has(s', q, d) && s'.runs[q].req.group == Some(g) ==> Has(s, q, d)
  {
    StepKeepsMerged(s, a, s', g);
    if a.Environment? {
      EnvironmentKeys(s.table, a.op, a.newId, s'.table);
      hide EnvironmentEffect, Done, Pending;
    } else if a.Start? {
      FreshRunDidNothing(a.req, d);
      hide EnvironmentEffect, Done, Pending;
    } else {
      hide EnvironmentEffect, Done, Pending;
      NextTableKeys(s.runs[a.run], a, s.table);
      OwnStepRequest(s.runs[a.run], a, s.table);
      if s.runs[a.run].req.group == Some(g) {
        OwnStepUnraced(s.runs[a.run], a, s.table, g, d);
      }
      hide NextRun, NextTable;
    }
  }

  lemma FreshRunDidNothing(req: Request, d: Deed)
    ensures !Done(Run(req, Begin, []), d) && !Pending(Begin, d)
  {
  }

  lemma OwnStepRequest(run: Run, a: Action, t: Table)
    requires Own(a) && run.pc == PcBefore(a)
    ensures NextRun(run, a, t).req == run.req
  {
  }

  lemma {:induction false} StaysUnraced(ss: seq<State>, acts: seq<Action>, k: nat, g: int, d: Deed)
    requires Steps(ss, acts) && AllKeep(ss, acts, {g}) && k < |ss|
    requires ss[0].table.Keys <= ss[0].used && g in ss[0].used && !Racing(ss[0], g, d)
    ensures ss[k].table.Keys <= ss[k].used && g in ss[k].used && !Racing(ss[k], g, d)
    ensures forall q :: Has(ss[k], q, d) && ss[k].runs[q].req.group == Some(g) ==> Has(ss[0], q, d)
  {
    hide Step, Unmerges, Racing, Done;
    if k > 0 {
      var i := k - 1;
      StaysUnraced(ss, acts, i, g, d);
      assert Step(ss[i], acts[i], ss[i + 1]) && Keeps(ss[i], acts[i], {g});
      StepStaysUnraced(ss[i], acts[i], ss[i + 1], g, d);
      forall q | Has(ss[k], q, d) && ss[k].runs[q].req.group == Some(g)
        ensures Has(ss[0], q, d)
      {
        assert Has(ss[i], q, d);
        RequestStays(ss[i], acts[i], ss[i + 1], q);
      }
    }
  }

  lemma RequestStays(s: State, a: Action, s': State, q: int)
    requires Step(s, a, s') && q in s.runs
    ensures q in s'.runs && s'.runs[q].req == s.runs[q].req
  {
    hide EnvironmentEffect, NextTable;
    if Own(a) {
      OwnStepRequest(s.runs[a.run], a, s.table);
    }
    hide NextRun;
  }

  lemma UnracedNoMore(s: State, g: int, d: Deed)
    requires s.table.Keys <= s.used && g in s.used && !Racing(s, g, d)
    ensures !Again(s, g, d)
  {
    hide Step, Racing, Done;
    forall t, q | Leads(s, t, {g}) && Has(t, q, d) && t.runs[q].req.group == Some(g)
      ensures Has(s, q, d)
    {
      var ss: seq<State>, acts: seq<Action> :|
        Steps(ss, acts) && ss[0] == s && ss[|ss| - 1] == t && AllKeep(ss, acts, {g});
      StaysUnraced(ss, acts, |acts|, g, d);
    }
  }

  lemma RacingAgain(s: State, g: int, d: Deed)
    requires RunsFit(s) && Racing(s, g, d)
    ensures Again(s, g, d)
  {
    LeadsNowhere(s, {g});
    hide Leads, Fits;
    var t, q;
    if RowIsLive(s.table, g) {
      t, q := LoadsOn(s, s, {g}, g);
    } else {
      t := s;
      q :| q in s.runs && s.runs[q].req.group == Some(g) && Pending(s.runs[q].pc, d);
      PendingUndone(s.runs[q], d);
    }
    if d == TheCall {
      t := CallsOn(s, t, {g}, q);
    } else {
      t := RecordsOn(s, t, {g}, q);
    }
    assert Has(t, q, d) && !Has(s, q, d);
  }

  lemma AnotherIff(ss: seq<State>, acts: seq<Action>, k: nat, r: int, g: int, d: Deed)
    requires Execution(ss, acts) && k < |ss|
    requires Has(ss[k], r, d) && ss[k].runs[r].req.group == Some(g)
    ensures Again(ss[k], g, d) <==> Racing(ss[k], g, d)
    ensures !Pending(ss[k].runs[r].pc, d)
  {
    hide Step, Racing, Again, Fits, Pending;
    ReachableRunsFit(ss, acts, k);
    ReachableKnown(ss, acts, k);
    var s := ss[k];
    assert s.runs[r].history != [];
    if Pending(s.runs[r].pc, d) {
      PendingUndone(s.runs[r], d);
    }
    if Racing(s, g, d) {
      RacingAgain(s, g, d);
    } else {
      UnracedNoMore(s, g, d);
    }
  }

  /** One record per group does not hold.  In every reachable state in which a run on the group has
      written its record, and without un-merging the group, another record can still be written exactly
      when the group is live or some other run on it is between its load and its record. */
  lemma AnotherRecordIff(ss: seq<State>, acts: seq<Action>, k: nat, r: int, g: int)
    requires Execution(ss, acts) && k < |ss|
    requires Has(ss[k], r, TheRecord) && ss[k].runs[r].req.group == Some(g)
    ensures Again(ss[k], g, TheRecord) <==>
            RowIsLive(ss[k].table, g) ||
            exists q :: q in ss[k].runs && q != r && ss[k].runs[q].req.group == Some(g) && InFlight(ss[k].runs[q].pc)
  {
    hide Execution, Again, Done;
    AnotherIff(ss, acts, k, r, g, TheRecord);
  }

  /** Nor does one executor call per group, and that call cannot be undone.  In every reachable state in
      which a run on the group has called its executor, and without un-merging the group, another run can
      still call one exactly when the group is live or some other run on it is between its load and its
      call: only the transition, which comes after call and record, closes the group. */
  lemma AnotherCallIff(ss: seq<State>, acts: seq<Action>, k: nat, r: int, g: int)
    requires Execution(ss, acts) && k < |ss|
    requires Has(ss[k], r, TheCall) && ss[k].runs[r].req.group == Some(g)
    ensures Again(ss[k], g, TheCall) <==>
            RowIsLive(ss[k].table, g) ||
            exists q :: q in ss[k].runs && q != r && ss[k].runs[q].req.group == Some(g) &&
                        InFlight(ss[k].runs[q].pc) && !ss[k].runs[q].pc.Executed?
  {
    hide Execution, Again, Done;
    AnotherIff(ss, acts, k, r, g, TheCall);
  }

  /** Two racing runs on one live group can both write their record. */
  lemma TwoRecordsPossible(s: State, g: int)
    requires Initial(s) && RowIsLive(s.table, g)
    ensures exists t, q, r :: Leads(s, t, {g}) && q != r && Has(t, q, TheRecord) && Has(t, r, TheRecord) &&
                              t.runs[q].req.group == t.runs[r].req.group == Some(g)
  {
    LeadsNowhere(s, {g});
    hide Leads;
    var t, q := LoadsOn(s, s, {g}, g);
    t := RecordsOn(s, t, {g}, q);
    var r: int;
    t, r := LoadsOn(s, t, {g}, g);
    t := RecordsOn(s, t, {g}, r);
    assert Has(t, q, TheRecord) && Has(t, r, TheRecord);
  }

  // ----- after an un-merge -----------------------------------------------------------------------------

  lemma StepKeepsOneLive(s: State, a: Action, s': State)
    requires s.table.Keys <= s.used && OneLive(s.table) && Step(s, a, s')
    ensures OneLive(s'.table)
  {
    hide OneLive, NextRun;
    if a.Environment? {
      EnvironmentKeepsOneLive(s.table, a.op, a.newId, s'.table);
    } else if a.Mark? {
      StatusKeepsOneLive(s.table, if s.runs[a.run].req.group.Some? then s.runs[a.run].req.group.value else 0, Merged);
    }
  }

  lemma EnvironmentKeepsOneLive(t: Table, op: Operation, newId: int, t': Table)
    requires newId !in t && OneLive(t) && EnvironmentEffect(t, op, newId, t')
    ensures OneLive(t')
  {
    if op.CreateGroup? {
      UpsertKeepsOneLive(t, op.merchant, op.hash, op.finding, newId, t');
    } else if op.SetStatus? {
      StatusKeepsOneLive(t, op.id, op.status);
    }
  }

  lemma {:induction false} ReachableOneLive(ss: seq<State>, acts: seq<Action>, k: nat)
    requires Execution(ss, acts) && k < |ss| && OneLive(ss[0].table)
    ensures OneLive(ss[k].table)
  {
    hide Step, OneLive;
    if k > 0 {
      var i := k - 1;
      ReachableOneLive(ss, acts, i);
      ReachableRunsFit(ss, acts, i);
      assert Step(ss[i], acts[i], ss[i + 1]);
      StepKeepsOneLive(ss[i], acts[i], ss[i + 1]);
    }
  }

  /** A run merges whatever live sibling would make the unique index reject the dismissal. */
  lemma ClearSibling(s: State, g: int) returns (u: State)
    requires OneLive(s.table) && IsMerged(s.table, g)
    ensures Leads(s, u, {g}) && IsMerged(u.table, g) && !Violates(u.table, g, Dismissed) && u.used == s.used
    ensures forall r :: r in s.runs ==> r in u.runs && u.runs[r] == s.runs[r]
  {
    LeadsNowhere(s, {g});
    hide Leads;
    u := s;
    if j :| j in s.table && j != g && s.table[j].status != Merged &&
            s.table[j].merchant == s.table[g].merchant && s.table[j].hash == s.table[g].hash {
      var q: int;
      u, q := MergesOn(s, s, {g}, j);
    }
  }

  /** The step that breaks the guarantee. */
  lemma DismissOn(s: State, t: State, g: int) returns (u: State)
    requires Leads(s, t, {}) && IsMerged(t.table, g) && !Violates(t.table, g, Dismissed)
    ensures Leads(s, u, {}) && RowIsLive(u.table, g) && u.runs == t.runs
  {
    hide Leads;
    var newId := Sets.UnusedId(t.used);
    u := State(t.table[g := t.table[g].(status := Dismissed)], t.used + {newId}, t.runs);
    LeadsOn(s, t, {}, Environment(SetStatus(g, Dismissed), newId), u);
  }

  lemma WeakerKept(s: State, t: State, kept: set<int>)
    requires Leads(s, t, kept)
    ensures Leads(s, t, {})
  {
    hide Step;
    var ss: seq<State>, acts: seq<Action> :|
      Steps(ss, acts) && ss[0] == s && ss[|ss| - 1] == t && AllKeep(ss, acts, kept);
    assert AllKeep(ss, acts, {});
  }

  /** From every reachable state in which a run has made the transition of a group whose row still exists:
      once the row may be dismissed, that run and a further one can both return success. */
  lemma UnmergeAllowsTwoSuccesses(ss: seq<State>, acts: seq<Action>, k: nat, r: int, g: int)
    requires Execution(ss, acts) && k < |ss| && OneLive(ss[0].table)
    requires r in ss[k].runs && Won(ss[k].runs[r], g) && g in ss[k].table
    ensures exists t, q :: Leads(ss[k], t, {}) && q != r && At(t, q, Finished(Succeeded)) && At(t, r, Finished(Succeeded)) &&
                           t.runs[q].req.group == t.runs[r].req.group == Some(g)
  {
    hide Step, Violates, OneLive;
    ReachableOneLive(ss, acts, k);
    var s := ss[k];
    LeadsNowhere(s, {});
    hide Leads;
    var t := s;
    if s.table[g].status == Merged {
      t := ClearSibling(s, g);
      WeakerKept(s, t, {g});
      t := DismissOn(s, t, g);
    }
    var q: int;
    t, q := MergesOn(s, t, {}, g);
    assert r != q && t.runs[r] == s.runs[r];
    if t.runs[r].pc == Marked {
      t := OwnOn(s, t, {}, Confirm(r));
    }
    assert At(t, q, Finished(Succeeded)) && At(t, r, Finished(Succeeded));
    assert t.runs[q].req.group == t.runs[r].req.group == Some(g);
  }
}
