/** The global resource counters against the resource lists of the running tasks, over every run. */
module BrokerResources {
  import opened Edits
  import opened ResourceNames
  import opened BrokerState
  import opened BrokerQueues

  // ---- What the running tasks hold ----

  /** Every occurrence of a resource in the list of a running task. */
  ghost function Held(tasks: Tasks): multiset<string> { Sum(Running(tasks)) }

  /** The counters count exactly what is held. */
  ghost predicate Balanced(tasks: Tasks, u: Usage) {
    forall r :: Count(u, r) == Held(tasks)[r]
  }

  /** The sum does not depend on the order in which it is taken. */
  lemma {:induction false} SumTakesAny(m: map<int, multiset<string>>, k: int)
    requires k in m
    ensures Sum(m) == m[k] + Sum(m - {k})
    decreases |m|
  {
    var j :| j in m && Sum(m) == m[j] + Sum(m - {j});
    if j != k {
      SumTakesAny(m - {j}, k);
      SumTakesAny(m - {k}, j);
      assert m - {j} - {k} == m - {k} - {j};
    }
  }

  function ShareOf(tasks: Tasks, id: int): multiset<string> {
    if Has(tasks, id, RUNNING) then multiset(SplitOf(tasks[id])) else multiset{}
  }

  /** One task changes: its old share leaves the sum, its new one enters. */
  lemma HeldUpdate(tasks: Tasks, id: int, t: Task)
    ensures Held(tasks[id := t]) + ShareOf(tasks, id) == Held(tasks) + ShareOf(tasks[id := t], id)
  {
    HeldSplits(tasks, id);
    HeldSplits(tasks[id := t], id);
    OthersRun(tasks, id, t);
  }

  lemma OthersRun(tasks: Tasks, id: int, t: Task)
    ensures Running(tasks) - {id} == Running(tasks[id := t]) - {id}
  {
    var before, after := Running(tasks) - {id}, Running(tasks[id := t]) - {id};
    forall k ensures k in before <==> k in after && (k in before ==> before[k] == after[k]) {}
  }

  lemma HeldSplits(tasks: Tasks, id: int)
    ensures Held(tasks) == ShareOf(tasks, id) + Sum(Running(tasks) - {id})
  {
    if id in Running(tasks) { SumTakesAny(Running(tasks), id); } else { assert Running(tasks) - {id} == Running(tasks); }
  }

  // ---- Operations that leave the running tasks alone ----

  lemma {:induction false} AddsAreQuiet(s: Status, edits: seq<TaskEdit>, last: int)
    requires Submissions(edits, last) && (forall id :: id in s.tasks ==> id <= last) && ApplyAll(s, edits).Some?
    ensures Running(ApplyAll(s, edits).value.tasks) == Running(s.tasks)
    decreases |edits|
  {
    if edits != [] {
      var t := Apply(s, edits[0]).value;
      assert Running(t.tasks) == Running(s.tasks);
      AddsAreQuiet(t, edits[1..], edits[0].id);
    }
  }

  lemma {:induction false} ChangesAreQuiet(s: Status, ids: seq<int>, to: TaskStatus)
    requires ApplyAll(s, Changes(ids, to)).Some? && to != RUNNING
    requires forall i :: 0 <= i < |ids| ==> !Has(s.tasks, ids[i], RUNNING)
    ensures Running(ApplyAll(s, Changes(ids, to)).value.tasks) == Running(s.tasks)
    decreases |ids|
  {
    if ids != [] {
      var e, rest := StatusChange(ids[0], to), ids[1..];
      JoinLog([], e, Changes(rest, to));
      var t := Apply(s, e).value;
      assert Running(t.tasks) == Running(s.tasks);
      forall i | 0 <= i < |rest| ensures !Has(t.tasks, rest[i], RUNNING) { assert rest[i] == ids[i + 1]; }
      ChangesAreQuiet(t, rest, to);
    }
  }

  lemma {:induction false} PutsAreQuiet(tasks: Tasks, ps: seq<Prepared>)
    requires forall i :: 0 <= i < |ps| ==> ps[i].task.status != RUNNING && !Has(tasks, ps[i].id, RUNNING)
    ensures Running(PutAll(tasks, ps)) == Running(tasks)
    decreases |ps|
  {
    if ps != [] {
      var t := tasks[ps[0].id := ps[0].task];
      assert Running(t) == Running(tasks);
      PutsAreQuiet(t, ps[1..]);
    }
  }

  // ---- Reports give back what was held ----

  predicate ChangesIn(tasks: Tasks, r: Report, done: set<int>) { Changing(tasks, r) && r.id in done }

  function Done(tasks: Tasks, r: Report, done: set<int>): set<int> { if Changing(tasks, r) then done + {r.id} else done }

  function Twice(tasks: Tasks, r: Report, done: set<int>): multiset<string> {
    if ChangesIn(tasks, r, done) then multiset(SplitOf(tasks[r.id])) else multiset{}
  }

  /** The resource lists that are released although an earlier report of the batch released them; `done`: tasks changed so far. */
  function ReleasedAgain(tasks: Tasks, rs: seq<Report>, done: set<int>): multiset<string>
    decreases |rs|
  {
    if rs == [] then multiset{}
    else Twice(tasks, rs[0], done) + ReleasedAgain(tasks, rs[1..], Done(tasks, rs[0], done))
  }

  /** Tasks changed so far run no more, the others are as they were. */
  ghost predicate DoneIn(before: Tasks, now: Tasks, done: set<int>) {
    && before.Keys == now.Keys && (forall id :: id in done ==> !Has(now, id, RUNNING))
    && forall id :: id in now && id !in done ==> now[id] == before[id]
  }

  lemma {:induction false} BatchReleases(before: Tasks, s: Status, rs: seq<Report>, done: set<int>)
    requires DoneIn(before, s.tasks, done) && ApplyAll(s, FinishEdits(before, rs)).Some?
    ensures Held(ApplyAll(s, FinishEdits(before, rs)).value.tasks) + Released(before, FinishEdits(before, rs))
            == Held(s.tasks) + ReleasedAgain(before, rs, done)
    decreases |rs|
  {
    if rs != [] {
      var r, rest := rs[0], rs[1..];
      var es, more := FinishEdit(before, r), FinishEdits(before, rest);
      if es == [] {
        assert es + more == more;
        BatchReleases(before, s, rest, done);
      } else {
        BatchStep(before, s, r, more, done);
        var t := Apply(s, es[0]).value;
        BatchReleases(before, t, rest, done + {r.id});
        SumsMeet(Held(ApplyAll(t, more).value.tasks), Released(before, more), Held(t.tasks), ReleasedAgain(before, rest, done + {r.id}),
                 Held(s.tasks), ShareOf(s.tasks, r.id), multiset(SplitOf(before[r.id])), Twice(before, r, done));
      }
    }
  }

  lemma BatchStep(before: Tasks, s: Status, r: Report, more: seq<TaskEdit>, done: set<int>)
    requires DoneIn(before, s.tasks, done) && Changing(before, r)
    ensures var e := FinishEdit(before, r)[0];
            && Apply(s, e).Some? && ApplyAll(s, FinishEdit(before, r) + more) == ApplyAll(Apply(s, e).value, more)
            && Released(before, FinishEdit(before, r) + more) == multiset(SplitOf(before[r.id])) + Released(before, more)
            && DoneIn(before, Apply(s, e).value.tasks, done + {r.id})
            && Held(Apply(s, e).value.tasks) + ShareOf(s.tasks, r.id) == Held(s.tasks)
            && multiset(SplitOf(before[r.id])) == ShareOf(s.tasks, r.id) + Twice(before, r, done)
  {
    var e := FinishEdit(before, r)[0];
    assert FinishEdit(before, r) == [e] && e.StatusChange? && e.id == r.id && e.to != RUNNING;
    ApplyHead(s, e, more);
    ReleasedHead(before, e, more);
    ShareGoes(s.tasks, r.id, e.to);
    ShareOnce(before, s.tasks, r, done);
  }

  lemma ShareGoes(tasks: Tasks, id: int, to: TaskStatus)
    requires id in tasks && to != RUNNING
    ensures Held(tasks[id := tasks[id].(status := to)]) + ShareOf(tasks, id) == Held(tasks)
  {
    HeldUpdate(tasks, id, tasks[id].(status := to));
    assert Held(tasks) + multiset{} == Held(tasks);
  }

  lemma ShareOnce(before: Tasks, now: Tasks, r: Report, done: set<int>)
    requires DoneIn(before, now, done) && Changing(before, r)
    ensures multiset(SplitOf(before[r.id])) == ShareOf(now, r.id) + Twice(before, r, done)
  {
  }

  lemma SumsMeet(end: multiset<string>, released: multiset<string>, mid: multiset<string>, again: multiset<string>,
                 start: multiset<string>, share: multiset<string>, list: multiset<string>, twice: multiset<string>)
    requires end + released == mid + again && mid + share == start && list == share + twice
    ensures end + (list + released) == start + (twice + again)
  {
    calc {
      end + (list + released);
      (end + released) + share + twice;
      (mid + again) + share + twice;
      (mid + share) + (twice + again);
      start + (twice + again);
    }
  }

  lemma {:induction false} DistinctReleaseOnce(tasks: Tasks, rs: seq<Report>, done: set<int>)
    requires DistinctReports(rs) && forall i :: 0 <= i < |rs| ==> rs[i].id !in done
    ensures ReleasedAgain(tasks, rs, done) == multiset{}
    decreases |rs|
  {
    if rs != [] { DistinctReleaseOnce(tasks, rs[1..], Done(tasks, rs[0], done)); }
  }

  lemma ReleasedHead(before: Tasks, e: TaskEdit, more: seq<TaskEdit>)
    requires e.StatusChange? && e.id in before
    ensures Released(before, [e] + more) == multiset(SplitOf(before[e.id])) + Released(before, more)
  {
    assert ([e] + more)[1..] == more;
  }

  // ---- Assignments take what is counted, and what an earlier assignment left behind ----

  /** A task handed out without resources keeps the list of an earlier assignment; nobody counts that again. */
  function Stale(tasks: Tasks, taken: seq<TakenTask>): multiset<string>
    decreases |taken|
  {
    if taken == [] then multiset{} else StaleOne(tasks, taken[0]) + Stale(tasks, taken[1..])
  }

  function StaleOne(tasks: Tasks, t: TakenTask): multiset<string> {
    if t.id in tasks && t.resourceIds.None? then multiset(SplitOf(tasks[t.id])) else multiset{}
  }

  function UsedOne(tasks: Tasks, t: TakenTask): multiset<string> {
    if t.id in tasks && t.resourceIds.Some? then multiset(t.resourceIds.value) else multiset{}
  }

  ghost predicate FaithfulTaken(taken: seq<TakenTask>) {
    forall i :: 0 <= i < |taken| && taken[i].resourceIds.Some? ==> Faithful(taken[i].resourceIds.value)
  }

  lemma AssignHolds(before: Tasks, tasks: Tasks, t: TakenTask, e: TaskEdit)
    requires t.id in before && t.id in tasks && before[t.id] == tasks[t.id] && tasks[t.id].status == WAITING
    requires t.resourceIds.Some? ==> Faithful(t.resourceIds.value)
    requires e.AssignTask? && e.id == t.id && e.resources == Listed(t.resourceIds)
    ensures Held(tasks[t.id := Assigned(tasks[t.id], e)]) == Held(tasks) + UsedOne(before, t) + StaleOne(before, t)
  {
    var after := tasks[t.id := Assigned(tasks[t.id], e)];
    HeldUpdate(tasks, t.id, Assigned(tasks[t.id], e));
    assert ShareOf(tasks, t.id) == multiset{};
    assert ShareOf(after, t.id) == UsedOne(before, t) + StaleOne(before, t) by {
      assert ShareOf(after, t.id) == multiset(SplitOf(Assigned(tasks[t.id], e)));
      if t.resourceIds.Some? { SplitUndoesJoinIff(t.resourceIds.value); }
    }
    assert Held(after) == Held(after) + multiset{};
    assert Held(tasks) + UsedOne(before, t) + StaleOne(before, t) == Held(tasks) + (UsedOne(before, t) + StaleOne(before, t));
  }

  /** Distinct waiting tasks, as they were when the batch was decided. */
  ghost predicate Takeable(before: Tasks, now: Tasks, taken: seq<TakenTask>) {
    && (forall i :: 0 <= i < |taken| ==> Has(now, taken[i].id, WAITING) && taken[i].id in before && before[taken[i].id] == now[taken[i].id])
    && (forall i, j :: 0 <= i < j < |taken| ==> taken[i].id != taken[j].id)
  }

  lemma {:induction false} AssignsHold(before: Tasks, s: Status, taken: seq<TakenTask>, worker: string)
    requires Takeable(before, s.tasks, taken) && worker != "" && FaithfulTaken(taken)
    ensures ApplyAll(s, AssignEdits(before, taken, worker)).Some?
    ensures Held(ApplyAll(s, AssignEdits(before, taken, worker)).value.tasks) == Held(s.tasks) + Used(before, taken) + Stale(before, taken)
    decreases |taken|
  {
    if taken != [] {
      var rest := taken[1..];
      var e := AssignEditsHead(before, taken, worker);
      ApplyHead(s, e, AssignEdits(before, rest, worker));
      AssignStepHolds(before, s, taken, worker, e);
      var t := Apply(s, e).value;
      RestTakeable(before, s.tasks, t.tasks, taken);
      AssignsHold(before, t, rest, worker);
      AddBoth(Held(s.tasks), UsedOne(before, taken[0]), StaleOne(before, taken[0]), Used(before, rest), Stale(before, rest));
    }
  }

  lemma RestTakeable(before: Tasks, now: Tasks, then': Tasks, taken: seq<TakenTask>)
    requires taken != [] && Takeable(before, now, taken)
    requires then'.Keys == now.Keys && forall x :: x in now && x != taken[0].id ==> then'[x] == now[x]
    ensures Takeable(before, then', taken[1..])
  {
    assert forall i :: 0 <= i < |taken[1..]| ==> taken[1..][i] == taken[i + 1];
  }

  lemma AddBoth(a: multiset<string>, b: multiset<string>, c: multiset<string>, d: multiset<string>, e: multiset<string>)
    ensures a + b + c + d + e == a + (b + d) + (c + e)
  {
  }

  lemma HeapIsTakeable(tasks: Tasks, heap: multiset<int>, taken: seq<TakenTask>)
    requires HeapAgrees(tasks, heap) && multiset(Ids(taken)) <= heap
    ensures Takeable(tasks, tasks, taken)
  {
    IdsAt(taken);
    forall i | 0 <= i < |taken| ensures Has(tasks, taken[i].id, WAITING) {
      assert Ids(taken)[i] in multiset(Ids(taken));
      assert heap[taken[i].id] >= 1;
    }
    forall i, j | 0 <= i < j < |taken| ensures taken[i].id != taken[j].id {
      if Ids(taken)[i] == Ids(taken)[j] { CountedTwice(Ids(taken), i, j); }
    }
  }

  lemma {:induction false} IdsAt(taken: seq<TakenTask>)
    ensures |Ids(taken)| == |taken| && forall i :: 0 <= i < |taken| ==> Ids(taken)[i] == taken[i].id
    decreases |taken|
  {
    if taken != [] { IdsAt(taken[1..]); }
  }

  lemma CountedTwice(ids: seq<int>, i: nat, j: nat)
    requires i < j < |ids| && ids[i] == ids[j]
    ensures multiset(ids)[ids[i]] >= 2
  {
    var front, back := ids[..j], ids[j..];
    assert ids == front + back && front[i] == ids[i] && back[0] == ids[j];
    assert multiset(front)[ids[i]] >= 1 && multiset(back)[ids[i]] >= 1;
  }

  lemma AssignStepHolds(before: Tasks, s: Status, taken: seq<TakenTask>, worker: string, e: TaskEdit)
    requires taken != [] && FaithfulTaken(taken) && Has(s.tasks, taken[0].id, WAITING) && taken[0].id in before
    requires before[taken[0].id] == s.tasks[taken[0].id] && worker != ""
    requires AssignEdits(before, taken, worker) == [e] + AssignEdits(before, taken[1..], worker)
    ensures Apply(s, e).Some?
    ensures Held(Apply(s, e).value.tasks) == Held(s.tasks) + UsedOne(before, taken[0]) + StaleOne(before, taken[0])
  {
    assert e == AssignEdits(before, taken, worker)[0];
    AssignHolds(before, s.tasks, taken[0], e);
  }

  // ---- Runs ----

  ghost predicate FaithfulOps(ops: seq<Op>) {
    forall i :: 0 <= i < |ops| && ops[i].OpAssign? ==> FaithfulTaken(ops[i].taken)
  }

  /** What an operation releases later without counting it now, or releases a second time. */
  function LeakedOne(m: Mem, op: Op): multiset<string> {
    match op
    case OpAssign(taken, _) => Stale(m.status.tasks, taken)
    case OpFinish(rs) => ReleasedAgain(m.status.tasks, rs, {})
    case _ => multiset{}
  }

  /** The lists of the running tasks whose worker a boot does not know. */
  ghost function UnknownHeld(tasks: Tasks, workers: set<string>): multiset<string> {
    Sum(Running(tasks) - KnownRunning(tasks, workers).Keys)
  }

  /** What the counters lack after an operation, if they lacked `u` before: a boot counts anew. */
  ghost function UncountedOne(m: Mem, op: Op, u: multiset<string>): multiset<string> {
    if op.OpBoot? then UnknownHeld(m.status.tasks, op.workers) else u + LeakedOne(m, op)
  }

  ghost function Uncounted(m: Mem, ops: seq<Op>, u: multiset<string>): multiset<string>
    decreases |ops|
  {
    if ops == [] then u
    else match Do(m, ops[0]) case None => u case Some(n) => Uncounted(n, ops[1..], UncountedOne(m, ops[0], u))
  }

  ghost predicate Moved(m: Mem, n: Mem, leak: multiset<string>) {
    forall r :: Count(n.usage, r) - Held(n.status.tasks)[r] == Count(m.usage, r) - Held(m.status.tasks)[r] - leak[r]
  }

  lemma OpMoves(m: Mem, op: Op)
    requires GoodMem(m) && Fits(m, op) && Do(m, op).Some? && !op.OpBoot? && (op.OpAssign? ==> FaithfulTaken(op.taken))
    ensures Moved(m, Do(m, op).value, LeakedOne(m, op))
  {
    match op
    case OpAdd(rs) => AddMoves(m, rs);
    case OpBegin(tx) =>
    case OpCommit(tx) => CommitMoves(m, tx);
    case OpRollback(tx) =>
    case OpResume(drained) => ResumeMoves(m, drained);
    case OpAssign(taken, worker) => AssignMoves(m, taken, worker);
    case OpFinish(rs) => FinishMoves(m, rs);
    case OpWorkerDied(ids, now) =>
      DeathReportsFit(m.status.tasks, ids, now);
      DistinctReleaseOnce(m.status.tasks, DeathReports(m.status.tasks, ids, now), {});
      FinishMoves(m, DeathReports(m.status.tasks, ids, now));
    case OpExpire(ids, _) => ChangesAreQuiet(m.status, ids, ERROR);
  }

  lemma AddMoves(m: Mem, rs: seq<Request>)
    requires GoodMem(m) && Add(m, rs).Some?
    ensures Moved(m, Add(m, rs).value, multiset{})
  {
    var edits := EditsFor(rs, m.lastId);
    EditsForAdds(rs, m.lastId);
    AcceptedAreSubmissions(m.status.slots, edits, m.lastId, m.lastId + |rs|);
    AddsAreQuiet(m.status.(slots := Taken(m.status.slots, edits)), Accepted(m.status.slots, edits), m.lastId);
  }

  lemma CommitMoves(m: Mem, tx: int)
    requires GoodMem(m)
    ensures Moved(m, Commit(m, tx), multiset{})
  {
    if tx in m.status.transactions {
      var ps := m.status.transactions[tx];
      forall i | 0 <= i < |ps| ensures ps[i].task.status != RUNNING && ps[i].id !in m.status.tasks {
        assert NewTaskOk(m.status, m.status.transactions[tx][i], m.lastId);
      }
      PutsAreQuiet(m.status.tasks, ps);
    }
  }

  lemma ResumeMoves(m: Mem, drained: seq<int>)
    requires GoodMem(m) && multiset(drained) <= m.delayed && Resume(m, drained).Some?
    ensures Moved(m, Resume(m, drained).value, multiset{})
  {
    forall i | 0 <= i < |drained| ensures !Has(m.status.tasks, drained[i], RUNNING) {
      assert drained[i] in multiset(drained);
      assert m.delayed[drained[i]] >= 1;
    }
    ChangesAreQuiet(m.status, drained, WAITING);
  }

  /** A batch releases what its tasks hold, and the lists of the tasks it changes again. */
  lemma FinishMoves(m: Mem, rs: seq<Report>)
    requires Finish(m, rs).Some?
    ensures Moved(m, Finish(m, rs).value, ReleasedAgain(m.status.tasks, rs, {}))
  {
    BatchReleases(m.status.tasks, m.status, rs, {});
    ReleaseMoves(m, Finish(m, rs).value, Released(m.status.tasks, FinishEdits(m.status.tasks, rs)), ReleasedAgain(m.status.tasks, rs, {}));
  }

  lemma ReleaseMoves(m: Mem, n: Mem, released: multiset<string>, again: multiset<string>)
    requires n.usage == m.usage.(released := m.usage.released + released)
    requires Held(n.status.tasks) + released == Held(m.status.tasks) + again
    ensures Moved(m, n, again)
  {
    forall r ensures Count(n.usage, r) == Count(m.usage, r) - released[r]
                     && Held(n.status.tasks)[r] + released[r] == Held(m.status.tasks)[r] + again[r]
    {
      assert (Held(n.status.tasks) + released)[r] == (Held(m.status.tasks) + again)[r];
    }
  }

  lemma AssignMoves(m: Mem, taken: seq<TakenTask>, worker: string)
    requires GoodMem(m) && multiset(Ids(taken)) <= m.heap && Assign(m, taken, worker).Some? && FaithfulTaken(taken)
    ensures Moved(m, Assign(m, taken, worker).value, Stale(m.status.tasks, taken))
  {
    if taken == [] {
      assert Used(m.status.tasks, taken) == multiset{};
      assert m.usage.used + multiset{} == m.usage.used;
    } else {
      if worker == "" { NoWorkerThrows(m, StrandedIn(m), taken); }
      HeapIsTakeable(m.status.tasks, m.heap, taken);
      AssignsHold(m.status.tasks, m.status, taken, worker);
      UseMoves(m, Assign(m, taken, worker).value, Used(m.status.tasks, taken), Stale(m.status.tasks, taken));
    }
  }

  lemma UseMoves(m: Mem, n: Mem, used: multiset<string>, stale: multiset<string>)
    requires n.usage == m.usage.(used := m.usage.used + used)
    requires Held(n.status.tasks) == Held(m.status.tasks) + used + stale
    ensures Moved(m, n, stale)
  {
  }

  /** The counters lack exactly `u`. */
  ghost predicate Lacks(m: Mem, u: multiset<string>) {
    forall r :: Count(m.usage, r) + u[r] == Held(m.status.tasks)[r]
  }

  lemma OpLacks(m: Mem, op: Op, u: multiset<string>)
    requires GoodMem(m) && Fits(m, op) && Do(m, op).Some? && (op.OpAssign? ==> FaithfulTaken(op.taken)) && Lacks(m, u)
    ensures Lacks(Do(m, op).value, UncountedOne(m, op, u))
  {
    if op.OpBoot? {
      SumOfPart(Running(m.status.tasks), KnownRunning(m.status.tasks, op.workers));
    } else {
      OpMoves(m, op);
      MovedLacks(m, Do(m, op).value, u, LeakedOne(m, op));
    }
  }

  lemma MovedLacks(m: Mem, n: Mem, u: multiset<string>, leak: multiset<string>)
    requires Lacks(m, u) && Moved(m, n, leak)
    ensures Lacks(n, u + leak)
  {
    forall r ensures Count(n.usage, r) + (u + leak)[r] == Held(n.status.tasks)[r] {
      assert Count(m.usage, r) + u[r] == Held(m.status.tasks)[r];
    }
  }

  lemma {:induction false} RunLacks(m: Mem, ops: seq<Op>, u: multiset<string>, end: Mem)
    requires GoodMem(m) && Runs(m, ops, end) && FaithfulOps(ops) && Lacks(m, u)
    ensures Lacks(end, Uncounted(m, ops, u))
    decreases |ops|
  {
    if ops != [] {
      OpLacks(m, ops[0], u);
      OpKeepsGood(m, ops[0]);
      RunLacks(Do(m, ops[0]).value, ops[1..], UncountedOne(m, ops[0], u), end);
    }
  }

  // ---- Main results ----

  /**
   * After every run, boots among it, each counter is what the running tasks hold, less what was left uncounted: lists that
   * an assignment without resources kept, lists a batch gave back twice, and lists on workers the last boot did not know.
   */
  lemma CountersAreExact(ops: seq<Op>, end: Mem)
    requires Runs(FRESH, ops, end) && FaithfulOps(ops)
    ensures forall r :: Count(end.usage, r) + Uncounted(FRESH, ops, multiset{})[r] == Held(end.status.tasks)[r]
  {
    FreshBalances();
    RunLacks(FRESH, ops, multiset{}, end);
  }

  lemma FreshBalances()
    ensures GoodMem(FRESH) && Balanced(FRESH.status.tasks, FRESH.usage) && Lacks(FRESH, multiset{})
  {
    assert Running(FRESH.status.tasks) == map[];
  }

  /** So the counters agree, and never go below zero, over exactly the runs that leave nothing uncounted. */
  lemma BalancedExactlyWithoutLeaks(ops: seq<Op>, end: Mem)
    requires Runs(FRESH, ops, end) && FaithfulOps(ops)
    ensures Balanced(end.status.tasks, end.usage) <==> Uncounted(FRESH, ops, multiset{}) == multiset{}
    ensures Balanced(end.status.tasks, end.usage) ==> forall r :: Count(end.usage, r) >= 0
  {
    CountersAreExact(ops, end);
    var lacking := Uncounted(FRESH, ops, multiset{});
    if Balanced(end.status.tasks, end.usage) {
      forall r ensures lacking[r] == 0 {}
      assert lacking == multiset{};
    }
  }

  /** A step hands out a task without resources although an earlier assignment left it a list. */
  ghost predicate TakesStale(m: Mem, op: Op) {
    op.OpAssign? && exists i :: 0 <= i < |op.taken| && op.taken[i].id in m.status.tasks
                                && op.taken[i].resourceIds.None? && SplitOf(m.status.tasks[op.taken[i].id]) != []
  }

  lemma {:induction false} StaleIff(tasks: Tasks, taken: seq<TakenTask>)
    ensures Stale(tasks, taken) != multiset{} <==>
            exists i :: 0 <= i < |taken| && taken[i].id in tasks && taken[i].resourceIds.None? && SplitOf(tasks[taken[i].id]) != []
    decreases |taken|
  {
    if taken != [] {
      StaleIff(tasks, taken[1..]);
      var one, rest := StaleOne(tasks, taken[0]), Stale(tasks, taken[1..]);
      assert |one + rest| == |one| + |rest|;
      assert forall i :: 0 < i < |taken| ==> taken[i] == taken[1..][i - 1];
      if taken[0].id in tasks { assert |multiset(SplitOf(tasks[taken[0].id]))| == |SplitOf(tasks[taken[0].id])|; }
    }
  }

  /** A report changes a task that holds resources after an earlier one of the batch has changed it. */
  ghost predicate ReleasesTwice(tasks: Tasks, rs: seq<Report>, done: set<int>) {
    exists j :: 0 <= j < |rs| && Changing(tasks, rs[j]) && SplitOf(tasks[rs[j].id]) != []
                && (rs[j].id in done || exists i :: 0 <= i < j && rs[i].id == rs[j].id && Changing(tasks, rs[i]))
  }

  lemma {:induction false} AgainIff(tasks: Tasks, rs: seq<Report>, done: set<int>)
    ensures ReleasedAgain(tasks, rs, done) != multiset{} <==> ReleasesTwice(tasks, rs, done)
    decreases |rs|
  {
    if rs != [] {
      var rest, next := rs[1..], Done(tasks, rs[0], done);
      AgainIff(tasks, rest, next);
      var one := Twice(tasks, rs[0], done);
      assert |one + ReleasedAgain(tasks, rest, next)| == |one| + |ReleasedAgain(tasks, rest, next)|;
      if Changing(tasks, rs[0]) { assert |multiset(SplitOf(tasks[rs[0].id]))| == |SplitOf(tasks[rs[0].id])|; }
      TwiceStep(tasks, rs, done);
    }
  }

  lemma TwiceStep(tasks: Tasks, rs: seq<Report>, done: set<int>)
    requires rs != []
    ensures ReleasesTwice(tasks, rs, done) <==>
            (ChangesIn(tasks, rs[0], done) && SplitOf(tasks[rs[0].id]) != []) || ReleasesTwice(tasks, rs[1..], Done(tasks, rs[0], done))
  {
    var rest, next := rs[1..], Done(tasks, rs[0], done);
    assert forall j :: 0 < j < |rs| ==> rs[j] == rest[j - 1];
    if ReleasesTwice(tasks, rest, next) {
      var j :| 0 <= j < |rest| && Changing(tasks, rest[j]) && SplitOf(tasks[rest[j].id]) != []
               && (rest[j].id in next || exists i :: 0 <= i < j && rest[i].id == rest[j].id && Changing(tasks, rest[i]));
      assert rs[j + 1] == rest[j];
      if rest[j].id !in next {
        var i :| 0 <= i < j && rest[i].id == rest[j].id && Changing(tasks, rest[i]);
        assert rs[i + 1] == rest[i];
      }
    }
  }

  lemma LeaksIff(m: Mem, op: Op)
    ensures LeakedOne(m, op) != multiset{} <==> TakesStale(m, op) || (op.OpFinish? && ReleasesTwice(m.status.tasks, op.reports, {}))
  {
    if op.OpAssign? { StaleIff(m.status.tasks, op.taken); }
    if op.OpFinish? { AgainIff(m.status.tasks, op.reports, {}); }
  }

  // ---- A run that leaks ----

  lemma AssignOne(m: Mem, t: TakenTask, worker: string)
    requires t.id in m.status.tasks && worker != ""
    ensures var task := m.status.tasks[t.id];
            var e := AssignTask(t.id, worker, task.attempts + 1, Listed(t.resourceIds));
            Assign(m, [t], worker) == Some(m.(status := m.status.(tasks := m.status.tasks[t.id := Assigned(task, e)]), log := m.log + [e],
              heap := m.heap - multiset{t.id}, usage := m.usage.(used := m.usage.used + UsedOne(m.status.tasks, t))))
  {
    var e := AssignTask(t.id, worker, m.status.tasks[t.id].attempts + 1, Listed(t.resourceIds));
    assert [t][1..] == [] && [e][1..] == [];
    assert AssignEdits(m.status.tasks, [t], worker) == [e] + AssignEdits(m.status.tasks, [], worker) == [e];
    assert Ids([t]) == [t.id] + Ids([]) == [t.id];
    assert Used(m.status.tasks, [t]) == UsedOne(m.status.tasks, t) + Used(m.status.tasks, []) == UsedOne(m.status.tasks, t);
    ApplyHead(m.status, e, []);
    assert [e] + [] == [e];
  }

  lemma FinishOne(m: Mem, r: Report)
    requires Has(m.status.tasks, r.id, RUNNING) && (r.final == FINISHED || r.final == ERROR)
    ensures var task := m.status.tasks[r.id];
            var e := StatusChange(r.id, if r.final == FINISHED then FINISHED else AfterFailure(task, r.now));
            Finish(m, [r]) == Some(m.(status := Apply(m.status, e).value, log := m.log + [e], heap := HeapedOne(m.heap, e),
              usage := m.usage.(released := m.usage.released + multiset(SplitOf(task)))))
  {
    var e := FinishEdit(m.status.tasks, r)[0];
    var tasks := m.status.tasks;
    assert [r][1..] == [] && [e][1..] == [] && [e] + [] == [e];
    assert !Bad(tasks, r) && forall i :: 0 <= i < |[r]| ==> [r][i] == r;
    assert FinishEdits(tasks, [r]) == FinishEdit(tasks, r) + FinishEdits(tasks, []) == [e];
    ApplyHead(m.status, e, []);
    assert Heaped(m.heap, [e]) == Heaped(HeapedOne(m.heap, e), []);
    ReleasedHead(tasks, e, []);
    assert Released(tasks, [e]) == multiset(SplitOf(tasks[r.id])) + multiset{} == multiset(SplitOf(tasks[r.id]));
    assert ApplyAll(m.status, [e]) == ApplyAll(Apply(m.status, e).value, []) == Apply(m.status, e);
    assert FinishEdit(tasks, r) == [e];
    assert e == StatusChange(r.id, if r.final == FINISHED then FINISHED else AfterFailure(tasks[r.id], r.now));
    assert Heaped(m.heap, [e]) == HeapedOne(m.heap, e);
  }

  lemma AddOne(n: NewTask)
    requires n.slot == None && !n.later
    ensures Add(FRESH, [Request(0, n)]) ==
            Some(FRESH.(status := FRESH.status.(tasks := map[1 := Made(n)]), log := [AddTask(1, n)], heap := multiset{1}, lastId := 1))
  {
    var e, r := AddTask(1, n), Request(0, n);
    assert [r][1..] == [] && [e][1..] == [] && [e] + [] == [e];
    assert EditsFor([r], 0) == [e] + EditsFor([], 1) == [e];
    assert Accepted(map[], [e]) == [e] + Accepted(map[], []) == [e];
    assert Taken(map[], [e]) == Taken(map[], []) == map[];
    ApplyHead(FRESH.status, e, []);
    assert FRESH.status.(slots := map[]) == FRESH.status;
    assert Heaped(multiset{}, [e]) == Heaped(HeapedOne(multiset{}, e), []) == multiset{1};
    assert Delayed(multiset{}, [e]) == Delayed(multiset{}, []) == multiset{};
    assert ApplyAll(FRESH.status, [e]) == ApplyAll(Apply(FRESH.status, e).value, []) == Apply(FRESH.status, e);
    assert map[][1 := Made(n)] == map[1 := Made(n)];
    assert EditsFor([Request(0, n)], FRESH.lastId) == [e];
    assert Accepted(FRESH.status.slots, [e]) == [e];
    assert FRESH.log + [e] == [e];
    assert Apply(FRESH.status, e).value == FRESH.status.(tasks := map[1 := Made(n)]);
  }

  ghost predicate Reaches(m: Mem, op: Op, n: Mem) { Fits(m, op) && Do(m, op) == Some(n) }

  function Only(m: Mem): Task
    requires 1 in m.status.tasks
  {
    m.status.tasks[1]
  }

  /** The only task is given to "w". */
  lemma GiveOnly(m: Mem, res: Option<seq<string>>) returns (op: Op, n: Mem)
    requires m.status.tasks.Keys == {1} && m.heap == multiset{1}
    ensures op == OpAssign([TakenTask(1, res)], "w") && Reaches(m, op, n)
    ensures n.status.tasks.Keys == {1} && Only(n) == Assigned(Only(m), AssignTask(1, "w", Only(m).attempts + 1, Listed(res)))
    ensures n.heap == multiset{} && Count(n.usage, "a") == Count(m.usage, "a") + (if res.Some? then multiset(res.value)["a"] else 0)
  {
    var t := TakenTask(1, res);
    op := OpAssign([t], "w");
    GiveFits(m, t);
    AssignOne(m, t, "w");
    n := Assign(m, [t], "w").value;
    assert m.heap - multiset{1} == multiset{};
  }

  lemma GiveFits(m: Mem, t: TakenTask)
    requires m.heap == multiset{1} && t.id == 1
    ensures Fits(m, OpAssign([t], "w"))
  {
    assert Ids([t]) == [1] + Ids([]) == [1];
  }

  /** The only task, which may be tried for ever, is reported on. */
  lemma ReportOnly(m: Mem, final: TaskStatus) returns (op: Op, n: Mem)
    requires m.status.tasks.Keys == {1} && Only(m).status == RUNNING && Only(m).maxattempts == Only(m).deadline == 0 && m.heap == multiset{}
    requires final == FINISHED || final == ERROR
    ensures op == OpFinish([Report(1, final, 0)]) && Reaches(m, op, n)
    ensures n.status.tasks.Keys == {1} && Only(n) == Only(m).(status := if final == FINISHED then FINISHED else WAITING)
    ensures final == ERROR ==> n.heap == multiset{1}
    ensures Count(n.usage, "a") == Count(m.usage, "a") - multiset(SplitOf(Only(m)))["a"]
  {
    var r := Report(1, final, 0);
    op := OpFinish([r]);
    FinishOne(m, r);
    n := Finish(m, [r]).value;
  }

  lemma SubmitOnly() returns (op: Op, n: Mem)
    ensures op.OpAdd? && Reaches(FRESH, op, n) && n.heap == multiset{1} && Count(n.usage, "a") == 0
    ensures n.status.tasks.Keys == {1} && Only(n) == Task(WAITING, 0, 0, 0, None, None, None)
  {
    op := OpAdd([Request(0, NewTask(0, 0, 0, None, false))]);
    AddOne(op.requests[0].task);
    n := Add(FRESH, op.requests).value;
  }

  lemma ListOfA()
    ensures Split("a") == ["a"] && Listed(Some(["a"])) == Some("a") && multiset(["a"])["a"] == 1
  {
  }

  lemma FirstTry() returns (o1: Op, m1: Mem, o2: Op, m2: Mem, o3: Op, m3: Mem)
    ensures Reaches(FRESH, o1, m1) && Reaches(m1, o2, m2) && Reaches(m2, o3, m3)
    ensures o1.OpAdd? && FaithfulTaken([TakenTask(1, Some(["a"]))]) && o2 == OpAssign([TakenTask(1, Some(["a"]))], "w") && o3.OpFinish?
    ensures m3.status.tasks.Keys == {1} && Only(m3) == Task(WAITING, 1, 0, 0, None, Some("a"), Some("w"))
    ensures m3.heap == multiset{1} && Count(m3.usage, "a") == 0
  {
    ListOfA();
    o1, m1 := SubmitOnly();
    o2, m2 := GiveOnly(m1, Some(["a"]));
    o3, m3 := ReportOnly(m2, ERROR);
  }

  lemma SecondTry(m3: Mem) returns (o4: Op, m4: Mem, o5: Op, m5: Mem)
    requires m3.status.tasks.Keys == {1} && Only(m3) == Task(WAITING, 1, 0, 0, None, Some("a"), Some("w"))
    requires m3.heap == multiset{1} && Count(m3.usage, "a") == 0
    ensures Reaches(m3, o4, m4) && Reaches(m4, o5, m5)
    ensures o4 == OpAssign([TakenTask(1, None)], "w") && o5.OpFinish?
    ensures Held(m5.status.tasks)["a"] == 0 && Count(m5.usage, "a") == -1
  {
    ListOfA();
    o4, m4 := GiveOnly(m3, None);
    o5, m5 := ReportOnly(m4, FINISHED);
    NothingRuns(m5);
  }

  lemma FirstRun() returns (ops: seq<Op>, m3: Mem)
    ensures Runs(FRESH, ops, m3) && FaithfulOps(ops)
    ensures m3.status.tasks.Keys == {1} && Only(m3) == Task(WAITING, 1, 0, 0, None, Some("a"), Some("w"))
    ensures m3.heap == multiset{1} && Count(m3.usage, "a") == 0
  {
    var o1, m1, o2, m2, o3;
    o1, m1, o2, m2, o3, m3 := FirstTry();
    var last := RunsTwo(m1, o2, m2, o3, m3);
    RunsCons(FRESH, o1, m1, last, m3);
    ops := [o1] + last;
    FaithfulMore(o1, last);
  }

  lemma SecondRun(m3: Mem) returns (ops: seq<Op>, m5: Mem)
    requires m3.status.tasks.Keys == {1} && Only(m3) == Task(WAITING, 1, 0, 0, None, Some("a"), Some("w"))
    requires m3.heap == multiset{1} && Count(m3.usage, "a") == 0
    ensures Runs(m3, ops, m5) && FaithfulOps(ops)
    ensures Held(m5.status.tasks)["a"] == 0 && Count(m5.usage, "a") == -1
  {
    var o4, m4, o5;
    o4, m4, o5, m5 := SecondTry(m3);
    ops := RunsTwo(m3, o4, m4, o5, m5);
  }

  lemma RunsTwo(m: Mem, a: Op, n: Mem, b: Op, end: Mem) returns (ops: seq<Op>)
    requires Reaches(m, a, n) && Reaches(n, b, end) && a.OpAssign? && FaithfulTaken(a.taken) && !b.OpAssign?
    ensures Runs(m, ops, end) && FaithfulOps(ops)
  {
    RunsCons(n, b, end, [], end);
    RunsCons(m, a, n, [b] + [], end);
    ops := [a] + ([b] + []);
    FaithfulMore(b, []);
    FaithfulMore(a, [b] + []);
  }

  lemma FaithfulMore(op: Op, ops: seq<Op>)
    requires FaithfulOps(ops) && (op.OpAssign? ==> FaithfulTaken(op.taken))
    ensures FaithfulOps([op] + ops)
  {
  }

  lemma RunsCons(m: Mem, op: Op, n: Mem, ops: seq<Op>, end: Mem)
    requires Reaches(m, op, n) && Runs(n, ops, end)
    ensures Runs(m, [op] + ops, end)
  {
    assert ([op] + ops)[1..] == ops;
  }

  lemma Reassociate(ops: seq<Op>, more: seq<Op>)
    requires ops != []
    ensures [ops[0]] + (ops[1..] + more) == ops + more
  {
  }

  lemma {:induction false} RunsConcat(m: Mem, ops: seq<Op>, n: Mem, more: seq<Op>, end: Mem)
    requires Runs(m, ops, n) && Runs(n, more, end)
    ensures Runs(m, ops + more, end)
    decreases |ops|
  {
    if ops == [] {
      assert ops + more == more;
    } else {
      var next := Do(m, ops[0]).value;
      RunsConcat(next, ops[1..], n, more, end);
      RunsCons(m, ops[0], next, ops[1..] + more, end);
      Reassociate(ops, more);
    }
  }

  /** A task that asked for "a", failed, and is handed out again without resources: the counter ends below zero. */
  lemma StaleListLeaks() returns (ops: seq<Op>, end: Mem)
    ensures Runs(FRESH, ops, end) && FaithfulOps(ops)
    ensures Held(end.status.tasks)["a"] == 0 && Count(end.usage, "a") == -1
  {
    var first, m := FirstRun();
    var second;
    second, end := SecondRun(m);
    RunsConcat(FRESH, first, m, second, end);
    ops := first + second;
  }

  lemma NothingRuns(m: Mem)
    requires m.status.tasks.Keys == {1} && Only(m).status == FINISHED
    ensures Held(m.status.tasks) == multiset{}
  {
    assert Running(m.status.tasks) == map[];
  }

  // ---- What a boot rebuilds ----

  lemma {:induction false} SumOfPart(m: map<int, multiset<string>>, part: map<int, multiset<string>>)
    requires part.Keys <= m.Keys && forall k :: k in part ==> m[k] == part[k]
    ensures Sum(m) == Sum(part) + Sum(m - part.Keys)
    decreases |part|
  {
    if k :| k in part {
      SumOfPart(m - {k}, part - {k});
      SameRest(m, part, k);
      TakeFromBoth(m, part, k);
    } else {
      assert forall j :: j in m ==> j in m - part.Keys;
      assert m - part.Keys == m;
    }
  }

  lemma TakeFromBoth(m: map<int, multiset<string>>, part: map<int, multiset<string>>, k: int)
    requires k in part && k in m && m[k] == part[k]
    requires Sum(m - {k}) == Sum(part - {k}) + Sum(m - part.Keys)
    ensures Sum(m) == Sum(part) + Sum(m - part.Keys)
  {
    SumTakesAny(part, k);
    SumTakesAny(m, k);
  }

  lemma SameRest(m: map<int, multiset<string>>, part: map<int, multiset<string>>, k: int)
    requires k in part
    ensures m - {k} - (part - {k}).Keys == m - part.Keys
  {
    assert {k} + (part - {k}).Keys == part.Keys;
  }

  lemma {:induction false} SumEmptyIff(m: map<int, multiset<string>>)
    ensures Sum(m) == multiset{} <==> forall k :: k in m ==> m[k] == multiset{}
    decreases |m|
  {
    if k :| k in m {
      SumTakesAny(m, k);
      SumEmptyIff(m - {k});
      assert |Sum(m)| == |m[k]| + |Sum(m - {k})|;
      assert forall j :: j in m && j != k ==> j in m - {k} && (m - {k})[j] == m[j];
    }
  }

  /** The counters a boot rebuilds are exact if and only if every running task that holds something runs on a known worker. */
  lemma BootBalancedIff(tasks: Tasks, workers: set<string>)
    ensures Balanced(tasks, Usage(map[], Sum(KnownRunning(tasks, workers)), multiset{})) <==>
            forall id :: Has(tasks, id, RUNNING) && SplitOf(tasks[id]) != [] ==> tasks[id].worker.Some? && tasks[id].worker.value in workers
  {
    var all, part := Running(tasks), KnownRunning(tasks, workers);
    var u := Usage(map[], Sum(part), multiset{});
    var others := all - part.Keys;
    SumOfPart(all, part);
    SumEmptyIff(others);
    forall id | id in others ensures others[id] == multiset{} <==> SplitOf(tasks[id]) == [] {
      assert |multiset(SplitOf(tasks[id]))| == |SplitOf(tasks[id])|;
    }
    if Balanced(tasks, u) {
      forall r ensures Sum(others)[r] == 0 { assert Count(u, r) == Held(tasks)[r]; }
      assert Sum(others) == multiset{};
      forall id | Has(tasks, id, RUNNING) && SplitOf(tasks[id]) != [] ensures id in part {
        assert id in all;
        assert id !in part ==> id in others;
      }
    } else {
      assert Sum(others) != multiset{};
    }
  }
}
