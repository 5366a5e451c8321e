/**
 * The log says everything but the time: replaying what a broker logged rebuilds its tasks and its open transactions, except
 * that a delayed task whose start has come by the time of the replay is waiting.
 */
module BrokerReplay {
  import opened Edits
  import opened BrokerState
  import TaskBroker

  /** The same tasks and open transactions; busy slots may differ. */
  predicate SameTasks(s: Status, t: Status) {
    s.tasks == t.tasks && s.transactions == t.transactions
  }

  // ---- Replaying at another time ----

  /** The submission as it is applied again: `ahead` are the tasks whose requested start still lies ahead then. */
  function Again(e: TaskEdit, ahead: set<int>): TaskEdit {
    match e
    case AddTask(id, task) => AddTask(id, task.(later := task.later && id in ahead))
    case PrepareAddTask(tx, id, task) => PrepareAddTask(tx, id, task.(later := task.later && id in ahead))
    case _ => e
  }

  function AllAgain(edits: seq<TaskEdit>, ahead: set<int>): seq<TaskEdit>
    decreases |edits|
  {
    if edits == [] then [] else [Again(edits[0], ahead)] + AllAgain(edits[1..], ahead)
  }

  /** A task that is still delayed waits instead if its start has come. */
  function Due(t: Task, id: int, ahead: set<int>): Task {
    if t.status == DELAYED && id !in ahead then t.(status := WAITING) else t
  }

  function DueTasks(tasks: Tasks, ahead: set<int>): Tasks {
    map id | id in tasks :: Due(tasks[id], id, ahead)
  }

  function DuePrepared(ps: seq<Prepared>, ahead: set<int>): seq<Prepared> {
    seq(|ps|, i requires 0 <= i < |ps| => Prepared(ps[i].id, Due(ps[i].task, ps[i].id, ahead)))
  }

  function DueStatus(s: Status, ahead: set<int>): Status {
    Status(DueTasks(s.tasks, ahead), map tx | tx in s.transactions :: DuePrepared(s.transactions[tx], ahead), s.slots)
  }

  /** No status change makes a task delayed; only a submission does. */
  ghost predicate NoneDelays(edits: seq<TaskEdit>) {
    forall i :: 0 <= i < |edits| && edits[i].StatusChange? ==> edits[i].to != DELAYED
  }

  lemma {:induction false} PutDue(tasks: Tasks, ps: seq<Prepared>, ahead: set<int>)
    ensures PutAll(DueTasks(tasks, ahead), DuePrepared(ps, ahead)) == DueTasks(PutAll(tasks, ps), ahead)
    decreases |ps|
  {
    if ps != [] {
      var rest := ps[1..];
      PutDue(tasks[ps[0].id := ps[0].task], rest, ahead);
      assert DuePrepared(ps, ahead)[1..] == DuePrepared(rest, ahead);
      assert DueTasks(tasks, ahead)[ps[0].id := Due(ps[0].task, ps[0].id, ahead)] == DueTasks(tasks[ps[0].id := ps[0].task], ahead);
    }
  }

  /** One edit, applied at another time to what an earlier replay rebuilt. */
  lemma ApplyAgain(s: Status, t: Status, e: TaskEdit, ahead: set<int>)
    requires SameTasks(t, DueStatus(s, ahead)) && Apply(s, e).Some? && !(e.StatusChange? && e.to == DELAYED)
    ensures Apply(t, Again(e, ahead)).Some? && SameTasks(Apply(t, Again(e, ahead)).value, DueStatus(Apply(s, e).value, ahead))
  {
    if e.PrepareAddTask? {
      PrepareAgain(s, t, e.tx, e.id, e.task, ahead);
    } else if e.BeginTransaction? {
      assert DuePrepared([], ahead) == [];
    } else if e.CommitTransaction? && e.tx in s.transactions {
      PutDue(s.tasks, s.transactions[e.tx], ahead);
    }
  }

  lemma PrepareAgain(s: Status, t: Status, tx: int, id: int, task: NewTask, ahead: set<int>)
    requires SameTasks(t, DueStatus(s, ahead))
    ensures var e := PrepareAddTask(tx, id, task); SameTasks(Apply(t, Again(e, ahead)).value, DueStatus(Apply(s, e).value, ahead))
  {
    if tx in s.transactions {
      var ps := s.transactions[tx];
      assert DuePrepared(ps + [Prepared(id, Made(task))], ahead) == DuePrepared(ps, ahead) + [Prepared(id, Due(Made(task), id, ahead))];
    }
  }

  lemma {:induction false} ReplayAgain(s: Status, t: Status, edits: seq<TaskEdit>, ahead: set<int>)
    requires SameTasks(t, DueStatus(s, ahead)) && ApplyAll(s, edits).Some? && NoneDelays(edits)
    ensures ApplyAll(t, AllAgain(edits, ahead)).Some?
    ensures SameTasks(ApplyAll(t, AllAgain(edits, ahead)).value, DueStatus(ApplyAll(s, edits).value, ahead))
    decreases |edits|
  {
    if edits != [] {
      var e, more := Again(edits[0], ahead), AllAgain(edits[1..], ahead);
      ApplyAgain(s, t, edits[0], ahead);
      ReplayAgain(Apply(s, edits[0]).value, Apply(t, e).value, edits[1..], ahead);
      assert ([e] + more)[1..] == more;
    }
  }

  // ---- What an operation logs ----

  /** What an edit does to tasks and transactions does not depend on the busy slots. */
  lemma {:induction false} SlotsDoNotMatter(s: Status, t: Status, edits: seq<TaskEdit>)
    requires SameTasks(s, t)
    ensures ApplyAll(s, edits).Some? <==> ApplyAll(t, edits).Some?
    ensures ApplyAll(s, edits).Some? ==> SameTasks(ApplyAll(s, edits).value, ApplyAll(t, edits).value)
    decreases |edits|
  {
    if edits != [] && Apply(s, edits[0]).Some? {
      SlotsDoNotMatter(Apply(s, edits[0]).value, Apply(t, edits[0]).value, edits[1..]);
    }
  }

  lemma {:induction false} ReplayJoin(s: Status, a: seq<TaskEdit>, b: seq<TaskEdit>)
    requires ApplyAll(s, a).Some?
    ensures ApplyAll(s, a + b) == ApplyAll(ApplyAll(s, a).value, b)
    decreases |a|
  {
    if a == [] {
      assert a + b == b;
    } else {
      assert (a + b)[1..] == a[1..] + b;
      ReplayJoin(Apply(s, a[0]).value, a[1..], b);
    }
  }

  /** From `s` the edits lead to the tasks and transactions of `t`, and none of them throws. */
  ghost predicate Leads(s: Status, edits: seq<TaskEdit>, t: Status) {
    ApplyAll(s, edits).Some? && SameTasks(ApplyAll(s, edits).value, t) && NoneDelays(edits)
  }

  /** The edits an operation logs. */
  ghost function Logged(m: Mem, n: Mem): seq<TaskEdit>
    requires m.log <= n.log
  {
    n.log[|m.log|..]
  }

  lemma OneLeads(s: Status, e: TaskEdit, t: Status)
    requires !e.StatusChange? && Apply(s, e) == Some(t)
    ensures Leads(s, [e], t)
  {
    assert [e][1..] == [];
  }

  /** A submission that is refused is not logged, and leaves no task. */
  lemma AddIsLogged(m: Mem, rs: seq<Request>) returns (accepted: seq<TaskEdit>)
    requires Add(m, rs).Some?
    ensures Add(m, rs).value.log == m.log + accepted && Leads(m.status, accepted, Add(m, rs).value.status)
  {
    var edits := EditsFor(rs, m.lastId);
    accepted := Accepted(m.status.slots, edits);
    SlotsDoNotMatter(m.status, m.status.(slots := Taken(m.status.slots, edits)), accepted);
    EditsForAdds(rs, m.lastId);
    TaskBroker.AcceptedAreAmong(m.status.slots, edits);
  }

  lemma {:induction false} ChangesDelayNone(ids: seq<int>, to: TaskStatus)
    requires to != DELAYED
    ensures NoneDelays(Changes(ids, to))
    decreases |ids|
  {
    if ids != [] { ChangesDelayNone(ids[1..], to); }
  }

  lemma {:induction false} ReportsDelayNone(tasks: Tasks, rs: seq<Report>)
    ensures NoneDelays(FinishEdits(tasks, rs))
    decreases |rs|
  {
    if rs != [] { ReportsDelayNone(tasks, rs[1..]); }
  }

  lemma CommitIsLogged(m: Mem, tx: int)
    ensures Leads(m.status, [CommitTransaction(tx)], Commit(m, tx).status) && Commit(m, tx).log == m.log + [CommitTransaction(tx)]
  {
    OneLeads(m.status, CommitTransaction(tx), Commit(m, tx).status);
  }

  lemma RollbackIsLogged(m: Mem, tx: int)
    ensures Leads(m.status, [RollbackTransaction(tx)], Rollback(m, tx).status) && Rollback(m, tx).log == m.log + [RollbackTransaction(tx)]
  {
    OneLeads(m.status, RollbackTransaction(tx), Rollback(m, tx).status);
  }

  lemma AssignIsLogged(m: Mem, taken: seq<TakenTask>, worker: string)
    requires Assign(m, taken, worker).Some?
    ensures var n, edits := Assign(m, taken, worker).value, AssignEdits(m.status.tasks, taken, worker);
            n.log == m.log + edits && Leads(m.status, edits, n.status)
  {
    TaskBroker.AssignEditsSubmitNothing(m.status.tasks, taken, worker);
  }

  lemma FinishIsLogged(m: Mem, rs: seq<Report>)
    requires Finish(m, rs).Some?
    ensures var n, edits := Finish(m, rs).value, FinishEdits(m.status.tasks, rs); n.log == m.log + edits && Leads(m.status, edits, n.status)
  {
    ReportsDelayNone(m.status.tasks, rs);
  }

  /** The edits an operation logs do to tasks and transactions what the operation does. */
  lemma EditsOf(m: Mem, op: Op) returns (edits: seq<TaskEdit>)
    requires Do(m, op).Some?
    ensures Do(m, op).value.log == m.log + edits && Leads(m.status, edits, Do(m, op).value.status)
  {
    match op
    case OpAdd(rs) => edits := AddIsLogged(m, rs);
    case OpBegin(tx) =>
      edits := [BeginTransaction(tx)];
      OneLeads(m.status, BeginTransaction(tx), Begin(m, tx).status);
    case OpCommit(tx) =>
      edits := [CommitTransaction(tx)];
      CommitIsLogged(m, tx);
    case OpRollback(tx) =>
      edits := [RollbackTransaction(tx)];
      RollbackIsLogged(m, tx);
    case OpResume(drained) =>
      edits := Changes(drained, WAITING);
      ChangesDelayNone(drained, WAITING);
    case OpAssign(taken, worker) =>
      edits := AssignEdits(m.status.tasks, taken, worker);
      AssignIsLogged(m, taken, worker);
    case OpFinish(rs) =>
      edits := FinishEdits(m.status.tasks, rs);
      FinishIsLogged(m, rs);
    case OpWorkerDied(ids, now) =>
      edits := FinishEdits(m.status.tasks, DeathReports(m.status.tasks, ids, now));
      FinishIsLogged(m, DeathReports(m.status.tasks, ids, now));
    case OpExpire(ids, _) =>
      edits := Changes(ids, ERROR);
      ChangesDelayNone(ids, ERROR);
    case OpBoot(_, _, _) =>
      edits := [];
      assert m.log + [] == m.log;
  }

    lemma OperationIsLogged(m: Mem, op: Op)
    requires Do(m, op).Some?
    ensures m.log <= Do(m, op).value.log && Leads(m.status, Logged(m, Do(m, op).value), Do(m, op).value.status)
  {
    var edits := EditsOf(m, op);
    assert Logged(m, Do(m, op).value) == edits;
  }

  /** The edits logged since `log` lead from what the status was then to what it is now. */
  lemma {:induction false} RunIsLogged(first: Status, log: seq<TaskEdit>, m: Mem, ops: seq<Op>, end: Mem)
    requires log <= m.log && Leads(first, m.log[|log|..], m.status) && Runs(m, ops, end)
    ensures log <= end.log && Leads(first, end.log[|log|..], end.status)
    decreases |ops|
  {
    if ops != [] {
      var n := Do(m, ops[0]).value;
      OperationIsLogged(m, ops[0]);
      ReplayJoin(first, m.log[|log|..], Logged(m, n));
      assert m.log[|log|..] + Logged(m, n) == n.log[|log|..];
      SlotsDoNotMatter(m.status, ApplyAll(first, m.log[|log|..]).value, Logged(m, n));
      RunIsLogged(first, log, n, ops[1..], end);
    }
  }

  // ---- Main results ----

  /** The start of every delayed task, prepared ones included, lies ahead. */
  ghost predicate AllAhead(s: Status, ahead: set<int>) {
    && (forall id :: Has(s.tasks, id, DELAYED) ==> id in ahead)
    && (forall tx, i :: InPlace(s, tx, i) && s.transactions[tx][i].task.status == DELAYED ==> s.transactions[tx][i].id in ahead)
  }

  lemma DueStatusIff(s: Status, ahead: set<int>)
    ensures SameTasks(s, DueStatus(s, ahead)) <==> AllAhead(s, ahead)
  {
    var t := DueStatus(s, ahead);
    if AllAhead(s, ahead) {
      forall tx | tx in s.transactions ensures DuePrepared(s.transactions[tx], ahead) == s.transactions[tx] {
        forall i | 0 <= i < |s.transactions[tx]| ensures Due(s.transactions[tx][i].task, s.transactions[tx][i].id, ahead) == s.transactions[tx][i].task {
          assert InPlace(s, tx, i);
        }
      }
    }
    if SameTasks(s, t) {
      forall id | Has(s.tasks, id, DELAYED) ensures id in ahead { assert t.tasks[id] == Due(s.tasks[id], id, ahead); }
      forall tx, i | InPlace(s, tx, i) && s.transactions[tx][i].task.status == DELAYED ensures s.transactions[tx][i].id in ahead {
        assert t.transactions[tx][i] == Prepared(s.transactions[tx][i].id, Due(s.transactions[tx][i].task, s.transactions[tx][i].id, ahead));
      }
    }
  }

  /**
   * Whatever a broker does after a checkpoint, boots included: replaying from the checkpoint what it logged since then
   * throws nowhere and rebuilds its tasks and open transactions, but for delayed tasks whose start has come in between,
   * which wait.
   */
  lemma ReplayRebuilds(mid: Mem, ops: seq<Op>, end: Mem, ahead: set<int>)
    requires Runs(mid, ops, end) && AllAhead(mid.status, ahead)
    ensures mid.log <= end.log
    ensures match ApplyAll(mid.status, AllAgain(end.log[|mid.log|..], ahead))
            case None => false
            case Some(t) =>
              && t.transactions.Keys == end.status.transactions.Keys && t.tasks.Keys == end.status.tasks.Keys
              && forall id :: id in t.tasks ==>
                   t.tasks[id] == if Has(end.status.tasks, id, DELAYED) && id !in ahead then end.status.tasks[id].(status := WAITING)
                                  else end.status.tasks[id]
  {
    Replayed(mid, ops, end, ahead);
  }

  lemma Replayed(mid: Mem, ops: seq<Op>, end: Mem, ahead: set<int>)
    requires Runs(mid, ops, end) && AllAhead(mid.status, ahead)
    ensures mid.log <= end.log && ApplyAll(mid.status, AllAgain(end.log[|mid.log|..], ahead)).Some?
    ensures SameTasks(ApplyAll(mid.status, AllAgain(end.log[|mid.log|..], ahead)).value, DueStatus(end.status, ahead))
  {
    RunIsLogged(mid.status, mid.log, mid, ops, end);
    DueStatusIff(mid.status, ahead);
    ReplayAgain(mid.status, mid.status, end.log[|mid.log|..], ahead);
  }

  /** The replay rebuilds exactly what was there if and only if no delayed task has come to its start in between. */
  lemma ReplayExactIff(mid: Mem, ops: seq<Op>, end: Mem, ahead: set<int>)
    requires Runs(mid, ops, end) && AllAhead(mid.status, ahead)
    ensures mid.log <= end.log
    ensures match ApplyAll(mid.status, AllAgain(end.log[|mid.log|..], ahead))
            case None => false
            case Some(t) => (t.tasks == end.status.tasks && t.transactions == end.status.transactions) <==> AllAhead(end.status, ahead)
  {
    Replayed(mid, ops, end, ahead);
    DueStatusIff(end.status, ahead);
  }
}
