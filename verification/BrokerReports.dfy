/** Batches that name a task more than once: when the queues and the counters survive them. */
module BrokerReports {
  import opened Edits
  import opened BrokerState
  import opened BrokerQueues
  import opened BrokerResources

  // ---- Main results ----

  /** Whatever a batch names and however often, the queues agree afterwards exactly when each retry is the last change of its task. */
  lemma ReportsAgreeIff(m: Mem, rs: seq<Report>)
    requires Agree(m.status.tasks, m.heap, m.delayed) && Finish(m, rs).Some?
    ensures var n := Finish(m, rs).value; Agree(n.status.tasks, n.heap, n.delayed) <==> RetriesLast(m.status.tasks, rs)
  {
    StatusAfter(m.status.tasks, m.status, rs);
    QueuesAfter(m.status.tasks, Finish(m, rs).value.status.tasks, m.heap, m.delayed, {}, rs);
  }

  /** The counters stay exact exactly when no task that holds resources is changed twice by the batch. */
  lemma ReportsBalanceIff(m: Mem, rs: seq<Report>)
    requires Balanced(m.status.tasks, m.usage) && Finish(m, rs).Some?
    ensures var n := Finish(m, rs).value; Balanced(n.status.tasks, n.usage) <==> !ReleasesTwice(m.status.tasks, rs, {})
  {
    var n, again := Finish(m, rs).value, ReleasedAgain(m.status.tasks, rs, {});
    FinishMoves(m, rs);
    AgainIff(m.status.tasks, rs, {});
    forall r ensures Held(n.status.tasks)[r] == Count(n.usage, r) + again[r] {
      assert Count(m.usage, r) == Held(m.status.tasks)[r];
    }
    if Balanced(n.status.tasks, n.usage) {
      forall r ensures again[r] == 0 {}
      assert again == multiset{};
    }
  }

  /** The only task runs: a submission and an assignment lead there. */
  lemma OnlyRuns(res: Option<seq<string>>) returns (ops: seq<Op>, m: Mem)
    requires FaithfulTaken([TakenTask(1, res)])
    ensures Runs(FRESH, ops, m) && m.heap == multiset{} && m.status.tasks.Keys == {1}
    ensures Only(m) == Task(RUNNING, 1, 0, 0, None, Listed(res), Some("w"))
    ensures res.Some? ==> Balanced(m.status.tasks, m.usage)
  {
    var o1, m1 := SubmitOnly();
    var o2;
    o2, m := GiveOnly(m1, res);
    ops := [o1] + ([o2] + []);
    RunsCons(m1, o2, m, [], m);
    RunsCons(FRESH, o1, m1, [o2] + [], m);
    if res.Some? { OnlyBalances(o1, m1, o2, m, res); }
  }

  lemma OnlyBalances(o1: Op, m1: Mem, o2: Op, m: Mem, res: Option<seq<string>>)
    requires Reaches(FRESH, o1, m1) && o1.OpAdd? && Reaches(m1, o2, m) && o2 == OpAssign([TakenTask(1, res)], "w") && res.Some?
    requires FaithfulTaken([TakenTask(1, res)])
    ensures Balanced(m.status.tasks, m.usage)
  {
    FreshBalances();
    StepBalances(FRESH, o1, m1);
    StepBalances(m1, o2, m);
  }

  lemma StepBalances(m: Mem, op: Op, n: Mem)
    requires GoodMem(m) && Balanced(m.status.tasks, m.usage) && Reaches(m, op, n) && !TakesStale(m, op) && !op.OpBoot? && !op.OpFinish?
    requires op.OpAssign? ==> FaithfulTaken(op.taken)
    ensures GoodMem(n) && Balanced(n.status.tasks, n.usage)
  {
    OpKeepsGood(m, op);
    OpMoves(m, op);
    LeaksIff(m, op);
    StayBalanced(m, n);
  }

  lemma StayBalanced(m: Mem, n: Mem)
    requires Balanced(m.status.tasks, m.usage) && Moved(m, n, multiset{})
    ensures Balanced(n.status.tasks, n.usage)
  {
    forall r ensures Count(n.usage, r) == Held(n.status.tasks)[r] {
      assert Count(m.usage, r) == Held(m.status.tasks)[r];
    }
  }

  /** A run after which one batch, with the same failure twice, puts the task into the heap twice. */
  lemma RepeatedFailureBreaksAgreement() returns (ops: seq<Op>, m: Mem, rs: seq<Report>)
    ensures Runs(FRESH, ops, m) && rs == [Report(1, ERROR, 0), Report(1, ERROR, 0)] && Finish(m, rs).Some?
    ensures var n := Finish(m, rs).value; Has(n.status.tasks, 1, WAITING) && n.heap[1] == 2 && !Agree(n.status.tasks, n.heap, n.delayed)
  {
    ops, m := OnlyRuns(None);
    rs := [Report(1, ERROR, 0), Report(1, ERROR, 0)];
    TwiceInHeap(m, rs[0]);
  }

  /** A run after which one batch, with the same success twice, leaves the queues right and gives a resource back twice. */
  lemma RepeatedSuccessUnbalances() returns (ops: seq<Op>, m: Mem, rs: seq<Report>)
    ensures Runs(FRESH, ops, m) && rs == [Report(1, FINISHED, 0), Report(1, FINISHED, 0)] && Finish(m, rs).Some?
    ensures var n := Finish(m, rs).value;
            Balanced(m.status.tasks, m.usage) && !Balanced(n.status.tasks, n.usage) && Agree(n.status.tasks, n.heap, n.delayed)
  {
    ListOfA();
    ops, m := OnlyRuns(Some(["a"]));
    rs := [Report(1, FINISHED, 0), Report(1, FINISHED, 0)];
    QueuesAgreeWithStatus(ops, m);
    TwiceReleased(m, rs[0]);
  }

  lemma TwiceReleased(m: Mem, r: Report)
    requires Agree(m.status.tasks, m.heap, m.delayed) && Balanced(m.status.tasks, m.usage)
    requires Has(m.status.tasks, r.id, RUNNING) && r.final == FINISHED && SplitOf(m.status.tasks[r.id]) != []
    ensures Finish(m, [r, r]).Some?
    ensures var n := Finish(m, [r, r]).value; !Balanced(n.status.tasks, n.usage) && Agree(n.status.tasks, n.heap, n.delayed)
  {
    var tasks := m.status.tasks;
    assert forall i :: 0 <= i < 2 ==> !Bad(tasks, [r, r][i]);
    StatusAfter(tasks, m.status, [r, r]);
    ReportsAgreeIff(m, [r, r]);
    assert Changing(tasks, [r, r][0]) && Changing(tasks, [r, r][1]);
    ReportsBalanceIff(m, [r, r]);
  }

  lemma TwiceInHeap(m: Mem, r: Report)
    requires m.heap == multiset{} && Retries(m.status.tasks, r)
    ensures Finish(m, [r, r]).Some?
    ensures var n := Finish(m, [r, r]).value;
            Has(n.status.tasks, r.id, WAITING) && n.heap[r.id] == 2 && !Agree(n.status.tasks, n.heap, n.delayed)
  {
    var tasks := m.status.tasks;
    assert forall i :: 0 <= i < 2 ==> !Bad(tasks, [r, r][i]);
    StatusAfter(tasks, m.status, [r, r]);
    HeapAfter(tasks, m.heap, [r, r], r.id);
    assert [r, r][1..] == [r] && [r][1..] == [];
    assert Retried(tasks, [r, r], r.id) == 1 + Retried(tasks, [r], r.id) == 2 + Retried(tasks, [], r.id);
    assert Final(tasks, [r, r], r.id, RUNNING) == Final(tasks, [r], r.id, WAITING) == Final(tasks, [], r.id, WAITING);
  }
}
