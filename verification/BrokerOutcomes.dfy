/** What becomes of each single task in each operation, said of the task and the queues and not of the edits that get it there. */
module BrokerOutcomes {
  import opened Edits
  import opened ResourceNames
  import opened BrokerState
  import opened BrokerQueues
  import opened BrokerResources

  // ---- Reports ----

  /** No other report of the batch names the task of report `i`. */
  ghost predicate Once(rs: seq<Report>, i: int)
    requires 0 <= i < |rs|
  {
    forall j :: 0 <= j < |rs| && j != i ==> rs[j].id != rs[i].id
  }

  lemma {:induction false} NotNamed(tasks: Tasks, rs: seq<Report>, id: int, status: TaskStatus)
    requires forall i :: 0 <= i < |rs| ==> rs[i].id != id
    ensures Final(tasks, rs, id, status) == status && Retried(tasks, rs, id) == 0
    decreases |rs|
  {
    if rs != [] { NotNamed(tasks, rs[1..], id, status); }
  }

  lemma {:induction false} NamedOnce(tasks: Tasks, rs: seq<Report>, i: nat, status: TaskStatus)
    requires i < |rs| && Once(rs, i)
    ensures Final(tasks, rs, rs[i].id, status) == if Changing(tasks, rs[i]) then FinishEdit(tasks, rs[i])[0].to else status
    ensures Retried(tasks, rs, rs[i].id) == Bit(Retries(tasks, rs[i]))
    decreases |rs|
  {
    var id, rest := rs[i].id, rs[1..];
    if i == 0 {
      NotNamed(tasks, rest, id, if Changing(tasks, rs[0]) then FinishEdit(tasks, rs[0])[0].to else status);
    } else {
      assert rest[i - 1] == rs[i] && rs[0].id != id;
      NamedOnce(tasks, rest, i - 1, status);
    }
  }

  /** A batch is refused exactly for a status no execution ends in, reported of a running task. */
  lemma FinishRefusedIff(m: Mem, rs: seq<Report>)
    ensures Finish(m, rs) == None <==>
      exists i :: 0 <= i < |rs| && Has(m.status.tasks, rs[i].id, RUNNING) && (rs[i].final == WAITING || rs[i].final == RUNNING)
  {
    StatusAfter(m.status.tasks, m.status, rs);
    assert forall i :: 0 <= i < |rs| ==>
      (Bad(m.status.tasks, rs[i]) <==> Has(m.status.tasks, rs[i].id, RUNNING) && (rs[i].final == WAITING || rs[i].final == RUNNING));
  }

  /**
   * A running task that a batch names once: a success finishes it; a failure sets it back to waiting, once in the heap, as
   * long as it has attempts left and its deadline has not passed, and is final otherwise; a reported delay changes nothing.
   */
  lemma ReportedTask(m: Mem, rs: seq<Report>, i: nat)
    requires Finish(m, rs).Some? && i < |rs| && Once(rs, i) && Has(m.status.tasks, rs[i].id, RUNNING)
    ensures var id, now, t := rs[i].id, rs[i].now, m.status.tasks[rs[i].id];
            var n := Finish(m, rs).value;
            && id in n.status.tasks
            && n.status.tasks[id] == t.(status :=
                 if rs[i].final == FINISHED then FINISHED
                 else if rs[i].final == DELAYED then RUNNING
                 else if (t.maxattempts <= 0 || t.attempts < t.maxattempts) && (t.deadline <= 0 || now <= t.deadline) then WAITING
                 else ERROR)
            && n.heap[id] == m.heap[id] + if n.status.tasks[id].status == WAITING then 1 else 0
  {
    var id, t := rs[i].id, m.status.tasks[rs[i].id];
    FinishRefusedIff(m, rs);
    StatusAfter(m.status.tasks, m.status, rs);
    HeapAfter(m.status.tasks, m.heap, rs, id);
    NamedOnce(m.status.tasks, rs, i, t.status);
  }

  /** A task that is not running, or that no report names, is left alone, and so is its place in the queues. */
  lemma UnreportedTask(m: Mem, rs: seq<Report>, id: int)
    requires Finish(m, rs).Some?
    requires !Has(m.status.tasks, id, RUNNING) || forall i :: 0 <= i < |rs| ==> rs[i].id != id
    ensures var n := Finish(m, rs).value;
            && n.heap[id] == m.heap[id] && (id in n.status.tasks <==> id in m.status.tasks)
            && (id in m.status.tasks ==> n.status.tasks[id] == m.status.tasks[id])
  {
    StatusAfter(m.status.tasks, m.status, rs);
    HeapAfter(m.status.tasks, m.heap, rs, id);
    var status := if id in m.status.tasks then m.status.tasks[id].status else WAITING;
    if !Has(m.status.tasks, id, RUNNING) {
      OthersStay(m.status.tasks, rs, id, status);
    } else {
      NotNamed(m.status.tasks, rs, id, status);
    }
  }

  /** A running task of a broker in order is in no queue. */
  lemma RunningIsNotQueued(m: Mem, id: int)
    requires GoodMem(m) && Has(m.status.tasks, id, RUNNING)
    ensures m.heap[id] == 0
  {
  }

  /** What a batch does to every task. */
  lemma FinishOutcomes(m: Mem, rs: seq<Report>, n: Mem)
    requires Finish(m, rs) == Some(n)
    ensures n.status.tasks.Keys == m.status.tasks.Keys && n.delayed == m.delayed
    ensures forall i :: 0 <= i < |rs| && Once(rs, i) && Has(m.status.tasks, rs[i].id, RUNNING) ==>
      var id, t := rs[i].id, m.status.tasks[rs[i].id];
      && n.status.tasks[id] == t.(status :=
           if rs[i].final == FINISHED then FINISHED
           else if rs[i].final == DELAYED then RUNNING
           else if (t.maxattempts <= 0 || t.attempts < t.maxattempts) && (t.deadline <= 0 || rs[i].now <= t.deadline) then WAITING
           else ERROR)
      && n.heap[id] == m.heap[id] + (if n.status.tasks[id].status == WAITING then 1 else 0)
      && (GoodMem(m) ==> m.heap[id] == 0)
    ensures forall id :: !Has(m.status.tasks, id, RUNNING) || (forall i :: 0 <= i < |rs| ==> rs[i].id != id) ==>
      n.heap[id] == m.heap[id] && (id in m.status.tasks ==> n.status.tasks[id] == m.status.tasks[id])
    ensures DistinctReports(rs) ==> n.usage == m.usage.(released := m.usage.released + Sum(OverLists(m.status.tasks, rs)))
  {
    StatusAfter(m.status.tasks, m.status, rs);
    forall i | 0 <= i < |rs| && Once(rs, i) && Has(m.status.tasks, rs[i].id, RUNNING)
      ensures n.heap[rs[i].id] == m.heap[rs[i].id] + (if n.status.tasks[rs[i].id].status == WAITING then 1 else 0)
      ensures n.status.tasks[rs[i].id] == m.status.tasks[rs[i].id].(status :=
           if rs[i].final == FINISHED then FINISHED
           else if rs[i].final == DELAYED then RUNNING
           else if (m.status.tasks[rs[i].id].maxattempts <= 0 || m.status.tasks[rs[i].id].attempts < m.status.tasks[rs[i].id].maxattempts)
                   && (m.status.tasks[rs[i].id].deadline <= 0 || rs[i].now <= m.status.tasks[rs[i].id].deadline) then WAITING
           else ERROR)
      ensures GoodMem(m) ==> m.heap[rs[i].id] == 0
    {
      ReportedTask(m, rs, i);
      if GoodMem(m) { RunningIsNotQueued(m, rs[i].id); }
    }
    forall id | !Has(m.status.tasks, id, RUNNING) || forall i :: 0 <= i < |rs| ==> rs[i].id != id
      ensures n.heap[id] == m.heap[id] && (id in m.status.tasks ==> n.status.tasks[id] == m.status.tasks[id])
    {
      UnreportedTask(m, rs, id);
    }
    if DistinctReports(rs) { ReleasedOnce(m.status.tasks, rs); }
  }

  /** The batch reports the execution of a running task as over. */
  ghost predicate Over(tasks: Tasks, rs: seq<Report>, id: int) {
    Has(tasks, id, RUNNING) && exists i :: 0 <= i < |rs| && rs[i].id == id && (rs[i].final == FINISHED || rs[i].final == ERROR)
  }

  /** The resource lists of the tasks whose execution is over. */
  ghost function OverLists(tasks: Tasks, rs: seq<Report>): map<int, multiset<string>> {
    map id | id in tasks && Over(tasks, rs, id) :: multiset(SplitOf(tasks[id]))
  }

  lemma OverHead(tasks: Tasks, rs: seq<Report>, id: int)
    requires rs != []
    ensures Over(tasks, rs, id) <==> Over(tasks, rs[1..], id) || (rs[0].id == id && Over(tasks, [rs[0]], id))
  {
    assert forall i :: 0 < i < |rs| ==> rs[i] == rs[1..][i - 1];
    assert forall i :: 0 <= i < |rs[1..]| ==> rs[1..][i] == rs[i + 1];
    assert [rs[0]][0] == rs[0];
  }

  /** A first report that changes nothing adds no list. */
  lemma OverListsSkip(tasks: Tasks, rs: seq<Report>)
    requires rs != [] && FinishEdit(tasks, rs[0]) == []
    ensures OverLists(tasks, rs) == OverLists(tasks, rs[1..])
  {
    forall id ensures Over(tasks, rs, id) <==> Over(tasks, rs[1..], id) { OverHead(tasks, rs, id); }
  }

  /** A first report that changes its task adds the list of that task. */
  lemma OverListsTake(tasks: Tasks, rs: seq<Report>)
    requires rs != [] && FinishEdit(tasks, rs[0]) != [] && forall i :: 0 < i < |rs| ==> rs[i].id != rs[0].id
    ensures var all, id := OverLists(tasks, rs), rs[0].id;
            id in all && all[id] == multiset(SplitOf(tasks[id])) && all - {id} == OverLists(tasks, rs[1..])
  {
    var r := rs[0];
    forall id ensures Over(tasks, rs, id) <==> Over(tasks, rs[1..], id) || id == r.id {
      OverHead(tasks, rs, id);
      assert [r][0] == r;
    }
    assert !Over(tasks, rs[1..], r.id) by {
      assert forall i :: 0 <= i < |rs[1..]| ==> rs[1..][i] == rs[i + 1];
    }
  }

  /** Each of them is released once. */
  lemma {:induction false} ReleasedOnce(tasks: Tasks, rs: seq<Report>)
    requires DistinctReports(rs)
    ensures Released(tasks, FinishEdits(tasks, rs)) == Sum(OverLists(tasks, rs))
    decreases |rs|
  {
    if rs == [] {
      assert forall k :: k !in OverLists(tasks, rs);
    } else {
      var es, more := FinishEdit(tasks, rs[0]), FinishEdits(tasks, rs[1..]);
      ReleasedOnce(tasks, rs[1..]);
      if es == [] {
        assert es + more == more;
        OverListsSkip(tasks, rs);
      } else {
        assert es == [es[0]];
        ReleasedHead(tasks, es[0], more);
        OverListsTake(tasks, rs);
        SumTakesAny(OverLists(tasks, rs), rs[0].id);
      }
    }
  }

  // ---- The tasks of a dead worker ----

  /** Each of them that runs is reported as failed, once, and nothing else is reported. */
  lemma {:induction false} DeathReportsNameTheRunning(tasks: Tasks, ids: seq<int>, now: int)
    requires forall i, j :: 0 <= i < j < |ids| ==> ids[i] != ids[j]
    ensures var rs := DeathReports(tasks, ids, now);
            && DistinctReports(rs)
            && (forall i :: 0 <= i < |rs| ==> rs[i].id in ids && Has(tasks, rs[i].id, RUNNING) && rs[i].final == ERROR && rs[i].now == now)
            && (forall id :: id in ids && Has(tasks, id, RUNNING) ==> Report(id, ERROR, now) in rs)
    decreases |ids|
  {
    if ids != [] {
      var rest := DeathReports(tasks, ids[1..], now);
      DeathReportsNameTheRunning(tasks, ids[1..], now);
      DeathReportsFit(tasks, ids, now);
      assert ids == [ids[0]] + ids[1..];
      assert forall i :: 0 <= i < |rest| ==> rest[i].id in ids[1..];
      if Has(tasks, ids[0], RUNNING) {
        assert DeathReports(tasks, ids, now) == [Report(ids[0], ERROR, now)] + rest;
      } else {
        assert DeathReports(tasks, ids, now) == [] + rest == rest;
      }
    }
  }

  lemma DeathStep(tasks: Tasks, ids: seq<int>, i: nat, now: int, data: seq<Report>)
    requires i < |ids|
    ensures data + DeathReports(tasks, ids[i..], now)
            == data + (if Has(tasks, ids[i], RUNNING) then [Report(ids[i], ERROR, now)] else []) + DeathReports(tasks, ids[i + 1..], now)
  {
    assert ids[i..][0] == ids[i] && ids[i..][1..] == ids[i + 1..];
  }

  /**
   * After the death of a worker: each of its tasks that ran is waiting again, once more in the heap, or failed, as its
   * attempts and its deadline decide; every other task is as it was; and the lists of those that ran are released once.
   */
  lemma DeadWorkersTasks(m: Mem, ids: seq<int>, now: int)
    requires forall i, j :: 0 <= i < j < |ids| ==> ids[i] != ids[j]
    ensures var end := Finish(m, DeathReports(m.status.tasks, ids, now));
            && end.Some? && end.value.status.tasks.Keys == m.status.tasks.Keys
            && (forall id :: id in m.status.tasks ==> DeadTask(m.status.tasks[id], m.heap[id], end.value.status.tasks[id], end.value.heap[id], id in ids, now))
            && (forall id :: id !in m.status.tasks ==> end.value.heap[id] == m.heap[id])
            && end.value.delayed == m.delayed
            && end.value.usage == m.usage.(released := m.usage.released
                 + Sum(map id | id in m.status.tasks && id in ids && m.status.tasks[id].status == RUNNING :: multiset(SplitOf(m.status.tasks[id]))))
  {
    var rs := DeathReports(m.status.tasks, ids, now);
    DeathReportsNameTheRunning(m.status.tasks, ids, now);
    FinishRefusedIff(m, rs);
    StatusAfter(m.status.tasks, m.status, rs);
    var n := Finish(m, rs).value;
    forall id ensures id !in m.status.tasks ==> n.heap[id] == m.heap[id] {
      if id !in m.status.tasks { UnreportedTask(m, rs, id); }
    }
    forall id | id in m.status.tasks ensures DeadTask(m.status.tasks[id], m.heap[id], n.status.tasks[id], n.heap[id], id in ids, now) {
      if id in ids && Has(m.status.tasks, id, RUNNING) {
        var i :| 0 <= i < |rs| && rs[i] == Report(id, ERROR, now);
        ReportedTask(m, rs, i);
      } else {
        UnreportedTask(m, rs, id);
      }
    }
    ReleasedOnce(m.status.tasks, rs);
    OverListsOfDead(m.status.tasks, ids, now, rs);
  }

  /** One task and its entries in the heap, before and after; `named`: the dead worker had it. */
  predicate DeadTask(t: Task, entries: nat, u: Task, entriesAfter: nat, named: bool, now: int) {
    if !named || t.status != RUNNING then u == t && entriesAfter == entries
    else if (t.maxattempts <= 0 || t.attempts < t.maxattempts) && (t.deadline <= 0 || now <= t.deadline)
    then u == t.(status := WAITING) && entriesAfter == entries + 1
    else u == t.(status := ERROR) && entriesAfter == entries
  }

  lemma OverListsOfDead(tasks: Tasks, ids: seq<int>, now: int, rs: seq<Report>)
    requires forall i :: 0 <= i < |rs| ==> rs[i].id in ids && rs[i].final == ERROR
    requires forall id :: id in ids && Has(tasks, id, RUNNING) ==> Report(id, ERROR, now) in rs
    ensures OverLists(tasks, rs) == map id | id in tasks && id in ids && tasks[id].status == RUNNING :: multiset(SplitOf(tasks[id]))
  {
    forall id | id in tasks && id in ids && tasks[id].status == RUNNING ensures id in OverLists(tasks, rs) {
      var i :| 0 <= i < |rs| && rs[i] == Report(id, ERROR, now);
    }
  }

  // ---- Changes of status ----

  /** A batch that gives every task it names one status. */
  lemma {:induction false} ChangedTasks(s: Status, ids: seq<int>, to: TaskStatus)
    ensures ApplyAll(s, Changes(ids, to)).Some? <==> forall i :: 0 <= i < |ids| ==> ids[i] in s.tasks
    ensures ApplyAll(s, Changes(ids, to)).Some? ==>
            var t := ApplyAll(s, Changes(ids, to)).value;
            && t.tasks.Keys == s.tasks.Keys && t.transactions == s.transactions
            && forall id :: id in s.tasks ==> t.tasks[id] == if id in ids then s.tasks[id].(status := to) else s.tasks[id]
    decreases |ids|
  {
    if ids != [] {
      var e, more := StatusChange(ids[0], to), Changes(ids[1..], to);
      assert forall i :: 0 < i < |ids| ==> ids[i] == ids[1..][i - 1];
      assert ([e] + more)[1..] == more;
      if ids[0] in s.tasks { ChangedTasks(Apply(s, e).value, ids[1..], to); }
      assert ids == [ids[0]] + ids[1..];
    }
  }

  lemma {:induction false} HeapedChanges(heap: multiset<int>, ids: seq<int>)
    ensures Heaped(heap, Changes(ids, WAITING)) == heap + multiset(ids)
    decreases |ids|
  {
    if ids == [] {
      assert heap + multiset([]) == heap;
    } else {
      HeapedChanges(heap + multiset{ids[0]}, ids[1..]);
      assert Changes(ids, WAITING)[1..] == Changes(ids[1..], WAITING);
      assert multiset([ids[0]] + ids[1..]) == multiset{ids[0]} + multiset(ids[1..]) && [ids[0]] + ids[1..] == ids;
    }
  }

  /** A resume fails exactly for a task that is gone; else the drained tasks wait, and are in the heap instead of the delayed queue. */
  lemma ResumedTasks(m: Mem, drained: seq<int>)
    ensures Resume(m, drained).Some? <==> forall i :: 0 <= i < |drained| ==> drained[i] in m.status.tasks
    ensures Resume(m, drained).Some? ==>
            var n := Resume(m, drained).value;
            && n.status.tasks.Keys == m.status.tasks.Keys && n.heap == m.heap + multiset(drained) && n.delayed == m.delayed - multiset(drained)
            && forall id :: id in m.status.tasks ==>
                 n.status.tasks[id] == if id in drained then m.status.tasks[id].(status := WAITING) else m.status.tasks[id]
  {
    ChangedTasks(m.status, drained, WAITING);
    HeapedChanges(m.heap, drained);
  }

  /** What expires has failed and left the heap; everything else is as it was. */
  lemma ExpiredTasks(m: Mem, ids: seq<int>)
    requires Expire(m, ids).Some?
    ensures var n := Expire(m, ids).value;
            && n.status.tasks.Keys == m.status.tasks.Keys && n.delayed == m.delayed
            && (forall id :: n.heap[id] == if id in ids then 0 else m.heap[id])
            && forall id :: id in m.status.tasks ==>
                 n.status.tasks[id] == if id in ids then m.status.tasks[id].(status := ERROR) else m.status.tasks[id]
  {
    ChangedTasks(m.status, ids, ERROR);
    forall id ensures Expire(m, ids).value.heap[id] == if id in ids then 0 else m.heap[id] { LeftTheHeap(m.heap, ids, id); }
  }

  lemma {:induction false} LeftTheHeap(heap: multiset<int>, ids: seq<int>, id: int)
    ensures Without(heap, ids)[id] == if id in ids then 0 else heap[id]
    decreases |ids|
  {
    if ids != [] {
      LeftTheHeap(heap[ids[0] := 0], ids[1..], id);
      assert ids == [ids[0]] + ids[1..];
    }
  }

  // ---- Assignments ----

  /** Each task given out that is still known runs on that worker, one attempt further, with the resources it was given. */
  lemma {:induction false} AssignedTasks(before: Tasks, s: Status, taken: seq<TakenTask>, worker: string)
    requires forall i, j :: 0 <= i < j < |taken| ==> taken[i].id != taken[j].id
    requires before.Keys == s.tasks.Keys && forall i :: 0 <= i < |taken| && taken[i].id in before ==> s.tasks[taken[i].id] == before[taken[i].id]
    ensures ApplyAll(s, AssignEdits(before, taken, worker)).Some? <==> worker != "" || forall i :: 0 <= i < |taken| ==> taken[i].id !in before
    ensures ApplyAll(s, AssignEdits(before, taken, worker)).Some? ==>
            var t := ApplyAll(s, AssignEdits(before, taken, worker)).value;
            && t.tasks.Keys == s.tasks.Keys && t.slots == s.slots && t.transactions == s.transactions
            && (forall i :: 0 <= i < |taken| && taken[i].id in before ==> GivenTo(before[taken[i].id], t.tasks[taken[i].id], taken[i], worker))
            && forall id :: id in s.tasks && (forall i :: 0 <= i < |taken| ==> taken[i].id != id) ==> t.tasks[id] == s.tasks[id]
    decreases |taken|
  {
    if taken != [] {
      var rest, id := taken[1..], taken[0].id;
      assert forall i :: 0 <= i < |rest| ==> rest[i] == taken[i + 1];
      assert forall i :: 0 < i < |taken| ==> taken[i] == rest[i - 1];
      if id in before {
        var e := AssignEditsHead(before, taken, worker);
        if worker != "" {
          ApplyHead(s, e, AssignEdits(before, rest, worker));
          AssignedTasks(before, Apply(s, e).value, rest, worker);
        }
      } else {
        AssignedTasks(before, s, rest, worker);
      }
    }
  }

  /** A list the mapper did not give leaves the one of an earlier assignment in place. */
  predicate GivenTo(t: Task, u: Task, taken: TakenTask, worker: string) {
    && u.status == RUNNING && u.worker == Some(worker) && u.attempts == t.attempts + 1
    && u.resources == (if taken.resourceIds.Some? then Some(Join(taken.resourceIds.value)) else t.resources)
    && u.maxattempts == t.maxattempts && u.deadline == t.deadline && u.slot == t.slot
  }

  // ---- Transactions ----

  /** A rollback frees exactly the named slots that the prepared tasks hold. */
  lemma {:induction false} FreedExactly(slots: map<string, int>, ps: seq<Prepared>, slot: string)
    ensures slot in FreeSlots(slots, ps) <==>
            slot in slots && !(slot != "" && exists i :: 0 <= i < |ps| && ps[i].task.slot == Some(slot) && ps[i].id == slots[slot])
    ensures slot in FreeSlots(slots, ps) ==> FreeSlots(slots, ps)[slot] == slots[slot]
    decreases |ps|
  {
    if ps != [] {
      var next := if ps[0].task.slot == Some("") then slots else FreeSlot(slots, ps[0].task.slot, ps[0].id);
      FreedExactly(next, ps[1..], slot);
      assert forall i :: 0 < i < |ps| ==> ps[i] == ps[1..][i - 1];
      assert forall i :: 0 <= i < |ps[1..]| ==> ps[1..][i] == ps[i + 1];
    }
  }

  ghost predicate DistinctPrepared(ps: seq<Prepared>) {
    forall i, j :: 0 <= i < j < |ps| ==> ps[i].id != ps[j].id
  }

  /** A broker in order has each prepared task in one place. */
  lemma PreparedAreDistinct(m: Mem, tx: int)
    ensures GoodMem(m) && tx in m.status.transactions ==> DistinctPrepared(m.status.transactions[tx])
  {
    if GoodMem(m) && tx in m.status.transactions {
      var ps := m.status.transactions[tx];
      forall i, j | 0 <= i < j < |ps| ensures ps[i].id != ps[j].id { assert InPlace(m.status, tx, i) && InPlace(m.status, tx, j); }
    }
  }

  lemma {:induction false} NotPrepared(ps: seq<Prepared>, status: TaskStatus, id: int)
    requires forall i :: 0 <= i < |ps| ==> ps[i].id != id
    ensures IdsWith(ps, status)[id] == 0
    decreases |ps|
  {
    if ps != [] { NotPrepared(ps[1..], status, id); }
  }

  /** A task prepared in the transaction is in the queue of its status, once. */
  lemma {:induction false} PreparedOnce(ps: seq<Prepared>, status: TaskStatus, i: nat)
    requires i < |ps| && forall j :: 0 <= j < |ps| && j != i ==> ps[j].id != ps[i].id
    ensures IdsWith(ps, status)[ps[i].id] == if ps[i].task.status == status then 1 else 0
    decreases |ps|
  {
    var rest := ps[1..];
    if i == 0 {
      NotPrepared(rest, status, ps[0].id);
    } else {
      assert rest[i - 1] == ps[i] && ps[0].id != ps[i].id;
      PreparedOnce(rest, status, i - 1);
    }
  }

  /** After a commit a prepared task is in the status as it was prepared, and in the queue of its status. */
  lemma CommittedTask(m: Mem, tx: int, i: nat)
    requires tx in m.status.transactions && i < |m.status.transactions[tx]|
    requires DistinctPrepared(m.status.transactions[tx])
    ensures var p, n := m.status.transactions[tx][i], Commit(m, tx);
            && p.id in n.status.tasks && n.status.tasks[p.id] == p.task
            && n.heap[p.id] == m.heap[p.id] + (if p.task.status == WAITING then 1 else 0)
            && n.delayed[p.id] == m.delayed[p.id] + (if p.task.status == DELAYED then 1 else 0)
  {
    var ps := m.status.transactions[tx];
    PutMembers(m.status.tasks, ps, ps[i].id);
    PreparedOnce(ps, WAITING, i);
    PreparedOnce(ps, DELAYED, i);
  }

  /** Every other task is as it was. */
  lemma UncommittedTask(m: Mem, tx: int, id: int)
    requires tx in m.status.transactions
    requires DistinctPrepared(m.status.transactions[tx])
    requires forall i :: 0 <= i < |m.status.transactions[tx]| ==> m.status.transactions[tx][i].id != id
    ensures var n := Commit(m, tx);
            && (id in n.status.tasks <==> id in m.status.tasks) && (id in m.status.tasks ==> n.status.tasks[id] == m.status.tasks[id])
            && n.heap[id] == m.heap[id] && n.delayed[id] == m.delayed[id]
  {
    var ps := m.status.transactions[tx];
    PutMembers(m.status.tasks, ps, id);
    NotPrepared(ps, WAITING, id);
    NotPrepared(ps, DELAYED, id);
  }

  lemma CommittedTasks(m: Mem, tx: int)
    requires tx in m.status.transactions && DistinctPrepared(m.status.transactions[tx])
    ensures var ps, n := m.status.transactions[tx], Commit(m, tx);
            && (forall i :: 0 <= i < |ps| ==>
                  && ps[i].id in n.status.tasks && n.status.tasks[ps[i].id] == ps[i].task
                  && n.heap[ps[i].id] == m.heap[ps[i].id] + (if ps[i].task.status == WAITING then 1 else 0)
                  && n.delayed[ps[i].id] == m.delayed[ps[i].id] + (if ps[i].task.status == DELAYED then 1 else 0))
            && (forall id :: (forall i :: 0 <= i < |ps| ==> ps[i].id != id) ==>
                  && (id in n.status.tasks <==> id in m.status.tasks) && (id in m.status.tasks ==> n.status.tasks[id] == m.status.tasks[id])
                  && n.heap[id] == m.heap[id] && n.delayed[id] == m.delayed[id])
  {
    var ps, n := m.status.transactions[tx], Commit(m, tx);
    forall i | 0 <= i < |ps|
      ensures ps[i].id in n.status.tasks && n.status.tasks[ps[i].id] == ps[i].task
      ensures n.heap[ps[i].id] == m.heap[ps[i].id] + (if ps[i].task.status == WAITING then 1 else 0)
      ensures n.delayed[ps[i].id] == m.delayed[ps[i].id] + (if ps[i].task.status == DELAYED then 1 else 0)
    {
      CommittedTask(m, tx, i);
    }
    forall id | forall i :: 0 <= i < |ps| ==> ps[i].id != id
      ensures (id in n.status.tasks <==> id in m.status.tasks) && (id in m.status.tasks ==> n.status.tasks[id] == m.status.tasks[id])
      ensures n.heap[id] == m.heap[id] && n.delayed[id] == m.delayed[id]
    {
      UncommittedTask(m, tx, id);
    }
  }
}
