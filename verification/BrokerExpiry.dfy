/** Expiring tasks whose deadline has passed: taken out of the heap and logged as failed, but left in the delayed queue. */
module BrokerExpiry {
  import opened Edits
  import opened BrokerState
  import opened BrokerQueues
  import opened BrokerResources
  import opened BrokerSlots

  lemma {:induction false} ChangesApply(s: Status, ids: seq<int>, to: TaskStatus)
    requires forall i :: 0 <= i < |ids| ==> ids[i] in s.tasks
    ensures ApplyAll(s, Changes(ids, to)).Some?
    ensures var t := ApplyAll(s, Changes(ids, to)).value.tasks;
            && t.Keys == s.tasks.Keys
            && forall id :: id in t ==> t[id] == if id in ids then s.tasks[id].(status := to) else s.tasks[id]
    decreases |ids|
  {
    if ids != [] {
      var e, rest := StatusChange(ids[0], to), ids[1..];
      ApplyHead(s, e, Changes(rest, to));
      var t := Apply(s, e).value;
      assert ids == [ids[0]] + rest;
      ChangesApply(t, rest, to);
    }
  }

  lemma {:induction false} WithoutCount(heap: multiset<int>, ids: seq<int>, id: int)
    ensures Without(heap, ids)[id] == if id in ids then 0 else heap[id]
    decreases |ids|
  {
    if ids != [] {
      assert ids == [ids[0]] + ids[1..];
      WithoutCount(heap[ids[0] := 0], ids[1..], id);
    }
  }

  /** The queues still agree with the statuses exactly when no expired task was a delayed one. */
  lemma ExpiryAgreesIff(m: Mem, ids: seq<int>, now: int)
    requires Agree(m.status.tasks, m.heap, m.delayed) && ExpiredIds(m.status.tasks, ids, now)
    ensures Expire(m, ids).Some?
    ensures var n := Expire(m, ids).value;
            Agree(n.status.tasks, n.heap, n.delayed) <==> forall i :: 0 <= i < |ids| ==> m.status.tasks[ids[i]].status == WAITING
  {
    var n := ExpiredMem(m, ids);
    var before, after := m.status.tasks, n.status.tasks;
    forall id ensures n.heap[id] == Bit(Has(after, id, WAITING)) {
      WithoutCount(m.heap, ids, id);
      assert m.heap[id] == Bit(Has(before, id, WAITING));
    }
    if i :| 0 <= i < |ids| && before[ids[i]].status != WAITING {
      assert m.delayed[ids[i]] == Bit(Has(before, ids[i], DELAYED)) == 1;
      assert !Has(after, ids[i], DELAYED);
    } else {
      forall id ensures n.delayed[id] == Bit(Has(after, id, DELAYED)) {
        assert m.delayed[id] == Bit(Has(before, id, DELAYED));
      }
    }
  }

  lemma ExpiredMem(m: Mem, ids: seq<int>) returns (n: Mem)
    requires forall i :: 0 <= i < |ids| ==> ids[i] in m.status.tasks
    ensures Expire(m, ids) == Some(n) && n.heap == Without(m.heap, ids) && n.delayed == m.delayed
    ensures n.status.tasks.Keys == m.status.tasks.Keys
    ensures forall id :: id in m.status.tasks ==>
      n.status.tasks[id] == if id in ids then m.status.tasks[id].(status := ERROR) else m.status.tasks[id]
  {
    ChangesApply(m.status, ids, ERROR);
    n := Expire(m, ids).value;
  }

  /** An expired delayed task stays queued, so the next resume that drains it sets the failed task back to waiting. */
  lemma ExpiredDelayedTaskRevives(m: Mem, id: int, now: int)
    requires Agree(m.status.tasks, m.heap, m.delayed) && Has(m.status.tasks, id, DELAYED) && Overdue(m.status.tasks[id], now)
    ensures Expire(m, [id]).Some?
    ensures var n := Expire(m, [id]).value;
            && Has(n.status.tasks, id, ERROR) && multiset([id]) <= n.delayed
            && Resume(n, [id]).Some? && Has(Resume(n, [id]).value.status.tasks, id, WAITING)
  {
    var n := ExpiredMem(m, [id]);
    assert m.delayed[id] == 1;
    ChangesApply(n.status, [id], WAITING);
  }

  /** Two operations after which the delayed queue names a task that has failed. */
  lemma StrandingRun() returns (ops: seq<Op>, end: Mem)
    ensures Runs(FRESH, ops, end) && StrandedBy(FRESH, ops, {}) == {1}
    ensures Has(end.status.tasks, 1, ERROR) && end.delayed == multiset{1} && !Agree(end.status.tasks, end.heap, end.delayed)
  {
    var r := Request(0, NewTask(0, 0, 1, None, true));
    AddOneTo(FRESH, r);
    var m := Add(FRESH, [r]).value;
    ChangeOne(m, 1, ERROR);
    end := Expire(m, [1]).value;
    var last := [OpExpire([1], 2)] + [];
    RunsCons(m, OpExpire([1], 2), end, [], end);
    ops := [OpAdd([r])] + last;
    RunsCons(FRESH, OpAdd([r]), m, last, end);
    QueuesAgreeWithStatus(ops, end);
    assert ops[1..] == last && last[1..] == [];
    assert StrandedBy(FRESH, ops, {}) == StrandedBy(m, last, {}) == StrandedBy(end, [], DelayedAmong(m.status.tasks, [1])) == {1};
  }
}
