/** The heap and the delayed queue agree with the logged statuses over every run, and so do the attempt counts. */
module BrokerQueues {
  import opened Edits
  import opened BrokerState

  function Bit(b: bool): nat { if b then 1 else 0 }

  /** Each waiting task is in the heap once, each delayed one in the delayed queue once, and nothing else is. */
  ghost predicate Agree(tasks: Tasks, heap: multiset<int>, delayed: multiset<int>) {
    HeapAgrees(tasks, heap) && DelayedAre(tasks, delayed, {})
  }

  ghost predicate HeapAgrees(tasks: Tasks, heap: multiset<int>) {
    forall id :: heap[id] == Bit(Has(tasks, id, WAITING))
  }

  /** The delayed queue holds each delayed task once, and those in `x`. */
  ghost predicate DelayedAre(tasks: Tasks, delayed: multiset<int>, x: set<int>) {
    forall id :: delayed[id] == Bit(Has(tasks, id, DELAYED) || id in x)
  }

  /** The tasks in `x` failed without ever having been assigned. */
  ghost predicate Stranded(tasks: Tasks, log: seq<TaskEdit>, x: set<int>) {
    forall id :: id in x ==> Has(tasks, id, ERROR) && Assigns(log, id) == 0
  }

  // ---- What the log says about a task ----

  /** How often the log assigns a task. */
  function Assigns(log: seq<TaskEdit>, id: int): nat
    decreases |log|
  {
    if log == [] then 0
    else
      var e := log[|log| - 1];
      Assigns(log[..|log| - 1], id) + if e.AssignTask? && e.id == id then 1 else 0
  }

  /** The submission of a task. */
  function Submission(log: seq<TaskEdit>, id: int): Option<NewTask>
    decreases |log|
  {
    if log == [] then None
    else
      var e := log[|log| - 1];
      if (e.AddTask? || e.PrepareAddTask?) && e.id == id then Some(e.task) else Submission(log[..|log| - 1], id)
  }

  /** At most this many assignments: one, or as many as attempts are left. */
  function Limit(n: NewTask): int {
    if n.maxattempts - n.attempt > 1 then n.maxattempts - n.attempt else 1
  }

  ghost predicate Counted(t: Task, log: seq<TaskEdit>, id: int) {
    match Submission(log, id)
    case None => false
    case Some(n) =>
      && t.maxattempts == n.maxattempts && t.attempts == n.attempt + Assigns(log, id)
      && (n.maxattempts > 0 ==> Assigns(log, id) <= Limit(n)) && (t.status == DELAYED ==> Assigns(log, id) == 0)
      && (n.maxattempts > 0 && Assigns(log, id) > 0 && (t.status == WAITING || t.status == DELAYED) ==> t.attempts < n.maxattempts)
  }

  ghost predicate AttemptsOk(s: Status, log: seq<TaskEdit>) {
    && (forall id :: id in s.tasks ==> Counted(s.tasks[id], log, id))
    && (forall id :: id !in s.tasks ==> Assigns(log, id) == 0)
    && (forall tx, i :: tx in s.transactions && 0 <= i < |s.transactions[tx]| ==>
          Counted(s.transactions[tx][i].task, log, s.transactions[tx][i].id))
  }

  /** Prepared tasks are new: not yet in the status, each in one place, waiting or delayed. */
  ghost predicate PreparedOk(s: Status, last: int) {
    && (forall id :: id in s.tasks ==> id <= last)
    && (forall tx, i :: tx in s.transactions && 0 <= i < |s.transactions[tx]| ==> NewTaskOk(s, s.transactions[tx][i], last))
    && (forall tx, i, ty, j :: InPlace(s, tx, i) && InPlace(s, ty, j) && s.transactions[tx][i].id == s.transactions[ty][j].id ==>
          tx == ty && i == j)
  }

  ghost predicate NewTaskOk(s: Status, p: Prepared, last: int) {
    p.id <= last && p.id !in s.tasks && (p.task.status == WAITING || p.task.status == DELAYED)
  }

  /** `x`: tasks that failed while they were delayed, and are still in the delayed queue. */
  ghost predicate Good(s: Status, log: seq<TaskEdit>, heap: multiset<int>, delayed: multiset<int>, last: int, x: set<int>) {
    match s
    case Status(tasks, _, _) =>
      && HeapAgrees(tasks, heap) && DelayedAre(tasks, delayed, x) && Stranded(tasks, log, x)
      && PreparedOk(s, last) && AttemptsOk(s, log)
  }

  lemma LogStep(log: seq<TaskEdit>, e: TaskEdit, id: int)
    ensures Assigns(log + [e], id) == Assigns(log, id) + if e.AssignTask? && e.id == id then 1 else 0
    ensures Submission(log + [e], id) == if (e.AddTask? || e.PrepareAddTask?) && e.id == id then Some(e.task) else Submission(log, id)
  {
    assert (log + [e])[..|log|] == log;
  }

  /** An edit that neither submits nor assigns leaves every count. */
  lemma NeutralEdit(s: Status, log: seq<TaskEdit>, e: TaskEdit)
    requires AttemptsOk(s, log) && !e.AssignTask? && !e.AddTask? && !e.PrepareAddTask?
    ensures AttemptsOk(s, log + [e])
  {
    forall id ensures Assigns(log + [e], id) == Assigns(log, id) && Submission(log + [e], id) == Submission(log, id) {
      LogStep(log, e, id);
    }
  }

  // ---- Single steps ----

  lemma AddKeeps(s: Status, log: seq<TaskEdit>, heap: multiset<int>, delayed: multiset<int>, last: int, x: set<int>, id: int, n: NewTask)
    requires Good(s, log, heap, delayed, last, x) && id > last
    ensures Apply(s, AddTask(id, n)).Some?
    ensures Good(Apply(s, AddTask(id, n)).value, log + [AddTask(id, n)], HeapedOne(heap, AddTask(id, n)), DelayedOne(delayed, AddTask(id, n)), id, x)
  {
    var e := AddTask(id, n);
    var t := Apply(s, e).value;
    AddedCounts(s, log, last, id, n);
    assert id !in s.tasks;
    assert Stranded(t.tasks, log + [e], x) by {
      forall y ensures Assigns(log + [e], y) == Assigns(log, y) { LogStep(log, e, y); }
    }
    forall tx, i | tx in t.transactions && 0 <= i < |t.transactions[tx]| ensures NewTaskOk(t, t.transactions[tx][i], id) {
      assert NewTaskOk(s, s.transactions[tx][i], last);
    }
    assert forall tx, i :: InPlace(t, tx, i) <==> InPlace(s, tx, i);
  }

  lemma AddedCounts(s: Status, log: seq<TaskEdit>, last: int, id: int, n: NewTask)
    requires AttemptsOk(s, log) && PreparedOk(s, last) && id > last
    ensures AttemptsOk(Apply(s, AddTask(id, n)).value, log + [AddTask(id, n)])
  {
    var e := AddTask(id, n);
    var t := Apply(s, e).value;
    SubmittedCounts(s, log, e, last);
    LogStep(log, e, id);
    assert id !in s.tasks && Counted(t.tasks[id], log + [e], id);
  }

  lemma PrepareKeeps(s: Status, log: seq<TaskEdit>, heap: multiset<int>, delayed: multiset<int>, last: int, x: set<int>, tx: int, id: int, n: NewTask)
    requires Good(s, log, heap, delayed, last, x) && id > last
    ensures Apply(s, PrepareAddTask(tx, id, n)).Some?
    ensures var e := PrepareAddTask(tx, id, n); Good(Apply(s, e).value, log + [e], heap, delayed, id, x)
  {
    var e := PrepareAddTask(tx, id, n);
    var t := Apply(s, e).value;
    SubmittedCounts(s, log, e, last);
    if tx in s.transactions {
      PreparedGrows(s, t, last, tx, id, n);
      forall ty, i | ty in t.transactions && 0 <= i < |t.transactions[ty]|
        ensures Counted(t.transactions[ty][i].task, log + [e], t.transactions[ty][i].id)
      {
        if ty == tx && i == |s.transactions[tx]| { LogStep(log, e, id); }
        else { assert Counted(s.transactions[ty][i].task, log + [e], s.transactions[ty][i].id); }
      }
    } else {
      LaterLast(s, log, heap, delayed, last, x, id);
    }
  }

  /** A submission under a fresh id leaves the counts of all tasks known before. */
  lemma SubmittedCounts(s: Status, log: seq<TaskEdit>, e: TaskEdit, last: int)
    requires AttemptsOk(s, log) && PreparedOk(s, last) && (e.AddTask? || e.PrepareAddTask?) && e.id > last
    ensures AttemptsOk(s, log + [e])
  {
    forall x ensures Assigns(log + [e], x) == Assigns(log, x) && (x != e.id ==> Submission(log + [e], x) == Submission(log, x)) {
      LogStep(log, e, x);
    }
    forall tx, i | tx in s.transactions && 0 <= i < |s.transactions[tx]|
      ensures Counted(s.transactions[tx][i].task, log + [e], s.transactions[tx][i].id)
    {
      assert NewTaskOk(s, s.transactions[tx][i], last);
    }
  }

  lemma PreparedGrows(s: Status, t: Status, last: int, tx: int, id: int, n: NewTask)
    requires PreparedOk(s, last) && id > last && tx in s.transactions
    requires t.tasks == s.tasks && t.transactions == s.transactions[tx := s.transactions[tx] + [Prepared(id, Made(n))]]
    ensures PreparedOk(t, id)
  {
    forall ty, i | ty in t.transactions && 0 <= i < |t.transactions[ty]| ensures NewTaskOk(t, t.transactions[ty][i], id) {
      if InPlace(s, ty, i) { assert NewTaskOk(s, s.transactions[ty][i], last); }
    }
    forall ty, i, tz, j | InPlace(t, ty, i) && InPlace(t, tz, j) && t.transactions[ty][i].id == t.transactions[tz][j].id
      ensures ty == tz && i == j
    {
      if InPlace(s, ty, i) { assert NewTaskOk(s, s.transactions[ty][i], last); }
      if InPlace(s, tz, j) { assert NewTaskOk(s, s.transactions[tz][j], last); }
    }
  }

  /** A task in the status moves to another status; attempts stay. */
  predicate Moves(t: Task, to: TaskStatus) {
    match to
    case WAITING => t.status == DELAYED || (t.status == RUNNING && (t.maxattempts <= 0 || t.attempts < t.maxattempts))
    case FINISHED => t.status == RUNNING
    case ERROR => t.status == RUNNING
    case _ => false
  }

  lemma ChangeKeeps(s: Status, log: seq<TaskEdit>, heap: multiset<int>, delayed: multiset<int>, last: int, x: set<int>, id: int, to: TaskStatus)
    requires Good(s, log, heap, delayed, last, x) && id in s.tasks && (Moves(s.tasks[id], to) || (id in x && to == WAITING))
    ensures Apply(s, StatusChange(id, to)).Some?
    ensures Good(Apply(s, StatusChange(id, to)).value, log + [StatusChange(id, to)],
                 if to == WAITING then heap + multiset{id} else heap, delayed - multiset{id}, last, x - {id})
  {
    var e := StatusChange(id, to);
    var t := Apply(s, e).value;
    assert Stranded(t.tasks, log + [e], x - {id}) by {
      forall y ensures Assigns(log + [e], y) == Assigns(log, y) { LogStep(log, e, y); }
    }
    ChangeCounts(s, log, id, to);
    forall tx, i | tx in t.transactions && 0 <= i < |t.transactions[tx]| ensures NewTaskOk(t, t.transactions[tx][i], last) {
      assert NewTaskOk(s, s.transactions[tx][i], last);
    }
  }

  lemma ChangeCounts(s: Status, log: seq<TaskEdit>, id: int, to: TaskStatus)
    requires AttemptsOk(s, log) && id in s.tasks && (Moves(s.tasks[id], to) || to == ERROR || (Assigns(log, id) == 0 && to == WAITING))
    ensures AttemptsOk(Apply(s, StatusChange(id, to)).value, log + [StatusChange(id, to)])
  {
    var e := StatusChange(id, to);
    var t := Apply(s, e).value;
    NeutralEdit(s, log, e);
    LogStep(log, e, id);
    assert Counted(s.tasks[id], log + [e], id);
    forall y | y in t.tasks ensures Counted(t.tasks[y], log + [e], y) {
      if y != id { assert Counted(s.tasks[y], log + [e], y); }
    }
  }

  lemma AssignKeeps(s: Status, log: seq<TaskEdit>, heap: multiset<int>, delayed: multiset<int>, last: int, x: set<int>, e: TaskEdit)
    requires Good(s, log, heap, delayed, last, x) && e.AssignTask? && e.worker != "" && Has(s.tasks, e.id, WAITING)
    requires e.attempt == s.tasks[e.id].attempts + 1
    ensures Apply(s, e).Some? && Good(Apply(s, e).value, log + [e], heap - multiset{e.id}, delayed, last, x)
  {
    var t := Apply(s, e).value;
    forall y ensures Submission(log + [e], y) == Submission(log, y) && (y != e.id ==> Assigns(log + [e], y) == Assigns(log, y)) {
      LogStep(log, e, y);
    }
    LogStep(log, e, e.id);
    forall y | y in t.tasks ensures Counted(t.tasks[y], log + [e], y) {
      assert Counted(s.tasks[y], log, y);
    }
    forall tx, i | tx in t.transactions && 0 <= i < |t.transactions[tx]|
      ensures NewTaskOk(t, t.transactions[tx][i], last) && Counted(t.transactions[tx][i].task, log + [e], t.transactions[tx][i].id)
    {
      assert NewTaskOk(s, s.transactions[tx][i], last);
    }
  }

  // ---- Batches ----

  lemma JoinLog(log: seq<TaskEdit>, e: TaskEdit, rest: seq<TaskEdit>)
    ensures log + [e] + rest == log + ([e] + rest)
    ensures ([e] + rest)[0] == e && ([e] + rest)[1..] == rest
  {
  }

  /** Submissions with increasing fresh ids. */
  ghost predicate Submissions(edits: seq<TaskEdit>, last: int) {
    && (forall i :: 0 <= i < |edits| ==> (edits[i].AddTask? || edits[i].PrepareAddTask?) && edits[i].id > last)
    && (forall i, j :: 0 <= i < j < |edits| ==> edits[i].id < edits[j].id)
  }

  lemma {:induction false} AddsKeep(s: Status, log: seq<TaskEdit>, heap: multiset<int>, delayed: multiset<int>, last: int, x: set<int>,
                                    edits: seq<TaskEdit>, end: int)
    requires Good(s, log, heap, delayed, last, x) && Submissions(edits, last) && last <= end
    requires forall i :: 0 <= i < |edits| ==> edits[i].id <= end
    ensures match ApplyAll(s, edits)
            case None => false
            case Some(t) => Good(t, log + edits, Heaped(heap, edits), Delayed(delayed, edits), end, x)
    decreases |edits|
  {
    if edits == [] {
      assert log + edits == log;
      LaterLast(s, log, heap, delayed, last, x, end);
    } else {
      var e, rest := edits[0], edits[1..];
      SubmissionsTail(edits, last, end);
      SubmitKeeps(s, log, heap, delayed, last, x, e);
      AddsKeep(Apply(s, e).value, log + [e], HeapedOne(heap, e), DelayedOne(delayed, e), e.id, x, rest, end);
      assert log + [e] + rest == log + edits;
    }
  }

  lemma SubmissionsTail(edits: seq<TaskEdit>, last: int, end: int)
    requires edits != [] && Submissions(edits, last) && forall i :: 0 <= i < |edits| ==> edits[i].id <= end
    ensures Submits(edits[0]) && last < edits[0].id <= end && Submissions(edits[1..], edits[0].id)
    ensures forall i :: 0 <= i < |edits[1..]| ==> edits[1..][i].id <= end
  {
  }

  lemma SubmitKeeps(s: Status, log: seq<TaskEdit>, heap: multiset<int>, delayed: multiset<int>, last: int, x: set<int>, e: TaskEdit)
    requires Good(s, log, heap, delayed, last, x) && Submits(e) && e.id > last
    ensures Apply(s, e).Some? && Good(Apply(s, e).value, log + [e], HeapedOne(heap, e), DelayedOne(delayed, e), e.id, x)
  {
    if e.AddTask? {
      AddKeeps(s, log, heap, delayed, last, x, e.id, e.task);
    } else {
      PrepareKeeps(s, log, heap, delayed, last, x, e.tx, e.id, e.task);
    }
  }

  lemma LaterLast(s: Status, log: seq<TaskEdit>, heap: multiset<int>, delayed: multiset<int>, last: int, x: set<int>, end: int)
    requires Good(s, log, heap, delayed, last, x) && last <= end
    ensures Good(s, log, heap, delayed, end, x)
  {
    forall tx, i | tx in s.transactions && 0 <= i < |s.transactions[tx]| ensures NewTaskOk(s, s.transactions[tx][i], end) {
      assert NewTaskOk(s, s.transactions[tx][i], last);
    }
  }

  lemma {:induction false} AcceptedAreSubmissions(slots: map<string, int>, edits: seq<TaskEdit>, last: int, end: int)
    requires Submissions(edits, last) && forall i :: 0 <= i < |edits| ==> edits[i].id <= end
    ensures Submissions(Accepted(slots, edits), last)
    ensures forall i :: 0 <= i < |Accepted(slots, edits)| ==> Accepted(slots, edits)[i] in edits && Accepted(slots, edits)[i].id <= end
    decreases |edits|
  {
    if edits != [] {
      var e := edits[0];
      var rest := TakenBy(slots, e);
      AcceptedAreSubmissions(rest, edits[1..], last, end);
      var acc := Accepted(rest, edits[1..]);
      forall i | 0 <= i < |acc| ensures acc[i].id > e.id && acc[i] in edits {
        assert acc[i] in edits[1..];
      }
    }
  }

  function Members(ids: seq<int>): set<int> { set id | id in ids }

  lemma {:induction false} ResumesKeep(s: Status, log: seq<TaskEdit>, heap: multiset<int>, delayed: multiset<int>, last: int, x: set<int>, drained: seq<int>)
    requires Good(s, log, heap, delayed, last, x) && multiset(drained) <= delayed
    ensures var edits := Changes(drained, WAITING);
            match ApplyAll(s, edits)
            case None => false
            case Some(t) => Good(t, log + edits, Heaped(heap, edits), delayed - multiset(drained), last, x - Members(drained))
    decreases |drained|
  {
    if drained == [] {
      assert log + [] == log && delayed - multiset([]) == delayed && x - Members([]) == x;
    } else {
      var id, rest := drained[0], drained[1..];
      var e := StatusChange(id, WAITING);
      DrainedHead(s.tasks, delayed, x, drained);
      ChangeKeeps(s, log, heap, delayed, last, x, id, WAITING);
      ResumesKeep(Apply(s, e).value, log + [e], heap + multiset{id}, delayed - multiset{id}, last, x - {id}, rest);
      JoinLog(log, e, Changes(rest, WAITING));
      ApplyHead(s, e, Changes(rest, WAITING));
    }
  }

  lemma DrainedHead(tasks: Tasks, delayed: multiset<int>, x: set<int>, drained: seq<int>)
    requires drained != [] && multiset(drained) <= delayed && DelayedAre(tasks, delayed, x)
    ensures Has(tasks, drained[0], DELAYED) || drained[0] in x
    ensures multiset(drained[1..]) <= delayed - multiset{drained[0]}
    ensures delayed - multiset{drained[0]} - multiset(drained[1..]) == delayed - multiset(drained)
    ensures x - {drained[0]} - Members(drained[1..]) == x - Members(drained)
  {
    assert drained == [drained[0]] + drained[1..];
    assert multiset(drained) == multiset{drained[0]} + multiset(drained[1..]);
    assert multiset(drained)[drained[0]] >= 1;
  }

  /** Tasks not yet reached by a batch are as they were when its edits were decided. */
  ghost predicate Untouched(before: Tasks, now: Tasks, ids: seq<int>) {
    forall i :: 0 <= i < |ids| ==> (ids[i] in before <==> ids[i] in now) && (ids[i] in before ==> before[ids[i]] == now[ids[i]])
  }

  lemma {:induction false} AssignsKeep(before: Tasks, s: Status, log: seq<TaskEdit>, heap: multiset<int>, delayed: multiset<int>, last: int, x: set<int>,
                                       taken: seq<TakenTask>, worker: string)
    requires Good(s, log, heap, delayed, last, x) && multiset(Ids(taken)) <= heap && worker != "" && Untouched(before, s.tasks, Ids(taken))
    ensures var edits := AssignEdits(before, taken, worker);
            ApplyAll(s, edits).Some? && Good(ApplyAll(s, edits).value, log + edits, heap - multiset(Ids(taken)), delayed, last, x)
    decreases |taken|
  {
    if taken == [] {
      assert log + [] == log && heap - multiset([]) == heap;
    } else {
      var rest := taken[1..];
      var e := AssignHeadKeeps(before, s, log, heap, delayed, last, x, taken, worker);
      AssignsKeep(before, Apply(s, e).value, log + [e], heap - multiset{e.id}, delayed, last, x, rest, worker);
      var more := AssignEdits(before, rest, worker);
      JoinLog(log, e, more);
      ApplyHead(s, e, more);
    }
  }

  lemma ApplyHead(s: Status, e: TaskEdit, rest: seq<TaskEdit>)
    requires Apply(s, e).Some?
    ensures ApplyAll(s, [e] + rest) == ApplyAll(Apply(s, e).value, rest)
  {
    assert ([e] + rest)[1..] == rest;
  }

  lemma AssignEditsHead(before: Tasks, taken: seq<TakenTask>, worker: string) returns (e: TaskEdit)
    requires taken != [] && taken[0].id in before
    ensures e == AssignTask(taken[0].id, worker, before[taken[0].id].attempts + 1, Listed(taken[0].resourceIds))
    ensures AssignEdits(before, taken, worker) == [e] + AssignEdits(before, taken[1..], worker)
  {
    e := AssignTask(taken[0].id, worker, before[taken[0].id].attempts + 1, Listed(taken[0].resourceIds));
  }

  lemma AssignHeadKeeps(before: Tasks, s: Status, log: seq<TaskEdit>, heap: multiset<int>, delayed: multiset<int>, last: int, x: set<int>,
                        taken: seq<TakenTask>, worker: string) returns (e: TaskEdit)
    requires Good(s, log, heap, delayed, last, x) && taken != []
    requires multiset(Ids(taken)) <= heap && worker != "" && Untouched(before, s.tasks, Ids(taken))
    ensures e.AssignTask? && AssignEdits(before, taken, worker) == [e] + AssignEdits(before, taken[1..], worker)
    ensures Apply(s, e).Some? && Good(Apply(s, e).value, log + [e], heap - multiset{e.id}, delayed, last, x)
    ensures Untouched(before, Apply(s, e).value.tasks, Ids(taken[1..])) && multiset(Ids(taken[1..])) <= heap - multiset{e.id}
    ensures heap - multiset{e.id} - multiset(Ids(taken[1..])) == heap - multiset(Ids(taken))
  {
    var id := taken[0].id;
    HeadOfHeap(taken, s.tasks, heap);
    assert Ids(taken)[0] == id;
    e := AssignEditsHead(before, taken, worker);
    AssignKeeps(s, log, heap, delayed, last, x, e);
    RestUntouched(before, s.tasks, Apply(s, e).value.tasks, Ids(taken), heap);
  }

  lemma HeadOfHeap(taken: seq<TakenTask>, tasks: Tasks, heap: multiset<int>)
    requires taken != [] && multiset(Ids(taken)) <= heap && HeapAgrees(tasks, heap)
    ensures Ids(taken)[1..] == Ids(taken[1..]) && Has(tasks, taken[0].id, WAITING) && heap[taken[0].id] == 1
    ensures multiset(Ids(taken[1..])) <= heap - multiset{taken[0].id}
    ensures heap - multiset{taken[0].id} - multiset(Ids(taken[1..])) == heap - multiset(Ids(taken))
  {
    var id, ids := taken[0].id, Ids(taken);
    assert ids == [id] + Ids(taken[1..]);
    assert multiset(ids) == multiset{id} + multiset(Ids(taken[1..]));
    assert multiset(ids)[id] >= 1;
  }

  /** The heap holds an id once, so a batch names it once. */
  lemma RestUntouched(before: Tasks, now: Tasks, then': Tasks, ids: seq<int>, heap: multiset<int>)
    requires ids != [] && multiset(ids) <= heap && heap[ids[0]] <= 1 && Untouched(before, now, ids)
    requires then'.Keys == now.Keys && forall x :: x in now && x != ids[0] ==> then'[x] == now[x]
    ensures Untouched(before, then', ids[1..])
  {
    var rest := ids[1..];
    assert ids == [ids[0]] + rest;
    assert multiset(ids)[ids[0]] == 1 + multiset(rest)[ids[0]];
    assert multiset(rest)[ids[0]] == 0;
    forall i | 0 <= i < |rest| ensures rest[i] != ids[0] {
      assert rest[i] in multiset(rest);
    }
  }

  // ---- What a batch of reports does to one task ----

  /** How often the batch sets a task back to waiting. */
  function Retried(tasks: Tasks, rs: seq<Report>, id: int): nat
    decreases |rs|
  {
    if rs == [] then 0 else Bit(rs[0].id == id && Retries(tasks, rs[0])) + Retried(tasks, rs[1..], id)
  }

  /** The status the last change leaves. */
  function Final(tasks: Tasks, rs: seq<Report>, id: int, status: TaskStatus): TaskStatus
    decreases |rs|
  {
    if rs == [] then status
    else Final(tasks, rs[1..], id, if rs[0].id == id && Changing(tasks, rs[0]) then FinishEdit(tasks, rs[0])[0].to else status)
  }

  lemma {:induction false} StatusAfter(before: Tasks, s: Status, rs: seq<Report>)
    requires before.Keys <= s.tasks.Keys
    ensures ApplyAll(s, FinishEdits(before, rs)).Some?
    ensures var t := ApplyAll(s, FinishEdits(before, rs)).value;
            && t.tasks.Keys == s.tasks.Keys && t.transactions == s.transactions
            && forall id :: id in t.tasks ==> t.tasks[id] == s.tasks[id].(status := Final(before, rs, id, s.tasks[id].status))
    decreases |rs|
  {
    if rs != [] {
      var es, more := FinishEdit(before, rs[0]), FinishEdits(before, rs[1..]);
      if es == [] {
        assert es + more == more;
        StatusAfter(before, s, rs[1..]);
      } else {
        ApplyHead(s, es[0], more);
        StatusAfter(before, Apply(s, es[0]).value, rs[1..]);
      }
    }
  }

  lemma {:induction false} HeapAfter(before: Tasks, heap: multiset<int>, rs: seq<Report>, id: int)
    ensures Heaped(heap, FinishEdits(before, rs))[id] == heap[id] + Retried(before, rs, id)
    decreases |rs|
  {
    if rs != [] {
      var es, more := FinishEdit(before, rs[0]), FinishEdits(before, rs[1..]);
      if es == [] {
        assert es + more == more;
        HeapAfter(before, heap, rs[1..], id);
      } else {
        assert (es + more)[0] == es[0] && (es + more)[1..] == more;
        HeapAfter(before, HeapedOne(heap, es[0]), rs[1..], id);
      }
    }
  }

  lemma {:induction false} WaitingWasRetried(tasks: Tasks, rs: seq<Report>, id: int, status: TaskStatus)
    requires Final(tasks, rs, id, status) == WAITING && status != WAITING
    ensures Retried(tasks, rs, id) > 0
    decreases |rs|
  {
    if !(rs[0].id == id && Retries(tasks, rs[0])) {
      WaitingWasRetried(tasks, rs[1..], id, if rs[0].id == id && Changing(tasks, rs[0]) then FinishEdit(tasks, rs[0])[0].to else status);
    }
  }

  /** After a retry the rest of the batch leaves the task alone exactly when it neither retries it again nor ends it. */
  lemma {:induction false} LeftAloneIff(tasks: Tasks, rs: seq<Report>, id: int)
    ensures Retried(tasks, rs, id) == 0 && Final(tasks, rs, id, WAITING) == WAITING <==>
            forall j :: 0 <= j < |rs| && rs[j].id == id ==> !Changing(tasks, rs[j])
    decreases |rs|
  {
    if rs != [] {
      if rs[0].id == id && Changing(tasks, rs[0]) {
        var to := FinishEdit(tasks, rs[0])[0].to;
        if to != WAITING && Final(tasks, rs[1..], id, to) == WAITING { WaitingWasRetried(tasks, rs[1..], id, to); }
      } else {
        LeftAloneIff(tasks, rs[1..], id);
        assert forall j :: 0 < j < |rs| ==> rs[j] == rs[1..][j - 1];
        assert forall j :: 0 <= j < |rs[1..]| ==> rs[1..][j] == rs[j + 1];
      }
    }
  }

  lemma {:induction false} RetryLastIff(tasks: Tasks, rs: seq<Report>, id: int, status: TaskStatus)
    requires status != WAITING
    ensures Retried(tasks, rs, id) == Bit(Final(tasks, rs, id, status) == WAITING) <==> RetryLast(tasks, rs, id)
    decreases |rs|
  {
    if rs != [] {
      var rest := rs[1..];
      assert forall j :: 0 <= j < |rest| ==> rest[j] == rs[j + 1];
      assert forall j :: 0 < j < |rs| ==> rs[j] == rest[j - 1];
      if rs[0].id == id && Retries(tasks, rs[0]) {
        LeftAloneIff(tasks, rest, id);
      } else {
        RetryLastIff(tasks, rest, id, if rs[0].id == id && Changing(tasks, rs[0]) then FinishEdit(tasks, rs[0])[0].to else status);
        assert RetryLast(tasks, rs, id) <==> RetryLast(tasks, rest, id);
      }
    }
  }

  /** Only running tasks change. */
  lemma {:induction false} OthersStay(tasks: Tasks, rs: seq<Report>, id: int, status: TaskStatus)
    requires !Has(tasks, id, RUNNING)
    ensures Final(tasks, rs, id, status) == status && Retried(tasks, rs, id) == 0 && RetryLast(tasks, rs, id)
    decreases |rs|
  {
    if rs != [] {
      OthersStay(tasks, rs[1..], id, status);
    }
  }

  lemma {:induction false} NeverDelayed(tasks: Tasks, rs: seq<Report>, id: int, status: TaskStatus)
    ensures Final(tasks, rs, id, status) == DELAYED ==> status == DELAYED
    decreases |rs|
  {
    if rs != [] {
      NeverDelayed(tasks, rs[1..], id, if rs[0].id == id && Changing(tasks, rs[0]) then FinishEdit(tasks, rs[0])[0].to else status);
    }
  }

  /** A batch that names each task once retries no task before another change of it. */
  lemma DistinctRetryLast(tasks: Tasks, rs: seq<Report>)
    requires DistinctReports(rs)
    ensures RetriesLast(tasks, rs)
  {
  }

  /** Only a task with attempts left is set back to waiting. */
  lemma {:induction false} WaitingHasAttempts(tasks: Tasks, rs: seq<Report>, id: int, status: TaskStatus)
    requires Final(tasks, rs, id, status) == WAITING && status != WAITING
    ensures id in tasks && (tasks[id].maxattempts > 0 ==> tasks[id].attempts < tasks[id].maxattempts)
    decreases |rs|
  {
    if !(rs[0].id == id && Retries(tasks, rs[0])) {
      WaitingHasAttempts(tasks, rs[1..], id, if rs[0].id == id && Changing(tasks, rs[0]) then FinishEdit(tasks, rs[0])[0].to else status);
    }
  }

  /** Reports neither submit nor assign. */
  lemma {:induction false} ReportsCountNothing(before: Tasks, log: seq<TaskEdit>, rs: seq<Report>, id: int)
    ensures Assigns(log + FinishEdits(before, rs), id) == Assigns(log, id)
    ensures Submission(log + FinishEdits(before, rs), id) == Submission(log, id)
    decreases |rs|
  {
    if rs == [] {
      assert log + [] == log;
    } else {
      var es, more := FinishEdit(before, rs[0]), FinishEdits(before, rs[1..]);
      if es == [] {
        assert es + more == more;
        ReportsCountNothing(before, log, rs[1..], id);
      } else {
        assert es == [es[0]];
        JoinLog(log, es[0], more);
        ReportsCountNothing(before, log + [es[0]], rs[1..], id);
        LogStep(log, es[0], id);
      }
    }
  }

  /** The queues after a batch, task by task: a retry that is changed again leaves the heap wrong, nothing else does. */
  lemma QueuesAfter(tasks: Tasks, after: Tasks, heap: multiset<int>, delayed: multiset<int>, x: set<int>, rs: seq<Report>)
    requires HeapAgrees(tasks, heap) && DelayedAre(tasks, delayed, x) && after.Keys == tasks.Keys
    requires forall id :: id in after ==> after[id] == tasks[id].(status := Final(tasks, rs, id, tasks[id].status))
    ensures HeapAgrees(after, Heaped(heap, FinishEdits(tasks, rs))) <==> RetriesLast(tasks, rs)
    ensures (forall id :: id in x ==> !Has(tasks, id, RUNNING)) ==> DelayedAre(after, delayed, x)
  {
    forall id ensures Heaped(heap, FinishEdits(tasks, rs))[id] == Bit(Has(after, id, WAITING)) <==> RetryLast(tasks, rs, id) {
      HeapAfter(tasks, heap, rs, id);
      OneAfter(tasks, rs, id);
    }
    forall id | !(id in x && Has(tasks, id, RUNNING)) ensures delayed[id] == Bit(Has(after, id, DELAYED) || id in x) {
      OneAfter(tasks, rs, id);
    }
  }

  lemma OneAfter(tasks: Tasks, rs: seq<Report>, id: int)
    ensures id in tasks && tasks[id].status != RUNNING ==> Final(tasks, rs, id, tasks[id].status) == tasks[id].status
    ensures !Has(tasks, id, RUNNING) ==> Retried(tasks, rs, id) == 0 && RetryLast(tasks, rs, id)
    ensures Has(tasks, id, RUNNING) ==>
      && (Retried(tasks, rs, id) == Bit(Final(tasks, rs, id, RUNNING) == WAITING) <==> RetryLast(tasks, rs, id))
      && Final(tasks, rs, id, RUNNING) != DELAYED
  {
    if Has(tasks, id, RUNNING) {
      RetryLastIff(tasks, rs, id, RUNNING);
      NeverDelayed(tasks, rs, id, RUNNING);
    } else {
      OthersStay(tasks, rs, id, if id in tasks then tasks[id].status else WAITING);
    }
  }

  lemma FinishCounts(s: Status, log: seq<TaskEdit>, rs: seq<Report>)
    requires AttemptsOk(s, log)
    ensures match ApplyAll(s, FinishEdits(s.tasks, rs)) case None => false case Some(t) => AttemptsOk(t, log + FinishEdits(s.tasks, rs))
  {
    StatusAfter(s.tasks, s, rs);
    var t, log' := ApplyAll(s, FinishEdits(s.tasks, rs)).value, log + FinishEdits(s.tasks, rs);
    forall id ensures Assigns(log', id) == Assigns(log, id) && Submission(log', id) == Submission(log, id) { ReportsCountNothing(s.tasks, log, rs, id); }
    forall id | id in t.tasks ensures Counted(t.tasks[id], log', id) {
      assert Counted(s.tasks[id], log, id);
      OneAfter(s.tasks, rs, id);
      if s.tasks[id].status == RUNNING && t.tasks[id].status == WAITING { WaitingHasAttempts(s.tasks, rs, id, RUNNING); }
    }
    forall tx, i | tx in t.transactions && 0 <= i < |t.transactions[tx]|
      ensures Counted(t.transactions[tx][i].task, log', t.transactions[tx][i].id)
    {
      assert Counted(s.transactions[tx][i].task, log, s.transactions[tx][i].id);
    }
  }

  lemma FinishKeeps(s: Status, log: seq<TaskEdit>, heap: multiset<int>, delayed: multiset<int>, last: int, x: set<int>, rs: seq<Report>)
    requires Good(s, log, heap, delayed, last, x) && RetriesLast(s.tasks, rs)
    ensures var edits := FinishEdits(s.tasks, rs);
            match ApplyAll(s, edits)
            case None => false
            case Some(t) => Good(t, log + edits, Heaped(heap, edits), delayed, last, x)
  {
    StatusAfter(s.tasks, s, rs);
    var t, log' := ApplyAll(s, FinishEdits(s.tasks, rs)).value, log + FinishEdits(s.tasks, rs);
    FinishCounts(s, log, rs);
    QueuesAfter(s.tasks, t.tasks, heap, delayed, x, rs);
    forall id | id in x ensures Has(t.tasks, id, ERROR) && Assigns(log', id) == 0 {
      OneAfter(s.tasks, rs, id);
      ReportsCountNothing(s.tasks, log, rs, id);
    }
    PreparedSame(s, t, last);
  }

  lemma PreparedSame(s: Status, t: Status, last: int)
    requires PreparedOk(s, last) && t.tasks.Keys == s.tasks.Keys && t.transactions == s.transactions
    ensures PreparedOk(t, last)
  {
    forall tx, i | tx in t.transactions && 0 <= i < |t.transactions[tx]| ensures NewTaskOk(t, t.transactions[tx][i], last) {
      assert NewTaskOk(s, s.transactions[tx][i], last);
    }
    assert forall tx, i :: InPlace(t, tx, i) <==> InPlace(s, tx, i);
  }

  // ---- Expiry ----

  function DelayedAmong(tasks: Tasks, ids: seq<int>): set<int> { set id | id in ids && Has(tasks, id, DELAYED) }

  lemma ExpireOneKeeps(s: Status, log: seq<TaskEdit>, heap: multiset<int>, delayed: multiset<int>, last: int, x: set<int>, id: int)
    requires Good(s, log, heap, delayed, last, x) && (Has(s.tasks, id, WAITING) || Has(s.tasks, id, DELAYED))
    ensures var e := StatusChange(id, ERROR);
            && Apply(s, e).Some?
            && Good(Apply(s, e).value, log + [e], heap[id := 0], delayed, last, x + DelayedAmong(s.tasks, [id]))
  {
    var e := StatusChange(id, ERROR);
    var t := Apply(s, e).value;
    assert Stranded(t.tasks, log + [e], x + DelayedAmong(s.tasks, [id])) by {
      assert Counted(s.tasks[id], log, id);
      forall y ensures Assigns(log + [e], y) == Assigns(log, y) { LogStep(log, e, y); }
    }
    ChangeCounts(s, log, id, ERROR);
    forall tx, i | tx in t.transactions && 0 <= i < |t.transactions[tx]| ensures NewTaskOk(t, t.transactions[tx][i], last) {
      assert NewTaskOk(s, s.transactions[tx][i], last);
    }
  }

  lemma {:induction false} ExpiriesKeep(s: Status, log: seq<TaskEdit>, heap: multiset<int>, delayed: multiset<int>, last: int, x: set<int>, ids: seq<int>)
    requires Good(s, log, heap, delayed, last, x)
    requires forall i :: 0 <= i < |ids| ==> Has(s.tasks, ids[i], WAITING) || Has(s.tasks, ids[i], DELAYED)
    requires forall i, j :: 0 <= i < j < |ids| ==> ids[i] != ids[j]
    ensures var edits := Changes(ids, ERROR);
            && ApplyAll(s, edits).Some?
            && Good(ApplyAll(s, edits).value, log + edits, Without(heap, ids), delayed, last, x + DelayedAmong(s.tasks, ids))
    decreases |ids|
  {
    if ids == [] {
      assert log + [] == log && x + DelayedAmong(s.tasks, []) == x;
    } else {
      var id, rest, e := ids[0], ids[1..], StatusChange(ids[0], ERROR);
      ExpireOneKeeps(s, log, heap, delayed, last, x, id);
      var t := Apply(s, e).value;
      assert forall i :: 0 <= i < |rest| ==> rest[i] == ids[i + 1];
      ExpiriesKeep(t, log + [e], heap[id := 0], delayed, last, x + DelayedAmong(s.tasks, [id]), rest);
      JoinLog(log, e, Changes(rest, ERROR));
      ApplyHead(s, e, Changes(rest, ERROR));
      HeadAndRest(s.tasks, t.tasks, x, ids);
    }
  }

  lemma HeadAndRest(tasks: Tasks, after: Tasks, x: set<int>, ids: seq<int>)
    requires ids != [] && after.Keys == tasks.Keys && forall i, j :: 0 <= i < j < |ids| ==> ids[i] != ids[j]
    requires forall id :: id in tasks && id != ids[0] ==> after[id] == tasks[id]
    ensures x + DelayedAmong(tasks, [ids[0]]) + DelayedAmong(after, ids[1..]) == x + DelayedAmong(tasks, ids)
  {
    assert ids == [ids[0]] + ids[1..];
  }

  // ---- Transactions ----

  lemma {:induction false} PutAgrees(tasks: Tasks, heap: multiset<int>, delayed: multiset<int>, x: set<int>, ps: seq<Prepared>)
    requires HeapAgrees(tasks, heap) && DelayedAre(tasks, delayed, x)
    requires forall id :: id in x ==> id in tasks
    requires forall i :: 0 <= i < |ps| ==> ps[i].id !in tasks && (ps[i].task.status == WAITING || ps[i].task.status == DELAYED)
    requires forall i, j :: 0 <= i < j < |ps| ==> ps[i].id != ps[j].id
    ensures HeapAgrees(PutAll(tasks, ps), heap + IdsWith(ps, WAITING)) && DelayedAre(PutAll(tasks, ps), delayed + IdsWith(ps, DELAYED), x)
    decreases |ps|
  {
    if ps != [] {
      var p, rest := ps[0], ps[1..];
      var h, d := heap + IdOf(p, WAITING), delayed + IdOf(p, DELAYED);
      PutOneAgrees(tasks, heap, delayed, x, p);
      forall i | 0 <= i < |rest| ensures rest[i].id !in tasks[p.id := p.task] { assert rest[i] == ps[i + 1]; }
      PutAgrees(tasks[p.id := p.task], h, d, x, rest);
      AddsUp(heap, IdOf(p, WAITING), IdsWith(rest, WAITING));
      AddsUp(delayed, IdOf(p, DELAYED), IdsWith(rest, DELAYED));
    }
  }

  function IdOf(p: Prepared, status: TaskStatus): multiset<int> { if p.task.status == status then multiset{p.id} else multiset{} }

  lemma AddsUp(a: multiset<int>, b: multiset<int>, c: multiset<int>)
    ensures a + b + c == a + (b + c)
  {
  }

  lemma PutOneAgrees(tasks: Tasks, heap: multiset<int>, delayed: multiset<int>, x: set<int>, p: Prepared)
    requires HeapAgrees(tasks, heap) && DelayedAre(tasks, delayed, x) && p.id !in tasks && p.id !in x
    requires p.task.status == WAITING || p.task.status == DELAYED
    ensures HeapAgrees(tasks[p.id := p.task], heap + IdOf(p, WAITING)) && DelayedAre(tasks[p.id := p.task], delayed + IdOf(p, DELAYED), x)
  {
    assert heap[p.id] == 0 && delayed[p.id] == 0;
  }

  lemma {:induction false} PutMembers(tasks: Tasks, ps: seq<Prepared>, id: int)
    requires forall i, j :: 0 <= i < j < |ps| ==> ps[i].id != ps[j].id
    ensures id in PutAll(tasks, ps) <==> id in tasks || exists i :: 0 <= i < |ps| && ps[i].id == id
    ensures forall i :: 0 <= i < |ps| && ps[i].id == id ==> PutAll(tasks, ps)[id] == ps[i].task
    ensures (forall i :: 0 <= i < |ps| ==> ps[i].id != id) && id in tasks ==> PutAll(tasks, ps)[id] == tasks[id]
    decreases |ps|
  {
    if ps != [] {
      PutMembers(tasks[ps[0].id := ps[0].task], ps[1..], id);
      forall i | 0 < i < |ps| ensures ps[i] == ps[1..][i - 1] {}
    }
  }

  lemma CommitKeeps(m: Mem, x: set<int>, tx: int)
    requires GoodBut(m, x)
    ensures GoodBut(Commit(m, tx), x)
  {
    var e := CommitTransaction(tx);
    NeutralEdit(m.status, m.log, e);
    if tx in m.status.transactions {
      var ps := m.status.transactions[tx];
      forall i | 0 <= i < |ps| ensures NewTaskOk(m.status, ps[i], m.lastId) && Counted(ps[i].task, m.log + [e], ps[i].id) {}
      PutAgrees(m.status.tasks, m.heap, m.delayed, x, ps);
      CommittedOk(m, x, tx);
      CommittedStranded(m, x, tx);
    }
  }

  lemma CommittedStranded(m: Mem, x: set<int>, tx: int)
    requires GoodBut(m, x) && tx in m.status.transactions
    ensures Stranded(Commit(m, tx).status.tasks, Commit(m, tx).log, x)
  {
    var ps := m.status.transactions[tx];
    forall i, j | 0 <= i < j < |ps| ensures ps[i].id != ps[j].id { assert InPlace(m.status, tx, i) && InPlace(m.status, tx, j); }
    forall id | id in x ensures Has(Commit(m, tx).status.tasks, id, ERROR) && Assigns(Commit(m, tx).log, id) == 0 {
      LogStep(m.log, CommitTransaction(tx), id);
      forall i | 0 <= i < |ps| ensures ps[i].id != id { assert NewTaskOk(m.status, m.status.transactions[tx][i], m.lastId); }
      PutMembers(m.status.tasks, ps, id);
    }
  }

  lemma CommittedOk(m: Mem, x: set<int>, tx: int)
    requires GoodBut(m, x) && tx in m.status.transactions && AttemptsOk(m.status, m.log + [CommitTransaction(tx)])
    ensures PreparedOk(Commit(m, tx).status, m.lastId) && AttemptsOk(Commit(m, tx).status, Commit(m, tx).log)
  {
    var s, t, log := m.status, Commit(m, tx).status, m.log + [CommitTransaction(tx)];
    var ps := s.transactions[tx];
    forall i, j | 0 <= i < j < |ps| ensures ps[i].id != ps[j].id { assert InPlace(s, tx, i) && InPlace(s, tx, j); }
    forall id | id in t.tasks ensures id <= m.lastId {
      PutMembers(s.tasks, ps, id);
      if i :| 0 <= i < |ps| && ps[i].id == id { assert NewTaskOk(s, s.transactions[tx][i], m.lastId); }
    }
    forall ty, i | ty in t.transactions && 0 <= i < |t.transactions[ty]|
      ensures NewTaskOk(t, t.transactions[ty][i], m.lastId)
    {
      var p := s.transactions[ty][i];
      assert NewTaskOk(s, p, m.lastId);
      PutMembers(s.tasks, ps, p.id);
      forall j | 0 <= j < |ps| ensures ps[j].id != p.id { assert InPlace(s, tx, j) && InPlace(s, ty, i); }
    }
    CommittedCounts(s, log, tx);
  }

  lemma CommittedCounts(s: Status, log: seq<TaskEdit>, tx: int)
    requires AttemptsOk(s, log) && tx in s.transactions
    requires forall i, j :: 0 <= i < j < |s.transactions[tx]| ==> s.transactions[tx][i].id != s.transactions[tx][j].id
    ensures AttemptsOk(s.(tasks := PutAll(s.tasks, s.transactions[tx]), transactions := s.transactions - {tx}), log)
  {
    var ps := s.transactions[tx];
    var tasks := PutAll(s.tasks, ps);
    forall id ensures if id in tasks then Counted(tasks[id], log, id) else Assigns(log, id) == 0 {
      PutMembers(s.tasks, ps, id);
      if i :| 0 <= i < |ps| && ps[i].id == id { assert Counted(s.transactions[tx][i].task, log, s.transactions[tx][i].id); }
    }
  }

  lemma RollbackKeeps(m: Mem, x: set<int>, tx: int)
    requires GoodBut(m, x)
    ensures GoodBut(Rollback(m, tx), x)
  {
    var s, t := m.status, Rollback(m, tx).status;
    NeutralEdit(s, m.log, RollbackTransaction(tx));
    forall ty, i | ty in t.transactions && 0 <= i < |t.transactions[ty]| ensures NewTaskOk(t, t.transactions[ty][i], m.lastId) {
      assert NewTaskOk(s, s.transactions[ty][i], m.lastId);
    }
  }

  lemma BeginKeeps(m: Mem, x: set<int>, tx: int)
    requires GoodBut(m, x)
    ensures GoodBut(Begin(m, tx), x)
  {
    var s, t := m.status, Begin(m, tx).status;
    NeutralEdit(s, m.log, BeginTransaction(tx));
    forall ty, i | ty in t.transactions && 0 <= i < |t.transactions[ty]| ensures NewTaskOk(t, t.transactions[ty][i], m.lastId) {
      assert NewTaskOk(s, s.transactions[ty][i], m.lastId);
    }
  }

  // ---- Whole operations ----

  ghost predicate GoodBut(m: Mem, x: set<int>) {
    Good(m.status, m.log, m.heap, m.delayed, m.lastId, x)
  }

  /** The queued tasks that are not delayed. */
  function StrandedIn(m: Mem): set<int> { set id | id in m.delayed && !Has(m.status.tasks, id, DELAYED) }

  ghost predicate GoodMem(m: Mem) {
    match m
    case Mem(_, _, _, _, _, _) => GoodBut(m, StrandedIn(m))
  }

  lemma StrandedAre(m: Mem, x: set<int>)
    requires GoodBut(m, x)
    ensures x == StrandedIn(m) && GoodMem(m)
  {
    forall id ensures id in x <==> id in StrandedIn(m) {
      assert m.delayed[id] == Bit(Has(m.status.tasks, id, DELAYED) || id in x);
      assert id in x ==> Has(m.status.tasks, id, ERROR);
    }
  }

  /** Expiry strands the delayed ones among its tasks; a resume sets those it drains back to waiting; a boot forgets them. */
  function Stranding(m: Mem, x: set<int>, op: Op): set<int> {
    match op
    case OpExpire(ids, _) => x + DelayedAmong(m.status.tasks, ids)
    case OpResume(drained) => x - Members(drained)
    case OpBoot(_, _, _) => {}
    case _ => x
  }

  /** The tasks stranded over a run, if those in `x` were before. */
  ghost function StrandedBy(m: Mem, ops: seq<Op>, x: set<int>): set<int>
    decreases |ops|
  {
    if ops == [] then x
    else match Do(m, ops[0]) case None => x case Some(n) => StrandedBy(n, ops[1..], Stranding(m, x, ops[0]))
  }

  lemma AddOpKeeps(m: Mem, x: set<int>, rs: seq<Request>)
    requires GoodBut(m, x)
    ensures Add(m, rs).Some? && GoodBut(Add(m, rs).value, x)
  {
    var edits := EditsFor(rs, m.lastId);
    EditsForAdds(rs, m.lastId);
    AcceptedAreSubmissions(m.status.slots, edits, m.lastId, m.lastId + |rs|);
    var s := m.status.(slots := Taken(m.status.slots, edits));
    assert Good(s, m.log, m.heap, m.delayed, m.lastId, x) by {
      forall tx, i | tx in s.transactions && 0 <= i < |s.transactions[tx]| ensures NewTaskOk(s, s.transactions[tx][i], m.lastId) {
        assert NewTaskOk(m.status, m.status.transactions[tx][i], m.lastId);
      }
    }
    AddsKeep(s, m.log, m.heap, m.delayed, m.lastId, x, Accepted(m.status.slots, edits), m.lastId + |rs|);
  }

  lemma {:induction false} DeathReportsFit(tasks: Tasks, ids: seq<int>, now: int)
    requires forall i, j :: 0 <= i < j < |ids| ==> ids[i] != ids[j]
    ensures DistinctReports(DeathReports(tasks, ids, now))
    ensures forall i :: 0 <= i < |DeathReports(tasks, ids, now)| ==>
      DeathReports(tasks, ids, now)[i].id in ids && DeathReports(tasks, ids, now)[i].final == ERROR
    decreases |ids|
  {
    if ids != [] {
      DeathReportsFit(tasks, ids[1..], now);
      var rest := DeathReports(tasks, ids[1..], now);
      forall i | 0 <= i < |rest| ensures rest[i].id != ids[0] && rest[i].id in ids {
        assert rest[i].id in ids[1..];
      }
    }
  }

  lemma FinishOpKeeps(m: Mem, x: set<int>, rs: seq<Report>)
    requires GoodBut(m, x) && RetriesLast(m.status.tasks, rs)
    ensures Finish(m, rs).None? <==> exists i :: 0 <= i < |rs| && Bad(m.status.tasks, rs[i])
    ensures Finish(m, rs).Some? ==> GoodBut(Finish(m, rs).value, x)
  {
    if forall i :: 0 <= i < |rs| ==> !Bad(m.status.tasks, rs[i]) {
      FinishKeeps(m.status, m.log, m.heap, m.delayed, m.lastId, x, rs);
    }
  }

  lemma OpKeeps(m: Mem, x: set<int>, op: Op)
    requires GoodBut(m, x) && Fits(m, op) && Do(m, op).Some?
    ensures GoodBut(Do(m, op).value, Stranding(m, x, op))
  {
    match op
    case OpAdd(rs) => AddOpKeeps(m, x, rs);
    case OpBegin(tx) => BeginKeeps(m, x, tx);
    case OpCommit(tx) => CommitKeeps(m, x, tx);
    case OpRollback(tx) => RollbackKeeps(m, x, tx);
    case OpResume(drained) => ResumesKeep(m.status, m.log, m.heap, m.delayed, m.lastId, x, drained);
    case OpAssign(taken, worker) => AssignOpKeeps(m, x, taken, worker);
    case OpFinish(rs) => FinishOpKeeps(m, x, rs);
    case OpWorkerDied(ids, now) =>
      DeathReportsFit(m.status.tasks, ids, now);
      DistinctRetryLast(m.status.tasks, DeathReports(m.status.tasks, ids, now));
      FinishOpKeeps(m, x, DeathReports(m.status.tasks, ids, now));
    case OpBoot(slots, workers, last) => BootKeeps(m, x, slots, workers, last);
    case OpExpire(ids, _) => ExpiriesKeep(m.status, m.log, m.heap, m.delayed, m.lastId, x, ids);
  }

  lemma BootKeeps(m: Mem, x: set<int>, slots: map<string, int>, workers: set<string>, last: int)
    requires GoodBut(m, x) && KnowsIds(m.status, last)
    ensures GoodBut(Booted(m.status, m.log, slots, workers, last), {})
  {
    var t := m.status.(slots := slots);
    forall tx, i | tx in t.transactions && 0 <= i < |t.transactions[tx]| ensures NewTaskOk(t, t.transactions[tx][i], last) {
      assert InPlace(m.status, tx, i) && NewTaskOk(m.status, m.status.transactions[tx][i], m.lastId);
    }
    assert forall tx, i :: InPlace(t, tx, i) <==> InPlace(m.status, tx, i);
  }

  lemma AssignOpKeeps(m: Mem, x: set<int>, taken: seq<TakenTask>, worker: string)
    requires GoodBut(m, x) && multiset(Ids(taken)) <= m.heap && Assign(m, taken, worker).Some?
    ensures GoodBut(Assign(m, taken, worker).value, x)
  {
    if worker != "" {
      AssignsKeep(m.status.tasks, m.status, m.log, m.heap, m.delayed, m.lastId, x, taken, worker);
    } else if taken == [] {
      assert m.log + [] == m.log && m.heap - multiset([]) == m.heap;
    } else {
      NoWorkerThrows(m, x, taken);
    }
  }

  lemma NoWorkerThrows(m: Mem, x: set<int>, taken: seq<TakenTask>)
    requires GoodBut(m, x) && multiset(Ids(taken)) <= m.heap && taken != []
    ensures Assign(m, taken, "").None?
  {
    HeadOfHeap(taken, m.status.tasks, m.heap);
    assert AssignEdits(m.status.tasks, taken, "")[0].AssignTask?;
  }

  lemma OpKeepsGood(m: Mem, op: Op)
    requires GoodMem(m) && Fits(m, op) && Do(m, op).Some?
    ensures GoodMem(Do(m, op).value)
  {
    OpKeeps(m, StrandedIn(m), op);
    StrandedAre(Do(m, op).value, Stranding(m, StrandedIn(m), op));
  }

  lemma {:induction false} RunsKeep(m: Mem, x: set<int>, ops: seq<Op>, end: Mem)
    requires GoodBut(m, x) && Runs(m, ops, end)
    ensures GoodBut(end, StrandedBy(m, ops, x))
    decreases |ops|
  {
    if ops != [] {
      OpKeeps(m, x, ops[0]);
      RunsKeep(Do(m, ops[0]).value, Stranding(m, x, ops[0]), ops[1..], end);
    }
  }

  // ---- Main results ----

  /**
   * After every run, boots among it, the heap holds exactly the waiting ids, each once, and the delayed queue the delayed ones and those
   * that expiry stranded there, each once; so both agree with the statuses exactly when none is stranded.
   */
  lemma QueuesAgreeWithStatus(ops: seq<Op>, end: Mem)
    requires Runs(FRESH, ops, end)
    ensures HeapAgrees(end.status.tasks, end.heap) && DelayedAre(end.status.tasks, end.delayed, StrandedBy(FRESH, ops, {}))
    ensures forall id :: id in StrandedBy(FRESH, ops, {}) ==> Has(end.status.tasks, id, ERROR)
    ensures Agree(end.status.tasks, end.heap, end.delayed) <==> StrandedBy(FRESH, ops, {}) == {}
  {
    FreshIsGood();
    RunsKeep(FRESH, {}, ops, end);
    AgreesIffNoneStranded(end, StrandedBy(FRESH, ops, {}));
  }

  lemma FreshIsGood()
    ensures GoodBut(FRESH, {})
  {
  }

  lemma AgreesIffNoneStranded(m: Mem, x: set<int>)
    requires GoodBut(m, x)
    ensures HeapAgrees(m.status.tasks, m.heap) && DelayedAre(m.status.tasks, m.delayed, x)
    ensures forall id :: id in x ==> Has(m.status.tasks, id, ERROR)
    ensures Agree(m.status.tasks, m.heap, m.delayed) <==> x == {}
  {
    assert (forall id :: id !in x) ==> x == {};
    if x != {} {
      var id :| id in x;
      assert Has(m.status.tasks, id, ERROR) && m.delayed[id] == 1;
      assert m.delayed[id] != Bit(Has(m.status.tasks, id, DELAYED) || id in {});
    }
  }

  /** The queues are determined by the statuses, so what a boot rebuilds from them is what was there. */
  lemma QueuesAreDetermined(tasks: Tasks, heap: multiset<int>, delayed: multiset<int>, heap': multiset<int>, delayed': multiset<int>)
    requires Agree(tasks, heap, delayed) && Agree(tasks, heap', delayed')
    ensures heap == heap' && delayed == delayed'
  {
    forall id ensures heap[id] == heap'[id] && delayed[id] == delayed'[id] {}
  }

  /** Through any mix of failures, deaths and retries a task is assigned at most as often as its attempts allow. */
  lemma AssignmentsAreBounded(ops: seq<Op>, end: Mem, id: int, n: NewTask)
    requires Runs(FRESH, ops, end) && Submission(end.log, id) == Some(n) && n.maxattempts > 0
    ensures Assigns(end.log, id) <= Limit(n)
    ensures id in end.status.tasks ==> end.status.tasks[id].attempts == n.attempt + Assigns(end.log, id)
  {
    RunsKeep(FRESH, {}, ops, end);
    if id in end.status.tasks { assert Counted(end.status.tasks[id], end.log, id); }
  }

  /** A task that is not running is left alone by every batch of reports, so FINISHED and ERROR are final for them. */
  lemma {:induction false} ReportsLeaveOthers(s: Status, before: Tasks, rs: seq<Report>, id: int)
    requires id in s.tasks && id in before && before[id].status != RUNNING
    requires ApplyAll(s, FinishEdits(before, rs)).Some?
    ensures var t := ApplyAll(s, FinishEdits(before, rs)).value; id in t.tasks && t.tasks[id] == s.tasks[id]
    decreases |rs|
  {
    if rs != [] {
      var es, rest := FinishEdit(before, rs[0]), FinishEdits(before, rs[1..]);
      if es == [] {
        assert es + rest == rest;
        ReportsLeaveOthers(s, before, rs[1..], id);
      } else {
        assert es == [es[0]] && es[0].id != id;
        assert (es + rest)[1..] == rest;
        ReportsLeaveOthers(Apply(s, es[0]).value, before, rs[1..], id);
      }
    }
  }

  lemma FinalStaysFinal(m: Mem, rs: seq<Report>, id: int)
    requires id in m.status.tasks && (m.status.tasks[id].status == FINISHED || m.status.tasks[id].status == ERROR) && Finish(m, rs).Some?
    ensures var t := Finish(m, rs).value; id in t.status.tasks && t.status.tasks[id] == m.status.tasks[id]
  {
    ReportsLeaveOthers(m.status, m.status.tasks, rs, id);
  }
}
