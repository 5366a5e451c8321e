/** The broker itself: its operations change the status, the heap, the delayed queue and the counters in place. */
module TaskBroker {
  import opened Edits
  import opened ResourceNames
  import opened BrokerState
  import opened BrokerQueues
  import opened BrokerResources
  import opened BrokerOutcomes

  // ---- Counters ----

  class ResourceUsageCounters {
    var counters: map<string, int>
    var usedResources: seq<string>
    var releasedResources: seq<string>
    var clearRequested: bool

    /** A requested clear counts as done: it comes before anything that is still queued. */
    ghost function View(): Usage
      reads this
    {
      Usage(if clearRequested then map[] else counters, multiset(usedResources), multiset(releasedResources))
    }

    constructor ()
      ensures View() == Usage(map[], multiset{}, multiset{}) && usedResources == releasedResources == [] && !clearRequested
    {
      counters, usedResources, releasedResources, clearRequested := map[], [], [], false;
    }

    method UseResources(ids: Option<seq<string>>)
      modifies this
      ensures View() == old(View()).(used := old(View()).used + if ids.Some? then multiset(ids.value) else multiset{})
    {
      if ids.Some? { usedResources := usedResources + ids.value; }
    }

    method ReleaseResources(ids: Option<seq<string>>)
      modifies this
      ensures View() == old(View()).(released := old(View()).released + if ids.Some? then multiset(ids.value) else multiset{})
    {
      if ids.Some? { releasedResources := releasedResources + ids.value; }
    }

    /** A requested clear sets every counter to 0, then both queues are drained; the counters end as what was counted before. */
    method UpdateResourceCounters()
      modifies this
      ensures usedResources == releasedResources == [] && !clearRequested
      ensures SameCounts(View(), old(View()))
      ensures forall r ::
        (if r in counters then counters[r] else 0) ==
        (if r in old(counters) && !old(clearRequested) then old(counters)[r] else 0) + multiset(old(usedResources))[r] - multiset(old(releasedResources))[r]
    {
      ghost var before := View();
      if clearRequested { Clear(); }
      while releasedResources != []
        invariant !clearRequested && SameCounts(View(), old(View()))
        decreases |releasedResources|
      {
        PollReleased(counters, multiset(usedResources), releasedResources);
        var id := releasedResources[0];
        releasedResources := releasedResources[1..];
        counters := counters[id := if id in counters then counters[id] - 1 else -1];
      }
      while usedResources != []
        invariant releasedResources == [] && !clearRequested && SameCounts(View(), old(View()))
        decreases |usedResources|
      {
        PollUsed(counters, usedResources);
        var id := usedResources[0];
        usedResources := usedResources[1..];
        if id !in counters { counters := counters[id := 0]; }
        counters := counters[id := counters[id] + 1];
      }
      forall r ensures (if r in counters then counters[r] else 0) == Count(before, r) { assert Count(View(), r) == Count(before, r); }
    }

    method Clear()
      requires clearRequested
      modifies this`counters, this`clearRequested
      ensures !clearRequested && SameCounts(View(), old(View()))
      ensures counters.Keys == old(counters.Keys) && forall r :: r in counters ==> counters[r] == 0
    {
      clearRequested := false;
      var todo := counters.Keys;
      while |todo| > 0
        invariant !clearRequested && todo <= counters.Keys == old(counters.Keys)
        invariant forall r :: r in counters && r !in todo ==> counters[r] == 0
        decreases |todo|
      {
        SomeName(todo);
        var r :| r in todo;
        counters := counters[r := 0];
        todo := todo - {r};
      }
      assert todo == {};
    }
  }

  lemma PollReleased(counters: map<string, int>, used: multiset<string>, released: seq<string>)
    requires released != []
    ensures var id := released[0];
            SameCounts(Usage(counters[id := if id in counters then counters[id] - 1 else -1], used, multiset(released[1..])),
                       Usage(counters, used, multiset(released)))
  {
    assert released == [released[0]] + released[1..];
  }

  lemma PollUsed(counters: map<string, int>, used: seq<string>)
    requires used != []
    ensures var id := used[0];
            SameCounts(Usage(counters[id := if id in counters then counters[id] + 1 else 1], multiset(used[1..]), multiset{}),
                       Usage(counters, multiset(used), multiset{}))
  {
    assert used == [used[0]] + used[1..];
  }

  lemma SomeName(s: set<string>)
    requires |s| > 0
    ensures exists r :: r in s
  {
    assert s != {};
  }

  ghost predicate SameCounts(u: Usage, v: Usage) {
    forall r :: Count(u, r) == Count(v, r)
  }

  /** Equal but for what is still queued in the counters. */
  ghost predicate Same(m: Mem, n: Mem) {
    m.(usage := n.usage) == n && SameCounts(m.usage, n.usage)
  }

  // ---- What applying an edit answers ----

  datatype Outcome = Refused | NoTransaction | Done | Created(task: Task) | Committed(prepared: seq<Prepared>)

  function Effect(s: Status, e: TaskEdit): Outcome {
    match e
    case AddTask(_, task) => Created(Made(task))
    case PrepareAddTask(tx, _, task) => if tx in s.transactions then Created(Made(task)) else NoTransaction
    case CommitTransaction(tx) => if tx in s.transactions then Committed(s.transactions[tx]) else NoTransaction
    case RollbackTransaction(tx) => if tx in s.transactions then Done else NoTransaction
    case _ => Done
  }

  /** Which edits of a batch are refused for their slot. */
  function Refusals(slots: map<string, int>, edits: seq<TaskEdit>): (skip: seq<bool>)
    ensures |skip| == |edits|
    decreases |edits|
  {
    if edits == [] then [] else [RefusedBy(slots, edits[0])] + Refusals(TakenBy(slots, edits[0]), edits[1..])
  }

  function Pick(edits: seq<TaskEdit>, skip: seq<bool>): seq<TaskEdit>
    requires |skip| == |edits|
    decreases |edits|
  {
    if edits == [] then [] else (if skip[0] then [] else [edits[0]]) + Pick(edits[1..], skip[1..])
  }

  function Outcomes(s: Status, edits: seq<TaskEdit>, skip: seq<bool>): seq<Outcome>
    requires |skip| == |edits|
    decreases |edits|
  {
    if edits == [] then []
    else if skip[0] then [Refused] + Outcomes(s, edits[1..], skip[1..])
    else match Apply(s, edits[0])
      case None => []
      case Some(t) => [Effect(s, edits[0])] + Outcomes(t, edits[1..], skip[1..])
  }

  lemma {:induction false} AcceptedIsPicked(slots: map<string, int>, edits: seq<TaskEdit>)
    ensures Accepted(slots, edits) == Pick(edits, Refusals(slots, edits))
    decreases |edits|
  {
    if edits != [] {
      AcceptedIsPicked(TakenBy(slots, edits[0]), edits[1..]);
      assert Refusals(slots, edits)[1..] == Refusals(TakenBy(slots, edits[0]), edits[1..]);
    }
  }

  /** A batch without submissions is logged whole and touches no slot. */
  lemma {:induction false} NothingRefused(slots: map<string, int>, edits: seq<TaskEdit>)
    requires forall i :: 0 <= i < |edits| ==> !Submits(edits[i])
    ensures Accepted(slots, edits) == edits && Taken(slots, edits) == slots
    decreases |edits|
  {
    if edits != [] {
      NothingRefused(slots, edits[1..]);
      assert [edits[0]] + edits[1..] == edits;
    }
  }

  lemma SlotStep(slots: map<string, int>, edits: seq<TaskEdit>, i: nat, skip: seq<bool>, toLog: seq<TaskEdit>)
    requires i < |edits|
    ensures var next, e, rest := TakenBy(slots, edits[i]), edits[i], edits[i + 1..];
            && Taken(slots, edits[i..]) == Taken(next, rest)
            && skip + Refusals(slots, edits[i..]) == skip + [RefusedBy(slots, e)] + Refusals(next, rest)
            && toLog + Accepted(slots, edits[i..]) == toLog + (if RefusedBy(slots, e) then [] else [e]) + Accepted(next, rest)
  {
    assert edits[i..][0] == edits[i] && edits[i..][1..] == edits[i + 1..];
  }

  lemma PickStep(s: Status, edits: seq<TaskEdit>, skip: seq<bool>, i: nat, results: seq<Outcome>)
    requires |skip| == |edits| && i < |edits|
    ensures var rest, skipped := edits[i + 1..], skip[i + 1..];
            if skip[i] then
              && Pick(edits[i..], skip[i..]) == Pick(rest, skipped)
              && results + Outcomes(s, edits[i..], skip[i..]) == results + [Refused] + Outcomes(s, rest, skipped)
            else
              && ApplyAll(s, Pick(edits[i..], skip[i..])) ==
                 (match Apply(s, edits[i]) case None => None case Some(t) => ApplyAll(t, Pick(rest, skipped)))
              && (Apply(s, edits[i]).Some? ==>
                    results + Outcomes(s, edits[i..], skip[i..])
                    == results + [Effect(s, edits[i])] + Outcomes(Apply(s, edits[i]).value, rest, skipped))
  {
    assert edits[i..][0] == edits[i] && edits[i..][1..] == edits[i + 1..];
    assert skip[i..][0] == skip[i] && skip[i..][1..] == skip[i + 1..];
    if !skip[i] {
      var more := Pick(edits[i + 1..], skip[i + 1..]);
      assert Pick(edits[i..], skip[i..]) == [edits[i]] + more && ([edits[i]] + more)[1..] == more;
    }
  }

  /** Freeing what a failed batch may have taken. */
  function FreedAgain(slots: map<string, int>, edits: seq<TaskEdit>): map<string, int>
    decreases |edits|
  {
    if edits == [] then slots
    else FreedAgain(if Submits(edits[0]) then FreeSlot(slots, edits[0].task.slot, edits[0].id) else slots, edits[1..])
  }

  datatype Reply = Unavailable | Thrown | Applied(results: seq<Outcome>)

  class Broker {
    var status: Status
    var log: seq<TaskEdit>
    var heap: multiset<int>
    var delayed: multiset<int>
    const counters: ResourceUsageCounters
    var lastId: int

    ghost function View(): Mem
      reads this, counters
    {
      Mem(status, log, heap, delayed, counters.View(), lastId)
    }

    /** What every operation keeps as long as the log takes its edits. */
    ghost predicate Valid()
      reads this, counters
    {
      GoodMem(View())
    }

    /** A broker of a system that has never logged anything. */
    constructor ()
      ensures Valid() && View() == FRESH && fresh(counters)
    {
      counters := new ResourceUsageCounters();
      status, log, heap, delayed, lastId := FRESH.status, [], multiset{}, multiset{}, 0;
    }

    /**
     * A broker that takes over: the queues, the busy slots and the counters are rebuilt from the recovered status and the
     * workers it knows.
     */
    constructor Boot(recovered: Status, history: seq<TaskEdit>, last: int, workers: seq<string>)
      requires forall i, j :: 0 <= i < j < |workers| ==> workers[i] != workers[j]
      ensures fresh(counters) && BusySlots(recovered, status.slots)
      ensures View() == Booted(recovered, history, status.slots, Names(workers), last)
      ensures Agree(recovered.tasks, heap, delayed)
      ensures PreparedOk(recovered, last) && AttemptsOk(recovered, history) ==> Valid()
    {
      counters := new ResourceUsageCounters();
      status, log, heap, delayed, lastId := recovered, history, multiset{}, multiset{}, last;
      new;
      var busy := Rebuild(recovered);
      status := status.(slots := busy);
      StartWorkers(recovered.tasks, workers);
      RebuiltQueues(recovered.tasks, heap, delayed);
      if PreparedOk(recovered, last) && AttemptsOk(recovered, history) { BootIsGood(View(), recovered); }
    }

    method Rebuild(s: Status) returns (busy: map<string, int>)
      requires heap == delayed == multiset{}
      modifies this`heap, this`delayed
      ensures Agree(s.tasks, heap, delayed) && BusySlots(s, busy)
    {
      busy := map[];
      var todo := s.tasks.Keys;
      while |todo| > 0
        invariant todo <= s.tasks.Keys
        invariant Agree(map id | id in s.tasks && id !in todo :: s.tasks[id], heap, delayed)
        invariant forall slot :: slot in busy ==> Occupies(s, busy[slot], slot)
        invariant forall id, slot :: id in s.tasks && id !in todo && TaskOccupies(s.tasks[id], slot) ==> slot in busy
        decreases |todo|
      {
        SomeMember(todo);
        var id :| id in todo;
        var task := s.tasks[id];
        if task.status == WAITING {
          heap := heap + multiset{id};
        } else if task.status == DELAYED {
          delayed := delayed + multiset{id};
        }
        if task.status == WAITING || task.status == DELAYED || task.status == RUNNING {
          if task.slot.Some? && task.slot.value != "" { busy := busy[task.slot.value := id]; }
        }
        todo := todo - {id};
      }
      assert (map id | id in s.tasks && id !in todo :: s.tasks[id]) == s.tasks;
      busy := RebuildPrepared(s, busy);
    }

    method RebuildPrepared(s: Status, fromTasks: map<string, int>) returns (busy: map<string, int>)
      requires forall slot :: slot in fromTasks ==> Occupies(s, fromTasks[slot], slot)
      requires forall id, slot :: id in s.tasks && TaskOccupies(s.tasks[id], slot) ==> slot in fromTasks
      ensures BusySlots(s, busy)
    {
      busy := fromTasks;
      var todo := s.transactions.Keys;
      while |todo| > 0
        invariant todo <= s.transactions.Keys && fromTasks.Keys <= busy.Keys
        invariant forall slot :: slot in busy ==> Occupies(s, busy[slot], slot)
        invariant forall tx, i, slot :: tx in s.transactions && tx !in todo && PreparedOccupies(s, tx, i, slot) ==> slot in busy
        decreases |todo|
      {
        SomeMember(todo);
        var tx :| tx in todo;
        var ps := s.transactions[tx];
        for i := 0 to |ps|
          invariant fromTasks.Keys <= busy.Keys
          invariant forall slot :: slot in busy ==> Occupies(s, busy[slot], slot)
          invariant forall ty, k, slot :: ty in s.transactions && ty !in todo && PreparedOccupies(s, ty, k, slot) ==> slot in busy
          invariant forall k, slot :: k < i && PreparedOccupies(s, tx, k, slot) ==> slot in busy
        {
          if ps[i].task.slot.Some? && ps[i].task.slot.value != "" {
            assert PreparedOccupies(s, tx, i, ps[i].task.slot.value);
            busy := busy[ps[i].task.slot.value := ps[i].id];
          }
        }
        todo := todo - {tx};
      }
    }

    /** Each worker's running tasks use their resources again. */
    method StartWorkers(tasks: Tasks, workers: seq<string>)
      requires forall i, j :: 0 <= i < j < |workers| ==> workers[i] != workers[j]
      requires counters.View() == Usage(map[], multiset{}, multiset{})
      modifies counters
      ensures counters.View() == Usage(map[], Sum(KnownRunning(tasks, Names(workers))), multiset{})
    {
      for i := 0 to |workers|
        invariant counters.View() == Usage(map[], Sum(KnownRunning(tasks, Names(workers[..i]))), multiset{})
      {
        ghost var seen := Names(workers[..i]);
        StartWorker(tasks, workers[i], seen);
        MoreWorkers(workers, i);
      }
      assert workers[..|workers|] == workers;
    }

    method StartWorker(tasks: Tasks, worker: string, ghost started: set<string>)
      requires worker !in started && counters.View() == Usage(map[], Sum(KnownRunning(tasks, started)), multiset{})
      modifies counters
      ensures counters.View() == Usage(map[], Sum(KnownRunning(tasks, started + {worker})), multiset{})
    {
      var todo := tasks.Keys;
      KnownEnds(tasks, started, worker);
      while |todo| > 0
        invariant todo <= tasks.Keys
        invariant counters.View() == Usage(map[], Sum(KnownPart(tasks, started, worker, todo)), multiset{})
        decreases |todo|
      {
        SomeMember(todo);
        var id :| id in todo;
        KnownGrows(tasks, started, worker, todo, id);
        if tasks[id].worker == Some(worker) && tasks[id].status == RUNNING {
          counters.UseResources(SplitList(tasks[id]));
        }
        todo := todo - {id};
      }
      assert todo == {};
    }

    // ---- Applying ----

    /** One edit is applied to the status; `thrown` leaves the broker unusable. */
    method ApplyEdit(e: TaskEdit) returns (thrown: bool, outcome: Outcome)
      modifies this`status
      ensures thrown <==> Apply(old(status), e) == None
      ensures !thrown ==> Apply(old(status), e) == Some(status) && outcome == Effect(old(status), e)
    {
      thrown, outcome := false, Done;
      match e {
        case AssignTask(id, worker, attempt, resources) =>
          if id !in status.tasks || worker == "" { return true, Done; }
          var task := status.tasks[id].(status := RUNNING, worker := Some(worker), attempts := attempt);
          if resources.Some? { task := task.(resources := resources); }
          status := status.(tasks := status.tasks[id := task]);
        case StatusChange(id, to) =>
          if id !in status.tasks { return true, Done; }
          var task := status.tasks[id].(status := to);
          status := status.(tasks := status.tasks[id := task]);
          if task.slot.Some? && (to == FINISHED || to == ERROR) {
            status := status.(slots := FreeSlot(status.slots, task.slot, id));
          }
        case AddTask(id, task) =>
          var made := Made(task);
          status := status.(tasks := status.tasks[id := made], slots := TakeSlot(status.slots, task.slot, id));
          outcome := Created(made);
        case PrepareAddTask(tx, id, task) =>
          if tx !in status.transactions { return false, NoTransaction; }
          var made := Made(task);
          status := status.(transactions := status.transactions[tx := status.transactions[tx] + [Prepared(id, made)]],
                            slots := TakeSlot(status.slots, task.slot, id));
          outcome := Created(made);
        case BeginTransaction(tx) =>
          status := status.(transactions := status.transactions[tx := []]);
        case CommitTransaction(tx) =>
          if tx !in status.transactions { return false, NoTransaction; }
          var prepared := status.transactions[tx];
          var tasks := status.tasks;
          for i := 0 to |prepared|
            invariant PutAll(tasks, prepared[i..]) == PutAll(status.tasks, prepared)
          {
            tasks := tasks[prepared[i].id := prepared[i].task];
          }
          status := status.(tasks := tasks, transactions := status.transactions - {tx});
          outcome := Committed(prepared);
        case RollbackTransaction(tx) =>
          if tx !in status.transactions { return false, NoTransaction; }
          var prepared := status.transactions[tx];
          var slots := status.slots;
          for i := 0 to |prepared|
            invariant FreeSlots(slots, prepared[i..]) == FreeSlots(status.slots, prepared)
          {
            if prepared[i].task.slot.Some? && prepared[i].task.slot.value != "" {
              slots := FreeSlot(slots, prepared[i].task.slot, prepared[i].id);
            }
          }
          status := status.(slots := slots, transactions := status.transactions - {tx});
      }
    }

    /** Slots first, for the whole batch; then the log; then each logged edit is applied. */
    method ApplyModifications(edits: seq<TaskEdit>, available: bool) returns (reply: Reply)
      modifies this`status, this`log
      ensures available <==> !reply.Unavailable?
      ensures reply.Unavailable? ==>
        log == old(log) && status == old(status).(slots := FreedAgain(Taken(old(status.slots), edits), edits))
      ensures available ==> log == old(log) + Accepted(old(status.slots), edits)
      ensures available ==> (reply.Thrown? <==> ApplyAll(Seized(old(status), edits), Accepted(old(status.slots), edits)) == None)
      ensures reply.Applied? ==>
        && ApplyAll(Seized(old(status), edits), Accepted(old(status.slots), edits)) == Some(status)
        && reply.results == Outcomes(Seized(old(status), edits), edits, Refusals(old(status.slots), edits))
        && |reply.results| == |edits|
    {
      ghost var slots0 := status.slots;
      var skip, toLog := ReserveSlots(edits);
      AcceptedIsPicked(slots0, edits);
      if !available {
        for i := 0 to |edits|
          invariant status == old(status).(slots := status.slots) && log == old(log)
          invariant FreedAgain(status.slots, edits[i..]) == FreedAgain(Taken(slots0, edits), edits)
        {
          if Submits(edits[i]) { status := status.(slots := FreeSlot(status.slots, edits[i].task.slot, edits[i].id)); }
        }
        assert edits[|edits|..] == [];
        return Unavailable;
      }
      log := log + toLog;
      reply := ApplyLogged(edits, skip);
    }

    method ReserveSlots(edits: seq<TaskEdit>) returns (skip: seq<bool>, toLog: seq<TaskEdit>)
      modifies this`status
      ensures status == Seized(old(status), edits)
      ensures skip == Refusals(old(status.slots), edits) && toLog == Accepted(old(status.slots), edits)
    {
      skip, toLog := [], [];
      for i := 0 to |edits|
        invariant status == old(status).(slots := status.slots)
        invariant skip + Refusals(status.slots, edits[i..]) == Refusals(old(status.slots), edits)
        invariant toLog + Accepted(status.slots, edits[i..]) == Accepted(old(status.slots), edits)
        invariant Taken(status.slots, edits[i..]) == Taken(old(status.slots), edits)
      {
        var e := edits[i];
        SlotStep(status.slots, edits, i, skip, toLog);
        if Submits(e) && e.task.slot.Some? {
          if e.task.slot.value in status.slots {
            skip := skip + [true];
          } else {
            status := status.(slots := status.slots[e.task.slot.value := e.id]);
            skip, toLog := skip + [false], toLog + [e];
          }
        } else {
          skip, toLog := skip + [false], toLog + [e];
        }
      }
      assert edits[|edits|..] == [];
    }

    method ApplyLogged(edits: seq<TaskEdit>, skip: seq<bool>) returns (reply: Reply)
      requires |skip| == |edits|
      modifies this`status
      ensures !reply.Unavailable?
      ensures reply.Thrown? <==> ApplyAll(old(status), Pick(edits, skip)) == None
      ensures reply.Applied? ==> ApplyAll(old(status), Pick(edits, skip)) == Some(status)
      ensures reply.Applied? ==> reply.results == Outcomes(old(status), edits, skip) && |reply.results| == |edits|
    {
      var results := [];
      for i := 0 to |edits|
        invariant |results| == i
        invariant ApplyAll(status, Pick(edits[i..], skip[i..])) == ApplyAll(old(status), Pick(edits, skip))
        invariant results + Outcomes(status, edits[i..], skip[i..]) == Outcomes(old(status), edits, skip)
      {
        PickStep(status, edits, skip, i, results);
        if skip[i] {
          results := results + [Refused];
        } else {
          var thrown, outcome := ApplyEdit(edits[i]);
          if thrown { return Thrown; }
          results := results + [outcome];
        }
      }
      assert edits[|edits|..] == [] && skip[|skip|..] == [];
      reply := Applied(results);
    }

    // ---- Operations ----

    /** addTask is the same for a single request.  Answers the new ids, 0 for a refused one; nothing when the log is gone. */
    method AddTasks(requests: seq<Request>, available: bool) returns (ids: Option<seq<int>>)
      modifies this
      ensures available <==> ids.Some?
      ensures available ==> Add(old(View()), requests) == Some(View())
      ensures available ==> ids.value == Answers(old(View()), requests)
      // a submission whose slot is free when its turn comes is answered with the next id, one for an unknown transaction and
      // every other with 0
      ensures available ==> |ids.value| == |requests| && lastId == old(lastId) + |requests|
      ensures available ==> forall i :: 0 <= i < |requests| ==>
        ids.value[i] == if Admits(old(status.slots), requests, i) && (requests[i].tx <= 0 || requests[i].tx in old(status.transactions))
                        then old(lastId) + 1 + i else 0
      // its task is in the status and its queue, or in its transaction
      ensures available ==> forall i :: 0 <= i < |requests| && Admits(old(status.slots), requests, i) ==>
        var id, task, tx := old(lastId) + 1 + i, Submitted(requests[i].task), requests[i].tx;
        if tx <= 0
        then id in status.tasks && status.tasks[id] == task
             && heap[id] == old(heap)[id] + (if requests[i].task.later then 0 else 1)
             && delayed[id] == old(delayed)[id] + (if requests[i].task.later then 1 else 0)
        else tx in old(status.transactions) ==> tx in status.transactions && Prepared(id, task) in status.transactions[tx]
      // and nothing else has changed but the slots
      ensures available ==> forall id :: AddedAt(old(View()), requests, id) || LeftAlone(old(View()), View(), id)
      ensures available ==>
        status.transactions.Keys == old(status.transactions.Keys)
        && forall tx :: tx in status.transactions ==> old(status.transactions)[tx] <= status.transactions[tx]
      ensures !available ==> View() == old(View()).(lastId := lastId, status := status) && lastId == old(lastId) + |requests|
      ensures !available && HoldersBelow(old(status.slots), old(lastId)) ==> status == old(status)
      ensures available && old(Valid()) ==> Valid()
    {
      ghost var m := View();
      AddApplies(m, requests);
      var edits := NewEdits(requests);
      FailedBatchRestoresSlots(m.status.slots, edits, m.lastId);
      var reply := ApplyModifications(edits, available);
      if !available { return None; }
      var answers := EnqueueAdded(edits, reply.results);
      AddIs(m, requests, View());
      SubmissionOutcomes(m, requests, View());
      SubmissionsLeave(m, requests, View());
      ids := Some(answers);
      if GoodMem(m) { OperationsKeepValid(m, OpAdd(requests), View()); }
    }

    method NewEdits(requests: seq<Request>) returns (edits: seq<TaskEdit>)
      modifies this`lastId
      ensures edits == EditsFor(requests, old(lastId)) && lastId == old(lastId) + |requests|
    {
      edits := [];
      for i := 0 to |requests|
        invariant lastId == old(lastId) + i
        invariant edits + EditsFor(requests[i..], lastId) == EditsFor(requests, old(lastId))
      {
        lastId := lastId + 1;
        edits := edits + [EditFor(requests[i], lastId)];
      }
      assert requests[|requests|..] == [];
    }

    method EnqueueAdded(edits: seq<TaskEdit>, results: seq<Outcome>) returns (answers: seq<int>)
      requires |results| == |edits|
      modifies this`heap, this`delayed
      ensures heap == Enqueued(old(heap), edits, results, WAITING) && delayed == Enqueued(old(delayed), edits, results, DELAYED)
      ensures |answers| == |edits| && forall k :: 0 <= k < |edits| ==> answers[k] == Answer(edits[k], results[k])
    {
      answers := [];
      for i := 0 to |edits|
        invariant |answers| == i && forall k :: 0 <= k < i ==> answers[k] == Answer(edits[k], results[k])
        invariant Enqueued(heap, edits[i..], results[i..], WAITING) == Enqueued(old(heap), edits, results, WAITING)
        invariant Enqueued(delayed, edits[i..], results[i..], DELAYED) == Enqueued(old(delayed), edits, results, DELAYED)
      {
        assert edits[i..][1..] == edits[i + 1..] && results[i..][1..] == results[i + 1..];
        var e := edits[i];
        if e.AddTask? && results[i].Created? {
          if results[i].task.status == WAITING { heap := heap + multiset{e.id}; }
          if results[i].task.status == DELAYED { delayed := delayed + multiset{e.id}; }
        }
        answers := answers + [Answer(e, results[i])];
      }
      assert edits[|edits|..] == [] && results[|edits|..] == [];
    }

    method StartTransaction(tx: int, available: bool) returns (ok: bool)
      modifies this
      ensures ok == available
      ensures View() == if ok then Begin(old(View()), tx) else old(View())
      // an empty transaction is open, and nothing else has changed
      ensures ok ==> status == old(status).(transactions := old(status.transactions)[tx := []]) && heap == old(heap) && delayed == old(delayed)
      ensures old(Valid()) && tx !in old(status.transactions) ==> Valid()
    {
      ghost var m := View();
      ok := available;
      if available {
        log := log + [BeginTransaction(tx)];
        var _, _ := ApplyEdit(BeginTransaction(tx));
        if GoodMem(m) && tx !in m.status.transactions { OperationsKeepValid(m, OpBegin(tx), View()); }
      }
    }

    /** Answers whether the transaction was known, and the edit is logged either way; nothing when the log is gone. */
    method CommitPrepared(tx: int, available: bool) returns (known: Option<bool>)
      modifies this
      ensures known == if available then Some(tx in old(status.transactions)) else None
      ensures View() == if available then Commit(old(View()), tx) else old(View())
      // each prepared task is in the status as it was prepared, and in the queue of its status; nothing else has changed
      ensures available ==>
        status.slots == old(status.slots) && status.transactions == old(status.transactions) - {tx} && log == old(log) + [CommitTransaction(tx)]
      ensures available && tx !in old(status.transactions) ==> status == old(status) && heap == old(heap) && delayed == old(delayed)
      ensures available && tx in old(status.transactions) && (old(Valid()) || DistinctPrepared(old(status.transactions)[tx])) ==>
        var ps := old(status.transactions)[tx];
        && (forall i :: 0 <= i < |ps| ==>
              && ps[i].id in status.tasks && status.tasks[ps[i].id] == ps[i].task
              && heap[ps[i].id] == old(heap)[ps[i].id] + (if ps[i].task.status == WAITING then 1 else 0)
              && delayed[ps[i].id] == old(delayed)[ps[i].id] + (if ps[i].task.status == DELAYED then 1 else 0))
        && (forall id :: (forall i :: 0 <= i < |ps| ==> ps[i].id != id) ==>
              && (id in status.tasks <==> id in old(status.tasks)) && (id in status.tasks ==> status.tasks[id] == old(status.tasks)[id])
              && heap[id] == old(heap)[id] && delayed[id] == old(delayed)[id])
      ensures old(Valid()) ==> Valid()
    {
      ghost var m := View();
      if !available { return None; }
      var done := LogCommit(tx);
      PreparedAreDistinct(m, tx);
      if tx in m.status.transactions && DistinctPrepared(m.status.transactions[tx]) { CommittedTasks(m, tx); }
      known := Some(done);
    }

    method LogCommit(tx: int) returns (known: bool)
      modifies this
      ensures known == (tx in old(status.transactions)) && View() == Commit(old(View()), tx)
      ensures old(Valid()) ==> Valid()
    {
      ghost var m := View();
      var e := CommitTransaction(tx);
      log := log + [e];
      var thrown, outcome := ApplyEdit(e);
      known := !outcome.NoTransaction?;
      if known { EnqueuePrepared(outcome.prepared); }
      if GoodMem(m) { OperationsKeepValid(m, OpCommit(tx), View()); }
    }

    method EnqueuePrepared(prepared: seq<Prepared>)
      modifies this`heap, this`delayed
      ensures heap == old(heap) + IdsWith(prepared, WAITING) && delayed == old(delayed) + IdsWith(prepared, DELAYED)
    {
      for i := 0 to |prepared|
        invariant heap + IdsWith(prepared[i..], WAITING) == old(heap) + IdsWith(prepared, WAITING)
        invariant delayed + IdsWith(prepared[i..], DELAYED) == old(delayed) + IdsWith(prepared, DELAYED)
      {
        IdsStep(prepared, i, heap, WAITING);
        IdsStep(prepared, i, delayed, DELAYED);
        if prepared[i].task.status == WAITING { heap := heap + multiset{prepared[i].id}; }
        if prepared[i].task.status == DELAYED { delayed := delayed + multiset{prepared[i].id}; }
      }
      assert prepared[|prepared|..] == [];
      assert heap + multiset{} == heap && delayed + multiset{} == delayed;
    }

    method RollbackPrepared(tx: int, available: bool) returns (known: Option<bool>)
      modifies this
      ensures known == if available then Some(tx in old(status.transactions)) else None
      ensures View() == if available then Rollback(old(View()), tx) else old(View())
      // the prepared tasks are gone with the transaction, and no task and no queue has changed
      ensures status.tasks == old(status.tasks) && heap == old(heap) && delayed == old(delayed)
      ensures available ==> status.transactions == old(status.transactions) - {tx} && log == old(log) + [RollbackTransaction(tx)]
      // of the busy slots exactly the named ones that its tasks hold are freed
      ensures available && tx in old(status.transactions) ==>
        var ps, slots := old(status.transactions)[tx], old(status.slots);
        forall slot ::
          && (slot in status.slots <==>
                slot in slots && !(slot != "" && exists i :: 0 <= i < |ps| && ps[i].task.slot == Some(slot) && ps[i].id == slots[slot]))
          && (slot in status.slots ==> status.slots[slot] == slots[slot])
      ensures old(Valid()) ==> Valid()
    {
      ghost var m := View();
      if !available { return None; }
      var done := LogRollback(tx);
      if tx in m.status.transactions {
        forall slot { FreedExactly(m.status.slots, m.status.transactions[tx], slot); }
      }
      known := Some(done);
    }

    method LogRollback(tx: int) returns (known: bool)
      modifies this
      ensures known == (tx in old(status.transactions)) && View() == Rollback(old(View()), tx)
      ensures old(Valid()) ==> Valid()
    {
      ghost var m := View();
      var e := RollbackTransaction(tx);
      log := log + [e];
      var thrown, outcome := ApplyEdit(e);
      known := !outcome.NoTransaction?;
      if GoodMem(m) { OperationsKeepValid(m, OpRollback(tx), View()); }
    }

    /** A batch that submits nothing touches no slot beforehand. */
    method ApplyChanges(edits: seq<TaskEdit>, available: bool) returns (reply: Reply)
      requires forall i :: 0 <= i < |edits| ==> !Submits(edits[i])
      modifies this`status, this`log
      ensures available <==> !reply.Unavailable?
      ensures reply.Unavailable? ==> log == old(log) && status == old(status)
      ensures available ==> log == old(log) + edits
      ensures available ==> (reply.Thrown? <==> ApplyAll(old(status), edits) == None)
      ensures reply.Applied? ==> ApplyAll(old(status), edits) == Some(status)
    {
      NothingRefused(status.slots, edits);
      NothingFreed(status.slots, edits);
      assert Seized(status, edits) == status;
      reply := ApplyModifications(edits, available);
    }

    method Insert(ids: seq<int>)
      modifies this`heap
      ensures heap == old(heap) + multiset(ids)
    {
      for i := 0 to |ids|
        invariant heap == old(heap) + multiset(ids[..i])
      {
        assert ids[..i + 1] == ids[..i] + [ids[i]];
        heap := heap + multiset{ids[i]};
      }
      assert ids[..|ids|] == ids;
    }

    /** Of the tasks whose delay is over, at most a thousand are resumed at once. */
    method ResumeDelayedTasks(due: seq<int>, available: bool) returns (reply: Reply)
      requires multiset(due) <= delayed
      modifies this
      ensures available <==> !reply.Unavailable?
      ensures reply.Applied? ==> Resume(old(View()), FirstOf(due)) == Some(View())
      // the first thousand that are due, or all of them, wait in the heap instead of the delayed queue; other tasks have not changed
      ensures var first := if |due| <= 1000 then due else due[..1000];
        && (reply.Applied? <==> available && forall i :: 0 <= i < |first| ==> first[i] in old(status.tasks))
        && (reply.Applied? ==>
              && heap == old(heap) + multiset(first) && delayed == old(delayed) - multiset(first)
              && status.tasks.Keys == old(status.tasks.Keys)
              && forall id :: id in status.tasks ==>
                   status.tasks[id] == if id in first then old(status.tasks)[id].(status := WAITING) else old(status.tasks)[id])
      ensures reply.Thrown? ==> Resume(old(View()), FirstOf(due)) == None
      ensures reply.Unavailable? ==> View() == old(View()).(delayed := old(delayed) - multiset(FirstOf(due)))
      ensures reply.Applied? && old(Valid()) ==> Valid()
    {
      ghost var m := View();
      ResumedTasks(m, FirstOf(due));
      reply := ResumeDrained(FirstOf(due), available);
      if reply.Applied? && GoodMem(m) { ResumeKeepsValid(m, due, View()); }
    }

    method ResumeDrained(drained: seq<int>, available: bool) returns (reply: Reply)
      modifies this
      ensures available <==> !reply.Unavailable?
      ensures reply.Applied? ==> Resume(old(View()), drained) == Some(View())
      ensures reply.Thrown? ==> Resume(old(View()), drained) == None
      ensures reply.Unavailable? ==> View() == old(View()).(delayed := old(delayed) - multiset(drained))
    {
      ghost var m := View();
      delayed := delayed - multiset(drained);
      var edits := ChangeEdits(drained, WAITING);
      ChangesAreNoSubmissions(drained, WAITING);
      reply := ApplyChanges(edits, available);
      if reply.Applied? {
        Insert(drained);
        ResumeIs(m, drained, View());
      }
    }

    method ChangeEdits(ids: seq<int>, to: TaskStatus) returns (edits: seq<TaskEdit>)
      ensures edits == Changes(ids, to)
    {
      edits := [];
      for i := 0 to |ids|
        invariant edits + Changes(ids[i..], to) == Changes(ids, to)
      {
        edits := edits + [StatusChange(ids[i], to)];
      }
      assert ids[|ids|..] == [];
    }

    /** The heap gives out some of its entries; each task still known is logged as assigned, and then its resources are counted. */
    method AssignTasksToWorker(taken: seq<TakenTask>, worker: string, available: bool) returns (reply: Reply)
      requires multiset(Ids(taken)) <= heap && DistinctTaken(taken)
      modifies this, counters
      ensures available <==> !reply.Unavailable?
      ensures reply.Applied? ==> Assign(old(View()), taken, worker).Some? && Same(View(), Assign(old(View()), taken, worker).value)
      ensures reply.Thrown? ==> Assign(old(View()), taken, worker) == None
      ensures reply.Unavailable? ==> Same(View(), old(View()).(heap := old(heap) - multiset(Ids(taken))))
      // each task given out that is still known runs on this worker, one attempt further, whatever it ran on before
      ensures reply.Applied? <==> available && (worker != "" || forall i :: 0 <= i < |taken| ==> taken[i].id !in old(status.tasks))
      ensures reply.Applied? ==> status.tasks.Keys == old(status.tasks.Keys) && heap == old(heap) - multiset(Ids(taken)) && delayed == old(delayed)
      ensures reply.Applied? ==> forall i :: 0 <= i < |taken| && taken[i].id in old(status.tasks) ==>
        var t, given := old(status.tasks)[taken[i].id], taken[i].resourceIds;
        status.tasks[taken[i].id] == t.(status := RUNNING, worker := Some(worker), attempts := t.attempts + 1,
                                        resources := if given.Some? then Some(Join(given.value)) else t.resources)
      ensures reply.Applied? ==> forall id :: id in old(status.tasks) && (forall i :: 0 <= i < |taken| ==> taken[i].id != id) ==>
        status.tasks[id] == old(status.tasks)[id]
      ensures reply.Applied? && old(Valid()) ==> Valid()
    {
      AssignedTasks(status.tasks, status, taken, worker);
      reply := GiveOut(taken, worker, available);
    }

    method GiveOut(taken: seq<TakenTask>, worker: string, available: bool) returns (reply: Reply)
      requires multiset(Ids(taken)) <= heap && DistinctTaken(taken)
      modifies this, counters
      ensures available <==> !reply.Unavailable?
      ensures reply.Applied? ==> Assign(old(View()), taken, worker).Some? && Same(View(), Assign(old(View()), taken, worker).value)
      ensures reply.Thrown? ==> Assign(old(View()), taken, worker) == None
      ensures reply.Unavailable? ==> Same(View(), old(View()).(heap := old(heap) - multiset(Ids(taken))))
      ensures reply.Applied? && old(Valid()) ==> Valid()
    {
      ghost var m := View();
      counters.UpdateResourceCounters();
      ghost var drained := counters.View();
      heap := heap - multiset(Ids(taken));
      reply := LogAssignments(taken, worker, available);
      if reply.Applied? {
        AssignIs(m, taken, worker, View(), drained);
        if GoodMem(m) { OperationsKeepValid(m, OpAssign(taken, worker), View()); }
      }
    }

    method LogAssignments(taken: seq<TakenTask>, worker: string, available: bool) returns (reply: Reply)
      requires DistinctTaken(taken)
      modifies this`status, this`log, counters
      ensures available <==> !reply.Unavailable?
      ensures reply.Unavailable? ==> View() == old(View())
      ensures reply.Thrown? ==> ApplyAll(old(status), AssignEdits(old(status.tasks), taken, worker)) == None
      ensures reply.Applied? ==>
        && ApplyAll(old(status), AssignEdits(old(status.tasks), taken, worker)) == Some(status)
        && log == old(log) + AssignEdits(old(status.tasks), taken, worker)
        && counters.View() == old(counters.View()).(used := old(counters.View()).used + Used(old(status.tasks), taken))
    {
      ghost var tasks := status.tasks;
      var edits, resources := AssignmentsFor(taken, worker);
      AssignEditsSubmitNothing(tasks, taken, worker);
      reply := ApplyChanges(edits, available);
      if reply.Applied? { CountAssigned(tasks, taken, worker, edits, resources); }
    }

    method CountAssigned(ghost tasks: Tasks, ghost taken: seq<TakenTask>, ghost worker: string, edits: seq<TaskEdit>,
                         resources: map<int, Option<seq<string>>>)
      requires edits == AssignEdits(tasks, taken, worker) && ListsTaken(tasks, taken, resources)
      modifies counters
      ensures counters.View() == old(counters.View()).(used := old(counters.View()).used + Used(tasks, taken))
    {
      AssignEditsSubmitNothing(tasks, taken, worker);
      CountUsed(edits, resources);
      UsedIsListed(tasks, taken, worker, resources);
    }

    method AssignmentsFor(taken: seq<TakenTask>, worker: string) returns (edits: seq<TaskEdit>, resources: map<int, Option<seq<string>>>)
      requires DistinctTaken(taken)
      ensures edits == AssignEdits(status.tasks, taken, worker)
      ensures ListsTaken(status.tasks, taken, resources)
    {
      edits, resources := [], map[];
      for i := 0 to |taken|
        invariant edits + AssignEdits(status.tasks, taken[i..], worker) == AssignEdits(status.tasks, taken, worker)
        invariant ListsTaken(status.tasks, taken[..i], resources)
      {
        assert taken[i..][1..] == taken[i + 1..];
        var id := taken[i].id;
        if id in status.tasks {
          edits := edits + [AssignTask(id, worker, status.tasks[id].attempts + 1, Listed(taken[i].resourceIds))];
          resources := resources[id := taken[i].resourceIds];
        }
      }
      assert taken[|taken|..] == [] && taken[..|taken|] == taken;
    }

    method CountUsed(edits: seq<TaskEdit>, resources: map<int, Option<seq<string>>>)
      requires forall i :: 0 <= i < |edits| ==> edits[i].AssignTask?
      modifies counters
      ensures counters.View() == old(counters.View()).(used := old(counters.View()).used + Listing(edits, resources))
    {
      for i := 0 to |edits|
        invariant counters.View() == old(counters.View()).(used := counters.View().used)
        invariant counters.View().used + Listing(edits[i..], resources) == old(counters.View()).used + Listing(edits, resources)
      {
        ListingStep(edits, i, resources, counters.View().used);
        var id := edits[i].id;
        if id in resources { counters.UseResources(resources[id]); }
      }
      assert edits[|edits|..] == [];
      assert counters.View().used + multiset{} == counters.View().used;
    }

    /** Reports are judged first, then logged, then their resources are released, and last the tasks to retry are enqueued. */
    method TasksFinished(reports: seq<Report>, available: bool) returns (reply: Reply)
      modifies this, counters
      ensures reply.Unavailable? ==> !available && View() == old(View())
      ensures reply.Applied? ==> available && Finish(old(View()), reports) == Some(View())
      ensures reply.Thrown? ==> Finish(old(View()), reports) == None
      // a batch is refused exactly for a status no execution ends in
      ensures reply.Thrown? <==>
        exists i :: 0 <= i < |reports| && Has(old(status.tasks), reports[i].id, RUNNING) && (reports[i].final == WAITING || reports[i].final == RUNNING)
      ensures reply.Unavailable? ==> !available
      ensures reply.Applied? ==> status.tasks.Keys == old(status.tasks.Keys) && delayed == old(delayed)
      // a running task named once: a success finishes it, a failure sets it back to waiting, once in the heap, as long as it has
      // attempts left and its deadline has not passed, and fails it otherwise
      ensures reply.Applied? ==>
        forall i :: 0 <= i < |reports| && Once(reports, i) && Has(old(status.tasks), reports[i].id, RUNNING) ==>
          var id, t := reports[i].id, old(status.tasks)[reports[i].id];
          && status.tasks[id] == t.(status :=
               if reports[i].final == FINISHED then FINISHED
               else if reports[i].final == DELAYED then RUNNING
               else if (t.maxattempts <= 0 || t.attempts < t.maxattempts) && (t.deadline <= 0 || reports[i].now <= t.deadline) then WAITING
               else ERROR)
          && heap[id] == old(heap)[id] + (if status.tasks[id].status == WAITING then 1 else 0)
          && (old(Valid()) ==> old(heap)[id] == 0)
      // a task that is not running, or not named, is left alone
      ensures reply.Applied? ==>
        forall id :: !Has(old(status.tasks), id, RUNNING) || (forall i :: 0 <= i < |reports| ==> reports[i].id != id) ==>
          heap[id] == old(heap)[id] && (id in old(status.tasks) ==> status.tasks[id] == old(status.tasks)[id])
      // and the list of each task whose execution is over is released once
      ensures reply.Applied? && DistinctReports(reports) ==>
        counters.View() == old(counters.View()).(released := old(counters.View()).released + Sum(OverLists(old(status.tasks), reports)))
      ensures reply.Applied? && old(Valid()) && RetriesLast(old(status.tasks), reports) ==> Valid()
    {
      ghost var m := View();
      reply := FinishReported(reports, available);
      if reply.Applied? { FinishOutcomes(m, reports, View()); }
    }

    method FinishReported(reports: seq<Report>, available: bool) returns (reply: Reply)
      modifies this, counters
      ensures reply.Unavailable? ==> !available && View() == old(View())
      ensures reply.Applied? ==> available && Finish(old(View()), reports) == Some(View())
      ensures reply.Thrown? ==> Finish(old(View()), reports) == None
      ensures reply.Thrown? <==> exists i :: 0 <= i < |reports| && Bad(old(status.tasks), reports[i])
      ensures reply.Applied? && old(Valid()) && RetriesLast(old(status.tasks), reports) ==> Valid()
    {
      ghost var m := View();
      var bad, edits, resources, toSchedule := Judge(reports);
      if bad { return Thrown; }
      StatusAfter(status.tasks, status, reports);
      FinishEditsChange(status.tasks, reports);
      reply := ApplyChanges(edits, available);
      if reply.Applied? {
        Settle(m.status.tasks, edits, resources, toSchedule);
        FinishIs(m, reports, View());
        if GoodMem(m) && RetriesLast(m.status.tasks, reports) { OperationsKeepValid(m, OpFinish(reports), View()); }
      }
    }

    method Settle(ghost tasks: Tasks, edits: seq<TaskEdit>, resources: map<int, Option<seq<string>>>, toSchedule: seq<int>)
      requires ListsSplit(tasks, edits, resources) && toSchedule == Waits(edits)
      modifies this`heap, counters
      ensures heap == Heaped(old(heap), edits)
      ensures counters.View() == old(counters.View()).(released := old(counters.View()).released + Released(tasks, edits))
    {
      CountReleased(edits, resources);
      Insert(toSchedule);
      ReleasedIsListed(tasks, edits, resources);
      HeapedWaits(old(heap), edits);
    }

    method Judge(reports: seq<Report>)
      returns (bad: bool, edits: seq<TaskEdit>, resources: map<int, Option<seq<string>>>, toSchedule: seq<int>)
      ensures bad <==> exists i :: 0 <= i < |reports| && Bad(status.tasks, reports[i])
      ensures !bad ==> edits == FinishEdits(status.tasks, reports) && toSchedule == Waits(edits)
      ensures !bad ==> ListsSplit(status.tasks, edits, resources)
    {
      bad, edits, resources, toSchedule := false, [], map[], [];
      assert reports[0..] == reports && edits + FinishEdits(status.tasks, reports) == FinishEdits(status.tasks, reports);
      for i := 0 to |reports|
        invariant !bad && Judging(status.tasks, reports, i, edits, resources, toSchedule)
      {
        var r := reports[i];
        ghost var before := resources;
        if r.id in status.tasks { resources := resources[r.id := SplitList(status.tasks[r.id])]; }
        var wrong, more := JudgeOne(r);
        if wrong {
          bad := true;
          return;
        }
        JudgeStep(status.tasks, reports, i, edits, before, toSchedule);
        if more != [] && more[0].to == WAITING { toSchedule := toSchedule + [r.id]; }
        edits := edits + more;
      }
      assert reports[|reports|..] == [] && edits + [] == edits;
    }

    method JudgeOne(r: Report) returns (bad: bool, edit: seq<TaskEdit>)
      ensures bad == Bad(status.tasks, r)
      ensures !bad ==> edit == FinishEdit(status.tasks, r)
    {
      bad, edit := false, [];
      if r.id in status.tasks && status.tasks[r.id].status == RUNNING {
        var task := status.tasks[r.id];
        if r.final == FINISHED {
          edit := [StatusChange(r.id, FINISHED)];
        } else if r.final == ERROR {
          if task.maxattempts > 0 && task.attempts >= task.maxattempts {
            edit := [StatusChange(r.id, ERROR)];
          } else if task.deadline > 0 && task.deadline < r.now {
            edit := [StatusChange(r.id, ERROR)];
          } else {
            edit := [StatusChange(r.id, WAITING)];
          }
        } else if r.final == WAITING || r.final == RUNNING {
          bad := true;
        }
      }
    }

    method CountReleased(edits: seq<TaskEdit>, resources: map<int, Option<seq<string>>>)
      requires forall i :: 0 <= i < |edits| ==> edits[i].StatusChange?
      modifies counters
      ensures counters.View() == old(counters.View()).(released := old(counters.View()).released + Listing(edits, resources))
    {
      for i := 0 to |edits|
        invariant counters.View() == old(counters.View()).(released := counters.View().released)
        invariant counters.View().released + Listing(edits[i..], resources) == old(counters.View()).released + Listing(edits, resources)
      {
        ListingStep(edits, i, resources, counters.View().released);
        var id := edits[i].id;
        if id in resources { counters.ReleaseResources(resources[id]); }
      }
      assert edits[|edits|..] == [];
      assert counters.View().released + multiset{} == counters.View().released;
    }

    /** The tasks of a dead worker that still run are reported as failed. */
    method TasksNeedsRecoveryDueToWorkerDeath(ids: seq<int>, now: int, available: bool) returns (reply: Reply)
      modifies this, counters
      ensures reply.Unavailable? ==> !available && View() == old(View())
      ensures reply.Applied? ==> Finish(old(View()), DeathReports(old(status.tasks), ids, now)) == Some(View())
      ensures reply.Thrown? ==> Finish(old(View()), DeathReports(old(status.tasks), ids, now)) == None
      // each task of the worker that ran runs no more: it waits, once more in the heap, as long as it has attempts left and its
      // deadline has not passed, and has failed otherwise; every other task is as it was
      ensures (forall i, j :: 0 <= i < j < |ids| ==> ids[i] != ids[j]) ==> (reply.Applied? <==> available || ids == [])
      ensures (forall i, j :: 0 <= i < j < |ids| ==> ids[i] != ids[j]) && reply.Applied? ==>
        && status.tasks.Keys == old(status.tasks.Keys) && delayed == old(delayed)
        && (forall id :: id in ids && Has(old(status.tasks), id, RUNNING) ==>
              var t := old(status.tasks)[id];
              if (t.maxattempts <= 0 || t.attempts < t.maxattempts) && (t.deadline <= 0 || now <= t.deadline)
              then status.tasks[id] == t.(status := WAITING) && heap[id] == old(heap)[id] + 1
              else status.tasks[id] == t.(status := ERROR) && heap[id] == old(heap)[id])
        && (forall id :: !(id in ids && Has(old(status.tasks), id, RUNNING)) ==>
              heap[id] == old(heap)[id] && (id in status.tasks ==> status.tasks[id] == old(status.tasks)[id]))
      // and the lists of those that ran are released once
      ensures (forall i, j :: 0 <= i < j < |ids| ==> ids[i] != ids[j]) && reply.Applied? ==>
        counters.View() == old(counters.View()).(released := old(counters.View()).released
          + Sum(map id | id in old(status.tasks) && id in ids && old(status.tasks)[id].status == RUNNING :: multiset(SplitOf(old(status.tasks)[id]))))
      ensures reply.Applied? && old(Valid()) && (forall i, j :: 0 <= i < j < |ids| ==> ids[i] != ids[j]) ==> Valid()
    {
      ghost var m := View();
      if forall i, j :: 0 <= i < j < |ids| ==> ids[i] != ids[j] { DeadWorkersTasks(m, ids, now); }
      if ids == [] {
        FinishNothing(View());
        return Applied([]);
      }
      var data := ReportDead(ids, now);
      if forall i, j :: 0 <= i < j < |ids| ==> ids[i] != ids[j] {
        DeathReportsFit(status.tasks, ids, now);
        DistinctRetryLast(status.tasks, data);
      }
      reply := FinishReported(data, available);
    }

    method ReportDead(ids: seq<int>, now: int) returns (data: seq<Report>)
      ensures data == DeathReports(status.tasks, ids, now)
    {
      data := [];
      for i := 0 to |ids|
        invariant data + DeathReports(status.tasks, ids[i..], now) == DeathReports(status.tasks, ids, now)
      {
        DeathStep(status.tasks, ids, i, now, data);
        if ids[i] in status.tasks && status.tasks[ids[i]].status == RUNNING { data := data + [Report(ids[i], ERROR, now)]; }
      }
      assert ids[|ids|..] == [] && data + [] == data;
    }

    /** Looks for at most `limit` tasks whose deadline has passed; only a leader that can write expires any. */
    method SignalExpired(now: int, limit: nat, writable: bool) returns (expired: seq<int>)
      ensures ExpiredIds(status.tasks, expired, now) && |expired| <= limit && (!writable ==> expired == [])
      // a task is overdue if it waits or is delayed and has a deadline that has passed
      ensures forall i :: 0 <= i < |expired| ==>
        expired[i] in status.tasks && var t := status.tasks[expired[i]];
        (t.status == WAITING || t.status == DELAYED) && 0 < t.deadline < now
      ensures writable && |expired| < limit ==>
        forall id :: id in status.tasks && (Has(status.tasks, id, WAITING) || Has(status.tasks, id, DELAYED)) && 0 < status.tasks[id].deadline < now ==>
          id in expired
    {
      expired := [];
      var todo := status.tasks.Keys;
      while |todo| > 0
        invariant todo <= status.tasks.Keys && |expired| <= limit && (!writable ==> expired == [])
        invariant ExpiredIds(status.tasks, expired, now) && forall i :: 0 <= i < |expired| ==> expired[i] !in todo
        invariant writable && |expired| < limit ==>
          forall id :: id in status.tasks && id !in todo && Overdue(status.tasks[id], now) ==> id in expired
        decreases |todo|
      {
        SomeMember(todo);
        var id :| id in todo;
        var task := status.tasks[id];
        if (task.status == WAITING || task.status == DELAYED) && |expired| < limit && writable {
          if task.deadline > 0 && task.deadline < now { expired := expired + [id]; }
        }
        todo := todo - {id};
      }
    }

    /** The expired tasks leave the heap first, then they are logged as failed; when the log is gone they have left the heap only. */
    method PurgeTasks(now: int, limit: nat, writable: bool, available: bool) returns (expired: seq<int>, reply: Reply)
      modifies this
      ensures ExpiredIds(old(status.tasks), expired, now) && |expired| <= limit && (!writable ==> expired == [])
      ensures writable && |expired| < limit ==>
        forall id :: (Has(old(status.tasks), id, WAITING) || Has(old(status.tasks), id, DELAYED)) && 0 < old(status.tasks)[id].deadline < now ==> id in expired
      ensures reply.Unavailable? <==> !available && expired != []
      // what expires has failed and left the heap; everything else is as it was
      ensures reply.Applied? ==>
        && status.tasks.Keys == old(status.tasks.Keys) && delayed == old(delayed)
        && (forall id :: heap[id] == if id in expired then 0 else old(heap)[id])
        && forall id :: id in status.tasks ==>
             status.tasks[id] == if id in expired then old(status.tasks)[id].(status := ERROR) else old(status.tasks)[id]
      ensures !reply.Unavailable? ==> reply.Applied? && Expire(old(View()), expired) == Some(View())
      ensures reply.Unavailable? ==> !available && View() == old(View()).(heap := Without(old(heap), expired))
      ensures reply.Applied? && old(Valid()) ==> Valid()
    {
      ghost var m := View();
      var ids := SignalExpired(now, limit, writable);
      expired := ids;
      if ids == [] {
        assert m.log + [] == m.log;
        return ids, Applied([]);
      }
      RemoveExpired(ids);
      var edits := ChangeEdits(ids, ERROR);
      ChangesAreNoSubmissions(ids, ERROR);
      ChangesFit(m.status, ids, ERROR);
      reply := ApplyChanges(edits, available);
      ExpiredTasks(m, ids);
      if reply.Applied? && GoodMem(m) { OperationsKeepValid(m, OpExpire(ids, now), View()); }
    }

    method RemoveExpired(ids: seq<int>)
      modifies this`heap
      ensures heap == Without(old(heap), ids)
    {
      for i := 0 to |ids|
        invariant Without(heap, ids[i..]) == Without(old(heap), ids)
      {
        assert ids[i..][0] == ids[i] && ids[i..][1..] == ids[i + 1..];
        heap := heap[ids[i] := 0];
      }
      assert ids[|ids|..] == [];
    }
  }

  // ---- Boot ----

  /** The running tasks of the workers done, and those of one more worker that are no longer to do. */
  function KnownPart(tasks: Tasks, done: set<string>, worker: string, todo: set<int>): map<int, multiset<string>> {
    map id | id in tasks && tasks[id].status == RUNNING && tasks[id].worker.Some?
             && (tasks[id].worker.value in done || (tasks[id].worker.value == worker && id !in todo))
      :: multiset(SplitOf(tasks[id]))
  }

  function Names(workers: seq<string>): set<string> { set w | w in workers }

  lemma SomeMember(s: set<int>)
    requires |s| > 0
    ensures exists x :: x in s
  {
    assert (forall x :: x !in s) ==> s == {};
  }

  lemma KnownEnds(tasks: Tasks, done: set<string>, worker: string)
    requires worker !in done
    ensures KnownPart(tasks, done, worker, tasks.Keys) == KnownRunning(tasks, done)
    ensures KnownPart(tasks, done, worker, {}) == KnownRunning(tasks, done + {worker})
  {
  }

  lemma MoreWorkers(workers: seq<string>, i: nat)
    requires i < |workers|
    ensures Names(workers[..i + 1]) == Names(workers[..i]) + {workers[i]}
  {
    assert workers[..i + 1] == workers[..i] + [workers[i]];
  }

  lemma KnownGrows(tasks: Tasks, done: set<string>, worker: string, todo: set<int>, id: int)
    requires id in todo && id in tasks && worker !in done
    ensures Sum(KnownPart(tasks, done, worker, todo - {id}))
            == Sum(KnownPart(tasks, done, worker, todo))
               + if tasks[id].worker == Some(worker) && tasks[id].status == RUNNING then multiset(SplitOf(tasks[id])) else multiset{}
  {
    var before, after := KnownPart(tasks, done, worker, todo), KnownPart(tasks, done, worker, todo - {id});
    if tasks[id].worker == Some(worker) && tasks[id].status == RUNNING {
      SumTakesAny(after, id);
      assert after - {id} == before;
    } else {
      assert after == before;
    }
  }

  // ---- Assignments ----

  ghost predicate DistinctTaken(taken: seq<TakenTask>) {
    forall i, j :: 0 <= i < j < |taken| ==> taken[i].id != taken[j].id
  }

  /** The resource lists remembered by task id. */
  ghost predicate ListsTaken(tasks: Tasks, taken: seq<TakenTask>, resources: map<int, Option<seq<string>>>) {
    forall i :: 0 <= i < |taken| && taken[i].id in tasks ==> taken[i].id in resources && resources[taken[i].id] == taken[i].resourceIds
  }

  function ListedFor(id: int, resources: map<int, Option<seq<string>>>): multiset<string> {
    if id in resources && resources[id].Some? then multiset(resources[id].value) else multiset{}
  }

  /** All resources remembered for the tasks of a batch. */
  function Listing(edits: seq<TaskEdit>, resources: map<int, Option<seq<string>>>): multiset<string>
    requires forall i :: 0 <= i < |edits| ==> edits[i].AssignTask? || edits[i].StatusChange?
    decreases |edits|
  {
    if edits == [] then multiset{} else ListedFor(edits[0].id, resources) + Listing(edits[1..], resources)
  }

  lemma ListingStep(edits: seq<TaskEdit>, i: nat, resources: map<int, Option<seq<string>>>, soFar: multiset<string>)
    requires i < |edits| && forall i :: 0 <= i < |edits| ==> edits[i].AssignTask? || edits[i].StatusChange?
    ensures soFar + Listing(edits[i..], resources) == soFar + ListedFor(edits[i].id, resources) + Listing(edits[i + 1..], resources)
  {
    assert edits[i..][0] == edits[i] && edits[i..][1..] == edits[i + 1..];
  }

  lemma {:induction false} AssignEditsSubmitNothing(tasks: Tasks, taken: seq<TakenTask>, worker: string)
    ensures forall i :: 0 <= i < |AssignEdits(tasks, taken, worker)| ==> AssignEdits(tasks, taken, worker)[i].AssignTask?
    decreases |taken|
  {
    if taken != [] { AssignEditsSubmitNothing(tasks, taken[1..], worker); }
  }

  lemma {:induction false} UsedIsListed(tasks: Tasks, taken: seq<TakenTask>, worker: string, resources: map<int, Option<seq<string>>>)
    requires ListsTaken(tasks, taken, resources)
    requires forall i :: 0 <= i < |AssignEdits(tasks, taken, worker)| ==> AssignEdits(tasks, taken, worker)[i].AssignTask?
    ensures Listing(AssignEdits(tasks, taken, worker), resources) == Used(tasks, taken)
    decreases |taken|
  {
    if taken != [] {
      var rest := AssignEdits(tasks, taken[1..], worker);
      AssignEditsSubmitNothing(tasks, taken[1..], worker);
      assert forall i :: 0 <= i < |taken[1..]| ==> taken[1..][i] == taken[i + 1];
      UsedIsListed(tasks, taken[1..], worker, resources);
      if taken[0].id in tasks {
        assert AssignEdits(tasks, taken, worker)[1..] == rest;
      } else {
        assert multiset{} + Used(tasks, taken[1..]) == Used(tasks, taken[1..]);
      }
    }
  }

  lemma AssignIs(m: Mem, taken: seq<TakenTask>, worker: string, n: Mem, drained: Usage)
    requires var edits := AssignEdits(m.status.tasks, taken, worker);
             ApplyAll(m.status, edits) == Some(n.status) && n.log == m.log + edits
    requires n.heap == m.heap - multiset(Ids(taken)) && n.delayed == m.delayed && n.lastId == m.lastId
    requires SameCounts(drained, m.usage) && n.usage == drained.(used := drained.used + Used(m.status.tasks, taken))
    ensures Assign(m, taken, worker).Some? && Same(n, Assign(m, taken, worker).value)
  {
    var used := Used(m.status.tasks, taken);
    forall r ensures Count(n.usage, r) == Count(m.usage.(used := m.usage.used + used), r) {
      assert Count(drained, r) == Count(m.usage, r);
    }
  }

  // ---- Reports ----

  function SplitList(t: Task): Option<seq<string>> {
    match t.resources case None => None case Some(s) => Some(Split(s))
  }

  /** The tasks a batch sets back to waiting. */
  function Waits(edits: seq<TaskEdit>): seq<int>
    decreases |edits|
  {
    if edits == [] then []
    else
      var e := edits[|edits| - 1];
      Waits(edits[..|edits| - 1]) + if e.StatusChange? && e.to == WAITING then [e.id] else []
  }

  lemma WaitsGrow(edits: seq<TaskEdit>, e: TaskEdit)
    ensures Waits(edits + [e]) == Waits(edits) + if e.StatusChange? && e.to == WAITING then [e.id] else []
  {
    assert (edits + [e])[..|edits|] == edits;
  }

  ghost predicate ListsSplit(tasks: Tasks, edits: seq<TaskEdit>, resources: map<int, Option<seq<string>>>) {
    forall i :: 0 <= i < |edits| ==> edits[i].StatusChange? && edits[i].id in tasks
                                     && edits[i].id in resources && resources[edits[i].id] == SplitList(tasks[edits[i].id])
  }

  ghost predicate Splits(tasks: Tasks, resources: map<int, Option<seq<string>>>) {
    forall id :: id in resources ==> id in tasks && resources[id] == SplitList(tasks[id])
  }

  /** The first `i` reports are judged: their edits, the resource lists looked up, and the tasks to retry. */
  ghost predicate Judging(tasks: Tasks, rs: seq<Report>, i: int, edits: seq<TaskEdit>, resources: map<int, Option<seq<string>>>,
                          toSchedule: seq<int>)
  {
    && 0 <= i <= |rs| && (forall k :: 0 <= k < i ==> !Bad(tasks, rs[k]))
    && edits + FinishEdits(tasks, rs[i..]) == FinishEdits(tasks, rs)
    && toSchedule == Waits(edits) && Splits(tasks, resources) && ListsSplit(tasks, edits, resources)
  }

  lemma JudgeStep(tasks: Tasks, rs: seq<Report>, i: int, edits: seq<TaskEdit>, resources: map<int, Option<seq<string>>>, toSchedule: seq<int>)
    requires Judging(tasks, rs, i, edits, resources, toSchedule) && i < |rs| && !Bad(tasks, rs[i])
    ensures var r, more := rs[i], FinishEdit(tasks, rs[i]);
            && (more != [] ==> more[0].StatusChange?)
            && Judging(tasks, rs, i + 1, edits + more, if r.id in tasks then resources[r.id := SplitList(tasks[r.id])] else resources,
                       toSchedule + if more != [] && more[0].to == WAITING then [r.id] else [])
  {
    var more := FinishEdit(tasks, rs[i]);
    JudgedStep(tasks, rs, i, edits);
    if more == [] {
      assert edits + more == edits && toSchedule + [] == toSchedule;
    } else {
      assert more == [more[0]];
      WaitsGrow(edits, more[0]);
    }
  }

  lemma {:induction false} ReleasedIsListed(tasks: Tasks, edits: seq<TaskEdit>, resources: map<int, Option<seq<string>>>)
    requires ListsSplit(tasks, edits, resources)
    ensures Listing(edits, resources) == Released(tasks, edits)
    decreases |edits|
  {
    if edits != [] {
      assert forall i :: 0 <= i < |edits[1..]| ==> edits[1..][i] == edits[i + 1];
      ReleasedIsListed(tasks, edits[1..], resources);
      assert ListedFor(edits[0].id, resources) == multiset(SplitOf(tasks[edits[0].id]));
    }
  }

  lemma {:induction false} HeapedSnoc(heap: multiset<int>, edits: seq<TaskEdit>, e: TaskEdit)
    ensures Heaped(heap, edits + [e]) == HeapedOne(Heaped(heap, edits), e)
    decreases |edits|
  {
    if edits == [] {
      assert [] + [e] == [e] && [e][1..] == [];
    } else {
      HeapedSnoc(HeapedOne(heap, edits[0]), edits[1..], e);
      assert (edits + [e])[1..] == edits[1..] + [e];
    }
  }

  lemma HeapMore(heap: multiset<int>, ids: seq<int>, id: int)
    ensures heap + multiset(ids) + multiset{id} == heap + multiset(ids + [id]) && heap + multiset(ids) == heap + multiset(ids + [])
  {
    assert ids + [] == ids;
  }

  lemma {:induction false} HeapedWaits(heap: multiset<int>, edits: seq<TaskEdit>)
    requires forall i :: 0 <= i < |edits| ==> edits[i].StatusChange?
    ensures Heaped(heap, edits) == heap + multiset(Waits(edits))
    decreases |edits|
  {
    if edits == [] {
      assert heap + multiset([]) == heap;
    } else {
      var front, e := edits[..|edits| - 1], edits[|edits| - 1];
      assert edits == front + [e];
      HeapedWaits(heap, front);
      HeapedSnoc(heap, front, e);
      WaitsGrow(front, e);
      HeapMore(heap, Waits(front), e.id);
    }
  }

  lemma {:induction false} FinishEditsChange(tasks: Tasks, rs: seq<Report>)
    ensures forall i :: 0 <= i < |FinishEdits(tasks, rs)| ==> FinishEdits(tasks, rs)[i].StatusChange?
    decreases |rs|
  {
    if rs != [] { FinishEditsChange(tasks, rs[1..]); }
  }

  lemma JudgedStep(tasks: Tasks, rs: seq<Report>, i: nat, edits: seq<TaskEdit>)
    requires i < |rs|
    ensures edits + FinishEdits(tasks, rs[i..]) == edits + FinishEdit(tasks, rs[i]) + FinishEdits(tasks, rs[i + 1..])
    ensures var es := FinishEdit(tasks, rs[i]); es == [] || (es == [es[0]] && es[0].StatusChange? && es[0].id == rs[i].id)
  {
    assert rs[i..][0] == rs[i] && rs[i..][1..] == rs[i + 1..];
  }

  lemma FinishIs(m: Mem, rs: seq<Report>, n: Mem)
    requires var edits := FinishEdits(m.status.tasks, rs);
             && ApplyAll(m.status, edits) == Some(n.status) && n.log == m.log + edits && n.heap == Heaped(m.heap, edits)
             && n.usage == m.usage.(released := m.usage.released + Released(m.status.tasks, edits))
    requires n.delayed == m.delayed && n.lastId == m.lastId
    requires forall i :: 0 <= i < |rs| ==> !Bad(m.status.tasks, rs[i])
    ensures Finish(m, rs) == Some(n)
  {
  }

  lemma FinishNothing(m: Mem)
    ensures forall now :: DeathReports(m.status.tasks, [], now) == []
    ensures Finish(m, []) == Some(m)
  {
    assert m.log + [] == m.log && m.usage.released + multiset{} == m.usage.released;
  }

  const MAX_SIMULTANEOUS_RESUMED_TASKS: nat := 1000

  function FirstOf(due: seq<int>): seq<int> {
    if |due| <= MAX_SIMULTANEOUS_RESUMED_TASKS then due else due[..MAX_SIMULTANEOUS_RESUMED_TASKS]
  }

  // ---- Submissions ----

  /** The id a submission is answered with. */
  function Answer(e: TaskEdit, outcome: Outcome): int {
    if outcome.Created? && Submits(e) then e.id else 0
  }

  function Answers(m: Mem, requests: seq<Request>): (ids: seq<int>)
  {
    var edits := EditsFor(requests, m.lastId);
    var outcomes := Outcomes(Seized(m.status, edits), edits, Refusals(m.status.slots, edits));
    if |outcomes| != |edits| then [] else seq(|edits|, i requires 0 <= i < |edits| => Answer(edits[i], outcomes[i]))
  }

  /** The accepted, immediately visible submissions of a batch with a given status, put into a queue. */
  function Enqueued(queue: multiset<int>, edits: seq<TaskEdit>, outcomes: seq<Outcome>, status: TaskStatus): multiset<int>
    requires |edits| == |outcomes|
    decreases |edits|
  {
    if edits == [] then queue
    else
      Enqueued(if edits[0].AddTask? && outcomes[0].Created? && outcomes[0].task.status == status then queue + multiset{edits[0].id} else queue,
               edits[1..], outcomes[1..], status)
  }

  lemma {:induction false} SubmissionsApply(s: Status, edits: seq<TaskEdit>)
    requires forall i :: 0 <= i < |edits| ==> Submits(edits[i])
    ensures ApplyAll(s, edits).Some?
    decreases |edits|
  {
    if edits != [] { SubmissionsApply(Apply(s, edits[0]).value, edits[1..]); }
  }

  lemma {:induction false} AcceptedAreAmong(slots: map<string, int>, edits: seq<TaskEdit>)
    ensures forall i :: 0 <= i < |Accepted(slots, edits)| ==> Accepted(slots, edits)[i] in edits
    decreases |edits|
  {
    if edits != [] {
      AcceptedAreAmong(TakenBy(slots, edits[0]), edits[1..]);
      assert forall e :: e in edits[1..] ==> e in edits;
    }
  }

  /** What the broker enqueues from the answers is what the accepted edits say. */
  lemma {:induction false} EnqueuedAll(s: Status, edits: seq<TaskEdit>, skip: seq<bool>, heap: multiset<int>, delayed: multiset<int>)
    requires |skip| == |edits| && ApplyAll(s, Pick(edits, skip)).Some? && forall i :: 0 <= i < |edits| ==> Submits(edits[i])
    ensures |Outcomes(s, edits, skip)| == |edits|
    ensures Enqueued(heap, edits, Outcomes(s, edits, skip), WAITING) == Heaped(heap, Pick(edits, skip))
    ensures Enqueued(delayed, edits, Outcomes(s, edits, skip), DELAYED) == Delayed(delayed, Pick(edits, skip))
    decreases |edits|
  {
    if edits != [] {
      var e, more := edits[0], Pick(edits[1..], skip[1..]);
      if skip[0] {
        assert Pick(edits, skip) == [] + more == more;
        EnqueuedAll(s, edits[1..], skip[1..], heap, delayed);
        assert Outcomes(s, edits, skip)[1..] == Outcomes(s, edits[1..], skip[1..]);
      } else {
        assert ([e] + more)[1..] == more;
        var t := Apply(s, e).value;
        EnqueuedAll(t, edits[1..], skip[1..], HeapedOne(heap, e), DelayedOne(delayed, e));
        assert Outcomes(s, edits, skip)[1..] == Outcomes(t, edits[1..], skip[1..]);
      }
    }
  }

  // ---- What becomes of each submission ----

  /** The slot a submission asks for is free, and no earlier one of the batch asks for it. */
  ghost predicate Admits(slots: map<string, int>, rs: seq<Request>, i: int)
    requires 0 <= i < |rs|
  {
    var slot := rs[i].task.slot;
    slot.Some? ==> slot.value !in slots && forall j :: 0 <= j < i ==> rs[j].task.slot != slot
  }

  /** The task of a submission: waiting or delayed, never run. */
  function Submitted(n: NewTask): Task {
    Task(if n.later then DELAYED else WAITING, n.attempt, n.maxattempts, n.deadline, n.slot, None, None)
  }

  ghost predicate AllSubmit(edits: seq<TaskEdit>) {
    (forall i :: 0 <= i < |edits| ==> Submits(edits[i])) && forall i, j :: 0 <= i < j < |edits| ==> edits[i].id != edits[j].id
  }

  lemma {:induction false} RefusedAt(slots: map<string, int>, edits: seq<TaskEdit>, k: nat)
    requires k < |edits| && AllSubmit(edits)
    ensures Refusals(slots, edits)[k] <==>
            edits[k].task.slot.Some?
            && (edits[k].task.slot.value in slots || exists j :: 0 <= j < k && edits[j].task.slot == edits[k].task.slot)
    decreases k
  {
    if k > 0 {
      var rest := edits[1..];
      RefusedAt(TakenBy(slots, edits[0]), rest, k - 1);
      assert rest[k - 1] == edits[k];
      assert forall j :: 0 <= j < k - 1 ==> rest[j] == edits[j + 1];
      assert forall j :: 0 < j < k ==> edits[j] == rest[j - 1];
    }
  }

  lemma {:induction false} OutcomeAt(s: Status, edits: seq<TaskEdit>, skip: seq<bool>, k: nat)
    requires k < |edits| == |skip| && AllSubmit(edits) && |Outcomes(s, edits, skip)| == |edits|
    ensures Outcomes(s, edits, skip)[k] ==
            if skip[k] then Refused
            else if edits[k].PrepareAddTask? && edits[k].tx !in s.transactions then NoTransaction
            else Created(Submitted(edits[k].task))
    decreases k
  {
    if k > 0 {
      var rest := edits[1..];
      assert rest[k - 1] == edits[k] && skip[1..][k - 1] == skip[k];
      var t := if skip[0] then s else Apply(s, edits[0]).value;
      assert t.transactions.Keys == s.transactions.Keys;
      assert Outcomes(s, edits, skip)[1..] == Outcomes(t, rest, skip[1..]);
      OutcomeAt(t, rest, skip[1..], k - 1);
    }
  }

  /** A task that no edit of the batch adds is left alone. */
  lemma {:induction false} UnsubmittedStay(s: Status, edits: seq<TaskEdit>, heap: multiset<int>, delayed: multiset<int>, id: int)
    requires forall i :: 0 <= i < |edits| ==> Submits(edits[i]) && !(edits[i].AddTask? && edits[i].id == id)
    ensures ApplyAll(s, edits).Some?
    ensures var t := ApplyAll(s, edits).value;
            (id in t.tasks <==> id in s.tasks) && (id in s.tasks ==> t.tasks[id] == s.tasks[id])
    ensures Heaped(heap, edits)[id] == heap[id] && Delayed(delayed, edits)[id] == delayed[id]
    decreases |edits|
  {
    if edits != [] {
      UnsubmittedStay(Apply(s, edits[0]).value, edits[1..], HeapedOne(heap, edits[0]), DelayedOne(delayed, edits[0]), id);
    }
  }

  lemma {:induction false} TransactionsGrow(s: Status, edits: seq<TaskEdit>)
    requires forall i :: 0 <= i < |edits| ==> Submits(edits[i])
    ensures ApplyAll(s, edits).Some? && ApplyAll(s, edits).value.transactions.Keys == s.transactions.Keys
    ensures forall tx :: tx in s.transactions ==> s.transactions[tx] <= ApplyAll(s, edits).value.transactions[tx]
    decreases |edits|
  {
    if edits != [] { TransactionsGrow(Apply(s, edits[0]).value, edits[1..]); }
  }

  lemma {:induction false} PickedAreAmong(edits: seq<TaskEdit>, skip: seq<bool>)
    requires |skip| == |edits|
    ensures forall e :: e in Pick(edits, skip) ==> exists i :: 0 <= i < |edits| && edits[i] == e && !skip[i]
    decreases |edits|
  {
    if edits != [] {
      PickedAreAmong(edits[1..], skip[1..]);
      forall e | e in Pick(edits, skip) ensures exists i :: 0 <= i < |edits| && edits[i] == e && !skip[i] {
        if !(e == edits[0] && !skip[0]) {
          assert e in Pick(edits[1..], skip[1..]);
          var i :| 0 <= i < |edits[1..]| && edits[1..][i] == e && !skip[1..][i];
          assert edits[i + 1] == e && !skip[i + 1];
        }
      }
    }
  }

  /** What an edit that was not refused leaves behind: its task in the status and its queue, or in its transaction. */
  ghost predicate Lands(s: Status, t: Status, e: TaskEdit, heap: multiset<int>, heapAfter: multiset<int>, delayed: multiset<int>,
                        delayedAfter: multiset<int>)
    requires Submits(e)
  {
    if e.AddTask?
    then e.id in t.tasks && t.tasks[e.id] == Submitted(e.task)
         && heapAfter[e.id] == heap[e.id] + (if e.task.later then 0 else 1)
         && delayedAfter[e.id] == delayed[e.id] + (if e.task.later then 1 else 0)
    else e.tx in s.transactions ==> e.tx in t.transactions && Prepared(e.id, Submitted(e.task)) in t.transactions[e.tx]
  }

  lemma HeadLands(s: Status, e: TaskEdit, rest: seq<TaskEdit>, heap: multiset<int>, delayed: multiset<int>)
    requires Submits(e) && forall i :: 0 <= i < |rest| ==> Submits(rest[i]) && rest[i].id != e.id
    ensures Apply(s, e).Some? && ApplyAll(Apply(s, e).value, rest).Some?
    ensures Lands(s, ApplyAll(Apply(s, e).value, rest).value, e, heap, Heaped(HeapedOne(heap, e), rest), delayed, Delayed(DelayedOne(delayed, e), rest))
  {
    var t := Apply(s, e).value;
    UnsubmittedStay(t, rest, HeapedOne(heap, e), DelayedOne(delayed, e), e.id);
    TransactionsGrow(t, rest);
    if e.PrepareAddTask? && e.tx in s.transactions {
      var ps := t.transactions[e.tx];
      assert ps[|ps| - 1] == Prepared(e.id, Submitted(e.task));
    }
  }

  lemma {:induction false} PickedLands(s: Status, edits: seq<TaskEdit>, skip: seq<bool>, heap: multiset<int>, delayed: multiset<int>, k: nat)
    requires k < |edits| == |skip| && AllSubmit(edits) && !skip[k]
    ensures ApplyAll(s, Pick(edits, skip)).Some?
    ensures Lands(s, ApplyAll(s, Pick(edits, skip)).value, edits[k],
                  heap, Heaped(heap, Pick(edits, skip)), delayed, Delayed(delayed, Pick(edits, skip)))
    decreases k
  {
    var e, rest := edits[0], Pick(edits[1..], skip[1..]);
    assert forall i :: 0 <= i < |edits[1..]| ==> edits[1..][i] == edits[i + 1];
    if k == 0 {
      PickedAreAmong(edits[1..], skip[1..]);
      assert forall i :: 0 <= i < |rest| ==> rest[i] in rest;
      PickHead(s, edits, skip, heap, delayed);
      HeadLands(s, e, rest, heap, delayed);
    } else {
      assert edits[1..][k - 1] == edits[k] && skip[1..][k - 1] == skip[k];
      if skip[0] {
        assert Pick(edits, skip) == [] + rest == rest;
        PickedLands(s, edits[1..], skip[1..], heap, delayed, k - 1);
      } else {
        PickHead(s, edits, skip, heap, delayed);
        PickedLands(Apply(s, e).value, edits[1..], skip[1..], HeapedOne(heap, e), DelayedOne(delayed, e), k - 1);
        assert e.id != edits[k].id;
      }
    }
  }

  lemma PickHead(s: Status, edits: seq<TaskEdit>, skip: seq<bool>, heap: multiset<int>, delayed: multiset<int>)
    requires 0 < |edits| == |skip| && !skip[0] && Submits(edits[0])
    ensures var e, rest := edits[0], Pick(edits[1..], skip[1..]);
            && Apply(s, e).Some? && ApplyAll(s, Pick(edits, skip)) == ApplyAll(Apply(s, e).value, rest)
            && Heaped(heap, Pick(edits, skip)) == Heaped(HeapedOne(heap, e), rest)
            && Delayed(delayed, Pick(edits, skip)) == Delayed(DelayedOne(delayed, e), rest)
  {
    var e, rest := edits[0], Pick(edits[1..], skip[1..]);
    assert Pick(edits, skip) == [e] + rest && ([e] + rest)[1..] == rest;
  }

  /** The edits of a batch, and which of them are refused. */
  lemma BatchOf(m: Mem, rs: seq<Request>) returns (edits: seq<TaskEdit>, skip: seq<bool>)
    ensures edits == EditsFor(rs, m.lastId) && skip == Refusals(m.status.slots, edits) && |edits| == |rs| == |skip| && AllSubmit(edits)
    ensures forall i :: 0 <= i < |rs| ==> edits[i] == EditFor(rs[i], m.lastId + 1 + i) && (skip[i] <==> !Admits(m.status.slots, rs, i))
    ensures Accepted(m.status.slots, edits) == Pick(edits, skip)
    ensures |Outcomes(Seized(m.status, edits), edits, skip)| == |edits|
  {
    edits := EditsFor(rs, m.lastId);
    skip := Refusals(m.status.slots, edits);
    EditsForAdds(rs, m.lastId);
    AddApplies(m, rs);
    AcceptedIsPicked(m.status.slots, edits);
    forall i | 0 <= i < |rs| ensures skip[i] <==> !Admits(m.status.slots, rs, i) {
      RefusedAt(m.status.slots, edits, i);
      assert forall j :: 0 <= j < i ==> edits[j].task == rs[j].task;
    }
  }

  /** A submission that is admitted is answered with the next id of its own, unless its transaction is unknown; others with 0. */
  lemma AnswerOf(m: Mem, rs: seq<Request>, i: nat)
    requires i < |rs|
    ensures |Answers(m, rs)| == |rs|
    ensures Answers(m, rs)[i] == if Admits(m.status.slots, rs, i) && (rs[i].tx <= 0 || rs[i].tx in m.status.transactions) then m.lastId + 1 + i else 0
  {
    var edits, skip := BatchOf(m, rs);
    OutcomeAt(Seized(m.status, edits), edits, skip, i);
  }

  /** An admitted task is in the status and its queue, or in its transaction. */
  lemma SubmissionLands(m: Mem, rs: seq<Request>, n: Mem, i: nat)
    requires Add(m, rs) == Some(n) && i < |rs| && Admits(m.status.slots, rs, i)
    ensures var id, task, tx := m.lastId + 1 + i, Submitted(rs[i].task), rs[i].tx;
            if tx <= 0
            then id in n.status.tasks && n.status.tasks[id] == task
                 && n.heap[id] == m.heap[id] + (if rs[i].task.later then 0 else 1)
                 && n.delayed[id] == m.delayed[id] + (if rs[i].task.later then 1 else 0)
            else tx in m.status.transactions ==> tx in n.status.transactions && Prepared(id, task) in n.status.transactions[tx]
  {
    var edits, skip := BatchOf(m, rs);
    PickedLands(Seized(m.status, edits), edits, skip, m.heap, m.delayed, i);
  }

  /** No other task and no other place in the queues changes, and transactions only grow. */
  lemma SubmissionsLeave(m: Mem, rs: seq<Request>, n: Mem)
    requires Add(m, rs) == Some(n)
    ensures forall id :: AddedAt(m, rs, id) || LeftAlone(m, n, id)
    ensures n.status.transactions.Keys == m.status.transactions.Keys
    ensures forall tx :: tx in m.status.transactions ==> m.status.transactions[tx] <= n.status.transactions[tx]
  {
    var edits, skip := BatchOf(m, rs);
    var picked := Pick(edits, skip);
    PickedAreAmong(edits, skip);
    forall i | 0 <= i < |picked| ensures Submits(picked[i]) && (picked[i].AddTask? ==> AddedAt(m, rs, picked[i].id)) {
      assert picked[i] in picked;
    }
    TransactionsGrow(Seized(m.status, edits), picked);
    forall id ensures AddedAt(m, rs, id) || LeftAlone(m, n, id) {
      if !AddedAt(m, rs, id) { UnsubmittedStay(Seized(m.status, edits), picked, m.heap, m.delayed, id); }
    }
  }

  /** What a batch of submissions does to every task, and what it is answered. */
  lemma SubmissionOutcomes(m: Mem, rs: seq<Request>, n: Mem)
    requires Add(m, rs) == Some(n)
    ensures |Answers(m, rs)| == |rs|
    ensures forall i :: 0 <= i < |rs| ==>
      Answers(m, rs)[i] == if Admits(m.status.slots, rs, i) && (rs[i].tx <= 0 || rs[i].tx in m.status.transactions) then m.lastId + 1 + i else 0
    ensures forall i :: 0 <= i < |rs| && Admits(m.status.slots, rs, i) ==>
      var id, task, tx := m.lastId + 1 + i, Submitted(rs[i].task), rs[i].tx;
      if tx <= 0
      then id in n.status.tasks && n.status.tasks[id] == task
           && n.heap[id] == m.heap[id] + (if rs[i].task.later then 0 else 1)
           && n.delayed[id] == m.delayed[id] + (if rs[i].task.later then 1 else 0)
      else tx in m.status.transactions ==> tx in n.status.transactions && Prepared(id, task) in n.status.transactions[tx]
  {
    var _, _ := BatchOf(m, rs);
    if rs == [] {
      assert |EditsFor(rs, m.lastId)| == 0;
    } else {
      AnswerOf(m, rs, 0);
    }
    forall i | 0 <= i < |rs|
      ensures Answers(m, rs)[i] == if Admits(m.status.slots, rs, i) && (rs[i].tx <= 0 || rs[i].tx in m.status.transactions) then m.lastId + 1 + i else 0
    {
      AnswerOf(m, rs, i);
    }
    forall i | 0 <= i < |rs| && Admits(m.status.slots, rs, i)
      ensures rs[i].tx <= 0 ==> m.lastId + 1 + i in n.status.tasks && n.status.tasks[m.lastId + 1 + i] == Submitted(rs[i].task)
                                && n.heap[m.lastId + 1 + i] == m.heap[m.lastId + 1 + i] + (if rs[i].task.later then 0 else 1)
                                && n.delayed[m.lastId + 1 + i] == m.delayed[m.lastId + 1 + i] + (if rs[i].task.later then 1 else 0)
      ensures rs[i].tx > 0 && rs[i].tx in m.status.transactions ==>
        rs[i].tx in n.status.transactions && Prepared(m.lastId + 1 + i, Submitted(rs[i].task)) in n.status.transactions[rs[i].tx]
    {
      SubmissionLands(m, rs, n, i);
    }
  }

  /** The id is one the batch gave to an admitted task that is visible at once. */
  ghost predicate AddedAt(m: Mem, rs: seq<Request>, id: int) {
    var i := id - m.lastId - 1;
    0 <= i < |rs| && rs[i].tx <= 0 && Admits(m.status.slots, rs, i)
  }

  predicate LeftAlone(m: Mem, n: Mem, id: int) {
    && (id in n.status.tasks <==> id in m.status.tasks) && (id in m.status.tasks ==> n.status.tasks[id] == m.status.tasks[id])
    && n.heap[id] == m.heap[id] && n.delayed[id] == m.delayed[id]
  }

  // ---- A batch the log did not take ----

  ghost predicate HoldersBelow(slots: map<string, int>, last: int) {
    forall slot :: slot in slots ==> slots[slot] <= last
  }

  lemma {:induction false} FreedAgainKeeps(slots: map<string, int>, edits: seq<TaskEdit>, slot: string)
    ensures slot in FreedAgain(slots, edits) <==>
            slot in slots && forall i :: 0 <= i < |edits| ==> !(Submits(edits[i]) && edits[i].task.slot == Some(slot) && edits[i].id == slots[slot])
    ensures slot in FreedAgain(slots, edits) ==> FreedAgain(slots, edits)[slot] == slots[slot]
    decreases |edits|
  {
    if edits != [] {
      var next := if Submits(edits[0]) then FreeSlot(slots, edits[0].task.slot, edits[0].id) else slots;
      FreedAgainKeeps(next, edits[1..], slot);
      assert forall i :: 0 < i < |edits| ==> edits[i] == edits[1..][i - 1];
    }
  }

  lemma {:induction false} TakenHolders(slots: map<string, int>, edits: seq<TaskEdit>, slot: string)
    ensures slot in slots ==> slot in Taken(slots, edits) && Taken(slots, edits)[slot] == slots[slot]
    ensures slot !in slots && slot in Taken(slots, edits) ==>
            exists i :: 0 <= i < |edits| && Submits(edits[i]) && edits[i].task.slot == Some(slot) && edits[i].id == Taken(slots, edits)[slot]
    decreases |edits|
  {
    if edits != [] {
      TakenHolders(TakenBy(slots, edits[0]), edits[1..], slot);
      assert forall i :: 0 < i < |edits| ==> edits[i] == edits[1..][i - 1];
      if slot !in slots && slot in TakenBy(slots, edits[0]) { assert Submits(edits[0]) && edits[0].id == Taken(slots, edits)[slot]; }
    }
  }

  /** Slots taken for submissions the log then refuses are given back, and no others. */
  lemma FailedBatchRestoresSlots(slots: map<string, int>, edits: seq<TaskEdit>, last: int)
    requires forall i :: 0 <= i < |edits| && Submits(edits[i]) ==> edits[i].id > last
    ensures HoldersBelow(slots, last) ==> FreedAgain(Taken(slots, edits), edits) == slots
  {
    if HoldersBelow(slots, last) {
      var after := FreedAgain(Taken(slots, edits), edits);
      forall slot ensures (slot in after <==> slot in slots) && (slot in slots ==> slot in after && after[slot] == slots[slot]) {
        TakenHolders(slots, edits, slot);
        FreedAgainKeeps(Taken(slots, edits), edits, slot);
      }
      assert after == slots;
    }
  }

  // ---- Batches of changes ----

  lemma {:induction false} ChangesAreNoSubmissions(ids: seq<int>, to: TaskStatus)
    ensures forall i :: 0 <= i < |Changes(ids, to)| ==> !Submits(Changes(ids, to)[i])
    decreases |ids|
  {
    if ids != [] { ChangesAreNoSubmissions(ids[1..], to); }
  }

  lemma ResumeIs(m: Mem, drained: seq<int>, n: Mem)
    requires ApplyAll(m.status, Changes(drained, WAITING)) == Some(n.status) && n.log == m.log + Changes(drained, WAITING)
    requires n.heap == m.heap + multiset(drained) && n.delayed == m.delayed - multiset(drained)
    requires n.usage == m.usage && n.lastId == m.lastId
    ensures Resume(m, drained) == Some(n)
  {
    HeapedChanges(m.heap, drained);
  }

  lemma AddApplies(m: Mem, requests: seq<Request>)
    ensures var edits, skip := EditsFor(requests, m.lastId), Refusals(m.status.slots, EditsFor(requests, m.lastId));
            && ApplyAll(Seized(m.status, edits), Accepted(m.status.slots, edits)).Some?
            && |Outcomes(Seized(m.status, edits), edits, skip)| == |edits|
            && forall i :: 0 <= i < |edits| ==> Submits(edits[i]) && edits[i].id > m.lastId
  {
    var edits := EditsFor(requests, m.lastId);
    EditsForAdds(requests, m.lastId);
    AcceptedAreAmong(m.status.slots, edits);
    SubmissionsApply(Seized(m.status, edits), Accepted(m.status.slots, edits));
    AcceptedIsPicked(m.status.slots, edits);
    EnqueuedAll(Seized(m.status, edits), edits, Refusals(m.status.slots, edits), m.heap, m.delayed);
  }

  lemma AddIs(m: Mem, requests: seq<Request>, n: Mem)
    requires var edits, skip := EditsFor(requests, m.lastId), Refusals(m.status.slots, EditsFor(requests, m.lastId));
             var s, accepted := Seized(m.status, edits), Accepted(m.status.slots, edits);
             && ApplyAll(s, accepted) == Some(n.status) && n.log == m.log + accepted && |Outcomes(s, edits, skip)| == |edits|
             && n.heap == Enqueued(m.heap, edits, Outcomes(s, edits, skip), WAITING)
             && n.delayed == Enqueued(m.delayed, edits, Outcomes(s, edits, skip), DELAYED)
    requires n.usage == m.usage && n.lastId == m.lastId + |requests|
    ensures Add(m, requests) == Some(n)
  {
    var edits := EditsFor(requests, m.lastId);
    EditsForAdds(requests, m.lastId);
    AcceptedIsPicked(m.status.slots, edits);
    EnqueuedAll(Seized(m.status, edits), edits, Refusals(m.status.slots, edits), m.heap, m.delayed);
  }

  lemma {:induction false} NothingFreed(slots: map<string, int>, edits: seq<TaskEdit>)
    requires forall i :: 0 <= i < |edits| ==> !Submits(edits[i])
    ensures FreedAgain(slots, edits) == slots
    decreases |edits|
  {
    if edits != [] { NothingFreed(slots, edits[1..]); }
  }

  lemma IdsStep(ps: seq<Prepared>, i: nat, queue: multiset<int>, status: TaskStatus)
    requires i < |ps|
    ensures queue + IdsWith(ps[i..], status)
            == (if ps[i].task.status == status then queue + multiset{ps[i].id} else queue) + IdsWith(ps[i + 1..], status)
  {
    assert ps[i..][0] == ps[i] && ps[i..][1..] == ps[i + 1..];
  }

  function Seized(s: Status, edits: seq<TaskEdit>): Status { s.(slots := Taken(s.slots, edits)) }

  // ---- What the contracts above give over runs ----

  /** There is one pair of queues that agrees with the statuses. */
  lemma RebuiltQueues(tasks: Tasks, heap: multiset<int>, delayed: multiset<int>)
    requires Agree(tasks, heap, delayed)
    ensures heap == IdsAs(tasks, WAITING) && delayed == IdsAs(tasks, DELAYED)
  {
    QueuesAreDetermined(tasks, heap, delayed, IdsAs(tasks, WAITING), IdsAs(tasks, DELAYED));
  }

  /** The queues a boot rebuilds agree, so what else is kept carries over from the broker whose log was recovered. */
  lemma BootIsGood(m: Mem, recovered: Status)
    requires m.status == recovered.(slots := m.status.slots) && Agree(recovered.tasks, m.heap, m.delayed)
    requires PreparedOk(recovered, m.lastId) && AttemptsOk(recovered, m.log)
    ensures GoodMem(m)
  {
    forall tx, i | tx in m.status.transactions && 0 <= i < |m.status.transactions[tx]|
      ensures NewTaskOk(m.status, m.status.transactions[tx][i], m.lastId)
    {
      assert NewTaskOk(recovered, recovered.transactions[tx][i], m.lastId);
    }
    assert forall tx, i :: InPlace(m.status, tx, i) <==> InPlace(recovered, tx, i);
    assert GoodBut(m, {});
    StrandedAre(m, {});
  }

  lemma ResumeKeepsValid(m: Mem, due: seq<int>, n: Mem)
    requires GoodMem(m) && multiset(due) <= m.delayed && Resume(m, FirstOf(due)) == Some(n)
    ensures GoodMem(n)
  {
    if |due| > MAX_SIMULTANEOUS_RESUMED_TASKS {
      assert due == due[..MAX_SIMULTANEOUS_RESUMED_TASKS] + due[MAX_SIMULTANEOUS_RESUMED_TASKS..];
    }
    OperationsKeepValid(m, OpResume(FirstOf(due)), n);
  }

  lemma {:induction false} ChangesFit(s: Status, ids: seq<int>, to: TaskStatus)
    requires forall i :: 0 <= i < |ids| ==> ids[i] in s.tasks
    ensures ApplyAll(s, Changes(ids, to)).Some?
    decreases |ids|
  {
    if ids != [] {
      var t := Apply(s, StatusChange(ids[0], to)).value;
      ApplyHead(s, StatusChange(ids[0], to), Changes(ids[1..], to));
      ChangesFit(t, ids[1..], to);
    }
  }

  /** A broker whose queues agree with its status still does after any of its operations. */
  lemma OperationsKeepValid(m: Mem, op: Op, n: Mem)
    requires GoodMem(m) && Fits(m, op) && Do(m, op).Some? && Same(n, Do(m, op).value)
    ensures GoodMem(n)
  {
    OpKeepsGood(m, op);
  }

  /** A heap in agreement never gives out a task twice. */
  lemma HeapGivesDistinct(tasks: Tasks, heap: multiset<int>, taken: seq<TakenTask>)
    requires HeapAgrees(tasks, heap) && multiset(Ids(taken)) <= heap
    ensures DistinctTaken(taken)
  {
    HeapIsTakeable(tasks, heap, taken);
  }
}
