/** Tasks as the log records them, the broker's queues and counters, and what each broker operation does to both. */
module BrokerState {
  import opened Edits
  import opened ResourceNames

  datatype TaskStatus = WAITING | RUNNING | FINISHED | ERROR | DELAYED

  datatype Task = Task(
    status: TaskStatus,
    attempts: int,
    maxattempts: int,
    deadline: int,
    slot: Option<string>,
    resources: Option<string>,
    worker: Option<string>)

  /** A submission.  `later`: its requested start time lies ahead. */
  datatype NewTask = NewTask(attempt: int, maxattempts: int, deadline: int, slot: Option<string>, later: bool)

  /** The edits of the log that concern tasks. */
  datatype TaskEdit =
    | AssignTask(id: int, worker: string, attempt: int, resources: Option<string>)
    | StatusChange(id: int, to: TaskStatus)
    | AddTask(id: int, task: NewTask)
    | PrepareAddTask(tx: int, id: int, task: NewTask)
    | BeginTransaction(tx: int)
    | CommitTransaction(tx: int)
    | RollbackTransaction(tx: int)

  datatype Prepared = Prepared(id: int, task: Task)

  type Tasks = map<int, Task>

  datatype Status = Status(tasks: Tasks, transactions: map<int, seq<Prepared>>, slots: map<string, int>)

  predicate Has(tasks: Tasks, id: int, status: TaskStatus) { id in tasks && tasks[id].status == status }

  // ---- Applying edits ----

  function Made(t: NewTask): Task {
    Task(if t.later then DELAYED else WAITING, t.attempt, t.maxattempts, t.deadline, t.slot, None, None)
  }

  /** A slot is taken only if it is free. */
  function TakeSlot(slots: map<string, int>, slot: Option<string>, id: int): map<string, int> {
    if slot.Some? && slot.value !in slots then slots[slot.value := id] else slots
  }

  /** A slot is freed only by the task that holds it. */
  function FreeSlot(slots: map<string, int>, slot: Option<string>, id: int): map<string, int> {
    if slot.Some? && slot.value in slots && slots[slot.value] == id then slots - {slot.value} else slots
  }

  /** A rollback leaves the slot with the empty name alone. */
  function FreeSlots(slots: map<string, int>, ps: seq<Prepared>): map<string, int>
    decreases |ps|
  {
    if ps == [] then slots
    else FreeSlots(if ps[0].task.slot == Some("") then slots else FreeSlot(slots, ps[0].task.slot, ps[0].id), ps[1..])
  }

  function PutAll(tasks: Tasks, ps: seq<Prepared>): Tasks
    decreases |ps|
  {
    if ps == [] then tasks else PutAll(tasks[ps[0].id := ps[0].task], ps[1..])
  }

  function Assigned(t: Task, e: TaskEdit): Task
    requires e.AssignTask?
  {
    // a null resource list leaves the one of an earlier assignment in place
    t.(status := RUNNING, worker := Some(e.worker), attempts := e.attempt,
       resources := if e.resources.Some? then e.resources else t.resources)
  }

  /** The next status; `None` where applying throws, which the broker does not survive. */
  function Apply(s: Status, e: TaskEdit): Option<Status> {
    match e
    case AssignTask(id, worker, attempt, resources) =>
      if id !in s.tasks || worker == "" then None
      else Some(s.(tasks := s.tasks[id := Assigned(s.tasks[id], e)]))
    case StatusChange(id, to) =>
      if id !in s.tasks then None
      else
        var t := s.tasks[id].(status := to);
        Some(s.(tasks := s.tasks[id := t], slots := if to == FINISHED || to == ERROR then FreeSlot(s.slots, t.slot, id) else s.slots))
    case AddTask(id, task) =>
      Some(s.(tasks := s.tasks[id := Made(task)], slots := TakeSlot(s.slots, task.slot, id)))
    case PrepareAddTask(tx, id, task) =>
      if tx !in s.transactions then Some(s)
      else Some(s.(transactions := s.transactions[tx := s.transactions[tx] + [Prepared(id, Made(task))]],
                   slots := TakeSlot(s.slots, task.slot, id)))
    case BeginTransaction(tx) => Some(s.(transactions := s.transactions[tx := []]))
    case CommitTransaction(tx) =>
      if tx !in s.transactions then Some(s)
      else Some(s.(tasks := PutAll(s.tasks, s.transactions[tx]), transactions := s.transactions - {tx}))
    case RollbackTransaction(tx) =>
      if tx !in s.transactions then Some(s)
      else Some(s.(transactions := s.transactions - {tx}, slots := FreeSlots(s.slots, s.transactions[tx])))
  }

  function ApplyAll(s: Status, edits: seq<TaskEdit>): Option<Status>
    decreases |edits|
  {
    if edits == [] then Some(s)
    else match Apply(s, edits[0])
      case None => None
      case Some(t) => ApplyAll(t, edits[1..])
  }

  // ---- Queues ----

  /** What a batch of successful edits adds to the heap: tasks added or set back to waiting. */
  function Heaped(heap: multiset<int>, edits: seq<TaskEdit>): multiset<int>
    decreases |edits|
  {
    if edits == [] then heap else Heaped(HeapedOne(heap, edits[0]), edits[1..])
  }

  function HeapedOne(heap: multiset<int>, e: TaskEdit): multiset<int> {
    if (e.StatusChange? && e.to == WAITING) || (e.AddTask? && !e.task.later) then heap + multiset{e.id} else heap
  }

  function Delayed(delayed: multiset<int>, edits: seq<TaskEdit>): multiset<int>
    decreases |edits|
  {
    if edits == [] then delayed else Delayed(DelayedOne(delayed, edits[0]), edits[1..])
  }

  function DelayedOne(delayed: multiset<int>, e: TaskEdit): multiset<int> {
    if e.AddTask? && e.task.later then delayed + multiset{e.id} else delayed
  }

  /** The ids of prepared tasks with a given status. */
  function IdsWith(ps: seq<Prepared>, status: TaskStatus): multiset<int>
    decreases |ps|
  {
    if ps == [] then multiset{}
    else (if ps[0].task.status == status then multiset{ps[0].id} else multiset{}) + IdsWith(ps[1..], status)
  }

  // ---- Counters ----

  /** A counter per resource, and uses and releases not yet added to it. */
  datatype Usage = Usage(counters: map<string, int>, used: multiset<string>, released: multiset<string>)

  function Count(u: Usage, r: string): int {
    (if r in u.counters then u.counters[r] else 0) + u.used[r] - u.released[r]
  }

  // ---- The broker ----

  /** The logged status and all edits logged so far; the heap, the delayed queue and the global counters; the last id given out. */
  datatype Mem = Mem(status: Status, log: seq<TaskEdit>, heap: multiset<int>, delayed: multiset<int>, usage: Usage, lastId: int)

  datatype Request = Request(tx: int, task: NewTask)

  function EditFor(r: Request, id: int): TaskEdit {
    if r.tx > 0 then PrepareAddTask(r.tx, id, r.task) else AddTask(id, r.task)
  }

  function EditsFor(rs: seq<Request>, lastId: int): seq<TaskEdit>
    decreases |rs|
  {
    if rs == [] then [] else [EditFor(rs[0], lastId + 1)] + EditsFor(rs[1..], lastId + 1)
  }

  predicate Submits(e: TaskEdit) { e.AddTask? || e.PrepareAddTask? }

  /** A submission whose slot is busy is refused and never logged. */
  predicate RefusedBy(slots: map<string, int>, e: TaskEdit) { Submits(e) && e.task.slot.Some? && e.task.slot.value in slots }

  function TakenBy(slots: map<string, int>, e: TaskEdit): map<string, int> {
    if Submits(e) then TakeSlot(slots, e.task.slot, e.id) else slots
  }

  /** The edits that are not refused when their turn comes. */
  function Accepted(slots: map<string, int>, edits: seq<TaskEdit>): seq<TaskEdit>
    decreases |edits|
  {
    if edits == [] then []
    else (if RefusedBy(slots, edits[0]) then [] else [edits[0]]) + Accepted(TakenBy(slots, edits[0]), edits[1..])
  }

  /** The slots once the whole batch has asked for its own. */
  function Taken(slots: map<string, int>, edits: seq<TaskEdit>): map<string, int>
    decreases |edits|
  {
    if edits == [] then slots else Taken(TakenBy(slots, edits[0]), edits[1..])
  }

  lemma {:induction false} EditsForAdds(rs: seq<Request>, lastId: int)
    ensures |EditsFor(rs, lastId)| == |rs|
    ensures forall i :: 0 <= i < |rs| ==> EditsFor(rs, lastId)[i] == EditFor(rs[i], lastId + 1 + i)
    decreases |rs|
  {
    if rs != [] { EditsForAdds(rs[1..], lastId + 1); }
  }

  /** addTask and addTasks: slots are taken for the whole batch first, then the accepted edits are logged and applied. */
  function Add(m: Mem, rs: seq<Request>): Option<Mem> {
    EditsForAdds(rs, m.lastId);
    var edits := EditsFor(rs, m.lastId);
    var accepted := Accepted(m.status.slots, edits);
    match ApplyAll(m.status.(slots := Taken(m.status.slots, edits)), accepted)
    case None => None
    case Some(status) =>
      Some(m.(status := status, log := m.log + accepted, heap := Heaped(m.heap, accepted),
              delayed := Delayed(m.delayed, accepted), lastId := m.lastId + |rs|))
  }

  function Begin(m: Mem, tx: int): Mem {
    m.(status := m.status.(transactions := m.status.transactions[tx := []]), log := m.log + [BeginTransaction(tx)])
  }

  /** commitTransaction: an unknown transaction is logged and then refused. */
  function Commit(m: Mem, tx: int): Mem {
    var logged := m.(log := m.log + [CommitTransaction(tx)]);
    if tx !in m.status.transactions then logged
    else
      var ps := m.status.transactions[tx];
      logged.(status := m.status.(tasks := PutAll(m.status.tasks, ps), transactions := m.status.transactions - {tx}),
              heap := m.heap + IdsWith(ps, WAITING), delayed := m.delayed + IdsWith(ps, DELAYED))
  }

  function Rollback(m: Mem, tx: int): Mem {
    var logged := m.(log := m.log + [RollbackTransaction(tx)]);
    if tx !in m.status.transactions then logged
    else
      logged.(status := m.status.(transactions := m.status.transactions - {tx}, slots := FreeSlots(m.status.slots, m.status.transactions[tx])))
  }

  function Changes(ids: seq<int>, to: TaskStatus): seq<TaskEdit>
    decreases |ids|
  {
    if ids == [] then [] else [StatusChange(ids[0], to)] + Changes(ids[1..], to)
  }

  /** resumeDelayedTasks: the drained tasks become waiting. */
  function Resume(m: Mem, drained: seq<int>): Option<Mem> {
    var edits := Changes(drained, WAITING);
    match ApplyAll(m.status, edits)
    case None => None
    case Some(status) =>
      Some(m.(status := status, log := m.log + edits, heap := Heaped(m.heap, edits), delayed := m.delayed - multiset(drained)))
  }

  /** A task taken from the heap with the resources the mapper gave it. */
  datatype TakenTask = TakenTask(id: int, resourceIds: Option<seq<string>>)

  function Ids(taken: seq<TakenTask>): seq<int>
    decreases |taken|
  {
    if taken == [] then [] else [taken[0].id] + Ids(taken[1..])
  }

  function Listed(resourceIds: Option<seq<string>>): Option<string> {
    match resourceIds case None => None case Some(ids) => Some(Join(ids))
  }

  /** The edits of one assignment, computed before any of them is applied. */
  function AssignEdits(tasks: Tasks, taken: seq<TakenTask>, worker: string): seq<TaskEdit>
    decreases |taken|
  {
    if taken == [] then []
    else
      var rest := AssignEdits(tasks, taken[1..], worker);
      if taken[0].id in tasks
      then [AssignTask(taken[0].id, worker, tasks[taken[0].id].attempts + 1, Listed(taken[0].resourceIds))] + rest
      else rest
  }

  function Used(tasks: Tasks, taken: seq<TakenTask>): multiset<string>
    decreases |taken|
  {
    if taken == [] then multiset{}
    else (if taken[0].id in tasks && taken[0].resourceIds.Some? then multiset(taken[0].resourceIds.value) else multiset{})
         + Used(tasks, taken[1..])
  }

  /** assignTasksToWorker, for the tasks the heap gave out. */
  function Assign(m: Mem, taken: seq<TakenTask>, worker: string): Option<Mem> {
    var edits := AssignEdits(m.status.tasks, taken, worker);
    match ApplyAll(m.status, edits)
    case None => None
    case Some(status) =>
      Some(m.(status := status, log := m.log + edits, heap := m.heap - multiset(Ids(taken)),
              usage := m.usage.(used := m.usage.used + Used(m.status.tasks, taken))))
  }

  /** A worker's report on a task, and the clock when it is looked at. */
  datatype Report = Report(id: int, final: TaskStatus, now: int)

  /** What becomes of a running task whose execution failed. */
  function AfterFailure(t: Task, now: int): TaskStatus {
    if t.maxattempts > 0 && t.attempts >= t.maxattempts then ERROR
    else if t.deadline > 0 && t.deadline < now then ERROR
    else WAITING
  }

  /** A final status the broker does not expect throws. */
  predicate Bad(tasks: Tasks, r: Report) {
    r.id in tasks && tasks[r.id].status == RUNNING && (r.final == WAITING || r.final == RUNNING)
  }

  /** Reports on tasks that are gone or not running, and reports of a delay, are ignored. */
  function FinishEdit(tasks: Tasks, r: Report): seq<TaskEdit> {
    if r.id !in tasks || tasks[r.id].status != RUNNING then []
    else match r.final
      case FINISHED => [StatusChange(r.id, FINISHED)]
      case ERROR => [StatusChange(r.id, AfterFailure(tasks[r.id], r.now))]
      case _ => []
  }

  function FinishEdits(tasks: Tasks, rs: seq<Report>): seq<TaskEdit>
    decreases |rs|
  {
    if rs == [] then [] else FinishEdit(tasks, rs[0]) + FinishEdits(tasks, rs[1..])
  }

  function SplitOf(t: Task): seq<string> {
    match t.resources case None => [] case Some(s) => Split(s)
  }

  /** What the edits of a batch release, read off the tasks before the batch. */
  function Released(tasks: Tasks, edits: seq<TaskEdit>): multiset<string>
    decreases |edits|
  {
    if edits == [] then multiset{}
    else (if edits[0].StatusChange? && edits[0].id in tasks then multiset(SplitOf(tasks[edits[0].id])) else multiset{})
         + Released(tasks, edits[1..])
  }

  predicate Changing(tasks: Tasks, r: Report) { FinishEdit(tasks, r) != [] }

  /** A failure report on a running task that may be tried again. */
  predicate Retries(tasks: Tasks, r: Report) {
    Has(tasks, r.id, RUNNING) && r.final == ERROR && AfterFailure(tasks[r.id], r.now) == WAITING
  }

  /** No report that leads to a retry is followed by another one that changes the same task. */
  ghost predicate RetriesLast(tasks: Tasks, rs: seq<Report>) {
    forall id :: RetryLast(tasks, rs, id)
  }

  ghost predicate RetryLast(tasks: Tasks, rs: seq<Report>, id: int) {
    forall i, j :: 0 <= i < j < |rs| && rs[i].id == id && Retries(tasks, rs[i]) && rs[j].id == id ==> !Changing(tasks, rs[j])
  }

  /** tasksFinished: every edit is decided on the status before the batch. */
  function Finish(m: Mem, rs: seq<Report>): Option<Mem> {
    var edits := FinishEdits(m.status.tasks, rs);
    if exists i :: 0 <= i < |rs| && Bad(m.status.tasks, rs[i]) then None
    else match ApplyAll(m.status, edits)
      case None => None
      case Some(status) =>
        Some(m.(status := status, log := m.log + edits, heap := Heaped(m.heap, edits),
                usage := m.usage.(released := m.usage.released + Released(m.status.tasks, edits))))
  }

  /** The running ones among the tasks of a dead worker are reported as failed. */
  function DeathReports(tasks: Tasks, ids: seq<int>, now: int): seq<Report>
    decreases |ids|
  {
    if ids == [] then []
    else
      (if ids[0] in tasks && tasks[ids[0]].status == RUNNING then [Report(ids[0], ERROR, now)] else []) + DeathReports(tasks, ids[1..], now)
  }

  predicate Overdue(t: Task, now: int) {
    (t.status == WAITING || t.status == DELAYED) && t.deadline > 0 && t.deadline < now
  }

  ghost predicate ExpiredIds(tasks: Tasks, ids: seq<int>, now: int) {
    && (forall i :: 0 <= i < |ids| ==> ids[i] in tasks && Overdue(tasks[ids[i]], now))
    && (forall i, j :: 0 <= i < j < |ids| ==> ids[i] != ids[j])
  }

  /** Every entry of these ids leaves the heap. */
  function Without(heap: multiset<int>, ids: seq<int>): multiset<int>
    decreases |ids|
  {
    if ids == [] then heap else Without(heap[ids[0] := 0], ids[1..])
  }

  /** purgeTasks: overdue tasks leave the heap and are logged as failed; the delayed queue is not touched. */
  function Expire(m: Mem, ids: seq<int>): Option<Mem> {
    var edits := Changes(ids, ERROR);
    match ApplyAll(m.status, edits)
    case None => None
    case Some(status) => Some(m.(status := status, log := m.log + edits, heap := Without(m.heap, ids)))
  }

  // ---- Boots ----

  function Running(tasks: Tasks): map<int, multiset<string>> {
    map id | id in tasks && tasks[id].status == RUNNING :: multiset(SplitOf(tasks[id]))
  }

  ghost function Sum(m: map<int, multiset<string>>): multiset<string>
    decreases |m|
  {
    if forall k :: k !in m then multiset{}
    else
      var k :| k in m;
      m[k] + Sum(m - {k})
  }

  /** The running tasks whose worker the status knows. */
  function KnownRunning(tasks: Tasks, workers: set<string>): map<int, multiset<string>> {
    map id | id in tasks && tasks[id].status == RUNNING && tasks[id].worker.Some? && tasks[id].worker.value in workers
      :: multiset(SplitOf(tasks[id]))
  }

  predicate InPlace(s: Status, tx: int, i: int) { tx in s.transactions && 0 <= i < |s.transactions[tx]| }

  predicate TaskOccupies(t: Task, slot: string) {
    slot != "" && t.slot == Some(slot) && (t.status == WAITING || t.status == DELAYED || t.status == RUNNING)
  }

  predicate PreparedOccupies(s: Status, tx: int, i: int, slot: string) {
    slot != "" && InPlace(s, tx, i) && s.transactions[tx][i].task.slot == Some(slot)
  }

  /** A task that is not over, or one prepared in an open transaction, occupies its slot. */
  ghost predicate Occupies(s: Status, id: int, slot: string) {
    (id in s.tasks && TaskOccupies(s.tasks[id], slot))
    || exists tx, i :: PreparedOccupies(s, tx, i, slot) && s.transactions[tx][i].id == id
  }

  /** The slots in use, each with one of the tasks that occupy it. */
  ghost predicate BusySlots(s: Status, slots: map<string, int>) {
    && (forall slot :: slot in slots ==> Occupies(s, slots[slot], slot))
    && (forall id, slot :: Occupies(s, id, slot) ==> slot in slots)
  }

  function IdsAs(tasks: Tasks, status: TaskStatus): multiset<int> {
    multiset(set id | id in tasks && tasks[id].status == status)
  }

  /** A broker that takes over: queues and counters are rebuilt from the logged status, and the slots are `slots`. */
  ghost function Booted(s: Status, log: seq<TaskEdit>, slots: map<string, int>, workers: set<string>, last: int): Mem {
    Mem(s.(slots := slots), log, IdsAs(s.tasks, WAITING), IdsAs(s.tasks, DELAYED),
        Usage(map[], Sum(KnownRunning(s.tasks, workers)), multiset{}), last)
  }

  // ---- Runs ----

  datatype Op =
    | OpAdd(requests: seq<Request>)
    | OpBegin(tx: int)
    | OpCommit(tx: int)
    | OpRollback(tx: int)
    | OpResume(drained: seq<int>)
    | OpAssign(taken: seq<TakenTask>, worker: string)
    | OpFinish(reports: seq<Report>)
    | OpWorkerDied(ids: seq<int>, now: int)
    | OpExpire(ids: seq<int>, now: int)
    | OpBoot(slots: map<string, int>, workers: set<string>, last: int)

  ghost function Do(m: Mem, op: Op): Option<Mem> {
    match op
    case OpAdd(rs) => Add(m, rs)
    case OpBegin(tx) => Some(Begin(m, tx))
    case OpCommit(tx) => Some(Commit(m, tx))
    case OpRollback(tx) => Some(Rollback(m, tx))
    case OpResume(drained) => Resume(m, drained)
    case OpAssign(taken, worker) => Assign(m, taken, worker)
    case OpFinish(rs) => Finish(m, rs)
    case OpWorkerDied(ids, now) => Finish(m, DeathReports(m.status.tasks, ids, now))
    case OpExpire(ids, _) => Expire(m, ids)
    case OpBoot(slots, workers, last) => Some(Booted(m.status, m.log, slots, workers, last))
  }

  /**
   * What the callers and the queues guarantee: the heap and the delayed queue give out entries they hold; in a batch
   * of reports no retry is followed by another change of its task; transaction ids are new; what expires is overdue; a
   * boot knows the ids in use.
   */
  ghost predicate Fits(m: Mem, op: Op) {
    match op
    case OpAdd(_) => true
    case OpBegin(tx) => tx !in m.status.transactions
    case OpCommit(_) => true
    case OpRollback(_) => true
    case OpResume(drained) => multiset(drained) <= m.delayed
    case OpAssign(taken, worker) => multiset(Ids(taken)) <= m.heap
    case OpFinish(rs) => RetriesLast(m.status.tasks, rs)
    case OpWorkerDied(ids, _) => forall i, j :: 0 <= i < j < |ids| ==> ids[i] != ids[j]
    case OpExpire(ids, now) => ExpiredIds(m.status.tasks, ids, now)
    case OpBoot(slots, _, last) => BusySlots(m.status, slots) && KnowsIds(m.status, last)
  }

  /** The last id given out is not below any id of a task in the status or in an open transaction. */
  ghost predicate KnowsIds(s: Status, last: int) {
    (forall id :: id in s.tasks ==> id <= last) && forall tx, i :: InPlace(s, tx, i) ==> s.transactions[tx][i].id <= last
  }

  ghost predicate DistinctReports(rs: seq<Report>) {
    forall i, j :: 0 <= i < j < |rs| ==> rs[i].id != rs[j].id
  }

  /** Successive operations, each succeeding. */
  ghost predicate Runs(m: Mem, ops: seq<Op>, end: Mem)
    decreases |ops|
  {
    if ops == [] then end == m
    else Fits(m, ops[0]) && Do(m, ops[0]).Some? && Runs(Do(m, ops[0]).value, ops[1..], end)
  }

  const FRESH := Mem(Status(map[], map[], map[]), [], multiset{}, multiset{}, Usage(map[], multiset{}, multiset{}), 0)
}
