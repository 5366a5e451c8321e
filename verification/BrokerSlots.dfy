/** Who holds a slot: over every run, expiry and boots included, exactly which tasks hold theirs and which busy slots nobody uses. */
module BrokerSlots {
  import opened Edits
  import opened BrokerState
  import opened BrokerQueues
  import opened BrokerResources
  import opened BrokerOutcomes
  import opened TaskBroker

  predicate Live(t: Task) { t.status == WAITING || t.status == DELAYED || t.status == RUNNING }

  predicate Holds(slots: map<string, int>, slot: Option<string>, id: int) {
    slot.Some? ==> slot.value in slots && slots[slot.value] == id
  }

  predicate PreparedIs(s: Status, tx: int, i: int, id: int) { InPlace(s, tx, i) && s.transactions[tx][i].id == id }

  predicate PreparedUses(s: Status, tx: int, i: int, id: int, slot: string) {
    PreparedIs(s, tx, i, id) && s.transactions[tx][i].task.slot == Some(slot)
  }

  /** The task is in the status or in an open transaction. */
  ghost predicate Present(s: Status, id: int) { id in s.tasks || exists tx, i :: PreparedIs(s, tx, i, id) }

  /** The task asked for this slot and is not over, or prepared. */
  ghost predicate Uses(s: Status, id: int, slot: string) {
    (id in s.tasks && Live(s.tasks[id]) && s.tasks[id].slot == Some(slot)) || exists tx, i :: PreparedUses(s, tx, i, id, slot)
  }

  // ---- The invariant ----

  /** The tasks that hold their slot are those that are not over, but for the ones in `lost`. */
  ghost predicate TasksHold(s: Status, lost: set<int>) {
    forall id :: id in s.tasks && s.tasks[id].slot.Some? ==> (Holds(s.slots, s.tasks[id].slot, id) <==> Live(s.tasks[id]) && id !in lost)
  }

  ghost predicate PreparedHold(s: Status, lost: set<int>) {
    forall tx, i :: InPlace(s, tx, i) ==> PreparedHolds(s, s.transactions[tx][i], lost)
  }

  predicate PreparedHolds(s: Status, p: Prepared, lost: set<int>) {
    p.task.slot.Some? ==> (Holds(s.slots, p.task.slot, p.id) <==> p.id !in lost)
  }

  /** A busy slot is used by its holder, or its holder is nowhere; the latter are the slots in `strays`. */
  ghost predicate Owned(s: Status, strays: set<string>) {
    forall slot :: slot in s.slots ==> if slot in strays then !Present(s, s.slots[slot]) else Uses(s, s.slots[slot], slot)
  }

  ghost predicate Apart(s: Status, last: int) {
    && (forall id :: id in s.tasks ==> id <= last)
    && (forall tx, i :: InPlace(s, tx, i) ==> NewTaskOk(s, s.transactions[tx][i], last))
    && (forall slot :: slot in s.slots ==> s.slots[slot] <= last)
  }

  ghost predicate SlotsExact(s: Status, last: int, lost: set<int>, strays: set<string>) {
    match s
    case Status(_, _, slots) =>
      && Apart(s, last) && TasksHold(s, lost) && PreparedHold(s, lost) && Owned(s, strays)
      && (forall id :: id in lost ==> id <= last) && strays <= slots.Keys
  }

  lemma UseStays(s: Status, t: Status, id: int, slot: string)
    requires Uses(s, id, slot)
    requires id in s.tasks ==> id in t.tasks && t.tasks[id] == s.tasks[id]
    requires forall tx, i :: InPlace(s, tx, i) ==> InPlace(t, tx, i) && t.transactions[tx][i] == s.transactions[tx][i]
    ensures Uses(t, id, slot)
  {
    if tx, i :| PreparedUses(s, tx, i, id, slot) { assert PreparedUses(t, tx, i, id, slot); }
  }

  // ---- Submissions ----

  /** The slot of a submission into a transaction nobody began: taken, but for no task. */
  function StrayOf(s: Status, e: TaskEdit): set<string> {
    if e.PrepareAddTask? && e.tx !in s.transactions && e.task.slot.Some? then {e.task.slot.value} else {}
  }

  function Submitted(s: Status, e: TaskEdit): Status
    requires Submits(e)
  {
    Apply(s.(slots := TakenBy(s.slots, e)), e).value
  }

  lemma AddExact(s: Status, last: int, lost: set<int>, strays: set<string>, e: TaskEdit)
    requires SlotsExact(s, last, lost, strays) && e.AddTask? && e.id > last && !RefusedBy(s.slots, e)
    ensures SlotsExact(Submitted(s, e), e.id, lost, strays)
  {
    var t := Submitted(s, e);
    assert t.transactions == s.transactions && t.tasks == s.tasks[e.id := Made(e.task)];
    forall tx, i | InPlace(t, tx, i) ensures NewTaskOk(t, t.transactions[tx][i], e.id) { assert InPlace(s, tx, i); }
    forall slot | slot in t.slots ensures if slot in strays then !Present(t, t.slots[slot]) else Uses(t, t.slots[slot], slot) {
      if slot in s.slots {
        if slot in strays { AbsentStays(s, t, s.slots[slot]); } else { UseStays(s, t, s.slots[slot], slot); }
      }
    }
  }

  lemma AbsentStays(s: Status, t: Status, id: int)
    requires !Present(s, id) && id !in t.tasks
    requires forall tx, i :: InPlace(t, tx, i) && t.transactions[tx][i].id == id ==> InPlace(s, tx, i) && s.transactions[tx][i].id == id
    ensures !Present(t, id)
  {
    if tx, i :| PreparedIs(t, tx, i, id) { assert PreparedIs(s, tx, i, id); }
  }

  lemma PrepareExact(s: Status, last: int, lost: set<int>, strays: set<string>, e: TaskEdit)
    requires SlotsExact(s, last, lost, strays) && e.PrepareAddTask? && e.id > last && !RefusedBy(s.slots, e) && e.tx in s.transactions
    ensures SlotsExact(Submitted(s, e), e.id, lost, strays)
  {
    var t := Submitted(s, e);
    var n := |s.transactions[e.tx]|;
    assert t.tasks == s.tasks;
    forall tx, i | InPlace(t, tx, i)
      ensures NewTaskOk(t, t.transactions[tx][i], e.id)
      ensures PreparedHolds(t, t.transactions[tx][i], lost)
      ensures InPlace(s, tx, i) || t.transactions[tx][i].id == e.id
    {
      if tx == e.tx && i == n {
        assert t.transactions[tx][i] == Prepared(e.id, Made(e.task));
      } else {
        assert InPlace(s, tx, i) && PreparedHolds(s, s.transactions[tx][i], lost) && NewTaskOk(s, s.transactions[tx][i], last);
      }
    }
    forall slot | slot in t.slots ensures if slot in strays then !Present(t, t.slots[slot]) else Uses(t, t.slots[slot], slot) {
      if slot in s.slots {
        if slot in strays { AbsentStays(s, t, s.slots[slot]); } else { UseStays(s, t, s.slots[slot], slot); }
      } else {
        assert PreparedUses(t, e.tx, n, e.id, slot);
      }
    }
  }

  lemma StrayExact(s: Status, last: int, lost: set<int>, strays: set<string>, e: TaskEdit)
    requires SlotsExact(s, last, lost, strays) && e.PrepareAddTask? && e.id > last && !RefusedBy(s.slots, e) && e.tx !in s.transactions
    ensures SlotsExact(Submitted(s, e), e.id, lost, strays + StrayOf(s, e))
  {
    var t, more := Submitted(s, e), strays + StrayOf(s, e);
    assert t.tasks == s.tasks && t.transactions == s.transactions;
    forall tx, i | InPlace(t, tx, i) ensures NewTaskOk(t, t.transactions[tx][i], e.id) { assert InPlace(s, tx, i); }
    forall slot | slot in t.slots ensures if slot in more then !Present(t, t.slots[slot]) else Uses(t, t.slots[slot], slot) {
      if slot in s.slots {
        if slot in strays { AbsentStays(s, t, s.slots[slot]); } else { UseStays(s, t, s.slots[slot], slot); }
      } else {
        forall tx, i | PreparedIs(t, tx, i, e.id) ensures false { assert InPlace(s, tx, i); }
      }
    }
  }

  /** A batch one submission at a time: each takes its slot when its turn comes, or is refused. */
  function OneByOne(s: Status, edits: seq<TaskEdit>): Status
    requires forall i :: 0 <= i < |edits| ==> Submits(edits[i])
    decreases |edits|
  {
    if edits == [] then s
    else if RefusedBy(s.slots, edits[0]) then OneByOne(s, edits[1..])
    else OneByOne(Submitted(s, edits[0]), edits[1..])
  }

  /** Taking all slots of a batch first comes to the same. */
  lemma {:induction false} BatchIsOneByOne(s: Status, edits: seq<TaskEdit>)
    requires forall i :: 0 <= i < |edits| ==> Submits(edits[i])
    ensures ApplyAll(s.(slots := Taken(s.slots, edits)), Accepted(s.slots, edits)) == Some(OneByOne(s, edits))
    ensures OneByOne(s, edits).slots == Taken(s.slots, edits)
    decreases |edits|
  {
    if edits == [] {
      assert s.(slots := Taken(s.slots, [])) == s;
    } else {
      var e, rest := edits[0], edits[1..];
      if RefusedBy(s.slots, e) {
        assert [] + Accepted(s.slots, rest) == Accepted(s.slots, rest);
        BatchIsOneByOne(s, rest);
      } else {
        var t := Submitted(s, e);
        BatchIsOneByOne(t, rest);
        assert t.slots == TakenBy(s.slots, e);
        var big := Taken(t.slots, rest);
        if e.task.slot.Some? { TakenHolders(t.slots, rest, e.task.slot.value); }
        ApplyHead(s.(slots := big), e, Accepted(t.slots, rest));
        assert Apply(s.(slots := big), e) == Some(t.(slots := big));
      }
    }
  }

  /** The slots of the accepted submissions of a batch into transactions nobody began. */
  function StraysOf(s: Status, accepted: seq<TaskEdit>): set<string> {
    set e | e in accepted && e.PrepareAddTask? && e.tx !in s.transactions && e.task.slot.Some? :: e.task.slot.value
  }

  lemma {:induction false} OneByOneExact(s: Status, last: int, lost: set<int>, strays: set<string>, edits: seq<TaskEdit>)
    requires SlotsExact(s, last, lost, strays) && Submissions(edits, last)
    ensures forall end :: last <= end && (forall i :: 0 <= i < |edits| ==> edits[i].id <= end) ==>
              SlotsExact(OneByOne(s, edits), end, lost, strays + StraysOf(s, Accepted(s.slots, edits)))
    decreases |edits|
  {
    if edits == [] {
      assert strays + StraysOf(s, []) == strays;
      forall end | last <= end ensures SlotsExact(s, end, lost, strays) { LastMoves(s, last, lost, strays, end); }
    } else {
      var e, rest := edits[0], edits[1..];
      if RefusedBy(s.slots, e) {
        assert [] + Accepted(s.slots, rest) == Accepted(s.slots, rest);
        OneByOneExact(s, last, lost, strays, rest);
      } else {
        SubmitExact(s, last, lost, strays, e);
        var t := Submitted(s, e);
        OneByOneExact(t, e.id, lost, strays + StrayOf(s, e), rest);
        StraysSplit(s, t, e, Accepted(t.slots, rest));
        assert strays + StrayOf(s, e) + StraysOf(t, Accepted(t.slots, rest)) == strays + StraysOf(s, Accepted(s.slots, edits));
      }
    }
  }

  lemma SubmitExact(s: Status, last: int, lost: set<int>, strays: set<string>, e: TaskEdit)
    requires SlotsExact(s, last, lost, strays) && Submits(e) && e.id > last && !RefusedBy(s.slots, e)
    ensures SlotsExact(Submitted(s, e), e.id, lost, strays + StrayOf(s, e))
    ensures Submitted(s, e).transactions.Keys == s.transactions.Keys && Submitted(s, e).slots == TakenBy(s.slots, e)
  {
    if e.AddTask? {
      AddExact(s, last, lost, strays, e);
      assert strays + {} == strays;
    } else if e.tx in s.transactions {
      PrepareExact(s, last, lost, strays, e);
      assert strays + {} == strays;
    } else {
      StrayExact(s, last, lost, strays, e);
    }
  }

  lemma StraysSplit(s: Status, t: Status, e: TaskEdit, more: seq<TaskEdit>)
    requires s.transactions.Keys == t.transactions.Keys
    ensures StraysOf(s, [e] + more) == StrayOf(s, e) + StraysOf(t, more)
  {
    assert e in [e] + more;
    assert forall d :: d in [e] + more <==> d == e || d in more;
  }

  lemma LastMoves(s: Status, last: int, lost: set<int>, strays: set<string>, end: int)
    requires SlotsExact(s, last, lost, strays) && last <= end
    ensures SlotsExact(s, end, lost, strays)
  {
    forall tx, i | InPlace(s, tx, i) ensures NewTaskOk(s, s.transactions[tx][i], end) { assert NewTaskOk(s, s.transactions[tx][i], last); }
  }

  // ---- Status changes and assignments ----

  /** The tasks that are over and set back to waiting. */
  function RevivedAmong(tasks: Tasks, ids: seq<int>): set<int> { set id | id in ids && id in tasks && !Live(tasks[id]) }

  predicate Ends(to: TaskStatus) { to == FINISHED || to == ERROR }

  /** What a task in place becomes, with the slot freed if that ends it. */
  lemma ChangeExact(s: Status, last: int, lost: set<int>, strays: set<string>, id: int, to: TaskStatus)
    requires SlotsExact(s, last, lost, strays) && id in s.tasks && (Ends(to) || to == WAITING)
    ensures SlotsExact(Apply(s, StatusChange(id, to)).value, last, if Ends(to) then lost else lost + RevivedAmong(s.tasks, [id]), strays)
  {
    var t := Apply(s, StatusChange(id, to)).value;
    assert t.transactions == s.transactions;
    forall tx, i | InPlace(t, tx, i)
      ensures NewTaskOk(t, t.transactions[tx][i], last) && PreparedHolds(t, t.transactions[tx][i], if Ends(to) then lost else lost + RevivedAmong(s.tasks, [id]))
    {
      assert InPlace(s, tx, i) && NewTaskOk(s, s.transactions[tx][i], last) && PreparedHolds(s, s.transactions[tx][i], lost);
    }
    forall slot | slot in t.slots ensures if slot in strays then !Present(t, t.slots[slot]) else Uses(t, t.slots[slot], slot) {
      assert slot in s.slots && s.slots[slot] == t.slots[slot];
      var h := s.slots[slot];
      if slot in strays {
        AbsentStays(s, t, h);
      } else if tx, i :| PreparedUses(s, tx, i, h, slot) {
        assert PreparedUses(t, tx, i, h, slot);
      }
    }
    forall slot | slot in strays ensures slot in t.slots { assert !Present(s, s.slots[slot]); }
  }

  lemma AssignExact(s: Status, last: int, lost: set<int>, strays: set<string>, e: TaskEdit)
    requires SlotsExact(s, last, lost, strays) && e.AssignTask? && e.worker != "" && e.id in s.tasks && Live(s.tasks[e.id])
    ensures SlotsExact(Apply(s, e).value, last, lost, strays)
  {
    var t := Apply(s, e).value;
    assert t.transactions == s.transactions && t.slots == s.slots;
    forall tx, i | InPlace(t, tx, i) ensures NewTaskOk(t, t.transactions[tx][i], last) && PreparedHolds(t, t.transactions[tx][i], lost) {
      assert InPlace(s, tx, i) && NewTaskOk(s, s.transactions[tx][i], last) && PreparedHolds(s, s.transactions[tx][i], lost);
    }
    forall slot | slot in t.slots ensures if slot in strays then !Present(t, t.slots[slot]) else Uses(t, t.slots[slot], slot) {
      if slot in strays {
        AbsentStays(s, t, s.slots[slot]);
      } else if tx, i :| PreparedUses(s, tx, i, s.slots[slot], slot) {
        assert PreparedUses(t, tx, i, s.slots[slot], slot);
      }
    }
  }

  lemma {:induction false} ChangesExact(s: Status, last: int, lost: set<int>, strays: set<string>, ids: seq<int>, to: TaskStatus)
    requires SlotsExact(s, last, lost, strays) && (to == ERROR || to == WAITING)
    requires forall i :: 0 <= i < |ids| ==> ids[i] in s.tasks
    ensures match ApplyAll(s, Changes(ids, to))
            case None => false
            case Some(t) => SlotsExact(t, last, if Ends(to) then lost else lost + RevivedAmong(s.tasks, ids), strays)
    decreases |ids|
  {
    if ids == [] {
      assert lost + RevivedAmong(s.tasks, []) == lost;
    } else {
      var e, rest := StatusChange(ids[0], to), ids[1..];
      ChangeExact(s, last, lost, strays, ids[0], to);
      var t := Apply(s, e).value;
      ApplyHead(s, e, Changes(rest, to));
      assert forall i :: 0 <= i < |rest| ==> rest[i] == ids[i + 1];
      ChangesExact(t, last, if Ends(to) then lost else lost + RevivedAmong(s.tasks, [ids[0]]), strays, rest, to);
      if to == WAITING { RevivedSplit(s.tasks, t.tasks, lost, ids); }
    }
  }

  lemma RevivedSplit(tasks: Tasks, after: Tasks, lost: set<int>, ids: seq<int>)
    requires ids != [] && ids[0] in tasks && after == tasks[ids[0] := tasks[ids[0]].(status := WAITING)]
    ensures lost + RevivedAmong(tasks, [ids[0]]) + RevivedAmong(after, ids[1..]) == lost + RevivedAmong(tasks, ids)
  {
    assert ids == [ids[0]] + ids[1..];
    forall id ensures id in RevivedAmong(tasks, ids) <==> id in RevivedAmong(tasks, [ids[0]]) || id in RevivedAmong(after, ids[1..]) {
      assert id in ids <==> id == ids[0] || id in ids[1..];
    }
  }

  /** Which tasks are over for now; `ended`: those that were. */
  function EndedBy(tasks: Tasks, r: Report, ended: set<int>): set<int> {
    if !Changing(tasks, r) then ended else if Retries(tasks, r) then ended - {r.id} else ended + {r.id}
  }

  /** The tasks that a batch of reports ends and then sets back to waiting. */
  function Reopened(tasks: Tasks, rs: seq<Report>, ended: set<int>): set<int>
    decreases |rs|
  {
    if rs == [] then {}
    else (if Retries(tasks, rs[0]) && rs[0].id in ended then {rs[0].id} else {}) + Reopened(tasks, rs[1..], EndedBy(tasks, rs[0], ended))
  }

  lemma {:induction false} FinishesExact(before: Tasks, s: Status, last: int, lost: set<int>, strays: set<string>, rs: seq<Report>, ended: set<int>)
    requires SlotsExact(s, last, lost, strays)
    requires forall id :: Has(before, id, RUNNING) ==> id in s.tasks && (id in ended <==> !Live(s.tasks[id]))
    ensures match ApplyAll(s, FinishEdits(before, rs)) case None => false case Some(t) => SlotsExact(t, last, lost + Reopened(before, rs, ended), strays)
    decreases |rs|
  {
    if rs == [] {
      assert lost + {} == lost;
    } else {
      var r, rest := rs[0], rs[1..];
      var es, more := FinishEdit(before, r), FinishEdits(before, rest);
      var next := EndedBy(before, r, ended);
      if es == [] {
        assert es + more == more;
        FinishesExact(before, s, last, lost, strays, rest, next);
        assert {} + Reopened(before, rest, next) == Reopened(before, rest, next);
      } else {
        assert es == [es[0]];
        ApplyHead(s, es[0], more);
        var t := Apply(s, es[0]).value;
        ChangeExact(s, last, lost, strays, r.id, es[0].to);
        var now := if Retries(before, r) && r.id in ended then {r.id} else {};
        assert (if Ends(es[0].to) then lost else lost + RevivedAmong(s.tasks, [r.id])) == lost + now;
        FinishesExact(before, t, last, lost + now, strays, rest, next);
        assert lost + now + Reopened(before, rest, next) == lost + Reopened(before, rs, ended);
      }
    }
  }

  /** A batch that names each task once reopens none. */
  lemma {:induction false} DistinctReopenNone(tasks: Tasks, rs: seq<Report>, ended: set<int>)
    requires DistinctReports(rs) && forall i :: 0 <= i < |rs| ==> rs[i].id !in ended
    ensures Reopened(tasks, rs, ended) == {}
    decreases |rs|
  {
    if rs != [] { DistinctReopenNone(tasks, rs[1..], EndedBy(tasks, rs[0], ended)); }
  }

  lemma {:induction false} AssignsExact(before: Tasks, s: Status, last: int, lost: set<int>, strays: set<string>, taken: seq<TakenTask>, worker: string)
    requires SlotsExact(s, last, lost, strays) && ApplyAll(s, AssignEdits(before, taken, worker)).Some?
    requires forall i :: 0 <= i < |taken| ==> taken[i].id in before && taken[i].id in s.tasks && Live(s.tasks[taken[i].id])
    ensures SlotsExact(ApplyAll(s, AssignEdits(before, taken, worker)).value, last, lost, strays)
    decreases |taken|
  {
    if taken != [] {
      var rest := taken[1..];
      var e := AssignEditsHead(before, taken, worker);
      var more := AssignEdits(before, rest, worker);
      assert ([e] + more)[0] == e;
      ApplyHead(s, e, more);
      var t := Apply(s, e).value;
      AssignExact(s, last, lost, strays, e);
      forall i | 0 <= i < |rest| ensures rest[i].id in before && rest[i].id in t.tasks && Live(t.tasks[rest[i].id]) {
        assert rest[i] == taken[i + 1];
      }
      AssignsExact(before, t, last, lost, strays, rest, worker);
    }
  }

  // ---- Transactions ----

  lemma CommitExact(m: Mem, lost: set<int>, strays: set<string>, tx: int)
    requires GoodMem(m) && SlotsExact(m.status, m.lastId, lost, strays) && tx in m.status.transactions
    ensures SlotsExact(Commit(m, tx).status, m.lastId, lost, strays)
  {
    var s, t := m.status, Commit(m, tx).status;
    var ps := s.transactions[tx];
    PreparedDistinct(m, tx);
    forall id ensures id in t.tasks <==> id in s.tasks || exists i :: 0 <= i < |ps| && ps[i].id == id { PutMembers(s.tasks, ps, id); }
    forall id | id in t.tasks
      ensures id <= m.lastId && (t.tasks[id].slot.Some? ==> (Holds(t.slots, t.tasks[id].slot, id) <==> Live(t.tasks[id]) && id !in lost))
    {
      PutMembers(s.tasks, ps, id);
      if i :| 0 <= i < |ps| && ps[i].id == id {
        assert InPlace(s, tx, i) && NewTaskOk(s, s.transactions[tx][i], m.lastId) && PreparedHolds(s, s.transactions[tx][i], lost);
      }
    }
    forall ty, i | InPlace(t, ty, i)
      ensures NewTaskOk(t, t.transactions[ty][i], m.lastId) && PreparedHolds(t, t.transactions[ty][i], lost)
    {
      assert InPlace(s, ty, i) && NewTaskOk(s, s.transactions[ty][i], m.lastId) && PreparedHolds(s, s.transactions[ty][i], lost);
      forall j | 0 <= j < |ps| ensures ps[j].id != s.transactions[ty][i].id { assert InPlace(s, tx, j); }
    }
    forall slot | slot in t.slots ensures if slot in strays then !Present(t, t.slots[slot]) else Uses(t, t.slots[slot], slot) {
      CommittedOwner(s, t, tx, s.slots[slot], slot);
    }
  }

  lemma PreparedDistinct(m: Mem, tx: int)
    requires GoodMem(m) && tx in m.status.transactions
    ensures forall i, j :: 0 <= i < j < |m.status.transactions[tx]| ==> m.status.transactions[tx][i].id != m.status.transactions[tx][j].id
  {
    var ps := m.status.transactions[tx];
    forall i, j | 0 <= i < j < |ps| ensures ps[i].id != ps[j].id { assert InPlace(m.status, tx, i) && InPlace(m.status, tx, j); }
  }

  /** A commit moves prepared tasks into the status, so nobody appears or disappears and each use stays. */
  lemma CommittedOwner(s: Status, t: Status, tx: int, h: int, slot: string)
    requires tx in s.transactions && t == s.(tasks := PutAll(s.tasks, s.transactions[tx]), transactions := s.transactions - {tx})
    requires forall i, j :: 0 <= i < j < |s.transactions[tx]| ==> s.transactions[tx][i].id != s.transactions[tx][j].id
    requires forall i :: 0 <= i < |s.transactions[tx]| ==> NewTaskOk(s, s.transactions[tx][i], s.transactions[tx][i].id)
    ensures !Present(s, h) ==> !Present(t, h)
    ensures Uses(s, h, slot) ==> Uses(t, h, slot)
  {
    var ps := s.transactions[tx];
    PutMembers(s.tasks, ps, h);
    if !Present(s, h) {
      forall i | 0 <= i < |ps| ensures ps[i].id != h { assert !PreparedIs(s, tx, i, h); }
      AbsentStays(s, t, h);
    }
    if Uses(s, h, slot) && !(h in s.tasks && Live(s.tasks[h]) && s.tasks[h].slot == Some(slot)) {
      var ty, i :| PreparedUses(s, ty, i, h, slot);
      if ty != tx { assert PreparedUses(t, ty, i, h, slot); }
    }
  }

  /** The slot with the empty name is not freed by the rollback of the transaction that holds it. */
  function Abandoned(s: Status, tx: int): set<string> {
    if tx in s.transactions && "" in s.slots
       && exists i :: 0 <= i < |s.transactions[tx]| && s.transactions[tx][i].id == s.slots[""] && s.transactions[tx][i].task.slot == Some("")
    then {""} else {}
  }

  lemma RollbackExact(m: Mem, lost: set<int>, strays: set<string>, tx: int)
    requires GoodMem(m) && SlotsExact(m.status, m.lastId, lost, strays) && tx in m.status.transactions
    ensures SlotsExact(Rollback(m, tx).status, m.lastId, lost, strays + Abandoned(m.status, tx))
  {
    var s, t := m.status, Rollback(m, tx).status;
    var ps := s.transactions[tx];
    forall slot ensures slot in t.slots ==> slot in s.slots && t.slots[slot] == s.slots[slot] { FreedExactly(s.slots, ps, slot); }
    RollbackHolders(m, lost, strays, tx);
    forall slot | slot in t.slots
      ensures if slot in strays + Abandoned(s, tx) then !Present(t, t.slots[slot]) else Uses(t, t.slots[slot], slot)
    {
      RollbackOwner(m, lost, strays, tx, slot);
    }
    forall slot | slot in strays + Abandoned(s, tx) ensures slot in t.slots { StrayStaysBusy(m, lost, strays, tx, slot); }
  }

  lemma StrayStaysBusy(m: Mem, lost: set<int>, strays: set<string>, tx: int, slot: string)
    requires SlotsExact(m.status, m.lastId, lost, strays) && tx in m.status.transactions && slot in strays + Abandoned(m.status, tx)
    ensures slot in Rollback(m, tx).status.slots
  {
    var s := m.status;
    var ps := s.transactions[tx];
    FreedExactly(s.slots, ps, slot);
    if slot in strays {
      forall i | 0 <= i < |ps| ensures ps[i].id != s.slots[slot] { assert !PreparedIs(s, tx, i, s.slots[slot]); }
    }
  }

  lemma RollbackHolders(m: Mem, lost: set<int>, strays: set<string>, tx: int)
    requires GoodMem(m) && SlotsExact(m.status, m.lastId, lost, strays) && tx in m.status.transactions
    ensures var t := Rollback(m, tx).status; TasksHold(t, lost) && PreparedHold(t, lost) && Apart(t, m.lastId)
  {
    var s, t := m.status, Rollback(m, tx).status;
    var ps := s.transactions[tx];
    forall i | 0 <= i < |ps| ensures ps[i].id !in s.tasks { assert InPlace(s, tx, i) && NewTaskOk(s, s.transactions[tx][i], m.lastId); }
    forall id | id in t.tasks && t.tasks[id].slot.Some?
      ensures Holds(t.slots, t.tasks[id].slot, id) <==> Live(t.tasks[id]) && id !in lost
    {
      FreedExactly(s.slots, ps, t.tasks[id].slot.value);
    }
    forall ty, j | InPlace(t, ty, j)
      ensures NewTaskOk(t, t.transactions[ty][j], m.lastId) && PreparedHolds(t, t.transactions[ty][j], lost)
    {
      var p := t.transactions[ty][j];
      assert InPlace(s, ty, j) && NewTaskOk(s, s.transactions[ty][j], m.lastId) && PreparedHolds(s, s.transactions[ty][j], lost);
      forall i | 0 <= i < |ps| ensures ps[i].id != p.id { assert InPlace(s, tx, i); }
      if p.task.slot.Some? { FreedExactly(s.slots, ps, p.task.slot.value); }
    }
    forall slot | slot in t.slots ensures t.slots[slot] <= m.lastId { FreedExactly(s.slots, ps, slot); }
  }

  lemma RollbackOwner(m: Mem, lost: set<int>, strays: set<string>, tx: int, slot: string)
    requires GoodMem(m) && SlotsExact(m.status, m.lastId, lost, strays) && tx in m.status.transactions && slot in Rollback(m, tx).status.slots
    ensures var t := Rollback(m, tx).status;
            if slot in strays + Abandoned(m.status, tx) then !Present(t, t.slots[slot]) else Uses(t, t.slots[slot], slot)
  {
    var s, t := m.status, Rollback(m, tx).status;
    var ps := s.transactions[tx];
    FreedExactly(s.slots, ps, slot);
    var h := s.slots[slot];
    if slot in strays {
      AbsentStays(s, t, h);
    } else if i :| 0 <= i < |ps| && ps[i].id == h {
      assert InPlace(s, tx, i) && NewTaskOk(s, s.transactions[tx][i], m.lastId);
      UserIsPrepared(m, tx, i, slot);
      forall ty, j | PreparedIs(t, ty, j, h) ensures false { assert InPlace(s, ty, j); }
    } else if ty, j :| PreparedUses(s, ty, j, h, slot) {
      assert PreparedUses(t, ty, j, h, slot);
    }
  }

  /** Where the holder of a slot is prepared, it is prepared with that slot. */
  lemma UserIsPrepared(m: Mem, tx: int, i: int, slot: string)
    requires GoodMem(m) && InPlace(m.status, tx, i) && Uses(m.status, m.status.transactions[tx][i].id, slot)
    ensures m.status.transactions[tx][i].task.slot == Some(slot)
  {
    var s := m.status;
    assert NewTaskOk(s, s.transactions[tx][i], m.lastId);
    var ty, j :| PreparedUses(s, ty, j, s.transactions[tx][i].id, slot);
    assert InPlace(s, ty, j);
  }

  lemma BeginExact(m: Mem, lost: set<int>, strays: set<string>, tx: int)
    requires SlotsExact(m.status, m.lastId, lost, strays) && tx !in m.status.transactions
    ensures SlotsExact(Begin(m, tx).status, m.lastId, lost, strays)
  {
    var s, t := m.status, Begin(m, tx).status;
    forall ty, i | InPlace(t, ty, i)
      ensures NewTaskOk(t, t.transactions[ty][i], m.lastId) && PreparedHolds(t, t.transactions[ty][i], lost)
    {
      assert InPlace(s, ty, i) && NewTaskOk(s, s.transactions[ty][i], m.lastId) && PreparedHolds(s, s.transactions[ty][i], lost);
    }
    forall slot | slot in t.slots ensures if slot in strays then !Present(t, t.slots[slot]) else Uses(t, t.slots[slot], slot) {
      if slot in strays { AbsentStays(s, t, s.slots[slot]); } else { UseStays(s, t, s.slots[slot], slot); }
    }
  }

  // ---- Runs ----

  /** The slots that an operation leaves busy although no task it knows asked for them. */
  function Strays(m: Mem, op: Op): set<string> {
    match op
    case OpAdd(rs) => StraysOf(m.status, Accepted(m.status.slots, EditsFor(rs, m.lastId)))
    case OpRollback(tx) => Abandoned(m.status, tx)
    case _ => {}
  }

  /** The tasks that an operation sets back to waiting after they were over, and so had given their slot back. */
  function Revived(m: Mem, op: Op): set<int> {
    match op
    case OpResume(drained) => RevivedAmong(m.status.tasks, drained)
    case OpFinish(rs) => Reopened(m.status.tasks, rs, {})
    case _ => {}
  }

  /** The tasks that ask for a slot which a boot gives to another one, or which has no name. */
  function LostAt(s: Status, slots: map<string, int>): set<int> {
    (set id | id in s.tasks && Live(s.tasks[id]) && !Holds(slots, s.tasks[id].slot, id))
    + set tx, i | tx in s.transactions && 0 <= i < |s.transactions[tx]| && !Holds(slots, s.transactions[tx][i].task.slot, s.transactions[tx][i].id)
        :: s.transactions[tx][i].id
  }

  /** The stray slots after a run, and the tasks without their slot, if those in `strays` and `lost` were before: a boot starts anew. */
  ghost function StraysBy(m: Mem, ops: seq<Op>, strays: set<string>): set<string>
    decreases |ops|
  {
    if ops == [] then strays
    else match Do(m, ops[0])
      case None => strays
      case Some(n) => StraysBy(n, ops[1..], if ops[0].OpBoot? then {} else strays + Strays(m, ops[0]))
  }

  ghost function LostBy(m: Mem, ops: seq<Op>, lost: set<int>): set<int>
    decreases |ops|
  {
    if ops == [] then lost
    else match Do(m, ops[0])
      case None => lost
      case Some(n) => LostBy(n, ops[1..], if ops[0].OpBoot? then LostAt(m.status, ops[0].slots) else lost + Revived(m, ops[0]))
  }

  lemma BootExact(m: Mem, slots: map<string, int>, workers: set<string>, last: int)
    requires GoodMem(m) && BusySlots(m.status, slots) && KnowsIds(m.status, last)
    ensures SlotsExact(Booted(m.status, m.log, slots, workers, last).status, last, LostAt(m.status, slots), {})
  {
    var s, t, lost := m.status, m.status.(slots := slots), LostAt(m.status, slots);
    forall slot | slot in slots ensures Uses(t, slots[slot], slot) && slots[slot] <= last {
      OccupantUses(s, slots[slot], slot);
      UseStays(s, t, slots[slot], slot);
      UsersArePresent(t, slots[slot], slot);
      if tx, i :| PreparedIs(t, tx, i, slots[slot]) { assert InPlace(s, tx, i); }
    }
    forall tx, i | InPlace(t, tx, i) ensures NewTaskOk(t, t.transactions[tx][i], last) && PreparedHolds(t, t.transactions[tx][i], lost) {
      assert InPlace(s, tx, i) && NewTaskOk(s, s.transactions[tx][i], m.lastId);
      OneLost(m, slots, tx, i);
    }
    forall id | id in t.tasks && t.tasks[id].slot.Some? ensures Holds(slots, t.tasks[id].slot, id) <==> Live(t.tasks[id]) && id !in lost {
      TaskLost(m, slots, id);
    }
    forall id | id in lost ensures id <= last {
      if id !in s.tasks {
        var tx, i :| tx in s.transactions && 0 <= i < |s.transactions[tx]| && s.transactions[tx][i].id == id;
        assert InPlace(s, tx, i);
      }
    }
  }

  lemma OneLost(m: Mem, slots: map<string, int>, tx: int, i: int)
    requires GoodMem(m) && InPlace(m.status, tx, i)
    ensures var p := m.status.transactions[tx][i]; Holds(slots, p.task.slot, p.id) <==> p.id !in LostAt(m.status, slots)
  {
    var s, id := m.status, m.status.transactions[tx][i].id;
    assert NewTaskOk(s, s.transactions[tx][i], m.lastId);
    forall ty, j | ty in s.transactions && 0 <= j < |s.transactions[ty]| && s.transactions[ty][j].id == id ensures ty == tx && j == i {
      assert InPlace(s, ty, j);
    }
  }

  lemma TaskLost(m: Mem, slots: map<string, int>, id: int)
    requires GoodMem(m) && BusySlots(m.status, slots) && id in m.status.tasks && m.status.tasks[id].slot.Some?
    ensures Holds(slots, m.status.tasks[id].slot, id) <==> Live(m.status.tasks[id]) && id !in LostAt(m.status, slots)
  {
    var s := m.status;
    forall tx, i | tx in s.transactions && 0 <= i < |s.transactions[tx]| ensures s.transactions[tx][i].id != id {
      assert InPlace(s, tx, i) && NewTaskOk(s, s.transactions[tx][i], m.lastId);
    }
    if Holds(slots, s.tasks[id].slot, id) {
      assert Occupies(s, id, s.tasks[id].slot.value);
      if tx, i :| PreparedOccupies(s, tx, i, s.tasks[id].slot.value) && s.transactions[tx][i].id == id { assert false; }
    }
  }

  lemma AddOpExact(m: Mem, lost: set<int>, strays: set<string>, rs: seq<Request>)
    requires SlotsExact(m.status, m.lastId, lost, strays)
    ensures Add(m, rs).Some?
    ensures SlotsExact(Add(m, rs).value.status, Add(m, rs).value.lastId, lost, strays + Strays(m, OpAdd(rs)))
  {
    var edits := EditsFor(rs, m.lastId);
    EditsForAdds(rs, m.lastId);
    BatchIsOneByOne(m.status, edits);
    OneByOneExact(m.status, m.lastId, lost, strays, edits);
  }

  lemma DrainedAreIn(m: Mem, drained: seq<int>)
    requires GoodMem(m) && multiset(drained) <= m.delayed
    ensures forall i :: 0 <= i < |drained| ==> drained[i] in m.status.tasks
  {
    forall i | 0 <= i < |drained| ensures drained[i] in m.status.tasks {
      assert drained[i] in multiset(drained);
      assert m.delayed[drained[i]] >= 1;
      assert m.delayed[drained[i]] == Bit(Has(m.status.tasks, drained[i], DELAYED) || drained[i] in StrandedIn(m));
    }
  }

  lemma TakenAreWaiting(m: Mem, taken: seq<TakenTask>)
    requires GoodMem(m) && multiset(Ids(taken)) <= m.heap
    ensures forall i :: 0 <= i < |taken| ==> Has(m.status.tasks, taken[i].id, WAITING)
  {
    IdsAt(taken);
    forall i | 0 <= i < |taken| ensures Has(m.status.tasks, taken[i].id, WAITING) {
      assert Ids(taken)[i] in multiset(Ids(taken));
      assert m.heap[taken[i].id] >= 1;
    }
  }

  lemma OpExact(m: Mem, lost: set<int>, strays: set<string>, op: Op)
    requires GoodMem(m) && SlotsExact(m.status, m.lastId, lost, strays) && Fits(m, op) && Do(m, op).Some? && !op.OpBoot?
    ensures SlotsExact(Do(m, op).value.status, Do(m, op).value.lastId, lost + Revived(m, op), strays + Strays(m, op))
  {
    assert lost + {} == lost && strays + {} == strays;
    match op
    case OpAdd(rs) => AddOpExact(m, lost, strays, rs);
    case OpBegin(tx) => BeginExact(m, lost, strays, tx);
    case OpCommit(tx) => if tx in m.status.transactions { CommitExact(m, lost, strays, tx); }
    case OpRollback(tx) => if tx in m.status.transactions { RollbackExact(m, lost, strays, tx); }
    case OpResume(drained) =>
      DrainedAreIn(m, drained);
      ChangesExact(m.status, m.lastId, lost, strays, drained, WAITING);
    case OpAssign(taken, worker) =>
      TakenAreWaiting(m, taken);
      AssignsExact(m.status.tasks, m.status, m.lastId, lost, strays, taken, worker);
    case OpFinish(rs) => FinishesExact(m.status.tasks, m.status, m.lastId, lost, strays, rs, {});
    case OpWorkerDied(ids, now) =>
      DeathReportsFit(m.status.tasks, ids, now);
      DistinctReopenNone(m.status.tasks, DeathReports(m.status.tasks, ids, now), {});
      FinishesExact(m.status.tasks, m.status, m.lastId, lost, strays, DeathReports(m.status.tasks, ids, now), {});
    case OpExpire(ids, _) => ChangesExact(m.status, m.lastId, lost, strays, ids, ERROR);
  }

  lemma {:induction false} RunExact(m: Mem, lost: set<int>, strays: set<string>, ops: seq<Op>, end: Mem)
    requires GoodMem(m) && SlotsExact(m.status, m.lastId, lost, strays) && Runs(m, ops, end)
    ensures SlotsExact(end.status, end.lastId, LostBy(m, ops, lost), StraysBy(m, ops, strays))
    decreases |ops|
  {
    if ops != [] {
      var op, n := ops[0], Do(m, ops[0]).value;
      OpKeepsGood(m, op);
      if op.OpBoot? {
        BootExact(m, op.slots, op.workers, op.last);
        RunExact(n, LostAt(m.status, op.slots), {}, ops[1..], end);
      } else {
        OpExact(m, lost, strays, op);
        RunExact(n, lost + Revived(m, op), strays + Strays(m, op), ops[1..], end);
      }
    }
  }

  lemma FromFresh(ops: seq<Op>, end: Mem)
    requires Runs(FRESH, ops, end)
    ensures SlotsExact(end.status, end.lastId, LostBy(FRESH, ops, {}), StraysBy(FRESH, ops, {}))
  {
    FreshIsGood();
    StrandedAre(FRESH, {});
    RunExact(FRESH, {}, {}, ops, end);
  }

  // ---- Main results ----

  /** After every run the holder of a busy slot uses it, unless the slot is a stray; and a stray is busy for nobody. */
  lemma BusyIsUsedIff(ops: seq<Op>, end: Mem, slot: string)
    requires Runs(FRESH, ops, end) && slot in end.status.slots
    ensures Uses(end.status, end.status.slots[slot], slot) <==> slot !in StraysBy(FRESH, ops, {})
    ensures slot in StraysBy(FRESH, ops, {}) ==> !Present(end.status, end.status.slots[slot])
  {
    FromFresh(ops, end);
    UsersArePresent(end.status, end.status.slots[slot], slot);
  }

  lemma UsersArePresent(s: Status, id: int, slot: string)
    ensures Uses(s, id, slot) ==> Present(s, id)
  {
    if tx, i :| PreparedUses(s, tx, i, id, slot) { assert PreparedIs(s, tx, i, id); }
  }

  /** So every busy slot is in use after exactly the runs that made no stray since the last boot: only a boot frees a stray. */
  lemma AllSlotsUsedIff(ops: seq<Op>, end: Mem)
    requires Runs(FRESH, ops, end)
    ensures (forall slot :: slot in end.status.slots ==> Uses(end.status, end.status.slots[slot], slot)) <==> StraysBy(FRESH, ops, {}) == {}
    ensures StraysBy(FRESH, ops, {}) <= end.status.slots.Keys
  {
    FromFresh(ops, end);
    forall slot | slot in end.status.slots
      ensures Uses(end.status, end.status.slots[slot], slot) <==> slot !in StraysBy(FRESH, ops, {})
    {
      BusyIsUsedIff(ops, end, slot);
    }
  }

  /** After every run a task holds the slot it asked for exactly when it is not over and has not lost it: by a revival, or to a boot. */
  lemma LiveHoldsIff(ops: seq<Op>, end: Mem, id: int)
    requires Runs(FRESH, ops, end) && id in end.status.tasks && end.status.tasks[id].slot.Some?
    ensures Holds(end.status.slots, end.status.tasks[id].slot, id) <==> Live(end.status.tasks[id]) && id !in LostBy(FRESH, ops, {})
  {
    FromFresh(ops, end);
  }

  /** After every run, of two tasks that are not over and ask for one slot, at least one has lost it. */
  lemma SlotsExclude(ops: seq<Op>, end: Mem, id: int, other: int)
    requires Runs(FRESH, ops, end) && id in end.status.tasks && other in end.status.tasks
    requires Live(end.status.tasks[id]) && Live(end.status.tasks[other])
    requires end.status.tasks[id].slot.Some? && end.status.tasks[id].slot == end.status.tasks[other].slot
    ensures id == other || id in LostBy(FRESH, ops, {}) || other in LostBy(FRESH, ops, {})
  {
    FromFresh(ops, end);
  }

  /** What a resume revives was stranded by an expiry; a batch that names each task once revives nothing; nor does anything else. */
  lemma RevivedWasStranded(m: Mem, op: Op)
    requires GoodMem(m) && Fits(m, op)
    ensures op.OpResume? ==> Revived(m, op) <= StrandedIn(m)
    ensures !op.OpResume? && !(op.OpFinish? && !DistinctReports(op.reports)) ==> Revived(m, op) == {}
  {
    if op.OpFinish? && DistinctReports(op.reports) { DistinctReopenNone(m.status.tasks, op.reports, {}); }
    if op.OpResume? {
      forall id | id in RevivedAmong(m.status.tasks, op.drained) ensures id in StrandedIn(m) {
        assert id in multiset(op.drained);
        assert m.delayed[id] >= 1;
      }
    }
  }

  /** A boot gives each named slot to its holder again unless a task that lost it asks for it, and frees the strays nobody asks for. */
  lemma BootKeepsHolders(ops: seq<Op>, end: Mem, slots: map<string, int>)
    requires Runs(FRESH, ops, end) && BusySlots(end.status, slots)
    ensures forall slot :: slot in slots && slots[slot] !in LostBy(FRESH, ops, {}) ==>
              slot in end.status.slots && slots[slot] == end.status.slots[slot]
    ensures forall slot :: slot in end.status.slots && slot != "" && slot !in StraysBy(FRESH, ops, {}) ==> slot in slots
    ensures forall slot :: slot in StraysBy(FRESH, ops, {}) && slot in slots ==> slots[slot] in LostBy(FRESH, ops, {})
  {
    FromFresh(ops, end);
    forall slot | slot in slots && slots[slot] !in LostBy(FRESH, ops, {})
      ensures slot in end.status.slots && slots[slot] == end.status.slots[slot] && slot !in StraysBy(FRESH, ops, {})
    {
      OccupantHolds(end.status, LostBy(FRESH, ops, {}), slots[slot], slot);
      OccupantUses(end.status, slots[slot], slot);
      BusyIsUsedIff(ops, end, slot);
    }
    forall slot | slot in end.status.slots && slot != "" && slot !in StraysBy(FRESH, ops, {}) ensures slot in slots {
      BusyIsUsedIff(ops, end, slot);
      OccupantUses(end.status, end.status.slots[slot], slot);
    }
  }

  lemma OccupantUses(s: Status, id: int, slot: string)
    ensures Occupies(s, id, slot) <==> Uses(s, id, slot) && slot != ""
  {
    if tx, i :| PreparedOccupies(s, tx, i, slot) && s.transactions[tx][i].id == id { assert PreparedUses(s, tx, i, id, slot); }
    if tx, i :| PreparedUses(s, tx, i, id, slot) && slot != "" { assert PreparedOccupies(s, tx, i, slot); }
  }

  lemma OccupantHolds(s: Status, lost: set<int>, id: int, slot: string)
    requires TasksHold(s, lost) && PreparedHold(s, lost) && Occupies(s, id, slot) && id !in lost
    ensures slot in s.slots && s.slots[slot] == id
  {
    if !(id in s.tasks && TaskOccupies(s.tasks[id], slot)) {
      var tx, i :| PreparedOccupies(s, tx, i, slot) && s.transactions[tx][i].id == id;
      assert InPlace(s, tx, i);
    }
  }

  // ---- Runs that fail ----

  lemma AddOneTo(m: Mem, r: Request)
    requires r.task.slot.Some? ==> r.task.slot.value !in m.status.slots
    ensures var e := EditFor(r, m.lastId + 1);
            && EditsFor([r], m.lastId) == [e] && Accepted(m.status.slots, [e]) == [e]
            && Add(m, [r]) == Some(m.(status := Submitted(m.status, e), log := m.log + [e], heap := HeapedOne(m.heap, e),
                 delayed := DelayedOne(m.delayed, e), lastId := m.lastId + 1))
  {
    var e := EditFor(r, m.lastId + 1);
    assert [r][1..] == [] && [e][1..] == [] && [e] + [] == [e];
    assert EditsFor([r], m.lastId) == [e] + EditsFor([], m.lastId + 1) == [e];
    assert Accepted(m.status.slots, [e]) == [e] + Accepted(TakenBy(m.status.slots, e), []) == [e];
    BatchIsOneByOne(m.status, [e]);
    assert OneByOne(m.status, [e]) == OneByOne(Submitted(m.status, e), []) == Submitted(m.status, e);
    assert Heaped(m.heap, [e]) == Heaped(HeapedOne(m.heap, e), []) && Delayed(m.delayed, [e]) == Delayed(DelayedOne(m.delayed, e), []);
  }

  /** A submission into an unknown transaction is answered with no task, but keeps its slot busy until the next boot. */
  lemma UnknownTransactionKeepsSlot(m: Mem, tx: int, n: NewTask, slot: string)
    requires tx > 0 && tx !in m.status.transactions && n.slot == Some(slot) && slot !in m.status.slots
    ensures Add(m, [Request(tx, n)]).Some? && Strays(m, OpAdd([Request(tx, n)])) == {slot}
    ensures var t := Add(m, [Request(tx, n)]).value.status;
            t.tasks == m.status.tasks && t.transactions == m.status.transactions && slot in t.slots
    ensures Answers(m, [Request(tx, n)]) == [0]
  {
    var r, e, slots := Request(tx, n), PrepareAddTask(tx, m.lastId + 1, n), m.status.slots;
    AddOneTo(m, r);
    StraysSplit(m.status, m.status, e, []);
    assert [e] + [] == [e] && [e][1..] == [];
    var s := Seized(m.status, [e]);
    assert Refusals(slots, [e]) == [false] + Refusals(TakenBy(slots, e), []) == [false];
    assert [false][1..] == [];
    assert Outcomes(s, [e], [false]) == [NoTransaction] + Outcomes(s, [], []) == [NoTransaction];
  }

  /** One submission into a transaction nobody began: the slot is busy and no task exists. */
  lemma StrayRun() returns (ops: seq<Op>, end: Mem)
    ensures Runs(FRESH, ops, end) && StraysBy(FRESH, ops, {}) == {"s"}
    ensures "s" in end.status.slots && end.status.tasks == map[] && end.status.transactions == map[]
  {
    var r := Request(7, NewTask(0, 0, 0, Some("s"), false));
    UnknownTransactionKeepsSlot(FRESH, 7, r.task, "s");
    end := Add(FRESH, [r]).value;
    ops := [OpAdd([r])];
    assert ops == [OpAdd([r])] + [];
    RunsCons(FRESH, ops[0], end, [], end);
    assert StraysBy(FRESH, ops, {}) == StraysBy(end, [], {} + Strays(FRESH, ops[0]));
  }

  lemma ChangeOne(m: Mem, id: int, to: TaskStatus)
    requires id in m.status.tasks
    ensures Changes([id], to) == [StatusChange(id, to)]
    ensures ApplyAll(m.status, Changes([id], to)) == Apply(m.status, StatusChange(id, to))
  {
    var e := StatusChange(id, to);
    assert [id][1..] == [] && [e] + [] == [e];
    assert Changes([id], to) == [e] + Changes([], to);
    ApplyHead(m.status, e, []);
  }

  /** A delayed task expires and gives its slot back; a resume revives it; another task takes the slot. */
  lemma RevivedShares(m: Mem, id: int, now: int, n: NewTask, slot: string) returns (m1: Mem, m2: Mem, m3: Mem)
    requires Has(m.status.tasks, id, DELAYED) && Overdue(m.status.tasks[id], now) && m.status.tasks[id].slot == Some(slot)
    requires slot in m.status.slots && m.status.slots[slot] == id && m.delayed[id] == 1 && id <= m.lastId && n.slot == Some(slot) && !n.later
    ensures m2.lastId == m.lastId && Reaches(m, OpExpire([id], now), m1) && Reaches(m1, OpResume([id]), m2) && Reaches(m2, OpAdd([Request(0, n)]), m3)
    ensures var other, tasks := m2.lastId + 1, m3.status.tasks;
            id != other && Has(tasks, id, WAITING) && Has(tasks, other, WAITING) && tasks[id].slot == tasks[other].slot == Some(slot)
  {
    ChangeOne(m, id, ERROR);
    m1 := Expire(m, [id]).value;
    ChangeOne(m1, id, WAITING);
    m2 := Resume(m1, [id]).value;
    AddOneTo(m2, Request(0, n));
    m3 := Add(m2, [Request(0, n)]).value;
  }

  lemma RunsFour(m: Mem, a: Op, m1: Mem, b: Op, m2: Mem, c: Op, m3: Mem, d: Op, end: Mem) returns (ops: seq<Op>)
    requires Reaches(m, a, m1) && Reaches(m1, b, m2) && Reaches(m2, c, m3) && Reaches(m3, d, end)
    ensures ops == [a, b, c, d] && Runs(m, ops, end)
  {
    RunsCons(m3, d, end, [], end);
    RunsCons(m2, c, m3, [d] + [], end);
    RunsCons(m1, b, m2, [c] + ([d] + []), end);
    RunsCons(m, a, m1, [b] + ([c] + ([d] + [])), end);
    ops := [a] + ([b] + ([c] + ([d] + [])));
  }

  /** A delayed task with a slot and a deadline, submitted first. */
  lemma SubmitDelayed() returns (op: Op, m: Mem)
    ensures op.OpAdd? && Reaches(FRESH, op, m) && m.lastId == 1 && m.delayed[1] == 1
    ensures Has(m.status.tasks, 1, DELAYED) && m.status.tasks[1].slot == Some("s") && Overdue(m.status.tasks[1], 2)
    ensures "s" in m.status.slots && m.status.slots["s"] == 1
  {
    var r := Request(0, NewTask(0, 0, 1, Some("s"), true));
    AddOneTo(FRESH, r);
    op, m := OpAdd([r]), Add(FRESH, [r]).value;
  }

  /** Four operations after which two waiting tasks ask for one slot. */
  lemma SharedSlotRun() returns (ops: seq<Op>, end: Mem)
    ensures Runs(FRESH, ops, end) && |ops| == 4 && Has(end.status.tasks, 1, WAITING) && Has(end.status.tasks, 2, WAITING)
    ensures end.status.tasks[1].slot == end.status.tasks[2].slot == Some("s")
  {
    var op, m := SubmitDelayed();
    var n := NewTask(0, 0, 0, Some("s"), false);
    var m1, m2;
    m1, m2, end := RevivedShares(m, 1, 2, n, "s");
    ops := RunsFour(FRESH, op, m, OpExpire([1], 2), m1, OpResume([1]), m2, OpAdd([Request(0, n)]), end);
  }
}
