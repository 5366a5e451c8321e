/** The list of ledgers a broker uses: active ids, their creation timestamps, and the first ledger ever used. */
module Ledgers {
  import opened LogPositions
  import opened Edits

  /** What the list node holds: ids and timestamps are parallel lists. */
  datatype LedgersData = LedgersData(active: seq<int>, timestamps: seq<int>, first: int) {
    ghost predicate Paired() { |active| == |timestamps| }
  }

  const NO_LEDGERS := LedgersData([], [], -1)

  function Added(v: LedgersData, id: int, now: int): LedgersData {
    LedgersData(v.active + [id], v.timestamps + [now], if v.first < 0 then id else v.first)
  }

  /** The first position of `id`, or -1. */
  function IndexOf(ids: seq<int>, id: int): (i: int)
    ensures if id in ids then 0 <= i < |ids| && ids[i] == id && id !in ids[..i] else i == -1
  {
    if ids == [] then -1
    else if ids[0] == id then 0
    else
      var i := IndexOf(ids[1..], id);
      if i < 0 then -1 else (assert ids[..i + 1] == [ids[0]] + ids[1..][..i]; i + 1)
  }

  /** Remove the entry at `i` from both lists. */
  function RemovedAt(v: LedgersData, i: nat): LedgersData
    requires v.Paired() && i < |v.active|
  {
    v.(active := v.active[..i] + v.active[i + 1..], timestamps := v.timestamps[..i] + v.timestamps[i + 1..])
  }

  function Removed(v: LedgersData, id: int): LedgersData
    requires v.Paired()
  {
    if id in v.active then RemovedAt(v, IndexOf(v.active, id)) else v
  }

  /** The ids created before `limit`, in list order. */
  function Old(v: LedgersData, limit: int): seq<int>
    requires v.Paired()
    decreases |v.active|
  {
    if v.active == [] then []
    else (if v.timestamps[0] < limit then [v.active[0]] else []) + Old(Tail(v), limit)
  }

  function Tail(v: LedgersData): (t: LedgersData)
    requires v.Paired() && v.active != []
    ensures t.Paired()
  {
    v.(active := v.active[1..], timestamps := v.timestamps[1..])
  }

  /** A broker's copy of the list. */
  class LedgersInfo {
    var activeLedgers: seq<int>
    var ledgersTimestamps: seq<int>
    var firstLedger: int
    var zkVersion: int

    ghost predicate Valid()
      reads this
    {
      |activeLedgers| == |ledgersTimestamps|
    }

    function Value(): LedgersData
      reads this
    {
      LedgersData(activeLedgers, ledgersTimestamps, firstLedger)
    }

    /** Nothing stored means an empty list. */
    constructor Deserialize(data: Option<LedgersData>, version: int)
      requires data.Some? ==> data.value.Paired()
      ensures Valid() && zkVersion == version
      ensures Value() == if data.Some? then data.value else NO_LEDGERS
    {
      var v := if data.Some? then data.value else NO_LEDGERS;
      activeLedgers, ledgersTimestamps, firstLedger, zkVersion := v.active, v.timestamps, v.first, version;
    }

    method AddLedger(id: int, now: int)
      requires Valid()
      modifies this
      ensures Valid() && zkVersion == old(zkVersion)
      ensures Value() == Added(old(Value()), id, now)
    {
      activeLedgers := activeLedgers + [id];
      ledgersTimestamps := ledgersTimestamps + [now];
      if firstLedger < 0 {
        firstLedger := id;
      }
    }

    /** `found` is false where the id is not listed and the list stays as it is. */
    method RemoveLedger(id: int) returns (found: bool)
      requires Valid()
      modifies this
      ensures Valid() && zkVersion == old(zkVersion)
      ensures found <==> id in old(activeLedgers)
      ensures Value() == Removed(old(Value()), id)
    {
      var index := -1;
      var i := 0;
      while i < |activeLedgers| && index < 0
        invariant 0 <= i <= |activeLedgers|
        invariant index < 0 ==> index == -1 && id !in activeLedgers[..i]
        invariant index >= 0 ==> index == IndexOf(activeLedgers, id)
      {
        if activeLedgers[i] == id {
          assert activeLedgers[IndexOf(activeLedgers, id)] == id;
          index := i;
        }
        i := i + 1;
      }
      if index < 0 {
        return false;
      }
      activeLedgers := activeLedgers[..index] + activeLedgers[index + 1..];
      ledgersTimestamps := ledgersTimestamps[..index] + ledgersTimestamps[index + 1..];
      return true;
    }

    method GetOldLedgers(timestamp: int) returns (res: seq<int>)
      requires Valid()
      ensures res == Old(Value(), timestamp)
    {
      res := [];
      var i := 0;
      while i < |activeLedgers|
        invariant 0 <= i <= |activeLedgers|
        invariant res + Old(LedgersData(activeLedgers[i..], ledgersTimestamps[i..], firstLedger), timestamp) == Old(Value(), timestamp)
      {
        var rest := LedgersData(activeLedgers[i..], ledgersTimestamps[i..], firstLedger);
        assert Tail(rest) == LedgersData(activeLedgers[i + 1..], ledgersTimestamps[i + 1..], firstLedger);
        if ledgersTimestamps[i] < timestamp {
          res := res + [activeLedgers[i]];
        }
        i := i + 1;
      }
    }
  }

  // ---- Retention ----

  ghost predicate Distinct(ids: seq<int>) {
    forall i, j :: 0 <= i < j < |ids| ==> ids[i] != ids[j]
  }

  /** What retention may drop: created before `limit` and below `low`, the lower of the snapshot's and the current ledger. */
  function Droppable(ids: seq<int>, low: int): seq<int> {
    if ids == [] then []
    else (if ids[0] < low then [ids[0]] else []) + Droppable(ids[1..], low)
  }

  function AfterDrops(v: LedgersData, ids: seq<int>): (r: LedgersData)
    requires v.Paired()
    ensures r.Paired()
    decreases |ids|
  {
    if ids == [] then v else AfterDrops(Removed(v, ids[0]), ids[1..])
  }

  /** The list without the entries that are both created before `limit` and below `low`; pairs and order kept. */
  function Kept(v: LedgersData, limit: int, low: int): (r: LedgersData)
    requires v.Paired()
    ensures r.Paired() && r.first == v.first
    decreases |v.active|
  {
    if v.active == [] then v
    else
      var rest := Kept(Tail(v), limit, low);
      if v.timestamps[0] < limit && v.active[0] < low then rest
      else rest.(active := [v.active[0]] + rest.active, timestamps := [v.timestamps[0]] + rest.timestamps)
  }

  /** What a drop with these limits removes, in order. */
  function Gone(v: LedgersData, limit: int, low: int): seq<int>
    requires v.Paired()
  {
    Droppable(Old(v, limit), low)
  }

  lemma GoneUnfolds(v: LedgersData, limit: int, low: int)
    requires v.Paired() && v.active != []
    ensures Gone(v, limit, low) ==
            (if v.timestamps[0] < limit && v.active[0] < low then [v.active[0]] else []) + Gone(Tail(v), limit, low)
  {
    var rest := Old(Tail(v), limit);
    if v.timestamps[0] < limit {
      assert Old(v, limit) == [v.active[0]] + rest;
      assert ([v.active[0]] + rest)[1..] == rest;
    } else {
      assert Old(v, limit) == [] + rest == rest;
    }
  }

  lemma {:induction false} GoneIsListed(v: LedgersData, limit: int, low: int)
    requires v.Paired()
    ensures forall id :: id in Gone(v, limit, low) ==> id in v.active && id < low
    decreases |v.active|
  {
    if v.active != [] {
      GoneUnfolds(v, limit, low);
      GoneIsListed(Tail(v), limit, low);
    }
  }

  /** Put an entry in front. */
  function Front(id: int, ts: int, v: LedgersData): (r: LedgersData)
    requires v.Paired()
    ensures r.Paired() && r.active != [] && Tail(r) == v
  {
    v.(active := [id] + v.active, timestamps := [ts] + v.timestamps)
  }

  lemma FrontTail(v: LedgersData)
    requires v.Paired() && v.active != []
    ensures Front(v.active[0], v.timestamps[0], Tail(v)) == v
  {
    assert [v.active[0]] + v.active[1..] == v.active;
    assert [v.timestamps[0]] + v.timestamps[1..] == v.timestamps;
  }

  lemma IndexBehind(id: int, ids: seq<int>, gone: int)
    requires gone != id && gone in ids
    ensures IndexOf([id] + ids, gone) == IndexOf(ids, gone) + 1
  {
    assert ([id] + ids)[1..] == ids;
  }

  lemma RemovalBehind(x: int, s: seq<int>, i: nat)
    requires i < |s|
    ensures ([x] + s)[..i + 1] + ([x] + s)[i + 2..] == [x] + (s[..i] + s[i + 1..])
  {
  }

  lemma RemovedBehind(id: int, ts: int, v: LedgersData, gone: int)
    requires v.Paired() && gone != id
    ensures Removed(Front(id, ts, v), gone) == Front(id, ts, Removed(v, gone))
  {
    if gone in v.active {
      var i := IndexOf(v.active, gone);
      IndexBehind(id, v.active, gone);
      RemovalBehind(id, v.active, i);
      RemovalBehind(ts, v.timestamps, i);
      assert gone in [id] + v.active;
    }
  }

  lemma {:induction false} DropsBehind(id: int, ts: int, v: LedgersData, gone: seq<int>)
    requires v.Paired() && id !in gone
    ensures AfterDrops(Front(id, ts, v), gone) == Front(id, ts, AfterDrops(v, gone))
    decreases |gone|
  {
    if gone != [] {
      RemovedBehind(id, ts, v, gone[0]);
      DropsBehind(id, ts, Removed(v, gone[0]), gone[1..]);
    }
  }

  /** Removing the droppable ids one by one leaves exactly the entries that are recent or not below `low`. */
  lemma {:induction false} DropIsExact(v: LedgersData, limit: int, low: int)
    requires v.Paired() && Distinct(v.active)
    ensures AfterDrops(v, Gone(v, limit, low)) == Kept(v, limit, low)
    decreases |v.active|
  {
    if v.active != [] {
      var t := Tail(v);
      var gone := Gone(t, limit, low);
      assert Distinct(t.active);
      DropIsExact(t, limit, low);
      GoneUnfolds(v, limit, low);
      if v.timestamps[0] < limit && v.active[0] < low {
        assert ([v.active[0]] + gone)[1..] == gone;
        HeadRemoved(v);
      } else {
        GoneIsListed(t, limit, low);
        assert [] + gone == gone;
        FrontTail(v);
        DropsBehind(v.active[0], v.timestamps[0], t, gone);
      }
    }
  }

  lemma HeadRemoved(v: LedgersData)
    requires v.Paired() && v.active != []
    ensures Removed(v, v.active[0]) == Tail(v)
  {
    assert IndexOf(v.active, v.active[0]) == 0;
  }

  /** Ids increase and creation times never decrease. */
  ghost predicate Ordered(v: LedgersData) {
    && v.Paired() && Ascending(v.active)
    && (forall i, j :: 0 <= i < j < |v.timestamps| ==> v.timestamps[i] <= v.timestamps[j])
  }

  /** `v` without its first `k` entries. */
  function Suffix(v: LedgersData, k: nat): (r: LedgersData)
    requires v.Paired() && k <= |v.active|
    ensures r.Paired()
  {
    v.(active := v.active[k..], timestamps := v.timestamps[k..])
  }

  lemma {:induction false} NothingGone(v: LedgersData, limit: int, low: int)
    requires Ordered(v) && (v.active != [] ==> !(v.timestamps[0] < limit && v.active[0] < low))
    ensures Gone(v, limit, low) == []
    decreases |v.active|
  {
    if v.active != [] {
      GoneUnfolds(v, limit, low);
      NothingGone(Tail(v), limit, low);
    }
  }

  /** On an ordered list the droppable ids are the first ones, so each removal takes the head: a cut-short drop leaves a suffix. */
  lemma {:induction false} DropLeavesSuffix(v: LedgersData, limit: int, low: int, n: nat)
    requires Ordered(v)
    requires n <= |Gone(v, limit, low)|
    ensures n <= |v.active| && AfterDrops(v, Gone(v, limit, low)[..n]) == Suffix(v, n)
    decreases |v.active|
  {
    if n > 0 {
      if v.active == [] || !(v.timestamps[0] < limit && v.active[0] < low) {
        NothingGone(v, limit, low);
      } else {
        var t := Tail(v);
        var rest := Gone(t, limit, low);
        GoneUnfolds(v, limit, low);
        DropLeavesSuffix(t, limit, low, n - 1);
        assert ([v.active[0]] + rest)[..n][1..] == rest[..n - 1];
        HeadRemoved(v);
        SuffixOfTail(v, n);
      }
    }
  }

  lemma SuffixOfTail(v: LedgersData, n: nat)
    requires v.Paired() && 0 < n <= |v.active|
    ensures Suffix(Tail(v), n - 1) == Suffix(v, n)
  {
    assert Tail(v).active[n - 1..] == v.active[n..];
    assert Tail(v).timestamps[n - 1..] == v.timestamps[n..];
  }

  lemma {:induction false} DroppableJoin(a: seq<int>, b: seq<int>, low: int)
    ensures Droppable(a + b, low) == Droppable(a, low) + Droppable(b, low)
  {
    if a == [] {
      assert a + b == b;
    } else {
      assert (a + b)[1..] == a[1..] + b;
      DroppableJoin(a[1..], b, low);
    }
  }

  lemma {:induction false} AfterDropsJoin(v: LedgersData, ids: seq<int>, id: int)
    requires v.Paired()
    ensures AfterDrops(v, ids + [id]) == Removed(AfterDrops(v, ids), id)
    decreases |ids|
  {
    if ids == [] {
      assert ids + [id] == [id] && [id][1..] == [];
    } else {
      assert (ids + [id])[1..] == ids[1..] + [id];
      AfterDropsJoin(Removed(v, ids[0]), ids[1..], id);
    }
  }

  lemma RemovedKeeps(v: LedgersData, gone: int, id: int)
    requires v.Paired() && id in v.active && id != gone
    ensures id in Removed(v, gone).active
  {
    if gone in v.active {
      var i := IndexOf(v.active, gone);
      var k :| 0 <= k < |v.active| && v.active[k] == id;
      assert Removed(v, gone).active[if k < i then k else k - 1] == id;
    }
  }

  lemma {:induction false} StillListed(v: LedgersData, gone: seq<int>, id: int)
    requires v.Paired() && id in v.active && id !in gone
    ensures id in AfterDrops(v, gone).active
    decreases |gone|
  {
    if gone != [] {
      RemovedKeeps(v, gone[0], id);
      StillListed(Removed(v, gone[0]), gone[1..], id);
    }
  }

  lemma {:induction false} OldDistinct(v: LedgersData, limit: int)
    requires v.Paired() && Distinct(v.active)
    ensures Distinct(Old(v, limit))
    ensures forall id :: id in Old(v, limit) ==> id in v.active
    decreases |v.active|
  {
    if v.active != [] {
      var t := Tail(v);
      assert Distinct(t.active);
      OldDistinct(t, limit);
      var rest := Old(t, limit);
      if v.timestamps[0] < limit {
        assert Old(v, limit) == [v.active[0]] + rest;
        assert v.active[0] !in t.active;
      } else {
        assert Old(v, limit) == rest;
      }
    }
  }

  lemma {:induction false} DroppableFrom(ids: seq<int>, low: int)
    ensures forall id :: id in Droppable(ids, low) ==> id in ids
  {
    if ids != [] { DroppableFrom(ids[1..], low); }
  }

  /** What one turn of the drop loop does to the ids dropped so far. */
  lemma DropTurn(v: LedgersData, limit: int, low: int, i: nat, gone: seq<int>)
    requires v.Paired() && Distinct(v.active) && i < |Old(v, limit)| && gone == Droppable(Old(v, limit)[..i], low)
    ensures Old(v, limit)[i] >= low ==> Droppable(Old(v, limit)[..i + 1], low) == gone
    ensures Old(v, limit)[i] < low ==>
      && Droppable(Old(v, limit)[..i + 1], low) == gone + [Old(v, limit)[i]] && gone + [Old(v, limit)[i]] <= Gone(v, limit, low)
      && Old(v, limit)[i] in AfterDrops(v, gone).active
      && AfterDrops(v, gone + [Old(v, limit)[i]]) == Removed(AfterDrops(v, gone), Old(v, limit)[i])
  {
    var ids := Old(v, limit);
    DroppableJoin(ids[..i], ids[i..], low);
    assert ids == ids[..i] + ids[i..];
    DroppableJoin(ids[..i], [ids[i]], low);
    assert ids[..i + 1] == ids[..i] + [ids[i]];
    assert Droppable([ids[i]], low) == if ids[i] < low then [ids[i]] else [];
    DroppableJoin(ids[..i + 1], ids[i + 1..], low);
    assert ids == ids[..i + 1] + ids[i + 1..];
    OldDistinct(v, limit);
    DroppableFrom(ids[..i], low);
    assert ids[i] !in ids[..i];
    if ids[i] < low { StillListed(v, gone, ids[i]); }
    AfterDropsJoin(v, gone, ids[i]);
  }

  // ---- The list over a whole history ----

  /** A ledger is opened at time `now`; or a drop with these limits gets through `n` removals. */
  datatype ListStep = Open(id: int, now: int) | Drop(limit: int, low: int, n: nat)

  /** The list, everything ever listed, and how many entries were dropped. */
  datatype ListHistory = ListHistory(list: LedgersData, ever: LedgersData, dropped: nat)

  ghost predicate Allowed(h: ListHistory, step: ListStep) {
    match step
    case Open(id, now) =>
      id >= 0 && (h.ever.active != [] ==> h.ever.active[|h.ever.active| - 1] < id)
      && (h.ever.timestamps != [] ==> h.ever.timestamps[|h.ever.timestamps| - 1] <= now)
    case Drop(limit, low, n) => h.list.Paired() && n <= |Gone(h.list, limit, low)|
  }

  ghost function Next(h: ListHistory, step: ListStep): ListHistory
    requires Allowed(h, step)
  {
    match step
    case Open(id, now) => h.(list := Added(h.list, id, now), ever := Added(h.ever, id, now))
    case Drop(limit, low, n) =>
      h.(list := AfterDrops(h.list, Gone(h.list, limit, low)[..n]), dropped := h.dropped + n)
  }

  /** The list is what remains of an ordered history after its first entries were dropped. */
  ghost predicate Lined(h: ListHistory) {
    && Ordered(h.ever) && h.dropped <= |h.ever.active| && h.list == Suffix(h.ever, h.dropped)
    && (forall i :: 0 <= i < |h.ever.active| ==> h.ever.active[i] >= 0)
    && h.ever.first == if h.ever.active == [] then -1 else h.ever.active[0]
  }

  lemma AddedOrdered(v: LedgersData, id: int, now: int)
    requires Ordered(v)
    requires v.active != [] ==> v.active[|v.active| - 1] < id && v.timestamps[|v.active| - 1] <= now
    ensures Ordered(Added(v, id, now))
  {
  }

  lemma SuffixOrdered(v: LedgersData, k: nat)
    requires Ordered(v) && k <= |v.active|
    ensures Ordered(Suffix(v, k))
  {
  }

  lemma NextLined(h: ListHistory, step: ListStep)
    requires Lined(h) && Allowed(h, step)
    ensures Lined(Next(h, step))
  {
    match step
    case Open(id, now) =>
      var ever := Added(h.ever, id, now);
      AddedOrdered(h.ever, id, now);
      assert ever.active[h.dropped..] == h.ever.active[h.dropped..] + [id];
      assert ever.timestamps[h.dropped..] == h.ever.timestamps[h.dropped..] + [now];
    case Drop(limit, low, n) =>
      SuffixOrdered(h.ever, h.dropped);
      DropLeavesSuffix(h.list, limit, low, n);
      assert h.list.active[n..] == h.ever.active[h.dropped + n..];
      assert h.list.timestamps[n..] == h.ever.timestamps[h.dropped + n..];
  }

  /** A sequence of steps, each allowed where it is taken. */
  ghost predicate ListRun(h: ListHistory, steps: seq<ListStep>, end: ListHistory)
    decreases |steps|
  {
    if steps == [] then end == h else Allowed(h, steps[0]) && ListRun(Next(h, steps[0]), steps[1..], end)
  }

  /**
   * Over every history of openings and drops, cut short anywhere, the list is an ascending suffix of all ledgers ever
   * listed, and its recorded first ledger is still active exactly when nothing was dropped.
   */
  lemma {:induction false} ListStaysSuffix(h: ListHistory, steps: seq<ListStep>, end: ListHistory)
    requires Lined(h) && ListRun(h, steps, end)
    ensures Lined(end)
    ensures Ascending(end.list.active)
    ensures end.ever.active != [] ==> (end.list.first in end.list.active <==> end.dropped == 0)
    decreases |steps|
  {
    if steps == [] {
      FirstActiveIff(h);
    } else {
      NextLined(h, steps[0]);
      ListStaysSuffix(Next(h, steps[0]), steps[1..], end);
    }
  }

  lemma FirstActiveIff(h: ListHistory)
    requires Lined(h)
    ensures Ascending(h.list.active)
    ensures h.ever.active != [] ==> (h.list.first in h.list.active <==> h.dropped == 0)
  {
    if h.ever.active != [] && h.dropped == 0 { assert h.list.active[0] == h.list.first; }
  }
}
