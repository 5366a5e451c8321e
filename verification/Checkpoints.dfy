/**
 * Checkpoints, retention and replay over one history: from a checkpoint and what is left of the log the state comes
 * back whole.  The state and the way an edit changes it are left open.
 */
module Checkpoints {
  import opened LogPositions
  import opened Edits
  import opened Ledgers

  datatype LogEntry = LogEntry(at: LogSequenceNumber, edit: StatusEdit)

  function Fold<S>(apply: (S, StatusEdit) -> S, s: S, log: seq<LogEntry>): S
    decreases |log|
  {
    if log == [] then s else Fold(apply, apply(s, log[0].edit), log[1..])
  }

  /** A state and the position recorded with it. */
  datatype Mark<S> = Mark(state: S, position: LogSequenceNumber)

  /** The list and its past, every entry ever logged, and the checkpoints taken. */
  datatype World<S> = World(list: ListHistory, log: seq<LogEntry>, marks: seq<Mark<S>>)

  datatype Act =
    | OpenLedger(id: int, now: int)
    | Log(edit: StatusEdit)
    | Checkpoint
    | DropOld(limit: int, mark: nat, n: nat)

  function LastLedger<S>(w: World<S>): int {
    if w.log == [] then -1 else w.log[|w.log| - 1].at.ledgerId
  }

  /** The lower of the checkpoint's ledger and the one being written. */
  function Low<S>(w: World<S>, m: nat): int
    requires m < |w.marks|
  {
    var p := w.marks[m].position.ledgerId;
    if p < LastLedger(w) then p else LastLedger(w)
  }

  ghost predicate Can<S>(w: World<S>, a: Act) {
    match a
    case OpenLedger(id, now) => Allowed(w.list, Open(id, now))
    case Log(_) => w.log != []
    case Checkpoint => w.log != []
    case DropOld(limit, m, n) => m < |w.marks| && Allowed(w.list, Drop(limit, Low(w, m), n))
  }

  ghost function Do<S>(apply: (S, StatusEdit) -> S, init: S, w: World<S>, a: Act): World<S>
    requires Can(w, a)
  {
    match a
    case OpenLedger(id, now) =>
      w.(list := Next(w.list, Open(id, now)), log := w.log + [LogEntry(LogSequenceNumber(id, 0), Noop)])
    case Log(edit) =>
      var last := w.log[|w.log| - 1].at;
      w.(log := w.log + [LogEntry(LogSequenceNumber(last.ledgerId, last.sequenceNumber + 1), edit)])
    case Checkpoint => w.(marks := w.marks + [Mark(Fold(apply, init, w.log), w.log[|w.log| - 1].at)])
    case DropOld(limit, m, n) => w.(list := Next(w.list, Drop(limit, Low(w, m), n)))
  }

  /** What replay from `p` delivers: the entries after `p` in ledgers still listed. */
  function Replay(log: seq<LogEntry>, active: seq<int>, p: LogSequenceNumber): seq<LogEntry>
    decreases |log|
  {
    if log == [] then []
    else (if log[0].at.ledgerId in active && log[0].at.After(p) then [log[0]] else []) + Replay(log[1..], active, p)
  }

  function Recovered<S>(apply: (S, StatusEdit) -> S, m: Mark<S>, log: seq<LogEntry>, active: seq<int>): S {
    Fold(apply, m.state, Replay(log, active, m.position))
  }

  ghost predicate LogIncreasing(log: seq<LogEntry>) {
    forall i, j :: 0 <= i < j < |log| ==> log[j].at.After(log[i].at)
  }

  /** `m` was taken after the first `k` entries. */
  ghost predicate TakenAt<S>(apply: (S, StatusEdit) -> S, init: S, log: seq<LogEntry>, m: Mark<S>, k: int) {
    0 < k <= |log| && m.position == log[k - 1].at && m.state == Fold(apply, init, log[..k])
  }

  ghost predicate MarkOk<S>(apply: (S, StatusEdit) -> S, init: S, log: seq<LogEntry>, m: Mark<S>) {
    exists k :: TakenAt(apply, init, log, m, k)
  }

  /** The log holds increasing positions in ledgers once listed, the newest in the newest ledger. */
  ghost predicate LogOk(ever: LedgersData, log: seq<LogEntry>) {
    && LogIncreasing(log)
    && (log == [] <==> ever.active == [])
    && (forall i :: 0 <= i < |log| ==> log[i].at.ledgerId in ever.active && log[i].at.sequenceNumber >= 0)
    && (log != [] ==> log[|log| - 1].at.ledgerId == ever.active[|ever.active| - 1])
  }

  ghost predicate MarksOk<S>(apply: (S, StatusEdit) -> S, init: S, log: seq<LogEntry>, marks: seq<Mark<S>>) {
    forall i :: 0 <= i < |marks| ==> MarkOk(apply, init, log, marks[i])
  }

  /** Once something was dropped, some checkpoint names a ledger still listed. */
  ghost predicate Bootable<S>(h: ListHistory, marks: seq<Mark<S>>) {
    h.dropped > 0 ==> exists i :: 0 <= i < |marks| && marks[i].position.ledgerId in h.list.active
  }

  ghost predicate Whole<S>(apply: (S, StatusEdit) -> S, init: S, w: World<S>) {
    Lined(w.list) && LogOk(w.list.ever, w.log) && MarksOk(apply, init, w.log, w.marks) && Bootable(w.list, w.marks)
  }

  lemma {:induction false} FoldJoin<S>(apply: (S, StatusEdit) -> S, s: S, a: seq<LogEntry>, b: seq<LogEntry>)
    ensures Fold(apply, s, a + b) == Fold(apply, Fold(apply, s, a), b)
    decreases |a|
  {
    if a == [] {
      assert a + b == b;
    } else {
      assert (a + b)[1..] == a[1..] + b;
      FoldJoin(apply, apply(s, a[0].edit), a[1..], b);
    }
  }

  lemma {:induction false} ReplayJoin(a: seq<LogEntry>, b: seq<LogEntry>, active: seq<int>, p: LogSequenceNumber)
    ensures Replay(a + b, active, p) == Replay(a, active, p) + Replay(b, active, p)
    decreases |a|
  {
    if a == [] {
      assert a + b == b;
    } else {
      assert (a + b)[1..] == a[1..] + b;
      ReplayJoin(a[1..], b, active, p);
    }
  }

  lemma {:induction false} ReplayNone(log: seq<LogEntry>, active: seq<int>, p: LogSequenceNumber)
    requires forall i :: 0 <= i < |log| ==> !log[i].at.After(p)
    ensures Replay(log, active, p) == []
    decreases |log|
  {
    if log != [] { ReplayNone(log[1..], active, p); }
  }

  lemma {:induction false} ReplayAll(log: seq<LogEntry>, active: seq<int>, p: LogSequenceNumber)
    requires forall i :: 0 <= i < |log| ==> log[i].at.After(p) && log[i].at.ledgerId in active
    ensures Replay(log, active, p) == log
    decreases |log|
  {
    if log != [] { ReplayAll(log[1..], active, p); }
  }

  /** A checkpoint stays what it is while the log grows. */
  lemma MarkStays<S>(apply: (S, StatusEdit) -> S, init: S, log: seq<LogEntry>, e: LogEntry, m: Mark<S>)
    requires MarkOk(apply, init, log, m)
    ensures MarkOk(apply, init, log + [e], m)
  {
    var k :| TakenAt(apply, init, log, m, k);
    assert (log + [e])[..k] == log[..k];
    assert TakenAt(apply, init, log + [e], m, k);
  }

  /** A ledger after a listed one is listed. */
  lemma LaterIsListed(h: ListHistory, low: int, id: int)
    requires Lined(h) && low in h.list.active && id in h.ever.active && low <= id
    ensures id in h.list.active
  {
    var k :| 0 <= k < |h.list.active| && h.list.active[k] == low;
    assert h.ever.active[h.dropped + k] == low;
    var j :| 0 <= j < |h.ever.active| && h.ever.active[j] == id;
    assert j >= h.dropped + k;
    assert h.list.active[j - h.dropped] == id;
  }

  lemma GrowKeeps<S>(apply: (S, StatusEdit) -> S, init: S, w: World<S>, e: LogEntry, list: ListHistory)
    requires Whole(apply, init, w) && Lined(list) && list.dropped == w.list.dropped
    requires w.log != [] ==> e.at.After(w.log[|w.log| - 1].at)
    requires e.at.sequenceNumber >= 0 && list.ever.active != [] && e.at.ledgerId == list.ever.active[|list.ever.active| - 1]
    requires forall id :: id in w.list.ever.active ==> id in list.ever.active
    requires forall id :: id in w.list.list.active ==> id in list.list.active
    ensures Whole(apply, init, w.(list := list, log := w.log + [e]))
  {
    var log := w.log + [e];
    forall i, j | 0 <= i < j < |log| ensures log[j].at.After(log[i].at) {
      if j == |w.log| { assert i == |w.log| - 1 || w.log[|w.log| - 1].at.After(w.log[i].at); }
    }
    forall i | 0 <= i < |w.marks| ensures MarkOk(apply, init, log, w.marks[i]) {
      MarkStays(apply, init, w.log, e, w.marks[i]);
    }
  }

  lemma DropKeeps<S>(apply: (S, StatusEdit) -> S, init: S, w: World<S>, limit: int, m: nat, n: nat)
    requires Whole(apply, init, w) && Can(w, DropOld(limit, m, n))
    ensures Whole(apply, init, Do(apply, init, w, DropOld(limit, m, n)))
  {
    var low := Low(w, m);
    NextLined(w.list, Drop(limit, low, n));
    assert MarkOk(apply, init, w.log, w.marks[m]);
    ListedOnly(apply, init, w, Next(w.list, Drop(limit, low, n)), m, limit, low, n);
  }

  lemma ListedOnly<S>(apply: (S, StatusEdit) -> S, init: S, w: World<S>, t: ListHistory, m: nat, limit: int, low: int, n: nat)
    requires Whole(apply, init, w) && m < |w.marks| && MarkOk(apply, init, w.log, w.marks[m]) && low <= w.marks[m].position.ledgerId
    requires Allowed(w.list, Drop(limit, low, n)) && t == Next(w.list, Drop(limit, low, n)) && Lined(t)
    ensures Whole(apply, init, w.(list := t))
  {
    if n > 0 {
      MarkSurvives(w.list, limit, low, n, w.marks[m].position.ledgerId);
    } else {
      assert AfterDrops(w.list.list, []) == w.list.list;
      assert Gone(w.list.list, limit, low)[..0] == [];
      assert t.list == w.list.list;
    }
  }

  /** A drop leaves every ledger that is not below its limit. */
  lemma MarkSurvives(h: ListHistory, limit: int, low: int, n: nat, p: int)
    requires Lined(h) && Allowed(h, Drop(limit, low, n)) && n > 0 && low <= p && p in h.ever.active
    ensures p in Next(h, Drop(limit, low, n)).list.active
  {
    SuffixOrdered(h.ever, h.dropped);
    DroppedAreBelow(h.list, limit, low, n);
    DropLeavesSuffix(h.list, limit, low, n);
    var j :| 0 <= j < |h.ever.active| && h.ever.active[j] == p;
    assert h.list.active[n - 1] == h.ever.active[h.dropped + n - 1];
    assert j >= h.dropped + n;
    assert h.list.active[n..][j - h.dropped - n] == p;
  }

  /** The first `n` ids of an ordered list that a drop removes are below its limit. */
  lemma DroppedAreBelow(v: LedgersData, limit: int, low: int, n: nat)
    requires Ordered(v) && 0 < n <= |Gone(v, limit, low)|
    ensures n <= |v.active| && v.active[n - 1] < low
  {
    DropLeavesSuffix(v, limit, low, n);
    GoneIsPrefix(v, limit, low, n);
    GoneIsListed(v, limit, low);
    assert Gone(v, limit, low)[n - 1] in Gone(v, limit, low);
  }

  lemma {:induction false} GoneIsPrefix(v: LedgersData, limit: int, low: int, n: nat)
    requires Ordered(v) && 0 < n <= |Gone(v, limit, low)| && n <= |v.active|
    ensures Gone(v, limit, low)[n - 1] == v.active[n - 1]
    decreases |v.active|
  {
    GoneUnfolds(v, limit, low);
    if !(v.timestamps[0] < limit && v.active[0] < low) {
      NothingGone(v, limit, low);
    } else if n > 1 {
      GoneIsPrefix(Tail(v), limit, low, n - 1);
    }
  }

  lemma DoKeeps<S>(apply: (S, StatusEdit) -> S, init: S, w: World<S>, a: Act)
    requires Whole(apply, init, w) && Can(w, a)
    ensures Whole(apply, init, Do(apply, init, w, a))
  {
    match a
    case OpenLedger(id, now) => OpenKeeps(apply, init, w, id, now);
    case Log(edit) =>
      var last := w.log[|w.log| - 1].at;
      GrowKeeps(apply, init, w, LogEntry(LogSequenceNumber(last.ledgerId, last.sequenceNumber + 1), edit), w.list);
    case Checkpoint => CheckpointKeeps(apply, init, w);
    case DropOld(limit, m, n) => DropKeeps(apply, init, w, limit, m, n);
  }

  lemma OpenKeeps<S>(apply: (S, StatusEdit) -> S, init: S, w: World<S>, id: int, now: int)
    requires Whole(apply, init, w) && Can(w, OpenLedger(id, now))
    ensures Whole(apply, init, Do(apply, init, w, OpenLedger(id, now)))
  {
    NextLined(w.list, Open(id, now));
    var t := Next(w.list, Open(id, now));
    assert t.ever.active == w.list.ever.active + [id] && t.list.active == w.list.list.active + [id];
    GrowKeeps(apply, init, w, LogEntry(LogSequenceNumber(id, 0), Noop), t);
  }

  lemma CheckpointKeeps<S>(apply: (S, StatusEdit) -> S, init: S, w: World<S>)
    requires Whole(apply, init, w) && w.log != []
    ensures Whole(apply, init, Do(apply, init, w, Checkpoint))
  {
    var m := Mark(Fold(apply, init, w.log), w.log[|w.log| - 1].at);
    assert w.log[..|w.log|] == w.log;
    assert TakenAt(apply, init, w.log, m, |w.log|);
    if w.list.dropped > 0 {
      var i :| 0 <= i < |w.marks| && w.marks[i].position.ledgerId in w.list.list.active;
      assert (w.marks + [m])[i] == w.marks[i];
    }
  }

  /** A sequence of acts, each possible where it happens. */
  ghost predicate Happens<S>(apply: (S, StatusEdit) -> S, init: S, w: World<S>, acts: seq<Act>, end: World<S>)
    decreases |acts|
  {
    if acts == [] then end == w else Can(w, acts[0]) && Happens(apply, init, Do(apply, init, w, acts[0]), acts[1..], end)
  }

  lemma {:induction false} HistoryKeeps<S>(apply: (S, StatusEdit) -> S, init: S, w: World<S>, acts: seq<Act>, end: World<S>)
    requires Whole(apply, init, w) && Happens(apply, init, w, acts, end)
    ensures Whole(apply, init, end)
    decreases |acts|
  {
    if acts != [] {
      DoKeeps(apply, init, w, acts[0]);
      HistoryKeeps(apply, init, Do(apply, init, w, acts[0]), acts[1..], end);
    }
  }

  function Beginning<S>(): World<S> {
    World(ListHistory(NO_LEDGERS, NO_LEDGERS, 0), [], [])
  }

  /**
   * After any history of appends, rolls, checkpoints and drops, a checkpoint whose ledger is listed and a replay of
   * the listed ledgers after its position give the state of the whole history; so does an empty status while the
   * first ledger is listed; and one of the two is always at hand.
   */
  lemma ReplayGivesWholeState<S>(apply: (S, StatusEdit) -> S, init: S, acts: seq<Act>, end: World<S>)
    requires Happens(apply, init, Beginning(), acts, end)
    ensures forall i :: 0 <= i < |end.marks| && end.marks[i].position.ledgerId in end.list.list.active ==>
      Recovered(apply, end.marks[i], end.log, end.list.list.active) == Fold(apply, init, end.log)
    ensures end.list.list.first in end.list.list.active ==>
      Recovered(apply, Mark(init, NOTHING), end.log, end.list.list.active) == Fold(apply, init, end.log)
    ensures end.log == [] || end.list.list.first in end.list.list.active
         || exists i :: 0 <= i < |end.marks| && end.marks[i].position.ledgerId in end.list.list.active
  {
    HistoryKeeps(apply, init, Beginning(), acts, end);
    FirstActiveIff(end.list);
    forall i | 0 <= i < |end.marks| && end.marks[i].position.ledgerId in end.list.list.active
      ensures Recovered(apply, end.marks[i], end.log, end.list.list.active) == Fold(apply, init, end.log)
    {
      MarkRecovers(apply, init, end, end.marks[i]);
    }
    if end.list.list.first in end.list.list.active {
      assert end.list.ever.active != [];
      assert end.list.list.active == end.list.ever.active[0..] == end.list.ever.active;
      forall i | 0 <= i < |end.log| ensures end.log[i].at.After(NOTHING) {
        assert end.log[i].at.ledgerId in end.list.ever.active;
      }
      ReplayAll(end.log, end.list.list.active, NOTHING);
    }
  }

  lemma MarkRecovers<S>(apply: (S, StatusEdit) -> S, init: S, w: World<S>, m: Mark<S>)
    requires Whole(apply, init, w) && MarkOk(apply, init, w.log, m) && m.position.ledgerId in w.list.list.active
    ensures Recovered(apply, m, w.log, w.list.list.active) == Fold(apply, init, w.log)
  {
    var k :| TakenAt(apply, init, w.log, m, k);
    forall i | k <= i < |w.log| ensures w.log[i].at.ledgerId in w.list.list.active {
      assert w.log[i].at.After(w.log[k - 1].at);
      LaterIsListed(w.list, m.position.ledgerId, w.log[i].at.ledgerId);
    }
    MarkExactIff(w.log, w.list.list.active, k, m.position);
    assert w.log == w.log[..k] + w.log[k..];
    FoldJoin(apply, init, w.log[..k], w.log[k..]);
  }

  /**
   * A state taken after the first `k` entries but marked with a later position `p` gets back exactly the other
   * entries if and only if the next one lies after `p`.
   */
  lemma MarkExactIff(log: seq<LogEntry>, active: seq<int>, k: nat, p: LogSequenceNumber)
    requires LogIncreasing(log) && 0 < k <= |log| && !log[k - 1].at.After(p)
    requires forall i :: k <= i < |log| ==> log[i].at.ledgerId in active
    ensures Replay(log, active, p) == log[k..] <==> k == |log| || log[k].at.After(p)
  {
    var before, after := log[..k], log[k..];
    assert log == before + after;
    forall i | 0 <= i < |before| ensures !before[i].at.After(p) {
      assert i == k - 1 || log[k - 1].at.After(log[i].at);
    }
    ReplayNone(before, active, p);
    ReplayJoin(before, after, active, p);
    if k < |log| {
      if log[k].at.After(p) {
        forall i | 0 <= i < |after| ensures after[i].at.After(p) && after[i].at.ledgerId in active {
          assert i == 0 || log[k + i].at.After(log[k].at);
        }
        ReplayAll(after, active, p);
      } else {
        ReplayShorter(after[1..], active, p);
        assert Replay(after, active, p) == Replay(after[1..], active, p);
      }
    }
  }

  lemma {:induction false} ReplayShorter(log: seq<LogEntry>, active: seq<int>, p: LogSequenceNumber)
    ensures |Replay(log, active, p)| <= |log|
    decreases |log|
  {
    if log != [] { ReplayShorter(log[1..], active, p); }
  }

  function Positions(log: seq<LogEntry>): (ps: seq<LogSequenceNumber>)
    ensures |ps| == |log| && forall i :: 0 <= i < |ps| ==> ps[i] == log[i].at
  {
    seq(|log|, i requires 0 <= i < |log| => log[i].at)
  }

  lemma {:induction false} ReplayMembers(log: seq<LogEntry>, active: seq<int>, p: LogSequenceNumber)
    requires LogIncreasing(log)
    ensures LogIncreasing(Replay(log, active, p))
    ensures forall e :: e in Replay(log, active, p) <==> e in log && e.at.ledgerId in active && e.at.After(p)
    decreases |log|
  {
    if log != [] {
      ReplayMembers(log[1..], active, p);
      var rest := Replay(log[1..], active, p);
      forall i | 0 <= i < |rest| ensures rest[i].at.After(log[0].at) {
        assert rest[i] in log[1..];
      }
    }
  }

  /** Replay of the history is the recovery scan of the ledgers: the same positions in the same order. */
  lemma ReplayIsEntriesAfter(log: seq<LogEntry>, active: seq<int>, len: Lengths, p: LogSequenceNumber)
    requires LogIncreasing(log) && Ascending(active) && Known(active, len) && p.sequenceNumber >= -1
    requires forall q :: Readable(active, len, q) <==> q in Positions(log) && q.ledgerId in active
    ensures Positions(Replay(log, active, p)) == EntriesAfter(active, len, p)
  {
    var got := Replay(log, active, p);
    ReplayMembers(log, active, p);
    EntriesAfterIncreasing(active, len, p);
    forall q ensures q in Positions(got) <==> q in EntriesAfter(active, len, p) {
      EntriesAfterMembers(active, len, p, q);
      if q in Positions(got) {
        var i :| 0 <= i < |got| && Positions(got)[i] == q;
        assert got[i] in got;
        var j :| 0 <= j < |log| && log[j] == got[i];
        assert Positions(log)[j] == q;
      }
      if q in EntriesAfter(active, len, p) {
        var j :| 0 <= j < |log| && Positions(log)[j] == q;
        assert log[j] in got;
        var i :| 0 <= i < |got| && got[i] == log[j];
        assert Positions(got)[i] == q;
      }
    }
    IncreasingIsDetermined(Positions(got), EntriesAfter(active, len, p));
  }
}
