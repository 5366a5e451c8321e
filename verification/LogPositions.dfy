/** Positions in the replicated log, and the sequences of positions that a reader of the ledgers visits. */
module LogPositions {

  datatype LogSequenceNumber = LogSequenceNumber(ledgerId: int, sequenceNumber: int) {

    /** Strictly later than `o`, first by ledger and then by entry. */
    predicate After(o: LogSequenceNumber) {
      if ledgerId < o.ledgerId then false
      else if ledgerId == o.ledgerId then sequenceNumber > o.sequenceNumber
      else true
    }
  }

  /** The position of a broker that has applied nothing. */
  const NOTHING := LogSequenceNumber(-1, -1)

  /** `After` is a strict total order. */
  lemma AfterIsStrictTotalOrder(a: LogSequenceNumber, b: LogSequenceNumber, c: LogSequenceNumber)
    ensures !a.After(a)
    ensures a.After(b) && b.After(c) ==> a.After(c)
    ensures a.After(b) || b.After(a) || a == b
    ensures !(a.After(b) && b.After(a))
  {
  }

  ghost predicate Ascending(ids: seq<int>) {
    forall i, j :: 0 <= i < j < |ids| ==> ids[i] < ids[j]
  }

  ghost predicate Increasing(ps: seq<LogSequenceNumber>) {
    forall i, j :: 0 <= i < j < |ps| ==> ps[j].After(ps[i])
  }

  ghost predicate AllAfter(ps: seq<LogSequenceNumber>, p: LogSequenceNumber) {
    forall i :: 0 <= i < |ps| ==> ps[i].After(p)
  }

  /** How many entries of each ledger a reader can see. */
  type Lengths = map<int, nat>

  ghost predicate Known(ids: seq<int>, len: Lengths) {
    forall i :: 0 <= i < |ids| ==> ids[i] in len
  }

  /** The positions of entries `from`, ..., `end - 1` of ledger `id`. */
  function Span(id: int, from: int, end: int): (ps: seq<LogSequenceNumber>)
    ensures |ps| == if from < end then end - from else 0
    ensures forall i :: 0 <= i < |ps| ==> ps[i] == LogSequenceNumber(id, from + i)
    decreases end - from
  {
    if from >= end then [] else [LogSequenceNumber(id, from)] + Span(id, from + 1, end)
  }

  lemma {:induction false} SpanExtends(id: int, from: int, end: int)
    requires from <= end
    ensures Span(id, from, end + 1) == Span(id, from, end) + [LogSequenceNumber(id, end)]
    decreases end - from
  {
    if from < end { SpanExtends(id, from + 1, end); }
  }

  /** The entries of the listed ledgers that lie strictly after `p`, in list order. */
  function EntriesAfter(ids: seq<int>, len: Lengths, p: LogSequenceNumber): seq<LogSequenceNumber>
    requires Known(ids, len)
  {
    if ids == [] then []
    else if ids[0] < p.ledgerId then EntriesAfter(ids[1..], len, p)
    else if ids[0] == p.ledgerId then Span(ids[0], p.sequenceNumber + 1, len[ids[0]]) + EntriesAfter(ids[1..], len, p)
    else Span(ids[0], 0, len[ids[0]]) + EntriesAfter(ids[1..], len, p)
  }

  /** One more ledger at the end of the list. */
  lemma {:induction false} EntriesAfterAppend(ids: seq<int>, id: int, len: Lengths, p: LogSequenceNumber)
    requires Known(ids, len) && id in len && Known(ids + [id], len)
    ensures EntriesAfter(ids + [id], len, p) == EntriesAfter(ids, len, p) +
            (if id < p.ledgerId then [] else Span(id, if id == p.ledgerId then p.sequenceNumber + 1 else 0, len[id]))
  {
    if ids == [] {
      assert ids + [id] == [id] && [id][1..] == [];
    } else {
      assert (ids + [id])[1..] == ids[1..] + [id];
      EntriesAfterAppend(ids[1..], id, len, p);
    }
  }

  /** `q` is an entry that a reader of the listed ledgers can see. */
  predicate Readable(ids: seq<int>, len: Lengths, q: LogSequenceNumber) {
    q.ledgerId in ids && q.ledgerId in len && 0 <= q.sequenceNumber < len[q.ledgerId]
  }

  /** `EntriesAfter` holds exactly the readable entries after `p`. */
  lemma {:induction false} EntriesAfterMembers(ids: seq<int>, len: Lengths, p: LogSequenceNumber, q: LogSequenceNumber)
    requires Known(ids, len) && p.sequenceNumber >= -1
    ensures q in EntriesAfter(ids, len, p) <==> Readable(ids, len, q) && q.After(p)
  {
    if ids != [] {
      EntriesAfterMembers(ids[1..], len, p, q);
      var lo := if ids[0] == p.ledgerId then p.sequenceNumber + 1 else 0;
      SpanMembers(ids[0], lo, len[ids[0]], q);
      assert q.ledgerId in ids <==> q.ledgerId == ids[0] || q.ledgerId in ids[1..];
    }
  }

  lemma SpanMembers(id: int, from: int, end: int, q: LogSequenceNumber)
    ensures q in Span(id, from, end) <==> q.ledgerId == id && from <= q.sequenceNumber < end
  {
    if q.ledgerId == id && from <= q.sequenceNumber < end {
      assert Span(id, from, end)[q.sequenceNumber - from] == q;
    }
  }

  /** Joining two increasing runs of positions. */
  lemma IncreasingConcat(a: seq<LogSequenceNumber>, b: seq<LogSequenceNumber>)
    requires Increasing(a) && Increasing(b)
    requires a != [] ==> AllAfter(b, a[|a| - 1])
    ensures Increasing(a + b)
  {
    var c := a + b;
    forall i, j | 0 <= i < j < |c| ensures c[j].After(c[i]) {
      if i < |a| <= j {
        assert c[j] == b[j - |a|] && c[i] == a[i];
        assert i == |a| - 1 || a[|a| - 1].After(a[i]);
      }
    }
  }

  /** For an ascending list every entry after `p` is visited once, in increasing order, and lies in a listed ledger. */
  lemma {:induction false} EntriesAfterIncreasing(ids: seq<int>, len: Lengths, p: LogSequenceNumber)
    requires Known(ids, len) && Ascending(ids) && p.sequenceNumber >= -1
    ensures Increasing(EntriesAfter(ids, len, p)) && AllAfter(EntriesAfter(ids, len, p), p)
    ensures forall i :: 0 <= i < |EntriesAfter(ids, len, p)| ==> EntriesAfter(ids, len, p)[i].ledgerId in ids
  {
    if ids != [] {
      var rest := EntriesAfter(ids[1..], len, p);
      EntriesAfterIncreasing(ids[1..], len, p);
      if ids[0] >= p.ledgerId {
        var lo := if ids[0] == p.ledgerId then p.sequenceNumber + 1 else 0;
        var head := Span(ids[0], lo, len[ids[0]]);
        forall i | 0 <= i < |rest| ensures rest[i].ledgerId > ids[0] {
          var k :| 0 <= k < |ids[1..]| && ids[1..][k] == rest[i].ledgerId;
          assert ids[k + 1] == rest[i].ledgerId;
        }
        IncreasingConcat(head, rest);
      }
    }
  }

  /** Two increasing runs with the same members are the same run. */
  lemma {:induction false} IncreasingIsDetermined(a: seq<LogSequenceNumber>, b: seq<LogSequenceNumber>)
    requires Increasing(a) && Increasing(b)
    requires forall q :: q in a <==> q in b
    ensures a == b
  {
    assert a == [] <==> b == [] by {
      if a != [] { assert a[0] in b; }
      if b != [] { assert b[0] in a; }
    }
    if a != [] {
      assert a[0] in b && b[0] in a;
      var i :| 0 <= i < |b| && b[i] == a[0];
      var j :| 0 <= j < |a| && a[j] == b[0];
      assert i == 0 && j == 0;
      forall q ensures q in a[1..] <==> q in b[1..] {
        if q in a[1..] { assert q in a; var k :| 0 <= k < |a[1..]| && a[1..][k] == q; assert a[k + 1] == q; assert q != a[0]; var m :| 0 <= m < |b| && b[m] == q; assert b[1..][m - 1] == q; }
        if q in b[1..] { assert q in b; var k :| 0 <= k < |b[1..]| && b[1..][k] == q; assert b[k + 1] == q; assert q != b[0]; var m :| 0 <= m < |a| && a[m] == q; assert a[1..][m - 1] == q; }
      }
      IncreasingIsDetermined(a[1..], b[1..]);
    }
  }
}
