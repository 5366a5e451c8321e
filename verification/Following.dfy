/** What one poll of a follower reads, and when that is what it should have read. */
module Following {
  import opened LogPositions

  /** The ledgers a poll opens: those not below the ledger already reached. */
  function ToRead(ids: seq<int>, skipPast: LogSequenceNumber): seq<int> {
    if skipPast.ledgerId == -1 then ids else Filter(ids, skipPast.ledgerId)
  }

  function Filter(ids: seq<int>, low: int): (kept: seq<int>)
    ensures forall id :: id in kept <==> id in ids && id >= low
  {
    if ids == [] then []
    else if ids[0] >= low then [ids[0]] + Filter(ids[1..], low)
    else Filter(ids[1..], low)
  }

  /**
   * The positions a poll delivers.  `nextEntry` goes back to 0 only after a ledger that held nothing new; a ledger
   * that was read leaves it where it was.
   */
  function Poll(toRead: seq<int>, len: Lengths, nextEntry: int): seq<LogSequenceNumber>
    requires Known(toRead, len)
  {
    if toRead == [] then []
    else if len[toRead[0]] <= nextEntry then Poll(toRead[1..], len, 0)
    else Span(toRead[0], nextEntry, len[toRead[0]]) + Poll(toRead[1..], len, nextEntry)
  }

  ghost predicate NoneBelow(ids: seq<int>, low: int) {
    forall i :: 0 <= i < |ids| ==> ids[i] >= low
  }

  lemma {:induction false} FilterAscending(ids: seq<int>, low: int)
    requires Ascending(ids)
    ensures Ascending(Filter(ids, low))
  {
    if ids != [] {
      FilterAscending(ids[1..], low);
      var rest := Filter(ids[1..], low);
      forall i | 0 <= i < |rest| ensures rest[i] > ids[0] {
        assert rest[i] in ids[1..];
      }
    }
  }

  lemma FilterKeeps(ids: seq<int>, low: int, len: Lengths)
    requires Ascending(ids) && Known(ids, len)
    ensures Ascending(Filter(ids, low)) && Known(Filter(ids, low), len) && NoneBelow(Filter(ids, low), low)
  {
    FilterAscending(ids, low);
    var kept := Filter(ids, low);
    forall i | 0 <= i < |kept| ensures kept[i] in len && kept[i] >= low {
      assert kept[i] in kept;
    }
  }

  lemma {:induction false} FilterJoin(ids: seq<int>, id: int, low: int)
    ensures Filter(ids + [id], low) == Filter(ids, low) + if id >= low then [id] else []
  {
    if ids == [] {
      assert ids + [id] == [id] && [id][1..] == [];
    } else {
      assert (ids + [id])[1..] == ids[1..] + [id];
      FilterJoin(ids[1..], id, low);
    }
  }

  /** The ledgers left out hold nothing after `p`. */
  lemma {:induction false} FilterLosesNothing(ids: seq<int>, len: Lengths, p: LogSequenceNumber)
    requires Known(ids, len) && Known(Filter(ids, p.ledgerId), len)
    ensures EntriesAfter(Filter(ids, p.ledgerId), len, p) == EntriesAfter(ids, len, p)
  {
    if ids != [] {
      assert Known(Filter(ids[1..], p.ledgerId), len) by {
        forall i | 0 <= i < |Filter(ids[1..], p.ledgerId)| ensures Filter(ids[1..], p.ledgerId)[i] in len {
          assert Filter(ids[1..], p.ledgerId)[i] in ids;
        }
      }
      FilterLosesNothing(ids[1..], len, p);
    }
  }

  /** Read from its first entry, an ascending list is delivered completely. */
  lemma {:induction false} PollFromZero(ids: seq<int>, len: Lengths, p: LogSequenceNumber)
    requires Known(ids, len) && NoneBelow(ids, p.ledgerId)
    requires p.sequenceNumber == -1 || NoneBelow(ids, p.ledgerId + 1)
    ensures Poll(ids, len, 0) == EntriesAfter(ids, len, p)
  {
    if ids != [] { PollFromZero(ids[1..], len, p); }
  }

  predicate AllEmpty(ids: seq<int>, len: Lengths)
    requires Known(ids, len)
  {
    forall i :: 0 <= i < |ids| ==> len[ids[i]] == 0
  }

  lemma {:induction false} EmptyIffNothingAfter(ids: seq<int>, len: Lengths, p: LogSequenceNumber)
    requires Known(ids, len) && NoneBelow(ids, p.ledgerId + 1)
    ensures AllEmpty(ids, len) <==> EntriesAfter(ids, len, p) == []
  {
    if ids != [] {
      EmptyIffNothingAfter(ids[1..], len, p);
      assert AllEmpty(ids, len) <==> len[ids[0]] == 0 && AllEmpty(ids[1..], len);
    }
  }

  /** The guard under which one poll misses nothing, read off the head of the list before any entry is fetched. */
  predicate ExactWhen(toRead: seq<int>, len: Lengths, skipPast: LogSequenceNumber)
    requires Known(toRead, len)
  {
    var nextEntry := skipPast.sequenceNumber + 1;
    nextEntry == 0 || toRead == [] ||
    if toRead[0] == skipPast.ledgerId
    then len[toRead[0]] <= nextEntry || |toRead| == 1 || len[toRead[1]] == 0
    else len[toRead[0]] == 0
  }

  /** The guard under which a poll may stop early but skips nothing before what it delivers. */
  predicate GapFreeWhen(toRead: seq<int>, len: Lengths, skipPast: LogSequenceNumber)
    requires Known(toRead, len)
  {
    var nextEntry := skipPast.sequenceNumber + 1;
    || ExactWhen(toRead, len, skipPast)
    || (toRead[0] == skipPast.ledgerId && len[toRead[1]] <= nextEntry && AllEmpty(toRead[2..], len))
    || (toRead[0] != skipPast.ledgerId && len[toRead[0]] <= nextEntry && AllEmpty(toRead[1..], len))
  }

  ghost predicate PollInput(toRead: seq<int>, len: Lengths, skipPast: LogSequenceNumber) {
    Known(toRead, len) && Ascending(toRead) && NoneBelow(toRead, skipPast.ledgerId) && skipPast.sequenceNumber >= -1
  }

  lemma SplitAtDifference(a: seq<LogSequenceNumber>, b: seq<LogSequenceNumber>, i: nat)
    requires i < |a| && i < |b| && a[i] != b[i]
    ensures a != b && !(a <= b)
  {
  }

  /** A poll delivers exactly the readable entries after `skipPast` if and only if its guard holds. */
  lemma {:induction false} PollExactIff(toRead: seq<int>, len: Lengths, skipPast: LogSequenceNumber)
    requires PollInput(toRead, len, skipPast)
    ensures Poll(toRead, len, skipPast.sequenceNumber + 1) == EntriesAfter(toRead, len, skipPast)
            <==> ExactWhen(toRead, len, skipPast)
  {
    PollCases(toRead, len, skipPast);
  }

  /** A poll delivers an initial part of the readable entries after `skipPast` if and only if its guard holds. */
  lemma {:induction false} PollGapFreeIff(toRead: seq<int>, len: Lengths, skipPast: LogSequenceNumber)
    requires PollInput(toRead, len, skipPast)
    ensures Poll(toRead, len, skipPast.sequenceNumber + 1) <= EntriesAfter(toRead, len, skipPast)
            <==> GapFreeWhen(toRead, len, skipPast)
  {
    PollCases(toRead, len, skipPast);
  }

  lemma {:induction false} PollCases(toRead: seq<int>, len: Lengths, skipPast: LogSequenceNumber)
    requires PollInput(toRead, len, skipPast)
    ensures var got, all := Poll(toRead, len, skipPast.sequenceNumber + 1), EntriesAfter(toRead, len, skipPast);
            (got == all <==> ExactWhen(toRead, len, skipPast)) && (got <= all <==> GapFreeWhen(toRead, len, skipPast))
  {
    var n := skipPast.sequenceNumber + 1;
    if n == 0 {
      PollFromZero(toRead, len, skipPast);
    } else if toRead != [] {
      var rest := toRead[1..];
      assert NoneBelow(rest, skipPast.ledgerId + 1);
      PollFromZero(rest, len, skipPast);
      EmptyIffNothingAfter(rest, len, skipPast);
      if toRead[0] == skipPast.ledgerId {
        if len[toRead[0]] > n { PollPastHead(toRead, len, skipPast); }
      } else {
        PollOtherHead(toRead, len, skipPast);
      }
    }
  }

  /** The head is the ledger already reached and holds new entries: what follows decides. */
  lemma {:induction false} PollPastHead(toRead: seq<int>, len: Lengths, skipPast: LogSequenceNumber)
    requires PollInput(toRead, len, skipPast) && toRead != [] && toRead[0] == skipPast.ledgerId
    requires 0 < skipPast.sequenceNumber + 1 < len[toRead[0]]
    ensures var got, all := Poll(toRead, len, skipPast.sequenceNumber + 1), EntriesAfter(toRead, len, skipPast);
            (got == all <==> ExactWhen(toRead, len, skipPast)) && (got <= all <==> GapFreeWhen(toRead, len, skipPast))
  {
    var n := skipPast.sequenceNumber + 1;
    var head := Span(toRead[0], n, len[toRead[0]]);
    var got, all := Poll(toRead, len, n), EntriesAfter(toRead, len, skipPast);
    if |toRead| > 1 {
      var tail := toRead[2..];
      assert toRead[1..][1..] == tail && NoneBelow(tail, skipPast.ledgerId + 1);
      PollFromZero(tail, len, skipPast);
      EmptyIffNothingAfter(tail, len, skipPast);
      var next := Span(toRead[1], 0, len[toRead[1]]);
      assert all == head + (next + EntriesAfter(tail, len, skipPast));
      if len[toRead[1]] > n {
        var k := |head|;
        assert got[k] == LogSequenceNumber(toRead[1], n);
        assert all[k] == LogSequenceNumber(toRead[1], 0);
        SplitAtDifference(got, all, k);
      } else if len[toRead[1]] > 0 {
        assert got == head + EntriesAfter(tail, len, skipPast);
        HeadDecides(head, EntriesAfter(tail, len, skipPast), next, toRead[1], len, tail, skipPast);
      }
    }
  }

  /** A run that leaves out a non-empty middle part is an initial part of the whole only if it stops before it. */
  lemma HeadDecides(head: seq<LogSequenceNumber>, last: seq<LogSequenceNumber>, middle: seq<LogSequenceNumber>, id: int,
                    len: Lengths, tail: seq<int>, p: LogSequenceNumber)
    requires middle != [] && (forall i :: 0 <= i < |middle| ==> middle[i].ledgerId == id)
    requires Known(tail, len) && Ascending(tail) && NoneBelow(tail, id + 1) && last == EntriesAfter(tail, len, p)
    requires p.sequenceNumber >= -1
    ensures head + last <= head + (middle + last) <==> last == []
    ensures head + last != head + (middle + last)
  {
    var a, b := head + last, head + (middle + last);
    assert |a| < |b|;
    if last != [] {
      EntriesAfterIncreasing(tail, len, p);
      assert last[0].ledgerId in tail;
      assert a[|head|] == last[0] && b[|head|] == middle[0];
      SplitAtDifference(a, b, |head|);
    } else {
      assert a == b[..|a|];
    }
  }

  /** The ledger already reached is no longer listed. */
  lemma {:induction false} PollOtherHead(toRead: seq<int>, len: Lengths, skipPast: LogSequenceNumber)
    requires PollInput(toRead, len, skipPast) && toRead != [] && toRead[0] != skipPast.ledgerId
    requires 0 < skipPast.sequenceNumber + 1
    ensures var got, all := Poll(toRead, len, skipPast.sequenceNumber + 1), EntriesAfter(toRead, len, skipPast);
            (got == all <==> ExactWhen(toRead, len, skipPast)) && (got <= all <==> GapFreeWhen(toRead, len, skipPast))
  {
    var n := skipPast.sequenceNumber + 1;
    var rest := toRead[1..];
    var got, all := Poll(toRead, len, n), EntriesAfter(toRead, len, skipPast);
    var next := Span(toRead[0], 0, len[toRead[0]]);
    PollFromZero(rest, len, skipPast);
    EmptyIffNothingAfter(rest, len, skipPast);
    assert all == next + EntriesAfter(rest, len, skipPast);
    if len[toRead[0]] > n {
      assert got[0] == LogSequenceNumber(toRead[0], n) && all[0] == LogSequenceNumber(toRead[0], 0);
      SplitAtDifference(got, all, 0);
    } else if len[toRead[0]] > 0 {
      HeadDecides([], EntriesAfter(rest, len, skipPast), next, toRead[0], len, rest, skipPast);
      assert got == [] + EntriesAfter(rest, len, skipPast) && all == [] + (next + EntriesAfter(rest, len, skipPast));
    }
  }

  /** Where the next poll starts. */
  function Last(got: seq<LogSequenceNumber>, skipPast: LogSequenceNumber): LogSequenceNumber {
    if got == [] then skipPast else got[|got| - 1]
  }

  lemma {:induction false} FilterAll(ids: seq<int>, low: int)
    requires NoneBelow(ids, low)
    ensures Filter(ids, low) == ids
  {
    if ids != [] { FilterAll(ids[1..], low); }
  }

  /**
   * A head with new entries followed by one ledger that ends at or before `skipPast.sequenceNumber`: the first poll
   * leaves that ledger out, and a second poll, with nothing appended in between, completes it.
   */
  lemma {:induction false} TwoPollsComplete(toRead: seq<int>, len: Lengths, skipPast: LogSequenceNumber)
    requires PollInput(toRead, len, skipPast) && |toRead| == 2 && toRead[0] == skipPast.ledgerId
    requires skipPast.sequenceNumber + 1 < len[toRead[0]] && len[toRead[1]] <= skipPast.sequenceNumber + 1
    ensures var first := Poll(toRead, len, skipPast.sequenceNumber + 1);
            var reached := Last(first, skipPast);
            && ToRead(toRead, reached) == toRead
            && first + Poll(toRead, len, reached.sequenceNumber + 1) == EntriesAfter(toRead, len, skipPast)
  {
    FirstOfTwoPolls(toRead, len, skipPast);
    FilterAll(toRead, toRead[0]);
    PollFromZero(toRead[1..], len, skipPast);
    var head := Span(toRead[0], skipPast.sequenceNumber + 1, len[toRead[0]]);
    assert Last(head, skipPast) == LogSequenceNumber(toRead[0], len[toRead[0]] - 1);
  }

  lemma {:induction false} FirstOfTwoPolls(toRead: seq<int>, len: Lengths, skipPast: LogSequenceNumber)
    requires PollInput(toRead, len, skipPast) && |toRead| == 2
    requires skipPast.sequenceNumber + 1 < len[toRead[0]] && len[toRead[1]] <= skipPast.sequenceNumber + 1
    ensures Poll(toRead, len, skipPast.sequenceNumber + 1) == Span(toRead[0], skipPast.sequenceNumber + 1, len[toRead[0]])
  {
    var n := skipPast.sequenceNumber + 1;
    var tail := toRead[1..];
    assert Poll(tail, len, n) == Poll(tail[1..], len, 0) == [];
    assert Span(toRead[0], n, len[toRead[0]]) + [] == Span(toRead[0], n, len[toRead[0]]);
  }

  /** Every delivered entry exists, in a listed ledger, at or after `nextEntry` in the first one; the order is increasing. */
  lemma {:induction false} PollIncreasing(toRead: seq<int>, len: Lengths, nextEntry: int)
    requires Known(toRead, len) && Ascending(toRead) && nextEntry >= 0
    ensures Increasing(Poll(toRead, len, nextEntry))
    ensures forall q :: q in Poll(toRead, len, nextEntry) ==>
      Readable(toRead, len, q) && (q.ledgerId == toRead[0] ==> q.sequenceNumber >= nextEntry)
  {
    if toRead != [] {
      var rest := toRead[1..];
      var next := if len[toRead[0]] <= nextEntry then 0 else nextEntry;
      PollIncreasing(rest, len, next);
      var tail := Poll(rest, len, next);
      var head := Span(toRead[0], nextEntry, len[toRead[0]]);
      forall q | q in tail ensures q.ledgerId > toRead[0] && q.ledgerId in toRead {
        var k :| 0 <= k < |rest| && rest[k] == q.ledgerId;
        assert toRead[k + 1] == q.ledgerId;
      }
      forall i | 0 <= i < |tail| ensures tail[i].ledgerId > toRead[0] { assert tail[i] in tail; }
      IncreasingConcat(head, tail);
      if next == nextEntry && nextEntry < len[toRead[0]] {
        forall q | q in Poll(toRead, len, nextEntry) ensures q in head || q in tail {}
      }
    }
  }

  lemma PollAfter(toRead: seq<int>, len: Lengths, skipPast: LogSequenceNumber)
    requires PollInput(toRead, len, skipPast)
    ensures Increasing(Poll(toRead, len, skipPast.sequenceNumber + 1))
    ensures AllAfter(Poll(toRead, len, skipPast.sequenceNumber + 1), skipPast)
  {
    var got := Poll(toRead, len, skipPast.sequenceNumber + 1);
    PollIncreasing(toRead, len, skipPast.sequenceNumber + 1);
    forall i | 0 <= i < |got| ensures got[i].After(skipPast) {
      assert got[i] in got;
      var k :| 0 <= k < |toRead| && toRead[k] == got[i].ledgerId;
      assert k == 0 || toRead[0] < toRead[k];
    }
  }

  /** What one poll sees: the active list and the ledgers' readable lengths, and after how many ledgers an error cuts it short. */
  datatype View = View(ids: seq<int>, len: Lengths, cut: nat)

  ghost predicate ValidView(v: View) {
    Ascending(v.ids) && NoneBelow(v.ids, 0) && Known(v.ids, v.len)
  }

  function OnePoll(v: View, skipPast: LogSequenceNumber): seq<LogSequenceNumber>
    requires Known(Opened(v, skipPast), v.len)
  {
    Poll(Opened(v, skipPast), v.len, skipPast.sequenceNumber + 1)
  }

  /** The ledgers read before the poll is cut short. */
  function Opened(v: View, skipPast: LogSequenceNumber): seq<int> {
    var toRead := ToRead(v.ids, skipPast);
    if v.cut < |toRead| then toRead[..v.cut] else toRead
  }

  lemma OpenedInput(v: View, skipPast: LogSequenceNumber)
    requires ValidView(v) && skipPast.ledgerId >= -1 && skipPast.sequenceNumber >= -1
    ensures PollInput(Opened(v, skipPast), v.len, skipPast)
  {
    FilterKeeps(v.ids, skipPast.ledgerId, v.len);
  }

  /** All that a sequence of polls delivers, each starting past the last delivered entry. */
  function Polls(views: seq<View>, skipPast: LogSequenceNumber): seq<LogSequenceNumber>
    requires forall i :: 0 <= i < |views| ==> ValidView(views[i])
    requires skipPast.ledgerId >= -1 && skipPast.sequenceNumber >= -1
  {
    if views == [] then []
    else
      OpenedInput(views[0], skipPast);
      var got := OnePoll(views[0], skipPast);
      PollAfter(Opened(views[0], skipPast), views[0].len, skipPast);
      LastIsPosition(views[0], skipPast);
      got + Polls(views[1..], Last(got, skipPast))
  }

  lemma LastIsPosition(v: View, skipPast: LogSequenceNumber)
    requires ValidView(v) && skipPast.ledgerId >= -1 && skipPast.sequenceNumber >= -1
    requires PollInput(Opened(v, skipPast), v.len, skipPast)
    ensures var reached := Last(OnePoll(v, skipPast), skipPast); reached.ledgerId >= -1 && reached.sequenceNumber >= -1
  {
    PollIncreasing(Opened(v, skipPast), v.len, skipPast.sequenceNumber + 1);
    var got := OnePoll(v, skipPast);
    if got != [] { assert got[|got| - 1] in got; }
  }

  /**
   * Whatever each poll sees, and however errors cut polls short, the delivered positions strictly increase, so no
   * entry is delivered twice.
   */
  lemma {:induction false} PollsIncreasing(views: seq<View>, skipPast: LogSequenceNumber)
    requires forall i :: 0 <= i < |views| ==> ValidView(views[i])
    requires skipPast.ledgerId >= -1 && skipPast.sequenceNumber >= -1
    ensures Increasing(Polls(views, skipPast)) && AllAfter(Polls(views, skipPast), skipPast)
  {
    if views != [] {
      OpenedInput(views[0], skipPast);
      var got := OnePoll(views[0], skipPast);
      PollAfter(Opened(views[0], skipPast), views[0].len, skipPast);
      LastIsPosition(views[0], skipPast);
      var reached := Last(got, skipPast);
      PollsIncreasing(views[1..], reached);
      var rest := Polls(views[1..], reached);
      IncreasingConcat(got, rest);
      forall i | 0 <= i < |rest| ensures rest[i].After(skipPast) {
        AfterIsStrictTotalOrder(rest[i], reached, skipPast);
      }
    }
  }
}
