/**
 * The completion of a batch of asynchronous adds: callbacks write into a result list and count a latch down, in any
 * order and interleaved with one another, while the caller waits for the latch.
 */
module BatchLatch {
  import opened Edits

  /**
   * `results`: one slot per edit.  `failed`: an exception was recorded.  `done`: adds whose callback has run.
   * `owed`: count-downs that running callbacks still have to make.  `latch`: the latch's count, which stops at 0.
   */
  datatype Batch = Batch(results: seq<Option<int>>, failed: bool, done: set<nat>, owed: nat, latch: nat)

  datatype Event =
    | Succeeded(index: nat, entryId: int)
    | Errored(index: nat)
    | CountDown

  function Submitted(size: nat): Batch {
    Batch(seq(size, i => None), false, {}, 0, size)
  }

  /** The first edit of the batch gets entry id `base`; ids follow call order. */
  predicate Possible(b: Batch, base: int, e: Event) {
    match e
    case Succeeded(i, id) => i < |b.results| && i !in b.done && id == base + i
    case Errored(i) => i < |b.results| && i !in b.done
    case CountDown => b.owed > 0
  }

  /** An error records its exception, clears its slot, and then counts down once for every edit of the batch. */
  function Next(b: Batch, e: Event): Batch
    requires e.CountDown? || e.index < |b.results|
  {
    match e
    case Succeeded(i, id) => b.(results := b.results[i := Some(id)], done := b.done + {i}, owed := b.owed + 1)
    case Errored(i) => b.(results := b.results[i := None], failed := true, done := b.done + {i}, owed := b.owed + |b.results|)
    case CountDown => b.(owed := if b.owed > 0 then b.owed - 1 else 0, latch := if b.latch > 0 then b.latch - 1 else 0)
  }

  ghost predicate Run(b: Batch, base: int, es: seq<Event>, end: Batch)
    decreases |es|
  {
    if es == [] then end == b else Possible(b, base, es[0]) && Run(Next(b, es[0]), base, es[1..], end)
  }

  function Indices(n: nat): (s: set<nat>)
    ensures forall i: nat :: i in s <==> i < n
    ensures |s| == n
  {
    if n == 0 then {} else Indices(n - 1) + {n - 1}
  }

  /** Until an error, each finished callback has counted down once or still owes it, and its slot is filled. */
  ghost predicate Counted(b: Batch, base: int) {
    && b.done <= Indices(|b.results|)
    && (!b.failed ==>
          && b.latch + |b.done| == |b.results| + b.owed
          && forall i :: 0 <= i < |b.results| ==> b.results[i] == if i in b.done then Some(base + i) else None)
  }

  lemma NextCounted(b: Batch, base: int, e: Event)
    requires Counted(b, base) && Possible(b, base, e)
    ensures Counted(Next(b, e), base) && |Next(b, e).results| == |b.results|
  {
    match e
    case CountDown => WithinSize(b.done, |b.results|);
    case Succeeded(i, id) => DoneGrows(b, i);
    case Errored(i) => DoneGrows(b, i);
  }

  lemma DoneGrows(b: Batch, i: nat)
    requires b.done <= Indices(|b.results|) && i < |b.results| && i !in b.done
    ensures b.done + {i} <= Indices(|b.results|) && |b.done + {i}| == |b.done| + 1
  {
  }

  lemma WithinSize(s: set<nat>, n: nat)
    requires s <= Indices(n)
    ensures |s| <= n
    ensures |s| == n ==> s == Indices(n)
  {
    var rest := Indices(n) - s;
    assert Indices(n) == s + rest;
    if |s| == n { assert rest == {}; }
  }

  lemma {:induction false} RunCounted(b: Batch, base: int, es: seq<Event>, end: Batch)
    requires Counted(b, base) && Run(b, base, es, end)
    ensures Counted(end, base) && |end.results| == |b.results|
    decreases |es|
  {
    if es != [] {
      NextCounted(b, base, es[0]);
      RunCounted(Next(b, es[0]), base, es[1..], end);
    }
  }

  /**
   * For every order of callbacks: whenever the latch is open, either an exception is recorded or every slot holds its
   * entry id, so the check for an empty slot never fires and the ids are consecutive in request order.
   */
  lemma OpenLatchMeansResult(size: nat, base: int, es: seq<Event>, end: Batch)
    requires Run(Submitted(size), base, es, end) && end.latch == 0
    ensures |end.results| == size
    ensures end.failed || forall i :: 0 <= i < size ==> end.results[i] == Some(base + i)
  {
    RunCounted(Submitted(size), base, es, end);
    if !end.failed {
      WithinSize(end.done, size);
    }
  }

  /** Each finished callback, failed or not, makes at least one count-down, or still owes it. */
  ghost predicate CountsEnough(b: Batch) {
    b.done <= Indices(|b.results|) && b.latch + |b.done| <= |b.results| + b.owed
  }

  lemma {:induction false} RunCountsEnough(b: Batch, base: int, es: seq<Event>, end: Batch)
    requires CountsEnough(b) && Run(b, base, es, end)
    ensures CountsEnough(end) && |end.results| == |b.results|
    decreases |es|
  {
    if es != [] {
      NextCountsEnough(b, base, es[0]);
      RunCountsEnough(Next(b, es[0]), base, es[1..], end);
    }
  }

  lemma NextCountsEnough(b: Batch, base: int, e: Event)
    requires CountsEnough(b) && Possible(b, base, e)
    ensures CountsEnough(Next(b, e)) && |Next(b, e).results| == |b.results|
  {
    match e
    case CountDown => WithinSize(b.done, |b.results|);
    case Succeeded(i, id) => DoneGrows(b, i);
    case Errored(i) => DoneGrows(b, i);
  }

  /**
   * The latch does open: for every order of callbacks, failed ones among them, once every callback has run and made its
   * count-downs the latch is open; and if none failed, it was closed by exactly the count-downs still owed.
   */
  lemma LatchOpensInTheEnd(size: nat, base: int, es: seq<Event>, end: Batch)
    requires Run(Submitted(size), base, es, end) && end.done == Indices(size)
    ensures end.owed == 0 ==> end.latch == 0
    ensures !end.failed ==> end.latch == end.owed
  {
    RunCounted(Submitted(size), base, es, end);
    RunCountsEnough(Submitted(size), base, es, end);
  }
}
