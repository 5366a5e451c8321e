/** Every action keeps the invariant, so every run is safe when the guarantees hold. */
module FailoverSafety {
  import opened LogPositions
  import opened Edits
  import opened Failover
  import opened FailoverInvariant
  import Following

  const SOUND := Config(true, true, true, true, true, true, true)

  /** The unlisted ledgers of others are as they were. */
  ghost predicate OthersFresh(s: Cluster, t: Cluster, a: int) {
    forall c :: c in s.brokers && c != a && Writer(s.brokers[c]).Some? && !s.brokers[c].phase.Leading? ==>
      var w := s.brokers[c].phase.ledger; w in t.bk && w in s.bk && t.bk[w] == s.bk[w] && w !in t.registered
  }

  /** What a step by `a` may do to the others. */
  ghost predicate Transition(s: Cluster, t: Cluster, a: int, added: Option<LogSequenceNumber>) {
    && Grows(s, t) && NewLiveOnly(s, t, added) && LiveStays(s, t) && NoNewLeads(s, t) && StepBy(s, t, a)
    && OthersFly(s, t, a) && AcksOwn(s, t, a) && NewFlights(s, t, a)
    && (added.Some? ==> NewEntry(s, added.value, a))
    && t.brokers.Keys == s.brokers.Keys + {a}
    && (forall c :: c in s.brokers && c != a ==> t.brokers[c] == s.brokers[c])
    && OthersFresh(s, t, a)
    && (forall l :: l in s.registered && l !in s.zk.active ==> l !in t.zk.active)
  }

  lemma OthersKeep(s: Cluster, t: Cluster, a: int, added: Option<LogSequenceNumber>)
    requires Inv(s) && ListOk(t) && Transition(s, t, a, added)
    requires BrokerOk(t, a, t.brokers[a])
    ensures BrokersOk(t)
  {
    forall c | c in t.brokers ensures BrokerOk(t, c, t.brokers[c]) {
      if c != a {
        assert BrokerOk(s, c, s.brokers[c]);
        OtherBrokerOk(s, t, a, c, added);
      }
    }
  }

  function WriterOf(s: Cluster, b: int): Option<int> {
    if b in s.brokers then Writer(s.brokers[b]) else None
  }

  lemma FreshKept(s: Cluster, t: Cluster, a: int)
    requires Inv(s)
    requires forall l :: l in s.bk && l !in s.registered && Some(l) != WriterOf(s, a) ==> l in t.bk && t.bk[l] == s.bk[l] && l !in t.registered
    ensures OthersFresh(s, t, a)
  {
    forall c | c in s.brokers && c != a && Writer(s.brokers[c]).Some? && !s.brokers[c].phase.Leading?
      ensures var w := s.brokers[c].phase.ledger; w in t.bk && w in s.bk && t.bk[w] == s.bk[w] && w !in t.registered
    {
      assert BrokerOk(s, c, s.brokers[c]);
      assert a in s.brokers ==> Writer(s.brokers[c]) != Writer(s.brokers[a]);
    }
  }

  /** The acting broker keeps its ledger, drops it, or takes a ledger nobody writes. */
  lemma WritersStayApart(s: Cluster, t: Cluster, a: int)
    requires WritersDiffer(s)
    requires t.brokers.Keys == s.brokers.Keys + {a}
    requires forall c :: c in s.brokers && c != a ==> t.brokers[c] == s.brokers[c]
    requires var w := Writer(t.brokers[a]);
             w == None || (a in s.brokers && w == Writer(s.brokers[a])) || forall c :: c in s.brokers && c != a ==> Writer(s.brokers[c]) != w
    ensures WritersDiffer(t)
  {
  }

  lemma OldFrozenKept(s: Cluster, t: Cluster)
    requires ListOk(s) && OldFrozen(s) && ListOk(t) && Grows(s, t) && NoNewLeads(s, t) && t.registered == s.registered
    ensures OldFrozen(t)
  {
    forall l, m | l in t.registered && m in t.registered && l < m ensures Frozen(t, l) {
      FrozenGrows(s, t, l);
    }
  }

  /** What follows for everybody once the acting broker is in order. */
  lemma RestKeeps(s: Cluster, t: Cluster, a: int, added: Option<LogSequenceNumber>)
    requires Inv(s) && ListOk(t) && Transition(s, t, a, added) && BrokerOk(t, a, t.brokers[a])
    requires t.registered == s.registered && t.snapshots == s.snapshots
    requires var w := Writer(t.brokers[a]);
             w == None || w == WriterOf(s, a) || forall c :: c in s.brokers && c != a ==> Writer(s.brokers[c]) != w
    ensures BrokersOk(t) && WritersDiffer(t) && OldFrozen(t) && SnapshotsOk(t)
  {
    OthersKeep(s, t, a, added);
    WritersStayApart(s, t, a);
    OldFrozenKept(s, t);
    SnapshotsGrow(s, t, added, a);
  }

  lemma FlightsKept(s: Cluster, t: Cluster)
    requires FlightsOk(s) && Grows(s, t) && LiveStays(s, t) && t.inflight == s.inflight && t.acked == s.acked && s.brokers.Keys <= t.brokers.Keys
    ensures FlightsOk(t)
  {
    forall p | p in t.inflight ensures FlightOk(t, p, t.inflight[p]) {
      assert FlightOk(s, p, s.inflight[p]);
      StoredGrows(s, t, p);
    }
  }

  lemma NewcomerHasNoFlights(s: Cluster, b: int)
    requires FlightsOk(s) && b !in s.brokers
    ensures NoFlights(s, b)
  {
    forall p ensures !FlightBy(s, b, p) {
      if p in s.inflight { assert FlightOk(s, p, s.inflight[p]); }
    }
  }

  lemma NoFlightsSame(s: Cluster, t: Cluster, b: int)
    requires NoFlights(s, b) && t.inflight == s.inflight
    ensures NoFlights(t, b)
    ensures forall r :: Covered(t, b, r)
  {
    forall p ensures !FlightBy(t, b, p) { assert !FlightBy(s, b, p); }
  }

  lemma NoFlightsQuiet(s: Cluster, b: int, p: LogSequenceNumber)
    requires NoFlights(s, b)
    ensures Quiet(s, b, p)
  {
    forall q | q in s.inflight ensures s.inflight[q].who != b { assert !FlightBy(s, b, q); }
  }

  /** The acting broker's edits in flight stay as they are, and it forgets nothing. */
  lemma CoveredSame(s: Cluster, t: Cluster, b: int, r: Broker, r': Broker)
    requires Covered(s, b, r) && r.applied.Keys <= r'.applied.Keys && t.inflight == s.inflight
    requires forall p :: Live(t, p) ==> Live(s, p)
    ensures Covered(t, b, r')
  {
    forall p, q | FlightBy(t, b, p) && Live(t, q) && !q.After(p) ensures q in r'.applied || FlightBy(t, b, q) {
      assert FlightBy(s, b, p) && Live(s, q);
      assert q in r.applied || FlightBy(s, b, q);
    }
  }

  /** A step that changes only `a`'s record, and possibly who owns the leader node. */
  lemma LocalStep(s: Cluster, t: Cluster, a: int)
    requires Inv(s) && a in t.brokers
    requires t == s.(brokers := s.brokers[a := t.brokers[a]], leader := t.leader)
    requires s.leader != a && s.leader != NO_LEADER ==> t.leader == s.leader
    requires Writer(t.brokers[a]) == None || (a in s.brokers && Writer(t.brokers[a]) == Writer(s.brokers[a]))
    requires t.brokers[a].phase.Leading? ==> a in s.brokers && s.brokers[a].phase == t.brokers[a].phase
    requires t.brokers[a].pending == {} || (a in s.brokers && t.brokers[a].pending == s.brokers[a].pending)
    requires BrokerOk(t, a, t.brokers[a])
    ensures Inv(t)
  {
    FreshKept(s, t, a);
    LocalMoves(s, t, a);
    RestKeeps(s, t, a, None);
    StoreUnchanged(s, t);
    FlightsKept(s, t);
    PendingsSame(s, t, a);
  }

  lemma LocalMoves(s: Cluster, t: Cluster, a: int)
    requires ListOk(s) && OthersFresh(s, t, a) && a in t.brokers
    requires t == s.(brokers := s.brokers[a := t.brokers[a]], leader := t.leader)
    requires s.leader != a && s.leader != NO_LEADER ==> t.leader == s.leader
    requires t.brokers[a].phase.Leading? ==> a in s.brokers && s.brokers[a].phase == t.brokers[a].phase
    ensures ListOk(t) && Transition(s, t, a, None)
  {
  }

  lemma StoreUnchanged(s: Cluster, t: Cluster)
    requires StoreOk(s)
    requires t.bk == s.bk && t.nextId == s.nextId && t.orphans == s.orphans && t.acked == s.acked && t.registered == s.registered
    ensures StoreOk(t)
  {
    forall p | p in t.acked ensures Live(t, p) && t.acked[p] == EditAt(t, p) {
      assert Live(s, p);
    }
  }

  // ---- Joining, electing, expiring, failing ----

  lemma JoinKeeps(s: Cluster, b: int, from: Option<Snapshot>)
    requires Inv(s)
    ensures Inv(StepJoin(s, b, from))
  {
    var t := StepJoin(s, b, from);
    if t != s {
      if from.None? { assert RecordOk(s, map[], NOTHING); }
      RecordSame(s, t, t.brokers[b].applied, t.brokers[b].position);
      NewcomerHasNoFlights(s, b);
      NoFlightsSame(s, t, b);
      LocalStep(s, t, b);
    }
  }

  /** A record depends on the ledgers and the history only. */
  lemma RecordSame(s: Cluster, t: Cluster, applied: map<LogSequenceNumber, StatusEdit>, p: LogSequenceNumber)
    requires RecordOk(s, applied, p)
    requires t.bk == s.bk && t.registered == s.registered && t.orphans == s.orphans
    ensures RecordOk(t, applied, p)
  {
    forall q | q in applied ensures Stored(t, q) && applied[q] == EditAt(t, q) { assert Stored(s, q); }
    forall q | Live(t, q) && !q.After(p) ensures q in applied { assert Live(s, q); }
    if p != NOTHING { assert Stored(s, p); }
  }

  lemma AppliedSame(s: Cluster, t: Cluster, applied: map<LogSequenceNumber, StatusEdit>)
    requires AppliedOk(s, applied)
    requires t.bk == s.bk && t.registered == s.registered
    ensures AppliedOk(t, applied)
  {
    forall q | q in applied ensures Stored(t, q) && applied[q] == EditAt(t, q) { assert Stored(s, q); }
  }

  lemma ElectKeeps(s: Cluster, b: int)
    requires Inv(s)
    ensures Inv(Step(SOUND, s, Elect(b)))
  {
    var t := Step(SOUND, s, Elect(b));
    if t != s {
      assert BrokerOk(s, b, s.brokers[b]);
      NoFlightsQuiet(s, b, s.brokers[b].position);
      NoFlightsSame(s, t, b);
      RecordSame(s, t, s.brokers[b].applied, s.brokers[b].position);
      LocalStep(s, t, b);
    }
  }

  lemma ExpireKeeps(s: Cluster, b: int)
    requires Inv(s)
    ensures Inv(Step(SOUND, s, Expire(b)))
  {
    var t := Step(SOUND, s, Expire(b));
    if b in s.brokers {
      assert BrokerOk(s, b, s.brokers[b]);
      ExpireActor(s, t, b);
      LocalStep(s, t, b);
    }
  }

  lemma ExpireActor(s: Cluster, t: Cluster, b: int)
    requires ListOk(s) && ListOk(t) && b in s.brokers && BrokerOk(s, b, s.brokers[b])
    requires t == SetBroker(s, b, s.brokers[b].(session := false)).(leader := t.leader)
    ensures BrokerOk(t, b, t.brokers[b])
  {
    var r := s.brokers[b];
    AppliedSame(s, t, r.applied);
    if r.exact && !r.phase.Dead? && Quiet(s, b, r.position) { RecordSame(s, t, r.applied, r.position); }
    CoveredSame(s, t, b, r, t.brokers[b]);
    if NoFlights(s, b) { NoFlightsSame(s, t, b); }
    if r.phase.Leading? { LeadSame(s, t, b, r, r.(session := false), r.phase.ledger); }
  }

  lemma LeadSame(s: Cluster, t: Cluster, b: int, r: Broker, r': Broker, w: int)
    requires LeadOk(s, b, r, w)
    requires t.inflight == s.inflight && t.bk == s.bk && t.registered == s.registered && t.orphans == s.orphans && t.zk == s.zk
    requires r' == r.(session := r'.session) && (r'.session ==> r.session)
    ensures LeadOk(t, b, r', w)
  {
    forall p | Live(t, p) && p.ledgerId <= w ensures p in r'.applied || FlightBy(t, b, p) || p in r'.pending { assert Live(s, p); }
  }

  lemma DieKeeps(s: Cluster, t: Cluster, b: int)
    requires Inv(s) && b in s.brokers && b in t.brokers
    requires t == SetBroker(s, b, t.brokers[b]) && t.brokers[b].phase == Dead
    requires t.brokers[b].applied == s.brokers[b].applied && t.brokers[b].position == s.brokers[b].position
    requires t.brokers[b].dropping == s.brokers[b].dropping && (t.brokers[b].pending == {} || t.brokers[b].pending == s.brokers[b].pending)
    ensures Inv(t)
  {
    assert BrokerOk(s, b, s.brokers[b]);
    AppliedSame(s, t, s.brokers[b].applied);
    CoveredSame(s, t, b, s.brokers[b], t.brokers[b]);
    LocalStep(s, t, b);
  }

  // ---- Reading ----

  /** Nothing after a position in the list has been dropped. */
  lemma NothingDropped(s: Cluster, p: LogSequenceNumber, q: LogSequenceNumber)
    requires ListOk(s) && StoreOk(s) && StartsInList(s.zk, p) && Stored(s, q) && q.After(p)
    ensures q.ledgerId in s.zk.active
  {
  }

  lemma AscendingOrder(ids: seq<int>, i: int, j: int)
    requires Ascending(ids) && 0 <= i < |ids| && 0 <= j < |ids| && ids[i] <= ids[j]
    ensures i <= j
  {
  }

  /** A delivery that is an initial part of what is readable skips nothing that may be acknowledged. */
  lemma DeliverySkipsNothing(s: Cluster, p: LogSequenceNumber, ids: seq<int>, visible: Lengths, got: seq<LogSequenceNumber>,
                             q: LogSequenceNumber)
    requires Ascending(ids) && Known(ids, visible) && p.sequenceNumber >= -1
    requires got != [] && got <= EntriesAfter(ids, visible, p)
    requires WholeButLast(s, ids, visible)
    requires Stored(s, q) && q.After(p) && !q.After(got[|got| - 1])
    requires q.ledgerId in ids || forall i :: 0 <= i < |ids| ==> ids[i] < q.ledgerId
    ensures q in got
  {
    var all := EntriesAfter(ids, visible, p);
    var last := got[|got| - 1];
    EntriesAfterIncreasing(ids, visible, p);
    assert last == all[|got| - 1];
    EntriesAfterMembers(ids, visible, p, last);
    EntriesAfterMembers(ids, visible, p, q);
    var i :| 0 <= i < |ids| && ids[i] == last.ledgerId;
    var j :| 0 <= j < |ids| && ids[j] == q.ledgerId;
    AscendingOrder(ids, j, i);
    assert Readable(ids, visible, q);
    var k :| 0 <= k < |all| && all[k] == q;
    assert k < |got|;
    assert got[k] == q;
  }

  /** What a delivery does to a record. */
  lemma DeliverKeepsRecord(s: Cluster, r: Broker, got: seq<LogSequenceNumber>)
    requires RecordOk(s, r.applied, r.position)
    requires forall q :: q in got ==> Stored(s, q)
    requires got != [] ==> forall q :: Live(s, q) && q.After(r.position) && !q.After(got[|got| - 1]) ==> q in got
    ensures RecordOk(s, Deliver(s, r, got).applied, Deliver(s, r, got).position)
  {
    if got != [] { assert got[|got| - 1] in got; }
  }

  lemma ReadKeeps(s: Cluster, t: Cluster, b: int, got: seq<LogSequenceNumber>)
    requires Inv(s) && b in s.brokers && s.brokers[b].phase == Following
    requires t == SetBroker(s, b, Deliver(s, s.brokers[b], got))
    requires forall q :: q in got ==> Stored(s, q)
    requires got != [] ==> forall q :: Live(s, q) && q.After(s.brokers[b].position) && !q.After(got[|got| - 1]) ==> q in got
    ensures Inv(t)
  {
    assert BrokerOk(s, b, s.brokers[b]);
    NoFlightsQuiet(s, b, s.brokers[b].position);
    NoFlightsSame(s, t, b);
    DeliverKeepsRecord(s, s.brokers[b], got);
    RecordSame(s, t, t.brokers[b].applied, t.brokers[b].position);
    LocalStep(s, t, b);
  }

  lemma ReplayKeeps(s: Cluster, b: int, visible: Lengths)
    requires Inv(s)
    ensures Inv(StepReplay(SOUND, s, b, visible))
  {
    var t := StepReplay(SOUND, s, b, visible);
    if t != s {
      var r := s.brokers[b];
      assert BrokerOk(s, b, r);
      NoFlightsQuiet(s, b, r.position);
      var got := EntriesAfter(s.zk.active, visible, r.position);
      forall q | q in got ensures Stored(s, q) {
        EntriesAfterMembers(s.zk.active, visible, r.position, q);
      }
      if got != [] {
        forall q | Live(s, q) && q.After(r.position) && !q.After(got[|got| - 1]) ensures q in got {
          NothingDropped(s, r.position, q);
          DeliverySkipsNothing(s, r.position, s.zk.active, visible, got, q);
        }
      }
      ReadKeeps(s, t, b, got);
    }
  }

  lemma PollKeeps(s: Cluster, b: int, visible: Lengths, cut: nat)
    requires Inv(s)
    ensures Inv(StepPoll(SOUND, s, b, visible, cut))
  {
    if StepPoll(SOUND, s, b, visible, cut) != s {
      var got := PollStep(s, b, visible, cut);
      assert BrokerOk(s, b, s.brokers[b]);
      PollDelivered(s, s.brokers[b].position, visible, cut);
      ReadKeeps(s, SetBroker(s, b, Deliver(s, s.brokers[b], got)), b, got);
    }
  }

  lemma PollStep(s: Cluster, b: int, visible: Lengths, cut: nat) returns (got: seq<LogSequenceNumber>)
    requires StepPoll(SOUND, s, b, visible, cut) != s
    ensures b in s.brokers && s.brokers[b].phase == Following && ListSeenAs(s, visible)
    ensures var toRead := Following.Opened(Following.View(s.zk.active, visible, cut), s.brokers[b].position);
            KnownTo(toRead, visible) && MayPoll(SOUND, s, s.brokers[b].position, toRead, visible)
    ensures got == Following.OnePoll(Following.View(s.zk.active, visible, cut), s.brokers[b].position)
    ensures StepPoll(SOUND, s, b, visible, cut) == SetBroker(s, b, Deliver(s, s.brokers[b], got))
  {
    got := Following.OnePoll(Following.View(s.zk.active, visible, cut), s.brokers[b].position);
  }

  lemma PollDelivered(s: Cluster, p: LogSequenceNumber, visible: Lengths, cut: nat)
    requires ListOk(s) && StoreOk(s) && ListSeenAs(s, visible) && p.ledgerId >= -1 && p.sequenceNumber >= -1
    requires var toRead := Following.Opened(Following.View(s.zk.active, visible, cut), p);
             KnownTo(toRead, visible) && MayPoll(SOUND, s, p, toRead, visible)
    ensures var got := Following.OnePoll(Following.View(s.zk.active, visible, cut), p);
            && (forall q :: q in got ==> Stored(s, q))
            && (got != [] ==> forall q :: Live(s, q) && q.After(p) && !q.After(got[|got| - 1]) ==> q in got)
  {
    var view := Following.View(s.zk.active, visible, cut);
    PollReads(s, view, p);
    PollFaithful(s, view, p);
  }

  /** A poll under its guards delivers what is stored, and skips nothing. */
  lemma PollFaithful(s: Cluster, v: Following.View, p: LogSequenceNumber)
    requires ListOk(s) && StoreOk(s) && v.ids == s.zk.active && ListSeenAs(s, v.len)
    requires p.ledgerId >= -1 && p.sequenceNumber >= -1
    requires Following.PollInput(Following.Opened(v, p), v.len, p)
    requires MayPoll(SOUND, s, p, Following.Opened(v, p), v.len)
    ensures var got := Following.OnePoll(v, p);
            && (forall q :: q in got ==> Stored(s, q))
            && (got != [] ==> forall q :: Live(s, q) && q.After(p) && !q.After(got[|got| - 1]) ==> q in got)
  {
    var got := Following.OnePoll(v, p);
    forall q | q in got ensures Stored(s, q) {
      PollDelivers(s, v, p, q);
    }
    Following.PollGapFreeIff(Following.Opened(v, p), v.len, p);
    if got != [] {
      forall q | Live(s, q) && q.After(p) && !q.After(got[|got| - 1]) ensures q in got {
        PollSkipsNothing(s, v, p, q);
      }
    }
  }

  lemma PollSkipsNothing(s: Cluster, v: Following.View, p: LogSequenceNumber, q: LogSequenceNumber)
    requires ListOk(s) && StoreOk(s) && v.ids == s.zk.active && ListSeenAs(s, v.len) && StartsInList(s.zk, p)
    requires p.ledgerId >= -1 && p.sequenceNumber >= -1
    requires Ascending(Following.Opened(v, p)) && Known(Following.Opened(v, p), v.len) && WholeButLast(s, Following.Opened(v, p), v.len)
    requires Following.OnePoll(v, p) <= EntriesAfter(Following.Opened(v, p), v.len, p)
    requires var got := Following.OnePoll(v, p); Stored(s, q) && q.After(p) && got != [] && !q.After(got[|got| - 1])
    ensures q in Following.OnePoll(v, p)
  {
    NothingDropped(s, p, q);
    OpenedOrLater(s, v, p, q.ledgerId);
    DeliverySkipsNothing(s, p, Following.Opened(v, p), v.len, Following.OnePoll(v, p), q);
  }

  lemma PollReads(s: Cluster, v: Following.View, p: LogSequenceNumber)
    requires ListOk(s) && StoreOk(s) && v.ids == s.zk.active && ListSeenAs(s, v.len)
    requires p.ledgerId >= -1 && p.sequenceNumber >= -1
    ensures Following.PollInput(Following.Opened(v, p), v.len, p)
  {
    Following.OpenedInput(v, p);
  }

  lemma OpenedIsListed(v: Following.View, p: LogSequenceNumber, l: int)
    requires l in Following.Opened(v, p)
    ensures l in v.ids
  {
    assert l in Following.ToRead(v.ids, p);
  }

  lemma PollDelivers(s: Cluster, v: Following.View, p: LogSequenceNumber, q: LogSequenceNumber)
    requires ListOk(s) && StoreOk(s) && v.ids == s.zk.active && ListSeenAs(s, v.len)
    requires p.ledgerId >= -1 && p.sequenceNumber >= -1
    requires Following.PollInput(Following.Opened(v, p), v.len, p)
    requires q in Following.Poll(Following.Opened(v, p), v.len, p.sequenceNumber + 1)
    ensures Stored(s, q)
  {
    Following.PollIncreasing(Following.Opened(v, p), v.len, p.sequenceNumber + 1);
    OpenedIsListed(v, p, q.ledgerId);
  }

  /** A listed ledger not below the position is opened, or lies past where the poll was cut short. */
  lemma OpenedOrLater(s: Cluster, v: Following.View, p: LogSequenceNumber, l: int)
    requires ListOk(s) && StoreOk(s) && v.ids == s.zk.active && ListSeenAs(s, v.len)
    requires p.ledgerId >= -1 && p.sequenceNumber >= -1
    requires l in s.zk.active && p.ledgerId <= l
    ensures var ids := Following.Opened(v, p); l in ids || forall i :: 0 <= i < |ids| ==> ids[i] < l
  {
    var toRead := Following.ToRead(v.ids, p);
    Following.FilterKeeps(v.ids, p.ledgerId, v.len);
    assert l in toRead;
    var k :| 0 <= k < |toRead| && toRead[k] == l;
    var ids := Following.Opened(v, p);
    if k < |ids| { assert ids[k] == l; }
  }

  // ---- Recovery for leadership ----

  /** A registered ledger that is still open is the newest one, and listed. */
  lemma OpenLedgerIsLast(s: Cluster, l: int)
    requires ListOk(s) && OldFrozen(s) && l in s.registered && !Frozen(s, l)
    ensures l in s.zk.active && forall m :: m in s.registered ==> m <= l
  {
    assert forall m :: m in s.registered && l < m ==> Frozen(s, l);
    assert s.zk.active[0] in s.registered;
  }

  lemma StartRecoveryKeeps(s: Cluster, b: int)
    requires Inv(s)
    ensures Inv(StepStartRecovery(SOUND, s, b))
  {
    var t := StepStartRecovery(SOUND, s, b);
    if t != s {
      if t.brokers[b].phase == Dead {
        DieKeeps(s, t, b);
      } else {
        assert BrokerOk(s, b, s.brokers[b]);
        StartRecoveryActor(s, t, b);
        LocalStep(s, t, b);
      }
    }
  }

  lemma StartRecoveryActor(s: Cluster, t: Cluster, b: int)
    requires ListOk(s) && StoreOk(s) && OldFrozen(s) && b in s.brokers && BrokerOk(s, b, s.brokers[b])
    requires s.brokers[b].session && s.brokers[b].phase == Elected && StartsInList(s.zk, s.brokers[b].position)
    requires t == SetBroker(s, b, s.brokers[b].(phase := Recovering(s.brokers[b].position, s.zk.active), info := s.zk))
    ensures ListOk(t) && BrokerOk(t, b, t.brokers[b])
  {
    var r := s.brokers[b];
    NoFlightsQuiet(s, b, r.position);
    NoFlightsSame(s, t, b);
    RecordSame(s, t, r.applied, r.position);
    StartsCatching(s, t, b);
  }

  lemma StartsCatching(s: Cluster, t: Cluster, b: int)
    requires ListOk(s) && StoreOk(s) && OldFrozen(s) && b in s.brokers && StartsInList(s.zk, s.brokers[b].position)
    requires s.brokers[b].phase == Elected && RecordOk(s, s.brokers[b].applied, s.brokers[b].position)
    requires t == SetBroker(s, b, s.brokers[b].(phase := Recovering(s.brokers[b].position, s.zk.active), info := s.zk)) && ListOk(t)
    ensures Catching(t, t.brokers[b], s.brokers[b].position, s.zk.active)
  {
    var r := s.brokers[b];
    forall p | Live(t, p) ensures p in r.applied || (p.ledgerId in s.zk.active && p.After(r.position)) {
      assert Live(s, p);
      if p.After(r.position) { NothingDropped(s, r.position, p); }
    }
    forall l | l in t.registered ensures Frozen(t, l) || (l in s.zk.active && r.position.ledgerId <= l) {
      if Frozen(s, l) { assert Frozen(t, l); } else { OpenLedgerIsLast(s, l); }
    }
  }

  lemma FenceKeepsOthers(s: Cluster, t: Cluster, b: int, l: int)
    requires Inv(s) && b in s.brokers && b in t.brokers && l in s.bk && l in s.registered
    requires t == SetBroker(s, b, t.brokers[b]).(bk := s.bk[l := s.bk[l].(fenced := true)])
    requires Writer(t.brokers[b]) == None
    ensures ListOk(t) && StoreOk(t) && FlightsOk(t) && Transition(s, t, b, None) && WritersDiffer(t) && OldFrozen(t) && SnapshotsOk(t)
    ensures ListedLedgersExist(t)
    ensures forall p :: Live(t, p) <==> Live(s, p)
  {
    FreshKept(s, t, b);
    FenceMoves(s, t, b, l);
    WritersStayApart(s, t, b);
    OldFrozenKept(s, t);
    SnapshotsGrow(s, t, None, b);
    HistoryKept(s, t);
  }

  lemma FenceMoves(s: Cluster, t: Cluster, b: int, l: int)
    requires ListOk(s) && OthersFresh(s, t, b) && b in s.brokers && b in t.brokers && l in s.bk && l in s.registered
    requires t == SetBroker(s, b, t.brokers[b]).(bk := s.bk[l := s.bk[l].(fenced := true)])
    requires Writer(t.brokers[b]) == None
    ensures ListOk(t) && Transition(s, t, b, None) && forall p :: Live(t, p) <==> Live(s, p)
  {
    forall p ensures Stored(t, p) <==> Stored(s, p) {}
  }

  /** What was acknowledged, or is in flight, stays so while the ledgers only grow. */
  lemma HistoryKept(s: Cluster, t: Cluster)
    requires StoreOk(s) && FlightsOk(s) && Grows(s, t) && LiveStays(s, t)
    requires t.inflight == s.inflight && t.acked == s.acked && s.brokers.Keys <= t.brokers.Keys
    requires 0 <= t.nextId && forall l :: l in t.bk ==> 0 <= l < t.nextId
    requires forall p :: p in t.orphans ==> p.ledgerId in t.bk && 0 <= p.sequenceNumber < |t.bk[p.ledgerId].entries|
    ensures StoreOk(t) && FlightsOk(t)
  {
    FlightsKept(s, t);
    forall p | p in t.acked ensures Live(t, p) && t.acked[p] == EditAt(t, p) { assert Live(s, p); StoredGrows(s, t, p); }
  }

  lemma RecoverNextKeeps(s: Cluster, b: int, upto: nat)
    requires Inv(s)
    ensures Inv(StepRecoverNext(SOUND, s, b, upto))
  {
    if b in s.brokers && s.brokers[b].session && s.brokers[b].phase.Recovering? && s.brokers[b].phase.todo != [] {
      NextIsKnown(s, b);
      if s.brokers[b].phase.todo[0] < s.brokers[b].phase.from.ledgerId {
        PassLedgerKeeps(s, b, upto);
      } else if s.bk[s.brokers[b].phase.todo[0]].deleted {
        DieKeeps(s, StepRecoverNext(SOUND, s, b, upto), b);
      } else {
        RecoverLedgerKeeps(s, b, upto);
      }
    }
  }

  lemma NextIsKnown(s: Cluster, b: int)
    requires Inv(s) && b in s.brokers && s.brokers[b].session && s.brokers[b].phase.Recovering? && s.brokers[b].phase.todo != []
    ensures s.brokers[b].phase.todo[0] in s.bk
  {
    assert BrokerOk(s, b, s.brokers[b]);
    assert s.brokers[b].phase.todo[0] in s.zk.active;
  }

  lemma PassLedgerKeeps(s: Cluster, b: int, upto: nat)
    requires Inv(s) && b in s.brokers && s.brokers[b].session && s.brokers[b].phase.Recovering?
    requires s.brokers[b].phase.todo != [] && s.brokers[b].phase.todo[0] < s.brokers[b].phase.from.ledgerId
    ensures Inv(StepRecoverNext(SOUND, s, b, upto))
  {
    var t := StepRecoverNext(SOUND, s, b, upto);
    var r := s.brokers[b];
    var from, todo := r.phase.from, r.phase.todo;
    assert BrokerOk(s, b, r);
    NoFlightsQuiet(s, b, r.position);
    NoFlightsSame(s, t, b);
    RecordSame(s, t, r.applied, r.position);
    if from != NOTHING { assert Stored(s, from); }
    assert forall m :: m in todo <==> m == todo[0] || m in todo[1..];
    CatchingPastOld(s, t, r, from, todo);
    LocalStep(s, t, b);
  }

  lemma CatchingPastOld(s: Cluster, t: Cluster, r: Broker, from: LogSequenceNumber, todo: seq<int>)
    requires ListOk(s) && todo != [] && todo[0] < from.ledgerId && Catching(s, r, from, todo)
    requires forall m :: m in todo <==> m == todo[0] || m in todo[1..]
    requires t.zk == s.zk && t.bk == s.bk && t.registered == s.registered && t.orphans == s.orphans
    requires forall c, m :: c in t.brokers && t.brokers[c].phase == Leading(m) ==> c in s.brokers && s.brokers[c].phase == Leading(m)
    ensures Catching(t, r, from, todo[1..])
  {
    forall p | Live(t, p) ensures p in r.applied || (p.ledgerId in todo[1..] && p.After(from)) { assert Live(s, p); }
    forall l | l in t.registered ensures Frozen(t, l) || (l in todo[1..] && from.ledgerId <= l) {
      if Frozen(s, l) { assert Frozen(t, l); }
    }
  }

  lemma RecoverLedgerKeeps(s: Cluster, b: int, upto: nat)
    requires Inv(s) && b in s.brokers && s.brokers[b].session && s.brokers[b].phase.Recovering? && s.brokers[b].phase.todo != []
    requires var l := s.brokers[b].phase.todo[0]; l in s.bk && !s.bk[l].deleted && s.brokers[b].phase.from.ledgerId <= l
    ensures Inv(StepRecoverNext(SOUND, s, b, upto))
  {
    var t := StepRecoverNext(SOUND, s, b, upto);
    var l := s.brokers[b].phase.todo[0];
    assert BrokerOk(s, b, s.brokers[b]);
    assert l in s.zk.active;
    FenceKeepsOthers(s, t, b, l);
    RecoveredBrokerOk(s, t, b, upto);
    OthersKeep(s, t, b, None);
    PendingsSame(s, t, b);
  }

  /** The entries of the next ledger that recovery delivers. */
  function NextEntries(s: Cluster, from: LogSequenceNumber, l: int): seq<LogSequenceNumber>
    requires l in s.bk
  {
    Span(l, if l == from.ledgerId then from.sequenceNumber + 1 else 0, |s.bk[l].entries|)
  }

  lemma NextEntriesMembers(s: Cluster, from: LogSequenceNumber, l: int)
    requires l in s.bk && from.sequenceNumber >= -1 && from.ledgerId <= l
    ensures forall q :: q in NextEntries(s, from, l) <==> q.ledgerId == l && 0 <= q.sequenceNumber < |s.bk[l].entries| && q.After(from)
    ensures NextEntries(s, from, l) != [] ==>
      NextEntries(s, from, l)[|NextEntries(s, from, l)| - 1] == LogSequenceNumber(l, |s.bk[l].entries| - 1)
  {
    var lo := if l == from.ledgerId then from.sequenceNumber + 1 else 0;
    forall q ensures q in NextEntries(s, from, l) <==> q.ledgerId == l && lo <= q.sequenceNumber < |s.bk[l].entries| {
      SpanMembers(l, lo, |s.bk[l].entries|, q);
    }
  }

  lemma RecoveredBrokerOk(s: Cluster, t: Cluster, b: int, upto: nat)
    requires Inv(s) && b in s.brokers && s.brokers[b].session && s.brokers[b].phase.Recovering? && s.brokers[b].phase.todo != []
    requires var l := s.brokers[b].phase.todo[0]; l in s.bk && l in s.registered && !s.bk[l].deleted && s.brokers[b].phase.from.ledgerId <= l
    requires t == StepRecoverNext(SOUND, s, b, upto)
    requires ListOk(t) && Grows(s, t) && NoNewLeads(s, t) && forall p :: Live(t, p) <==> Live(s, p)
    ensures BrokerOk(t, b, t.brokers[b])
  {
    var r, r' := s.brokers[b], t.brokers[b];
    var from, todo := r.phase.from, r.phase.todo;
    assert BrokerOk(s, b, r);
    NoFlightsQuiet(s, b, r.position);
    NoFlightsSame(s, t, b);
    var got := NextEntries(s, from, todo[0]);
    assert from.sequenceNumber >= -1 by { if from != NOTHING { assert Stored(s, from); } }
    NextEntriesMembers(s, from, todo[0]);
    assert forall m :: m in todo <==> m == todo[0] || m in todo[1..];
    RecoveredApplied(s, t, r, r', from, todo, got);
    if from != NOTHING { StoredGrows(s, t, from); }
    RecoveredRecord(s, t, r, r', from, todo, got);
  }

  lemma RecoveredRecord(s: Cluster, t: Cluster, r: Broker, r': Broker, from: LogSequenceNumber, todo: seq<int>,
                        got: seq<LogSequenceNumber>)
    requires ListOk(s) && StoreOk(s) && OldFrozen(s) && ListOk(t) && todo != [] && todo[0] in s.bk && todo[0] in s.registered
    requires Ascending(todo) && RecordOk(s, r.applied, r.position)
    requires forall m :: m in todo <==> m == todo[0] || m in todo[1..]
    requires r'.applied == Deliver(s, r, got).applied && r'.position == Deliver(s, r, got).position
    requires got != [] ==> got[|got| - 1] == LogSequenceNumber(todo[0], |s.bk[todo[0]].entries| - 1) && |s.bk[todo[0]].entries| > 0
    requires Grows(s, t) && forall p :: Live(t, p) <==> Live(s, p)
    requires AppliedOk(t, r'.applied) && Catching(t, r', from, todo[1..])
    ensures RecordOk(t, r'.applied, r'.position)
  {
    if got == [] {
      RecordGrows(s, t, r.applied, r.position, None, 0);
    } else {
      StoredGrows(s, t, r'.position);
      assert forall m :: m in todo[1..] ==> todo[0] < m;
    }
  }

  lemma RecoveredApplied(s: Cluster, t: Cluster, r: Broker, r': Broker, from: LogSequenceNumber, todo: seq<int>,
                         got: seq<LogSequenceNumber>)
    requires ListOk(s) && ListOk(t) && todo != [] && todo[0] in s.bk && todo[0] in s.registered && Catching(s, r, from, todo) && AppliedOk(s, r.applied)
    requires from.sequenceNumber >= -1 && from.ledgerId <= todo[0]
    requires forall q :: q in got <==> q.ledgerId == todo[0] && 0 <= q.sequenceNumber < |s.bk[todo[0]].entries| && q.After(from)
    requires r'.applied == Deliver(s, r, got).applied
    requires Grows(s, t) && NoNewLeads(s, t) && t.zk == s.zk && t.registered == s.registered && todo[0] in t.bk && t.bk[todo[0]].fenced
    requires forall p :: Live(t, p) <==> Live(s, p)
    requires forall m :: m in todo <==> m == todo[0] || m in todo[1..]
    ensures AppliedOk(t, r'.applied) && Catching(t, r', from, todo[1..])
  {
    forall p | p in r'.applied ensures Stored(t, p) && r'.applied[p] == EditAt(t, p) {
      StoredGrows(s, t, p);
    }
    forall p | Live(t, p) ensures p in r'.applied || (p.ledgerId in todo[1..] && p.After(from)) {
      assert Live(s, p);
      if p !in r.applied && p.ledgerId == todo[0] { assert p in got; }
    }
    forall l | l in t.registered ensures Frozen(t, l) || (l in todo[1..] && from.ledgerId <= l) {
      if Frozen(s, l) { FrozenGrows(s, t, l); }
    }
  }

  // ---- Starting to write ----

  lemma SettledSame(s: Cluster, t: Cluster, b: int, r: Broker, r': Broker)
    requires t.inflight == s.inflight && t.acked == s.acked
    requires ListOk(s) && ListOk(t) && Settled(s, b, r) && r'.applied == r.applied && r'.pending == r.pending
    requires t.registered == s.registered && Grows(s, t) && NoNewLeads(s, t)
    requires forall p :: Live(t, p) <==> Live(s, p)
    ensures Settled(t, b, r')
  {
    forall l | l in t.registered ensures Frozen(t, l) { FrozenGrows(s, t, l); }
    forall p | Live(t, p) ensures p in r'.applied || FlightBy(t, b, p) || p in r'.pending { assert Live(s, p); }
  }

  lemma ReadListKeeps(s: Cluster, b: int)
    requires Inv(s)
    ensures Inv(Step(SOUND, s, ReadList(b)))
  {
    var t := Step(SOUND, s, ReadList(b));
    if t != s {
      var r := s.brokers[b];
      assert BrokerOk(s, b, r) && Catching(s, r, r.phase.from, []);
      NoFlightsQuiet(s, b, r.position);
      NoFlightsSame(s, t, b);
      RecordSame(s, t, r.applied, r.position);
      forall l | l in t.registered ensures Frozen(t, l) { assert Frozen(s, l); }
      forall p | Live(t, p) ensures p in r.applied { assert Live(s, p); }
      LocalStep(s, t, b);
    }
  }

  lemma EnsureRoleKeeps(s: Cluster, b: int)
    requires Inv(s)
    ensures Inv(Step(SOUND, s, EnsureRole(b)))
  {
    var t := Step(SOUND, s, EnsureRole(b));
    if t != s {
      var r := s.brokers[b];
      assert BrokerOk(s, b, r);
      if s.leader == b {
        AppliedSame(s, t, r.applied);
        NoFlightsQuiet(s, b, r.position);
        NoFlightsSame(s, t, b);
        if r.exact { RecordSame(s, t, r.applied, r.position); }
        forall p ensures Live(t, p) <==> Live(s, p) {}
        SettledSame(s, t, b, r, t.brokers[b]);
        LocalStep(s, t, b);
      } else {
        DieKeeps(s, t, b);
      }
    }
  }

  /** A step that touches one unregistered ledger of `b`'s own. */
  ghost predicate OwnLedgerOnly(s: Cluster, t: Cluster, b: int, w: int) {
    && b in s.brokers && b in t.brokers && w !in s.registered
    && t == s.(brokers := s.brokers[b := t.brokers[b]], bk := t.bk, nextId := t.nextId, orphans := t.orphans)
    && t.bk.Keys == s.bk.Keys + {w} && (forall l :: l in s.bk && l != w ==> t.bk[l] == s.bk[l])
    && (w in s.bk ==> s.bk[w].entries <= t.bk[w].entries && (s.bk[w].fenced ==> t.bk[w].fenced))
    && s.nextId <= t.nextId && 0 <= w < t.nextId
    && s.orphans <= t.orphans
    && (forall p :: p in t.orphans && p !in s.orphans ==> p.ledgerId == w && 0 <= p.sequenceNumber < |t.bk[w].entries|)
  }

  lemma OwnLedgerStep(s: Cluster, t: Cluster, b: int, w: int)
    requires Inv(s) && ListOk(t) && OwnLedgerOnly(s, t, b, w)
    requires !t.brokers[b].phase.Leading? && (w in s.bk ==> WriterOf(s, b) == Some(w))
    requires Writer(t.brokers[b]) == None || Writer(t.brokers[b]) == Some(w)
    requires forall c :: c in s.brokers && c != b ==> Writer(s.brokers[c]) != Some(w)
    requires BrokerOk(t, b, t.brokers[b]) && t.brokers[b].pending == s.brokers[b].pending
    ensures Inv(t)
  {
    FreshKept(s, t, b);
    OwnLedgerMoves(s, t, b, w);
    RestKeeps(s, t, b, None);
    OwnLedgerHistory(s, t, b, w);
    PendingsSame(s, t, b);
  }

  lemma OwnLedgerHistory(s: Cluster, t: Cluster, b: int, w: int)
    requires ListOk(s) && StoreOk(s) && FlightsOk(s) && ListedLedgersExist(s) && OwnLedgerOnly(s, t, b, w) && Grows(s, t) && LiveStays(s, t)
    ensures StoreOk(t) && FlightsOk(t) && ListedLedgersExist(t)
  {
    HistoryKept(s, t);
  }

  lemma OwnLedgerMoves(s: Cluster, t: Cluster, b: int, w: int)
    requires ListOk(s) && ListOk(t) && OthersFresh(s, t, b) && OwnLedgerOnly(s, t, b, w) && !t.brokers[b].phase.Leading?
    ensures Transition(s, t, b, None) && forall p :: Live(t, p) <==> Live(s, p)
  {
    forall p ensures Live(t, p) <==> Live(s, p) {}
  }

  lemma CreateKeeps(s: Cluster, b: int)
    requires Inv(s)
    ensures Inv(Step(SOUND, s, Create(b)))
  {
    var t := Step(SOUND, s, Create(b));
    if t != s {
      assert BrokerOk(s, b, s.brokers[b]);
      CreateActor(s, t, b);
      NobodyWritesUnknown(s, s.nextId);
      OwnLedgerStep(s, t, b, s.nextId);
    }
  }

  lemma CreateActor(s: Cluster, t: Cluster, b: int)
    requires ListOk(s) && StoreOk(s) && OldFrozen(s) && b in s.brokers && BrokerOk(s, b, s.brokers[b])
    requires t == Step(SOUND, s, Create(b)) && t != s
    ensures ListOk(t) && OwnLedgerOnly(s, t, b, s.nextId) && BrokerOk(t, b, t.brokers[b])
  {
    forall p ensures Live(t, p) <==> Live(s, p) {}
    OwnKept(s, t, b);
  }

  /** What a broker on its way to a new ledger has applied and has in flight is as before. */
  lemma OwnKept(s: Cluster, t: Cluster, b: int)
    requires ListOk(s) && StoreOk(s) && OldFrozen(s) && ListOk(t) && b in s.brokers && b in t.brokers && BrokerOk(s, b, s.brokers[b])
    requires Grows(s, t) && NoNewLeads(s, t) && t.registered == s.registered && t.inflight == s.inflight && t.acked == s.acked
    requires forall p :: Live(t, p) <==> Live(s, p)
    requires var r, r' := s.brokers[b], t.brokers[b]; r'.applied == r.applied && r'.pending == r.pending && r'.position == r.position
    ensures AppliedOk(t, t.brokers[b].applied) && Covered(t, b, t.brokers[b])
    ensures RecordOk(s, s.brokers[b].applied, s.brokers[b].position) ==> RecordOk(t, t.brokers[b].applied, t.brokers[b].position)
    ensures Settled(s, b, s.brokers[b]) ==> Settled(t, b, t.brokers[b])
  {
    OwnRecordKept(s, t, s.brokers[b]);
    CoveredSame(s, t, b, s.brokers[b], t.brokers[b]);
    if Settled(s, b, s.brokers[b]) { SettledSame(s, t, b, s.brokers[b], t.brokers[b]); }
  }

  lemma OwnRecordKept(s: Cluster, t: Cluster, r: Broker)
    requires ListOk(s) && StoreOk(s) && OldFrozen(s) && Grows(s, t) && AppliedOk(s, r.applied)
    requires forall p :: Live(t, p) <==> Live(s, p)
    ensures AppliedOk(t, r.applied)
    ensures RecordOk(s, r.applied, r.position) ==> RecordOk(t, r.applied, r.position)
  {
    AppliedGrows(s, t, r.applied);
    if RecordOk(s, r.applied, r.position) { RecordGrows(s, t, r.applied, r.position, None, 0); }
  }

  lemma NobodyWritesUnknown(s: Cluster, w: int)
    requires Inv(s) && w !in s.bk
    ensures forall c :: c in s.brokers ==> Writer(s.brokers[c]) != Some(w)
  {
    forall c | c in s.brokers ensures Writer(s.brokers[c]) != Some(w) {
      assert BrokerOk(s, c, s.brokers[c]);
    }
  }

  lemma WriteNoopKeeps(s: Cluster, b: int)
    requires Inv(s)
    ensures Inv(Step(SOUND, s, WriteNoop(b)))
  {
    var t := Step(SOUND, s, WriteNoop(b));
    if t != s {
      assert BrokerOk(s, b, s.brokers[b]);
      WriteNoopActor(s, t, b);
      assert Writer(s.brokers[b]) == Some(s.brokers[b].phase.ledger);
      OwnLedgerStep(s, t, b, s.brokers[b].phase.ledger);
    }
  }

  lemma WriteNoopActor(s: Cluster, t: Cluster, b: int)
    requires ListOk(s) && StoreOk(s) && OldFrozen(s) && b in s.brokers && BrokerOk(s, b, s.brokers[b])
    requires t == Step(SOUND, s, WriteNoop(b)) && t != s
    ensures b in s.brokers && s.brokers[b].phase.Created? && t.brokers[b].phase == Noted(s.brokers[b].phase.ledger)
    ensures ListOk(t) && OwnLedgerOnly(s, t, b, s.brokers[b].phase.ledger) && BrokerOk(t, b, t.brokers[b])
  {
    assert t.bk[s.brokers[b].phase.ledger].entries == [Noop];
    forall p ensures Live(t, p) <==> Live(s, p) {}
    OwnKept(s, t, b);
  }
}
