/** What every run keeps, given the guarantees; and how it survives a step for everyone but the acting broker. */
module FailoverInvariant {
  import opened LogPositions
  import opened Edits
  import opened Failover

  /** A stored entry that has been or may still be acknowledged. */
  ghost predicate Live(s: Cluster, p: LogSequenceNumber) {
    Stored(s, p) && p !in s.orphans
  }

  /** Nobody can append to `l` any more. */
  ghost predicate Frozen(s: Cluster, l: int)
    requires l in s.bk
  {
    forall b :: b in s.brokers && s.brokers[b].phase == Leading(l) ==> s.bk[l].fenced
  }

  ghost predicate AppliedOk(s: Cluster, applied: map<LogSequenceNumber, StatusEdit>) {
    forall p :: p in applied ==> Stored(s, p) && applied[p] == EditAt(s, p)
  }

  ghost predicate PosOk(s: Cluster, p: LogSequenceNumber) {
    p == NOTHING || Stored(s, p)
  }

  /** Everything up to `p` has been applied. */
  ghost predicate UpTo(s: Cluster, applied: map<LogSequenceNumber, StatusEdit>, p: LogSequenceNumber) {
    forall q :: Live(s, q) && !q.After(p) ==> q in applied
  }

  ghost predicate RecordOk(s: Cluster, applied: map<LogSequenceNumber, StatusEdit>, p: LogSequenceNumber) {
    PosOk(s, p) && AppliedOk(s, applied) && UpTo(s, applied, p)
  }

  ghost predicate ListOk(s: Cluster) {
    && Ascending(s.zk.active)
    && (forall i :: 0 <= i < |s.zk.active| ==> s.zk.active[i] in s.registered)
    && (forall l :: l in s.registered ==> l in s.bk)
    && (forall l :: l in s.registered && l !in s.zk.active ==> forall i :: 0 <= i < |s.zk.active| ==> l < s.zk.active[i])
    && (s.registered != {} ==> s.zk.active != [])
    && s.zk.version >= -1
    && (s.registered == {} ==> s.zk == FRESH_LIST)
    && (s.registered != {} ==> s.zk.version > 0 && s.zk.first in s.registered && forall l :: l in s.registered ==> s.zk.first <= l)
  }

  ghost predicate StoreOk(s: Cluster) {
    && (forall l :: l in s.bk ==> 0 <= l < s.nextId)
    && 0 <= s.nextId
    && (forall p :: p in s.orphans ==> p.ledgerId in s.bk && 0 <= p.sequenceNumber < |s.bk[p.ledgerId].entries|)
    && (forall p :: p in s.acked ==> Live(s, p) && s.acked[p] == EditAt(s, p))
  }

  /** An edit in flight is stored, may be acknowledged and has not been. */
  ghost predicate FlightsOk(s: Cluster) {
    forall p :: p in s.inflight ==> FlightOk(s, p, s.inflight[p])
  }

  ghost predicate FlightOk(s: Cluster, p: LogSequenceNumber, f: Flight) {
    && Live(s, p) && f.edit == EditAt(s, p) && p !in s.acked && f.who in s.brokers
    && f.mark.ledgerId in s.registered && f.mark.sequenceNumber >= -1 && (f.mark == p || f.mark.After(p))
  }

  /** Up to any edit it has in flight, a broker has applied or has in flight everything. */
  ghost predicate Covered(s: Cluster, b: int, r: Broker) {
    forall p, q :: FlightBy(s, b, p) && Live(s, q) && !q.After(p) ==> q in r.applied || FlightBy(s, b, q)
  }

  ghost predicate NoFlights(s: Cluster, b: int) {
    forall p :: !FlightBy(s, b, p)
  }

  /** The edits of a batch that rolls are stored by one broker, and neither in flight nor acknowledged yet. */
  ghost predicate PendingsOk(s: Cluster) {
    && (forall b, p :: b in s.brokers && p in s.brokers[b].pending ==> Live(s, p) && p !in s.inflight && p !in s.acked)
    && (forall b, c, p :: b in s.brokers && c in s.brokers && p in s.brokers[b].pending && p in s.brokers[c].pending ==> b == c)
  }

  ghost predicate SnapshotsOk(s: Cluster) {
    forall c :: c in s.snapshots ==> RecordOk(s, c.applied, c.position)
  }

  function Writer(r: Broker): Option<int> {
    if r.phase.Created? || r.phase.Noted? || r.phase.Leading? then Some(r.phase.ledger) else None
  }

  ghost predicate WritersDiffer(s: Cluster) {
    forall b, c :: b in s.brokers && c in s.brokers && b != c && Writer(s.brokers[b]).Some? ==>
      Writer(s.brokers[b]) != Writer(s.brokers[c])
  }

  ghost predicate Coherent(s: Cluster, info: LedgerList) {
    info == s.zk || 0 <= info.version < s.zk.version
  }

  ghost predicate AllFrozen(s: Cluster)
    requires ListOk(s)
  {
    forall l :: l in s.registered ==> Frozen(s, l)
  }

  /** While recovering: what is not yet applied, or not yet frozen, lies in a ledger still to be opened. */
  ghost predicate Catching(s: Cluster, r: Broker, from: LogSequenceNumber, todo: seq<int>)
    requires ListOk(s)
  {
    && Ascending(todo)
    && (forall i :: 0 <= i < |todo| ==> todo[i] in s.zk.active)
    && (forall p :: Live(s, p) ==> p in r.applied || (p.ledgerId in todo && p.After(from)))
    && (forall l :: l in s.registered ==> Frozen(s, l) || (l in todo && from.ledgerId <= l))
  }

  /** Between recovery and the next ledger: everything is applied but the edits in flight and those of the batch that rolled. */
  ghost predicate Settled(s: Cluster, b: int, r: Broker)
    requires ListOk(s)
  {
    && AllFrozen(s)
    && (forall p :: Live(s, p) ==> p in r.applied || FlightBy(s, b, p) || p in r.pending)
  }

  ghost predicate LeadOk(s: Cluster, b: int, r: Broker, w: int) {
    && w in s.registered
    && (forall p :: Live(s, p) && p.ledgerId <= w ==> p in r.applied || FlightBy(s, b, p) || p in r.pending)
    && (r.session ==> Coherent(s, r.info) && forall l :: l in s.registered ==> l <= w)
  }

  ghost predicate FreshLedger(s: Cluster, r: Broker, w: int, entries: seq<StatusEdit>) {
    && w in s.bk && w !in s.registered && s.bk[w].entries == entries && !s.bk[w].deleted
    && (r.session ==> forall l :: l in s.registered ==> l < w)
  }

  ghost predicate PhaseOk(s: Cluster, b: int, r: Broker)
    requires ListOk(s)
  {
    match r.phase
    case Following => r.exact && r.pending == {} && NoFlights(s, b)
    case Elected => r.exact && r.pending == {} && NoFlights(s, b)
    case Recovering(from, todo) =>
      r.exact && r.pending == {} && NoFlights(s, b) && PosOk(s, from) && (r.session ==> Catching(s, r, from, todo))
    case Relisted => NoFlights(s, b) && (r.session ==> Settled(s, b, r) && Coherent(s, r.info))
    case Ready => r.session ==> Settled(s, b, r) && Coherent(s, r.info)
    case Created(w) => FreshLedger(s, r, w, []) && (r.session ==> Settled(s, b, r) && Coherent(s, r.info))
    case Noted(w) =>
      FreshLedger(s, r, w, [Noop]) && LogSequenceNumber(w, 0) in s.orphans && (r.session ==> Settled(s, b, r) && Coherent(s, r.info))
    case Leading(w) => LeadOk(s, b, r, w)
    case Dead => true
  }

  /** A broker past its election with a live session owns the leader node. */
  ghost predicate OwnsNode(s: Cluster, b: int, r: Broker) {
    r.session && !r.phase.Following? && !r.phase.Dead? ==> s.leader == b && b != NO_LEADER
  }

  ghost predicate BrokerOk(s: Cluster, b: int, r: Broker)
    requires ListOk(s)
  {
    && OwnsNode(s, b, r)
    && AppliedOk(s, r.applied)
    && (r.position == NOTHING || r.position.ledgerId in s.registered) && r.position.sequenceNumber >= -1
    && Covered(s, b, r)
    && (r.exact && !r.phase.Dead? && Quiet(s, b, r.position) ==> RecordOk(s, r.applied, r.position))
    && (r.dropping.Some? ==> r.dropping.value in s.registered && r.dropping.value !in s.zk.active)
    && PhaseOk(s, b, r)
  }

  ghost predicate BrokersOk(s: Cluster)
    requires ListOk(s)
  {
    forall b :: b in s.brokers ==> BrokerOk(s, b, s.brokers[b])
  }

  ghost predicate Inv(s: Cluster) {
    ListOk(s) && StoreOk(s) && FlightsOk(s) && PendingsOk(s) && OldFrozen(s) && ListedLedgersExist(s) && SnapshotsOk(s) && WritersDiffer(s) && BrokersOk(s)
  }

  // ---- How history grows ----

  /** Ledgers only gain entries, fences and registrations. */
  ghost predicate Grows(s: Cluster, t: Cluster) {
    && s.registered <= t.registered
    && (forall l :: l in s.bk ==> l in t.bk && s.bk[l].entries <= t.bk[l].entries && (s.bk[l].fenced ==> t.bk[l].fenced))
  }

  /** Nothing that may be acknowledged is forgotten. */
  ghost predicate LiveStays(s: Cluster, t: Cluster) {
    s.orphans <= t.orphans && forall p :: Live(s, p) ==> Live(t, p)
  }

  /** The edits in flight of everyone but `a` are as before. */
  ghost predicate OthersFly(s: Cluster, t: Cluster, a: int) {
    forall c, p :: c != a ==> (FlightBy(t, c, p) <==> FlightBy(s, c, p))
  }

  /** An edit new in flight is new, or one of `a`'s batch that rolled. */
  ghost predicate NewFlights(s: Cluster, t: Cluster, a: int) {
    forall p :: p in t.inflight && p !in s.inflight ==> !Live(s, p) || (a in s.brokers && p in s.brokers[a].pending)
  }

  /** What is pending with `a` was so before, or is `added`; and it is not in flight. */
  ghost predicate PendingMoves(s: Cluster, t: Cluster, a: int, added: Option<LogSequenceNumber>) {
    forall p :: a in t.brokers && p in t.brokers[a].pending ==>
      Live(t, p) && p !in t.inflight && ((a in s.brokers && p in s.brokers[a].pending) || (Some(p) == added && !Live(s, p)))
  }

  /** Nothing flies or is acknowledged, and `a` adds nothing to what is pending. */
  lemma PendingsSame(s: Cluster, t: Cluster, a: int)
    requires PendingsOk(s) && LiveStays(s, t) && t.inflight == s.inflight && t.acked == s.acked
    requires t.brokers.Keys == s.brokers.Keys + {a} && forall c :: c in s.brokers && c != a ==> t.brokers[c] == s.brokers[c]
    requires t.brokers[a].pending == {} || (a in s.brokers && t.brokers[a].pending == s.brokers[a].pending)
    ensures PendingsOk(t)
  {
  }

  lemma PendingsKept(s: Cluster, t: Cluster, a: int, added: Option<LogSequenceNumber>)
    requires PendingsOk(s) && FlightsOk(s) && StoreOk(s) && LiveStays(s, t) && AcksOwn(s, t, a) && NewFlights(s, t, a) && PendingMoves(s, t, a, added)
    requires t.brokers.Keys == s.brokers.Keys + {a} && forall c :: c in s.brokers && c != a ==> t.brokers[c] == s.brokers[c]
    ensures PendingsOk(t)
  {
    forall b, p | b in t.brokers && p in t.brokers[b].pending ensures Live(t, p) && p !in t.inflight && p !in t.acked {
      if b != a { assert Live(s, p) && p !in s.inflight; }
      assert p in t.acked ==> p in s.acked || FlightBy(s, a, p);
      assert FlightBy(s, a, p) ==> FlightOk(s, p, s.inflight[p]);
    }
  }

  /** Only `a` acknowledges, and only edits it had in flight. */
  ghost predicate AcksOwn(s: Cluster, t: Cluster, a: int) {
    forall p :: p in t.acked && p !in s.acked ==> FlightBy(s, a, p)
  }

  /** The only entry that `t` may newly acknowledge is `added`. */
  ghost predicate NewLiveOnly(s: Cluster, t: Cluster, added: Option<LogSequenceNumber>) {
    forall p :: Live(t, p) ==> Live(s, p) || Some(p) == added
  }

  lemma StoredGrows(s: Cluster, t: Cluster, p: LogSequenceNumber)
    requires Grows(s, t) && Stored(s, p)
    ensures Stored(t, p) && EditAt(t, p) == EditAt(s, p)
  {
    assert s.bk[p.ledgerId].entries <= t.bk[p.ledgerId].entries;
  }

  lemma AppliedGrows(s: Cluster, t: Cluster, applied: map<LogSequenceNumber, StatusEdit>)
    requires Grows(s, t) && AppliedOk(s, applied)
    ensures AppliedOk(t, applied)
  {
    forall p | p in applied ensures Stored(t, p) && applied[p] == EditAt(t, p) { StoredGrows(s, t, p); }
  }

  /** `added` was just stored by a leader at the end of a ledger that is still open. */
  ghost predicate NewEntry(s: Cluster, added: LogSequenceNumber, a: int) {
    && a in s.brokers && s.brokers[a].phase == Leading(added.ledgerId)
    && added.ledgerId in s.registered && added.ledgerId in s.bk && !s.bk[added.ledgerId].fenced
    && added.sequenceNumber == |s.bk[added.ledgerId].entries|
  }

  /** Below a stored position, only frozen ledgers: a registered ledger under another one is frozen. */
  ghost predicate OldFrozen(s: Cluster)
    requires ListOk(s)
  {
    forall l, m :: l in s.registered && m in s.registered && l < m ==> Frozen(s, l)
  }

  lemma AppendableNotFrozen(s: Cluster, added: LogSequenceNumber, a: int)
    requires NewEntry(s, added, a)
    ensures !Frozen(s, added.ledgerId)
  {
  }

  /** A new entry comes after every position already recorded. */
  lemma NewIsAfter(s: Cluster, added: LogSequenceNumber, a: int, p: LogSequenceNumber)
    requires ListOk(s) && OldFrozen(s) && NewEntry(s, added, a) && PosOk(s, p) && StoreOk(s)
    ensures added.After(p)
  {
    AppendableNotFrozen(s, added, a);
  }

  lemma RecordGrows(s: Cluster, t: Cluster, applied: map<LogSequenceNumber, StatusEdit>, p: LogSequenceNumber,
                    added: Option<LogSequenceNumber>, a: int)
    requires ListOk(s) && StoreOk(s) && OldFrozen(s) && RecordOk(s, applied, p)
    requires Grows(s, t) && NewLiveOnly(s, t, added) && (added.Some? ==> NewEntry(s, added.value, a))
    ensures RecordOk(t, applied, p)
  {
    AppliedGrows(s, t, applied);
    if p != NOTHING { StoredGrows(s, t, p); }
    if added.Some? { NewIsAfter(s, added.value, a, p); }
  }

  lemma SnapshotsGrow(s: Cluster, t: Cluster, added: Option<LogSequenceNumber>, a: int)
    requires ListOk(s) && StoreOk(s) && OldFrozen(s) && SnapshotsOk(s) && t.snapshots == s.snapshots
    requires Grows(s, t) && NewLiveOnly(s, t, added) && (added.Some? ==> NewEntry(s, added.value, a))
    ensures SnapshotsOk(t)
  {
    forall c | c in t.snapshots ensures RecordOk(t, c.applied, c.position) {
      RecordGrows(s, t, c.applied, c.position, added, a);
    }
  }

  /** No broker starts leading a ledger that was already listed. */
  ghost predicate NoNewLeads(s: Cluster, t: Cluster) {
    forall b, l :: b in t.brokers && t.brokers[b].phase == Leading(l) && l in s.registered ==>
      b in s.brokers && s.brokers[b].phase == Leading(l)
  }

  lemma FrozenGrows(s: Cluster, t: Cluster, l: int)
    requires Grows(s, t) && NoNewLeads(s, t) && l in s.bk && l in s.registered && l in t.bk && Frozen(s, l)
    ensures Frozen(t, l)
  {
  }

  /** A step by `a` that touches the list, or registers, is by the live owner of the leader node. */
  ghost predicate StepBy(s: Cluster, t: Cluster, a: int) {
    && ((t.zk == s.zk && t.registered == s.registered) || s.leader == a)
    && (s.leader != a && s.leader != NO_LEADER ==> t.leader == s.leader)
    && s.zk.version <= t.zk.version
  }

  /** The invariant of a broker that did not act. */
  lemma OtherBrokerOk(s: Cluster, t: Cluster, a: int, c: int, added: Option<LogSequenceNumber>)
    requires Inv(s) && ListOk(t) && Grows(s, t) && NewLiveOnly(s, t, added) && NoNewLeads(s, t) && StepBy(s, t, a)
    requires LiveStays(s, t) && OthersFly(s, t, a) && AcksOwn(s, t, a) && NewFlights(s, t, a)
    requires added.Some? ==> NewEntry(s, added.value, a)
    requires c in s.brokers && c != a
    requires Writer(s.brokers[c]).Some? && !s.brokers[c].phase.Leading? ==>
      var w := s.brokers[c].phase.ledger; w in t.bk && t.bk[w] == s.bk[w] && w !in t.registered
    requires s.brokers[c].dropping.Some? ==> s.brokers[c].dropping.value !in t.zk.active
    ensures BrokerOk(t, c, s.brokers[c])
  {
    var r := s.brokers[c];
    assert BrokerOk(s, c, r);
    AppliedGrows(s, t, r.applied);
    OtherCovered(s, t, a, c, added);
    if r.exact && !r.phase.Dead? && Quiet(t, c, r.position) {
      OtherQuiet(s, t, a, c, r.position);
      RecordGrows(s, t, r.applied, r.position, added, a);
    }
    OtherPhaseOk(s, t, a, c, added);
  }

  lemma OtherQuiet(s: Cluster, t: Cluster, a: int, c: int, p: LogSequenceNumber)
    requires OthersFly(s, t, a) && c != a && Quiet(t, c, p)
    ensures Quiet(s, c, p)
  {
    forall q | q in s.inflight && s.inflight[q].who == c ensures q.After(p) { assert FlightBy(s, c, q) && FlightBy(t, c, q); }
  }

  lemma OtherCovered(s: Cluster, t: Cluster, a: int, c: int, added: Option<LogSequenceNumber>)
    requires ListOk(s) && StoreOk(s) && FlightsOk(s) && OldFrozen(s) && NewLiveOnly(s, t, added) && OthersFly(s, t, a)
    requires added.Some? ==> NewEntry(s, added.value, a)
    requires c in s.brokers && c != a && Covered(s, c, s.brokers[c])
    ensures Covered(t, c, s.brokers[c])
  {
    forall p, q | FlightBy(t, c, p) && Live(t, q) && !q.After(p) ensures q in s.brokers[c].applied || FlightBy(t, c, q) {
      assert FlightBy(s, c, p) && FlightOk(s, p, s.inflight[p]);
      if !Live(s, q) { NewIsAfter(s, q, a, p); }
    }
  }

  lemma OtherPhaseOk(s: Cluster, t: Cluster, a: int, c: int, added: Option<LogSequenceNumber>)
    requires Inv(s) && ListOk(t) && Grows(s, t) && NewLiveOnly(s, t, added) && NoNewLeads(s, t) && StepBy(s, t, a)
    requires LiveStays(s, t) && OthersFly(s, t, a) && AcksOwn(s, t, a) && NewFlights(s, t, a)
    requires added.Some? ==> NewEntry(s, added.value, a)
    requires c in s.brokers && c != a && OwnsNode(s, c, s.brokers[c]) && BrokerOk(s, c, s.brokers[c])
    requires Writer(s.brokers[c]).Some? && !s.brokers[c].phase.Leading? ==>
      var w := s.brokers[c].phase.ledger; w in t.bk && t.bk[w] == s.bk[w] && w !in t.registered
    ensures PhaseOk(t, c, s.brokers[c])
  {
    var r := s.brokers[c];
    match r.phase
    case Following =>
    case Elected =>
    case Recovering(from, todo) =>
      if from != NOTHING { StoredGrows(s, t, from); }
      if r.session { OtherCatching(s, t, a, c, from, todo, added); }
    case Leading(w) => OtherLeadOk(s, t, a, c, w, added);
    case Dead =>
    case Relisted => if r.session { OtherSettled(s, t, a, c, added); }
    case Ready => if r.session { OtherSettled(s, t, a, c, added); }
    case Created(w) => if r.session { OtherSettled(s, t, a, c, added); }
    case Noted(w) => if r.session { OtherSettled(s, t, a, c, added); }
  }

  lemma OtherCatching(s: Cluster, t: Cluster, a: int, c: int, from: LogSequenceNumber, todo: seq<int>, added: Option<LogSequenceNumber>)
    requires ListOk(s) && StoreOk(s) && ListOk(t) && OldFrozen(s) && Grows(s, t) && NewLiveOnly(s, t, added) && NoNewLeads(s, t)
    requires t.zk == s.zk && t.registered == s.registered
    requires added.Some? ==> NewEntry(s, added.value, a)
    requires c in s.brokers && Catching(s, s.brokers[c], from, todo) && PosOk(s, from)
    ensures Catching(t, s.brokers[c], from, todo)
  {
    forall l | l in t.registered ensures Frozen(t, l) || (l in todo && from.ledgerId <= l) {
      if Frozen(s, l) { FrozenGrows(s, t, l); }
    }
    if added.Some? {
      NewIsAfter(s, added.value, a, from);
      AppendableNotFrozen(s, added.value, a);
    }
  }

  lemma OtherSettled(s: Cluster, t: Cluster, a: int, c: int, added: Option<LogSequenceNumber>)
    requires ListOk(s) && ListOk(t) && Grows(s, t) && NewLiveOnly(s, t, added) && NoNewLeads(s, t)
    requires t.registered == s.registered && OthersFly(s, t, a) && c != a
    requires added.Some? ==> NewEntry(s, added.value, a)
    requires c in s.brokers && Settled(s, c, s.brokers[c])
    ensures Settled(t, c, s.brokers[c])
  {
    forall l | l in t.registered ensures Frozen(t, l) { FrozenGrows(s, t, l); }
    if added.Some? { AppendableNotFrozen(s, added.value, a); }
  }

  lemma OtherLeadOk(s: Cluster, t: Cluster, a: int, c: int, w: int, added: Option<LogSequenceNumber>)
    requires ListOk(s) && StoreOk(s) && OldFrozen(s) && WritersDiffer(s) && ListOk(t) && Grows(s, t)
    requires NewLiveOnly(s, t, added) && StepBy(s, t, a) && OthersFly(s, t, a)
    requires added.Some? ==> NewEntry(s, added.value, a)
    requires c in s.brokers && c != a && s.brokers[c].phase == Leading(w) && LeadOk(s, c, s.brokers[c], w) && OwnsNode(s, c, s.brokers[c])
    ensures LeadOk(t, c, s.brokers[c], w)
  {
    if added.Some? && added.value.ledgerId <= w {
      assert Writer(s.brokers[a]) != Writer(s.brokers[c]);
      AppendableNotFrozen(s, added.value, a);
    }
    forall p | Live(t, p) && p.ledgerId <= w ensures p in s.brokers[c].applied || FlightBy(t, c, p) || p in s.brokers[c].pending {
      assert Live(s, p);
    }
  }
}
