/** The actions of a leader keep the invariant. */
module FailoverWriting {
  import opened LogPositions
  import opened Edits
  import opened Failover
  import opened FailoverInvariant
  import opened FailoverSafety

  // ---- Registering a ledger ----

  lemma LastListed(s: Cluster, info: LedgerList)
    requires Coherent(s, info) && ListOk(s) && Accepts(s.zk, info.version)
    ensures info == s.zk
  {
  }

  lemma RegisteredList(s: Cluster, t: Cluster, w: int)
    requires ListOk(s) && StoreOk(s) && w in s.bk && forall l :: l in s.registered ==> l < w
    requires t.zk == Saved(WithLedger(s.zk, w), s.zk) && t.registered == s.registered + {w} && t.bk == s.bk
    ensures ListOk(t)
  {
    var ids := s.zk.active + [w];
    forall i, j | 0 <= i < j < |ids| ensures ids[i] < ids[j] {
      assert ids[i] == s.zk.active[i];
    }
    assert forall l :: l in ids <==> l in s.zk.active || l == w;
    assert t.zk.first == if s.registered == {} then w else s.zk.first;
  }

  lemma RegisterKeeps(s: Cluster, b: int, reply: Reply)
    requires Inv(s)
    ensures Inv(StepRegister(SOUND, s, b, reply))
  {
    if b in s.brokers && s.brokers[b].session && s.brokers[b].phase.Noted? {
      assert BrokerOk(s, b, s.brokers[b]);
      if Accepts(s.zk, s.brokers[b].info.version) {
        LastListed(s, s.brokers[b].info);
        RegisterSaved(s, StepRegister(SOUND, s, b, reply), b, reply);
      } else {
        DieKeeps(s, StepRegister(SOUND, s, b, reply), b);
      }
    }
  }

  lemma RegisterSaved(s: Cluster, t: Cluster, b: int, reply: Reply)
    requires Inv(s) && b in s.brokers && s.brokers[b].session && s.brokers[b].phase.Noted? && BrokerOk(s, b, s.brokers[b])
    requires Accepts(s.zk, s.brokers[b].info.version) && s.brokers[b].info == s.zk
    requires t == StepRegister(SOUND, s, b, reply)
    ensures Inv(t)
  {
    RegisterMoves(s, t, b, reply);
    RegisterActor(s, t, b, reply);
    RegisterWriters(s, t, b, reply);
    OthersAndSnapshotsKeep(s, t, b);
    NonePending(s, t, b, None);
  }

  lemma RegisterWriters(s: Cluster, t: Cluster, b: int, reply: Reply)
    requires WritersDiffer(s) && b in s.brokers && s.brokers[b].session && s.brokers[b].phase.Noted?
    requires Accepts(s.zk, s.brokers[b].info.version) && t == StepRegister(SOUND, s, b, reply)
    ensures WritersDiffer(t)
  {
    WritersStayApart(s, t, b);
  }

  lemma RegisterMoves(s: Cluster, t: Cluster, b: int, reply: Reply)
    requires Inv(s) && b in s.brokers && s.brokers[b].session && s.brokers[b].phase.Noted? && BrokerOk(s, b, s.brokers[b])
    requires Accepts(s.zk, s.brokers[b].info.version) && s.brokers[b].info == s.zk
    requires t == StepRegister(SOUND, s, b, reply)
    ensures ListOk(t) && Transition(s, t, b, None) && OldFrozen(t) && StoreOk(t) && FlightsOk(t) && ListedLedgersExist(t)
    ensures forall p :: Live(t, p) <==> Live(s, p)
  {
    var w := s.brokers[b].phase.ledger;
    RegisteredList(s, t, w);
    assert WriterOf(s, b) == Some(w);
    FreshKept(s, t, b);
    RegisterFlies(s, t, b, reply);
    RegisterTransition(s, t, b, w);
    RegisterFrozen(s, t, w);
    RegisterHistory(s, t, b, w);
  }

  /** The acting broker is in order, so everybody is, and so are the checkpoints. */
  lemma OthersAndSnapshotsKeep(s: Cluster, t: Cluster, b: int)
    requires Inv(s) && ListOk(t) && OldFrozen(t) && Transition(s, t, b, None) && b in t.brokers && BrokerOk(t, b, t.brokers[b])
    requires t.snapshots == s.snapshots
    ensures BrokersOk(t) && SnapshotsOk(t)
  {
    OthersKeep(s, t, b, None);
    SnapshotsGrow(s, t, None, b);
  }

  /** Once the new ledger is listed the batch that rolled returns: its edits are in flight, under the new ledger's id. */
  ghost predicate RollFlies(s: Cluster, t: Cluster, b: int, w: int)
    requires b in s.brokers
  {
    t.inflight == s.inflight || t.inflight == s.inflight + RollFlights(t, b, s.brokers[b].pending, w)
  }

  lemma RegisterTransition(s: Cluster, t: Cluster, b: int, w: int)
    requires ListOk(s) && ListOk(t) && OthersFresh(s, t, b) && b in s.brokers && b in t.brokers
    requires FreshLedger(s, s.brokers[b], w, [Noop]) && LogSequenceNumber(w, 0) in s.orphans
    requires t == s.(brokers := s.brokers[b := t.brokers[b]], zk := t.zk, registered := s.registered + {w}, inflight := t.inflight)
    requires t.zk == Saved(WithLedger(s.zk, w), s.zk) && s.leader == b && RollFlies(s, t, b, w) && OwnPending(s, b)
    requires t.brokers[b].phase == Leading(w) || t.brokers[b].phase == Dead
    ensures Transition(s, t, b, None)
    ensures forall p :: Live(t, p) <==> Live(s, p)
  {
    forall p ensures Live(t, p) <==> Live(s, p) {
      if p.ledgerId == w { assert |s.bk[w].entries| == 1; assert p.sequenceNumber == 0 ==> p == LogSequenceNumber(w, 0); }
    }
    forall l | l in s.registered && l !in s.zk.active ensures l !in t.zk.active {
      assert t.zk.active == s.zk.active + [w];
    }
    RollFliesOwn(s, t, b, w);
  }

  lemma RegisterFlies(s: Cluster, t: Cluster, b: int, reply: Reply)
    requires ListOk(s) && b in s.brokers && s.brokers[b].session && s.brokers[b].phase.Noted? && Settled(s, b, s.brokers[b])
    requires Accepts(s.zk, s.brokers[b].info.version) && s.brokers[b].info == s.zk && t == StepRegister(SOUND, s, b, reply)
    ensures var w := s.brokers[b].phase.ledger;
            && RollFlies(s, t, b, w) && t.zk == Saved(WithLedger(s.zk, w), s.zk) && b in t.brokers
            && t == s.(brokers := s.brokers[b := t.brokers[b]], zk := t.zk, registered := s.registered + {w}, inflight := t.inflight)
            && (t.brokers[b].phase == Leading(w) || t.brokers[b].phase == Dead)
  {
  }

  ghost predicate OwnPending(s: Cluster, b: int)
    requires b in s.brokers
  {
    forall p :: p in s.brokers[b].pending ==> Live(s, p) && p !in s.inflight && p !in s.acked
  }

  lemma RollFliesOwn(s: Cluster, t: Cluster, b: int, w: int)
    requires b in s.brokers && RollFlies(s, t, b, w) && OwnPending(s, b)
    ensures OthersFly(s, t, b) && NewFlights(s, t, b)
  {
  }

  lemma RegisterFrozen(s: Cluster, t: Cluster, w: int)
    requires ListOk(s) && OldFrozen(s) && ListOk(t) && Grows(s, t) && NoNewLeads(s, t) && t.registered == s.registered + {w}
    requires forall l :: l in s.registered ==> l < w && Frozen(s, l)
    ensures OldFrozen(t)
  {
    forall l, m | l in t.registered && m in t.registered && l < m ensures Frozen(t, l) {
      assert Frozen(s, l);
      FrozenGrows(s, t, l);
    }
  }

  lemma RegisterHistory(s: Cluster, t: Cluster, b: int, w: int)
    requires ListOk(s) && StoreOk(s) && FlightsOk(s) && ListedLedgersExist(s) && b in s.brokers && s.brokers[b].session
    requires FreshLedger(s, s.brokers[b], w, [Noop]) && OwnPending(s, b) && forall l :: l in s.registered ==> l < w
    requires t == s.(brokers := t.brokers, zk := t.zk, registered := s.registered + {w}, inflight := t.inflight)
    requires t.zk == Saved(WithLedger(s.zk, w), s.zk) && s.brokers.Keys <= t.brokers.Keys && RollFlies(s, t, b, w)
    requires forall p :: Live(t, p) <==> Live(s, p)
    ensures StoreOk(t) && FlightsOk(t) && ListedLedgersExist(t)
  {
    forall p | p in t.acked ensures Live(t, p) && t.acked[p] == EditAt(t, p) { assert Live(s, p); }
    forall p | p in t.inflight ensures FlightOk(t, p, t.inflight[p]) {
      if p in s.inflight { assert FlightOk(s, p, s.inflight[p]); } else { assert p in s.brokers[b].pending && Live(s, p); }
    }
    assert t.zk.active == s.zk.active + [w];
    assert t.bk[w].entries == [Noop];
  }

  lemma RegisterActor(s: Cluster, t: Cluster, b: int, reply: Reply)
    requires ListOk(s) && StoreOk(s) && OldFrozen(s) && ListOk(t) && b in s.brokers && s.brokers[b].session && s.brokers[b].phase.Noted?
    requires BrokerOk(s, b, s.brokers[b]) && Accepts(s.zk, s.brokers[b].info.version) && s.brokers[b].info == s.zk
    requires t == StepRegister(SOUND, s, b, reply)
    requires Grows(s, t)
    requires forall p :: Live(t, p) <==> Live(s, p)
    ensures BrokerOk(t, b, t.brokers[b])
  {
    OwnRecordKept(s, t, s.brokers[b]);
    if reply == Done { RegisterDone(s, t, b); } else { CoveredSame(s, t, b, s.brokers[b], t.brokers[b]); }
  }

  lemma RegisterDone(s: Cluster, t: Cluster, b: int)
    requires ListOk(s) && StoreOk(s) && OldFrozen(s) && ListOk(t) && b in s.brokers && s.brokers[b].session && s.brokers[b].phase.Noted?
    requires BrokerOk(s, b, s.brokers[b]) && Accepts(s.zk, s.brokers[b].info.version) && s.brokers[b].info == s.zk
    requires t == StepRegister(SOUND, s, b, Done)
    requires Grows(s, t) && AppliedOk(t, s.brokers[b].applied)
    requires RecordOk(s, s.brokers[b].applied, s.brokers[b].position) ==> RecordOk(t, s.brokers[b].applied, s.brokers[b].position)
    requires forall p :: Live(t, p) <==> Live(s, p)
    ensures BrokerOk(t, b, t.brokers[b])
  {
    RegisterFlights(s, t, b);
    if Quiet(t, b, s.brokers[b].position) { QuietBefore(s, t, b, s.brokers[b].position); }
    RegisteredLeads(s, t, b);
  }

  lemma RegisteredLeads(s: Cluster, t: Cluster, b: int)
    requires ListOk(s) && b in s.brokers && s.brokers[b].session && s.brokers[b].phase.Noted? && FreshLedger(s, s.brokers[b], s.brokers[b].phase.ledger, [Noop])
    requires Accepts(s.zk, s.brokers[b].info.version) && s.brokers[b].info == s.zk
    requires t == StepRegister(SOUND, s, b, Done)
    requires forall p :: Live(t, p) <==> Live(s, p)
    requires forall p :: Live(s, p) ==> p in s.brokers[b].applied || FlightBy(t, b, p)
    ensures LeadOk(t, b, t.brokers[b], s.brokers[b].phase.ledger)
  {
  }

  /** After the save nothing is pending: everything is applied or in flight. */
  lemma RegisterFlights(s: Cluster, t: Cluster, b: int)
    requires ListOk(s) && b in s.brokers && s.brokers[b].session && s.brokers[b].phase.Noted?
    requires Settled(s, b, s.brokers[b]) && Accepts(s.zk, s.brokers[b].info.version)
    requires t == StepRegister(SOUND, s, b, Done) && Grows(s, t)
    requires forall p :: Live(t, p) <==> Live(s, p)
    ensures forall p :: FlightBy(s, b, p) ==> FlightBy(t, b, p)
    ensures forall p :: Live(s, p) ==> p in s.brokers[b].applied || FlightBy(t, b, p)
    ensures Covered(t, b, t.brokers[b])
  {
    var r := s.brokers[b];
    forall p | FlightBy(s, b, p) ensures FlightBy(t, b, p) {}
    forall p | Live(s, p) ensures p in r.applied || FlightBy(t, b, p) {}
  }

  lemma QuietBefore(s: Cluster, t: Cluster, b: int, p: LogSequenceNumber)
    requires Quiet(t, b, p) && forall q :: FlightBy(s, b, q) ==> FlightBy(t, b, q)
    ensures Quiet(s, b, p)
  {
    forall q | q in s.inflight && s.inflight[q].who == b ensures q.After(p) { assert FlightBy(s, b, q) && FlightBy(t, b, q); }
  }

  lemma FailOpenKeeps(s: Cluster, b: int)
    requires Inv(s)
    ensures Inv(Step(SOUND, s, FailOpen(b)))
  {
    var t := Step(SOUND, s, FailOpen(b));
    if b in s.brokers && s.brokers[b].phase.Noted? { DieKeeps(s, t, b); }
  }

  // ---- Appending ----

  /** The newest entry of a ledger its leader appends to. */
  function NextPosition(s: Cluster, w: int): LogSequenceNumber
    requires w in s.bk
  {
    LogSequenceNumber(w, |s.bk[w].entries|)
  }

  /** A leader stores one entry in its own ledger. */
  lemma StoreTransition(s: Cluster, t: Cluster, b: int, w: int, edit: StatusEdit, added: Option<LogSequenceNumber>)
    requires Inv(s) && CanAppend(s, b) && s.brokers[b].phase == Leading(w) && b in t.brokers
    requires t.brokers == s.brokers[b := t.brokers[b]] && t.zk == s.zk && t.leader == s.leader && t.snapshots == s.snapshots
    requires t.registered == s.registered && t.nextId == s.nextId && t.acked == s.acked
    requires OthersFly(s, t, b) && NewFlights(s, t, b)
    requires t.bk.Keys == s.bk.Keys && (forall l :: l in s.bk && l != w ==> t.bk[l] == s.bk[l])
    requires t.bk[w].entries == s.bk[w].entries + [edit] && !t.bk[w].fenced && !t.bk[w].deleted
    requires (added == None && t.orphans == s.orphans + {NextPosition(s, w)}) || (added == Some(NextPosition(s, w)) && t.orphans == s.orphans)
    requires t.brokers[b].phase == Leading(w) || t.brokers[b].phase == Ready
    ensures ListOk(t) && Transition(s, t, b, added) && WritersDiffer(t) && OldFrozen(t) && SnapshotsOk(t) && ListedLedgersExist(t)
    ensures forall p :: Live(t, p) <==> Live(s, p) || Some(p) == added
  {
    assert BrokerOk(s, b, s.brokers[b]);
    FreshKept(s, t, b);
    StoreMoves(s, t, b, w, edit, added);
    WritersStayApart(s, t, b);
    OldFrozenKept(s, t);
    SnapshotsGrow(s, t, added, b);
  }

  lemma StoreMoves(s: Cluster, t: Cluster, b: int, w: int, edit: StatusEdit, added: Option<LogSequenceNumber>)
    requires ListOk(s) && StoreOk(s) && OthersFresh(s, t, b) && w in s.registered && CanAppend(s, b) && s.brokers[b].phase == Leading(w) && b in t.brokers
    requires t.brokers == s.brokers[b := t.brokers[b]] && t.zk == s.zk && t.leader == s.leader && t.snapshots == s.snapshots
    requires t.registered == s.registered && t.nextId == s.nextId && t.acked == s.acked
    requires OthersFly(s, t, b) && NewFlights(s, t, b)
    requires t.bk.Keys == s.bk.Keys && (forall l :: l in s.bk && l != w ==> t.bk[l] == s.bk[l])
    requires t.bk[w].entries == s.bk[w].entries + [edit] && !t.bk[w].fenced && !t.bk[w].deleted
    requires (added == None && t.orphans == s.orphans + {NextPosition(s, w)}) || (added == Some(NextPosition(s, w)) && t.orphans == s.orphans)
    requires t.brokers[b].phase == Leading(w) || t.brokers[b].phase == Ready
    ensures ListOk(t) && Transition(s, t, b, added)
    ensures forall p :: Live(t, p) <==> Live(s, p) || Some(p) == added
  {
    forall p ensures Live(t, p) <==> Live(s, p) || Some(p) == added {}
  }

  lemma StoreHistory(s: Cluster, t: Cluster, added: Option<LogSequenceNumber>, w: int)
    requires ListOk(s) && StoreOk(s) && FlightsOk(s) && Grows(s, t) && w in s.bk && w in t.bk && s.brokers.Keys <= t.brokers.Keys
    requires t.nextId == s.nextId && t.bk.Keys == s.bk.Keys && |t.bk[w].entries| == |s.bk[w].entries| + 1
    requires (forall l :: l in s.bk && l != w ==> t.bk[l] == s.bk[l])
    requires t.orphans <= s.orphans + {NextPosition(s, w)} && t.acked == s.acked
    requires forall p :: Live(t, p) <==> Live(s, p) || Some(p) == added
    requires forall p :: p in t.inflight && p !in s.inflight ==> FlightOk(t, p, t.inflight[p])
    requires forall p :: p in s.inflight && p in t.inflight ==> t.inflight[p] == s.inflight[p]
    ensures StoreOk(t) && FlightsOk(t)
  {
    forall p | p in t.acked ensures Live(t, p) && t.acked[p] == EditAt(t, p) { assert Live(s, p); StoredGrows(s, t, p); }
    forall p | p in t.inflight ensures FlightOk(t, p, t.inflight[p]) {
      if p in s.inflight { assert FlightOk(s, p, s.inflight[p]); StoredGrows(s, t, p); }
    }
  }

  lemma AppendKeeps(s: Cluster, b: int, edit: StatusEdit)
    requires Inv(s)
    ensures Inv(Step(SOUND, s, Append(b, edit)))
  {
    if CanAppend(s, b) && s.brokers[b].pending == {} {
      var t := Step(SOUND, s, Append(b, edit));
      var r, w := s.brokers[b], s.brokers[b].phase.ledger;
      var p := NextPosition(s, w);
      assert BrokerOk(s, b, r);
      AppendFlies(s, t, b, w, edit);
      StoreTransition(s, t, b, w, edit, Some(p));
      AppendHistory(s, t, b, w, edit);
      AppendActor(s, t, b, w, edit);
      OthersKeep(s, t, b, Some(p));
      NonePending(s, t, b, Some(p));
    }
  }

  lemma NonePending(s: Cluster, t: Cluster, b: int, added: Option<LogSequenceNumber>)
    requires PendingsOk(s) && FlightsOk(s) && StoreOk(s) && Transition(s, t, b, added) && b in t.brokers && t.brokers[b].pending == {}
    ensures PendingsOk(t)
  {
    PendingsKept(s, t, b, added);
  }

  lemma AppendHistory(s: Cluster, t: Cluster, b: int, w: int, edit: StatusEdit)
    requires ListOk(s) && StoreOk(s) && FlightsOk(s) && CanAppend(s, b) && s.brokers[b].pending == {} && s.brokers[b].phase == Leading(w) && w in s.registered
    requires t == Step(SOUND, s, Append(b, edit)) && Grows(s, t) && NextPosition(s, w) !in s.inflight
    requires forall p :: Live(t, p) <==> Live(s, p) || p == NextPosition(s, w)
    ensures StoreOk(t) && FlightsOk(t)
  {
    var p := NextPosition(s, w);
    assert p in s.acked ==> Live(s, p);
    assert FlightOk(t, p, t.inflight[p]);
    StoreHistory(s, t, Some(p), w);
  }

  lemma AppendFlies(s: Cluster, t: Cluster, b: int, w: int, edit: StatusEdit)
    requires StoreOk(s) && FlightsOk(s) && w in s.bk && t.inflight == s.inflight[NextPosition(s, w) := Flight(b, NextPosition(s, w), edit)]
    ensures OthersFly(s, t, b) && NewFlights(s, t, b) && NextPosition(s, w) !in s.inflight
  {
    var p := NextPosition(s, w);
    assert p in s.inflight ==> FlightOk(s, p, s.inflight[p]);
  }

  lemma AppendActor(s: Cluster, t: Cluster, b: int, w: int, edit: StatusEdit)
    requires ListOk(s) && StoreOk(s) && OldFrozen(s) && ListOk(t) && CanAppend(s, b) && s.brokers[b].pending == {} && s.brokers[b].phase == Leading(w)
    requires BrokerOk(s, b, s.brokers[b]) && Grows(s, t) && t == Step(SOUND, s, Append(b, edit))
    requires NewEntry(s, NextPosition(s, w), b) && forall p :: Live(t, p) <==> Live(s, p) || p == NextPosition(s, w)
    ensures BrokerOk(t, b, t.brokers[b])
  {
    var r, p := s.brokers[b], NextPosition(s, w);
    AppliedGrows(s, t, r.applied);
    forall q | FlightBy(s, b, q) ensures FlightBy(t, b, q) {}
    if r.exact && Quiet(t, b, r.position) {
      QuietBefore(s, t, b, r.position);
      RecordGrows(s, t, r.applied, r.position, Some(p), b);
    }
    forall q | Live(t, q) && q.ledgerId <= w ensures q in r.applied || FlightBy(t, b, q) {
      if q == p { assert FlightBy(t, b, p); } else { assert Live(s, q); }
    }
    AppendCovered(s, t, b, w);
  }

  lemma AppendCovered(s: Cluster, t: Cluster, b: int, w: int)
    requires CanAppend(s, b) && s.brokers[b].phase == Leading(w) && Covered(s, b, s.brokers[b])
    requires b in t.brokers && t.brokers[b].applied == s.brokers[b].applied
    requires forall p :: Live(t, p) <==> Live(s, p) || p == NextPosition(s, w)
    requires forall q :: FlightBy(t, b, q) <==> FlightBy(s, b, q) || q == NextPosition(s, w)
    requires forall q :: Live(t, q) && q.ledgerId <= w ==> q in s.brokers[b].applied || FlightBy(t, b, q)
    ensures Covered(t, b, t.brokers[b])
  {
    forall p, q | FlightBy(t, b, p) && Live(t, q) && !q.After(p) ensures q in t.brokers[b].applied || FlightBy(t, b, q) {
      if p != NextPosition(s, w) && q != NextPosition(s, w) { assert FlightBy(s, b, p) && Live(s, q); }
    }
  }

  // ---- Applying and acknowledging ----

  lemma ApplyKeeps(s: Cluster, b: int, p: LogSequenceNumber)
    requires Inv(s)
    ensures Inv(StepApply(s, b, p))
  {
    if b in s.brokers && FlightBy(s, b, p) {
      var t := StepApply(s, b, p);
      assert BrokerOk(s, b, s.brokers[b]) && FlightOk(s, p, s.inflight[p]);
      forall q ensures Live(t, q) <==> Live(s, q) {}
      ApplyActor(s, t, b, p);
      ApplyHistory(s, t, b, p);
      FreshKept(s, t, b);
      ApplyMoves(s, t, b, p);
      RestKeeps(s, t, b, None);
      PendingsKept(s, t, b, None);
    }
  }

  lemma ApplyMoves(s: Cluster, t: Cluster, b: int, p: LogSequenceNumber)
    requires ListOk(s) && OthersFresh(s, t, b) && b in s.brokers && FlightBy(s, b, p) && t == StepApply(s, b, p)
    requires forall q :: Live(t, q) <==> Live(s, q)
    ensures ListOk(t) && Transition(s, t, b, None)
  {
  }

  lemma ApplyHistory(s: Cluster, t: Cluster, b: int, p: LogSequenceNumber)
    requires StoreOk(s) && FlightsOk(s) && b in s.brokers && FlightBy(s, b, p) && t == StepApply(s, b, p)
    ensures StoreOk(t) && FlightsOk(t)
  {
    assert FlightOk(s, p, s.inflight[p]);
    forall q | q in t.acked ensures Live(t, q) && t.acked[q] == EditAt(t, q) { assert Live(s, q); }
    forall q | q in t.inflight ensures FlightOk(t, q, t.inflight[q]) { assert FlightOk(s, q, s.inflight[q]); }
  }

  /** An edit that leaves the flight is applied, so nothing is forgotten; and its mark is where it is stored, or inexact. */
  lemma ApplyActor(s: Cluster, t: Cluster, b: int, p: LogSequenceNumber)
    requires ListOk(s) && StoreOk(s) && ListOk(t) && b in s.brokers && FlightBy(s, b, p) && t == StepApply(s, b, p)
    requires BrokerOk(s, b, s.brokers[b]) && FlightOk(s, p, s.inflight[p]) && forall q :: Live(t, q) <==> Live(s, q)
    ensures BrokerOk(t, b, t.brokers[b])
  {
    var r, r' := s.brokers[b], t.brokers[b];
    forall q ensures FlightBy(s, b, q) <==> FlightBy(t, b, q) || q == p {}
    forall q | q in r'.applied ensures Stored(t, q) && r'.applied[q] == EditAt(t, q) { assert Stored(s, q); }
    FrozenSame(s, t);
    ApplyCovered(s, t, b, p);
    if r'.exact && Quiet(t, b, p) { AppliedUpTo(s, t, b, p); }
    ApplyPhase(s, t, b, p);
  }

  lemma ApplyCovered(s: Cluster, t: Cluster, b: int, p: LogSequenceNumber)
    requires b in s.brokers && b in t.brokers && Covered(s, b, s.brokers[b])
    requires t.brokers[b].applied.Keys == s.brokers[b].applied.Keys + {p}
    requires forall q :: FlightBy(s, b, q) <==> FlightBy(t, b, q) || q == p
    requires forall q :: Live(t, q) <==> Live(s, q)
    ensures Covered(t, b, t.brokers[b])
  {
    forall m, q | FlightBy(t, b, m) && Live(t, q) && !q.After(m) ensures q in t.brokers[b].applied || FlightBy(t, b, q) {
      assert FlightBy(s, b, m) && Live(s, q);
    }
  }

  lemma AppliedUpTo(s: Cluster, t: Cluster, b: int, p: LogSequenceNumber)
    requires b in s.brokers && b in t.brokers && Covered(s, b, s.brokers[b]) && FlightBy(s, b, p) && Quiet(t, b, p)
    requires t.brokers[b].applied.Keys == s.brokers[b].applied.Keys + {p}
    requires forall q :: FlightBy(s, b, q) <==> FlightBy(t, b, q) || q == p
    requires forall q :: Live(t, q) <==> Live(s, q)
    ensures UpTo(t, t.brokers[b].applied, p)
  {
    forall q | Live(t, q) && !q.After(p) ensures q in t.brokers[b].applied {
      assert Live(s, q);
      assert FlightBy(t, b, q) ==> q.After(p);
    }
  }

  lemma FrozenSame(s: Cluster, t: Cluster)
    requires t.bk == s.bk && t.brokers.Keys == s.brokers.Keys
    requires forall c :: c in s.brokers ==> t.brokers[c].phase == s.brokers[c].phase
    ensures forall l :: l in s.bk ==> (Frozen(t, l) <==> Frozen(s, l))
  {
  }

  lemma ApplyPhase(s: Cluster, t: Cluster, b: int, p: LogSequenceNumber)
    requires ListOk(s) && ListOk(t) && b in s.brokers && FlightBy(s, b, p) && t == StepApply(s, b, p) && PhaseOk(s, b, s.brokers[b])
    requires forall q :: FlightBy(s, b, q) <==> FlightBy(t, b, q) || q == p
    requires forall q :: Live(t, q) <==> Live(s, q)
    requires forall l :: l in s.bk ==> (Frozen(t, l) <==> Frozen(s, l))
    ensures PhaseOk(t, b, t.brokers[b])
  {
    var r, r' := s.brokers[b], t.brokers[b];
    assert !NoFlights(s, b);
    if Settled(s, b, r) {
      forall q | Live(t, q) ensures q in r'.applied || FlightBy(t, b, q) || q in r'.pending { assert Live(s, q); }
    }
  }

  lemma AppendUnknownKeeps(s: Cluster, b: int, edit: StatusEdit)
    requires Inv(s)
    ensures Inv(Step(SOUND, s, AppendUnknown(b, edit)))
  {
    if CanAppend(s, b) && s.brokers[b].pending == {} {
      var t := Step(SOUND, s, AppendUnknown(b, edit));
      var w := s.brokers[b].phase.ledger;
      assert BrokerOk(s, b, s.brokers[b]);
      StoreTransition(s, t, b, w, edit, None);
      StoreHistory(s, t, None, w);
      UnknownActor(s, t, b, w);
      OthersKeep(s, t, b, None);
      PendingsSame(s, t, b);
    }
  }

  lemma UnknownActor(s: Cluster, t: Cluster, b: int, w: int)
    requires ListOk(s) && StoreOk(s) && OldFrozen(s) && ListOk(t) && b in s.brokers && s.brokers[b].phase == Leading(w) && BrokerOk(s, b, s.brokers[b])
    requires t.brokers == s.brokers && t.leader == s.leader && t.zk == s.zk && t.registered == s.registered && t.inflight == s.inflight && Grows(s, t)
    requires forall p :: Live(t, p) <==> Live(s, p)
    ensures BrokerOk(t, b, t.brokers[b])
  {
    var r := s.brokers[b];
    OwnRecordKept(s, t, r);
    CoveredSame(s, t, b, r, r);
    LeadSameFlights(s, t, b, r, w);
  }

  lemma LeadSameFlights(s: Cluster, t: Cluster, b: int, r: Broker, w: int)
    requires LeadOk(s, b, r, w) && t.inflight == s.inflight && t.zk == s.zk && t.registered == s.registered
    requires forall p :: Live(t, p) <==> Live(s, p)
    ensures LeadOk(t, b, r, w)
  {
    forall p | Live(t, p) && p.ledgerId <= w ensures p in r.applied || FlightBy(t, b, p) || p in r.pending { assert Live(s, p); }
  }

  lemma AppendPartKeeps(s: Cluster, b: int, edit: StatusEdit)
    requires Inv(s)
    ensures Inv(Step(SOUND, s, AppendPart(b, edit)))
  {
    if CanAppend(s, b) {
      var t := Step(SOUND, s, AppendPart(b, edit));
      var w := s.brokers[b].phase.ledger;
      var p := NextPosition(s, w);
      assert BrokerOk(s, b, s.brokers[b]);
      StoreTransition(s, t, b, w, edit, Some(p));
      StoreHistory(s, t, Some(p), w);
      PartActor(s, t, b, w, p);
      OthersKeep(s, t, b, Some(p));
      PendingGrows(s, t, b, p);
    }
  }

  /** A new entry was neither in flight nor acknowledged, so it can be pending. */
  lemma PendingGrows(s: Cluster, t: Cluster, b: int, p: LogSequenceNumber)
    requires PendingsOk(s) && FlightsOk(s) && StoreOk(s) && Transition(s, t, b, Some(p)) && b in s.brokers && !Live(s, p) && Live(t, p)
    requires t.brokers[b].pending == s.brokers[b].pending + {p} && t.inflight == s.inflight && t.acked == s.acked
    ensures PendingsOk(t)
  {
    assert p in s.inflight ==> FlightOk(s, p, s.inflight[p]);
    PendingsKept(s, t, b, Some(p));
  }

  lemma PartActor(s: Cluster, t: Cluster, b: int, w: int, p: LogSequenceNumber)
    requires ListOk(s) && StoreOk(s) && FlightsOk(s) && OldFrozen(s) && ListOk(t)
    requires b in s.brokers && b in t.brokers && BrokerOk(s, b, s.brokers[b]) && s.brokers[b].phase == Leading(w)
    requires t.brokers == s.brokers[b := s.brokers[b].(pending := s.brokers[b].pending + {p})] && t.leader == s.leader && t.zk == s.zk
    requires t.registered == s.registered && t.inflight == s.inflight && Grows(s, t) && NewEntry(s, p, b)
    requires forall q :: Live(t, q) <==> Live(s, q) || q == p
    ensures BrokerOk(t, b, t.brokers[b])
  {
    var r := s.brokers[b];
    AppliedGrows(s, t, r.applied);
    if r.exact && Quiet(s, b, r.position) { RecordGrows(s, t, r.applied, r.position, Some(p), b); }
    RollCovered(s, t, b, p);
    forall q | Live(t, q) && q.ledgerId <= w ensures q in r.applied || FlightBy(t, b, q) || q in t.brokers[b].pending {
      if q != p { assert Live(s, q); }
    }
  }

  lemma AppendAndRollKeeps(s: Cluster, b: int, edit: StatusEdit, closes: bool)
    requires Inv(s)
    ensures Inv(Step(SOUND, s, AppendAndRoll(b, edit, closes)))
  {
    if CanAppend(s, b) {
      var t := Step(SOUND, s, AppendAndRoll(b, edit, closes));
      var w := s.brokers[b].phase.ledger;
      var p := NextPosition(s, w);
      assert BrokerOk(s, b, s.brokers[b]);
      StoreTransition(s, t, b, w, edit, Some(p));
      StoreHistory(s, t, Some(p), w);
      RollActor(s, t, b, w, p);
      OthersKeep(s, t, b, Some(p));
      PendingGrows(s, t, b, p);
    }
  }

  lemma RollActor(s: Cluster, t: Cluster, b: int, w: int, p: LogSequenceNumber)
    requires ListOk(s) && StoreOk(s) && FlightsOk(s) && OldFrozen(s) && WritersDiffer(s) && ListOk(t)
    requires b in s.brokers && b in t.brokers && BrokerOk(s, b, s.brokers[b]) && s.brokers[b].phase == Leading(w)
    requires t.brokers == s.brokers[b := s.brokers[b].(phase := Ready, pending := s.brokers[b].pending + {p})] && t.leader == s.leader && t.zk == s.zk
    requires t.registered == s.registered && t.inflight == s.inflight && t.acked == s.acked && Grows(s, t) && NoNewLeads(s, t)
    requires w in s.bk && p == NextPosition(s, w) && NewEntry(s, p, b)
    requires forall q :: Live(t, q) <==> Live(s, q) || q == p
    ensures BrokerOk(t, b, t.brokers[b])
  {
    var r := s.brokers[b];
    AppliedGrows(s, t, r.applied);
    if r.exact && Quiet(s, b, r.position) { RecordGrows(s, t, r.applied, r.position, Some(p), b); }
    RollCovered(s, t, b, p);
    if r.session { LeaderSettles(s, t, b, w); }
  }

  lemma RollCovered(s: Cluster, t: Cluster, b: int, p: LogSequenceNumber)
    requires ListOk(s) && StoreOk(s) && FlightsOk(s) && OldFrozen(s) && b in s.brokers && b in t.brokers && Covered(s, b, s.brokers[b])
    requires t.brokers[b].applied == s.brokers[b].applied && t.inflight == s.inflight && NewEntry(s, p, b)
    requires forall q :: Live(t, q) <==> Live(s, q) || q == p
    ensures Covered(t, b, t.brokers[b])
  {
    forall m, q | FlightBy(t, b, m) && Live(t, q) && !q.After(m) ensures q in s.brokers[b].applied || FlightBy(t, b, q) {
      assert FlightBy(s, b, m) && FlightOk(s, m, s.inflight[m]);
      if q == p { NewIsAfter(s, p, b, m); } else { assert Live(s, q); }
    }
  }

  /** A leader that lets its ledger go has nothing left to catch up with. */
  lemma LeaderSettles(s: Cluster, t: Cluster, b: int, w: int)
    requires ListOk(s) && OldFrozen(s) && WritersDiffer(s) && ListOk(t)
    requires b in s.brokers && b in t.brokers && s.brokers[b].session && s.brokers[b].phase == Leading(w)
    requires LeadOk(s, b, s.brokers[b], w)
    requires t.brokers == s.brokers[b := t.brokers[b]] && t.brokers[b].phase == Ready && t.brokers[b].applied == s.brokers[b].applied
    requires t.registered == s.registered && t.inflight == s.inflight && t.acked == s.acked && Grows(s, t) && NoNewLeads(s, t)
    requires forall p :: Live(t, p) ==> Live(s, p) || p in t.brokers[b].pending
    requires s.brokers[b].pending <= t.brokers[b].pending
    ensures Settled(t, b, t.brokers[b])
  {
    forall p | Live(t, p) ensures p in t.brokers[b].applied || FlightBy(t, b, p) || p in t.brokers[b].pending {
      if p !in t.brokers[b].pending { assert Live(s, p); }
    }
    forall l | l in t.registered ensures Frozen(t, l) {
      if l == w {
        assert Writer(s.brokers[b]) == Some(w);
        assert forall c :: c in s.brokers && c != b ==> Writer(s.brokers[c]) != Some(w);
      } else {
        assert Frozen(s, l);
        FrozenGrows(s, t, l);
      }
    }
  }

  lemma ReopenKeeps(s: Cluster, b: int, closes: bool)
    requires Inv(s)
    ensures Inv(Step(SOUND, s, Reopen(b, closes)))
  {
    var t := Step(SOUND, s, Reopen(b, closes));
    if CanReopen(s, b) {
      var w := s.brokers[b].phase.ledger;
      assert BrokerOk(s, b, s.brokers[b]);
      forall p ensures Live(t, p) <==> Live(s, p) {}
      CloseTransition(s, t, b, w);
      ReopenActor(s, t, b, w);
      OthersKeep(s, t, b, None);
      PendingsSame(s, t, b);
    }
  }

  lemma ReopenActor(s: Cluster, t: Cluster, b: int, w: int)
    requires ListOk(s) && StoreOk(s) && OldFrozen(s) && WritersDiffer(s) && ListOk(t)
    requires b in s.brokers && s.brokers[b].phase == Leading(w) && BrokerOk(s, b, s.brokers[b])
    requires t == SetPhase(s, b, Ready).(bk := t.bk) && Grows(s, t) && NoNewLeads(s, t)
    requires forall p :: Live(t, p) <==> Live(s, p)
    ensures BrokerOk(t, b, t.brokers[b])
  {
    var r := s.brokers[b];
    OwnRecordKept(s, t, r);
    CoveredSame(s, t, b, r, t.brokers[b]);
    if r.session { LeaderSettles(s, t, b, w); }
  }

  lemma CloseTransition(s: Cluster, t: Cluster, b: int, w: int)
    requires Inv(s) && b in s.brokers && b in t.brokers && s.brokers[b].phase == Leading(w) && t.brokers[b].phase == Ready
    requires w in s.registered && w in s.bk
    requires t == s.(brokers := s.brokers[b := t.brokers[b]], bk := t.bk)
    requires t.bk == s.bk || t.bk == s.bk[w := s.bk[w].(closed := true)]
    requires Grows(s, t) && forall p :: Live(t, p) <==> Live(s, p)
    ensures ListOk(t) && StoreOk(t) && FlightsOk(t) && Transition(s, t, b, None) && WritersDiffer(t) && OldFrozen(t) && SnapshotsOk(t)
    ensures ListedLedgersExist(t)
  {
    FreshKept(s, t, b);
    CloseMoves(s, t, b, w);
    WritersStayApart(s, t, b);
    OldFrozenKept(s, t);
    SnapshotsGrow(s, t, None, b);
    HistoryKept(s, t);
  }

  lemma CloseMoves(s: Cluster, t: Cluster, b: int, w: int)
    requires ListOk(s) && OthersFresh(s, t, b) && b in s.brokers && b in t.brokers && s.brokers[b].phase == Leading(w) && t.brokers[b].phase == Ready
    requires w in s.registered && w in s.bk
    requires t == s.(brokers := s.brokers[b := t.brokers[b]], bk := t.bk)
    requires t.bk == s.bk || t.bk == s.bk[w := s.bk[w].(closed := true)]
    requires Grows(s, t) && forall p :: Live(t, p) <==> Live(s, p)
    ensures ListOk(t) && Transition(s, t, b, None)
  {
  }

  // ---- Checkpoints and retention ----

  lemma CheckpointKeeps(s: Cluster, b: int)
    requires Inv(s)
    ensures Inv(Step(SOUND, s, Checkpoint(b)))
  {
    var t := Step(SOUND, s, Checkpoint(b));
    if t != s {
      assert BrokerOk(s, b, s.brokers[b]);
      FreshKept(s, t, b);
      CheckpointMoves(s, t, b);
      forall c | c in t.snapshots ensures RecordOk(t, c.applied, c.position) {
        RecordSame(s, t, c.applied, c.position);
      }
      CheckpointActor(s, t, b);
      OthersKeep(s, t, b, None);
      OldFrozenKept(s, t);
      StoreUnchanged(s, t);
      FlightsKept(s, t);
      PendingsSame(s, t, b);
    }
  }

  lemma CheckpointMoves(s: Cluster, t: Cluster, b: int)
    requires ListOk(s) && OthersFresh(s, t, b) && b in s.brokers && t == s.(snapshots := t.snapshots)
    ensures ListOk(t) && Transition(s, t, b, None)
  {
  }

  lemma FlightsSame(s: Cluster, t: Cluster, b: int)
    requires t.inflight == s.inflight
    ensures forall p :: FlightBy(t, b, p) <==> FlightBy(s, b, p)
    ensures NoFlights(s, b) <==> NoFlights(t, b)
  {
    forall p ensures FlightBy(t, b, p) <==> FlightBy(s, b, p) {}
    if NoFlights(s, b) { NoFlightsSame(s, t, b); }
    if NoFlights(t, b) { NoFlightsSame(t, s, b); }
  }

  lemma CheckpointActor(s: Cluster, t: Cluster, b: int)
    requires ListOk(s) && ListOk(t) && b in s.brokers && BrokerOk(s, b, s.brokers[b]) && t == s.(snapshots := t.snapshots)
    ensures BrokerOk(t, b, t.brokers[b])
  {
    var r := s.brokers[b];
    AppliedSame(s, t, r.applied);
    if r.exact && !r.phase.Dead? && Quiet(s, b, r.position) { RecordSame(s, t, r.applied, r.position); }
    forall p ensures Live(t, p) <==> Live(s, p) {}
    CoveredSame(s, t, b, r, r);
    FlightsSame(s, t, b);
    forall l | l in s.bk ensures Frozen(t, l) <==> Frozen(s, l) {}
  }

  lemma UnregisterKeeps(s: Cluster, b: int, snapshot: Snapshot, reply: Reply)
    requires Inv(s)
    ensures Inv(StepUnregister(s, b, snapshot, reply))
  {
    var t := StepUnregister(s, b, snapshot, reply);
    if t != s {
      var r := s.brokers[b];
      assert BrokerOk(s, b, r);
      if Accepts(s.zk, r.info.version) {
        LastListed(s, r.info);
        UnregisterStep(s, t, b, snapshot, reply);
        UnregisterSaved(s, t, b);
      } else {
        LeadWithList(s, t, b);
        LocalStep(s, t, b);
      }
    }
  }

  lemma UnregisterStep(s: Cluster, t: Cluster, b: int, snapshot: Snapshot, reply: Reply)
    requires ListOk(s) && t == StepUnregister(s, b, snapshot, reply) && t != s && Accepts(s.zk, s.brokers[b].info.version) && s.brokers[b].info == s.zk
    ensures b in t.brokers && s.brokers[b].session && s.brokers[b].phase.Leading? && s.brokers[b].dropping == None
    ensures s.zk.active != [] && s.zk.active[0] < s.brokers[b].phase.ledger
    ensures t == s.(brokers := s.brokers[b := t.brokers[b]], zk := Saved(s.zk.(active := s.zk.active[1..]), s.zk))
    ensures t.brokers[b] == s.brokers[b].(info := s.zk.(active := s.zk.active[1..]))
         || t.brokers[b] == s.brokers[b].(info := t.zk, dropping := Some(s.zk.active[0]))
  {
    var info := s.zk.(active := s.zk.active[1..]);
    assert s.registered + (set l | l in info.active) == s.registered;
  }

  lemma LeadWithList(s: Cluster, t: Cluster, b: int)
    requires ListOk(s) && b in s.brokers && b in t.brokers && s.brokers[b].phase.Leading? && BrokerOk(s, b, s.brokers[b])
    requires t == s.(brokers := s.brokers[b := t.brokers[b]], zk := t.zk) && ListOk(t) && s.zk.version <= t.zk.version
    requires t.brokers[b] == s.brokers[b].(info := t.brokers[b].info, dropping := t.brokers[b].dropping)
    requires t.brokers[b].session ==> Coherent(t, t.brokers[b].info)
    requires t.brokers[b].dropping.Some? ==> t.brokers[b].dropping.value in t.registered && t.brokers[b].dropping.value !in t.zk.active
    ensures BrokerOk(t, b, t.brokers[b])
  {
    var r := s.brokers[b];
    AppliedSame(s, t, r.applied);
    if r.exact && Quiet(s, b, r.position) { RecordSame(s, t, r.applied, r.position); }
    CoveredSame(s, t, b, r, t.brokers[b]);
    forall p | Live(t, p) && p.ledgerId <= r.phase.ledger ensures p in r.applied || FlightBy(t, b, p) || p in r.pending { assert Live(s, p); }
  }

  lemma UnregisteredList(s: Cluster, t: Cluster, w: int)
    requires ListOk(s) && s.zk.active != [] && w in s.registered && s.zk.active[0] < w
    requires t.zk == Saved(s.zk.(active := s.zk.active[1..]), s.zk) && t.registered == s.registered && t.bk == s.bk
    ensures ListOk(t)
    ensures s.zk.active[0] in s.registered && s.zk.active[0] !in t.zk.active
  {
    assert w in s.zk.active;
    assert forall l :: l in s.zk.active <==> l == s.zk.active[0] || l in s.zk.active[1..];
  }

  lemma UnregisterSaved(s: Cluster, t: Cluster, b: int)
    requires Inv(s) && b in s.brokers && s.brokers[b].session && s.brokers[b].phase.Leading? && BrokerOk(s, b, s.brokers[b])
    requires s.brokers[b].dropping == None && s.brokers[b].info == s.zk && s.zk.active != []
    requires s.zk.active[0] < s.brokers[b].phase.ledger && b in t.brokers
    requires t == s.(brokers := s.brokers[b := t.brokers[b]], zk := Saved(s.zk.(active := s.zk.active[1..]), s.zk))
    requires t.brokers[b] == s.brokers[b].(info := s.zk.(active := s.zk.active[1..]))
          || t.brokers[b] == s.brokers[b].(info := t.zk, dropping := Some(s.zk.active[0]))
    ensures Inv(t)
  {
    UnregisteredList(s, t, s.brokers[b].phase.ledger);
    LeadWithList(s, t, b);
    FreshKept(s, t, b);
    UnregisterMoves(s, t, b);
    RestKeeps(s, t, b, None);
    StoreUnchanged(s, t);
    FlightsKept(s, t);
    PendingsSame(s, t, b);
  }

  lemma UnregisterMoves(s: Cluster, t: Cluster, b: int)
    requires ListOk(s) && ListOk(t) && OthersFresh(s, t, b) && b in s.brokers && b in t.brokers && s.leader == b && s.zk.active != []
    requires t == s.(brokers := s.brokers[b := t.brokers[b]], zk := Saved(s.zk.(active := s.zk.active[1..]), s.zk))
    requires t.brokers[b].phase == s.brokers[b].phase
    ensures Transition(s, t, b, None)
  {
    forall p ensures Live(t, p) <==> Live(s, p) {}
  }

  lemma DeleteKeeps(s: Cluster, b: int)
    requires Inv(s)
    ensures Inv(Step(SOUND, s, Delete(b)))
  {
    var t := Step(SOUND, s, Delete(b));
    if b in s.brokers && s.brokers[b].session && s.brokers[b].dropping.Some? && s.brokers[b].dropping.value in s.bk {
      var r, l := s.brokers[b], s.brokers[b].dropping.value;
      assert BrokerOk(s, b, r);
      FreshKept(s, t, b);
      DeleteTransition(s, t, b, l);
      DeleteActor(s, t, b, l);
      RestKeeps(s, t, b, None);
      HistoryKept(s, t);
      PendingsSame(s, t, b);
    }
  }

  lemma DeleteTransition(s: Cluster, t: Cluster, b: int, l: int)
    requires ListOk(s) && OthersFresh(s, t, b) && b in s.brokers && s.brokers[b].session && l in s.bk && l in s.registered && l !in s.zk.active
    requires t == SetBroker(s, b, s.brokers[b].(dropping := None)).(bk := s.bk[l := s.bk[l].(deleted := true)])
    ensures ListOk(t) && Transition(s, t, b, None) && forall p :: Live(t, p) <==> Live(s, p)
  {
    forall p ensures Live(t, p) <==> Live(s, p) {}
  }

  lemma DeleteActor(s: Cluster, t: Cluster, b: int, l: int)
    requires ListOk(s) && StoreOk(s) && OldFrozen(s) && ListOk(t) && b in s.brokers && l in s.bk && BrokerOk(s, b, s.brokers[b]) && l in s.registered
    requires t == SetBroker(s, b, s.brokers[b].(dropping := None)).(bk := s.bk[l := s.bk[l].(deleted := true)])
    requires Grows(s, t) && NoNewLeads(s, t) && forall p :: Live(t, p) <==> Live(s, p)
    ensures BrokerOk(t, b, t.brokers[b])
  {
    OwnRecordKept(s, t, s.brokers[b]);
    CoveredSame(s, t, b, s.brokers[b], t.brokers[b]);
    FlightsSame(s, t, b);
    DeletePhase(s, t, b, l);
  }

  lemma DeletePhase(s: Cluster, t: Cluster, b: int, l: int)
    requires ListOk(s) && ListOk(t) && b in s.brokers && l in s.bk && PhaseOk(s, b, s.brokers[b]) && l in s.registered
    requires t == SetBroker(s, b, s.brokers[b].(dropping := None)).(bk := s.bk[l := s.bk[l].(deleted := true)])
    requires Grows(s, t) && NoNewLeads(s, t) && (forall p :: Live(t, p) <==> Live(s, p)) && (NoFlights(s, b) <==> NoFlights(t, b))
    ensures PhaseOk(t, b, t.brokers[b])
  {
    var r, r' := s.brokers[b], t.brokers[b];
    match r.phase
    case Following =>
    case Elected =>
    case Recovering(from, todo) =>
      if from != NOTHING { StoredGrows(s, t, from); }
      if r.session {
        forall m | m in t.registered ensures Frozen(t, m) || (m in todo && from.ledgerId <= m) {
          if Frozen(s, m) { FrozenGrows(s, t, m); }
        }
      }
    case Leading(w) =>
      forall p | Live(t, p) && p.ledgerId <= w ensures p in r'.applied || FlightBy(t, b, p) || p in r'.pending { assert Live(s, p); }
    case Dead =>
    case Relisted => if r.session { SettledSame(s, t, b, r, r'); }
    case Ready => if r.session { SettledSame(s, t, b, r, r'); }
    case Created(w) => if r.session { SettledSame(s, t, b, r, r'); }
    case Noted(w) => if r.session { SettledSame(s, t, b, r, r'); }
  }
}
