/** What every run keeps whatever the guarantees: the code as called is covered too. */
module FailoverAlways {
  import opened LogPositions
  import opened Edits
  import opened Failover

  predicate Distinct(ids: seq<int>) {
    forall i, j :: 0 <= i < j < |ids| ==> ids[i] != ids[j]
  }

  /** The ledger exists and holds its NOOP first. */
  predicate Whole(s: Cluster, l: int) {
    l in s.bk && !s.bk[l].deleted && s.bk[l].entries != [] && s.bk[l].entries[0] == Noop
  }

  ghost predicate AllWhole(s: Cluster, ids: seq<int>) {
    Distinct(ids) && forall i :: 0 <= i < |ids| ==> Whole(s, ids[i])
  }

  ghost predicate StoreSane(s: Cluster) {
    0 <= s.nextId && forall l :: l in s.bk ==> 0 <= l < s.nextId && (s.bk[l].entries != [] ==> s.bk[l].entries[0] == Noop)
  }

  /** Past its election, or dropping a ledger. */
  predicate Rules(r: Broker) {
    r.session && ((!r.phase.Following? && !r.phase.Dead?) || r.dropping.Some?)
  }

  /** A broker that has read the list since it was elected, and whose next save ZooKeeper would accept. */
  predicate MaySave(s: Cluster, r: Broker) {
    r.session && Accepts(s.zk, r.info.version)
    && (r.phase.Relisted? || r.phase.Ready? || r.phase.Created? || r.phase.Noted? || r.phase.Leading?)
  }

  ghost predicate LedgerSane(s: Cluster, r: Broker) {
    match r.phase
    case Created(w) => w in s.bk && (r.session ==> !s.bk[w].deleted) && (MaySave(s, r) ==> w !in r.info.active)
    case Noted(w) => w in s.bk && s.bk[w].entries != [] && (r.session ==> !s.bk[w].deleted) && (MaySave(s, r) ==> w !in r.info.active)
    case Leading(w) => w in s.bk && s.bk[w].entries != []
    case _ => true
  }

  ghost predicate BrokerSane(s: Cluster, b: int, r: Broker) {
    && (Rules(r) ==> s.leader == b && b != NO_LEADER)
    && (MaySave(s, r) ==> AllWhole(s, r.info.active))
    && LedgerSane(s, r)
    && (r.dropping.Some? ==> r.phase.Leading? || r.phase.Dead?)
    && (r.dropping.Some? && r.session ==> r.dropping.value !in s.zk.active && (MaySave(s, r) ==> r.dropping.value !in r.info.active))
  }

  ghost predicate Sane(s: Cluster) {
    && StoreSane(s) && s.zk.version >= -1 && AllWhole(s, s.zk.active)
    && forall b :: b in s.brokers ==> BrokerSane(s, b, s.brokers[b])
  }

  // ---- Steps ----

  /** A step by `b`: ledgers lose nothing, and only the owner of the leader node touches the list. */
  ghost predicate Mild(s: Cluster, t: Cluster, b: int) {
    && t.brokers.Keys == s.brokers.Keys + {b} && (forall c :: c in s.brokers && c != b ==> t.brokers[c] == s.brokers[c])
    && (forall l :: l in s.bk ==> l in t.bk && s.bk[l].entries <= t.bk[l].entries)
    && ((t.zk == s.zk && forall l :: l in s.bk && !s.bk[l].deleted ==> !t.bk[l].deleted) || s.leader == b)
    && (s.leader != b && s.leader != NO_LEADER ==> t.leader == s.leader)
  }

  lemma OthersSane(s: Cluster, t: Cluster, b: int)
    requires Sane(s) && Mild(s, t, b)
    requires StoreSane(t) && t.zk.version >= -1 && AllWhole(t, t.zk.active) && BrokerSane(t, b, t.brokers[b])
    ensures Sane(t)
  {
    forall c | c in t.brokers ensures BrokerSane(t, c, t.brokers[c]) {
      if c != b { OtherSane(s, t, b, c); }
    }
  }

  lemma OtherSane(s: Cluster, t: Cluster, b: int, c: int)
    requires StoreSane(s) && Mild(s, t, b) && c in s.brokers && c != b && BrokerSane(s, c, s.brokers[c])
    ensures BrokerSane(t, c, s.brokers[c])
  {
  }

  lemma WholeStays(s: Cluster, t: Cluster, ids: seq<int>)
    requires AllWhole(s, ids)
    requires forall l :: l in s.bk ==> l in t.bk && s.bk[l].entries <= t.bk[l].entries && (l in ids && !s.bk[l].deleted ==> !t.bk[l].deleted)
    ensures AllWhole(t, ids)
  {
  }

  /** A step that leaves ledgers and list alone. */
  lemma LocalSane(s: Cluster, t: Cluster, b: int)
    requires Sane(s) && b in t.brokers && t.bk == s.bk && t.nextId == s.nextId && t.zk == s.zk
    requires t.brokers == s.brokers[b := t.brokers[b]] && (s.leader != b && s.leader != NO_LEADER ==> t.leader == s.leader)
    requires BrokerSane(t, b, t.brokers[b])
    ensures Sane(t)
  {
    OthersSane(s, t, b);
  }

  /** A step that stores one entry in `b`'s own ledger. */
  lemma StoreKeepsSane(s: Cluster, t: Cluster, b: int, w: int, edit: StatusEdit)
    requires Sane(s) && b in s.brokers && b in t.brokers && w in s.bk && (s.bk[w].entries == [] ==> edit == Noop)
    requires t.brokers == s.brokers[b := t.brokers[b]] && t.nextId == s.nextId && t.zk == s.zk && t.leader == s.leader
    requires t.bk.Keys == s.bk.Keys && (forall l :: l in s.bk && l != w ==> t.bk[l] == s.bk[l])
    requires t.bk[w].entries == s.bk[w].entries + [edit] && t.bk[w].deleted == s.bk[w].deleted
    requires BrokerSane(t, b, t.brokers[b])
    ensures Sane(t)
  {
    WholeStays(s, t, s.zk.active);
    OthersSane(s, t, b);
  }

  lemma OwnSane(s: Cluster, b: int)
    requires Sane(s) && b in s.brokers
    ensures BrokerSane(s, b, s.brokers[b])
  {
  }

  lemma CreateSane(cfg: Config, s: Cluster, b: int)
    requires Sane(s)
    ensures Sane(Step(cfg, s, Create(b)))
  {
    var t := Step(cfg, s, Create(b));
    if t != s {
      OwnSane(s, b);
      WholeStays(s, t, s.zk.active);
      if MaySave(s, s.brokers[b]) { WholeStays(s, t, s.brokers[b].info.active); }
      OthersSane(s, t, b);
    }
  }

  lemma WriteSane(cfg: Config, s: Cluster, b: int)
    requires Sane(s)
    ensures Sane(Step(cfg, s, WriteNoop(b)))
  {
    var t := Step(cfg, s, WriteNoop(b));
    if t != s {
      OwnSane(s, b);
      if MaySave(s, s.brokers[b]) { WholeStays(s, t, s.brokers[b].info.active); }
      StoreKeepsSane(s, t, b, s.brokers[b].phase.ledger, Noop);
    }
  }

  /** An append of any kind by a broker that leads. */
  lemma AppendSane(s: Cluster, t: Cluster, b: int, edit: StatusEdit)
    requires Sane(s) && CanAppend(s, b) && b in t.brokers
    requires t.brokers == s.brokers[b := s.brokers[b].(phase := t.brokers[b].phase, pending := t.brokers[b].pending)]
    requires t.brokers[b].phase == s.brokers[b].phase || t.brokers[b].phase == Ready
    requires t.nextId == s.nextId && t.zk == s.zk && t.leader == s.leader && t.bk.Keys == s.bk.Keys
    requires var w := s.brokers[b].phase.ledger;
             && (forall l :: l in s.bk && l != w ==> t.bk[l] == s.bk[l])
             && t.bk[w].entries == s.bk[w].entries + [edit] && t.bk[w].deleted == s.bk[w].deleted
    ensures Sane(t)
  {
    OwnSane(s, b);
    if MaySave(s, s.brokers[b]) { WholeStays(s, t, s.brokers[b].info.active); }
    StoreKeepsSane(s, t, b, s.brokers[b].phase.ledger, edit);
  }

  lemma AddedWhole(s: Cluster, ids: seq<int>, w: int)
    requires AllWhole(s, ids) && Whole(s, w) && w !in ids
    ensures AllWhole(s, ids + [w])
  {
  }

  lemma RestWhole(s: Cluster, ids: seq<int>)
    requires AllWhole(s, ids) && ids != []
    ensures AllWhole(s, ids[1..]) && ids[0] !in ids[1..]
  {
  }

  /** A saved list is whole; `b` may save again only what it has just saved. */
  lemma SaveSane(s: Cluster, t: Cluster, b: int, info: LedgerList)
    requires Sane(s) && b in s.brokers && b in t.brokers && MaySave(s, s.brokers[b]) && info.version == s.brokers[b].info.version
    requires AllWhole(s, info.active) && t.bk == s.bk && t.nextId == s.nextId && t.leader == s.leader
    requires t.zk == Saved(info, s.zk) && t.brokers == s.brokers[b := t.brokers[b]]
    requires t.brokers[b].session && (t.brokers[b].phase.Leading? || t.brokers[b].phase.Dead?)
    requires t.brokers[b].phase.Leading? ==> t.brokers[b].phase.ledger in s.bk && s.bk[t.brokers[b].phase.ledger].entries != []
    requires t.brokers[b].info == info || t.brokers[b].info == t.zk
    requires t.brokers[b].dropping.Some? ==> t.brokers[b].dropping.value !in info.active
    ensures Sane(t)
  {
    OwnSane(s, b);
    OthersSane(s, t, b);
  }

  lemma RegisterSane(cfg: Config, s: Cluster, b: int, reply: Reply)
    requires Sane(s)
    ensures Sane(StepRegister(cfg, s, b, reply))
  {
    var t := StepRegister(cfg, s, b, reply);
    if b in s.brokers && s.brokers[b].session && s.brokers[b].phase.Noted? {
      OwnSane(s, b);
      var r, w := s.brokers[b], s.brokers[b].phase.ledger;
      if Accepts(s.zk, r.info.version) {
        AddedWhole(s, r.info.active, w);
        SaveSane(s, t, b, WithLedger(r.info, w));
      } else {
        LocalSane(s, t, b);
      }
    }
  }

  lemma FailOpenSane(cfg: Config, s: Cluster, b: int)
    requires Sane(s)
    ensures Sane(Step(cfg, s, FailOpen(b)))
  {
    var t := Step(cfg, s, FailOpen(b));
    if b in s.brokers && s.brokers[b].phase.Noted? {
      OwnSane(s, b);
      if MaySave(s, s.brokers[b]) { AddedWhole(s, s.brokers[b].info.active, s.brokers[b].phase.ledger); }
      LocalSane(s, t, b);
    }
  }

  lemma UnregisterSane(s: Cluster, b: int, snapshot: Snapshot, reply: Reply)
    requires Sane(s)
    ensures Sane(StepUnregister(s, b, snapshot, reply))
  {
    var t := StepUnregister(s, b, snapshot, reply);
    if t != s {
      OwnSane(s, b);
      var r := s.brokers[b];
      if Accepts(s.zk, r.info.version) {
        RestWhole(s, r.info.active);
        SaveSane(s, t, b, r.info.(active := r.info.active[1..]));
      } else {
        LocalSane(s, t, b);
      }
    }
  }

  lemma DeleteSane(cfg: Config, s: Cluster, b: int)
    requires Sane(s)
    ensures Sane(Step(cfg, s, Delete(b)))
  {
    var t := Step(cfg, s, Delete(b));
    if b in s.brokers && s.brokers[b].session && s.brokers[b].dropping.Some? && s.brokers[b].dropping.value in s.bk {
      OwnSane(s, b);
      WholeStays(s, t, s.zk.active);
      if MaySave(s, s.brokers[b]) { WholeStays(s, t, s.brokers[b].info.active); }
      OthersSane(s, t, b);
    }
  }

  lemma RecoverNextSane(cfg: Config, s: Cluster, b: int, upto: nat)
    requires Sane(s)
    ensures Sane(StepRecoverNext(cfg, s, b, upto))
  {
    var t := StepRecoverNext(cfg, s, b, upto);
    if t != s {
      RecoverNextFences(cfg, s, b, upto);
      OwnSane(s, b);
      WholeStays(s, t, s.zk.active);
      OthersSane(s, t, b);
    }
  }

  /** Recovery fences at most one ledger and goes on, or the broker dies. */
  lemma RecoverNextFences(cfg: Config, s: Cluster, b: int, upto: nat)
    requires StepRecoverNext(cfg, s, b, upto) != s
    ensures var t := StepRecoverNext(cfg, s, b, upto);
            && b in s.brokers && s.brokers[b].phase.Recovering? && b in t.brokers
            && t == s.(brokers := s.brokers[b := t.brokers[b]], bk := t.bk)
            && t.brokers[b] == s.brokers[b].(phase := t.brokers[b].phase, applied := t.brokers[b].applied, position := t.brokers[b].position)
            && (t.brokers[b].phase.Recovering? || t.brokers[b].phase.Dead?) && t.bk.Keys == s.bk.Keys
            && forall l :: l in s.bk ==> t.bk[l] == s.bk[l].(fenced := t.bk[l].fenced)
  {
  }

  lemma ReopenSane(cfg: Config, s: Cluster, b: int, closes: bool)
    requires Sane(s)
    ensures Sane(Step(cfg, s, Reopen(b, closes)))
  {
    var t := Step(cfg, s, Reopen(b, closes));
    if CanReopen(s, b) {
      OwnSane(s, b);
      WholeStays(s, t, s.zk.active);
      if MaySave(s, s.brokers[b]) { WholeStays(s, t, s.brokers[b].info.active); }
      OthersSane(s, t, b);
    }
  }

  /** Joining, reading, being elected, starting recovery, losing the session and dying change one broker only. */
  lemma QuietSane(cfg: Config, s: Cluster, a: Action)
    requires Sane(s)
    requires a.Join? || a.Replay? || a.Poll? || a.Elect? || a.StartRecovery? || a.ReadList? || a.EnsureRole? || a.Apply? || a.Expire? || a.Fail?
    ensures Sane(Step(cfg, s, a))
  {
    var t := Step(cfg, s, a);
    if t != s {
      if a.Join? {
        LocalSane(s, t, a.b);
      } else {
        OwnSane(s, a.b);
        QuietMoves(cfg, s, a);
        LocalSane(s, t, a.b);
      }
    }
  }

  lemma QuietMoves(cfg: Config, s: Cluster, a: Action)
    requires a.Replay? || a.Poll? || a.Elect? || a.StartRecovery? || a.ReadList? || a.EnsureRole? || a.Apply? || a.Expire? || a.Fail?
    requires Sane(s) && Step(cfg, s, a) != s && a.b in s.brokers && BrokerSane(s, a.b, s.brokers[a.b])
    ensures var t := Step(cfg, s, a);
            && a.b in t.brokers && t.bk == s.bk && t.nextId == s.nextId && t.zk == s.zk && t.brokers == s.brokers[a.b := t.brokers[a.b]]
            && (s.leader != a.b && s.leader != NO_LEADER ==> t.leader == s.leader) && BrokerSane(t, a.b, t.brokers[a.b])
  {
  }

  lemma CheckpointSane(cfg: Config, s: Cluster, b: int)
    requires Sane(s)
    ensures Sane(Step(cfg, s, Checkpoint(b)))
  {
    var t := Step(cfg, s, Checkpoint(b));
    if t != s {
      OwnSane(s, b);
      LocalSane(s, t, b);
    }
  }

  lemma StepSane(cfg: Config, s: Cluster, a: Action)
    requires Sane(s)
    ensures Sane(Step(cfg, s, a))
  {
    var t := Step(cfg, s, a);
    match a
    case RecoverNext(b, upto) => RecoverNextSane(cfg, s, b, upto);
    case Create(b) => CreateSane(cfg, s, b);
    case WriteNoop(b) => WriteSane(cfg, s, b);
    case Register(b, reply) => RegisterSane(cfg, s, b, reply);
    case FailOpen(b) => FailOpenSane(cfg, s, b);
    case Append(b, edit) => if CanAppend(s, b) && s.brokers[b].pending == {} { AppendSane(s, t, b, edit); }
    case AppendUnknown(b, edit) => if CanAppend(s, b) && s.brokers[b].pending == {} { AppendSane(s, t, b, edit); }
    case AppendPart(b, edit) => if CanAppend(s, b) { AppendSane(s, t, b, edit); }
    case AppendAndRoll(b, edit, closes) => if CanAppend(s, b) { AppendSane(s, t, b, edit); }
    case Reopen(b, closes) => ReopenSane(cfg, s, b, closes);
    case Checkpoint(b) => CheckpointSane(cfg, s, b);
    case Unregister(b, snapshot, reply) => UnregisterSane(s, b, snapshot, reply);
    case Delete(b) => DeleteSane(cfg, s, b);
    case _ => QuietSane(cfg, s, a);
  }

  lemma {:induction false} RunSane(cfg: Config, s: Cluster, acts: seq<Action>)
    requires Sane(s)
    ensures Sane(Exec(cfg, s, acts))
    decreases |acts|
  {
    if acts != [] {
      StepSane(cfg, s, acts[0]);
      RunSane(cfg, Step(cfg, s, acts[0]), acts[1..]);
    }
  }

  // ---- Fences ----

  /** `t` may hold more than `s`, but not in a ledger already fenced. */
  ghost predicate FencedFixed(s: Cluster, t: Cluster) {
    forall l :: l in s.bk && s.bk[l].fenced ==> l in t.bk && t.bk[l].fenced && t.bk[l].entries == s.bk[l].entries
  }

  lemma StepFencedFixed(cfg: Config, s: Cluster, a: Action)
    requires StoreSane(s)
    ensures FencedFixed(s, Step(cfg, s, a))
  {
  }

  /** Nothing is stored in a ledger after it was fenced, whatever the brokers do. */
  lemma {:induction false} FencedIsFinal(cfg: Config, s: Cluster, acts: seq<Action>)
    requires Sane(s)
    ensures FencedFixed(s, Exec(cfg, s, acts))
    decreases |acts|
  {
    if acts != [] {
      StepFencedFixed(cfg, s, acts[0]);
      StepSane(cfg, s, acts[0]);
      FencedIsFinal(cfg, Step(cfg, s, acts[0]), acts[1..]);
    }
  }

  predicate HeldAt(s: Cluster, p: LogSequenceNumber, edit: StatusEdit) {
    p.ledgerId in s.bk && 0 <= p.sequenceNumber < |s.bk[p.ledgerId].entries| && s.bk[p.ledgerId].entries[p.sequenceNumber] == edit
  }

  /** What is in flight or acknowledged is stored with that content. */
  ghost predicate AcksHeld(s: Cluster) {
    (forall p :: p in s.acked ==> HeldAt(s, p, s.acked[p])) && forall p :: p in s.inflight ==> HeldAt(s, p, s.inflight[p].edit)
  }

  ghost predicate EntriesStay(s: Cluster, t: Cluster) {
    forall l :: l in s.bk ==> l in t.bk && s.bk[l].entries <= t.bk[l].entries
  }

  lemma StepEntriesStay(cfg: Config, s: Cluster, a: Action)
    requires StoreSane(s)
    ensures EntriesStay(s, Step(cfg, s, a))
  {
  }

  lemma HeldStays(s: Cluster, t: Cluster, p: LogSequenceNumber, edit: StatusEdit)
    requires EntriesStay(s, t) && HeldAt(s, p, edit)
    ensures HeldAt(t, p, edit)
  {
    assert s.bk[p.ledgerId].entries <= t.bk[p.ledgerId].entries;
  }

  lemma StepAcksHeld(cfg: Config, s: Cluster, a: Action)
    requires StoreSane(s) && AcksHeld(s)
    ensures AcksHeld(Step(cfg, s, a))
  {
    var t := Step(cfg, s, a);
    StepEntriesStay(cfg, s, a);
    forall p | p in s.acked ensures HeldAt(t, p, s.acked[p]) { HeldStays(s, t, p, s.acked[p]); }
    forall p | p in s.inflight ensures HeldAt(t, p, s.inflight[p].edit) { HeldStays(s, t, p, s.inflight[p].edit); }
    NewAreHeld(cfg, s, a);
  }

  /** What flies or is acknowledged newly is stored. */
  lemma NewAreHeld(cfg: Config, s: Cluster, a: Action)
    ensures var t := Step(cfg, s, a);
            && (forall p :: p in t.acked ==> (p in s.acked && t.acked[p] == s.acked[p]) || (p in s.inflight && t.acked[p] == s.inflight[p].edit))
            && (forall p :: p in t.inflight ==> (p in s.inflight && t.inflight[p] == s.inflight[p]) || HeldAt(t, p, t.inflight[p].edit))
  {
    if !a.Append? && !a.Register? && !a.Apply? { NothingNew(cfg, s, a); }
  }

  lemma NothingNew(cfg: Config, s: Cluster, a: Action)
    requires !a.Append? && !a.Register? && !a.Apply?
    ensures Step(cfg, s, a).acked == s.acked && Step(cfg, s, a).inflight == s.inflight
  {
  }

  lemma {:induction false} RunAcksHeld(cfg: Config, s: Cluster, acts: seq<Action>)
    requires Sane(s) && AcksHeld(s)
    ensures AcksHeld(Exec(cfg, s, acts))
    decreases |acts|
  {
    if acts != [] {
      StepSane(cfg, s, acts[0]);
      StepAcksHeld(cfg, s, acts[0]);
      RunAcksHeld(cfg, Step(cfg, s, acts[0]), acts[1..]);
    }
  }

  // ---- Main results ----

  /** At every step and crash point of every run each listed ledger exists in BookKeeper and holds its NOOP. */
  lemma ListedLedgersAlwaysExist(cfg: Config, acts: seq<Action>)
    ensures ListedLedgersExist(Exec(cfg, INIT, acts))
  {
    RunSane(cfg, INIT, acts);
    var s := Exec(cfg, INIT, acts);
    forall i | 0 <= i < |s.zk.active| ensures Whole(s, s.zk.active[i]) {}
  }

  /** At most one broker with a live session is past its election. */
  lemma OneLiveLeader(cfg: Config, acts: seq<Action>, b: int, c: int)
    requires var s := Exec(cfg, INIT, acts); b in s.brokers && c in s.brokers && Rules(s.brokers[b]) && Rules(s.brokers[c])
    ensures b == c && Exec(cfg, INIT, acts).leader == b
  {
    RunSane(cfg, INIT, acts);
  }

  /** A position acknowledged in a ledger that was fenced at some moment was stored there, with that content, at that moment. */
  lemma NoAckAfterFence(cfg: Config, before: seq<Action>, after: seq<Action>, p: LogSequenceNumber)
    requires var s := Exec(cfg, INIT, before);
             p.ledgerId in s.bk && s.bk[p.ledgerId].fenced && p in Exec(cfg, s, after).acked
    ensures var s := Exec(cfg, INIT, before);
            HeldAt(s, p, Exec(cfg, s, after).acked[p])
  {
    RunSane(cfg, INIT, before);
    RunAcksHeld(cfg, INIT, before);
    var s := Exec(cfg, INIT, before);
    RunAcksHeld(cfg, s, after);
    FencedIsFinal(cfg, s, after);
  }
}
