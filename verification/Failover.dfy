/**
 * The replicated log as a step system: brokers, the ledgers in BookKeeper and the ledger list and leader node in
 * ZooKeeper.  One action is one remote operation (or one crash, session expiry or checkpoint); an action whose guard
 * fails changes nothing, so every sequence of actions is a run.
 */
module Failover {
  import opened LogPositions
  import opened Edits
  import Following

  /**
   * A ledger.  `fenced`: opened with recovery by a reader.  `closed`: closed by its own writer.  Either way no later
   * add succeeds and a reader sees every entry.  Entries of a deleted ledger are kept to talk about history.
   */
  datatype Ledger = Ledger(entries: seq<StatusEdit>, fenced: bool, closed: bool, deleted: bool)

  /** The ledger list: the content of the ZooKeeper node, or a broker's copy, with the version it was read or saved at. */
  datatype LedgerList = LedgerList(active: seq<int>, first: int, version: int)

  datatype Phase =
    | Following                                         // tailing the leader
    | Elected                                           // owns the leader node
    | Recovering(from: LogSequenceNumber, todo: seq<int>) // replaying the remaining ledgers for leadership
    | Relisted                                          // startWriting has read the ledger list
    | Ready                                             // about to create a ledger
    | Created(ledger: int)                              // ledger created, still empty
    | Noted(ledger: int)                                // NOOP written, ledger not yet in the list
    | Leading(ledger: int)                              // appending
    | Dead

  /**
   * A broker.  `exact`: `position` is where the last applied edit is stored.  `pending`: the edits stored so far by a
   * batch that triggers a roll, until the roll ends.  `dropping`: a ledger unregistered but not yet deleted.
   */
  datatype Broker = Broker(
    session: bool,
    phase: Phase,
    applied: map<LogSequenceNumber, StatusEdit>,
    position: LogSequenceNumber,
    exact: bool,
    info: LedgerList,
    pending: set<LogSequenceNumber>,
    dropping: Option<int>)

  /**
   * An edit stored by broker `who`, whose append has returned `mark`, and which some thread of that broker has yet to
   * apply and acknowledge.  Threads apply in any order.
   */
  datatype Flight = Flight(who: int, mark: LogSequenceNumber, edit: StatusEdit)

  /** A checkpoint: the edits applied and the position recorded with them. */
  datatype Snapshot = Snapshot(applied: map<LogSequenceNumber, StatusEdit>, position: LogSequenceNumber)

  /**
   * `registered`, `acked` and `orphans` are history: ledgers ever
   * listed, edits acknowledged, and entries (the NOOP of each ledger, appends that failed) never to be acknowledged.
   */
  datatype Cluster = Cluster(
    bk: map<int, Ledger>,
    nextId: int,
    zk: LedgerList,
    leader: int,
    brokers: map<int, Broker>,
    inflight: map<LogSequenceNumber, Flight>,
    snapshots: set<Snapshot>,
    registered: set<int>,
    acked: map<LogSequenceNumber, StatusEdit>,
    orphans: set<LogSequenceNumber>)

  const NO_LEADER := -1

  /**
   * What the code or its operation guarantees.
   * `fencing`: recovery for leadership opens ledgers with recovery.
   * `terminal`: a broker whose openNewLedger failed appends nothing more.
   * `listedStart`: a reader starts only where nothing it needs was dropped.
   * `wholeLedgers`: a reader sees whole every ledger that has a successor.
   * `gapless`: a follower polls only where a poll leaves no gap.
   * `exactMarks`: no checkpoint between an append that rolled the ledger and the next one.
   * `settledMarks`: no checkpoint while an edit stored at or before its position is still to be applied.
   */
  datatype Config = Config(
    fencing: bool,
    terminal: bool,
    listedStart: bool,
    wholeLedgers: bool,
    gapless: bool,
    exactMarks: bool,
    settledMarks: bool)

  datatype Reply = Done | Lost

  datatype Action =
    | Join(b: int, from: Option<Snapshot>)
    | Replay(b: int, visible: Lengths)
    | Poll(b: int, visible: Lengths, cut: nat)
    | Elect(b: int)
    | StartRecovery(b: int)
    | RecoverNext(b: int, upto: nat)
    | ReadList(b: int)
    | EnsureRole(b: int)
    | Create(b: int)
    | WriteNoop(b: int)
    | Register(b: int, reply: Reply)
    | FailOpen(b: int)
    | Append(b: int, edit: StatusEdit)
    | Apply(b: int, p: LogSequenceNumber)
    | AppendUnknown(b: int, edit: StatusEdit)
    | AppendPart(b: int, edit: StatusEdit)
    | AppendAndRoll(b: int, edit: StatusEdit, closes: bool)
    | Reopen(b: int, closes: bool)
    | Checkpoint(b: int)
    | Unregister(b: int, snapshot: Snapshot, reply: Reply)
    | Delete(b: int)
    | Expire(b: int)
    | Fail(b: int)

  const FRESH_LIST := LedgerList([], -1, -1)

  const INIT := Cluster(map[], 0, FRESH_LIST, NO_LEADER, map[], map[], {}, {}, map[], {})

  function Newcomer(applied: map<LogSequenceNumber, StatusEdit>, position: LogSequenceNumber): Broker {
    Broker(true, Following, applied, position, true, FRESH_LIST, {}, None)
  }

  function SetBroker(s: Cluster, b: int, r: Broker): Cluster {
    s.(brokers := s.brokers[b := r])
  }

  function SetPhase(s: Cluster, b: int, p: Phase): Cluster
    requires b in s.brokers
  {
    SetBroker(s, b, s.brokers[b].(phase := p))
  }

  predicate Addable(l: Ledger) {
    !l.fenced && !l.closed && !l.deleted
  }

  predicate Stored(s: Cluster, p: LogSequenceNumber) {
    p.ledgerId in s.registered && p.ledgerId in s.bk && 0 <= p.sequenceNumber < |s.bk[p.ledgerId].entries|
  }

  function EditAt(s: Cluster, p: LogSequenceNumber): StatusEdit
    requires Stored(s, p)
  {
    s.bk[p.ledgerId].entries[p.sequenceNumber]
  }

  /** Opened without recovery, a ledger shows some initial part of its entries; all of them once fenced or closed. */
  predicate SeenAs(s: Cluster, id: int, visible: nat) {
    id in s.bk && visible <= |s.bk[id].entries| && (s.bk[id].fenced || s.bk[id].closed ==> visible == |s.bk[id].entries|)
  }

  predicate ListSeenAs(s: Cluster, visible: Lengths) {
    forall i :: 0 <= i < |s.zk.active| ==> s.zk.active[i] in visible && SeenAs(s, s.zk.active[i], visible[s.zk.active[i]])
  }

  /** Nothing after `p` was dropped, as a caller can tell from the list. */
  predicate StartsInList(list: LedgerList, p: LogSequenceNumber) {
    p.ledgerId in list.active || (p.ledgerId == -1 && (list.first < 0 || list.first in list.active))
  }

  /** Every ledger with a successor is seen to its end. */
  predicate WholeButLast(s: Cluster, ids: seq<int>, visible: Lengths) {
    forall i :: 0 <= i < |ids| - 1 ==> ids[i] in visible && ids[i] in s.bk && visible[ids[i]] == |s.bk[ids[i]].entries|
  }

  /** Apply what was delivered, in order; the position becomes that of the last entry. */
  function Deliver(s: Cluster, r: Broker, got: seq<LogSequenceNumber>): Broker {
    r.(applied := r.applied + map p | p in got && Stored(s, p) :: EditAt(s, p),
       position := Following.Last(got, r.position))
  }

  /** ZooKeeper accepts a save from version `v`. */
  predicate Accepts(zk: LedgerList, v: int) {
    v == -1 || v == zk.version
  }

  function Saved(info: LedgerList, zk: LedgerList): LedgerList {
    info.(version := if zk.version < 0 then 1 else zk.version + 1)
  }

  function WithLedger(info: LedgerList, id: int): LedgerList {
    info.(active := info.active + [id], first := if info.first < 0 then id else info.first)
  }

  /** An append stored `edit` in ledger `w`. */
  function Store(s: Cluster, w: int, edit: StatusEdit): Cluster
    requires w in s.bk
  {
    s.(bk := s.bk[w := s.bk[w].(entries := s.bk[w].entries + [edit])])
  }

  function Step(cfg: Config, s: Cluster, a: Action): Cluster {
    match a
    case Join(b, from) => StepJoin(s, b, from)
    case Replay(b, visible) => StepReplay(cfg, s, b, visible)
    case Poll(b, visible, cut) => StepPoll(cfg, s, b, visible, cut)
    case Elect(b) =>
      if b in s.brokers && s.brokers[b].session && s.brokers[b].phase == Following && s.leader == NO_LEADER && b != NO_LEADER
      then SetPhase(s, b, Elected).(leader := b) else s
    case StartRecovery(b) => StepStartRecovery(cfg, s, b)
    case RecoverNext(b, upto) => StepRecoverNext(cfg, s, b, upto)
    case ReadList(b) =>
      if b in s.brokers && s.brokers[b].session && s.brokers[b].phase.Recovering? && s.brokers[b].phase.todo == []
      then SetBroker(s, b, s.brokers[b].(phase := Relisted, info := s.zk)) else s
    case EnsureRole(b) =>
      if b in s.brokers && s.brokers[b].session && s.brokers[b].phase == Relisted
      then SetPhase(s, b, if s.leader == b then Ready else Dead) else s
    case Create(b) =>
      if b in s.brokers && s.brokers[b].session && s.brokers[b].phase == Ready
      then SetPhase(s, b, Created(s.nextId)).(bk := s.bk[s.nextId := Ledger([], false, false, false)], nextId := s.nextId + 1)
      else s
    case WriteNoop(b) =>
      if b in s.brokers && s.brokers[b].phase.Created? && s.brokers[b].phase.ledger in s.bk && Addable(s.bk[s.brokers[b].phase.ledger])
      then
        var w := s.brokers[b].phase.ledger;
        SetPhase(Store(s, w, Noop), b, Noted(w)).(orphans := s.orphans + {LogSequenceNumber(w, |s.bk[w].entries|)})
      else s
    case Register(b, reply) => StepRegister(cfg, s, b, reply)
    case FailOpen(b) =>
      if b in s.brokers && s.brokers[b].phase.Noted?
      then
        // the list has got the ledger already, although it was not saved
        var w := s.brokers[b].phase.ledger;
        SetBroker(s, b, s.brokers[b].(phase := AfterFailedOpen(cfg, w), info := WithLedger(s.brokers[b].info, w), pending := {}))
      else s
    case Append(b, edit) =>
      if CanAppend(s, b) && s.brokers[b].pending == {}
      then
        var w := s.brokers[b].phase.ledger;
        var p := LogSequenceNumber(w, |s.bk[w].entries|);
        Store(s, w, edit).(inflight := s.inflight[p := Flight(b, p, edit)])
      else s
    case Apply(b, p) => StepApply(s, b, p)
    case AppendUnknown(b, edit) =>
      if CanAppend(s, b) && s.brokers[b].pending == {}
      then
        var w := s.brokers[b].phase.ledger;
        Store(s, w, edit).(orphans := s.orphans + {LogSequenceNumber(w, |s.bk[w].entries|)})
      else s
    case AppendPart(b, edit) =>
      if CanAppend(s, b)
      then
        var w := s.brokers[b].phase.ledger;
        SetBroker(Store(s, w, edit), b, s.brokers[b].(pending := s.brokers[b].pending + {LogSequenceNumber(w, |s.bk[w].entries|)}))
      else s
    case AppendAndRoll(b, edit, closes) =>
      if CanAppend(s, b)
      then
        var w := s.brokers[b].phase.ledger;
        var p := LogSequenceNumber(w, |s.bk[w].entries|);
        SetBroker(CloseIf(Store(s, w, edit), w, closes), b, s.brokers[b].(phase := Ready, pending := s.brokers[b].pending + {p}))
      else s
    case Reopen(b, closes) =>
      if CanReopen(s, b)
      then SetPhase(CloseIf(s, s.brokers[b].phase.ledger, closes), b, Ready) else s
    case Checkpoint(b) =>
      if b in s.brokers && !s.brokers[b].phase.Dead? && (cfg.exactMarks ==> s.brokers[b].exact)
         && (cfg.settledMarks ==> Quiet(s, b, s.brokers[b].position))
      then s.(snapshots := s.snapshots + {Snapshot(s.brokers[b].applied, s.brokers[b].position)}) else s
    case Unregister(b, snapshot, reply) => StepUnregister(s, b, snapshot, reply)
    case Delete(b) =>
      if b in s.brokers && s.brokers[b].session && s.brokers[b].dropping.Some? && s.brokers[b].dropping.value in s.bk
      then
        var l := s.brokers[b].dropping.value;
        SetBroker(s, b, s.brokers[b].(dropping := None)).(bk := s.bk[l := s.bk[l].(deleted := true)])
      else s
    case Expire(b) =>
      if b in s.brokers
      then SetBroker(s, b, s.brokers[b].(session := false)).(leader := if s.leader == b then NO_LEADER else s.leader) else s
    case Fail(b) =>
      if b in s.brokers then SetPhase(s, b, Dead) else s
  }

  predicate FlightBy(s: Cluster, b: int, p: LogSequenceNumber) {
    p in s.inflight && s.inflight[p].who == b
  }

  /** No edit of `b` stored at or before `p` is still to be applied. */
  predicate Quiet(s: Cluster, b: int, p: LogSequenceNumber) {
    forall q :: q in s.inflight && s.inflight[q].who == b ==> q.After(p)
  }

  /** A thread applies its edit, records the label its append returned, and acknowledges. */
  function StepApply(s: Cluster, b: int, p: LogSequenceNumber): Cluster {
    if b in s.brokers && FlightBy(s, b, p)
    then
      var r, f := s.brokers[b], s.inflight[p];
      SetBroker(s, b, r.(applied := r.applied[p := f.edit], position := f.mark, exact := f.mark == p))
        .(acked := s.acked[p := f.edit], inflight := s.inflight - {p})
    else s
  }

  /** The writer stays set when openNewLedger fails, so only a stated assumption stops further appends. */
  function AfterFailedOpen(cfg: Config, w: int): Phase {
    if cfg.terminal then Dead else Leading(w)
  }

  /** A new process boots from an empty status or from a checkpoint. */
  function StepJoin(s: Cluster, b: int, from: Option<Snapshot>): Cluster {
    if b in s.brokers then s
    else match from
      case None => SetBroker(s, b, Newcomer(map[], NOTHING))
      case Some(c) => if c in s.snapshots then SetBroker(s, b, Newcomer(c.applied, c.position)) else s
  }

  /** Boot replay: every listed ledger read without fencing. */
  function StepReplay(cfg: Config, s: Cluster, b: int, visible: Lengths): Cluster {
    if b in s.brokers && s.brokers[b].session && s.brokers[b].phase == Following && ListSeenAs(s, visible)
       && (cfg.listedStart ==> StartsInList(s.zk, s.brokers[b].position)) && (cfg.wholeLedgers ==> WholeButLast(s, s.zk.active, visible))
    then SetBroker(s, b, Deliver(s, s.brokers[b], EntriesAfter(s.zk.active, visible, s.brokers[b].position)))
    else s
  }

  /** One poll of a follower, cut short after `cut` ledgers. */
  function StepPoll(cfg: Config, s: Cluster, b: int, visible: Lengths, cut: nat): Cluster {
    if b in s.brokers && s.brokers[b].session && s.brokers[b].phase == Following && ListSeenAs(s, visible)
    then
      var r := s.brokers[b];
      var toRead := Following.Opened(Following.View(s.zk.active, visible, cut), r.position);
      if KnownTo(toRead, visible) && MayPoll(cfg, s, r.position, toRead, visible)
      then SetBroker(s, b, Deliver(s, r, Following.Poll(toRead, visible, r.position.sequenceNumber + 1)))
      else s
    else s
  }

  predicate KnownTo(ids: seq<int>, len: Lengths)
    ensures KnownTo(ids, len) <==> Known(ids, len)
  {
    forall i :: 0 <= i < |ids| ==> ids[i] in len
  }

  predicate MayPoll(cfg: Config, s: Cluster, p: LogSequenceNumber, toRead: seq<int>, visible: Lengths)
    requires Known(toRead, visible)
  {
    && (cfg.listedStart ==> StartsInList(s.zk, p))
    && (cfg.wholeLedgers ==> WholeButLast(s, toRead, visible))
    && (cfg.gapless ==> Following.GapFreeWhen(toRead, visible, p))
  }

  /** The recovery that precedes leadership reads the list; only a ledger id above 0 is checked against it. */
  function StepStartRecovery(cfg: Config, s: Cluster, b: int): Cluster {
    if b in s.brokers && s.brokers[b].session && s.brokers[b].phase == Elected
    then
      var p := s.brokers[b].position;
      if p.ledgerId > 0 && p.ledgerId !in s.zk.active then SetPhase(s, b, Dead)
      else if cfg.listedStart && !StartsInList(s.zk, p) then s
      else SetBroker(s, b, s.brokers[b].(phase := Recovering(p, s.zk.active), info := s.zk))
    else s
  }

  function StepRecoverNext(cfg: Config, s: Cluster, b: int, upto: nat): Cluster {
    if b in s.brokers && s.brokers[b].session && s.brokers[b].phase.Recovering? && s.brokers[b].phase.todo != []
    then
      var r := s.brokers[b];
      var l, rest := r.phase.todo[0], Recovering(r.phase.from, r.phase.todo[1..]);
      if l < r.phase.from.ledgerId then SetPhase(s, b, rest)
      else if l !in s.bk || s.bk[l].deleted then SetPhase(s, b, Dead)
      else if cfg.fencing || SeenAs(s, l, upto)
      then
        var end := if cfg.fencing then |s.bk[l].entries| else upto;
        var from := if l == r.phase.from.ledgerId then r.phase.from.sequenceNumber + 1 else 0;
        SetBroker(s, b, Deliver(s, r, Span(l, from, end)).(phase := rest))
          .(bk := s.bk[l := s.bk[l].(fenced := s.bk[l].fenced || cfg.fencing)])
      else s
    else s
  }

  /** Add the new ledger to the list and save it; a lost reply leaves the broker with a failed open. */
  function StepRegister(cfg: Config, s: Cluster, b: int, reply: Reply): Cluster {
    if b in s.brokers && s.brokers[b].session && s.brokers[b].phase.Noted?
    then
      var r := s.brokers[b];
      var w := r.phase.ledger;
      var info := WithLedger(r.info, w);
      var failed := r.(phase := AfterFailedOpen(cfg, w), info := info, pending := {});
      if !Accepts(s.zk, r.info.version) then SetBroker(s, b, failed)
      else
        var saved := SaveList(s, info);
        match reply
        case Lost => SetBroker(saved, b, failed)
        case Done =>
          SetBroker(saved, b, r.(phase := Leading(w), info := Saved(info, s.zk), pending := {}))
            .(inflight := s.inflight + RollFlights(saved, b, r.pending, w))
    else s
  }

  /** The list is saved; `registered` remembers what it names. */
  function SaveList(s: Cluster, info: LedgerList): Cluster {
    s.(zk := Saved(info, s.zk), registered := s.registered + set l | l in info.active)
  }

  /** The edits of the batch that rolled are in flight, all under the new ledger's id. */
  function RollFlights(s: Cluster, b: int, pending: set<LogSequenceNumber>, w: int): map<LogSequenceNumber, Flight> {
    map p | p in pending && Stored(s, p) :: Flight(b, LogSequenceNumber(w, p.sequenceNumber), EditAt(s, p))
  }

  predicate CanAppend(s: Cluster, b: int) {
    b in s.brokers && s.brokers[b].phase.Leading? && s.brokers[b].dropping == None
    && s.brokers[b].phase.ledger in s.bk && Addable(s.bk[s.brokers[b].phase.ledger])
  }

  predicate CanReopen(s: Cluster, b: int) {
    b in s.brokers && s.brokers[b].phase.Leading? && s.brokers[b].dropping == None && s.brokers[b].pending == {}
    && s.brokers[b].phase.ledger in s.bk
  }

  function CloseIf(s: Cluster, w: int, closes: bool): Cluster
    requires w in s.bk
  {
    if closes then s.(bk := s.bk[w := s.bk[w].(closed := true)]) else s
  }

  /** The leader takes the oldest ledger, below the snapshot and below its own, out of the list. */
  function StepUnregister(s: Cluster, b: int, snapshot: Snapshot, reply: Reply): Cluster {
    if b in s.brokers && s.brokers[b].session && s.brokers[b].phase.Leading? && s.brokers[b].dropping == None
       && snapshot in s.snapshots && s.brokers[b].info.active != []
       && s.brokers[b].info.active[0] < snapshot.position.ledgerId && s.brokers[b].info.active[0] < s.brokers[b].phase.ledger
    then
      var r := s.brokers[b];
      var l := r.info.active[0];
      var info := r.info.(active := r.info.active[1..]);
      if !Accepts(s.zk, r.info.version) then SetBroker(s, b, r.(info := info))
      else
        var saved := SaveList(s, info);
        match reply
        case Lost => SetBroker(saved, b, r.(info := info))
        case Done => SetBroker(saved, b, r.(info := Saved(info, s.zk), dropping := Some(l)))
    else s
  }

  function Exec(cfg: Config, s: Cluster, acts: seq<Action>): Cluster
    decreases |acts|
  {
    if acts == [] then s else Exec(cfg, Step(cfg, s, acts[0]), acts[1..])
  }

  /** A leader has applied, with the same content, every edit ever acknowledged in its own or an earlier ledger. */
  ghost predicate LeadersHoldAcked(s: Cluster) {
    forall b :: b in s.brokers && s.brokers[b].phase.Leading? ==>
      forall p :: p in s.acked && p.ledgerId <= s.brokers[b].phase.ledger ==>
        p in s.brokers[b].applied && s.brokers[b].applied[p] == s.acked[p]
  }

  /** Every listed ledger exists in BookKeeper and holds at least its first entry, a NOOP. */
  ghost predicate ListedLedgersExist(s: Cluster) {
    forall i :: 0 <= i < |s.zk.active| ==>
      var l := s.zk.active[i]; l in s.bk && !s.bk[l].deleted && |s.bk[l].entries| > 0 && s.bk[l].entries[0] == Noop
  }
}
