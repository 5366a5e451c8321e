/** Whether a boot can start after checkpoints and drops, and what it then misses. */
module FailoverBoots {
  import opened LogPositions
  import opened Edits
  import opened Failover
  import opened FailoverAlways
  import opened FailoverLimits
  import Following

  /** A boot can start: from nothing, or from some checkpoint. */
  ghost predicate CanBoot(s: Cluster) {
    StartsInList(s.zk, NOTHING) || exists c :: c in s.snapshots && StartsInList(s.zk, c.position)
  }

  // ---- The invariant of runs in which a failed open is terminal ----

  /** A position at the start, or in a ledger that was listed once. */
  predicate Named(s: Cluster, p: LogSequenceNumber) { p.ledgerId == -1 || p.ledgerId in s.registered }

  /** The list ascends, holds what was ever listed but what was dropped, and only old ledgers were dropped. */
  ghost predicate ListOrdered(s: Cluster) {
    && Ascending(s.zk.active) && (forall i :: 0 <= i < |s.zk.active| ==> s.zk.active[i] in s.registered)
    && (forall l :: l in s.registered ==> l in s.bk)
    && (forall l :: l in s.registered && l !in s.zk.active ==> forall i :: 0 <= i < |s.zk.active| ==> l < s.zk.active[i])
    && (s.zk.first in s.registered || (s.registered == {} && s.zk.first < 0))
  }

  /** Either nothing was dropped, or some checkpoint names a ledger still listed. */
  ghost predicate Bootable(s: Cluster) {
    (forall l :: l in s.registered ==> l in s.zk.active) || exists c :: c in s.snapshots && c.position.ledgerId in s.zk.active
  }

  ghost predicate PhaseOrdered(s: Cluster, r: Broker) {
    match r.phase
    case Recovering(_, todo) => forall i :: 0 <= i < |todo| ==> todo[i] in s.registered
    case Created(w) => r.session ==> forall l :: l in s.registered ==> l < w
    case Noted(w) => r.session ==> forall l :: l in s.registered ==> l < w
    case Leading(w) => w in s.registered
    case _ => true
  }

  ghost predicate BrokerOrdered(s: Cluster, r: Broker) {
    Named(s, r.position) && PhaseOrdered(s, r) && (MaySave(s, r) ==> r.info.active == s.zk.active && r.info.first == s.zk.first)
  }

  ghost predicate MarksNamed(s: Cluster) {
    (forall p :: p in s.inflight ==> Named(s, s.inflight[p].mark)) && forall c :: c in s.snapshots ==> Named(s, c.position)
  }

  ghost predicate Ordered(s: Cluster) {
    ListOrdered(s) && MarksNamed(s) && Bootable(s) && forall b :: b in s.brokers ==> BrokerOrdered(s, s.brokers[b])
  }

  lemma OrderedBoots(s: Cluster)
    requires Ordered(s)
    ensures CanBoot(s)
  {
    if c :| c in s.snapshots && c.position.ledgerId in s.zk.active { assert StartsInList(s.zk, c.position); }
  }

  // ---- Steps ----

  lemma OthersOrdered(s: Cluster, t: Cluster, b: int)
    requires Sane(s) && Ordered(s) && t.brokers.Keys == s.brokers.Keys + {b} && (forall c :: c in s.brokers && c != b ==> t.brokers[c] == s.brokers[c])
    requires s.registered <= t.registered && ((t.zk == s.zk && t.registered == s.registered) || s.leader == b)
    requires ListOrdered(t) && MarksNamed(t) && Bootable(t) && BrokerOrdered(t, t.brokers[b])
    ensures Ordered(t)
  {
    forall c | c in t.brokers ensures BrokerOrdered(t, t.brokers[c]) {
      if c != b { assert BrokerSane(s, c, s.brokers[c]) && BrokerOrdered(s, s.brokers[c]); }
    }
  }

  /** A step that leaves the list and the checkpoints alone and lets nothing new fly. */
  lemma SameListOrdered(s: Cluster, t: Cluster, b: int)
    requires Sane(s) && Ordered(s) && b in t.brokers && t.brokers == s.brokers[b := t.brokers[b]]
    requires t.zk == s.zk && t.registered == s.registered && s.bk.Keys <= t.bk.Keys && t.snapshots == s.snapshots
    requires forall p :: p in t.inflight ==> p in s.inflight && t.inflight[p] == s.inflight[p]
    requires BrokerOrdered(t, t.brokers[b])
    ensures Ordered(t)
  {
    OthersOrdered(s, t, b);
  }

  /** Only the phase or the session of the broker changes, to one that promises no more. */
  lemma FallsBack(cfg: Config, s: Cluster, a: Action)
    requires Sane(s) && Ordered(s) && cfg.terminal
    requires a.Elect? || a.StartRecovery? || a.ReadList? || a.EnsureRole? || a.FailOpen? || a.Reopen? || a.Delete? || a.Expire? || a.Fail?
    ensures Ordered(Step(cfg, s, a))
  {
    var t := Step(cfg, s, a);
    if t != s && a.b in s.brokers {
      assert BrokerOrdered(s, s.brokers[a.b]);
      FallsBackMoves(cfg, s, a);
      SameListOrdered(s, t, a.b);
    }
  }

  lemma FallsBackMoves(cfg: Config, s: Cluster, a: Action)
    requires cfg.terminal && a.b in s.brokers && Step(cfg, s, a) != s && BrokerOrdered(s, s.brokers[a.b]) && ListOrdered(s)
    requires a.Elect? || a.StartRecovery? || a.ReadList? || a.EnsureRole? || a.FailOpen? || a.Reopen? || a.Delete? || a.Expire? || a.Fail?
    ensures var t := Step(cfg, s, a);
            && a.b in t.brokers && t.brokers == s.brokers[a.b := t.brokers[a.b]] && t.zk == s.zk && t.registered == s.registered
            && s.bk.Keys <= t.bk.Keys && t.snapshots == s.snapshots && t.inflight == s.inflight && BrokerOrdered(t, t.brokers[a.b])
  {
  }

  lemma JoinOrdered(s: Cluster, b: int, from: Option<Snapshot>)
    requires Sane(s) && Ordered(s)
    ensures Ordered(StepJoin(s, b, from))
  {
    var t := StepJoin(s, b, from);
    if t != s { SameListOrdered(s, t, b); }
  }

  // ---- Reading ----

  lemma {:induction false} EntriesLedgers(ids: seq<int>, len: Lengths, p: LogSequenceNumber)
    requires Known(ids, len)
    ensures forall q :: q in EntriesAfter(ids, len, p) ==> q.ledgerId in ids
    decreases |ids|
  {
    if ids != [] {
      EntriesLedgers(ids[1..], len, p);
      var lo := if ids[0] == p.ledgerId then p.sequenceNumber + 1 else 0;
      forall q | q in Span(ids[0], lo, len[ids[0]]) ensures q.ledgerId == ids[0] { SpanMembers(ids[0], lo, len[ids[0]], q); }
    }
  }

  lemma {:induction false} PollLedgers(ids: seq<int>, len: Lengths, next: int)
    requires Known(ids, len)
    ensures forall q :: q in Following.Poll(ids, len, next) ==> q.ledgerId in ids
    decreases |ids|
  {
    if ids != [] {
      PollLedgers(ids[1..], len, if len[ids[0]] <= next then 0 else next);
      forall q | q in Span(ids[0], next, len[ids[0]]) ensures q.ledgerId == ids[0] { SpanMembers(ids[0], next, len[ids[0]], q); }
    }
  }

  /** A delivery from listed ledgers leaves the broker at a listed ledger, or where it was. */
  lemma DeliveredNamed(s: Cluster, r: Broker, got: seq<LogSequenceNumber>)
    requires Named(s, r.position) && forall q :: q in got ==> q.ledgerId in s.registered
    ensures Named(s, Deliver(s, r, got).position)
  {
    if got != [] { assert got[|got| - 1] in got; }
  }

  lemma ReplayOrdered(cfg: Config, s: Cluster, b: int, visible: Lengths)
    requires Sane(s) && Ordered(s)
    ensures Ordered(StepReplay(cfg, s, b, visible))
  {
    var t := StepReplay(cfg, s, b, visible);
    if t != s {
      assert BrokerOrdered(s, s.brokers[b]);
      EntriesLedgers(s.zk.active, visible, s.brokers[b].position);
      DeliveredNamed(s, s.brokers[b], EntriesAfter(s.zk.active, visible, s.brokers[b].position));
      SameListOrdered(s, t, b);
    }
  }

  lemma PollOrdered(cfg: Config, s: Cluster, b: int, visible: Lengths, cut: nat)
    requires Sane(s) && Ordered(s)
    ensures Ordered(StepPoll(cfg, s, b, visible, cut))
  {
    var t := StepPoll(cfg, s, b, visible, cut);
    if t != s {
      assert BrokerOrdered(s, s.brokers[b]);
      PollPlace(cfg, s, b, visible, cut);
      SameListOrdered(s, t, b);
    }
  }

  lemma PollPlace(cfg: Config, s: Cluster, b: int, visible: Lengths, cut: nat)
    requires StepPoll(cfg, s, b, visible, cut) != s
    ensures var t := StepPoll(cfg, s, b, visible, cut);
            && b in s.brokers && t == SetBroker(s, b, t.brokers[b])
            && t.brokers[b] == s.brokers[b].(applied := t.brokers[b].applied, position := t.brokers[b].position)
            && s.brokers[b].phase == Following
            && (t.brokers[b].position == s.brokers[b].position || t.brokers[b].position.ledgerId in s.zk.active)
  {
    var r := s.brokers[b];
    var toRead := Following.Opened(Following.View(s.zk.active, visible, cut), r.position);
    var got := Following.Poll(toRead, visible, r.position.sequenceNumber + 1);
    PollLedgers(toRead, visible, r.position.sequenceNumber + 1);
    if got != [] {
      assert got[|got| - 1] in got && got[|got| - 1].ledgerId in toRead;
      assert got[|got| - 1].ledgerId in Following.ToRead(s.zk.active, r.position);
    }
  }

  lemma RecoverNextOrdered(cfg: Config, s: Cluster, b: int, upto: nat)
    requires Sane(s) && Ordered(s)
    ensures Ordered(StepRecoverNext(cfg, s, b, upto))
  {
    var t := StepRecoverNext(cfg, s, b, upto);
    if t != s {
      RecoverNextFences(cfg, s, b, upto);
      RecoveredNamed(cfg, s, b, upto);
      SameListOrdered(s, t, b);
    }
  }

  lemma RecoveredNamed(cfg: Config, s: Cluster, b: int, upto: nat)
    requires Ordered(s) && StepRecoverNext(cfg, s, b, upto) != s && b in s.brokers && s.brokers[b].phase.Recovering?
    requires var t := StepRecoverNext(cfg, s, b, upto); b in t.brokers && t.registered == s.registered && t.zk == s.zk
    ensures BrokerOrdered(StepRecoverNext(cfg, s, b, upto), StepRecoverNext(cfg, s, b, upto).brokers[b])
  {
    assert BrokerOrdered(s, s.brokers[b]);
    RecoveredPlace(cfg, s, b, upto);
  }

  lemma RecoveredPlace(cfg: Config, s: Cluster, b: int, upto: nat)
    requires StepRecoverNext(cfg, s, b, upto) != s && b in s.brokers && s.brokers[b].phase.Recovering?
    ensures var r, t := s.brokers[b], StepRecoverNext(cfg, s, b, upto);
            && r.phase.todo != [] && b in t.brokers
            && (t.brokers[b].phase == Dead || t.brokers[b].phase == Recovering(r.phase.from, r.phase.todo[1..]))
            && (t.brokers[b].position == r.position || t.brokers[b].position.ledgerId == r.phase.todo[0])
  {
    var r := s.brokers[b];
    var l := r.phase.todo[0];
    if l in s.bk {
      var from := if l == r.phase.from.ledgerId then r.phase.from.sequenceNumber + 1 else 0;
      var end := if cfg.fencing then |s.bk[l].entries| else upto;
      var got := Span(l, from, end);
      if got != [] { SpanMembers(l, from, end, got[|got| - 1]); }
    }
  }

  // ---- Writing ----

  lemma CreateOrdered(cfg: Config, s: Cluster, b: int)
    requires Sane(s) && Ordered(s)
    ensures Ordered(Step(cfg, s, Create(b)))
  {
    var t := Step(cfg, s, Create(b));
    if t != s {
      assert BrokerOrdered(s, s.brokers[b]);
      SameListOrdered(s, t, b);
    }
  }

  lemma StoreOrdered(cfg: Config, s: Cluster, a: Action)
    requires Sane(s) && Ordered(s) && (a.WriteNoop? || a.AppendUnknown? || a.AppendPart? || a.AppendAndRoll?)
    ensures Ordered(Step(cfg, s, a))
  {
    var t := Step(cfg, s, a);
    if t != s {
      assert BrokerOrdered(s, s.brokers[a.b]);
      SameListOrdered(s, t, a.b);
    }
  }

  lemma AppendOrdered(cfg: Config, s: Cluster, b: int, edit: StatusEdit)
    requires Sane(s) && Ordered(s)
    ensures Ordered(Step(cfg, s, Append(b, edit)))
  {
    var t := Step(cfg, s, Append(b, edit));
    if t != s {
      assert BrokerOrdered(s, s.brokers[b]);
      OthersOrdered(s, t, b);
    }
  }

  lemma ApplyOrdered(s: Cluster, b: int, p: LogSequenceNumber)
    requires Sane(s) && Ordered(s)
    ensures Ordered(StepApply(s, b, p))
  {
    if b in s.brokers && FlightBy(s, b, p) {
      assert BrokerOrdered(s, s.brokers[b]);
      SameListOrdered(s, StepApply(s, b, p), b);
    }
  }

  lemma CheckpointOrdered(cfg: Config, s: Cluster, b: int)
    requires Sane(s) && Ordered(s)
    ensures Ordered(Step(cfg, s, Checkpoint(b)))
  {
    var t := Step(cfg, s, Checkpoint(b));
    if t != s {
      assert BrokerOrdered(s, s.brokers[b]);
      OthersOrdered(s, t, b);
    }
  }

  // ---- Saving the list ----

  lemma RegisteredOrdered(s: Cluster, t: Cluster, w: int)
    requires ListOrdered(s) && Bootable(s) && w in s.bk && forall l :: l in s.registered ==> l < w
    requires t.zk.active == s.zk.active + [w] && t.zk.first == (if s.zk.first < 0 then w else s.zk.first)
    requires t.registered == s.registered + (set l | l in t.zk.active) && t.bk == s.bk && t.snapshots == s.snapshots
    ensures ListOrdered(t) && Bootable(t) && t.registered == s.registered + {w}
  {
    assert forall l :: l in t.zk.active <==> l in s.zk.active || l == w;
    assert t.registered == s.registered + {w};
    if c :| c in s.snapshots && c.position.ledgerId in s.zk.active { assert c in t.snapshots && c.position.ledgerId in t.zk.active; }
  }

  lemma RegisterOrdered(cfg: Config, s: Cluster, b: int, reply: Reply)
    requires Sane(s) && Ordered(s) && cfg.terminal
    ensures Ordered(StepRegister(cfg, s, b, reply))
  {
    var t := StepRegister(cfg, s, b, reply);
    if b in s.brokers && s.brokers[b].session && s.brokers[b].phase.Noted? {
      assert BrokerSane(s, b, s.brokers[b]) && BrokerOrdered(s, s.brokers[b]);
      if Accepts(s.zk, s.brokers[b].info.version) {
        RegisterSaves(cfg, s, b, reply);
        RegisteredOrdered(s, t, s.brokers[b].phase.ledger);
        RegisterMarks(cfg, s, b, reply);
        OthersOrdered(s, t, b);
      } else {
        SameListOrdered(s, t, b);
      }
    }
  }

  lemma RegisterSaves(cfg: Config, s: Cluster, b: int, reply: Reply)
    requires b in s.brokers && s.brokers[b].session && s.brokers[b].phase.Noted? && BrokerOrdered(s, s.brokers[b])
    requires Accepts(s.zk, s.brokers[b].info.version)
    ensures var t, w := StepRegister(cfg, s, b, reply), s.brokers[b].phase.ledger;
            && b in t.brokers && t.brokers == s.brokers[b := t.brokers[b]] && t.bk == s.bk && t.snapshots == s.snapshots
            && t.zk.active == s.zk.active + [w] && t.zk.first == (if s.zk.first < 0 then w else s.zk.first)
            && t.registered == s.registered + (set l | l in t.zk.active)
  {
  }

  lemma RegisterMarks(cfg: Config, s: Cluster, b: int, reply: Reply)
    requires cfg.terminal && MarksNamed(s) && b in s.brokers && s.brokers[b].session && s.brokers[b].phase.Noted? && BrokerOrdered(s, s.brokers[b])
    requires Accepts(s.zk, s.brokers[b].info.version)
    requires StepRegister(cfg, s, b, reply).registered == s.registered + {s.brokers[b].phase.ledger}
    ensures var t := StepRegister(cfg, s, b, reply); MarksNamed(t) && b in t.brokers && BrokerOrdered(t, t.brokers[b])
  {
  }

  lemma UnregisterOrdered(s: Cluster, b: int, snapshot: Snapshot, reply: Reply)
    requires Sane(s) && Ordered(s)
    ensures Ordered(StepUnregister(s, b, snapshot, reply))
  {
    var t := StepUnregister(s, b, snapshot, reply);
    if t != s {
      assert BrokerSane(s, b, s.brokers[b]) && BrokerOrdered(s, s.brokers[b]);
      UnregisterMoves(s, b, snapshot, reply);
      if Accepts(s.zk, s.brokers[b].info.version) {
        DroppedOrdered(s, t, snapshot);
        OthersOrdered(s, t, b);
      } else {
        SameListOrdered(s, t, b);
      }
    }
  }

  lemma UnregisterMoves(s: Cluster, b: int, snapshot: Snapshot, reply: Reply)
    requires MarksNamed(s) && s.zk.version >= -1 && StepUnregister(s, b, snapshot, reply) != s && BrokerOrdered(s, s.brokers[b])
    ensures var t := StepUnregister(s, b, snapshot, reply);
            && b in t.brokers && t.brokers == s.brokers[b := t.brokers[b]] && snapshot in s.snapshots && t.snapshots == s.snapshots
            && t.bk == s.bk && t.inflight == s.inflight && MarksNamed(t) && BrokerOrdered(t, t.brokers[b])
            && (if Accepts(s.zk, s.brokers[b].info.version) then
                  && s.zk.active != [] && s.zk.active[0] < snapshot.position.ledgerId
                  && t.zk.active == s.zk.active[1..] && t.zk.first == s.zk.first && t.registered == s.registered + (set l | l in t.zk.active)
                else t.zk == s.zk && t.registered == s.registered)
  {
  }

  /** What is dropped lies below a checkpoint, which then names a listed ledger. */
  lemma DroppedOrdered(s: Cluster, t: Cluster, snapshot: Snapshot)
    requires ListOrdered(s) && (forall l :: l in s.bk ==> l >= 0) && s.zk.active != [] && snapshot in s.snapshots && Named(s, snapshot.position)
    requires s.zk.active[0] < snapshot.position.ledgerId
    requires t.zk.active == s.zk.active[1..] && t.zk.first == s.zk.first && t.registered == s.registered + (set l | l in t.zk.active)
    requires t.bk == s.bk && t.snapshots == s.snapshots
    ensures t.registered == s.registered && ListOrdered(t) && Bootable(t)
  {
    assert t.registered == s.registered;
    assert forall l :: l in s.zk.active <==> l == s.zk.active[0] || l in t.zk.active;
    assert snapshot.position.ledgerId in t.zk.active;
  }

  lemma StepOrdered(cfg: Config, s: Cluster, a: Action)
    requires Sane(s) && Ordered(s) && cfg.terminal
    ensures Ordered(Step(cfg, s, a))
  {
    match a
    case Join(b, from) => JoinOrdered(s, b, from);
    case Replay(b, visible) => ReplayOrdered(cfg, s, b, visible);
    case Poll(b, visible, cut) => PollOrdered(cfg, s, b, visible, cut);
    case RecoverNext(b, upto) => RecoverNextOrdered(cfg, s, b, upto);
    case Create(b) => CreateOrdered(cfg, s, b);
    case Register(b, reply) => RegisterOrdered(cfg, s, b, reply);
    case Append(b, edit) => AppendOrdered(cfg, s, b, edit);
    case WriteNoop(_) => StoreOrdered(cfg, s, a);
    case AppendUnknown(_, _) => StoreOrdered(cfg, s, a);
    case AppendPart(_, _) => StoreOrdered(cfg, s, a);
    case AppendAndRoll(_, _, _) => StoreOrdered(cfg, s, a);
    case Apply(b, p) => ApplyOrdered(s, b, p);
    case Checkpoint(b) => CheckpointOrdered(cfg, s, b);
    case Unregister(b, snapshot, reply) => UnregisterOrdered(s, b, snapshot, reply);
    case _ => FallsBack(cfg, s, a);
  }

  lemma {:induction false} RunOrdered(cfg: Config, s: Cluster, acts: seq<Action>)
    requires Sane(s) && Ordered(s) && cfg.terminal
    ensures Ordered(Exec(cfg, s, acts))
    decreases |acts|
  {
    if acts != [] {
      StepSane(cfg, s, acts[0]);
      StepOrdered(cfg, s, acts[0]);
      RunOrdered(cfg, Step(cfg, s, acts[0]), acts[1..]);
    }
  }

  // ---- A checkpoint in a ledger that was never listed ----

  function UnlistedMark(): Snapshot {
    Snapshot(map[P(1, 1) := X], P(1, 1))
  }

  function UnlistedMarkRun(): seq<Action> {
    BecomeFirst(0) + ([Join(1, None), Reopen(0, false)] + ([Create(0), WriteNoop(0), FailOpen(0)] +
    ([Append(0, X), Apply(0, P(1, 1)), Checkpoint(0)] + (TakeOver(1) + ([RecoverNext(1, 1)] + (StartWriting(1) + [Unregister(1, UnlistedMark(), Done)]))))))
  }

  /**
   * The writer left by a failed open takes an edit, and a checkpoint names its ledger; the next leader drops the only
   * ledger listed before its own, which lies below that checkpoint.  Then nothing is left to boot from.
   */
  lemma UnlistedMarkStrands(cfg: Config)
    requires !cfg.terminal
    ensures !CanBoot(Exec(cfg, INIT, UnlistedMarkRun()))
  {
    var r6 := StartWriting(1) + [Unregister(1, UnlistedMark(), Done)];
    var r5 := [RecoverNext(1, 1)] + r6;
    var r4 := TakeOver(1) + r5;
    var r3 := [Append(0, X), Apply(0, P(1, 1)), Checkpoint(0)] + r4;
    var r2 := [Create(0), WriteNoop(0), FailOpen(0)] + r3;
    var r1 := [Join(1, None), Reopen(0, false)] + r2;
    FirstLeaderLeads(cfg);
    ExecJoins(cfg, INIT, BecomeFirst(0), r1);
    ExecJoins(cfg, OneLeader(), [Join(1, None), Reopen(0, false)], r2);
    LetGo(cfg);
    ExecJoins(cfg, BetweenLedgers(), [Create(0), WriteNoop(0), FailOpen(0)], r3);
    SecondOpenFails(cfg);
    ExecJoins(cfg, FailedSecond(), [Append(0, X), Apply(0, P(1, 1)), Checkpoint(0)], r4);
    UnlistedMarked(cfg);
    ExecJoins(cfg, UnlistedMarkTaken(), TakeOver(1), r5);
    TakeOverWorks(cfg, UnlistedMarkTaken(), 1);
    var s := TakenOver(UnlistedMarkTaken(), 1);
    ExecJoins(cfg, s, [RecoverNext(1, 1)], r6);
    Exec1(cfg, s, RecoverNext(1, 1));
    FirstReplayed(cfg, s);
    var s1 := Step(cfg, s, RecoverNext(1, 1));
    ExecJoins(cfg, s1, StartWriting(1), [Unregister(1, UnlistedMark(), Done)]);
    StartWritingWorks(cfg, s1, 1);
    Exec1(cfg, Opened(s1, 1), Unregister(1, UnlistedMark(), Done));
    LastDropped(cfg, s1);
  }

  function BetweenLedgers(): Cluster {
    OneLeader().(brokers := map[0 := Broker(true, Ready, map[], NOTHING, true, LedgerList([0], 0, 1), {}, None), 1 := Newcomer(map[], NOTHING)])
  }

  lemma LetGo(cfg: Config)
    ensures Exec(cfg, OneLeader(), [Join(1, None), Reopen(0, false)]) == BetweenLedgers()
  {
    Exec2(cfg, OneLeader(), Join(1, None), Reopen(0, false));
    var s := SetBroker(OneLeader(), 1, Newcomer(map[], NOTHING));
    assert Step(cfg, OneLeader(), Join(1, None)) == s;
    assert CanReopen(s, 0) && Step(cfg, s, Reopen(0, false)) == SetPhase(s, 0, Ready);
    assert SetPhase(s, 0, Ready).brokers == BetweenLedgers().brokers;
  }

  function FailedSecond(): Cluster {
    BetweenLedgers().(bk := map[0 := Ledger([Noop], false, false, false), 1 := Ledger([Noop], false, false, false)], nextId := 2,
                      orphans := {P(0, 0), P(1, 0)},
                      brokers := map[0 := Broker(true, Leading(1), map[], NOTHING, true, LedgerList([0, 1], 0, 1), {}, None),
                                     1 := Newcomer(map[], NOTHING)])
  }

  function SecondCreated(): Cluster {
    BetweenLedgers().(bk := map[0 := Ledger([Noop], false, false, false), 1 := Ledger([], false, false, false)], nextId := 2,
                      brokers := BetweenLedgers().brokers[0 := BetweenLedgers().brokers[0].(phase := Created(1))])
  }

  function SecondNoted(): Cluster {
    SecondCreated().(bk := FailedSecond().bk, orphans := FailedSecond().orphans,
                     brokers := BetweenLedgers().brokers[0 := BetweenLedgers().brokers[0].(phase := Noted(1))])
  }

  lemma SecondOpenFails(cfg: Config)
    requires !cfg.terminal
    ensures Exec(cfg, BetweenLedgers(), [Create(0), WriteNoop(0), FailOpen(0)]) == FailedSecond()
  {
    Exec3(cfg, BetweenLedgers(), Create(0), WriteNoop(0), FailOpen(0));
    SecondCreates(cfg);
    SecondNotes(cfg);
    assert [0] + [1] == [0, 1];
    assert Step(cfg, SecondNoted(), FailOpen(0)).brokers == FailedSecond().brokers;
  }

  lemma SecondCreates(cfg: Config)
    ensures Step(cfg, BetweenLedgers(), Create(0)) == SecondCreated()
  {
    assert Step(cfg, BetweenLedgers(), Create(0)).bk == SecondCreated().bk;
  }

  lemma SecondNotes(cfg: Config)
    ensures Step(cfg, SecondCreated(), WriteNoop(0)) == SecondNoted()
  {
    assert [] + [Noop] == [Noop];
    var t := Step(cfg, SecondCreated(), WriteNoop(0));
    assert t.bk == SecondNoted().bk && t.orphans == SecondNoted().orphans && t.brokers == SecondNoted().brokers;
  }

  function UnlistedMarkTaken(): Cluster {
    FailedSecond().(bk := map[0 := Ledger([Noop], false, false, false), 1 := Ledger([Noop, X], false, false, false)],
                    acked := map[P(1, 1) := X], snapshots := {UnlistedMark()},
                    brokers := map[0 := Broker(true, Leading(1), map[P(1, 1) := X], P(1, 1), true, LedgerList([0, 1], 0, 1), {}, None),
                                   1 := Newcomer(map[], NOTHING)])
  }

  function UnlistedFlight(): Cluster {
    FailedSecond().(bk := UnlistedMarkTaken().bk, inflight := map[P(1, 1) := Flight(0, P(1, 1), X)])
  }

  lemma UnlistedMarked(cfg: Config)
    ensures Exec(cfg, FailedSecond(), [Append(0, X), Apply(0, P(1, 1)), Checkpoint(0)]) == UnlistedMarkTaken()
  {
    Exec3(cfg, FailedSecond(), Append(0, X), Apply(0, P(1, 1)), Checkpoint(0));
    UnlistedStored(cfg);
    UnlistedApplied(cfg);
    var s2 := UnlistedMarkTaken().(snapshots := {});
    assert Step(cfg, s2, Checkpoint(0)).snapshots == {UnlistedMark()};
  }

  lemma UnlistedStored(cfg: Config)
    ensures Step(cfg, FailedSecond(), Append(0, X)) == UnlistedFlight()
  {
    assert [Noop] + [X] == [Noop, X];
    var s1 := Step(cfg, FailedSecond(), Append(0, X));
    assert s1.bk == UnlistedFlight().bk && s1.inflight == UnlistedFlight().inflight;
  }

  lemma UnlistedApplied(cfg: Config)
    ensures Step(cfg, UnlistedFlight(), Apply(0, P(1, 1))) == UnlistedMarkTaken().(snapshots := {})
  {
    assert FlightBy(UnlistedFlight(), 0, P(1, 1));
    var s2 := Step(cfg, UnlistedFlight(), Apply(0, P(1, 1)));
    assert s2.inflight == map[] && s2.acked == UnlistedMarkTaken().acked && s2.brokers == UnlistedMarkTaken().brokers;
  }

  lemma FirstReplayed(cfg: Config, s: Cluster)
    requires 1 in s.brokers && s.brokers[1].session && s.brokers[1].phase == Recovering(NOTHING, [0]) && s.brokers[1].pending == {}
    requires 0 in s.bk && s.bk[0].entries == [Noop] && !s.bk[0].deleted
    ensures var t := Step(cfg, s, RecoverNext(1, 1));
            && t == s.(brokers := t.brokers, bk := t.bk) && t.brokers.Keys == s.brokers.Keys && t.bk.Keys == s.bk.Keys
            && t.brokers[1].session && t.brokers[1].phase == Recovering(NOTHING, []) && t.brokers[1].pending == {}
            && t.brokers[1].dropping == s.brokers[1].dropping
  {
    assert [0][1..] == [];
  }

  lemma LastDropped(cfg: Config, s: Cluster)
    requires 1 in s.brokers && s.brokers[1].dropping == None && s.nextId == 2 && s.zk == LedgerList([0], 0, 1)
    requires s.snapshots == {UnlistedMark()}
    ensures !CanBoot(Step(cfg, Opened(s, 1), Unregister(1, UnlistedMark(), Done)))
  {
    assert [0] + [2] == [0, 2] && [0, 2][1..] == [2];
    var t := Step(cfg, Opened(s, 1), Unregister(1, UnlistedMark(), Done));
    assert t.zk.active == [2] && t.zk.first == 0 && t.snapshots == {UnlistedMark()};
  }

  // ---- Main result ----

  /** A boot can start after every run, whatever was checkpointed and dropped, exactly when a failed open is terminal. */
  lemma AlwaysBootable(cfg: Config)
    ensures (forall acts :: CanBoot(Exec(cfg, INIT, acts))) <==> cfg.terminal
  {
    if cfg.terminal {
      forall acts ensures CanBoot(Exec(cfg, INIT, acts)) {
        RunOrdered(cfg, INIT, acts);
        OrderedBoots(Exec(cfg, INIT, acts));
      }
    } else {
      UnlistedMarkStrands(cfg);
    }
  }
}
