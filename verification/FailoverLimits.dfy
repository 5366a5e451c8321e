/** One concrete run for each guarantee, in which its absence loses an acknowledged edit. */
module FailoverLimits {
  import opened LogPositions
  import opened Edits
  import opened Failover
  import Following

  lemma {:induction false} ExecJoins(cfg: Config, s: Cluster, a: seq<Action>, b: seq<Action>)
    ensures Exec(cfg, s, a + b) == Exec(cfg, Exec(cfg, s, a), b)
    decreases |a|
  {
    if a == [] {
      assert a + b == b;
    } else {
      assert (a + b)[1..] == a[1..] + b;
      ExecJoins(cfg, Step(cfg, s, a[0]), a[1..], b);
    }
  }

  lemma Exec1(cfg: Config, s: Cluster, a: Action)
    ensures Exec(cfg, s, [a]) == Step(cfg, s, a)
  {
    assert [a][1..] == [];
  }

  lemma Exec2(cfg: Config, s: Cluster, a: Action, b: Action)
    ensures Exec(cfg, s, [a, b]) == Step(cfg, Step(cfg, s, a), b)
  {
    assert [a, b][1..] == [b];
    Exec1(cfg, Step(cfg, s, a), b);
  }

  lemma Exec3(cfg: Config, s: Cluster, a: Action, b: Action, c: Action)
    ensures Exec(cfg, s, [a, b, c]) == Step(cfg, Step(cfg, Step(cfg, s, a), b), c)
  {
    assert [a, b, c][1..] == [b, c];
    Exec2(cfg, Step(cfg, s, a), b, c);
  }

  // ---- Pieces of runs ----

  /** From the end of recovery, or from a roll, to a new ledger registered and led. */
  function OpenLedger(b: int): seq<Action> { [Create(b), WriteNoop(b), Register(b, Done)] }

  function StartWriting(b: int): seq<Action> { [ReadList(b), EnsureRole(b)] + OpenLedger(b) }

  /** A broker joins and becomes the first leader. */
  function BecomeFirst(b: int): seq<Action> { [Join(b, None), Elect(b), StartRecovery(b)] + StartWriting(b) }

  /** What a broker with nothing pending looks like once it leads ledger `w`. */
  function Leader(r: Broker, w: int, info: LedgerList): Broker {
    Broker(true, Leading(w), r.applied, r.position, r.exact, info, {}, r.dropping)
  }

  /** The cluster after `b`, with nothing pending and the list up to date, opened ledger `s.nextId`. */
  function Opened(s: Cluster, b: int): Cluster
    requires b in s.brokers
  {
    var w := s.nextId;
    var list := Saved(WithLedger(s.zk, w), s.zk);
    s.(bk := s.bk[w := Ledger([Noop], false, false, false)], nextId := w + 1, zk := list,
       brokers := s.brokers[b := Leader(s.brokers[b], w, list)], registered := s.registered + (set l | l in list.active),
       orphans := s.orphans + {LogSequenceNumber(w, 0)})
  }

  lemma OpenLedgerWorks(cfg: Config, s: Cluster, b: int)
    requires b in s.brokers && s.brokers[b].session && s.brokers[b].phase == Ready && s.brokers[b].pending == {}
    requires s.brokers[b].info == s.zk
    ensures Exec(cfg, s, OpenLedger(b)) == Opened(s, b)
  {
    Exec3(cfg, s, Create(b), WriteNoop(b), Register(b, Done));
    var s1 := Step(cfg, s, Create(b));
    var s2 := Step(cfg, s1, WriteNoop(b));
    assert [] + [Noop] == [Noop];
    assert s2.bk == Opened(s, b).bk && s2.orphans == Opened(s, b).orphans;
    NothingPendingRegisters(cfg, s2, b);
    assert Step(cfg, s2, Register(b, Done)).brokers == Opened(s, b).brokers;
  }

  lemma NothingPendingRegisters(cfg: Config, s: Cluster, b: int)
    requires b in s.brokers && s.brokers[b].session && s.brokers[b].phase.Noted? && s.brokers[b].pending == {} && s.brokers[b].info == s.zk
    ensures var r, w := s.brokers[b], s.brokers[b].phase.ledger;
            var list := Saved(WithLedger(s.zk, w), s.zk);
            Step(cfg, s, Register(b, Done)) == SaveList(s, WithLedger(s.zk, w)).(brokers := s.brokers[b := Leader(r, w, list)])
  {
    var w := s.brokers[b].phase.ledger;
    assert RollFlights(SaveList(s, WithLedger(s.zk, w)), b, {}, w) == map[];
    assert s.inflight + map[] == s.inflight;
  }

  lemma StartWritingWorks(cfg: Config, s: Cluster, b: int)
    requires b in s.brokers && s.brokers[b].session && s.brokers[b].phase.Recovering? && s.brokers[b].phase.todo == []
    requires s.brokers[b].pending == {} && s.leader == b
    ensures Exec(cfg, s, StartWriting(b)) == Opened(s, b)
  {
    ExecJoins(cfg, s, [ReadList(b), EnsureRole(b)], OpenLedger(b));
    Exec2(cfg, s, ReadList(b), EnsureRole(b));
    var s2 := Step(cfg, Step(cfg, s, ReadList(b)), EnsureRole(b));
    OpenLedgerWorks(cfg, s2, b);
    assert Opened(s2, b).brokers == Opened(s, b).brokers;
  }

  /** The cluster whose only broker, 0, leads ledger 0. */
  function OneLeader(): Cluster {
    Cluster(map[0 := Ledger([Noop], false, false, false)], 1, LedgerList([0], 0, 1), 0,
            map[0 := Broker(true, Leading(0), map[], NOTHING, true, LedgerList([0], 0, 1), {}, None)],
            map[], {}, {0}, map[], {LogSequenceNumber(0, 0)})
  }

  lemma FirstLeaderLeads(cfg: Config)
    ensures Exec(cfg, INIT, BecomeFirst(0)) == OneLeader()
  {
    ExecJoins(cfg, INIT, [Join(0, None), Elect(0), StartRecovery(0)], StartWriting(0));
    Exec3(cfg, INIT, Join(0, None), Elect(0), StartRecovery(0));
    var s := Step(cfg, Step(cfg, Step(cfg, INIT, Join(0, None)), Elect(0)), StartRecovery(0));
    StartWritingWorks(cfg, s, 0);
    assert [] + [0] == [0];
    assert Opened(s, 0).bk == OneLeader().bk;
    assert Opened(s, 0).brokers == OneLeader().brokers;
  }

  /** Broker `b` takes over from broker 0 and reads the list for its recovery. */
  function TakeOver(b: int): seq<Action> { [Expire(0), Elect(b), StartRecovery(b)] }

  function TakenOver(s: Cluster, b: int): Cluster
    requires 0 in s.brokers && b in s.brokers
  {
    s.(brokers := s.brokers[0 := s.brokers[0].(session := false)]
                           [b := s.brokers[b].(phase := Recovering(s.brokers[b].position, s.zk.active), info := s.zk)],
       leader := b)
  }

  lemma TakeOverWorks(cfg: Config, s: Cluster, b: int)
    requires 0 in s.brokers && s.leader == 0 && b in s.brokers && b > 0
    requires s.brokers[b].session && s.brokers[b].phase == Following
    requires (cfg.listedStart ==> StartsInList(s.zk, s.brokers[b].position))
    requires s.brokers[b].position.ledgerId > 0 ==> s.brokers[b].position.ledgerId in s.zk.active
    ensures Exec(cfg, s, TakeOver(b)) == TakenOver(s, b)
  {
    Exec3(cfg, s, Expire(0), Elect(b), StartRecovery(b));
    var s1 := Step(cfg, s, Expire(0));
    assert s1.brokers[b] == s.brokers[b] && s1.leader == NO_LEADER;
    var s2 := Step(cfg, s1, Elect(b));
    assert s2 == s1.(brokers := s1.brokers[b := s.brokers[b].(phase := Elected)], leader := b);
    var s3 := Step(cfg, s2, StartRecovery(b));
    assert s3.brokers == TakenOver(s, b).brokers;
  }

  const X := Change(1)

  function P(l: int, e: int): LogSequenceNumber { LogSequenceNumber(l, e) }

  /** Broker 1 leads a later, listed ledger, ready to append, without an edit acknowledged in ledger `p.ledgerId`. */
  ghost predicate Misses(s: Cluster, p: LogSequenceNumber) {
    && 1 in s.brokers && s.brokers[1].phase.Leading? && p in s.acked && p.ledgerId < s.brokers[1].phase.ledger
    && p !in s.brokers[1].applied
    && CanAppend(s, 1) && s.brokers[1].pending == {} && s.brokers[1].phase.ledger in s.zk.active && OnlyZeroFlies(s)
  }

  ghost predicate OnlyZeroFlies(s: Cluster) {
    forall q :: q in s.inflight ==> s.inflight[q].who == 0
  }

  lemma OpenedLoses(s: Cluster, p: LogSequenceNumber)
    requires 1 in s.brokers && s.brokers[1].dropping == None && p !in s.brokers[1].applied && p in s.acked && p.ledgerId < s.nextId
    requires OnlyZeroFlies(s)
    ensures Misses(Opened(s, 1), p)
  {
    var list := Saved(WithLedger(s.zk, s.nextId), s.zk);
    assert list.active[|s.zk.active|] == s.nextId;
  }

  lemma MissIsUnsafe(s: Cluster, p: LogSequenceNumber)
    requires Misses(s, p)
    ensures !LeadersHoldAcked(s)
  {
  }

  // ---- Recovery that does not fence ----

  function UnfencedRun(): seq<Action> {
    BecomeFirst(0) + ([Join(1, None)] + (TakeOver(1) + ([RecoverNext(1, 1)] + (StartWriting(1) + [Append(0, X), Apply(0, P(0, 1))]))))
  }

  /** The old leader, its session gone, still appends to a ledger the new one has already replayed. */
  lemma UnfencedRecoveryLoses(cfg: Config)
    requires !cfg.fencing
    ensures Misses(Exec(cfg, INIT, UnfencedRun()), P(0, 1)) && !LeadersHoldAcked(Exec(cfg, INIT, UnfencedRun()))
  {
    var r4 := StartWriting(1) + [Append(0, X), Apply(0, P(0, 1))];
    var r3 := [RecoverNext(1, 1)] + r4;
    var r2 := TakeOver(1) + r3;
    var r1 := [Join(1, None)] + r2;
    FirstLeaderLeads(cfg);
    ExecJoins(cfg, INIT, BecomeFirst(0), r1);
    var s1 := SetBroker(OneLeader(), 1, Newcomer(map[], NOTHING));
    Exec1(cfg, OneLeader(), Join(1, None));
    ExecJoins(cfg, OneLeader(), [Join(1, None)], r2);
    TakeOverWorks(cfg, s1, 1);
    ExecJoins(cfg, s1, TakeOver(1), r3);
    var s2 := TakenOver(s1, 1);
    Exec1(cfg, s2, RecoverNext(1, 1));
    ExecJoins(cfg, s2, [RecoverNext(1, 1)], r4);
    UnfencedReplay(cfg, s2);
    var s3 := Step(cfg, s2, RecoverNext(1, 1));
    StartWritingWorks(cfg, s3, 1);
    ExecJoins(cfg, s3, StartWriting(1), [Append(0, X), Apply(0, P(0, 1))]);
    Exec2(cfg, Opened(s3, 1), Append(0, X), Apply(0, P(0, 1)));
    LateAppend(cfg, s3);
    MissIsUnsafe(Exec(cfg, INIT, UnfencedRun()), P(0, 1));
  }

  lemma UnfencedReplay(cfg: Config, s: Cluster)
    requires !cfg.fencing && s == TakenOver(SetBroker(OneLeader(), 1, Newcomer(map[], NOTHING)), 1)
    ensures var t := Step(cfg, s, RecoverNext(1, 1));
            && t == s.(brokers := t.brokers) && t.brokers.Keys == {0, 1} && t.brokers[0] == s.brokers[0]
            && t.brokers[1].session && t.brokers[1].phase == Recovering(NOTHING, []) && t.brokers[1].pending == {}
            && t.brokers[1].dropping == None && P(0, 1) !in t.brokers[1].applied
  {
    assert [0][1..] == [];
    SpanMembers(0, 0, 1, P(0, 1));
  }

  lemma LateAppend(cfg: Config, s: Cluster)
    requires s.brokers.Keys == {0, 1} && s.brokers[0].phase == Leading(0) && s.brokers[0].dropping == None && s.brokers[0].pending == {}
    requires s.bk == OneLeader().bk && s.nextId == 1 && P(0, 1) !in s.brokers[1].applied
    requires s.brokers[1].dropping == None && s.inflight == map[]
    ensures Misses(Step(cfg, Step(cfg, Opened(s, 1), Append(0, X)), Apply(0, P(0, 1))), P(0, 1))
  {
    var t := Step(cfg, Opened(s, 1), Append(0, X));
    assert t.brokers == Opened(s, 1).brokers && FlightBy(t, 0, P(0, 1));
  }

  // ---- Appends after a failed open ----

  function FailedOpenRun(): seq<Action> {
    [Join(0, None), Elect(0), StartRecovery(0)] + ([ReadList(0), EnsureRole(0)] + ([Create(0), WriteNoop(0), FailOpen(0)] +
    ([Append(0, X), Apply(0, P(0, 1)), Join(1, None)] + (TakeOver(1) + StartWriting(1)))))
  }

  /** The writer left set by a failed open takes appends into a ledger nobody will ever list. */
  lemma FailedOpenLoses(cfg: Config)
    requires !cfg.terminal
    ensures Misses(Exec(cfg, INIT, FailedOpenRun()), P(0, 1)) && !LeadersHoldAcked(Exec(cfg, INIT, FailedOpenRun()))
  {
    var open := [Create(0), WriteNoop(0), FailOpen(0)];
    var r4 := TakeOver(1) + StartWriting(1);
    var r3 := [Append(0, X), Apply(0, P(0, 1)), Join(1, None)] + r4;
    var r2 := open + r3;
    var r1 := [ReadList(0), EnsureRole(0)] + r2;
    ExecJoins(cfg, INIT, [Join(0, None), Elect(0), StartRecovery(0)], r1);
    var s1 := ReadyToOpen();
    BeforeFirstOpen(cfg);
    ExecJoins(cfg, Exec(cfg, INIT, [Join(0, None), Elect(0), StartRecovery(0)]), [ReadList(0), EnsureRole(0)], r2);
    ExecJoins(cfg, s1, open, r3);
    FailedOpen(cfg);
    var s2 := AfterFailedFirstOpen();
    ExecJoins(cfg, s2, [Append(0, X), Apply(0, P(0, 1)), Join(1, None)], r4);
    UnlistedAppend(cfg);
    var s3 := Exec(cfg, s2, [Append(0, X), Apply(0, P(0, 1)), Join(1, None)]);
    ExecJoins(cfg, s3, TakeOver(1), StartWriting(1));
    TakeOverWorks(cfg, s3, 1);
    StartWritingWorks(cfg, TakenOver(s3, 1), 1);
    OpenedLoses(TakenOver(s3, 1), P(0, 1));
    MissIsUnsafe(Exec(cfg, INIT, FailedOpenRun()), P(0, 1));
  }

  function ReadyToOpen(): Cluster {
    INIT.(leader := 0, brokers := map[0 := Newcomer(map[], NOTHING).(phase := Ready)])
  }

  lemma BeforeFirstOpen(cfg: Config)
    ensures Exec(cfg, Exec(cfg, INIT, [Join(0, None), Elect(0), StartRecovery(0)]), [ReadList(0), EnsureRole(0)]) == ReadyToOpen()
  {
    Exec3(cfg, INIT, Join(0, None), Elect(0), StartRecovery(0));
    var s := Step(cfg, Step(cfg, Step(cfg, INIT, Join(0, None)), Elect(0)), StartRecovery(0));
    assert s.brokers == map[0 := Newcomer(map[], NOTHING).(phase := Recovering(NOTHING, []))];
    Exec2(cfg, s, ReadList(0), EnsureRole(0));
    assert Step(cfg, Step(cfg, s, ReadList(0)), EnsureRole(0)).brokers == ReadyToOpen().brokers;
  }

  function AfterFailedFirstOpen(): Cluster {
    ReadyToOpen().(bk := map[0 := Ledger([Noop], false, false, false)], nextId := 1, orphans := {P(0, 0)},
                   brokers := map[0 := Newcomer(map[], NOTHING).(phase := Leading(0), info := LedgerList([0], 0, -1))])
  }

  lemma FailedOpen(cfg: Config)
    requires !cfg.terminal
    ensures Exec(cfg, ReadyToOpen(), [Create(0), WriteNoop(0), FailOpen(0)]) == AfterFailedFirstOpen()
  {
    Exec3(cfg, ReadyToOpen(), Create(0), WriteNoop(0), FailOpen(0));
    assert [] + [Noop] == [Noop] && [] + [0] == [0];
    var t := Step(cfg, Step(cfg, Step(cfg, ReadyToOpen(), Create(0)), WriteNoop(0)), FailOpen(0));
    assert t.bk == AfterFailedFirstOpen().bk && t.brokers == AfterFailedFirstOpen().brokers;
  }

  lemma UnlistedAppend(cfg: Config)
    ensures var s := AfterFailedFirstOpen();
            var t := Exec(cfg, s, [Append(0, X), Apply(0, P(0, 1)), Join(1, None)]);
            && P(0, 1) in t.acked && t.inflight == map[] && t.zk == FRESH_LIST && t.leader == 0 && t.nextId == 1
            && t.brokers.Keys == {0, 1} && t.brokers[1] == Newcomer(map[], NOTHING)
  {
    Exec3(cfg, AfterFailedFirstOpen(), Append(0, X), Apply(0, P(0, 1)), Join(1, None));
    assert FlightBy(Step(cfg, AfterFailedFirstOpen(), Append(0, X)), 0, P(0, 1));
  }

  // ---- A poll that leaves a gap ----

  const ONE_LEDGER: Lengths := map[0 := 2]
  const TWO_LEDGERS: Lengths := map[0 := 3, 1 := 3]

  function GapPollRun(): seq<Action> {
    BecomeFirst(0) + ([Append(0, X), Join(1, None)] + ([Poll(1, ONE_LEDGER, 9)] + ([Append(0, X), Reopen(0, true)] + (OpenLedger(0) +
    ([Append(0, X), Append(0, X), Apply(0, P(1, 1))] + ([Poll(1, TWO_LEDGERS, 9)] + (TakeOver(1) + ([RecoverNext(1, 3), RecoverNext(1, 3)] + StartWriting(1)))))))))
  }

  /** A follower, its position and what it applied; and the two ledgers of the run. */
  ghost predicate GapState(s: Cluster, entries0: seq<StatusEdit>, entries1: seq<StatusEdit>, closed0: bool) {
    && s.nextId == 2 && s.leader == 0 && s.zk == LedgerList([0, 1], 0, 2)
    && s.bk == map[0 := Ledger(entries0, false, closed0, false), 1 := Ledger(entries1, false, false, false)]
    && s.registered == {0, 1} && s.brokers.Keys == {0, 1}
    && LeadsWell(s.brokers[0], 1, s.zk)
    && Follows(s.brokers[1], P(0, 1)) && OnlyZeroFlies(s)
  }

  ghost predicate LeadsWell(r: Broker, w: int, list: LedgerList) {
    r.session && r.phase == Leading(w) && r.pending == {} && r.dropping == None && r.info == list
  }

  ghost predicate Follows(r: Broker, p: LogSequenceNumber) {
    r.session && r.phase == Following && r.pending == {} && r.dropping == None && r.position == p && P(1, 1) !in r.applied
  }

  lemma GapPollLoses(cfg: Config)
    requires !cfg.gapless
    ensures Misses(Exec(cfg, INIT, GapPollRun()), P(1, 1)) && !LeadersHoldAcked(Exec(cfg, INIT, GapPollRun()))
  {
    var r8 := [RecoverNext(1, 3), RecoverNext(1, 3)] + StartWriting(1);
    var r7 := TakeOver(1) + r8;
    var r6 := [Poll(1, TWO_LEDGERS, 9)] + r7;
    var r5 := [Append(0, X), Append(0, X), Apply(0, P(1, 1))] + r6;
    var r4 := OpenLedger(0) + r5;
    var r3 := [Append(0, X), Reopen(0, true)] + r4;
    var r2 := [Poll(1, ONE_LEDGER, 9)] + r3;
    var r1 := [Append(0, X), Join(1, None)] + r2;
    FirstLeaderLeads(cfg);
    ExecJoins(cfg, INIT, BecomeFirst(0), r1);
    ExecJoins(cfg, OneLeader(), [Append(0, X), Join(1, None)], r2);
    var s1 := Exec(cfg, OneLeader(), [Append(0, X), Join(1, None)]);
    GapStart(cfg);
    ExecJoins(cfg, s1, [Poll(1, ONE_LEDGER, 9)], r3);
    Exec1(cfg, s1, Poll(1, ONE_LEDGER, 9));
    var s2 := Step(cfg, s1, Poll(1, ONE_LEDGER, 9));
    GapFirstPoll(cfg, s1);
    ExecJoins(cfg, s2, [Append(0, X), Reopen(0, true)], r4);
    var s3 := Exec(cfg, s2, [Append(0, X), Reopen(0, true)]);
    GapRoll(cfg, s2);
    ExecJoins(cfg, s3, OpenLedger(0), r5);
    OpenLedgerWorks(cfg, s3, 0);
    GapOpened(s3);
    var s4 := Opened(s3, 0);
    ExecJoins(cfg, s4, [Append(0, X), Append(0, X), Apply(0, P(1, 1))], r6);
    var s5 := Exec(cfg, s4, [Append(0, X), Append(0, X), Apply(0, P(1, 1))]);
    GapAppends(cfg, s4);
    ExecJoins(cfg, s5, [Poll(1, TWO_LEDGERS, 9)], r7);
    Exec1(cfg, s5, Poll(1, TWO_LEDGERS, 9));
    var s6 := Step(cfg, s5, Poll(1, TWO_LEDGERS, 9));
    GapSecondPoll(cfg, s5);
    ExecJoins(cfg, s6, TakeOver(1), r8);
    TakeOverWorks(cfg, s6, 1);
    var s7 := TakenOver(s6, 1);
    ExecJoins(cfg, s7, [RecoverNext(1, 3), RecoverNext(1, 3)], StartWriting(1));
    NothingMore(cfg, s7, 3, P(1, 2));
    var s8 := Exec(cfg, s7, [RecoverNext(1, 3), RecoverNext(1, 3)]);
    StartWritingWorks(cfg, s8, 1);
    OpenedLoses(s8, P(1, 1));
    MissIsUnsafe(Exec(cfg, INIT, GapPollRun()), P(1, 1));
  }

  lemma GapStart(cfg: Config)
    ensures var t := Exec(cfg, OneLeader(), [Append(0, X), Join(1, None)]);
            && t == OneLeader().(bk := map[0 := Ledger([Noop, X], false, false, false)], brokers := t.brokers, inflight := t.inflight)
            && t.brokers.Keys == {0, 1} && LeadsWell(t.brokers[0], 0, t.zk) && t.brokers[1] == Newcomer(map[], NOTHING) && OnlyZeroFlies(t)
  {
    Exec2(cfg, OneLeader(), Append(0, X), Join(1, None));
    assert [Noop] + [X] == [Noop, X];
    assert Step(cfg, OneLeader(), Append(0, X)).bk == map[0 := Ledger([Noop, X], false, false, false)];
  }

  /** The first poll reads ledger 0 to its end. */
  lemma FirstPollReads()
    ensures Following.Opened(Following.View([0], ONE_LEDGER, 9), NOTHING) == [0]
    ensures Known([0], ONE_LEDGER) && Following.Poll([0], ONE_LEDGER, 0) == [P(0, 0), P(0, 1)]
  {
    assert [0][1..] == [];
    assert Span(0, 0, 2) == [P(0, 0), P(0, 1)];
  }

  lemma GapFirstPoll(cfg: Config, s: Cluster)
    requires s == OneLeader().(bk := map[0 := Ledger([Noop, X], false, false, false)], brokers := s.brokers, inflight := s.inflight)
    requires s.brokers.Keys == {0, 1} && LeadsWell(s.brokers[0], 0, s.zk) && s.brokers[1] == Newcomer(map[], NOTHING)
    ensures var t := Step(cfg, s, Poll(1, ONE_LEDGER, 9));
            t == s.(brokers := t.brokers) && t.brokers.Keys == {0, 1} && t.brokers[0] == s.brokers[0] && Follows(t.brokers[1], P(0, 1))
  {
    FirstPollReads();
    assert ListSeenAs(s, ONE_LEDGER);
    var r := s.brokers[1];
    var got := [P(0, 0), P(0, 1)];
    assert Step(cfg, s, Poll(1, ONE_LEDGER, 9)) == SetBroker(s, 1, Deliver(s, r, got));
  }

  lemma GapRoll(cfg: Config, s: Cluster)
    requires s == OneLeader().(bk := map[0 := Ledger([Noop, X], false, false, false)], brokers := s.brokers, inflight := s.inflight)
    requires s.brokers.Keys == {0, 1} && LeadsWell(s.brokers[0], 0, s.zk) && Follows(s.brokers[1], P(0, 1)) && OnlyZeroFlies(s)
    ensures var t := Exec(cfg, s, [Append(0, X), Reopen(0, true)]);
            && t == OneLeader().(bk := map[0 := Ledger([Noop, X, X], false, true, false)], brokers := t.brokers, inflight := t.inflight)
            && t.brokers.Keys == {0, 1} && LeadsWell(t.brokers[0].(phase := Leading(0)), 0, t.zk) && t.brokers[0].phase == Ready
            && Follows(t.brokers[1], P(0, 1)) && OnlyZeroFlies(t)
  {
    Exec2(cfg, s, Append(0, X), Reopen(0, true));
    assert [Noop, X] + [X] == [Noop, X, X];
    var s1 := Step(cfg, s, Append(0, X));
    assert s1.bk == map[0 := Ledger([Noop, X, X], false, false, false)];
    var s2 := Step(cfg, s1, Reopen(0, true));
    assert s2.bk == map[0 := Ledger([Noop, X, X], false, true, false)];
  }

  lemma GapOpened(s: Cluster)
    requires s == OneLeader().(bk := map[0 := Ledger([Noop, X, X], false, true, false)], brokers := s.brokers, inflight := s.inflight)
    requires s.brokers.Keys == {0, 1} && LeadsWell(s.brokers[0].(phase := Leading(0)), 0, s.zk) && s.brokers[0].phase == Ready
    requires Follows(s.brokers[1], P(0, 1)) && OnlyZeroFlies(s)
    ensures GapState(Opened(s, 0), [Noop, X, X], [Noop], true)
  {
    assert [0] + [1] == [0, 1];
  }

  lemma GapAppends(cfg: Config, s: Cluster)
    requires GapState(s, [Noop, X, X], [Noop], true)
    ensures var t := Exec(cfg, s, [Append(0, X), Append(0, X), Apply(0, P(1, 1))]);
            GapState(t, [Noop, X, X], [Noop, X, X], true) && P(1, 1) in t.acked
  {
    Exec3(cfg, s, Append(0, X), Append(0, X), Apply(0, P(1, 1)));
    assert [Noop] + [X] == [Noop, X] && [Noop, X] + [X] == [Noop, X, X];
    var s1 := Step(cfg, s, Append(0, X));
    assert GapState(s1, [Noop, X, X], [Noop, X], true);
    var s2 := Step(cfg, s1, Append(0, X));
    assert GapState(s2, [Noop, X, X], [Noop, X, X], true) && FlightBy(s2, 0, P(1, 1));
  }

  /** The second poll reads the last entry of ledger 0 and only the last entry of ledger 1. */
  lemma SecondPollReads()
    ensures Following.Opened(Following.View([0, 1], TWO_LEDGERS, 9), P(0, 1)) == [0, 1]
    ensures Known([0, 1], TWO_LEDGERS) && Following.Poll([0, 1], TWO_LEDGERS, 2) == [P(0, 2), P(1, 2)]
  {
    Following.FilterAll([0, 1], 0);
    assert [0, 1][1..] == [1] && [1][1..] == [];
    assert Span(0, 2, 3) == [P(0, 2)] && Span(1, 2, 3) == [P(1, 2)];
    assert Following.Poll([1], TWO_LEDGERS, 2) == [P(1, 2)];
  }

  lemma GapSecondPoll(cfg: Config, s: Cluster)
    requires !cfg.gapless && GapState(s, [Noop, X, X], [Noop, X, X], true) && P(1, 1) in s.acked
    ensures var t := Step(cfg, s, Poll(1, TWO_LEDGERS, 9));
            t == s.(brokers := t.brokers) && t.brokers.Keys == {0, 1} && t.brokers[0] == s.brokers[0] && Follows(t.brokers[1], P(1, 2))
  {
    SecondPollReads();
    assert ListSeenAs(s, TWO_LEDGERS);
    assert Step(cfg, s, Poll(1, TWO_LEDGERS, 9)) == SetBroker(s, 1, Deliver(s, s.brokers[1], [P(0, 2), P(1, 2)]));
  }

  /** Recovery from a position at or past the end of the last ledger finds nothing. */
  lemma NothingMore(cfg: Config, s: Cluster, n: nat, p: LogSequenceNumber)
    requires 1 in s.brokers && s.brokers[1].session && s.brokers[1].phase == Recovering(p, [0, 1])
    requires p.ledgerId == 1 && p.sequenceNumber >= 0 && n <= p.sequenceNumber + 1
    requires 1 in s.bk && |s.bk[1].entries| == n && !s.bk[1].fenced && !s.bk[1].closed && !s.bk[1].deleted
    ensures var t := Exec(cfg, s, [RecoverNext(1, n), RecoverNext(1, n)]);
            && t == s.(brokers := t.brokers, bk := t.bk)
            && t.brokers == s.brokers[1 := s.brokers[1].(phase := Recovering(p, []))]
  {
    Exec2(cfg, s, RecoverNext(1, n), RecoverNext(1, n));
    assert [0, 1][1..] == [1] && [1][1..] == [];
    var s1 := Step(cfg, s, RecoverNext(1, n));
    assert s1 == SetPhase(s, 1, Recovering(p, [1]));
    assert Span(1, p.sequenceNumber + 1, n) == [];
    assert Deliver(s1, s1.brokers[1], []).applied == s.brokers[1].applied;
  }

  // ---- A checkpoint right after a roll ----

  function RolledMark(): Snapshot {
    Snapshot(map[P(0, 1) := X], P(1, 1))
  }

  function RolledMarkRun(): seq<Action> {
    BecomeFirst(0) + ([AppendAndRoll(0, X, true)] + (OpenLedger(0) + ([Apply(0, P(0, 1)), Checkpoint(0)] +
    ([Append(0, X), Apply(0, P(1, 1))] + FromMark(RolledMark())))))
  }

  /** Broker 1 boots from a checkpoint, takes over and leads. */
  function FromMark(c: Snapshot): seq<Action> {
    [Join(1, Some(c))] + (TakeOver(1) + ([RecoverNext(1, 2), RecoverNext(1, 2)] + StartWriting(1)))
  }

  lemma RolledMarkLoses(cfg: Config)
    requires !cfg.exactMarks
    ensures Misses(Exec(cfg, INIT, RolledMarkRun()), P(1, 1)) && !LeadersHoldAcked(Exec(cfg, INIT, RolledMarkRun()))
  {
    var r4 := [Append(0, X), Apply(0, P(1, 1))] + FromMark(RolledMark());
    var r3 := [Apply(0, P(0, 1)), Checkpoint(0)] + r4;
    var r2 := OpenLedger(0) + r3;
    var r1 := [AppendAndRoll(0, X, true)] + r2;
    FirstLeaderLeads(cfg);
    ExecJoins(cfg, INIT, BecomeFirst(0), r1);
    ExecJoins(cfg, OneLeader(), [AppendAndRoll(0, X, true)], r2);
    Exec1(cfg, OneLeader(), AppendAndRoll(0, X, true));
    RollBegins(cfg);
    ExecJoins(cfg, Rolling(), OpenLedger(0), r3);
    RollEnds(cfg);
    ExecJoins(cfg, Rolled(), [Apply(0, P(0, 1)), Checkpoint(0)], r4);
    MarkRolled(cfg);
    ExecJoins(cfg, Marked(), [Append(0, X), Apply(0, P(1, 1))], FromMark(RolledMark()));
    AppendAfterMark(cfg);
    BootFromMark(cfg, Exec(cfg, Marked(), [Append(0, X), Apply(0, P(1, 1))]));
    MissIsUnsafe(Exec(cfg, INIT, RolledMarkRun()), P(1, 1));
  }

  lemma BootFromMark(cfg: Config, s: Cluster)
    requires RolledMark() in s.snapshots && P(1, 1) in s.acked && s.inflight == map[] && s.zk == LedgerList([0, 1], 0, 2) && s.leader == 0 && s.nextId == 2
    requires s.brokers.Keys == {0} && s.bk.Keys == {0, 1} && s.bk[1] == Ledger([Noop, X], false, false, false)
    ensures Misses(Exec(cfg, s, FromMark(RolledMark())), P(1, 1))
  {
    var r6 := [RecoverNext(1, 2), RecoverNext(1, 2)] + StartWriting(1);
    var r5 := TakeOver(1) + r6;
    ExecJoins(cfg, s, [Join(1, Some(RolledMark()))], r5);
    Exec1(cfg, s, Join(1, Some(RolledMark())));
    var s4 := SetBroker(s, 1, Newcomer(RolledMark().applied, P(1, 1)));
    ExecJoins(cfg, s4, TakeOver(1), r6);
    TakeOverWorks(cfg, s4, 1);
    var s5 := TakenOver(s4, 1);
    ExecJoins(cfg, s5, [RecoverNext(1, 2), RecoverNext(1, 2)], StartWriting(1));
    NothingMore(cfg, s5, 2, P(1, 1));
    var s6 := Exec(cfg, s5, [RecoverNext(1, 2), RecoverNext(1, 2)]);
    StartWritingWorks(cfg, s6, 1);
    OpenedLoses(s6, P(1, 1));
  }

  function Rolling(): Cluster {
    OneLeader().(bk := map[0 := Ledger([Noop, X], false, true, false)],
                 brokers := map[0 := Broker(true, Ready, map[], NOTHING, true, LedgerList([0], 0, 1), {P(0, 1)}, None)])
  }

  lemma RollBegins(cfg: Config)
    ensures Step(cfg, OneLeader(), AppendAndRoll(0, X, true)) == Rolling()
  {
    assert [Noop] + [X] == [Noop, X] && {} + {P(0, 1)} == {P(0, 1)};
    var t := Step(cfg, OneLeader(), AppendAndRoll(0, X, true));
    assert t.bk == Rolling().bk && t.brokers == Rolling().brokers;
  }

  /** The append that rolled returns with the new ledger's id and the old entry's id. */
  function Rolled(): Cluster {
    Cluster(map[0 := Ledger([Noop, X], false, true, false), 1 := Ledger([Noop], false, false, false)], 2, LedgerList([0, 1], 0, 2), 0,
            map[0 := Broker(true, Leading(1), map[], NOTHING, true, LedgerList([0, 1], 0, 2), {}, None)],
            map[P(0, 1) := Flight(0, P(1, 1), X)], {}, {0, 1}, map[], {P(0, 0), P(1, 0)})
  }

  lemma RollEnds(cfg: Config)
    ensures Exec(cfg, Rolling(), OpenLedger(0)) == Rolled()
  {
    Exec3(cfg, Rolling(), Create(0), WriteNoop(0), Register(0, Done));
    assert [] + [Noop] == [Noop] && [0] + [1] == [0, 1];
    var s1 := Step(cfg, Rolling(), Create(0));
    assert s1.brokers == map[0 := Rolling().brokers[0].(phase := Created(1))];
    var s2 := Step(cfg, s1, WriteNoop(0));
    assert s2.brokers == map[0 := Rolling().brokers[0].(phase := Noted(1))];
    assert s2.bk == Rolled().bk;
    RollRegisters(cfg, s2);
  }

  lemma RollRegisters(cfg: Config, s: Cluster)
    requires s == Rolled().(zk := LedgerList([0], 0, 1), registered := {0}, inflight := map[],
                            brokers := map[0 := Rolling().brokers[0].(phase := Noted(1))])
    ensures Step(cfg, s, Register(0, Done)) == Rolled()
  {
    assert [0] + [1] == [0, 1] && {0} + {1} == {0, 1};
    var r := s.brokers[0];
    assert Saved(WithLedger(r.info, 1), s.zk) == LedgerList([0, 1], 0, 2);
    var t := Step(cfg, s, Register(0, Done));
    assert t.brokers == Rolled().brokers && t.inflight == Rolled().inflight;
  }

  function Marked(): Cluster {
    Rolled().(brokers := map[0 := Broker(true, Leading(1), map[P(0, 1) := X], P(1, 1), false, LedgerList([0, 1], 0, 2), {}, None)],
              inflight := map[], acked := map[P(0, 1) := X], snapshots := {RolledMark()})
  }

  lemma MarkRolled(cfg: Config)
    requires !cfg.exactMarks
    ensures Exec(cfg, Rolled(), [Apply(0, P(0, 1)), Checkpoint(0)]) == Marked()
  {
    Exec2(cfg, Rolled(), Apply(0, P(0, 1)), Checkpoint(0));
    var s1 := Step(cfg, Rolled(), Apply(0, P(0, 1)));
    assert FlightBy(Rolled(), 0, P(0, 1)) && s1.inflight == map[] && s1.brokers == Marked().brokers;
    assert Step(cfg, s1, Checkpoint(0)).snapshots == {RolledMark()};
  }

  lemma AppendAfterMark(cfg: Config)
    ensures var t := Exec(cfg, Marked(), [Append(0, X), Apply(0, P(1, 1))]);
            && RolledMark() in t.snapshots && P(1, 1) in t.acked && t.inflight == map[] && t.zk == LedgerList([0, 1], 0, 2) && t.leader == 0 && t.nextId == 2
            && t.brokers.Keys == {0} && t.bk.Keys == {0, 1} && t.bk[1] == Ledger([Noop, X], false, false, false)
  {
    Exec2(cfg, Marked(), Append(0, X), Apply(0, P(1, 1)));
    assert [Noop] + [X] == [Noop, X];
    assert FlightBy(Step(cfg, Marked(), Append(0, X)), 0, P(1, 1));
  }

  // ---- A checkpoint over an edit still in flight ----

  function EarlyMark(): Snapshot {
    Snapshot(map[P(0, 2) := X], P(0, 2))
  }

  function EarlyMarkRun(): seq<Action> {
    BecomeFirst(0) + ([Append(0, X), Append(0, X)] + ([Apply(0, P(0, 2)), Checkpoint(0), Apply(0, P(0, 1))] +
    ([Join(1, Some(EarlyMark()))] + (TakeOver(1) + ([RecoverNext(1, 3)] + StartWriting(1))))))
  }

  /** Of two edits the later is applied first, and the checkpoint between them has its position. */
  lemma EarlyMarkLoses(cfg: Config)
    requires !cfg.settledMarks
    ensures Misses(Exec(cfg, INIT, EarlyMarkRun()), P(0, 1)) && !LeadersHoldAcked(Exec(cfg, INIT, EarlyMarkRun()))
  {
    var r5 := [RecoverNext(1, 3)] + StartWriting(1);
    var r4 := TakeOver(1) + r5;
    var r3 := [Join(1, Some(EarlyMark()))] + r4;
    var r2 := [Apply(0, P(0, 2)), Checkpoint(0), Apply(0, P(0, 1))] + r3;
    var r1 := [Append(0, X), Append(0, X)] + r2;
    FirstLeaderLeads(cfg);
    ExecJoins(cfg, INIT, BecomeFirst(0), r1);
    ExecJoins(cfg, OneLeader(), [Append(0, X), Append(0, X)], r2);
    TwoInFlight(cfg);
    ExecJoins(cfg, InFlight(), [Apply(0, P(0, 2)), Checkpoint(0), Apply(0, P(0, 1))], r3);
    AppliedInReverse(cfg);
    var s := Exec(cfg, InFlight(), [Apply(0, P(0, 2)), Checkpoint(0), Apply(0, P(0, 1))]);
    ExecJoins(cfg, s, [Join(1, Some(EarlyMark()))], r4);
    Exec1(cfg, s, Join(1, Some(EarlyMark())));
    var s1 := SetBroker(s, 1, Newcomer(EarlyMark().applied, P(0, 2)));
    ExecJoins(cfg, s1, TakeOver(1), r5);
    TakeOverWorks(cfg, s1, 1);
    var s2 := TakenOver(s1, 1);
    ExecJoins(cfg, s2, [RecoverNext(1, 3)], StartWriting(1));
    Exec1(cfg, s2, RecoverNext(1, 3));
    NothingLeft(cfg, s2, 3, P(0, 2), 0);
    var s3 := Step(cfg, s2, RecoverNext(1, 3));
    StartWritingWorks(cfg, s3, 1);
    OpenedLoses(s3, P(0, 1));
    MissIsUnsafe(Exec(cfg, INIT, EarlyMarkRun()), P(0, 1));
  }

  /** Recovery from the end of the only ledger finds nothing. */
  lemma NothingLeft(cfg: Config, s: Cluster, n: nat, p: LogSequenceNumber, l: int)
    requires 1 in s.brokers && s.brokers[1].session && s.brokers[1].phase == Recovering(p, [l])
    requires p.ledgerId == l && p.sequenceNumber >= 0 && n <= p.sequenceNumber + 1
    requires l in s.bk && |s.bk[l].entries| == n && !s.bk[l].fenced && !s.bk[l].closed && !s.bk[l].deleted
    ensures var t := Step(cfg, s, RecoverNext(1, n));
            && t == s.(brokers := t.brokers, bk := t.bk)
            && t.brokers == s.brokers[1 := s.brokers[1].(phase := Recovering(p, []))]
  {
    assert [l][1..] == [] && Span(l, p.sequenceNumber + 1, n) == [];
    assert Deliver(s, s.brokers[1], []).applied == s.brokers[1].applied;
  }

  function InFlight(): Cluster {
    OneLeader().(bk := map[0 := Ledger([Noop, X, X], false, false, false)],
                 inflight := map[P(0, 1) := Flight(0, P(0, 1), X), P(0, 2) := Flight(0, P(0, 2), X)])
  }

  lemma TwoInFlight(cfg: Config)
    ensures Exec(cfg, OneLeader(), [Append(0, X), Append(0, X)]) == InFlight()
  {
    Exec2(cfg, OneLeader(), Append(0, X), Append(0, X));
    assert [Noop] + [X] == [Noop, X] && [Noop, X] + [X] == [Noop, X, X];
    var s1 := Step(cfg, OneLeader(), Append(0, X));
    assert s1.bk == map[0 := Ledger([Noop, X], false, false, false)] && s1.inflight == map[P(0, 1) := Flight(0, P(0, 1), X)];
    var s2 := Step(cfg, s1, Append(0, X));
    assert s2.bk == InFlight().bk && s2.inflight == InFlight().inflight;
  }

  lemma AppliedInReverse(cfg: Config)
    requires !cfg.settledMarks
    ensures var t := Exec(cfg, InFlight(), [Apply(0, P(0, 2)), Checkpoint(0), Apply(0, P(0, 1))]);
            && EarlyMark() in t.snapshots && P(0, 1) in t.acked && t.inflight == map[] && t.zk == LedgerList([0], 0, 1) && t.leader == 0 && t.nextId == 1
            && t.brokers.Keys == {0} && t.bk == InFlight().bk
  {
    var a := Apply(0, P(0, 2));
    Exec3(cfg, InFlight(), a, Checkpoint(0), Apply(0, P(0, 1)));
    assert FlightBy(InFlight(), 0, P(0, 2));
    var s1 := Step(cfg, InFlight(), a);
    assert s1.brokers == map[0 := Broker(true, Leading(0), map[P(0, 2) := X], P(0, 2), true, LedgerList([0], 0, 1), {}, None)];
    var s2 := Step(cfg, s1, Checkpoint(0));
    assert s2.snapshots == {EarlyMark()} && FlightBy(s2, 0, P(0, 1));
  }

  // ---- Starts and ledgers that are not whole ----

  /** Broker 1 joins, and broker 0 appends an edit, lets ledger 0 go and opens ledger 1. */
  function SecondLedger(closes: bool): seq<Action> {
    [Join(1, None), Append(0, X)] + ([Apply(0, P(0, 1)), Reopen(0, closes)] + OpenLedger(0))
  }

  function TwoLedgers(closes: bool): Cluster {
    Cluster(map[0 := Ledger([Noop, X], false, closes, false), 1 := Ledger([Noop], false, false, false)], 2, LedgerList([0, 1], 0, 2), 0,
            map[0 := Broker(true, Leading(1), map[P(0, 1) := X], P(0, 1), true, LedgerList([0, 1], 0, 2), {}, None),
                1 := Newcomer(map[], NOTHING)],
            map[], {}, {0, 1}, map[P(0, 1) := X], {P(0, 0), P(1, 0)})
  }

  function BeforeSecond(closes: bool): Cluster {
    OneLeader().(bk := map[0 := Ledger([Noop, X], false, closes, false)], acked := map[P(0, 1) := X],
                 brokers := map[0 := Broker(true, Ready, map[P(0, 1) := X], P(0, 1), true, LedgerList([0], 0, 1), {}, None),
                                1 := Newcomer(map[], NOTHING)])
  }

  lemma SecondLedgerOpens(cfg: Config, closes: bool)
    ensures Exec(cfg, OneLeader(), SecondLedger(closes)) == TwoLedgers(closes)
  {
    var r := [Apply(0, P(0, 1)), Reopen(0, closes)] + OpenLedger(0);
    ExecJoins(cfg, OneLeader(), [Join(1, None), Append(0, X)], r);
    var s := Exec(cfg, OneLeader(), [Join(1, None), Append(0, X)]);
    ExecJoins(cfg, s, [Apply(0, P(0, 1)), Reopen(0, closes)], OpenLedger(0));
    FirstLedgerLeft(cfg, closes);
    OpenLedgerWorks(cfg, BeforeSecond(closes), 0);
    assert [0] + [1] == [0, 1];
    assert Opened(BeforeSecond(closes), 0).bk == TwoLedgers(closes).bk;
    assert Opened(BeforeSecond(closes), 0).brokers == TwoLedgers(closes).brokers;
  }

  lemma FirstLedgerLeft(cfg: Config, closes: bool)
    ensures var s := Exec(cfg, OneLeader(), [Join(1, None), Append(0, X)]);
            Exec(cfg, s, [Apply(0, P(0, 1)), Reopen(0, closes)]) == BeforeSecond(closes)
  {
    FirstInFlight(cfg);
    Exec2(cfg, JoinedInFlight(), Apply(0, P(0, 1)), Reopen(0, closes));
    FirstLedgerReopened(cfg, closes);
  }

  function JoinedInFlight(): Cluster {
    OneLeader().(brokers := OneLeader().brokers[1 := Newcomer(map[], NOTHING)],
                 bk := map[0 := Ledger([Noop, X], false, false, false)], inflight := map[P(0, 1) := Flight(0, P(0, 1), X)])
  }

  lemma FirstInFlight(cfg: Config)
    ensures Exec(cfg, OneLeader(), [Join(1, None), Append(0, X)]) == JoinedInFlight()
  {
    Exec2(cfg, OneLeader(), Join(1, None), Append(0, X));
    assert [Noop] + [X] == [Noop, X];
    var s1 := Step(cfg, OneLeader(), Join(1, None));
    var s2 := Step(cfg, s1, Append(0, X));
    assert s2.bk == JoinedInFlight().bk && s2.inflight == JoinedInFlight().inflight;
  }

  lemma FirstLedgerReopened(cfg: Config, closes: bool)
    ensures Step(cfg, Step(cfg, JoinedInFlight(), Apply(0, P(0, 1))), Reopen(0, closes)) == BeforeSecond(closes)
  {
    FirstApplied(cfg);
    var s2 := Step(cfg, FirstAcked(), Reopen(0, closes));
    assert s2.bk == BeforeSecond(closes).bk && s2.brokers == BeforeSecond(closes).brokers;
  }

  function FirstAcked(): Cluster {
    JoinedInFlight().(inflight := map[], acked := map[P(0, 1) := X],
                      brokers := map[0 := Broker(true, Leading(0), map[P(0, 1) := X], P(0, 1), true, LedgerList([0], 0, 1), {}, None),
                                     1 := Newcomer(map[], NOTHING)])
  }

  lemma FirstApplied(cfg: Config)
    ensures Step(cfg, JoinedInFlight(), Apply(0, P(0, 1))) == FirstAcked()
  {
    assert FlightBy(JoinedInFlight(), 0, P(0, 1));
    var s1 := Step(cfg, JoinedInFlight(), Apply(0, P(0, 1)));
    assert s1.inflight == map[] && s1.acked == FirstAcked().acked && s1.brokers == FirstAcked().brokers;
  }

  const PARTIAL: Lengths := map[0 := 1, 1 := 1]

  function PartialRun(): seq<Action> {
    BecomeFirst(0) + (SecondLedger(false) + ([Replay(1, PARTIAL)] + (TakeOver(1) + ([RecoverNext(1, 1), RecoverNext(1, 1)] + StartWriting(1)))))
  }

  /** A ledger left unclosed by a roll is seen in part, together with its successor. */
  lemma PartialReadLoses(cfg: Config)
    requires !cfg.wholeLedgers
    ensures Misses(Exec(cfg, INIT, PartialRun()), P(0, 1)) && !LeadersHoldAcked(Exec(cfg, INIT, PartialRun()))
  {
    var r4 := [RecoverNext(1, 1), RecoverNext(1, 1)] + StartWriting(1);
    var r3 := TakeOver(1) + r4;
    var r2 := [Replay(1, PARTIAL)] + r3;
    var r1 := SecondLedger(false) + r2;
    FirstLeaderLeads(cfg);
    ExecJoins(cfg, INIT, BecomeFirst(0), r1);
    ExecJoins(cfg, OneLeader(), SecondLedger(false), r2);
    SecondLedgerOpens(cfg, false);
    ExecJoins(cfg, TwoLedgers(false), [Replay(1, PARTIAL)], r3);
    Exec1(cfg, TwoLedgers(false), Replay(1, PARTIAL));
    PartialReplay(cfg);
    var s := Step(cfg, TwoLedgers(false), Replay(1, PARTIAL));
    ExecJoins(cfg, s, TakeOver(1), r4);
    TakeOverWorks(cfg, s, 1);
    var s1 := TakenOver(s, 1);
    ExecJoins(cfg, s1, [RecoverNext(1, 1), RecoverNext(1, 1)], StartWriting(1));
    NothingMore(cfg, s1, 1, P(1, 0));
    var s2 := Exec(cfg, s1, [RecoverNext(1, 1), RecoverNext(1, 1)]);
    StartWritingWorks(cfg, s2, 1);
    OpenedLoses(s2, P(0, 1));
    MissIsUnsafe(Exec(cfg, INIT, PartialRun()), P(0, 1));
  }

  lemma PartialReplay(cfg: Config)
    requires !cfg.wholeLedgers
    ensures var s := TwoLedgers(false);
            var t := Step(cfg, s, Replay(1, PARTIAL));
            && t == s.(brokers := t.brokers) && t.brokers.Keys == {0, 1} && t.brokers[0] == s.brokers[0]
            && t.brokers[1].session && t.brokers[1].phase == Following && t.brokers[1].pending == {}
            && t.brokers[1].position == P(1, 0) && t.brokers[1].dropping == None && P(0, 1) !in t.brokers[1].applied
  {
    var s := TwoLedgers(false);
    assert [0, 1][1..] == [1] && [1][1..] == [];
    assert Span(0, 0, 1) == [P(0, 0)] && Span(1, 0, 1) == [P(1, 0)];
    assert EntriesAfter([1], PARTIAL, NOTHING) == [P(1, 0)];
    assert EntriesAfter([0, 1], PARTIAL, NOTHING) == [P(0, 0), P(1, 0)];
    assert ListSeenAs(s, PARTIAL);
    assert Step(cfg, s, Replay(1, PARTIAL)) == SetBroker(s, 1, Deliver(s, s.brokers[1], [P(0, 0), P(1, 0)]));
  }

  function LateMark(): Snapshot {
    Snapshot(map[P(0, 1) := X, P(1, 1) := X], P(1, 1))
  }

  function LaggingRun(): seq<Action> {
    BecomeFirst(0) + (SecondLedger(true) + ([Append(0, X), Apply(0, P(1, 1))] + ([Checkpoint(0), Unregister(0, LateMark(), Done)] +
    (TakeOver(1) + ([RecoverNext(1, 2)] + StartWriting(1))))))
  }

  /** A follower that has read nothing takes over after the first ledger was dropped; only ids above 0 are checked. */
  lemma LaggingStartLoses(cfg: Config)
    requires !cfg.listedStart
    ensures Misses(Exec(cfg, INIT, LaggingRun()), P(0, 1)) && !LeadersHoldAcked(Exec(cfg, INIT, LaggingRun()))
  {
    var r5 := [RecoverNext(1, 2)] + StartWriting(1);
    var r4 := TakeOver(1) + r5;
    var r3 := [Checkpoint(0), Unregister(0, LateMark(), Done)] + r4;
    var r2 := [Append(0, X), Apply(0, P(1, 1))] + r3;
    var r1 := SecondLedger(true) + r2;
    FirstLeaderLeads(cfg);
    ExecJoins(cfg, INIT, BecomeFirst(0), r1);
    ExecJoins(cfg, OneLeader(), SecondLedger(true), r2);
    SecondLedgerOpens(cfg, true);
    ExecJoins(cfg, TwoLedgers(true), [Append(0, X), Apply(0, P(1, 1))], r3);
    AppendToSecond(cfg);
    ExecJoins(cfg, SecondInUse(), [Checkpoint(0), Unregister(0, LateMark(), Done)], r4);
    FirstDropped(cfg);
    var s := Exec(cfg, SecondInUse(), [Checkpoint(0), Unregister(0, LateMark(), Done)]);
    ExecJoins(cfg, s, TakeOver(1), r5);
    TakeOverWorks(cfg, s, 1);
    var s1 := TakenOver(s, 1);
    ExecJoins(cfg, s1, [RecoverNext(1, 2)], StartWriting(1));
    Exec1(cfg, s1, RecoverNext(1, 2));
    SecondReplayed(cfg, s1);
    var s2 := Step(cfg, s1, RecoverNext(1, 2));
    StartWritingWorks(cfg, s2, 1);
    OpenedLoses(s2, P(0, 1));
    MissIsUnsafe(Exec(cfg, INIT, LaggingRun()), P(0, 1));
  }

  function SecondInUse(): Cluster {
    TwoLedgers(true).(bk := map[0 := Ledger([Noop, X], false, true, false), 1 := Ledger([Noop, X], false, false, false)],
                      brokers := map[0 := Broker(true, Leading(1), LateMark().applied, P(1, 1), true, LedgerList([0, 1], 0, 2), {}, None),
                                     1 := Newcomer(map[], NOTHING)],
                      acked := LateMark().applied)
  }

  lemma AppendToSecond(cfg: Config)
    ensures Exec(cfg, TwoLedgers(true), [Append(0, X), Apply(0, P(1, 1))]) == SecondInUse()
  {
    Exec2(cfg, TwoLedgers(true), Append(0, X), Apply(0, P(1, 1)));
    assert [Noop] + [X] == [Noop, X];
    var s1 := Step(cfg, TwoLedgers(true), Append(0, X));
    assert s1.bk == SecondInUse().bk && FlightBy(s1, 0, P(1, 1));
    var s2 := Step(cfg, s1, Apply(0, P(1, 1)));
    assert s2.inflight == map[] && s2.acked == SecondInUse().acked && s2.brokers == SecondInUse().brokers;
  }

  lemma FirstDropped(cfg: Config)
    ensures var t := Exec(cfg, SecondInUse(), [Checkpoint(0), Unregister(0, LateMark(), Done)]);
            && t.zk == LedgerList([1], 0, 3) && t.leader == 0 && t.nextId == 2 && t.bk == SecondInUse().bk && t.acked == SecondInUse().acked
            && t.registered == {0, 1} && t.inflight == map[] && t.brokers.Keys == {0, 1} && t.brokers[1] == Newcomer(map[], NOTHING)
  {
    Exec2(cfg, SecondInUse(), Checkpoint(0), Unregister(0, LateMark(), Done));
    var s1 := Step(cfg, SecondInUse(), Checkpoint(0));
    assert s1.snapshots == {LateMark()} && s1.brokers == SecondInUse().brokers;
    assert [0, 1][1..] == [1];
  }

  lemma SecondReplayed(cfg: Config, s: Cluster)
    requires 1 in s.brokers && s.brokers[1].session && s.brokers[1].phase == Recovering(NOTHING, [1]) && s.brokers[1].applied == map[]
    requires s.bk == SecondInUse().bk
    ensures var t := Step(cfg, s, RecoverNext(1, 2));
            && t == s.(brokers := t.brokers, bk := t.bk) && t.brokers.Keys == s.brokers.Keys
            && t.brokers[1].session && t.brokers[1].phase == Recovering(NOTHING, []) && t.brokers[1].pending == s.brokers[1].pending
            && t.brokers[1].dropping == s.brokers[1].dropping && P(0, 1) !in t.brokers[1].applied
  {
    assert [1][1..] == [];
    SpanMembers(1, 0, 2, P(0, 1));
  }
}
