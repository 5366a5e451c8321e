/** Safety over every run, and exactly which guarantees it needs. */
module FailoverTheorems {
  import opened LogPositions
  import opened Edits
  import opened Failover
  import opened FailoverInvariant
  import opened FailoverSafety
  import opened FailoverWriting
  import opened FailoverLimits

  lemma StepKeeps(s: Cluster, a: Action)
    requires Inv(s)
    ensures Inv(Step(SOUND, s, a))
  {
    match a
    case Join(b, from) => JoinKeeps(s, b, from);
    case Replay(b, visible) => ReplayKeeps(s, b, visible);
    case Poll(b, visible, cut) => PollKeeps(s, b, visible, cut);
    case Elect(b) => ElectKeeps(s, b);
    case StartRecovery(b) => StartRecoveryKeeps(s, b);
    case RecoverNext(b, upto) => RecoverNextKeeps(s, b, upto);
    case ReadList(b) => ReadListKeeps(s, b);
    case EnsureRole(b) => EnsureRoleKeeps(s, b);
    case Create(b) => CreateKeeps(s, b);
    case WriteNoop(b) => WriteNoopKeeps(s, b);
    case Register(b, reply) => RegisterKeeps(s, b, reply);
    case FailOpen(b) => FailOpenKeeps(s, b);
    case Append(b, edit) => AppendKeeps(s, b, edit);
    case Apply(b, p) => ApplyKeeps(s, b, p);
    case AppendUnknown(b, edit) => AppendUnknownKeeps(s, b, edit);
    case AppendPart(b, edit) => AppendPartKeeps(s, b, edit);
    case AppendAndRoll(b, edit, closes) => AppendAndRollKeeps(s, b, edit, closes);
    case Reopen(b, closes) => ReopenKeeps(s, b, closes);
    case Checkpoint(b) => CheckpointKeeps(s, b);
    case Unregister(b, snapshot, reply) => UnregisterKeeps(s, b, snapshot, reply);
    case Delete(b) => DeleteKeeps(s, b);
    case Expire(b) => ExpireKeeps(s, b);
    case Fail(b) => if b in s.brokers { DieKeeps(s, SetPhase(s, b, Dead), b); }
  }

  lemma {:induction false} RunKeeps(s: Cluster, acts: seq<Action>)
    requires Inv(s)
    ensures Inv(Exec(SOUND, s, acts))
    decreases |acts|
  {
    if acts != [] {
      StepKeeps(s, acts[0]);
      RunKeeps(Step(SOUND, s, acts[0]), acts[1..]);
    }
  }

  /** Over every run, each leader holds every edit acknowledged in its own and in all earlier ledgers. */
  lemma LeadersNeverLoseAcked(acts: seq<Action>)
    ensures LeadersHoldAcked(Exec(SOUND, INIT, acts))
  {
    var s := Exec(SOUND, INIT, acts);
    RunKeeps(INIT, acts);
    forall b, p | b in s.brokers && s.brokers[b].phase.Leading? && p in s.acked && p.ledgerId <= s.brokers[b].phase.ledger
      ensures p in s.brokers[b].applied && s.brokers[b].applied[p] == s.acked[p]
    {
      AckedIsApplied(s, b, p);
    }
  }

  /** What was acknowledged is no longer in flight, so a leader has applied it. */
  lemma AckedIsApplied(s: Cluster, b: int, p: LogSequenceNumber)
    requires Inv(s) && b in s.brokers && s.brokers[b].phase.Leading? && p in s.acked && p.ledgerId <= s.brokers[b].phase.ledger
    ensures p in s.brokers[b].applied && s.brokers[b].applied[p] == s.acked[p]
  {
    assert BrokerOk(s, b, s.brokers[b]) && Live(s, p);
    assert FlightBy(s, b, p) ==> FlightOk(s, p, s.inflight[p]);
  }

  /** A leader whose session lives holds every edit acknowledged anywhere. */
  lemma LiveLeaderHoldsAll(acts: seq<Action>, b: int, p: LogSequenceNumber)
    requires var s := Exec(SOUND, INIT, acts);
             b in s.brokers && s.brokers[b].session && s.brokers[b].phase.Leading? && p in s.acked
    ensures var s := Exec(SOUND, INIT, acts);
            p in s.brokers[b].applied && s.brokers[b].applied[p] == s.acked[p]
  {
    var s := Exec(SOUND, INIT, acts);
    RunKeeps(INIT, acts);
    assert BrokerOk(s, b, s.brokers[b]) && Live(s, p);
    AckedIsApplied(s, b, p);
  }

  /** The guarantees are exactly what is needed: without any one of them some run loses an acknowledged edit. */
  lemma SafeExactlyWhenSound(cfg: Config)
    ensures (forall acts :: LeadersHoldAcked(Exec(cfg, INIT, acts))) <==>
            && cfg.fencing && cfg.terminal && cfg.listedStart && cfg.wholeLedgers && cfg.gapless && cfg.exactMarks && cfg.settledMarks
  {
    if cfg == SOUND {
      forall acts ensures LeadersHoldAcked(Exec(cfg, INIT, acts)) { LeadersNeverLoseAcked(acts); }
    } else {
      var acts, _ := UnsoundLoses(cfg);
      assert !LeadersHoldAcked(Exec(cfg, INIT, acts));
    }
  }

  lemma UnsoundLoses(cfg: Config) returns (acts: seq<Action>, p: LogSequenceNumber)
    requires cfg != SOUND
    ensures Misses(Exec(cfg, INIT, acts), p) && !LeadersHoldAcked(Exec(cfg, INIT, acts))
  {
    p := P(0, 1);
    if !cfg.fencing {
      UnfencedRecoveryLoses(cfg);
      acts := UnfencedRun();
    } else if !cfg.terminal {
      FailedOpenLoses(cfg);
      acts := FailedOpenRun();
    } else if !cfg.listedStart {
      LaggingStartLoses(cfg);
      acts := LaggingRun();
    } else if !cfg.wholeLedgers {
      PartialReadLoses(cfg);
      acts := PartialRun();
    } else if !cfg.gapless {
      GapPollLoses(cfg);
      acts, p := GapPollRun(), P(1, 1);
    } else if !cfg.exactMarks {
      RolledMarkLoses(cfg);
      acts, p := RolledMarkRun(), P(1, 1);
    } else {
      EarlyMarkLoses(cfg);
      acts := EarlyMarkRun();
    }
  }

  // ---- Boots ----

  /**
   * A boot from any checkpoint whose ledger is listed, or from nothing while the first ledger is listed, misses no
   * acknowledged edit: each one is in the checkpoint, with its content, or in a listed ledger after its position.
   */
  ghost predicate BootsMissNothing(s: Cluster) {
    forall c, p :: (c in s.snapshots || c == Snapshot(map[], NOTHING)) && StartsInList(s.zk, c.position) && p in s.acked ==> Found(s, c, p)
  }

  ghost predicate Found(s: Cluster, c: Snapshot, p: LogSequenceNumber)
    requires p in s.acked
  {
    if p.After(c.position) then p.ledgerId in s.zk.active else p in c.applied && c.applied[p] == s.acked[p]
  }

  lemma BootFinds(s: Cluster, c: Snapshot, p: LogSequenceNumber)
    requires Inv(s) && (c in s.snapshots || c == Snapshot(map[], NOTHING)) && StartsInList(s.zk, c.position) && p in s.acked
    ensures Found(s, c, p)
  {
    assert Live(s, p);
    if c in s.snapshots { assert RecordOk(s, c.applied, c.position); }
    if p.After(c.position) { NothingDropped(s, c.position, p); }
  }

  /** What a leader that misses an edit appends, applies and checkpoints next. */
  function MarkOf(s: Cluster): seq<Action>
    requires CanAppend(s, 1)
  {
    var w := s.brokers[1].phase.ledger;
    [Append(1, X), Apply(1, P(w, |s.bk[w].entries|)), Checkpoint(1)]
  }

  /** A checkpoint of a leader that misses an edit misses it too, and is one to boot from. */
  lemma MissedMark(cfg: Config, s: Cluster, p: LogSequenceNumber)
    requires Misses(s, p)
    ensures !BootsMissNothing(Exec(cfg, s, MarkOf(s)))
  {
    var w := s.brokers[1].phase.ledger;
    var q := P(w, |s.bk[w].entries|);
    Exec3(cfg, s, Append(1, X), Apply(1, q), Checkpoint(1));
    var s1 := Step(cfg, s, Append(1, X));
    assert s1 == Store(s, w, X).(inflight := s.inflight[q := Flight(1, q, X)]);
    var s2 := Step(cfg, s1, Apply(1, q));
    assert FlightBy(s1, 1, q) && OnlyZeroFlies(s2);
    var c := Snapshot(s2.brokers[1].applied, q);
    var t := Step(cfg, s2, Checkpoint(1));
    assert c in t.snapshots && StartsInList(t.zk, c.position) && p in t.acked && !Found(t, c, p);
  }

  /** At every moment of every run a boot misses nothing, exactly when the seven guarantees hold. */
  lemma BootsMissNothingWhenSound(cfg: Config)
    ensures (forall acts :: BootsMissNothing(Exec(cfg, INIT, acts))) <==>
            && cfg.fencing && cfg.terminal && cfg.listedStart && cfg.wholeLedgers && cfg.gapless && cfg.exactMarks && cfg.settledMarks
  {
    if cfg == SOUND {
      forall acts ensures BootsMissNothing(Exec(cfg, INIT, acts)) {
        RunKeeps(INIT, acts);
        var s := Exec(cfg, INIT, acts);
        forall c, p | (c in s.snapshots || c == Snapshot(map[], NOTHING)) && StartsInList(s.zk, c.position) && p in s.acked ensures Found(s, c, p) {
          BootFinds(s, c, p);
        }
      }
    } else {
      var acts, p := UnsoundLoses(cfg);
      var s := Exec(cfg, INIT, acts);
      ExecJoins(cfg, INIT, acts, MarkOf(s));
      MissedMark(cfg, s, p);
      assert !BootsMissNothing(Exec(cfg, INIT, acts + MarkOf(s)));
    }
  }
}
