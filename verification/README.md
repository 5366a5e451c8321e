# Majordodo: the replicated commit log and the task lifecycle on it

A Dafny 4.11 model of Majordodo's replicated commit log and of the broker's task lifecycle, with proofs of what both
promise over whole runs. `dafny verify dfyconfig.toml` checks everything.

## What is modelled

**The replicated log as a step system** (`Failover*.dfy`). Brokers, BookKeeper ledgers, the ledger list and the leader
node in ZooKeeper. One action is one remote operation, crash, session expiry or checkpoint, so a run is any sequence of
actions, and an action can leave a broker between any two remote operations. A lost reply is an action of its own.
Appending is two actions: an edit is stored, and later it is applied and acknowledged, in any order, as several threads
do it. A batch that rolls the ledger stores its edits one by one, and all of them return with the new ledger's id. Where an action stands for more than one remote operation it is this: a replay or a poll reads the list and the
ledgers in one action; registering a ledger creates the node if there is none and saves the list; unregistering removes
the first active ledger only, which is the next to go because timestamps do not decrease along the list; applying an
edit and acknowledging it is one action.

**The classes behind it** (`CommitLog.dfy`, `Ledgers.dfy`, `ClusterManager.dfy`). The commit log, its writer, the ledger list and
the ZooKeeper client are classes whose methods change their fields in place and keep the loops of the original.
BookKeeper and ZooKeeper are classes too; the faults of coming calls are a script, so contracts hold for every script.

**The leader election** (`Election.dfy`, `ElectionProgress.dfy`) with asynchronous replies, watches, lost connections and expiries:
who can be elected, and that every broker that waits can take over a free node.

**Reading** (`LogPositions.dfy`, `Following.dfy`, `Checkpoints.dfy`). The recovery scan, follower polls, and checkpoints with retention,
for an arbitrary state and an arbitrary deterministic way edits change it.

**The broker** (`Broker*.dfy`, `ResourceNames.dfy`). Tasks, transactions, slots, heap, delayed queue and resource counters.
`BrokerState.dfy` says what each operation does; class `Broker` in `Broker.dfy` does it in place, method by method, and
each method is proved to have that effect, and to do to each single task what its contract says of that task
(`BrokerOutcomes.dfy`); `BrokerReplay.dfy` proves that the log rebuilds the status, and the other files what holds over whole runs.

## The environment

- BookKeeper: ledger ids strictly increase; entry ids in a ledger are 0, 1, 2, ... in call order; opening with recovery
  fences the ledger and shows all its entries; opening without recovery shows an initial part of them.
- ZooKeeper: a write succeeds only from the current version, except that version -1 matches any; each write moves the
  version by one; ephemeral nodes go with their session; a dead session can do nothing; brokers differ in their host data.
- `LogSequenceNumber.after` orders by ledger id, then by sequence number.
- Applying an edit is deterministic, but for the clock that decides whether a new task is delayed (`ReplayExactIff`).
  Clock readings, the choice of tasks by the heap and of due tasks by the delayed queue, and the resources the mapper
  assigns, are parameters.

## Where the code does not meet the obvious claim

Each is stated exactly, with the condition under which the claim holds and a concrete run where it fails.

- `BrokerStatus.recoverForLeadership` passes `fencing = false` (`BrokerStatus.java:423-430`), although recovery for
  leadership needs fencing. As called, failover is not safe (`UnfencedRecoveryLoses`); with fencing and the six other
  guarantees it is (`SafeExactlyWhenSound`).
- An edit is stored under one lock and applied under another (`BrokerStatus.java:596-618`, `648-649`, `667-668`), so a later edit can be
  applied first, and a checkpoint taken between the two (`300-317`) has a position past an edit it does not hold
  (`EarlyMarkLoses`).
- An append that rolls the ledger is labelled with the new ledger's id and the old entry id (`ReplicatedCommitLog.java:226-231`
  with `535-537`, `309-313` with `491-496`). The label is right exactly when the bytes fit (`LogStatusEdit`); a checkpoint under a
  wrong label loses entries (`MarkExactIff`, `RolledMarkLoses`).
- `followTheLeader` sets `nextEntry` back to 0 only after a ledger without new entries (`ReplicatedCommitLog.java:1012-1016`), so a poll
  may skip the first entries of the next ledger (`PollExactIff`, `PollGapFreeIff`).
- A failed `openNewLedger` leaves the writer set (`ReplicatedCommitLog.java:569-589`), so "a failed open is terminal" is a condition
  (`FailedOpenLoses`). It is also exactly what a boot after any drop needs: a checkpoint may name the ledger of such a writer,
  which is in no list (`AlwaysBootable`, `UnlistedMarkStrands`).
- `recovery` compares only ledger ids above 0 with the list (`ReplicatedCommitLog.java:609`), so a start at ledger 0 or at
  nothing is not checked (`LaggingStartLoses`).
- `closeCurrentWriter` swallows errors (`ReplicatedCommitLog.java:960-971`), so a ledger with a successor may be readable only in
  part (`PartialReadLoses`).
- A save from version -1 is never refused (`ZKClusterManager.java:171`): of two saves from one version the second
  is accepted if and only if the version is -1 (`SecondSaveAcceptedIff`, `OneSavePerVersion`).
- An assignment without resources keeps the task's earlier resource list (`BrokerStatus.java:702-704`), which is then
  released without having been counted (`CountersAreExact`, `StaleListLeaks`).
- A batch of reports is judged before any of it is applied (`Broker.java:806-889`). A retry that is followed by another report
  changing the same task leaves the queues wrong, and nothing else in a batch does: a failure reported twice puts the
  task into the heap twice (`ReportsAgreeIff`, `RepeatedFailureBreaksAgreement`). A task changed twice gives its
  resources back twice, even where the queues stay right (`ReportsBalanceIff`, `RepeatedSuccessUnbalances`).
- Whether a task is delayed is decided by the clock of whoever applies its submission (`BrokerStatus.java:779-797`, `819-838`), so a
  replay turns a delayed task whose start has come into a waiting one, and is exact only without such tasks (`ReplayRebuilds`,
  `ReplayExactIff`).
- A request for the leadership that is answered with an unexpected error is not repeated (`ZKClusterManager.java:256-258`, `336-337`), so a
  broker may be left with nothing under way and no watch; without such an answer it never is (`WaitsExactlyUnlessRefused`).
- Expiry leaves delayed tasks in the delayed queue (`Broker.java:480-497`), and the next resume revives them: the queues agree
  exactly when no task is stranded there (`QueuesAgreeWithStatus`, `ExpiryAgreesIff`, `StrandingRun`). A revived task has given its slot
  back, so it may share the slot with another one (`LiveHoldsIff`, `SlotsExclude`, `SharedSlotRun`). A boot then
  gives the slot to one of them, and a slot with the empty name to nobody (`Broker.java:264-305`).
- A submission into an unknown transaction keeps its slot (`BrokerStatus.java:808-813`), and a rollback does not free the slot
  with the empty name (`BrokerStatus.java:763-767`): every busy slot is in use exactly when neither happened (`BusyIsUsedIff`,
  `AllSlotsUsedIff`, `StrayRun`).

## Model

| member | source | states |
|---|---|---|
| `FailoverTheorems.LeadersNeverLoseAcked` | majordodo-core/src/main/java/majordodo/replication/ReplicatedCommitLog.java:524-685 | over every run of brokers, crashes, session expiries, rolls, fencing recoveries, checkpoints and drops, with appends applied and acknowledged in any order, every leader has applied, with the same content, every edit acknowledged in its own or an earlier ledger; needs the seven guarantees below |
| `FailoverTheorems.LiveLeaderHoldsAll` | majordodo-core/src/main/java/majordodo/replication/ReplicatedCommitLog.java:524-685 | under the same guarantees a leader whose session lives has applied every edit acknowledged by anyone, in whichever ledger |
| `FailoverTheorems.SafeExactlyWhenSound` | majordodo-core/src/main/java/majordodo/replication/ReplicatedCommitLog.java:565-685 | that safety holds over all runs if and only if seven guarantees hold: recovery for leadership fences; a failed open is terminal; readers start in the list; a ledger with a successor is read whole; polls leave no gap; no checkpoint is taken right after a rolled append; no checkpoint is taken while an edit stored before its position is still to be applied. Each one is shown to be needed by a run |
| `FailoverTheorems.StepKeeps` | majordodo-core/src/main/java/majordodo/replication/ReplicatedCommitLog.java:524-821 | the invariant behind it is kept by each of the 23 kinds of step, including those that lose a reply |
| `FailoverAlways.ListedLedgersAlwaysExist` | majordodo-core/src/main/java/majordodo/replication/ReplicatedCommitLog.java:565-593 | whatever the guarantees, at every step and crash point of every run each ledger in the ZooKeeper list exists in BookKeeper and holds its NOOP first: a ledger is created, then written, then listed, and unlisted before it is deleted |
| `FailoverAlways.OneLiveLeader` | majordodo-core/src/main/java/majordodo/replication/ReplicatedCommitLog.java:681-685 | whatever the guarantees, after every run at most one broker with a live session is past its election or dropping a ledger, and it owns the leader node |
| `FailoverAlways.NoAckAfterFence` | majordodo-core/src/main/java/majordodo/replication/ReplicatedCommitLog.java:524-561 | whatever the guarantees, an edit acknowledged in a ledger that was fenced at some moment was stored there, with that content, at that moment |
| `FailoverBoots.AlwaysBootable` | majordodo-core/src/main/java/majordodo/replication/ReplicatedCommitLog.java:829-932 | after every run, whatever was checkpointed and dropped, a boot can start (the first ledger is still listed, or some checkpoint names a listed ledger), if and only if a failed open is terminal |
| `FailoverBoots.UnlistedMarkStrands` | majordodo-core/src/main/java/majordodo/replication/ReplicatedCommitLog.java:565-593 | a run in which the writer left set by a failed open takes an edit, a checkpoint names its unlisted ledger, and the next leader drops the only listed ledger below it: no boot can start |
| `FailoverTheorems.BootsMissNothingWhenSound` | majordodo-core/src/main/java/majordodo/replication/ReplicatedCommitLog.java:829-932 | at every moment of every run, from every allowed starting point each acknowledged edit is in the checkpoint with its content or in a listed ledger after the checkpoint's position, if and only if the seven guarantees hold |
| `FailoverLimits.UnfencedRecoveryLoses` | majordodo-core/src/main/java/majordodo/task/BrokerStatus.java:418-439 | the broker asks for recovery without fencing, and then a run exists in which a leader misses an acknowledged edit |
| `FailoverLimits.FailedOpenLoses` | majordodo-core/src/main/java/majordodo/replication/ReplicatedCommitLog.java:565-593 | the writer left in place by a failed open takes appends that no later leader reads |
| `FailoverLimits.GapPollLoses` | majordodo-core/src/main/java/majordodo/replication/ReplicatedCommitLog.java:1000-1016 | a poll that leaves a gap makes the follower's later leadership miss an acknowledged edit |
| `FailoverLimits.RolledMarkLoses` | majordodo-core/src/main/java/majordodo/replication/ReplicatedCommitLog.java:226-231 | a checkpoint marked with the label of a rolled append loses the entries between the real position and the label |
| `FailoverLimits.EarlyMarkLoses` | majordodo-core/src/main/java/majordodo/task/BrokerStatus.java:300-317 | a checkpoint taken after a later edit was applied and before an earlier stored one is, loses the earlier one although it is acknowledged afterwards |
| `FailoverLimits.LaggingStartLoses` | majordodo-core/src/main/java/majordodo/replication/ReplicatedCommitLog.java:604-613 | a follower that has read nothing and takes over after the first ledger was dropped leads without the edits of that ledger, because only ledger ids above 0 are compared with the list |
| `FailoverLimits.PartialReadLoses` | majordodo-core/src/main/java/majordodo/replication/ReplicatedCommitLog.java:960-971 | a ledger left unclosed by a roll is replayed in part, together with its successor, and the reader later leads without the missing entries |
| `Election.OneElectedExactly` | majordodo-core/src/main/java/majordodo/replication/ZKClusterManager.java:231-353 | two live sessions are never both ELECTED, over every order of replies, watches, lost connections and expiries, if and only if nobody outside deletes the leader node |
| `Election.ElectedOwnsNode` | majordodo-core/src/main/java/majordodo/replication/ZKClusterManager.java:231-353 | without such a deletion every ELECTED broker with a live session owns the leader node |
| `Election.StepOwns` | majordodo-core/src/main/java/majordodo/replication/ZKClusterManager.java:231-353 | each event keeps: a broker that is ELECTED, or is about to be told so, owns the node while its session lives |
| `ElectionProgress.WaitsExactlyUnlessRefused` | majordodo-core/src/main/java/majordodo/replication/ZKClusterManager.java:231-353 | over every run a live broker that asked for the leadership has a request or a callback under way or watches a node that is there, if and only if none of its requests was answered with an error |
| `ElectionProgress.FreeNodeIsTakenOver` | majordodo-core/src/main/java/majordodo/replication/ZKClusterManager.java:231-353 | after every run that left the leader node free, a live broker that asked and was not refused becomes ELECTED and owns the node by at most five events of its own |
| `Ledgers.LedgersInfo.Deserialize` | majordodo-core/src/main/java/majordodo/replication/LedgersInfo.java:73-88 | a missing node gives the empty list with first ledger -1, otherwise the node's content at the given version |
| `Ledgers.LedgersInfo.AddLedger` | majordodo-core/src/main/java/majordodo/replication/LedgersInfo.java:90-96 | appends the id and its timestamp; the first ledger is set once |
| `Ledgers.LedgersInfo.RemoveLedger` | majordodo-core/src/main/java/majordodo/replication/LedgersInfo.java:98-111 | removes the first entry with that id and its timestamp; reports a missing id |
| `Ledgers.LedgersInfo.GetOldLedgers` | majordodo-core/src/main/java/majordodo/replication/LedgersInfo.java:113-123 | returns exactly the ids created before the limit, in list order |
| `Ledgers.DropIsExact` | majordodo-core/src/main/java/majordodo/replication/ReplicatedCommitLog.java:779-821 | removing the droppable ids one by one leaves exactly the entries that are recent or not below the limit ledger, with order and id/timestamp pairs kept |
| `Ledgers.DropLeavesSuffix` | majordodo-core/src/main/java/majordodo/replication/ReplicatedCommitLog.java:779-821 | on a list with increasing ids and non-decreasing timestamps a drop cut short after any number of removals leaves a suffix of the list |
| `Ledgers.DropTurn` | majordodo-core/src/main/java/majordodo/replication/ReplicatedCommitLog.java:789-800 | each id the drop loop is about to remove is still in the list, so removal never throws |
| `Ledgers.ListStaysSuffix` | majordodo-core/src/main/java/majordodo/replication/LedgersInfo.java:90-123 | over any run of openings and drops the active list is an ascending suffix of all ledgers ever listed |
| `Ledgers.FirstActiveIff` | majordodo-core/src/main/java/majordodo/replication/ReplicatedCommitLog.java:920-931 | the first ledger is still active if and only if nothing was ever dropped |
| `ClusterManager.OneSavePerVersion` | majordodo-core/src/main/java/majordodo/replication/ZKClusterManager.java:165-191 | over any run of saves by any brokers at most one save from a given version (not -1) is accepted |
| `ClusterManager.ServeLinear` | majordodo-core/src/main/java/majordodo/replication/ZKClusterManager.java:165-191 | every accepted write replaced exactly the version it named, and versions only grow |
| `ClusterManager.ZKClusterManager.SaveActualLedgersList` | majordodo-core/src/main/java/majordodo/replication/ZKClusterManager.java:165-191 | through lost connections and other writers: on success the node holds this list at the version kept; of the writes made by this call at most one landed, and it replaced the version the list was read at; a save that failed leaves the in-memory list unchanged; with no other writer and no reply lost it succeeds if and only if the list is at the node's version, at 0 for a node it creates, or at -1 |
| `ClusterManager.ZKClusterManager.GetActualLedgersList` | majordodo-core/src/main/java/majordodo/replication/ZKClusterManager.java:136-159 | reads again as long as the connection breaks; then gives the node's list with its version, or an empty list with version -1 when there is no node, as it stood when the reply was sent; throws on any other reply; writes nothing |
| `ClusterManager.OneLanding` | majordodo-core/src/main/java/majordodo/replication/ZKClusterManager.java:165-191 | a retry after a lost reply cannot land a second time |
| `ClusterManager.ZKClusterManager.MasterCreateCallback` | majordodo-core/src/main/java/majordodo/replication/ZKClusterManager.java:317-341 | the winner is ELECTED and the loser NOTELECTED, and both ask for a watch; after a lost reply it looks who leads; all as the election protocol says |
| `ClusterManager.ZKClusterManager.MasterCheckCallback` | majordodo-core/src/main/java/majordodo/replication/ZKClusterManager.java:231-261 | an ELECTED broker that reads another name has lost the leadership; a missing node makes it ask for the leadership, any other answer but an error makes it look again; all as the election protocol says |
| `ClusterManager.ZKClusterManager.MasterExistsCallback` | majordodo-core/src/main/java/majordodo/replication/ZKClusterManager.java:279-297 | a node that is there leaves the watch to wait; one that is not makes it ask for the leadership, an error makes it look who leads; all as the election protocol says |
| `ClusterManager.ZKClusterManager.Process` | majordodo-core/src/main/java/majordodo/replication/ZKClusterManager.java:267-278 | when the leader node is deleted this broker asks for the leadership, when it changes it looks who leads, and on any other event it does nothing; all as the election protocol says |
| `CommitLog.CommitFileWriter.Add` | majordodo-core/src/main/java/majordodo/replication/ReplicatedCommitLog.java:221-331 | entries go to the ledger in call order and the first gets the ledger's length as its id; a fenced ledger takes none and says so; a ledger that is not fenced answers with the entry unless this call fails; after a failure every later add finds the ledger closed |
| `CommitLog.ReplicatedCommitLog.WriteEntries` | majordodo-core/src/main/java/majordodo/replication/ReplicatedCommitLog.java:221-331 | appends the edits without a gap, opens at most one new ledger, does so exactly when the byte count exceeds the limit, and leaves the open ledger within the limit; it fails only for a broken handle, a fence, a failed call, or a roll that cannot save the list; `Valid` keeps every ledger within the limit but for its last append |
| `CommitLog.ReplicatedCommitLog.OpenNewLedger` | majordodo-core/src/main/java/majordodo/replication/ReplicatedCommitLog.java:565-593 | creates a ledger, writes the NOOP, then saves the list with the new id last; older ledgers are untouched; it fails only if a call of BookKeeper failed or the list could not be saved, and then the writer may stay set |
| `CommitLog.ReplicatedCommitLog.AppendRetrying` | majordodo-core/src/main/java/majordodo/replication/ReplicatedCommitLog.java:491-521 | retries after a closed ledger end, store the edits contiguously in one ledger past everything stored before, and lose nothing stored; it throws only if the log is closed or not open, the ledger is fenced, a call failed, or a new ledger was needed and the list could not be saved, and answers otherwise; a fence or missing bookies, and nothing else, close the log and end the session |
| `CommitLog.ReplicatedCommitLog.LogStatusEdit` | majordodo-core/src/main/java/majordodo/replication/ReplicatedCommitLog.java:524-561 | with nothing in the way it answers, with the current ledger and its length if the edit fits; it throws only for the named reasons; the position returned is where the edit is stored if and only if the edit did not push the ledger over the limit; it lies past everything stored before; losing the ledger closes the log |
| `CommitLog.ReplicatedCommitLog.LogStatusEditBatch` | majordodo-core/src/main/java/majordodo/replication/ReplicatedCommitLog.java:477-521 | with nothing in the way it answers, with consecutive positions from the ledger's length on in request order if the batch fits; it throws only for the named reasons; the last position is remembered, and the ledger id is right if and only if the batch did not roll the ledger |
| `CommitLog.ReplicatedCommitLog.PositionsIncrease` | majordodo-core/src/main/java/majordodo/replication/ReplicatedCommitLog.java:524-561 | over any run of calls, failed ones among them and old ledgers dropped in between, each edit is stored past all earlier ones, so the positions returned by calls that did not roll strictly increase |
| `CommitLog.ReplicatedCommitLog.Close` | majordodo-core/src/main/java/majordodo/replication/ReplicatedCommitLog.java:937-958 | no writer is left, the log is closed, and a log that was open ends its session |
| `CommitLog.ReplicatedCommitLog.Recovery` | majordodo-core/src/main/java/majordodo/replication/ReplicatedCommitLog.java:604-678 | delivers exactly the readable entries after the snapshot's position in the listed ledgers; with fencing every ledger read is fenced; refuses a snapshot whose ledger id is above 0 and not listed |
| `CommitLog.ReplicatedCommitLog.ReadWindows` | majordodo-core/src/main/java/majordodo/replication/ReplicatedCommitLog.java:640-663 | the windows of a ledger cover its entries once, in order, without overlap, and the loop ends |
| `CommitLog.ReplicatedCommitLog.StartWriting` | majordodo-core/src/main/java/majordodo/replication/ReplicatedCommitLog.java:681-685 | only the owner of the leader node gets to open a ledger, and it does unless a call failed or another client interfered |
| `CommitLog.ReplicatedCommitLog.FollowTheLeader` | majordodo-core/src/main/java/majordodo/replication/ReplicatedCommitLog.java:984-1051 | one call delivers what a poll of the listed ledgers delivers, and remembers the last position delivered |
| `CommitLog.ReplicatedCommitLog.PollLedgers` | majordodo-core/src/main/java/majordodo/replication/ReplicatedCommitLog.java:1000-1045 | the loop with its `nextEntry`, also when it is cut short, delivers the poll of the ledgers reached |
| `CommitLog.ReplicatedCommitLog.LoadBrokerStatusSnapshot` | majordodo-core/src/main/java/majordodo/replication/ReplicatedCommitLog.java:829-932 | boots from a downloaded snapshot, else from the latest on disk if its ledger is listed, else from nothing if no ledger was ever listed or the first still is; otherwise refuses |
| `CommitLog.ReplicatedCommitLog.DropOldLedgers` | majordodo-core/src/main/java/majordodo/replication/ReplicatedCommitLog.java:779-821 | a complete run removes exactly the ids older than the limit and below both the snapshot's and the current ledger, from list and store; never hits an unlisted id; cut short, it did an initial part of that, and only because a save could not go through or a deletion failed |
| `LogPositions.AfterIsStrictTotalOrder` | majordodo-core/src/main/java/majordodo/task/LogSequenceNumber.java:42-49 | `after` is the strict lexicographic order on ledger id and sequence number |
| `LogPositions.EntriesAfterMembers` | majordodo-core/src/main/java/majordodo/replication/ReplicatedCommitLog.java:614-664 | the recovery scan contains an entry if and only if it is readable in a listed ledger and lies after the snapshot position |
| `LogPositions.EntriesAfterIncreasing` | majordodo-core/src/main/java/majordodo/replication/ReplicatedCommitLog.java:614-664 | over an ascending list the scan visits positions in strictly increasing order, so none twice |
| `Following.PollExactIff` | majordodo-core/src/main/java/majordodo/replication/ReplicatedCommitLog.java:994-1045 | one poll delivers exactly the readable entries after the position if and only if a guard on the first two ledgers' lengths holds |
| `Following.PollGapFreeIff` | majordodo-core/src/main/java/majordodo/replication/ReplicatedCommitLog.java:994-1045 | what one poll delivers is an initial part of those entries, with no gap, if and only if a second guard holds |
| `Following.TwoPollsComplete` | majordodo-core/src/main/java/majordodo/replication/ReplicatedCommitLog.java:1000-1016 | a head with new entries followed by one ledger that ends at or before the position's entry id is completed by a second poll |
| `Following.PollsIncreasing` | majordodo-core/src/main/java/majordodo/replication/ReplicatedCommitLog.java:994-1045 | over any number of polls, each with its own view of the ledgers and each possibly cut short, positions strictly increase and nothing is delivered twice |
| `Following.FilterLosesNothing` | majordodo-core/src/main/java/majordodo/replication/ReplicatedCommitLog.java:986-999 | the ledgers a poll leaves out hold nothing after its position |
| `Checkpoints.ReplayGivesWholeState` | majordodo-core/src/main/java/majordodo/replication/ReplicatedCommitLog.java:604-821 | for any state and any way edits change it: after any history of appends, rolls, checkpoints and drops, every checkpoint in the list plus replay, and the empty status while the first ledger is listed, give the state of the whole history, and one of them is available |
| `Checkpoints.MarkExactIff` | majordodo-core/src/main/java/majordodo/replication/ReplicatedCommitLog.java:715-728 | a checkpoint whose mark is later than its last applied edit gets the rest of the log back if and only if the next entry lies after the mark |
| `Checkpoints.ReplayIsEntriesAfter` | majordodo-core/src/main/java/majordodo/replication/ReplicatedCommitLog.java:614-664 | replaying the history is the recovery scan of the ledgers, position by position |
| `BatchLatch.OpenLatchMeansResult` | majordodo-core/src/main/java/majordodo/replication/ReplicatedCommitLog.java:269-308 | for every order of callbacks, errors and count-downs an open latch means a recorded exception or an entry id in every slot, the ids being consecutive in request order |
| `BatchLatch.LatchOpensInTheEnd` | majordodo-core/src/main/java/majordodo/replication/ReplicatedCommitLog.java:269-308 | for every order of callbacks, failed ones among them, once all have run and made their count-downs the latch is open, so the wait ends; if none failed it was closed by exactly the count-downs still owed |
| `BrokerQueues.QueuesAgreeWithStatus` | majordodo-core/src/main/java/majordodo/task/Broker.java:264-890 | after every run of additions, transactions, resumes, assignments, reports, worker deaths, expiries and boots the heap holds exactly the waiting ids, and the delayed queue exactly the delayed ones and those that expired while delayed and were neither drained nor followed by a boot, each once; so both agree with the statuses if and only if there are none of the latter |
| `BrokerQueues.QueuesAreDetermined` | majordodo-core/src/main/java/majordodo/task/Broker.java:264-293 | the statuses determine both queues, so what a boot rebuilds is what was there |
| `BrokerQueues.OpKeeps` | majordodo-core/src/main/java/majordodo/task/Broker.java:264-890 | each operation, a boot included, keeps that agreement, with the tasks it strands or drains accounted for, together with the counting of attempts and the freshness of prepared tasks |
| `BrokerQueues.FinishOpKeeps` | majordodo-core/src/main/java/majordodo/task/Broker.java:806-889 | a batch in which no retry is followed by another change of its task is refused exactly when it reports an impossible status for a running task, and keeps the agreement otherwise |
| `BrokerQueues.AssignmentsAreBounded` | majordodo-core/src/main/java/majordodo/task/Broker.java:445-451 | a task with attempt a and maxattempts m > 0 is assigned at most max(1, m - a) times over any run, even one with boots or one that expires and revives it, and its attempt count is a plus its assignments |
| `BrokerQueues.FinalStaysFinal` | majordodo-core/src/main/java/majordodo/task/Broker.java:806-866 | a finished or failed task is left unchanged by every later batch of reports |
| `BrokerReports.ReportsAgreeIff` | majordodo-core/src/main/java/majordodo/task/Broker.java:806-889 | whatever a batch of reports names and however often, the queues agree afterwards if and only if no report that leads to a retry is followed by another that changes the same task |
| `BrokerReports.ReportsBalanceIff` | majordodo-core/src/main/java/majordodo/task/Broker.java:817-882 | exact counters stay exact after a batch if and only if it does not change a task that holds resources twice |
| `BrokerReports.RepeatedFailureBreaksAgreement` | majordodo-core/src/main/java/majordodo/task/Broker.java:806-889 | a run after which a batch with the same failure twice puts the task into the heap twice |
| `BrokerReports.RepeatedSuccessUnbalances` | majordodo-core/src/main/java/majordodo/task/Broker.java:806-889 | a run after which a batch with the same success twice leaves the queues right and gives a resource back twice |
| `BrokerResources.CountersAreExact` | majordodo-core/src/main/java/majordodo/task/Broker.java:443-465 | after every run, boots among it, each global counter plus what was left uncounted equals the occurrences of that resource in the lists of running tasks; uncounted are lists kept by an assignment without resources, lists a batch released twice, and lists on workers the last boot did not know |
| `BrokerResources.BalancedExactlyWithoutLeaks` | majordodo-core/src/main/java/majordodo/task/Broker.java:443-465 | so over a whole run the counters agree, and none is negative, if and only if nothing was left uncounted |
| `BrokerResources.LeaksIff` | majordodo-core/src/main/java/majordodo/task/BrokerStatus.java:702-704 | an operation other than a boot leaves something uncounted if and only if it hands out, without resources, a task that still carries the list of an earlier assignment, or it is a batch that changes a task holding resources twice |
| `BrokerResources.StaleListLeaks` | majordodo-core/src/main/java/majordodo/task/BrokerStatus.java:702-704 | a run of five operations after which a counter is -1 |
| `BrokerResources.BootBalancedIff` | majordodo-core/src/main/java/majordodo/task/Workers.java:67-105 | the counters a boot rebuilds are exact if and only if every running task that holds something runs on a known worker |
| `ResourceNames.SplitUndoesJoinIff` | majordodo-core/src/main/java/majordodo/task/Broker.java:817-821 | the resources released are those assigned if and only if the list is not empty, no id has a comma and a last id among several is not empty |
| `BrokerSlots.LiveHoldsIff` | majordodo-core/src/main/java/majordodo/task/BrokerStatus.java:712-734 | after every run a task that asked for a slot holds it if and only if it is not over and has not lost it: set back to waiting after an expiry or, in one batch, after it ended, or at the last boot passed over for another task or for an empty name |
| `BrokerSlots.SlotsExclude` | majordodo-core/src/main/java/majordodo/task/SlotsManager.java:44-50 | after every run, of two different tasks that are not over and ask for one slot at least one has lost it in that sense |
| `BrokerSlots.RevivedWasStranded` | majordodo-core/src/main/java/majordodo/task/Broker.java:344-364 | a task that a resume sets back to waiting after it was over is one that was stranded in the delayed queue; apart from that only a batch that names a task twice revives any |
| `BrokerSlots.BusyIsUsedIff` | majordodo-core/src/main/java/majordodo/task/BrokerStatus.java:808-813 | after every run the holder of a busy slot is a task that uses it, unless the slot is a stray: since the last boot taken by an accepted submission into a transaction unknown at that moment, or left by a rollback because its name is empty; the holder of a stray exists nowhere |
| `BrokerSlots.AllSlotsUsedIff` | majordodo-core/src/main/java/majordodo/task/BrokerStatus.java:761-769 | so every busy slot is in use after a run if and only if the run made no stray since its last boot |
| `BrokerSlots.BootKeepsHolders` | majordodo-core/src/main/java/majordodo/task/Broker.java:264-305 | the busy slots a boot rebuilds keep their holders unless a task that has lost the slot asks for it; every named slot that is not a stray stays busy, and a stray that no such task asks for becomes free |
| `BrokerSlots.UnknownTransactionKeepsSlot` | majordodo-core/src/main/java/majordodo/task/BrokerStatus.java:808-813 | a submission into an unknown transaction is answered with no task but makes its slot a stray |
| `BrokerSlots.StrayRun` | majordodo-core/src/main/java/majordodo/task/BrokerStatus.java:808-813 | a run of one such submission, after which a slot is busy and there is no task |
| `BrokerSlots.SharedSlotRun` | majordodo-core/src/main/java/majordodo/task/Broker.java:480-497 | a run of four operations after which two waiting tasks ask for one slot, because the first expired while delayed and was revived |
| `BrokerExpiry.ExpiryAgreesIff` | majordodo-core/src/main/java/majordodo/task/Broker.java:480-497 | expiring overdue tasks keeps the queues in agreement if and only if none of them was delayed |
| `BrokerExpiry.ExpiredDelayedTaskRevives` | majordodo-core/src/main/java/majordodo/task/Broker.java:344-364 | an expired delayed task is set back to waiting by the next resume that drains it |
| `BrokerExpiry.StrandingRun` | majordodo-core/src/main/java/majordodo/task/Broker.java:480-497 | a run of two operations after which the delayed queue names a failed task |
| `TaskBroker.FailedBatchRestoresSlots` | majordodo-core/src/main/java/majordodo/task/BrokerStatus.java:620-634 | when the log refuses a batch, exactly the slots the batch had taken are given back |
| `TaskBroker.Broker.ApplyEdit` | majordodo-core/src/main/java/majordodo/task/BrokerStatus.java:678-848 | applies one edit in place, answers as the switch does, and throws exactly where it throws |
| `TaskBroker.Broker.ApplyModifications` | majordodo-core/src/main/java/majordodo/task/BrokerStatus.java:576-637 | slots first, then the log, then the accepted edits in order; refused submissions are answered and never logged |
| `TaskBroker.Broker.AddTasks` | majordodo-core/src/main/java/majordodo/task/Broker.java:708-783 | a submission is answered with its own next id if and only if its slot is free when its turn comes and its transaction is known, and with 0 otherwise; its task is then in the status and its queue, or in its transaction, as submitted; nothing else but slots changes; when the log is gone only the id counter has moved; keeps the agreement of queues and statuses |
| `TaskBroker.AnswerOf` | majordodo-core/src/main/java/majordodo/task/Broker.java:708-783 | the answer to each submission of a batch, from the slots and transactions before it and the earlier submissions alone |
| `TaskBroker.SubmissionLands` | majordodo-core/src/main/java/majordodo/task/BrokerStatus.java:772-848 | an admitted task is in the status with its queue, or prepared in its transaction, with the status, attempts, deadline and slot it was submitted with |
| `TaskBroker.Broker.StartTransaction` | majordodo-core/src/main/java/majordodo/task/Broker.java:522-531 | logs the edit and opens an empty transaction; nothing else changes |
| `TaskBroker.Broker.CommitPrepared` | majordodo-core/src/main/java/majordodo/task/Broker.java:533-554 | in a valid broker each prepared task is in the status as it was prepared and in the queue of its status, and no other task changes; an unknown transaction is logged and changes nothing else; when the log is gone nothing changes; keeps the agreement |
| `TaskBroker.Broker.RollbackPrepared` | majordodo-core/src/main/java/majordodo/task/Broker.java:565-573 | discards the prepared tasks and frees exactly the named slots they hold, and no task and no queue changes; when the log is gone nothing changes; keeps the agreement |
| `TaskBroker.Broker.ResumeDelayedTasks` | majordodo-core/src/main/java/majordodo/task/Broker.java:344-364 | the first 1000 due tasks, or all of them, become waiting and move from the delayed queue to the heap, and nothing else changes; it throws exactly if one of them is gone; when the log is gone they have left the delayed queue only |
| `TaskBroker.Broker.AssignTasksToWorker` | majordodo-core/src/main/java/majordodo/task/Broker.java:421-470 | the tasks taken leave the heap; each that is still known runs on this worker, whatever it ran on before, one attempt further, with the resources given or else its earlier ones; no other task changes, and their resources are counted |
| `TaskBroker.Broker.TasksFinished` | majordodo-core/src/main/java/majordodo/task/Broker.java:806-890 | a running task named once: reported finished it is FINISHED; reported failed it is waiting, once in the heap, if and only if it has attempts left and its deadline has not passed, and ERROR otherwise; tasks not running or not named are left alone; the lists of tasks whose execution is over are released once; a batch is refused exactly for a status no execution ends in |
| `BrokerOutcomes.ReportedTask` | majordodo-core/src/main/java/majordodo/task/Broker.java:836-864 | what one report does to its running task and to the heap, by attempts, bound and deadline alone |
| `BrokerOutcomes.ReleasedOnce` | majordodo-core/src/main/java/majordodo/task/Broker.java:872-884 | a batch that names each task once releases the lists of exactly the running tasks it reports as over, each once |
| `TaskBroker.Broker.TasksNeedsRecoveryDueToWorkerDeath` | majordodo-core/src/main/java/majordodo/task/Broker.java:785-804 | each task of the dead worker that ran runs no more: it waits, once more in the heap, if and only if it has attempts left and its deadline has not passed, and is ERROR otherwise; every other task is as it was, and the lists of those that ran are released once |
| `BrokerOutcomes.DeathReportsNameTheRunning` | majordodo-core/src/main/java/majordodo/task/Broker.java:785-804 | exactly the running tasks of the dead worker are reported, each once, as failed |
| `TaskBroker.Broker.SignalExpired` | majordodo-core/src/main/java/majordodo/task/BrokerStatus.java:328-374 | finds distinct tasks, waiting or delayed, whose deadline is set and has passed, up to the limit, all of them if the limit is not reached, and none unless the log can be written |
| `TaskBroker.Broker.PurgeTasks` | majordodo-core/src/main/java/majordodo/task/Broker.java:480-497 | the overdue tasks found, all of them below the limit, are ERROR and out of the heap, and nothing else changes; when the log is gone they have left the heap only; never throws |
| `TaskBroker.Broker.Boot` | majordodo-core/src/main/java/majordodo/task/Broker.java:264-313 | has the effect of the boot in runs: rebuilds queues in agreement with the recovered statuses, the busy slots, and the counters from the running tasks of known workers; the new broker is valid if the recovered status is one a valid broker has logged |
| `TaskBroker.Broker.StartWorkers` | majordodo-core/src/main/java/majordodo/task/Workers.java:70-105 | the nested loop counts the resources of each running task of a known worker once |
| `TaskBroker.ResourceUsageCounters.UpdateResourceCounters` | majordodo-core/src/main/java/majordodo/task/ResourceUsageCounters.java:68-99 | a requested clear sets every counter to 0, then both queues are drained into the counters: each ends as it was, or 0 after a clear, plus what was queued as used less what was queued as released |
| `TaskBroker.ResourceUsageCounters.UseResources` | majordodo-core/src/main/java/majordodo/task/ResourceUsageCounters.java:110-117 | queues the ids as used |
| `TaskBroker.ResourceUsageCounters.ReleaseResources` | majordodo-core/src/main/java/majordodo/task/ResourceUsageCounters.java:119-128 | queues the ids as released |
| `TaskBroker.HeapGivesDistinct` | majordodo-core/src/main/java/majordodo/task/TasksHeap.java:371-405 | a heap in agreement with the statuses never gives out one task twice |
| `BrokerReplay.ReplayRebuilds` | majordodo-core/src/main/java/majordodo/task/BrokerStatus.java:911-977 | whatever a broker does after a checkpoint, replaying what it logged since then throws nowhere and rebuilds its tasks and open transactions, except that delayed tasks whose start has come by then wait |
| `BrokerReplay.ReplayExactIff` | majordodo-core/src/main/java/majordodo/task/BrokerStatus.java:772-848 | the replay rebuilds exactly what was there if and only if no delayed task, prepared ones included, has come to its start in between |

## Left out

- FailoverTheorems.LeadersNeverLoseAcked: assumes the seven guarantees of `SafeExactlyWhenSound`; the code as called does not fence. A batch of which some adds fail is a row of failed appends. What is looked for is a lost edit, not one applied out of order or twice. A saved list's version is not assumed to be 0 or more, because a dead session saves nothing and only one live session leads.
- CommitLog.ReplicatedCommitLog.Recovery: a ledger whose entries disappear between two windows is not modelled; the whole scan sees one length per ledger.
- CommitLog.ReplicatedCommitLog.DropOldLedgers: assumes a list without repeated ids and no other change to the list during the run; a save refused by version ends the run.
- CommitLog.ReplicatedCommitLog.WriteEntries: the encoded NOOP fits the size limit; a longer one would make the original recurse without end.
- TaskBroker.Broker.AssignTasksToWorker: asks for distinct tasks; `HeapGivesDistinct` shows the heap gives no others.
- TaskBroker.Broker.TasksNeedsRecoveryDueToWorkerDeath: its outcome is stated for a list that names each task once; `ReportsAgreeIff` and `ReportsBalanceIff` say what repeated reports do.
- TaskBroker.Broker.TasksFinished: what becomes of a task that a batch names more than once is said by `ReportsAgreeIff` and `ReportsBalanceIff`. The worker's own counters and its list of running tasks are not modelled, only the global ones.
- BrokerQueues.QueuesAgreeWithStatus: a run contains no batch in which a retry is followed by another change of its task; `ReportsAgreeIff` shows that exactly such a batch breaks the agreement. A boot in a run recovers the statuses as they were logged; the delayed tasks that a later replay finds waiting (`ReplayRebuilds`) are those the next resume would set to waiting. It recovers the whole log, which is what `LeadersNeverLoseAcked` is about.
- BrokerResources.CountersAreExact: resource lists are the faithful ones of `SplitUndoesJoinIff`; others are not released as they were taken.
- TaskBroker.ResourceUsageCounters.UpdateResourceCounters: nothing in the repository requests a clear; the optional correction of negative counters, off by default, is left out.
- Order in the heap, the choice of tasks by groups, types and limits, compaction and growth of its array: the heap is a bag and its choice a parameter.
- Log failures in the middle of a transaction's operations: a batch is logged whole or not at all.
- TaskBroker.Broker.SignalExpired: finished tasks are not purged from memory. Expiry of code pools and the timer that picks abandoned transactions; their rollback is the rollback modelled.
- Operations of one broker on several threads: each broker operation is one step, and so is each append or application of an edit in the replicated log. A log that refuses a batch leaves tasks taken from a queue out of it, as the contracts say; runs consist of operations the log took.
- Snapshot files, JSON, gzip and the download of a snapshot: a snapshot is a state with a position.
- ElectionProgress.FreeNodeIsTakenOver: that requests are served and callbacks delivered in the end is not assumed, so it says what can happen next and not that it will.
- Wall-clock sleeps, thread pools, logging; locks appear only as the atomicity of a step.
- Worker connections, code pools, class loading, the web interface, the HTTP interface, the client classes.
- Passwords, digest types, SSL and ACLs of BookKeeper and ZooKeeper.
