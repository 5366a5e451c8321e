/** The commit log of one broker: appending, rolling, recovering, following and dropping ledgers. */
module CommitLog {
  import opened LogPositions
  import opened Edits
  import opened Ledgers
  import opened ClusterManager
  import Following

  // ---- BookKeeper ----

  /** How the next call fails: up to `stored` entries of the call were written all the same. */
  datatype Fault = Fine | Closed(stored: nat) | Fenced(stored: nat) | NotEnough(stored: nat) | Broken(stored: nat)

  datatype AddResult = Entry(id: int) | LedgerClosed | LedgerFenced | NotEnoughBookies | Failed

  class BookKeeper {
    var ledgers: map<int, seq<StatusEdit>>
    var fenced: set<int>
    var nextId: int
    var faults: seq<Fault>

    ghost predicate Valid()
      reads this
    {
      nextId >= 0 && (forall id :: id in ledgers ==> 0 <= id < nextId) && forall id :: id in fenced ==> id < nextId
    }

    method NextFault() returns (f: Fault)
      modifies this`faults
      ensures faults == if old(faults) == [] then [] else old(faults)[1..]
      ensures f == if old(faults) == [] then Fine else old(faults)[0]
    {
      f := Fine;
      if faults != [] {
        f, faults := faults[0], faults[1..];
      }
    }

    /** Ids strictly increase. */
    method CreateLedger() returns (id: Option<int>)
      requires Valid()
      modifies this
      ensures Valid() && |faults| <= |old(faults)|
      ensures id.Some? ==> id.value == old(nextId) && nextId == old(nextId) + 1 && ledgers == old(ledgers)[id.value := []]
      ensures id.None? ==> ledgers == old(ledgers) && nextId == old(nextId) && |faults| < |old(faults)|
      ensures fenced == old(fenced)
    {
      var f := NextFault();
      if f.Fine? {
        id := Some(nextId);
        ledgers := ledgers[nextId := []];
        nextId := nextId + 1;
      } else {
        id := None;
      }
    }

    method DeleteLedger(id: int) returns (ok: bool)
      requires Valid()
      modifies this
      ensures Valid() && nextId == old(nextId) && |faults| <= |old(faults)|
      ensures ok ==> ledgers == old(ledgers) - {id}
      ensures !ok ==> ledgers == old(ledgers) && |faults| < |old(faults)|
      ensures fenced == old(fenced)
    {
      var f := NextFault();
      ok := f.Fine?;
      if ok {
        ledgers := ledgers - {id};
      }
    }
  }

  // ---- Sizes ----

  function Bytes(sizeOf: StatusEdit -> nat, edits: seq<StatusEdit>): nat {
    if edits == [] then 0 else sizeOf(edits[0]) + Bytes(sizeOf, edits[1..])
  }

  lemma {:induction false} BytesJoin(sizeOf: StatusEdit -> nat, a: seq<StatusEdit>, b: seq<StatusEdit>)
    ensures Bytes(sizeOf, a + b) == Bytes(sizeOf, a) + Bytes(sizeOf, b)
  {
    if a == [] {
      assert a + b == b;
    } else {
      assert (a + b)[1..] == a[1..] + b;
      BytesJoin(sizeOf, a[1..], b);
    }
  }

  // ---- The writer ----

  /** A ledger handle for appending.  After a failed add every later add finds the ledger closed. */
  class CommitFileWriter {
    const out: int
    const bookKeeper: BookKeeper
    var broken: bool

    constructor (out: int, bookKeeper: BookKeeper)
      ensures this.out == out && this.bookKeeper == bookKeeper && !broken
    {
      this.out, this.bookKeeper, broken := out, bookKeeper, false;
    }

    /** Add entries in call order; the first of them gets the id returned. */
    method Add(edits: seq<StatusEdit>) returns (r: AddResult, ghost stored: nat)
      requires bookKeeper.Valid() && (broken || out in bookKeeper.ledgers) && edits != []
      modifies this, bookKeeper
      ensures bookKeeper.Valid() && bookKeeper.nextId == old(bookKeeper.nextId) && stored <= |edits|
      ensures old(broken) ==> r.LedgerClosed? && stored == 0 && bookKeeper.ledgers == old(bookKeeper.ledgers)
      ensures !old(broken) ==> bookKeeper.ledgers == old(bookKeeper.ledgers)[out := old(bookKeeper.ledgers[out]) + edits[..stored]]
      ensures bookKeeper.fenced == old(bookKeeper.fenced)
      ensures r.Entry? ==> out !in bookKeeper.fenced && !old(broken) && stored == |edits| && r.id == |old(bookKeeper.ledgers[out])| && !broken
      ensures !r.Entry? ==> broken
      ensures bookKeeper.faults ==
        if old(broken) || out in bookKeeper.fenced || old(bookKeeper.faults) == [] then old(bookKeeper.faults) else old(bookKeeper.faults)[1..]
      // the answer: a fenced ledger says so, and one that is not fenced stores the entries unless this call fails
      ensures !old(broken) && out in bookKeeper.fenced ==> r.LedgerFenced? && stored == 0
      ensures !old(broken) && out !in bookKeeper.fenced ==>
        match (if old(bookKeeper.faults) == [] then Fine else old(bookKeeper.faults)[0])
        case Fine => r.Entry?
        case Closed(n) => r.LedgerClosed?
        case Fenced(n) => r.LedgerFenced?
        case NotEnough(n) => r.NotEnoughBookies?
        case Broken(n) => r.Failed?
    {
      if broken {
        return LedgerClosed, 0;
      }
      if out in bookKeeper.fenced {
        broken := true;
        assert edits[..0] == [] && bookKeeper.ledgers[out] + edits[..0] == bookKeeper.ledgers[out];
        return LedgerFenced, 0;
      }
      var f := bookKeeper.NextFault();
      var n := if f.Fine? || f.stored > |edits| then |edits| else f.stored;
      var first := |bookKeeper.ledgers[out]|;
      bookKeeper.ledgers := bookKeeper.ledgers[out := bookKeeper.ledgers[out] + edits[..n]];
      broken := !f.Fine?;
      stored := n;
      r := match f
        case Fine => Entry(first)
        case Closed(_) => LedgerClosed
        case Fenced(_) => LedgerFenced
        case NotEnough(_) => NotEnoughBookies
        case Broken(_) => Failed;
    }
  }

  // ---- The log ----

  datatype Append = Appended(first: int) | AppendClosed | AppendFenced | AppendMissingBookies | NotAvailable

  datatype Turn = Done(first: int) | Retry | Thrown

  /** The edits of one append, in the ledger and from the entry where they are stored. */
  datatype Place = Place(ledger: int, first: int)

  /** A call of `LogStatusEdit`: the ledgers and the current ledger before and after, the answer, and where the edit went. */
  datatype Call = Call(
    before: map<int, seq<StatusEdit>>,
    after: map<int, seq<StatusEdit>>,
    ledgerBefore: int,
    ledgerAfter: int,
    pos: Option<LogSequenceNumber>,
    stored: LogSequenceNumber)

  class ReplicatedCommitLog {
    const bookKeeper: BookKeeper
    const cluster: ZKClusterManager
    const sizeOf: StatusEdit -> nat
    const maxLogicalLogFileSize: nat
    var writer: CommitFileWriter?
    var currentLedgerId: int
    var lastSequenceNumber: int
    var writtenBytes: nat
    var actualLedgersList: LedgersInfo
    var closed: bool

    /** For each ledger ok here, how many entries its last append wrote. */
    ghost var lastAppend: map<int, nat>

    constructor (bookKeeper: BookKeeper, cluster: ZKClusterManager, sizeOf: StatusEdit -> nat, max: nat, list: LedgersInfo)
      requires bookKeeper.Valid() && Linear(cluster.zk.server) && cluster.me != SOMEONE && list.Valid() && sizeOf(Noop) <= max
      ensures this.bookKeeper == bookKeeper && this.cluster == cluster && this.sizeOf == sizeOf && maxLogicalLogFileSize == max
      ensures Valid() && writer == null && !closed && actualLedgersList == list
    {
      this.bookKeeper, this.cluster, this.sizeOf, maxLogicalLogFileSize := bookKeeper, cluster, sizeOf, max;
      writer, currentLedgerId, lastSequenceNumber, writtenBytes, actualLedgersList, closed := null, 0, -1, 0, list, false;
      lastAppend := map[];
    }

    /**
     * A NOOP fits into a ledger.  Every ledger ok here stayed within the limit up to its last append, and the one
     * being written, while its handle works, is within it altogether.
     */
    ghost predicate Valid()
      reads this, bookKeeper, cluster, cluster.zk, actualLedgersList, writer
    {
      ValidLedgers() && WriterWithin()
    }

    ghost predicate ValidLedgers()
      reads this, bookKeeper, cluster, cluster.zk, actualLedgersList
    {
      && bookKeeper.Valid() && Linear(cluster.zk.server) && cluster.me != SOMEONE && actualLedgersList.Valid()
      && sizeOf(Noop) <= maxLogicalLogFileSize
      && (forall id :: id in lastAppend ==> id < bookKeeper.nextId)
      && (forall id :: id in lastAppend && id in bookKeeper.ledgers ==> WithinUpTo(bookKeeper.ledgers[id], lastAppend[id]))
    }

    ghost predicate WriterWithin()
      reads this, bookKeeper, writer
    {
      writer != null ==>
        && writer.bookKeeper == bookKeeper && writer.out == currentLedgerId && currentLedgerId in lastAppend
        && (writer.broken || (currentLedgerId in bookKeeper.ledgers &&
              var bytes := Bytes(sizeOf, bookKeeper.ledgers[currentLedgerId]); bytes <= writtenBytes && bytes <= maxLogicalLogFileSize))
    }

    /** All but the last `n` entries fit into the limit. */
    ghost predicate WithinUpTo(edits: seq<StatusEdit>, n: nat) {
      n <= |edits| && Bytes(sizeOf, edits[..|edits| - n]) <= maxLogicalLogFileSize
    }

    /** No ledger is lost and none loses entries. */
    static ghost predicate Keeps(before: map<int, seq<StatusEdit>>, after: map<int, seq<StatusEdit>>) {
      forall id :: id in before ==> id in after && before[id] <= after[id]
    }

    /** A writer whose ledger still exists. */
    ghost predicate Open()
      reads this, bookKeeper
    {
      writer != null && currentLedgerId in bookKeeper.ledgers
    }

    method CloseCurrentWriter()
      modifies this`writer
      ensures writer == null
    {
      writer := null;
    }

    /** The next position of the ledger being written. */
    ghost function Next(): LogSequenceNumber
      requires Open()
      reads this, bookKeeper
    {
      LogSequenceNumber(currentLedgerId, |bookKeeper.ledgers[currentLedgerId]|)
    }

    /** Everything `Valid` needs to change together. */
    ghost function Footprint(): set<object?>
      reads this
    {
      {this, bookKeeper, cluster, cluster.zk, actualLedgersList, writer}
    }

    /**
     * Nothing stands in the way of saving the list: no other writer, no reply lost, and the list was read or saved at
     * the node's version, which is 0 for a node that the save creates.
     */
    ghost predicate CanSave()
      reads this, cluster, cluster.zk, actualLedgersList
    {
      && Quiet(cluster.zk.script)
      && (actualLedgersList.zkVersion == -1
          || actualLedgersList.zkVersion == if cluster.zk.server.node.Present? then cluster.zk.server.node.version else 0)
    }

    /** BookKeeper takes the next call: a working handle on a ledger that is not fenced. */
    ghost predicate CanAdd()
      reads this, writer, bookKeeper
    {
      writer != null && !writer.broken && currentLedgerId !in bookKeeper.fenced
    }

    /**
     * Add the edits to the current ledger, in order and without a gap, and roll to a new ledger if they pushed the byte
     * count over the limit.
     */
    method WriteEntries(edits: seq<StatusEdit>, now: int) returns (r: Append)
      requires Valid() && writer != null && edits != []
      modifies Footprint()
      ensures Valid() && actualLedgersList == old(actualLedgersList) && closed == old(closed)
      ensures |bookKeeper.faults| <= |old(bookKeeper.faults)|
      ensures old(bookKeeper.nextId) <= bookKeeper.nextId <= old(bookKeeper.nextId) + 1
      ensures r.Appended? ==> !old(writer.broken)
      ensures currentLedgerId == old(currentLedgerId) || currentLedgerId == old(bookKeeper.nextId)
      ensures r.Appended? ==>
        var w, size := old(currentLedgerId), Bytes(sizeOf, edits);
        var grown := old(bookKeeper.ledgers)[w := old(bookKeeper.ledgers[w]) + edits];
        && r.first == |old(bookKeeper.ledgers[w])| && Open() && !writer.broken
        && writtenBytes <= maxLogicalLogFileSize
        && (if old(writtenBytes) + size > maxLogicalLogFileSize
            then currentLedgerId == old(bookKeeper.nextId) && bookKeeper.ledgers == grown[currentLedgerId := [Noop]] && Registered()
            else bookKeeper.ledgers == grown && writtenBytes == old(writtenBytes) + size
                 && actualLedgersList.Value() == old(actualLedgersList.Value()) && cluster.zk.server == old(cluster.zk.server))
      ensures old(writtenBytes) + Bytes(sizeOf, edits) <= maxLogicalLogFileSize ==>
        writer == old(writer) && currentLedgerId == old(currentLedgerId) && bookKeeper.nextId == old(bookKeeper.nextId)
      ensures r.AppendClosed? || r.AppendFenced? || r.AppendMissingBookies? ==>
        && writer == old(writer) && writer.broken && currentLedgerId == old(currentLedgerId) && bookKeeper.nextId == old(bookKeeper.nextId)
        && bookKeeper.ledgers.Keys == old(bookKeeper.ledgers.Keys)
        && unchanged(cluster.zk) && unchanged(actualLedgersList)
      ensures r.AppendClosed? ==> old(writer.broken) || |bookKeeper.faults| < |old(bookKeeper.faults)|
      ensures r.AppendFenced? ==> old(currentLedgerId) in old(bookKeeper.fenced) || |bookKeeper.faults| < |old(bookKeeper.faults)|
      ensures r.AppendMissingBookies? ==> |bookKeeper.faults| < |old(bookKeeper.faults)|
      ensures !r.Appended? ==> Keeps(old(bookKeeper.ledgers), bookKeeper.ledgers)
      ensures !r.Appended? ==> forall id :: id in old(bookKeeper.ledgers) && id != old(currentLedgerId) ==>
        bookKeeper.ledgers[id] == old(bookKeeper.ledgers[id])
      ensures !r.Appended? && old(writtenBytes) + Bytes(sizeOf, edits) <= maxLogicalLogFileSize ==> writer.broken
      ensures old(writtenBytes) + Bytes(sizeOf, edits) <= maxLogicalLogFileSize ==> unchanged(cluster.zk) && unchanged(actualLedgersList)
      ensures bookKeeper.fenced == old(bookKeeper.fenced) && unchanged(cluster)
      // the answer: only a broken handle, a fence, a failed call or a roll that cannot save the list is in the way
      ensures old(writer.broken) ==> r.AppendClosed?
      ensures !r.Appended? ==>
        || !old(CanAdd()) || |bookKeeper.faults| < |old(bookKeeper.faults)|
        || (old(writtenBytes) + Bytes(sizeOf, edits) > maxLogicalLogFileSize && !old(CanSave()))
      ensures !old(writer.broken) && old(currentLedgerId) in old(bookKeeper.fenced) ==> r.AppendFenced?
      ensures old(CanAdd()) && old(bookKeeper.faults) != [] && old(bookKeeper.faults)[0].Fenced? ==> r.AppendFenced?
      ensures old(CanAdd()) && old(bookKeeper.faults) != [] && old(bookKeeper.faults)[0].NotEnough? ==> r.AppendMissingBookies?
      ensures old(CanSave()) && r.Appended? ==> CanSave()
      decreases if writtenBytes + Bytes(sizeOf, edits) > maxLogicalLogFileSize then 2 else 0
    {
      ghost var works := !writer.broken;
      ghost var before := if works then bookKeeper.ledgers[currentLedgerId] else [];
      writtenBytes := writtenBytes + Bytes(sizeOf, edits);
      var added, stored := writer.Add(edits);
      BytesJoin(sizeOf, before, edits[..stored]);
      assert (before + edits[..stored])[..|before|] == before;
      assert edits[..|edits|] == edits;
      if works { lastAppend := lastAppend[currentLedgerId := stored]; }
      match added
      case LedgerClosed => return AppendClosed;
      case LedgerFenced => return AppendFenced;
      case NotEnoughBookies => return AppendMissingBookies;
      case Failed => return NotAvailable;
      case Entry(first) =>
        if writtenBytes > maxLogicalLogFileSize {
          var ok := OpenNewLedger(now);
          if !ok { return NotAvailable; }
        }
        return Appended(first);
    }

    /** The ledger being written is the last one of the saved list. */
    ghost predicate Registered()
      reads this, cluster, cluster.zk, actualLedgersList
    {
      && cluster.zk.server.node == Present(actualLedgersList.Value(), actualLedgersList.zkVersion)
      && actualLedgersList.activeLedgers != [] && actualLedgersList.activeLedgers[|actualLedgersList.activeLedgers| - 1] == currentLedgerId
    }

    /**
     * Create a ledger, write its NOOP and only then add it to the saved list.  On failure the ledger created, if any,
     * stays the current one.
     */
    method OpenNewLedger(now: int) returns (ok: bool)
      requires ValidLedgers()
      modifies Footprint()
      ensures Valid() && actualLedgersList == old(actualLedgersList) && closed == old(closed)
      ensures |bookKeeper.faults| <= |old(bookKeeper.faults)|
      ensures old(bookKeeper.nextId) <= bookKeeper.nextId <= old(bookKeeper.nextId) + 1
      ensures ok ==> currentLedgerId == old(bookKeeper.nextId) && Open() && fresh(writer) && !writer.broken && Registered()
      ensures currentLedgerId == old(currentLedgerId) || currentLedgerId == old(bookKeeper.nextId)
      ensures ok ==> bookKeeper.ledgers == old(bookKeeper.ledgers)[currentLedgerId := [Noop]] && writtenBytes == sizeOf(Noop)
      ensures ok ==> actualLedgersList.Value() == Added(old(actualLedgersList.Value()), currentLedgerId, now)
      ensures forall id :: id in old(bookKeeper.ledgers) ==> id in bookKeeper.ledgers && bookKeeper.ledgers[id] == old(bookKeeper.ledgers[id])
      ensures bookKeeper.fenced == old(bookKeeper.fenced) && unchanged(cluster)
      // a new ledger is open unless BookKeeper failed a call or the list could not be saved
      ensures !ok ==> |bookKeeper.faults| < |old(bookKeeper.faults)| || !old(CanSave())
      ensures old(CanSave()) && ok ==> CanSave()
      decreases 1
    {
      var created := CreateWriter();
      if !created {
        return false;
      }
      var written := WriteNoop(now);
      if !written {
        return false;
      }
      ok := RegisterLedger(now);
    }

    /** Write the first entry of a new ledger; a ledger that does not take it is deleted. */
    method WriteNoop(now: int) returns (ok: bool)
      requires Valid() && Open() && CanAdd() && writtenBytes == 0 && bookKeeper.ledgers[currentLedgerId] == []
      modifies Footprint()
      ensures Valid() && actualLedgersList == old(actualLedgersList) && closed == old(closed) && writer == old(writer)
      ensures unchanged(cluster) && unchanged(cluster.zk) && unchanged(actualLedgersList)
      ensures currentLedgerId == old(currentLedgerId) && bookKeeper.nextId == old(bookKeeper.nextId) && bookKeeper.fenced == old(bookKeeper.fenced)
      ensures |bookKeeper.faults| <= |old(bookKeeper.faults)|
      ensures ok ==> !writer.broken && writtenBytes == sizeOf(Noop) && bookKeeper.ledgers == old(bookKeeper.ledgers)[currentLedgerId := [Noop]]
      ensures !ok ==> |bookKeeper.faults| < |old(bookKeeper.faults)|
      ensures !ok ==> forall id :: id in old(bookKeeper.ledgers) && id != currentLedgerId ==>
        id in bookKeeper.ledgers && bookKeeper.ledgers[id] == old(bookKeeper.ledgers[id])
      decreases 1, 0
    {
      assert [] + [Noop] == [Noop] && Bytes(sizeOf, [Noop]) == sizeOf(Noop);
      var noop := WriteEntries([Noop], now);
      ok := noop.Appended?;
      if !ok {
        var deleted := bookKeeper.DeleteLedger(currentLedgerId);
      }
    }

    /** Close the current writer and open one on a new, empty ledger. */
    method CreateWriter() returns (ok: bool)
      requires ValidLedgers()
      modifies this`writer, this`writtenBytes, this`currentLedgerId, this`lastAppend, bookKeeper
      ensures Valid() && |bookKeeper.faults| <= |old(bookKeeper.faults)|
      ensures ok ==> Open() && fresh(writer) && !writer.broken && writtenBytes == 0
      ensures ok ==> currentLedgerId == old(bookKeeper.nextId) && bookKeeper.nextId == old(bookKeeper.nextId) + 1
      ensures ok ==> bookKeeper.ledgers == old(bookKeeper.ledgers)[currentLedgerId := []]
      ensures !ok ==> writer == null && bookKeeper.ledgers == old(bookKeeper.ledgers) && bookKeeper.nextId == old(bookKeeper.nextId)
      ensures !ok ==> currentLedgerId == old(currentLedgerId) && |bookKeeper.faults| < |old(bookKeeper.faults)|
      ensures bookKeeper.fenced == old(bookKeeper.fenced)
    {
      CloseCurrentWriter();
      var id := bookKeeper.CreateLedger();
      if id.None? {
        return false;
      }
      writtenBytes := 0;
      writer := new CommitFileWriter(id.value, bookKeeper);
      currentLedgerId := id.value;
      lastAppend := lastAppend[id.value := 0];
      return true;
    }

    /** Add the current ledger to the list and save the list. */
    method RegisterLedger(now: int) returns (ok: bool)
      requires Valid()
      modifies actualLedgersList, cluster.zk
      ensures Valid()
      ensures ok ==> Registered()
      ensures actualLedgersList.Value() == Added(old(actualLedgersList.Value()), currentLedgerId, now)
      ensures old(CanSave()) ==> ok && CanSave()
    {
      actualLedgersList.AddLedger(currentLedgerId, now);
      ok := cluster.SaveActualLedgersList(actualLedgersList);
    }

    method Close()
      modifies this`writer, this`closed, cluster`session
      ensures writer == null && closed
      ensures cluster.session == (old(closed) && old(cluster.session))
    {
      if !closed {
        CloseCurrentWriter();
        cluster.session := false;
        closed := true;
      }
      writer := null;
    }

    /** `place` holds the edits, at the end of its ledger, in order. */
    ghost predicate StoredAt(place: Place, edits: seq<StatusEdit>)
      reads bookKeeper
    {
      place.ledger in bookKeeper.ledgers && 0 <= place.first <= |bookKeeper.ledgers[place.ledger]|
      && bookKeeper.ledgers[place.ledger][place.first..] == edits
    }

    /** The edits went into the current ledger, or the current ledger is the one they rolled to. */
    ghost predicate CurrentOrRolled(place: Place)
      reads this, bookKeeper, cluster, cluster.zk, actualLedgersList
    {
      place.ledger == currentLedgerId
      || (place.ledger < currentLedgerId && currentLedgerId in bookKeeper.ledgers && bookKeeper.ledgers[currentLedgerId] == [Noop] && Registered())
    }

    /** `place` lies past everything stored up to ledger `upto`. */
    static ghost predicate PastAll(place: Place, before: map<int, seq<StatusEdit>>, upto: int) {
      forall p: LogSequenceNumber :: p.ledgerId in before && p.ledgerId <= upto && p.sequenceNumber < |before[p.ledgerId]| ==>
        LogSequenceNumber(place.ledger, place.first).After(p)
    }

    /**
     * The retry loop of both append operations: a closed ledger is replaced and the edits are tried again; a fenced
     * ledger or missing bookies close this broker.  `None` where the code throws.
     */
    method AppendRetrying(edits: seq<StatusEdit>, now: int) returns (first: Option<int>, ghost place: Place)
      requires Valid() && edits != []
      modifies Footprint()
      ensures Valid() && Keeps(old(bookKeeper.ledgers), bookKeeper.ledgers) && bookKeeper.nextId >= old(bookKeeper.nextId)
      ensures old(closed) || old(writer) == null ==> first.None?
      ensures currentLedgerId >= old(currentLedgerId)
      ensures first.Some? ==>
        && StoredAt(place, edits) && place.first == first.value && CurrentOrRolled(place)
        && Open() && writtenBytes <= maxLogicalLogFileSize && PastAll(place, old(bookKeeper.ledgers), old(currentLedgerId))
      // whether the edits rolled the ledger is decided by the bytes written to it so far
      ensures first.Some? ==> place.ledger == old(currentLedgerId) || place.ledger >= old(bookKeeper.nextId)
      ensures first.Some? ==>
        var written := if place.ledger == old(currentLedgerId) then old(writtenBytes) else sizeOf(Noop);
        place.ledger == currentLedgerId <==> written + Bytes(sizeOf, edits) <= maxLogicalLogFileSize
      // it throws only if the log is closed or not open for writing, the ledger is fenced, a call of BookKeeper failed, or a
      // new ledger was needed and the list could not be saved
      ensures first.None? ==>
        || old(closed) || old(writer) == null || |bookKeeper.faults| < |old(bookKeeper.faults)|
        || (!old(writer.broken) && old(currentLedgerId) in old(bookKeeper.fenced))
        || ((old(writer.broken) || old(writtenBytes) + Bytes(sizeOf, edits) > maxLogicalLogFileSize) && !old(CanSave()))
      // and answers, as long as no call fails, with the next entry of the current ledger, or of a new one if the handle was broken
      ensures first.Some? && |bookKeeper.faults| == |old(bookKeeper.faults)| ==>
        place == if old(writer.broken) then Place(old(bookKeeper.nextId), 1) else Place(old(currentLedgerId), |old(bookKeeper.ledgers[currentLedgerId])|)
      // a fenced ledger or missing bookies close the log and end the session; nothing else does
      ensures !old(closed) && old(writer) != null && !old(writer.broken) && old(Refuses()) ==>
        first.None? && closed && writer == null && !cluster.session
      ensures closed && !old(closed) ==>
        && first.None? && writer == null && !cluster.session
        && (old(currentLedgerId in bookKeeper.fenced) || |bookKeeper.faults| < |old(bookKeeper.faults)|)
      ensures bookKeeper.fenced == old(bookKeeper.fenced) && |bookKeeper.faults| <= |old(bookKeeper.faults)|
    {
      place := Place(0, 0);
      while true
        invariant Valid() && Keeps(old(bookKeeper.ledgers), bookKeeper.ledgers) && bookKeeper.nextId >= old(bookKeeper.nextId)
        invariant closed == old(closed) && bookKeeper.fenced == old(bookKeeper.fenced) && |bookKeeper.faults| <= |old(bookKeeper.faults)|
        invariant old(CanSave()) ==> CanSave()
        invariant writer == old(writer) ==> unchanged(this) && unchanged(bookKeeper) && (writer != null ==> unchanged(writer))
        invariant writer != old(writer) ==>
          && CanAdd() && Open() && bookKeeper.ledgers[currentLedgerId] == [Noop]
          && old(writer) != null && (old(writer.broken) || !old(Refuses()))
          && (|bookKeeper.faults| < |old(bookKeeper.faults)| || (old(writer.broken) && currentLedgerId == old(bookKeeper.nextId)))
        invariant currentLedgerId >= old(currentLedgerId)
        invariant writer == null || (currentLedgerId == old(currentLedgerId) && writtenBytes == old(writtenBytes))
          || (currentLedgerId >= old(bookKeeper.nextId) && writtenBytes == sizeOf(Noop))
        invariant actualLedgersList == old(actualLedgersList) && (writer == old(writer) || fresh(writer))
        decreases |bookKeeper.faults|, if writer != null && writer.broken then 1 else 0
      {
        if closed || writer == null {
          return None, place;
        }
        ghost var before := bookKeeper.ledgers;
        var turn;
        turn, place := AppendOnce(edits, now);
        match turn
        case Done(id) =>
          KeepsOn(old(bookKeeper.ledgers), before, bookKeeper.ledgers);
          return Some(id), place;
        case Retry => KeepsOn(old(bookKeeper.ledgers), before, bookKeeper.ledgers);
        case Thrown =>
          KeepsOn(old(bookKeeper.ledgers), before, bookKeeper.ledgers);
          return None, place;
      }
    }

    static lemma KeepsOn(a: map<int, seq<StatusEdit>>, b: map<int, seq<StatusEdit>>, c: map<int, seq<StatusEdit>>)
      requires Keeps(a, b) && Keeps(b, c)
      ensures Keeps(a, c)
    {
    }

    /** The ledger is fenced, or the next call finds it fenced or too few bookies to store on. */
    ghost predicate Refuses()
      reads this, bookKeeper
    {
      || currentLedgerId in bookKeeper.fenced
      || (bookKeeper.faults != [] && (bookKeeper.faults[0].Fenced? || bookKeeper.faults[0].NotEnough?))
    }

    /** One turn of the retry loop. */
    method AppendOnce(edits: seq<StatusEdit>, now: int) returns (turn: Turn, ghost place: Place)
      requires Valid() && edits != [] && writer != null
      modifies Footprint()
      ensures Valid() && Keeps(old(bookKeeper.ledgers), bookKeeper.ledgers) && bookKeeper.nextId >= old(bookKeeper.nextId)
      ensures currentLedgerId >= old(currentLedgerId)
      ensures turn.Done? ==>
        && !old(writer.broken) && place == Place(old(currentLedgerId), |old(bookKeeper.ledgers[currentLedgerId])|)
        && StoredAt(place, edits) && place.first == turn.first && CurrentOrRolled(place)
        && Open() && writtenBytes <= maxLogicalLogFileSize
        && (place.ledger == currentLedgerId <==> old(writtenBytes) + Bytes(sizeOf, edits) <= maxLogicalLogFileSize)
      ensures turn.Retry? ==>
        && fresh(writer) && CanAdd() && writtenBytes == sizeOf(Noop) && currentLedgerId == old(bookKeeper.nextId)
        && currentLedgerId in bookKeeper.ledgers && bookKeeper.ledgers[currentLedgerId] == [Noop]
        && actualLedgersList == old(actualLedgersList) && closed == old(closed)
        && |bookKeeper.faults| <= |old(bookKeeper.faults)| && (old(writer.broken) || |bookKeeper.faults| < |old(bookKeeper.faults)|)
      ensures |bookKeeper.faults| <= |old(bookKeeper.faults)| && bookKeeper.fenced == old(bookKeeper.fenced)
      ensures old(CanSave()) && !turn.Thrown? ==> CanSave()
      // the turn answers, retries or throws for a reason
      ensures |bookKeeper.faults| == |old(bookKeeper.faults)| ==>
        && (old(CanAdd()) && (old(writtenBytes) + Bytes(sizeOf, edits) <= maxLogicalLogFileSize || old(CanSave())) ==> turn.Done?)
        && (old(writer.broken) && old(CanSave()) ==> turn.Retry?)
      ensures old(writer.broken) ==> !turn.Done?
      ensures turn.Done? ==> closed == old(closed)
      ensures closed && !old(closed) ==>
        writer == null && !cluster.session && (old(currentLedgerId in bookKeeper.fenced) || |bookKeeper.faults| < |old(bookKeeper.faults)|)
      ensures !old(writer.broken) && old(Refuses()) ==> turn.Thrown? && closed && writer == null && (old(closed) || !cluster.session)
    {
      ghost var before := bookKeeper.ledgers;
      place := Place(currentLedgerId, if writer.broken then 0 else |bookKeeper.ledgers[currentLedgerId]|);
      var r := WriteEntries(edits, now);
      match r
      case Appended(id) =>
        AppendedPlace(before, bookKeeper.ledgers, place.ledger, edits);
        turn := Done(id);
      case AppendClosed =>
        ghost var after := bookKeeper.ledgers;
        var ok := OpenNewLedger(now);
        KeepsOn(before, after, bookKeeper.ledgers);
        turn := if ok then Retry else Turn.Thrown;
      case AppendFenced =>
        Close();
        turn := Turn.Thrown;
      case AppendMissingBookies =>
        Close();
        turn := Turn.Thrown;
      case NotAvailable => turn := Turn.Thrown;
    }

    static lemma AppendedPlace(before: map<int, seq<StatusEdit>>, after: map<int, seq<StatusEdit>>, w: int, edits: seq<StatusEdit>)
      requires w in before && w in after && after[w] == before[w] + edits
      ensures after[w][|before[w]|..] == edits && before[w] <= after[w]
    {
    }

    /**
     * Append one edit.  Its position carries the id of the ledger current when the call returns, which is where the
     * edit is stored unless the append itself rolled the ledger.
     */
    method LogStatusEdit(edit: StatusEdit, now: int) returns (pos: Option<LogSequenceNumber>, ghost stored: LogSequenceNumber)
      requires Valid()
      modifies Footprint()
      ensures Valid() && Keeps(old(bookKeeper.ledgers), bookKeeper.ledgers)
      ensures old(closed) || old(writer) == null ==> pos.None?
      ensures CallOk(Call(old(bookKeeper.ledgers), bookKeeper.ledgers, old(currentLedgerId), currentLedgerId, pos, stored))
      ensures pos.Some? ==>
        && stored.ledgerId in bookKeeper.ledgers && 0 <= stored.sequenceNumber == |bookKeeper.ledgers[stored.ledgerId]| - 1
        && bookKeeper.ledgers[stored.ledgerId][stored.sequenceNumber] == edit
        && pos.value == LogSequenceNumber(currentLedgerId, stored.sequenceNumber) && lastSequenceNumber == stored.sequenceNumber
        && writtenBytes <= maxLogicalLogFileSize
      // the label is right exactly when the bytes of the edit fit
      ensures pos.Some? ==>
        var written := if stored.ledgerId == old(currentLedgerId) then old(writtenBytes) else sizeOf(Noop);
        pos.value == stored <==> written + sizeOf(edit) <= maxLogicalLogFileSize
      ensures pos.Some? && pos.value != stored ==>
        pos.value.After(stored) && currentLedgerId in bookKeeper.ledgers && bookKeeper.ledgers[currentLedgerId] == [Noop]
      // it is stored past everything in the ledgers up to the one current before
      ensures pos.Some? ==> PastAll(Place(stored.ledgerId, stored.sequenceNumber), old(bookKeeper.ledgers), old(currentLedgerId))
      // with nothing in the way the edit is answered, with the next position of the current ledger if it fits
      ensures old(!closed && CanAdd()) && old(bookKeeper.faults) == [] && old(writtenBytes) + sizeOf(edit) <= maxLogicalLogFileSize ==>
        pos == Some(LogSequenceNumber(old(currentLedgerId), |old(bookKeeper.ledgers[currentLedgerId])|))
      ensures old(!closed && CanAdd() && CanSave()) && old(bookKeeper.faults) == [] ==>
        pos.Some? && stored == LogSequenceNumber(old(currentLedgerId), |old(bookKeeper.ledgers[currentLedgerId])|)
      ensures old(!closed && writer != null) && old(writer.broken) && old(CanSave()) && old(bookKeeper.faults) == [] ==>
        pos.Some? && stored == LogSequenceNumber(old(bookKeeper.nextId), 1)
      // it throws for a reason
      ensures pos.None? ==>
        || old(closed) || old(writer) == null || |bookKeeper.faults| < |old(bookKeeper.faults)|
        || (!old(writer.broken) && old(currentLedgerId) in old(bookKeeper.fenced))
        || ((old(writer.broken) || old(writtenBytes) + sizeOf(edit) > maxLogicalLogFileSize) && !old(CanSave()))
      // losing the ledger closes the log and ends the session
      ensures old(!closed && writer != null) && !old(writer.broken) && old(Refuses()) ==>
        pos.None? && closed && writer == null && !cluster.session
    {
      assert Bytes(sizeOf, [edit]) == sizeOf(edit);
      var first, place := AppendRetrying([edit], now);
      if first.None? {
        return None, NOTHING;
      }
      assert bookKeeper.ledgers[place.ledger][place.first] == bookKeeper.ledgers[place.ledger][place.first..][0];
      lastSequenceNumber := first.value;
      return Some(LogSequenceNumber(currentLedgerId, first.value)), LogSequenceNumber(place.ledger, place.first);
    }

    /** What one call of `LogStatusEdit` leaves behind, whether it answers or throws. */
    static ghost predicate CallOk(c: Call) {
      && Keeps(c.before, c.after) && c.ledgerBefore <= c.ledgerAfter
      && (c.pos.Some? ==>
            && c.stored.ledgerId in c.after && 0 <= c.stored.sequenceNumber < |c.after[c.stored.ledgerId]|
            && c.ledgerBefore <= c.stored.ledgerId <= c.ledgerAfter
            && PastAll(Place(c.stored.ledgerId, c.stored.sequenceNumber), c.before, c.ledgerBefore))
    }

    /** No ledger from `low` on is lost, and none of them loses entries; retention drops only lower ones. */
    static ghost predicate KeepsFrom(before: map<int, seq<StatusEdit>>, after: map<int, seq<StatusEdit>>, low: int) {
      forall id :: id in before && id >= low ==> id in after && before[id] <= after[id]
    }

    /** Calls one after the other; in between ledgers may be opened, and ledgers below the one being written dropped. */
    static ghost predicate InSequence(cs: seq<Call>) {
      && (forall i :: 0 <= i < |cs| ==> CallOk(cs[i]))
      && (forall i, j :: 0 <= i && j == i + 1 && j < |cs| ==>
            KeepsFrom(cs[i].after, cs[j].before, cs[j].ledgerBefore) && cs[i].ledgerAfter <= cs[j].ledgerBefore)
    }

    /** When a later call begins, what an earlier one stored lies in a lower ledger or is still there. */
    static lemma {:induction false} StillStored(cs: seq<Call>, i: nat, j: nat)
      requires InSequence(cs) && i < j < |cs| && cs[i].pos.Some?
      ensures var p, before, low := cs[i].stored, cs[j].before, cs[j].ledgerBefore;
              p.ledgerId < low || (p.ledgerId == low && low in before && p.sequenceNumber < |before[low]|)
      decreases j
    {
      assert CallOk(cs[j - 1]);
      if j > i + 1 { StillStored(cs, i, j - 1); }
      assert KeepsFrom(cs[j - 1].after, cs[j].before, cs[j].ledgerBefore) && cs[j - 1].ledgerAfter <= cs[j].ledgerBefore;
    }

    /**
     * Over any run of calls, failed ones among them and old ledgers dropped in between, each edit is stored past all
     * earlier ones; so the positions of the calls that did not roll the ledger strictly increase.
     */
    static lemma PositionsIncrease(cs: seq<Call>, i: nat, j: nat)
      requires InSequence(cs) && i < j < |cs| && cs[i].pos.Some? && cs[j].pos.Some?
      ensures cs[j].stored.After(cs[i].stored)
      ensures cs[i].pos == Some(cs[i].stored) ==> cs[j].stored.After(cs[i].pos.value)
    {
      StillStored(cs, i, j);
      assert CallOk(cs[j]);
    }

    /** Append several edits: consecutive positions in request order, the last of them remembered. */
    method LogStatusEditBatch(edits: seq<StatusEdit>, now: int) returns (res: Option<seq<LogSequenceNumber>>, ghost place: Place)
      requires Valid()
      modifies Footprint()
      ensures Valid() && Keeps(old(bookKeeper.ledgers), bookKeeper.ledgers)
      ensures edits == [] ==> res == Some([]) && bookKeeper.ledgers == old(bookKeeper.ledgers)
      ensures edits != [] && (old(closed) || old(writer) == null) ==> res.None?
      ensures edits != [] && res.Some? ==>
        && StoredAt(place, edits) && |res.value| == |edits| && writtenBytes <= maxLogicalLogFileSize
        && (forall i :: 0 <= i < |edits| ==> res.value[i] == LogSequenceNumber(currentLedgerId, place.first + i))
        && lastSequenceNumber == place.first + |edits| - 1
        && PastAll(place, old(bookKeeper.ledgers), old(currentLedgerId))
      ensures edits != [] && res.Some? ==>
        var written := if place.ledger == old(currentLedgerId) then old(writtenBytes) else sizeOf(Noop);
        currentLedgerId == place.ledger <==> written + Bytes(sizeOf, edits) <= maxLogicalLogFileSize
      // with nothing in the way the edits are answered, with the next positions of the current ledger if they fit
      ensures old(!closed && CanAdd()) && old(bookKeeper.faults) == [] && old(writtenBytes) + Bytes(sizeOf, edits) <= maxLogicalLogFileSize ==>
        && res.Some? && |res.value| == |edits|
        && forall i :: 0 <= i < |edits| ==> res.value[i] == LogSequenceNumber(old(currentLedgerId), |old(bookKeeper.ledgers[currentLedgerId])| + i)
      ensures edits != [] && old(!closed && CanAdd() && CanSave()) && old(bookKeeper.faults) == [] ==>
        res.Some? && place == Place(old(currentLedgerId), |old(bookKeeper.ledgers[currentLedgerId])|)
      ensures edits != [] && old(!closed && writer != null) && old(writer.broken) && old(CanSave()) && old(bookKeeper.faults) == [] ==>
        res.Some? && place == Place(old(bookKeeper.nextId), 1)
      // they throw for a reason
      ensures res.None? ==>
        || old(closed) || old(writer) == null || |bookKeeper.faults| < |old(bookKeeper.faults)|
        || (!old(writer.broken) && old(currentLedgerId) in old(bookKeeper.fenced))
        || ((old(writer.broken) || old(writtenBytes) + Bytes(sizeOf, edits) > maxLogicalLogFileSize) && !old(CanSave()))
      // losing the ledger closes the log and ends the session
      ensures edits != [] && old(!closed && writer != null) && !old(writer.broken) && old(Refuses()) ==>
        res.None? && closed && writer == null && !cluster.session
    {
      place := Place(0, 0);
      if edits == [] {
        return Some([]), place;
      }
      var first;
      first, place := AppendRetrying(edits, now);
      if first.None? {
        return None, place;
      }
      var newSequenceNumbers := seq(|edits|, i requires 0 <= i < |edits| => first.value + i);
      var list := [];
      var last := newSequenceNumbers[0];
      for i := 0 to |newSequenceNumbers|
        invariant last == first.value + if i == 0 then 0 else i - 1
        invariant |list| == i && forall j :: 0 <= j < i ==> list[j] == LogSequenceNumber(currentLedgerId, first.value + j)
      {
        if last < newSequenceNumbers[i] {
          last := newSequenceNumbers[i];
        }
        list := list + [LogSequenceNumber(currentLedgerId, newSequenceNumbers[i])];
      }
      lastSequenceNumber := last;
      return Some(list), place;
    }

    // ---- Reading ----

    /**
     * The last entry a reader of ledger `id` sees: with recovery every entry, without it possibly fewer, as `visible`
     * says.
     */
    static function LastAddConfirmed(ledgers: map<int, seq<StatusEdit>>, id: int, fencing: bool, visible: Lengths): int
      requires id in ledgers
    {
      if fencing || id !in visible || visible[id] > |ledgers[id]| then |ledgers[id]| - 1 else visible[id] as int - 1
    }

    /** How many entries of each existing ledger the reader sees. */
    static ghost function Seen(ledgers: map<int, seq<StatusEdit>>, fencing: bool, visible: Lengths): Lengths {
      map id | id in ledgers :: (LastAddConfirmed(ledgers, id, fencing, visible) + 1) as nat
    }

    /**
     * Replay the listed ledgers after a snapshot's position, ledger by ledger and in windows of entries.  `delivered`
     * is what the consumer got; `ok` is false where the code throws.
     */
    method Recovery(snapshot: LogSequenceNumber, fencing: bool, visible: Lengths) returns (ok: bool, delivered: seq<LogSequenceNumber>)
      requires Valid() && writer == null && snapshot.sequenceNumber >= -1 && cluster.Readable()
      modifies this`actualLedgersList, this`currentLedgerId, bookKeeper`fenced, cluster.zk
      ensures Valid()
      ensures actualLedgersList != old(actualLedgersList) ==>
        fresh(actualLedgersList) && actualLedgersList.Value() == Listed(cluster.zk.server.node) && currentLedgerId == snapshot.ledgerId
      ensures ok ==>
        && actualLedgersList != old(actualLedgersList)
        && (snapshot.ledgerId > 0 ==> snapshot.ledgerId in actualLedgersList.activeLedgers)
        && Replayed(actualLedgersList.activeLedgers, Seen(bookKeeper.ledgers, fencing, visible), snapshot, delivered)
        && (fencing ==> AllFenced(actualLedgersList.activeLedgers, snapshot.ledgerId, bookKeeper.fenced))
      ensures !ok ==>
        || (actualLedgersList == old(actualLedgersList) && !Quiet(old(cluster.zk.script)) && delivered == [])
        || (snapshot.ledgerId > 0 && snapshot.ledgerId !in actualLedgersList.activeLedgers)
        || (exists id :: Unreadable(id, actualLedgersList.activeLedgers, snapshot))
    {
      var list := cluster.GetActualLedgersList();
      delivered := [];
      if list == null {
        return false, delivered;
      }
      actualLedgersList := list;
      currentLedgerId := snapshot.ledgerId;
      if currentLedgerId > 0 && currentLedgerId !in actualLedgersList.activeLedgers {
        return false, delivered;
      }
      ok, delivered := ReplayLedgers(actualLedgersList.activeLedgers, snapshot, fencing, visible);
    }

    /** `delivered` is what the ledgers not below the snapshot's hold after it. */
    static ghost predicate Replayed(ids: seq<int>, seen: Lengths, snapshot: LogSequenceNumber, delivered: seq<LogSequenceNumber>) {
      var reached := Following.Filter(ids, snapshot.ledgerId);
      Known(reached, seen) && delivered == EntriesAfter(reached, seen, snapshot)
    }

    static ghost predicate AllFenced(ids: seq<int>, low: int, fenced: set<int>) {
      forall id :: id in ids && id >= low ==> id in fenced
    }

    static lemma ReplayedStep(ids: seq<int>, i: nat, seen: Lengths, snapshot: LogSequenceNumber, delivered: seq<LogSequenceNumber>,
                              read: seq<LogSequenceNumber>)
      requires i < |ids| && Replayed(ids[..i], seen, snapshot, delivered)
      requires if ids[i] < snapshot.ledgerId then read == []
               else ids[i] in seen && read == Span(ids[i], if ids[i] == snapshot.ledgerId then snapshot.sequenceNumber + 1 else 0, seen[ids[i]])
      ensures Replayed(ids[..i + 1], seen, snapshot, delivered + read)
    {
      FilterStep(ids, i, snapshot.ledgerId);
      if ids[i] >= snapshot.ledgerId {
        EntriesAfterAppend(Following.Filter(ids[..i], snapshot.ledgerId), ids[i], seen, snapshot);
      } else {
        assert delivered + read == delivered;
      }
    }

    /** A listed ledger that recovery cannot read. */
    ghost predicate Unreadable(id: int, ids: seq<int>, snapshot: LogSequenceNumber)
      reads this, bookKeeper
    {
      id in ids && id >= snapshot.ledgerId && (id !in bookKeeper.ledgers || (snapshot.sequenceNumber < 0 && id == snapshot.ledgerId))
    }

    /** The loop over the listed ledgers; those below the snapshot's are skipped. */
    method ReplayLedgers(ids: seq<int>, snapshot: LogSequenceNumber, fencing: bool, visible: Lengths)
      returns (ok: bool, delivered: seq<LogSequenceNumber>)
      requires bookKeeper.Valid() && snapshot.sequenceNumber >= -1
      modifies bookKeeper`fenced
      ensures bookKeeper.Valid()
      ensures ok ==> Replayed(ids, Seen(bookKeeper.ledgers, fencing, visible), snapshot, delivered)
      ensures ok && fencing ==> AllFenced(ids, snapshot.ledgerId, bookKeeper.fenced)
      ensures !ok ==> exists id :: Unreadable(id, ids, snapshot)
    {
      ghost var seen := Seen(bookKeeper.ledgers, fencing, visible);
      delivered := [];
      var i := 0;
      while i < |ids|
        invariant 0 <= i <= |ids| && bookKeeper.Valid() && seen == Seen(bookKeeper.ledgers, fencing, visible)
        invariant Replayed(ids[..i], seen, snapshot, delivered)
        invariant fencing ==> AllFenced(ids[..i], snapshot.ledgerId, bookKeeper.fenced)
      {
        var ledgerId := ids[i];
        assert ids[..i + 1] == ids[..i] + [ledgerId];
        if ledgerId >= snapshot.ledgerId {
          var found, read := RecoverLedger(ledgerId, snapshot, fencing, visible);
          if !found {
            assert Unreadable(ledgerId, ids, snapshot);
            return false, delivered;
          }
          ReplayedStep(ids, i, seen, snapshot, delivered, read);
          delivered := delivered + read;
        } else {
          ReplayedStep(ids, i, seen, snapshot, delivered, []);
          assert delivered + [] == delivered;
        }
        i := i + 1;
      }
      assert ids[..|ids|] == ids;
      return true, delivered;
    }

    /** Open one ledger, with or without recovery, and replay what it holds after the snapshot. */
    method RecoverLedger(ledgerId: int, snapshot: LogSequenceNumber, fencing: bool, visible: Lengths)
      returns (ok: bool, read: seq<LogSequenceNumber>)
      requires bookKeeper.Valid() && ledgerId >= snapshot.ledgerId && snapshot.sequenceNumber >= -1
      modifies bookKeeper`fenced
      ensures bookKeeper.Valid() && old(bookKeeper.fenced) <= bookKeeper.fenced
      ensures ok ==> ledgerId in Seen(bookKeeper.ledgers, fencing, visible) && (fencing ==> ledgerId in bookKeeper.fenced)
      ensures ok ==> read == Span(ledgerId, if ledgerId == snapshot.ledgerId then snapshot.sequenceNumber + 1 else 0, Seen(bookKeeper.ledgers, fencing, visible)[ledgerId])
      ensures !ok ==> ledgerId !in bookKeeper.ledgers || (snapshot.sequenceNumber < 0 && ledgerId == snapshot.ledgerId)
    {
      read := [];
      if ledgerId !in bookKeeper.ledgers {
        return false, read;
      }
      if fencing {
        bookKeeper.fenced := bookKeeper.fenced + {ledgerId};
      }
      var first := if ledgerId == snapshot.ledgerId then snapshot.sequenceNumber else 0;
      var lastAddConfirmed := LastAddConfirmed(bookKeeper.ledgers, ledgerId, fencing, visible);
      if first < 0 && lastAddConfirmed >= 0 {
        return false, read;
      }
      read := ReadWindows(ledgerId, first, lastAddConfirmed, snapshot);
      return true, read;
    }

    static lemma FilterStep(ids: seq<int>, i: nat, low: int)
      requires i < |ids|
      ensures Following.Filter(ids[..i + 1], low) == if ids[i] >= low then Following.Filter(ids[..i], low) + [ids[i]] else Following.Filter(ids[..i], low)
    {
      assert ids[..i + 1] == ids[..i] + [ids[i]];
      Following.FilterJoin(ids[..i], ids[i], low);
    }

    /** Read entries `first`, ..., `last` of one ledger in windows, keeping those after the snapshot. */
    static method ReadWindows(ledgerId: int, first: int, last: int, snapshot: LogSequenceNumber) returns (read: seq<LogSequenceNumber>)
      requires ledgerId >= snapshot.ledgerId && snapshot.sequenceNumber >= -1 && (first >= 0 || last < 0)
      requires first == if ledgerId == snapshot.ledgerId then snapshot.sequenceNumber else 0
      ensures read == Span(ledgerId, if ledgerId == snapshot.ledgerId then snapshot.sequenceNumber + 1 else 0, last + 1)
    {
      var lo := if ledgerId == snapshot.ledgerId then snapshot.sequenceNumber + 1 else 0;
      read := [];
      if last >= 0 {
        var b := first;
        while b <= last
          invariant first <= b && (b <= last + 1 || b == first)
          invariant read == Span(ledgerId, lo, b)
          decreases last + 1 - b
        {
          var start := b;
          var end := b + BATCH_SIZE;
          if end > last {
            end := last;
          }
          b := end + 1;
          var e := start;
          while e <= end
            invariant start <= e <= end + 1
            invariant read == Span(ledgerId, lo, e)
          {
            var number := LogSequenceNumber(ledgerId, e);
            if number.After(snapshot) {
              SpanExtends(ledgerId, lo, e);
              read := read + [number];
            }
            e := e + 1;
          }
        }
        assert b == last + 1 || (Span(ledgerId, lo, b) == [] && Span(ledgerId, lo, last + 1) == []);
      }
    }

    /** Read the list again, check the leader node and open the first ledger. */
    method StartWriting(leader: Option<int>, now: int) returns (ok: bool)
      requires Valid() && writer == null && cluster.Readable()
      modifies Footprint()
      ensures Valid()
      ensures ok ==>
        && leader == Some(cluster.me) && Open() && Registered() && currentLedgerId == old(bookKeeper.nextId)
        && (Quiet(old(cluster.zk.script)) ==> actualLedgersList.Value() == Added(Listed(old(cluster.zk.server.node)), currentLedgerId, now))
        && bookKeeper.ledgers == old(bookKeeper.ledgers)[currentLedgerId := [Noop]]
      ensures leader != Some(cluster.me) ==>
        && !ok && bookKeeper.ledgers == old(bookKeeper.ledgers)
        && forall i :: |old(cluster.zk.server.history)| <= i < |cluster.zk.server.history| ==> cluster.zk.server.history[i].who != cluster.me
      // the owner of the leader node opens a ledger unless a call failed or another client wrote
      ensures leader == Some(cluster.me) && !ok ==> |bookKeeper.faults| < |old(bookKeeper.faults)| || !Quiet(old(cluster.zk.script))
    {
      var list := cluster.GetActualLedgersList();
      if list == null {
        return false;
      }
      actualLedgersList := list;
      if leader != Some(cluster.me) {
        return false;
      }
      ok := OpenNewLedger(now);
    }

    /**
     * One poll of the leader's ledgers.  A temporary error at the ledger with index `cut` ends it; `ok` is false where
     * the code throws, which it does for a listed ledger that is gone.
     */
    method FollowTheLeader(skipPast: LogSequenceNumber, visible: Lengths, cut: nat) returns (ok: bool, delivered: seq<LogSequenceNumber>)
      requires Valid() && writer == null && skipPast.ledgerId >= -1 && skipPast.sequenceNumber >= -1 && cluster.Readable()
      modifies this`lastSequenceNumber, this`currentLedgerId, cluster.zk
      ensures Valid()
      ensures AtLast(skipPast, delivered, old(currentLedgerId), old(lastSequenceNumber))
      // a list that cannot be read ends the poll with nothing delivered and no exception
      ensures
        var view := Following.View(Listed(cluster.zk.server.node).active, Seen(bookKeeper.ledgers, false, visible), cut);
        || (ok && delivered == [] && !Quiet(old(cluster.zk.script)))
        || ((ok <==> Known(Following.Opened(view, skipPast), view.len)) && (ok ==> delivered == Following.OnePoll(view, skipPast)))
    {
      var info := cluster.GetActualLedgersList();
      if info == null {
        return true, [];
      }
      ok, delivered := PollLedgers(Following.ToRead(info.activeLedgers, skipPast), skipPast, visible, cut);
    }

    /** The loop of a poll.  `nextEntry` goes back to 0 only after a ledger without new entries. */
    method PollLedgers(toRead: seq<int>, skipPast: LogSequenceNumber, visible: Lengths, cut: nat)
      returns (ok: bool, delivered: seq<LogSequenceNumber>)
      requires skipPast.sequenceNumber >= -1
      modifies this`lastSequenceNumber, this`currentLedgerId
      ensures AtLast(skipPast, delivered, old(currentLedgerId), old(lastSequenceNumber))
      ensures
        var reached, seen := if cut < |toRead| then toRead[..cut] else toRead, Seen(bookKeeper.ledgers, false, visible);
        (ok <==> Known(reached, seen)) && (ok ==> delivered == Following.Poll(reached, seen, skipPast.sequenceNumber + 1))
    {
      ghost var seen := Seen(bookKeeper.ledgers, false, visible);
      ghost var reached := if cut < |toRead| then toRead[..cut] else toRead;
      delivered := [];
      var nextEntry := skipPast.sequenceNumber + 1;
      var i := 0;
      PolledStart(reached, seen, nextEntry);
      while i < |toRead| && i != cut
        invariant Polled(reached, seen, skipPast.sequenceNumber + 1, i, delivered, nextEntry)
        invariant AtLast(skipPast, delivered, old(currentLedgerId), old(lastSequenceNumber))
      {
        ok, delivered, nextEntry := PollTurn(toRead[i], nextEntry, visible, delivered, skipPast, reached, i,
                                             old(currentLedgerId), old(lastSequenceNumber));
        if !ok {
          return false, delivered;
        }
        i := i + 1;
      }
      PolledAll(reached, seen, skipPast.sequenceNumber + 1, i, delivered, nextEntry);
      return true, delivered;
    }

    /** One turn of the loop: the ledger is read from `nextEntry`. */
    method PollTurn(previous: int, nextEntry: int, visible: Lengths, before: seq<LogSequenceNumber>, ghost skipPast: LogSequenceNumber,
                    ghost reached: seq<int>, ghost i: int, ghost ledgerBefore: int, ghost entryBefore: int)
      returns (ok: bool, delivered: seq<LogSequenceNumber>, next: int)
      requires Polled(reached, Seen(bookKeeper.ledgers, false, visible), skipPast.sequenceNumber + 1, i, before, nextEntry)
      requires i < |reached| && previous == reached[i] && AtLast(skipPast, before, ledgerBefore, entryBefore)
      modifies this`lastSequenceNumber, this`currentLedgerId
      ensures ok <==> previous in bookKeeper.ledgers
      ensures AtLast(skipPast, delivered, ledgerBefore, entryBefore)
      ensures ok ==> Polled(reached, Seen(bookKeeper.ledgers, false, visible), skipPast.sequenceNumber + 1, i + 1, delivered, next)
    {
      if previous !in bookKeeper.ledgers {
        return false, before, nextEntry;
      }
      PolledStep(reached, Seen(bookKeeper.ledgers, false, visible), skipPast.sequenceNumber + 1, i, before, nextEntry);
      var buffer := PollLedger(previous, nextEntry, visible);
      next := nextEntry;
      if buffer == [] {
        next := 0;
      }
      return true, before + buffer, next;
    }

    /** The new entries of one ledger, handed to the consumer. */
    method PollLedger(previous: int, nextEntry: int, visible: Lengths) returns (buffer: seq<LogSequenceNumber>)
      requires previous in bookKeeper.ledgers && nextEntry >= 0
      modifies this`lastSequenceNumber, this`currentLedgerId
      ensures buffer == Span(previous, nextEntry, Seen(bookKeeper.ledgers, false, visible)[previous])
      ensures LogSequenceNumber(currentLedgerId, lastSequenceNumber) ==
        if buffer == [] then old(LogSequenceNumber(currentLedgerId, lastSequenceNumber)) else buffer[|buffer| - 1]
    {
      var lastAddConfirmed := LastAddConfirmed(bookKeeper.ledgers, previous, false, visible);
      if nextEntry > lastAddConfirmed {
        return [];
      }
      buffer := ReadBuffer(previous, nextEntry, lastAddConfirmed);
      lastSequenceNumber, currentLedgerId := lastAddConfirmed, previous;
    }

    /** The log's position is the last one delivered. */
    ghost predicate AtLast(skipPast: LogSequenceNumber, delivered: seq<LogSequenceNumber>, ledgerBefore: int, entryBefore: int)
      reads this
    {
      LogSequenceNumber(currentLedgerId, lastSequenceNumber) ==
      if delivered == [] then LogSequenceNumber(ledgerBefore, entryBefore) else Following.Last(delivered, skipPast)
    }

    /** After `i` ledgers of a poll: what was delivered and what the rest will deliver make up the poll. */
    static ghost predicate Polled(reached: seq<int>, len: Lengths, first: int, i: int, delivered: seq<LogSequenceNumber>, nextEntry: int) {
      && 0 <= i <= |reached| && nextEntry >= 0 && Known(reached[..i], len)
      && (Known(reached, len) ==>
            Known(reached[i..], len) && Following.Poll(reached, len, first) == delivered + Following.Poll(reached[i..], len, nextEntry))
    }

    static lemma PolledStep(reached: seq<int>, len: Lengths, first: int, i: int, delivered: seq<LogSequenceNumber>, nextEntry: int)
      requires Polled(reached, len, first, i, delivered, nextEntry) && i < |reached| && reached[i] in len
      ensures var buffer := Span(reached[i], nextEntry, len[reached[i]]);
              Polled(reached, len, first, i + 1, delivered + buffer, if buffer == [] then 0 else nextEntry)
    {
      assert reached[..i + 1] == reached[..i] + [reached[i]];
      assert reached[i..][0] == reached[i] && reached[i..][1..] == reached[i + 1..];
    }

    static lemma PolledAll(reached: seq<int>, len: Lengths, first: int, i: int, delivered: seq<LogSequenceNumber>, nextEntry: int)
      requires Polled(reached, len, first, i, delivered, nextEntry) && i == |reached|
      ensures Known(reached, len) && delivered == Following.Poll(reached, len, first)
    {
      assert reached[i..] == [] && reached[..i] == reached;
    }

    static lemma PolledStart(reached: seq<int>, len: Lengths, first: int)
      requires first >= 0
      ensures Polled(reached, len, first, 0, [], first)
    {
      assert reached[0..] == reached;
    }

    /** Entries `from`, ..., `last` of one ledger, in order. */
    static method ReadBuffer(ledgerId: int, from: int, last: int) returns (buffer: seq<LogSequenceNumber>)
      requires 0 <= from <= last
      ensures buffer == Span(ledgerId, from, last + 1)
      ensures buffer[|buffer| - 1] == LogSequenceNumber(ledgerId, last)
    {
      buffer := [];
      var e := from;
      while e <= last
        invariant from <= e <= last + 1 && buffer == Span(ledgerId, from, e)
      {
        SpanExtends(ledgerId, from, e);
        buffer := buffer + [LogSequenceNumber(ledgerId, e)];
        e := e + 1;
      }
    }

    // ---- Booting ----

    /**
     * Choose what to boot from: a snapshot downloaded from the leader, else the latest one on disk if its ledger is
     * still listed, else an empty status if nothing was ever listed or the first ledger still is.
     */
    method LoadBrokerStatusSnapshot(download: Option<LogSequenceNumber>, disk: seq<LogSequenceNumber>) returns (boot: Boot)
      requires Valid() && writer == null && cluster.Readable()
      modifies this`currentLedgerId, cluster.zk
      ensures Valid()
      ensures download.Some? ==> boot == Downloaded(download.value)
      ensures boot.ListUnread? ==> !Quiet(old(cluster.zk.script))
      ensures download.None? && !boot.ListUnread? ==>
        var list := Listed(cluster.zk.server.node);
        && (boot.FromDisk? ==> Latest(disk, boot.position) && boot.position.ledgerId in list.active)
        && (boot.EmptyStatus? ==> list.first < 0 || list.first in list.active)
        && (boot.CannotBoot? ==> list.first >= 0 && list.first !in list.active)
        && (!boot.FromDisk? ==> !boot.Downloaded? && forall p :: Latest(disk, p) ==> p.ledgerId !in list.active)
    {
      if download.Some? {
        currentLedgerId := download.value.ledgerId;
        return Downloaded(download.value);
      }
      var latest: Option<LogSequenceNumber> := None;
      for i := 0 to |disk|
        invariant i == 0 ==> latest.None?
        invariant i > 0 ==> latest.Some? && Latest(disk[..i], latest.value)
      {
        assert disk[..i + 1] == disk[..i] + [disk[i]];
        if latest.None? || disk[i].After(latest.value) {
          latest := Some(disk[i]);
        }
      }
      assert disk[..|disk|] == disk;
      var info := cluster.GetActualLedgersList();
      if info == null {
        return ListUnread;
      }
      if latest.Some? {
        currentLedgerId := latest.value.ledgerId;
        if currentLedgerId in info.activeLedgers {
          return FromDisk(latest.value);
        }
      }
      currentLedgerId := -1;
      if info.firstLedger < 0 {
        return EmptyStatus;
      } else if info.firstLedger in info.activeLedgers {
        return EmptyStatus;
      } else {
        return CannotBoot;
      }
    }

    /** No snapshot on disk is later than `p`. */
    static ghost predicate Latest(disk: seq<LogSequenceNumber>, p: LogSequenceNumber) {
      p in disk && forall i :: 0 <= i < |disk| ==> !disk[i].After(p)
    }

    // ---- Retention ----

    /**
     * Drop the ledgers created before `limit` that lie below both the snapshot's ledger and the current one: each is
     * taken out of the saved list before it is deleted.
     */
    method DropOldLedgers(latest: LogSequenceNumber, limit: int) returns (outcome: DropOutcome)
      requires Valid() && Distinct(actualLedgersList.activeLedgers)
      modifies actualLedgersList, cluster.zk, bookKeeper
      ensures Valid()
      ensures outcome != DropUnlisted
      ensures DropResult(old(actualLedgersList.Value()), old(bookKeeper.ledgers), limit, Lower(latest.ledgerId, currentLedgerId), outcome)
      // the run is cut short only by a save that cannot go through or a deletion that fails
      ensures outcome == DropUnsaved ==> !old(CanSave())
      ensures outcome == DropUndeleted ==> |bookKeeper.faults| < |old(bookKeeper.faults)|
    {
      var oldLedgers := actualLedgersList.GetOldLedgers(limit);
      ghost var v, before := actualLedgersList.Value(), bookKeeper.ledgers;
      ghost var low := Lower(latest.ledgerId, currentLedgerId);
      ghost var gone: seq<int> := [];
      var i := 0;
      while i < |oldLedgers|
        invariant Valid() && DropState(v, before, gone) && DroppedTo(v, limit, low, i, gone)
        invariant |bookKeeper.faults| <= |old(bookKeeper.faults)| && (old(CanSave()) ==> CanSave())
      {
        outcome, gone := DropTurnOf(oldLedgers[i], latest, v, before, limit, i, gone);
        if outcome != Dropped {
          return;
        }
        i := i + 1;
      }
      AllDropped(v, limit, low, i, gone);
      return Dropped;
    }

    /** The loop has got past the first `i` old ledgers; `gone` are those it dropped. */
    static ghost predicate DroppedTo(v: LedgersData, limit: int, low: int, i: int, gone: seq<int>)
      requires v.Paired()
    {
      0 <= i <= |Old(v, limit)| && gone == Droppable(Old(v, limit)[..i], low)
    }

    static lemma AllDropped(v: LedgersData, limit: int, low: int, i: int, gone: seq<int>)
      requires v.Paired() && Distinct(v.active) && DroppedTo(v, limit, low, i, gone) && i == |Old(v, limit)|
      ensures gone == Gone(v, limit, low) && AfterDrops(v, gone) == Kept(v, limit, low)
    {
      assert Old(v, limit)[..i] == Old(v, limit);
      DropIsExact(v, limit, low);
    }

    /** One turn of the loop. */
    method DropTurnOf(ledgerId: int, latest: LogSequenceNumber, ghost v: LedgersData, ghost before: map<int, seq<StatusEdit>>, ghost limit: int,
                      ghost i: int, ghost gone: seq<int>)
      returns (outcome: DropOutcome, ghost after: seq<int>)
      requires Valid() && v.Paired() && Distinct(v.active) && DropState(v, before, gone)
      requires DroppedTo(v, limit, Lower(latest.ledgerId, currentLedgerId), i, gone) && i < |Old(v, limit)| && ledgerId == Old(v, limit)[i]
      modifies actualLedgersList, cluster.zk, bookKeeper
      ensures Valid() && outcome != DropUnlisted
      ensures outcome == Dropped ==> DropState(v, before, after) && DroppedTo(v, limit, Lower(latest.ledgerId, currentLedgerId), i + 1, after)
      ensures outcome != Dropped ==> CutShort(v, before, limit, Lower(latest.ledgerId, currentLedgerId), |gone| + 1)
      ensures DropReason(outcome)
    {
      ghost var low := Lower(latest.ledgerId, currentLedgerId);
      DropTurn(v, limit, low, i, gone);
      if ledgerId >= latest.ledgerId || ledgerId >= currentLedgerId {
        return Dropped, gone;
      }
      outcome := DropNext(ledgerId, v, before, limit, low, gone);
      after := gone + [ledgerId];
    }

    /** One turn: drop the next ledger, or stop with it unregistered at most in memory. */
    method DropNext(ledgerId: int, ghost v: LedgersData, ghost before: map<int, seq<StatusEdit>>, ghost limit: int, ghost low: int,
                    ghost gone: seq<int>)
      returns (outcome: DropOutcome)
      requires Valid() && ledgerId < currentLedgerId && v.Paired() && DropState(v, before, gone)
      requires gone + [ledgerId] <= Gone(v, limit, low) && ledgerId in AfterDrops(v, gone).active
      requires AfterDrops(v, gone + [ledgerId]) == Removed(AfterDrops(v, gone), ledgerId)
      modifies actualLedgersList, cluster.zk, bookKeeper
      ensures Valid() && outcome != DropUnlisted
      ensures outcome == Dropped ==> DropState(v, before, gone + [ledgerId])
      ensures outcome != Dropped ==> CutShort(v, before, limit, low, |gone| + 1)
      ensures DropReason(outcome)
    {
      outcome := DropLedger(ledgerId);
      DropOneMore(before, gone, ledgerId);
      PrefixEnds(gone, ledgerId, Gone(v, limit, low));
    }

    static lemma PrefixEnds(a: seq<int>, x: int, all: seq<int>)
      requires a + [x] <= all
      ensures all[..|a| + 1] == a + [x] && all[..|a|] == a
    {
    }

    /** The ledgers `gone` have been unregistered and deleted. */
    ghost predicate DropState(v: LedgersData, before: map<int, seq<StatusEdit>>, gone: seq<int>)
      requires v.Paired()
      reads this, cluster, cluster.zk, actualLedgersList, bookKeeper
    {
      && actualLedgersList.Value() == AfterDrops(v, gone)
      && bookKeeper.ledgers == before - Members(gone)
      && (gone != [] ==> Stored())
    }

    /** Why a drop stopped, and that it left nothing in the way of the next one. */
    twostate predicate DropReason(outcome: DropOutcome)
      reads this, cluster, cluster.zk, actualLedgersList, bookKeeper
    {
      && |bookKeeper.faults| <= |old(bookKeeper.faults)|
      && (outcome == Dropped && old(CanSave()) ==> CanSave())
      && (outcome == DropUnsaved ==> !old(CanSave()))
      && (outcome == DropUndeleted ==> |bookKeeper.faults| < |old(bookKeeper.faults)|)
    }

    /** Unregister one ledger, save the list, then delete it. */
    method DropLedger(ledgerId: int) returns (outcome: DropOutcome)
      requires Valid() && ledgerId < currentLedgerId
      modifies actualLedgersList, cluster.zk, bookKeeper
      ensures Valid()
      ensures outcome == DropUnlisted <==> ledgerId !in old(actualLedgersList.activeLedgers)
      ensures actualLedgersList.Value() == Removed(old(actualLedgersList.Value()), ledgerId)
      ensures outcome == Dropped ==> Stored() && bookKeeper.ledgers == old(bookKeeper.ledgers) - {ledgerId}
      ensures outcome == DropUndeleted ==> Stored()
      ensures outcome != Dropped ==> bookKeeper.ledgers == old(bookKeeper.ledgers)
      ensures DropReason(outcome)
    {
      var found := actualLedgersList.RemoveLedger(ledgerId);
      if !found {
        return DropUnlisted;
      }
      var saved := cluster.SaveActualLedgersList(actualLedgersList);
      if !saved {
        return DropUnsaved;
      }
      if ledgerId in bookKeeper.ledgers {
        var deleted := bookKeeper.DeleteLedger(ledgerId);
        if !deleted {
          return DropUndeleted;
        }
      }
      return Dropped;
    }

    /** The list node holds this broker's list. */
    ghost predicate Stored()
      reads cluster, cluster.zk, actualLedgersList, this
    {
      cluster.zk.server.node == Present(actualLedgersList.Value(), actualLedgersList.zkVersion)
    }

    /** A run that ends normally drops exactly the droppable ledgers; one cut short unregistered `n` of them and deleted one less. */
    ghost predicate DropResult(v: LedgersData, before: map<int, seq<StatusEdit>>, limit: int, low: int, outcome: DropOutcome)
      requires v.Paired()
      reads this, cluster, cluster.zk, actualLedgersList, bookKeeper
    {
      if outcome == Dropped
      then
        && actualLedgersList.Value() == Kept(v, limit, low)
        && bookKeeper.ledgers == before - Members(Gone(v, limit, low))
        && (Gone(v, limit, low) != [] ==> Stored())
      else exists n :: CutShort(v, before, limit, low, n)
    }

    ghost predicate CutShort(v: LedgersData, before: map<int, seq<StatusEdit>>, limit: int, low: int, n: int)
      requires v.Paired()
      reads this, actualLedgersList, bookKeeper
    {
      && 0 < n <= |Gone(v, limit, low)|
      && actualLedgersList.Value() == AfterDrops(v, Gone(v, limit, low)[..n])
      && bookKeeper.ledgers == before - Members(Gone(v, limit, low)[..n - 1])
    }

    static function Lower(a: int, b: int): int { if a < b then a else b }

    static function Members(ids: seq<int>): set<int> { set id | id in ids }

    static lemma DropOneMore(before: map<int, seq<StatusEdit>>, gone: seq<int>, id: int)
      ensures before - Members(gone + [id]) == before - Members(gone) - {id}
    {
      assert Members(gone + [id]) == Members(gone) + {id};
    }
  }

  datatype Boot = Downloaded(position: LogSequenceNumber) | FromDisk(position: LogSequenceNumber) | EmptyStatus | CannotBoot | ListUnread

  datatype DropOutcome = Dropped | DropUnlisted | DropUnsaved | DropUndeleted

  const BATCH_SIZE := 10000
}
