/** The broker's side of ZooKeeper: saving the ledger list by version, and the election callbacks. */
module ClusterManager {
  import opened Edits
  import opened Ledgers
  import Election

  // ---- The list node ----

  datatype Node = Absent | Present(data: LedgersData, version: int)

  /** One accepted write: by whom, from which expected version, and the versions before and after. */
  datatype Write = Write(who: int, expected: int, before: int, after: int)

  /** The node and every write it ever accepted. */
  datatype Server = Server(node: Node, history: seq<Write>)

  datatype Reply = Stat(version: int) | NoNode | BadVersion | NodeExists | ConnectionLoss | OtherError

  /** Another client, writing without a check. */
  const SOMEONE := -1

  /** A write succeeds only from the current version; -1 matches any. */
  function ServeSet(s: Server, who: int, data: LedgersData, expected: int): (Server, Reply) {
    match s.node
    case Absent => (s, NoNode)
    case Present(_, version) =>
      if expected == -1 || expected == version
      then (Server(Present(data, version + 1), s.history + [Write(who, expected, version, version + 1)]), Stat(version + 1))
      else (s, BadVersion)
  }

  function ServeCreate(s: Server, who: int, data: LedgersData): (Server, Reply) {
    match s.node
    case Absent => (Server(Present(data, 0), s.history + [Write(who, -1, -1, 0)]), Stat(0))
    case Present(_, _) => (s, NodeExists)
  }

  /** Other clients write between two calls. */
  function Interfere(s: Server, others: seq<LedgersData>): Server
    decreases |others|
  {
    if others == [] then s
    else
      var created := ServeCreate(s, SOMEONE, others[0]).0;
      Interfere(if s.node.Absent? then created else ServeSet(s, SOMEONE, others[0], -1).0, others[1..])
  }

  predicate Checked(w: Write) { w.before < w.after && (w.expected == -1 || w.expected == w.before) }

  /** Versions only grow, and a write accepted from a version replaced exactly that version. */
  ghost predicate Linear(s: Server) {
    && (forall i :: 0 <= i < |s.history| ==> Checked(s.history[i]))
    && (forall i, j :: 0 <= i < j < |s.history| ==> s.history[i].after <= s.history[j].before)
    && (s.node.Absent? ==> s.history == [])
    && (s.node.Present? ==> s.node.version >= 0 && forall i :: 0 <= i < |s.history| ==> s.history[i].after <= s.node.version)
  }

  datatype Op = Set(who: int, data: LedgersData, expected: int) | Make(who: int, data: LedgersData)

  function Serve(s: Server, ops: seq<Op>): Server
    decreases |ops|
  {
    if ops == [] then s
    else match ops[0]
      case Set(who, data, expected) => Serve(ServeSet(s, who, data, expected).0, ops[1..])
      case Make(who, data) => Serve(ServeCreate(s, who, data).0, ops[1..])
  }

  lemma {:induction false} ServeLinear(s: Server, ops: seq<Op>)
    requires Linear(s)
    ensures Linear(Serve(s, ops))
    decreases |ops|
  {
    if ops != [] {
      match ops[0]
      case Set(who, data, expected) => ServeLinear(ServeSet(s, who, data, expected).0, ops[1..]);
      case Make(who, data) => ServeLinear(ServeCreate(s, who, data).0, ops[1..]);
    }
  }

  /** Over any run of writes by any brokers, at most one write from the same version is accepted. */
  lemma OneSavePerVersion(s: Server, ops: seq<Op>, i: nat, j: nat)
    requires Linear(s)
    requires var h := Serve(s, ops).history; i < |h| && j < |h| && h[i].expected == h[j].expected && h[i].expected != -1
    ensures i == j
    ensures Serve(s, ops).history[i].before == Serve(s, ops).history[i].expected
  {
    ServeLinear(s, ops);
    var h := Serve(s, ops).history;
    assert Checked(h[i]) && Checked(h[j]);
  }

  /** After one save from `v` was accepted a second save from `v` is accepted if and only if `v` is -1. */
  lemma SecondSaveAcceptedIff(s: Server, a: int, first: LedgersData, b: int, second: LedgersData, v: int)
    requires s.node.Present? && s.node.version >= 0 && ServeSet(s, a, first, v).1.Stat?
    ensures ServeSet(ServeSet(s, a, first, v).0, b, second, v).1.Stat? <==> v == -1
  {
  }

  lemma {:induction false} InterfereLinear(s: Server, others: seq<LedgersData>)
    requires Linear(s)
    ensures var t := Interfere(s, others);
            && Linear(t) && s.history <= t.history && (s.node.Present? ==> t.node.Present? && s.node.version <= t.node.version)
            && forall i :: |s.history| <= i < |t.history| ==> t.history[i].who == SOMEONE
    decreases |others|
  {
    if others != [] {
      var next := if s.node.Absent? then ServeCreate(s, SOMEONE, others[0]).0 else ServeSet(s, SOMEONE, others[0], -1).0;
      InterfereLinear(next, others[1..]);
    }
  }

  // ---- The client ----

  /** What the network does to the next call, after what others wrote before it. */
  datatype Net = Net(others: seq<LedgersData>, fate: Election.Fate)

  /** The writes a broker made since `from`. */
  ghost predicate NoneBy(s: Server, me: int, from: nat) {
    forall i :: from <= i < |s.history| ==> s.history[i].who != me
  }

  ghost predicate OnlyOneBy(s: Server, me: int, from: nat, k: int) {
    from <= k < |s.history| && s.history[k].who == me && forall i :: from <= i < |s.history| && s.history[i].who == me ==> i == k
  }

  /** Of this broker's writes since `from` at most one was accepted, and that one replaced version `v`. */
  ghost predicate LandedOnce(s: Server, me: int, from: nat, v: int) {
    NoneBy(s, me, from) || exists k :: OnlyOneBy(s, me, from, k) && s.history[k].before == v
  }

  /** `t` extends `s` with writes of others and at most one write from `expected` by `me`, the last. */
  ghost predicate Extends(s: Server, t: Server, me: int, expected: int) {
    && Linear(t) && s.history <= t.history && (s.node.Present? ==> t.node.Present?)
    && (NoneBy(t, me, |s.history|) || LastIs(s, t, me, expected))
  }

  ghost predicate LastIs(s: Server, t: Server, me: int, expected: int) {
    OnlyOneBy(t, me, |s.history|, |t.history| - 1) && t.history[|t.history| - 1].expected == expected
  }

  /** A write served after others wrote since `s`: accepted it is the last one, refused it leaves no trace. */
  lemma SetExtends(s: Server, t: Server, me: int, data: LedgersData, expected: int)
    requires Linear(t) && me != SOMEONE && s.history <= t.history && (s.node.Present? ==> t.node.Present?) && NoneBy(t, me, |s.history|)
    ensures Extends(s, t, me, expected)
    ensures var (u, r) := ServeSet(t, me, data, expected);
            && Extends(s, u, me, expected)
            && (if r.Stat? then u.node == Present(data, r.version) && LastIs(s, u, me, expected) else u == t && NoneBy(u, me, |s.history|))
  {
    ServeLinear(t, [Set(me, data, expected)]);
    assert Serve(t, [Set(me, data, expected)]) == Serve(ServeSet(t, me, data, expected).0, []);
  }

  datatype Read = NodeRead(node: Node) | ReadLost | ReadFailed

  /** Nobody else writes, and what is served is answered: calls may only be lost before they are served. */
  ghost predicate Quiet(script: seq<Net>) {
    forall i :: 0 <= i < |script| ==> script[i].others == [] && (script[i].fate.Answered? || script[i].fate.NotServed?)
  }

  /** A connection.  When `script` runs out every call is answered. */
  class ZooKeeper {
    var server: Server
    var script: seq<Net>

    method NextFate() returns (fate: Election.Fate)
      requires Linear(server)
      modifies this
      ensures server == Interfere(old(server), if old(script) == [] then [] else old(script)[0].others)
      ensures script == if old(script) == [] then [] else old(script)[1..]
      ensures fate == if old(script) == [] then Election.Answered else old(script)[0].fate
    {
      if script == [] {
        fate := Election.Answered;
      } else {
        server := Interfere(server, script[0].others);
        fate := script[0].fate;
        script := script[1..];
      }
    }

    /** A call that the server serves may still end in ConnectionLoss. */
    method SetData(me: int, data: LedgersData, expected: int) returns (r: Reply)
      requires Linear(server) && me != SOMEONE
      modifies this
      ensures Extends(old(server), server, me, expected) && |script| <= |old(script)|
      ensures r.ConnectionLoss? ==> |script| < |old(script)|
      ensures r.NoNode? ==> server.node.Absent?
      ensures r.Stat? ==> server.node == Present(data, r.version) && LastIs(old(server), server, me, expected)
      ensures r.Stat? || r.ConnectionLoss? || NoneBy(server, me, |old(server.history)|)
      ensures r != NodeExists
      ensures r.BadVersion? ==> expected != -1 && server.node.Present? && server.node.version != expected
      ensures Quiet(old(script)) ==>
        && Quiet(script) && (!r.Stat? ==> server == old(server))
        && (r.ConnectionLoss? ||
              if old(server.node.Absent?) then r.NoNode?
              else if expected == -1 || expected == old(server.node.version) then r == Stat(old(server.node.version) + 1)
              else r.BadVersion?)
    {
      InterfereLinear(server, if script == [] then [] else script[0].others);
      var fate := NextFate();
      SetExtends(old(server), server, me, data, expected);
      match fate
      case NotServed => r := ConnectionLoss;
      case Refused => r := OtherError;
      case Answered => server, r := ServeSet(server, me, data, expected).0, ServeSet(server, me, data, expected).1;
      case ReplyLost => server, r := ServeSet(server, me, data, expected).0, ConnectionLoss;
    }

    /** The node as it is when the call is served. */
    method GetData() returns (r: Read)
      requires Linear(server) && PairedNode(server) && PairedScript(script)
      modifies this
      ensures Linear(server) && PairedNode(server) && PairedScript(script) && |script| <= |old(script)| && old(server.history) <= server.history
      ensures r.ReadLost? ==> |script| < |old(script)|
      ensures r.NodeRead? ==> r.node == server.node
      ensures forall i :: |old(server.history)| <= i < |server.history| ==> server.history[i].who == SOMEONE
      ensures Quiet(old(script)) ==> Quiet(script) && server == old(server) && !r.ReadFailed?
      ensures old(script) == [] ==> r.NodeRead?
    {
      InterfereLinear(server, if script == [] then [] else script[0].others);
      InterfereKeepsPairs(server, if script == [] then [] else script[0].others);
      var fate := NextFate();
      match fate
      case Answered => r := NodeRead(server.node);
      case ReplyLost => r := ReadLost;
      case NotServed => r := ReadLost;
      case Refused => r := ReadFailed;
    }

    method Create(me: int, data: LedgersData) returns (r: Reply)
      requires Linear(server) && me != SOMEONE
      modifies this
      ensures Linear(server) && |script| <= |old(script)| && old(server.history) <= server.history
      ensures r.ConnectionLoss? ==> |script| < |old(script)|
      ensures r == Stat(0) || r.NodeExists? || r.ConnectionLoss? || r.OtherError?
      ensures r == Stat(0) ==> server.node == Present(data, 0)
      ensures Quiet(old(script)) ==>
        && Quiet(script) && (r != Stat(0) ==> server == old(server))
        && (r.ConnectionLoss? || if old(server.node.Absent?) then r == Stat(0) else r.NodeExists?)
    {
      InterfereLinear(server, if script == [] then [] else script[0].others);
      var fate := NextFate();
      match fate
      case NotServed => r := ConnectionLoss;
      case Refused => r := OtherError;
      case Answered => server, r := ServeCreate(server, me, data).0, ServeCreate(server, me, data).1;
      case ReplyLost => server, r := ServeCreate(server, me, data).0, ConnectionLoss;
    }
  }

  // ---- What is read ----

  /** The list a node stands for. */
  function Listed(node: Node): LedgersData {
    if node.Present? then node.data else NO_LEDGERS
  }

  function VersionOf(node: Node): int {
    if node.Present? then node.version else -1
  }

  ghost predicate PairedNode(s: Server) {
    s.node.Present? ==> s.node.data.Paired()
  }

  /** Whatever anybody writes is a list of pairs. */
  ghost predicate PairedScript(script: seq<Net>) {
    forall i :: 0 <= i < |script| ==> PairedWrites(script[i].others)
  }

  ghost predicate PairedWrites(others: seq<LedgersData>) {
    forall i :: 0 <= i < |others| ==> others[i].Paired()
  }

  lemma {:induction false} InterfereKeepsPairs(s: Server, others: seq<LedgersData>)
    requires PairedNode(s) && PairedWrites(others)
    ensures PairedNode(Interfere(s, others))
    decreases |others|
  {
    if others != [] {
      var next := if s.node.Absent? then ServeCreate(s, SOMEONE, others[0]).0 else ServeSet(s, SOMEONE, others[0], -1).0;
      InterfereKeepsPairs(next, others[1..]);
    }
  }

  // ---- The broker ----

  datatype Attempt = Saved(version: int) | Again | Thrown

  datatype Code = OK | CONNECTIONLOSS | NODEEXISTS | NONODE | OTHER

  datatype EventType = NodeDeletedEvent | NodeDataChangedEvent | OtherEvent

  class ZKClusterManager {
    const me: int
    const zk: ZooKeeper
    var session: bool
    var state: Election.MasterState
    var requests: seq<Election.Request>
    var callbacks: seq<Election.Callback>
    var watching: bool
    var lost: bool

    constructor (me: int, zk: ZooKeeper)
      ensures this.me == me && this.zk == zk
      ensures View() == Election.Client(true, Election.NOTELECTED, [], [], false, false)
    {
      this.me, this.zk := me, zk;
      session, state, requests, callbacks, watching, lost := true, Election.NOTELECTED, [], [], false, false;
    }

    function View(): Election.Client
      reads this
    {
      Election.Client(session, state, requests, callbacks, watching, lost)
    }

    /**
     * Save the list from the version it was read or last saved at, creating the node if need be, retrying as long as
     * the connection breaks.  `saved` is false where the code throws.
     */
    method SaveActualLedgersList(info: LedgersInfo) returns (saved: bool)
      requires info.Valid() && Linear(zk.server) && me != SOMEONE
      modifies info`zkVersion, zk
      ensures Linear(zk.server) && old(zk.server.history) <= zk.server.history
      // a save that returns is the last write, and the list is at the node's version
      ensures saved ==> zk.server.node == Present(info.Value(), info.zkVersion) && zk.server.history != []
      ensures saved ==> var last := zk.server.history[|zk.server.history| - 1]; last.who == me && last.expected == old(info.zkVersion)
      ensures !saved ==> info.zkVersion == old(info.zkVersion)
      // from a version, at most one write of this broker lands, it replaced that version, and if the save returned it is that one
      ensures old(info.zkVersion) >= 0 && old(zk.server.node.Present?) ==>
        && LandedOnce(zk.server, me, |old(zk.server.history)|, old(info.zkVersion))
        && (saved ==> OnlyOneBy(zk.server, me, |old(zk.server.history)|, |zk.server.history| - 1))
      // with no other writer and no reply lost, the save goes through exactly from the node's version, 0 for a node it creates
      ensures Quiet(old(zk.script)) ==> Quiet(zk.script)
      ensures Quiet(old(zk.script)) ==> (saved <==>
        old(info.zkVersion) == -1 || old(info.zkVersion) == if old(zk.server.node.Present?) then old(zk.server.node.version) else 0)
    {
      ghost var from := |zk.server.history|;
      ghost var v := info.zkVersion;
      ghost var present := zk.server.node.Present?;
      while true
        invariant Linear(zk.server) && old(zk.server.history) <= zk.server.history
        invariant info.zkVersion == v
        invariant present ==> zk.server.node.Present?
        invariant v >= 0 && present ==> LandedOnce(zk.server, me, from, v)
        invariant Quiet(old(zk.script)) ==>
          && Quiet(zk.script) && (present ==> zk.server == old(zk.server))
          && (!present && zk.server.node.Present? ==> zk.server.node.version == 0)
        decreases |zk.script|, if zk.server.node.Absent? then 1 else 0
      {
        ghost var before := zk.server;
        var attempt := TrySave(info);
        if v >= 0 && present { OneLanding(before, zk.server, me, from, v); }
        match attempt
        case Saved(version) =>
          info.zkVersion := version;
          return true;
        case Again =>
        case Thrown => return false;
      }
    }

    /** One turn of the retry loop. */
    method TrySave(info: LedgersInfo) returns (attempt: Attempt)
      requires info.Valid() && Linear(zk.server) && me != SOMEONE
      modifies zk
      ensures Linear(zk.server) && old(zk.server.history) <= zk.server.history
      ensures old(zk.server.node.Present?) ==> Extends(old(zk.server), zk.server, me, info.zkVersion)
      ensures attempt.Saved? ==> zk.server.node == Present(info.Value(), attempt.version) && LastIs(old(zk.server), zk.server, me, info.zkVersion)
      ensures attempt.Again? ==>
        |zk.script| < |old(zk.script)| || (|zk.script| <= |old(zk.script)| && old(zk.server.node.Absent?) && zk.server.node.Present?)
      ensures Quiet(old(zk.script)) ==>
        && Quiet(zk.script)
        && (old(zk.server.node.Absent?) ==>
              attempt.Again? && (zk.server == old(zk.server) || zk.server.node == Present(info.Value(), 0)))
        && (old(zk.server.node.Present?) ==>
              && (!attempt.Saved? ==> zk.server == old(zk.server))
              && (attempt.Saved? ==> info.zkVersion == -1 || info.zkVersion == old(zk.server.node.version))
              && (attempt.Thrown? ==> info.zkVersion != -1 && info.zkVersion != old(zk.server.node.version)))
    {
      var stat := zk.SetData(me, info.Value(), info.zkVersion);
      match stat
      case Stat(version) => attempt := Saved(version);
      case NoNode =>
        var created := zk.Create(me, info.Value());
        attempt := if created.NodeExists? || created.OtherError? then Thrown else Again;
      case ConnectionLoss => attempt := Again;
      case _ => attempt := Thrown;
    }

    /**
     * The list as stored, or an empty one at version -1 where no node exists; read again as long as the connection
     * breaks.  Nothing where the code throws.
     */
    method GetActualLedgersList() returns (info: LedgersInfo?)
      requires Readable()
      modifies zk
      ensures Readable() && old(zk.server.history) <= zk.server.history && |zk.script| <= |old(zk.script)|
      ensures forall i :: |old(zk.server.history)| <= i < |zk.server.history| ==> zk.server.history[i].who == SOMEONE
      ensures info != null ==> fresh(info) && info.Valid() && info.Value() == Listed(zk.server.node) && info.zkVersion == VersionOf(zk.server.node)
      ensures Quiet(old(zk.script)) ==> info != null && zk.server == old(zk.server) && Quiet(zk.script)
    {
      while true
        invariant Readable() && old(zk.server.history) <= zk.server.history && |zk.script| <= |old(zk.script)|
        invariant forall i :: |old(zk.server.history)| <= i < |zk.server.history| ==> zk.server.history[i].who == SOMEONE
        invariant Quiet(old(zk.script)) ==> zk.server == old(zk.server) && Quiet(zk.script)
        decreases |zk.script|
      {
        var r := zk.GetData();
        if r.ReadFailed? { return null; }
        if r.NodeRead? {
          if r.node.Absent? {
            info := new LedgersInfo.Deserialize(None, -1);
          } else {
            info := new LedgersInfo.Deserialize(Some(r.node.data), r.node.version);
          }
          return;
        }
      }
    }

    ghost predicate Readable()
      reads this, zk
    {
      Linear(zk.server) && PairedNode(zk.server) && PairedScript(zk.script)
    }

    // ---- Election callbacks ----

    method RequestLeadership()
      modifies this`requests
      ensures View() == Election.Ask(old(View()), Election.Create)
    {
      requests := requests + [Election.Create];
    }

    method CheckMaster()
      modifies this`requests
      ensures View() == Election.Ask(old(View()), Election.GetData)
    {
      requests := requests + [Election.GetData];
    }

    method MasterExists()
      modifies this`requests
      ensures View() == Election.Ask(old(View()), Election.Exists)
    {
      requests := requests + [Election.Exists];
    }

    method MasterCreateCallback(code: Code)
      modifies this`requests, this`state
      ensures View() == Election.React(me, old(View()), match code
        case OK => Election.Created
        case CONNECTIONLOSS => Election.CreateLost
        case NODEEXISTS => Election.NodeExists
        case _ => Election.CreateOther)
      // the winner takes the lead, the loser stands back, and both set a watch; an unknown outcome is looked up
      ensures state == if code == OK then Election.ELECTED else if code == NODEEXISTS then Election.NOTELECTED else old(state)
      ensures requests == old(requests) +
        if code == OK || code == NODEEXISTS then [Election.Exists] else if code == CONNECTIONLOSS then [Election.GetData] else []
    {
      match code
      case CONNECTIONLOSS => CheckMaster();
      case OK =>
        state := Election.ELECTED;
        MasterExists();
      case NODEEXISTS =>
        state := Election.NOTELECTED;
        MasterExists();
      case _ =>
    }

    method MasterCheckCallback(code: Code, data: int)
      modifies this`requests, this`lost
      ensures View() == Election.React(me, old(View()), match code
        case OK => Election.Data(data)
        case CONNECTIONLOSS => Election.DataLost
        case NONODE => Election.NoNode
        case _ => Election.DataOther)
      // a leader that reads another broker's name has lost the leadership; a missing node is a chance to lead
      ensures lost == (old(lost) || (code == OK && state == Election.ELECTED && data != me))
      ensures requests == old(requests) +
        if code == NONODE then [Election.Create] else if code == OK || code == CONNECTIONLOSS then [Election.GetData] else []
    {
      match code
      case CONNECTIONLOSS => CheckMaster();
      case NONODE => RequestLeadership();
      case OK =>
        if state == Election.ELECTED && data != me {
          lost := true;
        }
        CheckMaster();
      case _ =>
    }

    method MasterExistsCallback(code: Code, stat: bool)
      modifies this`requests, this`state
      ensures View() == Election.React(me, old(View()), match code
        case OK => Election.ExistsOk(stat)
        case CONNECTIONLOSS => Election.ExistsLost
        case _ => Election.ExistsOther)
      // a watch on a node that is there waits for it to go
      ensures state == if code == OK && !stat then Election.RUNNING else old(state)
      ensures requests == old(requests) +
        if code == OK then (if stat then [] else [Election.Create]) else if code == CONNECTIONLOSS then [Election.Exists] else [Election.GetData]
    {
      match code
      case CONNECTIONLOSS => MasterExists();
      case OK =>
        if !stat {
          state := Election.RUNNING;
          RequestLeadership();
        }
      case _ => CheckMaster();
    }

    /** The watcher ignores everything but deletions and changes. */
    method Process(e: EventType)
      modifies this`requests
      ensures e.OtherEvent? ==> View() == old(View())
      ensures !e.OtherEvent? ==>
        View() == Election.React(me, old(View()), if e.NodeDeletedEvent? then Election.NodeDeleted else Election.NodeDataChanged)
      // when the leader node goes this broker asks to be the next leader
      ensures e.NodeDeletedEvent? ==> requests == old(requests) + [Election.Create]
      ensures e.NodeDataChangedEvent? ==> requests == old(requests) + [Election.GetData]
    {
      match e
      case NodeDeletedEvent => RequestLeadership();
      case NodeDataChangedEvent => CheckMaster();
      case OtherEvent =>
    }
  }

  /** A second landing from the same version is impossible: the first one left the node past it. */
  lemma OneLanding(s: Server, t: Server, me: int, from: nat, v: int)
    requires Linear(s) && Extends(s, t, me, v) && from <= |s.history| && v >= 0
    requires LandedOnce(s, me, from, v)
    ensures LandedOnce(t, me, from, v)
    ensures LastIs(s, t, me, v) ==> OnlyOneBy(t, me, from, |t.history| - 1)
  {
    var last := |t.history| - 1;
    if NoneBy(s, me, from) {
      if LastIs(s, t, me, v) {
        assert Checked(t.history[last]);
        assert OnlyOneBy(t, me, from, last);
      }
    } else {
      var k :| OnlyOneBy(s, me, from, k) && s.history[k].before == v;
      assert t.history[k] == s.history[k];
      NotTwice(t, k, last);
      assert NoneBy(t, me, |s.history|);
      assert OnlyOneBy(t, me, from, k);
    }
  }

  lemma NotTwice(t: Server, k: nat, last: nat)
    requires Linear(t) && k < |t.history| && last < |t.history|
    requires t.history[k].before >= 0
    ensures k < last ==> t.history[last].expected != t.history[k].before
  {
    assert Checked(t.history[k]) && Checked(t.history[last]);
  }
}
