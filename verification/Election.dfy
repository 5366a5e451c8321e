/**
 * Leader election over one ephemeral node.  Requests are served, and callbacks delivered, in any order; replies may be
 * lost; sessions expire at any moment.
 */
module Election {

  datatype MasterState = ELECTED | NOTELECTED | RUNNING

  datatype Request = Create | GetData | Exists

  datatype Callback =
    | Created | CreateLost | NodeExists | CreateOther
    | Data(owner: int) | DataLost | NoNode | DataOther
    | ExistsOk(found: bool) | ExistsLost | ExistsOther
    | NodeDeleted | NodeDataChanged

  /** `lost`: leadershipLost was signalled.  `watching`: a watch on the leader node is set. */
  datatype Client = Client(session: bool, state: MasterState, requests: seq<Request>, callbacks: seq<Callback>, watching: bool, lost: bool)

  /** `owner` is the broker whose session created the leader node, or NOBODY. */
  datatype Ensemble = Ensemble(owner: int, clients: map<int, Client>)

  const NOBODY := -1

  /** What happens to a request: served and answered, served with the reply lost, or not served at all. */
  datatype Fate = Answered | ReplyLost | NotServed | Refused

  datatype Event =
    | Start(b: int)
    | RequestLeadership(b: int)
    | Serve(b: int, index: nat, fate: Fate, nullStat: bool)
    | Deliver(b: int, index: nat)
    | Expire(b: int)
    | ExternalDelete

  function Without<T>(s: seq<T>, i: nat): seq<T>
    requires i < |s|
  {
    s[..i] + s[i + 1..]
  }

  function Ask(c: Client, r: Request): Client { c.(requests := c.requests + [r]) }

  function Tell(c: Client, e: Callback): Client { c.(callbacks := c.callbacks + [e]) }

  /** The reply to a request whose connection broke. */
  function LostReply(r: Request): Callback {
    match r case Create => CreateLost case GetData => DataLost case Exists => ExistsLost
  }

  function OtherReply(r: Request): Callback {
    match r case Create => CreateOther case GetData => DataOther case Exists => ExistsOther
  }

  /** The reply of a server that holds the node on behalf of `owner`. */
  function Reply(r: Request, owner: int, nullStat: bool): Callback {
    match r
    case Create => if owner == NOBODY then Created else NodeExists
    case GetData => if owner == NOBODY then NoNode else Data(owner)
    case Exists => if owner != NOBODY then ExistsOk(true) else if nullStat then ExistsOk(false) else ExistsOther
  }

  /** The client's callbacks and watcher. */
  function React(b: int, c: Client, e: Callback): Client {
    match e
    case Created => Ask(c.(state := ELECTED), Exists)
    case CreateLost => Ask(c, GetData)
    case NodeExists => Ask(c.(state := NOTELECTED), Exists)
    case CreateOther => c
    case Data(owner) => Ask(if c.state == ELECTED && owner != b then c.(lost := true) else c, GetData)
    case DataLost => Ask(c, GetData)
    case NoNode => Ask(c, Create)
    case DataOther => c
    case ExistsOk(found) => if found then c else Ask(c.(state := RUNNING), Create)
    case ExistsLost => Ask(c, Exists)
    case ExistsOther => Ask(c, GetData)
    case NodeDeleted => Ask(c, Create)
    case NodeDataChanged => Ask(c, GetData)
  }

  /** The node disappears and every watch on it fires. */
  function Deleted(s: Ensemble): Ensemble {
    Ensemble(NOBODY, map c | c in s.clients ::
      if s.clients[c].watching then Tell(s.clients[c].(watching := false), NodeDeleted) else s.clients[c])
  }

  function Step(external: bool, s: Ensemble, e: Event): Ensemble {
    match e
    case Start(b) =>
      if b in s.clients || b == NOBODY then s
      else s.(clients := s.clients[b := Client(true, NOTELECTED, [], [], false, false)])
    case RequestLeadership(b) =>
      if b in s.clients then s.(clients := s.clients[b := Ask(s.clients[b], Create)]) else s
    case Serve(b, i, fate, nullStat) =>
      if b in s.clients && i < |s.clients[b].requests| then StepServe(s, b, i, fate, nullStat) else s
    case Deliver(b, i) =>
      if b in s.clients && i < |s.clients[b].callbacks|
      then
        var c := s.clients[b];
        s.(clients := s.clients[b := React(b, c.(callbacks := Without(c.callbacks, i)), c.callbacks[i])])
      else s
    case Expire(b) =>
      if b in s.clients
      then
        var t := s.(clients := s.clients[b := s.clients[b].(session := false)]);
        if s.owner == b then Deleted(t) else t
      else s
    case ExternalDelete => if external then Deleted(s) else s
  }

  /** A dead session gets no request served. */
  function StepServe(s: Ensemble, b: int, i: nat, fate: Fate, nullStat: bool): Ensemble
    requires b in s.clients && i < |s.clients[b].requests|
  {
    var c := s.clients[b];
    var r := c.requests[i];
    var waiting := c.(requests := Without(c.requests, i));
    if fate == NotServed || fate == Refused || !c.session
    then s.(clients := s.clients[b := Tell(waiting, if fate == Refused then OtherReply(r) else LostReply(r))])
    else
      var told := Tell(waiting, if fate == Answered then Reply(r, s.owner, nullStat) else LostReply(r));
      Ensemble(if r == Create && s.owner == NOBODY then b else s.owner,
               s.clients[b := if r == Create then told else told.(watching := true)])
  }

  function Exec(external: bool, s: Ensemble, es: seq<Event>): Ensemble
    decreases |es|
  {
    if es == [] then s else Exec(external, Step(external, s, es[0]), es[1..])
  }

  const EMPTY := Ensemble(NOBODY, map[])

  /** A broker that is ELECTED, or about to learn it is, and whose session lives, owns the node. */
  ghost predicate Owns(s: Ensemble) {
    forall b :: b in s.clients && s.clients[b].session && (s.clients[b].state == ELECTED || Created in s.clients[b].callbacks) ==>
      s.owner == b && b != NOBODY
  }

  predicate LiveElected(s: Ensemble, b: int) {
    b in s.clients && s.clients[b].session && s.clients[b].state == ELECTED
  }

  /** At most one live session is ELECTED. */
  ghost predicate OneElected(s: Ensemble) {
    forall b, c :: LiveElected(s, b) && LiveElected(s, c) ==> b == c
  }

  ghost predicate Named(s: Ensemble) {
    NOBODY !in s.clients
  }

  lemma WithoutMembers<T>(s: seq<T>, i: nat, x: T)
    requires i < |s|
    ensures x in Without(s, i) ==> x in s
    ensures x in s ==> x == s[i] || x in Without(s, i)
  {
    if x in s && x != s[i] {
      var k :| 0 <= k < |s| && s[k] == x;
      assert Without(s, i)[if k < i then k else k - 1] == x;
    }
  }

  lemma ServeOwns(s: Ensemble, b: int, i: nat, fate: Fate, nullStat: bool)
    requires Owns(s) && Named(s) && b in s.clients && i < |s.clients[b].requests|
    ensures Owns(StepServe(s, b, i, fate, nullStat)) && Named(StepServe(s, b, i, fate, nullStat))
  {
    var t := StepServe(s, b, i, fate, nullStat);
    var r := s.clients[b].requests[i];
    forall c | c in t.clients && t.clients[c].session && (t.clients[c].state == ELECTED || Created in t.clients[c].callbacks)
      ensures t.owner == c && c != NOBODY
    {
      if c == b {
        assert t.clients[b].callbacks[..|s.clients[b].callbacks|] == s.clients[b].callbacks;
      }
    }
  }

  lemma DeliverOwns(s: Ensemble, b: int, i: nat)
    requires Owns(s) && Named(s) && b in s.clients && i < |s.clients[b].callbacks|
    ensures Owns(Step(false, s, Deliver(b, i))) && Named(Step(false, s, Deliver(b, i)))
  {
    WithoutMembers(s.clients[b].callbacks, i, Created);
  }

  lemma DeletedOwns(s: Ensemble, b: int)
    requires Owns(s) && Named(s) && b in s.clients && s.owner == b
    ensures var t := s.(clients := s.clients[b := s.clients[b].(session := false)]); Owns(Deleted(t)) && Named(Deleted(t))
  {
    var t := s.(clients := s.clients[b := s.clients[b].(session := false)]);
    forall c | c in t.clients && t.clients[c].session
      ensures Deleted(t).clients[c].state != ELECTED && Created !in Deleted(t).clients[c].callbacks
    {
      assert s.clients[c].session;
    }
  }

  lemma StepOwns(s: Ensemble, e: Event)
    requires Owns(s) && Named(s)
    ensures Owns(Step(false, s, e)) && Named(Step(false, s, e))
  {
    match e
    case Start(b) =>
    case RequestLeadership(b) =>
    case Serve(b, i, fate, nullStat) =>
      if b in s.clients && i < |s.clients[b].requests| { ServeOwns(s, b, i, fate, nullStat); }
    case Deliver(b, i) =>
      if b in s.clients && i < |s.clients[b].callbacks| { DeliverOwns(s, b, i); }
    case Expire(b) =>
      if b in s.clients && s.owner == b { DeletedOwns(s, b); }
    case ExternalDelete =>
  }

  lemma {:induction false} RunOwns(s: Ensemble, es: seq<Event>)
    requires Owns(s) && Named(s)
    ensures Owns(Exec(false, s, es))
    decreases |es|
  {
    if es != [] {
      StepOwns(s, es[0]);
      RunOwns(Step(false, s, es[0]), es[1..]);
    }
  }

  /** Broker 0 is elected, its node is deleted from outside, broker 1 is elected too. */
  function DeletionRun(): seq<Event> {
    [Start(0), Start(1), RequestLeadership(0), Serve(0, 0, Answered, false), Deliver(0, 0), ExternalDelete,
     RequestLeadership(1), Serve(1, 0, Answered, false), Deliver(1, 0)]
  }

  lemma ExecNext(external: bool, s: Ensemble, e: Event, rest: seq<Event>)
    ensures Exec(external, s, [e] + rest) == Exec(external, Step(external, s, e), rest)
  {
    assert ([e] + rest)[1..] == rest;
  }

  function Fresh(): Client { Client(true, NOTELECTED, [], [], false, false) }

  lemma FirstElected()
    ensures Exec(true, EMPTY, DeletionRun()) ==
            Exec(true, Ensemble(0, map[0 := Client(true, ELECTED, [Exists], [], false, false), 1 := Fresh()]), DeletionRun()[5..])
  {
    var r := DeletionRun();
    assert r == [r[0]] + ([r[1]] + ([r[2]] + ([r[3]] + ([r[4]] + r[5..]))));
    ExecNext(true, EMPTY, r[0], [r[1]] + ([r[2]] + ([r[3]] + ([r[4]] + r[5..]))));
    var s1 := Step(true, EMPTY, r[0]);
    ExecNext(true, s1, r[1], [r[2]] + ([r[3]] + ([r[4]] + r[5..])));
    var s2 := Step(true, s1, r[1]);
    assert s2 == Ensemble(NOBODY, map[0 := Fresh(), 1 := Fresh()]);
    ExecNext(true, s2, r[2], [r[3]] + ([r[4]] + r[5..]));
    var s3 := Step(true, s2, r[2]);
    assert s3 == Ensemble(NOBODY, map[0 := Fresh().(requests := [Create]), 1 := Fresh()]);
    ExecNext(true, s3, r[3], [r[4]] + r[5..]);
    var s4 := Step(true, s3, r[3]);
    assert s4 == Ensemble(0, map[0 := Fresh().(callbacks := [Created]), 1 := Fresh()]);
    ExecNext(true, s4, r[4], r[5..]);
    assert Without(s4.clients[0].callbacks, 0) == [];
    assert React(0, Fresh(), Created).requests == [Exists];
    assert Step(true, s4, r[4]).clients[0] == React(0, Fresh(), Created);
    assert Step(true, s4, r[4]) == Ensemble(0, map[0 := Client(true, ELECTED, [Exists], [], false, false), 1 := Fresh()]);
  }

  lemma SecondElected(s: Ensemble)
    requires s == Ensemble(0, map[0 := Client(true, ELECTED, [Exists], [], false, false), 1 := Fresh()])
    ensures !OneElected(Exec(true, s, DeletionRun()[5..]))
  {
    var r := DeletionRun()[5..];
    assert r == [r[0]] + ([r[1]] + ([r[2]] + ([r[3]] + [])));
    ExecNext(true, s, r[0], [r[1]] + ([r[2]] + ([r[3]] + [])));
    var s1 := Step(true, s, r[0]);
    assert s1 == Ensemble(NOBODY, s.clients);
    ExecNext(true, s1, r[1], [r[2]] + ([r[3]] + []));
    var s2 := Step(true, s1, r[1]);
    assert s2 == Ensemble(NOBODY, s.clients[1 := Fresh().(requests := [Create])]);
    ExecNext(true, s2, r[2], [r[3]] + []);
    var s3 := Step(true, s2, r[2]);
    assert s3 == Ensemble(1, s.clients[1 := Fresh().(callbacks := [Created])]);
    ExecNext(true, s3, r[3], []);
    var s4 := Step(true, s3, r[3]);
    assert LiveElected(s4, 0) && LiveElected(s4, 1);
  }

  /** Two live brokers are never both ELECTED, over every run, if and only if nobody deletes the leader node from outside. */
  lemma OneElectedExactly(external: bool)
    ensures (forall es :: OneElected(Exec(external, EMPTY, es))) <==> !external
  {
    if external {
      FirstElected();
      SecondElected(Ensemble(0, map[0 := Client(true, ELECTED, [Exists], [], false, false), 1 := Fresh()]));
      assert !OneElected(Exec(external, EMPTY, DeletionRun()));
    } else {
      forall es ensures OneElected(Exec(external, EMPTY, es)) { RunOwns(EMPTY, es); }
    }
  }

  /** A live ELECTED broker owns the leader node, over every run without external deletion. */
  lemma ElectedOwnsNode(es: seq<Event>, b: int)
    requires LiveElected(Exec(false, EMPTY, es), b)
    ensures Exec(false, EMPTY, es).owner == b
  {
    RunOwns(EMPTY, es);
  }
}
