/** The election goes on: a broker that asked for the leadership never falls silent and can always take over a free node. */
module ElectionProgress {
  import opened Election

  /** A request or a callback that will lead to another request; that the node exists leads to none. */
  predicate Stirs(c: Client) {
    c.requests != [] || exists i :: 0 <= i < |c.callbacks| && c.callbacks[i] != ExistsOk(true)
  }

  /** Something of the broker is under way, or it watches a node that is there. */
  predicate Pending(s: Ensemble, b: int)
    requires b in s.clients
  {
    Stirs(s.clients[b]) || (s.clients[b].watching && s.owner != NOBODY)
  }

  /** The broker started and asked for the leadership. */
  ghost predicate Asked(es: seq<Event>, b: int) {
    exists i, j :: 0 <= i < j < |es| && es[i] == Start(b) && es[j] == RequestLeadership(b)
  }

  predicate Refusal(e: Event, b: int) {
    e.Serve? && e.b == b && e.fate == Refused
  }

  /** No request of the broker was answered with an error. */
  ghost predicate NeverRefused(es: seq<Event>, b: int) {
    forall i :: 0 <= i < |es| ==> !Refusal(es[i], b)
  }

  /** Nothing happens but that requests of the broker are served and its callbacks delivered. */
  ghost predicate OwnEvents(es: seq<Event>, b: int) {
    forall i :: 0 <= i < |es| ==> (es[i].Serve? || es[i].Deliver?) && es[i].b == b
  }

  /** No error is waiting to be delivered. */
  predicate Clean(c: Client) {
    CreateOther !in c.callbacks && DataOther !in c.callbacks
  }

  ghost predicate Goes(s: Ensemble, b: int, asked: bool) {
    b in s.clients && Clean(s.clients[b]) && (asked && s.clients[b].session ==> Pending(s, b))
  }

  // ---- Every step ----

  lemma Told(c: Client, e: Callback)
    requires Clean(c) && e != CreateOther && e != DataOther
    ensures Clean(Tell(c, e)) && (e != ExistsOk(true) ==> Stirs(Tell(c, e)))
  {
    assert Tell(c, e).callbacks[|c.callbacks|] == e;
  }

  lemma ServeGoes(s: Ensemble, b: int, who: int, i: nat, fate: Fate, nullStat: bool, asked: bool)
    requires Goes(s, b, asked) && who in s.clients && i < |s.clients[who].requests| && !(who == b && fate == Refused)
    ensures Goes(StepServe(s, who, i, fate, nullStat), b, asked)
  {
    if who == b {
      var c := s.clients[b];
      var waiting := c.(requests := Without(c.requests, i));
      Told(waiting, LostReply(c.requests[i]));
      Told(waiting, Reply(c.requests[i], s.owner, nullStat));
    }
  }

  /** What a delivery leaves: any callback but that the node exists leads to a request. */
  lemma Delivered(b: int, c: Client, i: nat)
    requires Clean(c) && i < |c.callbacks|
    ensures var d := React(b, c.(callbacks := Without(c.callbacks, i)), c.callbacks[i]);
            Clean(d) && d.session == c.session && d.watching == c.watching && (Stirs(c) ==> Stirs(d))
  {
    WithoutMembers(c.callbacks, i, CreateOther);
    WithoutMembers(c.callbacks, i, DataOther);
    if c.callbacks[i] == ExistsOk(true) && Stirs(c) && c.requests == [] {
      var k :| 0 <= k < |c.callbacks| && c.callbacks[k] != ExistsOk(true);
      assert Without(c.callbacks, i)[if k < i then k else k - 1] == c.callbacks[k];
    }
  }

  lemma DeliverGoes(external: bool, s: Ensemble, b: int, who: int, i: nat, asked: bool)
    requires Goes(s, b, asked) && who in s.clients && i < |s.clients[who].callbacks|
    ensures Goes(Step(external, s, Deliver(who, i)), b, asked)
  {
    if who == b { Delivered(b, s.clients[b], i); }
  }

  /** A watch on a node that goes tells the broker so. */
  lemma DeletedGoes(s: Ensemble, b: int, asked: bool)
    requires Goes(s, b, asked)
    ensures Goes(Deleted(s), b, asked)
  {
    var c, d := s.clients[b], Deleted(s).clients[b];
    if c.watching {
      assert d.callbacks[|c.callbacks|] == NodeDeleted;
    }
  }

  lemma StepGoes(external: bool, s: Ensemble, e: Event, b: int, asked: bool)
    requires Goes(s, b, asked) && !Refusal(e, b)
    ensures Goes(Step(external, s, e), b, asked || e == RequestLeadership(b))
  {
    match e
    case Start(_) =>
    case RequestLeadership(_) =>
    case Serve(who, i, fate, nullStat) =>
      if who in s.clients && i < |s.clients[who].requests| { ServeGoes(s, b, who, i, fate, nullStat, asked); }
    case Deliver(who, i) =>
      if who in s.clients && i < |s.clients[who].callbacks| { DeliverGoes(external, s, b, who, i, asked); }
    case Expire(who) =>
      if who in s.clients {
        var t := s.(clients := s.clients[who := s.clients[who].(session := false)]);
        assert Goes(t, b, asked);
        DeletedGoes(t, b, asked);
      }
    case ExternalDelete => DeletedGoes(s, b, asked);
  }

  // ---- Every run ----

  lemma {:induction false} RunGoes(external: bool, s: Ensemble, es: seq<Event>, b: int, asked: bool)
    requires Goes(s, b, asked) && NeverRefused(es, b)
    ensures Goes(Exec(external, s, es), b, asked || RequestLeadership(b) in es)
    decreases |es|
  {
    if es != [] {
      StepGoes(external, s, es[0], b, asked);
      RunGoes(external, Step(external, s, es[0]), es[1..], b, asked || es[0] == RequestLeadership(b));
    }
  }

  lemma {:induction false} AskedGoes(external: bool, s: Ensemble, es: seq<Event>, b: int)
    requires b !in s.clients && b != NOBODY && Asked(es, b) && NeverRefused(es, b)
    ensures Goes(Exec(external, s, es), b, true)
    decreases |es|
  {
    var i, j :| 0 <= i < j < |es| && es[i] == Start(b) && es[j] == RequestLeadership(b);
    var next := Step(external, s, es[0]);
    assert es[1..][j - 1] == RequestLeadership(b);
    if i == 0 {
      RunGoes(external, next, es[1..], b, false);
    } else {
      assert es[1..][i - 1] == Start(b);
      if es[0] == Start(b) {
        RunGoes(external, next, es[1..], b, false);
      } else {
        AskedGoes(external, next, es[1..], b);
      }
    }
  }

  /** An error in answer to the first request. */
  function RefusedRun(b: int): seq<Event> {
    [Start(b), RequestLeadership(b), Serve(b, 0, Refused, false), Deliver(b, 0)]
  }

  lemma RefusedRunStops(external: bool, b: int)
    requires b != NOBODY
    ensures Asked(RefusedRun(b), b)
    ensures Exec(external, EMPTY, RefusedRun(b)) == Ensemble(NOBODY, map[b := Fresh()])
  {
    var r := RefusedRun(b);
    assert r[0] == Start(b) && r[1] == RequestLeadership(b);
    assert r == [r[0]] + ([r[1]] + ([r[2]] + ([r[3]] + [])));
    ExecNext(external, EMPTY, r[0], [r[1]] + ([r[2]] + ([r[3]] + [])));
    var s1 := Step(external, EMPTY, r[0]);
    ExecNext(external, s1, r[1], [r[2]] + ([r[3]] + []));
    var s2 := Step(external, s1, r[1]);
    assert s2 == Ensemble(NOBODY, map[b := Fresh().(requests := [Create])]);
    ExecNext(external, s2, r[2], [r[3]] + []);
    var s3 := Step(external, s2, r[2]);
    assert s3 == Ensemble(NOBODY, map[b := Fresh().(callbacks := [CreateOther])]);
    ExecNext(external, s3, r[3], []);
    assert Without([CreateOther], 0) == [];
    assert Step(external, s3, r[3]) == Ensemble(NOBODY, map[b := Fresh()]);
  }

  /** After a run: a live broker that asked has something under way, or it watches a node that is there. */
  ghost predicate Waits(external: bool, es: seq<Event>, b: int) {
    var s := Exec(external, EMPTY, es);
    b in s.clients && (s.clients[b].session ==> Pending(s, b))
  }

  /**
   * Over every run a live broker that asked for the leadership has something under way or watches a node that is there, if
   * and only if none of its requests was answered with an error.
   */
  lemma WaitsExactlyUnlessRefused(external: bool, refusals: bool, b: int)
    requires b != NOBODY
    ensures (forall es :: Asked(es, b) && (refusals || NeverRefused(es, b)) ==> Waits(external, es, b)) <==> !refusals
  {
    if refusals {
      RefusedRunStops(external, b);
      assert !Waits(external, RefusedRun(b), b);
    } else {
      forall es | Asked(es, b) && NeverRefused(es, b) ensures Waits(external, es, b) {
        AskedGoes(external, EMPTY, es, b);
      }
    }
  }

  // ---- A free node is taken over ----

  lemma {:induction false} ExecJoin(external: bool, s: Ensemble, a: seq<Event>, b: seq<Event>)
    ensures Exec(external, s, a + b) == Exec(external, Exec(external, s, a), b)
    decreases |a|
  {
    if a == [] {
      assert a + b == b;
    } else {
      assert (a + b)[1..] == a[1..] + b;
      ExecJoin(external, Step(external, s, a[0]), a[1..], b);
    }
  }

  /** The broker has won. */
  predicate Won(s: Ensemble, b: int) {
    LiveElected(s, b) && s.owner == b
  }

  /** `es` are events of the broker alone that win it the node. */
  ghost predicate Wins(external: bool, s: Ensemble, es: seq<Event>, b: int) {
    OwnEvents(es, b) && Won(Exec(external, s, es), b)
  }

  /** A live broker before a free node. */
  predicate Free(s: Ensemble, b: int) {
    s.owner == NOBODY && b in s.clients && s.clients[b].session
  }

  lemma WinsNext(external: bool, s: Ensemble, e: Event, rest: seq<Event>, b: int)
    requires Wins(external, Step(external, s, e), rest, b) && (e.Serve? || e.Deliver?) && e.b == b
    ensures Wins(external, s, [e] + rest, b)
  {
    ExecNext(external, s, e, rest);
  }

  /** Serve the request at `i` and deliver its reply: what is then asked for, if anything. */
  lemma Answer(external: bool, s: Ensemble, b: int, i: nat) returns (t: Ensemble, serve: Event, deliver: Event)
    requires Free(s, b) && b != NOBODY && i < |s.clients[b].requests|
    ensures serve.Serve? && serve.b == b && deliver.Deliver? && deliver.b == b
    ensures t == Step(external, Step(external, s, serve), deliver)
    ensures s.clients[b].requests[i] == Create ==> Won(t, b)
    ensures s.clients[b].requests[i] != Create ==>
      Free(t, b) && t.clients[b].requests != [] && t.clients[b].requests[|t.clients[b].requests| - 1] == Create
  {
    serve := Serve(b, i, Answered, true);
    var u := Step(external, s, serve);
    deliver := Deliver(b, |s.clients[b].callbacks|);
    t := Step(external, u, deliver);
  }

  lemma RequestWins(external: bool, s: Ensemble, b: int, i: nat) returns (es: seq<Event>)
    requires Free(s, b) && b != NOBODY && i < |s.clients[b].requests|
    ensures Wins(external, s, es, b) && |es| <= 4
  {
    var t, serve, deliver := Answer(external, s, b, i);
    var rest := [];
    if s.clients[b].requests[i] != Create {
      var u, serveCreate, deliverCreated := Answer(external, t, b, |t.clients[b].requests| - 1);
      assert Wins(external, u, [], b);
      WinsNext(external, Step(external, t, serveCreate), deliverCreated, [], b);
      WinsNext(external, t, serveCreate, [deliverCreated] + [], b);
      rest := [serveCreate] + ([deliverCreated] + []);
    }
    assert Wins(external, t, rest, b);
    WinsNext(external, Step(external, s, serve), deliver, rest, b);
    WinsNext(external, s, serve, [deliver] + rest, b);
    es := [serve] + ([deliver] + rest);
  }

  /** A callback other than the news that the node exists leads to a request. */
  lemma CallbackWins(external: bool, s: Ensemble, b: int, i: nat) returns (es: seq<Event>)
    requires Free(s, b) && b != NOBODY && Clean(s.clients[b])
    requires i < |s.clients[b].callbacks| && s.clients[b].callbacks[i] != ExistsOk(true)
    ensures Wins(external, s, es, b) && |es| <= 5
  {
    var t := Step(external, s, Deliver(b, i));
    var n := |t.clients[b].requests|;
    var rest := RequestWins(external, t, b, n - 1);
    WinsNext(external, s, Deliver(b, i), rest, b);
    es := [Deliver(b, i)] + rest;
  }

  /**
   * After any run that left the leader node free, a live broker that asked and was not refused becomes its owner, ELECTED,
   * by at most five events of its own.
   */
  lemma FreeNodeIsTakenOver(external: bool, es: seq<Event>, b: int)
    requires b != NOBODY && Asked(es, b) && NeverRefused(es, b) && Free(Exec(external, EMPTY, es), b)
    ensures exists more :: |more| <= 5 && OwnEvents(more, b) && Won(Exec(external, EMPTY, es + more), b)
  {
    AskedGoes(external, EMPTY, es, b);
    var s := Exec(external, EMPTY, es);
    var c := s.clients[b];
    var more;
    if c.requests != [] {
      more := RequestWins(external, s, b, 0);
    } else {
      var i :| 0 <= i < |c.callbacks| && c.callbacks[i] != ExistsOk(true);
      more := CallbackWins(external, s, b, i);
    }
    ExecJoin(external, EMPTY, es, more);
    assert OwnEvents(more, b) && Won(Exec(external, EMPTY, es + more), b);
  }
}
