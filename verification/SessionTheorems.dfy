/** Persistent subscriptions and the Online flag, over every run. */
module SessionTheorems {
  import opened Types
  import opened Upserts
  import opened Subscriptions
  import opened Sessions
  import opened Routing
  import opened StateMachine
  import opened Invariants
  import opened Steps
  import Conservation

  // ---- Subscriptions survive ----

  /** Everything a client ever asked for in accepted SUBSCRIBE packets, in order. */
  ghost function Requests(b: Broker, events: seq<Event>, c: ClientId): seq<Subscription> {
    if events == [] then []
    else
      var front, last := events[..|events| - 1], events[|events| - 1];
      Requests(b, front, c) + if Subscribes(Run(b, front), last, c) then last.packet.subscriptions else []
  }

  lemma RegistryStep(b: Broker, e: Event, c: ClientId)
    ensures SubsOf(Step(b, e).hub.registry, c) ==
            UpsertAll(SubsOf(b.hub.registry, c), if Subscribes(b, e, c) then e.packet.subscriptions else [])
  {
    StepHub(b, e);
  }

  lemma {:induction false} RegistryIsFold(b: Broker, events: seq<Event>, c: ClientId)
    requires Init(b)
    ensures SubsOf(Run(b, events).hub.registry, c) == UpsertAll([], Requests(b, events, c))
  {
    if events != [] {
      var front, last := events[..|events| - 1], events[|events| - 1];
      RegistryIsFold(b, front, c);
      var more := if Subscribes(Run(b, front), last, c) then last.packet.subscriptions else [];
      RegistryStep(Run(b, front), last, c);
      UpsertAllConcat([], Requests(b, front, c), more);
    }
  }

  /** Persistent sessions: in every reachable state the session of a client, however often it
      reconnected, holds the merge of all its accepted SUBSCRIBE packets: one entry per topic, in
      the order of first request, each being the last request for its topic.  The registry agrees. */
  lemma PersistentSessions(b: Broker, events: seq<Event>, c: ClientId)
    requires Init(b) && c in Run(b, events).hub.sessions
    ensures var h, requests := Run(b, events).hub, Requests(b, events, c);
            && h.sessions[c].subscriptions == SubsOf(h.registry, c) == UpsertAll([], requests)
            && IsMergeOf(h.sessions[c].subscriptions, requests)
            && Distinct(h.sessions[c].subscriptions)
  {
    RegistryIsFold(b, events, c);
    RunInv(b, events);
    UpsertAllMeaning(Requests(b, events, c));
  }

  // ---- sessionPresent ----

  ghost predicate BoundAt(b: Broker, events: seq<Event>, i: int, c: ClientId) {
    0 <= i < |events| && Binds(Run(b, events[..i]), events[i], c, events[i].conn)
  }

  ghost predicate BoundBefore(b: Broker, events: seq<Event>, c: ClientId) {
    exists i :: BoundAt(b, events, i, c)
  }

  lemma SessionsStep(b: Broker, e: Event, c: ClientId)
    ensures c in Step(b, e).hub.sessions <==> c in b.hub.sessions || Binds(b, e, c, e.conn)
  {
    StepHub(b, e);
  }

  lemma BoundAtSnoc(b: Broker, front: seq<Event>, last: Event, i: int, c: ClientId)
    ensures BoundAt(b, front + [last], i, c) <==>
              if i == |front| then Binds(Run(b, front), last, c, last.conn) else BoundAt(b, front, i, c)
  {
    if 0 <= i <= |front| {
      assert (front + [last])[..i] == front[..i];
    }
    assert front[..|front|] == front;
  }

  lemma {:induction false} SessionsAreThoseBound(b: Broker, events: seq<Event>, c: ClientId)
    requires Init(b)
    ensures c in Run(b, events).hub.sessions <==> BoundBefore(b, events, c)
  {
    if events != [] {
      var front, last := events[..|events| - 1], events[|events| - 1];
      assert events == front + [last];
      SessionsAreThoseBound(b, front, c);
      SessionsStep(Run(b, front), last, c);
      BoundAtSnoc(b, front, last, |front|, c);
      forall i ensures i != |front| ==> (BoundAt(b, events, i, c) <==> BoundAt(b, front, i, c)) {
        BoundAtSnoc(b, front, last, i, c);
      }
    }
  }

  /** CONNACK tells a client that its session is present exactly when it connected before in the run. */
  lemma SessionPresentExactly(b: Broker, events: seq<Event>, e: Event, s: Sent)
    requires Init(b) && e.Accept? && Enabled(Run(b, events), e)
    requires s in Replies(Run(b, events), e) && s.packet.kind.ConnAck?
    ensures Acceptable(e.hello, e.claims)
    ensures s.packet.sessionPresent <==> BoundBefore(b, events, ClientOf(e.hello.value, e.claims.value))
  {
    RepliesExplained(Run(b, events), e);
    SessionsAreThoseBound(b, events, ClientOf(e.hello.value, e.claims.value));
  }

  // ---- The Online flag ----

  /** The event changes the connection of client c. */
  ghost predicate Touches(b: Broker, e: Event, c: ClientId) {
    Binds(b, e, c, e.conn) || Ends(b, e, c)
  }

  ghost predicate LastTouch(b: Broker, events: seq<Event>, i: int, c: ClientId, k: ConnId) {
    && 0 <= i < |events| && Binds(Run(b, events[..i]), events[i], c, k)
    && forall j :: i < j < |events| ==> !Touches(Run(b, events[..j]), events[j], c)
  }

  ghost predicate OnlineOn(b: Broker, c: ClientId, k: ConnId) {
    c in b.hub.sessions && b.hub.sessions[c].online && b.hub.sessions[c].conn == Some(k)
  }

  lemma OnlineStep(b: Broker, e: Event, c: ClientId, k: ConnId)
    ensures OnlineOn(Step(b, e), c, k) <==> Binds(b, e, c, k) || (OnlineOn(b, c, k) && !Touches(b, e, c))
  {
    StepHub(b, e);
  }

  lemma LastTouchSnoc(b: Broker, front: seq<Event>, last: Event, i: int, c: ClientId, k: ConnId)
    ensures LastTouch(b, front + [last], i, c, k) <==>
              if i == |front| then Binds(Run(b, front), last, c, k)
              else LastTouch(b, front, i, c, k) && !Touches(Run(b, front), last, c)
  {
    var events := front + [last];
    assert events[..|front|] == front && events[|front|] == last;
    assert forall j :: 0 <= j < |front| ==> events[..j] == front[..j] && events[j] == front[j];
  }

  /** In every reachable state, a client is online on connection k exactly when storing its session
      on k was the last thing that happened to its connection: no later connect of the same id and
      no later end of any handler of that id. */
  lemma {:induction false} OnlineExactly(b: Broker, events: seq<Event>, c: ClientId, k: ConnId)
    requires Init(b)
    ensures OnlineOn(Run(b, events), c, k) <==> exists i :: LastTouch(b, events, i, c, k)
  {
    if events != [] {
      var n := |events| - 1;
      var front, last := events[..n], events[n];
      assert events == front + [last];
      OnlineExactly(b, front, c, k);
      OnlineStep(Run(b, front), last, c, k);
      forall i ensures LastTouch(b, events, i, c, k) <==>
              if i == n then Binds(Run(b, front), last, c, k)
              else LastTouch(b, front, i, c, k) && !Touches(Run(b, front), last, c)
      {
        LastTouchSnoc(b, front, last, i, c, k);
      }
      if Binds(Run(b, front), last, c, k) {
        assert LastTouch(b, events, n, c, k);
      } else if OnlineOn(Run(b, front), c, k) && !Touches(Run(b, front), last, c) {
        var i :| LastTouch(b, front, i, c, k);
        assert LastTouch(b, events, i, c, k);
      }
    }
  }

  // ---- Online means served ----

  /** A handler for connection k is running. */
  ghost predicate IsRunning(h: Hub, k: ConnId) {
    k in h.conns && h.conns[k].Bound? && !h.conns[k].phase.Ended?
  }

  ghost function Handlers(b: Broker): set<ConnId> {
    set k | k in b.hub.conns && IsRunning(b.hub, k)
  }

  /** CONNACK sends succeed, and no client connects while a handler of the same id is running. */
  ghost predicate Orderly(b: Broker, e: Event) {
    e.Accept? && Enabled(b, e) && Acceptable(e.hello, e.claims) ==>
      e.replyOk && NoHandlerFor(b.hub, ClientOf(e.hello.value, e.claims.value))
  }

  ghost predicate NoHandlerFor(h: Hub, c: ClientId) {
    forall k :: IsRunning(h, k) ==> h.conns[k].clientId != c
  }

  ghost predicate OrderlyRun(b: Broker, events: seq<Event>) {
    forall i :: 0 <= i < |events| ==> Orderly(Run(b, events[..i]), events[i])
  }

  /** Online sessions and running handlers correspond, connection by connection. */
  ghost predicate Served(h: Hub) {
    && (forall k :: IsRunning(h, k) ==>
          var c := h.conns[k].clientId;
          c in h.sessions && h.sessions[c].online && h.sessions[c].conn == Some(k))
    && (forall c :: c in h.sessions && h.sessions[c].online ==>
          && h.sessions[c].conn.Some? && IsRunning(h, h.sessions[c].conn.value)
          && h.conns[h.sessions[c].conn.value].clientId == c)
  }

  lemma ServedBind(h: Hub, k: ConnId, c: ClientId, claims: Claims)
    requires Served(h) && k !in h.conns && NoHandlerFor(h, c)
    ensures Served(Hub(Connected(h.sessions, c, claims, k), h.registry, h.conns[k := Bound(c, claims, Replaying)]))
  {
  }

  lemma ServedEnd(h: Hub, k: ConnId)
    requires Served(h) && IsRunning(h, k)
    ensures Served(Hub(Disconnected(h.sessions, h.conns[k].clientId), h.registry,
                       h.conns[k := h.conns[k].(phase := Ended)]))
  {
  }

  lemma ServedSubscribe(h: Hub, c: ClientId, subs: seq<Subscription>)
    requires Served(h)
    ensures Served(Hub(WithSubscriptions(h.sessions, c, subs), Added(h.registry, c, subs), h.conns))
  {
  }

  lemma ServedPhase(h: Hub, k: ConnId)
    requires Served(h) && IsRunning(h, k)
    ensures Served(h.(conns := h.conns[k := h.conns[k].(phase := Serving)]))
  {
  }

  lemma ServedReject(h: Hub, k: ConnId)
    requires Served(h) && k !in h.conns
    ensures Served(h.(conns := h.conns[k := Rejected]))
  {
  }

  lemma ServedStep(b: Broker, e: Event)
    requires Served(b.hub) && Orderly(b, e)
    ensures Served(Step(b, e).hub)
  {
    StepHub(b, e);
    if Enabled(b, e) {
      match e {
        case Accept(k, hello, claims, _, _) =>
          if Acceptable(hello, claims) {
            ServedBind(b.hub, k, ClientOf(hello.value, claims.value), claims.value);
          } else {
            ServedReject(b.hub, k);
          }
        case Replay(k, _, _) => ServedPhase(b.hub, k);
        case Lost(k) => ServedEnd(b.hub, k);
        case Deliver(k, packet, _) =>
          ServedEnd(b.hub, k);
          ServedSubscribe(b.hub, b.hub.conns[k].clientId, packet.subscriptions);
      }
    }
  }

  /** A step that is not orderly breaks the correspondence. */
  lemma UnservedStep(b: Broker, e: Event)
    requires Inv(b) && Served(b.hub) && !Orderly(b, e)
    ensures !Served(Step(b, e).hub)
  {
    var h, c := Step(b, e).hub, ClientOf(e.hello.value, e.claims.value);
    StepHub(b, e);
    if e.replyOk {
      var k :| IsRunning(b.hub, k) && b.hub.conns[k].clientId == c;
      assert IsRunning(h, k) && h.conns[k].clientId == c && h.sessions[c].conn == Some(e.conn);
    } else {
      assert h.sessions[c].online && h.sessions[c].conn == Some(e.conn) && !IsRunning(h, e.conn);
    }
  }

  ghost predicate ServedAfter(b: Broker, events: seq<Event>) {
    Served(Run(b, events).hub)
  }

  /** Every state the run passes through is served. */
  ghost predicate AlwaysServed(b: Broker, events: seq<Event>) {
    forall i :: 0 <= i <= |events| ==> ServedAfter(b, events[..i])
  }

  lemma AlwaysServedSnoc(b: Broker, front: seq<Event>, last: Event)
    ensures AlwaysServed(b, front + [last]) <==> AlwaysServed(b, front) && ServedAfter(b, front + [last])
  {
    var events := front + [last];
    assert events[..|events|] == events;
    assert forall i :: 0 <= i <= |front| ==> events[..i] == front[..i];
  }

  lemma OrderlySnoc(b: Broker, front: seq<Event>, last: Event)
    ensures OrderlyRun(b, front + [last]) <==> OrderlyRun(b, front) && Orderly(Run(b, front), last)
  {
    var events := front + [last];
    assert events[..|front|] == front && events[|front|] == last;
    assert forall i :: 0 <= i < |front| ==> events[..i] == front[..i] && events[i] == front[i];
  }

  /** Online means served, exactly: every state of a run is served if and only if, all along the run,
      CONNACK sends succeed and no client connects while a handler of the same id is running. */
  lemma {:induction false} ServedExactly(b: Broker, events: seq<Event>)
    requires Init(b)
    ensures AlwaysServed(b, events) <==> OrderlyRun(b, events)
  {
    if events != [] {
      var front, last := events[..|events| - 1], events[|events| - 1];
      assert events == front + [last];
      ServedExactly(b, front);
      RunInv(b, front);
      AlwaysServedSnoc(b, front, last);
      OrderlySnoc(b, front, last);
      if AlwaysServed(b, front) {
        assert front[..|front|] == front;
        assert ServedAfter(b, front);
        ServedStepExactly(Run(b, front), last);
      }
    }
  }

  lemma ServedStepExactly(b: Broker, e: Event)
    requires Inv(b) && Served(b.hub)
    ensures Served(Step(b, e).hub) <==> Orderly(b, e)
  {
    if Orderly(b, e) {
      ServedStep(b, e);
    } else {
      UnservedStep(b, e);
    }
  }

  lemma {:induction false} InjectiveImage(ids: set<ClientId>, f: map<ClientId, ConnId>)
    requires ids <= f.Keys
    requires forall x, y :: x in ids && y in ids && f[x] == f[y] ==> x == y
    ensures |set x | x in ids :: f[x]| == |ids|
  {
    if ids != {} {
      var x :| x in ids;
      var rest := ids - {x};
      InjectiveImage(rest, f);
      assert (set y | y in ids :: f[y]) == (set y | y in rest :: f[y]) + {f[x]};
    }
  }

  /** Where CONNACKs go through and each id has at most one open connection, a session is online on
      connection k exactly when a handler for that very connection is running for that client, and
      the ActiveSessions gauge is the number of running handlers. */
  lemma OnlineMeansServed(b: Broker, events: seq<Event>, c: ClientId, k: ConnId)
    requires Init(b) && OrderlyRun(b, events)
    ensures var b' := Run(b, events);
            && (OnlineOn(b', c, k) <==> IsRunning(b'.hub, k) && b'.hub.conns[k].clientId == c)
            && b'.trace.metrics.activeSessions == |Handlers(b')|
  {
    ServedExactly(b, events);
    assert events[..|events|] == events;
    assert ServedAfter(b, events);
    Conservation.EventsCounted(b, events);
    var b' := Run(b, events);
    var ids := OnlineIds(b'.hub.sessions);
    var f := map x | x in ids :: b'.hub.sessions[x].conn.value;
    assert forall x :: x in ids ==> b'.hub.conns[f[x]].clientId == x;
    InjectiveImage(ids, f);
    assert (set x | x in ids :: f[x]) == Handlers(b') by {
      forall h | h in Handlers(b') ensures h in set x | x in ids :: f[x] {
        assert b'.hub.conns[h].clientId in ids && f[b'.hub.conns[h].clientId] == h;
      }
    }
  }

  // ---- Why both hypotheses are needed ----

  /** A CONNACK that cannot be sent leaves the session online with no handler to end it. */
  lemma FailedConnackStaysOnline(b: Broker, e: Event, c: ClientId)
    requires Binds(b, e, c, e.conn) && !e.replyOk
    ensures OnlineOn(Step(b, e), c, e.conn) && !IsRunning(Step(b, e).hub, e.conn)
  {
    StepHub(b, e);
  }

  /** The end of a stale handler takes a newer connection of the same id offline, although the
      newer handler goes on running. */
  lemma StaleHandlerTakesSessionOffline(b: Broker, e: Event, c: ClientId, k: ConnId)
    requires OnlineOn(b, c, k) && IsRunning(b.hub, k) && Ends(b, e, c) && e.conn != k
    ensures IsRunning(Step(b, e).hub, k) && !OnlineOn(Step(b, e), c, k)
  {
    StepHub(b, e);
  }

  /** Such a state is reachable: the same id connects twice and the first connection is lost. */
  lemma StaleHandlerIsReachable(b: Broker) returns (events: seq<Event>)
    requires Init(b)
    ensures var b' := Run(b, events);
            && IsRunning(b'.hub, 1) && b'.hub.conns[1].clientId == "a"
            && "a" in b'.hub.sessions && !b'.hub.sessions["a"].online
  {
    var hello, claims := Some(BLANK.(kind := Connect, clientId := "a")), Some(Claims("a", "", Admin));
    var e1, e2, e3, e4 := Accept(0, hello, claims, true, true), Replay(0, None, 0),
                          Accept(1, hello, claims, true, true), Lost(0);
    events := [e1] + [e2] + [e3] + [e4];
    var b1, b2 := Step(b, e1), Step(Step(b, e1), e2);
    var b3 := Step(b2, e3);
    RunSnoc(b, [], e1);
    RunSnoc(b, [e1], e2);
    RunSnoc(b, [e1] + [e2], e3);
    RunSnoc(b, [e1] + [e2] + [e3], e4);
    assert [] + [e1] == [e1];
    StepHub(b, e1);
    assert b1.hub.conns == map[0 := Bound("a", claims.value, Replaying)];
    StepHub(b1, e2);
    assert b2.hub.conns == map[0 := Bound("a", claims.value, Serving)];
    StepHub(b2, e3);
    assert b3.hub.conns[0] == Bound("a", claims.value, Serving) && OnlineOn(b3, "a", 1) && IsRunning(b3.hub, 1);
    StaleHandlerTakesSessionOffline(b3, e4, "a", 1);
    StepHub(b3, e4);
  }
}
