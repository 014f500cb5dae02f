/** The broker server as the object it is: internal/broker/server/server.go.  Every method is
    proved to do to the shared stores exactly what the state machine says. */
module Server {
  import opened Types
  import opened Acl
  import opened Subscriptions
  import opened Sessions
  import opened Storage
  import opened Limiter
  import opened Routing
  import opened StateMachine

  /** One packet that a connection delivers, with the outcomes of handling it. */
  datatype Input = Input(packet: Packet, env: Env)

  /** The event is the receipt of that input on the connection; the matches are the registry's. */
  ghost predicate IsInput(e: Event, conn: ConnId, input: Input) {
    e.Deliver? && e.conn == conn && e.packet == input.packet && e.env == input.env.(matches := e.env.matches)
  }

  /** The events are the first inputs, in order. */
  ghost predicate AreInputs(events: seq<Event>, conn: ConnId, inputs: seq<Input>) {
    |events| <= |inputs| && forall i :: 0 <= i < |events| ==> IsInput(events[i], conn, inputs[i])
  }

  /** The handler is serving before each event and after all. */
  ghost predicate StaysServing(b: Broker, events: seq<Event>, conn: ConnId) {
    forall i :: 0 <= i <= |events| ==> IsServing(Run(b, events[..i]), conn)
  }

  /** Each event really is the receipt of a packet: it can happen in the state before it, so that the
      step it stands for is the work of the handler. */
  ghost predicate AllReceived(b: Broker, events: seq<Event>) {
    forall i :: 0 <= i < |events| ==> Receives(Run(b, events[..i]), events[i])
  }

  /** The first inputs, received one by one by a handler that goes on serving. */
  ghost predicate IsLoop(b: Broker, events: seq<Event>, conn: ConnId, inputs: seq<Input>) {
    AreInputs(events, conn, inputs) && StaysServing(b, events, conn) && AllReceived(b, events)
  }

  /** The events of the receive loop and the clean-up: the handler receives inputs until an input
      ends it or, once all are read, the connection is lost. */
  ghost predicate IsService(b: Broker, events: seq<Event>, conn: ConnId, inputs: seq<Input>) {
    && events != []
    && var n := |events| - 1;
       && IsLoop(b, events[..n], conn, inputs)
       && (if n < |inputs| then IsInput(events[n], conn, inputs[n]) && Receives(Run(b, events[..n]), events[n])
           else events[n] == Lost(conn))
       && !IsServing(Run(b, events), conn)
  }

  /** The event is the replay of the client's rows, unless the queue cannot be read: the first
      `okSends` of them are sent, the next send fails. */
  ghost predicate IsReplay(e: Event, conn: ConnId, fault: bool, okSends: nat) {
    && e.Replay? && e.conn == conn && (e.rows.None? <==> fault)
    && (e.rows.Some? ==> e.sent == if okSends < |e.rows.value| then okSends else |e.rows.value|)
  }

  /** The events of a handler after CONNACK: the replay of the queue, then the receive loop. */
  ghost predicate IsHandled(b: Broker, events: seq<Event>, conn: ConnId, fault: bool, okSends: nat,
                            inputs: seq<Input>) {
    && events != [] && IsReplay(events[0], conn, fault, okSends) && Enabled(b, events[0])
    && IsService(Step(b, events[0]), events[1..], conn, inputs)
  }

  /** A run is its first step followed by the others. */
  lemma RunCons(b: Broker, e: Event, events: seq<Event>)
    ensures Run(b, [e] + events) == Run(Step(b, e), events)
  {
    RunConcat(b, [e], events);
    RunSnoc(b, [], e);
    assert [] + [e] == [e];
  }

  lemma ServingSnoc(b: Broker, events: seq<Event>, e: Event, conn: ConnId)
    requires StaysServing(b, events, conn) && IsServing(Run(b, events + [e]), conn)
    ensures StaysServing(b, events + [e], conn)
  {
    assert forall i :: 0 <= i <= |events| ==> (events + [e])[..i] == events[..i];
    assert (events + [e])[..|events| + 1] == events + [e];
  }

  lemma ReceivedSnoc(b: Broker, events: seq<Event>, e: Event)
    requires AllReceived(b, events) && Receives(Run(b, events), e)
    ensures AllReceived(b, events + [e])
  {
    assert forall i :: 0 <= i < |events| ==> (events + [e])[..i] == events[..i];
    assert (events + [e])[..|events|] == events;
  }

  lemma LoopGoesOn(b: Broker, events: seq<Event>, e: Event, conn: ConnId, inputs: seq<Input>)
    requires IsLoop(b, events, conn, inputs) && Receives(Run(b, events), e)
    requires |events| < |inputs| && IsInput(e, conn, inputs[|events|]) && IsServing(Run(b, events + [e]), conn)
    ensures IsLoop(b, events + [e], conn, inputs)
  {
    ServingSnoc(b, events, e, conn);
    ReceivedSnoc(b, events, e);
  }

  lemma LoopEnds(b: Broker, events: seq<Event>, e: Event, conn: ConnId, inputs: seq<Input>)
    requires IsLoop(b, events, conn, inputs) && !IsServing(Run(b, events + [e]), conn)
    requires if |events| < |inputs| then IsInput(e, conn, inputs[|events|]) && Receives(Run(b, events), e)
             else e == Lost(conn)
    ensures IsService(b, events + [e], conn, inputs)
  {
    assert (events + [e])[..|events|] == events;
  }

  class Server {
    const sessions: SessionStore
    const subscriptions: Registry
    const store: Database
    const queue: PersistentQueue
    const limiter: RateLimiter
    const metrics: MetricsRegistry
    const net: Network
    const router: Router
    ghost var conns: map<ConnId, Connection>

    ghost predicate Wired() {
      && queue.repo == store
      && router.sessions == sessions && router.subscriptions == subscriptions && router.offline == queue
      && router.metrics == metrics && router.net == net
    }

    ghost function View(): Broker
      reads this, sessions, subscriptions, store, queue, limiter, metrics, net
    {
      Broker(Gate(limiter.limits, limiter.seen), Hub(sessions.sessions, subscriptions.byClient, conns),
             Tables(store.messages, store.offline), TraceView())
    }

    ghost function TraceView(): Trace
      reads queue, metrics, net
    {
      Trace(net.sends, queue.ops, metrics.values)
    }

    constructor (limits: Limits, store: Database)
      requires TablesOk(Tables(store.messages, store.offline))
      ensures Wired() && Init(View())
      ensures this.store == store && View().gate.limits == limits
    {
      var ss := new SessionStore();
      var rs := new Registry();
      var q := new PersistentQueue(store);
      var m := new MetricsRegistry();
      var n := new Network();
      var l := new RateLimiter(limits);
      var r := new Router(ss, rs, q, m, n);
      this.sessions, this.subscriptions, this.store, this.queue := ss, rs, store, q;
      this.limiter, this.metrics, this.net, this.router := l, m, n, r;
      this.conns := map[];
    }

    method Reply(conn: ConnId, packet: Packet, ok: bool) returns (sent: bool)
      modifies net
      ensures sent == ok
      ensures TraceView() == Put(old(TraceView()), conn, packet, ok)
    {
      sent := net.Send(conn, packet, ok, Routing.Reply);
    }

    method ReplyCounted(conn: ConnId, packet: Packet, ok: bool) returns (sent: bool)
      modifies net, metrics
      ensures sent == ok
      ensures TraceView() == Answer(old(TraceView()), conn, packet, ok)
    {
      sent := net.Send(conn, packet, ok, Routing.Reply);
      if sent {
        metrics.values := metrics.values.(packetsOut := metrics.values.packetsOut + 1);
      }
    }

    /** authenticate; returns the client id and claims it accepted. */
    method Authenticate(conn: ConnId, hello: Option<Packet>, claims: Option<Claims>, replyOk: bool)
      returns (client: Option<(ClientId, Claims)>)
      modifies sessions, metrics, net
      ensures View() == if Acceptable(hello, claims)
                        then Authenticated(old(View()), conn, ClientOf(hello.value, claims.value), claims.value,
                                           replyOk)
                        else old(View())
      ensures client == if Acceptable(hello, claims) && replyOk
                        then Some((ClientOf(hello.value, claims.value), claims.value)) else None
    {
      if hello.None? || hello.value.kind != Connect || claims.None? {
        return None;
      }
      var clientId := hello.value.clientId;
      if clientId == "" {
        clientId := claims.value.clientId;
      }
      if clientId == "" || (claims.value.role == Device && claims.value.deviceId != clientId) {
        return None;
      }
      var present, _ := sessions.UpsertConnected(clientId, claims.value, conn);
      var online := sessions.OnlineCount();
      metrics.values := metrics.values.(activeSessions := online);
      var sent := ReplyCounted(conn, ConnAckPacket(present), replyOk);
      if !sent {
        return None;
      }
      return Some((clientId, claims.value));
    }

    /** deliverOffline, where the send after the first `okSends` fails. */
    method DeliverOffline(clientId: ClientId, conn: ConnId, fault: bool, okSends: nat)
      returns (ghost rows: Option<seq<OfflineRow>>, ghost sent: nat)
      requires Wired()
      modifies metrics, net
      ensures rows.Some? ==> IsListing(rows.value, store.offline, clientId)
      ensures IsReplay(Replay(conn, rows, sent), conn, fault, okSends)
      ensures TraceView() == StateMachine.DeliverOffline(old(TraceView()), conn, rows, sent)
    {
      var pending, listing := queue.Pending(clientId, fault);
      if pending.None? {
        return None, 0;
      }
      var packets := pending.value;
      rows := Some(listing);
      ghost var start := TraceView();
      sent := 0;
      var n := 0;
      var failed := false;
      while n < |packets| && !failed
        invariant 0 <= n <= |packets|
        invariant sent == if failed then n - 1 else n
        invariant if failed then sent == okSends else n <= okSends
        invariant net.sends == start.sends + ReplaySends(conn, packets, sent)[..n]
        invariant metrics.values == start.metrics.(packetsOut := start.metrics.packetsOut + sent)
      {
        var ok := net.Send(conn, packets[n], n < okSends, Replayed);
        if ok {
          metrics.values := metrics.values.(packetsOut := metrics.values.packetsOut + 1);
          sent := sent + 1;
        } else {
          failed := true;
        }
        n := n + 1;
        assert ReplaySends(conn, packets, sent)[..n] == ReplaySends(conn, packets, n - 1)[..n - 1]
                                                       + [Sent(conn, packets[n - 1], ok, Replayed)];
      }
      assert ReplaySends(conn, packets, sent)[..n] == ReplaySends(conn, packets, sent);
    }

    /** The deferred clean-up of handleConnection. */
    method EndConnection(clientId: ClientId, ghost conn: ConnId)
      requires conn in conns && conns[conn].Bound? && conns[conn].clientId == clientId
      modifies this`conns, sessions, metrics
      ensures View() == StateMachine.EndConnection(old(View()), conn)
    {
      sessions.Disconnect(clientId);
      var online := sessions.OnlineCount();
      metrics.values := metrics.values.(activeSessions := online);
      conns := conns[conn := conns[conn].(phase := Ended)];
    }

    /** The checks of handleSubscribe. */
    static method MaySubscribe(claims: Claims, packet: Packet) returns (allowed: bool)
      ensures allowed == Subscribable(claims, packet)
    {
      if |packet.subscriptions| == 0 {
        return false;
      }
      for n := 0 to |packet.subscriptions|
        invariant forall s :: s in packet.subscriptions[..n] ==> CanSubscribe(claims, s.topic)
      {
        assert packet.subscriptions[n] in packet.subscriptions;
        if !CanSubscribe(claims, packet.subscriptions[n].topic) {
          return false;
        }
        assert packet.subscriptions[..n + 1] == packet.subscriptions[..n] + [packet.subscriptions[n]];
      }
      assert packet.subscriptions[..|packet.subscriptions|] == packet.subscriptions;
      return true;
    }

    method HandleSubscribe(conn: ConnId, clientId: ClientId, claims: Claims, packet: Packet,
                           replyOk: bool, errorOk: bool)
      requires Wired()
      modifies sessions, subscriptions, metrics, net
      ensures View() == StateMachine.HandleSubscribe(old(View()), conn, clientId, claims, packet, replyOk, errorOk)
    {
      var allowed := MaySubscribe(claims, packet);
      if !allowed {
        var _ := Reply(conn, ErrorPacket(SubscribeFailed), errorOk);
        return;
      }
      subscriptions.Add(clientId, packet.subscriptions);
      sessions.AddSubscriptions(clientId, packet.subscriptions);
      metrics.values := metrics.values.(subscriptions := metrics.values.subscriptions + |packet.subscriptions|);
      var sent := ReplyCounted(conn, AckPacket(SubAck, packet.packetId), replyOk);
      if !sent {
        var _ := Reply(conn, ErrorPacket(SubscribeFailed), errorOk);
      }
    }

    /** The first half of handlePublish: check, fill in, save. */
    method Prepare(conn: ConnId, clientId: ClientId, claims: Claims, packet: Packet, env: Env)
      returns (prepared: Option<Packet>)
      modifies store`messages, metrics, net
      ensures prepared == if Publishable(claims, packet) && env.saveOk
                          then Some(Stamped(packet, clientId, env.uuid, env.stamp)) else None
      ensures View() == if prepared.Some? then Stored(old(View()), prepared.value)
                        else old(View()).(trace := Put(old(TraceView()), conn, ErrorPacket(PublishFailed), env.errorOk))
    {
      if packet.topic == "" || !CanPublish(claims, packet.topic) {
        var _ := Reply(conn, ErrorPacket(PublishFailed), env.errorOk);
        return None;
      }
      var p := packet;
      if p.packetId == "" {
        p := p.(packetId := env.uuid);
      }
      if p.timestamp == 0 {
        p := p.(timestamp := env.stamp);
      }
      p := p.(clientId := clientId);
      var saved := store.SaveMessage(
        MessageRow(p.packetId, clientId, p.topic, p.qos, p.payload, p.timestamp, p.qos == 0), !env.saveOk);
      if !saved {
        var _ := Reply(conn, ErrorPacket(PublishFailed), env.errorOk);
        return None;
      }
      metrics.values := metrics.values.(publishes := metrics.values.publishes + 1);
      return Some(p);
    }

    /** handlePublish; `matches` is what the registry answered. */
    method HandlePublish(conn: ConnId, clientId: ClientId, claims: Claims, packet: Packet, env: Env)
      returns (ghost matches: seq<Match>)
      requires Wired()
      modifies store, queue, metrics, net
      ensures IsMatchList(matches, subscriptions.byClient, packet.topic)
      ensures View() ==
              StateMachine.HandlePublish(old(View()), conn, clientId, claims, packet, env.(matches := matches))
    {
      var prepared := Prepare(conn, clientId, claims, packet, env);
      if prepared.Some? {
        matches := RouteAndAcknowledge(conn, prepared.value, env.route, env.replyOk, env.errorOk);
      } else {
        matches := SomeMatchList(subscriptions.byClient, packet.topic);
      }
    }

    /** The second half of handlePublish. */
    method RouteAndAcknowledge(conn: ConnId, p: Packet, route: RouteEnv, replyOk: bool, errorOk: bool)
      returns (ghost matches: seq<Match>)
      requires Wired()
      modifies store`offline, queue, metrics, net
      ensures IsMatchList(matches, subscriptions.byClient, p.topic)
      ensures var f := FannedOut(old(View()), p, matches, route);
              View() == RoutedAndAcknowledged(old(View()), conn, p, f, replyOk, errorOk)
    {
      var ok;
      ok, matches := RoutePacket(p, route);
      Acknowledge(conn, p, !ok, replyOk, errorOk);
    }

    method RoutePacket(p: Packet, route: RouteEnv) returns (ok: bool, ghost matches: seq<Match>)
      requires Wired()
      modifies store`offline, queue, metrics, net
      ensures IsMatchList(matches, subscriptions.byClient, p.topic)
      ensures var f := FannedOut(old(View()), p, matches, route);
              View() == AfterRoute(old(View()), f) && ok == !f.failed
    {
      var delivered;
      delivered, ok, matches := router.Route(p, route);
    }

    method Acknowledge(conn: ConnId, p: Packet, failed: bool, replyOk: bool, errorOk: bool)
      modifies metrics, net
      ensures TraceView() == StateMachine.Acknowledge(old(TraceView()), conn, p, failed, replyOk, errorOk)
    {
      if failed {
        var _ := Reply(conn, ErrorPacket(PublishFailed), errorOk);
        return;
      }
      if p.qos > 0 {
        var sent := ReplyCounted(conn, AckPacket(PubAck, p.packetId), replyOk);
        if !sent {
          var _ := Reply(conn, ErrorPacket(PublishFailed), errorOk);
        }
      }
    }

    method HandlePubAck(packet: Packet, markOk: bool, ackOk: bool)
      requires Wired()
      modifies store, queue, metrics
      ensures View() == StateMachine.HandlePubAck(old(View()), packet, markOk, ackOk)
    {
      var _ := store.MarkMessageAcknowledged(packet.packetId, !markOk);
      var acked := queue.Ack(packet.packetId, !ackOk);
      if acked {
        metrics.values := metrics.values.(offlineQueue := metrics.values.offlineQueue - 1);
      }
    }

    method HandleControl(conn: ConnId, clientId: ClientId, kind: Kind, replyOk: bool, errorOk: bool)
      returns (done: bool)
      requires conn in conns && conns[conn].Bound? && conns[conn].clientId == clientId
      modifies this`conns, sessions, metrics, net
      ensures View() == StateMachine.HandleControl(old(View()), conn, kind, replyOk, errorOk)
      ensures conns == if done then old(conns)[conn := old(conns)[conn].(phase := Ended)] else old(conns)
    {
      done := false;
      if kind.Ping? {
        var sent := ReplyCounted(conn, PONG, replyOk);
        if !sent {
          EndConnection(clientId, conn);
          done := true;
        }
      } else if kind.Disconnect? {
        EndConnection(clientId, conn);
        done := true;
      } else {
        var _ := Reply(conn, ErrorPacket(UnsupportedPacket), errorOk);
      }
    }

    /** The switch of the receive loop; `done` tells the loop to return. */
    method Dispatch(conn: ConnId, clientId: ClientId, claims: Claims, packet: Packet, env: Env)
      returns (done: bool, ghost matches: seq<Match>)
      requires Wired()
      requires conn in conns && conns[conn] == Bound(clientId, claims, Serving)
      modifies this`conns, sessions, subscriptions, store, queue, metrics, net
      ensures packet.kind.Publish? ==> IsMatchList(matches, old(subscriptions.byClient), packet.topic)
      ensures View() == StateMachine.Dispatch(old(View()), conn, packet, env.(matches := matches))
      ensures conns == if done then old(conns)[conn := old(conns)[conn].(phase := Ended)] else old(conns)
    {
      done := false;
      if packet.kind.Publish? {
        matches := HandlePublish(conn, clientId, claims, packet, env);
        return;
      }
      matches := [];
      if packet.kind.Subscribe? {
        HandleSubscribe(conn, clientId, claims, packet, env.replyOk, env.errorOk);
      } else if packet.kind.PubAck? {
        HandlePubAck(packet, env.markOk, env.ackOk);
      } else {
        done := HandleControl(conn, clientId, packet.kind, env.replyOk, env.errorOk);
      }
    }

    /** One turn of the receive loop. */
    method HandlePacket(conn: ConnId, clientId: ClientId, claims: Claims, packet: Packet, env: Env)
      returns (done: bool, ghost matches: seq<Match>)
      requires Wired()
      requires conn in conns && conns[conn] == Bound(clientId, claims, Serving)
      modifies this`conns, sessions, subscriptions, store, queue, limiter, metrics, net
      ensures Receives(old(View()), Deliver(conn, packet, env.(matches := matches)))
      ensures View() == Step(old(View()), Deliver(conn, packet, env.(matches := matches)))
      ensures conns == if done then old(conns)[conn := old(conns)[conn].(phase := Ended)] else old(conns)
    {
      metrics.values := metrics.values.(packetsIn := metrics.values.packetsIn + 1);
      var allowed := limiter.Allow(clientId, env.now);
      assert View() == CountedIn(old(View()), conn, env.now);
      if !allowed {
        metrics.values := metrics.values.(rateLimited := metrics.values.rateLimited + 1);
        var _ := Reply(conn, ErrorPacket(RateLimited), env.errorOk);
        done := false;
        matches := SomeMatchList(subscriptions.byClient, packet.topic);
      } else {
        done, matches := Dispatch(conn, clientId, claims, packet, env);
      }
    }

    /** The part of handleConnection before the receive loop, for one atomic step each. */
    method Open(conn: ConnId, hello: Option<Packet>, claims: Option<Claims>, replyOk: bool, errorOk: bool)
      returns (client: Option<(ClientId, Claims)>)
      requires conn !in conns
      modifies this`conns, sessions, metrics, net
      ensures View() == Step(old(View()), Accept(conn, hello, claims, replyOk, errorOk))
      ensures conns.Keys == old(conns).Keys + {conn}
      ensures client.Some? <==> Acceptable(hello, claims) && replyOk
      ensures client.Some? ==> conns[conn] == Bound(client.value.0, client.value.1, Replaying)
    {
      client := Authenticate(conn, hello, claims, replyOk);
      if client.Some? {
        conns := conns[conn := Bound(client.value.0, client.value.1, Replaying)];
      } else {
        metrics.values := metrics.values.(authFailures := metrics.values.authFailures + 1);
        conns := conns[conn := if Acceptable(hello, claims)
                               then Bound(ClientOf(hello.value, claims.value), claims.value, Ended) else Rejected];
        var _ := Reply(conn, ErrorPacket(AuthFailed), errorOk);
      }
    }

    method ReplayQueue(conn: ConnId, clientId: ClientId, claims: Claims, fault: bool, okSends: nat)
      returns (ghost e: Event)
      requires Wired() && conn in conns && conns[conn] == Bound(clientId, claims, Replaying)
      modifies this`conns, metrics, net
      ensures IsReplay(e, conn, fault, okSends) && Enabled(old(View()), e)
      ensures View() == Step(old(View()), e)
      ensures conns == old(conns)[conn := Bound(clientId, claims, Serving)]
    {
      conns := conns[conn := conns[conn].(phase := Serving)];
      ghost var rows, sent := DeliverOffline(clientId, conn, fault, okSends);
      e := Replay(conn, rows, sent);
    }

    /** handleConnection: the handler of one connection, run on its own, is a run of the state
        machine: it accepts the connection and, if that succeeds, replays the queue and receives the
        inputs in order until one of them ends it or the connection is lost. */
    method HandleConnection(conn: ConnId, hello: Option<Packet>, claims: Option<Claims>, replyOk: bool, errorOk: bool,
                            fault: bool, okSends: nat, inputs: seq<Input>)
      returns (ghost events: seq<Event>)
      requires Wired() && conn !in conns
      modifies this`conns, sessions, subscriptions, store, queue, limiter, metrics, net
      ensures View() == Run(old(View()), events)
      ensures events != [] && events[0] == Accept(conn, hello, claims, replyOk, errorOk)
      ensures if Acceptable(hello, claims) && replyOk
              then IsHandled(Step(old(View()), events[0]), events[1..], conn, fault, okSends, inputs)
              else |events| == 1 && conn in conns && !IsServing(View(), conn)
    {
      ghost var accept := Accept(conn, hello, claims, replyOk, errorOk);
      ghost var start := View();
      var client := Open(conn, hello, claims, replyOk, errorOk);
      ghost var rest: seq<Event> := [];
      if client.Some? {
        var (clientId, identity) := client.value;
        rest := ServeClient(conn, clientId, identity, fault, okSends, inputs);
      }
      RunCons(start, accept, rest);
      events := [accept] + rest;
      assert events[1..] == rest;
    }

    /** What handleConnection does for an authenticated client. */
    method ServeClient(conn: ConnId, clientId: ClientId, claims: Claims, fault: bool, okSends: nat, inputs: seq<Input>)
      returns (ghost events: seq<Event>)
      requires Wired() && conn in conns && conns[conn] == Bound(clientId, claims, Replaying)
      modifies this`conns, sessions, subscriptions, store, queue, limiter, metrics, net
      ensures View() == Run(old(View()), events)
      ensures IsHandled(old(View()), events, conn, fault, okSends, inputs)
    {
      ghost var start := View();
      ghost var replay := ReplayQueue(conn, clientId, claims, fault, okSends);
      ghost var rest := Serve(conn, clientId, claims, inputs);
      RunCons(start, replay, rest);
      events := [replay] + rest;
      assert events[1..] == rest;
    }

    /** One turn of the receive loop, added to the events so far. */
    method Turn(conn: ConnId, clientId: ClientId, claims: Claims, inputs: seq<Input>, n: nat,
                ghost start: Broker, ghost events: seq<Event>)
      returns (done: bool, ghost e: Event)
      requires Wired() && conn in conns && conns[conn] == Bound(clientId, claims, Serving)
      requires |events| == n < |inputs| && View() == Run(start, events) && IsLoop(start, events, conn, inputs)
      modifies this`conns, sessions, subscriptions, store, queue, limiter, metrics, net
      ensures View() == Run(start, events + [e])
      ensures if done then IsService(start, events + [e], conn, inputs) else IsLoop(start, events + [e], conn, inputs)
      ensures conn in conns && conns[conn] == Bound(clientId, claims, if done then Ended else Serving)
    {
      ghost var matches;
      done, matches := HandlePacket(conn, clientId, claims, inputs[n].packet, inputs[n].env);
      e := Deliver(conn, inputs[n].packet, inputs[n].env.(matches := matches));
      RunSnoc(start, events, e);
      if done {
        LoopEnds(start, events, e, conn, inputs);
      } else {
        LoopGoesOn(start, events, e, conn, inputs);
      }
    }

    /** The receive loop and the deferred clean-up. */
    method Serve(conn: ConnId, clientId: ClientId, claims: Claims, inputs: seq<Input>)
      returns (ghost events: seq<Event>)
      requires Wired() && conn in conns && conns[conn] == Bound(clientId, claims, Serving)
      modifies this`conns, sessions, subscriptions, store, queue, limiter, metrics, net
      ensures View() == Run(old(View()), events)
      ensures IsService(old(View()), events, conn, inputs)
      ensures conn in conns && conns[conn] == Bound(clientId, claims, Ended)
    {
      events := [];
      ghost var start := View();
      for n := 0 to |inputs|
        invariant View() == Run(start, events) && |events| == n
        invariant IsLoop(start, events, conn, inputs)
        invariant conn in conns && conns[conn] == Bound(clientId, claims, Serving)
      {
        var done;
        ghost var e;
        done, e := Turn(conn, clientId, claims, inputs, n, start, events);
        events := events + [e];
        if done {
          return;
        }
      }
      EndConnection(clientId, conn);
      RunSnoc(start, events, Lost(conn));
      LoopEnds(start, events, Lost(conn), conn, inputs);
      events := events + [Lost(conn)];
    }
  }
}
